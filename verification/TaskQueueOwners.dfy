/**
 What a task carries with it: who controls it and which running task it may join are
 fixed when it is admitted.  Only a takeover of the running task changes its controller.
 */
module TaskQueueOwners {
  import opened Prelude
  import opened TaskQueue
  import opened TaskQueueOnce
  import opened TaskQueueInvariant
  import opened TaskQueueTheorems

  /** The task in the slot or in the queue. */
  ghost predicate Holds(s: Sys, task: Task) {
    s.lane.active == Some(task) || task in s.lane.queue
  }

  /** The task is the same but for its status, and for its controller after a takeover. */
  ghost predicate Carries(task: Task, after: Task, taken: Option<nat>) {
    && after.id == task.id && after.target == task.target
    && after.controller == if taken.Some? then taken.value else task.controller
  }

  /** Who takes over this task in this step. */
  function TakenBy(s: Sys, a: Action, x: nat): Option<nat> {
    if a.TakeOver? && s.lane.booted && IsActive(s.lane.active, x) then Some(a.user) else None
  }

  /** Every task held in `t` was held in `s`, by the same member and with the same target. */
  ghost predicate Keeps(s: Sys, t: Sys) {
    forall after: Task :: Holds(t, after) ==> exists task: Task :: Holds(s, task) && Carries(task, after, None)
  }

  lemma KeepsTransitive(s: Sys, m: Sys, t: Sys)
    requires Keeps(s, m) && Keeps(m, t)
    ensures Keeps(s, t)
  {
    forall after: Task | Holds(t, after)
      ensures exists task: Task :: Holds(s, task) && Carries(task, after, None)
    {
      var mid: Task :| Holds(m, mid) && Carries(mid, after, None);
      var task: Task :| Holds(s, task) && Carries(task, mid, None);
      assert Carries(task, after, None);
    }
  }

  lemma ClaimOwners(s: Sys, w: Write)
    ensures Keeps(s, StartNext(s, w))
  {
    var t := StartNext(s, w);
    forall after: Task | Holds(t, after)
      ensures exists task: Task :: Holds(s, task) && Carries(task, after, None)
    {
      if after in s.lane.queue {
        assert Holds(s, after) && Carries(after, after, None);
      } else if t != s && w.Applied? && after == s.lane.queue[0].(status := Running) {
        assert Holds(s, s.lane.queue[0]) && Carries(s.lane.queue[0], after, None);
      } else {
        assert Holds(s, after) && Carries(after, after, None);
      }
    }
  }

  /** Fewer tasks, or the same ones with another status. */
  lemma QueueOwners(s: Sys, t: Sys)
    requires t.lane.active == s.lane.active || t.lane.active.None?
             || (s.lane.active.Some? && Carries(s.lane.active.value, t.lane.active.value, None))
    requires forall after: Task :: after in t.lane.queue ==>
               exists task: Task :: task in s.lane.queue && Carries(task, after, None)
    ensures Keeps(s, t)
  {
    forall after: Task | Holds(t, after)
      ensures exists task: Task :: Holds(s, task) && Carries(task, after, None)
    {
      if after in t.lane.queue {
        var task: Task :| task in s.lane.queue && Carries(task, after, None);
        assert Holds(s, task);
      } else if t.lane.active == s.lane.active {
        assert Holds(s, after) && Carries(after, after, None);
      } else {
        assert Holds(s, s.lane.active.value);
      }
    }
  }

  lemma SameItems(s: Sys, t: Sys)
    requires forall after: Task :: after in t.lane.queue ==> after in s.lane.queue
    ensures forall after: Task :: after in t.lane.queue ==>
              exists task: Task :: task in s.lane.queue && Carries(task, after, None)
  {
    forall after: Task | after in t.lane.queue
      ensures exists task: Task :: task in s.lane.queue && Carries(task, after, None)
    {
      assert after in s.lane.queue && Carries(after, after, None);
    }
  }

  lemma OneItem(s: Sys, t: Sys, i: nat, status: Status)
    requires i < |s.lane.queue| && t.lane.queue == s.lane.queue[i := s.lane.queue[i].(status := status)]
    ensures forall after: Task :: after in t.lane.queue ==>
              exists task: Task :: task in s.lane.queue && Carries(task, after, None)
  {
    forall after: Task | after in t.lane.queue
      ensures exists task: Task :: task in s.lane.queue && Carries(task, after, None)
    {
      var k :| 0 <= k < |t.lane.queue| && t.lane.queue[k] == after;
      assert s.lane.queue[k] in s.lane.queue && Carries(s.lane.queue[k], after, None);
    }
  }

  lemma {:induction false} KeptItems(q: seq<Task>, n: nat, user: nat, admin: bool, ws: seq<Write>)
    requires n <= |q|
    ensures forall task :: task in Kept(q, n, user, admin, ws) ==> task in q
  {
    if n == 0 {
    } else {
      KeptItems(q, n - 1, user, admin, ws);
    }
  }

  // ---------------------------------------------------------------- each step

  lemma LeaveOwners(s: Sys, a: Action)
    requires a.Cancel? || a.Clear?
    ensures Keeps(s, Do(s, a))
  {
    if a.Clear? {
      var m := Cleared(s, a.user, a.admin, a.ws);
      KeptItems(s.lane.queue, |s.lane.queue|, a.user, a.admin, a.ws);
      SameItems(s, m);
      QueueOwners(s, m);
      ClaimOwners(m, a.wc);
      KeepsTransitive(s, m, StartNext(m, a.wc));
    } else {
      CancelOwners(s, a.id, a.w, a.wc);
    }
  }

  lemma CancelOwners(s: Sys, id: nat, w: Write, wc: Write)
    ensures Keeps(s, DoCancel(s, id, w, wc))
  {
    var i := IndexOf(s.lane.queue, id);
    SameItems(s, s);
    QueueOwners(s, s);
    if i < |s.lane.queue| {
      var m := CancelledAt(s, i, w);
      SameItems(s, m);
      QueueOwners(s, m);
      ClaimOwners(m, wc);
      KeepsTransitive(s, m, StartNext(m, wc));
    }
  }

  lemma SettleOwners(s: Sys, id: nat, w: Write, wc: Write)
    ensures Keeps(s, DoSteerSettle(s, id, w, wc))
  {
    SameItems(s, s);
    QueueOwners(s, s);
    if id in s.work.steers && s.work.steers[id].Some? {
      var reply := s.work.steers[id].value;
      var m := Settled(s, id, reply, w);
      var i := IndexOf(s.lane.queue, id);
      if i < |s.lane.queue| && FinalStatus(reply, w).Queued? {
        OneItem(s, m, i, FinalStatus(reply, w));
      } else {
        SameItems(s, m);
      }
      QueueOwners(s, m);
      ClaimOwners(m, wc);
      KeepsTransitive(s, m, StartNext(m, wc));
    }
  }

  lemma FinishOwners(s: Sys, id: nat, cut: bool, err: bool, w: Write, wc: Write)
    ensures Keeps(s, DoFinish(s, id, cut, err, w, wc))
  {
    if id in s.work.runners {
      var m := Ended(s, id, cut, err, w);
      EndedOwners(s, id, cut, err, w);
      ClaimOwners(m, wc);
      KeepsTransitive(s, m, StartNext(m, wc));
    } else {
      SameLane(s, s);
    }
  }

  lemma EndedOwners(s: Sys, id: nat, cut: bool, err: bool, w: Write)
    ensures Keeps(s, Ended(s, id, cut, err, w))
  {
    SameItems(s, Ended(s, id, cut, err, w));
    QueueOwners(s, Ended(s, id, cut, err, w));
  }

  lemma SteerClaimOwners(s: Sys, id: nat, capable: bool, w: Write)
    ensures Keeps(s, DoSteerClaim(s, id, capable, w))
  {
    var t := DoSteerClaim(s, id, capable, w);
    var i := IndexOf(s.lane.queue, id);
    if i < |s.lane.queue| && t.lane.queue != s.lane.queue {
      OneItem(s, t, i, Steering);
    } else {
      SameItems(s, t);
    }
    QueueOwners(s, t);
  }

  lemma WakeOwners(s: Sys, wc: Write)
    ensures Keeps(s, DoWakeAfterDirect(s, wc))
  {
    if s.work.finishing == 0 {
      SameLane(s, s);
    } else {
      var m := s.(work := s.work.(finishing := s.work.finishing - 1));
      SameLane(s, m);
      ClaimOwners(m, wc);
      KeepsTransitive(s, m, StartNext(m, wc));
    }
  }

  lemma SameLane(s: Sys, t: Sys)
    requires t.lane == s.lane
    ensures Keeps(s, t)
  {
    SameItems(s, t);
    QueueOwners(s, t);
  }

  lemma OtherOwners(s: Sys, a: Action)
    requires !a.Admit? && !a.Enqueue? && !a.Cancel? && !a.Clear? && !a.SteerSettle? && !a.Finish? && !a.SteerClaim?
    requires !a.WakeAfterDirect? && !a.TakeOver? && !a.Recover? && !a.Crash?
    ensures Keeps(s, Do(s, a))
  {
    SameItems(s, Do(s, a));
    QueueOwners(s, Do(s, a));
  }

  lemma StepOwners(s: Sys, a: Action)
    requires s.lane.booted && !a.Admit? && !a.Enqueue? && !a.TakeOver?
    ensures Keeps(s, Step(s, a))
  {
    SameItems(s, s);
    QueueOwners(s, s);
    if Enabled(s, a) {
      if a.Cancel? || a.Clear? {
        LeaveOwners(s, a);
      } else if a.SteerSettle? {
        SettleOwners(s, a.id, a.w, a.wc);
      } else if a.Finish? {
        FinishOwners(s, a.id, a.cut, a.err, a.w, a.wc);
      } else if a.SteerClaim? {
        SteerClaimOwners(s, a.id, a.capable, a.w);
      } else if a.WakeAfterDirect? {
        WakeOwners(s, a.wc);
      } else if !a.Crash? {
        OtherOwners(s, a);
      } else {
        assert forall after: Task :: !Holds(Step(s, a), after);
      }
    }
  }

  // ---------------------------------------------------------------- theorems

  /** A task that a step admits: its id is new, it belongs to the member, and it may join the running task. */
  ghost predicate Newcomer(s: Sys, a: Action, task: Task) {
    && task.id == s.store.nextId
    && ((a.Admit? && task.controller == a.user && task.target.None?)
        || (a.Enqueue? && task.controller == a.user
            && task.target == if s.lane.active.Some? then Some(s.lane.active.value.id) else None))
  }

  lemma EnqueueHolds(s: Sys, user: nat, blank: bool, max: nat, w: Write, wc: Write, after: Task)
    requires Holds(DoEnqueue(s, user, blank, max, w, wc), after)
    ensures Holds(s, after) || Holds(StartNext(Appended(s, user), wc), after)
  {}

  lemma EnqueueOwners(s: Sys, user: nat, wc: Write, after: Task)
    requires Holds(StartNext(Appended(s, user), wc), after)
    ensures Carries(Task(s.store.nextId, Joinable(s), user, Queued), after, None)
            || exists task: Task :: Holds(s, task) && Carries(task, after, None)
  {
    ClaimOwners(Appended(s, user), wc);
    NewOrKept(s, user, StartNext(Appended(s, user), wc), after);
  }

  lemma AdmitHolds(s: Sys, user: nat, w: Write, after: Task)
    requires Holds(DoAdmit(s, user, w), after)
    ensures Holds(s, after) || (after.id == s.store.nextId && after.controller == user && after.target.None?)
  {}

  lemma EntryOwners(s: Sys, a: Action, after: Task)
    requires (a.Admit? || a.Enqueue?) && Holds(Do(s, a), after)
    ensures Newcomer(s, a, after) || exists task: Task :: Holds(s, task) && Carries(task, after, None)
  {
    assert Carries(after, after, None);
    if a.Admit? {
      AdmitHolds(s, a.user, a.w, after);
    } else {
      EnqueueHolds(s, a.user, a.blank, a.max, a.w, a.wc, after);
      if !Holds(s, after) {
        EnqueueOwners(s, a.user, a.wc, after);
      }
    }
  }

  lemma NewOrKept(s: Sys, user: nat, t: Sys, after: Task)
    requires Keeps(Appended(s, user), t) && Holds(t, after)
    ensures Carries(Task(s.store.nextId, Joinable(s), user, Queued), after, None)
            || exists task: Task :: Holds(s, task) && Carries(task, after, None)
  {
    var mid: Task :| Holds(Appended(s, user), mid) && Carries(mid, after, None);
    AppendedHolds(s, user, mid);
  }

  lemma AppendedHolds(s: Sys, user: nat, task: Task)
    requires Holds(Appended(s, user), task)
    ensures Holds(s, task) || task == Task(s.store.nextId, Joinable(s), user, Queued)
  {}

  /**
   Whatever a working process does next, a task it then holds in the slot or in the queue was
   held before, with the same target and the same controller, or was taken over just now, or
   was just admitted for the member who asked, to join the task that ran then.
   */
  lemma {:induction false} OwnersAreFixed(acts: seq<Action>, a: Action, after: Task)
    requires Run(Init, acts).lane.booted && Holds(Step(Run(Init, acts), a), after)
    ensures var s := Run(Init, acts);
            || Newcomer(s, a, after)
            || exists task: Task :: Holds(s, task) && Carries(task, after, TakenBy(s, a, task.id))
  {
    var s := Run(Init, acts);
    if a.Admit? || a.Enqueue? {
      EntryOwners(s, a, after);
    } else if a.TakeOver? {
      ReachableInv(acts);
      TakeOverOwners(s, a.user, after);
    } else {
      StepOwners(s, a);
    }
  }

  lemma TakeOverOwners(s: Sys, user: nat, after: Task)
    requires s.lane.booted && QueueOk(s) && Holds(DoTakeOver(s, user), after)
    ensures exists task: Task :: Holds(s, task) && Carries(task, after, TakenBy(s, TakeOver(user), task.id))
  {
    if after in s.lane.queue {
      assert Holds(s, after) && Carries(after, after, TakenBy(s, TakeOver(user), after.id));
    } else {
      var task := s.lane.active.value;
      assert Holds(s, task) && Carries(task, after, TakenBy(s, TakeOver(user), task.id));
    }
  }

  // ---------------------------------------------------------------- tasks that end

  /** The task that ended was held, and is the same but for its status. */
  ghost predicate EndedFrom(s: Sys, after: Task) {
    exists task: Task :: Holds(s, task) && Carries(task, after, None)
  }

  /** Between these two states only held tasks ended. */
  ghost predicate EndsHeld(s: Sys, t: Sys) {
    forall x :: x in t.lane.done && (x !in s.lane.done || t.lane.done[x] != s.lane.done[x]) ==>
      EndedFrom(s, t.lane.done[x]) && t.lane.done[x].id == x
  }

  lemma CancelEnds(s: Sys, id: nat, w: Write, wc: Write)
    ensures EndsHeld(s, DoCancel(s, id, w, wc))
  {
    var i := IndexOf(s.lane.queue, id);
    if i < |s.lane.queue| {
      assert Holds(s, s.lane.queue[i]);
      assert Carries(s.lane.queue[i], s.lane.queue[i].(status := Cancelled), None);
    }
  }

  lemma {:induction false} ClearedDoneFrom(done: map<nat, Task>, q: seq<Task>, n: nat, user: nat, admin: bool,
                                           ws: seq<Write>, x: nat)
    requires n <= |q|
    ensures var after := ClearedDone(done, q, n, user, admin, ws);
            x in after && (x !in done || after[x] != done[x]) ==>
              exists task: Task :: task in q && task.id == x && after[x] == task.(status := Cancelled)
  {
    if n == 0 {
    } else {
      ClearedDoneFrom(done, q, n - 1, user, admin, ws, x);
      assert q[n - 1] in q;
    }
  }

  lemma ClearEnds(s: Sys, user: nat, admin: bool, ws: seq<Write>, wc: Write)
    ensures EndsHeld(s, DoClear(s, user, admin, ws, wc))
  {
    var t := DoClear(s, user, admin, ws, wc);
    forall x | x in t.lane.done && (x !in s.lane.done || t.lane.done[x] != s.lane.done[x])
      ensures EndedFrom(s, t.lane.done[x]) && t.lane.done[x].id == x
    {
      ClearedDoneFrom(s.lane.done, s.lane.queue, |s.lane.queue|, user, admin, ws, x);
      var task: Task :| task in s.lane.queue && task.id == x && t.lane.done[x] == task.(status := Cancelled);
      assert Holds(s, task) && Carries(task, t.lane.done[x], None);
    }
  }

  lemma SettleEnds(s: Sys, id: nat, reply: Reply, w: Write, wc: Write)
    ensures EndsHeld(s, StartNext(Settled(s, id, reply, w), wc))
  {
    var i := IndexOf(s.lane.queue, id);
    if i < |s.lane.queue| {
      assert Holds(s, s.lane.queue[i]);
      assert Carries(s.lane.queue[i], s.lane.queue[i].(status := FinalStatus(reply, w)), None);
    }
  }

  lemma FinishEnds(s: Sys, id: nat, cut: bool, err: bool, w: Write, wc: Write)
    requires PlaceOk(s) && id in s.work.runners
    ensures EndsHeld(s, StartNext(Ended(s, id, cut, err, w), wc))
  {
    var task := s.lane.active.value;
    assert Holds(s, task);
    assert Carries(task, task.(status := FinishStatus(s.lane.stop, cut, err)), None);
  }

  lemma NothingEnds(s: Sys, a: Action)
    requires !a.Cancel? && !a.Clear? && !a.SteerSettle? && !a.Finish? && !a.Crash? && Enabled(s, a)
    ensures Do(s, a).lane.done == s.lane.done
  {
    if a.Admit? {
      EntryDone(s, a.user, false, 0, a.w, a.w);
    } else if a.Enqueue? {
      EntryDone(s, a.user, a.blank, a.max, a.w, a.wc);
    } else if a.SteerClaim? {
      ClaimDone(s, a.id, a.capable, a.w, a.w);
    } else if a.WakeAfterDirect? {
      ClaimDone(s, 0, false, a.wc, a.wc);
    } else if !a.Recover? {
      OtherStepDone(s, a);
    }
  }

  /** A task that ends was held until then, and keeps its controller and its target. */
  lemma {:induction false} FinishedKeepOwners(acts: seq<Action>, a: Action, x: nat)
    requires !a.Crash? && x in Step(Run(Init, acts), a).lane.done && x !in Run(Init, acts).lane.done
    ensures var s := Run(Init, acts);
            var after := Step(s, a).lane.done[x];
            after.id == x && EndedFrom(s, after)
  {
    ReachableInv(acts);
    StepEnds(Run(Init, acts), a);
  }

  lemma StepEnds(s: Sys, a: Action)
    requires PlaceOk(s) && !a.Crash?
    ensures EndsHeld(s, Step(s, a))
  {
    if Enabled(s, a) {
      if a.Cancel? {
        CancelEnds(s, a.id, a.w, a.wc);
      } else if a.Clear? {
        ClearEnds(s, a.user, a.admin, a.ws, a.wc);
      } else if a.SteerSettle? {
        if a.id in s.work.steers && s.work.steers[a.id].Some? {
          SettleEnds(s, a.id, s.work.steers[a.id].value, a.w, a.wc);
        }
      } else if a.Finish? {
        if a.id in s.work.runners {
          FinishEnds(s, a.id, a.cut, a.err, a.w, a.wc);
        }
      } else {
        NothingEnds(s, a);
      }
    }
  }
}
