/**
 What the task queue promises over whole runs: arbitrary interleavings of
 messages, steers, console turns, ambiguous store failures, crashes and restarts.
 */
module TaskQueueTheorems {
  import opened Prelude
  import opened TaskQueue
  import opened TaskQueueOnce
  import opened TaskQueueInvariant

  /** Ids launched, in the order in which the agent was handed their prompts. */
  ghost function LaunchIds(log: seq<Delivery>): seq<nat> {
    if log == [] then []
    else
      var last := log[|log| - 1];
      LaunchIds(log[..|log| - 1]) + (if last.Launch? then [last.id] else [])
  }

  /** The program may still hand this prompt to the agent, now or after a restart. */
  ghost predicate Launchable(s: Sys, x: nat) {
    || (exists i :: 0 <= i < |s.lane.queue| && s.lane.queue[i].id == x && s.lane.queue[i].status.Queued?)
    || (x in s.work.runners && !s.work.runners[x])
    || (x in s.store.rows && s.store.rows[x].status.Queued?)
  }

  lemma {:induction false} ReachableInv(acts: seq<Action>)
    ensures Inv(Run(Init, acts)) && LaunchedOk(Run(Init, acts))
  {
    InitInv();
    RunKeeps(Init, acts);
  }

  /** Some run leads here. */
  ghost predicate Reachable(s: Sys) {
    exists acts: seq<Action> :: s == Run(Init, acts)
  }

  lemma ReachNext(s: Sys, a: Action)
    requires Reachable(s)
    ensures Reachable(Step(s, a))
  {
    var acts: seq<Action> :| s == Run(Init, acts);
    assert (acts + [a])[..|acts|] == acts;
    assert Step(s, a) == Run(Init, acts + [a]);
  }

  lemma ReachedInv(s: Sys)
    requires Reachable(s)
    ensures Inv(s)
  {
    var acts: seq<Action> :| s == Run(Init, acts);
    ReachableInv(acts);
  }

  // ---------------------------------------------------------------- at most once

  /** In every run each task's prompt reaches the agent at most once. */
  lemma {:induction false} DeliveredAtMostOnce(acts: seq<Action>)
    ensures AtMostOnce(Run(Init, acts).past.log)
  {
    ReachableInv(acts);
  }

  /** A prompt that may still be launched was, so far, only ever refused for certain. */
  lemma {:induction false} OnlyRejectionLeavesLaunchable(acts: seq<Action>, x: nat)
    requires Launchable(Run(Init, acts), x)
    ensures forall d :: d in Run(Init, acts).past.log && d.id == x ==> d == Steer(x, Rejected)
  {
    ReachableInv(acts);
    var s := Run(Init, acts);
    LaunchableIsFresh(s, x);
    forall d | d in s.past.log && d.id == x ensures d == Steer(x, Rejected) {
      var i :| 0 <= i < |s.past.log| && s.past.log[i] == d;
      assert !Counts(s.past.log[i]);
    }
  }

  lemma LaunchableIsFresh(s: Sys, x: nat)
    requires QueueOk(s) && SteerOk(s) && OnceOk(s) && Launchable(s, x)
    ensures !Reached(s.past.log, x)
  {}

  // ---------------------------------------------------------------- steering

  /** The flag is up exactly when one queue item is being steered; all others wait. */
  lemma {:induction false} SteeringIsExclusive(acts: seq<Action>)
    ensures var s := Run(Init, acts);
            && (s.lane.steering <==> exists i :: 0 <= i < |s.lane.queue| && s.lane.queue[i].status.Steering?)
            && (forall i, j :: 0 <= i < j < |s.lane.queue| ==>
                  !(s.lane.queue[i].status.Steering? && s.lane.queue[j].status.Steering?))
            && (forall i :: 0 <= i < |s.lane.queue| && !s.lane.queue[i].status.Steering? ==>
                  s.lane.queue[i].status.Queued?)
  {
    ReachableInv(acts);
    SteeringExact(Run(Init, acts));
  }

  lemma SteeringExact(s: Sys)
    requires QueueOk(s) && SteerOk(s)
    ensures s.lane.steering <==> exists i :: 0 <= i < |s.lane.queue| && s.lane.queue[i].status.Steering?
    ensures forall i, j :: 0 <= i < j < |s.lane.queue| ==>
          !(s.lane.queue[i].status.Steering? && s.lane.queue[j].status.Steering?)
  {
    if s.lane.steering {
      var x :| x in s.work.steers.Keys;
      assert InQueue(s.lane.queue, x);
    }
  }

  /** Whatever happens next, the log only grows. */
  lemma {:induction false} LogGrows(s: Sys, acts: seq<Action>)
    ensures s.past.log <= Run(s, acts).past.log
  {
    if acts == [] {
    } else {
      var pre := Run(s, acts[..|acts| - 1]);
      LogGrows(s, acts[..|acts| - 1]);
      if acts[|acts| - 1].Crash? {
        assert Step(pre, Crash).past.log == pre.past.log;
      } else {
        StepExtends(pre, acts[|acts| - 1]);
      }
    }
  }

  /** In the queue, or claimed from it. */
  ghost predicate Waits(s: Sys, id: nat) {
    InQueue(s.lane.queue, id) || IsActive(s.lane.active, id)
  }

  /** The settled item waits again exactly if the refusal could be saved; otherwise it ended. */
  ghost predicate SettledAs(t: Sys, id: nat, reply: Reply, w: Write) {
    && !t.lane.steering
    && (Waits(t, id) <==> reply.Rejected? && w.Applied?)
    && (Waits(t, id) || id in t.lane.done)
    && (!Waits(t, id) ==> t.lane.done[id].status == if reply.Accepted? then Steered else SteerUnknown)
  }

  /**
   What each answer makes of a steered item.  It goes back to waiting exactly when it was
   refused and the refusal could be saved; a prompt that may have arrived is not launched
   in any future, restarts included.
   */
  lemma {:induction false} SettleOutcomes(acts: seq<Action>, id: nat, reply: Reply, w: Write, wc: Write)
    requires id in Run(Init, acts).work.steers && Run(Init, acts).work.steers[id] == Some(reply)
    ensures var t := Step(Run(Init, acts), SteerSettle(id, w, wc));
            && SettledAs(t, id, reply, w)
            && (!reply.Rejected? ==> forall more: seq<Action> :: Launch(id) !in Run(t, more).past.log)
  {
    var s := Run(Init, acts);
    SettleLeaves(s, id, reply, w, wc);
    if !reply.Rejected? {
      NeverLaunched(s, id, SteerSettle(id, w, wc));
    }
  }

  lemma SettleIs(s: Sys, id: nat, w: Write, wc: Write)
    requires s.lane.booted && id in s.work.steers && s.work.steers[id].Some?
    ensures Step(s, SteerSettle(id, w, wc)) == StartNext(Settled(s, id, s.work.steers[id].value, w), wc)
  {}

  lemma SettleLeaves(s: Sys, id: nat, reply: Reply, w: Write, wc: Write)
    requires Reachable(s) && id in s.work.steers && s.work.steers[id] == Some(reply)
    ensures SettledAs(Step(s, SteerSettle(id, w, wc)), id, reply, w)
  {
    ReachedInv(s);
    SettledPlace(s, id, reply, w, wc);
    SettleIs(s, id, w, wc);
  }

  lemma NeverLaunched(s: Sys, id: nat, a: Action)
    requires Reachable(s) && id in s.work.steers && s.work.steers[id].Some? && !s.work.steers[id].value.Rejected?
    requires a.SteerSettle?
    ensures forall more: seq<Action> :: Launch(id) !in Run(Step(s, a), more).past.log
  {
    ReachedInv(s);
    ReachNext(s, a);
    ReachedInv(Step(s, a));
    StepExtends(s, a);
    var t := Step(s, a);
    forall more: seq<Action> ensures Launch(id) !in Run(t, more).past.log {
      RunKeeps(t, more);
      LogGrows(t, more);
      SteeredIsNotLaunched(s, Run(t, more), id);
    }
  }

  lemma SettledPlace(s: Sys, id: nat, reply: Reply, w: Write, wc: Write)
    requires Inv(s) && id in s.work.steers && s.work.steers[id] == Some(reply)
    ensures s.lane.booted && SettledAs(StartNext(Settled(s, id, reply, w), wc), id, reply, w)
  {
    SettlingItem(s, id);
    var i := IndexOf(s.lane.queue, id);
    var m := Settled(s, id, reply, w);
    WithoutQueue(s.lane.queue, i);
    UpdatedQueue(s.lane.queue, i, s.lane.queue[i].(status := FinalStatus(reply, w)));
    assert InQueue(s.lane.queue, id);
    ClaimMoves(m, wc, id);
  }

  /** A claim moves the head of the queue to the active slot and nothing else. */
  lemma ClaimMoves(s: Sys, wc: Write, id: nat)
    ensures Waits(StartNext(s, wc), id) <==> Waits(s, id)
  {
    var q := s.lane.queue;
    if q != [] {
      assert q == [q[0]] + q[1..];
      assert InQueue(q, id) <==> q[0].id == id || InQueue(q[1..], id) by {
        if InQueue(q, id) && q[0].id != id {
          var i :| 0 <= i < |q| && q[i].id == id;
          assert q[1..][i - 1].id == id;
        }
      }
    }
  }

  lemma SteeredIsNotLaunched(s: Sys, t: Sys, id: nat)
    requires Inv(s) && id in s.work.steers && AtMostOnce(t.past.log) && s.past.log <= t.past.log
    requires s.work.steers[id].Some? && !s.work.steers[id].value.Rejected?
    ensures Launch(id) !in t.past.log
  {
    var d := Steer(id, s.work.steers[id].value);
    var i :| 0 <= i < |s.past.log| && s.past.log[i] == d;
    assert t.past.log[i] == d && Counts(d) && Counts(Launch(id));
  }

  lemma EnqueuePins(s: Sys, user: nat, blank: bool, max: nat, w: Write, wc: Write)
    requires s.lane.steering
    ensures var t := DoEnqueue(s, user, blank, max, w, wc);
            t.work.steers == s.work.steers && t.work.runners == s.work.runners
  {}

  lemma QueueStepPins(s: Sys, a: Action)
    requires s.lane.steering && (a.Admit? || a.Cancel? || a.Clear?)
    ensures Do(s, a).work.steers == s.work.steers && Do(s, a).work.runners == s.work.runners
  {}

  lemma TurnStepPins(s: Sys, a: Action)
    requires s.lane.steering && (a.Send? || a.Finish? || a.WakeAfterDirect?)
    ensures Do(s, a).work.steers == s.work.steers && Do(s, a).work.runners.Keys <= s.work.runners.Keys
  {}

  lemma RowStepPins(s: Sys, a: Action, x: nat)
    requires SteerOk(s) && s.lane.steering && x in s.work.steers
    requires a.SteerClaim? || a.SteerReply? || (a.SteerSettle? && a.id != x) || a.Touch? || a.Snapshot?
             || a.LateWrite? || a.Refresh? || a.TakeOver? || a.Stop? || a.Shutdown? || a.BeginDirect? || a.EndDirect?
    ensures x in Do(s, a).work.steers && Do(s, a).work.runners == s.work.runners
  {}

  /**
   Until a steer settles (or the process dies) no step removes its item or
   lowers the flag, no queued task starts, and the active task can only be the
   item's recorded target.
   */
  lemma {:induction false} SteerIsPinned(acts: seq<Action>, a: Action, x: nat)
    requires x in Run(Init, acts).work.steers
    requires !a.Crash? && !(a.SteerSettle? && a.id == x)
    ensures var s := Run(Init, acts);
            var t := Step(s, a);
            && t.lane.steering && t.work.runners.Keys <= s.work.runners.Keys
            && exists i :: 0 <= i < |t.lane.queue| && t.lane.queue[i].id == x && t.lane.queue[i].status.Steering?
                 && t.lane.queue[i].target.Some? && (t.lane.active.Some? ==>
                       t.lane.active.value.id == t.lane.queue[i].target.value)
  {
    ReachableInv(acts);
    var s := Run(Init, acts);
    StepKeeps(s, a);
    StepPins(s, a, x);
    PinnedItem(Step(s, a), x);
  }

  lemma StepPins(s: Sys, a: Action, x: nat)
    requires Inv(s) && x in s.work.steers && !a.Crash? && !(a.SteerSettle? && a.id == x)
    ensures x in Step(s, a).work.steers && Step(s, a).work.runners.Keys <= s.work.runners.Keys
  {
    assert s.lane.steering && s.lane.booted;
    if Enabled(s, a) {
      if a.Enqueue? {
        EnqueuePins(s, a.user, a.blank, a.max, a.w, a.wc);
      } else if a.Admit? || a.Cancel? || a.Clear? {
        QueueStepPins(s, a);
      } else if a.Send? || a.Finish? || a.WakeAfterDirect? {
        TurnStepPins(s, a);
      } else {
        RowStepPins(s, a, x);
      }
    }
  }

  lemma PinnedItem(t: Sys, x: nat)
    requires SteerOk(t) && x in t.work.steers
    ensures t.lane.steering
    ensures exists i :: 0 <= i < |t.lane.queue| && t.lane.queue[i].id == x && t.lane.queue[i].status.Steering?
              && t.lane.queue[i].target.Some? && (t.lane.active.Some? ==>
                    t.lane.active.value.id == t.lane.queue[i].target.value)
  {
    assert InQueue(t.lane.queue, x);
    var i :| 0 <= i < |t.lane.queue| && t.lane.queue[i].id == x;
    assert t.lane.queue[i].status.Steering?;
  }

  // ---------------------------------------------------------------- turns and places

  /** At most one turn runs, and the live runner is exactly the active task's. */
  lemma {:induction false} OneTurnAtATime(acts: seq<Action>)
    ensures var s := Run(Init, acts);
            && !(s.lane.active.Some? && s.lane.direct.Some?)
            && s.work.runners.Keys == (if s.lane.active.Some? then {s.lane.active.value.id} else {})
  {
    ReachableInv(acts);
    var s := Run(Init, acts);
    assert forall x :: x in s.work.runners <==> IsActive(s.lane.active, x);
  }

  /** A waiting task is never forgotten: something that will look at the queue is under way. */
  lemma {:induction false} NoLostWakeUp(acts: seq<Action>)
    ensures var s := Run(Init, acts);
            s.lane.queue != [] && s.lane.live && s.work.finishing == 0 && !s.past.claimFailed
            ==> s.lane.active.Some? || s.lane.steering || s.lane.direct.Some?
  {
    ReachableInv(acts);
  }

  /** Every task admitted by this process is in exactly one place. */
  lemma {:induction false} ExactlyOnePlace(acts: seq<Action>, x: nat)
    requires x in Run(Init, acts).past.admitted
    ensures var s := Run(Init, acts);
            && (InQueue(s.lane.queue, x) || IsActive(s.lane.active, x) || x in s.lane.done)
            && !(InQueue(s.lane.queue, x) && IsActive(s.lane.active, x))
            && !(InQueue(s.lane.queue, x) && x in s.lane.done)
            && !(IsActive(s.lane.active, x) && x in s.lane.done)
            && (x in s.lane.done ==> Final(s.lane.done[x].status))
  {
    ReachableInv(acts);
    OnePlace(Run(Init, acts), x);
  }

  lemma OnePlace(s: Sys, x: nat)
    requires QueueOk(s) && PlaceOk(s) && x in s.past.admitted
    ensures InQueue(s.lane.queue, x) || IsActive(s.lane.active, x) || x in s.lane.done
    ensures !(InQueue(s.lane.queue, x) && IsActive(s.lane.active, x))
  {}

  lemma {:induction false} ClearedDoneKeeps(done: map<nat, Task>, q: seq<Task>, n: nat, user: nat, admin: bool,
                                            ws: seq<Write>)
    requires n <= |q| && forall i :: 0 <= i < |q| ==> q[i].id !in done
    ensures var after := ClearedDone(done, q, n, user, admin, ws);
            forall x :: x in done ==> x in after && after[x] == done[x]
  {
    if n == 0 {
    } else {
      ClearedDoneKeeps(done, q, n - 1, user, admin, ws);
    }
  }

  /** Nothing in the queue or running has finished before. */
  lemma LiveIsNotDone(s: Sys)
    requires QueueOk(s) && PlaceOk(s)
    ensures forall i :: 0 <= i < |s.lane.queue| ==> s.lane.queue[i].id !in s.lane.done
    ensures forall x :: x in s.work.runners ==> x !in s.lane.done
  {
    forall i | 0 <= i < |s.lane.queue| ensures s.lane.queue[i].id !in s.lane.done {
      assert InQueue(s.lane.queue, s.lane.queue[i].id);
    }
  }

  ghost predicate DoneStays(s: Sys, t: Sys) {
    forall x :: x in s.lane.done ==> x in t.lane.done && t.lane.done[x] == s.lane.done[x]
  }

  lemma CancelDone(s: Sys, id: nat, w: Write, wc: Write)
    requires forall i :: 0 <= i < |s.lane.queue| ==> s.lane.queue[i].id !in s.lane.done
    ensures DoneStays(s, DoCancel(s, id, w, wc))
  {}

  lemma SettleDone(s: Sys, id: nat, w: Write, wc: Write)
    requires forall i :: 0 <= i < |s.lane.queue| ==> s.lane.queue[i].id !in s.lane.done
    ensures DoneStays(s, DoSteerSettle(s, id, w, wc))
  {}

  lemma {:induction false} FinishDone(s: Sys, id: nat, cut: bool, err: bool, w: Write, wc: Write)
    requires forall x :: x in s.work.runners ==> x !in s.lane.done
    ensures DoneStays(s, DoFinish(s, id, cut, err, w, wc))
  {}

  lemma EntryDone(s: Sys, user: nat, blank: bool, max: nat, w: Write, wc: Write)
    ensures DoEnqueue(s, user, blank, max, w, wc).lane.done == s.lane.done
    ensures DoAdmit(s, user, w).lane.done == s.lane.done
  {}

  lemma ClaimDone(s: Sys, id: nat, capable: bool, w: Write, wc: Write)
    ensures DoSteerClaim(s, id, capable, w).lane.done == s.lane.done
    ensures DoWakeAfterDirect(s, wc).lane.done == s.lane.done
  {}

  lemma OtherStepDone(s: Sys, a: Action)
    requires !a.Cancel? && !a.Clear? && !a.SteerSettle? && !a.Finish? && !a.Crash?
    requires !a.Admit? && !a.Enqueue? && !a.SteerClaim? && !a.Recover? && !a.WakeAfterDirect?
    ensures Do(s, a).lane.done == s.lane.done
  {}

  /** A task that ended never leaves its final status while the process lives. */
  lemma {:induction false} FinalIsForever(acts: seq<Action>, a: Action, x: nat)
    requires x in Run(Init, acts).lane.done && !a.Crash?
    ensures var s := Run(Init, acts);
            x in Step(s, a).lane.done && Step(s, a).lane.done[x] == s.lane.done[x]
  {
    ReachableInv(acts);
    var s := Run(Init, acts);
    LiveIsNotDone(s);
    if Enabled(s, a) {
      if a.Cancel? {
        CancelDone(s, a.id, a.w, a.wc);
      } else if a.Clear? {
        ClearedDoneKeeps(s.lane.done, s.lane.queue, |s.lane.queue|, a.user, a.admin, a.ws);
      } else if a.SteerSettle? {
        SettleDone(s, a.id, a.w, a.wc);
      } else if a.Finish? {
        FinishDone(s, a.id, a.cut, a.err, a.w, a.wc);
      } else if a.Admit? {
        EntryDone(s, a.user, false, 0, a.w, a.w);
      } else if a.Enqueue? {
        EntryDone(s, a.user, a.blank, a.max, a.w, a.wc);
      } else if a.SteerClaim? {
        ClaimDone(s, a.id, a.capable, a.w, a.w);
      } else if a.WakeAfterDirect? {
        ClaimDone(s, 0, false, a.wc, a.wc);
      } else {
        OtherStepDone(s, a);
      }
    }
  }

  // ---------------------------------------------------------------- order within one process

  lemma {:induction false} LaunchIdsOk(log: seq<Delivery>)
    ensures forall x :: x in LaunchIds(log) <==> exists i :: 0 <= i < |log| && log[i] == Launch(x)
  {
    if log == [] {
    } else {
      var pre := log[..|log| - 1];
      LaunchIdsOk(pre);
      forall x ensures x in LaunchIds(log) <==> exists i :: 0 <= i < |log| && log[i] == Launch(x) {
        if x in LaunchIds(pre) {
          var i :| 0 <= i < |pre| && pre[i] == Launch(x);
          assert log[i] == Launch(x);
        }
        if i :| 0 <= i < |log| && log[i] == Launch(x) {
          assert i < |pre| ==> pre[i] == Launch(x);
        }
      }
    }
  }

  lemma {:induction false} LaunchIdsIncrease(log: seq<Delivery>)
    requires forall i, j :: 0 <= i < j < |log| && log[i].Launch? && log[j].Launch? ==> log[i].id < log[j].id
    ensures Increasing(LaunchIds(log))
  {
    if log == [] {
    } else {
      var pre := log[..|log| - 1];
      var last := log[|log| - 1];
      LaunchIdsIncrease(pre);
      LaunchIdsOk(pre);
      forall k | 0 <= k < |LaunchIds(pre)| && last.Launch? ensures LaunchIds(pre)[k] < last.id {
        assert LaunchIds(pre)[k] in LaunchIds(pre);
        var i :| 0 <= i < |pre| && pre[i] == Launch(LaunchIds(pre)[k]);
        assert log[i] == pre[i];
      }
    }
  }

  /** One process launches in admission order: a directly admitted message overtakes nobody. */
  lemma {:induction false} LaunchesFollowAdmission(acts: seq<Action>)
    ensures var s := Run(Init, acts);
            s.past.life <= |s.past.log| && Subsequence(LaunchIds(s.past.log[s.past.life..]), s.past.admitted)
  {
    ReachableInv(acts);
    OrderedLaunches(Run(Init, acts));
  }

  lemma OrderedLaunches(s: Sys)
    requires RowsOk(s) && PlaceOk(s) && OrderOk(s) && LaunchedOk(s)
    ensures Subsequence(LaunchIds(s.past.log[s.past.life..]), s.past.admitted)
  {
    var mine := s.past.log[s.past.life..];
    LaunchIdsOk(mine);
    LaunchIdsIncrease(mine);
    forall x | x in LaunchIds(mine) ensures x in s.past.admitted {
      var i :| 0 <= i < |mine| && mine[i] == Launch(x);
      assert s.past.log[s.past.life + i] == Launch(x);
    }
    IncreasingSubset(LaunchIds(mine), s.past.admitted);
  }
}
