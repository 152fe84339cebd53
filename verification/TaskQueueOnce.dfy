/**
 Every prompt is delivered at most once, and what every step keeps to ensure it.
 `Safe` says nothing about the order of the queue and even allows an item to wait
 twice, as it does after a recovery that came late, provided the first of the twins
 is inert: the process starts nothing any more and the item cannot be steered.
 */
module TaskQueueOnce {
  import opened Prelude
  import opened TaskQueue

  // ---------------------------------------------------------------- vocabulary

  /** This delivery may have put the prompt of its task before the agent. */
  ghost predicate Counts(d: Delivery) {
    d.Launch? || !d.reply.Rejected?
  }

  ghost predicate Reached(log: seq<Delivery>, id: nat) {
    exists i :: 0 <= i < |log| && log[i].id == id && Counts(log[i])
  }

  ghost predicate AtMostOnce(log: seq<Delivery>) {
    forall i, j :: 0 <= i < j < |log| && Counts(log[i]) && Counts(log[j]) ==> log[i].id != log[j].id
  }

  ghost predicate InQueue(q: seq<Task>, id: nat) {
    exists i :: 0 <= i < |q| && q[i].id == id
  }

  ghost predicate Sorted(q: seq<Task>) {
    forall i, j :: 0 <= i < j < |q| ==> q[i].id < q[j].id
  }

  // ---------------------------------------------------------------- invariant

  ghost predicate RowsOk(s: Sys) {
    && (forall x :: x in s.store.rows ==> x < s.store.nextId && s.store.rows[x].id == x)
    && (forall i :: 0 <= i < |s.past.log| ==> s.past.log[i].id < s.store.nextId)
    && s.past.life <= |s.past.log|
  }

  /** Snapshots still to be written show tasks that had already been started. */
  ghost predicate LateOk(s: Sys) {
    forall t :: t in s.work.late ==>
      && t.id < s.store.nextId
      && (t.status.Running? || t.status.WaitingInput?)
  }

  /** Nothing can hand this item to the agent as long as it waits in this queue. */
  ghost predicate Inert(s: Sys, task: Task) {
    && !s.lane.live
    && (s.lane.active.Some? ==> task.target != Some(s.lane.active.value.id))
    && (task.status.Queued? || (task.id in s.work.steers && s.work.steers[task.id] == Some(Rejected)))
  }

  ghost predicate ItemsOk(s: Sys) {
    forall i :: 0 <= i < |s.lane.queue| ==>
      && s.lane.queue[i].id < s.store.nextId
      && (s.lane.queue[i].status.Queued? || s.lane.queue[i].status.Steering?)
  }

  /** Of two items with one id the first is inert and the second simply waits. */
  ghost predicate TwinsOk(s: Sys) {
    forall i, j :: 0 <= i < j < |s.lane.queue| && s.lane.queue[i].id == s.lane.queue[j].id ==>
      Inert(s, s.lane.queue[i]) && s.lane.queue[j].status.Queued?
  }

  ghost predicate Steers(q: seq<Task>, x: nat) {
    exists i :: 0 <= i < |q| && q[i].id == x && q[i].status.Steering?
  }

  ghost predicate FlagOk(s: Sys) {
    && (s.lane.steering <==> s.work.steers.Keys != {})
    && (forall x, y :: x in s.work.steers && y in s.work.steers ==> x == y)
    && (forall x :: x in s.work.steers ==> Steers(s.lane.queue, x))
    && (forall i :: 0 <= i < |s.lane.queue| && s.lane.queue[i].status.Steering? ==>
          s.lane.queue[i].id in s.work.steers)
  }

  ghost predicate SlotOk(s: Sys) {
    && (s.lane.active.Some? ==>
          && s.lane.active.value.id < s.store.nextId
          && (s.lane.active.value.status.Running? || s.lane.active.value.status.WaitingInput?))
    && (forall i :: 0 <= i < |s.lane.queue| ==> !IsActive(s.lane.active, s.lane.queue[i].id))
    && (forall x :: x in s.work.runners <==> IsActive(s.lane.active, x))
    && (forall x :: x in s.lane.done ==>
          x < s.store.nextId && s.lane.done[x].id == x && !s.lane.done[x].status.Queued?)
  }

  ghost predicate OnceOk(s: Sys) {
    && AtMostOnce(s.past.log)
    && (forall x :: x in s.store.rows && s.store.rows[x].status.Queued? ==>
          && !Reached(s.past.log, x) && x !in s.work.runners
          && (x in s.work.steers ==> s.work.steers[x] == Some(Rejected)))
    && (forall i :: 0 <= i < |s.lane.queue| && s.lane.queue[i].id !in s.work.steers ==>
          !Reached(s.past.log, s.lane.queue[i].id))
    && (forall x :: x in s.work.steers && (s.work.steers[x].None? || s.work.steers[x].value.Rejected?) ==>
          !Reached(s.past.log, x))
    && (forall x :: x in s.work.runners && !s.work.runners[x] ==> !Reached(s.past.log, x))
  }

  /** A process that has not recovered yet holds nothing. */
  ghost predicate BootOk(s: Sys) {
    !s.lane.booted ==> s == DoCrash(s)
  }

  /** This process has launched the task. */
  ghost predicate Sent(s: Sys, x: nat) {
    exists i :: s.past.life <= i < |s.past.log| && s.past.log[i] == Launch(x)
  }

  /** What memory knows to be handed out is in the log. */
  ghost predicate TracedOk(s: Sys) {
    && (forall x :: x in s.work.runners && s.work.runners[x] ==> Sent(s, x))
    && (forall x :: x in s.work.steers && s.work.steers[x].Some? ==> Steer(x, s.work.steers[x].value) in s.past.log)
  }

  ghost predicate Body(s: Sys) {
    RowsOk(s) && LateOk(s) && ItemsOk(s) && TwinsOk(s) && FlagOk(s) && SlotOk(s) && OnceOk(s) && TracedOk(s)
  }

  ghost predicate Safe(s: Sys) {
    Body(s) && BootOk(s)
  }

  // ---------------------------------------------------------------- claims and rows

  lemma ClaimSafe(s: Sys, w: Write)
    requires Body(s)
    ensures Body(StartNext(s, w))
  {
    var t := StartNext(s, w);
    if t != s && w.Applied? {
      ClaimedItems(s, t);
      ClaimedOnce(s, t);
    }
  }

  /** A claim needs a live process, and there nothing waits twice. */
  ghost predicate Takes(s: Sys, t: Sys) {
    && s.lane.active.None? && !s.lane.steering && s.lane.queue != [] && s.lane.live && s.lane.direct.None?
    && t == StartNext(s, Applied)
  }

  lemma ClaimedItems(s: Sys, t: Sys)
    requires Body(s) && Takes(s, t)
    ensures ItemsOk(t) && TwinsOk(t) && FlagOk(t) && SlotOk(t) && RowsOk(t)
  {
    var q := s.lane.queue;
    assert forall i :: 0 <= i < |t.lane.queue| ==> t.lane.queue[i] == q[i + 1] && q[0].id != q[i + 1].id;
  }

  lemma ClaimedOnce(s: Sys, t: Sys)
    requires Body(s) && Takes(s, t)
    ensures OnceOk(t)
  {
    assert s.lane.queue[0].id !in s.work.steers;
  }

  lemma PutSafe(s: Sys, task: Task, w: Write)
    requires Body(s) && task.id < s.store.nextId
    requires task.status.Queued? ==>
          && !Reached(s.past.log, task.id) && task.id !in s.work.runners
          && (task.id in s.work.steers ==> s.work.steers[task.id] == Some(Rejected))
    ensures Body(s.(store := s.store.(rows := Put(s.store.rows, task, w))))
  {}

  /** A waiting item was not delivered; if another copy of it is steered, it was refused. */
  lemma WaitingIsOut(s: Sys, i: nat)
    requires Body(s) && i < |s.lane.queue| && s.lane.queue[i].status.Queued?
    ensures var x := s.lane.queue[i].id;
            && !Reached(s.past.log, x) && x !in s.work.runners
            && (x in s.work.steers ==> s.work.steers[x] == Some(Rejected))
  {
    var x := s.lane.queue[i].id;
    assert x in s.work.steers ==> Steers(s.lane.queue, x);
  }

  lemma RefreshSafe(s: Sys, id: nat, at: nat, w: Write)
    requires Safe(s) && s.lane.booted
    ensures Safe(DoRefresh(s, id, at, w))
  {
    if Known(s, id, at).Some? {
      if at < |s.lane.queue| && s.lane.queue[at].status.Queued? {
        WaitingIsOut(s, at);
      }
      PutSafe(s, Known(s, id, at).value, w);
    }
  }

  // ---------------------------------------------------------------- admission

  lemma FreshId(s: Sys)
    requires Body(s)
    ensures var n := s.store.nextId;
            && n !in s.store.rows && n !in s.work.runners && n !in s.work.steers
            && n !in s.lane.done && !Reached(s.past.log, n)
            && forall i :: 0 <= i < |s.lane.queue| ==> s.lane.queue[i].id != n
  {
    assert s.store.nextId in s.work.steers ==> Steers(s.lane.queue, s.store.nextId);
  }

  lemma AdmitSafe(s: Sys, user: nat, w: Write)
    requires Safe(s) && s.lane.booted
    ensures Safe(DoAdmit(s, user, w))
  {
    FreshId(s);
  }

  lemma AppendedSafe(s: Sys, user: nat)
    requires Body(s)
    ensures Body(Appended(s, user))
  {
    FreshId(s);
    AppendedItems(s, user);
    AppendedOnce(s, user);
  }

  lemma AppendedOnce(s: Sys, user: nat)
    requires OnceOk(s) && s.store.nextId !in s.work.steers && s.store.nextId !in s.work.runners
    requires !Reached(s.past.log, s.store.nextId)
    ensures OnceOk(Appended(s, user))
  {}

  lemma AppendedItems(s: Sys, user: nat)
    requires Body(s)
    ensures var t := Appended(s, user); ItemsOk(t) && TwinsOk(t) && FlagOk(t) && SlotOk(t)
  {
    FreshId(s);
    MoreSteers(s.lane.queue, Appended(s, user).lane.queue);
  }

  lemma MoreSteers(q: seq<Task>, r: seq<Task>)
    requires q <= r
    ensures forall x :: Steers(q, x) ==> Steers(r, x)
  {
    forall x | Steers(q, x) ensures Steers(r, x) {
      var i :| 0 <= i < |q| && q[i].id == x && q[i].status.Steering?;
      assert r[i] == q[i];
    }
  }

  lemma EnqueueSafe(s: Sys, user: nat, blank: bool, max: nat, w: Write, wc: Write)
    requires Safe(s) && s.lane.booted
    ensures Safe(DoEnqueue(s, user, blank, max, w, wc))
  {
    if !blank && |s.lane.queue| < max {
      if w.Applied? {
        AppendedSafe(s, user);
        ClaimSafe(Appended(s, user), wc);
      } else {
        FreshId(s);
      }
    }
  }

  // ---------------------------------------------------------------- leaving the queue

  lemma WithoutAt(q: seq<Task>, i: nat)
    requires i < |q|
    ensures |Without(q, i)| == |q| - 1
    ensures forall k :: 0 <= k < |q| - 1 ==> Without(q, i)[k] == q[if k < i then k else k + 1]
    ensures forall x :: Steers(q, x) && !(q[i].id == x && q[i].status.Steering?) ==> Steers(Without(q, i), x)
  {
    var r := Without(q, i);
    forall x | Steers(q, x) && !(q[i].id == x && q[i].status.Steering?) ensures Steers(r, x) {
      var k :| 0 <= k < |q| && q[k].id == x && q[k].status.Steering?;
      assert r[if k < i then k else k - 1] == q[k];
    }
  }

  lemma RemoveSafe(s: Sys, i: nat, status: Status)
    requires Body(s) && i < |s.lane.queue| && s.lane.queue[i].status.Queued? && !status.Queued?
    ensures Body(RemoveAs(s, i, status))
  {
    RemovedItems(s, i, status);
    RemovedTwins(s, i, status);
    WithoutAt(s.lane.queue, i);
  }

  lemma RemovedItems(s: Sys, i: nat, status: Status)
    requires Body(s) && i < |s.lane.queue| && s.lane.queue[i].status.Queued? && !status.Queued?
    ensures var t := RemoveAs(s, i, status); ItemsOk(t) && FlagOk(t) && SlotOk(t)
  {
    WithoutAt(s.lane.queue, i);
  }

  lemma RemovedTwins(s: Sys, i: nat, status: Status)
    requires TwinsOk(s) && OnceOk(s) && i < |s.lane.queue|
    ensures var t := RemoveAs(s, i, status); TwinsOk(t) && OnceOk(t)
  {
    WithoutAt(s.lane.queue, i);
  }

  lemma CancelledSafe(s: Sys, i: nat, w: Write)
    requires Body(s) && i < |s.lane.queue| && s.lane.queue[i].status.Queued?
    ensures Body(CancelledAt(s, i, w))
  {
    var task := s.lane.queue[i].(status := Cancelled);
    PutSafe(s, task, w);
    if w.Applied? {
      RemoveSafe(s.(store := s.store.(rows := Put(s.store.rows, task, w))), i, Cancelled);
    }
  }

  lemma CancelSafe(s: Sys, id: nat, w: Write, wc: Write)
    requires Safe(s) && s.lane.booted
    ensures Safe(DoCancel(s, id, w, wc))
  {
    var i := IndexOf(s.lane.queue, id);
    if i < |s.lane.queue| && s.lane.queue[i].status.Queued? {
      CancelledSafe(s, i, w);
      ClaimSafe(CancelledAt(s, i, w), wc);
    }
  }

  /** The clear after its first `n` items; the rest of the queue is still untouched. */
  ghost function ClearTo(s: Sys, n: nat, user: nat, admin: bool, ws: seq<Write>): Sys
    requires n <= |s.lane.queue|
  {
    s.(store := s.store.(rows := ClearedRows(s.store.rows, s.lane.queue, n, user, admin, ws)),
       lane := s.lane.(done := ClearedDone(s.lane.done, s.lane.queue, n, user, admin, ws),
                       queue := Kept(s.lane.queue, n, user, admin, ws) + s.lane.queue[n..]))
  }

  /** While the walk is at item `n - 1`, that item sits right behind the kept ones. */
  lemma WalkQueue(q: seq<Task>, n: nat, user: nat, admin: bool, ws: seq<Write>)
    requires 0 < n <= |q|
    ensures var before := Kept(q, n - 1, user, admin, ws);
            var here := before + q[n - 1..];
            && |before| < |here| && here[|before|] == q[n - 1]
            && Kept(q, n, user, admin, ws) + q[n..] ==
               if Dropped(q, n - 1, user, admin, ws) then Without(here, |before|) else here
  {
    var before := Kept(q, n - 1, user, admin, ws);
    assert q[n - 1..] == [q[n - 1]] + q[n..];
    assert before + q[n - 1..] == before + [q[n - 1]] + q[n..];
    assert Without(before + q[n - 1..], |before|) == before + q[n..];
  }

  lemma ClearToShape(s: Sys, n: nat, user: nat, admin: bool, ws: seq<Write>)
    requires 0 < n <= |s.lane.queue|
    ensures var m := ClearTo(s, n - 1, user, admin, ws);
            var t := ClearTo(s, n, user, admin, ws);
            var k := |Kept(s.lane.queue, n - 1, user, admin, ws)|;
            && k < |m.lane.queue| && m.lane.queue[k] == s.lane.queue[n - 1]
            && t == if Clearable(s.lane.queue[n - 1], user, admin) then CancelledAt(m, k, WriteAt(ws, n - 1)) else m
  {
    WalkQueue(s.lane.queue, n, user, admin, ws);
  }

  lemma ClearToEnds(s: Sys, user: nat, admin: bool, ws: seq<Write>)
    ensures ClearTo(s, 0, user, admin, ws) == s
    ensures ClearTo(s, |s.lane.queue|, user, admin, ws) == Cleared(s, user, admin, ws)
  {
    assert s.lane.queue[|s.lane.queue|..] == [];
  }

  lemma {:induction false} ClearToSafe(s: Sys, n: nat, user: nat, admin: bool, ws: seq<Write>)
    requires Body(s) && n <= |s.lane.queue|
    ensures Body(ClearTo(s, n, user, admin, ws))
  {
    if n == 0 {
      ClearToEnds(s, user, admin, ws);
    } else {
      ClearToSafe(s, n - 1, user, admin, ws);
      ClearToShape(s, n, user, admin, ws);
      if Clearable(s.lane.queue[n - 1], user, admin) {
        CancelledSafe(ClearTo(s, n - 1, user, admin, ws), |Kept(s.lane.queue, n - 1, user, admin, ws)|,
                      WriteAt(ws, n - 1));
      }
    }
  }

  lemma ClearSafe(s: Sys, user: nat, admin: bool, ws: seq<Write>, wc: Write)
    requires Safe(s) && s.lane.booted
    ensures Safe(DoClear(s, user, admin, ws, wc))
  {
    ClearToSafe(s, |s.lane.queue|, user, admin, ws);
    ClearToEnds(s, user, admin, ws);
    ClaimSafe(Cleared(s, user, admin, ws), wc);
  }

  // ---------------------------------------------------------------- steering

  ghost predicate TakesForSteer(s: Sys, i: nat, t: Sys) {
    && i < |s.lane.queue| && CanSteer(s, i)
    && t == s.(store := s.store.(rows := Put(s.store.rows, s.lane.queue[i].(status := Steering), Applied)),
               lane := s.lane.(queue := s.lane.queue[i := s.lane.queue[i].(status := Steering)], steering := true),
               work := s.work.(steers := s.work.steers[s.lane.queue[i].id := None]))
  }

  /** An item that can be steered is not inert, so it has no twin. */
  lemma TakenSafe(s: Sys, i: nat, t: Sys)
    requires Body(s) && TakesForSteer(s, i, t) && i == IndexOf(s.lane.queue, s.lane.queue[i].id)
    ensures Body(t)
  {
    WaitingIsOut(s, i);
    TakenItems(s, i, t);
    TakenFlag(s, i, t);
    TakenOnce(s, i, t);
  }

  lemma TakenItems(s: Sys, i: nat, t: Sys)
    requires Body(s) && TakesForSteer(s, i, t) && i == IndexOf(s.lane.queue, s.lane.queue[i].id)
    ensures ItemsOk(t) && TwinsOk(t) && SlotOk(t)
  {
    assert forall j :: 0 <= j < |s.lane.queue| && j != i ==> s.lane.queue[j].id != s.lane.queue[i].id;
  }

  lemma TakenFlag(s: Sys, i: nat, t: Sys)
    requires FlagOk(s) && TakesForSteer(s, i, t)
    ensures FlagOk(t)
  {
    var x := s.lane.queue[i].id;
    assert s.work.steers == map[] && t.work.steers.Keys == {x};
    assert t.lane.queue[i].id == x && Steers(t.lane.queue, x);
  }

  lemma TakenOnce(s: Sys, i: nat, t: Sys)
    requires Body(s) && TakesForSteer(s, i, t) && !Reached(s.past.log, s.lane.queue[i].id)
    ensures OnceOk(t) && RowsOk(t)
  {
    assert s.work.steers == map[];
  }

  lemma SteerClaimSafe(s: Sys, id: nat, capable: bool, w: Write)
    requires Safe(s) && s.lane.booted
    ensures Safe(DoSteerClaim(s, id, capable, w))
  {
    var i := IndexOf(s.lane.queue, id);
    if i < |s.lane.queue| && capable && CanSteer(s, i) {
      if w.Applied? {
        TakenSafe(s, i, DoSteerClaim(s, id, capable, w));
      } else {
        PutSafe(s, s.lane.queue[i].(status := Steering), w);
      }
    }
  }

  /** Where the item of a steer in flight is. */
  lemma SteeredItem(s: Sys, id: nat) returns (i: nat)
    requires ItemsOk(s) && TwinsOk(s) && FlagOk(s) && id in s.work.steers
    ensures i < |s.lane.queue| && s.lane.queue[i].id == id && s.lane.queue[i].status.Steering?
    ensures i == IndexOf(s.lane.queue, id)
    ensures s.work.steers[id] != Some(Rejected) ==>
          forall j :: 0 <= j < |s.lane.queue| && j != i ==> s.lane.queue[j].id != id
  {
    assert Steers(s.lane.queue, id);
    i :| 0 <= i < |s.lane.queue| && s.lane.queue[i].id == id && s.lane.queue[i].status.Steering?;
  }

  lemma LogAppend(log: seq<Delivery>, d: Delivery)
    requires AtMostOnce(log) && (Counts(d) ==> !Reached(log, d.id))
    ensures AtMostOnce(log + [d])
    ensures forall x :: Reached(log + [d], x) <==> Reached(log, x) || (d.id == x && Counts(d))
  {
    forall x ensures Reached(log + [d], x) <==> Reached(log, x) || (d.id == x && Counts(d)) {
      if Reached(log, x) {
        var i :| 0 <= i < |log| && log[i].id == x && Counts(log[i]);
        assert (log + [d])[i] == log[i];
      }
      assert (log + [d])[|log|] == d;
    }
  }

  lemma SentStays(s: Sys, t: Sys, d: Delivery)
    requires t.past.log == s.past.log + [d] && t.past.life == s.past.life
    ensures forall x :: Sent(s, x) ==> Sent(t, x)
  {
    forall x | Sent(s, x) ensures Sent(t, x) {
      var i :| s.past.life <= i < |s.past.log| && s.past.log[i] == Launch(x);
      assert t.past.log[i] == Launch(x);
    }
  }

  lemma ReplySafe(s: Sys, id: nat, reply: Reply)
    requires Safe(s) && s.lane.booted
    ensures Safe(DoSteerReply(s, id, reply))
  {
    if id in s.work.steers && s.work.steers[id].None? {
      var i := SteeredItem(s, id);
      ReplyItems(s, id, reply);
      ReplyOnce(s, id, reply);
    }
  }

  lemma ReplyItems(s: Sys, id: nat, reply: Reply)
    requires ItemsOk(s) && TwinsOk(s) && FlagOk(s) && SlotOk(s) && id in s.work.steers && s.work.steers[id].None?
    ensures var t := DoSteerReply(s, id, reply); ItemsOk(t) && TwinsOk(t) && FlagOk(t) && SlotOk(t)
  {
    assert DoSteerReply(s, id, reply).work.steers.Keys == s.work.steers.Keys;
  }

  lemma ReplyOnce(s: Sys, id: nat, reply: Reply)
    requires RowsOk(s) && FlagOk(s) && SlotOk(s) && OnceOk(s) && TracedOk(s)
    requires id in s.work.steers && s.work.steers[id].None?
    requires id < s.store.nextId && !IsActive(s.lane.active, id)
    ensures var t := DoSteerReply(s, id, reply); RowsOk(t) && OnceOk(t) && TracedOk(t)
  {
    LogAppend(s.past.log, Steer(id, reply));
    SentStays(s, DoSteerReply(s, id, reply), Steer(id, reply));
    assert id !in s.work.runners;
  }

  /** The steer that is settling, without its flag: an intermediate state of the section. */
  ghost predicate Unflags(s: Sys, i: nat, m: Sys) {
    && i < |s.lane.queue| && s.lane.queue[i].status.Steering? && s.lane.queue[i].id in s.work.steers
    && m == s.(lane := s.lane.(steering := false), work := s.work.(steers := s.work.steers - {s.lane.queue[i].id}))
  }

  /** Lowering the flag of a settling steer leaves only waiting items. */
  lemma UnflaggedItems(s: Sys, i: nat, m: Sys)
    requires Body(s) && Unflags(s, i, m) && i == IndexOf(s.lane.queue, s.lane.queue[i].id)
    ensures m.work.steers == map[]
    ensures forall j :: 0 <= j < |s.lane.queue| && j != i ==> s.lane.queue[j].status.Queued?
    ensures s.work.steers[s.lane.queue[i].id] != Some(Rejected) ==>
          forall j :: 0 <= j < |s.lane.queue| && j != i ==> s.lane.queue[j].id != s.lane.queue[i].id
  {
    var k := SteeredItem(s, s.lane.queue[i].id);
  }

  lemma GoneItems(s: Sys, i: nat, m: Sys, status: Status)
    requires Body(s) && Unflags(s, i, m) && !status.Queued? && i == IndexOf(s.lane.queue, s.lane.queue[i].id)
    ensures var t := RemoveAs(m, i, status); ItemsOk(t) && TwinsOk(t) && FlagOk(t)
  {
    UnflaggedItems(s, i, m);
    WithoutAt(s.lane.queue, i);
  }

  lemma GoneSlot(s: Sys, i: nat, m: Sys, status: Status)
    requires Body(s) && Unflags(s, i, m) && !status.Queued? && i == IndexOf(s.lane.queue, s.lane.queue[i].id)
    requires s.work.steers[s.lane.queue[i].id].Some?
    ensures var t := RemoveAs(m, i, status); SlotOk(t) && OnceOk(t)
  {
    UnflaggedItems(s, i, m);
    WithoutAt(s.lane.queue, i);
  }

  lemma SettledGoneSafe(s: Sys, id: nat, reply: Reply, w: Write)
    requires Body(s) && id in s.work.steers && s.work.steers[id] == Some(reply) && (!w.Applied? || !reply.Rejected?)
    ensures Body(Settled(s, id, reply, w))
  {
    var i := SteeredItem(s, id);
    var m := s.(lane := s.lane.(steering := false), work := s.work.(steers := s.work.steers - {id}));
    GoneSafe(s, i, m, FinalStatus(reply, w));
    SettledFrom(RemoveAs(m, i, FinalStatus(reply, w)), s.lane.queue[i].(status := SettledStatus(reply)), w,
                Settled(s, id, reply, w));
  }

  lemma GoneSafe(s: Sys, i: nat, m: Sys, status: Status)
    requires Body(s) && Unflags(s, i, m) && !status.Queued? && i == IndexOf(s.lane.queue, s.lane.queue[i].id)
    requires s.work.steers[s.lane.queue[i].id].Some?
    ensures Body(RemoveAs(m, i, status))
    ensures var x := s.lane.queue[i].id;
            && x !in m.work.steers && x !in m.work.runners
            && (s.work.steers[x] == Some(Rejected) ==> !Reached(s.past.log, x))
  {
    GoneItems(s, i, m, status);
    GoneSlot(s, i, m, status);
  }

  lemma SettledFrom(gone: Sys, task: Task, w: Write, t: Sys)
    requires Body(gone) && task.id < gone.store.nextId
    requires task.status.Queued? ==>
          !Reached(gone.past.log, task.id) && task.id !in gone.work.runners && task.id !in gone.work.steers
    requires t.store == gone.store.(rows := Put(gone.store.rows, task, w))
    requires t.lane == gone.lane && t.work == gone.work && t.past == gone.past.(clean := t.past.clean)
    ensures Body(t)
  {
    PutSafe(gone, task, w);
  }

  lemma BackItems(s: Sys, i: nat, m: Sys, t: Sys)
    requires Body(s) && Unflags(s, i, m) && i == IndexOf(s.lane.queue, s.lane.queue[i].id)
    requires s.work.steers[s.lane.queue[i].id] == Some(Rejected)
    requires t == m.(lane := m.lane.(queue := s.lane.queue[i := s.lane.queue[i].(status := Queued)]))
    ensures ItemsOk(t) && TwinsOk(t) && FlagOk(t) && SlotOk(t) && OnceOk(t)
  {
    UnflaggedItems(s, i, m);
  }

  lemma SettledBackSafe(s: Sys, id: nat)
    requires Body(s) && id in s.work.steers && s.work.steers[id] == Some(Rejected)
    ensures Body(Settled(s, id, Rejected, Applied))
  {
    var i := SteeredItem(s, id);
    var m := s.(lane := s.lane.(steering := false), work := s.work.(steers := s.work.steers - {id}));
    var t := m.(lane := m.lane.(queue := s.lane.queue[i := s.lane.queue[i].(status := Queued)]));
    BackItems(s, i, m, t);
    PutSafe(t, s.lane.queue[i].(status := Queued), Applied);
  }

  lemma SettleSafe(s: Sys, id: nat, w: Write, wc: Write)
    requires Safe(s) && s.lane.booted
    ensures Safe(DoSteerSettle(s, id, w, wc))
  {
    if id in s.work.steers && s.work.steers[id].Some? {
      var reply := s.work.steers[id].value;
      if w.Applied? && reply.Rejected? {
        SettledBackSafe(s, id);
      } else {
        SettledGoneSafe(s, id, reply, w);
      }
      ClaimSafe(Settled(s, id, reply, w), wc);
    }
  }

  // ---------------------------------------------------------------- running turns

  lemma SendSafe(s: Sys, id: nat)
    requires Safe(s) && s.lane.booted
    ensures Safe(DoSend(s, id))
  {
    if id in s.work.runners && !s.work.runners[id] {
      LogAppend(s.past.log, Launch(id));
      SentStays(s, DoSend(s, id), Launch(id));
      assert DoSend(s, id).past.log[|s.past.log|] == Launch(id);
      assert id in s.work.steers ==> Steers(s.lane.queue, id);
    }
  }

  lemma FinishSafe(s: Sys, id: nat, cut: bool, err: bool, w: Write, wc: Write)
    requires Safe(s) && s.lane.booted
    ensures Safe(DoFinish(s, id, cut, err, w, wc))
  {
    if id in s.work.runners {
      EndedSafe(s, id, cut, err, w);
      ClaimSafe(Ended(s, id, cut, err, w), wc);
    }
  }

  lemma EndedSafe(s: Sys, id: nat, cut: bool, err: bool, w: Write)
    requires Body(s) && id in s.work.runners
    ensures Body(Ended(s, id, cut, err, w))
  {
    assert IsActive(s.lane.active, id);
  }

  lemma ShownSafe(s: Sys, task: Task, t: Sys)
    requires Safe(s) && s.lane.booted && IsActive(s.lane.active, task.id)
    requires task.status.Running? || task.status.WaitingInput?
    requires t.lane == s.lane.(active := Some(task)) && t.past == s.past
    requires t.work == s.work || t.work == s.work.(late := s.work.late + {task})
    requires t.store == s.store || t.store == s.store.(rows := s.store.rows[task.id := task])
    ensures Safe(t)
  {
    assert forall x :: IsActive(t.lane.active, x) <==> IsActive(s.lane.active, x);
    ShownOnce(s, task, t);
  }

  lemma ShownOnce(s: Sys, task: Task, t: Sys)
    requires OnceOk(s) && !task.status.Queued? && t.past == s.past
    requires t.lane.queue == s.lane.queue && t.work == s.work.(late := t.work.late)
    requires t.store == s.store || t.store == s.store.(rows := s.store.rows[task.id := task])
    ensures OnceOk(t)
  {}

  /** Turns of the console, the stop flag and the end of the process move no item. */
  lemma FrameSafe(s: Sys, t: Sys)
    requires Body(s) && (t.lane.live ==> s.lane.live)
    requires t == s.(lane := s.lane.(stop := t.lane.stop, direct := t.lane.direct, live := t.lane.live),
                     work := s.work.(finishing := t.work.finishing))
    ensures Body(t)
  {}

  // ---------------------------------------------------------------- restart

  lemma MarkedSafe(s: Sys, steers: bool, starts: bool)
    requires Safe(s)
    ensures Safe(MarkedAll(s, steers, starts))
  {
    MarkedOnce(s, steers, starts);
  }

  lemma MarkedOnce(s: Sys, steers: bool, starts: bool)
    requires RowsOk(s) && OnceOk(s)
    ensures RowsOk(MarkedAll(s, steers, starts)) && OnceOk(MarkedAll(s, steers, starts))
  {}

  lemma {:induction false} QueuedRowsSorted(rows: map<nat, Task>, n: nat)
    requires forall x :: x in rows ==> rows[x].id == x
    ensures Sorted(QueuedRows(rows, n))
    ensures forall task :: task in QueuedRows(rows, n) ==>
              task.id < n && task.id in rows && task == rows[task.id] && task.status.Queued?
  {
    if n == 0 {
    } else {
      QueuedRowsSorted(rows, n - 1);
      var before := QueuedRows(rows, n - 1);
      assert forall i :: 0 <= i < |before| ==> before[i] in before;
    }
  }

  lemma {:induction false} QueuedRowsComplete(rows: map<nat, Task>, n: nat, x: nat)
    requires x < n && x in rows && rows[x].status.Queued?
    ensures rows[x] in QueuedRows(rows, n)
  {
    if x >= n - 1 {
    } else {
      QueuedRowsComplete(rows, n - 1, x);
    }
  }

  lemma QueuedRowsOk(rows: map<nat, Task>, n: nat)
    requires forall x :: x in rows ==> rows[x].id == x
    ensures var q := QueuedRows(rows, n);
            && (forall i :: 0 <= i < |q| ==>
                  q[i].id < n && q[i].id in rows && q[i] == rows[q[i].id] && q[i].status.Queued?)
            && Sorted(q)
    ensures forall x: nat :: InQueue(QueuedRows(rows, n), x) <==> x < n && x in rows && rows[x].status.Queued?
  {
    QueuedRowsSorted(rows, n);
    var q := QueuedRows(rows, n);
    assert forall i :: 0 <= i < |q| ==> q[i] in q;
    forall x: nat | x < n && x in rows && rows[x].status.Queued? ensures InQueue(q, x) {
      QueuedRowsComplete(rows, n, x);
      var i :| 0 <= i < |q| && q[i] == rows[x];
    }
  }

  ghost predicate Empty(s: Sys) {
    s == DoCrash(s)
  }

  lemma LoadedIs(s: Sys, found: seq<Task>)
    requires Empty(s) && found == QueuedRows(s.store.rows, s.store.nextId)
    ensures Loaded(s) == s.(lane := s.lane.(booted := true, queue := found), past := s.past.(admitted := Ids(found)))
  {
    assert [] + found == found;
    assert [] + Ids(found) == Ids(found);
  }

  lemma LoadedSafe(s: Sys)
    requires Body(s) && Empty(s)
    ensures Body(Loaded(s))
  {
    QueuedRowsOk(s.store.rows, s.store.nextId);
    LoadedIs(s, QueuedRows(s.store.rows, s.store.nextId));
  }

  lemma RecoverSafe(s: Sys, steers: bool, starts: bool, loaded: bool, wc: Write)
    requires Safe(s) && !s.lane.booted
    ensures Safe(DoRecover(s, steers, starts, loaded, wc))
  {
    var m := MarkedAll(s, steers, starts);
    MarkedSafe(s, steers, starts);
    if steers && starts && loaded {
      LoadedSafe(m);
      ClaimSafe(Loaded(m), wc);
    }
  }

  // ---------------------------------------------------------------- every step, every run

  lemma QueueStepSafe(s: Sys, a: Action)
    requires Safe(s) && s.lane.booted && (a.Admit? || a.Enqueue? || a.Cancel? || a.Clear? || a.Refresh? || a.LateWrite?)
    ensures Safe(Do(s, a))
  {
    if a.Admit? {
      AdmitSafe(s, a.user, a.w);
    } else if a.Enqueue? {
      EnqueueSafe(s, a.user, a.blank, a.max, a.w, a.wc);
    } else if a.Cancel? {
      CancelSafe(s, a.id, a.w, a.wc);
    } else if a.Clear? {
      ClearSafe(s, a.user, a.admin, a.ws, a.wc);
    } else if a.Refresh? {
      RefreshSafe(s, a.id, a.at, a.w);
    } else if a.task in s.work.late {
      PutSafe(s, a.task, a.w);
    }
  }

  lemma SteerStepSafe(s: Sys, a: Action)
    requires Safe(s) && s.lane.booted && (a.SteerClaim? || a.SteerReply? || a.SteerSettle?)
    ensures Safe(Do(s, a))
  {
    if a.SteerClaim? {
      SteerClaimSafe(s, a.id, a.capable, a.w);
    } else if a.SteerReply? {
      ReplySafe(s, a.id, a.reply);
    } else {
      SettleSafe(s, a.id, a.w, a.wc);
    }
  }

  lemma TurnStepSafe(s: Sys, a: Action)
    requires Safe(s) && s.lane.booted && !a.Admit? && !a.Enqueue? && !a.Cancel? && !a.Clear? && !a.Refresh?
    requires !a.LateWrite? && !a.Recover?
    ensures Safe(Do(s, a))
  {
    if a.SteerClaim? || a.SteerReply? || a.SteerSettle? {
      SteerStepSafe(s, a);
    } else if a.Send? {
      SendSafe(s, a.id);
    } else if a.Finish? {
      FinishSafe(s, a.id, a.cut, a.err, a.w, a.wc);
    } else if a.WakeAfterDirect? {
      WakeSafe(s, a.wc);
    } else if a.Touch? || a.Snapshot? || a.TakeOver? {
      ShowSafe(s, a);
    } else if !a.Crash? {
      FrameSafe(s, Do(s, a));
    }
  }

  lemma WakeSafe(s: Sys, wc: Write)
    requires Safe(s) && s.lane.booted
    ensures Safe(DoWakeAfterDirect(s, wc))
  {
    if s.work.finishing > 0 {
      var m := s.(work := s.work.(finishing := s.work.finishing - 1));
      FrameSafe(s, m);
      ClaimSafe(m, wc);
    }
  }

  lemma ShowSafe(s: Sys, a: Action)
    requires Safe(s) && s.lane.booted && (a.Touch? || a.Snapshot? || a.TakeOver?)
    ensures Safe(Do(s, a))
  {
    if s.lane.active.Some? {
      var active := s.lane.active.value;
      var task := if a.TakeOver? then active.(controller := a.user) else Shown(active, a.waiting);
      ShownSafe(s, task, Do(s, a));
    }
  }

  lemma StepSafe(s: Sys, a: Action)
    requires Safe(s)
    ensures Safe(Step(s, a))
  {
    if Enabled(s, a) {
      if a.Crash? {
        assert BootOk(DoCrash(s));
      } else if a.Recover? {
        RecoverSafe(s, a.steersMarked, a.startsMarked, a.loaded, a.wc);
      } else if a.Admit? || a.Enqueue? || a.Cancel? || a.Clear? || a.Refresh? || a.LateWrite? {
        QueueStepSafe(s, a);
      } else {
        TurnStepSafe(s, a);
      }
    }
  }

  /** From a safe state no continuation delivers a prompt twice. */
  lemma {:induction false} RunSafe(s: Sys, acts: seq<Action>)
    requires Safe(s)
    ensures Safe(Run(s, acts)) && AtMostOnce(Run(s, acts).past.log)
  {
    if acts == [] {
    } else {
      RunSafe(s, acts[..|acts| - 1]);
      StepSafe(Run(s, acts[..|acts| - 1]), acts[|acts| - 1]);
    }
  }
}
