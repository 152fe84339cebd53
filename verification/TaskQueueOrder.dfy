/**
 Exactly when all launches, those of later processes included, will follow creation
 order: if they did so far, nothing that is older than a launched task may still be
 launched, and no row is stored as queued without waiting in the queue.
 */
module TaskQueueOrder {
  import opened Prelude
  import opened TaskQueue
  import opened TaskQueueOnce
  import opened TaskQueueInvariant
  import opened TaskQueueTheorems
  import opened TaskQueueReplay
  import opened TaskQueueRestarts

  /** The task waits, was claimed but not sent, or is being steered and may be refused. */
  ghost predicate Pending(s: Sys, x: nat) {
    || (InQueue(s.lane.queue, x) && !Given(s, x))
    || (x in s.work.runners && !s.work.runners[x])
  }

  /** What is pending is newer than what was launched. */
  ghost predicate NewestWait(s: Sys) {
    forall i, x: nat :: 0 <= i < |s.past.log| && s.past.log[i].Launch? && Pending(s, x) ==> s.past.log[i].id < x
  }

  ghost predicate InOrderForever(s: Sys) {
    forall more: seq<Action> :: AllHonest(more) ==> Increasing(LaunchIds(Run(s, more).past.log))
  }

  // ---------------------------------------------------------------- the history flag is history

  function Cleaned(s: Sys): Sys {
    s.(past := s.past.(clean := true))
  }

  /** Two states that differ in the history flag at most. */
  ghost predicate Alike(s: Sys, t: Sys) {
    t == s.(past := s.past.(clean := t.past.clean))
  }

  lemma StartNextAlike(s: Sys, t: Sys, w: Write)
    requires Alike(s, t)
    ensures Alike(StartNext(s, w), StartNext(t, w))
  {}

  lemma CancelAlike(s: Sys, t: Sys, id: nat, w: Write, wc: Write)
    requires Alike(s, t)
    ensures Alike(DoCancel(s, id, w, wc), DoCancel(t, id, w, wc))
  {
    var i := IndexOf(s.lane.queue, id);
    if i < |s.lane.queue| {
      StartNextAlike(CancelledAt(s, i, w), CancelledAt(t, i, w), wc);
    }
  }

  lemma SettleAlike(s: Sys, t: Sys, id: nat, w: Write, wc: Write)
    requires Alike(s, t)
    ensures Alike(DoSteerSettle(s, id, w, wc), DoSteerSettle(t, id, w, wc))
  {
    if id in s.work.steers && s.work.steers[id].Some? {
      var reply := s.work.steers[id].value;
      StartNextAlike(Settled(s, id, reply, w), Settled(t, id, reply, w), wc);
    }
  }

  lemma FinishAlike(s: Sys, t: Sys, id: nat, cut: bool, err: bool, w: Write, wc: Write)
    requires Alike(s, t)
    ensures Alike(DoFinish(s, id, cut, err, w, wc), DoFinish(t, id, cut, err, w, wc))
  {
    StartNextAlike(Ended(s, id, cut, err, w), Ended(t, id, cut, err, w), wc);
  }

  lemma RecoverAlike(s: Sys, t: Sys, steers: bool, starts: bool, loaded: bool, wc: Write)
    requires Alike(s, t)
    ensures Alike(DoRecover(s, steers, starts, loaded, wc), DoRecover(t, steers, starts, loaded, wc))
  {
    StartNextAlike(Loaded(MarkedAll(s, true, true)), Loaded(MarkedAll(t, true, true)), wc);
  }

  lemma QueueStepAlike(s: Sys, t: Sys, a: Action)
    requires Alike(s, t) && (a.Admit? || a.Enqueue? || a.Cancel? || a.Clear?)
    ensures Alike(Do(s, a), Do(t, a))
  {
    if a.Enqueue? {
      StartNextAlike(Appended(s, a.user), Appended(t, a.user), a.wc);
    } else if a.Cancel? {
      CancelAlike(s, t, a.id, a.w, a.wc);
    } else if a.Clear? {
      StartNextAlike(Cleared(s, a.user, a.admin, a.ws), Cleared(t, a.user, a.admin, a.ws), a.wc);
    }
  }

  lemma SteerStepAlike(s: Sys, t: Sys, a: Action)
    requires Alike(s, t) && (a.SteerClaim? || a.SteerReply? || a.SteerSettle?)
    ensures Alike(Do(s, a), Do(t, a))
  {
    if a.SteerSettle? {
      SettleAlike(s, t, a.id, a.w, a.wc);
    }
  }

  lemma TurnStepAlike(s: Sys, t: Sys, a: Action)
    requires Alike(s, t) && (a.Send? || a.Finish? || a.Touch? || a.Snapshot? || a.LateWrite? || a.Refresh?)
    ensures Alike(Do(s, a), Do(t, a))
  {
    if a.Finish? {
      FinishAlike(s, t, a.id, a.cut, a.err, a.w, a.wc);
    }
  }

  lemma DirectStepAlike(s: Sys, t: Sys, a: Action)
    requires Alike(s, t) && (a.BeginDirect? || a.EndDirect? || a.WakeAfterDirect? || a.TakeOver? || a.Stop?)
    ensures Alike(Do(s, a), Do(t, a))
  {
    if a.WakeAfterDirect? && s.work.finishing > 0 {
      StartNextAlike(s.(work := s.work.(finishing := s.work.finishing - 1)),
                     t.(work := t.work.(finishing := t.work.finishing - 1)), a.wc);
    }
  }

  lemma StepAlike(s: Sys, t: Sys, a: Action)
    requires Alike(s, t)
    ensures Alike(Step(s, a), Step(t, a))
  {
    if a.Admit? || a.Enqueue? || a.Cancel? || a.Clear? {
      QueueStepAlike(s, t, a);
    } else if a.SteerClaim? || a.SteerReply? || a.SteerSettle? {
      SteerStepAlike(s, t, a);
    } else if a.Send? || a.Finish? || a.Touch? || a.Snapshot? || a.LateWrite? || a.Refresh? {
      TurnStepAlike(s, t, a);
    } else if a.BeginDirect? || a.EndDirect? || a.WakeAfterDirect? || a.TakeOver? || a.Stop? {
      DirectStepAlike(s, t, a);
    } else if a.Recover? {
      RecoverAlike(s, t, a.steersMarked, a.startsMarked, a.loaded, a.wc);
    }
  }

  lemma {:induction false} RunAlike(s: Sys, t: Sys, acts: seq<Action>)
    requires Alike(s, t)
    ensures Alike(Run(s, acts), Run(t, acts))
  {
    if acts == [] {
    } else {
      RunAlike(s, t, acts[..|acts| - 1]);
      StepAlike(Run(s, acts[..|acts| - 1]), Run(t, acts[..|acts| - 1]), acts[|acts| - 1]);
    }
  }

  // ---------------------------------------------------------------- nothing older is pending

  lemma {:induction false} PairsInOrder(log: seq<Delivery>, i: nat, j: nat)
    requires Increasing(LaunchIds(log)) && i < j < |log| && log[i].Launch? && log[j].Launch?
    ensures log[i].id < log[j].id
    decreases |log|
  {
    var pre := log[..|log| - 1];
    var ids := LaunchIds(log);
    assert pre + [log[|log| - 1]] == log;
    LaunchIdsAppend(pre, log[|log| - 1]);
    assert forall k :: 0 <= k < |LaunchIds(pre)| ==> LaunchIds(pre)[k] == ids[k];
    if j < |log| - 1 {
      PairsInOrder(pre, i, j);
    } else {
      LaunchIdsOk(pre);
      assert pre[i] == Launch(log[i].id);
      var k :| 0 <= k < |LaunchIds(pre)| && LaunchIds(pre)[k] == log[i].id;
      assert ids[|ids| - 1] == log[j].id && ids[k] == log[i].id;
    }
  }

  /** A task this process has sent is the newest that was ever launched. */
  lemma SentIsNewest(s: Sys, i: nat, x: nat)
    requires Inv(s) && Increasing(LaunchIds(s.past.log)) && x in s.work.runners && s.work.runners[x]
    requires i < |s.past.log| && s.past.log[i].Launch?
    ensures s.past.log[i].id <= x
  {
    var j :| s.past.life <= j < |s.past.log| && s.past.log[j] == Launch(x);
    if i < j {
      PairsInOrder(s.past.log, i, j);
    }
  }

  lemma NewestIsOrderly(s: Sys)
    requires Inv(s) && s.lane.booted && Increasing(LaunchIds(s.past.log)) && NewestWait(s)
    ensures OrderOk(Cleaned(s))
  {
    var t := Cleaned(s);
    forall i, j | 0 <= i < j < |t.past.log| && t.past.log[i].Launch? && t.past.log[j].Launch?
      ensures t.past.log[i].id < t.past.log[j].id
    {
      PairsInOrder(s.past.log, i, j);
    }
    forall i | 0 <= i < |t.past.log| && t.past.log[i].Launch?
      ensures forall k :: 0 <= k < |t.lane.queue| && !Given(t, t.lane.queue[k].id) ==>
                t.past.log[i].id < t.lane.queue[k].id
    {
      forall k | 0 <= k < |t.lane.queue| && !Given(t, t.lane.queue[k].id)
        ensures t.past.log[i].id < t.lane.queue[k].id
      {
        assert InQueue(s.lane.queue, s.lane.queue[k].id) && Pending(s, s.lane.queue[k].id);
      }
    }
    forall i, x | 0 <= i < |t.past.log| && t.past.log[i].Launch? && x in t.work.runners
      ensures t.past.log[i].id <= x && (!t.work.runners[x] ==> t.past.log[i].id < x)
    {
      if s.work.runners[x] {
        SentIsNewest(s, i, x);
      } else {
        assert Pending(s, x);
      }
    }
  }

  lemma CleanedKeeps(s: Sys)
    requires Inv(s) && s.lane.booted && OrderOk(Cleaned(s)) && forall x :: !Stray(s, x)
    ensures Inv(Cleaned(s))
  {
    var t := Cleaned(s);
    forall x | x in s.store.rows && s.store.rows[x].status.Queued? ensures InQueue(s.lane.queue, x) {
      assert !Stray(s, x);
    }
    assert StrayOk(t);
    CleanedSafe(s);
    CleanedRest(s);
  }

  lemma CleanedSafe(s: Sys)
    requires Safe(s) && s.lane.booted
    ensures Safe(Cleaned(s))
  {
    assert forall x :: Sent(s, x) <==> Sent(Cleaned(s), x);
  }

  lemma CleanedRest(s: Sys)
    requires QueueOk(s) && SteerOk(s) && PlaceOk(s) && TurnsOk(s) && Awake(s)
    ensures var t := Cleaned(s); QueueOk(t) && SteerOk(t) && PlaceOk(t) && TurnsOk(t) && Awake(t)
  {}

  /** Nothing can go wrong any more. */
  lemma StaysInOrder(s: Sys, more: seq<Action>)
    requires Inv(Cleaned(s)) && AllHonest(more)
    ensures Increasing(LaunchIds(Run(s, more).past.log))
  {
    RunAlike(s, Cleaned(s), more);
    HonestRunIsClean(Cleaned(s), more);
    RunKeeps(Cleaned(s), more);
    InOrder(Run(Cleaned(s), more));
  }

  // ---------------------------------------------------------------- something older is pending

  /** The item is queued, or it is refused and then queued. */
  lemma ComesToWait(s: Sys, x: nat) returns (acts: seq<Action>)
    requires Inv(s) && s.lane.booted && InQueue(s.lane.queue, x) && !Given(s, x)
    ensures AllHonest(acts) && Waiting(Run(s, acts), x)
    ensures LaunchIds(Run(s, acts).past.log) == LaunchIds(s.past.log)
  {
    if x !in s.work.steers {
      acts := [];
      QueuedWaits(s, x);
    } else {
      acts := [SteerReply(x, Rejected), SteerSettle(x, Applied, FailedLost)];
      RefusedComesBack(s, x);
    }
  }

  lemma RefusedComesBack(s: Sys, x: nat)
    requires Inv(s) && s.lane.booted && x in s.work.steers && !Given(s, x)
    ensures var t := Run(s, [SteerReply(x, Rejected), SteerSettle(x, Applied, FailedLost)]);
            Waiting(t, x) && LaunchIds(t.past.log) == LaunchIds(s.past.log)
  {
    RunTwo(s, SteerReply(x, Rejected), SteerSettle(x, Applied, FailedLost));
    ReplyRefuses(s, x);
    ReplyLaunchesNothing(s, x, Rejected);
    RefusedWaits(Step(s, SteerReply(x, Rejected)), x);
  }

  lemma QueuedWaits(s: Sys, x: nat)
    requires Inv(s) && s.lane.booted && InQueue(s.lane.queue, x) && x !in s.work.steers
    ensures Waiting(s, x)
  {}

  lemma ReplyRefuses(s: Sys, x: nat)
    requires RowsOk(s) && QueueOk(s) && SteerOk(s) && s.lane.booted && x in s.work.steers && !Given(s, x)
    ensures var m := Step(s, SteerReply(x, Rejected));
            && RowsOk(m) && QueueOk(m) && SteerOk(m) && m.lane.booted
            && x in m.work.steers && m.work.steers[x] == Some(Rejected)
  {
    assert DoSteerReply(s, x, Rejected).work.steers.Keys == s.work.steers.Keys;
  }

  lemma ReplyLaunchesNothing(s: Sys, x: nat, reply: Reply)
    ensures LaunchIds(DoSteerReply(s, x, reply).past.log) == LaunchIds(s.past.log)
  {
    LaunchIdsAppend(s.past.log, Steer(x, reply));
  }

  lemma RefusedWaits(m: Sys, x: nat)
    requires RowsOk(m) && QueueOk(m) && SteerOk(m) && m.lane.booted
    requires x in m.work.steers && m.work.steers[x] == Some(Rejected)
    ensures var t := Step(m, SteerSettle(x, Applied, FailedLost)); Waiting(t, x) && t.past.log == m.past.log
  {
    var n := Settled(m, x, Rejected, Applied);
    SettledWaits(m, x);
    LostClaim(n);
    assert Waiting(StartNext(n, FailedLost), x);
  }

  lemma SettledWaits(m: Sys, x: nat)
    requires RowsOk(m) && QueueOk(m) && SteerOk(m) && m.lane.booted && x in m.work.steers
    ensures Waiting(Settled(m, x, Rejected, Applied), x)
  {
    SettlingItem(m, x);
    var q, i := m.lane.queue, IndexOf(m.lane.queue, x);
    var back := q[i := q[i].(status := Queued)];
    assert forall j :: 0 <= j < |q| ==> back[j].id == q[j].id;
    assert IndexOf(back, x) == i;
  }

  /** A launch that is older than an earlier one breaks the order. */
  lemma LateLaunch(log: seq<Delivery>, i: nat, x: nat)
    requires i < |log| && log[i].Launch? && x <= log[i].id
    ensures !Increasing(LaunchIds(log + [Launch(x)]))
  {
    LaunchIdsAppend(log, Launch(x));
    LaunchIdsOk(log);
    assert log[i] == Launch(log[i].id);
    var ids := LaunchIds(log);
    var k :| 0 <= k < |ids| && ids[k] == log[i].id;
    assert (ids + [x])[k] == log[i].id && (ids + [x])[|ids|] == x;
  }

  lemma ClaimedPendingBreaks(s: Sys, i: nat, x: nat)
    requires s.lane.booted && x in s.work.runners && !s.work.runners[x]
    requires i < |s.past.log| && s.past.log[i].Launch? && x <= s.past.log[i].id
    ensures !Increasing(LaunchIds(Run(s, [Send(x)]).past.log))
  {
    RunOne(s, Send(x));
    LateLaunch(s.past.log, i, x);
  }

  lemma WaitingPendingBreaks(s: Sys, i: nat, x: nat) returns (more: seq<Action>)
    requires Inv(s) && s.lane.booted && InQueue(s.lane.queue, x) && !Given(s, x)
    requires i < |s.past.log| && s.past.log[i].Launch? && x <= s.past.log[i].id
    ensures AllHonest(more) && !Increasing(LaunchIds(Run(s, more).past.log))
  {
    var a := ComesToWait(s, x);
    var b := WaitingLaunches(Run(s, a), x);
    more := a + b;
    RunConcat(s, a, b);
    LaunchIdsAppend(Run(s, a).past.log, Launch(x));
    LaunchIdsAppend(s.past.log, Launch(x));
    LateLaunch(s.past.log, i, x);
  }

  lemma PendingBreaks(s: Sys, i: nat, x: nat) returns (more: seq<Action>)
    requires Reachable(s) && s.lane.booted && Pending(s, x)
    requires i < |s.past.log| && s.past.log[i].Launch? && x <= s.past.log[i].id
    ensures AllHonest(more) && !Increasing(LaunchIds(Run(s, more).past.log))
  {
    if x in s.work.runners && !s.work.runners[x] {
      more := [Send(x)];
      ClaimedPendingBreaks(s, i, x);
    } else {
      ReachedInv(s);
      more := WaitingPendingBreaks(s, i, x);
    }
  }

  // ---------------------------------------------------------------- exactly when

  /**
   From any state of a working process every honest future launches in creation order, over
   all processes, if and only if launches were in order so far, everything pending is newer
   than all of them, and no row stored as queued is missing from the queue.
   */
  lemma {:induction false} OrderAcrossRestartsExactly(acts: seq<Action>)
    requires Run(Init, acts).lane.booted
    ensures var s := Run(Init, acts);
            InOrderForever(s) <==>
            Increasing(LaunchIds(s.past.log)) && NewestWait(s) && forall x :: !Stray(s, x)
  {
    ReachableInv(acts);
    var s := Run(Init, acts);
    if Increasing(LaunchIds(s.past.log)) && NewestWait(s) && forall x :: !Stray(s, x) {
      NewestIsOrderly(s);
      CleanedKeeps(s);
      forall more: seq<Action> | AllHonest(more) ensures Increasing(LaunchIds(Run(s, more).past.log)) {
        StaysInOrder(s, more);
      }
    } else {
      var more := OutOfOrderFuture(s);
    }
  }

  lemma OutOfOrderFuture(s: Sys) returns (more: seq<Action>)
    requires Reachable(s) && s.lane.booted
    requires !(Increasing(LaunchIds(s.past.log)) && NewestWait(s) && forall x :: !Stray(s, x))
    ensures AllHonest(more) && !Increasing(LaunchIds(Run(s, more).past.log))
  {
    if !Increasing(LaunchIds(s.past.log)) {
      more := [];
    } else if !NewestWait(s) {
      var i, x: nat :| 0 <= i < |s.past.log| && s.past.log[i].Launch? && Pending(s, x) && x <= s.past.log[i].id;
      more := PendingBreaks(s, i, x);
    } else {
      var x :| Stray(s, x);
      more := StrayBreaksOrder(s, x);
    }
  }
}
