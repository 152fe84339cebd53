/**
 Order and recovery across restarts.  Within one process launches always follow
 admission.  Across processes they do as long as the store is clean: a row stored
 as queued behind the program's back (a failed write that took effect, or a
 recovery that could not read the rows) can be launched out of order later, whatever
 the process is doing.
 */
module TaskQueueRestarts {
  import opened Prelude
  import opened TaskQueue
  import opened TaskQueueOnce
  import opened TaskQueueInvariant
  import opened TaskQueueTheorems
  import opened TaskQueueReplay

  /** A row stored as queued that no queue of this process holds. */
  ghost predicate Stray(s: Sys, x: nat) {
    x in s.store.rows && s.store.rows[x].status.Queued? && !InQueue(s.lane.queue, x)
  }

  lemma LaunchIdsAppend(log: seq<Delivery>, d: Delivery)
    ensures LaunchIds(log + [d]) == LaunchIds(log) + (if d.Launch? then [d.id] else [])
  {
    assert (log + [d])[..|log|] == log;
  }

  // ---------------------------------------------------------------- clean stores keep the order

  /** While the store is clean, launches of all processes together follow creation order. */
  lemma {:induction false} OrderSurvivesRestarts(acts: seq<Action>)
    requires Run(Init, acts).past.clean
    ensures Increasing(LaunchIds(Run(Init, acts).past.log))
  {
    ReachableInv(acts);
    InOrder(Run(Init, acts));
  }

  lemma InOrder(s: Sys)
    requires OrderOk(s) && s.past.clean
    ensures Increasing(LaunchIds(s.past.log))
  {
    LaunchIdsIncrease(s.past.log);
  }

  lemma HonestStepIsClean(s: Sys, a: Action)
    requires Honest(a) && s.past.clean
    ensures Step(s, a).past.clean
  {
    if Enabled(s, a) {
      if a.Enqueue? {
        EnqueueClean(s, a.user, a.blank, a.max, a.w, a.wc);
      } else if a.SteerSettle? {
      } else if a.Recover? {
      } else if a.Cancel? {
      } else if a.Finish? {
      } else if a.Clear? {
      } else if a.WakeAfterDirect? {
      }
    }
  }

  lemma EnqueueClean(s: Sys, user: nat, blank: bool, max: nat, w: Write, wc: Write)
    requires s.past.clean && !w.FailedApplied?
    ensures DoEnqueue(s, user, blank, max, w, wc).past.clean
  {}

  lemma {:induction false} HonestRunIsClean(s: Sys, acts: seq<Action>)
    requires AllHonest(acts) && s.past.clean
    ensures Run(s, acts).past.clean
  {
    if acts == [] {
    } else {
      HonestRunIsClean(s, acts[..|acts| - 1]);
      HonestStepIsClean(Run(s, acts[..|acts| - 1]), acts[|acts| - 1]);
    }
  }

  // ---------------------------------------------------------------- one stray row breaks it

  ghost predicate Lurks(s: Sys, x: nat) {
    Reachable(s) && s.lane.booted && Stray(s, x)
  }

  lemma StrayAfter(s: Sys, t: Sys, x: nat)
    requires Stray(s, x)
    requires x in t.store.rows && t.store.rows[x] == s.store.rows[x]
    requires forall y :: InQueue(t.lane.queue, y) ==> InQueue(s.lane.queue, y)
    ensures Stray(t, x)
  {}

  lemma InFlight(s: Sys) returns (k: nat)
    requires Reachable(s) && s.lane.steering
    ensures k in s.work.steers
  {
    ReachedInv(s);
    k :| k in s.work.steers;
  }

  lemma NewId(s: Sys, x: nat)
    requires Reachable(s)
    ensures x in s.store.rows ==> x < s.store.nextId
    ensures RowsOk(s) && s.store.nextId !in s.work.runners && s.store.nextId !in s.store.rows
  {
    ReachedInv(s);
    NextIsFresh(s);
  }

  /** Let the steer in flight settle. */
  lemma SettleFirst(s: Sys, x: nat) returns (acts: seq<Action>)
    requires Lurks(s, x)
    ensures AllHonest(acts) && Lurks(Run(s, acts), x) && !Run(s, acts).lane.steering
  {
    if !s.lane.steering {
      acts := [];
    } else {
      var k := InFlight(s);
      acts := [SteerReply(k, Ambiguous), SteerSettle(k, Applied, FailedLost)];
      RunTwo(s, SteerReply(k, Ambiguous), SteerSettle(k, Applied, FailedLost));
      SettleTwo(s, k, x);
    }
  }

  lemma SettleTwo(s: Sys, k: nat, x: nat)
    requires Lurks(s, x) && k in s.work.steers
    ensures var t := Step(Step(s, SteerReply(k, Ambiguous)), SteerSettle(k, Applied, FailedLost));
            Lurks(t, x) && !t.lane.steering
  {
    ReplyKeepsStray(s, k, x);
    SettleStep(Step(s, SteerReply(k, Ambiguous)), k, x);
  }

  lemma ReplyKeepsStray(s: Sys, k: nat, x: nat)
    requires Lurks(s, x) && k in s.work.steers
    ensures var t := Step(s, SteerReply(k, Ambiguous));
            Lurks(t, x) && k in t.work.steers && t.work.steers[k].Some?
  {
    ReachNext(s, SteerReply(k, Ambiguous));
  }

  lemma SettleStep(s: Sys, k: nat, x: nat)
    requires Lurks(s, x) && k in s.work.steers && s.work.steers[k].Some?
    ensures var t := Step(s, SteerSettle(k, Applied, FailedLost)); Lurks(t, x) && !t.lane.steering
  {
    ReachNext(s, SteerSettle(k, Applied, FailedLost));
    SettleKeepsStray(s, k, x);
  }

  lemma SettleKeepsStray(s: Sys, k: nat, x: nat)
    requires Lurks(s, x) && k in s.work.steers && s.work.steers[k].Some?
    ensures var t := Step(s, SteerSettle(k, Applied, FailedLost)); Stray(t, x) && t.lane.booted && !t.lane.steering
  {
    ReachedInv(s);
    SettlingItem(s, k);
    assert InQueue(s.lane.queue, k);
    var m := Settled(s, k, s.work.steers[k].value, Applied);
    SettledKeepsStray(s, k, s.work.steers[k].value, x);
    LostClaim(m);
    StrayAfter(m, StartNext(m, FailedLost), x);
  }

  lemma SettledKeepsStray(s: Sys, k: nat, reply: Reply, x: nat)
    requires Sorted(s.lane.queue) && Stray(s, x) && InQueue(s.lane.queue, k)
    ensures var m := Settled(s, k, reply, Applied); Stray(m, x) && m.lane.booted == s.lane.booted && !m.lane.steering
  {
    var i := IndexOf(s.lane.queue, k);
    WithoutQueue(s.lane.queue, i);
    UpdatedQueue(s.lane.queue, i, s.lane.queue[i].(status := FinalStatus(reply, Applied)));
    StrayAfter(s, Settled(s, k, reply, Applied), x);
  }

  /** Let the running turn end. */
  lemma FinishFirst(s: Sys, x: nat) returns (acts: seq<Action>)
    requires Lurks(s, x) && !s.lane.steering
    ensures AllHonest(acts) && Lurks(Run(s, acts), x)
    ensures !Run(s, acts).lane.steering && Run(s, acts).lane.active.None?
  {
    if s.lane.active.None? {
      acts := [];
    } else {
      acts := [Finish(s.lane.active.value.id, false, false, Applied, FailedLost)];
      RunOne(s, acts[0]);
      FinishStep(s, s.lane.active.value.id, x);
    }
  }

  lemma FinishStep(s: Sys, id: nat, x: nat)
    requires Lurks(s, x) && IsActive(s.lane.active, id) && !s.lane.steering
    ensures var t := Step(s, Finish(id, false, false, Applied, FailedLost));
            Lurks(t, x) && !t.lane.steering && t.lane.active.None?
  {
    ReachNext(s, Finish(id, false, false, Applied, FailedLost));
    FinishKeepsStray(s, id, x);
  }

  lemma FinishKeepsStray(s: Sys, id: nat, x: nat)
    requires Lurks(s, x) && IsActive(s.lane.active, id) && !s.lane.steering
    ensures var t := DoFinish(s, id, false, false, Applied, FailedLost);
            Stray(t, x) && t.lane.booted && !t.lane.steering && t.lane.active.None?
  {
    ReachedInv(s);
    assert id in s.work.runners;
    LostClaim(Ended(s, id, false, false, Applied));
    StrayAfter(s, DoFinish(s, id, false, false, Applied, FailedLost), x);
  }

  lemma {:induction false} ClearTakesAll(q: seq<Task>, rows: map<nat, Task>, n: nat, x: nat)
    requires n <= |q| && forall i :: 0 <= i < |q| ==> q[i].status.Queued? && q[i].id != x
    requires x in rows
    ensures Kept(q, n, 0, true, []) == []
    ensures var after := ClearedRows(rows, q, n, 0, true, []); x in after && after[x] == rows[x]
  {
    if n == 0 {
    } else {
      ClearTakesAll(q, rows, n - 1, x);
    }
  }

  /** Clear the queue and end the console turn: the conversation is idle. */
  lemma EmptyFirst(s: Sys, x: nat) returns (acts: seq<Action>)
    requires Lurks(s, x) && !s.lane.steering && s.lane.active.None?
    ensures AllHonest(acts) && Lurks(Run(s, acts), x) && Idle(Run(s, acts))
  {
    var c := Clear(0, true, [], FailedLost);
    ClearStep(s, x);
    var turn := EndDirectStep(Step(s, c), x);
    acts := [c, EndDirect(turn)];
    RunTwo(s, c, EndDirect(turn));
  }

  lemma ClearStep(s: Sys, x: nat)
    requires Lurks(s, x) && !s.lane.steering && s.lane.active.None?
    ensures var t := Step(s, Clear(0, true, [], FailedLost));
            Lurks(t, x) && !t.lane.steering && t.lane.active.None? && t.lane.queue == []
  {
    ReachNext(s, Clear(0, true, [], FailedLost));
    ClearKeepsStray(s, x);
  }

  lemma EndDirectKeepsStray(s: Sys, turn: nat, x: nat)
    requires Stray(s, x) && s.lane.booted && !s.lane.steering && s.lane.active.None? && s.lane.queue == []
    requires s.lane.direct.Some? ==> s.lane.direct.value == turn
    ensures var t := Step(s, EndDirect(turn)); Stray(t, x) && t.lane.booted && Idle(t)
  {}

  lemma EndDirectStep(s: Sys, x: nat) returns (turn: nat)
    requires Lurks(s, x) && !s.lane.steering && s.lane.active.None? && s.lane.queue == []
    ensures var t := Step(s, EndDirect(turn)); Lurks(t, x) && Idle(t)
  {
    turn := if s.lane.direct.Some? then s.lane.direct.value else 0;
    ReachNext(s, EndDirect(turn));
    EndDirectKeepsStray(s, turn, x);
  }

  lemma ClearKeepsStray(s: Sys, x: nat)
    requires Lurks(s, x) && !s.lane.steering && s.lane.active.None?
    ensures var t := DoClear(s, 0, true, [], FailedLost);
            Stray(t, x) && t.lane.booted && !t.lane.steering && t.lane.active.None? && t.lane.queue == []
  {
    ReachedInv(s);
    forall i | 0 <= i < |s.lane.queue| ensures s.lane.queue[i].status.Queued? && s.lane.queue[i].id != x {
      assert InQueue(s.lane.queue, s.lane.queue[i].id);
    }
    ClearTakesAll(s.lane.queue, s.store.rows, |s.lane.queue|, x);
    LostClaim(Cleared(s, 0, true, []));
    StrayAfter(s, DoClear(s, 0, true, [], FailedLost), x);
  }

  /** A message that arrives now is launched before the stray row. */
  lemma Overtake(s: Sys, x: nat)
    requires Lurks(s, x) && Idle(s)
    ensures var t := Run(s, [Admit(0, Applied), Send(s.store.nextId)]);
            && Lurks(t, x) && x < s.store.nextId
            && t.past.log == s.past.log + [Launch(s.store.nextId)]
  {
    var y := s.store.nextId;
    RunTwo(s, Admit(0, Applied), Send(y));
    AdmitStep(s, x);
    SendStep(Step(s, Admit(0, Applied)), y, x);
  }

  lemma AdmitStep(s: Sys, x: nat)
    requires Lurks(s, x) && Idle(s)
    ensures var t := Step(s, Admit(0, Applied));
            var y := s.store.nextId;
            Lurks(t, x) && x < y && y in t.work.runners && !t.work.runners[y] && t.past.log == s.past.log
  {
    ReachNext(s, Admit(0, Applied));
    NewId(s, x);
  }

  lemma SendStep(s: Sys, y: nat, x: nat)
    requires Lurks(s, x) && y in s.work.runners && !s.work.runners[y]
    ensures var t := Step(s, Send(y)); Lurks(t, x) && t.past.log == s.past.log + [Launch(y)]
  {
    ReachNext(s, Send(y));
  }

  /** Whatever the process is doing, it can come to rest with the stray row untouched. */
  lemma ComeToRest(s: Sys, x: nat) returns (acts: seq<Action>)
    requires Lurks(s, x)
    ensures AllHonest(acts) && Lurks(Run(s, acts), x) && Idle(Run(s, acts))
  {
    var a := SettleFirst(s, x);
    var b := ThenRest(Run(s, a), x);
    acts := a + b;
    RunConcat(s, a, b);
  }

  lemma ThenRest(s: Sys, x: nat) returns (acts: seq<Action>)
    requires Lurks(s, x) && !s.lane.steering
    ensures AllHonest(acts) && Lurks(Run(s, acts), x) && Idle(Run(s, acts))
  {
    var a := FinishFirst(s, x);
    var b := EmptyFirst(Run(s, a), x);
    acts := a + b;
    RunConcat(s, a, b);
  }

  /** From rest, a newer task is launched first and the stray one after the restart. */
  lemma Invert(s: Sys, x: nat) returns (acts: seq<Action>, y: nat)
    requires Lurks(s, x) && Idle(s)
    ensures AllHonest(acts) && x < y
    ensures Run(s, acts).past.log == s.past.log + [Launch(y)] + [Launch(x)]
  {
    y := s.store.nextId;
    var a := [Admit(0, Applied), Send(y)];
    Overtake(s, x);
    NewId(Run(s, a), x);
    var b := RestartLaunches(Run(s, a), x);
    acts := a + b;
    RunConcat(s, a, b);
  }

  lemma OutOfOrder(log: seq<Delivery>, y: nat, x: nat)
    requires x < y
    ensures !Increasing(LaunchIds(log + [Launch(y)] + [Launch(x)]))
  {
    LaunchIdsAppend(log, Launch(y));
    LaunchIdsAppend(log + [Launch(y)], Launch(x));
    var ids := LaunchIds(log + [Launch(y)] + [Launch(x)]);
    assert ids[|ids| - 2] == y && ids[|ids| - 1] == x;
  }

  /** From any state with a stray row some honest continuation launches out of order. */
  lemma StrayBreaksOrder(s: Sys, x: nat) returns (more: seq<Action>)
    requires Lurks(s, x)
    ensures AllHonest(more) && !Increasing(LaunchIds(Run(s, more).past.log))
  {
    var a := ComeToRest(s, x);
    var rest := Run(s, a);
    var b, y := Invert(rest, x);
    RunConcat(s, a, b);
    OutOfOrder(rest.past.log, y, x);
    more := a + b;
  }
}
