/**
 Recovery that comes late.  Start-up registers the channel and starts its platform
 before it reads the stored rows back, so messages can be admitted first.  Recovery
 marks and reads the rows outside the control lock and takes the lock only to append
 what it read, without looking at what happened in between.  The result: no future
 delivers a prompt twice exactly if, when the lock is taken, every row that was read
 is still due or its first copy is inert.
 */
module TaskQueueLateRecovery {
  import opened Prelude
  import opened TaskQueue
  import opened TaskQueueOnce
  import opened TaskQueueInvariant
  import opened TaskQueueTheorems
  import opened TaskQueueReplay

  // ---------------------------------------------------------------- the late recovery

  ghost predicate NoCrash(acts: seq<Action>) {
    forall i :: 0 <= i < |acts| ==> !acts[i].Crash?
  }

  /** The two marking statements and the read are separate: the process goes on between them. */
  function AtRead(s: Sys, early: seq<Action>, mid: seq<Action>): Sys {
    Run(MarkedAll(Run(MarkedAll(s, true, false), early), false, true), mid)
  }

  function Found(s: Sys): seq<Task> {
    QueuedRows(s.store.rows, s.store.nextId)
  }

  /** The rows read earlier go to the end of the queue as it is now. */
  function Rejoined(s: Sys, q: seq<Task>): Sys {
    s.(lane := s.lane.(queue := s.lane.queue + q), past := s.past.(admitted := s.past.admitted + Ids(q)))
  }

  /** Appending this task cannot deliver it a second time. */
  ghost predicate StillDue(s: Sys, x: nat) {
    && !Reached(s.past.log, x) && !IsActive(s.lane.active, x)
    && forall i :: 0 <= i < |s.lane.queue| && s.lane.queue[i].id == x ==> Inert(s, s.lane.queue[i])
  }

  ghost predicate Harmless(s: Sys, q: seq<Task>) {
    forall k :: 0 <= k < |q| ==> StillDue(s, q[k].id)
  }

  /** What a read leaves in hand, whatever happened since. */
  ghost predicate Held(s: Sys, q: seq<Task>) {
    && s.lane.booted && Sorted(q)
    && forall k :: 0 <= k < |q| ==> q[k].status.Queued? && q[k].id < s.store.nextId
  }

  ghost predicate Fits(s: Sys, q: seq<Task>) {
    Inv(s) && Held(s, q)
  }

  lemma MarkedBusy(s: Sys, steers: bool, starts: bool)
    requires Inv(s) && s.lane.booted
    ensures Inv(MarkedAll(s, steers, starts)) && MarkedAll(s, steers, starts).lane.booted
  {
    MarkedSafe(s, steers, starts);
    MarkedKeeps(s, steers, starts);
  }

  lemma {:induction false} BusyRun(s: Sys, acts: seq<Action>)
    requires Inv(s) && s.lane.booted && NoCrash(acts)
    ensures Inv(Run(s, acts)) && Run(s, acts).lane.booted && s.store.nextId <= Run(s, acts).store.nextId
  {
    if acts == [] {
    } else {
      BusyRun(s, acts[..|acts| - 1]);
      StepKeeps(Run(s, acts[..|acts| - 1]), acts[|acts| - 1]);
      StepExtends(Run(s, acts[..|acts| - 1]), acts[|acts| - 1]);
    }
  }

  lemma FoundFits(read: Sys, between: seq<Action>)
    requires Inv(read) && read.lane.booted && NoCrash(between)
    ensures Fits(Run(read, between), Found(read))
  {
    QueuedRowsOk(read.store.rows, read.store.nextId);
    BusyRun(read, between);
  }

  // ---------------------------------------------------------------- harmless rows

  lemma RejoinedItems(s: Sys, q: seq<Task>)
    requires Safe(s) && Held(s, q) && Harmless(s, q)
    ensures var t := Rejoined(s, q); ItemsOk(t) && TwinsOk(t) && SlotOk(t)
  {
    var t := Rejoined(s, q);
    forall i | 0 <= i < |t.lane.queue| ensures !IsActive(t.lane.active, t.lane.queue[i].id) {
      assert i >= |s.lane.queue| ==> t.lane.queue[i] == q[i - |s.lane.queue|];
    }
    forall i, j | 0 <= i < j < |t.lane.queue| && t.lane.queue[i].id == t.lane.queue[j].id
      ensures Inert(t, t.lane.queue[i]) && t.lane.queue[j].status.Queued?
    {
      assert j >= |s.lane.queue| ==> i < |s.lane.queue| && StillDue(s, q[j - |s.lane.queue|].id);
    }
  }

  lemma RejoinedOnce(s: Sys, q: seq<Task>)
    requires Safe(s) && Held(s, q) && Harmless(s, q)
    ensures var t := Rejoined(s, q); FlagOk(t) && OnceOk(t)
  {
    var t := Rejoined(s, q);
    MoreSteers(s.lane.queue, t.lane.queue);
    forall i | 0 <= i < |t.lane.queue| && t.lane.queue[i].id !in t.work.steers
      ensures !Reached(t.past.log, t.lane.queue[i].id)
    {
      assert i >= |s.lane.queue| ==> t.lane.queue[i] == q[i - |s.lane.queue|];
    }
  }

  lemma HarmlessIsSafe(s: Sys, q: seq<Task>, wc: Write)
    requires Safe(s) && Held(s, q) && Harmless(s, q)
    ensures Safe(StartNext(Rejoined(s, q), wc))
  {
    RejoinedItems(s, q);
    RejoinedOnce(s, q);
    ClaimSafe(Rejoined(s, q), wc);
  }

  // ---------------------------------------------------------------- a spent prompt that waits

  /** The prompt was delivered, and the queue offers it once more. */
  ghost predicate Spent(s: Sys, x: nat) {
    Waiting(s, x) && Reached(s.past.log, x)
  }

  lemma ReachedAgain(log: seq<Delivery>, x: nat)
    requires Reached(log, x)
    ensures !AtMostOnce(log + [Launch(x)])
  {
    var i :| 0 <= i < |log| && log[i].id == x && Counts(log[i]);
    assert (log + [Launch(x)])[i] == log[i] && (log + [Launch(x)])[|log|] == Launch(x);
  }

  lemma SpentBreaks(s: Sys, x: nat) returns (acts: seq<Action>)
    requires Spent(s, x)
    ensures !AtMostOnce(Run(s, acts).past.log)
  {
    acts := WaitingLaunches(s, x);
    ReachedAgain(s.past.log, x);
  }

  // ---------------------------------------------------------------- two copies of a due prompt

  ghost predicate Sound(s: Sys) {
    && s.lane.booted && RowsOk(s) && ItemsOk(s)
    && (s.lane.active.Some? ==> s.lane.active.value.id < s.store.nextId && s.lane.active.value.id in s.work.runners)
  }

  /** Two copies wait, and so does everything else in the queue. */
  ghost predicate Calm(s: Sys, x: nat) {
    Sound(s) && AllQueued(s.lane.queue) && !s.lane.steering && Twice(s.lane.queue, x)
  }

  /** The item of the steer in flight is the only one that does not wait. */
  ghost predicate OnlySteers(s: Sys, k: nat) {
    && k in s.work.steers && IndexOf(s.lane.queue, k) < |s.lane.queue|
    && AllQueued(Without(s.lane.queue, IndexOf(s.lane.queue, k)))
  }

  /** Without the first of two copies the other one remains. */
  lemma OtherCopy(q: seq<Task>, x: nat)
    requires Twice(q, x)
    ensures IndexOf(q, x) < |q| && InQueue(Without(q, IndexOf(q, x)), x)
  {
    var i, j :| 0 <= i < j < |q| && q[i].id == x && q[j].id == x;
    var k := IndexOf(q, x);
    assert Without(q, k)[j - 1] == q[j];
  }

  /** The steer of `x` settles for good; the copy of `x` stays behind. */
  lemma SettleSpends(s: Sys, x: nat)
    requires Sound(s) && OnlySteers(s, x) && Twice(s.lane.queue, x) && Reached(s.past.log, x)
    requires s.work.steers[x].Some? && !s.work.steers[x].value.Rejected?
    ensures Spent(Step(s, SteerSettle(x, Applied, FailedLost)), x)
  {
    SettledSpends(s, x, s.work.steers[x].value);
    LostClaim(Settled(s, x, s.work.steers[x].value, Applied));
    SettleIs(s, x, Applied, FailedLost);
  }

  lemma SettledSpends(s: Sys, x: nat, reply: Reply)
    requires Sound(s) && OnlySteers(s, x) && Twice(s.lane.queue, x) && Reached(s.past.log, x) && !reply.Rejected?
    ensures Spent(Settled(s, x, reply, Applied), x)
  {
    OtherCopy(s.lane.queue, x);
    SettledSound(s, x, reply);
  }

  lemma SettledSound(s: Sys, x: nat, reply: Reply)
    requires Sound(s) && OnlySteers(s, x)
    ensures x < s.store.nextId && Sound(Settled(s, x, reply, Applied))
  {
    SettledRows(s, x, reply);
    SettledItems(s, x, reply);
  }

  lemma SettledRows(s: Sys, x: nat, reply: Reply)
    requires RowsOk(s) && IndexOf(s.lane.queue, x) < |s.lane.queue| && x < s.store.nextId
    ensures RowsOk(Settled(s, x, reply, Applied))
  {}

  lemma SettledItems(s: Sys, x: nat, reply: Reply)
    requires ItemsOk(s) && IndexOf(s.lane.queue, x) < |s.lane.queue|
    ensures ItemsOk(Settled(s, x, reply, Applied))
  {
    WithoutAt(s.lane.queue, IndexOf(s.lane.queue, x));
  }

  lemma AnswerSpends(s: Sys, x: nat)
    requires Sound(s) && OnlySteers(s, x) && Twice(s.lane.queue, x) && s.work.steers[x].None?
    ensures Spent(Run(s, [SteerReply(x, Accepted), SteerSettle(x, Applied, FailedLost)]), x)
  {
    RunTwo(s, SteerReply(x, Accepted), SteerSettle(x, Applied, FailedLost));
    var t := Step(s, SteerReply(x, Accepted));
    assert t.past.log[|s.past.log|] == Steer(x, Accepted) && Counts(Steer(x, Accepted));
    SettleSpends(t, x);
  }

  lemma SameIndex(q: seq<Task>, i: nat, task: Task, x: nat)
    requires i < |q| && task.id == q[i].id
    ensures IndexOf(q[i := task], x) == IndexOf(q, x)
  {
    var r := q[i := task];
    assert forall j :: 0 <= j < |q| ==> r[j].id == q[j].id;
  }

  /** A first copy that can be steered is steered; the other one is left. */
  lemma SteerSpends(s: Sys, x: nat)
    requires Calm(s, x) && CanSteer(s, First(s.lane.queue, x))
    ensures var t := Step(s, SteerClaim(x, true, Applied));
            Sound(t) && OnlySteers(t, x) && Twice(t.lane.queue, x) && t.work.steers[x].None?
  {
    var q := s.lane.queue;
    var i := IndexOf(q, x);
    var task := q[i].(status := Steering);
    SteeredQueue(q, i, task, x);
    SteerTakes(s, x);
    SteerSound(s, x, Step(s, SteerClaim(x, true, Applied)));
  }

  lemma SteeredQueue(q: seq<Task>, i: nat, task: Task, x: nat)
    requires Twice(q, x) && AllQueued(q) && i == IndexOf(q, x) && i < |q| && task == q[i].(status := task.status)
    ensures var r := q[i := task]; Twice(r, x) && IndexOf(r, x) == i && AllQueued(Without(r, i))
  {
    SameIndex(q, i, task, x);
    TwiceUpdated(q, i, task, x);
    assert Without(q[i := task], i) == Without(q, i);
    WithoutAt(q, i);
  }

  lemma SteerTakes(s: Sys, x: nat)
    requires s.lane.booted && IndexOf(s.lane.queue, x) < |s.lane.queue| && CanSteer(s, IndexOf(s.lane.queue, x))
    ensures TakesForSteer(s, IndexOf(s.lane.queue, x), Step(s, SteerClaim(x, true, Applied)))
  {}

  lemma SteerSound(s: Sys, x: nat, t: Sys)
    requires Sound(s) && TakesForSteer(s, IndexOf(s.lane.queue, x), t)
    ensures Sound(t)
  {}

  ghost function First(q: seq<Task>, x: nat): (i: nat)
    requires Twice(q, x)
    ensures i < |q| && i == IndexOf(q, x)
  {
    OtherCopy(q, x);
    IndexOf(q, x)
  }

  lemma TwiceWithout(q: seq<Task>, i: nat, x: nat)
    requires Twice(q, x) && i < |q| && q[i].id != x
    ensures Twice(Without(q, i), x)
  {
    var r := Without(q, i);
    var j, k :| 0 <= j < k < |q| && q[j].id == x && q[k].id == x;
    var j', k' := if j < i then j else j - 1, if k < i then k else k - 1;
    assert j' < k' && r[j'] == q[j] && r[k'] == q[k];
  }

  lemma FirstStays(q: seq<Task>, i: nat, x: nat)
    requires i < |q| && q[i].id != x && Twice(q, x) && Twice(Without(q, i), x)
    ensures Without(q, i)[First(Without(q, i), x)] == q[First(q, x)]
  {
    FirstWithout(q, i, x);
    WithoutAt(q, i);
  }

  lemma FirstWithout(q: seq<Task>, i: nat, x: nat)
    requires i < |q| && q[i].id != x && IndexOf(q, x) < |q|
    ensures var f := IndexOf(q, x); IndexOf(Without(q, i), x) == if f < i then f else f - 1
  {
    var f := IndexOf(q, x);
    WithoutAt(q, i);
    assert Without(q, i)[if f < i then f else f - 1] == q[f];
  }

  lemma TwiceUpdated(q: seq<Task>, i: nat, task: Task, x: nat)
    requires Twice(q, x) && i < |q| && task.id == q[i].id && task.target == q[i].target
    ensures Twice(q[i := task], x)
    ensures q[i := task][First(q[i := task], x)].target == q[First(q, x)].target
  {
    SameIndex(q, i, task, x);
    var j, k :| 0 <= j < k < |q| && q[j].id == x && q[k].id == x;
    assert q[i := task][j].id == x && q[i := task][k].id == x;
  }

  /** What may still happen to the first copy. */
  ghost predicate Alike(s: Sys, t: Sys, x: nat)
    requires Twice(s.lane.queue, x) && Twice(t.lane.queue, x)
  {
    && t.lane.live == s.lane.live && t.lane.active == s.lane.active
    && t.lane.queue[First(t.lane.queue, x)].target == s.lane.queue[First(s.lane.queue, x)].target
  }

  lemma LostClaimCalms(s: Sys, x: nat)
    requires Calm(s, x)
    ensures var t := StartNext(s, FailedLost); Calm(t, x) && Alike(s, t, x)
  {
    LostClaim(s);
  }

  lemma SettleCalms(s: Sys, k: nat, x: nat)
    requires Sound(s) && OnlySteers(s, k) && s.work.steers[k].Some? && Twice(s.lane.queue, x)
    requires k == x ==> s.work.steers[x] == Some(Rejected)
    ensures var t := Step(s, SteerSettle(k, Applied, FailedLost)); Calm(t, x) && Alike(s, t, x)
  {
    var reply := s.work.steers[k].value;
    if reply.Rejected? {
      BackCalms(s, k, x);
    } else {
      GoneCalms(s, k, reply, x);
    }
    LostClaimCalms(Settled(s, k, reply, Applied), x);
    SettleIs(s, k, Applied, FailedLost);
  }

  lemma BackCalms(s: Sys, k: nat, x: nat)
    requires Sound(s) && OnlySteers(s, k) && Twice(s.lane.queue, x)
    ensures var t := Settled(s, k, Rejected, Applied); Calm(t, x) && Alike(s, t, x)
  {
    var q := s.lane.queue;
    var i := IndexOf(q, k);
    TwiceUpdated(q, i, q[i].(status := Queued), x);
    BackQueued(q, i);
    SettledSound(s, k, Rejected);
  }

  lemma GoneCalms(s: Sys, k: nat, reply: Reply, x: nat)
    requires Sound(s) && OnlySteers(s, k) && Twice(s.lane.queue, x) && !reply.Rejected? && k != x
    ensures var t := Settled(s, k, reply, Applied); Calm(t, x) && Alike(s, t, x)
  {
    TwiceWithout(s.lane.queue, IndexOf(s.lane.queue, k), x);
    FirstStays(s.lane.queue, IndexOf(s.lane.queue, k), x);
    SettledSound(s, k, reply);
  }

  lemma BackQueued(q: seq<Task>, i: nat)
    requires i < |q| && AllQueued(Without(q, i))
    ensures AllQueued(q[i := q[i].(status := Queued)])
  {
    forall j | 0 <= j < |q| && j != i ensures q[j].status.Queued? {
      assert Without(q, i)[if j < i then j else j - 1] == q[j];
    }
  }

  /** Settle whatever steer is in flight; both copies wait on. */
  lemma CalmDown(s: Sys, k: nat, x: nat)
    requires Sound(s) && OnlySteers(s, k) && Twice(s.lane.queue, x)
    requires k == x ==> s.work.steers[x] == Some(Rejected)
    ensures var t := Run(s, [SteerReply(k, Ambiguous), SteerSettle(k, Applied, FailedLost)]);
            Calm(t, x) && Alike(s, t, x)
  {
    RunTwo(s, SteerReply(k, Ambiguous), SteerSettle(k, Applied, FailedLost));
    var m := Step(s, SteerReply(k, Ambiguous));
    assert m.lane == s.lane && k in m.work.steers && m.work.steers[k].Some?;
    SettleCalms(m, k, x);
  }

  /** End the turns that run. */
  lemma EndTurns(s: Sys, x: nat) returns (acts: seq<Action>)
    requires Calm(s, x) && s.lane.live
    ensures var t := Run(s, acts); Calm(t, x) && Resting(t)
  {
    var turn := if s.lane.direct.Some? then s.lane.direct.value else 0;
    if s.lane.active.None? {
      acts := [EndDirect(turn)];
      RunOne(s, EndDirect(turn));
    } else {
      var id := s.lane.active.value.id;
      acts := [Finish(id, false, false, Applied, FailedLost), EndDirect(turn)];
      RunTwo(s, Finish(id, false, false, Applied, FailedLost), EndDirect(turn));
      EndTask(s, id, x);
    }
  }

  lemma EndTask(s: Sys, id: nat, x: nat)
    requires Calm(s, x) && IsActive(s.lane.active, id)
    ensures var t := Step(s, Finish(id, false, false, Applied, FailedLost));
            Calm(t, x) && t.lane.active.None? && t.lane.live == s.lane.live && t.lane.direct == s.lane.direct
  {
    LostClaim(Ended(s, id, false, false, Applied));
  }

  /** Where the process lives, the first copy is launched and the other one is left. */
  lemma LaunchSpends(s: Sys, x: nat) returns (acts: seq<Action>)
    requires Calm(s, x) && s.lane.live
    ensures Spent(Run(s, acts), x)
  {
    var a := EndTurns(s, x);
    var u := Run(s, a);
    LaunchOneOf(u, x);
    var b := [Clear(0, true, Spare(u.lane.queue, x), Applied), Send(x)];
    acts := a + b;
    RunConcat(s, a, b);
  }

  lemma LaunchOneOf(s: Sys, x: nat)
    requires Calm(s, x) && Resting(s)
    ensures Spent(Run(s, [Clear(0, true, Spare(s.lane.queue, x), Applied), Send(x)]), x)
  {
    var c := Clear(0, true, Spare(s.lane.queue, x), Applied);
    RunTwo(s, c, Send(x));
    OtherCopy(s.lane.queue, x);
    assert InQueue(s.lane.queue, x);
    LaunchOne(s, x);
    SendSpends(Step(s, c), x);
  }

  lemma SendSpends(s: Sys, x: nat)
    requires s.lane.booted && RowsOk(s) && x < s.store.nextId && x in s.work.runners && !s.work.runners[x]
    requires InQueue(s.lane.queue, x) && s.lane.queue[IndexOf(s.lane.queue, x)].status.Queued?
    ensures Spent(Step(s, Send(x)), x)
  {
    assert Step(s, Send(x)).past.log[|s.past.log|] == Launch(x) && Counts(Launch(x));
  }

  // ---------------------------------------------------------------- which rows do harm

  /** Where the copy of `x` is after the append. */
  lemma CopyAt(s: Sys, q: seq<Task>, k: nat)
    requires k < |q|
    ensures var m := Rejoined(s, q);
            && m.lane.queue[|s.lane.queue| + k] == q[k] && InQueue(m.lane.queue, q[k].id)
            && (InQueue(s.lane.queue, q[k].id) ==> Twice(m.lane.queue, q[k].id))
  {
    var m := Rejoined(s, q);
    assert m.lane.queue[|s.lane.queue| + k] == q[k];
    if InQueue(s.lane.queue, q[k].id) {
      var i :| 0 <= i < |s.lane.queue| && s.lane.queue[i].id == q[k].id;
      assert m.lane.queue[i] == s.lane.queue[i];
    }
  }

  lemma RejoinedSound(s: Sys, q: seq<Task>)
    requires Fits(s, q)
    ensures Sound(Rejoined(s, q))
    ensures !s.lane.steering ==> AllQueued(Rejoined(s, q).lane.queue)
    ensures forall x :: x in s.work.steers ==> OnlySteers(Rejoined(s, q), x)
  {
    var m := Rejoined(s, q);
    forall x | x in s.work.steers ensures OnlySteers(m, x) {
      RejoinedSteers(s, q, x);
    }
  }

  lemma RejoinedSteers(s: Sys, q: seq<Task>, x: nat)
    requires Fits(s, q) && x in s.work.steers
    ensures OnlySteers(Rejoined(s, q), x)
  {
    var m := Rejoined(s, q);
    SettlingItem(s, x);
    var i := IndexOf(s.lane.queue, x);
    assert forall j :: 0 <= j < |s.lane.queue| ==> m.lane.queue[j] == s.lane.queue[j];
    assert IndexOf(m.lane.queue, x) == i;
    forall j | 0 <= j < |m.lane.queue| && j != i ensures m.lane.queue[j].status.Queued? {
      assert j >= |s.lane.queue| ==> m.lane.queue[j] == q[j - |s.lane.queue|];
      assert j < |s.lane.queue| ==> s.lane.queue[j].id != x;
    }
    WithoutAt(m.lane.queue, i);
  }

  /** The claim after the append takes `x`: a later send of `x` follows. */
  lemma ClaimedBreaks(s: Sys, q: seq<Task>, k: nat, wc: Write) returns (acts: seq<Action>)
    requires Fits(s, q) && k < |q| && !IsActive(s.lane.active, q[k].id)
    requires IsActive(StartNext(Rejoined(s, q), wc).lane.active, q[k].id)
    requires Reached(s.past.log, q[k].id) || InQueue(s.lane.queue, q[k].id)
    ensures !AtMostOnce(Run(StartNext(Rejoined(s, q), wc), acts).past.log)
  {
    var x := q[k].id;
    var m := Rejoined(s, q);
    var t := StartNext(m, wc);
    RejoinedSound(s, q);
    if Reached(s.past.log, x) {
      acts := [Send(x)];
      RunOne(t, Send(x));
      ReachedAgain(s.past.log, x);
    } else {
      CopyAt(s, q, k);
      ClaimSound(m, wc);
      TailCopy(m.lane.queue, x);
      acts := SentBreaks(t, x);
    }
  }

  /** The claimed task is sent while a copy of it waits. */
  lemma SentBreaks(s: Sys, x: nat) returns (acts: seq<Action>)
    requires s.lane.booted && RowsOk(s) && x < s.store.nextId && x in s.work.runners && !s.work.runners[x]
    requires InQueue(s.lane.queue, x) && s.lane.queue[IndexOf(s.lane.queue, x)].status.Queued?
    ensures !AtMostOnce(Run(s, acts).past.log)
  {
    SendSpends(s, x);
    var more := SpentBreaks(Step(s, Send(x)), x);
    acts := [Send(x)] + more;
    RunOne(s, Send(x));
    RunConcat(s, [Send(x)], more);
  }

  lemma TailCopy(q: seq<Task>, x: nat)
    requires Twice(q, x) && AllQueued(q)
    ensures InQueue(q[1..], x) && AllQueued(q[1..])
  {
    var i, j :| 0 <= i < j < |q| && q[i].id == x && q[j].id == x;
    assert q[1..][j - 1] == q[j];
    assert forall n :: 0 <= n < |q| - 1 ==> q[1..][n] == q[n + 1];
  }

  /** A prompt that was steered in is behind both copies. */
  lemma SteeredCopy(s: Sys, q: seq<Task>, k: nat, wc: Write)
    requires Fits(s, q) && k < |q| && q[k].id in s.work.steers && Reached(s.past.log, q[k].id)
    ensures var t := StartNext(Rejoined(s, q), wc);
            && t == Rejoined(s, q) && Twice(t.lane.queue, q[k].id)
            && t.work.steers[q[k].id].Some? && !t.work.steers[q[k].id].value.Rejected?
  {
    assert InQueue(s.lane.queue, q[k].id);
    CopyAt(s, q, k);
  }

  lemma SettleBreaks(s: Sys, x: nat) returns (acts: seq<Action>)
    requires Sound(s) && OnlySteers(s, x) && Twice(s.lane.queue, x) && Reached(s.past.log, x)
    requires s.work.steers[x].Some? && !s.work.steers[x].value.Rejected?
    ensures !AtMostOnce(Run(s, acts).past.log)
  {
    var settle := SteerSettle(x, Applied, FailedLost);
    SettleSpends(s, x);
    var more := SpentBreaks(Step(s, settle), x);
    acts := [settle] + more;
    RunOne(s, settle);
    RunConcat(s, [settle], more);
  }

  lemma QueuedCopies(s: Sys, q: seq<Task>, x: nat)
    requires QueueOk(s) && SteerOk(s) && Held(s, q) && x !in s.work.steers
    ensures var r := Rejoined(s, q).lane.queue;
            forall i :: 0 <= i < |r| && r[i].id == x ==> r[i].status.Queued?
  {
    var r := Rejoined(s, q).lane.queue;
    forall i | 0 <= i < |r| && r[i].id == x ensures r[i].status.Queued? {
      assert i >= |s.lane.queue| ==> r[i] == q[i - |s.lane.queue|];
      assert i < |s.lane.queue| ==> r[i] == s.lane.queue[i];
    }
  }

  /** A copy whose task is not being steered waits as a queued item, unless it is claimed. */
  lemma StillWaits(s: Sys, q: seq<Task>, k: nat, wc: Write)
    requires QueueOk(s) && SteerOk(s) && Held(s, q) && Sound(Rejoined(s, q))
    requires k < |q| && q[k].id !in s.work.steers
    requires IsActive(StartNext(Rejoined(s, q), wc).lane.active, q[k].id) ==> IsActive(s.lane.active, q[k].id)
    ensures var t := StartNext(Rejoined(s, q), wc);
            var i := IndexOf(t.lane.queue, q[k].id);
            Sound(t) && i < |t.lane.queue| && t.lane.queue[i].status.Queued?
  {
    CopyAt(s, q, k);
    QueuedCopies(s, q, q[k].id);
    ClaimLeaves(Rejoined(s, q), |s.lane.queue| + k, q[k].id, wc);
  }

  /** Unless it is claimed itself, an item survives the claim. */
  lemma ClaimLeaves(m: Sys, c: nat, x: nat, wc: Write)
    requires Sound(m) && c < |m.lane.queue| && m.lane.queue[c].id == x
    requires forall i :: 0 <= i < |m.lane.queue| && m.lane.queue[i].id == x ==> m.lane.queue[i].status.Queued?
    requires IsActive(StartNext(m, wc).lane.active, x) ==> IsActive(m.lane.active, x)
    ensures var t := StartNext(m, wc);
            var i := IndexOf(t.lane.queue, x);
            Sound(t) && i < |t.lane.queue| && t.lane.queue[i].status.Queued?
  {
    var t := StartNext(m, wc);
    if t.lane.queue != m.lane.queue {
      assert t.lane.queue == m.lane.queue[1..] && m.lane.queue[0].id != x;
      assert t.lane.queue[c - 1] == m.lane.queue[c];
      assert forall n :: 0 <= n < |t.lane.queue| ==> t.lane.queue[n] == m.lane.queue[n + 1];
    }
  }

  /** A delivered prompt that is neither steered nor claimed now waits once more. */
  lemma ReachedWaits(s: Sys, q: seq<Task>, k: nat, wc: Write)
    requires Fits(s, q) && k < |q| && Reached(s.past.log, q[k].id) && q[k].id !in s.work.steers
    requires IsActive(StartNext(Rejoined(s, q), wc).lane.active, q[k].id) ==> IsActive(s.lane.active, q[k].id)
    ensures Spent(StartNext(Rejoined(s, q), wc), q[k].id)
  {
    RejoinedSound(s, q);
    StillWaits(s, q, k, wc);
  }

  /** A prompt delivered before the append is delivered again. */
  lemma ReachedBreaks(s: Sys, q: seq<Task>, k: nat, wc: Write) returns (acts: seq<Action>)
    requires Fits(s, q) && k < |q| && Reached(s.past.log, q[k].id)
    ensures !AtMostOnce(Run(StartNext(Rejoined(s, q), wc), acts).past.log)
  {
    var x := q[k].id;
    var t := StartNext(Rejoined(s, q), wc);
    if !IsActive(s.lane.active, x) && IsActive(t.lane.active, x) {
      acts := ClaimedBreaks(s, q, k, wc);
    } else if x in s.work.steers {
      SteeredCopy(s, q, k, wc);
      RejoinedSound(s, q);
      acts := SettleBreaks(t, x);
    } else {
      ReachedWaits(s, q, k, wc);
      acts := SpentBreaks(t, x);
    }
  }

  /** A running prompt that was read as queued is sent, and its copy is left. */
  lemma ActiveBreaks(s: Sys, q: seq<Task>, k: nat, wc: Write) returns (acts: seq<Action>)
    requires Fits(s, q) && k < |q| && IsActive(s.lane.active, q[k].id) && !Reached(s.past.log, q[k].id)
    ensures !AtMostOnce(Run(StartNext(Rejoined(s, q), wc), acts).past.log)
  {
    var x := q[k].id;
    var t := StartNext(Rejoined(s, q), wc);
    UnsentRunner(s, x);
    RejoinedSound(s, q);
    StillWaits(s, q, k, wc);
    acts := SentBreaks(t, x);
  }

  lemma UnsentRunner(s: Sys, x: nat)
    requires Inv(s) && IsActive(s.lane.active, x) && !Reached(s.past.log, x)
    ensures x in s.work.runners && !s.work.runners[x] && x !in s.work.steers
  {
    assert x in s.work.steers ==> InQueue(s.lane.queue, x);
    assert Sent(s, x) ==> Reached(s.past.log, x);
  }

  /** Of two copies that both wait, the first is delivered and the other one is left. */
  lemma CalmBreaks(s: Sys, x: nat) returns (acts: seq<Action>)
    requires Calm(s, x)
    requires Deliverable(s, x)
    ensures !AtMostOnce(Run(s, acts).past.log)
  {
    var a: seq<Action>;
    if s.lane.live {
      a := LaunchSpends(s, x);
    } else {
      SteerSpends(s, x);
      var t := Step(s, SteerClaim(x, true, Applied));
      AnswerSpends(t, x);
      a := [SteerClaim(x, true, Applied)] + [SteerReply(x, Accepted), SteerSettle(x, Applied, FailedLost)];
      RunOne(s, SteerClaim(x, true, Applied));
      RunConcat(s, [SteerClaim(x, true, Applied)], [SteerReply(x, Accepted), SteerSettle(x, Applied, FailedLost)]);
    }
    var b := SpentBreaks(Run(s, a), x);
    acts := a + b;
    RunConcat(s, a, b);
  }

  /** Something can deliver the first copy: a live process, or the task it may join. */
  ghost predicate Deliverable(s: Sys, x: nat)
    requires Twice(s.lane.queue, x)
  {
    || s.lane.live
    || (s.lane.active.Some? && s.lane.queue[First(s.lane.queue, x)].target == Some(s.lane.active.value.id))
  }

  /** A waiting task was steered only in vain so far. */
  lemma OnlyRefused(s: Sys, x: nat)
    requires Inv(s) && x in s.work.steers && !Reached(s.past.log, x)
    ensures s.work.steers[x].None? || s.work.steers[x] == Some(Rejected)
  {
    if s.work.steers[x].Some? {
      var d := Steer(x, s.work.steers[x].value);
      var i :| 0 <= i < |s.past.log| && s.past.log[i] == d;
      assert !Counts(s.past.log[i]);
    }
  }

  lemma RejoinedDeliverable(s: Sys, q: seq<Task>, k: nat, i: nat)
    requires Fits(s, q) && k < |q| && !Reached(s.past.log, q[k].id)
    requires i < |s.lane.queue| && s.lane.queue[i].id == q[k].id && !Inert(s, s.lane.queue[i])
    requires q[k].id in s.work.steers ==> s.work.steers[q[k].id].Some?
    ensures var m := Rejoined(s, q); Twice(m.lane.queue, q[k].id) && Deliverable(m, q[k].id)
  {
    var m := Rejoined(s, q);
    var x := q[k].id;
    CopyAt(s, q, k);
    if x in s.work.steers {
      OnlyRefused(s, x);
    }
    assert m.lane.queue[i] == s.lane.queue[i];
    assert forall j :: 0 <= j < i ==> m.lane.queue[j] == s.lane.queue[j];
    assert First(m.lane.queue, x) == i;
  }

  /** Unless it takes a copy of `x`, the claim leaves both of them. */
  lemma ClaimLeavesBoth(m: Sys, x: nat, wc: Write)
    requires Sound(m) && Twice(m.lane.queue, x) && Deliverable(m, x)
    requires !IsActive(StartNext(m, wc).lane.active, x)
    ensures var t := StartNext(m, wc); Sound(t) && Twice(t.lane.queue, x) && Deliverable(t, x)
    ensures AllQueued(m.lane.queue) ==> AllQueued(StartNext(m, wc).lane.queue)
  {
    var q := m.lane.queue;
    ClaimSound(m, wc);
    if StartNext(m, wc).lane.queue != q {
      assert q[0].id != x;
      TwiceWithout(q, 0, x);
      FirstStays(q, 0, x);
    }
  }

  lemma ClaimSound(m: Sys, wc: Write)
    requires Sound(m)
    ensures Sound(StartNext(m, wc))
    ensures var q := m.lane.queue;
            var t := StartNext(m, wc);
            && (AllQueued(q) ==> AllQueued(t.lane.queue))
            && (t.lane.queue != q ==>
                  q != [] && t.lane.queue == Without(q, 0) && t.lane.live && IsActive(t.lane.active, q[0].id))
  {
    var q := m.lane.queue;
    if q != [] {
      assert q[1..] == Without(q, 0);
      WithoutAt(q, 0);
    }
  }

  /** A due prompt of which two copies wait is delivered twice. */
  lemma DueBreaks(s: Sys, q: seq<Task>, k: nat, i: nat, wc: Write) returns (acts: seq<Action>)
    requires Fits(s, q) && k < |q| && !Reached(s.past.log, q[k].id) && !IsActive(s.lane.active, q[k].id)
    requires i < |s.lane.queue| && s.lane.queue[i].id == q[k].id && !Inert(s, s.lane.queue[i])
    ensures !AtMostOnce(Run(StartNext(Rejoined(s, q), wc), acts).past.log)
  {
    var x := q[k].id;
    var m := Rejoined(s, q);
    var t := StartNext(m, wc);
    assert InQueue(s.lane.queue, x);
    RejoinedSound(s, q);
    if IsActive(t.lane.active, x) {
      acts := ClaimedBreaks(s, q, k, wc);
    } else if x in s.work.steers && s.work.steers[x].None? {
      CopyAt(s, q, k);
      acts := AnsweredBreaks(t, x);
    } else {
      RejoinedDeliverable(s, q, k, i);
      ClaimLeavesBoth(m, x, wc);
      acts := SteeredBreaks(s, t, x);
    }
  }

  lemma AnsweredBreaks(t: Sys, x: nat) returns (acts: seq<Action>)
    requires Sound(t) && OnlySteers(t, x) && Twice(t.lane.queue, x) && t.work.steers[x].None?
    ensures !AtMostOnce(Run(t, acts).past.log)
  {
    AnswerSpends(t, x);
    var a := [SteerReply(x, Accepted), SteerSettle(x, Applied, FailedLost)];
    var b := SpentBreaks(Run(t, a), x);
    acts := a + b;
    RunConcat(t, a, b);
  }

  /** Settle what is in flight, then deliver the first copy. */
  lemma SteeredBreaks(s: Sys, t: Sys, x: nat) returns (acts: seq<Action>)
    requires Inv(s) && !Reached(s.past.log, x) && (x in s.work.steers ==> s.work.steers[x].Some?)
    requires t.work.steers == s.work.steers && t.lane.steering == s.lane.steering
    requires Sound(t) && Twice(t.lane.queue, x) && Deliverable(t, x)
    requires !t.lane.steering ==> AllQueued(t.lane.queue)
    requires forall k :: k in t.work.steers ==> OnlySteers(t, k)
    ensures !AtMostOnce(Run(t, acts).past.log)
  {
    if !t.lane.steering {
      acts := CalmBreaks(t, x);
    } else {
      var k :| k in t.work.steers;
      if k == x {
        OnlyRefused(s, x);
      }
      CalmDown(t, k, x);
      var a := [SteerReply(k, Ambiguous), SteerSettle(k, Applied, FailedLost)];
      var b := CalmBreaks(Run(t, a), x);
      acts := a + b;
      RunConcat(t, a, b);
    }
  }

  /** Every row that is no longer due does harm in some future. */
  lemma HarmBreaks(s: Sys, q: seq<Task>, k: nat, wc: Write) returns (acts: seq<Action>)
    requires Fits(s, q) && k < |q| && !StillDue(s, q[k].id)
    ensures !AtMostOnce(Run(StartNext(Rejoined(s, q), wc), acts).past.log)
  {
    var x := q[k].id;
    if Reached(s.past.log, x) {
      acts := ReachedBreaks(s, q, k, wc);
    } else if IsActive(s.lane.active, x) {
      acts := ActiveBreaks(s, q, k, wc);
    } else {
      var i :| 0 <= i < |s.lane.queue| && s.lane.queue[i].id == x && !Inert(s, s.lane.queue[i]);
      acts := DueBreaks(s, q, k, i, wc);
    }
  }

  // ---------------------------------------------------------------- exactly when

  lemma AppendExactly(s: Sys, q: seq<Task>, wc: Write)
    requires Fits(s, q)
    ensures Harmless(s, q) <==>
            forall more: seq<Action> :: AtMostOnce(Run(StartNext(Rejoined(s, q), wc), more).past.log)
  {
    var t := StartNext(Rejoined(s, q), wc);
    if Harmless(s, q) {
      HarmlessIsSafe(s, q, wc);
      forall more: seq<Action> ensures AtMostOnce(Run(t, more).past.log) {
        RunSafe(t, more);
      }
    } else {
      var k :| 0 <= k < |q| && !StillDue(s, q[k].id);
      var more := HarmBreaks(s, q, k, wc);
    }
  }

  /**
   Recovery in a working process: the steps in `early` and `mid` run between the statements
   of the read, those in `between` before the append.  No future of the process delivers a
   prompt twice if and only if the append finds every row it read harmless.
   */
  lemma {:induction false} LateRecoveryExactly(acts: seq<Action>, early: seq<Action>, mid: seq<Action>,
                                               between: seq<Action>, wc: Write)
    requires Run(Init, acts).lane.booted && NoCrash(early) && NoCrash(mid) && NoCrash(between)
    ensures var read := AtRead(Run(Init, acts), early, mid);
            var s := Run(read, between);
            Harmless(s, Found(read)) <==>
            forall more: seq<Action> :: AtMostOnce(Run(StartNext(Rejoined(s, Found(read)), wc), more).past.log)
  {
    ReachableInv(acts);
    var s0 := Run(Init, acts);
    MarkedBusy(s0, true, false);
    var s1 := MarkedAll(s0, true, false);
    BusyRun(s1, early);
    MarkedBusy(Run(s1, early), false, true);
    var s2 := MarkedAll(Run(s1, early), false, true);
    BusyRun(s2, mid);
    FoundFits(Run(s2, mid), between);
    AppendExactly(Run(Run(s2, mid), between), Found(Run(s2, mid)), wc);
  }

  // ---------------------------------------------------------------- rows that ended since the read

  /** The claim after the append takes a task or leaves it waiting. */
  lemma RejoinedWaits(s: Sys, q: seq<Task>, wc: Write, x: nat)
    ensures Waits(StartNext(Rejoined(s, q), wc), x) <==>
            Waits(s, x) || exists k :: 0 <= k < |q| && q[k].id == x
  {
    var m := Rejoined(s, q);
    ClaimMoves(m, wc, x);
    if InQueue(s.lane.queue, x) {
      var i :| 0 <= i < |s.lane.queue| && s.lane.queue[i].id == x;
      assert m.lane.queue[i].id == x;
    }
    if k :| 0 <= k < |q| && q[k].id == x {
      assert m.lane.queue[|s.lane.queue| + k].id == x;
    }
  }

  /** After the append no finished task waits again if and only if no row that was read has ended since. */
  lemma FinishedStayOutExactly(s: Sys, q: seq<Task>, wc: Write)
    requires Fits(s, q)
    ensures (forall x :: x in s.lane.done ==> !Waits(StartNext(Rejoined(s, q), wc), x)) <==>
            forall k :: 0 <= k < |q| ==> q[k].id !in s.lane.done
  {
    forall x | x in s.lane.done
      ensures Waits(StartNext(Rejoined(s, q), wc), x) <==> exists k :: 0 <= k < |q| && q[k].id == x
    {
      RejoinedWaits(s, q, wc, x);
    }
  }

  /** And such a task, cancelled or not, is launched in some future. */
  lemma FinishedIsLaunched(s: Sys, q: seq<Task>, k: nat, wc: Write) returns (more: seq<Action>)
    requires Fits(s, q) && k < |q| && q[k].id in s.lane.done
    ensures var t := StartNext(Rejoined(s, q), wc);
            Run(t, more).past.log == s.past.log + [Launch(q[k].id)]
  {
    var x := q[k].id;
    var t := StartNext(Rejoined(s, q), wc);
    FinishedIsFree(s, x);
    RejoinedSound(s, q);
    if IsActive(t.lane.active, x) {
      more := [Send(x)];
      RunOne(t, Send(x));
    } else {
      StillWaits(s, q, k, wc);
      more := WaitingLaunches(t, x);
    }
  }

  lemma FinishedIsFree(s: Sys, x: nat)
    requires Inv(s) && x in s.lane.done
    ensures x !in s.work.steers && !Waits(s, x) && x < s.store.nextId
  {
    assert x in s.work.steers ==> InQueue(s.lane.queue, x);
    assert x in s.past.admitted;
  }

  // ---------------------------------------------------------------- a run that does harm

  /** The platform is up before recovery; one message waits behind a console turn. */
  const Before: seq<Action> :=
    [Recover(false, false, false, Applied), BeginDirect(0), Enqueue(0, false, 5, Applied, Applied)]

  /** Between the read and the append the message is launched and finished. */
  const Between: seq<Action> :=
    [EndDirect(0), WakeAfterDirect(Applied), Send(0), Finish(0, false, false, Applied, Applied)]

  const WaitingTask := Task(0, None, 0, Queued)

  /** The state that the read finds: one row, one waiting item. */
  function Interleaved(): Sys {
    Sys(Store(map[0 := WaitingTask], 1),
        FreshLane.(booted := true, direct := Some(0), queue := [WaitingTask]),
        NoWork,
        Past(false, [0], [], 0, true))
  }

  lemma BootedEmpty()
    ensures DoRecover(Init, false, false, false, Applied) == Init.(lane := FreshLane.(booted := true))
  {
    assert MarkRows(map[], false, false) == map[];
    assert QueuedRows(map[], 0) == [];
  }

  /** The interleaving is reachable. */
  lemma InterleavedIsReachable()
    ensures Run(Init, Before) == Interleaved()
  {
    RunThree(Init, Before[0], Before[1], Before[2]);
    BootedEmpty();
    var atWork := Step(Step(Init, Before[0]), Before[1]);
    assert atWork == Init.(lane := FreshLane.(booted := true, direct := Some(0)));
    assert Appended(atWork, 0) == Interleaved();
  }

  /** The marking changes nothing and the read finds the waiting row. */
  lemma ReadsWaiting()
    ensures AtRead(Interleaved(), [], []) == Interleaved() && Found(Interleaved()) == [WaitingTask]
  {
    var rows := Interleaved().store.rows;
    assert MarkRows(rows, true, false) == rows && MarkRows(rows, false, true) == rows;
    assert QueuedRows(rows, 0) == [];
    assert QueuedRows(rows, 1) == [WaitingTask];
  }

  /** The message is done, and nothing waits. */
  ghost predicate AllDone(s: Sys) {
    && s.lane.booted && s.lane.live && s.lane.active.None? && !s.lane.steering && s.lane.direct.None?
    && s.lane.queue == [] && s.past.log == [Launch(0)]
  }

  lemma BetweenFinishes()
    ensures AllDone(Run(Interleaved(), Between))
  {
    var s := Interleaved();
    assert Between == Between[..2] + Between[2..];
    assert Between[..2] == [EndDirect(0), WakeAfterDirect(Applied)];
    assert Between[2..] == [Send(0), Finish(0, false, false, Applied, Applied)];
    RunConcat(s, Between[..2], Between[2..]);
    RunTwo(s, EndDirect(0), WakeAfterDirect(Applied));
    var t := Run(s, Between[..2]);
    assert [WaitingTask][1..] == [];
    assert t.lane == FreshLane.(booted := true, active := Some(WaitingTask.(status := Running)));
    SendAndFinish(t);
  }

  lemma SendAndFinish(t: Sys)
    requires t.lane == FreshLane.(booted := true, active := Some(WaitingTask.(status := Running)))
    requires t.work.runners == map[0 := false] && t.past.log == []
    ensures AllDone(Run(t, [Send(0), Finish(0, false, false, Applied, Applied)]))
  {
    RunTwo(t, Send(0), Finish(0, false, false, Applied, Applied));
  }

  lemma StaleCopyIsSent(s: Sys)
    requires AllDone(s)
    ensures !AtMostOnce(Run(StartNext(Rejoined(s, [WaitingTask]), Applied), [Send(0)]).past.log)
  {
    var t := StartNext(Rejoined(s, [WaitingTask]), Applied);
    RunOne(t, Send(0));
    assert s.past.log[0] == Launch(0) && Counts(Launch(0));
    ReachedAgain(s.past.log, 0);
  }

  /** The stale copy is claimed and sent: one prompt reaches the agent twice. */
  lemma LateRecoveryDeliversTwice()
    ensures var read := AtRead(Run(Init, Before), [], []);
            var s := Run(read, Between);
            && s.lane.queue == []
            && !AtMostOnce(Run(StartNext(Rejoined(s, Found(read)), Applied), [Send(0)]).past.log)
  {
    InterleavedIsReachable();
    ReadsWaiting();
    BetweenFinishes();
    StaleCopyIsSent(Run(Interleaved(), Between));
  }

  /** A message that is cancelled between the read and the append has ended when it is appended. */
  lemma CancelledIsAppended()
    ensures var read := AtRead(Run(Init, Before), [], []);
            var s := Run(read, [Cancel(0, Applied, Applied)]);
            0 in s.lane.done && s.lane.done[0].status == Cancelled && Found(read) == [WaitingTask]
  {
    InterleavedIsReachable();
    ReadsWaiting();
    RunOne(Interleaved(), Cancel(0, Applied, Applied));
  }
}
