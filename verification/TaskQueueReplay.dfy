/**
 How a prompt that waits is launched: by a run that a restart makes short.  Whatever
 the process is doing, a row stored as queued is loaded after a crash, everything else
 in the queue is cleared, and the task is claimed and sent.
 */
module TaskQueueReplay {
  import opened Prelude
  import opened TaskQueue
  import opened TaskQueueOnce
  import opened TaskQueueInvariant

  // ---------------------------------------------------------------- runs

  /** No "queued" is stored behind a reported failure, and recovery reads the rows. */
  ghost predicate Honest(a: Action) {
    && (a.Enqueue? || a.SteerSettle? ==> !a.w.FailedApplied?)
    && (a.Recover? ==> a.steersMarked && a.startsMarked && a.loaded)
  }

  ghost predicate AllHonest(acts: seq<Action>) {
    forall i :: 0 <= i < |acts| ==> Honest(acts[i])
  }

  lemma {:induction false} RunConcat(s: Sys, a: seq<Action>, b: seq<Action>)
    ensures Run(s, a + b) == Run(Run(s, a), b)
  {
    if b == [] {
      assert a + b == a;
    } else {
      var pre := b[..|b| - 1];
      assert (a + b)[..|a + b| - 1] == a + pre;
      RunConcat(s, a, pre);
    }
  }

  lemma RunOne(s: Sys, a: Action)
    ensures Run(s, [a]) == Step(s, a)
  {
    assert [a][..0] == [];
  }

  lemma RunTwo(s: Sys, a: Action, b: Action)
    ensures Run(s, [a, b]) == Step(Step(s, a), b)
  {
    assert [a, b][..1] == [a];
    RunOne(s, a);
  }

  lemma RunThree(s: Sys, a: Action, b: Action, c: Action)
    ensures Run(s, [a, b, c]) == Step(Step(Step(s, a), b), c)
  {
    assert [a, b, c][..2] == [a, b];
    RunTwo(s, a, b);
  }

  // ---------------------------------------------------------------- from rest

  /** A claim whose write is lost changes nothing but the failure mark. */
  lemma LostClaim(s: Sys)
    ensures var t := StartNext(s, FailedLost);
            t.store == s.store && t.lane == s.lane && t.work == s.work && t.past.log == s.past.log
  {}

  ghost predicate Twice(q: seq<Task>, x: nat) {
    exists i, j :: 0 <= i < j < |q| && q[i].id == x && q[j].id == x
  }

  ghost predicate AllQueued(q: seq<Task>) {
    forall i :: 0 <= i < |q| ==> q[i].status.Queued?
  }

  /** Cancel everything but `x`. */
  function Spare(q: seq<Task>, x: nat): seq<Write> {
    seq(|q|, i requires 0 <= i < |q| => if q[i].id == x then FailedLost else Applied)
  }

  /** What is left of the first `n` items when everything but `x` is cleared. */
  function Left(q: seq<Task>, n: nat, x: nat): seq<Task>
    requires n <= |q|
  {
    Kept(q, n, 0, true, Spare(q, x))
  }

  ghost predicate OnlyQueued(q: seq<Task>, x: nat) {
    forall k :: 0 <= k < |q| ==> q[k].id == x && q[k].status.Queued?
  }

  lemma LeftNext(q: seq<Task>, n: nat, x: nat)
    requires AllQueued(q) && 0 < n <= |q|
    ensures Left(q, n, x) == Left(q, n - 1, x) + (if q[n - 1].id == x then [q[n - 1]] else [])
  {
    assert Spare(q, x)[n - 1] == if q[n - 1].id == x then FailedLost else Applied;
    assert Dropped(q, n - 1, 0, true, Spare(q, x)) <==> q[n - 1].id != x;
  }

  lemma {:induction false} KeptOnly(q: seq<Task>, n: nat, x: nat)
    requires AllQueued(q) && n <= |q|
    ensures var r := Left(q, n, x);
            && OnlyQueued(r, x) && (InQueue(q[..n], x) ==> |r| >= 1) && (Twice(q[..n], x) ==> |r| >= 2)
  {
    if n == 0 {
    } else {
      KeptOnly(q, n - 1, x);
      OneLonger(q, n, x);
      LeftNext(q, n, x);
    }
  }

  /** What the last of the first `n` items adds. */
  lemma OneLonger(q: seq<Task>, n: nat, x: nat)
    requires 0 < n <= |q|
    ensures InQueue(q[..n], x) ==> InQueue(q[..n - 1], x) || q[n - 1].id == x
    ensures Twice(q[..n], x) ==> Twice(q[..n - 1], x) || (InQueue(q[..n - 1], x) && q[n - 1].id == x)
  {
    var p := q[..n - 1];
    assert forall k :: 0 <= k < n - 1 ==> p[k] == q[..n][k];
    assert q[..n][n - 1] == q[n - 1];
    if InQueue(q[..n], x) && q[n - 1].id != x {
      var i :| 0 <= i < n && q[..n][i].id == x;
      assert p[i].id == x;
    }
    if Twice(q[..n], x) {
      var i, j :| 0 <= i < j < n && q[..n][i].id == x && q[..n][j].id == x;
      assert p[i].id == x;
      assert j < n - 1 ==> p[j].id == x;
    }
  }

  ghost predicate RowIds(rows: map<nat, Task>, bound: nat) {
    forall y :: y in rows ==> y < bound && rows[y].id == y
  }

  lemma {:induction false} ClearedRowsOk(rows: map<nat, Task>, q: seq<Task>, n: nat, ws: seq<Write>, bound: nat)
    requires n <= |q| && forall i :: 0 <= i < |q| ==> q[i].id < bound
    requires RowIds(rows, bound)
    ensures RowIds(ClearedRows(rows, q, n, 0, true, ws), bound)
  {
    if n == 0 {
    } else {
      ClearedRowsOk(rows, q, n - 1, ws, bound);
    }
  }

  /** Nothing runs and the whole queue waits. */
  ghost predicate Resting(s: Sys) {
    && s.lane.booted && s.lane.live && s.lane.active.None? && !s.lane.steering && s.lane.direct.None?
    && AllQueued(s.lane.queue)
  }

  lemma ClaimRows(m: Sys, x: nat)
    requires RowsOk(m) && x < m.store.nextId && (m.lane.queue != [] ==> m.lane.queue[0].id == x)
    ensures RowsOk(StartNext(m, Applied))
  {}

  /** From rest, `x` can be launched next. */
  lemma LaunchOne(s: Sys, x: nat)
    requires Resting(s) && InQueue(s.lane.queue, x)
    ensures var t := Step(s, Clear(0, true, Spare(s.lane.queue, x), Applied));
            && t.lane.booted && x in t.work.runners && !t.work.runners[x] && t.past.log == s.past.log
            && AllQueued(t.lane.queue) && (Twice(s.lane.queue, x) ==> InQueue(t.lane.queue, x))
            && (RowsOk(s) && ItemsOk(s) ==> RowsOk(t))
  {
    var q := s.lane.queue;
    var r := Left(q, |q|, x);
    assert q[..|q|] == q;
    KeptOnly(q, |q|, x);
    var m := Cleared(s, 0, true, Spare(q, x));
    if RowsOk(s) && ItemsOk(s) {
      ClearedRowsOk(s.store.rows, q, |q|, Spare(q, x), s.store.nextId);
      var i :| 0 <= i < |q| && q[i].id == x;
      assert x < s.store.nextId;
      ClaimRows(m, x);
    }
    assert m.lane.queue == r && r[0].id == x;
    assert Twice(q, x) ==> r[1..][0].id == x;
    assert forall k :: 0 <= k < |r[1..]| ==> r[1..][k] == r[k + 1];
  }

  // ---------------------------------------------------------------- after a restart

  lemma ReloadRests(c: Sys, x: nat)
    requires RowsOk(c) && Empty(c) && x < c.store.nextId && x in c.store.rows && c.store.rows[x].status.Queued?
    ensures var u := DoRecover(c, true, true, true, FailedLost);
            Resting(u) && InQueue(u.lane.queue, x) && u.past.log == c.past.log
  {
    var m := MarkedAll(c, true, true);
    var found := QueuedRows(m.store.rows, m.store.nextId);
    QueuedRowsOk(m.store.rows, m.store.nextId);
    LoadedIs(m, found);
    LostClaim(Loaded(m));
  }

  const Restart: seq<Action> := [Crash, Recover(true, true, true, FailedLost)]

  lemma RestartRests(s: Sys, x: nat)
    requires RowsOk(s) && x in s.store.rows && s.store.rows[x].status.Queued?
    ensures var u := Run(s, Restart); Resting(u) && InQueue(u.lane.queue, x) && u.past.log == s.past.log
  {
    RunTwo(s, Crash, Recover(true, true, true, FailedLost));
    CrashIsEmpty(s);
    ReloadRests(DoCrash(s), x);
  }

  lemma CrashIsEmpty(s: Sys)
    requires RowsOk(s)
    ensures var c := DoCrash(s);
            && RowsOk(c) && Empty(c) && c.past.log == s.past.log && c.store == s.store && Step(s, Crash) == c
            && forall wc :: Step(c, Recover(true, true, true, wc)) == DoRecover(c, true, true, true, wc)
  {}

  lemma RestLaunches(u: Sys, x: nat)
    requires Resting(u) && InQueue(u.lane.queue, x)
    ensures Run(u, [Clear(0, true, Spare(u.lane.queue, x), Applied), Send(x)]).past.log == u.past.log + [Launch(x)]
  {
    RunTwo(u, Clear(0, true, Spare(u.lane.queue, x), Applied), Send(x));
    LaunchOne(u, x);
  }

  /** The process dies; the stored row is loaded and launched. */
  lemma RestartLaunches(s: Sys, x: nat) returns (acts: seq<Action>)
    requires RowsOk(s) && x in s.store.rows && s.store.rows[x].status.Queued?
    ensures AllHonest(acts) && Run(s, acts).past.log == s.past.log + [Launch(x)]
  {
    RestartRests(s, x);
    var u := Run(s, Restart);
    RestLaunches(u, x);
    var b := [Clear(0, true, Spare(u.lane.queue, x), Applied), Send(x)];
    acts := Restart + b;
    RunConcat(s, Restart, b);
  }

  /** The first item with this id is queued. */
  ghost predicate Waiting(s: Sys, x: nat) {
    && s.lane.booted && RowsOk(s) && x < s.store.nextId
    && IndexOf(s.lane.queue, x) < |s.lane.queue| && s.lane.queue[IndexOf(s.lane.queue, x)].status.Queued?
  }

  /** Refresh the card, restart, and launch the row that was written. */
  lemma WaitingLaunches(s: Sys, x: nat) returns (acts: seq<Action>)
    requires Waiting(s, x)
    ensures AllHonest(acts) && Run(s, acts).past.log == s.past.log + [Launch(x)]
  {
    var refresh := Refresh(x, IndexOf(s.lane.queue, x), Applied);
    RunOne(s, refresh);
    var t := Step(s, refresh);
    var rest := RestartLaunches(t, x);
    acts := [refresh] + rest;
    RunConcat(s, [refresh], rest);
  }
}
