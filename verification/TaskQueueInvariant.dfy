/**
 What every step of the task queue keeps.  The invariant is a conjunction of
 small predicates; each kind of step has a lemma of its own, and almost all of
 them end in the same claim of the next task, so they share `StartNextKeeps`.
 */
module TaskQueueInvariant {
  import opened Prelude
  import opened TaskQueue
  import opened TaskQueueOnce

  // ---------------------------------------------------------------- invariant

  ghost predicate QueueOk(s: Sys) {
    && Sorted(s.lane.queue)
    && (forall i :: 0 <= i < |s.lane.queue| ==>
          && s.lane.queue[i].id < s.store.nextId
          && (s.lane.queue[i].status.Queued? || s.lane.queue[i].status.Steering?))
    && (s.lane.active.Some? ==>
          && s.lane.active.value.id < s.store.nextId
          && (s.lane.active.value.status.Running? || s.lane.active.value.status.WaitingInput?))
    && (s.lane.active.Some? ==> forall i :: 0 <= i < |s.lane.queue| ==> s.lane.active.value.id < s.lane.queue[i].id)
  }

  /** The flag, the item's status, its row and the goroutine in flight always agree. */
  ghost predicate SteerOk(s: Sys) {
    && (s.lane.steering <==> s.work.steers.Keys != {})
    && (forall x, y :: x in s.work.steers && y in s.work.steers ==> x == y)
    && (forall x :: x in s.work.steers ==> InQueue(s.lane.queue, x))
    && (forall x :: x in s.work.steers && x in s.store.rows ==> !s.store.rows[x].status.Queued?)
    && (forall i :: 0 <= i < |s.lane.queue| ==>
          (s.lane.queue[i].status.Steering? <==> s.lane.queue[i].id in s.work.steers))
    && (forall i :: 0 <= i < |s.lane.queue| && s.lane.queue[i].status.Steering? ==>
          && s.lane.queue[i].target.Some?
          && (s.lane.active.Some? ==> s.lane.active.value.id == s.lane.queue[i].target.value))
  }

  ghost predicate Final(status: Status) {
    !status.Queued? && !status.Steering? && !status.Running? && !status.WaitingInput?
  }

  /** Queue, active slot and finished tasks partition what was admitted. */
  ghost predicate PlaceOk(s: Sys) {
    && (forall x :: x in s.work.runners <==> IsActive(s.lane.active, x))
    && (forall x :: x in s.lane.done ==> s.lane.done[x].id == x && Final(s.lane.done[x].status))
    && (forall x :: x in s.lane.done ==> !InQueue(s.lane.queue, x) && !IsActive(s.lane.active, x))
    && (forall x :: x in s.past.admitted <==>
          InQueue(s.lane.queue, x) || IsActive(s.lane.active, x) || x in s.lane.done)
    && Increasing(s.past.admitted)
    && (forall i :: 0 <= i < |s.past.admitted| ==> s.past.admitted[i] < s.store.nextId)
  }

  ghost predicate TurnsOk(s: Sys) {
    !(s.lane.active.Some? && s.lane.direct.Some?)
  }

  /** From where on launches must be in order: over all processes while the store is clean. */
  ghost function From(s: Sys): nat {
    if s.past.clean then 0 else s.past.life
  }

  /** The agent may have taken this task into a running turn. */
  ghost predicate Given(s: Sys, x: nat) {
    x in s.work.steers && s.work.steers[x].Some? && !s.work.steers[x].value.Rejected?
  }

  /** Launches, in log order, are in creation order, and what may still be launched is newer. */
  ghost predicate OrderOk(s: Sys) {
    && (forall i, j :: From(s) <= i < j < |s.past.log| && s.past.log[i].Launch? && s.past.log[j].Launch? ==>
          s.past.log[i].id < s.past.log[j].id)
    && (forall i :: From(s) <= i < |s.past.log| && s.past.log[i].Launch? ==>
          && (forall k :: 0 <= k < |s.lane.queue| && !Given(s, s.lane.queue[k].id) ==>
                s.past.log[i].id < s.lane.queue[k].id)
          && (forall x :: x in s.work.runners ==> s.past.log[i].id <= x && (!s.work.runners[x] ==>
                s.past.log[i].id < x)))
  }

  /** In a clean store a row marked queued is in the queue, or will be loaded in order. */
  ghost predicate StrayOk(s: Sys) {
    && (s.past.clean && s.lane.booted ==>
          forall x :: x in s.store.rows && s.store.rows[x].status.Queued? ==> InQueue(s.lane.queue, x))
    && (s.past.clean && !s.lane.booted ==>
          forall x, i :: x in s.store.rows && s.store.rows[x].status.Queued?
            && 0 <= i < |s.past.log| && s.past.log[i].Launch?
            ==> s.past.log[i].id < x)
  }

  /** What this process launched it had admitted. */
  ghost predicate LaunchedOk(s: Sys) {
    forall i :: s.past.life <= i < |s.past.log| && s.past.log[i].Launch? ==> s.past.log[i].id in s.past.admitted
  }

  /** Nothing waits unless something will look at the queue again. */
  ghost predicate Awake(s: Sys) {
    s.lane.queue != [] ==>
          || s.lane.active.Some? || s.lane.steering || s.lane.direct.Some?
          || s.work.finishing > 0 || !s.lane.live || s.past.claimFailed
  }

  ghost predicate Core(s: Sys) {
    RowsOk(s) && QueueOk(s) && SteerOk(s) && PlaceOk(s) && TurnsOk(s) && OrderOk(s) && StrayOk(s)
  }

  ghost predicate Orderly(s: Sys) {
    Core(s) && Awake(s)
  }

  ghost predicate Inv(s: Sys) {
    Safe(s) && Orderly(s)
  }

  lemma InitInv()
    ensures Inv(Init) && LaunchedOk(Init)
  {}

  // ---------------------------------------------------------------- the shared claim

  /** Taking the head off the queue removes exactly its id. */
  lemma HeadGone(q: seq<Task>)
    requires q != []
    requires Sorted(q)
    ensures forall x :: InQueue(q[1..], x) <==> InQueue(q, x) && x != q[0].id
  {
    forall x ensures InQueue(q[1..], x) <==> InQueue(q, x) && x != q[0].id {
      if InQueue(q[1..], x) {
        var i :| 0 <= i < |q[1..]| && q[1..][i].id == x;
        assert q[i + 1].id == x;
      }
      if InQueue(q, x) && x != q[0].id {
        var i :| 0 <= i < |q| && q[i].id == x;
        assert q[1..][i - 1].id == x;
      }
    }
  }

  ghost predicate Claims(s: Sys, t: Sys) {
    && s.lane.booted && s.lane.active.None? && !s.lane.steering && s.lane.queue != [] && s.lane.direct.None?
    && t == StartNext(s, Applied) && t != s
  }

  lemma ClaimPlace(s: Sys, t: Sys)
    requires QueueOk(s) && PlaceOk(s) && Claims(s, t)
    ensures PlaceOk(t)
  {
    HeadGone(s.lane.queue);
    assert InQueue(s.lane.queue, s.lane.queue[0].id);
  }

  lemma ClaimQueue(s: Sys, t: Sys)
    requires QueueOk(s) && SteerOk(s) && Claims(s, t)
    ensures QueueOk(t) && SteerOk(t)
  {
    HeadGone(s.lane.queue);
    assert InQueue(s.lane.queue, s.lane.queue[0].id);
  }

  lemma ClaimOrder(s: Sys, t: Sys)
    requires QueueOk(s) && SteerOk(s) && PlaceOk(s) && OrderOk(s) && Claims(s, t)
    ensures OrderOk(t)
  {
    assert InQueue(s.lane.queue, s.lane.queue[0].id);
  }

  lemma ClaimStray(s: Sys, t: Sys)
    requires QueueOk(s) && StrayOk(s) && Claims(s, t)
    ensures StrayOk(t)
  {
    HeadGone(s.lane.queue);
  }

  lemma StartNextKeeps(s: Sys, w: Write)
    requires Core(s) && s.lane.booted
    ensures Orderly(StartNext(s, w))
    ensures StartNext(s, w).lane.booted == s.lane.booted
  {
    var t := StartNext(s, w);
    if t != s && w.Applied? {
      ClaimPlace(s, t);
      ClaimQueue(s, t);
      ClaimOrder(s, t);
      ClaimStray(s, t);
    }
  }

  // ---------------------------------------------------------------- rows

  /** Any write is harmless unless it stores "queued" for a task that does not wait. */
  lemma PutKeeps(s: Sys, task: Task, w: Write)
    requires Core(s) && task.id < s.store.nextId
    requires s.lane.booted && (task.status.Queued? && s.past.clean ==> InQueue(s.lane.queue, task.id))
    requires task.status.Queued? ==> task.id !in s.work.steers
    ensures Core(s.(store := s.store.(rows := Put(s.store.rows, task, w))))
  {
    PutRows(s, task, w);
    RowsFrame(s, s.(store := s.store.(rows := Put(s.store.rows, task, w))));
  }

  lemma PutRows(s: Sys, task: Task, w: Write)
    requires RowsOk(s) && SteerOk(s) && StrayOk(s) && task.id < s.store.nextId
    requires s.lane.booted && (task.status.Queued? && s.past.clean ==> InQueue(s.lane.queue, task.id))
    requires task.status.Queued? ==> task.id !in s.work.steers
    ensures var t := s.(store := s.store.(rows := Put(s.store.rows, task, w))); RowsOk(t) && SteerOk(t) && StrayOk(t)
  {}

  /** Queue, places and order do not depend on the rows. */
  lemma RowsFrame(s: Sys, t: Sys)
    requires QueueOk(s) && PlaceOk(s) && TurnsOk(s) && OrderOk(s) && t == s.(store := s.store.(rows := t.store.rows))
    ensures QueueOk(t) && PlaceOk(t) && TurnsOk(t) && OrderOk(t)
  {}

  lemma KnownItem(s: Sys, id: nat, at: nat)
    requires QueueOk(s) && SteerOk(s) && PlaceOk(s) && Known(s, id, at).Some?
    ensures var task := Known(s, id, at).value;
            && task.id == id < s.store.nextId
            && (task.status.Queued? ==> InQueue(s.lane.queue, id) && id !in s.work.steers)
  {
    if at < |s.lane.queue| && s.lane.queue[at].id == id {
      assert InQueue(s.lane.queue, id);
    } else if id in s.lane.done {
      assert id in s.past.admitted;
    }
  }

  lemma RefreshKeeps(s: Sys, id: nat, at: nat, w: Write)
    requires Inv(s) && s.lane.booted
    ensures Orderly(DoRefresh(s, id, at, w))
  {
    if Known(s, id, at).Some? {
      KnownItem(s, id, at);
      PutKeeps(s, Known(s, id, at).value, w);
    }
  }

  // ---------------------------------------------------------------- admission

  lemma IncreasingAppend(a: seq<nat>, x: nat)
    requires Increasing(a) && forall i :: 0 <= i < |a| ==> a[i] < x
    ensures Increasing(a + [x])
    ensures forall y :: y in a + [x] <==> y in a || y == x
    ensures forall i :: 0 <= i < |a + [x]| ==> (a + [x])[i] <= x
  {}

  /** The next id has left no trace anywhere. */
  lemma NextIsFresh(s: Sys)
    requires RowsOk(s) && QueueOk(s) && SteerOk(s) && PlaceOk(s)
    ensures s.store.nextId !in s.store.rows && s.store.nextId !in s.work.runners
    ensures s.store.nextId !in s.work.steers && s.store.nextId !in s.lane.done
    ensures s.store.nextId !in s.past.admitted
    ensures !InQueue(s.lane.queue, s.store.nextId) && !Reached(s.past.log, s.store.nextId)
  {
    assert s.store.nextId in s.work.steers ==> InQueue(s.lane.queue, s.store.nextId);
    assert s.store.nextId in s.lane.done ==> s.store.nextId in s.past.admitted;
  }

  /** An id whose creation failed is simply skipped. */
  lemma SkipKeeps(s: Sys, task: Task, w: Write)
    requires Core(s) && s.lane.booted && task.id == s.store.nextId
    requires !(task.status.Queued? && w.Applied?)
    ensures Core(Skipped(s, task, w))
  {
    NextIsFresh(s);
  }

  ghost predicate Admits(s: Sys, task: Task, t: Sys) {
    && Idle(s) && task.id + 1 == s.store.nextId && task.status.Running?
    && s.store.nextId - 1 !in s.work.runners && s.store.nextId - 1 !in s.work.steers
    && s.store.nextId - 1 !in s.lane.done
    && s.store.nextId - 1 !in s.past.admitted && !Reached(s.past.log, s.store.nextId - 1)
    && (task.id in s.store.rows ==> s.store.rows[task.id] == task)
    && t == s.(lane := s.lane.(active := Some(task), stop := false),
               work := s.work.(runners := s.work.runners[task.id := false]),
               past := s.past.(admitted := s.past.admitted + [task.id]))
  }

  lemma AdmitPlace(s: Sys, task: Task, t: Sys)
    requires PlaceOk(s) && Admits(s, task, t)
    ensures PlaceOk(t)
  {
    assert forall i :: 0 <= i < |s.past.admitted| ==> s.past.admitted[i] < task.id by {
      forall i | 0 <= i < |s.past.admitted| ensures s.past.admitted[i] < task.id {
        assert s.past.admitted[i] in s.past.admitted;
      }
    }
    IncreasingAppend(s.past.admitted, task.id);
  }

  lemma AdmitRest(s: Sys, task: Task, t: Sys)
    requires Core(s) && Admits(s, task, t)
    ensures OrderOk(t) && QueueOk(t) && SteerOk(t)
  {
    forall i | s.past.life <= i < |s.past.log| && s.past.log[i].Launch? ensures s.past.log[i].id < task.id {
      assert Counts(s.past.log[i]);
    }
  }

  lemma AdmitFrom(m: Sys, task: Task, t: Sys)
    requires Core(m) && m.lane.booted && Admits(m, task, t)
    ensures Core(t)
  {
    AdmitPlace(m, task, t);
    AdmitRest(m, task, t);
  }

  lemma AdmitKeeps(s: Sys, user: nat, w: Write)
    requires Inv(s) && s.lane.booted
    ensures Orderly(DoAdmit(s, user, w))
  {
    if Idle(s) {
      var task := Task(s.store.nextId, None, user, Running);
      NextIsFresh(s);
      SkipKeeps(s, task, w);
      if w.Applied? {
        AdmitFrom(Skipped(s, task, w), task, DoAdmit(s, user, w));
      }
    }
  }

  lemma AppendedQueue(q: seq<Task>, task: Task)
    ensures forall x :: InQueue(q + [task], x) <==> InQueue(q, x) || x == task.id
  {
    forall x ensures InQueue(q + [task], x) <==> InQueue(q, x) || x == task.id {
      if InQueue(q, x) {
        var i :| 0 <= i < |q| && q[i].id == x;
        assert (q + [task])[i].id == x;
      }
      assert (q + [task])[|q|].id == task.id;
    }
  }

  lemma AppendedPlace(s: Sys, user: nat)
    requires PlaceOk(s) && s.store.nextId !in s.lane.done && !IsActive(s.lane.active, s.store.nextId)
    ensures PlaceOk(Appended(s, user))
  {
    AppendedQueue(s.lane.queue, Task(s.store.nextId, Joinable(s), user, Queued));
    IncreasingAppend(s.past.admitted, s.store.nextId);
  }

  lemma AppendedSteer(s: Sys, user: nat)
    requires QueueOk(s) && SteerOk(s) && s.store.nextId !in s.work.steers
    ensures QueueOk(Appended(s, user)) && SteerOk(Appended(s, user))
  {
    AppendedQueue(s.lane.queue, Task(s.store.nextId, Joinable(s), user, Queued));
  }

  lemma AppendedOrder(s: Sys, user: nat)
    requires RowsOk(s) && OrderOk(s)
    ensures OrderOk(Appended(s, user))
  {}

  lemma AppendedStray(s: Sys, user: nat)
    requires StrayOk(s) && s.lane.booted
    ensures StrayOk(Appended(s, user))
  {
    AppendedQueue(s.lane.queue, Task(s.store.nextId, Joinable(s), user, Queued));
  }

  lemma AppendedKeeps(s: Sys, user: nat)
    requires Core(s) && s.lane.booted
    ensures Core(Appended(s, user))
  {
    NextIsFresh(s);
    assert !IsActive(s.lane.active, s.store.nextId);
    AppendedPlace(s, user);
    AppendedSteer(s, user);
    AppendedOrder(s, user);
    AppendedStray(s, user);
  }

  lemma AppendedThenClaim(s: Sys, user: nat, wc: Write)
    requires Core(s) && s.lane.booted
    ensures Orderly(StartNext(Appended(s, user), wc))
  {
    AppendedKeeps(s, user);
    StartNextKeeps(Appended(s, user), wc);
  }

  lemma EnqueueKeeps(s: Sys, user: nat, blank: bool, max: nat, w: Write, wc: Write)
    requires Inv(s) && s.lane.booted
    ensures Orderly(DoEnqueue(s, user, blank, max, w, wc))
  {
    if !blank && |s.lane.queue| < max {
      if w.Applied? {
        AppendedThenClaim(s, user, wc);
      } else {
        SkipKeeps(s, Task(s.store.nextId, Joinable(s), user, Queued), w);
      }
    }
  }

  // ---------------------------------------------------------------- leaving the queue

  lemma WithoutQueue(q: seq<Task>, i: nat)
    requires i < |q|
    requires Sorted(q)
    ensures forall x :: InQueue(Without(q, i), x) <==> InQueue(q, x) && x != q[i].id
    ensures forall k :: 0 <= k < |q| - 1 ==> Without(q, i)[k] == q[if k < i then k else k + 1]
  {
    WithoutAt(q, i);
    forall x ensures InQueue(Without(q, i), x) <==> InQueue(q, x) && x != q[i].id {
      StaysWithout(q, i, x);
    }
  }

  lemma StaysWithout(q: seq<Task>, i: nat, x: nat)
    requires i < |q| && Sorted(q)
    ensures InQueue(Without(q, i), x) <==> InQueue(q, x) && x != q[i].id
  {
    var r := Without(q, i);
    if InQueue(r, x) {
      var k :| 0 <= k < |r| && r[k].id == x;
      assert r[k] == q[if k < i then k else k + 1];
    }
    if InQueue(q, x) && x != q[i].id {
      var k :| 0 <= k < |q| && q[k].id == x;
      assert r[if k < i then k else k - 1] == q[k];
    }
  }

  lemma RemovePlace(s: Sys, i: nat, status: Status)
    requires QueueOk(s) && PlaceOk(s) && i < |s.lane.queue| && Final(status)
    ensures PlaceOk(RemoveAs(s, i, status))
  {
    WithoutQueue(s.lane.queue, i);
    assert InQueue(s.lane.queue, s.lane.queue[i].id);
  }

  lemma RemoveQueue(s: Sys, i: nat, status: Status)
    requires QueueOk(s) && SteerOk(s) && i < |s.lane.queue| && s.lane.queue[i].id !in s.work.steers
    ensures QueueOk(RemoveAs(s, i, status)) && SteerOk(RemoveAs(s, i, status))
  {
    WithoutQueue(s.lane.queue, i);
    var t := RemoveAs(s, i, status);
    assert forall k :: 0 <= k < |t.lane.queue| ==> t.lane.queue[k] in s.lane.queue;
  }

  lemma RemoveOrder(s: Sys, i: nat, status: Status)
    requires QueueOk(s) && OrderOk(s) && i < |s.lane.queue|
    ensures OrderOk(RemoveAs(s, i, status))
  {
    WithoutQueue(s.lane.queue, i);
  }

  lemma RemoveStray(s: Sys, i: nat, status: Status)
    requires QueueOk(s) && StrayOk(s) && s.lane.booted && i < |s.lane.queue|
    requires s.lane.queue[i].id in s.store.rows ==> !s.store.rows[s.lane.queue[i].id].status.Queued?
    ensures StrayOk(RemoveAs(s, i, status))
  {
    WithoutQueue(s.lane.queue, i);
  }

  lemma RemoveKeeps(s: Sys, i: nat, status: Status)
    requires Core(s) && s.lane.booted && i < |s.lane.queue| && s.lane.queue[i].id !in s.work.steers && Final(status)
    requires s.lane.queue[i].id in s.store.rows ==> !s.store.rows[s.lane.queue[i].id].status.Queued?
    ensures Core(RemoveAs(s, i, status))
  {
    RemoveStray(s, i, status);
    RemovePlace(s, i, status);
    RemoveQueue(s, i, status);
    RemoveOrder(s, i, status);
  }

  // ---------------------------------------------------------------- clear

  /** One item of the walk is one row write followed, if it took, by one removal. */
  lemma CancelledKeeps(s: Sys, i: nat, w: Write)
    requires Core(s) && s.lane.booted && i < |s.lane.queue| && s.lane.queue[i].status.Queued?
    ensures Core(CancelledAt(s, i, w))
  {
    var task := s.lane.queue[i].(status := Cancelled);
    PutKeeps(s, task, w);
    if w.Applied? {
      RemoveKeeps(s.(store := s.store.(rows := Put(s.store.rows, task, w))), i, Cancelled);
    }
  }

  lemma ClearStepKeeps(s: Sys, n: nat, user: nat, admin: bool, ws: seq<Write>, m: Sys, t: Sys)
    requires 0 < n <= |s.lane.queue|
    requires m == ClearTo(s, n - 1, user, admin, ws) && t == ClearTo(s, n, user, admin, ws)
    requires Core(m) && m.lane.booted
    ensures Core(t)
  {
    ClearToShape(s, n, user, admin, ws);
    if Clearable(s.lane.queue[n - 1], user, admin) {
      CancelledKeeps(m, |Kept(s.lane.queue, n - 1, user, admin, ws)|, WriteAt(ws, n - 1));
    }
  }

  lemma {:induction false} ClearToKeeps(s: Sys, n: nat, user: nat, admin: bool, ws: seq<Write>)
    requires Core(s) && s.lane.booted && n <= |s.lane.queue|
    ensures Core(ClearTo(s, n, user, admin, ws))
  {
    if n == 0 {
      ClearToEnds(s, user, admin, ws);
    } else {
      ClearToKeeps(s, n - 1, user, admin, ws);
      ClearStepKeeps(s, n, user, admin, ws, ClearTo(s, n - 1, user, admin, ws), ClearTo(s, n, user, admin, ws));
    }
  }

  lemma ClearedKeeps(s: Sys, user: nat, admin: bool, ws: seq<Write>)
    requires Core(s) && s.lane.booted
    ensures Core(Cleared(s, user, admin, ws))
  {
    ClearToKeeps(s, |s.lane.queue|, user, admin, ws);
    ClearToEnds(s, user, admin, ws);
  }

  lemma ClearThenClaim(s: Sys, user: nat, admin: bool, ws: seq<Write>, wc: Write)
    requires Core(s) && s.lane.booted
    ensures Orderly(StartNext(Cleared(s, user, admin, ws), wc))
  {
    ClearedKeeps(s, user, admin, ws);
    StartNextKeeps(Cleared(s, user, admin, ws), wc);
  }

  lemma ClearKeeps(s: Sys, user: nat, admin: bool, ws: seq<Write>, wc: Write)
    requires Inv(s) && s.lane.booted
    ensures Orderly(DoClear(s, user, admin, ws, wc))
  {
    ClearThenClaim(s, user, admin, ws, wc);
  }

  lemma CancelThenClaim(s: Sys, i: nat, wc: Write)
    requires Core(s) && s.lane.booted && i < |s.lane.queue| && s.lane.queue[i].status.Queued?
    ensures Orderly(StartNext(CancelledAt(s, i, Applied), wc))
  {
    CancelledKeeps(s, i, Applied);
    StartNextKeeps(CancelledAt(s, i, Applied), wc);
  }

  lemma CancelFails(s: Sys, i: nat, w: Write)
    requires Inv(s) && s.lane.booted && i < |s.lane.queue| && s.lane.queue[i].status.Queued? && !w.Applied?
    ensures Orderly(CancelledAt(s, i, w))
  {
    CancelledKeeps(s, i, w);
  }

  lemma CancelKeeps(s: Sys, id: nat, w: Write, wc: Write)
    requires Inv(s) && s.lane.booted
    ensures Orderly(DoCancel(s, id, w, wc))
  {
    var i := IndexOf(s.lane.queue, id);
    if i < |s.lane.queue| && s.lane.queue[i].status.Queued? {
      if w.Applied? {
        CancelThenClaim(s, i, wc);
        assert DoCancel(s, id, w, wc) == StartNext(CancelledAt(s, i, Applied), wc);
      } else {
        CancelFails(s, i, w);
        assert DoCancel(s, id, w, wc) == CancelledAt(s, i, w);
      }
    } else {
      assert DoCancel(s, id, w, wc) == s;
    }
  }

  // ---------------------------------------------------------------- steering

  lemma UpdatedQueue(q: seq<Task>, i: nat, task: Task)
    requires i < |q| && task.id == q[i].id
    ensures forall x :: InQueue(q[i := task], x) <==> InQueue(q, x)
  {
    forall x ensures InQueue(q[i := task], x) <==> InQueue(q, x) {
      if InQueue(q, x) {
        var k :| 0 <= k < |q| && q[k].id == x;
        assert q[i := task][k].id == x;
      }
      if InQueue(q[i := task], x) {
        var k :| 0 <= k < |q| && q[i := task][k].id == x;
        assert q[k].id == x;
      }
    }
  }

  lemma TakeQueue(s: Sys, i: nat, t: Sys)
    requires QueueOk(s) && SteerOk(s) && TakesForSteer(s, i, t)
    ensures QueueOk(t) && SteerOk(t)
  {
    UpdatedQueue(s.lane.queue, i, s.lane.queue[i].(status := Steering));
    assert InQueue(s.lane.queue, s.lane.queue[i].id);
    assert s.work.steers == map[];
    assert t.work.steers.Keys == {s.lane.queue[i].id};
  }

  lemma TakePlace(s: Sys, i: nat, t: Sys)
    requires QueueOk(s) && SteerOk(s) && PlaceOk(s) && OrderOk(s) && TakesForSteer(s, i, t)
    ensures PlaceOk(t) && OrderOk(t)
  {
    UpdatedQueue(s.lane.queue, i, s.lane.queue[i].(status := Steering));
  }

  lemma TakeStray(s: Sys, i: nat, t: Sys)
    requires StrayOk(s) && s.lane.booted && TakesForSteer(s, i, t)
    ensures StrayOk(t)
  {
    UpdatedQueue(s.lane.queue, i, s.lane.queue[i].(status := Steering));
  }

  lemma TakeKeeps(s: Sys, i: nat, t: Sys)
    requires Core(s) && s.lane.booted && TakesForSteer(s, i, t)
    ensures Core(t)
  {
    TakeStray(s, i, t);
    TakeQueue(s, i, t);
    TakePlace(s, i, t);
  }

  lemma SteerClaimKeeps(s: Sys, id: nat, capable: bool, w: Write)
    requires Inv(s) && s.lane.booted
    ensures Orderly(DoSteerClaim(s, id, capable, w))
  {
    var i := IndexOf(s.lane.queue, id);
    if i < |s.lane.queue| && capable && CanSteer(s, i) {
      if w.Applied? {
        TakeKeeps(s, i, DoSteerClaim(s, id, capable, w));
      } else {
        PutKeeps(s, s.lane.queue[i].(status := Steering), w);
      }
    }
  }

  lemma ReplyOrder(s: Sys, id: nat, reply: Reply)
    requires RowsOk(s) && OrderOk(s) && id in s.work.steers && s.work.steers[id].None?
    ensures OrderOk(DoSteerReply(s, id, reply))
  {}

  lemma SteerReplyKeeps(s: Sys, id: nat, reply: Reply)
    requires Inv(s) && s.lane.booted
    ensures Orderly(DoSteerReply(s, id, reply))
  {
    if id in s.work.steers && s.work.steers[id].None? {
      ReplyOrder(s, id, reply);
      assert InQueue(s.lane.queue, id);
      var t := DoSteerReply(s, id, reply);
      assert t.work.steers.Keys == s.work.steers.Keys;
    }
  }

  lemma GoneQueue(s: Sys, i: nat, m: Sys, status: Status)
    requires QueueOk(s) && SteerOk(s) && Unflags(s, i, m)
    ensures QueueOk(RemoveAs(m, i, status)) && SteerOk(RemoveAs(m, i, status))
  {
    WithoutQueue(s.lane.queue, i);
    assert m.work.steers == map[];
  }

  lemma GoneOrder(s: Sys, i: nat, m: Sys, status: Status)
    requires SteerOk(s) && OrderOk(s) && Unflags(s, i, m) && Sorted(s.lane.queue)
    ensures OrderOk(RemoveAs(m, i, status))
  {
    WithoutQueue(s.lane.queue, i);
    assert forall x :: x in s.work.steers ==> x == s.lane.queue[i].id;
  }

  lemma GoneKeeps(s: Sys, i: nat, m: Sys, status: Status)
    requires Core(s) && s.lane.booted && Unflags(s, i, m) && Final(status)
    ensures Core(RemoveAs(m, i, status))
  {
    RemoveStray(m, i, status);
    GoneQueue(s, i, m, status);
    GoneOrder(s, i, m, status);
    RemovePlace(m, i, status);
  }

  lemma BackQueue(s: Sys, i: nat, m: Sys, t: Sys)
    requires QueueOk(s) && SteerOk(s) && PlaceOk(s) && Unflags(s, i, m)
    requires t == m.(lane := m.lane.(queue := s.lane.queue[i := s.lane.queue[i].(status := Queued)]))
    ensures QueueOk(t) && SteerOk(t) && PlaceOk(t)
  {
    UpdatedQueue(s.lane.queue, i, s.lane.queue[i].(status := Queued));
    assert m.work.steers == map[];
  }

  lemma BackOrder(s: Sys, i: nat, m: Sys, t: Sys)
    requires SteerOk(s) && OrderOk(s) && Unflags(s, i, m) && s.work.steers[s.lane.queue[i].id] == Some(Rejected)
    requires t == m.(lane := m.lane.(queue := s.lane.queue[i := s.lane.queue[i].(status := Queued)]))
    ensures OrderOk(t)
  {
    assert forall x :: x in s.work.steers ==> x == s.lane.queue[i].id;
  }

  lemma BackStray(s: Sys, i: nat, m: Sys, t: Sys)
    requires StrayOk(s) && s.lane.booted && Unflags(s, i, m)
    requires t == m.(lane := m.lane.(queue := s.lane.queue[i := s.lane.queue[i].(status := Queued)]))
    ensures StrayOk(t) && InQueue(t.lane.queue, s.lane.queue[i].id)
  {
    UpdatedQueue(s.lane.queue, i, s.lane.queue[i].(status := Queued));
    assert InQueue(s.lane.queue, s.lane.queue[i].id);
  }

  /** Which item a settling steer holds. */
  lemma SettlingItem(s: Sys, id: nat)
    requires SteerOk(s) && id in s.work.steers
    ensures var i := IndexOf(s.lane.queue, id);
            i < |s.lane.queue| && s.lane.queue[i].id == id && s.lane.queue[i].status.Steering?
  {
    assert InQueue(s.lane.queue, id);
  }

  lemma BackKeeps(s: Sys, i: nat, m: Sys, t: Sys)
    requires Core(s) && Unflags(s, i, m) && s.work.steers[s.lane.queue[i].id] == Some(Rejected) && s.lane.booted
    requires t == m.(lane := m.lane.(queue := s.lane.queue[i := s.lane.queue[i].(status := Queued)]))
    ensures Core(t) && InQueue(t.lane.queue, s.lane.queue[i].id)
  {
    BackStray(s, i, m, t);
    BackQueue(s, i, m, t);
    BackOrder(s, i, m, t);
  }

  lemma SettledBack(s: Sys, id: nat)
    requires Core(s) && s.lane.booted && id in s.work.steers && s.work.steers[id] == Some(Rejected)
    ensures Core(Settled(s, id, Rejected, Applied))
  {
    SettlingItem(s, id);
    var i := IndexOf(s.lane.queue, id);
    var m := s.(lane := s.lane.(steering := false), work := s.work.(steers := s.work.steers - {id}));
    var t := m.(lane := m.lane.(queue := s.lane.queue[i := s.lane.queue[i].(status := Queued)]));
    BackKeeps(s, i, m, t);
    PutKeeps(t, s.lane.queue[i].(status := Queued), Applied);
  }

  /** The item is out of the queue; a row stored behind a failure spoils the store. */
  lemma SettledGone(s: Sys, id: nat, reply: Reply, w: Write)
    requires Core(s) && s.lane.booted && id in s.work.steers && (!w.Applied? || !reply.Rejected?)
    ensures Core(Settled(s, id, reply, w))
  {
    SettlingItem(s, id);
    var i := IndexOf(s.lane.queue, id);
    var m := s.(lane := s.lane.(steering := false), work := s.work.(steers := s.work.steers - {id}));
    GoneKeeps(s, i, m, FinalStatus(reply, w));
    WrittenKeeps(RemoveAs(m, i, FinalStatus(reply, w)), s.lane.queue[i].(status := SettledStatus(reply)), w,
                 Settled(s, id, reply, w));
  }

  lemma WrittenKeeps(gone: Sys, task: Task, w: Write, t: Sys)
    requires Core(gone) && gone.lane.booted && task.id < gone.store.nextId
    requires t.store == gone.store.(rows := Put(gone.store.rows, task, w)) && t.lane == gone.lane && t.work == gone.work
    requires t.past == gone.past.(clean := gone.past.clean && !(task.status.Queued? && w.FailedApplied?))
    requires (task.status.Queued? ==> !w.Applied?) && task.id !in gone.work.steers
    ensures Core(t)
  {}

  lemma SettledKeeps(s: Sys, id: nat, reply: Reply, w: Write)
    requires Core(s) && s.lane.booted && id in s.work.steers && s.work.steers[id] == Some(reply)
    ensures Core(Settled(s, id, reply, w))
  {
    if w.Applied? && reply.Rejected? {
      SettledBack(s, id);
    } else {
      SettledGone(s, id, reply, w);
    }
  }

  lemma SettleThenClaim(s: Sys, id: nat, reply: Reply, w: Write, wc: Write)
    requires Core(s) && s.lane.booted && id in s.work.steers && s.work.steers[id] == Some(reply)
    ensures Orderly(StartNext(Settled(s, id, reply, w), wc))
  {
    SettledKeeps(s, id, reply, w);
    StartNextKeeps(Settled(s, id, reply, w), wc);
  }

  lemma SteerSettleKeeps(s: Sys, id: nat, w: Write, wc: Write)
    requires Inv(s) && s.lane.booted
    ensures Orderly(DoSteerSettle(s, id, w, wc))
  {
    if id in s.work.steers && s.work.steers[id].Some? {
      var reply := s.work.steers[id].value;
      SettleThenClaim(s, id, reply, w, wc);
      assert DoSteerSettle(s, id, w, wc) == StartNext(Settled(s, id, reply, w), wc);
    } else {
      assert DoSteerSettle(s, id, w, wc) == s;
    }
  }

  // ---------------------------------------------------------------- running turns

  lemma SendOrder(s: Sys, id: nat)
    requires RowsOk(s) && QueueOk(s) && PlaceOk(s) && OrderOk(s) && id in s.work.runners && !s.work.runners[id]
    ensures OrderOk(DoSend(s, id))
  {
    var t := DoSend(s, id);
    assert t.past.log[|s.past.log|] == Launch(id);
    assert forall x :: x in s.work.runners ==> x == id;
  }

  lemma SendKeeps(s: Sys, id: nat)
    requires Inv(s) && s.lane.booted
    ensures Orderly(DoSend(s, id))
  {
    if id in s.work.runners && !s.work.runners[id] {
      SendOrder(s, id);
    }
  }

  lemma EndedPlace(s: Sys, id: nat, cut: bool, err: bool, w: Write)
    requires QueueOk(s) && PlaceOk(s) && id in s.work.runners
    ensures PlaceOk(Ended(s, id, cut, err, w))
  {
    assert IsActive(s.lane.active, id);
    assert !InQueue(s.lane.queue, id);
  }

  lemma EndedRest(s: Sys, id: nat, cut: bool, err: bool, w: Write)
    requires PlaceOk(s) && QueueOk(s) && SteerOk(s) && OrderOk(s) && id in s.work.runners
    ensures var t := Ended(s, id, cut, err, w); QueueOk(t) && SteerOk(t) && OrderOk(t)
    ensures RowsOk(s) ==> RowsOk(Ended(s, id, cut, err, w))
  {
    assert IsActive(s.lane.active, id);
  }

  lemma EndedKeeps(s: Sys, id: nat, cut: bool, err: bool, w: Write)
    requires Core(s) && id in s.work.runners
    ensures Core(Ended(s, id, cut, err, w)) && Ended(s, id, cut, err, w).lane.booted == s.lane.booted
  {
    EndedPlace(s, id, cut, err, w);
    EndedRest(s, id, cut, err, w);
  }

  lemma FinishKeeps(s: Sys, id: nat, cut: bool, err: bool, w: Write, wc: Write)
    requires Inv(s) && s.lane.booted
    ensures Orderly(DoFinish(s, id, cut, err, w, wc))
  {
    if id in s.work.runners {
      EndedKeeps(s, id, cut, err, w);
      StartNextKeeps(Ended(s, id, cut, err, w), wc);
    }
  }

  /** Changing what is shown of the active task moves nothing. */
  lemma ShowKeeps(s: Sys, task: Task)
    requires Core(s) && s.lane.active.Some? && task.id == s.lane.active.value.id
    requires task.status.Running? || task.status.WaitingInput?
    ensures Core(s.(lane := s.lane.(active := Some(task))))
  {
    var t := s.(lane := s.lane.(active := Some(task)));
    assert forall x :: IsActive(t.lane.active, x) <==> IsActive(s.lane.active, x);
  }

  lemma LateKeeps(s: Sys, task: Task)
    requires Core(s) && s.lane.active == Some(task)
    ensures Core(s.(work := s.work.(late := s.work.late + {task})))
  {}

  lemma ShowWritten(s: Sys, task: Task, w: Write, t: Sys)
    requires Core(s) && s.lane.booted && s.lane.active.Some? && task.id == s.lane.active.value.id
    requires task.status.Running? || task.status.WaitingInput?
    requires t == s.(lane := s.lane.(active := Some(task)), store := s.store.(rows := Put(s.store.rows, task, w)))
    ensures Core(t)
  {
    ShowKeeps(s, task);
    PutKeeps(s.(lane := s.lane.(active := Some(task))), task, w);
  }

  lemma TouchKeeps(s: Sys, waiting: bool, w: Write)
    requires Inv(s) && s.lane.booted
    ensures Orderly(DoTouch(s, waiting, w))
  {
    if s.lane.active.Some? {
      ShowWritten(s, Shown(s.lane.active.value, waiting), w, DoTouch(s, waiting, w));
    }
  }

  lemma ShowLater(s: Sys, task: Task, t: Sys)
    requires Core(s) && s.lane.active.Some? && task.id == s.lane.active.value.id
    requires task.status.Running? || task.status.WaitingInput?
    requires t == s.(lane := s.lane.(active := Some(task)), work := s.work.(late := s.work.late + {task}))
    ensures Core(t)
  {
    ShowKeeps(s, task);
    LateKeeps(s.(lane := s.lane.(active := Some(task))), task);
  }

  lemma SnapshotKeeps(s: Sys, waiting: bool)
    requires Inv(s) && s.lane.booted
    ensures Orderly(DoSnapshot(s, waiting))
  {
    if s.lane.active.Some? {
      ShowLater(s, Shown(s.lane.active.value, waiting), DoSnapshot(s, waiting));
    }
  }

  lemma TakeOverKeeps(s: Sys, user: nat)
    requires Inv(s) && s.lane.booted
    ensures Orderly(DoTakeOver(s, user))
  {
    if s.lane.active.Some? {
      ShowLater(s, s.lane.active.value.(controller := user), DoTakeOver(s, user));
    }
  }

  // ---------------------------------------------------------------- crash and recovery

  lemma CrashKeeps(s: Sys)
    requires Inv(s)
    ensures Orderly(DoCrash(s))
  {
  }

  lemma MarkedKeeps(s: Sys, steers: bool, starts: bool)
    requires Core(s)
    ensures Core(MarkedAll(s, steers, starts))
    ensures !s.lane.booted && BootOk(s) ==> Empty(MarkedAll(s, steers, starts))
  {
    MarkedRows(s, steers, starts);
    RowsFrame(s, MarkedAll(s, steers, starts));
  }

  lemma MarkedRows(s: Sys, steers: bool, starts: bool)
    requires RowsOk(s) && SteerOk(s) && StrayOk(s)
    ensures var t := MarkedAll(s, steers, starts); RowsOk(t) && SteerOk(t) && StrayOk(t)
  {}

  lemma IdsOf(q: seq<Task>)
    requires Sorted(q)
    ensures Increasing(Ids(q)) && forall x :: x in Ids(q) <==> InQueue(q, x)
  {
    forall x ensures x in Ids(q) <==> InQueue(q, x) {
      if InQueue(q, x) {
        var i :| 0 <= i < |q| && q[i].id == x;
        assert Ids(q)[i] == x;
      }
    }
  }

  lemma LoadedPlace(s: Sys)
    requires RowsOk(s) && Empty(s)
    ensures PlaceOk(Loaded(s))
  {
    var found := QueuedRows(s.store.rows, s.store.nextId);
    QueuedRowsOk(s.store.rows, s.store.nextId);
    LoadedIs(s, found);
    FoundPlace(Loaded(s), found);
  }

  lemma FoundPlace(t: Sys, found: seq<Task>)
    requires t.lane == FreshLane.(booted := true, queue := found) && t.work == NoWork && t.past.admitted == Ids(found)
    requires Sorted(found) && forall i :: 0 <= i < |found| ==> found[i].id < t.store.nextId
    ensures PlaceOk(t)
  {
    IdsOf(found);
  }

  lemma LoadedQueue(s: Sys)
    requires RowsOk(s) && Empty(s)
    ensures QueueOk(Loaded(s)) && SteerOk(Loaded(s))
  {
    QueuedRowsOk(s.store.rows, s.store.nextId);
    LoadedIs(s, QueuedRows(s.store.rows, s.store.nextId));
  }

  lemma LoadedOrder(s: Sys)
    requires RowsOk(s) && OrderOk(s) && StrayOk(s) && Empty(s)
    ensures OrderOk(Loaded(s)) && StrayOk(Loaded(s))
  {
    QueuedRowsOk(s.store.rows, s.store.nextId);
    LoadedIs(s, QueuedRows(s.store.rows, s.store.nextId));
  }

  lemma LoadedKeeps(s: Sys)
    requires Core(s) && Empty(s)
    ensures Core(Loaded(s))
  {
    LoadedPlace(s);
    LoadedQueue(s);
    LoadedOrder(s);
  }

  lemma NotLoadedKeeps(s: Sys)
    requires Core(s) && Empty(s)
    ensures Orderly(NotLoaded(s))
  {
    QueuedRowsOk(s.store.rows, s.store.nextId);
    if QueuedRows(s.store.rows, s.store.nextId) == [] {
      assert forall x: nat :: !InQueue([], x);
    }
  }

  lemma LoadedThenClaim(m: Sys, wc: Write)
    requires Core(m) && Empty(m)
    ensures Orderly(StartNext(Loaded(m), wc))
  {
    LoadedKeeps(m);
    StartNextKeeps(Loaded(m), wc);
  }

  lemma RecoverKeeps(s: Sys, steers: bool, starts: bool, loaded: bool, wc: Write)
    requires Inv(s) && !s.lane.booted
    ensures Orderly(DoRecover(s, steers, starts, loaded, wc))
  {
    MarkedKeeps(s, steers, starts);
    if steers && starts && loaded {
      LoadedThenClaim(MarkedAll(s, true, true), wc);
    } else {
      NotLoadedKeeps(MarkedAll(s, steers, starts));
    }
  }

  // ---------------------------------------------------------------- every step, every run

  /** Fields the core invariant does not mention may change freely. */
  lemma FrameKeeps(s: Sys, t: Sys)
    requires Core(s) && TurnsOk(t)
    requires t == s.(lane := s.lane.(stop := t.lane.stop, direct := t.lane.direct, live := t.lane.live),
                     work := s.work.(finishing := t.work.finishing))
    ensures Core(t)
  {
    assert PlaceOk(t);
    assert OrderOk(t);
  }

  lemma BeginDirectKeeps(s: Sys, turn: nat)
    requires Inv(s) && s.lane.booted
    ensures Orderly(DoBeginDirect(s, turn))
  {
    FrameKeeps(s, DoBeginDirect(s, turn));
  }

  lemma EndDirectKeeps(s: Sys, turn: nat)
    requires Inv(s) && s.lane.booted
    ensures Orderly(DoEndDirect(s, turn))
  {
    FrameKeeps(s, DoEndDirect(s, turn));
  }

  lemma WakeKeeps(s: Sys, wc: Write)
    requires Inv(s) && s.lane.booted
    ensures Orderly(DoWakeAfterDirect(s, wc))
  {
    if s.work.finishing > 0 {
      var m := s.(work := s.work.(finishing := s.work.finishing - 1));
      FrameKeeps(s, m);
      StartNextKeeps(m, wc);
    }
  }

  lemma LateWriteKeeps(s: Sys, task: Task, w: Write)
    requires Inv(s) && s.lane.booted
    ensures Orderly(DoLateWrite(s, task, w))
  {
    if task in s.work.late {
      PutKeeps(s, task, w);
    }
  }

  lemma StopKeeps(s: Sys)
    requires Inv(s) && s.lane.booted
    ensures Orderly(DoStop(s))
  {
    FrameKeeps(s, DoStop(s));
  }

  lemma ShutdownKeeps(s: Sys)
    requires Inv(s) && s.lane.booted
    ensures Orderly(DoShutdown(s))
  {
    FrameKeeps(s, DoShutdown(s));
  }

  /** The steps that do not reorder the queue. */
  lemma TurnStepKeeps(s: Sys, a: Action)
    requires Inv(s) && Enabled(s, a) && !a.Admit? && !a.Enqueue? && !a.Cancel? && !a.Clear?
    requires !a.SteerClaim? && !a.SteerReply? && !a.SteerSettle?
    ensures Orderly(Do(s, a))
  {
    if a.Send? {
      SendKeeps(s, a.id);
    } else if a.Finish? {
      FinishKeeps(s, a.id, a.cut, a.err, a.w, a.wc);
    } else if a.Touch? {
      TouchKeeps(s, a.waiting, a.w);
    } else if a.Snapshot? {
      SnapshotKeeps(s, a.waiting);
    } else if a.LateWrite? {
      LateWriteKeeps(s, a.task, a.w);
    } else if a.Refresh? {
      RefreshKeeps(s, a.id, a.at, a.w);
    } else if a.BeginDirect? {
      BeginDirectKeeps(s, a.turn);
    } else if a.EndDirect? {
      EndDirectKeeps(s, a.turn);
    } else if a.WakeAfterDirect? {
      WakeKeeps(s, a.wc);
    } else if a.TakeOver? {
      TakeOverKeeps(s, a.user);
    } else if a.Stop? {
      StopKeeps(s);
    } else if a.Shutdown? {
      ShutdownKeeps(s);
    } else if a.Crash? {
      CrashKeeps(s);
    } else {
      RecoverKeeps(s, a.steersMarked, a.startsMarked, a.loaded, a.wc);
    }
  }

  lemma StepOrderly(s: Sys, a: Action)
    requires Inv(s)
    ensures Orderly(Step(s, a))
  {
    if Enabled(s, a) {
      if a.Admit? {
        AdmitKeeps(s, a.user, a.w);
      } else if a.Enqueue? {
        EnqueueKeeps(s, a.user, a.blank, a.max, a.w, a.wc);
      } else if a.Cancel? {
        CancelKeeps(s, a.id, a.w, a.wc);
      } else if a.Clear? {
        ClearKeeps(s, a.user, a.admin, a.ws, a.wc);
      } else if a.SteerClaim? {
        SteerClaimKeeps(s, a.id, a.capable, a.w);
      } else if a.SteerReply? {
        SteerReplyKeeps(s, a.id, a.reply);
      } else if a.SteerSettle? {
        SteerSettleKeeps(s, a.id, a.w, a.wc);
      } else {
        TurnStepKeeps(s, a);
      }
    }
  }

  lemma StepKeeps(s: Sys, a: Action)
    requires Inv(s)
    ensures Inv(Step(s, a))
  {
    StepSafe(s, a);
    StepOrderly(s, a);
  }

  /** A step adds at most one delivery, and a launch only for a running turn. */
  ghost predicate Extends(s: Sys, t: Sys) {
    && t.past.life == s.past.life
    && s.store.nextId <= t.store.nextId && (s.lane.booted ==> t.lane.booted)
    && s.past.admitted <= t.past.admitted
    && s.past.log <= t.past.log && |t.past.log| <= |s.past.log| + 1
    && (|t.past.log| > |s.past.log| && t.past.log[|s.past.log|].Launch? ==>
          t.past.log[|s.past.log|].id in s.work.runners)
  }

  lemma StepExtends(s: Sys, a: Action)
    requires !a.Crash?
    ensures Extends(s, Step(s, a))
  {
    if Enabled(s, a) {
      if a.Recover? {
        RecoverExtends(s, a.steersMarked, a.startsMarked, a.loaded, a.wc);
      } else if a.Admit? || a.Enqueue? || a.Cancel? || a.Clear? {
        QueueStepGrows(s, a);
      } else if !a.Send? && !a.SteerReply? {
        OtherStepGrows(s, a);
      }
    }
  }

  lemma QueueStepGrows(s: Sys, a: Action)
    requires a.Admit? || a.Enqueue? || a.Cancel? || a.Clear?
    ensures GrownHistory(s, Do(s, a))
  {}

  lemma OtherStepGrows(s: Sys, a: Action)
    requires !a.Admit? && !a.Enqueue? && !a.Cancel? && !a.Clear?
    requires !a.Crash? && !a.Recover? && !a.Send? && !a.SteerReply?
    ensures GrownHistory(s, Do(s, a))
  {}

  lemma RecoverExtends(s: Sys, steers: bool, starts: bool, loaded: bool, wc: Write)
    ensures Extends(s, DoRecover(s, steers, starts, loaded, wc))
  {
  }

  lemma LaunchedKeeps(s: Sys, a: Action)
    requires Inv(s) && LaunchedOk(s)
    ensures LaunchedOk(Step(s, a))
  {
    if !a.Crash? {
      StepExtends(s, a);
      LaunchedExtends(s, Step(s, a));
    }
  }

  lemma LaunchedExtends(s: Sys, t: Sys)
    requires PlaceOk(s) && LaunchedOk(s) && Extends(s, t)
    ensures LaunchedOk(t)
  {
    forall i | t.past.life <= i < |t.past.log| && t.past.log[i].Launch? ensures t.past.log[i].id in t.past.admitted {
      if i < |s.past.log| {
        assert t.past.log[i] == s.past.log[i];
      } else {
        assert t.past.log[i].id in s.work.runners;
      }
      assert t.past.log[i].id in s.past.admitted;
    }
  }

  /** Every state of every run satisfies the invariant. */
  lemma {:induction false} RunKeeps(s: Sys, acts: seq<Action>)
    requires Inv(s)
    ensures Inv(Run(s, acts))
    ensures LaunchedOk(s) ==> LaunchedOk(Run(s, acts))
  {
    if acts == [] {
    } else {
      RunKeeps(s, acts[..|acts| - 1]);
      StepKeeps(Run(s, acts[..|acts| - 1]), acts[|acts| - 1]);
      if LaunchedOk(s) {
        LaunchedKeeps(Run(s, acts[..|acts| - 1]), acts[|acts| - 1]);
      }
    }
  }
}
