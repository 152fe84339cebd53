/**
 What the stored rows tell.  Recovery closes what the dead process had handed out and
 leaves the rest; rows stored behind the program's back are the ones that a failed write
 left behind or that recovery did not read; and the row of the running task follows what
 is shown of it.
 */
module TaskQueueRecovery {
  import opened Prelude
  import opened TaskQueue
  import opened TaskQueueOnce
  import opened TaskQueueInvariant
  import opened TaskQueueTheorems
  import opened TaskQueueRestarts

  // ---------------------------------------------------------------- recovery

  /** What becomes of a status, by what recovery closes. */
  ghost predicate ClosedAs(before: Status, after: Status, steers: bool, starts: bool) {
    if before.Steering? then after == if steers then SteerUnknown else Steering
    else if before.Running? || before.WaitingInput? then after == if starts then Interrupted else before
    else after == before
  }

  lemma ClaimRow(s: Sys, wc: Write, x: nat)
    requires x in s.store.rows && forall i :: 0 <= i < |s.lane.queue| ==> s.lane.queue[i].status.Queued?
    requires forall i :: 0 <= i < |s.lane.queue| ==>
               s.lane.queue[i].id in s.store.rows && s.store.rows[s.lane.queue[i].id] == s.lane.queue[i]
    ensures var t := StartNext(s, wc);
            && x in t.store.rows
            && (t.store.rows[x] == s.store.rows[x]
                || (s.store.rows[x].status.Queued? && t.store.rows[x] == s.store.rows[x].(status := Running)
                    && s.lane.queue != [] && s.lane.queue[0].id == x))
  {}

  /**
   Recovery closes every row that says "steering" as unknown and every row that says "running"
   or "waiting for input" as interrupted.  It changes no other row, but for the one it claims.
   */
  lemma {:induction false} RecoveryClosesRows(acts: seq<Action>, steers: bool, starts: bool, loaded: bool, wc: Write,
                                              x: nat)
    requires !Run(Init, acts).lane.booted && x in Run(Init, acts).store.rows
    ensures var s := Run(Init, acts);
            var t := Step(s, Recover(steers, starts, loaded, wc));
            && x in t.store.rows
            && var before, after := s.store.rows[x], t.store.rows[x];
            && after == before.(status := after.status)
            && (ClosedAs(before.status, after.status, steers, starts)
                || (before.status.Queued? && after.status.Running? && steers && starts && loaded
                    && forall y :: y in s.store.rows && s.store.rows[y].status.Queued? ==> x <= y))
  {
    StartsEmpty(acts);
    RecoveredRow(Run(Init, acts), steers, starts, loaded, wc, x);
  }

  /** A process that has not recovered yet holds nothing. */
  lemma StartsEmpty(acts: seq<Action>)
    requires !Run(Init, acts).lane.booted
    ensures RowsOk(Run(Init, acts)) && Empty(Run(Init, acts))
  {
    ReachableInv(acts);
  }

  lemma MarkedRow(s: Sys, steers: bool, starts: bool, x: nat)
    requires x in s.store.rows
    ensures var rows := MarkedAll(s, steers, starts).store.rows;
            && x in rows && rows[x] == s.store.rows[x].(status := rows[x].status)
            && ClosedAs(s.store.rows[x].status, rows[x].status, steers, starts)
  {}

  /** The queue that was loaded agrees with the rows and starts with the oldest. */
  lemma LoadedAgrees(m: Sys)
    requires RowsOk(m) && Empty(m)
    ensures var t := Loaded(m);
            && t.store == m.store
            && (forall i :: 0 <= i < |t.lane.queue| ==>
                  && t.lane.queue[i].status.Queued? && t.lane.queue[i].id in m.store.rows
                  && m.store.rows[t.lane.queue[i].id] == t.lane.queue[i])
            && (t.lane.queue != [] ==>
                  forall y :: y in m.store.rows && m.store.rows[y].status.Queued? ==> t.lane.queue[0].id <= y)
  {
    OldestFirst(m.store.rows, m.store.nextId);
    LoadedIs(m, QueuedRows(m.store.rows, m.store.nextId));
  }

  lemma OldestFirst(rows: map<nat, Task>, n: nat)
    requires forall x :: x in rows ==> rows[x].id == x && x < n
    ensures var q := QueuedRows(rows, n);
            && (forall i :: 0 <= i < |q| ==> q[i].status.Queued? && q[i].id in rows && rows[q[i].id] == q[i])
            && (q != [] ==> forall y :: y in rows && rows[y].status.Queued? ==> q[0].id <= y)
  {
    QueuedRowsOk(rows, n);
    forall y | y in rows && rows[y].status.Queued? ensures InQueue(QueuedRows(rows, n), y) {}
  }

  lemma MarkedIsEmpty(s: Sys, steers: bool, starts: bool)
    requires RowsOk(s) && Empty(s)
    ensures RowsOk(MarkedAll(s, steers, starts)) && Empty(MarkedAll(s, steers, starts))
  {}

  lemma RecoveredRow(s: Sys, steers: bool, starts: bool, loaded: bool, wc: Write, x: nat)
    requires RowsOk(s) && Empty(s) && x in s.store.rows
    ensures var t := DoRecover(s, steers, starts, loaded, wc);
            && x in t.store.rows
            && var before, after := s.store.rows[x], t.store.rows[x];
            && after == before.(status := after.status)
            && (ClosedAs(before.status, after.status, steers, starts)
                || (before.status.Queued? && after.status.Running? && steers && starts && loaded
                    && forall y :: y in s.store.rows && s.store.rows[y].status.Queued? ==> x <= y))
  {
    MarkedRow(s, steers, starts, x);
    if steers && starts && loaded {
      var m := MarkedAll(s, true, true);
      MarkedIsEmpty(s, true, true);
      LoadedAgrees(m);
      ClaimRow(Loaded(m), wc, x);
      forall y | y in s.store.rows && s.store.rows[y].status.Queued? ensures m.store.rows[y].status.Queued? {
        MarkedRow(s, true, true, y);
      }
    }
  }

  // ---------------------------------------------------------------- where stray rows come from

  /** A message whose row was created behind a reported failure. */
  lemma {:induction false} FailedCreateStrays(acts: seq<Action>, user: nat, max: nat, wc: Write)
    requires Run(Init, acts).lane.booted && |Run(Init, acts).lane.queue| < max
    ensures var s := Run(Init, acts); Stray(Step(s, Enqueue(user, false, max, FailedApplied, wc)), s.store.nextId)
  {
    ReachableInv(acts);
    NextIsFresh(Run(Init, acts));
  }

  /** A refused steer that was stored as queued behind a reported failure: the item has ended. */
  lemma {:induction false} FailedRefusalStrays(acts: seq<Action>, x: nat)
    requires x in Run(Init, acts).work.steers && Run(Init, acts).work.steers[x] == Some(Rejected)
    ensures Stray(Step(Run(Init, acts), SteerSettle(x, FailedApplied, FailedLost)), x)
  {
    var s := Run(Init, acts);
    ReachableInv(acts);
    RefusalStrays(s, x);
    SettleIs(s, x, FailedApplied, FailedLost);
    StrayStays(Settled(s, x, Rejected, FailedApplied), x);
  }

  lemma RefusalStrays(s: Sys, x: nat)
    requires QueueOk(s) && SteerOk(s) && x in s.work.steers
    ensures Stray(Settled(s, x, Rejected, FailedApplied), x)
  {
    SettlingItem(s, x);
    WithoutQueue(s.lane.queue, IndexOf(s.lane.queue, x));
  }

  lemma StrayStays(s: Sys, x: nat)
    requires Stray(s, x)
    ensures Stray(StartNext(s, FailedLost), x)
  {}

  /** A row that recovery did not read. */
  lemma {:induction false} UnreadRowStrays(acts: seq<Action>, steers: bool, starts: bool, loaded: bool, wc: Write,
                                           x: nat)
    requires !Run(Init, acts).lane.booted && !(steers && starts && loaded)
    requires x in Run(Init, acts).store.rows && Run(Init, acts).store.rows[x].status.Queued?
    ensures Stray(Step(Run(Init, acts), Recover(steers, starts, loaded, wc)), x)
  {
    StartsEmpty(acts);
    MarkedRow(Run(Init, acts), steers, starts, x);
  }

  // ---------------------------------------------------------------- what is shown

  /** The running task is shown as waiting or running, and its row says the same if it could be written. */
  lemma StatusIsShown(s: Sys, waiting: bool, w: Write)
    requires s.lane.booted && s.lane.active.Some?
    ensures var t := Step(s, Touch(waiting, w));
            && t.lane.active.Some? && t.lane.active.value.id == s.lane.active.value.id
            && (t.lane.active.value.status.WaitingInput? <==> waiting)
            && (t.lane.active.value.status.Running? <==> !waiting)
            && (!w.FailedLost? ==>
                  s.lane.active.value.id in t.store.rows && t.store.rows[s.lane.active.value.id] == t.lane.active.value)
  {}

  /** What is shown or taken over now can be written later, even if the task has moved on. */
  lemma LateRowIsWritten(s: Sys, a: Action, between: Sys)
    requires s.lane.booted && s.lane.active.Some? && (a.Snapshot? || a.TakeOver?)
    requires between.lane.booted && Step(s, a).work.late <= between.work.late
    ensures var task := Step(s, a).lane.active.value;
            && Step(s, a).lane.active.Some? && task.id == s.lane.active.value.id
            && (a.Snapshot? ==> (task.status.WaitingInput? <==> a.waiting))
            && (a.TakeOver? ==> task.controller == a.user)
            && var t := Step(between, LateWrite(task, Applied));
               task.id in t.store.rows && t.store.rows[task.id] == task
  {}

  /** Redrawing a card stores what memory knows of its task. */
  lemma RefreshStores(s: Sys, task: Task, at: nat)
    requires s.lane.booted
    requires (at < |s.lane.queue| && s.lane.queue[at] == task)
             || (at >= |s.lane.queue| && s.lane.active == Some(task))
             || (at >= |s.lane.queue| && !IsActive(s.lane.active, task.id) && task.id in s.lane.done
                 && s.lane.done[task.id] == task)
    ensures var t := Step(s, Refresh(task.id, at, Applied));
            task.id in t.store.rows && t.store.rows[task.id] == task && t.lane == s.lane && t.past == s.past
  {}
}
