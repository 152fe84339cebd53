/**
 The critical sections of one conversation as the program runs them: fields
 updated in place, searches and sweeps as loops.  Every section is proved to move
 the conversation exactly as the step of the same name moves the transition system.
 A conversation therefore stays in a state of some run, in whatever order its
 sections are called, and everything proved of runs holds of it.
 */
module ConversationControl {
  import opened Prelude
  import opened TaskQueue
  import opened TaskQueueInvariant
  import opened TaskQueueTheorems

  /** What the caller is told about a request on a queue item. */
  datatype Outcome = Done | NotThere | NotSteerable | Busy | StoreError

  /** A running turn belongs to the active task. */
  lemma RunnerIsActive(s: Sys, id: nat)
    requires Reachable(s) && id in s.work.runners
    ensures IsActive(s.lane.active, id)
  {
    var acts: seq<Action> :| s == Run(Init, acts);
    OneTurnAtATime(acts);
  }

  lemma RecoverLoads(s: Sys, wc: Write)
    requires !s.lane.booted
    ensures Step(s, Action.Recover(true, true, true, wc)) == StartNext(Loaded(MarkedAll(s, true, true)), wc)
  {}

  /** A process that has just started, with the rows of its predecessor marked. */
  ghost predicate Restarting(v: Sys) {
    exists s: Sys :: !s.lane.booted && Reachable(s) && MarkedAll(s, true, true) == v
  }

  lemma LoadReaches(v: Sys, wc: Write)
    ensures Restarting(v) ==> Reachable(StartNext(Loaded(v), wc))
  {
    if Restarting(v) {
      var s: Sys :| !s.lane.booted && Reachable(s) && MarkedAll(s, true, true) == v;
      RecoverLoads(s, wc);
      ReachNext(s, Action.Recover(true, true, true, wc));
    }
  }

  class Conversation {
    var rows: map<nat, Task>
    var nextId: nat
    var live: bool
    var active: Option<Task>
    var stop: bool
    var queue: seq<Task>
    var steering: bool
    var direct: Option<nat>
    ghost var booted: bool
    ghost var done: map<nat, Task>
    ghost var work: Work
    ghost var past: Past

    ghost function View(): Sys
      reads this
    {
      Sys(Store(rows, nextId), Lane(booted, live, active, stop, queue, steering, direct, done), work, past)
    }

    /** The process has started up, and some run leads to where the conversation is. */
    ghost predicate Working()
      reads this
    {
      booted && Reachable(View())
    }

    /** Nothing but the store, queue and bookkeeping of claims can change in a claim. */
    method ClaimNext(w: Write) returns (next: Option<Task>)
      modifies this
      ensures View() == StartNext(old(View()), w)
      ensures next.Some? <==> old(active).None? && active.Some?
      ensures next.Some? ==> !stop
      ensures next.Some? ==> next == active && old(queue) == [next.value.(status := old(queue)[0].status)] + queue
    {
      next := None;
      if active.Some? || steering || |queue| == 0 || !live || direct.Some? {
        return;
      }
      var head := queue[0].(status := Running);
      rows := Put(rows, head, w);
      past := past.(claimFailed := !w.Applied?);
      if w.Applied? {
        queue := queue[1..];
        active := Some(head);
        stop := false;
        work := work.(runners := work.runners[head.id := false]);
        next := active;
      }
    }

    /** The search loop over the queue. */
    method Find(id: nat) returns (i: nat)
      ensures i == IndexOf(queue, id)
    {
      i := 0;
      while i < |queue| && queue[i].id != id
        invariant i <= |queue|
        invariant forall j :: 0 <= j < i ==> queue[j].id != id
      {
        i := i + 1;
      }
    }

    /** A new task gets its row; with it, it joins the queue. */
    method Create(user: nat, w: Write) returns (ok: bool)
      modifies this
      ensures ok <==> w.Applied?
      ensures View() == if ok then Appended(old(View()), user)
                        else Skipped(old(View()), Task(old(nextId), Joinable(old(View())), user, Queued), w)
    {
      var task := Task(nextId, if active.Some? then Some(active.value.id) else None, user, Queued);
      nextId := nextId + 1;
      rows := Put(rows, task, w);
      ok := w.Applied?;
      if ok {
        queue := queue + [task];
        past := past.(admitted := past.admitted + [task.id]);
      } else {
        past := past.(clean := past.clean && !w.FailedApplied?);
      }
    }

    /** A message runs at once only when nothing runs, waits, is steered or is direct. */
    method Admit(user: nat, w: Write) returns (outcome: Outcome)
      requires Working()
      modifies this
      ensures Working()
      ensures View() == DoAdmit(old(View()), user, w)
      ensures outcome.Busy? <==> !Idle(old(View()))
      ensures outcome.Done? <==> Idle(old(View())) && active == Some(Task(old(nextId), None, user, Running))
      ensures outcome.Done? ==> !stop
      ensures outcome.StoreError? <==> Idle(old(View())) && !w.Applied?
    {
      ReachNext(View(), Action.Admit(user, w));
      if active.Some? || steering || |queue| > 0 || direct.Some? {
        return Busy;
      }
      var task := Task(nextId, None, user, Running);
      nextId := nextId + 1;
      rows := Put(rows, task, w);
      if !w.Applied? {
        return StoreError;
      }
      active := Some(task);
      stop := false;
      work := work.(runners := work.runners[task.id := false]);
      past := past.(admitted := past.admitted + [task.id]);
      outcome := Done;
    }

    method Enqueue(user: nat, blank: bool, max: nat, w: Write, wc: Write) returns (outcome: Outcome)
      requires Working()
      modifies this
      ensures Working()
      ensures View() == DoEnqueue(old(View()), user, blank, max, w, wc)
      ensures outcome == if blank || |old(queue)| >= max then Busy else if w.Applied? then Done else StoreError
    {
      ReachNext(View(), Action.Enqueue(user, blank, max, w, wc));
      if blank || |queue| >= max {
        return Busy;
      }
      var ok := Create(user, w);
      if !ok {
        return StoreError;
      }
      var _ := ClaimNext(wc);
      outcome := Done;
    }

    method Cancel(id: nat, w: Write, wc: Write) returns (outcome: Outcome)
      requires Working()
      modifies this
      ensures Working()
      ensures View() == DoCancel(old(View()), id, w, wc)
      ensures var i := IndexOf(old(queue), id);
              outcome == if i == |old(queue)| || !old(queue)[i].status.Queued? then NotThere
                         else if w.Applied? then Done else StoreError
    {
      ReachNext(View(), Action.Cancel(id, w, wc));
      var i := Find(id);
      if i == |queue| || !queue[i].status.Queued? {
        return NotThere;
      }
      var item := queue[i].(status := Cancelled);
      rows := Put(rows, item, w);
      if !w.Applied? {
        return StoreError;
      }
      queue := queue[..i] + queue[i + 1..];
      done := done[item.id := item];
      var _ := ClaimNext(wc);
      outcome := Done;
    }

    /** The sweep keeps what it may not or could not cancel, in order. */
    method Sweep(user: nat, admin: bool, ws: seq<Write>) returns (remaining: seq<Task>, cancelled: nat)
      modifies `rows, `done
      ensures rows == ClearedRows(old(rows), queue, |queue|, user, admin, ws)
      ensures done == ClearedDone(old(done), queue, |queue|, user, admin, ws)
      ensures remaining == Kept(queue, |queue|, user, admin, ws) && cancelled == |queue| - |remaining|
    {
      remaining, cancelled := [], 0;
      var i := 0;
      while i < |queue|
        invariant i <= |queue|
        invariant rows == ClearedRows(old(rows), queue, i, user, admin, ws)
        invariant done == ClearedDone(old(done), queue, i, user, admin, ws)
        invariant remaining == Kept(queue, i, user, admin, ws) && cancelled == i - |remaining|
      {
        var task := queue[i];
        if !task.status.Queued? || !(admin || task.controller == user) {
          remaining := remaining + [task];
        } else {
          rows := Put(rows, task.(status := Cancelled), WriteAt(ws, i));
          if WriteAt(ws, i).Applied? {
            done := done[task.id := task.(status := Cancelled)];
            cancelled := cancelled + 1;
          } else {
            remaining := remaining + [task];
          }
        }
        i := i + 1;
      }
    }

    /** The whole command: sweep, keep what is left, wake the queue. */
    method Clear(user: nat, admin: bool, ws: seq<Write>, wc: Write) returns (cancelled: nat)
      requires Working()
      modifies this
      ensures Working()
      ensures View() == DoClear(old(View()), user, admin, ws, wc)
      ensures cancelled == |old(queue)| - |Kept(old(queue), |old(queue)|, user, admin, ws)|
    {
      ReachNext(View(), Action.Clear(user, admin, ws, wc));
      queue, cancelled := Sweep(user, admin, ws);
      var _ := ClaimNext(wc);
    }

    /** First section of a steer: commit the claim before anything is sent. */
    method ClaimSteer(id: nat, capable: bool, w: Write) returns (outcome: Outcome)
      requires Working()
      modifies this
      ensures Working()
      ensures View() == DoSteerClaim(old(View()), id, capable, w)
      ensures outcome.Done? ==> steering && !old(steering)
      ensures var i := IndexOf(old(queue), id);
              outcome == if i == |old(queue)| || !old(queue)[i].status.Queued? then NotThere
                         else if old(active).None? || old(queue)[i].target != Some(old(active).value.id) || !capable
                         then NotSteerable
                         else if old(steering) then Busy
                         else if w.Applied? then Done else StoreError
    {
      ReachNext(View(), Action.SteerClaim(id, capable, w));
      var i := Find(id);
      if i == |queue| || !queue[i].status.Queued? {
        return NotThere;
      }
      if active.None? || queue[i].target != Some(active.value.id) || !capable {
        return NotSteerable;
      }
      if steering {
        return Busy;
      }
      var item := queue[i].(status := Steering);
      rows := Put(rows, item, w);
      if !w.Applied? {
        return StoreError;
      }
      queue := queue[i := item];
      steering := true;
      work := work.(steers := work.steers[id := None]);
      outcome := Done;
    }

    /** The answer to a steer is recorded; only a saved rejection keeps its item. */
    method RecordAnswer(id: nat, reply: Reply, w: Write)
      modifies this
      ensures View() == Settled(old(View()), id, reply, w)
    {
      var i := Find(id);
      if i < |queue| {
        RecordAt(i, id, reply, w);
      }
    }

    /** The answer goes to the row; a refusal that could not be saved counts as unknown. */
    method WriteAnswer(steered: Task, reply: Reply, w: Write) returns (item: Task)
      modifies `rows, `past
      ensures rows == Put(old(rows), steered.(status := SettledStatus(reply)), w)
      ensures item == steered.(status := FinalStatus(reply, w))
      ensures past == old(past).(clean := old(past).clean && !(reply.Rejected? && w.FailedApplied?))
    {
      item := steered.(status := SettledStatus(reply));
      rows := Put(rows, item, w);
      past := past.(clean := past.clean && !(reply.Rejected? && w.FailedApplied?));
      if !w.Applied? && item.status.Queued? {
        item := item.(status := SteerUnknown);
      }
    }

    method RecordAt(i: nat, id: nat, reply: Reply, w: Write)
      requires i < |queue|
      modifies this
      ensures View() == SettledAt(old(View()), i, id, reply, w)
    {
      var item := WriteAnswer(queue[i], reply, w);
      Place(i, id, item);
      steering := false;
      work := work.(steers := work.steers - {id});
    }

    /** A refused item waits again; any other one has ended. */
    method Place(i: nat, id: nat, item: Task)
      requires i < |queue|
      modifies `queue, `done
      ensures queue == if item.status.Queued? then old(queue)[i := item] else Without(old(queue), i)
      ensures done == if item.status.Queued? then old(done) else old(done)[id := item]
    {
      if item.status.Queued? {
        queue := queue[i := item];
      } else {
        queue := queue[..i] + queue[i + 1..];
        done := done[id := item];
      }
    }

    /** Second section of a steer: record the answer, then wake the queue. */
    method SettleSteer(id: nat, reply: Reply, w: Write, wc: Write)
      requires id in work.steers && work.steers[id] == Some(reply)
      requires Working()
      modifies this
      ensures Working()
      ensures View() == DoSteerSettle(old(View()), id, w, wc)
    {
      ReachNext(View(), Action.SteerSettle(id, w, wc));
      RecordAnswer(id, reply, w);
      var _ := ClaimNext(wc);
    }

    /** How a turn ended: a stop request outweighs an error, an error outweighs a cut-off. */
    method EndStatus(cut: bool, err: bool) returns (status: Status)
      ensures status == FinishStatus(stop, cut, err)
      ensures status.Succeeded? <==> !stop && !cut && !err
      ensures status.Failed? <==> !stop && err
    {
      status := Succeeded;
      if cut {
        status := Interrupted;
      }
      if stop {
        status := Interrupted;
      } else if err {
        status := Failed;
      }
    }

    /** The status is written and the slot is freed. */
    method EndActive(id: nat, cut: bool, err: bool, w: Write)
      requires IsActive(active, id)
      modifies this
      ensures View() == Ended(old(View()), id, cut, err, w)
    {
      var status := EndStatus(cut, err);
      var task := active.value.(status := status);
      rows := Put(rows, task, w);
      active := None;
      done := done[id := task];
      work := work.(runners := work.runners - {id});
    }

    /** A turn ends: its status is written, the slot freed, the queue woken. */
    method Finish(id: nat, cut: bool, err: bool, w: Write, wc: Write)
      requires id in work.runners
      requires Working()
      modifies this
      ensures Working()
      ensures View() == DoFinish(old(View()), id, cut, err, w, wc)
    {
      ReachNext(View(), Action.Finish(id, cut, err, w, wc));
      RunnerIsActive(View(), id);
      EndActive(id, cut, err, w);
      var _ := ClaimNext(wc);
    }

    method BeginDirect(turn: nat) returns (ok: bool)
      requires Working()
      modifies this
      ensures Working()
      ensures View() == DoBeginDirect(old(View()), turn)
      ensures ok <==> old(active).None? && old(direct).None?
      ensures direct == if ok then Some(turn) else old(direct)
    {
      ReachNext(View(), Action.BeginDirect(turn));
      ok := active.None? && direct.None?;
      if ok {
        direct := Some(turn);
      }
    }

    method EndDirect(turn: nat)
      requires Working()
      modifies this
      ensures Working()
      ensures View() == DoEndDirect(old(View()), turn)
    {
      ReachNext(View(), Action.EndDirect(turn));
      if direct == Some(turn) {
        direct := None;
      }
      work := work.(finishing := work.finishing + 1);
    }

    method TakeOver(user: nat) returns (ok: bool)
      requires Working()
      modifies this
      ensures Working()
      ensures View() == DoTakeOver(old(View()), user)
      ensures ok <==> old(active).Some?
    {
      ReachNext(View(), Action.TakeOver(user));
      ok := active.Some?;
      if ok {
        active := Some(active.value.(controller := user));
        work := work.(late := work.late + {active.value});
      }
    }

    /** The loading loop: the stored FIFO goes to the end of the queue. */
    method AppendAll(stored: seq<Task>)
      modifies `queue
      ensures queue == old(queue) + stored
    {
      var i := 0;
      while i < |stored|
        invariant i <= |stored|
        invariant queue == old(queue) + stored[..i]
      {
        queue := queue + [stored[i]];
        i := i + 1;
      }
    }

    /** Start-up loads the complete FIFO before it launches anything. */
    method Load(stored: seq<Task>, wc: Write)
      requires stored == QueuedRows(rows, nextId)
      modifies this
      ensures View() == StartNext(Loaded(old(View())), wc)
      ensures old(Restarting(View())) ==> Working()
    {
      LoadReaches(View(), wc);
      AppendAll(stored);
      booted := true;
      past := past.(admitted := past.admitted + Ids(stored));
      var _ := ClaimNext(wc);
    }
  }
}
