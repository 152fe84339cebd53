/**
 What a member's request reaches: a stop ends the turn that was running when it was
 made, and no later one; a clear cancels the items of its user; a detached channel
 claims nothing any more.
 */
module TaskQueueRequests {
  import opened Prelude
  import opened TaskQueue
  import opened TaskQueueOnce
  import opened TaskQueueInvariant
  import opened TaskQueueTheorems

  // ---------------------------------------------------------------- who becomes active

  /**
   Between these two states of one process: who ran still runs or has ended, and who runs
   now either ran before or is new, without a stop request.  `stops` says that one is made.
   */
  ghost predicate Turns(s: Sys, t: Sys, stops: bool) {
    && (t.lane.live ==> s.lane.live)
    && (forall x :: x in s.lane.done ==> x in t.lane.done)
    && (forall x :: IsActive(s.lane.active, x) ==> IsActive(t.lane.active, x) || x in t.lane.done)
    && (forall x :: IsActive(t.lane.active, x) && IsActive(s.lane.active, x) ==>
          t.lane.stop == (s.lane.stop || stops))
    && (forall x :: IsActive(t.lane.active, x) && !IsActive(s.lane.active, x) ==>
          && x !in s.lane.done && !t.lane.stop
          && (s.lane.live || x !in s.past.admitted))
  }

  /** Nothing becomes active, and no stop is requested. */
  ghost predicate Calms(s: Sys, m: Sys) {
    && m.lane.live == s.lane.live && m.lane.stop == s.lane.stop
    && (forall x :: x in s.lane.done ==> x in m.lane.done)
    && (forall x :: IsActive(s.lane.active, x) ==> IsActive(m.lane.active, x) || x in m.lane.done)
    && (forall x :: IsActive(m.lane.active, x) ==> IsActive(s.lane.active, x))
  }

  /** The rest of a section, and the claim that ends it. */
  lemma ClaimTurns(s: Sys, m: Sys, w: Write)
    requires Calms(s, m) && PlaceOk(m)
    ensures Turns(s, StartNext(m, w), false)
  {
    if m.lane.queue != [] {
      assert InQueue(m.lane.queue, m.lane.queue[0].id);
    }
  }

  lemma AdmitTurns(s: Sys, user: nat, w: Write)
    requires PlaceOk(s) && s.store.nextId !in s.lane.done && s.store.nextId !in s.past.admitted
    ensures Turns(s, DoAdmit(s, user, w), false)
  {}

  lemma AppendTurns(s: Sys, user: nat, wc: Write)
    requires Core(s) && s.lane.booted
    ensures Turns(s, StartNext(Appended(s, user), wc), false)
  {
    AppendedKeeps(s, user);
    ClaimTurns(s, Appended(s, user), wc);
  }

  lemma EnqueueTurns(s: Sys, user: nat, blank: bool, max: nat, w: Write, wc: Write)
    requires Core(s) && s.lane.booted
    ensures Turns(s, DoEnqueue(s, user, blank, max, w, wc), false)
  {
    AppendTurns(s, user, wc);
  }

  lemma {:induction false} ClearedDoneGrows(done: map<nat, Task>, q: seq<Task>, n: nat, user: nat, admin: bool,
                                            ws: seq<Write>)
    requires n <= |q|
    ensures forall x :: x in done ==> x in ClearedDone(done, q, n, user, admin, ws)
  {
    if n == 0 {
    } else {
      ClearedDoneGrows(done, q, n - 1, user, admin, ws);
    }
  }

  lemma ClearTurns(s: Sys, user: nat, admin: bool, ws: seq<Write>, wc: Write)
    requires Core(s) && s.lane.booted
    ensures Turns(s, DoClear(s, user, admin, ws, wc), false)
  {
    ClearedDoneGrows(s.lane.done, s.lane.queue, |s.lane.queue|, user, admin, ws);
    ClearedKeeps(s, user, admin, ws);
    ClaimTurns(s, Cleared(s, user, admin, ws), wc);
  }

  lemma CancelledTurns(s: Sys, i: nat, w: Write, wc: Write)
    requires Core(s) && s.lane.booted && i < |s.lane.queue| && s.lane.queue[i].status.Queued?
    ensures Turns(s, CancelledAt(s, i, w), false) && Turns(s, StartNext(CancelledAt(s, i, w), wc), false)
  {
    CancelledKeeps(s, i, w);
    ClaimTurns(s, CancelledAt(s, i, w), wc);
  }

  lemma CancelTurns(s: Sys, id: nat, w: Write, wc: Write)
    requires Core(s) && s.lane.booted
    ensures Turns(s, DoCancel(s, id, w, wc), false)
  {
    var i := IndexOf(s.lane.queue, id);
    if i < |s.lane.queue| && s.lane.queue[i].status.Queued? {
      CancelledTurns(s, i, w, wc);
    }
  }

  lemma SettleTurns(s: Sys, id: nat, w: Write, wc: Write)
    requires Inv(s) && s.lane.booted
    ensures Turns(s, DoSteerSettle(s, id, w, wc), false)
  {
    if id in s.work.steers && s.work.steers[id].Some? {
      SettledTurns(s, id, s.work.steers[id].value, w, wc);
    }
  }

  lemma SettledTurns(s: Sys, id: nat, reply: Reply, w: Write, wc: Write)
    requires Core(s) && s.lane.booted && id in s.work.steers && s.work.steers[id] == Some(reply)
    ensures Turns(s, StartNext(Settled(s, id, reply, w), wc), false)
  {
    SettledKeeps(s, id, reply, w);
    SettledCalms(s, id, reply, w);
    ClaimTurns(s, Settled(s, id, reply, w), wc);
  }

  lemma SettledCalms(s: Sys, id: nat, reply: Reply, w: Write)
    ensures Calms(s, Settled(s, id, reply, w))
  {}

  lemma FinishTurns(s: Sys, id: nat, cut: bool, err: bool, w: Write, wc: Write)
    requires Inv(s) && s.lane.booted
    ensures Turns(s, DoFinish(s, id, cut, err, w, wc), false)
  {
    if id in s.work.runners {
      EndedKeeps(s, id, cut, err, w);
      ClaimTurns(s, Ended(s, id, cut, err, w), wc);
    }
  }

  lemma WakeTurns(s: Sys, wc: Write)
    requires Inv(s) && s.lane.booted
    ensures Turns(s, DoWakeAfterDirect(s, wc), false)
  {
    if s.work.finishing > 0 {
      var m := s.(work := s.work.(finishing := s.work.finishing - 1));
      FrameKeeps(s, m);
      ClaimTurns(s, m, wc);
    }
  }

  lemma RecoverTurns(s: Sys, steers: bool, starts: bool, loaded: bool, wc: Write)
    requires Inv(s) && !s.lane.booted
    ensures Turns(s, DoRecover(s, steers, starts, loaded, wc), false)
  {
    if steers && starts && loaded {
      var m := MarkedAll(s, true, true);
      MarkedKeeps(s, true, true);
      LoadedKeeps(m);
      ClaimTurns(s, Loaded(m), wc);
    }
  }

  lemma OtherTurns(s: Sys, a: Action)
    requires s.lane.booted && !a.Admit? && !a.Enqueue? && !a.Cancel? && !a.Clear? && !a.SteerSettle? && !a.Finish?
    requires !a.WakeAfterDirect? && !a.Crash? && !a.Recover?
    ensures Turns(s, Do(s, a), a.Stop?)
  {
    if a.SteerClaim? || a.SteerReply? || a.Send? || a.LateWrite? || a.Refresh? {
      WorkTurns(s, a);
    }
  }

  lemma WorkTurns(s: Sys, a: Action)
    requires a.SteerClaim? || a.SteerReply? || a.Send? || a.LateWrite? || a.Refresh?
    ensures Turns(s, Do(s, a), false)
  {}

  lemma StepTurns(s: Sys, a: Action)
    requires Inv(s) && !a.Crash?
    ensures Turns(s, Step(s, a), a.Stop?)
  {
    if Enabled(s, a) {
      if a.Admit? {
        NextIsFresh(s);
        AdmitTurns(s, a.user, a.w);
      } else if a.Enqueue? {
        EnqueueTurns(s, a.user, a.blank, a.max, a.w, a.wc);
      } else if a.Cancel? {
        CancelTurns(s, a.id, a.w, a.wc);
      } else if a.Clear? {
        ClearTurns(s, a.user, a.admin, a.ws, a.wc);
      } else if a.SteerSettle? {
        SettleTurns(s, a.id, a.w, a.wc);
      } else if a.Finish? {
        FinishTurns(s, a.id, a.cut, a.err, a.w, a.wc);
      } else if a.WakeAfterDirect? {
        WakeTurns(s, a.wc);
      } else if a.Recover? {
        RecoverTurns(s, a.steersMarked, a.startsMarked, a.loaded, a.wc);
      } else {
        OtherTurns(s, a);
      }
    }
  }

  // ---------------------------------------------------------------- stop requests

  /** Step `i` asked the task to stop, and the process has not died since. */
  ghost predicate StoppedAt(acts: seq<Action>, i: nat, x: nat) {
    && i < |acts| && acts[i].Stop? && IsActive(Run(Init, acts[..i]).lane.active, x)
    && forall j :: i < j < |acts| ==> !acts[j].Crash?
  }

  /** Somebody asked this task to stop while it was running. */
  ghost predicate Requested(acts: seq<Action>, x: nat) {
    exists i: nat :: StoppedAt(acts, i, x)
  }

  lemma RequestedNext(acts: seq<Action>, a: Action, x: nat)
    ensures Requested(acts + [a], x) <==>
            !a.Crash? && (Requested(acts, x) || (a.Stop? && IsActive(Run(Init, acts).lane.active, x)))
  {
    var all := acts + [a];
    if i: nat :| StoppedAt(all, i, x) {
      if i < |acts| {
        assert all[..i] == acts[..i] && !all[|acts|].Crash?;
        forall j | i < j < |acts| ensures !acts[j].Crash? {
          assert all[j] == acts[j];
        }
        assert StoppedAt(acts, i, x);
      } else {
        assert all[..i] == acts;
      }
    }
    if !a.Crash? {
      if i: nat :| StoppedAt(acts, i, x) {
        assert all[..i] == acts[..i] && StoppedAt(all, i, x);
      }
      if a.Stop? && IsActive(Run(Init, acts).lane.active, x) {
        assert all[..|acts|] == acts && StoppedAt(all, |acts|, x);
      }
    }
  }

  /** The flag of the running task is its own: it is up exactly if this task was asked to stop. */
  lemma {:induction false} StopIsRequested(acts: seq<Action>)
    ensures var s := Run(Init, acts);
            && (forall x :: Requested(acts, x) ==> IsActive(s.lane.active, x) || x in s.lane.done)
            && (forall x :: IsActive(s.lane.active, x) ==> (s.lane.stop <==> Requested(acts, x)))
  {
    if acts == [] {
    } else {
      var pre, a := acts[..|acts| - 1], acts[|acts| - 1];
      StopIsRequested(pre);
      ReachableInv(pre);
      assert acts == pre + [a];
      forall x ensures Requested(acts, x) <==>
        !a.Crash? && (Requested(pre, x) || (a.Stop? && IsActive(Run(Init, pre).lane.active, x)))
      {
        RequestedNext(pre, a, x);
      }
      if !a.Crash? {
        StepTurns(Run(Init, pre), a);
      }
    }
  }

  /** Whoever starts, by a claim or by its own admission, starts without a stop request. */
  lemma {:induction false} NobodyStartsStopped(acts: seq<Action>, a: Action, x: nat)
    requires !IsActive(Run(Init, acts).lane.active, x) && IsActive(Step(Run(Init, acts), a).lane.active, x)
    ensures !Step(Run(Init, acts), a).lane.stop && !Requested(acts + [a], x)
  {
    var s := Run(Init, acts);
    ReachableInv(acts);
    if !a.Crash? {
      StepTurns(s, a);
      StopIsRequested(acts);
      RequestedNext(acts, a, x);
    }
  }

  /** Step `i` ends the turn of task `x`, in the process that is still at work. */
  ghost predicate EndsAt(acts: seq<Action>, i: nat, x: nat) {
    && i < |acts| && acts[i].Finish? && acts[i].id == x && x in Run(Init, acts[..i]).work.runners
    && forall j :: i < j < |acts| ==> !acts[j].Crash?
  }

  /** How a turn ended, from what was asked of it and what happened to it. */
  ghost predicate EndsAs(status: Status, stopped: bool, cut: bool, err: bool) {
    && (status.Interrupted? <==> stopped || (cut && !err))
    && (status.Failed? <==> err && !stopped)
    && (status.Succeeded? <==> !stopped && !cut && !err)
  }

  lemma EndStep(acts: seq<Action>, a: Action, x: nat)
    requires a.Finish? && a.id == x && x in Run(Init, acts).work.runners
    ensures var t := Step(Run(Init, acts), a);
            x in t.lane.done && EndsAs(t.lane.done[x].status, Requested(acts, x), a.cut, a.err)
  {
    ReachableInv(acts);
    StopIsRequested(acts);
    assert IsActive(Run(Init, acts).lane.active, x);
  }

  /**
   A turn that ended is shown as interrupted if and only if it was asked to stop while it ran
   or was cut off without an error, as failed exactly for an error without such a request, and
   as succeeded exactly if nothing of the kind happened to it.
   */
  lemma {:induction false} TurnEndsAs(acts: seq<Action>, i: nat, x: nat)
    requires EndsAt(acts, i, x)
    ensures var s := Run(Init, acts);
            x in s.lane.done && EndsAs(s.lane.done[x].status, Requested(acts[..i], x), acts[i].cut, acts[i].err)
    decreases |acts|
  {
    var n := |acts| - 1;
    if i == n {
      EndStep(acts[..n], acts[n], x);
    } else {
      var pre := acts[..n];
      assert pre[..i] == acts[..i];
      assert EndsAt(pre, i, x);
      TurnEndsAs(pre, i, x);
      FinalIsForever(pre, acts[n], x);
    }
  }

  // ---------------------------------------------------------------- a detached channel

  ghost predicate NoCrash(acts: seq<Action>) {
    forall i :: 0 <= i < |acts| ==> !acts[i].Crash?
  }

  /** Step `i` detached the channel, and the process has not died since. */
  ghost predicate DetachedAt(acts: seq<Action>, i: nat) {
    && i < |acts| && acts[i].Shutdown? && Run(Init, acts[..i]).lane.booted
    && forall j :: i < j < |acts| ==> !acts[j].Crash?
  }

  lemma DetachedNext(acts: seq<Action>, a: Action)
    ensures (exists i: nat :: DetachedAt(acts + [a], i)) <==>
            !a.Crash? && ((exists i: nat :: DetachedAt(acts, i)) || (a.Shutdown? && Run(Init, acts).lane.booted))
  {
    var all := acts + [a];
    if i: nat :| DetachedAt(all, i) {
      if i < |acts| {
        assert all[..i] == acts[..i] && !all[|acts|].Crash?;
        assert forall j :: i < j < |acts| ==> all[j] == acts[j];
        assert DetachedAt(acts, i);
      } else {
        assert all[..i] == acts;
      }
    }
    if !a.Crash? {
      if i: nat :| DetachedAt(acts, i) {
        assert all[..i] == acts[..i] && DetachedAt(all, i);
      }
      if a.Shutdown? && Run(Init, acts).lane.booted {
        assert all[..|acts|] == acts && DetachedAt(all, |acts|);
      }
    }
  }

  lemma LiveNext(s: Sys, a: Action)
    ensures Step(s, a).lane.live <==> a.Crash? || (s.lane.live && !(a.Shutdown? && s.lane.booted))
  {
    if Enabled(s, a) {
      if a.Admit? || a.Enqueue? || a.Cancel? || a.Clear? {
        QueueStepLives(s, a);
      } else {
        OtherStepLives(s, a);
      }
    }
  }

  lemma QueueStepLives(s: Sys, a: Action)
    requires a.Admit? || a.Enqueue? || a.Cancel? || a.Clear?
    ensures Do(s, a).lane.live == s.lane.live
  {}

  lemma OtherStepLives(s: Sys, a: Action)
    requires !a.Admit? && !a.Enqueue? && !a.Cancel? && !a.Clear?
    ensures Do(s, a).lane.live == (a.Crash? || (s.lane.live && !a.Shutdown?))
  {}

  /** A process is attached until it is shut down. */
  lemma {:induction false} LiveUntilDetached(acts: seq<Action>)
    ensures Run(Init, acts).lane.live <==> !exists i: nat :: DetachedAt(acts, i)
  {
    if acts == [] {
    } else {
      var pre, a := acts[..|acts| - 1], acts[|acts| - 1];
      LiveUntilDetached(pre);
      LiveNext(Run(Init, pre), a);
      DetachedNext(pre, a);
      assert acts == pre + [a];
    }
  }

  // ---------------------------------------------------------------- direct turns

  /**
   A console turn gets its conversation exactly if nothing else runs there, and keeps it until it
   ends itself or the process dies.
   */
  lemma DirectIsPinned(s: Sys, a: Action)
    requires s.lane.booted
    ensures Step(s, a).lane.direct ==
            if a.Crash? || (a.EndDirect? && s.lane.direct == Some(a.turn)) then None
            else if a.BeginDirect? && s.lane.active.None? && s.lane.direct.None? then Some(a.turn)
            else s.lane.direct
  {
    if a.Admit? || a.Enqueue? || a.Cancel? || a.Clear? {
      QueueStepDirect(s, a);
    } else if !a.Recover? {
      OtherStepDirect(s, a);
    }
  }

  lemma QueueStepDirect(s: Sys, a: Action)
    requires a.Admit? || a.Enqueue? || a.Cancel? || a.Clear?
    ensures Do(s, a).lane.direct == s.lane.direct
  {}

  lemma OtherStepDirect(s: Sys, a: Action)
    requires !a.Admit? && !a.Enqueue? && !a.Cancel? && !a.Clear? && !a.Recover?
    ensures Do(s, a).lane.direct ==
            if a.Crash? || (a.EndDirect? && s.lane.direct == Some(a.turn)) then None
            else if a.BeginDirect? && s.lane.active.None? && s.lane.direct.None? then Some(a.turn)
            else s.lane.direct
  {}

  // ---------------------------------------------------------------- after a detachment

  /** Once the channel is detached, no task that was admitted before is started in this process. */
  lemma {:induction false} DetachedStartsNobody(s: Sys, more: seq<Action>, x: nat)
    requires Reachable(s) && !s.lane.live && NoCrash(more)
    requires x in s.past.admitted && !IsActive(s.lane.active, x)
    ensures var t := Run(s, more); Reachable(t) && !t.lane.live && x in t.past.admitted && !IsActive(t.lane.active, x)
  {
    if more == [] {
    } else {
      var pre, a := more[..|more| - 1], more[|more| - 1];
      DetachedStartsNobody(s, pre, x);
      var t := Run(s, pre);
      ReachNext(t, a);
      ReachedInv(t);
      StepTurns(t, a);
      StepExtends(t, a);
    }
  }

  // ---------------------------------------------------------------- clearing

  lemma {:induction false} ClearedAt(done: map<nat, Task>, q: seq<Task>, n: nat, user: nat, admin: bool,
                                     ws: seq<Write>, i: nat)
    requires Sorted(q) && n <= |q| && i < |q| && forall k :: 0 <= k < |q| ==> q[k].id !in done
    ensures var gone := i < n && q[i].status.Queued? && (admin || q[i].controller == user) && WriteAt(ws, i).Applied?;
            var left, after := Kept(q, n, user, admin, ws), ClearedDone(done, q, n, user, admin, ws);
            && (q[i].id in after <==> gone) && (gone ==> after[q[i].id] == q[i].(status := Cancelled))
            && (q[i] in left <==> i < n && !gone)
            && forall task :: task in left ==> task in q
  {
    if n == 0 {
    } else {
      ClearedAt(done, q, n - 1, user, admin, ws, i);
    }
  }

  /** The item was queued, the user may cancel it, and the cancellation was written. */
  ghost predicate Sweeps(task: Task, user: nat, admin: bool, w: Write) {
    task.status.Queued? && (admin || task.controller == user) && w.Applied?
  }

  /**
   A clear cancels exactly the queued items of its user (all of them for an administrator)
   whose cancellation could be written.  Every other item waits on, unchanged, or is the next
   to run.
   */
  lemma {:induction false} ClearReachesOwnItems(acts: seq<Action>, user: nat, admin: bool, ws: seq<Write>, wc: Write,
                                                i: nat)
    requires Run(Init, acts).lane.booted && i < |Run(Init, acts).lane.queue|
    ensures var s := Run(Init, acts);
            var item := s.lane.queue[i];
            var t := Step(s, Clear(user, admin, ws, wc));
            if Sweeps(item, user, admin, WriteAt(ws, i))
            then !Waits(t, item.id) && item.id in t.lane.done && t.lane.done[item.id] == item.(status := Cancelled)
            else item.id !in t.lane.done && (item in t.lane.queue || t.lane.active == Some(item.(status := Running)))
  {
    ReachableInv(acts);
    ClearItem(Run(Init, acts), user, admin, ws, wc, i);
  }

  lemma OutOfQueue(q: seq<Task>, left: seq<Task>, i: nat)
    requires Sorted(q) && i < |q| && q[i] !in left && forall task :: task in left ==> task in q
    ensures !InQueue(left, q[i].id)
  {
    forall k | 0 <= k < |left| ensures left[k].id != q[i].id {
      assert left[k] in left;
      var j :| 0 <= j < |q| && q[j] == left[k];
    }
  }

  lemma ClearItem(s: Sys, user: nat, admin: bool, ws: seq<Write>, wc: Write, i: nat)
    requires QueueOk(s) && PlaceOk(s) && i < |s.lane.queue|
    ensures var item := s.lane.queue[i];
            var t := DoClear(s, user, admin, ws, wc);
            if Sweeps(item, user, admin, WriteAt(ws, i))
            then !Waits(t, item.id) && item.id in t.lane.done && t.lane.done[item.id] == item.(status := Cancelled)
            else item.id !in t.lane.done && (item in t.lane.queue || t.lane.active == Some(item.(status := Running)))
  {
    var q := s.lane.queue;
    LiveIsNotDone(s);
    ClearedAt(s.lane.done, q, |q|, user, admin, ws, i);
    var m := Cleared(s, user, admin, ws);
    assert InQueue(q, q[i].id);
    ClaimMoves(m, wc, q[i].id);
    if Sweeps(q[i], user, admin, WriteAt(ws, i)) {
      OutOfQueue(q, m.lane.queue, i);
    } else if m.lane.queue[0] != q[i] {
      var k :| 0 <= k < |m.lane.queue| && m.lane.queue[k] == q[i];
      assert m.lane.queue[1..][k - 1] == q[i];
    }
  }
}
