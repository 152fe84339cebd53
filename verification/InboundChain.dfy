/**
 Inbound dispatch: messages of one channel and chat are handled one after the
 other, in receive order, by goroutines that wait for their predecessor; the
 ingress map holds the tail of each live chain.  Cancellation lets a waiting
 goroutine leave without handling its message.
 */
module InboundChain {
  import opened Prelude

  /** `Closing` is between closing the done channel and the second locked section. */
  datatype Phase = Waiting | Handling | Closing | Gone

  datatype Job = Job(key: nat, previous: Option<nat>, phase: Phase, skipped: bool)

  /** `handled` lists the jobs in the order in which their handler was entered. */
  datatype Ingress = Ingress(jobs: seq<Job>, tail: map<nat, nat>, cancelled: bool, handled: seq<nat>)

  datatype Action =
    | Receive(key: nat)
    | Enter(job: nat)
    | Skip(job: nat)
    | Return(job: nat)
    | Remove(job: nat)
    | Cancel

  const EMPTY := Ingress([], map[], false, [])

  predicate Closed(job: Job) {
    job.phase.Closing? || job.phase.Gone?
  }

  /** The predecessor, if there was one, has closed its channel. */
  predicate Free(s: Ingress, i: nat)
    requires i < |s.jobs|
  {
    var p := s.jobs[i].previous;
    p.None? || (p.value < |s.jobs| && Closed(s.jobs[p.value]))
  }

  function Advance(s: Ingress, i: nat, phase: Phase): Ingress
    requires i < |s.jobs|
  {
    s.(jobs := s.jobs[i := s.jobs[i].(phase := phase)])
  }

  function Step(s: Ingress, a: Action): Ingress {
    match a
    case Receive(key) =>
      var previous := if key in s.tail then Some(s.tail[key]) else None;
      s.(jobs := s.jobs + [Job(key, previous, Waiting, false)], tail := s.tail[key := |s.jobs|])
    case Enter(i) =>
      if i < |s.jobs| && s.jobs[i].phase.Waiting? && Free(s, i)
      then Advance(s, i, Handling).(handled := s.handled + [i]) else s
    case Skip(i) =>
      if i < |s.jobs| && s.jobs[i].phase.Waiting? && s.cancelled && s.jobs[i].previous.Some?
      then s.(jobs := s.jobs[i := s.jobs[i].(phase := Closing, skipped := true)]) else s
    case Return(i) =>
      if i < |s.jobs| && s.jobs[i].phase.Handling? then Advance(s, i, Closing) else s
    case Remove(i) =>
      if i < |s.jobs| && s.jobs[i].phase.Closing? then
        var key := s.jobs[i].key;
        var tail := if key in s.tail && s.tail[key] == i then s.tail - {key} else s.tail;
        Advance(s, i, Gone).(tail := tail)
      else s
    case Cancel => s.(cancelled := true)
  }

  function Run(s: Ingress, acts: seq<Action>): Ingress {
    if acts == [] then s else Step(Run(s, acts[..|acts| - 1]), acts[|acts| - 1])
  }

  // ---------------------------------------------------------------- invariant

  /** Between `i` and `j`, or at `j`, a job of the same chat left without waiting. */
  ghost predicate Excused(jobs: seq<Job>, i: nat, j: nat) {
    exists k :: i < k <= j && k < |jobs| && jobs[k].skipped && i < |jobs| && jobs[k].key == jobs[i].key
  }

  /** Every earlier job of the chat of `j` is closed, or a skip lies between. */
  ghost predicate Clear(jobs: seq<Job>, j: nat)
    requires j < |jobs|
  {
    forall i :: 0 <= i < j && jobs[i].key == jobs[j].key ==> Closed(jobs[i]) || Excused(jobs, i, j)
  }

  ghost predicate IsLast(jobs: seq<Job>, i: nat, key: nat) {
    i < |jobs| && jobs[i].key == key && forall k :: i < k < |jobs| ==> jobs[k].key != key
  }

  ghost predicate Linked(jobs: seq<Job>, i: nat)
    requires i < |jobs|
  {
    match jobs[i].previous
    case None => Clear(jobs, i)
    case Some(p) => p < i && jobs[p].key == jobs[i].key && forall k :: p < k < i ==> jobs[k].key != jobs[i].key
  }

  ghost predicate JobsOk(jobs: seq<Job>) {
    && (forall i :: 0 <= i < |jobs| ==> Linked(jobs, i))
    && (forall i :: 0 <= i < |jobs| && !jobs[i].phase.Waiting? ==> Clear(jobs, i))
    && (forall i :: 0 <= i < |jobs| && jobs[i].skipped ==> Closed(jobs[i]))
  }

  /** The map holds exactly the last job of every chat that is not drained. */
  ghost predicate TailOk(s: Ingress) {
    && (forall key :: key in s.tail ==> IsLast(s.jobs, s.tail[key], key) && !s.jobs[s.tail[key]].phase.Gone?)
    && (forall i :: 0 <= i < |s.jobs| && s.jobs[i].key !in s.tail ==>
          s.jobs[i].phase.Gone? || !IsLast(s.jobs, i, s.jobs[i].key))
  }

  ghost predicate HandledOk(s: Ingress) {
    && (forall a :: 0 <= a < |s.handled| ==> s.handled[a] < |s.jobs| && !s.jobs[s.handled[a]].phase.Waiting?)
    && (forall i :: 0 <= i < |s.jobs| && s.jobs[i].phase.Handling? ==> i in s.handled)
    && (forall a, b :: 0 <= a < b < |s.handled| && s.jobs[s.handled[a]].key == s.jobs[s.handled[b]].key ==>
          s.handled[a] < s.handled[b] || Excused(s.jobs, s.handled[b], s.handled[a]))
  }

  ghost predicate Inv(s: Ingress) {
    JobsOk(s.jobs) && TailOk(s) && HandledOk(s)
  }

  // ---------------------------------------------------------------- each step

  /** Jobs only move forward. */
  ghost predicate Evolves(a: seq<Job>, b: seq<Job>) {
    && |a| <= |b|
    && forall i :: 0 <= i < |a| ==>
         && b[i].key == a[i].key && b[i].previous == a[i].previous
         && (Closed(a[i]) ==> Closed(b[i])) && (a[i].skipped ==> b[i].skipped)
  }

  lemma ExcusedStays(a: seq<Job>, b: seq<Job>, i: nat, j: nat)
    requires Evolves(a, b) && Excused(a, i, j)
    ensures Excused(b, i, j)
  {
    var k :| i < k <= j && k < |a| && a[k].skipped && a[k].key == a[i].key;
    assert b[k].skipped && b[k].key == b[i].key;
  }

  lemma ExcusedLater(jobs: seq<Job>, i: nat, j: nat, m: nat)
    requires Excused(jobs, i, j) && j <= m
    ensures Excused(jobs, i, m)
  {}

  lemma ClearStays(a: seq<Job>, b: seq<Job>, j: nat)
    requires Evolves(a, b) && j < |a| && Clear(a, j)
    ensures Clear(b, j)
  {
    forall i | 0 <= i < j && b[i].key == b[j].key && !Closed(b[i]) ensures Excused(b, i, j) {
      ExcusedStays(a, b, i, j);
    }
  }

  /** All earlier jobs of a chat are clear of a job behind its last one. */
  lemma ClearBehind(jobs: seq<Job>, last: nat, j: nat)
    requires last < j < |jobs| && jobs[last].key == jobs[j].key && Closed(jobs[last]) && Clear(jobs, last)
    requires forall k :: last < k < j ==> jobs[k].key != jobs[j].key
    ensures Clear(jobs, j)
  {
    forall i | 0 <= i < j && jobs[i].key == jobs[j].key && !Closed(jobs[i]) ensures Excused(jobs, i, j) {
      ExcusedLater(jobs, i, last, j);
    }
  }

  /** A job that may enter has nobody open before it, except across a skip. */
  lemma FreeIsClear(s: Ingress, i: nat)
    requires JobsOk(s.jobs) && i < |s.jobs| && Free(s, i)
    ensures Clear(s.jobs, i)
  {
    assert Linked(s.jobs, i);
    if s.jobs[i].previous.Some? {
      ClearBehind(s.jobs, s.jobs[i].previous.value, i);
    }
  }

  lemma JobsStay(a: seq<Job>, b: seq<Job>, i: nat)
    requires JobsOk(a) && Evolves(a, b) && |a| == |b| && i < |a| && b == a[i := b[i]]
    requires !b[i].phase.Waiting? ==> Clear(b, i)
    requires b[i].skipped ==> Closed(b[i])
    ensures JobsOk(b)
  {
    forall n | 0 <= n < |b| ensures Linked(b, n) {
      assert Linked(a, n);
      if a[n].previous.None? {
        ClearStays(a, b, n);
      }
    }
    forall n | 0 <= n < |b| && !b[n].phase.Waiting? ensures Clear(b, n) {
      if n != i {
        ClearStays(a, b, n);
      }
    }
  }

  lemma HandledStays(s: Ingress, t: Ingress)
    requires HandledOk(s) && Evolves(s.jobs, t.jobs) && t.handled == s.handled
    requires forall i :: 0 <= i < |s.jobs| && !s.jobs[i].phase.Waiting? ==> !t.jobs[i].phase.Waiting?
    requires forall i :: 0 <= i < |t.jobs| && t.jobs[i].phase.Handling? ==> i < |s.jobs| && s.jobs[i].phase.Handling?
    ensures HandledOk(t)
  {
    forall a, b | 0 <= a < b < |t.handled| && t.jobs[t.handled[a]].key == t.jobs[t.handled[b]].key
      ensures t.handled[a] < t.handled[b] || Excused(t.jobs, t.handled[b], t.handled[a]) {
      if t.handled[a] >= t.handled[b] {
        ExcusedStays(s.jobs, t.jobs, t.handled[b], t.handled[a]);
      }
    }
  }

  lemma ReceiveKeeps(s: Ingress, key: nat)
    requires Inv(s)
    ensures Inv(Step(s, Receive(key)))
  {
    ReceiveJobs(s, key);
    ReceiveTail(s, key);
    HandledStays(s, Step(s, Receive(key)));
  }

  lemma ReceiveTail(s: Ingress, key: nat)
    requires TailOk(s)
    ensures TailOk(Step(s, Receive(key)))
  {
    var t := Step(s, Receive(key));
    forall i | 0 <= i < |t.jobs| && t.jobs[i].key !in t.tail
      ensures t.jobs[i].phase.Gone? || !IsLast(t.jobs, i, t.jobs[i].key)
    {
      if !t.jobs[i].phase.Gone? {
        var k :| i < k < |s.jobs| && s.jobs[k].key == s.jobs[i].key;
        assert t.jobs[k].key == t.jobs[i].key;
      }
    }
  }

  lemma ReceiveJobs(s: Ingress, key: nat)
    requires JobsOk(s.jobs) && TailOk(s)
    ensures JobsOk(Step(s, Receive(key)).jobs)
  {
    var t := Step(s, Receive(key));
    var n := |s.jobs|;
    assert Evolves(s.jobs, t.jobs);
    forall i | 0 <= i < n && !s.jobs[i].phase.Waiting? ensures Clear(t.jobs, i) {
      ClearStays(s.jobs, t.jobs, i);
    }
    forall i | 0 <= i < n ensures Linked(t.jobs, i) {
      assert Linked(s.jobs, i);
      if s.jobs[i].previous.None? {
        ClearStays(s.jobs, t.jobs, i);
      }
    }
    if key !in s.tail {
      ReceivedClear(s, t, key);
    }
  }

  /** A message that finds no tail comes after a drained chain. */
  lemma ReceivedClear(s: Ingress, t: Ingress, key: nat)
    requires TailOk(s) && key !in s.tail && t == Step(s, Receive(key))
    requires forall i :: 0 <= i < |s.jobs| && !s.jobs[i].phase.Waiting? ==> Clear(t.jobs, i)
    ensures Clear(t.jobs, |s.jobs|)
  {
    var n := |s.jobs|;
    if i :| 0 <= i < n && s.jobs[i].key == key {
      var last := LastOf(s.jobs, key, i);
      ClearBehind(t.jobs, last, n);
    }
  }

  lemma {:induction false} LastOf(jobs: seq<Job>, key: nat, i: nat) returns (last: nat)
    requires i < |jobs| && jobs[i].key == key
    ensures IsLast(jobs, last, key)
    decreases |jobs| - i
  {
    last := i;
    if k :| i < k < |jobs| && jobs[k].key == key {
      last := LastOf(jobs, key, k);
    }
  }

  lemma EnterKeeps(s: Ingress, i: nat)
    requires Inv(s)
    ensures Inv(Step(s, Enter(i)))
  {
    if i < |s.jobs| && s.jobs[i].phase.Waiting? && Free(s, i) {
      var t := Step(s, Enter(i));
      FreeIsClear(s, i);
      ClearStays(s.jobs, t.jobs, i);
      JobsStay(s.jobs, t.jobs, i);
      TailStays(s, t, i);
      EnterHandled(s, i);
    }
  }

  /** The tail does not depend on anything but keys and departures. */
  lemma TailStays(s: Ingress, t: Ingress, i: nat)
    requires TailOk(s) && t.tail == s.tail && i < |s.jobs| && |t.jobs| == |s.jobs| && t.jobs == s.jobs[i := t.jobs[i]]
    requires t.jobs[i].key == s.jobs[i].key && !s.jobs[i].phase.Gone? && !t.jobs[i].phase.Gone?
    ensures TailOk(t)
  {
    forall n | 0 <= n < |t.jobs| && t.jobs[n].key !in t.tail
      ensures t.jobs[n].phase.Gone? || !IsLast(t.jobs, n, t.jobs[n].key) {
      if !s.jobs[n].phase.Gone? {
        assert !IsLast(s.jobs, n, s.jobs[n].key);
        var k :| n < k < |s.jobs| && s.jobs[k].key == s.jobs[n].key;
        assert t.jobs[k].key == t.jobs[n].key;
      }
    }
  }

  lemma RemoveTail(s: Ingress, i: nat)
    requires TailOk(s) && i < |s.jobs| && s.jobs[i].phase.Closing?
    ensures TailOk(Step(s, Remove(i)))
  {
    var t := Step(s, Remove(i));
    forall n | 0 <= n < |t.jobs| && t.jobs[n].key !in t.tail
      ensures t.jobs[n].phase.Gone? || !IsLast(t.jobs, n, t.jobs[n].key) {
      if n != i && !s.jobs[n].phase.Gone? {
        if s.jobs[n].key == s.jobs[i].key && s.jobs[i].key in s.tail && n < i {
          assert t.jobs[i].key == t.jobs[n].key;
        } else if s.jobs[n].key !in s.tail {
          var k :| n < k < |s.jobs| && s.jobs[k].key == s.jobs[n].key;
          assert t.jobs[k].key == t.jobs[n].key;
        }
      }
    }
  }

  lemma EnterHandled(s: Ingress, i: nat)
    requires JobsOk(s.jobs) && HandledOk(s) && i < |s.jobs| && s.jobs[i].phase.Waiting? && Free(s, i)
    ensures HandledOk(Step(s, Enter(i)))
  {
    var t := Step(s, Enter(i));
    assert Evolves(s.jobs, t.jobs);
    forall a, b | 0 <= a < b < |t.handled| && t.jobs[t.handled[a]].key == t.jobs[t.handled[b]].key
      ensures t.handled[a] < t.handled[b] || Excused(t.jobs, t.handled[b], t.handled[a]) {
      var x, y := t.handled[a], t.handled[b];
      assert s.handled[a] == x;
      if x >= y {
        if b < |s.handled| {
          ExcusedStays(s.jobs, t.jobs, y, x);
        } else {
          assert Clear(s.jobs, x) && y == i && x != i;
          ExcusedStays(s.jobs, t.jobs, y, x);
        }
      }
    }
    assert t.handled[|s.handled|] == i;
    forall n | 0 <= n < |t.jobs| && t.jobs[n].phase.Handling? ensures n in t.handled {
      assert n == i || n in s.handled;
    }
  }

  lemma SkipKeeps(s: Ingress, i: nat)
    requires Inv(s)
    ensures Inv(Step(s, Skip(i)))
  {
    if i < |s.jobs| && s.jobs[i].phase.Waiting? && s.cancelled && s.jobs[i].previous.Some? {
      var t := Step(s, Skip(i));
      forall n | 0 <= n < i && t.jobs[n].key == t.jobs[i].key ensures Excused(t.jobs, n, i) {
        assert t.jobs[i].skipped;
      }
      JobsStay(s.jobs, t.jobs, i);
      TailStays(s, t, i);
      HandledStays(s, t);
    }
  }

  lemma ReturnKeeps(s: Ingress, i: nat)
    requires Inv(s)
    ensures Inv(Step(s, Return(i)))
  {
    if i < |s.jobs| && s.jobs[i].phase.Handling? {
      var t := Step(s, Return(i));
      ClearStays(s.jobs, t.jobs, i);
      JobsStay(s.jobs, t.jobs, i);
      TailStays(s, t, i);
      HandledStays(s, t);
    }
  }

  lemma RemoveKeeps(s: Ingress, i: nat)
    requires Inv(s)
    ensures Inv(Step(s, Remove(i)))
  {
    if i < |s.jobs| && s.jobs[i].phase.Closing? {
      var t := Step(s, Remove(i));
      ClearStays(s.jobs, t.jobs, i);
      JobsStay(s.jobs, t.jobs, i);
      RemoveTail(s, i);
      HandledStays(s, t);
    }
  }

  lemma StepKeeps(s: Ingress, a: Action)
    requires Inv(s)
    ensures Inv(Step(s, a))
  {
    match a
    case Receive(key) => ReceiveKeeps(s, key);
    case Enter(i) => EnterKeeps(s, i);
    case Skip(i) => SkipKeeps(s, i);
    case Return(i) => ReturnKeeps(s, i);
    case Remove(i) => RemoveKeeps(s, i);
    case Cancel =>
  }

  lemma {:induction false} RunInv(acts: seq<Action>)
    ensures Inv(Run(EMPTY, acts))
  {
    if acts == [] {
    } else {
      RunInv(acts[..|acts| - 1]);
      StepKeeps(Run(EMPTY, acts[..|acts| - 1]), acts[|acts| - 1]);
    }
  }

  // ---------------------------------------------------------------- theorems

  ghost predicate NoCancel(acts: seq<Action>) {
    forall i :: 0 <= i < |acts| ==> !acts[i].Cancel?
  }

  lemma {:induction false} NoSkipWithoutCancel(acts: seq<Action>)
    requires NoCancel(acts)
    ensures !Run(EMPTY, acts).cancelled && forall i :: 0 <= i < |Run(EMPTY, acts).jobs| ==>
          !Run(EMPTY, acts).jobs[i].skipped
  {
    if acts == [] {
    } else {
      NoSkipWithoutCancel(acts[..|acts| - 1]);
    }
  }

  /** Once a message is being handled or done, all earlier ones of its chat are done. */
  ghost predicate Exclusive(jobs: seq<Job>) {
    forall i, j :: 0 <= i < j < |jobs| && jobs[i].key == jobs[j].key && !jobs[j].phase.Waiting? ==> Closed(jobs[i])
  }

  /** Without cancellation handlers of one chat never overlap and run in receive order. */
  lemma {:induction false} ReceiveOrder(acts: seq<Action>)
    requires NoCancel(acts)
    ensures var s := Run(EMPTY, acts);
            && Exclusive(s.jobs) && (forall a :: 0 <= a < |s.handled| ==> s.handled[a] < |s.jobs|)
            && forall a, b :: 0 <= a < b < |s.handled| && s.jobs[s.handled[a]].key == s.jobs[s.handled[b]].key ==>
                 s.handled[a] < s.handled[b]
  {
    RunInv(acts);
    NoSkipWithoutCancel(acts);
    var s := Run(EMPTY, acts);
    forall i, j | 0 <= i < j < |s.jobs| && s.jobs[i].key == s.jobs[j].key && !s.jobs[j].phase.Waiting?
      ensures Closed(s.jobs[i]) {
      assert Clear(s.jobs, j);
    }
  }

  /** A waiting message may enter exactly when its own chat is done: no other chat can hold it up. */
  lemma {:induction false} OnlyOwnChatBlocks(acts: seq<Action>, i: nat)
    requires NoCancel(acts) && i < |Run(EMPTY, acts).jobs|
    ensures var s := Run(EMPTY, acts);
            Free(s, i) <==> forall n :: 0 <= n < i && s.jobs[n].key == s.jobs[i].key ==> Closed(s.jobs[n])
  {
    RunInv(acts);
    NoSkipWithoutCancel(acts);
    var s := Run(EMPTY, acts);
    assert Linked(s.jobs, i);
    if Free(s, i) {
      FreeIsClear(s, i);
    }
  }

  /** The map entry of a chat is its last message, and it is there exactly until that one is gone. */
  lemma {:induction false} TailIsTheLiveEnd(acts: seq<Action>, key: nat)
    ensures var s := Run(EMPTY, acts);
            && (key in s.tail ==> IsLast(s.jobs, s.tail[key], key))
            && (key in s.tail <==> exists i: nat :: IsLast(s.jobs, i, key) && !s.jobs[i].phase.Gone?)
  {
    RunInv(acts);
    var s := Run(EMPTY, acts);
    if key in s.tail {
      assert IsLast(s.jobs, s.tail[key], key);
    } else {
      forall i: nat | IsLast(s.jobs, i, key) ensures s.jobs[i].phase.Gone? {
        assert s.jobs[i].key !in s.tail;
      }
    }
  }

  /** With cancellation an overlap needs a skipped message in between. */
  lemma {:induction false} OverlapNeedsSkip(acts: seq<Action>, i: nat, j: nat)
    requires i < j < |Run(EMPTY, acts).jobs| && Run(EMPTY, acts).jobs[i].key == Run(EMPTY, acts).jobs[j].key
    requires !Run(EMPTY, acts).jobs[j].phase.Waiting? && !Closed(Run(EMPTY, acts).jobs[i])
    ensures Excused(Run(EMPTY, acts).jobs, i, j)
  {
    RunInv(acts);
    assert Clear(Run(EMPTY, acts).jobs, j);
  }

  // ---------------------------------------------------------------- exactly when a skip matters

  /** Two messages of one chat are being handled. */
  ghost predicate Overlap(jobs: seq<Job>) {
    exists i, j :: 0 <= i < j < |jobs| && jobs[i].key == jobs[j].key
      && jobs[i].phase.Handling? && jobs[j].phase.Handling?
  }

  ghost predicate NoSkip(acts: seq<Action>) {
    forall i :: 0 <= i < |acts| ==> !acts[i].Skip?
  }

  /** Unless another waiter gives up, no two messages of one chat will ever be handled at once. */
  ghost predicate Tight(s: Ingress) {
    forall more: seq<Action> :: NoSkip(more) ==> !Overlap(Run(s, more).jobs)
  }

  /** A message enters only when everyone before it in its chat is done. */
  lemma EnterIsExclusive(s: Ingress, i: nat)
    requires Inv(s) && Exclusive(s.jobs)
    ensures Exclusive(Step(s, Enter(i)).jobs)
  {
    if i < |s.jobs| && s.jobs[i].phase.Waiting? && Free(s, i) {
      FreeIsClear(s, i);
      forall n | 0 <= n < i && s.jobs[n].key == s.jobs[i].key ensures Closed(s.jobs[n]) {
        if Excused(s.jobs, n, i) {
          var k :| n < k <= i && k < |s.jobs| && s.jobs[k].skipped && s.jobs[k].key == s.jobs[n].key;
          assert Closed(s.jobs[k]);
        }
      }
    }
  }

  lemma StepIsExclusive(s: Ingress, a: Action)
    requires Inv(s) && Exclusive(s.jobs) && !a.Skip?
    ensures Exclusive(Step(s, a).jobs)
  {
    if a.Enter? {
      EnterIsExclusive(s, a.job);
    }
  }

  lemma {:induction false} ExclusiveIsTight(s: Ingress, more: seq<Action>)
    requires Inv(s) && Exclusive(s.jobs) && NoSkip(more)
    ensures Inv(Run(s, more)) && Exclusive(Run(s, more).jobs) && !Overlap(Run(s, more).jobs)
  {
    if more == [] {
    } else {
      var pre := more[..|more| - 1];
      ExclusiveIsTight(s, pre);
      StepKeeps(Run(s, pre), more[|more| - 1]);
      StepIsExclusive(Run(s, pre), more[|more| - 1]);
    }
  }

  /** The first message of a chat that is not done can be handled at once. */
  lemma {:induction false} FirstOpen(jobs: seq<Job>, i: nat) returns (first: nat)
    requires i < |jobs| && !Closed(jobs[i])
    ensures first <= i && jobs[first].key == jobs[i].key && !Closed(jobs[first])
    ensures forall n :: 0 <= n < first && jobs[n].key == jobs[i].key ==> Closed(jobs[n])
    decreases i
  {
    first := i;
    if n :| 0 <= n < i && jobs[n].key == jobs[i].key && !Closed(jobs[n]) {
      first := FirstOpen(jobs, n);
    }
  }

  /** The last message of a chat that has been let in. */
  lemma {:induction false} LastEntered(jobs: seq<Job>, j: nat) returns (last: nat)
    requires j < |jobs| && !jobs[j].phase.Waiting?
    ensures j <= last < |jobs| && jobs[last].key == jobs[j].key && !jobs[last].phase.Waiting?
    ensures forall n :: last < n < |jobs| && jobs[n].key == jobs[j].key ==> jobs[n].phase.Waiting?
    decreases |jobs| - j
  {
    last := j;
    if n :| j < n < |jobs| && jobs[n].key == jobs[j].key && !jobs[n].phase.Waiting? {
      last := LastEntered(jobs, n);
    }
  }

  lemma FirstIsFree(s: Ingress, first: nat)
    requires first < |s.jobs| && Linked(s.jobs, first)
    requires forall n :: 0 <= n < first && s.jobs[n].key == s.jobs[first].key ==> Closed(s.jobs[n])
    ensures Free(s, first)
  {}

  /** Let the first open message in. */
  lemma EnterFirst(s: Ingress, first: nat)
    requires Inv(s) && first < |s.jobs| && !Closed(s.jobs[first])
    requires forall n :: 0 <= n < first && s.jobs[n].key == s.jobs[first].key ==> Closed(s.jobs[n])
    ensures var t := Step(s, Enter(first));
            && Inv(t) && t.tail == s.tail
            && t.jobs == s.jobs[first := s.jobs[first].(phase := Handling)]
  {
    EnterKeeps(s, first);
    if s.jobs[first].phase.Waiting? {
      FirstIsFree(s, first);
    } else {
      assert s.jobs[first].(phase := Handling) == s.jobs[first];
    }
  }

  /** Some message behind the handled one enters. */
  lemma EnterBehind(s: Ingress, first: nat, n: nat)
    requires first < n < |s.jobs| && s.jobs[first].key == s.jobs[n].key && s.jobs[first].phase.Handling?
    requires s.jobs[n].phase.Waiting? && Free(s, n)
    ensures Overlap(Step(s, Enter(n)).jobs)
  {
    var t := Step(s, Enter(n));
    assert t.jobs[first] == s.jobs[first] && t.jobs[n].phase.Handling? && t.jobs[n].key == s.jobs[n].key;
  }

  /** The message after a closed one can enter. */
  lemma EnterWaiting(s: Ingress, first: nat, last: nat, next: nat)
    requires first < last < next < |s.jobs| && s.jobs[first].key == s.jobs[last].key == s.jobs[next].key
    requires s.jobs[first].phase.Handling? && Closed(s.jobs[last]) && s.jobs[next].phase.Waiting?
    requires Linked(s.jobs, next) && forall k :: last < k < next ==> s.jobs[k].key != s.jobs[last].key
    ensures NoSkip([Enter(next)]) && Overlap(Run(s, [Enter(next)]).jobs)
  {
    assert [Enter(next)][..0] == [] && Run(s, []) == s;
    assert Free(s, next);
    EnterBehind(s, first, next);
  }

  /** If nobody waits behind a closed message, the next one that arrives can enter. */
  lemma EnterArriving(s: Ingress, first: nat, last: nat)
    requires TailOk(s) && first < last < |s.jobs| && s.jobs[first].key == s.jobs[last].key
    requires s.jobs[first].phase.Handling? && IsLast(s.jobs, last, s.jobs[last].key) && Closed(s.jobs[last])
    ensures var more := [Receive(s.jobs[last].key), Enter(|s.jobs|)]; NoSkip(more) && Overlap(Run(s, more).jobs)
  {
    var key := s.jobs[last].key;
    RunTwo(s, Receive(key), Enter(|s.jobs|));
    ReceivedIsFree(s, key, last);
    EnterBehind(Step(s, Receive(key)), first, |s.jobs|);
  }

  lemma EnterNext(s: Ingress, first: nat, last: nat) returns (more: seq<Action>)
    requires Inv(s) && first < last < |s.jobs| && s.jobs[first].key == s.jobs[last].key
    requires s.jobs[first].phase.Handling? && Closed(s.jobs[last])
    requires forall n :: last < n < |s.jobs| && s.jobs[n].key == s.jobs[last].key ==> s.jobs[n].phase.Waiting?
    ensures NoSkip(more) && Overlap(Run(s, more).jobs)
  {
    if n :| last < n < |s.jobs| && s.jobs[n].key == s.jobs[last].key {
      var next := NextOf(s.jobs, last, n);
      EnterWaiting(s, first, last, next);
      more := [Enter(next)];
    } else {
      EnterArriving(s, first, last);
      more := [Receive(s.jobs[last].key), Enter(|s.jobs|)];
    }
  }

  lemma ReceivedIsFree(s: Ingress, key: nat, last: nat)
    requires TailOk(s) && IsLast(s.jobs, last, key) && Closed(s.jobs[last])
    ensures Free(Step(s, Receive(key)), |s.jobs|)
  {
    assert key in s.tail ==> s.tail[key] == last;
  }

  lemma RunTwo(s: Ingress, a: Action, b: Action)
    ensures Run(s, [a, b]) == Step(Step(s, a), b)
  {
    assert [a, b][..1] == [a] && [a][..0] == [];
    assert Run(s, [a]) == Step(Run(s, []), a);
  }

  lemma {:induction false} NextOf(jobs: seq<Job>, last: nat, n: nat) returns (next: nat)
    requires last < n < |jobs| && jobs[n].key == jobs[last].key
    ensures last < next < |jobs| && jobs[next].key == jobs[last].key
    ensures forall k :: last < k < next ==> jobs[k].key != jobs[last].key
    decreases n
  {
    next := n;
    if k :| last < k < n && jobs[k].key == jobs[last].key {
      next := NextOf(jobs, last, k);
    }
  }

  lemma {:induction false} RunConcat(s: Ingress, a: seq<Action>, b: seq<Action>)
    ensures Run(s, a + b) == Run(Run(s, a), b)
  {
    if b == [] {
      assert a + b == a;
    } else {
      var pre := b[..|b| - 1];
      assert (a + b)[..|a + b| - 1] == a + pre;
      RunConcat(s, a, pre);
    }
  }

  /** A message let in before an earlier one is done leads to an overlap. */
  lemma LooseOverlaps(s: Ingress, i: nat, j: nat) returns (more: seq<Action>)
    requires Inv(s) && i < j < |s.jobs| && s.jobs[i].key == s.jobs[j].key
    requires !s.jobs[j].phase.Waiting? && !Closed(s.jobs[i])
    ensures NoSkip(more) && Overlap(Run(s, more).jobs)
  {
    var first := FirstOpen(s.jobs, i);
    var last := LastEntered(s.jobs, j);
    EnterFirst(s, first);
    var t := Step(s, Enter(first));
    var a := [Enter(first)];
    assert a[..0] == [] && Run(s, a) == t;
    if t.jobs[last].phase.Handling? {
      more := a;
      assert t.jobs[first].key == t.jobs[last].key;
    } else {
      var b := EnterNext(t, first, last);
      more := a + b;
      RunConcat(s, a, b);
    }
  }

  /** Reachable or not: overlaps are ruled out exactly by everyone before being done. */
  lemma TightExactly(s: Ingress)
    requires Inv(s)
    ensures Tight(s) <==> Exclusive(s.jobs)
  {
    if Exclusive(s.jobs) {
      forall more: seq<Action> | NoSkip(more) ensures !Overlap(Run(s, more).jobs) {
        ExclusiveIsTight(s, more);
      }
    } else {
      var i, j :| 0 <= i < j < |s.jobs| && s.jobs[i].key == s.jobs[j].key
                    && !s.jobs[j].phase.Waiting? && !Closed(s.jobs[i]);
      var more := LooseOverlaps(s, i, j);
    }
  }

  /**
   A waiter gives up in a state from which no overlap was possible.  It stays impossible
   (until another waiter gives up) if and only if everyone before it in its chat is done.
   */
  lemma {:induction false} SkipIsHarmlessExactly(acts: seq<Action>, i: nat)
    requires var s := Run(EMPTY, acts);
             i < |s.jobs| && s.jobs[i].phase.Waiting? && s.cancelled && s.jobs[i].previous.Some? && Tight(s)
    ensures var s := Run(EMPTY, acts);
            Tight(Step(s, Skip(i))) <==>
            forall n :: 0 <= n < i && s.jobs[n].key == s.jobs[i].key ==> Closed(s.jobs[n])
  {
    var s := Run(EMPTY, acts);
    RunInv(acts);
    SkipKeeps(s, i);
    TightExactly(s);
    TightExactly(Step(s, Skip(i)));
    SkipExclusive(s, i);
  }

  lemma SkipExclusive(s: Ingress, i: nat)
    requires i < |s.jobs| && s.jobs[i].phase.Waiting? && s.cancelled && s.jobs[i].previous.Some? && Exclusive(s.jobs)
    ensures Exclusive(Step(s, Skip(i)).jobs) <==>
            forall n :: 0 <= n < i && s.jobs[n].key == s.jobs[i].key ==> Closed(s.jobs[n])
  {
    var t := Step(s, Skip(i));
    if Exclusive(t.jobs) {
      forall n | 0 <= n < i && s.jobs[n].key == s.jobs[i].key ensures Closed(s.jobs[n]) {
        assert t.jobs[n].key == t.jobs[i].key && !t.jobs[i].phase.Waiting?;
        assert Closed(t.jobs[n]);
      }
    }
  }

  lemma RunSnoc(s: Ingress, acts: seq<Action>, a: Action)
    ensures Run(s, acts + [a]) == Step(Run(s, acts), a)
  {
    assert (acts + [a])[..|acts|] == acts;
  }

  const Arrivals: seq<Action> := [Receive(5), Receive(5)] + [Receive(5)]
  const OverlapRun: seq<Action> := Arrivals + [Enter(0)] + [Cancel] + [Skip(1)] + [Enter(2)]

  function Queued(first: Phase, second: Phase, skipped: bool, third: Phase): seq<Job> {
    [Job(5, None, first, false), Job(5, Some(0), second, skipped), Job(5, Some(1), third, false)]
  }

  lemma ThreeArrive()
    ensures Run(EMPTY, Arrivals) == Ingress(Queued(Waiting, Waiting, false, Waiting), map[5 := 2], false, [])
  {
    RunTwo(EMPTY, Receive(5), Receive(5));
    RunSnoc(EMPTY, [Receive(5), Receive(5)], Receive(5));
  }

  lemma FirstEnters()
    ensures Run(EMPTY, Arrivals + [Enter(0)]) ==
            Ingress(Queued(Handling, Waiting, false, Waiting), map[5 := 2], false, [0])
  {
    ThreeArrive();
    RunSnoc(EMPTY, Arrivals, Enter(0));
  }

  lemma SecondGivesUp()
    ensures Run(EMPTY, Arrivals + [Enter(0)] + [Cancel] + [Skip(1)]) ==
            Ingress(Queued(Handling, Closing, true, Waiting), map[5 := 2], true, [0])
  {
    FirstEnters();
    RunSnoc(EMPTY, Arrivals + [Enter(0)], Cancel);
    RunSnoc(EMPTY, Arrivals + [Enter(0)] + [Cancel], Skip(1));
  }

  /** Three messages of one chat: the second gives up, the third is handled beside the first. */
  lemma CancellationOverlaps()
    ensures var s := Run(EMPTY, OverlapRun);
            |s.jobs| == 3 && s.jobs[0].phase.Handling? && s.jobs[2].phase.Handling? && s.jobs[0].key == s.jobs[2].key
  {
    SecondGivesUp();
    RunSnoc(EMPTY, Arrivals + [Enter(0)] + [Cancel] + [Skip(1)], Enter(2));
  }
}
