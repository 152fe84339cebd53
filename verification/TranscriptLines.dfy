/**
 What is published, told line by line: an event belongs to a complete line that carries
 a message id and is not older than retention, parsed in the state that the lines before
 it leave.  Nothing here speaks of scans or of the fold.
 */
module TranscriptLines {
  import opened Prelude
  import opened TranscriptFold
  import opened TranscriptTail
  import opened TranscriptTailTheorems

  /** The line is not blank and carries a message id. */
  predicate Identified<S, E>(p: Parser<S, E>, line: Bytes) {
    p.trim(line) != [] && p.id(p.trim(line)) != ""
  }

  /** The parser's state behind the lines of `b`. */
  function StateBehind<S, E>(p: Parser<S, E>, b: Bytes): S
    decreases |b|
  {
    if b == [] then p.init
    else
      var start := LastBreak(b[..|b| - 1]);
      var state := StateBehind(p, b[..start]);
      if !Identified(p, b[start..]) then state else p.parse(state, p.trim(b[start..]), start).state
  }

  /** The line `content[start..end]` yields this event. */
  ghost predicate Yields<S, E>(p: Parser<S, E>, content: Bytes, start: nat, end: nat, e: E) {
    && IsLine(content, start, end) && Identified(p, content[start..end])
    && var parsed := p.parse(StateBehind(p, content[..start]), p.trim(content[start..end]), start);
       !parsed.stale && e in parsed.events
  }

  /** Some line among the first `n` bytes yields it. */
  ghost predicate Yielded<S, E>(p: Parser<S, E>, content: Bytes, n: nat, e: E) {
    exists start: nat, end: nat :: end <= n && Yields(p, content, start, end, e)
  }

  lemma YieldsOfPrefix<S, E>(p: Parser<S, E>, content: Bytes, n: nat, start: nat, end: nat, e: E)
    requires end <= n <= |content|
    ensures Yields(p, content[..n], start, end, e) <==> Yields(p, content, start, end, e)
  {
    if start < end {
      assert content[..n][..start] == content[..start] && content[..n][start..end] == content[start..end];
      assert forall i :: start <= i < end ==> content[..n][i] == content[i];
    }
  }

  /** The last line of complete content. */
  ghost predicate LastYields<S, E>(p: Parser<S, E>, b: Bytes, e: E)
    requires b != []
  {
    Yields(p, b, LastBreak(b[..|b| - 1]), |b|, e)
  }

  lemma LineIsEarlier(b: Bytes, start: nat, end: nat)
    requires b != [] && Whole(b) && IsLine(b, start, end)
    ensures var last := LastBreak(b[..|b| - 1]);
            IsLine(b, last, |b|) && (end <= last || (start == last && end == |b|))
  {
    LineBefore(b);
    var last := LastBreak(b[..|b| - 1]);
    assert start > 0 ==> b[..start][start - 1] == b[start - 1];
    assert last > 0 ==> b[..last][last - 1] == b[last - 1];
  }

  lemma YieldedSplits<S, E>(p: Parser<S, E>, b: Bytes, e: E)
    requires b != [] && Whole(b)
    ensures Yielded(p, b, |b|, e) <==> Yielded(p, b, LastBreak(b[..|b| - 1]), e) || LastYields(p, b, e)
  {
    if start: nat, end: nat :| end <= |b| && Yields(p, b, start, end, e) {
      LineIsEarlier(b, start, end);
    }
  }

  lemma YieldedBefore<S, E>(p: Parser<S, E>, b: Bytes, n: nat, e: E)
    requires n <= |b|
    ensures Yielded(p, b[..n], n, e) <==> Yielded(p, b, n, e)
  {
    if start: nat, end: nat :| end <= n && Yields(p, b[..n], start, end, e) {
      YieldsOfPrefix(p, b, n, start, end, e);
    }
    if start: nat, end: nat :| end <= n && Yields(p, b, start, end, e) {
      YieldsOfPrefix(p, b, n, start, end, e);
    }
  }

  /** The batch read gives exactly what the lines yield. */
  lemma {:induction false} FoldYields<S, E>(p: Parser<S, E>, b: Bytes, e: E)
    requires Whole(b)
    ensures Fold(p, b).state == StateBehind(p, b)
    ensures e in Fold(p, b).events <==> Yielded(p, b, |b|, e)
    decreases |b|
  {
    if b == [] {
    } else {
      var last := LastBreak(b[..|b| - 1]);
      LineBefore(b);
      FoldYields(p, b[..last], e);
      YieldedBefore(p, b, last, e);
      YieldedSplits(p, b, e);
      assert b[last..|b|] == b[last..];
    }
  }

  lemma LineEndsBefore(content: Bytes, start: nat, end: nat)
    requires IsLine(content, start, end)
    ensures end <= LastBreak(content)
  {}

  /** The batch read of a file. */
  lemma {:induction false} BatchYields<S, E>(p: Parser<S, E>, content: Bytes, e: E)
    ensures e in Fold(p, content[..LastBreak(content)]).events <==> Yielded(p, content, |content|, e)
  {
    var n := LastBreak(content);
    FoldYields(p, content[..n], e);
    YieldedBefore(p, content, n, e);
    if start: nat, end: nat :| end <= |content| && Yields(p, content, start, end, e) {
      LineEndsBefore(content, start, end);
    }
  }

  // ---------------------------------------------------------------- every schedule

  /** Whatever the schedule, a published event is one that some line of the file yields. */
  lemma {:induction false} PublishedComesFromLines<S, E>(p: Parser<S, E>, content: Bytes, time: nat,
                                                         acts: seq<Action>, cutoff: nat, e: E)
    requires AllSound(p, Start<S, E>(content, time), acts, cutoff)
    ensures var w := Run(p, Start<S, E>(content, time), acts, cutoff);
            e in w.published ==> exists start: nat, end: nat :: Yields(p, w.content, start, end, e)
  {
    OnlyBatchEvents(p, content, time, acts, cutoff, e);
    BatchYields(p, Run(p, Start<S, E>(content, time), acts, cutoff).content, e);
  }

  lemma DeliveredYields<S, E>(p: Parser<S, E>, content: Bytes, published: set<E>, stamp: Stamp, start: nat, end: nat,
                              e: E)
    requires Delivered(p, content, published, stamp)
    ensures Yields(p, content, start, end, e) && end <= stamp.size ==> e in published
  {
    if Yields(p, content, start, end, e) && end <= stamp.size {
      var seen := content[..stamp.size];
      YieldsOfPrefix(p, content, stamp.size, start, end, e);
      BatchYields(p, seen, e);
      assert seen[..LastBreak(seen)] == content[..LastBreak(seen)];
    }
  }

  /** After a pass without error all that the lines complete at discovery yield is published. */
  lemma {:induction false} PassPublishesLines<S, E>(p: Parser<S, E>, content: Bytes, time: nat, acts: seq<Action>,
                                                    cutoff: nat, start: nat, end: nat, e: E)
    requires AllSound(p, Start<S, E>(content, time), acts, cutoff)
    ensures var w := Run(p, Start<S, E>(content, time), acts, cutoff);
            w.passed.Some? && (w.passed.value.time == 0 || w.passed.value.time >= cutoff)
            && Yields(p, w.content, start, end, e) && end <= w.passed.value.size
            ==> e in w.published
  {
    var w := Run(p, Start<S, E>(content, time), acts, cutoff);
    PassAgreesWithBatch(p, content, time, acts, cutoff);
    if w.passed.Some? {
      assert InWindow(w.passed.value, cutoff) ==> Delivered(p, w.content, w.published, w.passed.value);
    }
    if w.passed.Some? && InWindow(w.passed.value, cutoff) {
      DeliveredYields(p, w.content, w.published, w.passed.value, start, end, e);
    }
  }

  /** A file last written before the retention window is not opened, and nothing of it is published. */
  lemma OldFileIsNotOpened<S, E>(p: Parser<S, E>, w: World<S, E>, a: Action, cutoff: nat)
    requires w.phase.Found? && w.phase.stamp.time != 0 && w.phase.stamp.time < cutoff
    ensures var t := Step(p, w, a, cutoff);
            t.published == w.published && t.cursor == w.cursor && !t.phase.Open?
  {}

  /** A file that looks as it did at the end of the last pass, or is too old, is passed without being opened. */
  lemma SkipIsAPass<S, E>(p: Parser<S, E>, w: World<S, E>, cutoff: nat)
    requires w.phase.Found?
    requires var stamp := w.phase.stamp; w.scanned == Some(stamp) || (stamp.time != 0 && stamp.time < cutoff)
    ensures var t := Step(p, w, Skip, cutoff);
            && t.phase.Idle? && t.passed == Some(w.phase.stamp)
            && t.published == w.published && t.cursor == w.cursor
  {}

  /** A write that reports failure may leave what a successful one leaves, but the scan ends. */
  lemma FailuresMayTakeEffect<S, E>(p: Parser<S, E>, w: World<S, E>, a: Action, b: Action, cutoff: nat)
    requires (a == Publish(FailedApplied) && b == Publish(Applied))
             || (a == Checkpoint(FailedApplied) && b == Checkpoint(Applied) && w.phase.Open? && Due(w.phase.reading))
             || (a == Finish(FailedApplied) && b == Finish(Applied))
    requires Enabled(w, a, cutoff)
    ensures var t, u := Step(p, w, a, cutoff), Step(p, w, b, cutoff);
            && t.published == u.published && t.cursor == u.cursor && t.phase.Idle? && t.passed == w.passed
            && (a.Publish? ==> w.phase.reading.pending[0] in t.published)
            && (!a.Publish? ==> t.cursor.Some? && t.cursor.value.offset == w.phase.reading.offset)
  {}

  /** A file in which nothing follows the cursor is passed without another write. */
  lemma NothingNewIsPassed<S, E>(p: Parser<S, E>, w: World<S, E>, cutoff: nat)
    requires w.phase.Found? && w.scanned != Some(w.phase.stamp)
    requires w.phase.stamp.time == 0 || w.phase.stamp.time >= cutoff
    requires w.cursor.Some? && w.cursor.value.offset == |w.content|
    requires w.cursor.value.identity == Identity(p, w.content)
    ensures var t := Step(p, w, Begin, cutoff);
            t.phase.Idle? && t.passed == Some(w.phase.stamp) && t.cursor == w.cursor && t.published == w.published
  {}

  // ---------------------------------------------------------------- unsaved work

  function Newlines(b: Bytes): nat {
    if b == [] then 0 else Newlines(b[..|b| - 1]) + (if b[|b| - 1] == NEWLINE then 1 else 0)
  }

  lemma {:induction false} NewlinesAdd(a: Bytes, b: Bytes)
    ensures Newlines(a + b) == Newlines(a) + Newlines(b)
    decreases |b|
  {
    if b == [] {
      assert a + b == a;
    } else {
      NewlinesAdd(a, b[..|b| - 1]);
      assert (a + b)[..|a + b| - 1] == a + b[..|b| - 1];
    }
  }

  lemma {:induction false} NoNewlines(b: Bytes)
    requires forall i :: 0 <= i < |b| ==> b[i] != NEWLINE
    ensures Newlines(b) == 0
  {
    if b == [] {
    } else {
      NoNewlines(b[..|b| - 1]);
    }
  }

  /** One more line is one more newline. */
  lemma OneMoreLine(content: Bytes, from: nat, offset: nat, end: nat)
    requires from <= offset <= |content| && NextBreak(content, offset) == Some(end)
    ensures Newlines(content[from..end]) == Newlines(content[from..offset]) + 1
  {
    LineHere(content, offset, end);
    PlusOne(content[from..offset], content[offset..end]);
    Sliced(content, from, offset, end);
  }

  lemma Sliced(content: Bytes, from: nat, offset: nat, end: nat)
    requires from <= offset <= end <= |content|
    ensures content[from..end] == content[from..offset] + content[offset..end]
  {}

  lemma LineHere(content: Bytes, offset: nat, end: nat)
    requires offset <= |content| && NextBreak(content, offset) == Some(end)
    ensures offset < end <= |content| && OneLine(content[offset..end])
  {}

  lemma PlusOne(b: Bytes, line: Bytes)
    requires OneLine(line)
    ensures Newlines(b + line) == Newlines(b) + 1
  {
    NoNewlines(line[..|line| - 1]);
    NewlinesAdd(b, line);
  }

  /** What the scan has read since it last stored its cursor, or began. */
  ghost predicate Measured<S, E>(w: World<S, E>) {
    && (w.cursor.Some? ==> w.cursor.value.offset <= |w.content|)
    && (w.phase.Open? ==>
          var r := w.phase.reading;
          && r.saved <= r.offset <= |w.content| && r.lines == Newlines(w.content[r.saved..r.offset])
          && (r.ready ==> r.lines < 256 && r.offset - r.saved < 8 * 1024 * 1024))
  }

  lemma AppendMeasured<S, E>(w: World<S, E>, more: Bytes, time: nat)
    requires Measured(w)
    ensures Measured(w.(content := w.content + more, time := time))
  {
    if w.phase.Open? {
      var r := w.phase.reading;
      assert (w.content + more)[r.saved..r.offset] == w.content[r.saved..r.offset];
    }
  }

  lemma ReadMeasured<S, E>(p: Parser<S, E>, w: World<S, E>, r: Reading<S, E>)
    requires Measured(w) && w.phase == Open(r)
    ensures Measured(DoReadLine(p, w, r))
  {
    var end := NextBreak(w.content, r.offset);
    if end.Some? {
      OneMoreLine(w.content, r.saved, r.offset, end.value);
    }
  }

  lemma StepMeasured<S, E>(p: Parser<S, E>, w: World<S, E>, a: Action, cutoff: nat)
    requires Measured(w)
    ensures Measured(Step(p, w, a, cutoff))
  {
    if Enabled(w, a, cutoff) {
      if a.Append? {
        AppendMeasured(w, a.more, a.time);
      } else if a.ReadLine? {
        ReadMeasured(p, w, w.phase.reading);
      }
    }
  }

  /**
   Whenever a scan is about to read a line, it has read fewer than 256 lines and 8 MiB since it
   began or last stored its cursor, whatever failed before.
   */
  lemma {:induction false} UnsavedIsBounded<S, E>(p: Parser<S, E>, content: Bytes, time: nat, acts: seq<Action>,
                                                  cutoff: nat)
    ensures Measured(Run(p, Start<S, E>(content, time), acts, cutoff))
  {
    if acts == [] {
    } else {
      UnsavedIsBounded(p, content, time, acts[..|acts| - 1], cutoff);
      StepMeasured(p, Run(p, Start<S, E>(content, time), acts[..|acts| - 1], cutoff), acts[|acts| - 1], cutoff);
    }
  }

  /** After a line the cursor is stored, at the place the scan has reached, exactly if enough was read. */
  lemma {:induction false} CheckpointStores<S, E>(p: Parser<S, E>, content: Bytes, time: nat, acts: seq<Action>,
                                                  cutoff: nat)
    requires Enabled(Run(p, Start<S, E>(content, time), acts, cutoff), Checkpoint(Applied), cutoff)
    ensures var w := Run(p, Start<S, E>(content, time), acts, cutoff);
            var t := Step(p, w, Checkpoint(Applied), cutoff);
            var r := w.phase.reading;
            && Measured(w) && t.phase.Open?
            && if Newlines(w.content[r.saved..r.offset]) >= 256 || r.offset - r.saved >= 8 * 1024 * 1024
               then t.cursor.Some? && t.cursor.value.offset == r.offset && t.phase.reading.saved == r.offset
               else t.cursor == w.cursor && t.phase.reading.saved == r.saved
  {
    UnsavedIsBounded(p, content, time, acts, cutoff);
  }
}
