/**
 Whatever appends, failures and restarts come between, following a transcript
 agrees with one batch read of it.  The one delicate point is a scan that opens
 the file while its first line is still incomplete: the cursor then remembers an
 identity the file loses later, and has to be relocated by message id.
 */
module TranscriptTailTheorems {
  import opened Prelude
  import opened TranscriptFold
  import opened TranscriptTail

  // ---------------------------------------------------------------- invariant

  /** The state a resumable read must be in after the lines of `read`. */
  ghost predicate Follows<S, E>(p: Parser<S, E>, read: Bytes, state: S, message: string) {
    Whole(read) && Fold(p, read).state == state && Fold(p, read).message == message
  }

  /** Events of the consumed lines are published, except those still `pending`. */
  ghost predicate Covered<S, E>(p: Parser<S, E>, read: Bytes, published: set<E>, pending: seq<E>) {
    && (forall e :: e in Fold(p, read).events ==> e in published || e in pending)
    && (forall e :: e in pending ==> e in Fold(p, read).events)
  }

  /** Nothing is published that the batch read would not publish. */
  ghost predicate Justified<S, E>(p: Parser<S, E>, content: Bytes, published: set<E>) {
    forall e :: e in published ==> e in Fold(p, content[..LastBreak(content)]).events
  }

  /** Every line that was complete when the file had the size of `stamp` is published. */
  ghost predicate Delivered<S, E>(p: Parser<S, E>, content: Bytes, published: set<E>, stamp: Stamp) {
    && stamp.size <= |content|
    && forall e :: e in Fold(p, content[..LastBreak(content[..stamp.size])]).events ==> e in published
  }

  ghost predicate StampOk<S, E>(p: Parser<S, E>, w: World<S, E>, stamp: Option<Stamp>, cutoff: nat) {
    stamp.Some? && InWindow(stamp.value, cutoff) ==> Delivered(p, w.content, w.published, stamp.value)
  }

  ghost predicate SavedOk<S, E>(p: Parser<S, E>, w: World<S, E>) {
    w.cursor.Some? ==>
      var c := w.cursor.value;
      && c.offset <= |w.content| && Follows(p, w.content[..c.offset], c.state, c.message)
      && Covered(p, w.content[..c.offset], w.published, [])
  }

  ghost predicate OpenOk<S, E>(p: Parser<S, E>, w: World<S, E>) {
    w.phase.Open? ==>
      var r := w.phase.reading;
      && r.offset <= |w.content| && Follows(p, w.content[..r.offset], r.state, r.message)
      && Covered(p, w.content[..r.offset], w.published, r.pending)
      && r.stamp.size <= |w.content| && (r.ready ==> r.pending == [])
  }

  ghost predicate Inv<S, E>(p: Parser<S, E>, w: World<S, E>, cutoff: nat) {
    && SavedOk(p, w) && OpenOk(p, w) && Justified(p, w.content, w.published)
    && StampOk(p, w, w.scanned, cutoff) && StampOk(p, w, w.passed, cutoff)
    && (w.phase.Found? ==> w.phase.stamp.size <= |w.content|)
  }

  lemma StartInv<S, E>(p: Parser<S, E>, content: Bytes, time: nat, cutoff: nat)
    ensures Inv(p, Start<S, E>(content, time), cutoff)
  {}

  // ---------------------------------------------------------------- appends

  lemma AppendJustified<S, E>(p: Parser<S, E>, content: Bytes, more: Bytes, published: set<E>)
    requires Justified(p, content, published)
    ensures Justified(p, content + more, published)
  {
    var longer := content + more;
    var n := LastBreak(content);
    assert longer[..|content|] == content;
    BreakGrows(longer, |content|);
    assert longer[..n] == content[..n];
    EventsGrow(p, longer, n, LastBreak(longer));
  }

  lemma AppendDelivered<S, E>(p: Parser<S, E>, content: Bytes, more: Bytes, published: set<E>, stamp: Stamp)
    requires Delivered(p, content, published, stamp)
    ensures Delivered(p, content + more, published, stamp)
  {
    assert (content + more)[..stamp.size] == content[..stamp.size];
    var n := LastBreak(content[..stamp.size]);
    assert (content + more)[..n] == content[..n];
  }

  lemma AppendKeeps<S, E>(p: Parser<S, E>, w: World<S, E>, more: Bytes, time: nat, cutoff: nat)
    requires Inv(p, w, cutoff)
    ensures Inv(p, w.(content := w.content + more, time := time), cutoff)
  {
    if w.cursor.Some? {
      assert (w.content + more)[..w.cursor.value.offset] == w.content[..w.cursor.value.offset];
    }
    if w.phase.Open? {
      assert (w.content + more)[..w.phase.reading.offset] == w.content[..w.phase.reading.offset];
    }
    AppendJustified(p, w.content, more, w.published);
    if w.scanned.Some? && InWindow(w.scanned.value, cutoff) {
      AppendDelivered(p, w.content, more, w.published, w.scanned.value);
    }
    if w.passed.Some? && InWindow(w.passed.value, cutoff) {
      AppendDelivered(p, w.content, more, w.published, w.passed.value);
    }
  }

  // ---------------------------------------------------------------- relocation

  /** The message ids carried by the lines of `b`. */
  ghost function Ids<S, E>(p: Parser<S, E>, b: Bytes): set<string>
    decreases |b|
  {
    if b == [] then {}
    else
      var start := LastBreak(b[..|b| - 1]);
      Ids(p, b[..start]) + {LineId(p, b[start..])}
  }

  /** No two lines of `b` carry the same message id. */
  ghost predicate DistinctIds<S, E>(p: Parser<S, E>, b: Bytes)
    decreases |b|
  {
    b == [] ||
    var start := LastBreak(b[..|b| - 1]);
    DistinctIds(p, b[..start]) && (LineId(p, b[start..]) != "" ==> LineId(p, b[start..]) !in Ids(p, b[..start]))
  }

  /** The id of the last identified line of `b`, if there is one, is carried by no earlier line. */
  ghost predicate LastIdIsNew<S, E>(p: Parser<S, E>, b: Bytes)
    decreases |b|
  {
    b == [] ||
    var start := LastBreak(b[..|b| - 1]);
    var id := LineId(p, b[start..]);
    if id == "" then LastIdIsNew(p, b[..start]) else id !in Ids(p, b[..start])
  }

  lemma {:induction false} DistinctIsNew<S, E>(p: Parser<S, E>, b: Bytes)
    requires DistinctIds(p, b)
    ensures LastIdIsNew(p, b)
    decreases |b|
  {
    if b == [] {
    } else {
      DistinctIsNew(p, b[..LastBreak(b[..|b| - 1])]);
    }
  }

  /** The search walks over every line that does not carry the id. */
  lemma {:induction false} FindPasses<S, E>(p: Parser<S, E>, b: Bytes, end: nat, wanted: string)
    requires end <= |b| && Whole(b[..end]) && wanted !in Ids(p, b[..end])
    ensures FindMessage(p, b, 0, wanted) == FindMessage(p, b, end, wanted)
    decreases end
  {
    if end == 0 {
    } else {
      var read := b[..end];
      var start := LastBreak(read[..end - 1]);
      LineBefore(read);
      LineOfPrefix(b, end, start, end);
      NextIs(b, start, end);
      assert read[start..] == b[start..end];
      FindPasses(p, b, start, wanted);
    }
  }

  /** The search stops no later than a line that carries the id. */
  lemma {:induction false} FindHits<S, E>(p: Parser<S, E>, b: Bytes, end: nat, wanted: string)
    requires end <= |b| && Whole(b[..end]) && wanted in Ids(p, b[..end])
    ensures var found := FindMessage(p, b, 0, wanted); found.Some? && found.value <= end
    decreases end
  {
    var read := b[..end];
    var start := LastBreak(read[..end - 1]);
    LineBefore(read);
    LineOfPrefix(b, end, start, end);
    if wanted in Ids(p, b[..start]) {
      FindHits(p, b, start, wanted);
    } else {
      FindPasses(p, b, start, wanted);
      NextIs(b, start, end);
      assert read[start..] == b[start..end];
    }
  }

  /** The last line that carries an id; the lines after it changed nothing. */
  lemma {:induction false} LastIdLine<S, E>(p: Parser<S, E>, b: Bytes) returns (start: nat, end: nat)
    requires Whole(b) && Fold(p, b).message != ""
    ensures IsLine(b, start, end) && Fold(p, b[..end]) == Fold(p, b)
    ensures LineId(p, b[start..end]) == Fold(p, b).message
    ensures LastIdIsNew(p, b) <==> Fold(p, b).message !in Ids(p, b[..start])
    decreases |b|
  {
    LineBefore(b);
    var n := LastBreak(b[..|b| - 1]);
    if LineId(p, b[n..]) == "" {
      SilentLine(p, b, n);
      start, end := LastIdLine(p, b[..n]);
      LineOfPrefix(b, n, start, end);
    } else {
      start, end := n, |b|;
      SpeakingLine(p, b, n);
    }
  }

  lemma {:induction false} SilentLine<S, E>(p: Parser<S, E>, b: Bytes, n: nat)
    requires b != [] && n == LastBreak(b[..|b| - 1]) && LineId(p, b[n..]) == ""
    ensures Fold(p, b) == Fold(p, b[..n]) && (LastIdIsNew(p, b) <==> LastIdIsNew(p, b[..n]))
  {}

  lemma {:induction false} SpeakingLine<S, E>(p: Parser<S, E>, b: Bytes, n: nat)
    requires b != [] && n == LastBreak(b[..|b| - 1]) && LineId(p, b[n..]) != ""
    ensures b[..|b|] == b && b[n..|b|] == b[n..] && Fold(p, b).message == LineId(p, b[n..])
    ensures LastIdIsNew(p, b) <==> Fold(p, b).message !in Ids(p, b[..n])
  {
    assert b[..|b|] == b;
  }

  /**
   A cursor that is relocated by message id resumes right behind the last line it
   consumed with an id if and only if no earlier line carries that id.
   */
  lemma RelocatesExactly<S, E>(p: Parser<S, E>, content: Bytes, c: Cursor<S>, start: nat, end: nat)
    requires IsLine(content, start, end) && c.message != "" && LineId(p, content[start..end]) == c.message
    ensures Relocate(p, content, c) == (end, c.state) <==> c.message !in Ids(p, content[..start])
  {
    if c.message in Ids(p, content[..start]) {
      FindHits(p, content, start, c.message);
    } else {
      FindPasses(p, content, start, c.message);
      NextIs(content, start, end);
    }
  }

  /** If the last id is new, relocation finds a place where the kept state is right. */
  lemma RelocationFollows<S, E>(p: Parser<S, E>, content: Bytes, c: Cursor<S>)
    requires c.offset <= |content| && Follows(p, content[..c.offset], c.state, c.message)
    requires LastIdIsNew(p, content[..c.offset])
    ensures var (offset, state) := Relocate(p, content, c);
            offset <= c.offset && Follows(p, content[..offset], state, c.message)
  {
    if c.message == "" {
      assert content[..0] == [];
    } else {
      var read := content[..c.offset];
      var start, end := LastIdLine(p, read);
      LineOfPrefix(content, c.offset, start, end);
      RelocatesExactly(p, content, c, start, end);
      WholeAt(content, end);
    }
  }

  lemma WholeAt(content: Bytes, end: nat)
    requires 0 < end <= |content| && content[end - 1] == NEWLINE
    ensures Whole(content[..end])
  {}

  // ---------------------------------------------------------------- each step

  lemma WholeBelow(b: Bytes, n: nat)
    requires n <= |b| && Whole(b[..n])
    ensures n <= LastBreak(b)
  {
    assert n > 0 ==> b[..n][n - 1] == b[n - 1];
  }

  /** Covering more lines covers fewer. */
  lemma CoveredBelow<S, E>(p: Parser<S, E>, b: Bytes, m: nat, n: nat, published: set<E>)
    requires m <= n <= |b| && Whole(b[..m]) && Covered(p, b[..n], published, [])
    ensures Covered(p, b[..m], published, [])
  {
    EventsGrow(p, b, m, n);
  }

  /** The file still looks as it did to the cursor, or the last id tells where it was. */
  ghost predicate Sound<S, E>(p: Parser<S, E>, w: World<S, E>, a: Action) {
    a.Begin? && w.cursor.Some? ==>
      || w.cursor.value.identity == Identity(p, w.content)
      || (w.cursor.value.offset <= |w.content| && LastIdIsNew(p, w.content[..w.cursor.value.offset]))
  }

  lemma ResumeFollows<S, E>(p: Parser<S, E>, w: World<S, E>, stamp: Stamp)
    requires SavedOk(p, w) && Sound(p, w, Begin)
    ensures var r := Resume(p, w.content, w.cursor, stamp);
            && r.offset <= |w.content| && Follows(p, w.content[..r.offset], r.state, r.message)
            && Covered(p, w.content[..r.offset], w.published, [])
  {
    var r := Resume(p, w.content, w.cursor, stamp);
    if w.cursor.None? {
      assert w.content[..0] == [];
    } else {
      var c := w.cursor.value;
      if c.identity != Identity(p, w.content) {
        RelocationFollows(p, w.content, c);
        CoveredBelow(p, w.content, r.offset, c.offset, w.published);
      }
    }
  }

  /** Consumed to the end: whatever was complete at any earlier size is published. */
  lemma DeliveredAtEnd<S, E>(p: Parser<S, E>, content: Bytes, offset: nat, published: set<E>, stamp: Stamp)
    requires offset <= |content| && Whole(content[..offset]) && Covered(p, content[..offset], published, [])
    requires LastBreak(content) <= offset && stamp.size <= |content|
    ensures Delivered(p, content, published, stamp)
  {
    BreakGrows(content, stamp.size);
    var n := LastBreak(content[..stamp.size]);
    assert content[..stamp.size][..n] == content[..n];
    EventsGrow(p, content, n, offset);
  }

  lemma BeginKeeps<S, E>(p: Parser<S, E>, w: World<S, E>, cutoff: nat)
    requires Inv(p, w, cutoff) && Enabled(w, Begin, cutoff) && Sound(p, w, Begin)
    ensures Inv(p, DoBegin(p, w, w.phase.stamp), cutoff)
  {
    if AtEnd(p, w.content, w.cursor) {
      DeliveredAtEnd(p, w.content, w.cursor.value.offset, w.published, w.phase.stamp);
    } else {
      ResumeFollows(p, w, w.phase.stamp);
    }
  }

  /** Parsing a line from a state without its history gives that line's own events. */
  lemma ConsumeAdds<S, E>(p: Parser<S, E>, c: Consumed<S, E>, line: Bytes, at: nat)
    ensures var next := Consume(p, Consumed(c.state, c.message, []), line, at);
            Consume(p, c, line, at) == Consumed(next.state, next.message, c.events + next.events)
  {
    assert c.events + [] == c.events;
    if LineId(p, line) != "" {
      var parsed := p.parse(c.state, p.trim(line), at);
      var own := if parsed.stale then [] else parsed.events;
      assert [] + own == own;
    }
  }

  lemma ReadLineKeeps<S, E>(p: Parser<S, E>, w: World<S, E>, cutoff: nat)
    requires Inv(p, w, cutoff) && Enabled(w, ReadLine, cutoff)
    ensures Inv(p, DoReadLine(p, w, w.phase.reading), cutoff)
  {
    var r := w.phase.reading;
    var end := NextBreak(w.content, r.offset);
    if end.Some? && end.value - r.offset <= MAX_LINE_BYTES {
      FoldNext(p, w.content, r.offset, end.value);
      ConsumeAdds(p, Fold(p, w.content[..r.offset]), w.content[r.offset..end.value], r.offset);
    }
  }

  lemma PublishKeeps<S, E>(p: Parser<S, E>, w: World<S, E>, out: Write, cutoff: nat)
    requires Inv(p, w, cutoff) && Enabled(w, Publish(out), cutoff)
    ensures Inv(p, DoPublish(w, w.phase.reading, out), cutoff)
  {
    var r := w.phase.reading;
    var e := r.pending[0];
    assert r.pending == [e] + r.pending[1..];
    PublishedIsJustified(p, w.content, r.offset, w.published, e);
    if out.Applied? {
      CoveredNext(p, w.content[..r.offset], w.published, r.pending);
    }
  }

  lemma PublishedIsJustified<S, E>(p: Parser<S, E>, content: Bytes, offset: nat, published: set<E>, e: E)
    requires offset <= |content| && Whole(content[..offset]) && Justified(p, content, published)
    requires e in Fold(p, content[..offset]).events
    ensures Justified(p, content, published + {e})
  {
    WholeBelow(content, offset);
    EventsGrow(p, content, offset, LastBreak(content));
  }

  lemma CoveredNext<S, E>(p: Parser<S, E>, read: Bytes, published: set<E>, pending: seq<E>)
    requires pending != [] && Covered(p, read, published, pending)
    ensures Covered(p, read, published + {pending[0]}, pending[1..])
  {
    assert pending == [pending[0]] + pending[1..];
  }

  lemma CheckpointKeeps<S, E>(p: Parser<S, E>, w: World<S, E>, out: Write, cutoff: nat)
    requires Inv(p, w, cutoff) && Enabled(w, Checkpoint(out), cutoff)
    ensures Inv(p, DoCheckpoint(w, w.phase.reading, out), cutoff)
  {}

  lemma FinishKeeps<S, E>(p: Parser<S, E>, w: World<S, E>, out: Write, cutoff: nat)
    requires Inv(p, w, cutoff) && Enabled(w, Finish(out), cutoff)
    ensures Inv(p, DoFinish(w, w.phase.reading, out), cutoff)
  {
    var r := w.phase.reading;
    NothingNext(w.content, r.offset);
    DeliveredAtEnd(p, w.content, r.offset, w.published, r.stamp);
  }

  lemma StepKeeps<S, E>(p: Parser<S, E>, w: World<S, E>, a: Action, cutoff: nat)
    requires Inv(p, w, cutoff) && Sound(p, w, a)
    ensures Inv(p, Step(p, w, a, cutoff), cutoff)
  {
    if Enabled(w, a, cutoff) {
      if a.Append? {
        AppendKeeps(p, w, a.more, a.time, cutoff);
      } else if a.Begin? {
        BeginKeeps(p, w, cutoff);
      } else if a.ReadLine? {
        ReadLineKeeps(p, w, cutoff);
      } else if a.Publish? {
        PublishKeeps(p, w, a.w, cutoff);
      } else if a.Checkpoint? {
        CheckpointKeeps(p, w, a.w, cutoff);
      } else if a.Finish? {
        FinishKeeps(p, w, a.w, cutoff);
      }
    }
  }

  // ---------------------------------------------------------------- runs

  ghost predicate SoundAt<S, E>(p: Parser<S, E>, w: World<S, E>, acts: seq<Action>, i: nat, cutoff: nat)
    requires i < |acts|
  {
    Sound(p, Run(p, w, acts[..i], cutoff), acts[i])
  }

  ghost predicate AllSound<S, E>(p: Parser<S, E>, w: World<S, E>, acts: seq<Action>, cutoff: nat) {
    forall i :: 0 <= i < |acts| ==> SoundAt(p, w, acts, i, cutoff)
  }

  /** A schedule is sound if its beginning is and its last step is. */
  lemma {:induction false} SoundSplit<S, E>(p: Parser<S, E>, w: World<S, E>, acts: seq<Action>, cutoff: nat)
    requires acts != []
    ensures var n := |acts| - 1;
            AllSound(p, w, acts, cutoff) <==>
            AllSound(p, w, acts[..n], cutoff) && Sound(p, Run(p, w, acts[..n], cutoff), acts[n])
  {
    var pre := acts[..|acts| - 1];
    forall i | 0 <= i < |pre| ensures SoundAt(p, w, pre, i, cutoff) == SoundAt(p, w, acts, i, cutoff) {
      assert pre[..i] == acts[..i];
    }
    assert SoundAt(p, w, acts, |pre|, cutoff) == Sound(p, Run(p, w, pre, cutoff), acts[|pre|]);
  }

  lemma {:induction false} RunKeeps<S, E>(p: Parser<S, E>, w: World<S, E>, acts: seq<Action>, cutoff: nat)
    requires Inv(p, w, cutoff) && AllSound(p, w, acts, cutoff)
    ensures Inv(p, Run(p, w, acts, cutoff), cutoff)
  {
    if acts == [] {
    } else {
      SoundSplit(p, w, acts, cutoff);
      RunKeeps(p, w, acts[..|acts| - 1], cutoff);
      StepKeeps(p, Run(p, w, acts[..|acts| - 1], cutoff), acts[|acts| - 1], cutoff);
    }
  }

  /** The durable cursor is always the fold of exactly the lines it has consumed. */
  lemma {:induction false} CursorIsFold<S, E>(p: Parser<S, E>, content: Bytes, time: nat, acts: seq<Action>,
                                              cutoff: nat)
    requires AllSound(p, Start<S, E>(content, time), acts, cutoff)
    ensures var w := Run(p, Start<S, E>(content, time), acts, cutoff);
            w.cursor.Some? ==>
              var c := w.cursor.value;
              && c.offset <= |w.content| && Whole(w.content[..c.offset])
              && Fold(p, w.content[..c.offset]).state == c.state && Fold(p, w.content[..c.offset]).message == c.message
              && forall e :: e in Fold(p, w.content[..c.offset]).events ==> e in w.published
  {
    StartInv(p, content, time, cutoff);
    RunKeeps(p, Start<S, E>(content, time), acts, cutoff);
  }

  /** At no time is anything published that one batch read of the file would not publish. */
  lemma {:induction false} OnlyBatchEvents<S, E>(p: Parser<S, E>, content: Bytes, time: nat, acts: seq<Action>,
                                                 cutoff: nat, e: E)
    requires AllSound(p, Start<S, E>(content, time), acts, cutoff)
    ensures var w := Run(p, Start<S, E>(content, time), acts, cutoff);
            e in w.published ==> e in Fold(p, w.content[..LastBreak(w.content)]).events
  {
    StartInv(p, content, time, cutoff);
    RunKeeps(p, Start<S, E>(content, time), acts, cutoff);
  }

  /**
   After a pass without error over a file in the retention window, whether it was
   read or skipped by fingerprint, every line complete at discovery is published;
   if the file has not grown since, what is published is exactly the batch read.
   */
  lemma {:induction false} PassAgreesWithBatch<S, E>(p: Parser<S, E>, content: Bytes, time: nat, acts: seq<Action>,
                                                     cutoff: nat)
    requires AllSound(p, Start<S, E>(content, time), acts, cutoff)
    ensures var w := Run(p, Start<S, E>(content, time), acts, cutoff);
            w.passed.Some? && InWindow(w.passed.value, cutoff) ==>
              && Delivered(p, w.content, w.published, w.passed.value)
              && (w.passed.value.size == |w.content| ==>
                    w.published == set e | e in Fold(p, w.content[..LastBreak(w.content)]).events)
  {
    StartInv(p, content, time, cutoff);
    RunKeeps(p, Start<S, E>(content, time), acts, cutoff);
    var w := Run(p, Start<S, E>(content, time), acts, cutoff);
    assert w.content[..|w.content|] == w.content;
  }
}
