/**
 Which schedules are sound: those in which no scan reads a file it opened with an
 incomplete first line, and all schedules of files whose message ids are distinct.
 Outside both, following a transcript can publish what no batch read would.
 */
module TranscriptTailSchedules {
  import opened TranscriptFold
  import opened TranscriptTail
  import opened TranscriptTailTheorems

  // ---------------------------------------------------------------- complete first lines

  /** The first line is read as it looked when the scan opened the file. */
  ghost predicate Untorn<S, E>(p: Parser<S, E>, w: World<S, E>, a: Action) {
    a.ReadLine? && w.phase.Open? && w.phase.reading.offset == 0 ==>
      w.phase.reading.identity == Identity(p, w.content)
  }

  ghost predicate AllUntorn<S, E>(p: Parser<S, E>, w: World<S, E>, acts: seq<Action>, cutoff: nat) {
    forall i :: 0 <= i < |acts| ==> UntornAt(p, w, acts, i, cutoff)
  }

  ghost predicate UntornAt<S, E>(p: Parser<S, E>, w: World<S, E>, acts: seq<Action>, i: nat, cutoff: nat)
    requires i < |acts|
  {
    Untorn(p, Run(p, w, acts[..i], cutoff), acts[i])
  }

  /** Whoever has consumed a line knows the identity of the file. */
  ghost predicate KnowsFile<S, E>(p: Parser<S, E>, w: World<S, E>) {
    && (w.cursor.Some? && w.cursor.value.offset > 0 ==> w.cursor.value.identity == Identity(p, w.content))
    && (w.phase.Open? && w.phase.reading.offset > 0 ==> w.phase.reading.identity == Identity(p, w.content))
  }

  lemma IdentityStays<S, E>(p: Parser<S, E>, content: Bytes, more: Bytes, offset: nat)
    requires 0 < offset <= |content| && Whole(content[..offset])
    ensures Identity(p, content + more) == Identity(p, content)
  {
    assert content[..offset][offset - 1] == content[offset - 1] == NEWLINE;
    var end := NextBreak(content, 0);
    var longer := NextBreak(content + more, 0);
    assert (content + more)[offset - 1] == NEWLINE;
    assert end.Some? && longer.Some?;
    assert (content + more)[end.value - 1] == content[end.value - 1];
    assert end == longer;
    assert (content + more)[..end.value] == content[..end.value];
  }

  lemma KnowsIsSound<S, E>(p: Parser<S, E>, w: World<S, E>, a: Action)
    requires SavedOk(p, w) && KnowsFile(p, w)
    ensures Sound(p, w, a)
  {
    if w.cursor.Some? && w.cursor.value.offset == 0 {
      assert w.content[..0] == [];
    }
  }

  lemma StepKnows<S, E>(p: Parser<S, E>, w: World<S, E>, a: Action, cutoff: nat)
    requires Inv(p, w, cutoff) && KnowsFile(p, w) && Untorn(p, w, a)
    ensures KnowsFile(p, Step(p, w, a, cutoff))
  {
    if Enabled(w, a, cutoff) {
      if a.Append? {
        AppendKnows(p, w, a.more, a.time);
      } else if a.Begin? {
        BeginKnows(p, w, w.phase.stamp);
      } else if a.ReadLine? {
        ReadKnows(p, w, w.phase.reading);
      } else if a.Checkpoint? || a.Finish? {
        SaveKnows(p, w, a, cutoff);
      }
    }
  }

  lemma ReadKnows<S, E>(p: Parser<S, E>, w: World<S, E>, r: Reading<S, E>)
    requires KnowsFile(p, w) && w.phase == Open(r) && r.offset <= |w.content|
    requires r.offset == 0 ==> r.identity == Identity(p, w.content)
    ensures KnowsFile(p, DoReadLine(p, w, r))
  {}

  lemma SaveKnows<S, E>(p: Parser<S, E>, w: World<S, E>, a: Action, cutoff: nat)
    requires KnowsFile(p, w) && Enabled(w, a, cutoff) && (a.Checkpoint? || a.Finish?)
    ensures KnowsFile(p, Do(p, w, a, cutoff))
  {}

  lemma AppendKnows<S, E>(p: Parser<S, E>, w: World<S, E>, more: Bytes, time: nat)
    requires SavedOk(p, w) && OpenOk(p, w) && KnowsFile(p, w)
    ensures KnowsFile(p, w.(content := w.content + more, time := time))
  {
    if w.cursor.Some? && w.cursor.value.offset > 0 {
      IdentityStays(p, w.content, more, w.cursor.value.offset);
    }
    if w.phase.Open? && w.phase.reading.offset > 0 {
      IdentityStays(p, w.content, more, w.phase.reading.offset);
    }
  }

  lemma BeginKnows<S, E>(p: Parser<S, E>, w: World<S, E>, stamp: Stamp)
    requires KnowsFile(p, w)
    ensures KnowsFile(p, DoBegin(p, w, stamp))
  {}

  lemma {:induction false} UntornIsSound<S, E>(p: Parser<S, E>, content: Bytes, time: nat, acts: seq<Action>,
                                               cutoff: nat)
    requires AllUntorn(p, Start<S, E>(content, time), acts, cutoff)
    ensures AllSound(p, Start<S, E>(content, time), acts, cutoff)
    ensures var w := Run(p, Start<S, E>(content, time), acts, cutoff); Inv(p, w, cutoff) && KnowsFile(p, w)
  {
    StartInv(p, content, time, cutoff);
    if acts == [] {
    } else {
      var pre, a := acts[..|acts| - 1], acts[|acts| - 1];
      var w := Run(p, Start<S, E>(content, time), pre, cutoff);
      UntornPrefix(p, Start<S, E>(content, time), acts, cutoff);
      UntornIsSound(p, content, time, pre, cutoff);
      KnowsIsSound(p, w, a);
      SoundSplit(p, Start<S, E>(content, time), acts, cutoff);
      StepKeeps(p, w, a, cutoff);
      StepKnows(p, w, a, cutoff);
    }
  }

  lemma {:induction false} UntornPrefix<S, E>(p: Parser<S, E>, w: World<S, E>, acts: seq<Action>, cutoff: nat)
    requires acts != [] && AllUntorn(p, w, acts, cutoff)
    ensures var n := |acts| - 1;
            AllUntorn(p, w, acts[..n], cutoff) && Untorn(p, Run(p, w, acts[..n], cutoff), acts[n])
  {
    var pre := acts[..|acts| - 1];
    forall i | 0 <= i < |pre| ensures UntornAt(p, w, pre, i, cutoff) {
      assert pre[..i] == acts[..i] && UntornAt(p, w, acts, i, cutoff);
    }
    assert UntornAt(p, w, acts, |pre|, cutoff);
  }

  // ---------------------------------------------------------------- distinct ids

  lemma {:induction false} DistinctBelow<S, E>(p: Parser<S, E>, b: Bytes, m: nat, n: nat)
    requires m <= n <= |b| && Whole(b[..m]) && DistinctIds(p, b[..n])
    ensures DistinctIds(p, b[..m])
    decreases n
  {
    if m == n {
    } else {
      var start := LastBreak(b[..n - 1]);
      LastLineOf(b, m, n);
      DistinctBack(p, b[..n], start);
      assert b[..n][..start] == b[..start];
      DistinctBelow(p, b, m, start);
    }
  }

  lemma {:induction false} DistinctBack<S, E>(p: Parser<S, E>, read: Bytes, start: nat)
    requires read != [] && DistinctIds(p, read) && start <= |read| && Whole(read[..start])
    requires forall i :: start <= i < |read| - 1 ==> read[i] != NEWLINE
    ensures DistinctIds(p, read[..start])
  {
    assert start < |read| ==> read[..|read| - 1][..start] == read[..start];
    if start < |read| {
      LastBreakIs(read[..|read| - 1], start);
    } else {
      assert read[..start] == read;
    }
  }

  lemma StepGrows<S, E>(p: Parser<S, E>, w: World<S, E>, a: Action, cutoff: nat)
    ensures w.content <= Step(p, w, a, cutoff).content
  {}

  /** With distinct message ids every schedule is sound. */
  lemma {:induction false} DistinctIsSound<S, E>(p: Parser<S, E>, content: Bytes, time: nat, acts: seq<Action>,
                                                 cutoff: nat, final: Bytes)
    requires Run(p, Start<S, E>(content, time), acts, cutoff).content <= final
    requires DistinctIds(p, final[..LastBreak(final)])
    ensures AllSound(p, Start<S, E>(content, time), acts, cutoff)
    ensures Inv(p, Run(p, Start<S, E>(content, time), acts, cutoff), cutoff)
  {
    StartInv(p, content, time, cutoff);
    if acts == [] {
    } else {
      var pre, a := acts[..|acts| - 1], acts[|acts| - 1];
      var w := Run(p, Start<S, E>(content, time), pre, cutoff);
      StepGrows(p, w, a, cutoff);
      DistinctIsSound(p, content, time, pre, cutoff, final);
      DistinctHere(p, w, a, final);
      SoundSplit(p, Start<S, E>(content, time), acts, cutoff);
      StepKeeps(p, w, a, cutoff);
    }
  }

  lemma DistinctHere<S, E>(p: Parser<S, E>, w: World<S, E>, a: Action, final: Bytes)
    requires SavedOk(p, w) && w.content <= final && DistinctIds(p, final[..LastBreak(final)])
    ensures Sound(p, w, a)
  {
    if w.cursor.Some? {
      var n := w.cursor.value.offset;
      assert final[..n] == w.content[..n];
      WholeBelow(final, n);
      DistinctBelow(p, final, n, LastBreak(final));
      DistinctIsNew(p, w.content[..n]);
    }
  }
}
