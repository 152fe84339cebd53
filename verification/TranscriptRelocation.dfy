/**
 When a cursor may be relocated by message id.  A scan that opened the file with an
 incomplete first line leaves a cursor under an identity the file no longer has; the
 next scan looks for the message id of the cursor and resumes behind the first line
 that carries it, in the state the cursor had behind the last one.  Whatever happens
 next, every parser of the format agrees with its batch read exactly if the id of the
 last identified line was new, or the file still looks the same.
 */
module TranscriptRelocation {
  import opened Prelude
  import opened TranscriptFold
  import opened TranscriptTail
  import opened TranscriptTailTheorems
  import opened TranscriptTailSchedules

  /** The identified lines, numbered: an event is the number of its line and where the line starts. */
  datatype Mark = Mark(number: int, at: nat)

  function Numbering(trim: Bytes -> Bytes, id: Bytes -> string): Parser<int, Mark> {
    Parser(0, trim, id, (n: int, line: Bytes, at: nat) => Parsed(n + 1, [Mark(n, at)], false))
  }

  ghost predicate Reads<S, E>(p: Parser<S, E>, trim: Bytes -> Bytes, id: Bytes -> string) {
    p.trim == trim && p.id == id
  }

  /** A process that starts with the cursor of a scan that consumed and published `content[..offset]`. */
  ghost function Restarted<S, E>(p: Parser<S, E>, content: Bytes, time: nat, offset: nat,
                                 identity: Bytes): World<S, E>
    requires offset <= |content|
  {
    var read := Fold(p, content[..offset]);
    World(content, time, Some(Cursor(read.state, offset, read.message, identity)), None, Idle,
          (set e | e in read.events), None)
  }

  /** Only batch events are published, and after a pass all those due are. */
  ghost predicate Agrees<S, E>(p: Parser<S, E>, w: World<S, E>, cutoff: nat) {
    Justified(p, w.content, w.published) && StampOk(p, w, w.passed, cutoff)
  }

  /** Lines that a scan has read are not too long. */
  ghost predicate ShortLines(content: Bytes, offset: nat) {
    forall start: nat, end: nat :: IsLine(content, start, end) && end <= offset ==> end - start <= MAX_LINE_BYTES
  }

  // ---------------------------------------------------------------- ids do not depend on the parser

  lemma {:induction false} SameIds<S, E, T, F>(p: Parser<S, E>, q: Parser<T, F>, b: Bytes)
    requires p.trim == q.trim && p.id == q.id
    ensures Ids(p, b) == Ids(q, b) && (LastIdIsNew(p, b) <==> LastIdIsNew(q, b))
    decreases |b|
  {
    if b == [] {
    } else {
      SameIds(p, q, b[..LastBreak(b[..|b| - 1])]);
    }
  }

  // ---------------------------------------------------------------- a new id is enough

  /** The cursor knows the file or its last id is new, and an open scan knows the file. */
  ghost predicate Steady<S, E>(p: Parser<S, E>, w: World<S, E>) {
    && LastBreak(w.content) > 0
    && (w.cursor.Some? ==> w.cursor.value.offset <= |w.content| && Sound(p, w, Begin))
    && (w.phase.Open? ==> w.phase.reading.identity == Identity(p, w.content))
  }

  lemma AppendSteady<S, E>(p: Parser<S, E>, w: World<S, E>, more: Bytes, time: nat)
    requires Steady(p, w)
    ensures Steady(p, w.(content := w.content + more, time := time))
  {
    var longer := w.content + more;
    IdentityStays(p, w.content, more, LastBreak(w.content));
    assert longer[..|w.content|] == w.content;
    BreakGrows(longer, |w.content|);
    if w.cursor.Some? {
      assert longer[..w.cursor.value.offset] == w.content[..w.cursor.value.offset];
    }
  }

  lemma BeginSteady<S, E>(p: Parser<S, E>, w: World<S, E>, stamp: Stamp)
    requires Steady(p, w)
    ensures Steady(p, DoBegin(p, w, stamp))
  {}

  lemma ReadSteady<S, E>(p: Parser<S, E>, w: World<S, E>, r: Reading<S, E>)
    requires Steady(p, w) && w.phase == Open(r) && r.offset <= |w.content|
    ensures Steady(p, DoReadLine(p, w, r))
  {}

  lemma SaveSteady<S, E>(p: Parser<S, E>, w: World<S, E>, r: Reading<S, E>, out: Write)
    requires Steady(p, w) && w.phase == Open(r) && r.offset <= |w.content|
    ensures Steady(p, DoCheckpoint(w, r, out)) && Steady(p, DoFinish(w, r, out))
  {}

  lemma StepSteady<S, E>(p: Parser<S, E>, w: World<S, E>, a: Action, cutoff: nat)
    requires Inv(p, w, cutoff) && Steady(p, w)
    ensures Inv(p, Step(p, w, a, cutoff), cutoff) && Steady(p, Step(p, w, a, cutoff))
  {
    StepKeeps(p, w, a, cutoff);
    if Enabled(w, a, cutoff) {
      if a.Append? {
        AppendSteady(p, w, a.more, a.time);
      } else if a.Begin? {
        BeginSteady(p, w, w.phase.stamp);
      } else if a.ReadLine? {
        ReadSteady(p, w, w.phase.reading);
      } else if a.Checkpoint? || a.Finish? {
        SaveSteady(p, w, w.phase.reading, a.w);
      }
    }
  }

  lemma {:induction false} RunSteady<S, E>(p: Parser<S, E>, w: World<S, E>, acts: seq<Action>, cutoff: nat)
    requires Inv(p, w, cutoff) && Steady(p, w)
    ensures Inv(p, Run(p, w, acts, cutoff), cutoff) && Steady(p, Run(p, w, acts, cutoff))
  {
    if acts == [] {
    } else {
      RunSteady(p, w, acts[..|acts| - 1], cutoff);
      StepSteady(p, Run(p, w, acts[..|acts| - 1], cutoff), acts[|acts| - 1], cutoff);
    }
  }

  lemma RestartedInv<S, E>(p: Parser<S, E>, content: Bytes, time: nat, offset: nat, identity: Bytes, cutoff: nat)
    requires offset <= |content| && Whole(content[..offset])
    ensures Inv(p, Restarted(p, content, time, offset, identity), cutoff)
  {
    WholeBelow(content, offset);
    EventsGrow(p, content, offset, LastBreak(content));
  }

  lemma NewIsSteady<S, E>(p: Parser<S, E>, content: Bytes, time: nat, offset: nat, identity: Bytes)
    requires 0 < offset <= |content| && Whole(content[..offset])
    requires identity == Identity(p, content) || LastIdIsNew(p, content[..offset])
    ensures Steady(p, Restarted(p, content, time, offset, identity))
  {
    WholeBelow(content, offset);
  }

  // ---------------------------------------------------------------- and necessary

  lemma {:induction false} NumbersGrow(p: Parser<int, Mark>, b: Bytes, m: nat, n: nat)
    requires p == Numbering(p.trim, p.id) && m <= n <= |b| && Whole(b[..m])
    ensures Fold(p, b[..m]).state <= Fold(p, b[..n]).state
    decreases n
  {
    if m == n {
    } else {
      FoldBack(p, b, m, n);
      NumbersGrow(p, b, m, LastBreak(b[..n - 1]));
    }
  }

  /** The batch read gives every line the number of identified lines before it. */
  lemma {:induction false} MarksAreNumbers(p: Parser<int, Mark>, b: Bytes, n: nat, e: Mark)
    requires p == Numbering(p.trim, p.id) && n <= |b| && e in Fold(p, b[..n]).events
    ensures e.at <= |b| && e.number == Fold(p, b[..e.at]).state
    decreases n
  {
    if n == 0 {
    } else {
      assert b[..0] == [];
      FoldBack(p, b, 0, n);
      var start := LastBreak(b[..n - 1]);
      if e in Fold(p, b[..start]).events {
        MarksAreNumbers(p, b, start, e);
      }
    }
  }

  lemma RunTwo<S, E>(p: Parser<S, E>, w: World<S, E>, a: Action, b: Action, cutoff: nat)
    ensures Run(p, w, [a, b], cutoff) == Step(p, Step(p, w, a, cutoff), b, cutoff)
  {
    assert [a, b][..1] == [a] && [a][..0] == [];
    assert Run(p, w, [], cutoff) == w;
    assert Run(p, w, [a], cutoff) == Step(p, w, a, cutoff);
  }

  lemma {:induction false} RunConcat<S, E>(p: Parser<S, E>, w: World<S, E>, a: seq<Action>, b: seq<Action>,
                                           cutoff: nat)
    ensures Run(p, w, a + b, cutoff) == Run(p, Run(p, w, a, cutoff), b, cutoff)
    decreases |b|
  {
    if b == [] {
      assert a + b == a;
    } else {
      RunConcat(p, w, a, b[..|b| - 1], cutoff);
      assert (a + b)[..|a + b| - 1] == a + b[..|b| - 1];
    }
  }

  /** A scan is about to read the line at `pos`, in state `n`. */
  ghost predicate About(w: World<int, Mark>, content: Bytes, pos: nat, n: int) {
    && w.content == content && w.phase.Open? && w.phase.reading.ready && w.phase.reading.pending == []
    && w.phase.reading.offset == pos <= |content| && w.phase.reading.state == n
  }

  /** A line without id is passed over. */
  lemma PassLine(p: Parser<int, Mark>, w: World<int, Mark>, content: Bytes, pos: nat, end: nat, n: int, cutoff: nat)
    requires About(w, content, pos, n) && NextBreak(content, pos) == Some(end) && end - pos <= MAX_LINE_BYTES
    requires LineId(p, content[pos..end]) == ""
    ensures About(Run(p, w, [ReadLine, Checkpoint(Applied)], cutoff), content, end, n)
  {
    RunTwo(p, w, ReadLine, Checkpoint(Applied), cutoff);
  }

  /** A line with an id gives its mark. */
  lemma MarkLine(p: Parser<int, Mark>, w: World<int, Mark>, content: Bytes, pos: nat, end: nat, n: int, cutoff: nat)
    requires p == Numbering(p.trim, p.id)
    requires About(w, content, pos, n) && NextBreak(content, pos) == Some(end) && end - pos <= MAX_LINE_BYTES
    requires LineId(p, content[pos..end]) != ""
    ensures var t := Run(p, w, [ReadLine, Publish(Applied)], cutoff);
            t.content == content && Mark(n, pos) in t.published
  {
    RunTwo(p, w, ReadLine, Publish(Applied), cutoff);
    assert [] + [Mark(n, pos)] == [Mark(n, pos)];
  }

  /** The next line starts no later than any line ahead. */
  lemma LineAhead(content: Bytes, pos: nat, start: nat, end: nat)
    requires IsLine(content, start, end) && pos <= start && Whole(content[..pos])
    ensures var next := NextBreak(content, pos);
            && next.Some? && IsLine(content, pos, next.value) && next.value <= end
            && (pos < start ==> next.value <= start) && (pos == start ==> next.value == end)
  {
    assert content[end - 1] == NEWLINE;
    assert start > 0 ==> content[..start][start - 1] == content[start - 1];
  }

  /** Reading on from before an identified line publishes a mark with the present number. */
  lemma {:induction false} ReachesMark(p: Parser<int, Mark>, w: World<int, Mark>, content: Bytes, offset: nat,
                                       pos: nat, start: nat, end: nat, n: int, cutoff: nat)
    returns (acts: seq<Action>, at: nat)
    requires p == Numbering(p.trim, p.id) && About(w, content, pos, n) && Whole(content[..pos])
    requires pos <= start && IsLine(content, start, end) && end <= offset && ShortLines(content, offset)
    requires LineId(p, content[start..end]) != ""
    ensures at <= start && Whole(content[..at])
    ensures Run(p, w, acts, cutoff).content == content && Mark(n, at) in Run(p, w, acts, cutoff).published
    decreases start - pos
  {
    LineAhead(content, pos, start, end);
    var next := NextBreak(content, pos).value;
    if LineId(p, content[pos..next]) != "" {
      MarkLine(p, w, content, pos, next, n, cutoff);
      acts, at := [ReadLine, Publish(Applied)], pos;
    } else {
      var pass := [ReadLine, Checkpoint(Applied)];
      PassLine(p, w, content, pos, next, n, cutoff);
      WholeAt(content, next);
      var rest, place := ReachesMark(p, Run(p, w, pass, cutoff), content, offset, next, start, end, n, cutoff);
      RunConcat(p, w, pass, rest, cutoff);
      acts, at := pass + rest, place;
    }
  }

  /** The file is written to within the retention window, found and opened. */
  function Reopening(cutoff: nat): seq<Action> {
    [Append([], cutoff)] + [Discover, Begin]
  }

  /** The scan resumes behind the first line with the id, in the state behind the last one. */
  lemma Reopens(p: Parser<int, Mark>, content: Bytes, time: nat, offset: nat, identity: Bytes, cutoff: nat, at: nat)
    requires offset <= |content| && identity != Identity(p, content) && Fold(p, content[..offset]).message != ""
    requires FindMessage(p, content, 0, Fold(p, content[..offset]).message) == Some(at)
    ensures About(Run(p, Restarted(p, content, time, offset, identity), Reopening(cutoff), cutoff), content, at,
                  Fold(p, content[..offset]).state)
  {
    var w := Restarted(p, content, time, offset, identity);
    var touched := Restarted(p, content, cutoff, offset, identity);
    assert content + [] == content;
    assert [Append([], cutoff)][..0] == [] && Run(p, w, [], cutoff) == w;
    assert Run(p, w, [Append([], cutoff)], cutoff) == touched;
    RunConcat(p, w, [Append([], cutoff)], [Discover, Begin], cutoff);
    RunTwo(p, touched, Discover, Begin, cutoff);
    assert Step(p, touched, Discover, cutoff).phase == Found(Stamp(cutoff, |content|));
  }

  /** A mark with the number of a later line is not in the batch read. */
  lemma StrayMark(p: Parser<int, Mark>, content: Bytes, at: nat, start: nat, end: nat)
    requires p == Numbering(p.trim, p.id) && IsLine(content, start, end) && at <= start && Whole(content[..at])
    requires LineId(p, content[start..end]) != ""
    ensures Mark(Fold(p, content[..end]).state, at) !in Fold(p, content[..LastBreak(content)]).events
  {
    NextIs(content, start, end);
    FoldNext(p, content, start, end);
    NumbersGrow(p, content, at, start);
    var e := Mark(Fold(p, content[..end]).state, at);
    if e in Fold(p, content[..LastBreak(content)]).events {
      MarksAreNumbers(p, content, LastBreak(content), e);
    }
  }

  /** The last identified line, and where the search for its id stops. */
  lemma Relocated(p: Parser<int, Mark>, content: Bytes, offset: nat) returns (start: nat, end: nat, pos: nat)
    requires offset <= |content| && Whole(content[..offset]) && !LastIdIsNew(p, content[..offset])
    ensures IsLine(content, start, end) && end <= offset && pos <= start && Whole(content[..pos])
    ensures var read := Fold(p, content[..offset]);
            && LineId(p, content[start..end]) == read.message != "" && Fold(p, content[..end]).state == read.state
            && FindMessage(p, content, 0, read.message) == Some(pos)
  {
    var read := content[..offset];
    HasMessage(p, read);
    start, end := LastIdLine(p, read);
    LineOfPrefix(content, offset, start, end);
    FindHits(p, content, start, Fold(p, read).message);
    pos := FindMessage(p, content, 0, Fold(p, read).message).value;
    WholeAt(content, pos);
  }

  lemma RepeatedStrays(p: Parser<int, Mark>, content: Bytes, time: nat, offset: nat, identity: Bytes, cutoff: nat)
    returns (more: seq<Action>)
    requires p == Numbering(p.trim, p.id) && offset <= |content| && Whole(content[..offset])
    requires ShortLines(content, offset)
    requires identity != Identity(p, content) && !LastIdIsNew(p, content[..offset])
    ensures var t := Run(p, Restarted(p, content, time, offset, identity), more, cutoff);
            !Justified(p, t.content, t.published)
  {
    var w := Restarted(p, content, time, offset, identity);
    var start, end, pos := Relocated(p, content, offset);
    var n := Fold(p, content[..offset]).state;
    Reopens(p, content, time, offset, identity, cutoff, pos);
    var acts, at := ReachesMark(p, Run(p, w, Reopening(cutoff), cutoff), content, offset, pos, start, end, n, cutoff);
    RunConcat(p, w, Reopening(cutoff), acts, cutoff);
    StrayMark(p, content, at, start, end);
    more := Reopening(cutoff) + acts;
  }

  /** A repeated id is an id. */
  lemma {:induction false} HasMessage<S, E>(p: Parser<S, E>, b: Bytes)
    requires !LastIdIsNew(p, b)
    ensures Fold(p, b).message != ""
    decreases |b|
  {
    if b == [] {
    } else {
      var start := LastBreak(b[..|b| - 1]);
      if LineId(p, b[start..]) == "" {
        HasMessage(p, b[..start]);
      }
    }
  }

  // ---------------------------------------------------------------- exactly when

  /** Every parser of the format agrees with its batch read in every continuation. */
  ghost predicate AllAgree(trim: Bytes -> Bytes, id: Bytes -> string, content: Bytes, time: nat, offset: nat,
                           identity: Bytes, cutoff: nat)
    requires offset <= |content|
  {
    forall p: Parser<int, Mark>, more: seq<Action> :: Reads(p, trim, id) ==>
      Agrees(p, Run(p, Restarted(p, content, time, offset, identity), more, cutoff), cutoff)
  }

  /**
   A cursor behind `content[..offset]` that remembers `identity`: in every continuation every
   parser of the format publishes only what its batch read publishes, and after a pass all of
   it, if and only if the file still has that identity or the id of the last identified line
   is carried by no earlier line.
   */
  lemma RelocationIsRightExactly(trim: Bytes -> Bytes, id: Bytes -> string, content: Bytes, time: nat, offset: nat,
                                 identity: Bytes, cutoff: nat)
    requires 0 < offset <= |content| && Whole(content[..offset]) && ShortLines(content, offset)
    ensures var q := Numbering(trim, id);
            AllAgree(trim, id, content, time, offset, identity, cutoff) <==>
            identity == Identity(q, content) || LastIdIsNew(q, content[..offset])
  {
    var q := Numbering(trim, id);
    if identity == Identity(q, content) || LastIdIsNew(q, content[..offset]) {
      forall p: Parser<int, Mark>, more: seq<Action> | Reads(p, trim, id)
        ensures Agrees(p, Run(p, Restarted(p, content, time, offset, identity), more, cutoff), cutoff)
      {
        SameIds(p, q, content[..offset]);
        NewIsSteady(p, content, time, offset, identity);
        RestartedInv(p, content, time, offset, identity, cutoff);
        RunSteady(p, Restarted(p, content, time, offset, identity), more, cutoff);
      }
    } else {
      var more := RepeatedStrays(q, content, time, offset, identity, cutoff);
      assert Reads(q, trim, id);
    }
  }
}
