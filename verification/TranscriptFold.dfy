/**
 One batch read of a transcript: the complete lines of a file, parsed in order
 with a state carried from line to line.  The parser itself is a parameter, so
 everything here holds for both transcript formats.
 */
module TranscriptFold {
  import opened Prelude

  newtype Byte = x: int | 0 <= x < 256

  type Bytes = seq<Byte>

  const NEWLINE: Byte := 10
  const MAX_LINE_BYTES: nat := 64 * 1024 * 1024

  /** What one line yields; the events of a `stale` line are older than retention. */
  datatype Parsed<S, E> = Parsed(state: S, events: seq<E>, stale: bool)

  /** `id` is the message id written in a line, empty for a line that does not parse. */
  datatype Parser<!S, !E> = Parser(
    init: S, trim: Bytes -> Bytes, id: Bytes -> string, parse: (S, Bytes, nat) -> Parsed<S, E>)

  /** Everything known after some complete lines: state, last message id, events to publish. */
  datatype Consumed<S, E> = Consumed(state: S, message: string, events: seq<E>)

  // ---------------------------------------------------------------- lines

  predicate Whole(b: Bytes) {
    b == [] || b[|b| - 1] == NEWLINE
  }

  /** Length of the part of `b` made of complete lines. */
  function LastBreak(b: Bytes): (n: nat)
    ensures n <= |b| && Whole(b[..n])
    ensures forall i :: n <= i < |b| ==> b[i] != NEWLINE
  {
    if b == [] then 0
    else if b[|b| - 1] == NEWLINE then |b|
    else
      var n := LastBreak(b[..|b| - 1]);
      assert b[..|b| - 1][..n] == b[..n];
      n
  }

  /** End of the first complete line that starts at `from`. */
  function NextBreak(b: Bytes, from: nat): (end: Option<nat>)
    requires from <= |b|
    ensures end.Some? ==> from < end.value <= |b| && b[end.value - 1] == NEWLINE
    ensures end.Some? ==> forall i :: from <= i < end.value - 1 ==> b[i] != NEWLINE
    ensures end.None? ==> forall i :: from <= i < |b| ==> b[i] != NEWLINE
    decreases |b| - from
  {
    if from == |b| then None
    else if b[from] == NEWLINE then Some(from + 1)
    else NextBreak(b, from + 1)
  }

  lemma LastBreakIs(b: Bytes, n: nat)
    requires n <= |b| && Whole(b[..n]) && forall i :: n <= i < |b| ==> b[i] != NEWLINE
    ensures LastBreak(b) == n
  {
    var m := LastBreak(b);
    assert n > 0 ==> b[..n][n - 1] == b[n - 1];
    assert m > 0 ==> b[..m][m - 1] == b[m - 1];
  }

  // ---------------------------------------------------------------- the fold

  /** Blank lines and lines that do not parse have no id. */
  function LineId<S, E>(p: Parser<S, E>, line: Bytes): string {
    var trimmed := p.trim(line);
    if trimmed == [] then "" else p.id(trimmed)
  }

  /** A line without id changes nothing. */
  function Consume<S, E>(p: Parser<S, E>, c: Consumed<S, E>, line: Bytes, at: nat): Consumed<S, E> {
    var id := LineId(p, line);
    if id == "" then c
    else
      var parsed := p.parse(c.state, p.trim(line), at);
      Consumed(parsed.state, id, c.events + (if parsed.stale then [] else parsed.events))
  }

  /** Parse the lines of `b` in order. */
  function Fold<S, E>(p: Parser<S, E>, b: Bytes): Consumed<S, E>
    decreases |b|
  {
    if b == [] then Consumed(p.init, "", [])
    else
      var start := LastBreak(b[..|b| - 1]);
      Consume(p, Fold(p, b[..start]), b[start..], start)
  }

  /** Reading one more line is one more step of the fold. */
  lemma {:induction false} FoldNext<S, E>(p: Parser<S, E>, b: Bytes, from: nat, end: nat)
    requires from <= |b| && Whole(b[..from]) && NextBreak(b, from) == Some(end)
    ensures Fold(p, b[..end]) == Consume(p, Fold(p, b[..from]), b[from..end], from)
    ensures Whole(b[..end])
  {
    NextLineIs(b, from, end);
    FoldLine(p, b[..from], b[from..end]);
  }

  lemma NextLineIs(b: Bytes, from: nat, end: nat)
    requires from <= |b| && NextBreak(b, from) == Some(end)
    ensures from < end <= |b| && b[..end] == b[..from] + b[from..end] && Whole(b[..end])
    ensures var line := b[from..end]; line != [] && forall i :: 0 <= i < |line| - 1 ==> line[i] != NEWLINE
  {}

  lemma {:induction false} FoldLine<S, E>(p: Parser<S, E>, pre: Bytes, line: Bytes)
    requires Whole(pre) && line != [] && forall i :: 0 <= i < |line| - 1 ==> line[i] != NEWLINE
    ensures Fold(p, pre + line) == Consume(p, Fold(p, pre), line, |pre|)
  {
    var read := pre + line;
    assert read[..|read| - 1][..|pre|] == pre;
    LastBreakIs(read[..|read| - 1], |pre|);
    assert read[..|pre|] == pre && read[|pre|..] == line;
  }

  /** Is this one complete line? */
  predicate OneLine(line: Bytes) {
    line != [] && line[|line| - 1] == NEWLINE && forall i :: 0 <= i < |line| - 1 ==> line[i] != NEWLINE
  }

  lemma {:induction false} FoldOne<S, E>(p: Parser<S, E>, pre: Bytes, line: Bytes, c: Consumed<S, E>)
    requires Whole(pre) && OneLine(line) && Fold(p, pre) == c
    ensures Whole(pre + line) && Fold(p, pre + line) == Consume(p, c, line, |pre|)
  {
    FoldLine(p, pre, line);
  }

  /** Reading three lines, written out. */
  lemma {:induction false} FoldThree<S, E>(p: Parser<S, E>, a: Bytes, b: Bytes, c: Bytes)
    requires OneLine(a) && OneLine(b) && OneLine(c)
    ensures var one := Consume(p, Consumed(p.init, "", []), a, 0);
            var two := Consume(p, one, b, |a|);
            Fold(p, a + b + c) == Consume(p, two, c, |a| + |b|) && LastBreak(a + b + c) == |a + b + c|
  {
    var none: Bytes := [];
    var one := Consume(p, Consumed(p.init, "", []), a, 0);
    assert none + a == a;
    FoldOne(p, none, a, Consumed(p.init, "", []));
    FoldOne(p, a, b, one);
    FoldOne(p, a + b, c, Consume(p, one, b, |a|));
  }

  /** No further complete line: everything complete has been read. */
  lemma NothingNext(b: Bytes, from: nat)
    requires from <= |b| && Whole(b[..from]) && NextBreak(b, from).None?
    ensures from == LastBreak(b)
  {
    LastBreakIs(b, from);
  }

  /** The last line of a longer read starts behind the shorter one. */
  lemma LastLineOf(b: Bytes, m: nat, n: nat)
    requires m < n <= |b| && Whole(b[..m])
    ensures var start := LastBreak(b[..n - 1]);
            && m <= start < n && Whole(b[..start]) && b[..start] + b[start..n] == b[..n]
            && forall i :: start <= i < n - 1 ==> b[i] != NEWLINE
  {
    var start := LastBreak(b[..n - 1]);
    assert m > 0 ==> b[..m][m - 1] == b[..n - 1][m - 1];
    assert b[..n - 1][..start] == b[..start];
    assert forall i :: start <= i < n - 1 ==> b[..n - 1][i] == b[i];
  }

  lemma {:induction false} FoldBack<S, E>(p: Parser<S, E>, b: Bytes, m: nat, n: nat)
    requires m < n <= |b| && Whole(b[..m])
    ensures var start := LastBreak(b[..n - 1]);
            && m <= start < n && Whole(b[..start])
            && Fold(p, b[..n]) == Consume(p, Fold(p, b[..start]), b[start..n], start)
  {
    LastLineOf(b, m, n);
    var start := LastBreak(b[..n - 1]);
    FoldLine(p, b[..start], b[start..n]);
  }

  /** A longer read publishes what a shorter one does, and then more. */
  lemma {:induction false} EventsGrow<S, E>(p: Parser<S, E>, b: Bytes, m: nat, n: nat)
    requires m <= n <= |b| && Whole(b[..m])
    ensures Fold(p, b[..m]).events <= Fold(p, b[..n]).events
    decreases n
  {
    if m == n {
    } else {
      FoldBack(p, b, m, n);
      EventsGrow(p, b, m, LastBreak(b[..n - 1]));
    }
  }

  lemma BreakGrows(b: Bytes, n: nat)
    requires n <= |b|
    ensures LastBreak(b[..n]) <= LastBreak(b)
  {
    var m := LastBreak(b[..n]);
    if m > 0 {
      assert b[..n][..m][m - 1] == b[m - 1];
    }
  }

  /** `b[start..end]` is one complete line of `b`. */
  predicate IsLine(b: Bytes, start: nat, end: nat) {
    && start < end <= |b| && Whole(b[..start]) && b[end - 1] == NEWLINE
    && forall i :: start <= i < end - 1 ==> b[i] != NEWLINE
  }

  lemma NextIs(b: Bytes, start: nat, end: nat)
    requires IsLine(b, start, end)
    ensures NextBreak(b, start) == Some(end)
  {
    var next := NextBreak(b, start);
    assert b[end - 1] == NEWLINE;
  }

  /** The last line of complete content. */
  lemma LineBefore(b: Bytes)
    requires b != [] && Whole(b)
    ensures IsLine(b, LastBreak(b[..|b| - 1]), |b|)
  {
    var start := LastBreak(b[..|b| - 1]);
    assert b[..|b| - 1][..start] == b[..start];
    assert forall i :: start <= i < |b| - 1 ==> b[..|b| - 1][i] == b[i];
  }

  /** Lines of a prefix are lines of the whole. */
  lemma LineOfPrefix(b: Bytes, n: nat, start: nat, end: nat)
    requires n <= |b| && IsLine(b[..n], start, end)
    ensures IsLine(b, start, end)
    ensures b[..n][..start] == b[..start] && b[..n][start..end] == b[start..end] && b[..n][..end] == b[..end]
  {
    assert b[..n][..start] == b[..start];
    assert forall i :: start <= i < end ==> b[..n][i] == b[i];
  }
}
