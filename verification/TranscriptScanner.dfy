/**
 One scan of one file as the program runs it: a read loop with a nested publish
 loop, a durable cursor written now and then, and an early return on any error.
 The outcomes of the external writes are arguments.
 */
module TranscriptScanner {
  import opened Prelude
  import opened TranscriptFold
  import opened TranscriptTail
  import opened TranscriptTailTheorems
  import opened TranscriptLines

  class Tailer<S(==), E(==,!new)> {
    var cursor: Option<Cursor<S>>
    var published: set<E>

    /** The cursor is the fold of what it consumed, and all of that is published. */
    ghost predicate Valid(p: Parser<S, E>, content: Bytes)
      reads this
    {
      cursor.Some? ==>
        var c := cursor.value;
        && c.offset <= |content| && Follows(p, content[..c.offset], c.state, c.message)
        && Covered(p, content[..c.offset], published, [])
    }

    constructor ()
      ensures cursor.None? && published == {}
    {
      cursor, published := None, {};
    }

    /** Send `n` is the first that is not acknowledged, and the last that was made. */
    ghost predicate FailsAt(events: seq<E>, outcome: nat -> Write, n: nat, before: set<E>, after: set<E>) {
      && n < |events| && !outcome(n).Applied? && (forall i :: 0 <= i < n ==> outcome(i).Applied?)
      && after == before + (set e | e in events[..n]) + (if outcome(n).FailedLost? then {} else {events[n]})
    }

    /** Publish the events of one line in order; stop at the first failure. */
    method PublishAll(events: seq<E>, outcome: nat -> Write) returns (ok: bool)
      modifies this`published
      ensures old(published) <= published <= old(published) + set e | e in events
      ensures ok <==> forall i :: 0 <= i < |events| ==> outcome(i).Applied?
      ensures ok ==> published == old(published) + set e | e in events
      ensures !ok ==> exists n :: FailsAt(events, outcome, n, old(published), published)
    {
      var i := 0;
      while i < |events|
        invariant i <= |events| && forall j :: 0 <= j < i ==> outcome(j).Applied?
        invariant published == old(published) + set e | e in events[..i]
      {
        var out := outcome(i);
        if !out.FailedLost? {
          published := published + {events[i]};
        }
        if !out.Applied? {
          assert FailsAt(events, outcome, i, old(published), published);
          return false;
        }
        i := i + 1;
      }
      assert events[..i] == events;
      ok := true;
    }

    /** Store the cursor of the lines consumed so far. */
    method Store(next: Cursor<S>, out: Write) returns (ok: bool)
      modifies this`cursor
      ensures cursor == if out.FailedLost? then old(cursor) else Some(next)
      ensures ok <==> out.Applied?
    {
      if !out.FailedLost? {
        cursor := Some(next);
      }
      ok := out.Applied?;
    }

    /** The read stands at `offset`: `c` is its fold and all its events are out. */
    ghost predicate At(p: Parser<S, E>, content: Bytes, offset: nat, c: Consumed<S, E>)
      reads this
    {
      && offset <= |content| && Follows(p, content[..offset], c.state, c.message) && c.events == []
      && Covered(p, content[..offset], published, []) && Valid(p, content)
    }

    /** Since `before` only events of the batch read were added. */
    ghost predicate Added(p: Parser<S, E>, content: Bytes, before: set<E>)
      reads this
    {
      && before <= published
      && forall e :: e in published - before ==> e in Fold(p, content[..LastBreak(content)]).events
    }

    /** Publish one line's events and move on; `next` is what the line adds. */
    method OneLine(p: Parser<S, E>, content: Bytes, offset: nat, end: nat, c: Consumed<S, E>, outcome: nat -> Write,
                   ghost before: set<E>)
      returns (ok: bool, next: Consumed<S, E>)
      requires At(p, content, offset, c) && Added(p, content, before) && NextBreak(content, offset) == Some(end)
      modifies this`published
      ensures Valid(p, content) && Added(p, content, before)
      ensures ok ==> At(p, content, end, next)
    {
      var after := Consume(p, c, content[offset..end], offset);
      NextLine(p, content, offset, end, c);
      InBatch(p, content, end);
      ok := PublishAll(after.events, outcome);
      next := Consumed(after.state, after.message, []);
    }

    /** The cursor stands at `saved`, or nothing was stored since the scan began there. */
    ghost predicate Saved(from: nat, saved: nat)
      reads this
    {
      saved == from || (cursor.Some? && cursor.value.offset == saved)
    }

    /** The lines read so far, and those since the cursor was stored. */
    ghost predicate Counted(content: Bytes, from: nat, saved: nat, offset: nat, lines: nat, unsaved: nat) {
      && from <= saved <= offset <= |content|
      && lines == Newlines(content[from..offset]) && unsaved == Newlines(content[saved..offset])
    }

    lemma CountedNext(content: Bytes, from: nat, saved: nat, offset: nat, end: nat, lines: nat, unsaved: nat)
      requires Counted(content, from, saved, offset, lines, unsaved) && NextBreak(content, offset) == Some(end)
      ensures Counted(content, from, saved, end, lines + 1, unsaved + 1)
      ensures Counted(content, from, end, end, lines + 1, 0)
    {
      OneMoreLine(content, from, offset, end);
      OneMoreLine(content, saved, offset, end);
    }

    /** Fewer than 256 lines and 8 MiB before `offset` are not covered by a stored cursor. */
    ghost predicate Near(content: Bytes, from: nat, offset: nat)
      reads this
    {
      exists saved: nat ::
        && Saved(from, saved) && saved <= offset <= |content|
        && Newlines(content[saved..offset]) < 256 && offset - saved < 8 * 1024 * 1024
    }

    /** Read, publish and checkpoint line by line, up to the last complete line. */
    method ReadLines(p: Parser<S, E>, content: Bytes, from: nat, c0: Consumed<S, E>, identity: Bytes,
                     sends: (nat, nat) -> Write, saves: nat -> Write)
      returns (ok: bool, offset: nat, c: Consumed<S, E>, linesRead: nat)
      requires At(p, content, from, c0)
      modifies this
      ensures Valid(p, content) && Added(p, content, old(published))
      ensures ok ==> At(p, content, offset, c) && offset == LastBreak(content)
      ensures ok ==> linesRead == Newlines(content[from..offset])
      ensures (forall n :: saves(n).Applied?) ==> Near(content, from, offset)
    {
      c, offset, linesRead, ok := c0, from, 0, true;
      var saved, unsaved := from, 0;
      while NextBreak(content, offset).Some?
        invariant At(p, content, offset, c) && Added(p, content, old(published))
        invariant Counted(content, from, saved, offset, linesRead, unsaved) && Saved(from, saved)
        invariant unsaved < CHECKPOINT_LINES && offset - saved < CHECKPOINT_BYTES
        decreases |content| - offset
      {
        var end := NextBreak(content, offset).value;
        CountedNext(content, from, saved, offset, end, linesRead, unsaved);
        if end - offset > MAX_LINE_BYTES {
          return false, offset, c, linesRead;
        }
        linesRead, unsaved := linesRead + 1, unsaved + 1;
        ok, c := OneLine(p, content, offset, end, c, (i: nat) => sends(end, i), old(published));
        if !ok {
          return;
        }
        offset := end;
        if unsaved >= CHECKPOINT_LINES || offset - saved >= CHECKPOINT_BYTES {
          ok := Store(Cursor(c.state, offset, c.message, identity), saves(offset));
          if !ok {
            return;
          }
          saved, unsaved := offset, 0;
        }
      }
      NothingNext(content, offset);
      ok := true;
    }

    /**
     Scan the file.  However it ends, the cursor stays the fold of what it consumed
     and only what the lines of the file yield is added; without error all of that is out.
     */
    method ScanFile(p: Parser<S, E>, content: Bytes, sends: (nat, nat) -> Write, saves: nat -> Write)
      returns (ok: bool, linesRead: nat)
      requires Valid(p, content)
      requires cursor.Some? ==>
            cursor.value.identity == Identity(p, content) || LastIdIsNew(p, content[..cursor.value.offset])
      modifies this
      ensures Valid(p, content) && Added(p, content, old(published))
      ensures ok ==> cursor.Some? && cursor.value.offset == LastBreak(content)
      ensures AtEnd(p, content, old(cursor)) ==> ok && cursor == old(cursor) && linesRead == 0
      ensures ok && !AtEnd(p, content, old(cursor)) ==>
            var start := Resume(p, content, old(cursor), Stamp(0, |content|)).offset;
            start <= LastBreak(content) && linesRead == Newlines(content[start..LastBreak(content)])
      ensures forall e :: e in published - old(published) ==> Yielded(p, content, |content|, e)
      ensures ok ==> forall e :: Yielded(p, content, |content|, e) ==> e in published
    {
      LinesYield(p, content);
      if AtEnd(p, content, cursor) {
        return true, 0;
      }
      Resumes(p, content);
      var start: Reading<S, E> := Resume(p, content, cursor, Stamp(0, |content|));
      var offset: nat, c: Consumed<S, E>;
      ok, offset, c, linesRead :=
        ReadLines(p, content, start.offset, Consumed(start.state, start.message, []), start.identity, sends, saves);
      if ok {
        ok := Store(Cursor(c.state, offset, c.message, start.identity), saves(offset));
      }
    }

    lemma Resumes(p: Parser<S, E>, content: Bytes)
      requires Valid(p, content)
      requires cursor.Some? ==>
            cursor.value.identity == Identity(p, content) || LastIdIsNew(p, content[..cursor.value.offset])
      ensures var r := Resume(p, content, cursor, Stamp(0, |content|));
              && r.offset <= |content| && Follows(p, content[..r.offset], r.state, r.message)
              && Covered(p, content[..r.offset], published, [])
    {
      var w: World<S, E> := World(content, 0, cursor, None, Idle, published, None);
      ResumeFollows(p, w, Stamp(0, |content|));
    }
  }

  lemma LinesYield<S, E(!new)>(p: Parser<S, E>, content: Bytes)
    ensures forall e :: e in Fold(p, content[..LastBreak(content)]).events <==> Yielded(p, content, |content|, e)
  {
    forall e ensures e in Fold(p, content[..LastBreak(content)]).events <==> Yielded(p, content, |content|, e) {
      BatchYields(p, content, e);
    }
  }

  /** What a line adds to the fold is its own events. */
  lemma {:induction false} NextLine<S, E>(p: Parser<S, E>, content: Bytes, offset: nat, end: nat, c: Consumed<S, E>)
    requires offset <= |content| && NextBreak(content, offset) == Some(end)
    requires Follows(p, content[..offset], c.state, c.message) && c.events == []
    ensures var after := Consume(p, c, content[offset..end], offset);
            && Follows(p, content[..end], after.state, after.message)
            && Fold(p, content[..end]).events == Fold(p, content[..offset]).events + after.events
  {
    var done := Fold(p, content[..offset]);
    var line := content[offset..end];
    assert c == Consumed(done.state, done.message, []);
    FoldNext(p, content, offset, end);
    ConsumeAdds(p, done, line, offset);
  }

  lemma {:induction false} InBatch<S, E>(p: Parser<S, E>, content: Bytes, end: nat)
    requires end <= |content| && Whole(content[..end])
    ensures forall e :: e in Fold(p, content[..end]).events ==> e in Fold(p, content[..LastBreak(content)]).events
  {
    WholeBelow(content, end);
    EventsGrow(p, content, end, LastBreak(content));
  }
}
