/**
 A Codex transcript opened while its first line was incomplete, in which the third
 line carries the message id of the first.  The next scan takes the file for another
 one, relocates behind the first line but keeps the meter of the third, and publishes
 the usage of the second line again, with a value that no batch read gives.  It happens
 on every such file with growing totals, whatever trims, names and decodes its lines.
 */
module TranscriptTornOpen {
  import opened Prelude
  import opened TranscriptFold
  import opened TranscriptTail
  import opened TranscriptRelocation
  import opened CodexTokens
  import opened CodexTranscript

  // ---------------------------------------------------------------- the file

  /** Three lines with running totals; `head` is what the file held when it was opened. */
  datatype File = File(
    name: string, trim: Bytes -> Bytes, id: Bytes -> string, decode: Bytes -> Record,
    head: Bytes, a: Bytes, b: Bytes, c: Bytes, x: int, y: int, z: int)

  function Used(n: int): Tokens {
    Tokens(n, 0, 0, 0, n)
  }

  function Codex(f: File): Parser<State, Event> {
    CodexParser(f.name, f.trim, f.id, f.decode)
  }

  function Lines(f: File): Bytes {
    f.a + f.b + f.c
  }

  /** The line reports this running total. */
  ghost predicate Tells(f: File, line: Bytes, n: int) {
    && OneLine(line) && |line| <= MAX_LINE_BYTES && f.trim(line) != [] && f.id(f.trim(line)) != ""
    && f.decode(f.trim(line)).Usage? && f.decode(f.trim(line)).report.current == Used(n)
  }

  /** Opened within its first line, the id of which comes again on the third; totals grow. */
  ghost predicate Torn(f: File) {
    && Tells(f, f.a, f.x) && Tells(f, f.b, f.y) && Tells(f, f.c, f.z) && 0 < f.x < f.y < f.z
    && f.decode(f.trim(f.b)).report.last == ZERO
    && f.head < f.a && f.trim(f.head) != f.trim(f.a)
    && f.id(f.trim(f.a)) == f.id(f.trim(f.c)) != f.id(f.trim(f.b))
  }

  /** The state after a total; session and turn come from the first line. */
  function Counted(f: File, n: int): State
    requires f.decode(f.trim(f.a)).Usage?
  {
    var turn := FirstNonBlank(f.decode(f.trim(f.a)).turn, "backfill-" + f.name);
    State(f.name, turn, Meter(Used(n), true))
  }

  function Billed(f: File, line: Bytes, n: int): Event {
    Event(f.name, f.id(f.trim(line)), "model.request", "end", Some(Charged(Used(n))))
  }

  // ---------------------------------------------------------------- reading one line

  /** What the line gives under the state it is read in. */
  ghost predicate Gives(f: File, st: State, line: Bytes, at: nat, next: State, e: Event) {
    && OneLine(line) && |line| <= MAX_LINE_BYTES && LineId(Codex(f), line) == f.id(f.trim(line)) != ""
    && Codex(f).parse(st, f.trim(line), at) == Parsed(next, [e], false)
  }

  /** The first total is charged in full. */
  lemma GivesFirst(f: File)
    requires Torn(f)
    ensures Gives(f, State("", "", FRESH), f.a, 0, Counted(f, f.x), Billed(f, f.a, f.x))
  {
    var record := f.decode(f.trim(f.a));
    assert Emit(FRESH, record.report) == [Used(f.x)];
  }

  /** A later total is charged by its growth, or in full if it is lower and tells no last usage. */
  lemma GivesNext(f: File, line: Bytes, at: nat, before: int, n: int)
    requires Torn(f) && Tells(f, line, n) && 0 < before != n && 0 < n
    requires n < before ==> f.decode(f.trim(line)).report.last == ZERO
    requires Counted(f, before).turn != ""
    ensures Gives(f, Counted(f, before), line, at, Counted(f, n),
                  Billed(f, line, if n < before then n else n - before))
  {
    var record := f.decode(f.trim(line));
    assert Emit(Counted(f, before).meter, record.report) == [Used(if n < before then n else n - before)];
  }

  lemma TurnIsNamed(f: File)
    requires f.decode(f.trim(f.a)).Usage?
    ensures Counted(f, f.x).turn != ""
  {
    assert |"backfill-" + f.name| > 0;
  }

  type Tail = World<State, Event>

  /** A scan of the three lines that opened them as `identity`, before the line at `offset`. */
  ghost predicate Scanning(f: File, w: Tail, st: State, offset: nat, identity: Bytes) {
    && w.content == Lines(f) && w.phase.Open?
    && var r := w.phase.reading;
       && r.ready && r.pending == [] && r.state == st && r.offset == offset <= |w.content| && r.identity == identity
  }

  /** What a scan does not change until it ends. */
  ghost predicate SameFile(w: Tail, t: Tail) {
    && t.time == w.time && t.scanned == w.scanned
    && (w.phase.Open? ==> t.phase.Open? && t.phase.reading.stamp == w.phase.reading.stamp)
  }

  const LineActs: seq<Action> := [ReadLine, Publish(Applied)] + [Checkpoint(Applied)]

  lemma NextLine(content: Bytes, offset: nat, line: Bytes)
    requires OneLine(line) && offset + |line| <= |content| && content[offset..offset + |line|] == line
    ensures NextBreak(content, offset) == Some(offset + |line|)
  {
    var end := offset + |line|;
    assert forall i :: 0 <= i < |line| ==> content[offset + i] == line[i];
    assert content[end - 1] == NEWLINE;
    var next := NextBreak(content, offset);
    assert forall i :: offset <= i < end - 1 ==> content[i] == line[i - offset];
  }

  lemma ConsumeGives(f: File, c: Consumed<State, Event>, line: Bytes, at: nat, next: State, e: Event)
    requires Gives(f, c.state, line, at, next, e)
    ensures Consume(Codex(f), c, line, at) == Consumed(next, f.id(f.trim(line)), c.events + [e])
  {}

  /** The reading behind this line, its event still to be published. */
  function Behind(f: File, r: Reading<State, Event>, line: Bytes, next: State, e: Event): Reading<State, Event> {
    r.(state := next, message := f.id(f.trim(line)), offset := r.offset + |line|, lines := r.lines + 1,
       ready := false, pending := [e])
  }

  lemma ReadStep(f: File, w: Tail, r: Reading<State, Event>, line: Bytes, next: State, e: Event, cutoff: nat)
    requires w.phase == Open(r) && r.ready && r.offset + |line| <= |w.content|
    requires w.content[r.offset..r.offset + |line|] == line && Gives(f, r.state, line, r.offset, next, e)
    ensures Step(Codex(f), w, ReadLine, cutoff) == w.(phase := Open(Behind(f, r, line, next, e)))
  {
    NextLine(w.content, r.offset, line);
    ConsumeGives(f, Consumed(r.state, r.message, []), line, r.offset, next, e);
    ReadsTo(Codex(f), w, r, r.offset + |line|, Consumed(next, f.id(f.trim(line)), [] + [e]));
    assert [] + [e] == [e];
  }

  lemma ReadsTo(p: Parser<State, Event>, w: Tail, r: Reading<State, Event>, end: nat, c: Consumed<State, Event>)
    requires w.phase == Open(r) && r.offset <= |w.content| && NextBreak(w.content, r.offset) == Some(end)
    requires end - r.offset <= MAX_LINE_BYTES
    requires Consume(p, Consumed(r.state, r.message, []), w.content[r.offset..end], r.offset) == c
    ensures DoReadLine(p, w, r) ==
            w.(phase := Open(r.(state := c.state, message := c.message, offset := end,
                                lines := r.lines + 1, ready := false, pending := c.events)))
  {}

  lemma PublishStep(f: File, w: Tail, r: Reading<State, Event>, e: Event, cutoff: nat)
    requires w.phase == Open(r) && r.pending == [e]
    ensures Step(Codex(f), w, Publish(Applied), cutoff) ==
            w.(published := w.published + {e}, phase := Open(r.(pending := [])))
  {
    assert [e][1..] == [];
  }

  /** With or without a checkpoint, the scan is ready for the next line. */
  lemma CheckpointStep(f: File, w: Tail, r: Reading<State, Event>, cutoff: nat)
    requires w.phase == Open(r) && !r.ready && r.pending == []
    ensures var t := Step(Codex(f), w, Checkpoint(Applied), cutoff);
            && t.content == w.content && t.time == w.time && t.scanned == w.scanned && t.published == w.published
            && t.phase.Open? && t.phase.reading == r.(ready := true, saved := t.phase.reading.saved,
                                                     lines := t.phase.reading.lines)
  {}

  /** Reading and publishing one line, with or without a checkpoint behind it. */
  lemma ReadsLine(f: File, w: Tail, st: State, offset: nat, identity: Bytes, line: Bytes, next: State, e: Event,
                  cutoff: nat)
    requires Scanning(f, w, st, offset, identity) && offset + |line| <= |Lines(f)|
    requires Lines(f)[offset..offset + |line|] == line && Gives(f, st, line, offset, next, e)
    ensures var t := Run(Codex(f), w, LineActs, cutoff);
            && Scanning(f, t, next, offset + |line|, identity) && SameFile(w, t)
            && t.published == w.published + {e} && t.phase.reading.message == f.id(f.trim(line))
  {
    var r := w.phase.reading;
    RunLine(f, w, cutoff);
    ReadStep(f, w, r, line, next, e, cutoff);
    var r1 := Behind(f, r, line, next, e);
    var w1 := w.(phase := Open(r1));
    PublishStep(f, w1, r1, e, cutoff);
    var r2 := r1.(pending := []);
    CheckpointStep(f, w1.(published := w.published + {e}, phase := Open(r2)), r2, cutoff);
  }

  lemma RunLine(f: File, w: Tail, cutoff: nat)
    ensures var read := Step(Codex(f), w, ReadLine, cutoff);
            var told := Step(Codex(f), read, Publish(Applied), cutoff);
            Run(Codex(f), w, LineActs, cutoff) == Step(Codex(f), told, Checkpoint(Applied), cutoff)
  {
    RunConcat(Codex(f), w, [ReadLine, Publish(Applied)], [Checkpoint(Applied)], cutoff);
    RunTwo(Codex(f), w, ReadLine, Publish(Applied), cutoff);
    var told := Run(Codex(f), w, [ReadLine, Publish(Applied)], cutoff);
    assert [Checkpoint(Applied)][..0] == [] && Run(Codex(f), told, [], cutoff) == told;
  }

  // ---------------------------------------------------------------- the first scan

  lemma Places(f: File)
    ensures Lines(f)[0..|f.a|] == f.a && Lines(f)[..|f.a|] == f.a
    ensures Lines(f)[|f.a|..|f.a| + |f.b|] == f.b
    ensures Lines(f)[|f.a| + |f.b|..|f.a| + |f.b| + |f.c|] == f.c && |Lines(f)| == |f.a| + |f.b| + |f.c|
  {}

  /** The rest of the first line and the other two arrive after the file was opened. */
  function Opening(f: File, time: nat): seq<Action>
    requires |f.head| <= |f.a|
  {
    [Discover, Begin] + [Append(f.a[|f.head|..] + f.b + f.c, time)]
  }

  lemma OpensTorn(f: File, early: nat, late: nat, cutoff: nat)
    requires Torn(f) && cutoff <= early
    ensures var w := Run(Codex(f), Start<State, Event>(f.head, early), Opening(f, late), cutoff);
            && Scanning(f, w, State("", "", FRESH), 0, f.trim(f.head)) && w.published == {}
            && w.time == late && w.scanned == None && w.phase.reading.stamp == Stamp(early, |f.head|)
  {
    var rest := f.a[|f.head|..] + f.b + f.c;
    var w := Start<State, Event>(f.head, early);
    RunConcat(Codex(f), w, [Discover, Begin], [Append(rest, late)], cutoff);
    RunTwo(Codex(f), w, Discover, Begin, cutoff);
    var m := Run(Codex(f), w, [Discover, Begin], cutoff);
    assert [Append(rest, late)][..0] == [] && Run(Codex(f), m, [], cutoff) == m;
    assert f.head + rest == Lines(f);
    assert forall i :: 0 <= i < |f.head| ==> f.head[i] == f.a[i];
    assert NextBreak(f.head, 0) == None;
  }

  /** What the first scan publishes: the batch read. */
  function Bills(f: File): seq<Event> {
    [] + [Billed(f, f.a, f.x)] + [Billed(f, f.b, f.y - f.x)] + [Billed(f, f.c, f.z - f.y)]
  }

  lemma ReadsTwo(f: File, w: Tail, identity: Bytes, cutoff: nat)
    requires Torn(f) && Scanning(f, w, State("", "", FRESH), 0, identity)
    ensures var t := Run(Codex(f), w, LineActs + LineActs, cutoff);
            Scanning(f, t, Counted(f, f.y), |f.a| + |f.b|, identity) && SameFile(w, t)
  {
    Places(f);
    TurnIsNamed(f);
    GivesFirst(f);
    ReadsLine(f, w, State("", "", FRESH), 0, identity, f.a, Counted(f, f.x), Billed(f, f.a, f.x), cutoff);
    RunConcat(Codex(f), w, LineActs, LineActs, cutoff);
    var w1 := Run(Codex(f), w, LineActs, cutoff);
    GivesNext(f, f.b, |f.a|, f.x, f.y);
    ReadsLine(f, w1, Counted(f, f.x), |f.a|, identity, f.b, Counted(f, f.y), Billed(f, f.b, f.y - f.x), cutoff);
  }

  lemma ReadsAll(f: File, w: Tail, identity: Bytes, cutoff: nat)
    requires Torn(f) && Scanning(f, w, State("", "", FRESH), 0, identity)
    ensures var t := Run(Codex(f), w, LineActs + LineActs + LineActs, cutoff);
            && Scanning(f, t, Counted(f, f.z), |Lines(f)|, identity) && SameFile(w, t)
            && t.phase.reading.message == f.id(f.trim(f.a))
  {
    ReadsTwo(f, w, identity, cutoff);
    Places(f);
    TurnIsNamed(f);
    var m := Run(Codex(f), w, LineActs + LineActs, cutoff);
    RunConcat(Codex(f), w, LineActs + LineActs, LineActs, cutoff);
    GivesNext(f, f.c, |f.a| + |f.b|, f.y, f.z);
    ReadsLine(f, m, Counted(f, f.y), |f.a| + |f.b|, identity, f.c, Counted(f, f.z), Billed(f, f.c, f.z - f.y), cutoff);
  }

  /** All lines are read, under the identity of half a line. */
  ghost predicate TornCursor(f: File, w: Tail, early: nat, late: nat) {
    && w.content == Lines(f) && w.phase.Idle? && w.time == late
    && w.scanned == (if early == 0 then None else Some(Stamp(early, |f.head|)))
    && f.decode(f.trim(f.a)).Usage?
    && w.cursor == Some(Cursor(Counted(f, f.z), |Lines(f)|, f.id(f.trim(f.a)), f.trim(f.head)))
  }

  function FirstScan(f: File, time: nat): seq<Action>
    requires |f.head| <= |f.a|
  {
    Opening(f, time) + (LineActs + LineActs + LineActs) + [Finish(Applied)]
  }

  lemma FirstScanIsTorn(f: File, early: nat, late: nat, cutoff: nat)
    requires Torn(f) && cutoff <= early
    ensures TornCursor(f, Run(Codex(f), Start<State, Event>(f.head, early), FirstScan(f, late), cutoff), early, late)
  {
    var w := Start<State, Event>(f.head, early);
    var lines := LineActs + LineActs + LineActs;
    OpensTorn(f, early, late, cutoff);
    var torn := Run(Codex(f), w, Opening(f, late), cutoff);
    RunConcat(Codex(f), w, Opening(f, late), lines, cutoff);
    ReadsAll(f, torn, f.trim(f.head), cutoff);
    RunConcat(Codex(f), w, Opening(f, late) + lines, [Finish(Applied)], cutoff);
    FinishesTorn(f, Run(Codex(f), torn, lines, cutoff), early, late, cutoff);
  }

  lemma FinishesTorn(f: File, w: Tail, early: nat, late: nat, cutoff: nat)
    requires Torn(f) && Scanning(f, w, Counted(f, f.z), |Lines(f)|, f.trim(f.head)) && w.time == late
    requires w.scanned == None && w.phase.reading.stamp == Stamp(early, |f.head|)
    requires w.phase.reading.message == f.id(f.trim(f.a))
    ensures TornCursor(f, Run(Codex(f), w, [Finish(Applied)], cutoff), early, late)
  {
    assert [Finish(Applied)][..0] == [] && Run(Codex(f), w, [], cutoff) == w;
    assert NextBreak(Lines(f), |Lines(f)|) == None;
  }

  // ---------------------------------------------------------------- the second scan

  /** The file looks different; the id of the last line is found on the first one. */
  lemma ReopensBehindFirst(f: File, w: Tail, early: nat, late: nat, cutoff: nat)
    requires Torn(f) && TornCursor(f, w, early, late) && cutoff <= late
    ensures Scanning(f, Run(Codex(f), w, [Discover, Begin], cutoff), Counted(f, f.z), |f.a|, f.trim(f.a))
  {
    RunTwo(Codex(f), w, Discover, Begin, cutoff);
    Places(f);
    NextLine(Lines(f), 0, f.a);
    assert Identity(Codex(f), Lines(f)) == f.trim(f.a);
    assert LineId(Codex(f), Lines(f)[0..|f.a|]) == f.id(f.trim(f.a));
    assert FindMessage(Codex(f), Lines(f), 0, f.id(f.trim(f.a))) == Some(|f.a|);
    assert Step(Codex(f), w, Discover, cutoff).phase == Found(Stamp(late, |Lines(f)|));
  }

  const SecondScan: seq<Action> := [Discover, Begin] + LineActs

  lemma SecondScanStrays(f: File, w: Tail, early: nat, late: nat, cutoff: nat)
    requires Torn(f) && TornCursor(f, w, early, late) && cutoff <= late
    ensures var t := Run(Codex(f), w, SecondScan, cutoff);
            t.content == Lines(f) && Billed(f, f.b, f.y) in t.published
  {
    ReopensBehindFirst(f, w, early, late, cutoff);
    var m := Run(Codex(f), w, [Discover, Begin], cutoff);
    Places(f);
    TurnIsNamed(f);
    GivesNext(f, f.b, |f.a|, f.z, f.y);
    ReadsLine(f, m, Counted(f, f.z), |f.a|, f.trim(f.a), f.b, Counted(f, f.y), Billed(f, f.b, f.y), cutoff);
    RunConcat(Codex(f), w, [Discover, Begin], LineActs, cutoff);
  }

  // ---------------------------------------------------------------- the batch read

  lemma BatchRead(f: File)
    requires Torn(f)
    ensures LastBreak(Lines(f)) == |Lines(f)| && Fold(Codex(f), Lines(f)).events == Bills(f)
  {
    var p := Codex(f);
    FoldThree(p, f.a, f.b, f.c);
    BatchBills(f);
  }

  lemma BatchBills(f: File)
    requires Torn(f)
    ensures var one := Consume(Codex(f), Consumed(State("", "", FRESH), "", []), f.a, 0);
            var two := Consume(Codex(f), one, f.b, |f.a|);
            Consume(Codex(f), two, f.c, |f.a| + |f.b|).events == Bills(f)
  {
    TurnIsNamed(f);
    GivesFirst(f);
    ConsumeGives(f, Consumed(State("", "", FRESH), "", []), f.a, 0, Counted(f, f.x), Billed(f, f.a, f.x));
    var one := Consume(Codex(f), Consumed(State("", "", FRESH), "", []), f.a, 0);
    GivesNext(f, f.b, |f.a|, f.x, f.y);
    ConsumeGives(f, one, f.b, |f.a|, Counted(f, f.y), Billed(f, f.b, f.y - f.x));
    var two := Consume(Codex(f), one, f.b, |f.a|);
    GivesNext(f, f.c, |f.a| + |f.b|, f.y, f.z);
    ConsumeGives(f, two, f.c, |f.a| + |f.b|, Counted(f, f.z), Billed(f, f.c, f.z - f.y));
  }

  /**
   On every torn file the second scan publishes the second line again, under the same key,
   with the whole running total where the batch read gives its growth.
   */
  lemma TornOpenPublishesStray(f: File, early: nat, late: nat, cutoff: nat)
    requires Torn(f) && cutoff <= early && cutoff <= late
    ensures var w := Run(Codex(f), Start<State, Event>(f.head, early), FirstScan(f, late) + SecondScan, cutoff);
            var batch := Fold(Codex(f), w.content[..LastBreak(w.content)]).events;
            && batch == Bills(f)
            && Billed(f, f.b, f.y) in w.published && Billed(f, f.b, f.y) !in batch
  {
    var start := Start<State, Event>(f.head, early);
    FirstScanIsTorn(f, early, late, cutoff);
    RunConcat(Codex(f), start, FirstScan(f, late), SecondScan, cutoff);
    SecondScanStrays(f, Run(Codex(f), start, FirstScan(f, late), cutoff), early, late, cutoff);
    BatchRead(f);
    assert Lines(f)[..|Lines(f)|] == Lines(f);
    NotBilled(f);
  }

  lemma NotBilled(f: File)
    requires Torn(f)
    ensures Billed(f, f.b, f.y) !in Bills(f)
  {
    assert Charged(Used(f.y)).output == 0 && Charged(Used(f.y)).input == f.y;
    assert Charged(Used(f.y - f.x)).input == f.y - f.x;
  }

  // ---------------------------------------------------------------- a file

  function WithoutNewline(b: Bytes): Bytes {
    if b != [] && b[|b| - 1] == NEWLINE then b[..|b| - 1] else b
  }

  /** The line that starts with an `R` has an id of its own, the others share one. */
  function FirstLetter(b: Bytes): string {
    if b != [] && b[0] == 82 then "y" else "x"
  }

  /** Letters stand for running totals: P for 5, R for 8, anything else for 9. */
  function LetterTotal(b: Bytes): Record {
    Record.Usage("", Report(Used(if b != [] && b[0] == 80 then 5 else if b != [] && b[0] == 82 then 8 else 9), ZERO))
  }

  /** The lines "PQ", "R" and "S", opened when only "P" had been written. */
  const Letters: File :=
    File("f", WithoutNewline, FirstLetter, LetterTotal, [80], [80, 81, 10], [82, 10], [83, 10], 5, 8, 9)

  lemma LettersAreTorn()
    ensures Torn(Letters)
  {
    assert WithoutNewline([80]) == [80] && WithoutNewline([80, 81, 10]) == [80, 81];
    assert WithoutNewline([82, 10]) == [82] && WithoutNewline([83, 10]) == [83];
  }
}
