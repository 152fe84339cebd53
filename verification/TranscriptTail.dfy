/**
 Following a growing transcript.  A scan opens the file, resumes from the durable
 cursor, reads line by line, publishes each event and stores the cursor from time
 to time; appends, failed or ambiguous writes and restarts may come between any
 two steps.  The file only ever grows.
 */
module TranscriptTail {
  import opened Prelude
  import opened TranscriptFold

  const CHECKPOINT_LINES: nat := 256
  const CHECKPOINT_BYTES: nat := 8 * 1024 * 1024

  /** The durable cursor of one file. */
  datatype Cursor<S> = Cursor(state: S, offset: nat, message: string, identity: Bytes)

  /** Modification time and size, as discovery saw them; time 0 is unknown. */
  datatype Stamp = Stamp(time: nat, size: nat)

  /** A scan between two of its steps; `pending` are the events of the line just read. */
  datatype Reading<S, E> = Reading(
    stamp: Stamp, state: S, offset: nat, message: string, identity: Bytes,
    saved: nat, lines: nat, ready: bool, pending: seq<E>)

  datatype Phase<S, E> = Idle | Found(stamp: Stamp) | Open(reading: Reading<S, E>)

  /** `passed` is the stamp of the last pass over the file that reported no error. */
  datatype World<S, E> = World(
    content: Bytes, time: nat,
    cursor: Option<Cursor<S>>, scanned: Option<Stamp>,
    phase: Phase<S, E>, published: set<E>, passed: Option<Stamp>)

  datatype Action =
    | Append(more: Bytes, time: nat)
    | Discover
    | Skip
    | Begin
    | ReadLine
    | Publish(w: Write)
    | Checkpoint(w: Write)
    | Finish(w: Write)
    | Fail
    | Crash

  function Start<S, E>(content: Bytes, time: nat): World<S, E> {
    World(content, time, None, None, Idle, {}, None)
  }

  /** Files last written before the retention window are not opened at all. */
  predicate InWindow(stamp: Stamp, cutoff: nat) {
    stamp.time == 0 || cutoff <= stamp.time
  }

  // ---------------------------------------------------------------- opening

  /** The digest of the first line, complete or not. */
  function Identity<S, E>(p: Parser<S, E>, content: Bytes): Bytes {
    var end := NextBreak(content, 0);
    p.trim(if end.Some? then content[..end.value] else content)
  }

  /** End of the first complete line, from `from` on, that carries the message id. */
  function FindMessage<S, E>(p: Parser<S, E>, content: Bytes, from: nat, wanted: string): (end: Option<nat>)
    requires from <= |content|
    ensures end.Some? ==> from < end.value <= |content| && content[end.value - 1] == NEWLINE
    decreases |content| - from
  {
    var next := NextBreak(content, from);
    if next.None? then None
    else if LineId(p, content[from..next.value]) == wanted then next
    else FindMessage(p, content, next.value, wanted)
  }

  /** Where a cursor whose file looks different resumes, and whether it keeps its state. */
  function Relocate<S, E>(p: Parser<S, E>, content: Bytes, c: Cursor<S>): (nat, S) {
    var found := if c.message == "" then None else FindMessage(p, content, 0, c.message);
    if found.Some? then (found.value, c.state) else (0, p.init)
  }

  /** Where and in which state the scan resumes. */
  function Resume<S, E>(p: Parser<S, E>, content: Bytes, cursor: Option<Cursor<S>>, stamp: Stamp): Reading<S, E> {
    var identity := Identity(p, content);
    if cursor.None? then Reading(stamp, p.init, 0, "", identity, 0, 0, true, [])
    else
      var c := cursor.value;
      var (offset, state) :=
        if c.identity != identity || |content| < c.offset then Relocate(p, content, c) else (c.offset, c.state);
      Reading(stamp, state, offset, c.message, identity, offset, 0, true, [])
  }

  /** Nothing new since the durable cursor. */
  predicate AtEnd<S, E>(p: Parser<S, E>, content: Bytes, cursor: Option<Cursor<S>>) {
    cursor.Some? && cursor.value.identity == Identity(p, content) && cursor.value.offset == |content|
  }

  // ---------------------------------------------------------------- steps

  function Remember(scanned: Option<Stamp>, stamp: Stamp): Option<Stamp> {
    if stamp.time != 0 then Some(stamp) else scanned
  }

  /** A pass over the file ends without error. */
  function Pass<S, E>(w: World<S, E>, stamp: Stamp): World<S, E> {
    w.(phase := Idle, scanned := Remember(w.scanned, stamp), passed := Some(stamp))
  }

  function DoBegin<S, E>(p: Parser<S, E>, w: World<S, E>, stamp: Stamp): World<S, E> {
    if AtEnd(p, w.content, w.cursor) then Pass(w, stamp)
    else w.(phase := Open(Resume(p, w.content, w.cursor, stamp)))
  }

  /** The next complete line; one that is too long ends the scan with an error. */
  function DoReadLine<S, E>(p: Parser<S, E>, w: World<S, E>, r: Reading<S, E>): World<S, E>
    requires r.offset <= |w.content|
  {
    var end := NextBreak(w.content, r.offset);
    if end.None? then w
    else if end.value - r.offset > MAX_LINE_BYTES then w.(phase := Idle)
    else
      var next := Consume(p, Consumed(r.state, r.message, []), w.content[r.offset..end.value], r.offset);
      w.(phase := Open(r.(state := next.state, message := next.message, offset := end.value,
                          lines := r.lines + 1, ready := false, pending := next.events)))
  }

  function DoPublish<S, E>(w: World<S, E>, r: Reading<S, E>, out: Write): World<S, E>
    requires r.pending != []
  {
    var published := if out.FailedLost? then w.published else w.published + {r.pending[0]};
    var phase := if out.Applied? then Open(r.(pending := r.pending[1..])) else Idle;
    w.(published := published, phase := phase)
  }

  predicate Due<S, E>(r: Reading<S, E>) {
    r.lines >= CHECKPOINT_LINES || r.offset - r.saved >= CHECKPOINT_BYTES
  }

  function Save<S, E>(w: World<S, E>, r: Reading<S, E>, out: Write): Option<Cursor<S>> {
    if out.FailedLost? then w.cursor else Some(Cursor(r.state, r.offset, r.message, r.identity))
  }

  /** After a line: store the cursor if enough was read since the last time. */
  function DoCheckpoint<S, E>(w: World<S, E>, r: Reading<S, E>, out: Write): World<S, E> {
    if !Due(r) then w.(phase := Open(r.(ready := true)))
    else
      var phase := if out.Applied? then Open(r.(ready := true, saved := r.offset, lines := 0)) else Idle;
      w.(cursor := Save(w, r, out), phase := phase)
  }

  /** No complete line is left: store the cursor and end the pass. */
  function DoFinish<S, E>(w: World<S, E>, r: Reading<S, E>, out: Write): World<S, E> {
    var saved := w.(cursor := Save(w, r, out));
    if out.Applied? then Pass(saved, r.stamp) else saved.(phase := Idle)
  }

  ghost predicate Enabled<S, E>(w: World<S, E>, a: Action, cutoff: nat) {
    match a
    case Append(more, time) => true
    case Discover => w.phase.Idle?
    case Skip => w.phase.Found? && (w.scanned == Some(w.phase.stamp) || !InWindow(w.phase.stamp, cutoff))
    case Begin => w.phase.Found? && w.scanned != Some(w.phase.stamp) && InWindow(w.phase.stamp, cutoff)
    case ReadLine => w.phase.Open? && w.phase.reading.ready && w.phase.reading.offset <= |w.content|
    case Publish(_) => w.phase.Open? && w.phase.reading.pending != []
    case Checkpoint(_) => w.phase.Open? && !w.phase.reading.ready && w.phase.reading.pending == []
    case Finish(_) =>
      && w.phase.Open? && w.phase.reading.ready && w.phase.reading.offset <= |w.content|
      && NextBreak(w.content, w.phase.reading.offset).None?
    case Fail => true
    case Crash => true
  }

  ghost function Do<S, E>(p: Parser<S, E>, w: World<S, E>, a: Action, cutoff: nat): World<S, E>
    requires Enabled(w, a, cutoff)
  {
    match a
    case Append(more, time) => w.(content := w.content + more, time := time)
    case Discover => w.(phase := Found(Stamp(w.time, |w.content|)))
    case Skip => Pass(w, w.phase.stamp)
    case Begin => DoBegin(p, w, w.phase.stamp)
    case ReadLine => DoReadLine(p, w, w.phase.reading)
    case Publish(out) => DoPublish(w, w.phase.reading, out)
    case Checkpoint(out) => DoCheckpoint(w, w.phase.reading, out)
    case Finish(out) => DoFinish(w, w.phase.reading, out)
    case Fail => w.(phase := Idle)
    case Crash => w.(phase := Idle, scanned := None)
  }

  ghost function Step<S, E>(p: Parser<S, E>, w: World<S, E>, a: Action, cutoff: nat): World<S, E> {
    if Enabled(w, a, cutoff) then Do(p, w, a, cutoff) else w
  }

  ghost function Run<S, E>(p: Parser<S, E>, w: World<S, E>, acts: seq<Action>, cutoff: nat): World<S, E> {
    if acts == [] then w else Step(p, Run(p, w, acts[..|acts| - 1], cutoff), acts[|acts| - 1], cutoff)
  }
}
