/**
 The events of a Codex file, line by line: what a line is about decides the event, the
 last session record before it gives the session, the last turn record gives the turn.
 */
module CodexFileEvents {
  import opened Prelude
  import opened TranscriptFold
  import opened TranscriptLines
  import opened CodexTokens
  import opened CodexTranscript

  // ---------------------------------------------------------------- the records of a file

  /** The session named last; empty if none was. */
  function SessionNamed(p: Parser<State, Event>, decode: Bytes -> Record, b: Bytes): string
    decreases |b|
  {
    if b == [] then ""
    else
      var start := LastBreak(b[..|b| - 1]);
      var record := decode(p.trim(b[start..]));
      if LineId(p, b[start..]) != "" && record.Meta? && record.session != "" then record.session
      else SessionNamed(p, decode, b[..start])
  }

  /** The turn opened last, by its own name or the id of its line; empty if none was. */
  function TurnOpened(p: Parser<State, Event>, decode: Bytes -> Record, b: Bytes): string
    decreases |b|
  {
    if b == [] then ""
    else
      var start := LastBreak(b[..|b| - 1]);
      var record := decode(p.trim(b[start..]));
      if LineId(p, b[start..]) != "" && record.Turn? then FirstNonBlank(record.turn, LineId(p, b[start..]))
      else TurnOpened(p, decode, b[..start])
  }

  /** The session under which a line that follows `b` is filed: the one named last, or the file's own name. */
  function SessionOf(file: string, p: Parser<State, Event>, decode: Bytes -> Record, b: Bytes): string {
    FirstNonBlank(SessionNamed(p, decode, b), file)
  }

  ghost predicate StateOk(file: string, p: Parser<State, Event>, decode: Bytes -> Record, b: Bytes) {
    var st := StateBehind(p, b);
    && FirstNonBlank(st.session, file) == SessionOf(file, p, decode, b)
    && (TurnOpened(p, decode, b) != "" ==> st.turn == TurnOpened(p, decode, b))
  }

  lemma {:induction false} StateIs(file: string, trim: Bytes -> Bytes, id: Bytes -> string, decode: Bytes -> Record,
                                   b: Bytes)
    ensures StateOk(file, CodexParser(file, trim, id, decode), decode, b)
    decreases |b|
  {
    var p := CodexParser(file, trim, id, decode);
    if b == [] {
    } else {
      var start := LastBreak(b[..|b| - 1]);
      StateIs(file, trim, id, decode, b[..start]);
    }
  }

  lemma MeterIs(file: string, trim: Bytes -> Bytes, id: Bytes -> string, decode: Bytes -> Record, b: Bytes)
    requires Whole(b)
    ensures var p := CodexParser(file, trim, id, decode);
            StateBehind(p, b).meter == After(FRESH, Reports(p, decode, b)) && StateBehind(p, b) == Fold(p, b).state
  {
    var p := CodexParser(file, trim, id, decode);
    UsageIsDeltas(file, trim, id, decode, b);
    FoldYields(p, b, Event("", "", "", "", None));
  }

  // ---------------------------------------------------------------- the event of a line

  /** The usage published for a report is the charge of what it adds to the reports before it. */
  function ChargeOf(meter: Meter, record: Record): Option<Charge> {
    if record.Usage? && Emit(meter, record.report) != [] then Some(Charged(Emit(meter, record.report)[0])) else None
  }

  /** The event that a line with this record stands for. */
  function EventOf(session: string, id: string, record: Record, charge: Option<Charge>): Option<Event> {
    match record
    case Turn(_) => Some(Event(session, id, "agent.turn", "start", None))
    case Usage(_, _) => if charge.Some? then Some(Event(session, id, "model.request", "end", charge)) else None
    case Item(_, kind, lifecycle) => Some(Event(session, id, kind, lifecycle, None))
    case _ => None
  }

  lemma RecordGives(file: string, st: State, id: string, record: Record)
    ensures var parsed := ParseRecord(file, st, id, record);
            var event := EventOf(FirstNonBlank(st.session, file), id, record, ChargeOf(st.meter, record));
            !parsed.stale && parsed.events == if event.Some? then [event.value] else []
  {}

  /**
   A line of a Codex file yields the one event its record stands for, under the session named
   last before it, with the charge of what its report adds to the reports before it.
   */
  lemma LineYieldsExactly(file: string, trim: Bytes -> Bytes, id: Bytes -> string, decode: Bytes -> Record,
                          content: Bytes, start: nat, end: nat, e: Event)
    requires IsLine(content, start, end)
    ensures var p := CodexParser(file, trim, id, decode);
            var before, line := content[..start], content[start..end];
            var record := decode(trim(line));
            var charge := ChargeOf(After(FRESH, Reports(p, decode, before)), record);
            var event := EventOf(SessionOf(file, p, decode, before), id(trim(line)), record, charge);
            Yields(p, content, start, end, e) <==> LineId(p, line) != "" && event == Some(e)
  {
    StateIs(file, trim, id, decode, content[..start]);
    MeterIs(file, trim, id, decode, content[..start]);
    var line := trim(content[start..end]);
    RecordGives(file, StateBehind(CodexParser(file, trim, id, decode), content[..start]), id(line), decode(line));
  }

  /** Once a turn was opened, its name is kept until the next one is. */
  lemma TurnIsLastOpened(file: string, trim: Bytes -> Bytes, id: Bytes -> string, decode: Bytes -> Record, b: Bytes)
    requires Whole(b)
    ensures var p := CodexParser(file, trim, id, decode);
            TurnOpened(p, decode, b) != "" ==> Fold(p, b).state.turn == TurnOpened(p, decode, b)
  {
    StateIs(file, trim, id, decode, b);
    MeterIs(file, trim, id, decode, b);
  }
}
