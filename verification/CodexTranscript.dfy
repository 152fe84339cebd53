/**
 The Codex transcript format as an instance of the line parser: which session and
 turn a line belongs to, which event it yields, and the token meter it advances.
 JSON decoding and id hashing are parameters.
 */
module CodexTranscript {
  import opened Prelude
  import opened TranscriptFold
  import opened CodexTokens

  /** A decoded line; empty strings are fields the line does not have. */
  datatype Record =
    | Meta(session: string)
    | Turn(turn: string)
    | Usage(turn: string, report: Report)
    | Item(turn: string, kind: string, lifecycle: string)
    | Quiet(turn: string)

  datatype State = State(session: string, turn: string, meter: Meter)

  /** The dedupe key of an event is made of its first four fields. */
  datatype Event = Event(session: string, native: string, kind: string, lifecycle: string, usage: Option<Charge>)

  function FirstNonBlank(a: string, b: string): string {
    if a != "" then a else b
  }

  function TokenEvents(session: string, id: string, deltas: seq<Tokens>): seq<Event> {
    if deltas == [] then [] else [Event(session, id, "model.request", "end", Some(Charged(deltas[0])))]
  }

  function ParseRecord(file: string, st: State, id: string, record: Record): Parsed<State, Event> {
    if record.Meta? then
      Parsed(st.(session := FirstNonBlank(record.session, FirstNonBlank(st.session, file))), [], false)
    else
      var session := FirstNonBlank(st.session, file);
      if record.Turn? then
        Parsed(st.(session := session, turn := FirstNonBlank(record.turn, id)),
               [Event(session, id, "agent.turn", "start", None)], false)
      else
        var turn := if st.turn != "" then st.turn else FirstNonBlank(record.turn, "backfill-" + session);
        var meter := if record.Usage? then Next(st.meter, record.report) else st.meter;
        var events :=
          if record.Usage? then TokenEvents(session, id, Emit(st.meter, record.report))
          else if record.Item? then [Event(session, id, record.kind, record.lifecycle, None)]
          else [];
        Parsed(State(session, turn, meter), events, false)
  }

  function CodexParser(file: string, trim: Bytes -> Bytes, id: Bytes -> string,
                       decode: Bytes -> Record): Parser<State, Event> {
    Parser(State("", "", FRESH), trim, id,
           (st: State, line: Bytes, at: nat) => ParseRecord(file, st, id(line), decode(line)))
  }

  // ---------------------------------------------------------------- usage of a file

  function UsageOf(events: seq<Event>): seq<Charge> {
    if events == [] then []
    else
      var last := events[|events| - 1];
      UsageOf(events[..|events| - 1]) + (if last.usage.Some? then [last.usage.value] else [])
  }

  function ReportOf(p: Parser<State, Event>, decode: Bytes -> Record, line: Bytes): seq<Report> {
    if LineId(p, line) == "" then []
    else
      var record := decode(p.trim(line));
      if record.Usage? then [record.report] else []
  }

  /** The token reports in the lines of `b`, in order. */
  function Reports(p: Parser<State, Event>, decode: Bytes -> Record, b: Bytes): seq<Report>
    decreases |b|
  {
    if b == [] then []
    else
      var start := LastBreak(b[..|b| - 1]);
      Reports(p, decode, b[..start]) + ReportOf(p, decode, b[start..])
  }

  lemma UsagePush(events: seq<Event>, more: seq<Event>)
    requires |more| <= 1
    ensures UsageOf(events + more) == UsageOf(events) + UsageOf(more)
  {
    if more == [] {
      assert events + more == events;
    } else {
      assert (events + more)[..|events|] == events;
      assert more[..0] == [] && UsageOf([]) == [];
    }
  }

  /** What one line adds is what its report adds to the meter. */
  lemma LineUsage(file: string, st: State, id: string, record: Record, reports: seq<Report>)
    requires reports == if record.Usage? then [record.report] else []
    ensures var parsed := ParseRecord(file, st, id, record);
            && |parsed.events| <= 1 && !parsed.stale
            && parsed.state.meter == After(st.meter, reports)
            && UsageOf(parsed.events) == AllCharged(Emitted(st.meter, reports))
  {
    var parsed := ParseRecord(file, st, id, record);
    if record.Usage? {
      assert reports[..0] == [];
      assert After(st.meter, []) == st.meter && Emitted(st.meter, []) == [];
      assert [] + Emit(st.meter, record.report) == Emit(st.meter, record.report);
    }
    ChargedOne(Emitted(st.meter, reports));
    if parsed.events != [] {
      assert parsed.events[..0] == [] && UsageOf([]) == [];
      assert [] + UsageOf(parsed.events) == UsageOf(parsed.events);
    }
  }

  /** The usages of a file's events are the converted deltas of its token reports. */
  lemma {:induction false} UsageIsDeltas(file: string, trim: Bytes -> Bytes, id: Bytes -> string,
                                         decode: Bytes -> Record, b: Bytes)
    ensures var p := CodexParser(file, trim, id, decode);
            && Fold(p, b).state.meter == After(FRESH, Reports(p, decode, b))
            && UsageOf(Fold(p, b).events) == AllCharged(Emitted(FRESH, Reports(p, decode, b)))
    decreases |b|
  {
    var p := CodexParser(file, trim, id, decode);
    if b == [] {
    } else {
      var start := LastBreak(b[..|b| - 1]);
      UsageIsDeltas(file, trim, id, decode, b[..start]);
      ConsumeUsage(file, trim, id, decode, Fold(p, b[..start]), b[start..], start, Reports(p, decode, b[..start]));
    }
  }

  lemma {:induction false} ConsumeUsage(file: string, trim: Bytes -> Bytes, id: Bytes -> string,
                                        decode: Bytes -> Record,
                                        c: Consumed<State, Event>, line: Bytes, at: nat, reports: seq<Report>)
    requires c.state.meter == After(FRESH, reports) && UsageOf(c.events) == AllCharged(Emitted(FRESH, reports))
    ensures var p := CodexParser(file, trim, id, decode);
            var next := Consume(p, c, line, at);
            var all := reports + ReportOf(p, decode, line);
            next.state.meter == After(FRESH, all) && UsageOf(next.events) == AllCharged(Emitted(FRESH, all))
  {
    var p := CodexParser(file, trim, id, decode);
    var more := ReportOf(p, decode, line);
    SplitAnywhere(FRESH, reports, more);
    if LineId(p, line) == "" {
      assert reports + more == reports;
    } else {
      var record := decode(trim(line));
      LineUsage(file, c.state, id(trim(line)), record, more);
      UsagePush(c.events, ParseRecord(file, c.state, id(trim(line)), record).events);
      ChargedPush(Emitted(FRESH, reports), Emitted(c.state.meter, more));
    }
  }

  /** Every charge counts the cached input once: no delta has more cached than input tokens. */
  ghost predicate CachedIsInput(deltas: seq<Tokens>) {
    forall i :: 0 <= i < |deltas| ==> deltas[i].cached <= deltas[i].input
  }

  /** No total has to be filled in: a delta without a total has nothing to add up. */
  ghost predicate TotalsGiven(deltas: seq<Tokens>) {
    forall i :: 0 <= i < |deltas| && deltas[i].total == 0 ==>
      deltas[i].input == 0 && deltas[i].cached == 0 && deltas[i].output == 0
  }

  /** Cached tokens beyond the input of their delta. */
  function Excess(deltas: seq<Tokens>): nat {
    if deltas == [] then 0
    else
      var d := deltas[|deltas| - 1];
      Excess(deltas[..|deltas| - 1]) + (if d.cached > d.input then d.cached - d.input else 0)
  }

  /** What deltas without a total are charged instead: the larger of input and cached tokens, and the output. */
  function FilledIn(deltas: seq<Tokens>): int {
    if deltas == [] then 0
    else
      var d := deltas[|deltas| - 1];
      FilledIn(deltas[..|deltas| - 1])
      + (if d.total != 0 then 0 else (if d.cached > d.input then d.cached else d.input) + d.output)
  }

  lemma {:induction false} ChargesAddUp(deltas: seq<Tokens>)
    ensures var u, w := SumCharges(AllCharged(deltas)), Sum(deltas);
            && u.output == w.output && u.cacheRead == w.cached && u.reasoning == w.reasoning
            && u.input == w.input - w.cached + Excess(deltas) && u.total == w.total + FilledIn(deltas)
  {
    if deltas == [] {
    } else {
      ChargesAddUp(deltas[..|deltas| - 1]);
      ChargesPush(deltas);
    }
  }

  lemma {:induction false} NoExcess(deltas: seq<Tokens>)
    ensures Excess(deltas) == 0 <==> CachedIsInput(deltas)
  {
    if deltas == [] {
    } else {
      var n := |deltas| - 1;
      NoExcess(deltas[..n]);
      assert CachedIsInput(deltas) <==> CachedIsInput(deltas[..n]) && deltas[n].cached <= deltas[n].input;
    }
  }

  /** One more delta is one more charge. */
  lemma {:induction false} ChargesPush(deltas: seq<Tokens>)
    requires deltas != []
    ensures var n := |deltas| - 1;
            var u, before := SumCharges(AllCharged(deltas)), SumCharges(AllCharged(deltas[..n]));
            var c := Charged(deltas[n]);
            u == Charge(before.input + c.input, before.output + c.output, before.cacheRead + c.cacheRead,
                        before.reasoning + c.reasoning, before.total + c.total)
  {
    var n := |deltas| - 1;
    var all := AllCharged(deltas);
    assert all[..|all| - 1] == AllCharged(deltas[..n]);
  }

  lemma {:induction false} NothingFilledIn(deltas: seq<Tokens>)
    requires forall i :: 0 <= i < |deltas| ==> NonNegative(deltas[i])
    ensures FilledIn(deltas) >= 0 && (FilledIn(deltas) == 0 <==> TotalsGiven(deltas))
  {
    if deltas == [] {
    } else {
      NothingFilledIn(deltas[..|deltas| - 1]);
      TotalsPush(deltas);
    }
  }

  lemma TotalsPush(deltas: seq<Tokens>)
    requires deltas != []
    ensures var n := |deltas| - 1;
            var d := deltas[n];
            TotalsGiven(deltas) <==>
            TotalsGiven(deltas[..n]) && (d.total == 0 ==> d.input == 0 && d.cached == 0 && d.output == 0)
  {
    var n := |deltas| - 1;
    assert forall i :: 0 <= i < n ==> deltas[..n][i] == deltas[i];
  }

  /**
   What is charged for a file is the worth of its stretches of running totals: always for
   output, cached and reasoning tokens; for input (less the cached part) with the cached
   tokens in excess, of which there are none if and only if no delta has more cached than
   input tokens; for the total with what is filled in, which is nothing, over reports that
   count upwards from zero, if and only if no delta that used tokens lacks a total.
   */
  lemma {:induction false} FileUsageTelescopes(file: string, trim: Bytes -> Bytes, id: Bytes -> string,
                                               decode: Bytes -> Record, b: Bytes)
    ensures var p := CodexParser(file, trim, id, decode);
            var deltas := Emitted(FRESH, Reports(p, decode, b));
            var u, w := SumCharges(UsageOf(Fold(p, b).events)), Total(Stretches(Counting(Reports(p, decode, b))));
            && u.output == w.output && u.cacheRead == w.cached && u.reasoning == w.reasoning
            && u.input == w.input - w.cached + Excess(deltas) && (Excess(deltas) == 0 <==> CachedIsInput(deltas))
            && u.total == w.total + FilledIn(deltas)
            && (AllNonNegative(Reports(p, decode, b)) ==>
                  FilledIn(deltas) >= 0 && (FilledIn(deltas) == 0 <==> TotalsGiven(deltas)))
  {
    var p := CodexParser(file, trim, id, decode);
    var reports := Reports(p, decode, b);
    UsageIsDeltas(file, trim, id, decode, b);
    DeltasTelescope(reports);
    if AllNonNegative(reports) {
      DeltasAreNonNegative(FRESH, reports);
      NothingFilledIn(Emitted(FRESH, reports));
    }
    ChargesAddUp(Emitted(FRESH, reports));
    NoExcess(Emitted(FRESH, reports));
  }
}
