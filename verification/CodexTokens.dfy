/**
 Cumulative token counters turned into deltas.  A Codex session reports running
 totals after each model request; a counter that goes down means that the totals
 started over.  The deltas must add up to what was really used.
 */
module CodexTokens {

  datatype Tokens = Tokens(input: int, output: int, cached: int, reasoning: int, total: int)

  /** A report: the running totals, and the usage of the last request alone. */
  datatype Report = Report(current: Tokens, last: Tokens)

  /** What is carried from report to report. */
  datatype Meter = Meter(previous: Tokens, started: bool)

  const ZERO := Tokens(0, 0, 0, 0, 0)
  const FRESH := Meter(ZERO, false)

  function Plus(a: Tokens, b: Tokens): Tokens {
    Tokens(a.input + b.input, a.output + b.output, a.cached + b.cached, a.reasoning + b.reasoning, a.total + b.total)
  }

  function Minus(a: Tokens, b: Tokens): Tokens {
    Tokens(a.input - b.input, a.output - b.output, a.cached - b.cached, a.reasoning - b.reasoning, a.total - b.total)
  }

  /** Some counter went down: the totals started over. */
  predicate Restarts(now: Tokens, before: Tokens) {
    || now.input < before.input || now.output < before.output || now.cached < before.cached
    || now.reasoning < before.reasoning || now.total < before.total
  }

  /** The usage a report stands for. */
  function Delta(m: Meter, r: Report): Tokens {
    if !m.started then r.current
    else if Restarts(r.current, m.previous) then (if r.last != ZERO then r.last else r.current)
    else Minus(r.current, m.previous)
  }

  /** Reports without totals are ignored. */
  function Next(m: Meter, r: Report): Meter {
    if r.current == ZERO then m else Meter(r.current, true)
  }

  /** A delta of zero is not published. */
  function Emit(m: Meter, r: Report): seq<Tokens> {
    if r.current == ZERO || Delta(m, r) == ZERO then [] else [Delta(m, r)]
  }

  function After(m: Meter, rs: seq<Report>): Meter {
    if rs == [] then m else Next(After(m, rs[..|rs| - 1]), rs[|rs| - 1])
  }

  function Emitted(m: Meter, rs: seq<Report>): seq<Tokens> {
    if rs == [] then []
    else
      var n := |rs| - 1;
      Emitted(m, rs[..n]) + Emit(After(m, rs[..n]), rs[n])
  }

  function Sum(ts: seq<Tokens>): Tokens {
    if ts == [] then ZERO else Plus(Sum(ts[..|ts| - 1]), ts[|ts| - 1])
  }

  // ---------------------------------------------------------------- what is charged

  /** The usage fields of a published event; cached input is not counted as input. */
  datatype Charge = Charge(input: int, output: int, cacheRead: int, reasoning: int, total: int)

  /** A missing total is filled in from the parts. */
  function Charged(t: Tokens): Charge {
    var input := if t.input - t.cached < 0 then 0 else t.input - t.cached;
    var total := if t.total == 0 then input + t.cached + t.output else t.total;
    Charge(input, t.output, t.cached, t.reasoning, total)
  }

  function AllCharged(ts: seq<Tokens>): seq<Charge> {
    if ts == [] then [] else AllCharged(ts[..|ts| - 1]) + [Charged(ts[|ts| - 1])]
  }

  function SumCharges(cs: seq<Charge>): Charge {
    if cs == [] then Charge(0, 0, 0, 0, 0)
    else
      var before, c := SumCharges(cs[..|cs| - 1]), cs[|cs| - 1];
      Charge(before.input + c.input, before.output + c.output, before.cacheRead + c.cacheRead,
             before.reasoning + c.reasoning, before.total + c.total)
  }

  lemma ChargedPush(ts: seq<Tokens>, more: seq<Tokens>)
    requires |more| <= 1
    ensures AllCharged(ts + more) == AllCharged(ts) + AllCharged(more)
  {
    ChargedOne(more);
    if more == [] {
      assert ts + more == ts;
    } else {
      assert (ts + more)[..|ts|] == ts;
    }
  }

  lemma ChargedOne(ts: seq<Tokens>)
    ensures ts == [] ==> AllCharged(ts) == []
    ensures |ts| == 1 ==> AllCharged(ts) == [Charged(ts[0])]
  {
    if |ts| == 1 {
      assert ts[..0] == [] && AllCharged([]) == [];
    }
  }

  // ---------------------------------------------------------------- reference

  /** The reports that count. */
  function Counting(rs: seq<Report>): seq<Report> {
    if rs == [] then []
    else
      var n := |rs| - 1;
      Counting(rs[..n]) + (if rs[n].current == ZERO then [] else [rs[n]])
  }

  /** A stretch of reports in which no counter goes down. */
  datatype Stretch = Stretch(opening: Tokens, first: Tokens, final: Tokens)

  /** Cut the counting reports wherever a counter goes down. */
  function Stretches(rs: seq<Report>): (ss: seq<Stretch>)
    ensures rs == [] <==> ss == []
    ensures rs != [] ==> ss[|ss| - 1].final == rs[|rs| - 1].current
  {
    if rs == [] then []
    else
      var n := |rs| - 1;
      var r := rs[n];
      var ss := Stretches(rs[..n]);
      if n == 0 then [Stretch(r.current, r.current, r.current)]
      else if Restarts(r.current, rs[n - 1].current)
      then ss + [Stretch(if r.last != ZERO then r.last else r.current, r.current, r.current)]
      else ss[|ss| - 1 := ss[|ss| - 1].(final := r.current)]
  }

  /** What a stretch is worth: its opening amount and its growth. */
  function Worth(s: Stretch): Tokens {
    Plus(s.opening, Minus(s.final, s.first))
  }

  function Total(ss: seq<Stretch>): Tokens {
    if ss == [] then ZERO else Plus(Total(ss[..|ss| - 1]), Worth(ss[|ss| - 1]))
  }

  // ---------------------------------------------------------------- telescoping

  lemma SumPush(ts: seq<Tokens>, more: seq<Tokens>)
    requires |more| <= 1
    ensures Sum(ts + more) == Plus(Sum(ts), Sum(more))
  {
    if more == [] {
      assert ts + more == ts;
    } else {
      assert (ts + more)[..|ts|] == ts;
      assert more[..0] == [] && Sum([]) == ZERO;
    }
  }

  lemma TotalPush(ss: seq<Stretch>, s: Stretch)
    ensures Total(ss + [s]) == Plus(Total(ss), Worth(s))
  {
    assert (ss + [s])[..|ss|] == ss;
  }

  lemma TotalGrow(ss: seq<Stretch>, final: Tokens)
    requires ss != []
    ensures var n := |ss| - 1;
            Total(ss[n := ss[n].(final := final)]) == Plus(Total(ss), Minus(final, ss[n].final))
  {
    var n := |ss| - 1;
    assert ss[n := ss[n].(final := final)][..n] == ss[..n];
  }

  /** The meter holds the last counting report. */
  lemma {:induction false} MeterIsLast(rs: seq<Report>)
    ensures var cs := Counting(rs);
            var m := After(FRESH, rs);
            if cs == [] then m == FRESH else m == Meter(cs[|cs| - 1].current, true)
  {
    if rs == [] {
    } else {
      MeterIsLast(rs[..|rs| - 1]);
    }
  }

  /** One counting report adds its delta to the worth of the stretches. */
  lemma {:induction false} StretchAdds(cs: seq<Report>, r: Report, m: Meter)
    requires if cs == [] then m == FRESH else m == Meter(cs[|cs| - 1].current, true)
    ensures Total(Stretches(cs + [r])) == Plus(Total(Stretches(cs)), Delta(m, r))
  {
    StretchesPush(cs, r);
    var ss := Stretches(cs);
    if cs == [] {
      var s := Stretch(r.current, r.current, r.current);
      assert [s][..0] == [] && Total([]) == ZERO;
    } else if Restarts(r.current, m.previous) {
      TotalPush(ss, Stretch(if r.last != ZERO then r.last else r.current, r.current, r.current));
    } else {
      TotalGrow(ss, r.current);
    }
  }

  /** One more counting report opens a stretch or lengthens the last one. */
  lemma StretchesPush(cs: seq<Report>, r: Report)
    ensures var ss := Stretches(cs);
            Stretches(cs + [r]) ==
            if cs == [] then [Stretch(r.current, r.current, r.current)]
            else if Restarts(r.current, cs[|cs| - 1].current)
            then ss + [Stretch(if r.last != ZERO then r.last else r.current, r.current, r.current)]
            else ss[|ss| - 1 := ss[|ss| - 1].(final := r.current)]
  {
    var all := cs + [r];
    assert all[..|cs|] == cs && all[|cs|] == r;
    if cs != [] {
      assert all[|cs| - 1] == cs[|cs| - 1];
      assert Stretches(all) ==
             if Restarts(r.current, all[|cs| - 1].current)
             then Stretches(all[..|cs|]) + [Stretch(if r.last != ZERO then r.last else r.current, r.current, r.current)]
             else Stretches(all[..|cs|])[|Stretches(all[..|cs|])| - 1 :=
                    Stretches(all[..|cs|])[|Stretches(all[..|cs|])| - 1].(final := r.current)];
    }
  }

  lemma SumOfEmit(m: Meter, r: Report)
    requires r.current != ZERO
    ensures Sum(Emit(m, r)) == Delta(m, r)
  {
    assert [Delta(m, r)][..0] == [] && Sum([]) == ZERO;
  }

  /**
   Over any stream the published deltas add up, per counter, to the opening amount
   plus the growth of every stretch without a restart.
   */
  lemma {:induction false} DeltasTelescope(rs: seq<Report>)
    ensures Sum(Emitted(FRESH, rs)) == Total(Stretches(Counting(rs)))
  {
    if rs == [] {
    } else {
      var pre, r := rs[..|rs| - 1], rs[|rs| - 1];
      DeltasTelescope(pre);
      if r.current == ZERO {
        assert Counting(pre) + [] == Counting(pre) && Emitted(FRESH, pre) + [] == Emitted(FRESH, pre);
      } else {
        MeterIsLast(pre);
        TelescopeStep(Emitted(FRESH, pre), Counting(pre), After(FRESH, pre), r);
      }
    }
  }

  lemma {:induction false} TelescopeStep(emitted: seq<Tokens>, cs: seq<Report>, m: Meter, r: Report)
    requires Sum(emitted) == Total(Stretches(cs)) && r.current != ZERO
    requires if cs == [] then m == FRESH else m == Meter(cs[|cs| - 1].current, true)
    ensures Sum(emitted + Emit(m, r)) == Total(Stretches(cs + [r]))
  {
    var more := Emit(m, r);
    assert Sum(emitted + more) == Plus(Sum(emitted), Delta(m, r)) by {
      SumPush(emitted, more);
      SumOfEmit(m, r);
    }
    StretchAdds(cs, r, m);
  }

  predicate NonNegative(t: Tokens) {
    t.input >= 0 && t.output >= 0 && t.cached >= 0 && t.reasoning >= 0 && t.total >= 0
  }

  ghost predicate AllNonNegative(rs: seq<Report>) {
    forall i :: 0 <= i < |rs| ==> NonNegative(rs[i].current) && NonNegative(rs[i].last)
  }

  /** No counter is ever charged a negative amount. */
  lemma {:induction false} DeltasAreNonNegative(m: Meter, rs: seq<Report>)
    requires AllNonNegative(rs)
    ensures forall i :: 0 <= i < |Emitted(m, rs)| ==> NonNegative(Emitted(m, rs)[i])
  {
    if rs == [] {
    } else {
      DeltasAreNonNegative(m, rs[..|rs| - 1]);
    }
  }

  /** Nothing is published for a report that adds nothing. */
  lemma {:induction false} NothingEmptyIsPublished(m: Meter, rs: seq<Report>)
    ensures forall i :: 0 <= i < |Emitted(m, rs)| ==> Emitted(m, rs)[i] != ZERO
  {
    if rs == [] {
    } else {
      NothingEmptyIsPublished(m, rs[..|rs| - 1]);
    }
  }

  ghost predicate NeverRestarts(cs: seq<Report>) {
    forall i :: 0 < i < |cs| ==> !Restarts(cs[i].current, cs[i - 1].current)
  }

  lemma {:induction false} OneStretch(cs: seq<Report>)
    requires NeverRestarts(cs) && cs != []
    ensures Stretches(cs) == [Stretch(cs[0].current, cs[0].current, cs[|cs| - 1].current)]
  {
    if |cs| <= 1 {
    } else {
      OneStretch(cs[..|cs| - 1]);
    }
  }

  lemma OneStretchTotal(cs: seq<Report>)
    requires NeverRestarts(cs) && cs != []
    ensures Total(Stretches(cs)) == cs[|cs| - 1].current
  {
    OneStretch(cs);
    var s := Stretch(cs[0].current, cs[0].current, cs[|cs| - 1].current);
    assert [] + [s] == [s];
    TotalPush([], s);
  }

  /** Without a restart the deltas add up to the final running total. */
  lemma {:induction false} NoRestartGivesFinalTotal(rs: seq<Report>)
    requires Counting(rs) != [] && NeverRestarts(Counting(rs))
    ensures var cs := Counting(rs); Sum(Emitted(FRESH, rs)) == cs[|cs| - 1].current
  {
    var cs := Counting(rs);
    DeltasTelescope(rs);
    OneStretchTotal(cs);
  }

  lemma {:induction false} AfterSplit(m: Meter, a: seq<Report>, b: seq<Report>)
    ensures After(m, a + b) == After(After(m, a), b)
    decreases |b|
  {
    if b == [] {
      assert a + b == a;
    } else {
      AfterSplit(m, a, b[..|b| - 1]);
      assert (a + b)[..|a + b| - 1] == a + b[..|b| - 1];
    }
  }

  /** Three pieces put together in either order. */
  lemma Pieces(whole: seq<Tokens>, x: seq<Tokens>, y: seq<Tokens>, e: seq<Tokens>)
    requires whole == x + y
    ensures whole + e == x + (y + e)
  {}

  /** Where a stream is cut into scans makes no difference. */
  lemma {:induction false} SplitAnywhere(m: Meter, a: seq<Report>, b: seq<Report>)
    ensures After(m, a + b) == After(After(m, a), b)
    ensures Emitted(m, a + b) == Emitted(m, a) + Emitted(After(m, a), b)
    decreases |b|
  {
    AfterSplit(m, a, b);
    if b == [] {
      assert a + b == a;
    } else {
      var pre := b[..|b| - 1];
      SplitAnywhere(m, a, pre);
      assert (a + b)[..|a + b| - 1] == a + pre;
      Pieces(Emitted(m, a + pre), Emitted(m, a), Emitted(After(m, a), pre), Emit(After(m, a + pre), b[|b| - 1]));
    }
  }
}
