/**
 What a turn's usage means, told by its events: what a span shows follows from the
 reports that were made on it, and the turn's total from all reports.
 */
module ObservedTurnUsage {
  import opened Prelude
  import opened ObservedTurn
  import opened ObservedTurnTheorems

  // ---------------------------------------------------------------- the reports of a span

  /** Event `k` reports usage of span `i`. */
  ghost predicate Reports(hs: seq<Happening>, k: nat, i: nat) {
    k < |hs| && hs[k].Response? && hs[k].report.Some? && SpanOf(Observe(hs[..k]).book, hs[k].key) == i
  }

  ghost predicate Cumulative(hs: seq<Happening>, k: nat, i: nat) {
    Reports(hs, k, i) && hs[k].report.value.cumulative
  }

  function Amount(hs: seq<Happening>, k: nat, c: Counter): int {
    if k < |hs| && hs[k].Response? && hs[k].report.Some? then Get(hs[k].report.value.amount, c) else 0
  }

  /** All amounts reported on span `i` from event `from` on. */
  ghost function SumFrom(hs: seq<Happening>, i: nat, from: nat, c: Counter): int {
    if |hs| <= from then 0
    else
      var n := |hs| - 1;
      SumFrom(hs[..n], i, from, c) + (if Reports(hs, n, i) then Amount(hs, n, c) else 0)
  }

  /** The number of events up to the last cumulative report on span `i`, or 0. */
  ghost function Base(hs: seq<Happening>, i: nat): (n: nat)
    ensures n <= |hs|
  {
    if hs == [] then 0
    else if Cumulative(hs, |hs| - 1, i) then |hs|
    else Base(hs[..|hs| - 1], i)
  }

  /** What the reports on span `i` come to. */
  ghost function Worth(hs: seq<Happening>, i: nat, c: Counter): int {
    var n := Base(hs, i);
    (if n == 0 then 0 else Amount(hs, n - 1, c)) + SumFrom(hs, i, n, c)
  }

  /** What all reports come to: incremental amounts, and the growth of cumulative ones. */
  ghost function Booked(hs: seq<Happening>, c: Counter): int {
    if hs == [] then 0
    else
      var pre, h := hs[..|hs| - 1], hs[|hs| - 1];
      var amount := Amount(hs, |pre|, c);
      Booked(pre, c) + (if h.Response? && h.report.Some? && h.report.value.cumulative
                        then Floor(amount - Worth(pre, SpanOf(Observe(pre).book, h.key), c))
                        else amount)
  }

  lemma {:induction false} BaseIs(hs: seq<Happening>, i: nat)
    ensures var n := Base(hs, i);
            && (n > 0 ==> Cumulative(hs, n - 1, i))
            && (forall k :: n <= k < |hs| ==> !Cumulative(hs, k, i))
  {
    if hs == [] {
    } else if !Cumulative(hs, |hs| - 1, i) {
      var pre := hs[..|hs| - 1];
      BaseIs(pre, i);
      forall k | 0 <= k < |pre| ensures Cumulative(hs, k, i) == Cumulative(pre, k, i) {
        assert hs[..k] == pre[..k];
      }
    }
  }

  // ---------------------------------------------------------------- one event

  /** What span `i` shows; a span that does not exist yet shows nothing. */
  function Shown(b: Book, i: nat, c: Counter): int {
    if i < |b.spans| then Get(b.spans[i].last, c) else 0
  }

  /** The event reports on span `i` of this book. */
  predicate ReportsOn(b: Book, h: Happening, i: nat)
    requires |b.spans| > 0
  {
    h.Response? && h.report.Some? && SpanOf(b, h.key) == i
  }

  lemma EnsureShows(b: Book, key: string, i: nat, c: Counter)
    requires Filed(b)
    ensures Shown(EnsureModel(b, key), i, c) == Shown(b, i, c) && EnsureModel(b, key).usage == b.usage
  {}

  lemma ShownAfter(t: Observed, h: Happening, i: nat, c: Counter)
    requires Filed(t.book) && Sorted(t.toolbox)
    ensures var b := Do(t, h).book;
            Shown(b, i, c) ==
            if !ReportsOn(t.book, h, i) then Shown(t.book, i, c)
            else if h.report.value.cumulative then Get(h.report.value.amount, c)
            else Shown(t.book, i, c) + Get(h.report.value.amount, c)
  {
    if h.Request? || h.Response? {
      EnsureShows(t.book, h.key, i, c);
    }
    if h.Response? && h.report.Some? {
      GetPlus(EnsureModel(t.book, h.key).spans[SpanOf(t.book, h.key)].last, h.report.value.amount, c);
    }
  }

  lemma UsageAfter(t: Observed, h: Happening, c: Counter)
    requires Filed(t.book) && Sorted(t.toolbox)
    ensures Get(Do(t, h).book.usage, c) - Get(t.book.usage, c) ==
            if !(h.Response? && h.report.Some?) then 0
            else if h.report.value.cumulative
            then Floor(Get(h.report.value.amount, c) - Shown(t.book, SpanOf(t.book, h.key), c))
            else Get(h.report.value.amount, c)
  {
    if h.Request? || h.Response? {
      EnsureShows(t.book, h.key, SpanOf(t.book, h.key), c);
    }
    if h.Response? && h.report.Some? {
      var last := EnsureModel(t.book, h.key).spans[SpanOf(t.book, h.key)].last;
      var amount := h.report.value.amount;
      GetGrowth(amount, last, c);
      GetPlus(t.book.usage, if h.report.value.cumulative then Growth(amount, last) else amount, c);
    }
  }

  lemma WorthAfter(hs: seq<Happening>, i: nat, c: Counter)
    requires hs != []
    ensures var pre := hs[..|hs| - 1];
            Worth(hs, i, c) ==
            if !Reports(hs, |pre|, i) then Worth(pre, i, c)
            else if Cumulative(hs, |pre|, i) then Amount(hs, |pre|, c)
            else Worth(pre, i, c) + Amount(hs, |pre|, c)
  {
    var pre := hs[..|hs| - 1];
    var n := Base(pre, i);
    if !Cumulative(hs, |pre|, i) {
      assert n > 0 ==> Amount(hs, n - 1, c) == Amount(pre, n - 1, c);
    }
  }

  // ---------------------------------------------------------------- every turn

  lemma {:induction false} ShownIsWorth(hs: seq<Happening>, i: nat, c: Counter)
    ensures Shown(Observe(hs).book, i, c) == Worth(hs, i, c)
  {
    if hs == [] {
      assert Worth([], i, c) == 0;
    } else {
      var pre, h := hs[..|hs| - 1], hs[|hs| - 1];
      ShownIsWorth(pre, i, c);
      ShownAfter(Observe(pre), h, i, c);
      WorthAfter(hs, i, c);
      assert Reports(hs, |pre|, i) <==> ReportsOn(Observe(pre).book, h, i);
    }
  }

  /**
   A span shows the amount of the last cumulative report on it and all incremental amounts
   after that one, or the sum of all its amounts if none was cumulative.
   */
  lemma {:induction false} SpanUsageIs(hs: seq<Happening>, i: nat, c: Counter)
    requires i < |Observe(hs).book.spans|
    ensures var shown := Get(Observe(hs).book.spans[i].last, c);
            && (forall k: nat :: Cumulative(hs, k, i) && (forall j: nat :: k < j ==> !Cumulative(hs, j, i)) ==>
                  shown == Amount(hs, k, c) + SumFrom(hs, i, k + 1, c))
            && ((forall k: nat :: !Cumulative(hs, k, i)) ==> shown == SumFrom(hs, i, 0, c))
  {
    ShownIsWorth(hs, i, c);
    BaseIs(hs, i);
    forall k: nat | Cumulative(hs, k, i) && forall j: nat :: k < j ==> !Cumulative(hs, j, i)
      ensures Base(hs, i) == k + 1
    {
      assert Base(hs, i) > 0 ==> Cumulative(hs, Base(hs, i) - 1, i);
    }
  }

  /** The turn's total is the sum of the incremental amounts and of the growths of cumulative ones. */
  lemma {:induction false} TurnUsageIs(hs: seq<Happening>, c: Counter)
    ensures Get(Observe(hs).book.usage, c) == Booked(hs, c)
  {
    if hs == [] {
    } else {
      var pre, h := hs[..|hs| - 1], hs[|hs| - 1];
      TurnUsageIs(pre, c);
      UsageAfter(Observe(pre), h, c);
      if h.Response? {
        ShownIsWorth(pre, SpanOf(Observe(pre).book, h.key), c);
      }
    }
  }
}
