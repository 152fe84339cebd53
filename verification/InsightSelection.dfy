/**
 One model request or tool call may be seen by several collectors.  Insights keep
 the best span per logical call and count that one; the outcome must not depend
 on the order in which traces and spans are listed.
 */
module InsightSelection {

  // ---------------------------------------------------------------- strings

  /** Byte order on strings. */
  predicate Less(a: string, b: string) {
    if b == "" then false
    else if a == "" then true
    else if a[0] != b[0] then a[0] < b[0]
    else Less(a[1..], b[1..])
  }

  lemma {:induction false} LessTotal(a: string, b: string)
    ensures Less(a, b) || Less(b, a) || a == b
    ensures !(Less(a, b) && Less(b, a))
  {
    if a == "" || b == "" || a[0] != b[0] {
    } else {
      LessTotal(a[1..], b[1..]);
      assert a == [a[0]] + a[1..] && b == [b[0]] + b[1..];
    }
  }

  lemma {:induction false} LessIrreflexive(a: string)
    ensures !Less(a, a)
  {
    if a == "" {
    } else {
      LessIrreflexive(a[1..]);
    }
  }

  lemma {:induction false} LessTransitive(a: string, b: string, c: string)
    requires Less(a, b) && Less(b, c)
    ensures Less(a, c)
  {
    if a == "" || b == "" || c == "" || a[0] != b[0] || b[0] != c[0] {
    } else {
      LessTransitive(a[1..], b[1..], c[1..]);
    }
  }

  const NUL: char := '\0'

  predicate Plain(s: string) {
    NUL !in s
  }

  /** Joining two plain strings with a NUL loses nothing. */
  lemma JoinInjective(a: string, b: string, c: string, d: string)
    requires Plain(a) && Plain(c) && a + [NUL] + b == c + [NUL] + d
    ensures a == c && b == d
  {
    var joined := a + [NUL] + b;
    assert joined[|a|] == NUL && (c + [NUL] + d)[|c|] == NUL;
    assert |a| == |c|;
    assert a == joined[..|a|] && c == (c + [NUL] + d)[..|c|];
    assert b == joined[|a| + 1..] && d == (c + [NUL] + d)[|c| + 1..];
  }

  // ---------------------------------------------------------------- spans

  datatype Kind = ModelRequest | ToolCall

  /** A span as insights see it; ids are empty when they were not reported. */
  datatype Span = Span(
    kind: Kind, trace: string, id: string, source: string, quality: string, terminal: bool, richness: int, updated: int,
    runtime: string, request: string, attempt: int, session: string, call: string)

  function Join(a: string, b: string, c: string, d: string): string {
    a + [NUL] + (b + [NUL] + (c + [NUL] + d))
  }

  function Digit(n: nat): char
    requires n < 10
  {
    ('0' as int + n) as char
  }

  function Decimal(n: nat): (s: string)
    ensures s != "" && (|s| == 1 <==> n < 10)
  {
    if n < 10 then [Digit(n)] else Decimal(n / 10) + [Digit(n % 10)]
  }

  function KindName(kind: Kind): string {
    if kind.ModelRequest? then "model" else "tool"
  }

  function AttemptOf(s: Span): nat {
    if s.attempt > 0 then s.attempt else 1
  }

  /** Does the span carry a stable id of its logical call? */
  predicate Identified(s: Span) {
    if s.kind.ModelRequest? then s.runtime != "" && s.request != "" else s.session != "" && s.call != ""
  }

  /** The key of a span's logical call; without a stable id every span stands for itself. */
  function KeyOf(s: Span): string {
    if !Identified(s) then Join(KindName(s.kind), "unique", s.trace, s.id)
    else if s.kind.ModelRequest? then Join("model", s.runtime, s.request, Decimal(AttemptOf(s)))
    else Join("tool", s.runtime, s.session, s.call)
  }

  predicate Contains(s: string, part: string) {
    |part| <= |s| && (s[..|part|] == part || (s != "" && Contains(s[1..], part)))
  }

  function SourceRank(source: string): nat {
    if source == "agentmux.internal" then 0
    else if Contains(source, "otel") || Contains(source, "app-server") then 1
    else if Contains(source, "hook") then 2
    else if Contains(source, "proxy") then 3
    else if Contains(source, "transcript") then 4
    else 5
  }

  function QualityRank(quality: string): nat {
    if quality == "complete" then 0
    else if quality == "partial" then 1
    else if quality == "inferred" then 2
    else if quality == "legacy" then 3
    else 4
  }

  function Label(s: Span): string {
    s.trace + [NUL] + s.id
  }

  /** Is `a` the better witness of its call? */
  predicate Prefer(a: Span, b: Span) {
    if SourceRank(a.source) != SourceRank(b.source) then SourceRank(a.source) < SourceRank(b.source)
    else if a.terminal != b.terminal then a.terminal
    else if QualityRank(a.quality) != QualityRank(b.quality) then QualityRank(a.quality) < QualityRank(b.quality)
    else if a.richness != b.richness then a.richness > b.richness
    else if a.updated != b.updated then a.updated > b.updated
    else Less(Label(a), Label(b))
  }

  /** No two listed spans are the same span, and ids hold no NUL. */
  ghost predicate Listing(spans: seq<Span>) {
    && (forall i :: 0 <= i < |spans| ==> Plain(spans[i].trace))
    && (forall i, j :: 0 <= i < j < |spans| ==> spans[i].trace != spans[j].trace || spans[i].id != spans[j].id)
  }

  // ---------------------------------------------------------------- a strict total order

  lemma PreferAsymmetric(a: Span, b: Span)
    ensures !(Prefer(a, b) && Prefer(b, a)) && !Prefer(a, a)
  {
    LessTotal(Label(a), Label(b));
    LessIrreflexive(Label(a));
  }

  lemma PreferTransitive(a: Span, b: Span, c: Span)
    requires Prefer(a, b) && Prefer(b, c)
    ensures Prefer(a, c)
  {
    if Less(Label(a), Label(b)) && Less(Label(b), Label(c)) {
      LessTransitive(Label(a), Label(b), Label(c));
    }
  }

  lemma PreferTotal(a: Span, b: Span)
    requires Plain(a.trace) && Plain(b.trace) && (a.trace != b.trace || a.id != b.id)
    ensures Prefer(a, b) || Prefer(b, a)
  {
    LessTotal(Label(a), Label(b));
    if Label(a) == Label(b) {
      JoinInjective(a.trace, a.id, b.trace, b.id);
    }
  }

  // ---------------------------------------------------------------- selection

  /** The best listed span of its call. */
  ghost predicate Best(spans: seq<Span>, s: Span) {
    s in spans && forall o :: o in spans && KeyOf(o) == KeyOf(s) && o != s ==> Prefer(s, o)
  }

  lemma BestIsUnique(spans: seq<Span>, s: Span, o: Span)
    requires Best(spans, s) && Best(spans, o) && KeyOf(s) == KeyOf(o)
    ensures s == o
  {
    PreferAsymmetric(s, o);
  }

  /** The collectors, from the most trusted tier on; a higher tier includes the lower ones. */
  predicate FromTier(source: string, tier: nat) {
    || source == "agentmux.internal"
    || (tier >= 1 && (Contains(source, "otel") || Contains(source, "app-server")))
    || (tier >= 2 && Contains(source, "hook"))
    || (tier >= 3 && Contains(source, "proxy"))
    || (tier >= 4 && Contains(source, "transcript"))
  }

  /** How well the span is known, from "complete" on. */
  predicate Known(quality: string, tier: nat) {
    || quality == "complete" || (tier >= 1 && quality == "partial") || (tier >= 2 && quality == "inferred")
    || (tier >= 3 && quality == "legacy")
  }

  lemma RankIsTier(source: string, quality: string, tier: nat)
    requires tier <= 4
    ensures FromTier(source, tier) <==> SourceRank(source) <= tier
    ensures tier <= 3 ==> (Known(quality, tier) <==> QualityRank(quality) <= tier)
  {}

  ghost predicate SameTiers(a: Span, b: Span) {
    forall tier: nat :: tier <= 4 ==> (FromTier(a.source, tier) <==> FromTier(b.source, tier))
  }

  ghost predicate SameQuality(a: Span, b: Span) {
    forall tier: nat :: tier <= 3 ==> (Known(a.quality, tier) <==> Known(b.quality, tier))
  }

  lemma SameRanks(a: Span, b: Span)
    ensures SameTiers(a, b) <==> SourceRank(a.source) == SourceRank(b.source)
    ensures SameQuality(a, b) <==> QualityRank(a.quality) == QualityRank(b.quality)
  {
    forall tier: nat | tier <= 4
      ensures FromTier(a.source, tier) <==> SourceRank(a.source) <= tier
      ensures FromTier(b.source, tier) <==> SourceRank(b.source) <= tier
      ensures tier <= 3 ==> (Known(a.quality, tier) <==> QualityRank(a.quality) <= tier)
      ensures tier <= 3 ==> (Known(b.quality, tier) <==> QualityRank(b.quality) <= tier)
    {
      RankIsTier(a.source, a.quality, tier);
      RankIsTier(b.source, b.quality, tier);
    }
    if SourceRank(a.source) != SourceRank(b.source) {
      var low := if SourceRank(a.source) < SourceRank(b.source) then SourceRank(a.source) else SourceRank(b.source);
      assert FromTier(a.source, low) != FromTier(b.source, low);
    }
    if QualityRank(a.quality) != QualityRank(b.quality) {
      var low :=
        if QualityRank(a.quality) < QualityRank(b.quality) then QualityRank(a.quality) else QualityRank(b.quality);
      assert Known(a.quality, low) != Known(b.quality, low);
    }
  }

  /**
   The span that stands for a call comes from the most trusted collector that saw the call;
   among those it has ended if any has, then is the best known, then shows the most usage,
   then is the latest.
   */
  lemma BestWitness(spans: seq<Span>, s: Span, o: Span)
    requires Best(spans, s) && o in spans && KeyOf(o) == KeyOf(s)
    ensures forall tier: nat :: tier <= 4 && FromTier(o.source, tier) ==> FromTier(s.source, tier)
    ensures SameTiers(s, o) && o.terminal ==> s.terminal
    ensures SameTiers(s, o) && s.terminal == o.terminal ==>
          forall tier: nat :: tier <= 3 && Known(o.quality, tier) ==> Known(s.quality, tier)
    ensures SameTiers(s, o) && s.terminal == o.terminal && SameQuality(s, o) ==>
          s.richness >= o.richness && (s.richness == o.richness ==> s.updated >= o.updated)
  {
    SameRanks(s, o);
    forall tier: nat | tier <= 4
      ensures FromTier(o.source, tier) ==> SourceRank(o.source) <= tier
      ensures SourceRank(s.source) <= tier ==> FromTier(s.source, tier)
      ensures tier <= 3 && Known(o.quality, tier) ==> QualityRank(o.quality) <= tier
      ensures tier <= 3 && QualityRank(s.quality) <= tier ==> Known(s.quality, tier)
    {
      RankIsTier(o.source, o.quality, tier);
      RankIsTier(s.source, s.quality, tier);
    }
  }

  /** First pass: walk the list and keep the better span per call. */
  method Select(spans: seq<Span>) returns (chosen: map<string, Span>)
    requires Listing(spans)
    ensures forall s :: s in spans ==> KeyOf(s) in chosen
    ensures forall k :: k in chosen ==> KeyOf(chosen[k]) == k && Best(spans, chosen[k])
  {
    chosen := map[];
    var i := 0;
    while i < |spans|
      invariant i <= |spans|
      invariant forall s :: s in spans[..i] ==> KeyOf(s) in chosen
      invariant forall k :: k in chosen ==> KeyOf(chosen[k]) == k && Best(spans[..i], chosen[k])
    {
      var candidate := spans[i];
      var key := KeyOf(candidate);
      Walk(spans, i, chosen);
      if key !in chosen || Prefer(candidate, chosen[key]) {
        chosen := chosen[key := candidate];
      }
      i := i + 1;
    }
    assert spans[..i] == spans;
  }

  /** One more listed span: it is the best of its call so far, or the old best stays. */
  lemma Walk(spans: seq<Span>, i: nat, chosen: map<string, Span>)
    requires Listing(spans) && i < |spans|
    requires forall s :: s in spans[..i] ==> KeyOf(s) in chosen
    requires forall k :: k in chosen ==> KeyOf(chosen[k]) == k && Best(spans[..i], chosen[k])
    ensures var c := spans[i];
            var next := if KeyOf(c) !in chosen || Prefer(c, chosen[KeyOf(c)]) then chosen[KeyOf(c) := c] else chosen;
            && (forall s :: s in spans[..i + 1] ==> KeyOf(s) in next)
            && forall k :: k in next ==> KeyOf(next[k]) == k && Best(spans[..i + 1], next[k])
  {
    var c := spans[i];
    var key := KeyOf(c);
    assert spans[..i + 1] == spans[..i] + [c];
    if key in chosen {
      var current := chosen[key];
      var n :| 0 <= n < i && spans[n] == current;
      PreferTotal(c, current);
      if Prefer(c, current) {
        forall o | o in spans[..i + 1] && KeyOf(o) == key && o != c ensures Prefer(c, o) {
          if o != current {
            PreferTransitive(c, current, o);
          }
        }
      }
    }
  }

  // ---------------------------------------------------------------- order and counting

  /** Two listings of the same spans, in any order, select the same spans. */
  lemma SelectionIgnoresOrder(a: seq<Span>, b: seq<Span>, x: map<string, Span>, y: map<string, Span>)
    requires multiset(a) == multiset(b)
    requires (forall s :: s in a ==> KeyOf(s) in x) && forall k :: k in x ==> KeyOf(x[k]) == k && Best(a, x[k])
    requires (forall s :: s in b ==> KeyOf(s) in y) && forall k :: k in y ==> KeyOf(y[k]) == k && Best(b, y[k])
    ensures x == y
  {
    SameSpans(a, b);
    forall k ensures k in x <==> k in y {
      if k in x {
        assert x[k] in a;
      }
      if k in y {
        assert y[k] in b;
      }
    }
    forall k | k in x ensures x[k] == y[k] {
      BestIsUnique(a, x[k], y[k]);
    }
  }

  lemma SameSpans(a: seq<Span>, b: seq<Span>)
    requires multiset(a) == multiset(b)
    ensures forall s :: s in a <==> s in b
  {
    forall s ensures s in a <==> s in b {
      assert s in a <==> s in multiset(a);
      assert s in b <==> s in multiset(b);
    }
  }

  /** Is this the span that stands for its call? */
  predicate Counted(chosen: map<string, Span>, s: Span) {
    KeyOf(s) in chosen && chosen[KeyOf(s)].trace == s.trace && chosen[KeyOf(s)].id == s.id
  }

  ghost function CountOf(chosen: map<string, Span>, spans: seq<Span>, k: string): nat {
    if spans == [] then 0
    else
      var last := spans[|spans| - 1];
      CountOf(chosen, spans[..|spans| - 1], k) + (if KeyOf(last) == k && Counted(chosen, last) then 1 else 0)
  }

  /** Only the position of the chosen span counts. */
  lemma {:induction false} CountsAt(chosen: map<string, Span>, spans: seq<Span>, k: string, n: nat, at: nat)
    requires Listing(spans) && n <= |spans| && at < |spans|
    requires k in chosen && spans[at] == chosen[k] && KeyOf(chosen[k]) == k
    ensures CountOf(chosen, spans[..n], k) == (if at < n then 1 else 0)
    decreases n
  {
    if n == 0 {
    } else {
      CountsAt(chosen, spans, k, n - 1, at);
      assert spans[..n][..n - 1] == spans[..n - 1];
      var last := spans[n - 1];
      assert spans[..n][n - 1] == last;
    }
  }

  /** Second pass: every logical call in the listing is counted exactly once. */
  lemma EveryCallCountsOnce(spans: seq<Span>, chosen: map<string, Span>, s: Span)
    requires Listing(spans) && s in spans && KeyOf(s) in chosen
    requires KeyOf(chosen[KeyOf(s)]) == KeyOf(s) && Best(spans, chosen[KeyOf(s)])
    ensures CountOf(chosen, spans, KeyOf(s)) == 1
  {
    var k := KeyOf(s);
    var at :| 0 <= at < |spans| && spans[at] == chosen[k];
    CountsAt(chosen, spans, k, |spans|, at);
    assert spans[..|spans|] == spans;
  }

  // ---------------------------------------------------------------- which spans share a key

  lemma JoinsInjective(a: string, b: string, c: string, d: string, a': string, b': string, c': string, d': string)
    requires Plain(a) && Plain(b) && Plain(c) && Plain(a') && Plain(b') && Plain(c')
    requires Join(a, b, c, d) == Join(a', b', c', d')
    ensures a == a' && b == b' && c == c' && d == d'
  {
    JoinInjective(a, b + [NUL] + (c + [NUL] + d), a', b' + [NUL] + (c' + [NUL] + d'));
    JoinInjective(b, c + [NUL] + d, b', c' + [NUL] + d');
    JoinInjective(c, d, c', d');
  }

  lemma {:induction false} DecimalInjective(m: nat, n: nat)
    requires Decimal(m) == Decimal(n)
    ensures m == n
  {
    var s := Decimal(m);
    if m < 10 {
      assert s[0] == Digit(m) == Digit(n);
    } else {
      assert s[|s| - 1] == Digit(m % 10) == Digit(n % 10);
      assert s[..|s| - 1] == Decimal(m / 10) == Decimal(n / 10);
      DecimalInjective(m / 10, n / 10);
    }
  }

  ghost predicate PlainNames(s: Span) {
    Plain(s.trace) && Plain(s.runtime) && Plain(s.request) && Plain(s.session)
  }

  lemma PlainKinds(kind: Kind)
    ensures Plain(KindName(kind)) && Plain("unique") && KindName(ModelRequest) != KindName(ToolCall)
  {
    assert KindName(ModelRequest)[0] != KindName(ToolCall)[0];
  }

  /** Identified spans share a key if and only if they name the same call of the same runtime. */
  lemma SameCallExactly(a: Span, b: Span)
    requires PlainNames(a) && PlainNames(b) && Identified(a) && Identified(b)
    ensures KeyOf(a) == KeyOf(b) <==>
            && a.kind == b.kind && a.runtime == b.runtime
            && (a.kind.ModelRequest? ==>
                  a.request == b.request && (a.attempt == b.attempt || (a.attempt <= 1 && b.attempt <= 1)))
            && (a.kind.ToolCall? ==> a.session == b.session && a.call == b.call)
  {
    PlainKinds(a.kind);
    PlainKinds(b.kind);
    if KeyOf(a) == KeyOf(b) {
      var x := if a.kind.ModelRequest? then (a.request, Decimal(AttemptOf(a))) else (a.session, a.call);
      var y := if b.kind.ModelRequest? then (b.request, Decimal(AttemptOf(b))) else (b.session, b.call);
      JoinsInjective(KindName(a.kind), a.runtime, x.0, x.1, KindName(b.kind), b.runtime, y.0, y.1);
      if a.kind.ModelRequest? {
        DecimalInjective(AttemptOf(a), AttemptOf(b));
      }
    }
  }

  /** The ids of `b` spell the place of `a`, under a runtime called "unique". */
  predicate Poses(b: Span, a: Span) {
    && b.kind == a.kind && b.runtime == "unique"
    && (b.kind.ModelRequest? ==> b.request != "" && b.request == a.trace && Decimal(AttemptOf(b)) == a.id)
    && (b.kind.ToolCall? ==> b.session != "" && b.session == a.trace && b.call != "" && b.call == a.id)
  }

  /**
   A span without a stable id is kept apart from every other listed span, except from one
   that poses as it; no runtime but one called "unique" can make that happen.
   */
  lemma UnidentifiedStayApart(spans: seq<Span>, i: nat, j: nat)
    requires Listing(spans) && i < |spans| && j < |spans| && i != j
    requires spans[i].kind.ModelRequest? ==> spans[i].runtime == "" || spans[i].request == ""
    requires spans[i].kind.ToolCall? ==> spans[i].session == "" || spans[i].call == ""
    requires PlainNames(spans[i]) && PlainNames(spans[j])
    ensures KeyOf(spans[i]) == KeyOf(spans[j]) <==> Poses(spans[j], spans[i])
  {
    var a, b := spans[i], spans[j];
    PlainKinds(a.kind);
    PlainKinds(b.kind);
    if KeyOf(a) == KeyOf(b) {
      if !Identified(b) {
        JoinsInjective(KindName(a.kind), "unique", a.trace, a.id, KindName(b.kind), "unique", b.trace, b.id);
      } else if b.kind.ModelRequest? {
        JoinsInjective(KindName(a.kind), "unique", a.trace, a.id, "model", b.runtime, b.request, Decimal(AttemptOf(b)));
      } else {
        JoinsInjective(KindName(a.kind), "unique", a.trace, a.id, "tool", b.runtime, b.session, b.call);
      }
    }
  }

  /** A tool call without ids, and one whose session and call spell where the first one is. */
  const Nameless: Span := Span(ToolCall, "t1", "s1", "hook", "partial", true, 0, 0, "codex", "", 0, "", "")
  const Poser: Span := Span(ToolCall, "t2", "s2", "hook", "partial", true, 0, 1, "unique", "", 0, "t1", "s1")

  /** They are merged: only one of the two calls is counted. */
  lemma PoserIsMerged()
    ensures Listing([Nameless, Poser]) && KeyOf(Nameless) == KeyOf(Poser)
    ensures Best([Nameless, Poser], Poser) && !Best([Nameless, Poser], Nameless)
  {
    assert Plain("t1") && Plain("t2");
    UnidentifiedStayApart([Nameless, Poser], 0, 1);
    assert [Nameless, Poser][0] == Nameless && [Nameless, Poser][1] == Poser;
    assert Prefer(Poser, Nameless);
    PreferAsymmetric(Poser, Nameless);
  }

  /** Second pass as a loop: how many spans of the listing are counted. */
  method CountCalls(spans: seq<Span>, chosen: map<string, Span>) returns (counted: seq<Span>)
    requires Listing(spans)
    ensures forall s :: s in counted <==> s in spans && Counted(chosen, s)
    ensures forall i, j :: 0 <= i < j < |counted| ==> KeyOf(counted[i]) != KeyOf(counted[j])
  {
    counted := [];
    var i := 0;
    while i < |spans|
      invariant i <= |spans|
      invariant forall s :: s in counted <==> s in spans[..i] && Counted(chosen, s)
      invariant forall a, b :: 0 <= a < b < |counted| ==> KeyOf(counted[a]) != KeyOf(counted[b])
    {
      var s := spans[i];
      assert spans[..i + 1] == spans[..i] + [s];
      if Counted(chosen, s) {
        forall a | 0 <= a < |counted| ensures KeyOf(counted[a]) != KeyOf(s) {
          assert counted[a] in counted;
          var n :| 0 <= n < i && spans[n] == counted[a];
        }
        counted := counted + [s];
      }
      i := i + 1;
    }
    assert spans[..i] == spans;
  }
}
