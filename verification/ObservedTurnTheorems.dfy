/**
 For every sequence of events: the turn's totals account for every span's last
 usage, and every span in the log opens once, first, and is closed in the end.
 */
module ObservedTurnTheorems {
  import opened Prelude
  import opened ObservedTurn

  // ---------------------------------------------------------------- accounting

  ghost function SumLast(spans: seq<Span>, c: Counter): int {
    if spans == [] then 0 else SumLast(spans[..|spans| - 1], c) + Get(spans[|spans| - 1].last, c)
  }

  lemma SumPush(spans: seq<Span>, s: Span, c: Counter)
    ensures SumLast(spans + [s], c) == SumLast(spans, c) + Get(s.last, c)
  {
    assert (spans + [s])[..|spans|] == spans;
  }

  lemma {:induction false} SumUpdate(spans: seq<Span>, i: nat, s: Span, c: Counter)
    requires i < |spans|
    ensures SumLast(spans[i := s], c) == SumLast(spans, c) - Get(spans[i].last, c) + Get(s.last, c)
  {
    var pre := spans[..|spans| - 1];
    if i == |pre| {
      assert spans[i := s][..|pre|] == pre;
    } else {
      SumUpdate(pre, i, s, c);
      assert spans[i := s][..|pre|] == pre[i := s];
    }
  }

  /** Totals = what the spans show + what cumulative reports took back. */
  ghost predicate Balanced(b: Book, c: Counter) {
    Get(b.usage, c) == SumLast(b.spans, c) + Get(b.shrunk, c) && Get(b.shrunk, c) >= 0
  }

  lemma GetPlus(a: Usage, b: Usage, c: Counter)
    ensures Get(Plus(a, b), c) == Get(a, c) + Get(b, c)
  {}

  lemma GetGrowth(now: Usage, before: Usage, c: Counter)
    ensures Get(Growth(now, before), c) == Floor(Get(now, c) - Get(before, c))
  {}

  lemma EnsureBalances(b: Book, key: string, c: Counter)
    requires Filed(b) && Balanced(b, c)
    ensures Balanced(EnsureModel(b, key), c)
  {
    if key !in b.models {
      if Creates(b, key) {
        SumPush(b.spans, Span(NONE, true, false), c);
      } else {
        SumUpdate(b.spans, 0, b.spans[0].(taken := true), c);
      }
    }
  }

  lemma UsageBalances(b: Book, i: nat, report: Option<Report>, c: Counter)
    requires i < |b.spans| && Balanced(b, c)
    ensures Balanced(AddUsage(b, i, report), c)
  {
    if report.Some? {
      var r := report.value;
      var last := b.spans[i].last;
      var t := AddUsage(b, i, report);
      SumUpdate(b.spans, i, t.spans[i], c);
      GetGrowth(r.amount, last, c);
      GetGrowth(last, r.amount, c);
      GetPlus(last, r.amount, c);
      GetPlus(b.usage, if r.cumulative then Growth(r.amount, last) else r.amount, c);
      GetPlus(b.shrunk, if r.cumulative then Growth(last, r.amount) else NONE, c);
    }
  }

  lemma CloseBalances(b: Book, i: nat, closed: bool, c: Counter)
    requires i < |b.spans| && Balanced(b, c)
    ensures Balanced(CloseSpan(b, i, closed), c)
  {
    SumUpdate(b.spans, i, CloseSpan(b, i, closed).spans[i], c);
  }

  lemma DoBalances(t: Observed, h: Happening, c: Counter)
    requires Filed(t.book) && Sorted(t.toolbox) && Balanced(t.book, c)
    ensures Balanced(Do(t, h).book, c)
  {
    if h.Request? {
      EnsureBalances(t.book, h.key, c);
    } else if h.Response? {
      var i := SpanOf(t.book, h.key);
      var b := EnsureModel(t.book, h.key);
      EnsureBalances(t.book, h.key, c);
      UsageBalances(b, i, h.report, c);
      CloseBalances(AddUsage(b, i, h.report), i, h.final, c);
    }
  }

  // ---------------------------------------------------------------- the log

  ghost predicate Has(log: seq<Envelope>, name: Name, life: Life, before: nat) {
    exists i :: 0 <= i < before && i < |log| && log[i].name == name && log[i].life == life
  }

  ghost predicate Numbered(j: Journal) {
    j.sequence == |j.log| && forall i :: 0 <= i < |j.log| ==> j.log[i].number == i + 1
  }

  /** The first envelope of a span, and only that one, opens it. */
  ghost predicate Orderly(log: seq<Envelope>) {
    && (forall i :: 0 <= i < |log| && !log[i].name.Aside? && !log[i].life.Start? ==> Has(log, log[i].name, Start, i))
    && (forall i, j :: 0 <= i < j < |log| && !log[j].name.Aside? && log[j].life.Start? ==> log[i].name != log[j].name)
  }

  /** Which spans exist: the turn, the run, and the first `ns` models and `nt` tool calls. */
  predicate Exists(name: Name, ns: nat, nt: nat) {
    match name
    case Model(i) => i < ns
    case Call(i) => i < nt
    case _ => true
  }

  ghost predicate Names(log: seq<Envelope>, ns: nat, nt: nat) {
    && (forall i :: 0 <= i < |log| ==> Exists(log[i].name, ns, nt))
    && (forall name: Name :: Exists(name, ns, nt) && !name.Aside? ==> Has(log, name, Start, |log|))
  }

  ghost predicate JournalOk(j: Journal, ns: nat, nt: nat) {
    Numbered(j) && Orderly(j.log) && Names(j.log, ns, nt)
  }

  lemma HasGrows(log: seq<Envelope>, e: Envelope)
    ensures forall name: Name, life: Life, n: nat :: Has(log, name, life, n) ==> Has(log + [e], name, life, n)
  {
    forall name: Name, life: Life, n: nat | Has(log, name, life, n) ensures Has(log + [e], name, life, n) {
      var i :| 0 <= i < n && i < |log| && log[i].name == name && log[i].life == life;
      assert (log + [e])[i] == log[i];
    }
  }

  lemma HasLonger(log: seq<Envelope>, name: Name, life: Life, m: nat, n: nat)
    requires Has(log, name, life, m) && m <= n
    ensures Has(log, name, life, n)
  {}

  /** A later envelope of a span that exists. */
  lemma LaterKeeps(j: Journal, ns: nat, nt: nat, name: Name, life: Life)
    requires JournalOk(j, ns, nt) && Exists(name, ns, nt) && !life.Start?
    ensures JournalOk(Emit(j, name, life), ns, nt)
  {
    var e := Envelope(j.sequence + 1, name, life);
    HasGrows(j.log, e);
  }

  /** The first envelope of a new span. */
  lemma FirstKeeps(j: Journal, ns: nat, nt: nat, name: Name, ns': nat, nt': nat)
    requires JournalOk(j, ns, nt) && !Exists(name, ns, nt)
    requires (name == Model(ns) && ns' == ns + 1 && nt' == nt) || (name == Call(nt) && ns' == ns && nt' == nt + 1)
    ensures JournalOk(Emit(j, name, Start), ns', nt')
  {
    var e := Envelope(j.sequence + 1, name, Start);
    var log := j.log + [e];
    HasGrows(j.log, e);
    forall other: Name | Exists(other, ns', nt') && !other.Aside? ensures Has(log, other, Start, |log|) {
      if other == name {
        assert log[|j.log|] == e;
      } else {
        assert Exists(other, ns, nt);
        assert Has(log, other, Start, |j.log|);
      }
    }
  }

  // ---------------------------------------------------------------- each event

  /** The log knows the spans of the tables. */
  ghost predicate Logged(t: Observed) {
    JournalOk(t.journal, |t.book.spans|, |t.toolbox.tools|)
  }

  /** What is marked closed has its end in the log. */
  ghost predicate Marked(t: Observed) {
    var log := t.journal.log;
    && (forall i :: 0 <= i < |t.book.spans| && t.book.spans[i].closed ==> Has(log, Model(i), End, |log|))
    && (forall i :: 0 <= i < |t.toolbox.tools| && t.toolbox.tools[i].closed ==> Has(log, Call(i), End, |log|))
  }

  /** The turn and its run are still open. */
  ghost predicate Ongoing(log: seq<Envelope>) {
    forall i :: 0 <= i < |log| && (log[i].name.Turn? || log[i].name.Run?) ==> log[i].life.Start?
  }

  ghost predicate Inv(t: Observed) {
    && Filed(t.book) && Sorted(t.toolbox) && Logged(t) && Marked(t) && Ongoing(t.journal.log)
    && forall c: Counter :: Balanced(t.book, c)
  }

  lemma BeginInv()
    ensures Inv(Begin())
  {
    var t := Begin();
    BeginLogged();
    assert t.book.models[DEFAULT] == 0;
    forall c: Counter ensures Balanced(t.book, c) {
      SumPush([], Span(NONE, false, false), c);
      assert [] + [Span(NONE, false, false)] == t.book.spans;
    }
  }

  lemma BeginLogged()
    ensures Logged(Begin()) && Ongoing(Begin().journal.log)
  {
    var log := [Envelope(1, Turn, Start), Envelope(2, Run, Start), Envelope(3, Model(0), Start)];
    assert Begin().journal == Journal(3, log);
    OpeningOk(log);
  }

  lemma OpeningOk(log: seq<Envelope>)
    requires |log| == 3 && log[0] == Envelope(1, Turn, Start) && log[1] == Envelope(2, Run, Start)
    requires log[2] == Envelope(3, Model(0), Start)
    ensures JournalOk(Journal(3, log), 1, 0) && Ongoing(log)
  {
    forall name: Name | Exists(name, 1, 0) && !name.Aside? ensures Has(log, name, Start, |log|) {
      assert name == log[0].name || name == log[1].name || name == log[2].name;
    }
  }

  /** Older ends stay in a longer log. */
  lemma EndsStay(j: Journal, name: Name, life: Life)
    ensures var log := Emit(j, name, life).log;
            && (forall n: Name :: Has(j.log, n, End, |j.log|) ==> Has(log, n, End, |log|))
            && (life.End? ==> Has(log, name, End, |log|))
            && (Ongoing(j.log) && !name.Turn? && !name.Run? ==> Ongoing(log))
  {
    var e := Envelope(j.sequence + 1, name, life);
    HasGrows(j.log, e);
    assert (j.log + [e])[|j.log|] == e;
    forall n: Name | Has(j.log, n, End, |j.log|) ensures Has(j.log + [e], n, End, |j.log + [e]|) {
      HasLonger(j.log + [e], n, End, |j.log|, |j.log| + 1);
    }
  }

  lemma RequestKeeps(t: Observed, key: string)
    requires Inv(t)
    ensures var u := DoRequest(t, key); Logged(u) && Marked(u) && Ongoing(u.journal.log)
  {
    var ns, nt := |t.book.spans|, |t.toolbox.tools|;
    var i := SpanOf(t.book, key);
    if Creates(t.book, key) {
      FirstKeeps(t.journal, ns, nt, Model(i), ns + 1, nt);
      EndsStay(t.journal, Model(i), Start);
    } else {
      LaterKeeps(t.journal, ns, nt, Model(i), Event);
      EndsStay(t.journal, Model(i), Event);
    }
  }

  lemma ResponseKeeps(t: Observed, key: string, report: Option<Report>, final: bool)
    requires Inv(t)
    ensures var u := DoResponse(t, key, report, final); Logged(u) && Marked(u) && Ongoing(u.journal.log)
  {
    var u := DoResponse(t, key, report, final);
    var i := SpanOf(t.book, key);
    var life := if final then End else Event;
    var j := t.journal;
    if Creates(t.book, key) {
      FirstKeeps(j, |t.book.spans|, |t.toolbox.tools|, Model(i), |t.book.spans| + 1, |t.toolbox.tools|);
      EndsStay(j, Model(i), Start);
      j := Emit(j, Model(i), Start);
    }
    LaterKeeps(j, |u.book.spans|, |u.toolbox.tools|, Model(i), life);
    EndsStay(j, Model(i), life);
    ResponseCloses(t, key, report, final);
  }

  /** A response closes no other span than its own, and that only when it is final. */
  lemma ResponseCloses(t: Observed, key: string, report: Option<Report>, final: bool)
    requires Filed(t.book)
    ensures var u := DoResponse(t, key, report, final);
            && u.toolbox == t.toolbox
            && forall k :: 0 <= k < |u.book.spans| && u.book.spans[k].closed ==>
                 (k < |t.book.spans| && t.book.spans[k].closed) || (final && k == SpanOf(t.book, key))
  {}

  lemma UsedSorted(x: Toolbox, call: string, named: bool, completed: bool)
    requires Sorted(x)
    ensures Sorted(Used(x, call, named, completed))
  {
    var y := Used(x, call, named, completed);
    forall i | 0 <= i < |y.tools| ensures Listed(y.calls, i) {
      if i < |x.tools| {
        assert Listed(x.calls, i);
        var c :| c in x.calls && x.calls[c] == i;
        assert c in y.calls && y.calls[c] == i;
      } else {
        assert call in y.calls && y.calls[call] == i;
      }
    }
  }

  /** A tool call that is already known. */
  lemma KnownToolKeeps(t: Observed, call: string, named: bool, completed: bool)
    requires Inv(t) && call in t.toolbox.calls
    ensures var u := DoTool(t, call, named, completed); Logged(u) && Marked(u) && Ongoing(u.journal.log)
  {
    var ns, nt := |t.book.spans|, |t.toolbox.tools|;
    var i := t.toolbox.calls[call];
    var recorded := named && !t.toolbox.tools[i].inputSeen;
    var j := t.journal;
    if recorded {
      LaterKeeps(j, ns, nt, Call(i), Event);
      EndsStay(j, Call(i), Event);
      j := Emit(j, Call(i), Event);
    }
    if completed {
      LaterKeeps(j, ns, nt, Call(i), End);
      EndsStay(j, Call(i), End);
    } else if !recorded {
      LaterKeeps(j, ns, nt, Call(i), Event);
      EndsStay(j, Call(i), Event);
    }
  }

  lemma NewToolIs(t: Observed, call: string, named: bool, completed: bool)
    requires Sorted(t.toolbox) && call !in t.toolbox.calls && (named || completed)
    ensures var u := DoTool(t, call, named, completed);
            var n := |t.toolbox.tools|;
            var j := Emit(t.journal, Call(n), Start);
            && u.book == t.book && u.toolbox.tools == t.toolbox.tools + [ToolSpan(named, completed)]
            && u.journal == if completed then Emit(j, Call(n), End) else j
  {}

  lemma NewToolKeeps(t: Observed, call: string, named: bool, completed: bool)
    requires Inv(t) && call !in t.toolbox.calls
    ensures var u := DoTool(t, call, named, completed); Logged(u) && Marked(u) && Ongoing(u.journal.log)
  {
    if named || completed {
      NewToolIs(t, call, named, completed);
      var ns, nt := |t.book.spans|, |t.toolbox.tools|;
      var j := Emit(t.journal, Call(nt), Start);
      FirstKeeps(t.journal, ns, nt, Call(nt), ns, nt + 1);
      EndsStay(t.journal, Call(nt), Start);
      NewToolMarks(t, DoTool(t, call, named, completed), named, completed, j);
    }
  }

  lemma NewToolMarks(t: Observed, u: Observed, named: bool, completed: bool, j: Journal)
    requires Marked(t) && u.book == t.book && u.toolbox.tools == t.toolbox.tools + [ToolSpan(named, completed)]
    requires JournalOk(j, |t.book.spans|, |t.toolbox.tools| + 1) && Ongoing(j.log)
    requires forall n: Name :: Has(t.journal.log, n, End, |t.journal.log|) ==> Has(j.log, n, End, |j.log|)
    requires u.journal == if completed then Emit(j, Call(|t.toolbox.tools|), End) else j
    ensures Logged(u) && Marked(u) && Ongoing(u.journal.log)
  {
    if completed {
      LaterKeeps(j, |t.book.spans|, |t.toolbox.tools| + 1, Call(|t.toolbox.tools|), End);
      EndsStay(j, Call(|t.toolbox.tools|), End);
    }
  }

  lemma DoKeeps(t: Observed, h: Happening)
    requires Inv(t)
    ensures Inv(Do(t, h))
  {
    if h.Request? {
      RequestKeeps(t, h.key);
    } else if h.Response? {
      ResponseKeeps(t, h.key, h.report, h.final);
    } else if h.ToolUse? {
      UsedSorted(t.toolbox, h.call, h.named, h.completed);
      if h.call in t.toolbox.calls {
        KnownToolKeeps(t, h.call, h.named, h.completed);
      } else {
        NewToolKeeps(t, h.call, h.named, h.completed);
      }
    } else {
      LaterKeeps(t.journal, |t.book.spans|, |t.toolbox.tools|, Aside, Event);
      EndsStay(t.journal, Aside, Event);
    }
    forall c: Counter ensures Balanced(Do(t, h).book, c) {
      DoBalances(t, h, c);
    }
  }

  /** The turn after these events, in this order. */
  ghost function Observe(hs: seq<Happening>): (t: Observed)
    ensures Filed(t.book) && Sorted(t.toolbox)
  {
    if hs == [] then
      BeginInv();
      Begin()
    else
      var t := Observe(hs[..|hs| - 1]);
      TablesKeep(t, hs[|hs| - 1]);
      Do(t, hs[|hs| - 1])
  }

  lemma TablesKeep(t: Observed, h: Happening)
    requires Filed(t.book) && Sorted(t.toolbox)
    ensures Filed(Do(t, h).book) && Sorted(Do(t, h).toolbox)
  {
    if h.ToolUse? {
      UsedSorted(t.toolbox, h.call, h.named, h.completed);
    }
  }

  lemma {:induction false} ObserveInv(hs: seq<Happening>)
    ensures Inv(Observe(hs))
  {
    if hs == [] {
      BeginInv();
    } else {
      ObserveInv(hs[..|hs| - 1]);
      DoKeeps(Observe(hs[..|hs| - 1]), hs[|hs| - 1]);
    }
  }

  // ---------------------------------------------------------------- theorems

  /** Totals are never below the sum of the spans; they exceed it by exactly what reports took back. */
  lemma {:induction false} TotalsCoverSpans(hs: seq<Happening>, c: Counter)
    ensures var b := Observe(hs).book;
            && Get(b.usage, c) >= SumLast(b.spans, c)
            && (Get(b.usage, c) == SumLast(b.spans, c) <==> Get(b.shrunk, c) == 0)
  {
    ObserveInv(hs);
    assert Balanced(Observe(hs).book, c);
  }

  /** This event is a cumulative report that lowers the counter of its span. */
  ghost predicate TakesBack(t: Observed, h: Happening, c: Counter)
    requires Filed(t.book)
  {
    && h.Response? && h.report.Some? && h.report.value.cumulative
    && Get(h.report.value.amount, c) < Get(EnsureModel(t.book, h.key).spans[SpanOf(t.book, h.key)].last, c)
  }

  /** Event `i` of the turn lowered the counter. */
  ghost predicate TakenBackAt(hs: seq<Happening>, i: nat, c: Counter)
    requires i < |hs|
  {
    TakesBack(Observe(hs[..i]), hs[i], c)
  }

  lemma TakenBackEarlier(hs: seq<Happening>, c: Counter)
    requires hs != []
    ensures var pre := hs[..|hs| - 1];
            (forall i :: 0 <= i < |hs| ==> !TakenBackAt(hs, i, c)) <==>
            (forall i :: 0 <= i < |pre| ==> !TakenBackAt(pre, i, c)) && !TakesBack(Observe(pre), hs[|hs| - 1], c)
  {
    var pre := hs[..|hs| - 1];
    forall i | 0 <= i < |pre| ensures TakenBackAt(pre, i, c) == TakenBackAt(hs, i, c) {
      assert pre[..i] == hs[..i];
    }
    assert TakenBackAt(hs, |pre|, c) == TakesBack(Observe(pre), hs[|pre|], c);
  }

  lemma ShrinksExactly(t: Observed, h: Happening, c: Counter)
    requires Filed(t.book) && Sorted(t.toolbox)
    ensures Get(Do(t, h).book.shrunk, c) >= Get(t.book.shrunk, c)
    ensures Get(Do(t, h).book.shrunk, c) == Get(t.book.shrunk, c) <==> !TakesBack(t, h, c)
  {
    if h.Response? && h.report.Some? {
      var r := h.report.value;
      var last := EnsureModel(t.book, h.key).spans[SpanOf(t.book, h.key)].last;
      GetGrowth(last, r.amount, c);
      GetPlus(t.book.shrunk, if r.cumulative then Growth(last, r.amount) else NONE, c);
    }
  }

  /** The totals are exact if and only if no cumulative report ever lowered the counter. */
  lemma {:induction false} TotalsAreExactIff(hs: seq<Happening>, c: Counter)
    ensures Get(Observe(hs).book.usage, c) == SumLast(Observe(hs).book.spans, c) <==>
            forall i :: 0 <= i < |hs| ==> !TakenBackAt(hs, i, c)
  {
    NothingTakenBack(hs, c);
    TotalsCoverSpans(hs, c);
  }

  lemma ShrunkIsNat(hs: seq<Happening>, c: Counter)
    ensures Get(Observe(hs).book.shrunk, c) >= 0
  {
    ObserveInv(hs);
    assert Balanced(Observe(hs).book, c);
  }

  lemma {:induction false} NothingTakenBack(hs: seq<Happening>, c: Counter)
    ensures Get(Observe(hs).book.shrunk, c) == 0 <==>
            forall i :: 0 <= i < |hs| ==> !TakenBackAt(hs, i, c)
  {
    if hs == [] {
    } else {
      var pre := hs[..|hs| - 1];
      NothingTakenBack(pre, c);
      TakenBackEarlier(hs, c);
      ShrunkIsNat(pre, c);
      ShrinksExactly(Observe(pre), hs[|hs| - 1], c);
    }
  }

  /** Numbered without gaps; every span opens once, before anything else is said of it. */
  lemma {:induction false} LogIsOrderly(hs: seq<Happening>)
    ensures var j := Observe(hs).journal; Numbered(j) && Orderly(j.log)
  {
    ObserveInv(hs);
  }

  // ---------------------------------------------------------------- the end of the turn

  /** Closing one open span keeps everything. */
  lemma EndToolKeeps(t: Observed, n: nat)
    requires Inv(t) && n < |t.toolbox.tools|
    ensures var tools := t.toolbox.tools[n := t.toolbox.tools[n].(closed := true)];
            Inv(t.(toolbox := t.toolbox.(tools := tools), journal := Emit(t.journal, Call(n), End)))
  {
    LaterKeeps(t.journal, |t.book.spans|, |t.toolbox.tools|, Call(n), End);
    EndsStay(t.journal, Call(n), End);
  }

  lemma EndModelKeeps(t: Observed, n: nat)
    requires Inv(t) && n < |t.book.spans|
    ensures var spans := t.book.spans[n := t.book.spans[n].(closed := true)];
            Inv(t.(book := t.book.(spans := spans), journal := Emit(t.journal, Model(n), End)))
  {
    LaterKeeps(t.journal, |t.book.spans|, |t.toolbox.tools|, Model(n), End);
    EndsStay(t.journal, Model(n), End);
    var book := CloseSpan(t.book, n, true);
    forall c: Counter ensures Balanced(book, c) {
      CloseBalances(t.book, n, true, c);
    }
    assert book == t.book.(spans := t.book.spans[n := t.book.spans[n].(closed := true)]);
  }

  function ToolsEnded(t: Observed, order: seq<nat>): Observed {
    var (x, j) := EndTools(t.toolbox, t.journal, order);
    t.(toolbox := x, journal := j)
  }

  function ModelsEnded(t: Observed, order: seq<nat>): Observed {
    var (b, j) := EndModels(t.book, t.journal, order);
    t.(book := b, journal := j)
  }

  lemma {:induction false} ToolsEndedKeeps(t: Observed, order: seq<nat>)
    requires Inv(t)
    ensures var u := ToolsEnded(t, order);
            && Inv(u) && u.book == t.book && |u.toolbox.tools| == |t.toolbox.tools|
            && forall n :: n in order && n < |t.toolbox.tools| ==> u.toolbox.tools[n].closed
    decreases |order|
  {
    if order == [] {
    } else {
      var pre, n := order[..|order| - 1], order[|order| - 1];
      ToolsEndedKeeps(t, pre);
      var u := ToolsEnded(t, pre);
      assert order == pre + [n];
      if n < |u.toolbox.tools| && !u.toolbox.tools[n].closed {
        EndToolKeeps(u, n);
      }
    }
  }

  lemma {:induction false} ModelsEndedKeeps(t: Observed, order: seq<nat>)
    requires Inv(t)
    ensures var u := ModelsEnded(t, order);
            && Inv(u) && u.toolbox == t.toolbox && |u.book.spans| == |t.book.spans| && u.book.usage == t.book.usage
            && forall n :: n in order && n < |t.book.spans| ==> u.book.spans[n].closed
    decreases |order|
  {
    if order == [] {
    } else {
      var pre, n := order[..|order| - 1], order[|order| - 1];
      ModelsEndedKeeps(t, pre);
      var u := ModelsEnded(t, pre);
      assert order == pre + [n];
      if n < |u.book.spans| && !u.book.spans[n].closed {
        EndModelKeeps(u, n);
      }
    }
  }

  /** A finished log: children end before the run, the run before the turn, and nothing follows. */
  ghost predicate WellEnded(log: seq<Envelope>, ns: nat, nt: nat) {
    var n := |log|;
    && n >= 2 && log[n - 2].name == Run && log[n - 2].life == End && log[n - 1].name == Turn && log[n - 1].life == End
    && (forall i :: 0 <= i < ns ==> Has(log, Model(i), End, n - 2))
    && (forall i :: 0 <= i < nt ==> Has(log, Call(i), End, n - 2))
    && Ongoing(log[..n - 2])
  }

  /** Whatever happened, and in whichever order the tables are walked at the end. */
  lemma {:induction false} FinishEndsEverything(hs: seq<Happening>, tools: seq<nat>, models: seq<nat>)
    requires forall i :: 0 <= i < |Observe(hs).toolbox.tools| ==> i in tools
    requires forall i :: 0 <= i < |Observe(hs).book.spans| ==> i in models
    ensures var t := Observe(hs);
            var u := Finish(t, tools, models);
            && Numbered(u.journal) && Orderly(u.journal.log) && u.book.usage == t.book.usage
            && WellEnded(u.journal.log, |t.book.spans|, |t.toolbox.tools|)
  {
    ObserveInv(hs);
    var t := Observe(hs);
    ToolsEndedKeeps(t, tools);
    var a := ToolsEnded(t, tools);
    ModelsEndedKeeps(a, models);
    var b := ModelsEnded(a, models);
    EndTurn(b);
    assert Finish(t, tools, models).journal == Emit(Emit(b.journal, Run, End), Turn, End);
  }

  lemma EndTurn(b: Observed)
    requires Inv(b) && (forall i :: 0 <= i < |b.book.spans| ==> b.book.spans[i].closed)
    requires forall i :: 0 <= i < |b.toolbox.tools| ==> b.toolbox.tools[i].closed
    ensures var j := Emit(Emit(b.journal, Run, End), Turn, End);
            && Numbered(j) && Orderly(j.log) && WellEnded(j.log, |b.book.spans|, |b.toolbox.tools|)
  {
    var ns, nt := |b.book.spans|, |b.toolbox.tools|;
    var j1 := Emit(b.journal, Run, End);
    var j := Emit(j1, Turn, End);
    LaterKeeps(b.journal, ns, nt, Run, End);
    LaterKeeps(j1, ns, nt, Turn, End);
    HasGrows(b.journal.log, Envelope(b.journal.sequence + 1, Run, End));
    HasGrows(j1.log, Envelope(j1.sequence + 1, Turn, End));
    assert j.log[..|j.log| - 2] == b.journal.log;
  }
}
