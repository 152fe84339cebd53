/**
 What a turn's log tells of its events: which span a key stands for, and how often the
 end of a span is reported.
 */
module ObservedTurnLog {
  import opened Prelude
  import opened ObservedTurn
  import opened ObservedTurnTheorems

  // ---------------------------------------------------------------- keys and spans

  /** The event names this model key. */
  predicate Names(h: Happening, key: string) {
    (h.Request? || h.Response?) && h.key == key
  }

  /** The event ends a model request that is filed under the default key. */
  predicate EndsDefault(h: Happening) {
    h.Response? && h.key == DEFAULT && h.final
  }

  /** Event `j` is the first that names a key, and the default span is still open. */
  ghost predicate AdoptsAt(hs: seq<Happening>, j: nat, key: string) {
    && j < |hs| && key != DEFAULT && Names(hs[j], key)
    && forall i :: 0 <= i < j ==> !EndsDefault(hs[i]) && (hs[i].Request? || hs[i].Response? ==> hs[i].key == DEFAULT)
  }

  ghost predicate Adopts(hs: seq<Happening>, key: string) {
    exists j: nat :: AdoptsAt(hs, j, key)
  }

  /** Only default events so far, none of them final. */
  ghost predicate Untouched(hs: seq<Happening>) {
    forall i :: 0 <= i < |hs| ==> !EndsDefault(hs[i]) && (hs[i].Request? || hs[i].Response? ==> hs[i].key == DEFAULT)
  }

  lemma AdoptsNext(hs: seq<Happening>, h: Happening, key: string)
    ensures Adopts(hs + [h], key) <==> Adopts(hs, key) || (key != DEFAULT && Names(h, key) && Untouched(hs))
  {
    var all := hs + [h];
    if j: nat :| AdoptsAt(all, j, key) {
      assert forall i :: 0 <= i < j ==> all[i] == hs[i];
      assert j < |hs| ==> AdoptsAt(hs, j, key);
    }
    if j: nat :| AdoptsAt(hs, j, key) {
      assert AdoptsAt(all, j, key);
    }
    if key != DEFAULT && Names(h, key) && Untouched(hs) {
      assert AdoptsAt(all, |hs|, key);
    }
  }

  ghost predicate Named(hs: seq<Happening>, key: string) {
    exists j :: 0 <= j < |hs| && Names(hs[j], key)
  }

  lemma NamedNext(hs: seq<Happening>, h: Happening, key: string)
    ensures Named(hs + [h], key) <==> Named(hs, key) || Names(h, key)
  {
    var all := hs + [h];
    if j :| 0 <= j < |hs| && Names(hs[j], key) {
      assert Names(all[j], key);
    }
    if Names(h, key) {
      assert Names(all[|hs|], key);
    }
  }

  /** Which keys are filed, and where. */
  ghost predicate KeysOk(hs: seq<Happening>, b: Book) {
    && Filed(b) && b.models[DEFAULT] == 0
    && (forall key :: key in b.models <==> key == DEFAULT || Named(hs, key))
    && (forall a, c :: a in b.models && c in b.models && a != DEFAULT && c != DEFAULT && b.models[a] == b.models[c] ==>
          a == c)
    && (forall key :: key in b.models && key != DEFAULT ==> (b.models[key] == 0 <==> Adopts(hs, key)))
    && (!b.spans[0].taken && !b.spans[0].closed <==> Untouched(hs))
  }

  lemma EnsureKeys(hs: seq<Happening>, b: Book, h: Happening)
    requires KeysOk(hs, b) && (h.Request? || h.Response?)
    ensures var t := EnsureModel(b, h.key);
            && Filed(t) && t.models[DEFAULT] == 0
            && (forall key :: key in t.models <==> key == DEFAULT || Named(hs + [h], key))
            && (forall a, c :: a in t.models && c in t.models && a != DEFAULT && c != DEFAULT ==>
                  (t.models[a] == t.models[c] ==> a == c))
            && (forall key :: key in t.models && key != DEFAULT ==> (t.models[key] == 0 <==> Adopts(hs + [h], key)))
            && (!t.spans[0].taken && !t.spans[0].closed <==> Untouched(hs) && h.key == DEFAULT)
            && (h.key == DEFAULT ==> SpanOf(b, h.key) == 0)
  {
    forall key
      ensures Named(hs + [h], key) <==> Named(hs, key) || Names(h, key)
      ensures Adopts(hs + [h], key) <==> Adopts(hs, key) || (key != DEFAULT && Names(h, key) && Untouched(hs))
    {
      NamedNext(hs, h, key);
      AdoptsNext(hs, h, key);
    }
    forall key | Adopts(hs, key) ensures Named(hs, key) && !Untouched(hs) {
      var j: nat :| AdoptsAt(hs, j, key);
    }
  }

  lemma UntouchedNext(hs: seq<Happening>, h: Happening)
    ensures Untouched(hs + [h]) <==>
            Untouched(hs) && !EndsDefault(h) && (h.Request? || h.Response? ==> h.key == DEFAULT)
  {
    var all := hs + [h];
    assert all[|hs|] == h && forall i :: 0 <= i < |hs| ==> all[i] == hs[i];
  }

  lemma OtherKeys(hs: seq<Happening>, b: Book, h: Happening)
    requires KeysOk(hs, b) && !h.Request? && !h.Response?
    ensures KeysOk(hs + [h], b)
  {
    forall key
      ensures Named(hs + [h], key) <==> Named(hs, key) || Names(h, key)
      ensures Adopts(hs + [h], key) <==> Adopts(hs, key) || (key != DEFAULT && Names(h, key) && Untouched(hs))
    {
      NamedNext(hs, h, key);
      AdoptsNext(hs, h, key);
    }
    UntouchedNext(hs, h);
  }

  lemma KeysNext(hs: seq<Happening>, t: Observed, h: Happening)
    requires KeysOk(hs, t.book) && Sorted(t.toolbox)
    ensures KeysOk(hs + [h], Do(t, h).book)
  {
    if h.Request? || h.Response? {
      EnsureKeys(hs, t.book, h);
      UntouchedNext(hs, h);
      BookNext(t, h);
    } else {
      OtherKeys(hs, t.book, h);
    }
  }

  /** A response changes no table; a final one closes its span. */
  lemma BookNext(t: Observed, h: Happening)
    requires Filed(t.book) && Sorted(t.toolbox) && (h.Request? || h.Response?)
    ensures var b, e := Do(t, h).book, EnsureModel(t.book, h.key);
            && Filed(b) && b.models == e.models && b.spans[0].taken == e.spans[0].taken
            && b.spans[0].closed == (e.spans[0].closed || (h.Response? && h.final && SpanOf(t.book, h.key) == 0))
  {
    TablesKeep(t, h);
  }

  lemma {:induction false} KeysRun(hs: seq<Happening>)
    ensures KeysOk(hs, Observe(hs).book)
  {
    if hs == [] {
      assert Untouched(hs);
      assert forall key: string :: !Named(hs, key) && !Adopts(hs, key);
    } else {
      var pre, h := hs[..|hs| - 1], hs[|hs| - 1];
      KeysRun(pre);
      KeysNext(pre, Observe(pre), h);
      assert hs == pre + [h];
    }
  }

  /**
   Every key that was named has a span.  Two keys besides the default one never share a span,
   and only the first of them, if it comes while the default span is open, stands for that one.
   */
  lemma {:induction false} KeysHaveSpans(hs: seq<Happening>, key: string, other: string)
    requires key != DEFAULT && Named(hs, key)
    ensures var models := Observe(hs).book.models;
            && key in models && DEFAULT in models
            && (other in models && other != DEFAULT && other != key ==> models[other] != models[key])
            && (models[key] == models[DEFAULT] <==> Adopts(hs, key))
  {
    KeysRun(hs);
  }

  /** A key never changes its span. */
  lemma KeyStays(hs: seq<Happening>, h: Happening, key: string)
    requires key in Observe(hs).book.models
    ensures key in Observe(hs + [h]).book.models
    ensures Observe(hs + [h]).book.models[key] == Observe(hs).book.models[key]
  {
    assert (hs + [h])[..|hs|] == hs;
  }

  // ---------------------------------------------------------------- ends in the log

  ghost function CountIn(log: seq<Envelope>, name: Name, life: Life): nat {
    if log == [] then 0
    else
      var last := log[|log| - 1];
      CountIn(log[..|log| - 1], name, life) + (if last.name == name && last.life == life then 1 else 0)
  }

  lemma CountEmit(j: Journal, name: Name, life: Life, which: Name, what: Life)
    ensures CountIn(Emit(j, name, life).log, which, what) ==
            CountIn(j.log, which, what) + (if name == which && life == what then 1 else 0)
  {
    var log := Emit(j, name, life).log;
    assert log[..|log| - 1] == j.log;
  }

  /** How many final responses were made on model span `i`. */
  ghost function Finals(hs: seq<Happening>, i: nat): nat {
    if hs == [] then 0
    else
      var pre, h := hs[..|hs| - 1], hs[|hs| - 1];
      Finals(pre, i) + (if h.Response? && h.final && SpanOf(Observe(pre).book, h.key) == i then 1 else 0)
  }

  /** How many requests were made on it, and how many responses that are not final. */
  ghost function Progress(hs: seq<Happening>, i: nat): nat {
    if hs == [] then 0
    else
      var pre, h := hs[..|hs| - 1], hs[|hs| - 1];
      Progress(pre, i) +
      (if (h.Request? || (h.Response? && !h.final)) && SpanOf(Observe(pre).book, h.key) == i then 1 else 0)
  }

  /** Span `i` was opened by a request of its own. */
  ghost predicate OpenedByRequest(hs: seq<Happening>, i: nat) {
    exists k :: 0 <= k < |hs| && hs[k].Request? && OpensAt(hs, k, i)
  }

  ghost predicate OpensAt(hs: seq<Happening>, k: nat, i: nat)
    requires k < |hs| && (hs[k].Request? || hs[k].Response?)
  {
    Creates(Observe(hs[..k]).book, hs[k].key) && SpanOf(Observe(hs[..k]).book, hs[k].key) == i
  }

  lemma OpenedNext(hs: seq<Happening>, h: Happening, i: nat)
    ensures var b := Observe(hs).book;
            OpenedByRequest(hs + [h], i) <==>
            OpenedByRequest(hs, i) || (h.Request? && Creates(b, h.key) && SpanOf(b, h.key) == i)
  {
    var all := hs + [h];
    assert all[..|hs|] == hs && all[|hs|] == h;
    if k :| 0 <= k < |all| && all[k].Request? && OpensAt(all, k, i) {
      assert k < |hs| ==> all[..k] == hs[..k] && OpensAt(hs, k, i);
    }
    if k :| 0 <= k < |hs| && hs[k].Request? && OpensAt(hs, k, i) {
      assert all[..k] == hs[..k] && OpensAt(all, k, i);
    }
    if h.Request? && Creates(Observe(hs).book, h.key) && SpanOf(Observe(hs).book, h.key) == i {
      assert OpensAt(all, |hs|, i);
    }
  }

  /** How often the calls of tool span `i` were completed. */
  ghost function Completions(hs: seq<Happening>, i: nat): nat {
    if hs == [] then 0
    else
      var pre, h := hs[..|hs| - 1], hs[|hs| - 1];
      Completions(pre, i) + (if h.ToolUse? && h.completed && ToolOf(Observe(pre).toolbox, h.call) == i then 1 else 0)
  }

  lemma EndsNext(t: Observed, h: Happening, name: Name)
    requires Filed(t.book) && Sorted(t.toolbox)
    ensures CountIn(Do(t, h).journal.log, name, End) - CountIn(t.journal.log, name, End) ==
            if (h.Response? && h.final && name == Model(SpanOf(t.book, h.key)))
               || (h.ToolUse? && h.completed && name == Call(ToolOf(t.toolbox, h.call)))
            then 1 else 0
  {
    if h.Request? {
      RequestEnds(t, h.key, name);
    } else if h.Response? {
      ResponseEnds(t, h.key, h.report, h.final, name);
    } else if h.ToolUse? {
      ToolCounts(t, h.call, h.named, h.completed, name, End);
    } else {
      CountEmit(t.journal, Aside, Event, name, End);
    }
  }

  lemma RequestEnds(t: Observed, key: string, name: Name)
    requires Filed(t.book)
    ensures CountIn(DoRequest(t, key).journal.log, name, End) == CountIn(t.journal.log, name, End)
  {
    CountEmit(t.journal, Model(SpanOf(t.book, key)), if Creates(t.book, key) then Start else Event, name, End);
  }

  lemma ResponseEnds(t: Observed, key: string, report: Option<Report>, final: bool, name: Name)
    requires Filed(t.book)
    ensures CountIn(DoResponse(t, key, report, final).journal.log, name, End) ==
            CountIn(t.journal.log, name, End) + (if final && name == Model(SpanOf(t.book, key)) then 1 else 0)
  {
    var m := Model(SpanOf(t.book, key));
    CountEmit(t.journal, m, Start, name, End);
    CountEmit(if Creates(t.book, key) then Emit(t.journal, m, Start) else t.journal, m,
              if final then End else Event, name, End);
  }

  /** How many envelopes of each kind an event of a tool call adds. */
  function ToolSays(x: Toolbox, call: string, named: bool, completed: bool, life: Life): nat
    requires Sorted(x)
  {
    var known := call in x.calls;
    match life
    case Start => if !known && (named || completed) then 1 else 0
    case Event => if known && (!completed || (named && !x.tools[x.calls[call]].inputSeen)) then 1 else 0
    case End => if completed then 1 else 0
  }

  lemma ToolCounts(t: Observed, call: string, named: bool, completed: bool, name: Name, life: Life)
    requires Sorted(t.toolbox)
    ensures CountIn(DoTool(t, call, named, completed).journal.log, name, life) ==
            CountIn(t.journal.log, name, life)
            + (if name == Call(ToolOf(t.toolbox, call)) then ToolSays(t.toolbox, call, named, completed, life) else 0)
  {
    var c := Call(ToolOf(t.toolbox, call));
    var known := call in t.toolbox.calls;
    var first := if known then Event else Start;
    var j1 := Emit(t.journal, c, first);
    CountEmit(t.journal, c, first, name, life);
    if named && (!known || !t.toolbox.tools[t.toolbox.calls[call]].inputSeen) {
      CountEmit(j1, c, End, name, life);
    } else if completed {
      CountEmit(t.journal, c, End, name, life);
      CountEmit(j1, c, End, name, life);
    }
  }

  /** The three envelopes that open a turn. */
  lemma BeginCounts(name: Name, life: Life)
    ensures CountIn(Begin().journal.log, name, life) ==
            if life.Start? && (name.Turn? || name.Run? || name == Model(0)) then 1 else 0
  {
    var j1 := Emit(Journal(0, []), Turn, Start);
    CountEmit(Journal(0, []), Turn, Start, name, life);
    CountEmit(j1, Run, Start, name, life);
    CountEmit(Emit(j1, Run, Start), Model(0), Start, name, life);
  }

  lemma {:induction false} ModelEnds(hs: seq<Happening>, i: nat)
    ensures CountIn(Observe(hs).journal.log, Model(i), End) == Finals(hs, i)
  {
    if hs == [] {
      BeginCounts(Model(i), End);
    } else {
      ModelEnds(hs[..|hs| - 1], i);
      EndsNext(Observe(hs[..|hs| - 1]), hs[|hs| - 1], Model(i));
    }
  }

  lemma {:induction false} CallEnds(hs: seq<Happening>, i: nat)
    ensures CountIn(Observe(hs).journal.log, Call(i), End) == Completions(hs, i)
  {
    if hs == [] {
      BeginCounts(Call(i), End);
    } else {
      CallEnds(hs[..|hs| - 1], i);
      EndsNext(Observe(hs[..|hs| - 1]), hs[|hs| - 1], Call(i));
    }
  }

  /**
   While the turn goes on, the end of a model span is reported once for every final response
   on it, and the end of a tool call once for every completion of it.
   */
  lemma {:induction false} EndsAreReported(hs: seq<Happening>, i: nat)
    ensures var log := Observe(hs).journal.log;
            CountIn(log, Model(i), End) == Finals(hs, i) && CountIn(log, Call(i), End) == Completions(hs, i)
  {
    ModelEnds(hs, i);
    CallEnds(hs, i);
  }

  lemma EventsNext(t: Observed, h: Happening, i: nat)
    requires Filed(t.book) && Sorted(t.toolbox)
    ensures CountIn(Do(t, h).journal.log, Model(i), Event) - CountIn(t.journal.log, Model(i), Event) ==
            if ((h.Request? && !Creates(t.book, h.key)) || (h.Response? && !h.final)) && SpanOf(t.book, h.key) == i
            then 1 else 0
  {
    if h.Request? {
      var life := if Creates(t.book, h.key) then Start else Event;
      CountEmit(t.journal, Model(SpanOf(t.book, h.key)), life, Model(i), Event);
    } else if h.Response? {
      var m := Model(SpanOf(t.book, h.key));
      CountEmit(t.journal, m, Start, Model(i), Event);
      CountEmit(if Creates(t.book, h.key) then Emit(t.journal, m, Start) else t.journal, m,
                if h.final then End else Event, Model(i), Event);
    } else if h.ToolUse? {
      ToolCounts(t, h.call, h.named, h.completed, Model(i), Event);
    } else {
      CountEmit(t.journal, Aside, Event, Model(i), Event);
    }
  }

  /** Every request and every response that is not final is reported, the one that opens a span as its start. */
  lemma {:induction false} ProgressIsReported(hs: seq<Happening>, i: nat)
    ensures CountIn(Observe(hs).journal.log, Model(i), Event) ==
            Progress(hs, i) - (if OpenedByRequest(hs, i) then 1 else 0)
  {
    if hs == [] {
      BeginCounts(Model(i), Event);
    } else {
      var pre, h := hs[..|hs| - 1], hs[|hs| - 1];
      ProgressIsReported(pre, i);
      EventsNext(Observe(pre), h, i);
      OpenedNext(pre, h, i);
      assert hs == pre + [h];
      OpenedOnce(pre, h, i);
    }
  }

  /** A span is opened once. */
  lemma OpenedOnce(hs: seq<Happening>, h: Happening, i: nat)
    ensures OpenedByRequest(hs, i) ==> i < |Observe(hs).book.spans|
    ensures h.Request? && Creates(Observe(hs).book, h.key) && SpanOf(Observe(hs).book, h.key) == i ==>
          !OpenedByRequest(hs, i)
  {
    if k :| 0 <= k < |hs| && hs[k].Request? && OpensAt(hs, k, i) {
      OpenedExists(hs, k, i);
    }
  }

  lemma {:induction false} OpenedExists(hs: seq<Happening>, k: nat, i: nat)
    requires k < |hs| && hs[k].Request? && OpensAt(hs, k, i)
    ensures i < |Observe(hs).book.spans|
    decreases |hs|
  {
    var pre := hs[..|hs| - 1];
    if k < |pre| {
      assert pre[..k] == hs[..k];
      OpenedExists(pre, k, i);
    }
  }

  // ---------------------------------------------------------------- tool calls and remarks

  /** Some event named the input of tool span `i`. */
  ghost predicate InputNamed(hs: seq<Happening>, i: nat) {
    hs != [] &&
    var pre, h := hs[..|hs| - 1], hs[|hs| - 1];
    InputNamed(pre, i) || (h.ToolUse? && h.named && ToolOf(Observe(pre).toolbox, h.call) == i)
  }

  /** The event says something new of a known call: progress, or its input together with its completion. */
  ghost predicate Updates(pre: seq<Happening>, h: Happening, i: nat) {
    && h.ToolUse? && h.call in Observe(pre).toolbox.calls && ToolOf(Observe(pre).toolbox, h.call) == i
    && (!h.completed || (h.named && !InputNamed(pre, i)))
  }

  ghost function UpdateCount(hs: seq<Happening>, i: nat): nat {
    if hs == [] then 0
    else UpdateCount(hs[..|hs| - 1], i) + (if Updates(hs[..|hs| - 1], hs[|hs| - 1], i) then 1 else 0)
  }

  function Remarks(hs: seq<Happening>): nat {
    if hs == [] then 0 else Remarks(hs[..|hs| - 1]) + (if hs[|hs| - 1].Remark? then 1 else 0)
  }

  lemma {:induction false} InputSeenExactly(hs: seq<Happening>, i: nat)
    ensures var tools := Observe(hs).toolbox.tools;
            if i < |tools| then tools[i].inputSeen <==> InputNamed(hs, i) else !InputNamed(hs, i)
  {
    if hs == [] {
    } else {
      InputSeenExactly(hs[..|hs| - 1], i);
      InputNext(Observe(hs[..|hs| - 1]), hs[|hs| - 1], i);
    }
  }

  lemma InputNext(t: Observed, h: Happening, i: nat)
    requires Filed(t.book) && Sorted(t.toolbox)
    ensures var before, after := t.toolbox.tools, Do(t, h).toolbox.tools;
            && |before| <= |after|
            && (i < |after| ==> (after[i].inputSeen <==>
                 (i < |before| && before[i].inputSeen) || (h.ToolUse? && h.named && ToolOf(t.toolbox, h.call) == i)))
            && (h.ToolUse? && h.named ==> ToolOf(t.toolbox, h.call) < |after|)
  {}

  lemma UpdateNext(t: Observed, h: Happening, i: nat)
    requires Filed(t.book) && Sorted(t.toolbox)
    ensures CountIn(Do(t, h).journal.log, Call(i), Event) - CountIn(t.journal.log, Call(i), Event) ==
            if h.ToolUse? && h.call in t.toolbox.calls && t.toolbox.calls[h.call] == i
               && (!h.completed || (h.named && !t.toolbox.tools[i].inputSeen))
            then 1 else 0
  {
    if h.ToolUse? {
      ToolCounts(t, h.call, h.named, h.completed, Call(i), Event);
    } else {
      NoToolCounts(t, h, Call(i), Event);
    }
  }

  /** A request or a response says nothing of anything but its span. */
  lemma ModelCounts(t: Observed, h: Happening, name: Name, life: Life)
    requires Filed(t.book) && Sorted(t.toolbox) && (h.Request? || h.Response?) && !name.Model?
    ensures CountIn(Do(t, h).journal.log, name, life) == CountIn(t.journal.log, name, life)
  {
    var m := Model(SpanOf(t.book, h.key));
    if h.Request? {
      CountEmit(t.journal, m, if Creates(t.book, h.key) then Start else Event, name, life);
    } else {
      CountEmit(t.journal, m, Start, name, life);
      CountEmit(if Creates(t.book, h.key) then Emit(t.journal, m, Start) else t.journal, m,
                if h.final then End else Event, name, life);
    }
  }

  lemma NoToolCounts(t: Observed, h: Happening, name: Name, life: Life)
    requires Filed(t.book) && Sorted(t.toolbox) && !h.ToolUse? && name.Call?
    ensures CountIn(Do(t, h).journal.log, name, life) == CountIn(t.journal.log, name, life)
  {
    if h.Remark? {
      CountEmit(t.journal, Aside, Event, name, life);
    } else {
      ModelCounts(t, h, name, life);
    }
  }

  /** Every update of a tool call is reported, its input at the first time it is named. */
  lemma {:induction false} UpdatesAreReported(hs: seq<Happening>, i: nat)
    ensures CountIn(Observe(hs).journal.log, Call(i), Event) == UpdateCount(hs, i)
  {
    if hs == [] {
      BeginCounts(Call(i), Event);
    } else {
      var pre := hs[..|hs| - 1];
      UpdatesAreReported(pre, i);
      InputSeenExactly(pre, i);
      UpdateNext(Observe(pre), hs[|hs| - 1], i);
    }
  }

  lemma RemarkNext(t: Observed, h: Happening)
    requires Filed(t.book) && Sorted(t.toolbox)
    ensures CountIn(Do(t, h).journal.log, Aside, Event) ==
            CountIn(t.journal.log, Aside, Event) + (if h.Remark? then 1 else 0)
  {
    if h.ToolUse? {
      ToolCounts(t, h.call, h.named, h.completed, Aside, Event);
    } else if h.Remark? {
      CountEmit(t.journal, Aside, Event, Aside, Event);
    } else {
      ModelCounts(t, h, Aside, Event);
    }
  }

  /** What belongs to no span is reported too. */
  lemma {:induction false} RemarksAreReported(hs: seq<Happening>)
    ensures CountIn(Observe(hs).journal.log, Aside, Event) == Remarks(hs)
  {
    if hs == [] {
      BeginCounts(Aside, Event);
    } else {
      RemarksAreReported(hs[..|hs| - 1]);
      RemarkNext(Observe(hs[..|hs| - 1]), hs[|hs| - 1]);
    }
  }

  // ---------------------------------------------------------------- the end of the turn

  lemma ClosedNext(t: Observed, h: Happening, i: nat)
    requires Filed(t.book) && Sorted(t.toolbox)
    ensures var spans := Do(t, h).book.spans;
            && |t.book.spans| <= |spans|
            && (i < |spans| ==> (spans[i].closed <==>
                 (i < |t.book.spans| && t.book.spans[i].closed)
                 || (h.Response? && h.final && SpanOf(t.book, h.key) == i)))
            && (h.Response? ==> SpanOf(t.book, h.key) < |spans|)
  {}

  lemma ToolClosedNext(t: Observed, h: Happening, i: nat)
    requires Filed(t.book) && Sorted(t.toolbox)
    ensures var tools := Do(t, h).toolbox.tools;
            && |t.toolbox.tools| <= |tools|
            && (i < |tools| ==> (tools[i].closed <==>
                 (i < |t.toolbox.tools| && t.toolbox.tools[i].closed)
                 || (h.ToolUse? && h.completed && ToolOf(t.toolbox, h.call) == i)))
            && (h.ToolUse? && h.completed ==> ToolOf(t.toolbox, h.call) < |tools|)
  {}

  /** A span counts as closed exactly if its end was reported. */
  lemma {:induction false} ClosedExactly(hs: seq<Happening>, i: nat)
    ensures var spans := Observe(hs).book.spans;
            if i < |spans| then spans[i].closed <==> Finals(hs, i) > 0 else Finals(hs, i) == 0
    ensures var tools := Observe(hs).toolbox.tools;
            if i < |tools| then tools[i].closed <==> Completions(hs, i) > 0 else Completions(hs, i) == 0
  {
    if hs == [] {
    } else {
      ClosedExactly(hs[..|hs| - 1], i);
      ClosedNext(Observe(hs[..|hs| - 1]), hs[|hs| - 1], i);
      ToolClosedNext(Observe(hs[..|hs| - 1]), hs[|hs| - 1], i);
    }
  }

  lemma {:induction false} EndToolsClose(x: Toolbox, j: Journal, order: seq<nat>, i: nat)
    ensures var after := EndTools(x, j, order).0;
            && |after.tools| == |x.tools|
            && (i < |x.tools| ==> (after.tools[i].closed <==> x.tools[i].closed || i in order))
    decreases |order|
  {
    if order == [] {
    } else {
      var pre, n := order[..|order| - 1], order[|order| - 1];
      EndToolsClose(x, j, pre, i);
      assert order == pre + [n];
    }
  }

  /** One more entry of the walk ends its span if that is still open. */
  lemma EndToolsNext(x: Toolbox, j: Journal, order: seq<nat>, name: Name)
    requires order != []
    ensures var pre, n := order[..|order| - 1], order[|order| - 1];
            var before, k := EndTools(x, j, pre).0, EndTools(x, j, pre).1;
            CountIn(EndTools(x, j, order).1.log, name, End) == CountIn(k.log, name, End)
            + (if n < |before.tools| && !before.tools[n].closed && name == Call(n) then 1 else 0)
  {
    var pre, n := order[..|order| - 1], order[|order| - 1];
    CountEmit(EndTools(x, j, pre).1, Call(n), End, name, End);
  }

  lemma {:induction false} EndToolsCount(x: Toolbox, j: Journal, order: seq<nat>, i: nat)
    ensures CountIn(EndTools(x, j, order).1.log, Call(i), End) == CountIn(j.log, Call(i), End)
            + (if i < |x.tools| && !x.tools[i].closed && i in order then 1 else 0)
    ensures CountIn(EndTools(x, j, order).1.log, Model(i), End) == CountIn(j.log, Model(i), End)
    decreases |order|
  {
    if order == [] {
    } else {
      var pre, n := order[..|order| - 1], order[|order| - 1];
      EndToolsCount(x, j, pre, i);
      EndToolsClose(x, j, pre, n);
      EndToolsNext(x, j, order, Call(i));
      EndToolsNext(x, j, order, Model(i));
      assert order == pre + [n];
    }
  }

  lemma {:induction false} EndModelsClose(b: Book, j: Journal, order: seq<nat>, i: nat)
    ensures var after := EndModels(b, j, order).0;
            && |after.spans| == |b.spans|
            && (i < |b.spans| ==> (after.spans[i].closed <==> b.spans[i].closed || i in order))
    decreases |order|
  {
    if order == [] {
    } else {
      var pre, n := order[..|order| - 1], order[|order| - 1];
      EndModelsClose(b, j, pre, i);
      assert order == pre + [n];
    }
  }

  /** One more entry of the walk ends its span if that is still open. */
  lemma EndModelsNext(b: Book, j: Journal, order: seq<nat>, name: Name)
    requires order != []
    ensures var pre, n := order[..|order| - 1], order[|order| - 1];
            var before, k := EndModels(b, j, pre).0, EndModels(b, j, pre).1;
            CountIn(EndModels(b, j, order).1.log, name, End) == CountIn(k.log, name, End)
            + (if n < |before.spans| && !before.spans[n].closed && name == Model(n) then 1 else 0)
  {
    var pre, n := order[..|order| - 1], order[|order| - 1];
    CountEmit(EndModels(b, j, pre).1, Model(n), End, name, End);
  }

  lemma {:induction false} EndModelsCount(b: Book, j: Journal, order: seq<nat>, i: nat)
    ensures CountIn(EndModels(b, j, order).1.log, Model(i), End) == CountIn(j.log, Model(i), End)
            + (if i < |b.spans| && !b.spans[i].closed && i in order then 1 else 0)
    ensures CountIn(EndModels(b, j, order).1.log, Call(i), End) == CountIn(j.log, Call(i), End)
    decreases |order|
  {
    if order == [] {
    } else {
      var pre, n := order[..|order| - 1], order[|order| - 1];
      EndModelsCount(b, j, pre, i);
      EndModelsClose(b, j, pre, n);
      EndModelsNext(b, j, order, Model(i));
      EndModelsNext(b, j, order, Call(i));
      assert order == pre + [n];
    }
  }

  lemma LastEnds(j: Journal, name: Name)
    requires !name.Run? && !name.Turn?
    ensures CountIn(Emit(Emit(j, Run, End), Turn, End).log, name, End) == CountIn(j.log, name, End)
  {
    CountEmit(j, Run, End, name, End);
    CountEmit(Emit(j, Run, End), Turn, End, name, End);
  }

  /**
   The end of the turn reports the end of exactly those spans and tool calls whose end was not
   reported before, once each, however often and in whatever order the tables name them.
   */
  lemma {:induction false} FinishEndsTheRest(hs: seq<Happening>, tools: seq<nat>, models: seq<nat>, i: nat)
    requires forall n :: 0 <= n < |Observe(hs).toolbox.tools| ==> n in tools
    requires forall n :: 0 <= n < |Observe(hs).book.spans| ==> n in models
    ensures var t := Observe(hs);
            var log := Finish(t, tools, models).journal.log;
            && (i < |t.book.spans| ==> CountIn(log, Model(i), End) == if Finals(hs, i) == 0 then 1 else Finals(hs, i))
            && (i < |t.toolbox.tools| ==>
                  CountIn(log, Call(i), End) == if Completions(hs, i) == 0 then 1 else Completions(hs, i))
  {
    var t := Observe(hs);
    var (x, j1) := EndTools(t.toolbox, t.journal, tools);
    var (b, j2) := EndModels(t.book, j1, models);
    EndToolsCount(t.toolbox, t.journal, tools, i);
    EndModelsCount(t.book, j1, models, i);
    EndsAreReported(hs, i);
    ClosedExactly(hs, i);
    LastEnds(j2, Model(i));
    LastEnds(j2, Call(i));
  }
}
