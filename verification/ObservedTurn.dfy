/**
 What one agent turn reports about itself: token usage booked on model spans, and
 a numbered log of span envelopes.  Adapters send events in any order, name one
 model request by several keys, and mix cumulative with incremental usage.
 */
module ObservedTurn {
  import opened Prelude

  // ---------------------------------------------------------------- usage

  datatype Counter = Input | Output | CacheRead | CacheWrite | Reasoning | Tool | All

  datatype Usage = Usage(input: int, output: int, cacheRead: int, cacheWrite: int, reasoning: int, tool: int, all: int)

  const NONE := Usage(0, 0, 0, 0, 0, 0, 0)

  function Get(u: Usage, c: Counter): int {
    match c
    case Input => u.input
    case Output => u.output
    case CacheRead => u.cacheRead
    case CacheWrite => u.cacheWrite
    case Reasoning => u.reasoning
    case Tool => u.tool
    case All => u.all
  }

  function Plus(a: Usage, b: Usage): Usage {
    Usage(a.input + b.input, a.output + b.output, a.cacheRead + b.cacheRead, a.cacheWrite + b.cacheWrite,
          a.reasoning + b.reasoning, a.tool + b.tool, a.all + b.all)
  }

  function Floor(x: int): nat {
    if x < 0 then 0 else x
  }

  /** The growth per counter; a counter that went down has not grown. */
  function Growth(now: Usage, before: Usage): Usage {
    Usage(Floor(now.input - before.input), Floor(now.output - before.output), Floor(now.cacheRead - before.cacheRead),
          Floor(now.cacheWrite - before.cacheWrite), Floor(now.reasoning - before.reasoning),
          Floor(now.tool - before.tool), Floor(now.all - before.all))
  }

  // ---------------------------------------------------------------- state

  /** One model request; `last` is the usage reported for it so far. */
  datatype Span = Span(last: Usage, taken: bool, closed: bool)

  datatype ToolSpan = ToolSpan(inputSeen: bool, closed: bool)

  /** Spans by position; one span may be filed under several keys.  `shrunk` adds up all decreases. */
  datatype Book = Book(spans: seq<Span>, models: map<string, nat>, usage: Usage, shrunk: Usage)

  datatype Toolbox = Toolbox(tools: seq<ToolSpan>, calls: map<string, nat>)

  datatype Name = Turn | Run | Model(index: nat) | Call(index: nat) | Aside

  datatype Life = Start | Event | End

  datatype Envelope = Envelope(number: nat, name: Name, life: Life)

  datatype Journal = Journal(sequence: nat, log: seq<Envelope>)

  datatype Observed = Observed(book: Book, toolbox: Toolbox, journal: Journal)

  /** Usage as an adapter reports it: a running total, or an amount to be added. */
  datatype Report = Report(amount: Usage, cumulative: bool)

  datatype Happening =
    | Request(key: string)
    | Response(key: string, report: Option<Report>, final: bool)
    | ToolUse(call: string, named: bool, completed: bool)
    | Remark

  const DEFAULT := "__default__"

  // ---------------------------------------------------------------- steps

  function Emit(j: Journal, name: Name, life: Life): Journal {
    Journal(j.sequence + 1, j.log + [Envelope(j.sequence + 1, name, life)])
  }

  /** A turn, its run and a default model span are opened at once. */
  function Begin(): Observed {
    var j := Emit(Emit(Emit(Journal(0, []), Turn, Start), Run, Start), Model(0), Start);
    Observed(Book([Span(NONE, false, false)], map[DEFAULT := 0], NONE, NONE), Toolbox([], map[]), j)
  }

  /** Some key leads to entry `i`. */
  ghost predicate Listed(index: map<string, nat>, i: nat) {
    exists k :: k in index && index[k] == i
  }

  ghost predicate Filed(b: Book) {
    && |b.spans| > 0 && DEFAULT in b.models
    && (forall k :: k in b.models ==> b.models[k] < |b.spans|)
    && (forall i :: 0 <= i < |b.spans| ==> Listed(b.models, i))
  }

  /** The span of a key: a known one, the untaken default, or a new one. */
  predicate Creates(b: Book, key: string)
    requires |b.spans| > 0
  {
    key !in b.models && (b.spans[0].taken || b.spans[0].closed)
  }

  function SpanOf(b: Book, key: string): nat
    requires |b.spans| > 0
  {
    if key in b.models then b.models[key] else if Creates(b, key) then |b.spans| else 0
  }

  /** The tables after `key` was filed under span `i`, possibly a new one. */
  lemma FiledUnder(b: Book, key: string, i: nat, spans: seq<Span>)
    requires Filed(b) && key !in b.models && i < |spans|
    requires |spans| == |b.spans| || (|spans| == |b.spans| + 1 && i == |b.spans|)
    ensures Filed(b.(spans := spans, models := b.models[key := i]))
  {
    var models := b.models[key := i];
    forall n | 0 <= n < |spans| ensures Listed(models, n) {
      if n < |b.spans| {
        assert Listed(b.models, n);
        var k :| k in b.models && b.models[k] == n;
        assert k in models && models[k] == n;
      } else {
        assert key in models && models[key] == n;
      }
    }
  }

  function EnsureModel(b: Book, key: string): (t: Book)
    requires Filed(b)
    ensures Filed(t) && SpanOf(b, key) < |t.spans|
    ensures |t.spans| == |b.spans| + (if Creates(b, key) then 1 else 0)
  {
    if key in b.models then b
    else
      var i := SpanOf(b, key);
      var spans :=
        if Creates(b, key) then b.spans + [Span(NONE, true, false)]
        else b.spans[0 := b.spans[0].(taken := true)];
      FiledUnder(b, key, i, spans);
      b.(spans := spans, models := b.models[key := i])
  }

  function AddUsage(b: Book, i: nat, report: Option<Report>): Book
    requires i < |b.spans|
  {
    if report.None? then b
    else
      var r := report.value;
      var last := b.spans[i].last;
      var delta := if r.cumulative then Growth(r.amount, last) else r.amount;
      var after := if r.cumulative then r.amount else Plus(last, r.amount);
      var fell := if r.cumulative then Growth(last, r.amount) else NONE;
      b.(spans := b.spans[i := b.spans[i].(last := after)], usage := Plus(b.usage, delta),
         shrunk := Plus(b.shrunk, fell))
  }

  function CloseSpan(b: Book, i: nat, closed: bool): Book
    requires i < |b.spans|
  {
    b.(spans := b.spans[i := b.spans[i].(closed := b.spans[i].closed || closed)])
  }

  function DoRequest(t: Observed, key: string): Observed
    requires Filed(t.book)
  {
    var life := if Creates(t.book, key) then Start else Event;
    t.(book := EnsureModel(t.book, key), journal := Emit(t.journal, Model(SpanOf(t.book, key)), life))
  }

  function DoResponse(t: Observed, key: string, report: Option<Report>, final: bool): Observed
    requires Filed(t.book)
  {
    var i := SpanOf(t.book, key);
    var started := if Creates(t.book, key) then Emit(t.journal, Model(i), Start) else t.journal;
    var book := CloseSpan(AddUsage(EnsureModel(t.book, key), i, report), i, final);
    t.(book := book, journal := Emit(started, Model(i), if final then End else Event))
  }

  ghost predicate Sorted(x: Toolbox) {
    && (forall c :: c in x.calls ==> x.calls[c] < |x.tools|)
    && (forall i :: 0 <= i < |x.tools| ==> Listed(x.calls, i))
  }

  function ToolOf(x: Toolbox, call: string): nat {
    if call in x.calls then x.calls[call] else |x.tools|
  }

  /** The tool call after one event: opened if unknown, its input noted, closed if completed. */
  function Used(x: Toolbox, call: string, named: bool, completed: bool): Toolbox
    requires Sorted(x)
  {
    if call in x.calls then
      var i := x.calls[call];
      x.(tools := x.tools[i := ToolSpan(x.tools[i].inputSeen || named, x.tools[i].closed || completed)])
    else if named || completed then
      Toolbox(x.tools + [ToolSpan(named, completed)], x.calls[call := |x.tools|])
    else x
  }

  function DoTool(t: Observed, call: string, named: bool, completed: bool): Observed
    requires Sorted(t.toolbox)
  {
    var x := t.toolbox;
    var i := ToolOf(x, call);
    var known := call in x.calls;
    var recorded := named && (!known || !x.tools[i].inputSeen);
    var j1 := if recorded then Emit(t.journal, Call(i), if known then Event else Start) else t.journal;
    var j2 :=
      if completed then
        var j := if !known && !named then Emit(j1, Call(i), Start) else j1;
        Emit(j, Call(i), End)
      else if known && !recorded then Emit(j1, Call(i), Event)
      else j1;
    t.(toolbox := Used(x, call, named, completed), journal := j2)
  }

  function Do(t: Observed, h: Happening): Observed
    requires Filed(t.book) && Sorted(t.toolbox)
  {
    match h
    case Request(key) => DoRequest(t, key)
    case Response(key, report, final) => DoResponse(t, key, report, final)
    case ToolUse(call, named, completed) => DoTool(t, call, named, completed)
    case Remark => t.(journal := Emit(t.journal, Aside, Event))
  }

  // ---------------------------------------------------------------- the end of the turn

  /** Close the tool calls in the given order, skipping those closed already. */
  function EndTools(x: Toolbox, j: Journal, order: seq<nat>): (Toolbox, Journal) {
    if order == [] then (x, j)
    else
      var n := order[|order| - 1];
      var (x1, j1) := EndTools(x, j, order[..|order| - 1]);
      if n < |x1.tools| && !x1.tools[n].closed
      then (x1.(tools := x1.tools[n := x1.tools[n].(closed := true)]), Emit(j1, Call(n), End))
      else (x1, j1)
  }

  /** Close the model spans in the given order of keys, each once. */
  function EndModels(b: Book, j: Journal, order: seq<nat>): (Book, Journal) {
    if order == [] then (b, j)
    else
      var n := order[|order| - 1];
      var (b1, j1) := EndModels(b, j, order[..|order| - 1]);
      if n < |b1.spans| && !b1.spans[n].closed
      then (b1.(spans := b1.spans[n := b1.spans[n].(closed := true)]), Emit(j1, Model(n), End))
      else (b1, j1)
  }

  /** Both tables are walked in an order nobody chooses. */
  function Finish(t: Observed, tools: seq<nat>, models: seq<nat>): Observed {
    var (toolbox, j1) := EndTools(t.toolbox, t.journal, tools);
    var (book, j2) := EndModels(t.book, j1, models);
    Observed(book, toolbox, Emit(Emit(j2, Run, End), Turn, End))
  }
}
