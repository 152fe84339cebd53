/**
 The recorder of one turn as the program runs it: span tables, counters and the
 sequence number change in place, and the end of the turn walks both tables in
 map order.  Every method moves the record exactly as the step of the same name.
 */
module TurnRecorder {
  import opened Prelude
  import opened ObservedTurn
  import opened ObservedTurnTheorems
  import opened ObservedTurnUsage

  class Recorder {
    var spans: seq<Span>
    var models: map<string, nat>
    var tools: seq<ToolSpan>
    var calls: map<string, nat>
    var usage: Usage
    var sequence: nat
    var log: seq<Envelope>
    ghost var shrunk: Usage

    ghost function View(): Observed
      reads this
    {
      Observed(Book(spans, models, usage, shrunk), Toolbox(tools, calls), Journal(sequence, log))
    }

    ghost predicate Valid()
      reads this
    {
      Filed(View().book) && Sorted(View().toolbox)
    }

    method Publish(name: Name, life: Life)
      modifies this`sequence, this`log
      ensures Journal(sequence, log) == Emit(Journal(old(sequence), old(log)), name, life)
    {
      sequence := sequence + 1;
      log := log + [Envelope(sequence, name, life)];
    }

    constructor ()
      ensures View() == Begin()
    {
      spans, models, tools, calls := [Span(NONE, false, false)], map[DEFAULT := 0], [], map[];
      usage, shrunk, sequence, log := NONE, NONE, 0, [];
      new;
      Publish(Turn, Start);
      Publish(Run, Start);
      Publish(Model(0), Start);
    }

    /** Find, adopt or create the span of a key. */
    method FindModel(key: string) returns (i: nat, created: bool)
      requires Valid()
      modifies this`spans, this`models
      ensures Book(spans, models, usage, shrunk) == EnsureModel(old(View().book), key)
      ensures i == SpanOf(old(View().book), key) && (created <==> Creates(old(View().book), key))
    {
      if key in models {
        return models[key], false;
      }
      created := spans[0].taken || spans[0].closed;
      if !created {
        i := 0;
        spans := spans[0 := spans[0].(taken := true)];
      } else {
        i := |spans|;
        spans := spans + [Span(NONE, true, false)];
      }
      models := models[key := i];
    }

    method AddReport(i: nat, report: Option<Report>)
      requires i < |spans|
      modifies this`spans, this`usage, this`shrunk
      ensures Book(spans, models, usage, shrunk) == AddUsage(old(View().book), i, report)
    {
      if report.None? {
        return;
      }
      var r := report.value;
      var last := spans[i].last;
      var delta := r.amount;
      if r.cumulative {
        delta := Growth(r.amount, last);
        spans := spans[i := spans[i].(last := r.amount)];
        shrunk := Plus(shrunk, Growth(last, r.amount));
      } else {
        spans := spans[i := spans[i].(last := Plus(last, r.amount))];
        shrunk := Plus(shrunk, NONE);
      }
      usage := Plus(usage, delta);
    }

    method ObserveRequest(key: string)
      requires Valid()
      modifies this
      ensures View() == DoRequest(old(View()), key)
    {
      var i, created := FindModel(key);
      Publish(Model(i), if created then Start else Event);
    }

    method ObserveResponse(key: string, report: Option<Report>, final: bool)
      requires Valid()
      modifies this
      ensures View() == DoResponse(old(View()), key, report, final)
    {
      var i, created := FindModel(key);
      if created {
        Publish(Model(i), Start);
      }
      AddReport(i, report);
      if final {
        spans := spans[i := spans[i].(closed := true)];
      }
      Publish(Model(i), if final then End else Event);
    }

    method ObserveTool(call: string, named: bool, completed: bool)
      requires Valid()
      modifies this
      ensures View() == DoTool(old(View()), call, named, completed)
    {
      var known := call in calls;
      var i := if known then calls[call] else |tools|;
      var starts := named && !known;
      if starts {
        tools, calls := tools + [ToolSpan(false, false)], calls[call := i];
      }
      var recorded := named && !tools[i].inputSeen;
      if recorded {
        tools := tools[i := tools[i].(inputSeen := true)];
        Publish(Call(i), if starts then Start else Event);
      }
      if !completed {
        if known && !recorded {
          Publish(Call(i), Event);
        }
        return;
      }
      if !known && !starts {
        tools, calls := tools + [ToolSpan(false, false)], calls[call := i];
        Publish(Call(i), Start);
      }
      tools := tools[i := tools[i].(closed := true)];
      Publish(Call(i), End);
    }

    method ObserveEvent(h: Happening)
      requires Valid()
      modifies this
      ensures View() == Do(old(View()), h)
    {
      match h {
        case Request(key) => ObserveRequest(key);
        case Response(key, report, final) => ObserveResponse(key, report, final);
        case ToolUse(call, named, completed) => ObserveTool(call, named, completed);
        case Remark => Publish(Aside, Event);
      }
    }

    /** Close the tool calls still open, in map order. */
    method EndOpenTools() returns (ghost order: seq<nat>)
      requires Sorted(View().toolbox)
      modifies this`tools, this`sequence, this`log
      ensures (Toolbox(tools, calls), Journal(sequence, log)) ==
              EndTools(old(View().toolbox), old(View().journal), order)
      ensures forall i :: 0 <= i < |old(tools)| ==> i in order
    {
      var todo := calls.Keys;
      order := [];
      ghost var x, j := View().toolbox, View().journal;
      while todo != {}
        invariant todo <= calls.Keys && |tools| == |x.tools|
        invariant (Toolbox(tools, calls), Journal(sequence, log)) == EndTools(x, j, order)
        invariant forall c :: c in calls && c !in todo ==> calls[c] in order
        decreases |todo|
      {
        var c :| c in todo;
        todo := todo - {c};
        var i := calls[c];
        ghost var next := order + [i];
        assert next[..|order|] == order;
        if !tools[i].closed {
          tools := tools[i := tools[i].(closed := true)];
          Publish(Call(i), End);
        }
        order := next;
      }
      forall i | 0 <= i < |x.tools| ensures i in order {
        assert Listed(x.calls, i);
      }
    }

    /** Close the model spans still open, in map order; aliases are skipped. */
    method EndOpenModels() returns (ghost order: seq<nat>)
      requires Filed(View().book)
      modifies this`spans, this`sequence, this`log
      ensures (Book(spans, models, usage, shrunk), Journal(sequence, log))
              == EndModels(old(View().book), old(View().journal), order)
      ensures forall i :: 0 <= i < |old(spans)| ==> i in order
    {
      var todo := models.Keys;
      order := [];
      ghost var b, j := View().book, View().journal;
      while todo != {}
        invariant todo <= models.Keys && |spans| == |b.spans|
        invariant (Book(spans, models, usage, shrunk), Journal(sequence, log)) == EndModels(b, j, order)
        invariant forall k :: k in models && k !in todo ==> models[k] in order
        decreases |todo|
      {
        var k :| k in todo;
        todo := todo - {k};
        var i := models[k];
        ghost var next := order + [i];
        assert next[..|order|] == order;
        if !spans[i].closed {
          spans := spans[i := spans[i].(closed := true)];
          Publish(Model(i), End);
        }
        order := next;
      }
      forall i | 0 <= i < |b.spans| ensures i in order {
        assert Listed(b.models, i);
      }
    }

    method EndTurn() returns (ghost toolOrder: seq<nat>, ghost modelOrder: seq<nat>)
      requires Valid()
      modifies this
      ensures View() == Finish(old(View()), toolOrder, modelOrder)
      ensures forall i :: 0 <= i < |old(tools)| ==> i in toolOrder
      ensures forall i :: 0 <= i < |old(spans)| ==> i in modelOrder
    {
      toolOrder := EndOpenTools();
      modelOrder := EndOpenModels();
      Publish(Run, End);
      Publish(Turn, End);
    }
  }

  /** What the record of a finished turn shows. */
  ghost predicate WholeTurn(hs: seq<Happening>, log: seq<Envelope>, usage: Usage) {
    && Orderly(log) && (forall i :: 0 <= i < |log| ==> log[i].number == i + 1)
    && WellEnded(log, |Observe(hs).book.spans|, |Observe(hs).toolbox.tools|)
    && usage == Observe(hs).book.usage && forall c: Counter :: Get(usage, c) == Booked(hs, c)
  }

  lemma TurnIsWhole(hs: seq<Happening>, tools: seq<nat>, models: seq<nat>)
    requires forall i :: 0 <= i < |Observe(hs).toolbox.tools| ==> i in tools
    requires forall i :: 0 <= i < |Observe(hs).book.spans| ==> i in models
    ensures var u := Finish(Observe(hs), tools, models); WholeTurn(hs, u.journal.log, u.book.usage)
  {
    FinishEndsEverything(hs, tools, models);
    forall c: Counter ensures Get(Observe(hs).book.usage, c) == Booked(hs, c) {
      TurnUsageIs(hs, c);
    }
  }

  /** Observe a whole turn: every event in order, then the end. */
  method RecordTurn(hs: seq<Happening>) returns (log: seq<Envelope>, usage: Usage)
    ensures WholeTurn(hs, log, usage)
  {
    var recorder := new Recorder();
    var i := 0;
    assert hs[..0] == [];
    while i < |hs|
      invariant i <= |hs| && recorder.View() == Observe(hs[..i]) && fresh(recorder)
    {
      assert hs[..i + 1][..i] == hs[..i];
      recorder.ObserveEvent(hs[i]);
      i := i + 1;
    }
    assert hs[..i] == hs;
    ghost var tools, models := recorder.EndTurn();
    TurnIsWhole(hs, tools, models);
    log, usage := recorder.log, recorder.usage;
  }
}
