/**
 Runs in which recoveries are late, as the program's start-up makes them: a process
 works from its start, and its recovery marks rows, reads them and appends what it read
 at any later moments, with any steps in between.
 */
module TaskQueueLateRuns {
  import opened Prelude
  import opened TaskQueue
  import opened TaskQueueOnce
  import opened TaskQueueInvariant
  import opened TaskQueueLateRecovery

  datatype Move =
    | Act(action: Action)
    | Mark(steers: bool, starts: bool)
    | Read
    | Rejoin(wc: Write)

  /** The conversation, and the rows its recovery holds in hand. */
  datatype Late = Late(sys: Sys, found: Option<seq<Task>>)

  /**
   A process is up after a recovery step that reads nothing; its late recovery follows in
   moves of its own, and dies with the process.
   */
  function Next(l: Late, m: Move): Late {
    match m
    case Act(a) => Late(Step(l.sys, a), if a.Crash? then None else l.found)
    case Mark(steers, starts) => if l.sys.lane.booted then l.(sys := MarkedAll(l.sys, steers, starts)) else l
    case Read => if l.sys.lane.booted then l.(found := Some(Found(l.sys))) else l
    case Rejoin(wc) => if l.found.Some? then Late(StartNext(Rejoined(l.sys, l.found.value), wc), None) else l
  }

  function LateRun(l: Late, moves: seq<Move>): Late {
    if moves == [] then l else Next(LateRun(l, moves[..|moves| - 1]), moves[|moves| - 1])
  }

  const Begin := Late(Init, None)

  /** The append, if this is one, finds its rows harmless. */
  ghost predicate HarmlessAt(moves: seq<Move>, i: nat)
    requires i < |moves|
  {
    var l := LateRun(Begin, moves[..i]);
    moves[i].Rejoin? && l.found.Some? ==> Harmless(l.sys, l.found.value)
  }

  ghost predicate LateSafe(l: Late) {
    Safe(l.sys) && (l.found.Some? ==> Held(l.sys, l.found.value))
  }

  lemma ActKeeps(l: Late, a: Action)
    requires LateSafe(l)
    ensures LateSafe(Next(l, Act(a)))
  {
    StepSafe(l.sys, a);
    if !a.Crash? {
      StepExtends(l.sys, a);
    }
  }

  lemma ReadKeeps(l: Late)
    requires LateSafe(l)
    ensures LateSafe(Next(l, Read))
  {
    QueuedRowsOk(l.sys.store.rows, l.sys.store.nextId);
  }

  lemma RejoinKeeps(l: Late, wc: Write)
    requires LateSafe(l) && (l.found.Some? ==> Harmless(l.sys, l.found.value))
    ensures LateSafe(Next(l, Rejoin(wc)))
  {
    if l.found.Some? {
      HarmlessIsSafe(l.sys, l.found.value, wc);
    }
  }

  lemma {:induction false} LateRunKeeps(moves: seq<Move>)
    requires forall i :: 0 <= i < |moves| ==> HarmlessAt(moves, i)
    ensures LateSafe(LateRun(Begin, moves))
  {
    if moves == [] {
      InitInv();
    } else {
      var pre, m := moves[..|moves| - 1], moves[|moves| - 1];
      forall i | 0 <= i < |pre| ensures HarmlessAt(pre, i) {
        assert pre[..i] == moves[..i] && HarmlessAt(moves, i);
      }
      LateRunKeeps(pre);
      assert HarmlessAt(moves, |pre|);
      NextKeeps(LateRun(Begin, pre), m);
    }
  }

  lemma NextKeeps(l: Late, m: Move)
    requires LateSafe(l) && (m.Rejoin? && l.found.Some? ==> Harmless(l.sys, l.found.value))
    ensures LateSafe(Next(l, m))
  {
    match m
    case Act(a) => ActKeeps(l, a);
    case Mark(steers, starts) => MarkedSafe(l.sys, steers, starts);
    case Read => ReadKeeps(l);
    case Rejoin(wc) => RejoinKeeps(l, wc);
  }

  /** If every late append finds its rows harmless, each prompt reaches the agent at most once. */
  lemma {:induction false} LateRunsDeliverOnce(moves: seq<Move>)
    requires forall i :: 0 <= i < |moves| ==> HarmlessAt(moves, i)
    ensures AtMostOnce(LateRun(Begin, moves).sys.past.log)
  {
    LateRunKeeps(moves);
  }
}
