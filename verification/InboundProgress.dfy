/**
 No message is stuck.  Whatever was received, and whoever gave up waiting, as soon as the
 handlers that are entered return, everybody who still waits is handled in receive order.
 */
module InboundProgress {
  import opened Prelude
  import opened InboundChain

  /** Job `i` takes its turn, as far as it has one left. */
  function Turn(i: nat): seq<Action> {
    [Enter(i), Return(i), Remove(i)]
  }

  /** Nobody gives up, and nothing new arrives. */
  ghost predicate Quiet(acts: seq<Action>) {
    forall i :: 0 <= i < |acts| ==> !acts[i].Skip? && !acts[i].Cancel? && !acts[i].Receive?
  }

  function TakeTurn(s: Ingress, i: nat): Ingress {
    Step(Step(Step(s, Enter(i)), Return(i)), Remove(i))
  }

  lemma RunTurn(s: Ingress, i: nat)
    ensures Run(s, Turn(i)) == TakeTurn(s, i)
  {
    assert Turn(i)[..2] == [Enter(i), Return(i)];
    RunTwo(s, Enter(i), Return(i));
  }

  /** The first `n` jobs are gone, and nothing has happened to the others. */
  ghost predicate Drained(s: Ingress, t: Ingress, n: nat) {
    && |t.jobs| == |s.jobs| && n <= |s.jobs| && s.handled <= t.handled
    && (forall i :: 0 <= i < n ==> t.jobs[i].phase.Gone? && t.jobs[i].key == s.jobs[i].key)
    && (forall i :: n <= i < |s.jobs| ==> t.jobs[i] == s.jobs[i])
    && (forall i :: 0 <= i < n && s.jobs[i].phase.Waiting? ==> i in t.handled)
    && (forall i, j :: |s.handled| <= i < j < |t.handled| ==> t.handled[i] < t.handled[j])
    && (forall i :: |s.handled| <= i < |t.handled| ==> t.handled[i] < n)
  }

  lemma TurnKeeps(t: Ingress, i: nat)
    requires Inv(t)
    ensures Inv(TakeTurn(t, i))
  {
    StepKeeps(t, Enter(i));
    StepKeeps(Step(t, Enter(i)), Return(i));
    StepKeeps(Step(Step(t, Enter(i)), Return(i)), Remove(i));
  }

  /** Who waits for a job that is gone may enter. */
  lemma TurnMoves(t: Ingress, i: nat)
    requires JobsOk(t.jobs) && i < |t.jobs| && forall k :: 0 <= k < i ==> t.jobs[k].phase.Gone?
    ensures var u := TakeTurn(t, i);
            && u.jobs == t.jobs[i := t.jobs[i].(phase := Gone)]
            && u.handled == if t.jobs[i].phase.Waiting? then t.handled + [i] else t.handled
  {
    assert Linked(t.jobs, i);
    assert t.jobs[i].phase.Waiting? ==> Free(t, i);
  }

  lemma TurnDrains(s: Ingress, t: Ingress, i: nat)
    requires Inv(t) && Drained(s, t, i) && i < |s.jobs|
    ensures Inv(TakeTurn(t, i)) && Drained(s, TakeTurn(t, i), i + 1)
  {
    TurnKeeps(t, i);
    TurnMoves(t, i);
    assert t.jobs[i].phase.Waiting? ==> TakeTurn(t, i).handled[|t.handled|] == i;
  }

  lemma AfterTurn(s: Ingress, acts: seq<Action>, i: nat)
    requires Inv(Run(s, acts)) && Drained(s, Run(s, acts), i) && i < |s.jobs|
    ensures Inv(Run(s, acts + Turn(i))) && Drained(s, Run(s, acts + Turn(i)), i + 1)
  {
    var t := Run(s, acts);
    RunConcat(s, acts, Turn(i));
    RunTurn(t, i);
    TurnDrains(s, t, i);
  }

  /** The first `n` jobs take their turns, in receive order. */
  lemma {:induction false} DrainRuns(s: Ingress, n: nat) returns (acts: seq<Action>)
    requires Inv(s) && n <= |s.jobs|
    ensures Quiet(acts) && Inv(Run(s, acts)) && Drained(s, Run(s, acts), n)
  {
    if n == 0 {
      acts := [];
    } else {
      var before := DrainRuns(s, n - 1);
      AfterTurn(s, before, n - 1);
      acts := before + Turn(n - 1);
    }
  }

  /** Everything is over: no chat has an entry, every waiting message has been handled, in receive order. */
  ghost predicate AllHandled(s: Ingress, t: Ingress) {
    && t.tail == map[] && |t.jobs| == |s.jobs| && s.handled <= t.handled
    && (forall i :: 0 <= i < |t.jobs| ==> t.jobs[i].phase.Gone?)
    && (forall i :: 0 <= i < |s.jobs| && s.jobs[i].phase.Waiting? ==> i in t.handled)
    && (forall i, j :: |s.handled| <= i < j < |t.handled| ==> t.handled[i] < t.handled[j])
  }

  /**
   In every state of every run, cancelled or not, there is a continuation without a new message
   and without anybody giving up in which all who wait are handled, in receive order, and all
   entries are removed.
   */
  lemma {:induction false} NobodyIsStuck(acts: seq<Action>)
    ensures var s := Run(EMPTY, acts);
            exists more: seq<Action> :: Quiet(more) && AllHandled(s, Run(s, more))
  {
    RunInv(acts);
    var s := Run(EMPTY, acts);
    var more := DrainRuns(s, |s.jobs|);
    NothingLeft(s, Run(s, more));
  }

  lemma NothingLeft(s: Ingress, t: Ingress)
    requires TailOk(t) && Drained(s, t, |s.jobs|)
    ensures AllHandled(s, t)
  {
    assert forall key :: key in t.tail ==> t.tail[key] < |t.jobs|;
    assert t.tail == map[];
  }
}
