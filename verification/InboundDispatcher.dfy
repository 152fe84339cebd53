/** The two locked sections of inbound dispatch on the shared ingress map. */
module InboundDispatcher {
  import opened Prelude
  import opened InboundChain

  class Dispatcher {
    var jobs: seq<Job>
    var tail: map<nat, nat>
    var cancelled: bool
    ghost var handled: seq<nat>

    ghost function View(): Ingress
      reads this
    {
      Ingress(jobs, tail, cancelled, handled)
    }

    constructor ()
      ensures View() == EMPTY && Inv(View())
    {
      jobs, tail, cancelled, handled := [], map[], false, [];
    }

    /** Become the tail of the chat; the former tail, if any, is waited for. */
    method Receive(key: nat) returns (job: nat, previous: Option<nat>)
      requires Inv(View())
      modifies this
      ensures View() == Step(old(View()), Action.Receive(key)) && Inv(View())
      ensures job == |old(jobs)| && tail[key] == job
      ensures previous.Some? ==> IsLast(old(jobs), previous.value, key) && !old(jobs)[previous.value].phase.Gone?
      ensures previous.None? ==>
            forall i :: 0 <= i < |old(jobs)| && IsLast(old(jobs), i, key) ==> old(jobs)[i].phase.Gone?
    {
      ReceiveKeeps(View(), key);
      previous := if key in tail then Some(tail[key]) else None;
      job := |jobs|;
      jobs := jobs + [Job(key, previous, Waiting, false)];
      tail := tail[key := job];
    }

    /** Leave the chain; the map entry goes only if nobody came after. */
    method Leave(job: nat)
      requires Inv(View()) && job < |jobs| && jobs[job].phase.Closing?
      modifies this
      ensures View() == Step(old(View()), Remove(job)) && Inv(View())
      ensures var key := old(jobs)[job].key;
              key in old(tail) && key !in tail <==> IsLast(old(jobs), job, key)
    {
      RemoveKeeps(View(), job);
      var key := jobs[job].key;
      jobs := jobs[job := jobs[job].(phase := Gone)];
      if key in tail && tail[key] == job {
        tail := tail - {key};
      }
    }
  }
}
