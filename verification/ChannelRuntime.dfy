/**
 The lease table of one channel as the program keeps it: counters and flags
 changed in place, sweeps over the cache in an order nobody chooses.  Every
 section is proved to move the table exactly as the step of the same name.
 */
module ChannelRuntime {
  import opened Prelude
  import opened SessionLeases
  import opened SessionLeasesTheorems

  // ---------------------------------------------------------------- progress of the sweep

  function Stopped(g: Generation): Generation {
    g.(stopped := true, stops := g.stops + 1)
  }

  function Uncounted(g: Generation, n: nat): Generation {
    g.(sessions := g.sessions - n)
  }

  /** Only the counter of generation `g` changed, by `n` decrements. */
  ghost predicate Lowered(before: seq<Generation>, now: seq<Generation>, g: nat, n: nat) {
    g < |before| && now == before[g := Uncounted(before[g], n)]
  }

  lemma LowerNone(gens: seq<Generation>, g: nat)
    requires g < |gens|
    ensures Lowered(gens, gens, g, 0)
  {}

  lemma LowerOne(before: seq<Generation>, now: seq<Generation>, g: nat, n: nat)
    requires Lowered(before, now, g, n)
    ensures Lowered(before, now[g := Uncounted(now[g], 1)], g, n + 1)
  {}

  /** The sessions whose key is not in `todo` any more have been retired; the others are untouched. */
  ghost predicate Swept(before: seq<Binding>, now: seq<Binding>, sessions: map<nat, nat>, todo: set<nat>) {
    && |now| == |before|
    && (forall i :: 0 <= i < |now| ==>
          now[i] == if Cached(sessions, before[i], i) && before[i].key !in todo
                    then RetiredBinding(before[i]) else before[i])
  }

  /** `shut` and `kept` are the idle and the leased ones among them. */
  ghost predicate Reached(before: seq<Binding>, sessions: map<nat, nat>, todo: set<nat>, shut: set<nat>,
                          kept: set<nat>) {
    && shut == (set i | i in IdleNow(before, sessions) && before[i].key !in todo)
    && kept == (set i | i in BusyNow(before, sessions) && before[i].key !in todo)
  }

  lemma SweepStart(before: seq<Binding>, sessions: map<nat, nat>, keys: set<nat>)
    requires keys == sessions.Keys
    ensures Swept(before, before, sessions, keys) && Reached(before, sessions, keys, {}, {})
  {}

  lemma SweepOne(before: seq<Binding>, now: seq<Binding>, sessions: map<nat, nat>, todo: set<nat>, key: nat,
                 shut: set<nat>, kept: set<nat>)
    requires Swept(before, now, sessions, todo) && Reached(before, sessions, todo, shut, kept)
    requires key in todo && key in sessions && sessions[key] < |before| && before[sessions[key]].key == key
    ensures var b := sessions[key];
            && now[b] == before[b] && |shut + {b}| == |shut| + 1
            && Swept(before, now[b := RetiredBinding(now[b])], sessions, todo - {key})
            && (before[b].active == 0 ==> Reached(before, sessions, todo - {key}, shut + {b}, kept))
            && (before[b].active > 0 ==> Reached(before, sessions, todo - {key}, shut, kept + {b}))
  {}

  lemma SweepDone(before: seq<Binding>, now: seq<Binding>, sessions: map<nat, nat>, shut: set<nat>, kept: set<nat>)
    requires Swept(before, now, sessions, {}) && Reached(before, sessions, {}, shut, kept)
    ensures now == RetireAll(before, sessions)
    ensures shut == IdleNow(before, sessions) && kept == BusyNow(before, sessions)
  {}

  lemma ClosedAll(r: Runtime, known: set<nat>, binds: seq<Binding>)
    requires |binds| == |r.binds| && forall i :: 0 <= i < |binds| ==> (i in known <==> Tracked(r, i))
    requires forall i :: 0 <= i < |binds| ==> binds[i] == if i in known then ClosedBinding(r.binds[i]) else r.binds[i]
    ensures binds == CloseAll(r)
  {}

  lemma StoppedAll(r: Runtime, known: set<nat>, gens: seq<Generation>)
    requires |gens| == |r.gens| && forall b :: b in known ==> b < |r.binds|
    requires forall i :: 0 <= i < |r.binds| ==> (i in known <==> Tracked(r, i))
    requires var hit := (set b | b in known :: r.binds[b].gen) + {r.current};
             forall g :: 0 <= g < |gens| ==> gens[g] == if g in hit then Stopped(r.gens[g]) else r.gens[g]
    ensures gens == StopAll(r)
  {}

  class Channel {
    var gens: seq<Generation>
    var current: nat
    var binds: seq<Binding>
    var sessions: map<nat, nat>
    var retired: set<nat>
    var terminal: bool
    ghost var leases: multiset<nat>
    ghost var missed: multiset<nat>

    ghost function View(): Runtime
      reads this
    {
      Runtime(gens, current, binds, sessions, retired, leases, missed, terminal)
    }

    constructor (workDir: nat)
      ensures View() == Start(workDir) && Live(View())
    {
      gens, current, binds := [Fresh(workDir)], 0, [];
      sessions, retired, terminal, leases, missed := map[], {}, false, multiset{}, multiset{};
    }

    /** The scan of the wait loop: a busy retired session in the current directory, if any. */
    method Blocker() returns (found: Option<nat>)
      requires Named(View())
      ensures found.Some? <==> Waits(View())
      ensures found.Some? ==> found.value in retired && WorkDir(View(), found.value) == gens[current].workDir
    {
      var todo := retired;
      found := None;
      while todo != {}
        invariant todo <= retired
        invariant forall b :: b in retired - todo ==>
          !(binds[b].active > 0 && gens[binds[b].gen].workDir == gens[current].workDir)
        decreases |todo|
      {
        var b :| b in todo;
        if binds[b].active > 0 && gens[binds[b].gen].workDir == gens[current].workDir {
          return Some(b);
        }
        todo := todo - {b};
      }
    }

    /** A new session of the current generation. */
    method Open(key: nat) returns (b: nat)
      requires Named(View())
      modifies this
      ensures View() == Insert(old(View()), key) && b == |old(binds)|
    {
      b := |binds|;
      binds := binds + [Binding(key, current, 1, false, false, 0)];
      gens := gens[current := gens[current].(sessions := gens[current].sessions + 1)];
      sessions := sessions[key := b];
      leases := leases + multiset{b};
    }

    /** Take a lease: the cached session, or a new one of the current generation. */
    method Acquire(key: nat) returns (b: nat, created: bool)
      requires Live(View()) && !Waits(View())
      modifies this
      ensures View() == DoAcquire(old(View()), key) && Live(View())
      ensures key in sessions && b == sessions[key] && (created <==> key !in old(sessions))
    {
      created := key !in sessions;
      if created {
        InsertKeeps(View(), key);
        b := Open(key);
      } else {
        b := sessions[key];
        LeaseKeeps(View(), b);
        binds := binds[b := binds[b].(active := binds[b].active + 1)];
        leases := leases + multiset{b};
      }
    }

    /** One session of generation `g` is gone. */
    method SettleGeneration(g: nat)
      requires g < |gens|
      modifies this`gens
      ensures gens == old(gens)[g := Settle(old(gens)[g], 1)]
    {
      var left := gens[g].sessions - 1;
      gens := gens[g := gens[g].(sessions := left)];
      if gens[g].retired && left == 0 && !gens[g].stopped {
        gens := gens[g := gens[g].(stopped := true, stops := gens[g].stops + 1)];
      }
    }

    method Release(b: nat)
      requires Live(View()) && b in leases
      modifies this
      ensures View() == DoRelease(old(View()), b) && Live(View())
    {
      ReleaseKeeps(View(), b);
      Unlease(b);
    }

    method Unlease(b: nat)
      requires Named(View()) && b < |binds|
      modifies this
      ensures View() == DoRelease(old(View()), b)
    {
      leases := leases - multiset{b};
      if binds[b].active > 0 {
        binds := binds[b := binds[b].(active := binds[b].active - 1)];
      }
      if binds[b].retired && binds[b].active == 0 && !binds[b].closed {
        CloseRetired(b);
      }
      assert binds == DoRelease(old(View()), b).binds;
    }

    /** The last lease of a retired session was given back. */
    method CloseRetired(b: nat)
      requires b < |binds| && binds[b].gen < |gens|
      modifies this`binds, this`retired, this`gens
      ensures binds == old(binds)[b := ClosedBinding(old(binds)[b])] && retired == old(retired) - {b}
      ensures gens == old(gens)[old(binds)[b].gen := Settle(old(gens)[old(binds)[b].gen], 1)]
    {
      binds := binds[b := ClosedBinding(binds[b])];
      retired := retired - {b};
      SettleGeneration(binds[b].gen);
    }

    method Drop(key: nat)
      requires Live(View())
      modifies this
      ensures View() == DoDrop(old(View()), key) && Live(View())
    {
      DropKeeps(View(), key);
      if key in sessions {
        var b := sessions[key];
        sessions := sessions - {key};
        binds := binds[b := binds[b].(retired := true)];
        if binds[b].active > 0 {
          retired := retired + {b};
        } else if !binds[b].closed {
          binds := binds[b := ClosedBinding(binds[b])];
          SettleGeneration(binds[b].gen);
        }
      }
    }

    /** How far the sweep has come, compared with the state `s` it started from. */
    ghost predicate Sweeping(s: Runtime, todo: set<nat>, shut: set<nat>, kept: set<nat>)
      reads this
    {
      && sessions == s.sessions && current == s.current && todo <= s.sessions.Keys
      && Swept(s.binds, binds, s.sessions, todo) && Reached(s.binds, s.sessions, todo, shut, kept)
      && retired == s.retired + kept
      && Lowered(s.gens, gens, s.current, |shut|)
    }

    /** One session of the sweep: retire it if it is leased, close it if it is idle. */
    method RetireOne(key: nat, ghost s: Runtime, ghost todo: set<nat>, ghost shut: set<nat>, ghost kept: set<nat>)
      returns (ghost shut': set<nat>, ghost kept': set<nat>)
      requires Named(s) && (forall k :: k in s.sessions ==> s.binds[s.sessions[k]].gen == s.current)
      requires Sweeping(s, todo, shut, kept) && key in todo
      modifies this`binds, this`gens, this`retired
      ensures Sweeping(s, todo - {key}, shut', kept')
    {
      var b := sessions[key];
      SweepOne(s.binds, binds, sessions, todo, key, shut, kept);
      LowerOne(s.gens, gens, current, |shut|);
      shut', kept' := shut, kept;
      if binds[b].active > 0 {
        kept' := kept + {b};
        binds := binds[b := binds[b].(retired := true)];
        retired := retired + {b};
      } else {
        shut' := shut + {b};
        var g := binds[b].gen;
        binds := binds[b := ClosedBinding(binds[b].(retired := true))];
        gens := gens[g := gens[g].(sessions := gens[g].sessions - 1)];
      }
    }

    /** The sweep of the hot swap over the cache, in any order. */
    method RetireSessions()
      requires Named(View()) && forall k :: k in sessions ==> binds[sessions[k]].gen == current
      modifies this`binds, this`gens, this`retired
      ensures binds == RetireAll(old(binds), sessions)
      ensures retired == old(retired) + BusyNow(old(binds), sessions)
      ensures Lowered(old(gens), gens, current, |IdleNow(old(binds), sessions)|)
    {
      ghost var s := View();
      SweepStart(binds, sessions, sessions.Keys);
      LowerNone(gens, current);
      ghost var shut, kept := RetireEach(s);
      SweepDone(s.binds, binds, sessions, shut, kept);
    }

    method RetireEach(ghost s: Runtime) returns (ghost shut: set<nat>, ghost kept: set<nat>)
      requires Named(s) && (forall k :: k in s.sessions ==> s.binds[s.sessions[k]].gen == s.current)
      requires Sweeping(s, sessions.Keys, {}, {})
      modifies this`binds, this`gens, this`retired
      ensures Sweeping(s, {}, shut, kept)
    {
      var todo := sessions.Keys;
      shut, kept := {}, {};
      while todo != {}
        invariant Sweeping(s, todo, shut, kept)
        decreases |todo|
      {
        var key :| key in todo;
        shut, kept := RetireOne(key, s, todo, shut, kept);
        todo := todo - {key};
      }
    }

    /** The outgoing generation is stopped at once if it is idle. */
    method RetireGeneration()
      requires current < |gens|
      modifies this`gens
      ensures gens == old(gens)[current := Settle(old(gens)[current].(retired := true), 0)]
    {
      gens := gens[current := gens[current].(retired := true)];
      if gens[current].sessions == 0 && !gens[current].stopped {
        gens := gens[current := gens[current].(stopped := true, stops := gens[current].stops + 1)];
      }
    }

    method Swap(workDir: nat)
      requires Named(View()) && forall k :: k in sessions ==> binds[sessions[k]].gen == current
      modifies this
      ensures View() == DoReplace(old(View()), workDir)
    {
      RetireSessions();
      sessions := map[];
      RetireGeneration();
      gens := gens + [Fresh(workDir)];
      current := |gens| - 1;
    }

    method Replace(workDir: nat)
      requires Live(View())
      modifies this
      ensures View() == DoReplace(old(View()), workDir) && Live(View())
    {
      ghost var was := View();
      Swap(workDir);
      ReplaceKeeps(was, workDir);
    }

    /** Close the sessions in `known`; returns the generations they belong to. */
    method CloseSessions(known: set<nat>) returns (hit: set<nat>)
      requires forall b :: b in known ==> b < |binds|
      modifies this`binds
      ensures |binds| == |old(binds)|
      ensures forall i :: 0 <= i < |binds| ==>
                binds[i] == if i in known then ClosedBinding(old(binds)[i]) else old(binds)[i]
      ensures hit == set b | b in known :: old(binds)[b].gen
    {
      var todo := known;
      hit := {};
      while todo != {}
        invariant todo <= known && |binds| == |old(binds)|
        invariant forall i :: 0 <= i < |binds| ==>
          binds[i] == if i in known - todo then ClosedBinding(old(binds)[i]) else old(binds)[i]
        invariant hit == set b | b in known - todo :: old(binds)[b].gen
        decreases |todo|
      {
        var b :| b in todo;
        todo := todo - {b};
        hit := hit + {binds[b].gen};
        binds := binds[b := ClosedBinding(binds[b])];
      }
    }

    /** Stop the agents of the generations in `hit`. */
    method StopGenerations(hit: set<nat>)
      requires forall g :: g in hit ==> g < |gens|
      modifies this`gens
      ensures |gens| == |old(gens)|
      ensures forall g :: 0 <= g < |gens| ==>
                gens[g] == if g in hit then Stopped(old(gens)[g]) else old(gens)[g]
    {
      var todo := hit;
      while todo != {}
        invariant todo <= hit && |gens| == |old(gens)|
        invariant forall g :: 0 <= g < |gens| ==>
          gens[g] == if g in hit - todo then Stopped(old(gens)[g]) else old(gens)[g]
        decreases |todo|
      {
        var g :| g in todo;
        todo := todo - {g};
        gens := gens[g := gens[g].(stopped := true, stops := gens[g].stops + 1)];
      }
    }

    /** The channel ends: every known session is closed, every generation at work stopped. */
    method Close()
      requires Live(View())
      modifies this
      ensures View() == DoClose(old(View())) && AllSettled(View())
    {
      ghost var was := View();
      CloseTable();
      CloseSettles(was);
    }

    method CloseTable()
      requires Named(View())
      modifies this
      ensures View() == DoClose(old(View()))
    {
      ghost var was := View();
      var known := retired + sessions.Values;
      assert forall i :: 0 <= i < |binds| ==> (i in known <==> Tracked(View(), i));
      var hit := CloseSessions(known);
      StopGenerations(hit + {current});
      sessions, retired, terminal := map[], {}, true;
      ClosedAll(was, known, binds);
      StoppedAll(was, known, gens);
    }
  }
}
