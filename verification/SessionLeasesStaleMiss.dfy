/**
 What goes wrong when a terminal inserts on a cache miss it saw before it had to
 wait: the session cached in the meantime is overwritten and forgotten.  Two
 terminals of one conversation miss the cache while a retired session still works in
 the directory; its release lets both of them insert.
 */
module SessionLeasesStaleMiss {
  import opened SessionLeases
  import opened SessionLeasesTheorems
  import opened SessionLeasesDirectories

  /** A session, a swap within its directory, two terminals waiting, and the release they wait for. */
  const Wait: seq<Op> := [Replace(7), Acquire(1), Replace(7), TerminalMiss(0), TerminalMiss(0), Release(0)]

  const Inserts: seq<Op> := [TerminalInsert(0, true), TerminalInsert(0, true)]

  const Outgoing := Generation(7, 0, true, true, 1)
  const Gone := Binding(1, 1, 0, true, true, 1)
  const Leased := Binding(0, 2, 1, false, false, 0)

  /** The terminals are past their cache lookup and nobody is waited for any more. */
  function Missed(missed: multiset<nat>): Runtime {
    Runtime([Outgoing, Outgoing, Fresh(7)], 2, [Gone], map[], {}, multiset{}, missed, false)
  }

  function Twice(): Runtime {
    Runtime([Outgoing, Outgoing, Fresh(7).(sessions := 2)], 2, [Gone, Leased, Leased], map[0 := 2], {}, multiset{1, 2},
            multiset{}, false)
  }

  /** After the swap only the second session is known to the runtime. */
  function Swapped(workDir: nat): Runtime {
    Runtime([Outgoing, Outgoing, Generation(7, 2, true, false, 0), Fresh(workDir)], 3,
            [Gone, Leased, Leased.(retired := true)], map[], {2}, multiset{1, 2}, multiset{}, false)
  }

  // ---------------------------------------------------------------- the wait

  function Started(): Runtime {
    Runtime([Outgoing, Fresh(7)], 1, [], map[], {}, multiset{}, multiset{}, false)
  }

  function Working(): Runtime {
    Runtime([Outgoing, Fresh(7).(sessions := 1)], 1, [Binding(1, 1, 1, false, false, 0)], map[1 := 0], {},
            multiset{0}, multiset{}, false)
  }

  function Retiring(missed: multiset<nat>): Runtime {
    Runtime([Outgoing, Generation(7, 1, true, false, 0), Fresh(7)], 2, [Binding(1, 1, 1, true, false, 0)], map[], {0},
            multiset{0}, missed, false)
  }

  lemma IdleSwap()
    ensures Step(Start(7), Replace(7)) == Started()
  {
    var r := Start(7);
    assert IdleNow(r.binds, r.sessions) == {} && BusyNow(r.binds, r.sessions) == {};
    assert RetireAll(r.binds, r.sessions) == [];
  }

  lemma FirstSession()
    ensures Named(Started()) && Step(Started(), Acquire(1)) == Working()
  {
    assert Insert(Started(), 1) == Working();
  }

  lemma FirstSwap()
    ensures Named(Working()) && Step(Working(), Replace(7)) == Retiring(multiset{})
  {
    SweepFirst(Working());
  }

  lemma SweepFirst(r: Runtime)
    requires r.binds == [Binding(1, 1, 1, false, false, 0)] && r.sessions == map[1 := 0]
    ensures IdleNow(r.binds, r.sessions) == {} && BusyNow(r.binds, r.sessions) == {0}
    ensures RetireAll(r.binds, r.sessions) == [Binding(1, 1, 1, true, false, 0)]
  {
    assert Cached(r.sessions, r.binds[0], 0);
  }

  /** The lookup misses, and the terminal has to wait. */
  lemma Misses(missed: multiset<nat>)
    ensures Named(Retiring(missed)) && Waits(Retiring(missed))
    ensures Step(Retiring(missed), TerminalMiss(0)) == Retiring(missed + multiset{0})
  {
    assert 0 in Retiring(missed).retired;
  }

  /** The last lease of the only retired session closes it and drains its generation. */
  lemma LastLease(r: Runtime, b: nat, g: nat)
    requires Named(r) && b < |r.binds| && r.leases == multiset{b} && r.retired == {b} && r.binds[b].gen == g
    requires r.binds[b].active == 1 && r.binds[b].retired && !r.binds[b].closed
    ensures Step(r, Release(b)) ==
            r.(binds := r.binds[b := ClosedBinding(r.binds[b].(active := 0))],
               gens := r.gens[g := Settle(r.gens[g], 1)], retired := {}, leases := multiset{})
  {
    assert r.retired - {b} == {} && r.leases - multiset{b} == multiset{};
  }

  lemma LastRelease(r: Runtime, missed: multiset<nat>)
    requires r == Retiring(missed)
    ensures Named(r) && Step(r, Release(0)) == Missed(missed)
  {
    LastLease(r, 0, 1);
    ClosedOne(r.binds);
    DrainedOne(r.gens);
  }

  lemma ClosedOne(binds: seq<Binding>)
    requires binds == [Binding(1, 1, 1, true, false, 0)]
    ensures binds[0 := ClosedBinding(binds[0].(active := 0))] == [Gone]
  {}

  lemma DrainedOne(gens: seq<Generation>)
    requires gens == [Outgoing, Generation(7, 1, true, false, 0), Fresh(7)]
    ensures gens[1 := Settle(gens[1], 1)] == [Outgoing, Outgoing, Fresh(7)]
  {}

  lemma RunTwo(r: Runtime, ops: seq<Op>, x: Op, y: Op)
    requires Named(r)
    ensures Run(r, ops + [x, y]) == Step(Step(Run(r, ops), x), y)
  {
    RunSnoc(r, ops, x);
    RunSnoc(r, ops + [x], y);
    assert ops + [x] + [y] == ops + [x, y];
  }

  lemma Extend(ops: seq<Op>, op: Op, s: Runtime, t: Runtime)
    requires Named(s) && Run(Start(7), ops) == s && Step(s, op) == t
    ensures Run(Start(7), ops + [op]) == t
  {
    RunSnoc(Start(7), ops, op);
  }

  lemma SessionIsReached()
    ensures Run(Start(7), Wait[..2]) == Working()
  {
    IdleSwap();
    FirstSession();
    Extend([], Wait[0], Start(7), Started());
    assert [] + [Wait[0]] == [Wait[0]] && [Wait[0]] + [Wait[1]] == Wait[..2];
    Extend([Wait[0]], Wait[1], Started(), Working());
  }

  lemma SwapIsWaitedFor()
    ensures Run(Start(7), Wait[..3]) == Retiring(multiset{})
  {
    SessionIsReached();
    FirstSwap();
    assert Wait[..2] + [Wait[2]] == Wait[..3];
    Extend(Wait[..2], Wait[2], Working(), Retiring(multiset{}));
  }

  lemma BothMiss()
    ensures Run(Start(7), Wait[..5]) == Retiring(multiset{0, 0})
  {
    SwapIsWaitedFor();
    Misses(multiset{});
    Misses(multiset{0});
    assert multiset{} + multiset{0} == multiset{0} && multiset{0} + multiset{0} == multiset{0, 0};
    assert Wait[..3] + [Wait[3]] == Wait[..4] && Wait[..4] + [Wait[4]] == Wait[..5];
    Extend(Wait[..3], Wait[3], Retiring(multiset{}), Retiring(multiset{0}));
    Extend(Wait[..4], Wait[4], Retiring(multiset{0}), Retiring(multiset{0, 0}));
  }

  lemma WaitIsReached()
    ensures Run(Start(7), Wait) == Missed(multiset{0, 0})
  {
    BothMiss();
    LastRelease(Retiring(multiset{0, 0}), multiset{0, 0});
    Extend(Wait[..5], Wait[5], Retiring(multiset{0, 0}), Missed(multiset{0, 0}));
    assert Wait[..5] + [Wait[5]] == Wait;
  }

  // ---------------------------------------------------------------- the inserts

  function Once(): Runtime {
    Runtime([Outgoing, Outgoing, Fresh(7).(sessions := 1)], 2, [Gone, Leased], map[0 := 1], {},
            multiset{1}, multiset{0}, false)
  }

  lemma FirstInsert()
    ensures Named(Missed(multiset{0, 0})) && Step(Missed(multiset{0, 0}), TerminalInsert(0, true)) == Once()
  {
    assert multiset{0, 0} - multiset{0} == multiset{0};
    assert Insert(Missed(multiset{0, 0}), 0) == Once().(missed := multiset{0, 0});
  }

  lemma SecondInsert()
    ensures Named(Once()) && Step(Once(), TerminalInsert(0, true)) == Twice()
  {
    assert multiset{0} - multiset{0} == multiset{};
    InsertOverwrites();
  }

  lemma InsertOverwrites()
    ensures Named(Once()) && Insert(Once(), 0) == Twice().(missed := multiset{0})
  {}

  lemma BothInsert()
    ensures Run(Start(7), Wait + Inserts) == Twice()
  {
    WaitIsReached();
    RunTwo(Start(7), Wait, TerminalInsert(0, true), TerminalInsert(0, true));
    FirstInsert();
    SecondInsert();
  }

  /** The first session is cached and leased when the second terminal overwrites it. */
  lemma StaleMissIsReachable()
    ensures var r := Run(Start(7), Wait + Inserts[..1]);
            Enabled(r, TerminalInsert(0, true)) && 0 in r.sessions && !Unleased(r, 0)
  {
    WaitIsReached();
    RunSnoc(Start(7), Wait, TerminalInsert(0, true));
    assert Inserts[..1] == [TerminalInsert(0, true)];
    FirstInsert();
  }

  lemma SwapTwice(workDir: nat)
    ensures Named(Twice()) && Step(Twice(), Replace(workDir)) == Swapped(workDir)
  {
    SweepTwice(Twice());
  }

  lemma SweepTwice(r: Runtime)
    requires r.binds == [Gone, Leased, Leased] && r.sessions == map[0 := 2]
    ensures IdleNow(r.binds, r.sessions) == {} && BusyNow(r.binds, r.sessions) == {2}
    ensures RetireAll(r.binds, r.sessions) == [Gone, Leased, Leased.(retired := true)]
  {
    assert !Cached(r.sessions, r.binds[0], 0) && !Cached(r.sessions, r.binds[1], 1);
    assert Cached(r.sessions, r.binds[2], 2);
  }

  lemma SwapIsReached(workDir: nat)
    ensures Run(Start(7), Wait + Inserts + [Replace(workDir)]) == Swapped(workDir)
  {
    BothInsert();
    SwapTwice(workDir);
    RunSnoc(Start(7), Wait + Inserts, Replace(workDir));
  }

  // ---------------------------------------------------------------- the leak

  function HalfDrained(): Runtime {
    Swapped(8).(binds := [Gone, Leased.(active := 0), Leased.(retired := true)], leases := multiset{2})
  }

  function Drained(): Runtime {
    Runtime([Outgoing, Outgoing, Generation(7, 1, true, false, 0), Fresh(8)], 3,
            [Gone, Leased.(active := 0), Binding(0, 2, 0, true, true, 1)], map[], {}, multiset{}, multiset{}, false)
  }

  lemma ReleaseFirst()
    ensures Named(Swapped(8)) && Step(Swapped(8), Release(1)) == HalfDrained()
  {
    assert multiset{1, 2} - multiset{1} == multiset{2};
    assert DoRelease(Swapped(8), 1).binds == HalfDrained().binds;
  }

  lemma ReleaseSecond()
    ensures Named(HalfDrained()) && Step(HalfDrained(), Release(2)) == Drained()
  {
    assert multiset{2} - multiset{2} == multiset{};
    assert DoRelease(HalfDrained(), 2).binds == Drained().binds;
    assert DoRelease(HalfDrained(), 2).gens == Drained().gens;
  }

  lemma CloseDrained()
    ensures Named(Drained())
    ensures var r := Step(Drained(), Close);
            |r.gens| == 4 && |r.binds| == 3 && r.gens[2].stops == 0 && r.binds[1].closes == 0 && r.terminal
  {
    var r := Drained();
    assert !Tracked(r, 0) && !Tracked(r, 1) && !Tracked(r, 2);
  }

  const LeakingRun: seq<Op> := Wait + Inserts + [Replace(8)] + [Release(1), Release(2)] + [Close]

  /** The overwritten session is never closed and its generation never stopped, not even by close. */
  lemma StaleMissLeaks()
    ensures var r := Run(Start(7), LeakingRun);
            |r.gens| == 4 && |r.binds| == 3 && r.terminal && r.gens[2].stops == 0 && r.binds[1].closes == 0
  {
    SwapIsReached(8);
    RunTwo(Start(7), Wait + Inserts + [Replace(8)], Release(1), Release(2));
    RunSnoc(Start(7), Wait + Inserts + [Replace(8)] + [Release(1), Release(2)], Close);
    ReleaseFirst();
    ReleaseSecond();
    CloseDrained();
  }

  // ---------------------------------------------------------------- the shared directory

  const SharingRun: seq<Op> := Wait + Inserts + [Replace(7)] + [Release(2), Acquire(0)]

  lemma ReleaseKnownOne()
    ensures Named(Swapped(7)) && Unseen(Step(Swapped(7), Release(2)), 1) && !Waits(Step(Swapped(7), Release(2)))
    ensures |Step(Swapped(7), Release(2)).binds| == 3
  {
    ReleaseUnseen(Swapped(7), 1, 2);
  }

  /** And a new generation starts to work in a directory where the old one is still at work. */
  lemma StaleMissShares()
    ensures Shared(Run(Start(7), SharingRun), 1, 3)
  {
    SwapIsReached(7);
    RunTwo(Start(7), Wait + Inserts + [Replace(7)], Release(2), Acquire(0));
    ReleaseKnownOne();
    AcquireShares(Step(Swapped(7), Release(2)), 1);
  }
}
