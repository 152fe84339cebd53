/**
 Who keeps a session open.  In every run a session is open exactly as long as somebody
 holds a lease on it or the cache would hand it out, leases are what was taken and not
 yet given back, and what the cache hands out belongs to the current agent.
 */
module SessionLeasesUse {
  import opened SessionLeases
  import opened SessionLeasesTheorems

  // ---------------------------------------------------------------- a lease keeps its session open

  ghost predicate LeasedOpen(r: Runtime)
    requires Named(r)
  {
    forall b :: b in r.leases ==> !r.binds[b].closed
  }

  lemma ReleaseLeased(r: Runtime, b: nat)
    requires Named(r) && LeaseOk(r) && LeasedOpen(r) && b in r.leases
    ensures LeasedOpen(DoRelease(r, b))
  {}

  lemma DropLeased(r: Runtime, key: nat)
    requires Named(r) && LeaseOk(r) && LeasedOpen(r)
    ensures LeasedOpen(DoDrop(r, key))
  {}

  lemma ReplaceLeased(r: Runtime, workDir: nat)
    requires Named(r) && LeaseOk(r) && LeasedOpen(r)
    ensures LeasedOpen(DoReplace(r, workDir))
  {}

  lemma OpenLeased(r: Runtime, key: nat)
    requires Named(r) && CacheOk(r) && LeasedOpen(r)
    ensures LeasedOpen(Insert(r, key)) && (key in r.sessions ==> LeasedOpen(Lease(r, r.sessions[key])))
  {}

  lemma StepLeased(r: Runtime, op: Op)
    requires Live(r) && LeasedOpen(r) && !op.Close?
    ensures LeasedOpen(Step(r, op))
  {
    if Enabled(r, op) {
      if op.Acquire? || op.TerminalHit? || op.TerminalInsert? {
        OpenLeased(r, op.key);
      } else if op.Release? {
        ReleaseLeased(r, op.b);
      } else if op.Drop? {
        DropLeased(r, op.key);
      } else if op.Replace? {
        ReplaceLeased(r, op.workDir);
      }
    }
  }

  lemma TerminalStays(r: Runtime, op: Op)
    requires Named(r) && !Step(r, op).terminal
    ensures !r.terminal && !(op.Close? && Enabled(r, op))
  {}

  lemma {:induction false} RunLeased(workDir: nat, ops: seq<Op>)
    requires AllSound(Start(workDir), ops) && !Run(Start(workDir), ops).terminal
    ensures var r := Run(Start(workDir), ops); Live(r) && LeasedOpen(r)
  {
    RunKeeps(workDir, ops);
    if ops == [] {
    } else {
      var pre, op := ops[..|ops| - 1], ops[|ops| - 1];
      TerminalStays(Run(Start(workDir), pre), op);
      SoundPrefix(Start(workDir), ops);
      RunLeased(workDir, pre);
      if !op.Close? {
        StepLeased(Run(Start(workDir), pre), op);
      }
    }
  }

  /** Somebody holds a lease on the session, or the cache would hand it out. */
  ghost predicate InUse(r: Runtime, b: nat)
    requires b < |r.binds|
  {
    b in r.leases || Cached(r.sessions, r.binds[b], b)
  }

  lemma UsedIsOpen(r: Runtime, b: nat)
    requires Live(r) && LeasedOpen(r) && b < |r.binds|
    ensures !r.binds[b].closed <==> InUse(r, b)
  {
    if !r.binds[b].closed {
      assert Tracked(r, b);
    }
  }

  /** Until the channel closes, a session is open if and only if it is leased or cached. */
  lemma {:induction false} OpenExactlyWhileUsed(workDir: nat, ops: seq<Op>, b: nat)
    requires AllSound(Start(workDir), ops) && !Run(Start(workDir), ops).terminal
    requires b < |Run(Start(workDir), ops).binds|
    ensures var r := Run(Start(workDir), ops); !r.binds[b].closed <==> InUse(r, b)
  {
    RunLeased(workDir, ops);
    UsedIsOpen(Run(Start(workDir), ops), b);
  }

  lemma StaysRetired(r: Runtime, op: Op, b: nat)
    requires Named(r) && CacheOk(r) && b < |r.binds| && !Cached(r.sessions, r.binds[b], b)
    ensures b < |Step(r, op).binds| && !Cached(Step(r, op).sessions, Step(r, op).binds[b], b)
  {
    if Enabled(r, op) {
      if op.Acquire? || op.TerminalHit? || op.TerminalInsert? {
        NotCachedAnew(r, op.key, b);
      } else if op.Release? {
      } else if op.Drop? {
      }
    }
  }

  lemma NotCachedAnew(r: Runtime, key: nat, b: nat)
    requires Named(r) && b < |r.binds| && !Cached(r.sessions, r.binds[b], b)
    ensures var t := Insert(r, key); !Cached(t.sessions, t.binds[b], b)
    ensures key in r.sessions ==> var t := Lease(r, r.sessions[key]); !Cached(t.sessions, t.binds[b], b)
  {}

  /**
   No step but the close of the channel closes a session that is leased after it, and a
   session that left the cache closes in exactly the step that gives its last lease back.
   */
  lemma {:induction false} LastLeaseCloses(workDir: nat, ops: seq<Op>, op: Op, b: nat)
    requires AllSound(Start(workDir), ops) && !Run(Start(workDir), ops).terminal
    requires Sound(Run(Start(workDir), ops), op) && !op.Close? && b < |Run(Start(workDir), ops).binds|
    requires !Run(Start(workDir), ops).binds[b].closed
    ensures var r := Run(Start(workDir), ops);
            var t := Step(r, op);
            && b < |t.binds| && (t.binds[b].closed ==> b !in t.leases)
            && (!Cached(r.sessions, r.binds[b], b) ==>
                  b in r.leases && (t.binds[b].closed <==> b !in t.leases))
  {
    RunLeased(workDir, ops);
    var r := Run(Start(workDir), ops);
    StepLeased(r, op);
    StepKeeps(r, op);
    UsedIsOpen(r, b);
    SameLength(r, op);
    UsedIsOpen(Step(r, op), b);
    if !Cached(r.sessions, r.binds[b], b) {
      StaysRetired(r, op, b);
    }
  }

  lemma SameLength(r: Runtime, op: Op)
    requires Named(r)
    ensures |r.binds| <= |Step(r, op).binds|
  {}

  // ---------------------------------------------------------------- leases are taken and given back

  /** This step hands out session `b`. */
  ghost predicate Takes(r: Runtime, op: Op, b: nat)
    requires Named(r)
  {
    && (op.Acquire? || op.TerminalHit? || op.TerminalInsert?) && Enabled(r, op)
    && op.key in Step(r, op).sessions && Step(r, op).sessions[op.key] == b
  }

  /** This step gives a lease on session `b` back. */
  ghost predicate Returns(r: Runtime, op: Op, b: nat)
    requires Named(r)
  {
    op == Release(b) && Enabled(r, op)
  }

  /** Leases taken so far, without those given back. */
  ghost function Outstanding(workDir: nat, ops: seq<Op>, b: nat): int {
    if ops == [] then 0
    else
      var pre, op := ops[..|ops| - 1], ops[|ops| - 1];
      var r := Run(Start(workDir), pre);
      Outstanding(workDir, pre, b) + (if Takes(r, op, b) then 1 else 0) - (if Returns(r, op, b) then 1 else 0)
  }

  lemma StepCounts(r: Runtime, op: Op, b: nat)
    requires Named(r)
    ensures Step(r, op).leases[b] ==
            r.leases[b] + (if Takes(r, op, b) then 1 else 0) - (if Returns(r, op, b) then 1 else 0)
  {
    if Enabled(r, op) {
      if op.Acquire? {
        assert Step(r, op) == DoAcquire(r, op.key);
      } else if op.TerminalHit? {
        assert Step(r, op) == Lease(r, r.sessions[op.key]);
      } else if op.TerminalInsert? {
        assert Step(r, op) == DoTerminalInsert(r, op.key, op.waited);
      } else if op.Release? {
        assert Step(r, op) == DoRelease(r, op.b);
      } else {
        SameLeases(r, op);
      }
    }
  }

  lemma SameLeases(r: Runtime, op: Op)
    requires Named(r) && !op.Acquire? && !op.TerminalHit? && !op.TerminalInsert? && !op.Release?
    ensures Step(r, op).leases == r.leases
  {}

  /** The leases on a session are those that were taken and have not been given back. */
  lemma {:induction false} LeasesAreOutstanding(workDir: nat, ops: seq<Op>, b: nat)
    ensures Run(Start(workDir), ops).leases[b] == Outstanding(workDir, ops, b)
  {
    if ops == [] {
    } else {
      var pre := ops[..|ops| - 1];
      LeasesAreOutstanding(workDir, pre, b);
      StepCounts(Run(Start(workDir), pre), ops[|ops| - 1], b);
    }
  }

  /** A terminal with this key begins to wait in this step. */
  ghost predicate Waiting(r: Runtime, op: Op, key: nat)
    requires Named(r)
  {
    op == TerminalMiss(key) && Enabled(r, op)
  }

  /** It stops waiting: it opens its session or gives up. */
  ghost predicate WaitedFor(r: Runtime, op: Op, key: nat)
    requires Named(r)
  {
    (op == TerminalInsert(key, true) || op == TerminalLeave(key)) && Enabled(r, op)
  }

  /** Terminals that began to wait, without those that stopped. */
  ghost function Patient(workDir: nat, ops: seq<Op>, key: nat): int {
    if ops == [] then 0
    else
      var pre, op := ops[..|ops| - 1], ops[|ops| - 1];
      var r := Run(Start(workDir), pre);
      Patient(workDir, pre, key) + (if Waiting(r, op, key) then 1 else 0) - (if WaitedFor(r, op, key) then 1 else 0)
  }

  lemma StepWaits(r: Runtime, op: Op, key: nat)
    requires Named(r)
    ensures Step(r, op).missed[key] ==
            r.missed[key] + (if Waiting(r, op, key) then 1 else 0) - (if WaitedFor(r, op, key) then 1 else 0)
  {
    if op.TerminalInsert? {
      InsertWaits(r, op.key, op.waited, key);
    } else if op.TerminalMiss? || op.TerminalLeave? {
      LeaveWaits(r, op, key);
    } else {
      SameMissed(r, op);
    }
  }

  lemma InsertWaits(r: Runtime, k: nat, waited: bool, key: nat)
    requires Named(r)
    ensures var op := TerminalInsert(k, waited);
            Step(r, op).missed[key] == r.missed[key] - (if WaitedFor(r, op, key) then 1 else 0)
  {
    if Enabled(r, TerminalInsert(k, waited)) {
      assert Step(r, TerminalInsert(k, waited)) == DoTerminalInsert(r, k, waited);
    }
  }

  lemma LeaveWaits(r: Runtime, op: Op, key: nat)
    requires Named(r) && (op.TerminalMiss? || op.TerminalLeave?)
    ensures Step(r, op).missed[key] ==
            r.missed[key] + (if Waiting(r, op, key) then 1 else 0) - (if WaitedFor(r, op, key) then 1 else 0)
  {}

  lemma SameMissed(r: Runtime, op: Op)
    requires Named(r) && !op.TerminalMiss? && !op.TerminalLeave? && !op.TerminalInsert?
    ensures Step(r, op).missed == r.missed
  {}

  /** Who waits for a directory is who began to and neither opened a session nor gave up. */
  lemma {:induction false} WaitersAreCounted(workDir: nat, ops: seq<Op>, key: nat)
    ensures Run(Start(workDir), ops).missed[key] == Patient(workDir, ops, key)
  {
    if ops == [] {
    } else {
      var pre := ops[..|ops| - 1];
      WaitersAreCounted(workDir, pre, key);
      StepWaits(Run(Start(workDir), pre), ops[|ops| - 1], key);
    }
  }

  // ---------------------------------------------------------------- what is handed out

  /** Whatever is handed out is open, leased and of the current agent; a cached session is used again. */
  lemma {:induction false} HandsOutCurrent(workDir: nat, ops: seq<Op>, key: nat)
    requires AllSound(Start(workDir), ops) && !Run(Start(workDir), ops).terminal
    requires !Waits(Run(Start(workDir), ops))
    ensures var r := Run(Start(workDir), ops);
            var t := Step(r, Acquire(key));
            && key in t.sessions && t.current == r.current
            && var b := t.sessions[key];
            && t.leases == r.leases + multiset{b} && !t.binds[b].closed && t.binds[b].gen == t.current
            && b == if key in r.sessions then r.sessions[key] else |r.binds|
  {
    RunKeeps(workDir, ops);
  }

  /** After a drop or a swap the cached session is not handed out again. */
  lemma {:induction false} ForgetsSession(workDir: nat, ops: seq<Op>, op: Op, key: nat)
    requires op == Drop(key) || op.Replace?
    requires !Waits(Step(Run(Start(workDir), ops), op))
    ensures var r := Run(Start(workDir), ops);
            var t := Step(Step(r, op), Acquire(key));
            && key in t.sessions && t.sessions[key] == |r.binds|
            && (op.Replace? ==> t.current == |r.gens| && t.gens[t.current].workDir == op.workDir)
  {
    var r := Run(Start(workDir), ops);
    LeavesCache(r, op, key);
    OpensAnew(Step(r, op), key);
  }

  lemma LeavesCache(r: Runtime, op: Op, key: nat)
    requires Named(r) && (op == Drop(key) || op.Replace?)
    ensures var t := Step(r, op);
            && key !in t.sessions && |t.binds| == |r.binds|
            && (op.Replace? ==> t.current == |r.gens| && t.gens[t.current].workDir == op.workDir)
  {}

  lemma OpensAnew(r: Runtime, key: nat)
    requires Named(r) && key !in r.sessions && !Waits(r)
    ensures var t := Step(r, Acquire(key));
            && key in t.sessions && t.sessions[key] == |r.binds| && t.current == r.current
            && t.gens[t.current].workDir == r.gens[r.current].workDir
  {}
}
