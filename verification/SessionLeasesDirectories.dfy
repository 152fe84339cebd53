/**
 No two generations work in one directory.  The argument needs less than the
 accounting of sessions: it survives a terminal that overwrites an idle session, and
 breaks exactly when the overwritten session is leased.
 */
module SessionLeasesDirectories {
  import opened SessionLeases
  import opened SessionLeasesTheorems

  // ---------------------------------------------------------------- invariant

  /** The sessions the runtime knows in one directory belong to one generation. */
  ghost predicate KnownApart(r: Runtime)
    requires Named(r)
  {
    forall i, j :: 0 <= i < |r.binds| && 0 <= j < |r.binds| && Tracked(r, i) && Tracked(r, j) ==>
      WorkDir(r, i) == WorkDir(r, j) ==> r.binds[i].gen == r.binds[j].gen
  }

  /** A leased open session is known. */
  ghost predicate LeasedKnown(r: Runtime) {
    forall i :: 0 <= i < |r.binds| && r.binds[i].active > 0 && !r.binds[i].closed ==> Tracked(r, i)
  }

  ghost predicate Apart(r: Runtime) {
    Named(r) && CacheOk(r) && KnownApart(r) && LeasedKnown(r) && LeaseOk(r)
  }

  /** Two open sessions of different generations are leased in one directory. */
  ghost predicate Shared(r: Runtime, i: nat, j: nat) {
    && Named(r) && i < |r.binds| && j < |r.binds| && i in r.leases && j in r.leases
    && !r.binds[i].closed && !r.binds[j].closed
    && WorkDir(r, i) == WorkDir(r, j) && r.binds[i].gen != r.binds[j].gen
  }

  /** The session under the key, if any, is not leased. */
  predicate Unleased(r: Runtime, key: nat) {
    key in r.sessions ==> r.sessions[key] < |r.binds| ==> r.binds[r.sessions[key]].active == 0
  }

  ghost predicate Harmless(r: Runtime, op: Op) {
    op.TerminalInsert? ==> Unleased(r, op.key)
  }

  lemma ApartIsNotShared(r: Runtime, i: nat, j: nat)
    requires Apart(r)
    ensures !Shared(r, i, j)
  {}

  // ---------------------------------------------------------------- each step

  /** Nothing moved to another generation, and nothing became known. */
  ghost predicate Shrinks(r: Runtime, t: Runtime) {
    && Named(r) && Named(t) && |t.binds| == |r.binds|
    && forall i :: 0 <= i < |r.binds| ==>
         WorkDir(t, i) == WorkDir(r, i) && t.binds[i].gen == r.binds[i].gen && (Tracked(t, i) ==> Tracked(r, i))
  }

  lemma ShrinkApart(r: Runtime, t: Runtime)
    requires Shrinks(r, t) && KnownApart(r)
    ensures KnownApart(t)
  {}

  lemma LeaseApart(r: Runtime, key: nat)
    requires Apart(r) && key in r.sessions
    ensures Apart(Lease(r, r.sessions[key]))
  {
    var t := Lease(r, r.sessions[key]);
    assert Shrinks(r, t);
    ShrinkApart(r, t);
  }

  lemma InsertApart(r: Runtime, key: nat)
    requires Apart(r) && !Waits(r) && Unleased(r, key)
    ensures Apart(Insert(r, key))
  {
    InsertKnown(r, key);
    InsertLeased(r, key);
  }

  lemma InsertKnown(r: Runtime, key: nat)
    requires Named(r) && CacheOk(r) && KnownApart(r) && !Waits(r)
    ensures KnownApart(Insert(r, key))
  {
    var t := Insert(r, key);
    assert forall i :: 0 <= i < |r.binds| ==> WorkDir(t, i) == WorkDir(r, i) && (Tracked(t, i) ==> Tracked(r, i));
    forall i | 0 <= i < |r.binds| && Tracked(r, i) && WorkDir(r, i) == r.gens[r.current].workDir
      ensures r.binds[i].gen == r.current {
      assert i !in r.retired;
    }
  }

  lemma InsertLeased(r: Runtime, key: nat)
    requires Named(r) && CacheOk(r) && LeasedKnown(r) && LeaseOk(r) && Unleased(r, key)
    ensures var t := Insert(r, key); CacheOk(t) && LeasedKnown(t) && LeaseOk(t)
  {
    var t := Insert(r, key);
    forall i | 0 <= i < |r.binds| && r.binds[i].active > 0 && !r.binds[i].closed ensures Tracked(t, i) {
      assert Tracked(r, i);
    }
  }

  lemma ReleaseApart(r: Runtime, b: nat)
    requires Apart(r) && b in r.leases
    ensures Apart(DoRelease(r, b))
  {
    ReleaseCounts(r, b);
    ReleaseKnown(r, b);
    ReleaseShrinks(r, b);
    ShrinkApart(r, DoRelease(r, b));
  }

  lemma ReleaseShrinks(r: Runtime, b: nat)
    requires Named(r) && b < |r.binds|
    ensures Shrinks(r, DoRelease(r, b))
  {}

  lemma ReleaseKnown(r: Runtime, b: nat)
    requires Named(r) && CacheOk(r) && LeasedKnown(r) && b < |r.binds| && r.binds[b].active > 0
    ensures CacheOk(DoRelease(r, b)) && LeasedKnown(DoRelease(r, b))
  {
    var t := DoRelease(r, b);
    forall i | 0 <= i < |t.binds| && t.binds[i].active > 0 && !t.binds[i].closed ensures Tracked(t, i) {
      assert Tracked(r, i);
    }
  }

  lemma DropApart(r: Runtime, key: nat)
    requires Apart(r)
    ensures Apart(DoDrop(r, key))
  {
    DropKnown(r, key);
    DropShrinks(r, key);
    ShrinkApart(r, DoDrop(r, key));
  }

  lemma DropShrinks(r: Runtime, key: nat)
    requires Named(r) && LeaseOk(r)
    ensures Shrinks(r, DoDrop(r, key)) && LeaseOk(DoDrop(r, key))
  {}

  lemma DropKnown(r: Runtime, key: nat)
    requires Named(r) && CacheOk(r) && LeasedKnown(r)
    ensures CacheOk(DoDrop(r, key)) && LeasedKnown(DoDrop(r, key))
  {
    var t := DoDrop(r, key);
    forall i | 0 <= i < |t.binds| && t.binds[i].active > 0 && !t.binds[i].closed ensures Tracked(t, i) {
      assert Tracked(r, i);
    }
  }

  lemma ReplaceApart(r: Runtime, workDir: nat)
    requires Apart(r)
    ensures Apart(DoReplace(r, workDir))
  {
    ReplaceKnown(r, workDir);
    ReplaceShrinks(r, workDir);
    ShrinkApart(r, DoReplace(r, workDir));
  }

  lemma ReplaceShrinks(r: Runtime, workDir: nat)
    requires Named(r) && LeaseOk(r)
    ensures Shrinks(r, DoReplace(r, workDir)) && LeaseOk(DoReplace(r, workDir))
  {}

  lemma ReplaceKnown(r: Runtime, workDir: nat)
    requires Named(r) && CacheOk(r) && LeasedKnown(r)
    ensures CacheOk(DoReplace(r, workDir)) && LeasedKnown(DoReplace(r, workDir))
  {
    var t := DoReplace(r, workDir);
    forall i | 0 <= i < |t.binds| && t.binds[i].active > 0 && !t.binds[i].closed ensures Tracked(t, i) {
      assert Tracked(r, i);
    }
  }

  lemma CloseApart(r: Runtime)
    requires Apart(r)
    ensures Apart(DoClose(r))
  {
    var t := DoClose(r);
    forall i | 0 <= i < |t.binds| && t.binds[i].active > 0 ensures t.binds[i].closed {
      assert r.binds[i].closed || Tracked(r, i);
    }
  }

  lemma StepApart(r: Runtime, op: Op)
    requires Apart(r) && Harmless(r, op)
    ensures Apart(Step(r, op))
  {
    if Enabled(r, op) {
      if op.Acquire? {
        if op.key in r.sessions {
          LeaseApart(r, op.key);
        } else {
          InsertApart(r, op.key);
        }
      } else if op.TerminalHit? {
        LeaseApart(r, op.key);
      } else if op.TerminalInsert? {
        InsertApart(r, op.key);
        MissedApart(Insert(r, op.key), Step(r, op));
      } else if op.TerminalMiss? || op.TerminalLeave? {
        MissedApart(r, Step(r, op));
      } else if op.Release? {
        ReleaseApart(r, op.b);
      } else if op.Drop? {
        DropApart(r, op.key);
      } else if op.Replace? {
        ReplaceApart(r, op.workDir);
      } else {
        CloseApart(r);
      }
    }
  }

  lemma MissedApart(r: Runtime, t: Runtime)
    requires Apart(r) && t == r.(missed := t.missed)
    ensures Apart(t)
  {
    assert forall i :: 0 <= i < |r.binds| ==> WorkDir(t, i) == WorkDir(r, i) && (Tracked(t, i) <==> Tracked(r, i));
  }

  // ---------------------------------------------------------------- runs

  ghost predicate HarmlessAt(r: Runtime, ops: seq<Op>, i: nat)
    requires Named(r) && i < |ops|
  {
    Harmless(Run(r, ops[..i]), ops[i])
  }

  ghost predicate AllHarmless(r: Runtime, ops: seq<Op>)
    requires Named(r)
  {
    forall i :: 0 <= i < |ops| ==> HarmlessAt(r, ops, i)
  }

  lemma {:induction false} RunApart(r: Runtime, ops: seq<Op>)
    requires Apart(r) && AllHarmless(r, ops)
    ensures Apart(Run(r, ops))
  {
    if ops == [] {
    } else {
      HarmlessPrefix(r, ops);
      RunApart(r, ops[..|ops| - 1]);
      StepApart(Run(r, ops[..|ops| - 1]), ops[|ops| - 1]);
    }
  }

  lemma {:induction false} HarmlessPrefix(r: Runtime, ops: seq<Op>)
    requires Named(r) && AllHarmless(r, ops) && ops != []
    ensures AllHarmless(r, ops[..|ops| - 1]) && HarmlessAt(r, ops, |ops| - 1)
  {
    var pre := ops[..|ops| - 1];
    forall i | 0 <= i < |pre| ensures HarmlessAt(r, pre, i) {
      assert pre[..i] == ops[..i] && HarmlessAt(r, ops, i);
    }
  }

  /** No two generations hold leases on open sessions in one directory, also after close. */
  lemma {:induction false} OneGenerationPerDirectory(workDir: nat, ops: seq<Op>, i: nat, j: nat)
    requires AllHarmless(Start(workDir), ops)
    ensures !Shared(Run(Start(workDir), ops), i, j)
  {
    RunApart(Start(workDir), ops);
    ApartIsNotShared(Run(Start(workDir), ops), i, j);
  }

  // ---------------------------------------------------------------- exactly when

  /** Session `lost` of a former generation is leased and unknown, and nothing is cached. */
  ghost predicate Unseen(r: Runtime, lost: nat) {
    && Named(r) && LeaseOk(r) && lost < |r.binds| && lost in r.leases && !r.binds[lost].closed
    && !r.binds[lost].retired && lost !in r.retired && r.sessions == map[]
    && r.binds[lost].gen != r.current && WorkDir(r, lost) == r.gens[r.current].workDir
  }

  /** Releasing what the directory is waited for takes the unknown session along unseen. */
  lemma {:induction false} Drain(r: Runtime, lost: nat) returns (ops: seq<Op>)
    requires Unseen(r, lost)
    ensures Unseen(Run(r, ops), lost) && !Waits(Run(r, ops)) && forall i :: 0 <= i < |ops| ==> ops[i].Release?
    decreases |r.leases|
  {
    if !Waits(r) {
      ops := [];
    } else {
      var b :| b in r.retired && r.binds[b].active > 0 && WorkDir(r, b) == r.gens[r.current].workDir;
      ReleaseUnseen(r, lost, b);
      var more := Drain(Step(r, Release(b)), lost);
      ops := [Release(b)] + more;
      RunCons(r, Release(b), more);
    }
  }

  lemma ReleaseUnseen(r: Runtime, lost: nat, b: nat)
    requires Unseen(r, lost) && b in r.retired && r.binds[b].active > 0
    ensures b in r.leases && Unseen(Step(r, Release(b)), lost) && |Step(r, Release(b)).leases| < |r.leases|
  {
    ReleaseCounts(r, b);
  }

  lemma {:induction false} RunSnoc(r: Runtime, ops: seq<Op>, op: Op)
    requires Named(r)
    ensures Run(r, ops + [op]) == Step(Run(r, ops), op)
  {
    assert (ops + [op])[..|ops|] == ops;
  }

  lemma {:induction false} RunConcat(r: Runtime, a: seq<Op>, b: seq<Op>)
    requires Named(r)
    ensures Run(r, a + b) == Run(Run(r, a), b)
    decreases |b|
  {
    if b == [] {
      assert a + b == a;
    } else {
      var pre := b[..|b| - 1];
      assert (a + b)[..|a + b| - 1] == a + pre;
      RunConcat(r, a, pre);
    }
  }

  lemma RunCons(r: Runtime, op: Op, ops: seq<Op>)
    requires Named(r)
    ensures Run(r, [op] + ops) == Run(Step(r, op), ops)
  {
    RunConcat(r, [op], ops);
    assert [op][..0] == [] && Run(r, []) == r;
  }

  /** The session is leased, open and of the current generation, but in no table. */
  ghost predicate Hidden(t: Runtime, lost: nat) {
    && Named(t) && LeaseOk(t) && lost < |t.binds| && lost in t.leases && !t.binds[lost].closed
    && !t.binds[lost].retired && !Tracked(t, lost) && t.binds[lost].gen == t.current
  }

  /** A swap takes a session that is in no table out of sight. */
  lemma SwapHides(t: Runtime, lost: nat)
    requires Hidden(t, lost)
    ensures Unseen(DoReplace(t, t.gens[t.current].workDir), lost)
  {
    ReplaceShrinks(t, t.gens[t.current].workDir);
  }

  lemma InsertHides(r: Runtime, key: nat)
    requires Apart(r) && key in r.sessions && !Unleased(r, key)
    ensures Hidden(Insert(r, key), r.sessions[key])
  {}

  ghost predicate NoInserts(ops: seq<Op>) {
    forall i :: 0 <= i < |ops| ==> !ops[i].TerminalInsert?
  }

  lemma NoInsertIsHarmless(r: Runtime, ops: seq<Op>)
    requires Named(r) && NoInserts(ops)
    ensures AllHarmless(r, ops)
  {}

  lemma AcquireShares(r: Runtime, lost: nat)
    requires Unseen(r, lost) && !Waits(r)
    ensures Shared(Step(r, Acquire(0)), lost, |r.binds|)
  {}

  /** After the swap and the releases it has to wait for, the overwritten session works on unseen. */
  lemma OverwrittenWorksOn(t: Runtime, lost: nat) returns (ops: seq<Op>)
    requires Hidden(t, lost)
    ensures NoInserts(ops) && Unseen(Run(t, ops), lost) && !Waits(Run(t, ops))
  {
    SwapHides(t, lost);
    ReplaceSteps(t, t.gens[t.current].workDir);
    ops := DrainAfter(t, Replace(t.gens[t.current].workDir), lost);
  }

  lemma ReplaceSteps(t: Runtime, workDir: nat)
    requires Named(t)
    ensures Step(t, Replace(workDir)) == DoReplace(t, workDir)
  {}

  lemma DrainAfter(t: Runtime, swap: Op, lost: nat) returns (ops: seq<Op>)
    requires Named(t) && Unseen(Step(t, swap), lost) && swap.Replace?
    ensures NoInserts(ops) && Unseen(Run(t, ops), lost) && !Waits(Run(t, ops))
  {
    var drain := Drain(Step(t, swap), lost);
    RunCons(t, swap, drain);
    ops := [swap] + drain;
  }

  lemma OverwrittenShares(t: Runtime, lost: nat) returns (ops: seq<Op>, i: nat, j: nat)
    requires Hidden(t, lost)
    ensures AllHarmless(t, ops) && Shared(Run(t, ops), i, j)
  {
    var pre := OverwrittenWorksOn(t, lost);
    ops, i, j := pre + [Acquire(0)], lost, |Run(t, pre).binds|;
    NoInsertIsHarmless(t, ops);
    RunSnoc(t, pre, Acquire(0));
    AcquireShares(Run(t, pre), lost);
  }

  /** From an insert over a leased session some ordinary future shares the directory. */
  lemma LeasedOverwriteShares(r: Runtime, key: nat) returns (ops: seq<Op>, i: nat, j: nat)
    requires Apart(r) && key in r.sessions && !Unleased(r, key)
    ensures AllHarmless(Insert(r, key), ops) && Shared(Run(Insert(r, key), ops), i, j)
  {
    InsertHides(r, key);
    ops, i, j := OverwrittenShares(Insert(r, key), r.sessions[key]);
  }

  ghost predicate StaysApart(t: Runtime)
    requires Named(t)
  {
    forall ops: seq<Op>, i: nat, j: nat :: AllHarmless(t, ops) ==> !Shared(Run(t, ops), i, j)
  }

  /**
   An insert that finds nobody to wait for keeps the directories of all harmless
   futures apart if and only if it does not overwrite a leased session.
   */
  lemma InsertKeepsApartExactly(r: Runtime, key: nat)
    requires Apart(r) && !Waits(r)
    ensures StaysApart(Insert(r, key)) <==> Unleased(r, key)
  {
    var t := Insert(r, key);
    if Unleased(r, key) {
      InsertApart(r, key);
      forall ops: seq<Op>, i: nat, j: nat | AllHarmless(t, ops) ensures !Shared(Run(t, ops), i, j) {
        RunApart(t, ops);
        ApartIsNotShared(Run(t, ops), i, j);
      }
    } else {
      var ops, i, j := LeasedOverwriteShares(r, key);
      assert AllHarmless(t, ops) && Shared(Run(t, ops), i, j);
    }
  }
}
