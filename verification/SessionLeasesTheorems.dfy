/**
 What the hot swap keeps: the session counter of a generation is the number of
 its open sessions, a retired generation is stopped exactly when that number
 reaches zero, and no two generations ever work in one directory at a time.
 */
module SessionLeasesTheorems {
  import opened SessionLeases

  // ---------------------------------------------------------------- counting

  /** Is this session open and of generation `g`? */
  predicate OpenIn(b: Binding, g: nat) {
    !b.closed && b.gen == g
  }

  ghost function Count(binds: seq<Binding>, g: nat): nat {
    if binds == [] then 0
    else Count(binds[..|binds| - 1], g) + (if OpenIn(binds[|binds| - 1], g) then 1 else 0)
  }

  lemma CountPush(binds: seq<Binding>, b: Binding, g: nat)
    ensures Count(binds + [b], g) == Count(binds, g) + (if OpenIn(b, g) then 1 else 0)
  {
    assert (binds + [b])[..|binds|] == binds;
  }

  lemma {:induction false} CountUpdate(binds: seq<Binding>, i: nat, b: Binding, g: nat)
    requires i < |binds|
    ensures Count(binds[i := b], g) + (if OpenIn(binds[i], g) then 1 else 0)
            == Count(binds, g) + (if OpenIn(b, g) then 1 else 0)
  {
    var pre := binds[..|binds| - 1];
    if i == |pre| {
      assert binds[i := b][..|pre|] == pre;
    } else {
      CountUpdate(pre, i, b, g);
      assert binds[i := b][..|pre|] == pre[i := b];
    }
  }

  lemma {:induction false} CountNone(binds: seq<Binding>, g: nat)
    ensures Count(binds, g) == 0 <==> forall i :: 0 <= i < |binds| ==> !OpenIn(binds[i], g)
  {
    if binds == [] {
    } else {
      var pre := binds[..|binds| - 1];
      CountNone(pre, g);
      assert forall i :: 0 <= i < |pre| ==> pre[i] == binds[i];
    }
  }

  /** Two session lists that differ on the open sessions of `g` only by the closed ones. */
  lemma {:induction false} CountClosed(before: seq<Binding>, after: seq<Binding>, g: nat, shut: set<nat>)
    requires |before| == |after|
    requires forall i :: i in shut ==> 0 <= i < |before|
    requires forall i :: 0 <= i < |before| ==>
               if i in shut then OpenIn(before[i], g) && !OpenIn(after[i], g)
               else OpenIn(before[i], g) == OpenIn(after[i], g)
    ensures Count(after, g) == Count(before, g) - |shut|
  {
    if before == [] {
      assert shut == {};
    } else {
      var n := |before| - 1;
      CountClosed(before[..n], after[..n], g, shut - {n});
    }
  }

  // ---------------------------------------------------------------- invariant

  /** Cached sessions are open and of the current generation, retired ones are open and leased. */
  ghost predicate CacheOk(r: Runtime)
    requires Named(r)
  {
    && (forall k :: k in r.sessions ==>
          var b := r.binds[r.sessions[k]]; !b.closed && !b.retired && b.gen == r.current)
    && (forall b :: b in r.retired ==> r.binds[b].retired && !r.binds[b].closed && r.binds[b].active > 0)
  }

  /** The cache and the retired set hold exactly the open sessions. */
  ghost predicate TrackOk(r: Runtime)
    requires Named(r)
  {
    CacheOk(r) && AllTracked(r)
  }

  ghost predicate AllTracked(r: Runtime) {
    forall i :: 0 <= i < |r.binds| && !r.binds[i].closed ==> Tracked(r, i)
  }

  ghost predicate CountOk(r: Runtime) {
    forall g :: 0 <= g < |r.gens| ==> r.gens[g].sessions == Count(r.binds, g)
  }

  ghost predicate StopOk(r: Runtime) {
    forall g :: 0 <= g < |r.gens| ==>
      && (r.gens[g].retired <==> g != r.current)
      && (r.gens[g].stopped <==> g != r.current && Count(r.binds, g) == 0)
      && r.gens[g].stops == (if r.gens[g].stopped then 1 else 0)
  }

  ghost predicate CloseOk(r: Runtime) {
    forall i :: 0 <= i < |r.binds| ==> r.binds[i].closes == (if r.binds[i].closed then 1 else 0)
  }

  ghost predicate LeaseOk(r: Runtime) {
    forall i :: 0 <= i < |r.binds| ==> r.binds[i].active == r.leases[i]
  }

  ghost predicate Live(r: Runtime) {
    Named(r) && !r.terminal && TrackOk(r) && CountOk(r) && StopOk(r) && CloseOk(r) && LeaseOk(r)
  }

  /** Everything that was ever opened is closed once, every generation stopped once. */
  ghost predicate AllSettled(r: Runtime) {
    && (forall g :: 0 <= g < |r.gens| ==> r.gens[g].stopped && r.gens[g].stops == 1)
    && (forall i :: 0 <= i < |r.binds| ==> r.binds[i].closed && r.binds[i].closes == 1)
  }

  ghost predicate Over(r: Runtime) {
    Named(r) && r.terminal && r.sessions == map[] && r.retired == {} && AllSettled(r) && LeaseOk(r)
  }

  lemma StartLive(workDir: nat)
    ensures Live(Start(workDir))
  {}

  // ---------------------------------------------------------------- each step

  lemma LeaseKeeps(r: Runtime, b: nat)
    requires Live(r) && b < |r.binds| && Cached(r.sessions, r.binds[b], b)
    ensures Live(Lease(r, b))
  {
    var t := Lease(r, b);
    forall g: nat ensures Count(t.binds, g) == Count(r.binds, g) {
      CountUpdate(r.binds, b, t.binds[b], g);
    }
  }

  lemma InsertKeeps(r: Runtime, key: nat)
    requires Live(r) && !Waits(r) && key !in r.sessions
    ensures Live(Insert(r, key))
  {
    InsertTracks(r, key);
    InsertCounts(r, key);
  }

  lemma InsertCounts(r: Runtime, key: nat)
    requires Named(r) && CountOk(r) && StopOk(r)
    ensures CountOk(Insert(r, key)) && StopOk(Insert(r, key))
  {
    var t := Insert(r, key);
    forall g: nat ensures Count(t.binds, g) == Count(r.binds, g) + (if g == r.current then 1 else 0) {
      CountPush(r.binds, t.binds[|r.binds|], g);
    }
  }

  lemma InsertTracks(r: Runtime, key: nat)
    requires Named(r) && TrackOk(r) && key !in r.sessions
    ensures TrackOk(Insert(r, key))
  {
    var t := Insert(r, key);
    forall i | 0 <= i < |r.binds| && !r.binds[i].closed ensures Tracked(t, i) {
      assert Tracked(r, i);
    }
  }

  /** The sections that change one binding: a release and a drop. */
  lemma OneClosed(r: Runtime, t: Runtime, b: nat, shut: bool)
    requires Named(r) && Named(t) && CountOk(r) && StopOk(r) && b < |r.binds| && !r.binds[b].closed
    requires t.current == r.current && |t.binds| == |r.binds| && t.binds == r.binds[b := t.binds[b]]
    requires t.binds[b].gen == r.binds[b].gen && t.binds[b].closed == shut
    requires t.gens == if shut then r.gens[r.binds[b].gen := Settle(r.gens[r.binds[b].gen], 1)] else r.gens
    ensures CountOk(t) && StopOk(t)
  {
    forall g: nat ensures Count(t.binds, g) == Count(r.binds, g) - (if shut && g == r.binds[b].gen then 1 else 0) {
      CountUpdate(r.binds, b, t.binds[b], g);
    }
    CountNone(r.binds, r.binds[b].gen);
  }

  lemma ReleaseKeeps(r: Runtime, b: nat)
    requires Live(r) && b in r.leases
    ensures Live(DoRelease(r, b))
  {
    var t := DoRelease(r, b);
    if !r.binds[b].closed {
      OneClosed(r, t, b, t.binds[b].closed);
      assert Tracked(r, b);
    } else {
      ReleaseClosed(r, b);
    }
    ReleaseTracks(r, b);
    ReleaseCounts(r, b);
  }

  /** A lease on a session that is closed already changes no count. */
  lemma ReleaseClosed(r: Runtime, b: nat)
    requires Named(r) && CountOk(r) && StopOk(r) && b < |r.binds| && r.binds[b].closed
    ensures CountOk(DoRelease(r, b)) && StopOk(DoRelease(r, b))
  {
    var t := DoRelease(r, b);
    forall g: nat ensures Count(t.binds, g) == Count(r.binds, g) {
      CountUpdate(r.binds, b, t.binds[b], g);
    }
  }

  lemma ReleaseTracks(r: Runtime, b: nat)
    requires Named(r) && TrackOk(r) && b < |r.binds| && r.binds[b].active > 0
    ensures TrackOk(DoRelease(r, b))
  {
    var t := DoRelease(r, b);
    forall i | 0 <= i < |t.binds| && !t.binds[i].closed ensures Tracked(t, i) {
      assert Tracked(r, i);
    }
  }

  lemma ReleaseCounts(r: Runtime, b: nat)
    requires Named(r) && LeaseOk(r) && b in r.leases
    ensures LeaseOk(DoRelease(r, b))
  {}

  lemma DropKeeps(r: Runtime, key: nat)
    requires Live(r)
    ensures Live(DoDrop(r, key))
  {
    if key in r.sessions {
      var b := r.sessions[key];
      OneClosed(r, DoDrop(r, key), b, DoDrop(r, key).binds[b].closed);
      DropTracks(r, key);
    }
  }

  lemma DropTracks(r: Runtime, key: nat)
    requires Named(r) && TrackOk(r) && key in r.sessions
    ensures TrackOk(DoDrop(r, key))
  {
    var t := DoDrop(r, key);
    forall i | 0 <= i < |t.binds| && !t.binds[i].closed ensures Tracked(t, i) {
      assert Tracked(r, i);
    }
  }

  // ---------------------------------------------------------------- swap and close

  /** The swap closes one idle session per decrement of the counter. */
  lemma ReplaceCounts(r: Runtime, workDir: nat)
    requires Named(r) && TrackOk(r)
    ensures var t := DoReplace(r, workDir);
            forall g: nat :: Count(t.binds, g)
              == Count(r.binds, g) - (if g == r.current then |IdleNow(r.binds, r.sessions)| else 0)
  {
    var t := DoReplace(r, workDir);
    forall g: nat ensures Count(t.binds, g)
      == Count(r.binds, g) - (if g == r.current then |IdleNow(r.binds, r.sessions)| else 0) {
      CountClosed(r.binds, t.binds, g, if g == r.current then IdleNow(r.binds, r.sessions) else {});
    }
  }

  lemma ReplaceTracks(r: Runtime, workDir: nat)
    requires Named(r) && TrackOk(r) && CloseOk(r)
    ensures var t := DoReplace(r, workDir); TrackOk(t) && CloseOk(t)
  {
    var t := DoReplace(r, workDir);
    forall i | 0 <= i < |t.binds| && !t.binds[i].closed ensures Tracked(t, i) {
      assert Tracked(r, i);
    }
  }

  lemma ReplaceKeeps(r: Runtime, workDir: nat)
    requires Live(r)
    ensures Live(DoReplace(r, workDir))
  {
    ReplaceCounts(r, workDir);
    ReplaceTracks(r, workDir);
    CountNone(r.binds, |r.gens|);
  }

  /** Closing the channel settles everything: what was not stopped before is stopped now. */
  lemma CloseSettles(r: Runtime)
    requires Live(r)
    ensures Over(DoClose(r))
  {
    var t := DoClose(r);
    forall i | 0 <= i < |r.binds| ensures t.binds[i].closes == 1 && t.binds[i].closed {
      assert r.binds[i].closed <==> !Tracked(r, i);
    }
    forall g | 0 <= g < |r.gens| ensures t.gens[g].stops == 1 {
      CountNone(r.binds, g);
      if i :| 0 <= i < |r.binds| && OpenIn(r.binds[i], g) {
        assert Tracked(r, i);
      }
    }
  }

  /** What a finished channel may still be asked: late releases and drops. */
  lemma OverKeeps(r: Runtime, op: Op)
    requires Over(r) && !Creates(op)
    ensures Over(Step(r, op))
  {}

  // ---------------------------------------------------------------- runs

  /** The op would open a session or install a generation. */
  predicate Creates(op: Op) {
    op.Acquire? || op.TerminalInsert? || op.Replace?
  }

  /** A terminal inserts only on a cache miss, and nothing is created after close. */
  ghost predicate Sound(r: Runtime, op: Op) {
    (op.TerminalInsert? ==> op.key !in r.sessions) && (r.terminal ==> !Creates(op))
  }

  ghost predicate AllSound(r: Runtime, ops: seq<Op>)
    requires Named(r)
  {
    forall i :: 0 <= i < |ops| ==> SoundAt(r, ops, i)
  }

  ghost predicate SoundAt(r: Runtime, ops: seq<Op>, i: nat)
    requires Named(r) && i < |ops|
  {
    Sound(Run(r, ops[..i]), ops[i])
  }

  lemma StepKeeps(r: Runtime, op: Op)
    requires Live(r) && Sound(r, op)
    ensures if op.Close? then Over(Step(r, op)) else Live(Step(r, op))
  {
    if Enabled(r, op) {
      if op.Acquire? {
        if op.key in r.sessions {
          LeaseKeeps(r, r.sessions[op.key]);
        } else {
          InsertKeeps(r, op.key);
        }
      } else if op.TerminalHit? {
        LeaseKeeps(r, r.sessions[op.key]);
      } else if op.TerminalInsert? {
        InsertKeeps(r, op.key);
        MissedIsFree(Insert(r, op.key), Step(r, op));
      } else if op.TerminalMiss? || op.TerminalLeave? {
        MissedIsFree(r, Step(r, op));
      } else if op.Release? {
        ReleaseKeeps(r, op.b);
      } else if op.Drop? {
        DropKeeps(r, op.key);
      } else if op.Replace? {
        ReplaceKeeps(r, op.workDir);
      } else {
        CloseSettles(r);
      }
    }
  }

  /** Nothing depends on who is waiting. */
  lemma MissedIsFree(r: Runtime, t: Runtime)
    requires Live(r) && t == r.(missed := t.missed)
    ensures Live(t)
  {}

  ghost predicate Good(r: Runtime) {
    if r.terminal then Over(r) else Live(r)
  }

  lemma StepGood(r: Runtime, op: Op)
    requires Good(r) && Sound(r, op)
    ensures Good(Step(r, op))
  {
    if r.terminal {
      OverKeeps(r, op);
    } else {
      StepKeeps(r, op);
    }
  }

  lemma {:induction false} SoundPrefix(r: Runtime, ops: seq<Op>)
    requires Named(r) && AllSound(r, ops) && ops != []
    ensures AllSound(r, ops[..|ops| - 1]) && SoundAt(r, ops, |ops| - 1)
  {
    var pre := ops[..|ops| - 1];
    forall i | 0 <= i < |pre| ensures SoundAt(r, pre, i) {
      assert pre[..i] == ops[..i] && SoundAt(r, ops, i);
    }
  }

  lemma {:induction false} RunGood(r: Runtime, ops: seq<Op>)
    requires Good(r) && AllSound(r, ops)
    ensures Good(Run(r, ops))
  {
    if ops == [] {
    } else {
      SoundPrefix(r, ops);
      RunGood(r, ops[..|ops| - 1]);
      StepGood(Run(r, ops[..|ops| - 1]), ops[|ops| - 1]);
    }
  }

  lemma {:induction false} RunKeeps(workDir: nat, ops: seq<Op>)
    requires AllSound(Start(workDir), ops)
    ensures Good(Run(Start(workDir), ops))
  {
    StartLive(workDir);
    RunGood(Start(workDir), ops);
  }

  ghost predicate HasOpen(r: Runtime, g: nat) {
    exists i :: 0 <= i < |r.binds| && OpenIn(r.binds[i], g)
  }

  /** Until the channel closes, a generation is stopped exactly when it is replaced and drained. */
  lemma {:induction false} StoppedExactlyWhenDrained(workDir: nat, ops: seq<Op>, g: nat)
    requires AllSound(Start(workDir), ops) && !Run(Start(workDir), ops).terminal
    requires g < |Run(Start(workDir), ops).gens|
    ensures var r := Run(Start(workDir), ops);
            && r.gens[g].sessions == Count(r.binds, g)
            && (r.gens[g].stopped <==> g != r.current && !HasOpen(r, g))
            && r.gens[g].stops == (if r.gens[g].stopped then 1 else 0)
  {
    RunKeeps(workDir, ops);
    CountNone(Run(Start(workDir), ops).binds, g);
  }

  /** The agent of a generation is told to stop in the very step that closes its last session. */
  lemma {:induction false} StopComesWithTheLastClose(workDir: nat, ops: seq<Op>, op: Op, g: nat)
    requires AllSound(Start(workDir), ops) && !Run(Start(workDir), ops).terminal
    requires Sound(Run(Start(workDir), ops), op) && !op.Close? && g < |Run(Start(workDir), ops).gens|
    ensures var r := Run(Start(workDir), ops);
            var t := Step(r, op);
            && g < |t.gens|
            && (t.gens[g].stops > r.gens[g].stops <==>
                g != t.current && !HasOpen(t, g) && (HasOpen(r, g) || g == r.current))
  {
    var r := Run(Start(workDir), ops);
    RunKeeps(workDir, ops);
    StepKeeps(r, op);
    CountNone(r.binds, g);
    CountNone(Step(r, op).binds, g);
    CurrentMovesOn(r, op);
  }

  lemma CurrentMovesOn(r: Runtime, op: Op)
    requires Named(r)
    ensures Step(r, op).current == r.current || Step(r, op).current == |r.gens|
    ensures |r.gens| <= |Step(r, op).gens|
  {}

  /** Once closed, every generation was stopped once and every session closed once. */
  lemma {:induction false} CloseSettlesEverything(workDir: nat, ops: seq<Op>)
    requires AllSound(Start(workDir), ops) && Run(Start(workDir), ops).terminal
    ensures AllSettled(Run(Start(workDir), ops))
  {
    RunKeeps(workDir, ops);
  }

  // ---------------------------------------------------------------- exactly when

  /** After the end of a channel with `n` generations; those installed later have never been stopped. */
  ghost predicate AfterEnd(r: Runtime, n: nat) {
    && Named(r) && r.terminal && CacheOk(r) && CloseOk(r) && n <= |r.gens|
    && (forall g :: 0 <= g < n ==> r.gens[g].stopped && r.gens[g].stops == 1)
    && (|r.gens| > n ==> r.current >= n && r.gens[r.current].stops == 0 && !r.gens[r.current].retired)
  }

  lemma AfterEndStep(r: Runtime, op: Op, n: nat)
    requires AfterEnd(r, n)
    ensures AfterEnd(Step(r, op), n)
    ensures |Step(r, op).gens| == |r.gens| + (if op.Replace? then 1 else 0)
  {
    OnlyReplaceInstalls(r, op);
    if Enabled(r, op) {
      if op.Acquire? {
        AfterEndOpens(r, op.key, n);
        AfterEndLease(r, op.key, n);
      } else if op.TerminalHit? {
        AfterEndLease(r, op.key, n);
      } else if op.TerminalInsert? {
        AfterEndOpens(r, op.key, n);
      } else if op.Release? {
        AfterEndRelease(r, op.b, n);
      } else if op.Drop? {
        AfterEndDrop(r, op.key, n);
      } else if op.Replace? {
        AfterEndReplace(r, op.workDir, n);
      }
    }
  }

  lemma OnlyReplaceInstalls(r: Runtime, op: Op)
    requires Named(r)
    ensures |Step(r, op).gens| == |r.gens| + (if op.Replace? then 1 else 0)
  {}

  lemma AfterEndOpens(r: Runtime, key: nat, n: nat)
    requires AfterEnd(r, n)
    ensures AfterEnd(Insert(r, key), n)
  {}

  lemma AfterEndLease(r: Runtime, key: nat, n: nat)
    requires AfterEnd(r, n)
    ensures key in r.sessions ==> AfterEnd(Lease(r, r.sessions[key]), n)
  {}

  lemma AfterEndDrop(r: Runtime, key: nat, n: nat)
    requires AfterEnd(r, n)
    ensures AfterEnd(DoDrop(r, key), n)
  {}

  lemma AfterEndRelease(r: Runtime, b: nat, n: nat)
    requires AfterEnd(r, n) && b < |r.binds|
    ensures AfterEnd(DoRelease(r, b), n)
  {}

  lemma AfterEndReplace(r: Runtime, workDir: nat, n: nat)
    requires AfterEnd(r, n)
    ensures AfterEnd(DoReplace(r, workDir), n)
  {}

  lemma {:induction false} AfterEndRun(r: Runtime, more: seq<Op>, n: nat)
    requires AfterEnd(r, n) && |r.gens| == n
    ensures AfterEnd(Run(r, more), n) && |Run(r, more).gens| == n + Replaces(more)
  {
    if more == [] {
    } else {
      AfterEndRun(r, more[..|more| - 1], n);
      AfterEndStep(Run(r, more[..|more| - 1]), more[|more| - 1], n);
    }
  }

  ghost function Replaces(ops: seq<Op>): nat {
    if ops == [] then 0
    else Replaces(ops[..|ops| - 1]) + (if ops[|ops| - 1].Replace? then 1 else 0)
  }

  lemma {:induction false} NoneReplaces(ops: seq<Op>)
    ensures Replaces(ops) == 0 <==> forall i :: 0 <= i < |ops| ==> !ops[i].Replace?
  {
    if ops == [] {
    } else {
      var pre := ops[..|ops| - 1];
      NoneReplaces(pre);
      assert forall i :: 0 <= i < |pre| ==> pre[i] == ops[i];
    }
  }

  /** The terminals of this continuation insert only on a cache miss. */
  ghost predicate Misses(r: Runtime, ops: seq<Op>)
    requires Named(r)
  {
    forall i :: 0 <= i < |ops| ==> MissesAt(r, ops, i)
  }

  ghost predicate MissesAt(r: Runtime, ops: seq<Op>, i: nat)
    requires Named(r) && i < |ops|
  {
    Miss(Run(r, ops[..i]), ops[i])
  }

  ghost predicate Miss(r: Runtime, op: Op) {
    op.TerminalInsert? ==> op.key !in r.sessions
  }

  ghost predicate Tracking(r: Runtime) {
    Named(r) && TrackOk(r) && CloseOk(r) && LeaseOk(r)
  }

  lemma LeaseTracks(r: Runtime, key: nat)
    requires Tracking(r) && key in r.sessions
    ensures Tracking(Lease(r, r.sessions[key]))
  {
    var t := Lease(r, r.sessions[key]);
    forall i | 0 <= i < |t.binds| && !t.binds[i].closed ensures Tracked(t, i) {
      assert Tracked(r, i);
    }
  }

  lemma OpenTracks(r: Runtime, key: nat)
    requires Tracking(r) && key !in r.sessions
    ensures Tracking(Insert(r, key))
  {
    InsertTracks(r, key);
  }

  lemma ReleaseTracking(r: Runtime, b: nat)
    requires Tracking(r) && b in r.leases
    ensures Tracking(DoRelease(r, b))
  {
    ReleaseTracks(r, b);
    ReleaseCounts(r, b);
  }

  lemma DropTracking(r: Runtime, key: nat)
    requires Tracking(r)
    ensures Tracking(DoDrop(r, key))
  {
    if key in r.sessions {
      DropTracks(r, key);
    }
  }

  lemma ReplaceTracking(r: Runtime, workDir: nat)
    requires Tracking(r)
    ensures Tracking(DoReplace(r, workDir))
  {
    ReplaceTracks(r, workDir);
  }

  lemma StepTracks(r: Runtime, op: Op)
    requires Tracking(r) && r.terminal && Miss(r, op)
    ensures Tracking(Step(r, op)) && Step(r, op).terminal
  {
    if Enabled(r, op) {
      if op.Acquire? {
        if op.key in r.sessions {
          LeaseTracks(r, op.key);
        } else {
          OpenTracks(r, op.key);
        }
      } else if op.TerminalHit? {
        LeaseTracks(r, op.key);
      } else if op.TerminalInsert? {
        OpenTracks(r, op.key);
      } else if op.Release? {
        ReleaseTracking(r, op.b);
      } else if op.Drop? {
        DropTracking(r, op.key);
      } else if op.Replace? {
        ReplaceTracking(r, op.workDir);
      }
    }
  }

  lemma {:induction false} RunTracks(r: Runtime, more: seq<Op>)
    requires Tracking(r) && r.terminal && Misses(r, more)
    ensures Tracking(Run(r, more)) && Run(r, more).terminal
  {
    if more == [] {
    } else {
      MissesPrefix(r, more);
      RunTracks(r, more[..|more| - 1]);
      StepTracks(Run(r, more[..|more| - 1]), more[|more| - 1]);
    }
  }

  lemma MissesPrefix(r: Runtime, more: seq<Op>)
    requires Named(r) && Misses(r, more) && more != []
    ensures Misses(r, more[..|more| - 1]) && MissesAt(r, more, |more| - 1)
  {
    var pre := more[..|more| - 1];
    forall i | 0 <= i < |pre| ensures MissesAt(r, pre, i) {
      assert pre[..i] == more[..i] && MissesAt(r, more, i);
    }
  }

  lemma TablesHoldOpen(r: Runtime)
    requires Named(r) && CacheOk(r)
    ensures (forall b :: 0 <= b < |r.binds| ==> r.binds[b].closed) <==>
            r.sessions == map[] && r.retired == {} && AllTracked(r)
  {
    if forall b :: 0 <= b < |r.binds| ==> r.binds[b].closed {
      assert forall k :: k !in r.sessions;
      assert forall b :: b !in r.retired;
    } else {
      var b :| 0 <= b < |r.binds| && !r.binds[b].closed;
      assert Tracked(r, b) ==> r.sessions != map[] || r.retired != {};
    }
  }

  lemma SettledAfterEnd(r: Runtime, more: seq<Op>)
    requires Over(r)
    ensures var t := Run(r, more);
            && CacheOk(t)
            && (AllSettled(t) <==>
                && (forall i :: 0 <= i < |more| ==> !more[i].Replace?)
                && (forall b :: 0 <= b < |t.binds| ==> t.binds[b].closed))
  {
    AfterEndRun(r, more, |r.gens|);
    NoneReplaces(more);
  }

  lemma OverTracks(r: Runtime, more: seq<Op>)
    requires Over(r) && Misses(r, more)
    ensures AllTracked(Run(r, more))
  {
    RunTracks(r, more);
  }

  /**
   Whatever a closed channel is still asked, everything is settled afterwards if and only
   if no agent was swapped in, the cache and the retired set are empty, and no open session
   is missing from them; none is as long as terminals insert on misses only.
   */
  lemma SettledAfterCloseExactly(workDir: nat, ops: seq<Op>, more: seq<Op>)
    requires AllSound(Start(workDir), ops) && Run(Start(workDir), ops).terminal
    ensures var r := Run(Start(workDir), ops);
            var t := Run(r, more);
            && (AllSettled(t) <==>
                (forall i :: 0 <= i < |more| ==> !more[i].Replace?)
                && t.sessions == map[] && t.retired == {} && AllTracked(t))
            && (Misses(r, more) ==> AllTracked(t))
  {
    RunKeeps(workDir, ops);
    var r := Run(Start(workDir), ops);
    SettledAfterEnd(r, more);
    TablesHoldOpen(Run(r, more));
    if Misses(r, more) {
      OverTracks(r, more);
    }
  }

  /**
   A terminal's insert leaves every sound future that ends in close with everything
   settled if and only if its key is not cached at that moment.
   */
  lemma InsertSettlesExactly(r: Runtime, key: nat)
    requires Live(r) && !Waits(r)
    ensures var t := Insert(r, key);
            (forall ops: seq<Op> :: AllSound(t, ops) && Run(t, ops).terminal ==> AllSettled(Run(t, ops))) <==>
            key !in r.sessions
  {
    var t := Insert(r, key);
    if key in r.sessions {
      CloseForgets(r, key);
    } else {
      InsertKeeps(r, key);
      forall ops: seq<Op> | AllSound(t, ops) && Run(t, ops).terminal ensures AllSettled(Run(t, ops)) {
        RunGood(t, ops);
      }
    }
  }

  /** The overwritten session is in no table any more; close passes it by. */
  lemma CloseForgets(r: Runtime, key: nat)
    requires Live(r) && key in r.sessions
    ensures var t := Insert(r, key);
            exists ops: seq<Op> :: AllSound(t, ops) && Run(t, ops).terminal && !AllSettled(Run(t, ops))
  {
    var t := Insert(r, key);
    var ops := [Close];
    assert ops[..0] == [] && Run(t, []) == t;
    assert SoundAt(t, ops, 0);
    var lost := r.sessions[key];
    assert !Tracked(t, lost);
    assert Run(t, ops) == DoClose(t);
    assert Run(t, ops).binds[lost].closes == 0;
    assert AllSound(t, ops) && Run(t, ops).terminal && !AllSettled(Run(t, ops));
  }
}
