/**
 Hot swap of a channel's agent.  A generation is one definition of the agent; a
 binding is one open agent session of a generation, cached under a conversation
 key; a lease is one turn using a binding.  Replacing the agent retires the
 cached bindings, and a retired generation is stopped when its session counter
 reaches zero.  Every section under the runtime lock is one step.
 */
module SessionLeases {

  /** `stops` counts the calls that stop the generation's agent. */
  datatype Generation = Generation(workDir: nat, sessions: int, retired: bool, stopped: bool, stops: nat)

  /** `closes` counts the calls that close the binding's session. */
  datatype Binding = Binding(key: nat, gen: nat, active: nat, retired: bool, closed: bool, closes: nat)

  /**
   Objects are named by their position; `leases` are the release functions not called
   yet, `missed` the keys of terminals that missed the cache and are waiting.
   */
  datatype Runtime = Runtime(
    gens: seq<Generation>,
    current: nat,
    binds: seq<Binding>,
    sessions: map<nat, nat>,
    retired: set<nat>,
    leases: multiset<nat>,
    missed: multiset<nat>,
    terminal: bool)

  datatype Op =
    | Acquire(key: nat)
    | TerminalHit(key: nat)
    | TerminalMiss(key: nat)
    | TerminalInsert(key: nat, waited: bool)
    | TerminalLeave(key: nat)
    | Release(b: nat)
    | Drop(key: nat)
    | Replace(workDir: nat)
    | Close

  function Fresh(workDir: nat): Generation {
    Generation(workDir, 0, false, false, 0)
  }

  function Start(workDir: nat): Runtime {
    Runtime([Fresh(workDir)], 0, [], map[], {}, multiset{}, multiset{}, false)
  }

  /** Every name in the state denotes something; the counters need not be right. */
  ghost predicate Named(r: Runtime) {
    && r.current < |r.gens|
    && (forall i :: 0 <= i < |r.binds| ==> r.binds[i].gen < |r.gens|)
    && (forall k :: k in r.sessions ==> r.sessions[k] < |r.binds| && r.binds[r.sessions[k]].key == k)
    && (forall b :: b in r.retired ==> b < |r.binds|)
    && (forall b :: b in r.leases ==> b < |r.binds|)
  }

  /** A retired session is still at work in the directory of the current generation. */
  ghost predicate Waits(r: Runtime)
    requires Named(r)
  {
    exists b :: b in r.retired && r.binds[b].active > 0 && WorkDir(r, b) == r.gens[r.current].workDir
  }

  function WorkDir(r: Runtime, b: nat): nat
    requires b < |r.binds| && r.binds[b].gen < |r.gens|
  {
    r.gens[r.binds[b].gen].workDir
  }

  // ---------------------------------------------------------------- steps

  function Lease(r: Runtime, b: nat): (t: Runtime)
    requires Named(r) && b < |r.binds|
    ensures Named(t)
  {
    r.(binds := r.binds[b := r.binds[b].(active := r.binds[b].active + 1)], leases := r.leases + multiset{b})
  }

  /** A new session of the current generation, cached under `key` whatever was there. */
  function Insert(r: Runtime, key: nat): (t: Runtime)
    requires Named(r)
    ensures Named(t)
  {
    var b := |r.binds|;
    var g := r.gens[r.current];
    r.(binds := r.binds + [Binding(key, r.current, 1, false, false, 0)],
       gens := r.gens[r.current := g.(sessions := g.sessions + 1)],
       sessions := r.sessions[key := b],
       leases := r.leases + multiset{b})
  }

  function DoAcquire(r: Runtime, key: nat): (t: Runtime)
    requires Named(r)
    ensures Named(t)
  {
    if key in r.sessions then Lease(r, r.sessions[key]) else Insert(r, key)
  }

  /** One session of generation `g` was closed; stop the generation if it was its last. */
  function Settle(g: Generation, closed: nat): Generation {
    var left := g.sessions - closed;
    var stop := g.retired && left == 0 && !g.stopped;
    g.(sessions := left, stopped := g.stopped || stop, stops := if stop then g.stops + 1 else g.stops)
  }

  function ClosedBinding(b: Binding): Binding {
    b.(closed := true, closes := b.closes + 1)
  }

  function DoRelease(r: Runtime, b: nat): (t: Runtime)
    requires Named(r) && b < |r.binds|
    ensures Named(t)
  {
    var binding := r.binds[b];
    var active := if binding.active > 0 then binding.active - 1 else 0;
    var last := binding.retired && active == 0 && !binding.closed;
    var idle := binding.(active := active);
    var after := if last then ClosedBinding(idle) else idle;
    var gens := if last then r.gens[binding.gen := Settle(r.gens[binding.gen], 1)] else r.gens;
    var retired := if last then r.retired - {b} else r.retired;
    r.(binds := r.binds[b := after], gens := gens, retired := retired, leases := r.leases - multiset{b})
  }

  function DoDrop(r: Runtime, key: nat): (t: Runtime)
    requires Named(r)
    ensures Named(t)
  {
    if key !in r.sessions then r
    else
      var b := r.sessions[key];
      var binding := r.binds[b].(retired := true);
      var busy := binding.active > 0;
      var last := !busy && !binding.closed;
      var after := if last then ClosedBinding(binding) else binding;
      var gens := if last then r.gens[binding.gen := Settle(r.gens[binding.gen], 1)] else r.gens;
      var retired := if busy then r.retired + {b} else r.retired;
      r.(binds := r.binds[b := after], gens := gens, retired := retired, sessions := r.sessions - {key})
  }

  predicate Cached(sessions: map<nat, nat>, binding: Binding, i: nat) {
    binding.key in sessions && sessions[binding.key] == i
  }

  function RetiredBinding(b: Binding): Binding {
    if b.active > 0 then b.(retired := true) else ClosedBinding(b.(retired := true))
  }

  function RetireAll(binds: seq<Binding>, sessions: map<nat, nat>): seq<Binding> {
    seq(|binds|, i requires 0 <= i < |binds| =>
      if Cached(sessions, binds[i], i) then RetiredBinding(binds[i]) else binds[i])
  }

  /** The cached sessions nobody uses: the swap closes these at once. */
  function IdleNow(binds: seq<Binding>, sessions: map<nat, nat>): set<nat> {
    set i: nat | i < |binds| && Cached(sessions, binds[i], i) && binds[i].active == 0
  }

  function BusyNow(binds: seq<Binding>, sessions: map<nat, nat>): set<nat> {
    set i: nat | i < |binds| && Cached(sessions, binds[i], i) && binds[i].active > 0
  }

  function DoReplace(r: Runtime, workDir: nat): (t: Runtime)
    requires Named(r)
    ensures Named(t)
  {
    var outgoing := Settle(r.gens[r.current].(retired := true), |IdleNow(r.binds, r.sessions)|);
    r.(gens := r.gens[r.current := outgoing] + [Fresh(workDir)],
       current := |r.gens|,
       binds := RetireAll(r.binds, r.sessions),
       sessions := map[],
       retired := r.retired + BusyNow(r.binds, r.sessions))
  }

  predicate Tracked(r: Runtime, i: nat)
    requires i < |r.binds|
  {
    Cached(r.sessions, r.binds[i], i) || i in r.retired
  }

  function CloseAll(r: Runtime): seq<Binding> {
    seq(|r.binds|, i requires 0 <= i < |r.binds| =>
      if Tracked(r, i) then ClosedBinding(r.binds[i]) else r.binds[i])
  }

  /** Close stops the current generation and those of the sessions it closes. */
  predicate StoppedByClose(r: Runtime, g: nat) {
    g == r.current || exists i :: 0 <= i < |r.binds| && Tracked(r, i) && r.binds[i].gen == g
  }

  function StopAll(r: Runtime): seq<Generation> {
    seq(|r.gens|, g requires 0 <= g < |r.gens| =>
      if StoppedByClose(r, g) then r.gens[g].(stopped := true, stops := r.gens[g].stops + 1) else r.gens[g])
  }

  function DoClose(r: Runtime): (t: Runtime)
    requires Named(r)
    ensures Named(t)
  {
    r.(binds := CloseAll(r), gens := StopAll(r), sessions := map[], retired := {}, terminal := true)
  }

  /** A terminal's insert; one that had to wait does not look at the cache again. */
  function DoTerminalInsert(r: Runtime, key: nat, waited: bool): (t: Runtime)
    requires Named(r)
    ensures Named(t)
  {
    Insert(r, key).(missed := if waited then r.missed - multiset{key} else r.missed)
  }

  /**
   A release function runs once; close runs once; new sessions wait for their directory.
   The lock is held from a terminal's lookup to its insert unless the terminal waits.
   */
  ghost predicate Enabled(r: Runtime, op: Op)
    requires Named(r)
  {
    match op
    case Acquire(key) => !Waits(r)
    case TerminalHit(key) => key in r.sessions
    case TerminalMiss(key) => key !in r.sessions && Waits(r)
    case TerminalInsert(key, waited) => !Waits(r) && (if waited then key in r.missed else key !in r.sessions)
    case TerminalLeave(key) => key in r.missed
    case Release(b) => b in r.leases
    case Drop(key) => true
    case Replace(workDir) => true
    case Close => !r.terminal
  }

  ghost function Do(r: Runtime, op: Op): (t: Runtime)
    requires Named(r) && Enabled(r, op)
    ensures Named(t)
  {
    match op
    case Acquire(key) => DoAcquire(r, key)
    case TerminalHit(key) => Lease(r, r.sessions[key])
    case TerminalMiss(key) => r.(missed := r.missed + multiset{key})
    case TerminalInsert(key, waited) => DoTerminalInsert(r, key, waited)
    case TerminalLeave(key) => r.(missed := r.missed - multiset{key})
    case Release(b) => DoRelease(r, b)
    case Drop(key) => DoDrop(r, key)
    case Replace(workDir) => DoReplace(r, workDir)
    case Close => DoClose(r)
  }

  ghost function Step(r: Runtime, op: Op): (t: Runtime)
    requires Named(r)
    ensures Named(t)
  {
    if Enabled(r, op) then Do(r, op) else r
  }

  ghost function Run(r: Runtime, ops: seq<Op>): (t: Runtime)
    requires Named(r)
    ensures Named(t)
  {
    if ops == [] then r else Step(Run(r, ops[..|ops| - 1]), ops[|ops| - 1])
  }
}
