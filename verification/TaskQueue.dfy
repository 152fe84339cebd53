/**
 The per-conversation task queue: one active task, a FIFO of waiting tasks, a
 steering flag and possibly a direct (console) turn, over a durable store that
 survives crashes.  Every critical section under the control lock is one atomic
 step, and the choices the program does not control (the outcome of a store
 write, the agent's answer to a steer, the moment of a crash) are arguments of
 the step.  The file gives the state and the steps; nothing is proved here.
 */
module TaskQueue {
  import opened Prelude

  datatype Status =
    | Queued | Steering | Running | WaitingInput
    | Succeeded | Failed | Cancelled | Interrupted | Steered | SteerUnknown

  /** Task ids are handed out in creation order; `target` is the task a steer may join. */
  datatype Task = Task(id: nat, target: Option<nat>, controller: nat, status: Status)

  /** The agent took the steer, refused it for certain, or nobody knows. */
  datatype Reply = Accepted | Rejected | Ambiguous

  /** What the agent was handed: a prompt of its own, or text added to a running turn. */
  datatype Delivery = Launch(id: nat) | Steer(id: nat, reply: Reply)

  /** The durable store: every task row, and the next unused id. */
  datatype Store = Store(rows: map<nat, Task>, nextId: nat)

  /** Process memory of one conversation, guarded by the control lock. */
  datatype Lane = Lane(
    booted: bool,
    live: bool,
    active: Option<Task>,
    stop: bool,
    queue: seq<Task>,
    steering: bool,
    direct: Option<nat>,
    done: map<nat, Task>)

  /**
   Goroutines: running turns (has the prompt been sent?), steers in flight, direct
   turns between their two finishing sections, and unsent status snapshots.
   */
  datatype Work = Work(runners: map<nat, bool>, steers: map<nat, Option<Reply>>, finishing: nat, late: set<Task>)

  /** History; `clean` says that every row stored as queued is one this program still answers for. */
  datatype Past = Past(claimFailed: bool, admitted: seq<nat>, log: seq<Delivery>, life: nat, clean: bool)

  datatype Sys = Sys(store: Store, lane: Lane, work: Work, past: Past)

  const FreshLane := Lane(false, true, None, false, [], false, None, map[])
  const NoWork := Work(map[], map[], 0, {})
  const Init := Sys(Store(map[], 0), FreshLane, NoWork, Past(false, [], [], 0, true))

  datatype Action =
    | Admit(user: nat, w: Write)
    | Enqueue(user: nat, blank: bool, max: nat, w: Write, wc: Write)
    | Cancel(id: nat, w: Write, wc: Write)
    | Clear(user: nat, admin: bool, ws: seq<Write>, wc: Write)
    | SteerClaim(id: nat, capable: bool, w: Write)
    | SteerReply(id: nat, reply: Reply)
    | SteerSettle(id: nat, w: Write, wc: Write)
    | Send(id: nat)
    | Finish(id: nat, cut: bool, err: bool, w: Write, wc: Write)
    | Touch(waiting: bool, w: Write)
    | Snapshot(waiting: bool)
    | LateWrite(task: Task, w: Write)
    | Refresh(id: nat, at: nat, w: Write)
    | BeginDirect(turn: nat)
    | EndDirect(turn: nat)
    | WakeAfterDirect(wc: Write)
    | TakeOver(user: nat)
    | Stop
    | Shutdown
    | Crash
    | Recover(steersMarked: bool, startsMarked: bool, loaded: bool, wc: Write)

  // ---------------------------------------------------------------- store

  function Put(rows: map<nat, Task>, task: Task, w: Write): map<nat, Task> {
    if w.FailedLost? then rows else rows[task.id := task]
  }

  /** Recovery closes whatever had been handed out when the process died. */
  function Marked(task: Task, steers: bool, starts: bool): Task {
    match task.status
    case Steering => if steers then task.(status := SteerUnknown) else task
    case Running => if starts then task.(status := Interrupted) else task
    case WaitingInput => if starts then task.(status := Interrupted) else task
    case _ => task
  }

  function MarkRows(rows: map<nat, Task>, steers: bool, starts: bool): map<nat, Task> {
    map x | x in rows :: Marked(rows[x], steers, starts)
  }

  /** The rows stored as queued among the first `n` ids, in creation order. */
  function QueuedRows(rows: map<nat, Task>, n: nat): seq<Task> {
    if n == 0 then []
    else QueuedRows(rows, n - 1) +
         (if n - 1 in rows && rows[n - 1].status.Queued? then [rows[n - 1]] else [])
  }

  // ---------------------------------------------------------------- queue

  function Ids(q: seq<Task>): seq<nat> {
    seq(|q|, i requires 0 <= i < |q| => q[i].id)
  }

  /** Position of the first item with this id, or |q|. */
  function IndexOf(q: seq<Task>, id: nat): (i: nat)
    ensures i <= |q|
    ensures i < |q| ==> q[i].id == id
    ensures forall j :: 0 <= j < i ==> q[j].id != id
  {
    if q == [] then 0
    else if q[0].id == id then 0
    else 1 + IndexOf(q[1..], id)
  }

  function Without(q: seq<Task>, i: nat): seq<Task>
    requires i < |q|
  {
    q[..i] + q[i + 1..]
  }

  function WriteAt(ws: seq<Write>, i: nat): Write {
    if i < |ws| then ws[i] else Applied
  }

  /** Does `/queue clear` by this user reach this item? */
  predicate Clearable(task: Task, user: nat, admin: bool) {
    task.status.Queued? && (admin || task.controller == user)
  }

  /** Is item `i` of the queue really dropped by the clear? */
  predicate Dropped(q: seq<Task>, i: nat, user: nat, admin: bool, ws: seq<Write>)
    requires i < |q|
  {
    Clearable(q[i], user, admin) && WriteAt(ws, i).Applied?
  }

  /** The clear walks the first `n` items in order; the next three say what is left. */
  function Kept(q: seq<Task>, n: nat, user: nat, admin: bool, ws: seq<Write>): seq<Task>
    requires n <= |q|
  {
    if n == 0 then []
    else Kept(q, n - 1, user, admin, ws) +
         (if Dropped(q, n - 1, user, admin, ws) then [] else [q[n - 1]])
  }

  function ClearedRows(rows: map<nat, Task>, q: seq<Task>, n: nat, user: nat, admin: bool,
                       ws: seq<Write>): map<nat, Task>
    requires n <= |q|
  {
    if n == 0 then rows
    else
      var before := ClearedRows(rows, q, n - 1, user, admin, ws);
      if Clearable(q[n - 1], user, admin)
      then Put(before, q[n - 1].(status := Cancelled), WriteAt(ws, n - 1))
      else before
  }

  function ClearedDone(done: map<nat, Task>, q: seq<Task>, n: nat, user: nat, admin: bool,
                       ws: seq<Write>): map<nat, Task>
    requires n <= |q|
  {
    if n == 0 then done
    else
      var before := ClearedDone(done, q, n - 1, user, admin, ws);
      if Dropped(q, n - 1, user, admin, ws)
      then before[q[n - 1].id := q[n - 1].(status := Cancelled)]
      else before
  }

  // ---------------------------------------------------------------- steps

  /** Nothing was admitted or delivered between these two states of one process. */
  predicate SameHistory(s: Sys, t: Sys) {
    && t.past.log == s.past.log && t.past.life == s.past.life
    && t.past.admitted == s.past.admitted && t.lane.booted == s.lane.booted
    && s.store.nextId <= t.store.nextId
  }

  /** Tasks may have been admitted, but nothing was delivered. */
  predicate GrownHistory(s: Sys, t: Sys) {
    && t.past.log == s.past.log && t.past.life == s.past.life
    && s.past.admitted <= t.past.admitted && t.lane.booted == s.lane.booted
    && s.store.nextId <= t.store.nextId
  }

  /** Commit "running", then take the head of the queue; runs under the lock. */
  function StartNext(s: Sys, w: Write): (t: Sys)
    ensures SameHistory(s, t)
    ensures t.lane.done == s.lane.done && t.work.steers == s.work.steers
    ensures s.lane.steering ==> t.work.runners == s.work.runners
  {
    if s.lane.active.Some? || s.lane.steering || s.lane.queue == [] || !s.lane.live || s.lane.direct.Some? then s
    else
      var ok := w.Applied?;
      var next := s.lane.queue[0].(status := Running);
      var queue := if ok then s.lane.queue[1..] else s.lane.queue;
      var active := if ok then Some(next) else None;
      var runners := if ok then s.work.runners[next.id := false] else s.work.runners;
      s.(store := s.store.(rows := Put(s.store.rows, next, w)),
         lane := s.lane.(queue := queue, active := active, stop := s.lane.stop && !ok),
         work := s.work.(runners := runners),
         past := s.past.(claimFailed := !ok))
  }

  predicate Idle(s: Sys) {
    s.lane.active.None? && !s.lane.steering && s.lane.queue == [] && s.lane.direct.None?
  }

  function DoAdmit(s: Sys, user: nat, w: Write): (t: Sys)
    ensures GrownHistory(s, t)
  {
    if !Idle(s) then s
    else
      var ok := w.Applied?;
      var task := Task(s.store.nextId, None, user, Running);
      var active := if ok then Some(task) else None;
      var runners := if ok then s.work.runners[task.id := false] else s.work.runners;
      var admitted := if ok then s.past.admitted + [task.id] else s.past.admitted;
      s.(store := s.store.(rows := Put(s.store.rows, task, w), nextId := s.store.nextId + 1),
         lane := s.lane.(active := active, stop := s.lane.stop && !ok),
         work := s.work.(runners := runners),
         past := s.past.(admitted := admitted))
  }

  function Joinable(s: Sys): Option<nat> {
    if s.lane.active.Some? then Some(s.lane.active.value.id) else None
  }

  /** The queue with the new item on it, before the next claim. */
  function Appended(s: Sys, user: nat): (t: Sys)
    ensures GrownHistory(s, t)
  {
    var task := Task(s.store.nextId, Joinable(s), user, Queued);
    s.(store := s.store.(rows := s.store.rows[task.id := task], nextId := s.store.nextId + 1),
       lane := s.lane.(queue := s.lane.queue + [task]),
       past := s.past.(admitted := s.past.admitted + [task.id]))
  }

  /** The id of a task whose row could not be created is not used again. */
  function Skipped(s: Sys, task: Task, w: Write): (t: Sys)
    ensures SameHistory(s, t)
  {
    s.(store := s.store.(rows := Put(s.store.rows, task, w), nextId := s.store.nextId + 1),
       past := s.past.(clean := s.past.clean && !(task.status.Queued? && w.FailedApplied?)))
  }

  function DoEnqueue(s: Sys, user: nat, blank: bool, max: nat, w: Write, wc: Write): (t: Sys)
    ensures GrownHistory(s, t)
  {
    if blank || |s.lane.queue| >= max then s
    else if w.Applied? then StartNext(Appended(s, user), wc)
    else Skipped(s, Task(s.store.nextId, Joinable(s), user, Queued), w)
  }

  function RemoveAs(s: Sys, i: nat, status: Status): (t: Sys)
    requires i < |s.lane.queue|
    ensures SameHistory(s, t)
  {
    var task := s.lane.queue[i].(status := status);
    s.(lane := s.lane.(queue := Without(s.lane.queue, i), done := s.lane.done[task.id := task]))
  }

  /** Item `i` after its cancellation was (or was not) written. */
  function CancelledAt(s: Sys, i: nat, w: Write): (t: Sys)
    requires i < |s.lane.queue|
    ensures SameHistory(s, t)
  {
    var task := s.lane.queue[i].(status := Cancelled);
    var queue := if w.Applied? then Without(s.lane.queue, i) else s.lane.queue;
    var done := if w.Applied? then s.lane.done[task.id := task] else s.lane.done;
    s.(store := s.store.(rows := Put(s.store.rows, task, w)), lane := s.lane.(queue := queue, done := done))
  }

  function DoCancel(s: Sys, id: nat, w: Write, wc: Write): (t: Sys)
    ensures SameHistory(s, t)
  {
    var i := IndexOf(s.lane.queue, id);
    if i == |s.lane.queue| || !s.lane.queue[i].status.Queued? then s
    else if w.Applied? then StartNext(CancelledAt(s, i, w), wc)
    else CancelledAt(s, i, w)
  }

  function Cleared(s: Sys, user: nat, admin: bool, ws: seq<Write>): (t: Sys)
    ensures SameHistory(s, t)
  {
    s.(store := s.store.(rows := ClearedRows(s.store.rows, s.lane.queue, |s.lane.queue|, user, admin, ws)),
       lane := s.lane.(done := ClearedDone(s.lane.done, s.lane.queue, |s.lane.queue|, user, admin, ws),
                       queue := Kept(s.lane.queue, |s.lane.queue|, user, admin, ws)))
  }

  function DoClear(s: Sys, user: nat, admin: bool, ws: seq<Write>, wc: Write): (t: Sys)
    ensures SameHistory(s, t)
  {
    StartNext(Cleared(s, user, admin, ws), wc)
  }

  /** May item `i` be steered into the active task now? */
  predicate CanSteer(s: Sys, i: nat)
    requires i < |s.lane.queue|
  {
    && s.lane.queue[i].status.Queued?
    && s.lane.active.Some? && s.lane.queue[i].target == Some(s.lane.active.value.id)
    && !s.lane.steering
  }

  function DoSteerClaim(s: Sys, id: nat, capable: bool, w: Write): (t: Sys)
    ensures SameHistory(s, t)
  {
    var i := IndexOf(s.lane.queue, id);
    if i == |s.lane.queue| || !capable || !CanSteer(s, i) then s
    else
      var ok := w.Applied?;
      var task := s.lane.queue[i].(status := Steering);
      var queue := if ok then s.lane.queue[i := task] else s.lane.queue;
      var steers := if ok then s.work.steers[id := None] else s.work.steers;
      s.(store := s.store.(rows := Put(s.store.rows, task, w)),
         lane := s.lane.(queue := queue, steering := ok),
         work := s.work.(steers := steers))
  }

  function DoSteerReply(s: Sys, id: nat, reply: Reply): Sys {
    if id in s.work.steers && s.work.steers[id].None?
    then s.(work := s.work.(steers := s.work.steers[id := Some(reply)]),
            past := s.past.(log := s.past.log + [Steer(id, reply)]))
    else s
  }

  function SettledStatus(reply: Reply): Status {
    match reply
    case Accepted => Steered
    case Rejected => Queued
    case Ambiguous => SteerUnknown
  }

  /** A rejection that could not be saved is not retried either. */
  function FinalStatus(reply: Reply, w: Write): Status {
    if !w.Applied? && reply.Rejected? then SteerUnknown else SettledStatus(reply)
  }

  /** The answer for item `i`: back to waiting, or out of the queue for good. */
  function SettledAt(s: Sys, i: nat, id: nat, reply: Reply, w: Write): (t: Sys)
    requires i < |s.lane.queue|
    ensures SameHistory(s, t)
  {
    var item := s.lane.queue[i];
    var final := item.(status := FinalStatus(reply, w));
    var queue := if final.status.Queued? then s.lane.queue[i := final] else Without(s.lane.queue, i);
    var done := if final.status.Queued? then s.lane.done else s.lane.done[id := final];
    s.(store := s.store.(rows := Put(s.store.rows, item.(status := SettledStatus(reply)), w)),
       lane := s.lane.(steering := false, queue := queue, done := done),
       work := s.work.(steers := s.work.steers - {id}),
       past := s.past.(clean := s.past.clean && !(reply.Rejected? && w.FailedApplied?)))
  }

  /** Everything the settling section does before it claims the next task. */
  function Settled(s: Sys, id: nat, reply: Reply, w: Write): (t: Sys)
    ensures SameHistory(s, t)
  {
    var i := IndexOf(s.lane.queue, id);
    if i == |s.lane.queue| then s else SettledAt(s, i, id, reply, w)
  }

  function DoSteerSettle(s: Sys, id: nat, w: Write, wc: Write): (t: Sys)
    ensures SameHistory(s, t)
  {
    if id in s.work.steers && s.work.steers[id].Some?
    then StartNext(Settled(s, id, s.work.steers[id].value, w), wc)
    else s
  }

  function DoSend(s: Sys, id: nat): Sys {
    if id in s.work.runners && !s.work.runners[id]
    then s.(work := s.work.(runners := s.work.runners[id := true]), past := s.past.(log := s.past.log + [Launch(id)]))
    else s
  }

  function FinishStatus(stop: bool, cut: bool, err: bool): Status {
    if stop then Interrupted else if err then Failed else if cut then Interrupted else Succeeded
  }

  predicate IsActive(active: Option<Task>, id: nat) {
    active.Some? && active.value.id == id
  }

  function Ended(s: Sys, id: nat, cut: bool, err: bool, w: Write): (t: Sys)
    ensures SameHistory(s, t)
  {
    var mine := IsActive(s.lane.active, id);
    var status := FinishStatus(mine && s.lane.stop, cut, err);
    var task := if mine then s.lane.active.value.(status := status) else Task(id, None, 0, status);
    var active := if mine then None else s.lane.active;
    s.(store := s.store.(rows := Put(s.store.rows, task, w)),
       work := s.work.(runners := s.work.runners - {id}),
       lane := s.lane.(done := s.lane.done[id := task], active := active))
  }

  function DoFinish(s: Sys, id: nat, cut: bool, err: bool, w: Write, wc: Write): (t: Sys)
    ensures SameHistory(s, t)
  {
    if id in s.work.runners then StartNext(Ended(s, id, cut, err, w), wc) else s
  }

  function Shown(task: Task, waiting: bool): Task {
    task.(status := if waiting then WaitingInput else Running)
  }

  function DoTouch(s: Sys, waiting: bool, w: Write): (t: Sys)
    ensures SameHistory(s, t)
  {
    if s.lane.active.None? then s
    else
      var task := Shown(s.lane.active.value, waiting);
      s.(lane := s.lane.(active := Some(task)), store := s.store.(rows := Put(s.store.rows, task, w)))
  }

  function DoSnapshot(s: Sys, waiting: bool): (t: Sys)
    ensures SameHistory(s, t)
  {
    if s.lane.active.None? then s
    else
      var task := Shown(s.lane.active.value, waiting);
      s.(lane := s.lane.(active := Some(task)), work := s.work.(late := s.work.late + {task}))
  }

  function DoLateWrite(s: Sys, task: Task, w: Write): (t: Sys)
    ensures SameHistory(s, t)
  {
    if task in s.work.late then s.(store := s.store.(rows := Put(s.store.rows, task, w))) else s
  }

  /** The in-memory task a card refresh would persist: the item at this place, or one that left the queue. */
  function Known(s: Sys, id: nat, at: nat): Option<Task> {
    if at < |s.lane.queue| && s.lane.queue[at].id == id then Some(s.lane.queue[at])
    else if IsActive(s.lane.active, id) then s.lane.active
    else if id in s.lane.done then Some(s.lane.done[id])
    else None
  }

  function DoRefresh(s: Sys, id: nat, at: nat, w: Write): (t: Sys)
    ensures SameHistory(s, t)
  {
    var known := Known(s, id, at);
    if known.Some? then s.(store := s.store.(rows := Put(s.store.rows, known.value, w))) else s
  }

  function DoBeginDirect(s: Sys, turn: nat): (t: Sys)
    ensures SameHistory(s, t)
  {
    if s.lane.active.Some? || s.lane.direct.Some? then s else s.(lane := s.lane.(direct := Some(turn)))
  }

  function DoEndDirect(s: Sys, turn: nat): (t: Sys)
    ensures SameHistory(s, t)
  {
    var left := if s.lane.direct == Some(turn) then None else s.lane.direct;
    s.(lane := s.lane.(direct := left), work := s.work.(finishing := s.work.finishing + 1))
  }

  function DoWakeAfterDirect(s: Sys, wc: Write): (t: Sys)
    ensures SameHistory(s, t)
  {
    if s.work.finishing == 0 then s else StartNext(s.(work := s.work.(finishing := s.work.finishing - 1)), wc)
  }

  function DoTakeOver(s: Sys, user: nat): (t: Sys)
    ensures SameHistory(s, t)
  {
    if s.lane.active.None? then s
    else
      var task := s.lane.active.value.(controller := user);
      s.(lane := s.lane.(active := Some(task)), work := s.work.(late := s.work.late + {task}))
  }

  function DoStop(s: Sys): (t: Sys)
    ensures SameHistory(s, t)
  {
    s.(lane := s.lane.(stop := s.lane.stop || s.lane.active.Some?))
  }

  /** The channel is detached: its run context is cancelled. */
  function DoShutdown(s: Sys): (t: Sys)
    ensures SameHistory(s, t)
  {
    s.(lane := s.lane.(live := false))
  }

  /** The process dies: only the store (and what already happened) remains. */
  function DoCrash(s: Sys): Sys {
    Sys(s.store, FreshLane, NoWork, Past(false, [], s.past.log, |s.past.log|, s.past.clean))
  }

  function MarkedAll(s: Sys, steers: bool, starts: bool): Sys {
    s.(store := s.store.(rows := MarkRows(s.store.rows, steers, starts)))
  }

  /** Append the stored FIFO to the queue; this runs exactly once, at start-up. */
  function Loaded(s: Sys): (t: Sys) {
    var found := QueuedRows(s.store.rows, s.store.nextId);
    s.(lane := s.lane.(booted := true, queue := s.lane.queue + found),
       past := s.past.(admitted := s.past.admitted + Ids(found)))
  }

  /** Recovery failed: the process goes on without the stored FIFO. */
  function NotLoaded(s: Sys): (t: Sys) {
    s.(lane := s.lane.(booted := true),
       past := s.past.(clean := s.past.clean && QueuedRows(s.store.rows, s.store.nextId) == []))
  }

  function DoRecover(s: Sys, steers: bool, starts: bool, loaded: bool, wc: Write): Sys {
    if steers && starts && loaded
    then StartNext(Loaded(MarkedAll(s, true, true)), wc)
    else NotLoaded(MarkedAll(s, steers, starts))
  }

  /** Recovery runs before the first admission of a process, and only then. */
  predicate Enabled(s: Sys, a: Action) {
    a.Crash? || (if a.Recover? then !s.lane.booted else s.lane.booted)
  }

  function Do(s: Sys, a: Action): Sys {
    if a.Admit? then DoAdmit(s, a.user, a.w)
    else if a.Enqueue? then DoEnqueue(s, a.user, a.blank, a.max, a.w, a.wc)
    else if a.Cancel? then DoCancel(s, a.id, a.w, a.wc)
    else if a.Clear? then DoClear(s, a.user, a.admin, a.ws, a.wc)
    else if a.SteerClaim? then DoSteerClaim(s, a.id, a.capable, a.w)
    else if a.SteerReply? then DoSteerReply(s, a.id, a.reply)
    else if a.SteerSettle? then DoSteerSettle(s, a.id, a.w, a.wc)
    else if a.Send? then DoSend(s, a.id)
    else if a.Finish? then DoFinish(s, a.id, a.cut, a.err, a.w, a.wc)
    else if a.Touch? then DoTouch(s, a.waiting, a.w)
    else if a.Snapshot? then DoSnapshot(s, a.waiting)
    else if a.LateWrite? then DoLateWrite(s, a.task, a.w)
    else if a.Refresh? then DoRefresh(s, a.id, a.at, a.w)
    else if a.BeginDirect? then DoBeginDirect(s, a.turn)
    else if a.EndDirect? then DoEndDirect(s, a.turn)
    else if a.WakeAfterDirect? then DoWakeAfterDirect(s, a.wc)
    else if a.TakeOver? then DoTakeOver(s, a.user)
    else if a.Stop? then DoStop(s)
    else if a.Shutdown? then DoShutdown(s)
    else if a.Crash? then DoCrash(s)
    else DoRecover(s, a.steersMarked, a.startsMarked, a.loaded, a.wc)
  }

  function Step(s: Sys, a: Action): Sys {
    if Enabled(s, a) then Do(s, a) else s
  }

  function Run(s: Sys, acts: seq<Action>): Sys {
    if acts == [] then s else Step(Run(s, acts[..|acts| - 1]), acts[|acts| - 1])
  }
}
