/** The task scheduler as a state machine: what each step of `TaskSupervisor` does to its records,
    its running set and its waiters, and what every step keeps. */
module TaskModel {
  import opened Basics
  import opened Options

  type TaskId = string
  type Waiter = nat

  datatype Status = Queued | Waiting | Running | Completed | Failed | Cancelled | TimedOut {
    predicate Terminal() { Completed? || Failed? || Cancelled? || TimedOut? }
  }

  datatype Task = Task(
    parent: Option<TaskId>,
    children: seq<TaskId>,
    dependencies: seq<TaskId>,
    prompt: string,
    status: Status,
    attempt: nat,
    maxAttempts: nat,
    error: Option<string>,
    result: Option<string>)

  /** How an execution ended: with a result, or with an error message. */
  datatype Ending = Returned(summary: string) | Threw(message: string)

  /** The saved file: the records in creation order. */
  datatype Snapshot = Snapshot(order: seq<TaskId>, tasks: map<TaskId, Task>)

  /** `running` maps each executing task to the reason its controller was aborted with, if it was.
      `recoveries` counts how often a task was put back in the queue by a shutdown or a restart, and
      `live` says that recovery has run since the records were loaded; neither influences a step. */
  datatype State = State(
    maxConcurrent: nat,
    order: seq<TaskId>,
    tasks: map<TaskId, Task>,
    running: map<TaskId, Option<string>>,
    pending: map<Waiter, TaskId>,
    resolved: map<Waiter, Task>,
    expired: set<Waiter>,
    nextWaiter: Waiter,
    pumpQueued: bool,
    shuttingDown: bool,
    saved: Snapshot,
    recoveries: map<TaskId, nat>,
    live: bool)

  datatype Command =
    | Spawn(id: TaskId, parent: Option<TaskId>, dependencies: seq<TaskId>, prompt: string, maxAttempts: int)
    | Cancel(id: TaskId)
    | Retry(id: TaskId)
    | Wait(id: TaskId)
    | WaitExpires(waiter: Waiter)
    | Pump
    | TimerFires(id: TaskId)
    | Settle(id: TaskId, ending: Ending)
    | Shutdown
    | Recover
    | Crash

  const CANCELLED := "Task cancelled"
  const SHUTTING_DOWN := "Orchestrator shutting down"
  const TIMED_OUT := "timed out"
  const DEPENDENCY_FAILED := "A dependency did not complete successfully"

  predicate Includes(text: string, part: string) {
    part <= text || (text != [] && Includes(text[1..], part))
  }

  // ---------- Steps ----------

  function Persist(s: State): State { s.(saved := Snapshot(s.order, s.tasks)) }

  function Update(s: State, id: TaskId, task: Task): State { Persist(s.(tasks := s.tasks[id := task])) }

  function SchedulePump(s: State): State { s.(pumpQueued := s.pumpQueued || !s.shuttingDown) }

  function WaitersOf(pending: map<Waiter, TaskId>, id: TaskId): set<Waiter> {
    set w | w in pending && pending[w] == id
  }

  /** Resolves every waiter of the task with its record. */
  function Notify(s: State, id: TaskId): State
    requires id in s.tasks
  {
    var told := WaitersOf(s.pending, id);
    s.(resolved := s.resolved + (map w | w in told :: s.tasks[id]), pending := s.pending - told)
  }

  function Abort(s: State, id: TaskId, reason: string): State {
    if id in s.running && s.running[id].None? then s.(running := s.running[id := Some(reason)]) else s
  }

  predicate DependencyFailed(tasks: map<TaskId, Task>, d: TaskId) {
    d !in tasks || (tasks[d].status.Terminal() && !tasks[d].status.Completed?)
  }

  predicate DependencyCompleted(tasks: map<TaskId, Task>, d: TaskId) { d in tasks && tasks[d].status.Completed? }

  predicate CanStart(s: State, id: TaskId)
    requires id in s.tasks
  {
    && (s.tasks[id].status.Queued? || s.tasks[id].status.Waiting?)
    && forall d :: d in s.tasks[id].dependencies ==> DependencyCompleted(s.tasks, d)
  }

  function Start(s: State, id: TaskId): State
    requires id in s.tasks
  {
    var t := s.tasks[id];
    Update(s, id, t.(attempt := t.attempt + 1, status := Running, error := None)).(running := s.running[id := None])
  }

  function FailForDependency(s: State, id: TaskId): State
    requires id in s.tasks
  {
    Notify(Update(s, id, s.tasks[id].(status := Failed, error := Some(DEPENDENCY_FAILED))), id)
  }

  function PumpTask(s: State, id: TaskId): State {
    if id !in s.tasks || !(s.tasks[id].status.Queued? || s.tasks[id].status.Waiting?) then s
    else
      var t := s.tasks[id];
      if exists d :: d in t.dependencies && DependencyFailed(s.tasks, d) then FailForDependency(s, id)
      else if exists d :: d in t.dependencies && !DependencyCompleted(s.tasks, d) then
        if t.status.Waiting? then s else Update(s, id, t.(status := Waiting))
      else Start(s, id)
  }

  /** A pass over the given records; it stops when the concurrency limit is reached. */
  function PumpOver(s: State, ids: seq<TaskId>): State
    decreases |ids|
  {
    if ids == [] || |s.running| >= s.maxConcurrent then s
    else PumpOver(PumpTask(s, ids[0]), ids[1..])
  }

  function EndAttempt(s: State, id: TaskId, failure: Status, message: string): Task
    requires id in s.tasks
  {
    var t := s.tasks[id];
    t.(status := if t.attempt < t.maxAttempts then Queued else failure, error := Some(message))
  }

  function EndedTask(s: State, id: TaskId, ending: Ending): Task
    requires id in s.tasks && id in s.running
  {
    var t := s.tasks[id];
    match ending
    case Returned(summary) => t.(status := Completed, result := Some(summary))
    case Threw(message) =>
      if s.shuttingDown then t.(status := Queued, error := None)
      else if s.running[id].Some? && Includes(message, TIMED_OUT) then EndAttempt(s, id, TimedOut, message)
      else if s.running[id].Some? then t.(status := Cancelled, error := Some(message))
      else EndAttempt(s, id, Failed, message)
  }

  function CountRecovery(s: State, ids: set<TaskId>): map<TaskId, nat> {
    map id | id in s.recoveries :: if id in ids then s.recoveries[id] + 1 else s.recoveries[id]
  }

  function SettleStep(s: State, id: TaskId, ending: Ending): State
    requires id in s.tasks && id in s.running
  {
    var ended := Update(s, id, EndedTask(s, id, ending));
    var told := if ended.tasks[id].status.Terminal() then Notify(ended, id) else ended;
    var counted := if s.shuttingDown && ending.Threw? then told.(recoveries := CountRecovery(told, {id})) else told;
    SchedulePump(counted.(running := counted.running - {id}))
  }

  function AddChild(s: State, parent: Option<TaskId>, id: TaskId): map<TaskId, Task> {
    if parent.Some? && parent.value in s.tasks
    then s.tasks[parent.value := s.tasks[parent.value].(children := s.tasks[parent.value].children + [id])]
    else s.tasks
  }

  predicate SpawnRejected(s: State, c: Command)
    requires c.Spawn?
  {
    || (c.parent.Some? && c.parent.value !in s.tasks)
    || exists d :: d in c.dependencies && d !in s.tasks
  }

  function SpawnStep(s: State, c: Command): State
    requires c.Spawn?
  {
    var t := Task(c.parent, [], c.dependencies, c.prompt, Queued, 0, Max(1, c.maxAttempts), None, None);
    var added := s.(order := s.order + [c.id], tasks := s.tasks[c.id := t], recoveries := s.recoveries[c.id := 0]);
    SchedulePump(Persist(added.(tasks := AddChild(added, c.parent, c.id))))
  }

  function WaitStep(s: State, id: TaskId): State
    requires id in s.tasks
  {
    var done := s.tasks[id].status.Terminal();
    s.(nextWaiter := s.nextWaiter + 1,
       resolved := if done then s.resolved[s.nextWaiter := s.tasks[id]] else s.resolved,
       pending := if done then s.pending else s.pending[s.nextWaiter := id])
  }

  function ExpireStep(s: State, w: Waiter): State {
    s.(pending := s.pending - {w}, expired := s.expired + {w})
  }

  function RecoveredTask(t: Task): Task {
    if t.status.Running? then t.(status := Queued, error := None) else t
  }

  function RecoveredTasks(tasks: map<TaskId, Task>): map<TaskId, Task> {
    map id | id in tasks :: RecoveredTask(tasks[id])
  }

  function RunningIds(tasks: map<TaskId, Task>): set<TaskId> { set id | id in tasks && tasks[id].status.Running? }

  function RecoverStep(s: State): State {
    SchedulePump(Persist(s.(
      shuttingDown := false,
      tasks := RecoveredTasks(s.tasks),
      recoveries := CountRecovery(s, RunningIds(s.tasks)),
      live := true)))
  }

  /** A new supervisor over a saved file. */
  function Loaded(maxConcurrent: nat, saved: Snapshot, recoveries: map<TaskId, nat>): State {
    State(maxConcurrent, saved.order, saved.tasks, map[], map[], map[], {}, 0, false, false, saved, recoveries, false)
  }

  /** A task id is drawn fresh; only executing tasks settle or hit their timer; recovery runs when
      nothing executes. */
  predicate Enabled(s: State, c: Command) {
    match c
    case Spawn(id, _, _, _, _) => id !in s.tasks
    case WaitExpires(w) => w in s.pending
    case Pump => s.pumpQueued
    case TimerFires(id) => id in s.running
    case Settle(id, _) => id in s.running && id in s.tasks
    case Recover => s.running == map[]
    case _ => true
  }

  function Step(s: State, c: Command): State
    requires Enabled(s, c)
  {
    match c
    case Spawn(_, _, _, _, _) => if SpawnRejected(s, c) then s else SpawnStep(s, c)
    case Cancel(id) =>
      if id !in s.tasks || s.tasks[id].status.Terminal() then s
      else if s.tasks[id].status.Running? then Abort(s, id, CANCELLED)
      else Notify(Update(s, id, s.tasks[id].(status := Cancelled, error := Some(CANCELLED))), id)
    case Retry(id) =>
      if id !in s.tasks || !s.tasks[id].status.Terminal() || s.tasks[id].status.Completed? then s
      else
        var t := s.tasks[id];
        SchedulePump(Update(s, id,
                            t.(maxAttempts := Max(t.maxAttempts, t.attempt + 1), status := Queued, error := None)))
    case Wait(id) => if id in s.tasks then WaitStep(s, id) else s
    case WaitExpires(w) => ExpireStep(s, w)
    case Pump => if s.shuttingDown then s.(pumpQueued := false) else PumpOver(s.(pumpQueued := false), s.order)
    case TimerFires(id) => Abort(s, id, "Task timed out after its budget")
    case Settle(id, ending) => SettleStep(s, id, ending)
    case Shutdown =>
      s.(shuttingDown := true,
         running := map id | id in s.running :: if s.running[id].None? then Some(SHUTTING_DOWN) else s.running[id])
    case Recover => RecoverStep(s)
    case Crash => Loaded(s.maxConcurrent, s.saved, s.recoveries)
  }

  // ---------- What every step keeps ----------

  ghost predicate Earlier(order: seq<TaskId>, d: TaskId, i: nat)
    requires i <= |order|
  {
    d in order[..i]
  }

  ghost predicate DependenciesEarlier(order: seq<TaskId>, tasks: map<TaskId, Task>) {
    forall i, d :: 0 <= i < |order| && order[i] in tasks && d in tasks[order[i]].dependencies ==> Earlier(order, d, i)
  }

  ghost predicate ParentsEarlier(order: seq<TaskId>, tasks: map<TaskId, Task>) {
    forall i :: 0 <= i < |order| && order[i] in tasks && tasks[order[i]].parent.Some? ==>
      Earlier(order, tasks[order[i]].parent.value, i)
  }

  ghost predicate IsChildOf(tasks: map<TaskId, Task>, c: TaskId, p: TaskId) {
    c in tasks && tasks[c].parent == Some(p)
  }

  ghost predicate ChildrenMatch(tasks: map<TaskId, Task>) {
    forall p, c :: p in tasks ==> (c in tasks[p].children <==> IsChildOf(tasks, c, p))
  }

  /** Creation order lists every record once, and dependencies, parents and children agree with it. */
  ghost predicate Linked(order: seq<TaskId>, tasks: map<TaskId, Task>) {
    && Distinct(order)
    && (forall id :: id in order <==> id in tasks)
    && DependenciesEarlier(order, tasks)
    && ParentsEarlier(order, tasks)
    && ChildrenMatch(tasks)
  }

  /** A task that has ever started has all its dependencies completed. */
  ghost predicate StartedAfterDependencies(tasks: map<TaskId, Task>) {
    forall id, d :: id in tasks && tasks[id].attempt > 0 && d in tasks[id].dependencies ==>
      d in tasks && tasks[d].status.Completed?
  }

  ghost predicate WithinLimit(t: Task, recovered: nat) {
    && t.attempt <= t.maxAttempts + recovered
    && (t.status.Queued? || t.status.Waiting? ==> t.attempt < t.maxAttempts + recovered)
  }

  /** Attempts stay within the limit plus the recoveries, with one to spare while not executing. */
  ghost predicate AttemptsBounded(tasks: map<TaskId, Task>, recoveries: map<TaskId, nat>) {
    && recoveries.Keys == tasks.Keys
    && forall id :: id in tasks ==> WithinLimit(tasks[id], recoveries[id])
  }

  ghost predicate IsRunning(tasks: map<TaskId, Task>, id: TaskId) { id in tasks && tasks[id].status.Running? }

  ghost predicate RunningExact(running: map<TaskId, Option<string>>, tasks: map<TaskId, Task>, live: bool) {
    && (forall id :: id in running ==> IsRunning(tasks, id))
    && (live ==> forall id :: IsRunning(tasks, id) ==> id in running)
  }

  ghost predicate Unfinished(tasks: map<TaskId, Task>, id: TaskId) { id in tasks && !tasks[id].status.Terminal() }

  /** Every waiter ever created is exactly one of pending on an unfinished task, resolved with a
      finished record, or expired. */
  ghost predicate WaitersAccounted(pending: map<Waiter, TaskId>, resolved: map<Waiter, Task>, expired: set<Waiter>,
                                   next: Waiter, tasks: map<TaskId, Task>) {
    && (forall w :: w in pending ==> Unfinished(tasks, pending[w]))
    && (forall w :: w in resolved ==> resolved[w].status.Terminal())
    && pending.Keys !! resolved.Keys
    && expired !! pending.Keys
    && expired !! resolved.Keys
    && (forall w: Waiter :: w < next <==> w in pending.Keys + resolved.Keys + expired)
  }

  ghost predicate AllTerminal(s: State) {
    forall id :: id in s.tasks ==> s.tasks[id].status.Terminal()
  }

  /** No wake-up is lost: while a task is unfinished, a pump is queued or something executes. */
  ghost predicate Awake(s: State) {
    s.live && !s.shuttingDown && !s.pumpQueued && s.running == map[] ==> AllTerminal(s)
  }

  /** No capacity is wasted: without a queued pump, a task that could start only waits for a slot. */
  ghost predicate Busy(s: State) {
    s.live && !s.shuttingDown && !s.pumpQueued && |s.running| < s.maxConcurrent ==>
      forall id :: id in s.tasks ==> !CanStart(s, id)
  }

  ghost predicate Core(s: State) {
    && Linked(s.order, s.tasks)
    && StartedAfterDependencies(s.tasks)
    && AttemptsBounded(s.tasks, s.recoveries)
    && |s.running| <= s.maxConcurrent && 1 <= s.maxConcurrent
    && RunningExact(s.running, s.tasks, s.live)
    && WaitersAccounted(s.pending, s.resolved, s.expired, s.nextWaiter, s.tasks)
    && s.saved == Snapshot(s.order, s.tasks)
  }

  ghost predicate Valid(s: State) { Core(s) && Awake(s) && Busy(s) }
}
