/** The scheduler object: its methods change the records in place, one step each, and every step is
    the step of the state machine in `TaskModel`. */
module TaskSupervisor {
  import opened Basics
  import opened Options
  import opened TaskModel
  import opened TaskInvariants

  datatype SpawnResult = Spawned(task: Task) | Rejected

  lemma OrderListsTasks(s: State)
    requires Valid(s)
    ensures Distinct(s.order) && forall id :: id in s.order <==> id in s.tasks
  {
  }

  class Supervisor {
    const maxConcurrent: nat
    var order: seq<TaskId>
    var tasks: map<TaskId, Task>
    var running: map<TaskId, Option<string>>
    var pending: map<Waiter, TaskId>
    var resolved: map<Waiter, Task>
    var expired: set<Waiter>
    var nextWaiter: Waiter
    var pumpQueued: bool
    var shuttingDown: bool
    /** What the repository last saved. */
    var saved: Snapshot
    ghost var recoveries: map<TaskId, nat>
    ghost var live: bool

    ghost function Value(): State
      reads this
    {
      State(maxConcurrent, order, tasks, running, pending, resolved, expired, nextWaiter, pumpQueued,
            shuttingDown, saved, recoveries, live)
    }

    constructor (maxConcurrent: int, file: Snapshot, ghost recoveries: map<TaskId, nat>)
      requires Valid(Loaded(Max(1, maxConcurrent), file, recoveries))
      ensures Value() == Loaded(Max(1, maxConcurrent), file, recoveries)
    {
      this.maxConcurrent := Max(1, maxConcurrent);
      order, tasks, saved := file.order, file.tasks, file;
      running, pending, resolved, expired, nextWaiter := map[], map[], map[], {}, 0;
      pumpQueued, shuttingDown := false, false;
      this.recoveries, live := recoveries, false;
    }

    // ---------- Private helpers ----------

    method PersistAll()
      modifies this`saved
      ensures Value() == Persist(old(Value()))
    {
      saved := Snapshot(order, tasks);
    }

    method Transition(id: TaskId, task: Task)
      modifies this`tasks, this`saved
      ensures Value() == Update(old(Value()), id, task)
    {
      tasks := tasks[id := task];
      PersistAll();
    }

    method Schedule()
      modifies this`pumpQueued
      ensures Value() == SchedulePump(old(Value()))
    {
      if pumpQueued || shuttingDown {
        return;
      }
      pumpQueued := true;
    }

    method NotifyWaiters(id: TaskId)
      requires id in tasks
      modifies this`pending, this`resolved
      ensures Value() == Notify(old(Value()), id)
    {
      hide WaitersOf;
      var taskWaiters := WaitersOf(pending, id);
      pending := pending - taskWaiters;
      var left := taskWaiters;
      while left != {}
        invariant left <= taskWaiters && pending == old(pending) - taskWaiters
        invariant resolved == old(resolved) + (map w | w in taskWaiters - left :: old(tasks[id]))
        decreases left
      {
        var waiter :| waiter in left;
        resolved := resolved[waiter := tasks[id]];
        left := left - {waiter};
      }
      assert taskWaiters - left == taskWaiters;
      assert resolved == Notify(old(Value()), id).resolved;
    }

    // ---------- Commands ----------

    /** Puts every record that is marked as executing back in the queue. */
    method RequeueRunning()
      requires Distinct(order) && forall id :: id in order <==> id in tasks
      modifies this`tasks
      ensures tasks == RecoveredTasks(old(tasks))
    {
      var i := 0;
      while i < |order|
        invariant 0 <= i <= |order|
        invariant tasks.Keys == old(tasks).Keys
        invariant forall k :: 0 <= k < i ==> tasks[order[k]] == RecoveredTask(old(tasks)[order[k]])
        invariant forall k :: i <= k < |order| ==> tasks[order[k]] == old(tasks)[order[k]]
      {
        var id := order[i];
        var task := tasks[id];
        if task.status.Running? {
          tasks := tasks[id := task.(status := Queued, error := None)];
        }
        i := i + 1;
      }
    }

    method RecoverAfterRestart()
      requires Valid(Value()) && running == map[]
      modifies this
      ensures Value() == Step(old(Value()), Recover) && Valid(Value())
    {
      hide Valid;
      OrderListsTasks(Value());
      StepKeepsValid(Value(), Recover);
      Requeue();
    }

    method Requeue()
      requires Distinct(order) && forall id :: id in order <==> id in tasks
      modifies this
      ensures Value() == RecoverStep(old(Value()))
    {
      hide CountRecovery, RecoveredTasks, RunningIds;
      ghost var s := Value();
      shuttingDown := false;
      RequeueRunning();
      recoveries := CountRecovery(s, RunningIds(s.tasks));
      live := true;
      PersistAll();
      Schedule();
    }

    /** Adds the record at the end of the creation order and lists it with its parent. */
    method AddRecord(ghost c: Command, id: TaskId, task: Task)
      requires c.Spawn? && id == c.id
      requires task == Task(c.parent, [], c.dependencies, c.prompt, Queued, 0, Max(1, c.maxAttempts), None, None)
      modifies this
      ensures Value() == SpawnStep(old(Value()), c)
    {
      order := order + [id];
      tasks := tasks[id := task];
      recoveries := recoveries[id := 0];
      if task.parent.Some? && task.parent.value in tasks {
        var record := tasks[task.parent.value];
        tasks := tasks[task.parent.value := record.(children := record.children + [id])];
      }
      PersistAll();
      Schedule();
    }

    method SpawnTask(id: TaskId, parent: Option<TaskId>, dependencies: seq<TaskId>, prompt: string, maxAttempts: int)
      returns (result: SpawnResult)
      requires Valid(Value()) && id !in tasks
      modifies this
      ensures Value() == Step(old(Value()), Spawn(id, parent, dependencies, prompt, maxAttempts)) && Valid(Value())
      ensures result.Rejected? <==> SpawnRejected(old(Value()), Spawn(id, parent, dependencies, prompt, maxAttempts))
      ensures result.Spawned? ==> id in tasks && result.task == tasks[id]
    {
      hide Valid, SpawnStep;
      ghost var c := Spawn(id, parent, dependencies, prompt, maxAttempts);
      StepKeepsValid(Value(), c);
      if parent.Some? && parent.value !in tasks {
        return Rejected;
      }
      if exists d :: d in dependencies && d !in tasks {
        return Rejected;
      }
      SpawnTasks(Value(), c);
      AddRecord(c, id, Task(parent, [], dependencies, prompt, Queued, 0, Max(1, maxAttempts), None, None));
      return Spawned(tasks[id]);
    }

    method CancelTask(id: TaskId) returns (record: Option<Task>)
      requires Valid(Value())
      modifies this
      ensures Value() == Step(old(Value()), Cancel(id)) && Valid(Value())
      ensures record == if id in tasks then Some(tasks[id]) else None
    {
      hide Valid;
      StepKeepsValid(Value(), Cancel(id));
      if id !in tasks {
        return None;
      }
      var task := tasks[id];
      if task.status.Terminal() {
        return Some(task);
      }
      if task.status.Running? {
        AbortController(id, CANCELLED);
      } else {
        Transition(id, task.(status := Cancelled, error := Some(CANCELLED)));
        NotifyWaiters(id);
      }
      return Some(tasks[id]);
    }

    method AbortController(id: TaskId, reason: string)
      modifies this`running
      ensures Value() == Abort(old(Value()), id, reason)
    {
      if id in running && running[id].None? {
        running := running[id := Some(reason)];
      }
    }

    method RetryTask(id: TaskId) returns (record: Option<Task>)
      requires Valid(Value())
      modifies this
      ensures Value() == Step(old(Value()), Retry(id)) && Valid(Value())
      ensures record == if id in tasks then Some(tasks[id]) else None
    {
      hide Valid;
      StepKeepsValid(Value(), Retry(id));
      if id !in tasks {
        return None;
      }
      var task := tasks[id];
      if !task.status.Terminal() || task.status.Completed? {
        return Some(task);
      }
      Transition(id, task.(maxAttempts := Max(task.maxAttempts, task.attempt + 1), status := Queued, error := None));
      Schedule();
      return Some(tasks[id]);
    }

    /** Registers a waiter; a finished task answers at once, an unknown one is an error. */
    method WaitForTask(id: TaskId) returns (waiter: Option<Waiter>)
      requires Valid(Value())
      modifies this
      ensures Value() == Step(old(Value()), Wait(id)) && Valid(Value())
      ensures waiter == if id in old(tasks) then Some(old(nextWaiter)) else None
    {
      hide Valid;
      StepKeepsValid(Value(), Wait(id));
      if id !in tasks {
        return None;
      }
      waiter := Some(nextWaiter);
      if tasks[id].status.Terminal() {
        resolved := resolved[nextWaiter := tasks[id]];
      } else {
        pending := pending[nextWaiter := id];
      }
      nextWaiter := nextWaiter + 1;
    }

    method WaiterTimesOut(waiter: Waiter)
      requires Valid(Value()) && waiter in pending
      modifies this
      ensures Value() == Step(old(Value()), WaitExpires(waiter)) && Valid(Value())
    {
      hide Valid;
      StepKeepsValid(Value(), WaitExpires(waiter));
      pending := pending - {waiter};
      expired := expired + {waiter};
    }

    method AbortAll(reason: string)
      modifies this`running
      ensures running
              == map id | id in old(running) :: if old(running)[id].None? then Some(reason) else old(running)[id]
    {
      var left := running.Keys;
      while left != {}
        invariant left <= old(running).Keys == running.Keys
        invariant forall id :: id in left ==> running[id] == old(running)[id]
        invariant forall id :: id in running.Keys - left ==>
                    running[id] == if old(running)[id].None? then Some(reason) else old(running)[id]
        decreases left
      {
        var id :| id in left;
        AbortController(id, reason);
        left := left - {id};
      }
    }

    method ShutDown()
      requires Valid(Value())
      modifies this
      ensures Value() == Step(old(Value()), Shutdown) && Valid(Value())
    {
      hide Valid;
      StepKeepsValid(Value(), Shutdown);
      shuttingDown := true;
      AbortAll(SHUTTING_DOWN);
    }

    /** The budget timer of an executing task fires. */
    method Timeout(id: TaskId)
      requires Valid(Value()) && id in running
      modifies this
      ensures Value() == Step(old(Value()), TimerFires(id)) && Valid(Value())
    {
      hide Valid;
      StepKeepsValid(Value(), TimerFires(id));
      AbortController(id, "Task timed out after its budget");
    }

    // ---------- The pump ----------

    method StartTask(id: TaskId)
      requires id in tasks
      modifies this
      ensures Value() == Start(old(Value()), id)
    {
      var task := tasks[id];
      Transition(id, task.(attempt := task.attempt + 1, status := Running, error := None));
      running := running[id := None];
    }

    method VisitTask(id: TaskId)
      modifies this
      ensures Value() == PumpTask(old(Value()), id)
    {
      if id !in tasks || !(tasks[id].status.Queued? || tasks[id].status.Waiting?) {
        return;
      }
      var task := tasks[id];
      if exists d :: d in task.dependencies && DependencyFailed(tasks, d) {
        Transition(id, task.(status := Failed, error := Some(DEPENDENCY_FAILED)));
        NotifyWaiters(id);
        return;
      }
      if exists d :: d in task.dependencies && !DependencyCompleted(tasks, d) {
        if !task.status.Waiting? {
          Transition(id, task.(status := Waiting));
        }
        return;
      }
      StartTask(id);
    }

    /** The queued microtask: one pass over the records in creation order. */
    method RunPump()
      requires Valid(Value()) && pumpQueued
      modifies this
      ensures Value() == Step(old(Value()), Pump) && Valid(Value())
    {
      hide Valid;
      StepKeepsValid(Value(), Pump);
      pumpQueued := false;
      if shuttingDown {
        return;
      }
      ghost var start := Value();
      var ids := order;
      var i := 0;
      while i < |ids|
        invariant 0 <= i <= |ids|
        invariant PumpOver(Value(), ids[i..]) == PumpOver(start, ids)
      {
        if |running| >= maxConcurrent {
          return;
        }
        VisitTask(ids[i]);
        assert ids[i..][1..] == ids[i + 1..];
        i := i + 1;
      }
    }

    // ---------- The end of an execution ----------

    method HandleFailure(id: TaskId, status: Status, message: string)
      requires id in tasks
      modifies this`tasks, this`saved
      ensures Value() == Update(old(Value()), id, EndAttempt(old(Value()), id, status, message))
    {
      var task := tasks[id];
      if task.attempt < task.maxAttempts {
        Transition(id, task.(status := Queued, error := Some(message)));
        return;
      }
      Transition(id, task.(status := status, error := Some(message)));
    }

    method FinalTransition(id: TaskId, ending: Ending)
      requires id in running && id in tasks
      modifies this`tasks, this`saved
      ensures Value() == Update(old(Value()), id, EndedTask(old(Value()), id, ending))
    {
      hide Update, Includes;
      var task := tasks[id];
      match ending {
        case Returned(summary) => Transition(id, task.(status := Completed, result := Some(summary)));
        case Threw(message) =>
          if shuttingDown {
            Transition(id, task.(status := Queued, error := None));
          } else if running[id].Some? && Includes(message, TIMED_OUT) {
            HandleFailure(id, TimedOut, message);
          } else if running[id].Some? {
            Transition(id, task.(status := Cancelled, error := Some(message)));
          } else {
            HandleFailure(id, Failed, message);
          }
      }
    }

    /** The executor returned or threw; the final transition and the clean-up that follows it. */
    method ExecutionEnds(id: TaskId, ending: Ending)
      requires Valid(Value()) && id in running && id in tasks
      modifies this
      ensures Value() == Step(old(Value()), Settle(id, ending)) && Valid(Value())
    {
      hide Valid, Notify, CountRecovery, EndedTask;
      ghost var s := Value();
      StepKeepsValid(s, Settle(id, ending));
      FinalTransition(id, ending);
      if tasks[id].status.Terminal() {
        NotifyWaiters(id);
      }
      if s.shuttingDown && ending.Threw? {
        recoveries := CountRecovery(Value(), {id});
      }
      running := running - {id};
      Schedule();
    }
  }
}
