/** Bounded work: every run of the scheduler's own steps ends, and it ends with all tasks finished. */
module TaskProgress {
  import opened Basics
  import opened Options
  import opened TaskModel
  import opened TaskInvariants
  import opened TaskRuns

  /** Executions a record may still get. */
  function Remaining(t: Task, recovered: nat): nat {
    if t.status.Terminal() || t.attempt > t.maxAttempts + recovered then 0 else t.maxAttempts + recovered - t.attempt
  }

  ghost function Total(order: seq<TaskId>, tasks: map<TaskId, Task>, recoveries: map<TaskId, nat>): nat
    requires forall id :: id in order ==> id in tasks && id in recoveries
  {
    if order == [] then 0
    else Remaining(tasks[order[0]], recoveries[order[0]]) + Total(order[1..], tasks, recoveries)
  }

  lemma {:induction false} TotalUnaffected(order: seq<TaskId>, tasks: map<TaskId, Task>, recoveries: map<TaskId, nat>,
                                           id: TaskId, t: Task)
    requires (forall k :: k in order ==> k in tasks && k in recoveries) && id !in order
    ensures Total(order, tasks[id := t], recoveries) == Total(order, tasks, recoveries)
  {
    if order != [] {
      TotalUnaffected(order[1..], tasks, recoveries, id, t);
    }
  }

  lemma {:induction false} TotalChanges(order: seq<TaskId>, tasks: map<TaskId, Task>, recoveries: map<TaskId, nat>,
                                        id: TaskId, t: Task)
    requires (forall k :: k in order ==> k in tasks && k in recoveries) && Distinct(order) && id in order
    ensures Total(order, tasks[id := t], recoveries)
            == Total(order, tasks, recoveries) - Remaining(tasks[id], recoveries[id]) + Remaining(t, recoveries[id])
  {
    if order[0] == id {
      assert id !in order[1..];
      TotalUnaffected(order[1..], tasks, recoveries, id, t);
    } else {
      TotalChanges(order[1..], tasks, recoveries, id, t);
    }
  }

  ghost predicate Countable(s: State) {
    Distinct(s.order) && forall id :: id in s.order ==> id in s.tasks && id in s.recoveries
  }

  lemma CoreCountable(s: State)
    requires Core(s)
    ensures Countable(s) && (forall id :: id in s.order <==> id in s.tasks) && s.recoveries.Keys == s.tasks.Keys
  {
  }

  ghost function Work(s: State): nat
    requires Countable(s)
  {
    Total(s.order, s.tasks, s.recoveries)
  }

  /** A visit that starts a record uses up one of its executions; no visit adds any. */
  lemma PumpTaskUsesWork(s: State, id: TaskId)
    requires Core(s) && |s.running| < s.maxConcurrent && id in s.tasks
    ensures Core(PumpTask(s, id)) && Countable(s) && Countable(PumpTask(s, id))
    ensures Work(PumpTask(s, id)) + |PumpTask(s, id).running| <= Work(s) + |s.running|
  {
    hide Core, PumpTask, OnlyTaskChanged;
    CoreCountable(s);
    PumpTaskKeepsCore(s, id);
    var r := PumpTask(s, id);
    CoreCountable(r);
    PumpTaskRewrites(s, id);
    PumpTaskStarts(s, id);
    if InLine(s, id) {
      LimitHolds(s, id);
      LimitHolds(r, id);
      TotalChanges(s.order, s.tasks, s.recoveries, id, r.tasks[id]);
    }
  }

  // The four outcomes of a visit, in terms of the attempt and the running set.
  lemma PumpTaskStarts(s: State, id: TaskId)
    requires Core(s) && id in s.tasks
    ensures var r := PumpTask(s, id);
            && r.recoveries == s.recoveries
            && (InLine(s, id) ==>
                  && id in r.tasks && r.tasks[id].maxAttempts == s.tasks[id].maxAttempts
                  && r.tasks[id].attempt - s.tasks[id].attempt == |r.running| - |s.running|
                  && |s.running| <= |r.running| <= |s.running| + 1)
  {
    hide Core, DependencyFailed, DependencyCompleted, FailForDependency, Update, WithinLimit;
    if InLine(s, id) {
      var t := s.tasks[id];
      InLineNotRunning(s, id);
      RunningGrows(s.running, id);
      FailFrame(s, id);
      UpdateFrame(s, id, t.(status := Waiting));
      UpdateFrame(s, id, t.(attempt := t.attempt + 1, status := Running, error := None));
    }
  }

  lemma UpdateFrame(s: State, id: TaskId, t: Task)
    ensures var r := Update(s, id, t);
            && r.recoveries == s.recoveries && r.running == s.running && r.tasks == s.tasks[id := t]
            && r.live == s.live && r.shuttingDown == s.shuttingDown && r.pumpQueued == s.pumpQueued
  {
  }

  lemma FailFrame(s: State, id: TaskId)
    requires id in s.tasks
    ensures var r := FailForDependency(s, id);
            && r.recoveries == s.recoveries && r.running == s.running
            && r.live == s.live && r.shuttingDown == s.shuttingDown && r.pumpQueued == s.pumpQueued
            && r.tasks == s.tasks[id := s.tasks[id].(status := Failed, error := Some(DEPENDENCY_FAILED))]
  {
  }

  lemma {:induction false} PumpOverUsesWork(s: State, ids: seq<TaskId>)
    requires Core(s) && forall id :: id in ids ==> id in s.tasks
    ensures Core(PumpOver(s, ids)) && Countable(s) && Countable(PumpOver(s, ids))
    ensures Work(PumpOver(s, ids)) + |PumpOver(s, ids).running| <= Work(s) + |s.running|
    ensures |PumpOver(s, ids).running| >= |s.running|
    decreases |ids|
  {
    hide Core, PumpTask, Countable, Work;
    CoreCountable(s);
    if ids != [] && |s.running| < s.maxConcurrent {
      var m := PumpTask(s, ids[0]);
      PumpTaskUsesWork(s, ids[0]);
      PumpTaskRewrites(s, ids[0]);
      PumpTaskStarts(s, ids[0]);
      PumpTaskIdle(s, ids[0]);
      PumpOverUsesWork(m, ids[1..]);
    }
  }

  lemma PumpTaskIdle(s: State, id: TaskId)
    ensures !InLine(s, id) ==> PumpTask(s, id) == s
  {
  }

  /** Outside a shutdown, the end of an execution frees its slot and adds no work. */
  lemma SettleUsesWork(s: State, id: TaskId, ending: Ending)
    requires Valid(s) && id in s.running && id in s.tasks && !s.shuttingDown
    ensures Core(SettleStep(s, id, ending)) && Countable(s) && Countable(SettleStep(s, id, ending))
    ensures Work(SettleStep(s, id, ending)) <= Work(s)
    ensures |SettleStep(s, id, ending).running| == |s.running| - 1
  {
    hide Core, SettleStep, Includes, Awake, Busy;
    CoreCountable(s);
    SettleKeepsCore(s, id, ending);
    var r := SettleStep(s, id, ending);
    CoreCountable(r);
    assert IsRunning(s.tasks, id) by { RunningFits(s); }
    SettleRewrites(s, id, ending);
    SettleFrame(s, id, ending);
    TotalChanges(s.order, s.tasks, s.recoveries, id, EndedTask(s, id, ending));
  }

  lemma SettleKeepsCore(s: State, id: TaskId, ending: Ending)
    requires Valid(s) && id in s.running && id in s.tasks
    ensures Core(SettleStep(s, id, ending))
  {
    hide Core, Awake, Busy, SettleStep;
    SettleKeepsValid(s, id, ending);
  }

  lemma NotifyFrame(s: State, id: TaskId)
    requires id in s.tasks
    ensures Notify(s, id).running == s.running && Notify(s, id).recoveries == s.recoveries
  {
  }

  lemma SettleFrame(s: State, id: TaskId, ending: Ending)
    requires id in s.running && id in s.tasks
    ensures var r := SettleStep(s, id, ending);
            && |r.running| == |s.running| - 1 && (!s.shuttingDown ==> r.recoveries == s.recoveries)
  {
    hide EndedTask, Notify, CountRecovery;
    var ended := Update(s, id, EndedTask(s, id, ending));
    NotifyFrame(ended, id);
    assert (s.running - {id}).Keys == s.running.Keys - {id};
    assert |s.running.Keys - {id}| == |s.running.Keys| - 1;
  }

  // ---------- Runs of the scheduler's own steps ----------

  /** The scheduler's own steps: a queued pump, and the end of an execution. */
  predicate Own(c: Command) { c.Pump? || c.Settle? }

  /** Bounds the own steps still to come: per execution a pump, an end and the pump after it. */
  ghost function Potential(s: State): nat
    requires Countable(s)
  {
    3 * Work(s) + 2 * |s.running| + if s.pumpQueued then 1 else 0
  }

  ghost predicate Working(s: State) { Valid(s) && s.live && !s.shuttingDown }

  lemma PumpLowersPotential(s: State)
    requires Working(s) && s.pumpQueued
    ensures Working(Step(s, Pump)) && Countable(s) && Countable(Step(s, Pump))
    ensures Potential(Step(s, Pump)) < Potential(s)
  {
    hide Valid, Core, PumpOver, Work, Countable;
    StepKeepsValid(s, Pump);
    var next := s.(pumpQueued := false);
    assert Core(next) by { ClearedQueue(s); }
    CoreCountable(next);
    PumpOverUsesWork(next, s.order);
    PumpOverFrame(next, s.order);
    SameWork(s, next);
  }

  lemma ClearedQueue(s: State)
    requires Valid(s)
    ensures Core(s.(pumpQueued := false))
  {
  }

  lemma SameWork(s: State, r: State)
    requires r.order == s.order && r.tasks == s.tasks && r.recoveries == s.recoveries && Countable(r)
    ensures Countable(s) && Work(s) == Work(r)
  {
  }

  lemma {:induction false} PumpOverFrame(s: State, ids: seq<TaskId>)
    ensures var r := PumpOver(s, ids);
            r.live == s.live && r.shuttingDown == s.shuttingDown && r.pumpQueued == s.pumpQueued
    decreases |ids|
  {
    hide PumpTask;
    if ids != [] && |s.running| < s.maxConcurrent {
      PumpTaskFlags(s, ids[0]);
      PumpOverFrame(PumpTask(s, ids[0]), ids[1..]);
    }
  }

  lemma PumpTaskFlags(s: State, id: TaskId)
    ensures var r := PumpTask(s, id);
            r.live == s.live && r.shuttingDown == s.shuttingDown && r.pumpQueued == s.pumpQueued
  {
    hide DependencyFailed, DependencyCompleted, FailForDependency, Update;
    if InLine(s, id) {
      var t := s.tasks[id];
      FailFrame(s, id);
      UpdateFrame(s, id, t.(status := Waiting));
      UpdateFrame(s, id, t.(attempt := t.attempt + 1, status := Running, error := None));
    }
  }

  lemma SettleLowersPotential(s: State, id: TaskId, ending: Ending)
    requires Working(s) && id in s.running && id in s.tasks
    ensures var r := Step(s, Settle(id, ending));
            Working(r) && Countable(s) && Countable(r) && Potential(r) < Potential(s)
  {
    hide Valid, Work, Countable;
    StepKeepsValid(s, Settle(id, ending));
    SettleUsesWork(s, id, ending);
    SettleFlags(s, id, ending);
  }

  lemma SettleFlags(s: State, id: TaskId, ending: Ending)
    requires id in s.running && id in s.tasks
    ensures var r := SettleStep(s, id, ending); r.live == s.live && r.shuttingDown == s.shuttingDown
  {
    hide EndedTask;
  }

  /** Every run of own steps is at most `Potential` steps long. When no own step is possible any more,
      every task is finished: nothing waits for a wake-up that never comes. */
  lemma {:induction false} OwnRunsEnd(s: State, run: seq<Command>)
    requires Working(s) && Runnable(s, run) && forall c :: c in run ==> Own(c)
    ensures Countable(s) && |run| <= Potential(s)
    ensures Working(Run(s, run))
    ensures (forall c :: Own(c) ==> !Enabled(Run(s, run), c)) ==> AllTerminal(Run(s, run))
    decreases |run|
  {
    hide Valid, Step, Potential, Countable;
    ValidCountable(s);
    if run == [] {
      IdleMeansDone(s);
    } else {
      OwnStepLowersPotential(s, run[0]);
      OwnRunsEnd(Step(s, run[0]), run[1..]);
    }
  }

  lemma ValidCountable(s: State)
    requires Valid(s)
    ensures Countable(s)
  {
    CoreCountable(s);
  }

  lemma OwnStepLowersPotential(s: State, c: Command)
    requires Working(s) && Own(c) && Enabled(s, c)
    ensures Working(Step(s, c)) && Countable(s) && Countable(Step(s, c)) && Potential(Step(s, c)) < Potential(s)
  {
    hide Valid, Step, Potential, Countable;
    if c.Pump? {
      PumpLowersPotential(s);
    } else {
      SettleLowersPotential(s, c.id, c.ending);
    }
  }

  lemma IdleMeansDone(s: State)
    requires Working(s)
    ensures (forall c :: Own(c) ==> !Enabled(s, c)) ==> AllTerminal(s)
  {
    assert Own(Pump);
    if s.running != map[] {
      var id :| id in s.running;
      assert IsRunning(s.tasks, id);
      assert Own(Settle(id, Returned(""))) && Enabled(s, Settle(id, Returned("")));
    }
  }

  /** From every working state some run of own steps finishes every task. */
  lemma {:induction false} WorkCanFinish(s: State) returns (run: seq<Command>)
    requires Working(s)
    ensures Runnable(s, run) && (forall c :: c in run ==> Own(c)) && AllTerminal(Run(s, run))
    decreases (ValidCountable(s); Potential(s))
  {
    hide Valid, Step, Potential, Countable;
    IdleMeansDone(s);
    if forall c :: Own(c) ==> !Enabled(s, c) {
      run := [];
    } else {
      var c :| Own(c) && Enabled(s, c);
      OwnStepLowersPotential(s, c);
      var rest := WorkCanFinish(Step(s, c));
      run := [c] + rest;
    }
  }
}
