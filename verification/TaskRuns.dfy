/** What holds over whole runs of the scheduler: safety, conservation across restarts, termination. */
module TaskRuns {
  import opened Basics
  import opened Options
  import opened TaskModel
  import opened TaskInvariants

  ghost predicate Runnable(s: State, run: seq<Command>)
    decreases |run|
  {
    run == [] || (Enabled(s, run[0]) && Runnable(Step(s, run[0]), run[1..]))
  }

  ghost function Run(s: State, run: seq<Command>): State
    requires Runnable(s, run)
    decreases |run|
  {
    if run == [] then s else Run(Step(s, run[0]), run[1..])
  }

  /** All invariants hold in every reachable state. */
  lemma {:induction false} RunKeepsValid(s: State, run: seq<Command>)
    requires Valid(s) && Runnable(s, run)
    ensures Valid(Run(s, run))
    decreases |run|
  {
    if run != [] {
      StepKeepsValid(s, run[0]);
      RunKeepsValid(Step(s, run[0]), run[1..]);
    }
  }

  lemma InitialIsValid(maxConcurrent: nat)
    requires 1 <= maxConcurrent
    ensures Valid(Loaded(maxConcurrent, Snapshot([], map[]), map[]))
  {
  }

  // ---------- Nothing is lost or rewritten ----------

  /** A record keeps its identity; its attempts only grow; once completed it is never touched again
      except to list further children. */
  ghost predicate TaskEvolves(a: Task, b: Task) {
    && a.parent == b.parent && a.dependencies == b.dependencies && a.prompt == b.prompt
    && a.children <= b.children && a.attempt <= b.attempt
    && (a.status.Completed? ==> b == a.(children := b.children))
  }

  ghost predicate Evolves(s: State, r: State) {
    && s.order <= r.order
    && forall id :: id in s.tasks ==> id in r.tasks && TaskEvolves(s.tasks[id], r.tasks[id])
  }

  lemma EvolvesTransitive(s: State, m: State, r: State)
    requires Evolves(s, m) && Evolves(m, r)
    ensures Evolves(s, r)
  {
    forall id | id in s.tasks ensures id in r.tasks && TaskEvolves(s.tasks[id], r.tasks[id]) {
      assert TaskEvolves(s.tasks[id], m.tasks[id]) && TaskEvolves(m.tasks[id], r.tasks[id]);
    }
  }

  // One record rewritten, consistently with its history.
  lemma RewriteEvolves(s: State, r: State, id: TaskId, t: Task)
    requires id in s.tasks && r.order == s.order && r.tasks == s.tasks[id := t] && TaskEvolves(s.tasks[id], t)
    ensures Evolves(s, r)
  {
  }

  lemma UpdateRewrites(s: State, id: TaskId, t: Task)
    ensures Update(s, id, t).order == s.order && Update(s, id, t).tasks == s.tasks[id := t]
  {
  }

  lemma NotifyRewrites(s: State, id: TaskId)
    requires id in s.tasks
    ensures Notify(s, id).order == s.order && Notify(s, id).tasks == s.tasks
  {
  }

  // A visit rewrites at most the visited record, and only if it was in line.
  lemma PumpTaskRewrites(s: State, id: TaskId)
    ensures var r := PumpTask(s, id);
            && r.order == s.order
            && if InLine(s, id)
               then id in r.tasks && r.tasks == s.tasks[id := r.tasks[id]] && TaskEvolves(s.tasks[id], r.tasks[id])
               else r == s
  {
    hide DependencyFailed, DependencyCompleted, Update, Notify;
    if InLine(s, id) {
      var t := s.tasks[id];
      var failed := t.(status := Failed, error := Some(DEPENDENCY_FAILED));
      UpdateRewrites(s, id, failed);
      NotifyRewrites(Update(s, id, failed), id);
      UpdateRewrites(s, id, t.(status := Waiting));
      UpdateRewrites(s, id, t.(attempt := t.attempt + 1, status := Running, error := None));
    }
  }

  lemma PumpTaskEvolves(s: State, id: TaskId)
    ensures Evolves(s, PumpTask(s, id))
  {
    hide PumpTask;
    PumpTaskRewrites(s, id);
    if InLine(s, id) {
      RewriteEvolves(s, PumpTask(s, id), id, PumpTask(s, id).tasks[id]);
    }
  }

  lemma {:induction false} PumpOverEvolves(s: State, ids: seq<TaskId>)
    ensures Evolves(s, PumpOver(s, ids))
    decreases |ids|
  {
    hide PumpTask;
    if ids != [] && |s.running| < s.maxConcurrent {
      var next := PumpTask(s, ids[0]);
      PumpTaskEvolves(s, ids[0]);
      PumpOverEvolves(next, ids[1..]);
      EvolvesTransitive(s, next, PumpOver(next, ids[1..]));
    }
  }

  lemma SettleRewrites(s: State, id: TaskId, ending: Ending)
    requires id in s.running && IsRunning(s.tasks, id)
    ensures var r := SettleStep(s, id, ending);
            r.order == s.order && r.tasks == s.tasks[id := EndedTask(s, id, ending)]
  {
    hide EndedTask, Includes;
  }

  lemma SettleEvolves(s: State, id: TaskId, ending: Ending)
    requires id in s.running && IsRunning(s.tasks, id)
    ensures Evolves(s, SettleStep(s, id, ending))
  {
    hide SettleStep, Includes;
    SettleRewrites(s, id, ending);
    RewriteEvolves(s, SettleStep(s, id, ending), id, EndedTask(s, id, ending));
  }

  lemma ValidBasics(s: State)
    requires Valid(s)
    ensures s.saved == Snapshot(s.order, s.tasks)
    ensures forall id :: id in s.running ==> IsRunning(s.tasks, id)
    ensures forall id :: id in s.order <==> id in s.tasks
  {
  }

  // The rewriting steps of a caller.
  lemma CommandRewrites(s: State, c: Command)
    requires c.Cancel? || c.Retry?
    ensures var r := Step(s, c);
            && r.order == s.order
            && (r.tasks == s.tasks
                || (&& c.id in s.tasks && r.tasks == s.tasks[c.id := r.tasks[c.id]]
                    && TaskEvolves(s.tasks[c.id], r.tasks[c.id])
                    && (c.Cancel? ==> !s.tasks[c.id].status.Terminal())))
  {
    hide Update, Notify;
    if c.id in s.tasks {
      var t := s.tasks[c.id];
      if c.Cancel? {
        var cancelled := t.(status := Cancelled, error := Some(CANCELLED));
        UpdateRewrites(s, c.id, cancelled);
        NotifyRewrites(Update(s, c.id, cancelled), c.id);
      } else {
        UpdateRewrites(s, c.id, t.(maxAttempts := Max(t.maxAttempts, t.attempt + 1), status := Queued, error := None));
      }
    }
  }

  lemma RecoverEvolves(s: State)
    ensures Evolves(s, RecoverStep(s))
  {
    hide CountRecovery;
  }

  lemma AbortRewrites(s: State, id: TaskId, reason: string)
    ensures Abort(s, id, reason).order == s.order && Abort(s, id, reason).tasks == s.tasks
  {
  }

  lemma StepEvolves(s: State, c: Command)
    requires Valid(s) && Enabled(s, c)
    ensures Evolves(s, Step(s, c))
  {
    hide Valid, PumpOver, SettleStep, SpawnStep, Update, Notify, RecoverStep, Abort;
    ValidBasics(s);
    match c
    case Recover => RecoverEvolves(s);
    case TimerFires(id) => AbortRewrites(s, id, "Task timed out after its budget");
    case Spawn(id, _, _, _, _) =>
      if !SpawnRejected(s, c) {
        SpawnTasks(s, c);
        SpawnAppends(s, c);
      }
    case Pump => PumpOverEvolves(s.(pumpQueued := false), s.order);
    case Settle(id, ending) => SettleEvolves(s, id, ending);
    case Cancel(id) => CommandRewrites(s, c);
    case Retry(id) => CommandRewrites(s, c);
    case _ =>
  }

  lemma SpawnAppends(s: State, c: Command)
    requires c.Spawn?
    ensures SpawnStep(s, c).order == s.order + [c.id]
  {
  }

  /** Over any run, crashes and restarts included, every record survives with its links, and a completed
      record keeps its result for good. */
  lemma {:induction false} RunEvolves(s: State, run: seq<Command>)
    requires Valid(s) && Runnable(s, run)
    ensures Evolves(s, Run(s, run))
    decreases |run|
  {
    if run != [] {
      var next := Step(s, run[0]);
      StepKeepsValid(s, run[0]);
      StepEvolves(s, run[0]);
      RunEvolves(next, run[1..]);
      EvolvesTransitive(s, next, Run(next, run[1..]));
    }
  }

  /** A task that has ever started has every dependency completed, then and in all later states. */
  lemma StartedStaysJustified(s: State, run: seq<Command>, id: TaskId, d: TaskId)
    requires Valid(s) && Runnable(s, run)
    requires id in s.tasks && s.tasks[id].attempt > 0 && d in s.tasks[id].dependencies
    ensures DependencyCompleted(s.tasks, d) && DependencyCompleted(Run(s, run).tasks, d)
    ensures id in Run(s, run).tasks && Run(s, run).tasks[id].attempt > 0
  {
    RunEvolves(s, run);
    assert TaskEvolves(s.tasks[id], Run(s, run).tasks[id]) && TaskEvolves(s.tasks[d], Run(s, run).tasks[d]);
  }

  // ---------- Restart recovery ----------

  /** No task executes and every unfinished one is in the queue. */
  ghost predicate AllInLine(s: State) {
    forall id :: id in s.tasks ==> s.tasks[id].status.Terminal() || InLine(s, id)
  }

  /** Killing the process after any step and starting again keeps every record: finished ones are
      unchanged, executing ones are back in the queue, all others are as they were. */
  lemma CrashRecoveryConserves(s: State)
    requires Valid(s)
    ensures Enabled(Step(s, Crash), Recover)
    ensures var r := Step(Step(s, Crash), Recover);
            && r.order == s.order && r.tasks.Keys == s.tasks.Keys
            && (forall id :: id in s.tasks ==>
                  && SameLinks(s.tasks[id], r.tasks[id]) && r.tasks[id].attempt == s.tasks[id].attempt
                  && (!s.tasks[id].status.Running? ==> r.tasks[id] == s.tasks[id])
                  && (s.tasks[id].status.Running? ==> r.tasks[id].status.Queued?))
            && AllInLine(r) && r.pumpQueued && r.saved == Snapshot(r.order, r.tasks)
  {
    hide Linked, StartedAfterDependencies, AttemptsBounded, RunningExact, WaitersAccounted, Awake, Busy, CountRecovery;
  }

  /** Once a shutdown has settled, nothing is left marked as executing. */
  lemma SettledShutdownIsInLine(s: State)
    requires Valid(s) && s.live && s.running == map[]
    ensures AllInLine(s)
  {
    forall id | id in s.tasks && !s.tasks[id].status.Terminal() ensures InLine(s, id) {
      assert IsRunning(s.tasks, id) ==> id in s.running;
    }
  }

  /** Only an explicit retry reopens a finished task. */
  lemma FinishedStaysFinished(s: State, c: Command, id: TaskId)
    requires Valid(s) && Enabled(s, c) && Finished(s, id) && c != Retry(id)
    ensures id in Step(s, c).tasks && Step(s, c).tasks[id] == s.tasks[id].(children := Step(s, c).tasks[id].children)
  {
    hide Valid, PumpOver, SettleStep, SpawnStep, EndedTask;
    ValidBasics(s);
    match c
    case Spawn(_, _, _, _, _) => if !SpawnRejected(s, c) { SpawnTasks(s, c); }
    case Pump => PumpOverSkipsFinished(s.(pumpQueued := false), s.order, id);
    case Settle(k, ending) => SettleRewrites(s, k, ending);
    case Cancel(k) => CommandRewrites(s, c);
    case Retry(k) => CommandRewrites(s, c);
    case _ =>
  }

  lemma {:induction false} PumpOverSkipsFinished(s: State, ids: seq<TaskId>, id: TaskId)
    requires Finished(s, id)
    ensures id in PumpOver(s, ids).tasks && PumpOver(s, ids).tasks[id] == s.tasks[id]
    decreases |ids|
  {
    hide PumpTask;
    if ids != [] && |s.running| < s.maxConcurrent {
      PumpTaskRewrites(s, ids[0]);
      PumpOverSkipsFinished(PumpTask(s, ids[0]), ids[1..], id);
    }
  }

  // ---------- Waiters ----------

  /** Waiters that were told stay told with the same record; a waiter that stops waiting has expired or
      was told the finished record of its own task. */
  ghost predicate Resolves(s: State, r: State) {
    && (forall w :: w in s.resolved && w !in s.pending ==> w in r.resolved && r.resolved[w] == s.resolved[w])
    && (forall w :: w in s.pending ==>
          || (w in r.pending && r.pending[w] == s.pending[w])
          || w in r.expired
          || (w in r.resolved && Finished(r, s.pending[w]) && r.resolved[w] == r.tasks[s.pending[w]]))
  }

  // Telling the waiters of a record that has just been finished.
  lemma NotifyResolves(s: State, id: TaskId, t: Task)
    requires id in s.tasks && t.status.Terminal()
    ensures var r := Notify(Update(s, id, t), id);
            && Resolves(s, r) && r.expired == s.expired
            && r.pending == s.pending - WaitersOf(s.pending, id)
            && r.resolved.Keys == s.resolved.Keys + WaitersOf(s.pending, id)
  {
  }

  ghost predicate SameWaiters(s: State, r: State) {
    r.pending == s.pending && r.resolved == s.resolved && r.expired == s.expired
  }

  lemma SameWaitersResolve(s: State, r: State)
    requires SameWaiters(s, r)
    ensures Resolves(s, r)
  {
  }

  lemma UpdateKeepsWaiters(s: State, id: TaskId, t: Task)
    ensures SameWaiters(s, Update(s, id, t))
  {
  }

  // A visit tells waiters only when it fails the record.
  lemma PumpTaskWaiters(s: State, id: TaskId)
    ensures var m := PumpTask(s, id);
            SameWaiters(s, m) || (id in s.tasks && m == FailForDependency(s, id))
  {
    hide DependencyFailed, DependencyCompleted, Update, FailForDependency;
    if InLine(s, id) {
      UpdateKeepsWaiters(s, id, s.tasks[id].(status := Waiting));
      UpdateKeepsWaiters(s, id, s.tasks[id].(attempt := s.tasks[id].attempt + 1, status := Running, error := None));
    }
  }

  lemma PumpTaskResolves(s: State, id: TaskId)
    requires s.pending.Keys !! s.resolved.Keys
    ensures var m := PumpTask(s, id);
            && Resolves(s, m) && m.expired == s.expired && m.pending.Keys !! m.resolved.Keys
            && forall w :: w in m.pending ==> w in s.pending && m.pending[w] == s.pending[w]
  {
    hide PumpTask, Notify, Update;
    PumpTaskWaiters(s, id);
    if SameWaiters(s, PumpTask(s, id)) {
      SameWaitersResolve(s, PumpTask(s, id));
    } else {
      NotifyResolves(s, id, s.tasks[id].(status := Failed, error := Some(DEPENDENCY_FAILED)));
    }
  }

  lemma {:induction false} PumpOverResolves(s: State, ids: seq<TaskId>)
    requires s.pending.Keys !! s.resolved.Keys
    ensures Resolves(s, PumpOver(s, ids))
    decreases |ids|
  {
    hide PumpTask;
    if ids != [] && |s.running| < s.maxConcurrent {
      var m := PumpTask(s, ids[0]);
      var r := PumpOver(m, ids[1..]);
      PumpTaskResolves(s, ids[0]);
      PumpOverResolves(m, ids[1..]);
      forall w | w in s.pending && w !in m.pending && w !in m.expired
        ensures w in r.resolved && Finished(r, s.pending[w]) && r.resolved[w] == r.tasks[s.pending[w]]
      {
        PumpOverSkipsFinished(m, ids[1..], s.pending[w]);
      }
      PumpOverKeepsExpired(m, ids[1..]);
    }
  }

  lemma {:induction false} PumpOverKeepsExpired(s: State, ids: seq<TaskId>)
    requires s.pending.Keys !! s.resolved.Keys
    ensures PumpOver(s, ids).expired == s.expired
    decreases |ids|
  {
    hide PumpTask;
    if ids != [] && |s.running| < s.maxConcurrent {
      PumpTaskResolves(s, ids[0]);
      PumpOverKeepsExpired(PumpTask(s, ids[0]), ids[1..]);
    }
  }

  lemma SettleResolves(s: State, id: TaskId, ending: Ending)
    requires id in s.tasks && id in s.running
    ensures Resolves(s, SettleStep(s, id, ending)) && SettleStep(s, id, ending).expired == s.expired
  {
    hide EndedTask, Notify, Update, CountRecovery, Includes, Resolves;
    var t := EndedTask(s, id, ending);
    var r := SettleStep(s, id, ending);
    UpdateRewrites(s, id, t);
    if t.status.Terminal() {
      NotifyResolves(s, id, t);
      NotifyRewrites(Update(s, id, t), id);
      ResolvesDependsOnWaiters(s, Notify(Update(s, id, t), id), r);
    } else {
      UpdateKeepsWaiters(s, id, t);
      SameWaitersResolve(s, r);
    }
  }

  lemma ResolvesDependsOnWaiters(s: State, m: State, r: State)
    requires Resolves(s, m) && SameWaiters(m, r) && r.tasks == m.tasks
    ensures Resolves(s, r)
  {
  }

  /** As long as the process lives, a waiter that has been told stays told, and one that stops waiting
      was told the finished record of its own task or has been removed by its own timeout. */
  lemma StepResolves(s: State, c: Command)
    requires Valid(s) && Enabled(s, c) && !c.Crash?
    ensures Resolves(s, Step(s, c))
    ensures Step(s, c).expired == s.expired + if c.WaitExpires? then {c.waiter} else {}
  {
    hide Valid, PumpOver, SettleStep, SpawnStep, RecoverStep, Update, Notify, Abort, Resolves;
    WaitersDisjoint(s);
    match c
    case Pump => if s.shuttingDown { SameWaitersResolve(s, Step(s, c)); } else { PumpStepResolves(s); }
    case Settle(id, ending) => SettleResolves(s, id, ending);
    case Cancel(id) =>
      if InLine(s, id) {
        NotifyResolves(s, id, s.tasks[id].(status := Cancelled, error := Some(CANCELLED)));
      } else {
        AbortKeepsWaiters(s, id, CANCELLED);
        SameWaitersResolve(s, Step(s, c));
      }
    case Wait(_) => WaitResolves(s, c);
    case WaitExpires(_) => WaitResolves(s, c);
    case Spawn(_, _, _, _, _) => SpawnFrame(s, c); SameWaitersResolve(s, Step(s, c));
    case Recover => RecoverKeepsWaiters(s); SameWaitersResolve(s, Step(s, c));
    case Retry(id) => RetryKeepsWaiters(s, id); SameWaitersResolve(s, Step(s, c));
    case TimerFires(id) =>
      AbortKeepsWaiters(s, id, "Task timed out after its budget");
      SameWaitersResolve(s, Step(s, c));
    case Shutdown => SameWaitersResolve(s, Step(s, c));
  }

  lemma PumpStepResolves(s: State)
    requires s.pending.Keys !! s.resolved.Keys && !s.shuttingDown && s.pumpQueued
    ensures Resolves(s, Step(s, Pump)) && Step(s, Pump).expired == s.expired
  {
    PumpOverResolves(s.(pumpQueued := false), s.order);
    PumpOverKeepsExpired(s.(pumpQueued := false), s.order);
  }

  lemma WaitResolves(s: State, c: Command)
    requires (c.Wait? || c.WaitExpires?) && Enabled(s, c) && s.nextWaiter !in s.pending && s.nextWaiter !in s.resolved
    ensures Resolves(s, Step(s, c))
    ensures Step(s, c).expired == s.expired + if c.WaitExpires? then {c.waiter} else {}
  {
  }

  lemma AbortKeepsWaiters(s: State, id: TaskId, reason: string)
    ensures SameWaiters(s, Abort(s, id, reason))
  {
  }

  lemma RetryKeepsWaiters(s: State, id: TaskId)
    ensures SameWaiters(s, Step(s, Retry(id)))
  {
  }

  lemma RecoverKeepsWaiters(s: State)
    ensures SameWaiters(s, RecoverStep(s))
  {
  }

  lemma WaitersDisjoint(s: State)
    requires Valid(s)
    ensures s.pending.Keys !! s.resolved.Keys && s.expired !! s.pending.Keys + s.resolved.Keys
    ensures s.nextWaiter !in s.pending && s.nextWaiter !in s.resolved
  {
    assert s.nextWaiter !in s.pending.Keys + s.resolved.Keys + s.expired;
  }

  /** At some moment of the run the record of `id` is `t`, and finished. */
  ghost predicate FinishesAs(s: State, run: seq<Command>, id: TaskId, t: Task)
    requires Runnable(s, run)
    decreases |run|
  {
    && run != []
    && var next := Step(s, run[0]);
       (Finished(next, id) && next.tasks[id] == t) || FinishesAs(next, run[1..], id, t)
  }

  /** Over any run in which the process lives, a waiter that was told stays told with the same record.
      A waiter that waits is removed exactly if its own timeout fires; otherwise it still waits, or it
      was told, once, a finished record of its own task. */
  lemma {:induction false} RunResolves(s: State, run: seq<Command>, w: Waiter)
    requires Valid(s) && Runnable(s, run) && Crash !in run
    ensures var r := Run(s, run);
            && (w in s.resolved ==> w in r.resolved && r.resolved[w] == s.resolved[w])
            && (w in s.pending ==>
                  && (w in r.expired <==> WaitExpires(w) in run)
                  && (w in r.expired || (w in r.pending && r.pending[w] == s.pending[w])
                      || (w in r.resolved && FinishesAs(s, run, s.pending[w], r.resolved[w]))))
            && (w in s.expired ==> w in r.expired && WaitExpires(w) !in run)
            && (w in s.resolved ==> w !in r.expired && WaitExpires(w) !in run)
    decreases |run|
  {
    hide Valid, Step;
    WaitersDisjoint(s);
    if run != [] {
      assert run == [run[0]] + run[1..];
      StepResolves(s, run[0]);
      StepKeepsValid(s, run[0]);
      RunResolves(Step(s, run[0]), run[1..], w);
    }
  }
}
