/** What each step of the scheduler makes of a record, field by field, and which tasks end up completed. */
module TaskTransitions {
  import opened Basics
  import opened Options
  import opened TaskModel
  import opened TaskInvariants
  import opened TaskRuns
  import Text

  ghost predicate Mentions(text: string, part: string) { exists k :: Text.At(text, part, k) }

  lemma {:induction false} IncludesIsMentions(text: string, part: string)
    ensures Includes(text, part) <==> Mentions(text, part)
    decreases |text|
  {
    if part <= text {
      assert text[0..0 + |part|] == text[..|part|];
      assert Text.At(text, part, 0);
    } else if text != [] {
      IncludesIsMentions(text[1..], part);
      Text.AtRest(text, part);
      if Mentions(text[1..], part) {
        var k :| Text.At(text[1..], part, k);
        assert text[k + 1..k + 1 + |part|] == text[1..][k..k + |part|];
        assert Text.At(text, part, k + 1);
      }
    }
  }

  predicate Unsuccessful(status: Status) { status == Failed || status == Cancelled || status == TimedOut }

  /** Only status, attempts and outcome of a record may differ. */
  ghost predicate SameTask(a: Task, b: Task) {
    a.parent == b.parent && a.children == b.children && a.dependencies == b.dependencies && a.prompt == b.prompt
  }

  ghost predicate OnlyRecord(s: State, r: State, id: TaskId) {
    id in s.tasks && id in r.tasks && r.order == s.order && SameTask(s.tasks[id], r.tasks[id])
    && r.tasks == s.tasks[id := r.tasks[id]]
  }

  // ---------- An execution ends ----------

  /** How the end of an execution is recorded. A result completes the task. An error puts it back in the
      queue during a shutdown, without a trace; cancels it if it was aborted for another reason than its
      timeout; and otherwise uses up the attempt, so that the task is queued again, or has failed or timed
      out with its last attempt. */
  lemma EndIsRecorded(s: State, id: TaskId, ending: Ending)
    requires Enabled(s, Settle(id, ending)) && IsRunning(s.tasks, id)
    ensures var r, t := Step(s, Settle(id, ending)), s.tasks[id];
            && OnlyRecord(s, r, id) && r.running == s.running - {id}
            && r.tasks[id].attempt == t.attempt && r.tasks[id].maxAttempts == t.maxAttempts
            && match ending
               case Returned(summary) =>
                 r.tasks[id].status == Completed && r.tasks[id].result == Some(summary) && r.tasks[id].error == t.error
               case Threw(message) =>
                 var aborted, late := s.running[id].Some?, s.running[id].Some? && Mentions(message, "timed out");
                 && r.tasks[id].result == t.result
                 && r.tasks[id].error == (if s.shuttingDown then None else Some(message))
                 && r.tasks[id].status ==
                    if s.shuttingDown then Queued
                    else if aborted && !late then Cancelled
                    else if t.attempt < t.maxAttempts then Queued
                    else if late then TimedOut
                    else Failed
  {
    hide Includes, Mentions;
    if ending.Threw? {
      IncludesIsMentions(ending.message, TIMED_OUT);
    }
    SettleRewrites(s, id, ending);
  }

  // ---------- The operations of callers ----------

  /** Cancelling ends a task that waits, and asks one that executes to stop unless it has been asked. */
  lemma CancelIsRecorded(s: State, id: TaskId)
    ensures var r := Step(s, Cancel(id));
            if InLine(s, id) then
              && OnlyRecord(s, r, id) && r.running == s.running
              && r.tasks[id] == s.tasks[id].(status := Cancelled, error := Some("Task cancelled"))
            else
              && r.tasks == s.tasks && r.order == s.order && r.running.Keys == s.running.Keys
              && forall k :: k in s.running ==>
                   r.running[k] == if k == id && IsRunning(s.tasks, id) && s.running[k].None?
                                   then Some("Task cancelled") else s.running[k]
  {
    hide PumpOver, SettleStep, SpawnStep, RecoverStep, WaitStep;
  }

  /** A retry queues a task that failed, was cancelled or timed out, with at least one more attempt. */
  lemma RetryIsRecorded(s: State, id: TaskId)
    ensures var r := Step(s, Retry(id));
            if id in s.tasks && Unsuccessful(s.tasks[id].status) then
              var t := s.tasks[id];
              && OnlyRecord(s, r, id) && (s.shuttingDown || r.pumpQueued)
              && r.tasks[id].status == Queued && r.tasks[id].error == None && r.tasks[id].result == t.result
              && r.tasks[id].attempt == t.attempt && r.tasks[id].maxAttempts > t.attempt
              && t.maxAttempts <= r.tasks[id].maxAttempts <= Max(t.maxAttempts, t.attempt + 1)
            else r == s
  {
    hide PumpOver, SettleStep, SpawnStep, RecoverStep, WaitStep, Notify;
  }

  function WithChild(t: Task, c: Command, k: TaskId): Task
    requires c.Spawn?
  {
    t.(children := t.children + if c.parent == Some(k) then [c.id] else [])
  }

  /** A new task is queued, with no attempt made and at least one allowed, last in creation order and as the
      last child of its parent. */
  lemma SpawnIsRecorded(s: State, c: Command)
    requires c.Spawn? && Enabled(s, c)
    ensures var r := Step(s, c);
            if (forall d :: d in c.dependencies ==> d in s.tasks) && (c.parent.Some? ==> c.parent.value in s.tasks) then
              && r.order == s.order + [c.id] && r.tasks.Keys == s.tasks.Keys + {c.id}
              && (s.shuttingDown || r.pumpQueued)
              && r.tasks[c.id] == Task(c.parent, [], c.dependencies, c.prompt, Queued, 0,
                                       if c.maxAttempts < 1 then 1 else c.maxAttempts, None, None)
              && forall k :: k in s.tasks ==>
                   r.tasks[k] == WithChild(s.tasks[k], c, k)
            else r == s
  {
    hide PumpOver, SettleStep, RecoverStep, WaitStep, Notify, Update, SpawnStep;
    if !SpawnRejected(s, c) {
      Spawned(s, c);
    }
  }

  lemma Spawned(s: State, c: Command)
    requires c.Spawn? && c.id !in s.tasks && (c.parent.Some? ==> c.parent.value in s.tasks)
    ensures var r := SpawnStep(s, c);
            && r.order == s.order + [c.id] && r.tasks.Keys == s.tasks.Keys + {c.id} && (s.shuttingDown || r.pumpQueued)
            && r.tasks[c.id] == Task(c.parent, [], c.dependencies, c.prompt, Queued, 0,
                                     if c.maxAttempts < 1 then 1 else c.maxAttempts, None, None)
            && forall k :: k in s.tasks ==>
                 r.tasks[k] == WithChild(s.tasks[k], c, k)
  {
    var r := SpawnStep(s, c);
    forall k | k in s.tasks
      ensures r.tasks[k] == WithChild(s.tasks[k], c, k)
    {
      assert s.tasks[k].children + [] == s.tasks[k].children;
    }
  }

  /** The timeout of a task and a shutdown ask executions to stop; a reason given earlier stays. */
  lemma AbortIsRecorded(s: State, c: Command)
    requires Enabled(s, c) && (c.TimerFires? || c.Shutdown?)
    ensures var r := Step(s, c);
            && r.tasks == s.tasks && r.order == s.order && r.running.Keys == s.running.Keys
            && r.shuttingDown == (c.Shutdown? || s.shuttingDown)
            && forall k :: k in s.running ==> AskedToStop(s.running[k], r.running[k], c.Shutdown? || k == c.id)
  {
    hide PumpOver, SettleStep, SpawnStep, RecoverStep, WaitStep, Notify, Update;
    if c.TimerFires? {
      AbortAsks(s, c.id, "Task timed out after its budget");
    }
  }

  ghost predicate AskedToStop(before: Option<string>, after: Option<string>, asked: bool) {
    if before.Some? then after == before else after.Some? <==> asked
  }

  lemma AbortAsks(s: State, id: TaskId, reason: string)
    requires id in s.running
    ensures var r := Abort(s, id, reason);
            && r.tasks == s.tasks && r.order == s.order && r.running.Keys == s.running.Keys
            && r.shuttingDown == s.shuttingDown
            && forall k :: k in s.running ==> AskedToStop(s.running[k], r.running[k], k == id)
  {
    var r := Abort(s, id, reason);
    if s.running[id].None? {
      assert r.running == s.running[id := Some(reason)];
    }
    assert r.running.Keys == s.running.Keys;
  }

  /** After a restart what was executing is queued again, and everything else is as it was. */
  lemma RecoveryIsRecorded(s: State)
    requires Enabled(s, Recover)
    ensures var r := Step(s, Recover);
            && r.order == s.order && r.tasks.Keys == s.tasks.Keys && r.running == map[]
            && !r.shuttingDown && r.pumpQueued
            && forall k :: k in s.tasks ==>
                 r.tasks[k] == if s.tasks[k].status == Running then s.tasks[k].(status := Queued, error := None)
                               else s.tasks[k]
  {
    hide PumpOver, SettleStep, SpawnStep, WaitStep, Notify, Update;
  }

  // ---------- A pass over the queue ----------

  /** What a pass may make of a record: it leaves it, or, if it was in line, holds it, starts its next attempt,
      or fails it because of a dependency that is missing or ended without success. */
  ghost predicate PassedOver(s: State, r: State, id: TaskId) {
    && id in s.tasks && id in r.tasks
    && var a, b := s.tasks[id], r.tasks[id];
       || b == a
       || (&& (a.status == Queued || a.status == Waiting)
           && (|| b == a.(status := Waiting)
               || (b == a.(status := Running, attempt := a.attempt + 1, error := None) && id in r.running)
               || (b == a.(status := Failed, error := Some("A dependency did not complete successfully"))
                   && exists d :: d in a.dependencies && Hopeless(r.tasks, d))))
  }

  ghost predicate Hopeless(tasks: map<TaskId, Task>, d: TaskId) {
    d in tasks ==> Unsuccessful(tasks[d].status)
  }

  lemma FailVisit(s: State, id: TaskId, d: TaskId)
    requires InLine(s, id) && d in s.tasks[id].dependencies && DependencyFailed(s.tasks, d)
    ensures var r := FailForDependency(s, id);
            && r.tasks == s.tasks[id := r.tasks[id]] && r.running == s.running && PassedOver(s, r, id)
  {
    var failed := s.tasks[id].(status := Failed, error := Some(DEPENDENCY_FAILED));
    UpdateRewrites(s, id, failed);
    NotifyRewrites(Update(s, id, failed), id);
    assert Hopeless(s.tasks[id := failed], d);
  }

  lemma StartVisit(s: State, id: TaskId)
    requires InLine(s, id)
    ensures var r := Start(s, id);
            && r.tasks == s.tasks[id := r.tasks[id]] && r.running == s.running[id := None] && PassedOver(s, r, id)
  {
  }

  // A visit touches one record and makes of it what a pass may.
  lemma VisitRecords(s: State, id: TaskId)
    ensures var r := PumpTask(s, id);
            && s.running.Keys <= r.running.Keys <= s.running.Keys + {id}
            && (r.tasks == s.tasks
                || (InLine(s, id) && id in r.tasks && r.tasks == s.tasks[id := r.tasks[id]] && PassedOver(s, r, id)))
  {
    hide FailForDependency, Start, Update, PassedOver, DependencyFailed, DependencyCompleted;
    if InLine(s, id) {
      var t := s.tasks[id];
      if d :| d in t.dependencies && DependencyFailed(s.tasks, d) {
        FailVisit(s, id, d);
      } else {
        StartVisit(s, id);
        HoldVisit(s, id);
      }
    }
  }

  lemma HoldVisit(s: State, id: TaskId)
    requires InLine(s, id)
    ensures var r := Update(s, id, s.tasks[id].(status := Waiting));
            && r.tasks == s.tasks[id := r.tasks[id]] && r.running == s.running && PassedOver(s, r, id)
  {
  }

  lemma {:induction false} UnvisitedStays(s: State, ids: seq<TaskId>, k: TaskId)
    requires k !in ids
    ensures var r := PumpOver(s, ids);
            && (k in s.tasks <==> k in r.tasks) && (k in s.tasks ==> r.tasks[k] == s.tasks[k])
            && s.running.Keys <= r.running.Keys
    decreases |ids|
  {
    hide PumpTask, PassedOver;
    if ids != [] && |s.running| < s.maxConcurrent {
      VisitRecords(s, ids[0]);
      UnvisitedStays(PumpTask(s, ids[0]), ids[1..], k);
    }
  }

  lemma {:induction false} NoneAppears(s: State, ids: seq<TaskId>, k: TaskId)
    ensures k in PumpOver(s, ids).tasks <==> k in s.tasks
    decreases |ids|
  {
    hide PumpTask, PassedOver;
    if ids != [] && |s.running| < s.maxConcurrent {
      VisitRecords(s, ids[0]);
      NoneAppears(PumpTask(s, ids[0]), ids[1..], k);
    }
  }

  // What a visit has made of a record stays for the rest of the pass.
  lemma PassedStays(s: State, m: State, ids: seq<TaskId>, k: TaskId)
    requires PassedOver(s, m, k) && k !in ids
    ensures PassedOver(s, PumpOver(m, ids), k)
  {
    hide PumpOver, Hopeless;
    var r := PumpOver(m, ids);
    UnvisitedStays(m, ids, k);
    if m.tasks[k].status.Failed? && m.tasks[k] != s.tasks[k] {
      var d :| d in s.tasks[k].dependencies && Hopeless(m.tasks, d);
      HopelessStays(m, ids, d);
    }
  }

  lemma HopelessStays(m: State, ids: seq<TaskId>, d: TaskId)
    requires Hopeless(m.tasks, d)
    ensures Hopeless(PumpOver(m, ids).tasks, d)
  {
    hide PumpOver;
    NoneAppears(m, ids, d);
    if d in m.tasks {
      PumpOverSkipsFinished(m, ids, d);
    }
  }

  lemma {:induction false} PassRecords(s: State, ids: seq<TaskId>, k: TaskId)
    requires k in s.tasks && Distinct(ids)
    ensures PassedOver(s, PumpOver(s, ids), k)
    decreases |ids|
  {
    hide PumpTask, Hopeless;
    if ids != [] && |s.running| < s.maxConcurrent {
      var m, rest := PumpTask(s, ids[0]), ids[1..];
      VisitRecords(s, ids[0]);
      if k == ids[0] {
        PassedStays(s, m, rest, k);
      } else {
        assert m.tasks[k] == s.tasks[k];
        PassRecords(m, rest, k);
      }
    }
  }

  /** A pass over the queue makes of every record what it may. */
  lemma PassIsRecorded(s: State, k: TaskId)
    requires Valid(s) && Enabled(s, Pump) && k in s.tasks
    ensures PassedOver(s, Step(s, Pump), k)
  {
    hide PumpOver, Valid, PassedOver;
    OrderIsDistinct(s);
    if s.shuttingDown {
      Untouched(s, Step(s, Pump), k);
    } else {
      PassRecords(s.(pumpQueued := false), s.order, k);
      SameStart(s, s.(pumpQueued := false), Step(s, Pump), k);
    }
  }

  lemma Untouched(s: State, r: State, k: TaskId)
    requires k in s.tasks && r.tasks == s.tasks
    ensures PassedOver(s, r, k)
  {
    hide Hopeless;
  }

  lemma SameStart(s: State, m: State, r: State, k: TaskId)
    requires s.tasks == m.tasks && PassedOver(m, r, k)
    ensures PassedOver(s, r, k)
  {
    hide Hopeless;
  }

  lemma OrderIsDistinct(s: State)
    requires Valid(s)
    ensures Distinct(s.order)
  {
  }

  lemma VisitStarts(s: State, id: TaskId)
    requires id in s.tasks && CanStart(s, id)
    ensures id in PumpTask(s, id).running
  {
    hide Update;
    forall d | d in s.tasks[id].dependencies ensures !DependencyFailed(s.tasks, d) && DependencyCompleted(s.tasks, d) {
    }
  }

  // A visit to one record leaves another one startable, and starts none but its own.
  lemma OthersCanStart(s: State, id: TaskId, k: TaskId)
    requires k in s.tasks && k != id && CanStart(s, k)
    ensures k in PumpTask(s, id).tasks && CanStart(PumpTask(s, id), k)
    ensures PumpTask(s, id).running.Keys <= s.running.Keys + {id}
  {
    hide PassedOver;
    VisitRecords(s, id);
  }

  /** Starts happen in creation order: no task is started while an earlier one that could start is left. */
  lemma {:induction false} PassIsInOrder(s: State, ids: seq<TaskId>, i: nat, j: nat)
    requires Distinct(ids) && i < j < |ids| && ids[i] in s.tasks && CanStart(s, ids[i])
    requires ids[j] !in s.running && ids[j] in PumpOver(s, ids).running
    ensures ids[i] in PumpOver(s, ids).running
    decreases |ids|
  {
    hide PumpTask, CanStart;
    if |s.running| < s.maxConcurrent {
      var m, rest := PumpTask(s, ids[0]), ids[1..];
      if i == 0 {
        VisitStarts(s, ids[0]);
        UnvisitedStays(m, rest, ids[0]);
      } else {
        assert ids[0] != ids[j];
        OthersCanStart(s, ids[0], ids[i]);
        PassIsInOrder(m, rest, i - 1, j - 1);
      }
    }
  }

  // ---------- Which tasks are completed ----------

  ghost predicate IsCompleted(s: State, id: TaskId) { id in s.tasks && s.tasks[id].status == Completed }

  ghost predicate Returns(c: Command, id: TaskId) { c.Settle? && c.id == id && c.ending.Returned? }

  /** A step completes a task exactly if it is the end of an execution of it that returned; its result is
      then what was returned, and never changes. */
  lemma CompletedByReturn(s: State, c: Command, id: TaskId)
    requires Valid(s) && Enabled(s, c)
    ensures IsCompleted(Step(s, c), id) <==> IsCompleted(s, id) || Returns(c, id)
    ensures Returns(c, id) ==> !IsCompleted(s, id) && Step(s, c).tasks[id].result == Some(c.ending.summary)
    ensures IsCompleted(s, id) ==> Step(s, c).tasks[id].result == s.tasks[id].result
  {
    hide Valid, Step, SameTask, PassedOver, Unsuccessful, AskedToStop, Mentions;
    ValidBasics(s);
    match c
    case Spawn(_, _, _, _, _) => SpawnIsRecorded(s, c);
    case Cancel(k) => CancelIsRecorded(s, k);
    case Retry(k) => RetryCompletes(s, k, id);
    case Pump => PumpCompletes(s, id);
    case TimerFires(_) => AbortIsRecorded(s, c);
    case Shutdown => AbortIsRecorded(s, c);
    case Settle(k, ending) => EndIsRecorded(s, k, ending);
    case Recover => RecoveryIsRecorded(s);
    case Wait(_) => OthersKeepRecords(s, c);
    case WaitExpires(_) => OthersKeepRecords(s, c);
    case Crash => OthersKeepRecords(s, c);
  }

  lemma RetryCompletes(s: State, k: TaskId, id: TaskId)
    ensures IsCompleted(Step(s, Retry(k)), id) <==> IsCompleted(s, id)
    ensures IsCompleted(s, id) ==> Step(s, Retry(k)).tasks[id] == s.tasks[id]
  {
    hide Step;
    RetryIsRecorded(s, k);
  }

  lemma PumpCompletes(s: State, id: TaskId)
    requires Valid(s) && Enabled(s, Pump)
    ensures IsCompleted(Step(s, Pump), id) <==> IsCompleted(s, id)
    ensures IsCompleted(s, id) ==> Step(s, Pump).tasks[id] == s.tasks[id]
  {
    hide Valid, PumpOver, Hopeless;
    NoneAppears(s.(pumpQueued := false), s.order, id);
    if id in s.tasks {
      PassIsRecorded(s, id);
    }
  }

  lemma OthersKeepRecords(s: State, c: Command)
    requires Enabled(s, c) && (c.Wait? || c.WaitExpires? || c.Crash?) && s.saved == Snapshot(s.order, s.tasks)
    ensures Step(s, c).tasks == s.tasks
  {
    hide PumpOver, SettleStep, SpawnStep, RecoverStep, Notify, Update;
  }

  /** Over any run: a task that was not completed before is completed at the end exactly if some execution of
      it returned, and its result is what that execution returned. */
  lemma {:induction false} CompletedIffReturned(s: State, run: seq<Command>, id: TaskId)
    requires Valid(s) && Runnable(s, run)
    ensures IsCompleted(Run(s, run), id) <==> IsCompleted(s, id) || exists c :: c in run && Returns(c, id)
    ensures forall c :: c in run && Returns(c, id) ==> Run(s, run).tasks[id].result == Some(c.ending.summary)
    ensures IsCompleted(s, id) ==> Run(s, run).tasks[id].result == s.tasks[id].result
    decreases |run|
  {
    hide Valid, Step, Enabled;
    if run != [] {
      var next := Step(s, run[0]);
      CompletedByReturn(s, run[0], id);
      StepKeepsValid(s, run[0]);
      CompletedIffReturned(next, run[1..], id);
      assert run == [run[0]] + run[1..];
    }
  }
}
