/** Proofs about the scheduler: what every step keeps, what holds over every run, and when work ends. */
module TaskInvariants {
  import opened Basics
  import opened Options
  import opened TaskModel

  // ---------- One changed record ----------

  /** The effect all transitions share: one record changes status, its waiters are told if it is
      finished, and the running set and the recovery counts may change with it. */
  function Change(s: State, id: TaskId, t: Task, running: map<TaskId, Option<string>>, recoveries: map<TaskId,
                  nat>): State {
    var tasks := s.tasks[id := t];
    var told := if t.status.Terminal() then WaitersOf(s.pending, id) else {};
    s.(tasks := tasks, saved := Snapshot(s.order, tasks),
       pending := s.pending - told, resolved := s.resolved + (map w | w in told :: t),
       running := running, recoveries := recoveries)
  }

  ghost predicate SameLinks(a: Task, b: Task) {
    a.parent == b.parent && a.children == b.children && a.dependencies == b.dependencies && a.prompt == b.prompt
  }

  ghost predicate Allowed(s: State, id: TaskId, t: Task, running: map<TaskId, Option<string>>, recoveries: map<TaskId,
                          nat>) {
    && id in s.tasks && SameLinks(t, s.tasks[id]) && !s.tasks[id].status.Completed?
    && (t.attempt == s.tasks[id].attempt || forall d :: d in t.dependencies ==> DependencyCompleted(s.tasks, d))
    && recoveries.Keys == s.recoveries.Keys
    && (forall k :: k in s.recoveries && k != id ==> recoveries[k] == s.recoveries[k])
    && (id in recoveries ==> WithinLimit(t, recoveries[id]))
    && |running| <= s.maxConcurrent
    && (forall k :: k != id ==> (k in running <==> k in s.running))
    && (id in running ==> t.status.Running?)
    && (s.live && t.status.Running? ==> id in running)
  }

  lemma ChangeKeepsLinks(order: seq<TaskId>, tasks: map<TaskId, Task>, id: TaskId, t: Task)
    requires Linked(order, tasks) && id in tasks && SameLinks(t, tasks[id])
    ensures Linked(order, tasks[id := t])
  {
    var tasks' := tasks[id := t];
    hide Earlier;
    assert DependenciesEarlier(order, tasks');
    assert ParentsEarlier(order, tasks');
    assert forall p, c :: IsChildOf(tasks', c, p) <==> IsChildOf(tasks, c, p);
    assert ChildrenMatch(tasks');
  }

  lemma ChangeKeepsStarted(s: State, id: TaskId, t: Task)
    requires Linked(s.order, s.tasks) && StartedAfterDependencies(s.tasks)
    requires id in s.tasks && SameLinks(t, s.tasks[id]) && !s.tasks[id].status.Completed?
    requires t.attempt == s.tasks[id].attempt || forall d :: d in t.dependencies ==> DependencyCompleted(s.tasks, d)
    ensures StartedAfterDependencies(s.tasks[id := t])
  {
  }

  lemma ChangeKeepsWaiters(pending: map<Waiter, TaskId>, resolved: map<Waiter, Task>, expired: set<Waiter>,
                           next: Waiter, tasks: map<TaskId, Task>, id: TaskId, t: Task, told: set<Waiter>)
    requires WaitersAccounted(pending, resolved, expired, next, tasks)
    requires told == if t.status.Terminal() then WaitersOf(pending, id) else {}
    ensures WaitersAccounted(pending - told, resolved + (map w | w in told :: t), expired, next, tasks[id := t])
  {
    var pending', resolved' := pending - told, resolved + (map w | w in told :: t);
    assert pending'.Keys + resolved'.Keys == pending.Keys + resolved.Keys;
  }

  lemma ChangeKeepsRunning(running: map<TaskId, Option<string>>, tasks: map<TaskId, Task>, live: bool,
                           id: TaskId, t: Task, running': map<TaskId, Option<string>>)
    requires RunningExact(running, tasks, live)
    requires forall k :: k != id ==> (k in running' <==> k in running)
    requires (id in running' ==> t.status.Running?) && (live && t.status.Running? ==> id in running')
    ensures RunningExact(running', tasks[id := t], live)
  {
    assert forall k :: k != id ==> (IsRunning(tasks[id := t], k) <==> IsRunning(tasks, k));
  }

  lemma ChangeKeepsBounds(tasks: map<TaskId, Task>, recoveries: map<TaskId, nat>, id: TaskId, t: Task,
                          recoveries': map<TaskId, nat>)
    requires AttemptsBounded(tasks, recoveries) && id in tasks && recoveries'.Keys == recoveries.Keys
    requires forall k :: k in recoveries && k != id ==> recoveries'[k] == recoveries[k]
    requires WithinLimit(t, recoveries'[id])
    ensures AttemptsBounded(tasks[id := t], recoveries')
  {
  }

  lemma ChangeKeepsCore(s: State, id: TaskId, t: Task, running: map<TaskId, Option<string>>, recoveries: map<TaskId,
                        nat>)
    requires Core(s) && Allowed(s, id, t, running, recoveries)
    ensures Core(Change(s, id, t, running, recoveries))
  {
    hide Linked, StartedAfterDependencies, RunningExact, WaitersAccounted, AttemptsBounded, WithinLimit;
    assert s.recoveries.Keys == s.tasks.Keys by { RecoveriesCover(s); }
    ChangeKeepsBounds(s.tasks, s.recoveries, id, t, recoveries);
    ChangeKeepsLinks(s.order, s.tasks, id, t);
    ChangeKeepsStarted(s, id, t);
    ChangeKeepsRunning(s.running, s.tasks, s.live, id, t, running);
    ChangeKeepsWaiters(s.pending, s.resolved, s.expired, s.nextWaiter, s.tasks, id, t,
                       if t.status.Terminal() then WaitersOf(s.pending, id) else {});
  }

  lemma RecoveriesCover(s: State)
    requires Core(s)
    ensures s.recoveries.Keys == s.tasks.Keys
  {
  }

  // Without waiters to tell, a change is a plain update; with them, an update followed by telling them.
  lemma ChangeIsUpdate(s: State, id: TaskId, t: Task, running: map<TaskId, Option<string>>, recoveries: map<TaskId,
                       nat>)
    requires id in s.tasks
    ensures var updated := Update(s, id, t);
            Change(s, id, t, running, recoveries)
            == (if t.status.Terminal() then Notify(updated, id) else updated)
               .(running := running, recoveries := recoveries)
  {
    if !t.status.Terminal() {
      var told: set<Waiter> := {};
      assert s.pending - told == s.pending;
      assert s.resolved + (map w | w in told :: t) == s.resolved;
    }
  }

  lemma DependenciesDiffer(s: State, id: TaskId, d: TaskId)
    requires Linked(s.order, s.tasks) && id in s.tasks && d in s.tasks[id].dependencies
    ensures d in s.tasks && d != id
  {
    var i :| 0 <= i < |s.order| && s.order[i] == id;
    assert Earlier(s.order, d, i);
  }

  // What one visit of the pump does to everything else.
  ghost predicate OnlyTaskChanged(s: State, r: State, id: TaskId) {
    && r.order == s.order && r.tasks.Keys == s.tasks.Keys
    && (forall k :: k in s.tasks && k != id ==> r.tasks[k] == s.tasks[k])
    && r.maxConcurrent == s.maxConcurrent && r.live == s.live && r.recoveries == s.recoveries
    && r.shuttingDown == s.shuttingDown && r.pumpQueued == s.pumpQueued
    && s.running.Keys <= r.running.Keys <= s.running.Keys + {id}
  }

  ghost predicate InLine(s: State, id: TaskId) {
    id in s.tasks && (s.tasks[id].status.Queued? || s.tasks[id].status.Waiting?)
  }

  lemma InLineNotRunning(s: State, id: TaskId)
    requires Core(s) && InLine(s, id)
    ensures id !in s.running && WithinLimit(s.tasks[id], s.recoveries[id]) && s.recoveries.Keys == s.tasks.Keys
  {
    assert id in s.running ==> IsRunning(s.tasks, id);
  }

  lemma FailChangesOne(s: State, id: TaskId)
    requires id in s.tasks
    ensures var r := FailForDependency(s, id);
            && OnlyTaskChanged(s, r, id)
            && id in r.tasks && r.tasks[id].status.Failed? && r.tasks[id].dependencies == s.tasks[id].dependencies
  {
  }

  lemma FailKeepsCore(s: State, id: TaskId)
    requires Core(s) && InLine(s, id)
    ensures var r := FailForDependency(s, id);
            && Core(r) && OnlyTaskChanged(s, r, id)
            && id in r.tasks && r.tasks[id].status.Failed? && r.tasks[id].dependencies == s.tasks[id].dependencies
  {
    hide Core, WithinLimit, OnlyTaskChanged;
    FailChangesOne(s, id);
    InLineNotRunning(s, id);
    LimitOfFinished(s.tasks[id], s.recoveries[id]);
    RunningFits(s);
    var t := s.tasks[id].(status := Failed, error := Some(DEPENDENCY_FAILED));
    ChangeIsUpdate(s, id, t, s.running, s.recoveries);
    ChangeKeepsCore(s, id, t, s.running, s.recoveries);
  }

  lemma HoldChangesOne(s: State, id: TaskId)
    requires id in s.tasks
    ensures var r := Update(s, id, s.tasks[id].(status := Waiting));
            OnlyTaskChanged(s, r, id) && id in r.tasks && r.tasks[id].dependencies == s.tasks[id].dependencies
  {
  }

  lemma HoldKeepsCore(s: State, id: TaskId)
    requires Core(s) && InLine(s, id)
    ensures var r := Update(s, id, s.tasks[id].(status := Waiting));
            && Core(r) && OnlyTaskChanged(s, r, id)
            && id in r.tasks && r.tasks[id].dependencies == s.tasks[id].dependencies
  {
    hide Core, WithinLimit, OnlyTaskChanged;
    HoldChangesOne(s, id);
    InLineNotRunning(s, id);
    RunningFits(s);
    LimitOfHeld(s.tasks[id], s.recoveries[id]);
    var t := s.tasks[id].(status := Waiting);
    ChangeIsUpdate(s, id, t, s.running, s.recoveries);
    ChangeKeepsCore(s, id, t, s.running, s.recoveries);
  }

  lemma StartChangesOne(s: State, id: TaskId)
    requires id in s.tasks
    ensures var r := Start(s, id);
            && OnlyTaskChanged(s, r, id)
            && id in r.tasks && r.tasks[id].status.Running? && id in r.running
            && r.tasks[id].dependencies == s.tasks[id].dependencies
  {
  }

  lemma StartKeepsCore(s: State, id: TaskId)
    requires Core(s) && InLine(s, id) && |s.running| < s.maxConcurrent
    requires forall d :: d in s.tasks[id].dependencies ==> DependencyCompleted(s.tasks, d)
    ensures var r := Start(s, id);
            && Core(r) && OnlyTaskChanged(s, r, id)
            && id in r.tasks && r.tasks[id].status.Running? && id in r.running
            && r.tasks[id].dependencies == s.tasks[id].dependencies
  {
    hide Core, OnlyTaskChanged;
    StartChangesOne(s, id);
    InLineNotRunning(s, id);
    RunningGrows(s.running, id);
    var t := Start(s, id).tasks[id];
    var running := s.running[id := None];
    ChangeIsUpdate(s, id, t, running, s.recoveries);
    ChangeKeepsCore(s, id, t, running, s.recoveries);
  }

  lemma LimitOfHeld(t: Task, recovered: nat)
    requires WithinLimit(t, recovered) && (t.status.Queued? || t.status.Waiting?)
    ensures WithinLimit(t.(status := Waiting), recovered)
  {
  }

  lemma LimitOfFinished(t: Task, recovered: nat)
    requires WithinLimit(t, recovered)
    ensures forall t': Task :: t'.attempt == t.attempt && t'.maxAttempts == t.maxAttempts && t'.status.Terminal() ==>
              WithinLimit(t', recovered)
  {
  }

  lemma RunningFits(s: State)
    requires Core(s)
    ensures |s.running| <= s.maxConcurrent
    ensures forall id :: id in s.running ==> IsRunning(s.tasks, id)
    ensures s.live ==> forall id :: IsRunning(s.tasks, id) ==> id in s.running
  {
  }

  // The four ways a visit can end.
  ghost predicate Visited(s: State, r: State, id: TaskId) {
    && OnlyTaskChanged(s, r, id) && id in r.tasks
    && r.tasks[id].dependencies == s.tasks[id].dependencies
    && (|| (r == s && !InLine(s, id))
        || r.tasks[id].status.Terminal()
        || (r.tasks[id].status.Running? && id in r.running)
        || (Blocked(s, s.tasks[id].dependencies)
            && forall d :: d in s.tasks[id].dependencies ==> !DependencyFailed(s.tasks, d)))
  }

  ghost predicate Blocked(s: State, dependencies: seq<TaskId>) {
    exists d :: d in dependencies && !DependencyCompleted(s.tasks, d)
  }

  lemma PumpTaskKeepsCore(s: State, id: TaskId)
    requires Core(s) && |s.running| < s.maxConcurrent && id in s.tasks
    ensures Core(PumpTask(s, id)) && Visited(s, PumpTask(s, id), id)
  {
    hide Core, FailForDependency, Start, Update, OnlyTaskChanged;
    OnlyOneChanges(s, id);
    if !InLine(s, id) {
    } else if exists d :: d in s.tasks[id].dependencies && DependencyFailed(s.tasks, d) {
      FailKeepsCore(s, id);
    } else if exists d :: d in s.tasks[id].dependencies && !DependencyCompleted(s.tasks, d) {
      HoldKeepsCore(s, id);
    } else {
      StartKeepsCore(s, id);
    }
  }

  lemma OnlyOneChanges(s: State, id: TaskId)
    ensures OnlyTaskChanged(s, s, id)
  {
  }

  ghost predicate Finished(s: State, id: TaskId) { id in s.tasks && s.tasks[id].status.Terminal() }

  ghost predicate Startable(s: State, id: TaskId) { id in s.tasks && CanStart(s, id) }

  /** A visited record is left unable to start now; on an idle scheduler whose earlier records are
      finished it is left finished. */
  lemma VisitSettles(s: State, r: State, id: TaskId)
    requires Core(s) && id in s.tasks && Visited(s, r, id)
    ensures !Startable(r, id)
    ensures s.live && r.running == map[] && (forall d :: d in s.tasks[id].dependencies ==> Finished(s, d)) ==>
              Finished(r, id)
  {
    hide Core;
    if r == s && !InLine(s, id) {
      RunningFits(s);
      assert s.tasks[id].status.Running? ==> IsRunning(s.tasks, id);
    } else if Blocked(s, s.tasks[id].dependencies) {
      var d :| d in s.tasks[id].dependencies && !DependencyCompleted(s.tasks, d);
      LinksHold(s);
      DependenciesDiffer(s, id, d);
      assert !DependencyCompleted(r.tasks, d);
    }
  }

  lemma LinksHold(s: State)
    requires Core(s)
    ensures Linked(s.order, s.tasks)
  {
  }

  lemma RunningGrows(running: map<TaskId, Option<string>>, id: TaskId)
    requires id !in running
    ensures |running[id := None]| == |running| + 1
  {
    assert running[id := None].Keys == running.Keys + {id};
    assert |running.Keys + {id}| == |running.Keys| + 1;
  }

  // The records visited so far, when `rest` is still to be visited.
  ghost predicate PassSoFar(s: State, done: seq<TaskId>, rest: seq<TaskId>) {
    && s.order == done + rest
    && (forall id :: id in done ==> !Startable(s, id))
    && (s.live && s.running == map[] ==> forall id :: id in done ==> Finished(s, id))
  }

  lemma DependenciesInDone(s: State, done: seq<TaskId>, rest: seq<TaskId>, i: nat, d: TaskId)
    requires Linked(s.order, s.tasks) && s.order == done + rest && i <= |done| && i < |s.order|
    requires d in s.tasks[s.order[i]].dependencies
    ensures d in done[..i]
  {
    assert Earlier(s.order, d, i);
    assert s.order[..i] == done[..i];
  }

  // An earlier record depends on earlier records only, so a visit cannot enable it.
  lemma VisitKeepsEarlier(s: State, done: seq<TaskId>, rest: seq<TaskId>, r: State, i: nat)
    requires Linked(s.order, s.tasks) && rest != [] && s.order == done + rest && i < |done|
    requires OnlyTaskChanged(s, r, rest[0]) && !Startable(s, done[i])
    ensures done[i] != rest[0] && !Startable(r, done[i]) && (Finished(s, done[i]) ==> Finished(r, done[i]))
  {
    hide DependenciesEarlier, ParentsEarlier, ChildrenMatch;
    assert s.order[|done|] == rest[0] && s.order[i] == done[i];
    forall d | d in s.tasks[done[i]].dependencies
      ensures DependencyCompleted(r.tasks, d) <==> DependencyCompleted(s.tasks, d) {
      DependenciesInDone(s, done, rest, i, d);
      var j :| 0 <= j < i && done[j] == d;
      assert s.order[j] == d;
    }
  }

  lemma VisitExtendsPass(s: State, done: seq<TaskId>, rest: seq<TaskId>, r: State)
    requires Core(s) && rest != [] && PassSoFar(s, done, rest) && Visited(s, r, rest[0])
    ensures PassSoFar(r, done + [rest[0]], rest[1..])
  {
    hide Core, Linked, Startable, Finished, Blocked, DependencyFailed;
    LinksHold(s);
    var id := rest[0];
    assert id in s.order;
    IdInOrder(s, id);
    VisitSettles(s, r, id);
    forall k | k in done ensures !Startable(r, k) && (Finished(s, k) ==> Finished(r, k)) {
      var i :| 0 <= i < |done| && done[i] == k;
      VisitKeepsEarlier(s, done, rest, r, i);
    }
    forall d | d in s.tasks[id].dependencies ensures d in done {
      DependenciesInDone(s, done, rest, |done|, d);
    }
    assert r.order == done + [rest[0]] + rest[1..];
  }

  lemma IdInOrder(s: State, id: TaskId)
    requires Linked(s.order, s.tasks)
    ensures id in s.order <==> id in s.tasks
  {
  }

  /** One pass keeps the invariants. Afterwards no record can start unless every slot is taken, and if
      nothing runs then every record is finished: creation order is an order of dependencies, so the
      first unfinished record of an idle scheduler can always start or fail. */
  lemma {:induction false} PumpOverSettles(s: State, done: seq<TaskId>, rest: seq<TaskId>)
    requires Core(s) && PassSoFar(s, done, rest)
    ensures var r := PumpOver(s, rest);
            && Core(r) && r.order == s.order && r.live == s.live && r.shuttingDown == s.shuttingDown
            && r.pumpQueued == s.pumpQueued && r.maxConcurrent == s.maxConcurrent
            && (|r.running| < r.maxConcurrent ==> forall id :: id in r.tasks ==> !Startable(r, id))
            && (r.live && r.running == map[] ==> AllTerminal(r))
    decreases |rest|
  {
    hide Core;
    LinksHold(s);
    SlotsPositive(s);
    if rest == [] {
      assert done + rest == done;
      assert forall id :: id in s.tasks ==> id in done;
      assert s.live && s.running == map[] ==> forall id :: id in s.tasks ==> Finished(s, id);
    } else if |s.running| < s.maxConcurrent {
      assert rest[0] in s.order;
      PumpTaskKeepsCore(s, rest[0]);
      VisitExtendsPass(s, done, rest, PumpTask(s, rest[0]));
      PumpOverSettles(PumpTask(s, rest[0]), done + [rest[0]], rest[1..]);
    }
  }

  lemma SlotsPositive(s: State)
    requires Core(s)
    ensures 1 <= s.maxConcurrent
  {
  }

  // ---------- Every step keeps the invariants ----------

  // Scheduling a pump discharges both wake-up invariants, and nothing else depends on it.
  lemma SchedulingIsValid(s: State)
    requires Core(s)
    ensures Valid(SchedulePump(s))
  {
  }

  lemma PumpKeepsValid(s: State)
    requires Valid(s) && s.pumpQueued
    ensures Valid(Step(s, Pump))
  {
    hide PumpOver, Linked, StartedAfterDependencies, AttemptsBounded, RunningExact, WaitersAccounted;
    var next := s.(pumpQueued := false);
    assert Core(next);
    if !s.shuttingDown {
      PumpOverSettles(next, [], s.order);
      var r := PumpOver(next, s.order);
      assert forall id :: id in r.tasks ==> (Startable(r, id) <==> CanStart(r, id));
    }
  }

  // The wake-up invariants survive a step that enables no task and keeps the flags and the load.
  lemma StaysAwake(s: State, r: State)
    requires Awake(s) && Busy(s)
    requires r.live == s.live && r.shuttingDown == s.shuttingDown && r.pumpQueued == s.pumpQueued
    requires r.maxConcurrent == s.maxConcurrent && r.running.Keys == s.running.Keys && r.tasks.Keys == s.tasks.Keys
    requires forall k :: k in s.tasks ==> (Startable(r, k) ==> Startable(s, k)) && (Finished(s, k) ==> Finished(r, k))
    ensures Awake(r) && Busy(r)
  {
    assert |r.running| == |r.running.Keys| == |s.running.Keys| == |s.running|;
    assert r.running == map[] <==> r.running.Keys == {};
    assert s.running == map[] <==> s.running.Keys == {};
    assert forall k :: k in s.tasks ==> (Startable(s, k) <==> CanStart(s, k));
    assert forall k :: k in r.tasks ==> (Startable(r, k) <==> CanStart(r, k));
    assert AllTerminal(s) <==> forall k :: k in s.tasks ==> Finished(s, k);
    assert AllTerminal(r) <==> forall k :: k in r.tasks ==> Finished(r, k);
  }

  lemma SameTasksStartable(s: State, r: State)
    requires r.tasks == s.tasks
    ensures forall k :: (Startable(r, k) <==> Startable(s, k)) && (Finished(r, k) <==> Finished(s, k))
  {
    assert forall d :: DependencyCompleted(r.tasks, d) <==> DependencyCompleted(s.tasks, d);
  }

  // Aborting only marks controllers: the same tasks stay in the running map.
  lemma AbortKeepsValid(s: State, running: map<TaskId, Option<string>>)
    requires Valid(s) && running.Keys == s.running.Keys
    ensures Valid(s.(running := running))
  {
    hide Awake, Busy;
    assert |running| == |running.Keys| == |s.running.Keys| == |s.running|;
    SameTasksStartable(s, s.(running := running));
    StaysAwake(s, s.(running := running));
  }

  lemma CancelInLineKeepsValid(s: State, id: TaskId)
    requires Valid(s) && InLine(s, id)
    ensures Valid(Notify(Update(s, id, s.tasks[id].(status := Cancelled, error := Some(CANCELLED))), id))
  {
    hide Core, Awake, Busy, WithinLimit;
    InLineNotRunning(s, id);
    LimitOfFinished(s.tasks[id], s.recoveries[id]);
    RunningFits(s);
    var t := s.tasks[id].(status := Cancelled, error := Some(CANCELLED));
    ChangeIsUpdate(s, id, t, s.running, s.recoveries);
    ChangeKeepsCore(s, id, t, s.running, s.recoveries);
    var r := Change(s, id, t, s.running, s.recoveries);
    assert forall d :: DependencyCompleted(r.tasks, d) ==> DependencyCompleted(s.tasks, d);
    StaysAwake(s, r);
  }

  lemma CancelKeepsValid(s: State, id: TaskId)
    requires Valid(s)
    ensures Valid(Step(s, Cancel(id)))
  {
    hide Valid, Notify, Update;
    if id in s.tasks && s.tasks[id].status.Running? {
      AbortKeepsValid(s, Abort(s, id, CANCELLED).running);
    } else if InLine(s, id) {
      CancelInLineKeepsValid(s, id);
    }
  }

  lemma RetryKeepsCore(s: State, id: TaskId, t: Task)
    requires Core(s) && id in s.tasks && s.tasks[id].status.Terminal() && !s.tasks[id].status.Completed?
    requires t
             == s.tasks[id].(maxAttempts := Max(s.tasks[id].maxAttempts, s.tasks[id].attempt + 1), status := Queued,
                             error := None)
    ensures Core(Update(s, id, t))
  {
    hide Core;
    RunningFits(s);
    RecoveriesCover(s);
    assert id in s.running ==> IsRunning(s.tasks, id);
    ChangeIsUpdate(s, id, t, s.running, s.recoveries);
    ChangeKeepsCore(s, id, t, s.running, s.recoveries);
  }

  lemma RetryKeepsValid(s: State, id: TaskId)
    requires Valid(s)
    ensures Valid(Step(s, Retry(id)))
  {
    hide Core, Awake, Busy, Update;
    if id in s.tasks && s.tasks[id].status.Terminal() && !s.tasks[id].status.Completed? {
      var t := s.tasks[id].(maxAttempts := Max(s.tasks[id].maxAttempts, s.tasks[id].attempt + 1), status := Queued,
                            error := None);
      RetryKeepsCore(s, id, t);
      SchedulingIsValid(Update(s, id, t));
    }
  }

  lemma EndedTaskWithinLimit(s: State, id: TaskId, ending: Ending, recovered: nat)
    requires id in s.running && id in s.tasks && WithinLimit(s.tasks[id], recovered)
    ensures var t := EndedTask(s, id, ending);
            && SameLinks(t, s.tasks[id]) && t.attempt == s.tasks[id].attempt && !t.status.Running?
            && WithinLimit(t, recovered + if s.shuttingDown && ending.Threw? then 1 else 0)
  {
  }

  lemma EndedTaskIsAllowed(s: State, id: TaskId, ending: Ending, recoveries: map<TaskId, nat>)
    requires Core(s) && id in s.running && id in s.tasks
    requires recoveries == if s.shuttingDown && ending.Threw? then CountRecovery(s, {id}) else s.recoveries
    ensures Allowed(s, id, EndedTask(s, id, ending), s.running - {id}, recoveries)
  {
    hide Core, EndedTask, WithinLimit;
    RunningFits(s);
    RecoveriesCover(s);
    assert IsRunning(s.tasks, id);
    assert WithinLimit(s.tasks[id], s.recoveries[id]) by { LimitHolds(s, id); }
    EndedTaskWithinLimit(s, id, ending, s.recoveries[id]);
    assert (s.running - {id}).Keys == s.running.Keys - {id};
    assert |s.running.Keys - {id}| <= |s.running.Keys|;
  }

  lemma LimitHolds(s: State, id: TaskId)
    requires Core(s) && id in s.tasks
    ensures id in s.recoveries && WithinLimit(s.tasks[id], s.recoveries[id])
  {
  }

  lemma SettleKeepsValid(s: State, id: TaskId, ending: Ending)
    requires Valid(s) && id in s.running && id in s.tasks
    ensures Valid(Step(s, Settle(id, ending)))
  {
    hide Core, EndedTask, CountRecovery, Allowed;
    var t := EndedTask(s, id, ending);
    var recoveries := if s.shuttingDown && ending.Threw? then CountRecovery(s, {id}) else s.recoveries;
    EndedTaskIsAllowed(s, id, ending, recoveries);
    ChangeIsUpdate(s, id, t, s.running - {id}, recoveries);
    ChangeKeepsCore(s, id, t, s.running - {id}, recoveries);
    SchedulingIsValid(Change(s, id, t, s.running - {id}, recoveries));
    SettleIsChange(s, id, ending, recoveries);
  }

  lemma SettleIsChange(s: State, id: TaskId, ending: Ending, recoveries: map<TaskId, nat>)
    requires id in s.tasks && id in s.running
    requires recoveries == if s.shuttingDown && ending.Threw? then CountRecovery(s, {id}) else s.recoveries
    ensures SettleStep(s, id, ending)
            == SchedulePump(Change(s, id, EndedTask(s, id, ending), s.running - {id}, recoveries))
  {
    hide EndedTask;
    ChangeIsUpdate(s, id, EndedTask(s, id, ending), s.running - {id}, recoveries);
  }

  lemma WaiterAdded(pending: map<Waiter, TaskId>, resolved: map<Waiter, Task>, expired: set<Waiter>,
                    next: Waiter, tasks: map<TaskId, Task>, id: TaskId)
    requires WaitersAccounted(pending, resolved, expired, next, tasks) && id in tasks
    ensures if tasks[id].status.Terminal()
            then WaitersAccounted(pending, resolved[next := tasks[id]], expired, next + 1, tasks)
            else WaitersAccounted(pending[next := id], resolved, expired, next + 1, tasks)
  {
    assert next !in pending.Keys + resolved.Keys + expired;
    assert resolved[next := tasks[id]].Keys == resolved.Keys + {next};
    assert pending[next := id].Keys == pending.Keys + {next};
  }

  lemma WaiterExpired(pending: map<Waiter, TaskId>, resolved: map<Waiter, Task>, expired: set<Waiter>,
                      next: Waiter, tasks: map<TaskId, Task>, w: Waiter)
    requires WaitersAccounted(pending, resolved, expired, next, tasks) && w in pending
    ensures WaitersAccounted(pending - {w}, resolved, expired + {w}, next, tasks)
  {
    assert (pending - {w}).Keys + resolved.Keys + (expired + {w}) == pending.Keys + resolved.Keys + expired;
  }

  // Only the waiters differ.
  ghost predicate SameButWaiters(s: State, r: State) {
    && r.order == s.order && r.tasks == s.tasks && r.running == s.running && r.maxConcurrent == s.maxConcurrent
    && r.recoveries == s.recoveries && r.saved == s.saved
    && r.live == s.live && r.shuttingDown == s.shuttingDown && r.pumpQueued == s.pumpQueued
  }

  lemma CoreWithOtherWaiters(s: State, r: State)
    requires Core(s) && SameButWaiters(s, r)
    requires WaitersAccounted(r.pending, r.resolved, r.expired, r.nextWaiter, r.tasks)
    ensures Core(r)
  {
  }

  lemma WaitKeepsCore(s: State, id: TaskId)
    requires Core(s) && id in s.tasks
    ensures Core(WaitStep(s, id)) && SameButWaiters(s, WaitStep(s, id))
  {
    hide Core, WaitersAccounted;
    WaitersHold(s);
    WaiterAdded(s.pending, s.resolved, s.expired, s.nextWaiter, s.tasks, id);
    CoreWithOtherWaiters(s, WaitStep(s, id));
  }

  lemma ExpireKeepsCore(s: State, w: Waiter)
    requires Core(s) && w in s.pending
    ensures Core(ExpireStep(s, w)) && SameButWaiters(s, ExpireStep(s, w))
  {
    hide Core, WaitersAccounted;
    WaitersHold(s);
    WaiterExpired(s.pending, s.resolved, s.expired, s.nextWaiter, s.tasks, w);
    CoreWithOtherWaiters(s, ExpireStep(s, w));
  }

  lemma WaitersHold(s: State)
    requires Core(s)
    ensures WaitersAccounted(s.pending, s.resolved, s.expired, s.nextWaiter, s.tasks)
  {
  }

  lemma WaitingKeepsValid(s: State, r: State)
    requires Valid(s) && Core(r) && SameButWaiters(s, r)
    ensures Valid(r)
  {
    hide Core, Awake, Busy, Startable, Finished;
    SameTasksStartable(s, r);
    StaysAwake(s, r);
  }

  lemma WaitKeepsValid(s: State, c: Command)
    requires Valid(s) && (c.Wait? || (c.WaitExpires? && c.waiter in s.pending))
    ensures Valid(Step(s, c))
  {
    hide Core, Awake, Busy, WaitStep, ExpireStep, SameButWaiters;
    if c.Wait? && c.id in s.tasks {
      WaitKeepsCore(s, c.id);
      WaitingKeepsValid(s, WaitStep(s, c.id));
    } else if c.WaitExpires? {
      ExpireKeepsCore(s, c.waiter);
      WaitingKeepsValid(s, ExpireStep(s, c.waiter));
    }
  }

  lemma CrashKeepsValid(s: State)
    requires Valid(s)
    ensures Valid(Step(s, Crash))
  {
  }

  lemma RecoverKeepsBounds(s: State, tasks: map<TaskId, Task>, recoveries: map<TaskId, nat>)
    requires AttemptsBounded(s.tasks, s.recoveries)
    requires tasks == RecoveredTasks(s.tasks)
    requires recoveries == CountRecovery(s, RunningIds(s.tasks))
    ensures AttemptsBounded(tasks, recoveries)
  {
    forall id | id in tasks ensures WithinLimit(tasks[id], recoveries[id]) {
      assert WithinLimit(s.tasks[id], s.recoveries[id]);
    }
  }

  lemma RecoverKeepsLinks(s: State, tasks: map<TaskId, Task>)
    requires Linked(s.order, s.tasks) && StartedAfterDependencies(s.tasks)
    requires tasks == RecoveredTasks(s.tasks)
    ensures Linked(s.order, tasks) && StartedAfterDependencies(tasks)
  {
    hide Earlier;
    assert forall p, c :: IsChildOf(tasks, c, p) <==> IsChildOf(s.tasks, c, p);
    assert ChildrenMatch(tasks);
    assert DependenciesEarlier(s.order, tasks) && ParentsEarlier(s.order, tasks);
  }

  lemma RecoverKeepsCore(s: State, tasks: map<TaskId, Task>, recoveries: map<TaskId, nat>)
    requires Core(s) && s.running == map[]
    requires tasks == RecoveredTasks(s.tasks)
    requires recoveries == CountRecovery(s, RunningIds(s.tasks))
    ensures Core(Persist(s.(shuttingDown := false, tasks := tasks, recoveries := recoveries, live := true)))
  {
    hide Linked, StartedAfterDependencies, AttemptsBounded, WaitersAccounted, CountRecovery;
    RecoverKeepsLinks(s, tasks);
    RecoverKeepsBounds(s, tasks, recoveries);
    SameWaitersAccounted(s.pending, s.resolved, s.expired, s.nextWaiter, s.tasks, tasks);
    assert RunningExact(s.running, tasks, true);
  }

  lemma RecoverKeepsValid(s: State)
    requires Valid(s) && s.running == map[]
    ensures Valid(Step(s, Recover))
  {
    hide Core, CountRecovery, Awake, Busy;
    var tasks := RecoveredTasks(s.tasks);
    var recoveries := CountRecovery(s, RunningIds(s.tasks));
    RecoverKeepsCore(s, tasks, recoveries);
    SchedulingIsValid(Persist(s.(shuttingDown := false, tasks := tasks, recoveries := recoveries, live := true)));
  }

  lemma SameWaitersAccounted(pending: map<Waiter, TaskId>, resolved: map<Waiter, Task>, expired: set<Waiter>,
                             next: Waiter, tasks: map<TaskId, Task>, tasks': map<TaskId, Task>)
    requires WaitersAccounted(pending, resolved, expired, next, tasks)
    requires forall id :: id in tasks && !tasks[id].status.Terminal() ==> id in tasks' && !tasks'[id].status.Terminal()
    ensures WaitersAccounted(pending, resolved, expired, next, tasks')
  {
    assert forall id :: Unfinished(tasks, id) ==> Unfinished(tasks', id);
  }

  lemma EarlierExtends(order: seq<TaskId>, id: TaskId, d: TaskId, i: nat)
    requires i <= |order|
    ensures Earlier(order + [id], d, i) <==> Earlier(order, d, i)
  {
    assert (order + [id])[..i] == order[..i];
  }

  lemma SpawnKeepsChildren(s: State, c: Command)
    requires Linked(s.order, s.tasks) && c.Spawn? && c.id !in s.tasks && !SpawnRejected(s, c)
    ensures ChildrenMatch(SpawnStep(s, c).tasks)
  {
    hide Linked;
    assert ChildrenMatch(s.tasks) by { LinkedChildren(s); }
    var tasks := SpawnStep(s, c).tasks;
    forall p, k | p in tasks ensures k in tasks[p].children <==> IsChildOf(tasks, k, p) {
      NoChildrenYet(s, c.id, k);
      assert p in s.tasks ==> (k in s.tasks[p].children <==> IsChildOf(s.tasks, k, p));
    }
  }

  lemma LinkedChildren(s: State)
    requires Linked(s.order, s.tasks)
    ensures ChildrenMatch(s.tasks)
  {
  }

  // A new record at the end of the order, linked to records that are already there.
  lemma SpawnKeepsLinks(s: State, c: Command)
    requires Linked(s.order, s.tasks) && c.Spawn? && c.id !in s.tasks && !SpawnRejected(s, c)
    ensures Linked(SpawnStep(s, c).order, SpawnStep(s, c).tasks)
  {
    hide DependenciesEarlier, ParentsEarlier, ChildrenMatch;
    SpawnTasks(s, c);
    assert SpawnStep(s, c).order == s.order + [c.id];
    SpawnKeepsOrder(s, c);
    SpawnKeepsChildren(s, c);
  }

  lemma NoChildrenYet(s: State, id: TaskId, k: TaskId)
    requires Linked(s.order, s.tasks) && id !in s.tasks
    ensures !IsChildOf(s.tasks, k, id)
  {
    if k in s.tasks && s.tasks[k].parent.Some? {
      var i :| 0 <= i < |s.order| && s.order[i] == k;
      assert Earlier(s.order, s.tasks[k].parent.value, i);
    }
  }

  lemma SpawnKeepsOrder(s: State, c: Command)
    requires Linked(s.order, s.tasks) && c.Spawn? && c.id !in s.tasks && !SpawnRejected(s, c)
    ensures DependenciesEarlier(SpawnStep(s, c).order, SpawnStep(s, c).tasks)
    ensures ParentsEarlier(SpawnStep(s, c).order, SpawnStep(s, c).tasks)
  {
    var order, tasks := SpawnStep(s, c).order, SpawnStep(s, c).tasks;
    assert order == s.order + [c.id];
    forall i, d | 0 <= i < |order| && d in tasks[order[i]].dependencies ensures Earlier(order, d, i) {
      EarlierExtends(s.order, c.id, d, i);
      assert i < |s.order| ==> order[i] == s.order[i] && Earlier(s.order, d, i);
      assert s.order[..|s.order|] == s.order;
    }
    forall i | 0 <= i < |order| && tasks[order[i]].parent.Some?
      ensures Earlier(order, tasks[order[i]].parent.value, i) {
      EarlierExtends(s.order, c.id, tasks[order[i]].parent.value, i);
      assert i < |s.order| ==> order[i] == s.order[i] && Earlier(s.order, tasks[order[i]].parent.value, i);
      assert s.order[..|s.order|] == s.order;
    }
  }

  // Apart from one list of children, a spawned record changes no other record.
  lemma SpawnTasks(s: State, c: Command)
    requires c.Spawn? && c.id !in s.tasks && !SpawnRejected(s, c)
    ensures var r := SpawnStep(s, c);
            && r.tasks.Keys == s.tasks.Keys + {c.id}
            && (forall k :: k in s.tasks ==> r.tasks[k] == s.tasks[k].(children := r.tasks[k].children)
                                             && s.tasks[k].children <= r.tasks[k].children)
            && r.tasks[c.id].dependencies == c.dependencies && r.tasks[c.id].status.Queued?
            && r.tasks[c.id].attempt == 0 && r.tasks[c.id].maxAttempts >= 1
  {
  }

  ghost predicate OneAdded(tasks: map<TaskId, Task>, tasks': map<TaskId, Task>, id: TaskId) {
    && id !in tasks && tasks'.Keys == tasks.Keys + {id}
    && (forall k :: k in tasks ==> tasks'[k] == tasks[k].(children := tasks'[k].children))
    && tasks'[id].attempt == 0 && tasks'[id].maxAttempts >= 1 && tasks'[id].status.Queued?
  }

  lemma AddedKeepsStarted(tasks: map<TaskId, Task>, tasks': map<TaskId, Task>, id: TaskId)
    requires StartedAfterDependencies(tasks) && OneAdded(tasks, tasks', id)
    ensures StartedAfterDependencies(tasks')
  {
  }

  lemma AddedKeepsBounds(tasks: map<TaskId, Task>, tasks': map<TaskId, Task>, id: TaskId, recoveries: map<TaskId, nat>)
    requires AttemptsBounded(tasks, recoveries) && OneAdded(tasks, tasks', id)
    ensures AttemptsBounded(tasks', recoveries[id := 0])
  {
  }

  lemma AddedKeepsRunning(tasks: map<TaskId, Task>, tasks': map<TaskId, Task>, id: TaskId,
                          running: map<TaskId, Option<string>>, live: bool)
    requires RunningExact(running, tasks, live) && OneAdded(tasks, tasks', id)
    ensures RunningExact(running, tasks', live)
  {
    assert forall k :: IsRunning(tasks', k) <==> IsRunning(tasks, k);
  }

  lemma SpawnKeepsCounts(s: State, c: Command)
    requires Core(s) && c.Spawn? && c.id !in s.tasks && !SpawnRejected(s, c)
    ensures var r := SpawnStep(s, c);
            && StartedAfterDependencies(r.tasks) && AttemptsBounded(r.tasks, r.recoveries)
            && RunningExact(r.running, r.tasks, r.live)
  {
    hide Linked, WaitersAccounted, StartedAfterDependencies, AttemptsBounded, RunningExact, SpawnStep, SpawnRejected;
    var r := SpawnStep(s, c);
    SpawnTasks(s, c);
    SpawnFrame(s, c);
    AddedKeepsStarted(s.tasks, r.tasks, c.id);
    AddedKeepsBounds(s.tasks, r.tasks, c.id, s.recoveries);
    AddedKeepsRunning(s.tasks, r.tasks, c.id, s.running, s.live);
  }

  lemma SpawnKeepsValid(s: State, c: Command)
    requires Valid(s) && c.Spawn? && c.id !in s.tasks && !SpawnRejected(s, c)
    ensures Valid(SpawnStep(s, c))
  {
    hide Linked, WaitersAccounted, StartedAfterDependencies, AttemptsBounded, RunningExact, SpawnStep, SpawnRejected,
      Awake, Busy;
    var r := SpawnStep(s, c);
    SpawnKeepsLinks(s, c);
    SpawnKeepsCounts(s, c);
    SpawnTasks(s, c);
    SpawnFrame(s, c);
    SameWaitersAccounted(s.pending, s.resolved, s.expired, s.nextWaiter, s.tasks, r.tasks);
    SchedulingIsValid(r);
  }

  lemma SpawnFrame(s: State, c: Command)
    requires c.Spawn?
    ensures var r := SpawnStep(s, c);
            && r.running == s.running && r.live == s.live && r.maxConcurrent == s.maxConcurrent
            && r.pending == s.pending && r.resolved == s.resolved
            && r.expired == s.expired && r.nextWaiter == s.nextWaiter
            && r.saved == Snapshot(r.order, r.tasks) && SchedulePump(r) == r
            && r.recoveries == s.recoveries[c.id := 0]
  {
  }

  /** Every step keeps all the invariants. */
  lemma StepKeepsValid(s: State, c: Command)
    requires Valid(s) && Enabled(s, c)
    ensures Valid(Step(s, c))
  {
    hide Valid, PumpOver, SettleStep, RecoverStep;
    match c
    case Spawn(_, _, _, _, _) => if !SpawnRejected(s, c) { SpawnKeepsValid(s, c); }
    case Cancel(id) => CancelKeepsValid(s, id);
    case Retry(id) => RetryKeepsValid(s, id);
    case Wait(id) => WaitKeepsValid(s, c);
    case WaitExpires(_) => WaitKeepsValid(s, c);
    case Pump => PumpKeepsValid(s);
    case TimerFires(id) => AbortKeepsValid(s, Step(s, c).running);
    case Settle(id, ending) => SettleKeepsValid(s, id, ending);
    case Shutdown => ShutdownKeepsValid(s);
    case Recover => RecoverKeepsValid(s);
    case Crash => CrashKeepsValid(s);
  }

  lemma ShutdownKeepsValid(s: State)
    requires Valid(s)
    ensures Valid(Step(s, Shutdown))
  {
    var running := Step(s, Shutdown).running;
    assert running.Keys == s.running.Keys;
    AbortKeepsValid(s, running);
  }
}
