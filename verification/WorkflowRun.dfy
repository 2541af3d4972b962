/** The run aggregate as an object whose methods change it in place. Every method does to the fields
what the function of the same purpose in module Run does to the value; loops over the task table visit
it in an arbitrary order. */
module WorkflowRun {
  import opened Ids
  import opened Definition
  import opened Edges
  import G = Graph
  import opened Run
  import S = Snapshot

  class WorkflowRun {
    const id: Text
    const definition: WorkflowDefinition
    const createdAt: Time
    var version: nat
    var status: RunStatus
    var tasks: map<Text, TaskRun>
    var workers: map<Text, Heartbeat>
    var updatedAt: Time

    function State(): RunState
      reads this
    {
      RunState(id, definition, version, status, tasks, workers, createdAt, updatedAt)
    }

    /** From a state: a fresh one, or one read back from a snapshot. */
    constructor (run: RunState)
      ensures State() == run
    {
      id, definition, createdAt := run.id, run.definition, run.createdAt;
      version, status, tasks, workers, updatedAt := run.version, run.status, run.tasks, run.workers, run.updatedAt;
    }

    method SetPersistedVersion(next: nat)
      modifies this`version
      ensures State() == old(State()).(version := next)
    {
      version := next;
    }

    method TransitionTask(t: Text, target: TaskStatus, output: Text, error: Option<Text>, now: Time)
      returns (fault: Option<RunError>)
      modifies this`tasks, this`updatedAt
      ensures var r := Run.TransitionTask(old(State()), t, target, output, error, now);
              if r.Ok? then fault.None? && State() == r.value else fault == Some(r.error) && State() == old(State())
    {
      if t !in tasks {
        return Some(UnknownTask(t));
      }
      var task := tasks[t];
      if !LegalTaskTransition(task.status, target) {
        return Some(IllegalTaskTransition(t, task.status, target));
      }
      var timestamp := NextTimestamp(State(), now);
      task := task.(status := target, output := [], error := [], updatedAt := timestamp);
      if target.Running? {
        var taskRunId := TaskRunIdFor(id, t);
        var count := task.attemptCount + 1;
        task := task.(attemptCount := count, taskRunId := taskRunId,
                      currentAttemptId := if count < 0 then [] else AttemptIdFor(taskRunId, count),
                      startedAt := timestamp, finishedAt := 0, nextAttemptAt := 0);
      }
      if target.Succeeded? {
        task := task.(output := output);
      }
      if (target.Failed? || target.Canceled?) && error.Some? {
        task := task.(error := error.value);
      }
      if target.Terminal() {
        task := task.(finishedAt := timestamp, lease := None, nextAttemptAt := 0);
      }
      tasks := tasks[t := task];
      updatedAt := timestamp;
      return None;
    }

    method TransitionWorkflow(target: RunStatus, now: Time) returns (fault: Option<RunError>)
      modifies this`status, this`updatedAt
      ensures var r := TransitionRun(old(State()), target, now);
              if r.Ok? then fault.None? && State() == r.value else fault == Some(r.error) && State() == old(State())
    {
      if !LegalRunTransition(status, target) {
        return Some(IllegalRunTransition(status, target));
      }
      status := target;
      updatedAt := NextTimestamp(State(), now);
      return None;
    }

    method CancelUnfinished(cause: Text, now: Time)
      modifies this`tasks, this`updatedAt
      ensures State() == Run.CancelUnfinished(old(State()), cause, now)
    {
      var timestamp := NextTimestamp(State(), now);
      var changed := CancelTasks(cause, timestamp);
      if changed {
        updatedAt := timestamp;
      }
    }

    method CancelTasks(cause: Text, timestamp: Time) returns (changed: bool)
      modifies this`tasks
      ensures tasks == map t | t in old(tasks) :: CanceledTask(old(tasks)[t], cause, timestamp)
      ensures changed <==> HasUnfinished(old(State()))
    {
      var before := tasks;
      changed := false;
      var todo := tasks.Keys;
      while todo != {}
        invariant todo <= tasks.Keys == before.Keys
        invariant forall t :: t in before ==> tasks[t] == if t in todo then before[t]
                  else CanceledTask(before[t], cause, timestamp)
        invariant changed ==> exists t :: t in before && !before[t].status.Terminal()
        invariant !changed ==> forall t :: t in before && t !in todo ==> before[t].status.Terminal()
        decreases todo
      {
        var t :| t in todo;
        todo := todo - {t};
        if !before[t].status.Terminal() {
          tasks := tasks[t := before[t].(status := Canceled, output := [], error := cause, updatedAt := timestamp,
                                         finishedAt := timestamp, nextAttemptAt := 0, lease := None)];
          changed := true;
        }
      }
    }

    method RecordWorkerHeartbeat(workerId: Text, leaseDuration: int, now: Time) returns (fault: Option<RunError>)
      modifies this`tasks, this`workers, this`updatedAt
      ensures var r := RecordHeartbeat(old(State()), workerId, leaseDuration, now);
              if r.Ok? then fault.None? && State() == r.value else fault == Some(r.error) && State() == old(State())
    {
      if !ValidIdentifier(workerId) {
        return Some(InvalidWorker(workerId));
      }
      if leaseDuration <= 0 {
        return Some(InvalidLeaseDuration);
      }
      var timestamp := NextTimestamp(State(), now);
      workers := workers[workerId := Heartbeat(workerId, timestamp)];
      ExtendLeases(workerId, leaseDuration, timestamp);
      updatedAt := timestamp;
      return None;
    }

    method ExtendLeases(workerId: Text, leaseDuration: nat, timestamp: Time)
      modifies this`tasks
      ensures tasks == map t | t in old(tasks) :: BeatTask(old(tasks)[t], workerId, leaseDuration, timestamp)
    {
      hide BeatTask;
      var before := tasks;
      var todo := tasks.Keys;
      while todo != {}
        invariant todo <= tasks.Keys == before.Keys
        invariant forall t :: t in before ==> tasks[t] == if t in todo then before[t]
                  else BeatTask(before[t], workerId, leaseDuration, timestamp)
        decreases todo
      {
        var t :| t in todo;
        todo := todo - {t};
        var task := ExtendLease(before[t], workerId, leaseDuration, timestamp);
        tasks := tasks[t := task];
      }
    }

    method StartTaskAttempt(t: Text, workerId: Text, leaseDuration: int, now: Time) returns (r: Result<Text, RunError>)
      modifies this`tasks, this`workers, this`updatedAt
      ensures var s := StartAttempt(old(State()), t, workerId, leaseDuration, now);
              if s.Ok? then State() == s.value && r.Ok? && r.value == s.value.tasks[t].currentAttemptId
              else r == Err(s.error) && State() == old(State())
    {
      if !ValidIdentifier(workerId) {
        return Err(InvalidWorker(workerId));
      }
      if leaseDuration <= 0 {
        return Err(InvalidLeaseDuration);
      }
      if t !in tasks {
        return Err(UnknownTask(t));
      }
      var task := tasks[t];
      if task.status != Ready {
        return Err(IllegalTaskTransition(t, task.status, Running));
      }
      var timestamp := NextTimestamp(State(), now);
      task := task.(taskRunId := TaskRunIdFor(id, t), attemptCount := task.attemptCount + 1);
      task := task.(currentAttemptId := if task.attemptCount < 0 then []
                    else AttemptIdFor(task.taskRunId, task.attemptCount));
      task := task.(status := Running, output := [], error := [], nextAttemptAt := 0, startedAt := timestamp,
                    finishedAt := 0,
                    updatedAt := timestamp,
                    lease := Some(Lease(workerId, task.taskRunId, task.currentAttemptId, timestamp + leaseDuration)));
      tasks := tasks[t := task];
      workers := workers[workerId := Heartbeat(workerId, timestamp)];
      updatedAt := timestamp;
      return Ok(task.currentAttemptId);
    }

    method CompleteTaskAttempt(t: Text, taskRunId: Text, workerId: Text, attemptId: Text, output: Text,
                               error: Option<TaskError>, now: Time)
      returns (r: Result<Outcome, RunError>)
      modifies this`tasks, this`updatedAt
      ensures var c := CompleteAttempt(old(State()), t, taskRunId, workerId, attemptId, output, error, now);
              if c.Ok? then r == Ok(c.value.1) && State() == c.value.0 else r == Err(c.error) && State() == old(State())
    {
      if t !in tasks {
        return Err(UnknownTask(t));
      }
      var task := tasks[t];
      if !MayComplete(task, taskRunId, workerId, attemptId) {
        return Ok(Ignored);
      }
      var timestamp := NextTimestamp(State(), now);
      task := task.(lease := None, updatedAt := timestamp, finishedAt := timestamp, nextAttemptAt := 0);
      updatedAt := timestamp;
      if error.None? {
        tasks := tasks[t := task.(status := Succeeded, output := output, error := [])];
        return Ok(Completed);
      }
      task := task.(output := [], error := error.value.message);
      var policy := RetryPolicyFor(definition, t);
      if error.value.retryable && task.attemptCount < EffectiveMaxAttempts(policy) {
        var delay := RetryDelay(policy, task.attemptCount);
        if delay == 0 {
          task := task.(status := Ready);
        } else {
          task := task.(status := RetryWaiting, nextAttemptAt := timestamp + delay);
        }
        tasks := tasks[t := task];
        return Ok(RetryScheduled);
      }
      tasks := tasks[t := task.(status := Failed)];
      return Ok(Exhausted);
    }

    /** End every attempt whose lease is missing or has run out; report in task order. */
    method RecoverExpiredLeases(now: Time) returns (recoveries: seq<Recovery>)
      modifies this`tasks, this`updatedAt
      ensures State() == RecoverExpired(old(State()), now) && recoveries == Recoveries(old(State()), now)
    {
      hide RecoveredTask, PolicyOf, RecoveryOf, Expired, SortedSeq;
      var before := State();
      var timestamp := NextTimestamp(before, now);
      var ended, reports := EndExpired(before, timestamp);
      tasks := ended;
      if reports != map[] {
        var t :| t in reports;
        assert t in ExpiredTasks(before, timestamp);
        updatedAt := timestamp;
      }
      assert reports.Keys == ExpiredTasks(before, timestamp);
      var sorted := SortedKeys(reports.Keys);
      recoveries := Ordered(before, sorted, reports);
    }

    /** Make the tasks whose retry is due ready again; report in task order. */
    method PromoteDueRetries(now: Time) returns (promoted: seq<Text>)
      modifies this`tasks, this`updatedAt
      ensures State() == PromoteDue(old(State()), now)
      ensures promoted == SortedSeq(DueTasks(old(State()), NextTimestamp(old(State()), now)))
    {
      var before := State();
      var timestamp := NextTimestamp(before, now);
      var found;
      tasks, found := Promote(tasks, timestamp);
      if |found| > 0 {
        assert found[0] in DueTasks(before, timestamp);
        updatedAt := timestamp;
      }
      promoted := SortTexts(found);
      SortedUnique(promoted, SortedSeq(DueTasks(before, timestamp)));
    }

    /** The earliest moment at which a lease runs out or a retry falls due; at once if a running task has no lease. */
    method NextReliabilityDeadline() returns (deadline: Time, waiting: bool)
      ensures Unleased(tasks) ==> waiting && deadline == updatedAt
      ensures waiting ==> exists t :: t in tasks && TaskDeadline(State(), tasks[t]) == Some(deadline)
      ensures AllTimed(tasks) ==> (waiting <==> Waiting(State()))
      ensures waiting && AllTimed(tasks) && !Unleased(tasks) ==>
                forall t :: t in tasks && TaskDeadline(State(), tasks[t]).Some? ==>
                  deadline <= TaskDeadline(State(), tasks[t]).value
    {
      deadline, waiting := EarliestDeadline(State());
    }

    /** The durable form: tasks and workers in the order of their identifiers. */
    method Snapshot() returns (s: S.RunSnapshot)
      ensures s == S.SnapshotOf(State())
    {
      var taskIds := SortedKeys(tasks.Keys);
      var workerIds := SortedKeys(workers.Keys);
      s := S.RunSnapshot(id, definition.id, version, status, createdAt, updatedAt,
                         S.ListTasks(tasks, taskIds), S.ListWorkers(workers, workerIds));
    }

    /** Make the pending tasks whose dependencies are completed ready, each at its own clock reading. */
    method MarkNewReady(completed: set<Text>, clock: Clock) returns (r: Result<set<Text>, ()>)
      modifies this`tasks, this`updatedAt
      ensures r.Ok? <==> G.ValidDefinition(definition) && completed <= TaskIds(definition)
      ensures r.Ok? ==> State() == Run.MarkNewReady(old(State()), completed, clock)
                        && r.value == NewlyReady(old(State()), completed)
      ensures r.Err? ==> State() == old(State())
    {
      hide G.ValidDefinition;
      var candidates := G.ReadyTasks(definition, completed);
      if candidates.Err? {
        return Err(());
      }
      var ids := ListedIds(definition, candidates.value, Available(G.EdgesOf(definition), completed));
      var marked := MarkTasks(ids, clock);
      return Ok(marked);
    }

    method MarkTasks(ids: seq<Text>, clock: Clock) returns (marked: set<Text>)
      modifies this`tasks, this`updatedAt
      ensures State() == MarkReady(old(State()), ids, clock)
      ensures forall t :: t in marked <==> t in ids && t in old(tasks) && old(tasks)[t].status.Pending?
    {
      hide MarkReady;
      marked := {};
      ghost var before := State();
      assert ids[0..] == ids;
      for n := 0 to |ids|
        invariant MarkReady(before, ids, clock) == MarkReady(State(), ids[n..], clock)
        invariant tasks.Keys == before.tasks.Keys
        invariant forall t :: t in tasks ==> (tasks[t].status.Pending? <==>
                                                before.tasks[t].status.Pending? && t !in marked)
        invariant forall t :: t in marked <==> t in ids[..n] && t in before.tasks && before.tasks[t].status.Pending?
      {
        var t := ids[n];
        assert ids[..n + 1] == ids[..n] + [t];
        MarkNext(State(), ids, n, clock);
        var did := MarkTask(t, clock(|ids| - n));
        if did {
          marked := marked + {t};
        }
      }
      assert ids[..|ids|] == ids && ids[|ids|..] == [];
      MarkNothing(State(), clock);
    }

    method MarkTask(t: Text, now: Time) returns (did: bool)
      modifies this`tasks, this`updatedAt
      ensures did <==> t in old(tasks) && old(tasks)[t].status.Pending?
      ensures State() == if !did then old(State())
                         else var ts := NextTimestamp(old(State()), now);
                              PutTask(old(State()), t,
                                      old(tasks)[t].(status := Ready, output := [], error := [], updatedAt := ts), ts)
    {
      if t !in tasks || !tasks[t].status.Pending? {
        return false;
      }
      updatedAt := NextTimestamp(State(), now);
      tasks := tasks[t := tasks[t].(status := Ready, output := [], error := [], updatedAt := updatedAt)];
      return true;
    }
  }

  /** A heartbeat pushes back the expiry of a lease its worker still holds. */
  method ExtendLease(task: TaskRun, workerId: Text, leaseDuration: nat, timestamp: Time) returns (next: TaskRun)
    ensures next == BeatTask(task, workerId, leaseDuration, timestamp)
  {
    if !task.status.Running? || task.lease.None? || task.lease.value.workerId != workerId {
      return task;
    }
    if timestamp >= task.lease.value.expiresAt {
      return task;
    }
    return task.(lease := Some(task.lease.value.(expiresAt := timestamp + leaseDuration)), updatedAt := timestamp);
  }

  /** A task that waits for a moment names one. */
  predicate Timed(task: TaskRun) {
    && (task.status.Running? && task.lease.Some? ==> task.lease.value.expiresAt > 0)
    && (task.status.RetryWaiting? ==> task.nextAttemptAt > 0)
  }

  predicate Unleased(tasks: map<Text, TaskRun>) {
    exists t :: t in tasks && tasks[t].status.Running? && tasks[t].lease.None?
  }

  /** No lease ends and no retry falls due at the zero time, which stands for "none yet" in the search. */
  predicate AllTimed(tasks: map<Text, TaskRun>) {
    forall t :: t in tasks ==> Timed(tasks[t])
  }

  predicate NoLease(task: TaskRun) { task.status.Running? && task.lease.None? }

  /** A deadline that has been found lies no later than that of a task; none has been found if it is zero. */
  predicate Beyond(run: RunState, task: TaskRun, deadline: Time) {
    TaskDeadline(run, task).Some? ==> 0 < deadline <= TaskDeadline(run, task).value
  }

  lemma DeadlineFacts(run: RunState, task: TaskRun)
    ensures NoLease(task) ==> TaskDeadline(run, task) == Some(run.updatedAt)
    ensures !NoLease(task) && Timed(task) && TaskDeadline(run, task).Some? ==> TaskDeadline(run, task).value > 0
  {
  }

  lemma WaitingFacts(run: RunState)
    ensures Waiting(run) <==> exists t :: t in run.tasks && TaskDeadline(run, run.tasks[t]).Some?
  {
  }

  method EarliestDeadline(run: RunState) returns (deadline: Time, waiting: bool)
    ensures Unleased(run.tasks) ==> waiting && deadline == run.updatedAt
    ensures waiting ==> exists t :: t in run.tasks && TaskDeadline(run, run.tasks[t]) == Some(deadline)
    ensures AllTimed(run.tasks) ==> (waiting <==> Waiting(run))
    ensures waiting && AllTimed(run.tasks) && !Unleased(run.tasks) ==>
              forall t :: t in run.tasks && TaskDeadline(run, run.tasks[t]).Some? ==>
                deadline <= TaskDeadline(run, run.tasks[t]).value
  {
    hide TaskDeadline, Timed;
    deadline := 0;
    var todo := run.tasks.Keys;
    while todo != {}
      invariant todo <= run.tasks.Keys
      invariant forall t :: t in run.tasks && t !in todo ==> !NoLease(run.tasks[t])
      invariant deadline > 0 ==> exists t :: t in run.tasks && TaskDeadline(run, run.tasks[t]) == Some(deadline)
      invariant AllTimed(run.tasks) ==> forall t :: t in run.tasks && t !in todo ==> Beyond(run, run.tasks[t], deadline)
      decreases todo
    {
      var t :| t in todo;
      todo := todo - {t};
      DeadlineFacts(run, run.tasks[t]);
      if run.tasks[t].status.Running? && run.tasks[t].lease.None? {
        return run.updatedAt, true;
      }
      var candidate := TaskDeadline(run, run.tasks[t]);
      if candidate.Some? && (deadline == 0 || candidate.value < deadline) {
        deadline := candidate.value;
      }
    }
    waiting := deadline != 0;
    WaitingFacts(run);
  }

  /** Collect the keys of a table in any order, then sort them. */
  method SortedKeys(keys: set<Text>) returns (ids: seq<Text>)
    ensures ids == SortedSeq(keys)
  {
    var found: seq<Text> := [];
    var todo := keys;
    while todo != {}
      invariant todo <= keys && Distinct(found) && forall x :: x in found <==> x in keys && x !in todo
      decreases todo
    {
      var x :| x in todo;
      todo := todo - {x};
      found := found + [x];
    }
    ids := SortTexts(found);
    SortedUnique(ids, SortedSeq(keys));
  }

  /** The identifiers of a list of tasks in identifier order. */
  method ListedIds(definition: WorkflowDefinition, list: seq<TaskDefinition>, ghost available: set<Text>)
    returns (ids: seq<Text>)
    requires G.ListsTasks(definition, list, available)
    ensures ids == SortedSeq(available)
  {
    ids := [];
    for n := 0 to |list|
      invariant |ids| == n && forall i :: 0 <= i < n ==> ids[i] == list[i].id
    {
      ids := ids + [list[n].id];
    }
    forall x ensures x in ids <==> x in available {
      if x in available {
        var i :| 0 <= i < |list| && list[i].id == x;
        assert ids[i] == x;
      }
    }
    SortedUnique(ids, SortedSeq(available));
  }

  /** The retry policy of a task: that of the first definition with its identifier. */
  method RetryPolicyFor(definition: WorkflowDefinition, t: Text) returns (policy: RetryPolicy)
    ensures policy == PolicyOf(definition, t)
  {
    var n := 0;
    while n < |definition.tasks|
      invariant 0 <= n <= |definition.tasks|
      invariant FindTask(definition.tasks, t) == FindTask(definition.tasks[n..], t)
    {
      if definition.tasks[n].id == t {
        return definition.tasks[n].retry;
      }
      assert definition.tasks[n..][1..] == definition.tasks[n + 1..];
      n := n + 1;
    }
    return RetryPolicy(0, 0, 0);
  }

  /** One candidate of the list is marked, and the rest are left to mark. */
  lemma MarkNext(run: RunState, ids: seq<Text>, n: nat, clock: Clock)
    requires n < |ids|
    ensures var t, ts := ids[n], NextTimestamp(run, clock(|ids| - n));
            MarkReady(run, ids[n..], clock) ==
            MarkReady(if t in run.tasks && run.tasks[t].status.Pending?
                      then PutTask(run, t, run.tasks[t].(status := Ready, output := [], error := [], updatedAt := ts),
                                   ts)
                      else run,
                      ids[n + 1..], clock)
  {
    assert ids[n..][1..] == ids[n + 1..];
  }

  lemma MarkNothing(run: RunState, clock: Clock)
    ensures MarkReady(run, [], clock) == run
  {
  }

  /** The due tasks of a table are ready again. */
  method Promote(before: map<Text, TaskRun>, timestamp: Time) returns (tasks: map<Text, TaskRun>, found: seq<Text>)
    ensures tasks == map t | t in before ::
              if Due(before[t], timestamp) then PromotedTask(before[t], timestamp) else before[t]
    ensures Distinct(found) && forall t :: t in found <==> t in before && Due(before[t], timestamp)
  {
    hide Due, PromotedTask;
    ghost var goal := map t | t in before ::
      if Due(before[t], timestamp) then PromotedTask(before[t], timestamp) else before[t];
    tasks, found := before, [];
    var todo := before.Keys;
    while todo != {}
      invariant todo <= before.Keys == tasks.Keys
      invariant forall t :: t in before ==> tasks[t] == if t in todo then before[t] else goal[t]
      invariant Distinct(found) && forall t :: t in found <==> t in before && t !in todo && Due(before[t], timestamp)
      decreases todo
    {
      var t :| t in todo;
      todo := todo - {t};
      if Due(before[t], timestamp) {
        tasks := tasks[t := PromotedTask(before[t], timestamp)];
        found := found + [t];
      }
    }
  }

  /** Visit the tasks in any order; what comes of each expired one is noted under its identifier. */
  method EndExpired(run: RunState, timestamp: Time) returns (tasks: map<Text, TaskRun>, reports: map<Text, Recovery>)
    ensures tasks == map t | t in run.tasks ::
              if Expired(run.tasks[t], timestamp)
                then RecoveredTask(run.id, PolicyOf(run.definition, t), t, run.tasks[t], timestamp)
              else run.tasks[t]
    ensures reports.Keys == ExpiredTasks(run, timestamp)
    ensures forall t :: t in reports ==> t in run.tasks && reports[t] == RecoveryOf(run, t)
  {
    hide RecoveredTask, PolicyOf, Expired, RecoveryOf;
    ghost var goal := map t | t in run.tasks ::
      if Expired(run.tasks[t], timestamp)
      then RecoveredTask(run.id, PolicyOf(run.definition, t), t, run.tasks[t], timestamp)
      else run.tasks[t];
    tasks, reports := run.tasks, map[];
    var todo := run.tasks.Keys;
    while todo != {}
      invariant todo <= run.tasks.Keys == tasks.Keys
      invariant forall t :: t in run.tasks ==> tasks[t] == if t in todo then run.tasks[t] else goal[t]
      invariant forall t :: t in reports <==> t in run.tasks && t !in todo && Expired(run.tasks[t], timestamp)
      invariant forall t :: t in reports ==> reports[t] == RecoveryOf(run, t)
      decreases todo
    {
      var t :| t in todo;
      todo := todo - {t};
      if Expired(run.tasks[t], timestamp) {
        var policy := RetryPolicyFor(run.definition, t);
        var task, report := EndAttempt(run, policy, t, timestamp);
        tasks := tasks[t := task];
        reports := reports[t := report];
      }
    }
  }

  /** An attempt whose lease is gone: the task is tried again, at once or later, or has failed. */
  method EndAttempt(run: RunState, policy: RetryPolicy, t: Text, timestamp: Time)
    returns (task: TaskRun, report: Recovery)
    requires t in run.tasks && policy == PolicyOf(run.definition, t)
    ensures task == RecoveredTask(run.id, policy, t, run.tasks[t], timestamp) && report == RecoveryOf(run, t)
  {
    task := run.tasks[t];
    var attemptId := task.currentAttemptId;
    var workerId := if task.lease.Some? then task.lease.value.workerId else [];
    if |attemptId| == 0 && task.attemptCount > 0 {
      task := task.(taskRunId := TaskRunIdFor(run.id, t));
      attemptId := AttemptIdFor(task.taskRunId, task.attemptCount);
      task := task.(currentAttemptId := attemptId);
    }
    task := task.(lease := None, output := [], error := LeaseExpired(attemptId, t, run.id), updatedAt := timestamp,
                  finishedAt := timestamp,
                  nextAttemptAt := 0);
    var outcome := Exhausted;
    if task.attemptCount < EffectiveMaxAttempts(policy) {
      var delay := RetryDelay(policy, task.attemptCount);
      if delay == 0 {
        task := task.(status := Ready);
      } else {
        task := task.(status := RetryWaiting, nextAttemptAt := timestamp + delay);
      }
      outcome := RetryScheduled;
    } else {
      task := task.(status := Failed);
    }
    report := Recovery(t, attemptId, workerId, outcome);
  }

  /** The reports in the order of their tasks. */
  method Ordered(run: RunState, ids: seq<Text>, reports: map<Text, Recovery>) returns (recoveries: seq<Recovery>)
    requires forall t :: t in ids ==> t in run.tasks && t in reports && reports[t] == RecoveryOf(run, t)
    ensures |recoveries| == |ids| && forall i :: 0 <= i < |ids| ==>
              ids[i] in run.tasks && recoveries[i] == RecoveryOf(run, ids[i])
  {
    recoveries := [];
    for n := 0 to |ids|
      invariant |recoveries| == n && forall i :: 0 <= i < n ==>
                  ids[i] in run.tasks && recoveries[i] == RecoveryOf(run, ids[i])
    {
      assert ids[n] in ids;
      recoveries := recoveries + [reports[ids[n]]];
    }
  }

  method PendingTasks(runId: Text, definition: WorkflowDefinition, now: Time) returns (tasks: map<Text, TaskRun>)
    ensures tasks == map t | t in TaskIds(definition) :: FreshTask(runId, t, now)
  {
    hide FreshTask;
    tasks := map[];
    for n := 0 to |definition.tasks|
      invariant tasks.Keys == set i | 0 <= i < n :: definition.tasks[i].id
      invariant forall t :: t in tasks ==> tasks[t] == FreshTask(runId, t, now)
    {
      var task := PendingTask(runId, definition.tasks[n].id, now);
      tasks := tasks[definition.tasks[n].id := task];
    }
  }

  method PendingTask(runId: Text, t: Text, now: Time) returns (task: TaskRun)
    ensures task == FreshTask(runId, t, now)
  {
    task := TaskRun(t, TaskRunIdFor(runId, t), Pending, [], [], 0, [], 0, None, now, 0, 0);
  }

  /** A new run: every task of the definition pending, at version zero. */
  method NewWorkflowRun(runId: Text, definition: WorkflowDefinition, now: Time) returns (r: Result<RunState, RunError>)
    ensures r == NewRun(runId, definition, now)
  {
    hide G.ValidDefinition, ValidIdentifier, FreshTask;
    if !ValidIdentifier(runId) {
      return Err(InvalidRunId);
    }
    var valid := G.Validate(definition);
    if valid.Err? {
      return Err(InvalidDefinition);
    }
    var tasks := PendingTasks(runId, definition, now);
    return Ok(RunState(runId, definition, 0, RunPending, tasks, map[], now, now));
  }
}
