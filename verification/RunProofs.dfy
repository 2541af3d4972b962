/** Every operation keeps the run invariant and only moves tasks forward. */
module RunProofs {
  import opened Ids
  import opened Definition
  import opened Edges
  import opened Graph
  import opened Run

  // ------------------------------------------------------------------
  // One task

  lemma StartedTaskOk(runId: Text, createdAt: Time, max: int, t: Text, task: TaskRun, workerId: Text,
                      leaseDuration: nat, ts: Time)
    requires TaskOk(runId, createdAt, max, t, task) && task.status.Ready?
    requires ValidIdentifier(workerId) && 0 < leaseDuration && 0 < createdAt <= ts
    ensures TaskOk(runId, createdAt, max, t, StartedTask(runId, t, task, workerId, leaseDuration, ts))
    ensures Advance(max, task, StartedTask(runId, t, task, workerId, leaseDuration, ts))
  {
  }

  lemma CanceledTaskOk(runId: Text, createdAt: Time, max: int, t: Text, task: TaskRun, cause: Text, ts: Time)
    requires TaskOk(runId, createdAt, max, t, task) && 0 < createdAt <= ts
    ensures TaskOk(runId, createdAt, max, t, CanceledTask(task, cause, ts))
    ensures Advance(max, task, CanceledTask(task, cause, ts))
  {
  }

  lemma BeatTaskOk(runId: Text, createdAt: Time, max: int, t: Text, task: TaskRun, workerId: Text, leaseDuration: nat,
                   ts: Time)
    requires TaskOk(runId, createdAt, max, t, task) && 0 < leaseDuration && 0 < createdAt <= ts
    ensures TaskOk(runId, createdAt, max, t, BeatTask(task, workerId, leaseDuration, ts))
    ensures Advance(max, task, BeatTask(task, workerId, leaseDuration, ts))
  {
  }

  lemma CompletedTaskOk(runId: Text, createdAt: Time, policy: RetryPolicy, t: Text, task: TaskRun, output: Text,
                        error: Option<TaskError>, ts: Time)
    requires TaskOk(runId, createdAt, EffectiveMaxAttempts(policy), t, task) && task.status.Running?
    requires 0 < createdAt <= ts
    ensures TaskOk(runId, createdAt, EffectiveMaxAttempts(policy), t, CompletedTask(policy, task, output, error, ts).0)
    ensures Advance(EffectiveMaxAttempts(policy), task, CompletedTask(policy, task, output, error, ts).0)
  {
  }

  lemma RecoveredTaskOk(runId: Text, createdAt: Time, policy: RetryPolicy, t: Text, task: TaskRun, ts: Time)
    requires TaskOk(runId, createdAt, EffectiveMaxAttempts(policy), t, task) && task.status.Running?
    requires 0 < createdAt <= ts
    ensures TaskOk(runId, createdAt, EffectiveMaxAttempts(policy), t, RecoveredTask(runId, policy, t, task, ts))
    ensures Advance(EffectiveMaxAttempts(policy), task, RecoveredTask(runId, policy, t, task, ts))
  {
  }

  lemma PromotedTaskOk(runId: Text, createdAt: Time, max: int, t: Text, task: TaskRun, ts: Time)
    requires TaskOk(runId, createdAt, max, t, task) && task.status.RetryWaiting? && createdAt <= ts
    ensures TaskOk(runId, createdAt, max, t, PromotedTask(task, ts))
    ensures Advance(max, task, PromotedTask(task, ts))
  {
  }

  // ------------------------------------------------------------------
  // The whole run

  lemma AdvanceTransitive(max: int, a: TaskRun, b: TaskRun, c: TaskRun)
    requires Advance(max, a, b) && Advance(max, b, c)
    requires c.attemptCount <= max
    ensures Advance(max, a, c)
  {
  }

  lemma AdvancesReflexive(a: RunState)
    requires TasksOk(a)
    ensures Advances(a, a)
  {
  }

  lemma AdvancesTransitive(a: RunState, b: RunState, c: RunState)
    requires Advances(a, b) && Advances(b, c) && TasksOk(c)
    ensures Advances(a, c)
  {
    forall t | t in a.tasks ensures Advance(MaxAttemptsOf(a.definition, t), a.tasks[t], c.tasks[t]) {
      assert TaskOk(c.id, c.createdAt, MaxAttemptsOf(c.definition, t), t, c.tasks[t]);
      AdvanceTransitive(MaxAttemptsOf(a.definition, t), a.tasks[t], b.tasks[t], c.tasks[t]);
    }
  }

  /** Dependencies that have succeeded stay succeeded, so only newly unlocked tasks need a look. */
  lemma DependenciesKept(e: Edges, a: map<Text, TaskRun>, b: map<Text, TaskRun>)
    requires DependenciesOk(e, a) && b.Keys == a.Keys
    requires forall t :: t in a && a[t].status.Succeeded? ==> b[t].status.Succeeded?
    requires forall t :: t in a && t in e && Unlocked(b[t].status) && !Unlocked(a[t].status) ==> AllSucceeded(a, e[t])
    ensures DependenciesOk(e, b)
  {
    forall t | t in b && t in e && Unlocked(b[t].status) ensures AllSucceeded(b, e[t]) {
      assert AllSucceeded(a, e[t]);
    }
  }

  predicate StepOk(run: RunState, t: Text, next: TaskRun)
    requires t in run.tasks
  {
    && TaskOk(run.id, run.createdAt, MaxAttemptsOf(run.definition, t), t, next)
    && Advance(MaxAttemptsOf(run.definition, t), run.tasks[t], next)
    && (Unlocked(next.status) ==> Unlocked(run.tasks[t].status))
  }

  lemma KeepDependencies(run: RunState, tasks: map<Text, TaskRun>)
    requires DependenciesOk(EdgesOf(run.definition), run.tasks) && tasks.Keys == run.tasks.Keys
    requires forall t :: t in tasks ==> StepOk(run, t, tasks[t])
    ensures DependenciesOk(EdgesOf(run.definition), tasks)
  {
    hide TaskOk, EdgesOf;
    DependenciesKept(EdgesOf(run.definition), run.tasks, tasks);
  }

  lemma InvParts(run: RunState)
    requires RunInv(run)
    ensures HeaderOk(run) && TasksOk(run) && WorkersOk(run) && DependenciesOk(EdgesOf(run.definition), run.tasks)
    ensures 0 < run.createdAt <= run.updatedAt
  {
  }

  /** Enough for an operation that touches tasks and heartbeats of a running run. */
  lemma KeepInvariant(run: RunState, tasks: map<Text, TaskRun>, workers: map<Text, Heartbeat>, updatedAt: Time)
    requires RunInv(run) && run.status.RunRunning?
    requires tasks.Keys == run.tasks.Keys && run.updatedAt <= updatedAt
    requires forall t :: t in tasks ==> StepOk(run, t, tasks[t])
    requires WorkersOk(run.(tasks := tasks, workers := workers))
    ensures RunInv(run.(tasks := tasks, workers := workers, updatedAt := updatedAt))
    ensures Advances(run, run.(tasks := tasks, workers := workers, updatedAt := updatedAt))
  {
    hide TaskOk, Advance, EdgesOf, MaxAttemptsOf, ValidIdentifier, TaskIds;
    var next := run.(tasks := tasks, workers := workers, updatedAt := updatedAt);
    assert HeaderOk(next);
    assert TasksOk(next);
    assert WorkersOk(next);
    KeepDependencies(run, tasks);
  }

  lemma NewRunInv(runId: Text, definition: WorkflowDefinition, now: Time)
    requires ValidIdentifier(runId) && ValidDefinition(definition) && 0 < now
    ensures RunInv(NewRun(runId, definition, now).value)
  {
    var run := NewRun(runId, definition, now).value;
    forall t | t in run.tasks ensures TaskOk(run.id, run.createdAt, MaxAttemptsOf(definition, t), t, run.tasks[t]) {
      TaskFacts(definition, t);
    }
  }

  lemma StartRunInv(run: RunState, now: Time)
    requires RunInv(run) && run.status.RunPending?
    ensures TransitionRun(run, RunRunning, now).Ok?
    ensures RunInv(TransitionRun(run, RunRunning, now).value)
    ensures Advances(run, TransitionRun(run, RunRunning, now).value)
  {
  }

  lemma SameStepOk(run: RunState, t: Text)
    requires TasksOk(run) && t in run.tasks
    ensures StepOk(run, t, run.tasks[t])
  {
    assert TaskOk(run.id, run.createdAt, MaxAttemptsOf(run.definition, t), t, run.tasks[t]);
  }

  /** An operation that rewrites one task and at most refreshes one heartbeat. */
  lemma OneTaskInv(run: RunState, t: Text, task: TaskRun, workers: map<Text, Heartbeat>, ts: Time)
    requires RunInv(run) && run.status.RunRunning? && t in run.tasks
    requires StepOk(run, t, task) && run.updatedAt <= ts
    requires WorkersOk(run.(tasks := run.tasks[t := task], workers := workers))
    ensures RunInv(PutTask(run, t, task, ts).(workers := workers))
    ensures Advances(run, PutTask(run, t, task, ts).(workers := workers))
  {
    var tasks := run.tasks[t := task];
    forall u | u in tasks ensures StepOk(run, u, tasks[u]) {
      if u != t {
        SameStepOk(run, u);
      }
    }
    KeepInvariant(run, tasks, workers, ts);
  }

  lemma HeartbeatWorkers(run: RunState, workerId: Text, ts: Time, tasks: map<Text, TaskRun>)
    requires WorkersOk(run) && ValidIdentifier(workerId) && run.createdAt <= ts
    requires forall t :: t in tasks && tasks[t].lease.Some? ==>
               tasks[t].lease.value.workerId in run.workers || tasks[t].lease.value.workerId == workerId
    ensures WorkersOk(run.(tasks := tasks, workers := run.workers[workerId := Heartbeat(workerId, ts)]))
  {
  }

  lemma StartAttemptInv(run: RunState, t: Text, workerId: Text, leaseDuration: int, now: Time)
    requires RunInv(run) && run.status.RunRunning?
    requires StartAttempt(run, t, workerId, leaseDuration, now).Ok?
    ensures RunInv(StartAttempt(run, t, workerId, leaseDuration, now).value)
    ensures Advances(run, StartAttempt(run, t, workerId, leaseDuration, now).value)
  {
    var ts := NextTimestamp(run, now);
    var task := StartedTask(run.id, t, run.tasks[t], workerId, leaseDuration, ts);
    var workers := run.workers[workerId := Heartbeat(workerId, ts)];
    assert TaskOk(run.id, run.createdAt, MaxAttemptsOf(run.definition, t), t, run.tasks[t]);
    StartedTaskOk(run.id, run.createdAt, MaxAttemptsOf(run.definition, t), t, run.tasks[t], workerId, leaseDuration,
                  ts);
    assert StepOk(run, t, task);
    HeartbeatWorkers(run, workerId, ts, run.tasks[t := task]);
    OneTaskInv(run, t, task, workers, ts);
  }

  /** Nothing but timestamps and the expiry of a lease differs. */
  predicate SameProgress(a: TaskRun, b: TaskRun) {
    && a.status == b.status && a.attemptCount == b.attemptCount && a.currentAttemptId == b.currentAttemptId
    && a.output == b.output && a.error == b.error
    && (a.lease.Some? <==> b.lease.Some?)
    && (a.lease.Some? ==> a.lease.value.workerId == b.lease.value.workerId)
  }

  lemma BeatStepOk(run: RunState, t: Text, workerId: Text, leaseDuration: nat, ts: Time)
    requires TasksOk(run) && t in run.tasks && 0 < leaseDuration && 0 < run.createdAt <= ts
    ensures StepOk(run, t, BeatTask(run.tasks[t], workerId, leaseDuration, ts))
  {
    assert TaskOk(run.id, run.createdAt, MaxAttemptsOf(run.definition, t), t, run.tasks[t]);
    BeatTaskOk(run.id, run.createdAt, MaxAttemptsOf(run.definition, t), t, run.tasks[t], workerId, leaseDuration, ts);
  }

  lemma HeartbeatInv(run: RunState, workerId: Text, leaseDuration: int, now: Time)
    requires RunInv(run) && run.status.RunRunning?
    requires RecordHeartbeat(run, workerId, leaseDuration, now).Ok?
    ensures RunInv(RecordHeartbeat(run, workerId, leaseDuration, now).value)
    ensures Advances(run, RecordHeartbeat(run, workerId, leaseDuration, now).value)
  {
    hide RunInv, HeaderOk, TasksOk, StepOk, Advances, TaskOk, Advance, ValidIdentifier;
    InvParts(run);
    var next := RecordHeartbeat(run, workerId, leaseDuration, now).value;
    var ts := NextTimestamp(run, now);
    forall t | t in next.tasks
      ensures StepOk(run, t, next.tasks[t]) { BeatStepOk(run, t, workerId, leaseDuration, ts); }
    HeartbeatWorkers(run, workerId, ts, next.tasks);
    KeepInvariant(run, next.tasks, next.workers, ts);
  }

  lemma HeartbeatProgress(run: RunState, workerId: Text, leaseDuration: int, now: Time)
    requires RecordHeartbeat(run, workerId, leaseDuration, now).Ok?
    ensures var next := RecordHeartbeat(run, workerId, leaseDuration, now).value;
            forall t :: t in run.tasks ==> SameProgress(run.tasks[t], next.tasks[t])
  {
  }

  lemma LeasesShrink(run: RunState, tasks: map<Text, TaskRun>)
    requires WorkersOk(run)
    requires forall t :: t in tasks && tasks[t].lease.Some? ==> t in run.tasks && tasks[t].lease == run.tasks[t].lease
    ensures WorkersOk(run.(tasks := tasks, workers := run.workers))
  {
  }

  lemma CompleteStepOk(run: RunState, t: Text, output: Text, error: Option<TaskError>, ts: Time)
    requires TasksOk(run) && t in run.tasks && run.tasks[t].status.Running? && 0 < run.createdAt <= ts
    ensures var task := CompletedTask(PolicyOf(run.definition, t), run.tasks[t], output, error, ts).0;
            StepOk(run, t, task) && task.lease.None?
  {
    assert TaskOk(run.id, run.createdAt, EffectiveMaxAttempts(PolicyOf(run.definition, t)), t, run.tasks[t]);
    CompletedTaskOk(run.id, run.createdAt, PolicyOf(run.definition, t), t, run.tasks[t], output, error, ts);
  }

  lemma RecoverStepOk(run: RunState, t: Text, ts: Time)
    requires TasksOk(run) && t in run.tasks && run.tasks[t].status.Running? && 0 < run.createdAt <= ts
    ensures var task := RecoveredTask(run.id, PolicyOf(run.definition, t), t, run.tasks[t], ts);
            StepOk(run, t, task) && task.lease.None?
  {
    assert TaskOk(run.id, run.createdAt, EffectiveMaxAttempts(PolicyOf(run.definition, t)), t, run.tasks[t]);
    RecoveredTaskOk(run.id, run.createdAt, PolicyOf(run.definition, t), t, run.tasks[t], ts);
  }

  lemma PromoteStepOk(run: RunState, t: Text, ts: Time)
    requires TasksOk(run) && t in run.tasks && run.tasks[t].status.RetryWaiting? && run.createdAt <= ts
    ensures StepOk(run, t, PromotedTask(run.tasks[t], ts)) && PromotedTask(run.tasks[t], ts).lease.None?
  {
    assert TaskOk(run.id, run.createdAt, MaxAttemptsOf(run.definition, t), t, run.tasks[t]);
    PromotedTaskOk(run.id, run.createdAt, MaxAttemptsOf(run.definition, t), t, run.tasks[t], ts);
  }

  lemma LeasedCompleteInv(run: RunState, t: Text, output: Text, error: Option<TaskError>, ts: Time)
    requires RunInv(run) && run.status.RunRunning? && t in run.tasks && run.tasks[t].status.Running?
             && run.updatedAt <= ts
    ensures var next := PutTask(run, t, CompletedTask(PolicyOf(run.definition, t), run.tasks[t], output, error, ts).0,
                                ts);
            RunInv(next) && Advances(run, next)
  {
    var task := CompletedTask(PolicyOf(run.definition, t), run.tasks[t], output, error, ts).0;
    CompleteStepOk(run, t, output, error, ts);
    LeasesShrink(run, run.tasks[t := task]);
    OneTaskInv(run, t, task, run.workers, ts);
  }

  lemma CompleteInv(run: RunState, t: Text, taskRunId: Text, workerId: Text, attemptId: Text, output: Text,
                    error: Option<TaskError>, now: Time)
    requires RunInv(run) && run.status.RunRunning? && t in run.tasks
    ensures var r := CompleteAttempt(run, t, taskRunId, workerId, attemptId, output, error, now);
            r.Ok? && RunInv(r.value.0) && Advances(run, r.value.0)
  {
    if MayComplete(run.tasks[t], taskRunId, workerId, attemptId) {
      LeasedCompleteInv(run, t, output, error, NextTimestamp(run, now));
    } else {
      AdvancesReflexive(run);
    }
  }

  lemma RecoverInv(run: RunState, now: Time)
    requires RunInv(run) && run.status.RunRunning?
    ensures RunInv(RecoverExpired(run, now))
    ensures Advances(run, RecoverExpired(run, now))
  {
    hide RunInv, HeaderOk, TasksOk, StepOk, Advances, WorkersOk, RecoveredTask, TaskOk, Advance;
    InvParts(run);
    var next := RecoverExpired(run, now);
    var ts := NextTimestamp(run, now);
    forall t | t in next.tasks
      ensures StepOk(run, t, next.tasks[t])
      ensures next.tasks[t].lease.Some? ==> next.tasks[t].lease == run.tasks[t].lease
    {
      if Expired(run.tasks[t], ts) {
        RecoverStepOk(run, t, ts);
      } else {
        SameStepOk(run, t);
      }
    }
    LeasesShrink(run, next.tasks);
    KeepInvariant(run, next.tasks, run.workers, next.updatedAt);
  }

  lemma PromoteInv(run: RunState, now: Time)
    requires RunInv(run) && run.status.RunRunning?
    ensures RunInv(PromoteDue(run, now))
    ensures Advances(run, PromoteDue(run, now))
  {
    hide RunInv, HeaderOk, TasksOk, StepOk, Advances, WorkersOk, RecoveredTask, TaskOk, Advance;
    InvParts(run);
    var next := PromoteDue(run, now);
    var ts := NextTimestamp(run, now);
    forall t | t in next.tasks
      ensures StepOk(run, t, next.tasks[t])
      ensures next.tasks[t].lease.Some? ==> next.tasks[t].lease == run.tasks[t].lease
    {
      if Due(run.tasks[t], ts) {
        PromoteStepOk(run, t, ts);
      } else {
        SameStepOk(run, t);
      }
    }
    LeasesShrink(run, next.tasks);
    KeepInvariant(run, next.tasks, run.workers, next.updatedAt);
  }

  // ------------------------------------------------------------------
  // Unlocking dependents

  predicate Marked(low: Time, a: TaskRun, b: TaskRun, marked: bool) {
    if marked then b == a.(status := Ready, output := [], error := [], updatedAt := b.updatedAt) && low <= b.updatedAt
    else b == a
  }

  /** Marking a list of candidates makes exactly the pending ones ready and touches nothing else. */
  lemma {:induction false} MarkReadyEffect(run: RunState, candidates: seq<Text>, clock: Clock)
    ensures var next := MarkReady(run, candidates, clock);
            && next == run.(tasks := next.tasks, updatedAt := next.updatedAt)
            && next.tasks.Keys == run.tasks.Keys && run.updatedAt <= next.updatedAt
            && forall t :: t in run.tasks ==>
                 Marked(run.updatedAt, run.tasks[t], next.tasks[t], run.tasks[t].status.Pending? && t in candidates)
    decreases |candidates|
  {
    if candidates != [] {
      var t0 := candidates[0];
      assert candidates == [t0] + candidates[1..];
      if t0 in run.tasks && run.tasks[t0].status.Pending? {
        var ts := NextTimestamp(run, clock(|candidates|));
        var next := PutTask(run, t0, run.tasks[t0].(status := Ready, output := [], error := [], updatedAt := ts), ts);
        MarkReadyEffect(next, candidates[1..], clock);
      } else {
        MarkReadyEffect(run, candidates[1..], clock);
      }
    }
  }

  /** No pending task is left whose dependencies have all succeeded. */
  predicate NothingToUnlock(run: RunState) {
    NewlyReady(run, SucceededTasks(run)) == {}
  }

  lemma MarkedTaskOk(runId: Text, createdAt: Time, max: int, t: Text, a: TaskRun, b: TaskRun, low: Time)
    requires TaskOk(runId, createdAt, max, t, a) && a.status.Pending? && createdAt <= low && Marked(low, a, b, true)
    ensures TaskOk(runId, createdAt, max, t, b) && Advance(max, a, b)
  {
  }

  /** Effect of unlocking: the pending tasks whose dependencies have all succeeded become ready. */
  lemma MarkNewReadyEffect(run: RunState, clock: Clock)
    ensures var next := MarkNewReady(run, SucceededTasks(run), clock);
            && next == run.(tasks := next.tasks, updatedAt := next.updatedAt)
            && next.tasks.Keys == run.tasks.Keys && run.updatedAt <= next.updatedAt
            && forall t :: t in run.tasks ==>
                 Marked(run.updatedAt, run.tasks[t], next.tasks[t], t in NewlyReady(run, SucceededTasks(run)))
  {
    var candidates := SortedSeq(Available(EdgesOf(run.definition), SucceededTasks(run)));
    MarkReadyEffect(run, candidates, clock);
  }

  lemma MarkedDependencies(run: RunState, e: Edges, tasks: map<Text, TaskRun>)
    requires DependenciesOk(e, run.tasks) && tasks.Keys == run.tasks.Keys
    requires forall t :: t in run.tasks ==>
               Marked(run.updatedAt, run.tasks[t], tasks[t], t in Available(e, SucceededTasks(run)) * PendingIds(run))
    ensures DependenciesOk(e, tasks)
  {
    forall t | t in tasks && t in e && Unlocked(tasks[t].status) && !Unlocked(run.tasks[t].status)
      ensures AllSucceeded(run.tasks, e[t])
    {
      assert t in Available(e, SucceededTasks(run));
      assert e[t] <= SucceededTasks(run);
    }
    DependenciesKept(e, run.tasks, tasks);
  }

  lemma MarkNewReadyInv(run: RunState, clock: Clock)
    requires RunInv(run) && run.status.RunRunning?
    ensures RunInv(MarkNewReady(run, SucceededTasks(run), clock))
    ensures Advances(run, MarkNewReady(run, SucceededTasks(run), clock))
  {
    var next := MarkNewReady(run, SucceededTasks(run), clock);
    MarkNewReadyEffect(run, clock);
    MarkedDependencies(run, EdgesOf(run.definition), next.tasks);
    forall t | t in run.tasks
      ensures TaskOk(run.id, run.createdAt, MaxAttemptsOf(run.definition, t), t, next.tasks[t])
      ensures Advance(MaxAttemptsOf(run.definition, t), run.tasks[t], next.tasks[t])
      ensures next.tasks[t].lease == run.tasks[t].lease
    {
      SameStepOk(run, t);
      if t in NewlyReady(run, SucceededTasks(run)) {
        MarkedTaskOk(run.id, run.createdAt, MaxAttemptsOf(run.definition, t), t, run.tasks[t], next.tasks[t],
                     run.updatedAt);
      }
    }
    LeasesShrink(run, next.tasks);
  }

  /** Some tasks of a run marked ready, and nothing else. */
  predicate MarkedSet(run: RunState, tasks: map<Text, TaskRun>, marked: set<Text>) {
    && tasks.Keys == run.tasks.Keys && marked <= PendingIds(run)
    && forall t :: t in run.tasks ==> Marked(run.updatedAt, run.tasks[t], tasks[t], t in marked)
  }

  lemma MarkedReady(run: RunState, tasks: map<Text, TaskRun>, marked: set<Text>)
    requires MarkedSet(run, tasks, marked)
    ensures ReadyIds(run.(tasks := tasks)) == ReadyIds(run) + marked
    ensures SucceededTasks(run.(tasks := tasks)) == SucceededTasks(run)
    ensures PendingIds(run.(tasks := tasks)) == PendingIds(run) - marked
  {
    forall t | t in run.tasks
      ensures t in ReadyIds(run.(tasks := tasks)) <==> t in ReadyIds(run) + marked
      ensures t in SucceededTasks(run.(tasks := tasks)) <==> t in SucceededTasks(run)
      ensures t in PendingIds(run.(tasks := tasks)) <==> t in PendingIds(run) - marked
    {
      assert Marked(run.updatedAt, run.tasks[t], tasks[t], t in marked);
    }
  }

  lemma MarkedRunning(run: RunState, tasks: map<Text, TaskRun>, marked: set<Text>)
    requires MarkedSet(run, tasks, marked)
    ensures RunningAttempts(run.(tasks := tasks)) == RunningAttempts(run)
  {
    forall t | t in run.tasks ensures run.tasks[t].status.Running? || tasks[t].status.Running? ==>
      tasks[t] == run.tasks[t] {
      assert Marked(run.updatedAt, run.tasks[t], tasks[t], t in marked);
    }
    SameRunningAttempts(run, run.(tasks := tasks));
  }

  lemma SameRunningAttempts(a: RunState, b: RunState)
    requires a.tasks.Keys == b.tasks.Keys
    requires forall t :: t in a.tasks ==> (a.tasks[t].status.Running? <==> b.tasks[t].status.Running?)
    requires forall t :: t in a.tasks && a.tasks[t].status.Running? ==>
               a.tasks[t].currentAttemptId == b.tasks[t].currentAttemptId
    ensures RunningAttempts(a) == RunningAttempts(b)
  {
    RunningAttemptsSubset(a, b);
    RunningAttemptsSubset(b, a);
  }

  lemma RunningAttemptsSubset(a: RunState, b: RunState)
    requires forall t :: t in a.tasks && a.tasks[t].status.Running? ==>
               t in b.tasks && b.tasks[t].status.Running? && a.tasks[t].currentAttemptId == b.tasks[t].currentAttemptId
    ensures RunningAttempts(a) <= RunningAttempts(b)
  {
    forall x | x in RunningAttempts(a) ensures x in RunningAttempts(b) {
      var t :| t in a.tasks && a.tasks[t].status.Running? && a.tasks[t].currentAttemptId != []
      && a.tasks[t].currentAttemptId == x;
      assert b.tasks[t].currentAttemptId == x;
    }
  }

  /** After unlocking, the ready tasks are the old ones and the new ones, no success was added,
      and nothing further can be unlocked. */
  lemma MarkNewReadyClosure(run: RunState, clock: Clock)
    ensures var next := MarkNewReady(run, SucceededTasks(run), clock);
            && ReadyIds(next) == ReadyIds(run) + NewlyReady(run, SucceededTasks(run))
            && SucceededTasks(next) == SucceededTasks(run)
            && RunningAttempts(next) == RunningAttempts(run)
            && NothingToUnlock(next)
  {
    var next := MarkNewReady(run, SucceededTasks(run), clock);
    MarkNewReadyEffect(run, clock);
    var marked := NewlyReady(run, SucceededTasks(run));
    assert MarkedSet(run, next.tasks, marked);
    MarkedReady(run, next.tasks, marked);
    MarkedRunning(run, next.tasks, marked);
  }

  // ------------------------------------------------------------------
  // Ending a run

  lemma CancelStepOk(run: RunState, t: Text, cause: Text, ts: Time)
    requires TasksOk(run) && t in run.tasks && 0 < run.createdAt <= ts
    ensures var task := CanceledTask(run.tasks[t], cause, ts);
            && StepOk(run, t, task) && task.lease.None? && task.status.Terminal()
            && task.status == if run.tasks[t].status.Terminal() then run.tasks[t].status else Canceled
  {
    assert TaskOk(run.id, run.createdAt, MaxAttemptsOf(run.definition, t), t, run.tasks[t]);
    CanceledTaskOk(run.id, run.createdAt, MaxAttemptsOf(run.definition, t), t, run.tasks[t], cause, ts);
  }

  /** Canceling the unfinished tasks leaves every task terminal and terminal tasks alone. */
  lemma CancelUnfinishedTasks(run: RunState, cause: Text, now: Time)
    requires TasksOk(run) && 0 < run.createdAt <= run.updatedAt
    ensures var next := CancelUnfinished(run, cause, now);
            && next.tasks.Keys == run.tasks.Keys
            && forall t :: t in next.tasks ==>
                 && StepOk(run, t, next.tasks[t]) && next.tasks[t].lease.None?
                 && next.tasks[t].status == if run.tasks[t].status.Terminal() then run.tasks[t].status else Canceled
  {
    forall t | t in run.tasks {
      CancelStepOk(run, t, cause, NextTimestamp(run, now));
    }
  }

  lemma EndRunInv(run: RunState, target: RunStatus, cause: Text, now1: Time, now2: Time)
    requires RunInv(run) && !run.status.Finished()
    requires LegalRunTransition(run.status, target)
    requires target.RunFailed? ==> exists t :: t in run.tasks && !run.tasks[t].status.Succeeded?
    requires target.RunCanceled? ==> forall t :: t in run.tasks ==> !run.tasks[t].status.Failed?
    requires target.RunFailed? || target.RunCanceled?
    ensures var r := TransitionRun(CancelUnfinished(run, cause, now1), target, now2);
            r.Ok? && RunInv(r.value) && Advances(run, r.value)
  {
    hide RunInv, TaskOk, Advance, EdgesOf, MaxAttemptsOf, ValidIdentifier, DependenciesOk, TaskIds, AggregateOk;
    InvParts(run);
    CancelUnfinishedTasks(run, cause, now1);
    var mid := CancelUnfinished(run, cause, now1);
    var next := mid.(status := target, updatedAt := NextTimestamp(mid, now2));
    LeasesShrink(run, mid.tasks);
    KeepDependencies(run, mid.tasks);
    assert TasksOk(next);
    EndAggregate(run, next);
    assert RunInv(next) by { assert WorkersOk(next); IsInv(next); }
  }

  lemma IsInv(run: RunState)
    requires HeaderOk(run) && TasksOk(run) && DependenciesOk(EdgesOf(run.definition), run.tasks) && WorkersOk(run)
             && AggregateOk(run)
    ensures RunInv(run)
  {
  }

  lemma EndAggregate(run: RunState, next: RunState)
    requires next.tasks.Keys == run.tasks.Keys && (next.status.RunFailed? || next.status.RunCanceled?)
    requires forall t :: t in run.tasks ==> next.tasks[t].status == if run.tasks[t].status.Terminal()
             then run.tasks[t].status else Canceled
    requires next.status.RunFailed? ==> exists t :: t in run.tasks && !run.tasks[t].status.Succeeded?
    requires next.status.RunCanceled? ==> forall t :: t in run.tasks ==> !run.tasks[t].status.Failed?
    ensures AggregateOk(next)
  {
    if next.status.RunFailed? {
      var t :| t in run.tasks && !run.tasks[t].status.Succeeded?;
      assert !next.tasks[t].status.Succeeded?;
    }
  }

  /** A running run can always be failed unless every task has succeeded, and always be canceled
      unless a task has failed; the result is a consistent aggregate. */
  lemma FailRunInv(run: RunState, cause: Text, now1: Time, now2: Time)
    requires RunInv(run) && run.status.RunRunning?
    requires exists t :: t in run.tasks && !run.tasks[t].status.Succeeded?
    ensures FailRun(run, cause, now1, now2).Ok?
    ensures RunInv(FailRun(run, cause, now1, now2).value)
    ensures Advances(run, FailRun(run, cause, now1, now2).value)
  {
    hide RunInv, Advances, CancelUnfinished;
    EndRunInv(run, RunFailed, cause, now1, now2);
  }

  lemma CancelRunInv(run: RunState, cause: Text, now1: Time, now2: Time)
    requires RunInv(run) && !run.status.Finished()
    requires forall t :: t in run.tasks ==> !run.tasks[t].status.Failed?
    ensures CancelRun(run, cause, now1, now2).Ok?
    ensures RunInv(CancelRun(run, cause, now1, now2).value)
    ensures Advances(run, CancelRun(run, cause, now1, now2).value)
  {
    hide RunInv, Advances, CancelUnfinished;
    EndRunInv(run, RunCanceled, cause, now1, now2);
  }

  lemma SucceedRunInv(run: RunState, now: Time)
    requires RunInv(run) && run.status.RunRunning?
    requires forall t :: t in run.tasks ==> run.tasks[t].status.Succeeded?
    ensures TransitionRun(run, RunSucceeded, now).Ok?
    ensures RunInv(TransitionRun(run, RunSucceeded, now).value)
    ensures Advances(run, TransitionRun(run, RunSucceeded, now).value)
  {
    AdvancesReflexive(run);
  }
}
