/** The run aggregate: one workflow execution, its task runs, leases and worker heartbeats.

Every operation is a function from a run to a run; the clock readings it makes are parameters. */
module Run {
  import opened Ids
  import opened Definition
  import opened Edges
  import opened Graph

  // Nanoseconds since Go's zero time. Zero is the zero time itself, "not set".
  type Time = nat

  // The readings of a clock, in an arbitrary order.
  type Clock = nat -> Time

  datatype TaskStatus = Pending | Ready | Running | RetryWaiting | Succeeded | Failed | Canceled {
    predicate Terminal() { Succeeded? || Failed? || Canceled? }
  }

  datatype RunStatus = RunPending | RunRunning | RunSucceeded | RunFailed | RunCanceled {
    predicate Finished() { RunSucceeded? || RunFailed? || RunCanceled? }
  }

  datatype Lease = Lease(workerId: Text, taskRunId: Text, attemptId: Text, expiresAt: Time)

  datatype Heartbeat = Heartbeat(workerId: Text, lastHeartbeatAt: Time)

  datatype TaskRun = TaskRun(
    taskId: Text, taskRunId: Text, status: TaskStatus, output: Text, error: Text,
    attemptCount: int, currentAttemptId: Text, nextAttemptAt: Time, lease: Option<Lease>,
    updatedAt: Time, startedAt: Time, finishedAt: Time)

  datatype RunState = RunState(
    id: Text, definition: WorkflowDefinition, version: nat, status: RunStatus,
    tasks: map<Text, TaskRun>, workers: map<Text, Heartbeat>, createdAt: Time, updatedAt: Time)

  datatype TaskError = TaskError(message: Text, retryable: bool)

  datatype Outcome = Ignored | Completed | RetryScheduled | Exhausted

  datatype Recovery = Recovery(taskId: Text, attemptId: Text, workerId: Text, outcome: Outcome)

  datatype RunError =
    | UnknownTask(taskId: Text)
    | IllegalTaskTransition(taskId: Text, from: TaskStatus, to: TaskStatus)
    | IllegalRunTransition(runFrom: RunStatus, runTo: RunStatus)
    | InvalidWorker(workerId: Text)
    | InvalidLeaseDuration
    | InvalidRunId
    | InvalidDefinition

  // ------------------------------------------------------------------
  // Legal transitions

  predicate LegalTaskTransition(from: TaskStatus, to: TaskStatus) {
    match from
    case Pending => to.Ready? || to.Canceled?
    case Ready => to.Running? || to.Canceled?
    case Running => to.Succeeded? || to.Failed? || to.Canceled?
    case RetryWaiting => to.Ready? || to.Canceled?
    case _ => false
  }

  predicate LegalRunTransition(from: RunStatus, to: RunStatus) {
    match from
    case RunPending => to.RunRunning? || to.RunCanceled?
    case RunRunning => to.RunSucceeded? || to.RunFailed? || to.RunCanceled?
    case _ => false
  }

  // ------------------------------------------------------------------
  // Operations

  /** A clock that jumps back never moves the run's timestamps back. */
  function NextTimestamp(run: RunState, now: Time): Time {
    if now < run.updatedAt then run.updatedAt else now
  }

  function FreshTask(runId: Text, taskId: Text, createdAt: Time): TaskRun {
    TaskRun(taskId, TaskRunIdFor(runId, taskId), Pending, [], [], 0, [], 0, None, createdAt, 0, 0)
  }

  ghost function NewRun(runId: Text, definition: WorkflowDefinition, now: Time): Result<RunState, RunError> {
    if !ValidIdentifier(runId) then Err(InvalidRunId)
    else if !ValidDefinition(definition) then Err(InvalidDefinition)
    else Ok(RunState(runId, definition, 0, RunPending,
                     map t | t in TaskIds(definition) :: FreshTask(runId, t, now), map[], now, now))
  }

  function PutTask(run: RunState, t: Text, task: TaskRun, timestamp: Time): RunState {
    run.(tasks := run.tasks[t := task], updatedAt := timestamp)
  }

  function TransitionTask(run: RunState, t: Text, target: TaskStatus, output: Text, error: Option<Text>, now: Time)
    : Result<RunState, RunError>
  {
    if t !in run.tasks then Err(UnknownTask(t))
    else
      var task := run.tasks[t];
      if !LegalTaskTransition(task.status, target) then Err(IllegalTaskTransition(t, task.status, target))
      else
        var ts := NextTimestamp(run, now);
        var t0 := task.(status := target, output := [], error := [], updatedAt := ts);
        var t1 := if target.Running? then
                    var trid := TaskRunIdFor(run.id, t);
                    t0.(attemptCount := t0.attemptCount + 1, taskRunId := trid,
                        currentAttemptId := if t0.attemptCount + 1 < 0 then []
                          else AttemptIdFor(trid, t0.attemptCount + 1),
                        startedAt := ts, finishedAt := 0, nextAttemptAt := 0)
                  else t0;
        var t2 := if target.Succeeded? then t1.(output := output) else t1;
        var t3 := if (target.Failed? || target.Canceled?) && error.Some? then t2.(error := error.value) else t2;
        var t4 := if target.Terminal() then t3.(finishedAt := ts, lease := None, nextAttemptAt := 0) else t3;
        Ok(PutTask(run, t, t4, ts))
  }

  function TransitionRun(run: RunState, target: RunStatus, now: Time): Result<RunState, RunError> {
    if !LegalRunTransition(run.status, target) then Err(IllegalRunTransition(run.status, target))
    else Ok(run.(status := target, updatedAt := NextTimestamp(run, now)))
  }

  function CanceledTask(task: TaskRun, cause: Text, ts: Time): TaskRun {
    if task.status.Terminal() then task
    else task.(status := Canceled, output := [], error := cause, updatedAt := ts, finishedAt := ts,
               nextAttemptAt := 0, lease := None)
  }

  predicate HasUnfinished(run: RunState) {
    exists t :: t in run.tasks && !run.tasks[t].status.Terminal()
  }

  /** Cancel every task that is not terminal. */
  function CancelUnfinished(run: RunState, cause: Text, now: Time): RunState {
    var ts := NextTimestamp(run, now);
    run.(tasks := map t | t in run.tasks :: CanceledTask(run.tasks[t], cause, ts),
         updatedAt := if HasUnfinished(run) then ts else run.updatedAt)
  }

  function BeatTask(task: TaskRun, workerId: Text, leaseDuration: nat, ts: Time): TaskRun {
    if task.status.Running? && task.lease.Some? && task.lease.value.workerId == workerId
    && ts < task.lease.value.expiresAt
    then task.(lease := Some(task.lease.value.(expiresAt := ts + leaseDuration)), updatedAt := ts)
    else task
  }

  function RecordHeartbeat(run: RunState, workerId: Text, leaseDuration: int, now: Time): Result<RunState, RunError> {
    if !ValidIdentifier(workerId) then Err(InvalidWorker(workerId))
    else if leaseDuration <= 0 then Err(InvalidLeaseDuration)
    else
      var ts := NextTimestamp(run, now);
      Ok(run.(workers := run.workers[workerId := Heartbeat(workerId, ts)],
              tasks := map t | t in run.tasks :: BeatTask(run.tasks[t], workerId, leaseDuration, ts),
              updatedAt := ts))
  }

  function StartedTask(runId: Text, t: Text, task: TaskRun, workerId: Text, leaseDuration: nat, ts: Time): TaskRun {
    var trid := TaskRunIdFor(runId, t);
    var count := task.attemptCount + 1;
    var attemptId := if count < 0 then [] else AttemptIdFor(trid, count);
    task.(taskRunId := trid, attemptCount := count, currentAttemptId := attemptId, status := Running,
          output := [], error := [], nextAttemptAt := 0, startedAt := ts, finishedAt := 0, updatedAt := ts,
          lease := Some(Lease(workerId, trid, attemptId, ts + leaseDuration)))
  }

  /** Lease the next attempt of a ready task to a worker. Whether the worker already holds a
      lease is not looked at. */
  function StartAttempt(run: RunState, t: Text, workerId: Text, leaseDuration: int,
                        now: Time): Result<RunState, RunError> {
    if !ValidIdentifier(workerId) then Err(InvalidWorker(workerId))
    else if leaseDuration <= 0 then Err(InvalidLeaseDuration)
    else if t !in run.tasks then Err(UnknownTask(t))
    else if run.tasks[t].status != Ready then Err(IllegalTaskTransition(t, run.tasks[t].status, Running))
    else
      var ts := NextTimestamp(run, now);
      Ok(PutTask(run, t, StartedTask(run.id, t, run.tasks[t], workerId, leaseDuration, ts), ts)
         .(workers := run.workers[workerId := Heartbeat(workerId, ts)]))
  }

  /** The lease of an attempt is what entitles a worker to complete it; its expiry is not. */
  predicate MayComplete(task: TaskRun, taskRunId: Text, workerId: Text, attemptId: Text) {
    && task.status.Running? && task.taskRunId == taskRunId && task.currentAttemptId == attemptId
    && task.lease.Some? && task.lease.value.attemptId == attemptId && task.lease.value.workerId == workerId
  }

  /** A finished attempt of a task that is to be tried again. */
  function Rescheduled(policy: RetryPolicy, task: TaskRun, ts: Time): TaskRun {
    var delay := RetryDelay(policy, task.attemptCount);
    if delay == 0 then task.(status := Ready)
    else task.(status := RetryWaiting, nextAttemptAt := ts + delay)
  }

  function FinishedAttempt(task: TaskRun, ts: Time): TaskRun {
    task.(lease := None, updatedAt := ts, finishedAt := ts, nextAttemptAt := 0)
  }

  function CompletedTask(policy: RetryPolicy, task: TaskRun, output: Text, error: Option<TaskError>,
                         ts: Time): (TaskRun, Outcome) {
    var done := FinishedAttempt(task, ts);
    match error
    case None => (done.(status := Succeeded, output := output, error := []), Completed)
    case Some(e) =>
      var failed := done.(output := [], error := e.message);
      if e.retryable && task.attemptCount < EffectiveMaxAttempts(policy) then
        (Rescheduled(policy, failed, ts), RetryScheduled)
      else
        (failed.(status := Failed), Exhausted)
  }

  function CompleteAttempt(run: RunState, t: Text, taskRunId: Text, workerId: Text, attemptId: Text, output: Text,
                           error: Option<TaskError>, now: Time): Result<(RunState, Outcome), RunError>
  {
    if t !in run.tasks then Err(UnknownTask(t))
    else if !MayComplete(run.tasks[t], taskRunId, workerId, attemptId) then Ok((run, Ignored))
    else
      var ts := NextTimestamp(run, now);
      var (task, outcome) := CompletedTask(PolicyOf(run.definition, t), run.tasks[t], output, error, ts);
      Ok((PutTask(run, t, task, ts), outcome))
  }

  predicate Expired(task: TaskRun, ts: Time) {
    task.status.Running? && (task.lease.None? || task.lease.value.expiresAt <= ts)
  }

  // "lease expired for attempt "
  const LEASE_EXPIRED: Text := [
    108, 101, 97, 115, 101, 32, 101, 120, 112, 105, 114, 101, 100, 32, 102, 111, 114, 32, 97, 116, 116,
    101, 109, 112, 116, 32]
  // " of task "
  const OF_TASK: Text := [
    32, 111, 102, 32, 116, 97, 115, 107, 32]
  // " in workflow run "
  const IN_RUN: Text := [
    32, 105, 110, 32, 119, 111, 114, 107, 102, 108, 111, 119, 32, 114, 117, 110, 32]

  /** The error an abandoned attempt leaves in its task. */
  function LeaseExpired(attemptId: Text, t: Text, runId: Text): Text {
    LEASE_EXPIRED + Quoted(attemptId) + OF_TASK + Quoted(t) + IN_RUN + Quoted(runId)
  }

  function RecoveredAttemptId(runId: Text, t: Text, task: TaskRun): Text {
    if task.currentAttemptId == [] && task.attemptCount > 0
    then AttemptIdFor(TaskRunIdFor(runId, t), task.attemptCount)
    else task.currentAttemptId
  }

  /** An expired or missing lease ends the attempt; the retry policy says what follows. */
  function RecoveredTask(runId: Text, policy: RetryPolicy, t: Text, task: TaskRun, ts: Time): TaskRun {
    var attemptId := RecoveredAttemptId(runId, t, task);
    var trid := if task.currentAttemptId == [] && task.attemptCount > 0 then TaskRunIdFor(runId, t) else task.taskRunId;
    var done := FinishedAttempt(task, ts)
                .(taskRunId := trid, currentAttemptId := attemptId, output := [],
                  error := LeaseExpired(attemptId, t, runId));
    if task.attemptCount < EffectiveMaxAttempts(policy) then Rescheduled(policy, done, ts)
    else done.(status := Failed)
  }

  function RecoveryOf(run: RunState, t: Text): Recovery
    requires t in run.tasks
  {
    var task := run.tasks[t];
    Recovery(t, RecoveredAttemptId(run.id, t, task), if task.lease.Some? then task.lease.value.workerId else [],
             if task.attemptCount < MaxAttemptsOf(run.definition, t) then RetryScheduled else Exhausted)
  }

  function ExpiredTasks(run: RunState, ts: Time): set<Text> {
    set t | t in run.tasks && Expired(run.tasks[t], ts)
  }

  function RecoverExpired(run: RunState, now: Time): RunState {
    var ts := NextTimestamp(run, now);
    run.(tasks := map t | t in run.tasks ::
           if Expired(run.tasks[t], ts) then RecoveredTask(run.id, PolicyOf(run.definition, t), t, run.tasks[t], ts)
           else run.tasks[t],
         updatedAt := if ExpiredTasks(run, ts) != {} then ts else run.updatedAt)
  }

  /** What the recovery pass reports, ordered by task. */
  ghost function Recoveries(run: RunState, now: Time): seq<Recovery> {
    var ids := SortedSeq(ExpiredTasks(run, NextTimestamp(run, now)));
    seq(|ids|, i requires 0 <= i < |ids| => assert ids[i] in ids; RecoveryOf(run, ids[i]))
  }

  predicate Due(task: TaskRun, ts: Time) {
    task.status.RetryWaiting? && task.nextAttemptAt <= ts
  }

  function DueTasks(run: RunState, ts: Time): set<Text> {
    set t | t in run.tasks && Due(run.tasks[t], ts)
  }

  function PromotedTask(task: TaskRun, ts: Time): TaskRun {
    task.(status := Ready, nextAttemptAt := 0, updatedAt := ts)
  }

  function PromoteDue(run: RunState, now: Time): RunState {
    var ts := NextTimestamp(run, now);
    run.(tasks := map t | t in run.tasks :: if Due(run.tasks[t], ts) then PromotedTask(run.tasks[t], ts)
         else run.tasks[t],
         updatedAt := if DueTasks(run, ts) != {} then ts else run.updatedAt)
  }

  /** The moment something becomes due on its own, if anything will. */
  function TaskDeadline(run: RunState, task: TaskRun): Option<Time> {
    if task.status.Running? then
      if task.lease.None? then Some(run.updatedAt) else Some(task.lease.value.expiresAt)
    else if task.status.RetryWaiting? then Some(task.nextAttemptAt)
    else None
  }

  predicate Waiting(run: RunState) {
    exists t :: t in run.tasks && (run.tasks[t].status.Running? || run.tasks[t].status.RetryWaiting?)
  }

  function SucceededTasks(run: RunState): set<Text> {
    set t | t in run.tasks && run.tasks[t].status.Succeeded?
  }

  function ReadyIds(run: RunState): set<Text> {
    set t | t in run.tasks && run.tasks[t].status.Ready?
  }

  function RunningAttempts(run: RunState): set<Text> {
    set t | t in run.tasks && run.tasks[t].status.Running? && run.tasks[t].currentAttemptId != [] ::
      run.tasks[t].currentAttemptId
  }

  /** Make the pending tasks of a list ready, one after the other, each at its own clock reading. */
  function MarkReady(run: RunState, candidates: seq<Text>, clock: Clock): RunState
    decreases |candidates|
  {
    if candidates == [] then run
    else
      var t := candidates[0];
      var next := if t in run.tasks && run.tasks[t].status.Pending?
                  then var ts := NextTimestamp(run, clock(|candidates|));
                       PutTask(run, t, run.tasks[t].(status := Ready, output := [], error := [], updatedAt := ts), ts)
                  else run;
      MarkReady(next, candidates[1..], clock)
  }

  function PendingIds(run: RunState): set<Text> {
    set t | t in run.tasks && run.tasks[t].status.Pending?
  }

  /** Pending tasks whose dependencies are all in `completed`. */
  function NewlyReady(run: RunState, completed: set<Text>): set<Text> {
    Available(EdgesOf(run.definition), completed) * PendingIds(run)
  }

  ghost function MarkNewReady(run: RunState, completed: set<Text>, clock: Clock): RunState {
    MarkReady(run, SortedSeq(Available(EdgesOf(run.definition), completed)), clock)
  }

  // Ending a run

  function FailRun(run: RunState, cause: Text, now1: Time, now2: Time): Result<RunState, RunError> {
    TransitionRun(CancelUnfinished(run, cause, now1), RunFailed, now2)
  }

  function CancelRun(run: RunState, cause: Text, now1: Time, now2: Time): Result<RunState, RunError> {
    TransitionRun(CancelUnfinished(run, cause, now1), RunCanceled, now2)
  }

  // ------------------------------------------------------------------
  // Invariant of every run the engine holds or stores

  predicate LeaseOk(runId: Text, t: Text, task: TaskRun) {
    && task.lease.Some?
    && task.lease.value.taskRunId == TaskRunIdFor(runId, t)
    && task.lease.value.attemptId == task.currentAttemptId
    && ValidIdentifier(task.lease.value.workerId)
    && task.lease.value.expiresAt > 0
  }

  predicate TaskOk(runId: Text, createdAt: Time, max: int, t: Text, task: TaskRun) {
    && task.taskId == t
    && task.taskRunId == TaskRunIdFor(runId, t)
    && 0 <= task.attemptCount <= max
    && task.currentAttemptId == (if task.attemptCount == 0 then [] else AttemptOf(runId, t, task.attemptCount))
    && createdAt <= task.updatedAt
    && (task.status.Pending? ==> task.attemptCount == 0)
    && (task.status.Pending? || task.status.Ready? || task.status.RetryWaiting? ==> task.attemptCount < max)
    && (task.status.Running? ==> task.attemptCount > 0 && task.startedAt > 0 && LeaseOk(runId, t, task))
    && (!task.status.Running? ==> task.lease.None?)
    && (task.status.Succeeded? || task.status.Failed? ==> task.attemptCount > 0)
    && (task.status.Terminal() ==> task.finishedAt > 0)
    && (task.status.RetryWaiting? ==> task.attemptCount > 0 && task.nextAttemptAt > 0)
    && (!task.status.RetryWaiting? ==> task.nextAttemptAt == 0)
  }

  /** Statuses a task reaches only after its dependencies have succeeded. */
  predicate Unlocked(status: TaskStatus) {
    status.Ready? || status.Running? || status.RetryWaiting? || status.Succeeded? || status.Failed?
  }

  predicate AllSucceeded(tasks: map<Text, TaskRun>, ids: set<Text>) {
    forall d :: d in ids ==> d in tasks && tasks[d].status.Succeeded?
  }

  predicate DependenciesOk(e: Edges, tasks: map<Text, TaskRun>) {
    forall t :: t in tasks && t in e && Unlocked(tasks[t].status) ==> AllSucceeded(tasks, e[t])
  }

  predicate WorkersOk(run: RunState) {
    && (forall w :: w in run.workers ==>
          run.workers[w].workerId == w && ValidIdentifier(w) && run.createdAt <= run.workers[w].lastHeartbeatAt)
    && forall t :: t in run.tasks && run.tasks[t].lease.Some? ==> run.tasks[t].lease.value.workerId in run.workers
  }

  predicate AggregateOk(run: RunState) {
    match run.status
    case RunPending => forall t :: t in run.tasks ==> run.tasks[t].status.Pending?
    case RunRunning => true
    case RunSucceeded => forall t :: t in run.tasks ==> run.tasks[t].status.Succeeded?
    case RunFailed =>
      && (forall t :: t in run.tasks ==> run.tasks[t].status.Terminal())
      && exists t :: t in run.tasks && !run.tasks[t].status.Succeeded?
    case RunCanceled =>
      forall t :: t in run.tasks ==> run.tasks[t].status.Terminal() && !run.tasks[t].status.Failed?
  }

  predicate HeaderOk(run: RunState) {
    ValidIdentifier(run.id) && run.tasks.Keys == TaskIds(run.definition) && 0 < run.createdAt <= run.updatedAt
  }

  predicate TasksOk(run: RunState) {
    forall t :: t in run.tasks ==> TaskOk(run.id, run.createdAt, MaxAttemptsOf(run.definition, t), t, run.tasks[t])
  }

  predicate RunInv(run: RunState) {
    && HeaderOk(run) && TasksOk(run) && DependenciesOk(EdgesOf(run.definition), run.tasks)
    && WorkersOk(run) && AggregateOk(run)
  }

  /** No worker holds two leases: what the store insists on and StartAttempt does not check. */
  predicate UniqueLeases(run: RunState) {
    forall t, u :: t in run.tasks && u in run.tasks && t != u && run.tasks[t].lease.Some?
                   && run.tasks[u].lease.Some? ==>
      run.tasks[t].lease.value.workerId != run.tasks[u].lease.value.workerId
  }

  predicate HoldsLease(run: RunState, workerId: Text) {
    exists t :: t in run.tasks && run.tasks[t].lease.Some? && run.tasks[t].lease.value.workerId == workerId
  }

  // ------------------------------------------------------------------
  // Progress

  function Rank(status: TaskStatus): nat {
    match status
    case Pending => 2
    case Ready => 1
    case Running => 3
    case RetryWaiting => 2
    case _ => 0
  }

  /** How many status changes a task can still make. */
  function Potential(max: int, task: TaskRun): int {
    3 * (max - task.attemptCount) + Rank(task.status)
  }

  /** How one task may change between two states of a run, in any number of steps. */
  predicate Advance(max: int, a: TaskRun, b: TaskRun) {
    && a.attemptCount <= b.attemptCount
    && (a.status.Terminal() ==> b == a)
    && Potential(max, b) <= Potential(max, a)
    && (b.status != a.status || b.attemptCount != a.attemptCount ==> Potential(max, b) < Potential(max, a))
    && (b.status.Running? && b.attemptCount == a.attemptCount ==>
          a.status.Running? && a.lease.Some? && b.lease.Some? && b.lease.value.workerId == a.lease.value.workerId)
    && (b.attemptCount == a.attemptCount && a.status.Ready? ==> b.status.Ready? || b.status.Canceled?)
    && (a.attemptCount < b.attemptCount ==> !a.status.Terminal())
  }

  predicate SameRun(a: RunState, b: RunState) {
    && b.id == a.id && b.definition == a.definition && b.createdAt == a.createdAt
    && b.tasks.Keys == a.tasks.Keys
  }

  predicate Advances(a: RunState, b: RunState) {
    && SameRun(a, b)
    && forall t :: t in a.tasks ==> Advance(MaxAttemptsOf(a.definition, t), a.tasks[t], b.tasks[t])
  }
}
