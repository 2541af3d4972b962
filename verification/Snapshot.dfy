/** Durable snapshots of a run: storage-level validation, and the way back to a run. */
module Snapshot {
  import opened Ids
  import opened Definition
  import opened Edges
  import opened Graph
  import opened Run

  datatype RunSnapshot = RunSnapshot(
    id: Text, workflowId: Text, version: nat, status: RunStatus, createdAt: Time, updatedAt: Time,
    tasks: seq<TaskRun>, workers: seq<Heartbeat>)

  datatype SnapshotError =
    | BadRunId | BadWorkflowId | BadCreation | BadUpdate | NoTasks | BadTask(taskId: Text) | DuplicateTask(taskId: Text)
    | BadLease(taskId: Text) | DuplicateLease(workerId: Text) | BadWorker(workerId: Text) | LeaseWithoutHeartbeat
    | BadAggregate | BadDefinition | WrongWorkflow | WrongTasks

  // ------------------------------------------------------------------
  // What a snapshot must satisfy

  predicate IdentityValid(runId: Text, task: TaskRun) {
    var trid := TaskRunIdFor(runId, task.taskId);
    && (task.taskRunId == [] || task.taskRunId == trid)
    && task.attemptCount >= 0
    && (task.attemptCount == 0 ==> task.currentAttemptId == [])
    && (task.currentAttemptId == [] || task.currentAttemptId == AttemptIdFor(trid, task.attemptCount))
  }

  predicate ProgressValid(createdAt: Time, task: TaskRun) {
    && task.updatedAt != 0 && createdAt <= task.updatedAt
    && (task.status.Running? ==> task.attemptCount != 0 && task.startedAt != 0)
    && (task.status.Succeeded? || task.status.Failed? ==> task.attemptCount != 0 && task.finishedAt != 0)
    && (task.status.Canceled? ==> task.finishedAt != 0)
    && (task.status.RetryWaiting? ==> task.nextAttemptAt != 0 && task.attemptCount != 0 && task.currentAttemptId != [])
    && (!task.status.RetryWaiting? ==> task.nextAttemptAt == 0)
  }

  predicate LeaseValid(runId: Text, task: TaskRun) {
    task.lease.Some? ==>
      var trid := TaskRunIdFor(runId, task.taskId);
      && task.status.Running?
      && ValidIdentifier(task.lease.value.workerId)
      && task.taskRunId == trid && task.lease.value.taskRunId == trid
      && ValidIdentifier(task.lease.value.attemptId)
      && task.lease.value.attemptId == task.currentAttemptId
      && task.lease.value.expiresAt != 0
  }

  predicate TaskValid(runId: Text, createdAt: Time, task: TaskRun) {
    ValidIdentifier(task.taskId) && IdentityValid(runId, task) && ProgressValid(createdAt, task)
    && LeaseValid(runId, task)
  }

  predicate DistinctTasks(tasks: seq<TaskRun>) {
    forall i, j :: 0 <= i < j < |tasks| ==> tasks[i].taskId != tasks[j].taskId
  }

  predicate DistinctLeases(tasks: seq<TaskRun>) {
    forall i, j :: 0 <= i < j < |tasks| && tasks[i].lease.Some? && tasks[j].lease.Some? ==>
      tasks[i].lease.value.workerId != tasks[j].lease.value.workerId
  }

  predicate WorkerValid(createdAt: Time, worker: Heartbeat) {
    ValidIdentifier(worker.workerId) && worker.lastHeartbeatAt != 0 && createdAt <= worker.lastHeartbeatAt
  }

  predicate WorkersValid(createdAt: Time, workers: seq<Heartbeat>) {
    && (forall i :: 0 <= i < |workers| ==> WorkerValid(createdAt, workers[i]))
    && forall i, j :: 0 <= i < j < |workers| ==> workers[i].workerId != workers[j].workerId
  }

  function WorkerIds(workers: seq<Heartbeat>): set<Text> {
    set i | 0 <= i < |workers| :: workers[i].workerId
  }

  function LeaseHolders(tasks: seq<TaskRun>): set<Text> {
    set i | 0 <= i < |tasks| && tasks[i].lease.Some? :: tasks[i].lease.value.workerId
  }

  predicate AggregateValid(status: RunStatus, tasks: seq<TaskRun>) {
    match status
    case RunPending => forall i :: 0 <= i < |tasks| ==> tasks[i].status.Pending?
    case RunRunning => true
    case RunSucceeded => forall i :: 0 <= i < |tasks| ==> tasks[i].status.Succeeded?
    case RunFailed =>
      && (forall i :: 0 <= i < |tasks| ==> tasks[i].status.Terminal())
      && exists i :: 0 <= i < |tasks| && (tasks[i].status.Failed? || tasks[i].status.Canceled?)
    case RunCanceled => forall i :: 0 <= i < |tasks| ==> tasks[i].status.Terminal() && !tasks[i].status.Failed?
  }

  predicate TasksValid(s: RunSnapshot) {
    && (forall i :: 0 <= i < |s.tasks| ==> TaskValid(s.id, s.createdAt, s.tasks[i]))
    && DistinctTasks(s.tasks) && DistinctLeases(s.tasks)
  }

  predicate HeaderValid(s: RunSnapshot) {
    && ValidIdentifier(s.id) && ValidIdentifier(s.workflowId)
    && s.createdAt != 0 && s.updatedAt != 0 && s.createdAt <= s.updatedAt && s.tasks != []
  }

  predicate SnapshotValid(s: RunSnapshot) {
    && HeaderValid(s) && TasksValid(s)
    && WorkersValid(s.createdAt, s.workers)
    && LeaseHolders(s.tasks) <= WorkerIds(s.workers)
    && AggregateValid(s.status, s.tasks)
  }

  // ------------------------------------------------------------------
  // Validation as the program runs it: one pass with running sets and counters

  function Count(tasks: seq<TaskRun>, status: TaskStatus): nat {
    if tasks == [] then 0
    else Count(tasks[..|tasks| - 1], status) + if tasks[|tasks| - 1].status == status then 1 else 0
  }

  lemma {:induction false} CountBounds(tasks: seq<TaskRun>, status: TaskStatus)
    ensures Count(tasks, status) <= |tasks|
    ensures Count(tasks, status) == |tasks| <==> forall i :: 0 <= i < |tasks| ==> tasks[i].status == status
    ensures Count(tasks, status) == 0 <==> forall i :: 0 <= i < |tasks| ==> tasks[i].status != status
    decreases |tasks|
  {
    if tasks != [] {
      var init := tasks[..|tasks| - 1];
      CountBounds(init, status);
      assert forall i :: 0 <= i < |init| ==> init[i] == tasks[i];
    }
  }

  function CountAt(counts: map<TaskStatus, int>, status: TaskStatus): int {
    if status in counts then counts[status] else 0
  }

  function UnfinishedCount(tasks: seq<TaskRun>): nat {
    Count(tasks, Pending) + Count(tasks, Ready) + Count(tasks, Running) + Count(tasks, RetryWaiting)
  }

  lemma NoneUnfinished(tasks: seq<TaskRun>)
    ensures UnfinishedCount(tasks) == 0 <==> forall i :: 0 <= i < |tasks| ==> tasks[i].status.Terminal()
  {
    hide Count;
    CountBounds(tasks, Pending);
    CountBounds(tasks, Ready);
    CountBounds(tasks, Running);
    CountBounds(tasks, RetryWaiting);
  }

  lemma AggregateByCounts(status: RunStatus, tasks: seq<TaskRun>)
    ensures AggregateValid(status, tasks) <==>
              match status
              case RunPending => Count(tasks, Pending) == |tasks|
              case RunRunning => true
              case RunSucceeded => Count(tasks, Succeeded) == |tasks|
              case RunFailed => UnfinishedCount(tasks) == 0 && Count(tasks, Failed) + Count(tasks, Canceled) > 0
              case RunCanceled => UnfinishedCount(tasks) == 0 && Count(tasks, Failed) == 0
  {
    hide Count, UnfinishedCount;
    match status
    case RunPending => CountBounds(tasks, Pending);
    case RunRunning =>
    case RunSucceeded => CountBounds(tasks, Succeeded);
    case RunFailed =>
      NoneUnfinished(tasks);
      CountBounds(tasks, Failed);
      CountBounds(tasks, Canceled);
    case RunCanceled =>
      NoneUnfinished(tasks);
      CountBounds(tasks, Failed);
  }

  /** The aggregate rules on counters. */
  method CheckAggregate(status: RunStatus, tasks: seq<TaskRun>, counts: map<TaskStatus, int>) returns (ok: bool)
    requires Counts(counts, tasks)
    ensures ok <==> AggregateValid(status, tasks)
  {
    hide Count, AggregateValid;
    AggregateByCounts(status, tasks);
    var unfinished := CountAt(counts, Pending) + CountAt(counts, Ready) + CountAt(counts, Running)
                      + CountAt(counts, RetryWaiting);
    match status
    case RunPending => ok := CountAt(counts, Pending) == |tasks|;
    case RunRunning => ok := true;
    case RunSucceeded => ok := CountAt(counts, Succeeded) == |tasks|;
    case RunFailed => ok := !(unfinished > 0 || CountAt(counts, Failed) + CountAt(counts, Canceled) == 0);
    case RunCanceled => ok := !(unfinished > 0 || CountAt(counts, Failed) > 0);
  }

  lemma TaskPrefix(s: RunSnapshot, n: nat)
    requires n < |s.tasks|
    ensures s.tasks[..n + 1][..n] == s.tasks[..n] && s.tasks[..n + 1][n] == s.tasks[n]
  {
  }

  predicate PrefixValid(s: RunSnapshot, n: nat)
    requires n <= |s.tasks|
  {
    && (forall i :: 0 <= i < n ==> TaskValid(s.id, s.createdAt, s.tasks[i]))
    && DistinctTasks(s.tasks[..n]) && DistinctLeases(s.tasks[..n])
  }

  function PrefixIds(s: RunSnapshot, n: nat): set<Text>
    requires n <= |s.tasks|
  {
    set i | 0 <= i < n :: s.tasks[i].taskId
  }

  predicate Admissible(s: RunSnapshot, task: TaskRun, seen: set<Text>, leased: set<Text>) {
    && TaskValid(s.id, s.createdAt, task) && task.taskId !in seen
    && (task.lease.Some? ==> task.lease.value.workerId !in leased)
  }

  lemma PrefixExtends(s: RunSnapshot, n: nat)
    requires n < |s.tasks| && PrefixValid(s, n)
    requires Admissible(s, s.tasks[n], PrefixIds(s, n), LeaseHolders(s.tasks[..n]))
    ensures PrefixValid(s, n + 1)
  {
    hide TaskValid;
    TaskPrefix(s, n);
    var a, b := s.tasks[..n], s.tasks[..n + 1];
    assert forall i :: 0 <= i < n ==> b[i] == a[i] == s.tasks[i];
    forall i | 0 <= i < n ensures b[i].taskId != b[n].taskId {
      assert s.tasks[i].taskId in PrefixIds(s, n);
    }
    forall i | 0 <= i < n && b[i].lease.Some? && b[n].lease.Some?
      ensures b[i].lease.value.workerId != b[n].lease.value.workerId {
      assert a[i].lease.value.workerId in LeaseHolders(a);
    }
    assert DistinctTasks(b);
    assert DistinctLeases(b);
  }

  lemma PrefixRejected(s: RunSnapshot, n: nat)
    requires n < |s.tasks|
    requires !Admissible(s, s.tasks[n], PrefixIds(s, n), LeaseHolders(s.tasks[..n]))
    ensures !TasksValid(s)
  {
    if s.tasks[n].lease.Some? && s.tasks[n].lease.value.workerId in LeaseHolders(s.tasks[..n]) {
      var i :| 0 <= i < n && s.tasks[..n][i].lease.Some?
      && s.tasks[..n][i].lease.value.workerId == s.tasks[n].lease.value.workerId;
      assert s.tasks[i] == s.tasks[..n][i];
    }
  }

  /** The checks on one task, in the order the program makes them. */
  method CheckTask(s: RunSnapshot, task: TaskRun, seen: set<Text>, leased: set<Text>) returns (r: Option<SnapshotError>)
    ensures r.None? <==> Admissible(s, task, seen, leased)
  {
    if !ValidIdentifier(task.taskId) {
      return Some(BadTask(task.taskId));
    }
    if task.taskId in seen {
      return Some(DuplicateTask(task.taskId));
    }
    if !IdentityValid(s.id, task) || !ProgressValid(s.createdAt, task) {
      return Some(BadTask(task.taskId));
    }
    if task.lease.Some? {
      if !LeaseValid(s.id, task) {
        return Some(BadLease(task.taskId));
      }
      if task.lease.value.workerId in leased {
        return Some(DuplicateLease(task.lease.value.workerId));
      }
    }
    r := None;
  }

  ghost predicate Counts(counts: map<TaskStatus, int>, tasks: seq<TaskRun>) {
    forall st: TaskStatus {:trigger CountAt(counts, st)} :: CountAt(counts, st) == Count(tasks, st)
  }

  lemma CountsStep(counts: map<TaskStatus, int>, s: RunSnapshot, n: nat)
    requires n < |s.tasks| && Counts(counts, s.tasks[..n])
    ensures Counts(counts[s.tasks[n].status := CountAt(counts, s.tasks[n].status) + 1], s.tasks[..n + 1])
  {
    TaskPrefix(s, n);
    var next := counts[s.tasks[n].status := CountAt(counts, s.tasks[n].status) + 1];
    forall st: TaskStatus ensures CountAt(next, st) == Count(s.tasks[..n + 1], st) {
      assert CountAt(counts, st) == Count(s.tasks[..n], st);
    }
  }

  /** The pass over the tasks, with the three running collections. */
  method CheckTasks(s: RunSnapshot) returns (r: Result<(set<Text>, map<TaskStatus, int>), SnapshotError>)
    ensures r.Ok? <==> TasksValid(s)
    ensures r.Ok? ==> r.value.0 == LeaseHolders(s.tasks) && Counts(r.value.1, s.tasks)
  {
    var seen: set<Text> := {};
    var leased: set<Text> := {};
    var counts: map<TaskStatus, int> := map[];
    for n := 0 to |s.tasks|
      invariant seen == PrefixIds(s, n)
      invariant leased == LeaseHolders(s.tasks[..n])
      invariant PrefixValid(s, n)
      invariant Counts(counts, s.tasks[..n])
    {
      var task := s.tasks[n];
      var defect := CheckTask(s, task, seen, leased);
      if defect.Some? {
        PrefixRejected(s, n);
        return Err(defect.value);
      }
      PrefixExtends(s, n);
      LeaseHoldersStep(s.tasks, n);
      CountsStep(counts, s, n);
      seen := seen + {task.taskId};
      if task.lease.Some? {
        leased := leased + {task.lease.value.workerId};
      }
      counts := counts[task.status := CountAt(counts, task.status) + 1];
    }
    assert s.tasks[..|s.tasks|] == s.tasks;
    r := Ok((leased, counts));
  }

  lemma LeaseHoldersStep(tasks: seq<TaskRun>, n: nat)
    requires n < |tasks|
    ensures LeaseHolders(tasks[..n + 1]) ==
            LeaseHolders(tasks[..n]) + if tasks[n].lease.Some? then {tasks[n].lease.value.workerId} else {}
  {
    var a, b := tasks[..n], tasks[..n + 1];
    forall x | x in LeaseHolders(b)
      ensures x in LeaseHolders(a) + if tasks[n].lease.Some? then {tasks[n].lease.value.workerId} else {}
    {
      var i :| 0 <= i < |b| && b[i].lease.Some? && b[i].lease.value.workerId == x;
      if i < n {
        assert a[i] == b[i];
      }
    }
    forall x | x in LeaseHolders(a) ensures x in LeaseHolders(b) {
      var i :| 0 <= i < |a| && a[i].lease.Some? && a[i].lease.value.workerId == x;
      assert a[i] == b[i];
    }
    assert b[n] == tasks[n];
  }

  method CheckWorkers(createdAt: Time, workers: seq<Heartbeat>) returns (r: Result<set<Text>, SnapshotError>)
    ensures r.Ok? <==> WorkersValid(createdAt, workers)
    ensures r.Ok? ==> r.value == WorkerIds(workers)
  {
    var seen: set<Text> := {};
    for n := 0 to |workers|
      invariant seen == set i | 0 <= i < n :: workers[i].workerId
      invariant forall i :: 0 <= i < n ==> WorkerValid(createdAt, workers[i])
      invariant forall i, j :: 0 <= i < j < n ==> workers[i].workerId != workers[j].workerId
    {
      var worker := workers[n];
      if !WorkerValid(createdAt, worker) || worker.workerId in seen {
        return Err(BadWorker(worker.workerId));
      }
      seen := seen + {worker.workerId};
    }
    r := Ok(seen);
  }

  method Validate(s: RunSnapshot) returns (r: Result<(), SnapshotError>)
    ensures r.Ok? <==> SnapshotValid(s)
  {
    if !ValidIdentifier(s.id) {
      return Err(BadRunId);
    }
    if !ValidIdentifier(s.workflowId) {
      return Err(BadWorkflowId);
    }
    if s.createdAt == 0 {
      return Err(BadCreation);
    }
    if s.updatedAt == 0 || s.updatedAt < s.createdAt {
      return Err(BadUpdate);
    }
    if |s.tasks| == 0 {
      return Err(NoTasks);
    }
    var tasks := CheckTasks(s);
    if tasks.Err? {
      return Err(tasks.error);
    }
    var workers := CheckWorkers(s.createdAt, s.workers);
    if workers.Err? {
      return Err(workers.error);
    }
    if !(tasks.value.0 <= workers.value) {
      return Err(LeaseWithoutHeartbeat);
    }
    var consistent := CheckAggregate(s.status, s.tasks, tasks.value.1);
    r := if consistent then Ok(()) else Err(BadAggregate);
  }

  // ------------------------------------------------------------------
  // Taking a snapshot and restoring it

  /** The snapshot of a run: tasks and workers in the order of their identifiers. */
  ghost function SnapshotOf(run: RunState): RunSnapshot {
    RunSnapshot(run.id, run.definition.id, run.version, run.status, run.createdAt, run.updatedAt,
                TaskList(run.tasks), WorkerList(run.workers))
  }

  ghost function TaskList(tasks: map<Text, TaskRun>): (list: seq<TaskRun>)
    ensures |list| == |tasks.Keys|
  {
    ListTasks(tasks, SortedSeq(tasks.Keys))
  }

  function ListTasks(tasks: map<Text, TaskRun>, ids: seq<Text>): (list: seq<TaskRun>)
    requires forall x :: x in ids ==> x in tasks
    ensures |list| == |ids|
    ensures forall i :: 0 <= i < |ids| ==> list[i] == tasks[ids[i]]
  {
    if ids == [] then [] else ListTasks(tasks, ids[..|ids| - 1]) + [tasks[ids[|ids| - 1]]]
  }

  function ListWorkers(workers: map<Text, Heartbeat>, ids: seq<Text>): (list: seq<Heartbeat>)
    requires forall x :: x in ids ==> x in workers
    ensures |list| == |ids|
    ensures forall i :: 0 <= i < |ids| ==> list[i] == workers[ids[i]]
  {
    if ids == [] then [] else ListWorkers(workers, ids[..|ids| - 1]) + [workers[ids[|ids| - 1]]]
  }

  ghost function WorkerList(workers: map<Text, Heartbeat>): (list: seq<Heartbeat>)
    ensures |list| == |workers.Keys|
  {
    ListWorkers(workers, SortedSeq(workers.Keys))
  }

  /** Identities a snapshot written before they existed leaves empty. */
  function Filled(runId: Text, task: TaskRun): TaskRun {
    var t0 := if task.taskRunId == [] then task.(taskRunId := TaskRunIdFor(runId, task.taskId)) else task;
    if t0.currentAttemptId == [] && t0.attemptCount > 0
      then t0.(currentAttemptId := AttemptIdFor(t0.taskRunId, t0.attemptCount))
    else t0
  }

  function TaskMap(runId: Text, tasks: seq<TaskRun>): map<Text, TaskRun> {
    if tasks == [] then map[]
    else TaskMap(runId, tasks[..|tasks| - 1])[tasks[|tasks| - 1].taskId := Filled(runId, tasks[|tasks| - 1])]
  }

  function WorkerMap(workers: seq<Heartbeat>): map<Text, Heartbeat> {
    if workers == [] then map[]
    else WorkerMap(workers[..|workers| - 1])[workers[|workers| - 1].workerId := workers[|workers| - 1]]
  }

  ghost function Restore(s: RunSnapshot, definition: WorkflowDefinition): Result<RunState, SnapshotError> {
    if !SnapshotValid(s) then Err(BadAggregate)
    else if !ValidDefinition(definition) then Err(BadDefinition)
    else if s.workflowId != definition.id then Err(WrongWorkflow)
    else if |s.tasks| != |definition.tasks| || !(TaskIds(definition) <= TaskMap(s.id, s.tasks).Keys)
      then Err(WrongTasks)
    else Ok(RunState(s.id, definition, s.version, s.status, TaskMap(s.id, s.tasks), WorkerMap(s.workers), s.createdAt,
                     s.updatedAt))
  }

  method RestoreTasks(s: RunSnapshot) returns (tasks: map<Text, TaskRun>)
    ensures tasks == TaskMap(s.id, s.tasks)
  {
    tasks := map[];
    for n := 0 to |s.tasks|
      invariant tasks == TaskMap(s.id, s.tasks[..n])
    {
      tasks := tasks[s.tasks[n].taskId := Filled(s.id, s.tasks[n])];
      TaskPrefix(s, n);
    }
    assert s.tasks[..|s.tasks|] == s.tasks;
  }

  method RestoreWorkers(s: RunSnapshot) returns (workers: map<Text, Heartbeat>)
    ensures workers == WorkerMap(s.workers)
  {
    workers := map[];
    for n := 0 to |s.workers|
      invariant workers == WorkerMap(s.workers[..n])
    {
      workers := workers[s.workers[n].workerId := s.workers[n]];
      assert s.workers[..n + 1][..n] == s.workers[..n];
    }
    assert s.workers[..|s.workers|] == s.workers;
  }

  /** Restoring as the program does it. */
  method RestoreWorkflowRun(s: RunSnapshot, definition: WorkflowDefinition) returns (r: Result<RunState, SnapshotError>)
    ensures r.Ok? <==> Restore(s, definition).Ok?
    ensures r.Ok? ==> r.value == Restore(s, definition).value
  {
    var valid := Validate(s);
    if valid.Err? {
      return Err(valid.error);
    }
    var order := Graph.Validate(definition);
    if order.Err? {
      return Err(BadDefinition);
    }
    if s.workflowId != definition.id {
      return Err(WrongWorkflow);
    }
    if |s.tasks| != |definition.tasks| {
      return Err(WrongTasks);
    }
    var tasks := RestoreTasks(s);
    for n := 0 to |definition.tasks|
      invariant forall i :: 0 <= i < n ==> definition.tasks[i].id in tasks
    {
      if definition.tasks[n].id !in tasks {
        assert definition.tasks[n].id in TaskIds(definition);
        return Err(WrongTasks);
      }
    }
    var workers := RestoreWorkers(s);
    r := Ok(RunState(s.id, definition, s.version, s.status, tasks, workers, s.createdAt, s.updatedAt));
  }

  // ------------------------------------------------------------------
  // Snapshots of the engine's own runs

  lemma TaskListFacts(tasks: map<Text, TaskRun>)
    requires forall t :: t in tasks ==> tasks[t].taskId == t
    ensures forall i :: 0 <= i < |TaskList(tasks)| ==>
              TaskList(tasks)[i].taskId in tasks && TaskList(tasks)[i] == tasks[TaskList(tasks)[i].taskId]
    ensures forall t :: t in tasks ==> exists i :: 0 <= i < |TaskList(tasks)| && TaskList(tasks)[i] == tasks[t]
    ensures DistinctTasks(TaskList(tasks))
  {
    var ids := SortedSeq(tasks.Keys);
    var list := TaskList(tasks);
    forall i | 0 <= i < |list| ensures list[i].taskId in tasks && list[i] == tasks[list[i].taskId]
    && list[i].taskId == ids[i] {
      assert ids[i] in ids;
    }
    forall t | t in tasks ensures exists i :: 0 <= i < |list| && list[i] == tasks[t] {
      assert t in ids;
      var i := IndexIn(ids, t);
      assert list[i] == tasks[t];
    }
    forall i, j | 0 <= i < j < |list| ensures list[i].taskId != list[j].taskId {
      assert Less(ids[i], ids[j]);
    }
  }

  lemma WorkerListFacts(workers: map<Text, Heartbeat>)
    requires forall w :: w in workers ==> workers[w].workerId == w
    ensures forall i :: 0 <= i < |WorkerList(workers)| ==>
              WorkerList(workers)[i].workerId in workers
              && WorkerList(workers)[i] == workers[WorkerList(workers)[i].workerId]
    ensures WorkerIds(WorkerList(workers)) == workers.Keys
    ensures forall i, j :: 0 <= i < j < |WorkerList(workers)| ==>
              WorkerList(workers)[i].workerId != WorkerList(workers)[j].workerId
  {
    var ids := SortedSeq(workers.Keys);
    var list := WorkerList(workers);
    forall i | 0 <= i < |list| ensures list[i].workerId in workers && list[i] == workers[list[i].workerId]
    && list[i].workerId == ids[i] {
      assert ids[i] in ids;
    }
    forall w | w in workers ensures w in WorkerIds(list) {
      assert w in ids;
      var i := IndexIn(ids, w);
      assert list[i].workerId == w;
    }
    forall i, j | 0 <= i < j < |list| ensures list[i].workerId != list[j].workerId {
      assert Less(ids[i], ids[j]);
    }
  }
}
