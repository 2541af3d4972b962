/** The scheduler of one run, its workers and its task subscription as one state machine.

An event is one step of the scheduler loop, of a worker, or of the environment. Steps are total: an
event that cannot happen in a state leaves it alone. Clock readings, storage failures, handler
outcomes, the choice among ready channels and the moment of a crash are all carried by the events,
so a theorem about every sequence of events covers every interleaving. */
module Scheduler {
  import opened Ids
  import opened Run
  import opened Broker
  import opened Channel
  import S = Snapshot

  datatype Config = Config(workerCount: nat, leaseDuration: int, heartbeatInterval: int)

  // A worker is one incarnation of a slot; its identifier is WorkerIdFor of the two numbers.
  datatype WorkerKey = WorkerKey(slot: nat, generation: nat)

  datatype Job = Job(taskId: Text, taskRunId: Text, attemptId: Text)

  datatype Phase =
    | Receiving
    | Holding(d: Ticket)              // received, claim not sent
    | Claiming(d: Ticket)             // claim sent, waiting for the response
    | Working(d: Ticket, job: Job)    // running the handler

  datatype Claim = Claim(worker: WorkerKey, ticket: Ticket)

  datatype TaskResult = TaskResult(worker: WorkerKey, job: Job, output: Text, error: Option<TaskError>, ticket: Ticket)

  // A delivery to acknowledge and the worker, if any, that is told afterwards.
  datatype Settle = Settle(ticket: Ticket, claimant: Option<WorkerKey>)

  datatype After = ToGate | ToTop | ToFail

  // Why the loop shuts its workers down.
  datatype Goal = GiveUp | Fail | Cancel | Complete | Stalled | Malformed

  datatype Mode =
    | Idle
    | Top
    | Acking(todo: seq<Settle>, after: After)
    | Publishing(ids: seq<Text>)
    | Selecting
    | Draining(goal: Goal)

  datatype Cache = Cache(
    namespace: Text, ready: set<Text>, inFlight: set<Text>, completed: set<Text>, published: set<Text>,
    pending: map<Text, seq<Claim>>)

  datatype Pool = Pool(
    generations: map<nat, nat>, workers: map<WorkerKey, Phase>, claims: multiset<Claim>, results: multiset<TaskResult>)

  datatype Sys = Sys(
    config: Config, stored: RunState, run: RunState, channel: Channel, mode: Mode, cache: Cache, pool: Pool,
    issued: seq<Text>)

  datatype Event =
    | Load(cause: Text, now1: Time, now2: Time, io: bool)
    | CancelIdle(cause: Text, now1: Time, now2: Time, io: bool)
    | Begin(namespace: Text, clock: Clock, io: bool)
    | LoopTop(canceled: bool, now1: Time, now2: Time, io: bool)
    | AckNext
    | PublishNext(ok: bool)
    | TakeClaim(c: Claim, now: Time, io: bool)
    | TakeHeartbeat(slot: nat, now: Time, io: bool, progressed: bool)
    | TakeLost(slot: nat)
    | TakeBrokerError
    | TakeResult(r: TaskResult, canceled: bool, now: Time, clock: Clock, io: bool)
    | TimerFires
    | ContextDone
    | Finish(cause: Text, now1: Time, now2: Time, io: bool)
    | Receive(k: WorkerKey, id: Text)
    | SendClaim(k: WorkerKey)
    | FinishTask(k: WorkerKey, output: Text, error: Option<TaskError>)
    | Abort(k: WorkerKey)
    | Crash

  const EMPTY_POOL: Pool := Pool(map[], map[], multiset{}, multiset{})

  // ------------------------------------------------------------------
  // Storage

  /** The snapshot validates and restores against the run's definition. */
  ghost predicate Storable(run: RunState) {
    S.Restore(S.SnapshotOf(run), run.definition).Ok?
  }

  /** The store takes a snapshot that carries the version it holds, and counts the version up. */
  ghost function Save(stored: RunState, run: RunState, io: bool): Option<RunState> {
    if io && run.version == stored.version && Storable(run) then Some(run.(version := run.version + 1)) else None
  }

  ghost function SaveOrKeep(stored: RunState, r: Result<RunState, RunError>, io: bool): RunState {
    if r.Ok? && Save(stored, r.value, io).Some? then Save(stored, r.value, io).value else stored
  }

  // ------------------------------------------------------------------
  // Workers

  function Name(namespace: Text, runId: Text, k: WorkerKey): Text {
    WorkerIdFor(namespace, runId, k.slot, k.generation)
  }

  predicate IsCurrent(pool: Pool, k: WorkerKey) {
    k.slot in pool.generations && pool.generations[k.slot] == k.generation
  }

  /** A new worker takes over a slot; the goroutine of the old one goes on until it notices. */
  function Respawn(pool: Pool, slot: nat): Pool
    requires slot in pool.generations
  {
    var g := pool.generations[slot] + 1;
    pool.(generations := pool.generations[slot := g], workers := pool.workers[WorkerKey(slot, g) := Receiving])
  }

  ghost predicate Runs(pool: Pool, namespace: Text, runId: Text, workerId: Text, slot: nat) {
    slot in pool.generations && Name(namespace, runId, WorkerKey(slot, pool.generations[slot])) == workerId
  }

  /** Replace the worker of that name if it is the current one of its slot. */
  ghost function Replace(pool: Pool, namespace: Text, runId: Text, workerId: Text): Pool {
    if exists slot: nat :: Runs(pool, namespace, runId, workerId, slot) then
      var slot: nat :| Runs(pool, namespace, runId, workerId, slot);
      Respawn(pool, slot)
    else pool
  }

  ghost function ReplaceAll(pool: Pool, namespace: Text, runId: Text, recoveries: seq<Recovery>): Pool
    decreases |recoveries|
  {
    if recoveries == [] then pool
    else ReplaceAll(Replace(pool, namespace, runId, recoveries[0].workerId), namespace, runId, recoveries[1..])
  }

  /** The answer to a claim reaches its worker only if that worker still waits for it. */
  function Respond(pool: Pool, k: WorkerKey, d: Ticket, phase: Phase): Pool {
    if k in pool.workers && pool.workers[k] == Claiming(d) then pool.(workers := pool.workers[k := phase]) else pool
  }

  /** One worker for each of the slots one to count. */
  function FirstWorkers(count: nat): Pool {
    if count == 0 then EMPTY_POOL
    else
      var pool := FirstWorkers(count - 1);
      pool.(generations := pool.generations[count := 1], workers := pool.workers[WorkerKey(count, 1) := Receiving])
  }

  // ------------------------------------------------------------------
  // Starting and restarting

  predicate AnyFailed(run: RunState) { exists t :: t in run.tasks && run.tasks[t].status.Failed? }

  predicate AnyCanceled(run: RunState) { exists t :: t in run.tasks && run.tasks[t].status.Canceled? }

  ghost function Restored(stored: RunState): Result<RunState, S.SnapshotError> {
    S.Restore(S.SnapshotOf(stored), stored.definition)
  }

  /** What loading a run leaves in the store: an interrupted ending is completed, a created run is started. */
  ghost function LoadRun(stored: RunState, cause: Text, now1: Time, now2: Time, io: bool): RunState {
    match Restored(stored)
    case Err(_) => stored
    case Ok(run) =>
      if run.status.Finished() then stored
      else if AnyFailed(run) then SaveOrKeep(stored, FailRun(run, cause, now1, now2), io)
      else if AnyCanceled(run) then SaveOrKeep(stored, CancelRun(run, cause, now1, now2), io)
      else if run.status.RunPending? then SaveOrKeep(stored, TransitionRun(run, RunRunning, now1), io)
      else stored
  }

  predicate Startable(run: RunState) {
    run.status.RunRunning? && !AnyFailed(run) && !AnyCanceled(run)
  }

  ghost function BeginRun(s: Sys, namespace: Text, clock: Clock, io: bool): Sys {
    match Restored(s.stored)
    case Err(_) => s
    case Ok(run) =>
      if !Startable(run) then s
      else
        var completed := SucceededTasks(run);
        var unlocked := NewlyReady(run, completed);
        var next := MarkNewReady(run, completed, clock);
        var cache := Cache(namespace, ReadyIds(run) + unlocked, RunningAttempts(next), completed, {}, map[]);
        Launched(s.(run := next, cache := cache, pool := EMPTY_POOL), unlocked != {}, io)
  }

  /** Save what was unlocked, if anything, and start the workers. */
  ghost function Launched(s: Sys, changed: bool, io: bool): Sys {
    if !changed then s.(pool := FirstWorkers(s.config.workerCount), mode := Top)
    else
      match Save(s.stored, s.run, io)
      case None => s.(mode := Draining(Fail))
      case Some(saved) => s.(stored := saved, run := saved, pool := FirstWorkers(s.config.workerCount), mode := Top)
  }

  // ------------------------------------------------------------------
  // The top of the loop

  ghost function Gate(s: Sys): Sys {
    if |s.cache.completed| == |s.run.definition.tasks| then s.(mode := Draining(Complete))
    else s.(mode := Publishing(SortedSeq(s.cache.ready)))
  }

  ghost function Resume(s: Sys, todo: seq<Settle>, after: After): Sys {
    if todo != [] then s.(mode := Acking(todo, after))
    else match after
         case ToGate => Gate(s)
         case ToTop => s.(mode := Top)
         case ToFail => s.(mode := Draining(Fail))
  }

  function SettleClaims(claims: seq<Claim>): seq<Settle> {
    seq(|claims|, i requires 0 <= i < |claims| => Settle(claims[i].ticket, Some(claims[i].worker)))
  }

  function PendingFor(pending: map<Text, seq<Claim>>, a: Text): seq<Settle> {
    if a in pending then SettleClaims(pending[a]) else []
  }

  /** Claims parked under the attempts of a report, attempt by attempt. */
  function PendingForAll(pending: map<Text, seq<Claim>>, recoveries: seq<Recovery>): seq<Settle>
    decreases |recoveries|
  {
    if recoveries == [] then []
    else
      PendingFor(pending, recoveries[0].attemptId)
      + PendingForAll(pending - {recoveries[0].attemptId}, recoveries[1..])
  }

  ghost function AttemptsOf(recoveries: seq<Recovery>): set<Text> {
    set i | 0 <= i < |recoveries| :: recoveries[i].attemptId
  }

  /** Expired attempts ended and due retries promoted. */
  function Refreshed(run: RunState, now1: Time, now2: Time): RunState {
    PromoteDue(RecoverExpired(run, now1), now2)
  }

  function Promoted(run: RunState, now1: Time, now2: Time): set<Text> {
    var recovered := RecoverExpired(run, now1);
    DueTasks(recovered, NextTimestamp(recovered, now2))
  }

  /** Recovered tasks that may be dispatched again at once. */
  function Redispatched(run: RunState, now1: Time, next: RunState): set<Text> {
    set t | t in ExpiredTasks(run, NextTimestamp(run, now1)) && t in next.tasks && t in run.tasks
            && RecoveryOf(run, t).outcome.RetryScheduled? && next.tasks[t].status.Ready?
  }

  ghost predicate Fatal(recoveries: seq<Recovery>) {
    exists i :: 0 <= i < |recoveries| && !recoveries[i].outcome.RetryScheduled?
  }

  /** The run in memory has changed: caches and workers follow, it is saved, and parked claims are acknowledged. */
  ghost function ChangedTop(s: Sys, recoveries: seq<Recovery>, again: set<Text>, promoted: set<Text>, io: bool): Sys {
    var next := s.(cache := s.cache.(inFlight := s.cache.inFlight - AttemptsOf(recoveries),
                                     ready := s.cache.ready + again + promoted,
                                     pending := s.cache.pending - AttemptsOf(recoveries)),
                   pool := ReplaceAll(s.pool, s.cache.namespace, s.run.id, recoveries));
    match Save(s.stored, s.run, io)
    case None => next.(mode := Draining(Fail))
    case Some(saved) =>
      Resume(next.(stored := saved, run := saved), PendingForAll(s.cache.pending, recoveries), if Fatal(recoveries)
             then ToFail else ToGate)
  }

  ghost function TopStep(s: Sys, now1: Time, now2: Time, io: bool): Sys {
    var next := Refreshed(s.run, now1, now2);
    var recoveries := Recoveries(s.run, now1);
    var promoted := Promoted(s.run, now1, now2);
    if recoveries == [] && promoted == {} then Gate(s)
    else ChangedTop(s.(run := next), recoveries, Redispatched(s.run, now1, next), promoted, io)
  }

  ghost function AckStep(s: Sys): Sys
    requires s.mode.Acking? && s.mode.todo != []
  {
    var x := s.mode.todo[0];
    if !Live(s.channel, x.ticket) then s.(mode := Draining(GiveUp))
    else
      var pool := if x.claimant.Some? then Respond(s.pool, x.claimant.value, x.ticket, Receiving) else s.pool;
      Resume(s.(channel := Acked(s.channel, x.ticket), pool := pool), s.mode.todo[1..], s.mode.after)
  }

  // ------------------------------------------------------------------
  // Publishing

  function NextAttemptId(task: TaskRun): Text {
    if task.attemptCount + 1 < 0 then [] else AttemptIdFor(task.taskRunId, task.attemptCount + 1)
  }

  /** A dispatch as it is read back. The body is JSON, which puts U+FFFD in the place of ill-formed bytes; the message
      identifier beside it is kept as it is. */
  function DispatchRead(runId: Text, t: Text, taskRunId: Text, attemptId: Text): Payload {
    Dispatch(Cleaned(runId), Cleaned(t), Cleaned(taskRunId), Cleaned(attemptId))
  }

  /** The identifiers of a task's dispatches survive the journey through JSON. */
  predicate Readable(runId: Text, t: Text) {
    Utf8(runId) && Utf8(t)
  }

  predicate AllReadable(run: RunState) {
    forall t :: t in run.tasks ==> Readable(run.id, t)
  }

  ghost function PublishStep(s: Sys, ok: bool): Sys
    requires s.mode.Publishing?
  {
    if s.mode.ids == [] then
      if s.cache.ready == {} && s.cache.inFlight == {} && !Waiting(s.run) then s.(mode := Draining(Stalled))
      else s.(mode := Selecting)
    else
      var t := s.mode.ids[0];
      if t !in s.run.tasks then s.(mode := Draining(GiveUp))
      else
        var task := s.run.tasks[t];
        var a := NextAttemptId(task);
        var body := DispatchRead(s.run.id, t, task.taskRunId, a);
        if a in s.cache.published then s.(mode := Publishing(s.mode.ids[1..]))
        else if !ok || Conflicts(s.channel, a, body) then s.(mode := Draining(GiveUp))
        else s.(channel := Posted(s.channel, a, body), cache := s.cache.(published := s.cache.published + {a}),
                mode := Publishing(s.mode.ids[1..]))
  }

  // ------------------------------------------------------------------
  // The select

  /** A delivery decodes to a dispatch of one of this run's tasks, under that attempt's own identifier. */
  predicate WellFormed(run: RunState, d: Ticket, body: Payload) {
    && body.Dispatch?
    && ValidIdentifier(body.runId) && ValidIdentifier(body.taskId)
    && ValidIdentifier(body.taskRunId) && ValidIdentifier(body.attemptId)
    && body.runId == run.id && body.attemptId == d.id
    && body.taskId in run.tasks && body.taskRunId == TaskRunIdFor(run.id, body.taskId)
  }

  predicate Dispatchable(task: TaskRun, d: Ticket) {
    task.status.Ready? && d.id == NextAttemptId(task)
  }

  ghost function StartStep(s: Sys, k: WorkerKey, d: Ticket, t: Text, now: Time, io: bool): Sys
    requires t in s.run.tasks
  {
    match StartAttempt(s.run, t, Name(s.cache.namespace, s.run.id, k), s.config.leaseDuration, now)
    case Err(_) => s.(mode := Draining(Fail))
    case Ok(next) =>
      match Save(s.stored, next, io)
      case None => s.(run := next, mode := Draining(GiveUp))
      case Some(saved) =>
        s.(stored := saved, run := saved, mode := Top, issued := s.issued + [d.id],
           cache := s.cache.(ready := s.cache.ready - {t}, inFlight := s.cache.inFlight + {d.id}),
           pool := Respond(s.pool, k, d, Working(d, Job(t, s.run.tasks[t].taskRunId, d.id))))
  }

  ghost function ClaimStep(s: Sys, c: Claim, now: Time, io: bool): Sys
    requires c.ticket.id in s.channel.bodies
  {
    var k, d := c.worker, c.ticket;
    var body := s.channel.bodies[d.id];
    if !IsCurrent(s.pool, k) then
      s.(channel := Nacked(s.channel, d), pool := Respond(s.pool, k, d, Receiving), mode := Top)
    else if !WellFormed(s.run, d, body) then
      s.(channel := Acked(s.channel, d), pool := Respond(s.pool, k, d, Receiving), mode := Draining(Malformed))
    else
      var task := s.run.tasks[body.taskId];
      if Dispatchable(task, d) then StartStep(s, k, d, body.taskId, now, io)
      else if task.status.Running? && d.id == task.currentAttemptId then
        var claims := if d.id in s.cache.pending then s.cache.pending[d.id] else [];
        s.(cache := s.cache.(pending := s.cache.pending[d.id := claims + [c]]), mode := Top)
      else if !Live(s.channel, d) then s.(mode := Draining(GiveUp))
      else s.(channel := Acked(s.channel, d), pool := Respond(s.pool, k, d, Receiving), mode := Top)
  }

  ghost function HeartbeatStep(s: Sys, slot: nat, now: Time, io: bool, progressed: bool): Sys
    requires slot in s.pool.generations
  {
    var workerId := Name(s.cache.namespace, s.run.id, WorkerKey(slot, s.pool.generations[slot]));
    match RecordHeartbeat(s.run, workerId, s.config.leaseDuration, now)
    case Err(_) => s.(mode := Draining(Fail))
    case Ok(next) =>
      match Save(s.stored, next, io)
      case None => s.(run := next, mode := Draining(GiveUp))
      case Some(saved) => s.(stored := saved, run := saved, mode := if progressed then Top else Draining(GiveUp))
  }

  function ResultTodo(cache: Cache, r: TaskResult): seq<Settle> {
    [Settle(r.ticket, None)] + PendingFor(cache.pending, r.job.attemptId)
  }

  // The run after a result, what the result came to, and the tasks its success unlocked.
  datatype Applied = Applied(run: RunState, outcome: Outcome, unlocked: set<Text>)

  ghost function ApplyResult(run: RunState, workerId: Text, completed: set<Text>, r: TaskResult, now: Time,
                             clock: Clock)
    : Result<Applied, RunError>
  {
    match CompleteAttempt(run, r.job.taskId, r.job.taskRunId, workerId, r.job.attemptId, r.output, r.error, now)
    case Err(e) => Err(e)
    case Ok((next, outcome)) =>
      if outcome.Completed? then
        Ok(Applied(MarkNewReady(next, completed, clock), outcome, NewlyReady(next, completed)))
      else Ok(Applied(next, outcome, {}))
  }

  /** The caches after a result that counted. */
  ghost function ResultCache(cache: Cache, job: Job, applied: Applied): Cache {
    var settled := cache.(inFlight := cache.inFlight - {job.attemptId}, pending := cache.pending - {job.attemptId});
    match applied.outcome
    case Completed => settled.(completed := cache.completed + {job.taskId}, ready := cache.ready + applied.unlocked)
    case RetryScheduled =>
      settled.(ready := cache.ready + (if job.taskId in ReadyIds(applied.run) then {job.taskId} else {}))
    case _ => settled
  }

  ghost function ResultStep(s: Sys, r: TaskResult, now: Time, clock: Clock, io: bool): Sys {
    var name := Name(s.cache.namespace, s.run.id, r.worker);
    match ApplyResult(s.run, name, s.cache.completed + {r.job.taskId}, r, now, clock)
    case Err(_) => s.(mode := Draining(Fail))
    case Ok(applied) =>
      ResultSaved(s.(run := applied.run, cache := ResultCache(s.cache, r.job, applied)), applied.outcome,
                  ResultTodo(s.cache, r), io)
  }

  /** Save a result that counted, then acknowledge what it settles. */
  ghost function ResultSaved(s: Sys, outcome: Outcome, todo: seq<Settle>, io: bool): Sys {
    if outcome.Ignored? then Resume(s, todo, ToTop)
    else
      match Save(s.stored, s.run, io)
      case None => s.(mode := Draining(GiveUp))
      case Some(saved) => Resume(s.(stored := saved, run := saved), todo, if outcome.Exhausted? then ToFail else ToTop)
  }

  // ------------------------------------------------------------------
  // Ending

  ghost function Ended(run: RunState, goal: Goal, cause: Text, now1: Time, now2: Time): Result<RunState, RunError> {
    match goal
    case Cancel => CancelRun(run, cause, now1, now2)
    case Complete =>
      var done := TransitionRun(run, RunSucceeded, now1);
      if done.Ok? then done else FailRun(run, cause, now1, now2)
    case _ => FailRun(run, cause, now1, now2)
  }

  ghost function FinishStep(s: Sys, cause: Text, now1: Time, now2: Time, io: bool): Sys
    requires s.mode.Draining?
  {
    var idle := s.(mode := Idle, pool := EMPTY_POOL);
    if s.mode.goal.GiveUp? || s.mode.goal.Malformed? then idle
    else idle.(stored := SaveOrKeep(s.stored, Ended(s.run, s.mode.goal, cause, now1, now2), io))
  }

  // ------------------------------------------------------------------
  // Worker steps

  ghost function WorkerStep(s: Sys, e: Event, k: WorkerKey): Sys
    requires k in s.pool.workers
  {
    var phase := s.pool.workers[k];
    match e
    case Receive(_, id) =>
      if phase.Receiving? && Deliverable(s.channel, id) then
        s.(channel := Taken(s.channel, id),
           pool := s.pool.(workers := s.pool.workers[k := Holding(Ticket(id, Count(s.channel, id) + 1))]))
      else s
    case SendClaim(_) =>
      if phase.Holding? then
        s.(pool := s.pool.(workers := s.pool.workers[k := Claiming(phase.d)],
                           claims := s.pool.claims + multiset{Claim(k, phase.d)}))
      else s
    case FinishTask(_, output, error) =>
      if phase.Working? then
        s.(pool := s.pool.(workers := s.pool.workers[k := Receiving],
                           results := s.pool.results + multiset{TaskResult(k, phase.job, output, error, phase.d)}))
      else s
    case _ =>
      s.(channel := if phase.Receiving? then s.channel else Nacked(s.channel, phase.d),
         pool := s.pool.(workers := s.pool.workers - {k}))
  }

  // ------------------------------------------------------------------
  // The machine

  /** One step. Worker steps run in every mode but Idle. */
  ghost function Step(s: Sys, e: Event): Sys {
    match e
    case Load(cause, now1, now2, io) => if s.mode.Idle? then s.(stored := LoadRun(s.stored, cause, now1, now2, io))
      else s
    case CancelIdle(cause, now1, now2, io) =>
      if s.mode.Idle? && !s.stored.status.Finished() && !AnyFailed(s.stored) && !AnyCanceled(s.stored)
      then s.(stored := SaveOrKeep(s.stored, CancelRun(s.stored, cause, now1, now2), io)) else s
    case Begin(namespace, clock, io) =>
      if s.mode.Idle? && ValidIdentifier(namespace) then BeginRun(s, namespace, clock, io) else s
    case LoopTop(canceled, now1, now2, io) =>
      if !s.mode.Top? then s else if canceled then s.(mode := Draining(Cancel)) else TopStep(s, now1, now2, io)
    case AckNext => if s.mode.Acking? && s.mode.todo != [] then AckStep(s) else s
    case PublishNext(ok) => if s.mode.Publishing? then PublishStep(s, ok) else s
    case TakeClaim(c, now, io) =>
      if s.mode.Selecting? && c in s.pool.claims && c.ticket.id in s.channel.bodies
      then ClaimStep(s.(pool := s.pool.(claims := s.pool.claims - multiset{c})), c, now, io) else s
    case TakeHeartbeat(slot, now, io, progressed) =>
      if s.mode.Selecting? && slot in s.pool.generations then HeartbeatStep(s, slot, now, io, progressed) else s
    case TakeLost(slot) =>
      if s.mode.Selecting? && slot in s.pool.generations then s.(pool := Respawn(s.pool, slot), mode := Top) else s
    case TakeBrokerError => if s.mode.Selecting? then s.(mode := Draining(GiveUp)) else s
    case TakeResult(r, canceled, now, clock, io) =>
      if s.mode.Selecting? && r in s.pool.results then
        var taken := s.(pool := s.pool.(results := s.pool.results - multiset{r}));
        if canceled then taken.(mode := Draining(Cancel)) else ResultStep(taken, r, now, clock, io)
      else s
    case TimerFires => if s.mode.Selecting? then s.(mode := Top) else s
    case ContextDone => if s.mode.Selecting? then s.(mode := Draining(Cancel)) else s
    case Finish(cause, now1, now2, io) =>
      if s.mode.Draining? && s.pool.workers == map[] then FinishStep(s, cause, now1, now2, io) else s
    case Crash => s.(mode := Idle, pool := EMPTY_POOL, channel := EMPTY_CHANNEL)
    case Receive(k, _) => if !s.mode.Idle? && k in s.pool.workers then WorkerStep(s, e, k) else s
    case SendClaim(k) => if !s.mode.Idle? && k in s.pool.workers then WorkerStep(s, e, k) else s
    case FinishTask(k, _, _) => if !s.mode.Idle? && k in s.pool.workers then WorkerStep(s, e, k) else s
    case Abort(k) => if !s.mode.Idle? && k in s.pool.workers then WorkerStep(s, e, k) else s
  }

  ghost function Steps(s: Sys, events: seq<Event>): Sys
    decreases |events|
  {
    if events == [] then s else Step(Steps(s, events[..|events| - 1]), events[|events| - 1])
  }

  /** A run as Execute creates it: version one is in the store and nothing has been published. */
  ghost predicate Created(s: Sys) {
    && s.mode.Idle? && s.pool == EMPTY_POOL && s.channel == EMPTY_CHANNEL && s.issued == []
    && 0 < s.config.heartbeatInterval < s.config.leaseDuration
    && s.stored.version == 1 && 0 < s.stored.createdAt
    && NewRun(s.stored.id, s.stored.definition, s.stored.createdAt) == Ok(s.stored.(version := 0))
  }
}
