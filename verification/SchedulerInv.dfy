/** What holds in every state the scheduler can reach, and why advancing the stored run keeps it. */
module SchedulerInv {
  import opened Ids
  import opened Definition
  import opened Graph
  import opened Run
  import opened RunProofs
  import opened Broker
  import opened Channel
  import opened Scheduler

  // ------------------------------------------------------------------
  // Where an attempt stands

  ghost predicate Known(id: Text, tasks: map<Text, TaskRun>, a: Text) {
    IsAttempt(id, a) && TaskOf(id, a) in tasks
  }

  /** Published at most one attempt ahead, and that only while the task is ready or was canceled in that state. */
  ghost predicate Bounded(id: Text, tasks: map<Text, TaskRun>, a: Text) {
    Known(id, tasks, a) &&
    var task := tasks[TaskOf(id, a)];
    var n := NumberOf(id, a);
    n <= task.attemptCount || (n == task.attemptCount + 1 && (task.status.Ready? || task.status.Canceled?))
  }

  /** Over: the run has moved beyond this attempt for good. */
  ghost predicate Past(id: Text, tasks: map<Text, TaskRun>, a: Text) {
    Known(id, tasks, a) &&
    var task := tasks[TaskOf(id, a)];
    NumberOf(id, a) < task.attemptCount || (NumberOf(id, a) == task.attemptCount && !task.status.Running?)
  }

  /** Under way. */
  ghost predicate Current(id: Text, tasks: map<Text, TaskRun>, a: Text) {
    Known(id, tasks, a) && tasks[TaskOf(id, a)].status.Running? && NumberOf(id, a) == tasks[TaskOf(id, a)].attemptCount
  }

  /** The attempt a ready task is waiting to have delivered. */
  ghost predicate Needed(id: Text, tasks: map<Text, TaskRun>, a: Text) {
    Known(id, tasks, a) && tasks[TaskOf(id, a)].status.Ready?
    && NumberOf(id, a) == tasks[TaskOf(id, a)].attemptCount + 1
  }

  /** Handed out before now. */
  ghost predicate Started(id: Text, tasks: map<Text, TaskRun>, a: Text) {
    Known(id, tasks, a) && NumberOf(id, a) <= tasks[TaskOf(id, a)].attemptCount
  }

  /** Nothing that is past comes back, and nothing becomes needed after it was published. */
  lemma AttemptAdvances(x: RunState, y: RunState, a: Text)
    requires Advances(x, y)
    ensures Bounded(x.id, x.tasks, a) ==> Bounded(y.id, y.tasks, a)
    ensures Past(x.id, x.tasks, a) ==> Past(y.id, y.tasks, a)
    ensures Started(x.id, x.tasks, a) ==> Started(y.id, y.tasks, a)
    ensures Bounded(x.id, x.tasks, a) && Needed(y.id, y.tasks, a) ==> Needed(x.id, x.tasks, a)
    ensures Started(x.id, x.tasks, a) && Current(y.id, y.tasks, a) ==>
              && Current(x.id, x.tasks, a)
              && x.tasks[TaskOf(x.id, a)].lease.Some? && y.tasks[TaskOf(x.id, a)].lease.Some?
              && y.tasks[TaskOf(x.id, a)].lease.value.workerId == x.tasks[TaskOf(x.id, a)].lease.value.workerId
  {
    if Known(x.id, x.tasks, a) {
      var t := TaskOf(x.id, a);
      assert Advance(MaxAttemptsOf(x.definition, t), x.tasks[t], y.tasks[t]);
    }
  }

  // ------------------------------------------------------------------
  // Messages

  ghost predicate BodyOk(id: Text, a: Text, body: Payload) {
    NumberOf(id, a) >= 1 && body == DispatchRead(id, TaskOf(id, a), TaskRunIdFor(id, TaskOf(id, a)), a)
  }

  ghost predicate MessagesOk(id: Text, tasks: map<Text, TaskRun>, bodies: map<Text, Payload>) {
    forall a :: a in bodies ==> Bounded(id, tasks, a) && BodyOk(id, a, bodies[a])
  }

  /** Acknowledged only once the stored run has moved past the attempt, or because it cannot be read. */
  ghost predicate AckedPast(id: Text, tasks: map<Text, TaskRun>, acked: set<Text>) {
    forall a :: a in acked ==> Past(id, tasks, a) || !Utf8(a)
  }

  // ------------------------------------------------------------------
  // Workers

  /** A handed-out job: if its attempt is still under way, this worker holds the lease. */
  ghost predicate JobOk(id: Text, tasks: map<Text, TaskRun>, namespace: Text, k: WorkerKey, job: Job) {
    && Started(id, tasks, job.attemptId) && TaskOf(id, job.attemptId) == job.taskId
    && job.taskRunId == TaskRunIdFor(id, job.taskId)
    && (Current(id, tasks, job.attemptId) ==>
          tasks[job.taskId].lease.Some? && tasks[job.taskId].lease.value.workerId == Name(namespace, id, k))
  }

  ghost predicate PhaseOk(id: Text, tasks: map<Text, TaskRun>, namespace: Text, bodies: map<Text, Payload>,
                          k: WorkerKey, phase: Phase) {
    match phase
    case Receiving => true
    case Holding(d) => d.id in bodies
    case Claiming(d) => d.id in bodies
    case Working(d, job) => d.id == job.attemptId && JobOk(id, tasks, namespace, k, job)
  }

  ghost predicate PhasesOk(id: Text, tasks: map<Text, TaskRun>, namespace: Text, bodies: map<Text, Payload>,
                           workers: map<WorkerKey, Phase>) {
    forall k :: k in workers ==> PhaseOk(id, tasks, namespace, bodies, k, workers[k])
  }

  predicate KeysOk(generations: map<nat, nat>, workers: map<WorkerKey, Phase>) {
    forall k :: k in workers ==> k.slot in generations && k.generation <= generations[k.slot]
  }

  predicate ClaimsOk(bodies: map<Text, Payload>, claims: multiset<Claim>) {
    forall c :: c in claims ==> c.ticket.id in bodies
  }

  ghost predicate ResultsOk(id: Text, tasks: map<Text, TaskRun>, namespace: Text, results: multiset<TaskResult>) {
    forall r :: r in results ==> r.ticket.id == r.job.attemptId && JobOk(id, tasks, namespace, r.worker, r.job)
  }

  predicate Holds(phase: Phase, d: Ticket) {
    phase == Holding(d) || phase == Claiming(d)
  }

  predicate Held(workers: map<WorkerKey, Phase>, d: Ticket) {
    exists k :: k in workers && Holds(workers[k], d)
  }

  /** A needed message that is in flight is in the hands of a worker that has yet to hear about it. */
  ghost predicate NoOrphan(id: Text, tasks: map<Text, TaskRun>, flight: map<Text, nat>,
                           workers: map<WorkerKey, Phase>) {
    forall a :: a in flight && Needed(id, tasks, a) ==> Held(workers, Ticket(a, flight[a]))
  }

  /** Attempts handed to workers so far: no two alike, all of them started. */
  ghost predicate IssuedOk(id: Text, tasks: map<Text, TaskRun>, issued: seq<Text>) {
    Distinct(issued) && forall i :: 0 <= i < |issued| ==> Started(id, tasks, issued[i])
  }

  ghost predicate ChannelInv(id: Text, tasks: map<Text, TaskRun>, channel: Channel) {
    ChannelOk(channel) && MessagesOk(id, tasks, channel.bodies) && AckedPast(id, tasks, channel.acked)
  }

  ghost predicate PoolInv(id: Text, tasks: map<Text, TaskRun>, namespace: Text, channel: Channel, pool: Pool) {
    && KeysOk(pool.generations, pool.workers)
    && PhasesOk(id, tasks, namespace, channel.bodies, pool.workers)
    && ClaimsOk(channel.bodies, pool.claims) && ResultsOk(id, tasks, namespace, pool.results)
    && NoOrphan(id, tasks, channel.flight, pool.workers)
  }

  ghost predicate World(run: RunState, namespace: Text, channel: Channel, pool: Pool, issued: seq<Text>) {
    && ChannelInv(run.id, run.tasks, channel) && PoolInv(run.id, run.tasks, namespace, channel, pool)
    && IssuedOk(run.id, run.tasks, issued)
  }

  lemma ChannelAdvances(x: RunState, y: RunState, channel: Channel)
    requires Advances(x, y) && ChannelInv(x.id, x.tasks, channel)
    ensures ChannelInv(y.id, y.tasks, channel)
  {
    forall a { AttemptAdvances(x, y, a); }
  }

  lemma JobAdvances(x: RunState, y: RunState, namespace: Text, k: WorkerKey, job: Job)
    requires Advances(x, y) && JobOk(x.id, x.tasks, namespace, k, job)
    ensures JobOk(y.id, y.tasks, namespace, k, job)
  {
    AttemptAdvances(x, y, job.attemptId);
  }

  lemma PhaseAdvances(x: RunState, y: RunState, namespace: Text, bodies: map<Text, Payload>, k: WorkerKey, phase: Phase)
    requires Advances(x, y) && PhaseOk(x.id, x.tasks, namespace, bodies, k, phase)
    ensures PhaseOk(y.id, y.tasks, namespace, bodies, k, phase)
  {
    if phase.Working? { JobAdvances(x, y, namespace, k, phase.job); }
  }

  lemma NoOrphanAdvances(x: RunState, y: RunState, channel: Channel, workers: map<WorkerKey, Phase>)
    requires Advances(x, y) && ChannelInv(x.id, x.tasks, channel) && NoOrphan(x.id, x.tasks, channel.flight, workers)
    ensures NoOrphan(y.id, y.tasks, channel.flight, workers)
  {
    forall a | a in channel.flight && Needed(y.id, y.tasks, a) ensures Held(workers, Ticket(a, channel.flight[a])) {
      AttemptAdvances(x, y, a);
      assert a in channel.bodies;
    }
  }

  lemma PoolAdvances(x: RunState, y: RunState, namespace: Text, channel: Channel, pool: Pool)
    requires Advances(x, y) && ChannelInv(x.id, x.tasks, channel) && PoolInv(x.id, x.tasks, namespace, channel, pool)
    ensures PoolInv(y.id, y.tasks, namespace, channel, pool)
  {
    forall k | k in pool.workers ensures PhaseOk(y.id, y.tasks, namespace, channel.bodies, k, pool.workers[k]) {
      PhaseAdvances(x, y, namespace, channel.bodies, k, pool.workers[k]);
    }
    forall r | r in pool.results ensures JobOk(y.id, y.tasks, namespace, r.worker, r.job) {
      JobAdvances(x, y, namespace, r.worker, r.job);
    }
    NoOrphanAdvances(x, y, channel, pool.workers);
  }

  lemma IssuedAdvances(x: RunState, y: RunState, issued: seq<Text>)
    requires Advances(x, y) && IssuedOk(x.id, x.tasks, issued)
    ensures IssuedOk(y.id, y.tasks, issued)
  {
    forall i | 0 <= i < |issued| ensures Started(y.id, y.tasks, issued[i]) {
      AttemptAdvances(x, y, issued[i]);
    }
  }

  /** Whatever the run does to itself, channel, workers and history stay consistent with it. */
  lemma WorldAdvances(x: RunState, y: RunState, namespace: Text, channel: Channel, pool: Pool, issued: seq<Text>)
    requires Advances(x, y) && World(x, namespace, channel, pool, issued)
    ensures World(y, namespace, channel, pool, issued)
  {
    ChannelAdvances(x, y, channel);
    PoolAdvances(x, y, namespace, channel, pool);
    IssuedAdvances(x, y, issued);
  }

  // ------------------------------------------------------------------
  // The scheduler's own state

  /** The caches say what the run says. */
  ghost predicate CacheOk(run: RunState, cache: Cache) {
    && cache.ready == ReadyIds(run) && cache.completed == SucceededTasks(run)
    && cache.inFlight == RunningAttempts(run)
    && NothingToUnlock(run) && !AnyCanceled(run)
  }

  predicate PendingOk(pending: map<Text, seq<Claim>>) {
    forall a :: a in pending ==> forall i :: 0 <= i < |pending[a]| ==> pending[a][i].ticket.id == a
  }

  ghost predicate TodoOk(id: Text, tasks: map<Text, TaskRun>, todo: seq<Settle>) {
    forall i :: 0 <= i < |todo| ==> Past(id, tasks, todo[i].ticket.id)
  }

  predicate Unfinished(run: RunState) {
    exists t :: t in run.tasks && !run.tasks[t].status.Succeeded?
  }

  predicate AllDone(run: RunState) {
    forall t :: t in run.tasks ==> run.tasks[t].status.Succeeded?
  }

  /** Every ready task outside a list has its next attempt published. */
  predicate PublishedBut(run: RunState, cache: Cache, ids: seq<Text>) {
    forall t :: t in cache.ready && t !in ids ==> t in run.tasks && NextAttemptId(run.tasks[t]) in cache.published
  }

  /** The loop is between two saves: memory and store agree, and so do the caches. */
  ghost predicate LoopOk(stored: RunState, run: RunState, cache: Cache, bodies: map<Text, Payload>) {
    && run == stored && run.status.RunRunning? && CacheOk(run, cache)
    && PendingOk(cache.pending) && cache.published <= bodies.Keys
    && ValidIdentifier(cache.namespace)
  }

  ghost predicate DrainOk(stored: RunState, run: RunState, goal: Goal) {
    && RunInv(run) && Advances(stored, run) && run.version == stored.version
    && run.status.RunRunning? && stored.status.RunRunning?
    && (goal.Fail? ==> Unfinished(run))
    && (goal.Cancel? ==> !AnyFailed(run))
    && (goal.Complete? ==> AllDone(run))
    && (goal.Malformed? ==> !AllReadable(run))
    && !goal.Stalled?
  }

  ghost predicate ModeOk(stored: RunState, run: RunState, cache: Cache, bodies: map<Text, Payload>, mode: Mode) {
    match mode
    case Idle => true
    case Draining(goal) => DrainOk(stored, run, goal)
    case Top => LoopOk(stored, run, cache, bodies) && !AnyFailed(run)
    case Acking(todo, after) =>
      && LoopOk(stored, run, cache, bodies) && todo != [] && TodoOk(run.id, run.tasks, todo)
      && (if after.ToFail? then Unfinished(run) else !AnyFailed(run))
    case Publishing(ids) =>
      && LoopOk(stored, run, cache, bodies) && !AnyFailed(run) && Unfinished(run)
      && (forall i :: 0 <= i < |ids| ==> ids[i] in cache.ready) && PublishedBut(run, cache, ids)
    case Selecting => LoopOk(stored, run, cache, bodies) && !AnyFailed(run) && Unfinished(run)
                      && PublishedBut(run, cache, [])
  }

  ghost predicate StoredOk(stored: RunState) {
    RunInv(stored) && UniqueLeases(stored)
  }

  ghost predicate Base(s: Sys) {
    && s.config.leaseDuration > 0 && ValidDefinition(s.stored.definition)
    && StoredOk(s.stored)
    && World(s.stored, s.cache.namespace, s.channel, s.pool, s.issued)
  }

  ghost predicate Inv(s: Sys) {
    && Base(s) && ModeOk(s.stored, s.run, s.cache, s.channel.bodies, s.mode)
    && (s.mode.Idle? ==> s.pool == EMPTY_POOL)
  }
}
