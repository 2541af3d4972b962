/** The scheduler loop as an object: its maps are fields changed in place, the run is the aggregate object,
and each handler is proved to make exactly the machine's step. */
module SchedulerLoop {
  import opened Ids
  import opened Definition
  import opened Run
  import opened Broker
  import opened Channel
  import opened Scheduler
  import C = SchedulerCaches
  import G = Graph
  import I = SchedulerInv
  import P = SchedulerProgress
  import Q = SchedulerSteps
  import R = WorkflowRun
  import S = Snapshot
  import W = SchedulerWorkers

  /** The publish pass: one machine step per ready task until the list is done or a publication fails. */
  ghost function PublishAll(s: Sys, ok: nat -> bool): Sys
    decreases if s.mode.Publishing? then |s.mode.ids| else 0
  {
    if s.mode.Publishing? && s.mode.ids != [] then PublishAll(PublishStep(s, ok(|s.mode.ids|)), ok) else s
  }

  /** The acknowledgements after a save: one machine step per delivery until the list is done or one was settled. */
  ghost function AckAll(s: Sys): Sys
    decreases if s.mode.Acking? then |s.mode.todo| else 0
  {
    if s.mode.Acking? && s.mode.todo != [] then AckAll(AckStep(s)) else s
  }

  /** The run in memory when it could not be stored: unfinished tasks are canceled, and the status is the target if that
      is a legal one. */
  function EndingRun(run: RunState, target: RunStatus, cause: Text, now1: Time, now2: Time): RunState {
    var canceled := Run.CancelUnfinished(run, cause, now1);
    var ended := TransitionRun(canceled, target, now2);
    if ended.Ok? then ended.value else canceled
  }

  ghost function LoadedRun(run: RunState, cause: Text, now1: Time, now2: Time): RunState {
    if run.status.Finished() then run
    else if AnyFailed(run) then EndingRun(run, RunFailed, cause, now1, now2)
    else if AnyCanceled(run) then EndingRun(run, RunCanceled, cause, now1, now2)
    else
      var started := TransitionRun(run, RunRunning, now1);
      if run.status.RunPending? && started.Ok? then started.value else run
  }

  function EndedRun(run: RunState, goal: Goal, cause: Text, now1: Time, now2: Time): RunState {
    if goal.GiveUp? || goal.Malformed? then run
    else if goal.Cancel? then EndingRun(run, RunCanceled, cause, now1, now2)
    else
      var ended := TransitionRun(run, RunSucceeded, now1);
      if goal.Complete? && ended.Ok? then ended.value else EndingRun(run, RunFailed, cause, now1, now2)
  }

  class Loop {
    const config: Config
    const namespace: Text
    const run: R.WorkflowRun
    var stored: RunState
    var channel: Channel
    var mode: Mode
    var ready: set<Text>
    var inFlight: set<Text>
    var completed: set<Text>
    var published: set<Text>
    var pending: map<Text, seq<Claim>>
    var pool: Pool
    var issued: seq<Text>

    function State(): Sys
      reads this, run
    {
      Sys(config, stored, run.State(), channel, mode, Cache(namespace, ready, inFlight, completed, published, pending),
          pool, issued)
    }

    constructor (s: Sys)
      ensures State() == s && fresh(run)
    {
      config, namespace := s.config, s.cache.namespace;
      run := new R.WorkflowRun(s.run);
      stored, channel, mode, pool, issued := s.stored, s.channel, s.mode, s.pool, s.issued;
      ready, inFlight, completed, published, pending :=
        s.cache.ready, s.cache.inFlight, s.cache.completed, s.cache.published, s.cache.pending;
    }

    /** Snapshot, hand to the store, and take over the version it assigns. */
    method SaveRun(io: bool) returns (ok: bool)
      modifies this`stored, run`version
      ensures var saved := Save(old(stored), old(run.State()), io);
              && (ok <==> saved.Some?)
              && State() == if ok then old(State()).(stored := saved.value, run := saved.value) else old(State())
    {
      hide S.Restore, S.SnapshotOf;
      if !io || run.version != stored.version {
        return false;
      }
      var snapshot := run.Snapshot();
      var restored := S.RestoreWorkflowRun(snapshot, run.definition);
      if restored.Err? {
        return false;
      }
      run.SetPersistedVersion(run.version + 1);
      stored := run.State();
      return true;
    }

    /** Put a fresh worker in the slot of a worker, if that worker is still the slot's current one. */
    method ReplaceWorker(workerId: Text)
      modifies this`pool
      ensures pool == Replace(old(pool), namespace, run.id, workerId)
    {
      var todo := pool.generations.Keys;
      while todo != {}
        invariant pool == old(pool) && todo <= pool.generations.Keys
        invariant forall slot: nat :: slot !in todo ==> !Runs(pool, namespace, run.id, workerId, slot)
        decreases todo
      {
        var slot :| slot in todo;
        todo := todo - {slot};
        if Name(namespace, run.id, WorkerKey(slot, pool.generations[slot])) == workerId {
          assert Runs(pool, namespace, run.id, workerId, slot);
          forall other: nat | Runs(pool, namespace, run.id, workerId, other) ensures other == slot {
            W.ReplacedSlotUnique(pool, namespace, run.id, workerId, slot, other);
          }
          pool := Respawn(pool, slot);
          return;
        }
      }
    }

    /** All tasks completed, or on to the publish pass. */
    method OpenGate()
      modifies this`mode
      ensures State() == Gate(old(State()))
    {
      if |completed| == |run.definition.tasks| {
        mode := Draining(Complete);
      } else {
        var ids := R.SortedKeys(ready);
        mode := Publishing(ids);
      }
    }

    method Continue(todo: seq<Settle>, after: After)
      modifies this`mode
      ensures State() == Resume(old(State()), todo, after)
    {
      if |todo| > 0 {
        mode := Acking(todo, after);
        return;
      }
      match after
      case ToGate => OpenGate();
      case ToTop => mode := Top;
      case ToFail => mode := Draining(Fail);
    }

    /** Acknowledge what a save has made superfluous, in order. */
    method AcknowledgeAll()
      modifies this`channel, this`pool, this`mode
      ensures State() == AckAll(old(State()))
    {
      while mode.Acking? && |mode.todo| > 0
        invariant AckAll(State()) == AckAll(old(State()))
        decreases if mode.Acking? then |mode.todo| else 0
      {
        var x, rest, after := mode.todo[0], mode.todo[1..], mode.after;
        ghost var before := State();
        if !Live(channel, x.ticket) {
          mode := Draining(GiveUp);
        } else {
          channel := Acked(channel, x.ticket);
          if x.claimant.Some? {
            pool := Respond(pool, x.claimant.value, x.ticket, Receiving);
          }
          Continue(rest, after);
        }
        assert State() == AckStep(before);
      }
    }

    /** Publish the next attempt of every ready task that was not published yet. */
    method PublishReadyTasks(ok: nat -> bool)
      modifies this`channel, this`published, this`mode
      ensures State() == PublishAll(old(State()), ok)
    {
      while mode.Publishing? && |mode.ids| > 0
        invariant PublishAll(State(), ok) == PublishAll(old(State()), ok)
        decreases if mode.Publishing? then |mode.ids| else 0
      {
        ghost var before := State();
        PublishOne(ok(|mode.ids|));
        assert State() == PublishStep(before, ok(|before.mode.ids|));
      }
    }

    method PublishOne(ok: bool)
      requires mode.Publishing? && |mode.ids| > 0
      modifies this`channel, this`published, this`mode
      ensures State() == PublishStep(old(State()), ok)
      ensures mode.Publishing? ==> |mode.ids| < |old(mode).ids|
    {
      var t, rest := mode.ids[0], mode.ids[1..];
      if t !in run.tasks {
        mode := Draining(GiveUp);
        return;
      }
      var task := run.tasks[t];
      var attemptId := NextAttemptId(task);
      if attemptId in published {
        mode := Publishing(rest);
        return;
      }
      var body := DispatchRead(run.id, t, task.taskRunId, attemptId);
      if !ok || Conflicts(channel, attemptId, body) {
        mode := Draining(GiveUp);
        return;
      }
      channel := Posted(channel, attemptId, body);
      published := published + {attemptId};
      mode := Publishing(rest);
    }

    /** The worker's claim: stale, malformed, the start of an attempt, a duplicate of a running one, or superfluous. */
    method TakeClaim(c: Claim, now: Time, io: bool)
      requires c.ticket.id in channel.bodies
      modifies this, run
      ensures State() == ClaimStep(old(State()).(pool := old(pool).(claims := old(pool).claims - multiset{c})), c, now,
                                   io)
    {
      hide ClaimStep, WellFormed, Respond, Nacked, Acked;
      pool := pool.(claims := pool.claims - multiset{c});
      ClaimRefused(State(), c, now, io);
      var d, body := c.ticket, channel.bodies[c.ticket.id];
      if !IsCurrent(pool, c.worker) {
        channel := Nacked(channel, d);
        pool := Respond(pool, c.worker, d, Receiving);
        mode := Top;
        return;
      }
      if !WellFormed(run.State(), d, body) {
        channel := Acked(channel, d);
        pool := Respond(pool, c.worker, d, Receiving);
        mode := Draining(Malformed);
        return;
      }
      AnswerClaim(c, body, now, io);
    }

    /** A well-formed claim of a current worker. */
    method AnswerClaim(c: Claim, body: Payload, now: Time, io: bool)
      requires c.ticket.id in channel.bodies && channel.bodies[c.ticket.id] == body
      requires IsCurrent(pool, c.worker) && WellFormed(run.State(), c.ticket, body)
      modifies this, run
      ensures State() == ClaimStep(old(State()), c, now, io)
    {
      hide StartStep, WellFormed, Dispatchable, Respond;
      Q.FormedTask(run.State(), c.ticket, body);
      var d, task := c.ticket, run.tasks[body.taskId];
      if Dispatchable(task, d) {
        StartClaimed(c.worker, d, body.taskId, now, io);
      } else if task.status.Running? && d.id == task.currentAttemptId {
        var claims := if d.id in pending then pending[d.id] else [];
        pending := pending[d.id := claims + [c]];
        mode := Top;
      } else if !Live(channel, d) {
        mode := Draining(GiveUp);
      } else {
        channel := Acked(channel, d);
        pool := Respond(pool, c.worker, d, Receiving);
        mode := Top;
      }
    }

    /** Lease the task, store the lease, and only then hand out the job. */
    method StartClaimed(k: WorkerKey, d: Ticket, t: Text, now: Time, io: bool)
      requires t in run.tasks
      modifies this, run
      ensures State() == StartStep(old(State()), k, d, t, now, io)
    {
      hide Save, StartAttempt, Respond, WorkerIdFor;
      var taskRunId := run.tasks[t].taskRunId;
      var started := run.StartTaskAttempt(t, Name(namespace, run.id, k), config.leaseDuration, now);
      if started.Err? {
        mode := Draining(Fail);
        return;
      }
      var ok := SaveRun(io);
      if !ok {
        mode := Draining(GiveUp);
        return;
      }
      ready := ready - {t};
      inFlight := inFlight + {d.id};
      issued := issued + [d.id];
      pool := Respond(pool, k, d, Working(d, Job(t, taskRunId, d.id)));
      mode := Top;
    }

    method TakeHeartbeat(slot: nat, now: Time, io: bool, progressed: bool)
      requires slot in pool.generations
      modifies this`stored, this`mode, run
      ensures State() == HeartbeatStep(old(State()), slot, now, io, progressed)
    {
      hide Save, RecordHeartbeat;
      var fault := run.RecordWorkerHeartbeat(Name(namespace, run.id, WorkerKey(slot, pool.generations[slot])),
                                             config.leaseDuration, now);
      if fault.Some? {
        mode := Draining(Fail);
        return;
      }
      var ok := SaveRun(io);
      mode := if ok && progressed then Top else Draining(GiveUp);
    }

    /** The reports of ended attempts: caches, worker replacement, and whether one of them was the last. */
    method ApplyRecoveries(recoveries: seq<Recovery>) returns (fatal: bool)
      modifies this`pool, this`inFlight, this`ready
      ensures pool == ReplaceAll(old(pool), namespace, run.id, recoveries)
      ensures inFlight == old(inFlight) - AttemptsOf(recoveries)
      ensures ready == old(ready) + AgainReady(run.State(), recoveries)
      ensures fatal <==> Fatal(recoveries)
    {
      hide AttemptsOf, AgainReady, Fatal, Replace;
      EmptyReport(run.State());
      fatal := false;
      for n := 0 to |recoveries|
        invariant ReplaceAll(pool, namespace, run.id, recoveries[n..])
                    == ReplaceAll(old(pool), namespace, run.id, recoveries)
        invariant inFlight == old(inFlight) - AttemptsOf(recoveries[..n])
        invariant ready == old(ready) + AgainReady(run.State(), recoveries[..n])
        invariant fatal <==> Fatal(recoveries[..n])
      {
        var r := recoveries[n];
        Unroll(run.State(), recoveries, n);
        OneReport(run.State(), r);
        inFlight := inFlight - {r.attemptId};
        NoEmptyName(pool, namespace, run.id);
        if |r.workerId| > 0 {
          ReplaceWorker(r.workerId);
        }
        if r.outcome.RetryScheduled? {
          if r.taskId in run.tasks && run.tasks[r.taskId].status.Ready? {
            ready := ready + {r.taskId};
          }
        } else {
          fatal := true;
        }
      }
      assert recoveries[..|recoveries|] == recoveries;
    }

    /** Take the parked claims of the ended attempts out of the table. */
    method CollectPending(recoveries: seq<Recovery>) returns (todo: seq<Settle>)
      modifies this`pending
      ensures todo == PendingForAll(old(pending), recoveries) && pending == old(pending) - AttemptsOf(recoveries)
    {
      hide PendingFor, Fatal, AgainReady;
      todo := [];
      assert pending - AttemptsOf([]) == pending;
      for n := 0 to |recoveries|
        invariant todo + PendingForAll(pending, recoveries[n..]) == PendingForAll(old(pending), recoveries)
        invariant pending == old(pending) - AttemptsOf(recoveries[..n])
      {
        var a := recoveries[n].attemptId;
        Unroll(run.State(), recoveries, n);
        todo := todo + PendingFor(pending, a);
        pending := pending - {a};
      }
      assert recoveries[..|recoveries|] == recoveries;
    }

    /** The top of the loop: end expired attempts, promote due retries, and go on from what changed. */
    method RefreshRun(now1: Time, now2: Time, io: bool)
      modifies this, run
      ensures State() == TopStep(old(State()), now1, now2, io)
    {
      hide ChangedTop, Recoveries, Redispatched, Gate, RecoverExpired, PromoteDue, DueTasks, AgainReady;
      ghost var before := run.State();
      var recoveries := run.RecoverExpiredLeases(now1);
      var promoted := run.PromoteDueRetries(now2);
      if |recoveries| == 0 && |promoted| == 0 {
        NothingRefreshed(before, now1, now2);
        OpenGate();
        return;
      }
      C.RefreshKeys(before, now1, now2);
      AgainIsRedispatched(before, now1, run.State());
      assert (set t | t in promoted) == Promoted(before, now1, now2);
      ApplyChange(recoveries, promoted, io);
    }

    method ApplyChange(recoveries: seq<Recovery>, promoted: seq<Text>, io: bool)
      modifies this, run`version
      ensures State() == ChangedTop(old(State()), recoveries, AgainReady(old(run.State()), recoveries),
                                    (set t | t in promoted), io)
    {
      hide Save, ReplaceAll, PendingForAll, AttemptsOf, Fatal, Resume, AgainReady;
      var fatal := ApplyRecoveries(recoveries);
      ready := ready + (set t | t in promoted);
      var todo := CollectPending(recoveries);
      var ok := SaveRun(io);
      if !ok {
        mode := Draining(Fail);
        return;
      }
      Continue(todo, if fatal then ToFail else ToGate);
    }

    /** A result: complete the attempt, unlock or reschedule, save, and acknowledge what is settled by it. */
    method TakeResult(r: TaskResult, canceled: bool, now: Time, clock: Clock, io: bool)
      requires G.ValidDefinition(run.definition) && completed + {r.job.taskId} <= TaskIds(run.definition)
      modifies this, run
      ensures var taken := old(State()).(pool := old(pool).(results := old(pool).results - multiset{r}));
              State() == if canceled then taken.(mode := Draining(Cancel)) else ResultStep(taken, r, now, clock, io)
    {
      hide ResultSaved, ApplyResult, ResultCache, PendingFor, G.ValidDefinition, TaskIds;
      pool := pool.(results := pool.results - multiset{r});
      if canceled {
        mode := Draining(Cancel);
        return;
      }
      var todo := [Settle(r.ticket, None)] + PendingFor(pending, r.job.attemptId);
      var outcome := CompleteAndUnlock(r, now, clock);
      if outcome.Err? {
        mode := Draining(Fail);
        return;
      }
      UpdateCaches(r.job, outcome.value.0, outcome.value.1);
      SaveResult(outcome.value.0, todo, io);
    }

    method SaveResult(outcome: Outcome, todo: seq<Settle>, io: bool)
      modifies this`stored, this`mode, run`version
      ensures State() == ResultSaved(old(State()), outcome, todo, io)
    {
      hide Save, Resume;
      if outcome.Ignored? {
        Continue(todo, ToTop);
        return;
      }
      var ok := SaveRun(io);
      if !ok {
        mode := Draining(GiveUp);
        return;
      }
      Continue(todo, if outcome.Exhausted? then ToFail else ToTop);
    }

    /** The sets the loop keeps, after a result. */
    method UpdateCaches(job: Job, outcome: Outcome, unlocked: set<Text>)
      modifies this`ready, this`inFlight, this`completed, this`pending
      ensures State().cache == ResultCache(old(State()).cache, job, Applied(run.State(), outcome, unlocked))
    {
      inFlight := inFlight - {job.attemptId};
      pending := pending - {job.attemptId};
      match outcome {
        case Completed =>
          completed := completed + {job.taskId};
          ready := ready + unlocked;
        case RetryScheduled =>
          if job.taskId in run.tasks && run.tasks[job.taskId].status.Ready? {
            ready := ready + {job.taskId};
          }
          assert old(ready) + {} == old(ready);
        case _ =>
      }
    }

    method CompleteAndUnlock(r: TaskResult, now: Time, clock: Clock)
      returns (outcome: Result<(Outcome, set<Text>), RunError>)
      requires G.ValidDefinition(run.definition) && completed + {r.job.taskId} <= TaskIds(run.definition)
      modifies run
      ensures var applied := ApplyResult(old(run.State()), Name(namespace, run.id, r.worker),
                                         completed + {r.job.taskId}, r, now, clock);
              if applied.Err? then outcome.Err? && run.State() == old(run.State())
              else outcome == Ok((applied.value.outcome, applied.value.unlocked)) && run.State() == applied.value.run
    {
      hide CompleteAttempt, Run.MarkNewReady, NewlyReady, G.ValidDefinition, TaskIds;
      var done := run.CompleteTaskAttempt(r.job.taskId, r.job.taskRunId, Name(namespace, run.id, r.worker),
                                          r.job.attemptId, r.output, r.error, now);
      if done.Err? {
        return Err(done.error);
      }
      if !done.value.Completed? {
        return Ok((done.value, {}));
      }
      var unlocked := run.MarkNewReady(completed + {r.job.taskId}, clock);
      return Ok((Completed, unlocked.value));
    }

    /** Entering the loop with a loaded run: derive the caches, unlock what is ready, save that, start the workers. */
    method Enter(clock: Clock, io: bool)
      requires Restored(stored) == Ok(run.State()) && Startable(run.State())
      requires G.ValidDefinition(run.definition) && SucceededTasks(run.State()) <= TaskIds(run.definition)
      modifies this, run
      ensures State() == BeginRun(old(State()), namespace, clock, io)
    {
      hide Launched, Restored, Run.MarkNewReady, NewlyReady, Startable, G.ValidDefinition, TaskIds, RunningAttempts,
           SucceededTasks, ReadyIds;
      completed := SucceededTasks(run.State());
      ready := ReadyIds(run.State());
      published, pending, pool := {}, map[], EMPTY_POOL;
      var unlocked := run.MarkNewReady(completed, clock);
      ready := ready + unlocked.value;
      inFlight := RunningAttempts(run.State());
      Launch(unlocked.value != {}, io);
    }

    method Launch(changed: bool, io: bool)
      modifies this`stored, this`mode, this`pool, run`version
      ensures State() == Launched(old(State()), changed, io)
    {
      hide Save;
      if changed {
        var ok := SaveRun(io);
        if !ok {
          mode := Draining(Fail);
          return;
        }
      }
      pool := FirstWorkers(config.workerCount);
      mode := Top;
    }

    /** A loaded run before the loop: complete an interrupted ending, or start a run that was only created. */
    method Load(cause: Text, now1: Time, now2: Time, io: bool)
      requires Restored(stored) == Ok(run.State())
      modifies this`stored, run
      ensures stored == LoadRun(old(stored), cause, now1, now2, io)
      ensures run.State() == if stored != old(stored) then stored else LoadedRun(old(run.State()), cause, now1, now2)
    {
      hide Save, Restored, Run.CancelUnfinished, TransitionRun, AnyFailed, AnyCanceled;
      if run.status.Finished() {
        return;
      }
      var fault: Option<RunError>;
      var ending := TerminalState(run.State());
      if ending.Some? {
        run.CancelUnfinished(cause, now1);
        fault := run.TransitionWorkflow(ending.value, now2);
      } else if run.status.RunPending? {
        fault := run.TransitionWorkflow(RunRunning, now1);
      } else {
        return;
      }
      if fault.None? {
        SaveCounts(stored, run.State(), io);
        var ok := SaveRun(io);
      }
    }

    /** Ending the run once the workers are gone. */
    method Finish(cause: Text, now1: Time, now2: Time, io: bool)
      requires mode.Draining?
      modifies this, run
      ensures State() == FinishStep(old(State()), cause, now1, now2, io).(
                run := if stored != old(stored) then stored
                  else EndedRun(old(run.State()), old(mode).goal, cause, now1, now2))
    {
      hide Save, Run.CancelUnfinished, TransitionRun;
      var goal := mode.goal;
      mode, pool := Idle, EMPTY_POOL;
      if goal.GiveUp? || goal.Malformed? {
        return;
      }
      var fault: Option<RunError>;
      if goal.Complete? {
        fault := run.TransitionWorkflow(RunSucceeded, now1);
      }
      if !goal.Complete? || fault.Some? {
        run.CancelUnfinished(cause, now1);
        fault := run.TransitionWorkflow(if goal.Cancel? then RunCanceled else RunFailed, now2);
      }
      if fault.None? {
        SaveCounts(stored, run.State(), io);
        var ok := SaveRun(io);
      }
    }
  }

  /** Recovered tasks that may be dispatched again, as the report names them. */
  ghost function AgainReady(run: RunState, recoveries: seq<Recovery>): set<Text> {
    set i | 0 <= i < |recoveries| && recoveries[i].outcome.RetryScheduled? && recoveries[i].taskId in run.tasks
            && run.tasks[recoveries[i].taskId].status.Ready? :: recoveries[i].taskId
  }

  /** Claims that are answered without looking at their task. */
  lemma ClaimRefused(s: Sys, c: Claim, now: Time, io: bool)
    requires c.ticket.id in s.channel.bodies
    ensures !IsCurrent(s.pool, c.worker) ==>
              ClaimStep(s, c, now, io) == s.(channel := Nacked(s.channel, c.ticket),
                                             pool := Respond(s.pool, c.worker, c.ticket, Receiving), mode := Top)
    ensures IsCurrent(s.pool, c.worker) && !WellFormed(s.run, c.ticket, s.channel.bodies[c.ticket.id]) ==>
              ClaimStep(s, c, now, io) == s.(channel := Acked(s.channel, c.ticket),
                                             pool := Respond(s.pool, c.worker, c.ticket, Receiving),
                                             mode := Draining(Malformed))
  {
    hide StartStep, WellFormed, Dispatchable, Respond, Nacked, Acked;
  }

  lemma SaveCounts(stored: RunState, run: RunState, io: bool)
    ensures Save(stored, run, io).Some? ==> Save(stored, run, io).value != stored
  {
    assert Save(stored, run, io).Some? ==> Save(stored, run, io).value.version != stored.version;
  }

  lemma EmptyReport(run: RunState)
    ensures AttemptsOf([]) == {} && AgainReady(run, []) == {} && !Fatal([])
  {
  }

  lemma OneReport(run: RunState, r: Recovery)
    ensures AgainReady(run, [r]) ==
            if r.outcome.RetryScheduled? && r.taskId in run.tasks && run.tasks[r.taskId].status.Ready? then {r.taskId}
              else {}
  {
    assert [r][0] == r;
  }

  lemma Unroll(run: RunState, recoveries: seq<Recovery>, n: nat)
    requires n < |recoveries|
    ensures recoveries[n..][1..] == recoveries[n + 1..] && recoveries[n..][0] == recoveries[n]
    ensures AttemptsOf(recoveries[..n + 1]) == AttemptsOf(recoveries[..n]) + {recoveries[n].attemptId}
    ensures AgainReady(run, recoveries[..n + 1]) == AgainReady(run, recoveries[..n]) + AgainReady(run, [recoveries[n]])
    ensures Fatal(recoveries[..n + 1]) <==> Fatal(recoveries[..n]) || !recoveries[n].outcome.RetryScheduled?
  {
    var front, all := recoveries[..n], recoveries[..n + 1];
    assert all == front + [recoveries[n]];
    assert forall i :: 0 <= i < n ==> all[i] == front[i];
  }

  lemma NoEmptyName(pool: Pool, namespace: Text, runId: Text)
    ensures Replace(pool, namespace, runId, []) == pool
  {
    forall slot: nat ensures !Runs(pool, namespace, runId, [], slot) {
      if slot in pool.generations { assert |Name(namespace, runId, WorkerKey(slot, pool.generations[slot]))| > 0; }
    }
  }

  lemma NothingRefreshed(run: RunState, now1: Time, now2: Time)
    requires Recoveries(run, now1) == [] && Promoted(run, now1, now2) == {}
    ensures Refreshed(run, now1, now2) == run
  {
    assert ExpiredTasks(run, NextTimestamp(run, now1)) == {} by {
      if t :| t in ExpiredTasks(run, NextTimestamp(run, now1)) { var i := C.Reported(run, now1, t); }
    }
    var ts := NextTimestamp(run, now1);
    forall t | t in run.tasks ensures !Expired(run.tasks[t], ts) { assert t !in ExpiredTasks(run, ts); }
    assert RecoverExpired(run, now1).tasks == run.tasks;
    assert RecoverExpired(run, now1) == run;
    forall t | t in run.tasks
      ensures !Due(run.tasks[t], NextTimestamp(run, now2)) { assert t !in Promoted(run, now1, now2); }
    assert PromoteDue(run, now2).tasks == run.tasks;
  }

  lemma AgainIsRedispatched(run: RunState, now1: Time, next: RunState)
    requires next.tasks.Keys == run.tasks.Keys
    ensures AgainReady(next, Recoveries(run, now1)) == Redispatched(run, now1, next)
  {
    var recoveries := Recoveries(run, now1);
    forall t ensures t in AgainReady(next, recoveries) <==> t in Redispatched(run, now1, next) {
      if t in AgainReady(next, recoveries) {
        var i :| 0 <= i < |recoveries| && recoveries[i].outcome.RetryScheduled? && recoveries[i].taskId in next.tasks
                 && next.tasks[recoveries[i].taskId].status.Ready? && recoveries[i].taskId == t;
        C.RecoveryReport(run, now1, i);
      }
      if t in Redispatched(run, now1, next) {
        var i := C.Reported(run, now1, t);
        assert recoveries[i].taskId == t;
      }
    }
  }

  /** The publish pass is a run of machine steps. */
  lemma {:induction false} PublishAllSteps(s: Sys, ok: nat -> bool) returns (events: seq<Event>)
    ensures Steps(s, events) == PublishAll(s, ok)
    decreases if s.mode.Publishing? then |s.mode.ids| else 0
  {
    events := [];
    if s.mode.Publishing? && s.mode.ids != [] {
      var e := PublishNext(ok(|s.mode.ids|));
      events := PublishAllSteps(Step(s, e), ok);
      P.StepsFront(s, e, events);
      events := [e] + events;
    }
  }

  /** The acknowledgements are a run of machine steps. */
  lemma {:induction false} AckAllSteps(s: Sys) returns (events: seq<Event>)
    ensures Steps(s, events) == AckAll(s)
    decreases if s.mode.Acking? then |s.mode.todo| else 0
  {
    events := [];
    if s.mode.Acking? && s.mode.todo != [] {
      events := AckAllSteps(Step(s, AckNext));
      P.StepsFront(s, AckNext, events);
      events := [AckNext] + events;
    }
  }

  /** How an interrupted run must end: failed if a task has failed, else canceled if one was canceled. */
  method TerminalState(run: RunState) returns (ending: Option<RunStatus>)
    ensures ending == if AnyFailed(run) then Some(RunFailed) else if AnyCanceled(run) then Some(RunCanceled) else None
  {
    hide FailedAmong, CanceledAmong, AnyFailed, AnyCanceled;
    var ids := R.SortedKeys(run.tasks.Keys);
    var canceled := false;
    AmongNone(run, ids);
    for n := 0 to |ids|
      invariant !FailedAmong(run, ids[..n])
      invariant canceled == CanceledAmong(run, ids[..n])
    {
      TaskAmong(run, ids, n);
      var task := run.tasks[ids[n]];
      if task.status.Failed? {
        AmongAll(run, ids, n + 1);
        return Some(RunFailed);
      }
      if task.status.Canceled? {
        canceled := true;
      }
    }
    AmongAll(run, ids, |ids|);
    return if canceled then Some(RunCanceled) else None;
  }

  ghost predicate FailedAmong(run: RunState, ids: seq<Text>) {
    exists t :: t in ids && t in run.tasks && run.tasks[t].status.Failed?
  }

  ghost predicate CanceledAmong(run: RunState, ids: seq<Text>) {
    exists t :: t in ids && t in run.tasks && run.tasks[t].status.Canceled?
  }

  lemma AmongNone(run: RunState, ids: seq<Text>)
    ensures !FailedAmong(run, ids[..0]) && !CanceledAmong(run, ids[..0])
  {
  }

  lemma TaskAmong(run: RunState, ids: seq<Text>, n: nat)
    requires n < |ids| && ids == SortedSeq(run.tasks.Keys)
    ensures ids[n] in run.tasks
    ensures FailedAmong(run, ids[..n + 1]) <==> FailedAmong(run, ids[..n]) || run.tasks[ids[n]].status.Failed?
    ensures CanceledAmong(run, ids[..n + 1]) <==> CanceledAmong(run, ids[..n]) || run.tasks[ids[n]].status.Canceled?
  {
    hide SortedSeq;
    assert ids[n] in ids;
    PrefixGrows(ids, n);
  }

  lemma PrefixGrows(ids: seq<Text>, n: nat)
    requires n < |ids|
    ensures forall t :: t in ids[..n + 1] <==> t in ids[..n] || t == ids[n]
  {
    assert ids[..n + 1] == ids[..n] + [ids[n]];
  }

  lemma AmongAll(run: RunState, ids: seq<Text>, n: nat)
    requires n <= |ids| && ids == SortedSeq(run.tasks.Keys)
    ensures FailedAmong(run, ids[..n]) ==> AnyFailed(run)
    ensures n == |ids| ==> (AnyFailed(run) <==> FailedAmong(run, ids[..n]))
                           && (AnyCanceled(run) <==> CanceledAmong(run, ids[..n]))
  {
    if n == |ids| {
      assert ids[..n] == ids;
      forall t | t in run.tasks ensures t in ids { assert t in run.tasks.Keys; }
    }
  }

  /** At every select point the handlers may be called on whatever the channels hold: a claim is for a message that was
      published, and a result completes a known task of a valid definition, so unlocking its dependents cannot fail. */
  lemma HandlersApply(s: Sys)
    requires I.Inv(s) && s.mode.Selecting?
    ensures forall c :: c in s.pool.claims ==> c.ticket.id in s.channel.bodies
    ensures G.ValidDefinition(s.run.definition)
    ensures forall r :: r in s.pool.results ==> s.cache.completed + {r.job.taskId} <= TaskIds(s.run.definition)
  {
    hide G.ValidDefinition, I.MessagesOk, I.PhasesOk, TasksOk;
    assert s.stored.tasks.Keys == TaskIds(s.stored.definition);
  }
}
