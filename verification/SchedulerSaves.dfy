/** Every snapshot the engine tries to store, and when the store takes it. */
module SchedulerSaves {
  import opened Ids
  import opened Definition
  import opened Graph
  import opened Run
  import opened RunProofs
  import opened SnapshotProofs
  import opened Channel
  import opened Scheduler
  import opened SchedulerInv
  import opened SchedulerCaches
  import opened SchedulerSteps
  import opened SchedulerTheorems
  import S = Snapshot

  ghost function Value<T>(r: Result<T, RunError>): Option<T> {
    if r.Ok? then Some(r.value) else None
  }

  ghost function LoadCandidate(stored: RunState, cause: Text, now1: Time, now2: Time): Option<RunState> {
    match Restored(stored)
    case Err(_) => None
    case Ok(run) =>
      if run.status.Finished() then None
      else if AnyFailed(run) then Value(FailRun(run, cause, now1, now2))
      else if AnyCanceled(run) then Value(CancelRun(run, cause, now1, now2))
      else if run.status.RunPending? then Value(TransitionRun(run, RunRunning, now1))
      else None
  }

  ghost predicate Starts(s: Sys, c: Claim) {
    && c in s.pool.claims && c.ticket.id in s.channel.bodies && IsCurrent(s.pool, c.worker)
    && WellFormed(s.run, c.ticket, s.channel.bodies[c.ticket.id])
    && Dispatchable(s.run.tasks[s.channel.bodies[c.ticket.id].taskId], c.ticket)
  }

  ghost predicate Counts(s: Sys, r: TaskResult, now: Time, clock: Clock) {
    var a := ApplyResult(s.run, Name(s.cache.namespace, s.run.id, r.worker), s.cache.completed + {r.job.taskId}, r, now,
                         clock);
    r in s.pool.results && a.Ok? && !a.value.outcome.Ignored?
  }

  /** The run an event hands to the store, if it hands one over. */
  ghost function Candidate(s: Sys, e: Event): Option<RunState> {
    match e
    case Load(cause, now1, now2, _) => if s.mode.Idle? then LoadCandidate(s.stored, cause, now1, now2) else None
    case CancelIdle(cause, now1, now2, _) =>
      if s.mode.Idle? && !s.stored.status.Finished() && !AnyFailed(s.stored) && !AnyCanceled(s.stored)
      then Value(CancelRun(s.stored, cause, now1, now2)) else None
    case Begin(namespace, clock, _) =>
      if s.mode.Idle? && ValidIdentifier(namespace) && Restored(s.stored).Ok? && Startable(Restored(s.stored).value)
         && NewlyReady(Restored(s.stored).value, SucceededTasks(Restored(s.stored).value)) != {}
      then Some(MarkNewReady(Restored(s.stored).value, SucceededTasks(Restored(s.stored).value), clock)) else None
    case LoopTop(canceled, now1, now2, _) =>
      if s.mode.Top? && !canceled && (Recoveries(s.run, now1) != [] || Promoted(s.run, now1, now2) != {})
      then Some(Refreshed(s.run, now1, now2)) else None
    case TakeClaim(c, now, _) =>
      if s.mode.Selecting? && Starts(s, c)
      then Value(StartAttempt(s.run, s.channel.bodies[c.ticket.id].taskId, Name(s.cache.namespace, s.run.id, c.worker),
                              s.config.leaseDuration, now))
      else None
    case TakeHeartbeat(slot, now, _, _) =>
      if s.mode.Selecting? && slot in s.pool.generations
      then Value(RecordHeartbeat(s.run, Name(s.cache.namespace, s.run.id, WorkerKey(slot, s.pool.generations[slot])),
                                 s.config.leaseDuration, now))
      else None
    case TakeResult(r, canceled, now, clock, _) =>
      if s.mode.Selecting? && !canceled && Counts(s, r, now, clock)
      then Some(ApplyResult(s.run, Name(s.cache.namespace, s.run.id, r.worker), s.cache.completed + {r.job.taskId}, r,
                            now, clock).value.run)
      else None
    case Finish(cause, now1, now2, _) =>
      if s.mode.Draining? && s.pool.workers == map[] && !s.mode.goal.GiveUp? && !s.mode.goal.Malformed?
      then Value(Ended(s.run, s.mode.goal, cause, now1, now2)) else None
    case _ => None
  }

  predicate Works(e: Event) {
    match e
    case Load(_, _, _, io) => io
    case CancelIdle(_, _, _, io) => io
    case Begin(_, _, io) => io
    case LoopTop(_, _, _, io) => io
    case TakeClaim(_, _, io) => io
    case TakeHeartbeat(_, _, io, _) => io
    case TakeResult(_, _, _, _, io) => io
    case Finish(_, _, _, io) => io
    case _ => false
  }

  /** The store changes by taking the candidate or not at all. */
  lemma StoreChanges(s: Sys, e: Event)
    ensures var taken := if Candidate(s, e).Some? then Save(s.stored, Candidate(s, e).value, Works(e)) else None;
            Step(s, e).stored == if taken.Some? then taken.value else s.stored
  {
    hide Save, MarkNewReady, NewlyReady, FailRun, CancelRun, TransitionRun, Restored, Refreshed, Recoveries, Promoted,
         ReplaceAll, StartAttempt, RecordHeartbeat, ApplyResult, Ended, WellFormed, Dispatchable, Respond, Gate,
         PendingForAll, ResultTodo, ResultCache, AnyFailed, AnyCanceled, Startable, FirstWorkers, ValidIdentifier,
         WorkerIdFor, Redispatched, AttemptsOf, Fatal;
    forall x: Sys ensures Gate(x).stored == x.stored { GateStored(x); }
  }

  lemma GateStored(x: Sys)
    ensures Gate(x).stored == x.stored
  {
  }

  // ------------------------------------------------------------------
  // Candidates are consistent

  /** A finished run holds no lease at all. */
  lemma FinishedLeases(run: RunState)
    requires RunInv(run) && run.status.Finished()
    ensures UniqueLeases(run)
  {
    InvHeader(run);
    FinishedTasks(run);
    hide RunInv, TasksOk, HeaderOk;
    forall t | t in run.tasks ensures run.tasks[t].lease.None? { TerminalLease(run, t); }
  }

  lemma FinishedTasks(run: RunState)
    requires RunInv(run) && run.status.Finished()
    ensures forall t :: t in run.tasks ==> run.tasks[t].status.Terminal()
  {
    hide HeaderOk, TasksOk, DependenciesOk, WorkersOk;
  }

  lemma TerminalLease(run: RunState, t: Text)
    requires TasksOk(run) && t in run.tasks && run.tasks[t].status.Terminal()
    ensures run.tasks[t].lease.None?
  {
    assert TaskOk(run.id, run.createdAt, MaxAttemptsOf(run.definition, t), t, run.tasks[t]);
  }

  ghost predicate Sound(s: Sys, run: RunState) {
    RunInv(run) && run.definition == s.stored.definition && UniqueLeases(run)
  }

  lemma AdvancesDefinition(a: RunState, b: RunState)
    requires Advances(a, b)
    ensures b.definition == a.definition && b.id == a.id
  {
  }

  lemma EndStatus(run: RunState, cause: Text, now1: Time, now2: Time)
    ensures FailRun(run, cause, now1, now2).Ok? ==> FailRun(run, cause, now1, now2).value.status.RunFailed?
    ensures CancelRun(run, cause, now1, now2).Ok? ==> CancelRun(run, cause, now1, now2).value.status.RunCanceled?
    ensures TransitionRun(run, RunRunning, now1).Ok? ==> TransitionRun(run, RunRunning, now1).value.tasks == run.tasks
  {
  }

  lemma LoadSound(s: Sys, cause: Text, now1: Time, now2: Time)
    requires Inv(s) && s.mode.Idle? && LoadCandidate(s.stored, cause, now1, now2).Some?
    ensures Sound(s, LoadCandidate(s.stored, cause, now1, now2).value)
  {
    hide World, ModeOk, RunInv, ValidDefinition, Advances, S.Restore, S.SnapshotOf, FailRun, CancelRun, TransitionRun,
         Unfinished;
    var stored := s.stored;
    RestoreRoundTrip(stored);
    EndStatus(stored, cause, now1, now2);
    var run := LoadCandidate(stored, cause, now1, now2).value;
    if AnyFailed(stored) {
      FailedIsRunning(stored);
      assert Unfinished(stored);
      UnfinishedExists(stored);
      FailRunInv(stored, cause, now1, now2);
      FinishedLeases(run);
    } else if AnyCanceled(stored) {
      CancelRunInv(stored, cause, now1, now2);
      FinishedLeases(run);
    } else {
      StartRunInv(stored, now1);
    }
    AdvancesDefinition(stored, run);
  }

  lemma UnfinishedExists(run: RunState)
    requires Unfinished(run)
    ensures exists t :: t in run.tasks && !run.tasks[t].status.Succeeded?
  {
  }

  lemma CancelSound(s: Sys, cause: Text, now1: Time, now2: Time)
    requires Inv(s) && !s.stored.status.Finished() && !AnyFailed(s.stored)
    ensures CancelRun(s.stored, cause, now1, now2).Ok? && Sound(s, CancelRun(s.stored, cause, now1, now2).value)
  {
    hide World, ModeOk, RunInv, ValidDefinition, Advances, UniqueLeases, CancelRun;
    CancelRunInv(s.stored, cause, now1, now2);
    EndStatus(s.stored, cause, now1, now2);
    FinishedLeases(CancelRun(s.stored, cause, now1, now2).value);
    AdvancesDefinition(s.stored, CancelRun(s.stored, cause, now1, now2).value);
  }

  lemma BeginSound(s: Sys, clock: Clock)
    requires Inv(s) && Startable(s.stored)
    ensures Sound(s, MarkNewReady(s.stored, SucceededTasks(s.stored), clock))
  {
    hide World, ModeOk, RunInv, ValidDefinition, Advances, UniqueLeases, MarkNewReady, NewlyReady, CacheOk, AnyFailed,
         AnyCanceled, Unfinished;
    BeginCache(s.stored, [], clock);
    MarkedStatuses(s.stored, clock);
  }

  lemma TopSound(s: Sys, now1: Time, now2: Time)
    requires Inv(s) && s.mode.Top?
    ensures Sound(s, Refreshed(s.run, now1, now2))
  {
    hide World, RunInv, HeaderOk, TasksOk, ValidDefinition, Advances, UniqueLeases, Refreshed, CacheOk, PendingOk,
         ValidIdentifier;
    InvHeader(s.run);
    RefreshCache(s.run, now1, now2, s.cache);
    RefreshLeases(s.run, now1, now2);
    RefreshDefinition(s.run, now1, now2);
  }

  lemma HeartbeatSound(s: Sys, slot: nat, now: Time)
    requires Inv(s) && s.mode.Selecting? && slot in s.pool.generations
    ensures var name := Name(s.cache.namespace, s.run.id, WorkerKey(slot, s.pool.generations[slot]));
            var r := RecordHeartbeat(s.run, name, s.config.leaseDuration, now);
            r.Ok? && Sound(s, r.value)
  {
    hide World, RunInv, HeaderOk, TasksOk, ValidDefinition, Advances, UniqueLeases, RecordHeartbeat, CacheOk, PendingOk,
         ValidIdentifier, WorkerIdFor;
    var k := WorkerKey(slot, s.pool.generations[slot]);
    InvHeader(s.run);
    NameValid(s.run, s.cache.namespace, k);
    HeartbeatKeeps(s.run, Name(s.cache.namespace, s.run.id, k), s.config.leaseDuration, now, s.cache);
    HeartbeatInv(s.run, Name(s.cache.namespace, s.run.id, k), s.config.leaseDuration, now);
  }

  lemma AppliedLeases(run: RunState, name: Text, r: TaskResult, completed: set<Text>, now: Time, clock: Clock)
    requires r.job.taskId in run.tasks && UniqueLeases(run)
    requires var a := ApplyResult(run, name, completed, r, now, clock);
             a.Ok? && (a.value.outcome.Completed? ==> completed == SucceededTasks(
               CompleteAttempt(run, r.job.taskId, r.job.taskRunId, name, r.job.attemptId, r.output, r.error,
                               now).value.0))
    ensures UniqueLeases(ApplyResult(run, name, completed, r, now, clock).value.run)
  {
    hide UniqueLeases, CompleteAttempt, MarkNewReady, NewlyReady, AnyFailed, AnyCanceled, Unfinished, MayComplete;
    CompleteEffect(run, r.job, name, r.output, r.error, now);
    var c := CompleteAttempt(run, r.job.taskId, r.job.taskRunId, name, r.job.attemptId, r.output, r.error, now).value;
    if !c.1.Ignored? {
      KeptLeases(run, r.job.taskId, c.0);
      MarkedStatuses(c.0, clock);
    }
  }

  lemma CompletedSucceeds(run: RunState, name: Text, r: TaskResult, now: Time)
    requires r.job.taskId in run.tasks
    ensures var c := CompleteAttempt(run, r.job.taskId, r.job.taskRunId, name, r.job.attemptId, r.output, r.error, now);
            c.Ok? && (c.value.1.Completed? ==> SucceededTasks(c.value.0) == SucceededTasks(run) + {r.job.taskId})
  {
    CompleteEffect(run, r.job, name, r.output, r.error, now);
    var c := CompleteAttempt(run, r.job.taskId, r.job.taskRunId, name, r.job.attemptId, r.output, r.error, now).value;
    if c.1.Completed? { EndSets(run, r.job.taskId, c.0); }
  }

  lemma ResultSound(s: Sys, r: TaskResult, now: Time, clock: Clock)
    requires Inv(s) && s.mode.Selecting? && Counts(s, r, now, clock)
    ensures Sound(s, ApplyResult(s.run, Name(s.cache.namespace, s.run.id, r.worker), s.cache.completed + {r.job.taskId},
                                 r, now, clock).value.run)
  {
    hide World, RunInv, HeaderOk, TasksOk, ValidDefinition, Advances, UniqueLeases, NothingToUnlock, PendingOk,
         ValidIdentifier, WorkerIdFor, JobOk, MayComplete, CompleteAttempt, MarkNewReady, NewlyReady, AnyFailed,
         AnyCanceled, Unfinished, Past;
    var name := Name(s.cache.namespace, s.run.id, r.worker);
    ResultTaken(s.stored, s.cache.namespace, s.channel, s.pool, s.issued, r);
    JobKnown(s.run, s.cache.namespace, r);
    AppliedFollows(s.run, s.cache.namespace, r, s.cache, now, clock);
    CompletedSucceeds(s.run, name, r, now);
    AppliedLeases(s.run, name, r, s.cache.completed + {r.job.taskId}, now, clock);
  }

  lemma FinishSound(s: Sys, cause: Text, now1: Time, now2: Time)
    requires Inv(s) && s.mode.Draining? && !s.mode.goal.GiveUp? && !s.mode.goal.Malformed?
    ensures Ended(s.run, s.mode.goal, cause, now1, now2).Ok?
            && Sound(s, Ended(s.run, s.mode.goal, cause, now1, now2).value)
  {
    hide World, RunInv, ValidDefinition, Advances, UniqueLeases, Ended, AnyFailed, Unfinished, AllDone;
    EndedOk(s.run, s.mode.goal, cause, now1, now2);
    var run := Ended(s.run, s.mode.goal, cause, now1, now2).value;
    FinishedLeases(run);
    AdvancesDefinition(s.stored, s.run);
    AdvancesDefinition(s.run, run);
  }

  lemma CandidateSound(s: Sys, e: Event)
    requires Inv(s) && Candidate(s, e).Some? && !e.TakeClaim?
    ensures Sound(s, Candidate(s, e).value)
  {
    hide Inv, Sound, LoadCandidate, MarkNewReady, NewlyReady, FailRun, CancelRun, TransitionRun, Restored, Refreshed,
         Recoveries, Promoted, RecordHeartbeat, ApplyResult, Ended, Startable, ValidIdentifier, WorkerIdFor, AnyFailed,
         AnyCanceled, Counts;
    match e
    case Load(cause, now1, now2, _) => LoadSound(s, cause, now1, now2);
    case CancelIdle(cause, now1, now2, _) => CancelSound(s, cause, now1, now2);
    case Begin(_, clock, _) =>
      RestoredIsStored(s);
      BeginSound(s, clock);
    case LoopTop(_, now1, now2, _) => TopSound(s, now1, now2);
    case TakeHeartbeat(slot, now, _, _) => HeartbeatSound(s, slot, now);
    case TakeResult(r, _, now, clock, _) => ResultSound(s, r, now, clock);
    case Finish(cause, now1, now2, _) => FinishSound(s, cause, now1, now2);
  }

  /** Loading gives back exactly what was stored. */
  lemma RestoredIsStored(s: Sys)
    requires Inv(s)
    ensures Restored(s.stored) == Ok(s.stored)
  {
    hide World, ModeOk, RunInv, UniqueLeases, ValidDefinition, S.Restore, S.SnapshotOf;
    RestoreRoundTrip(s.stored);
  }

  // ------------------------------------------------------------------
  // What the store takes

  /** Every snapshot the engine hands to the store validates, except possibly that of a claim, and
      comes back unchanged when it is restored. */
  lemma SavesValidate(s: Sys, events: seq<Event>, i: nat, e: Event)
    requires Created(s) && i <= |events|
    requires Candidate(At(s, events, i), e).Some? && !e.TakeClaim?
    ensures var run := Candidate(At(s, events, i), e).value;
            && Storable(run) && S.Restore(S.SnapshotOf(run), run.definition) == Ok(run)
  {
    hide RunInv, UniqueLeases, ValidDefinition, S.Restore, S.SnapshotOf, Candidate, Created, Step, World, ModeOk;
    AlwaysInv(s, events, i);
    CandidateSound(At(s, events, i), e);
    RestoreRoundTrip(Candidate(At(s, events, i), e).value);
  }

  lemma ClaimCandidate(s: Sys, c: Claim, now: Time, io: bool)
    requires Inv(s) && Candidate(s, TakeClaim(c, now, io)).Some?
    ensures var run := Candidate(s, TakeClaim(c, now, io)).value;
            && RunInv(run) && run.definition == s.stored.definition && run.version == s.stored.version
            && (UniqueLeases(run) <==> !HoldsLease(s.stored, Name(s.cache.namespace, s.run.id, c.worker)))
  {
    hide World, RunInv, TasksOk, HeaderOk, ValidDefinition, Advances, UniqueLeases, HoldsLease, StartAttempt, CacheOk,
         PendingOk, ValidIdentifier, WorkerIdFor, Dispatchable, AnyFailed, Unfinished;
    var t, name := s.channel.bodies[c.ticket.id].taskId, Name(s.cache.namespace, s.run.id, c.worker);
    InvHeader(s.run);
    StartAttemptInv(s.run, t, name, s.config.leaseDuration, now);
    StartKeepsUniqueLeases(s.run, t, name, s.config.leaseDuration, now);
    StartKeepsHeader(s.run, t, name, s.config.leaseDuration, now);
  }

  lemma StartKeepsHeader(run: RunState, t: Text, name: Text, leaseDuration: int, now: Time)
    requires StartAttempt(run, t, name, leaseDuration, now).Ok?
    ensures var next := StartAttempt(run, t, name, leaseDuration, now).value;
            next.definition == run.definition && next.version == run.version
  {
  }

  /** A claim is stored exactly when its worker holds no other lease; otherwise the loop gives up
      and the store is left as it was. */
  lemma ClaimStoredUnlessLeased(s: Sys, events: seq<Event>, i: nat, c: Claim, now: Time)
    requires Created(s) && i <= |events|
    requires Candidate(At(s, events, i), TakeClaim(c, now, true)).Some?
    ensures var x := At(s, events, i);
            var next := Step(x, TakeClaim(c, now, true));
            var holds := HoldsLease(x.stored, Name(x.cache.namespace, x.run.id, c.worker));
            && (holds ==> next.stored == x.stored && next.mode == Draining(GiveUp))
            && (!holds ==> next.mode == Top && next.stored.version == x.stored.version + 1
                           && next.issued == x.issued + [c.ticket.id])
  {
    var x := At(s, events, i);
    assert Inv(x) by { AlwaysInv(s, events, i); }
    ClaimOutcome(x, c, now);
  }

  lemma ClaimOutcome(x: Sys, c: Claim, now: Time)
    requires Inv(x) && Candidate(x, TakeClaim(c, now, true)).Some?
    ensures var next := Step(x, TakeClaim(c, now, true));
            var holds := HoldsLease(x.stored, Name(x.cache.namespace, x.run.id, c.worker));
            && (holds ==> next.stored == x.stored && next.mode == Draining(GiveUp))
            && (!holds ==> next.mode == Top && next.stored.version == x.stored.version + 1
                           && next.issued == x.issued + [c.ticket.id])
  {
    hide RunInv, UniqueLeases, ValidDefinition, S.SnapshotOf, S.Restore, World, ModeOk, StartAttempt, WellFormed,
         Dispatchable, HoldsLease, WorkerIdFor, Respond;
    ClaimCandidate(x, c, now, true);
    RestoreRoundTrip(Candidate(x, TakeClaim(c, now, true)).value);
  }

  // ------------------------------------------------------------------
  // A claim can abort the run

  // Two independent tasks, "a" and "b", of the workflow "w".
  const PAIR: WorkflowDefinition :=
    WorkflowDefinition([119], [TaskDefinition([97], [97], [], [97], [], NO_RETRY),
                               TaskDefinition([98], [98], [], [98], [], NO_RETRY)])

  lemma PairValid()
    ensures ValidDefinition(PAIR) && TaskIds(PAIR) == {[97], [98]}
    ensures EdgesOf(PAIR) == map[[97] := {}, [98] := {}]
  {
    hide ValidIdentifier, OnlySpaces;
    LetterValid(97);
    LetterValid(98);
    LetterValid(119);
    assert PAIR.tasks[0].id == [97] && PAIR.tasks[1].id == [98];
    assert TaskIds(PAIR) == {[97], [98]};
    assert StructurallyValid(PAIR);
    IndependentValid(PAIR);
  }

  lemma PairStarted() returns (run: RunState)
    ensures RunInv(run) && run.definition == PAIR && run.status.RunRunning? && run.tasks.Keys == {[97], [98]}
    ensures forall t :: t in run.tasks ==> run.tasks[t].status.Pending? && run.tasks[t].lease.None?
  {
    PairValid();
    LetterValid(114);
    hide ValidDefinition, ValidIdentifier, EdgesOf, RunInv, Advances;
    NewRunInv([114], PAIR, 1);
    var created := NewRun([114], PAIR, 1).value;
    StartRunInv(created, 1);
    run := TransitionRun(created, RunRunning, 1).value;
  }

  /** There are executions to speak of: any valid definition under any valid identifier on any engine. */
  lemma CreatedRun(id: Text, definition: WorkflowDefinition, config: Config) returns (s: Sys)
    requires ValidIdentifier(id) && ValidDefinition(definition)
    requires 0 < config.heartbeatInterval < config.leaseDuration
    ensures Created(s) && s.config == config && s.stored.id == id && s.stored.definition == definition
    ensures s.stored.tasks.Keys == TaskIds(definition)
  {
    hide ValidIdentifier, ValidDefinition;
    var run := NewRun(id, definition, 1).value.(version := 1);
    s := Sys(config, run, run, EMPTY_CHANNEL, Idle, Cache([], {}, {}, {}, {}, map[]), EMPTY_POOL, []);
  }

  /** A run of the pair whose two tasks are both ready. */
  lemma PairReady() returns (run: RunState)
    ensures RunInv(run) && run.definition == PAIR && run.status.RunRunning? && [97] in run.tasks && [98] in run.tasks
    ensures run.tasks[[97]].status.Ready? && run.tasks[[98]].status.Ready?
    ensures forall t :: t in run.tasks ==> run.tasks[t].lease.None?
  {
    PairValid();
    hide ValidDefinition, EdgesOf, RunInv, MarkNewReady, Advances, NewlyReady;
    var started := PairStarted();
    var clock: Clock := _ => 1;
    run := MarkNewReady(started, SucceededTasks(started), clock);
    MarkNewReadyInv(started, clock);
    MarkNewReadyEffect(started, clock);
    MarkedHeader(started, clock);
    RootsUnlocked(started, [97]);
    RootsUnlocked(started, [98]);
    var marked := NewlyReady(started, SucceededTasks(started));
    assert forall t :: t in started.tasks ==> Marked(started.updatedAt, started.tasks[t], run.tasks[t], t in marked);
  }

  lemma RootsUnlocked(run: RunState, t: Text)
    requires t in run.tasks && run.tasks[t].status.Pending? && t in EdgesOf(run.definition)
             && EdgesOf(run.definition)[t] == {}
    ensures t in NewlyReady(run, SucceededTasks(run))
  {
  }

  /** Leasing a second task to a worker succeeds in memory and yields a run the store refuses. */
  lemma SecondLease(run: RunState, t: Text, u: Text, workerId: Text, leaseDuration: int, now: Time)
    requires RunInv(run) && ValidDefinition(run.definition) && run.status.RunRunning? && UniqueLeases(run)
    requires t in run.tasks && u in run.tasks && t != u && run.tasks[t].status.Ready? && run.tasks[u].status.Ready?
    requires ValidIdentifier(workerId) && leaseDuration > 0 && !HoldsLease(run, workerId)
    ensures var first := StartAttempt(run, t, workerId, leaseDuration, now);
            && first.Ok? && Storable(first.value)
            && var second := StartAttempt(first.value, u, workerId, leaseDuration, now);
               second.Ok? && RunInv(second.value) && !Storable(second.value)
  {
    hide ValidDefinition, RunInv, UniqueLeases, S.Restore, S.SnapshotOf, ValidIdentifier, Advances, TasksOk, HeaderOk;
    var one := StartAttempt(run, t, workerId, leaseDuration, now).value;
    InvHeader(run);
    StartAttemptInv(run, t, workerId, leaseDuration, now);
    StartKeepsUniqueLeases(run, t, workerId, leaseDuration, now);
    RestoreRoundTrip(one);
    InvHeader(one);
    StartAttemptInv(one, u, workerId, leaseDuration, now);
    StartKeepsUniqueLeases(one, u, workerId, leaseDuration, now);
    assert one.tasks[t].lease.value.workerId == workerId;
    RestoreRoundTrip(StartAttempt(one, u, workerId, leaseDuration, now).value);
  }

  /** Such a run exists: the aggregate alone does not keep one lease per worker. */
  lemma SecondLeaseRejected() returns (run: RunState)
    ensures RunInv(run) && ValidDefinition(run.definition) && Storable(run)
    ensures var first := StartAttempt(run, [97], [119], 1, 1);
            && first.Ok? && Storable(first.value)
            && var second := StartAttempt(first.value, [98], [119], 1, 1);
               second.Ok? && RunInv(second.value) && !Storable(second.value)
  {
    run := PairReady();
    PairValid();
    LetterValid(119);
    hide ValidDefinition, RunInv, S.Restore, S.SnapshotOf, ValidIdentifier, StartAttempt;
    RestoreRoundTrip(run);
    SecondLease(run, [97], [98], [119], 1, 1);
  }
}
