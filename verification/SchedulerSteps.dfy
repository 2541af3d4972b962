/** Every step keeps the invariant and only advances the stored run. */
module SchedulerSteps {
  import opened Ids
  import opened Definition
  import opened Edges
  import opened Graph
  import opened Run
  import opened RunProofs
  import opened SnapshotProofs
  import opened Broker
  import opened Channel
  import opened Scheduler
  import S = Snapshot
  import opened SchedulerInv
  import opened SchedulerWorkers
  import opened SchedulerCaches

  /** A step from s to next is fine: the invariant holds again and the store moved forward. */
  ghost predicate Fine(s: Sys, next: Sys) {
    Inv(next) && Advances(s.stored, next.stored) && next.config == s.config && s.issued <= next.issued
  }

  lemma InvReflexive(run: RunState)
    requires RunInv(run)
    ensures Advances(run, run)
  {
    AdvancesReflexive(run);
  }

  lemma StutterFine(s: Sys)
    requires Inv(s)
    ensures Fine(s, s)
  {
    AdvancesReflexive(s.stored);
  }

  // ------------------------------------------------------------------
  // Saving

  lemma VersionFree(run: RunState, version: nat)
    requires RunInv(run)
    ensures RunInv(run.(version := version))
  {
  }

  /** A consistent run is stored unless storage fails, it was overtaken, or a worker holds two leases. */
  lemma SaveOk(stored: RunState, run: RunState, io: bool)
    requires RunInv(run) && ValidDefinition(run.definition) && Advances(stored, run) && run.version == stored.version
    ensures Save(stored, run, io).Some? <==> io && UniqueLeases(run)
    ensures Save(stored, run, io).Some? ==>
              var saved := Save(stored, run, io).value;
              saved == run.(version := run.version + 1) && StoredOk(saved) && Advances(stored, saved)
  {
    hide RunInv, ValidDefinition, S.Restore, S.SnapshotOf;
    RestoreRoundTrip(run);
    VersionFree(run, run.version + 1);
  }

  lemma SaveOrKeepOk(stored: RunState, r: Result<RunState, RunError>, io: bool)
    requires StoredOk(stored) && ValidDefinition(stored.definition)
    requires r.Ok? ==> RunInv(r.value) && Advances(stored, r.value) && r.value.version == stored.version
    ensures var kept := SaveOrKeep(stored, r, io);
            StoredOk(kept) && Advances(stored, kept) && kept.definition == stored.definition
  {
    AdvancesReflexive(stored);
    if r.Ok? { SaveOk(stored, r.value, io); }
  }

  // ------------------------------------------------------------------
  // Idle

  lemma IdleFine(s: Sys, stored: RunState)
    requires Inv(s) && s.mode.Idle?
    requires StoredOk(stored) && Advances(s.stored, stored) && stored.definition == s.stored.definition
    ensures Fine(s, s.(stored := stored))
  {
    WorldAdvances(s.stored, stored, s.cache.namespace, s.channel, s.pool, s.issued);
  }

  lemma LoadFine(s: Sys, cause: Text, now1: Time, now2: Time, io: bool)
    requires Inv(s) && s.mode.Idle?
    ensures Fine(s, s.(stored := LoadRun(s.stored, cause, now1, now2, io)))
  {
    hide World, ModeOk, Fine, RunInv, ValidDefinition, UniqueLeases, Advances, S.Restore, S.SnapshotOf,
         CancelUnfinished, TransitionRun;
    var stored := s.stored;
    RestoreRoundTrip(stored);
    InvReflexive(stored);
    if !stored.status.Finished() {
      if AnyFailed(stored) {
        FailedIsRunning(stored);
        FailRunInv(stored, cause, now1, now2);
        EndKeepsVersion(stored, cause, now1, now2);
        SaveOrKeepOk(stored, FailRun(stored, cause, now1, now2), io);
      } else if AnyCanceled(stored) {
        CancelRunInv(stored, cause, now1, now2);
        EndKeepsVersion(stored, cause, now1, now2);
        SaveOrKeepOk(stored, CancelRun(stored, cause, now1, now2), io);
      } else if stored.status.RunPending? {
        StartRunInv(stored, now1);
        EndKeepsVersion(stored, cause, now1, now2);
        SaveOrKeepOk(stored, TransitionRun(stored, RunRunning, now1), io);
      }
    }
    IdleFine(s, LoadRun(stored, cause, now1, now2, io));
  }

  lemma EndKeepsVersion(run: RunState, cause: Text, now1: Time, now2: Time)
    ensures FailRun(run, cause, now1, now2).Ok? ==> FailRun(run, cause, now1, now2).value.version == run.version
    ensures CancelRun(run, cause, now1, now2).Ok? ==> CancelRun(run, cause, now1, now2).value.version == run.version
    ensures forall target :: TransitionRun(run, target, now1).Ok? ==>
              TransitionRun(run, target, now1).value.version == run.version
  {
  }

  lemma FailedIsRunning(run: RunState)
    requires RunInv(run) && AnyFailed(run) && !run.status.Finished()
    ensures run.status.RunRunning? && Unfinished(run)
  {
  }

  lemma CancelIdleFine(s: Sys, cause: Text, now1: Time, now2: Time, io: bool)
    requires Inv(s) && s.mode.Idle? && !s.stored.status.Finished() && !AnyFailed(s.stored)
    ensures Fine(s, s.(stored := SaveOrKeep(s.stored, CancelRun(s.stored, cause, now1, now2), io)))
  {
    hide World, ModeOk, Fine;
    CancelRunInv(s.stored, cause, now1, now2);
    SaveOrKeepOk(s.stored, CancelRun(s.stored, cause, now1, now2), io);
    IdleFine(s, SaveOrKeep(s.stored, CancelRun(s.stored, cause, now1, now2), io));
  }

  // ------------------------------------------------------------------
  // Starting the loop

  lemma SameCacheVersion(run: RunState, version: nat, cache: Cache)
    requires CacheOk(run, cache)
    ensures CacheOk(run.(version := version), cache)
    ensures AnyFailed(run.(version := version)) <==> AnyFailed(run)
    ensures Unfinished(run.(version := version)) <==> Unfinished(run)
  {
    SameCache(run, run.(version := version), cache);
  }

  lemma {:induction false} NothingMarked(run: RunState, candidates: seq<Text>, clock: Clock)
    requires forall t :: t in candidates && t in run.tasks ==> !run.tasks[t].status.Pending?
    ensures MarkReady(run, candidates, clock) == run
    decreases |candidates|
  {
    if candidates != [] {
      assert candidates[0] in candidates;
      NothingMarked(run, candidates[1..], clock);
    }
  }

  lemma MarkedHeader(run: RunState, clock: Clock)
    ensures var next := MarkNewReady(run, SucceededTasks(run), clock);
            && next.version == run.version && next.status == run.status && next.definition == run.definition
               && next.id == run.id
            && (NewlyReady(run, SucceededTasks(run)) == {} ==> next == run)
  {
    MarkNewReadyEffect(run, clock);
    if NewlyReady(run, SucceededTasks(run)) == {} {
      var candidates := SortedSeq(Available(EdgesOf(run.definition), SucceededTasks(run)));
      forall t | t in candidates && t in run.tasks ensures !run.tasks[t].status.Pending? {
        assert t !in NewlyReady(run, SucceededTasks(run));
      }
      NothingMarked(run, candidates, clock);
    }
  }

  lemma MarkedSetStatuses(run: RunState, next: RunState, marked: set<Text>)
    requires MarkedSet(run, next.tasks, marked)
    ensures (AnyFailed(next) ==> AnyFailed(run)) && (AnyCanceled(next) ==> AnyCanceled(run))
    ensures marked != {} ==> Unfinished(next)
    ensures UniqueLeases(run) ==> UniqueLeases(next)
  {
    assert forall t :: t in run.tasks ==> Marked(run.updatedAt, run.tasks[t], next.tasks[t], t in marked);
    if marked != {} {
      var t :| t in marked;
      assert next.tasks[t].status.Ready?;
    }
    if UniqueLeases(run) { UniqueLeasesKept(run, next); }
  }

  lemma MarkedStatuses(run: RunState, clock: Clock)
    ensures var next := MarkNewReady(run, SucceededTasks(run), clock);
            && (AnyFailed(next) ==> AnyFailed(run)) && (AnyCanceled(next) ==> AnyCanceled(run))
            && (NewlyReady(run, SucceededTasks(run)) != {} ==> Unfinished(next))
            && (UniqueLeases(run) ==> UniqueLeases(next))
  {
    hide AnyFailed, AnyCanceled, UniqueLeases, Unfinished, MarkNewReady;
    MarkNewReadyEffect(run, clock);
    MarkedSetStatuses(run, MarkNewReady(run, SucceededTasks(run), clock), NewlyReady(run, SucceededTasks(run)));
  }

  /** A restarted loop finds its caches right and nothing left to unlock. */
  lemma BeginCache(run: RunState, namespace: Text, clock: Clock)
    requires RunInv(run) && Startable(run)
    ensures var completed := SucceededTasks(run);
            var next := MarkNewReady(run, completed, clock);
            && RunInv(next) && Advances(run, next) && next.version == run.version && next.status.RunRunning?
            && CacheOk(next, Cache(namespace, ReadyIds(run) + NewlyReady(run, completed), RunningAttempts(next),
                                   completed, {}, map[]))
            && !AnyFailed(next) && next.definition == run.definition
            && (NewlyReady(run, completed) == {} ==> next == run)
            && (NewlyReady(run, completed) != {} ==> Unfinished(next))
  {
    hide RunInv, Advances, MarkNewReady, NewlyReady, NothingToUnlock, AnyFailed, AnyCanceled, Unfinished, UniqueLeases;
    MarkNewReadyInv(run, clock);
    MarkNewReadyClosure(run, clock);
    MarkedHeader(run, clock);
    MarkedStatuses(run, clock);
  }

  lemma BeginFine(s: Sys, namespace: Text, clock: Clock, io: bool)
    requires Inv(s) && s.mode.Idle? && ValidIdentifier(namespace)
    ensures Fine(s, BeginRun(s, namespace, clock, io))
  {
    hide World, RunInv, Advances, ValidDefinition, UniqueLeases, S.Restore, S.SnapshotOf, CacheOk, NewlyReady,
         MarkNewReady, AnyFailed, AnyCanceled, Unfinished, ValidIdentifier, WorkerIdFor;
    var stored := s.stored;
    RestoreRoundTrip(stored);
    InvReflexive(stored);
    EmptyPoolWorld(stored, s.cache.namespace, namespace, s.channel, s.pool, s.issued);
    if Startable(stored) {
      BeginCache(stored, namespace, clock);
      var next := MarkNewReady(stored, SucceededTasks(stored), clock);
      SaveOk(stored, next, io);
      if NewlyReady(stored, SucceededTasks(stored)) == {} {
        FirstWorkersWorld(stored, namespace, s.channel, s.issued, s.config.workerCount);
      } else if Save(stored, next, io).Some? {
        var saved := Save(stored, next, io).value;
        WorldAdvances(stored, saved, namespace, s.channel, EMPTY_POOL, s.issued);
        FirstWorkersWorld(saved, namespace, s.channel, s.issued, s.config.workerCount);
        SameCacheVersion(next, saved.version, BeginRun(s, namespace, clock, io).cache);
      }
    }
  }

  // ------------------------------------------------------------------
  // The top of the loop

  /** Everything but the mode: the loop sits between two saves. */
  ghost predicate Steady(s: Sys) {
    Base(s) && LoopOk(s.stored, s.run, s.cache, s.channel.bodies)
  }

  /** Counting the completed tasks decides whether all of them are. */
  lemma CompletedCount(run: RunState)
    requires HeaderOk(run) && ValidDefinition(run.definition)
    ensures |SucceededTasks(run)| == |run.definition.tasks| ==> AllDone(run)
    ensures |SucceededTasks(run)| != |run.definition.tasks| ==> Unfinished(run)
  {
    ValidTaskIds(run);
    hide ValidDefinition, HeaderOk;
    assert SucceededTasks(run) <= run.tasks.Keys;
    if SucceededTasks(run) < run.tasks.Keys {
      SubsetCount(SucceededTasks(run), run.tasks.Keys);
      var t :| t in run.tasks && t !in SucceededTasks(run);
      assert Unfinished(run);
    } else {
      assert SucceededTasks(run) == run.tasks.Keys;
      assert forall t :: t in run.tasks ==> t in SucceededTasks(run);
    }
  }

  lemma InvHeader(run: RunState)
    requires RunInv(run)
    ensures HeaderOk(run) && TasksOk(run)
  {
  }

  lemma GateInv(s: Sys)
    requires Steady(s) && !AnyFailed(s.run)
    ensures Inv(Gate(s)) && Gate(s) == s.(mode := Gate(s).mode)
  {
    hide World, RunInv, HeaderOk, TasksOk, Advances, ValidDefinition, UniqueLeases, AnyFailed, AnyCanceled,
         NothingToUnlock, AllDone, Unfinished;
    InvHeader(s.run);
    CompletedCount(s.run);
    InvReflexive(s.run);
  }

  lemma ResumeInv(s: Sys, todo: seq<Settle>, after: After)
    requires Steady(s) && TodoOk(s.run.id, s.run.tasks, todo)
    requires if after.ToFail? then Unfinished(s.run) else !AnyFailed(s.run)
    ensures Inv(Resume(s, todo, after))
  {
    hide World, RunInv, Advances, ValidDefinition, UniqueLeases, AnyFailed, AnyCanceled, NothingToUnlock, Unfinished,
         TodoOk;
    if todo == [] && after.ToGate? { GateInv(s); }
    InvReflexive(s.run);
  }

  lemma ResumeKeeps(s: Sys, todo: seq<Settle>, after: After)
    ensures var next := Resume(s, todo, after); next == s.(mode := next.mode)
  {
  }

  lemma PendingShrinks(pending: map<Text, seq<Claim>>, gone: set<Text>)
    requires PendingOk(pending)
    ensures PendingOk(pending - gone)
  {
  }

  lemma RecoveredTodo(run: RunState, now1: Time, now2: Time, pending: map<Text, seq<Claim>>)
    requires TasksOk(run) && PendingOk(pending)
    ensures var next := Refreshed(run, now1, now2);
            TodoOk(next.id, next.tasks, PendingForAll(pending, Recoveries(run, now1)))
  {
    var todo := PendingForAll(pending, Recoveries(run, now1));
    var next := Refreshed(run, now1, now2);
    forall i | 0 <= i < |todo| ensures Past(next.id, next.tasks, todo[i].ticket.id) {
      PendingForAllIds(pending, Recoveries(run, now1), i);
      RecoveredIsPast(run, now1, now2, todo[i].ticket.id);
    }
  }

  /** The loop goes on from a save. */
  lemma SavedFine(s: Sys, saved: RunState, cache: Cache, pool: Pool, todo: seq<Settle>, after: After)
    requires Base(s) && LoopOk(s.stored, s.run, s.cache, s.channel.bodies)
    requires StoredOk(saved) && Advances(s.stored, saved) && saved.status.RunRunning?
             && saved.definition == s.stored.definition
    requires CacheOk(saved, cache) && PendingOk(cache.pending)
    requires cache.namespace == s.cache.namespace && cache.published == s.cache.published
    requires World(s.stored, s.cache.namespace, s.channel, pool, s.issued)
    requires TodoOk(saved.id, saved.tasks, todo)
    requires if after.ToFail? then Unfinished(saved) else !AnyFailed(saved)
    ensures Fine(s, Resume(s.(stored := saved, run := saved, cache := cache, pool := pool), todo, after))
  {
    hide World, StoredOk, Advances, ValidDefinition, AnyFailed, Unfinished, CacheOk, TodoOk, Resume, PendingOk, Inv;
    WorldAdvances(s.stored, saved, s.cache.namespace, s.channel, pool, s.issued);
    var active := s.(stored := saved, run := saved, cache := cache, pool := pool);
    ResumeInv(active, todo, after);
    ResumeKeeps(active, todo, after);
  }

  lemma TopFine(s: Sys, now1: Time, now2: Time, io: bool)
    requires Inv(s) && s.mode.Top?
    ensures Fine(s, TopStep(s, now1, now2, io))
  {
    hide World, RunInv, HeaderOk, TasksOk, Advances, ValidDefinition, UniqueLeases, AnyFailed, AnyCanceled,
         NothingToUnlock, Unfinished, CacheOk, TodoOk, Refreshed, Recoveries, Promoted, Redispatched, ReplaceAll,
         PendingForAll, Fatal, AttemptsOf, Gate, ValidIdentifier, Resume, PendingOk;
    var next, recoveries, promoted := Refreshed(s.run, now1, now2), Recoveries(s.run, now1),
        Promoted(s.run, now1, now2);
    InvReflexive(s.stored);
    InvHeader(s.run);
    if recoveries == [] && promoted == {} {
      GateInv(s);
    } else {
      var pool := ReplaceAll(s.pool, s.cache.namespace, s.run.id, recoveries);
      ReplaceAllWorld(s.stored, s.cache.namespace, s.channel, s.pool, s.issued, recoveries);
      RefreshCache(s.run, now1, now2, s.cache);
      RefreshUnfinished(s.run, now1, now2);
      RefreshDefinition(s.run, now1, now2);
      SaveOk(s.stored, next, io);
      if Save(s.stored, next, io).Some? {
        var cache := s.cache.(inFlight := s.cache.inFlight - AttemptsOf(recoveries),
                              ready := s.cache.ready + Redispatched(s.run, now1, next) + promoted,
                              pending := s.cache.pending - AttemptsOf(recoveries));
        RefreshFailed(s.run, now1, now2);
        RecoveredTodo(s.run, now1, now2, s.cache.pending);
        PendingShrinks(s.cache.pending, AttemptsOf(recoveries));
        SameCacheVersion(next, next.version + 1, cache);
        SavedFine(s, Save(s.stored, next, io).value, cache, pool, PendingForAll(s.cache.pending, recoveries),
                  if Fatal(recoveries) then ToFail else ToGate);
      }
    }
  }

  lemma RefreshDefinition(run: RunState, now1: Time, now2: Time)
    ensures Refreshed(run, now1, now2).definition == run.definition && Refreshed(run, now1, now2).id == run.id
  {
  }

  // ------------------------------------------------------------------
  // Acknowledging and publishing

  lemma PastNotNeeded(id: Text, tasks: map<Text, TaskRun>, a: Text)
    requires Past(id, tasks, a)
    ensures !Needed(id, tasks, a)
  {
  }

  lemma AckFine(s: Sys)
    requires Inv(s) && s.mode.Acking?
    ensures Fine(s, AckStep(s))
  {
    hide World, RunInv, Advances, ValidDefinition, UniqueLeases, AnyFailed, AnyCanceled, NothingToUnlock, Unfinished,
         CacheOk, Resume, ValidIdentifier, Respond, Past, Needed, PendingOk;
    var x := s.mode.todo[0];
    InvReflexive(s.stored);
    if Live(s.channel, x.ticket) {
      AckWorld(s.stored, s.cache.namespace, s.channel, s.pool, s.issued, x.ticket);
      var channel := Acked(s.channel, x.ticket);
      var pool := if x.claimant.Some? then Respond(s.pool, x.claimant.value, x.ticket, Receiving) else s.pool;
      if x.claimant.Some? {
        PastNotNeeded(s.stored.id, s.stored.tasks, x.ticket.id);
        RespondWorld(s.stored, s.cache.namespace, channel, s.pool, s.issued, x.claimant.value, x.ticket, Receiving);
      }
      var active := s.(channel := channel, pool := pool);
      ResumeInv(active, s.mode.todo[1..], s.mode.after);
      ResumeKeeps(active, s.mode.todo[1..], s.mode.after);
    }
  }

  lemma NextIsBounded(run: RunState, t: Text)
    requires TasksOk(run) && t in run.tasks && run.tasks[t].status.Ready?
    ensures var a := NextAttemptId(run.tasks[t]);
            && Bounded(run.id, run.tasks, a) && Needed(run.id, run.tasks, a)
            && BodyOk(run.id, a, DispatchRead(run.id, t, run.tasks[t].taskRunId, a))
  {
    NextOf(run, t);
    assert TaskOk(run.id, run.createdAt, MaxAttemptsOf(run.definition, t), t, run.tasks[t]);
  }

  /** Something is always under way or about to be: some unfinished task has all its dependencies
      done, the graph being acyclic, and such a task is not pending, failed or canceled. */
  lemma NeverStalled(run: RunState, cache: Cache)
    requires RunInv(run) && ValidDefinition(run.definition) && CacheOk(run, cache) && !AnyFailed(run) && Unfinished(run)
    ensures cache.ready != {} || Waiting(run)
  {
    var e, done := EdgesOf(run.definition), SucceededTasks(run);
    EdgesClosed(run.definition);
    var missing :| missing in run.tasks && !run.tasks[missing].status.Succeeded?;
    assert missing in e && missing !in done;
    var t := SomethingAvailable(e, done);
    assert t !in NewlyReady(run, done);
    assert run.tasks[t].status.Ready? ==> t in cache.ready;
  }

  lemma PublishFine(s: Sys, ok: bool)
    requires Inv(s) && s.mode.Publishing?
    ensures Fine(s, PublishStep(s, ok))
  {
    hide World, RunInv, TasksOk, HeaderOk, Advances, ValidDefinition, UniqueLeases, AnyFailed, AnyCanceled,
         NothingToUnlock, Unfinished, ValidIdentifier, Bounded, Needed, BodyOk, PendingOk, Waiting, NextAttemptId;
    InvReflexive(s.stored);
    InvHeader(s.run);
    if s.mode.ids == [] {
      NeverStalled(s.run, s.cache);
    } else {
      var t := s.mode.ids[0];
      assert t in ReadyIds(s.run);
      NextIsBounded(s.run, t);
      var a := NextAttemptId(s.run.tasks[t]);
      PostWorld(s.stored, s.cache.namespace, s.channel, s.pool, s.issued, a,
                DispatchRead(s.run.id, t, s.run.tasks[t].taskRunId, a));
      assert forall u :: u in s.mode.ids <==> u == t || u in s.mode.ids[1..];
    }
  }

  // ------------------------------------------------------------------
  // Claims

  lemma ClaimTaken(run: RunState, namespace: Text, channel: Channel, pool: Pool, issued: seq<Text>, c: Claim)
    requires World(run, namespace, channel, pool, issued)
    ensures World(run, namespace, channel, pool.(claims := pool.claims - multiset{c}), issued)
  {
  }

  /** Whatever a worker receives decodes to a dispatch of one of the run's tasks, if and only if the identifiers of run
      and task are well-formed. */
  lemma DeliveryReadExactly(run: RunState, channel: Channel, d: Ticket)
    requires HeaderOk(run) && ValidDefinition(run.definition) && ChannelInv(run.id, run.tasks, channel)
             && d.id in channel.bodies
    ensures TaskOf(run.id, d.id) in run.tasks && Bounded(run.id, run.tasks, d.id)
    ensures WellFormed(run, d, channel.bodies[d.id]) <==> Readable(run.id, TaskOf(run.id, d.id))
    ensures Readable(run.id, TaskOf(run.id, d.id)) <==> Utf8(d.id)
    ensures Readable(run.id, TaskOf(run.id, d.id)) ==> channel.bodies[d.id].taskId == TaskOf(run.id, d.id)
  {
    hide ValidDefinition, HeaderOk, Bounded, WellFormed, Utf8, Cleaned;
    MessageBody(run, channel, d.id);
    BodyReadExactly(run, d, channel.bodies[d.id]);
  }

  lemma MessageBody(run: RunState, channel: Channel, a: Text)
    requires ChannelInv(run.id, run.tasks, channel) && a in channel.bodies
    ensures Bounded(run.id, run.tasks, a) && BodyOk(run.id, a, channel.bodies[a])
    ensures IsAttempt(run.id, a) && TaskOf(run.id, a) in run.tasks
  {
  }

  lemma BodyReadExactly(run: RunState, d: Ticket, body: Payload)
    requires HeaderOk(run) && ValidDefinition(run.definition) && BodyOk(run.id, d.id, body)
    requires IsAttempt(run.id, d.id) && TaskOf(run.id, d.id) in run.tasks
    ensures WellFormed(run, d, body) <==> Readable(run.id, TaskOf(run.id, d.id))
    ensures Readable(run.id, TaskOf(run.id, d.id)) <==> Utf8(d.id)
    ensures Readable(run.id, TaskOf(run.id, d.id)) ==> body.taskId == TaskOf(run.id, d.id)
  {
    hide ValidDefinition, Utf8, Cleaned, IsAttempt, TaskOf, NumberOf, ValidIdentifier, TaskRunIdFor, AttemptOf;
    var t := TaskOf(run.id, d.id);
    ValidTaskIds(run);
    AttemptRebuilt(run.id, d.id);
    DerivedNamesValid(run.id, t, NumberOf(run.id, d.id));
    AttemptUtf8(run.id, t, NumberOf(run.id, d.id));
    TaskRunIdUtf8(run.id, t);
    CleanedExactly(run.id);
    CleanedExactly(t);
    CleanedExactly(TaskRunIdFor(run.id, t));
    CleanedExactly(d.id);
  }

  /** A delivery that is neither startable nor a duplicate of a running attempt is over. */
  lemma ClaimIsPast(run: RunState, d: Ticket)
    requires TasksOk(run) && !AnyCanceled(run) && Bounded(run.id, run.tasks, d.id)
    requires var task := run.tasks[TaskOf(run.id, d.id)];
             !Dispatchable(task, d) && !(task.status.Running? && d.id == task.currentAttemptId)
    ensures Past(run.id, run.tasks, d.id)
  {
    hide TasksOk, IsAttempt, TaskOf, NumberOf, AttemptOf, NextAttemptId;
    var t := TaskOf(run.id, d.id);
    AttemptRebuilt(run.id, d.id);
    NextOf(run, t);
    if run.tasks[t].status.Running? {
      RunningHasAttempt(run, t);
      CurrentOf(run, t);
    }
  }

  /** The lease of a started attempt names the worker it was handed to. */
  lemma StartedJob(run: RunState, t: Text, namespace: Text, k: WorkerKey, leaseDuration: int, now: Time)
    requires TasksOk(run) && t in run.tasks && run.tasks[t].status.Ready?
    requires StartAttempt(run, t, Name(namespace, run.id, k), leaseDuration, now).Ok?
    ensures var next := StartAttempt(run, t, Name(namespace, run.id, k), leaseDuration, now).value;
            var a := NextAttemptId(run.tasks[t]);
            && next.id == run.id && JobOk(next.id, next.tasks, namespace, k, Job(t, run.tasks[t].taskRunId, a))
            && Started(next.id, next.tasks, a) && !Needed(next.id, next.tasks, a) && !Started(run.id, run.tasks, a)
            && next.version == run.version && next.status == run.status && next.definition == run.definition
  {
    assert TaskOk(run.id, run.createdAt, MaxAttemptsOf(run.definition, t), t, run.tasks[t]);
    NextOf(run, t);
  }

  lemma NewlyIssued(id: Text, tasks: map<Text, TaskRun>, before: map<Text, TaskRun>, issued: seq<Text>, a: Text)
    requires IssuedOk(id, before, issued) && IssuedOk(id, tasks, issued) && !Started(id, before, a)
             && Started(id, tasks, a)
    ensures IssuedOk(id, tasks, issued + [a])
  {
    assert a !in issued;
  }

  /** World after the lease is stored and the worker has its job. */
  lemma StartWorld(s: Sys, saved: RunState, k: WorkerKey, d: Ticket, job: Job)
    requires Base(s) && Advances(s.stored, saved)
    requires saved.id == s.stored.id && d.id == job.attemptId
    requires JobOk(saved.id, saved.tasks, s.cache.namespace, k, job)
    requires Started(saved.id, saved.tasks, d.id) && !Needed(saved.id, saved.tasks, d.id)
             && !Started(s.stored.id, s.stored.tasks, d.id)
    ensures World(saved, s.cache.namespace, s.channel, Respond(s.pool, k, d, Working(d, job)), s.issued + [d.id])
  {
    hide ValidDefinition, StoredOk, Advances, ChannelInv, PoolInv, IssuedOk, Started, Needed, JobOk;
    WorldAdvances(s.stored, saved, s.cache.namespace, s.channel, s.pool, s.issued);
    NewlyIssued(saved.id, saved.tasks, s.stored.tasks, s.issued, d.id);
    RespondWorld(saved, s.cache.namespace, s.channel, s.pool, s.issued, k, d, Working(d, job));
  }

  /** Shutting down with an unsaved run in memory. */
  lemma DrainFine(s: Sys, next: RunState)
    requires Base(s) && s.stored.status.RunRunning?
    requires RunInv(next) && Advances(s.stored, next) && next.version == s.stored.version && next.status.RunRunning?
    ensures Fine(s, s.(run := next, mode := Draining(GiveUp)))
  {
    hide World, RunInv, ValidDefinition, UniqueLeases, Advances;
    InvReflexive(s.stored);
  }

  lemma StartSaved(s: Sys, saved: RunState, k: WorkerKey, d: Ticket, job: Job, cache: Cache)
    requires Base(s) && LoopOk(s.stored, s.run, s.cache, s.channel.bodies)
    requires StoredOk(saved) && Advances(s.stored, saved) && saved.status.RunRunning?
             && saved.definition == s.stored.definition
    requires CacheOk(saved, cache) && !AnyFailed(saved)
    requires cache.namespace == s.cache.namespace && cache.published == s.cache.published
             && cache.pending == s.cache.pending
    requires World(saved, s.cache.namespace, s.channel, Respond(s.pool, k, d, Working(d, job)), s.issued + [d.id])
    ensures Fine(s, s.(stored := saved, run := saved, mode := Top, issued := s.issued + [d.id], cache := cache,
                       pool := Respond(s.pool, k, d, Working(d, job))))
  {
    hide World, StoredOk, ValidDefinition, Advances, CacheOk, AnyFailed, PendingOk, Respond, ValidIdentifier;
  }

  /** A claim to a ready task: the lease is stored unless storage fails or the worker holds another. */
  lemma StartFine(s: Sys, k: WorkerKey, d: Ticket, t: Text, now: Time, io: bool)
    requires Base(s) && LoopOk(s.stored, s.run, s.cache, s.channel.bodies) && !AnyFailed(s.run)
    requires t in s.run.tasks && Dispatchable(s.run.tasks[t], d)
    ensures Fine(s, StartStep(s, k, d, t, now, io))
  {
    hide World, RunInv, HeaderOk, TasksOk, Advances, ValidDefinition, UniqueLeases, AnyFailed, AnyCanceled, Unfinished,
         NothingToUnlock, CacheOk, PendingOk, ValidIdentifier, WorkerIdFor, Respond, JobOk, Started, Needed,
         StartAttempt, NextAttemptId, Fine;
    var name := Name(s.cache.namespace, s.run.id, k);
    InvHeader(s.run);
    NameValid(s.run, s.cache.namespace, k);
    StartsOk(s.run, t, name, s.config.leaseDuration, now);
    var next := StartAttempt(s.run, t, name, s.config.leaseDuration, now).value;
    StartAttemptInv(s.run, t, name, s.config.leaseDuration, now);
    StartedJob(s.run, t, s.cache.namespace, k, s.config.leaseDuration, now);
    SaveOk(s.stored, next, io);
    if Save(s.stored, next, io).None? {
      DrainFine(s, next);
    } else {
      var saved := Save(s.stored, next, io).value;
      StartCache(s.run, t, name, s.config.leaseDuration, now, s.cache, d.id);
      var cache := s.cache.(ready := s.cache.ready - {t}, inFlight := s.cache.inFlight + {d.id});
      SameCacheVersion(next, saved.version, cache);
      var job := Job(t, s.run.tasks[t].taskRunId, d.id);
      StartWorld(s, saved, k, d, job);
      StartSaved(s, saved, k, d, job, cache);
    }
  }

  lemma NameValid(run: RunState, namespace: Text, k: WorkerKey)
    requires HeaderOk(run) && ValidIdentifier(namespace)
    ensures ValidIdentifier(Name(namespace, run.id, k))
  {
    WorkerIdValid(namespace, run.id, k.slot, k.generation);
  }

  lemma StartsOk(run: RunState, t: Text, workerId: Text, leaseDuration: int, now: Time)
    requires t in run.tasks && run.tasks[t].status.Ready? && ValidIdentifier(workerId) && leaseDuration > 0
    ensures StartAttempt(run, t, workerId, leaseDuration, now).Ok?
  {
  }

  /** A message that cannot be read is acknowledged, and the loop returns. */
  lemma MalformedFine(s: Sys, k: WorkerKey, d: Ticket)
    requires Base(s) && LoopOk(s.stored, s.run, s.cache, s.channel.bodies) && !Utf8(d.id)
    requires TaskOf(s.run.id, d.id) in s.run.tasks && !Readable(s.run.id, TaskOf(s.run.id, d.id))
    ensures Fine(s, s.(channel := Acked(s.channel, d), pool := Respond(s.pool, k, d, Receiving),
                       mode := Draining(Malformed)))
  {
    hide World, RunInv, Advances, ValidDefinition, UniqueLeases, CacheOk, PendingOk, ValidIdentifier, Respond, Acked,
         Readable, Utf8, TaskOf, Live;
    InvReflexive(s.stored);
    AckUnreadable(s.stored, s.cache.namespace, s.channel, s.pool, s.issued, d);
    RespondWorld(s.stored, s.cache.namespace, Acked(s.channel, d), s.pool, s.issued, k, d, Receiving);
  }

  lemma ClaimFine(s: Sys, c: Claim, now: Time, io: bool)
    requires Base(s) && LoopOk(s.stored, s.run, s.cache, s.channel.bodies) && !AnyFailed(s.run)
             && c.ticket.id in s.channel.bodies
    ensures Fine(s, ClaimStep(s, c, now, io))
  {
    hide World, RunInv, HeaderOk, TasksOk, Advances, ValidDefinition, UniqueLeases, AnyFailed, AnyCanceled, Unfinished,
         NothingToUnlock, ValidIdentifier, Respond, Needed, Past, StartStep, Dispatchable, WellFormed, Bounded,
         ChannelInv;
    var k, d := c.worker, c.ticket;
    InvReflexive(s.stored);
    if !IsCurrent(s.pool, k) {
      NackWorld(s.stored, s.cache.namespace, s.channel, s.pool, s.issued, d);
      RespondWorld(s.stored, s.cache.namespace, Nacked(s.channel, d), s.pool, s.issued, k, d, Receiving);
    } else {
      InvHeader(s.run);
      WorldChannel(s.stored, s.cache.namespace, s.channel, s.pool, s.issued);
      DeliveryReadExactly(s.run, s.channel, d);
      var t := TaskOf(s.run.id, d.id);
      if !Readable(s.run.id, t) {
        MalformedFine(s, k, d);
      } else if Dispatchable(s.run.tasks[t], d) {
        StartFine(s, k, d, t, now, io);
      } else if s.run.tasks[t].status.Running? && d.id == s.run.tasks[t].currentAttemptId {
      } else {
        ClaimIsPast(s.run, d);
        PastNotNeeded(s.run.id, s.run.tasks, d.id);
        AckWorld(s.stored, s.cache.namespace, s.channel, s.pool, s.issued, d);
        RespondWorld(s.stored, s.cache.namespace, Acked(s.channel, d), s.pool, s.issued, k, d, Receiving);
      }
    }
  }

  lemma FormedTask(run: RunState, d: Ticket, body: Payload)
    requires WellFormed(run, d, body)
    ensures body.Dispatch? && body.taskId in run.tasks
  {
  }

  lemma WorldChannel(run: RunState, namespace: Text, channel: Channel, pool: Pool, issued: seq<Text>)
    requires World(run, namespace, channel, pool, issued)
    ensures ChannelInv(run.id, run.tasks, channel)
  {
  }

  // ------------------------------------------------------------------
  // Heartbeats

  lemma HeartbeatFine(s: Sys, slot: nat, now: Time, io: bool, progressed: bool)
    requires Base(s) && LoopOk(s.stored, s.run, s.cache, s.channel.bodies) && !AnyFailed(s.run)
             && slot in s.pool.generations
    ensures Fine(s, HeartbeatStep(s, slot, now, io, progressed))
  {
    hide World, RunInv, HeaderOk, TasksOk, Advances, ValidDefinition, UniqueLeases, AnyFailed, AnyCanceled, Unfinished,
         NothingToUnlock, ValidIdentifier, CacheOk, RecordHeartbeat, WorkerIdFor, PendingOk, Fine;
    var k := WorkerKey(slot, s.pool.generations[slot]);
    var name := Name(s.cache.namespace, s.run.id, k);
    InvHeader(s.run);
    NameValid(s.run, s.cache.namespace, k);
    HeartbeatKeeps(s.run, name, s.config.leaseDuration, now, s.cache);
    HeartbeatInv(s.run, name, s.config.leaseDuration, now);
    var next := RecordHeartbeat(s.run, name, s.config.leaseDuration, now).value;
    SaveOk(s.stored, next, io);
    if Save(s.stored, next, io).None? {
      DrainFine(s, next);
    } else {
      var saved := Save(s.stored, next, io).value;
      SameCacheVersion(next, saved.version, s.cache);
      SavedFine(s, saved, s.cache, s.pool, [], ToTop);
      if !progressed { SavedGiveUp(s, saved); }
    }
  }

  lemma SavedGiveUp(s: Sys, saved: RunState)
    requires Base(s) && StoredOk(saved) && Advances(s.stored, saved) && saved.status.RunRunning?
             && saved.definition == s.stored.definition
    ensures Fine(s, s.(stored := saved, run := saved, mode := Draining(GiveUp)))
  {
    hide World, RunInv, ValidDefinition, UniqueLeases, Advances;
    InvReflexive(saved);
    WorldAdvances(s.stored, saved, s.cache.namespace, s.channel, s.pool, s.issued);
  }

  /** A heartbeat moves deadlines only. */
  lemma HeartbeatKeeps(run: RunState, workerId: Text, leaseDuration: int, now: Time, cache: Cache)
    requires ValidIdentifier(workerId) && leaseDuration > 0 && CacheOk(run, cache) && !AnyFailed(run)
    ensures RecordHeartbeat(run, workerId, leaseDuration, now).Ok?
    ensures var next := RecordHeartbeat(run, workerId, leaseDuration, now).value;
            && CacheOk(next, cache) && !AnyFailed(next) && (UniqueLeases(run) ==> UniqueLeases(next))
            && next.version == run.version && next.status == run.status && next.definition == run.definition
               && next.id == run.id
  {
    var next := RecordHeartbeat(run, workerId, leaseDuration, now).value;
    HeartbeatProgress(run, workerId, leaseDuration, now);
    assert forall t :: t in run.tasks ==> SameProgress(run.tasks[t], next.tasks[t]);
    SameCache(run, next, cache);
    if UniqueLeases(run) { UniqueLeasesKept(run, next); }
  }

  // ------------------------------------------------------------------
  // Results

  /** A result is ignored exactly when its attempt is over. */
  lemma IgnoredIsPast(run: RunState, namespace: Text, k: WorkerKey, job: Job)
    requires TasksOk(run) && JobOk(run.id, run.tasks, namespace, k, job)
    ensures MayComplete(run.tasks[job.taskId], job.taskRunId, Name(namespace, run.id, k), job.attemptId)
            <==> Current(run.id, run.tasks, job.attemptId)
    ensures !Current(run.id, run.tasks, job.attemptId) ==> Past(run.id, run.tasks, job.attemptId)
  {
    var t, a := job.taskId, job.attemptId;
    assert TaskOk(run.id, run.createdAt, MaxAttemptsOf(run.definition, t), t, run.tasks[t]);
    if run.tasks[t].status.Running? {
      CurrentOf(run, t);
      AttemptRebuilt(run.id, a);
    }
  }

  /** Under these caches the run with one attempt ended. */
  lemma EndedCache(run: RunState, t: Text, next: RunState, cache: Cache, a: Text)
    requires TasksOk(run) && TasksOk(next) && next.id == run.id && next.definition == run.definition
    requires t in run.tasks && run.tasks[t].status.Running? && a == run.tasks[t].currentAttemptId
    requires t in next.tasks && next.tasks == run.tasks[t := next.tasks[t]]
             && next.tasks[t].attemptCount == run.tasks[t].attemptCount
    requires !next.tasks[t].status.Running? && !next.tasks[t].status.Pending? && !next.tasks[t].status.Canceled?
    requires CacheOk(run, cache) && !next.tasks[t].status.Succeeded?
    ensures CacheOk(next, cache.(inFlight := cache.inFlight - {a}, pending := cache.pending - {a},
                                 ready := cache.ready + (if next.tasks[t].status.Ready? then {t} else {})))
  {
    hide TasksOk, AnyCanceled, AnyFailed, Unfinished, NothingToUnlock;
    EndSets(run, t, next);
    EndRunning(run, t, next, a);
    NothingToUnlockKept(run, next);
  }

  lemma CompletedSets(run: RunState, t: Text, next: RunState, cache: Cache, a: Text)
    requires TasksOk(run) && TasksOk(next) && next.id == run.id && next.status.RunRunning?
    requires t in run.tasks && run.tasks[t].status.Running? && a == run.tasks[t].currentAttemptId
    requires t in next.tasks && next.tasks == run.tasks[t := next.tasks[t]]
             && next.tasks[t].attemptCount == run.tasks[t].attemptCount
    requires next.tasks[t].status.Succeeded? && CacheOk(run, cache) && !AnyFailed(run)
    ensures SucceededTasks(next) == cache.completed + {t} && ReadyIds(next) == cache.ready
    ensures RunningAttempts(next) == cache.inFlight - {a} && Startable(next) && Past(next.id, next.tasks, a)
  {
    hide TasksOk, AnyCanceled, AnyFailed, Unfinished, NothingToUnlock, Past;
    EndSets(run, t, next);
    EndRunning(run, t, next, a);
  }

  /** After a success the unlocked tasks join the ready ones, and the caches say so. */
  lemma UnlockedCache(next: RunState, t: Text, cache: Cache, a: Text, clock: Clock)
    requires RunInv(next) && Startable(next) && Past(next.id, next.tasks, a)
    requires SucceededTasks(next) == cache.completed + {t} && ReadyIds(next) == cache.ready
    requires RunningAttempts(next) == cache.inFlight - {a}
    ensures var completed := cache.completed + {t};
            var last := MarkNewReady(next, completed, clock);
            && RunInv(last) && Advances(next, last) && last.version == next.version && last.status.RunRunning?
            && last.definition == next.definition
            && CacheOk(last, cache.(inFlight := cache.inFlight - {a}, pending := cache.pending - {a},
                                    completed := completed,
                                    ready := cache.ready + NewlyReady(next, completed)))
            && !AnyFailed(last) && Past(last.id, last.tasks, a)
  {
    hide RunInv, AnyCanceled, AnyFailed, Unfinished, NothingToUnlock, Advances, Past, MarkNewReady, NewlyReady,
         Startable;
    BeginCache(next, cache.namespace, clock);
    MarkNewReadyClosure(next, clock);
    PastAdvances(next, MarkNewReady(next, SucceededTasks(next), clock), a);
  }

  lemma PastAdvances(x: RunState, y: RunState, a: Text)
    requires Advances(x, y) && Past(x.id, x.tasks, a)
    ensures Past(y.id, y.tasks, a)
  {
    AttemptAdvances(x, y, a);
  }

  lemma ResultTodoOk(run: RunState, cache: Cache, r: TaskResult)
    requires PendingOk(cache.pending) && r.ticket.id == r.job.attemptId && Past(run.id, run.tasks, r.job.attemptId)
    ensures TodoOk(run.id, run.tasks, ResultTodo(cache, r))
  {
    hide Past;
    var todo := ResultTodo(cache, r);
    forall i | 0 <= i < |todo| ensures todo[i].ticket.id == r.job.attemptId {
    }
  }

  lemma IgnoredCache(run: RunState, cache: Cache, job: Job)
    requires TasksOk(run) && CacheOk(run, cache) && Past(run.id, run.tasks, job.attemptId)
    ensures CacheOk(run, ResultCache(cache, job, Applied(run, Ignored, {})))
  {
    hide TasksOk, NothingToUnlock, AnyCanceled;
    RunningIsCurrent(run, job.attemptId);
    assert cache.inFlight - {job.attemptId} == cache.inFlight;
  }

  lemma IgnoredFine(s: Sys, r: TaskResult)
    requires Base(s) && LoopOk(s.stored, s.run, s.cache, s.channel.bodies) && !AnyFailed(s.run)
    requires Past(s.run.id, s.run.tasks, r.job.attemptId) && r.ticket.id == r.job.attemptId
    ensures Fine(s, Resume(s.(cache := ResultCache(s.cache, r.job, Applied(s.run, Ignored, {}))),
                           ResultTodo(s.cache, r), ToTop))
  {
    hide World, RunInv, HeaderOk, TasksOk, Advances, ValidDefinition, UniqueLeases, AnyFailed, Unfinished, CacheOk,
         ValidIdentifier, PendingOk, Past, TodoOk, ResultTodo, Fine, Resume;
    InvHeader(s.run);
    IgnoredCache(s.run, s.cache, r.job);
    InvReflexive(s.stored);
    ResultTodoOk(s.run, s.cache, r);
    PendingShrinks(s.cache.pending, {r.job.attemptId});
    SavedFine(s, s.stored, ResultCache(s.cache, r.job, Applied(s.run, Ignored, {})), s.pool, ResultTodo(s.cache, r),
              ToTop);
  }

  /** A result that counts: the run advances, its attempt is past, and the caches follow. */
  ghost predicate Follows(run: RunState, applied: Applied, cache: Cache, job: Job) {
    && RunInv(applied.run) && Advances(run, applied.run) && applied.run.version == run.version
       && applied.run.status.RunRunning?
    && applied.run.definition == run.definition && Past(applied.run.id, applied.run.tasks, job.attemptId)
    && CacheOk(applied.run, ResultCache(cache, job, applied))
    && if applied.outcome.Exhausted? then Unfinished(applied.run) else !AnyFailed(applied.run)
  }

  lemma SucceededFollows(run: RunState, job: Job, next: RunState, cache: Cache, clock: Clock)
    requires RunInv(run) && run.status.RunRunning? && CacheOk(run, cache) && !AnyFailed(run)
    requires RunInv(next) && Advances(run, next) && next == run.(tasks := next.tasks, updatedAt := next.updatedAt)
    requires var t := job.taskId;
             && t in run.tasks && run.tasks[t].status.Running? && run.tasks[t].currentAttemptId == job.attemptId
             && t in next.tasks && next.tasks == run.tasks[t := next.tasks[t]]
                && next.tasks[t].attemptCount == run.tasks[t].attemptCount
             && next.tasks[t].status.Succeeded?
    ensures var completed := cache.completed + {job.taskId};
            Follows(run, Applied(MarkNewReady(next, completed, clock), Completed, NewlyReady(next, completed)), cache,
                    job)
  {
    hide RunInv, TasksOk, HeaderOk, AnyFailed, Unfinished, Advances, Past, MarkNewReady, NewlyReady, Startable, CacheOk;
    InvHeader(run);
    InvHeader(next);
    CompletedSets(run, job.taskId, next, cache, job.attemptId);
    UnlockedCache(next, job.taskId, cache, job.attemptId, clock);
    var last := MarkNewReady(next, cache.completed + {job.taskId}, clock);
    InvHeader(last);
    AdvancesTransitive(run, next, last);
  }

  lemma FailedFollows(run: RunState, job: Job, next: RunState, outcome: Outcome, cache: Cache)
    requires RunInv(run) && run.status.RunRunning? && CacheOk(run, cache) && !AnyFailed(run)
    requires RunInv(next) && Advances(run, next) && next == run.(tasks := next.tasks, updatedAt := next.updatedAt)
    requires var t := job.taskId;
             && t in run.tasks && run.tasks[t].status.Running? && run.tasks[t].currentAttemptId == job.attemptId
             && t in next.tasks && next.tasks == run.tasks[t := next.tasks[t]]
                && next.tasks[t].attemptCount == run.tasks[t].attemptCount
             && ((outcome.RetryScheduled? && (next.tasks[t].status.Ready? || next.tasks[t].status.RetryWaiting?))
                 || (outcome.Exhausted? && next.tasks[t].status.Failed?))
    ensures Follows(run, Applied(next, outcome, {}), cache, job)
  {
    hide RunInv, TasksOk, HeaderOk, AnyFailed, Unfinished, Advances, Past, CacheOk, AnyCanceled;
    InvHeader(run);
    InvHeader(next);
    var t := job.taskId;
    EndedCache(run, t, next, cache, job.attemptId);
    EndSets(run, t, next);
    EndRunning(run, t, next, job.attemptId);
    assert cache.ready + {} == cache.ready;
    assert t in ReadyIds(next) <==> next.tasks[t].status.Ready?;
  }

  lemma AppliedFollows(run: RunState, namespace: Text, r: TaskResult, cache: Cache, now: Time, clock: Clock)
    requires RunInv(run) && run.status.RunRunning? && CacheOk(run, cache) && !AnyFailed(run)
    requires r.job.taskId in run.tasks
    ensures var a := ApplyResult(run, Name(namespace, run.id, r.worker), cache.completed + {r.job.taskId}, r, now,
                                 clock);
            && a.Ok?
            && (a.value.outcome.Ignored? <==>
                  !MayComplete(run.tasks[r.job.taskId], r.job.taskRunId, Name(namespace, run.id, r.worker),
                               r.job.attemptId))
            && (a.value.outcome.Ignored? ==> a.value == Applied(run, Ignored, {}))
            && (!a.value.outcome.Ignored? ==> Follows(run, a.value, cache, r.job))
  {
    hide RunInv, AnyFailed, Advances, CacheOk, Follows, MarkNewReady, NewlyReady, MayComplete, CompleteAttempt;
    var name := Name(namespace, run.id, r.worker);
    CompleteEffect(run, r.job, name, r.output, r.error, now);
    CompleteInv(run, r.job.taskId, r.job.taskRunId, name, r.job.attemptId, r.output, r.error, now);
    var c := CompleteAttempt(run, r.job.taskId, r.job.taskRunId, name, r.job.attemptId, r.output, r.error, now).value;
    if c.1.Completed? {
      SucceededFollows(run, r.job, c.0, cache, clock);
    } else if !c.1.Ignored? {
      FailedFollows(run, r.job, c.0, c.1, cache);
    }
  }

  /** A result that counted but could not be stored. */
  lemma ResultUnsaved(s: Sys, r: TaskResult, applied: Applied)
    requires Base(s) && s.stored.status.RunRunning? && RunInv(applied.run) && Advances(s.stored, applied.run)
    requires applied.run.version == s.stored.version && applied.run.status.RunRunning?
    ensures Fine(s, s.(run := applied.run, cache := ResultCache(s.cache, r.job, applied), mode := Draining(GiveUp)))
  {
    hide World, StoredOk, ValidDefinition, RunInv, Advances, ResultCache, Fine;
    var cache := ResultCache(s.cache, r.job, applied);
    ResultCacheName(s.cache, r.job, applied);
    DrainFine(s.(cache := cache), applied.run);
    SameSystem(s, cache, s.(run := applied.run, cache := cache, mode := Draining(GiveUp)));
  }

  lemma SavedResultFine(s: Sys, r: TaskResult, applied: Applied, io: bool)
    requires Base(s) && LoopOk(s.stored, s.run, s.cache, s.channel.bodies) && !applied.outcome.Ignored?
    requires r.ticket.id == r.job.attemptId && Follows(s.run, applied, s.cache, r.job)
    ensures Fine(s, ResultSaved(s.(run := applied.run, cache := ResultCache(s.cache, r.job, applied)), applied.outcome,
                                ResultTodo(s.cache, r), io))
  {
    hide World, RunInv, Advances, ValidDefinition, StoredOk, UniqueLeases, AnyFailed, Unfinished, CacheOk,
         ValidIdentifier, PendingOk, Past, ResultTodo, Fine, Resume, ResultCache;
    SaveOk(s.stored, applied.run, io);
    if Save(s.stored, applied.run, io).None? {
      ResultUnsaved(s, r, applied);
    } else {
      AppliedSaved(s, r, applied, Save(s.stored, applied.run, io).value);
    }
  }

  lemma ResultFine(s: Sys, r: TaskResult, now: Time, clock: Clock, io: bool)
    requires Base(s) && LoopOk(s.stored, s.run, s.cache, s.channel.bodies) && !AnyFailed(s.run)
    requires r.ticket.id == r.job.attemptId && JobOk(s.run.id, s.run.tasks, s.cache.namespace, r.worker, r.job)
    ensures Fine(s, ResultStep(s, r, now, clock, io))
  {
    hide World, RunInv, HeaderOk, TasksOk, ValidDefinition, UniqueLeases, AnyFailed, CacheOk, ValidIdentifier, JobOk,
         Follows, PendingOk, Past, Current, ResultTodo, Fine, Resume, ApplyResult, ResultCache, MayComplete,
         ResultSaved, WorkerIdFor;
    InvHeader(s.run);
    JobKnown(s.run, s.cache.namespace, r);
    AppliedFollows(s.run, s.cache.namespace, r, s.cache, now, clock);
    IgnoredIsPast(s.run, s.cache.namespace, r.worker, r.job);
    var applied := ApplyResult(s.run, Name(s.cache.namespace, s.run.id, r.worker), s.cache.completed + {r.job.taskId},
                               r, now, clock).value;
    if applied.outcome.Ignored? {
      IgnoredFine(s, r);
      IgnoredResumes(s, r, io);
    } else {
      SavedResultFine(s, r, applied, io);
    }
  }

  lemma IgnoredResumes(s: Sys, r: TaskResult, io: bool)
    ensures var cache := ResultCache(s.cache, r.job, Applied(s.run, Ignored, {}));
            ResultSaved(s.(run := s.run, cache := cache), Ignored, ResultTodo(s.cache, r), io)
                == Resume(s.(cache := cache), ResultTodo(s.cache, r), ToTop)
  {
  }

  lemma ResultCacheName(cache: Cache, job: Job, applied: Applied)
    ensures ResultCache(cache, job, applied).namespace == cache.namespace
  {
  }

  lemma SameSystem(s: Sys, cache: Cache, next: Sys)
    requires Fine(s.(cache := cache), next)
    ensures Fine(s, next)
  {
  }

  lemma JobKnown(run: RunState, namespace: Text, r: TaskResult)
    requires JobOk(run.id, run.tasks, namespace, r.worker, r.job)
    ensures r.job.taskId in run.tasks
  {
  }

  lemma AppliedSaved(s: Sys, r: TaskResult, applied: Applied, saved: RunState)
    requires Base(s) && LoopOk(s.stored, s.run, s.cache, s.channel.bodies) && !applied.outcome.Ignored?
    requires r.ticket.id == r.job.attemptId && Follows(s.run, applied, s.cache, r.job)
    requires saved == applied.run.(version := applied.run.version + 1) && StoredOk(saved) && Advances(s.stored, saved)
    ensures Fine(s, Resume(s.(stored := saved, run := saved, cache := ResultCache(s.cache, r.job, applied)),
                           ResultTodo(s.cache, r),
                           if applied.outcome.Exhausted? then ToFail else ToTop))
  {
    hide World, RunInv, HeaderOk, TasksOk, Advances, ValidDefinition, UniqueLeases, AnyFailed, Unfinished, CacheOk,
         ValidIdentifier, PendingOk, Past, TodoOk, ResultTodo, Fine, Resume;
    var cache := ResultCache(s.cache, r.job, applied);
    SameCacheVersion(applied.run, saved.version, cache);
    ResultTodoOk(saved, s.cache, r);
    PendingShrinks(s.cache.pending, {r.job.attemptId});
    SavedFine(s, saved, cache, s.pool, ResultTodo(s.cache, r), if applied.outcome.Exhausted? then ToFail else ToTop);
  }

  // ------------------------------------------------------------------
  // Ending

  lemma EndedOk(run: RunState, goal: Goal, cause: Text, now1: Time, now2: Time)
    requires RunInv(run) && run.status.RunRunning?
    requires goal.Fail? || goal.Cancel? || goal.Complete?
    requires (goal.Fail? ==> Unfinished(run)) && (goal.Cancel? ==> !AnyFailed(run)) && (goal.Complete? ==> AllDone(run))
    ensures var r := Ended(run, goal, cause, now1, now2);
            && r.Ok? && RunInv(r.value) && Advances(run, r.value) && r.value.version == run.version
            && r.value.status == (if goal.Fail? then RunFailed else if goal.Cancel? then RunCanceled else RunSucceeded)
  {
    hide RunInv, Advances, CancelUnfinished;
    EndKeepsVersion(run, cause, now1, now2);
    match goal
    case Fail => FailRunInv(run, cause, now1, now2);
    case Cancel => CancelRunInv(run, cause, now1, now2);
    case Complete => SucceedRunInv(run, now1);
  }

  lemma FinishFine(s: Sys, cause: Text, now1: Time, now2: Time, io: bool)
    requires Inv(s) && s.mode.Draining? && s.pool.workers == map[]
    ensures Fine(s, FinishStep(s, cause, now1, now2, io))
  {
    hide World, RunInv, Advances, ValidDefinition, UniqueLeases, AnyFailed, Unfinished, AllDone, Ended, SaveOrKeep;
    InvReflexive(s.stored);
    EmptyPoolWorld(s.stored, s.cache.namespace, s.cache.namespace, s.channel, s.pool, s.issued);
    if !s.mode.goal.GiveUp? && !s.mode.goal.Malformed? {
      EndedOk(s.run, s.mode.goal, cause, now1, now2);
      var r := Ended(s.run, s.mode.goal, cause, now1, now2);
      InvHeader(r.value);
      AdvancesTransitive(s.stored, s.run, r.value);
      SaveOrKeepOk(s.stored, r, io);
      WorldAdvances(s.stored, SaveOrKeep(s.stored, r, io), s.cache.namespace, s.channel, EMPTY_POOL, s.issued);
    }
  }

  // ------------------------------------------------------------------
  // All steps

  lemma ResultTaken(run: RunState, namespace: Text, channel: Channel, pool: Pool, issued: seq<Text>, r: TaskResult)
    requires World(run, namespace, channel, pool, issued) && r in pool.results
    ensures World(run, namespace, channel, pool.(results := pool.results - multiset{r}), issued)
    ensures r.ticket.id == r.job.attemptId && JobOk(run.id, run.tasks, namespace, r.worker, r.job)
  {
  }

  lemma LostFine(s: Sys, slot: nat)
    requires Inv(s) && s.mode.Selecting? && slot in s.pool.generations
    ensures Fine(s, s.(pool := Respawn(s.pool, slot), mode := Top))
  {
    hide World, RunInv, Advances, ValidDefinition, UniqueLeases, CacheOk, AnyFailed, Unfinished, PendingOk,
         ValidIdentifier;
    InvReflexive(s.stored);
    RespawnWorld(s.stored, s.cache.namespace, s.channel, s.pool, s.issued, slot);
  }

  /** Going back to the top, or shutting down, from a select point. */
  lemma LeaveSelect(s: Sys, mode: Mode)
    requires Inv(s) && (s.mode.Selecting? || s.mode.Top?)
    requires mode.Top? || mode == Draining(GiveUp) || mode == Draining(Cancel)
    ensures Fine(s, s.(mode := mode))
  {
    hide World, RunInv, Advances, ValidDefinition, UniqueLeases, CacheOk, AnyFailed, Unfinished, PendingOk,
         ValidIdentifier;
    InvReflexive(s.stored);
  }

  lemma CrashFine(s: Sys)
    requires Inv(s)
    ensures Fine(s, s.(mode := Idle, pool := EMPTY_POOL, channel := EMPTY_CHANNEL))
  {
    hide World, RunInv, Advances, ValidDefinition, UniqueLeases, LoopOk, DrainOk;
    InvReflexive(s.stored);
    EmptyChannelWorld(s.stored, s.cache.namespace, s.cache.namespace, s.channel, s.pool, s.issued);
  }

  lemma WorkerFine(s: Sys, e: Event, k: WorkerKey)
    requires Inv(s) && !s.mode.Idle? && k in s.pool.workers
    ensures Fine(s, WorkerStep(s, e, k))
  {
    hide Base, ModeOk, RunInv, Advances;
    WorkerStepInv(s, e, k);
    InvStored(s);
    InvReflexive(s.stored);
  }

  lemma InvStored(s: Sys)
    requires Inv(s)
    ensures RunInv(s.stored)
  {
  }

  lemma TakeClaimFine(s: Sys, c: Claim, now: Time, io: bool)
    requires Inv(s) && s.mode.Selecting? && c.ticket.id in s.channel.bodies
    ensures Fine(s, ClaimStep(s.(pool := s.pool.(claims := s.pool.claims - multiset{c})), c, now, io))
  {
    hide World, StoredOk, Advances, ValidDefinition, CacheOk, AnyFailed, Unfinished, PendingOk, ValidIdentifier,
         ClaimStep;
    ClaimTaken(s.stored, s.cache.namespace, s.channel, s.pool, s.issued, c);
    ClaimFine(s.(pool := s.pool.(claims := s.pool.claims - multiset{c})), c, now, io);
  }

  lemma TakeResultFine(s: Sys, r: TaskResult, canceled: bool, now: Time, clock: Clock, io: bool)
    requires Inv(s) && s.mode.Selecting? && r in s.pool.results
    ensures Fine(s, Step(s, TakeResult(r, canceled, now, clock, io)))
  {
    hide World, RunInv, UniqueLeases, Advances, ValidDefinition, CacheOk, AnyFailed, Unfinished, PendingOk,
         ValidIdentifier, ResultStep, JobOk;
    ResultTaken(s.stored, s.cache.namespace, s.channel, s.pool, s.issued, r);
    var taken := s.(pool := s.pool.(results := s.pool.results - multiset{r}));
    if canceled {
      InvReflexive(s.stored);
    } else {
      ResultFine(taken, r, now, clock, io);
    }
  }

  predicate IdleEvent(e: Event) {
    e.Load? || e.CancelIdle? || e.Begin? || e.Finish? || e.Crash?
  }

  predicate LoopEvent(e: Event) {
    e.LoopTop? || e.AckNext? || e.PublishNext?
  }

  predicate WorkerEvent(e: Event) {
    e.Receive? || e.SendClaim? || e.FinishTask? || e.Abort?
  }

  /** Starting, restarting and ending. */
  lemma IdleEventFine(s: Sys, e: Event)
    requires Inv(s) && IdleEvent(e)
    ensures Fine(s, Step(s, e))
  {
    hide Inv, Fine, LoadRun, SaveOrKeep, CancelRun, BeginRun, TopStep, AckStep, PublishStep, ClaimStep, HeartbeatStep,
         ResultStep, FinishStep, WorkerStep, Respawn, AnyFailed, AnyCanceled, ValidIdentifier;
    StutterFine(s);
    match e
    case Load(cause, now1, now2, io) => if s.mode.Idle? { LoadFine(s, cause, now1, now2, io); }
    case CancelIdle(cause, now1, now2, io) =>
      if s.mode.Idle? && !s.stored.status.Finished() && !AnyFailed(s.stored) {
        CancelIdleFine(s, cause, now1, now2, io);
      }
    case Begin(namespace, clock, io) =>
      if s.mode.Idle? && ValidIdentifier(namespace) { BeginFine(s, namespace, clock, io); }
    case Finish(cause, now1, now2, io) =>
      if s.mode.Draining? && s.pool.workers == map[] { FinishFine(s, cause, now1, now2, io); }
    case Crash => CrashFine(s);
  }

  /** The top of the loop, acknowledging and publishing. */
  lemma LoopEventFine(s: Sys, e: Event)
    requires Inv(s) && LoopEvent(e)
    ensures Fine(s, Step(s, e))
  {
    hide Inv, Fine, LoadRun, SaveOrKeep, CancelRun, BeginRun, TopStep, AckStep, PublishStep, ClaimStep, HeartbeatStep,
         ResultStep, FinishStep, WorkerStep, Respawn, AnyFailed, AnyCanceled, ValidIdentifier;
    StutterFine(s);
    match e
    case LoopTop(canceled, now1, now2, io) =>
      if s.mode.Top? { if canceled { LeaveSelect(s, Draining(Cancel)); } else { TopFine(s, now1, now2, io); } }
    case AckNext => if s.mode.Acking? && s.mode.todo != [] { AckFine(s); }
    case PublishNext(ok) => if s.mode.Publishing? { PublishFine(s, ok); }
  }

  /** What the select receives. */
  lemma SelectEventFine(s: Sys, e: Event)
    requires Inv(s) && !IdleEvent(e) && !LoopEvent(e) && !WorkerEvent(e)
    ensures Fine(s, Step(s, e))
  {
    hide Inv, Fine, LoadRun, SaveOrKeep, CancelRun, BeginRun, TopStep, AckStep, PublishStep, ClaimStep, HeartbeatStep,
         ResultStep, FinishStep, WorkerStep, Respawn, AnyFailed, AnyCanceled, ValidIdentifier;
    StutterFine(s);
    match e
    case TakeClaim(c, now, io) =>
      if s.mode.Selecting? && c.ticket.id in s.channel.bodies { TakeClaimFine(s, c, now, io); }
    case TakeHeartbeat(slot, now, io, progressed) =>
      if s.mode.Selecting? && slot in s.pool.generations {
        SelectIsLoop(s);
        HeartbeatFine(s, slot, now, io, progressed);
      }
    case TakeLost(slot) => if s.mode.Selecting? && slot in s.pool.generations { LostFine(s, slot); }
    case TakeBrokerError => if s.mode.Selecting? { LeaveSelect(s, Draining(GiveUp)); }
    case TakeResult(r, canceled, now, clock, io) =>
      if s.mode.Selecting? && r in s.pool.results { TakeResultFine(s, r, canceled, now, clock, io); }
    case TimerFires => if s.mode.Selecting? { LeaveSelect(s, Top); }
    case ContextDone => if s.mode.Selecting? { LeaveSelect(s, Draining(Cancel)); }
  }

  lemma WorkerEventFine(s: Sys, e: Event)
    requires Inv(s) && WorkerEvent(e)
    ensures Fine(s, Step(s, e))
  {
    hide Inv, Fine, LoadRun, SaveOrKeep, CancelRun, BeginRun, TopStep, AckStep, PublishStep, ClaimStep, HeartbeatStep,
         ResultStep, FinishStep, WorkerStep, Respawn, AnyFailed, AnyCanceled, ValidIdentifier;
    StutterFine(s);
    if !s.mode.Idle? && e.k in s.pool.workers { WorkerFine(s, e, e.k); }
  }

  /** Every step keeps the invariant and moves the stored run forward only. */
  lemma StepFine(s: Sys, e: Event)
    requires Inv(s)
    ensures Fine(s, Step(s, e))
  {
    hide Inv, Fine, Step;
    if IdleEvent(e) {
      IdleEventFine(s, e);
    } else if LoopEvent(e) {
      LoopEventFine(s, e);
    } else if WorkerEvent(e) {
      WorkerEventFine(s, e);
    } else {
      SelectEventFine(s, e);
    }
  }

  lemma SelectIsLoop(s: Sys)
    requires Inv(s) && s.mode.Selecting?
    ensures Base(s) && LoopOk(s.stored, s.run, s.cache, s.channel.bodies) && !AnyFailed(s.run)
  {
  }
}
