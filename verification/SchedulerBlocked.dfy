/** How far a run gets when an identifier of it is not well-formed: every task that can be read back may succeed, and
what is left can neither start nor end. Well-formed identifiers are therefore exactly what the promises about messages
and endings need. */
module SchedulerBlocked {
  import opened Ids
  import opened Definition
  import opened Edges
  import opened Graph
  import opened Run
  import opened RunProofs
  import opened Channel
  import opened Scheduler
  import opened SchedulerInv
  import opened SchedulerCaches
  import opened SchedulerSteps
  import opened SchedulerTheorems
  import opened SchedulerSaves
  import opened SchedulerProgress
  import opened SchedulerPaths
  import opened SchedulerMalformed

  const FIRST: WorkerKey := WorkerKey(1, 1)

  // ------------------------------------------------------------------
  // One task after the other

  /** Nobody is at work and nothing waits for a time: every task is pending, ready or done. */
  predicate Resting(run: RunState) {
    forall t :: t in run.tasks ==>
      run.tasks[t].status.Pending? || run.tasks[t].status.Ready? || run.tasks[t].status.Succeeded?
  }

  /** Nothing is in flight, and nothing was acknowledged because it could not be read. */
  predicate Settled(channel: Channel) {
    channel.flight == map[] && forall a :: a in channel.acked ==> Utf8(a)
  }

  /** A select point at which all workers are free and all messages settled or waiting. */
  ghost predicate Between(x: Sys) {
    && Good(x) && x.mode.Selecting? && Resting(x.run) && x.pool == FirstWorkers(x.config.workerCount)
    && Settled(x.channel) && x.cache.pending == map[]
  }

  lemma RestingQuiet(run: RunState)
    requires Resting(run)
    ensures QuietAt(run, 0) && !Waiting(run)
  {
  }

  /** The task of an attempt succeeds, and the rest stays as it was or is unlocked. */
  predicate Done(a: RunState, b: RunState, t: Text) {
    && b.id == a.id && b.tasks.Keys == a.tasks.Keys && t in b.tasks && b.tasks[t].status.Succeeded?
    && forall u :: u in a.tasks && u != t ==>
         b.tasks[u] == a.tasks[u] || (a.tasks[u].status.Pending? && b.tasks[u].status.Ready?)
  }

  lemma SuccessOf(run: RunState, workerId: Text, completed: set<Text>, r: TaskResult)
    requires r.error.None? && r.job.taskId in run.tasks
             && MayComplete(run.tasks[r.job.taskId], r.job.taskRunId, workerId, r.job.attemptId)
    ensures var a := ApplyResult(run, workerId, completed, r, 0, STOPPED);
            a.Ok? && a.value.outcome.Completed? && Done(run, a.value.run, r.job.taskId)
  {
    hide MayComplete, PolicyOf, Available, EdgesOf, MarkReady, NewlyReady;
    var next := CompleteAttempt(run, r.job.taskId, r.job.taskRunId, workerId, r.job.attemptId, r.output, r.error,
                                0).value.0;
    var candidates := SortedSeq(Available(EdgesOf(next.definition), completed));
    MarkReadyEffect(next, candidates, STOPPED);
    var last := MarkReady(next, candidates, STOPPED);
    assert Marked(next.updatedAt, next.tasks[r.job.taskId], last.tasks[r.job.taskId], false);
    forall u | u in next.tasks
      ensures last.tasks[u] == next.tasks[u] || (next.tasks[u].status.Pending? && last.tasks[u].status.Ready?)
    {
      assert Marked(next.updatedAt, next.tasks[u], last.tasks[u], next.tasks[u].status.Pending? && u in candidates);
    }
  }

  /** The result of an attempt under way is saved, and its delivery is next to be acknowledged. */
  lemma SuccessStep(z: Sys, r: TaskResult)
    requires Good(z) && z.mode.Selecting? && r in z.pool.results && r.error.None? && z.cache.pending == map[]
             && Current(z.run.id, z.run.tasks, r.job.attemptId)
    ensures var y := Step(z, TakeResult(r, false, 0, STOPPED, true));
            && y.mode == Acking([Settle(r.ticket, None)], ToTop) && y.run == y.stored
               && Done(z.run, y.run, r.job.taskId)
            && y.pool == z.pool.(results := z.pool.results - multiset{r}) && y.channel == z.channel
            && y.config == z.config && y.cache.namespace == z.cache.namespace && y.cache.pending == map[]
  {
    hide World, RunInv, HeaderOk, TasksOk, ValidDefinition, UniqueLeases, CacheOk, PendingOk, ValidIdentifier, Served,
         Unfinished, AnyFailed, JobOk, Current, Past, MayComplete, ApplyResult, Done, Advances, WorkerIdFor, Storable,
         PublishedBut;
    InvHeader(z.stored);
    ResultTaken(z.stored, z.cache.namespace, z.channel, z.pool, z.issued, r);
    JobKnown(z.run, z.cache.namespace, r);
    IgnoredIsPast(z.run, z.cache.namespace, r.worker, r.job);
    var name := Name(z.cache.namespace, z.run.id, r.worker);
    SuccessOf(z.run, name, z.cache.completed + {r.job.taskId}, r);
    ResultSound(z, r, 0, STOPPED);
    AppliedFollows(z.run, z.cache.namespace, r, z.cache, 0, STOPPED);
    var applied := ApplyResult(z.run, name, z.cache.completed + {r.job.taskId}, r, 0, STOPPED).value;
    SaveOk(z.stored, applied.run, true);
    assert ResultTodo(z.cache, r) == [Settle(r.ticket, None)];
    DoneVersion(z.run, applied.run, r.job.taskId);
  }

  lemma DoneVersion(a: RunState, b: RunState, t: Text)
    requires Done(a, b, t)
    ensures forall version: nat :: Done(a, b.(version := version), t)
  {
  }

  lemma WorkFinished(y: Sys, k: WorkerKey, d: Ticket, job: Job)
    requires !y.mode.Idle? && k in y.pool.workers && y.pool.workers[k] == Working(d, job)
    ensures Step(y, FinishTask(k, [], None))
            == y.(pool := y.pool.(workers := y.pool.workers[k := Receiving],
                                  results := y.pool.results + multiset{TaskResult(k, job, [], None, d)}))
  {
  }

  lemma AckOne(y: Sys, d: Ticket)
    requires y.mode == Acking([Settle(d, None)], ToTop) && Live(y.channel, d)
    ensures Step(y, AckNext) == y.(channel := Acked(y.channel, d), mode := Top)
  {
    hide Gate;
    assert y.mode.todo[1..] == [];
  }

  lemma FirstFree(x: Sys)
    requires Between(x)
    ensures Free(x, FIRST) && QuietAt(x.run, 0)
  {
    hide Good, TasksOk, RunInv, ValidDefinition, UniqueLeases, CacheOk, ChannelInv, ValidIdentifier, AllExpected,
         ParkedUnderWay, KeysOk, Unfinished, WorkerIdFor, HoldsLease, FirstWorkers, Resting, QuietAt, Waiting;
    SelectRun(x);
    ServedWorkers(x);
    FirstGeneration(x.config.workerCount, 1);
    RestingQuiet(x.run);
    NobodyHolds(x.run, Name(x.cache.namespace, x.run.id, FIRST));
  }

  lemma ServedWorkers(x: Sys)
    requires Good(x)
    ensures x.config.workerCount >= 1
  {
    hide Inv;
  }

  /** The message of a ready task with well-formed identifiers can be received. */
  lemma ReadyStarts(x: Sys, t: Text)
    requires Between(x) && t in x.run.tasks && x.run.tasks[t].status.Ready? && Readable(x.run.id, t)
    ensures CanStart(x, t)
  {
    hide Good, Inv, TasksOk, RunInv, ValidDefinition, UniqueLeases, CacheOk, ChannelInv, ValidIdentifier, AllExpected,
         ParkedUnderWay, KeysOk, Unfinished, FirstWorkers, Resting, Readable, NextAttemptId;
    SelectRun(x);
    GoodParts(x);
    ReadyIsWaiting(x, t);
  }

  lemma FirstGood(x: Sys, e: Event)
    requires Good(x)
    ensures Good(Step(x, e))
  {
    hide Good, Step, Advances, AllReadable, Total;
    NextGood(x, e);
  }

  /** A worker at work on an attempt under way succeeds, and its delivery is acknowledged. */
  lemma WorkedOff(m: Sys, d: Ticket, job: Job) returns (y: Sys)
    requires Good(m) && m.mode.Selecting? && FIRST in m.pool.workers && m.pool.workers[FIRST] == Working(d, job)
    requires Current(m.run.id, m.run.tasks, job.attemptId) && m.cache.pending == map[] && Live(m.channel, d)
    ensures Leads(m, y) && Good(y) && y.mode.Top? && y.run == y.stored && Done(m.run, y.run, job.taskId)
    ensures y.pool == m.pool.(workers := m.pool.workers[FIRST := Receiving]) && y.channel == Acked(m.channel, d)
    ensures y.cache.pending == map[] && y.config == m.config
  {
    hide Good, Step, Leads, Done, AllReadable, Advances, Current, Acked, Live;
    var r := TaskResult(FIRST, job, [], None, d);
    var e1, e2 := FinishTask(FIRST, [], None), TakeResult(r, false, 0, STOPPED, true);
    var f := Step(m, e1);
    WorkFinished(m, FIRST, d, job);
    ThreeGood(m, e1, e2, AckNext);
    FirstGood(m, e1);
    var g := Step(f, e2);
    assert f.run == m.run && f.channel == m.channel && f.cache == m.cache && f.config == m.config && f.mode.Selecting?;
    SuccessStep(f, r);
    y := Step(g, AckNext);
    AckOne(g, d);
    assert m.pool.results + multiset{r} - multiset{r} == m.pool.results;
  }

  /** A ready task is taken up, succeeds, and its delivery is acknowledged. */
  lemma TaskDone(x: Sys, t: Text) returns (y: Sys)
    requires Between(x) && t in x.run.tasks && x.run.tasks[t].status.Ready? && Readable(x.run.id, t)
    ensures Leads(x, y) && Good(y) && y.mode.Top? && y.run == y.stored && Done(x.run, y.run, t)
    ensures y.pool == x.pool && Settled(y.channel) && y.cache.pending == map[] && y.config == x.config
  {
    hide Good, Step, Leads, Readable, Done, TasksOk, QuietAt, Free, Resting, FirstWorkers, Current, Startable,
         TakenUpBy, CanStart, NextAttemptId, Acked, Live, Settled;
    FirstFree(x);
    ReadyStarts(x, t);
    SelectStartable(x);
    var m := StartOne(x, FIRST, t);
    TakenFacts(x, m, t);
    var d, job := m.pool.workers[FIRST].d, m.pool.workers[FIRST].job;
    y := WorkedOff(m, d, job);
    TakenDone(x, m, y, t);
    LeadsVia(x, m, y);
  }

  lemma TakenFacts(x: Sys, m: Sys, t: Text)
    requires Between(x) && TasksOk(x.run) && TakenUpBy(x, m, FIRST, t)
    ensures FIRST in m.pool.workers && m.pool.workers[FIRST].Working? && m.cache.pending == map[]
    ensures Live(m.channel, m.pool.workers[FIRST].d) && m.pool.workers[FIRST].job.taskId == t
    ensures Current(m.run.id, m.run.tasks, m.pool.workers[FIRST].job.attemptId)
  {
    hide Good, TasksOk, NextAttemptId, Name, NextMessages, FirstWorkers, Resting, Current;
    StartedIsCurrent(x.run, m.run, t);
  }

  lemma TakenDone(x: Sys, m: Sys, y: Sys, t: Text)
    requires Between(x) && TasksOk(x.run) && TakenUpBy(x, m, FIRST, t) && Done(m.run, y.run, t) && Readable(x.run.id, t)
    requires m.pool.workers[FIRST].Working? && y.channel == Acked(m.channel, m.pool.workers[FIRST].d)
    requires y.pool == m.pool.(workers := m.pool.workers[FIRST := Receiving])
    ensures Done(x.run, y.run, t) && y.pool == x.pool && Settled(y.channel) && m.config == x.config
  {
    hide Good, NextAttemptId, Name, NextMessages, FirstWorkers, Resting, Utf8, TasksOk, TaskOf, NumberOf;
    ServedWorkers(x);
    FirstGeneration(x.config.workerCount, 1);
    NextUtf8(x.run, t);
  }

  lemma NextUtf8(run: RunState, t: Text)
    requires TasksOk(run) && t in run.tasks
    ensures Utf8(NextAttemptId(run.tasks[t])) <==> Readable(run.id, t)
  {
    hide Utf8, AttemptOf, NextAttemptId, TaskOf, NumberOf;
    NextOf(run, t);
    AttemptUtf8(run.id, t, run.tasks[t].attemptCount + 1);
  }

  /** A ready task is worked off while another is left to do. */
  lemma NextBetween(x: Sys, t: Text, u: Text) returns (y: Sys)
    requires Between(x) && t in x.run.tasks && x.run.tasks[t].status.Ready? && Readable(x.run.id, t)
    requires u in x.run.tasks && u != t && !x.run.tasks[u].status.Succeeded?
    ensures Leads(x, y) && Between(y) && Done(x.run, y.run, t) && y.config == x.config
  {
    hide Good, Leads, Readable, FirstWorkers, QuietAt, NextMessages, OnlyReadyPosted;
    var z := TaskDone(x, t);
    assert Resting(z.run);
    RestingQuiet(z.run);
    y := CalmTop(z, 0);
    LeadsVia(x, z, y);
  }

  /** Tasks still to be done. */
  function Open(run: RunState): set<Text> {
    set t | t in run.tasks && !run.tasks[t].status.Succeeded?
  }

  /** No ready task can be read back. */
  predicate Blocked(run: RunState) {
    forall t :: t in run.tasks && run.tasks[t].status.Ready? ==> !Readable(run.id, t)
  }

  /** From a select point on: everything that can be read back is worked off, one task after the other. */
  lemma {:induction false} Exhausts(s: Sys, x: Sys, u: Text) returns (y: Sys)
    requires Created(s) && Leads(s, x) && Between(x) && u in s.stored.tasks && !Readable(s.stored.id, u)
    ensures Leads(s, y) && Between(y) && Blocked(y.run)
    decreases Open(x.run)
  {
    hide Created, Leads, Between, Readable, Done;
    y := x;
    if !Blocked(x.run) {
      var t :| t in x.run.tasks && x.run.tasks[t].status.Ready? && Readable(x.run.id, t);
      NotReached(s, x, u);
      var z := NextBetween(x, t, u);
      LeadsVia(s, x, z);
      OpenFalls(x.run, z.run, t);
      y := Exhausts(s, z, u);
    }
  }

  lemma OpenFalls(a: RunState, b: RunState, t: Text)
    requires Done(a, b, t) && t in a.tasks && a.tasks[t].status.Ready?
    ensures Open(b) < Open(a)
  {
    assert t in Open(a) && t !in Open(b);
  }

  /** However far the run has come, a task that cannot be read back has not succeeded. */
  lemma NotReached(s: Sys, x: Sys, u: Text)
    requires Created(s) && Leads(s, x) && Between(x) && u in s.stored.tasks && !Readable(s.stored.id, u)
    ensures x.run.id == s.stored.id && u in x.run.tasks && !x.run.tasks[u].status.Succeeded?
  {
    hide Created, Good, Healthy, Step, Readable, Startable, TasksOk, Resting, FirstWorkers;
    var es: seq<Event> :| (forall e :: e in es ==> Healthy(e)) && Steps(s, es) == x;
    assert es[..|es|] == es;
    NeverSucceeds(s, es, |es|, u);
    SameTasks(s, es, |es|);
    SelectStartable(x);
  }

  lemma FirstBetween(s: Sys) returns (x: Sys)
    requires Created(s) && s.config.workerCount >= 1
    ensures Leads(s, x) && Between(x)
  {
    hide Created, Good, Leads, FirstWorkers, Deliverable, NextMessages, NextAttemptId, Independent;
    x := FirstSelect(s);
  }

  /** The end of the road: some ready task is left, and none that can be read back. */
  lemma ReachesBlocked(s: Sys) returns (y: Sys, t: Text)
    requires Created(s) && s.config.workerCount >= 1 && !AllReadable(s.stored)
    ensures Leads(s, y) && Between(y) && Blocked(y.run)
    ensures t in y.run.tasks && y.run.tasks[t].status.Ready?
  {
    hide Created, Leads, Between, Readable, Blocked;
    var x := FirstBetween(s);
    var u :| u in s.stored.tasks && !Readable(s.stored.id, u);
    y := Exhausts(s, x, u);
    t := SomethingReady(y);
  }

  lemma SomethingReady(x: Sys) returns (t: Text)
    requires Between(x)
    ensures t in x.run.tasks && x.run.tasks[t].status.Ready?
  {
    hide Inv, RunInv, ValidDefinition, UniqueLeases, CacheOk, ChannelInv, ValidIdentifier, AllExpected, ParkedUnderWay,
         KeysOk, TasksOk, Unfinished, Waiting, FirstWorkers, Resting, AnyFailed, Served;
    SelectRun(x);
    SelectRunning(x);
    RestingQuiet(x.run);
    NeverStalled(x.run, x.cache);
    t := ReadyCached(x.run, x.cache);
  }

  lemma ReadyCached(run: RunState, cache: Cache) returns (t: Text)
    requires CacheOk(run, cache) && cache.ready != {}
    ensures t in run.tasks && run.tasks[t].status.Ready?
  {
    t :| t in cache.ready;
    assert t in ReadyIds(run);
  }

  /** A message that cannot be read back waits as well, as long as nobody has received it. */
  lemma UnreadableWaits(x: Sys, t: Text)
    requires Between(x) && t in x.run.tasks && x.run.tasks[t].status.Ready? && !Readable(x.run.id, t)
    ensures Deliverable(x.channel, NextAttemptId(x.run.tasks[t]))
  {
    hide Base, RunInv, NothingToUnlock, AnyCanceled, AnyFailed, PendingOk, ValidIdentifier, Served, NextAttemptId,
         Readable, Utf8, FirstWorkers, Resting, TasksOk, HeaderOk;
    SelectStartable(x);
    NextUtf8(x.run, t);
    assert t in x.cache.ready;
  }

  // ------------------------------------------------------------------
  // What is left can neither start nor end

  /** Nobody is at work, nothing can be unlocked, and nothing that is ready can be read back. */
  ghost predicate Stuck(run: RunState) {
    run.status.RunRunning? && Resting(run) && Blocked(run) && NothingToUnlock(run) && Unfinished(run)
  }

  /** The loop is not on its way to an end. */
  predicate NotEnding(mode: Mode) {
    match mode
    case Draining(goal) => goal.GiveUp? || goal.Malformed?
    case Acking(_, after) => !after.ToFail?
    case _ => true
  }

  ghost predicate Dead(x: Sys) {
    Good(x) && NotEnding(x.mode) && Stuck(x.stored)
  }

  lemma LoopIsStored(x: Sys)
    requires Good(x) && InLoop(x.mode)
    ensures x.run == x.stored && CacheOk(x.run, x.cache) && TasksOk(x.stored)
  {
    hide World, RunInv, TasksOk, HeaderOk, ValidDefinition, UniqueLeases, CacheOk, PendingOk, ValidIdentifier, Served,
         Unfinished, AnyFailed, PublishedBut, TodoOk;
    InvHeader(x.stored);
  }

  /** Heartbeats leave a stuck run stuck. */
  lemma BeatStuck(run: RunState, workerId: Text, leaseDuration: int, now: Time)
    requires Stuck(run) && RecordHeartbeat(run, workerId, leaseDuration, now).Ok?
    ensures forall version: nat :: Stuck(RecordHeartbeat(run, workerId, leaseDuration, now).value.(version := version))
  {
    hide ValidIdentifier, Available, Readable;
    var next := RecordHeartbeat(run, workerId, leaseDuration, now).value;
    assert forall t :: t in run.tasks ==> next.tasks[t].status == run.tasks[t].status;
    assert SucceededTasks(next) == SucceededTasks(run) && PendingIds(next) == PendingIds(run);
  }

  lemma DeadLoad(x: Sys, e: Event)
    requires Dead(x) && x.mode.Idle? && e.Load?
    ensures Step(x, e) == x
  {
    hide Inv, Served, Restored, NothingToUnlock, Blocked, SaveOrKeep, Unfinished;
    GoodParts(x);
    RestoredIsStored(x);
  }

  lemma DeadBegin(x: Sys, e: Event)
    requires Dead(x) && x.mode.Idle? && e.Begin? && Healthy(e)
    ensures Step(x, e).stored == x.stored && NotEnding(Step(x, e).mode)
  {
    hide Inv, Served, Restored, Blocked, Unfinished, Resting, Save, FirstWorkers, MarkNewReady, ValidIdentifier,
         NewlyReady;
    GoodParts(x);
    RestoredIsStored(x);
  }

  lemma DeadTop(x: Sys, e: Event)
    requires Dead(x) && x.mode.Top? && e.LoopTop? && Healthy(e)
    ensures Step(x, e).stored == x.stored && NotEnding(Step(x, e).mode)
  {
    hide Good, Step, Recoveries, Promoted, Gate, Blocked, NothingToUnlock, CacheOk, TasksOk, Resting, Unfinished;
    LoopIsStored(x);
    RestingTurn(x.run, e.now1, e.now2);
    TopOutcome(x, e.now1, e.now2);
    GateTraffic(x);
    FirstGood(x, e);
    if Step(x, e).mode.Draining? { StillUnfinished(x, Step(x, e)); }
  }

  lemma RestingTurn(run: RunState, now1: Time, now2: Time)
    requires Resting(run)
    ensures Recoveries(run, now1) == [] && Promoted(run, now1, now2) == {}
  {
    hide RecoveredTask;
    assert ExpiredTasks(run, NextTimestamp(run, now1)) == {};
    assert SortedSeq({}) == [];
    assert forall u :: u in run.tasks ==> RecoverExpired(run, now1).tasks[u] == run.tasks[u];
  }

  lemma AckModes(x: Sys)
    requires x.mode.Acking? && !x.mode.after.ToFail?
    ensures var y := Step(x, AckNext);
            y.stored == x.stored && y.run == x.run && (NotEnding(y.mode) || y.mode == Draining(Complete))
  {
    hide Live, Acked, Respond;
  }

  lemma DeadAck(x: Sys)
    requires Dead(x) && x.mode.Acking?
    ensures Step(x, AckNext).stored == x.stored && NotEnding(Step(x, AckNext).mode)
  {
    hide Good, Step, Resting, Blocked, NothingToUnlock, CacheOk, TasksOk;
    LoopIsStored(x);
    AckModes(x);
    FirstGood(x, AckNext);
    if Step(x, AckNext).mode == Draining(Complete) { CompleteMeansDone(Step(x, AckNext)); }
  }

  lemma DeadPublish(x: Sys, e: Event)
    requires Dead(x) && x.mode.Publishing? && e.PublishNext? && Healthy(e)
    ensures Step(x, e).stored == x.stored && NotEnding(Step(x, e).mode)
  {
    hide Good, Step, Stuck, SameTraffic;
    PublishOutcome(x);
    TrafficStored(x, Step(x, e));
  }

  lemma TrafficStored(x: Sys, y: Sys)
    requires SameTraffic(x, y)
    ensures y.stored == x.stored
  {
  }

  /** A claim of a stuck run is stale, unreadable or superfluous. */
  lemma DeadClaim(x: Sys, c: Claim, now: Time)
    requires Dead(x) && x.mode.Selecting? && c in x.pool.claims
    ensures var y := Step(x, TakeClaim(c, now, true)); y.stored == x.stored && NotEnding(y.mode)
  {
    hide Good, Served, Inv, WellFormed, StartStep, Nacked, Acked, Respond, Live, NothingToUnlock, Unfinished, Readable,
         TasksOk, CacheOk;
    GoodParts(x);
    LoopIsStored(x);
    ClaimReads(x, c);
    if WellFormed(x.run, c.ticket, x.channel.bodies[c.ticket.id]) {
      FormedTask(x.run, c.ticket, x.channel.bodies[c.ticket.id]);
    }
  }

  /** A result that comes in has nobody waiting for it. */
  lemma DeadResult(x: Sys, r: TaskResult, now: Time, clock: Clock)
    requires Dead(x) && x.mode.Selecting? && r in x.pool.results
    ensures var y := Step(x, TakeResult(r, false, now, clock, true)); y.stored == x.stored && NotEnding(y.mode)
  {
    hide World, RunInv, HeaderOk, TasksOk, ValidDefinition, UniqueLeases, CacheOk, PendingOk, ValidIdentifier, Served,
         Unfinished, AnyFailed, JobOk, MayComplete, ApplyResult, Name, PublishedBut, Blocked, NothingToUnlock,
         ResultCache, ResultTodo;
    InvHeader(x.stored);
    ResultTaken(x.stored, x.cache.namespace, x.channel, x.pool, x.issued, r);
    JobKnown(x.run, x.cache.namespace, r);
    NotComplete(x.run, r, Name(x.cache.namespace, x.run.id, r.worker));
    AppliedFollows(x.run, x.cache.namespace, r, x.cache, now, clock);
  }

  lemma NotComplete(run: RunState, r: TaskResult, workerId: Text)
    requires Resting(run) && r.job.taskId in run.tasks
    ensures !MayComplete(run.tasks[r.job.taskId], r.job.taskRunId, workerId, r.job.attemptId)
  {
  }

  lemma DeadBeat(x: Sys, e: Event)
    requires Dead(x) && x.mode.Selecting? && e.TakeHeartbeat? && e.slot in x.pool.generations && Healthy(e)
    ensures Stuck(Step(x, e).stored) && NotEnding(Step(x, e).mode)
  {
    hide Good, Step, Stuck, RecordHeartbeat, CurrentName, CacheOk, TasksOk;
    LoopIsStored(x);
    HeartbeatOutcome(x, e.slot, e.now);
    BeatStuck(x.run, CurrentName(x, e.slot), x.config.leaseDuration, e.now);
  }

  /** Workers do not touch the run. */
  lemma DeadWorker(x: Sys, e: Event)
    requires e.Receive? || e.SendClaim? || e.FinishTask? || e.Abort? || e.TakeLost? || e.TimerFires?
    ensures Step(x, e).stored == x.stored && (Step(x, e).mode == x.mode || Step(x, e).mode.Top?)
  {
  }

  lemma DeadFinish(x: Sys, e: Event)
    requires x.mode.Draining? && NotEnding(x.mode) && e.Finish?
    ensures Step(x, e).stored == x.stored && NotEnding(Step(x, e).mode)
  {
  }

  /** Whether the event does anything in this mode. */
  predicate Enabled(x: Sys, e: Event) {
    match e
    case Load(_, _, _, _) => x.mode.Idle?
    case Begin(_, _, _) => x.mode.Idle?
    case LoopTop(_, _, _, _) => x.mode.Top?
    case AckNext => x.mode.Acking?
    case PublishNext(_) => x.mode.Publishing?
    case TakeClaim(c, _, _) => x.mode.Selecting? && c in x.pool.claims
    case TakeHeartbeat(slot, _, _, _) => x.mode.Selecting? && slot in x.pool.generations
    case TakeResult(r, _, _, _, _) => x.mode.Selecting? && r in x.pool.results
    case Finish(_, _, _, _) => x.mode.Draining?
    case _ => true
  }

  lemma Disabled(x: Sys, e: Event)
    requires !Enabled(x, e)
    ensures Step(x, e) == x
  {
  }

  /** Without cancellation, fault or crash nothing moves any more. */
  lemma DeadStep(x: Sys, e: Event)
    requires Dead(x) && Healthy(e)
    ensures Dead(Step(x, e))
  {
    hide Good, Step, Stuck, NotEnding;
    FirstGood(x, e);
    if !Enabled(x, e) {
      Disabled(x, e);
    } else {
      match e
      case Load(_, _, _, _) => DeadLoad(x, e);
      case Begin(_, _, _) => DeadBegin(x, e);
      case LoopTop(_, _, _, _) => DeadTop(x, e);
      case AckNext => DeadAck(x);
      case PublishNext(_) => DeadPublish(x, e);
      case TakeClaim(c, now, _) => DeadClaim(x, c, now);
      case TakeHeartbeat(_, _, _, _) => DeadBeat(x, e);
      case TakeResult(r, _, now, clock, _) => DeadResult(x, r, now, clock);
      case Finish(_, _, _, _) => DeadFinish(x, e);
      case _ => DeadOther(x, e);
    }
  }

  lemma DeadOther(x: Sys, e: Event)
    requires NotEnding(x.mode)
    requires e.Receive? || e.SendClaim? || e.FinishTask? || e.Abort? || e.TakeLost? || e.TimerFires?
    ensures Step(x, e).stored == x.stored && NotEnding(Step(x, e).mode)
  {
    hide Step;
    DeadWorker(x, e);
  }

  lemma {:induction false} DeadSteps(x: Sys, es: seq<Event>)
    requires Dead(x) && forall e :: e in es ==> Healthy(e)
    ensures Dead(Steps(x, es))
    decreases |es|
  {
    hide Dead, Step, Healthy;
    if es != [] {
      DeadSteps(x, es[..|es| - 1]);
      DeadStep(Steps(x, es[..|es| - 1]), es[|es| - 1]);
    }
  }

  lemma DeadCannotEnd(x: Sys)
    requires Dead(x)
    ensures !CanEnd(x)
  {
    hide Step, Healthy, Steps, Good, Resting, Blocked, NothingToUnlock, Unfinished;
    forall es: seq<Event> | forall e :: e in es ==> Healthy(e) ensures !Steps(x, es).stored.status.Finished() {
      DeadSteps(x, es);
    }
  }

  lemma BlockedIsDead(x: Sys)
    requires Between(x) && Blocked(x.run)
    ensures Dead(x)
  {
    hide Inv, Served, RunInv, ValidDefinition, UniqueLeases, ChannelInv, ValidIdentifier, AllExpected, ParkedUnderWay,
         KeysOk, TasksOk, Unfinished, Resting, Blocked, NothingToUnlock, AnyFailed, FirstWorkers, Utf8;
    SelectRun(x);
    SelectRunning(x);
  }

  // ------------------------------------------------------------------
  // The exact conditions

  /** A run one of whose identifiers is not well-formed: an execution without a fault to a state from which no execution
      without a fault ends. */
  lemma CannotEnd(s: Sys) returns (y: Sys)
    requires Created(s) && s.config.workerCount >= 1 && !AllReadable(s.stored)
    ensures Leads(s, y) && !CanEnd(y)
  {
    hide Created, Leads, Between, Blocked, CanEnd, AllReadable;
    var t;
    y, t := ReachesBlocked(s);
    BlockedIsDead(y);
    DeadCannotEnd(y);
  }

  /** And one to the loop ending over a message that is then acknowledged with its task still ready. */
  lemma MessageLost(s: Sys) returns (y: Sys, t: Text)
    requires Created(s) && s.config.workerCount >= 1 && !AllReadable(s.stored)
    ensures Leads(s, y) && y.mode == Draining(Malformed) && t in y.stored.tasks && y.stored.tasks[t].status.Ready?
    ensures NextAttemptId(y.stored.tasks[t]) in y.channel.acked
    ensures Good(y) && Startable(y.stored) && QuietAt(y.stored, 0)
  {
    hide Created, Leads, Good, NextAttemptId, Readable, Deliverable, FirstWorkers, QuietAt, HoldsLease, Resting,
         Settled, Startable, TasksOk;
    var x;
    x, t := ReachesBlocked(s);
    SelectStartable(x);
    FirstFree(x);
    UnreadableWaits(x, t);
    y := UnreadableClaim(x, FIRST, t);
    LeadsVia(s, x, y);
  }

  /** What an execution leads to is one of its states. */
  lemma LeadsIsAt(s: Sys, y: Sys) returns (es: seq<Event>)
    requires Leads(s, y)
    ensures At(s, es, |es|) == y
  {
    hide Healthy, Step, Steps;
    es :| (forall e :: e in es ==> Healthy(e)) && Steps(s, es) == y;
    assert es[..|es|] == es;
  }

  /** From every state of every execution the run can end, if and only if all its identifiers are well-formed. */
  lemma CanEndExactly(s: Sys)
    requires Created(s) && s.config.workerCount >= 1
    ensures (forall events: seq<Event>, i: nat :: i <= |events| ==> CanEnd(At(s, events, i))) <==> AllReadable(s.stored)
  {
    hide Created, Leads, CanEnd, AllReadable, Steps;
    if AllReadable(s.stored) {
      forall events: seq<Event>, i: nat | i <= |events| ensures CanEnd(At(s, events, i)) { AlwaysCanEnd(s, events, i); }
    } else {
      var y := CannotEnd(s);
      var es := LeadsIsAt(s, y);
    }
  }

  /** No execution ends the loop over a malformed message, if and only if all identifiers are well-formed. */
  lemma NeverMalformedExactly(s: Sys)
    requires Created(s) && s.config.workerCount >= 1
    ensures (forall events: seq<Event>, i: nat :: i <= |events| ==> At(s, events, i).mode != Draining(Malformed))
            <==> AllReadable(s.stored)
  {
    hide Created, Leads, AllReadable, Steps, NextAttemptId;
    if AllReadable(s.stored) {
      forall events: seq<Event>, i: nat | i <= |events| ensures At(s, events, i).mode != Draining(Malformed) {
        NeverStuck(s, events, i);
        StillReadable(s, events, i);
      }
    } else {
      var y, t := MessageLost(s);
      var es := LeadsIsAt(s, y);
    }
  }

  lemma StillReadable(s: Sys, events: seq<Event>, i: nat)
    requires Created(s) && i <= |events|
    ensures AllReadable(At(s, events, i).stored) <==> AllReadable(s.stored)
  {
    hide Created, Readable, Steps;
    SameTasks(s, events, i);
  }

  /** After such a loop the run can be entered again, and comes to a select with a ready task nobody will ever hear
      of. */
  lemma WorkLost(s: Sys) returns (z: Sys, t: Text)
    requires Created(s) && s.config.workerCount >= 1 && !AllReadable(s.stored)
    ensures Leads(s, z) && z.mode.Selecting? && t in z.stored.tasks && z.stored.tasks[t].status.Ready?
    ensures !Waits(z, NextAttemptId(z.stored.tasks[t])) && !InReach(z, NextAttemptId(z.stored.tasks[t]))
  {
    hide Created, Leads, Good, NextAttemptId, QuietAt, Startable, ValidIdentifier, FirstWorkers, NextMessages, TasksOk,
         AllReadable, Waits, InReach;
    var y;
    y, t := MessageLost(s);
    var idle := Abandoned(y, y);
    LetterValid(97);
    z := Reentered(idle, [97], t);
    SelectStartable(z);
    AckedOutOfReach(z, NextAttemptId(z.stored.tasks[t]));
    LeadsVia(s, y, idle);
    LeadsVia(s, idle, z);
  }

  lemma AckedOutOfReach(x: Sys, a: Text)
    requires Good(x) && a in x.channel.acked
    ensures !Waits(x, a) && !InReach(x, a)
  {
    hide ModeOk, StoredOk, PoolInv, IssuedOk, MessagesOk, AckedPast, Served, ValidDefinition;
  }

  /** At every select point of every execution the message of each ready task is waiting, if and only if all identifiers
      are well-formed. */
  lemma NoLostWorkExactly(s: Sys)
    requires Created(s) && s.config.workerCount >= 1
    ensures (forall events: seq<Event>, i: nat :: i <= |events| ==> NoneLost(At(s, events, i))) <==>
              AllReadable(s.stored)
  {
    hide Created, Leads, AllReadable, Steps, NoneLost;
    if AllReadable(s.stored) {
      forall events: seq<Event>, i: nat | i <= |events| ensures NoneLost(At(s, events, i)) {
        ReadableNoneLost(s, events, i);
      }
    } else {
      var z, t := WorkLost(s);
      LostSome(z, t);
      var es := LeadsIsAt(s, z);
    }
  }

  /** What is ready is waiting to be received, or in the hands of a worker that has yet to be answered. */
  ghost predicate NoneLost(x: Sys) {
    x.mode.Selecting? ==> forall t :: t in x.stored.tasks && x.stored.tasks[t].status.Ready? ==>
      Waits(x, NextAttemptId(x.stored.tasks[t])) && InReach(x, NextAttemptId(x.stored.tasks[t]))
  }

  lemma LostSome(z: Sys, t: Text)
    requires z.mode.Selecting? && t in z.stored.tasks && z.stored.tasks[t].status.Ready?
             && !Waits(z, NextAttemptId(z.stored.tasks[t]))
    ensures !NoneLost(z)
  {
    hide Waits, InReach, NextAttemptId;
  }

  lemma ReadableNoneLost(s: Sys, events: seq<Event>, i: nat)
    requires Created(s) && s.config.workerCount >= 1 && i <= |events| && AllReadable(s.stored)
    ensures NoneLost(At(s, events, i))
  {
    hide Created, Waits, InReach, NextAttemptId, Readable, Steps;
    var x := At(s, events, i);
    SameTasks(s, events, i);
    if x.mode.Selecting? {
      forall t | t in x.stored.tasks && x.stored.tasks[t].status.Ready?
        ensures Waits(x, NextAttemptId(x.stored.tasks[t])) && InReach(x, NextAttemptId(x.stored.tasks[t]))
      {
        NoLostWork(s, events, i, t);
        WorkIsInReach(s, events, i, t);
      }
    }
  }

  // ------------------------------------------------------------------
  // Success

  /** The last task is worked off, and the loop sets out to complete the run. */
  lemma LastDone(x: Sys, t: Text) returns (y: Sys)
    requires Between(x) && t in x.run.tasks && x.run.tasks[t].status.Ready? && Readable(x.run.id, t)
    requires forall u :: u in x.run.tasks && u != t ==> x.run.tasks[u].status.Succeeded?
    ensures Leads(x, y) && Good(y) && y.mode == Draining(Complete)
  {
    hide Good, Leads, Step, Readable, FirstWorkers, Recoveries, Promoted, Gate, AllReadable, Unfinished, Settled;
    var z := TaskDone(x, t);
    assert Resting(z.run);
    RestingTurn(z.run, 0, 0);
    var e := LoopTop(false, 0, 0, true);
    y := Step(z, e);
    TopOutcome(z, 0, 0);
    GateTraffic(z);
    FirstGood(z, e);
    LeadsOn(x, z, e);
    if y.mode.Publishing? { PublishingUnfinished(y); AllAreDone(x.run, y.run, t); }
  }

  lemma PublishingUnfinished(y: Sys)
    requires Good(y) && y.mode.Publishing?
    ensures Unfinished(y.run)
  {
    hide World, RunInv, ValidDefinition, UniqueLeases, Served, CacheOk, AnyFailed, Unfinished, PublishedBut, PendingOk,
         ValidIdentifier;
  }

  lemma AllAreDone(a: RunState, b: RunState, t: Text)
    requires Done(a, b, t) && forall u :: u in a.tasks && u != t ==> a.tasks[u].status.Succeeded?
    ensures !Unfinished(b)
  {
  }

  lemma {:induction false} Completes(x: Sys, y: Sys) returns (z: Sys)
    requires Leads(x, y) && Good(y) && y.mode == Draining(Complete) && AllReadable(y.stored)
    ensures Leads(x, z) && z.stored.status.RunSucceeded?
    decreases |y.pool.workers|
  {
    hide Good, Step, Leads, AllReadable;
    if y.pool.workers == map[] {
      FinishEnds(y);
      z := Step(y, Finish([], 0, 0, true));
      LeadsOn(x, y, Finish([], 0, 0, true));
    } else {
      var k :| k in y.pool.workers;
      AbortShrinks(y, k);
      FirstGood(y, Abort(k));
      LeadsOn(x, y, Abort(k));
      z := Completes(x, Step(y, Abort(k)));
    }
  }

  /** One task after the other until all have succeeded. */
  lemma {:induction false} WorksOff(s: Sys, x: Sys) returns (z: Sys)
    requires Created(s) && Leads(s, x) && Between(x) && AllReadable(s.stored)
    ensures Leads(s, z) && z.stored.status.RunSucceeded?
    decreases Open(x.run)
  {
    hide Created, Leads, Between, Readable, Done, Good, Steps;
    var t := SomethingReady(x);
    var es := LeadsIsAt(s, x);
    StillReadable(s, es, |es|);
    BetweenStored(x);
    if u :| u in x.run.tasks && u != t && !x.run.tasks[u].status.Succeeded? {
      var y := NextBetween(x, t, u);
      LeadsVia(s, x, y);
      OpenFalls(x.run, y.run, t);
      z := WorksOff(s, y);
    } else {
      var y := LastDone(x, t);
      LeadsVia(s, x, y);
      es := LeadsIsAt(s, y);
      StillReadable(s, es, |es|);
      z := Completes(s, y);
    }
  }

  lemma BetweenStored(x: Sys)
    requires Between(x)
    ensures x.run == x.stored
  {
    hide Good, FirstWorkers, Startable, TasksOk;
    SelectStartable(x);
  }

  /** Some execution of the run succeeds, if and only if all its identifiers are well-formed. */
  lemma SucceedsExactly(s: Sys)
    requires Created(s) && s.config.workerCount >= 1
    ensures (exists events: seq<Event>, i: nat :: i <= |events| && At(s, events, i).stored.status.RunSucceeded?)
            <==> AllReadable(s.stored)
  {
    hide Created, Leads, Between, Readable, Steps;
    if AllReadable(s.stored) {
      var x := FirstBetween(s);
      var z := WorksOff(s, x);
      var es := LeadsIsAt(s, z);
      assert |es| <= |es|;
    } else {
      var u :| u in s.stored.tasks && !Readable(s.stored.id, u);
      forall events: seq<Event>, i: nat | i <= |events| ensures !At(s, events, i).stored.status.RunSucceeded? {
        NeverSucceeds(s, events, i, u);
      }
    }
  }

  // ------------------------------------------------------------------
  // An instance

  /** A run of one task under the one-byte identifier 0xFF, on any engine. */
  lemma IllFormedRun(config: Config) returns (s: Sys, y: Sys)
    requires 0 < config.heartbeatInterval < config.leaseDuration && config.workerCount >= 1
    ensures Created(s) && s.config == config && s.stored.id == [0xFF]
    ensures Leads(s, y) && y.mode == Draining(Malformed) && y.stored.tasks.Keys == {TASK}
    ensures y.stored.tasks[TASK].status.Ready? && NextAttemptId(y.stored.tasks[TASK]) in y.channel.acked
  {
    hide Created, Leads, NextAttemptId, Independent, ValidDefinition, ValidIdentifier, Utf8, Good, Startable, QuietAt,
         Steps;
    IllFormedByte();
    SingleValid();
    s := CreatedRun([0xFF], SINGLE, config);
    assert TASK in s.stored.tasks && !Readable(s.stored.id, TASK);
    var t;
    y, t := MessageLost(s);
    var es := LeadsIsAt(s, y);
    SameTasks(s, es, |es|);
  }

  lemma IllFormedByte()
    ensures ValidIdentifier([0xFF]) && !Utf8([0xFF])
  {
    assert [0xFF][1..] == [];
  }
}
