/** A lease nobody works under. Worker names begin again with every entry into the loop, and a heartbeat renews every
lease under its name. A lease left behind by a loop that gave up is then kept alive by the new worker of that name, and
its task is neither finished nor tried again. */
module SchedulerLivelock {
  import opened Ids
  import opened Definition
  import opened Graph
  import opened Run
  import opened RunProofs
  import opened Channel
  import opened Scheduler
  import opened SchedulerInv
  import opened SchedulerCaches
  import opened SchedulerSteps
  import opened SchedulerTheorems
  import opened SchedulerSaves
  import opened SchedulerProgress
  import opened SchedulerPaths

  // ------------------------------------------------------------------
  // A heartbeat and the turn of the loop after it

  function Later(a: Time, b: Time): Time { if b < a then a else b }

  /** What a heartbeat does to a task. */
  lemma BeatOf(x: Sys, slot: nat, t: Text, now: Time)
    requires Good(x) && x.mode.Selecting? && slot in x.pool.generations && t in x.run.tasks
    ensures var y := Step(x, TakeHeartbeat(slot, now, true, true));
            var ts := NextTimestamp(x.run, now);
            && x.config.leaseDuration > 0 && t in y.run.tasks && y.run.tasks.Keys == x.run.tasks.Keys
            && y.run.id == x.run.id && y.run.updatedAt == ts
            && y.run.tasks[t] == BeatTask(x.run.tasks[t], CurrentName(x, slot), x.config.leaseDuration, ts)
  {
    hide Good, Step, ValidIdentifier, WorkerIdFor;
    HeartbeatOutcome(x, slot, now);
  }

  lemma RefreshAdvances(h: Sys, now1: Time, now2: Time)
    requires Good(h) && h.mode.Top?
    ensures var next := Refreshed(h.run, now1, now2); Advances(h.stored, next) && next.version == h.stored.version
  {
    hide Served, Base, ModeOk, RunInv, TasksOk, UniqueLeases, ValidDefinition, Advances, CacheOk, Refreshed, ChannelInv,
         AllExpected, ParkedUnderWay, ValidIdentifier, KeysOk;
    SelectRun(h);
    SelectRunning(h);
    RefreshCache(h.run, now1, now2, h.cache);
  }

  /** What a turn of the loop stores: the run with what is due, if anything is. */
  lemma TurnStores(h: Sys, now1: Time, now2: Time)
    requires Good(h) && h.mode.Top?
    ensures var y := Step(h, LoopTop(false, now1, now2, true));
            && h.run == h.stored && TasksOk(h.run)
            && y.stored == if Recoveries(h.run, now1) == [] && Promoted(h.run, now1, now2) == {} then h.stored
                           else Refreshed(h.run, now1, now2).(version := h.stored.version + 1)
  {
    hide Served, Base, ModeOk, RunInv, TasksOk, UniqueLeases, ValidDefinition, Advances, CacheOk, Recoveries, Promoted,
         Refreshed, Step, Storable, ChannelInv, AllExpected, ParkedUnderWay, ValidIdentifier, KeysOk;
    SelectRun(h);
    TopSound(h, now1, now2);
    StoreChanges(h, LoopTop(false, now1, now2, true));
    RefreshAdvances(h, now1, now2);
    SaveOk(h.stored, Refreshed(h.run, now1, now2), true);
  }

  /** A running task after recovery and promotion: as it was if its lease lasts, and no longer running otherwise. */
  lemma RefreshedRunning(run: RunState, now1: Time, now2: Time, t: Text)
    requires TasksOk(run) && t in run.tasks && run.tasks[t].status.Running?
    ensures var next := Refreshed(run, now1, now2);
            && t in next.tasks
            && (Expired(run.tasks[t], NextTimestamp(run, now1)) ==>
                  !next.tasks[t].status.Running? && Recoveries(run, now1) != [])
            && (!Expired(run.tasks[t], NextTimestamp(run, now1)) ==> next.tasks[t] == run.tasks[t])
  {
    hide TasksOk, Refreshed, Expired, Recoveries, RecoveryOf;
    RunningHasAttempt(run, t);
    RefreshedTask(run, now1, now2, t);
    if t in ExpiredTasks(run, NextTimestamp(run, now1)) {
      ReportedAttempt(run, now1, t);
    } else {
      NotPromoted(run, now1, now2, t);
    }
  }

  lemma NotPromoted(run: RunState, now1: Time, now2: Time, t: Text)
    requires t in run.tasks && run.tasks[t].status.Running? && !Expired(run.tasks[t], NextTimestamp(run, now1))
    ensures t !in Promoted(run, now1, now2)
  {
    hide RecoveredTask;
    assert RecoverExpired(run, now1).tasks[t] == run.tasks[t];
  }

  /** A turn of the loop keeps an attempt under way, as it is, if and only if its lease has not run out by then. */
  lemma TurnKeeps(h: Sys, t: Text, now1: Time, now2: Time)
    requires Good(h) && h.mode.Top? && t in h.run.tasks && h.run.tasks[t].status.Running?
    ensures var y := Step(h, LoopTop(false, now1, now2, true));
            var expired := Expired(h.run.tasks[t], NextTimestamp(h.run, now1));
            t in y.stored.tasks && (if expired then !y.stored.tasks[t].status.Running?
                                    else y.stored.tasks[t] == h.run.tasks[t])
  {
    hide Good, Step, TasksOk, Refreshed, Expired, Recoveries, Promoted, NextTimestamp;
    TurnStores(h, now1, now2);
    RefreshedRunning(h.run, now1, now2, t);
  }

  /** The lease of a task after a heartbeat. */
  function HeldLease(lease: Lease, workerId: Text, leaseDuration: nat, ts: Time): Lease {
    if lease.workerId == workerId && ts < lease.expiresAt then lease.(expiresAt := ts + leaseDuration) else lease
  }

  lemma BeatenTask(run: RunState, next: RunState, t: Text, workerId: Text, leaseDuration: nat, ts: Time, now: Time)
    requires t in run.tasks && run.tasks[t].status.Running? && run.tasks[t].lease.Some? && t in next.tasks
    requires next.updatedAt == ts && next.tasks[t] == BeatTask(run.tasks[t], workerId, leaseDuration, ts)
    ensures var held := HeldLease(run.tasks[t].lease.value, workerId, leaseDuration, ts);
            && next.tasks[t].status.Running? && next.tasks[t].lease == Some(held)
            && next.tasks[t].currentAttemptId == run.tasks[t].currentAttemptId
            && (Expired(next.tasks[t], NextTimestamp(next, now)) <==> held.expiresAt <= Later(ts, now))
  {
  }

  /** A heartbeat and the turn of the loop after it, each at its own reading. The lease is renewed if and only if it is
      under the worker's name and has not run out at the heartbeat, and the attempt stays under way if and only if the
      lease has not run out at the turn. */
  lemma TurnExactly(x: Sys, slot: nat, t: Text, beat: Time, now1: Time, now2: Time)
    requires Good(x) && x.mode.Selecting? && slot in x.pool.generations
    requires t in x.run.tasks && x.run.tasks[t].status.Running? && x.run.tasks[t].lease.Some?
    ensures var ts := NextTimestamp(x.run, beat);
            var held := HeldLease(x.run.tasks[t].lease.value, CurrentName(x, slot), x.config.leaseDuration, ts);
            var y := Step(Step(x, TakeHeartbeat(slot, beat, true, true)), LoopTop(false, now1, now2, true));
            && t in y.stored.tasks && (y.stored.tasks[t].status.Running? <==> Later(ts, now1) < held.expiresAt)
            && (y.stored.tasks[t].status.Running? ==>
                  && y.stored.tasks[t].currentAttemptId == x.run.tasks[t].currentAttemptId
                  && y.stored.tasks[t].lease == Some(held))
  {
    hide Good, Step, CurrentName, RecordHeartbeat, BeatTask, NextTimestamp, HeldLease, Expired, Later, AllReadable,
         Advances;
    var e := TakeHeartbeat(slot, beat, true, true);
    HeartbeatOutcome(x, slot, beat);
    BeatOf(x, slot, t, beat);
    NextGood(x, e);
    BeatenTask(x.run, Step(x, e).run, t, CurrentName(x, slot), x.config.leaseDuration, NextTimestamp(x.run, beat),
               now1);
    TurnKeeps(Step(x, e), t, now1, now2);
  }

  // ------------------------------------------------------------------
  // Stranded

  /** Every other task is done or waits for a dependency. */
  predicate Alone(run: RunState, t: Text) {
    && t in run.tasks && run.tasks[t].status.Running? && run.tasks[t].lease.Some?
    && forall u :: u in run.tasks && u != t ==> run.tasks[u].status.Succeeded? || run.tasks[u].status.Pending?
  }

  /** Nobody is at work, nothing can be received, and no claim and no result is under way. */
  ghost predicate Still(x: Sys) {
    && x.pool.claims == multiset{} && x.pool.results == multiset{}
    && (forall k :: k in x.pool.workers ==> x.pool.workers[k].Receiving? || x.pool.workers[k].Claiming?)
    && forall id :: !Deliverable(x.channel, id)
  }

  /** One attempt is under way, and there is nothing to be done but to wait for it. */
  ghost predicate Stranded(x: Sys, t: Text) {
    && Good(x) && (x.mode.Selecting? || x.mode.Top? || x.mode == Publishing([]))
    && Alone(x.run, t) && Still(x)
  }

  /** No cancellation, crash, failing storage or broker, and no worker lost. */
  predicate Allowed(e: Event) {
    Healthy(e) && !e.TakeLost? && !e.Abort?
  }

  /** The loop turns when the lease of the task has run out. */
  predicate LateTurn(x: Sys, e: Event, t: Text) {
    && x.mode.Top? && e.LoopTop? && t in x.run.tasks && x.run.tasks[t].lease.Some?
    && x.run.tasks[t].lease.value.expiresAt <= NextTimestamp(x.run, e.now1)
  }

  lemma AloneQuiet(run: RunState, t: Text, now1: Time, now2: Time)
    requires Alone(run, t) && NextTimestamp(run, now1) < run.tasks[t].lease.value.expiresAt
    ensures Recoveries(run, now1) == [] && Promoted(run, now1, now2) == {} && Unfinished(run) && ReadyIds(run) == {}
  {
    hide RecoveredTask;
    assert ExpiredTasks(run, NextTimestamp(run, now1)) == {};
    assert SortedSeq({}) == [];
    assert forall u :: u in run.tasks ==> RecoverExpired(run, now1).tasks[u] == run.tasks[u];
  }

  lemma AlonePart(run: RunState, t: Text)
    requires Alone(run, t)
    ensures t in run.tasks && run.tasks[t].status.Running? && run.tasks[t].lease.Some?
  {
  }

  /** A heartbeat of any worker. */
  lemma StrandedBeat(x: Sys, t: Text, slot: nat, now: Time)
    requires Stranded(x, t) && x.mode.Selecting? && slot in x.pool.generations
    ensures var y := Step(x, TakeHeartbeat(slot, now, true, true));
            && Stranded(y, t) && y.mode.Top? && y.pool == x.pool && y.config == x.config
            && y.cache.namespace == x.cache.namespace && y.run.id == x.run.id
            && y.run.updatedAt == NextTimestamp(x.run, now) && x.config.leaseDuration > 0
            && y.run.tasks[t] == BeatTask(x.run.tasks[t], CurrentName(x, slot), x.config.leaseDuration,
                                          NextTimestamp(x.run, now))
  {
    hide Good, Step, CurrentName, RecordHeartbeat, Still, NextTimestamp, BeatTask, Alone, AllReadable, Advances;
    AlonePart(x.run, t);
    var e := TakeHeartbeat(slot, now, true, true);
    HeartbeatOutcome(x, slot, now);
    NextGood(x, e);
    BeatOf(x, slot, t, now);
    BeatAlone(x.run, CurrentName(x, slot), x.config.leaseDuration, now, t);
    SameStill(x, Step(x, e));
  }

  lemma BeatAlone(run: RunState, workerId: Text, leaseDuration: int, now: Time, t: Text)
    requires Alone(run, t) && RecordHeartbeat(run, workerId, leaseDuration, now).Ok?
    ensures Alone(RecordHeartbeat(run, workerId, leaseDuration, now).value, t)
    ensures forall version: nat :: Alone(RecordHeartbeat(run, workerId, leaseDuration, now).value.(version := version),
                                         t)
  {
    hide ValidIdentifier;
  }

  lemma SameStill(x: Sys, y: Sys)
    requires Still(x) && y.pool == x.pool && y.channel.flight == x.channel.flight && y.channel.acked == x.channel.acked
             && y.channel.bodies.Keys == x.channel.bodies.Keys
    ensures Still(y)
  {
    assert forall id :: Deliverable(y.channel, id) <==> Deliverable(x.channel, id);
  }

  /** A turn of the loop before the lease runs out. */
  lemma StrandedTurn(x: Sys, t: Text, now1: Time, now2: Time)
    requires Stranded(x, t) && x.mode.Top? && NextTimestamp(x.run, now1) < x.run.tasks[t].lease.value.expiresAt
    ensures var y := Step(x, LoopTop(false, now1, now2, true));
            Stranded(y, t) && y == x.(mode := Publishing([]))
  {
    hide Good, Step, Still, NextTimestamp, Recoveries, Promoted, Gate, AllReadable, Advances;
    var e := LoopTop(false, now1, now2, true);
    AloneQuiet(x.run, t, now1, now2);
    TopOutcome(x, now1, now2);
    NextGood(x, e);
    var y := Step(x, e);
    GateTraffic(x);
    if y.mode.Draining? { StillUnfinished(x, y); }
    GateEmpty(x);
    SameStill(x, y);
  }

  lemma GateEmpty(x: Sys)
    requires Good(x) && x.mode.Top? && ReadyIds(x.run) == {}
    ensures Gate(x).mode.Publishing? ==> Gate(x) == x.(mode := Publishing([]))
  {
    hide Base, RunInv, NothingToUnlock, AnyCanceled, AnyFailed, PendingOk, ValidIdentifier, Served;
    assert SortedSeq({}) == [];
  }

  /** Nothing is published. */
  lemma StrandedPublish(x: Sys, t: Text)
    requires Stranded(x, t) && x.mode == Publishing([])
    ensures var y := Step(x, PublishNext(true));
            && Stranded(y, t) && y.mode.Selecting? && y.run == x.run && y.pool == x.pool && y.config == x.config
            && y.cache.namespace == x.cache.namespace
  {
    hide Good, Step, Still, NextAttemptId, Waiting, ReadyIds, AllReadable, Advances;
    PublishOutcome(x);
    NextGood(x, PublishNext(true));
    StepPublish(x);
    SameStill(x, Step(x, PublishNext(true)));
  }

  predicate Effective(x: Sys, e: Event) {
    || (x.mode.Selecting? && (e.TimerFires? || (e.TakeHeartbeat? && e.slot in x.pool.generations)))
    || (x.mode.Top? && e.LoopTop?)
    || (x.mode.Publishing? && e.PublishNext?)
  }

  /** Whatever else happens has no effect. */
  lemma StrandedNothing(x: Sys, t: Text, e: Event)
    requires Stranded(x, t) && Allowed(e) && !Effective(x, e)
    ensures Step(x, e) == x
  {
    hide Good, Alone, LoadRun, SaveOrKeep, CancelRun, BeginRun, TopStep, AckStep, PublishStep, ClaimStep, HeartbeatStep,
         ResultStep, FinishStep, Respawn, AnyFailed, AnyCanceled, ValidIdentifier, Deliverable, Taken, Nacked;
  }

  /** One event: the attempt goes on, in the same situation, if and only if the event is not a late turn of the loop. */
  lemma StrandedStep(x: Sys, t: Text, e: Event)
    requires Stranded(x, t) && Allowed(e)
    ensures var y := Step(x, e);
            && t in y.stored.tasks
            && (LateTurn(x, e, t) ==> !y.stored.tasks[t].status.Running?)
            && (!LateTurn(x, e, t) ==>
                  Stranded(y, t) && y.run.tasks[t].currentAttemptId == x.run.tasks[t].currentAttemptId
                  && y.run == y.stored)
  {
    hide Good, Step, Still, NextTimestamp, CurrentName, AllReadable, Advances;
    RunStored(x, t);
    if !Effective(x, e) {
      StrandedNothing(x, t, e);
    } else if e.TimerFires? {
      NextGood(x, e);
      TimerOutcome(x);
      SameStill(x, Step(x, e));
    } else if e.TakeHeartbeat? {
      StrandedBeat(x, t, e.slot, e.now);
      RunStored(Step(x, e), t);
    } else if e.PublishNext? {
      StrandedPublish(x, t);
      RunStored(Step(x, e), t);
    } else if LateTurn(x, e, t) {
      TurnKeeps(x, t, e.now1, e.now2);
    } else {
      StrandedTurn(x, t, e.now1, e.now2);
    }
  }

  lemma RunStored(x: Sys, t: Text)
    requires Stranded(x, t)
    ensures x.run == x.stored
  {
    hide Base, CacheOk, Served, Still, AnyFailed, Unfinished, PendingOk, ValidIdentifier, PublishedBut;
  }

  // ------------------------------------------------------------------
  // Every execution from there

  predicate UnderWay(x: Sys, t: Text, a: Text) {
    t in x.stored.tasks && x.stored.tasks[t].status.Running? && x.stored.tasks[t].currentAttemptId == a
  }

  lemma {:induction false} StrandedUntil(x: Sys, t: Text, events: seq<Event>, i: nat)
    requires Stranded(x, t) && i <= |events| && (forall e :: e in events ==> Allowed(e))
    requires forall j :: 0 <= j < i ==> !LateTurn(At(x, events, j), events[j], t)
    ensures Stranded(At(x, events, i), t)
    ensures At(x, events, i).run.tasks[t].currentAttemptId == x.run.tasks[t].currentAttemptId
    ensures UnderWay(At(x, events, i), t, x.run.tasks[t].currentAttemptId)
    decreases i
  {
    hide Stranded, Step, Allowed, LateTurn, Steps;
    if i == 0 {
      StrandedStart(x, t, events);
    } else {
      StrandedUntil(x, t, events, i - 1);
      assert events[i - 1] in events;
      NextState(x, events, i - 1);
      StrandedStep(At(x, events, i - 1), t, events[i - 1]);
      StrandedParts(At(x, events, i), t);
    }
  }

  lemma StrandedStart(x: Sys, t: Text, events: seq<Event>)
    requires Stranded(x, t)
    ensures At(x, events, 0) == x && t in x.run.tasks && UnderWay(x, t, x.run.tasks[t].currentAttemptId)
  {
    RunStored(x, t);
    assert events[..0] == [];
  }

  lemma StrandedParts(x: Sys, t: Text)
    requires Stranded(x, t)
    ensures t in x.run.tasks && x.run.tasks[t].status.Running?
  {
  }

  /** Every execution without cancellation, crash, fault or loss of a worker: the attempt is under way at all times if
      and only if the loop never turns after its lease has run out. Nothing else ends it. */
  lemma StrandedExactly(x: Sys, t: Text, events: seq<Event>)
    requires Stranded(x, t) && (forall e :: e in events ==> Allowed(e))
    ensures t in x.run.tasks
    ensures (forall i :: 0 <= i <= |events| ==> UnderWay(At(x, events, i), t, x.run.tasks[t].currentAttemptId))
            <==> (forall i :: 0 <= i < |events| ==> !LateTurn(At(x, events, i), events[i], t))
  {
    hide Stranded, Step, Allowed, LateTurn, Steps;
    StrandedParts(x, t);
    var a := x.run.tasks[t].currentAttemptId;
    if forall i :: 0 <= i < |events| ==> !LateTurn(At(x, events, i), events[i], t) {
      forall i | 0 <= i <= |events| ensures UnderWay(At(x, events, i), t, a) {
        StrandedUntil(x, t, events, i);
      }
    } else {
      var i := FirstLate(x, t, events);
      StrandedUntil(x, t, events, i);
      assert events[i] in events;
      StrandedStep(At(x, events, i), t, events[i]);
      NextState(x, events, i);
      assert !UnderWay(At(x, events, i + 1), t, a);
    }
  }

  lemma FirstLate(x: Sys, t: Text, events: seq<Event>) returns (i: nat)
    requires exists j :: 0 <= j < |events| && LateTurn(At(x, events, j), events[j], t)
    ensures i < |events| && LateTurn(At(x, events, i), events[i], t)
    ensures forall j :: 0 <= j < i ==> !LateTurn(At(x, events, j), events[j], t)
  {
    hide LateTurn, Steps;
    i := 0;
    while !LateTurn(At(x, events, i), events[i], t)
      invariant i < |events| && forall j :: 0 <= j < i ==> !LateTurn(At(x, events, j), events[j], t)
      decreases |events| - i
    {
      i := i + 1;
    }
  }

  // ------------------------------------------------------------------
  // Heartbeats at their interval

  /** A heartbeat, the turn of the loop it causes, and the select again. */
  function Round(slot: nat, now: Time): seq<Event> {
    [TakeHeartbeat(slot, now, true, true), LoopTop(false, now, now, true), PublishNext(true)]
  }

  /** Rounds one interval apart. */
  function Rounds(slot: nat, start: Time, interval: nat, n: nat): seq<Event> {
    if n == 0 then [] else Rounds(slot, start, interval, n - 1) + Round(slot, start + n * interval)
  }

  /** Waiting at a select for an attempt under the name of the worker of a slot, with more than an interval to go. */
  ghost predicate Awaits(x: Sys, slot: nat, t: Text, interval: int) {
    && Stranded(x, t) && x.mode.Selecting? && slot in x.pool.generations
    && LeasedTo(x.run, t, CurrentName(x, slot))
    && x.run.updatedAt + interval < x.run.tasks[t].lease.value.expiresAt
  }

  lemma RoundKeeps(x: Sys, slot: nat, t: Text, interval: int)
    requires Awaits(x, slot, t, interval) && 0 < interval < x.config.leaseDuration
    ensures var y := Steps(x, Round(slot, x.run.updatedAt + interval));
            && Awaits(y, slot, t, interval) && y.config == x.config && y.run.updatedAt == x.run.updatedAt + interval
            && y.run.tasks[t].lease.value.expiresAt == y.run.updatedAt + y.config.leaseDuration
            && y.run.tasks[t].currentAttemptId == x.run.tasks[t].currentAttemptId
  {
    hide Stranded, Step, Steps, Name;
    var now := x.run.updatedAt + interval;
    var h := Step(x, TakeHeartbeat(slot, now, true, true));
    StrandedBeat(x, t, slot, now);
    StrandedParts(h, t);
    StrandedTurn(h, t, now, now);
    var l := Step(h, LoopTop(false, now, now, true));
    StrandedPublish(l, t);
    ThreeSteps(x, TakeHeartbeat(slot, now, true, true), LoopTop(false, now, now, true), PublishNext(true));
  }

  lemma ThreeSteps(x: Sys, a: Event, b: Event, c: Event)
    ensures Steps(x, [a, b, c]) == Step(Step(Step(x, a), b), c)
  {
    hide Step;
    assert [a, b, c][..2] == [a, b] && [a, b][..1] == [a] && [a][..0] == [];
    assert Steps(x, [a]) == Step(x, a);
    assert Steps(x, [a, b]) == Step(Steps(x, [a]), b);
  }

  /** Any number of heartbeats, one interval apart: the attempt is still under way at the end, the clock has moved on by
      as many intervals, and still there is nothing to be done but to wait. */
  lemma {:induction false} KeptAlive(x: Sys, slot: nat, t: Text, interval: nat, n: nat)
    requires Awaits(x, slot, t, interval) && 0 < interval < x.config.leaseDuration
    ensures var y := Steps(x, Rounds(slot, x.run.updatedAt, interval, n));
            && Awaits(y, slot, t, interval) && y.config == x.config
            && y.run.updatedAt == x.run.updatedAt + n * interval
            && y.run.tasks[t].currentAttemptId == x.run.tasks[t].currentAttemptId
    decreases n
  {
    hide Awaits, Step, Steps, Round;
    AwaitsParts(x, slot, t, interval);
    if n == 0 {
      NoRound(x, slot, interval);
    } else {
      KeptAlive(x, slot, t, interval, n - 1);
      var events, more := Rounds(slot, x.run.updatedAt, interval, n - 1), Round(slot, x.run.updatedAt + n * interval);
      var z := Steps(x, events);
      assert (n - 1) * interval + interval == n * interval;
      RoundKeeps(z, slot, t, interval);
      StepsJoin(x, events, more);
    }
  }

  lemma NoRound(x: Sys, slot: nat, interval: nat)
    ensures Steps(x, Rounds(slot, x.run.updatedAt, interval, 0)) == x
  {
  }

  lemma AwaitsParts(x: Sys, slot: nat, t: Text, interval: int)
    requires Awaits(x, slot, t, interval)
    ensures t in x.run.tasks
  {
  }

  // ------------------------------------------------------------------
  // How a lease comes to be left behind

  /** No worker runs the attempt and no result of it is under way. */
  predicate Unattended(pool: Pool, a: Text) {
    && (forall k :: k in pool.workers && pool.workers[k].Working? ==> pool.workers[k].job.attemptId != a)
    && forall r :: r in pool.results ==> r.job.attemptId != a
  }

  /** A loop gives up while a task runs under a name of the first generation, and the same engine takes the run up
      again before anything is due: the new worker of that slot bears the name, and nobody runs the attempt. */
  lemma LeftBehind(x: Sys, namespace: Text, slot: nat, t: Text) returns (y: Sys)
    requires Good(x) && x.mode == Draining(GiveUp) && ValidIdentifier(namespace) && 1 <= slot <= x.config.workerCount
    requires LeasedTo(x.stored, t, Name(namespace, x.stored.id, WorkerKey(slot, 1)))
    requires Startable(x.stored) && QuietAt(x.stored, 0)
    ensures Leads(x, y) && Good(y) && y.mode.Selecting? && slot in y.pool.generations
    ensures LeasedTo(y.run, t, CurrentName(y, slot)) && y.run.tasks[t] == x.stored.tasks[t]
    ensures Unattended(y.pool, y.run.tasks[t].currentAttemptId)
  {
    hide Good, Step, Leads, Startable, ValidIdentifier, Name, QuietAt, FirstWorkers, NextMessages;
    var idle := Abandoned(x, x);
    y := Reentered(idle, namespace, t);
    LeadsVia(x, idle, y);
    FirstGeneration(x.config.workerCount, slot);
  }

  // ------------------------------------------------------------------
  // It happens: one task, one worker, one failed save

  const WORKER: WorkerKey := WorkerKey(1, 1)

  /** The one worker is at work on the one task, and the one message is its. */
  ghost predicate OneAtWork(m: Sys) {
    && Good(m) && m.mode.Selecting? && QuietAt(m.run, 0) && m.config.workerCount == 1 && m.cache.namespace == [97]
    && m.run.tasks.Keys == {TASK} && Readable(m.run.id, TASK)
    && LeasedTo(m.run, TASK, Name([97], m.run.id, WORKER))
    && m.run.tasks[TASK].lease.value.expiresAt == m.run.updatedAt + m.config.leaseDuration
    && var a := m.run.tasks[TASK].currentAttemptId;
       && TaskOf(m.run.id, a) == TASK && a in m.channel.flight && a !in m.channel.acked
       && m.channel.bodies.Keys == {a}
       && m.pool.workers.Keys == {WORKER} && m.pool.workers[WORKER].Working?
       && m.pool.workers[WORKER].d == Ticket(a, m.channel.flight[a])
       && m.pool.claims == multiset{} && m.pool.results == multiset{} && m.pool.generations == map[1 := 1]
  }

  lemma OneWorker()
    ensures FirstWorkers(1) == Pool(map[1 := 1], map[WORKER := Receiving], multiset{}, multiset{})
  {
    assert FirstWorkers(0) == EMPTY_POOL;
  }

  lemma OneMessage(run: RunState)
    requires run.tasks.Keys == {TASK}
    ensures run.tasks[TASK].status.Ready? ==> NextMessages(run) == {NextAttemptId(run.tasks[TASK])}
    ensures !run.tasks[TASK].status.Ready? ==> NextMessages(run) == {}
  {
  }

  lemma OneStarts(config: Config) returns (s: Sys, m: Sys)
    requires 0 < config.heartbeatInterval < config.leaseDuration && config.workerCount == 1
    ensures Created(s) && s.config == config && Leads(s, m) && OneAtWork(m) && m.config == config
  {
    hide Created, Leads, Good, Name, NextAttemptId, QuietAt, FirstWorkers, NextMessages, Readable, Independent,
         HoldsLease, ValidDefinition, EdgesOf, TaskOf, TasksOk, ValidIdentifier, Startable;
    LetterValid(114);
    SingleValid();
    s := CreatedRun([114], SINGLE, config);
    var x := FirstSelect(s);
    OpeningQuiet(x.run, TASK);
    OneWorker();
    OneReadable(x.run);
    NoLeaseYet(x, WORKER);
    m := StartOne(x, WORKER, TASK);
    LeadsVia(s, x, m);
    SelectStartable(x);
    NextOf(x.run, TASK);
    OneMessage(x.run);
    OneMessage(m.run);
  }

  lemma OneReadable(run: RunState)
    requires run.id == [114]
    ensures Readable(run.id, TASK)
  {
    LetterUtf8(97);
    LetterUtf8(114);
  }

  /** A heartbeat that cannot be saved: the loop gives up, and the store is as it was. */
  lemma BeatFails(m: Sys, slot: nat)
    requires Good(m) && m.mode.Selecting? && slot in m.pool.generations
    ensures var g := Step(m, TakeHeartbeat(slot, 0, false, true));
            && g.mode == Draining(GiveUp) && g.stored == m.stored == m.run && g.pool == m.pool && g.channel == m.channel
            && g.config == m.config
  {
    hide Served, Base, ModeOk, RunInv, UniqueLeases, ValidDefinition, Advances, CacheOk, RecordHeartbeat, WorkerIdFor,
         Storable, ChannelInv, AllExpected, ParkedUnderWay, Unfinished, ValidIdentifier, KeysOk, TasksOk;
    SelectRun(m);
    HeartbeatSound(m, slot, 0);
  }

  /** The one worker gives its delivery back and is gone, and the engine returns. */
  lemma OneLeaves(g: Sys, d: Ticket)
    requires g.mode == Draining(GiveUp) && g.pool.workers.Keys == {WORKER} && Live(g.channel, d)
    requires g.pool.workers[WORKER].Working? && g.pool.workers[WORKER].d == d
    ensures var i := Step(Step(g, Abort(WORKER)), Finish([], 0, 0, true));
            i.mode.Idle? && i.stored == g.stored && i.config == g.config && i.channel == Nacked(g.channel, d)
  {
    assert g.pool.workers - {WORKER} == map[];
  }

  lemma TwoGood(x: Sys, e1: Event, e2: Event)
    requires Good(x) && Healthy(e1) && Healthy(e2)
    ensures Good(Step(Step(x, e1), e2)) && Leads(x, Step(Step(x, e1), e2))
  {
    hide Good, Step, Leads, Healthy, AllReadable, Advances;
    NextGood(x, e1);
    NextGood(Step(x, e1), e2);
    LeadsNowhere(x);
    LeadsOn(x, x, e1);
    LeadsOn(x, Step(x, e1), e2);
  }

  /** The loop entered again, at its first select: the message can be received, and the worker is free. */
  ghost predicate OneAgain(z: Sys, a: Text) {
    && Good(z) && z.mode.Selecting? && QuietAt(z.run, 0) && z.cache.namespace == [97] && z.pool == FirstWorkers(1)
    && z.run.tasks.Keys == {TASK} && Readable(z.run.id, TASK)
    && LeasedTo(z.run, TASK, Name([97], z.run.id, WORKER)) && z.run.tasks[TASK].currentAttemptId == a
    && z.run.tasks[TASK].lease.value.expiresAt == z.run.updatedAt + z.config.leaseDuration
    && TaskOf(z.run.id, a) == TASK && Deliverable(z.channel, a) && z.channel.bodies.Keys == {a}
  }

  lemma OneReturns(m: Sys) returns (z: Sys)
    requires OneAtWork(m)
    ensures Leads(Step(m, TakeHeartbeat(1, 0, false, true)), z) && OneAgain(z, m.run.tasks[TASK].currentAttemptId)
            && z.config == m.config
  {
    hide Good, Step, Leads, Name, QuietAt, FirstWorkers, NextMessages, Readable, TaskOf, Startable, ValidIdentifier,
         NextAttemptId, AllReadable, Advances;
    LetterValid(97);
    BeatFails(m, 1);
    var g := Step(m, TakeHeartbeat(1, 0, false, true));
    NextGood(m, TakeHeartbeat(1, 0, false, true));
    var a := m.run.tasks[TASK].currentAttemptId;
    OneLeaves(g, Ticket(a, m.channel.flight[a]));
    TwoGood(g, Abort(WORKER), Finish([], 0, 0, true));
    var i := Step(Step(g, Abort(WORKER)), Finish([], 0, 0, true));
    SelectStartable(m);
    z := Reentered(i, [97], TASK);
    LeadsVia(g, i, z);
    OneMessage(z.run);
  }

  /** The worker takes the message again, and its claim is parked under the attempt it is a duplicate of. */
  lemma OneParks(z: Sys, a: Text) returns (x: Sys)
    requires OneAgain(z, a) && 0 < z.config.heartbeatInterval < z.config.leaseDuration
    ensures Leads(z, x) && Awaits(x, 1, TASK, z.config.heartbeatInterval) && x.config == z.config
    ensures x.run == z.run
  {
    hide Good, Step, Leads, Name, QuietAt, NextMessages, Readable, TaskOf, NextAttemptId, FirstWorkers, TasksOk,
         Startable, AllReadable, Advances;
    OneWorker();
    var c := Claim(WORKER, Ticket(a, Count(z.channel, a) + 1));
    var e1, e2, e3 := Receive(WORKER, a), SendClaim(WORKER), TakeClaim(c, 0, true);
    ThreeGood(z, e1, e2, e3);
    ClaimSent(z, WORKER, a);
    var claimed := Step(Step(z, e1), e2);
    ClaimParks(claimed, c, TASK);
    var parked := Step(claimed, e3);
    RunningUnfinished(parked.run, TASK);
    x := CalmTop(parked, 0);
    LeadsVia(z, parked, x);
    OneMessage(x.run);
    OneStill(x, a);
  }

  lemma OneStill(x: Sys, a: Text)
    requires x.pool.claims == multiset{} && x.pool.results == multiset{} && x.pool.workers.Keys == {WORKER}
    requires x.pool.workers[WORKER].Claiming? && x.channel.bodies.Keys == {a} && a in x.channel.flight
    ensures Still(x)
  {
  }

  /** On any engine with one worker: a run of one task, one heartbeat that cannot be saved, and a second entry lead to
      an attempt under way that nobody works on, with nothing to be done but to wait for it. Any number of heartbeats
      later, at their interval, it is still so. */
  lemma Livelock(config: Config, n: nat) returns (s: Sys, m: Sys, x: Sys)
    requires 0 < config.heartbeatInterval < config.leaseDuration && config.workerCount == 1
    ensures Created(s) && s.config == config && Leads(s, m) && m.mode.Selecting?
    ensures Leads(Step(m, TakeHeartbeat(1, 0, false, true)), x) && Stranded(x, TASK)
    ensures var y := Steps(x, Rounds(1, x.run.updatedAt, config.heartbeatInterval, n));
            && Stranded(y, TASK) && y.run.updatedAt == x.run.updatedAt + n * config.heartbeatInterval
            && y.run.tasks[TASK].currentAttemptId == x.run.tasks[TASK].currentAttemptId
  {
    hide Created, Leads, Good, Stranded, OneAgain, Step, Steps, Rounds;
    s, m := OneStarts(config);
    var z := OneReturns(m);
    x := OneParks(z, m.run.tasks[TASK].currentAttemptId);
    LeadsVia(Step(m, TakeHeartbeat(1, 0, false, true)), z, x);
    KeptAlive(x, 1, TASK, config.heartbeatInterval, n);
  }
}
