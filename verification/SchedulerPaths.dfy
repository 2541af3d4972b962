/** Executions built step by step: what single events do at a select point, and the ways from creation to a first
select, from a message to a worker at work, and out of the loop and in again. */
module SchedulerPaths {
  import opened Ids
  import opened Definition
  import opened Edges
  import opened Graph
  import opened Run
  import opened RunProofs
  import S = Snapshot
  import opened SnapshotProofs
  import opened Channel
  import opened Scheduler
  import opened SchedulerInv
  import opened SchedulerCaches
  import opened SchedulerSteps
  import opened SchedulerTheorems
  import opened SchedulerSaves
  import opened SchedulerProgress

  // ------------------------------------------------------------------
  // Executions without a fault

  ghost predicate Leads(x: Sys, y: Sys) {
    exists es: seq<Event> :: (forall e :: e in es ==> Healthy(e)) && Steps(x, es) == y
  }

  lemma LeadsNowhere(x: Sys)
    ensures Leads(x, x)
  {
    assert Steps(x, []) == x;
  }

  lemma {:induction false} StepsJoin(x: Sys, a: seq<Event>, b: seq<Event>)
    ensures Steps(x, a + b) == Steps(Steps(x, a), b)
    decreases |b|
  {
    hide Step;
    if b == [] {
      assert a + b == a;
    } else {
      StepsJoin(x, a, b[..|b| - 1]);
      assert (a + b)[..|a + b| - 1] == a + b[..|b| - 1];
    }
  }

  lemma LeadsOn(x: Sys, y: Sys, e: Event)
    requires Leads(x, y) && Healthy(e)
    ensures Leads(x, Step(y, e))
  {
    hide Step, Healthy;
    var es: seq<Event> :| (forall f :: f in es ==> Healthy(f)) && Steps(x, es) == y;
    var more := es + [e];
    assert more[..|es|] == es;
    assert forall f :: f in more ==> Healthy(f);
    assert Steps(x, more) == Step(y, e);
  }

  lemma LeadsVia(x: Sys, y: Sys, z: Sys)
    requires Leads(x, y) && Leads(y, z)
    ensures Leads(x, z)
  {
    hide Healthy;
    var a: seq<Event> :| (forall f :: f in a ==> Healthy(f)) && Steps(x, a) == y;
    var b: seq<Event> :| (forall f :: f in b ==> Healthy(f)) && Steps(y, b) == z;
    StepsJoin(x, a, b);
    assert forall f :: f in a + b ==> Healthy(f);
  }

  lemma ThreeGood(x: Sys, e1: Event, e2: Event, e3: Event)
    requires Good(x) && Healthy(e1) && Healthy(e2) && Healthy(e3)
    ensures Good(Step(Step(x, e1), e2)) && Good(Step(Step(Step(x, e1), e2), e3))
    ensures Leads(x, Step(Step(Step(x, e1), e2), e3))
  {
    hide Good, Step, Leads, Healthy, AllReadable, Advances;
    NextGood(x, e1);
    NextGood(Step(x, e1), e2);
    NextGood(Step(Step(x, e1), e2), e3);
    LeadsNowhere(x);
    LeadsOn(x, x, e1);
    LeadsOn(x, Step(x, e1), e2);
    LeadsOn(x, Step(Step(x, e1), e2), e3);
  }

  lemma {:induction false} StepsKeep(x: Sys, es: seq<Event>)
    requires Good(x)
    ensures Good(Steps(x, es)) && Steps(x, es).config == x.config
    decreases |es|
  {
    hide Good, Step, AllReadable, Advances;
    if es != [] {
      var front := es[..|es| - 1];
      StepsKeep(x, front);
      NextGood(Steps(x, front), es[|es| - 1]);
      ConfigKept(Steps(x, front), es[|es| - 1]);
    }
  }

  lemma LeadsKeeps(x: Sys, y: Sys)
    requires Good(x) && Leads(x, y)
    ensures Good(y) && y.config == x.config
  {
    hide Good, Healthy, Steps;
    var es: seq<Event> :| (forall f :: f in es ==> Healthy(f)) && Steps(x, es) == y;
    StepsKeep(x, es);
  }

  lemma ConfigKept(x: Sys, e: Event)
    ensures Step(x, e).config == x.config
  {
    hide LoadRun, SaveOrKeep, CancelRun, BeginRun, TopStep, AckStep, PublishStep, ClaimStep, HeartbeatStep, ResultStep,
         FinishStep, Nacked, Taken, Deliverable, Respawn, Startable, ValidIdentifier, AnyFailed, AnyCanceled;
    match e
    case Begin(namespace, clock, io) => BeginConfig(x, namespace, clock, io);
    case LoopTop(_, now1, now2, io) => TopConfig(x, now1, now2, io);
    case AckNext => if x.mode.Acking? && x.mode.todo != [] { AckConfig(x); }
    case PublishNext(ok) => if x.mode.Publishing? { PublishConfig(x, ok); }
    case TakeClaim(c, now, io) =>
      if c.ticket.id in x.channel.bodies {
        ClaimConfig(x.(pool := x.pool.(claims := x.pool.claims - multiset{c})), c, now, io);
      }
    case TakeHeartbeat(slot, now, io, progressed) =>
      if slot in x.pool.generations { BeatConfig(x, slot, now, io, progressed); }
    case TakeResult(r, _, now, clock, io) =>
      ResultConfig(x.(pool := x.pool.(results := x.pool.results - multiset{r})), r, now, clock, io);
    case Finish(cause, now1, now2, io) => if x.mode.Draining? { FinishConfig(x, cause, now1, now2, io); }
    case _ =>
  }

  lemma BeginConfig(x: Sys, namespace: Text, clock: Clock, io: bool)
    ensures BeginRun(x, namespace, clock, io).config == x.config
  {
    hide Restored, MarkNewReady, NewlyReady, Save, FirstWorkers, Startable;
  }

  lemma TopConfig(x: Sys, now1: Time, now2: Time, io: bool)
    ensures TopStep(x, now1, now2, io).config == x.config
  {
    hide Refreshed, Recoveries, Promoted, Redispatched, Gate, Resume, Save, ReplaceAll, PendingForAll, AttemptsOf,
         Fatal;
    GateTraffic(x);
    forall y: Sys, todo, after ensures Resume(y, todo, after).config == y.config { ResumeConfig(y, todo, after); }
  }

  lemma AckConfig(x: Sys)
    requires x.mode.Acking? && x.mode.todo != []
    ensures AckStep(x).config == x.config
  {
    hide Resume, Respond, Acked, Live;
    forall y: Sys, todo, after ensures Resume(y, todo, after).config == y.config { ResumeConfig(y, todo, after); }
  }

  lemma PublishConfig(x: Sys, ok: bool)
    requires x.mode.Publishing?
    ensures PublishStep(x, ok).config == x.config
  {
    hide Waiting, NextAttemptId, Conflicts, Posted;
  }

  lemma ClaimConfig(x: Sys, c: Claim, now: Time, io: bool)
    requires c.ticket.id in x.channel.bodies
    ensures ClaimStep(x, c, now, io).config == x.config
  {
    hide WellFormed, Dispatchable, StartAttempt, Save, Respond, Nacked, Acked, Live, Name;
    var body := x.channel.bodies[c.ticket.id];
    if WellFormed(x.run, c.ticket, body) { FormedTask(x.run, c.ticket, body); }
  }

  lemma BeatConfig(x: Sys, slot: nat, now: Time, io: bool, progressed: bool)
    requires slot in x.pool.generations
    ensures HeartbeatStep(x, slot, now, io, progressed).config == x.config
  {
    hide RecordHeartbeat, Save, Name;
  }

  lemma ResultConfig(x: Sys, r: TaskResult, now: Time, clock: Clock, io: bool)
    ensures ResultStep(x, r, now, clock, io).config == x.config
  {
    hide ApplyResult, ResultCache, ResultTodo, Save, Resume, Name;
    forall y: Sys, todo, after ensures Resume(y, todo, after).config == y.config { ResumeConfig(y, todo, after); }
  }

  lemma FinishConfig(x: Sys, cause: Text, now1: Time, now2: Time, io: bool)
    requires x.mode.Draining?
    ensures FinishStep(x, cause, now1, now2, io).config == x.config
  {
    hide Ended, SaveOrKeep;
  }

  lemma ResumeConfig(x: Sys, todo: seq<Settle>, after: After)
    ensures Resume(x, todo, after).config == x.config
  {
    hide SortedSeq;
  }

  // ------------------------------------------------------------------
  // A turn of the loop

  predicate LeasedTo(run: RunState, t: Text, workerId: Text) {
    t in run.tasks && run.tasks[t].status.Running? && run.tasks[t].lease.Some?
    && run.tasks[t].lease.value.workerId == workerId
  }

  function CurrentName(x: Sys, slot: nat): Text
    requires slot in x.pool.generations
  {
    Name(x.cache.namespace, x.run.id, WorkerKey(slot, x.pool.generations[slot]))
  }

  lemma HeartbeatOutcome(x: Sys, slot: nat, now: Time)
    requires Good(x) && x.mode.Selecting? && slot in x.pool.generations
    ensures var r := RecordHeartbeat(x.run, CurrentName(x, slot), x.config.leaseDuration, now);
            var y := Step(x, TakeHeartbeat(slot, now, true, true));
            && r.Ok? && y.mode.Top? && y.run == y.stored && y.stored == r.value.(version := x.stored.version + 1)
            && y.pool == x.pool && y.channel == x.channel && y.cache == x.cache && y.config == x.config
  {
    hide Served, Base, ModeOk, RunInv, UniqueLeases, ValidDefinition, Advances, CacheOk, RecordHeartbeat, WorkerIdFor,
         Storable, ChannelInv, AllExpected, ParkedUnderWay, Unfinished, ValidIdentifier, KeysOk, TasksOk;
    SelectRun(x);
    HeartbeatSound(x, slot, now);
    var next := RecordHeartbeat(x.run, CurrentName(x, slot), x.config.leaseDuration, now).value;
    BeatAdvances(x, slot, now);
    SaveOk(x.stored, next, true);
  }

  lemma SelectRunning(x: Sys)
    requires Good(x) && (x.mode.Selecting? || x.mode.Top?)
    ensures x.run.status.RunRunning? && !AnyFailed(x.run)
  {
  }

  lemma BeatAdvances(x: Sys, slot: nat, now: Time)
    requires Good(x) && x.mode.Selecting? && slot in x.pool.generations
    requires RecordHeartbeat(x.run, CurrentName(x, slot), x.config.leaseDuration, now).Ok?
    ensures var next := RecordHeartbeat(x.run, CurrentName(x, slot), x.config.leaseDuration, now).value;
            Advances(x.stored, next) && next.version == x.stored.version
  {
    hide Served, Base, ModeOk, UniqueLeases, ValidDefinition, Advances, CacheOk, WorkerIdFor, ChannelInv, RunInv,
         AllExpected, ParkedUnderWay, Unfinished, ValidIdentifier, KeysOk, TasksOk;
    SelectRun(x);
    SelectRunning(x);
    HeartbeatInv(x.run, CurrentName(x, slot), x.config.leaseDuration, now);
  }

  /** At this reading no lease has run out and no retry is due. */
  predicate QuietAt(run: RunState, now: Time) {
    forall u :: u in run.tasks ==> !Expired(run.tasks[u], NextTimestamp(run, now))
                                   && !Due(run.tasks[u], NextTimestamp(run, now))
  }

  lemma QuietMeans(run: RunState, now: Time)
    requires QuietAt(run, now)
    ensures Recoveries(run, now) == [] && Promoted(run, now, now) == {}
  {
    hide Expired, Due, RecoveredTask;
    assert ExpiredTasks(run, NextTimestamp(run, now)) == {};
    assert SortedSeq({}) == [];
    assert forall u :: u in run.tasks ==> RecoverExpired(run, now).tasks[u] == run.tasks[u];
    assert RecoverExpired(run, now).updatedAt == run.updatedAt;
  }

  /** The messages of a run's ready tasks. */
  ghost function NextMessages(run: RunState): set<Text> {
    set t | t in ReadyIds(run) && t in run.tasks :: NextAttemptId(run.tasks[t])
  }

  /** From one state to the other nothing is published but messages of ready tasks. */
  ghost predicate OnlyReadyPosted(x: Sys, y: Sys) {
    y.channel.bodies.Keys <= x.channel.bodies.Keys + NextMessages(x.run)
  }

  lemma PostedVia(x: Sys, y: Sys, z: Sys)
    requires OnlyReadyPosted(x, y) && OnlyReadyPosted(y, z) && y.run == x.run
    ensures OnlyReadyPosted(x, z)
  {
    hide NextMessages;
  }

  /** When nothing is due, the loop publishes and selects again. */
  lemma CalmTop(x: Sys, now: Time) returns (z: Sys)
    requires Good(x) && x.mode.Top? && Unfinished(x.run) && QuietAt(x.run, now)
    ensures Good(z) && z.mode.Selecting? && SameTraffic(x, z) && Leads(x, z) && z.cache.pending == x.cache.pending
    ensures OnlyReadyPosted(x, z)
  {
    hide Good, Step, Recoveries, Promoted, Gate, Leads, SameTraffic, QuietAt, NextMessages, AllReadable, Advances;
    var e := LoopTop(false, now, now, true);
    var y := Step(x, e);
    QuietMeans(x.run, now);
    TopOutcome(x, now, now);
    NextGood(x, e);
    GateTraffic(x);
    GateList(x);
    if y.mode.Draining? { StillUnfinished(x, y); }
    LeadsNowhere(x);
    LeadsOn(x, x, e);
    z := PublishOut(x, y);
    TrafficVia(x, y, z);
  }

  lemma GateList(x: Sys)
    requires Good(x) && x.mode.Top?
    ensures Gate(x).mode.Publishing? ==> Listed(Gate(x))
    ensures Gate(x).cache == x.cache && Gate(x).channel == x.channel && Gate(x).run == x.run
  {
    hide Base, RunInv, NothingToUnlock, AnyCanceled, AnyFailed, PendingOk, ValidIdentifier, Served;
  }

  /** Publishing ready tasks only. */
  predicate Listed(x: Sys)
    requires x.mode.Publishing?
  {
    forall i :: 0 <= i < |x.mode.ids| ==> x.mode.ids[i] in ReadyIds(x.run)
  }

  lemma StillUnfinished(x: Sys, y: Sys)
    requires Good(y) && y.mode == Draining(Complete) && SameTraffic(x, y)
    ensures !Unfinished(x.run)
  {
    hide Good;
    CompleteMeansDone(y);
  }

  lemma TrafficVia(x: Sys, y: Sys, z: Sys)
    requires SameTraffic(x, y) && SameTraffic(y, z)
    ensures SameTraffic(x, z) && z.run == y.run == x.run
  {
  }

  lemma PublishBodies(y: Sys)
    requires y.mode.Publishing? && Listed(y)
    ensures var z := Step(y, PublishNext(true));
            && OnlyReadyPosted(y, z)
            && z.cache.pending == y.cache.pending && z.run == y.run
            && (z.mode.Publishing? ==> Listed(z))
  {
    hide NextAttemptId, Waiting, Conflicts;
    if y.mode.ids != [] {
      assert y.mode.ids[0] in ReadyIds(y.run);
    }
  }

  lemma {:induction false} PublishOut(x: Sys, y: Sys) returns (z: Sys)
    requires Good(y) && y.mode.Publishing? && Listed(y) && Leads(x, y)
    ensures Good(z) && z.mode.Selecting? && SameTraffic(y, z) && Leads(x, z) && z.cache.pending == y.cache.pending
    ensures OnlyReadyPosted(y, z)
    decreases |y.mode.ids|
  {
    hide Good, Step, Leads, SameTraffic, Listed, OnlyReadyPosted, AllReadable, Advances;
    var e := PublishNext(true);
    PublishOutcome(y);
    PublishBodies(y);
    NextGood(y, e);
    LeadsOn(x, y, e);
    z := Step(y, e);
    if y.mode.ids != [] {
      var w := z;
      z := PublishOut(x, w);
      TrafficVia(y, w, z);
      PostedVia(y, w, z);
    }
  }

  // ------------------------------------------------------------------
  // From creation to the first select

  lemma {:induction false} FirstGeneration(count: nat, slot: nat)
    requires 1 <= slot <= count
    ensures slot in FirstWorkers(count).generations && FirstWorkers(count).generations[slot] == 1
    ensures WorkerKey(slot, 1) in FirstWorkers(count).workers
    ensures forall k :: k in FirstWorkers(count).workers ==> FirstWorkers(count).workers[k].Receiving?
    ensures FirstWorkers(count).results == multiset{} && FirstWorkers(count).claims == multiset{}
    decreases count
  {
    if slot < count {
      FirstGeneration(count - 1, slot);
    } else if count > 1 {
      FirstGeneration(count - 1, 1);
    }
  }

  /** Entering the loop: the run with what it unlocks, and one worker of the first generation in each slot. */
  lemma EnterOutcome(x: Sys, namespace: Text, clock: Clock)
    requires Good(x) && x.mode.Idle? && Startable(x.stored) && ValidIdentifier(namespace)
    ensures var y := Step(x, Begin(namespace, clock, true));
            var next := MarkNewReady(x.stored, SucceededTasks(x.stored), clock);
            && y.mode.Top? && y.run == y.stored && y.pool == FirstWorkers(x.config.workerCount)
            && y.cache.namespace == namespace && y.cache.pending == map[] && y.channel == x.channel
            && y.config == x.config
            && (y.run == next || y.run == next.(version := x.stored.version + 1))
  {
    hide World, ModeOk, RunInv, ValidDefinition, Advances, S.Restore, S.SnapshotOf, Served, UniqueLeases, MarkNewReady,
         NewlyReady, CacheOk, Startable, AnyFailed, AnyCanceled, Unfinished, FirstWorkers, ValidIdentifier;
    RestoredIsStored(x);
    BeginCache(x.stored, namespace, clock);
    BeginSound(x, clock);
    SaveOk(x.stored, MarkNewReady(x.stored, SucceededTasks(x.stored), clock), true);
  }

  const STOPPED: Clock := _ => 0

  /** A clock that reads zero leaves the run's time where it is. */
  lemma {:induction false} StoppedClock(run: RunState, candidates: seq<Text>)
    ensures MarkReady(run, candidates, STOPPED).updatedAt == run.updatedAt
    decreases |candidates|
  {
    if candidates != [] {
      var t := candidates[0];
      var next := if t in run.tasks && run.tasks[t].status.Pending?
                  then var ts := NextTimestamp(run, STOPPED(|candidates|));
                       PutTask(run, t, run.tasks[t].(status := Ready, output := [], error := [], updatedAt := ts), ts)
                  else run;
      StoppedClock(next, candidates[1..]);
    }
  }

  lemma StoppedUnlock(run: RunState)
    ensures MarkNewReady(run, SucceededTasks(run), STOPPED).updatedAt == run.updatedAt
  {
    hide MarkReady, Available, EdgesOf;
    StoppedClock(run, SortedSeq(Available(EdgesOf(run.definition), SucceededTasks(run))));
  }

  lemma UnlockedOnly(run: RunState, t: Text)
    requires t in run.tasks && !run.tasks[t].status.Pending?
    ensures t !in NewlyReady(run, SucceededTasks(run))
  {
  }

  /** Unlocking makes pending tasks ready and leaves everything else, and what is due, as it was. */
  lemma UnlockKeeps(run: RunState)
    ensures var next := MarkNewReady(run, SucceededTasks(run), STOPPED);
            && next.updatedAt == run.updatedAt && next.id == run.id && next.tasks.Keys == run.tasks.Keys
            && (forall u :: u in run.tasks ==>
                  next.tasks[u] == run.tasks[u] || (run.tasks[u].status.Pending? && next.tasks[u].status.Ready?))
            && (QuietAt(run, 0) ==> QuietAt(next, 0))
  {
    hide MarkNewReady, EdgesOf, NewlyReady;
    MarkNewReadyEffect(run, STOPPED);
    StoppedUnlock(run);
    var next := MarkNewReady(run, SucceededTasks(run), STOPPED);
    forall u | u in run.tasks
      ensures next.tasks[u] == run.tasks[u] || (run.tasks[u].status.Pending? && next.tasks[u].status.Ready?)
    {
      if !run.tasks[u].status.Pending? { UnlockedOnly(run, u); }
      assert Marked(run.updatedAt, run.tasks[u], next.tasks[u], u in NewlyReady(run, SucceededTasks(run)));
    }
  }

  /** Loading a run that was only created starts it. */
  lemma LoadStarts(s: Sys)
    requires Good(s) && s.mode.Idle? && s.stored.status.RunPending? && forall t :: t in s.stored.tasks ==>
               s.stored.tasks[t].status.Pending?
    ensures var y := Step(s, Load([], 0, 0, true));
            && y.mode.Idle? && y.channel == s.channel && Startable(y.stored)
            && y.stored.tasks == s.stored.tasks && y.stored.definition == s.stored.definition
  {
    hide Base, ModeOk, RunInv, ValidDefinition, Advances, Served, UniqueLeases, Restored, TransitionRun, FailRun,
         CancelRun, Storable;
    LoadCases(s);
    StoreChanges(s, Load([], 0, 0, true));
    RestoredIsStored(s);
    EndStatus(s.stored, [], 0, 0);
    var run := LoadCandidate(s.stored, [], 0, 0).value;
    LoadSound(s, [], 0, 0);
    LoadAdvances(s);
    InvDefinition(s);
    SaveOk(s.stored, run, true);
    VersionStartable(run, run.version + 1);
  }

  /** Independent tasks are all ready once the loop is entered. */
  lemma AllUnlocked(run: RunState)
    requires forall t :: t in run.tasks ==> run.tasks[t].status.Pending? && t in EdgesOf(run.definition)
                                            && EdgesOf(run.definition)[t] == {}
    ensures var next := MarkNewReady(run, SucceededTasks(run), STOPPED);
            next.tasks.Keys == run.tasks.Keys && forall t :: t in next.tasks ==> next.tasks[t].status.Ready?
  {
    hide MarkNewReady, EdgesOf, NewlyReady;
    MarkNewReadyEffect(run, STOPPED);
    var next := MarkNewReady(run, SucceededTasks(run), STOPPED);
    forall t | t in next.tasks ensures next.tasks[t].status.Ready? {
      RootsUnlocked(run, t);
      assert Marked(run.updatedAt, run.tasks[t], next.tasks[t], t in NewlyReady(run, SucceededTasks(run)));
    }
  }

  /** No task depends on another. */
  ghost predicate Independent(definition: WorkflowDefinition) {
    forall t :: t in EdgesOf(definition) ==> EdgesOf(definition)[t] == {}
  }

  lemma CreatedFacts(s: Sys)
    requires Created(s) && s.config.workerCount >= 1
    ensures Good(s) && s.mode.Idle? && s.stored.status.RunPending? && s.channel == EMPTY_CHANNEL
    ensures s.stored.tasks.Keys == EdgesOf(s.stored.definition).Keys
    ensures forall t :: t in s.stored.tasks ==> s.stored.tasks[t].status.Pending?
  {
    hide ValidIdentifier, ValidDefinition, RunInv;
    CreatedInv(s);
    CreatedServed(s);
  }

  /** Every task is pending or ready, and ready if none depends on another. */
  ghost predicate Opening(run: RunState) {
    && (forall t :: t in run.tasks ==> run.tasks[t].status.Pending? || run.tasks[t].status.Ready?)
    && (Independent(run.definition) ==> forall t :: t in run.tasks ==> run.tasks[t].status.Ready?)
  }

  lemma OpeningVersion(run: RunState, version: nat)
    requires Opening(run)
    ensures Opening(run.(version := version))
  {
  }

  lemma UnlockOpens(run: RunState)
    requires run.tasks.Keys == EdgesOf(run.definition).Keys
    requires forall t :: t in run.tasks ==> run.tasks[t].status.Pending?
    ensures Opening(MarkNewReady(run, SucceededTasks(run), STOPPED))
  {
    hide MarkNewReady, EdgesOf, NewlyReady;
    UnlockKeeps(run);
    MarkNewReadyEffect(run, STOPPED);
    if Independent(run.definition) { AllUnlocked(run); }
  }

  /** Loaded and begun: roots are ready, and all workers are free. */
  lemma Begun(s: Sys) returns (b: Sys)
    requires Created(s) && s.config.workerCount >= 1
    ensures Leads(s, b) && Good(b) && b.mode.Top? && b.config == s.config && b.run.id == s.stored.id
    ensures b.cache.namespace == [97] && b.run.tasks.Keys == s.stored.tasks.Keys && b.channel == EMPTY_CHANNEL
    ensures b.pool == FirstWorkers(s.config.workerCount) && b.cache.pending == map[] && Opening(b.run)
    ensures b.run.definition == s.stored.definition
  {
    hide Good, Step, Leads, Startable, ValidIdentifier, MarkNewReady, FirstWorkers, EdgesOf, Created, Advances, Opening,
         AllReadable, SucceededTasks;
    CreatedFacts(s);
    LetterValid(97);
    var e1, e2 := Load([], 0, 0, true), Begin([97], STOPPED, true);
    var l := Step(s, e1);
    b := Step(l, e2);
    LoadStarts(s);
    NextGood(s, e1);
    ConfigKept(s, e1);
    AdvancesDefinition(s.stored, l.stored);
    EnterOutcome(l, [97], STOPPED);
    UnlockOpens(l.stored);
    var next := MarkNewReady(l.stored, SucceededTasks(l.stored), STOPPED);
    OpeningVersion(next, l.stored.version + 1);
    UnlockKeeps(l.stored);
    NextGood(l, e2);
    AdvancesDefinition(l.stored, b.stored);
    LeadsNowhere(s);
    LeadsOn(s, s, e1);
    LeadsOn(s, l, e2);
  }

  lemma SomeTask(s: Sys) returns (t: Text)
    requires Created(s)
    ensures t in s.stored.tasks
  {
    hide ValidIdentifier, Acyclic;
    t := s.stored.definition.tasks[0].id;
  }

  lemma NewMessage(x: Sys, t: Text)
    requires Good(x) && x.mode.Selecting? && t in x.run.tasks && x.run.tasks[t].status.Ready?
             && x.channel.flight == map[] && x.channel.acked == {}
    ensures Deliverable(x.channel, NextAttemptId(x.run.tasks[t]))
  {
    hide Base, RunInv, NothingToUnlock, AnyCanceled, AnyFailed, PendingOk, ValidIdentifier, Served, NextAttemptId;
    assert t in x.cache.ready;
  }

  /** The first select: roots ready, the messages of ready tasks waiting, every worker free. */
  lemma FirstSelect(s: Sys) returns (x: Sys)
    requires Created(s) && s.config.workerCount >= 1
    ensures Leads(s, x) && Good(x) && x.mode.Selecting? && x.config == s.config && x.run.id == s.stored.id
    ensures x.cache.namespace == [97] && x.run.tasks.Keys == s.stored.tasks.Keys && Opening(x.run)
    ensures x.run.definition == s.stored.definition
    ensures forall t :: t in x.run.tasks && x.run.tasks[t].status.Ready? ==>
              Deliverable(x.channel, NextAttemptId(x.run.tasks[t]))
    ensures x.pool == FirstWorkers(s.config.workerCount) && x.cache.pending == map[]
    ensures x.channel.bodies.Keys <= NextMessages(x.run) && x.channel.flight == map[] && x.channel.acked == {}
  {
    hide Good, Leads, FirstWorkers, NextAttemptId, Created, Deliverable, NextMessages, Opening;
    var b := Begun(s);
    var t := SomeTask(s);
    OpeningQuiet(b.run, t);
    x := CalmTop(b, 0);
    LeadsVia(s, b, x);
    forall t | t in x.run.tasks && x.run.tasks[t].status.Ready?
      ensures Deliverable(x.channel, NextAttemptId(x.run.tasks[t]))
    {
      NewMessage(x, t);
    }
  }

  lemma OpeningQuiet(run: RunState, t: Text)
    requires Opening(run) && t in run.tasks
    ensures QuietAt(run, 0) && Unfinished(run)
  {
    hide Independent;
  }

  // ------------------------------------------------------------------
  // From a message to a worker at work

  /** The attempt a worker has just started is under way. */
  lemma StartedIsCurrent(run: RunState, next: RunState, t: Text)
    requires TasksOk(run) && t in run.tasks && next.id == run.id && t in next.tasks && next.tasks[t].status.Running?
    requires next.tasks[t].attemptCount == run.tasks[t].attemptCount + 1
    ensures Current(next.id, next.tasks, NextAttemptId(run.tasks[t]))
  {
    hide TasksOk, NextAttemptId, TaskOf, NumberOf;
    NextOf(run, t);
  }

  lemma OtherAttempt(run: RunState, t: Text, u: Text)
    requires TasksOk(run) && t in run.tasks && u in run.tasks && t != u
    ensures NextAttemptId(run.tasks[t]) != NextAttemptId(run.tasks[u])
  {
    hide TasksOk, NextAttemptId, TaskOf, NumberOf;
    NextOf(run, t);
    NextOf(run, u);
  }

  lemma SelectStartable(x: Sys)
    requires Good(x) && x.mode.Selecting?
    ensures Startable(x.run) && x.run == x.stored && TasksOk(x.run)
  {
    hide World, RunInv, NothingToUnlock, AnyFailed, AnyCanceled, Unfinished, Served, ValidDefinition, UniqueLeases,
         PendingOk, ValidIdentifier;
    InvHeader(x.stored);
  }

  /** A free worker receives a message and claims it. */
  lemma ClaimSent(x: Sys, k: WorkerKey, a: Text)
    requires x.mode.Selecting? && k in x.pool.workers && x.pool.workers[k].Receiving? && Deliverable(x.channel, a)
    ensures var d := Ticket(a, Count(x.channel, a) + 1);
            Step(Step(x, Receive(k, a)), SendClaim(k))
            == x.(channel := Taken(x.channel, a),
                  pool := x.pool.(workers := x.pool.workers[k := Claiming(d)],
                                  claims := x.pool.claims + multiset{Claim(k, d)}))
  {
  }

  lemma StepClaim(x: Sys, c: Claim, now: Time)
    requires x.mode.Selecting? && c in x.pool.claims && c.ticket.id in x.channel.bodies
    ensures Step(x, TakeClaim(c, now, true))
            == ClaimStep(x.(pool := x.pool.(claims := x.pool.claims - multiset{c})), c, now, true)
  {
    hide ClaimStep;
  }

  /** A delivery of a run with well-formed identifiers names its task. */
  lemma ClaimNames(x: Sys, c: Claim, t: Text)
    requires Good(x) && x.mode.Selecting? && c.ticket.id in x.channel.bodies && TaskOf(x.run.id, c.ticket.id) == t
    requires Readable(x.run.id, t)
    ensures WellFormed(x.run, c.ticket, x.channel.bodies[c.ticket.id]) && x.channel.bodies[c.ticket.id].Dispatch?
    ensures x.channel.bodies[c.ticket.id].taskId == t && t in x.run.tasks
  {
    hide Inv, Served, RunInv, UniqueLeases, ValidDefinition, CacheOk, ChannelInv, Bounded, AllExpected, ParkedUnderWay,
         Unfinished, ValidIdentifier, KeysOk, TasksOk, HeaderOk, WellFormed, TaskOf, Readable, Utf8;
    SelectRun(x);
    InvHeader(x.run);
    DeliveryReadExactly(x.run, x.channel, c.ticket);
    FormedTask(x.run, c.ticket, x.channel.bodies[c.ticket.id]);
  }

  /** Starting the attempt succeeds, and the store takes it, for a worker that holds no lease. */
  lemma StartStored(x: Sys, k: WorkerKey, t: Text)
    requires Good(x) && x.mode.Selecting? && t in x.run.tasks && x.run.tasks[t].status.Ready?
    requires !HoldsLease(x.run, Name(x.cache.namespace, x.run.id, k))
    ensures var r := StartAttempt(x.run, t, Name(x.cache.namespace, x.run.id, k), x.config.leaseDuration, 0);
            && r.Ok? && Save(x.stored, r.value, true) == Some(r.value.(version := x.stored.version + 1))
            && r.value.version == x.stored.version && x.run == x.stored
  {
    hide Inv, Served, RunInv, UniqueLeases, ValidDefinition, Advances, CacheOk, StartAttempt, WorkerIdFor, Storable,
         ChannelInv, AllExpected, ParkedUnderWay, Unfinished, ValidIdentifier, KeysOk, TasksOk, HeaderOk, HoldsLease;
    SelectRun(x);
    SelectRunning(x);
    InvHeader(x.run);
    var name := Name(x.cache.namespace, x.run.id, k);
    NameValid(x.run, x.cache.namespace, k);
    StartsOk(x.run, t, name, x.config.leaseDuration, 0);
    StartAttemptInv(x.run, t, name, x.config.leaseDuration, 0);
    StartKeepsUniqueLeases(x.run, t, name, x.config.leaseDuration, 0);
    StartKeepsHeader(x.run, t, name, x.config.leaseDuration, 0);
    SaveOk(x.stored, StartAttempt(x.run, t, name, x.config.leaseDuration, 0).value, true);
  }

  /** Taking a current worker's claim to a ready task: the run with the attempt leased, and the worker at work. */
  lemma ClaimRuns(x: Sys, c: Claim, t: Text)
    requires Good(x) && x.mode.Selecting? && c in x.pool.claims && c.ticket.id in x.channel.bodies
             && IsCurrent(x.pool, c.worker) && Readable(x.run.id, t)
    requires t in x.run.tasks && x.run.tasks[t].status.Ready? && c.ticket.id == NextAttemptId(x.run.tasks[t])
    requires c.worker in x.pool.workers && x.pool.workers[c.worker] == Claiming(c.ticket)
    requires !HoldsLease(x.run, Name(x.cache.namespace, x.run.id, c.worker))
    ensures var r := StartAttempt(x.run, t, Name(x.cache.namespace, x.run.id, c.worker), x.config.leaseDuration, 0);
            var y := Step(x, TakeClaim(c, 0, true));
            && r.Ok? && y.mode.Top? && y.run == y.stored && y.stored == r.value.(version := x.stored.version + 1)
            && y.channel == x.channel && y.config == x.config && y.cache.namespace == x.cache.namespace
            && y.cache.pending == x.cache.pending
            && y.pool == x.pool.(claims := x.pool.claims - multiset{c},
                                 workers := x.pool.workers[c.worker := Working(c.ticket,
                                                                               Job(t, x.run.tasks[t].taskRunId,
                                                                                             c.ticket.id))])
  {
    hide Good, Step, StartAttempt, Save, HoldsLease, NextAttemptId, WellFormed, TaskOf, Name, TasksOk, Readable, RunInv,
         UniqueLeases, ValidDefinition, CacheOk, ChannelInv, AllExpected, ParkedUnderWay, Unfinished, ValidIdentifier,
         KeysOk;
    SelectRun(x);
    NextOf(x.run, t);
    ClaimNames(x, c, t);
    StartStored(x, c.worker, t);
    StepClaim(x, c, 0);
  }

  /** Taking a current worker's claim to an attempt that is under way parks it. */
  lemma ClaimParks(x: Sys, c: Claim, t: Text)
    requires Good(x) && x.mode.Selecting? && c in x.pool.claims && c.ticket.id in x.channel.bodies
             && IsCurrent(x.pool, c.worker) && Readable(x.run.id, t)
    requires TaskOf(x.run.id, c.ticket.id) == t && t in x.run.tasks && x.run.tasks[t].status.Running?
             && x.run.tasks[t].currentAttemptId == c.ticket.id
    ensures var y := Step(x, TakeClaim(c, 0, true));
            && y.mode.Top? && y.run == x.run && y.stored == x.stored && y.channel == x.channel && y.config == x.config
            && y.cache.namespace == x.cache.namespace
            && y.pool == x.pool.(claims := x.pool.claims - multiset{c})
  {
    hide Good, Step, WellFormed, TaskOf, Readable, StartStep;
    ClaimNames(x, c, t);
    StepClaim(x, c, 0);
  }

  /** The run with one attempt leased. */
  lemma StartedFacts(run: RunState, t: Text, workerId: Text, leaseDuration: int)
    requires TasksOk(run) && QuietAt(run, 0) && StartAttempt(run, t, workerId, leaseDuration, 0).Ok?
    ensures var next := StartAttempt(run, t, workerId, leaseDuration, 0).value;
            && LeasedTo(next, t, workerId) && t in run.tasks && next.id == run.id && QuietAt(next, 0)
            && next.updatedAt == run.updatedAt
            && next.tasks[t].lease.value.expiresAt == next.updatedAt + leaseDuration
            && next.tasks[t].currentAttemptId == NextAttemptId(run.tasks[t])
            && next.tasks[t].attemptCount == run.tasks[t].attemptCount + 1 && next.tasks.Keys == run.tasks.Keys
            && (forall u :: u in run.tasks && u != t ==> u in next.tasks && next.tasks[u] == run.tasks[u])
  {
    hide ValidIdentifier, TaskRunIdFor, AttemptIdFor;
    assert TaskOk(run.id, run.createdAt, MaxAttemptsOf(run.definition, t), t, run.tasks[t]);
  }

  lemma SameQuiet(a: RunState, b: RunState, now: Time)
    requires QuietAt(a, now) && b.tasks == a.tasks && b.updatedAt == a.updatedAt
    ensures QuietAt(b, now)
  {
  }

  /** A worker is free and holds no lease. */
  predicate Free(x: Sys, k: WorkerKey) {
    && IsCurrent(x.pool, k) && k in x.pool.workers && x.pool.workers[k].Receiving?
    && !HoldsLease(x.run, Name(x.cache.namespace, x.run.id, k))
  }

  /** The message of a ready task can be received and read. */
  predicate CanStart(x: Sys, t: Text) {
    && t in x.run.tasks && x.run.tasks[t].status.Ready? && Readable(x.run.id, t)
    && Deliverable(x.channel, NextAttemptId(x.run.tasks[t]))
  }

  /** A worker has taken up a task under a lease that begins now, and all else is as before. */
  ghost predicate TakenUpBy(x: Sys, y: Sys, k: WorkerKey, t: Text) {
    && t in x.run.tasks && LeasedTo(y.run, t, Name(x.cache.namespace, x.run.id, k))
    && y.run.tasks.Keys == x.run.tasks.Keys && y.run.id == x.run.id && y.config == x.config
    && y.cache.namespace == x.cache.namespace && y.cache.pending == x.cache.pending
    && var a := NextAttemptId(x.run.tasks[t]);
       var n := Count(x.channel, a) + 1;
       && y.pool == x.pool.(workers := x.pool.workers[k := Working(Ticket(a, n), Job(t, x.run.tasks[t].taskRunId, a))])
       && y.channel.flight == x.channel.flight[a := n] && y.channel.acked == x.channel.acked
       && x.channel.bodies.Keys <= y.channel.bodies.Keys <= x.channel.bodies.Keys + NextMessages(y.run)
       && y.run.tasks[t].currentAttemptId == a
       && y.run.tasks[t].attemptCount == x.run.tasks[t].attemptCount + 1
       && y.run.tasks[t].lease.value.expiresAt == y.run.updatedAt + x.config.leaseDuration
       && forall u :: u in x.run.tasks && u != t ==> y.run.tasks[u] == x.run.tasks[u]
  }

  /** A free worker takes up a ready task. */
  lemma StartOne(x: Sys, k: WorkerKey, t: Text) returns (y: Sys)
    requires Good(x) && x.mode.Selecting? && QuietAt(x.run, 0) && Free(x, k) && CanStart(x, t)
    ensures Leads(x, y) && Good(y) && y.mode.Selecting? && QuietAt(y.run, 0) && TakenUpBy(x, y, k, t)
  {
    hide Good, Step, Leads, NextAttemptId, Name, StartAttempt, TasksOk, QuietAt, HoldsLease, Unfinished, RunInv,
         ValidDefinition, UniqueLeases, CacheOk, ChannelInv, ValidIdentifier, AllExpected, ParkedUnderWay, KeysOk,
         Readable, NextMessages, AllReadable, Advances;
    var a := NextAttemptId(x.run.tasks[t]);
    var c := Claim(k, Ticket(a, Count(x.channel, a) + 1));
    var e1, e2, e3 := Receive(k, a), SendClaim(k), TakeClaim(c, 0, true);
    var claimed := Step(Step(x, e1), e2);
    var started := Step(claimed, e3);
    ThreeGood(x, e1, e2, e3);
    ClaimSent(x, k, a);
    SelectRun(x);
    ClaimRuns(claimed, c, t);
    var next := StartAttempt(x.run, t, Name(x.cache.namespace, x.run.id, k), x.config.leaseDuration, 0).value;
    StartedFacts(x.run, t, Name(x.cache.namespace, x.run.id, k), x.config.leaseDuration);
    SameQuiet(next, started.run, 0);
    RunningUnfinished(started.run, t);
    y := CalmTop(started, 0);
    LeadsVia(x, started, y);
    assert x.pool.claims + multiset{c} - multiset{c} == x.pool.claims;
  }

  lemma RunningUnfinished(run: RunState, t: Text)
    requires t in run.tasks && run.tasks[t].status.Running?
    ensures Unfinished(run)
  {
  }

  /** With every task ready nobody holds a lease. */
  lemma NoLeaseYet(x: Sys, k: WorkerKey)
    requires Good(x) && x.mode.Selecting? && forall t :: t in x.run.tasks ==> x.run.tasks[t].status.Ready?
    ensures !HoldsLease(x.run, Name(x.cache.namespace, x.run.id, k))
  {
    hide Good, TasksOk, RunInv, ValidDefinition, UniqueLeases, CacheOk, ChannelInv, ValidIdentifier, AllExpected,
         ParkedUnderWay, KeysOk, Unfinished, WorkerIdFor, HoldsLease;
    SelectRun(x);
    NobodyHolds(x.run, Name(x.cache.namespace, x.run.id, k));
  }

  lemma LetterUtf8(x: byte)
    requires x < 0x80
    ensures Utf8([x])
  {
    assert [x][1..] == [];
  }

  // ------------------------------------------------------------------
  // Out of the loop and in again

  /** A loop that shuts down without ending the run leaves the store as it is. */
  lemma {:induction false} Abandoned(x: Sys, y: Sys) returns (z: Sys)
    requires Good(y) && (y.mode == Draining(GiveUp) || y.mode == Draining(Malformed)) && (y == x || Leads(x, y))
    requires y.stored == x.stored && y.config == x.config && y.channel.acked == x.channel.acked
    ensures Good(z) && z.mode.Idle? && z.stored == x.stored && z.config == x.config && Leads(x, z)
    ensures z.channel.acked == x.channel.acked
    decreases |y.pool.workers|
  {
    hide Good, Step, Leads, AllReadable, Advances;
    if y == x { LeadsNowhere(x); }
    if y.pool.workers == map[] {
      var e := Finish([], 0, 0, true);
      z := Step(y, e);
      GiveUpReturns(y);
      NextGood(y, e);
      LeadsOn(x, y, e);
      ConfigKept(y, e);
    } else {
      var k :| k in y.pool.workers;
      AbortShrinks(y, k);
      NextGood(y, Abort(k));
      LeadsOn(x, y, Abort(k));
      ConfigKept(y, Abort(k));
      z := Abandoned(x, Step(y, Abort(k)));
    }
  }

  /** The loop is entered, and turns once: the run with what that unlocks, and free workers of the first generation. */
  lemma Reentered(x: Sys, namespace: Text, t: Text) returns (y: Sys)
    requires Good(x) && x.mode.Idle? && Startable(x.stored) && ValidIdentifier(namespace) && QuietAt(x.stored, 0)
    requires t in x.stored.tasks && !x.stored.tasks[t].status.Pending? && !x.stored.tasks[t].status.Succeeded?
    ensures Leads(x, y) && Good(y) && y.mode.Selecting? && y.config == x.config && QuietAt(y.run, 0)
    ensures y.pool == FirstWorkers(x.config.workerCount) && y.cache.namespace == namespace
    ensures y.run.id == x.stored.id && y.run.updatedAt == x.stored.updatedAt && y.run.tasks.Keys == x.stored.tasks.Keys
    ensures y.run.tasks[t] == x.stored.tasks[t]
    ensures forall u :: u in x.stored.tasks && !x.stored.tasks[u].status.Pending? ==>
              y.run.tasks[u] == x.stored.tasks[u]
    ensures y.channel.flight == x.channel.flight && y.channel.acked == x.channel.acked
    ensures x.channel.bodies.Keys <= y.channel.bodies.Keys <= x.channel.bodies.Keys + NextMessages(y.run)
  {
    hide Good, Step, Leads, QuietAt, Startable, ValidIdentifier, Name, MarkNewReady, FirstWorkers, Unfinished,
         SucceededTasks, NextMessages, AllReadable, Advances;
    var e := Begin(namespace, STOPPED, true);
    var b := Step(x, e);
    EnterOutcome(x, namespace, STOPPED);
    UnlockKeeps(x.stored);
    NextGood(x, e);
    LeadsNowhere(x);
    LeadsOn(x, x, e);
    var next := MarkNewReady(x.stored, SucceededTasks(x.stored), STOPPED);
    SameQuiet(next, b.run, 0);
    OpenUnfinished(b.run, t);
    y := CalmTop(b, 0);
    LeadsVia(x, b, y);
  }

  lemma OpenUnfinished(run: RunState, t: Text)
    requires t in run.tasks && !run.tasks[t].status.Succeeded?
    ensures Unfinished(run)
  {
  }

  // ------------------------------------------------------------------
  // A workflow of one task

  // The task "a" of the workflow "w".
  const SINGLE: WorkflowDefinition := WorkflowDefinition([119], [TaskDefinition([97], [97], [], [97], [], NO_RETRY)])

  const TASK: Text := [97]

  lemma SingleValid()
    ensures ValidDefinition(SINGLE) && Independent(SINGLE) && TaskIds(SINGLE) == {TASK}
  {
    hide ValidIdentifier, OnlySpaces;
    LetterValid(97);
    LetterValid(119);
    assert SINGLE.tasks[0].id == [97];
    assert TaskIds(SINGLE) == {[97]};
    assert StructurallyValid(SINGLE);
    IndependentValid(SINGLE);
  }
}
