/** Nobody waits forever and nothing is a trap: every claim is still to be answered, and from every
reachable state steps without cancellation, failure or crash lead to the end of the run. */
module SchedulerProgress {
  import opened Ids
  import opened Definition
  import opened Graph
  import opened Run
  import opened RunProofs
  import opened Broker
  import opened Channel
  import opened Scheduler
  import opened SchedulerInv
  import opened SchedulerWorkers
  import opened SchedulerCaches
  import opened SchedulerSteps
  import opened SchedulerTheorems
  import opened SchedulerSaves
  import opened SnapshotProofs
  import S = Snapshot

  // ------------------------------------------------------------------
  // Every claim is still to be answered

  predicate InLoop(mode: Mode) {
    mode.Top? || mode.Acking? || mode.Publishing? || mode.Selecting?
  }

  predicate Parked(pending: map<Text, seq<Claim>>, c: Claim) {
    c.ticket.id in pending && c in pending[c.ticket.id]
  }

  /** Where the claim of a waiting worker is: in the channel, parked under its attempt, or about to be acknowledged. */
  predicate Expected(claims: multiset<Claim>, pending: map<Text, seq<Claim>>, mode: Mode, c: Claim) {
    c in claims || Parked(pending, c) || (mode.Acking? && Settle(c.ticket, Some(c.worker)) in mode.todo)
  }

  predicate AllExpected(pool: Pool, pending: map<Text, seq<Claim>>, mode: Mode) {
    forall k :: k in pool.workers && pool.workers[k].Claiming? ==>
      Expected(pool.claims, pending, mode, Claim(k, pool.workers[k].d))
  }

  /** Claims are parked only under attempts that are under way. */
  predicate ParkedUnderWay(cache: Cache) {
    forall a :: a in cache.pending && cache.pending[a] != [] ==> a in cache.inFlight
  }

  /** There is a first slot, nobody waits in vain, and claims are parked for a reason. */
  predicate Served(s: Sys) {
    && s.config.workerCount >= 1
    && (InLoop(s.mode) ==> 1 in s.pool.generations && AllExpected(s.pool, s.cache.pending, s.mode)
                           && ParkedUnderWay(s.cache))
  }

  lemma RespondExpected(pool: Pool, pending: map<Text, seq<Claim>>, mode: Mode, k: WorkerKey, d: Ticket, phase: Phase)
    requires !phase.Claiming?
    requires forall h :: h in pool.workers && pool.workers[h].Claiming?
                         && Claim(h, pool.workers[h].d) != Claim(k, d) ==>
               Expected(pool.claims, pending, mode, Claim(h, pool.workers[h].d))
    ensures AllExpected(Respond(pool, k, d, phase), pending, mode)
  {
  }

  lemma RespawnExpected(pool: Pool, pending: map<Text, seq<Claim>>, mode: Mode, slot: nat)
    requires slot in pool.generations && AllExpected(pool, pending, mode)
    ensures AllExpected(Respawn(pool, slot), pending, mode)
            && Respawn(pool, slot).generations.Keys == pool.generations.Keys
  {
  }

  lemma {:induction false} ReplaceAllExpected(pool: Pool, namespace: Text, runId: Text, recoveries: seq<Recovery>,
                                              pending: map<Text, seq<Claim>>, mode: Mode)
    requires AllExpected(pool, pending, mode)
    ensures AllExpected(ReplaceAll(pool, namespace, runId, recoveries), pending, mode)
    ensures ReplaceAll(pool, namespace, runId, recoveries).generations.Keys == pool.generations.Keys
    decreases |recoveries|
  {
    if recoveries != [] {
      var w := recoveries[0].workerId;
      if exists slot: nat :: Runs(pool, namespace, runId, w, slot) {
        var slot: nat :| Runs(pool, namespace, runId, w, slot)
        && Replace(pool, namespace, runId, w) == Respawn(pool, slot);
        RespawnExpected(pool, pending, mode, slot);
      }
      ReplaceAllExpected(Replace(pool, namespace, runId, w), namespace, runId, recoveries[1..], pending, mode);
    }
  }

  /** Claims parked under attempts that end are the ones acknowledged next. */
  lemma {:induction false} ParkedIsSettled(pending: map<Text, seq<Claim>>, recoveries: seq<Recovery>, c: Claim)
    requires Parked(pending, c) && c.ticket.id in AttemptsOf(recoveries)
    ensures Settle(c.ticket, Some(c.worker)) in PendingForAll(pending, recoveries)
    decreases |recoveries|
  {
    var first := PendingFor(pending, recoveries[0].attemptId);
    if recoveries[0].attemptId == c.ticket.id {
      ParkedFirst(pending, c);
    } else {
      var i :| 0 <= i < |recoveries| && recoveries[i].attemptId == c.ticket.id;
      assert recoveries[1..][i - 1].attemptId == c.ticket.id;
      ParkedIsSettled(pending - {recoveries[0].attemptId}, recoveries[1..], c);
    }
  }

  lemma ParkedFirst(pending: map<Text, seq<Claim>>, c: Claim)
    requires Parked(pending, c)
    ensures Settle(c.ticket, Some(c.worker)) in PendingFor(pending, c.ticket.id)
  {
    var claims := pending[c.ticket.id];
    var i :| 0 <= i < |claims| && claims[i] == c;
    assert SettleClaims(claims)[i] == Settle(c.ticket, Some(c.worker));
  }

  // ------------------------------------------------------------------
  // Every step keeps it so

  lemma OtherMode(pool: Pool, pending: map<Text, seq<Claim>>, mode: Mode, other: Mode)
    requires AllExpected(pool, pending, mode) && (mode.Acking? ==> mode.todo == [])
    ensures AllExpected(pool, pending, other)
  {
  }

  lemma ResumeServed(s: Sys, todo: seq<Settle>, after: After)
    requires s.config.workerCount >= 1 && 1 in s.pool.generations && ParkedUnderWay(s.cache)
    requires AllExpected(s.pool, s.cache.pending, Acking(todo, after))
    ensures Served(Resume(s, todo, after))
  {
    hide AllExpected;
    if todo == [] {
      OtherMode(s.pool, s.cache.pending, Acking(todo, after), Resume(s, todo, after).mode);
    }
  }

  lemma GateServed(s: Sys)
    requires Served(s) && s.mode.Top?
    ensures Served(Gate(s))
  {
    hide AllExpected;
    OtherMode(s.pool, s.cache.pending, Top, Gate(s).mode);
  }

  lemma ParkedMoves(pool: Pool, pending: map<Text, seq<Claim>>, recoveries: seq<Recovery>, after: After)
    requires AllExpected(pool, pending, Top)
    ensures AllExpected(pool, pending - AttemptsOf(recoveries), Acking(PendingForAll(pending, recoveries), after))
  {
    hide AttemptsOf, PendingForAll;
    forall k | k in pool.workers && pool.workers[k].Claiming?
      ensures Expected(pool.claims, pending - AttemptsOf(recoveries), Acking(PendingForAll(pending, recoveries), after),
                       Claim(k, pool.workers[k].d))
    {
      var c := Claim(k, pool.workers[k].d);
      assert Expected(pool.claims, pending, Top, c);
      if Parked(pending, c) && c.ticket.id in AttemptsOf(recoveries) { ParkedIsSettled(pending, recoveries, c); }
    }
  }

  lemma TopServed(s: Sys, now1: Time, now2: Time, io: bool)
    requires Served(s) && s.mode.Top?
    ensures Served(TopStep(s, now1, now2, io))
  {
    hide AllExpected, Recoveries, Promoted, Refreshed, Redispatched, ReplaceAll, PendingForAll, AttemptsOf, Fatal, Save,
         Resume, Gate;
    var recoveries := Recoveries(s.run, now1);
    RefreshDefinition(s.run, now1, now2);
    GateServed(s);
    if recoveries != [] || Promoted(s.run, now1, now2) != {} {
      var next := Refreshed(s.run, now1, now2);
      if Save(s.stored, next, io).Some? {
        var saved := Save(s.stored, next, io).value;
        var after := if Fatal(recoveries) then ToFail else ToGate;
        var todo := PendingForAll(s.cache.pending, recoveries);
        var cache := s.cache.(inFlight := s.cache.inFlight - AttemptsOf(recoveries),
                              ready := s.cache.ready + Redispatched(s.run, now1, next) + Promoted(s.run, now1, now2),
                              pending := s.cache.pending - AttemptsOf(recoveries));
        var pool := ReplaceAll(s.pool, s.cache.namespace, s.run.id, recoveries);
        ParkedMoves(s.pool, s.cache.pending, recoveries, after);
        ReplaceAllExpected(s.pool, s.cache.namespace, s.run.id, recoveries, cache.pending, Acking(todo, after));
        ResumeServed(s.(stored := saved, run := saved, cache := cache, pool := pool), todo, after);
      }
    }
  }

  lemma TailExpected(pool: Pool, pending: map<Text, seq<Claim>>, todo: seq<Settle>, after: After)
    requires todo != [] && AllExpected(pool, pending, Acking(todo, after))
    ensures todo[0].claimant.None? ==> AllExpected(pool, pending, Acking(todo[1..], after))
    ensures todo[0].claimant.Some? ==>
              AllExpected(Respond(pool, todo[0].claimant.value, todo[0].ticket, Receiving), pending,
                          Acking(todo[1..], after))
  {
    forall k | k in pool.workers && pool.workers[k].Claiming? && Settle(pool.workers[k].d, Some(k)) != todo[0]
      ensures Expected(pool.claims, pending, Acking(todo[1..], after), Claim(k, pool.workers[k].d))
    {
      assert Expected(pool.claims, pending, Acking(todo, after), Claim(k, pool.workers[k].d));
    }
  }

  lemma AckServed(s: Sys)
    requires Served(s) && s.mode.Acking? && s.mode.todo != []
    ensures Served(AckStep(s))
  {
    hide AllExpected, Resume, Respond;
    var x := s.mode.todo[0];
    TailExpected(s.pool, s.cache.pending, s.mode.todo, s.mode.after);
    if Live(s.channel, x.ticket) {
      var pool := if x.claimant.Some? then Respond(s.pool, x.claimant.value, x.ticket, Receiving) else s.pool;
      if x.claimant.Some? { RespondKeys(s.pool, x.claimant.value, x.ticket, Receiving); }
      ResumeServed(s.(channel := Acked(s.channel, x.ticket), pool := pool), s.mode.todo[1..], s.mode.after);
    }
  }

  lemma RespondKeys(pool: Pool, k: WorkerKey, d: Ticket, phase: Phase)
    ensures Respond(pool, k, d, phase).generations == pool.generations
  {
  }

  lemma PublishServed(s: Sys, ok: bool)
    requires Served(s) && s.mode.Publishing?
    ensures Served(PublishStep(s, ok))
  {
    hide AllExpected;
    OtherMode(s.pool, s.cache.pending, s.mode, PublishStep(s, ok).mode);
  }

  /** Taking a claim out of the channel leaves the others where they are. */
  lemma OthersExpected(pool: Pool, pending: map<Text, seq<Claim>>, c: Claim)
    requires AllExpected(pool, pending, Selecting)
    ensures forall h :: h in pool.workers && pool.workers[h].Claiming? && Claim(h, pool.workers[h].d) != c ==>
              Expected(pool.claims - multiset{c}, pending, Top, Claim(h, pool.workers[h].d))
  {
    forall h | h in pool.workers && pool.workers[h].Claiming? && Claim(h, pool.workers[h].d) != c
      ensures Expected(pool.claims - multiset{c}, pending, Top, Claim(h, pool.workers[h].d))
    {
      assert Expected(pool.claims, pending, Selecting, Claim(h, pool.workers[h].d));
    }
  }

  /** A duplicate of a running attempt waits under that attempt. */
  lemma ParkServed(pool: Pool, cache: Cache, c: Claim)
    requires ParkedUnderWay(cache) && c.ticket.id in cache.inFlight
    requires forall h :: h in pool.workers && pool.workers[h].Claiming? && Claim(h, pool.workers[h].d) != c ==>
               Expected(pool.claims, cache.pending, Top, Claim(h, pool.workers[h].d))
    ensures var claims := if c.ticket.id in cache.pending then cache.pending[c.ticket.id] else [];
            var pending := cache.pending[c.ticket.id := claims + [c]];
            AllExpected(pool, pending, Top) && ParkedUnderWay(cache.(pending := pending))
  {
  }

  lemma SelectInFlight(s: Sys)
    requires Inv(s) && s.mode.Selecting?
    ensures forall t :: t in s.run.tasks && s.run.tasks[t].status.Running? ==>
              s.run.tasks[t].currentAttemptId in s.cache.inFlight
  {
    hide World, RunInv, ValidDefinition, UniqueLeases, AnyFailed, Unfinished, PendingOk, ValidIdentifier, CacheOk;
    CurrentInFlight(s.run, s.cache);
  }

  /** Whatever answer the claimant gets, the others are still waiting where they were. */
  lemma Answered(s: Sys, c: Claim, phase: Phase)
    requires Served(s) && s.mode.Selecting? && !phase.Claiming?
    ensures var pool := Respond(s.pool.(claims := s.pool.claims - multiset{c}), c.worker, c.ticket, phase);
            AllExpected(pool, s.cache.pending, Top) && pool.generations == s.pool.generations
  {
    hide AllExpected, Expected;
    var pool := s.pool.(claims := s.pool.claims - multiset{c});
    OthersExpected(s.pool, s.cache.pending, c);
    RespondExpected(pool, s.cache.pending, Top, c.worker, c.ticket, phase);
  }

  lemma StartServed(s: Sys, c: Claim, t: Text, now: Time, io: bool)
    requires Served(s) && s.mode.Selecting? && t in s.run.tasks
    ensures Served(StartStep(s.(pool := s.pool.(claims := s.pool.claims - multiset{c})), c.worker, c.ticket, t, now,
                             io))
  {
    hide AllExpected, Save, StartAttempt, Respond, WorkerIdFor;
    Answered(s, c, Working(c.ticket, Job(t, s.run.tasks[t].taskRunId, c.ticket.id)));
  }

  lemma ParkStep(s: Sys, c: Claim)
    requires Served(s) && s.mode.Selecting? && c.ticket.id in s.cache.inFlight
    ensures var claims := if c.ticket.id in s.cache.pending then s.cache.pending[c.ticket.id] else [];
            Served(s.(pool := s.pool.(claims := s.pool.claims - multiset{c}),
                      cache := s.cache.(pending := s.cache.pending[c.ticket.id := claims + [c]]), mode := Top))
  {
    hide AllExpected, Expected, ParkedUnderWay;
    OthersExpected(s.pool, s.cache.pending, c);
    ParkServed(s.pool.(claims := s.pool.claims - multiset{c}), s.cache, c);
  }

  lemma ClaimServed(s: Sys, c: Claim, now: Time, io: bool)
    requires Inv(s) && Served(s) && s.mode.Selecting? && c.ticket.id in s.channel.bodies
    ensures Served(ClaimStep(s.(pool := s.pool.(claims := s.pool.claims - multiset{c})), c, now, io))
  {
    hide Inv, AllExpected, StartStep, WellFormed, Dispatchable, Respond, ParkedUnderWay;
    SelectInFlight(s);
    Answered(s, c, Receiving);
    var body := s.channel.bodies[c.ticket.id];
    if WellFormed(s.run, c.ticket, body) {
      FormedTask(s.run, c.ticket, body);
      var task := s.run.tasks[body.taskId];
      StartServed(s, c, body.taskId, now, io);
      if task.status.Running? && c.ticket.id == task.currentAttemptId { ParkStep(s, c); }
    }
  }

  lemma CurrentInFlight(run: RunState, cache: Cache)
    requires RunInv(run) && CacheOk(run, cache)
    ensures forall t :: t in run.tasks && run.tasks[t].status.Running? ==>
              run.tasks[t].currentAttemptId in cache.inFlight
  {
    InvHeader(run);
    forall t | t in run.tasks && run.tasks[t].status.Running? ensures run.tasks[t].currentAttemptId in cache.inFlight {
      RunningHasAttempt(run, t);
    }
  }

  lemma HeartbeatServed(s: Sys, slot: nat, now: Time, io: bool, progressed: bool)
    requires Served(s) && s.mode.Selecting? && slot in s.pool.generations
    ensures Served(HeartbeatStep(s, slot, now, io, progressed))
  {
    hide AllExpected, Save, RecordHeartbeat;
    OtherMode(s.pool, s.cache.pending, Selecting, Top);
  }

  lemma ResultServed(s: Sys, r: TaskResult, now: Time, clock: Clock, io: bool)
    requires Served(s) && s.mode.Selecting?
    ensures Served(ResultStep(s, r, now, clock, io))
  {
    hide AllExpected, Save, ApplyResult, Resume;
    var a := r.job.attemptId;
    forall after { EndedExpected(s.pool, s.cache.pending, r, s.cache, after); }
    forall applied { ResultCacheParked(s.cache, r.job, applied); }
    var name := Name(s.cache.namespace, s.run.id, r.worker);
    var res := ApplyResult(s.run, name, s.cache.completed + {r.job.taskId}, r, now, clock);
    if res.Ok? {
      var cache := ResultCache(s.cache, r.job, res.value);
      var todo := ResultTodo(s.cache, r);
      hide ResultCache, ResultTodo;
      if res.value.outcome.Ignored? {
        ResumeServed(s.(run := res.value.run, cache := cache), todo, ToTop);
      } else if Save(s.stored, res.value.run, io).Some? {
        var saved := Save(s.stored, res.value.run, io).value;
        ResumeServed(s.(stored := saved, run := saved, cache := cache), todo, if res.value.outcome.Exhausted?
                     then ToFail else ToTop);
      }
    }
  }

  lemma ResultCacheParked(cache: Cache, job: Job, applied: Applied)
    requires ParkedUnderWay(cache)
    ensures ParkedUnderWay(ResultCache(cache, job, applied))
            && ResultCache(cache, job, applied).pending == cache.pending - {job.attemptId}
  {
  }

  lemma EndedExpected(pool: Pool, pending: map<Text, seq<Claim>>, r: TaskResult, cache: Cache, after: After)
    requires AllExpected(pool, pending, Selecting) && cache.pending == pending
    ensures AllExpected(pool, pending - {r.job.attemptId}, Acking(ResultTodo(cache, r), after))
  {
    forall k | k in pool.workers && pool.workers[k].Claiming?
      ensures Expected(pool.claims, pending - {r.job.attemptId}, Acking(ResultTodo(cache, r), after),
                       Claim(k, pool.workers[k].d))
    {
      var c := Claim(k, pool.workers[k].d);
      assert Expected(pool.claims, pending, Selecting, c);
      if Parked(pending, c) && c.ticket.id == r.job.attemptId { ParkedFirst(pending, c); }
    }
  }

  lemma {:induction false} FirstSlot(count: nat)
    requires count >= 1
    ensures 1 in FirstWorkers(count).generations
    ensures forall k :: k in FirstWorkers(count).workers ==> !FirstWorkers(count).workers[k].Claiming?
  {
    FirstWorkersOk(count);
  }

  lemma BeginServed(s: Sys, namespace: Text, clock: Clock, io: bool)
    requires Served(s) && s.mode.Idle?
    ensures Served(BeginRun(s, namespace, clock, io))
  {
    hide Save, Restored, MarkNewReady, NewlyReady, Startable, FirstWorkers;
    FirstSlot(s.config.workerCount);
  }

  lemma WorkerServed(s: Sys, e: Event, k: WorkerKey)
    requires Served(s) && k in s.pool.workers && !s.mode.Idle?
    ensures Served(WorkerStep(s, e, k))
  {
    var next := WorkerStep(s, e, k);
    if InLoop(s.mode) {
      forall h | h in next.pool.workers && next.pool.workers[h].Claiming?
        ensures Expected(next.pool.claims, s.cache.pending, s.mode, Claim(h, next.pool.workers[h].d))
      {
        if h != k || s.pool.workers[k].Claiming? {
          assert Expected(s.pool.claims, s.cache.pending, s.mode, Claim(h, s.pool.workers[h].d));
        }
      }
    }
  }

  lemma ServedStep(s: Sys, e: Event)
    requires Inv(s) && Served(s)
    ensures Served(Step(s, e))
  {
    hide Inv, AllExpected, LoadRun, SaveOrKeep, BeginRun, TopStep, AckStep, PublishStep, ClaimStep, HeartbeatStep,
         ResultStep, FinishStep, WorkerStep;
    match e
    case Begin(namespace, clock, io) => if s.mode.Idle?
                                        && ValidIdentifier(namespace) { BeginServed(s, namespace, clock, io); }
    case LoopTop(canceled, now1, now2, io) => if s.mode.Top? && !canceled { TopServed(s, now1, now2, io); }
    case AckNext => if s.mode.Acking? && s.mode.todo != [] { AckServed(s); }
    case PublishNext(ok) => if s.mode.Publishing? { PublishServed(s, ok); }
    case TakeClaim(c, now, io) => if s.mode.Selecting?
                                  && c.ticket.id in s.channel.bodies { ClaimServed(s, c, now, io); }
    case TakeHeartbeat(slot, now, io, progressed) =>
      if s.mode.Selecting? && slot in s.pool.generations { HeartbeatServed(s, slot, now, io, progressed); }
    case TakeLost(slot) =>
      if s.mode.Selecting? && slot in s.pool.generations {
        OtherMode(s.pool, s.cache.pending, Selecting, Top);
        RespawnExpected(s.pool, s.cache.pending, Top, slot);
      }
    case TakeResult(r, canceled, now, clock, io) =>
      if s.mode.Selecting? && r in s.pool.results && !canceled {
        ResultDropped(s, r);
        ResultServed(s.(pool := s.pool.(results := s.pool.results - multiset{r})), r, now, clock, io);
      }
    case TimerFires => if s.mode.Selecting? { OtherMode(s.pool, s.cache.pending, Selecting, Top); }
    case Finish(cause, now1, now2, io) => FinishIdle(s, cause, now1, now2, io);
    case Receive(k, _) => if !s.mode.Idle? && k in s.pool.workers { WorkerServed(s, e, k); }
    case SendClaim(k) => if !s.mode.Idle? && k in s.pool.workers { WorkerServed(s, e, k); }
    case FinishTask(k, _, _) => if !s.mode.Idle? && k in s.pool.workers { WorkerServed(s, e, k); }
    case Abort(k) => if !s.mode.Idle? && k in s.pool.workers { WorkerServed(s, e, k); }
    case _ =>
  }

  lemma ResultDropped(s: Sys, r: TaskResult)
    requires Served(s)
    ensures Served(s.(pool := s.pool.(results := s.pool.results - multiset{r})))
  {
  }

  lemma FinishIdle(s: Sys, cause: Text, now1: Time, now2: Time, io: bool)
    ensures s.mode.Draining? ==>
              FinishStep(s, cause, now1, now2, io).mode.Idle? && FinishStep(s, cause, now1, now2, io).config == s.config
  {
  }

  /** Throughout any execution of an engine with at least one worker, every worker that waits for an answer
      has its claim in the channel, parked under an attempt that is under way, or about to be acknowledged. */
  lemma {:induction false} ClaimsAreAnswered(s: Sys, events: seq<Event>, i: nat)
    requires Created(s) && s.config.workerCount >= 1 && i <= |events|
    ensures Served(At(s, events, i))
    decreases i
  {
    hide Inv, Step, Served;
    if i == 0 {
      CreatedServed(s);
    } else {
      ClaimsAreAnswered(s, events, i - 1);
      AlwaysInv(s, events, i - 1);
      NextState(s, events, i - 1);
      ServedStep(At(s, events, i - 1), events[i - 1]);
    }
  }

  lemma CreatedServed(s: Sys)
    requires Created(s) && s.config.workerCount >= 1
    ensures Served(s)
  {
  }

  // ------------------------------------------------------------------
  // How many changes a run can still make

  function PotentialOf(run: RunState, t: Text): int
    requires t in run.tasks
  {
    Potential(MaxAttemptsOf(run.definition, t), run.tasks[t])
  }

  function TotalOver(run: RunState, ids: seq<Text>): int
    requires forall x :: x in ids ==> x in run.tasks
  {
    if ids == [] then 0
    else
      assert ids[|ids| - 1] in ids;
      TotalOver(run, ids[..|ids| - 1]) + PotentialOf(run, ids[|ids| - 1])
  }

  ghost function Total(run: RunState): int {
    TotalOver(run, SortedSeq(run.tasks.Keys))
  }

  lemma {:induction false} TotalOverFalls(a: RunState, b: RunState, ids: seq<Text>, t: Text)
    requires Advances(a, b) && forall x :: x in ids ==> x in a.tasks
    ensures forall x :: x in ids ==> x in b.tasks
    ensures TotalOver(b, ids) <= TotalOver(a, ids)
    ensures t in ids && (b.tasks[t].status != a.tasks[t].status
                         || b.tasks[t].attemptCount != a.tasks[t].attemptCount) ==>
              TotalOver(b, ids) < TotalOver(a, ids)
  {
    if ids != [] {
      var front, last := ids[..|ids| - 1], ids[|ids| - 1];
      assert last in ids;
      TotalOverFalls(a, b, front, t);
      assert Advance(MaxAttemptsOf(a.definition, last), a.tasks[last], b.tasks[last]);
      assert forall x :: x in ids <==> x in front || x == last;
    }
  }

  lemma {:induction false} TotalOverNonNegative(run: RunState, ids: seq<Text>)
    requires TasksOk(run) && forall x :: x in ids ==> x in run.tasks
    ensures TotalOver(run, ids) >= 0
  {
    if ids != [] {
      var last := ids[|ids| - 1];
      assert last in ids;
      TotalOverNonNegative(run, ids[..|ids| - 1]);
      assert TaskOk(run.id, run.createdAt, MaxAttemptsOf(run.definition, last), last, run.tasks[last]);
    }
  }

  lemma TotalFalls(a: RunState, b: RunState, t: Text)
    requires Advances(a, b)
    ensures Total(b) <= Total(a)
    ensures t in a.tasks && (b.tasks[t].status != a.tasks[t].status
                             || b.tasks[t].attemptCount != a.tasks[t].attemptCount) ==>
              Total(b) < Total(a)
  {
    TotalOverFalls(a, b, SortedSeq(a.tasks.Keys), t);
  }

  // ------------------------------------------------------------------
  // Reaching the end

  /** No cancellation, no failing storage or broker, no crash. */
  predicate Healthy(e: Event) {
    match e
    case Load(_, _, _, io) => io
    case CancelIdle(_, _, _, _) => false
    case Begin(_, _, io) => io
    case LoopTop(canceled, _, _, io) => !canceled && io
    case PublishNext(ok) => ok
    case TakeClaim(_, _, io) => io
    case TakeHeartbeat(_, _, io, progressed) => io && progressed
    case TakeBrokerError => false
    case TakeResult(_, canceled, _, _, io) => !canceled && io
    case ContextDone => false
    case Finish(_, _, _, io) => io
    case Crash => false
    case _ => true
  }

  ghost predicate CanEnd(x: Sys) {
    exists es: seq<Event> :: (forall e :: e in es ==> Healthy(e)) && Steps(x, es).stored.status.Finished()
  }

  lemma {:induction false} StepsFront(x: Sys, e: Event, es: seq<Event>)
    ensures Steps(x, [e] + es) == Steps(Step(x, e), es)
    decreases |es|
  {
    hide Step;
    if es == [] {
      assert [e] + es == [e] && [e][..0] == [];
    } else {
      StepsFront(x, e, es[..|es| - 1]);
      assert ([e] + es)[..|es|] == [e] + es[..|es| - 1];
    }
  }

  lemma StepCanEnd(x: Sys, e: Event)
    requires Healthy(e) && CanEnd(Step(x, e))
    ensures CanEnd(x)
  {
    hide Step;
    var es: seq<Event> :| (forall f :: f in es ==> Healthy(f)) && Steps(Step(x, e), es).stored.status.Finished();
    StepsFront(x, e, es);
    assert forall f :: f in [e] + es ==> Healthy(f);
  }

  lemma EndedCanEnd(x: Sys)
    requires x.stored.status.Finished()
    ensures CanEnd(x)
  {
    assert Steps(x, []) == x;
  }

  ghost predicate Good(x: Sys) {
    Inv(x) && Served(x)
  }

  lemma NextGood(x: Sys, e: Event)
    requires Good(x)
    ensures Good(Step(x, e)) && Advances(x.stored, Step(x, e).stored) && Total(Step(x, e).stored) <= Total(x.stored)
    ensures AllReadable(Step(x, e).stored) <==> AllReadable(x.stored)
  {
    hide Inv, Served, Step, Advances, Total, AllReadable;
    StepFine(x, e);
    ServedStep(x, e);
    TotalFalls(x.stored, Step(x, e).stored, []);
    ReadableAdvances(x.stored, Step(x, e).stored);
  }

  lemma ReadableAdvances(a: RunState, b: RunState)
    requires Advances(a, b)
    ensures AllReadable(b) <==> AllReadable(a)
  {
    hide Advance, Readable;
  }

  /** The induction hypothesis: what has fewer changes left can end. */
  ghost predicate Below(n: int) {
    forall y :: Good(y) && AllReadable(y.stored) && Total(y.stored) < n ==> CanEnd(y)
  }

  lemma FallsToEnd(x: Sys, e: Event, t: Text)
    requires Good(x) && AllReadable(x.stored) && Healthy(e) && Below(Total(x.stored))
    requires t in x.stored.tasks && t in Step(x, e).stored.tasks
    requires Step(x, e).stored.tasks[t].status != x.stored.tasks[t].status
    ensures CanEnd(x)
  {
    hide Good, Step, Advances, Total, CanEnd, Healthy, AllReadable;
    NextGood(x, e);
    TotalFalls(x.stored, Step(x, e).stored, t);
    StepCanEnd(x, e);
  }

  // What an event does where it can happen

  lemma StepFinish(x: Sys)
    requires x.mode.Draining? && x.pool.workers == map[]
    ensures Step(x, Finish([], 0, 0, true)) == FinishStep(x, [], 0, 0, true)
  {
  }

  lemma StepTop(x: Sys, now1: Time, now2: Time)
    requires x.mode.Top?
    ensures Step(x, LoopTop(false, now1, now2, true)) == TopStep(x, now1, now2, true)
  {
  }

  lemma StepPublish(x: Sys)
    requires x.mode.Publishing?
    ensures Step(x, PublishNext(true)) == PublishStep(x, true)
  {
  }

  // Shutting down

  lemma GoodGoal(x: Sys)
    requires Good(x) && AllReadable(x.stored)
    ensures x.mode != Draining(Malformed) && x.mode != Draining(Stalled)
  {
    hide Inv, Served, AllReadable;
    DrainGoal(x);
  }

  lemma FinishEnds(x: Sys)
    requires Good(x) && AllReadable(x.stored) && x.mode.Draining? && !x.mode.goal.GiveUp? && x.pool.workers == map[]
    ensures Step(x, Finish([], 0, 0, true)).stored.status.Finished()
    ensures x.mode.goal.Complete? ==> Step(x, Finish([], 0, 0, true)).stored.status.RunSucceeded?
  {
    hide World, RunInv, HeaderOk, TasksOk, Advances, ValidDefinition, UniqueLeases, Ended, Served, AnyFailed,
         Unfinished, AllDone, Step, Storable, AllReadable;
    StepFinish(x);
    GoodGoal(x);
    EndedOk(x.run, x.mode.goal, [], 0, 0);
    var run := Ended(x.run, x.mode.goal, [], 0, 0).value;
    InvHeader(run);
    AdvancesTransitive(x.stored, x.run, run);
    FinishedLeases(run);
    AdvancesDefinition(x.stored, run);
    SaveOk(x.stored, run, true);
    if x.mode.goal.Complete? { CompletedStatus(x.run); }
  }

  lemma CompletedStatus(run: RunState)
    requires RunInv(run) && run.status.RunRunning? && AllDone(run)
    ensures Ended(run, Complete, [], 0, 0).Ok? && Ended(run, Complete, [], 0, 0).value.status.RunSucceeded?
  {
    hide RunInv, Advances, FailRun;
    SucceedRunInv(run, 0);
  }

  lemma AbortShrinks(x: Sys, k: WorkerKey)
    requires x.mode.Draining? && k in x.pool.workers
    ensures var y := Step(x, Abort(k));
            y.mode == x.mode && y.stored == x.stored && y.pool.workers == x.pool.workers - {k}
            && |y.pool.workers| < |x.pool.workers| && y.channel.acked == x.channel.acked
  {
    var w := x.pool.workers;
    assert w.Keys == (w - {k}).Keys + {k};
    assert |(w - {k}).Keys| < |w.Keys|;
    assert |w| == |w.Keys| && |w - {k}| == |(w - {k}).Keys|;
  }

  lemma {:induction false} DrainEnds(x: Sys)
    requires Good(x) && AllReadable(x.stored) && x.mode.Draining? && !x.mode.goal.GiveUp?
    ensures CanEnd(x)
    decreases |x.pool.workers|
  {
    hide Good, Step, CanEnd, AllReadable, Advances;
    if x.pool.workers == map[] {
      FinishEnds(x);
      EndedCanEnd(Step(x, Finish([], 0, 0, true)));
      StepCanEnd(x, Finish([], 0, 0, true));
    } else {
      var k :| k in x.pool.workers;
      AbortShrinks(x, k);
      NextGood(x, Abort(k));
      DrainEnds(Step(x, Abort(k)));
      StepCanEnd(x, Abort(k));
    }
  }

  lemma GiveUpReturns(x: Sys)
    requires (x.mode == Draining(GiveUp) || x.mode == Draining(Malformed)) && x.pool.workers == map[]
    ensures var y := Step(x, Finish([], 0, 0, true)); y.mode.Idle? && y.stored == x.stored && y.channel == x.channel
  {
  }

  lemma {:induction false} GiveUpEnds(x: Sys)
    requires Good(x) && AllReadable(x.stored) && x.mode == Draining(GiveUp) && Below(Total(x.stored))
    ensures CanEnd(x)
    decreases |x.pool.workers|
  {
    hide Good, Step, CanEnd, Below, Total, AllReadable, Advances;
    if x.pool.workers == map[] {
      var e := Finish([], 0, 0, true);
      GiveUpReturns(x);
      NextGood(x, e);
      IdleEnds(Step(x, e));
      StepCanEnd(x, e);
    } else {
      var k :| k in x.pool.workers;
      AbortShrinks(x, k);
      NextGood(x, Abort(k));
      GiveUpEnds(Step(x, Abort(k)));
      StepCanEnd(x, Abort(k));
    }
  }

  // Starting

  /** What loading hands to the store, by case. */
  lemma LoadCases(x: Sys)
    requires Inv(x) && x.mode.Idle? && !x.stored.status.Finished()
    ensures var c := LoadCandidate(x.stored, [], 0, 0);
            if AnyFailed(x.stored) || AnyCanceled(x.stored) then c.Some? && c.value.status.Finished()
            else if x.stored.status.RunPending? then c.Some? && Startable(c.value)
            else c.None? && Startable(x.stored)
  {
    hide World, ModeOk, RunInv, ValidDefinition, Advances, Restored, UniqueLeases, AnyFailed, AnyCanceled, Unfinished,
         CancelUnfinished;
    RestoredIsStored(x);
    PendingHasNothing(x.stored);
    if AnyFailed(x.stored) {
      FailedIsRunning(x.stored);
      UnfinishedExists(x.stored);
      FailRunInv(x.stored, [], 0, 0);
    } else if AnyCanceled(x.stored) {
      assert forall t :: t in x.stored.tasks ==> !x.stored.tasks[t].status.Failed? by { NoneFailed(x.stored); }
      CancelRunInv(x.stored, [], 0, 0);
    }
  }

  lemma NoneFailed(run: RunState)
    requires !AnyFailed(run)
    ensures forall t :: t in run.tasks ==> !run.tasks[t].status.Failed?
  {
  }

  lemma LoadOutcome(x: Sys)
    requires Good(x) && x.mode.Idle? && !x.stored.status.Finished()
    ensures var y := Step(x, Load([], 0, 0, true));
            y.mode.Idle? && (y.stored.status.Finished() || Startable(y.stored))
  {
    hide Base, ModeOk, RunInv, ValidDefinition, Advances, Served, UniqueLeases, LoadCandidate, AnyFailed, AnyCanceled,
         LoadRun, Storable, Step;
    LoadCases(x);
    StoreChanges(x, Load([], 0, 0, true));
    StepLoad(x);
    if LoadCandidate(x.stored, [], 0, 0).Some? {
      var run := LoadCandidate(x.stored, [], 0, 0).value;
      LoadSound(x, [], 0, 0);
      LoadAdvances(x);
      InvDefinition(x);
      SaveOk(x.stored, run, true);
      VersionStartable(run, run.version + 1);
    }
  }

  lemma StepLoad(x: Sys)
    requires x.mode.Idle?
    ensures Step(x, Load([], 0, 0, true)).mode.Idle?
  {
  }

  lemma VersionStartable(run: RunState, version: nat)
    ensures Startable(run.(version := version)) <==> Startable(run)
  {
  }

  lemma PendingHasNothing(run: RunState)
    ensures TransitionRun(run, RunRunning, 0).Ok? ==>
              var next := TransitionRun(run, RunRunning, 0).value;
              && next.status.RunRunning? && (AnyFailed(next) <==> AnyFailed(run))
                 && (AnyCanceled(next) <==> AnyCanceled(run))
  {
  }

  lemma LoadAdvances(x: Sys)
    requires Inv(x) && x.mode.Idle? && LoadCandidate(x.stored, [], 0, 0).Some?
    ensures var run := LoadCandidate(x.stored, [], 0, 0).value;
            Advances(x.stored, run) && run.version == x.stored.version
  {
    hide World, ModeOk, RunInv, ValidDefinition, Advances, S.Restore, S.SnapshotOf, FailRun, CancelRun, TransitionRun,
         Unfinished, UniqueLeases;
    RestoredIsStored(x);
    EndKeepsVersion(x.stored, [], 0, 0);
    if AnyFailed(x.stored) {
      FailedIsRunning(x.stored);
      UnfinishedExists(x.stored);
      FailRunInv(x.stored, [], 0, 0);
    } else if AnyCanceled(x.stored) {
      CancelRunInv(x.stored, [], 0, 0);
    } else {
      StartRunInv(x.stored, 0);
    }
  }

  lemma BeginOutcome(x: Sys, clock: Clock)
    requires Good(x) && x.mode.Idle? && Startable(x.stored)
    ensures Step(x, Begin([97], clock, true)).mode.Top?
  {
    hide World, ModeOk, RunInv, ValidDefinition, Advances, S.Restore, S.SnapshotOf, Served, UniqueLeases, MarkNewReady,
         NewlyReady, CacheOk, Startable, AnyFailed, AnyCanceled, Unfinished, FirstWorkers;
    LetterValid(97);
    RestoredIsStored(x);
    BeginCache(x.stored, [97], clock);
    BeginSound(x, clock);
    SaveOk(x.stored, MarkNewReady(x.stored, SucceededTasks(x.stored), clock), true);
  }

  lemma IdleEnds(x: Sys)
    requires Good(x) && AllReadable(x.stored) && x.mode.Idle? && Below(Total(x.stored))
    ensures CanEnd(x)
  {
    hide Good, Step, CanEnd, Below, Total, Startable, AllReadable, Advances;
    if x.stored.status.Finished() {
      EndedCanEnd(x);
    } else {
      var e1 := Load([], 0, 0, true);
      var y := Step(x, e1);
      LoadOutcome(x);
      NextGood(x, e1);
      if y.stored.status.Finished() {
        EndedCanEnd(y);
      } else {
        var clock: Clock := _ => 0;
        var e2 := Begin([97], clock, true);
        BeginOutcome(y, clock);
        NextGood(y, e2);
        BelowLess(Total(x.stored), Total(Step(y, e2).stored));
        TopEnds(Step(y, e2));
        StepCanEnd(y, e2);
      }
      StepCanEnd(x, e1);
    }
  }

  lemma BelowLess(n: int, m: int)
    requires Below(n) && m <= n
    ensures Below(m)
  {
  }

  // The loop

  /** The top of the loop either changes a task or goes on to publish or complete. */
  lemma TopOutcome(x: Sys, now1: Time, now2: Time)
    requires Good(x) && x.mode.Top?
    ensures var y := Step(x, LoopTop(false, now1, now2, true));
            if Recoveries(x.run, now1) == [] && Promoted(x.run, now1, now2) == {} then
              y == Gate(x) && (y.mode == Draining(Complete) || y.mode.Publishing?)
            else exists t :: t in x.stored.tasks && t in y.stored.tasks
                             && y.stored.tasks[t].status != x.stored.tasks[t].status
  {
    hide World, RunInv, TasksOk, HeaderOk, ValidDefinition, Advances, Served, UniqueLeases, CacheOk, PendingOk,
         ValidIdentifier, Recoveries, Promoted, Refreshed, Resume, ReplaceAll, PendingForAll, Redispatched, AttemptsOf,
         Fatal, AnyFailed, Step, Storable;
    StepTop(x, now1, now2);
    var next := Refreshed(x.run, now1, now2);
    if Recoveries(x.run, now1) != [] || Promoted(x.run, now1, now2) != {} {
      InvHeader(x.run);
      TopSound(x, now1, now2);
      RefreshCache(x.run, now1, now2, x.cache);
      SaveOk(x.stored, next, true);
      var t := RefreshChanges(x.run, now1, now2);
      var saved := Save(x.stored, next, true).value;
      forall s: Sys, todo, after ensures Resume(s, todo, after).stored == s.stored { ResumeKeeps(s, todo, after); }
      assert saved.tasks[t].status != x.stored.tasks[t].status;
    }
  }

  lemma RefreshChanges(run: RunState, now1: Time, now2: Time) returns (t: Text)
    requires TasksOk(run) && (Recoveries(run, now1) != [] || Promoted(run, now1, now2) != {})
    ensures t in run.tasks && t in Refreshed(run, now1, now2).tasks
            && Refreshed(run, now1, now2).tasks[t].status != run.tasks[t].status
  {
    if Recoveries(run, now1) != [] {
      RecoveryReport(run, now1, 0);
      t :| t in ExpiredTasks(run, NextTimestamp(run, now1));
    } else {
      t :| t in Promoted(run, now1, now2);
    }
    if run.tasks[t].status.Running? { RunningHasAttempt(run, t); }
    RefreshedTask(run, now1, now2, t);
  }

  lemma TopEnds(x: Sys)
    requires Good(x) && AllReadable(x.stored) && x.mode.Top? && Below(Total(x.stored))
    ensures CanEnd(x)
  {
    hide Good, Step, CanEnd, Below, Total, Recoveries, Promoted, Gate, AllReadable, Advances;
    var e := LoopTop(false, 0, 0, true);
    var y := Step(x, e);
    TopOutcome(x, 0, 0);
    NextGood(x, e);
    if Recoveries(x.run, 0) == [] && Promoted(x.run, 0, 0) == {} {
      GateStored(x);
      if y.mode.Draining? { DrainEnds(y); } else { PublishingEnds(y); }
      StepCanEnd(x, e);
    } else {
      var t :| t in x.stored.tasks && t in y.stored.tasks && y.stored.tasks[t].status != x.stored.tasks[t].status;
      FallsToEnd(x, e, t);
    }
  }

  /** What publishing leaves alone. */
  predicate SameTraffic(x: Sys, y: Sys) {
    && y.stored == x.stored && y.run == x.run && y.pool == x.pool && y.config == x.config
       && y.cache.namespace == x.cache.namespace
    && y.channel.flight == x.channel.flight && y.channel.acked == x.channel.acked
       && y.channel.counts == x.channel.counts
    && x.channel.bodies.Keys <= y.channel.bodies.Keys
  }

  lemma PublishOutcome(x: Sys)
    requires Good(x) && x.mode.Publishing?
    ensures var y := Step(x, PublishNext(true));
            SameTraffic(x, y) && y.mode == (if x.mode.ids == [] then Selecting else Publishing(x.mode.ids[1..]))
  {
    hide World, RunInv, TasksOk, HeaderOk, ValidDefinition, Advances, Served, UniqueLeases, PendingOk, ValidIdentifier,
         AnyFailed, AnyCanceled, NothingToUnlock, Waiting, NextAttemptId, Unfinished, Bounded, Needed, BodyOk, Step;
    StepPublish(x);
    InvHeader(x.run);
    if x.mode.ids == [] {
      NeverStalled(x.run, x.cache);
    } else {
      var t := x.mode.ids[0];
      assert t in ReadyIds(x.run);
      NextIsBounded(x.run, t);
      WorldChannel(x.stored, x.cache.namespace, x.channel, x.pool, x.issued);
      NoConflict(x.run, x.channel, NextAttemptId(x.run.tasks[t]),
                 DispatchRead(x.run.id, t, x.run.tasks[t].taskRunId, NextAttemptId(x.run.tasks[t])));
    }
  }

  lemma NoConflict(run: RunState, channel: Channel, a: Text, body: Payload)
    requires ChannelInv(run.id, run.tasks, channel) && BodyOk(run.id, a, body)
    ensures !Conflicts(channel, a, body)
  {
  }

  lemma {:induction false} PublishingEnds(x: Sys)
    requires Good(x) && AllReadable(x.stored) && x.mode.Publishing? && Below(Total(x.stored))
    ensures CanEnd(x)
    decreases |x.mode.ids|
  {
    hide Good, Step, CanEnd, Below, Total, AllReadable, Advances;
    var e := PublishNext(true);
    PublishOutcome(x);
    NextGood(x, e);
    if x.mode.ids == [] { SelectingEnds(Step(x, e)); } else { PublishingEnds(Step(x, e)); }
    StepCanEnd(x, e);
  }

  lemma AckOutcome(x: Sys)
    requires Good(x) && x.mode.Acking?
    ensures x.mode.todo != []
    ensures var y := Step(x, AckNext);
            && y.stored == x.stored
            && (y.mode.Acking? ==> |y.mode.todo| < |x.mode.todo|)
            && !y.mode.Idle? && !y.mode.Selecting?
  {
    hide Base, RunInv, CacheOk, TodoOk, AnyFailed, Unfinished, Served, PendingOk, ValidIdentifier, Respond, Live, Acked;
    if Live(x.channel, x.mode.todo[0].ticket) {
      forall s: Sys, todo, after ensures Resume(s, todo, after).stored == s.stored { ResumeKeeps(s, todo, after); }
    }
  }

  lemma {:induction false} AckingEnds(x: Sys)
    requires Good(x) && AllReadable(x.stored) && x.mode.Acking? && Below(Total(x.stored))
    ensures CanEnd(x)
    decreases |x.mode.todo|
  {
    hide Good, Step, CanEnd, Below, Total, AllReadable, Advances;
    AckOutcome(x);
    NextGood(x, AckNext);
    var y := Step(x, AckNext);
    match y.mode {
      case Acking(_, _) => AckingEnds(y);
      case Draining(GiveUp) => GiveUpEnds(y);
      case Draining(_) => DrainEnds(y);
      case Top => TopEnds(y);
      case Publishing(_) => PublishingEnds(y);
    }
    StepCanEnd(x, AckNext);
  }

  // At a select point

  lemma NothingDue(run: RunState, now1: Time, now2: Time)
    requires !Waiting(run)
    ensures Recoveries(run, now1) == [] && Promoted(run, now1, now2) == {}
  {
    assert ExpiredTasks(run, NextTimestamp(run, now1)) == {};
    assert SortedSeq({}) == [];
  }

  /** Moments late enough for a lease to have run out or a retry to be due. */
  lemma SomethingDue(run: RunState) returns (now1: Time, now2: Time)
    requires TasksOk(run) && Waiting(run)
    ensures Recoveries(run, now1) != [] || Promoted(run, now1, now2) != {}
  {
    var t :| t in run.tasks && (run.tasks[t].status.Running? || run.tasks[t].status.RetryWaiting?);
    assert TaskOk(run.id, run.createdAt, MaxAttemptsOf(run.definition, t), t, run.tasks[t]);
    now1, now2 := 0, run.tasks[t].nextAttemptAt;
    if run.tasks[t].status.Running? {
      now1 := run.tasks[t].lease.value.expiresAt;
      assert t in ExpiredTasks(run, NextTimestamp(run, now1));
      ReportedAttempt(run, now1, t);
    } else {
      assert RecoverExpired(run, now1).tasks[t] == run.tasks[t];
      assert t in Promoted(run, now1, now2);
    }
  }

  lemma {:induction false} QuietPublish(x: Sys) returns (z: Sys)
    requires Good(x) && x.mode.Publishing?
    ensures Good(z) && z.mode.Selecting? && SameTraffic(x, z) && (CanEnd(z) ==> CanEnd(x))
    decreases |x.mode.ids|
  {
    hide Good, Step, CanEnd, AllReadable, Advances;
    var e := PublishNext(true);
    PublishOutcome(x);
    NextGood(x, e);
    z := Step(x, e);
    if x.mode.ids != [] { z := QuietPublish(z); }
    if CanEnd(Step(x, e)) { StepCanEnd(x, e); }
  }

  lemma GateTraffic(x: Sys)
    ensures SameTraffic(x, Gate(x))
  {
  }

  lemma CompleteMeansDone(x: Sys)
    requires Good(x) && x.mode == Draining(Complete)
    ensures AllDone(x.run)
  {
  }

  lemma QuietTop(x: Sys) returns (z: Sys)
    requires Good(x) && x.mode.Top? && !Waiting(x.run) && Unfinished(x.run)
    ensures Good(z) && z.mode.Selecting? && SameTraffic(x, z) && (CanEnd(z) ==> CanEnd(x))
  {
    hide Good, Step, CanEnd, Recoveries, Promoted, Waiting, Gate, AllReadable, Advances;
    var e := LoopTop(false, 0, 0, true);
    var y := Step(x, e);
    NothingDue(x.run, 0, 0);
    TopOutcome(x, 0, 0);
    NextGood(x, e);
    GateTraffic(x);
    if y.mode.Draining? { CompleteMeansDone(y); }
    z := QuietPublish(y);
    if CanEnd(y) { StepCanEnd(x, e); }
  }

  /** A ready task of a run with nobody at work, and the attempt it waits for. */
  ghost predicate Idles(x: Sys, t: Text) {
    x.mode.Selecting? && !Waiting(x.run) && t in x.run.tasks && x.run.tasks[t].status.Ready?
  }

  lemma SelectServed(x: Sys)
    requires Inv(x) && Served(x) && (x.mode.Selecting? || x.mode.Top?)
    ensures x.run == x.stored && TasksOk(x.stored) && RunInv(x.stored) && ValidDefinition(x.stored.definition)
            && UniqueLeases(x.stored)
    ensures CacheOk(x.run, x.cache) && ParkedUnderWay(x.cache) && 1 in x.pool.generations
            && ValidIdentifier(x.cache.namespace)
    ensures ChannelInv(x.stored.id, x.stored.tasks, x.channel) && KeysOk(x.pool.generations, x.pool.workers)
    ensures x.config.leaseDuration > 0 && AllExpected(x.pool, x.cache.pending, x.mode)
    ensures x.mode.Selecting? ==> Unfinished(x.run)
  {
    hide RunInv, TasksOk, HeaderOk, ValidDefinition, UniqueLeases, CacheOk, ParkedUnderWay, ValidIdentifier, ChannelInv,
         KeysOk, AllExpected, Unfinished, AnyFailed, AnyCanceled;
    InvHeader(x.stored);
  }

  lemma SelectRun(x: Sys)
    requires Good(x) && (x.mode.Selecting? || x.mode.Top?)
    ensures x.run == x.stored && TasksOk(x.stored) && RunInv(x.stored) && ValidDefinition(x.stored.definition)
            && UniqueLeases(x.stored)
    ensures CacheOk(x.run, x.cache) && ParkedUnderWay(x.cache) && 1 in x.pool.generations
            && ValidIdentifier(x.cache.namespace)
    ensures ChannelInv(x.stored.id, x.stored.tasks, x.channel) && KeysOk(x.pool.generations, x.pool.workers)
    ensures x.config.leaseDuration > 0 && AllExpected(x.pool, x.cache.pending, x.mode)
    ensures x.mode.Selecting? ==> Unfinished(x.run)
  {
    hide Inv, Served;
    SelectServed(x);
  }

  lemma GoodParts(x: Sys)
    requires Good(x)
    ensures Inv(x) && Served(x)
  {
  }

  lemma NobodyHolds(run: RunState, workerId: Text)
    requires TasksOk(run) && !Waiting(run)
    ensures !HoldsLease(run, workerId)
  {
    forall t | t in run.tasks ensures run.tasks[t].lease.None? {
      assert TaskOk(run.id, run.createdAt, MaxAttemptsOf(run.definition, t), t, run.tasks[t]);
    }
  }

  /** Taking the claim of a current worker to a waiting attempt starts it. */
  lemma StartFalls(x: Sys, c: Claim, t: Text)
    requires Good(x) && AllReadable(x.stored) && Idles(x, t) && Below(Total(x.stored))
    requires c in x.pool.claims && c.ticket.id in x.channel.bodies && IsCurrent(x.pool, c.worker)
    requires c.ticket.id == NextAttemptId(x.run.tasks[t])
    ensures CanEnd(x)
  {
    hide Inv, CanEnd, Below, Total, RunInv, TasksOk, ValidDefinition, UniqueLeases, Served, World, ChannelInv, Waiting,
         NextAttemptId, StartAttempt, HoldsLease, CacheOk, AllExpected, Expected, KeysOk, ValidIdentifier, WorkerIdFor,
         Step;
    SelectRun(x);
    InvHeader(x.run);
    DeliveryReadExactly(x.run, x.channel, c.ticket);
    NextOf(x.run, t);
    var name := Name(x.cache.namespace, x.run.id, c.worker);
    NameValid(x.run, x.cache.namespace, c.worker);
    StartsOk(x.run, t, name, x.config.leaseDuration, 0);
    NobodyHolds(x.run, name);
    StartStores(x, c, t);
    FallsToEnd(x, TakeClaim(c, 0, true), t);
  }

  lemma StartStores(x: Sys, c: Claim, t: Text)
    requires Inv(x) && x.mode.Selecting? && Starts(x, c) && x.channel.bodies[c.ticket.id].taskId == t
             && x.run == x.stored
    requires t in x.run.tasks && x.run.tasks[t].status.Ready?
    requires StartAttempt(x.run, t, Name(x.cache.namespace, x.run.id, c.worker), x.config.leaseDuration, 0).Ok?
    requires !HoldsLease(x.stored, Name(x.cache.namespace, x.run.id, c.worker))
    ensures var y := Step(x, TakeClaim(c, 0, true)); t in y.stored.tasks && y.stored.tasks[t].status.Running?
  {
    hide Inv, HoldsLease, UniqueLeases, RunInv, ValidDefinition, S.Restore, S.SnapshotOf, WellFormed, Dispatchable,
         Step, WorkerIdFor;
    ClaimCandidate(x, c, 0, true);
    StoreChanges(x, TakeClaim(c, 0, true));
    InvDefinition(x);
    RestoreRoundTrip(Candidate(x, TakeClaim(c, 0, true)).value);
  }

  lemma InvDefinition(x: Sys)
    requires Inv(x)
    ensures ValidDefinition(x.stored.definition)
  {
  }

  /** A message that can be received: a fresh worker takes it and starts. */
  lemma DeliverableEnds(x: Sys, t: Text)
    requires Good(x) && AllReadable(x.stored) && Idles(x, t) && Below(Total(x.stored))
             && Deliverable(x.channel, NextAttemptId(x.run.tasks[t]))
    ensures CanEnd(x)
  {
    hide Good, CanEnd, Below, Total, RunInv, TasksOk, ValidDefinition, UniqueLeases, ChannelInv, Waiting, NextAttemptId,
         CacheOk, AllExpected, Unfinished, ValidIdentifier, Step, ParkedUnderWay, AllReadable, Advances;
    SelectRun(x);
    var a := NextAttemptId(x.run.tasks[t]);
    var y := Step(x, TakeLost(1));
    NextGood(x, TakeLost(1));
    LostOutcome(x);
    var z := QuietTop(y);
    var k := WorkerKey(1, x.pool.generations[1] + 1);
    var u := Step(z, Receive(k, a));
    NextGood(z, Receive(k, a));
    ReceiveOutcome(z, k, a);
    var d := Ticket(a, Count(z.channel, a) + 1);
    var v := Step(u, SendClaim(k));
    NextGood(u, SendClaim(k));
    SendOutcome(u, k, d);
    StartFalls(v, Claim(k, d), t);
    StepCanEnd(u, SendClaim(k));
    StepCanEnd(z, Receive(k, a));
    StepCanEnd(x, TakeLost(1));
  }

  lemma LostOutcome(x: Sys)
    requires x.mode.Selecting? && 1 in x.pool.generations
    ensures var y := Step(x, TakeLost(1));
            var k := WorkerKey(1, x.pool.generations[1] + 1);
            && y.mode.Top? && y.stored == x.stored && y.run == x.run && y.channel == x.channel
            && k in y.pool.workers && y.pool.workers[k].Receiving? && IsCurrent(y.pool, k)
  {
  }

  lemma ReceiveOutcome(x: Sys, k: WorkerKey, a: Text)
    requires x.mode.Selecting? && k in x.pool.workers && x.pool.workers[k].Receiving? && Deliverable(x.channel, a)
    ensures var y := Step(x, Receive(k, a));
            && y.mode.Selecting? && y.stored == x.stored && y.run == x.run && y.channel.bodies == x.channel.bodies
            && k in y.pool.workers && y.pool.workers[k] == Holding(Ticket(a, Count(x.channel, a) + 1))
            && y.pool.generations == x.pool.generations
  {
  }

  lemma SendOutcome(x: Sys, k: WorkerKey, d: Ticket)
    requires x.mode.Selecting? && k in x.pool.workers && x.pool.workers[k] == Holding(d)
    ensures var y := Step(x, SendClaim(k));
            && y.mode.Selecting? && y.stored == x.stored && y.run == x.run && y.channel == x.channel
            && Claim(k, d) in y.pool.claims && y.pool.generations == x.pool.generations
            && k in y.pool.workers && y.pool.workers[k] == Claiming(d)
  {
  }

  lemma StaleOutcome(x: Sys, c: Claim)
    requires x.mode.Selecting? && c in x.pool.claims && c.ticket.id in x.channel.bodies && !IsCurrent(x.pool, c.worker)
    requires Live(x.channel, c.ticket) && c.ticket.id !in x.channel.acked
    ensures var y := Step(x, TakeClaim(c, 0, true));
            && y.mode.Top? && y.stored == x.stored && y.run == x.run && Deliverable(y.channel, c.ticket.id)
  {
  }

  lemma LiveMessage(id: Text, tasks: map<Text, TaskRun>, channel: Channel, d: Ticket)
    requires ChannelInv(id, tasks, channel) && Live(channel, d)
    ensures d.id in channel.bodies && d.id !in channel.acked
  {
  }

  lemma ClaimEnds(x: Sys, c: Claim, t: Text)
    requires Good(x) && AllReadable(x.stored) && Idles(x, t) && Below(Total(x.stored))
    requires c in x.pool.claims && c.ticket.id == NextAttemptId(x.run.tasks[t]) && Live(x.channel, c.ticket)
    ensures CanEnd(x)
  {
    hide Good, CanEnd, Below, Total, RunInv, TasksOk, ValidDefinition, UniqueLeases, Waiting, NextAttemptId, CacheOk,
         AllExpected, Unfinished, ValidIdentifier, Step, ParkedUnderWay, ChannelInv, KeysOk, AllReadable, Advances;
    SelectRun(x);
    LiveMessage(x.stored.id, x.stored.tasks, x.channel, c.ticket);
    if IsCurrent(x.pool, c.worker) {
      StartFalls(x, c, t);
    } else {
      var e := TakeClaim(c, 0, true);
      StaleOutcome(x, c);
      NextGood(x, e);
      var z := QuietTop(Step(x, e));
      DeliverableEnds(z, t);
      StepCanEnd(x, e);
    }
  }

  /** The claim to a needed message waits in the channel: it is not parked, since parked claims belong to running
      attempts. */
  lemma ClaimInChannel(x: Sys, k: WorkerKey, t: Text)
    requires Inv(x) && Served(x) && x.mode.Selecting? && t in x.run.tasks && x.run.tasks[t].status.Ready?
    requires k in x.pool.workers && x.pool.workers[k].Claiming?
             && x.pool.workers[k].d.id == NextAttemptId(x.run.tasks[t])
    ensures Claim(k, x.pool.workers[k].d) in x.pool.claims
  {
    hide Inv, Served, RunInv, ValidDefinition, UniqueLeases, ChannelInv, NextAttemptId, ValidIdentifier, KeysOk;
    SelectServed(x);
    var c := Claim(k, x.pool.workers[k].d);
    assert Expected(x.pool.claims, x.cache.pending, Selecting, c);
    if Parked(x.cache.pending, c) {
      NextOf(x.run, t);
      RunningIsCurrent(x.run, c.ticket.id);
    }
  }

  lemma SelectingEnds(x: Sys)
    requires Good(x) && AllReadable(x.stored) && x.mode.Selecting? && Below(Total(x.stored))
    ensures CanEnd(x)
  {
    hide Good, CanEnd, Below, Total, Step, Recoveries, Promoted, TasksOk, RunInv, ValidDefinition, CacheOk, ChannelInv,
         Waiting, UniqueLeases, ParkedUnderWay, ValidIdentifier, KeysOk, AllExpected, Unfinished, AllReadable, Advances;
    SelectRun(x);
    if Waiting(x.run) {
      var now1, now2 := SomethingDue(x.run);
      var y := Step(x, TimerFires);
      NextGood(x, TimerFires);
      TimerOutcome(x);
      TopOutcome(y, now1, now2);
      var e := LoopTop(false, now1, now2, true);
      var t :| t in y.stored.tasks && t in Step(y, e).stored.tasks
      && Step(y, e).stored.tasks[t].status != y.stored.tasks[t].status;
      FallsToEnd(y, e, t);
      StepCanEnd(x, TimerFires);
    } else {
      ReadyEnds(x);
    }
  }

  lemma TimerOutcome(x: Sys)
    requires x.mode.Selecting?
    ensures Step(x, TimerFires) == x.(mode := Top)
  {
  }

  lemma SomeReady(x: Sys) returns (t: Text)
    requires Good(x) && AllReadable(x.stored) && x.mode.Selecting? && !Waiting(x.run)
    ensures Idles(x, t) && Waits(x, NextAttemptId(x.run.tasks[t]))
  {
    hide RunInv, ValidDefinition, World, UniqueLeases, AnyFailed, NothingToUnlock, AnyCanceled, PendingOk,
         ValidIdentifier, Served, Waiting, Unfinished, NextAttemptId, Waits;
    NeverStalled(x.run, x.cache);
    t :| t in x.cache.ready;
    assert t in ReadyIds(x.run);
    ReadyIsWaiting(x, t);
  }

  lemma ReadyEnds(x: Sys)
    requires Good(x) && AllReadable(x.stored) && x.mode.Selecting? && !Waiting(x.run) && Below(Total(x.stored))
    ensures CanEnd(x)
  {
    hide Good, CanEnd, Below, Total, Step, Waiting, NextAttemptId, AllReadable, Advances;
    var t := SomeReady(x);
    var a := NextAttemptId(x.run.tasks[t]);
    if Deliverable(x.channel, a) {
      DeliverableEnds(x, t);
    } else {
      var d := Ticket(a, x.channel.flight[a]);
      var k :| k in x.pool.workers && Holds(x.pool.workers[k], d);
      if x.pool.workers[k] == Claiming(d) {
        GoodParts(x);
        ClaimInChannel(x, k, t);
        ClaimEnds(x, Claim(k, d), t);
      } else {
        SendOutcome(x, k, d);
        NextGood(x, SendClaim(k));
        ClaimEnds(Step(x, SendClaim(k)), Claim(k, d), t);
        StepCanEnd(x, SendClaim(k));
      }
    }
  }

  // ------------------------------------------------------------------
  // All states

  lemma Ends(x: Sys)
    requires Good(x) && AllReadable(x.stored) && Below(Total(x.stored))
    ensures CanEnd(x)
  {
    hide Good, CanEnd, Below, Total;
    match x.mode
    case Idle => IdleEnds(x);
    case Top => TopEnds(x);
    case Acking(_, _) => AckingEnds(x);
    case Publishing(_) => PublishingEnds(x);
    case Selecting => SelectingEnds(x);
    case Draining(goal) => if goal.GiveUp? { GiveUpEnds(x); } else { DrainEnds(x); }
  }

  lemma {:induction false} AllBelow(n: nat)
    ensures Below(n)
  {
    hide Good, AllReadable, CanEnd, Total;
    if n > 0 { AllBelow(n - 1); }
    forall y | Good(y) && AllReadable(y.stored) && Total(y.stored) < n ensures CanEnd(y) {
      if n == 0 {
        GoodTotal(y);
      } else if Total(y.stored) == n - 1 {
        Ends(y);
      }
    }
  }

  lemma GoodTotal(x: Sys)
    requires Good(x)
    ensures Total(x.stored) >= 0
  {
    InvTasks(x);
    TotalOverNonNegative(x.stored, SortedSeq(x.stored.tasks.Keys));
  }

  /** From every state of every execution of an engine with a worker, on a run whose identifiers are well-formed, steps
      free of cancellation, failure and crash lead to a finished run: no interleaving paints the scheduler into a
      corner. */
  lemma AlwaysCanEnd(s: Sys, events: seq<Event>, i: nat)
    requires Created(s) && s.config.workerCount >= 1 && i <= |events| && AllReadable(s.stored)
    ensures CanEnd(At(s, events, i))
  {
    hide Inv, Served, Step, CanEnd, Total, Readable, Created;
    SameTasks(s, events, i);
    AlwaysInv(s, events, i);
    ClaimsAreAnswered(s, events, i);
    var x := At(s, events, i);
    GoodTotal(x);
    AllBelow(Total(x.stored));
    Ends(x);
  }

  /** At every select point the message of each ready task that can be read can be received, or a worker holds it and
      has yet to claim it, or that worker's claim is in the channel. */
  lemma WorkIsInReach(s: Sys, events: seq<Event>, i: nat, t: Text)
    requires Created(s) && s.config.workerCount >= 1 && i <= |events| && At(s, events, i).mode.Selecting?
    requires Readable(s.stored.id, t)
    requires t in At(s, events, i).stored.tasks && At(s, events, i).stored.tasks[t].status.Ready?
    ensures InReach(At(s, events, i), NextAttemptId(At(s, events, i).stored.tasks[t]))
  {
    hide Inv, Served, Step, NextAttemptId, Waits, InReach, Readable, Created;
    SameTasks(s, events, i);
    AlwaysInv(s, events, i);
    ClaimsAreAnswered(s, events, i);
    ReadyInReach(At(s, events, i), t);
  }

  ghost predicate InReach(x: Sys, a: Text) {
    || Deliverable(x.channel, a)
    || (a in x.channel.flight && exists k :: k in x.pool.workers
                                             && x.pool.workers[k] == Holding(Ticket(a, x.channel.flight[a])))
    || (a in x.channel.flight && exists k :: k in x.pool.workers
                                             && Claim(k, Ticket(a, x.channel.flight[a])) in x.pool.claims)
  }

  lemma ReadyInReach(x: Sys, t: Text)
    requires Inv(x) && Served(x) && x.mode.Selecting? && t in x.stored.tasks && x.stored.tasks[t].status.Ready?
    requires Readable(x.stored.id, t)
    ensures InReach(x, NextAttemptId(x.stored.tasks[t]))
  {
    hide Inv, Served, NextAttemptId, RunInv, TasksOk, ValidDefinition, UniqueLeases, CacheOk, ParkedUnderWay,
         ValidIdentifier, ChannelInv, KeysOk, AllExpected, Unfinished, Readable;
    SelectServed(x);
    ReadyIsWaiting(x, t);
    var a := NextAttemptId(x.stored.tasks[t]);
    if !Deliverable(x.channel, a) {
      var d := Ticket(a, x.channel.flight[a]);
      var k :| k in x.pool.workers && Holds(x.pool.workers[k], d);
      if x.pool.workers[k] == Claiming(d) { ClaimInChannel(x, k, t); }
    }
  }
}
