/** Claims and results travel on separate channels. A worker that has finished may have its next claim read
before its result, and then the second lease is refused and the loop gives up. */
module SchedulerRace {
  import opened Ids
  import opened Graph
  import opened Run
  import opened Channel
  import opened Scheduler
  import opened SchedulerInv
  import opened SchedulerCaches
  import opened SchedulerSteps
  import opened SchedulerSaves
  import opened SchedulerProgress
  import opened SchedulerPaths

  lemma {:induction false} FourSteps(x: Sys, a: Event, b: Event, c: Event, d: Event)
    ensures Steps(x, [a, b, c, d]) == Step(Step(Step(Step(x, a), b), c), d)
  {
    hide Step;
    assert [a, b, c, d][..3] == [a, b, c] && [a, b, c][..2] == [a, b] && [a, b][..1] == [a] && [a][..0] == [];
    assert Steps(x, [a]) == Step(x, a);
    assert Steps(x, [a, b]) == Step(Steps(x, [a]), b);
    assert Steps(x, [a, b, c]) == Step(Steps(x, [a, b]), c);
  }

  lemma FinishOutcome(x: Sys, k: WorkerKey, output: Text, error: Option<TaskError>)
    requires x.mode.Selecting? && k in x.pool.workers && x.pool.workers[k].Working?
    ensures var y := Step(x, FinishTask(k, output, error));
            && y.mode.Selecting? && y.stored == x.stored && y.run == x.run && y.channel == x.channel
               && y.cache == x.cache && y.config == x.config
            && k in y.pool.workers && y.pool.workers[k].Receiving? && y.pool.generations == x.pool.generations
            && TaskResult(k, x.pool.workers[k].job, output, error, x.pool.workers[k].d) in y.pool.results
  {
  }

  /** Receiving and claiming the next message touches neither store, run, caches nor results. */
  lemma NextClaim(x: Sys, k: WorkerKey, a: Text)
    requires x.mode.Selecting? && k in x.pool.workers && x.pool.workers[k].Receiving? && Deliverable(x.channel, a)
    ensures var c := Claim(k, Ticket(a, Count(x.channel, a) + 1));
            var y := Step(Step(x, Receive(k, a)), SendClaim(k));
            && y.mode.Selecting? && y.stored == x.stored && y.run == x.run && y.cache == x.cache && y.config == x.config
            && y.channel.bodies == x.channel.bodies && y.pool.generations == x.pool.generations
               && y.pool.results == x.pool.results
            && c in y.pool.claims
  {
  }

  /** The worker at work holds the lease of its attempt. */
  lemma AtWork(x: Sys, k: WorkerKey)
    requires Inv(x) && k in x.pool.workers && x.pool.workers[k].Working?
    requires Current(x.stored.id, x.stored.tasks, x.pool.workers[k].job.attemptId)
    ensures HoldsLease(x.stored, Name(x.cache.namespace, x.stored.id, k))
  {
    hide ModeOk, StoredOk, ChannelInv, KeysOk, ClaimsOk, ResultsOk, NoOrphan, IssuedOk, ValidDefinition, Name;
    var job := x.pool.workers[k].job;
    assert PhaseOk(x.stored.id, x.stored.tasks, x.cache.namespace, x.channel.bodies, k, x.pool.workers[k]);
    assert x.stored.tasks[job.taskId].lease.Some?;
  }

  lemma ClaimStarts(x: Sys, c: Claim, t: Text, now: Time)
    requires Inv(x) && x.mode.Selecting? && c in x.pool.claims && c.ticket.id in x.channel.bodies
             && IsCurrent(x.pool, c.worker)
    requires t in x.run.tasks && x.run.tasks[t].status.Ready? && c.ticket.id == NextAttemptId(x.run.tasks[t])
             && Readable(x.run.id, t)
    ensures Candidate(x, TakeClaim(c, now, true)).Some?
  {
    hide World, RunInv, TasksOk, HeaderOk, ValidDefinition, UniqueLeases, CacheOk, PendingOk, ValidIdentifier,
         AnyFailed, Unfinished, ChannelInv, NextAttemptId, WorkerIdFor, StartAttempt, Readable, Utf8, TaskOf;
    InvHeader(x.run);
    WorldChannel(x.stored, x.cache.namespace, x.channel, x.pool, x.issued);
    DeliveryReadExactly(x.run, x.channel, c.ticket);
    NextOf(x.run, t);
    NameValid(x.run, x.cache.namespace, c.worker);
    StartsOk(x.run, t, Name(x.cache.namespace, x.run.id, c.worker), x.config.leaseDuration, now);
  }

  /** From any state in which a worker is at work and another task's message waits: finish, receive, claim, and have
      the claim read first. The loop gives up with the store as it was. */
  lemma ClaimBeforeResult(x: Sys, k: WorkerKey, t: Text, output: Text, error: Option<TaskError>, now: Time)
    requires Inv(x) && x.mode.Selecting? && IsCurrent(x.pool, k) && k in x.pool.workers && x.pool.workers[k].Working?
    requires Current(x.stored.id, x.stored.tasks, x.pool.workers[k].job.attemptId)
    requires t in x.run.tasks && x.run.tasks[t].status.Ready? && Deliverable(x.channel, NextAttemptId(x.run.tasks[t]))
             && Readable(x.run.id, t)
    ensures var a := NextAttemptId(x.run.tasks[t]);
            var claim := TakeClaim(Claim(k, Ticket(a, Count(x.channel, a) + 1)), now, true);
            var y := Steps(x, [FinishTask(k, output, error), Receive(k, a), SendClaim(k), claim]);
            y.mode == Draining(GiveUp) && y.stored == x.stored
  {
    hide Inv, Step, Current, NextAttemptId, HoldsLease, Candidate, Readable;
    var a := NextAttemptId(x.run.tasks[t]);
    var c := Claim(k, Ticket(a, Count(x.channel, a) + 1));
    var e1, e2, e3, e4 := FinishTask(k, output, error), Receive(k, a), SendClaim(k), TakeClaim(c, now, true);
    FourSteps(x, e1, e2, e3, e4);
    AtWork(x, k);
    FinishOutcome(x, k, output, error);
    var y := Step(x, e1);
    NextClaim(y, k, a);
    StepFine(x, e1);
    StepFine(y, e2);
    StepFine(Step(y, e2), e3);
    var z := Step(Step(y, e2), e3);
    RunIsStored(x);
    ClaimStarts(z, c, t, now);
    ClaimOutcome(z, c, now);
  }

  lemma RunIsStored(x: Sys)
    requires Inv(x) && x.mode.Selecting?
    ensures x.run == x.stored
  {
  }

  lemma FaultFree(x: Sys, es: seq<Event>)
    requires |es| == 4 && Healthy(es[0]) && Healthy(es[1]) && Healthy(es[2]) && Healthy(es[3])
    ensures Leads(x, Steps(x, es))
  {
    hide Healthy, Steps;
    forall e | e in es ensures Healthy(e) {
      var i :| 0 <= i < |es| && es[i] == e;
    }
  }

  lemma OtherWaits(x: Sys, m: Sys, k: WorkerKey, t: Text, u: Text)
    requires TasksOk(x.run) && TakenUpBy(x, m, k, t) && CanStart(x, u) && t != u
    ensures CanStart(m, u) && m.run.tasks[u] == x.run.tasks[u]
  {
    hide TasksOk, NextAttemptId, Readable, NextMessages, LeasedTo;
    OtherAttempt(x.run, t, u);
  }

  /** A free worker and two messages waiting: four steps after the first task has started the loop gives up, and leaves
      that task in the store under the worker's lease. */
  lemma RaceGivesUp(x: Sys, k: WorkerKey, t: Text, u: Text) returns (y: Sys)
    requires Good(x) && x.mode.Selecting? && QuietAt(x.run, 0) && Free(x, k)
    requires t != u && CanStart(x, t) && CanStart(x, u)
    ensures Leads(x, y) && Good(y) && y.mode == Draining(GiveUp) && y.config == x.config && y.stored.id == x.run.id
    ensures LeasedTo(y.stored, t, Name(x.cache.namespace, x.run.id, k)) && Startable(y.stored) && QuietAt(y.stored, 0)
    ensures y.stored.tasks[t].lease.value.expiresAt == y.stored.updatedAt + y.config.leaseDuration
  {
    hide Good, Inv, Step, Steps, Leads, NextAttemptId, Name, TasksOk, QuietAt, Current, Startable, Deliverable,
         Readable, NextMessages, Free;
    FreeFacts(x, k);
    SelectStartable(x);
    var m := StartOne(x, k, t);
    OtherWaits(x, m, k, t, u);
    SelectStartable(m);
    StartedIsCurrent(x.run, m.run, t);
    GoodParts(m);
    ClaimBeforeResult(m, k, u, [], None, 0);
    var a := NextAttemptId(m.run.tasks[u]);
    var es := [FinishTask(k, [], None), Receive(k, a), SendClaim(k),
               TakeClaim(Claim(k, Ticket(a, Count(m.channel, a) + 1)), 0, true)];
    y := Steps(m, es);
    FaultFree(m, es);
    LeadsVia(x, m, y);
    LeadsKeeps(x, y);
  }

  lemma FreeFacts(x: Sys, k: WorkerKey)
    requires Free(x, k)
    ensures IsCurrent(x.pool, k) && k in x.pool.workers
  {
  }

  lemma PairReadable(x: Sys)
    requires x.run.id == [114] && x.run.tasks.Keys == {[97], [98]}
    ensures AllReadable(x.run)
  {
    LetterUtf8(97);
    LetterUtf8(98);
    LetterUtf8(114);
  }

  /** From creation to the loop giving up, without a fault, on any engine: the claim to the second task is read before
      the result of the first. */
  lemma PairGivesUp(config: Config) returns (s: Sys, y: Sys)
    requires 0 < config.heartbeatInterval < config.leaseDuration && config.workerCount >= 1
    ensures Created(s) && s.config == config && Leads(s, y) && Good(y) && y.mode == Draining(GiveUp)
    ensures LeasedTo(y.stored, [97], Name([97], y.stored.id, WorkerKey(1, 1)))
  {
    hide Created, Leads, Good, Startable, Name, NextAttemptId, Deliverable, QuietAt, FirstWorkers, NextMessages,
         Readable, Independent, HoldsLease, ValidDefinition, EdgesOf, ValidIdentifier;
    LetterValid(114);
    PairValid();
    s := CreatedRun([114], PAIR, config);
    PairIndependent();
    var x := FirstSelect(s);
    OpeningQuiet(x.run, [97]);
    PairReadable(x);
    FirstGeneration(config.workerCount, 1);
    var t: Text, u: Text := [97], [98];
    assert t[0] != u[0];
    NoLeaseYet(x, WorkerKey(1, 1));
    y := RaceGivesUp(x, WorkerKey(1, 1), t, u);
    LeadsVia(s, x, y);
  }

  lemma PairIndependent()
    ensures Independent(PAIR)
  {
    PairValid();
  }
}
