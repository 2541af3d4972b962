/** Runs whose identifiers are not well-formed UTF-8. Their dispatches travel as JSON and come back changed, so no task
with such an identifier is ever started, and its message is lost. */
module SchedulerMalformed {
  import opened Ids
  import opened Edges
  import opened Definition
  import opened Graph
  import opened Run
  import opened RunProofs
  import opened Channel
  import opened Scheduler
  import opened SchedulerInv
  import opened SchedulerCaches
  import opened SchedulerSteps
  import opened SchedulerTheorems
  import opened SchedulerSaves
  import opened SchedulerProgress
  import opened SchedulerPaths

  // ------------------------------------------------------------------
  // Only a claim counts an attempt up

  predicate SameCount(a: RunState, b: RunState, t: Text) {
    t in a.tasks && t in b.tasks && b.tasks[t].attemptCount == a.tasks[t].attemptCount
  }

  lemma EndCounts(run: RunState, cause: Text, now1: Time, now2: Time, t: Text)
    requires t in run.tasks
    ensures FailRun(run, cause, now1, now2).Ok? ==> SameCount(run, FailRun(run, cause, now1, now2).value, t)
    ensures CancelRun(run, cause, now1, now2).Ok? ==> SameCount(run, CancelRun(run, cause, now1, now2).value, t)
    ensures forall target :: TransitionRun(run, target, now1).Ok? ==>
              SameCount(run, TransitionRun(run, target, now1).value, t)
  {
  }

  lemma UnlockCounts(run: RunState, completed: set<Text>, clock: Clock, t: Text)
    requires t in run.tasks
    ensures SameCount(run, MarkNewReady(run, completed, clock), t)
  {
    hide Available, EdgesOf, MarkReady;
    MarkCounts(run, SortedSeq(Available(EdgesOf(run.definition), completed)), clock, t);
  }

  lemma MarkCounts(run: RunState, candidates: seq<Text>, clock: Clock, t: Text)
    requires t in run.tasks
    ensures SameCount(run, MarkReady(run, candidates, clock), t)
  {
    hide MarkReady;
    MarkReadyEffect(run, candidates, clock);
    assert Marked(run.updatedAt, run.tasks[t], MarkReady(run, candidates, clock).tasks[t],
                  run.tasks[t].status.Pending? && t in candidates);
  }

  lemma CompleteCounts(run: RunState, u: Text, taskRunId: Text, workerId: Text, attemptId: Text, output: Text,
                       error: Option<TaskError>, now: Time, t: Text)
    requires t in run.tasks
    ensures var r := CompleteAttempt(run, u, taskRunId, workerId, attemptId, output, error, now);
            r.Ok? ==> SameCount(run, r.value.0, t)
  {
    hide MayComplete, RetryDelay, EffectiveMaxAttempts, PolicyOf;
  }

  lemma ResultCounts(run: RunState, workerId: Text, completed: set<Text>, r: TaskResult, now: Time, clock: Clock,
                     t: Text)
    requires t in run.tasks
    ensures var a := ApplyResult(run, workerId, completed, r, now, clock); a.Ok? ==> SameCount(run, a.value.run, t)
  {
    hide CompleteAttempt, MarkNewReady, NewlyReady;
    CompleteCounts(run, r.job.taskId, r.job.taskRunId, workerId, r.job.attemptId, r.output, r.error, now, t);
    var c := CompleteAttempt(run, r.job.taskId, r.job.taskRunId, workerId, r.job.attemptId, r.output, r.error, now);
    if c.Ok? { UnlockCounts(c.value.0, completed, clock, t); }
  }

  lemma RefreshCounts(run: RunState, now1: Time, now2: Time, t: Text)
    requires TasksOk(run) && t in run.tasks
    ensures SameCount(run, Refreshed(run, now1, now2), t)
  {
    hide TasksOk, Refreshed;
    if run.tasks[t].status.Running? { RunningHasAttempt(run, t); }
    RefreshedTask(run, now1, now2, t);
  }

  lemma BeatCounts(run: RunState, workerId: Text, leaseDuration: int, now: Time, t: Text)
    requires t in run.tasks && RecordHeartbeat(run, workerId, leaseDuration, now).Ok?
    ensures SameCount(run, RecordHeartbeat(run, workerId, leaseDuration, now).value, t)
  {
    hide ValidIdentifier;
  }

  /** The run an event works on. */
  function Basis(s: Sys): RunState { if s.mode.Idle? then s.stored else s.run }

  lemma CandidateCounts(s: Sys, e: Event, t: Text)
    requires Inv(s) && Candidate(s, e).Some? && !e.TakeClaim? && t in Basis(s).tasks
    ensures SameCount(Basis(s), Candidate(s, e).value, t)
  {
    hide Base, ModeOk, SameCount, MarkNewReady, NewlyReady, FailRun, CancelRun, TransitionRun, Restored, Refreshed,
         Recoveries, Promoted, RecordHeartbeat, ApplyResult, Startable, ValidIdentifier, WorkerIdFor, AnyFailed,
         AnyCanceled, SucceededTasks;
    RestoredIsStored(s);
    match e
    case Load(cause, now1, now2, _) => EndCounts(s.stored, cause, now1, now2, t);
    case CancelIdle(cause, now1, now2, _) => EndCounts(s.stored, cause, now1, now2, t);
    case Begin(_, clock, _) => UnlockCounts(s.stored, SucceededTasks(s.stored), clock, t);
    case LoopTop(_, now1, now2, _) =>
      TopTasks(s);
      RefreshCounts(s.run, now1, now2, t);
    case TakeHeartbeat(slot, now, _, _) =>
      BeatCounts(s.run, Name(s.cache.namespace, s.run.id, WorkerKey(slot, s.pool.generations[slot])),
                 s.config.leaseDuration, now, t);
    case TakeResult(r, _, now, clock, _) =>
      ResultCounts(s.run, Name(s.cache.namespace, s.run.id, r.worker), s.cache.completed + {r.job.taskId}, r, now,
                   clock, t);
    case Finish(cause, now1, now2, _) => EndCounts(s.run, cause, now1, now2, t);
  }

  lemma TopTasks(s: Sys)
    requires Inv(s) && s.mode.Top?
    ensures TasksOk(s.run)
  {
    InvTasks(s);
  }

  lemma IgnoredSame(run: RunState, workerId: Text, completed: set<Text>, r: TaskResult, now: Time, clock: Clock)
    ensures var a := ApplyResult(run, workerId, completed, r, now, clock);
            a.Ok? && a.value.outcome.Ignored? ==> a.value.run == run
  {
    hide MarkNewReady, NewlyReady, RetryDelay, EffectiveMaxAttempts, PolicyOf;
  }

  /** The run in memory after an event of the loop: as it was, or what the event hands to the store. */
  lemma RunChanges(s: Sys, e: Event)
    requires !s.mode.Idle?
    ensures var y := Step(s, e);
            || y.run == s.run
            || (Candidate(s, e).Some? && y.run.tasks == Candidate(s, e).value.tasks)
  {
    hide MarkNewReady, NewlyReady, FailRun, CancelRun, TransitionRun, Refreshed, Recoveries, Promoted, ReplaceAll,
         StartAttempt, RecordHeartbeat, ApplyResult, Ended, WellFormed, Dispatchable, Respond, Gate, PendingForAll,
         ResultTodo, ResultCache, AnyFailed, AnyCanceled, Startable, FirstWorkers, ValidIdentifier, WorkerIdFor,
         Redispatched, AttemptsOf, Fatal, Storable, Restored, LoadRun, SaveOrKeep, SucceededTasks;
    forall x: Sys ensures Gate(x).run == x.run { GateRun(x); }
    if e.TakeResult? {
      IgnoredSame(s.run, Name(s.cache.namespace, s.run.id, e.r.worker), s.cache.completed + {e.r.job.taskId}, e.r,
                  e.now, e.clock);
    }
  }

  /** The idle state is left only by a start, which reads the run from the store and unlocks what it can. */
  lemma Entered(s: Sys, e: Event)
    requires Inv(s) && s.mode.Idle? && !Step(s, e).mode.Idle?
    ensures e.Begin? && Step(s, e).run.tasks == MarkNewReady(s.stored, SucceededTasks(s.stored), e.clock).tasks
  {
    hide Inv, MarkNewReady, NewlyReady, Startable, FirstWorkers, ValidIdentifier, Storable, Restored, LoadRun,
         SaveOrKeep, SucceededTasks, CancelRun;
    RestoredIsStored(s);
  }

  lemma GateRun(x: Sys)
    ensures Gate(x).run == x.run
  {
  }

  lemma ClaimReads(s: Sys, c: Claim)
    requires Inv(s) && s.mode.Selecting? && c in s.pool.claims
    ensures s.run == s.stored && c.ticket.id in s.channel.bodies
    ensures WellFormed(s.run, c.ticket, s.channel.bodies[c.ticket.id]) ==>
              && s.channel.bodies[c.ticket.id].Dispatch?
              && Readable(s.run.id, s.channel.bodies[c.ticket.id].taskId)
  {
    hide RunInv, HeaderOk, ValidDefinition, UniqueLeases, CacheOk, PendingOk, ValidIdentifier, AnyFailed, Unfinished,
         ChannelInv, WellFormed, Live, Readable, TaskOf, Bounded, Utf8, KeysOk, PhasesOk, ResultsOk, NoOrphan, IssuedOk,
         PublishedBut;
    InvHeader(s.stored);
    DeliveryReadExactly(s.stored, s.channel, c.ticket);
    if WellFormed(s.run, c.ticket, s.channel.bodies[c.ticket.id]) {
      FormedTask(s.run, c.ticket, s.channel.bodies[c.ticket.id]);
    }
  }

  /** A claim starts a task whose identifiers can be read back, and no other task. */
  lemma ClaimCounts(s: Sys, c: Claim, now: Time, io: bool, t: Text)
    requires Inv(s) && Candidate(s, TakeClaim(c, now, io)).Some? && t in s.run.tasks && !Readable(s.run.id, t)
    ensures SameCount(s.run, Candidate(s, TakeClaim(c, now, io)).value, t)
  {
    hide Inv, WellFormed, Dispatchable, StartAttempt, Readable, Name, SameCount;
    ClaimReads(s, c);
    StartCounts(s.run, s.channel.bodies[c.ticket.id].taskId, Name(s.cache.namespace, s.run.id, c.worker),
                s.config.leaseDuration, now, t);
  }

  lemma StartCounts(run: RunState, u: Text, workerId: Text, leaseDuration: int, now: Time, t: Text)
    requires t in run.tasks && t != u
    ensures var r := StartAttempt(run, u, workerId, leaseDuration, now); r.Ok? ==> SameCount(run, r.value, t)
  {
    hide ValidIdentifier, AttemptIdFor;
  }

  // ------------------------------------------------------------------
  // A task that cannot be read back is never started

  predicate Unstarted(s: Sys, t: Text) {
    && t in s.stored.tasks && s.stored.tasks[t].attemptCount == 0
    && t in Basis(s).tasks && Basis(s).tasks[t].attemptCount == 0
  }

  lemma UnstartedStep(s: Sys, e: Event, t: Text)
    requires Inv(s) && Unstarted(s, t) && !Readable(s.stored.id, t)
    ensures Unstarted(Step(s, e), t)
  {
    hide Inv, Step, Candidate, Readable, MarkNewReady, SucceededTasks, Storable;
    StoreChanges(s, e);
    BasisId(s);
    if Candidate(s, e).Some? {
      if e.TakeClaim? { ClaimBasis(s, e); ClaimCounts(s, e.c, e.now, e.io, t); } else { CandidateCounts(s, e, t); }
    }
    if !s.mode.Idle? {
      RunChanges(s, e);
    } else if !Step(s, e).mode.Idle? {
      Entered(s, e);
      UnlockCounts(s.stored, SucceededTasks(s.stored), e.clock, t);
    }
  }

  lemma BasisId(s: Sys)
    requires Inv(s)
    ensures Basis(s).id == s.stored.id
  {
    hide World, RunInv, HeaderOk, ValidDefinition, UniqueLeases, Storable, CacheOk, AnyFailed, Unfinished, AllReadable,
         PublishedBut;
  }

  lemma ClaimBasis(s: Sys, e: Event)
    requires e.TakeClaim? && Candidate(s, e).Some?
    ensures Basis(s) == s.run
  {
  }

  /** Nothing a run does starts a task whose identifiers are not well-formed: through faults, crashes and restarts it
      stays without an attempt. */
  lemma {:induction false} NeverStarted(s: Sys, events: seq<Event>, i: nat, t: Text)
    requires Created(s) && i <= |events| && t in s.stored.tasks && !Readable(s.stored.id, t)
    ensures Unstarted(At(s, events, i), t)
  {
    hide Inv, Step, Unstarted, Readable, Created;
    if i == 0 {
      CreatedUnstarted(s, t);
      assert events[..0] == [];
    } else {
      NeverStarted(s, events, i - 1, t);
      NextState(s, events, i - 1);
      AlwaysInv(s, events, i - 1);
      SameTasks(s, events, i - 1);
      UnstartedStep(At(s, events, i - 1), events[i - 1], t);
    }
  }

  lemma CreatedUnstarted(s: Sys, t: Text)
    requires Created(s) && t in s.stored.tasks
    ensures Unstarted(s, t)
  {
    hide ValidIdentifier, ValidDefinition;
  }

  /** So it stays pending or ready until the run is called off, and the run never succeeds. */
  lemma NeverSucceeds(s: Sys, events: seq<Event>, i: nat, t: Text)
    requires Created(s) && i <= |events| && t in s.stored.tasks && !Readable(s.stored.id, t)
    ensures var run := At(s, events, i).stored;
            && t in run.tasks && run.tasks[t].attemptCount == 0 && !run.status.RunSucceeded?
            && (run.tasks[t].status.Pending? || run.tasks[t].status.Ready? || run.tasks[t].status.Canceled?)
  {
    hide Inv, Step, Readable, Created;
    NeverStarted(s, events, i, t);
    AlwaysInv(s, events, i);
    UnstartedStatus(At(s, events, i), t);
  }

  lemma UnstartedStatus(x: Sys, t: Text)
    requires Inv(x) && Unstarted(x, t)
    ensures !x.stored.status.RunSucceeded?
    ensures x.stored.tasks[t].status.Pending? || x.stored.tasks[t].status.Ready? || x.stored.tasks[t].status.Canceled?
  {
    hide World, ModeOk, ValidDefinition, UniqueLeases, HeaderOk, DependenciesOk, WorkersOk, TaskRunIdFor, AttemptOf;
    assert TaskOk(x.stored.id, x.stored.createdAt, MaxAttemptsOf(x.stored.definition, t), t, x.stored.tasks[t]);
  }

  /** An acknowledged message is one whose attempt the store has moved past, if and only if its identifier is
      well-formed: the others are lost with their task still waiting. */
  lemma AcknowledgedExactly(s: Sys, events: seq<Event>, i: nat, a: Text)
    requires Created(s) && i <= |events| && a in At(s, events, i).channel.acked
    ensures var run := At(s, events, i).stored; Past(run.id, run.tasks, a) <==> Utf8(a)
  {
    hide Inv, Step, Created, Past, Needed, Utf8, Unstarted, Readable, TaskOf;
    var x := At(s, events, i);
    AlwaysInv(s, events, i);
    if Utf8(a) {
      AcknowledgedIsPast(s, events, i, a);
    } else {
      AckedTask(x, a);
      SameTasks(s, events, i);
      NeverStarted(s, events, i, TaskOf(x.stored.id, a));
      UnstartedNotPast(x, a);
    }
  }

  lemma AckedTask(x: Sys, a: Text)
    requires Inv(x) && a in x.channel.acked
    ensures TaskOf(x.stored.id, a) in x.stored.tasks && (Readable(x.stored.id, TaskOf(x.stored.id, a)) <==> Utf8(a))
    ensures NumberOf(x.stored.id, a) >= 1
  {
    hide RunInv, HeaderOk, ValidDefinition, UniqueLeases, ModeOk, World, WellFormed, Readable, TaskOf, NumberOf,
         Bounded, Utf8, MessagesOk, AckedPast;
    InvHeader(x.stored);
    WorldChannel(x.stored, x.cache.namespace, x.channel, x.pool, x.issued);
    DeliveryReadExactly(x.stored, x.channel, Ticket(a, 0));
    MessageBody(x.stored, x.channel, a);
  }

  lemma UnstartedNotPast(x: Sys, a: Text)
    requires Unstarted(x, TaskOf(x.stored.id, a)) && NumberOf(x.stored.id, a) >= 1
    ensures !Past(x.stored.id, x.stored.tasks, a)
  {
    hide TaskOf, NumberOf;
  }

  // ------------------------------------------------------------------
  // It happens

  /** A free worker that receives a message it cannot read back. */
  lemma UnreadableClaim(x: Sys, k: WorkerKey, t: Text) returns (y: Sys)
    requires Good(x) && x.mode.Selecting? && IsCurrent(x.pool, k) && k in x.pool.workers && x.pool.workers[k].Receiving?
    requires t in x.run.tasks && !Readable(x.run.id, t) && Deliverable(x.channel, NextAttemptId(x.run.tasks[t]))
    ensures Leads(x, y) && Good(y) && y.mode == Draining(Malformed) && y.stored == x.run
    ensures NextAttemptId(x.run.tasks[t]) in y.channel.acked
  {
    hide Leads, Good, Step, NextAttemptId, Readable, TaskOf, NumberOf, TasksOk, Acked, Taken, Inv, Served, Startable,
         Deliverable, Live;
    var a := NextAttemptId(x.run.tasks[t]);
    var c := Claim(k, Ticket(a, Count(x.channel, a) + 1));
    var e1, e2, e3 := Receive(k, a), SendClaim(k), TakeClaim(c, 0, true);
    var claimed := Step(Step(x, e1), e2);
    y := Step(claimed, e3);
    ClaimSent(x, k, a);
    ThreeGood(x, e1, e2, e3);
    SelectStartable(x);
    NextOf(x.run, t);
    GoodParts(claimed);
    MalformedExactly(claimed, c, 0, true);
    TakenAcked(x.channel, a);
  }

  lemma TakenAcked(c: Channel, a: Text)
    ensures a in Acked(Taken(c, a), Ticket(a, Count(c, a) + 1)).acked
  {
  }
}
