/** What holds of every execution: any interleaving of scheduler, workers, storage failures, restarts
and crashes, from the creation of the run on. */
module SchedulerTheorems {
  import opened Ids
  import opened Definition
  import opened Graph
  import opened Run
  import opened RunProofs
  import opened Channel
  import opened Scheduler
  import opened SchedulerInv
  import opened SchedulerCaches
  import opened SchedulerSteps

  /** The state after the first i events. */
  ghost function At(s: Sys, events: seq<Event>, i: nat): Sys
    requires i <= |events|
  {
    Steps(s, events[..i])
  }

  lemma CreatedInv(s: Sys)
    requires Created(s)
    ensures Inv(s)
  {
    var fresh0 := s.stored.(version := 0);
    NewRunInv(s.stored.id, s.stored.definition, s.stored.createdAt);
    assert RunInv(fresh0);
    VersionFree(fresh0, 1);
    assert s.stored == fresh0.(version := 1);
    FreshLeases(s.stored);
  }

  lemma FreshLeases(run: RunState)
    requires NewRun(run.id, run.definition, run.createdAt) == Ok(run.(version := 0))
    ensures UniqueLeases(run)
  {
  }

  lemma NextState(s: Sys, events: seq<Event>, i: nat)
    requires i < |events|
    ensures At(s, events, i + 1) == Step(At(s, events, i), events[i])
  {
    assert events[..i + 1][..i] == events[..i];
  }

  /** The invariant holds at every point of every execution. */
  lemma {:induction false} AlwaysInv(s: Sys, events: seq<Event>, i: nat)
    requires Created(s) && i <= |events|
    ensures Inv(At(s, events, i))
    decreases i
  {
    hide Inv, Step, Created;
    if i == 0 {
      CreatedInv(s);
    } else {
      AlwaysInv(s, events, i - 1);
      NextState(s, events, i - 1);
      StepFine(At(s, events, i - 1), events[i - 1]);
    }
  }

  /** The stored run only ever moves forward. */
  lemma {:induction false} StoreAdvances(s: Sys, events: seq<Event>, i: nat, j: nat)
    requires Created(s) && i <= j <= |events|
    ensures Advances(At(s, events, i).stored, At(s, events, j).stored)
    ensures At(s, events, i).issued <= At(s, events, j).issued
    decreases j
  {
    hide Inv, Step, Created, Advances;
    AlwaysInv(s, events, j);
    StutterFine(At(s, events, j));
    if i < j {
      StoreAdvances(s, events, i, j - 1);
      AlwaysInv(s, events, j - 1);
      NextState(s, events, j - 1);
      StepFine(At(s, events, j - 1), events[j - 1]);
      InvTasks(At(s, events, j));
      AdvancesTransitive(At(s, events, i).stored, At(s, events, j - 1).stored, At(s, events, j).stored);
    }
  }

  lemma InvTasks(s: Sys)
    requires Inv(s)
    ensures RunInv(s.stored) && TasksOk(s.stored)
  {
  }

  // ------------------------------------------------------------------
  // No deadlock, no poisoned delivery

  /** The identifier and the tasks of a run stay what they were. */
  lemma SameTasks(s: Sys, events: seq<Event>, i: nat)
    requires Created(s) && i <= |events|
    ensures At(s, events, i).stored.id == s.stored.id && At(s, events, i).stored.tasks.Keys == s.stored.tasks.Keys
  {
    hide Inv, Step, Created, Advance;
    StoreAdvances(s, events, 0, i);
    assert At(s, events, 0) == s by { assert events[..0] == []; }
  }

  lemma DrainGoal(x: Sys)
    requires Inv(x)
    ensures x.mode != Draining(Stalled)
    ensures x.mode == Draining(Malformed) ==> !AllReadable(x.stored)
  {
    hide Base, RunInv, LoopOk, Readable;
  }

  /** The scheduler never stalls with unfinished tasks, and it meets a delivery it cannot place only if an identifier of
      the run is ill-formed. */
  lemma NeverStuck(s: Sys, events: seq<Event>, i: nat)
    requires Created(s) && i <= |events|
    ensures At(s, events, i).mode != Draining(Stalled)
    ensures At(s, events, i).mode == Draining(Malformed) ==> !AllReadable(s.stored)
  {
    hide Inv, Step, Created, Readable;
    AlwaysInv(s, events, i);
    SameTasks(s, events, i);
    DrainGoal(At(s, events, i));
  }

  /** A current worker's claim ends the loop over its message if and only if run or task identifier is ill-formed. The
      message is then acknowledged, and the store as it was. */
  lemma MalformedExactly(x: Sys, c: Claim, now: Time, io: bool)
    requires Inv(x) && x.mode.Selecting? && c in x.pool.claims && IsCurrent(x.pool, c.worker)
    ensures c.ticket.id in x.channel.bodies && TaskOf(x.stored.id, c.ticket.id) in x.stored.tasks
    ensures var y := Step(x, TakeClaim(c, now, io));
            && (y.mode == Draining(Malformed) <==> !Readable(x.stored.id, TaskOf(x.stored.id, c.ticket.id)))
            && (y.mode == Draining(Malformed) ==> y.stored == x.stored && y.channel == Acked(x.channel, c.ticket))
  {
    hide RunInv, HeaderOk, ValidDefinition, UniqueLeases, CacheOk, PendingOk, ValidIdentifier, AnyFailed, Unfinished,
         ChannelInv, WellFormed, Dispatchable, StartAttempt, Save, Respond, Acked, Live, Readable, TaskOf, Bounded,
         Utf8, KeysOk, PhasesOk, ResultsOk, NoOrphan, IssuedOk, PublishedBut, Name;
    InvHeader(x.stored);
    DeliveryReadExactly(x.stored, x.channel, c.ticket);
    if Readable(x.stored.id, TaskOf(x.stored.id, c.ticket.id)) {
      FormedTask(x.run, c.ticket, x.channel.bodies[c.ticket.id]);
    }
  }

  // ------------------------------------------------------------------
  // Dependency safety and finality

  /** A task that was ever unlocked has all its dependencies succeeded. */
  lemma DependencySafety(s: Sys, events: seq<Event>, i: nat, t: Text, d: Text)
    requires Created(s) && i <= |events|
    requires var run := At(s, events, i).stored;
             && t in run.tasks && Unlocked(run.tasks[t].status) && t in EdgesOf(run.definition)
                && d in EdgesOf(run.definition)[t]
    ensures d in At(s, events, i).stored.tasks && At(s, events, i).stored.tasks[d].status.Succeeded?
  {
    AlwaysInv(s, events, i);
    InvTasks(At(s, events, i));
    var run := At(s, events, i).stored;
    assert AllSucceeded(run.tasks, EdgesOf(run.definition)[t]);
  }

  /** A terminal task never changes again, in any respect, through retries, restarts and crashes. */
  lemma TerminalIsFinal(s: Sys, events: seq<Event>, i: nat, j: nat, t: Text)
    requires Created(s) && i <= j <= |events|
    requires t in At(s, events, i).stored.tasks && At(s, events, i).stored.tasks[t].status.Terminal()
    ensures t in At(s, events, j).stored.tasks && At(s, events, j).stored.tasks[t] == At(s, events, i).stored.tasks[t]
  {
    StoreAdvances(s, events, i, j);
    var a, b := At(s, events, i).stored, At(s, events, j).stored;
    assert Advance(MaxAttemptsOf(a.definition, t), a.tasks[t], b.tasks[t]);
  }

  // ------------------------------------------------------------------
  // At most once

  /** An attempt leaves Running at most once: once it is no longer under way it never is again. */
  lemma LeavesRunningOnce(s: Sys, events: seq<Event>, i: nat, j: nat, k: nat, a: Text)
    requires Created(s) && i <= j <= k <= |events|
    requires var run := At(s, events, i).stored; Current(run.id, run.tasks, a)
    requires var run := At(s, events, j).stored; !Current(run.id, run.tasks, a)
    ensures var run := At(s, events, k).stored; Past(run.id, run.tasks, a) && !Current(run.id, run.tasks, a)
  {
    hide Inv, Step, Created, Advances;
    var x, y, z := At(s, events, i).stored, At(s, events, j).stored, At(s, events, k).stored;
    StoreAdvances(s, events, i, j);
    StoreAdvances(s, events, j, k);
    AttemptAdvances(x, y, a);
    AttemptAdvances(y, z, a);
  }

  /** A completion for an attempt that is over is ignored and changes nothing, whoever sends it. */
  lemma LateCompletionIgnored(s: Sys, events: seq<Event>, i: nat, k: nat, a: Text, t: Text, taskRunId: Text,
                              workerId: Text,
                              output: Text, error: Option<TaskError>, now: Time)
    requires Created(s) && i <= k <= |events|
    requires var run := At(s, events, i).stored; Past(run.id, run.tasks, a)
    requires t in At(s, events, k).stored.tasks
    ensures var run := At(s, events, k).stored;
            CompleteAttempt(run, t, taskRunId, workerId, a, output, error, now) == Ok((run, Ignored))
  {
    var run := At(s, events, k).stored;
    assert Past(run.id, run.tasks, a) && TasksOk(run) by {
      StoreAdvances(s, events, i, k);
      PastAdvances(At(s, events, i).stored, run, a);
      AlwaysInv(s, events, k);
      InvTasks(At(s, events, k));
    }
    hide Inv, Step, Created, Advances;
    if run.tasks[t].status.Running? && run.tasks[t].currentAttemptId == a {
      RunningHasAttempt(run, t);
      CurrentOf(run, t);
    }
  }

  /** No attempt is handed to a worker twice, not even across restarts. */
  lemma IssuedOnce(s: Sys, events: seq<Event>, i: nat, p: nat, q: nat)
    requires Created(s) && i <= |events| && p < q < |At(s, events, i).issued|
    ensures At(s, events, i).issued[p] != At(s, events, i).issued[q]
  {
    AlwaysInv(s, events, i);
  }

  // ------------------------------------------------------------------
  // No lost work

  /** A message is acknowledged only after the stored run has moved past its attempt, unless it cannot be read. */
  lemma AcknowledgedIsPast(s: Sys, events: seq<Event>, i: nat, a: Text)
    requires Created(s) && i <= |events| && a in At(s, events, i).channel.acked && Utf8(a)
    ensures var run := At(s, events, i).stored; Past(run.id, run.tasks, a) && !Needed(run.id, run.tasks, a)
  {
    hide Inv, Step, Created, Past, Needed, Utf8;
    AlwaysInv(s, events, i);
    AckedFacts(At(s, events, i), a);
  }

  lemma AckedFacts(x: Sys, a: Text)
    requires Inv(x) && a in x.channel.acked && Utf8(a)
    ensures Past(x.stored.id, x.stored.tasks, a) && !Needed(x.stored.id, x.stored.tasks, a)
  {
    hide ModeOk, StoredOk, PoolInv, IssuedOk, MessagesOk, ChannelOk, ValidDefinition, Utf8;
    assert Past(x.stored.id, x.stored.tasks, a);
  }

  /** At every select point the next attempt of each ready task that can be dispatched at all is published,
      unacknowledged, and either waiting in the queue or held by a worker whose claim is still to be answered. */
  lemma NoLostWork(s: Sys, events: seq<Event>, i: nat, t: Text)
    requires Created(s) && i <= |events| && At(s, events, i).mode.Selecting? && Readable(s.stored.id, t)
    requires t in At(s, events, i).stored.tasks && At(s, events, i).stored.tasks[t].status.Ready?
    ensures Waits(At(s, events, i), NextAttemptId(At(s, events, i).stored.tasks[t]))
  {
    hide Inv, Step, Waits, Created, Readable;
    AlwaysInv(s, events, i);
    SameTasks(s, events, i);
    ReadyIsWaiting(At(s, events, i), t);
  }

  ghost predicate Waits(x: Sys, a: Text) {
    && a in x.channel.bodies && a !in x.channel.acked
    && (Deliverable(x.channel, a) || (a in x.channel.flight && Held(x.pool.workers, Ticket(a, x.channel.flight[a]))))
  }

  lemma ReadyIsWaiting(x: Sys, t: Text)
    requires Inv(x) && x.mode.Selecting? && t in x.stored.tasks && x.stored.tasks[t].status.Ready?
    requires Readable(x.stored.id, t)
    ensures Waits(x, NextAttemptId(x.stored.tasks[t]))
  {
    hide RunInv, ValidDefinition, UniqueLeases, NothingToUnlock, AnyCanceled, AnyFailed, PhasesOk, ClaimsOk, ResultsOk,
         IssuedOk, PendingOk, ValidIdentifier, MessagesOk, NextAttemptId, Unfinished, KeysOk, Utf8, ChannelInv, TaskOf,
         NumberOf, Past, BodyOk, Bounded;
    InvTasks(x);
    NextIsBounded(x.stored, t);
    NextOf(x.stored, t);
    AttemptUtf8(x.stored.id, t, x.stored.tasks[t].attemptCount + 1);
    assert t in x.cache.ready;
    NotAcked(x, NextAttemptId(x.stored.tasks[t]));
  }

  lemma NotAcked(x: Sys, a: Text)
    requires Inv(x) && Needed(x.stored.id, x.stored.tasks, a) && Utf8(a)
    ensures a !in x.channel.acked
  {
    hide Inv, Past, Needed, Utf8;
    if a in x.channel.acked { AckedFacts(x, a); }
  }

  // ------------------------------------------------------------------
  // Caches

  /** At every select point the caches are the aggregate's own sets and memory equals the store. */
  lemma CachesAgree(s: Sys, events: seq<Event>, i: nat)
    requires Created(s) && i <= |events| && At(s, events, i).mode.Selecting?
    ensures var x := At(s, events, i);
            && x.run == x.stored && x.cache.ready == ReadyIds(x.stored) && x.cache.completed == SucceededTasks(x.stored)
            && (forall a :: a in x.cache.inFlight <==> Current(x.stored.id, x.stored.tasks, a))
  {
    AlwaysInv(s, events, i);
    InvTasks(At(s, events, i));
    var x := At(s, events, i);
    assert LoopOk(x.stored, x.run, x.cache, x.channel.bodies);
    forall a ensures a in x.cache.inFlight <==> Current(x.stored.id, x.stored.tasks, a) {
      RunningIsCurrent(x.stored, a);
    }
  }

  // ------------------------------------------------------------------
  // Bounded progress

  /** How often a task's status or attempt changed in the store during the first i events. */
  ghost function Changes(s: Sys, events: seq<Event>, i: nat, t: Text): nat
    requires i <= |events|
  {
    if i == 0 then 0
    else
      var a, b := At(s, events, i - 1).stored, At(s, events, i).stored;
      Changes(s, events, i - 1, t) +
      if t in a.tasks && t in b.tasks && (a.tasks[t].status != b.tasks[t].status
                                          || a.tasks[t].attemptCount != b.tasks[t].attemptCount)
      then 1 else 0
  }

  lemma {:induction false} ChangesSpendPotential(s: Sys, events: seq<Event>, i: nat, t: Text)
    requires Created(s) && i <= |events| && t in s.stored.tasks
    ensures var x := At(s, events, i).stored;
            var max := MaxAttemptsOf(s.stored.definition, t);
            && t in x.tasks && x.definition == s.stored.definition
            && Changes(s, events, i, t) + Potential(max, x.tasks[t]) <= Potential(max, s.stored.tasks[t])
    decreases i
  {
    hide Inv, Step, Created, Potential;
    if i > 0 {
      ChangesSpendPotential(s, events, i - 1, t);
      StoreAdvances(s, events, i - 1, i);
      var a, b := At(s, events, i - 1).stored, At(s, events, i).stored;
      assert Advance(MaxAttemptsOf(a.definition, t), a.tasks[t], b.tasks[t]);
    }
  }

  /** Over any execution a task changes at most 3 * max + 2 times and starts at most max attempts;
      while it is ready or waiting for a retry it has an attempt left. */
  lemma BoundedProgress(s: Sys, events: seq<Event>, i: nat, t: Text)
    requires Created(s) && i <= |events| && t in s.stored.tasks
    ensures var x := At(s, events, i).stored;
            var max := MaxAttemptsOf(s.stored.definition, t);
            && Changes(s, events, i, t) <= 3 * max + 2
            && t in x.tasks && x.tasks[t].attemptCount <= max
            && (x.tasks[t].status.Ready? || x.tasks[t].status.RetryWaiting? ==> x.tasks[t].attemptCount < max)
  {
    ChangesSpendPotential(s, events, i, t);
    AlwaysInv(s, events, i);
    InvTasks(At(s, events, i));
    var x := At(s, events, i).stored;
    assert TaskOk(x.id, x.createdAt, MaxAttemptsOf(x.definition, t), t, x.tasks[t]);
    hide Inv, Step;
    assert s.stored.tasks[t] == FreshTask(s.stored.id, t, s.stored.createdAt);
  }
}
