/** The event log of the engine's own runs: every save of every execution can be told by events, so a
reader of the log knows the stored statuses. */
module RunEvents {
  import opened Ids
  import opened Definition
  import opened Graph
  import opened Run
  import S = Snapshot
  import E = Events
  import opened Scheduler
  import opened SchedulerInv
  import opened SchedulerSteps
  import opened SchedulerTheorems
  import opened SchedulerSaves

  // ------------------------------------------------------------------
  // The run's status moves along its own legal transitions

  predicate LegalOrSame(a: RunStatus, b: RunStatus) {
    b == a || LegalRunTransition(a, b)
  }

  lemma EndedLegally(run: RunState, cause: Text, now1: Time, now2: Time)
    ensures FailRun(run, cause, now1, now2).Ok? ==>
              LegalRunTransition(run.status, FailRun(run, cause, now1, now2).value.status)
    ensures CancelRun(run, cause, now1, now2).Ok? ==>
              LegalRunTransition(run.status, CancelRun(run, cause, now1, now2).value.status)
    ensures forall target :: TransitionRun(run, target, now1).Ok? ==>
              LegalRunTransition(run.status, target) && TransitionRun(run, target, now1).value.status == target
  {
  }

  lemma CandidateStatus(s: Sys, e: Event)
    requires Inv(s) && Candidate(s, e).Some?
    ensures LegalOrSame(s.stored.status, Candidate(s, e).value.status)
  {
    hide Base, RunInv, Advances, FailRun, CancelRun, TransitionRun, MarkNewReady, NewlyReady, Restored, Refreshed,
         RecordHeartbeat, StartAttempt, ApplyResult, AnyFailed, AnyCanceled, Unfinished, AllDone, CacheOk, Dispatchable,
         ValidIdentifier, PendingOk;
    RestoredIsStored(s);
    match e
    case Load(cause, now1, now2, _) => EndedLegally(s.stored, cause, now1, now2);
    case CancelIdle(cause, now1, now2, _) => EndedLegally(s.stored, cause, now1, now2);
    case Begin(_, clock, _) => MarkedHeader(s.stored, clock);
    case LoopTop(_, now1, now2, _) => RefreshedStatus(s.run, now1, now2);
    case TakeClaim(c, now, _) => StartedStatus(s.run, s.channel.bodies[c.ticket.id].taskId,
                                               Name(s.cache.namespace, s.run.id, c.worker), s.config.leaseDuration,
                                               now);
    case TakeHeartbeat(slot, now, _, _) => BeatStatus(s.run,
                                                      Name(s.cache.namespace, s.run.id,
                                                           WorkerKey(slot, s.pool.generations[slot])),
                                                           s.config.leaseDuration, now);
    case TakeResult(r, _, now, clock, _) => ResultStatus(s, r, now, clock);
    case Finish(cause, now1, now2, _) => EndedLegally(s.run, cause, now1, now2);
  }

  lemma RefreshedStatus(run: RunState, now1: Time, now2: Time)
    ensures Refreshed(run, now1, now2).status == run.status
  {
  }

  lemma StartedStatus(run: RunState, t: Text, workerId: Text, leaseDuration: int, now: Time)
    ensures var r := StartAttempt(run, t, workerId, leaseDuration, now); r.Ok? ==> r.value.status == run.status
  {
  }

  lemma BeatStatus(run: RunState, workerId: Text, leaseDuration: int, now: Time)
    ensures var r := RecordHeartbeat(run, workerId, leaseDuration, now); r.Ok? ==> r.value.status == run.status
  {
  }

  lemma ResultStatus(s: Sys, r: TaskResult, now: Time, clock: Clock)
    requires Inv(s) && s.mode.Selecting? && Counts(s, r, now, clock)
    ensures ApplyResult(s.run, Name(s.cache.namespace, s.run.id, r.worker), s.cache.completed + {r.job.taskId}, r, now,
                        clock).value.run.status.RunRunning?
    ensures s.stored.status.RunRunning?
  {
    hide World, RunInv, HeaderOk, TasksOk, ValidDefinition, Advances, UniqueLeases, CacheOk, PendingOk, ValidIdentifier,
         WorkerIdFor, JobOk, MayComplete, ApplyResult, AnyFailed, Unfinished, Past;
    ResultTaken(s.stored, s.cache.namespace, s.channel, s.pool, s.issued, r);
    JobKnown(s.run, s.cache.namespace, r);
    AppliedFollows(s.run, s.cache.namespace, r, s.cache, now, clock);
  }

  lemma StatusMoves(s: Sys, e: Event)
    requires Inv(s)
    ensures LegalOrSame(s.stored.status, Step(s, e).stored.status)
  {
    hide Inv, Candidate, Step, Storable;
    StoreChanges(s, e);
    if Candidate(s, e).Some? { CandidateStatus(s, e); }
  }

  // ------------------------------------------------------------------
  // Saves can be told by events

  lemma TaskOfSnapshot(tasks: map<Text, TaskRun>, t: Text)
    requires forall u :: u in tasks ==> tasks[u].taskId == u
    ensures var list := S.TaskList(tasks);
            (t in E.TasksById(list) <==> t in tasks) && (t in tasks ==> E.TasksById(list)[t] == tasks[t])
  {
    hide S.TaskList, S.DistinctTasks, E.TasksById;
    S.TaskListFacts(tasks);
    var list := S.TaskList(tasks);
    E.TaskOfList(list, t);
    if t in tasks {
      var i :| 0 <= i < |list| && list[i] == tasks[t];
      assert list[i].taskId == t;
      E.ListedTask(list, i);
    }
  }

  lemma OwnKeys(run: RunState)
    requires TasksOk(run)
    ensures forall t :: t in run.tasks ==> run.tasks[t].taskId == t
  {
    forall t | t in run.tasks ensures run.tasks[t].taskId == t {
      assert TaskOk(run.id, run.createdAt, MaxAttemptsOf(run.definition, t), t, run.tasks[t]);
    }
  }

  lemma TasksOfSnapshot(run: RunState)
    requires TasksOk(run)
    ensures E.TasksById(S.SnapshotOf(run).tasks) == run.tasks
  {
    hide TasksOk, S.TaskList, E.TasksById;
    OwnKeys(run);
    forall t ensures t in E.TasksById(S.TaskList(run.tasks)) <==> t in run.tasks
             ensures t in run.tasks ==> E.TasksById(S.TaskList(run.tasks))[t] == run.tasks[t]
    {
      TaskOfSnapshot(run.tasks, t);
    }
  }

  /** A task is never sent back to Pending. */
  lemma NeverPendingAgain(a: RunState, b: RunState, t: Text)
    requires TasksOk(a) && TasksOk(b) && Advances(a, b) && t in a.tasks && b.tasks[t].status.Pending?
    ensures a.tasks[t].status.Pending?
  {
    assert TaskOk(a.id, a.createdAt, MaxAttemptsOf(a.definition, t), t, a.tasks[t]);
    assert TaskOk(b.id, b.createdAt, MaxAttemptsOf(b.definition, t), t, b.tasks[t]);
    assert Advance(MaxAttemptsOf(a.definition, t), a.tasks[t], b.tasks[t]);
  }

  lemma AdvanceIsRepresentable(a: RunState, b: RunState)
    requires TasksOk(a) && TasksOk(b) && Advances(a, b) && LegalOrSame(a.status, b.status)
    ensures E.Representable(S.SnapshotOf(a), S.SnapshotOf(b))
  {
    TasksOfSnapshot(a);
    TasksOfSnapshot(b);
    forall t | t in b.tasks && b.tasks[t].status.Pending? ensures a.tasks[t].status.Pending? {
      NeverPendingAgain(a, b, t);
    }
  }

  /** The snapshots an execution stores from one moment to another, one after each event. */
  ghost function Saves(s: Sys, events: seq<Event>, i: nat, j: nat): seq<S.RunSnapshot>
    requires i <= j <= |events|
  {
    if i == j then [] else Saves(s, events, i, j - 1) + [S.SnapshotOf(At(s, events, j).stored)]
  }

  lemma {:induction false} SavesAt(s: Sys, events: seq<Event>, i: nat, j: nat, n: nat)
    requires i + n < j <= |events|
    ensures |Saves(s, events, i, j)| == j - i && Saves(s, events, i, j)[n]
              == S.SnapshotOf(At(s, events, i + n + 1).stored)
  {
    hide At, S.SnapshotOf;
    if i + n < j - 1 {
      SavesAt(s, events, i, j - 1, n);
    } else if i < j - 1 {
      SavesAt(s, events, i, j - 1, 0);
    }
  }

  lemma StepIsRepresentable(s: Sys, events: seq<Event>, i: nat)
    requires Created(s) && i < |events|
    ensures E.Representable(S.SnapshotOf(At(s, events, i).stored), S.SnapshotOf(At(s, events, i + 1).stored))
  {
    hide Inv, Step, Created, Advances, TasksOk, RunInv, LegalOrSame, E.Representable, S.SnapshotOf;
    AlwaysInv(s, events, i);
    AlwaysInv(s, events, i + 1);
    NextState(s, events, i);
    StatusMoves(At(s, events, i), events[i]);
    StoreAdvances(s, events, i, i + 1);
    InvTasks(At(s, events, i));
    InvTasks(At(s, events, i + 1));
    AdvanceIsRepresentable(At(s, events, i).stored, At(s, events, i + 1).stored);
  }

  /** Over any stretch of any execution: a reader that folds the log over the snapshot the stream opened with knows
      every stored status. The stretch begins at creation, at a restart, or when a reader opens the stream. */
  lemma LogTellsTheRun(s: Sys, events: seq<Event>, i: nat, j: nat, seeded: bool)
    requires Created(s) && i <= j <= |events|
    ensures var first := S.SnapshotOf(At(s, events, i).stored);
            var stream := E.Logged(first, seeded, Saves(s, events, i, j));
            && E.Gapless(stream.events) && stream.latest == S.SnapshotOf(At(s, events, j).stored)
            && E.Fold(E.ViewOf(first), stream.events) == E.ViewOf(stream.latest)
  {
    hide At, Created, E.Representable, S.SnapshotOf, E.Logged, E.Fold;
    var first, saves := S.SnapshotOf(At(s, events, i).stored), Saves(s, events, i, j);
    if i < j { SavesAt(s, events, i, j, 0); }
    assert |saves| == j - i;
    forall n | 0 <= n < |saves| ensures E.Representable(E.Preceding(first, saves, n), saves[n]) {
      StepIsRepresentable(s, events, i + n);
      SavesAt(s, events, i, j, n);
      if n > 0 { SavesAt(s, events, i, j, n - 1); }
    }
    E.LogFaithful(first, seeded, saves);
    if i < j { SavesAt(s, events, i, j, j - i - 1); }
  }

  /** Moments at which a reader polls a stream that opened at another. */
  ghost predicate Polls(events: seq<Event>, i: nat, moments: seq<nat>) {
    && (forall n :: 0 <= n < |moments| ==> i <= moments[n] <= |events|)
    && forall n :: 0 < n < |moments| ==> moments[n - 1] <= moments[n]
  }

  ghost function LogsAt(s: Sys, events: seq<Event>, i: nat, moments: seq<nat>,
                        seeded: bool): (logs: seq<seq<E.RunEvent>>)
    requires Polls(events, i, moments)
    ensures |logs| == |moments|
  {
    seq(|moments|, n requires 0 <= n < |moments| => LogAt(s, events, i, moments[n], seeded))
  }

  /** The logs of one stream only grow, from creation, from a restart or from the first reader on; so whatever cursor
      a reader brings, Events.ReadsEachOnce and Events.StaleCursor say what it gets. */
  lemma StreamGrows(s: Sys, events: seq<Event>, i: nat, moments: seq<nat>, seeded: bool)
    requires Created(s) && Polls(events, i, moments)
    ensures E.Growing(LogsAt(s, events, i, moments, seeded))
  {
    hide Created, LogAt, E.Gapless;
    var logs := LogsAt(s, events, i, moments, seeded);
    forall n | 0 <= n < |logs| ensures E.Gapless(logs[n]) {
      LogGapless(s, events, i, moments[n], seeded);
    }
    forall n | 0 < n < |logs| ensures logs[n - 1] <= logs[n] {
      LogGrows(s, events, i, moments[n - 1], moments[n], seeded);
    }
  }

  /** The log at one moment of the stream that opened at another. */
  ghost function LogAt(s: Sys, events: seq<Event>, i: nat, j: nat, seeded: bool): seq<E.RunEvent>
    requires i <= j <= |events|
  {
    E.Logged(S.SnapshotOf(At(s, events, i).stored), seeded, Saves(s, events, i, j)).events
  }

  lemma LogGapless(s: Sys, events: seq<Event>, i: nat, j: nat, seeded: bool)
    requires Created(s) && i <= j <= |events|
    ensures E.Gapless(LogAt(s, events, i, j, seeded))
  {
    hide Created, E.Gapless;
    LogTellsTheRun(s, events, i, j, seeded);
  }

  lemma {:induction false} LogGrows(s: Sys, events: seq<Event>, i: nat, j: nat, k: nat, seeded: bool)
    requires i <= j <= k <= |events|
    ensures LogAt(s, events, i, j, seeded) <= LogAt(s, events, i, k, seeded)
    decreases k
  {
    hide At, S.SnapshotOf, E.Derived;
    if j < k {
      LogGrows(s, events, i, j, k - 1, seeded);
      var saves := Saves(s, events, i, k);
      assert saves[..|saves| - 1] == Saves(s, events, i, k - 1);
    }
  }
}
