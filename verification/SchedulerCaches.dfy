/** How every operation on the run moves the sets the scheduler caches. */
module SchedulerCaches {
  import opened Ids
  import opened Definition
  import opened Run
  import opened RunProofs
  import opened SnapshotProofs
  import opened Scheduler
  import opened SchedulerInv

  // ------------------------------------------------------------------
  // Attempts under way

  lemma AttemptRebuilt(id: Text, a: Text)
    requires IsAttempt(id, a)
    ensures a == AttemptOf(id, TaskOf(id, a), NumberOf(id, a))
  {
    var t: Text, n: nat :| AttemptOf(id, t, n) == a;
    AttemptParts(id, t, n);
  }

  /** The attempt a running task names is the one its counter says. */
  lemma CurrentOf(run: RunState, t: Text)
    requires TasksOk(run) && t in run.tasks && run.tasks[t].attemptCount > 0
    ensures var a := run.tasks[t].currentAttemptId;
            && a == AttemptOf(run.id, t, run.tasks[t].attemptCount)
            && a != [] && Known(run.id, run.tasks, a) && TaskOf(run.id, a) == t
            && NumberOf(run.id, a) == run.tasks[t].attemptCount
  {
    assert TaskOk(run.id, run.createdAt, MaxAttemptsOf(run.definition, t), t, run.tasks[t]);
    AttemptParts(run.id, t, run.tasks[t].attemptCount);
    AllAttemptParts(run.id);
  }

  lemma NextOf(run: RunState, t: Text)
    requires TasksOk(run) && t in run.tasks
    ensures var a := NextAttemptId(run.tasks[t]);
            && a == AttemptOf(run.id, t, run.tasks[t].attemptCount + 1)
            && a != [] && Known(run.id, run.tasks, a) && TaskOf(run.id, a) == t
            && NumberOf(run.id, a) == run.tasks[t].attemptCount + 1
  {
    assert TaskOk(run.id, run.createdAt, MaxAttemptsOf(run.definition, t), t, run.tasks[t]);
    AttemptParts(run.id, t, run.tasks[t].attemptCount + 1);
    AllAttemptParts(run.id);
  }

  lemma RunningIsCurrent(run: RunState, x: Text)
    requires TasksOk(run)
    ensures x in RunningAttempts(run) <==> Current(run.id, run.tasks, x)
  {
    if x in RunningAttempts(run) {
      var t :| t in run.tasks && run.tasks[t].status.Running? && run.tasks[t].currentAttemptId == x && x != [];
      assert TaskOk(run.id, run.createdAt, MaxAttemptsOf(run.definition, t), t, run.tasks[t]);
      CurrentOf(run, t);
    }
    if Current(run.id, run.tasks, x) {
      var t := TaskOf(run.id, x);
      assert TaskOk(run.id, run.createdAt, MaxAttemptsOf(run.definition, t), t, run.tasks[t]);
      CurrentOf(run, t);
      AttemptRebuilt(run.id, x);
      assert run.tasks[t].currentAttemptId == x;
    }
  }

  lemma NothingToUnlockKept(a: RunState, b: RunState)
    requires NothingToUnlock(a) && b.definition == a.definition
    requires PendingIds(b) == PendingIds(a) && SucceededTasks(b) == SucceededTasks(a)
    ensures NothingToUnlock(b)
  {
  }

  // ------------------------------------------------------------------
  // Nothing moves

  lemma SameCache(a: RunState, b: RunState, cache: Cache)
    requires CacheOk(a, cache) && b.definition == a.definition && b.tasks.Keys == a.tasks.Keys
    requires forall t :: t in a.tasks ==>
               b.tasks[t].status == a.tasks[t].status && b.tasks[t].currentAttemptId == a.tasks[t].currentAttemptId
    ensures CacheOk(b, cache) && (AnyFailed(b) <==> AnyFailed(a)) && (Unfinished(b) <==> Unfinished(a))
  {
    assert ReadyIds(b) == ReadyIds(a);
    assert SucceededTasks(b) == SucceededTasks(a);
    assert PendingIds(b) == PendingIds(a);
    SameRunningAttempts(a, b);
    NothingToUnlockKept(a, b);
  }

  // ------------------------------------------------------------------
  // A claim is leased

  lemma StartSets(run: RunState, t: Text, next: RunState)
    requires t in run.tasks && run.tasks[t].status.Ready?
    requires t in next.tasks && next.tasks == run.tasks[t := next.tasks[t]] && next.tasks[t].status.Running?
    ensures ReadyIds(next) == ReadyIds(run) - {t} && SucceededTasks(next) == SucceededTasks(run)
    ensures PendingIds(next) == PendingIds(run)
    ensures !AnyCanceled(run) ==> !AnyCanceled(next)
    ensures !AnyFailed(run) ==> !AnyFailed(next)
  {
    assert forall u :: u in run.tasks && u != t ==> next.tasks[u] == run.tasks[u];
  }

  lemma StartRunning(run: RunState, t: Text, next: RunState, a: Text)
    requires TasksOk(run) && TasksOk(next) && next.id == run.id
    requires t in run.tasks && run.tasks[t].status.Ready? && a == NextAttemptId(run.tasks[t])
    requires t in next.tasks && next.tasks == run.tasks[t := next.tasks[t]] && next.tasks[t].status.Running?
    requires next.tasks[t].attemptCount == run.tasks[t].attemptCount + 1
    ensures RunningAttempts(next) == RunningAttempts(run) + {a}
  {
    NextOf(run, t);
    forall x ensures x in RunningAttempts(next) <==> x in RunningAttempts(run) + {a} {
      RunningIsCurrent(run, x);
      RunningIsCurrent(next, x);
      if IsAttempt(run.id, x) { AttemptRebuilt(run.id, x); }
    }
  }

  /** Leasing the delivered attempt moves it from ready to in flight and nothing else. */
  lemma StartCache(run: RunState, t: Text, workerId: Text, leaseDuration: int, now: Time, cache: Cache, a: Text)
    requires RunInv(run) && run.status.RunRunning? && CacheOk(run, cache) && !AnyFailed(run)
    requires t in run.tasks && run.tasks[t].status.Ready? && a == NextAttemptId(run.tasks[t])
    requires StartAttempt(run, t, workerId, leaseDuration, now).Ok?
    ensures var next := StartAttempt(run, t, workerId, leaseDuration, now).value;
            CacheOk(next, cache.(ready := cache.ready - {t}, inFlight := cache.inFlight + {a})) && !AnyFailed(next)
  {
    hide RunInv, TasksOk, Advances, NextAttemptId, ValidIdentifier, NothingToUnlock, AnyCanceled, AnyFailed;
    var next := StartAttempt(run, t, workerId, leaseDuration, now).value;
    StartAttemptInv(run, t, workerId, leaseDuration, now);
    InvParts(run);
    InvParts(next);
    StartSets(run, t, next);
    StartRunning(run, t, next, a);
    NothingToUnlockKept(run, next);
  }

  // ------------------------------------------------------------------
  // An attempt ends

  lemma EndSets(run: RunState, t: Text, next: RunState)
    requires t in run.tasks && run.tasks[t].status.Running?
    requires t in next.tasks && next.tasks == run.tasks[t := next.tasks[t]]
    requires !next.tasks[t].status.Running? && !next.tasks[t].status.Pending? && !next.tasks[t].status.Canceled?
    ensures ReadyIds(next) == ReadyIds(run) + (if next.tasks[t].status.Ready? then {t} else {})
    ensures SucceededTasks(next) == SucceededTasks(run) + (if next.tasks[t].status.Succeeded? then {t} else {})
    ensures PendingIds(next) == PendingIds(run)
    ensures !AnyCanceled(run) ==> !AnyCanceled(next)
    ensures !AnyFailed(run) && !next.tasks[t].status.Failed? ==> !AnyFailed(next)
    ensures !next.tasks[t].status.Succeeded? ==> Unfinished(next)
  {
    assert forall u :: u in run.tasks && u != t ==> next.tasks[u] == run.tasks[u];
  }

  lemma EndRunning(run: RunState, t: Text, next: RunState, a: Text)
    requires TasksOk(run) && TasksOk(next) && next.id == run.id
    requires t in run.tasks && run.tasks[t].status.Running? && a == run.tasks[t].currentAttemptId
    requires t in next.tasks && next.tasks == run.tasks[t := next.tasks[t]] && !next.tasks[t].status.Running?
    requires next.tasks[t].attemptCount == run.tasks[t].attemptCount
    ensures RunningAttempts(next) == RunningAttempts(run) - {a}
    ensures Past(next.id, next.tasks, a)
  {
    assert TaskOk(run.id, run.createdAt, MaxAttemptsOf(run.definition, t), t, run.tasks[t]);
    CurrentOf(run, t);
    forall x ensures x in RunningAttempts(next) <==> x in RunningAttempts(run) - {a} {
      RunningIsCurrent(run, x);
      RunningIsCurrent(next, x);
      if IsAttempt(run.id, x) { AttemptRebuilt(run.id, x); }
    }
  }

  /** The outcome of a completion and what it leaves of the task. */
  lemma CompletedStatus(policy: RetryPolicy, task: TaskRun, output: Text, error: Option<TaskError>, ts: Time)
    ensures var (next, outcome) := CompletedTask(policy, task, output, error, ts);
            && next.attemptCount == task.attemptCount && next.lease.None?
            && (outcome.Completed? <==> next.status.Succeeded?)
            && (outcome.RetryScheduled? <==> next.status.Ready? || next.status.RetryWaiting?)
            && (outcome.Exhausted? <==> next.status.Failed?)
            && (next.status.Succeeded? || next.status.Ready? || next.status.RetryWaiting? || next.status.Failed?)
  {
  }

  /** What a completion does to the run, whoever sends it. */
  lemma CompleteEffect(run: RunState, job: Job, workerId: Text, output: Text, error: Option<TaskError>, now: Time)
    requires job.taskId in run.tasks
    ensures var t := job.taskId;
            var r := CompleteAttempt(run, t, job.taskRunId, workerId, job.attemptId, output, error, now);
            && r.Ok?
            && (r.value.1.Ignored? <==> !MayComplete(run.tasks[t], job.taskRunId, workerId, job.attemptId))
            && (r.value.1.Ignored? ==> r.value.0 == run)
            && (!r.value.1.Ignored? ==>
                  var next := r.value.0;
                  && next == run.(tasks := next.tasks, updatedAt := next.updatedAt)
                  && t in next.tasks && next.tasks == run.tasks[t := next.tasks[t]]
                  && run.tasks[t].status.Running? && run.tasks[t].currentAttemptId == job.attemptId
                  && next.tasks[t].attemptCount == run.tasks[t].attemptCount && next.tasks[t].lease.None?
                  && (r.value.1.Completed? <==> next.tasks[t].status.Succeeded?)
                  && (r.value.1.RetryScheduled? <==> next.tasks[t].status.Ready? || next.tasks[t].status.RetryWaiting?)
                  && (r.value.1.Exhausted? <==> next.tasks[t].status.Failed?)
                  && !next.tasks[t].status.Running? && !next.tasks[t].status.Pending?
                     && !next.tasks[t].status.Canceled?)
  {
    CompletedStatus(PolicyOf(run.definition, job.taskId), run.tasks[job.taskId], output, error,
                    NextTimestamp(run, now));
  }

  lemma KeptLeases(run: RunState, t: Text, next: RunState)
    requires UniqueLeases(run) && t in run.tasks && t in next.tasks && next.tasks == run.tasks[t := next.tasks[t]]
    requires next.tasks[t].lease.None?
    ensures UniqueLeases(next)
  {
    UniqueLeasesKept(run, next);
  }

  // ------------------------------------------------------------------
  // Expired leases and due retries

  /** What the top of the loop does to one task. */
  lemma RefreshedTask(run: RunState, now1: Time, now2: Time, t: Text)
    requires t in run.tasks && (run.tasks[t].status.Running? ==>
                                  run.tasks[t].attemptCount > 0 && run.tasks[t].currentAttemptId != [])
    ensures var next := Refreshed(run, now1, now2);
            var task := run.tasks[t];
            var expired := t in ExpiredTasks(run, NextTimestamp(run, now1));
            var promoted := t in Promoted(run, now1, now2);
            && t in next.tasks && next.tasks[t].attemptCount == task.attemptCount
            && (next.tasks[t].lease.Some? ==> next.tasks[t].lease == task.lease)
            && (expired ==> task.status.Running? && RecoveryOf(run, t).attemptId == task.currentAttemptId)
            && (!expired && !promoted ==> next.tasks[t] == task)
            && (promoted ==> next.tasks[t].status.Ready?
                             && (task.status.RetryWaiting? || (expired && RecoveryOf(run, t).outcome.RetryScheduled?)))
            && (expired && !promoted && RecoveryOf(run, t).outcome.RetryScheduled? ==>
                  next.tasks[t].status.Ready? || next.tasks[t].status.RetryWaiting?)
            && (expired && !RecoveryOf(run, t).outcome.RetryScheduled? ==> next.tasks[t].status.Failed?)
  {
    var mid := RecoverExpired(run, now1);
    var ts := NextTimestamp(run, now1);
    assert mid.tasks[t] == if Expired(run.tasks[t], ts)
           then RecoveredTask(run.id, PolicyOf(run.definition, t), t, run.tasks[t], ts)
                           else run.tasks[t];
  }

  lemma RefreshStatus(run: RunState, now1: Time, now2: Time, t: Text)
    requires TasksOk(run) && t in run.tasks
    ensures var next := Refreshed(run, now1, now2);
            && t in next.tasks
            && (next.tasks[t].status.Ready? <==>
                  run.tasks[t].status.Ready? || t in Redispatched(run, now1, next) || t in Promoted(run, now1, now2))
            && (next.tasks[t].status.Succeeded? <==> run.tasks[t].status.Succeeded?)
            && (next.tasks[t].status.Pending? <==> run.tasks[t].status.Pending?)
            && (next.tasks[t].status.Canceled? ==> run.tasks[t].status.Canceled?)
  {
    if run.tasks[t].status.Running? { RunningHasAttempt(run, t); }
    RefreshedTask(run, now1, now2, t);
  }

  lemma RefreshSets(run: RunState, now1: Time, now2: Time)
    requires TasksOk(run)
    ensures var next := Refreshed(run, now1, now2);
            && next.tasks.Keys == run.tasks.Keys
            && ReadyIds(next) == ReadyIds(run) + Redispatched(run, now1, next) + Promoted(run, now1, now2)
            && SucceededTasks(next) == SucceededTasks(run) && PendingIds(next) == PendingIds(run)
            && (!AnyCanceled(run) ==> !AnyCanceled(next))
  {
    hide TasksOk, Refreshed, Promoted;
    var next := Refreshed(run, now1, now2);
    assert next.tasks.Keys == run.tasks.Keys by { RefreshKeys(run, now1, now2); }
    assert Promoted(run, now1, now2) <= run.tasks.Keys by { RefreshKeys(run, now1, now2); }
    forall t | t in run.tasks { RefreshStatus(run, now1, now2, t); }
  }

  lemma RefreshKeys(run: RunState, now1: Time, now2: Time)
    ensures Refreshed(run, now1, now2).tasks.Keys == run.tasks.Keys
    ensures Promoted(run, now1, now2) <= run.tasks.Keys
  {
  }

  lemma RunningHasAttempt(run: RunState, t: Text)
    requires TasksOk(run) && t in run.tasks && run.tasks[t].status.Running?
    ensures run.tasks[t].attemptCount > 0 && run.tasks[t].currentAttemptId != []
  {
    assert TaskOk(run.id, run.createdAt, MaxAttemptsOf(run.definition, t), t, run.tasks[t]);
    CurrentOf(run, t);
  }

  /** The report names exactly the expired tasks. */
  lemma RecoveryReport(run: RunState, now: Time, i: nat)
    requires i < |Recoveries(run, now)|
    ensures exists t :: t in ExpiredTasks(run, NextTimestamp(run, now)) && Recoveries(run, now)[i] == RecoveryOf(run, t)
  {
    var ids := SortedSeq(ExpiredTasks(run, NextTimestamp(run, now)));
    assert ids[i] in ids;
  }

  lemma Reported(run: RunState, now: Time, t: Text) returns (i: nat)
    requires t in ExpiredTasks(run, NextTimestamp(run, now))
    ensures i < |Recoveries(run, now)| && Recoveries(run, now)[i] == RecoveryOf(run, t)
  {
    var ids := SortedSeq(ExpiredTasks(run, NextTimestamp(run, now)));
    i :| 0 <= i < |ids| && ids[i] == t;
  }

  lemma ReportedAttempt(run: RunState, now: Time, t: Text)
    requires t in ExpiredTasks(run, NextTimestamp(run, now))
    ensures RecoveryOf(run, t).attemptId in AttemptsOf(Recoveries(run, now))
  {
    var i := Reported(run, now, t);
  }

  /** An attempt recovery ends is past. */
  lemma RecoveredIsPast(run: RunState, now1: Time, now2: Time, x: Text)
    requires TasksOk(run) && x in AttemptsOf(Recoveries(run, now1))
    ensures var next := Refreshed(run, now1, now2); Past(next.id, next.tasks, x)
  {
    var i :| 0 <= i < |Recoveries(run, now1)| && Recoveries(run, now1)[i].attemptId == x;
    RecoveryReport(run, now1, i);
    var t :| t in ExpiredTasks(run, NextTimestamp(run, now1)) && Recoveries(run, now1)[i] == RecoveryOf(run, t);
    RunningHasAttempt(run, t);
    RefreshedTask(run, now1, now2, t);
    CurrentOf(run, t);
  }

  lemma StillRunning(run: RunState, now1: Time, now2: Time, x: Text)
    requires TasksOk(run) && Current(run.id, run.tasks, x) && x !in AttemptsOf(Recoveries(run, now1))
    ensures var next := Refreshed(run, now1, now2); Current(next.id, next.tasks, x)
  {
    var t := TaskOf(run.id, x);
    RunningHasAttempt(run, t);
    RefreshedTask(run, now1, now2, t);
    CurrentOf(run, t);
    AttemptRebuilt(run.id, x);
    if t in ExpiredTasks(run, NextTimestamp(run, now1)) {
      ReportedAttempt(run, now1, t);
    }
  }

  lemma NowRunning(run: RunState, now1: Time, now2: Time, x: Text)
    requires TasksOk(run)
    requires var next := Refreshed(run, now1, now2); Current(next.id, next.tasks, x)
    ensures Current(run.id, run.tasks, x) && x !in AttemptsOf(Recoveries(run, now1))
  {
    var t := TaskOf(run.id, x);
    var next := Refreshed(run, now1, now2);
    assert t in run.tasks;
    if run.tasks[t].status.Running? { RunningHasAttempt(run, t); }
    RefreshedTask(run, now1, now2, t);
    if x in AttemptsOf(Recoveries(run, now1)) {
      RecoveredIsPast(run, now1, now2, x);
    }
  }

  lemma RefreshRunning(run: RunState, now1: Time, now2: Time)
    requires TasksOk(run) && TasksOk(Refreshed(run, now1, now2))
    ensures RunningAttempts(Refreshed(run, now1, now2)) == RunningAttempts(run) - AttemptsOf(Recoveries(run, now1))
  {
    var next := Refreshed(run, now1, now2);
    forall x ensures x in RunningAttempts(next) <==> x in RunningAttempts(run) - AttemptsOf(Recoveries(run, now1)) {
      RunningIsCurrent(run, x);
      RunningIsCurrent(next, x);
      if Current(next.id, next.tasks, x) { NowRunning(run, now1, now2, x); }
      if Current(run.id, run.tasks, x) && x !in AttemptsOf(Recoveries(run, now1)) { StillRunning(run, now1, now2, x); }
    }
  }

  /** A fatal report means a failed task, and no other report makes one. */
  lemma RefreshFailed(run: RunState, now1: Time, now2: Time)
    requires TasksOk(run) && !AnyFailed(run)
    ensures AnyFailed(Refreshed(run, now1, now2)) <==> Fatal(Recoveries(run, now1))
  {
    var next := Refreshed(run, now1, now2);
    if Fatal(Recoveries(run, now1)) {
      var i :| 0 <= i < |Recoveries(run, now1)| && !Recoveries(run, now1)[i].outcome.RetryScheduled?;
      RecoveryReport(run, now1, i);
      var t :| t in ExpiredTasks(run, NextTimestamp(run, now1)) && Recoveries(run, now1)[i] == RecoveryOf(run, t);
      RunningHasAttempt(run, t);
      RefreshedTask(run, now1, now2, t);
      assert next.tasks[t].status.Failed?;
    } else {
      forall t | t in next.tasks ensures !next.tasks[t].status.Failed? {
        if run.tasks[t].status.Running? { RunningHasAttempt(run, t); }
        RefreshedTask(run, now1, now2, t);
        if t in ExpiredTasks(run, NextTimestamp(run, now1)) {
          var i := Reported(run, now1, t);
        }
      }
    }
  }

  lemma RefreshUnfinished(run: RunState, now1: Time, now2: Time)
    requires TasksOk(run) && (Recoveries(run, now1) != [] || Promoted(run, now1, now2) != {})
    ensures Unfinished(Refreshed(run, now1, now2))
  {
    var t: Text;
    if Recoveries(run, now1) != [] {
      RecoveryReport(run, now1, 0);
      t :| t in ExpiredTasks(run, NextTimestamp(run, now1));
    } else {
      t :| t in Promoted(run, now1, now2);
    }
    if run.tasks[t].status.Running? { RunningHasAttempt(run, t); }
    RefreshedTask(run, now1, now2, t);
    assert !Refreshed(run, now1, now2).tasks[t].status.Succeeded?;
  }

  lemma RefreshLeases(run: RunState, now1: Time, now2: Time)
    requires TasksOk(run) && UniqueLeases(run)
    ensures UniqueLeases(Refreshed(run, now1, now2))
  {
    var next := Refreshed(run, now1, now2);
    forall t | t in next.tasks && next.tasks[t].lease.Some?
      ensures run.tasks[t].lease.Some? && next.tasks[t].lease.value.workerId == run.tasks[t].lease.value.workerId
    {
      if run.tasks[t].status.Running? { RunningHasAttempt(run, t); }
      RefreshedTask(run, now1, now2, t);
    }
    UniqueLeasesKept(run, next);
  }

  /** The caches after the top of the loop are those of the refreshed run. */
  lemma RefreshCache(run: RunState, now1: Time, now2: Time, cache: Cache)
    requires RunInv(run) && run.status.RunRunning? && CacheOk(run, cache)
    ensures var next := Refreshed(run, now1, now2);
            var recoveries := Recoveries(run, now1);
            && RunInv(next) && Advances(run, next) && next.status.RunRunning? && next.version == run.version
            && CacheOk(next, cache.(inFlight := cache.inFlight - AttemptsOf(recoveries),
                                    ready := cache.ready + Redispatched(run, now1, next) + Promoted(run, now1, now2),
                                    pending := cache.pending - AttemptsOf(recoveries)))
  {
    var mid := RecoverExpired(run, now1);
    RecoverInv(run, now1);
    PromoteInv(mid, now2);
    AdvancesTransitive(run, mid, Refreshed(run, now1, now2));
    RefreshSets(run, now1, now2);
    RefreshRunning(run, now1, now2);
    NothingToUnlockKept(run, Refreshed(run, now1, now2));
  }

  lemma {:induction false} PendingForAllIds(pending: map<Text, seq<Claim>>, recoveries: seq<Recovery>, i: nat)
    requires PendingOk(pending) && i < |PendingForAll(pending, recoveries)|
    ensures PendingForAll(pending, recoveries)[i].ticket.id in AttemptsOf(recoveries)
    decreases |recoveries|
  {
    var first, rest := PendingFor(pending, recoveries[0].attemptId), pending - {recoveries[0].attemptId};
    if i < |first| {
      assert first[i].ticket.id == recoveries[0].attemptId;
    } else {
      assert PendingOk(rest);
      PendingForAllIds(rest, recoveries[1..], i - |first|);
      var x := PendingForAll(pending, recoveries)[i].ticket.id;
      var j :| 0 <= j < |recoveries[1..]| && recoveries[1..][j].attemptId == x;
      assert recoveries[j + 1].attemptId == x;
    }
  }
}
