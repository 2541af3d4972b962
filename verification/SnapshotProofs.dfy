/** Snapshots of the engine's own runs: when the store accepts them, and that nothing is lost. */
module SnapshotProofs {
  import opened Ids
  import opened Definition
  import opened Graph
  import opened Run
  import opened Snapshot

  lemma OwnTaskValid(run: RunState, t: Text)
    requires TasksOk(run) && t in run.tasks && ValidIdentifier(run.id) && ValidIdentifier(t) && 0 < run.createdAt
    ensures TaskValid(run.id, run.createdAt, run.tasks[t])
    ensures Filled(run.id, run.tasks[t]) == run.tasks[t]
  {
    var task := run.tasks[t];
    assert TaskOk(run.id, run.createdAt, MaxAttemptsOf(run.definition, t), t, task);
    if task.attemptCount > 0 {
      DerivedNamesValid(run.id, t, task.attemptCount);
    }
  }

  lemma ValidTaskIds(run: RunState)
    requires HeaderOk(run) && ValidDefinition(run.definition)
    ensures forall t :: t in run.tasks ==> ValidIdentifier(t)
    ensures |run.tasks.Keys| == |run.definition.tasks| > 0
  {
    forall t | t in run.tasks ensures ValidIdentifier(t) {
      TaskFacts(run.definition, t);
    }
    CountIds(run.definition.tasks);
    assert TaskIds(run.definition) == set i | 0 <= i < |run.definition.tasks| :: run.definition.tasks[i].id;
  }

  lemma {:induction false} CountIds(tasks: seq<TaskDefinition>)
    requires DistinctIds(tasks)
    ensures |set i | 0 <= i < |tasks| :: tasks[i].id| == |tasks|
    decreases |tasks|
  {
    if tasks != [] {
      var init := tasks[..|tasks| - 1];
      assert DistinctIds(init) by {
        assert forall i :: 0 <= i < |init| ==> init[i] == tasks[i];
      }
      CountIds(init);
      LastId(tasks);
    }
  }

  lemma LastId(tasks: seq<TaskDefinition>)
    requires DistinctIds(tasks) && tasks != []
    ensures var init, last := tasks[..|tasks| - 1], tasks[|tasks| - 1].id;
            var a := set i | 0 <= i < |init| :: init[i].id;
            last !in a && (set i | 0 <= i < |tasks| :: tasks[i].id) == a + {last}
  {
    var init, last := tasks[..|tasks| - 1], tasks[|tasks| - 1].id;
    var a := set i | 0 <= i < |init| :: init[i].id;
    var b := set i | 0 <= i < |tasks| :: tasks[i].id;
    forall x | x in b ensures x in a + {last} {
      var i :| 0 <= i < |tasks| && tasks[i].id == x;
      if i < |init| {
        assert init[i].id == x;
      }
    }
    forall x | x in a + {last} ensures x in b {
      if x in a {
        var i :| 0 <= i < |init| && init[i].id == x;
        assert tasks[i].id == x;
      } else {
        assert tasks[|tasks| - 1].id == x;
      }
    }
    assert forall i :: 0 <= i < |init| ==> init[i].id == tasks[i].id != last;
  }

  lemma LeasesCorrespond(run: RunState)
    requires forall t :: t in run.tasks ==> run.tasks[t].taskId == t
    ensures DistinctLeases(TaskList(run.tasks)) <==> UniqueLeases(run)
  {
    TaskListFacts(run.tasks);
    var list := TaskList(run.tasks);
    if DistinctLeases(list) {
      forall t, u | t in run.tasks && u in run.tasks && t != u && run.tasks[t].lease.Some? && run.tasks[u].lease.Some?
        ensures run.tasks[t].lease.value.workerId != run.tasks[u].lease.value.workerId
      {
        var i :| 0 <= i < |list| && list[i] == run.tasks[t];
        var j :| 0 <= j < |list| && list[j] == run.tasks[u];
        assert i != j;
      }
    }
  }

  lemma HoldersCorrespond(run: RunState)
    requires (forall t :: t in run.tasks ==> run.tasks[t].taskId == t) && WorkersOk(run)
    ensures LeaseHolders(TaskList(run.tasks)) <= WorkerIds(WorkerList(run.workers))
  {
    TaskListFacts(run.tasks);
    WorkerListFacts(run.workers);
    var list := TaskList(run.tasks);
    forall w | w in LeaseHolders(list) ensures w in run.workers {
      var i :| 0 <= i < |list| && list[i].lease.Some? && list[i].lease.value.workerId == w;
      assert list[i] == run.tasks[list[i].taskId];
    }
  }

  lemma WorkersCorrespond(run: RunState)
    requires WorkersOk(run) && 0 < run.createdAt
    ensures WorkersValid(run.createdAt, WorkerList(run.workers))
  {
    WorkerListFacts(run.workers);
  }

  lemma AggregateCorresponds(run: RunState)
    requires (forall t :: t in run.tasks ==> run.tasks[t].taskId == t) && AggregateOk(run)
    ensures AggregateValid(run.status, TaskList(run.tasks))
  {
    TaskListFacts(run.tasks);
    var list := TaskList(run.tasks);
    if run.status.RunFailed? {
      var t :| t in run.tasks && !run.tasks[t].status.Succeeded?;
      var i :| 0 <= i < |list| && list[i] == run.tasks[t];
      assert list[i].status.Failed? || list[i].status.Canceled?;
    }
  }

  lemma OwnTask(run: RunState, t: Text)
    requires HeaderOk(run) && TasksOk(run) && ValidDefinition(run.definition) && t in run.tasks
    ensures run.tasks[t].taskId == t
    ensures TaskValid(run.id, run.createdAt, run.tasks[t])
    ensures Filled(run.id, run.tasks[t]) == run.tasks[t]
  {
    TaskFacts(run.definition, t);
    OwnTaskValid(run, t);
    assert TaskOk(run.id, run.createdAt, MaxAttemptsOf(run.definition, t), t, run.tasks[t]);
  }

  predicate WellKeyed(runId: Text, tasks: map<Text, TaskRun>) {
    forall t :: t in tasks ==> tasks[t].taskId == t && Filled(runId, tasks[t]) == tasks[t]
  }

  lemma OwnTasksKeyed(run: RunState)
    requires HeaderOk(run) && TasksOk(run) && ValidDefinition(run.definition)
    ensures WellKeyed(run.id, run.tasks)
  {
    forall t | t in run.tasks ensures run.tasks[t].taskId == t && Filled(run.id, run.tasks[t]) == run.tasks[t] {
      OwnTask(run, t);
    }
  }

  lemma OwnTaskListValid(run: RunState)
    requires HeaderOk(run) && TasksOk(run) && ValidDefinition(run.definition)
    ensures forall i :: 0 <= i < |TaskList(run.tasks)| ==> TaskValid(run.id, run.createdAt, TaskList(run.tasks)[i])
    ensures DistinctTasks(TaskList(run.tasks))
  {
    OwnTasksKeyed(run);
    TaskListFacts(run.tasks);
    var list := TaskList(run.tasks);
    forall i | 0 <= i < |list| ensures TaskValid(run.id, run.createdAt, list[i]) {
      OwnTask(run, list[i].taskId);
    }
  }

  lemma OwnHeaderValid(run: RunState)
    requires HeaderOk(run) && ValidDefinition(run.definition)
    ensures HeaderValid(SnapshotOf(run))
  {
    ValidTaskIds(run);
  }

  /** The store accepts a snapshot of the engine exactly when no worker holds two leases. */
  lemma OwnSnapshotValid(run: RunState)
    requires RunInv(run) && ValidDefinition(run.definition)
    ensures SnapshotValid(SnapshotOf(run)) <==> UniqueLeases(run)
  {
    var s := SnapshotOf(run);
    assert HeaderValid(s) by {
      OwnHeaderValid(run);
    }
    OwnTasksKeyed(run);
    assert TasksValid(s) <==> UniqueLeases(run) by {
      OwnTaskListValid(run);
      LeasesCorrespond(run);
    }
    assert LeaseHolders(s.tasks) <= WorkerIds(s.workers) by {
      HoldersCorrespond(run);
    }
    assert WorkersValid(s.createdAt, s.workers) by {
      WorkersCorrespond(run);
    }
    assert AggregateValid(s.status, s.tasks) by {
      AggregateCorresponds(run);
    }
  }

  function Restricted<V>(m: map<Text, V>, ids: seq<Text>): map<Text, V> {
    map t | t in m && t in ids :: m[t]
  }

  lemma RestrictedStep<V>(m: map<Text, V>, ids: seq<Text>)
    requires ids != [] && ids[|ids| - 1] in m
    ensures Restricted(m, ids) == Restricted(m, ids[..|ids| - 1])[ids[|ids| - 1] := m[ids[|ids| - 1]]]
  {
    assert ids == ids[..|ids| - 1] + [ids[|ids| - 1]];
  }

  lemma {:induction false} TaskMapOfIds(runId: Text, tasks: map<Text, TaskRun>, ids: seq<Text>)
    requires WellKeyed(runId, tasks) && forall x :: x in ids ==> x in tasks
    ensures TaskMap(runId, ListTasks(tasks, ids)) == Restricted(tasks, ids)
    decreases |ids|
  {
    if ids != [] {
      var n := |ids| - 1;
      TaskMapOfIds(runId, tasks, ids[..n]);
      RestrictedStep(tasks, ids);
      assert ListTasks(tasks, ids)[..n] == ListTasks(tasks, ids[..n]);
      assert ids[n] in ids;
    }
  }

  lemma {:induction false} WorkerMapOfIds(workers: map<Text, Heartbeat>, ids: seq<Text>)
    requires forall w :: w in workers ==> workers[w].workerId == w
    requires forall x :: x in ids ==> x in workers
    ensures WorkerMap(ListWorkers(workers, ids)) == Restricted(workers, ids)
    decreases |ids|
  {
    if ids != [] {
      var n := |ids| - 1;
      WorkerMapOfIds(workers, ids[..n]);
      RestrictedStep(workers, ids);
      assert ListWorkers(workers, ids)[..n] == ListWorkers(workers, ids[..n]);
      assert ids[n] in ids;
    }
  }

  lemma TaskMapOfList(runId: Text, tasks: map<Text, TaskRun>)
    requires WellKeyed(runId, tasks)
    ensures TaskMap(runId, TaskList(tasks)) == tasks
  {
    TaskMapOfIds(runId, tasks, SortedSeq(tasks.Keys));
    assert Restricted(tasks, SortedSeq(tasks.Keys)) == tasks;
  }

  lemma WorkerMapOfList(workers: map<Text, Heartbeat>)
    requires forall w :: w in workers ==> workers[w].workerId == w
    ensures WorkerMap(WorkerList(workers)) == workers
  {
    WorkerMapOfIds(workers, SortedSeq(workers.Keys));
    assert Restricted(workers, SortedSeq(workers.Keys)) == workers;
  }

  /** Round trip: restoring the snapshot of a run gives back the run, all of it, whenever the store
      would accept it; so taking the snapshot again gives the identical snapshot. */
  lemma RestoreRoundTrip(run: RunState)
    requires RunInv(run) && ValidDefinition(run.definition)
    ensures UniqueLeases(run) ==> Restore(SnapshotOf(run), run.definition) == Ok(run)
    ensures UniqueLeases(run) ==> SnapshotOf(Restore(SnapshotOf(run), run.definition).value) == SnapshotOf(run)
    ensures !UniqueLeases(run) ==> Restore(SnapshotOf(run), run.definition).Err?
  {
    OwnSnapshotValid(run);
    OwnTasksKeyed(run);
    ValidTaskIds(run);
    TaskMapOfList(run.id, run.tasks);
    WorkerMapOfList(run.workers);
  }

  // ------------------------------------------------------------------
  // One lease per worker

  /** Leasing a task to a worker yields a storable run exactly when the worker held no lease. */
  lemma StartKeepsUniqueLeases(run: RunState, t: Text, workerId: Text, leaseDuration: int, now: Time)
    requires TasksOk(run) && UniqueLeases(run)
    requires StartAttempt(run, t, workerId, leaseDuration, now).Ok?
    ensures UniqueLeases(StartAttempt(run, t, workerId, leaseDuration, now).value) <==> !HoldsLease(run, workerId)
  {
    var next := StartAttempt(run, t, workerId, leaseDuration, now).value;
    assert TaskOk(run.id, run.createdAt, MaxAttemptsOf(run.definition, t), t, run.tasks[t]);
    assert run.tasks[t].lease.None?;
    assert next.tasks[t].lease.Some? && next.tasks[t].lease.value.workerId == workerId;
    assert forall u :: u in run.tasks && u != t ==> next.tasks[u] == run.tasks[u];
    if HoldsLease(run, workerId) {
      var u :| u in run.tasks && run.tasks[u].lease.Some? && run.tasks[u].lease.value.workerId == workerId;
      assert next.tasks[u].lease.value.workerId == next.tasks[t].lease.value.workerId;
    }
  }

  /** Whatever moves no lease to another worker keeps leases unique. */
  lemma UniqueLeasesKept(a: RunState, b: RunState)
    requires UniqueLeases(a) && b.tasks.Keys == a.tasks.Keys
    requires forall t :: t in b.tasks && b.tasks[t].lease.Some? ==>
               a.tasks[t].lease.Some? && b.tasks[t].lease.value.workerId == a.tasks[t].lease.value.workerId
    ensures UniqueLeases(b)
  {
  }
}
