/** The event log of a run: transitions derived from successive snapshots, numbered, and read from a cursor. */
module Events {
  import opened Ids
  import opened Run
  import opened Snapshot

  datatype Kind =
    | WorkflowStarted | TaskReady | TaskStarted | TaskSucceeded | TaskFailed | TaskCanceled | TaskRetry
    | WorkflowCompleted | SnapshotTaken

  datatype RunEvent = RunEvent(
    sequence: nat, kind: Kind, runId: Text, workflowId: Text, taskId: Text, status: Option<RunStatus>,
    taskStatus: Option<TaskStatus>, attemptId: Text, occurredAt: Time, previousTaskStatus: Option<TaskStatus>,
    workerId: Text)

  // ------------------------------------------------------------------
  // Deriving events

  /** The kind of a task's change and its place in the order of one save; nothing announces Pending. */
  function TransitionKind(from: TaskStatus, to: TaskStatus): Option<(Kind, byte)> {
    match to
    case Succeeded => Some((TaskSucceeded, 1))
    case Failed => Some((TaskFailed, 1))
    case Canceled => Some((TaskCanceled, 1))
    case RetryWaiting => Some((TaskRetry, 1))
    case Ready => if from.Running? then Some((TaskRetry, 1)) else Some((TaskReady, 2))
    case Running => Some((TaskStarted, 3))
    case Pending => None
  }

  function TasksById(tasks: seq<TaskRun>): map<Text, TaskRun> {
    if tasks == [] then map[] else TasksById(tasks[..|tasks| - 1])[tasks[|tasks| - 1].taskId := tasks[|tasks| - 1]]
  }

  predicate Announced(before: map<Text, TaskRun>, task: TaskRun) {
    && task.taskId in before && before[task.taskId].status != task.status
    && TransitionKind(before[task.taskId].status, task.status).Some?
  }

  /** Events are ordered by priority, then by task. One priority byte before the identifier does both. */
  function OrderKey(before: map<Text, TaskRun>, task: TaskRun): Text
    requires Announced(before, task)
  {
    [TransitionKind(before[task.taskId].status, task.status).value.1] + task.taskId
  }

  function WorkerOf(before: TaskRun, task: TaskRun): Text {
    if task.lease.Some? then task.lease.value.workerId
    else if before.lease.Some? then before.lease.value.workerId
    else []
  }

  function TaskEvent(current: RunSnapshot, before: TaskRun, task: TaskRun): RunEvent
    requires TransitionKind(before.status, task.status).Some?
  {
    RunEvent(0, TransitionKind(before.status, task.status).value.0, current.id, current.workflowId, task.taskId, None,
             Some(task.status), task.currentAttemptId, task.updatedAt, Some(before.status), WorkerOf(before, task))
  }

  function RunChange(kind: Kind, current: RunSnapshot): RunEvent {
    RunEvent(0, kind, current.id, current.workflowId, [], Some(current.status), None, [], current.updatedAt, None, [])
  }

  function StartEvents(previous: RunSnapshot, current: RunSnapshot): seq<RunEvent> {
    if !previous.status.RunRunning? && current.status.RunRunning? then [RunChange(WorkflowStarted, current)] else []
  }

  function EndEvents(previous: RunSnapshot, current: RunSnapshot): seq<RunEvent> {
    if previous.status != current.status && current.status.Finished() then [RunChange(WorkflowCompleted, current)]
      else []
  }

  function AnnouncedKeys(before: map<Text, TaskRun>, now: map<Text, TaskRun>): set<Text> {
    set t | t in now && now[t].taskId == t && Announced(before, now[t]) :: OrderKey(before, now[t])
  }

  /** A key names its task. */
  predicate KeyOk(before: map<Text, TaskRun>, now: map<Text, TaskRun>, key: Text) {
    key != [] && key[1..] in now && now[key[1..]].taskId == key[1..] && Announced(before, now[key[1..]])
  }

  function EventsFor(current: RunSnapshot, before: map<Text, TaskRun>, now: map<Text, TaskRun>,
                     keys: seq<Text>): seq<RunEvent>
    requires forall key :: key in keys ==> KeyOk(before, now, key)
  {
    if keys == [] then []
    else
      assert keys[|keys| - 1] in keys && KeyOk(before, now, keys[|keys| - 1]);
      var t := keys[|keys| - 1][1..];
      EventsFor(current, before, now, keys[..|keys| - 1]) + [TaskEvent(current, before[t], now[t])]
  }

  lemma KeysOk(before: map<Text, TaskRun>, now: map<Text, TaskRun>, key: Text)
    requires key in AnnouncedKeys(before, now)
    ensures KeyOk(before, now, key) && OrderKey(before, now[key[1..]]) == key
  {
    var t :| t in now && now[t].taskId == t && Announced(before, now[t]) && OrderKey(before, now[t]) == key;
    assert key[1..] == t;
  }

  /** The events of one save: a start, the task changes in order, an end. */
  ghost function Derived(previous: RunSnapshot, current: RunSnapshot): seq<RunEvent> {
    var before, now := TasksById(previous.tasks), TasksById(current.tasks);
    var keys := SortedSeq(AnnouncedKeys(before, now));
    assert forall key :: key in keys ==> KeyOk(before, now, key) by {
      forall key | key in keys ensures KeyOk(before, now, key) { KeysOk(before, now, key); }
    }
    StartEvents(previous, current) + EventsFor(current, before, now, keys) + EndEvents(previous, current)
  }

  // ------------------------------------------------------------------
  // Deriving as the program does it

  method IndexTasks(tasks: seq<TaskRun>) returns (byId: map<Text, TaskRun>)
    ensures byId == TasksById(tasks)
  {
    byId := map[];
    for n := 0 to |tasks|
      invariant byId == TasksById(tasks[..n])
    {
      byId := byId[tasks[n].taskId := tasks[n]];
      assert tasks[..n + 1][..n] == tasks[..n];
    }
    assert tasks[..|tasks|] == tasks;
  }

  lemma {:induction false} TaskOfList(tasks: seq<TaskRun>, t: Text)
    ensures t in TasksById(tasks) <==> exists i :: 0 <= i < |tasks| && tasks[i].taskId == t
    ensures t in TasksById(tasks) ==> TasksById(tasks)[t].taskId == t && TasksById(tasks)[t] in tasks
  {
    if tasks != [] {
      var front := tasks[..|tasks| - 1];
      TaskOfList(front, t);
      assert tasks[|tasks| - 1] in tasks;
      assert forall i :: 0 <= i < |front| ==> tasks[i] == front[i];
      if exists i :: 0 <= i < |front| && front[i].taskId == t {
        var i :| 0 <= i < |front| && front[i].taskId == t;
        assert tasks[i].taskId == t;
      }
    }
  }

  lemma ListedTask(tasks: seq<TaskRun>, i: nat)
    requires DistinctTasks(tasks) && i < |tasks|
    ensures tasks[i].taskId in TasksById(tasks) && TasksById(tasks)[tasks[i].taskId] == tasks[i]
  {
    TaskOfList(tasks, tasks[i].taskId);
    var task := TasksById(tasks)[tasks[i].taskId];
    var j :| 0 <= j < |tasks| && tasks[j] == task;
  }

  lemma CollectedKey(before: map<Text, TaskRun>, tasks: seq<TaskRun>, key: Text)
    requires DistinctTasks(tasks)
    ensures (exists i :: 0 <= i < |tasks| && Announced(before, tasks[i]) && OrderKey(before, tasks[i]) == key)
            <==> key in AnnouncedKeys(before, TasksById(tasks))
  {
    var now := TasksById(tasks);
    if i :| 0 <= i < |tasks| && Announced(before, tasks[i]) && OrderKey(before, tasks[i]) == key {
      ListedTask(tasks, i);
      assert OrderKey(before, now[tasks[i].taskId]) == key;
    }
    if key in AnnouncedKeys(before, now) {
      KeysOk(before, now, key);
      TaskOfList(tasks, key[1..]);
      var i :| 0 <= i < |tasks| && tasks[i] == now[key[1..]];
      assert OrderKey(before, tasks[i]) == key;
    }
  }

  /** The changed tasks, in the order of the snapshot. */
  function AnnouncedTasks(before: map<Text, TaskRun>, tasks: seq<TaskRun>): seq<TaskRun> {
    if tasks == [] then []
    else
      var last := tasks[|tasks| - 1];
      AnnouncedTasks(before, tasks[..|tasks| - 1]) + if Announced(before, last) then [last] else []
  }

  predicate AllAnnounced(before: map<Text, TaskRun>, list: seq<TaskRun>) {
    forall i :: 0 <= i < |list| ==> Announced(before, list[i])
  }

  predicate InKeyOrder(before: map<Text, TaskRun>, list: seq<TaskRun>)
    requires AllAnnounced(before, list)
  {
    forall i, j :: 0 <= i < j < |list| ==> Le(OrderKey(before, list[i]), OrderKey(before, list[j]))
  }

  function ChangesOf(current: RunSnapshot, before: map<Text, TaskRun>, list: seq<TaskRun>): (r: seq<RunEvent>)
    requires AllAnnounced(before, list)
    ensures |r| == |list|
    ensures forall i :: 0 <= i < |r| ==> r[i] == TaskEvent(current, before[list[i].taskId], list[i])
  {
    seq(|list|, i requires 0 <= i < |list| => TaskEvent(current, before[list[i].taskId], list[i]))
  }

  /** A listing of the changed tasks by priority and identifier. It is the only one unless a task is listed twice. */
  predicate Listing(before: map<Text, TaskRun>, tasks: seq<TaskRun>, list: seq<TaskRun>) {
    && multiset(list) == multiset(AnnouncedTasks(before, tasks))
    && AllAnnounced(before, list) && InKeyOrder(before, list)
  }

  /** The events of a save when tasks of one identifier may come in any order. */
  ghost predicate Derives(previous: RunSnapshot, current: RunSnapshot, events: seq<RunEvent>) {
    var before := TasksById(previous.tasks);
    exists list :: Listing(before, current.tasks, list) &&
                   events == StartEvents(previous, current) + ChangesOf(current, before, list) +
                       EndEvents(previous, current)
  }

  method CollectChanges(before: map<Text, TaskRun>, tasks: seq<TaskRun>) returns (list: seq<TaskRun>)
    ensures list == AnnouncedTasks(before, tasks) && AllAnnounced(before, list)
  {
    list := [];
    for n := 0 to |tasks|
      invariant list == AnnouncedTasks(before, tasks[..n]) && AllAnnounced(before, list)
    {
      assert tasks[..n + 1][..n] == tasks[..n];
      if Announced(before, tasks[n]) {
        list := list + [tasks[n]];
      }
    }
    assert tasks[..|tasks|] == tasks;
  }

  method InsertChange(before: map<Text, TaskRun>, list: seq<TaskRun>, task: TaskRun) returns (r: seq<TaskRun>)
    requires AllAnnounced(before, list) && InKeyOrder(before, list) && Announced(before, task)
    ensures multiset(r) == multiset(list) + multiset{task} && AllAnnounced(before, r) && InKeyOrder(before, r)
  {
    hide Announced, OrderKey, Le;
    var n := |list|;
    while n > 0 && !Le(OrderKey(before, list[n - 1]), OrderKey(before, task))
      invariant 0 <= n <= |list|
      invariant forall i :: n <= i < |list| ==> !Le(OrderKey(before, list[i]), OrderKey(before, task))
    {
      n := n - 1;
    }
    r := list[..n] + [task] + list[n..];
    assert list == list[..n] + list[n..];
    InsertedAnnounced(before, list, task, n);
    forall i, j | 0 <= i < j < |r| ensures Le(OrderKey(before, r[i]), OrderKey(before, r[j])) {
      InsertedOrder(before, list, task, n, i, j);
    }
  }

  lemma InsertedAnnounced(before: map<Text, TaskRun>, list: seq<TaskRun>, task: TaskRun, n: nat)
    requires AllAnnounced(before, list) && Announced(before, task) && n <= |list|
    ensures AllAnnounced(before, list[..n] + [task] + list[n..])
  {
    hide Announced;
    var r := list[..n] + [task] + list[n..];
    forall i | 0 <= i < |r| ensures Announced(before, r[i]) {
      assert r[i] == if i < n then list[i] else if i == n then task else list[i - 1];
    }
  }

  lemma InsertedOrder(before: map<Text, TaskRun>, list: seq<TaskRun>, task: TaskRun, n: nat, i: nat, j: nat)
    requires AllAnnounced(before, list) && InKeyOrder(before, list) && Announced(before, task) && n <= |list|
             && i < j <= |list|
    requires n > 0 ==> Le(OrderKey(before, list[n - 1]), OrderKey(before, task))
    requires forall k :: n <= k < |list| ==> !Le(OrderKey(before, list[k]), OrderKey(before, task))
    ensures var r := list[..n] + [task] + list[n..];
            Announced(before, r[i]) && Announced(before, r[j]) && Le(OrderKey(before, r[i]), OrderKey(before, r[j]))
  {
    hide Announced, OrderKey, Le;
    var key := OrderKey(before, task);
    var r := list[..n] + [task] + list[n..];
    assert r[i] == if i < n then list[i] else if i == n then task else list[i - 1];
    assert r[j] == if j < n then list[j] else if j == n then task else list[j - 1];
    if j == n {
      if i < n - 1 { LeTransitive(OrderKey(before, list[i]), OrderKey(before, list[n - 1]), key); }
    } else if i == n {
      LeTotal(key, OrderKey(before, list[j - 1]));
    }
  }

  /** sort.Slice by priority and identifier. */
  method SortChanges(before: map<Text, TaskRun>, list: seq<TaskRun>) returns (r: seq<TaskRun>)
    requires AllAnnounced(before, list)
    ensures multiset(r) == multiset(list) && AllAnnounced(before, r) && InKeyOrder(before, r)
  {
    r := [];
    for n := 0 to |list|
      invariant multiset(r) == multiset(list[..n]) && AllAnnounced(before, r) && InKeyOrder(before, r)
    {
      assert list[..n + 1] == list[..n] + [list[n]];
      r := InsertChange(before, r, list[n]);
    }
    assert list[..|list|] == list;
  }

  method BuildEvents(current: RunSnapshot, before: map<Text, TaskRun>, list: seq<TaskRun>)
    returns (events: seq<RunEvent>)
    requires AllAnnounced(before, list)
    ensures events == ChangesOf(current, before, list)
  {
    events := [];
    for n := 0 to |list|
      invariant |events| == n && forall i :: 0 <= i < n ==> events[i] == ChangesOf(current, before, list)[i]
    {
      events := events + [TaskEvent(current, before[list[n].taskId], list[n])];
    }
  }

  method DeriveRunEvents(previous: RunSnapshot, current: RunSnapshot) returns (events: seq<RunEvent>)
    ensures Derives(previous, current, events)
    ensures DistinctTasks(current.tasks) ==> events == Derived(previous, current)
  {
    var before := IndexTasks(previous.tasks);
    var list := CollectChanges(before, current.tasks);
    list := SortChanges(before, list);
    var changes := BuildEvents(current, before, list);
    events := StartEvents(previous, current) + changes + EndEvents(previous, current);
    assert Listing(before, current.tasks, list);
    if DistinctTasks(current.tasks) {
      ListingUnique(previous, current, list);
    }
  }

  lemma {:induction false} AnnouncedOnce(before: map<Text, TaskRun>, tasks: seq<TaskRun>)
    ensures forall task :: task in AnnouncedTasks(before, tasks) <==> task in tasks && Announced(before, task)
    ensures DistinctTasks(tasks) ==> DistinctTasks(AnnouncedTasks(before, tasks))
  {
    if tasks != [] {
      var front, last := tasks[..|tasks| - 1], tasks[|tasks| - 1];
      AnnouncedOnce(before, front);
      assert tasks == front + [last];
      if DistinctTasks(tasks) {
        DistinctLast(front, last);
        DistinctMore(AnnouncedTasks(before, front), front, last);
      }
    }
  }

  lemma DistinctLast(front: seq<TaskRun>, last: TaskRun)
    requires DistinctTasks(front + [last])
    ensures DistinctTasks(front) && forall task :: task in front ==> task.taskId != last.taskId
  {
    var tasks := front + [last];
    assert tasks[|front|] == last;
    forall task | task in front ensures task.taskId != last.taskId {
      var i :| 0 <= i < |front| && front[i] == task;
      assert tasks[i] == task;
    }
    forall i, j | 0 <= i < j < |front| ensures front[i].taskId != front[j].taskId {
      assert tasks[i] == front[i] && tasks[j] == front[j];
    }
  }

  lemma DistinctMore(list: seq<TaskRun>, front: seq<TaskRun>, last: TaskRun)
    requires DistinctTasks(list) && (forall task :: task in list ==> task in front)
    requires forall task :: task in front ==> task.taskId != last.taskId
    ensures DistinctTasks(list + [last])
  {
    assert forall i :: 0 <= i < |list| ==> list[i] in list;
  }

  /** A rearrangement of tasks with distinct identifiers has distinct identifiers. */
  lemma RearrangedDistinct(list: seq<TaskRun>, tasks: seq<TaskRun>)
    requires multiset(list) == multiset(tasks) && DistinctTasks(tasks)
    ensures DistinctTasks(list)
  {
    forall i, j | 0 <= i < j < |list| ensures list[i].taskId != list[j].taskId {
      var x, y := list[i], list[j];
      assert x in multiset(list) && y in multiset(list);
      assert x in tasks && y in tasks;
      if x.taskId == y.taskId {
        assert x == y;
        TwiceCounted(list, i, j);
        OnlyOnce(tasks, x);
      }
    }
  }

  lemma TwiceCounted(list: seq<TaskRun>, i: nat, j: nat)
    requires i < j < |list| && list[i] == list[j]
    ensures multiset(list)[list[i]] >= 2
  {
    var front, rest := list[..j], list[j..];
    assert list == front + rest;
    assert front[i] in multiset(front) && rest[0] in multiset(rest);
  }

  lemma {:induction false} OnlyOnce(tasks: seq<TaskRun>, x: TaskRun)
    requires DistinctTasks(tasks)
    ensures multiset(tasks)[x] <= 1
  {
    if tasks != [] {
      var front, last := tasks[..|tasks| - 1], tasks[|tasks| - 1];
      assert tasks == front + [last];
      DistinctLast(front, last);
      OnlyOnce(front, x);
      assert x in multiset(front) ==> x in front;
    }
  }

  function KeysOf(before: map<Text, TaskRun>, list: seq<TaskRun>): (keys: seq<Text>)
    requires AllAnnounced(before, list)
    ensures |keys| == |list| && forall i :: 0 <= i < |keys| ==> keys[i] == OrderKey(before, list[i])
  {
    seq(|list|, i requires 0 <= i < |list| => OrderKey(before, list[i]))
  }

  /** Without a task listed twice the listing is determined: its keys are the announced ones, sorted. */
  lemma ListingKeys(before: map<Text, TaskRun>, tasks: seq<TaskRun>, list: seq<TaskRun>)
    requires DistinctTasks(tasks) && Listing(before, tasks, list)
    ensures KeysOf(before, list) == SortedSeq(AnnouncedKeys(before, TasksById(tasks)))
    ensures forall i :: 0 <= i < |list| ==> list[i] in tasks
  {
    hide AnnouncedKeys, TasksById, SortedSeq, AnnouncedTasks, Announced;
    AnnouncedOnce(before, tasks);
    var keys, announced := KeysOf(before, list), AnnouncedTasks(before, tasks);
    RearrangedDistinct(list, announced);
    assert forall task :: task in list <==> task in multiset(list);
    assert forall task :: task in announced <==> task in multiset(announced);
    forall i, j | 0 <= i < j < |keys| ensures Less(keys[i], keys[j]) {
      assert keys[i][1..] == list[i].taskId && keys[j][1..] == list[j].taskId;
    }
    forall key ensures key in keys <==> key in AnnouncedKeys(before, TasksById(tasks)) {
      ListedKey(before, tasks, list, key);
    }
    SortedUnique(keys, SortedSeq(AnnouncedKeys(before, TasksById(tasks))));
  }

  lemma ListedKey(before: map<Text, TaskRun>, tasks: seq<TaskRun>, list: seq<TaskRun>, key: Text)
    requires DistinctTasks(tasks) && AllAnnounced(before, list)
    requires forall task :: task in list <==> task in tasks && Announced(before, task)
    ensures key in KeysOf(before, list) <==> key in AnnouncedKeys(before, TasksById(tasks))
  {
    hide AnnouncedKeys, TasksById, Announced;
    CollectedKey(before, tasks, key);
    var keys := KeysOf(before, list);
    if key in keys {
      var i :| 0 <= i < |keys| && keys[i] == key;
      assert list[i] in list;
      var j :| 0 <= j < |tasks| && tasks[j] == list[i];
      assert OrderKey(before, tasks[j]) == key;
    }
    if i :| 0 <= i < |tasks| && Announced(before, tasks[i]) && OrderKey(before, tasks[i]) == key {
      assert tasks[i] in list;
      var j :| 0 <= j < |list| && list[j] == tasks[i];
      assert keys[j] == key;
    }
  }

  lemma ListingUnique(previous: RunSnapshot, current: RunSnapshot, list: seq<TaskRun>)
    requires DistinctTasks(current.tasks) && Listing(TasksById(previous.tasks), current.tasks, list)
    ensures Derived(previous, current)
            == StartEvents(previous, current) + ChangesOf(current, TasksById(previous.tasks), list) +
                EndEvents(previous, current)
  {
    hide TasksById, AnnouncedKeys, SortedSeq, KeyOk, EventsFor, Derived, AnnouncedTasks, Announced;
    var before, now := TasksById(previous.tasks), TasksById(current.tasks);
    ListingKeys(before, current.tasks, list);
    ChangesListed(previous, current);
    var keys, changes := KeysOf(before, list), ChangesOf(current, before, list);
    forall i | 0 <= i < |keys| ensures EventsFor(current, before, now, keys)[i] == changes[i] {
      EventAt(current, before, now, keys, i);
      var j :| 0 <= j < |current.tasks| && current.tasks[j] == list[i];
      ListedTask(current.tasks, j);
      assert keys[i][1..] == list[i].taskId;
    }
    assert EventsFor(current, before, now, keys) == changes;
  }

  // ------------------------------------------------------------------
  // Reading the log back

  // What a reader of the log knows: the status of the run and of each task.
  datatype View = View(status: RunStatus, tasks: map<Text, TaskStatus>)

  function ViewOf(s: RunSnapshot): View {
    View(s.status, Statuses(TasksById(s.tasks)))
  }

  function Statuses(tasks: map<Text, TaskRun>): map<Text, TaskStatus> {
    map t | t in tasks :: tasks[t].status
  }

  function Apply(v: View, e: RunEvent): View {
    var v1 := if e.status.Some? then v.(status := e.status.value) else v;
    if e.taskStatus.Some? then v1.(tasks := v1.tasks[e.taskId := e.taskStatus.value]) else v1
  }

  function Fold(v: View, events: seq<RunEvent>): View {
    if events == [] then v else Apply(Fold(v, events[..|events| - 1]), events[|events| - 1])
  }

  lemma {:induction false} FoldAppend(v: View, a: seq<RunEvent>, b: seq<RunEvent>)
    ensures Fold(v, a + b) == Fold(Fold(v, a), b)
  {
    if b == [] {
      assert a + b == a;
    } else {
      FoldAppend(v, a, b[..|b| - 1]);
      assert (a + b)[..|a + b| - 1] == a + b[..|b| - 1];
    }
  }

  /** A key names a task. */
  predicate Hit(keys: seq<Text>, t: Text) {
    exists key :: key in keys && key != [] && key[1..] == t
  }

  lemma HitLast(keys: seq<Text>, t: Text)
    requires keys != [] && keys[|keys| - 1] != []
    ensures Hit(keys, t) <==> Hit(keys[..|keys| - 1], t) || keys[|keys| - 1][1..] == t
  {
    var front, last := keys[..|keys| - 1], keys[|keys| - 1];
    assert forall key :: key in keys <==> key in front || key == last;
    assert last in keys;
  }

  /** Folding the task events overwrites exactly the announced tasks. */
  lemma {:induction false} FoldTaskEvents(v: View, current: RunSnapshot, before: map<Text, TaskRun>,
                                          now: map<Text, TaskRun>,
                                          keys: seq<Text>, t: Text)
    requires v.tasks == Statuses(before) && (forall key :: key in keys ==> KeyOk(before, now, key))
    ensures var r := Fold(v, EventsFor(current, before, now, keys));
            && r.status == v.status && r.tasks.Keys == before.Keys
            && (t in before && t in now ==> r.tasks[t] == if Hit(keys, t) then now[t].status else before[t].status)
  {
    if keys != [] {
      var front, key := keys[..|keys| - 1], keys[|keys| - 1];
      assert key in keys && KeyOk(before, now, key);
      FoldTaskEvents(v, current, before, now, front, t);
      HitLast(keys, t);
      var events := EventsFor(current, before, now, front);
      var e := TaskEvent(current, before[key[1..]], now[key[1..]]);
      assert EventsFor(current, before, now, keys) == events + [e];
      assert (events + [e])[..|events|] == events;
      assert Fold(v, events + [e]) == Apply(Fold(v, events), e);
    }
  }

  /** The same tasks before and after, none sent back to Pending, and the run not either. */
  predicate Representable(previous: RunSnapshot, current: RunSnapshot) {
    var before, now := TasksById(previous.tasks), TasksById(current.tasks);
    && now.Keys == before.Keys
    && (forall t :: t in now && now[t].status.Pending? ==> before[t].status.Pending?)
    && (current.status.RunPending? ==> previous.status.RunPending?)
  }

  lemma KeyOfTask(before: map<Text, TaskRun>, now: map<Text, TaskRun>, t: Text)
    requires t in before && t in now && now[t].taskId == t
    ensures Announced(before, now[t]) <==> Hit(SortedSeq(AnnouncedKeys(before, now)), t)
  {
    var keys := SortedSeq(AnnouncedKeys(before, now));
    forall key | key in keys ensures KeyOk(before, now, key) { KeysOk(before, now, key); }
    if Announced(before, now[t]) {
      var key := OrderKey(before, now[t]);
      assert key in AnnouncedKeys(before, now);
      assert key in keys && key[1..] == t;
    }
  }

  lemma ListedIds(tasks: seq<TaskRun>)
    ensures forall t :: t in TasksById(tasks) ==> TasksById(tasks)[t].taskId == t
  {
    forall t | t in TasksById(tasks) { TaskOfList(tasks, t); }
  }

  /** What folding a save's events gives, piece by piece. */
  lemma FoldPieces(previous: RunSnapshot, current: RunSnapshot) returns (r: View)
    ensures r.tasks == Fold(ViewOf(previous), Derived(previous, current)).tasks
    ensures Fold(ViewOf(previous), Derived(previous, current)).status == current.status
            <==> (current.status.RunPending? ==> previous.status.RunPending?)
    ensures var before, now := TasksById(previous.tasks), TasksById(current.tasks);
            && r.tasks.Keys == before.Keys
            && forall t :: t in before && t in now ==>
                 (r.tasks[t] == now[t].status <==> (now[t].status.Pending? ==> before[t].status.Pending?))
  {
    hide TasksById, AnnouncedKeys, KeyOk, EventsFor, SortedSeq;
    var before, now := TasksById(previous.tasks), TasksById(current.tasks);
    ListedIds(current.tasks);
    var keys := SortedSeq(AnnouncedKeys(before, now));
    forall key | key in keys ensures KeyOk(before, now, key) { KeysOk(before, now, key); }
    var start, changes, end := StartEvents(previous, current), EventsFor(current, before, now, keys),
        EndEvents(previous, current);
    FoldAppend(ViewOf(previous), start + changes, end);
    FoldAppend(ViewOf(previous), start, changes);
    var v := FoldStart(previous, current);
    FoldTaskEvents(v, current, before, now, keys, []);
    r := Fold(v, changes);
    forall t | t in before && t in now
      ensures r.tasks[t] == now[t].status <==> (now[t].status.Pending? ==> before[t].status.Pending?)
    {
      FoldTaskEvents(v, current, before, now, keys, t);
      KeyOfTask(before, now, t);
    }
    FoldEnds(previous, current, r);
  }

  lemma FoldStart(previous: RunSnapshot, current: RunSnapshot) returns (v: View)
    ensures v == Fold(ViewOf(previous), StartEvents(previous, current))
            && v.tasks == Statuses(TasksById(previous.tasks))
    ensures v.status == if !previous.status.RunRunning? && current.status.RunRunning? then current.status
            else previous.status
  {
    v := Fold(ViewOf(previous), StartEvents(previous, current));
  }

  lemma FoldEnds(previous: RunSnapshot, current: RunSnapshot, v: View)
    requires v.status == if !previous.status.RunRunning? && current.status.RunRunning? then current.status
             else previous.status
    ensures var r := Fold(v, EndEvents(previous, current));
            r.tasks == v.tasks && (r.status == current.status <==>
                                     (current.status.RunPending? ==> previous.status.RunPending?))
  {
  }

  /** The events of a save turn what a reader knew into what holds now, exactly when the change can be told at all. */
  lemma FoldDerived(previous: RunSnapshot, current: RunSnapshot)
    ensures Fold(ViewOf(previous), Derived(previous, current)) == ViewOf(current) <==> Representable(previous, current)
  {
    hide Derived, Fold, TasksById;
    var r := FoldPieces(previous, current);
    var before, now := TasksById(previous.tasks), TasksById(current.tasks);
    if Representable(previous, current) {
      assert r.tasks == Statuses(now);
    }
    if r.tasks == Statuses(now) {
      assert now.Keys == before.Keys;
      forall t | t in now ensures r.tasks[t] == now[t].status { assert Statuses(now)[t] == now[t].status; }
    }
  }

  /** The key order is by priority and then by task. */
  lemma KeyOrder(p: byte, a: Text, q: byte, b: Text)
    ensures Less([p] + a, [q] + b) <==> p < q || (p == q && Less(a, b))
  {
    assert ([p] + a)[1..] == a && ([q] + b)[1..] == b;
  }

  /** Where a kind of change stands in the order of one save. */
  function Priority(kind: Kind): nat {
    match kind
    case TaskReady => 2
    case TaskStarted => 3
    case _ => 1
  }

  lemma {:induction false} EventAt(current: RunSnapshot, before: map<Text, TaskRun>, now: map<Text, TaskRun>,
                                   keys: seq<Text>, i: nat)
    requires i < |keys| && forall key :: key in keys ==> KeyOk(before, now, key)
    ensures |EventsFor(current, before, now, keys)| == |keys| && KeyOk(before, now, keys[i])
    ensures EventsFor(current, before, now, keys)[i] == TaskEvent(current, before[keys[i][1..]], now[keys[i][1..]])
  {
    var front := keys[..|keys| - 1];
    assert keys[i] in keys;
    if i < |front| {
      EventAt(current, before, now, front, i);
    } else if front != [] {
      EventAt(current, before, now, front, 0);
    }
  }

  lemma KeyPriority(current: RunSnapshot, before: map<Text, TaskRun>, now: map<Text, TaskRun>, key: Text)
    requires key in AnnouncedKeys(before, now)
    ensures KeyOk(before, now, key) && Priority(TaskEvent(current, before[key[1..]], now[key[1..]]).kind)
              == key[0] as nat
  {
    KeysOk(before, now, key);
  }

  lemma ChangeInOrder(current: RunSnapshot, before: map<Text, TaskRun>, now: map<Text, TaskRun>, p: int, q: int)
    requires 0 <= p < q < |SortedSeq(AnnouncedKeys(before, now))|
    requires forall key :: key in SortedSeq(AnnouncedKeys(before, now)) ==> KeyOk(before, now, key)
    ensures |EventsFor(current, before, now, SortedSeq(AnnouncedKeys(before, now)))|
              == |SortedSeq(AnnouncedKeys(before, now))|
    ensures Priority(EventsFor(current, before, now, SortedSeq(AnnouncedKeys(before, now)))[p].kind)
            <= Priority(EventsFor(current, before, now, SortedSeq(AnnouncedKeys(before, now)))[q].kind)
  {
    var keys := SortedSeq(AnnouncedKeys(before, now));
    hide AnnouncedKeys, SortedSeq, KeyOk, EventsFor, TaskEvent;
    EventAt(current, before, now, keys, p);
    EventAt(current, before, now, keys, q);
    assert keys[p] in keys && keys[q] in keys;
    KeyPriority(current, before, now, keys[p]);
    KeyPriority(current, before, now, keys[q]);
    assert Less(keys[p], keys[q]);
  }

  lemma ChangesListed(previous: RunSnapshot, current: RunSnapshot)
    ensures var before, now := TasksById(previous.tasks), TasksById(current.tasks);
            var keys := SortedSeq(AnnouncedKeys(before, now));
            && (forall key :: key in keys ==> KeyOk(before, now, key))
            && |EventsFor(current, before, now, keys)| == |keys|
            && Derived(previous, current) == StartEvents(previous, current) + EventsFor(current, before, now, keys) +
                 EndEvents(previous, current)
  {
    var before, now := TasksById(previous.tasks), TasksById(current.tasks);
    var keys := SortedSeq(AnnouncedKeys(before, now));
    forall key | key in keys ensures KeyOk(before, now, key) { KeysOk(before, now, key); }
    if keys != [] { EventAt(current, before, now, keys, 0); }
  }

  /** Within a save, what ended or was rescheduled is told first, then what became ready, then what started: a task's
      success is announced before the readiness it causes. */
  lemma CausesComeFirst(previous: RunSnapshot, current: RunSnapshot, i: nat, j: nat)
    requires i < j < |Derived(previous, current)|
    requires Derived(previous, current)[i].taskStatus.Some? && Derived(previous, current)[j].taskStatus.Some?
    ensures Priority(Derived(previous, current)[i].kind) <= Priority(Derived(previous, current)[j].kind)
  {
    var before, now := TasksById(previous.tasks), TasksById(current.tasks);
    var keys := SortedSeq(AnnouncedKeys(before, now));
    hide TasksById, AnnouncedKeys, SortedSeq, KeyOk, EventsFor, Derived;
    ChangesListed(previous, current);
    var start := |StartEvents(previous, current)|;
    assert start <= i < j < start + |keys|;
    ChangeInOrder(current, before, now, i - start, j - start);
  }

  // ------------------------------------------------------------------
  // The log of one run

  datatype Stream = Stream(latest: RunSnapshot, events: seq<RunEvent>)

  /** The same events numbered on from a count. */
  function Renumbered(events: seq<RunEvent>, count: nat): (r: seq<RunEvent>)
    ensures |r| == |events|
    ensures forall i :: 0 <= i < |r| ==> r[i] == events[i].(sequence := count + i + 1)
  {
    seq(|events|, i requires 0 <= i < |events| => events[i].(sequence := count + i + 1))
  }

  ghost function Observed(stream: Stream, snapshot: RunSnapshot): Stream {
    Stream(snapshot, stream.events + Renumbered(Derived(stream.latest, snapshot), |stream.events|))
  }

  function SeedEvent(snapshot: RunSnapshot): RunEvent {
    RunChange(SnapshotTaken, snapshot).(sequence := 1)
  }

  /** Sequence numbers are one, two, three, without a gap. */
  predicate Gapless(log: seq<RunEvent>) {
    forall i :: 0 <= i < |log| ==> log[i].sequence == i + 1
  }

  /** The stream a first snapshot and the saves after it leave. */
  ghost function Logged(first: RunSnapshot, seeded: bool, rest: seq<RunSnapshot>): Stream {
    if rest == [] then Stream(first, if seeded then [SeedEvent(first)] else [])
    else Observed(Logged(first, seeded, rest[..|rest| - 1]), rest[|rest| - 1])
  }

  ghost predicate AllRepresentable(first: RunSnapshot, rest: seq<RunSnapshot>) {
    forall i :: 0 <= i < |rest| ==> Representable(Preceding(first, rest, i), rest[i])
  }

  function Preceding(first: RunSnapshot, rest: seq<RunSnapshot>, i: nat): RunSnapshot
    requires i <= |rest|
  {
    if i == 0 then first else rest[i - 1]
  }

  lemma {:induction false} FoldRenumbered(v: View, events: seq<RunEvent>, count: nat)
    ensures Fold(v, Renumbered(events, count)) == Fold(v, events)
  {
    if events != [] {
      FoldRenumbered(v, events[..|events| - 1], count);
      assert Renumbered(events, count)[..|events| - 1] == Renumbered(events[..|events| - 1], count);
    }
  }

  /** Folding a stream's log over its first snapshot gives the latest statuses. */
  lemma {:induction false} LogFaithful(first: RunSnapshot, seeded: bool, rest: seq<RunSnapshot>)
    requires AllRepresentable(first, rest)
    ensures var stream := Logged(first, seeded, rest);
            && stream.latest == (if rest == [] then first else rest[|rest| - 1])
            && Gapless(stream.events) && Fold(ViewOf(first), stream.events) == ViewOf(stream.latest)
  {
    hide Derived, Representable, TasksById, Apply;
    if rest == [] {
      SeedSaysNothing(first);
    } else {
      var front, last := rest[..|rest| - 1], rest[|rest| - 1];
      assert AllRepresentable(first, front) by {
        forall i | 0 <= i < |front| ensures Representable(Preceding(first, front, i), front[i]) {
          assert Preceding(first, front, i) == Preceding(first, rest, i) && front[i] == rest[i];
        }
      }
      LogFaithful(first, seeded, front);
      var stream := Logged(first, seeded, front);
      assert Representable(Preceding(first, rest, |rest| - 1), rest[|rest| - 1]);
      FoldDerived(stream.latest, last);
      FoldRenumbered(ViewOf(stream.latest), Derived(stream.latest, last), |stream.events|);
      FoldAppend(ViewOf(first), stream.events, Renumbered(Derived(stream.latest, last), |stream.events|));
    }
  }

  lemma SeedSaysNothing(first: RunSnapshot)
    ensures Fold(ViewOf(first), [SeedEvent(first)]) == ViewOf(first) && Fold(ViewOf(first), []) == ViewOf(first)
  {
    assert [SeedEvent(first)][..0] == [];
  }

  // ------------------------------------------------------------------
  // Reading from a cursor

  function After(log: seq<RunEvent>, cursor: nat): seq<RunEvent> {
    if cursor < |log| then log[cursor..] else []
  }

  /** What a reader gets is exactly the events numbered above its cursor, in order. */
  lemma AfterIsExact(log: seq<RunEvent>, cursor: nat)
    requires Gapless(log)
    ensures forall i :: 0 <= i < |After(log, cursor)| ==> After(log, cursor)[i].sequence == cursor + i + 1
    ensures forall e :: e in After(log, cursor) <==> e in log && e.sequence > cursor
  {
    forall e | e in log && e.sequence > cursor ensures e in After(log, cursor) {
      var i :| 0 <= i < |log| && log[i] == e;
      assert After(log, cursor)[i - cursor] == e;
    }
  }

  predicate Growing(logs: seq<seq<RunEvent>>) {
    && (forall i :: 0 <= i < |logs| ==> Gapless(logs[i]))
    && forall i :: 0 < i < |logs| ==> logs[i - 1] <= logs[i]
  }

  // A reader that polls whenever it likes, and moves its cursor to the last event it was given.
  datatype Reader = Reader(cursor: nat, seen: seq<RunEvent>)

  function Polled(reader: Reader, log: seq<RunEvent>): Reader {
    var events := After(log, reader.cursor);
    Reader(if events == [] then reader.cursor else events[|events| - 1].sequence, reader.seen + events)
  }

  function AfterPolls(logs: seq<seq<RunEvent>>, cursor: nat, n: nat): Reader
    requires n <= |logs|
  {
    if n == 0 then Reader(cursor, []) else Polled(AfterPolls(logs, cursor, n - 1), logs[n - 1])
  }

  lemma PollGrown(before: seq<RunEvent>, log: seq<RunEvent>, cursor: nat)
    requires Gapless(log) && before <= log
    ensures var at := if cursor < |before| then |before| else cursor;
            && Polled(Reader(at, After(before, cursor)), log).seen == After(log, cursor)
            && Polled(Reader(at, After(before, cursor)), log).cursor == if cursor < |log| then |log| else cursor
  {
    if cursor < |before| {
      assert log[cursor..] == before[cursor..] + log[|before|..];
    }
  }

  /** However the log grew between its polls, a reader sees each event after its cursor once, in order. */
  lemma {:induction false} ReadsEachOnce(logs: seq<seq<RunEvent>>, cursor: nat, n: nat)
    requires Growing(logs) && 0 < n <= |logs|
    ensures AfterPolls(logs, cursor, n) ==
            Reader(if cursor < |logs[n - 1]| then |logs[n - 1]| else cursor, After(logs[n - 1], cursor))
  {
    if n == 1 {
      PollGrown([], logs[0], cursor);
    } else {
      ReadsEachOnce(logs, cursor, n - 1);
      assert logs[n - 2] <= logs[n - 1];
      PollGrown(logs[n - 2], logs[n - 1], cursor);
    }
  }

  /** A restarted process counts its events from one again. A reader that brings a number from before polls the new log
      as it grows: it gets nothing until the log is longer than that number, it never gets the first so many events,
      and it gets all of them exactly if it brings zero or there are none. */
  lemma StaleCursor(logs: seq<seq<RunEvent>>, cursor: nat, n: nat)
    requires Growing(logs) && 0 < n <= |logs|
    ensures var log, seen := logs[n - 1], AfterPolls(logs, cursor, n).seen;
            && (seen == [] <==> |log| <= cursor)
            && (seen == log <==> cursor == 0 || log == [])
            && forall e :: e in log ==> (e in seen <==> e.sequence > cursor)
  {
    hide AfterPolls;
    var log := logs[n - 1];
    ReadsEachOnce(logs, cursor, n);
    AfterIsExact(log, cursor);
    assert |After(log, cursor)| == if cursor < |log| then |log| - cursor else 0;
    assert log[0..] == log;
  }

  // ------------------------------------------------------------------
  // The event broker

  /** Appending numbers each event by the length of the log it joins. */
  method Number(derived: seq<RunEvent>, count: nat) returns (events: seq<RunEvent>)
    ensures events == Renumbered(derived, count)
  {
    events := [];
    for index := 0 to |derived|
      invariant |events| == index && forall i :: 0 <= i < index ==> events[i] == derived[i].(sequence := count + i + 1)
    {
      events := events + [derived[index].(sequence := count + |events| + 1)];
    }
  }

  class EventBroker {
    var streams: map<Text, Stream>
    var closed: bool

    ghost predicate Valid()
      reads this
    {
      forall id :: id in streams ==> Gapless(streams[id].events)
    }

    constructor ()
      ensures Valid() && streams == map[] && !closed
    {
      streams, closed := map[], false;
    }

    /** A saved snapshot: the first one opens the stream silently, later ones append what changed. */
    method Observe(snapshot: RunSnapshot) returns (events: seq<RunEvent>)
      requires Valid()
      modifies this`streams
      ensures Valid()
      ensures closed ==> streams == old(streams) && events == []
      ensures !closed && snapshot.id !in old(streams) ==>
                streams == old(streams)[snapshot.id := Logged(snapshot, false, [])] && events == []
      ensures !closed && snapshot.id in old(streams) ==>
                var stream := old(streams)[snapshot.id];
                && streams == old(streams)[snapshot.id := Stream(snapshot, stream.events + events)]
                && (exists derived :: Derives(stream.latest, snapshot, derived)
                                      && events == Renumbered(derived, |stream.events|))
                && (DistinctTasks(snapshot.tasks) ==> streams[snapshot.id] == Observed(stream, snapshot))
    {
      if closed {
        return [];
      }
      if snapshot.id !in streams {
        streams := streams[snapshot.id := Stream(snapshot, [])];
        return [];
      }
      var stream := streams[snapshot.id];
      var derived := DeriveRunEvents(stream.latest, snapshot);
      events := Number(derived, |stream.events|);
      streams := streams[snapshot.id := Stream(snapshot, stream.events + events)];
    }

    /** A reader arrives before any save was seen. */
    method Seed(snapshot: RunSnapshot)
      requires Valid()
      modifies this`streams
      ensures Valid()
      ensures streams == if closed || snapshot.id in old(streams) then old(streams)
                         else old(streams)[snapshot.id := Logged(snapshot, true, [])]
    {
      if closed || snapshot.id in streams {
        return;
      }
      streams := streams[snapshot.id := Stream(snapshot, [SeedEvent(snapshot)])];
    }

    /** The events after a cursor, whether the broker is closed, and whether the run is over. */
    method EventsAfter(runId: Text, sequence: nat) returns (events: seq<RunEvent>, done: bool, terminal: bool)
      ensures done == closed
      ensures runId !in streams ==> events == [] && !terminal
      ensures runId in streams ==>
                events == After(streams[runId].events, sequence) && terminal == streams[runId].latest.status.Finished()
    {
      if runId !in streams {
        return [], closed, false;
      }
      var stream := streams[runId];
      var start := |stream.events|;
      if sequence < |stream.events| {
        start := sequence;
      }
      return stream.events[start..], closed, stream.latest.status.Finished();
    }

    method Close()
      modifies this`closed
      ensures closed
    {
      closed := true;
    }
  }
}
