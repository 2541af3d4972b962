/** Dependency graphs: structural validation, Kahn's algorithm with a least-first queue, and the
discovery of root and ready tasks. */
module Graph {
  import opened Ids
  import opened Definition
  import opened Edges

  datatype ErrorCode =
    | InvalidWorkflowId | EmptyWorkflow | InvalidTaskId | InvalidTaskName | InvalidRetryPolicy | DuplicateTaskId
    | InvalidDependencyId | SelfDependency | DuplicateDependency | MissingDependency | Cyclic | UnknownCompletedTask

  datatype ValidationError = ValidationError(code: ErrorCode, taskId: Text, dependencyId: Text)

  datatype DependencyGraph = DependencyGraph(
    tasks: map<Text, TaskDefinition>,
    taskIds: seq<Text>,
    indegree: map<Text, int>,
    dependents: map<Text, seq<Text>>)

  // ------------------------------------------------------------------
  // What a valid definition is

  predicate ValidRetryPolicy(policy: RetryPolicy) {
    && policy.maxAttempts >= 0 && policy.initialBackoff >= 0 && policy.maxBackoff >= 0
    && (policy.maxBackoff > 0 ==> policy.initialBackoff <= policy.maxBackoff)
  }

  predicate ValidTask(task: TaskDefinition) {
    ValidIdentifier(task.id) && !OnlySpaces(task.name) && ValidRetryPolicy(task.retry)
  }

  predicate DistinctIds(tasks: seq<TaskDefinition>) {
    forall i, j :: 0 <= i < j < |tasks| ==> tasks[i].id != tasks[j].id
  }

  predicate ValidDependencies(definition: WorkflowDefinition, task: TaskDefinition) {
    && Distinct(task.dependencies)
    && forall k :: 0 <= k < |task.dependencies| ==>
         var d := task.dependencies[k];
         ValidIdentifier(d) && d != task.id && d in TaskIds(definition)
  }

  predicate StructurallyValid(definition: WorkflowDefinition) {
    && ValidIdentifier(definition.id)
    && definition.tasks != []
    && (forall i :: 0 <= i < |definition.tasks| ==> ValidTask(definition.tasks[i]))
    && DistinctIds(definition.tasks)
    && (forall i :: 0 <= i < |definition.tasks| ==> ValidDependencies(definition, definition.tasks[i]))
  }

  /** The dependency relation of a definition. */
  function EdgesOf(definition: WorkflowDefinition): Edges {
    map t | t in TaskIds(definition) :: DependencySet(definition, t)
  }

  ghost predicate ValidDefinition(definition: WorkflowDefinition) {
    StructurallyValid(definition) && Acyclic(EdgesOf(definition))
  }

  // ------------------------------------------------------------------
  // Facts about lookups in a valid definition

  lemma {:induction false} FindAt(tasks: seq<TaskDefinition>, i: nat)
    requires i < |tasks| && DistinctIds(tasks)
    ensures FindTask(tasks, tasks[i].id) == Some(tasks[i])
    decreases |tasks|
  {
    if i > 0 {
      assert tasks[0].id != tasks[i].id;
      assert tasks[1..][i - 1] == tasks[i];
      assert DistinctIds(tasks[1..]);
      FindAt(tasks[1..], i - 1);
    }
  }

  lemma TaskFacts(definition: WorkflowDefinition, t: Text)
    requires StructurallyValid(definition) && t in TaskIds(definition)
    ensures FindTask(definition.tasks, t).Some?
    ensures ValidTask(FindTask(definition.tasks, t).value)
    ensures ValidDependencies(definition, FindTask(definition.tasks, t).value)
    ensures ValidIdentifier(t)
    ensures MaxAttemptsOf(definition, t) >= 1
    ensures DependencySet(definition, t) <= TaskIds(definition)
    ensures |DependencySet(definition, t)| == |DependenciesOf(definition, t)|
  {
    var i :| 0 <= i < |definition.tasks| && definition.tasks[i].id == t;
    FindAt(definition.tasks, i);
    DistinctCount(DependenciesOf(definition, t));
    assert Elements(DependenciesOf(definition, t)) == DependencySet(definition, t);
  }

  lemma EdgesClosed(definition: WorkflowDefinition)
    requires StructurallyValid(definition)
    ensures Closed(EdgesOf(definition))
    ensures EdgesOf(definition).Keys == TaskIds(definition)
  {
    var e := EdgesOf(definition);
    forall t | t in e ensures e[t] <= e.Keys {
      TaskFacts(definition, t);
    }
  }

  // ------------------------------------------------------------------
  // Building the graph

  /** The task index of a definition. */
  ghost predicate IndexOf(definition: WorkflowDefinition, tasks: map<Text, TaskDefinition>, taskIds: seq<Text>) {
    && tasks.Keys == TaskIds(definition)
    && (forall t :: t in tasks ==> FindTask(definition.tasks, t) == Some(tasks[t]))
    && Sorted(taskIds) && Elements(taskIds) == TaskIds(definition)
  }

  /** Degrees and reverse edges of a dependency relation. */
  ghost predicate Represents(g: DependencyGraph, e: Edges) {
    && Closed(e)
    && Sorted(g.taskIds) && Elements(g.taskIds) == e.Keys
    && g.indegree.Keys == e.Keys
    && (forall t :: t in e ==> g.indegree[t] == |e[t]|)
    && ReverseLists(e, g.dependents, e.Keys)
  }

  /** The lists of dependents, over the tasks linked so far: sorted, and exact. */
  ghost predicate ReverseLists(e: Edges, dependents: map<Text, seq<Text>>, linked: set<Text>) {
    && linked <= e.Keys
    && (forall d, t :: d !in dependents && t in linked ==> d !in e[t])
    && forall d :: d in dependents ==> IsDependentList(e, dependents[d], d, linked)
  }

  ghost predicate IsDependentList(e: Edges, list: seq<Text>, d: Text, linked: set<Text>)
    requires linked <= e.Keys
  {
    Sorted(list) && forall t :: t in list <==> t in linked && d in e[t]
  }

  /** The defect an error names is really there. */
  ghost predicate Defect(definition: WorkflowDefinition, err: ValidationError) {
    match err.code
    case InvalidWorkflowId => !ValidIdentifier(definition.id)
    case EmptyWorkflow => definition.tasks == []
    case InvalidTaskId => err.taskId in TaskIds(definition) && !ValidIdentifier(err.taskId)
    case InvalidTaskName =>
      exists i :: 0 <= i < |definition.tasks| && definition.tasks[i].id == err.taskId
                  && OnlySpaces(definition.tasks[i].name)
    case InvalidRetryPolicy =>
      exists i :: 0 <= i < |definition.tasks| && definition.tasks[i].id == err.taskId
                  && !ValidRetryPolicy(definition.tasks[i].retry)
    case DuplicateTaskId =>
      exists i, j :: 0 <= i < j < |definition.tasks| && definition.tasks[i].id == err.taskId
                     && definition.tasks[j].id == err.taskId
    case InvalidDependencyId => err.dependencyId in DependencySet(definition, err.taskId)
                                && !ValidIdentifier(err.dependencyId)
    case SelfDependency => err.dependencyId == err.taskId && err.taskId in DependencySet(definition, err.taskId)
    case DuplicateDependency => !Distinct(DependenciesOf(definition, err.taskId))
    case MissingDependency => err.dependencyId in DependencySet(definition, err.taskId)
                              && err.dependencyId !in TaskIds(definition)
    case Cyclic => StructurallyValid(definition) && !Acyclic(EdgesOf(definition))
    case UnknownCompletedTask => err.taskId !in TaskIds(definition)
  }

  predicate TaskListValid(definition: WorkflowDefinition) {
    (forall i :: 0 <= i < |definition.tasks| ==> ValidTask(definition.tasks[i])) && DistinctIds(definition.tasks)
  }

  method IndexTasks(definition: WorkflowDefinition)
    returns (r: Result<(map<Text, TaskDefinition>, seq<Text>), ValidationError>)
    ensures r.Ok? <==> TaskListValid(definition)
    ensures r.Ok? ==> IndexOf(definition, r.value.0, r.value.1)
    ensures r.Err? ==> Defect(definition, r.error) && r.error.code != Cyclic && r.error.code != UnknownCompletedTask
  {
    var tasks: map<Text, TaskDefinition> := map[];
    var taskIds: seq<Text> := [];
    for i := 0 to |definition.tasks|
      invariant |taskIds| == i
      invariant forall k :: 0 <= k < i ==> taskIds[k] == definition.tasks[k].id && ValidTask(definition.tasks[k])
      invariant Distinct(taskIds)
      invariant tasks.Keys == Elements(taskIds)
      invariant forall k :: 0 <= k < i ==> tasks[definition.tasks[k].id] == definition.tasks[k]
    {
      var task := definition.tasks[i];
      if !ValidIdentifier(task.id) {
        return Err(ValidationError(InvalidTaskId, task.id, []));
      }
      if OnlySpaces(task.name) {
        return Err(ValidationError(InvalidTaskName, task.id, []));
      }
      if !ValidRetryPolicy(task.retry) {
        return Err(ValidationError(InvalidRetryPolicy, task.id, []));
      }
      if task.id in tasks {
        assert task.id in taskIds;
        return Err(ValidationError(DuplicateTaskId, task.id, []));
      }
      tasks := tasks[task.id := task];
      taskIds := taskIds + [task.id];
    }
    var sorted := SortTexts(taskIds);
    IndexComplete(definition, tasks, taskIds);
    r := Ok((tasks, sorted));
  }

  lemma IndexComplete(definition: WorkflowDefinition, tasks: map<Text, TaskDefinition>, taskIds: seq<Text>)
    requires |taskIds| == |definition.tasks| && Distinct(taskIds) && tasks.Keys == Elements(taskIds)
    requires forall k :: 0 <= k < |taskIds| ==> taskIds[k] == definition.tasks[k].id && ValidTask(definition.tasks[k])
    requires forall k :: 0 <= k < |taskIds| ==> tasks[definition.tasks[k].id] == definition.tasks[k]
    ensures TaskListValid(definition)
    ensures Elements(taskIds) == TaskIds(definition)
    ensures forall t :: t in tasks ==> FindTask(definition.tasks, t) == Some(tasks[t])
  {
    assert DistinctIds(definition.tasks) by {
      forall i, j | 0 <= i < j < |definition.tasks| ensures definition.tasks[i].id != definition.tasks[j].id {
        assert taskIds[i] != taskIds[j];
      }
    }
    forall t | t in tasks ensures FindTask(definition.tasks, t) == Some(tasks[t]) {
      var k := IndexIn(taskIds, t);
      FindAt(definition.tasks, k);
    }
    assert Elements(taskIds) == TaskIds(definition) by {
      forall x ensures x in Elements(taskIds) <==> x in TaskIds(definition) {
        if x in Elements(taskIds) {
          var k := IndexIn(taskIds, x);
        }
      }
    }
  }

  /** Dependencies [0, k) of a task pass every check. */
  predicate CheckedUpTo(definition: WorkflowDefinition, task: TaskDefinition, k: nat)
    requires k <= |task.dependencies|
  {
    var deps := task.dependencies;
    && Distinct(deps[..k])
    && forall i :: 0 <= i < k ==> ValidIdentifier(deps[i]) && deps[i] != task.id && deps[i] in TaskIds(definition)
  }

  /** The first dependency defect of one task, if there is any. */
  method CheckDependencies(definition: WorkflowDefinition, tasks: map<Text, TaskDefinition>, taskId: Text)
    returns (r: Option<ValidationError>)
    requires tasks.Keys == TaskIds(definition) && taskId in tasks
    requires FindTask(definition.tasks, taskId) == Some(tasks[taskId])
    ensures r.None? <==> ValidDependencies(definition, tasks[taskId])
    ensures r.Some? ==> Defect(definition, r.value) && r.value.code != Cyclic && r.value.code != UnknownCompletedTask
  {
    var task := tasks[taskId];
    var deps := task.dependencies;
    var seen: set<Text> := {};
    for k := 0 to |deps|
      invariant seen == Elements(deps[..k])
      invariant CheckedUpTo(definition, task, k)
    {
      var d := deps[k];
      assert d in DependencySet(definition, taskId);
      if !ValidIdentifier(d) {
        return Some(ValidationError(InvalidDependencyId, task.id, d));
      }
      if d == task.id {
        return Some(ValidationError(SelfDependency, task.id, d));
      }
      if d in seen {
        assert d in deps[..k];
        return Some(ValidationError(DuplicateDependency, task.id, d));
      }
      seen := seen + {d};
      if d !in tasks {
        return Some(ValidationError(MissingDependency, task.id, d));
      }
      assert deps[..k + 1] == deps[..k] + [d];
    }
    assert deps[..|deps|] == deps;
    r := None;
  }

  function ListAt(dependents: map<Text, seq<Text>>, d: Text): seq<Text> {
    if d in dependents then dependents[d] else []
  }

  /** Record one task under each of its dependencies. */
  method LinkTask(taskId: Text, deps: seq<Text>, dependents: map<Text, seq<Text>>) returns (links: map<Text, seq<Text>>)
    requires Distinct(deps)
    ensures links.Keys == dependents.Keys + Elements(deps)
    ensures forall d :: d in links ==> links[d] == ListAt(dependents, d) + (if d in deps then [taskId] else [])
  {
    links := dependents;
    for k := 0 to |deps|
      invariant links.Keys == dependents.Keys + Elements(deps[..k])
      invariant forall d :: d in links ==> links[d] == ListAt(dependents, d) + (if d in deps[..k] then [taskId] else [])
    {
      var d := deps[k];
      assert d !in deps[..k];
      links := links[d := ListAt(links, d) + [taskId]];
      assert deps[..k + 1] == deps[..k] + [d];
    }
    assert deps[..|deps|] == deps;
  }

  lemma LinkKeepsLists(e: Edges, taskId: Text, deps: seq<Text>, before: map<Text, seq<Text>>,
                       after: map<Text, seq<Text>>,
                       linked: set<Text>)
    requires ReverseLists(e, before, linked)
    requires taskId in e && e[taskId] == Elements(deps) && forall t :: t in linked ==> Less(t, taskId)
    requires after.Keys == before.Keys + Elements(deps)
    requires forall d :: d in after ==> after[d] == ListAt(before, d) + (if d in deps then [taskId] else [])
    ensures ReverseLists(e, after, linked + {taskId})
  {
    forall d | d in after ensures IsDependentList(e, after[d], d, linked + {taskId}) {
      var list := ListAt(before, d);
      assert IsDependentList(e, list, d, linked);
      assert forall i :: 0 <= i < |list| ==> list[i] in list && Less(list[i], taskId);
    }
  }

  /** Degrees and reverse lists once the tasks in `linked` have been linked. */
  ghost predicate LinkedUpTo(e: Edges, linked: set<Text>, indegree: map<Text, int>, dependents: map<Text, seq<Text>>) {
    && linked <= e.Keys
    && indegree.Keys == linked
    && (forall t :: t in linked ==> indegree[t] == |e[t]|)
    && ReverseLists(e, dependents, linked)
  }

  lemma LinkStep(definition: WorkflowDefinition, task: TaskDefinition, linked: set<Text>, indegree: map<Text, int>,
                 before: map<Text, seq<Text>>, after: map<Text, seq<Text>>)
    requires LinkedUpTo(EdgesOf(definition), linked, indegree, before)
    requires FindTask(definition.tasks, task.id) == Some(task) && task.id in TaskIds(definition)
    requires Distinct(task.dependencies)
    requires forall t :: t in linked ==> Less(t, task.id)
    requires after.Keys == before.Keys + Elements(task.dependencies)
    requires forall d :: d in after ==>
               after[d] == ListAt(before, d) + (if d in task.dependencies then [task.id] else [])
    ensures LinkedUpTo(EdgesOf(definition), linked + {task.id}, indegree[task.id := |task.dependencies|], after)
  {
    EdgeAt(definition, task);
    DistinctCount(task.dependencies);
    hide EdgesOf, ReverseLists, FindTask, TaskIds, Distinct, Elements, Less;
    DegreesKept(EdgesOf(definition), linked, indegree, task.id, |task.dependencies|);
    LinkKeepsLists(EdgesOf(definition), task.id, task.dependencies, before, after, linked);
  }

  lemma DegreesKept(e: Edges, linked: set<Text>, indegree: map<Text, int>, t: Text, n: int)
    requires linked <= e.Keys && indegree.Keys == linked && (forall x :: x in linked ==> indegree[x] == |e[x]|)
    requires t in e && n == |e[t]|
    ensures var next := indegree[t := n];
            linked + {t} <= e.Keys && next.Keys == linked + {t} && forall x :: x in linked + {t} ==> next[x] == |e[x]|
  {
  }

  lemma EdgeAt(definition: WorkflowDefinition, task: TaskDefinition)
    requires FindTask(definition.tasks, task.id) == Some(task) && task.id in TaskIds(definition)
    ensures task.id in EdgesOf(definition)
    ensures EdgesOf(definition)[task.id] == Elements(task.dependencies)
  {
    assert DependenciesOf(definition, task.id) == task.dependencies;
  }

  /** The second pass over the tasks, in byte order. */
  method LinkAll(definition: WorkflowDefinition, tasks: map<Text, TaskDefinition>, taskIds: seq<Text>)
    returns (r: Result<(map<Text, int>, map<Text, seq<Text>>), ValidationError>)
    requires IndexOf(definition, tasks, taskIds)
    ensures r.Ok? <==> forall t :: t in tasks ==> ValidDependencies(definition, tasks[t])
    ensures r.Ok? ==> LinkedUpTo(EdgesOf(definition), TaskIds(definition), r.value.0, r.value.1)
    ensures r.Err? ==> Defect(definition, r.error) && r.error.code != Cyclic && r.error.code != UnknownCompletedTask
  {
    var indegree: map<Text, int> := map[];
    var dependents: map<Text, seq<Text>> := map[];
    for n := 0 to |taskIds|
      invariant forall t :: t in Elements(taskIds[..n]) ==> ValidDependencies(definition, tasks[t])
      invariant LinkedUpTo(EdgesOf(definition), Elements(taskIds[..n]), indegree, dependents)
    {
      var taskId := taskIds[n];
      SortedStep(taskIds, n);
      var defect := CheckDependencies(definition, tasks, taskId);
      if defect.Some? {
        return Err(defect.value);
      }
      var links := LinkTask(taskId, tasks[taskId].dependencies, dependents);
      LinkStep(definition, tasks[taskId], Elements(taskIds[..n]), indegree, dependents, links);
      indegree := indegree[taskId := |tasks[taskId].dependencies|];
      dependents := links;
    }
    assert taskIds[..|taskIds|] == taskIds;
    r := Ok((indegree, dependents));
  }

  method BuildDependencyGraph(definition: WorkflowDefinition) returns (r: Result<DependencyGraph, ValidationError>)
    ensures r.Ok? <==> StructurallyValid(definition)
    ensures r.Ok? ==> IndexOf(definition, r.value.tasks, r.value.taskIds) && Represents(r.value, EdgesOf(definition))
    ensures r.Err? ==> Defect(definition, r.error) && r.error.code != Cyclic && r.error.code != UnknownCompletedTask
  {
    if !ValidIdentifier(definition.id) {
      return Err(ValidationError(InvalidWorkflowId, [], []));
    }
    if definition.tasks == [] {
      return Err(ValidationError(EmptyWorkflow, [], []));
    }
    var indexed := IndexTasks(definition);
    if indexed.Err? {
      return Err(indexed.error);
    }
    var (tasks, taskIds) := indexed.value;
    var linked := LinkAll(definition, tasks, taskIds);
    AllTasksChecked(definition, tasks);
    if linked.Err? {
      return Err(linked.error);
    }
    EdgesClosed(definition);
    r := Ok(DependencyGraph(tasks, taskIds, linked.value.0, linked.value.1));
  }

  lemma AllTasksChecked(definition: WorkflowDefinition, tasks: map<Text, TaskDefinition>)
    requires ValidIdentifier(definition.id) && definition.tasks != [] && TaskListValid(definition)
    requires tasks.Keys == TaskIds(definition)
    requires forall t :: t in tasks ==> FindTask(definition.tasks, t) == Some(tasks[t])
    ensures StructurallyValid(definition) <==> forall t :: t in tasks ==> ValidDependencies(definition, tasks[t])
  {
    forall i | 0 <= i < |definition.tasks| ensures tasks[definition.tasks[i].id] == definition.tasks[i] {
      FindAt(definition.tasks, i);
    }
    forall t | t in tasks ensures exists i :: 0 <= i < |definition.tasks| && definition.tasks[i] == tasks[t] {
      FindTaskFacts(definition.tasks, t);
    }
  }

  // ------------------------------------------------------------------
  // Kahn's algorithm

  /** container/heap on identifiers: Pop removes and returns a least element. */
  method PopLeast(heap: multiset<Text>) returns (least: Text, rest: multiset<Text>)
    requires |heap| > 0
    ensures least in heap && rest == heap - multiset{least}
    ensures forall x :: x in heap ==> Le(least, x)
  {
    least :| least in heap;
    var pending := set x | x in heap;
    while pending != {}
      invariant least in heap
      invariant pending <= set x | x in heap
      invariant forall x :: x in heap && x !in pending ==> Le(least, x)
      decreases |pending|
    {
      var x :| x in pending;
      LeTotal(least, x);
      LeReflexive(x);
      if !Le(least, x) {
        forall y | y in heap && y !in pending ensures Le(x, y) {
          LeTransitive(x, least, y);
        }
        least := x;
      }
      pending := pending - {x};
    }
    rest := heap - multiset{least};
  }

  ghost function Missing(e: Edges, t: Text, done: set<Text>): nat
    requires t in e
  {
    |e[t] - done|
  }

  /** Remaining degrees, seen from the tasks already emitted. */
  ghost predicate Counted(e: Edges, remaining: map<Text, int>, done: set<Text>) {
    remaining.Keys == e.Keys && forall t :: t in e ==> remaining[t] == Missing(e, t, done)
  }

  /** The queue holds exactly the available tasks, each once. */
  ghost predicate Queued(e: Edges, ready: multiset<Text>, done: set<Text>) {
    forall t :: ready[t] == if t in Available(e, done) then 1 else 0
  }

  lemma MissingZero(e: Edges, t: Text, done: set<Text>)
    requires t in e
    ensures Missing(e, t, done) == 0 <==> e[t] <= done
  {
    if e[t] <= done {
      assert e[t] - done == {};
    } else {
      var d :| d in e[t] && d !in done;
      assert d in e[t] - done;
    }
  }

  lemma MissingDrops(e: Edges, t: Text, done: set<Text>, x: Text)
    requires t in e && x !in done
    ensures Missing(e, t, done + {x}) == Missing(e, t, done) - if x in e[t] then 1 else 0
  {
    assert e[t] - (done + {x}) == (e[t] - done) - {x};
    if x !in e[t] {
      assert (e[t] - done) - {x} == e[t] - done;
    }
  }

  /** Degrees and queue once the first i dependents of x have been released. */
  ghost predicate Released(e: Edges, x: Text, done: set<Text>, seen: set<Text>, remaining: map<Text, int>,
                           ready: multiset<Text>) {
    && remaining.Keys == e.Keys
    && (forall t :: t in e ==> remaining[t] == Missing(e, t, done) - if t in seen then 1 else 0)
    && forall t :: ready[t] ==
         if (t in Available(e, done) && t != x) || (t in seen && t in e && Missing(e, t, done) == 1) then 1 else 0
  }

  lemma ReleasedAll(e: Edges, x: Text, done: set<Text>, seen: set<Text>, remaining: map<Text, int>,
                    ready: multiset<Text>)
    requires x in Available(e, done)
    requires forall t :: t in done ==> t in e && e[t] <= done
    requires forall t :: t in seen <==> t in e && x in e[t]
    requires Released(e, x, done, seen, remaining, ready)
    ensures Counted(e, remaining, done + {x})
    ensures Queued(e, ready, done + {x})
  {
    forall t | t in e
      ensures remaining[t] == Missing(e, t, done + {x})
      ensures ready[t] == if t in Available(e, done + {x}) then 1 else 0
    {
      MissingDrops(e, t, done, x);
      MissingZero(e, t, done);
      MissingZero(e, t, done + {x});
    }
  }

  lemma ReleaseOne(e: Edges, x: Text, done: set<Text>, seen: set<Text>, remaining: map<Text, int>,
                   ready: multiset<Text>, t: Text)
    requires x in Available(e, done)
    requires t in e && x in e[t] && t !in seen
    requires Released(e, x, done, seen, remaining, ready)
    ensures Released(e, x, done, seen + {t}, remaining[t := remaining[t] - 1],
                     if remaining[t] - 1 == 0 then ready + multiset{t} else ready)
  {
    assert t !in Available(e, done);
  }

  lemma DependentsExact(g: DependencyGraph, e: Edges, x: Text)
    requires Represents(g, e)
    ensures Sorted(ListAt(g.dependents, x))
    ensures forall t :: t in ListAt(g.dependents, x) <==> t in e && x in e[t]
  {
    if x in g.dependents {
      assert IsDependentList(e, g.dependents[x], x, e.Keys);
    }
  }

  /** The inner loop: release the dependents of an emitted task. */
  method Release(list: seq<Text>, ghost e: Edges, x: Text, ghost done: set<Text>,
                 remaining: map<Text, int>, ready: multiset<Text>)
    returns (remaining': map<Text, int>, ready': multiset<Text>)
    requires Sorted(list) && forall t :: t in list <==> t in e && x in e[t]
    requires x in Available(e, done)
    requires forall t :: t in done ==> t in e && e[t] <= done
    requires Released(e, x, done, {}, remaining, ready)
    ensures Counted(e, remaining', done + {x})
    ensures Queued(e, ready', done + {x})
  {
    remaining', ready' := remaining, ready;
    for i := 0 to |list|
      invariant Released(e, x, done, Elements(list[..i]), remaining', ready')
    {
      var t := list[i];
      SortedStep(list, i);
      ReleaseOne(e, x, done, Elements(list[..i]), remaining', ready', t);
      remaining' := remaining'[t := remaining'[t] - 1];
      if remaining'[t] == 0 {
        ready' := ready' + multiset{t};
      }
    }
    assert list[..|list|] == list;
    ReleasedAll(e, x, done, Elements(list), remaining', ready');
  }

  ghost predicate RootsQueued(e: Edges, ready: multiset<Text>, seen: set<Text>) {
    seen <= e.Keys && forall t :: ready[t] == if t in seen && e[t] == {} then 1 else 0
  }

  method InitialQueue(g: DependencyGraph, ghost e: Edges) returns (ready: multiset<Text>)
    requires Represents(g, e)
    ensures Queued(e, ready, {})
  {
    ready := multiset{};
    for i := 0 to |g.taskIds|
      invariant RootsQueued(e, ready, Elements(g.taskIds[..i]))
    {
      var t := g.taskIds[i];
      SortedStep(g.taskIds, i);
      if g.indegree[t] == 0 {
        ready := ready + multiset{t};
      }
    }
    assert g.taskIds[..|g.taskIds|] == g.taskIds;
  }

  lemma GreedyClosed(e: Edges, order: seq<Text>)
    requires Greedy(e, order)
    ensures forall t :: t in Elements(order) ==> t in e && e[t] <= Elements(order)
  {
    forall t | t in Elements(order) ensures t in e && e[t] <= Elements(order) {
      var k := IndexIn(order, t);
      assert GreedyAt(e, order, k);
      assert Elements(order[..k]) <= Elements(order);
    }
  }

  lemma PoppedLeast(e: Edges, order: seq<Text>, remaining: map<Text, int>, ready: multiset<Text>, x: Text)
    requires Greedy(e, order)
    requires Counted(e, remaining, Elements(order)) && Queued(e, ready, Elements(order))
    requires x in ready && forall y :: y in ready ==> Le(x, y)
    ensures x in Available(e, Elements(order))
    ensures Greedy(e, order + [x]) && Elements(order + [x]) == Elements(order) + {x}
    ensures Released(e, x, Elements(order), {}, remaining, ready - multiset{x})
  {
    var available := Available(e, Elements(order));
    assert ready[x] >= 1;
    forall y | y in available ensures Le(x, y) {
      assert ready[y] == 1;
      assert y in ready;
    }
    ExtendGreedy(e, order, x);
  }

  lemma KahnStart(g: DependencyGraph, e: Edges, order: seq<Text>)
    requires Represents(g, e) && order == []
    ensures Greedy(e, order) && Elements(order) == {}
    ensures Counted(e, g.indegree, {})
  {
    forall t | t in e ensures g.indegree[t] == Missing(e, t, {}) {
      assert e[t] - {} == e[t];
    }
  }

  lemma KahnEnd(g: DependencyGraph, e: Edges, order: seq<Text>, ready: multiset<Text>)
    requires Represents(g, e) && Greedy(e, order)
    requires Queued(e, ready, Elements(order)) && |ready| == 0
    ensures Available(e, Elements(order)) == {}
    ensures |g.taskIds| == |e.Keys|
    ensures |order| == |e.Keys| <==> Acyclic(e)
  {
    NothingAvailable(e, ready, Elements(order));
    SortedIsDistinct(g.taskIds);
    DistinctCount(g.taskIds);
    ExhaustedGreedy(e, order);
  }

  /** One round of the loop: emit the least queued task and release its dependents. */
  method EmitLeast(g: DependencyGraph, ghost e: Edges, order: seq<Text>, remaining: map<Text, int>,
                   ready: multiset<Text>)
    returns (order': seq<Text>, remaining': map<Text, int>, ready': multiset<Text>)
    requires Represents(g, e) && Greedy(e, order) && |ready| > 0
    requires Counted(e, remaining, Elements(order)) && Queued(e, ready, Elements(order))
    ensures Greedy(e, order')
    ensures Counted(e, remaining', Elements(order')) && Queued(e, ready', Elements(order'))
    ensures |e.Keys - Elements(order')| < |e.Keys - Elements(order)|
  {
    ghost var done := Elements(order);
    var taskId, rest := PopLeast(ready);
    PoppedLeast(e, order, remaining, ready, taskId);
    GreedyClosed(e, order);
    DependentsExact(g, e, taskId);
    order' := order + [taskId];
    remaining', ready' := Release(ListAt(g.dependents, taskId), e, taskId, done, remaining, rest);
    FewerLeft(e.Keys, done, taskId);
  }

  lemma FewerLeft(all: set<Text>, done: set<Text>, x: Text)
    requires x in all && x !in done
    ensures |all - (done + {x})| < |all - done|
  {
    assert all - (done + {x}) == (all - done) - {x};
  }

  method RunKahn(g: DependencyGraph, ghost e: Edges) returns (order: seq<Text>, complete: bool)
    requires Represents(g, e)
    ensures Greedy(e, order)
    ensures Available(e, Elements(order)) == {}
    ensures complete <==> |order| == |e.Keys|
    ensures complete <==> Acyclic(e)
  {
    var remaining := g.indegree;
    var ready := InitialQueue(g, e);
    order := [];
    KahnStart(g, e, order);
    while |ready| > 0
      invariant Greedy(e, order)
      invariant Counted(e, remaining, Elements(order))
      invariant Queued(e, ready, Elements(order))
      decreases |e.Keys - Elements(order)|
    {
      order, remaining, ready := EmitLeast(g, e, order, remaining, ready);
    }
    KahnEnd(g, e, order, ready);
    complete := |order| == |g.taskIds|;
  }

  lemma NothingAvailable(e: Edges, ready: multiset<Text>, done: set<Text>)
    requires Queued(e, ready, done) && |ready| == 0
    ensures Available(e, done) == {}
  {
    assert ready == multiset{};
    assert forall t :: t in Available(e, done) ==> ready[t] == 1;
  }

  lemma SortedIsDistinct(s: seq<Text>)
    requires Sorted(s)
    ensures Distinct(s)
  {
    forall i, j | 0 <= i < j < |s| ensures s[i] != s[j] {
      assert Less(s[i], s[j]);
    }
  }

  // ------------------------------------------------------------------
  // The public operations

  /** TopologicalOrder succeeds exactly on valid definitions, and then returns the
      lexicographically smallest of all valid task orders. */
  method TopologicalOrder(definition: WorkflowDefinition) returns (r: Result<seq<Text>, ValidationError>)
    ensures r.Ok? <==> ValidDefinition(definition)
    ensures r.Ok? ==> IsTopological(EdgesOf(definition), r.value)
    ensures r.Ok? ==> forall other :: IsTopological(EdgesOf(definition), other) ==> LexLe(r.value, other)
    ensures r.Err? ==> Defect(definition, r.error)
  {
    var built := BuildDependencyGraph(definition);
    if built.Err? {
      return Err(built.error);
    }
    ghost var e := EdgesOf(definition);
    var order, complete := RunKahn(built.value, e);
    if !complete {
      return Err(ValidationError(Cyclic, [], []));
    }
    ExhaustedGreedy(e, order);
    GreedyIsTopological(e, order);
    forall other | IsTopological(e, other) ensures LexLe(order, other) {
      GreedyIsLeast(e, order, other);
    }
    r := Ok(order);
  }

  method Validate(definition: WorkflowDefinition) returns (r: Result<(), ValidationError>)
    ensures r.Ok? <==> ValidDefinition(definition)
    ensures r.Err? ==> Defect(definition, r.error)
  {
    var order := TopologicalOrder(definition);
    r := if order.Ok? then Ok(()) else Err(order.error);
  }

  /** A structural defect is an error; otherwise the answer is whether a cycle exists. */
  method IsAcyclic(definition: WorkflowDefinition) returns (r: Result<bool, ValidationError>)
    ensures r.Ok? <==> StructurallyValid(definition)
    ensures r.Ok? ==> (r.value <==> Acyclic(EdgesOf(definition)))
    ensures r.Err? ==> Defect(definition, r.error)
  {
    var built := BuildDependencyGraph(definition);
    if built.Err? {
      return Err(built.error);
    }
    var order, complete := RunKahn(built.value, EdgesOf(definition));
    r := Ok(complete);
  }

  /** The definitions of a set of tasks, each once, in byte order. */
  ghost predicate ListsTasks(definition: WorkflowDefinition, list: seq<TaskDefinition>, ids: set<Text>) {
    && (forall i, j :: 0 <= i < j < |list| ==> Less(list[i].id, list[j].id))
    && (forall i :: 0 <= i < |list| ==> list[i].id in ids && FindTask(definition.tasks, list[i].id) == Some(list[i]))
    && forall t :: t in ids ==> exists i :: 0 <= i < |list| && list[i].id == t
  }

  /** The validated graph of a definition, or the reason it has none. */
  method LoadGraph(definition: WorkflowDefinition) returns (r: Result<DependencyGraph, ValidationError>)
    ensures r.Ok? <==> ValidDefinition(definition)
    ensures r.Ok? ==> IndexOf(definition, r.value.tasks, r.value.taskIds) && Represents(r.value, EdgesOf(definition))
    ensures r.Err? ==> Defect(definition, r.error) && r.error.code != UnknownCompletedTask
  {
    r := BuildDependencyGraph(definition);
    if r.Ok? {
      var order, complete := RunKahn(r.value, EdgesOf(definition));
      if !complete {
        r := Err(ValidationError(Cyclic, [], []));
      }
    }
  }

  /** The least completed identifier that names no task. */
  method LeastUnknown(completed: set<Text>, known: set<Text>) returns (r: Option<Text>)
    ensures r.None? <==> completed <= known
    ensures r.Some? ==> r.value in completed - known && forall x :: x in completed - known ==> Le(r.value, x)
  {
    if completed <= known {
      return None;
    }
    var x :| x in completed && x !in known;
    var unknown := multiset(completed - known);
    assert x in unknown;
    var least, rest := PopLeast(unknown);
    r := Some(least);
  }

  method DependenciesSatisfied(deps: seq<Text>, completed: set<Text>) returns (ok: bool)
    ensures ok <==> Elements(deps) <= completed
  {
    ok := true;
    for k := 0 to |deps|
      invariant ok
      invariant forall i :: 0 <= i < k ==> deps[i] in completed
    {
      if deps[k] !in completed {
        assert deps[k] in Elements(deps);
        return false;
      }
    }
  }

  /** Incomplete tasks whose dependencies are all completed, in byte order. An identifier that
      names no task is an error. */
  method ReadyTasks(definition: WorkflowDefinition, completed: set<Text>)
    returns (r: Result<seq<TaskDefinition>, ValidationError>)
    ensures r.Ok? <==> ValidDefinition(definition) && completed <= TaskIds(definition)
    ensures r.Ok? ==> ListsTasks(definition, r.value, Available(EdgesOf(definition), completed))
    ensures r.Err? ==> Defect(definition, r.error)
    ensures r.Err? && r.error.code == UnknownCompletedTask ==>
              r.error.taskId in completed && forall x :: x in completed - TaskIds(definition) ==> Le(r.error.taskId, x)
  {
    var built := LoadGraph(definition);
    if built.Err? {
      return Err(built.error);
    }
    var g := built.value;
    var unknown := LeastUnknown(completed, g.tasks.Keys);
    if unknown.Some? {
      return Err(ValidationError(UnknownCompletedTask, unknown.value, []));
    }
    ghost var e := EdgesOf(definition);
    ghost var available := Available(e, completed);
    var ready: seq<TaskDefinition> := [];
    for n := 0 to |g.taskIds|
      invariant ListsTasks(definition, ready, available * Elements(g.taskIds[..n]))
    {
      var taskId := g.taskIds[n];
      assert taskId in Elements(g.taskIds);
      var task := g.tasks[taskId];
      var satisfied := DependenciesSatisfied(task.dependencies, completed);
      assert Elements(task.dependencies) == DependencySet(definition, taskId) == e[taskId];
      ExtendList(definition, ready, available, g.taskIds, n, task);
      if taskId !in completed && satisfied {
        ready := ready + [task];
      }
    }
    assert g.taskIds[..|g.taskIds|] == g.taskIds;
    assert available * Elements(g.taskIds) == available;
    r := Ok(ready);
  }

  lemma ExtendList(definition: WorkflowDefinition, list: seq<TaskDefinition>, s: set<Text>, ids: seq<Text>, n: nat,
                   task: TaskDefinition)
    requires n < |ids| && Sorted(ids)
    requires ListsTasks(definition, list, s * Elements(ids[..n]))
    requires task.id == ids[n] && FindTask(definition.tasks, task.id) == Some(task)
    ensures ListsTasks(definition, if task.id in s then list + [task] else list, s * Elements(ids[..n + 1]))
  {
    assert ids[..n + 1] == ids[..n] + [ids[n]];
    assert Elements(ids[..n + 1]) == Elements(ids[..n]) + {ids[n]};
    if task.id in s {
      var next := list + [task];
      var target := s * Elements(ids[..n + 1]);
      assert target == s * Elements(ids[..n]) + {task.id};
      forall i | 0 <= i < |list| ensures Less(list[i].id, task.id) {
        var j := IndexIn(ids[..n], list[i].id);
        assert Less(ids[j], ids[n]);
      }
      forall t | t in target ensures exists i :: 0 <= i < |next| && next[i].id == t {
        if t == task.id {
          assert next[|list|].id == t;
        } else {
          var i :| 0 <= i < |list| && list[i].id == t;
          assert next[i].id == t;
        }
      }
    } else {
      assert s * Elements(ids[..n + 1]) == s * Elements(ids[..n]);
    }
  }

  /** Tasks without dependencies, in byte order. */
  method RootTasks(definition: WorkflowDefinition) returns (r: Result<seq<TaskDefinition>, ValidationError>)
    ensures r.Ok? <==> ValidDefinition(definition)
    ensures r.Ok? ==> ListsTasks(definition, r.value, Available(EdgesOf(definition), {}))
    ensures r.Err? ==> Defect(definition, r.error)
  {
    var built := LoadGraph(definition);
    if built.Err? {
      return Err(built.error);
    }
    var g := built.value;
    ghost var e := EdgesOf(definition);
    ghost var roots_ := Available(e, {});
    var roots: seq<TaskDefinition> := [];
    for n := 0 to |g.taskIds|
      invariant ListsTasks(definition, roots, roots_ * Elements(g.taskIds[..n]))
    {
      var taskId := g.taskIds[n];
      assert taskId in Elements(g.taskIds);
      assert taskId in e && (g.indegree[taskId] == 0 <==> e[taskId] == {});
      ExtendList(definition, roots, roots_, g.taskIds, n, g.tasks[taskId]);
      if g.indegree[taskId] == 0 {
        roots := roots + [g.tasks[taskId]];
      }
    }
    assert g.taskIds[..|g.taskIds|] == g.taskIds;
    assert roots_ * Elements(g.taskIds) == roots_;
    r := Ok(roots);
  }

  // ------------------------------------------------------------------
  // Independent tasks

  const NO_RETRY: RetryPolicy := RetryPolicy(0, 0, 0)

  lemma LetterValid(x: byte)
    requires 97 <= x <= 122
    ensures ValidIdentifier([x]) && !OnlySpaces([x])
  {
    assert [x][1..] == [];
  }

  /** Tasks without dependencies need only be well-formed. */
  lemma IndependentValid(definition: WorkflowDefinition)
    requires StructurallyValid(definition)
    requires forall i :: 0 <= i < |definition.tasks| ==> definition.tasks[i].dependencies == []
    ensures ValidDefinition(definition)
    ensures EdgesOf(definition) == map t | t in TaskIds(definition) :: {}
  {
    hide StructurallyValid;
    forall t | t in TaskIds(definition) ensures DependencySet(definition, t) == {} {
      FindTaskFacts(definition.tasks, t);
      assert DependenciesOf(definition, t) == [];
    }
    var e := EdgesOf(definition);
    forall p: seq<Text> ensures !IsCycle(e, p) {
      if |p| >= 2 && p[0] in e { assert p[1] !in e[p[0]]; }
    }
  }
}
