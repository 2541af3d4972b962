/** Workflow definitions and retry policies. */
module Definition {
  import opened Ids

  // time.Duration and Go's int: 64-bit two's complement.
  newtype int64 = x: int | -0x8000_0000_0000_0000 <= x < 0x8000_0000_0000_0000

  const MAX_DURATION: int64 := 0x7FFF_FFFF_FFFF_FFFF

  datatype RetryPolicy = RetryPolicy(maxAttempts: int64, initialBackoff: int64, maxBackoff: int64)

  datatype TaskDefinition = TaskDefinition(
    id: Text, name: Text, dependencies: seq<Text>, handler: Text, input: Text, retry: RetryPolicy)

  datatype WorkflowDefinition = WorkflowDefinition(id: Text, tasks: seq<TaskDefinition>)

  function EffectiveMaxAttempts(policy: RetryPolicy): int {
    if policy.maxAttempts == 0 then 1 else policy.maxAttempts as int
  }

  // ------------------------------------------------------------------
  // Exponential backoff

  function Pow2(n: nat): nat {
    if n == 0 then 1 else 2 * Pow2(n - 1)
  }

  function Min(a: int, b: int): int { if a <= b then a else b }

  /** Largest delay the policy can produce. */
  function DelayCap(policy: RetryPolicy): int {
    if policy.maxBackoff > 0 then policy.maxBackoff as int else MAX_DURATION as int
  }

  /** The delay in closed form: no loop, no saturation. */
  function RetryDelay(policy: RetryPolicy, completedAttempt: int): (delay: nat) {
    if completedAttempt < 1 || policy.initialBackoff <= 0 then 0
    else
      MulNonNegative(policy.initialBackoff as int, Pow2(completedAttempt - 1));
      Min(DelayCap(policy), policy.initialBackoff as int * Pow2(completedAttempt - 1))
  }

  /** The doubling loop as the program runs it, in 64-bit arithmetic: every intermediate value is
      an `int64`, and the result is the closed form. */
  method ComputeRetryDelay(policy: RetryPolicy, completedAttempt: int64) returns (delay: int64)
    ensures delay as int == RetryDelay(policy, completedAttempt as int)
  {
    if completedAttempt < 1 || policy.initialBackoff <= 0 {
      return 0;
    }
    delay := policy.initialBackoff;
    var attempt: int64 := 1;
    assert Pow2(0) == 1;
    ghost var initial := policy.initialBackoff as int;
    while attempt < completedAttempt
      invariant 1 <= attempt <= completedAttempt
      invariant delay > 0
      invariant delay as int == Min(MAX_DURATION as int, initial * Pow2(attempt as int - 1))
    {
      if policy.maxBackoff > 0 && delay >= policy.maxBackoff {
        BackoffGrows(initial, attempt as int - 1, completedAttempt as int - 1);
        return policy.maxBackoff;
      }
      DoubleBackoff(initial, attempt as int - 1);
      if delay > MAX_DURATION / 2 {
        delay := MAX_DURATION;
      } else {
        delay := delay * 2;
      }
      attempt := attempt + 1;
    }
    if policy.maxBackoff > 0 && delay > policy.maxBackoff {
      return policy.maxBackoff;
    }
  }

  lemma DoubleBackoff(initial: int, n: nat)
    ensures initial * Pow2(n + 1) == 2 * (initial * Pow2(n))
  {
    assert Pow2(n + 1) == 2 * Pow2(n);
  }

  lemma {:induction false} BackoffGrows(initial: int, m: nat, n: nat)
    requires 0 <= initial && m <= n
    ensures initial * Pow2(m) <= initial * Pow2(n)
    decreases n - m
  {
    if m < n {
      BackoffGrows(initial, m, n - 1);
      DoubleBackoff(initial, n - 1);
      assert 0 <= initial * Pow2(n - 1) by {
        MulNonNegative(initial, Pow2(n - 1));
      }
    }
  }

  lemma MulNonNegative(a: int, b: int)
    requires 0 <= a && 0 <= b
    ensures 0 <= a * b
  {
  }

  /** A later attempt never waits less; a positive initial backoff never yields a zero delay;
      and the cap is never exceeded. */
  lemma RetryDelayMonotone(policy: RetryPolicy, m: int, n: int)
    requires m <= n
    ensures RetryDelay(policy, m) <= RetryDelay(policy, n) <= DelayCap(policy)
    ensures policy.initialBackoff > 0 && 1 <= m ==> RetryDelay(policy, m) > 0
  {
    var initial := policy.initialBackoff as int;
    if 0 < initial && 1 <= n {
      var k := if 1 <= m then m - 1 else 0;
      assert Pow2(0) == 1;
      BackoffGrows(initial, 0, k);
      BackoffGrows(initial, k, n - 1);
    }
  }

  // ------------------------------------------------------------------
  // Looking tasks up by identifier

  function FindTask(tasks: seq<TaskDefinition>, id: Text): (r: Option<TaskDefinition>)
    ensures r.Some? ==> r.value.id == id
  {
    if tasks == [] then None
    else if tasks[0].id == id then Some(tasks[0])
    else FindTask(tasks[1..], id)
  }

  lemma {:induction false} FindTaskFacts(tasks: seq<TaskDefinition>, id: Text)
    ensures FindTask(tasks, id).Some? ==> FindTask(tasks, id).value in tasks
    ensures FindTask(tasks, id).None? ==> forall i :: 0 <= i < |tasks| ==> tasks[i].id != id
  {
    if tasks != [] && tasks[0].id != id {
      FindTaskFacts(tasks[1..], id);
      assert tasks == [tasks[0]] + tasks[1..];
    }
  }

  /** The policy of a task; the zero policy for an unknown one. */
  function PolicyOf(definition: WorkflowDefinition, id: Text): RetryPolicy {
    match FindTask(definition.tasks, id)
    case Some(task) => task.retry
    case None => RetryPolicy(0, 0, 0)
  }

  function MaxAttemptsOf(definition: WorkflowDefinition, id: Text): int {
    EffectiveMaxAttempts(PolicyOf(definition, id))
  }

  function DependenciesOf(definition: WorkflowDefinition, id: Text): seq<Text> {
    match FindTask(definition.tasks, id)
    case Some(task) => task.dependencies
    case None => []
  }

  function DependencySet(definition: WorkflowDefinition, id: Text): set<Text> {
    set d | d in DependenciesOf(definition, id)
  }

  function TaskIds(definition: WorkflowDefinition): set<Text> {
    set i | 0 <= i < |definition.tasks| :: definition.tasks[i].id
  }
}
