/** Dependency relations as finite maps, the orders a least-first traversal builds, and cycles. */
module Edges {
  import opened Ids

  // The dependencies of every task.
  type Edges = map<Text, set<Text>>

  predicate Closed(e: Edges) {
    forall t :: t in e ==> e[t] <= e.Keys
  }

  /** A closed walk along dependency edges. */
  ghost predicate IsCycle(e: Edges, p: seq<Text>) {
    |p| >= 2 && p[0] == p[|p| - 1] && IsWalk(e, p)
  }

  ghost predicate IsWalk(e: Edges, p: seq<Text>) {
    forall i :: 0 <= i < |p| - 1 ==> p[i] in e && p[i + 1] in e[p[i]]
  }

  ghost predicate Acyclic(e: Edges) {
    forall p: seq<Text> :: !IsCycle(e, p)
  }

  function Elements(s: seq<Text>): set<Text> {
    set x | x in s
  }

  /** One more element of a strictly sorted sequence. */
  lemma SortedStep(s: seq<Text>, i: nat)
    requires Sorted(s) && i < |s|
    ensures Elements(s[..i + 1]) == Elements(s[..i]) + {s[i]}
    ensures s[i] !in Elements(s[..i]) && s[i] in Elements(s)
    ensures forall x :: x in Elements(s[..i]) ==> Less(x, s[i])
  {
    assert forall j :: 0 <= j < i ==> s[..i][j] == s[j] && Less(s[j], s[i]);
    assert s[..i + 1] == s[..i] + [s[i]];
  }

  /** All tasks, each once, every task after all of its dependencies. */
  ghost predicate IsTopological(e: Edges, order: seq<Text>) {
    && Distinct(order)
    && Elements(order) == e.Keys
    && forall k :: 0 <= k < |order| ==> e[order[k]] <= Elements(order[..k])
  }

  /** Lexicographic order on sequences of identifiers. */
  ghost predicate LexLe(a: seq<Text>, b: seq<Text>) {
    || a == b
    || exists k :: 0 <= k < |a| && k < |b| && a[..k] == b[..k] && Less(a[k], b[k])
  }

  /** Unfinished tasks all of whose dependencies are done. */
  function Available(e: Edges, done: set<Text>): set<Text> {
    set t | t in e && t !in done && e[t] <= done
  }

  // ------------------------------------------------------------------
  // Greedy orders: what the least-first loop builds

  /** Every element was the least available one when it was taken. */
  ghost predicate Greedy(e: Edges, order: seq<Text>) {
    forall k :: 0 <= k < |order| ==> GreedyAt(e, order, k)
  }

  ghost predicate GreedyAt(e: Edges, order: seq<Text>, k: nat)
    requires k < |order|
  {
    var available := Available(e, Elements(order[..k]));
    order[k] in available && forall x :: x in available ==> Le(order[k], x)
  }

  lemma GreedyDistinct(e: Edges, order: seq<Text>)
    requires Greedy(e, order)
    ensures Distinct(order)
    ensures Elements(order) <= e.Keys
    ensures |Elements(order)| == |order|
  {
    forall i, j | 0 <= i < j < |order| ensures order[i] != order[j] {
      assert GreedyAt(e, order, j);
      assert order[..j][i] == order[i];
    }
    forall x | x in Elements(order) ensures x in e {
      var k :| 0 <= k < |order| && order[k] == x;
      assert GreedyAt(e, order, k);
    }
    DistinctCount(order);
  }

  lemma {:induction false} DistinctCount(s: seq<Text>)
    requires Distinct(s)
    ensures |Elements(s)| == |s|
    decreases |s|
  {
    if s != [] {
      var init := s[..|s| - 1];
      DistinctCount(init);
      assert Elements(s) == Elements(init) + {s[|s| - 1]};
    }
  }

  /** A complete greedy order is topological. */
  lemma GreedyIsTopological(e: Edges, order: seq<Text>)
    requires Greedy(e, order) && Elements(order) == e.Keys
    ensures IsTopological(e, order)
  {
    GreedyDistinct(e, order);
    forall k | 0 <= k < |order| ensures order[k] in e && e[order[k]] <= Elements(order[..k]) {
      assert GreedyAt(e, order, k);
    }
  }

  /** A complete greedy order precedes every other topological order. */
  lemma GreedyIsLeast(e: Edges, order: seq<Text>, other: seq<Text>)
    requires Greedy(e, order) && Elements(order) == e.Keys
    requires IsTopological(e, other)
    ensures LexLe(order, other)
  {
    GreedyDistinct(e, order);
    DistinctCount(other);
    if order != other {
      var k := FirstDifference(order, other);
      assert GreedyAt(e, order, k);
      var x := other[k];
      assert forall i :: 0 <= i < k ==> other[..k][i] == other[i] && other[i] != other[k];
      assert x in Elements(other);
      assert x in Available(e, Elements(order[..k]));
      assert Less(order[k], x);
    }
  }

  lemma FirstDifference(a: seq<Text>, b: seq<Text>) returns (k: nat)
    requires a != b && |a| == |b|
    ensures k < |a| && a[..k] == b[..k] && a[k] != b[k]
  {
    var d :| 0 <= d < |a| && a[d] != b[d];
    k := 0;
    while a[k] == b[k]
      invariant k <= d
      invariant a[..k] == b[..k]
      decreases d - k
    {
      k := k + 1;
    }
  }

  // ------------------------------------------------------------------
  // Cycles

  lemma IndexIn(order: seq<Text>, x: Text) returns (k: nat)
    requires x in order
    ensures k < |order| && order[k] == x
  {
    k :| 0 <= k < |order| && order[k] == x;
  }

  /** A topological order leaves no room for a cycle: positions fall along every edge. */
  lemma TopologicalIsAcyclic(e: Edges, order: seq<Text>)
    requires IsTopological(e, order)
    ensures Acyclic(e)
  {
    forall p: seq<Text> ensures !IsCycle(e, p) {
      if |p| >= 2 && IsWalk(e, p) {
        assert p[0] in Elements(order);
        var k := IndexIn(order, p[0]);
        var j := PositionsFall(e, order, p, |p| - 1, k);
        assert order[j] != order[k];
      }
    }
  }

  lemma {:induction false} PositionsFall(e: Edges, order: seq<Text>, p: seq<Text>, n: nat, k: nat) returns (j: nat)
    requires IsTopological(e, order) && IsWalk(e, p)
    requires 1 <= n < |p| && k < |order| && order[k] == p[0]
    ensures j < k && order[j] == p[n]
    decreases n
  {
    if n == 1 {
      assert p[0 + 1] in e[order[k]];
      j := IndexIn(order[..k], p[1]);
    } else {
      var i := PositionsFall(e, order, p, n - 1, k);
      assert p[n - 1 + 1] in e[p[n - 1]];
      j := IndexIn(order[..i], p[n]);
    }
  }

  lemma {:induction false} RepeatedElement(w: seq<Text>, s: set<Text>) returns (i: nat, j: nat)
    requires |w| > |s|
    requires Elements(w) <= s
    ensures i < j < |w| && w[i] == w[j]
    decreases |w|
  {
    var last := w[|w| - 1];
    var init := w[..|w| - 1];
    assert last in Elements(w);
    if last in init {
      i := IndexIn(init, last);
      j := |w| - 1;
    } else {
      forall x | x in Elements(init) ensures x in s - {last} {
        assert x in Elements(w);
      }
      i, j := RepeatedElement(init, s - {last});
    }
  }

  /** A walk that never leaves a set whose members all depend on a member. */
  lemma {:induction false} WalkInside(e: Edges, rest: set<Text>, n: nat) returns (w: seq<Text>)
    requires rest != {} && rest <= e.Keys
    requires forall t :: t in rest ==> e[t] * rest != {}
    ensures |w| == n + 1 && Elements(w) <= rest
    ensures IsWalk(e, w)
    decreases n
  {
    if n == 0 {
      var t :| t in rest;
      w := [t];
    } else {
      var v := WalkInside(e, rest, n - 1);
      var last := v[n - 1];
      assert last in Elements(v);
      var d :| d in e[last] * rest;
      w := v + [d];
      assert Elements(w) == Elements(v) + {d};
      forall i | 0 <= i < |w| - 1 ensures w[i] in e && w[i + 1] in e[w[i]] {
        assert w[i] == v[i];
        if i < n - 1 {
          assert w[i + 1] == v[i + 1];
        }
      }
    }
  }

  /** Tasks the loop could not consume always contain a cycle. */
  lemma LeftoverHasCycle(e: Edges, rest: set<Text>) returns (p: seq<Text>)
    requires rest != {} && rest <= e.Keys
    requires forall t :: t in rest ==> e[t] * rest != {}
    ensures IsCycle(e, p) && Elements(p) <= rest
  {
    var w := WalkInside(e, rest, |rest|);
    var i, j := RepeatedElement(w, rest);
    p := w[i..j + 1];
    forall k | 0 <= k < |p| - 1 ensures p[k] in e && p[k + 1] in e[p[k]] {
      assert p[k] == w[i + k] && p[k + 1] == w[i + k + 1];
    }
    forall x | x in Elements(p) ensures x in rest {
      assert x in Elements(w);
    }
  }

  lemma CompleteIsAcyclic(e: Edges, order: seq<Text>)
    requires Greedy(e, order) && Elements(order) == e.Keys
    ensures Acyclic(e)
  {
    GreedyIsTopological(e, order);
    TopologicalIsAcyclic(e, order);
  }

  lemma IncompleteIsCyclic(e: Edges, order: seq<Text>)
    requires Closed(e)
    requires Available(e, Elements(order)) == {}
    requires Elements(order) < e.Keys
    ensures !Acyclic(e)
  {
    var rest := e.Keys - Elements(order);
    forall t | t in rest ensures e[t] * rest != {} {
      assert t !in Available(e, Elements(order));
      var d :| d in e[t] && d !in Elements(order);
      assert d in e[t] * rest;
    }
    var p := LeftoverHasCycle(e, rest);
  }

  /** What an exhausted loop means: complete exactly when there is no cycle. */
  lemma ExhaustedGreedy(e: Edges, order: seq<Text>)
    requires Closed(e)
    requires Greedy(e, order)
    requires Available(e, Elements(order)) == {}
    ensures Elements(order) == e.Keys <==> Acyclic(e)
    ensures |order| == |e.Keys| <==> Acyclic(e)
  {
    GreedyDistinct(e, order);
    if Elements(order) == e.Keys {
      CompleteIsAcyclic(e, order);
    } else {
      IncompleteIsCyclic(e, order);
      SubsetCount(Elements(order), e.Keys);
    }
  }

  lemma SubsetCount(a: set<Text>, b: set<Text>)
    requires a < b
    ensures |a| < |b|
  {
    assert b == a + (b - a);
    assert |b| == |a| + |b - a|;
  }

  lemma ExtendGreedy(e: Edges, order: seq<Text>, x: Text)
    requires Greedy(e, order)
    requires x in Available(e, Elements(order))
    requires forall y :: y in Available(e, Elements(order)) ==> Le(x, y)
    ensures Greedy(e, order + [x])
    ensures Elements(order + [x]) == Elements(order) + {x}
  {
    var next := order + [x];
    forall k | 0 <= k < |next| ensures GreedyAt(e, next, k) {
      assert next[..k] == order[..k];
      if k < |order| {
        assert GreedyAt(e, order, k);
      } else {
        assert order[..k] == order;
      }
    }
  }

  /** Every acyclic relation has a topological order. */
  lemma TopologicalOrderExists(e: Edges) returns (order: seq<Text>)
    requires Closed(e) && Acyclic(e)
    ensures IsTopological(e, order)
  {
    order := GreedyFrom(e, []);
    ExhaustedGreedy(e, order);
    GreedyIsTopological(e, order);
  }

  lemma {:induction false} GreedyFrom(e: Edges, prefix: seq<Text>) returns (order: seq<Text>)
    requires Greedy(e, prefix)
    ensures Greedy(e, order)
    ensures Available(e, Elements(order)) == {}
    decreases |e.Keys - Elements(prefix)|
  {
    var available := Available(e, Elements(prefix));
    if available == {} {
      order := prefix;
    } else {
      var x := LeastExists(available);
      ExtendGreedy(e, prefix, x);
      assert e.Keys - Elements(prefix + [x]) == (e.Keys - Elements(prefix)) - {x};
      order := GreedyFrom(e, prefix + [x]);
    }
  }

  /** Progress: unless everything is done, some task is available. */
  lemma SomethingAvailable(e: Edges, done: set<Text>) returns (t: Text)
    requires Closed(e) && Acyclic(e)
    requires !(e.Keys <= done)
    ensures t in Available(e, done)
  {
    var order := TopologicalOrderExists(e);
    var missing :| missing in e && missing !in done;
    assert missing in Elements(order);
    var k := IndexIn(order, missing);
    while !(e[order[k]] <= done)
      invariant 0 <= k < |order| && order[k] in e && order[k] !in done
      decreases k
    {
      var d :| d in e[order[k]] && d !in done;
      assert d in Elements(order[..k]);
      k := IndexIn(order[..k], d);
    }
    t := order[k];
  }
}
