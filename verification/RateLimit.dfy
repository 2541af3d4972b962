/** The fixed-window rate limiter and its periodic purge. */
module RateLimit {
  import opened Ids

  datatype Window = Window(startedAt: int, count: int)

  datatype Decision = Decision(allowed: bool, limit: int, remaining: int, retryAfter: int, resetAt: int)

  const PURGE_EVERY: nat := 1024

  // ------------------------------------------------------------------
  // Decisions as functions

  predicate Over(window: int, w: Window, now: int) {
    w.startedAt + window <= now
  }

  /** The window a call falls into. */
  function WindowAt(window: int, windows: map<Text, Window>, key: Text, now: int): Window {
    if key in windows && !Over(window, windows[key], now) then windows[key] else Window(now, 0)
  }

  function Max(a: int, b: int): int { if a > b then a else b }

  function Decide(limit: int, window: int, windows: map<Text, Window>, key: Text, now: int): Decision {
    var w := WindowAt(window, windows, key, now);
    if w.count >= limit then Decision(false, limit, 0, Max(0, w.startedAt + window - now), w.startedAt + window)
    else Decision(true, limit, limit - (w.count + 1), 0, w.startedAt + window)
  }

  function Record(limit: int, window: int, windows: map<Text, Window>, key: Text, now: int): map<Text, Window> {
    var w := WindowAt(window, windows, key, now);
    if w.count >= limit then windows else windows[key := w.(count := w.count + 1)]
  }

  function Purged(window: int, windows: map<Text, Window>, now: int): map<Text, Window> {
    map key | key in windows && !Over(window, windows[key], now) :: windows[key]
  }

  /** The table a call consults: purged first on every 1024th call. */
  function Consulted(window: int, windows: map<Text, Window>, calls: nat, now: int): map<Text, Window> {
    if calls % PURGE_EVERY == 0 then Purged(window, windows, now) else windows
  }

  // ------------------------------------------------------------------
  // Runs of calls

  datatype Call = Call(key: Text, at: int)

  /** The windows after a sequence of calls to a fresh limiter, with or without purging. */
  function After(limit: int, window: int, calls: seq<Call>, purges: bool): map<Text, Window>
    decreases |calls|, 1
  {
    if calls == [] then map[]
    else
      var c := calls[|calls| - 1];
      Record(limit, window, Table(limit, window, calls, purges), c.key, c.at)
  }

  /** The table the last call of a sequence consults. */
  function Table(limit: int, window: int, calls: seq<Call>, purges: bool): map<Text, Window>
    requires calls != []
    decreases |calls|, 0
  {
    var before := After(limit, window, calls[..|calls| - 1], purges);
    if purges then Consulted(window, before, |calls|, calls[|calls| - 1].at) else before
  }

  /** The decision on the last call of a sequence. */
  function LastDecision(limit: int, window: int, calls: seq<Call>, purges: bool): Decision
    requires calls != []
  {
    Decide(limit, window, Table(limit, window, calls, purges), calls[|calls| - 1].key, calls[|calls| - 1].at)
  }

  /** The clock never runs back. */
  predicate Forward(calls: seq<Call>) {
    forall i, j :: 0 <= i < j < |calls| ==> calls[i].at <= calls[j].at
  }

  lemma ForwardPrefix(calls: seq<Call>)
    requires Forward(calls) && calls != []
    ensures Forward(calls[..|calls| - 1])
  {
  }

  // ------------------------------------------------------------------
  // The limiter

  class FixedWindowRateLimiter {
    const limit: int
    const window: int
    var windows: map<Text, Window>
    var calls: nat
    // The calls made so far.
    ghost var history: seq<Call>

    ghost predicate Valid()
      reads this
    {
      limit >= 1 && window > 0 && calls == |history| && windows == After(limit, window, history, true)
    }

    constructor (limit: int, window: int)
      requires limit >= 1 && window > 0
      ensures Valid() && this.limit == limit && this.window == window && history == []
    {
      this.limit, this.window := limit, window;
      windows, calls, history := map[], 0, [];
    }

    /** Consume one call of a key's current window. */
    method Allow(key: Text, now: int) returns (d: Decision)
      requires Valid()
      modifies this
      ensures Valid() && history == old(history) + [Call(key, now)]
      ensures d == LastDecision(limit, window, history, true)
    {
      history := history + [Call(key, now)];
      assert history[..|history| - 1] == old(history);
      calls := calls + 1;
      if calls % PURGE_EVERY == 0 {
        Purge(now);
      }
      var w := Window(now, 0);
      if key in windows && !Over(window, windows[key], now) {
        w := windows[key];
      }
      if w.count >= limit {
        return Decision(false, limit, 0, Max(0, w.startedAt + window - now), w.startedAt + window);
      }
      w := w.(count := w.count + 1);
      windows := windows[key := w];
      return Decision(true, limit, limit - w.count, 0, w.startedAt + window);
    }

    /** Delete the windows that are over, in whatever order the map yields them. */
    method Purge(now: int)
      modifies this`windows
      ensures windows == Purged(window, old(windows), now)
    {
      var candidates := windows.Keys;
      while candidates != {}
        invariant candidates <= windows.Keys <= old(windows).Keys
        invariant forall key :: key in windows ==> windows[key] == old(windows)[key]
        invariant forall key :: key in old(windows) && key !in candidates ==>
                    (key in windows <==> !Over(window, old(windows)[key], now))
        decreases candidates
      {
        var candidate :| candidate in candidates;
        candidates := candidates - {candidate};
        if Over(window, windows[candidate], now) {
          windows := windows - {candidate};
        }
      }
    }
  }

  // ------------------------------------------------------------------
  // When the purge shows, under any clock

  /** The windows of a limiter that never purges, before the call at an index. */
  function Full(limit: int, window: int, calls: seq<Call>, n: nat): map<Text, Window>
    requires n <= |calls|
  {
    After(limit, window, calls[..n], false)
  }

  /** The call at an index purges, and drops the window its key had then. */
  ghost predicate Drops(limit: int, window: int, calls: seq<Call>, p: nat, key: Text)
    requires p < |calls|
  {
    && (p + 1) % PURGE_EVERY == 0 && key in Full(limit, window, calls, p)
    && Over(window, Full(limit, window, calls, p)[key], calls[p].at)
  }

  /** The window a key has at an index is one that an earlier purge has dropped. */
  ghost predicate Dropped(limit: int, window: int, calls: seq<Call>, n: nat, key: Text)
    requires n <= |calls|
  {
    && key in Full(limit, window, calls, n)
    && exists p :: 0 <= p < n && Drops(limit, window, calls, p, key)
                   && Full(limit, window, calls, p)[key].startedAt == Full(limit, window, calls, n)[key].startedAt
  }

  /** The call at an index falls back into a window that an earlier purge has dropped. */
  ghost predicate FallsBack(limit: int, window: int, calls: seq<Call>, n: nat)
    requires n < |calls|
  {
    && Dropped(limit, window, calls, n, calls[n].key)
    && !Over(window, Full(limit, window, calls, n)[calls[n].key], calls[n].at)
  }

  /** The call at an index is decided as it would be without any purge. */
  ghost predicate DecidedAlike(limit: int, window: int, calls: seq<Call>, n: nat)
    requires n < |calls|
  {
    LastDecision(limit, window, calls[..n + 1], true) == LastDecision(limit, window, calls[..n + 1], false)
  }

  lemma FullNext(limit: int, window: int, calls: seq<Call>, n: nat)
    requires n < |calls|
    ensures Full(limit, window, calls, n + 1) == Record(limit, window, Full(limit, window, calls, n), calls[n].key,
                                                        calls[n].at)
  {
    AfterCall(limit, window, calls, n);
  }

  /** A key keeps a window with at least one admitted call, and every later window of it starts later. */
  lemma {:induction false} FullGrows(limit: int, window: int, calls: seq<Call>, p: nat, n: nat, key: Text)
    requires limit >= 1 && window > 0 && p <= n <= |calls|
    ensures key in Full(limit, window, calls, n) ==> Full(limit, window, calls, n)[key].count >= 1
    ensures key in Full(limit, window, calls, p) ==>
              && key in Full(limit, window, calls, n)
              && Full(limit, window, calls, p)[key].startedAt <= Full(limit, window, calls, n)[key].startedAt
    decreases n
  {
    if n > 0 {
      FullGrows(limit, window, calls, if p < n then p else n - 1, n - 1, key);
      FullNext(limit, window, calls, n - 1);
    }
  }

  /** While nothing has fallen back, the purged table is the full one without the dropped windows. */
  ghost predicate Restricted(limit: int, window: int, calls: seq<Call>, n: nat, kept: map<Text, Window>)
    requires n <= |calls|
  {
    forall key :: (key in kept <==> key in Full(limit, window, calls, n) && !Dropped(limit, window, calls, n, key))
                  && (key in kept ==> kept[key] == Full(limit, window, calls, n)[key])
  }

  /** A window that goes on is dropped if it was or if the call purges it. */
  lemma DroppedOn(limit: int, window: int, calls: seq<Call>, n: nat, key: Text)
    requires n < |calls| && key in Full(limit, window, calls, n) && key in Full(limit, window, calls, n + 1)
    requires Full(limit, window, calls, n + 1)[key].startedAt == Full(limit, window, calls, n)[key].startedAt
    ensures Dropped(limit, window, calls, n + 1, key) <==>
              Dropped(limit, window, calls, n, key) || Drops(limit, window, calls, n, key)
  {
    hide Full, Over;
    if Dropped(limit, window, calls, n, key) {
      var p :| 0 <= p < n && Drops(limit, window, calls, p, key)
               && Full(limit, window, calls, p)[key].startedAt == Full(limit, window, calls, n)[key].startedAt;
      assert Dropped(limit, window, calls, n + 1, key);
    }
  }

  /** A window that the call opens is not dropped. */
  lemma OpenedNotDropped(limit: int, window: int, calls: seq<Call>, n: nat, key: Text)
    requires limit >= 1 && window > 0 && n < |calls| && key in Full(limit, window, calls, n + 1)
    requires key in Full(limit, window, calls, n) ==>
               Full(limit, window, calls, n)[key].startedAt < Full(limit, window, calls, n + 1)[key].startedAt
    ensures !Dropped(limit, window, calls, n + 1, key)
  {
    hide Full, Over;
    forall p | 0 <= p < n + 1 && Drops(limit, window, calls, p, key)
      ensures Full(limit, window, calls, p)[key].startedAt < Full(limit, window, calls, n + 1)[key].startedAt
    {
      FullGrows(limit, window, calls, p, n, key);
    }
  }

  /** The table the call at an index consults. */
  lemma ConsultedIs(limit: int, window: int, calls: seq<Call>, n: nat)
    requires n < |calls|
    ensures Table(limit, window, calls[..n + 1], false) == Full(limit, window, calls, n)
    ensures Table(limit, window, calls[..n + 1], true)
            == Consulted(window, After(limit, window, calls[..n], true), n + 1, calls[n].at)
  {
    assert calls[..n + 1][..n] == calls[..n];
  }

  lemma AfterCall(limit: int, window: int, calls: seq<Call>, n: nat)
    requires n < |calls|
    ensures After(limit, window, calls[..n + 1], false)
            == Record(limit, window, After(limit, window, calls[..n], false), calls[n].key, calls[n].at)
    ensures After(limit, window, calls[..n + 1], true)
            == Record(limit, window, Consulted(window, After(limit, window, calls[..n], true), n + 1, calls[n].at),
                      calls[n].key, calls[n].at)
  {
    ConsultedIs(limit, window, calls, n);
    assert calls[..n + 1][n] == calls[n];
  }

  lemma ConsultedRestricted(limit: int, window: int, calls: seq<Call>, n: nat, key: Text)
    requires n < |calls| && Restricted(limit, window, calls, n, After(limit, window, calls[..n], true))
    ensures var kept := Table(limit, window, calls[..n + 1], true);
            && (key in kept <==> key in Full(limit, window, calls, n) && !Dropped(limit, window, calls, n, key)
                                 && !Drops(limit, window, calls, n, key))
            && (key in kept ==> kept[key] == Full(limit, window, calls, n)[key])
  {
    hide Full, Dropped, After, Table, Over;
    ConsultedIs(limit, window, calls, n);
  }

  lemma DroppedIn(limit: int, window: int, calls: seq<Call>, n: nat, key: Text)
    requires n <= |calls|
    ensures Dropped(limit, window, calls, n, key) ==> key in Full(limit, window, calls, n)
  {
  }

  /** A call decides alike exactly when it does not fall back. */
  lemma AlikeExactly(limit: int, window: int, calls: seq<Call>, n: nat)
    requires limit >= 1 && window > 0 && n < |calls|
    requires Restricted(limit, window, calls, n, After(limit, window, calls[..n], true))
    ensures DecidedAlike(limit, window, calls, n) <==> !FallsBack(limit, window, calls, n)
  {
    hide Full, Dropped, After, Table, Restricted;
    ConsultedIs(limit, window, calls, n);
    ConsultedRestricted(limit, window, calls, n, calls[n].key);
    FullGrows(limit, window, calls, n, n, calls[n].key);
    DroppedIn(limit, window, calls, n, calls[n].key);
  }

  /** A call that does not fall back keeps the tables apart by the dropped windows only. */
  lemma RestrictedNext(limit: int, window: int, calls: seq<Call>, n: nat)
    requires limit >= 1 && window > 0 && n < |calls| && !FallsBack(limit, window, calls, n)
    requires Restricted(limit, window, calls, n, After(limit, window, calls[..n], true))
    ensures Restricted(limit, window, calls, n + 1, After(limit, window, calls[..n + 1], true))
  {
    hide Full, Dropped, Table;
    var kept := Table(limit, window, calls[..n + 1], true);
    var next := After(limit, window, calls[..n + 1], true);
    assert next == Record(limit, window, kept, calls[n].key, calls[n].at);
    forall key
      ensures key in next <==> key in Full(limit, window, calls, n + 1) && !Dropped(limit, window, calls, n + 1, key)
      ensures key in next ==> next[key] == Full(limit, window, calls, n + 1)[key]
    {
      KeyNext(limit, window, calls, n, key, kept);
    }
  }

  lemma KeyNext(limit: int, window: int, calls: seq<Call>, n: nat, key: Text, kept: map<Text, Window>)
    requires limit >= 1 && window > 0 && n < |calls| && !FallsBack(limit, window, calls, n)
    requires Restricted(limit, window, calls, n, After(limit, window, calls[..n], true))
    requires kept == Table(limit, window, calls[..n + 1], true)
    ensures var next := Record(limit, window, kept, calls[n].key, calls[n].at);
            && (key in next <==> key in Full(limit, window, calls, n + 1) && !Dropped(limit, window, calls, n + 1, key))
            && (key in next ==> next[key] == Full(limit, window, calls, n + 1)[key])
  {
    hide Full, Dropped, After, Table, Restricted;
    ConsultedRestricted(limit, window, calls, n, key);
    FullNext(limit, window, calls, n);
    DroppedIn(limit, window, calls, n, key);
    DroppedIn(limit, window, calls, n + 1, key);
    var full, next := Full(limit, window, calls, n), Full(limit, window, calls, n + 1);
    if key in full && next[key].startedAt == full[key].startedAt {
      DroppedOn(limit, window, calls, n, key);
    } else if key in next {
      OpenedNotDropped(limit, window, calls, n, key);
    }
  }

  lemma {:induction false} AlwaysRestricted(limit: int, window: int, calls: seq<Call>, n: nat)
    requires limit >= 1 && window > 0 && n <= |calls|
    requires forall i :: 0 <= i < n ==> !FallsBack(limit, window, calls, i)
    ensures Restricted(limit, window, calls, n, After(limit, window, calls[..n], true))
  {
    if n > 0 {
      AlwaysRestricted(limit, window, calls, n - 1);
      RestrictedNext(limit, window, calls, n - 1);
    }
  }

  /** Under any clock: every call is decided as without purging if and only if no call falls back into a window that
      an earlier purge has dropped. */
  lemma PurgeVisibleExactly(limit: int, window: int, calls: seq<Call>)
    requires limit >= 1 && window > 0
    ensures (forall n :: 0 <= n < |calls| ==> DecidedAlike(limit, window, calls, n))
            <==> (forall n :: 0 <= n < |calls| ==> !FallsBack(limit, window, calls, n))
  {
    hide FallsBack, DecidedAlike, Restricted, After;
    if forall n :: 0 <= n < |calls| ==> !FallsBack(limit, window, calls, n) {
      forall n | 0 <= n < |calls| ensures DecidedAlike(limit, window, calls, n) {
        AlwaysRestricted(limit, window, calls, n);
        AlikeExactly(limit, window, calls, n);
      }
    } else {
      var n := FirstFall(limit, window, calls);
      AlwaysRestricted(limit, window, calls, n);
      AlikeExactly(limit, window, calls, n);
    }
  }

  /** With a clock that never runs back, purging changes no decision of any sequence of calls. */
  lemma PurgeInvisible(limit: int, window: int, calls: seq<Call>)
    requires limit >= 1 && window > 0 && Forward(calls) && calls != []
    ensures LastDecision(limit, window, calls, true) == LastDecision(limit, window, calls, false)
  {
    hide Full, DecidedAlike, LastDecision;
    forall n | 0 <= n < |calls| ensures !FallsBack(limit, window, calls, n) {
      assert forall p :: 0 <= p < n ==> calls[p].at <= calls[n].at;
    }
    PurgeVisibleExactly(limit, window, calls);
    AlikeAtEnd(limit, window, calls);
  }

  lemma AlikeAtEnd(limit: int, window: int, calls: seq<Call>)
    requires calls != [] && DecidedAlike(limit, window, calls, |calls| - 1)
    ensures LastDecision(limit, window, calls, true) == LastDecision(limit, window, calls, false)
  {
    assert calls[..|calls|] == calls;
  }

  lemma FirstFall(limit: int, window: int, calls: seq<Call>) returns (n: nat)
    requires exists i :: 0 <= i < |calls| && FallsBack(limit, window, calls, i)
    ensures n < |calls| && FallsBack(limit, window, calls, n)
    ensures forall i :: 0 <= i < n ==> !FallsBack(limit, window, calls, i)
  {
    hide FallsBack;
    n := 0;
    while !FallsBack(limit, window, calls, n)
      invariant n < |calls| && forall i :: 0 <= i < n ==> !FallsBack(limit, window, calls, i)
      decreases |calls| - n
    {
      n := n + 1;
    }
  }

  /** 1025 calls: the window of one key opens at 0, the 1024th call purges it at 5, and the clock returns to 3. */
  function ReturningClock(): (calls: seq<Call>)
    ensures |calls| == 1025 && calls[0] == Call([97], 0) && calls[1023] == Call([98], 5) && calls[1024] == Call([97], 3)
    ensures forall i :: 0 < i < 1023 ==> calls[i] == Call([98], 0)
  {
    [Call([97], 0)] + seq(1022, i => Call([98], 0)) + [Call([98], 5), Call([97], 3)]
  }

  lemma OtherKey()
    ensures var a: Text, b: Text := [97], [98]; a != b
  {
    var a: Text, b: Text := [97], [98];
    assert a[0] != b[0];
  }

  lemma {:induction false} FirstWindowStays(n: nat, purges: bool)
    requires 1 <= n <= 1023
    ensures var windows := After(1, 5, ReturningClock()[..n], purges); [97] in windows && windows[[97]] == Window(0, 1)
  {
    hide ReturningClock;
    var calls := ReturningClock();
    OtherKey();
    AfterCall(1, 5, calls, n - 1);
    if n > 1 {
      FirstWindowStays(n - 1, purges);
    } else {
      assert calls[..0] == [] && After(1, 5, calls[..0], purges) == map[];
    }
  }

  /** On those calls the last one is admitted; without purging it would have been refused. */
  lemma PurgeVisible()
    ensures LastDecision(1, 5, ReturningClock(), true).allowed && !LastDecision(1, 5, ReturningClock(), false).allowed
  {
    hide ReturningClock;
    var calls := ReturningClock();
    OtherKey();
    FirstWindowStays(1023, true);
    FirstWindowStays(1023, false);
    AfterCall(1, 5, calls, 1023);
    ConsultedIs(1, 5, calls, 1024);
    assert calls[..1025] == calls;
  }

  // ------------------------------------------------------------------
  // How many calls any interval admits

  /** Moments at which calls of a key were admitted. */
  function Admitted(limit: int, window: int, calls: seq<Call>, key: Text, purges: bool): seq<int> {
    if calls == [] then []
    else
      var front, last := calls[..|calls| - 1], calls[|calls| - 1];
      Admitted(limit, window, front, key, purges) +
      if last.key == key && LastDecision(limit, window, calls, purges).allowed then [last.at] else []
  }

  lemma {:induction false} SameAdmitted(limit: int, window: int, calls: seq<Call>, key: Text)
    requires limit >= 1 && window > 0 && Forward(calls)
    ensures Admitted(limit, window, calls, key, true) == Admitted(limit, window, calls, key, false)
  {
    if calls != [] {
      ForwardPrefix(calls);
      SameAdmitted(limit, window, calls[..|calls| - 1], key);
      PurgeInvisible(limit, window, calls);
    }
  }

  function CountIn(times: seq<int>, lo: int, hi: int): nat {
    if times == [] then 0
    else CountIn(times[..|times| - 1], lo, hi) + if lo <= times[|times| - 1] < hi then 1 else 0
  }

  lemma {:induction false} CountSplit(times: seq<int>, lo: int, mid: int, hi: int)
    requires lo <= mid <= hi
    ensures CountIn(times, lo, hi) == CountIn(times, lo, mid) + CountIn(times, mid, hi)
  {
    if times != [] { CountSplit(times[..|times| - 1], lo, mid, hi); }
  }

  lemma {:induction false} CountWiden(times: seq<int>, lo: int, hi: int, low: int, high: int)
    requires low <= lo && hi <= high
    ensures CountIn(times, lo, hi) <= CountIn(times, low, high)
  {
    if times != [] { CountWiden(times[..|times| - 1], lo, hi, low, high); }
  }

  lemma CountAppend(times: seq<int>, x: int, lo: int, hi: int)
    ensures CountIn(times + [x], lo, hi) == CountIn(times, lo, hi) + if lo <= x < hi then 1 else 0
  {
    assert (times + [x])[..|times|] == times;
  }

  lemma {:induction false} CountNone(times: seq<int>, lo: int, hi: int)
    requires forall i :: 0 <= i < |times| ==> times[i] < lo
    ensures CountIn(times, lo, hi) == 0
  {
    if times != [] { CountNone(times[..|times| - 1], lo, hi); }
  }

  /** What the window of a key says about the admitted moments. A window opens with an admitted call,
      so an interval that reaches into the next window misses at least that one. */
  ghost predicate Tracks(limit: int, window: int, w: Window, times: seq<int>) {
    && 1 <= w.count <= limit
    && (forall i :: 0 <= i < |times| ==> times[i] < w.startedAt + window)
    && CountIn(times, w.startedAt, w.startedAt + window) == w.count
    && CountIn(times, w.startedAt + 1, w.startedAt + window) <= w.count - 1
    && CountIn(times, w.startedAt - window + 1, w.startedAt) <= limit - 1
  }

  /** Every interval of one window length holds fewer than twice the limit. */
  ghost predicate Sparse(limit: int, window: int, times: seq<int>) {
    forall a :: Load(times, window, a) <= 2 * limit - 1
  }

  /** Admitted calls in the interval of one window length from a moment on. */
  function Load(times: seq<int>, window: int, a: int): nat {
    CountIn(times, a, a + window)
  }

  /** A call admitted into the running window. */
  lemma AdmitInside(limit: int, window: int, w: Window, times: seq<int>, now: int)
    requires limit >= 1 && window > 0 && Tracks(limit, window, w, times) && Sparse(limit, window, times)
    requires w.startedAt <= now < w.startedAt + window && w.count < limit
    ensures Tracks(limit, window, w.(count := w.count + 1), times + [now]) && Sparse(limit, window, times + [now])
  {
    var s := w.startedAt;
    CountAppend(times, now, s, s + window);
    CountAppend(times, now, s + 1, s + window);
    CountAppend(times, now, s - window + 1, s);
    forall a ensures Load(times + [now], window, a) <= 2 * limit - 1 {
      assert Load(times, window, a) <= 2 * limit - 1;
      CountAppend(times, now, a, a + window);
      if a <= now < a + window {
        IntervalBound(limit, window, w, times, a);
      }
    }
  }

  /** An interval that still covers the running window's present holds what the window holds and at
      most one less than a full window from before. */
  lemma IntervalBound(limit: int, window: int, w: Window, times: seq<int>, a: int)
    requires limit >= 1 && window > 0 && Tracks(limit, window, w, times)
             && w.startedAt - window < a < w.startedAt + window
    ensures CountIn(times, a, a + window) <= limit - 1 + w.count
  {
    var s := w.startedAt;
    if a <= s {
      CountSplit(times, a, s, a + window);
      CountWiden(times, a, s, s - window + 1, s);
      CountWiden(times, s, a + window, s, s + window);
    } else {
      CountSplit(times, a, s + window, a + window);
      CountWiden(times, a, s + window, s, s + window);
      CountNone(times, s + window, a + window);
    }
  }

  /** A call that opens a new window. */
  lemma AdmitNew(limit: int, window: int, w: Window, times: seq<int>, now: int)
    requires limit >= 1 && window > 0 && Tracks(limit, window, w, times) && Sparse(limit, window, times)
    requires w.startedAt + window <= now
    ensures Tracks(limit, window, Window(now, 1), times + [now]) && Sparse(limit, window, times + [now])
  {
    var s := w.startedAt;
    CountNone(times, now, now + window);
    CountNone(times, now + 1, now + window);
    CountAppend(times, now, now, now + window);
    CountAppend(times, now, now + 1, now + window);
    CountAppend(times, now, now - window + 1, now);
    if s + window <= now - window + 1 {
      CountNone(times, now - window + 1, now);
    } else {
      CountSplit(times, now - window + 1, s + window, now);
      CountWiden(times, now - window + 1, s + window, s + 1, s + window);
      CountNone(times, s + window, now);
    }
    forall a ensures Load(times + [now], window, a) <= 2 * limit - 1 {
      assert Load(times, window, a) <= 2 * limit - 1;
      CountAppend(times, now, a, a + window);
      if a <= now < a + window {
        CountSplit(times, a, now, a + window);
        CountWiden(times, a, now, now - window + 1, now);
        CountNone(times, now, a + window);
      }
    }
  }

  lemma AdmitFirst(limit: int, window: int, now: int)
    requires limit >= 1 && window > 0
    ensures Tracks(limit, window, Window(now, 1), [now]) && Sparse(limit, window, [now])
  {
    forall lo: int, hi: int ensures CountIn([now], lo, hi) == if lo <= now < hi then 1 else 0 {
      assert [now][..0] == [];
    }
  }

  /** The window of a key and its admitted moments fit together. */
  ghost predicate Fits(limit: int, window: int, windows: map<Text, Window>, key: Text, times: seq<int>, now: int) {
    && (key !in windows ==> times == [])
    && (key in windows ==> Tracks(limit, window, windows[key], times) && windows[key].startedAt <= now)
    && Sparse(limit, window, times)
  }

  lemma FitsNext(limit: int, window: int, windows: map<Text, Window>, key: Text, times: seq<int>, before: int, c: Call)
    requires limit >= 1 && window > 0 && Fits(limit, window, windows, key, times, before) && before <= c.at
    ensures Fits(limit, window, Record(limit, window, windows, c.key, c.at), key,
                 times + if c.key == key && Decide(limit, window, windows, key, c.at).allowed then [c.at] else [], c.at)
  {
    hide Tracks, Sparse;
    if c.key != key || (key in windows && !Over(window, windows[key], c.at) && windows[key].count >= limit) {
      assert times + [] == times;
    } else if key !in windows {
      AdmitFirst(limit, window, c.at);
      assert times + [c.at] == [c.at];
    } else if Over(window, windows[key], c.at) {
      AdmitNew(limit, window, windows[key], times, c.at);
    } else {
      AdmitInside(limit, window, windows[key], times, c.at);
    }
  }

  lemma {:induction false} AlwaysFits(limit: int, window: int, calls: seq<Call>, key: Text)
    requires limit >= 1 && window > 0 && Forward(calls) && calls != []
    ensures Fits(limit, window, After(limit, window, calls, false), key, Admitted(limit, window, calls, key, false),
                 calls[|calls| - 1].at)
    decreases |calls|
  {
    hide Fits, Decide, Record;
    var front, last := calls[..|calls| - 1], calls[|calls| - 1];
    assert Table(limit, window, calls, false) == After(limit, window, front, false);
    if front == [] {
      NothingFits(limit, window, key, last.at);
      FitsNext(limit, window, map[], key, [], last.at, last);
    } else {
      ForwardPrefix(calls);
      AlwaysFits(limit, window, front, key);
      FitsNext(limit, window, After(limit, window, front, false), key, Admitted(limit, window, front, key, false),
               front[|front| - 1].at, last);
    }
  }

  lemma NothingFits(limit: int, window: int, key: Text, now: int)
    requires limit >= 1
    ensures Fits(limit, window, map[], key, [], now)
  {
  }

  /** No interval of one window length admits more than 2 * limit - 1 calls of a key. */
  lemma IntervalLimit(limit: int, window: int, calls: seq<Call>, key: Text, a: int)
    requires limit >= 1 && window > 0 && Forward(calls)
    ensures CountIn(Admitted(limit, window, calls, key, true), a, a + window) <= 2 * limit - 1
  {
    SameAdmitted(limit, window, calls, key);
    var times := Admitted(limit, window, calls, key, true);
    assert Load(times, window, a) == CountIn(times, a, a + window);
    if calls != [] { AlwaysFits(limit, window, calls, key); }
  }
}
