/** Identifiers.

Go strings are byte sequences, so an identifier is a `Text`. This module holds the
byte order used by every sort in the program, the check that an identifier has no
space or control character, and the derived names of task runs, attempts and workers.
 */
module Ids {

  newtype byte = x: int | 0 <= x < 256

  type Text = seq<byte>

  datatype Option<+T> = None | Some(value: T)

  datatype Result<+T, +E> = Ok(value: T) | Err(error: E)

  // ------------------------------------------------------------------
  // Byte order

  predicate Le(a: Text, b: Text)
    decreases |a|
  {
    a == [] || (b != [] && (a[0] < b[0] || (a[0] == b[0] && Le(a[1..], b[1..]))))
  }

  predicate Less(a: Text, b: Text) {
    Le(a, b) && a != b
  }

  lemma {:induction false} LeReflexive(a: Text)
    ensures Le(a, a)
    decreases |a|
  {
    if a != [] {
      LeReflexive(a[1..]);
    }
  }

  lemma {:induction false} LeAntisymmetric(a: Text, b: Text)
    requires Le(a, b) && Le(b, a)
    ensures a == b
    decreases |a|
  {
    if a != [] {
      LeAntisymmetric(a[1..], b[1..]);
      assert a == [a[0]] + a[1..] && b == [b[0]] + b[1..];
    }
  }

  lemma {:induction false} LeTransitive(a: Text, b: Text, c: Text)
    requires Le(a, b) && Le(b, c)
    ensures Le(a, c)
    decreases |a|
  {
    if a != [] && a[0] == b[0] && b[0] == c[0] {
      LeTransitive(a[1..], b[1..], c[1..]);
    }
  }

  lemma {:induction false} LeTotal(a: Text, b: Text)
    ensures Le(a, b) || Le(b, a)
    decreases |a|
  {
    if a != [] && b != [] && a[0] == b[0] {
      LeTotal(a[1..], b[1..]);
    }
  }

  /** A non-empty finite set of identifiers has a least element. */
  lemma {:induction false} LeastExists(s: set<Text>) returns (m: Text)
    requires s != {}
    ensures m in s
    ensures forall x :: x in s ==> Le(m, x)
    decreases |s|
  {
    var y :| y in s;
    var rest := s - {y};
    LeReflexive(y);
    if rest == {} {
      assert s == {y};
      m := y;
    } else {
      m := LeastExists(rest);
      LeTotal(m, y);
      if !Le(m, y) {
        forall x | x in s ensures Le(y, x) {
          if x != y {
            LeTransitive(y, m, x);
          }
        }
        m := y;
      }
    }
  }

  lemma LeastHere(s: set<Text>)
    requires s != {}
    ensures exists m :: m in s && forall x :: x in s ==> Le(m, x)
  {
    var m := LeastExists(s);
  }

  predicate Sorted(s: seq<Text>) {
    forall i, j :: 0 <= i < j < |s| ==> Less(s[i], s[j])
  }

  /** The least element followed by the others in order. */
  lemma SortedCons(s: set<Text>, m: Text, rest: seq<Text>)
    requires m in s && (forall x :: x in s ==> Le(m, x))
    requires Sorted(rest) && forall x :: x in rest <==> x in s - {m}
    ensures Sorted([m] + rest) && forall x :: x in [m] + rest <==> x in s
  {
    hide Le;
    var r := [m] + rest;
    forall i, j | 0 <= i < j < |r| ensures Less(r[i], r[j]) {
      assert r[j] == rest[j - 1] && r[j] in rest;
    }
  }

  /** The elements of a set in byte order: what collecting a Go map's keys and sorting yields. */
  ghost function SortedSeq(s: set<Text>): (r: seq<Text>)
    ensures |r| == |s|
    ensures forall x :: x in r <==> x in s
    ensures Sorted(r)
    decreases |s|
  {
    if s == {} then []
    else
      var m := Least(s);
      var rest := SortedSeq(s - {m});
      SortedCons(s, m, rest);
      [m] + rest
  }

  ghost function Least(s: set<Text>): (m: Text)
    requires s != {}
    ensures m in s
    ensures forall x :: x in s ==> Le(m, x)
  {
    LeastHere(s);
    var least :| least in s && forall x :: x in s ==> Le(least, x);
    least
  }

  /** A strictly increasing sequence is determined by its elements. */
  lemma {:induction false} SortedUnique(a: seq<Text>, b: seq<Text>)
    requires Sorted(a) && Sorted(b)
    requires forall x :: x in a <==> x in b
    ensures a == b
    decreases |a|
  {
    assert b != [] ==> b[0] in a;
    if a != [] {
      assert a[0] in b;
      var i :| 0 <= i < |b| && b[i] == a[0];
      var j :| 0 <= j < |a| && a[j] == b[0];
      if i > 0 && j > 0 {
        LeAntisymmetric(a[0], b[0]);
      }
      assert a[0] == b[0];
      forall x ensures x in a[1..] <==> x in b[1..] {
        if x in a[1..] {
          var k :| 1 <= k < |a| && a[k] == x;
          assert Less(a[0], a[k]);
          assert x in b;
        }
        if x in b[1..] {
          var k :| 1 <= k < |b| && b[k] == x;
          assert Less(b[0], b[k]);
          assert x in a;
        }
      }
      SortedUnique(a[1..], b[1..]);
      assert a == [a[0]] + a[1..] && b == [b[0]] + b[1..];
    }
  }

  predicate Distinct(s: seq<Text>) {
    forall i, j :: 0 <= i < j < |s| ==> s[i] != s[j]
  }

  /** sort.Slice on identifiers: the same identifiers, in byte order. */
  method SortTexts(s: seq<Text>) returns (r: seq<Text>)
    requires Distinct(s)
    ensures Sorted(r) && |r| == |s|
    ensures forall x :: x in r <==> x in s
  {
    r := [];
    for i := 0 to |s|
      invariant Sorted(r) && |r| == i
      invariant forall x :: x in r <==> x in s[..i]
    {
      assert s[i] !in s[..i];
      r := InsertSorted(r, s[i]);
      assert s[..i + 1] == s[..i] + [s[i]];
    }
    assert s[..|s|] == s;
  }

  method InsertSorted(s: seq<Text>, x: Text) returns (r: seq<Text>)
    requires Sorted(s) && x !in s
    ensures Sorted(r) && |r| == |s| + 1
    ensures forall y :: y in r <==> y in s || y == x
  {
    var k := 0;
    while k < |s| && Le(s[k], x)
      invariant 0 <= k <= |s|
      invariant forall i :: 0 <= i < k ==> Less(s[i], x)
    {
      k := k + 1;
    }
    r := s[..k] + [x] + s[k..];
    forall i | k <= i < |s| ensures Less(x, s[i]) {
      LeTotal(s[k], x);
      if i > k {
        LeTransitive(x, s[k], s[i]);
      }
    }
    forall i, j | 0 <= i < j < |r| ensures Less(r[i], r[j]) {
      assert i < k ==> r[i] == s[i];
      assert i > k ==> r[i] == s[i - 1];
      assert j < k ==> r[j] == s[j];
      assert j > k ==> r[j] == s[j - 1];
    }
    forall y ensures y in r <==> y in s || y == x {
      assert s == s[..k] + s[k..];
    }
  }

  // ------------------------------------------------------------------
  // Decimal numerals (fmt "%d" of a non-negative integer)

  const COLON: byte := 58
  const DASH: byte := 45
  const SLASH: byte := 47

  predicate IsDigit(b: byte) { 48 <= b <= 57 }

  predicate AllDigits(s: Text) {
    forall i :: 0 <= i < |s| ==> IsDigit(s[i])
  }

  function Decimal(n: nat): (r: Text)
    ensures r != [] && AllDigits(r)
  {
    if n < 10 then [(48 + n) as byte] else Decimal(n / 10) + [(48 + n % 10) as byte]
  }

  function DecimalValue(s: Text): nat
    requires AllDigits(s)
    decreases |s|
  {
    if s == [] then 0
    else 10 * DecimalValue(s[..|s| - 1]) + (s[|s| - 1] as int - 48)
  }

  lemma {:induction false} DecimalRoundTrip(n: nat)
    ensures DecimalValue(Decimal(n)) == n
  {
    var r := Decimal(n);
    if n < 10 {
      assert r[..|r| - 1] == [];
    } else {
      DecimalRoundTrip(n / 10);
      assert r[..|r| - 1] == Decimal(n / 10);
    }
  }

  lemma DecimalInjective(m: nat, n: nat)
    requires Decimal(m) == Decimal(n)
    ensures m == n
  {
    DecimalRoundTrip(m);
    DecimalRoundTrip(n);
  }

  /** A numeral before a non-digit separator can be read off the front of a text. */
  lemma SplitFront(d: Text, e: Text, sep: byte, a: Text, b: Text)
    requires AllDigits(d) && AllDigits(e) && !IsDigit(sep)
    requires d + [sep] + a == e + [sep] + b
    ensures d == e && a == b
  {
    var s := d + [sep] + a;
    assert s == e + [sep] + b;
    assert s[|d|] == sep && s[|e|] == sep;
    assert forall i :: 0 <= i < |d| ==> s[i] == d[i] && IsDigit(s[i]);
    assert forall i :: 0 <= i < |e| ==> s[i] == e[i] && IsDigit(s[i]);
    assert d == s[..|d|] && e == s[..|e|];
    assert a == s[|d| + 1..] && b == s[|e| + 1..];
  }

  /** A numeral after a non-digit separator can be read off the back of a text. */
  lemma SplitBack(a: Text, b: Text, sep: byte, d: Text, e: Text)
    requires AllDigits(d) && AllDigits(e) && !IsDigit(sep)
    requires a + [sep] + d == b + [sep] + e
    ensures d == e && a == b
  {
    var s := a + [sep] + d;
    assert s == b + [sep] + e;
    assert s[|a|] == sep && s[|b|] == sep;
    assert forall i :: |a| < i < |s| ==> s[i] == d[i - |a| - 1] && IsDigit(s[i]);
    assert forall i :: |b| < i < |s| ==> s[i] == e[i - |b| - 1] && IsDigit(s[i]);
    assert a == s[..|a|] && b == s[..|b|];
    assert d == s[|a| + 1..] && e == s[|b| + 1..];
  }

  // ------------------------------------------------------------------
  // Derived names

  // ":attempt"
  const ATTEMPT_TAG: Text := [58, 97, 116, 116, 101, 109, 112, 116]
  // "/slot"
  const SLOT_TAG: Text := [47, 115, 108, 111, 116]
  // "/generation"
  const GENERATION_TAG: Text := [47, 103, 101, 110, 101, 114, 97, 116, 105, 111, 110]

  function TaskRunIdFor(runId: Text, taskId: Text): Text {
    Decimal(|runId|) + [COLON] + (runId + [COLON] + taskId)
  }

  function AttemptIdFor(taskRunId: Text, attempt: nat): Text {
    taskRunId + ATTEMPT_TAG + [COLON] + Decimal(attempt)
  }

  /** The identifier of attempt n of a task in a run; also the broker's message identifier. */
  function AttemptOf(runId: Text, taskId: Text, n: nat): Text {
    AttemptIdFor(TaskRunIdFor(runId, taskId), n)
  }

  function WorkerIdFor(namespace: Text, runId: Text, slot: nat, generation: nat): Text {
    namespace + [SLASH] + runId + SLOT_TAG + [DASH] + Decimal(slot) + GENERATION_TAG + [DASH] + Decimal(generation)
  }

  /** Task-run names have no delimiter ambiguity, whatever bytes the two identifiers hold. */
  lemma TaskRunIdInjective(r1: Text, t1: Text, r2: Text, t2: Text)
    requires TaskRunIdFor(r1, t1) == TaskRunIdFor(r2, t2)
    ensures r1 == r2 && t1 == t2
  {
    SplitFront(Decimal(|r1|), Decimal(|r2|), COLON, r1 + [COLON] + t1, r2 + [COLON] + t2);
    DecimalInjective(|r1|, |r2|);
    var s := r1 + [COLON] + t1;
    assert s == r2 + [COLON] + t2;
    assert r1 == s[..|r1|] && r2 == s[..|r1|];
    assert t1 == s[|r1| + 1..] && t2 == s[|r1| + 1..];
  }

  lemma AttemptIdForInjective(a: Text, m: nat, b: Text, n: nat)
    requires AttemptIdFor(a, m) == AttemptIdFor(b, n)
    ensures a == b && m == n
  {
    SplitBack(a + ATTEMPT_TAG, b + ATTEMPT_TAG, COLON, Decimal(m), Decimal(n));
    DecimalInjective(m, n);
    assert a == (a + ATTEMPT_TAG)[..|a|];
    assert b == (b + ATTEMPT_TAG)[..|b|];
  }

  /** Two dispatches share a message identifier only if they are the same attempt of the
      same task in the same run. */
  lemma AttemptOfInjective(r1: Text, t1: Text, m: nat, r2: Text, t2: Text, n: nat)
    requires AttemptOf(r1, t1, m) == AttemptOf(r2, t2, n)
    ensures r1 == r2 && t1 == t2 && m == n
  {
    AttemptIdForInjective(TaskRunIdFor(r1, t1), m, TaskRunIdFor(r2, t2), n);
    TaskRunIdInjective(r1, t1, r2, t2);
  }

  /** Workers of one scheduler never share an identifier. */
  lemma WorkerIdInjective(ns: Text, r: Text, s1: nat, g1: nat, s2: nat, g2: nat)
    requires WorkerIdFor(ns, r, s1, g1) == WorkerIdFor(ns, r, s2, g2)
    ensures s1 == s2 && g1 == g2
  {
    var front := ns + [SLASH] + r + SLOT_TAG;
    SplitBack(front + [DASH] + Decimal(s1) + GENERATION_TAG, front + [DASH] + Decimal(s2) + GENERATION_TAG,
              DASH, Decimal(g1), Decimal(g2));
    DecimalInjective(g1, g2);
    var x := front + [DASH] + Decimal(s1);
    var y := front + [DASH] + Decimal(s2);
    assert x + GENERATION_TAG == y + GENERATION_TAG;
    assert x == (x + GENERATION_TAG)[..|x|];
    assert y == (y + GENERATION_TAG)[..|y|];
    SplitBack(front, front, DASH, Decimal(s1), Decimal(s2));
    DecimalInjective(s1, s2);
  }

  // The task and the number an attempt identifier of a run stands for.

  ghost predicate IsAttempt(runId: Text, a: Text) {
    exists t: Text, n: nat :: AttemptOf(runId, t, n) == a
  }

  ghost function TaskOf(runId: Text, a: Text): Text {
    if IsAttempt(runId, a) then
      var t: Text, n: nat :| AttemptOf(runId, t, n) == a; t
    else []
  }

  ghost function NumberOf(runId: Text, a: Text): nat {
    if IsAttempt(runId, a) then
      var t: Text, n: nat :| AttemptOf(runId, t, n) == a; n
    else 0
  }

  /** Task and number can be read back from an attempt identifier. */
  lemma AttemptParts(runId: Text, t: Text, n: nat)
    ensures TaskOf(runId, AttemptOf(runId, t, n)) == t
    ensures NumberOf(runId, AttemptOf(runId, t, n)) == n
  {
    var a := AttemptOf(runId, t, n);
    assert IsAttempt(runId, a);
    var t1: Text, n1: nat :| AttemptOf(runId, t1, n1) == a && t1 == TaskOf(runId, a);
    AttemptOfInjective(runId, t1, n1, runId, t, n);
    var t2: Text, n2: nat :| AttemptOf(runId, t2, n2) == a && n2 == NumberOf(runId, a);
    AttemptOfInjective(runId, t2, n2, runId, t, n);
  }

  lemma AllAttemptParts(runId: Text)
    ensures forall t: Text, n: nat {:trigger AttemptOf(runId, t, n)} ::
              TaskOf(runId, AttemptOf(runId, t, n)) == t && NumberOf(runId, AttemptOf(runId, t, n)) == n
    ensures forall t: Text, n: nat {:trigger AttemptOf(runId, t, n)} :: AttemptOf(runId, t, n) != []
  {
    forall t: Text, n: nat
      ensures TaskOf(runId, AttemptOf(runId, t, n)) == t && NumberOf(runId, AttemptOf(runId, t, n)) == n
    {
      AttemptParts(runId, t, n);
    }
  }

  // ------------------------------------------------------------------
  // Valid identifiers: non-empty, no Unicode space or control character.
  // Go ranges over runes; an ill-formed byte decodes to U+FFFD with width one.

  const RUNE_ERROR := 0xFFFD

  predicate Cont(s: Text, i: nat, lo: byte, hi: byte) {
    i < |s| && lo <= s[i] <= hi
  }

  /** First rune of a non-empty text and its width in bytes. */
  function DecodeRune(s: Text): (r: (int, nat))
    requires s != []
    ensures 1 <= r.1 <= |s|
  {
    var b := s[0];
    if b < 0x80 then (b as int, 1)
    else if 0xC2 <= b <= 0xDF && Cont(s, 1, 0x80, 0xBF) then
      ((b as int - 0xC0) * 64 + (s[1] as int - 0x80), 2)
    else if 0xE0 <= b <= 0xEF
            && Cont(s, 1, if b == 0xE0 then 0xA0 else 0x80, if b == 0xED then 0x9F else 0xBF)
            && Cont(s, 2, 0x80, 0xBF) then
      ((b as int - 0xE0) * 4096 + (s[1] as int - 0x80) * 64 + (s[2] as int - 0x80), 3)
    else if 0xF0 <= b <= 0xF4
            && Cont(s, 1, if b == 0xF0 then 0x90 else 0x80, if b == 0xF4 then 0x8F else 0xBF)
            && Cont(s, 2, 0x80, 0xBF) && Cont(s, 3, 0x80, 0xBF) then
      ((b as int - 0xF0) * 262144 + (s[1] as int - 0x80) * 4096 + (s[2] as int - 0x80) * 64
       + (s[3] as int - 0x80), 4)
    else (RUNE_ERROR, 1)
  }

  /** unicode.IsSpace */
  predicate IsSpace(r: int) {
    9 <= r <= 13 || r == 32 || r == 0x85 || r == 0xA0 || r == 0x1680 || 0x2000 <= r <= 0x200A
    || r == 0x2028 || r == 0x2029 || r == 0x202F || r == 0x205F || r == 0x3000
  }

  /** unicode.IsControl */
  predicate IsControl(r: int) {
    0 <= r <= 0x1F || 0x7F <= r <= 0x9F
  }

  predicate NoBlanks(s: Text)
    decreases |s|
  {
    s == [] || (var (r, w) := DecodeRune(s); !IsSpace(r) && !IsControl(r) && NoBlanks(s[w..]))
  }

  predicate ValidIdentifier(s: Text) {
    s != [] && NoBlanks(s)
  }

  /** strings.TrimSpace(s) == "" */
  predicate OnlySpaces(s: Text)
    decreases |s|
  {
    s == [] || (var (r, w) := DecodeRune(s); IsSpace(r) && OnlySpaces(s[w..]))
  }

  /** Joining two blank-free texts with a printable ASCII byte yields a blank-free text, even
      when the first one ends in the middle of a multi-byte character. */
  lemma {:induction false} NoBlanksJoin(a: Text, c: byte, b: Text)
    requires 33 <= c < 0x7F
    requires NoBlanks(a) && NoBlanks(b)
    ensures NoBlanks(a + [c] + b)
    decreases |a|
  {
    var s := a + [c] + b;
    if a == [] {
      assert s[0] == c && s[1..] == b;
    } else {
      hide DecodeRune;
      DecodeJoin(a, c, b);
      var w := DecodeRune(a).1;
      NoBlanksJoin(a[w..], c, b);
      assert s[w..] == a[w..] + [c] + b;
    }
  }

  /** The first rune of a text does not change when an ASCII byte and more follow the text. */
  lemma DecodeJoin(a: Text, c: byte, b: Text)
    requires a != [] && c < 0x7F
    ensures DecodeRune(a + [c] + b) == DecodeRune(a)
  {
    var s := a + [c] + b;
    assert forall i :: 0 <= i < |a| ==> s[i] == a[i];
    assert s[|a|] == c;
    forall i: nat, lo: byte, hi: byte | i <= |a| && 0x80 <= lo ensures Cont(s, i, lo, hi) <==> Cont(a, i, lo, hi) {
    }
  }

  /** Well-formed UTF-8: no byte decodes to U+FFFD on its own. */
  predicate Utf8(s: Text)
    decreases |s|
  {
    s == [] || (var w := DecodeRune(s).1; (w > 1 || s[0] < 0x80) && Utf8(s[w..]))
  }

  // U+FFFD as three bytes.
  const REPLACEMENT: Text := [0xEF, 0xBF, 0xBD]

  /** What encoding/json makes of a text: U+FFFD in the place of every ill-formed byte. */
  function Cleaned(s: Text): Text
    decreases |s|
  {
    if s == [] then []
    else
      var w := DecodeRune(s).1;
      (if w == 1 && s[0] >= 0x80 then REPLACEMENT else s[..w]) + Cleaned(s[w..])
  }

  /** Cleaning keeps exactly the well-formed texts. */
  lemma {:induction false} CleanedExactly(s: Text)
    ensures |s| <= |Cleaned(s)|
    ensures Cleaned(s) == s <==> Utf8(s)
    decreases |s|
  {
    if s != [] {
      hide DecodeRune;
      var w := DecodeRune(s).1;
      CleanedExactly(s[w..]);
      assert s == s[..w] + s[w..];
      if Cleaned(s) == s && !(w == 1 && s[0] >= 0x80) {
        assert Cleaned(s)[w..] == Cleaned(s[w..]);
      }
    }
  }

  // ------------------------------------------------------------------
  // Quoting, as %q writes a text

  const QUOTE: byte := 34
  const BACKSLASH: byte := 92

  function HexDigit(n: int): byte
    requires 0 <= n < 16
  {
    (if n < 10 then 48 + n else 87 + n) as byte
  }

  /** The letter of a control character that has one: \a \b \t \n \v \f \r. */
  function EscapeLetter(c: byte): Option<byte> {
    if c == 7 then Some(97)
    else if c == 8 then Some(98)
    else if c == 9 then Some(116)
    else if c == 10 then Some(110)
    else if c == 11 then Some(118)
    else if c == 12 then Some(102)
    else if c == 13 then Some(114)
    else None
  }

  /** One byte that is not part of a well-formed multi-byte character. */
  function QuotedByte(c: byte): Text {
    if c == QUOTE || c == BACKSLASH then [BACKSLASH, c]
    else if 32 <= c < 0x7F then [c]
    else if EscapeLetter(c).Some? then [BACKSLASH, EscapeLetter(c).value]
    else [BACKSLASH, 120, HexDigit(c as int / 16), HexDigit(c as int % 16)]
  }

  function QuotedBody(s: Text): Text
    decreases |s|
  {
    if s == [] then []
    else
      var w := DecodeRune(s).1;
      (if w == 1 then QuotedByte(s[0]) else s[..w]) + QuotedBody(s[w..])
  }

  function Quoted(s: Text): Text {
    [QUOTE] + QuotedBody(s) + [QUOTE]
  }

  predicate Printable(s: Text) {
    forall i :: 0 <= i < |s| ==> 33 <= s[i] < 0x7F
  }

  lemma {:induction false} PrintableNoBlanks(s: Text)
    requires Printable(s)
    ensures NoBlanks(s)
    decreases |s|
  {
    if s != [] {
      PrintableNoBlanks(s[1..]);
    }
  }

  lemma TaskRunIdValid(runId: Text, taskId: Text)
    requires ValidIdentifier(runId) && ValidIdentifier(taskId)
    ensures ValidIdentifier(TaskRunIdFor(runId, taskId))
  {
    var d := Decimal(|runId|);
    PrintableNoBlanks(d);
    NoBlanksJoin(runId, COLON, taskId);
    NoBlanksJoin(d, COLON, runId + [COLON] + taskId);
  }

  lemma AttemptIdValid(taskRunId: Text, n: nat)
    requires ValidIdentifier(taskRunId)
    ensures ValidIdentifier(AttemptIdFor(taskRunId, n))
  {
    hide NoBlanks;
    var word := ATTEMPT_TAG[1..];
    PrintableNoBlanks(word);
    PrintableNoBlanks(Decimal(n));
    NoBlanksJoin(word, COLON, Decimal(n));
    var tail := word + [COLON] + Decimal(n);
    NoBlanksJoin(taskRunId, COLON, tail);
    assert AttemptIdFor(taskRunId, n) == taskRunId + [COLON] + tail;
  }

  // ------------------------------------------------------------------
  // Well-formed names

  lemma {:induction false} Utf8Join(a: Text, c: byte, b: Text)
    requires c < 0x7F
    ensures Utf8(a + [c] + b) <==> Utf8(a) && Utf8(b)
    decreases |a|
  {
    var s := a + [c] + b;
    if a == [] {
      assert s[0] == c && s[1..] == b;
    } else {
      hide DecodeRune;
      DecodeJoin(a, c, b);
      var w := DecodeRune(a).1;
      Utf8Join(a[w..], c, b);
      assert s[w..] == a[w..] + [c] + b;
    }
  }

  lemma {:induction false} PrintableUtf8(s: Text)
    requires Printable(s)
    ensures Utf8(s)
    decreases |s|
  {
    if s != [] {
      PrintableUtf8(s[1..]);
    }
  }

  lemma TaskRunIdUtf8(runId: Text, taskId: Text)
    ensures Utf8(TaskRunIdFor(runId, taskId)) <==> Utf8(runId) && Utf8(taskId)
  {
    hide Utf8;
    var d := Decimal(|runId|);
    PrintableUtf8(d);
    Utf8Join(runId, COLON, taskId);
    Utf8Join(d, COLON, runId + [COLON] + taskId);
  }

  /** An attempt identifier is well-formed exactly if run and task identifier are. */
  lemma AttemptUtf8(runId: Text, taskId: Text, n: nat)
    ensures Utf8(AttemptOf(runId, taskId, n)) <==> Utf8(runId) && Utf8(taskId)
  {
    hide Utf8;
    var trid := TaskRunIdFor(runId, taskId);
    var word := ATTEMPT_TAG[1..];
    PrintableUtf8(word);
    PrintableUtf8(Decimal(n));
    Utf8Join(word, COLON, Decimal(n));
    var tail := word + [COLON] + Decimal(n);
    Utf8Join(trid, COLON, tail);
    TaskRunIdUtf8(runId, taskId);
    assert AttemptIdFor(trid, n) == trid + [COLON] + tail;
  }

  /** Names derived from valid identifiers are valid identifiers, so the engine's own messages
      and leases always pass the identifier checks. */
  lemma DerivedNamesValid(runId: Text, taskId: Text, n: nat)
    requires ValidIdentifier(runId) && ValidIdentifier(taskId)
    ensures ValidIdentifier(TaskRunIdFor(runId, taskId))
    ensures ValidIdentifier(AttemptOf(runId, taskId, n))
  {
    TaskRunIdValid(runId, taskId);
    AttemptIdValid(TaskRunIdFor(runId, taskId), n);
  }

  lemma NumberedSuffixValid(front: Text, tag: Text, n: nat)
    requires NoBlanks(front) && Printable(tag) && tag != []
    ensures NoBlanks(front + tag + [DASH] + Decimal(n))
  {
    hide NoBlanks;
    var word := tag[1..];
    PrintableNoBlanks(word);
    NoBlanksJoin(front, tag[0], word);
    assert front + tag == front + [tag[0]] + word;
    PrintableNoBlanks(Decimal(n));
    NoBlanksJoin(front + tag, DASH, Decimal(n));
  }

  lemma WorkerIdValid(namespace: Text, runId: Text, slot: nat, generation: nat)
    requires ValidIdentifier(namespace) && ValidIdentifier(runId)
    ensures ValidIdentifier(WorkerIdFor(namespace, runId, slot, generation))
  {
    NoBlanksJoin(namespace, SLASH, runId);
    var front := namespace + [SLASH] + runId;
    NumberedSuffixValid(front, SLOT_TAG, slot);
    NumberedSuffixValid(front + SLOT_TAG + [DASH] + Decimal(slot), GENERATION_TAG, generation);
  }
}
