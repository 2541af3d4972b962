/** There is a journal codec to speak of: one that meets everything asked of the JSON of a journal's lines. Records
become trees of numbers, trees become bytes, and what is read back is the record a line stands for. */
module JournalCodec {
  import opened Ids
  import opened Definition
  import opened Run
  import opened Snapshot
  import opened Journal
  import opened JournalUtf8

  datatype Tree = Tree(tag: int, children: seq<Tree>)

  // ------------------------------------------------------------------
  // Trees as bytes

  function Unary(n: nat): seq<byte> {
    if n == 0 then [0] else [1] + Unary(n - 1)
  }

  function Number(n: int): seq<byte> {
    if n < 0 then [2] + Unary(-n) else Unary(n)
  }

  function Flat(t: Tree): seq<byte> {
    Number(t.tag) + Unary(|t.children|) + FlatAll(t.children)
  }

  function FlatAll(ts: seq<Tree>): seq<byte> {
    if ts == [] then [] else Flat(ts[0]) + FlatAll(ts[1..])
  }

  predicate Digits(bytes: seq<byte>) { forall i :: 0 <= i < |bytes| ==> bytes[i] <= 2 }

  lemma {:induction false} UnaryDigits(n: nat)
    ensures Digits(Unary(n))
  {
    if n > 0 { UnaryDigits(n - 1); }
  }

  lemma {:induction false} FlatDigits(t: Tree)
    ensures Digits(Flat(t))
  {
    UnaryDigits(if t.tag < 0 then -t.tag else t.tag);
    UnaryDigits(|t.children|);
    FlatAllDigits(t.children);
  }

  lemma {:induction false} FlatAllDigits(ts: seq<Tree>)
    ensures Digits(FlatAll(ts))
  {
    if ts != [] {
      FlatDigits(ts[0]);
      FlatAllDigits(ts[1..]);
    }
  }

  lemma {:induction false} UnaryEnds(m: nat, n: nat, s: seq<byte>, t: seq<byte>)
    requires Unary(m) + s == Unary(n) + t
    ensures m == n && s == t
  {
    assert (Unary(m) + s)[0] == (Unary(n) + t)[0];
    assert (Unary(m) + s)[1..] == Unary(m)[1..] + s && (Unary(n) + t)[1..] == Unary(n)[1..] + t;
    if m > 0 && n > 0 {
      assert Unary(m)[1..] == Unary(m - 1) && Unary(n)[1..] == Unary(n - 1);
      UnaryEnds(m - 1, n - 1, s, t);
    } else {
      assert Unary(m)[0] == Unary(n)[0] && Unary(0)[1..] == [];
      assert [] + s == s && [] + t == t;
    }
  }

  lemma NumberEnds(m: int, n: int, s: seq<byte>, t: seq<byte>)
    requires Number(m) + s == Number(n) + t
    ensures m == n && s == t
  {
    NumberStarts(m, s);
    NumberStarts(n, t);
    hide Unary;
    if m < 0 && n < 0 {
      UnaryEnds(-m, -n, s, t);
    } else {
      UnaryEnds(m, n, s, t);
    }
  }

  /** A negative number starts with a byte of its own. */
  lemma NumberStarts(n: int, s: seq<byte>)
    ensures |Number(n)| > 0 && ((Number(n) + s)[0] == 2 <==> n < 0)
    ensures n < 0 ==> (Number(n) + s)[1..] == Unary(-n) + s
  {
    if n < 0 { assert (Number(n) + s)[1..] == Unary(-n) + s; }
  }

  /** A tree ends where its bytes say, and no two trees have the same bytes. */
  lemma {:induction false} FlatEnds(a: Tree, b: Tree, s: seq<byte>, t: seq<byte>)
    requires Flat(a) + s == Flat(b) + t
    ensures a == b && s == t
    decreases a
  {
    var p, q := Unary(|a.children|) + (FlatAll(a.children) + s), Unary(|b.children|) + (FlatAll(b.children) + t);
    assert Flat(a) + s == Number(a.tag) + p && Flat(b) + t == Number(b.tag) + q;
    NumberEnds(a.tag, b.tag, p, q);
    UnaryEnds(|a.children|, |b.children|, FlatAll(a.children) + s, FlatAll(b.children) + t);
    FlatAllEnds(a.children, b.children, s, t);
  }

  lemma {:induction false} FlatAllEnds(xs: seq<Tree>, ys: seq<Tree>, s: seq<byte>, t: seq<byte>)
    requires |xs| == |ys| && FlatAll(xs) + s == FlatAll(ys) + t
    ensures xs == ys && s == t
    decreases xs
  {
    if xs == [] {
      assert [] + s == s && [] + t == t;
    } else {
      var p, q := FlatAll(xs[1..]) + s, FlatAll(ys[1..]) + t;
      FirstOf(xs, s);
      FirstOf(ys, t);
      hide Flat, FlatAll;
      FlatEnds(xs[0], ys[0], p, q);
      FlatAllEnds(xs[1..], ys[1..], s, t);
      assert xs == [xs[0]] + xs[1..] && ys == [ys[0]] + ys[1..];
    }
  }

  lemma FirstOf(ts: seq<Tree>, s: seq<byte>)
    requires ts != []
    ensures FlatAll(ts) + s == Flat(ts[0]) + (FlatAll(ts[1..]) + s)
  {
    hide Flat;
  }

  lemma FlatInjective(a: Tree, b: Tree)
    requires Flat(a) == Flat(b)
    ensures a == b
  {
    assert Flat(a) + [] == Flat(a) && Flat(b) + [] == Flat(b);
    FlatEnds(a, b, [], []);
  }

  // ------------------------------------------------------------------
  // Records as trees

  function Num(n: int): Tree { Tree(n, []) }

  function Str(x: Text): Tree { Tree(0, seq(|x|, i requires 0 <= i < |x| => Num(x[i] as int))) }

  function Flag(b: bool): Tree { Num(if b then 1 else 0) }

  lemma StrSame(x: Text, y: Text)
    requires Str(x) == Str(y)
    ensures x == y
  {
    assert |Str(x).children| == |x| && |Str(y).children| == |y|;
    forall i | 0 <= i < |x| ensures x[i] == y[i] {
      assert Str(x).children[i].tag == x[i] as int && Str(y).children[i].tag == y[i] as int;
    }
  }

  lemma StrsSame()
    ensures forall x, y :: Str(x) == Str(y) ==> x == y
  {
    forall x, y | Str(x) == Str(y) ensures x == y { StrSame(x, y); }
  }

  function OfTexts(xs: seq<Text>): Tree { Tree(0, seq(|xs|, i requires 0 <= i < |xs| => Str(xs[i]))) }

  lemma TextsSame(xs: seq<Text>, ys: seq<Text>)
    requires OfTexts(xs) == OfTexts(ys)
    ensures xs == ys
  {
    hide Str;
    StrsSame();
    assert |OfTexts(xs).children| == |xs| && |OfTexts(ys).children| == |ys|;
    forall i | 0 <= i < |xs| ensures xs[i] == ys[i] {
      assert OfTexts(xs).children[i] == Str(xs[i]) && OfTexts(ys).children[i] == Str(ys[i]);
    }
  }

  function OfTask(t: TaskDefinition): Tree {
    Tree(0, [Str(t.id), Str(t.name), OfTexts(t.dependencies), Str(t.handler), Str(t.input),
             Num(t.retry.maxAttempts as int), Num(t.retry.initialBackoff as int), Num(t.retry.maxBackoff as int)])
  }

  lemma TaskSame(t: TaskDefinition, u: TaskDefinition)
    requires OfTask(t) == OfTask(u)
    ensures t == u
  {
    hide Str, OfTexts;
    StrsSame();
    assert forall i :: 0 <= i < 8 ==> OfTask(t).children[i] == OfTask(u).children[i];
    TextsSame(t.dependencies, u.dependencies);
  }

  function OfDefinition(d: WorkflowDefinition): Tree {
    Tree(0, [Str(d.id)] + seq(|d.tasks|, i requires 0 <= i < |d.tasks| => OfTask(d.tasks[i])))
  }

  lemma DefinitionSame(d: WorkflowDefinition, e: WorkflowDefinition)
    requires OfDefinition(d) == OfDefinition(e)
    ensures d == e
  {
    hide Str, OfTask;
    StrsSame();
    var p, q := OfDefinition(d).children, OfDefinition(e).children;
    assert p[0] == q[0] && |p| == |d.tasks| + 1 && |q| == |e.tasks| + 1;
    forall i | 0 <= i < |d.tasks| ensures d.tasks[i] == e.tasks[i] {
      assert p[i + 1] == q[i + 1];
      TaskSame(d.tasks[i], e.tasks[i]);
    }
  }

  function OfStatus(s: TaskStatus): Tree {
    Num(match s
        case Pending => 0 case Ready => 1 case Running => 2 case RetryWaiting => 3 case Succeeded => 4 case Failed => 5
        case Canceled => 6)
  }

  function OfLease(lease: Option<Lease>): Tree {
    match lease
    case None => Num(0)
    case Some(l) => Tree(1, [Str(l.workerId), Str(l.taskRunId), Str(l.attemptId), Num(l.expiresAt)])
  }

  function OfTaskRun(t: TaskRun): Tree {
    Tree(0, [Str(t.taskId), Str(t.taskRunId), OfStatus(t.status), Str(t.output), Str(t.error), Num(t.attemptCount),
             Str(t.currentAttemptId), Num(t.nextAttemptAt), OfLease(t.lease), Num(t.updatedAt), Num(t.startedAt),
             Num(t.finishedAt)])
  }

  lemma LeaseSame(l: Option<Lease>, m: Option<Lease>)
    requires OfLease(l) == OfLease(m)
    ensures l == m
  {
    hide Str;
    StrsSame();
    if l.Some? { assert forall i :: 0 <= i < 4 ==> OfLease(l).children[i] == OfLease(m).children[i]; }
  }

  lemma TaskRunSame(t: TaskRun, u: TaskRun)
    requires OfTaskRun(t) == OfTaskRun(u)
    ensures t == u
  {
    hide Str, OfLease;
    StrsSame();
    assert forall i :: 0 <= i < 12 ==> OfTaskRun(t).children[i] == OfTaskRun(u).children[i];
    LeaseSame(t.lease, u.lease);
  }

  function OfHeartbeat(h: Heartbeat): Tree { Tree(0, [Str(h.workerId), Num(h.lastHeartbeatAt)]) }

  lemma HeartbeatSame(h: Heartbeat, k: Heartbeat)
    requires OfHeartbeat(h) == OfHeartbeat(k)
    ensures h == k
  {
    hide Str;
    StrsSame();
    assert forall i :: 0 <= i < 2 ==> OfHeartbeat(h).children[i] == OfHeartbeat(k).children[i];
  }

  function OfRun(run: RunSnapshot): Tree {
    Tree(0, [Str(run.id), Str(run.workflowId), Num(run.version),
             Num(match run.status
                 case RunPending => 0 case RunRunning => 1 case RunSucceeded => 2 case RunFailed => 3
                 case RunCanceled => 4),
             Num(run.createdAt), Num(run.updatedAt),
             Tree(0, seq(|run.tasks|, i requires 0 <= i < |run.tasks| => OfTaskRun(run.tasks[i]))),
             Tree(0, seq(|run.workers|, i requires 0 <= i < |run.workers| => OfHeartbeat(run.workers[i])))])
  }

  lemma RunSame(a: RunSnapshot, b: RunSnapshot)
    requires OfRun(a) == OfRun(b)
    ensures a == b
  {
    hide Str, OfTaskRun, OfHeartbeat;
    StrsSame();
    var p, q := OfRun(a).children, OfRun(b).children;
    assert forall i :: 0 <= i < 8 ==> p[i] == q[i];
    assert |p[6].children| == |a.tasks| && |q[6].children| == |b.tasks|;
    assert |p[7].children| == |a.workers| && |q[7].children| == |b.workers|;
    forall i | 0 <= i < |a.tasks| ensures a.tasks[i] == b.tasks[i] {
      assert p[6].children[i] == q[6].children[i];
      TaskRunSame(a.tasks[i], b.tasks[i]);
    }
    forall i | 0 <= i < |a.workers| ensures a.workers[i] == b.workers[i] {
      assert p[7].children[i] == q[7].children[i];
      HeartbeatSame(a.workers[i], b.workers[i]);
    }
  }

  function OfUser(u: User): Tree { Tree(0, [Str(u.id), Str(u.displayName), Flag(u.disabled), Num(u.createdAt)]) }

  function OfProject(p: Project): Tree {
    Tree(0, [Str(p.id), Str(p.name), Str(p.createdBy), Num(p.createdAt), Num(p.updatedAt)])
  }

  function OfRole(role: Role): Tree {
    match role
    case Member => Num(0)
    case Operator => Num(1)
    case Admin => Num(2)
    case OtherRole(name) => Tree(3, [Str(name)])
  }

  function OfMembership(m: Membership): Tree {
    Tree(0, [Str(m.projectId), Str(m.userId), OfRole(m.role), Num(m.createdAt), Num(m.updatedAt)])
  }

  function OfOwnership(o: Ownership): Tree {
    Tree(0, [Str(o.workflowId), Str(o.projectId), Str(o.ownerUserId), Num(o.createdAt)])
  }

  lemma UserSame(u: User, v: User)
    requires OfUser(u) == OfUser(v)
    ensures u == v
  {
    hide Str;
    StrsSame();
    assert forall i :: 0 <= i < 4 ==> OfUser(u).children[i] == OfUser(v).children[i];
  }

  lemma ProjectSame(p: Project, q: Project)
    requires OfProject(p) == OfProject(q)
    ensures p == q
  {
    hide Str;
    StrsSame();
    assert forall i :: 0 <= i < 5 ==> OfProject(p).children[i] == OfProject(q).children[i];
  }

  lemma RoleSame(r: Role, s: Role)
    requires OfRole(r) == OfRole(s)
    ensures r == s
  {
    hide Str;
    StrsSame();
    if r.OtherRole? { assert OfRole(r).children[0] == OfRole(s).children[0]; }
  }

  lemma MembershipSame(m: Membership, n: Membership)
    requires OfMembership(m) == OfMembership(n)
    ensures m == n
  {
    hide Str, OfRole;
    StrsSame();
    assert forall i :: 0 <= i < 5 ==> OfMembership(m).children[i] == OfMembership(n).children[i];
    RoleSame(m.role, n.role);
  }

  lemma OwnershipSame(o: Ownership, p: Ownership)
    requires OfOwnership(o) == OfOwnership(p)
    ensures o == p
  {
    hide Str;
    StrsSame();
    assert forall i :: 0 <= i < 4 ==> OfOwnership(o).children[i] == OfOwnership(p).children[i];
  }

  ghost function Values(m: map<Text, Text>): seq<Text> {
    var keys := SortedSeq(m.Keys);
    seq(|keys|, i requires 0 <= i < |keys| => m[keys[i]])
  }

  lemma MapSame(m: map<Text, Text>, n: map<Text, Text>)
    requires SortedSeq(m.Keys) == SortedSeq(n.Keys) && Values(m) == Values(n)
    ensures m == n
  {
    hide SortedSeq;
    assert m.Keys == n.Keys by {
      assert forall k :: k in m.Keys <==> k in SortedSeq(m.Keys);
      assert forall k :: k in n.Keys <==> k in SortedSeq(n.Keys);
    }
    forall k | k in m ensures m[k] == n[k] {
      var i :| 0 <= i < |SortedSeq(m.Keys)| && SortedSeq(m.Keys)[i] == k;
      assert Values(m)[i] == m[k] && Values(n)[i] == n[k];
    }
  }

  ghost function OfEvent(e: AuditEvent): Tree {
    Tree(0, [Str(e.id), Str(e.projectId), Str(e.actorUserId), Str(e.action), Str(e.resourceType), Str(e.resourceId),
             Num(e.occurredAt), OfTexts(SortedSeq(e.metadata.Keys)), OfTexts(Values(e.metadata))])
  }

  lemma EventSame(e: AuditEvent, f: AuditEvent)
    requires OfEvent(e) == OfEvent(f)
    ensures e == f
  {
    hide Str, OfTexts, SortedSeq, Values;
    StrsSame();
    assert forall i :: 0 <= i < 9 ==> OfEvent(e).children[i] == OfEvent(f).children[i];
    TextsSame(SortedSeq(e.metadata.Keys), SortedSeq(f.metadata.Keys));
    TextsSame(Values(e.metadata), Values(f.metadata));
    MapSame(e.metadata, f.metadata);
  }

  ghost function OfRecord(r: Record): Tree {
    match r
    case WorkflowSaved(d) => Tree(0, [OfDefinition(d)])
    case RunCreated(run) => Tree(1, [OfRun(run)])
    case RunSaved(run) => Tree(2, [OfRun(run)])
    case ProjectCreated(u, p, m, e) => Tree(3, [OfUser(u), OfProject(p), OfMembership(m), OfEvent(e)])
    case ProjectSaved(p, e) => Tree(4, [OfProject(p), OfEvent(e)])
    case MembershipPut(u, m, e) => Tree(5, [OfUser(u), OfMembership(m), OfEvent(e)])
    case OwnedWorkflowSaved(d, o) => Tree(6, [OfDefinition(d), OfOwnership(o)])
  }

  lemma RecordSame(r: Record, s: Record)
    requires OfRecord(r) == OfRecord(s)
    ensures r == s
  {
    hide OfDefinition, OfRun, OfUser, OfProject, OfMembership, OfOwnership, OfEvent;
    var p, q := OfRecord(r).children, OfRecord(s).children;
    assert |p| == |q| && forall i :: 0 <= i < |p| ==> p[i] == q[i];
    match r
    case WorkflowSaved(d) => DefinitionSame(d, s.definition);
    case RunCreated(run) => RunSame(run, s.run);
    case RunSaved(run) => RunSame(run, s.run);
    case ProjectCreated(u, o, m, e) =>
      UserSame(u, s.user);
      ProjectSame(o, s.project);
      MembershipSame(m, s.membership);
      EventSame(e, s.event);
    case ProjectSaved(o, e) =>
      ProjectSame(o, s.project);
      EventSame(e, s.event);
    case MembershipPut(u, m, e) =>
      UserSame(u, s.user);
      MembershipSame(m, s.membership);
      EventSame(e, s.event);
    case OwnedWorkflowSaved(d, o) =>
      DefinitionSame(d, s.definition);
      OwnershipSame(o, s.ownership);
  }

  // ------------------------------------------------------------------
  // The codec

  /** The bytes of a record, the texts of a workflow cleaned first. */
  ghost function Encoded(r: Record): seq<byte> {
    Flat(OfRecord(if r.WorkflowSaved? then WorkflowSaved(CleanedDefinition(r.definition)) else r))
  }

  ghost predicate StandsFor(line: seq<byte>, r: Record) {
    RecordUtf8(r) && Flat(OfRecord(r)) == line
  }

  ghost function Decoded(line: seq<byte>): Option<Record> {
    if exists r :: StandsFor(line, r) then
      var r :| StandsFor(line, r);
      Some(r)
    else None
  }

  lemma DecodedExactly(r: Record)
    requires RecordUtf8(r)
    ensures Decoded(Flat(OfRecord(r))) == Some(r)
  {
    hide RecordUtf8, Flat, OfRecord;
    var line := Flat(OfRecord(r));
    assert StandsFor(line, r);
    var s := Decoded(line).value;
    FlatInjective(OfRecord(r), OfRecord(s));
    RecordSame(r, s);
  }

  lemma {:induction false} CleanedUtf8(s: Text)
    ensures Utf8(Cleaned(s))
    decreases |s|
  {
    if s != [] {
      var w := DecodeRune(s).1;
      CleanedUtf8(s[w..]);
    }
  }

  lemma CleanedAllUtf8(xs: seq<Text>)
    ensures AllUtf8(CleanedAll(xs)) && (AllUtf8(xs) ==> CleanedAll(xs) == xs)
  {
    hide Utf8, Cleaned;
    forall i | 0 <= i < |xs| ensures Utf8(Cleaned(xs[i])) && (Cleaned(xs[i]) == xs[i] <==> Utf8(xs[i])) {
      CleanedUtf8(xs[i]);
      CleanedExactly(xs[i]);
    }
  }

  /** A cleaned definition is well-formed, and a well-formed one is left alone. */
  lemma CleanedDefinitionUtf8(d: WorkflowDefinition)
    ensures DefinitionUtf8(CleanedDefinition(d)) && (DefinitionUtf8(d) ==> CleanedDefinition(d) == d)
  {
    hide Utf8, Cleaned, CleanedAll, AllUtf8;
    forall x ensures Utf8(Cleaned(x)) && (Cleaned(x) == x <==> Utf8(x)) {
      CleanedUtf8(x);
      CleanedExactly(x);
    }
    forall i | 0 <= i < |d.tasks| {
      CleanedAllUtf8(d.tasks[i].dependencies);
    }
  }

  /** Some codec writes and reads lines as the journal's does. */
  lemma CodecExists() returns (codec: Codec)
    ensures CodecOk(codec) && Replacing(codec)
  {
    hide Encoded, Decoded, RecordUtf8, CleanedDefinition;
    codec := Codec(r => Encoded(r), line => Decoded(line));
    forall r ensures NEWLINE !in Encoded(r) && (RecordUtf8(r) ==> Decoded(Encoded(r)) == Some(r)) {
      EncodedRead(r);
    }
    forall line | Decoded(line).Some? ensures RecordUtf8(Decoded(line).value) { DecodedUtf8(line); }
    forall d ensures Decoded(Encoded(WorkflowSaved(d))) == Some(WorkflowSaved(CleanedDefinition(d))) {
      WorkflowRead(d);
    }
  }

  lemma EncodedRead(r: Record)
    ensures NEWLINE !in Encoded(r) && (RecordUtf8(r) ==> Decoded(Encoded(r)) == Some(r))
  {
    hide Flat, OfRecord, CleanedDefinition, DefinitionUtf8, Decoded;
    var cleaned := if r.WorkflowSaved? then WorkflowSaved(CleanedDefinition(r.definition)) else r;
    FlatDigits(OfRecord(cleaned));
    if RecordUtf8(r) {
      if r.WorkflowSaved? { CleanedDefinitionUtf8(r.definition); }
      DecodedExactly(r);
    }
  }

  lemma DecodedUtf8(line: seq<byte>)
    requires Decoded(line).Some?
    ensures RecordUtf8(Decoded(line).value)
  {
    hide RecordUtf8;
  }

  lemma WorkflowRead(d: WorkflowDefinition)
    ensures Decoded(Encoded(WorkflowSaved(d))) == Some(WorkflowSaved(CleanedDefinition(d)))
  {
    hide Flat, OfRecord, CleanedDefinition, DefinitionUtf8, Decoded;
    CleanedDefinitionUtf8(d);
    DecodedExactly(WorkflowSaved(CleanedDefinition(d)));
  }
}
