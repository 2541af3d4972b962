/** Replay rebuilds what the live store held, and a journal cut anywhere yields a prefix of it. */
module JournalProofs {
  import opened Ids
  import opened Graph
  import opened Snapshot
  import opened Journal

  // ------------------------------------------------------------------
  // Every record the store writes is one replay accepts

  ghost predicate UsersOk(users: map<Text, User>) {
    forall id :: id in users ==> users[id].id == id && UserValid(users[id])
  }

  ghost predicate MembersOk(members: map<Text, Membership>, projectId: Text) {
    forall u :: u in members ==> members[u].userId == u && members[u].projectId == projectId
                                 && MembershipValid(members[u])
  }

  ghost predicate StoreOk(store: Store) {
    UsersOk(store.users) && forall p :: p in store.memberships ==> MembersOk(store.memberships[p], p)
  }

  lemma VersionIrrelevant(run: RunSnapshot, version: nat)
    ensures SnapshotValid(run.(version := version)) <==> SnapshotValid(run)
    ensures forall d :: Restore(run.(version := version), d).Ok? <==> Restore(run, d).Ok?
  {
    assert HeaderValid(run.(version := version)) <==> HeaderValid(run);
  }

  lemma RunReplays(store: Store, m: Mutation)
    requires m.CreateRun? || m.SaveRun?
    requires Planned(store, m).Ok? && Planned(store, m).value.Some?
    ensures var record := Planned(store, m).value.value;
            Replayed(store, record) == Ok(Applied(store, record))
  {
    hide SnapshotValid, Restore;
    VersionIrrelevant(m.snapshot, m.snapshot.version + 1);
  }

  lemma KnownUserValid(store: Store, user: User)
    requires StoreOk(store) && UserValid(user)
    ensures UserValid(KnownUser(store, user)) && KnownUser(store, user).id == user.id
  {
  }

  lemma KnownMembershipValid(store: Store, m: Membership)
    requires StoreOk(store) && MembershipValid(m)
    requires IsMember(store, m.projectId, m.userId) ==>
               store.memberships[m.projectId][m.userId].updatedAt <= m.updatedAt
    ensures MembershipValid(KnownMembership(store, m))
    ensures KnownMembership(store, m).userId == m.userId && KnownMembership(store, m).projectId == m.projectId
  {
    if IsMember(store, m.projectId, m.userId) {
      assert MembersOk(store.memberships[m.projectId], m.projectId);
    }
  }

  /** What the live store writes, replay accepts, with the same effect. */
  lemma PlannedReplays(store: Store, m: Mutation)
    requires StoreOk(store) && Planned(store, m).Ok? && Planned(store, m).value.Some?
    ensures var record := Planned(store, m).value.value;
            Replayed(store, record) == Ok(Applied(store, record))
  {
    hide UserValid, ProjectValid, MembershipValid, EventValid, OwnershipValid, ValidDefinition, SnapshotValid, Restore,
         Applied;
    match m
    case CreateRun(_) => RunReplays(store, m);
    case SaveRun(_) => RunReplays(store, m);
    case CreateProject(user, _, _, _) => KnownUserValid(store, user);
    case PutMembership(user, membership, _) =>
      KnownUserValid(store, user);
      KnownMembershipValid(store, membership);
    case _ =>
  }

  lemma WithUserOk(store: Store, user: User)
    requires StoreOk(store) && UserValid(user)
    ensures StoreOk(WithUser(store, user))
  {
  }

  lemma WithMembershipOk(store: Store, m: Membership)
    requires StoreOk(store) && MembershipValid(m)
    ensures StoreOk(WithMembership(store, m))
  {
    hide MembershipValid, UsersOk;
    var members := if m.projectId in store.memberships then store.memberships[m.projectId] else map[];
    assert MembersOk(members, m.projectId);
    assert MembersOk(members[m.userId := m], m.projectId);
  }

  lemma CreationKeepsOk(store: Store, user: User, project: Project, membership: Membership)
    requires StoreOk(store) && UserValid(user) && MembershipValid(membership)
    ensures var s := WithUser(store, KnownUser(store, user));
            StoreOk(WithMembership(s.(projects := s.projects[project.id := project]), membership))
  {
    hide UserValid, MembershipValid, UsersOk, MembersOk, WithUser, WithMembership, KnownUser;
    KnownUserValid(store, user);
    WithUserOk(store, KnownUser(store, user));
    var s := WithUser(store, KnownUser(store, user));
    WithMembershipOk(s.(projects := s.projects[project.id := project]), membership);
  }

  lemma PutKeepsOk(store: Store, user: User, membership: Membership)
    requires StoreOk(store) && UserValid(user) && MembershipValid(membership)
    requires IsMember(store, membership.projectId, membership.userId) ==>
               store.memberships[membership.projectId][membership.userId].updatedAt <= membership.updatedAt
    ensures StoreOk(WithMembership(WithUser(store, KnownUser(store, user)), KnownMembership(store, membership)))
  {
    hide UserValid, MembershipValid, UsersOk, MembersOk, WithUser, WithMembership, KnownUser, KnownMembership;
    KnownUserValid(store, user);
    KnownMembershipValid(store, membership);
    WithUserOk(store, KnownUser(store, user));
    WithMembershipOk(WithUser(store, KnownUser(store, user)), KnownMembership(store, membership));
  }

  lemma WithEventOk(store: Store, e: AuditEvent)
    requires StoreOk(store)
    ensures StoreOk(WithEvent(store, e))
  {
    hide UsersOk, MembersOk;
  }

  lemma PlannedKeepsOk(store: Store, m: Mutation)
    requires StoreOk(store) && Planned(store, m).Ok? && Planned(store, m).value.Some?
    ensures StoreOk(Applied(store, Planned(store, m).value.value))
  {
    hide UserValid, ProjectValid, MembershipValid, EventValid, OwnershipValid, ValidDefinition, SnapshotValid, Restore,
         WithUser, WithMembership, WithEvent, KnownUser, KnownMembership, UsersOk, MembersOk;
    match m
    case CreateProject(user, project, membership, event) =>
      CreationKeepsOk(store, user, project, membership);
      var s := WithUser(store, KnownUser(store, user));
      WithEventOk(WithMembership(s.(projects := s.projects[project.id := project]), membership), event);
    case PutMembership(user, membership, event) =>
      PutKeepsOk(store, user, membership);
      WithEventOk(WithMembership(WithUser(store, KnownUser(store, user)), KnownMembership(store, membership)), event);
    case SaveProject(project, event) =>
      WithEventOk(store.(projects := store.projects[project.id := project]), event);
    case _ =>
  }

  // ------------------------------------------------------------------
  // The live store

  // The tables and the records written so far.
  datatype Live = Live(store: Store, records: seq<Record>)

  ghost function Performed(live: Live, m: Mutation): Live {
    match Planned(live.store, m)
    case Ok(Some(record)) => Live(Applied(live.store, record), live.records + [record])
    case _ => live
  }

  ghost function LiveAfter(ms: seq<Mutation>): Live {
    if ms == [] then Live(EMPTY_STORE, []) else Performed(LiveAfter(ms[..|ms| - 1]), ms[|ms| - 1])
  }

  /** Replaying the records one after the other never fails. */
  ghost predicate Replayable(records: seq<Record>) {
    forall i :: 0 <= i < |records| ==> ReplaysAt(records, i)
  }

  ghost predicate ReplaysAt(records: seq<Record>, i: nat)
    requires i < |records|
  {
    Replayed(Tables(records[..i]), records[i]) == Ok(Tables(records[..i + 1]))
  }

  lemma ReplayableAppend(records: seq<Record>, record: Record)
    requires Replayable(records) && Replayed(Tables(records), record) == Ok(Applied(Tables(records), record))
    ensures Replayable(records + [record]) && Tables(records + [record]) == Applied(Tables(records), record)
  {
    hide Replayed, Applied;
    var all := records + [record];
    assert all[..|records|] == records && all[..|records| + 1] == all;
    forall i | 0 <= i < |all| ensures ReplaysAt(all, i) {
      if i < |records| {
        assert ReplaysAt(records, i);
        assert all[..i] == records[..i] && all[..i + 1] == records[..i + 1];
      }
    }
  }

  ghost predicate LiveOk(live: Live) {
    StoreOk(live.store) && live.store == Tables(live.records) && Replayable(live.records)
  }

  lemma PerformedOk(live: Live, m: Mutation)
    requires LiveOk(live)
    ensures LiveOk(Performed(live, m)) && live.records <= Performed(live, m).records
  {
    hide StoreOk, Planned, Replayed, Applied, Tables, Replayable;
    if Planned(live.store, m).Ok? && Planned(live.store, m).value.Some? {
      PlannedReplays(live.store, m);
      PlannedKeepsOk(live.store, m);
      ReplayableAppend(live.records, Planned(live.store, m).value.value);
    }
  }

  lemma {:induction false} LiveAfterOk(ms: seq<Mutation>)
    ensures LiveOk(LiveAfter(ms))
  {
    if ms != [] {
      LiveAfterOk(ms[..|ms| - 1]);
      PerformedOk(LiveAfter(ms[..|ms| - 1]), ms[|ms| - 1]);
    }
  }

  // ------------------------------------------------------------------
  // Cutting the file

  /** Where the line of record i starts. */
  function Offset(codec: Codec, records: seq<Record>, i: nat): nat
    requires i <= |records|
  {
    |File(codec, records[..i])|
  }

  lemma {:induction false} FilePrefix(codec: Codec, records: seq<Record>, i: nat)
    requires i <= |records|
    ensures File(codec, records[..i]) <= File(codec, records)
    decreases |records|
  {
    if i < |records| {
      FilePrefix(codec, records[..|records| - 1], i);
      assert records[..|records| - 1][..i] == records[..i];
    } else {
      assert records[..i] == records;
    }
  }

  /** The bytes between two offsets are that record's line. */
  lemma LineAt(codec: Codec, records: seq<Record>, i: nat)
    requires i < |records|
    ensures Offset(codec, records, i + 1) == Offset(codec, records, i) +
              |Line(codec, records[i])| <= |File(codec, records)|
    ensures File(codec, records)[Offset(codec, records, i)..Offset(codec, records, i + 1)] == Line(codec, records[i])
  {
    FilePrefix(codec, records, i + 1);
    assert records[..i + 1][..i] == records[..i];
    var whole, part, front := File(codec, records), File(codec, records[..i + 1]), File(codec, records[..i]);
    assert part == front + Line(codec, records[i]);
    assert whole[|front|..|part|] == part[|front|..];
  }

  /** How many records a file cut after n bytes still holds in full. */
  function Complete(codec: Codec, records: seq<Record>, n: nat): (k: nat)
    ensures k <= |records| && |File(codec, records[..k])| <= n
    ensures k < |records| ==> n < |File(codec, records[..k + 1])|
    decreases |records|
  {
    if records == [] || |File(codec, records)| <= n then
      assert records[..|records|] == records;
      |records|
    else
      var k := Complete(codec, records[..|records| - 1], n);
      CompletePrefix(codec, records, n, k);
      k
  }

  lemma CompletePrefix(codec: Codec, records: seq<Record>, n: nat, k: nat)
    requires records != [] && n < |File(codec, records)| && k < |records|
    requires var front := records[..|records| - 1];
             && |File(codec, front[..k])| <= n && (k < |front| ==> n < |File(codec, front[..k + 1])|)
    ensures |File(codec, records[..k])| <= n && n < |File(codec, records[..k + 1])|
  {
    hide File;
    FrontSlice(records, k);
    if k + 1 < |records| {
      FrontSlice(records, k + 1);
    } else {
      assert records[..k + 1] == records;
    }
  }

  lemma FrontSlice(records: seq<Record>, k: nat)
    requires k < |records|
    ensures records[..|records| - 1][..k] == records[..k]
  {
  }

  lemma {:induction false} NewlineEnds(line: seq<byte>, rest: seq<byte>)
    requires NEWLINE !in line
    ensures NewlineAt(line + [NEWLINE] + rest) == |line|
  {
    if line != [] {
      assert line[0] in line;
      NewlineEnds(line[1..], rest);
      assert (line + [NEWLINE] + rest)[1..] == line[1..] + [NEWLINE] + rest;
    }
  }

  lemma NoNewline(bytes: seq<byte>)
    requires NEWLINE !in bytes
    ensures NewlineAt(bytes) == |bytes|
  {
    assert forall i :: 0 <= i < |bytes| ==> bytes[i] in bytes;
  }

  /** Replay of the whole is replay of the rest, with the bytes already read added. */
  ghost predicate Resumes(whole: Result<Opened, StoreError>, rest: Result<Opened, StoreError>, committed: nat) {
    whole == if rest.Ok? then Ok(Opened(rest.value.store, committed + rest.value.committed)) else Err(rest.error)
  }

  lemma ReplayUnfolds(codec: Codec, store: Store, bytes: seq<byte>)
    ensures var k := NewlineAt(bytes);
            var whole := ReplayBytes(codec, store, bytes);
            if k == |bytes| then whole == Ok(Opened(store, 0))
            else if codec.decode(bytes[..k]).None? then whole == Err(Undecodable)
            else
              var r := Replayed(store, codec.decode(bytes[..k]).value);
              if r.Err? then whole == Err(r.error)
                else Resumes(whole, ReplayBytes(codec, r.value, bytes[k + 1..]), k + 1)
  {
    hide Replayed, NewlineAt;
  }

  lemma CodecLine(codec: Codec, record: Record)
    requires CodecOk(codec)
    ensures NEWLINE !in codec.encode(record)
    ensures RecordUtf8(record) ==> codec.decode(codec.encode(record)) == Some(record)
  {
  }

  /** One complete line at the front. */
  lemma ReplayLine(codec: Codec, store: Store, next: Store, record: Record, rest: seq<byte>)
    requires CodecOk(codec) && RecordUtf8(record) && Replayed(store, record) == Ok(next)
    ensures Resumes(ReplayBytes(codec, store, Line(codec, record) + rest), ReplayBytes(codec, next, rest),
                    |Line(codec, record)|)
  {
    hide Replayed, CodecOk, RecordUtf8, NewlineAt, ReplayBytes, Resumes;
    var line := codec.encode(record);
    var bytes := Line(codec, record) + rest;
    CodecLine(codec, record);
    assert bytes == line + [NEWLINE] + rest;
    NewlineEnds(line, rest);
    assert bytes[..|line|] == line && bytes[|line| + 1..] == rest;
    ReplayUnfolds(codec, store, bytes);
  }

  lemma Slices(s: seq<byte>, a: nat, b: nat, c: nat)
    requires a <= b <= c <= |s|
    ensures s[a..c] == s[a..b] + s[b..c]
  {
  }

  /** What follows the last complete record holds no newline. */
  lemma Leftover(codec: Codec, records: seq<Record>, n: nat)
    requires CodecOk(codec) && n <= |File(codec, records)|
    ensures var from := Offset(codec, records, Complete(codec, records, n));
            from <= n && NEWLINE !in File(codec, records)[from..n]
  {
    hide File, CodecOk;
    var k := Complete(codec, records, n);
    var file, from := File(codec, records), Offset(codec, records, k);
    if k < |records| {
      LineAt(codec, records, k);
      CodecLine(codec, records[k]);
      PartOfLine(file, from, Offset(codec, records, k + 1), n, codec.encode(records[k]));
    } else {
      assert records[..k] == records;
    }
  }

  lemma PartOfLine(file: seq<byte>, from: nat, to: nat, n: nat, line: seq<byte>)
    requires from <= n < to <= |file| && file[from..to] == line + [NEWLINE] && NEWLINE !in line
    ensures NEWLINE !in file[from..n]
  {
    assert file[from..n] == file[from..to][..n - from];
    assert |line| == to - from - 1;
    forall i | 0 <= i < n - from ensures file[from..n][i] != NEWLINE {
      assert file[from..n][i] == line[i] && line[i] in line;
    }
  }

  /** Replay from record i of a file cut after n bytes stops after the last complete record. */
  lemma {:induction false} ReplayFrom(codec: Codec, records: seq<Record>, n: nat, i: nat)
    requires CodecOk(codec) && Replayable(records) && n <= |File(codec, records)|
    requires i <= Complete(codec, records, n) && RecordsUtf8(records[..Complete(codec, records, n)])
    ensures var k := Complete(codec, records, n);
            var from := Offset(codec, records, i);
            && from <= Offset(codec, records, k) <= n
            && ReplayBytes(codec, Tables(records[..i]), File(codec, records)[from..n])
               == Ok(Opened(Tables(records[..k]), Offset(codec, records, k) - from))
    decreases |records| - i
  {
    hide Replayed, Tables, File, CodecOk, ReplayBytes, RecordUtf8;
    var k := Complete(codec, records, n);
    var file, from := File(codec, records), Offset(codec, records, i);
    if i < k {
      LineAt(codec, records, i);
      ReplayFrom(codec, records, n, i + 1);
      Slices(file, from, Offset(codec, records, i + 1), n);
      assert ReplaysAt(records, i) && RecordUtf8(records[..k][i]);
      ReplayLine(codec, Tables(records[..i]), Tables(records[..i + 1]), records[i],
                 file[Offset(codec, records, i + 1)..n]);
    } else {
      Leftover(codec, records, n);
      NothingLeft(codec, Tables(records[..k]), file[from..n]);
    }
  }

  lemma NothingLeft(codec: Codec, store: Store, bytes: seq<byte>)
    requires NEWLINE !in bytes
    ensures ReplayBytes(codec, store, bytes) == Ok(Opened(store, 0))
  {
    NoNewline(bytes);
  }

  // What opening a file leaves: the tables and the file, truncated after the last complete record.
  datatype Disk = Disk(store: Store, file: seq<byte>)

  ghost function Open(codec: Codec, file: seq<byte>): Result<Disk, StoreError> {
    match ReplayBytes(codec, EMPTY_STORE, file)
    case Err(e) => Err(e)
    case Ok(read) => if read.committed <= |file| then Ok(Disk(read.store, file[..read.committed])) else Err(Undecodable)
  }

  /** A journal cut at any byte opens to exactly its complete records: their tables and their bytes. */
  lemma CutOpens(codec: Codec, records: seq<Record>, n: nat)
    requires CodecOk(codec) && Replayable(records) && n <= |File(codec, records)|
    requires RecordsUtf8(records[..Complete(codec, records, n)])
    ensures var kept := records[..Complete(codec, records, n)];
            Open(codec, File(codec, records)[..n]) == Ok(Disk(Tables(kept), File(codec, kept)))
  {
    hide Replayed, CodecOk, ReplayBytes, Replayable, Complete, RecordsUtf8;
    var k := Complete(codec, records, n);
    ReplayFrom(codec, records, n, 0);
    assert records[..0] == [];
    FilePrefix(codec, records, k);
    hide File;
    var file := File(codec, records);
    assert file[0..n] == file[..n];
    assert file[..n][..Offset(codec, records, k)] == File(codec, records[..k]);
  }

  // ------------------------------------------------------------------
  // Executions with crashes

  // A mutation; a crash after n bytes of a mutation's line reached the disk, and a reopening; a reopening.
  datatype DiskEvent = Mutate(m: Mutation) | CrashDuring(m: Mutation, n: nat) | Reopen

  /** The line a mutation would append, nothing if it writes none. */
  ghost function LineFor(codec: Codec, store: Store, m: Mutation): seq<byte> {
    match Planned(store, m)
    case Ok(Some(record)) => Line(codec, record)
    case _ => []
  }

  ghost function DiskStep(codec: Codec, d: Disk, e: DiskEvent): Result<Disk, StoreError> {
    match e
    case Mutate(m) => Ok(Disk(Performed(Live(d.store, []), m).store, d.file + LineFor(codec, d.store, m)))
    case CrashDuring(m, n) =>
      var line := LineFor(codec, d.store, m);
      Open(codec, d.file + if n < |line| then line[..n] else line)
    case Reopen => Open(codec, d.file)
  }

  ghost function DiskRun(codec: Codec, events: seq<DiskEvent>): Result<Disk, StoreError> {
    if events == [] then Ok(Disk(EMPTY_STORE, []))
    else
      match DiskRun(codec, events[..|events| - 1])
      case Err(e) => Err(e)
      case Ok(d) => DiskStep(codec, d, events[|events| - 1])
  }

  /** The mutation an event leaves on disk: a crash keeps it only if its whole line was written. */
  ghost function Surviving(codec: Codec, store: Store, e: DiskEvent): seq<Mutation> {
    match e
    case Mutate(m) => [m]
    case CrashDuring(m, n) => if n < |LineFor(codec, store, m)| then [] else [m]
    case Reopen => []
  }

  ghost function Survivors(codec: Codec, events: seq<DiskEvent>): seq<Mutation> {
    if events == [] then []
    else
      var front := Survivors(codec, events[..|events| - 1]);
      front + Surviving(codec, LiveAfter(front).store, events[|events| - 1])
  }

  lemma {:induction false} OffsetsGrow(codec: Codec, records: seq<Record>, i: nat, j: nat)
    requires i < j <= |records|
    ensures Offset(codec, records, i) < Offset(codec, records, j)
    decreases j
  {
    LineAt(codec, records, j - 1);
    if i < j - 1 { OffsetsGrow(codec, records, i, j - 1); }
  }

  lemma CompleteIs(codec: Codec, records: seq<Record>, n: nat, k: nat)
    requires k <= |records| && Offset(codec, records, k) <= n && (k < |records| ==> n < Offset(codec, records, k + 1))
    ensures Complete(codec, records, n) == k
  {
    var c := Complete(codec, records, n);
    hide File, Complete;
    if c < k {
      if c + 1 < k { OffsetsGrow(codec, records, c + 1, k); }
    }
    if k < c {
      if k + 1 < c { OffsetsGrow(codec, records, k + 1, c); }
    }
  }

  lemma FileAppend(codec: Codec, records: seq<Record>, record: Record)
    ensures File(codec, records + [record]) == File(codec, records) + Line(codec, record)
  {
    assert (records + [record])[..|records|] == records;
  }

  lemma OpenWhole(codec: Codec, records: seq<Record>)
    requires CodecOk(codec) && Replayable(records) && RecordsUtf8(records)
    ensures Open(codec, File(codec, records)) == Ok(Disk(Tables(records), File(codec, records)))
  {
    var file := File(codec, records);
    assert records[..|records|] == records;
    CompleteIs(codec, records, |file|, |records|);
    CutOpens(codec, records, |file|);
    assert file[..|file|] == file;
  }

  /** A line torn anywhere before its newline leaves no trace. */
  lemma OpenTorn(codec: Codec, records: seq<Record>, record: Record, n: nat)
    requires CodecOk(codec) && Replayable(records + [record]) && RecordsUtf8(records) && n < |Line(codec, record)|
    ensures Open(codec, File(codec, records) + Line(codec, record)[..n])
              == Ok(Disk(Tables(records), File(codec, records)))
  {
    hide CodecOk, Replayable, Tables, Open, File, Complete, Line, RecordsUtf8;
    var all, file := records + [record], File(codec, records);
    FileAppend(codec, records, record);
    assert all[..|records|] == records && all[..|records| + 1] == all;
    CompleteIs(codec, all, |file| + n, |records|);
    CutOpens(codec, all, |file| + n);
    assert File(codec, all)[..|file| + n] == file + Line(codec, record)[..n];
  }

  /** One event on a disk that holds the records of a live store. */
  lemma DiskStepIs(codec: Codec, live: Live, e: DiskEvent)
    requires CodecOk(codec) && LiveOk(live) && RecordsUtf8(After(codec, live, e).records)
    ensures DiskStep(codec, Disk(live.store, File(codec, live.records)), e)
            == Ok(Disk(After(codec, live, e).store, File(codec, After(codec, live, e).records)))
  {
    hide CodecOk, Planned, Replayable, Tables, File, Applied, Open, StoreOk, RecordsUtf8;
    AfterExtends(codec, live, e);
    if !e.Reopen? {
      PerformedOk(live, e.m);
      if Planned(live.store, e.m).Ok? && Planned(live.store, e.m).value.Some? {
        var record := Planned(live.store, e.m).value.value;
        FileAppend(codec, live.records, record);
        if e.CrashDuring? && e.n < |Line(codec, record)| {
          OpenTorn(codec, live.records, record, e.n);
        } else {
          OpenWhole(codec, live.records + [record]);
        }
      } else {
        OpenWhole(codec, live.records);
        assert File(codec, live.records) + [] == File(codec, live.records);
      }
    } else {
      OpenWhole(codec, live.records);
    }
  }

  /** The live store after the mutation that an event leaves on disk, if any. */
  ghost function After(codec: Codec, live: Live, e: DiskEvent): Live {
    var ms := Surviving(codec, live.store, e);
    if ms == [] then live else Performed(live, ms[0])
  }

  lemma AfterExtends(codec: Codec, live: Live, e: DiskEvent)
    requires RecordsUtf8(After(codec, live, e).records)
    ensures RecordsUtf8(live.records)
  {
    hide RecordUtf8, Planned, Applied, LineFor;
    var next := After(codec, live, e);
    assert live.records <= next.records;
    forall i | 0 <= i < |live.records| ensures RecordUtf8(live.records[i]) {
      assert live.records[i] == next.records[i];
    }
  }

  /** Whatever crashes happen, the store is the one that performed the surviving mutations and no others. */
  lemma {:induction false} CrashesLoseOnlyTheTail(codec: Codec, events: seq<DiskEvent>)
    requires CodecOk(codec) && RecordsUtf8(LiveAfter(Survivors(codec, events)).records)
    ensures var live := LiveAfter(Survivors(codec, events));
            DiskRun(codec, events) == Ok(Disk(live.store, File(codec, live.records)))
  {
    hide CodecOk, LiveOk, Performed, DiskStep, Surviving, RecordsUtf8;
    if events != [] {
      var front, e := events[..|events| - 1], events[|events| - 1];
      SurvivorsNext(codec, events);
      var live := LiveAfter(Survivors(codec, front));
      AfterExtends(codec, live, e);
      CrashesLoseOnlyTheTail(codec, front);
      LiveAfterOk(Survivors(codec, front));
      DiskStepIs(codec, live, e);
    }
  }

  lemma SurvivorsNext(codec: Codec, events: seq<DiskEvent>)
    requires events != []
    ensures LiveAfter(Survivors(codec, events))
            == After(codec, LiveAfter(Survivors(codec, events[..|events| - 1])), events[|events| - 1])
  {
    hide Performed, LineFor;
    var ms := Survivors(codec, events[..|events| - 1]);
    var more := Surviving(codec, LiveAfter(ms).store, events[|events| - 1]);
    if more == [] {
      assert ms + more == ms;
    } else {
      assert ms + more == ms + [more[0]] && (ms + [more[0]])[..|ms|] == ms;
    }
  }

  // ------------------------------------------------------------------
  // Versions

  function RunOf(record: Record): Option<RunSnapshot> {
    match record
    case RunCreated(run) => Some(run)
    case RunSaved(run) => Some(run)
    case _ => None
  }

  predicate IsRevision(record: Record, id: Text) {
    RunOf(record).Some? && RunOf(record).value.id == id
  }

  function Revisions(records: seq<Record>, id: Text): nat {
    if records == [] then 0
    else Revisions(records[..|records| - 1], id) + if IsRevision(records[|records| - 1], id) then 1 else 0
  }

  /** The stored version of a run counts its records. */
  predicate Counted(live: Live, id: Text) {
    && (id in live.store.runs <==> Revisions(live.records, id) > 0)
    && (id in live.store.runs ==> live.store.runs[id].version == Revisions(live.records, id))
  }

  lemma RevisionsAppend(records: seq<Record>, record: Record, id: Text)
    ensures Revisions(records + [record], id) == Revisions(records, id) + if IsRevision(record, id) then 1 else 0
  {
    assert (records + [record])[..|records|] == records;
  }

  lemma PlannedVersion(store: Store, m: Mutation)
    requires Planned(store, m).Ok? && Planned(store, m).value.Some?
    ensures var record := Planned(store, m).value.value;
            && (RunOf(record).None? ==> Applied(store, record).runs == store.runs)
            && (RunOf(record).Some? ==>
                  var run := RunOf(record).value;
                  && run.version == (if run.id in store.runs then store.runs[run.id].version + 1 else 1)
                  && Applied(store, record).runs == store.runs[run.id := run])
  {
    hide ValidDefinition, SnapshotValid, Restore, UserValid, ProjectValid, MembershipValid, EventValid, OwnershipValid;
  }

  lemma PerformedCounts(live: Live, m: Mutation, id: Text)
    requires Counted(live, id)
    ensures Counted(Performed(live, m), id)
    ensures var next := Performed(live, m);
            forall i :: |live.records| <= i < |next.records| && IsRevision(next.records[i], id) ==>
              RunOf(next.records[i]).value.version == Revisions(live.records, id) + 1
  {
    hide Planned, Applied;
    if Planned(live.store, m).Ok? && Planned(live.store, m).value.Some? {
      PlannedVersion(live.store, m);
      RevisionsAppend(live.records, Planned(live.store, m).value.value, id);
    }
  }

  /** A run's records carry the versions one, two, three: the i-th record of a run has version i. */
  lemma {:induction false} VersionsAreConsecutive(ms: seq<Mutation>, id: Text)
    ensures Counted(LiveAfter(ms), id)
    ensures var records := LiveAfter(ms).records;
            forall i :: 0 <= i < |records| && IsRevision(records[i], id) ==>
              RunOf(records[i]).value.version == Revisions(records[..i], id) + 1
  {
    hide Planned, Applied, RunOf;
    if ms != [] {
      var live := LiveAfter(ms[..|ms| - 1]);
      VersionsAreConsecutive(ms[..|ms| - 1], id);
      PerformedCounts(live, ms[|ms| - 1], id);
      var records := LiveAfter(ms).records;
      forall i | 0 <= i < |records| && IsRevision(records[i], id)
        ensures RunOf(records[i]).value.version == Revisions(records[..i], id) + 1
      {
        if i < |live.records| {
          assert records[i] == live.records[i] && records[..i] == live.records[..i];
        } else {
          assert records[..i] == live.records;
        }
      }
    }
  }

  lemma {:induction false} RevisionsGrow(records: seq<Record>, id: Text, i: nat, j: nat)
    requires i < j <= |records| && IsRevision(records[i], id)
    ensures Revisions(records[..i], id) < Revisions(records[..j], id)
    decreases j
  {
    assert records[..j] == records[..j - 1] + [records[j - 1]];
    RevisionsAppend(records[..j - 1], records[j - 1], id);
    if i < j - 1 { RevisionsGrow(records, id, i, j - 1); }
  }

  /** No two accepted saves of a run carry the same version: one winner per expected version. */
  lemma OneWinnerPerVersion(ms: seq<Mutation>, id: Text, i: nat, j: nat)
    requires var records := LiveAfter(ms).records;
             i < j < |records| && IsRevision(records[i], id) && IsRevision(records[j], id)
    ensures var records := LiveAfter(ms).records;
            RunOf(records[i]).value.version < RunOf(records[j]).value.version
  {
    VersionsAreConsecutive(ms, id);
    RevisionsGrow(LiveAfter(ms).records, id, i, j);
  }
}
