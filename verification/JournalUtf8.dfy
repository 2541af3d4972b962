/** The journal is JSON, and JSON strings are well-formed: exactly the records of well-formed texts come back as they
were written. */
module JournalUtf8 {
  import opened Ids
  import opened Definition
  import opened Graph
  import opened Snapshot
  import opened Journal
  import opened JournalProofs

  // ------------------------------------------------------------------
  // Tables of well-formed texts

  ghost predicate StoreUtf8(store: Store) {
    && (forall id :: id in store.workflows ==> DefinitionUtf8(store.workflows[id]))
    && (forall id :: id in store.runs ==> RunUtf8(store.runs[id]))
    && (forall id :: id in store.users ==> UserUtf8(store.users[id]))
    && (forall id :: id in store.projects ==> ProjectUtf8(store.projects[id]))
    && (forall p, u :: p in store.memberships && u in store.memberships[p] ==> MembershipUtf8(store.memberships[p][u]))
    && (forall id :: id in store.ownerships ==> OwnershipUtf8(store.ownerships[id]))
    && forall p, i :: p in store.auditEvents && 0 <= i < |store.auditEvents[p]| ==> EventUtf8(store.auditEvents[p][i])
  }

  lemma WithUserUtf8(store: Store, user: User)
    requires StoreUtf8(store)
    ensures UserUtf8(user) ==> StoreUtf8(WithUser(store, user))
  {
    hide DefinitionUtf8, RunUtf8, UserUtf8, ProjectUtf8, MembershipUtf8, OwnershipUtf8, EventUtf8;
  }

  lemma WithMembershipUtf8(store: Store, m: Membership)
    requires StoreUtf8(store)
    ensures MembershipUtf8(m) ==> StoreUtf8(WithMembership(store, m))
  {
    hide DefinitionUtf8, RunUtf8, UserUtf8, ProjectUtf8, MembershipUtf8, OwnershipUtf8, EventUtf8;
  }

  lemma WithEventUtf8(store: Store, e: AuditEvent)
    requires StoreUtf8(store)
    ensures EventUtf8(e) ==> StoreUtf8(WithEvent(store, e))
  {
    hide DefinitionUtf8, RunUtf8, UserUtf8, ProjectUtf8, MembershipUtf8, OwnershipUtf8, EventUtf8;
  }

  lemma WithProjectUtf8(store: Store, p: Project)
    requires StoreUtf8(store)
    ensures ProjectUtf8(p) ==> StoreUtf8(store.(projects := store.projects[p.id := p]))
  {
    hide DefinitionUtf8, RunUtf8, UserUtf8, ProjectUtf8, MembershipUtf8, OwnershipUtf8, EventUtf8;
  }

  /** A user the tables know is written as they know it. */
  predicate Shown(store: Store, record: Record) {
    match record
    case ProjectCreated(user, _, _, _) => user.id in store.users ==> store.users[user.id] == user
    case MembershipPut(user, _, _) => user.id in store.users ==> store.users[user.id] == user
    case _ => true
  }

  lemma AppliedUtf8(store: Store, record: Record)
    requires StoreUtf8(store) && RecordUtf8(record)
    ensures StoreUtf8(Applied(store, record))
  {
    hide DefinitionUtf8, RunUtf8, UserUtf8, ProjectUtf8, MembershipUtf8, OwnershipUtf8, EventUtf8, WithUser,
         WithMembership, WithEvent;
    match record
    case ProjectCreated(user, project, membership, event) =>
      WithUserUtf8(store, user);
      var s := WithUser(store, user);
      WithProjectUtf8(s, project);
      var t := s.(projects := s.projects[project.id := project]);
      WithMembershipUtf8(t, membership);
      WithEventUtf8(WithMembership(t, membership), event);
    case ProjectSaved(project, event) =>
      WithProjectUtf8(store, project);
      WithEventUtf8(store.(projects := store.projects[project.id := project]), event);
    case MembershipPut(user, membership, event) =>
      WithUserUtf8(store, user);
      WithMembershipUtf8(WithUser(store, user), membership);
      WithEventUtf8(WithMembership(WithUser(store, user), membership), event);
    case _ =>
  }

  lemma LastEvent(store: Store, e: AuditEvent)
    requires StoreUtf8(WithEvent(store, e))
    ensures EventUtf8(e)
  {
    var events := WithEvent(store, e).auditEvents[e.projectId];
    assert events[|events| - 1] == e;
  }

  lemma MemberIn(store: Store, m: Membership)
    requires StoreUtf8(store) && IsMember(store, m.projectId, m.userId) && store.memberships[m.projectId][m.userId] == m
    ensures MembershipUtf8(m)
  {
  }

  lemma CreationShows(store: Store, record: Record)
    requires record.ProjectCreated? && Shown(store, record) && StoreUtf8(Applied(store, record))
    ensures RecordUtf8(record)
  {
    hide DefinitionUtf8, RunUtf8, UserUtf8, ProjectUtf8, MembershipUtf8, OwnershipUtf8, EventUtf8;
    var next, user, project, membership := Applied(store, record), record.user, record.project, record.membership;
    assert next.users[user.id] == user && next.projects[project.id] == project;
    MemberIn(next, membership);
    var s := WithUser(store, user);
    LastEvent(WithMembership(s.(projects := s.projects[project.id := project]), membership), record.event);
  }

  /** Nothing of a record is lost in the tables, so ill-formed texts show there. */
  lemma AppliedShows(store: Store, record: Record)
    requires Shown(store, record) && StoreUtf8(Applied(store, record))
    ensures RecordUtf8(record)
  {
    hide DefinitionUtf8, RunUtf8, UserUtf8, ProjectUtf8, MembershipUtf8, OwnershipUtf8, EventUtf8;
    var next := Applied(store, record);
    match record
    case WorkflowSaved(definition) => assert next.workflows[definition.id] == definition;
    case RunCreated(run) => assert next.runs[run.id] == run;
    case RunSaved(run) => assert next.runs[run.id] == run;
    case ProjectCreated(_, _, _, _) => CreationShows(store, record);
    case ProjectSaved(project, event) =>
      assert next.projects[project.id] == project;
      LastEvent(store.(projects := store.projects[project.id := project]), event);
    case MembershipPut(user, membership, event) =>
      assert next.users[user.id] == user;
      MemberIn(next, membership);
      LastEvent(WithMembership(WithUser(store, user), membership), event);
    case OwnedWorkflowSaved(definition, ownership) =>
      assert next.workflows[definition.id] == definition && next.ownerships[ownership.workflowId] == ownership;
  }

  // ------------------------------------------------------------------
  // Reading

  lemma ReplayedUtf8(store: Store, record: Record)
    requires StoreUtf8(store) && RecordUtf8(record) && Replayed(store, record).Ok?
    ensures StoreUtf8(Replayed(store, record).value)
  {
    hide StoreUtf8, DefinitionUtf8, UserUtf8, ProjectUtf8, MembershipUtf8, OwnershipUtf8, EventUtf8, TaskUtf8, Applied,
         ValidDefinition, SnapshotValid, Restore, UserValid, ProjectValid, MembershipValid, OwnershipValid, EventValid;
    match record
    case RunCreated(raw) => AppliedUtf8(store, RunCreated(Versioned(store, raw)));
    case RunSaved(raw) => AppliedUtf8(store, RunSaved(Versioned(store, raw)));
    case _ => AppliedUtf8(store, record);
  }

  lemma CodecReads(codec: Codec, line: seq<byte>)
    requires CodecOk(codec)
    ensures codec.decode(line).Some? ==> RecordUtf8(codec.decode(line).value)
  {
  }

  /** Whatever a file holds, opening it gives tables of well-formed texts. */
  lemma {:induction false} ReadUtf8(codec: Codec, store: Store, bytes: seq<byte>)
    requires CodecOk(codec) && StoreUtf8(store) && ReplayBytes(codec, store, bytes).Ok?
    ensures StoreUtf8(ReplayBytes(codec, store, bytes).value.store)
    decreases |bytes|
  {
    hide CodecOk, StoreUtf8, RecordUtf8, Replayed, NewlineAt;
    ReplayUnfolds(codec, store, bytes);
    var k := NewlineAt(bytes);
    if k < |bytes| {
      CodecReads(codec, bytes[..k]);
      var record := codec.decode(bytes[..k]).value;
      ReplayedUtf8(store, record);
      ReadUtf8(codec, Replayed(store, record).value, bytes[k + 1..]);
    }
  }

  // ------------------------------------------------------------------
  // The exact condition

  ghost predicate ShownAt(records: seq<Record>, i: nat)
    requires i < |records|
  {
    Shown(Tables(records[..i]), records[i])
  }

  lemma PlannedShown(store: Store, m: Mutation)
    requires StoreOk(store) && Planned(store, m).Ok? && Planned(store, m).value.Some?
    ensures Shown(store, Planned(store, m).value.value)
  {
    hide ValidDefinition, SnapshotValid, Restore, UserValid, ProjectValid, MembershipValid, OwnershipValid, EventValid,
         MembersOk;
  }

  lemma {:induction false} AllShown(ms: seq<Mutation>, i: nat)
    requires i < |LiveAfter(ms).records|
    ensures ShownAt(LiveAfter(ms).records, i)
    decreases |ms|
  {
    hide Planned, Applied, StoreOk, Replayable, Tables, Shown;
    if ms != [] {
      var live, m, records := LiveAfter(ms[..|ms| - 1]), ms[|ms| - 1], LiveAfter(ms).records;
      LiveAfterOk(ms[..|ms| - 1]);
      if i < |live.records| {
        AllShown(ms[..|ms| - 1], i);
        assert records[..i] == live.records[..i] && records[i] == live.records[i];
      } else {
        assert records[..i] == live.records;
        PlannedShown(live.store, m);
      }
    }
  }

  lemma {:induction false} TablesUtf8(records: seq<Record>)
    requires RecordsUtf8(records)
    ensures StoreUtf8(Tables(records))
  {
    hide RecordUtf8, Applied, StoreUtf8;
    if records == [] {
      NothingIllFormed();
    } else {
      TablesUtf8(records[..|records| - 1]);
      AppliedUtf8(Tables(records[..|records| - 1]), records[|records| - 1]);
    }
  }

  lemma NothingIllFormed()
    ensures StoreUtf8(EMPTY_STORE)
  {
  }

  /** The journal of some records opens to their tables and is kept whole. */
  ghost predicate Reopens(codec: Codec, records: seq<Record>) {
    Open(codec, File(codec, records)) == Ok(Disk(Tables(records), File(codec, records)))
  }

  lemma ReopenedUtf8(codec: Codec, records: seq<Record>)
    requires CodecOk(codec) && Reopens(codec, records)
    ensures StoreUtf8(Tables(records))
  {
    hide CodecOk, StoreUtf8, File, Tables, ReplayBytes;
    NothingIllFormed();
    ReadUtf8(codec, EMPTY_STORE, File(codec, records));
  }

  lemma IllFormedLost(codec: Codec, ms: seq<Mutation>, i: nat)
    requires var records := LiveAfter(ms).records;
             CodecOk(codec) && i < |records| && RecordsUtf8(records[..i]) && !RecordUtf8(records[i])
    ensures !Reopens(codec, LiveAfter(ms).records[..i + 1])
  {
    hide CodecOk, RecordUtf8, Reopens, StoreUtf8, Applied, Shown, RecordsUtf8, LiveAfter;
    var records := LiveAfter(ms).records;
    if Reopens(codec, records[..i + 1]) {
      ReopenedUtf8(codec, records[..i + 1]);
      AllShown(ms, i);
      assert records[..i + 1][..i] == records[..i];
      AppliedShows(Tables(records[..i]), records[i]);
    }
  }

  lemma ReopensPrefix(codec: Codec, ms: seq<Mutation>, k: nat)
    requires CodecOk(codec) && k <= |LiveAfter(ms).records| && RecordsUtf8(LiveAfter(ms).records[..k])
    ensures Reopens(codec, LiveAfter(ms).records[..k])
  {
    hide CodecOk, RecordsUtf8, StoreOk, Tables, File, Open, ReplaysAt, LiveAfter;
    LiveAfterOk(ms);
    var records := LiveAfter(ms).records;
    assert Replayable(records[..k]) by {
      forall i | 0 <= i < k ensures ReplaysAt(records[..k], i) {
        ReplaysPrefix(records, k, i);
      }
    }
    OpenWhole(codec, records[..k]);
  }

  lemma ReplaysPrefix(records: seq<Record>, k: nat, i: nat)
    requires i < k <= |records| && ReplaysAt(records, i)
    ensures ReplaysAt(records[..k], i)
  {
    hide Replayed, Tables;
    assert records[..k][..i] == records[..i] && records[..k][..i + 1] == records[..i + 1];
  }

  /** The first record with an ill-formed text. */
  lemma FirstIllFormed(records: seq<Record>) returns (i: nat)
    requires !RecordsUtf8(records)
    ensures i < |records| && !RecordUtf8(records[i]) && RecordsUtf8(records[..i])
  {
    hide RecordUtf8;
    i := 0;
    while RecordUtf8(records[i])
      invariant i < |records| && forall j :: 0 <= j < i ==> RecordUtf8(records[j])
      decreases |records| - i
    {
      i := i + 1;
    }
  }

  /** After every record of every live store the journal opens to the tables the store held, if and only if all texts
      written are well-formed. */
  lemma ReopensExactly(codec: Codec, ms: seq<Mutation>)
    requires CodecOk(codec)
    ensures var records := LiveAfter(ms).records;
            (forall k :: 0 <= k <= |records| ==> Reopens(codec, records[..k])) <==> RecordsUtf8(records)
  {
    hide CodecOk, RecordUtf8, Reopens, LiveAfter;
    var records := LiveAfter(ms).records;
    if RecordsUtf8(records) {
      forall k | 0 <= k <= |records| ensures Reopens(codec, records[..k]) {
        ReopensPrefix(codec, ms, k);
      }
    } else {
      var i := FirstIllFormed(records);
      IllFormedLost(codec, ms, i);
      assert i + 1 <= |records|;
    }
  }

  // ------------------------------------------------------------------
  // Ill-formed identifiers can lock the journal

  function CleanedAll(texts: seq<Text>): seq<Text> {
    seq(|texts|, i requires 0 <= i < |texts| => Cleaned(texts[i]))
  }

  function CleanedTask(t: TaskDefinition): TaskDefinition {
    t.(id := Cleaned(t.id), name := Cleaned(t.name), handler := Cleaned(t.handler), input := Cleaned(t.input),
       dependencies := CleanedAll(t.dependencies))
  }

  function CleanedDefinition(d: WorkflowDefinition): WorkflowDefinition {
    WorkflowDefinition(Cleaned(d.id), seq(|d.tasks|, i requires 0 <= i < |d.tasks| => CleanedTask(d.tasks[i])))
  }

  /** What is read back of a workflow has U+FFFD in the place of each ill-formed byte. */
  ghost predicate Replacing(codec: Codec) {
    forall d :: codec.decode(codec.encode(WorkflowSaved(d))) == Some(WorkflowSaved(CleanedDefinition(d)))
                && NEWLINE !in codec.encode(WorkflowSaved(d))
  }

  /** A workflow of one task. */
  function Single(workflow: byte, task: byte): WorkflowDefinition {
    WorkflowDefinition([workflow], [TaskDefinition([task], [task], [], [task], [], NO_RETRY)])
  }

  lemma SingleValid(workflow: byte, task: byte)
    requires 0xF5 <= workflow && 97 <= task <= 122
    ensures ValidDefinition(Single(workflow, task))
  {
    LetterValid(task);
    assert [workflow][1..] == [];
    assert ValidIdentifier([workflow]);
    IndependentValid(Single(workflow, task));
  }

  lemma SingleCleaned(workflow: byte, task: byte)
    requires 0xF5 <= workflow && 97 <= task <= 122
    ensures CleanedDefinition(Single(workflow, task))
            == WorkflowDefinition(REPLACEMENT, [TaskDefinition([task], [task], [], [task], [], NO_RETRY)])
  {
    assert [workflow][1..] == [] && [task][1..] == [];
    assert Cleaned([workflow]) == REPLACEMENT && Cleaned([task]) == [task] && Cleaned([]) == [];
    assert CleanedAll([]) == [];
    var d := CleanedDefinition(Single(workflow, task));
    assert d.tasks == [TaskDefinition([task], [task], [], [task], [], NO_RETRY)];
  }

  lemma ReplacementValid(task: byte)
    requires 97 <= task <= 122
    ensures ValidDefinition(WorkflowDefinition(REPLACEMENT, [TaskDefinition([task], [task], [], [task], [], NO_RETRY)]))
  {
    LetterValid(task);
    assert REPLACEMENT[3..] == [];
    assert ValidIdentifier(REPLACEMENT);
    IndependentValid(WorkflowDefinition(REPLACEMENT, [TaskDefinition([task], [task], [], [task], [], NO_RETRY)]));
  }

  lemma BothSaved(a: WorkflowDefinition, b: WorkflowDefinition)
    requires ValidDefinition(a) && ValidDefinition(b) && a.id != b.id
    ensures LiveAfter([SaveWorkflow(a), SaveWorkflow(b)]).records == [WorkflowSaved(a), WorkflowSaved(b)]
  {
    hide ValidDefinition;
    var first, both := [SaveWorkflow(a)], [SaveWorkflow(a), SaveWorkflow(b)];
    assert first[..0] == [] && both[..1] == first;
    assert LiveAfter([]) == Live(EMPTY_STORE, []);
    var live := LiveAfter(first);
    assert live.records == [WorkflowSaved(a)] && live.store.workflows == map[a.id := a];
  }

  /** A line at the front of a journal whose record is read back as another. */
  lemma ReadsLine(codec: Codec, store: Store, d: WorkflowDefinition, rest: seq<byte>)
    requires Replacing(codec)
    ensures var r := Replayed(store, WorkflowSaved(CleanedDefinition(d)));
            var whole := ReplayBytes(codec, store, Line(codec, WorkflowSaved(d)) + rest);
            if r.Err? then whole == Err(r.error)
            else Resumes(whole, ReplayBytes(codec, r.value, rest), |Line(codec, WorkflowSaved(d))|)
  {
    hide Replayed, NewlineAt, ReplayBytes, Resumes, CleanedDefinition;
    var line := codec.encode(WorkflowSaved(d));
    var bytes := Line(codec, WorkflowSaved(d)) + rest;
    assert bytes == line + [NEWLINE] + rest;
    NewlineEnds(line, rest);
    assert bytes[..|line|] == line && bytes[|line| + 1..] == rest;
    ReplayUnfolds(codec, store, bytes);
  }

  lemma BothRead(codec: Codec, a: WorkflowDefinition, b: WorkflowDefinition)
    requires Replacing(codec) && ValidDefinition(CleanedDefinition(a)) && ValidDefinition(CleanedDefinition(b))
    requires CleanedDefinition(a).id == CleanedDefinition(b).id && CleanedDefinition(a) != CleanedDefinition(b)
    ensures Open(codec, File(codec, [WorkflowSaved(a), WorkflowSaved(b)])) == Err(WorkflowConflict)
  {
    hide ValidDefinition, CleanedDefinition, Replacing, ReplayBytes, Line;
    var first, both := [WorkflowSaved(a)], [WorkflowSaved(a), WorkflowSaved(b)];
    var lineA, lineB := Line(codec, WorkflowSaved(a)), Line(codec, WorkflowSaved(b));
    FileAppend(codec, [], WorkflowSaved(a));
    FileAppend(codec, first, WorkflowSaved(b));
    assert [] + first == first && first + [WorkflowSaved(b)] == both && [] + lineA == lineA;
    assert File(codec, both) == lineA + lineB;
    ReadsLine(codec, EMPTY_STORE, a, lineB);
    var store := Replayed(EMPTY_STORE, WorkflowSaved(CleanedDefinition(a))).value;
    ReadsLine(codec, store, b, []);
    assert lineB + [] == lineB;
  }

  /** Two workflows whose identifiers are different ill-formed bytes: the store takes both, and its journal no longer
      opens, for they are read back under one identifier. */
  lemma IllFormedConflict(codec: Codec)
    requires Replacing(codec)
    ensures var a, b := Single(0xFF, 97), Single(0xFE, 98);
            && LiveAfter([SaveWorkflow(a), SaveWorkflow(b)]).records == [WorkflowSaved(a), WorkflowSaved(b)]
            && Open(codec, File(codec, [WorkflowSaved(a), WorkflowSaved(b)])) == Err(WorkflowConflict)
  {
    var a, b := Single(0xFF, 97), Single(0xFE, 98);
    SingleValid(0xFF, 97);
    SingleValid(0xFE, 98);
    assert a.id[0] != b.id[0];
    BothSaved(a, b);
    SingleCleaned(0xFF, 97);
    SingleCleaned(0xFE, 98);
    ReplacementValid(97);
    ReplacementValid(98);
    assert CleanedDefinition(a).tasks[0].id[0] != CleanedDefinition(b).tasks[0].id[0];
    BothRead(codec, a, b);
  }
}
