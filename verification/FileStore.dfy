/** The store as an object: tables changed in place after each journal append, and rebuilt by replay. */
module FileStore {
  import opened Ids
  import opened Definition
  import G = Graph
  import S = Snapshot
  import opened Journal
  import opened JournalProofs

  /** What a mutation leaves behind, given what was there: the planned record appended and applied, or nothing. */
  ghost predicate Outcome(codec: Codec, before: Disk, m: Mutation, after: Disk, error: Option<StoreError>) {
    var plan := Planned(before.store, m);
    && error == (if plan.Err? then Some(plan.error) else None)
    && after == match plan
                case Ok(Some(record)) => Disk(Applied(before.store, record), before.file + Line(codec, record))
                case _ => before
  }

  /** A method call is a step of the store with crashes. */
  lemma OutcomeIsStep(codec: Codec, before: Disk, m: Mutation, after: Disk, error: Option<StoreError>)
    requires Outcome(codec, before, m, after, error)
    ensures DiskStep(codec, before, Mutate(m)) == Ok(after)
  {
    assert before.file + [] == before.file;
  }

  class Store {
    const codec: Codec
    var workflows: map<Text, WorkflowDefinition>
    var runs: map<Text, S.RunSnapshot>
    var users: map<Text, User>
    var projects: map<Text, Project>
    var memberships: map<Text, map<Text, Membership>>
    var ownerships: map<Text, Ownership>
    var auditEvents: map<Text, seq<AuditEvent>>
    var auditIds: set<Text>
    // The bytes of the journal file.
    var file: seq<byte>

    function Tables(): Journal.Store
      reads this
    {
      Journal.Store(workflows, runs, users, projects, memberships, ownerships, auditEvents, auditIds)
    }

    function OnDisk(): Disk
      reads this
    {
      Disk(Tables(), file)
    }

    constructor (codec: Codec, file: seq<byte>)
      ensures this.codec == codec && this.file == file && Tables() == EMPTY_STORE
    {
      this.codec, this.file := codec, file;
      workflows, runs, users, projects := map[], map[], map[], map[];
      memberships, ownerships, auditEvents, auditIds := map[], map[], map[], {};
    }

    method AppendRecord(record: Record)
      modifies this`file
      ensures file == old(file) + Line(codec, record)
    {
      file := file + codec.encode(record) + [NEWLINE];
    }

    method CheckSecurity(user: Option<User>, event: AuditEvent) returns (fault: Option<StoreError>)
      ensures fault == SecurityFault(Tables(), user, event)
    {
      if !EventValid(event) {
        return Some(InvalidContent);
      }
      if event.id in auditIds {
        return Some(AuditExists);
      }
      if user.Some? && user.value.id in users && users[user.value.id].disabled != user.value.disabled {
        return Some(DisabledChanged);
      }
      return None;
    }

    method PutUser(user: User)
      modifies this`users
      ensures Tables() == WithUser(old(Tables()), user)
    {
      if user.id !in users {
        users := users[user.id := user];
      }
    }

    method PutMember(m: Membership)
      modifies this`memberships
      ensures Tables() == WithMembership(old(Tables()), m)
    {
      if m.projectId !in memberships {
        memberships := memberships[m.projectId := map[]];
      }
      memberships := memberships[m.projectId := memberships[m.projectId][m.userId := m]];
    }

    method PutEvent(e: AuditEvent)
      modifies this`auditEvents, this`auditIds
      ensures Tables() == WithEvent(old(Tables()), e)
    {
      var events := if e.projectId in auditEvents then auditEvents[e.projectId] else [];
      auditEvents := auditEvents[e.projectId := events + [e]];
      auditIds := auditIds + {e.id};
    }

    /** Change the tables as an accepted record says. */
    method ApplyTables(record: Record)
      modifies this
      ensures Tables() == Applied(old(Tables()), record) && file == old(file)
    {
      match record
      case WorkflowSaved(definition) => workflows := workflows[definition.id := definition];
      case RunCreated(run) => runs := runs[run.id := run];
      case RunSaved(run) => runs := runs[run.id := run];
      case ProjectCreated(user, project, membership, event) =>
        PutUser(user);
        projects := projects[project.id := project];
        PutMember(membership);
        PutEvent(event);
      case ProjectSaved(project, event) =>
        projects := projects[project.id := project];
        PutEvent(event);
      case MembershipPut(user, membership, event) =>
        PutUser(user);
        PutMember(membership);
        PutEvent(event);
      case OwnedWorkflowSaved(definition, ownership) =>
        workflows := workflows[definition.id := definition];
        ownerships := ownerships[ownership.workflowId := ownership];
    }

    /** Append first, then make the change visible. */
    method Commit(record: Record)
      modifies this
      ensures OnDisk() == Disk(Applied(old(Tables()), record), old(file) + Line(codec, record))
    {
      AppendRecord(record);
      ApplyTables(record);
    }

    method RunFits(snapshot: S.RunSnapshot) returns (ok: bool)
      requires snapshot.workflowId in workflows
      ensures ok <==> RunAccepted(Tables(), snapshot)
    {
      var restored := S.RestoreWorkflowRun(snapshot, workflows[snapshot.workflowId]);
      ok := restored.Ok?;
    }

    method SaveWorkflow(definition: WorkflowDefinition) returns (error: Option<StoreError>)
      modifies this
      ensures Outcome(codec, old(OnDisk()), Mutation.SaveWorkflow(definition), OnDisk(), error)
    {
      var valid := G.Validate(definition);
      if valid.Err? {
        return Some(InvalidContent);
      }
      if definition.id in workflows {
        if workflows[definition.id] == definition {
          return None;
        }
        return Some(WorkflowConflict);
      }
      Commit(WorkflowSaved(definition));
      return None;
    }

    method CreateRun(snapshot: S.RunSnapshot) returns (stored: Result<S.RunSnapshot, StoreError>)
      modifies this
      ensures Outcome(codec, old(OnDisk()), Mutation.CreateRun(snapshot), OnDisk(), if stored.Err?
                      then Some(stored.error) else None)
      ensures stored.Ok? ==> stored.value == snapshot.(version := 1) && snapshot.id in runs
                             && runs[snapshot.id] == stored.value
    {
      var valid := S.Validate(snapshot);
      if valid.Err? {
        return Err(InvalidContent);
      }
      if snapshot.id in runs {
        return Err(RunExists);
      }
      if snapshot.version != 0 {
        return Err(BadVersion);
      }
      if snapshot.workflowId !in workflows {
        return Err(WorkflowNotFound);
      }
      var fits := RunFits(snapshot);
      if !fits {
        return Err(InvalidContent);
      }
      var next := snapshot.(version := 1);
      Commit(RunCreated(next));
      return Ok(next);
    }

    method SaveRun(snapshot: S.RunSnapshot) returns (stored: Result<S.RunSnapshot, StoreError>)
      modifies this
      ensures Outcome(codec, old(OnDisk()), Mutation.SaveRun(snapshot), OnDisk(), if stored.Err? then Some(stored.error)
                      else None)
      ensures stored.Ok? ==> stored.value == snapshot.(version := snapshot.version + 1) && snapshot.id in runs
                             && runs[snapshot.id] == stored.value
    {
      var valid := S.Validate(snapshot);
      if valid.Err? {
        return Err(InvalidContent);
      }
      if snapshot.id !in runs {
        return Err(RunNotFound);
      }
      var current := runs[snapshot.id];
      if snapshot.version != current.version {
        return Err(VersionConflict(current.version));
      }
      if snapshot.workflowId !in workflows {
        return Err(WorkflowNotFound);
      }
      var fits := RunFits(snapshot);
      if !fits {
        return Err(InvalidContent);
      }
      var next := snapshot.(version := snapshot.version + 1);
      Commit(RunSaved(next));
      return Ok(next);
    }

    method CreateProject(user: User, project: Project, membership: Membership, event: AuditEvent)
      returns (error: Option<StoreError>)
      modifies this
      ensures Outcome(codec, old(OnDisk()), Mutation.CreateProject(user, project, membership, event), OnDisk(), error)
    {
      if !CreationValid(user, project, membership, event) {
        return Some(InvalidContent);
      }
      if project.id in projects {
        return Some(ProjectExists);
      }
      var known := user;
      if user.id in users {
        if users[user.id].disabled {
          return Some(UserDisabled);
        }
        known := users[user.id];
      }
      if event.id in auditIds {
        return Some(AuditExists);
      }
      Commit(ProjectCreated(known, project, membership, event));
      return None;
    }

    method SaveProject(project: Project, event: AuditEvent) returns (error: Option<StoreError>)
      modifies this
      ensures Outcome(codec, old(OnDisk()), Mutation.SaveProject(project, event), OnDisk(), error)
    {
      if !ProjectValid(project) || !EventValid(event) {
        return Some(InvalidContent);
      }
      if event.projectId != project.id {
        return Some(Mismatch);
      }
      if project.id !in projects {
        return Some(ProjectNotFound);
      }
      var existing := projects[project.id];
      if existing.createdAt != project.createdAt || existing.createdBy != project.createdBy {
        return Some(CreatorChanged);
      }
      if event.id in auditIds {
        return Some(AuditExists);
      }
      Commit(ProjectSaved(project, event));
      return None;
    }

    method PutMembership(user: User, membership: Membership, event: AuditEvent) returns (error: Option<StoreError>)
      modifies this
      ensures Outcome(codec, old(OnDisk()), Mutation.PutMembership(user, membership, event), OnDisk(), error)
    {
      if !UserValid(user) || !MembershipValid(membership) || !EventValid(event) {
        return Some(InvalidContent);
      }
      if membership.userId != user.id || event.projectId != membership.projectId {
        return Some(Mismatch);
      }
      if membership.projectId !in projects {
        return Some(ProjectNotFound);
      }
      var known, kept := user, membership;
      if user.id in users {
        if users[user.id].disabled {
          return Some(UserDisabled);
        }
        known := users[user.id];
      }
      if IsMember(Tables(), membership.projectId, membership.userId) {
        var existing := memberships[membership.projectId][membership.userId];
        kept := membership.(createdAt := existing.createdAt);
        if membership.updatedAt < existing.updatedAt {
          return Some(TimeMovedBack);
        }
      }
      if event.id in auditIds {
        return Some(AuditExists);
      }
      Commit(MembershipPut(known, kept, event));
      return None;
    }

    method SaveWorkflowForProject(definition: WorkflowDefinition, ownership: Ownership)
      returns (error: Option<StoreError>)
      modifies this
      ensures Outcome(codec, old(OnDisk()), SaveOwnedWorkflow(definition, ownership), OnDisk(), error)
    {
      var valid := G.Validate(definition);
      if valid.Err? || !OwnershipValid(ownership) {
        return Some(InvalidContent);
      }
      if ownership.workflowId != definition.id {
        return Some(Mismatch);
      }
      if ownership.projectId !in projects {
        return Some(ProjectNotFound);
      }
      if !IsMember(Tables(), ownership.projectId, ownership.ownerUserId) {
        return Some(NotMember);
      }
      if ownership.ownerUserId in users && users[ownership.ownerUserId].disabled {
        return Some(UserDisabled);
      }
      if definition.id in workflows && workflows[definition.id] != definition {
        return Some(WorkflowConflict);
      }
      if definition.id in ownerships {
        if ownerships[definition.id] == ownership {
          return None;
        }
        return Some(OwnershipConflict);
      }
      Commit(OwnedWorkflowSaved(definition, ownership));
      return None;
    }

    /** Check a record against the tables again and apply it. */
    method ApplyRecord(record: Record) returns (error: Option<StoreError>)
      modifies this
      ensures file == old(file)
      ensures var r := Replayed(old(Tables()), record);
              error == (if r.Err? then Some(r.error) else None)
              && Tables() == (if r.Ok? then r.value else old(Tables()))
    {
      match record
      case WorkflowSaved(definition) => error := AcceptWorkflow(record, definition);
      case RunCreated(run) => error := AcceptRun(record, run);
      case RunSaved(run) => error := AcceptRun(record, run);
      case ProjectCreated(user, project, membership, event) =>
        if !CreationValid(user, project, membership, event) {
          return Some(InvalidContent);
        }
        if project.id in projects {
          return Some(ProjectExists);
        }
        error := AcceptSecurity(record, Some(user), event);
      case ProjectSaved(project, event) =>
        if !ProjectValid(project) {
          return Some(InvalidContent);
        }
        if project.id !in projects {
          return Some(ProjectNotFound);
        }
        if event.projectId != project.id {
          return Some(Mismatch);
        }
        error := AcceptSecurity(record, None, event);
      case MembershipPut(user, membership, event) =>
        if !UserValid(user) || !MembershipValid(membership) {
          return Some(InvalidContent);
        }
        if membership.userId != user.id || event.projectId != membership.projectId {
          return Some(Mismatch);
        }
        if membership.projectId !in projects {
          return Some(ProjectNotFound);
        }
        error := AcceptSecurity(record, Some(user), event);
      case OwnedWorkflowSaved(definition, ownership) => error := AcceptOwned(record, definition, ownership);
    }

    method AcceptSecurity(record: Record, user: Option<User>, event: AuditEvent) returns (error: Option<StoreError>)
      modifies this
      ensures file == old(file)
      ensures var r := Checked(old(Tables()), record, SecurityFault(old(Tables()), user, event));
              error == (if r.Err? then Some(r.error) else None)
              && Tables() == (if r.Ok? then r.value else old(Tables()))
    {
      error := CheckSecurity(user, event);
      if error.None? {
        ApplyTables(record);
      }
    }

    method AcceptWorkflow(record: Record, definition: WorkflowDefinition) returns (error: Option<StoreError>)
      requires record == WorkflowSaved(definition)
      modifies this
      ensures file == old(file)
      ensures var r := Replayed(old(Tables()), record);
              error == (if r.Err? then Some(r.error) else None)
              && Tables() == (if r.Ok? then r.value else old(Tables()))
    {
      var valid := G.Validate(definition);
      if valid.Err? {
        return Some(InvalidContent);
      }
      if definition.id in workflows && workflows[definition.id] != definition {
        return Some(WorkflowConflict);
      }
      ApplyTables(record);
      return None;
    }

    method AcceptOwned(record: Record, definition: WorkflowDefinition, ownership: Ownership)
      returns (error: Option<StoreError>)
      requires record == OwnedWorkflowSaved(definition, ownership)
      modifies this
      ensures file == old(file)
      ensures var r := Replayed(old(Tables()), record);
              error == (if r.Err? then Some(r.error) else None)
              && Tables() == (if r.Ok? then r.value else old(Tables()))
    {
      var valid := G.Validate(definition);
      if valid.Err? || !OwnershipValid(ownership) {
        return Some(InvalidContent);
      }
      if ownership.workflowId != definition.id {
        return Some(Mismatch);
      }
      if ownership.projectId !in projects {
        return Some(ProjectNotFound);
      }
      if !IsMember(Tables(), ownership.projectId, ownership.ownerUserId) {
        return Some(NotMember);
      }
      if definition.id in workflows && workflows[definition.id] != definition {
        return Some(WorkflowConflict);
      }
      if definition.id in ownerships && ownerships[definition.id] != ownership {
        return Some(OwnershipConflict);
      }
      ApplyTables(record);
      return None;
    }

    /** A run record: numbered if it predates versions, validated, and next in its run's line. */
    method AcceptRun(record: Record, raw: S.RunSnapshot) returns (error: Option<StoreError>)
      requires record == RunCreated(raw) || record == RunSaved(raw)
      modifies this
      ensures file == old(file)
      ensures var r := Replayed(old(Tables()), record);
              error == (if r.Err? then Some(r.error) else None)
              && Tables() == (if r.Ok? then r.value else old(Tables()))
    {
      hide S.SnapshotValid, S.Restore;
      var run := raw;
      if run.version == 0 {
        run := run.(version := if run.id in runs then runs[run.id].version + 1 else 1);
      }
      var valid := S.Validate(run);
      if valid.Err? || run.workflowId !in workflows {
        return Some(InvalidContent);
      }
      var fits := RunFits(run);
      if !fits {
        return Some(InvalidContent);
      }
      if record.RunCreated? {
        if run.id in runs {
          return Some(RunExists);
        }
        if run.version != 1 {
          return Some(BadVersion);
        }
      } else {
        if run.id !in runs {
          return Some(RunNotFound);
        }
        if run.version != runs[run.id].version + 1 {
          return Some(BadVersion);
        }
      }
      runs := runs[run.id := run];
      return None;
    }

    /** Rebuild the tables from the file, line by line, and cut off what follows the last newline. */
    method Replay() returns (error: Option<StoreError>)
      requires Tables() == EMPTY_STORE
      modifies this
      ensures var r := Open(codec, old(file));
              error == (if r.Err? then Some(r.error) else None) && (r.Ok? ==> OnDisk() == r.value)
    {
      hide ReplayBytes, Replayed;
      var committed := 0;
      assert file[0..] == file;
      while true
        invariant 0 <= committed <= |file| && file == old(file)
        invariant Resumes(ReplayBytes(codec, EMPTY_STORE, file), ReplayBytes(codec, Tables(), file[committed..]),
                          committed)
        decreases |file| - committed
      {
        var rest := file[committed..];
        ReplayUnfolds(codec, Tables(), rest);
        var end := FindNewline(rest);
        if end == |rest| {
          break;
        }
        var record := codec.decode(rest[..end]);
        if record.None? {
          return Some(Undecodable);
        }
        error := ApplyRecord(record.value);
        if error.Some? {
          return;
        }
        committed := committed + end + 1;
        assert rest[end + 1..] == file[committed..];
      }
      CommittedFits(codec, file);
      file := file[..committed];
      return None;
    }
  }

  lemma {:induction false} CommittedBound(codec: Codec, store: Journal.Store, bytes: seq<byte>)
    ensures var r := ReplayBytes(codec, store, bytes); r.Ok? ==> r.value.committed <= |bytes|
    decreases |bytes|
  {
    hide Replayed;
    var k := NewlineAt(bytes);
    if k < |bytes| && codec.decode(bytes[..k]).Some? {
      var r := Replayed(store, codec.decode(bytes[..k]).value);
      if r.Ok? { CommittedBound(codec, r.value, bytes[k + 1..]); }
    }
  }

  lemma CommittedFits(codec: Codec, bytes: seq<byte>)
    ensures var r := ReplayBytes(codec, EMPTY_STORE, bytes); r.Ok? ==> r.value.committed <= |bytes|
  {
    CommittedBound(codec, EMPTY_STORE, bytes);
  }

  /** Where the next line ends. */
  method FindNewline(bytes: seq<byte>) returns (k: nat)
    ensures k == NewlineAt(bytes)
  {
    k := 0;
    while k < |bytes| && bytes[k] != NEWLINE
      invariant k <= |bytes| && NewlineAt(bytes) == k + NewlineAt(bytes[k..])
    {
      k := k + 1;
      assert bytes[k - 1..][1..] == bytes[k..];
    }
  }
}
