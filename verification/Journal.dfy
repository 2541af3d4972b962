/** The embedded store: eight tables, seven journalled mutations, and the replay that rebuilds the
tables from the journal's records. */
module Journal {
  import opened Ids
  import opened Definition
  import opened Graph
  import opened Run
  import opened Snapshot

  // ------------------------------------------------------------------
  // Records of the security model

  datatype Role = Member | Operator | Admin | OtherRole(name: Text)

  datatype User = User(id: Text, displayName: Text, disabled: bool, createdAt: Time)

  datatype Project = Project(id: Text, name: Text, createdBy: Text, createdAt: Time, updatedAt: Time)

  datatype Membership = Membership(projectId: Text, userId: Text, role: Role, createdAt: Time, updatedAt: Time)

  datatype Ownership = Ownership(workflowId: Text, projectId: Text, ownerUserId: Text, createdAt: Time)

  datatype AuditEvent = AuditEvent(
    id: Text, projectId: Text, actorUserId: Text, action: Text, resourceType: Text, resourceId: Text,
    occurredAt: Time, metadata: map<Text, Text>)

  predicate ShortIdentifier(x: Text) { ValidIdentifier(x) && |x| <= 256 }

  /** Something besides spaces, and at most 200 bytes once the spaces around it are trimmed. */
  predicate ValidName(x: Text) {
    !OnlySpaces(x) && exists i, j :: 0 <= i <= j <= |x| && OnlySpaces(x[..i]) && OnlySpaces(x[j..]) && j - i <= 200
  }

  predicate UserValid(u: User) { ShortIdentifier(u.id) && ValidName(u.displayName) && u.createdAt != 0 }

  predicate ProjectValid(p: Project) {
    ShortIdentifier(p.id) && ValidName(p.name) && ShortIdentifier(p.createdBy) && p.createdAt != 0
    && p.createdAt <= p.updatedAt
  }

  predicate MembershipValid(m: Membership) {
    ShortIdentifier(m.projectId) && ShortIdentifier(m.userId) && !m.role.OtherRole? && m.createdAt != 0
    && m.createdAt <= m.updatedAt
  }

  predicate OwnershipValid(o: Ownership) {
    ShortIdentifier(o.workflowId) && ShortIdentifier(o.projectId) && ShortIdentifier(o.ownerUserId) && o.createdAt != 0
  }

  predicate EventValid(e: AuditEvent) {
    && ShortIdentifier(e.id) && ShortIdentifier(e.projectId) && ShortIdentifier(e.actorUserId)
    && ShortIdentifier(e.action) && ShortIdentifier(e.resourceType) && ShortIdentifier(e.resourceId)
    && e.occurredAt != 0
    && forall k :: k in e.metadata ==> ShortIdentifier(k) && |e.metadata[k]| <= 500
  }

  // ------------------------------------------------------------------
  // Tables, mutations and records

  datatype Store = Store(
    workflows: map<Text, WorkflowDefinition>,
    runs: map<Text, RunSnapshot>,
    users: map<Text, User>,
    projects: map<Text, Project>,
    memberships: map<Text, map<Text, Membership>>,
    ownerships: map<Text, Ownership>,
    auditEvents: map<Text, seq<AuditEvent>>,
    auditIds: set<Text>)

  const EMPTY_STORE: Store := Store(map[], map[], map[], map[], map[], map[], map[], {})

  // A mutation as a caller asks for it.
  datatype Mutation =
    | SaveWorkflow(definition: WorkflowDefinition)
    | CreateRun(snapshot: RunSnapshot)
    | SaveRun(snapshot: RunSnapshot)
    | CreateProject(user: User, project: Project, membership: Membership, event: AuditEvent)
    | SaveProject(project: Project, event: AuditEvent)
    | PutMembership(user: User, membership: Membership, event: AuditEvent)
    | SaveOwnedWorkflow(definition: WorkflowDefinition, ownership: Ownership)

  // A record as the journal keeps it: the mutation with what the store filled in.
  datatype Record =
    | WorkflowSaved(definition: WorkflowDefinition)
    | RunCreated(run: RunSnapshot)
    | RunSaved(run: RunSnapshot)
    | ProjectCreated(user: User, project: Project, membership: Membership, event: AuditEvent)
    | ProjectSaved(project: Project, event: AuditEvent)
    | MembershipPut(user: User, membership: Membership, event: AuditEvent)
    | OwnedWorkflowSaved(definition: WorkflowDefinition, ownership: Ownership)

  datatype StoreError =
    | InvalidContent | WorkflowConflict | WorkflowNotFound | RunExists | RunNotFound | VersionConflict(actual: nat)
    | BadVersion
    | ProjectExists | ProjectNotFound | UserDisabled | DisabledChanged | AuditExists | Mismatch | CreatorChanged
    | TimeMovedBack
    | NotMember | OwnershipConflict | Undecodable

  /** The run's definition is known and the snapshot restores against it. */
  ghost predicate RunAccepted(store: Store, run: RunSnapshot) {
    run.workflowId in store.workflows && Restore(run, store.workflows[run.workflowId]).Ok?
  }

  predicate IsMember(store: Store, projectId: Text, userId: Text) {
    projectId in store.memberships && userId in store.memberships[projectId]
  }

  predicate CreationValid(user: User, project: Project, membership: Membership, event: AuditEvent) {
    && UserValid(user) && ProjectValid(project) && MembershipValid(membership) && EventValid(event)
    && project.createdBy == user.id && membership.projectId == project.id && membership.userId == user.id
    && membership.role.Admin? && event.projectId == project.id && event.actorUserId == user.id
  }

  // ------------------------------------------------------------------
  // What a mutation writes

  /** A known user stands for whatever the caller says about that user. */
  function KnownUser(store: Store, user: User): User {
    if user.id in store.users then store.users[user.id] else user
  }

  /** A known membership keeps the moment it was created. */
  function KnownMembership(store: Store, m: Membership): Membership {
    if IsMember(store, m.projectId, m.userId) then m.(createdAt := store.memberships[m.projectId][m.userId].createdAt)
      else m
  }

  /** The record a mutation appends, nothing if it is a repetition, or the reason it is refused. */
  ghost function Planned(store: Store, m: Mutation): Result<Option<Record>, StoreError> {
    match m
    case SaveWorkflow(definition) =>
      if !ValidDefinition(definition) then Err(InvalidContent)
      else if definition.id in store.workflows then
        if store.workflows[definition.id] == definition then Ok(None) else Err(WorkflowConflict)
      else Ok(Some(WorkflowSaved(definition)))
    case CreateRun(snapshot) =>
      if !SnapshotValid(snapshot) then Err(InvalidContent)
      else if snapshot.id in store.runs then Err(RunExists)
      else if snapshot.version != 0 then Err(BadVersion)
      else if snapshot.workflowId !in store.workflows then Err(WorkflowNotFound)
      else if !RunAccepted(store, snapshot) then Err(InvalidContent)
      else Ok(Some(RunCreated(snapshot.(version := 1))))
    case SaveRun(snapshot) =>
      if !SnapshotValid(snapshot) then Err(InvalidContent)
      else if snapshot.id !in store.runs then Err(RunNotFound)
      else if snapshot.version != store.runs[snapshot.id].version
        then Err(VersionConflict(store.runs[snapshot.id].version))
      else if snapshot.workflowId !in store.workflows then Err(WorkflowNotFound)
      else if !RunAccepted(store, snapshot) then Err(InvalidContent)
      else Ok(Some(RunSaved(snapshot.(version := snapshot.version + 1))))
    case CreateProject(user, project, membership, event) =>
      if !CreationValid(user, project, membership, event) then Err(InvalidContent)
      else if project.id in store.projects then Err(ProjectExists)
      else if user.id in store.users && store.users[user.id].disabled then Err(UserDisabled)
      else if event.id in store.auditIds then Err(AuditExists)
      else Ok(Some(ProjectCreated(KnownUser(store, user), project, membership, event)))
    case SaveProject(project, event) =>
      if !ProjectValid(project) || !EventValid(event) then Err(InvalidContent)
      else if event.projectId != project.id then Err(Mismatch)
      else if project.id !in store.projects then Err(ProjectNotFound)
      else if store.projects[project.id].createdAt != project.createdAt
           || store.projects[project.id].createdBy != project.createdBy
      then Err(CreatorChanged)
      else if event.id in store.auditIds then Err(AuditExists)
      else Ok(Some(ProjectSaved(project, event)))
    case PutMembership(user, membership, event) =>
      if !UserValid(user) || !MembershipValid(membership) || !EventValid(event) then Err(InvalidContent)
      else if membership.userId != user.id || event.projectId != membership.projectId then Err(Mismatch)
      else if membership.projectId !in store.projects then Err(ProjectNotFound)
      else if user.id in store.users && store.users[user.id].disabled then Err(UserDisabled)
      else if IsMember(store, membership.projectId, membership.userId)
              && membership.updatedAt < store.memberships[membership.projectId][membership.userId].updatedAt
                 then Err(TimeMovedBack)
      else if event.id in store.auditIds then Err(AuditExists)
      else Ok(Some(MembershipPut(KnownUser(store, user), KnownMembership(store, membership), event)))
    case SaveOwnedWorkflow(definition, ownership) =>
      if !ValidDefinition(definition) || !OwnershipValid(ownership) then Err(InvalidContent)
      else if ownership.workflowId != definition.id then Err(Mismatch)
      else if ownership.projectId !in store.projects then Err(ProjectNotFound)
      else if !IsMember(store, ownership.projectId, ownership.ownerUserId) then Err(NotMember)
      else if ownership.ownerUserId in store.users && store.users[ownership.ownerUserId].disabled then Err(UserDisabled)
      else if definition.id in store.workflows && store.workflows[definition.id] != definition
        then Err(WorkflowConflict)
      else if definition.id in store.ownerships then
        if store.ownerships[definition.id] == ownership then Ok(None) else Err(OwnershipConflict)
      else Ok(Some(OwnedWorkflowSaved(definition, ownership)))
  }

  // ------------------------------------------------------------------
  // What a record does to the tables

  function WithUser(store: Store, user: User): Store {
    if user.id in store.users then store else store.(users := store.users[user.id := user])
  }

  function WithMembership(store: Store, m: Membership): Store {
    var members := if m.projectId in store.memberships then store.memberships[m.projectId] else map[];
    store.(memberships := store.memberships[m.projectId := members[m.userId := m]])
  }

  function WithEvent(store: Store, e: AuditEvent): Store {
    var events := if e.projectId in store.auditEvents then store.auditEvents[e.projectId] else [];
    store.(auditEvents := store.auditEvents[e.projectId := events + [e]], auditIds := store.auditIds + {e.id})
  }

  /** The tables after a record that is accepted. */
  function Applied(store: Store, record: Record): Store {
    match record
    case WorkflowSaved(definition) => store.(workflows := store.workflows[definition.id := definition])
    case RunCreated(run) => store.(runs := store.runs[run.id := run])
    case RunSaved(run) => store.(runs := store.runs[run.id := run])
    case ProjectCreated(user, project, membership, event) =>
      var s := WithUser(store, user);
      WithEvent(WithMembership(s.(projects := s.projects[project.id := project]), membership), event)
    case ProjectSaved(project, event) => WithEvent(store.(projects := store.projects[project.id := project]), event)
    case MembershipPut(user, membership, event) => WithEvent(WithMembership(WithUser(store, user), membership), event)
    case OwnedWorkflowSaved(definition, ownership) =>
      store.(workflows := store.workflows[definition.id := definition],
             ownerships := store.ownerships[ownership.workflowId := ownership])
  }

  /** Why a record of the security model is refused: audit events are valid and new, and a user's disabled state is
      fixed. */
  function SecurityFault(store: Store, user: Option<User>, event: AuditEvent): Option<StoreError> {
    if !EventValid(event) then Some(InvalidContent)
    else if event.id in store.auditIds then Some(AuditExists)
    else if user.Some? && user.value.id in store.users && store.users[user.value.id].disabled != user.value.disabled
      then Some(DisabledChanged)
    else None
  }

  /** Journals from before versions existed carry zero; replay numbers them in record order. */
  function Versioned(store: Store, run: RunSnapshot): RunSnapshot {
    if run.version != 0 then run
    else run.(version := if run.id in store.runs then store.runs[run.id].version + 1 else 1)
  }

  function Checked(store: Store, record: Record, fault: Option<StoreError>): Result<Store, StoreError> {
    if fault.Some? then Err(fault.value) else Ok(Applied(store, record))
  }

  /** Replaying one record: checked again as if it could be anything, then applied. */
  ghost function Replayed(store: Store, record: Record): Result<Store, StoreError> {
    match record
    case WorkflowSaved(definition) =>
      if !ValidDefinition(definition) then Err(InvalidContent)
      else if definition.id in store.workflows && store.workflows[definition.id] != definition
        then Err(WorkflowConflict)
      else Ok(Applied(store, record))
    case RunCreated(raw) =>
      var run := Versioned(store, raw);
      if !SnapshotValid(run) then Err(InvalidContent)
      else if !RunAccepted(store, run) then Err(InvalidContent)
      else if run.id in store.runs then Err(RunExists)
      else if run.version != 1 then Err(BadVersion)
      else Ok(Applied(store, RunCreated(run)))
    case RunSaved(raw) =>
      var run := Versioned(store, raw);
      if !SnapshotValid(run) then Err(InvalidContent)
      else if !RunAccepted(store, run) then Err(InvalidContent)
      else if run.id !in store.runs then Err(RunNotFound)
      else if run.version != store.runs[run.id].version + 1 then Err(BadVersion)
      else Ok(Applied(store, RunSaved(run)))
    case ProjectCreated(user, project, membership, event) =>
      if !CreationValid(user, project, membership, event) then Err(InvalidContent)
      else if project.id in store.projects then Err(ProjectExists)
      else Checked(store, record, SecurityFault(store, Some(user), event))
    case ProjectSaved(project, event) =>
      if !ProjectValid(project) then Err(InvalidContent)
      else if project.id !in store.projects then Err(ProjectNotFound)
      else if event.projectId != project.id then Err(Mismatch)
      else Checked(store, record, SecurityFault(store, None, event))
    case MembershipPut(user, membership, event) =>
      if !UserValid(user) || !MembershipValid(membership) then Err(InvalidContent)
      else if membership.userId != user.id || event.projectId != membership.projectId then Err(Mismatch)
      else if membership.projectId !in store.projects then Err(ProjectNotFound)
      else Checked(store, record, SecurityFault(store, Some(user), event))
    case OwnedWorkflowSaved(definition, ownership) =>
      if !ValidDefinition(definition) || !OwnershipValid(ownership) then Err(InvalidContent)
      else if ownership.workflowId != definition.id then Err(Mismatch)
      else if ownership.projectId !in store.projects then Err(ProjectNotFound)
      else if !IsMember(store, ownership.projectId, ownership.ownerUserId) then Err(NotMember)
      else if definition.id in store.workflows && store.workflows[definition.id] != definition
        then Err(WorkflowConflict)
      else if definition.id in store.ownerships && store.ownerships[definition.id] != ownership
        then Err(OwnershipConflict)
      else Ok(Applied(store, record))
  }

  // ------------------------------------------------------------------
  // Records of well-formed texts

  predicate AllUtf8(texts: seq<Text>) {
    forall i :: 0 <= i < |texts| ==> Utf8(texts[i])
  }

  predicate DefinitionUtf8(d: WorkflowDefinition) {
    Utf8(d.id) && forall i :: 0 <= i < |d.tasks| ==>
      var t := d.tasks[i]; Utf8(t.id) && Utf8(t.name) && Utf8(t.handler) && Utf8(t.input) && AllUtf8(t.dependencies)
  }

  predicate TaskUtf8(t: TaskRun) {
    && Utf8(t.taskId) && Utf8(t.taskRunId) && Utf8(t.output) && Utf8(t.error) && Utf8(t.currentAttemptId)
    && (t.lease.Some? ==> Utf8(t.lease.value.workerId) && Utf8(t.lease.value.taskRunId)
                          && Utf8(t.lease.value.attemptId))
  }

  predicate RunUtf8(run: RunSnapshot) {
    && Utf8(run.id) && Utf8(run.workflowId)
    && (forall i :: 0 <= i < |run.tasks| ==> TaskUtf8(run.tasks[i]))
    && forall i :: 0 <= i < |run.workers| ==> Utf8(run.workers[i].workerId)
  }

  predicate UserUtf8(u: User) { Utf8(u.id) && Utf8(u.displayName) }

  predicate ProjectUtf8(p: Project) { Utf8(p.id) && Utf8(p.name) && Utf8(p.createdBy) }

  predicate MembershipUtf8(m: Membership) {
    Utf8(m.projectId) && Utf8(m.userId) && (m.role.OtherRole? ==> Utf8(m.role.name))
  }

  predicate OwnershipUtf8(o: Ownership) { Utf8(o.workflowId) && Utf8(o.projectId) && Utf8(o.ownerUserId) }

  predicate EventUtf8(e: AuditEvent) {
    && Utf8(e.id) && Utf8(e.projectId) && Utf8(e.actorUserId) && Utf8(e.action) && Utf8(e.resourceType)
       && Utf8(e.resourceId)
    && forall k :: k in e.metadata ==> Utf8(k) && Utf8(e.metadata[k])
  }

  predicate RecordUtf8(record: Record) {
    match record
    case WorkflowSaved(definition) => DefinitionUtf8(definition)
    case RunCreated(run) => RunUtf8(run)
    case RunSaved(run) => RunUtf8(run)
    case ProjectCreated(user, project, membership, event) =>
      UserUtf8(user) && ProjectUtf8(project) && MembershipUtf8(membership) && EventUtf8(event)
    case ProjectSaved(project, event) => ProjectUtf8(project) && EventUtf8(event)
    case MembershipPut(user, membership, event) => UserUtf8(user) && MembershipUtf8(membership) && EventUtf8(event)
    case OwnedWorkflowSaved(definition, ownership) => DefinitionUtf8(definition) && OwnershipUtf8(ownership)
  }

  predicate RecordsUtf8(records: seq<Record>) {
    forall i :: 0 <= i < |records| ==> RecordUtf8(records[i])
  }

  // ------------------------------------------------------------------
  // The journal file

  const NEWLINE: byte := 10

  // JSON with a checksum. What decodes to nothing is a line whose checksum, version, operation or fields are wrong.
  datatype Codec = Codec(encode: Record -> seq<byte>, decode: seq<byte> -> Option<Record>)

  /** A line holds no newline, a record of well-formed texts is read back as it was written, and whatever is read is
      well-formed: JSON has no other strings. */
  ghost predicate CodecOk(codec: Codec) {
    && (forall r :: NEWLINE !in codec.encode(r) && (RecordUtf8(r) ==> codec.decode(codec.encode(r)) == Some(r)))
    && forall line :: codec.decode(line).Some? ==> RecordUtf8(codec.decode(line).value)
  }

  function Line(codec: Codec, record: Record): seq<byte> {
    codec.encode(record) + [NEWLINE]
  }

  /** The bytes of a journal of records. */
  function File(codec: Codec, records: seq<Record>): seq<byte> {
    if records == [] then [] else File(codec, records[..|records| - 1]) + Line(codec, records[|records| - 1])
  }

  /** The tables after a sequence of records. */
  function Tables(records: seq<Record>): Store {
    if records == [] then EMPTY_STORE else Applied(Tables(records[..|records| - 1]), records[|records| - 1])
  }

  /** Position of the first newline, or the length if there is none. */
  function NewlineAt(bytes: seq<byte>): (k: nat)
    ensures k <= |bytes| && NEWLINE !in bytes[..k] && (k < |bytes| ==> bytes[k] == NEWLINE)
  {
    if bytes == [] || bytes[0] == NEWLINE then 0
    else
      var k := 1 + NewlineAt(bytes[1..]);
      assert bytes[..k] == [bytes[0]] + bytes[1..][..k - 1];
      k
  }

  // What opening yields: the tables and the number of bytes that hold complete records.
  datatype Opened = Opened(store: Store, committed: nat)

  /** Read line by line; what follows the last newline is left over. */
  ghost function ReplayBytes(codec: Codec, store: Store, bytes: seq<byte>): Result<Opened, StoreError>
    decreases |bytes|
  {
    var k := NewlineAt(bytes);
    if k == |bytes| then Ok(Opened(store, 0))
    else
      match codec.decode(bytes[..k])
      case None => Err(Undecodable)
      case Some(record) =>
        match Replayed(store, record)
        case Err(e) => Err(e)
        case Ok(next) =>
          match ReplayBytes(codec, next, bytes[k + 1..])
          case Err(e) => Err(e)
          case Ok(rest) => Ok(Opened(rest.store, k + 1 + rest.committed))
  }
}
