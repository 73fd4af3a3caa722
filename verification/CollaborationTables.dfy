/**
 The tables of the collaboration store and its queries.

 A `Database` is the content of every table between two calls. Fresh identifiers, secrets and
 the clock come in with each call as a `Tick`.
 */
module CollaborationTables {
  import opened Prelude
  import opened SyncMutations
  import HashChain

  datatype Role = Viewer | Member | Admin | Owner | OtherRole(text: string) {
    function Rank(): int {
      match this
      case Viewer => 0
      case Member => 1
      case Admin => 2
      case Owner => 3
      case OtherRole(_) => -1
    }
  }

  datatype Access = View | Edit | Manage | OtherAccess(text: string) {
    function Rank(): int {
      match this
      case View => 0
      case Edit => 1
      case Manage => 2
      case OtherAccess(_) => -1
    }
  }

  datatype SecretDigest = SecretDigest(secret: string)

  datatype TeamRow = TeamRow(name: string, createdBy: Id, createdAt: int)
  datatype MemberRow = MemberRow(role: Role, joinedAt: int)
  datatype InvitationRow = InvitationRow(team: Id, role: Role, digest: SecretDigest, createdBy: Id, createdAt: int,
                                         expiresAt: int, accepted: Option<(Id, int)>, revokedAt: Option<int>)
  datatype ProjectRow = ProjectRow(team: Id, name: string, createdBy: Id, createdAt: int)
  datatype ShareRow = ShareRow(access: Access, grantedBy: Id, grantedAt: int)
  datatype TokenRow = TokenRow(team: Id, principal: Id, digest: SecretDigest, caption: string, createdAt: int,
                               expiresAt: int, revokedAt: Option<int>)
  datatype ReplicaRow = ReplicaRow(principal: Id, caption: string, registeredAt: int, lastSequence: int,
                                   lastHash: Option<HashText>)
  datatype StateRow = StateRow(value: Option<Json>, tombstone: bool, revision: int, hash: HashText, updatedAt: Stamp)
  datatype SyncEvent = SyncEvent(ordinal: nat, mutationId: Id, team: Id, project: Id, principal: Id, device: Id,
                                 sequence: int, baseRevision: int, resultingRevision: int, key: string,
                                 operation: Operation, value: Option<Json>, previous: Option<HashText>, hash: HashText,
                                 createdAt: Stamp)
  datatype Resolution = Resolution(at: int, hash: HashText)
  datatype ConflictRow = ConflictRow(project: Id, key: string, mutationId: Id, clientBase: int, clientHash: HashText,
                                     clientOperation: Operation, clientValue: Option<Json>, serverRevision: int,
                                     serverHash: Option<HashText>, createdAt: int, resolution: Option<Resolution>)

  /** What an audit row is about: its event type, object and details in one value. */
  datatype AuditBody =
    | TeamCreated(name: string)
    | RoleChanged(target: Id, was: Role, role: Role)
    | MemberRemoved(target: Id, was: Role, revokedTokens: int, removedReplicas: int, removedShares: int)
    | InvitationCreated(invitation: Id, role: Role, expiresAt: int)
    | InvitationAccepted(invitation: Id, role: Role)
    | InvitationRevoked(invitation: Id)
    | ProjectCreated(project: Id, name: string)
    | ShareGranted(project: Id, target: Id, access: Access)
    | ShareRevoked(project: Id, target: Id)
    | TokenIssued(token: Id, caption: string, expiresAt: int)
    | TokenRevoked(token: Id)
    | ReplicaRegistered(device: Id, caption: string)
    | ConflictDetected(conflict: Id, project: Id, key: string, clientBase: int, serverRevision: int)
    | ConflictResolved(conflict: Id, hash: HashText)
    | MutationAccepted(project: Id, mutationId: Id, device: Id, sequence: int, key: string, operation: Operation,
                       revision: int, hash: HashText)

  datatype AuditCore = AuditCore(eventId: Id, team: Id, actor: Id, body: AuditBody, at: int)

  type AuditRow = HashChain.Row<AuditCore>

  datatype Database = Database(teams: map<Id, TeamRow>, members: map<(Id, Id), MemberRow>,
                               invitations: map<Id, InvitationRow>, invitationByDigest: map<SecretDigest, Id>,
                               projects: map<Id, ProjectRow>, shares: map<(Id, Id), ShareRow>,
                               tokens: map<Id, TokenRow>, tokenByDigest: map<SecretDigest, Id>,
                               replicas: map<(Id, Id), ReplicaRow>, state: map<(Id, string), StateRow>,
                               events: seq<SyncEvent>, conflicts: map<Id, ConflictRow>, audit: seq<AuditRow>)

  const EMPTY := Database(map[], map[], map[], map[], map[], map[], map[], map[], map[], map[], [], map[], [])

  /** What a call draws from outside: the clock, a fresh record id, a fresh secret and a fresh audit event id. */
  datatype Tick = Tick(now: int, freshId: Id, secret: string, eventId: Id)

  datatype Error =
    | NotFound | Denied | Conflict(conflict: Id) | Integrity | InvitationInvalid | AccessTokenInvalid
    | Storage  // a uniqueness constraint of the database: the transaction is rolled back

  // ---------- queries ----------

  /** The rows of one team's audit log, oldest first. */
  function TeamRows(audit: seq<AuditRow>, team: Id): seq<AuditRow> {
    if audit == [] then []
    else
      var rest := TeamRows(audit[..|audit| - 1], team);
      var last := audit[|audit| - 1];
      if last.core.team == team then rest + [last] else rest
  }

  predicate EventIdUsed(audit: seq<AuditRow>, eventId: Id) {
    exists i | 0 <= i < |audit| :: audit[i].core.eventId == eventId
  }

  function NextAuditRow(audit: seq<AuditRow>, team: Id, actor: Id, body: AuditBody, tick: Tick): AuditRow {
    HashChain.NextRow(TeamRows(audit, team), |audit| + 1, AuditCore(tick.eventId, team, actor, body, tick.now))
  }

  function GetMember(db: Database, team: Id, principal: Id): Result<MemberRow, Error> {
    if (team, principal) in db.members then Success(db.members[(team, principal)]) else Failure(Denied)
  }

  function RequireTeamRole(db: Database, team: Id, principal: Id, minimum: Role): Result<MemberRow, Error> {
    match GetMember(db, team, principal)
    case Failure(e) => Failure(e)
    case Success(m) => if m.role.Rank() < minimum.Rank() then Failure(Denied) else Success(m)
  }

  function Owners(db: Database, team: Id): set<Id> {
    set k | k in db.members && k.0 == team && db.members[k].role == Owner :: k.1
  }

  function LiveTokensOf(db: Database, team: Id, principal: Id): set<Id> {
    set k | k in db.tokens && db.tokens[k].team == team && db.tokens[k].principal == principal
            && db.tokens[k].revokedAt.None?
  }

  function ReplicasOf(db: Database, team: Id, principal: Id): set<(Id, Id)> {
    set k | k in db.replicas && k.0 == team && db.replicas[k].principal == principal
  }

  function SharesOf(db: Database, team: Id, principal: Id): set<(Id, Id)> {
    set k | k in db.shares && k.1 == principal && k.0 in db.projects && db.projects[k.0].team == team
  }

  function GetProject(db: Database, project: Id): Result<ProjectRow, Error> {
    if project in db.projects then Success(db.projects[project]) else Failure(NotFound)
  }

  /** Admins and owners manage every project of their team; others have what their share says, if any. */
  function EffectiveAccess(db: Database, project: Id, principal: Id): Result<Option<Access>, Error> {
    match GetProject(db, project)
    case Failure(e) => Failure(e)
    case Success(p) =>
      match GetMember(db, p.team, principal)
      case Failure(e) => Failure(e)
      case Success(m) =>
        if m.role.Rank() >= Admin.Rank() then Success(Some(Manage))
        else if (project, principal) in db.shares then Success(Some(db.shares[(project, principal)].access))
        else Success(None)
  }

  function RequireAccess(db: Database, project: Id, principal: Id, minimum: Access): (r: Result<Access, Error>)
    ensures r.Failure? ==> r.error == NotFound || r.error == Denied
  {
    match EffectiveAccess(db, project, principal)
    case Failure(e) => Failure(e)
    case Success(a) =>
      if a.None? || a.value.Rank() < minimum.Rank() then Failure(Denied) else Success(a.value)
  }

  function GetReplica(db: Database, team: Id, device: Id): Result<ReplicaRow, Error> {
    if (team, device) in db.replicas then Success(db.replicas[(team, device)]) else Failure(NotFound)
  }

  function FindMutation(events: seq<SyncEvent>, mutationId: Id): (r: Option<SyncEvent>)
    ensures r.Some? ==> r.value in events && r.value.mutationId == mutationId
    ensures r.None? ==> forall e | e in events :: e.mutationId != mutationId
  {
    if events == [] then None
    else if events[|events| - 1].mutationId == mutationId then Some(events[|events| - 1])
    else FindMutation(events[..|events| - 1], mutationId)
  }

  /** A table without the rows under some keys. */
  function Without<K, V>(table: map<K, V>, keys: set<K>): map<K, V> {
    table - keys
  }

  /** An identifier the caller chose, or the fresh one when it is missing or empty. */
  function ChosenId(chosen: Option<Id>, freshId: Id): Id {
    if chosen.None? || chosen.value == "" then freshId else chosen.value
  }

  function ProjectName(raw: string, id: Id): string {
    if Strip(raw) == "" then id else Strip(raw)
  }

  function Label(raw: string, default: string): string {
    var cut := if |raw| > 120 then raw[..120] else raw;
    if cut == "" then default else cut
  }

  function ServerRevision(state: map<(Id, string), StateRow>, project: Id, key: string): int {
    if (project, key) in state then state[(project, key)].revision else 0
  }

  function ServerHash(state: map<(Id, string), StateRow>, project: Id, key: string): Option<HashText> {
    if (project, key) in state then Some(state[(project, key)].hash) else None
  }

  function StoredValue(operation: Operation, value: Json): Option<Json> {
    if operation == DeleteKey then None else Some(value)
  }
}
