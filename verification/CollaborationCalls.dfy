/**
 The mutating calls of the collaboration store as functions from tables to tables.

 Every call is one atomic step: it either commits all its changes together with one audit row
 or is refused and changes nothing. Two calls differ: a stale push commits a conflict row and
 still reports an error, and resolving a conflict commits twice.
 */
module CollaborationCalls {
  import opened Prelude
  import opened SyncMutations
  import opened CollaborationTables
  import HashChain

  datatype PushReceipt = PushReceipt(idempotent: bool, ordinal: nat, resultingRevision: int, hash: HashText)

  datatype Reply =
    | Created(id: Id)
    | MemberIs(member: MemberRow)
    | Removed(tokens: int, replicas: int, shares: int)
    | Done
    | Pushed(receipt: PushReceipt)

  datatype Outcome = Outcome(db: Database, result: Result<Reply, Error>)

  /** The audit log is unchanged or has one more row, chained to the newest row of the same team. */
  predicate Grown(was: seq<AuditRow>, now: seq<AuditRow>) {
    || now == was
    || (&& |now| == |was| + 1
        && now[..|was|] == was
        && var core := now[|was|].core;
           now[|was|] == HashChain.NextRow(TeamRows(was, core.team), |was| + 1, core))
  }

  /** Neither the registration of a device nor an accepted mutation. */
  predicate Quiet(body: AuditBody) {
    !body.MutationAccepted? && !body.ReplicaRegistered?
  }

  /** The log's length is unchanged, or its one new row says nothing about a device's events. */
  predicate GrownQuietly(was: seq<AuditRow>, now: seq<AuditRow>) {
    |now| == |was| || (|now| == |was| + 1 && Quiet(now[|was|].core.body))
  }

  predicate SyncTablesKept(before: Database, after: Database) {
    after.events == before.events && after.state == before.state && after.conflicts == before.conflicts
    && after.replicas == before.replicas
  }

  function Refuse(db: Database, error: Error): (r: Outcome)
    ensures Grown(db.audit, r.db.audit) && GrownQuietly(db.audit, r.db.audit) && SyncTablesKept(db, r.db)
  {
    Outcome(db, Failure(error))
  }

  /** Ends a transaction that changed `before` into `after` by appending its audit row, or rolls it back. */
  function Commit(before: Database, after: Database, team: Id, actor: Id, body: AuditBody, tick: Tick, reply: Reply)
    : (r: Outcome)
    ensures Grown(before.audit, r.db.audit)
    ensures Quiet(body) ==> GrownQuietly(before.audit, r.db.audit)
    ensures SyncTablesKept(before, after) ==> SyncTablesKept(before, r.db)
  {
    if EventIdUsed(before.audit, tick.eventId) then Refuse(before, Storage)
    else Outcome(after.(audit := before.audit + [NextAuditRow(before.audit, team, actor, body, tick)]), Success(reply))
  }

  function CreateTeam(db: Database, name: string, owner: Id, team: Option<Id>, tick: Tick): (r: Outcome)
    ensures r.db == db.(teams := r.db.teams, members := r.db.members, audit := r.db.audit)
    ensures SyncTablesKept(db, r.db)
    ensures Grown(db.audit, r.db.audit) && GrownQuietly(db.audit, r.db.audit)
  {
    var name', owner' := Strip(name), Strip(owner);
    if name' == "" || owner' == "" then Refuse(db, Integrity)
    else
      var id := ChosenId(team, tick.freshId);
      if id in db.teams || (id, owner') in db.members then Refuse(db, Integrity)
      else
        Commit(db, db.(teams := db.teams[id := TeamRow(name', owner', tick.now)],
                       members := db.members[(id, owner') := MemberRow(Owner, tick.now)]),
               id, owner', TeamCreated(name'), tick, Created(id))
  }

  /** The transaction of a role change. */
  function ChangeRole(db: Database, team: Id, principal: Id, target: MemberRow, role: Role, actor: Id, tick: Tick)
    : (r: Outcome)
    ensures r.db == db.(members := r.db.members, audit := r.db.audit)
    ensures SyncTablesKept(db, r.db)
    ensures Grown(db.audit, r.db.audit) && GrownQuietly(db.audit, r.db.audit)
  {
    hide Grown, GrownQuietly, EventIdUsed, NextAuditRow, TeamRows;
    var row := target.(role := role);
    Commit(db, db.(members := db.members[(team, principal) := row]),
           team, actor, RoleChanged(principal, target.role, role), tick, MemberIs(row))
  }

  function SetMemberRole(db: Database, team: Id, principal: Id, role: Role, actor: Id, tick: Tick): (r: Outcome)
    ensures r.db == db.(members := r.db.members, audit := r.db.audit)
    ensures SyncTablesKept(db, r.db)
    ensures Grown(db.audit, r.db.audit) && GrownQuietly(db.audit, r.db.audit)
  {
    hide Grown, GrownQuietly, TeamRows;
    if role.OtherRole? then Refuse(db, Integrity)
    else match RequireTeamRole(db, team, actor, Admin)
    case Failure(e) => Refuse(db, e)
    case Success(actorMember) =>
      match GetMember(db, team, principal)
      case Failure(e) => Refuse(db, e)
      case Success(target) =>
        if target.role == Owner && role != Owner && actorMember.role != Owner then Refuse(db, Denied)
        else if target.role == Owner && role != Owner && |Owners(db, team)| <= 1 then Refuse(db, Denied)
        else if role == Owner && actorMember.role != Owner then Refuse(db, Denied)
        else
          ChangeRole(db, team, principal, target, role, actor, tick)
  }

  function RevokeAll(tokens: map<Id, TokenRow>, revoked: set<Id>, now: int): map<Id, TokenRow> {
    map k | k in tokens :: if k in revoked then tokens[k].(revokedAt := Some(now)) else tokens[k]
  }

  /** The transaction of a removal: audit row, revoked tokens, and deleted replicas, shares and membership. */
  function Expel(db: Database, team: Id, principal: Id, was: Role, actor: Id, tick: Tick): (r: Outcome)
    ensures r.db
            == db.(tokens := r.db.tokens, replicas := r.db.replicas, shares := r.db.shares, members := r.db.members,
                   audit := r.db.audit)
    ensures Grown(db.audit, r.db.audit) && GrownQuietly(db.audit, r.db.audit)
  {
    hide Grown, GrownQuietly, EventIdUsed, NextAuditRow, TeamRows;
    var tokens, replicas, shares :=
      LiveTokensOf(db, team, principal), ReplicasOf(db, team, principal), SharesOf(db, team, principal);
    Commit(db, db.(tokens := RevokeAll(db.tokens, tokens, tick.now),
                   replicas := Without(db.replicas, replicas),
                   shares := Without(db.shares, shares),
                   members := Without(db.members, {(team, principal)})),
           team, actor, MemberRemoved(principal, was, |tokens|, |replicas|, |shares|), tick,
           Removed(|tokens|, |replicas|, |shares|))
  }

  function RemoveMember(db: Database, team: Id, principal: Id, actor: Id, tick: Tick): (r: Outcome)
    ensures r.db
            == db.(tokens := r.db.tokens, replicas := r.db.replicas, shares := r.db.shares, members := r.db.members,
                   audit := r.db.audit)
    ensures Grown(db.audit, r.db.audit) && GrownQuietly(db.audit, r.db.audit)
  {
    hide Grown, GrownQuietly, TeamRows;
    match RequireTeamRole(db, team, actor, Admin)
    case Failure(e) => Refuse(db, e)
    case Success(actorMember) =>
      match GetMember(db, team, principal)
      case Failure(e) => Refuse(db, e)
      case Success(target) =>
        if target.role == Owner && actorMember.role != Owner then Refuse(db, Denied)
        else if target.role == Owner && |Owners(db, team)| <= 1 then Refuse(db, Denied)
        else
          Expel(db, team, principal, target.role, actor, tick)
  }

  function CreateInvitation(db: Database, team: Id, role: Role, createdBy: Id, hours: int, tick: Tick): (r: Outcome)
    ensures r.db
            == db.(invitations := r.db.invitations, invitationByDigest := r.db.invitationByDigest, audit := r.db.audit)
    ensures SyncTablesKept(db, r.db)
    ensures Grown(db.audit, r.db.audit) && GrownQuietly(db.audit, r.db.audit)
  {
    hide Grown, GrownQuietly, TeamRows;
    if role.OtherRole? || role == Owner then Refuse(db, Integrity)
    else match RequireTeamRole(db, team, createdBy, Admin)
    case Failure(e) => Refuse(db, e)
    case Success(_) =>
      if !(1 <= hours <= 24 * 30) then Refuse(db, Integrity)
      else if tick.freshId in db.invitations || SecretDigest(tick.secret) in db.invitationByDigest then
        Refuse(db, Storage)
      else
        var expires := tick.now + hours * 3600;
        var row := InvitationRow(team, role, SecretDigest(tick.secret), createdBy, tick.now, expires, None, None);
        Commit(db, db.(invitations := db.invitations[tick.freshId := row],
                       invitationByDigest := db.invitationByDigest[row.digest := tick.freshId]),
               team, createdBy, InvitationCreated(tick.freshId, role, expires), tick, Created(tick.freshId))
  }

  function AcceptInvitation(db: Database, secret: string, principal: Id, tick: Tick): (r: Outcome)
    ensures r.db == db.(members := r.db.members, invitations := r.db.invitations, audit := r.db.audit)
    ensures SyncTablesKept(db, r.db)
    ensures Grown(db.audit, r.db.audit) && GrownQuietly(db.audit, r.db.audit)
  {
    hide Grown, GrownQuietly, TeamRows;
    var digest := SecretDigest(secret);
    if digest !in db.invitationByDigest || db.invitationByDigest[digest] !in db.invitations then
      Refuse(db, InvitationInvalid)
    else
      var id := db.invitationByDigest[digest];
      var row := db.invitations[id];
      if row.revokedAt.Some? || row.accepted.Some? || row.expiresAt <= tick.now then Refuse(db, InvitationInvalid)
      else if (row.team, principal) in db.members then Refuse(db, InvitationInvalid)
      else
        var member := MemberRow(row.role, tick.now);
        Commit(db, db.(members := db.members[(row.team, principal) := member],
                       invitations := db.invitations[id := row.(accepted := Some((principal, tick.now)))]),
               row.team, principal, InvitationAccepted(id, row.role), tick, MemberIs(member))
  }

  function RevokeInvitation(db: Database, invitation: Id, actor: Id, tick: Tick): (r: Outcome)
    ensures r.db == db.(invitations := r.db.invitations, audit := r.db.audit)
    ensures SyncTablesKept(db, r.db)
    ensures Grown(db.audit, r.db.audit) && GrownQuietly(db.audit, r.db.audit)
  {
    hide Grown, GrownQuietly, TeamRows;
    if invitation !in db.invitations then Refuse(db, NotFound)
    else
      var row := db.invitations[invitation];
      match RequireTeamRole(db, row.team, actor, Admin)
      case Failure(e) => Refuse(db, e)
      case Success(_) =>
        if row.accepted.Some? then Refuse(db, InvitationInvalid)
        else
          Commit(db, db.(invitations := db.invitations[invitation := row.(revokedAt := Some(tick.now))]),
                 row.team, actor, InvitationRevoked(invitation), tick, Done)
  }

  function CreateProject(db: Database, team: Id, name: string, createdBy: Id, project: Option<Id>, tick: Tick)
    : (r: Outcome)
    ensures r.db == db.(projects := r.db.projects, shares := r.db.shares, audit := r.db.audit)
    ensures SyncTablesKept(db, r.db)
    ensures Grown(db.audit, r.db.audit) && GrownQuietly(db.audit, r.db.audit)
  {
    hide Grown, GrownQuietly, TeamRows;
    match RequireTeamRole(db, team, createdBy, Member)
    case Failure(e) => Refuse(db, e)
    case Success(_) =>
      var id := ChosenId(project, tick.freshId);
      var name' := ProjectName(name, id);
      if id in db.projects || (id, createdBy) in db.shares then Refuse(db, Integrity)
      else
        Commit(db, db.(projects := db.projects[id := ProjectRow(team, name', createdBy, tick.now)],
                       shares := db.shares[(id, createdBy) := ShareRow(Manage, createdBy, tick.now)]),
               team, createdBy, ProjectCreated(id, name'), tick, Created(id))
  }

  function GrantProjectAccess(db: Database, project: Id, principal: Id, access: Access, grantedBy: Id, tick: Tick)
    : (r: Outcome)
    ensures r.db == db.(shares := r.db.shares, audit := r.db.audit)
    ensures SyncTablesKept(db, r.db)
    ensures Grown(db.audit, r.db.audit) && GrownQuietly(db.audit, r.db.audit)
  {
    hide Grown, GrownQuietly, TeamRows;
    if access.OtherAccess? then Refuse(db, Integrity)
    else match RequireAccess(db, project, grantedBy, Manage)
    case Failure(e) => Refuse(db, e)
    case Success(_) =>
      var team := db.projects[project].team;
      match GetMember(db, team, principal)
      case Failure(e) => Refuse(db, e)
      case Success(_) =>
        Commit(db, db.(shares := db.shares[(project, principal) := ShareRow(access, grantedBy, tick.now)]),
               team, grantedBy, ShareGranted(project, principal, access), tick, Done)
  }

  function RevokeProjectAccess(db: Database, project: Id, principal: Id, actor: Id, tick: Tick): (r: Outcome)
    ensures r.db == db.(shares := r.db.shares, audit := r.db.audit)
    ensures SyncTablesKept(db, r.db)
    ensures Grown(db.audit, r.db.audit) && GrownQuietly(db.audit, r.db.audit)
  {
    hide Grown, GrownQuietly, TeamRows;
    match RequireAccess(db, project, actor, Manage)
    case Failure(e) => Refuse(db, e)
    case Success(_) =>
      if principal == db.projects[project].createdBy then Refuse(db, Denied)
      else
        Commit(db, db.(shares := Without(db.shares, {(project, principal)})),
               db.projects[project].team, actor, ShareRevoked(project, principal), tick, Done)
  }

  function IssueAccessToken(db: Database, team: Id, principal: Id, caption: string, hours: int, tick: Tick)
    : (r: Outcome)
    ensures r.db == db.(tokens := r.db.tokens, tokenByDigest := r.db.tokenByDigest, audit := r.db.audit)
    ensures SyncTablesKept(db, r.db)
    ensures Grown(db.audit, r.db.audit) && GrownQuietly(db.audit, r.db.audit)
  {
    hide Grown, GrownQuietly, TeamRows;
    match GetMember(db, team, principal)
    case Failure(e) => Refuse(db, e)
    case Success(_) =>
      if !(1 <= hours <= 24 * 365) then Refuse(db, Integrity)
      else if tick.freshId in db.tokens || SecretDigest(tick.secret) in db.tokenByDigest then Refuse(db, Storage)
      else
        var row := TokenRow(team, principal, SecretDigest(tick.secret), Label(caption, "client"), tick.now,
                            tick.now + hours * 3600, None);
        Commit(db, db.(tokens := db.tokens[tick.freshId := row],
                       tokenByDigest := db.tokenByDigest[row.digest := tick.freshId]),
               team, principal, TokenIssued(tick.freshId, row.caption, row.expiresAt), tick, Created(tick.freshId))
  }

  predicate MayRevoke(db: Database, row: TokenRow, actor: Id) {
    actor == row.principal || RequireTeamRole(db, row.team, actor, Admin).Success?
  }

  function RevokeAccessToken(db: Database, token: Id, actor: Id, tick: Tick): (r: Outcome)
    ensures r.db == db.(tokens := r.db.tokens, audit := r.db.audit)
    ensures SyncTablesKept(db, r.db)
    ensures Grown(db.audit, r.db.audit) && GrownQuietly(db.audit, r.db.audit)
  {
    hide Grown, GrownQuietly, TeamRows;
    if token !in db.tokens then Refuse(db, NotFound)
    else
      var row := db.tokens[token];
      if !MayRevoke(db, row, actor) then Refuse(db, Denied)
      else
        Commit(db, db.(tokens := db.tokens[token := row.(revokedAt := Some(tick.now))]),
               row.team, actor, TokenRevoked(token), tick, Done)
  }

  function RegisterReplica(db: Database, team: Id, principal: Id, device: Option<Id>, caption: string, tick: Tick)
    : (r: Outcome)
    ensures r.db == db.(replicas := r.db.replicas, audit := r.db.audit)
    ensures Grown(db.audit, r.db.audit)
  {
    match GetMember(db, team, principal)
    case Failure(e) => Refuse(db, e)
    case Success(_) =>
      var id := ChosenId(device, tick.freshId);
      if (team, id) in db.replicas then Refuse(db, Integrity)
      else
        var row := ReplicaRow(principal, Label(caption, "device"), tick.now, 0, None);
        Commit(db, db.(replicas := db.replicas[(team, id) := row]),
               team, principal, ReplicaRegistered(id, row.caption), tick, Created(id))
  }

  // ---------- synchronization ----------

  /** The checks of a push before the log is consulted: identity, access and ownership of the device. */
  function Admit(db: Database, p: Payload, principal: Id): Result<ReplicaRow, Error> {
    match RequireAccess(db, p.projectId, principal, Edit)
    case Failure(e) => Failure(e)
    case Success(_) =>
      match GetReplica(db, db.projects[p.projectId].team, p.deviceId)
      case Failure(e) => Failure(e)
      case Success(replica) => if replica.principal != principal then Failure(Denied) else Success(replica)
  }

  function EventOf(db: Database, p: Payload, principal: Id): SyncEvent
    requires p.projectId in db.projects
  {
    SyncEvent(|db.events| + 1, p.mutationId, db.projects[p.projectId].team, p.projectId, principal, p.deviceId,
              p.sequence,
              p.baseRevision, ServerRevision(db.state, p.projectId, p.key) + 1, p.key, p.operation,
              StoredValue(p.operation, p.value), p.previous, Sha(p), p.createdAt)
  }

  function RowOf(e: SyncEvent): StateRow {
    StateRow(e.value, e.operation == DeleteKey, e.resultingRevision, e.hash, e.createdAt)
  }

  function AcceptedBody(e: SyncEvent): AuditBody {
    MutationAccepted(e.project, e.mutationId, e.device, e.sequence, e.key, e.operation, e.resultingRevision, e.hash)
  }

  function DetectConflict(db: Database, p: Payload, principal: Id, tick: Tick): (r: Outcome)
    requires p.projectId in db.projects
    ensures r.result.Failure?
    ensures r.db == db.(conflicts := r.db.conflicts, audit := r.db.audit)
    ensures Grown(db.audit, r.db.audit) && GrownQuietly(db.audit, r.db.audit)
  {
    hide Grown, GrownQuietly, EventIdUsed, NextAuditRow, TeamRows;
    var revision := ServerRevision(db.state, p.projectId, p.key);
    var row := ConflictRow(p.projectId, p.key, p.mutationId, p.baseRevision, Sha(p), p.operation,
                           StoredValue(p.operation, p.value), revision,
                           ServerHash(db.state, p.projectId, p.key), tick.now, None);
    if tick.freshId in db.conflicts then Refuse(db, Storage)
    else
      var committed :=
        Commit(db, db.(conflicts := db.conflicts[tick.freshId := row]), db.projects[p.projectId].team, principal,
                              ConflictDetected(tick.freshId, p.projectId, p.key, p.baseRevision, revision), tick, Done);
      if committed.result.Failure? then committed else Outcome(committed.db, Failure(Conflict(tick.freshId)))
  }

  function Accept(db: Database, p: Payload, principal: Id, replica: ReplicaRow, tick: Tick): (r: Outcome)
    requires p.projectId in db.projects
    ensures r.db == db.(events := r.db.events, state := r.db.state, replicas := r.db.replicas, audit := r.db.audit)
    ensures Grown(db.audit, r.db.audit)
  {
    var e := EventOf(db, p, principal);
    Commit(db, db.(events := db.events + [e],
                   state := db.state[(e.project, e.key) := RowOf(e)],
                   replicas :=
                     db.replicas[(e.team, e.device) := replica.(lastSequence := e.sequence, lastHash := Some(e.hash))]),
           e.team, principal, AcceptedBody(e), tick,
           Pushed(PushReceipt(false, e.ordinal, e.resultingRevision, e.hash)))
  }

  /** What an accepted push commits, in one place for the proofs that follow. */
  lemma AcceptCommits(db: Database, p: Payload, principal: Id, replica: ReplicaRow, tick: Tick)
    requires p.projectId in db.projects
    ensures var e := EventOf(db, p, principal);
            var after := Accept(db, p, principal, replica, tick).db;
            after == db ||
            (&& after.events == db.events + [e]
             && after.state == db.state[(e.project, e.key) := RowOf(e)]
             && after.replicas
                == db.replicas[(e.team, e.device) := replica.(lastSequence := e.sequence, lastHash := Some(e.hash))]
             && after.audit == db.audit + [NextAuditRow(db.audit, e.team, principal, AcceptedBody(e), tick)])
  {
    hide Grown, GrownQuietly, EventIdUsed, NextAuditRow, TeamRows, EventOf, RowOf, AcceptedBody;
  }

  function ApplyPayload(db: Database, p: Payload, principal: Id, tick: Tick): (r: Outcome)
    ensures r.result.Success? ==> r.result.value.Pushed? && p.projectId in db.projects && r.db.projects == db.projects
    ensures r.db
            == db.(events := r.db.events, state := r.db.state, replicas := r.db.replicas, conflicts := r.db.conflicts,
                   audit := r.db.audit)
    ensures Grown(db.audit, r.db.audit)
  {
    match Admit(db, p, principal)
    case Failure(e) => Refuse(db, e)
    case Success(replica) =>
      match FindMutation(db.events, p.mutationId)
      case Some(existing) =>
        if existing.hash != Sha(p) then Refuse(db, Integrity)
        else Outcome(db,
                     Success(Pushed(PushReceipt(true, existing.ordinal, existing.resultingRevision, existing.hash))))
      case None =>
        if p.sequence != replica.lastSequence + 1 then Refuse(db, Integrity)
        else if Truthy(p.previous) != Truthy(replica.lastHash) then Refuse(db, Integrity)
        else if p.baseRevision != ServerRevision(db.state, p.projectId, p.key) then
          DetectConflict(db, p, principal, tick)
        else Accept(db, p, principal, replica, tick)
  }

  function ApplyMutation(db: Database, m: SyncMutation, principal: Id, tick: Tick): (r: Outcome)
    ensures r.result.Success? ==> r.result.value.Pushed? && m.projectId in r.db.projects
    ensures r.db
            == db.(events := r.db.events, state := r.db.state, replicas := r.db.replicas, conflicts := r.db.conflicts,
                   audit := r.db.audit)
    ensures Grown(db.audit, r.db.audit)
  {
    match Normalized(m, tick.now)
    case Failure(_) => Refuse(db, Integrity)
    case Success(p) => ApplyPayload(db, p, principal, tick)
  }

  /** The second transaction of `resolve_conflict`, with an audit event id of its own. */
  function CloseConflict(db: Database, conflict: Id, row: ConflictRow, receipt: PushReceipt, principal: Id, tick: Tick)
    : (r: Outcome)
    requires row.project in db.projects
    ensures r.db == db.(conflicts := r.db.conflicts, audit := r.db.audit)
    ensures Grown(db.audit, r.db.audit) && GrownQuietly(db.audit, r.db.audit)
  {
    hide Grown, GrownQuietly, EventIdUsed, NextAuditRow, TeamRows;
    Commit(db, db.(conflicts := db.conflicts[conflict := row.(resolution := Some(Resolution(tick.now, receipt.hash)))]),
           db.projects[row.project].team, principal, ConflictResolved(conflict, receipt.hash), tick, Pushed(receipt))
  }

  function ResolveConflict(db: Database, conflict: Id, m: SyncMutation, principal: Id, tick: Tick, closing: Tick)
    : (r: Outcome)
    ensures r.db
            == db.(events := r.db.events, state := r.db.state, replicas := r.db.replicas, conflicts := r.db.conflicts,
                   audit := r.db.audit)
  {
    if conflict !in db.conflicts then Refuse(db, NotFound)
    else
      var row := db.conflicts[conflict];
      if row.resolution.Some? then Refuse(db, Conflict(conflict))
      else if m.projectId != row.project || m.key != row.key then Refuse(db, Integrity)
      else
        var pushed := ApplyMutation(db, m, principal, tick);
        if pushed.result.Failure? then pushed
        else CloseConflict(pushed.db, conflict, row, pushed.result.value.receipt, principal, closing)
  }

  // ---------- runs ----------

  datatype Call =
    | CallCreateTeam(name: string, owner: Id, newTeam: Option<Id>)
    | CallSetMemberRole(team: Id, principal: Id, role: Role, actor: Id)
    | CallRemoveMember(team: Id, principal: Id, actor: Id)
    | CallCreateInvitation(team: Id, role: Role, actor: Id, hours: int)
    | CallAcceptInvitation(secret: string, principal: Id)
    | CallRevokeInvitation(invitation: Id, actor: Id)
    | CallCreateProject(team: Id, name: string, actor: Id, newProject: Option<Id>)
    | CallGrantProjectAccess(project: Id, principal: Id, access: Access, actor: Id)
    | CallRevokeProjectAccess(project: Id, principal: Id, actor: Id)
    | CallIssueAccessToken(team: Id, principal: Id, caption: string, hours: int)
    | CallRevokeAccessToken(token: Id, actor: Id)
    | CallRegisterReplica(team: Id, principal: Id, device: Option<Id>, caption: string)
    | CallApplyMutation(mutation: SyncMutation, principal: Id)
    | CallResolveConflict(conflict: Id, mutation: SyncMutation, principal: Id, closing: Tick)

  datatype Timed = Timed(call: Call, tick: Tick)

  function Perform(db: Database, c: Timed): Outcome {
    match c.call
    case CallCreateTeam(name, owner, team) => CreateTeam(db, name, owner, team, c.tick)
    case CallSetMemberRole(team, principal, role, actor) => SetMemberRole(db, team, principal, role, actor, c.tick)
    case CallRemoveMember(team, principal, actor) => RemoveMember(db, team, principal, actor, c.tick)
    case CallCreateInvitation(team, role, actor, hours) => CreateInvitation(db, team, role, actor, hours, c.tick)
    case CallAcceptInvitation(secret, principal) => AcceptInvitation(db, secret, principal, c.tick)
    case CallRevokeInvitation(invitation, actor) => RevokeInvitation(db, invitation, actor, c.tick)
    case CallCreateProject(team, name, actor, project) => CreateProject(db, team, name, actor, project, c.tick)
    case CallGrantProjectAccess(project, principal, access, actor) =>
      GrantProjectAccess(db, project, principal, access, actor, c.tick)
    case CallRevokeProjectAccess(project, principal, actor) =>
      RevokeProjectAccess(db, project, principal, actor, c.tick)
    case CallIssueAccessToken(team, principal, caption, hours) =>
      IssueAccessToken(db, team, principal, caption, hours, c.tick)
    case CallRevokeAccessToken(token, actor) => RevokeAccessToken(db, token, actor, c.tick)
    case CallRegisterReplica(team, principal, device, caption) =>
      RegisterReplica(db, team, principal, device, caption, c.tick)
    case CallApplyMutation(mutation, principal) => ApplyMutation(db, mutation, principal, c.tick)
    case CallResolveConflict(conflict, mutation, principal, closing) =>
      ResolveConflict(db, conflict, mutation, principal, c.tick, closing)
  }

  /** The tables after a run of calls, refused ones included. */
  function Run(db: Database, calls: seq<Timed>): Database {
    if calls == [] then db
    else Perform(Run(db, calls[..|calls| - 1]), calls[|calls| - 1]).db
  }
}
