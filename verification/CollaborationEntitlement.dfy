/**
 Over whole runs: whatever the audit log says was done, was done by someone with the right to it in
 the very state it was done in; and a token works until it expires or somebody revokes it.
 */
module CollaborationEntitlement {
  import opened Prelude
  import opened SyncMutations
  import opened CollaborationTables
  import opened CollaborationRights
  import opened CollaborationCalls
  import opened CollaborationAuthority
  import opened CollaborationPushes

  predicate HasRole(db: Database, team: Id, principal: Id, roles: set<Role>) {
    (team, principal) in db.members && db.members[(team, principal)].role in roles
  }

  predicate ProjectOf(db: Database, project: Id, team: Id) {
    project in db.projects && db.projects[project].team == team
  }

  /** The actor had the right to what the row records, and what it says of the past is so. */
  ghost predicate Entitled(db: Database, row: AuditCore) {
    match row.body
    case TeamCreated(_) => row.team !in db.teams
    case RoleChanged(target, was, role) =>
      && RunsTeam(db, row.team, row.actor) && HasRole(db, row.team, target, {was})
      && (Owner in {was, role} ==> IsOwner(db, row.team, row.actor))
      && (was == Owner && role != Owner ==> HasOtherOwner(db, row.team, target))
    case MemberRemoved(target, was, _, _, _) =>
      && RunsTeam(db, row.team, row.actor) && HasRole(db, row.team, target, {was})
      && (was == Owner ==> IsOwner(db, row.team, row.actor) && HasOtherOwner(db, row.team, target))
    case InvitationCreated(_, role, _) => RunsTeam(db, row.team, row.actor) && role in {Viewer, Member, Admin}
    case InvitationAccepted(id, role) =>
      && (row.team, row.actor) !in db.members
      && exists secret :: Opens(db, secret, id, row.at)
                          && db.invitations[id].team == row.team && db.invitations[id].role == role
    case InvitationRevoked(id) =>
      && RunsTeam(db, row.team, row.actor)
      && id in db.invitations && db.invitations[id].team == row.team && db.invitations[id].accepted.None?
    case ProjectCreated(project, _) =>
      HasRole(db, row.team, row.actor, {Member, Admin, Owner}) && project !in db.projects
    case ShareGranted(project, target, access) =>
      && ProjectOf(db, project, row.team) && MayManage(db, project, row.actor) && (row.team, target) in db.members
      && access in {View, Edit, Manage}
    case ShareRevoked(project, target) =>
      && ProjectOf(db, project, row.team) && MayManage(db, project, row.actor)
      && target != db.projects[project].createdBy
    case TokenIssued(_, _, _) => (row.team, row.actor) in db.members
    case TokenRevoked(token) =>
      && token in db.tokens && db.tokens[token].team == row.team
      && (row.actor == db.tokens[token].principal || RunsTeam(db, row.team, row.actor))
    case ReplicaRegistered(device, _) => (row.team, row.actor) in db.members && (row.team, device) !in db.replicas
    case ConflictDetected(_, project, _, _, _) => ProjectOf(db, project, row.team) && MayEdit(db, project, row.actor)
    case ConflictResolved(conflict, _) =>
      && conflict in db.conflicts && db.conflicts[conflict].resolution.None?
      && ProjectOf(db, db.conflicts[conflict].project, row.team)
      && MayEdit(db, db.conflicts[conflict].project, row.actor)
    case MutationAccepted(project, _, device, _, _, _, _, _) =>
      && ProjectOf(db, project, row.team) && MayEdit(db, project, row.actor)
      && OwnsDevice(db, project, device, row.actor)
  }

  function ActorOf(call: Call): Id {
    match call
    case CallCreateTeam(_, owner, _) => Strip(owner)
    case CallAcceptInvitation(_, principal) => principal
    case CallIssueAccessToken(_, principal, _, _) => principal
    case CallRegisterReplica(_, principal, _, _) => principal
    case CallApplyMutation(_, principal) => principal
    case CallResolveConflict(_, _, principal, _) => principal
    case _ => call.actor
  }

  /** Every row a step adds is by the caller, who was entitled to it. */
  ghost predicate StepEntitled(db: Database, after: Database, actor: Id) {
    && db.audit <= after.audit
    && forall i | |db.audit| <= i < |after.audit| ::
         after.audit[i].core.actor == actor && Entitled(db, after.audit[i].core)
  }

  lemma OneRowEntitled(db: Database, after: Database, team: Id, actor: Id, body: AuditBody, tick: Tick)
    requires Audited(db, after, team, actor, body, tick)
    requires Entitled(db, AuditCore(tick.eventId, team, actor, body, tick.now))
    ensures StepEntitled(db, after, actor)
  {
    hide Entitled;
  }

  lemma NoRowEntitled(db: Database, actor: Id)
    ensures StepEntitled(db, db, actor)
  {
  }

  lemma PushEntitled(db: Database, m: SyncMutation, principal: Id, tick: Tick)
    ensures StepEntitled(db, ApplyMutation(db, m, principal, tick).db, principal)
  {
    PushIff(db, m, principal, tick);
    var r := ApplyMutation(db, m, principal, tick);
    hide ApplyMutation, InTurn, Strip, StepEntitled, Audited, Logs, Stores, Disputes, RevisionOf, MayEdit, Normalized;
    NoRowEntitled(db, principal);
    if r.db != db {
      var n := |db.audit|;
      var team := db.projects[m.projectId].team;
      if r.result.Success? {
        var e := r.db.events[|db.events|];
        OneRowEntitled(db, r.db, team, principal,
                       MutationAccepted(m.projectId, m.mutationId, m.deviceId, m.sequence, Strip(m.key), e.operation,
                                        m.baseRevision + 1, e.hash), tick);
      } else {
        OneRowEntitled(db, r.db, team, principal,
                       ConflictDetected(tick.freshId, m.projectId, Strip(m.key), m.baseRevision,
                                        RevisionOf(db, m.projectId, Strip(m.key))), tick);
      }
    }
  }

  lemma ResolutionEntitled(db: Database, conflict: Id, m: SyncMutation, principal: Id, tick: Tick, closing: Tick)
    ensures StepEntitled(db, ResolveConflict(db, conflict, m, principal, tick, closing).db, principal)
  {
    ResolutionIff(db, conflict, m, principal, tick, closing);
    PushEntitled(db, m, principal, tick);
    PushChecks(db, m, principal, tick);
    NoRowEntitled(db, principal);
    var pushed := ApplyMutation(db, m, principal, tick);
    var r := ResolveConflict(db, conflict, m, principal, tick, closing);
    hide ApplyMutation, ResolveConflict, InTurn, Strip, MayEdit, Normalized, RevisionOf, NewEvent, Carries;
    if r.result.Success? {
      var row := r.db.audit[|pushed.db.audit|].core;
      assert row == AuditCore(closing.eventId, db.projects[m.projectId].team, principal,
                              ConflictResolved(conflict, r.result.value.receipt.hash), closing.now);
      assert Entitled(db, row);
      hide Entitled;
    }
  }

  lemma MembershipEntitled(db: Database, c: Timed)
    requires c.call.CallCreateTeam? || c.call.CallSetMemberRole? || c.call.CallRemoveMember?
    ensures StepEntitled(db, Perform(db, c).db, ActorOf(c.call))
  {
    hide CreateTeam, SetMemberRole, RemoveMember, Strip, NewEvent, Grown, GrownQuietly, SyncTablesKept, Stripped,
         SameBut;
    NoRowEntitled(db, ActorOf(c.call));
    match c.call
    case CallCreateTeam(name, owner, team) => CreateTeamIff(db, name, owner, team, c.tick);
    case CallSetMemberRole(team, principal, role, actor) => RoleChangeIff(db, team, principal, role, actor, c.tick);
    case CallRemoveMember(team, principal, actor) => RemovalIff(db, team, principal, actor, c.tick);
  }

  lemma InvitationEntitled(db: Database, c: Timed)
    requires c.call.CallCreateInvitation? || c.call.CallAcceptInvitation? || c.call.CallRevokeInvitation?
    ensures StepEntitled(db, Perform(db, c).db, ActorOf(c.call))
  {
    hide CreateInvitation, AcceptInvitation, RevokeInvitation, NewEvent, Grown, GrownQuietly, SyncTablesKept, SameBut;
    NoRowEntitled(db, ActorOf(c.call));
    match c.call
    case CallCreateInvitation(team, role, actor, hours) => InvitationIff(db, team, role, actor, hours, c.tick);
    case CallAcceptInvitation(secret, principal) => AcceptanceIff(db, secret, principal, c.tick);
    case CallRevokeInvitation(invitation, actor) => InvitationRevokedIff(db, invitation, actor, c.tick);
  }

  lemma ProjectEntitled(db: Database, c: Timed)
    requires c.call.CallCreateProject? || c.call.CallGrantProjectAccess? || c.call.CallRevokeProjectAccess?
    ensures StepEntitled(db, Perform(db, c).db, ActorOf(c.call))
  {
    hide CreateProject, GrantProjectAccess, RevokeProjectAccess, NewEvent, Grown, GrownQuietly, SyncTablesKept,
         SameBut, Strip;
    NoRowEntitled(db, ActorOf(c.call));
    match c.call
    case CallCreateProject(team, name, actor, project) => ProjectIff(db, team, name, actor, project, c.tick);
    case CallGrantProjectAccess(project, principal, access, actor) =>
      ShareIff(db, project, principal, access, actor, c.tick);
    case CallRevokeProjectAccess(project, principal, actor) => UnshareIff(db, project, principal, actor, c.tick);
  }

  lemma TokenEntitled(db: Database, c: Timed)
    requires c.call.CallIssueAccessToken? || c.call.CallRevokeAccessToken?
    ensures StepEntitled(db, Perform(db, c).db, ActorOf(c.call))
  {
    hide IssueAccessToken, RevokeAccessToken, NewEvent, Grown, GrownQuietly, SyncTablesKept, SameBut, Authenticates,
         Captioned;
    NoRowEntitled(db, ActorOf(c.call));
    match c.call
    case CallIssueAccessToken(team, principal, caption, hours) =>
      TokenIff(db, team, principal, caption, hours, c.tick);
    case CallRevokeAccessToken(token, actor) => TokenRevokedIff(db, token, actor, c.tick);
  }

  lemma DeviceEntitled(db: Database, c: Timed)
    requires c.call.CallRegisterReplica?
    ensures StepEntitled(db, Perform(db, c).db, ActorOf(c.call))
  {
    hide RegisterReplica, NewEvent, Grown, SameBut, Captioned;
    NoRowEntitled(db, ActorOf(c.call));
    DeviceIff(db, c.call.team, c.call.principal, c.call.device, c.call.caption, c.tick);
  }

  lemma PerformEntitled(db: Database, c: Timed)
    ensures StepEntitled(db, Perform(db, c).db, ActorOf(c.call))
  {
    hide StepEntitled, ApplyMutation, ResolveConflict, Strip;
    match c.call
    case CallApplyMutation(mutation, principal) => PushEntitled(db, mutation, principal, c.tick);
    case CallResolveConflict(conflict, mutation, principal, closing) =>
      ResolutionEntitled(db, conflict, mutation, principal, c.tick, closing);
    case CallCreateTeam(_, _, _) => MembershipEntitled(db, c);
    case CallSetMemberRole(_, _, _, _) => MembershipEntitled(db, c);
    case CallRemoveMember(_, _, _) => MembershipEntitled(db, c);
    case CallCreateInvitation(_, _, _, _) => InvitationEntitled(db, c);
    case CallAcceptInvitation(_, _) => InvitationEntitled(db, c);
    case CallRevokeInvitation(_, _) => InvitationEntitled(db, c);
    case CallCreateProject(_, _, _, _) => ProjectEntitled(db, c);
    case CallGrantProjectAccess(_, _, _, _) => ProjectEntitled(db, c);
    case CallRevokeProjectAccess(_, _, _) => ProjectEntitled(db, c);
    case CallRegisterReplica(_, _, _, _) => DeviceEntitled(db, c);
    case _ => TokenEntitled(db, c);
  }

  /** Call `n` of the run added audit row `i`, and its caller was entitled to it in the state that call found. */
  ghost predicate AddedAt(calls: seq<Timed>, n: nat, i: nat)
    requires n < |calls|
  {
    hide Perform, Entitled;
    var before := Run(EMPTY, calls[..n]);
    var after := Perform(before, calls[n]).db;
    && |before.audit| <= i < |after.audit| && after.audit <= Run(EMPTY, calls).audit
    && after.audit[i].core.actor == ActorOf(calls[n].call) && Entitled(before, after.audit[i].core)
  }

  /**
   Nothing is done without the right to it: every row of a reachable audit log was added by one call
   of the run, by its caller, who was entitled to it in the very state in which it was added.
   */
  lemma {:induction false} EveryRowWasEntitled(calls: seq<Timed>, i: nat)
    requires i < |Run(EMPTY, calls).audit|
    ensures exists n: nat :: n < |calls| && AddedAt(calls, n, i)
  {
    hide Perform, Entitled, AddedAt;
    if calls != [] {
      var n := |calls| - 1;
      var before := Run(EMPTY, calls[..n]);
      PerformEntitled(before, calls[n]);
      if i < |before.audit| {
        EveryRowWasEntitled(calls[..n], i);
        var k: nat :| k < n && AddedAt(calls[..n], k, i);
        AddedStays(calls, k, i);
      } else {
        AddedLast(calls, i);
      }
    }
  }

  lemma AddedStays(calls: seq<Timed>, n: nat, i: nat)
    requires calls != [] && n < |calls| - 1 && AddedAt(calls[..|calls| - 1], n, i)
    requires Run(EMPTY, calls[..|calls| - 1]).audit <= Run(EMPTY, calls).audit
    ensures AddedAt(calls, n, i)
  {
    hide Run, Perform, Entitled;
    assert calls[..|calls| - 1][..n] == calls[..n];
  }

  lemma AddedLast(calls: seq<Timed>, i: nat)
    requires calls != [] && |Run(EMPTY, calls[..|calls| - 1]).audit| <= i < |Run(EMPTY, calls).audit|
    requires var before := Run(EMPTY, calls[..|calls| - 1]);
             StepEntitled(before, Perform(before, calls[|calls| - 1]).db, ActorOf(calls[|calls| - 1].call))
    ensures AddedAt(calls, |calls| - 1, i)
  {
    hide Perform, Entitled;
  }

  // ---------- tokens over runs ----------

  /** A token's row never changes but for its revocation, which is for good. */
  ghost predicate TokenKept(db: Database, after: Database, token: Id) {
    && token in db.tokens && token in after.tokens
    && after.tokens[token] == db.tokens[token].(revokedAt := after.tokens[token].revokedAt)
    && (db.tokens[token].revokedAt.Some? ==> after.tokens[token].revokedAt.Some?)
    && forall d | d in db.tokenByDigest ::
         d in after.tokenByDigest && after.tokenByDigest[d] == db.tokenByDigest[d]
  }

  lemma RemovalKeepsToken(db: Database, team: Id, principal: Id, actor: Id, tick: Tick, token: Id)
    requires token in db.tokens
    ensures TokenKept(db, RemoveMember(db, team, principal, actor, tick).db, token)
  {
    RemovalIff(db, team, principal, actor, tick);
    hide RemoveMember, Grown, GrownQuietly, Audited, NewEvent, HasOtherOwner, LiveTokensOf;
  }

  lemma IssueKeepsToken(db: Database, team: Id, principal: Id, caption: string, hours: int, tick: Tick, token: Id)
    requires token in db.tokens
    ensures TokenKept(db, IssueAccessToken(db, team, principal, caption, hours, tick).db, token)
  {
    TokenIff(db, team, principal, caption, hours, tick);
    hide IssueAccessToken, Grown, GrownQuietly, Audited, NewEvent, Authenticates;
  }

  lemma RevocationKeepsToken(db: Database, id: Id, actor: Id, tick: Tick, token: Id)
    requires token in db.tokens
    ensures TokenKept(db, RevokeAccessToken(db, id, actor, tick).db, token)
  {
    TokenRevokedIff(db, id, actor, tick);
    hide RevokeAccessToken, Grown, GrownQuietly, Audited, NewEvent, Authenticates;
  }

  predicate TouchesTokens(call: Call) {
    call.CallRemoveMember? || call.CallIssueAccessToken? || call.CallRevokeAccessToken?
  }

  predicate SameTokens(db: Database, after: Database) {
    after.tokens == db.tokens && after.tokenByDigest == db.tokenByDigest
  }

  lemma MembershipKeepsTokens(db: Database, c: Timed)
    requires c.call.CallCreateTeam? || c.call.CallSetMemberRole? || c.call.CallCreateInvitation?
             || c.call.CallAcceptInvitation? || c.call.CallRevokeInvitation?
    ensures SameTokens(db, Perform(db, c).db)
  {
    hide CreateTeam, SetMemberRole, RemoveMember, CreateInvitation, AcceptInvitation, RevokeInvitation, CreateProject,
         GrantProjectAccess, RevokeProjectAccess, IssueAccessToken, RevokeAccessToken, RegisterReplica, ApplyMutation,
         ResolveConflict, Grown, GrownQuietly, SyncTablesKept;
  }

  lemma ProjectsKeepTokens(db: Database, c: Timed)
    requires c.call.CallCreateProject? || c.call.CallGrantProjectAccess? || c.call.CallRevokeProjectAccess?
             || c.call.CallRegisterReplica? || c.call.CallApplyMutation? || c.call.CallResolveConflict?
    ensures SameTokens(db, Perform(db, c).db)
  {
    hide CreateTeam, SetMemberRole, RemoveMember, CreateInvitation, AcceptInvitation, RevokeInvitation, CreateProject,
         GrantProjectAccess, RevokeProjectAccess, IssueAccessToken, RevokeAccessToken, RegisterReplica, ApplyMutation,
         ResolveConflict, Grown, GrownQuietly, SyncTablesKept;
  }

  lemma PerformKeepsToken(db: Database, c: Timed, token: Id)
    requires token in db.tokens
    ensures TokenKept(db, Perform(db, c).db, token)
  {
    if !TouchesTokens(c.call) {
      hide Perform;
      if c.call.CallCreateTeam? || c.call.CallSetMemberRole? || c.call.CallCreateInvitation?
         || c.call.CallAcceptInvitation? || c.call.CallRevokeInvitation? {
        MembershipKeepsTokens(db, c);
      } else {
        ProjectsKeepTokens(db, c);
      }
    } else {
      hide RemoveMember, IssueAccessToken, RevokeAccessToken, TokenKept, Grown, GrownQuietly;
      match c.call
      case CallRemoveMember(team, principal, actor) => RemovalKeepsToken(db, team, principal, actor, c.tick, token);
      case CallIssueAccessToken(team, principal, caption, hours) =>
        IssueKeepsToken(db, team, principal, caption, hours, c.tick, token);
      case CallRevokeAccessToken(id, actor) => RevocationKeepsToken(db, id, actor, c.tick, token);
    }
  }

  lemma {:induction false} RunKeepsToken(db: Database, calls: seq<Timed>, token: Id)
    requires token in db.tokens
    ensures TokenKept(db, Run(db, calls), token)
  {
    hide Perform;
    if calls != [] {
      RunKeepsToken(db, calls[..|calls| - 1], token);
      PerformKeepsToken(Run(db, calls[..|calls| - 1]), calls[|calls| - 1], token);
    }
  }

  /**
   After any further run of calls the secret handed out with a token authenticates as that token
   until it expires or a call has revoked it; and once revoked it never authenticates again.
   */
  lemma TokenWorksUntilRevoked(db: Database, team: Id, principal: Id, caption: string, hours: int, tick: Tick,
                               more: seq<Timed>, still: seq<Timed>)
    requires IssueAccessToken(db, team, principal, caption, hours, tick).result.Success?
    ensures var later := Run(IssueAccessToken(db, team, principal, caption, hours, tick).db, more);
            var id := tick.freshId;
            && id in later.tokens && later.tokens[id].team == team && later.tokens[id].principal == principal
            && (forall now :: Authenticates(later, tick.secret, id, now)
                              <==> now < tick.now + 3600 * hours && later.tokens[id].revokedAt.None?)
            && (later.tokens[id].revokedAt.Some? ==>
                  forall now, other :: !Authenticates(Run(later, still), tick.secret, other, now))
  {
    TokenIff(db, team, principal, caption, hours, tick);
    var issued := IssueAccessToken(db, team, principal, caption, hours, tick).db;
    hide IssueAccessToken, Run, NewEvent, Audited;
    assert Authenticates(issued, tick.secret, tick.freshId, tick.now);
    assert issued.tokens[tick.freshId].expiresAt == tick.now + 3600 * hours by {
      var end := tick.now + 3600 * hours;
      assert !Authenticates(issued, tick.secret, tick.freshId, end);
      assert Authenticates(issued, tick.secret, tick.freshId, end - 1);
    }
    RunKeepsToken(issued, more, tick.freshId);
    RunKeepsToken(Run(issued, more), still, tick.freshId);
  }
}
