/**
 Who belongs to a team and what a membership carries.

 In every reachable state every row refers to rows that exist, every replica, project share and
 unrevoked token belongs to a current member, and every team has an owner.
 */
module CollaborationMembership {
  import opened Prelude
  import opened SyncMutations
  import opened CollaborationTables
  import opened CollaborationCalls

  ghost predicate KnownRole(role: Role) {
    !role.OtherRole?
  }

  ghost predicate MembersInTeams(members: map<(Id, Id), MemberRow>, teams: map<Id, TeamRow>) {
    forall k | k in members :: k.0 in teams && KnownRole(members[k].role)
  }

  ghost predicate InvitationsInTeams(invitations: map<Id, InvitationRow>, teams: map<Id, TeamRow>) {
    forall k | k in invitations ::
      invitations[k].team in teams && KnownRole(invitations[k].role) && invitations[k].role != Owner
  }

  ghost predicate ProjectsInTeams(projects: map<Id, ProjectRow>, teams: map<Id, TeamRow>) {
    forall k | k in projects :: projects[k].team in teams
  }

  ghost predicate SharesOfMembers(shares: map<(Id, Id), ShareRow>, projects: map<Id, ProjectRow>,
                                  members: map<(Id, Id), MemberRow>) {
    forall k | k in shares ::
      k.0 in projects && (projects[k.0].team, k.1) in members && !shares[k].access.OtherAccess?
  }

  ghost predicate TokensOfMembers(tokens: map<Id, TokenRow>, members: map<(Id, Id), MemberRow>) {
    forall k | k in tokens && tokens[k].revokedAt.None? :: (tokens[k].team, tokens[k].principal) in members
  }

  ghost predicate TokensInTeams(tokens: map<Id, TokenRow>, teams: map<Id, TeamRow>) {
    forall k | k in tokens :: tokens[k].team in teams
  }

  ghost predicate ReplicasOfMembers(replicas: map<(Id, Id), ReplicaRow>, members: map<(Id, Id), MemberRow>) {
    forall k | k in replicas :: (k.0, replicas[k].principal) in members
  }

  ghost predicate AuditInTeams(audit: seq<AuditRow>, teams: map<Id, TeamRow>) {
    forall i | 0 <= i < |audit| :: audit[i].core.team in teams
  }

  ghost predicate HasOwner(members: map<(Id, Id), MemberRow>, team: Id) {
    exists p :: (team, p) in members && members[(team, p)].role == Owner
  }

  ghost predicate TeamsOwned(teams: map<Id, TeamRow>, members: map<(Id, Id), MemberRow>) {
    forall t | t in teams :: HasOwner(members, t)
  }

  /** Two live rows never share a secret: the UNIQUE digest column and its index agree. */
  ghost predicate TokensIndexed(tokens: map<Id, TokenRow>, index: map<SecretDigest, Id>) {
    forall k | k in tokens :: tokens[k].digest in index && index[tokens[k].digest] == k
  }

  ghost predicate InvitationsIndexed(invitations: map<Id, InvitationRow>, index: map<SecretDigest, Id>) {
    forall k | k in invitations :: invitations[k].digest in index && index[invitations[k].digest] == k
  }

  ghost predicate Sound(db: Database) {
    && MembersInTeams(db.members, db.teams) && TeamsOwned(db.teams, db.members)
    && InvitationsInTeams(db.invitations, db.teams) && InvitationsIndexed(db.invitations, db.invitationByDigest)
    && ProjectsInTeams(db.projects, db.teams) && SharesOfMembers(db.shares, db.projects, db.members)
    && TokensOfMembers(db.tokens, db.members) && TokensInTeams(db.tokens, db.teams)
    && TokensIndexed(db.tokens, db.tokenByDigest)
    && ReplicasOfMembers(db.replicas, db.members) && AuditInTeams(db.audit, db.teams)
  }

  // ---------- one lemma per call ----------

  /** Owners are untouched by a call that leaves existing memberships as they are. */
  lemma OwnersKept(teams: map<Id, TeamRow>, before: map<(Id, Id), MemberRow>, after: map<(Id, Id), MemberRow>)
    requires TeamsOwned(teams, before)
    requires forall k | k in before :: k in after && after[k] == before[k]
    ensures TeamsOwned(teams, after)
  {
    forall t | t in teams ensures HasOwner(after, t) {
      assert HasOwner(before, t);
      var p :| (t, p) in before && before[(t, p)].role == Owner;
      assert (t, p) in after && after[(t, p)].role == Owner;
    }
  }

  lemma NewTeamOwned(teams: map<Id, TeamRow>, members: map<(Id, Id), MemberRow>, team: Id, row: TeamRow, founder: Id,
                     member: MemberRow)
    requires TeamsOwned(teams, members) && team !in teams && (team, founder) !in members && member.role == Owner
    ensures TeamsOwned(teams[team := row], members[(team, founder) := member])
  {
    var after := members[(team, founder) := member];
    OwnersKept(teams, members, after);
    assert (team, founder) in after && after[(team, founder)].role == Owner;
    assert HasOwner(after, team);
    assert forall t | t in teams :: HasOwner(after, t);
  }

  lemma {:induction false} SubsetSize<T>(a: set<T>, b: set<T>)
    requires a <= b
    ensures |a| <= |b|
  {
    if a != {} {
      var x :| x in a;
      SubsetSize(a - {x}, b - {x});
    }
  }

  lemma AnotherOwner(db: Database, team: Id, leaving: Id)
    requires |Owners(db, team)| > 1
    ensures exists p :: p != leaving && (team, p) in db.members && db.members[(team, p)].role == Owner
  {
    if Owners(db, team) - {leaving} == {} {
      SubsetSize(Owners(db, team), {leaving});
    } else {
      var p :| p in Owners(db, team) - {leaving};
      assert (team, p) in db.members && db.members[(team, p)].role == Owner;
    }
  }

  /** A team keeps an owner when one membership changes or ends, unless its last owner loses the role. */
  lemma OwnersSurvive(db: Database, after: map<(Id, Id), MemberRow>, team: Id, principal: Id)
    requires TeamsOwned(db.teams, db.members)
    requires forall k | k in db.members && k != (team, principal) :: k in after && after[k] == db.members[k]
    requires || |Owners(db, team)| > 1
             || (team, principal) !in db.members || db.members[(team, principal)].role != Owner
             || ((team, principal) in after && after[(team, principal)].role == Owner)
    ensures TeamsOwned(db.teams, after)
  {
    forall t | t in db.teams ensures HasOwner(after, t) {
      assert HasOwner(db.members, t);
      var p :| (t, p) in db.members && db.members[(t, p)].role == Owner;
      if (t, p) == (team, principal) && |Owners(db, team)| > 1 {
        AnotherOwner(db, team, principal);
        var q :| q != principal && (team, q) in db.members && db.members[(team, q)].role == Owner;
        assert (t, q) in after && after[(t, q)].role == Owner;
      } else {
        assert (t, p) in after && after[(t, p)].role == Owner;
      }
    }
  }

  /** Setting one membership takes no right away. */
  lemma RightsAfterSet(db: Database, k: (Id, Id), row: MemberRow)
    requires SharesOfMembers(db.shares, db.projects, db.members) && TokensOfMembers(db.tokens, db.members)
             && ReplicasOfMembers(db.replicas, db.members)
    ensures SharesOfMembers(db.shares, db.projects, db.members[k := row])
    ensures TokensOfMembers(db.tokens, db.members[k := row]) && ReplicasOfMembers(db.replicas, db.members[k := row])
  {
  }

  lemma OwnersAfterSet(db: Database, k: (Id, Id), row: MemberRow)
    requires TeamsOwned(db.teams, db.members)
    requires |Owners(db, k.0)| > 1 || k !in db.members || db.members[k].role != Owner || row.role == Owner
    ensures TeamsOwned(db.teams, db.members[k := row])
  {
    OwnersSurvive(db, db.members[k := row], k.0, k.1);
  }

  lemma OwnersAfterDrop(db: Database, k: (Id, Id))
    requires TeamsOwned(db.teams, db.members)
    requires |Owners(db, k.0)| > 1 || k !in db.members || db.members[k].role != Owner
    ensures TeamsOwned(db.teams, Without(db.members, {k}))
  {
    OwnersSurvive(db, Without(db.members, {k}), k.0, k.1);
  }

  lemma CreateTeamSound(db: Database, name: string, owner: Id, team: Option<Id>, tick: Tick)
    requires Sound(db)
    ensures Sound(CreateTeam(db, name, owner, team, tick).db)
  {
    hide TeamsOwned, InvitationsIndexed, SharesOfMembers, TokensOfMembers, TokensIndexed, ReplicasOfMembers, Grown,
         GrownQuietly, TeamRows, EventIdUsed, Strip;
    var id := ChosenId(team, tick.freshId);
    if id !in db.teams && (id, Strip(owner)) !in db.members {
      RightsAfterSet(db, (id, Strip(owner)), MemberRow(Owner, tick.now));
      NewTeamOwned(db.teams, db.members, id, TeamRow(Strip(name), Strip(owner), tick.now), Strip(owner),
                   MemberRow(Owner, tick.now));
    }
  }

  lemma ChangeRoleSound(db: Database, team: Id, principal: Id, role: Role, actor: Id, tick: Tick)
    requires Sound(db) && (team, principal) in db.members && KnownRole(role)
    requires TeamsOwned(db.teams, db.members[(team, principal) := db.members[(team, principal)].(role := role)])
    ensures Sound(ChangeRole(db, team, principal, db.members[(team, principal)], role, actor, tick).db)
  {
    hide TeamsOwned, InvitationsInTeams, InvitationsIndexed, ProjectsInTeams, SharesOfMembers, TokensOfMembers,
         TokensInTeams, TokensIndexed, ReplicasOfMembers, Grown, GrownQuietly, TeamRows, EventIdUsed;
    RightsAfterSet(db, (team, principal), db.members[(team, principal)].(role := role));
  }

  lemma SetMemberRoleSound(db: Database, team: Id, principal: Id, role: Role, actor: Id, tick: Tick)
    requires Sound(db)
    ensures Sound(SetMemberRole(db, team, principal, role, actor, tick).db)
  {
    hide MembersInTeams, TeamsOwned, InvitationsInTeams, InvitationsIndexed, ProjectsInTeams, SharesOfMembers,
         TokensOfMembers, TokensInTeams, TokensIndexed, ReplicasOfMembers, AuditInTeams, Grown, GrownQuietly, TeamRows,
         EventIdUsed, Owners, RequireTeamRole, ChangeRole;
    if (team, principal) in db.members && KnownRole(role) {
      var was := db.members[(team, principal)].role;
      if was != Owner || role == Owner || |Owners(db, team)| > 1 {
        OwnersAfterSet(db, (team, principal), db.members[(team, principal)].(role := role));
        ChangeRoleSound(db, team, principal, role, actor, tick);
      }
    }
  }

  /** What is left after a removal still belongs to members. */
  lemma RightsLeft(db: Database, team: Id, principal: Id, now: int)
    requires SharesOfMembers(db.shares, db.projects, db.members) && ReplicasOfMembers(db.replicas, db.members)
    ensures SharesOfMembers(Without(db.shares, SharesOf(db, team, principal)), db.projects,
                            Without(db.members, {(team, principal)}))
    ensures ReplicasOfMembers(Without(db.replicas, ReplicasOf(db, team, principal)),
                              Without(db.members, {(team, principal)}))
  {
  }

  lemma TokensLeft(db: Database, team: Id, principal: Id, now: int)
    requires TokensOfMembers(db.tokens, db.members)
    ensures TokensOfMembers(RevokeAll(db.tokens, LiveTokensOf(db, team, principal), now),
                            Without(db.members, {(team, principal)}))
  {
  }

  lemma ExpelSound(db: Database, team: Id, principal: Id, was: Role, actor: Id, tick: Tick)
    requires Sound(db) && (team, actor) in db.members
    requires TeamsOwned(db.teams, Without(db.members, {(team, principal)}))
    ensures Sound(Expel(db, team, principal, was, actor, tick).db)
  {
    hide TeamsOwned, InvitationsInTeams, InvitationsIndexed, ProjectsInTeams, SharesOfMembers, TokensOfMembers,
         ReplicasOfMembers, Grown, GrownQuietly, TeamRows, EventIdUsed, LiveTokensOf, ReplicasOf, SharesOf;
    RightsLeft(db, team, principal, tick.now);
    TokensLeft(db, team, principal, tick.now);
  }

  lemma RemoveMemberSound(db: Database, team: Id, principal: Id, actor: Id, tick: Tick)
    requires Sound(db)
    ensures Sound(RemoveMember(db, team, principal, actor, tick).db)
  {
    hide MembersInTeams, TeamsOwned, InvitationsInTeams, InvitationsIndexed, ProjectsInTeams, SharesOfMembers,
         TokensOfMembers, TokensInTeams, TokensIndexed, ReplicasOfMembers, AuditInTeams, Grown, GrownQuietly, TeamRows,
         EventIdUsed, Owners, Expel;
    if RequireTeamRole(db, team, actor, Admin).Success? && (team, principal) in db.members {
      var was := db.members[(team, principal)].role;
      if was != Owner || |Owners(db, team)| > 1 {
        OwnersAfterDrop(db, (team, principal));
        ExpelSound(db, team, principal, was, actor, tick);
      }
    }
  }

  lemma CreateInvitationSound(db: Database, team: Id, role: Role, createdBy: Id, hours: int, tick: Tick)
    requires Sound(db)
    ensures Sound(CreateInvitation(db, team, role, createdBy, hours, tick).db)
  {
    hide TeamsOwned, ProjectsInTeams, SharesOfMembers, TokensOfMembers, TokensInTeams, TokensIndexed, ReplicasOfMembers,
         Grown, GrownQuietly, TeamRows, EventIdUsed;
  }

  lemma AcceptInvitationSound(db: Database, secret: string, principal: Id, tick: Tick)
    requires Sound(db)
    ensures Sound(AcceptInvitation(db, secret, principal, tick).db)
  {
    hide TeamsOwned, ProjectsInTeams, SharesOfMembers, TokensOfMembers, TokensInTeams, TokensIndexed, ReplicasOfMembers,
         Grown, GrownQuietly, TeamRows, EventIdUsed;
    var digest := SecretDigest(secret);
    if digest in db.invitationByDigest && db.invitationByDigest[digest] in db.invitations {
      var row := db.invitations[db.invitationByDigest[digest]];
      if (row.team, principal) !in db.members {
        RightsAfterSet(db, (row.team, principal), MemberRow(row.role, tick.now));
        OwnersAfterSet(db, (row.team, principal), MemberRow(row.role, tick.now));
      }
    }
  }

  lemma RevokeInvitationSound(db: Database, invitation: Id, actor: Id, tick: Tick)
    requires Sound(db)
    ensures Sound(RevokeInvitation(db, invitation, actor, tick).db)
  {
    hide MembersInTeams, TeamsOwned, ProjectsInTeams, SharesOfMembers, TokensOfMembers, TokensInTeams, TokensIndexed,
         ReplicasOfMembers, Grown, GrownQuietly, TeamRows, EventIdUsed;
  }

  lemma CreateProjectSound(db: Database, team: Id, name: string, createdBy: Id, project: Option<Id>, tick: Tick)
    requires Sound(db)
    ensures Sound(CreateProject(db, team, name, createdBy, project, tick).db)
  {
    hide TeamsOwned, InvitationsInTeams, InvitationsIndexed, TokensOfMembers, TokensInTeams, TokensIndexed,
         ReplicasOfMembers, Grown, GrownQuietly, TeamRows, EventIdUsed, ProjectName;
  }

  lemma GrantProjectAccessSound(db: Database, project: Id, principal: Id, access: Access, grantedBy: Id, tick: Tick)
    requires Sound(db)
    ensures Sound(GrantProjectAccess(db, project, principal, access, grantedBy, tick).db)
  {
    hide MembersInTeams, TeamsOwned, InvitationsInTeams, InvitationsIndexed, TokensOfMembers, TokensInTeams,
         TokensIndexed, ReplicasOfMembers, Grown, GrownQuietly, TeamRows, EventIdUsed;
  }

  lemma RevokeProjectAccessSound(db: Database, project: Id, principal: Id, actor: Id, tick: Tick)
    requires Sound(db)
    ensures Sound(RevokeProjectAccess(db, project, principal, actor, tick).db)
  {
    hide MembersInTeams, TeamsOwned, InvitationsInTeams, InvitationsIndexed, TokensOfMembers, TokensInTeams,
         TokensIndexed, ReplicasOfMembers, Grown, GrownQuietly, TeamRows, EventIdUsed;
  }

  lemma IssueAccessTokenSound(db: Database, team: Id, principal: Id, caption: string, hours: int, tick: Tick)
    requires Sound(db)
    ensures Sound(IssueAccessToken(db, team, principal, caption, hours, tick).db)
  {
    hide TeamsOwned, InvitationsInTeams, InvitationsIndexed, ProjectsInTeams, SharesOfMembers, ReplicasOfMembers, Grown,
         GrownQuietly, TeamRows, EventIdUsed, Label;
  }

  lemma RevokeAccessTokenSound(db: Database, token: Id, actor: Id, tick: Tick)
    requires Sound(db)
    ensures Sound(RevokeAccessToken(db, token, actor, tick).db)
  {
    hide MembersInTeams, TeamsOwned, InvitationsInTeams, InvitationsIndexed, ProjectsInTeams, SharesOfMembers,
         ReplicasOfMembers, Grown, GrownQuietly, TeamRows, EventIdUsed;
  }

  lemma RegisterReplicaSound(db: Database, team: Id, principal: Id, device: Option<Id>, caption: string, tick: Tick)
    requires Sound(db)
    ensures Sound(RegisterReplica(db, team, principal, device, caption, tick).db)
  {
    hide TeamsOwned, InvitationsInTeams, InvitationsIndexed, ProjectsInTeams, SharesOfMembers, TokensOfMembers,
         TokensInTeams, TokensIndexed, Grown, GrownQuietly, TeamRows, EventIdUsed, Label;
  }

  lemma ApplyMutationSound(db: Database, m: SyncMutation, principal: Id, tick: Tick)
    requires Sound(db)
    ensures Sound(ApplyMutation(db, m, principal, tick).db)
  {
    hide MembersInTeams, TeamsOwned, InvitationsInTeams, InvitationsIndexed, SharesOfMembers, TokensOfMembers,
         TokensInTeams, TokensIndexed, Grown, GrownQuietly, TeamRows, EventIdUsed, Normalized, FindMutation,
         ServerRevision, ServerHash;
  }

  lemma CloseConflictSound(db: Database, conflict: Id, row: ConflictRow, receipt: PushReceipt, principal: Id,
                           tick: Tick)
    requires Sound(db) && row.project in db.projects
    ensures Sound(CloseConflict(db, conflict, row, receipt, principal, tick).db)
  {
    hide MembersInTeams, TeamsOwned, InvitationsInTeams, InvitationsIndexed, SharesOfMembers, TokensOfMembers,
         TokensInTeams, TokensIndexed, ReplicasOfMembers, Grown, GrownQuietly, TeamRows, EventIdUsed;
  }

  lemma ResolveConflictSound(db: Database, conflict: Id, m: SyncMutation, principal: Id, tick: Tick, closing: Tick)
    requires Sound(db)
    ensures Sound(ResolveConflict(db, conflict, m, principal, tick, closing).db)
  {
    hide Sound, ApplyMutation, CloseConflict;
    ApplyMutationSound(db, m, principal, tick);
    var pushed := ApplyMutation(db, m, principal, tick);
    if conflict in db.conflicts && db.conflicts[conflict].project == m.projectId && pushed.result.Success? {
      CloseConflictSound(pushed.db, conflict, db.conflicts[conflict], pushed.result.value.receipt, principal, closing);
    }
  }

  lemma PerformSound(db: Database, c: Timed)
    requires Sound(db)
    ensures Sound(Perform(db, c).db)
  {
    hide Sound, CreateTeam, SetMemberRole, RemoveMember, CreateInvitation, AcceptInvitation, RevokeInvitation,
         CreateProject, GrantProjectAccess, RevokeProjectAccess, IssueAccessToken, RevokeAccessToken, RegisterReplica,
         ApplyMutation, ResolveConflict;
    match c.call
    case CallCreateTeam(name, owner, team) => CreateTeamSound(db, name, owner, team, c.tick);
    case CallSetMemberRole(team, principal, role, actor) =>
      SetMemberRoleSound(db, team, principal, role, actor, c.tick);
    case CallRemoveMember(team, principal, actor) => RemoveMemberSound(db, team, principal, actor, c.tick);
    case CallCreateInvitation(team, role, actor, hours) => CreateInvitationSound(db, team, role, actor, hours, c.tick);
    case CallAcceptInvitation(secret, principal) => AcceptInvitationSound(db, secret, principal, c.tick);
    case CallRevokeInvitation(invitation, actor) => RevokeInvitationSound(db, invitation, actor, c.tick);
    case CallCreateProject(team, name, actor, project) => CreateProjectSound(db, team, name, actor, project, c.tick);
    case CallGrantProjectAccess(project, principal, access, actor) =>
      GrantProjectAccessSound(db, project, principal, access, actor, c.tick);
    case CallRevokeProjectAccess(project, principal, actor) =>
      RevokeProjectAccessSound(db, project, principal, actor, c.tick);
    case CallIssueAccessToken(team, principal, caption, hours) =>
      IssueAccessTokenSound(db, team, principal, caption, hours, c.tick);
    case CallRevokeAccessToken(token, actor) => RevokeAccessTokenSound(db, token, actor, c.tick);
    case CallRegisterReplica(team, principal, device, caption) =>
      RegisterReplicaSound(db, team, principal, device, caption, c.tick);
    case CallApplyMutation(mutation, principal) => ApplyMutationSound(db, mutation, principal, c.tick);
    case CallResolveConflict(conflict, mutation, principal, closing) =>
      ResolveConflictSound(db, conflict, mutation, principal, c.tick, closing);
  }

  /** Every reachable state is sound: references resolve, rights belong to members, and every team has an owner. */
  lemma {:induction false} RunSound(calls: seq<Timed>)
    ensures Sound(Run(EMPTY, calls))
  {
    hide Perform;
    if calls != [] {
      RunSound(calls[..|calls| - 1]);
      PerformSound(Run(EMPTY, calls[..|calls| - 1]), calls[|calls| - 1]);
    }
  }

  // ---------- consequences ----------

  ghost predicate IsOwner(members: map<(Id, Id), MemberRow>, team: Id, principal: Id) {
    (team, principal) in members && members[(team, principal)].role == Owner
  }

  lemma RoleChangeOwnership(db: Database, at: Id, target: Id, role: Role, actor: Id, tick: Tick, team: Id,
                            principal: Id)
    requires !IsOwner(db.members, team, principal)
             && IsOwner(SetMemberRole(db, at, target, role, actor, tick).db.members, team, principal)
    ensures at == team && target == principal && role == Owner && IsOwner(db.members, team, actor)
  {
    hide Grown, GrownQuietly, TeamRows, EventIdUsed, Owners;
  }

  lemma CreationOwnership(db: Database, name: string, owner: Id, chosen: Option<Id>, tick: Tick, team: Id,
                          principal: Id)
    requires team in db.teams && !IsOwner(db.members, team, principal)
    ensures !IsOwner(CreateTeam(db, name, owner, chosen, tick).db.members, team, principal)
  {
    hide Grown, GrownQuietly, TeamRows, EventIdUsed, Strip, ChosenId;
  }

  lemma AcceptanceOwnership(db: Database, secret: string, newcomer: Id, tick: Tick, team: Id, principal: Id)
    requires InvitationsInTeams(db.invitations, db.teams) && !IsOwner(db.members, team, principal)
    ensures !IsOwner(AcceptInvitation(db, secret, newcomer, tick).db.members, team, principal)
  {
    hide Grown, GrownQuietly, TeamRows, EventIdUsed;
  }

  lemma RemovalOwnership(db: Database, at: Id, target: Id, actor: Id, tick: Tick, team: Id, principal: Id)
    requires !IsOwner(db.members, team, principal)
    ensures !IsOwner(RemoveMember(db, at, target, actor, tick).db.members, team, principal)
  {
    hide Grown, GrownQuietly, TeamRows, EventIdUsed, Owners, LiveTokensOf, ReplicasOf, SharesOf;
  }

  lemma OthersKeepOwners(db: Database, c: Timed, team: Id, principal: Id)
    requires !c.call.CallSetMemberRole? && !c.call.CallCreateTeam? && !c.call.CallAcceptInvitation?
             && !c.call.CallRemoveMember?
    ensures IsOwner(Perform(db, c).db.members, team, principal) == IsOwner(db.members, team, principal)
  {
    hide IsOwner, Grown, GrownQuietly, SyncTablesKept, CreateTeam, SetMemberRole, RemoveMember, AcceptInvitation,
         CreateInvitation, RevokeInvitation, CreateProject, GrantProjectAccess, RevokeProjectAccess, IssueAccessToken,
         RevokeAccessToken, RegisterReplica, ApplyMutation, ResolveConflict;
  }

  /** After a team exists, a principal becomes its owner only by a role change that an owner of that team calls. */
  lemma OwnershipIsGranted(db: Database, c: Timed, team: Id, principal: Id)
    requires Sound(db) && team in db.teams
    requires !IsOwner(db.members, team, principal) && IsOwner(Perform(db, c).db.members, team, principal)
    ensures c.call.CallSetMemberRole? && c.call.team == team && c.call.principal == principal && c.call.role == Owner
            && IsOwner(db.members, team, c.call.actor)
  {
    hide IsOwner, Grown, GrownQuietly, SyncTablesKept, CreateTeam, SetMemberRole, RemoveMember, AcceptInvitation;
    match c.call
    case CallSetMemberRole(at, target, role, actor) =>
      RoleChangeOwnership(db, at, target, role, actor, c.tick, team, principal);
    case CallCreateTeam(name, owner, chosen) => CreationOwnership(db, name, owner, chosen, c.tick, team, principal);
    case CallAcceptInvitation(secret, newcomer) => AcceptanceOwnership(db, secret, newcomer, c.tick, team, principal);
    case CallRemoveMember(at, target, actor) => RemovalOwnership(db, at, target, actor, c.tick, team, principal);
    case _ =>
      hide Perform;
      OthersKeepOwners(db, c, team, principal);
  }

  ghost predicate HoldsNothing(db: Database, team: Id, principal: Id) {
    && LiveTokensOf(db, team, principal) == {}
    && ReplicasOf(db, team, principal) == {}
    && SharesOf(db, team, principal) == {}
  }

  lemma SoundOutsider(db: Database, team: Id, principal: Id)
    requires Sound(db) && (team, principal) !in db.members
    ensures HoldsNothing(db, team, principal)
  {
  }

  /** Whoever is not a member holds nothing in the team: no live token, no device, no share. */
  lemma OutsidersHoldNothing(calls: seq<Timed>, team: Id, principal: Id)
    requires (team, principal) !in Run(EMPTY, calls).members
    ensures HoldsNothing(Run(EMPTY, calls), team, principal)
  {
    hide Sound, Run, HoldsNothing;
    RunSound(calls);
    SoundOutsider(Run(EMPTY, calls), team, principal);
  }

  lemma JoiningBringsNothing(db: Database, secret: string, principal: Id, tick: Tick)
    requires Sound(db) && AcceptInvitation(db, secret, principal, tick).result.Success?
    ensures SecretDigest(secret) in db.invitationByDigest
            && db.invitationByDigest[SecretDigest(secret)] in db.invitations
    ensures var after := AcceptInvitation(db, secret, principal, tick).db;
            var team := db.invitations[db.invitationByDigest[SecretDigest(secret)]].team;
            (team, principal) !in db.members && (team, principal) in after.members
            && HoldsNothing(after, team, principal)
  {
    hide Sound, Grown, GrownQuietly, TeamRows, EventIdUsed, LiveTokensOf, ReplicasOf, SharesOf, HoldsNothing;
    var after := AcceptInvitation(db, secret, principal, tick).db;
    var team := db.invitations[db.invitationByDigest[SecretDigest(secret)]].team;
    SoundOutsider(db, team, principal);
    SameHoldings(db, after, team, principal);
  }

  lemma SameHoldings(db: Database, after: Database, team: Id, principal: Id)
    requires after.tokens == db.tokens && after.replicas == db.replicas && after.shares == db.shares
             && after.projects == db.projects
    ensures HoldsNothing(after, team, principal) == HoldsNothing(db, team, principal)
  {
    assert LiveTokensOf(after, team, principal) == LiveTokensOf(db, team, principal);
    assert ReplicasOf(after, team, principal) == ReplicasOf(db, team, principal);
    assert SharesOf(after, team, principal) == SharesOf(db, team, principal);
  }

  /**
   Whoever joins through an invitation, after any run, starts with no token, device or share in
   the team, whatever an earlier membership of the same principal held.
   */
  lemma RejoiningStartsEmpty(calls: seq<Timed>, secret: string, principal: Id, tick: Tick)
    requires AcceptInvitation(Run(EMPTY, calls), secret, principal, tick).result.Success?
    ensures var db := Run(EMPTY, calls);
            SecretDigest(secret) in db.invitationByDigest
            && db.invitationByDigest[SecretDigest(secret)] in db.invitations
    ensures var db := Run(EMPTY, calls);
            var after := AcceptInvitation(db, secret, principal, tick).db;
            var team := db.invitations[db.invitationByDigest[SecretDigest(secret)]].team;
            (team, principal) !in db.members && (team, principal) in after.members
            && HoldsNothing(after, team, principal)
  {
    hide Sound, Run, AcceptInvitation, HoldsNothing;
    RunSound(calls);
    JoiningBringsNothing(Run(EMPTY, calls), secret, principal, tick);
  }

  lemma SpentInvitationKept(db: Database, c: Timed, id: Id)
    requires id in db.invitations && db.invitations[id].accepted.Some?
    requires c.call.CallCreateInvitation? || c.call.CallAcceptInvitation? || c.call.CallRevokeInvitation?
    ensures var after := match c.call
                         case CallCreateInvitation(team, role, actor, hours) =>
                           CreateInvitation(db, team, role, actor, hours, c.tick).db
                         case CallAcceptInvitation(secret, principal) =>
                           AcceptInvitation(db, secret, principal, c.tick).db
                         case CallRevokeInvitation(invitation, actor) =>
                           RevokeInvitation(db, invitation, actor, c.tick).db;
            id in after.invitations && after.invitations[id] == db.invitations[id]
  {
    hide Grown, GrownQuietly, TeamRows, EventIdUsed, RequireTeamRole;
  }

  lemma SpentInvitationStays(db: Database, c: Timed, id: Id)
    requires id in db.invitations && db.invitations[id].accepted.Some?
    ensures id in Perform(db, c).db.invitations && Perform(db, c).db.invitations[id] == db.invitations[id]
  {
    hide Grown, GrownQuietly, CreateTeam, SetMemberRole, RemoveMember, CreateInvitation, AcceptInvitation,
         RevokeInvitation, CreateProject, GrantProjectAccess, RevokeProjectAccess, IssueAccessToken, RevokeAccessToken,
         RegisterReplica, ApplyMutation, ResolveConflict;
    if c.call.CallCreateInvitation? || c.call.CallAcceptInvitation? || c.call.CallRevokeInvitation? {
      SpentInvitationKept(db, c, id);
    }
  }

  /** An invitation admits at most one principal: once accepted, its row is the same after any run of calls. */
  lemma {:induction false} InvitationIsSpent(db: Database, calls: seq<Timed>, id: Id)
    requires id in db.invitations && db.invitations[id].accepted.Some?
    ensures id in Run(db, calls).invitations && Run(db, calls).invitations[id] == db.invitations[id]
  {
    hide Perform;
    if calls != [] {
      InvitationIsSpent(db, calls[..|calls| - 1], id);
      SpentInvitationStays(Run(db, calls[..|calls| - 1]), calls[|calls| - 1], id);
    }
  }
}
