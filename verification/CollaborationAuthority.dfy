/**
 When each call of the collaboration fabric is granted, and what it then changes, in terms of the
 rights read off the tables; and that nothing is ever done without the right to it.
 */
module CollaborationAuthority {
  import opened Prelude
  import opened SyncMutations
  import opened CollaborationTables
  import opened CollaborationRights
  import opened CollaborationCalls

  /** Exactly one audit row more, saying who did what and when. */
  predicate Audited(db: Database, after: Database, team: Id, actor: Id, body: AuditBody, tick: Tick) {
    && |after.audit| == |db.audit| + 1 && after.audit[..|db.audit|] == db.audit
    && after.audit[|db.audit|].core == AuditCore(tick.eventId, team, actor, body, tick.now)
  }

  /** A transaction goes through exactly when its audit event id is new. */
  lemma CommitIff(db: Database, after: Database, team: Id, actor: Id, body: AuditBody, tick: Tick, reply: Reply)
    ensures var r := Commit(db, after, team, actor, body, tick, reply);
            && (r.result.Success? <==> NewEvent(db, tick))
            && (if r.result.Success? then
                  && r.db == after.(audit := r.db.audit) && r.result.value == reply
                  && Audited(db, r.db, team, actor, body, tick)
                else r == Refuse(db, Storage))
  {
    EventIdNew(db, tick);
    hide EventIdUsed, NewEvent, TeamRows, Grown, GrownQuietly, SyncTablesKept;
  }

  lemma EventIdNew(db: Database, tick: Tick)
    ensures NewEvent(db, tick) <==> !EventIdUsed(db.audit, tick.eventId)
  {
    assert forall i | 0 <= i < |db.audit| :: db.audit[i] in db.audit;
  }

  /** No audit row has the event id of this call. */
  predicate NewEvent(db: Database, tick: Tick) {
    forall row | row in db.audit :: row.core.eventId != tick.eventId
  }

  /** Same keys, and the same rows but at one key. */
  ghost predicate SameBut<K(!new), V>(before: map<K, V>, after: map<K, V>, key: K) {
    forall k | k != key :: (k in after <==> k in before) && (k in before ==> after[k] == before[k])
  }

  // ---------- teams and members ----------

  lemma CreateTeamIff(db: Database, name: string, owner: Id, team: Option<Id>, tick: Tick)
    ensures var r := CreateTeam(db, name, owner, team, tick);
            var id := if team in {None, Some("")} then tick.freshId else team.value;
            && (r.result.Success? <==>
                  !Blank(name) && !Blank(owner) && id !in db.teams && (id, Strip(owner)) !in db.members
                  && NewEvent(db, tick))
            && (if r.result.Success? then
                  && r.result.value == Created(id)
                  && SameBut(db.teams, r.db.teams, id) && SameBut(db.members, r.db.members, (id, Strip(owner)))
                  && id in r.db.teams && r.db.teams[id] == TeamRow(Strip(name), Strip(owner), tick.now)
                  && (id, Strip(owner)) in r.db.members
                  && r.db.members[(id, Strip(owner))] == MemberRow(Owner, tick.now)
                  && Audited(db, r.db, id, Strip(owner), TeamCreated(Strip(name)), tick)
                else r == Refuse(db, if Blank(name) || Blank(owner) || id in db.teams
                                        || (id, Strip(owner)) in db.members then Integrity else Storage))
  {
    hide Commit, NewEvent, Audited, Strip, Grown, GrownQuietly, SyncTablesKept;
    var id := ChosenId(team, tick.freshId);
    CommitIff(db, db.(teams := db.teams[id := TeamRow(Strip(name), Strip(owner), tick.now)],
                      members := db.members[(id, Strip(owner)) := MemberRow(Owner, tick.now)]),
              id, Strip(owner), TeamCreated(Strip(name)), tick, Created(id));
  }

  /** Only who runs the team changes roles, only an owner touches ownership, and never the last owner's. */
  lemma RoleChangeIff(db: Database, team: Id, principal: Id, role: Role, actor: Id, tick: Tick)
    ensures var r := SetMemberRole(db, team, principal, role, actor, tick);
            var permitted := && RunsTeam(db, team, actor) && (team, principal) in db.members
                             && var was := db.members[(team, principal)].role;
                                && (Owner in {was, role} ==> IsOwner(db, team, actor))
                                && (was == Owner && role != Owner ==> HasOtherOwner(db, team, principal));
            && (r.result.Success? <==> role in {Viewer, Member, Admin, Owner} && permitted && NewEvent(db, tick))
            && (if r.result.Success? then
                  && SameBut(db.members, r.db.members, (team, principal))
                  && (team, principal) in db.members && (team, principal) in r.db.members
                  && var was := db.members[(team, principal)];
                     && r.db.members[(team, principal)] == MemberRow(role, was.joinedAt)
                     && r.result.value == MemberIs(MemberRow(role, was.joinedAt))
                     && Audited(db, r.db, team, actor, RoleChanged(principal, was.role, role), tick)
                else r == Refuse(db, if role.OtherRole? then Integrity else if permitted then Storage else Denied))
  {
    EventIdNew(db, tick);
    hide NewEvent, EventIdUsed, TeamRows, Grown, GrownQuietly, SyncTablesKept, Owners, HasOtherOwner;
    if IsOwner(db, team, principal) {
      LastOwnerIff(db, team, principal);
    }
  }

  /** What a removed member held in the team is gone, and nothing else is. */
  ghost predicate Stripped(db: Database, after: Database, team: Id, principal: Id, now: int) {
    && SameBut(db.members, after.members, (team, principal)) && (team, principal) !in after.members
    && (forall k :: k in after.tokens <==> k in db.tokens)
    && (forall k | k in db.tokens ::
          var row := db.tokens[k];
          after.tokens[k] == if row.team == team && row.principal == principal && row.revokedAt.None?
                             then row.(revokedAt := Some(now)) else row)
    && (forall k :: k in after.replicas <==>
          k in db.replicas && !(k.0 == team && db.replicas[k].principal == principal))
    && (forall k | k in after.replicas :: after.replicas[k] == db.replicas[k])
    && (forall k :: k in after.shares <==>
          k in db.shares && !(k.1 == principal && k.0 in db.projects && db.projects[k.0].team == team))
    && (forall k | k in after.shares :: after.shares[k] == db.shares[k])
  }

  lemma RemovalIff(db: Database, team: Id, principal: Id, actor: Id, tick: Tick)
    ensures var r := RemoveMember(db, team, principal, actor, tick);
            var permitted := && RunsTeam(db, team, actor) && (team, principal) in db.members
                             && (IsOwner(db, team, principal) ==>
                                   IsOwner(db, team, actor) && HasOtherOwner(db, team, principal));
            && (r.result.Success? <==> permitted && NewEvent(db, tick))
            && (if r.result.Success? then
                  && Stripped(db, r.db, team, principal, tick.now)
                  && r.result.value.Removed?
                  && |r.db.replicas| == |db.replicas| - r.result.value.replicas
                  && |r.db.shares| == |db.shares| - r.result.value.shares
                  && r.result.value.tokens == |LiveTokensOf(db, team, principal)|
                  && (team, principal) in db.members
                  && Audited(db, r.db, team, actor,
                             MemberRemoved(principal, db.members[(team, principal)].role, r.result.value.tokens,
                                           r.result.value.replicas, r.result.value.shares), tick)
                else r == Refuse(db, if permitted then Storage else Denied))
  {
    EventIdNew(db, tick);
    hide NewEvent, EventIdUsed, TeamRows, Grown, GrownQuietly, SyncTablesKept, Owners, HasOtherOwner, Expel;
    if IsOwner(db, team, principal) {
      LastOwnerIff(db, team, principal);
    }
    if (team, principal) in db.members {
      ExpelStrips(db, team, principal, db.members[(team, principal)].role, actor, tick);
    }
  }

  lemma ExpelStrips(db: Database, team: Id, principal: Id, was: Role, actor: Id, tick: Tick)
    ensures var r := Expel(db, team, principal, was, actor, tick);
            && (r.result.Success? <==> NewEvent(db, tick))
            && (if r.result.Success? then
                  && Stripped(db, r.db, team, principal, tick.now)
                  && r.result.value.Removed?
                  && |r.db.replicas| == |db.replicas| - r.result.value.replicas
                  && |r.db.shares| == |db.shares| - r.result.value.shares
                  && r.result.value.tokens == |LiveTokensOf(db, team, principal)|
                  && Audited(db, r.db, team, actor,
                             MemberRemoved(principal, was, r.result.value.tokens, r.result.value.replicas,
                                           r.result.value.shares), tick)
                else r == Refuse(db, Storage))
  {
    WithoutIsSmaller(db.replicas, ReplicasOf(db, team, principal));
    WithoutIsSmaller(db.shares, SharesOf(db, team, principal));
    var after := Expel(db, team, principal, was, actor, tick).db;
    if NewEvent(db, tick) {
      StrippedTables(db, after, team, principal, tick.now);
    }
    EventIdNew(db, tick);
    hide NewEvent, EventIdUsed, TeamRows, Grown, GrownQuietly, SyncTablesKept, LiveTokensOf, ReplicasOf, SharesOf,
         RevokeAll, Without, Stripped;
  }

  lemma StrippedTables(db: Database, after: Database, team: Id, principal: Id, now: int)
    requires after.members == Without(db.members, {(team, principal)})
    requires after.tokens == RevokeAll(db.tokens, LiveTokensOf(db, team, principal), now)
    requires after.replicas == Without(db.replicas, ReplicasOf(db, team, principal))
    requires after.shares == Without(db.shares, SharesOf(db, team, principal))
    ensures Stripped(db, after, team, principal, now)
  {
  }

  lemma WithoutIsSmaller<K, V>(table: map<K, V>, keys: set<K>)
    requires keys <= table.Keys
    ensures |Without(table, keys)| == |table| - |keys|
  {
    assert Without(table, keys).Keys == table.Keys - keys;
    assert |table.Keys| == |table| && |Without(table, keys).Keys| == |Without(table, keys)|;
  }

  // ---------- invitations ----------

  /** The invitation a secret stands for, if it can still be used. */
  predicate Opens(db: Database, secret: string, id: Id, now: int) {
    && SecretDigest(secret) in db.invitationByDigest && db.invitationByDigest[SecretDigest(secret)] == id
    && id in db.invitations
    && db.invitations[id].accepted.None? && db.invitations[id].revokedAt.None? && now < db.invitations[id].expiresAt
  }

  lemma NewInvitationOpens(db: Database, secret: string, id: Id)
    ensures SecretDigest(secret) in db.invitationByDigest && db.invitationByDigest[SecretDigest(secret)] == id
            && id in db.invitations && db.invitations[id].accepted.None? && db.invitations[id].revokedAt.None?
            ==> forall now :: Opens(db, secret, id, now) <==> now < db.invitations[id].expiresAt
  {
  }

  lemma InvitationIff(db: Database, team: Id, role: Role, actor: Id, hours: int, tick: Tick)
    ensures var r := CreateInvitation(db, team, role, actor, hours, tick);
            && (r.result.Success? <==>
                  && role in {Viewer, Member, Admin} && RunsTeam(db, team, actor) && 1 <= hours <= 720
                  && tick.freshId !in db.invitations && SecretDigest(tick.secret) !in db.invitationByDigest
                  && NewEvent(db, tick))
            && (if r.result.Success? then
                  && r.result.value == Created(tick.freshId)
                  && SameBut(db.invitations, r.db.invitations, tick.freshId)
                  && SameBut(db.invitationByDigest, r.db.invitationByDigest, SecretDigest(tick.secret))
                  && tick.freshId in r.db.invitations
                  && (forall now :: Opens(r.db, tick.secret, tick.freshId, now) <==> now < tick.now + 3600 * hours)
                  && r.db.invitations[tick.freshId].team == team && r.db.invitations[tick.freshId].role == role
                  && r.db.invitations[tick.freshId].createdBy == actor
                  && Audited(db, r.db, team, actor,
                             InvitationCreated(tick.freshId, role, tick.now + 3600 * hours), tick)
                else r == Refuse(db, if role !in {Viewer, Member, Admin} then Integrity
                                     else if !RunsTeam(db, team, actor) then Denied
                                     else if !(1 <= hours <= 720) then Integrity else Storage))
  {
    hide Commit, NewEvent, Audited, RunsTeam, RequireTeamRole, Opens, Grown, GrownQuietly, SyncTablesKept;
    TeamRoleIff(db, team, actor);
    var expires := tick.now + hours * 3600;
    var row := InvitationRow(team, role, SecretDigest(tick.secret), actor, tick.now, expires, None, None);
    CommitIff(db, db.(invitations := db.invitations[tick.freshId := row],
                      invitationByDigest := db.invitationByDigest[row.digest := tick.freshId]),
              team, actor, InvitationCreated(tick.freshId, role, expires), tick, Created(tick.freshId));
    NewInvitationOpens(CreateInvitation(db, team, role, actor, hours, tick).db, tick.secret, tick.freshId);
  }

  lemma AcceptanceIff(db: Database, secret: string, principal: Id, tick: Tick)
    ensures var r := AcceptInvitation(db, secret, principal, tick);
            && (r.result.Success? <==>
                  exists id :: Opens(db, secret, id, tick.now)
                               && (db.invitations[id].team, principal) !in db.members && NewEvent(db, tick))
            && (forall id | Opens(db, secret, id, tick.now) && r.result.Success? ::
                  var team, row := db.invitations[id].team, MemberRow(db.invitations[id].role, tick.now);
                  && SameBut(db.members, r.db.members, (team, principal))
                  && SameBut(db.invitations, r.db.invitations, id)
                  && (team, principal) in r.db.members && r.db.members[(team, principal)] == row
                  && id in r.db.invitations
                  && r.db.invitations[id] == db.invitations[id].(accepted := Some((principal, tick.now)))
                  && r.result.value == MemberIs(row)
                  && Audited(db, r.db, team, principal, InvitationAccepted(id, row.role), tick))
            && (r.result.Failure? ==>
                  r == Refuse(db, if exists id :: Opens(db, secret, id, tick.now)
                                                  && (db.invitations[id].team, principal) !in db.members
                                  then Storage else InvitationInvalid))
  {
    EventIdNew(db, tick);
    hide NewEvent, EventIdUsed, TeamRows, Grown, GrownQuietly, SyncTablesKept;
    if SecretDigest(secret) in db.invitationByDigest {
      var id := db.invitationByDigest[SecretDigest(secret)];
      assert Opens(db, secret, id, tick.now) ==> forall other | Opens(db, secret, other, tick.now) :: other == id;
    }
  }

  /** A secret admits one guest at a time before it expires, in exactly the role it was made out for. */
  lemma InvitationAdmits(db: Database, team: Id, role: Role, actor: Id, hours: int, tick: Tick, guest: Id, later: Tick)
    requires CreateInvitation(db, team, role, actor, hours, tick).result.Success?
    ensures var invited := CreateInvitation(db, team, role, actor, hours, tick).db;
            var joined := AcceptInvitation(invited, tick.secret, guest, later);
            && (joined.result.Success? <==>
                  later.now < tick.now + 3600 * hours && (team, guest) !in db.members && NewEvent(invited, later))
            && (joined.result.Success? ==>
                  && (team, guest) in joined.db.members && joined.db.members[(team, guest)].role == role
                  && forall other, next :: AcceptInvitation(joined.db, tick.secret, other, next).result.Failure?)
  {
    InvitationIff(db, team, role, actor, hours, tick);
    var invited := CreateInvitation(db, team, role, actor, hours, tick).db;
    AcceptanceIff(invited, tick.secret, guest, later);
    var joined := AcceptInvitation(invited, tick.secret, guest, later);
    hide CreateInvitation, AcceptInvitation, EventIdUsed;
    assert Opens(invited, tick.secret, tick.freshId, later.now) <==> later.now < tick.now + 3600 * hours;
    if joined.result.Success? {
      assert Opens(invited, tick.secret, tick.freshId, tick.now);
      forall other, next ensures AcceptInvitation(joined.db, tick.secret, other, next).result.Failure? {
        AcceptanceIff(joined.db, tick.secret, other, next);
      }
    }
  }

  lemma InvitationRevokedIff(db: Database, invitation: Id, actor: Id, tick: Tick)
    ensures var r := RevokeInvitation(db, invitation, actor, tick);
            && (r.result.Success? <==>
                  && invitation in db.invitations && RunsTeam(db, db.invitations[invitation].team, actor)
                  && db.invitations[invitation].accepted.None? && NewEvent(db, tick))
            && (if r.result.Success? then
                  && SameBut(db.invitations, r.db.invitations, invitation) && invitation in r.db.invitations
                  && r.db.invitations[invitation] == db.invitations[invitation].(revokedAt := Some(tick.now))
                  && (forall secret, now :: !Opens(r.db, secret, invitation, now))
                  && Audited(db, r.db, db.invitations[invitation].team, actor, InvitationRevoked(invitation), tick)
                else r == Refuse(db, if invitation !in db.invitations then NotFound
                                     else if !RunsTeam(db, db.invitations[invitation].team, actor) then Denied
                                     else if db.invitations[invitation].accepted.Some? then InvitationInvalid
                                     else Storage))
  {
    EventIdNew(db, tick);
    hide NewEvent, EventIdUsed, TeamRows, Grown, GrownQuietly, SyncTablesKept, RequireTeamRole;
    if invitation in db.invitations {
      TeamRoleIff(db, db.invitations[invitation].team, actor);
    }
  }

  // ---------- projects and shares ----------

  lemma ProjectIff(db: Database, team: Id, name: string, actor: Id, project: Option<Id>, tick: Tick)
    ensures var r := CreateProject(db, team, name, actor, project, tick);
            var id := if project in {None, Some("")} then tick.freshId else project.value;
            && (r.result.Success? <==>
                  && (team, actor) in db.members && db.members[(team, actor)].role in {Member, Admin, Owner}
                  && id !in db.projects && (id, actor) !in db.shares && NewEvent(db, tick))
            && (if r.result.Success? then
                  && r.result.value == Created(id)
                  && SameBut(db.projects, r.db.projects, id) && SameBut(db.shares, r.db.shares, (id, actor))
                  && id in r.db.projects
                  && r.db.projects[id] == ProjectRow(team, if Blank(name) then id else Strip(name), actor, tick.now)
                  && (id, actor) in r.db.shares
                  && r.db.shares[(id, actor)] == ShareRow(Manage, actor, tick.now)
                  && MayManage(r.db, id, actor)
                  && Audited(db, r.db, team, actor, ProjectCreated(id, r.db.projects[id].name), tick)
                else r == Refuse(db, if (team, actor) !in db.members
                                        || db.members[(team, actor)].role !in {Member, Admin, Owner} then Denied
                                     else if id in db.projects || (id, actor) in db.shares then Integrity
                                     else Storage))
  {
    TeamRoleIff(db, team, actor);
    var id := ChosenId(project, tick.freshId);
    CommitIff(db, db.(projects := db.projects[id := ProjectRow(team, ProjectName(name, id), actor, tick.now)],
                      shares := db.shares[(id, actor) := ShareRow(Manage, actor, tick.now)]),
              team, actor, ProjectCreated(id, ProjectName(name, id)), tick, Created(id));
    hide Commit, NewEvent, Audited, RequireTeamRole, Strip;
  }

  /** A manager sets a member's level; the member's rights are then those of the level, or of their role. */
  lemma ShareIff(db: Database, project: Id, principal: Id, access: Access, actor: Id, tick: Tick)
    ensures var r := GrantProjectAccess(db, project, principal, access, actor, tick);
            && (r.result.Success? <==>
                  && access in {View, Edit, Manage} && MayManage(db, project, actor)
                  && (db.projects[project].team, principal) in db.members && NewEvent(db, tick))
            && (if r.result.Success? then
                  && SameBut(db.shares, r.db.shares, (project, principal)) && (project, principal) in r.db.shares
                  && r.db.shares[(project, principal)] == ShareRow(access, actor, tick.now)
                  && project in db.projects
                  && var runs := RunsTeam(db, db.projects[project].team, principal);
                     && MayRead(r.db, project, principal)
                     && (MayEdit(r.db, project, principal) <==> runs || access in {Edit, Manage})
                     && (MayManage(r.db, project, principal) <==> runs || access == Manage)
                     && Audited(db, r.db, db.projects[project].team, actor, ShareGranted(project, principal, access),
                                tick)
                else r == Refuse(db, if access.OtherAccess? then Integrity
                                     else if project !in db.projects then NotFound
                                     else if !MayManage(db, project, actor)
                                             || (db.projects[project].team, principal) !in db.members then Denied
                                     else Storage))
  {
    hide Commit, NewEvent, Audited, RequireAccess, Grown, GrownQuietly, SyncTablesKept;
    AccessIff(db, project, actor);
    if project in db.projects {
      CommitIff(db, db.(shares := db.shares[(project, principal) := ShareRow(access, actor, tick.now)]),
                db.projects[project].team, actor, ShareGranted(project, principal, access), tick, Done);
    }
  }

  /** A revoked share is gone, and who does not run the team can then do nothing in the project. */
  lemma UnshareIff(db: Database, project: Id, principal: Id, actor: Id, tick: Tick)
    ensures var r := RevokeProjectAccess(db, project, principal, actor, tick);
            && (r.result.Success? <==>
                  MayManage(db, project, actor) && principal != db.projects[project].createdBy && NewEvent(db, tick))
            && (if r.result.Success? then
                  && SameBut(db.shares, r.db.shares, (project, principal)) && (project, principal) !in r.db.shares
                  && project in db.projects
                  && (MayRead(r.db, project, principal) <==> RunsTeam(db, db.projects[project].team, principal))
                  && (MayEdit(r.db, project, principal) <==> RunsTeam(db, db.projects[project].team, principal))
                  && Audited(db, r.db, db.projects[project].team, actor, ShareRevoked(project, principal), tick)
                else r == Refuse(db, if project !in db.projects then NotFound
                                     else if !MayManage(db, project, actor)
                                             || principal == db.projects[project].createdBy then Denied
                                     else Storage))
  {
    hide Commit, NewEvent, Audited, RequireAccess, Grown, GrownQuietly, SyncTablesKept;
    AccessIff(db, project, actor);
    if project in db.projects {
      CommitIff(db, db.(shares := Without(db.shares, {(project, principal)})), db.projects[project].team, actor,
                ShareRevoked(project, principal), tick, Done);
    }
  }

  // ---------- tokens and devices ----------

  /** At most 120 characters of the caption are kept, and a default stands in for an empty one. */
  predicate Captioned(kept: string, caption: string, default: string) {
    if caption == "" then kept == default
    else kept <= caption && |kept| == if |caption| <= 120 then |caption| else 120
  }

  lemma LabelIs(caption: string, default: string)
    ensures Captioned(Label(caption, default), caption, default)
  {
  }

  lemma NewTokenAuthenticates(db: Database, secret: string, token: Id)
    ensures SecretDigest(secret) in db.tokenByDigest && db.tokenByDigest[SecretDigest(secret)] == token
            && token in db.tokens && db.tokens[token].revokedAt.None?
            ==> forall now :: Authenticates(db, secret, token, now) <==> now < db.tokens[token].expiresAt
  {
  }

  lemma TokenIff(db: Database, team: Id, principal: Id, caption: string, hours: int, tick: Tick)
    ensures var r := IssueAccessToken(db, team, principal, caption, hours, tick);
            && (r.result.Success? <==>
                  && (team, principal) in db.members && 1 <= hours <= 8760
                  && tick.freshId !in db.tokens && SecretDigest(tick.secret) !in db.tokenByDigest && NewEvent(db, tick))
            && (if r.result.Success? then
                  && r.result.value == Created(tick.freshId)
                  && SameBut(db.tokens, r.db.tokens, tick.freshId)
                  && SameBut(db.tokenByDigest, r.db.tokenByDigest, SecretDigest(tick.secret))
                  && tick.freshId in r.db.tokens
                  && (forall now :: Authenticates(r.db, tick.secret, tick.freshId, now)
                                    <==> now < tick.now + 3600 * hours)
                  && r.db.tokens[tick.freshId].team == team && r.db.tokens[tick.freshId].principal == principal
                  && Captioned(r.db.tokens[tick.freshId].caption, caption, "client")
                  && Audited(db, r.db, team, principal,
                             TokenIssued(tick.freshId, r.db.tokens[tick.freshId].caption, tick.now + 3600 * hours),
                             tick)
                else r == Refuse(db, if (team, principal) !in db.members then Denied
                                     else if !(1 <= hours <= 8760) then Integrity else Storage))
  {
    hide Commit, NewEvent, Audited, Label, Captioned, Authenticates, Grown, GrownQuietly, SyncTablesKept;
    LabelIs(caption, "client");
    var row := TokenRow(team, principal, SecretDigest(tick.secret), Label(caption, "client"), tick.now,
                        tick.now + hours * 3600, None);
    var issued := db.(tokens := db.tokens[tick.freshId := row],
                      tokenByDigest := db.tokenByDigest[row.digest := tick.freshId]);
    CommitIff(db, issued, team, principal, TokenIssued(tick.freshId, row.caption, row.expiresAt), tick,
              Created(tick.freshId));
    NewTokenAuthenticates(IssueAccessToken(db, team, principal, caption, hours, tick).db, tick.secret, tick.freshId);
  }

  lemma TokenRevokedIff(db: Database, token: Id, actor: Id, tick: Tick)
    ensures var r := RevokeAccessToken(db, token, actor, tick);
            && (r.result.Success? <==>
                  && token in db.tokens
                  && (actor == db.tokens[token].principal || RunsTeam(db, db.tokens[token].team, actor))
                  && NewEvent(db, tick))
            && (if r.result.Success? then
                  && SameBut(db.tokens, r.db.tokens, token) && token in r.db.tokens
                  && r.db.tokens[token] == db.tokens[token].(revokedAt := Some(tick.now))
                  && (forall secret, now :: !Authenticates(r.db, secret, token, now))
                  && Audited(db, r.db, db.tokens[token].team, actor, TokenRevoked(token), tick)
                else r == Refuse(db, if token !in db.tokens then NotFound
                                     else if actor != db.tokens[token].principal
                                             && !RunsTeam(db, db.tokens[token].team, actor) then Denied
                                     else Storage))
  {
    hide Commit, NewEvent, Audited, RequireTeamRole, RunsTeam, Grown, GrownQuietly, SyncTablesKept;
    if token in db.tokens {
      var row := db.tokens[token];
      TeamRoleIff(db, row.team, actor);
      CommitIff(db, db.(tokens := db.tokens[token := row.(revokedAt := Some(tick.now))]), row.team, actor,
                TokenRevoked(token), tick, Done);
    }
  }

  lemma DeviceIff(db: Database, team: Id, principal: Id, device: Option<Id>, caption: string, tick: Tick)
    ensures var r := RegisterReplica(db, team, principal, device, caption, tick);
            var id := if device in {None, Some("")} then tick.freshId else device.value;
            && (r.result.Success? <==>
                  (team, principal) in db.members && (team, id) !in db.replicas && NewEvent(db, tick))
            && (if r.result.Success? then
                  && r.result.value == Created(id)
                  && SameBut(db.replicas, r.db.replicas, (team, id)) && (team, id) in r.db.replicas
                  && var row := r.db.replicas[(team, id)];
                     && row.principal == principal && row.lastSequence == 0 && row.lastHash == None
                     && Captioned(row.caption, caption, "device")
                     && Audited(db, r.db, team, principal, ReplicaRegistered(id, row.caption), tick)
                else r == Refuse(db, if (team, principal) !in db.members then Denied
                                     else if (team, id) in db.replicas then Integrity else Storage))
  {
    var id := ChosenId(device, tick.freshId);
    var row := ReplicaRow(principal, Label(caption, "device"), tick.now, 0, None);
    CommitIff(db, db.(replicas := db.replicas[(team, id) := row]), team, principal,
              ReplicaRegistered(id, row.caption), tick, Created(id));
    hide Commit, NewEvent, Audited, Label, Captioned;
    LabelIs(caption, "device");
  }
}
