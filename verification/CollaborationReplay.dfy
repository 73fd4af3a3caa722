/**
 Replaying a team's audit log: in every reachable state the fold of the log is the team's tables.
 */
module CollaborationReplay {
  import opened Prelude
  import opened SyncMutations
  import opened CollaborationTables
  import opened CollaborationCalls
  import opened CollaborationMembership
  import opened CollaborationAudit
  import HashChain

  // ---------- one table, one change ----------

  lemma MembersSet(members: map<(Id, Id), MemberRow>, t: Id, view: map<Id, Role>, k: (Id, Id), row: MemberRow)
    requires MembersMatch(members, t, view)
    ensures MembersMatch(members[k := row], t, if t == k.0 then view[k.1 := row.role] else view)
  {
  }

  lemma SharesSet(shares: map<(Id, Id), ShareRow>, projects: map<Id, ProjectRow>, t: Id, view: map<(Id, Id), Access>,
                  k: (Id, Id), row: ShareRow)
    requires SharesMatch(shares, projects, t, view) && k.0 in projects
    ensures SharesMatch(shares[k := row], projects, t, if t == projects[k.0].team then view[k := row.access] else view)
  {
  }

  lemma SharesDropped(shares: map<(Id, Id), ShareRow>, projects: map<Id, ProjectRow>, t: Id,
                      view: map<(Id, Id), Access>, k: (Id, Id))
    requires SharesMatch(shares, projects, t, view) && k.0 in projects
    ensures SharesMatch(Without(shares, {k}), projects, t, if t == projects[k.0].team then view - {k} else view)
  {
  }

  lemma ProjectAdded(shares: map<(Id, Id), ShareRow>, projects: map<Id, ProjectRow>,
                     members: map<(Id, Id), MemberRow>, t: Id, view: map<(Id, Id), Access>, id: Id, row: ProjectRow)
    requires SharesMatch(shares, projects, t, view) && id !in projects
    requires SharesOfMembers(shares, projects, members)
    ensures SharesMatch(shares, projects[id := row], t, view)
  {
  }

  lemma TokenAdded(tokens: map<Id, TokenRow>, t: Id, view: map<Id, Id>, k: Id, row: TokenRow)
    requires TokensMatch(tokens, t, view) && k !in tokens && row.revokedAt.None?
    ensures TokensMatch(tokens[k := row], t, if t == row.team then view[k := row.principal] else view)
  {
  }

  lemma TokenEnded(tokens: map<Id, TokenRow>, t: Id, view: map<Id, Id>, k: Id, now: int)
    requires TokensMatch(tokens, t, view) && k in tokens
    ensures TokensMatch(tokens[k := tokens[k].(revokedAt := Some(now))], t, if t == tokens[k].team then view - {k}
                                                                            else view)
  {
  }

  lemma ReplicaSet(replicas: map<(Id, Id), ReplicaRow>, t: Id, view: map<Id, Head>, k: (Id, Id), row: ReplicaRow)
    requires ReplicasMatch(replicas, t, view)
    ensures ReplicasMatch(replicas[k := row], t,
                          if t == k.0 then view[k.1 := Head(row.principal, row.lastSequence, row.lastHash)] else view)
  {
  }

  // ---------- one lemma per call ----------

  lemma CreateTeamFolds(db: Database, name: string, owner: Id, team: Option<Id>, tick: Tick)
    requires Sound(db) && Folded(db)
    ensures Folded(CreateTeam(db, name, owner, team, tick).db)
  {
    hide Grown, GrownQuietly, TeamRows, EventIdUsed, ViewOf, MembersMatch, SharesMatch, ReplicasMatch, TokensMatch,
         MembersInTeams, TeamsOwned, InvitationsInTeams, InvitationsIndexed, ProjectsInTeams, SharesOfMembers,
         TokensOfMembers, TokensInTeams, TokensIndexed, ReplicasOfMembers, AuditInTeams, Strip, ChosenId;
    var after := CreateTeam(db, name, owner, team, tick).db;
    if after.audit != db.audit {
      forall t ensures Matches(after, t, ViewOf(TeamRows(after.audit, t))) {
        assert Matches(db, t, ViewOf(TeamRows(db.audit, t)));
        ViewAfter(db.audit, after.audit, t);
        var v := ViewOf(TeamRows(db.audit, t));
        MembersSet(db.members, t, v.members, (ChosenId(team, tick.freshId), Strip(owner)), MemberRow(Owner, tick.now));
      }
    }
  }

  lemma ChangeRoleFolds(db: Database, team: Id, principal: Id, target: MemberRow, role: Role, actor: Id, tick: Tick)
    requires Sound(db) && Folded(db)
    ensures Folded(ChangeRole(db, team, principal, target, role, actor, tick).db)
  {
    hide Grown, GrownQuietly, TeamRows, EventIdUsed, ViewOf, MembersMatch, SharesMatch, ReplicasMatch, TokensMatch,
         MembersInTeams, TeamsOwned, InvitationsInTeams, InvitationsIndexed, ProjectsInTeams, SharesOfMembers,
         TokensOfMembers, TokensInTeams, TokensIndexed, ReplicasOfMembers, AuditInTeams;
    var after := ChangeRole(db, team, principal, target, role, actor, tick).db;
    if after.audit != db.audit {
      forall t ensures Matches(after, t, ViewOf(TeamRows(after.audit, t))) {
        assert Matches(db, t, ViewOf(TeamRows(db.audit, t)));
        ViewAfter(db.audit, after.audit, t);
        var v := ViewOf(TeamRows(db.audit, t));
        MembersSet(db.members, t, v.members, (team, principal), target.(role := role));
      }
    }
  }

  lemma SetMemberRoleFolds(db: Database, team: Id, principal: Id, role: Role, actor: Id, tick: Tick)
    requires Sound(db) && Folded(db)
    ensures Folded(SetMemberRole(db, team, principal, role, actor, tick).db)
  {
    hide Sound, Folded, Grown, GrownQuietly, Owners, ChangeRole, RequireTeamRole;
    if (team, principal) in db.members {
      ChangeRoleFolds(db, team, principal, db.members[(team, principal)], role, actor, tick);
    }
  }

  lemma ExpelMembers(db: Database, team: Id, principal: Id, t: Id, v: TeamView)
    requires Matches(db, t, v)
    ensures MembersMatch(Without(db.members, {(team, principal)}), t,
                         (if t == team then WithoutMember(v, principal) else v).members)
  {
    hide SharesMatch, ReplicasMatch, TokensMatch;
  }

  lemma ExpelShares(db: Database, team: Id, principal: Id, t: Id, v: TeamView)
    requires Matches(db, t, v)
    ensures SharesMatch(Without(db.shares, SharesOf(db, team, principal)), db.projects, t,
                        (if t == team then WithoutMember(v, principal) else v).shares)
  {
    hide MembersMatch, ReplicasMatch, TokensMatch;
  }

  lemma ExpelReplicas(db: Database, team: Id, principal: Id, t: Id, v: TeamView)
    requires Matches(db, t, v)
    ensures ReplicasMatch(Without(db.replicas, ReplicasOf(db, team, principal)), t,
                          (if t == team then WithoutMember(v, principal) else v).replicas)
  {
    hide MembersMatch, SharesMatch, TokensMatch;
  }

  lemma ExpelTokens(db: Database, team: Id, principal: Id, t: Id, v: TeamView, now: int)
    requires Matches(db, t, v)
    ensures TokensMatch(RevokeAll(db.tokens, LiveTokensOf(db, team, principal), now), t,
                        (if t == team then WithoutMember(v, principal) else v).tokens)
  {
    hide MembersMatch, SharesMatch, ReplicasMatch;
  }

  lemma ExpelFolds(db: Database, team: Id, principal: Id, was: Role, actor: Id, tick: Tick)
    requires Sound(db) && Folded(db)
    ensures Folded(Expel(db, team, principal, was, actor, tick).db)
  {
    hide Grown, GrownQuietly, TeamRows, EventIdUsed, ViewOf, MembersMatch, SharesMatch, ReplicasMatch, TokensMatch,
         Sound, WithoutMember, RevokeAll, Without, LiveTokensOf, ReplicasOf, SharesOf;
    var after := Expel(db, team, principal, was, actor, tick).db;
    if after.audit != db.audit {
      forall t ensures Matches(after, t, ViewOf(TeamRows(after.audit, t))) {
        assert Matches(db, t, ViewOf(TeamRows(db.audit, t)));
        ViewAfter(db.audit, after.audit, t);
        var v := ViewOf(TeamRows(db.audit, t));
        ExpelMembers(db, team, principal, t, v);
        ExpelShares(db, team, principal, t, v);
        ExpelReplicas(db, team, principal, t, v);
        ExpelTokens(db, team, principal, t, v, tick.now);
      }
    }
  }

  lemma RemoveMemberFolds(db: Database, team: Id, principal: Id, actor: Id, tick: Tick)
    requires Sound(db) && Folded(db)
    ensures Folded(RemoveMember(db, team, principal, actor, tick).db)
  {
    hide Sound, Folded, Grown, GrownQuietly, Owners, Expel, RequireTeamRole;
    if (team, principal) in db.members {
      ExpelFolds(db, team, principal, db.members[(team, principal)].role, actor, tick);
    }
  }

  lemma CreateInvitationFolds(db: Database, team: Id, role: Role, createdBy: Id, hours: int, tick: Tick)
    requires Sound(db) && Folded(db)
    ensures Folded(CreateInvitation(db, team, role, createdBy, hours, tick).db)
  {
    hide Grown, GrownQuietly, TeamRows, EventIdUsed, ViewOf, MembersMatch, SharesMatch, ReplicasMatch, TokensMatch,
         MembersInTeams, TeamsOwned, InvitationsInTeams, InvitationsIndexed, ProjectsInTeams, SharesOfMembers,
         TokensOfMembers, TokensInTeams, TokensIndexed, ReplicasOfMembers, AuditInTeams, RequireTeamRole;
    var after := CreateInvitation(db, team, role, createdBy, hours, tick).db;
    if after.audit != db.audit {
      forall t ensures Matches(after, t, ViewOf(TeamRows(after.audit, t))) {
        assert Matches(db, t, ViewOf(TeamRows(db.audit, t)));
        ViewAfter(db.audit, after.audit, t);
      }
    }
  }

  lemma AcceptInvitationFolds(db: Database, secret: string, principal: Id, tick: Tick)
    requires Sound(db) && Folded(db)
    ensures Folded(AcceptInvitation(db, secret, principal, tick).db)
  {
    hide Grown, GrownQuietly, TeamRows, EventIdUsed, ViewOf, MembersMatch, SharesMatch, ReplicasMatch, TokensMatch,
         MembersInTeams, TeamsOwned, InvitationsInTeams, InvitationsIndexed, ProjectsInTeams, SharesOfMembers,
         TokensOfMembers, TokensInTeams, TokensIndexed, ReplicasOfMembers, AuditInTeams;
    var after := AcceptInvitation(db, secret, principal, tick).db;
    if after.audit != db.audit {
      forall t ensures Matches(after, t, ViewOf(TeamRows(after.audit, t))) {
        assert Matches(db, t, ViewOf(TeamRows(db.audit, t)));
        ViewAfter(db.audit, after.audit, t);
        var v := ViewOf(TeamRows(db.audit, t));
        var row := db.invitations[db.invitationByDigest[SecretDigest(secret)]];
        MembersSet(db.members, t, v.members, (row.team, principal), MemberRow(row.role, tick.now));
      }
    }
  }

  lemma RevokeInvitationFolds(db: Database, invitation: Id, actor: Id, tick: Tick)
    requires Sound(db) && Folded(db)
    ensures Folded(RevokeInvitation(db, invitation, actor, tick).db)
  {
    hide Grown, GrownQuietly, TeamRows, EventIdUsed, ViewOf, MembersMatch, SharesMatch, ReplicasMatch, TokensMatch,
         MembersInTeams, TeamsOwned, InvitationsInTeams, InvitationsIndexed, ProjectsInTeams, SharesOfMembers,
         TokensOfMembers, TokensInTeams, TokensIndexed, ReplicasOfMembers, AuditInTeams, RequireTeamRole;
    var after := RevokeInvitation(db, invitation, actor, tick).db;
    if after.audit != db.audit {
      forall t ensures Matches(after, t, ViewOf(TeamRows(after.audit, t))) {
        assert Matches(db, t, ViewOf(TeamRows(db.audit, t)));
        ViewAfter(db.audit, after.audit, t);
      }
    }
  }

  /** What a created project commits. */
  lemma ProjectCommits(db: Database, team: Id, name: string, actor: Id, project: Option<Id>, tick: Tick)
    ensures var after := CreateProject(db, team, name, actor, project, tick).db;
            var id := ChosenId(project, tick.freshId);
            after == db
            || (&& id !in db.projects && |after.audit| == |db.audit| + 1 && Grown(db.audit, after.audit)
                && after.audit[|db.audit|].core
                   == AuditCore(tick.eventId, team, actor, ProjectCreated(id, ProjectName(name, id)), tick.now)
                && after == db.(projects := db.projects[id := ProjectRow(team, ProjectName(name, id), actor, tick.now)],
                                shares := db.shares[(id, actor) := ShareRow(Manage, actor, tick.now)],
                                audit := after.audit))
  {
    hide Grown, GrownQuietly, SyncTablesKept, TeamRows, EventIdUsed, ProjectName, ChosenId, RequireTeamRole;
  }

  lemma CreateProjectFolds(db: Database, team: Id, name: string, createdBy: Id, project: Option<Id>, tick: Tick)
    requires Sound(db) && Folded(db)
    ensures Folded(CreateProject(db, team, name, createdBy, project, tick).db)
  {
    hide CreateProject, Grown, TeamRows, ViewOf, MembersMatch, SharesMatch, ReplicasMatch, TokensMatch,
         MembersInTeams, TeamsOwned, InvitationsInTeams, InvitationsIndexed, ProjectsInTeams, SharesOfMembers,
         TokensOfMembers, TokensInTeams, TokensIndexed, ReplicasOfMembers, AuditInTeams, ProjectName, ChosenId;
    ProjectCommits(db, team, name, createdBy, project, tick);
    var after := CreateProject(db, team, name, createdBy, project, tick).db;
    var id := ChosenId(project, tick.freshId);
    if after != db {
      forall t ensures Matches(after, t, ViewOf(TeamRows(after.audit, t))) {
        assert Matches(db, t, ViewOf(TeamRows(db.audit, t)));
        ViewAfter(db.audit, after.audit, t);
        ProjectShared(db, t, ViewOf(TeamRows(db.audit, t)).shares, id,
                      ProjectRow(team, ProjectName(name, id), createdBy, tick.now),
                      ShareRow(Manage, createdBy, tick.now));
      }
    }
  }

  lemma ProjectShared(db: Database, t: Id, view: map<(Id, Id), Access>, id: Id, row: ProjectRow, share: ShareRow)
    requires SharesMatch(db.shares, db.projects, t, view) && id !in db.projects
    requires SharesOfMembers(db.shares, db.projects, db.members)
    ensures SharesMatch(db.shares[(id, row.createdBy) := share], db.projects[id := row], t,
                        if t == row.team then view[(id, row.createdBy) := share.access] else view)
  {
    hide SharesMatch, SharesOfMembers;
    ProjectAdded(db.shares, db.projects, db.members, t, view, id, row);
    SharesSet(db.shares, db.projects[id := row], t, view, (id, row.createdBy), share);
  }

  lemma GrantProjectAccessFolds(db: Database, project: Id, principal: Id, access: Access, grantedBy: Id, tick: Tick)
    requires Sound(db) && Folded(db)
    ensures Folded(GrantProjectAccess(db, project, principal, access, grantedBy, tick).db)
  {
    hide Grown, GrownQuietly, TeamRows, EventIdUsed, ViewOf, MembersMatch, SharesMatch, ReplicasMatch, TokensMatch,
         MembersInTeams, TeamsOwned, InvitationsInTeams, InvitationsIndexed, ProjectsInTeams, SharesOfMembers,
         TokensOfMembers, TokensInTeams, TokensIndexed, ReplicasOfMembers, AuditInTeams;
    var after := GrantProjectAccess(db, project, principal, access, grantedBy, tick).db;
    if after.audit != db.audit {
      forall t ensures Matches(after, t, ViewOf(TeamRows(after.audit, t))) {
        assert Matches(db, t, ViewOf(TeamRows(db.audit, t)));
        ViewAfter(db.audit, after.audit, t);
        var v := ViewOf(TeamRows(db.audit, t));
        SharesSet(db.shares, db.projects, t, v.shares, (project, principal), ShareRow(access, grantedBy, tick.now));
      }
    }
  }

  lemma RevokeProjectAccessFolds(db: Database, project: Id, principal: Id, actor: Id, tick: Tick)
    requires Sound(db) && Folded(db)
    ensures Folded(RevokeProjectAccess(db, project, principal, actor, tick).db)
  {
    hide Grown, GrownQuietly, TeamRows, EventIdUsed, ViewOf, MembersMatch, SharesMatch, ReplicasMatch, TokensMatch,
         MembersInTeams, TeamsOwned, InvitationsInTeams, InvitationsIndexed, ProjectsInTeams, SharesOfMembers,
         TokensOfMembers, TokensInTeams, TokensIndexed, ReplicasOfMembers, AuditInTeams;
    var after := RevokeProjectAccess(db, project, principal, actor, tick).db;
    if after.audit != db.audit {
      forall t ensures Matches(after, t, ViewOf(TeamRows(after.audit, t))) {
        assert Matches(db, t, ViewOf(TeamRows(db.audit, t)));
        ViewAfter(db.audit, after.audit, t);
        var v := ViewOf(TeamRows(db.audit, t));
        SharesDropped(db.shares, db.projects, t, v.shares, (project, principal));
      }
    }
  }

  lemma IssueAccessTokenFolds(db: Database, team: Id, principal: Id, caption: string, hours: int, tick: Tick)
    requires Sound(db) && Folded(db)
    ensures Folded(IssueAccessToken(db, team, principal, caption, hours, tick).db)
  {
    hide Grown, GrownQuietly, TeamRows, EventIdUsed, ViewOf, MembersMatch, SharesMatch, ReplicasMatch, TokensMatch,
         MembersInTeams, TeamsOwned, InvitationsInTeams, InvitationsIndexed, ProjectsInTeams, SharesOfMembers,
         TokensOfMembers, TokensInTeams, TokensIndexed, ReplicasOfMembers, AuditInTeams, Label;
    var after := IssueAccessToken(db, team, principal, caption, hours, tick).db;
    if after.audit != db.audit {
      forall t ensures Matches(after, t, ViewOf(TeamRows(after.audit, t))) {
        assert Matches(db, t, ViewOf(TeamRows(db.audit, t)));
        ViewAfter(db.audit, after.audit, t);
        var v := ViewOf(TeamRows(db.audit, t));
        TokenAdded(db.tokens, t, v.tokens, tick.freshId, after.tokens[tick.freshId]);
      }
    }
  }

  lemma RevokeAccessTokenFolds(db: Database, token: Id, actor: Id, tick: Tick)
    requires Sound(db) && Folded(db)
    ensures Folded(RevokeAccessToken(db, token, actor, tick).db)
  {
    hide Sound, Grown, GrownQuietly, TeamRows, EventIdUsed, ViewOf, MembersMatch, SharesMatch, ReplicasMatch,
         TokensMatch, MembersInTeams, TeamsOwned, InvitationsInTeams, InvitationsIndexed, ProjectsInTeams,
         SharesOfMembers, TokensOfMembers, TokensInTeams, TokensIndexed, ReplicasOfMembers, AuditInTeams, MayRevoke;
    var after := RevokeAccessToken(db, token, actor, tick).db;
    if after.audit != db.audit {
      forall t ensures Matches(after, t, ViewOf(TeamRows(after.audit, t))) {
        assert Matches(db, t, ViewOf(TeamRows(db.audit, t)));
        ViewAfter(db.audit, after.audit, t);
        var v := ViewOf(TeamRows(db.audit, t));
        TokenEnded(db.tokens, t, v.tokens, token, tick.now);
      }
    }
  }

  lemma RegisterReplicaFolds(db: Database, team: Id, principal: Id, device: Option<Id>, caption: string, tick: Tick)
    requires Sound(db) && Folded(db)
    ensures Folded(RegisterReplica(db, team, principal, device, caption, tick).db)
  {
    hide Grown, GrownQuietly, TeamRows, EventIdUsed, ViewOf, MembersMatch, SharesMatch, ReplicasMatch, TokensMatch,
         MembersInTeams, TeamsOwned, InvitationsInTeams, InvitationsIndexed, ProjectsInTeams, SharesOfMembers,
         TokensOfMembers, TokensInTeams, TokensIndexed, ReplicasOfMembers, AuditInTeams, Label, ChosenId;
    var after := RegisterReplica(db, team, principal, device, caption, tick).db;
    if after.audit != db.audit {
      forall t ensures Matches(after, t, ViewOf(TeamRows(after.audit, t))) {
        assert Matches(db, t, ViewOf(TeamRows(db.audit, t)));
        ViewAfter(db.audit, after.audit, t);
        var v := ViewOf(TeamRows(db.audit, t));
        var id := ChosenId(device, tick.freshId);
        ReplicaSet(db.replicas, t, v.replicas, (team, id), after.replicas[(team, id)]);
      }
    }
  }

  lemma DetectConflictFolds(db: Database, p: Payload, principal: Id, tick: Tick)
    requires Sound(db) && Folded(db) && p.projectId in db.projects
    ensures Folded(DetectConflict(db, p, principal, tick).db)
  {
    hide Grown, GrownQuietly, TeamRows, EventIdUsed, ViewOf, MembersMatch, SharesMatch, ReplicasMatch, TokensMatch,
         MembersInTeams, TeamsOwned, InvitationsInTeams, InvitationsIndexed, ProjectsInTeams, SharesOfMembers,
         TokensOfMembers, TokensInTeams, TokensIndexed, ReplicasOfMembers, AuditInTeams, ServerRevision, ServerHash;
    var after := DetectConflict(db, p, principal, tick).db;
    if after.audit != db.audit {
      forall t ensures Matches(after, t, ViewOf(TeamRows(after.audit, t))) {
        assert Matches(db, t, ViewOf(TeamRows(db.audit, t)));
        ViewAfter(db.audit, after.audit, t);
      }
    }
  }

  lemma AcceptFolds(db: Database, p: Payload, principal: Id, replica: ReplicaRow, tick: Tick)
    requires Sound(db) && Folded(db)
    requires p.projectId in db.projects && (db.projects[p.projectId].team, p.deviceId) in db.replicas
    requires replica == db.replicas[(db.projects[p.projectId].team, p.deviceId)] && replica.principal == principal
    ensures Folded(Accept(db, p, principal, replica, tick).db)
  {
    hide Sound, Grown, GrownQuietly, TeamRows, ViewOf, MembersMatch, SharesMatch, ReplicasMatch, TokensMatch, Accept,
         RowOf, ServerRevision, StoredValue;
    var after := Accept(db, p, principal, replica, tick).db;
    AcceptCommits(db, p, principal, replica, tick);
    if after.audit != db.audit {
      forall t ensures Matches(after, t, ViewOf(TeamRows(after.audit, t))) {
        var v := ViewOf(TeamRows(db.audit, t));
        assert Matches(db, t, v);
        ViewAfter(db.audit, after.audit, t);
        var k := (db.projects[p.projectId].team, p.deviceId);
        ReplicaSet(db.replicas, t, v.replicas, k, after.replicas[k]);
      }
    }
  }

  lemma ApplyMutationFolds(db: Database, m: SyncMutation, principal: Id, tick: Tick)
    requires Sound(db) && Folded(db)
    ensures Folded(ApplyMutation(db, m, principal, tick).db)
  {
    hide Sound, Folded, Grown, GrownQuietly, Normalized, FindMutation, DetectConflict, Accept, ServerRevision,
         RequireAccess;
    var p := Normalized(m, tick.now);
    if p.Success? && p.value.projectId in db.projects {
      DetectConflictFolds(db, p.value, principal, tick);
      var admitted := Admit(db, p.value, principal);
      if admitted.Success? {
        AcceptFolds(db, p.value, principal, admitted.value, tick);
      }
    } else if p.Success? {
      assert EffectiveAccess(db, p.value.projectId, principal).Failure?;
      NoProjectNoAccess(db, p.value.projectId, principal, Edit);
    }
  }

  lemma NoProjectNoAccess(db: Database, project: Id, principal: Id, minimum: Access)
    requires project !in db.projects
    ensures RequireAccess(db, project, principal, minimum) == Failure(NotFound)
  {
  }

  lemma CloseConflictFolds(db: Database, conflict: Id, row: ConflictRow, receipt: PushReceipt, principal: Id,
                           tick: Tick)
    requires Sound(db) && Folded(db) && row.project in db.projects
    ensures Folded(CloseConflict(db, conflict, row, receipt, principal, tick).db)
  {
    hide Grown, GrownQuietly, TeamRows, EventIdUsed, ViewOf, MembersMatch, SharesMatch, ReplicasMatch, TokensMatch,
         MembersInTeams, TeamsOwned, InvitationsInTeams, InvitationsIndexed, ProjectsInTeams, SharesOfMembers,
         TokensOfMembers, TokensInTeams, TokensIndexed, ReplicasOfMembers, AuditInTeams;
    var after := CloseConflict(db, conflict, row, receipt, principal, tick).db;
    if after.audit != db.audit {
      forall t ensures Matches(after, t, ViewOf(TeamRows(after.audit, t))) {
        assert Matches(db, t, ViewOf(TeamRows(db.audit, t)));
        ViewAfter(db.audit, after.audit, t);
      }
    }
  }

  lemma ResolveConflictFolds(db: Database, conflict: Id, m: SyncMutation, principal: Id, tick: Tick, closing: Tick)
    requires Sound(db) && Folded(db)
    ensures Folded(ResolveConflict(db, conflict, m, principal, tick, closing).db)
  {
    hide Sound, Folded, Grown, GrownQuietly, ApplyMutation, CloseConflict;
    ApplyMutationFolds(db, m, principal, tick);
    ApplyMutationSound(db, m, principal, tick);
    var pushed := ApplyMutation(db, m, principal, tick);
    if conflict in db.conflicts && db.conflicts[conflict].project == m.projectId && pushed.result.Success? {
      CloseConflictFolds(pushed.db, conflict, db.conflicts[conflict], pushed.result.value.receipt, principal, closing);
    }
  }

  lemma PerformFolds(db: Database, c: Timed)
    requires Sound(db) && Folded(db)
    ensures Folded(Perform(db, c).db)
  {
    hide Sound, Folded, Grown, GrownQuietly, CreateTeam, SetMemberRole, RemoveMember, CreateInvitation,
         AcceptInvitation, RevokeInvitation, CreateProject, GrantProjectAccess, RevokeProjectAccess, IssueAccessToken,
         RevokeAccessToken, RegisterReplica, ApplyMutation, ResolveConflict;
    match c.call
    case CallCreateTeam(name, owner, team) => CreateTeamFolds(db, name, owner, team, c.tick);
    case CallSetMemberRole(team, principal, role, actor) =>
      SetMemberRoleFolds(db, team, principal, role, actor, c.tick);
    case CallRemoveMember(team, principal, actor) => RemoveMemberFolds(db, team, principal, actor, c.tick);
    case CallCreateInvitation(team, role, actor, hours) => CreateInvitationFolds(db, team, role, actor, hours, c.tick);
    case CallAcceptInvitation(secret, principal) => AcceptInvitationFolds(db, secret, principal, c.tick);
    case CallRevokeInvitation(invitation, actor) => RevokeInvitationFolds(db, invitation, actor, c.tick);
    case CallCreateProject(team, name, actor, project) => CreateProjectFolds(db, team, name, actor, project, c.tick);
    case CallGrantProjectAccess(project, principal, access, actor) =>
      GrantProjectAccessFolds(db, project, principal, access, actor, c.tick);
    case CallRevokeProjectAccess(project, principal, actor) =>
      RevokeProjectAccessFolds(db, project, principal, actor, c.tick);
    case CallIssueAccessToken(team, principal, caption, hours) =>
      IssueAccessTokenFolds(db, team, principal, caption, hours, c.tick);
    case CallRevokeAccessToken(token, actor) => RevokeAccessTokenFolds(db, token, actor, c.tick);
    case CallRegisterReplica(team, principal, device, caption) =>
      RegisterReplicaFolds(db, team, principal, device, caption, c.tick);
    case CallApplyMutation(mutation, principal) => ApplyMutationFolds(db, mutation, principal, c.tick);
    case CallResolveConflict(conflict, mutation, principal, closing) =>
      ResolveConflictFolds(db, conflict, mutation, principal, c.tick, closing);
  }

  /**
   In every reachable state, each team's members, shares, device heads and live tokens are the fold
   of its audit rows.
   */
  lemma {:induction false} RunFolded(calls: seq<Timed>)
    ensures Folded(Run(EMPTY, calls))
  {
    hide Perform, Sound;
    if calls != [] {
      RunFolded(calls[..|calls| - 1]);
      RunSound(calls[..|calls| - 1]);
      PerformFolds(Run(EMPTY, calls[..|calls| - 1]), calls[|calls| - 1]);
    }
  }

  /** Two stores give a team the same members and roles, shares, device owners and heads, and live tokens. */
  ghost predicate AgreeOn(a: Database, b: Database, team: Id) {
    && (forall p :: (team, p) in a.members <==> (team, p) in b.members)
    && (forall p | (team, p) in a.members && (team, p) in b.members ::
          a.members[(team, p)].role == b.members[(team, p)].role)
    && (forall d :: (team, d) in a.replicas <==> (team, d) in b.replicas)
    && (forall d | (team, d) in a.replicas && (team, d) in b.replicas ::
          var r, s := a.replicas[(team, d)], b.replicas[(team, d)];
          r.principal == s.principal && r.lastSequence == s.lastSequence && r.lastHash == s.lastHash)
    && SharesOfTeam(a, team) == SharesOfTeam(b, team)
    && TokensOfTeam(a, team) == TokensOfTeam(b, team)
  }

  ghost function SharesOfTeam(db: Database, team: Id): map<(Id, Id), Access> {
    map k | k in db.shares && k.0 in db.projects && db.projects[k.0].team == team :: db.shares[k].access
  }

  ghost function TokensOfTeam(db: Database, team: Id): map<Id, Id> {
    map k | k in db.tokens && db.tokens[k].team == team && db.tokens[k].revokedAt.None? :: db.tokens[k].principal
  }

  lemma SameViewAgree(a: Database, b: Database, team: Id, v: TeamView)
    requires Matches(a, team, v) && Matches(b, team, v)
    ensures AgreeOn(a, b, team)
  {
    SharesAreView(a, team, v);
    SharesAreView(b, team, v);
    TokensAreView(a, team, v);
    TokensAreView(b, team, v);
    hide SharesMatch, TokensMatch, SharesOfTeam, TokensOfTeam;
  }

  lemma SharesAreView(db: Database, team: Id, v: TeamView)
    requires Matches(db, team, v)
    ensures SharesOfTeam(db, team) == v.shares
  {
  }

  lemma TokensAreView(db: Database, team: Id, v: TeamView)
    requires Matches(db, team, v)
    ensures TokensOfTeam(db, team) == v.tokens
  {
  }

  /**
   The newest audit digest of a team pins down the team: two reachable stores that show the same
   digest agree on every member, share, device head and live token of the team.
   */
  lemma HeadDigestPinsTeam(a: seq<Timed>, b: seq<Timed>, team: Id)
    requires HashChain.HeadHash(TeamRows(Run(EMPTY, a).audit, team))
             == HashChain.HeadHash(TeamRows(Run(EMPTY, b).audit, team))
    ensures AgreeOn(Run(EMPTY, a), Run(EMPTY, b), team)
  {
    hide Run, Matches, AgreeOn, ViewOf, TeamRows;
    RunFolded(a);
    RunFolded(b);
    RunChained(a);
    RunChained(b);
    var rows, others := TeamRows(Run(EMPTY, a).audit, team), TeamRows(Run(EMPTY, b).audit, team);
    HashChain.SameHeadSameHistory(rows, others);
    ViewByCores(rows, others);
    SameViewAgree(Run(EMPTY, a), Run(EMPTY, b), team, ViewOf(rows));
  }

  lemma {:induction false} ViewByCores(a: seq<AuditRow>, b: seq<AuditRow>)
    requires HashChain.Cores(a) == HashChain.Cores(b)
    ensures ViewOf(a) == ViewOf(b)
    decreases |a|
  {
    hide Advance;
    HashChain.CoresLength(a);
    HashChain.CoresLength(b);
    if a != [] {
      var m, n := a[..|a| - 1], b[..|b| - 1];
      assert HashChain.Cores(a)[..|a| - 1] == HashChain.Cores(m);
      assert HashChain.Cores(b)[..|b| - 1] == HashChain.Cores(n);
      assert HashChain.Cores(a)[|a| - 1] == a[|a| - 1].core && HashChain.Cores(b)[|b| - 1] == b[|b| - 1].core;
      ViewByCores(m, n);
    }
  }
}
