/**
 The collaboration store as an object: one field per table, updated in place by its methods.

 Each mutating method is proved to leave exactly the tables, and to return exactly the result,
 of the corresponding function of CollaborationCalls; what those functions keep over whole runs
 is proved in the modules beside this one.
 */
module CollaborationStores {
  import opened Prelude
  import opened SyncMutations
  import opened CollaborationTables
  import opened CollaborationRights
  import Calls = CollaborationCalls
  import HashChain

  datatype AuditReport =
    | Valid(events: nat, head: Option<HashChain.Digest<AuditCore>>)
    | Broken(events: nat, failedOrdinal: nat)

  datatype Page = Page(events: seq<SyncEvent>, nextCursor: int)

  datatype Snapshot = Snapshot(values: map<string, Json>, revisions: map<string, int>)

  /** The rows a pull selects: one project's events past the cursor, in ordinal order. */
  function EventsAfter(events: seq<SyncEvent>, project: Id, cursor: int): seq<SyncEvent> {
    if events == [] then []
    else
      var rest := EventsAfter(events[..|events| - 1], project, cursor);
      var last := events[|events| - 1];
      if last.project == project && last.ordinal > cursor then rest + [last] else rest
  }

  function Take<T>(s: seq<T>, n: int): seq<T>
    requires 0 <= n
  {
    if n < |s| then s[..n] else s
  }

  function NextCursor(page: seq<SyncEvent>, cursor: int): int {
    if page == [] then cursor else page[|page| - 1].ordinal
  }

  /** What `pull_events` returns for a cursor and a limit it accepts. */
  function PageOf(events: seq<SyncEvent>, project: Id, cursor: int, limit: int): Page
    requires 1 <= limit
  {
    var page := Take(EventsAfter(events, project, cursor), limit);
    Page(page, NextCursor(page, cursor))
  }

  /** What `get_state` returns: every key's revision, and the values of the keys that are not deleted. */
  function SnapshotOf(state: map<(Id, string), StateRow>, project: Id): Snapshot {
    Snapshot(map k | k in state && k.0 == project && !state[k].tombstone && state[k].value.Some? ::
               k.1 := state[k].value.value,
             map k | k in state && k.0 == project :: k.1 := state[k].revision)
  }

  lemma SnapshotIsPointwise(state: map<(Id, string), StateRow>, project: Id, values: map<string, Json>,
                            revisions: map<string, int>)
    requires forall key :: key in revisions <==> (project, key) in state
    requires forall key | key in revisions :: revisions[key] == state[(project, key)].revision
    requires forall key :: key in values <==>
               (project, key) in state && !state[(project, key)].tombstone && state[(project, key)].value.Some?
    requires forall key | key in values :: values[key] == state[(project, key)].value.value
    ensures SnapshotOf(state, project) == Snapshot(values, revisions)
  {
    var s := SnapshotOf(state, project);
    assert forall key :: key in s.revisions <==> (project, key) in state;
    assert s.revisions == revisions;
    assert s.values == values;
  }

  lemma SnapshotContents(state: map<(Id, string), StateRow>, project: Id)
    ensures var s := SnapshotOf(state, project);
            && (forall key :: key in s.revisions <==> (project, key) in state)
            && (forall key | key in s.revisions :: s.revisions[key] == state[(project, key)].revision)
            && (forall key :: key in s.values <==>
                  (project, key) in state && !state[(project, key)].tombstone && state[(project, key)].value.Some?)
            && (forall key | key in s.values :: s.values[key] == state[(project, key)].value.value)
  {
  }

  class CollaborationStore {
    var teams: map<Id, TeamRow>
    var members: map<(Id, Id), MemberRow>
    var invitations: map<Id, InvitationRow>
    var invitationByDigest: map<SecretDigest, Id>
    var projects: map<Id, ProjectRow>
    var shares: map<(Id, Id), ShareRow>
    var tokens: map<Id, TokenRow>
    var tokenByDigest: map<SecretDigest, Id>
    var replicas: map<(Id, Id), ReplicaRow>
    var state: map<(Id, string), StateRow>
    var events: seq<SyncEvent>
    var conflicts: map<Id, ConflictRow>
    var audit: seq<AuditRow>

    function Tables(): Database
      reads this
    {
      Database(teams, members, invitations, invitationByDigest, projects, shares, tokens, tokenByDigest,
               replicas, state, events, conflicts, audit)
    }

    constructor ()
      ensures Tables() == EMPTY
    {
      teams, members, invitations, invitationByDigest, projects := map[], map[], map[], map[], map[];
      shares, tokens, tokenByDigest, replicas, state := map[], map[], map[], map[], map[];
      events, conflicts, audit := [], map[], [];
    }

    method AppendAudit(team: Id, actor: Id, body: AuditBody, tick: Tick)
      modifies this`audit
      ensures audit == old(audit) + [NextAuditRow(old(audit), team, actor, body, tick)]
    {
      var previous := HashChain.HeadHash(TeamRows(audit, team));
      var core := AuditCore(tick.eventId, team, actor, body, tick.now);
      audit := audit + [HashChain.Row(|audit| + 1, core, previous, HashChain.Sha(core, previous))];
    }

    method CreateTeam(name: string, owner: Id, team: Option<Id>, tick: Tick) returns (r: Result<Calls.Reply, Error>)
      modifies this`teams, this`members, this`audit
      ensures Calls.Outcome(Tables(), r) == Calls.CreateTeam(old(Tables()), name, owner, team, tick)
    {
      hide Calls.Grown, Calls.GrownQuietly, TeamRows, EventIdUsed, Strip, ChosenId;
      var name', owner' := Strip(name), Strip(owner);
      if name' == "" || owner' == "" { return Failure(Integrity); }
      var id := ChosenId(team, tick.freshId);
      if id in teams || (id, owner') in members { return Failure(Integrity); }
      if EventIdUsed(audit, tick.eventId) { return Failure(Storage); }
      teams := teams[id := TeamRow(name', owner', tick.now)];
      members := members[(id, owner') := MemberRow(Owner, tick.now)];
      AppendAudit(id, owner', TeamCreated(name'), tick);
      return Success(Calls.Created(id));
    }

    method SetMemberRole(team: Id, principal: Id, role: Role, actor: Id, tick: Tick)
      returns (r: Result<Calls.Reply, Error>)
      modifies this`members, this`audit
      ensures Calls.Outcome(Tables(), r) == Calls.SetMemberRole(old(Tables()), team, principal, role, actor, tick)
    {
      hide Calls.Grown, Calls.GrownQuietly, TeamRows, EventIdUsed;
      if role.OtherRole? { return Failure(Integrity); }
      var actorMember := RequireTeamRole(Tables(), team, actor, Admin);
      if actorMember.Failure? { return Failure(actorMember.error); }
      var target := GetMember(Tables(), team, principal);
      if target.Failure? { return Failure(target.error); }
      var was := target.value.role;
      if was == Owner && role != Owner {
        if actorMember.value.role != Owner || |Owners(Tables(), team)| <= 1 { return Failure(Denied); }
      }
      if role == Owner && actorMember.value.role != Owner { return Failure(Denied); }
      if EventIdUsed(audit, tick.eventId) { return Failure(Storage); }
      members := members[(team, principal) := target.value.(role := role)];
      AppendAudit(team, actor, RoleChanged(principal, was, role), tick);
      return Success(Calls.MemberIs(members[(team, principal)]));
    }

    method RemoveMember(team: Id, principal: Id, actor: Id, tick: Tick) returns (r: Result<Calls.Reply, Error>)
      modifies this`tokens, this`replicas, this`shares, this`members, this`audit
      ensures Calls.Outcome(Tables(), r) == Calls.RemoveMember(old(Tables()), team, principal, actor, tick)
    {
      hide Calls.Grown, Calls.GrownQuietly, TeamRows, EventIdUsed;
      var actorMember := RequireTeamRole(Tables(), team, actor, Admin);
      if actorMember.Failure? { return Failure(actorMember.error); }
      var target := GetMember(Tables(), team, principal);
      if target.Failure? { return Failure(target.error); }
      var was := target.value.role;
      if was == Owner && (actorMember.value.role != Owner || |Owners(Tables(), team)| <= 1) { return Failure(Denied); }
      r := Expel(team, principal, was, actor, tick);
    }

    /** Revokes or deletes every row that speaks for a member, and the membership itself. */
    method DropMember(team: Id, principal: Id, live: set<Id>, devices: set<(Id, Id)>, granted: set<(Id, Id)>, now: int)
      modifies this`tokens, this`replicas, this`shares, this`members
      ensures tokens == Calls.RevokeAll(old(tokens), live, now)
      ensures replicas == Without(old(replicas), devices)
      ensures shares == Without(old(shares), granted)
      ensures members == Without(old(members), {(team, principal)})
    {
      tokens := Calls.RevokeAll(tokens, live, now);
      replicas := Without(replicas, devices);
      shares := Without(shares, granted);
      members := Without(members, {(team, principal)});
    }

    /** The transaction of a removal. */
    method Expel(team: Id, principal: Id, was: Role, actor: Id, tick: Tick) returns (r: Result<Calls.Reply, Error>)
      modifies this`tokens, this`replicas, this`shares, this`members, this`audit
      ensures Calls.Outcome(Tables(), r) == Calls.Expel(old(Tables()), team, principal, was, actor, tick)
    {
      hide Calls.Grown, Calls.GrownQuietly, TeamRows, EventIdUsed, LiveTokensOf, ReplicasOf, SharesOf;
      if EventIdUsed(audit, tick.eventId) { return Failure(Storage); }
      var before := Tables();
      var live, devices, granted :=
        LiveTokensOf(before, team, principal), ReplicasOf(before, team, principal), SharesOf(before, team, principal);
      AppendAudit(team, actor, MemberRemoved(principal, was, |live|, |devices|, |granted|), tick);
      DropMember(team, principal, live, devices, granted, tick.now);
      return Success(Calls.Removed(|live|, |devices|, |granted|));
    }

    method CreateInvitation(team: Id, role: Role, createdBy: Id, hours: int, tick: Tick)
      returns (r: Result<Calls.Reply, Error>)
      modifies this`invitations, this`invitationByDigest, this`audit
      ensures Calls.Outcome(Tables(), r) == Calls.CreateInvitation(old(Tables()), team, role, createdBy, hours, tick)
    {
      hide Calls.Grown, Calls.GrownQuietly, TeamRows, EventIdUsed, RequireTeamRole;
      if role.OtherRole? || role == Owner { return Failure(Integrity); }
      var creator := RequireTeamRole(Tables(), team, createdBy, Admin);
      if creator.Failure? { return Failure(creator.error); }
      if !(1 <= hours <= 24 * 30) { return Failure(Integrity); }
      var digest := SecretDigest(tick.secret);
      if tick.freshId in invitations || digest in invitationByDigest || EventIdUsed(audit, tick.eventId) {
        return Failure(Storage);
      }
      var expires := tick.now + hours * 3600;
      invitations :=
        invitations[tick.freshId := InvitationRow(team, role, digest, createdBy, tick.now, expires, None, None)];
      invitationByDigest := invitationByDigest[digest := tick.freshId];
      AppendAudit(team, createdBy, InvitationCreated(tick.freshId, role, expires), tick);
      return Success(Calls.Created(tick.freshId));
    }

    method AcceptInvitation(secret: string, principal: Id, tick: Tick) returns (r: Result<Calls.Reply, Error>)
      modifies this`members, this`invitations, this`audit
      ensures Calls.Outcome(Tables(), r) == Calls.AcceptInvitation(old(Tables()), secret, principal, tick)
    {
      hide Calls.Grown, Calls.GrownQuietly, TeamRows, EventIdUsed;
      var digest := SecretDigest(secret);
      if digest !in invitationByDigest || invitationByDigest[digest] !in invitations {
        return Failure(InvitationInvalid);
      }
      var id := invitationByDigest[digest];
      var row := invitations[id];
      if row.revokedAt.Some? || row.accepted.Some? || row.expiresAt <= tick.now { return Failure(InvitationInvalid); }
      if (row.team, principal) in members { return Failure(InvitationInvalid); }
      if EventIdUsed(audit, tick.eventId) { return Failure(Storage); }
      members := members[(row.team, principal) := MemberRow(row.role, tick.now)];
      invitations := invitations[id := row.(accepted := Some((principal, tick.now)))];
      AppendAudit(row.team, principal, InvitationAccepted(id, row.role), tick);
      return Success(Calls.MemberIs(members[(row.team, principal)]));
    }

    method RevokeInvitation(invitation: Id, actor: Id, tick: Tick) returns (r: Result<Calls.Reply, Error>)
      modifies this`invitations, this`audit
      ensures Calls.Outcome(Tables(), r) == Calls.RevokeInvitation(old(Tables()), invitation, actor, tick)
    {
      hide Calls.Grown, Calls.GrownQuietly, TeamRows, EventIdUsed;
      if invitation !in invitations { return Failure(NotFound); }
      var row := invitations[invitation];
      var actorMember := RequireTeamRole(Tables(), row.team, actor, Admin);
      if actorMember.Failure? { return Failure(actorMember.error); }
      if row.accepted.Some? { return Failure(InvitationInvalid); }
      if EventIdUsed(audit, tick.eventId) { return Failure(Storage); }
      invitations := invitations[invitation := row.(revokedAt := Some(tick.now))];
      AppendAudit(row.team, actor, InvitationRevoked(invitation), tick);
      return Success(Calls.Done);
    }

    method CreateProject(team: Id, name: string, createdBy: Id, project: Option<Id>, tick: Tick)
      returns (r: Result<Calls.Reply, Error>)
      modifies this`projects, this`shares, this`audit
      ensures Calls.Outcome(Tables(), r) == Calls.CreateProject(old(Tables()), team, name, createdBy, project, tick)
    {
      hide Calls.Grown, Calls.GrownQuietly, TeamRows, EventIdUsed, ProjectName, ChosenId, RequireTeamRole;
      var creator := RequireTeamRole(Tables(), team, createdBy, Member);
      if creator.Failure? { return Failure(creator.error); }
      var id := ChosenId(project, tick.freshId);
      var name' := ProjectName(name, id);
      if id in projects || (id, createdBy) in shares { return Failure(Integrity); }
      if EventIdUsed(audit, tick.eventId) { return Failure(Storage); }
      projects := projects[id := ProjectRow(team, name', createdBy, tick.now)];
      shares := shares[(id, createdBy) := ShareRow(Manage, createdBy, tick.now)];
      AppendAudit(team, createdBy, ProjectCreated(id, name'), tick);
      return Success(Calls.Created(id));
    }

    method GrantProjectAccess(project: Id, principal: Id, access: Access, grantedBy: Id, tick: Tick)
      returns (r: Result<Calls.Reply, Error>)
      modifies this`shares, this`audit
      ensures Calls.Outcome(Tables(), r)
              == Calls.GrantProjectAccess(old(Tables()), project, principal, access, grantedBy, tick)
    {
      hide Calls.Grown, Calls.GrownQuietly, TeamRows, EventIdUsed;
      if access.OtherAccess? { return Failure(Integrity); }
      var allowed := RequireAccess(Tables(), project, grantedBy, Manage);
      if allowed.Failure? { return Failure(allowed.error); }
      var team := projects[project].team;
      var target := GetMember(Tables(), team, principal);
      if target.Failure? { return Failure(target.error); }
      if EventIdUsed(audit, tick.eventId) { return Failure(Storage); }
      shares := shares[(project, principal) := ShareRow(access, grantedBy, tick.now)];
      AppendAudit(team, grantedBy, ShareGranted(project, principal, access), tick);
      return Success(Calls.Done);
    }

    method RevokeProjectAccess(project: Id, principal: Id, actor: Id, tick: Tick)
      returns (r: Result<Calls.Reply, Error>)
      modifies this`shares, this`audit
      ensures Calls.Outcome(Tables(), r) == Calls.RevokeProjectAccess(old(Tables()), project, principal, actor, tick)
    {
      hide Calls.Grown, Calls.GrownQuietly, TeamRows, EventIdUsed;
      var allowed := RequireAccess(Tables(), project, actor, Manage);
      if allowed.Failure? { return Failure(allowed.error); }
      if principal == projects[project].createdBy { return Failure(Denied); }
      if EventIdUsed(audit, tick.eventId) { return Failure(Storage); }
      shares := Without(shares, {(project, principal)});
      AppendAudit(projects[project].team, actor, ShareRevoked(project, principal), tick);
      return Success(Calls.Done);
    }

    method IssueAccessToken(team: Id, principal: Id, caption: string, hours: int, tick: Tick)
      returns (r: Result<Calls.Reply, Error>)
      modifies this`tokens, this`tokenByDigest, this`audit
      ensures Calls.Outcome(Tables(), r) == Calls.IssueAccessToken(old(Tables()), team, principal, caption, hours, tick)
    {
      hide Calls.Grown, Calls.GrownQuietly, TeamRows, EventIdUsed, Label, GetMember;
      var holder := GetMember(Tables(), team, principal);
      if holder.Failure? { return Failure(holder.error); }
      if !(1 <= hours <= 24 * 365) { return Failure(Integrity); }
      var digest := SecretDigest(tick.secret);
      if tick.freshId in tokens || digest in tokenByDigest || EventIdUsed(audit, tick.eventId) {
        return Failure(Storage);
      }
      var row := TokenRow(team, principal, digest, Label(caption, "client"), tick.now, tick.now + hours * 3600, None);
      tokens := tokens[tick.freshId := row];
      tokenByDigest := tokenByDigest[digest := tick.freshId];
      AppendAudit(team, principal, TokenIssued(tick.freshId, row.caption, row.expiresAt), tick);
      return Success(Calls.Created(tick.freshId));
    }

    method RevokeAccessToken(token: Id, actor: Id, tick: Tick) returns (r: Result<Calls.Reply, Error>)
      modifies this`tokens, this`audit
      ensures Calls.Outcome(Tables(), r) == Calls.RevokeAccessToken(old(Tables()), token, actor, tick)
    {
      hide Calls.Grown, Calls.GrownQuietly, TeamRows, EventIdUsed;
      if token !in tokens { return Failure(NotFound); }
      var row := tokens[token];
      if actor != row.principal {
        var allowed := RequireTeamRole(Tables(), row.team, actor, Admin);
        if allowed.Failure? { return Failure(allowed.error); }
      }
      if EventIdUsed(audit, tick.eventId) { return Failure(Storage); }
      tokens := tokens[token := row.(revokedAt := Some(tick.now))];
      AppendAudit(row.team, actor, TokenRevoked(token), tick);
      return Success(Calls.Done);
    }

    method RegisterReplica(team: Id, principal: Id, device: Option<Id>, caption: string, tick: Tick)
      returns (r: Result<Calls.Reply, Error>)
      modifies this`replicas, this`audit
      ensures Calls.Outcome(Tables(), r) == Calls.RegisterReplica(old(Tables()), team, principal, device, caption, tick)
    {
      hide Calls.Grown, Calls.GrownQuietly, TeamRows, EventIdUsed, Label, ChosenId;
      var holder := GetMember(Tables(), team, principal);
      if holder.Failure? { return Failure(holder.error); }
      var id := ChosenId(device, tick.freshId);
      if (team, id) in replicas { return Failure(Integrity); }
      if EventIdUsed(audit, tick.eventId) { return Failure(Storage); }
      replicas := replicas[(team, id) := ReplicaRow(principal, Label(caption, "device"), tick.now, 0, None)];
      AppendAudit(team, principal, ReplicaRegistered(id, replicas[(team, id)].caption), tick);
      return Success(Calls.Created(id));
    }

    method ApplyMutation(m: SyncMutation, principal: Id, tick: Tick) returns (r: Result<Calls.Reply, Error>)
      modifies this`events, this`state, this`replicas, this`conflicts, this`audit
      ensures Calls.Outcome(Tables(), r) == Calls.ApplyMutation(old(Tables()), m, principal, tick)
    {
      hide Calls.Grown, Calls.GrownQuietly, TeamRows, EventIdUsed;
      var normalized := Normalized(m, tick.now);
      if normalized.Failure? { return Failure(Integrity); }
      var p := normalized.value;
      var admitted := Calls.Admit(Tables(), p, principal);
      if admitted.Failure? { return Failure(admitted.error); }
      var replica := admitted.value;
      var existing := FindMutation(events, p.mutationId);
      if existing.Some? {
        var e := existing.value;
        if e.hash != Sha(p) { return Failure(Integrity); }
        return Success(Calls.Pushed(Calls.PushReceipt(true, e.ordinal, e.resultingRevision, e.hash)));
      }
      if p.sequence != replica.lastSequence + 1 { return Failure(Integrity); }
      if Truthy(p.previous) != Truthy(replica.lastHash) { return Failure(Integrity); }
      if p.baseRevision != ServerRevision(state, p.projectId, p.key) {
        r := RecordConflict(p, principal, tick);
      } else {
        r := RecordEvent(p, principal, replica, tick);
      }
    }

    /** The transaction of a stale push. */
    method RecordConflict(p: Payload, principal: Id, tick: Tick) returns (r: Result<Calls.Reply, Error>)
      requires p.projectId in projects
      modifies this`conflicts, this`audit
      ensures Calls.Outcome(Tables(), r) == Calls.DetectConflict(old(Tables()), p, principal, tick)
    {
      hide Calls.Grown, Calls.GrownQuietly, TeamRows, EventIdUsed;
      if tick.freshId in conflicts || EventIdUsed(audit, tick.eventId) { return Failure(Storage); }
      var revision := ServerRevision(state, p.projectId, p.key);
      conflicts := conflicts[tick.freshId :=
        ConflictRow(p.projectId, p.key, p.mutationId, p.baseRevision, Sha(p), p.operation,
                    StoredValue(p.operation, p.value),
                    revision, ServerHash(state, p.projectId, p.key), tick.now, None)];
      AppendAudit(projects[p.projectId].team, principal,
                  ConflictDetected(tick.freshId, p.projectId, p.key, p.baseRevision, revision), tick);
      return Failure(Conflict(tick.freshId));
    }

    /** The transaction of an accepted push: log, state, chain head and audit row together. */
    method RecordEvent(p: Payload, principal: Id, replica: ReplicaRow, tick: Tick)
      returns (r: Result<Calls.Reply, Error>)
      requires p.projectId in projects
      modifies this`events, this`state, this`replicas, this`audit
      ensures Calls.Outcome(Tables(), r) == Calls.Accept(old(Tables()), p, principal, replica, tick)
    {
      hide Calls.Grown, Calls.GrownQuietly, TeamRows, EventIdUsed, Calls.EventOf, Calls.AcceptedBody;
      if EventIdUsed(audit, tick.eventId) { return Failure(Storage); }
      var e := Calls.EventOf(Tables(), p, principal);
      events := events + [e];
      state := state[(e.project, e.key) :=
                       StateRow(e.value, e.operation == DeleteKey, e.resultingRevision, e.hash, e.createdAt)];
      replicas := replicas[(e.team, e.device) := replica.(lastSequence := e.sequence, lastHash := Some(e.hash))];
      AppendAudit(e.team, principal, Calls.AcceptedBody(e), tick);
      return Success(Calls.Pushed(Calls.PushReceipt(false, e.ordinal, e.resultingRevision, e.hash)));
    }

    method ResolveConflict(conflict: Id, m: SyncMutation, principal: Id, tick: Tick, closing: Tick)
      returns (r: Result<Calls.Reply, Error>)
      modifies this`events, this`state, this`replicas, this`conflicts, this`audit
      ensures Calls.Outcome(Tables(), r) == Calls.ResolveConflict(old(Tables()), conflict, m, principal, tick, closing)
    {
      hide Calls.Grown, Calls.GrownQuietly, TeamRows, EventIdUsed;
      if conflict !in conflicts { return Failure(NotFound); }
      var row := conflicts[conflict];
      if row.resolution.Some? { return Failure(Conflict(conflict)); }
      if m.projectId != row.project || m.key != row.key { return Failure(Integrity); }
      r := ApplyMutation(m, principal, tick);
      if r.Failure? { return; }
      r := CloseConflict(conflict, row, r.value.receipt, principal, closing);
    }

    /** The second transaction of a resolution: marks the conflict and audits it. */
    method CloseConflict(conflict: Id, row: ConflictRow, receipt: Calls.PushReceipt, principal: Id, tick: Tick)
      returns (r: Result<Calls.Reply, Error>)
      requires row.project in projects
      modifies this`conflicts, this`audit
      ensures Calls.Outcome(Tables(), r) == Calls.CloseConflict(old(Tables()), conflict, row, receipt, principal, tick)
    {
      hide Calls.Grown, Calls.GrownQuietly, TeamRows, EventIdUsed;
      if EventIdUsed(audit, tick.eventId) { return Failure(Storage); }
      conflicts := conflicts[conflict := row.(resolution := Some(Resolution(tick.now, receipt.hash)))];
      AppendAudit(projects[row.project].team, principal, ConflictResolved(conflict, receipt.hash), tick);
      return Success(Calls.Pushed(receipt));
    }

    // ---------- reads ----------

    /** Walks a team's audit rows with a running digest; a report of damage names the first row that does not fit. */
    method VerifyAudit(team: Id) returns (report: AuditReport)
      ensures report.events == |TeamRows(audit, team)|
      ensures report.Valid? <==> HashChain.Linked(TeamRows(audit, team))
      ensures report.Valid? ==> report.head == HashChain.HeadHash(TeamRows(audit, team))
      ensures report.Broken? ==>
                exists k :: 0 <= k < |TeamRows(audit, team)| && !HashChain.LinkedAt(TeamRows(audit, team), k)
                            && HashChain.Linked(TeamRows(audit, team)[..k])
                            && report.failedOrdinal == TeamRows(audit, team)[k].ordinal
    {
      var rows := TeamRows(audit, team);
      var previous: Option<HashChain.Digest<AuditCore>> := None;
      for i := 0 to |rows|
        invariant previous == HashChain.HeadHash(rows[..i])
        invariant HashChain.Linked(rows[..i])
      {
        var expected := HashChain.Sha(rows[i].core, rows[i].previous);
        if rows[i].previous != previous || rows[i].hash != expected {
          assert !HashChain.LinkedAt(rows, i);
          return Broken(|rows|, rows[i].ordinal);
        }
        assert HashChain.LinkedAt(rows, i);
        HashChain.ExtendLinked(rows, i);
        previous := Some(rows[i].hash);
      }
      assert rows[..|rows|] == rows;
      return Valid(|rows|, previous);
    }

    method PullEvents(project: Id, principal: Id, cursor: int, limit: int) returns (r: Result<Page, Error>)
      ensures r.Success? <==> MayRead(Tables(), project, principal) && cursor >= 0 && 1 <= limit <= 5000
      ensures r.Success? ==> r.value == PageOf(events, project, cursor, limit)
      ensures r.Failure? ==> r.error == if project !in projects then NotFound
                                        else if !MayRead(Tables(), project, principal) then Denied else Integrity
    {
      AccessIff(Tables(), project, principal);
      hide RequireAccess;
      var allowed := RequireAccess(Tables(), project, principal, View);
      if allowed.Failure? { return Failure(allowed.error); }
      if cursor < 0 || !(1 <= limit <= 5000) { return Failure(Integrity); }
      var rows := Take(EventsAfter(events, project, cursor), limit);
      var page: seq<SyncEvent> := [];
      for i := 0 to |rows|
        invariant page == rows[..i]
      {
        page := page + [rows[i]];
      }
      assert page == rows;
      return Success(Page(page, NextCursor(page, cursor)));
    }

    method GetState(project: Id, principal: Id) returns (r: Result<Snapshot, Error>)
      ensures r.Success? <==> MayRead(Tables(), project, principal)
      ensures r.Success? ==> r.value == SnapshotOf(state, project)
      ensures r.Failure? ==> r.error == if project in projects then Denied else NotFound
    {
      AccessIff(Tables(), project, principal);
      hide RequireAccess, MayRead;
      var allowed := RequireAccess(Tables(), project, principal, View);
      if allowed.Failure? { return Failure(allowed.error); }
      var rows := set k | k in state && k.0 == project;
      var todo := rows;
      var values: map<string, Json>, revisions: map<string, int> := map[], map[];
      while todo != {}
        invariant todo <= rows
        invariant forall key :: key in revisions <==> (project, key) in rows - todo
        invariant forall key | key in revisions :: revisions[key] == state[(project, key)].revision
        invariant forall key :: key in values <==>
                    (project, key) in rows - todo && !state[(project, key)].tombstone
                    && state[(project, key)].value.Some?
        invariant forall key | key in values :: values[key] == state[(project, key)].value.value
      {
        var k :| k in todo;
        revisions := revisions[k.1 := state[k].revision];
        if !state[k].tombstone && state[k].value.Some? {
          values := values[k.1 := state[k].value.value];
        }
        todo := todo - {k};
      }
      SnapshotIsPointwise(state, project, values, revisions);
      return Success(Snapshot(values, revisions));
    }

    method AuthenticateAccessToken(secret: string, now: int) returns (r: Result<Id, Error>)
      ensures r.Success? <==> exists token :: Authenticates(Tables(), secret, token, now)
      ensures r.Success? ==> Authenticates(Tables(), secret, r.value, now)
      ensures r.Failure? ==> r.error == AccessTokenInvalid
    {
      var digest := SecretDigest(secret);
      if digest !in tokenByDigest || tokenByDigest[digest] !in tokens { return Failure(AccessTokenInvalid); }
      var row := tokens[tokenByDigest[digest]];
      if row.revokedAt.Some? || row.expiresAt <= now { return Failure(AccessTokenInvalid); }
      assert Authenticates(Tables(), secret, tokenByDigest[digest], now);
      return Success(tokenByDigest[digest]);
    }
  }
}
