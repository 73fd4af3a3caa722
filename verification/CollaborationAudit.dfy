/**
 The audit log as the history of the store: it stays chained for every team however the teams
 interleave, it is never rewritten, and replaying one team's rows gives exactly that team's
 members, project shares, device heads and unrevoked tokens.
 */
module CollaborationAudit {
  import opened Prelude
  import opened SyncMutations
  import opened CollaborationTables
  import opened CollaborationCalls
  import HashChain

  // ---------- the chain ----------

  ghost predicate Chained(audit: seq<AuditRow>) {
    forall t :: HashChain.Linked(TeamRows(audit, t))
  }

  lemma TeamRowsAppend(audit: seq<AuditRow>, row: AuditRow, team: Id)
    ensures TeamRows(audit + [row], team) == if row.core.team == team then TeamRows(audit, team) + [row]
                                             else TeamRows(audit, team)
  {
    assert (audit + [row])[..|audit|] == audit;
  }

  lemma GrownAppends(was: seq<AuditRow>, now: seq<AuditRow>, team: Id)
    requires Grown(was, now) && now != was
    ensures |now| == |was| + 1 && now[..|was|] == was
    ensures TeamRows(now, team) == if now[|was|].core.team == team then TeamRows(was, team) + [now[|was|]]
                                   else TeamRows(was, team)
  {
    assert now == was + [now[|was|]];
    TeamRowsAppend(was, now[|was|], team);
  }

  lemma GrownChained(was: seq<AuditRow>, now: seq<AuditRow>)
    requires Chained(was) && Grown(was, now)
    ensures Chained(now)
  {
    if now != was {
      forall t ensures HashChain.Linked(TeamRows(now, t)) {
        GrownAppends(was, now, t);
        HashChain.AppendLinked(TeamRows(was, t), |was| + 1, now[|was|].core);
      }
    }
  }

  /** Every call extends the audit log by at most two properly chained rows. */
  lemma PerformGrows(db: Database, c: Timed) returns (mid: seq<AuditRow>)
    ensures Grown(db.audit, mid) && Grown(mid, Perform(db, c).db.audit)
  {
    hide Grown, CreateTeam, SetMemberRole, RemoveMember, CreateInvitation, AcceptInvitation, RevokeInvitation,
         CreateProject, GrantProjectAccess, RevokeProjectAccess, IssueAccessToken, RevokeAccessToken, RegisterReplica,
         ApplyMutation, CloseConflict;
    NothingGrown(db.audit);
    mid := db.audit;
    match c.call
    case CallResolveConflict(conflict, mutation, principal, closing) =>
      if ResolveConflict(db, conflict, mutation, principal, c.tick, closing).db != db {
        mid := ApplyMutation(db, mutation, principal, c.tick).db.audit;
        NothingGrown(mid);
      }
    case _ =>
  }

  lemma NothingGrown(audit: seq<AuditRow>)
    ensures Grown(audit, audit)
  {
  }

  /** In every reachable state every team's rows are linked, which is what `VerifyAudit` reports as valid. */
  lemma {:induction false} RunChained(calls: seq<Timed>)
    ensures Chained(Run(EMPTY, calls).audit)
  {
    hide Perform, Grown;
    if calls != [] {
      RunChained(calls[..|calls| - 1]);
      var mid := PerformGrows(Run(EMPTY, calls[..|calls| - 1]), calls[|calls| - 1]);
      GrownChained(Run(EMPTY, calls[..|calls| - 1]).audit, mid);
      GrownChained(mid, Run(EMPTY, calls).audit);
    }
  }

  /** No call ever rewrites or drops an audit row. */
  lemma {:induction false} AuditIsAppendOnly(db: Database, calls: seq<Timed>)
    ensures db.audit <= Run(db, calls).audit
  {
    hide Perform, Grown;
    if calls != [] {
      AuditIsAppendOnly(db, calls[..|calls| - 1]);
      var before := Run(db, calls[..|calls| - 1]);
      var mid := PerformGrows(before, calls[|calls| - 1]);
      GrownPrefix(before.audit, mid);
      GrownPrefix(mid, Run(db, calls).audit);
    }
  }

  lemma GrownPrefix(was: seq<AuditRow>, now: seq<AuditRow>)
    requires Grown(was, now)
    ensures was <= now
  {
  }

  // ---------- the fold ----------

  datatype Head = Head(owner: Id, lastSequence: int, lastHash: Option<HashText>)

  /** What a team's audit log says about the team. */
  datatype TeamView = TeamView(members: map<Id, Role>, shares: map<(Id, Id), Access>, replicas: map<Id, Head>,
                               tokens: map<Id, Id>)

  const NO_VIEW := TeamView(map[], map[], map[], map[])

  function WithoutMember(v: TeamView, p: Id): TeamView {
    TeamView(v.members - {p},
             map k | k in v.shares && k.1 != p :: v.shares[k],
             map d | d in v.replicas && v.replicas[d].owner != p :: v.replicas[d],
             map t | t in v.tokens && v.tokens[t] != p :: v.tokens[t])
  }

  function Advance(v: TeamView, row: AuditCore): TeamView {
    match row.body
    case TeamCreated(_) => v.(members := v.members[row.actor := Owner])
    case RoleChanged(target, _, role) => v.(members := v.members[target := role])
    case MemberRemoved(target, _, _, _, _) => WithoutMember(v, target)
    case InvitationAccepted(_, role) => v.(members := v.members[row.actor := role])
    case ProjectCreated(project, _) => v.(shares := v.shares[(project, row.actor) := Manage])
    case ShareGranted(project, target, access) => v.(shares := v.shares[(project, target) := access])
    case ShareRevoked(project, target) => v.(shares := v.shares - {(project, target)})
    case TokenIssued(token, _, _) => v.(tokens := v.tokens[token := row.actor])
    case TokenRevoked(token) => v.(tokens := v.tokens - {token})
    case ReplicaRegistered(device, _) => v.(replicas := v.replicas[device := Head(row.actor, 0, None)])
    case MutationAccepted(_, _, device, sequence, _, _, _, hash) =>
      v.(replicas := v.replicas[device := Head(row.actor, sequence, Some(hash))])
    case InvitationCreated(_, _, _) => v
    case InvitationRevoked(_) => v
    case ConflictDetected(_, _, _, _, _) => v
    case ConflictResolved(_, _) => v
  }

  function ViewOf(rows: seq<AuditRow>): TeamView {
    if rows == [] then NO_VIEW else Advance(ViewOf(rows[..|rows| - 1]), rows[|rows| - 1].core)
  }

  ghost predicate MembersMatch(members: map<(Id, Id), MemberRow>, team: Id, view: map<Id, Role>) {
    && (forall p :: p in view <==> (team, p) in members)
    && (forall p | p in view :: view[p] == members[(team, p)].role)
  }

  ghost predicate SharesMatch(shares: map<(Id, Id), ShareRow>, projects: map<Id, ProjectRow>, team: Id,
                              view: map<(Id, Id), Access>) {
    && (forall k :: k in view <==> k in shares && k.0 in projects && projects[k.0].team == team)
    && (forall k | k in view :: view[k] == shares[k].access)
  }

  ghost predicate ReplicasMatch(replicas: map<(Id, Id), ReplicaRow>, team: Id, view: map<Id, Head>) {
    && (forall d :: d in view <==> (team, d) in replicas)
    && (forall d | d in view ::
          var r := replicas[(team, d)]; view[d] == Head(r.principal, r.lastSequence, r.lastHash))
  }

  ghost predicate TokensMatch(tokens: map<Id, TokenRow>, team: Id, view: map<Id, Id>) {
    && (forall k :: k in view <==> k in tokens && tokens[k].team == team && tokens[k].revokedAt.None?)
    && (forall k | k in view :: view[k] == tokens[k].principal)
  }

  ghost predicate Matches(db: Database, team: Id, v: TeamView) {
    && MembersMatch(db.members, team, v.members)
    && SharesMatch(db.shares, db.projects, team, v.shares)
    && ReplicasMatch(db.replicas, team, v.replicas)
    && TokensMatch(db.tokens, team, v.tokens)
  }

  /** Every team's tables are exactly the fold of its audit log. */
  ghost predicate Folded(db: Database) {
    forall t :: Matches(db, t, ViewOf(TeamRows(db.audit, t)))
  }

  /** One more row advances the view of its own team and leaves the others. */
  lemma ViewAfter(was: seq<AuditRow>, now: seq<AuditRow>, team: Id)
    requires Grown(was, now) && now != was
    ensures |now| == |was| + 1
    ensures ViewOf(TeamRows(now, team)) ==
            if now[|was|].core.team == team then Advance(ViewOf(TeamRows(was, team)), now[|was|].core)
            else ViewOf(TeamRows(was, team))
  {
    GrownAppends(was, now, team);
    var rows := TeamRows(was, team);
    assert (rows + [now[|was|]])[..|rows|] == rows;
  }
}
