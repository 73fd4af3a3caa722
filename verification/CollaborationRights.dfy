/**
 Who may do what, read off the tables without the ranks the store computes with, and what that
 means for the store's own checks.
 */
module CollaborationRights {
  import opened Prelude
  import opened SyncMutations
  import opened CollaborationTables

  predicate RunsTeam(db: Database, team: Id, principal: Id) {
    (team, principal) in db.members && db.members[(team, principal)].role in {Admin, Owner}
  }

  predicate IsOwner(db: Database, team: Id, principal: Id) {
    (team, principal) in db.members && db.members[(team, principal)].role == Owner
  }

  predicate HasOtherOwner(db: Database, team: Id, principal: Id) {
    exists k | k in db.members :: k.0 == team && k.1 != principal && db.members[k].role == Owner
  }

  /** A member of the project's team who runs that team or has a share at one of the levels. */
  predicate HoldsAccess(db: Database, project: Id, principal: Id, levels: set<Access>) {
    && project in db.projects
    && (db.projects[project].team, principal) in db.members
    && (|| RunsTeam(db, db.projects[project].team, principal)
        || ((project, principal) in db.shares && db.shares[(project, principal)].access in levels))
  }

  predicate MayRead(db: Database, project: Id, principal: Id) {
    HoldsAccess(db, project, principal, {View, Edit, Manage})
  }

  predicate MayEdit(db: Database, project: Id, principal: Id) {
    HoldsAccess(db, project, principal, {Edit, Manage})
  }

  predicate MayManage(db: Database, project: Id, principal: Id) {
    HoldsAccess(db, project, principal, {Manage})
  }

  /** The pushed event's device is on record for the project's team as the pusher's own. */
  predicate OwnsDevice(db: Database, project: Id, device: Id, principal: Id) {
    && project in db.projects
    && (db.projects[project].team, device) in db.replicas
    && db.replicas[(db.projects[project].team, device)].principal == principal
  }

  /** The secret stands for this token, which is on record, not revoked and not expired. */
  predicate Authenticates(db: Database, secret: string, token: Id, now: int) {
    && SecretDigest(secret) in db.tokenByDigest && db.tokenByDigest[SecretDigest(secret)] == token
    && token in db.tokens && db.tokens[token].revokedAt.None? && now < db.tokens[token].expiresAt
  }

  /** The store's access check admits exactly those with the right, and says whether the project exists. */
  lemma AccessIff(db: Database, project: Id, principal: Id)
    ensures RequireAccess(db, project, principal, View).Success? <==> MayRead(db, project, principal)
    ensures RequireAccess(db, project, principal, Edit).Success? <==> MayEdit(db, project, principal)
    ensures RequireAccess(db, project, principal, Manage).Success? <==> MayManage(db, project, principal)
    ensures forall least :: RequireAccess(db, project, principal, least).Failure? ==>
                              RequireAccess(db, project, principal, least).error
                              == if project in db.projects then Denied else NotFound
  {
  }

  /** The store's role check admits exactly the members of at least that role; everyone else is denied. */
  lemma TeamRoleIff(db: Database, team: Id, principal: Id)
    ensures RequireTeamRole(db, team, principal, Admin).Success? <==> RunsTeam(db, team, principal)
    ensures RequireTeamRole(db, team, principal, Member).Success?
            <==> (team, principal) in db.members && db.members[(team, principal)].role in {Member, Admin, Owner}
    ensures forall least :: RequireTeamRole(db, team, principal, least)
                            in {Failure(Denied), GetMember(db, team, principal)}
    ensures GetMember(db, team, principal)
            == if (team, principal) in db.members then Success(db.members[(team, principal)]) else Failure(Denied)
  {
  }

  /** Counting owners tells whether an owner is the last one. */
  lemma LastOwnerIff(db: Database, team: Id, principal: Id)
    requires IsOwner(db, team, principal)
    ensures |Owners(db, team)| <= 1 <==> !HasOtherOwner(db, team, principal)
  {
    var owners := Owners(db, team);
    assert (team, principal) in db.members && principal in owners;
    if HasOtherOwner(db, team, principal) {
      var k :| k in db.members && k.0 == team && k.1 != principal && db.members[k].role == Owner;
      assert k.1 in owners;
      assert {principal, k.1} <= owners && |{principal, k.1}| == 2;
      SubsetIsSmaller({principal, k.1}, owners);
    } else {
      forall p | p in owners ensures p == principal {
        assert (team, p) in db.members && db.members[(team, p)].role == Owner;
      }
      assert owners == {principal};
    }
  }

  lemma SubsetIsSmaller<T>(a: set<T>, b: set<T>)
    requires a <= b
    ensures |a| <= |b|
  {
    assert b == a + (b - a);
  }
}
