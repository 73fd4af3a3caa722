/** A run in which an honest retry of an accepted push is refused. */
module CollaborationExamples {
  import opened Prelude
  import opened SyncMutations
  import opened CollaborationTables
  import opened CollaborationCalls
  import opened CollaborationHistory

  function At(now: int, eventId: Id): Tick {
    Tick(now, "", "", eventId)
  }

  const SETUP: seq<Timed> :=
    [Timed(CallCreateTeam("team", "ann", Some("t")), At(0, "e0")),
     Timed(CallCreateProject("t", "plan", "ann", Some("p")), At(0, "e1")),
     Timed(CallRegisterReplica("t", "ann", Some("d"), "laptop"), At(0, "e2"))]

  /** A first push to a fresh key, without a timestamp. */
  const PUSH: SyncMutation := SyncMutation("m", "p", "d", 1, 0, "k", "set", Json([0x31]), None, None, None)

  lemma Plain(s: string)
    requires s != "" && forall i | 0 <= i < |s| :: 'a' <= s[i] <= 'z'
    ensures Strip(s) == s
  {
    assert StripLeft(s) == s;
    assert StripRight(s) == s;
  }

  predicate IdsAmong(audit: seq<AuditRow>, ids: set<Id>) {
    forall i | 0 <= i < |audit| :: audit[i].core.eventId in ids
  }

  lemma TeamThere()
    ensures var db := CreateTeam(EMPTY, "team", "ann", Some("t"), At(0, "e0")).db;
            && db.members == map[("t", "ann") := MemberRow(Owner, 0)] && IdsAmong(db.audit, {"e0"})
            && db == EMPTY.(teams := db.teams, members := db.members, audit := db.audit)
  {
    Plain("team");
    Plain("ann");
    hide Grown, GrownQuietly, TeamRows, Strip;
  }

  lemma ProjectThere(db: Database)
    requires db == EMPTY.(teams := db.teams, members := db.members, audit := db.audit)
    requires db.members == map[("t", "ann") := MemberRow(Owner, 0)] && IdsAmong(db.audit, {"e0"})
    ensures var after := CreateProject(db, "t", "plan", "ann", Some("p"), At(0, "e1")).db;
            && "p" in after.projects && after.projects["p"].team == "t" && IdsAmong(after.audit, {"e0", "e1"})
            && after == db.(projects := after.projects, shares := after.shares, audit := after.audit)
  {
    hide Grown, GrownQuietly, TeamRows, ProjectName;
  }

  lemma DeviceThere(db: Database)
    requires db.members == map[("t", "ann") := MemberRow(Owner, 0)] && db.replicas == map[]
             && IdsAmong(db.audit, {"e0", "e1"})
    ensures var after := RegisterReplica(db, "t", "ann", Some("d"), "laptop", At(0, "e2")).db;
            && ("t", "d") in after.replicas && after.replicas[("t", "d")].principal == "ann"
            && after.replicas[("t", "d")].lastSequence == 0 && after.replicas[("t", "d")].lastHash == None
            && IdsAmong(after.audit, {"e0", "e1", "e2"})
            && after == db.(replicas := after.replicas, audit := after.audit)
  {
    hide Grown, GrownQuietly, TeamRows, Label;
  }

  /** The state before the push: a team, a project and a device, and nothing synchronized yet. */
  ghost predicate Ready(db: Database) {
    && ("t", "ann") in db.members && db.members[("t", "ann")].role == Owner
    && "p" in db.projects && db.projects["p"].team == "t"
    && ("t", "d") in db.replicas && db.replicas[("t", "d")].principal == "ann"
    && db.replicas[("t", "d")].lastSequence == 0 && db.replicas[("t", "d")].lastHash == None
    && db.events == [] && db.state == map[] && IdsAmong(db.audit, {"e0", "e1", "e2"})
  }

  lemma SetUp()
    ensures Ready(Run(EMPTY, SETUP))
  {
    hide CreateTeam, CreateProject, RegisterReplica, IdsAmong;
    TeamThere();
    var one := CreateTeam(EMPTY, "team", "ann", Some("t"), At(0, "e0")).db;
    ProjectThere(one);
    var two := CreateProject(one, "t", "plan", "ann", Some("p"), At(0, "e1")).db;
    DeviceThere(two);
    assert SETUP[..2][..1] == SETUP[..1] && SETUP[..1][..0] == [];
    assert Run(EMPTY, SETUP[..1][..0]) == EMPTY;
    assert Run(EMPTY, SETUP[..1]) == one;
    assert Run(EMPTY, SETUP[..2]) == two;
    assert SETUP[..|SETUP| - 1] == SETUP[..2];
  }

  lemma KeyIsSafe()
    ensures SafeKey("k")
  {
    var k := "k";
    assert k[1..] == "" && Split("", '/') == [""];
    assert Split(k, '/') == [[k[0]] + ""] + [""][1..];
    assert |Split(k, '/')| == 1 && |Split(k, '/')[0]| == 1;
  }

  lemma PushNormalises(now: int)
    ensures Normalized(PUSH, now).Success?
    ensures var p := Normalized(PUSH, now).value;
            p.mutationId == "m" && p.projectId == "p" && p.deviceId == "d" && p.sequence == 1 && p.baseRevision == 0
            && p.previous == None
  {
    OperationParsesIff("set", SetValue);
    Plain("m");
    Plain("p");
    Plain("d");
    Plain("k");
    KeyIsSafe();
    hide Strip, ParseOperation;
  }

  lemma PushAccepted(db: Database)
    requires Ready(db)
    ensures ApplyMutation(db, PUSH, "ann", At(0, "e3")).result.Success?
    ensures Admit(ApplyMutation(db, PUSH, "ann", At(0, "e3")).db, Normalized(PUSH, 0).value, "ann").Success?
  {
    PushNormalises(0);
    hide Normalized, Grown, GrownQuietly, TeamRows, NextAuditRow, DetectConflict, AcceptedBody, RowOf;
  }

  /** An accepted push without a timestamp, sent again one second later by the same member and device, is refused. */
  lemma HonestRetryCanBeRefused()
    ensures var first := ApplyMutation(Run(EMPTY, SETUP), PUSH, "ann", At(0, "e3"));
            && first.result.Success?
            && ApplyMutation(first.db, PUSH, "ann", At(0, "e4")).result.Success?
            && ApplyMutation(first.db, PUSH, "ann", At(1, "e4")).result.Failure?
  {
    hide Run, ApplyMutation, Normalized, Admit, Ready;
    SetUp();
    PushAccepted(Run(EMPTY, SETUP));
    var first := ApplyMutation(Run(EMPTY, SETUP), PUSH, "ann", At(0, "e3"));
    RedeliveryIsAcknowledged(SETUP, PUSH, "ann", At(0, "e3"), [], At(0, "e4"));
    RedeliveryIsAcknowledged(SETUP, PUSH, "ann", At(0, "e3"), [], At(1, "e4"));
    NothingRun(first.db);
  }

  lemma NothingRun(db: Database)
    ensures Run(db, []) == db
  {
  }
}
