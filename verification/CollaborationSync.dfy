/**
 Synchronization over whole runs: the state table is the replay of the event log, revisions never
 collide, every device's accepted events form one chain, the audit log mirrors the event log,
 conflicts are resolved once and honestly, and redelivery is harmless.
 */
module CollaborationSync {
  import opened Prelude
  import opened SyncMutations
  import opened CollaborationTables
  import opened CollaborationCalls
  import opened CollaborationAudit

  // ---------- the event log and the state it defines ----------

  /** The state table that replaying the log from nothing produces. */
  function ReplayState(events: seq<SyncEvent>): map<(Id, string), StateRow> {
    if events == [] then map[]
    else
      var e := events[|events| - 1];
      ReplayState(events[..|events| - 1])[(e.project, e.key) := RowOf(e)]
  }

  /** The signed payload of a stored event, put together again from its columns. */
  function PayloadOf(e: SyncEvent): Payload {
    Payload(e.mutationId, e.project, e.device, e.sequence, e.baseRevision, e.key, e.operation,
            if e.value.Some? then e.value.value else JSON_NULL, e.previous, e.createdAt)
  }

  /** An event fits the log before it: next ordinal, base revision current at its time, hash of its own content. */
  ghost predicate Fits(before: seq<SyncEvent>, e: SyncEvent) {
    && e.ordinal == |before| + 1
    && e.baseRevision == ServerRevision(ReplayState(before), e.project, e.key)
    && e.resultingRevision == e.baseRevision + 1
    && e.hash == Sha(PayloadOf(e))
    && (e.operation == DeleteKey <==> e.value == None)
    && FindMutation(before, e.mutationId) == None
  }

  ghost predicate LogFits(events: seq<SyncEvent>) {
    forall i | 0 <= i < |events| :: Fits(events[..i], events[i])
  }

  lemma AppendFits(events: seq<SyncEvent>, e: SyncEvent)
    requires LogFits(events) && Fits(events, e)
    ensures LogFits(events + [e])
    ensures ReplayState(events + [e]) == ReplayState(events)[(e.project, e.key) := RowOf(e)]
  {
    hide Fits;
    var longer := events + [e];
    forall i | 0 <= i < |longer| ensures Fits(longer[..i], longer[i]) {
      assert longer[..i] == events[..i];
      assert events[..|events|] == events;
    }
    assert longer[..|events|] == events;
  }

  // ---------- the chain of a device ----------

  /** The hashes accepted from a device since its latest registration, read off the team's audit rows. */
  function SinceRegistration(rows: seq<AuditRow>, device: Id): seq<HashText> {
    if rows == [] then []
    else
      var earlier := SinceRegistration(rows[..|rows| - 1], device);
      match rows[|rows| - 1].core.body
      case ReplicaRegistered(d, _) => if d == device then [] else earlier
      case MutationAccepted(_, _, d, _, _, _, _, hash) => if d == device then earlier + [hash] else earlier
      case _ => earlier
  }

  function LastOf(hashes: seq<HashText>): Option<HashText> {
    if hashes == [] then None else Some(hashes[|hashes| - 1])
  }

  /** Sequence numbers 1, 2, ..., each event naming its predecessor's hash, the first naming none. */
  ghost predicate DeviceChain(hashes: seq<HashText>) {
    forall i | 0 <= i < |hashes| ::
      && hashes[i].Sha?
      && hashes[i].payload.sequence == i + 1
      && Truthy(hashes[i].payload.previous) == LastOf(hashes[..i])
  }

  ghost predicate ReplicaChained(r: ReplicaRow, hashes: seq<HashText>) {
    DeviceChain(hashes) && r.lastSequence == |hashes| && r.lastHash == LastOf(hashes)
  }

  ghost predicate ReplicasChained(replicas: map<(Id, Id), ReplicaRow>, audit: seq<AuditRow>) {
    forall k | k in replicas :: ReplicaChained(replicas[k], SinceRegistration(TeamRows(audit, k.0), k.1))
  }

  // ---------- the audit log mirrors the event log ----------

  function AcceptedIn(rows: seq<AuditRow>): seq<AuditBody> {
    if rows == [] then []
    else
      var earlier := AcceptedIn(rows[..|rows| - 1]);
      var body := rows[|rows| - 1].core.body;
      if body.MutationAccepted? then earlier + [body] else earlier
  }

  function BodiesOf(events: seq<SyncEvent>, team: Id): seq<AuditBody> {
    if events == [] then []
    else
      var earlier := BodiesOf(events[..|events| - 1], team);
      var e := events[|events| - 1];
      if e.team == team then earlier + [AcceptedBody(e)] else earlier
  }

  ghost predicate Mirrored(events: seq<SyncEvent>, audit: seq<AuditRow>) {
    forall t :: AcceptedIn(TeamRows(audit, t)) == BodiesOf(events, t)
  }

  // ---------- conflicts ----------

  ghost predicate AcceptedOn(events: seq<SyncEvent>, project: Id, key: string, hash: HashText) {
    exists i | 0 <= i < |events| :: events[i].project == project && events[i].key == key && events[i].hash == hash
  }

  /**
   A conflict row keeps a normalised key, and a resolved one the hash of an event accepted on its
   own project and key.
   */
  ghost predicate ConflictFits(row: ConflictRow, events: seq<SyncEvent>) {
    && Strip(row.key) == row.key
    && (row.resolution.Some? ==> AcceptedOn(events, row.project, row.key, row.resolution.value.hash))
  }

  ghost predicate ConflictsFit(conflicts: map<Id, ConflictRow>, events: seq<SyncEvent>) {
    forall id | id in conflicts :: ConflictFits(conflicts[id], events)
  }

  ghost predicate Synced(db: Database) {
    && LogFits(db.events)
    && db.state == ReplayState(db.events)
    && ReplicasChained(db.replicas, db.audit)
    && Mirrored(db.events, db.audit)
    && ConflictsFit(db.conflicts, db.events)
  }

  // ---------- one lemma per kind of call ----------

  lemma QuietRow(was: seq<AuditRow>, now: seq<AuditRow>, team: Id, device: Id)
    requires Grown(was, now) && GrownQuietly(was, now)
    ensures SinceRegistration(TeamRows(now, team), device) == SinceRegistration(TeamRows(was, team), device)
    ensures AcceptedIn(TeamRows(now, team)) == AcceptedIn(TeamRows(was, team))
  {
    if now != was {
      GrownAppends(was, now, team);
      var rows := TeamRows(was, team);
      assert (rows + [now[|was|]])[..|rows|] == rows;
    }
  }

  lemma QuietGrowth(events: seq<SyncEvent>, was: seq<AuditRow>, now: seq<AuditRow>,
                    replicas: map<(Id, Id), ReplicaRow>, left: map<(Id, Id), ReplicaRow>)
    requires Mirrored(events, was) && ReplicasChained(replicas, was)
    requires Grown(was, now) && GrownQuietly(was, now)
    requires forall k | k in left :: k in replicas && left[k] == replicas[k]
    ensures Mirrored(events, now) && ReplicasChained(left, now)
  {
    hide Grown, GrownQuietly, ReplicaChained;
    forall t ensures AcceptedIn(TeamRows(now, t)) == BodiesOf(events, t) {
      QuietRow(was, now, t, "");
    }
    forall k | k in left ensures ReplicaChained(left[k], SinceRegistration(TeamRows(now, k.0), k.1)) {
      QuietRow(was, now, k.0, k.1);
    }
  }

  /** A call that touches none of the synchronization tables and audits nothing about devices. */
  lemma QuietCallSynced(db: Database, after: Database)
    requires Synced(db)
    requires SyncTablesKept(db, after)
    requires Grown(db.audit, after.audit) && GrownQuietly(db.audit, after.audit)
    ensures Synced(after)
  {
    hide Grown, GrownQuietly, LogFits, ConflictsFit, Mirrored, ReplicasChained;
    QuietGrowth(db.events, db.audit, after.audit, db.replicas, after.replicas);
  }

  lemma ExpelSynced(db: Database, team: Id, principal: Id, was: Role, actor: Id, tick: Tick)
    requires Synced(db)
    ensures Synced(Expel(db, team, principal, was, actor, tick).db)
  {
    hide Grown, GrownQuietly, LogFits, ConflictsFit, Mirrored, ReplicasChained, EventIdUsed, NextAuditRow, LiveTokensOf,
         SharesOf, RevokeAll, ReplicasOf, ReplayState;
    var after := Expel(db, team, principal, was, actor, tick).db;
    QuietGrowth(db.events, db.audit, after.audit, db.replicas, after.replicas);
  }

  lemma RemoveMemberSynced(db: Database, team: Id, principal: Id, actor: Id, tick: Tick)
    requires Synced(db)
    ensures Synced(RemoveMember(db, team, principal, actor, tick).db)
  {
    hide Synced, Grown, GrownQuietly, Expel, RequireTeamRole, Owners;
    if (team, principal) in db.members {
      ExpelSynced(db, team, principal, db.members[(team, principal)].role, actor, tick);
    }
  }

  lemma RegistrationRow(was: seq<AuditRow>, now: seq<AuditRow>, team: Id, device: Id)
    requires Grown(was, now) && now != was && now[|was|].core.body.ReplicaRegistered?
    ensures AcceptedIn(TeamRows(now, team)) == AcceptedIn(TeamRows(was, team))
    ensures var core := now[|was|].core;
            SinceRegistration(TeamRows(now, team), device)
            == if core.team == team && core.body.device == device then []
               else SinceRegistration(TeamRows(was, team), device)
  {
    hide TeamRows, Grown;
    GrownAppends(was, now, team);
    var rows, row := TeamRows(was, team), now[|was|];
    assert (rows + [row])[..|rows|] == rows && (rows + [row])[|rows|] == row;
  }

  /** A registration starts the device's chain afresh, whatever an earlier registration left in the logs. */
  lemma RegisterReplicaSynced(db: Database, team: Id, principal: Id, device: Option<Id>, caption: string, tick: Tick)
    requires Synced(db)
    ensures Synced(RegisterReplica(db, team, principal, device, caption, tick).db)
  {
    hide Grown, GrownQuietly, LogFits, ConflictsFit, EventIdUsed, TeamRows, AcceptedIn, SinceRegistration, BodiesOf,
         Label, ChosenId, ReplayState;
    var after := RegisterReplica(db, team, principal, device, caption, tick).db;
    if after.audit != db.audit {
      var id := ChosenId(device, tick.freshId);
      forall t ensures AcceptedIn(TeamRows(after.audit, t)) == BodiesOf(db.events, t) {
        RegistrationRow(db.audit, after.audit, t, id);
      }
      forall k | k in after.replicas
        ensures ReplicaChained(after.replicas[k], SinceRegistration(TeamRows(after.audit, k.0), k.1))
      {
        RegistrationRow(db.audit, after.audit, k.0, k.1);
      }
    }
  }

  lemma DetectConflictSynced(db: Database, p: Payload, principal: Id, tick: Tick)
    requires Synced(db) && p.projectId in db.projects && Strip(p.key) == p.key
    ensures Synced(DetectConflict(db, p, principal, tick).db)
  {
    hide Grown, GrownQuietly, LogFits, Mirrored, ReplicasChained, AcceptedOn, EventIdUsed, NextAuditRow, Strip,
         ServerRevision, ServerHash, ReplayState;
    var after := DetectConflict(db, p, principal, tick).db;
    QuietGrowth(db.events, db.audit, after.audit, db.replicas, after.replicas);
  }

  lemma AcceptedGrows(events: seq<SyncEvent>, e: SyncEvent, conflicts: map<Id, ConflictRow>)
    requires ConflictsFit(conflicts, events)
    ensures ConflictsFit(conflicts, events + [e])
  {
    hide Strip;
    forall id | id in conflicts ensures ConflictFits(conflicts[id], events + [e]) {
      assert ConflictFits(conflicts[id], events);
      var row := conflicts[id];
      if row.resolution.Some? {
        var i :| 0 <= i < |events| && events[i].project == row.project && events[i].key == row.key
                 && events[i].hash == row.resolution.value.hash;
        assert (events + [e])[i] == events[i];
      }
    }
  }

  lemma MutationRow(was: seq<AuditRow>, row: AuditRow, team: Id, device: Id)
    requires row.core.body.MutationAccepted?
    ensures SinceRegistration(TeamRows(was + [row], team), device) ==
            SinceRegistration(TeamRows(was, team), device)
            + (if row.core.team == team && row.core.body.device == device then [row.core.body.hash] else [])
    ensures AcceptedIn(TeamRows(was + [row], team)) ==
            AcceptedIn(TeamRows(was, team)) + (if row.core.team == team then [row.core.body] else [])
  {
    hide TeamRows;
    TeamRowsAppend(was, row, team);
    MutationLast(TeamRows(was, team), row, device);
  }

  lemma MutationLast(rows: seq<AuditRow>, row: AuditRow, device: Id)
    requires row.core.body.MutationAccepted?
    ensures SinceRegistration(rows + [row], device) ==
            SinceRegistration(rows, device) + (if row.core.body.device == device then [row.core.body.hash] else [])
    ensures AcceptedIn(rows + [row]) == AcceptedIn(rows) + [row.core.body]
  {
    assert (rows + [row])[..|rows|] == rows;
  }

  lemma AcceptMirrored(db: Database, e: SyncEvent, row: AuditRow)
    requires Mirrored(db.events, db.audit) && row.core.team == e.team && row.core.body == AcceptedBody(e)
    ensures Mirrored(db.events + [e], db.audit + [row])
  {
    forall t ensures AcceptedIn(TeamRows(db.audit + [row], t)) == BodiesOf(db.events + [e], t) {
      hide TeamRows, AcceptedIn;
      MutationRow(db.audit, row, t, e.device);
      assert (db.events + [e])[..|db.events|] == db.events;
    }
  }

  lemma ChainExtends(hashes: seq<HashText>, next: HashText)
    requires DeviceChain(hashes) && next.Sha? && next.payload.sequence == |hashes| + 1
    requires Truthy(next.payload.previous) == LastOf(hashes)
    ensures DeviceChain(hashes + [next]) && LastOf(hashes + [next]) == Some(next)
  {
    var longer := hashes + [next];
    forall i | 0 <= i < |longer|
      ensures longer[i].Sha? && longer[i].payload.sequence == i + 1
              && Truthy(longer[i].payload.previous) == LastOf(longer[..i])
    {
      assert longer[..i] == hashes[..i];
      assert hashes[..|hashes|] == hashes;
    }
  }

  lemma AcceptChained(db: Database, e: SyncEvent, row: AuditRow, r: ReplicaRow)
    requires ReplicasChained(db.replicas, db.audit) && (e.team, e.device) in db.replicas
             && r == db.replicas[(e.team, e.device)]
    requires row.core.team == e.team && row.core.body == AcceptedBody(e)
    requires e.hash.Sha? && e.hash.payload.sequence == e.sequence == r.lastSequence + 1
    requires Truthy(e.hash.payload.previous) == r.lastHash
    ensures ReplicasChained(db.replicas[(e.team, e.device) :=
                                          r.(lastSequence := e.sequence, lastHash := Some(e.hash))], db.audit + [row])
  {
    var replicas := db.replicas[(e.team, e.device) := r.(lastSequence := e.sequence, lastHash := Some(e.hash))];
    forall k | k in replicas
      ensures ReplicaChained(replicas[k], SinceRegistration(TeamRows(db.audit + [row], k.0), k.1))
    {
      hide TeamRows, SinceRegistration, Truthy, DeviceChain;
      MutationRow(db.audit, row, k.0, k.1);
      var hashes := SinceRegistration(TeamRows(db.audit, k.0), k.1);
      assert ReplicaChained(db.replicas[k], hashes);
      if k == (e.team, e.device) {
        ChainExtends(hashes, e.hash);
      } else {
        assert hashes + [] == hashes;
      }
    }
  }

  /** A device's head is a real digest, so the "falsy head" case of the check never hides a mismatch. */
  lemma HeadIsDigest(db: Database, k: (Id, Id))
    requires ReplicasChained(db.replicas, db.audit) && k in db.replicas
    ensures Truthy(db.replicas[k].lastHash) == db.replicas[k].lastHash
  {
    var hashes := SinceRegistration(TeamRows(db.audit, k.0), k.1);
    assert ReplicaChained(db.replicas[k], hashes);
    if hashes != [] {
      assert hashes[|hashes| - 1].Sha?;
    }
  }

  lemma EventFits(db: Database, p: Payload, principal: Id)
    requires p.projectId in db.projects && db.state == ReplayState(db.events)
    requires p.baseRevision == ServerRevision(db.state, p.projectId, p.key)
    requires FindMutation(db.events, p.mutationId) == None
    requires p.operation == DeleteKey ==> p.value == JSON_NULL
    ensures Fits(db.events, EventOf(db, p, principal))
    ensures PayloadOf(EventOf(db, p, principal)) == p
  {
    hide FindMutation, ReplayState;
  }

  lemma AcceptSynced(db: Database, p: Payload, principal: Id, replica: ReplicaRow, tick: Tick)
    requires Synced(db) && p.projectId in db.projects
    requires (db.projects[p.projectId].team, p.deviceId) in db.replicas
    requires replica == db.replicas[(db.projects[p.projectId].team, p.deviceId)]
    requires p.sequence == replica.lastSequence + 1 && Truthy(p.previous) == Truthy(replica.lastHash)
    requires p.baseRevision == ServerRevision(db.state, p.projectId, p.key)
    requires FindMutation(db.events, p.mutationId) == None
    requires p.operation == DeleteKey ==> p.value == JSON_NULL
    ensures Synced(Accept(db, p, principal, replica, tick).db)
  {
    hide Accept, LogFits, Fits, ReplicasChained, Mirrored, ConflictsFit, FindMutation, ServerRevision, ReplayState,
         Truthy, TeamRows, RowOf, PayloadOf;
    var e := EventOf(db, p, principal);
    var row := NextAuditRow(db.audit, e.team, principal, AcceptedBody(e), tick);
    AcceptCommits(db, p, principal, replica, tick);
    EventFits(db, p, principal);
    AppendFits(db.events, e);
    AcceptedGrows(db.events, e, db.conflicts);
    AcceptMirrored(db, e, row);
    HeadIsDigest(db, (e.team, e.device));
    AcceptChained(db, e, row, replica);
  }

  lemma ApplyPayloadSynced(db: Database, p: Payload, principal: Id, tick: Tick)
    requires Synced(db) && Strip(p.key) == p.key && (p.operation == DeleteKey ==> p.value == JSON_NULL)
    ensures Synced(ApplyPayload(db, p, principal, tick).db)
  {
    hide Synced, Grown, GrownQuietly, Accept, DetectConflict, FindMutation, ServerRevision, Truthy, RequireAccess,
         Strip;
    var admitted := Admit(db, p, principal);
    if admitted.Success? {
      AccessNeedsProject(db, p.projectId, principal);
      DetectConflictSynced(db, p, principal, tick);
      if p.sequence == admitted.value.lastSequence + 1 && Truthy(p.previous) == Truthy(admitted.value.lastHash)
         && FindMutation(db.events, p.mutationId) == None
         && p.baseRevision == ServerRevision(db.state, p.projectId, p.key) {
        AcceptSynced(db, p, principal, admitted.value, tick);
      }
    }
  }

  lemma AccessNeedsProject(db: Database, project: Id, principal: Id)
    requires RequireAccess(db, project, principal, Edit).Success?
    ensures project in db.projects
  {
  }

  lemma ApplyMutationSynced(db: Database, m: SyncMutation, principal: Id, tick: Tick)
    requires Synced(db)
    ensures Synced(ApplyMutation(db, m, principal, tick).db)
  {
    hide Synced, Grown, ApplyPayload, Normalized;
    if Normalized(m, tick.now).Success? {
      NormalizedIsCanonical(m, tick.now);
      ApplyPayloadSynced(db, Normalized(m, tick.now).value, principal, tick);
    }
  }

  lemma CloseConflictSynced(db: Database, conflict: Id, row: ConflictRow, receipt: PushReceipt, principal: Id,
                            tick: Tick)
    requires Synced(db) && row.project in db.projects && Strip(row.key) == row.key
    requires AcceptedOn(db.events, row.project, row.key, receipt.hash)
    ensures Synced(CloseConflict(db, conflict, row, receipt, principal, tick).db)
  {
    hide Grown, GrownQuietly, LogFits, Mirrored, ReplicasChained, AcceptedOn, EventIdUsed, NextAuditRow, Strip,
         ReplayState;
    var after := CloseConflict(db, conflict, row, receipt, principal, tick).db;
    QuietGrowth(db.events, db.audit, after.audit, db.replicas, after.replicas);
  }

  /**
   Whatever a successful push returns, fresh or replayed, is the hash of an event in the log on the
   pushed project and key.
   */
  lemma PushedIsAccepted(db: Database, m: SyncMutation, principal: Id, tick: Tick)
    requires Synced(db) && ApplyMutation(db, m, principal, tick).result.Success?
    ensures var r := ApplyMutation(db, m, principal, tick);
            AcceptedOn(r.db.events, m.projectId, Strip(m.key), r.result.value.receipt.hash)
  {
    hide ApplyPayload, ReplicasChained, Mirrored, ConflictsFit, Grown, ReplayState, AcceptedOn, Strip, SafeKey,
         ValidIdentifier, ParseOperation;
    PayloadIsAccepted(db, Normalized(m, tick.now).value, principal, tick);
  }

  lemma PayloadIsAccepted(db: Database, p: Payload, principal: Id, tick: Tick)
    requires LogFits(db.events) && ApplyPayload(db, p, principal, tick).result.Success?
    ensures var r := ApplyPayload(db, p, principal, tick);
            AcceptedOn(r.db.events, p.projectId, p.key, r.result.value.receipt.hash)
  {
    hide LogFits, Grown, GrownQuietly, GetReplica, ServerRevision, ServerHash, EventIdUsed, NextAuditRow,
         DetectConflict, Truthy;
    var r := ApplyPayload(db, p, principal, tick);
    match FindMutation(db.events, p.mutationId)
    case Some(existing) => StoredHash(db.events, existing, p);
    case None =>
      assert r.db.events == db.events + [EventOf(db, p, principal)];
      assert r.db.events[|db.events|].hash == Sha(p);
  }

  lemma StoredHash(events: seq<SyncEvent>, e: SyncEvent, p: Payload)
    requires LogFits(events) && e in events && e.hash == Sha(p)
    ensures AcceptedOn(events, p.projectId, p.key, e.hash)
  {
    var i :| 0 <= i < |events| && events[i] == e;
    assert Fits(events[..i], events[i]);
  }

  lemma ResolveConflictSynced(db: Database, conflict: Id, m: SyncMutation, principal: Id, tick: Tick, closing: Tick)
    requires Synced(db)
    ensures Synced(ResolveConflict(db, conflict, m, principal, tick, closing).db)
  {
    hide Synced, Grown, ApplyMutation, CloseConflict, AcceptedOn, Strip;
    ApplyMutationSynced(db, m, principal, tick);
    var pushed := ApplyMutation(db, m, principal, tick);
    if conflict in db.conflicts && pushed.result.Success? {
      var row := db.conflicts[conflict];
      if row.project == m.projectId && row.key == m.key {
        PushedIsAccepted(db, m, principal, tick);
        KeyIsStripped(db, conflict);
        CloseConflictSynced(pushed.db, conflict, row, pushed.result.value.receipt, principal, closing);
      }
    }
  }

  lemma KeyIsStripped(db: Database, conflict: Id)
    requires Synced(db) && conflict in db.conflicts
    ensures Strip(db.conflicts[conflict].key) == db.conflicts[conflict].key
  {
    hide LogFits, Mirrored, ReplicasChained, AcceptedOn, Strip;
    assert ConflictFits(db.conflicts[conflict], db.events);
  }

  predicate TouchesDevices(call: Call) {
    call.CallRemoveMember? || call.CallRegisterReplica? || call.CallApplyMutation? || call.CallResolveConflict?
  }

  lemma QuietPerform(db: Database, c: Timed)
    requires !TouchesDevices(c.call)
    ensures SyncTablesKept(db, Perform(db, c).db)
    ensures Grown(db.audit, Perform(db, c).db.audit) && GrownQuietly(db.audit, Perform(db, c).db.audit)
  {
    hide SyncTablesKept, Grown, GrownQuietly, CreateTeam, SetMemberRole, RemoveMember, CreateInvitation,
         AcceptInvitation, RevokeInvitation, CreateProject, GrantProjectAccess, RevokeProjectAccess, IssueAccessToken,
         RevokeAccessToken, RegisterReplica, ApplyMutation, ResolveConflict;
  }

  lemma PerformSynced(db: Database, c: Timed)
    requires Synced(db)
    ensures Synced(Perform(db, c).db)
  {
    hide Synced, Grown, GrownQuietly, CreateTeam, SetMemberRole, RemoveMember, CreateInvitation, AcceptInvitation,
         RevokeInvitation, CreateProject, GrantProjectAccess, RevokeProjectAccess, IssueAccessToken, RevokeAccessToken,
         RegisterReplica, ApplyMutation, ResolveConflict;
    match c.call
    case CallRemoveMember(team, principal, actor) => RemoveMemberSynced(db, team, principal, actor, c.tick);
    case CallRegisterReplica(team, principal, device, caption) =>
      RegisterReplicaSynced(db, team, principal, device, caption, c.tick);
    case CallApplyMutation(mutation, principal) => ApplyMutationSynced(db, mutation, principal, c.tick);
    case CallResolveConflict(conflict, mutation, principal, closing) =>
      ResolveConflictSynced(db, conflict, mutation, principal, c.tick, closing);
    case _ =>
      hide Perform;
      QuietPerform(db, c);
      QuietCallSynced(db, Perform(db, c).db);
  }

  lemma {:induction false} RunKeepsSynced(db: Database, calls: seq<Timed>)
    requires Synced(db)
    ensures Synced(Run(db, calls))
  {
    hide Perform, Synced;
    if calls != [] {
      RunKeepsSynced(db, calls[..|calls| - 1]);
      PerformSynced(Run(db, calls[..|calls| - 1]), calls[|calls| - 1]);
    }
  }

  lemma EmptySynced()
    ensures Synced(EMPTY)
  {
  }

  /**
   Every reachable state is synchronized: state, device chains, audit mirror and conflicts all
   agree with the event log.
   */
  lemma RunSynced(calls: seq<Timed>)
    ensures Synced(Run(EMPTY, calls))
  {
    hide Run, Synced;
    EmptySynced();
    RunKeepsSynced(EMPTY, calls);
  }
}
