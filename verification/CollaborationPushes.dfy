/**
 What a push does, end to end: when it is accepted, when it is a conflict, and what the tables then
 hold, in terms of the mutation as the client sent it.
 */
module CollaborationPushes {
  import opened Prelude
  import opened SyncMutations
  import opened CollaborationTables
  import opened CollaborationRights
  import opened CollaborationCalls
  import opened CollaborationAuthority
  import opened CollaborationStores

  /** The mutation normalises, and its sender may edit the project from that device. */
  predicate Admissible(db: Database, m: SyncMutation, principal: Id, clock: int) {
    && Normalized(m, clock).Success?
    && MayEdit(db, m.projectId, principal) && OwnsDevice(db, m.projectId, m.deviceId, principal)
  }

  /** Why an inadmissible mutation is refused. */
  function PushRefusal(db: Database, m: SyncMutation, principal: Id, clock: int): Error {
    if Normalized(m, clock).Failure? then Integrity
    else if m.projectId !in db.projects then NotFound
    else if !MayEdit(db, m.projectId, principal) then Denied
    else if (db.projects[m.projectId].team, m.deviceId) !in db.replicas then NotFound
    else Denied
  }

  /** It is new, and the next one in its device's chain; an empty hash stands for none. */
  predicate InTurn(db: Database, m: SyncMutation)
    requires m.projectId in db.projects && (db.projects[m.projectId].team, m.deviceId) in db.replicas
  {
    var device := db.replicas[(db.projects[m.projectId].team, m.deviceId)];
    && (forall e | e in db.events :: e.mutationId != m.mutationId)
    && m.sequence == device.lastSequence + 1
    && (m.previous == device.lastHash || {m.previous, device.lastHash} <= {None, Some(OtherText(""))})
  }

  /** The key's revision on the server, 0 when it was never written. */
  function RevisionOf(db: Database, project: Id, key: string): int {
    if (project, key) in db.state then db.state[(project, key)].revision else 0
  }

  predicate IsSet(m: SyncMutation) {
    ParseOperation(m.operation) == Some(SetValue)
  }

  /** The state holds what the mutation says, one revision on from its base. */
  predicate Stores(after: Database, m: SyncMutation) {
    var at := (m.projectId, Strip(m.key));
    && at in after.state
    && after.state[at].value == (if IsSet(m) then Some(m.value) else None)
    && after.state[at].tombstone == !IsSet(m)
    && after.state[at].revision == m.baseRevision + 1
  }

  /** The event says what the mutation says and who sent it, under the digest of a payload that carries the mutation. */
  predicate Logs(e: SyncEvent, m: SyncMutation, principal: Id, clock: int) {
    && e.mutationId == m.mutationId && e.project == m.projectId && e.device == m.deviceId && e.sequence == m.sequence
    && e.baseRevision == m.baseRevision && e.resultingRevision == m.baseRevision + 1 && e.key == Strip(m.key)
    && Some(e.operation) == ParseOperation(m.operation) && e.value == (if IsSet(m) then Some(m.value) else None)
    && e.previous == m.previous && e.principal == principal
    && e.hash.Sha? && Carries(e.hash.payload, m, clock) && e.createdAt == e.hash.payload.createdAt
  }

  /** The conflict row keeps what the client wanted and what the server had. */
  predicate Disputes(row: ConflictRow, db: Database, m: SyncMutation, now: int) {
    var at := (m.projectId, Strip(m.key));
    && row.project == m.projectId && row.key == Strip(m.key) && row.mutationId == m.mutationId
    && row.clientBase == m.baseRevision && Some(row.clientOperation) == ParseOperation(m.operation)
    && row.clientValue == (if IsSet(m) then Some(m.value) else None)
    && row.clientHash.Sha? && Carries(row.clientHash.payload, m, now)
    && row.serverRevision == RevisionOf(db, m.projectId, Strip(m.key))
    && row.serverHash == (if at in db.state then Some(db.state[at].hash) else None)
    && row.createdAt == now && row.resolution == None
  }

  /** What an accepted push leaves: one event, one state row, the device's new head, one audit row. */
  ghost predicate Accepted(db: Database, r: Outcome, m: SyncMutation, principal: Id, tick: Tick) {
    && m.projectId in db.projects && m.projectId in r.db.projects
    && var team := db.projects[m.projectId].team;
       && |r.db.events| == |db.events| + 1 && r.db.events[..|db.events|] == db.events
       && var e := r.db.events[|db.events|];
          && Logs(e, m, principal, tick.now) && e.team == team && e.ordinal == |r.db.events|
          && Stores(r.db, m) && SameBut(db.state, r.db.state, (m.projectId, Strip(m.key)))
          && r.db.state[(m.projectId, Strip(m.key))].hash == e.hash
          && r.db.state[(m.projectId, Strip(m.key))].updatedAt == e.createdAt
          && SameBut(db.replicas, r.db.replicas, (team, m.deviceId))
          && (team, m.deviceId) in db.replicas && (team, m.deviceId) in r.db.replicas
          && r.db.replicas[(team, m.deviceId)]
             == db.replicas[(team, m.deviceId)].(lastSequence := m.sequence, lastHash := Some(e.hash))
          && r.db.conflicts == db.conflicts
          && r.result == Success(Pushed(PushReceipt(false, e.ordinal, m.baseRevision + 1, e.hash)))
          && Audited(db, r.db, team, principal,
                     MutationAccepted(m.projectId, m.mutationId, m.deviceId, m.sequence, Strip(m.key), e.operation,
                                      m.baseRevision + 1, e.hash), tick)
  }

  /** What a stale push leaves: an open conflict row and its audit row. */
  ghost predicate Recorded(db: Database, r: Outcome, m: SyncMutation, principal: Id, tick: Tick) {
    && r.result == Failure(Conflict(tick.freshId))
    && r.db == db.(conflicts := r.db.conflicts, audit := r.db.audit)
    && SameBut(db.conflicts, r.db.conflicts, tick.freshId) && tick.freshId in r.db.conflicts
    && Disputes(r.db.conflicts[tick.freshId], db, m, tick.now)
    && m.projectId in db.projects
    && Audited(db, r.db, db.projects[m.projectId].team, principal,
               ConflictDetected(tick.freshId, m.projectId, Strip(m.key), m.baseRevision,
                                RevisionOf(db, m.projectId, Strip(m.key))), tick)
  }

  lemma AcceptDoes(db: Database, p: Payload, principal: Id, replica: ReplicaRow, tick: Tick)
    requires p.projectId in db.projects
    ensures var r := Accept(db, p, principal, replica, tick);
            var e := EventOf(db, p, principal);
            && (r.result.Success? <==> NewEvent(db, tick))
            && (if r.result.Success? then
                  && r.db.events == db.events + [e] && r.db.state == db.state[(e.project, e.key) := RowOf(e)]
                  && r.db.replicas == db.replicas[(e.team, e.device) :=
                                                    replica.(lastSequence := e.sequence, lastHash := Some(e.hash))]
                  && r.db == db.(events := r.db.events, state := r.db.state, replicas := r.db.replicas,
                                 audit := r.db.audit)
                  && r.result.value == Pushed(PushReceipt(false, e.ordinal, e.resultingRevision, e.hash))
                  && Audited(db, r.db, e.team, principal, AcceptedBody(e), tick)
                else r == Refuse(db, Storage))
  {
    var e := EventOf(db, p, principal);
    CommitIff(db, db.(events := db.events + [e],
                      state := db.state[(e.project, e.key) := RowOf(e)],
                      replicas := db.replicas[(e.team, e.device) :=
                        replica.(lastSequence := e.sequence, lastHash := Some(e.hash))]),
              e.team, principal, AcceptedBody(e), tick,
              Pushed(PushReceipt(false, e.ordinal, e.resultingRevision, e.hash)));
    hide EventOf, RowOf, AcceptedBody, Audited, Grown, GrownQuietly, SyncTablesKept, EventIdUsed, NextAuditRow;
  }

  lemma DetectDoes(db: Database, p: Payload, principal: Id, tick: Tick)
    requires p.projectId in db.projects
    ensures var r := DetectConflict(db, p, principal, tick);
            var revision := ServerRevision(db.state, p.projectId, p.key);
            if NewEvent(db, tick) && tick.freshId !in db.conflicts then
              && r.result == Failure(Conflict(tick.freshId))
              && r.db.conflicts == db.conflicts[tick.freshId :=
                   ConflictRow(p.projectId, p.key, p.mutationId, p.baseRevision, Sha(p), p.operation,
                               StoredValue(p.operation, p.value), revision,
                               ServerHash(db.state, p.projectId, p.key), tick.now, None)]
              && Audited(db, r.db, db.projects[p.projectId].team, principal,
                         ConflictDetected(tick.freshId, p.projectId, p.key, p.baseRevision, revision), tick)
            else r.db == db && r.result == Failure(Storage)
  {
    EventIdNew(db, tick);
    hide NewEvent, Grown, GrownQuietly, SyncTablesKept, EventIdUsed, TeamRows, ServerRevision, ServerHash, StoredValue;
  }

  lemma PushChecks(db: Database, m: SyncMutation, principal: Id, tick: Tick)
    ensures var r := ApplyMutation(db, m, principal, tick);
            if !Admissible(db, m, principal, tick.now) then r == Refuse(db, PushRefusal(db, m, principal, tick.now))
            else
              var p := Normalized(m, tick.now).value;
              && Carries(p, m, tick.now)
              && if !InTurn(db, m) then
                   r.db == db && (if r.result.Success? then r.result.value.receipt.idempotent
                                  else r.result.error == Integrity)
                 else if m.baseRevision == RevisionOf(db, m.projectId, Strip(m.key)) then
                   var replica := db.replicas[(db.projects[m.projectId].team, m.deviceId)];
                   r == Accept(db, p, principal, replica, tick)
                 else r == DetectConflict(db, p, principal, tick)
  {
    hide Grown, GrownQuietly, SyncTablesKept, EventIdUsed, TeamRows, Accept, DetectConflict, Normalized, Strip,
         RequireAccess, MayEdit, Carries;
    if Normalized(m, tick.now).Success? {
      NormalizedIsCanonical(m, tick.now);
      AccessIff(db, m.projectId, principal);
      CarriedFields(Normalized(m, tick.now).value, m, tick.now);
      if MayEdit(db, m.projectId, principal) {
        MayEditExists(db, m.projectId, principal);
      }
    }
  }

  lemma CarriedFields(p: Payload, m: SyncMutation, clock: int)
    requires Carries(p, m, clock)
    ensures p.mutationId == m.mutationId && p.projectId == m.projectId && p.deviceId == m.deviceId
    ensures p.sequence == m.sequence && p.baseRevision == m.baseRevision && p.previous == m.previous
    ensures p.key == Strip(m.key) && ParseOperation(m.operation) == Some(p.operation)
    ensures StoredValue(p.operation, p.value) == if IsSet(m) then Some(m.value) else None
  {
    hide Strip, ParseOperation;
  }

  lemma MayEditExists(db: Database, project: Id, principal: Id)
    requires MayEdit(db, project, principal)
    ensures project in db.projects
  {
  }

  /**
   A push is accepted as new exactly when it normalises, its sender may edit there from that device,
   it is new and next in its chain, and its base is the key's current revision; then event, state,
   device head and receipt say what the mutation says. With any other base it is recorded as a
   conflict instead; refused otherwise, it changes nothing.
   */
  lemma PushIff(db: Database, m: SyncMutation, principal: Id, tick: Tick)
    ensures var r := ApplyMutation(db, m, principal, tick);
            var proper := Admissible(db, m, principal, tick.now) && InTurn(db, m) && NewEvent(db, tick);
            var current := m.baseRevision == RevisionOf(db, m.projectId, Strip(m.key));
            && (r.result.Success? && !r.result.value.receipt.idempotent <==> proper && current)
            && (r.result.Failure? && r.result.error.Conflict?
                <==> proper && !current && tick.freshId !in db.conflicts)
            && (if proper && current then Accepted(db, r, m, principal, tick)
                else if proper && tick.freshId !in db.conflicts then Recorded(db, r, m, principal, tick)
                else r.db == db)
            && (r.result.Failure? && !r.result.error.Conflict? ==>
                  r.result.error == if !Admissible(db, m, principal, tick.now)
                                    then PushRefusal(db, m, principal, tick.now)
                                    else if InTurn(db, m) then Storage else Integrity)
  {
    PushChecks(db, m, principal, tick);
    hide NewEvent, ApplyMutation, Normalized, Grown, GrownQuietly, SyncTablesKept, TeamRows, Accept, DetectConflict,
         Strip, Audited, Carries, ParseOperation, InTurn, MayEdit;
    if Admissible(db, m, principal, tick.now) && InTurn(db, m) {
      var p := Normalized(m, tick.now).value;
      CarriedFields(p, m, tick.now);
      AcceptDoes(db, p, principal, db.replicas[(db.projects[m.projectId].team, m.deviceId)], tick);
      DetectDoes(db, p, principal, tick);
    }
  }

  /** A stale push adds one open conflict row and one audit row, and touches nothing else. */
  lemma StalePushOnlyRecords(db: Database, m: SyncMutation, principal: Id, tick: Tick)
    requires ApplyMutation(db, m, principal, tick).result == Failure(Conflict(tick.freshId))
    ensures var after := ApplyMutation(db, m, principal, tick).db;
            && tick.freshId !in db.conflicts && tick.freshId in after.conflicts
            && after.conflicts[tick.freshId].resolution == None
            && after.conflicts[tick.freshId].clientBase != after.conflicts[tick.freshId].serverRevision
            && |after.audit| == |db.audit| + 1
            && after
               == db.(conflicts := db.conflicts[tick.freshId := after.conflicts[tick.freshId]], audit := after.audit)
  {
    hide ApplyMutation, Admissible, InTurn, Accepted, Strip, Carries;
    PushIff(db, m, principal, tick);
    var after := ApplyMutation(db, m, principal, tick).db;
    assert after.conflicts == db.conflicts[tick.freshId := after.conflicts[tick.freshId]];
  }

  lemma WrittenSnapshot(state: map<(Id, string), StateRow>, after: map<(Id, string), StateRow>, project: Id,
                        key: string)
    requires SameBut(state, after, (project, key)) && (project, key) in after
    requires after[(project, key)].value.Some? <==> !after[(project, key)].tombstone
    ensures var row := after[(project, key)];
            var was, now := SnapshotOf(state, project), SnapshotOf(after, project);
            && now.revisions == was.revisions[key := row.revision]
            && now.values == if row.tombstone then was.values - {key} else was.values[key := row.value.value]
  {
    var row := after[(project, key)];
    var was := SnapshotOf(state, project);
    SnapshotContents(state, project);
    hide SnapshotOf;
    SnapshotIsPointwise(after, project,
                        if row.tombstone then was.values - {key} else was.values[key := row.value.value],
                        was.revisions[key := row.revision]);
  }

  lemma SameSnapshot(state: map<(Id, string), StateRow>, after: map<(Id, string), StateRow>, project: Id, key: string,
                     other: Id)
    requires SameBut(state, after, (project, key)) && other != project
    ensures SnapshotOf(after, other) == SnapshotOf(state, other)
  {
    var was := SnapshotOf(state, other);
    SnapshotContents(state, other);
    hide SnapshotOf;
    SnapshotIsPointwise(after, other, was.values, was.revisions);
  }

  /** Whoever reads the project next sees an accepted write, and every other key as before. */
  lemma ReadYourWrites(db: Database, m: SyncMutation, principal: Id, tick: Tick)
    requires var r := ApplyMutation(db, m, principal, tick); r.result.Success? && !r.result.value.receipt.idempotent
    ensures var after := ApplyMutation(db, m, principal, tick).db;
            var was, now := SnapshotOf(db.state, m.projectId), SnapshotOf(after.state, m.projectId);
            var key := Strip(m.key);
            && now.revisions == was.revisions[key := m.baseRevision + 1]
            && (now.values == if IsSet(m) then was.values[key := m.value] else was.values - {key})
            && forall other | other != m.projectId :: SnapshotOf(after.state, other) == SnapshotOf(db.state, other)
  {
    PushIff(db, m, principal, tick);
    hide ApplyMutation, Strip, InTurn, Logs, Audited, ParseOperation, SnapshotOf;
    var after := ApplyMutation(db, m, principal, tick).db;
    WrittenSnapshot(db.state, after.state, m.projectId, Strip(m.key));
    forall other | other != m.projectId ensures SnapshotOf(after.state, other) == SnapshotOf(db.state, other) {
      SameSnapshot(db.state, after.state, m.projectId, Strip(m.key), other);
    }
  }

  /**
   An open conflict is resolved exactly by a push on its project and key that succeeds, followed by a
   closing transaction that goes through; the push stays even when that does not.
   */
  lemma ResolutionIff(db: Database, conflict: Id, m: SyncMutation, principal: Id, tick: Tick, closing: Tick)
    ensures var r := ResolveConflict(db, conflict, m, principal, tick, closing);
            var pushed := ApplyMutation(db, m, principal, tick);
            var targeted := conflict in db.conflicts && db.conflicts[conflict].resolution.None?
                            && m.projectId == db.conflicts[conflict].project && m.key == db.conflicts[conflict].key;
            && (r.result.Success? <==> targeted && pushed.result.Success? && NewEvent(pushed.db, closing))
            && (if r.result.Success? then
                  && r.result.value == pushed.result.value
                  && r.db == pushed.db.(conflicts := r.db.conflicts, audit := r.db.audit)
                  && SameBut(db.conflicts, r.db.conflicts, conflict) && conflict in r.db.conflicts
                  && r.db.conflicts[conflict]
                     == db.conflicts[conflict].(resolution := Some(Resolution(closing.now,
                                                                              r.result.value.receipt.hash)))
                  && m.projectId in db.projects
                  && Audited(pushed.db, r.db, db.projects[m.projectId].team, principal,
                             ConflictResolved(conflict, r.result.value.receipt.hash), closing)
                else if targeted then
                  r.db == pushed.db
                  && r.result == if pushed.result.Failure? then pushed.result else Failure(Storage)
                else r == Refuse(db, if conflict !in db.conflicts then NotFound
                                     else if db.conflicts[conflict].resolution.Some? then Conflict(conflict)
                                     else Integrity))
  {
    hide ApplyMutation, CloseConflict;
    var pushed := ApplyMutation(db, m, principal, tick);
    if conflict in db.conflicts && m.projectId == db.conflicts[conflict].project && pushed.result.Success? {
      PushKeepsConflicts(db, m, principal, tick);
      CloseDoes(pushed.db, conflict, db.conflicts[conflict], pushed.result.value.receipt, principal, closing);
    }
    hide Audited, NewEvent, Grown;
  }

  lemma PushKeepsConflicts(db: Database, m: SyncMutation, principal: Id, tick: Tick)
    requires ApplyMutation(db, m, principal, tick).result.Success?
    ensures ApplyMutation(db, m, principal, tick).db.conflicts == db.conflicts
    ensures ApplyMutation(db, m, principal, tick).db.projects == db.projects
  {
    hide Normalized, Admit, FindMutation, Grown, GrownQuietly, EventIdUsed, NextAuditRow, TeamRows, EventOf;
  }

  lemma CloseDoes(db: Database, conflict: Id, row: ConflictRow, receipt: PushReceipt, principal: Id, tick: Tick)
    requires row.project in db.projects
    ensures var r := CloseConflict(db, conflict, row, receipt, principal, tick);
            && (r.result.Success? <==> NewEvent(db, tick))
            && (if r.result.Success? then
                  && r.result.value == Pushed(receipt)
                  && r.db == db.(conflicts := r.db.conflicts, audit := r.db.audit)
                  && r.db.conflicts
                     == db.conflicts[conflict := row.(resolution := Some(Resolution(tick.now, receipt.hash)))]
                  && Audited(db, r.db, db.projects[row.project].team, principal,
                             ConflictResolved(conflict, receipt.hash), tick)
                else r == Refuse(db, Storage))
  {
    EventIdNew(db, tick);
    hide NewEvent, Grown, GrownQuietly, SyncTablesKept, EventIdUsed, TeamRows;
  }
}
