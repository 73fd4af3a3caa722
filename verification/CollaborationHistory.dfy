/**
 What synchronization guarantees of every run, read off the invariants of CollaborationSync:
 revision histories without gaps or collisions, device chains, honest conflicts, safe redelivery.
 */
module CollaborationHistory {
  import opened Prelude
  import opened SyncMutations
  import opened CollaborationTables
  import opened CollaborationRights
  import opened CollaborationCalls
  import opened CollaborationSync

  // ---------- the history of one key ----------

  function EventsOn(events: seq<SyncEvent>, project: Id, key: string): seq<SyncEvent> {
    if events == [] then []
    else
      var earlier := EventsOn(events[..|events| - 1], project, key);
      var e := events[|events| - 1];
      if e.project == project && e.key == key then earlier + [e] else earlier
  }

  lemma PrefixFits(events: seq<SyncEvent>, n: nat)
    requires LogFits(events) && n <= |events|
    ensures LogFits(events[..n])
  {
    hide Fits;
    var shorter := events[..n];
    forall i | 0 <= i < |shorter| ensures Fits(shorter[..i], shorter[i]) {
      assert shorter[..i] == events[..i];
    }
  }

  /** The events of a key are numbered without gaps, and its state row is the last of them. */
  ghost predicate KeyHistory(own: seq<SyncEvent>, state: map<(Id, string), StateRow>, k: (Id, string)) {
    && (forall i | 0 <= i < |own| :: own[i].baseRevision == i && own[i].resultingRevision == i + 1)
    && (k in state <==> own != [])
    && (own != [] ==> state[k] == RowOf(own[|own| - 1]))
  }

  lemma KeyHistoryGrows(own: seq<SyncEvent>, state: map<(Id, string), StateRow>, e: SyncEvent)
    requires KeyHistory(own, state, (e.project, e.key))
    requires e.baseRevision == ServerRevision(state, e.project, e.key) && e.resultingRevision == e.baseRevision + 1
    ensures KeyHistory(own + [e], state[(e.project, e.key) := RowOf(e)], (e.project, e.key))
  {
  }

  lemma {:induction false} LogKeyHistory(events: seq<SyncEvent>, project: Id, key: string)
    requires LogFits(events)
    ensures KeyHistory(EventsOn(events, project, key), ReplayState(events), (project, key))
  {
    hide FindMutation, PayloadOf, ServerRevision, RowOf;
    if events != [] {
      var n := |events| - 1;
      PrefixFits(events, n);
      LogKeyHistory(events[..n], project, key);
      assert Fits(events[..n], events[n]);
      hide LogFits;
      if (events[n].project, events[n].key) == (project, key) {
        hide KeyHistory;
        KeyHistoryGrows(EventsOn(events[..n], project, key), ReplayState(events[..n]), events[n]);
      }
    }
  }

  /**
   In every reachable state the events accepted on a key have base and resulting revisions
   0/1, 1/2, ..., n-1/n, and the state row is exactly the last of them, at revision n.
   */
  lemma RunKeyHistory(calls: seq<Timed>, project: Id, key: string)
    ensures var db := Run(EMPTY, calls);
            var own := EventsOn(db.events, project, key);
            && (forall i | 0 <= i < |own| :: own[i].baseRevision == i && own[i].resultingRevision == i + 1)
            && ((project, key) in db.state <==> own != [])
            && (own != [] ==>
                  db.state[(project, key)] == RowOf(own[|own| - 1]) && db.state[(project, key)].revision == |own|)
  {
    hide Run, LogFits, ReplicasChained, Mirrored, ConflictsFit, EventsOn;
    RunSynced(calls);
    LogKeyHistory(Run(EMPTY, calls).events, project, key);
  }

  lemma {:induction false} RevisionsGrow(events: seq<SyncEvent>, i: nat, n: nat, project: Id, key: string)
    requires LogFits(events) && i <= n <= |events|
    ensures ServerRevision(ReplayState(events[..i]), project, key)
            <= ServerRevision(ReplayState(events[..n]), project, key)
    decreases n
  {
    hide LogFits, ReplayState, ServerRevision;
    if i < n {
      RevisionsGrow(events, i, n - 1, project, key);
      RevisionStep(events, n, project, key);
    }
  }

  lemma RevisionStep(events: seq<SyncEvent>, n: nat, project: Id, key: string)
    requires LogFits(events) && 0 < n <= |events|
    ensures ServerRevision(ReplayState(events[..n - 1]), project, key)
            <= ServerRevision(ReplayState(events[..n]), project, key)
  {
    assert events[..n][..n - 1] == events[..n - 1];
    assert Fits(events[..n - 1], events[n - 1]);
    hide LogFits, FindMutation, PayloadOf;
  }

  lemma RevisionAfter(events: seq<SyncEvent>, i: nat)
    requires i < |events|
    ensures ServerRevision(ReplayState(events[..i + 1]), events[i].project, events[i].key)
            == events[i].resultingRevision
  {
    assert events[..i + 1][..i] == events[..i];
  }

  lemma LaterBuildsOnEarlier(events: seq<SyncEvent>, i: nat, j: nat)
    requires LogFits(events) && i < j < |events| && events[i].project == events[j].project
             && events[i].key == events[j].key
    ensures events[i].baseRevision < events[i].resultingRevision <= events[j].baseRevision
  {
    hide FindMutation, PayloadOf, ReplayState, ServerRevision;
    assert Fits(events[..i], events[i]) && Fits(events[..j], events[j]);
    hide LogFits;
    RevisionAfter(events, i);
    RevisionsGrow(events, i + 1, j, events[i].project, events[i].key);
  }

  /**
   No lost update: of two events accepted on one key, the later was based on a revision at least as
   new as the earlier produced.
   */
  lemma NoLostUpdate(calls: seq<Timed>, i: nat, j: nat)
    requires var events := Run(EMPTY, calls).events;
             i < j < |events| && events[i].project == events[j].project && events[i].key == events[j].key
    ensures var events := Run(EMPTY, calls).events;
            events[i].baseRevision < events[i].resultingRevision <= events[j].baseRevision
  {
    hide Run, LogFits, ReplicasChained, Mirrored, ConflictsFit;
    RunSynced(calls);
    LaterBuildsOnEarlier(Run(EMPTY, calls).events, i, j);
  }

  // ---------- devices ----------

  lemma {:induction false} ChainIsAudited(rows: seq<AuditRow>, device: Id, hash: HashText)
    requires hash in SinceRegistration(rows, device)
    ensures exists b :: b in AcceptedIn(rows) && b.MutationAccepted? && b.device == device && b.hash == hash
  {
    var last := rows[|rows| - 1].core.body;
    var earlier := SinceRegistration(rows[..|rows| - 1], device);
    if last.MutationAccepted? && last.device == device && last.hash == hash {
      assert last in AcceptedIn(rows);
    } else {
      assert hash in earlier;
      ChainIsAudited(rows[..|rows| - 1], device, hash);
      var b :| b in AcceptedIn(rows[..|rows| - 1]) && b.MutationAccepted? && b.device == device && b.hash == hash;
      assert b in AcceptedIn(rows);
    }
  }

  lemma {:induction false} BodyHasEvent(events: seq<SyncEvent>, team: Id, body: AuditBody)
    requires body in BodiesOf(events, team)
    ensures exists i :: 0 <= i < |events| && events[i].team == team && AcceptedBody(events[i]) == body
  {
    var n := |events| - 1;
    if events[n].team == team && AcceptedBody(events[n]) == body {
    } else {
      BodyHasEvent(events[..n], team, body);
      var i :| 0 <= i < n && events[..n][i].team == team && AcceptedBody(events[..n][i]) == body;
      assert events[i] == events[..n][i];
    }
  }

  /**
   In every reachable state, what a registered device has had accepted since its current
   registration, over all projects of the team, is one chain: sequences 1 to `lastSequence`, each
   event naming its predecessor's hash, `lastHash` at the head, and every link in the event log.
   */
  lemma RunDeviceChain(calls: seq<Timed>, team: Id, device: Id)
    requires (team, device) in Run(EMPTY, calls).replicas
    ensures var db := Run(EMPTY, calls);
            var hashes := SinceRegistration(TeamRows(db.audit, team), device);
            && DeviceChain(hashes)
            && db.replicas[(team, device)].lastSequence == |hashes|
            && db.replicas[(team, device)].lastHash == LastOf(hashes)
            && forall h | h in hashes :: exists i ::
                 0 <= i < |db.events| && db.events[i].hash == h && db.events[i].team == team
                 && db.events[i].device == device
  {
    hide Run, LogFits, ConflictsFit, DeviceChain, TeamRows, SinceRegistration, AcceptedIn, BodiesOf, ReplayState;
    RunSynced(calls);
    var db := Run(EMPTY, calls);
    var hashes := SinceRegistration(TeamRows(db.audit, team), device);
    assert ReplicaChained(db.replicas[(team, device)], hashes);
    forall h | h in hashes
      ensures exists i :: 0 <= i < |db.events| && db.events[i].hash == h && db.events[i].team == team
                          && db.events[i].device == device
    {
      ChainIsAudited(TeamRows(db.audit, team), device, h);
      var b :| b in AcceptedIn(TeamRows(db.audit, team)) && b.MutationAccepted? && b.device == device && b.hash == h;
      assert AcceptedIn(TeamRows(db.audit, team)) == BodiesOf(db.events, team);
      BodyHasEvent(db.events, team, b);
    }
  }

  /**
   In every reachable state a team's "mutation accepted" audit entries are exactly its events, in
   order, field by field.
   */
  lemma RunMirrored(calls: seq<Timed>, team: Id)
    ensures AcceptedIn(TeamRows(Run(EMPTY, calls).audit, team)) == BodiesOf(Run(EMPTY, calls).events, team)
  {
    hide Run, LogFits, ReplicasChained, ConflictsFit, AcceptedIn, BodiesOf, ReplayState;
    RunSynced(calls);
  }

  // ---------- conflicts ----------

  ghost predicate ConflictStep(before: ConflictRow, after: ConflictRow, events: seq<SyncEvent>) {
    || after == before
    || (&& before.resolution == None && after.resolution.Some?
        && after == before.(resolution := after.resolution)
        && AcceptedOn(events, before.project, before.key, after.resolution.value.hash))
  }

  lemma PushKeepsConflicts(db: Database, m: SyncMutation, principal: Id, tick: Tick, id: Id)
    requires id in db.conflicts
    ensures var after := ApplyMutation(db, m, principal, tick).db;
            id in after.conflicts && after.conflicts[id] == db.conflicts[id]
  {
    hide Grown, GrownQuietly, EventIdUsed, NextAuditRow, Normalized, RequireAccess, FindMutation, ServerHash,
         ServerRevision, Truthy, EventOf, RowOf;
  }

  lemma ClosingRows(db: Database, conflict: Id, row: ConflictRow, receipt: PushReceipt, principal: Id, tick: Tick)
    requires row.project in db.projects
    ensures var after := CloseConflict(db, conflict, row, receipt, principal, tick).db;
            && after.events == db.events
            && (|| after.conflicts == db.conflicts
                || after.conflicts
                   == db.conflicts[conflict := row.(resolution := Some(Resolution(tick.now, receipt.hash)))])
  {
    hide Grown, GrownQuietly, EventIdUsed, NextAuditRow;
  }

  lemma ResolutionStep(db: Database, conflict: Id, m: SyncMutation, principal: Id, tick: Tick, closing: Tick, id: Id)
    requires Synced(db) && id in db.conflicts
    ensures var after := ResolveConflict(db, conflict, m, principal, tick, closing).db;
            id in after.conflicts && ConflictStep(db.conflicts[id], after.conflicts[id], after.events)
  {
    hide Synced, Grown, GrownQuietly, ApplyMutation, CloseConflict, AcceptedOn, Strip;
    var pushed := ApplyMutation(db, m, principal, tick);
    PushKeepsConflicts(db, m, principal, tick, id);
    if conflict in db.conflicts && pushed.result.Success? {
      var row := db.conflicts[conflict];
      PushedIsAccepted(db, m, principal, tick);
      KeyIsStripped(db, conflict);
      if row.project == m.projectId {
        ClosingRows(pushed.db, conflict, row, pushed.result.value.receipt, principal, closing);
      }
    }
  }

  lemma OneStep(db: Database, c: Timed, id: Id)
    requires Synced(db) && id in db.conflicts
    ensures var after := Perform(db, c).db;
            id in after.conflicts && ConflictStep(db.conflicts[id], after.conflicts[id], after.events)
  {
    hide Synced, Grown, GrownQuietly, AcceptedOn, CreateTeam, SetMemberRole, RemoveMember, CreateInvitation,
         AcceptInvitation, RevokeInvitation, CreateProject, GrantProjectAccess, RevokeProjectAccess, IssueAccessToken,
         RevokeAccessToken, RegisterReplica, ApplyMutation, ResolveConflict;
    match c.call
    case CallApplyMutation(mutation, principal) => PushKeepsConflicts(db, mutation, principal, c.tick, id);
    case CallResolveConflict(conflict, mutation, principal, closing) =>
      ResolutionStep(db, conflict, mutation, principal, c.tick, closing, id);
    case CallRemoveMember(team, principal, actor) =>
    case CallRegisterReplica(team, principal, device, caption) =>
    case _ =>
      hide Perform;
      QuietPerform(db, c);
  }

  /** Two steps of a conflict make one: a resolution stays, and the event it names stays in the log. */
  lemma StepsCompose(a: ConflictRow, b: ConflictRow, c: ConflictRow, events: seq<SyncEvent>, more: seq<SyncEvent>)
    requires ConflictStep(a, b, events) && ConflictStep(b, c, more) && events <= more
    ensures ConflictStep(a, c, more)
  {
    if b != a && AcceptedOn(events, a.project, a.key, b.resolution.value.hash) {
      StillAccepted(events, more, a.project, a.key, b.resolution.value.hash);
    }
    hide AcceptedOn;
  }

  lemma StillAccepted(events: seq<SyncEvent>, more: seq<SyncEvent>, project: Id, key: string, hash: HashText)
    requires AcceptedOn(events, project, key, hash) && events <= more
    ensures AcceptedOn(more, project, key, hash)
  {
    var i :| 0 <= i < |events| && events[i].project == project && events[i].key == key && events[i].hash == hash;
    assert more[i] == events[i];
  }

  /**
   Whatever run of calls follows, a recorded conflict stays on record: it keeps its row, or leaves
   "open" once and for good, and only with the hash of an event accepted on its own project and key.
   */
  lemma {:induction false} ConflictsAreResolvedOnce(calls: seq<Timed>, more: seq<Timed>, id: Id)
    requires id in Run(EMPTY, calls).conflicts
    ensures var db := Run(EMPTY, calls);
            var after := Run(db, more);
            id in after.conflicts && ConflictStep(db.conflicts[id], after.conflicts[id], after.events)
    decreases |more|
  {
    hide Perform, Synced, AcceptedOn;
    if more != [] {
      var db := Run(EMPTY, calls);
      var n := |more| - 1;
      var mid := Run(db, more[..n]);
      ConflictsAreResolvedOnce(calls, more[..n], id);
      RunSynced(calls);
      RunKeepsSynced(db, more[..n]);
      OneStep(mid, more[n], id);
      PerformAppends(mid, more[n]);
      var after := Run(db, more);
      hide ConflictStep;
      StepsCompose(db.conflicts[id], mid.conflicts[id], after.conflicts[id], mid.events, after.events);
    }
  }

  // ---------- redelivery ----------

  /** A push whose mutation id is already in the log. */
  predicate IsRedelivery(db: Database, c: Timed) {
    c.call.CallApplyMutation? && FindMutation(db.events, c.call.mutation.mutationId).Some?
  }

  lemma RedeliveryChangesNothing(db: Database, c: Timed)
    requires IsRedelivery(db, c)
    ensures Perform(db, c).db == db
  {
    hide DetectConflict, Accept, FindMutation, RequireAccess, ParseOperation, ValidIdentifier, SafeKey, Strip,
         ServerRevision, Truthy, CreateTeam, SetMemberRole, RemoveMember, CreateInvitation, AcceptInvitation,
         RevokeInvitation, CreateProject, GrantProjectAccess, RevokeProjectAccess, IssueAccessToken, RevokeAccessToken,
         RegisterReplica, ResolveConflict;
  }

  function WithoutRedeliveries(db: Database, calls: seq<Timed>): seq<Timed> {
    if calls == [] then []
    else
      var earlier := calls[..|calls| - 1];
      var last := calls[|calls| - 1];
      WithoutRedeliveries(db, earlier) + (if IsRedelivery(Run(db, earlier), last) then [] else [last])
  }

  /** Striking every redelivery from a run, however often and whenever they came, ends in the same tables. */
  lemma {:induction false} RedeliveriesDoNotMatter(db: Database, calls: seq<Timed>)
    ensures Run(db, WithoutRedeliveries(db, calls)) == Run(db, calls)
  {
    hide Perform, IsRedelivery;
    if calls != [] {
      var earlier := calls[..|calls| - 1];
      var last := calls[|calls| - 1];
      RedeliveriesDoNotMatter(db, earlier);
      var kept := WithoutRedeliveries(db, earlier);
      if IsRedelivery(Run(db, earlier), last) {
        RedeliveryChangesNothing(Run(db, earlier), last);
        assert kept + [] == kept;
      } else {
        assert (kept + [last])[..|kept|] == kept;
      }
    }
  }

  lemma {:induction false} FoundAgain(events: seq<SyncEvent>, i: nat)
    requires LogFits(events) && i < |events|
    ensures FindMutation(events, events[i].mutationId) == Some(events[i])
    decreases |events|
  {
    var n := |events| - 1;
    if i < n {
      assert Fits(events[..n], events[n]);
      PrefixFits(events, n);
      FoundAgain(events[..n], i);
      hide LogFits, PayloadOf, ReplayState;
      assert events[..n][i] == events[i];
    }
  }

  lemma PushAppends(db: Database, m: SyncMutation, principal: Id, tick: Tick)
    ensures db.events <= ApplyMutation(db, m, principal, tick).db.events
  {
    hide Grown, GrownQuietly, Normalized, RequireAccess, FindMutation, EventIdUsed, NextAuditRow, ServerRevision,
         ServerHash, Truthy;
  }

  lemma ResolutionAppends(db: Database, conflict: Id, m: SyncMutation, principal: Id, tick: Tick, closing: Tick)
    ensures db.events <= ResolveConflict(db, conflict, m, principal, tick, closing).db.events
  {
    hide Grown, GrownQuietly, ApplyMutation, CloseConflict;
    PushAppends(db, m, principal, tick);
  }

  lemma PerformAppends(db: Database, c: Timed)
    ensures db.events <= Perform(db, c).db.events
  {
    hide Grown, GrownQuietly, CreateTeam, SetMemberRole, RemoveMember, CreateInvitation, AcceptInvitation,
         RevokeInvitation, CreateProject, GrantProjectAccess, RevokeProjectAccess, IssueAccessToken, RevokeAccessToken,
         RegisterReplica, ApplyMutation, ResolveConflict;
    match c.call
    case CallApplyMutation(mutation, principal) => PushAppends(db, mutation, principal, c.tick);
    case CallResolveConflict(conflict, mutation, principal, closing) =>
      ResolutionAppends(db, conflict, mutation, principal, c.tick, closing);
    case CallRemoveMember(team, principal, actor) =>
    case CallRegisterReplica(team, principal, device, caption) =>
    case _ =>
      hide Perform;
      QuietPerform(db, c);
  }

  /** The event log is append-only over any run. */
  lemma {:induction false} EventsAreAppendOnly(db: Database, calls: seq<Timed>)
    ensures db.events <= Run(db, calls).events
  {
    hide Perform;
    if calls != [] {
      EventsAreAppendOnly(db, calls[..|calls| - 1]);
      PerformAppends(Run(db, calls[..|calls| - 1]), calls[|calls| - 1]);
    }
  }

  // ---------- who may push ----------

  /** The pusher runs the team or holds an edit or manage share, and the device is the pusher's own. */
  predicate MayPush(db: Database, e: SyncEvent) {
    && e.project in db.projects && db.projects[e.project].team == e.team
    && MayEdit(db, e.project, e.principal) && OwnsDevice(db, e.project, e.device, e.principal)
  }

  ghost predicate OneAuthorised(db: Database, after: Database, principal: Id) {
    && |after.events| == |db.events| + 1
    && after.events[|db.events|].principal == principal && MayPush(db, after.events[|db.events|])
  }

  lemma AdmittedMayPush(db: Database, p: Payload, principal: Id)
    requires Admit(db, p, principal).Success?
    ensures p.projectId in db.projects && MayPush(db, EventOf(db, p, principal))
  {
    hide ServerRevision;
  }

  lemma PushAuthorised(db: Database, m: SyncMutation, principal: Id, tick: Tick)
    requires ApplyMutation(db, m, principal, tick).db.events != db.events
    ensures OneAuthorised(db, ApplyMutation(db, m, principal, tick).db, principal)
  {
    hide Grown, GrownQuietly, SyncTablesKept, Normalized, FindMutation, Admit, Accept, DetectConflict, ServerRevision,
         Truthy, MayPush, NextAuditRow;
    var p := Normalized(m, tick.now).value;
    AdmittedMayPush(db, p, principal);
    AcceptCommits(db, p, principal, Admit(db, p, principal).value, tick);
  }

  lemma ResolutionAuthorised(db: Database, conflict: Id, m: SyncMutation, principal: Id, tick: Tick, closing: Tick)
    requires ResolveConflict(db, conflict, m, principal, tick, closing).db.events != db.events
    ensures OneAuthorised(db, ResolveConflict(db, conflict, m, principal, tick, closing).db, principal)
  {
    hide Grown, GrownQuietly, ApplyMutation, CloseConflict, MayPush;
    PushAuthorised(db, m, principal, tick);
  }

  /**
   The log grows only by a push or a resolution, by one event at a time, and only for a caller with
   the right to it at that moment.
   */
  lemma AcceptedMeansAuthorised(db: Database, c: Timed)
    requires Perform(db, c).db.events != db.events
    ensures c.call.CallApplyMutation? || c.call.CallResolveConflict?
    ensures OneAuthorised(db, Perform(db, c).db, c.call.principal)
  {
    hide Grown, GrownQuietly, OneAuthorised, CreateTeam, SetMemberRole, RemoveMember, CreateInvitation,
         AcceptInvitation, RevokeInvitation, CreateProject, GrantProjectAccess, RevokeProjectAccess, IssueAccessToken,
         RevokeAccessToken, RegisterReplica, ApplyMutation, ResolveConflict;
    match c.call
    case CallApplyMutation(mutation, principal) => PushAuthorised(db, mutation, principal, c.tick);
    case CallResolveConflict(conflict, mutation, principal, closing) =>
      ResolutionAuthorised(db, conflict, mutation, principal, c.tick, closing);
    case CallRemoveMember(team, principal, actor) =>
    case CallRegisterReplica(team, principal, device, caption) =>
    case _ =>
      hide Perform;
      QuietPerform(db, c);
  }

  /**
   Call `n` of the run is the one that accepted event `i`, and its caller had the right to it in
   the state that call found.
   */
  ghost predicate AcceptedAt(calls: seq<Timed>, n: nat, i: nat)
    requires n < |calls|
  {
    hide Perform, MayPush;
    var before := Run(EMPTY, calls[..n]);
    var after := Perform(before, calls[n]).db;
    && |before.events| == i && |after.events| == i + 1
    && (calls[n].call.CallApplyMutation? || calls[n].call.CallResolveConflict?)
    && after.events[i].principal == calls[n].call.principal && MayPush(before, after.events[i])
    && after.events <= Run(EMPTY, calls).events
  }

  lemma AcceptedStays(calls: seq<Timed>, n: nat, i: nat)
    requires calls != [] && n < |calls| - 1 && AcceptedAt(calls[..|calls| - 1], n, i)
    requires Run(EMPTY, calls[..|calls| - 1]).events <= Run(EMPTY, calls).events
    ensures AcceptedAt(calls, n, i)
  {
    hide Run, Perform, MayPush;
    assert calls[..|calls| - 1][..n] == calls[..n];
  }

  /**
   Every event in a reachable log was accepted by one call of the run, whose caller had the right to
   push it in the very state in which it was accepted.
   */
  lemma {:induction false} EveryEventWasAuthorised(calls: seq<Timed>, i: nat)
    requires i < |Run(EMPTY, calls).events|
    ensures exists n: nat :: n < |calls| && AcceptedAt(calls, n, i)
  {
    hide Perform, MayPush, AcceptedAt;
    if calls != [] {
      var n := |calls| - 1;
      var before := Run(EMPTY, calls[..n]);
      PerformAppends(before, calls[n]);
      if i < |before.events| {
        EveryEventWasAuthorised(calls[..n], i);
        var k: nat :| k < n && AcceptedAt(calls[..n], k, i);
        AcceptedStays(calls, k, i);
      } else {
        AcceptedMeansAuthorised(before, calls[n]);
        AcceptedLast(calls, i);
      }
    }
  }

  lemma AcceptedLast(calls: seq<Timed>, i: nat)
    requires calls != [] && |Run(EMPTY, calls[..|calls| - 1]).events| == i
    requires var c := calls[|calls| - 1];
             && (c.call.CallApplyMutation? || c.call.CallResolveConflict?)
             && OneAuthorised(Run(EMPTY, calls[..|calls| - 1]), Perform(Run(EMPTY, calls[..|calls| - 1]), c).db,
                              c.call.principal)
    ensures AcceptedAt(calls, |calls| - 1, i)
  {
    hide Perform, MayPush;
  }

  // ---------- receipts ----------

  ghost predicate Names(receipt: PushReceipt, events: seq<SyncEvent>, p: Payload) {
    && 1 <= receipt.ordinal <= |events|
    && var e := events[receipt.ordinal - 1];
       e.mutationId == p.mutationId && e.hash == receipt.hash == Sha(p)
       && e.ordinal == receipt.ordinal && e.resultingRevision == receipt.resultingRevision
  }

  lemma KnownReceipt(events: seq<SyncEvent>, existing: SyncEvent, p: Payload)
    requires LogFits(events) && FindMutation(events, p.mutationId) == Some(existing) && existing.hash == Sha(p)
    ensures Names(PushReceipt(true, existing.ordinal, existing.resultingRevision, existing.hash), events, p)
  {
    hide PayloadOf, ServerRevision, ReplayState;
    var i :| 0 <= i < |events| && events[i] == existing;
    assert Fits(events[..i], events[i]);
  }

  lemma NewReceipt(db: Database, p: Payload, principal: Id, replica: ReplicaRow, tick: Tick)
    requires p.projectId in db.projects && Accept(db, p, principal, replica, tick).result.Success?
    ensures var r := Accept(db, p, principal, replica, tick);
            r.result.value.Pushed? && Names(r.result.value.receipt, r.db.events, p)
  {
    hide Grown, GrownQuietly, SyncTablesKept, EventIdUsed, NextAuditRow, TeamRows, RowOf, AcceptedBody, ServerRevision;
  }

  /** A receipt points at the event in the log that carries the pushed payload. */
  lemma ReceiptNamesEvent(db: Database, p: Payload, principal: Id, tick: Tick)
    requires LogFits(db.events) && ApplyPayload(db, p, principal, tick).result.Success?
    ensures var r := ApplyPayload(db, p, principal, tick); Names(r.result.value.receipt, r.db.events, p)
  {
    hide LogFits, Names, FindMutation, Grown, GrownQuietly, Accept, DetectConflict, Truthy, ServerRevision;
    match FindMutation(db.events, p.mutationId)
    case Some(existing) => KnownReceipt(db.events, existing, p);
    case None => NewReceipt(db, p, principal, Admit(db, p, principal).value, tick);
  }

  lemma SecondNormalization(m: SyncMutation, now: int, later: int)
    requires Normalized(m, now).Success?
    ensures Normalized(m, later) == Normalized(m, now) <==> Stamped(m) || later == now
    ensures Normalized(m, later).Success? ==> Normalized(m, later).value.mutationId == m.mutationId
    ensures Normalized(m, later).Success? ==>
              Normalized(m, now).value.(createdAt := Normalized(m, later).value.createdAt) == Normalized(m, later).value
  {
    if now != later {
      NormalizedIsStableIffStamped(m, now, later);
    }
  }

  lemma AdmissionIgnoresStamp(db: Database, p: Payload, q: Payload, principal: Id)
    requires p.(createdAt := q.createdAt) == q
    ensures Admit(db, p, principal) == Admit(db, q, principal)
  {
    hide RequireAccess;
  }

  lemma ReplayedPayload(db: Database, p: Payload, principal: Id, tick: Tick, e: SyncEvent)
    requires FindMutation(db.events, p.mutationId) == Some(e)
    ensures var r := ApplyPayload(db, p, principal, tick);
            && r.db == db
            && (r.result.Success? <==> Admit(db, p, principal).Success? && e.hash == Sha(p))
            && (r.result.Success? ==>
                  r.result.value.receipt == PushReceipt(true, e.ordinal, e.resultingRevision, e.hash))
  {
    hide Admit, FindMutation, DetectConflict, Accept;
  }

  /**
   A client that lost the answer to an accepted push may send the mutation again, after any other
   calls. Nothing changes, and it gets its original receipt exactly when it may still push there
   and the mutation carried its own timestamp (or the clock has not moved): an unstamped mutation
   is stamped anew, hashes differently, and its honest retry is refused as a reused id.
   */
  lemma RedeliveryIsAcknowledged(calls: seq<Timed>, m: SyncMutation, principal: Id, tick: Tick, more: seq<Timed>,
                                 later: Tick)
    requires ApplyMutation(Run(EMPTY, calls), m, principal, tick).result.Success?
    ensures Normalized(m, tick.now).Success?
    ensures var first := ApplyMutation(Run(EMPTY, calls), m, principal, tick);
            var db := Run(first.db, more);
            var again := ApplyMutation(db, m, principal, later);
            var receipt := first.result.value.receipt;
            && again.db == db
            && (again.result.Success? <==>
                  Admit(db, Normalized(m, tick.now).value, principal).Success? && (Stamped(m) || later.now == tick.now))
            && (again.result.Success? ==>
                  again.result.value
                  == Pushed(PushReceipt(true, receipt.ordinal, receipt.resultingRevision, receipt.hash)))
  {
    var start := Run(EMPTY, calls);
    var first := ApplyMutation(start, m, principal, tick);
    var p := Normalized(m, tick.now).value;
    var db := Run(first.db, more);
    RunSynced(calls);
    ApplyMutationSynced(start, m, principal, tick);
    RunKeepsSynced(first.db, more);
    EventsAreAppendOnly(first.db, more);
    hide Run, Normalized, ApplyPayload, Admit, LogFits, ReplicasChained, Mirrored, ConflictsFit, Grown, ReplayState,
         FindMutation;
    ReceiptNamesEvent(start, p, principal, tick);
    var i := first.result.value.receipt.ordinal - 1;
    FoundAgain(db.events, i);
    assert db.events[i] == first.db.events[i];
    SecondNormalization(m, tick.now, later.now);
    var q := Normalized(m, later.now);
    if q.Success? {
      AdmissionIgnoresStamp(db, p, q.value, principal);
      ReplayedPayload(db, q.value, principal, later, db.events[i]);
    }
  }
}
