/**
 A client that keeps its project up to date by pulling pages.

 The client starts at cursor 0 and asks for pages of any size while the store goes on serving
 any other calls. It sees every event of the project exactly once and in order, and when a pull
 comes back empty, what it has folded is what the store itself would answer.
 */
module CollaborationPull {
  import opened Prelude
  import opened SyncMutations
  import opened CollaborationTables
  import opened CollaborationRights
  import opened CollaborationCalls
  import opened CollaborationStores
  import opened CollaborationSync
  import opened CollaborationHistory

  /** The store and one client of it, between two turns. */
  datatype World = World(db: Database, cursor: int, received: seq<SyncEvent>)

  datatype Turn = Serve(call: Timed) | Pull(limit: int)

  /** One turn: the store serves some other call, or the client pulls a page; a refused pull gives it nothing. */
  function Next(w: World, turn: Turn, project: Id, principal: Id): World {
    match turn
    case Serve(call) => w.(db := Perform(w.db, call).db)
    case Pull(limit) =>
      if RequireAccess(w.db, project, principal, View).Failure? || w.cursor < 0 || !(1 <= limit <= 5000) then w
      else
        var page := PageOf(w.db.events, project, w.cursor, limit);
        w.(cursor := page.nextCursor, received := w.received + page.events)
  }

  function Session(turns: seq<Turn>, project: Id, principal: Id): World {
    if turns == [] then World(EMPTY, 0, [])
    else Next(Session(turns[..|turns| - 1], project, principal), turns[|turns| - 1], project, principal)
  }

  /** All events of a project. */
  function ProjectLog(events: seq<SyncEvent>, project: Id): seq<SyncEvent> {
    if events == [] then []
    else
      var earlier := ProjectLog(events[..|events| - 1], project);
      var e := events[|events| - 1];
      if e.project == project then earlier + [e] else earlier
  }

  ghost predicate Numbered(events: seq<SyncEvent>) {
    forall i | 0 <= i < |events| :: events[i].ordinal == i + 1
  }

  lemma LogIsNumbered(events: seq<SyncEvent>)
    requires LogFits(events)
    ensures Numbered(events)
  {
    forall i | 0 <= i < |events| ensures events[i].ordinal == i + 1 {
      assert Fits(events[..i], events[i]);
    }
  }

  lemma {:induction false} NothingBeyond(events: seq<SyncEvent>, project: Id, cursor: int)
    requires Numbered(events) && |events| <= cursor
    ensures EventsAfter(events, project, cursor) == []
  {
    if events != [] {
      NothingBeyond(events[..|events| - 1], project, cursor);
    }
  }

  /** What a longer log adds to the project, and what it adds past the cursor, are the same events. */
  lemma {:induction false} LogsGrowAlike(events: seq<SyncEvent>, longer: seq<SyncEvent>, project: Id, cursor: int)
    requires Numbered(longer) && events <= longer && cursor <= |events|
    ensures EventsAfter(longer, project, cursor)
            == EventsAfter(events, project, cursor) + EventsAfter(longer, project, |events|)
    ensures ProjectLog(longer, project) == ProjectLog(events, project) + EventsAfter(longer, project, |events|)
    decreases |longer|
  {
    if |longer| == |events| {
      NothingBeyond(longer, project, |events|);
      assert longer == events;
    } else {
      LogsGrowAlike(events, longer[..|longer| - 1], project, cursor);
    }
  }

  /** Moving the cursor to the last event of a page leaves exactly the rest of the unseen events. */
  lemma {:induction false} PageSplits(events: seq<SyncEvent>, project: Id, cursor: int, k: nat)
    requires Numbered(events) && 0 < k <= |EventsAfter(events, project, cursor)|
    ensures EventsAfter(events, project, EventsAfter(events, project, cursor)[k - 1].ordinal)
            == EventsAfter(events, project, cursor)[k..]
    ensures EventsAfter(events, project, cursor)[k - 1].ordinal <= |events|
    ensures EventsAfter(events, project, cursor)[k - 1].ordinal > cursor
    decreases |events|
  {
    var n := |events| - 1;
    var all := EventsAfter(events, project, cursor);
    var earlier := EventsAfter(events[..n], project, cursor);
    if k <= |earlier| {
      PageSplits(events[..n], project, cursor, k);
      assert all[k - 1] == earlier[k - 1];
    } else {
      assert all[k - 1] == events[n] && all[k..] == [];
      NothingBeyond(events, project, events[n].ordinal);
    }
  }

  /** What the client has and what it has not seen yet make up the project's log. */
  ghost predicate Following(w: World, project: Id) {
    && 0 <= w.cursor <= |w.db.events|
    && ProjectLog(w.db.events, project) == w.received + EventsAfter(w.db.events, project, w.cursor)
  }

  lemma ServeFollows(w: World, c: Timed, project: Id)
    requires Synced(w.db) && Following(w, project)
    ensures Following(w.(db := Perform(w.db, c).db), project)
  {
    hide Perform, Fits, ReplicasChained, Mirrored, ConflictsFit, ReplayState, EventsAfter, ProjectLog;
    PerformSynced(w.db, c);
    PerformAppends(w.db, c);
    var later := Perform(w.db, c).db.events;
    LogIsNumbered(later);
    LogsGrowAlike(w.db.events, later, project, w.cursor);
  }

  lemma PullFollows(w: World, limit: int, project: Id, principal: Id)
    requires Synced(w.db) && Following(w, project)
    ensures Following(Next(w, Pull(limit), project, principal), project)
  {
    hide RequireAccess, Perform, Fits, ReplicasChained, Mirrored, ConflictsFit, ReplayState, EventsAfter, ProjectLog;
    LogIsNumbered(w.db.events);
    var unseen := EventsAfter(w.db.events, project, w.cursor);
    if limit >= 1 && unseen != [] {
      var k := |Take(unseen, limit)|;
      PageSplits(w.db.events, project, w.cursor, k);
      assert unseen == unseen[..k] + unseen[k..];
      assert Take(unseen, limit) == unseen[..k];
    }
  }

  lemma {:induction false} SessionFollows(turns: seq<Turn>, project: Id, principal: Id)
    ensures Synced(Session(turns, project, principal).db) && Following(Session(turns, project, principal), project)
  {
    hide Perform, Synced, RequireAccess;
    if turns == [] {
      EmptySynced();
    } else {
      var before := turns[..|turns| - 1];
      SessionFollows(before, project, principal);
      var w := Session(before, project, principal);
      match turns[|turns| - 1]
      case Serve(call) =>
        ServeFollows(w, call, project);
        PerformSynced(w.db, call);
      case Pull(limit) => PullFollows(w, limit, project, principal);
    }
  }

  // ---------- what the client ends up with ----------

  /** The client's own view: the newest revision of every key, and the values of keys not deleted. */
  function FoldEvents(received: seq<SyncEvent>): Snapshot {
    if received == [] then Snapshot(map[], map[])
    else
      var earlier := FoldEvents(received[..|received| - 1]);
      var e := received[|received| - 1];
      Snapshot(if e.value.Some? then earlier.values[e.key := e.value.value] else earlier.values - {e.key},
               earlier.revisions[e.key := e.resultingRevision])
  }

  lemma SnapshotStep(state: map<(Id, string), StateRow>, project: Id, e: SyncEvent)
    requires e.operation == DeleteKey <==> e.value == None
    ensures var after := SnapshotOf(state[(e.project, e.key) := RowOf(e)], project);
            var before := SnapshotOf(state, project);
            after == if e.project != project then before
                     else Snapshot(if e.value.Some? then before.values[e.key := e.value.value]
                                   else before.values - {e.key},
                                   before.revisions[e.key := e.resultingRevision])
  {
    var next := state[(e.project, e.key) := RowOf(e)];
    var before := SnapshotOf(state, project);
    SnapshotContents(state, project);
    hide SnapshotOf;
    var values := if e.project != project then before.values
                  else if e.value.Some? then before.values[e.key := e.value.value] else before.values - {e.key};
    var revisions := if e.project != project then before.revisions else before.revisions[e.key := e.resultingRevision];
    SnapshotIsPointwise(next, project, values, revisions);
  }

  lemma {:induction false} FoldIsSnapshot(events: seq<SyncEvent>, project: Id)
    requires LogFits(events)
    ensures FoldEvents(ProjectLog(events, project)) == SnapshotOf(ReplayState(events), project)
  {
    if events != [] {
      var n := |events| - 1;
      assert events[n].operation == DeleteKey <==> events[n].value == None by {
        assert Fits(events[..n], events[n]);
      }
      hide SnapshotOf, LogFits, RowOf;
      PrefixFits(events, n);
      FoldIsSnapshot(events[..n], project);
      SnapshotStep(ReplayState(events[..n]), project, events[n]);
      var earlier := ProjectLog(events[..n], project);
      assert (earlier + [events[n]])[..|earlier|] == earlier;
    } else {
      SnapshotIsPointwise(map[], project, map[], map[]);
    }
  }

  lemma {:induction false} ProjectLogOrdered(events: seq<SyncEvent>, project: Id)
    requires Numbered(events)
    ensures forall i, j | 0 <= i < j < |ProjectLog(events, project)| ::
              ProjectLog(events, project)[i].ordinal < ProjectLog(events, project)[j].ordinal
    ensures forall e | e in ProjectLog(events, project) :: e.ordinal <= |events|
    ensures forall e :: e in ProjectLog(events, project) <==> e in events && e.project == project
  {
    if events != [] {
      ProjectLogOrdered(events[..|events| - 1], project);
    }
  }

  /**
   At any time in any session the events a client has received are an initial part of the
   project's events: in strictly increasing ordinal order, none twice and none skipped.
   */
  lemma ClientSeesEachEventOnce(turns: seq<Turn>, project: Id, principal: Id)
    ensures var w := Session(turns, project, principal);
            && w.received <= ProjectLog(w.db.events, project)
            && (forall i, j | 0 <= i < j < |w.received| :: w.received[i].ordinal < w.received[j].ordinal)
            && (forall e | e in w.db.events && e.project == project && e.ordinal <= w.cursor :: e in w.received)
  {
    hide Session, Fits, ReplicasChained, Mirrored, ConflictsFit, ReplayState, ProjectLog;
    SessionFollows(turns, project, principal);
    var w := Session(turns, project, principal);
    LogIsNumbered(w.db.events);
    ProjectLogOrdered(w.db.events, project);
    var seen := ProjectLog(w.db.events, project);
    forall i, j | 0 <= i < j < |w.received| ensures w.received[i].ordinal < w.received[j].ordinal {
      assert w.received[i] == seen[i] && w.received[j] == seen[j];
    }
    forall e | e in w.db.events && e.project == project && e.ordinal <= w.cursor ensures e in w.received {
      assert e in seen;
      AfterCursor(w.db.events, project, w.cursor);
    }
  }

  lemma {:induction false} AfterCursor(events: seq<SyncEvent>, project: Id, cursor: int)
    ensures forall e | e in EventsAfter(events, project, cursor) :: e.ordinal > cursor
  {
    if events != [] {
      AfterCursor(events[..|events| - 1], project, cursor);
    }
  }

  /**
   When a pull finds no more events, the client's fold of what it received is exactly the values
   and revisions `get_state` would return at that moment.
   */
  lemma CaughtUpClientAgrees(turns: seq<Turn>, project: Id, principal: Id, limit: int)
    requires 1 <= limit
    requires var w := Session(turns, project, principal);
             PageOf(w.db.events, project, w.cursor, limit).events == []
    ensures var w := Session(turns, project, principal);
            && w.received == ProjectLog(w.db.events, project)
            && FoldEvents(w.received) == SnapshotOf(w.db.state, project)
  {
    hide Session, LogFits, ReplicasChained, Mirrored, ConflictsFit, ReplayState, ProjectLog, EventsAfter, FoldEvents,
         SnapshotOf;
    SessionFollows(turns, project, principal);
    var w := Session(turns, project, principal);
    FoldIsSnapshot(w.db.events, project);
    assert w.received + [] == w.received;
  }

  // ---------- pages and progress ----------

  /** What a page selects from: exactly the project's events past the cursor. */
  lemma {:induction false} AfterCursorIs(events: seq<SyncEvent>, project: Id, cursor: int)
    ensures forall e :: e in EventsAfter(events, project, cursor)
                        <==> e in events && e.project == project && e.ordinal > cursor
  {
    if events != [] {
      AfterCursorIs(events[..|events| - 1], project, cursor);
    }
  }

  /** The first so many, or all there are. */
  function First(s: seq<SyncEvent>, count: int): seq<SyncEvent> {
    if count >= |s| then s else if count <= 0 then [] else s[..count]
  }

  /** A page holds the first of them, as many as asked for or all there are. */
  lemma PageIs(events: seq<SyncEvent>, project: Id, cursor: int, limit: int)
    requires 1 <= limit
    ensures PageOf(events, project, cursor, limit).events == First(EventsAfter(events, project, cursor), limit)
  {
  }

  /** A pull by who may read, for one to 5000 events, takes a page; any other pull changes nothing. */
  lemma PullTakesPage(w: World, project: Id, principal: Id, limit: int)
    ensures var next := Next(w, Pull(limit), project, principal);
            if MayRead(w.db, project, principal) && w.cursor >= 0 && 1 <= limit <= 5000 then
              && next.db == w.db
              && next.received == w.received + First(EventsAfter(w.db.events, project, w.cursor), limit)
            else next == w
  {
    hide RequireAccess, MayRead, EventsAfter, Take;
    AccessIff(w.db, project, principal);
    if 1 <= limit {
      PageIs(w.db.events, project, w.cursor, limit);
    }
  }

  lemma FirstOfMore(seen: seq<SyncEvent>, unseen: seq<SyncEvent>, limit: int)
    requires 1 <= limit
    ensures seen + First(unseen, limit) == First(seen + unseen, |seen| + limit)
  {
  }

  /**
   A pull by who may read, for one to 5000 events, adds the next of the project's events to what the
   client has, as many as asked for or all there are; any other pull changes nothing.
   */
  lemma PullAdvances(turns: seq<Turn>, project: Id, principal: Id, limit: int)
    ensures var w := Session(turns, project, principal);
            var next := Session(turns + [Pull(limit)], project, principal);
            if MayRead(w.db, project, principal) && 1 <= limit <= 5000 then
              && next.db == w.db
              && next.received == First(ProjectLog(w.db.events, project), |w.received| + limit)
            else next == w
  {
    hide Session, Next, MayRead, ProjectLog, EventsAfter, Synced, First;
    var w := Session(turns, project, principal);
    OneTurn(turns, Pull(limit), project, principal);
    SessionFollows(turns, project, principal);
    PullTakesPage(w, project, principal, limit);
    if 1 <= limit {
      FirstOfMore(w.received, EventsAfter(w.db.events, project, w.cursor), limit);
    }
  }

  lemma OneTurn(turns: seq<Turn>, turn: Turn, project: Id, principal: Id)
    ensures Session(turns + [turn], project, principal)
            == Next(Session(turns, project, principal), turn, project, principal)
  {
    hide Next;
    assert (turns + [turn])[..|turns|] == turns;
  }

  function Pulls(n: nat, limit: int): seq<Turn> {
    seq(n, i => Pull(limit))
  }

  /** Any number of pulls in a row gives a client that may read the first of the project's events, or all. */
  lemma {:induction false} PullsReach(turns: seq<Turn>, project: Id, principal: Id, limit: int, n: nat)
    requires MayRead(Session(turns, project, principal).db, project, principal) && 1 <= limit <= 5000
    ensures var w := Session(turns, project, principal);
            var after := Session(turns + Pulls(n, limit), project, principal);
            && after.db == w.db
            && after.received == First(ProjectLog(w.db.events, project), |w.received| + n * limit)
  {
    hide MayRead, ProjectLog, Session;
    var w := Session(turns, project, principal);
    Received(turns, project, principal);
    if n == 0 {
      assert turns + Pulls(n, limit) == turns;
    } else {
      PullsReach(turns, project, principal, limit, n - 1);
      PullAdvances(turns + Pulls(n - 1, limit), project, principal, limit);
      assert turns + Pulls(n, limit) == turns + Pulls(n - 1, limit) + [Pull(limit)];
      assert n * limit == (n - 1) * limit + limit;
      FirstTwice(ProjectLog(w.db.events, project), |w.received| + (n - 1) * limit, limit);
    }
  }

  lemma FirstTwice(s: seq<SyncEvent>, count: int, more: int)
    requires count >= 0 && more >= 1
    ensures First(s, |First(s, count)| + more) == First(s, count + more)
  {
  }

  lemma Received(turns: seq<Turn>, project: Id, principal: Id)
    ensures var w := Session(turns, project, principal);
            w.received == First(ProjectLog(w.db.events, project), |w.received|)
  {
    hide Session, ProjectLog, EventsAfter;
    SessionFollows(turns, project, principal);
  }
}
