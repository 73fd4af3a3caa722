/**
 Undoing a list of actions in reverse order.

 Each action, completed or not, only touches what it backed up, apart from missing parent
 directories it creates; so undoing a list backwards never gets stuck and brings back every file
 and directory, leaving at most directories that some action had created as missing ancestors.
 */
module UndoChains {
  import opened Prelude
  import opened FileTree
  import opened FileActions
  import opened UndoGuarantees

  /** The path whose missing ancestors an action may create. */
  function Destination(a: FileAction): Target {
    match a
    case ReadFile(p) => p
    case WriteFile(p, _) => p
    case MakeDirectory(p, _, _) => p
    case Move(_, target) => target
    case Delete(p) => p
  }

  /** `after` differs from `before` at most under the backed-up paths and by new directories above the destination. */
  ghost predicate Local(before: Tree, after: Tree, rows: seq<Backup>, destination: Path) {
    && (forall q | q in before && !Covered(rows, q) :: q in after && after[q] == before[q])
    && (forall q | q in after && q !in before && !Covered(rows, q) :: after[q] == Dir && Above(q, destination))
  }

  ghost predicate Proper(before: Tree, e: Effect, destination: Path) {
    WellFormed(e.tree) && TakenFrom(e.rows, before) && Local(before, e.tree, e.rows, destination)
  }

  lemma CoversItself(rows: seq<Backup>, i: nat, q: Path)
    requires i < |rows| && Under(rows[i].path, q)
    ensures Covered(rows, q)
  {
  }

  /** `ready` is `t` with the missing ancestors of `p`. */
  ghost predicate Readied(t: Tree, ready: Tree, p: Path) {
    && (forall q :: q in ready <==> q in t || Above(q, p))
    && (forall q | q in ready :: ready[q] == if q in t then t[q] else Dir)
  }

  lemma WithParentsReadied(t: Tree, p: Target)
    requires WellFormed(t) && !BlockedBy(t, p)
    ensures Readied(t, WithParents(t, p), p) && WellFormed(WithParents(t, p))
            && IsDirectory(WithParents(t, p), Parent(p))
  {
    WithParentsWellFormed(t, p);
    assert Above(Parent(p), p);
    hide WithParents, WellFormed, BlockedBy;
  }

  /** What an action then does under covered paths keeps it local. */
  lemma ReadiedLocal(t: Tree, ready: Tree, after: Tree, rows: seq<Backup>, p: Path)
    requires Readied(t, ready, p)
    requires forall q | !Covered(rows, q) :: (q in after <==> q in ready) && (q in ready ==> after[q] == ready[q])
    ensures Local(t, after, rows, p)
  {
    hide Covered, Above;
  }

  /** Creating a file or directory where there is none, or replacing a file. */
  lemma PutProper(t: Tree, p: Target, node: Node, rows: seq<Backup>)
    requires WellFormed(t) && !BlockedBy(t, p) && (p in t ==> t[p] == node || t[p].File?)
    requires rows == [BackupOf(t, p)]
    ensures Proper(t, Effect(WithParents(t, p)[p := node], rows, true), p)
  {
    WithParentsReadied(t, p);
    CoversItself(rows, 0, p);
    var ready := WithParents(t, p);
    NotBoth(p, p);
    hide WithParents, Covered, WellFormed, BlockedBy, BackupOf;
    assert p in ready ==> ready[p] == node || ready[p].File?;
    PutWellFormed(ready, p, node);
    hide Readied, Under, Above;
    ReadiedLocal(t, ready, ready[p := node], rows, p);
  }

  lemma ParentsProper(t: Tree, p: Target, rows: seq<Backup>)
    requires WellFormed(t) && !BlockedBy(t, p) && TakenFrom(rows, t)
    ensures Proper(t, Effect(WithParents(t, p), rows, false), p)
  {
    WithParentsWellFormed(t, p);
    hide WithParents, Covered, WellFormed, BlockedBy;
  }

  lemma UnchangedProper(t: Tree, rows: seq<Backup>, p: Target, ok: bool)
    requires WellFormed(t) && TakenFrom(rows, t)
    ensures Proper(t, Effect(t, rows, ok), p)
  {
  }

  lemma DeleteProper(t: Tree, p: Target, limit: Limit)
    requires WellFormed(t)
    ensures Proper(t, DeleteTree(t, p, limit), p)
  {
    RemovedAt(t, p);
    RemovedWellFormed(t, p);
    hide Removed, WellFormed;
    if p in t && Fits(t, p, limit) {
      forall q | Under(p, q) ensures Covered([BackupOf(t, p)], q) {
        CoversItself([BackupOf(t, p)], 0, q);
      }
    }
  }

  lemma WriteProper(t: Tree, p: Target, content: string, limit: Limit)
    requires WellFormed(t)
    ensures Proper(t, Write(t, p, content, limit), p)
  {
    hide Proper, WellFormed, WithParents, BlockedBy;
    if Fits(t, p, limit) {
      if BlockedBy(t, p) {
        UnchangedProper(t, [BackupOf(t, p)], p, false);
      } else if IsDirectory(t, p) {
        ParentsProper(t, p, [BackupOf(t, p)]);
      } else {
        PutProper(t, p, File(content), [BackupOf(t, p)]);
      }
    } else {
      UnchangedProper(t, [], p, false);
    }
  }

  lemma MakeDirProper(t: Tree, p: Target, parents: bool, existOk: bool, limit: Limit)
    requires WellFormed(t)
    ensures Proper(t, MakeDir(t, p, parents, existOk, limit), p)
  {
    hide Proper, WithParents, BlockedBy;
    var rows := [BackupOf(t, p)];
    UnchangedProper(t, [], p, false);
    UnchangedProper(t, rows, p, false);
    UnchangedProper(t, rows, p, true);
    if p !in t {
      if parents {
        if !BlockedBy(t, p) {
          PutProper(t, p, Dir, rows);
        }
      } else if IsDirectory(t, Parent(p)) {
        BareMakeDirProper(t, p, rows);
      }
    }
  }

  lemma BareMakeDirProper(t: Tree, p: Target, rows: seq<Backup>)
    requires WellFormed(t) && IsDirectory(t, Parent(p)) && p !in t && rows == [BackupOf(t, p)]
    ensures Proper(t, Effect(t[p := Dir], rows, true), p)
  {
    PutWellFormed(t, p, Dir);
    CoversItself(rows, 0, p);
    hide WellFormed, Covered, BackupOf;
  }

  // ---------- moves ----------

  lemma RenamedAt(t: Tree, source: Target, landing: Target)
    requires WellFormed(t) && source in t && landing !in t
    ensures forall r :: r in Renamed(t, source, landing) <==>
              (r in t && !Under(source, r)) || (Under(landing, r) && source + r[|landing|..] in t)
    ensures forall r | r in t && !Under(source, r) :: Renamed(t, source, landing)[r] == t[r]
    ensures forall r | Under(landing, r) && source + r[|landing|..] in t ::
              Renamed(t, source, landing)[r] == t[source + r[|landing|..]]
  {
    NothingUnder(t, landing);
    RemovedAt(t, source);
    forall r ensures r in NewKeys(t, source, landing) <==> Under(landing, r) && source + r[|landing|..] in t {
      if Under(landing, r) && source + r[|landing|..] in t {
        var q := source + r[|landing|..];
        assert landing + q[|source|..] == r;
      }
      if r in NewKeys(t, source, landing) {
        var q :| q in t && Under(source, q) && r == landing + q[|source|..];
        assert source + r[|landing|..] == q;
      }
    }
    hide Removed, NewKeys, WellFormed;
  }

  lemma RenamedWellFormed(t: Tree, source: Target, landing: Target)
    requires WellFormed(t) && source in t && landing !in t && !Under(source, landing)
    requires IsDirectory(t, Parent(landing))
    ensures WellFormed(Renamed(t, source, landing))
  {
    RenamedAt(t, source, landing);
    hide Renamed;
    var after := Renamed(t, source, landing);
    forall r | r in after && r != [] ensures Parent(r) in after && after[Parent(r)] == Dir {
      if r in t && !Under(source, r) {
        ParentOutside(source, r);
      } else {
        ParentOfRenamed(t, source, landing, r);
      }
    }
    assert [] in after && after[[]] == Dir;
  }

  lemma ParentOfRenamed(t: Tree, source: Target, landing: Target, r: Target)
    requires WellFormed(t) && IsDirectory(t, Parent(landing)) && !Under(source, landing)
    requires Under(landing, r) && source + r[|landing|..] in t
    ensures r == landing ==> IsDirectory(t, Parent(r)) && !Under(source, Parent(r))
    ensures r != landing ==> Under(landing, Parent(r)) && IsDirectory(t, source + Parent(r)[|landing|..])
  {
    if r == landing {
      ParentOutside(source, landing);
    } else {
      assert Parent(r)[..|landing|] == r[..|landing|];
      assert source + Parent(r)[|landing|..] == Parent(source + r[|landing|..]);
    }
  }

  lemma ParentOutside(p: Path, q: Target)
    requires !Under(p, q)
    ensures !Under(p, Parent(q))
  {
    if Under(p, Parent(q)) {
      UnderTransitive(p, Parent(q), q);
    }
  }

  lemma LandingUnderTarget(t: Tree, source: Target, target: Target)
    ensures Under(target, Landing(t, source, target))
  {
  }

  /** A successful move changes nothing outside what is at or under its source and its target. */
  lemma MovedAt(t: Tree, source: Target, target: Target)
    requires WellFormed(t) && source in t && IsDirectory(t, Parent(target)) && Moved(t, source, target).Some?
    ensures var after := Moved(t, source, target).value;
            && WellFormed(after)
            && (forall q | !Under(source, q) && !Under(target, q) ::
                  (q in after <==> q in t) && (q in t ==> after[q] == t[q]))
  {
    var landing := Landing(t, source, target);
    LandingUnderTarget(t, source, target);
    if landing == source && source == target {
    } else if t[source].File? {
      RemovedAt(t, source);
      RemovedWellFormed(t, source);
      ParentOfLanding(t, source, target);
      assert landing != source;
      hide Removed, Renamed, Landing;
      FileKeepsParent(t, source, landing);
      PutWellFormed(Removed(t, source), landing, t[source]);
    } else {
      ParentOfLanding(t, source, target);
      RenamedWellFormed(t, source, landing);
      RenamedAt(t, source, landing);
      hide Renamed, Landing;
      forall q | !Under(source, q) && !Under(target, q)
        ensures (q in Renamed(t, source, landing) <==> q in t) && (q in t ==> Renamed(t, source, landing)[q] == t[q])
      {
        if Under(landing, q) {
          UnderTransitive(target, landing, q);
        }
      }
    }
  }

  lemma ParentOfLanding(t: Tree, source: Target, target: Target)
    requires IsDirectory(t, Parent(target))
    ensures IsDirectory(t, Parent(Landing(t, source, target)))
  {
    if IsDirectory(t, target) && source != target {
      assert Parent(target + [source[|source| - 1]]) == target;
    }
  }

  /** The directory a file lands in is not inside that file. */
  lemma FileKeepsParent(t: Tree, source: Target, landing: Target)
    requires WellFormed(t) && IsFile(t, source) && IsDirectory(t, Parent(landing))
    ensures IsDirectory(Removed(t, source), Parent(landing))
  {
    if Under(source, Parent(landing)) && source != Parent(landing) {
      AncestorsExist(t, Parent(landing), source);
    }
  }

  lemma MoveProper(t: Tree, source: Target, target: Target, limit: Limit)
    requires WellFormed(t)
    ensures Proper(t, MoveTo(t, source, target, limit), target)
  {
    hide WellFormed, WithParents, BlockedBy, Moved, Fits, Proper;
    UnchangedProper(t, [], target, false);
    if source in t {
      var rows := [BackupOf(t, source), BackupOf(t, target)];
      UnchangedProper(t, [BackupOf(t, source)], target, false);
      UnchangedProper(t, rows, target, false);
      if !BlockedBy(t, target) {
        ParentsProper(t, target, rows);
        CompletedMoveProper(t, source, target, rows);
      }
    }
  }

  lemma TwoBackups(t: Tree, source: Target, target: Target)
    ensures BackupOf(t, source).path == source && BackupOf(t, target).path == target
    ensures TakenFrom([BackupOf(t, source), BackupOf(t, target)], t)
  {
    hide Subtree;
  }

  lemma CompletedMoveProper(t: Tree, source: Target, target: Target, rows: seq<Backup>)
    requires WellFormed(t) && source in t && !BlockedBy(t, target)
    requires rows == [BackupOf(t, source), BackupOf(t, target)]
    ensures source in WithParents(t, target)
    ensures Moved(WithParents(t, target), source, target).Some? ==>
              Proper(t, Effect(Moved(WithParents(t, target), source, target).value, rows, true), target)
  {
    hide WithParents, BlockedBy, WellFormed, Moved, BackupOf, TakenFrom;
    var ready := WithParents(t, target);
    WithParentsReadied(t, target);
    if Moved(ready, source, target).Some? {
      MovedAt(ready, source, target);
      var after := Moved(ready, source, target).value;
      TwoBackups(t, source, target);
      forall q | Under(source, q) || Under(target, q) ensures Covered(rows, q) {
        CoversItself(rows, if Under(source, q) then 0 else 1, q);
      }
      hide Covered, Under, Above;
      ReadiedLocal(t, ready, after, rows, target);
    }
  }

  /** Every dispatch keeps the tree well formed, backs up what it found, and is local to what it backed up. */
  lemma DispatchProper(t: Tree, a: FileAction, limit: Limit)
    requires WellFormed(t)
    ensures Proper(t, Dispatch(t, a, limit), Destination(a))
  {
    hide WellFormed, Proper, Write, MakeDir, MoveTo, DeleteTree;
    match a
    case ReadFile(p) => UnchangedProper(t, [], p, IsFile(t, p));
    case WriteFile(p, content) => WriteProper(t, p, content, limit);
    case MakeDirectory(p, parents, existOk) => MakeDirProper(t, p, parents, existOk, limit);
    case Move(source, target) => MoveProper(t, source, target, limit);
    case Delete(p) => DeleteProper(t, p, limit);
  }

  // ---------- undoing after other undos ----------

  ghost predicate AboveSome(paths: seq<Path>, q: Path) {
    exists i :: 0 <= i < |paths| && Above(q, paths[i])
  }

  /** `t` holds everything `base` holds, and besides at most directories above some of the given paths. */
  ghost predicate Leftover(base: Tree, t: Tree, paths: seq<Path>) {
    && (forall q | q in base :: q in t && t[q] == base[q])
    && (forall q | q in t && q !in base :: t[q] == Dir && AboveSome(paths, q))
  }

  /** A source directory is never moved into itself: such a dispatch fails and leaves the source where it was. */
  lemma NoMoveInside(t: Tree, source: Target, target: Target, limit: Limit)
    requires WellFormed(t) && Above(source, target)
    ensures !MoveTo(t, source, target, limit).ok
    ensures forall q | q in t ::
              q in MoveTo(t, source, target, limit).tree && MoveTo(t, source, target, limit).tree[q] == t[q]
  {
    hide Fits, Renamed, Removed, WellFormed;
    if source in t && !BlockedBy(t, target) {
      AncestorIsAbove(source, target);
      var ready := WithParents(t, target);
      assert ready[source] == t[source] == Dir;
      LandingUnderTarget(ready, source, target);
      UnderTransitive(source, target, Landing(ready, source, target));
      assert Moved(ready, source, target) == None;
    }
  }

  /** Above a path that will be put back there is never a regular file in the way. */
  lemma NeverObstructed(t0: Tree, a: FileAction, limit: Limit, t: Tree, paths: seq<Path>, i: nat)
    requires WellFormed(t0) && Leftover(Dispatch(t0, a, limit).tree, t, paths) && i < |Dispatch(t0, a, limit).rows|
    ensures !Obstructed(t, t0, Dispatch(t0, a, limit).rows, i)
  {
    var e := Dispatch(t0, a, limit);
    DispatchProper(t0, a, limit);
    var p := e.rows[i].path;
    if p in t0 {
      forall q | Above(q, p) ensures !IsFile(t, q) || Covered(e.rows[i + 1..], q) {
        AncestorsExist(t0, p, q);
        NotBoth(q, p);
        AncestorNotFile(t0, a, limit, i, q);
        hide Dispatch, WellFormed, Covered, AboveSome;
      }
    }
  }

  lemma AncestorNotFile(t0: Tree, a: FileAction, limit: Limit, i: nat, q: Path)
    requires WellFormed(t0) && i < |Dispatch(t0, a, limit).rows|
    requires Proper(t0, Dispatch(t0, a, limit), Destination(a))
    requires Above(q, Dispatch(t0, a, limit).rows[i].path) && q in t0 && t0[q] == Dir
    ensures var e := Dispatch(t0, a, limit);
            (q in e.tree && e.tree[q] == Dir) || Covered(e.rows[i + 1..], q)
  {
    hide Dispatch, TakenFrom, WellFormed, MoveTo, Under, Above;
    var e := Dispatch(t0, a, limit);
    var p := e.rows[i].path;
    NotBoth(q, p);
    RowsOf(t0, a, limit);
    if Covered(e.rows, q) {
      var j :| 0 <= j < |e.rows| && Under(e.rows[j].path, q);
      if j > i {
        assert e.rows[i + 1..][j - i - 1] == e.rows[j];
      } else {
        assert j == 0 && i == 1;
        UnderAbove(a.source, q, p);
        NoMoveInside(t0, a.source, a.target, limit);
      }
    }
  }

  /** Only a move writes two backup rows: its source, then its target. */
  lemma RowsOf(t: Tree, a: FileAction, limit: Limit)
    ensures |Dispatch(t, a, limit).rows| <= 2
    ensures |Dispatch(t, a, limit).rows| == 2 ==>
              a.Move? && Dispatch(t, a, limit).tree == MoveTo(t, a.source, a.target, limit).tree
              && Dispatch(t, a, limit).rows[0].path == a.source && Dispatch(t, a, limit).rows[1].path == a.target
  {
    hide Fits, BlockedBy, WithParents, Removed, Moved, IsDirectory, IsFile;
  }

  lemma UnderAbove(a: Path, b: Path, c: Path)
    requires Under(a, b) && Above(b, c)
    ensures Above(a, c)
  {
    assert c[..|a|] == c[..|b|][..|a|];
  }

  /** Undoing one action on a tree that differs from its result only by leftover directories. */
  lemma StepUndone(t0: Tree, a: FileAction, limit: Limit, t: Tree, paths: seq<Path>)
    requires WellFormed(t0) && WellFormed(t) && Leftover(Dispatch(t0, a, limit).tree, t, paths)
    ensures var r := RestoreRows(t, Dispatch(t0, a, limit).rows);
            r.ok && WellFormed(r.tree) && Leftover(t0, r.tree, [Destination(a)] + paths)
  {
    var e := Dispatch(t0, a, limit);
    DispatchProper(t0, a, limit);
    forall i | 0 <= i < |e.rows| ensures !Obstructed(t, t0, e.rows, i) {
      NeverObstructed(t0, a, limit, t, paths, i);
    }
    hide Dispatch, WellFormed, Obstructed, RestoreRows, TakenFrom;
    RestoreCompletesIff(t, t0, e.rows);
    RestoreIsExact(t, t0, e.rows);
    RestoredLeftover(t0, e, t, RestoreRows(t, e.rows).tree, Destination(a), paths);
  }

  lemma RestoredLeftover(t0: Tree, e: Effect, t: Tree, r: Tree, destination: Path, paths: seq<Path>)
    requires WellFormed(t0) && Local(t0, e.tree, e.rows, destination) && Leftover(e.tree, t, paths)
    requires AllSame(r, t0, e.rows) && SameElsewhere(t, r, e.rows, t0)
    ensures Leftover(t0, r, [destination] + paths)
  {
    hide WellFormed, AboveSome, AboveRestored;
    forall q | q in t0 ensures q in r && r[q] == t0[q] {
      if Covered(e.rows, q) {
        var i :| 0 <= i < |e.rows| && Under(e.rows[i].path, q);
        assert SameUnder(r, t0, e.rows[i].path);
      }
    }
    forall q | q in r && q !in t0 ensures r[q] == Dir && AboveSome([destination] + paths, q) {
      if !Covered(e.rows, q) {
        if q in t {
          AboveMore(destination, paths, q);
        } else {
          AboveRestoredExists(e.rows, t0, q);
        }
      }
    }
  }

  lemma AboveRestoredExists(rows: seq<Backup>, t0: Tree, q: Path)
    requires WellFormed(t0) && AboveRestored(rows, t0, q)
    ensures q in t0
  {
    var i :| 0 <= i < |rows| && Above(q, rows[i].path) && rows[i].path in t0;
    AncestorsExist(t0, rows[i].path, q);
  }

  lemma AboveMore(destination: Path, paths: seq<Path>, q: Path)
    ensures Above(q, destination) ==> AboveSome([destination] + paths, q)
    ensures AboveSome(paths, q) ==> AboveSome([destination] + paths, q)
  {
    assert ([destination] + paths)[0] == destination;
    if AboveSome(paths, q) {
      var i :| 0 <= i < |paths| && Above(q, paths[i]);
      assert ([destination] + paths)[i + 1] == paths[i];
    }
  }

  /** The trees and backup rows of a list of dispatches, whatever each of them comes to. */
  function DispatchAll(t: Tree, actions: seq<FileAction>, limit: Limit): (Tree, seq<seq<Backup>>)
    decreases |actions|
  {
    if actions == [] then (t, [])
    else
      var e := Dispatch(t, actions[0], limit);
      var (last, rows) := DispatchAll(e.tree, actions[1..], limit);
      (last, [e.rows] + rows)
  }

  /** Undoes the latest action first. */
  function UndoAll(t: Tree, journal: seq<seq<Backup>>): Restoration {
    if journal == [] then Restoration(t, true)
    else
      var later := UndoAll(t, journal[1..]);
      if !later.ok then later else RestoreRows(later.tree, journal[0])
  }

  function Destinations(actions: seq<FileAction>): seq<Path> {
    if actions == [] then [] else [Destination(actions[0])] + Destinations(actions[1..])
  }

  lemma {:induction false} UndoAllLeavesOnlyParents(t0: Tree, actions: seq<FileAction>, limit: Limit)
    requires WellFormed(t0)
    ensures var (t, journal) := DispatchAll(t0, actions, limit);
            var r := UndoAll(t, journal);
            r.ok && WellFormed(r.tree) && Leftover(t0, r.tree, Destinations(actions))
    decreases |actions|
  {
    hide WellFormed, Leftover, Dispatch, RestoreRows;
    if actions == [] {
      NothingLeftOver(t0);
    } else {
      var e := Dispatch(t0, actions[0], limit);
      DispatchProper(t0, actions[0], limit);
      UndoAllLeavesOnlyParents(e.tree, actions[1..], limit);
      var (t, rows) := DispatchAll(e.tree, actions[1..], limit);
      var journal := DispatchAll(t0, actions, limit).1;
      assert journal[1..] == rows && journal[0] == e.rows;
      StepUndone(t0, actions[0], limit, UndoAll(t, rows).tree, Destinations(actions[1..]));
    }
  }

  lemma NothingLeftOver(t: Tree)
    ensures Leftover(t, t, [])
  {
  }

  /**
   Undoing any list of file actions in reverse order always completes. Every regular file has its
   original contents or absence back and every original directory is there; whatever else is
   left is a directory, with nothing but such directories below it, above a path that one of the
   actions wrote, made or moved to.
   */
  lemma UndoAllRestoresFiles(t0: Tree, actions: seq<FileAction>, limit: Limit)
    requires WellFormed(t0)
    ensures var (t, journal) := DispatchAll(t0, actions, limit);
            var r := UndoAll(t, journal);
            && r.ok
            && (forall q :: IsFile(r.tree, q) <==> IsFile(t0, q))
            && (forall q | IsFile(t0, q) :: r.tree[q] == t0[q])
            && (forall q | q in t0 :: q in r.tree && r.tree[q] == t0[q])
            && (forall q | q in r.tree && q !in t0 ::
                  AboveSome(Destinations(actions), q) && forall below | Under(q, below) && below in r.tree ::
                    r.tree[below] == Dir && below !in t0)
  {
    UndoAllLeavesOnlyParents(t0, actions, limit);
    var (t, journal) := DispatchAll(t0, actions, limit);
    var r := UndoAll(t, journal).tree;
    hide DispatchAll, UndoAll, Destinations, AboveSome;
    forall q, below | q in r && q !in t0 && Under(q, below) && below in r ensures r[below] == Dir && below !in t0 {
      if below in t0 && below != q {
        AncestorsExist(t0, below, q);
      }
    }
  }

  // ---------- when one undo is an exact inverse ----------

  predicate CreatesParents(a: FileAction) {
    a.WriteFile? || a.MakeDirectory? || a.Move?
  }

  lemma ParentsStay(t0: Tree, a: FileAction, limit: Limit, q: Path)
    requires WellFormed(t0) && Dispatch(t0, a, limit).ok && CreatesParents(a) && Above(q, Destination(a)) && q !in t0
    ensures var e := Dispatch(t0, a, limit);
            q in e.tree && !Covered(e.rows, q)
  {
    var e := Dispatch(t0, a, limit);
    NotBoth(q, Destination(a));
    match a
    case WriteFile(p, _) =>
      WithParentsReadied(t0, p);
      hide WithParents, BlockedBy;
    case MakeDirectory(p, parents, _) =>
      if p in t0 {
        AncestorsExist(t0, p, q);
      } else if parents {
        WithParentsReadied(t0, p);
        hide WithParents, BlockedBy;
      } else {
        if q != Parent(p) {
          assert Above(q, Parent(p)) by { assert Parent(p)[..|q|] == p[..|q|]; }
          AncestorsExist(t0, Parent(p), q);
        }
      }
    case Move(source, target) =>
      MissingAncestorOfMove(t0, source, target, limit, q);
  }

  lemma MissingAncestorOfMove(t0: Tree, source: Target, target: Target, limit: Limit, q: Path)
    requires WellFormed(t0) && MoveTo(t0, source, target, limit).ok && Above(q, target) && q !in t0
    ensures q in MoveTo(t0, source, target, limit).tree && !Covered(MoveTo(t0, source, target, limit).rows, q)
  {
    var e := MoveTo(t0, source, target, limit);
    hide WithParents, BlockedBy, Fits, Moved, WellFormed;
    WithParentsReadied(t0, target);
    NotBoth(q, target);
    var ready := WithParents(t0, target);
    NeverThroughSource(ready, source, target);
    if Under(source, q) {
      UnderAbove(source, q, target);
    }
    MovedAt(ready, source, target);
  }

  lemma NeverThroughSource(t: Tree, source: Target, target: Target)
    requires WellFormed(t) && source in t && IsDirectory(t, Parent(target)) && Moved(t, source, target).Some?
    ensures !Above(source, target)
  {
    hide Renamed, Removed;
    if Above(source, target) {
      DirectoryAbove(t, target, source);
      LandingUnderTarget(t, source, target);
      UnderTransitive(source, target, Landing(t, source, target));
      hide Landing, WellFormed;
    }
  }

  lemma DirectoryAbove(t: Tree, p: Target, q: Path)
    requires WellFormed(t) && IsDirectory(t, Parent(p)) && Above(q, p)
    ensures IsDirectory(t, q)
  {
    if q != Parent(p) {
      assert Above(q, Parent(p)) by { assert Parent(p)[..|q|] == p[..|q|]; }
      AncestorsExist(t, Parent(p), q);
    }
  }

  lemma LeftoverIsNothing(t0: Tree, r: Tree, p: Path)
    requires Leftover(t0, r, [p]) && forall q | Above(q, p) :: q in t0
    ensures r == t0
  {
    assert forall q | q in r :: q in t0;
  }

  lemma ExistingDestination(t0: Tree, a: FileAction, limit: Limit)
    requires WellFormed(t0) && Dispatch(t0, a, limit).ok && !CreatesParents(a)
    ensures forall q | Above(q, Destination(a)) :: q in t0
  {
    forall q | Above(q, Destination(a)) ensures q in t0 {
      AncestorsExist(t0, Destination(a), q);
    }
  }

  lemma CreatedParentStays(t0: Tree, a: FileAction, limit: Limit, q: Path)
    requires WellFormed(t0) && Dispatch(t0, a, limit).ok && CreatesParents(a) && Above(q, Destination(a)) && q !in t0
    requires SameElsewhere(Dispatch(t0, a, limit).tree,
                           RestoreRows(Dispatch(t0, a, limit).tree, Dispatch(t0, a, limit).rows).tree,
                           Dispatch(t0, a, limit).rows, t0)
    ensures q in RestoreRows(Dispatch(t0, a, limit).tree, Dispatch(t0, a, limit).rows).tree
  {
    hide Dispatch, RestoreRows, WellFormed, Covered, AboveRestored;
    ParentsStay(t0, a, limit, q);
  }

  /**
   Undoing one completed action right away gives back the very same tree exactly when the action
   had no missing parent directory to create: created parents are not removed.
   */
  lemma UndoIsInverseIff(t0: Tree, a: FileAction, limit: Limit)
    requires WellFormed(t0) && Dispatch(t0, a, limit).ok
    ensures var e := Dispatch(t0, a, limit);
            RestoreRows(e.tree, e.rows).tree == t0
            <==> (CreatesParents(a) ==> forall q | Above(q, Destination(a)) :: q in t0)
  {
    hide Dispatch, RestoreRows, WellFormed, TakenFrom, Leftover, SameElsewhere, Local, CreatesParents, Above;
    var e := Dispatch(t0, a, limit);
    DispatchProper(t0, a, limit);
    NothingLeftOver(e.tree);
    StepUndone(t0, a, limit, e.tree, []);
    RestoreElsewhere(e.tree, t0, e.rows);
    assert [Destination(a)] + [] == [Destination(a)];
    if !CreatesParents(a) {
      ExistingDestination(t0, a, limit);
    }
    if q :| Above(q, Destination(a)) && q !in t0 {
      CreatedParentStays(t0, a, limit, q);
    } else {
      LeftoverIsNothing(t0, RestoreRows(e.tree, e.rows).tree, Destination(a));
    }
  }
}
