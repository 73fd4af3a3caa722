/**
 What undo guarantees about the workspace.
 */
module UndoGuarantees {
  import opened FileTree
  import opened FileActions

  /** Two trees hold the same things at and under a path. */
  ghost predicate SameUnder(a: Tree, b: Tree, p: Path) {
    forall q | Under(p, q) :: (q in a <==> q in b) && (q in a && q in b ==> a[q] == b[q])
  }

  ghost predicate TakenFrom(rows: seq<Backup>, t0: Tree) {
    forall i | 0 <= i < |rows| :: rows[i] == BackupOf(t0, rows[i].path)
  }

  ghost predicate AllSame(t: Tree, t0: Tree, rows: seq<Backup>) {
    forall i | 0 <= i < |rows| :: SameUnder(t, t0, rows[i].path)
  }

  lemma SubtreeAt(t: Tree, p: Path)
    ensures forall q :: q in Subtree(t, p) <==> q in t && Under(p, q)
    ensures forall q | q in Subtree(t, p) :: Subtree(t, p)[q] == t[q]
  {
  }

  lemma RemovedAt(t: Tree, p: Path)
    ensures forall q :: q in Removed(t, p) <==> q in t && !Under(p, q)
    ensures forall q | q in Removed(t, p) :: Removed(t, p)[q] == t[q]
  {
  }

  /**
   What restoring one row does, path by path: under the row's path the saved state, elsewhere
   nothing but missing ancestors.
   */
  lemma RestoreRowAt(t: Tree, t0: Tree, p: Target)
    requires WellFormed(t) && WellFormed(t0) && RestoreRow(t, BackupOf(t0, p)).ok
    ensures var r := RestoreRow(t, BackupOf(t0, p)).tree;
            && WellFormed(r)
            && SameUnder(r, t0, p)
            && (forall q | q in t && !Under(p, q) :: q in r && r[q] == t[q])
            && (forall q | q in r && q !in t && !Under(p, q) :: Above(q, p) && p in t0 && r[q] == Dir)
  {
    var cleared := Removed(t, p);
    RemovedAt(t, p);
    RemovedWellFormed(t, p);
    if p in t0 {
      SubtreeAt(t0, p);
      WithParentsWellFormed(cleared, p);
      hide WithParents, Removed, Subtree, BlockedBy;
      var r := RestoreRow(t, BackupOf(t0, p)).tree;
      assert r == WithParents(cleared, p) + Subtree(t0, p);
      forall q | Under(p, q) ensures (q in r <==> q in t0) && (q in r && q in t0 ==> r[q] == t0[q]) {
        NotBoth(q, p);
      }
      forall q | q in r && q != [] ensures Parent(q) in r && r[Parent(q)] == Dir {
        GraftedParent(cleared, t0, p, q);
      }
    } else {
      NothingUnder(t0, p);
    }
  }

  lemma NotBoth(q: Path, p: Path)
    ensures !(Under(p, q) && Above(q, p))
  {
  }

  lemma NothingUnder(t: Tree, p: Target)
    requires WellFormed(t) && p !in t
    ensures forall q | Under(p, q) :: q !in t
  {
    forall q | Under(p, q) ensures q !in t {
      if q in t && q != p {
        AncestorsExist(t, q, p);
      }
    }
  }

  lemma GraftedParent(cleared: Tree, t0: Tree, p: Target, q: Target)
    requires WellFormed(t0) && p in t0 && WellFormed(WithParents(cleared, p))
    requires forall x | Above(x, p) :: x in WithParents(cleared, p) && WithParents(cleared, p)[x] == Dir
    requires forall x :: x in WithParents(cleared, p) ==> !Under(p, x)
    requires q in WithParents(cleared, p) + Subtree(t0, p)
    ensures Parent(q) in WithParents(cleared, p) + Subtree(t0, p)
            && (WithParents(cleared, p) + Subtree(t0, p))[Parent(q)] == Dir
  {
    SubtreeAt(t0, p);
    hide WithParents, Subtree;
    if q in Subtree(t0, p) {
      if q == p {
        assert Above(Parent(q), p);
        assert !Under(p, Parent(q));
      } else {
        assert Under(p, Parent(q)) by { assert Parent(q)[..|p|] == q[..|p|]; }
      }
    } else {
      assert q in WithParents(cleared, p);
      assert !Under(p, Parent(q));
    }
  }

  /** Restoring one more row keeps what earlier rows restored: the rows were saved from one tree. */
  lemma RowsAgree(t: Tree, t0: Tree, p: Target, restored: Path)
    requires WellFormed(t) && WellFormed(t0) && RestoreRow(t, BackupOf(t0, p)).ok
    requires SameUnder(t, t0, restored)
    ensures SameUnder(RestoreRow(t, BackupOf(t0, p)).tree, t0, restored)
  {
    var r := RestoreRow(t, BackupOf(t0, p)).tree;
    RestoreRowAt(t, t0, p);
    hide RestoreRow, BackupOf;
    forall q | Under(restored, q) ensures (q in r <==> q in t0) && (q in r && q in t0 ==> r[q] == t0[q]) {
      if !Under(p, q) && q in r && q !in t {
        AncestorsExist(t0, p, q);
      }
    }
  }

  lemma {:induction false} RestoreKeeps(t: Tree, t0: Tree, rows: seq<Backup>, restored: Path)
    requires WellFormed(t) && WellFormed(t0) && TakenFrom(rows, t0) && RestoreRows(t, rows).ok
    requires SameUnder(t, t0, restored)
    ensures SameUnder(RestoreRows(t, rows).tree, t0, restored)
    decreases |rows|
  {
    if rows != [] {
      var n := |rows| - 1;
      assert rows[n] == BackupOf(t0, rows[n].path);
      RestoreRowAt(t, t0, rows[n].path);
      RowsAgree(t, t0, rows[n].path, restored);
      hide RestoreRow, BackupOf, WellFormed, SameUnder;
      RestoreKeeps(RestoreRow(t, rows[n]).tree, t0, rows[..n], restored);
    }
  }

  lemma {:induction false} RestoreSame(t: Tree, t0: Tree, rows: seq<Backup>)
    requires WellFormed(t) && WellFormed(t0) && TakenFrom(rows, t0) && RestoreRows(t, rows).ok
    ensures WellFormed(RestoreRows(t, rows).tree) && AllSame(RestoreRows(t, rows).tree, t0, rows)
    decreases |rows|
  {
    if rows != [] {
      var n := |rows| - 1;
      assert rows[n] == BackupOf(t0, rows[n].path);
      RestoreRowAt(t, t0, rows[n].path);
      hide RestoreRow, BackupOf, WellFormed, SameUnder;
      var mid := RestoreRow(t, rows[n]).tree;
      RestoreSame(mid, t0, rows[..n]);
      RestoreKeeps(mid, t0, rows[..n], rows[n].path);
      forall i | 0 <= i < |rows| ensures SameUnder(RestoreRows(t, rows).tree, t0, rows[i].path) {
        if i < n {
          assert rows[..n][i] == rows[i];
        }
      }
    }
  }

  predicate Covered(rows: seq<Backup>, q: Path) {
    exists i | 0 <= i < |rows| :: Under(rows[i].path, q)
  }

  /** `q` is above a path that a row puts back. */
  predicate AboveRestored(rows: seq<Backup>, t0: Tree, q: Path) {
    exists i | 0 <= i < |rows| :: Above(q, rows[i].path) && rows[i].path in t0
  }

  /** Outside the covered paths `r` is `t`, apart from directories re-created above restored paths. */
  ghost predicate SameElsewhere(t: Tree, r: Tree, rows: seq<Backup>, t0: Tree) {
    && (forall q | q in t && !Covered(rows, q) :: q in r && r[q] == t[q])
    && (forall q | q in r && q !in t && !Covered(rows, q) :: r[q] == Dir && AboveRestored(rows, t0, q))
  }

  lemma CoveredSplit(rows: seq<Backup>, t0: Tree, n: nat, q: Path)
    requires |rows| == n + 1
    ensures Covered(rows, q) <==> Covered(rows[..n], q) || Under(rows[n].path, q)
    ensures AboveRestored(rows[..n], t0, q) ==> AboveRestored(rows, t0, q)
  {
    assert forall i | 0 <= i < n :: rows[..n][i] == rows[i];
    if AboveRestored(rows[..n], t0, q) {
      var i :| 0 <= i < n && Above(q, rows[..n][i].path) && rows[..n][i].path in t0;
      assert Above(q, rows[i].path);
    }
    if Covered(rows[..n], q) {
      var i :| 0 <= i < n && Under(rows[..n][i].path, q);
      assert Under(rows[i].path, q);
    }
  }

  lemma {:induction false} RestoreElsewhere(t: Tree, t0: Tree, rows: seq<Backup>)
    requires WellFormed(t) && WellFormed(t0) && TakenFrom(rows, t0) && RestoreRows(t, rows).ok
    ensures SameElsewhere(t, RestoreRows(t, rows).tree, rows, t0)
    decreases |rows|
  {
    if rows != [] {
      var n := |rows| - 1;
      assert rows[n] == BackupOf(t0, rows[n].path);
      RestoreRowAt(t, t0, rows[n].path);
      hide RestoreRow, BackupOf, WellFormed, SameUnder;
      var mid := RestoreRow(t, rows[n]).tree;
      RestoreElsewhere(mid, t0, rows[..n]);
      var r := RestoreRows(t, rows).tree;
      assert r == RestoreRows(mid, rows[..n]).tree;
      hide RestoreRows, Covered, AboveRestored;
      forall q | q in t && !Covered(rows, q) ensures q in r && r[q] == t[q] {
        CoveredSplit(rows, t0, n, q);
      }
      forall q | q in r && q !in t && !Covered(rows, q) ensures r[q] == Dir && AboveRestored(rows, t0, q) {
        CoveredSplit(rows, t0, n, q);
        if q in mid {
          LastIsAbove(rows, t0, q);
        }
      }
    }
  }

  lemma LastIsAbove(rows: seq<Backup>, t0: Tree, q: Path)
    requires rows != [] && Above(q, rows[|rows| - 1].path) && rows[|rows| - 1].path in t0
    ensures AboveRestored(rows, t0, q)
  {
  }

  /**
   An undo that completes leaves every backed-up path, and everything under it, exactly as it was
   when the backups were taken, whatever the tree looks like when undo starts and however the
   backed-up paths are nested; elsewhere it changes nothing, except that it may re-create missing
   directories above a path it puts back.
   */
  lemma RestoreIsExact(t: Tree, t0: Tree, rows: seq<Backup>)
    requires WellFormed(t) && WellFormed(t0) && TakenFrom(rows, t0) && RestoreRows(t, rows).ok
    ensures var r := RestoreRows(t, rows).tree;
            WellFormed(r) && AllSame(r, t0, rows) && SameElsewhere(t, r, rows, t0)
  {
    hide RestoreRows, WellFormed, TakenFrom, AllSame, SameElsewhere;
    RestoreSame(t, t0, rows);
    RestoreElsewhere(t, t0, rows);
  }

  // ---------- when an undo completes ----------

  /** A regular file stands above a path to put back, and no row restored before it clears that file away. */
  ghost predicate Obstructed(t: Tree, t0: Tree, rows: seq<Backup>, i: nat)
    requires i < |rows|
  {
    rows[i].path in t0 && exists q :: Above(q, rows[i].path) && IsFile(t, q) && !Covered(rows[i + 1..], q)
  }

  lemma BlockedMeansFile(t: Tree, p: Target)
    ensures BlockedBy(Removed(t, p), p) <==> exists q :: Above(q, p) && IsFile(t, q)
  {
    RemovedAt(t, p);
    if BlockedBy(Removed(t, p), p) {
      var q :| q in AncestorsOf(p) && q in Removed(t, p) && Removed(t, p)[q].File?;
      AncestorIsAbove(q, p);
      assert Above(q, p) && IsFile(t, q);
    }
    if q :| Above(q, p) && IsFile(t, q) {
      AncestorIsAbove(q, p);
      NotBoth(q, p);
    }
  }

  lemma LastRowCompletes(t: Tree, t0: Tree, rows: seq<Backup>)
    requires rows != [] && TakenFrom(rows, t0)
    ensures RestoreRow(t, rows[|rows| - 1]).ok <==> !Obstructed(t, t0, rows, |rows| - 1)
  {
    var n := |rows| - 1;
    assert rows[n] == BackupOf(t0, rows[n].path);
    assert rows[n + 1..] == [];
    BlockedMeansFile(t, rows[n].path);
    hide BlockedBy, Removed, Subtree, WithParents;
    if Obstructed(t, t0, rows, n) {
      var q :| Above(q, rows[n].path) && IsFile(t, q) && !Covered(rows[n + 1..], q);
    }
    if rows[n].path in t0 && exists q :: Above(q, rows[n].path) && IsFile(t, q) {
      var q :| Above(q, rows[n].path) && IsFile(t, q);
      assert !Covered(rows[n + 1..], q);
    }
  }

  lemma CoveredWithoutLast(rows: seq<Backup>, t0: Tree, i: nat, q: Path)
    requires i < |rows| - 1
    ensures Covered(rows[i + 1..], q) <==> Covered(rows[..|rows| - 1][i + 1..], q) || Under(rows[|rows| - 1].path, q)
  {
    hide Covered, Under;
    var n := |rows| - 1;
    assert rows[..n][i + 1..] == rows[i + 1..][..n - i - 1];
    CoveredSplit(rows[i + 1..], t0, n - i - 1, q);
  }

  /** Restoring a row makes no directory of the saved tree a file, and no file elsewhere appears or goes. */
  lemma FilesAround(t: Tree, t0: Tree, p: Target, q: Path)
    requires WellFormed(t) && WellFormed(t0) && RestoreRow(t, BackupOf(t0, p)).ok && q in t0 && t0[q] == Dir
    ensures var mid := RestoreRow(t, BackupOf(t0, p)).tree;
            if Under(p, q) then !IsFile(mid, q) else IsFile(mid, q) <==> IsFile(t, q)
  {
    hide RestoreRow, BackupOf, WellFormed, Above, Under;
    RestoreRowAt(t, t0, p);
  }

  lemma ObstacleKept(t: Tree, t0: Tree, rows: seq<Backup>, i: nat, q: Path)
    requires WellFormed(t) && WellFormed(t0) && TakenFrom(rows, t0) && i < |rows| - 1
    requires RestoreRow(t, rows[|rows| - 1]).ok
    requires rows[i].path in t0 && Above(q, rows[i].path)
    ensures IsFile(t, q) && !Covered(rows[i + 1..], q)
            <==> IsFile(RestoreRow(t, rows[|rows| - 1]).tree, q) && !Covered(rows[..|rows| - 1][i + 1..], q)
  {
    hide RestoreRow, BackupOf, Covered, WellFormed, Above, Under, IsFile;
    var n := |rows| - 1;
    assert rows[n] == BackupOf(t0, rows[n].path);
    AncestorsExist(t0, rows[i].path, q);
    FilesAround(t, t0, rows[n].path, q);
    CoveredWithoutLast(rows, t0, i, q);
  }

  /** Restoring the last row moves an obstruction of an earlier row neither in nor out of the way. */
  lemma ObstructionKept(t: Tree, t0: Tree, rows: seq<Backup>, i: nat)
    requires WellFormed(t) && WellFormed(t0) && TakenFrom(rows, t0) && i < |rows| - 1
    requires RestoreRow(t, rows[|rows| - 1]).ok
    ensures Obstructed(t, t0, rows, i) <==> Obstructed(RestoreRow(t, rows[|rows| - 1]).tree, t0, rows[..|rows| - 1], i)
  {
    hide RestoreRow, BackupOf, Covered, TakenFrom, WellFormed, Above, IsFile;
    var n := |rows| - 1;
    var mid := RestoreRow(t, rows[n]).tree;
    if rows[i].path in t0 {
      forall q | Above(q, rows[i].path)
        ensures IsFile(t, q) && !Covered(rows[i + 1..], q) <==> IsFile(mid, q) && !Covered(rows[..n][i + 1..], q)
      {
        ObstacleKept(t, t0, rows, i, q);
      }
    }
  }

  /**
   Exactly when an undo completes: no path to be put back has a regular file above it that the
   restoration has not already replaced.
   */
  lemma {:induction false} RestoreCompletesIff(t: Tree, t0: Tree, rows: seq<Backup>)
    requires WellFormed(t) && WellFormed(t0) && TakenFrom(rows, t0)
    ensures RestoreRows(t, rows).ok <==> forall i | 0 <= i < |rows| :: !Obstructed(t, t0, rows, i)
    decreases |rows|
  {
    if rows != [] {
      var n := |rows| - 1;
      LastRowCompletes(t, t0, rows);
      if RestoreRow(t, rows[n]).ok {
        assert rows[n] == BackupOf(t0, rows[n].path);
        RestoreRowAt(t, t0, rows[n].path);
        var mid := RestoreRow(t, rows[n]).tree;
        hide RestoreRow, BackupOf, WellFormed, SameUnder;
        RestoreCompletesIff(mid, t0, rows[..n]);
        forall i | 0 <= i < n ensures Obstructed(t, t0, rows, i) <==> Obstructed(mid, t0, rows[..n], i) {
          ObstructionKept(t, t0, rows, i);
        }
        hide Obstructed;
      }
    }
  }
}
