/**
 The workspace as a tree of files and directories, and the file actions on it.

 A tree maps every existing path, written as its components below the root, to what is there.
 Symbolic links, permission bits and encodings are not part of this model.
 */
module FileTree {

  type Path = seq<string>

  /** Anything but the workspace root itself. */
  type Target = p: Path | p != [] witness ["file"]

  datatype Node = File(content: string) | Dir

  type Tree = map<Path, Node>

  /** `q` is `p` or lies below it. */
  predicate Under(p: Path, q: Path) {
    |p| <= |q| && q[..|p|] == p
  }

  predicate Above(p: Path, q: Path) {
    |p| < |q| && q[..|p|] == p
  }

  function Parent(p: Target): Path {
    p[..|p| - 1]
  }

  /** The root is a directory, and whatever exists lies in an existing directory. */
  ghost predicate WellFormed(t: Tree) {
    && [] in t && t[[]] == Dir
    && forall p | p in t && p != [] :: Parent(p) in t && t[Parent(p)] == Dir
  }

  function Subtree(t: Tree, p: Path): Tree {
    map q | q in t && Under(p, q) :: t[q]
  }

  function Removed(t: Tree, p: Path): Tree {
    map q | q in t && !Under(p, q) :: t[q]
  }

  function AncestorsOf(p: Path): set<Path> {
    set i | 0 <= i < |p| :: p[..i]
  }

  predicate BlockedBy(t: Tree, p: Path) {
    exists q | q in AncestorsOf(p) :: q in t && t[q].File?
  }

  /** `mkdir -p` of a path's parent; it fails, creating nothing, when an ancestor is a regular file. */
  function WithParents(t: Tree, p: Path): Tree {
    (map q | q in AncestorsOf(p) :: Dir) + t
  }

  // ---------- prefixes ----------

  lemma UnderTransitive(a: Path, b: Path, c: Path)
    requires Under(a, b) && Under(b, c)
    ensures Under(a, c)
  {
    assert c[..|a|] == c[..|b|][..|a|];
  }

  lemma AncestorIsAbove(q: Path, p: Path)
    ensures q in AncestorsOf(p) <==> Above(q, p)
  {
    if Above(q, p) {
      assert q == p[..|q|];
    }
  }

  /** Every ancestor of something that exists is an existing directory. */
  lemma {:induction false} AncestorsExist(t: Tree, p: Path, q: Path)
    requires WellFormed(t) && p in t && Above(q, p)
    ensures q in t && t[q] == Dir
    decreases |p|
  {
    var up := Parent(p);
    if q != up {
      assert Above(q, up) by { assert up[..|q|] == p[..|q|]; }
      AncestorsExist(t, up, q);
    }
  }

  // ---------- trees stay well formed ----------

  lemma RemovedWellFormed(t: Tree, p: Target)
    requires WellFormed(t)
    ensures WellFormed(Removed(t, p))
  {
    var r := Removed(t, p);
    forall q | q in r && q != [] ensures Parent(q) in r && r[Parent(q)] == Dir {
      if Under(p, Parent(q)) {
        assert Under(Parent(q), q);
        UnderTransitive(p, Parent(q), q);
      }
    }
  }

  lemma WithParentsWellFormed(t: Tree, p: Path)
    requires WellFormed(t) && !BlockedBy(t, p)
    ensures WellFormed(WithParents(t, p))
    ensures forall q :: q in WithParents(t, p) <==> q in t || Above(q, p)
    ensures forall q | q in WithParents(t, p) :: WithParents(t, p)[q] == if q in t then t[q] else Dir
    ensures forall q | Above(q, p) :: q in WithParents(t, p) && WithParents(t, p)[q] == Dir
  {
    var r := WithParents(t, p);
    forall q ensures q in r <==> q in t || Above(q, p) { AncestorIsAbove(q, p); }
    forall q | Above(q, p) ensures q in r && r[q] == Dir {
      AncestorIsAbove(q, p);
      if q in t {
        assert q in AncestorsOf(p);
        assert !t[q].File?;
      }
    }
    forall q | q in r && q != [] ensures Parent(q) in r && r[Parent(q)] == Dir {
      if q !in t {
        assert Above(Parent(q), p) by { assert Parent(q) == p[..|q| - 1]; }
      }
    }
  }

  /** Putting one file or empty directory into an existing directory. */
  lemma PutWellFormed(t: Tree, p: Target, node: Node)
    requires WellFormed(t) && Parent(p) in t && t[Parent(p)] == Dir
    requires p in t ==> t[p] == node || t[p].File?
    ensures WellFormed(t[p := node])
  {
    var r := t[p := node];
    forall q | q in r && q != [] ensures Parent(q) in r && r[Parent(q)] == Dir {
      if q != p && Parent(q) == p {
        assert q in t && t[p] == Dir;
      }
    }
  }
}
