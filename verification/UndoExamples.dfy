/** Concrete runs in which an undo is no inverse, is obstructed, or answers without undoing anything. */
module UndoExamples {
  import opened Prelude
  import opened FileTree
  import opened FileActions
  import opened UndoGuarantees
  import opened UndoChains
  import Journal = ActionJournal
  import JournalGuarantees

  const FOLDER: Target := ["d"]
  const NESTED: Target := ["d", "f"]

  /** Writing into a missing directory and undoing that leaves the directory behind. */
  lemma DirectoryStaysBehind(limit: Limit)
    ensures var t0: Tree := map[[] := Dir];
            var e := Dispatch(t0, WriteFile(NESTED, "text"), limit);
            WellFormed(t0) && e.ok && RestoreRows(e.tree, e.rows).tree != t0
  {
    var t0: Tree := map[[] := Dir];
    var a := WriteFile(NESTED, "text");
    assert Above(FOLDER, Destination(a)) && FOLDER !in t0;
    hide WithParents, RestoreRows, BackupOf;
    UndoIsInverseIff(t0, a, limit);
  }

  function Free(limit: Limit): Journal.Policy {
    Journal.Policy(false, false, {}, limit)
  }

  const DELETION: Journal.Request := Journal.Request(Journal.Plain("a"), Delete(NESTED), "ann", None)

  lemma DeletionRuns(tree: Tree, limit: Limit)
    requires NESTED in tree && limit(Subtree(tree, NESTED))
    ensures var deleted := Journal.Execute(Journal.Opened(tree), Free(limit), DELETION, None, 0, 0);
            deleted.result.Success? && deleted.state.actions.Keys == {DELETION.id}
    ensures Dispatch(tree, DELETION.action, limit).rows == [BackupOf(tree, NESTED)]
  {
    hide Subtree, Removed;
  }

  lemma FileInTheWay(tree: Tree, changed: Tree)
    requires NESTED in tree && FOLDER in changed && changed[FOLDER].File?
    ensures Obstructed(changed, tree, [BackupOf(tree, NESTED)], 0)
  {
    assert Above(FOLDER, NESTED) && IsFile(changed, FOLDER);
  }

  const BEFORE: Tree := map[[] := Dir, FOLDER := Dir, NESTED := File("text")]
  const CHANGED: Tree := map[[] := Dir, FOLDER := File("other")]

  lemma TreesAreWellFormed()
    ensures WellFormed(BEFORE) && WellFormed(CHANGED)
  {
    assert Parent(NESTED) == FOLDER && Parent(FOLDER) == [];
  }

  lemma OutsideEdit(s: Journal.Runtime, policy: Journal.Policy, tree: Tree)
    ensures Journal.Play(s, policy, [Journal.Timed(Journal.Outside(tree), 0, 0)]) == s.(tree := tree)
    ensures Journal.Play(s, policy, []) == s
  {
    var outside := [Journal.Timed(Journal.Outside(tree), 0, 0)];
    assert outside[..0] == [] && Journal.Play(s, policy, outside[..0]) == s;
  }

  /** A file is deleted, and a file takes the place of its directory: the deletion can no longer be undone. */
  lemma UndoCanBeObstructed()
    ensures var policy := Free(_ => true);
            var deleted := Journal.Execute(Journal.Opened(BEFORE), policy, DELETION, None, 0, 0);
            var later := Journal.Play(deleted.state, policy, [Journal.Timed(Journal.Outside(CHANGED), 0, 0)]);
            deleted.result.Success? && Journal.Undo(later, DELETION.id, None, "ann", 1, 1).result.Failure?
  {
    hide Journal.Execute, Journal.Undo, Journal.Play, RestoreRows, Subtree, BackupOf, WellFormed, Dispatch, Obstructed;
    var policy := Free(_ => true);
    TreesAreWellFormed();
    DeletionRuns(BEFORE, policy.limit);
    FileInTheWay(BEFORE, CHANGED);
    var deleted := Journal.Execute(Journal.Opened(BEFORE), policy, DELETION, None, 0, 0);
    OutsideEdit(deleted.state, policy, CHANGED);
    OutsideEdit(Journal.Opened(BEFORE), policy, CHANGED);
    JournalGuarantees.UndoAfterAnything(BEFORE, policy, [], DELETION, None, 0, 0,
                                        [Journal.Timed(Journal.Outside(CHANGED), 0, 0)], None, "ann", 1, 1);
  }

  const NOTE: Target := ["n"]
  const FILED: Tree := map[[] := Dir, FOLDER := Dir, NESTED := File("text"), NOTE := File("note")]
  const READING: Journal.Request := Journal.Request(Journal.Plain("b"), ReadFile(NOTE), "bob", None)

  /** The deletion as it goes through, on a workspace with another file besides. */
  lemma DeletionRemoves(limit: Limit)
    requires limit(Subtree(FILED, NESTED))
    ensures var deleted := Journal.Execute(Journal.Opened(FILED), Free(limit), DELETION, None, 0, 0);
            && deleted.result.Success?
            && deleted.state.actions.Keys == {DELETION.id}
            && Journal.GetResult(deleted.state.actions, DELETION.id) == Some(deleted.result.value)
            && deleted.result.value.reversible
            && NESTED !in deleted.state.tree && NOTE in deleted.state.tree && deleted.state.tree[NOTE].File?
  {
    hide Subtree;
  }

  lemma ReadingRuns(s: Journal.Runtime, policy: Journal.Policy)
    requires NOTE in s.tree && s.tree[NOTE].File? && READING.id !in s.actions
    ensures var read := Journal.Execute(s, policy, READING, None, 1, 1);
            && read.result.Success? && read.state.tree == s.tree
            && read.state.actions.Keys == s.actions.Keys + {READING.id}
            && (forall id | id in s.actions :: read.state.actions[id] == s.actions[id])
            && Journal.GetResult(read.state.actions, READING.id) == Some(read.result.value)
  {
  }

  /**
   A file is deleted, another one is read, and the deletion is undone under the id of the read: the
   answer is the read's result, a success, and the deleted file stays deleted.
   */
  lemma UndoUnderAnotherIdRestoresNothing()
    ensures var policy := Free(_ => true);
            var deleted := Journal.Execute(Journal.Opened(FILED), policy, DELETION, None, 0, 0);
            var read := Journal.Execute(deleted.state, policy, READING, None, 1, 1);
            var undone := Journal.Undo(read.state, DELETION.id, Some(READING.id), "ann", 2, 2);
            && deleted.result.Success? && read.result.Success?
            && undone.result == read.result && undone.state == read.state
            && NESTED in FILED && NESTED !in undone.state.tree
  {
    hide Journal.Execute, Journal.Undo, Subtree;
    var policy := Free(_ => true);
    DeletionRemoves(policy.limit);
    var deleted := Journal.Execute(Journal.Opened(FILED), policy, DELETION, None, 0, 0);
    ReadingRuns(deleted.state, policy);
    var read := Journal.Execute(deleted.state, policy, READING, None, 1, 1);
    JournalGuarantees.UndoReplays(read.state, DELETION.id, Some(READING.id), "ann", 2, 2);
  }
}
