/** Where the versions of a reachable studio came from: each was drafted or saved by one call of the run. */
module StudioHistory {
  import opened Prelude
  import opened FileTree
  import opened ArtifactStudio
  import opened StudioGuarantees
  import opened StudioEdits
  import Journal = ActionJournal

  /**
   The call drafted or saved this version: as the artifact's first, or on the newest version, which
   was the one its author expected.
   */
  ghost predicate AddedBy(s: Studio, c: Timed, artifact: string, row: VersionRow) {
    match c.call
    case CallCreateDraft(id, _, _, author, content) =>
      && id == artifact && RowsOf(s.versions, artifact) == [] && row.author == author
      && (content.Some? ==> row.content == content.value)
    case CallSaveVersion(id, text, author, expected) =>
      && id == artifact && HasArtifact(s, artifact) && Newest(s, artifact).hash == expected
      && row.content == text && row.author == author && row.parent == Some(expected)
    case _ => false
  }

  /** A step keeps every version's number, content, hash, parent and author, and adds at most one, as its call says. */
  ghost predicate VersionStep(s: Studio, after: Studio, c: Timed) {
    forall a ::
      var before, rows := RowsOf(s.versions, a), RowsOf(after.versions, a);
      && RowsKept(before, rows)
      && (|rows| == |before| || (|rows| == |before| + 1 && AddedBy(s, c, a, rows[|before|])))
  }

  lemma SameVersionsStep(s: Studio, after: Studio, c: Timed)
    requires after.versions == s.versions
    ensures VersionStep(s, after, c)
  {
    SameVersions(s.versions);
    hide RowsOf, RowsKept;
  }

  lemma ExtendedStep(s: Studio, after: Studio, c: Timed, artifact: string, row: VersionRow)
    requires Extended(s, after, artifact, row) && AddedBy(s, c, artifact, row)
    ensures VersionStep(s, after, c)
  {
    hide RowsOf, AddedBy;
  }

  /** Publishing updates at most the rows of the published version. */
  lemma PublishedVersions(s: Studio, rt: Journal.Runtime, policy: Journal.Policy, artifact: string,
                          publishedBy: string, approval: Option<Journal.Approval>, issue: bool, approvalId: string,
                          now: int)
    ensures var r := Publish(s, rt, policy, artifact, publishedBy, approval, issue, approvalId, now);
            && (r.studio.versions != s.versions ==>
                  && CheckPublish(s, rt.tree, artifact).Ready? && artifact in s.artifacts
                  && r.studio.versions
                     == s.versions[artifact :=
                                     UpdateVersion(RowsOf(s.versions, artifact),
                                                   CheckPublish(s, rt.tree, artifact).current.version,
                                                   WorkspaceHash(r.runtime.tree, s.artifacts[artifact].path.target))])
  {
    ReadyMeansApproved(s, rt.tree, artifact);
    hide CheckPublish, WithApproval, Journal.Execute, UpdateVersion, WorkspaceHash, Append;
  }

  lemma UpdatedStep(s: Studio, after: Studio, c: Timed, artifact: string, version: int, base: Option<Hash>)
    requires after.versions == s.versions[artifact := UpdateVersion(RowsOf(s.versions, artifact), version, base)]
    ensures VersionStep(s, after, c)
  {
    UpdateAt(RowsOf(s.versions, artifact), version, base);
    SameVersions(s.versions);
    hide UpdateVersion;
  }

  lemma PublishStep(s: Studio, rt: Journal.Runtime, policy: Journal.Policy, artifact: string, publishedBy: string,
                    approval: Option<Journal.Approval>, issue: bool, approvalId: string, c: Timed)
    ensures VersionStep(s, Publish(s, rt, policy, artifact, publishedBy, approval, issue, approvalId, c.now).studio, c)
  {
    PublishedVersions(s, rt, policy, artifact, publishedBy, approval, issue, approvalId, c.now);
    var r := Publish(s, rt, policy, artifact, publishedBy, approval, issue, approvalId, c.now);
    hide Publish, CheckPublish, UpdateVersion, WorkspaceHash, VersionStep;
    if r.studio.versions == s.versions {
      SameVersionsStep(s, r.studio, c);
    } else {
      UpdatedStep(s, r.studio, c, artifact, CheckPublish(s, rt.tree, artifact).current.version,
                  WorkspaceHash(r.runtime.tree, s.artifacts[artifact].path.target));
    }
  }

  lemma PerformStep(w: World, settings: Settings, policy: Journal.Policy, c: Timed)
    requires Consistent(w.studio)
    ensures VersionStep(w.studio, Perform(w, settings, policy, c).studio, c)
  {
    hide Consistent, CreateDraft, SaveVersion, Review, Publish, VersionStep, Extended;
    var s := w.studio;
    SameVersionsStep(s, s, c);
    match c.call
    case CallCreateDraft(artifact, path, title, author, content) =>
      DraftIff(s, settings, w.runtime.tree, artifact, path, title, author, content, c.now);
      var r := CreateDraft(s, settings, w.runtime.tree, artifact, path, title, author, content, c.now);
      if r.result.Success? {
        ExtendedStep(s, r.studio, c, artifact, r.result.value);
      }
    case CallSaveVersion(artifact, text, author, expected) =>
      SaveIff(s, settings, artifact, text, author, expected, c.now);
      var r := SaveVersion(s, settings, artifact, text, author, expected, c.now);
      if r.result.Success? && Sha(text) != expected {
        ExtendedStep(s, r.studio, c, artifact, r.result.value);
      }
    case CallReview(artifact, version, reviewer, verdict, rationale, id) =>
      ReviewIff(s, artifact, version, reviewer, verdict, rationale, id, c.now);
      SameVersionsStep(s, Perform(w, settings, policy, c).studio, c);
    case CallPublish(artifact, publishedBy, approval, issue, approvalId) =>
      PublishStep(s, w.runtime, policy, artifact, publishedBy, approval, issue, approvalId, c);
    case CallRuntime(_) =>
  }

  /** Call `n` of the run added version `i + 1` of the artifact, and it has been kept since. */
  ghost predicate SavedAt(tree: Tree, settings: Settings, policy: Journal.Policy, calls: seq<Timed>, n: nat,
                          artifact: string, i: nat)
    requires n < |calls|
  {
    hide Perform, AddedBy;
    var before := Play(tree, settings, policy, calls[..n]);
    var after := RowsOf(Perform(before, settings, policy, calls[n]).studio.versions, artifact);
    && |RowsOf(before.studio.versions, artifact)| == i && |after| == i + 1
    && AddedBy(before.studio, calls[n], artifact, after[i])
    && RowsKept(after, RowsOf(Play(tree, settings, policy, calls).studio.versions, artifact))
  }

  /**
   No edit is lost: every version of a reachable studio was added by one call of the run, the first as
   a draft and every later one by a save that expected the hash of the version just before it.
   */
  lemma {:induction false} EveryVersionWasSaved(tree: Tree, settings: Settings, policy: Journal.Policy,
                                                calls: seq<Timed>, artifact: string, i: nat)
    requires i < |RowsOf(Play(tree, settings, policy, calls).studio.versions, artifact)|
    ensures exists n: nat :: n < |calls| && SavedAt(tree, settings, policy, calls, n, artifact, i)
  {
    hide Perform, SavedAt, Consistent, RowsKept, AddedBy, RowsOf;
    if calls != [] {
      var n := |calls| - 1;
      var before := Play(tree, settings, policy, calls[..n]);
      PlayConsistent(tree, settings, policy, calls[..n]);
      PerformStep(before, settings, policy, calls[n]);
      if i < |RowsOf(before.studio.versions, artifact)| {
        EveryVersionWasSaved(tree, settings, policy, calls[..n], artifact, i);
        var k: nat :| k < n && SavedAt(tree, settings, policy, calls[..n], k, artifact, i);
        SavedStays(tree, settings, policy, calls, k, artifact, i);
      } else {
        SavedLast(tree, settings, policy, calls, artifact, i);
      }
    } else {
      NothingPlayed(tree, settings, policy, artifact);
    }
  }

  lemma NothingPlayed(tree: Tree, settings: Settings, policy: Journal.Policy, artifact: string)
    ensures RowsOf(Play(tree, settings, policy, []).studio.versions, artifact) == []
  {
  }

  lemma SavedStays(tree: Tree, settings: Settings, policy: Journal.Policy, calls: seq<Timed>, n: nat,
                   artifact: string, i: nat)
    requires calls != [] && n < |calls| - 1
    requires SavedAt(tree, settings, policy, calls[..|calls| - 1], n, artifact, i)
    requires RowsKept(RowsOf(Play(tree, settings, policy, calls[..|calls| - 1]).studio.versions, artifact),
                      RowsOf(Play(tree, settings, policy, calls).studio.versions, artifact))
    ensures SavedAt(tree, settings, policy, calls, n, artifact, i)
  {
    hide Play, Perform, AddedBy, RowsOf;
    assert calls[..|calls| - 1][..n] == calls[..n];
  }

  lemma SavedLast(tree: Tree, settings: Settings, policy: Journal.Policy, calls: seq<Timed>, artifact: string, i: nat)
    requires calls != []
    requires var before := Play(tree, settings, policy, calls[..|calls| - 1]).studio;
             var after := Play(tree, settings, policy, calls).studio;
             && |RowsOf(before.versions, artifact)| <= i < |RowsOf(after.versions, artifact)|
             && VersionStep(before, after, calls[|calls| - 1])
    ensures SavedAt(tree, settings, policy, calls, |calls| - 1, artifact, i)
  {
    hide Perform, AddedBy, RowsOf;
    KeptItself(RowsOf(Play(tree, settings, policy, calls).studio.versions, artifact));
  }
}
