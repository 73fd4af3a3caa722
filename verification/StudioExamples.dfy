/** A concrete run in which a publication is recorded whose file was never written. */
module StudioExamples {
  import opened Prelude
  import opened FileTree
  import opened ArtifactStudio
  import opened StudioGuarantees
  import Journal = ActionJournal

  const DOCUMENT: Target := ["a.txt"]
  const PAGE: SpelledPath := Spelled("a.txt", DOCUMENT)
  const WORKSPACE: Tree := map[[] := Dir, DOCUMENT := File("old")]

  function Plainly(): Settings {
    Settings(_ => true, text => text, 1000)
  }

  /** A draft over an existing file, approved by someone else. */
  function Prepared(): seq<Timed> {
    [Timed(CallCreateDraft("doc", PAGE, "Page", "ann", Some("new")), 0),
     Timed(CallReview("doc", 1, "bob", Approved, "fine", 0), 1)]
  }

  lemma DraftThere()
    ensures var s := CreateDraft(EMPTY, Plainly(), WORKSPACE, "doc", PAGE, "Page", "ann", Some("new"), 0).studio;
            && "doc" in s.artifacts && s.artifacts["doc"].path == PAGE && s.artifacts["doc"].currentVersion == 1
            && RowsOf(s.versions, "doc") == [VersionRow(1, "new", Sha("new"), None, Some(Sha("old")), "ann", 0, Draft)]
            && s.reviews == [] && s.publications == []
  {
    hide TitleOf, Append;
    assert IsArtifactId("doc");
    UtfThree("new");
  }

  lemma UtfThree(s: string)
    requires |s| == 3
    ensures Utf8Length(s) <= 12
  {
    assert Utf8Length(s[..2]) <= 8 by {
      assert Utf8Length(s[..2][..1]) <= 4 by { assert Utf8Length(s[..2][..1][..0]) == 0; }
    }
  }

  lemma ReviewThere(s: Studio)
    requires "doc" in s.artifacts && s.artifacts["doc"].path == PAGE && s.artifacts["doc"].currentVersion == 1
    requires RowsOf(s.versions, "doc") == [VersionRow(1, "new", Sha("new"), None, Some(Sha("old")), "ann", 0, Draft)]
    requires s.reviews == [] && s.publications == []
    ensures var t := Review(s, "doc", 1, "bob", Approved, "fine", 0, 1).studio;
            && "doc" in t.artifacts && t.artifacts["doc"].path == PAGE
            && GetCurrent(t, "doc")
               == Success(VersionRow(1, "new", Sha("new"), None, Some(Sha("old")), "ann", 0, Draft))
            && ApprovingReview(t, "doc", GetCurrent(t, "doc").value).Some? && t.publications == []
  {
    hide Append;
    assert !Blank("fine") by { assert !IsSpace("fine"[0]) && !IsSpace("fine"[3]); }
    hide Blank;
    var rows := RowsOf(s.versions, "doc");
    var t := Review(s, "doc", 1, "bob", Approved, "fine", 0, 1).studio;
    assert t.reviews == [ReviewRow(0, "doc", 1, "bob", Approved, "fine", Sha("new"), 1)];
    assert LatestReview(t.reviews[..0], "doc", 1, Sha("new")) == None;
  }

  /** The backup of every existing file is refused as too large. */
  function Strict(): Journal.Policy {
    Journal.Policy(false, false, {}, _ => false)
  }

  lemma PreparedWorld()
    ensures var w := Play(WORKSPACE, Plainly(), Strict(), Prepared());
            var s := w.studio;
            && w.runtime == Journal.Opened(WORKSPACE)
            && "doc" in s.artifacts && s.artifacts["doc"].path == PAGE
            && GetCurrent(s, "doc")
               == Success(VersionRow(1, "new", Sha("new"), None, Some(Sha("old")), "ann", 0, Draft))
            && ApprovingReview(s, "doc", GetCurrent(s, "doc").value).Some? && s.publications == []
  {
    hide CreateDraft, Review, GetCurrent, ApprovingReview, RowsOf;
    DraftThere();
    var one := CreateDraft(EMPTY, Plainly(), WORKSPACE, "doc", PAGE, "Page", "ann", Some("new"), 0).studio;
    ReviewThere(one);
    var calls := Prepared();
    assert calls[..|calls| - 1] == calls[..1] && calls[..1][..0] == [];
    assert Play(WORKSPACE, Plainly(), Strict(), calls[..1][..0]) == World(EMPTY, Journal.Opened(WORKSPACE));
    assert Play(WORKSPACE, Plainly(), Strict(), calls[..1]) == World(one, Journal.Opened(WORKSPACE));
  }

  lemma WriteRefused(current: VersionRow)
    requires current.content == "new" && current.version == 1
    ensures var request := PublishRequest("doc", PAGE, current, "cat");
            && Journal.PlanFor(WORKSPACE, Strict(), request.action).Success?
            && !Journal.PlanFor(WORKSPACE, Strict(), request.action).value.requiresApproval
            && Journal.Execute(Journal.Opened(WORKSPACE), Strict(), request, None, 2, 2).result
               == Failure(Journal.DispatchFailed)
  {
    hide Subtree;
  }

  lemma FirstPublishFails(s: Studio)
    requires "doc" in s.artifacts && s.artifacts["doc"].path == PAGE
    requires GetCurrent(s, "doc") == Success(VersionRow(1, "new", Sha("new"), None, Some(Sha("old")), "ann", 0, Draft))
    requires ApprovingReview(s, "doc", GetCurrent(s, "doc").value).Some? && s.publications == []
    ensures Publish(s, Journal.Opened(WORKSPACE), Strict(), "doc", "cat", None, false, "", 2).result
            == Failure(Runtime(Journal.DispatchFailed))
  {
    var current := GetCurrent(s, "doc").value;
    hide GetCurrent, ApprovingReview, Journal.Execute, Journal.PlanFor, Record;
    WriteRefused(current);
    assert WorkspaceHash(WORKSPACE, DOCUMENT) == Some(Sha("old"));
    assert CheckPublish(s, WORKSPACE, "doc").Ready?;
  }

  /**
   A reachable studio in which the write of an approved draft fails and publishing again is
   recorded as a success: the workspace keeps the old text, and the record names two different hashes.
   */
  lemma UnwrittenPublicationIsReachable()
    ensures var w := Play(WORKSPACE, Plainly(), Strict(), Prepared());
            var failed := Publish(w.studio, w.runtime, Strict(), "doc", "cat", None, false, "", 2);
            var again := Publish(failed.studio, failed.runtime, Strict(), "doc", "cat", None, false, "", 3);
            && failed.result == Failure(Runtime(Journal.DispatchFailed))
            && again.result.Success? && again.runtime.tree == WORKSPACE
            && again.studio.publications == [again.result.value.publication]
            && again.result.value.publication.contentHash == Sha("new")
            && again.result.value.publication.workspaceHash == Sha("old")
  {
    hide Play, Publish, GetCurrent, ApprovingReview, Consistent;
    PreparedWorld();
    var w := Play(WORKSPACE, Plainly(), Strict(), Prepared());
    PlayConsistent(WORKSPACE, Plainly(), Strict(), Prepared());
    FirstPublishFails(w.studio);
    assert WorkspaceHash(WORKSPACE, DOCUMENT) == Some(Sha("old"));
    FailedWriteThenRecorded(w.studio, w.runtime, Strict(), "doc", "cat", None, false, "", 2, None, "", 3);
    var failed := Publish(w.studio, w.runtime, Strict(), "doc", "cat", None, false, "", 2);
    RecordedPublication(w.studio, failed.runtime, Strict(), "doc", "cat", None, false, "", 3);
    ReadyMeansApproved(w.studio, failed.runtime.tree, "doc");
  }
}
