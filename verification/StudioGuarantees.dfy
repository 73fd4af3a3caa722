/**
 What Artifact Studio guarantees over any run of drafts, reviews, publications and whatever else
 happens to the runtime and the workspace in between.
 */
module StudioGuarantees {
  import opened Prelude
  import opened FileTree
  import opened FileActions
  import opened ArtifactStudio
  import Journal = ActionJournal
  import JournalGuarantees
  import HashChain

  // ---------- versions ----------

  /** Row `i` has number `i + 1`, the hash of its content, and its predecessor's hash as parent. */
  ghost predicate VersionAt(rows: seq<VersionRow>, i: nat)
    requires i < |rows|
  {
    && rows[i].version == i + 1
    && rows[i].hash == Sha(rows[i].content)
    && rows[i].parent == if i == 0 then None else Some(rows[i - 1].hash)
  }

  ghost predicate VersionChain(rows: seq<VersionRow>) {
    forall i | 0 <= i < |rows| :: VersionAt(rows, i)
  }

  ghost predicate ArtifactsFit(artifacts: map<string, ArtifactRow>, versions: map<string, seq<VersionRow>>) {
    && (forall a | a in versions :: a in artifacts)
    && (forall a | a in artifacts ::
          VersionChain(RowsOf(versions, a)) && 1 <= artifacts[a].currentVersion == |RowsOf(versions, a)|)
  }

  lemma ChainPrefix(rows: seq<VersionRow>, n: nat)
    requires VersionChain(rows) && n <= |rows|
    ensures VersionChain(rows[..n])
  {
    var shorter := rows[..n];
    forall i | 0 <= i < |shorter| ensures VersionAt(shorter, i) {
      assert VersionAt(rows, i);
    }
  }

  lemma ChainAppend(rows: seq<VersionRow>, row: VersionRow)
    requires VersionChain(rows) && row.version == |rows| + 1 && row.hash == Sha(row.content)
    requires row.parent == if rows == [] then None else Some(rows[|rows| - 1].hash)
    ensures VersionChain(rows + [row])
  {
    var longer := rows + [row];
    forall i | 0 <= i < |longer| ensures VersionAt(longer, i) {
      if i < |rows| {
        assert VersionAt(rows, i);
      }
    }
  }

  lemma ChainKept(rows: seq<VersionRow>, after: seq<VersionRow>)
    requires VersionChain(rows) && RowsKept(rows, after) && |after| == |rows|
    ensures VersionChain(after)
  {
    forall i | 0 <= i < |after| ensures VersionAt(after, i) {
      assert VersionAt(rows, i);
    }
  }

  lemma {:induction false} FindInChain(rows: seq<VersionRow>, version: int)
    requires VersionChain(rows)
    ensures FindVersion(rows, version) == if 1 <= version <= |rows| then Some(rows[version - 1]) else None
  {
    if rows != [] {
      assert VersionAt(rows, |rows| - 1);
      ChainPrefix(rows, |rows| - 1);
      FindInChain(rows[..|rows| - 1], version);
    }
  }

  lemma {:induction false} UpdateAt(rows: seq<VersionRow>, version: int, base: Option<Hash>)
    ensures |UpdateVersion(rows, version, base)| == |rows|
    ensures forall i | 0 <= i < |rows| ::
              UpdateVersion(rows, version, base)[i] ==
              if rows[i].version == version then rows[i].(status := Published, base := base) else rows[i]
  {
    if rows != [] {
      UpdateAt(rows[..|rows| - 1], version, base);
    }
  }

  /** Version rows keep number, content, hash, parent and author for good; only status and base of a row may change. */
  ghost predicate RowsKept(before: seq<VersionRow>, after: seq<VersionRow>) {
    && |before| <= |after|
    && forall i | 0 <= i < |before| ::
         after[i].version == before[i].version && after[i].content == before[i].content
         && after[i].hash == before[i].hash
         && after[i].parent == before[i].parent && after[i].author == before[i].author
  }

  ghost predicate VersionsKept(before: map<string, seq<VersionRow>>, after: map<string, seq<VersionRow>>) {
    forall a :: RowsKept(RowsOf(before, a), RowsOf(after, a))
  }

  // ---------- reviews and publications ----------

  ghost predicate ReviewFits(r: ReviewRow, versions: map<string, seq<VersionRow>>) {
    var rows := RowsOf(versions, r.artifact);
    1 <= r.version <= |rows| && r.hash == rows[r.version - 1].hash && r.reviewer != rows[r.version - 1].author
  }

  ghost predicate ReviewsFit(reviews: seq<ReviewRow>, versions: map<string, seq<VersionRow>>) {
    forall r | r in reviews :: ReviewFits(r, versions)
  }

  /** An approval of exactly this version and content by someone other than its author. */
  ghost predicate IndependentlyApproved(reviews: seq<ReviewRow>, artifact: string, row: VersionRow) {
    exists r :: r in reviews && ReviewsVersion(r, artifact, row.version, row.hash) && r.verdict == Approved
                && r.reviewer != row.author
  }

  ghost predicate PublicationFits(p: PublicationRow, reviews: seq<ReviewRow>, versions: map<string, seq<VersionRow>>) {
    var rows := RowsOf(versions, p.artifact);
    && 1 <= p.version <= |rows|
    && p.contentHash == rows[p.version - 1].hash
    && p.action == Journal.PublishOf(p.artifact, p.version)
    && IndependentlyApproved(reviews, p.artifact, rows[p.version - 1])
  }

  ghost predicate PublicationsFit(publications: seq<PublicationRow>, reviews: seq<ReviewRow>,
                                  versions: map<string, seq<VersionRow>>) {
    forall p | p in publications :: PublicationFits(p, reviews, versions)
  }

  ghost predicate OncePerVersion(publications: seq<PublicationRow>) {
    forall i, j | 0 <= i < j < |publications| ::
      publications[i].artifact != publications[j].artifact || publications[i].version != publications[j].version
  }

  // ---------- the base hash carried along a lineage ----------

  ghost predicate PublishedAs(publications: seq<PublicationRow>, artifact: string, version: int, hash: Hash) {
    exists p :: p in publications && p.artifact == artifact && p.version == version && p.workspaceHash == hash
  }

  ghost predicate Unpublished(publications: seq<PublicationRow>, artifact: string, version: int) {
    forall p | p in publications :: p.artifact != artifact || p.version != version
  }

  /**
   A published version's base is what its publication left in the workspace; any other inherits its
   predecessor's base.
   */
  ghost predicate BaseFits(artifact: string, rows: seq<VersionRow>, i: nat, publications: seq<PublicationRow>)
    requires i < |rows|
  {
    || (Unpublished(publications, artifact, i + 1) && (i > 0 ==> rows[i].base == rows[i - 1].base))
    || (rows[i].base.Some? && PublishedAs(publications, artifact, i + 1, rows[i].base.value))
  }

  ghost predicate LineagesFit(versions: map<string, seq<VersionRow>>, publications: seq<PublicationRow>) {
    forall a, i: nat | a in versions && i < |versions[a]| :: BaseFits(a, versions[a], i, publications)
  }

  ghost predicate Consistent(s: Studio) {
    && ArtifactsFit(s.artifacts, s.versions)
    && HashChain.Linked(s.events)
    && ReviewsFit(s.reviews, s.versions)
    && PublicationsFit(s.publications, s.reviews, s.versions)
    && OncePerVersion(s.publications)
    && LineagesFit(s.versions, s.publications)
  }

  // ---------- monotonicity ----------

  lemma ReviewsStay(reviews: seq<ReviewRow>, before: map<string, seq<VersionRow>>, after: map<string, seq<VersionRow>>)
    requires ReviewsFit(reviews, before) && VersionsKept(before, after)
    ensures ReviewsFit(reviews, after)
  {
    forall r | r in reviews ensures ReviewFits(r, after) {
      assert ReviewFits(r, before) && RowsKept(RowsOf(before, r.artifact), RowsOf(after, r.artifact));
      hide RowsOf;
    }
  }

  lemma PublicationsStay(publications: seq<PublicationRow>, reviews: seq<ReviewRow>, more: seq<ReviewRow>,
                         before: map<string, seq<VersionRow>>, after: map<string, seq<VersionRow>>)
    requires PublicationsFit(publications, reviews, before) && VersionsKept(before, after)
    requires forall r | r in reviews :: r in more
    ensures PublicationsFit(publications, more, after)
  {
    forall p | p in publications ensures PublicationFits(p, more, after) {
      assert PublicationFits(p, reviews, before) && RowsKept(RowsOf(before, p.artifact), RowsOf(after, p.artifact));
      hide RowsOf;
      var row := RowsOf(before, p.artifact)[p.version - 1];
      var r :| r in reviews && ReviewsVersion(r, p.artifact, row.version, row.hash) && r.verdict == Approved
               && r.reviewer != row.author;
      assert r in more;
    }
  }

  lemma AppendedVersion(artifacts: map<string, ArtifactRow>, versions: map<string, seq<VersionRow>>, a: string,
                        row: VersionRow, artifact: ArtifactRow)
    requires ArtifactsFit(artifacts, versions)
    requires var rows := RowsOf(versions, a);
             row.version == |rows| + 1 == artifact.currentVersion && row.hash == Sha(row.content)
             && row.parent == (if rows == [] then None else Some(rows[|rows| - 1].hash))
             && VersionChain(rows)
    ensures ArtifactsFit(artifacts[a := artifact], versions[a := RowsOf(versions, a) + [row]])
    ensures VersionsKept(versions, versions[a := RowsOf(versions, a) + [row]])
  {
    var rows := RowsOf(versions, a);
    var after := versions[a := rows + [row]];
    ChainAppend(rows, row);
    hide VersionChain;
    forall b ensures RowsKept(RowsOf(versions, b), RowsOf(after, b)) {
      if b != a {
        assert RowsOf(after, b) == RowsOf(versions, b);
      }
    }
    hide RowsKept;
    forall b | b in artifacts[a := artifact] ensures VersionChain(RowsOf(after, b)) {
      if b != a {
        assert RowsOf(after, b) == RowsOf(versions, b);
      }
    }
  }

  lemma AppendedLineage(versions: map<string, seq<VersionRow>>, publications: seq<PublicationRow>,
                        reviews: seq<ReviewRow>, a: string, row: VersionRow)
    requires LineagesFit(versions, publications) && PublicationsFit(publications, reviews, versions)
    requires var rows := RowsOf(versions, a); rows != [] ==> row.base == rows[|rows| - 1].base
    ensures LineagesFit(versions[a := RowsOf(versions, a) + [row]], publications)
  {
    var after := versions[a := RowsOf(versions, a) + [row]];
    forall b, i: nat | b in after && i < |after[b]| ensures BaseFits(b, after[b], i, publications) {
      if b != a {
        assert BaseFits(b, versions[b], i, publications);
      } else if i < |RowsOf(versions, a)| {
        assert BaseFits(a, versions[a], i, publications);
        hide Unpublished, PublishedAs;
      } else {
        forall p | p in publications ensures p.artifact != a || p.version != i + 1 {
          assert PublicationFits(p, reviews, versions);
        }
      }
    }
  }

  // ---------- one lemma per call ----------

  lemma CreateDraftConsistent(s: Studio, settings: Settings, workspace: Tree, artifact: string, path: SpelledPath,
                              title: string, author: string, content: Option<string>, now: int)
    requires Consistent(s)
    ensures Consistent(CreateDraft(s, settings, workspace, artifact, path, title, author, content, now).studio)
  {
    hide HashChain.Linked, IsArtifactId, WorkspaceHash, FindVersion, ReviewsFit, PublicationsFit, OncePerVersion,
         LineagesFit, VersionsKept, VersionChain;
    var after := CreateDraft(s, settings, workspace, artifact, path, title, author, content, now).studio;
    if after != s {
      assert RowsOf(s.versions, artifact) == [];
      var row := after.versions[artifact][0];
      NoVersions();
      AppendedVersion(s.artifacts, s.versions, artifact, row, after.artifacts[artifact]);
      AppendedLineage(s.versions, s.publications, s.reviews, artifact, row);
      ReviewsStay(s.reviews, s.versions, after.versions);
      PublicationsStay(s.publications, s.reviews, s.reviews, s.versions, after.versions);
      HashChain.AppendLinked(s.events, |s.events| + 1, EventCore(ArtifactCreated(row), artifact, now));
    }
  }

  lemma NoVersions()
    ensures VersionChain([])
  {
  }

  /** The current version of a consistent studio is the last row. */
  lemma CurrentIsLast(s: Studio, artifact: string)
    requires ArtifactsFit(s.artifacts, s.versions)
    ensures GetCurrent(s, artifact) == if artifact !in s.artifacts then Failure(NotFound)
                                       else Success(RowsOf(s.versions, artifact)[|RowsOf(s.versions, artifact)| - 1])
    ensures artifact in s.artifacts ==> VersionChain(RowsOf(s.versions, artifact)) && RowsOf(s.versions, artifact) != []
  {
    if artifact in s.artifacts {
      FindInChain(RowsOf(s.versions, artifact), s.artifacts[artifact].currentVersion);
      hide FindVersion, RowsOf, VersionChain;
    }
  }

  lemma SaveVersionConsistent(s: Studio, settings: Settings, artifact: string, content: string, author: string,
                              expected: Hash, now: int)
    requires Consistent(s)
    ensures Consistent(SaveVersion(s, settings, artifact, content, author, expected, now).studio)
  {
    hide HashChain.Linked, FindVersion, GetCurrent, ReviewsFit, PublicationsFit, OncePerVersion, LineagesFit,
         VersionsKept;
    var after := SaveVersion(s, settings, artifact, content, author, expected, now).studio;
    CurrentIsLast(s, artifact);
    if after != s {
      var rows := RowsOf(s.versions, artifact);
      assert VersionAt(rows, |rows| - 1);
      hide VersionChain;
      var row := after.versions[artifact][|rows|];
      AppendedVersion(s.artifacts, s.versions, artifact, row, after.artifacts[artifact]);
      AppendedLineage(s.versions, s.publications, s.reviews, artifact, row);
      ReviewsStay(s.reviews, s.versions, after.versions);
      PublicationsStay(s.publications, s.reviews, s.reviews, s.versions, after.versions);
      HashChain.AppendLinked(s.events, |s.events| + 1, EventCore(VersionCreated(row), artifact, now));
    }
  }

  lemma ReviewConsistent(s: Studio, artifact: string, version: int, reviewer: string, verdict: Verdict,
                         rationale: string, id: nat, now: int)
    requires Consistent(s)
    ensures Consistent(Review(s, artifact, version, reviewer, verdict, rationale, id, now).studio)
  {
    hide HashChain.Linked, FindVersion, GetCurrent, GetVersion, PublicationsFit, OncePerVersion, LineagesFit,
         VersionsKept, Blank;
    var after := Review(s, artifact, version, reviewer, verdict, rationale, id, now).studio;
    CurrentIsLast(s, artifact);
    if after != s {
      SelectedIsAt(s, artifact, version);
      var row := after.reviews[|s.reviews|];
      assert VersionAt(RowsOf(s.versions, artifact), version - 1);
      assert ReviewFits(row, s.versions);
      SameVersions(s.versions);
      PublicationsStay(s.publications, s.reviews, after.reviews, s.versions, s.versions);
      HashChain.AppendLinked(s.events, |s.events| + 1, EventCore(ReviewRecorded(row), artifact, now));
      hide VersionChain, RowsOf;
    }
  }

  lemma SelectedIsAt(s: Studio, artifact: string, version: int)
    requires ArtifactsFit(s.artifacts, s.versions) && GetVersion(s, artifact, version).Success?
    ensures 1 <= version <= |RowsOf(s.versions, artifact)|
    ensures GetVersion(s, artifact, version).value == RowsOf(s.versions, artifact)[version - 1]
  {
    FindInChain(RowsOf(s.versions, artifact), version);
  }

  lemma SameVersions(versions: map<string, seq<VersionRow>>)
    ensures VersionsKept(versions, versions)
  {
  }

  lemma RecordedLineage(versions: map<string, seq<VersionRow>>, publications: seq<PublicationRow>, a: string,
                        p: PublicationRow)
    requires LineagesFit(versions, publications) && a in versions && VersionChain(versions[a]) && versions[a] != []
    requires p.artifact == a && p.version == |versions[a]|
    ensures LineagesFit(versions[a := UpdateVersion(versions[a], |versions[a]|, Some(p.workspaceHash))],
                        publications + [p])
  {
    var rows := versions[a];
    var updated := UpdateVersion(rows, |rows|, Some(p.workspaceHash));
    var after := versions[a := updated];
    UpdateAt(rows, |rows|, Some(p.workspaceHash));
    hide UpdateVersion;
    forall b, i: nat | b in after && i < |after[b]| ensures BaseFits(b, after[b], i, publications + [p]) {
      assert BaseFits(b, versions[b], i, publications);
      assert b == a ==> VersionAt(rows, i) && (i > 0 ==> VersionAt(rows, i - 1));
      if b == a && i == |rows| - 1 {
        assert p in publications + [p];
        assert PublishedAs(publications + [p], a, i + 1, p.workspaceHash);
      } else {
        MorePublications(publications, p, b, i + 1);
        hide Unpublished, PublishedAs;
      }
    }
  }

  lemma MorePublications(publications: seq<PublicationRow>, p: PublicationRow, artifact: string, version: int)
    requires p.artifact != artifact || p.version != version
    ensures Unpublished(publications, artifact, version) ==> Unpublished(publications + [p], artifact, version)
    ensures forall h :: PublishedAs(publications, artifact, version, h) ==>
                          PublishedAs(publications + [p], artifact, version, h)
  {
    forall h | PublishedAs(publications, artifact, version, h)
      ensures PublishedAs(publications + [p], artifact, version, h)
    {
      var q :| q in publications && q.artifact == artifact && q.version == version && q.workspaceHash == h;
      assert q in publications + [p];
    }
  }

  lemma UpdatedVersions(artifacts: map<string, ArtifactRow>, versions: map<string, seq<VersionRow>>, a: string,
                        base: Option<Hash>, row: ArtifactRow)
    requires ArtifactsFit(artifacts, versions) && a in artifacts && row.currentVersion == artifacts[a].currentVersion
    requires a in versions
    ensures ArtifactsFit(artifacts[a := row], versions[a := UpdateVersion(versions[a], |versions[a]|, base)])
    ensures VersionsKept(versions, versions[a := UpdateVersion(versions[a], |versions[a]|, base)])
  {
    var updated := UpdateVersion(versions[a], |versions[a]|, base);
    var after := versions[a := updated];
    UpdateAt(versions[a], |versions[a]|, base);
    hide UpdateVersion;
    assert RowsKept(versions[a], updated);
    assert VersionChain(RowsOf(versions, a));
    ChainKept(versions[a], updated);
    hide RowsKept, VersionChain;
    forall b ensures RowsKept(RowsOf(versions, b), RowsOf(after, b)) {
      if b != a {
        KeptItself(RowsOf(versions, b));
      }
    }
    forall b | b in artifacts[a := row] ensures VersionChain(RowsOf(after, b)) {
      if b != a {
        assert RowsOf(after, b) == RowsOf(versions, b);
      }
    }
  }

  lemma KeptItself(rows: seq<VersionRow>)
    ensures RowsKept(rows, rows)
  {
  }

  lemma RecordedConsistent(s: Studio, artifact: string, review: ReviewRow, p: PublicationRow, after: Studio)
    requires Consistent(s) && artifact in s.artifacts && artifact in s.versions && artifact in after.artifacts
    requires s.versions[artifact] != [] && VersionChain(s.versions[artifact])
    requires p.artifact == artifact && p.version == |s.versions[artifact]|
             && p.action == Journal.PublishOf(artifact, p.version)
    requires p.contentHash == s.versions[artifact][p.version - 1].hash
    requires review in s.reviews && review.verdict == Approved
             && ReviewsVersion(review, artifact, p.version, p.contentHash)
    requires PublicationOf(s.publications, artifact, p.version, p.contentHash) == None
    requires after.reviews == s.reviews && after.publications == s.publications + [p] && HashChain.Linked(after.events)
    requires after.artifacts == s.artifacts[artifact := after.artifacts[artifact]]
    requires after.artifacts[artifact].currentVersion == s.artifacts[artifact].currentVersion
    requires after.versions
             == s.versions[artifact := UpdateVersion(s.versions[artifact], p.version, Some(p.workspaceHash))]
    ensures Consistent(after)
  {
    assert ReviewFits(review, s.versions);
    assert VersionAt(s.versions[artifact], p.version - 1);
    hide HashChain.Linked, PublicationOf, UpdateVersion, LineagesFit, VersionsKept, VersionChain, ReviewFits,
         PublicationsFit, OncePerVersion, ReviewsFit, ArtifactsFit;
    UpdatedVersions(s.artifacts, s.versions, artifact, Some(p.workspaceHash), after.artifacts[artifact]);
    RecordedLineage(s.versions, s.publications, artifact, p);
    ReviewsStay(s.reviews, s.versions, after.versions);
    NewPublicationFits(s, artifact, review, p);
    PublicationsStay(after.publications, s.reviews, s.reviews, s.versions, after.versions);
    NewPublicationOnce(s, p);
  }

  lemma RecordConsistent(s: Studio, artifact: string, review: ReviewRow, publishedBy: string, finalHash: Hash, now: int)
    requires Consistent(s) && artifact in s.artifacts && GetCurrent(s, artifact).Success?
    requires var current := GetCurrent(s, artifact).value;
             review in s.reviews && ReviewsVersion(review, artifact, current.version, current.hash)
             && review.verdict == Approved
             && PublicationOf(s.publications, artifact, current.version, current.hash) == None
    ensures Consistent(Record(s, artifact, GetCurrent(s, artifact).value, review, publishedBy, finalHash, now).studio)
  {
    var current := GetCurrent(s, artifact).value;
    CurrentIsLast(s, artifact);
    var rows := RowsOf(s.versions, artifact);
    assert VersionAt(rows, |rows| - 1);
    assert rows == s.versions[artifact] && current.version == |rows|;
    hide Consistent, GetCurrent, HashChain.Linked, PublicationOf, UpdateVersion, VersionChain;
    var after := Record(s, artifact, current, review, publishedBy, finalHash, now).studio;
    if after != s {
      var p := after.publications[|s.publications|];
      EventsLinked(s, EventCore(ArtifactPublished(p, review.id), artifact, now));
      RecordedConsistent(s, artifact, review, p, after);
    }
  }

  lemma EventsLinked(s: Studio, core: EventCore)
    requires Consistent(s)
    ensures HashChain.Linked(Append(s.events, core))
  {
    hide ArtifactsFit, ReviewsFit, PublicationsFit, OncePerVersion, LineagesFit, HashChain.Linked;
    HashChain.AppendLinked(s.events, |s.events| + 1, core);
  }

  lemma NewPublicationFits(s: Studio, artifact: string, review: ReviewRow, p: PublicationRow)
    requires PublicationsFit(s.publications, s.reviews, s.versions)
    requires var rows := RowsOf(s.versions, artifact);
             rows != [] && p.artifact == artifact && p.version == |rows| == rows[|rows| - 1].version
             && p.contentHash == rows[|rows| - 1].hash
             && p.action == Journal.PublishOf(artifact, p.version)
             && review in s.reviews && review.verdict == Approved
             && ReviewsVersion(review, artifact, p.version, p.contentHash)
             && ReviewFits(review, s.versions)
    ensures PublicationsFit(s.publications + [p], s.reviews, s.versions)
  {
    hide RowsOf;
    var row := RowsOf(s.versions, artifact)[p.version - 1];
    assert IndependentlyApproved(s.reviews, artifact, row);
  }

  lemma NewPublicationOnce(s: Studio, p: PublicationRow)
    requires OncePerVersion(s.publications) && PublicationsFit(s.publications, s.reviews, s.versions)
    requires var rows := RowsOf(s.versions, p.artifact);
             1 <= p.version <= |rows| && p.contentHash == rows[p.version - 1].hash
    requires PublicationOf(s.publications, p.artifact, p.version, p.contentHash) == None
    ensures OncePerVersion(s.publications + [p])
  {
    hide PublicationOf, RowsOf;
    forall i | 0 <= i < |s.publications|
      ensures s.publications[i].artifact != p.artifact || s.publications[i].version != p.version
    {
      assert s.publications[i] in s.publications;
      assert PublicationFits(s.publications[i], s.reviews, s.versions);
    }
  }

  lemma PublishConsistent(s: Studio, rt: Journal.Runtime, policy: Journal.Policy, artifact: string, publishedBy: string,
                          approval: Option<Journal.Approval>, issue: bool, approvalId: string, now: int)
    requires Consistent(s)
    ensures Consistent(Publish(s, rt, policy, artifact, publishedBy, approval, issue, approvalId, now).studio)
  {
    ReadyMeansApproved(s, rt.tree, artifact);
    hide Consistent, CheckPublish, Journal.Execute, WithApproval, Record, GetCurrent, PublicationOf, LatestReview,
         WorkspaceHash;
    match CheckPublish(s, rt.tree, artifact)
    case Ready(current, review) =>
      var request := PublishRequest(artifact, s.artifacts[artifact].path, current, publishedBy);
      var pair := WithApproval(rt, policy, request, approval, issue, approvalId, now);
      if pair.Success? {
        var executed := Journal.Execute(pair.value.0, policy, request, pair.value.1, now, now);
        var final := WorkspaceHash(executed.state.tree, s.artifacts[artifact].path.target);
        if final.Some? {
          RecordConsistent(s, artifact, review, publishedBy, final.value, now);
        }
      }
    case _ =>
  }

  lemma ReadyMeansApproved(s: Studio, workspace: Tree, artifact: string)
    ensures var gate := CheckPublish(s, workspace, artifact);
            gate.Ready? ==>
              && artifact in s.artifacts && GetCurrent(s, artifact) == Success(gate.current)
              && gate.review in s.reviews
              && ReviewsVersion(gate.review, artifact, gate.current.version, gate.current.hash)
              && gate.review.verdict == Approved
              && PublicationOf(s.publications, artifact, gate.current.version, gate.current.hash) == None
              && gate.current.base == WorkspaceHash(workspace, s.artifacts[artifact].path.target)
  {
    hide LatestReview, PublicationOf, WorkspaceHash, FindVersion;
  }

  lemma PerformConsistent(w: World, settings: Settings, policy: Journal.Policy, c: Timed)
    requires Consistent(w.studio)
    ensures Consistent(Perform(w, settings, policy, c).studio)
  {
    hide Consistent, CreateDraft, SaveVersion, Review, Publish, Journal.Perform;
    match c.call
    case CallCreateDraft(artifact, path, title, author, content) =>
      CreateDraftConsistent(w.studio, settings, w.runtime.tree, artifact, path, title, author, content, c.now);
    case CallSaveVersion(artifact, text, author, expected) =>
      SaveVersionConsistent(w.studio, settings, artifact, text, author, expected, c.now);
    case CallReview(artifact, version, reviewer, verdict, rationale, id) =>
      ReviewConsistent(w.studio, artifact, version, reviewer, verdict, rationale, id, c.now);
    case CallPublish(artifact, publishedBy, approval, issue, approvalId) =>
      PublishConsistent(w.studio, w.runtime, policy, artifact, publishedBy, approval, issue, approvalId, c.now);
    case CallRuntime(call) =>
  }

  lemma EmptyConsistent()
    ensures Consistent(EMPTY)
  {
  }

  /**
   In every reachable state: versions are numbered, hashed and linked; the event chain holds; every
   review and publication fits the version it names; no version is published twice; and every
   version carries the base hash of its lineage.
   */
  lemma {:induction false} PlayConsistent(tree: Tree, settings: Settings, policy: Journal.Policy, calls: seq<Timed>)
    ensures Consistent(Play(tree, settings, policy, calls).studio)
  {
    hide Perform, Consistent;
    if calls == [] {
      EmptyConsistent();
    } else {
      PlayConsistent(tree, settings, policy, calls[..|calls| - 1]);
      PerformConsistent(Play(tree, settings, policy, calls[..|calls| - 1]), settings, policy, calls[|calls| - 1]);
    }
  }

  // ---------- reviews decide publication ----------

  /**
   In every reachable state each publication names an existing version of its artifact, carries
   that version's hash, and is backed by an approving review of exactly that content from someone
   other than its author; and no version has two publications.
   */
  lemma PublicationsWereReviewed(tree: Tree, settings: Settings, policy: Journal.Policy, calls: seq<Timed>,
                                 p: PublicationRow)
    requires p in Play(tree, settings, policy, calls).studio.publications
    ensures var s := Play(tree, settings, policy, calls).studio;
            && OncePerVersion(s.publications)
            && 1 <= p.version <= |RowsOf(s.versions, p.artifact)|
            && var row := RowsOf(s.versions, p.artifact)[p.version - 1];
               p.contentHash == row.hash == Sha(row.content) && IndependentlyApproved(s.reviews, p.artifact, row)
  {
    hide Play, LineagesFit, ReviewsFit, OncePerVersion, IndependentlyApproved, HashChain.Linked, RowsOf;
    PlayConsistent(tree, settings, policy, calls);
    var s := Play(tree, settings, policy, calls).studio;
    assert PublicationFits(p, s.reviews, s.versions);
    ArtifactOfVersion(s, p.artifact);
    assert VersionAt(RowsOf(s.versions, p.artifact), p.version - 1);
  }

  lemma ArtifactOfVersion(s: Studio, artifact: string)
    requires ArtifactsFit(s.artifacts, s.versions)
    ensures VersionChain(RowsOf(s.versions, artifact))
  {
    if artifact !in s.artifacts {
      NoVersions();
    }
  }

  /**
   What gets a version through to publication: the latest review of its content approves, and the
   file is still its base.
   */
  lemma OnlyLatestApprovalPublishes(s: Studio, rt: Journal.Runtime, policy: Journal.Policy, artifact: string,
                                    publishedBy: string, approval: Option<Journal.Approval>, issue: bool,
                                    approvalId: string, now: int)
    requires var r := Publish(s, rt, policy, artifact, publishedBy, approval, issue, approvalId, now);
             r.runtime != rt || r.studio != s
    ensures artifact in s.artifacts && GetCurrent(s, artifact).Success?
    ensures var current := GetCurrent(s, artifact).value;
            && WorkspaceHash(rt.tree, s.artifacts[artifact].path.target) == current.base
            && exists review :: review in s.reviews && ReviewsVersion(review, artifact, current.version, current.hash)
                 && review.verdict == Approved
                 && forall other | other in s.reviews
                                   && ReviewsVersion(other, artifact, current.version, current.hash) ::
                      !SortsAfter(other, review)
  {
    ReadyMeansApproved(s, rt.tree, artifact);
    assert CheckPublish(s, rt.tree, artifact).Ready?;
    hide Publish, GetCurrent, PublicationOf, WorkspaceHash;
    var current := CheckPublish(s, rt.tree, artifact).current;
    assert LatestReview(s.reviews, artifact, current.version, current.hash)
           == Some(CheckPublish(s, rt.tree, artifact).review);
  }

  // ---------- what a publication does to the workspace ----------

  lemma ApprovalLeavesTree(rt: Journal.Runtime, policy: Journal.Policy, request: Journal.Request,
                           approval: Option<Journal.Approval>, issue: bool, approvalId: string, now: int)
    ensures var pair := WithApproval(rt, policy, request, approval, issue, approvalId, now);
            pair.Success? ==> pair.value.0 == rt.(approvals := pair.value.0.approvals)
  {
    hide Journal.PlanFor;
  }

  lemma ExecuteWrites(rt: Journal.Runtime, policy: Journal.Policy, request: Journal.Request,
                      approval: Option<Journal.Approval>, now: int)
    requires request.action.WriteFile?
    ensures var r := Journal.Execute(rt, policy, request, approval, now, now);
            var e := Write(rt.tree, request.action.path, request.action.content, policy.limit);
            && (Journal.GetResult(rt.actions, request.id).Some? ==> r.state == rt)
            && (r.state.tree != rt.tree ==> r.state.tree == e.tree)
            && (r.result.Success? && Journal.GetResult(rt.actions, request.id).None? ==> e.ok && r.state.tree == e.tree)
            && (r.result == Failure(Journal.DispatchFailed) ==>
                  !e.ok && request.id in r.state.actions && r.state.tree == e.tree
                  && r.state.actions[request.id].stored == Journal.Requested(request)
                  && r.state.actions[request.id].result.Some?)
  {
    hide Journal.PlanFor, Journal.ApprovalHolds, Journal.Unconsumed, Write, Journal.AddRows;
  }

  lemma WrittenHash(t: Tree, p: Target, content: string, limit: Limit)
    ensures Write(t, p, content, limit).ok ==> WorkspaceHash(Write(t, p, content, limit).tree, p) == Some(Sha(content))
    ensures !Write(t, p, content, limit).ok && IsFile(t, p) ==> Write(t, p, content, limit).tree == t
  {
    hide WithParents, BlockedBy;
  }

  /** A write that fails on a well-formed workspace leaves it as it was. */
  lemma FailedWriteLeavesTree(t: Tree, p: Target, content: string, limit: Limit)
    requires WellFormed(t) && !Write(t, p, content, limit).ok
    ensures Write(t, p, content, limit).tree == t
  {
    hide WellFormed;
    if IsDirectory(t, p) {
      forall q | q in AncestorsOf(p) ensures q in t {
        AncestorIsAbove(q, p);
        AncestorsExist(t, p, q);
      }
      hide AncestorsOf;
    }
  }

  /**
   If a publication touches the workspace at all, whatever it then reports, the file held exactly
   the version's base before, and holds the version's content after.
   */
  lemma WritesOnlyOverBase(s: Studio, rt: Journal.Runtime, policy: Journal.Policy, artifact: string,
                           publishedBy: string, approval: Option<Journal.Approval>, issue: bool, approvalId: string,
                           now: int)
    requires var r := Publish(s, rt, policy, artifact, publishedBy, approval, issue, approvalId, now);
             r.runtime.tree != rt.tree && (r.result.Success? || WellFormed(rt.tree))
    ensures artifact in s.artifacts && GetCurrent(s, artifact).Success?
    ensures var r := Publish(s, rt, policy, artifact, publishedBy, approval, issue, approvalId, now);
            var current := GetCurrent(s, artifact).value;
            var p := s.artifacts[artifact].path.target;
            && WorkspaceHash(rt.tree, p) == current.base
            && WorkspaceHash(r.runtime.tree, p) == Some(Sha(current.content))
            && r.runtime.tree == Write(rt.tree, p, current.content, policy.limit).tree
            && Journal.GetResult(rt.actions, Journal.PublishOf(artifact, current.version)).None?
  {
    hide CheckPublish, WithApproval, Journal.Execute, Record, GetCurrent, Write, WorkspaceHash, WellFormed;
    ReadyMeansApproved(s, rt.tree, artifact);
    assert CheckPublish(s, rt.tree, artifact).Ready?;
    var current := CheckPublish(s, rt.tree, artifact).current;
    var path := s.artifacts[artifact].path;
    var request := PublishRequest(artifact, path, current, publishedBy);
    ApprovalLeavesTree(rt, policy, request, approval, issue, approvalId, now);
    var pair := WithApproval(rt, policy, request, approval, issue, approvalId, now);
    assert pair.Success?;
    ExecuteWrites(pair.value.0, policy, request, pair.value.1, now);
    WrittenHash(rt.tree, path.target, current.content, policy.limit);
    if !Write(rt.tree, path.target, current.content, policy.limit).ok && WellFormed(rt.tree) {
      FailedWriteLeavesTree(rt.tree, path.target, current.content, policy.limit);
    }
  }

  /** A new publication row comes from an executed request over an open gate, and records the hash found afterwards. */
  lemma RecordedPublication(s: Studio, rt: Journal.Runtime, policy: Journal.Policy, artifact: string,
                            publishedBy: string, approval: Option<Journal.Approval>, issue: bool, approvalId: string,
                            now: int)
    requires var r := Publish(s, rt, policy, artifact, publishedBy, approval, issue, approvalId, now);
             r.result.Success? && !r.result.value.replay
    ensures CheckPublish(s, rt.tree, artifact).Ready? && artifact in s.artifacts
    ensures var r := Publish(s, rt, policy, artifact, publishedBy, approval, issue, approvalId, now);
            var current := CheckPublish(s, rt.tree, artifact).current;
            var request := PublishRequest(artifact, s.artifacts[artifact].path, current, publishedBy);
            var pair := WithApproval(rt, policy, request, approval, issue, approvalId, now);
            && pair.Success?
            && var executed := Journal.Execute(pair.value.0, policy, request, pair.value.1, now, now);
               && executed.result.Success? && r.runtime == executed.state
               && WorkspaceHash(r.runtime.tree, s.artifacts[artifact].path.target)
                  == Some(r.result.value.publication.workspaceHash)
               && r.result.value.publication.contentHash == current.hash
  {
    hide CheckPublish, WithApproval, Journal.Execute, WorkspaceHash, UpdateVersion;
    ReadyMeansApproved(s, rt.tree, artifact);
  }

  lemma CurrentContent(s: Studio, artifact: string)
    requires Consistent(s) && artifact in s.artifacts
    ensures GetCurrent(s, artifact).Success?
    ensures var current := GetCurrent(s, artifact).value; current.hash == Sha(current.content)
  {
    hide GetCurrent;
    CurrentIsLast(s, artifact);
    var rows := RowsOf(s.versions, artifact);
    assert VersionAt(rows, |rows| - 1);
  }

  /**
   Exactly when a new publication row tells the truth about the bytes: the file it left holds the
   version's content if and only if this call really executed the write, or the content was
   already there. A stored result of an earlier attempt, failed or since undone, is replayed
   without writing, and the publication is recorded all the same.
   */
  lemma PublishedBytesIff(s: Studio, rt: Journal.Runtime, policy: Journal.Policy, artifact: string, publishedBy: string,
                          approval: Option<Journal.Approval>, issue: bool, approvalId: string, now: int)
    requires Consistent(s)
    requires var r := Publish(s, rt, policy, artifact, publishedBy, approval, issue, approvalId, now);
             r.result.Success? && !r.result.value.replay
    ensures artifact in s.artifacts && GetCurrent(s, artifact).Success?
    ensures var r := Publish(s, rt, policy, artifact, publishedBy, approval, issue, approvalId, now);
            var current := GetCurrent(s, artifact).value;
            var p := r.result.value.publication;
            && WorkspaceHash(r.runtime.tree, s.artifacts[artifact].path.target) == Some(p.workspaceHash)
            && p.contentHash == Sha(current.content)
            && (p.workspaceHash == p.contentHash <==>
                  Journal.GetResult(rt.actions, Journal.PublishOf(artifact, current.version)).None?
                  || current.base == Some(current.hash))
  {
    hide Consistent, Publish, CheckPublish, WithApproval, Journal.Execute, GetCurrent, Write, WorkspaceHash,
         VersionChain;
    RecordedPublication(s, rt, policy, artifact, publishedBy, approval, issue, approvalId, now);
    var gate := CheckPublish(s, rt.tree, artifact);
    ReadyMeansApproved(s, rt.tree, artifact);
    var path := s.artifacts[artifact].path;
    var request := PublishRequest(artifact, path, gate.current, publishedBy);
    ApprovalLeavesTree(rt, policy, request, approval, issue, approvalId, now);
    var pair := WithApproval(rt, policy, request, approval, issue, approvalId, now);
    ExecuteWrites(pair.value.0, policy, request, pair.value.1, now);
    WrittenHash(rt.tree, path.target, gate.current.content, policy.limit);
    CurrentContent(s, artifact);
  }

  /**
   The untruthful case is reachable: when the write of a publication over an existing file fails
   (the file is too large to back up, say), publishing again right away is reported as a success
   and recorded, although the file still holds its old content.
   */
  lemma FailedWriteThenRecorded(s: Studio, rt: Journal.Runtime, policy: Journal.Policy, artifact: string,
                                publishedBy: string, approval: Option<Journal.Approval>, issue: bool,
                                approvalId: string, now: int, approval2: Option<Journal.Approval>, approvalId2: string,
                                later: int)
    requires Consistent(s) && artifact in s.artifacts
    requires WorkspaceHash(rt.tree, s.artifacts[artifact].path.target).Some?
    requires Publish(s, rt, policy, artifact, publishedBy, approval, issue, approvalId, now).result
             == Failure(Runtime(Journal.DispatchFailed))
    ensures var failed := Publish(s, rt, policy, artifact, publishedBy, approval, issue, approvalId, now);
            var again :=
              Publish(s, failed.runtime, policy, artifact, publishedBy, approval2, false, approvalId2, later);
            && failed.studio == s && failed.runtime.tree == again.runtime.tree == rt.tree
            && again.result.Success? && !again.result.value.replay
            && again.studio.publications == s.publications + [again.result.value.publication]
            && Some(again.result.value.publication.workspaceHash)
               == WorkspaceHash(rt.tree, s.artifacts[artifact].path.target)
  {
    ReadyMeansApproved(s, rt.tree, artifact);
    assert CheckPublish(s, rt.tree, artifact).Ready?;
    var current := CheckPublish(s, rt.tree, artifact).current;
    var path := s.artifacts[artifact].path;
    var request := PublishRequest(artifact, path, current, publishedBy);
    ApprovalLeavesTree(rt, policy, request, approval, issue, approvalId, now);
    var pair := WithApproval(rt, policy, request, approval, issue, approvalId, now);
    assert pair.Success?;
    ExecuteWrites(pair.value.0, policy, request, pair.value.1, now);
    WrittenHash(rt.tree, path.target, current.content, policy.limit);
    var failed := Publish(s, rt, policy, artifact, publishedBy, approval, issue, approvalId, now);
    assert failed.runtime.tree == rt.tree && failed.studio == s;
    PlanIsOpen(rt, policy, request, approval, issue, approvalId, now);
    hide WithApproval, Journal.Execute;
    ReplayedPublish(s, failed.runtime, policy, artifact, publishedBy, approval2, approvalId2, later, current,
                    CheckPublish(s, rt.tree, artifact).review);
  }

  lemma PlanIsOpen(rt: Journal.Runtime, policy: Journal.Policy, request: Journal.Request,
                   approval: Option<Journal.Approval>, issue: bool, approvalId: string, now: int)
    requires WithApproval(rt, policy, request, approval, issue, approvalId, now).Success?
    ensures Journal.PlanFor(rt.tree, policy, request.action).Success?
  {
  }

  lemma ReplayedPublish(s: Studio, rt: Journal.Runtime, policy: Journal.Policy, artifact: string, publishedBy: string,
                        approval: Option<Journal.Approval>, approvalId: string, now: int, current: VersionRow,
                        review: ReviewRow)
    requires Consistent(s) && CheckPublish(s, rt.tree, artifact) == Ready(current, review) && artifact in s.artifacts
    requires var request := PublishRequest(artifact, s.artifacts[artifact].path, current, publishedBy);
             && Journal.PlanFor(rt.tree, policy, request.action).Success?
             && Journal.GetResult(rt.actions, request.id).Some?
             && rt.actions[request.id].stored == Journal.Requested(request)
    requires WorkspaceHash(rt.tree, s.artifacts[artifact].path.target).Some?
    ensures var r := Publish(s, rt, policy, artifact, publishedBy, approval, false, approvalId, now);
            && r.runtime == rt && r.result.Success? && !r.result.value.replay
            && r.studio.publications == s.publications + [r.result.value.publication]
            && Some(r.result.value.publication.workspaceHash)
               == WorkspaceHash(rt.tree, s.artifacts[artifact].path.target)
  {
    ReadyMeansApproved(s, rt.tree, artifact);
    NeverPublished(s, artifact);
    hide CheckPublish, Consistent, Journal.PlanFor, GetCurrent, WorkspaceHash, UpdateVersion, Journal.Carry,
         Journal.ApprovalHolds, Journal.Unconsumed;
  }

  lemma PublishedContent(s: Studio, artifact: string, p: PublicationRow)
    requires Consistent(s) && p in s.publications && p.artifact == artifact && GetCurrent(s, artifact).Success?
    ensures p.version == GetCurrent(s, artifact).value.version ==> p.contentHash == GetCurrent(s, artifact).value.hash
  {
    hide GetCurrent, LineagesFit, ReviewsFit, OncePerVersion, HashChain.Linked;
    CurrentIsLast(s, artifact);
    assert PublicationFits(p, s.reviews, s.versions);
    assert VersionAt(RowsOf(s.versions, artifact), |RowsOf(s.versions, artifact)| - 1);
  }

  lemma NeverPublished(s: Studio, artifact: string)
    requires Consistent(s) && GetCurrent(s, artifact).Success?
    requires PublicationOf(s.publications, artifact, GetCurrent(s, artifact).value.version,
                           GetCurrent(s, artifact).value.hash)
             == None
    ensures forall p | p in s.publications ::
              p.artifact != artifact || p.version != GetCurrent(s, artifact).value.version
  {
    hide Consistent, GetCurrent;
    forall p | p in s.publications && p.artifact == artifact
      ensures p.version != GetCurrent(s, artifact).value.version
    {
      PublishedContent(s, artifact, p);
    }
  }

  // ---------- at most one write per version ----------

  lemma WorldSane(w: World, settings: Settings, policy: Journal.Policy, c: Timed)
    requires JournalGuarantees.Sane(w.runtime, policy)
    ensures JournalGuarantees.Sane(Perform(w, settings, policy, c).runtime, policy)
  {
    hide JournalGuarantees.Sane, CreateDraft, SaveVersion, Review, CheckPublish, WithApproval, Record, Journal.Execute,
         Journal.IssueApproval;
    match c.call
    case CallPublish(artifact, publishedBy, approval, issue, approvalId) =>
      var s, rt := w.studio, w.runtime;
      match CheckPublish(s, rt.tree, artifact) {
        case Ready(current, review) =>
          ReadyMeansApproved(s, rt.tree, artifact);
          var request := PublishRequest(artifact, s.artifacts[artifact].path, current, publishedBy);
          ApprovalSane(rt, policy, request, approval, issue, approvalId, c.now);
          var pair := WithApproval(rt, policy, request, approval, issue, approvalId, c.now);
          if pair.Success? {
            JournalGuarantees.PerformSane(pair.value.0, policy,
                                          Journal.Timed(Journal.Run(request, pair.value.1), c.now, c.now));
          }
        case _ =>
      }
    case CallRuntime(call) => JournalGuarantees.PerformSane(w.runtime, policy, call);
    case _ =>
  }

  lemma ApprovalSane(rt: Journal.Runtime, policy: Journal.Policy, request: Journal.Request,
                     approval: Option<Journal.Approval>, issue: bool, approvalId: string, now: int)
    requires JournalGuarantees.Sane(rt, policy)
    ensures var pair := WithApproval(rt, policy, request, approval, issue, approvalId, now);
            pair.Success? ==> JournalGuarantees.Sane(pair.value.0, policy)
  {
    hide JournalGuarantees.Sane, Journal.PlanFor;
    JournalGuarantees.IssueSane(rt, policy, approvalId, request.action, request.requestedBy, 600, true, now);
  }

  /**
   Over any run of studio and runtime calls together, the publication of one version is handed to
   the dispatcher at most once, so each version is written to the workspace at most once.
   */
  lemma {:induction false} WrittenAtMostOnce(tree: Tree, settings: Settings, policy: Journal.Policy, calls: seq<Timed>)
    ensures JournalGuarantees.Sane(Play(tree, settings, policy, calls).runtime, policy)
    ensures JournalGuarantees.NoRepeats(Play(tree, settings, policy, calls).runtime.dispatched)
  {
    hide Perform, JournalGuarantees.Journalled, JournalGuarantees.Approved, JournalGuarantees.ConsumersKnown,
         JournalGuarantees.NoRepeats;
    if calls == [] {
      JournalGuarantees.OpenedSane(tree, policy);
    } else {
      WrittenAtMostOnce(tree, settings, policy, calls[..|calls| - 1]);
      WorldSane(Play(tree, settings, policy, calls[..|calls| - 1]), settings, policy, calls[|calls| - 1]);
    }
  }
}
