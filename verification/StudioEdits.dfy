/**
 What drafting, saving, reviewing and publishing an artifact do, when they are refused, and where
 every version of a reachable studio came from.
 */
module StudioEdits {
  import opened Prelude
  import opened FileTree
  import opened FileActions
  import opened ArtifactStudio
  import opened StudioGuarantees
  import opened ActionEffects
  import Journal = ActionJournal
  import JournalGuarantees
  import HashChain

  predicate HasArtifact(s: Studio, artifact: string) {
    artifact in s.artifacts && RowsOf(s.versions, artifact) != []
  }

  /** The newest version of an artifact. */
  function Newest(s: Studio, artifact: string): VersionRow
    requires HasArtifact(s, artifact)
  {
    RowsOf(s.versions, artifact)[|RowsOf(s.versions, artifact)| - 1]
  }

  lemma CurrentIsNewest(s: Studio, artifact: string)
    requires Consistent(s)
    ensures HasArtifact(s, artifact) <==> artifact in s.artifacts
    ensures GetCurrent(s, artifact)
            == if artifact in s.artifacts then Success(Newest(s, artifact)) else Failure(NotFound)
    ensures artifact !in s.artifacts ==> RowsOf(s.versions, artifact) == []
    ensures artifact in s.artifacts ==>
              && Newest(s, artifact).version == |RowsOf(s.versions, artifact)| == s.artifacts[artifact].currentVersion
              && Newest(s, artifact).hash == Sha(Newest(s, artifact).content)
              && (forall i | 0 <= i < |RowsOf(s.versions, artifact)| ::
                    RowsOf(s.versions, artifact)[i].version == i + 1)
              && forall version :: FindVersion(RowsOf(s.versions, artifact), version)
                                   == if 1 <= version <= |RowsOf(s.versions, artifact)|
                                      then Some(RowsOf(s.versions, artifact)[version - 1]) else None
  {
    CurrentIsLast(s, artifact);
    if artifact in s.artifacts {
      var rows := RowsOf(s.versions, artifact);
      assert VersionAt(rows, |rows| - 1);
      forall i | 0 <= i < |rows| ensures rows[i].version == i + 1 { assert VersionAt(rows, i); }
      forall version ensures FindVersion(rows, version)
                             == if 1 <= version <= |rows| then Some(rows[version - 1]) else None {
        FindInChain(rows, version);
      }
    }
  }

  /** Nothing is known of any other artifact that was not known before. */
  ghost predicate OthersKept(s: Studio, after: Studio, artifact: string) {
    forall other | other != artifact ::
      && RowsOf(after.versions, other) == RowsOf(s.versions, other)
      && (other in after.artifacts <==> other in s.artifacts)
      && (other in s.artifacts ==> after.artifacts[other] == s.artifacts[other])
  }

  /** Exactly one event more, saying what happened. */
  predicate Noted(s: Studio, after: Studio, event: StudioEvent, artifact: string, now: int) {
    && |after.events| == |s.events| + 1 && after.events[..|s.events|] == s.events
    && after.events[|s.events|].core == EventCore(event, artifact, now)
  }

  /** The artifact has one version more, which is its current one and a draft. */
  ghost predicate Extended(s: Studio, after: Studio, artifact: string, row: VersionRow) {
    && artifact in after.artifacts
    && RowsOf(after.versions, artifact) == RowsOf(s.versions, artifact) + [row]
    && after.artifacts[artifact].currentVersion == row.version && after.artifacts[artifact].status == Draft
    && OthersKept(s, after, artifact)
    && after.reviews == s.reviews && after.publications == s.publications
  }

  // ---------- drafts ----------

  predicate KebabPart(part: string) {
    part != "" && KebabChars(part)
  }

  predicate KebabChar(c: char) {
    'a' <= c <= 'z' || '0' <= c <= '9'
  }

  predicate KebabChars(s: string) {
    forall i | 0 <= i < |s| :: KebabChar(s[i])
  }

  /** An artifact id but for its first character, which may be a hyphen or missing. */
  predicate IdTail(id: string) {
    && (forall i | 0 <= i < |id| :: KebabChar(id[i]) || id[i] == '-')
    && (forall i | 0 <= i < |id| - 1 :: id[i] != '-' || id[i + 1] != '-')
    && (id != "" ==> id[|id| - 1] != '-')
  }

  lemma CharsMore(c: char, s: string)
    ensures KebabChars([c] + s) <==> KebabChar(c) && KebabChars(s)
  {
    var longer := [c] + s;
    assert longer[0] == c && forall i | 0 <= i < |s| :: s[i] == longer[i + 1];
  }

  predicate LaterParts(parts: seq<string>) {
    forall i | 1 <= i < |parts| :: KebabPart(parts[i])
  }

  lemma PartsMore(part: string, rest: seq<string>)
    requires rest != []
    ensures LaterParts([part] + rest) <==> KebabPart(rest[0]) && LaterParts(rest)
    ensures LaterParts([part] + rest[1..]) <==> LaterParts(rest)
  {
    var longer, other := [part] + rest, [part] + rest[1..];
    assert longer[1] == rest[0] && forall i | 1 <= i < |rest| :: rest[i] == longer[i + 1] && rest[i] == other[i];
  }

  lemma {:induction false} IdTailIff(id: string)
    ensures var parts := Split(id, '-');
            && parts != [] && (parts[0] == "" <==> id == "" || id[0] == '-')
            && (IdTail(id) <==> KebabChars(parts[0]) && LaterParts(parts))
  {
    if id != "" {
      IdTailIff(id[1..]);
      TailStep(id);
      var rest := Split(id[1..], '-');
      CharsMore(id[0], rest[0]);
      PartsMore("", rest);
      PartsMore([id[0]] + rest[0], rest);
    }
  }

  lemma TailStep(id: string)
    requires id != ""
    ensures IdTail(id) <==> if id[0] == '-' then IdTail(id[1..]) && id[1..] != "" && id[1] != '-'
                            else KebabChar(id[0]) && IdTail(id[1..])
  {
    var rest := id[1..];
    assert forall i | 0 <= i < |rest| :: rest[i] == id[i + 1];
    if IdTail(rest) {
      forall i | 1 <= i < |id| ensures KebabChar(id[i]) || id[i] == '-' { assert rest[i - 1] == id[i]; }
      forall i | 1 <= i < |id| - 1 ensures id[i] != '-' || id[i + 1] != '-' { assert rest[i - 1] == id[i]; }
    }
  }

  /** Artifact ids are kebab-case: parts of small letters and digits, none empty, joined by hyphens. */
  lemma ArtifactIdIff(id: string)
    ensures IsArtifactId(id) <==> forall part | part in Split(id, '-') :: KebabPart(part)
  {
    IdTailIff(id);
    var parts := Split(id, '-');
    assert (forall part | part in parts :: KebabPart(part)) <==> forall i | 0 <= i < |parts| :: KebabPart(parts[i]);
    assert (forall i | 0 <= i < |id| :: KebabChar(id[i]) || id[i] == '-')
           <==> forall i | 0 <= i < |id| :: 'a' <= id[i] <= 'z' || '0' <= id[i] <= '9' || id[i] == '-';
    assert IsArtifactId(id) <==> IdTail(id) && id != "" && id[0] != '-';
  }

  lemma FirstVersion(s: Studio, artifact: string, entry: ArtifactRow, row: VersionRow,
                     events: seq<HashChain.Row<EventCore>>)
    requires RowsOf(s.versions, artifact) == [] && entry.currentVersion == row.version && entry.status == Draft
    ensures var after := s.(artifacts := s.artifacts[artifact := entry],
                            versions := s.versions[artifact := RowsOf(s.versions, artifact) + [row]], events := events);
            Extended(s, after, artifact, row)
  {
  }

  /**
   A draft starts from the text it is given, or else from the file's, and remembers which file it
   started from; an id or a spelling of a path in use is refused.
   */
  lemma DraftIff(s: Studio, settings: Settings, workspace: Tree, artifact: string, path: SpelledPath, title: string,
                 author: string, content: Option<string>, now: int)
    requires Consistent(s)
    ensures var r := CreateDraft(s, settings, workspace, artifact, path, title, author, content, now);
            var text := match content
                        case Some(given) => given
                        case None => if IsFile(workspace, path.target)
                                     then settings.readText(workspace[path.target].content) else "";
            && (r.result.Success? <==>
                  && IsArtifactId(artifact) && path.target[0] !in {".git", ".w1nexus"} && settings.isText(path.target)
                  && Utf8Length(text) <= settings.maxContent
                  && artifact !in s.artifacts && forall a | a in s.artifacts :: s.artifacts[a].path.text != path.text)
            && (r.result.Failure? ==>
                  r == Outcome(s, Failure(if !IsArtifactId(artifact) then InvalidArgument
                                          else if path.target[0] in {".git", ".w1nexus"}
                                                  || !settings.isText(path.target) then PathDenied
                                          else if Utf8Length(text) > settings.maxContent then TooLarge
                                          else Storage)))
            && (r.result.Success? ==>
                  && r.result.value == VersionRow(1, text, Sha(text), None, r.result.value.base, author, now, Draft)
                  && (if IsFile(workspace, path.target) then
                        r.result.value.base == Some(Sha(workspace[path.target].content))
                      else r.result.value.base == None)
                  && RowsOf(s.versions, artifact) == [] && Extended(s, r.studio, artifact, r.result.value)
                  && r.studio.artifacts[artifact]
                     == ArtifactRow(path, if Blank(title) then path.target[|path.target| - 1] else Strip(title), 1,
                                    Draft, r.result.value.base, author)
                  && Noted(s, r.studio, ArtifactCreated(r.result.value), artifact, now))
  {
    CurrentIsNewest(s, artifact);
    var r := CreateDraft(s, settings, workspace, artifact, path, title, author, content, now);
    if r.result.Success? {
      FirstVersion(s, artifact, r.studio.artifacts[artifact], r.result.value, r.studio.events);
    }
    hide Consistent, GetCurrent, Utf8Length, IsArtifactId, Strip, Extended, RowsOf;
  }

  /**
   Saving is compare-and-swap on the hash of the newest version: with any other expected parent it is
   refused as a conflict and changes nothing; otherwise new content becomes the next version, by its
   author, on that parent, and unchanged content is answered with the newest version.
   */
  lemma SaveIff(s: Studio, settings: Settings, artifact: string, content: string, author: string, expected: Hash,
                now: int)
    requires Consistent(s)
    ensures var r := SaveVersion(s, settings, artifact, content, author, expected, now);
            var fits := Utf8Length(content) <= settings.maxContent;
            && (r.result.Success? <==> fits && HasArtifact(s, artifact) && Newest(s, artifact).hash == expected)
            && (r.result.Failure? ==>
                  && r.studio == s
                  && r.result.error == if !fits then TooLarge else if HasArtifact(s, artifact) then Conflict
                                       else NotFound)
            && (r.result.Success? && Sha(content) == expected ==> r == Outcome(s, Success(Newest(s, artifact))))
            && (r.result.Success? && Sha(content) != expected ==>
                  && r.result.value == VersionRow(|RowsOf(s.versions, artifact)| + 1, content, Sha(content),
                                                  Some(expected), Newest(s, artifact).base, author, now, Draft)
                  && Extended(s, r.studio, artifact, r.result.value)
                  && r.studio.artifacts[artifact]
                     == s.artifacts[artifact].(currentVersion := r.result.value.version, status := Draft)
                  && Noted(s, r.studio, VersionCreated(r.result.value), artifact, now))
  {
    CurrentIsNewest(s, artifact);
    hide Consistent, GetCurrent, FindVersion, Utf8Length;
  }

  // ---------- reviews ----------

  /** Only the newest version is reviewed, with a reason, and by someone other than its author. */
  lemma ReviewIff(s: Studio, artifact: string, version: int, reviewer: string, verdict: Verdict, rationale: string,
                  id: nat, now: int)
    requires Consistent(s)
    ensures var r := Review(s, artifact, version, reviewer, verdict, rationale, id, now);
            && (r.result.Success? <==>
                  && verdict in {Approved, RequestChanges, Rejected} && HasArtifact(s, artifact)
                  && version == Newest(s, artifact).version && reviewer != Newest(s, artifact).author
                  && !Blank(rationale) && forall x | x in s.reviews :: x.id != id)
            && (r.result.Failure? ==>
                  r == Outcome(s, Failure(if verdict.UnknownVerdict? then InvalidArgument
                                          else if !HasArtifact(s, artifact)
                                                  || !(1 <= version <= Newest(s, artifact).version) then NotFound
                                          else if version != Newest(s, artifact).version then Conflict
                                          else if reviewer == Newest(s, artifact).author then ReviewRequired
                                          else if Blank(rationale) then InvalidArgument
                                          else Storage)))
            && (r.result.Success? ==>
                  && r.result.value == ReviewRow(id, artifact, version, reviewer, verdict, rationale,
                                                 Newest(s, artifact).hash, now)
                  && r.studio.reviews == s.reviews + [r.result.value]
                  && r.studio.versions == s.versions && r.studio.publications == s.publications
                  && OthersKept(s, r.studio, artifact) && artifact in r.studio.artifacts
                  && r.studio.artifacts[artifact]
                     == s.artifacts[artifact].(status := if verdict == Approved then Reviewed else ChangesRequested)
                  && Noted(s, r.studio, ReviewRecorded(r.result.value), artifact, now))
  {
    CurrentIsNewest(s, artifact);
    hide Consistent, GetCurrent, FindVersion, Blank;
  }

  /** The newest version's latest review, by time and then id, approves it. */
  predicate IsApproved(s: Studio, artifact: string)
    requires HasArtifact(s, artifact)
  {
    var latest := LatestReview(s.reviews, artifact, Newest(s, artifact).version, Newest(s, artifact).hash);
    latest.Some? && latest.value.verdict == Approved
  }

  /** A review later than all others of its version decides whether the version is approved. */
  lemma ReviewDecides(s: Studio, artifact: string, version: int, reviewer: string, verdict: Verdict, rationale: string,
                      id: nat, now: int)
    requires Consistent(s) && Review(s, artifact, version, reviewer, verdict, rationale, id, now).result.Success?
    requires forall x | x in s.reviews && x.artifact == artifact && x.version == version ::
               x.createdAt < now || (x.createdAt == now && x.id < id)
    ensures var after := Review(s, artifact, version, reviewer, verdict, rationale, id, now).studio;
            HasArtifact(after, artifact) && (IsApproved(after, artifact) <==> verdict == Approved)
  {
    ReviewIff(s, artifact, version, reviewer, verdict, rationale, id, now);
    var r := Review(s, artifact, version, reviewer, verdict, rationale, id, now);
    hide Consistent, Review;
    assert r.studio.reviews[..|r.studio.reviews| - 1] == s.reviews;
  }

  // ---------- publication ----------

  predicate Unpublished(s: Studio, artifact: string)
    requires HasArtifact(s, artifact)
  {
    forall p | p in s.publications :: p.artifact != artifact || p.version != Newest(s, artifact).version
  }

  /** Nothing stands against publishing the newest version but that it may have been published already. */
  predicate Publishable(s: Studio, workspace: Tree, artifact: string) {
    && HasArtifact(s, artifact) && IsApproved(s, artifact)
    && s.artifacts[artifact].path.target[0] !in {".git", ".w1nexus"}
    && var p := s.artifacts[artifact].path.target;
       Newest(s, artifact).base == if IsFile(workspace, p) then Some(Sha(workspace[p].content)) else None
  }

  lemma GateIff(s: Studio, workspace: Tree, artifact: string)
    requires Consistent(s)
    ensures var gate := CheckPublish(s, workspace, artifact);
            && (gate.Ready? <==> Publishable(s, workspace, artifact) && Unpublished(s, artifact))
            && (gate.Already? <==> Publishable(s, workspace, artifact) && !Unpublished(s, artifact))
            && (gate.Refused? ==>
                  gate.error == if !HasArtifact(s, artifact) then NotFound
                                else if !IsApproved(s, artifact) then ReviewRequired
                                else if s.artifacts[artifact].path.target[0] in {".git", ".w1nexus"} then PathDenied
                                else Conflict)
            && (gate.Ready? ==>
                  && gate.current == Newest(s, artifact)
                  && LatestReview(s.reviews, artifact, gate.current.version, gate.current.hash) == Some(gate.review))
            && (gate.Already? ==>
                  && gate.publication in s.publications
                  && gate.publication.artifact == artifact && gate.publication.version == Newest(s, artifact).version)
  {
    CurrentIsNewest(s, artifact);
    PublishedHash(s, artifact);
    hide Consistent, GetCurrent, FindVersion;
  }

  lemma PublishedHash(s: Studio, artifact: string)
    requires Consistent(s)
    ensures HasArtifact(s, artifact) ==> forall p | p in s.publications && p.artifact == artifact
              && p.version == Newest(s, artifact).version :: p.contentHash == Newest(s, artifact).hash
  {
    if artifact in s.artifacts {
      CurrentIsNewest(s, artifact);
      forall p | p in s.publications && p.artifact == artifact && p.version == Newest(s, artifact).version
        ensures p.contentHash == Newest(s, artifact).hash
      {
        assert PublicationFits(p, s.reviews, s.versions);
      }
    }
  }

  /** The write a publication asks the runtime for. */
  function WriteOf(s: Studio, artifact: string): FileAction
    requires HasArtifact(s, artifact)
  {
    WriteFile(s.artifacts[artifact].path.target, Newest(s, artifact).content)
  }

  /** The runtime lets the write through, on the approval given or on one issued for it on request. */
  predicate LetsThrough(s: Studio, rt: Journal.Runtime, policy: Journal.Policy, artifact: string,
                        approval: Option<Journal.Approval>, issue: bool, approvalId: string, now: int)
    requires HasArtifact(s, artifact)
  {
    var write := WriteOf(s, artifact);
    && Allowed(rt.tree, policy, write)
    && if policy.approveWrites && approval.None? then issue && approvalId !in rt.approvals
       else (policy.approveWrites ==> Vouches(rt, approval.value, write, now))
            && (approval.Some? && approval.value.unsigned.oneTime ==>
                  Journal.Unconsumed(rt.approvals, approval.value.unsigned.id))
  }

  lemma ApprovalLetsThrough(s: Studio, rt: Journal.Runtime, policy: Journal.Policy, artifact: string,
                            publishedBy: string, approval: Option<Journal.Approval>, issue: bool, approvalId: string,
                            now: int)
    requires HasArtifact(s, artifact)
    ensures var request := PublishRequest(artifact, s.artifacts[artifact].path, Newest(s, artifact), publishedBy);
            var pair := WithApproval(rt, policy, request, approval, issue, approvalId, now);
            && request.action == WriteOf(s, artifact)
            && (pair.Success? ==> pair.value.0 == rt.(approvals := pair.value.0.approvals))
            && (LetsThrough(s, rt, policy, artifact, approval, issue, approvalId, now)
                <==> pair.Success? && Admitted(pair.value.0, policy, request, pair.value.1, now))
  {
    PlanIff(rt.tree, policy, WriteOf(s, artifact));
    hide Journal.PlanFor, Journal.ChangedPaths, Under;
  }

  /** The journal holds the publisher's request for the write. */
  predicate RequestedBy(rt: Journal.Runtime, s: Studio, artifact: string, publishedBy: string)
    requires HasArtifact(s, artifact)
  {
    var id := Journal.PublishOf(artifact, Newest(s, artifact).version);
    && id in rt.actions && rt.actions[id].stored.Requested? && rt.actions[id].requestedBy == publishedBy
    && rt.actions[id].stored.request.requestedBy == publishedBy
    && rt.actions[id].stored.request.action == WriteOf(s, artifact)
  }

  /** The publication on record says what was published, by whom and what the file then held. */
  ghost predicate PublishedNow(s: Studio, after: Studio, artifact: string, publishedBy: string, now: int,
                               p: PublicationRow)
    requires HasArtifact(s, artifact)
  {
    var newest := Newest(s, artifact);
    && p == PublicationRow(artifact, newest.version, Journal.PublishOf(artifact, newest.version), publishedBy, now,
                           newest.hash, newest.hash)
    && after.publications == s.publications + [p] && after.reviews == s.reviews
    && OthersKept(s, after, artifact)
    && artifact in after.artifacts
    && after.artifacts[artifact] == s.artifacts[artifact].(status := Published, base := Some(newest.hash))
    && var rows, was := RowsOf(after.versions, artifact), RowsOf(s.versions, artifact);
       && |rows| == |was| && rows[..|was| - 1] == was[..|was| - 1]
       && rows[|was| - 1] == newest.(status := Published, base := Some(newest.hash))
  }

  lemma RecordDoes(s: Studio, artifact: string, review: ReviewRow, publishedBy: string, now: int)
    requires Consistent(s) && HasArtifact(s, artifact) && Unpublished(s, artifact)
    ensures var r := Record(s, artifact, Newest(s, artifact), review, publishedBy, Newest(s, artifact).hash, now);
            && r.result.Success? && !r.result.value.replay
            && PublishedNow(s, r.studio, artifact, publishedBy, now, r.result.value.publication)
            && Noted(s, r.studio, ArtifactPublished(r.result.value.publication, review.id), artifact, now)
  {
    CurrentIsNewest(s, artifact);
    var rows, newest := RowsOf(s.versions, artifact), Newest(s, artifact);
    UpdateAt(rows, newest.version, Some(newest.hash));
    hide Consistent, UpdateVersion, FindVersion, GetCurrent;
  }

  /**
   The first attempt to publish a version succeeds exactly when its latest review approves it, the file
   is still the one the draft was based on, and the runtime lets the write through and can carry it
   out; the file then holds the version's content and the record says so. Refused, it changes no
   table of the studio. A version published before is answered with its record.
   */
  lemma PublishIff(s: Studio, rt: Journal.Runtime, policy: Journal.Policy, artifact: string, publishedBy: string,
                   approval: Option<Journal.Approval>, issue: bool, approvalId: string, now: int)
    requires Consistent(s) && WellFormed(rt.tree)
    requires HasArtifact(s, artifact) ==> Journal.PublishOf(artifact, Newest(s, artifact).version) !in rt.actions
    ensures var r := Publish(s, rt, policy, artifact, publishedBy, approval, issue, approvalId, now);
            var ready := Publishable(s, rt.tree, artifact);
            && (r.result.Success? && !r.result.value.replay <==>
                  && ready && Unpublished(s, artifact)
                  && LetsThrough(s, rt, policy, artifact, approval, issue, approvalId, now)
                  && Feasible(rt.tree, WriteOf(s, artifact), policy.limit))
            && (r.result.Success? && !r.result.value.replay ==>
                  && Performed(rt.tree, r.runtime.tree, WriteOf(s, artifact))
                  && RequestedBy(r.runtime, s, artifact, publishedBy)
                  && PublishedNow(s, r.studio, artifact, publishedBy, now, r.result.value.publication))
            && (r.result.Success? && r.result.value.replay <==> ready && !Unpublished(s, artifact))
            && (r.result.Success? && r.result.value.replay ==>
                  && r.result.value.publication in s.publications && r.result.value.publication.artifact == artifact
                  && r.result.value.publication.version == Newest(s, artifact).version
                  && r.studio == s && r.runtime == rt)
            && (r.result.Failure? ==>
                  && r.studio == s
                  && forall q | q in rt.tree :: q in r.runtime.tree && r.runtime.tree[q] == rt.tree[q])
  {
    GateIff(s, rt.tree, artifact);
    if CheckPublish(s, rt.tree, artifact).Ready? {
      ReadyPublish(s, rt, policy, artifact, publishedBy, approval, issue, approvalId, now);
      hide Publish;
    } else {
      hide WithApproval, Journal.Execute, Record;
    }
    hide CheckPublish, Consistent, WellFormed, Publishable, Unpublished, LetsThrough, Feasible, PublishedNow, Performed,
         WriteOf;
  }

  /** From an open gate a publication is the write, and then the record of what it left. */
  lemma PublishSteps(s: Studio, rt: Journal.Runtime, policy: Journal.Policy, artifact: string, publishedBy: string,
                     approval: Option<Journal.Approval>, issue: bool, approvalId: string, now: int)
    requires CheckPublish(s, rt.tree, artifact).Ready? && artifact in s.artifacts
    ensures var r := Publish(s, rt, policy, artifact, publishedBy, approval, issue, approvalId, now);
            var gate := CheckPublish(s, rt.tree, artifact);
            var request := PublishRequest(artifact, s.artifacts[artifact].path, gate.current, publishedBy);
            var pair := WithApproval(rt, policy, request, approval, issue, approvalId, now);
            if pair.Failure? then r.result.Failure? && r.studio == s && r.runtime == rt
            else
              var executed := Journal.Execute(pair.value.0, policy, request, pair.value.1, now, now);
              var final := WorkspaceHash(executed.state.tree, request.action.path);
              && r.runtime == executed.state
              && (executed.result.Failure? ==> r.result.Failure? && r.studio == s)
              && (executed.result.Success? && final.Some? ==>
                    Outcome(r.studio, r.result)
                    == Record(s, artifact, gate.current, gate.review, publishedBy, final.value, now))
  {
    hide CheckPublish, WithApproval, Journal.Execute, Record, WorkspaceHash;
  }

  lemma ReadyPublish(s: Studio, rt: Journal.Runtime, policy: Journal.Policy, artifact: string, publishedBy: string,
                     approval: Option<Journal.Approval>, issue: bool, approvalId: string, now: int)
    requires Consistent(s) && WellFormed(rt.tree) && HasArtifact(s, artifact)
    requires Publishable(s, rt.tree, artifact) && Unpublished(s, artifact)
    requires Journal.PublishOf(artifact, Newest(s, artifact).version) !in rt.actions
    ensures var r := Publish(s, rt, policy, artifact, publishedBy, approval, issue, approvalId, now);
            && (r.result.Success? <==>
                  LetsThrough(s, rt, policy, artifact, approval, issue, approvalId, now)
                  && Feasible(rt.tree, WriteOf(s, artifact), policy.limit))
            && (r.result.Success? ==>
                  && !r.result.value.replay && Performed(rt.tree, r.runtime.tree, WriteOf(s, artifact))
                  && RequestedBy(r.runtime, s, artifact, publishedBy)
                  && PublishedNow(s, r.studio, artifact, publishedBy, now, r.result.value.publication))
            && (r.result.Failure? ==>
                  && r.studio == s
                  && forall q | q in rt.tree :: q in r.runtime.tree && r.runtime.tree[q] == rt.tree[q])
  {
    GateIff(s, rt.tree, artifact);
    PublishSteps(s, rt, policy, artifact, publishedBy, approval, issue, approvalId, now);
    ApprovalLetsThrough(s, rt, policy, artifact, publishedBy, approval, issue, approvalId, now);
    var gate := CheckPublish(s, rt.tree, artifact);
    var request := PublishRequest(artifact, s.artifacts[artifact].path, gate.current, publishedBy);
    var pair := WithApproval(rt, policy, request, approval, issue, approvalId, now);
    hide Publish, CheckPublish, WithApproval, Journal.Execute, Record, Consistent, WellFormed, Publishable,
         Unpublished, LetsThrough, Feasible, Admitted, JournalGuarantees.HasOutcome, PublishedNow, Performed, Spared,
         Noted, WorkspaceHash;
    if pair.Success? {
      ExecuteIff(pair.value.0, policy, request, pair.value.1, now, now);
      var executed := Journal.Execute(pair.value.0, policy, request, pair.value.1, now, now);
      if executed.result.Success? {
        WrittenFile(rt.tree, executed.state.tree, request.action);
        CurrentIsNewest(s, artifact);
        RecordDoes(s, artifact, gate.review, publishedBy, now);
      } else {
        FailureSpares(pair.value.0, policy, request, pair.value.1, now);
      }
    }
  }

  lemma FailureSpares(rt: Journal.Runtime, policy: Journal.Policy, request: Journal.Request,
                      approval: Option<Journal.Approval>, now: int)
    requires WellFormed(rt.tree) && request.id !in rt.actions
    requires Journal.Execute(rt, policy, request, approval, now, now).result.Failure?
    ensures var after := Journal.Execute(rt, policy, request, approval, now, now).state.tree;
            forall q | q in rt.tree :: q in after && after[q] == rt.tree[q]
  {
    ExecuteIff(rt, policy, request, approval, now, now);
    hide Journal.Execute, WellFormed, Feasible, Admitted, JournalGuarantees.HasOutcome, Performed;
  }

  lemma WrittenFile(t: Tree, after: Tree, a: FileAction)
    requires a.WriteFile?
    ensures Performed(t, after, a) ==> WorkspaceHash(after, a.path) == Some(Sha(a.content))
  {
  }
}
