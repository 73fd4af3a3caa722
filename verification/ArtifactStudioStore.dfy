/**
 Artifact Studio as an object: it updates its tables in place, publishes through an action
 runtime, and verifies its own integrity.
 */
module ArtifactStudioStores {
  import opened Prelude
  import opened FileTree
  import opened ArtifactStudio
  import opened StudioGuarantees
  import opened ActionRuntimes
  import Journal = ActionJournal
  import HashChain

  datatype Damage =
    | EventPrevious(sequence: nat)
    | EventHash(sequence: nat)
    | Content(artifact: string, version: int)
    | ParentHash(artifact: string, version: int)

  class ArtifactStudioStore {
    const settings: Settings
    var artifacts: map<string, ArtifactRow>
    var versions: map<string, seq<VersionRow>>
    var reviews: seq<ReviewRow>
    var publications: seq<PublicationRow>
    var events: seq<HashChain.Row<EventCore>>

    function Tables(): Studio
      reads this
    {
      Studio(artifacts, versions, reviews, publications, events)
    }

    constructor (settings: Settings)
      ensures Tables() == EMPTY && this.settings == settings
    {
      this.settings := settings;
      artifacts, versions, reviews, publications, events := map[], map[], [], [], [];
    }

    method AppendEvent(event: StudioEvent, subject: string, now: int)
      modifies this`events
      ensures events == Append(old(events), EventCore(event, subject, now))
    {
      var previous := HashChain.HeadHash(events);
      var core := EventCore(event, subject, now);
      events := events + [HashChain.Row(|events| + 1, core, previous, HashChain.Sha(core, previous))];
    }

    method CreateDraft(workspace: Tree, artifact: string, path: SpelledPath, title: string, author: string,
                       content: Option<string>, now: int)
      returns (r: Result<VersionRow, Error>)
      modifies this`artifacts, this`versions, this`events
      ensures Outcome(Tables(), r)
              == ArtifactStudio.CreateDraft(old(Tables()), settings, workspace, artifact, path, title, author, content,
                                            now)
    {
      if !IsArtifactId(artifact) { return Failure(InvalidArgument); }
      if Blocked(path.target) || !settings.isText(path.target) { return Failure(PathDenied); }
      var text := DraftContent(settings, workspace, path.target, content);
      if Utf8Length(text) > settings.maxContent { return Failure(TooLarge); }
      if artifact in artifacts || (exists a | a in artifacts :: artifacts[a].path.text == path.text)
         || FindVersion(RowsOf(versions, artifact), 1).Some? {
        return Failure(Storage);
      }
      var base := WorkspaceHash(workspace, path.target);
      var row := VersionRow(1, text, Sha(text), None, base, author, now, Draft);
      artifacts := artifacts[artifact := ArtifactRow(path, TitleOf(title, path.target), 1, Draft, base, author)];
      versions := versions[artifact := RowsOf(versions, artifact) + [row]];
      AppendEvent(ArtifactCreated(row), artifact, now);
      return Success(row);
    }

    method SaveVersion(artifact: string, content: string, author: string, expectedParent: Hash, now: int)
      returns (r: Result<VersionRow, Error>)
      modifies this`artifacts, this`versions, this`events
      ensures Outcome(Tables(), r)
              == ArtifactStudio.SaveVersion(old(Tables()), settings, artifact, content, author, expectedParent, now)
    {
      if Utf8Length(content) > settings.maxContent { return Failure(TooLarge); }
      var found := GetCurrent(Tables(), artifact);
      if found.Failure? { return Failure(found.error); }
      var current := found.value;
      if current.hash != expectedParent { return Failure(Conflict); }
      if Sha(content) == current.hash { return Success(current); }
      if FindVersion(RowsOf(versions, artifact), current.version + 1).Some? { return Failure(Storage); }
      var row :=
        VersionRow(current.version + 1, content, Sha(content), Some(current.hash), current.base, author, now, Draft);
      versions := versions[artifact := RowsOf(versions, artifact) + [row]];
      artifacts := artifacts[artifact := artifacts[artifact].(currentVersion := row.version, status := Draft)];
      AppendEvent(VersionCreated(row), artifact, now);
      return Success(row);
    }

    method Review(artifact: string, version: int, reviewer: string, verdict: Verdict, rationale: string, id: nat,
                  now: int)
      returns (r: Result<ReviewRow, Error>)
      modifies this`reviews, this`artifacts, this`events
      ensures Outcome(Tables(), r)
              == ArtifactStudio.Review(old(Tables()), artifact, version, reviewer, verdict, rationale, id, now)
    {
      if verdict.UnknownVerdict? { return Failure(InvalidArgument); }
      var current := GetCurrent(Tables(), artifact);
      if current.Failure? { return Failure(current.error); }
      var selected := GetVersion(Tables(), artifact, version);
      if selected.Failure? { return Failure(selected.error); }
      if selected.value.version != current.value.version { return Failure(Conflict); }
      if reviewer == selected.value.author { return Failure(ReviewRequired); }
      if Blank(rationale) { return Failure(InvalidArgument); }
      if exists x | x in reviews :: x.id == id { return Failure(Storage); }
      var row := ReviewRow(id, artifact, version, reviewer, verdict, rationale, selected.value.hash, now);
      reviews := reviews + [row];
      artifacts :=
        artifacts[artifact :=
                    artifacts[artifact].(status := if verdict == Approved then Reviewed else ChangesRequested)];
      AppendEvent(ReviewRecorded(row), artifact, now);
      return Success(row);
    }

    /** The transaction that records a publication. */
    method Record(artifact: string, current: VersionRow, review: ReviewRow, publishedBy: string, finalHash: Hash,
                  now: int)
      returns (r: Result<Receipt, Error>)
      requires artifact in artifacts
      modifies this`publications, this`artifacts, this`versions, this`events
      ensures Outcome(Tables(), r)
              == ArtifactStudio.Record(old(Tables()), artifact, current, review, publishedBy, finalHash, now)
    {
      var row :=
        PublicationRow(artifact, current.version, Journal.PublishOf(artifact, current.version), publishedBy, now,
                       current.hash, finalHash);
      if exists p | p in publications ::
           p.artifact == artifact && p.version == current.version && p.workspaceHash == finalHash {
        return Failure(Storage);
      }
      publications := publications + [row];
      artifacts := artifacts[artifact := artifacts[artifact].(status := Published, base := Some(finalHash))];
      versions := versions[artifact := UpdateVersion(RowsOf(versions, artifact), current.version, Some(finalHash))];
      AppendEvent(ArtifactPublished(row, review.id), artifact, now);
      return Success(Receipt(row, false));
    }

    method Publish(runtime: ActionRuntime, artifact: string, publishedBy: string, approval: Option<Journal.Approval>,
                   issue: bool, approvalId: string, now: int) returns (r: Result<Receipt, Error>)
      modifies this`publications, this`artifacts, this`versions, this`events, runtime
      ensures PublishOutcome(Tables(), runtime.State(), r)
           == ArtifactStudio.Publish(old(Tables()), old(runtime.State()), runtime.policy, artifact, publishedBy,
                                     approval, issue, approvalId, now)
    {
      hide Journal.Execute, Journal.PlanFor, WorkspaceHash, ArtifactStudio.Record, UpdateVersion;
      var gate := CheckPublish(Tables(), runtime.tree, artifact);
      if gate.Refused? { return Failure(gate.error); }
      if gate.Already? { return Success(Receipt(gate.publication, true)); }
      var path := artifacts[artifact].path;
      var request := PublishRequest(artifact, path, gate.current, publishedBy);
      var plan := Journal.PlanFor(runtime.tree, runtime.policy, request.action);
      if plan.Failure? { return Failure(Runtime(plan.error)); }
      var selected := approval;
      if plan.value.requiresApproval && approval.None? && issue {
        var issued := runtime.IssueApproval(approvalId, request.action, publishedBy, 600, true, now);
        if issued.Failure? { return Failure(Runtime(issued.error)); }
        selected := Some(issued.value);
      }
      var executed := runtime.Execute(request, selected, now, now);
      if executed.Failure? { return Failure(Runtime(executed.error)); }
      var finalHash := WorkspaceHash(runtime.tree, path.target);
      if finalHash.None? { return Failure(NotFound); }
      r := Record(artifact, gate.current, gate.review, publishedBy, finalHash.value, now);
    }

    // ---------- integrity ----------

    /** Walks the event chain, collecting every row whose previous digest or own digest does not fit. */
    method VerifyEvents() returns (damage: seq<Damage>)
      ensures damage == [] <==> HashChain.Linked(events)
    {
      damage := [];
      var previous: Option<HashChain.Digest<EventCore>> := None;
      for i := 0 to |events|
        invariant previous == HashChain.HeadHash(events[..i])
        invariant damage == [] <==> HashChain.Linked(events[..i])
      {
        ghost var before := damage;
        if events[i].previous != previous {
          damage := damage + [EventPrevious(events[i].ordinal)];
        }
        if HashChain.Sha(events[i].core, events[i].previous) != events[i].hash {
          damage := damage + [EventHash(events[i].ordinal)];
        }
        assert damage == before <==> HashChain.LinkedAt(events, i);
        HashChain.LinkedUpTo(events, i);
        previous := Some(events[i].hash);
      }
      assert events[..|events|] == events;
    }

    /** Walks one artifact's versions with a running parent hash. */
    static method VerifyVersions(artifact: string, rows: seq<VersionRow>) returns (damage: seq<Damage>)
      ensures damage == [] <==> forall i | 0 <= i < |rows| :: HashesFit(rows, i)
    {
      damage := [];
      var prior: Option<Hash> := None;
      for i := 0 to |rows|
        invariant prior == if i == 0 then None else Some(rows[i - 1].hash)
        invariant damage == [] <==> forall j | 0 <= j < i :: HashesFit(rows, j)
      {
        ghost var before := damage;
        if Sha(rows[i].content) != rows[i].hash {
          damage := damage + [Content(artifact, rows[i].version)];
        }
        if rows[i].parent != prior {
          damage := damage + [ParentHash(artifact, rows[i].version)];
        }
        assert damage == before <==> HashesFit(rows, i);
        prior := Some(rows[i].hash);
      }
    }

    static predicate HashesFit(rows: seq<VersionRow>, i: nat)
      requires i < |rows|
    {
      rows[i].hash == Sha(rows[i].content) && rows[i].parent == if i == 0 then None else Some(rows[i - 1].hash)
    }

    /** `verify`: the event chain, then every artifact's versions; no damage means everything fits. */
    method Verify() returns (damage: seq<Damage>)
      ensures damage == [] <==>
                HashChain.Linked(events) && forall a | a in artifacts ::
                  forall i | 0 <= i < |RowsOf(versions, a)| :: HashesFit(RowsOf(versions, a), i)
    {
      hide HashesFit, HashChain.Linked;
      damage := VerifyEvents();
      var todo := artifacts.Keys;
      while todo != {}
        invariant todo <= artifacts.Keys
        invariant damage == [] <==>
                    HashChain.Linked(events) && forall a | a in artifacts.Keys - todo ::
                      forall i | 0 <= i < |RowsOf(versions, a)| :: HashesFit(RowsOf(versions, a), i)
      {
        var a :| a in todo;
        var more := VerifyVersions(a, RowsOf(versions, a));
        damage := damage + more;
        todo := todo - {a};
      }
    }
  }

  /** What `Verify` checks holds in every reachable state, so it always reports no damage. */
  lemma ReachableStudiosVerify(tree: Tree, settings: Settings, policy: Journal.Policy, calls: seq<Timed>)
    ensures var s := Play(tree, settings, policy, calls).studio;
            && HashChain.Linked(s.events)
            && forall a | a in s.artifacts ::
                 && |RowsOf(s.versions, a)| == s.artifacts[a].currentVersion
                 && forall i | 0 <= i < |RowsOf(s.versions, a)| ::
                      RowsOf(s.versions, a)[i].version == i + 1
                      && ArtifactStudioStore.HashesFit(RowsOf(s.versions, a), i)
  {
    hide Play, HashChain.Linked, ReviewsFit, PublicationsFit, OncePerVersion, LineagesFit, RowsOf;
    PlayConsistent(tree, settings, policy, calls);
    var s := Play(tree, settings, policy, calls).studio;
    forall a, i | a in s.artifacts && 0 <= i < |RowsOf(s.versions, a)|
      ensures RowsOf(s.versions, a)[i].version == i + 1 && ArtifactStudioStore.HashesFit(RowsOf(s.versions, a), i)
    {
      assert VersionAt(RowsOf(s.versions, a), i);
    }
  }
}
