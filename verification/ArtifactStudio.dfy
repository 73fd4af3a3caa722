/**
 Artifact Studio: versioned drafts, independent review, and publication into the workspace
 through the action runtime, as functions on the studio's tables.
 */
module ArtifactStudio {
  import opened Prelude
  import opened FileTree
  import opened FileActions
  import Journal = ActionJournal
  import HashChain

  /** SHA-256 of a content as an injective symbol, or any other text a caller may pass for a hash. */
  datatype Hash = Sha(content: string) | OtherText(text: string)

  /** A path as a caller spells it, and the workspace path it stands for; several spellings may stand for one path. */
  datatype SpelledPath = Spelled(text: string, target: Target)

  datatype Status = Draft | Reviewed | ChangesRequested | Published

  datatype Verdict = Approved | RequestChanges | Rejected | UnknownVerdict(text: string)

  datatype ArtifactRow = ArtifactRow(path: SpelledPath, title: string, currentVersion: int, status: Status,
                                     base: Option<Hash>, createdBy: string)

  datatype VersionRow = VersionRow(version: int, content: string, hash: Hash, parent: Option<Hash>, base: Option<Hash>,
                                   author: string, createdAt: int, status: Status)

  datatype ReviewRow = ReviewRow(id: nat, artifact: string, version: int, reviewer: string, verdict: Verdict,
                                 rationale: string, hash: Hash, createdAt: int)

  datatype PublicationRow = PublicationRow(artifact: string, version: int, action: Journal.ActionId,
                                           publishedBy: string, publishedAt: int, contentHash: Hash,
                                           workspaceHash: Hash)

  datatype StudioEvent =
    | ArtifactCreated(row: VersionRow)
    | VersionCreated(row: VersionRow)
    | ReviewRecorded(review: ReviewRow)
    | ArtifactPublished(publication: PublicationRow, reviewId: nat)

  datatype EventCore = EventCore(event: StudioEvent, subject: string, at: int)

  /** The studio's tables; an artifact's version rows are kept in version order. */
  datatype Studio = Studio(artifacts: map<string, ArtifactRow>, versions: map<string, seq<VersionRow>>,
                           reviews: seq<ReviewRow>, publications: seq<PublicationRow>,
                           events: seq<HashChain.Row<EventCore>>)

  const EMPTY := Studio(map[], map[], [], [], [])

  /**
   What depends on the installation: the text extensions, what reading a file's content as text
   yields, and the content limit in bytes.
   */
  datatype Settings = Settings(isText: Path -> bool, readText: string -> string, maxContent: nat)

  datatype Error =
    | NotFound
    | PathDenied
    | Conflict
    | ReviewRequired
    | TooLarge
    | InvalidArgument
    | Storage
    | Runtime(cause: Journal.Error)

  datatype Outcome<T> = Outcome(studio: Studio, result: Result<T, Error>)

  // ---------- queries ----------

  predicate IsArtifactId(id: string) {
    && id != "" && id[0] != '-' && id[|id| - 1] != '-'
    && (forall i | 0 <= i < |id| :: 'a' <= id[i] <= 'z' || '0' <= id[i] <= '9' || id[i] == '-')
    && (forall i | 0 <= i < |id| - 1 :: id[i] != '-' || id[i + 1] != '-')
  }

  predicate Blocked(p: Target) {
    p[0] == ".git" || p[0] == ".w1nexus"
  }

  function Append(events: seq<HashChain.Row<EventCore>>, core: EventCore): seq<HashChain.Row<EventCore>> {
    events + [HashChain.NextRow(events, |events| + 1, core)]
  }

  function FindVersion(rows: seq<VersionRow>, version: int): Option<VersionRow> {
    if rows == [] then None
    else if rows[|rows| - 1].version == version then Some(rows[|rows| - 1])
    else FindVersion(rows[..|rows| - 1], version)
  }

  function RowsOf(versions: map<string, seq<VersionRow>>, artifact: string): seq<VersionRow> {
    if artifact in versions then versions[artifact] else []
  }

  function GetVersion(s: Studio, artifact: string, version: int): Result<VersionRow, Error> {
    match FindVersion(RowsOf(s.versions, artifact), version)
    case None => Failure(NotFound)
    case Some(row) => if artifact in s.artifacts then Success(row) else Failure(NotFound)
  }

  function GetCurrent(s: Studio, artifact: string): Result<VersionRow, Error> {
    if artifact !in s.artifacts then Failure(NotFound)
    else GetVersion(s, artifact, s.artifacts[artifact].currentVersion)
  }

  predicate ReviewsVersion(r: ReviewRow, artifact: string, version: int, hash: Hash) {
    r.artifact == artifact && r.version == version && r.hash == hash
  }

  predicate SortsAfter(a: ReviewRow, b: ReviewRow) {
    a.createdAt > b.createdAt || (a.createdAt == b.createdAt && a.id > b.id)
  }

  /** The review of exactly this version and content that sorts last by time, then id. */
  function LatestReview(reviews: seq<ReviewRow>, artifact: string, version: int, hash: Hash): (r: Option<ReviewRow>)
    ensures r.Some? ==> r.value in reviews && ReviewsVersion(r.value, artifact, version, hash)
    ensures r.None? ==> forall x | x in reviews :: !ReviewsVersion(x, artifact, version, hash)
    ensures r.Some? ==> forall x | x in reviews && ReviewsVersion(x, artifact, version, hash) :: !SortsAfter(x, r.value)
  {
    if reviews == [] then None
    else
      var best := LatestReview(reviews[..|reviews| - 1], artifact, version, hash);
      var last := reviews[|reviews| - 1];
      if !ReviewsVersion(last, artifact, version, hash) then best
      else if best.None? || SortsAfter(last, best.value) then Some(last)
      else best
  }

  function ApprovingReview(s: Studio, artifact: string, row: VersionRow): Option<ReviewRow> {
    match LatestReview(s.reviews, artifact, row.version, row.hash)
    case None => None
    case Some(r) => if r.verdict == Approved then Some(r) else None
  }

  /** The hash of the regular file at a path, if there is one. */
  function WorkspaceHash(workspace: Tree, p: Target): Option<Hash> {
    if IsFile(workspace, p) then Some(Sha(workspace[p].content)) else None
  }

  function PublicationOf(publications: seq<PublicationRow>, artifact: string, version: int, hash: Hash)
    : (r: Option<PublicationRow>)
    ensures r.Some? ==>
              r.value in publications && r.value.artifact == artifact && r.value.version == version
              && r.value.contentHash == hash
    ensures r.None? ==>
              forall x | x in publications :: !(x.artifact == artifact && x.version == version && x.contentHash == hash)
  {
    if publications == [] then None
    else
      var last := publications[|publications| - 1];
      if last.artifact == artifact && last.version == version && last.contentHash == hash then Some(last)
      else PublicationOf(publications[..|publications| - 1], artifact, version, hash)
  }

  // ---------- drafts, versions, reviews ----------

  function DraftContent(settings: Settings, workspace: Tree, p: Target, content: Option<string>): string {
    if content.Some? then content.value
    else if IsFile(workspace, p) then settings.readText(workspace[p].content)
    else ""
  }

  function TitleOf(title: string, p: Target): string {
    if Blank(title) then p[|p| - 1] else Strip(title)
  }

  function CreateDraft(s: Studio, settings: Settings, workspace: Tree, artifact: string, path: SpelledPath,
                       title: string, author: string, content: Option<string>, now: int): Outcome<VersionRow> {
    if !IsArtifactId(artifact) then Outcome(s, Failure(InvalidArgument))
    else if Blocked(path.target) || !settings.isText(path.target) then Outcome(s, Failure(PathDenied))
    else
      var text := DraftContent(settings, workspace, path.target, content);
      if Utf8Length(text) > settings.maxContent then Outcome(s, Failure(TooLarge))
      else if artifact in s.artifacts || (exists a | a in s.artifacts :: s.artifacts[a].path.text == path.text)
              || FindVersion(RowsOf(s.versions, artifact), 1).Some? then
        Outcome(s, Failure(Storage))
      else
        var base := WorkspaceHash(workspace, path.target);
        var row := VersionRow(1, text, Sha(text), None, base, author, now, Draft);
        Outcome(s.(artifacts :=
                     s.artifacts[artifact := ArtifactRow(path, TitleOf(title, path.target), 1, Draft, base, author)],
                   versions := s.versions[artifact := RowsOf(s.versions, artifact) + [row]],
                   events := Append(s.events, EventCore(ArtifactCreated(row), artifact, now))),
                Success(row))
  }

  function SaveVersion(s: Studio, settings: Settings, artifact: string, content: string, author: string,
                       expectedParent: Hash, now: int)
    : Outcome<VersionRow>
  {
    if Utf8Length(content) > settings.maxContent then Outcome(s, Failure(TooLarge))
    else
      match GetCurrent(s, artifact)
      case Failure(e) => Outcome(s, Failure(e))
      case Success(current) =>
        if current.hash != expectedParent then Outcome(s, Failure(Conflict))
        else if Sha(content) == current.hash then Outcome(s, Success(current))
        else if FindVersion(RowsOf(s.versions, artifact), current.version + 1).Some? then Outcome(s, Failure(Storage))
        else
          var row :=
            VersionRow(current.version + 1, content, Sha(content), Some(current.hash), current.base, author, now,
                       Draft);
          Outcome(s.(artifacts :=
                       s.artifacts[artifact := s.artifacts[artifact].(currentVersion := row.version, status := Draft)],
                     versions := s.versions[artifact := RowsOf(s.versions, artifact) + [row]],
                     events := Append(s.events, EventCore(VersionCreated(row), artifact, now))),
                  Success(row))
  }

  function Review(s: Studio, artifact: string, version: int, reviewer: string, verdict: Verdict, rationale: string,
                  id: nat, now: int)
    : Outcome<ReviewRow>
  {
    if verdict.UnknownVerdict? then Outcome(s, Failure(InvalidArgument))
    else
      match GetCurrent(s, artifact)
      case Failure(e) => Outcome(s, Failure(e))
      case Success(current) =>
        match GetVersion(s, artifact, version)
        case Failure(e) => Outcome(s, Failure(e))
        case Success(selected) =>
          if selected.version != current.version then Outcome(s, Failure(Conflict))
          else if reviewer == selected.author then Outcome(s, Failure(ReviewRequired))
          else if Blank(rationale) then Outcome(s, Failure(InvalidArgument))
          else if exists r | r in s.reviews :: r.id == id then Outcome(s, Failure(Storage))
          else
            var row := ReviewRow(id, artifact, version, reviewer, verdict, rationale, selected.hash, now);
            var status := if verdict == Approved then Reviewed else ChangesRequested;
            Outcome(s.(reviews := s.reviews + [row],
                       artifacts := s.artifacts[artifact := s.artifacts[artifact].(status := status)],
                       events := Append(s.events, EventCore(ReviewRecorded(row), artifact, now))),
                    Success(row))
  }

  // ---------- publication ----------

  datatype Receipt = Receipt(publication: PublicationRow, replay: bool)

  datatype PublishOutcome = PublishOutcome(studio: Studio, runtime: Journal.Runtime, result: Result<Receipt, Error>)

  function PublishRequest(artifact: string, path: SpelledPath, row: VersionRow, publishedBy: string): Journal.Request {
    Journal.Request(Journal.PublishOf(artifact, row.version), WriteFile(path.target, row.content), publishedBy,
                    Some("Publish reviewed artifact " + artifact))
  }

  function UpdateVersion(rows: seq<VersionRow>, version: int, base: Option<Hash>): seq<VersionRow> {
    if rows == [] then []
    else
      var last := rows[|rows| - 1];
      UpdateVersion(rows[..|rows| - 1], version, base)
      + [if last.version == version then last.(status := Published, base := base) else last]
  }

  /**
   The checks before anything is written: who approved what, and that the file is still the one the
   draft was based on.
   */
  datatype PublishGate =
    | Refused(error: Error)
    | Already(publication: PublicationRow)
    | Ready(current: VersionRow, review: ReviewRow)

  function CheckPublish(s: Studio, workspace: Tree, artifact: string): PublishGate {
    match GetCurrent(s, artifact)
    case Failure(e) => Refused(e)
    case Success(current) =>
      var review := ApprovingReview(s, artifact, current);
      var path := s.artifacts[artifact].path;
      if review.None? then Refused(ReviewRequired)
      else if Blocked(path.target) then Refused(PathDenied)
      else if current.base != WorkspaceHash(workspace, path.target) then Refused(Conflict)
      else
        var existing := PublicationOf(s.publications, artifact, current.version, current.hash);
        if existing.Some? then Already(existing.value) else Ready(current, review.value)
  }

  /** Issues an approval for the publication when the policy wants one, the caller brought none, and asked for it. */
  function WithApproval(rt: Journal.Runtime, policy: Journal.Policy, request: Journal.Request,
                        approval: Option<Journal.Approval>, issue: bool, approvalId: string,
                        now: int): Result<(Journal.Runtime, Option<Journal.Approval>), Error> {
    match Journal.PlanFor(rt.tree, policy, request.action)
    case Failure(e) => Failure(Runtime(e))
    case Success(plan) =>
      if plan.requiresApproval && approval.None? && issue then
        if approvalId in rt.approvals then Failure(Runtime(Journal.Storage))
        else
          var issued := Journal.IssueApproval(rt, approvalId, request.action, request.requestedBy, 600, true, now);
          Success((issued, if approvalId in issued.approvals then Some(issued.approvals[approvalId].issued) else None))
      else Success((rt, approval))
  }

  function Record(s: Studio, artifact: string, current: VersionRow, review: ReviewRow, publishedBy: string,
                  finalHash: Hash, now: int): Outcome<Receipt>
    requires artifact in s.artifacts
  {
    var publication :=
      PublicationRow(artifact, current.version, Journal.PublishOf(artifact, current.version), publishedBy, now,
                     current.hash, finalHash);
    if exists p | p in s.publications ::
         p.artifact == artifact && p.version == current.version && p.workspaceHash == finalHash then
      Outcome(s, Failure(Storage))
    else
      Outcome(s.(publications := s.publications + [publication],
                 artifacts :=
                   s.artifacts[artifact := s.artifacts[artifact].(status := Published, base := Some(finalHash))],
                 versions :=
                   s.versions[artifact :=
                                UpdateVersion(RowsOf(s.versions, artifact), current.version, Some(finalHash))],
                 events := Append(s.events, EventCore(ArtifactPublished(publication, review.id), artifact, now))),
              Success(Receipt(publication, false)))
  }

  function Publish(s: Studio, rt: Journal.Runtime, policy: Journal.Policy, artifact: string, publishedBy: string,
                   approval: Option<Journal.Approval>, issue: bool, approvalId: string, now: int): PublishOutcome {
    match CheckPublish(s, rt.tree, artifact)
    case Refused(e) => PublishOutcome(s, rt, Failure(e))
    case Already(publication) => PublishOutcome(s, rt, Success(Receipt(publication, true)))
    case Ready(current, review) =>
      var path := s.artifacts[artifact].path;
      var request := PublishRequest(artifact, path, current, publishedBy);
      match WithApproval(rt, policy, request, approval, issue, approvalId, now)
      case Failure(e) => PublishOutcome(s, rt, Failure(e))
      case Success(pair) =>
        var executed := Journal.Execute(pair.0, policy, request, pair.1, now, now);
        if executed.result.Failure? then PublishOutcome(s, executed.state, Failure(Runtime(executed.result.error)))
        else
          var final := WorkspaceHash(executed.state.tree, path.target);
          if final.None? then PublishOutcome(s, executed.state, Failure(NotFound))
          else
            var recorded := Record(s, artifact, current, review, publishedBy, final.value, now);
            PublishOutcome(recorded.studio, executed.state, recorded.result)
  }

  // ---------- runs ----------

  datatype World = World(studio: Studio, runtime: Journal.Runtime)

  datatype Call =
    | CallCreateDraft(artifact: string, path: SpelledPath, title: string, author: string, content: Option<string>)
    | CallSaveVersion(artifact: string, text: string, author: string, expectedParent: Hash)
    | CallReview(artifact: string, version: int, reviewer: string, verdict: Verdict, rationale: string, reviewId: nat)
    | CallPublish(artifact: string, publishedBy: string, approval: Option<Journal.Approval>, issue: bool,
                  approvalId: string)
    | CallRuntime(call: Journal.Timed)  // anything else that happens to the runtime or the workspace

  datatype Timed = Timed(call: Call, now: int)

  function Perform(w: World, settings: Settings, policy: Journal.Policy, c: Timed): World {
    match c.call
    case CallCreateDraft(artifact, path, title, author, content) =>
      w.(studio :=
           CreateDraft(w.studio, settings, w.runtime.tree, artifact, path, title, author, content, c.now).studio)
    case CallSaveVersion(artifact, text, author, expected) =>
      w.(studio := SaveVersion(w.studio, settings, artifact, text, author, expected, c.now).studio)
    case CallReview(artifact, version, reviewer, verdict, rationale, id) =>
      w.(studio := Review(w.studio, artifact, version, reviewer, verdict, rationale, id, c.now).studio)
    case CallPublish(artifact, publishedBy, approval, issue, approvalId) =>
      var r := Publish(w.studio, w.runtime, policy, artifact, publishedBy, approval, issue, approvalId, c.now);
      World(r.studio, r.runtime)
    case CallRuntime(call) => w.(runtime := Journal.Perform(w.runtime, policy, call))
  }

  function Play(tree: Tree, settings: Settings, policy: Journal.Policy, calls: seq<Timed>): World {
    if calls == [] then World(EMPTY, Journal.Opened(tree))
    else Perform(Play(tree, settings, policy, calls[..|calls| - 1]), settings, policy, calls[|calls| - 1])
  }
}
