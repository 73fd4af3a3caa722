/**
 The journal of the action runtime: requests, one-time approvals, dispatch, results and undo, as
 functions from runtime state to runtime state.

 A call may also be cut short by a crash after its journal row is committed; the row then stays
 "running" and the workspace may be left in any shape.
 */
module ActionJournal {
  import opened Prelude
  import opened FileTree
  import opened FileActions

  /** Action identifiers; the two derived forms are the texts `publish-<artifact>-v<n>` and `undo-<id>`. */
  datatype ActionId = Plain(text: string) | PublishOf(artifact: string, version: int) | UndoOf(id: ActionId)

  datatype Request = Request(id: ActionId, action: FileAction, requestedBy: string, reason: Option<string>)

  /**
   SHA-256 over the action's kind and parameters, and HMAC over an approval's unsigned fields, as
   injective symbols.
   */
  datatype Digest = Digest(action: FileAction)
  datatype Unsigned = Unsigned(id: string, digest: Digest, issuedBy: string, issuedAt: int, expiresAt: Option<int>,
                               oneTime: bool)
  datatype Signature = Hmac(signed: Unsigned) | OtherSignature(text: string)

  /** An approval as presented by a caller; an expiry that does not parse is `None`. */
  datatype Approval = Approval(unsigned: Unsigned, signature: Signature)

  datatype ApprovalRow = ApprovalRow(issued: Approval, consumedBy: Option<ActionId>)

  datatype Status = Completed | Failed

  datatype ActionResult = ActionResult(id: ActionId, status: Status, startedAt: int, completedAt: int, reversible: bool,
                                       changed: set<Path>)

  /** The request column: an action as requested, or the record of an undo. */
  datatype Stored = Requested(request: Request) | UndoRequested(target: ActionId)

  datatype ActionRow = ActionRow(stored: Stored, requestedBy: string, approvalId: Option<string>, createdAt: int,
                                 result: Option<ActionResult>)

  datatype Policy = Policy(approveWrites: bool, approveDeletes: bool, denied: set<Path>, limit: Limit)

  /** The runtime's tables and workspace; `dispatched` records, in order, every action handed to the dispatcher. */
  datatype Runtime = Runtime(tree: Tree, actions: map<ActionId, ActionRow>, approvals: map<string, ApprovalRow>,
                             backups: map<ActionId, seq<Backup>>, dispatched: seq<ActionId>)

  datatype Error =
    | PolicyDenied | ApprovalRequired | ApprovalInvalid | NotFound | NotReversible | InvalidArgument
    | Storage        // the action or approval id already has a row
    | DispatchFailed // recorded as a failed result, then raised
    | RestoreFailed  // raised in the middle of an undo

  datatype Outcome = Outcome(state: Runtime, result: Result<ActionResult, Error>)

  datatype Plan = Plan(requiresApproval: bool, reversible: bool, digest: Digest)

  function Refuse(s: Runtime, e: Error): Outcome {
    Outcome(s, Failure(e))
  }

  function GetResult(actions: map<ActionId, ActionRow>, id: ActionId): Option<ActionResult> {
    if id in actions then actions[id].result else None
  }

  function RowsFor(backups: map<ActionId, seq<Backup>>, id: ActionId): seq<Backup> {
    if id in backups then backups[id] else []
  }

  predicate ProtectedPath(policy: Policy, p: Path) {
    exists base | base in policy.denied :: Under(base, p)
  }

  function PlanFor(tree: Tree, policy: Policy, a: FileAction): (r: Result<Plan, Error>)
    ensures r.Failure? ==> r.error == NotFound || r.error == PolicyDenied
  {
    match a
    case ReadFile(p) => if p in tree then Success(Plan(false, false, Digest(a))) else Failure(NotFound)
    case WriteFile(p, _) =>
      if ProtectedPath(policy, p) then Failure(PolicyDenied) else Success(Plan(policy.approveWrites, true, Digest(a)))
    case MakeDirectory(p, _, _) =>
      if ProtectedPath(policy, p) then Failure(PolicyDenied) else Success(Plan(policy.approveWrites, true, Digest(a)))
    case Move(source, target) =>
      if source !in tree then Failure(NotFound)
      else if ProtectedPath(policy, source) || ProtectedPath(policy, target) then Failure(PolicyDenied)
      else Success(Plan(policy.approveWrites, true, Digest(a)))
    case Delete(p) =>
      if p !in tree then Failure(NotFound)
      else if ProtectedPath(policy, p) then Failure(PolicyDenied)
      else Success(Plan(policy.approveDeletes, true, Digest(a)))
  }

  function ChangedPaths(a: FileAction): set<Path> {
    match a
    case ReadFile(_) => {}
    case WriteFile(p, _) => {p}
    case MakeDirectory(p, _, _) => {p}
    case Move(source, target) => {source, target}
    case Delete(p) => {p}
  }

  predicate NeedsApproval(policy: Policy, a: FileAction) {
    match a
    case ReadFile(_) => false
    case Delete(_) => policy.approveDeletes
    case _ => policy.approveWrites
  }

  // ---------- approvals ----------

  function IssueApproval(s: Runtime, id: string, a: FileAction, issuedBy: string, ttl: int, oneTime: bool, now: int)
    : Runtime
  {
    if ttl < 1 || ttl > 86_400 || id in s.approvals then s
    else
      var unsigned := Unsigned(id, Digest(a), issuedBy, now, Some(now + ttl), oneTime);
      s.(approvals := s.approvals[id := ApprovalRow(Approval(unsigned, Hmac(unsigned)), None)])
  }

  predicate ApprovalHolds(approvals: map<string, ApprovalRow>, approval: Approval, plan: Plan, action: ActionId,
                          now: int) {
    var u := approval.unsigned;
    && approval.signature == Hmac(u)
    && u.digest == plan.digest
    && u.expiresAt.Some? && now < u.expiresAt.value
    && u.id in approvals && approvals[u.id].issued == approval
    && (u.oneTime ==> approvals[u.id].consumedBy in {None, Some(action)})
  }

  // ---------- execute ----------

  /** The checks before anything is written: a stored result to replay, a refusal, or the plan to carry out. */
  datatype Gate = Replay(prior: ActionResult) | Closed(error: Error) | Open(plan: Plan)

  function Check(s: Runtime, policy: Policy, request: Request, approval: Option<Approval>, now: int): Gate {
    var prior := GetResult(s.actions, request.id);
    if prior.Some? then
      if s.actions[request.id].stored == Requested(request) then Replay(prior.value) else Closed(PolicyDenied)
    else
      match PlanFor(s.tree, policy, request.action)
      case Failure(e) => Closed(e)
      case Success(plan) =>
        if plan.requiresApproval && approval.None? then Closed(ApprovalRequired)
        else if plan.requiresApproval && !ApprovalHolds(s.approvals, approval.value, plan, request.id, now) then
          Closed(ApprovalInvalid)
        else if request.id in s.actions then Closed(Storage)
        else if approval.Some? && approval.value.unsigned.oneTime
                && !Unconsumed(s.approvals, approval.value.unsigned.id) then
          Closed(ApprovalInvalid)
        else Open(plan)
  }

  predicate Unconsumed(approvals: map<string, ApprovalRow>, id: string) {
    id in approvals && approvals[id].consumedBy == None
  }

  /** The transaction that journals the action as running and consumes its one-time approval. */
  function Begin(s: Runtime, request: Request, approval: Option<Approval>, now: int): Runtime {
    var approvalId := if approval.Some? then Some(approval.value.unsigned.id) else None;
    var row := ActionRow(Requested(request), request.requestedBy, approvalId, now, None);
    var begun := s.(actions := s.actions[request.id := row]);
    if approval.Some? && approval.value.unsigned.oneTime && Unconsumed(s.approvals, approval.value.unsigned.id) then
      begun.(approvals :=
               s.approvals[approval.value.unsigned.id :=
                             s.approvals[approval.value.unsigned.id].(consumedBy := Some(request.id))])
    else begun
  }

  function AddRows(backups: map<ActionId, seq<Backup>>, id: ActionId, rows: seq<Backup>): map<ActionId, seq<Backup>> {
    if rows == [] then backups else backups[id := RowsFor(backups, id) + rows]
  }

  function Persist(s: Runtime, result: ActionResult): Runtime
    requires result.id in s.actions
  {
    s.(actions := s.actions[result.id := s.actions[result.id].(result := Some(result))])
  }

  function ResultOf(request: Request, e: Effect, plan: Plan, now: int, done: int): (r: ActionResult)
    ensures r.id == request.id && (r.status == Completed <==> e.ok)
  {
    if e.ok then ActionResult(request.id, Completed, now, done, !request.action.ReadFile?, ChangedPaths(request.action))
    else ActionResult(request.id, Failed, now, done, plan.reversible, {})
  }

  function Carry(s: Runtime, policy: Policy, request: Request, approval: Option<Approval>, plan: Plan, now: int,
                 done: int): Outcome {
    var begun := Begin(s, request, approval, now);
    var e := Dispatch(s.tree, request.action, policy.limit);
    var result := ResultOf(request, e, plan, now, done);
    var after := Persist(begun.(tree := e.tree, backups := AddRows(s.backups, request.id, e.rows),
                                dispatched := s.dispatched + [request.id]), result);
    Outcome(after, if e.ok then Success(result) else Failure(DispatchFailed))
  }

  function Execute(s: Runtime, policy: Policy, request: Request, approval: Option<Approval>, now: int, done: int)
    : Outcome
  {
    match Check(s, policy, request, approval, now)
    case Replay(prior) => Outcome(s, Success(prior))
    case Closed(e) => Refuse(s, e)
    case Open(plan) => Carry(s, policy, request, approval, plan, now, done)
  }

  /** An execution cut short after its journal row: any backup rows, any workspace, no result. */
  function ExecuteCrashed(s: Runtime, policy: Policy, request: Request, approval: Option<Approval>, now: int,
                          torn: Tree, rows: seq<Backup>): Runtime {
    if !Check(s, policy, request, approval, now).Open? then s
    else
      Begin(s, request, approval, now).(tree := torn, backups := AddRows(s.backups, request.id, rows),
                                        dispatched := s.dispatched + [request.id])
  }

  // ---------- undo ----------

  function UndoId(target: ActionId, chosen: Option<ActionId>): ActionId {
    if chosen.Some? then chosen.value else UndoOf(target)
  }

  datatype UndoGate = UndoReplay(prior: ActionResult) | UndoClosed(error: Error) | UndoOpen

  function CheckUndo(s: Runtime, target: ActionId, undoId: ActionId): UndoGate {
    var original := GetResult(s.actions, target);
    if original.None? then UndoClosed(NotFound)
    else if !original.value.reversible then UndoClosed(NotReversible)
    else if GetResult(s.actions, undoId).Some? then UndoReplay(GetResult(s.actions, undoId).value)
    else if undoId in s.actions then UndoClosed(Storage)
    else UndoOpen
  }

  function BeginUndo(s: Runtime, target: ActionId, undoId: ActionId, requestedBy: string, now: int): Runtime {
    s.(actions := s.actions[undoId := ActionRow(UndoRequested(target), requestedBy, None, now, None)])
  }

  function PathsOf(rows: seq<Backup>): set<Path> {
    set i | 0 <= i < |rows| :: rows[i].path
  }

  function Undo(s: Runtime, target: ActionId, chosen: Option<ActionId>, requestedBy: string, now: int, done: int)
    : Outcome
  {
    var undoId := UndoId(target, chosen);
    match CheckUndo(s, target, undoId)
    case UndoReplay(prior) => Outcome(s, Success(prior))
    case UndoClosed(e) => Refuse(s, e)
    case UndoOpen =>
      var begun := BeginUndo(s, target, undoId, requestedBy, now);
      var rows := RowsFor(s.backups, target);
      if rows == [] then Refuse(begun, NotReversible)
      else
        var r := RestoreRows(s.tree, rows);
        if !r.ok then Refuse(begun.(tree := r.tree), RestoreFailed)
        else
          var result := ActionResult(undoId, Completed, now, done, false, PathsOf(rows));
          Outcome(Persist(begun.(tree := r.tree), result), Success(result))
  }

  function UndoCrashed(s: Runtime, target: ActionId, chosen: Option<ActionId>, requestedBy: string, now: int,
                       torn: Tree): Runtime {
    var undoId := UndoId(target, chosen);
    if CheckUndo(s, target, undoId).UndoOpen? then BeginUndo(s, target, undoId, requestedBy, now).(tree := torn) else s
  }

  // ---------- runs ----------

  datatype Call =
    | Issue(approvalId: string, action: FileAction, issuedBy: string, ttl: int, oneTime: bool)
    | Run(request: Request, approval: Option<Approval>)
    | RunCrashed(request: Request, approval: Option<Approval>, torn: Tree, rows: seq<Backup>)
    | Reverse(target: ActionId, chosen: Option<ActionId>, requestedBy: string)
    | ReverseCrashed(target: ActionId, chosen: Option<ActionId>, requestedBy: string, torn: Tree)
    | Outside(tree: Tree)  // the workspace is edited by something else

  datatype Timed = Timed(call: Call, now: int, done: int)

  function Perform(s: Runtime, policy: Policy, c: Timed): Runtime {
    match c.call
    case Issue(id, a, issuedBy, ttl, oneTime) => IssueApproval(s, id, a, issuedBy, ttl, oneTime, c.now)
    case Run(request, approval) => Execute(s, policy, request, approval, c.now, c.done).state
    case RunCrashed(request, approval, torn, rows) => ExecuteCrashed(s, policy, request, approval, c.now, torn, rows)
    case Reverse(target, chosen, who) => Undo(s, target, chosen, who, c.now, c.done).state
    case ReverseCrashed(target, chosen, who, torn) => UndoCrashed(s, target, chosen, who, c.now, torn)
    case Outside(tree) => s.(tree := tree)
  }

  function Play(s: Runtime, policy: Policy, calls: seq<Timed>): Runtime {
    if calls == [] then s
    else Perform(Play(s, policy, calls[..|calls| - 1]), policy, calls[|calls| - 1])
  }

  /** A runtime that has not done anything yet, over an existing workspace. */
  function Opened(tree: Tree): Runtime {
    Runtime(tree, map[], map[], map[], [])
  }
}
