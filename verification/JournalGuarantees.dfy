/**
 What the action journal guarantees over any run of calls, crashes and outside edits included.
 */
module JournalGuarantees {
  import opened Prelude
  import opened FileTree
  import opened FileActions
  import opened UndoGuarantees
  import opened UndoChains
  import opened ActionJournal

  // ---------- what every step keeps ----------

  ghost predicate RowKept(before: ActionRow, after: ActionRow) {
    after.stored == before.stored && after.approvalId == before.approvalId
    && (before.result.Some? ==> after.result == before.result)
  }

  /** Journal rows stay, stored results and consumptions never change, and backups of journalled actions are final. */
  ghost predicate Kept(s: Runtime, t: Runtime) {
    && (forall id | id in s.actions :: id in t.actions && RowKept(s.actions[id], t.actions[id]))
    && (forall x | x in s.approvals :: x in t.approvals && t.approvals[x].issued == s.approvals[x].issued
                                       && (s.approvals[x].consumedBy.Some? ==>
                                             t.approvals[x].consumedBy == s.approvals[x].consumedBy))
    && (forall id | id in s.actions :: RowsFor(t.backups, id) == RowsFor(s.backups, id))
    && s.dispatched <= t.dispatched
  }

  lemma KeptTransitive(a: Runtime, b: Runtime, c: Runtime)
    requires Kept(a, b) && Kept(b, c)
    ensures Kept(a, c)
  {
    hide RowsFor;
  }

  lemma OpenIsFresh(s: Runtime, policy: Policy, request: Request, approval: Option<Approval>, now: int)
    requires Check(s, policy, request, approval, now).Open?
    ensures request.id !in s.actions
    ensures NeedsApproval(policy, request.action) ==>
              approval.Some? && approval.value.unsigned.digest == Digest(request.action)
              && approval.value.unsigned.id in s.approvals
              && s.approvals[approval.value.unsigned.id].issued == approval.value
              && approval.value.unsigned.expiresAt.Some? && now < approval.value.unsigned.expiresAt.value
    ensures approval.Some? && approval.value.unsigned.oneTime ==> Unconsumed(s.approvals, approval.value.unsigned.id)
  {
    hide ProtectedPath;
  }

  lemma CarryKept(s: Runtime, policy: Policy, request: Request, approval: Option<Approval>, plan: Plan, now: int,
                  done: int)
    requires request.id !in s.actions
    ensures Kept(s, Carry(s, policy, request, approval, plan, now, done).state)
  {
    hide Dispatch, ResultOf;
  }

  lemma CrashKept(s: Runtime, policy: Policy, request: Request, approval: Option<Approval>, now: int, torn: Tree,
                  rows: seq<Backup>)
    ensures Kept(s, ExecuteCrashed(s, policy, request, approval, now, torn, rows))
  {
    if Check(s, policy, request, approval, now).Open? {
      OpenIsFresh(s, policy, request, approval, now);
    }
    hide Check;
  }

  lemma UndoKept(s: Runtime, target: ActionId, chosen: Option<ActionId>, requestedBy: string, now: int, done: int)
    ensures Kept(s, Undo(s, target, chosen, requestedBy, now, done).state)
  {
    hide RestoreRows, PathsOf, RowsFor;
  }

  lemma PerformKept(s: Runtime, policy: Policy, c: Timed)
    ensures Kept(s, Perform(s, policy, c))
  {
    hide Carry, Check, Undo, ExecuteCrashed;
    match c.call
    case Issue(_, _, _, _, _) =>
    case Run(request, approval) =>
      if Check(s, policy, request, approval, c.now).Open? {
        OpenIsFresh(s, policy, request, approval, c.now);
        CarryKept(s, policy, request, approval, Check(s, policy, request, approval, c.now).plan, c.now, c.done);
      }
    case RunCrashed(request, approval, torn, rows) => CrashKept(s, policy, request, approval, c.now, torn, rows);
    case Reverse(target, chosen, who) => UndoKept(s, target, chosen, who, c.now, c.done);
    case ReverseCrashed(_, _, _, _) =>
    case Outside(_) =>
  }

  /**
   Over any run: a stored result never changes, a consumed approval stays consumed by the same
   action, backups stay.
   */
  lemma {:induction false} PlayKept(s: Runtime, policy: Policy, calls: seq<Timed>)
    ensures Kept(s, Play(s, policy, calls))
  {
    hide Perform, Kept;
    if calls == [] {
      KeptSelf(s);
    } else {
      var earlier := calls[..|calls| - 1];
      PlayKept(s, policy, earlier);
      PerformKept(Play(s, policy, earlier), policy, calls[|calls| - 1]);
      KeptTransitive(s, Play(s, policy, earlier), Play(s, policy, calls));
    }
  }

  lemma KeptSelf(s: Runtime)
    ensures Kept(s, s)
  {
  }

  // ---------- the journal invariant ----------

  ghost predicate Journalled(s: Runtime) {
    && (forall id :: id in s.dispatched <==> id in s.actions && s.actions[id].stored.Requested?)
    && (forall id | id in s.actions && s.actions[id].stored.Requested? :: s.actions[id].stored.request.id == id)
    && (forall id | id in s.backups :: id in s.actions)
  }

  ghost predicate NoRepeats(ids: seq<ActionId>) {
    forall i, j | 0 <= i < j < |ids| :: ids[i] != ids[j]
  }

  /**
   The approval an action was dispatched under: registered, for its own digest, not expired when the
   action was journalled, and used up by it when one-time.
   */
  ghost predicate ApprovedFor(approvals: map<string, ApprovalRow>, row: ActionRow, id: ActionId) {
    && row.approvalId.Some? && row.approvalId.value in approvals && row.stored.Requested?
    && var a := approvals[row.approvalId.value];
       && a.issued.unsigned.digest == Digest(row.stored.request.action)
       && a.issued.unsigned.expiresAt.Some? && row.createdAt < a.issued.unsigned.expiresAt.value
       && (a.issued.unsigned.oneTime ==> a.consumedBy == Some(id))
  }

  ghost predicate Approved(s: Runtime, policy: Policy) {
    forall id | id in s.actions && s.actions[id].stored.Requested?
                && NeedsApproval(policy, s.actions[id].stored.request.action) ::
      ApprovedFor(s.approvals, s.actions[id], id)
  }

  ghost predicate ConsumersKnown(s: Runtime) {
    forall x | x in s.approvals && s.approvals[x].consumedBy.Some? ::
      s.approvals[x].consumedBy.value in s.actions && s.actions[s.approvals[x].consumedBy.value].approvalId == Some(x)
  }

  ghost predicate Sane(s: Runtime, policy: Policy) {
    Journalled(s) && NoRepeats(s.dispatched) && Approved(s, policy) && ConsumersKnown(s)
  }

  /** The columns of an action row that are written once. */
  predicate SameEntry(a: ActionRow, b: ActionRow) {
    a.stored == b.stored && a.approvalId == b.approvalId && a.createdAt == b.createdAt
  }

  lemma NewRowJournalled(s: Runtime, begun: Runtime, id: ActionId)
    requires Journalled(s) && NoRepeats(s.dispatched) && id !in s.actions
    requires id in begun.actions && begun.actions[id].stored.Requested? && begun.actions[id].stored.request.id == id
    requires forall k :: k in begun.actions <==> k in s.actions || k == id
    requires forall k | k in s.actions :: begun.actions[k].stored == s.actions[k].stored
    requires begun.dispatched == s.dispatched + [id]
    requires forall k | k in begun.backups :: k in s.backups || k == id
    ensures Journalled(begun) && NoRepeats(begun.dispatched)
  {
  }

  lemma BeginApproved(s: Runtime, policy: Policy, request: Request, approval: Option<Approval>, now: int)
    requires Approved(s, policy) && ConsumersKnown(s) && Check(s, policy, request, approval, now).Open?
    ensures Approved(Begin(s, request, approval, now), policy) && ConsumersKnown(Begin(s, request, approval, now))
  {
    OpenIsFresh(s, policy, request, approval, now);
    hide Check, NeedsApproval;
    var t := Begin(s, request, approval, now);
    forall id | id in t.actions && t.actions[id].stored.Requested?
                && NeedsApproval(policy, t.actions[id].stored.request.action)
      ensures ApprovedFor(t.approvals, t.actions[id], id)
    {
      if id != request.id {
        assert ApprovedFor(s.approvals, s.actions[id], id);
      }
    }
  }

  lemma SameTablesSane(s: Runtime, t: Runtime, policy: Policy)
    requires Sane(s, policy) && t.approvals == s.approvals && t.dispatched == s.dispatched && t.backups == s.backups
    requires forall id | id in s.actions :: id in t.actions && SameEntry(t.actions[id], s.actions[id])
    requires forall id | id in t.actions :: id in s.actions || t.actions[id].stored.UndoRequested?
    ensures Sane(t, policy)
  {
    hide NeedsApproval, NoRepeats;
    forall id | id in t.actions && t.actions[id].stored.Requested?
                && NeedsApproval(policy, t.actions[id].stored.request.action)
      ensures ApprovedFor(t.approvals, t.actions[id], id)
    {
      assert ApprovedFor(s.approvals, s.actions[id], id);
    }
  }

  lemma SameRequestsApproved(s: Runtime, t: Runtime, policy: Policy)
    requires Approved(s, policy) && ConsumersKnown(s) && t.approvals == s.approvals
    requires forall k :: k in t.actions <==> k in s.actions
    requires forall k | k in s.actions :: SameEntry(t.actions[k], s.actions[k])
    ensures Approved(t, policy) && ConsumersKnown(t)
  {
    hide NeedsApproval;
    forall id | id in t.actions && t.actions[id].stored.Requested?
                && NeedsApproval(policy, t.actions[id].stored.request.action)
      ensures ApprovedFor(t.approvals, t.actions[id], id)
    {
      assert ApprovedFor(s.approvals, s.actions[id], id);
    }
  }

  /** Begin, then a change of workspace, backups and this action's result only. */
  lemma StartedSane(s: Runtime, t: Runtime, policy: Policy, request: Request, approval: Option<Approval>, now: int)
    requires Sane(s, policy) && Check(s, policy, request, approval, now).Open?
    requires var begun := Begin(s, request, approval, now);
             && t.approvals == begun.approvals
             && (forall k :: k in t.actions <==> k in begun.actions)
             && (forall k | k in begun.actions :: SameEntry(t.actions[k], begun.actions[k]))
    requires t.dispatched == s.dispatched + [request.id]
    requires forall k | k in t.backups :: k in s.backups || k == request.id
    ensures Sane(t, policy)
  {
    hide Check, Approved, ConsumersKnown;
    OpenIsFresh(s, policy, request, approval, now);
    BeginApproved(s, policy, request, approval, now);
    var begun := Begin(s, request, approval, now);
    assert forall k :: k in begun.actions <==> k in s.actions || k == request.id;
    assert forall k | k in s.actions :: begun.actions[k].stored == s.actions[k].stored;
    hide Begin, Journalled, NoRepeats;
    SameRequestsApproved(begun, t, policy);
    NewRowJournalled(s, t, request.id);
  }

  lemma CarrySane(s: Runtime, policy: Policy, request: Request, approval: Option<Approval>, now: int, done: int)
    requires Sane(s, policy) && Check(s, policy, request, approval, now).Open?
    ensures Sane(Carry(s, policy, request, approval, Check(s, policy, request, approval, now).plan, now, done).state,
                 policy)
  {
    hide Check, Begin, Dispatch, ResultOf, Sane;
    var t := Carry(s, policy, request, approval, Check(s, policy, request, approval, now).plan, now, done).state;
    BeginHasRow(s, request, approval, now);
    StartedSane(s, t, policy, request, approval, now);
  }

  lemma BeginHasRow(s: Runtime, request: Request, approval: Option<Approval>, now: int)
    ensures request.id in Begin(s, request, approval, now).actions
  {
  }

  lemma PerformSane(s: Runtime, policy: Policy, c: Timed)
    requires Sane(s, policy)
    ensures Sane(Perform(s, policy, c), policy)
  {
    hide Sane, Carry, Check, CheckUndo, Begin, RestoreRows, PathsOf, RowsFor;
    match c.call
    case Issue(id, a, issuedBy, ttl, oneTime) => IssueSane(s, policy, id, a, issuedBy, ttl, oneTime, c.now);
    case Run(request, approval) =>
      if Check(s, policy, request, approval, c.now).Open? {
        CarrySane(s, policy, request, approval, c.now, c.done);
      }
    case RunCrashed(request, approval, torn, rows) =>
      if Check(s, policy, request, approval, c.now).Open? {
        StartedSane(s, Perform(s, policy, c), policy, request, approval, c.now);
      }
    case Reverse(target, chosen, who) => UndoSane(s, policy, target, chosen, who, c.now, c.done);
    case ReverseCrashed(target, chosen, who, torn) => UndoCrashSane(s, policy, target, chosen, who, c.now, torn);
    case Outside(tree) => SameTablesSane(s, s.(tree := tree), policy);
  }

  lemma UndoSane(s: Runtime, policy: Policy, target: ActionId, chosen: Option<ActionId>, requestedBy: string,
                 now: int, done: int)
    requires Sane(s, policy)
    ensures Sane(Undo(s, target, chosen, requestedBy, now, done).state, policy)
  {
    hide Sane, RestoreRows, PathsOf, RowsFor;
    SameTablesSane(s, Undo(s, target, chosen, requestedBy, now, done).state, policy);
  }

  lemma UndoCrashSane(s: Runtime, policy: Policy, target: ActionId, chosen: Option<ActionId>, requestedBy: string,
                      now: int, torn: Tree)
    requires Sane(s, policy)
    ensures Sane(UndoCrashed(s, target, chosen, requestedBy, now, torn), policy)
  {
    hide Sane;
    SameTablesSane(s, UndoCrashed(s, target, chosen, requestedBy, now, torn), policy);
  }

  lemma IssueSane(s: Runtime, policy: Policy, id: string, a: FileAction, issuedBy: string, ttl: int, oneTime: bool,
                  now: int)
    requires Sane(s, policy)
    ensures Sane(IssueApproval(s, id, a, issuedBy, ttl, oneTime, now), policy)
  {
    hide NeedsApproval, NoRepeats;
    var t := IssueApproval(s, id, a, issuedBy, ttl, oneTime, now);
    forall k | k in t.actions && t.actions[k].stored.Requested?
               && NeedsApproval(policy, t.actions[k].stored.request.action)
      ensures ApprovedFor(t.approvals, t.actions[k], k)
    {
      assert ApprovedFor(s.approvals, s.actions[k], k);
    }
  }

  lemma {:induction false} PlaySane(tree: Tree, policy: Policy, calls: seq<Timed>)
    ensures Sane(Play(Opened(tree), policy, calls), policy)
  {
    hide Perform, Sane;
    if calls == [] {
      OpenedSane(tree, policy);
    } else {
      PlaySane(tree, policy, calls[..|calls| - 1]);
      PerformSane(Play(Opened(tree), policy, calls[..|calls| - 1]), policy, calls[|calls| - 1]);
    }
  }

  lemma OpenedSane(tree: Tree, policy: Policy)
    ensures Sane(Opened(tree), policy)
  {
  }

  // ---------- dispatch, approvals, results ----------

  /** At most once: over any run, crashes included, no action id is handed to the dispatcher twice. */
  lemma DispatchedAtMostOnce(tree: Tree, policy: Policy, calls: seq<Timed>)
    ensures NoRepeats(Play(Opened(tree), policy, calls).dispatched)
  {
    hide Play, Journalled, Approved, ConsumersKnown, NoRepeats;
    PlaySane(tree, policy, calls);
  }

  /**
   Over any run, every dispatched action that needed approval had a registered approval for its own
   digest that had not expired by then, and a one-time approval was used up by that very action.
   */
  lemma DispatchedWasApproved(tree: Tree, policy: Policy, calls: seq<Timed>, id: ActionId)
    requires id in Play(Opened(tree), policy, calls).dispatched
    ensures var s := Play(Opened(tree), policy, calls);
            && id in s.actions && s.actions[id].stored.Requested?
            && (NeedsApproval(policy, s.actions[id].stored.request.action) ==>
                  ApprovedFor(s.approvals, s.actions[id], id))
  {
    hide Play, NoRepeats, ConsumersKnown, NeedsApproval;
    PlaySane(tree, policy, calls);
  }

  /** Over any run, no two actions that needed approval went through on the same one-time approval. */
  lemma OneTimeMeansOnce(tree: Tree, policy: Policy, calls: seq<Timed>, a: ActionId, b: ActionId, x: string)
    requires var s := Play(Opened(tree), policy, calls);
             && a in s.actions && b in s.actions && x in s.approvals && s.approvals[x].issued.unsigned.oneTime
             && s.actions[a].stored.Requested? && NeedsApproval(policy, s.actions[a].stored.request.action)
             && s.actions[b].stored.Requested? && NeedsApproval(policy, s.actions[b].stored.request.action)
             && s.actions[a].approvalId == Some(x) == s.actions[b].approvalId
    ensures a == b
  {
    hide Play, NoRepeats, ConsumersKnown, NeedsApproval;
    PlaySane(tree, policy, calls);
    var s := Play(Opened(tree), policy, calls);
    assert ApprovedFor(s.approvals, s.actions[a], a) && ApprovedFor(s.approvals, s.actions[b], b);
  }

  /** An approval is spent by an execution exactly when that goes through to dispatch presenting its id as one-time. */
  lemma SpentIff(s: Runtime, policy: Policy, request: Request, approval: Option<Approval>, now: int, done: int,
                 x: string)
    requires x in s.approvals && s.approvals[x].consumedBy == None
    ensures var after := Execute(s, policy, request, approval, now, done).state;
            && x in after.approvals
            && after.approvals[x].consumedBy in {None, Some(request.id)}
            && (after.approvals[x].consumedBy == Some(request.id) <==>
                  Check(s, policy, request, approval, now).Open? && approval.Some? && approval.value.unsigned.id == x
                  && approval.value.unsigned.oneTime)
  {
    if Check(s, policy, request, approval, now).Open? {
      OpenIsFresh(s, policy, request, approval, now);
    }
    hide Check, Dispatch, ResultOf, AddRows;
  }

  /**
   An approval can be spent by an action it was not issued for, exactly when that action needs no
   approval, can be planned under a new id, and presents the approval's id as one-time: neither
   digest nor signature nor expiry is looked at then. An action that needs approval never does.
   */
  lemma SpentByAnotherIff(s: Runtime, policy: Policy, request: Request, approval: Option<Approval>, now: int,
                          done: int, x: string)
    requires x in s.approvals && s.approvals[x].consumedBy == None
    requires s.approvals[x].issued.unsigned.digest != Digest(request.action)
    ensures var after := Execute(s, policy, request, approval, now, done).state;
            && x in after.approvals
            && (after.approvals[x].consumedBy == Some(request.id) <==>
                  && !NeedsApproval(policy, request.action) && request.id !in s.actions
                  && PlanFor(s.tree, policy, request.action).Success?
                  && approval.Some? && approval.value.unsigned.id == x && approval.value.unsigned.oneTime)
  {
    SpentIff(s, policy, request, approval, now, done, x);
    PlanNeeds(s.tree, policy, request.action);
    hide Execute, PlanFor, NeedsApproval;
  }

  lemma PlanNeeds(tree: Tree, policy: Policy, a: FileAction)
    ensures PlanFor(tree, policy, a).Success? ==>
              PlanFor(tree, policy, a).value.requiresApproval == NeedsApproval(policy, a)
              && PlanFor(tree, policy, a).value.digest == Digest(a)
  {
    hide ProtectedPath;
  }

  /**
   It happens: reading a file under a made-up approval spends the one issued for deleting it, and
   the deletion is then refused.
   */
  lemma ReadingCanSpendAnApproval(policy: Policy, p: Target, madeUp: Approval, now: int)
    requires policy.approveDeletes && !ProtectedPath(policy, p)
    requires madeUp.unsigned.id == "a" && madeUp.unsigned.oneTime
    ensures var tree: Tree := map[[] := Dir, p := File("text")];
            var read := Request(Plain("r"), ReadFile(p), "bob", None);
            var delete := Request(Plain("d"), Delete(p), "ann", None);
            var issued := IssueApproval(Opened(tree), "a", Delete(p), "ann", 60, true, now);
            && "a" in issued.approvals
            && var own := issued.approvals["a"].issued;
               && Check(issued, policy, delete, Some(own), now).Open?
               && var after := Execute(issued, policy, read, Some(madeUp), now, now).state;
                  && "a" in after.approvals && after.approvals["a"].consumedBy == Some(Plain("r"))
                  && Execute(after, policy, delete, Some(own), now, now) == Outcome(after, Failure(ApprovalInvalid))
  {
    hide ProtectedPath, Dispatch;
    var tree: Tree := map[[] := Dir, p := File("text")];
    var issued := IssueApproval(Opened(tree), "a", Delete(p), "ann", 60, true, now);
    var read := Request(Plain("r"), ReadFile(p), "bob", None);
    SpentByAnotherIff(issued, policy, read, Some(madeUp), now, now, "a");
    ReadLeavesTree(tree, p, policy.limit);
    hide AddRows, ResultOf;
  }

  lemma ReadLeavesTree(t: Tree, p: Target, limit: Limit)
    ensures Dispatch(t, ReadFile(p), limit).tree == t
  {
  }

  /** Whatever refuses an execution before dispatch, a consumed approval among it, leaves no trace. */
  lemma RefusalLeavesNothing(s: Runtime, policy: Policy, request: Request, approval: Option<Approval>, now: int,
                             done: int)
    ensures var r := Execute(s, policy, request, approval, now, done);
            && (r.result.Failure? && r.result.error != DispatchFailed ==> r.state == s)
            && (request.id in s.actions ==> r.state == s)
            && (r.state != s ==>
                  request.id !in s.actions && request.id in r.state.actions && r.state.actions[request.id].result.Some?)
  {
    if Check(s, policy, request, approval, now).Open? {
      OpenIsFresh(s, policy, request, approval, now);
    }
    hide Check, Dispatch;
  }

  /** The request went through to the dispatcher, now or in an earlier attempt, and its outcome is stored. */
  predicate HasOutcome(s: Runtime, policy: Policy, request: Request, approval: Option<Approval>, now: int, done: int) {
    var r := Execute(s, policy, request, approval, now, done).result;
    r.Success? || r.error == DispatchFailed
  }

  /**
   Repeating a request after any further calls returns the stored result of its first execution
   and does nothing; a failed result is returned like any other, though the first execution raised.
   The id with other content is refused.
   */
  lemma RetryReplays(s: Runtime, policy: Policy, request: Request, approval: Option<Approval>, now: int, done: int,
                     more: seq<Timed>, other: Request, approval2: Option<Approval>, now2: int, done2: int)
    requires HasOutcome(s, policy, request, approval, now, done) && other.id == request.id
    ensures var first := Execute(s, policy, request, approval, now, done);
            var later := Play(first.state, policy, more);
            && GetResult(first.state.actions, request.id).Some?
            && var stored := GetResult(first.state.actions, request.id).value;
               && (if first.result.Success? then stored == first.result.value else stored.status == Status.Failed)
               && Execute(later, policy, other, approval2, now2, done2)
                  == if other == request then Outcome(later, Success(stored)) else Outcome(later, Failure(PolicyDenied))
  {
    var first := Execute(s, policy, request, approval, now, done);
    ExecutedHasResult(s, policy, request, approval, now, done);
    PlayKept(first.state, policy, more);
    hide Execute, Play, Begin, PlanFor;
    var later := Play(first.state, policy, more);
    assert RowKept(first.state.actions[request.id], later.actions[request.id]);
    ReplayOf(later, policy, other, approval2, now2, done2);
  }

  lemma ExecutedHasResult(s: Runtime, policy: Policy, request: Request, approval: Option<Approval>, now: int, done: int)
    requires HasOutcome(s, policy, request, approval, now, done)
    ensures var r := Execute(s, policy, request, approval, now, done);
            && request.id in r.state.actions && r.state.actions[request.id].stored == Requested(request)
            && r.state.actions[request.id].result.Some?
            && var stored := r.state.actions[request.id].result.value;
               if r.result.Success? then stored == r.result.value else stored.status == Status.Failed
  {
    hide PlanFor, ApprovalHolds, Unconsumed, Dispatch;
  }

  lemma ReplayOf(s: Runtime, policy: Policy, request: Request, approval: Option<Approval>, now: int, done: int)
    requires GetResult(s.actions, request.id).Some?
    ensures Execute(s, policy, request, approval, now, done)
            == if s.actions[request.id].stored == Requested(request) then
                 Outcome(s, Success(GetResult(s.actions, request.id).value))
               else Outcome(s, Failure(PolicyDenied))
  {
    hide PlanFor, ApprovalHolds, Unconsumed, Dispatch, Carry;
  }

  // ---------- undo over whole runs ----------

  /** Anything a crash or an outside edit leaves behind is still a tree. */
  ghost predicate Physical(calls: seq<Timed>) {
    forall i | 0 <= i < |calls| ::
      match calls[i].call
      case RunCrashed(_, _, torn, _) => WellFormed(torn)
      case ReverseCrashed(_, _, _, torn) => WellFormed(torn)
      case Outside(tree) => WellFormed(tree)
      case _ => true
  }

  ghost predicate GenuineRows(rows: seq<Backup>) {
    exists t0: Tree :: WellFormed(t0) && TakenFrom(rows, t0)
  }

  /** The workspace is a tree, and the backups of every action with a result were taken from one. */
  ghost predicate Sound(s: Runtime) {
    && WellFormed(s.tree)
    && (forall id | id in s.actions && s.actions[id].result.Some? :: GenuineRows(RowsFor(s.backups, id)))
    && (forall id | id in s.backups :: id in s.actions)
  }

  lemma {:induction false} RestoreKeepsTree(t: Tree, t0: Tree, rows: seq<Backup>)
    requires WellFormed(t) && WellFormed(t0) && TakenFrom(rows, t0)
    ensures WellFormed(RestoreRows(t, rows).tree)
    decreases |rows|
  {
    if rows != [] {
      var row := rows[|rows| - 1];
      assert row == BackupOf(t0, row.path);
      if RestoreRow(t, row).ok {
        RestoreRowAt(t, t0, row.path);
        hide RestoreRow, BackupOf, WellFormed, SameUnder;
        RestoreKeepsTree(RestoreRow(t, row).tree, t0, rows[..|rows| - 1]);
      } else {
        RemovedWellFormed(t, row.path);
      }
    }
  }

  lemma UndoSound(s: Runtime, target: ActionId, chosen: Option<ActionId>, requestedBy: string, now: int, done: int)
    requires Sound(s)
    ensures Sound(Undo(s, target, chosen, requestedBy, now, done).state)
  {
    hide RestoreRows, WellFormed, TakenFrom, PathsOf;
    var undoId := UndoId(target, chosen);
    if CheckUndo(s, target, undoId).UndoOpen? {
      var rows := RowsFor(s.backups, target);
      assert GenuineRows(rows);
      var t0: Tree :| WellFormed(t0) && TakenFrom(rows, t0);
      RestoreKeepsTree(s.tree, t0, rows);
      NoRowsGenuine(s.tree);
    }
  }

  lemma NoRowsGenuine(t: Tree)
    requires WellFormed(t)
    ensures GenuineRows([])
  {
    assert TakenFrom([], t);
  }

  lemma CarrySound(s: Runtime, policy: Policy, request: Request, approval: Option<Approval>, plan: Plan, now: int,
                   done: int)
    requires Sound(s) && request.id !in s.actions
    ensures Sound(Carry(s, policy, request, approval, plan, now, done).state)
    ensures RowsFor(Carry(s, policy, request, approval, plan, now, done).state.backups, request.id)
            == Dispatch(s.tree, request.action, policy.limit).rows
  {
    hide Dispatch, WellFormed, TakenFrom, ResultOf;
    DispatchProper(s.tree, request.action, policy.limit);
    var e := Dispatch(s.tree, request.action, policy.limit);
    assert GenuineRows(e.rows);
    assert RowsFor(s.backups, request.id) + e.rows == e.rows;
  }

  lemma CrashSound(s: Runtime, policy: Policy, request: Request, approval: Option<Approval>, now: int, torn: Tree,
                   rows: seq<Backup>)
    requires Sound(s) && WellFormed(torn)
    ensures Sound(ExecuteCrashed(s, policy, request, approval, now, torn, rows))
  {
    hide WellFormed, GenuineRows;
    if Check(s, policy, request, approval, now).Open? {
      OpenIsFresh(s, policy, request, approval, now);
    }
    hide Check;
  }

  lemma PerformSound(s: Runtime, policy: Policy, c: Timed)
    requires Sound(s) && Physical([c])
    ensures Sound(Perform(s, policy, c))
  {
    assert [c][0] == c;
    hide WellFormed, GenuineRows, Carry, Check, CheckUndo, Undo, ExecuteCrashed;
    match c.call
    case Issue(_, _, _, _, _) =>
    case Run(request, approval) =>
      if Check(s, policy, request, approval, c.now).Open? {
        OpenIsFresh(s, policy, request, approval, c.now);
        CarrySound(s, policy, request, approval, Check(s, policy, request, approval, c.now).plan, c.now, c.done);
      }
    case RunCrashed(request, approval, torn, rows) => CrashSound(s, policy, request, approval, c.now, torn, rows);
    case Reverse(target, chosen, who) => UndoSound(s, target, chosen, who, c.now, c.done);
    case ReverseCrashed(_, _, _, _) =>
    case Outside(_) =>
  }

  lemma {:induction false} PlaySound(s: Runtime, policy: Policy, calls: seq<Timed>)
    requires Sound(s) && Physical(calls)
    ensures Sound(Play(s, policy, calls))
  {
    hide Perform, Sound;
    if calls != [] {
      var last := calls[|calls| - 1];
      assert Physical([last]) && Physical(calls[..|calls| - 1]) by {
        assert [last][0] == last;
      }
      PlaySound(s, policy, calls[..|calls| - 1]);
      PerformSound(Play(s, policy, calls[..|calls| - 1]), policy, last);
    }
  }

  lemma OpenedSound(tree: Tree)
    requires WellFormed(tree)
    ensures Sound(Opened(tree))
  {
  }

  /**
   The first execution of an action dispatches it on the workspace of that moment, keeps exactly its
   backups, and stores a result, completed or failed; only reads are stored as irreversible.
   */
  lemma FirstExecution(s: Runtime, policy: Policy, request: Request, approval: Option<Approval>, now: int, done: int)
    requires Sound(s) && request.id !in s.actions && HasOutcome(s, policy, request, approval, now, done)
    ensures var first := Execute(s, policy, request, approval, now, done);
            var e := Dispatch(s.tree, request.action, policy.limit);
            && Sound(first.state) && request.id in first.state.actions
            && first.state.tree == e.tree && RowsFor(first.state.backups, request.id) == e.rows
            && GetResult(first.state.actions, request.id).Some?
            && var stored := GetResult(first.state.actions, request.id).value;
               stored.reversible == !request.action.ReadFile? && (stored.status == Completed <==> e.ok)
               && (first.result.Success? <==> e.ok)
  {
    var plan := Check(s, policy, request, approval, now).plan;
    CarrySound(s, policy, request, approval, plan, now, done);
    PlanReversible(s, policy, request, approval, now);
    hide Check, Dispatch, Sound, RowsFor;
  }

  lemma PlanReversible(s: Runtime, policy: Policy, request: Request, approval: Option<Approval>, now: int)
    requires Check(s, policy, request, approval, now).Open?
    ensures Check(s, policy, request, approval, now).plan.reversible == !request.action.ReadFile?
  {
    hide ApprovalHolds, Unconsumed, ProtectedPath;
  }

  /**
   Undo over whole runs. An action is dispatched, and completes or fails; then anything happens:
   other actions, other undos, crashes, edits from outside. An undo of it under an unused id completes
   exactly when the action backed something up and nothing obstructs putting that back; and then
   every backed-up path, with everything under it, is as it was just before the action first ran,
   while elsewhere nothing changes but missing directories above restored paths. An undo under an
   id that is already in the journal restores nothing: it answers with the result stored there,
   whatever that is the result of, and is refused when there is none.
   */
  lemma UndoAfterAnything(tree: Tree, policy: Policy, earlier: seq<Timed>, request: Request, approval: Option<Approval>,
                          now: int, done: int, more: seq<Timed>, chosen: Option<ActionId>, requestedBy: string,
                          now2: int, done2: int)
    requires WellFormed(tree) && Physical(earlier) && Physical(more)
    requires var s := Play(Opened(tree), policy, earlier);
             request.id !in s.actions && HasOutcome(s, policy, request, approval, now, done)
    ensures var s := Play(Opened(tree), policy, earlier);
            var later := Play(Execute(s, policy, request, approval, now, done).state, policy, more);
            var rows := Dispatch(s.tree, request.action, policy.limit).rows;
            var id := UndoId(request.id, chosen);
            var undone := Undo(later, request.id, chosen, requestedBy, now2, done2);
            && (undone.result.Success? <==>
                  if id in later.actions then !request.action.ReadFile? && later.actions[id].result.Some?
                  else BacksUp(s.tree, request.action, policy.limit)
                       && forall i | 0 <= i < |rows| :: !Obstructed(later.tree, s.tree, rows, i))
            && (id in later.actions ==>
                  && undone.state == later
                  && (undone.result.Success? ==> Some(undone.result.value) == later.actions[id].result))
            && (id !in later.actions && undone.result.Success? ==>
                  && AllSame(undone.state.tree, s.tree, rows)
                  && SameElsewhere(later.tree, undone.state.tree, rows, s.tree))
  {
    hide Play, Execute, HasOutcome, Dispatch, WellFormed, Obstructed, RestoreRows, AllSame, SameElsewhere, Physical,
         TakenFrom, PathsOf, BacksUp;
    OpenedSound(tree);
    PlaySound(Opened(tree), policy, earlier);
    var s := Play(Opened(tree), policy, earlier);
    FirstExecution(s, policy, request, approval, now, done);
    var first := Execute(s, policy, request, approval, now, done).state;
    PlaySound(first, policy, more);
    PlayKept(first, policy, more);
    var later := Play(first, policy, more);
    DispatchProper(s.tree, request.action, policy.limit);
    var rows := Dispatch(s.tree, request.action, policy.limit).rows;
    RestoreCompletesIff(later.tree, s.tree, rows);
    if RestoreRows(later.tree, rows).ok {
      RestoreIsExact(later.tree, s.tree, rows);
    }
    assert RowKept(first.actions[request.id], later.actions[request.id]);
    KeepsRowsIff(s.tree, request.action, policy.limit);
    if UndoId(request.id, chosen) in later.actions {
      UndoReplays(later, request.id, chosen, requestedBy, now2, done2);
    } else {
      UndoOutcome(later, request.id, chosen, requestedBy, now2, done2);
    }
  }

  /**
   Undo under an id that is in the journal already: a replay of what is stored there, or a refusal,
   and no restoration.
   */
  lemma UndoReplays(s: Runtime, target: ActionId, chosen: Option<ActionId>, requestedBy: string, now: int, done: int)
    requires GetResult(s.actions, target).Some? && UndoId(target, chosen) in s.actions
    ensures var stored := s.actions[UndoId(target, chosen)].result;
            Undo(s, target, chosen, requestedBy, now, done)
            == if !GetResult(s.actions, target).value.reversible then Outcome(s, Failure(NotReversible))
               else if stored.Some? then Outcome(s, Success(stored.value))
               else Outcome(s, Failure(Storage))
  {
    hide RestoreRows, PathsOf, RowsFor;
  }

  /** What an action has to back up: it is not a read, its source is there, and the first path is not too big. */
  predicate BacksUp(t: Tree, a: FileAction, limit: Limit) {
    match a
    case ReadFile(_) => false
    case WriteFile(p, _) => Fits(t, p, limit)
    case MakeDirectory(p, _, _) => Fits(t, p, limit)
    case Move(source, _) => source in t && Fits(t, source, limit)
    case Delete(p) => p in t && Fits(t, p, limit)
  }

  lemma KeepsRowsIff(t: Tree, a: FileAction, limit: Limit)
    ensures Dispatch(t, a, limit).rows != [] <==> BacksUp(t, a, limit)
    ensures BacksUp(t, a, limit) ==> !a.ReadFile?
  {
    hide Fits, WithParents, BlockedBy, Moved, Removed;
  }

  /** A completed action other than a read always has something to put back. */
  lemma CompletedKeepsRows(t: Tree, a: FileAction, limit: Limit)
    requires Dispatch(t, a, limit).ok && !a.ReadFile?
    ensures Dispatch(t, a, limit).rows != []
  {
    hide WithParents, BlockedBy, Moved, Removed;
  }

  lemma UndoOutcome(s: Runtime, target: ActionId, chosen: Option<ActionId>, requestedBy: string, now: int, done: int)
    requires GetResult(s.actions, target).Some? && UndoId(target, chosen) !in s.actions
    ensures var r := Undo(s, target, chosen, requestedBy, now, done);
            var rows := RowsFor(s.backups, target);
            && (r.result.Success?
                <==> GetResult(s.actions, target).value.reversible && rows != [] && RestoreRows(s.tree, rows).ok)
            && (r.result.Success? ==> r.state.tree == RestoreRows(s.tree, rows).tree)
            && (!GetResult(s.actions, target).value.reversible || rows == [] ==> r.state.tree == s.tree)
  {
    hide RestoreRows, PathsOf, RowsFor;
  }
}
