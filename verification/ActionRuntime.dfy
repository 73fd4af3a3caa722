/**
 The action runtime as an object: it updates its tables and the workspace in place.
 Each method is proved to do what the corresponding function of ActionJournal says.
 */
module ActionRuntimes {
  import opened Prelude
  import opened FileTree
  import opened FileActions
  import Journal = ActionJournal

  class ActionRuntime {
    const policy: Journal.Policy
    var tree: Tree
    var actions: map<Journal.ActionId, Journal.ActionRow>
    var approvals: map<string, Journal.ApprovalRow>
    var backups: map<Journal.ActionId, seq<Backup>>
    ghost var dispatched: seq<Journal.ActionId>

    ghost function State(): Journal.Runtime
      reads this
    {
      Journal.Runtime(tree, actions, approvals, backups, dispatched)
    }

    constructor (policy: Journal.Policy, workspace: Tree)
      ensures State() == Journal.Opened(workspace) && this.policy == policy
    {
      this.policy := policy;
      tree, actions, approvals, backups, dispatched := workspace, map[], map[], map[], [];
    }

    method IssueApproval(id: string, a: FileAction, issuedBy: string, ttl: int, oneTime: bool, now: int)
      returns (r: Result<Journal.Approval, Journal.Error>)
      modifies this`approvals
      ensures State() == Journal.IssueApproval(old(State()), id, a, issuedBy, ttl, oneTime, now)
      ensures r.Success? <==> 1 <= ttl <= 86_400 && id !in old(approvals)
      ensures r.Success? ==>
                id in approvals && approvals[id].issued == r.value && r.value.unsigned.digest == Journal.Digest(a)
      ensures r.Failure? ==> r.error == if ttl < 1 || ttl > 86_400 then Journal.InvalidArgument else Journal.Storage
    {
      if ttl < 1 || ttl > 86_400 { return Failure(Journal.InvalidArgument); }
      if id in approvals { return Failure(Journal.Storage); }
      var unsigned := Journal.Unsigned(id, Journal.Digest(a), issuedBy, now, Some(now + ttl), oneTime);
      var approval := Journal.Approval(unsigned, Journal.Hmac(unsigned));
      approvals := approvals[id := Journal.ApprovalRow(approval, None)];
      return Success(approval);
    }

    /** Copies what is at a path to the backup area and records the row; refuses when the copy would be too big. */
    method BackupPath(id: Journal.ActionId, p: Target) returns (ok: bool)
      modifies this`backups
      ensures ok == Fits(tree, p, policy.limit)
      ensures backups == Journal.AddRows(old(backups), id, if ok then [BackupOf(tree, p)] else [])
    {
      ok := Fits(tree, p, policy.limit);
      if ok {
        backups :=
          backups[id := Journal.RowsFor(backups, id) + [Backup(p, if p in tree then Some(Subtree(tree, p)) else None)]];
      }
    }

    method CreateParents(p: Target) returns (ok: bool)
      modifies this`tree
      ensures ok == !BlockedBy(old(tree), p)
      ensures tree == if ok then WithParents(old(tree), p) else old(tree)
    {
      ok := !BlockedBy(tree, p);
      if ok { tree := WithParents(tree, p); }
    }

    method WriteFile(id: Journal.ActionId, p: Target, content: string) returns (ok: bool)
      modifies this`tree, this`backups
      ensures var e := Write(old(tree), p, content, policy.limit);
              ok == e.ok && tree == e.tree && backups == Journal.AddRows(old(backups), id, e.rows)
    {
      ok := BackupPath(id, p);
      if !ok { return; }
      ok := CreateParents(p);
      if !ok { return; }
      if IsDirectory(tree, p) { return false; }
      tree := tree[p := File(content)];
    }

    method MakeDirectory(id: Journal.ActionId, p: Target, parents: bool, existOk: bool) returns (ok: bool)
      modifies this`tree, this`backups
      ensures var e := MakeDir(old(tree), p, parents, existOk, policy.limit);
              ok == e.ok && tree == e.tree && backups == Journal.AddRows(old(backups), id, e.rows)
    {
      ok := BackupPath(id, p);
      if !ok { return; }
      if p in tree { return existOk && tree[p] == Dir; }
      if parents {
        ok := CreateParents(p);
        if !ok { return; }
      } else if !IsDirectory(tree, Parent(p)) {
        return false;
      }
      tree := tree[p := Dir];
    }

    method MoveFile(id: Journal.ActionId, source: Target, target: Target) returns (ok: bool)
      modifies this`tree, this`backups
      ensures var e := MoveTo(old(tree), source, target, policy.limit);
              ok == e.ok && tree == e.tree && backups == Journal.AddRows(old(backups), id, e.rows)
    {
      if source !in tree { return false; }
      ok := BackupPath(id, source);
      if !ok { return; }
      ok := BackupPath(id, target);
      if !ok { return; }
      assert Journal.RowsFor(old(backups), id) + [BackupOf(tree, source)] + [BackupOf(tree, target)]
          == Journal.RowsFor(old(backups), id) + [BackupOf(tree, source), BackupOf(tree, target)];
      ok := CreateParents(target);
      if !ok { return; }
      var moved := Moved(tree, source, target);
      if moved.None? { return false; }
      tree := moved.value;
    }

    method DeletePath(id: Journal.ActionId, p: Target) returns (ok: bool)
      modifies this`tree, this`backups
      ensures var e := DeleteTree(old(tree), p, policy.limit);
              ok == e.ok && tree == e.tree && backups == Journal.AddRows(old(backups), id, e.rows)
    {
      if p !in tree { return false; }
      ok := BackupPath(id, p);
      if ok { tree := Removed(tree, p); }
    }

    method DispatchAction(id: Journal.ActionId, a: FileAction) returns (ok: bool)
      modifies this`tree, this`backups, this`dispatched
      ensures var e := Dispatch(old(tree), a, policy.limit);
              ok == e.ok && tree == e.tree && backups == Journal.AddRows(old(backups), id, e.rows)
      ensures dispatched == old(dispatched) + [id]
    {
      hide Write, MakeDir, MoveTo, DeleteTree;
      dispatched := dispatched + [id];
      match a
      case ReadFile(p) => ok := IsFile(tree, p);
      case WriteFile(p, content) => ok := WriteFile(id, p, content);
      case MakeDirectory(p, parents, existOk) => ok := MakeDirectory(id, p, parents, existOk);
      case Move(source, target) => ok := MoveFile(id, source, target);
      case Delete(p) => ok := DeletePath(id, p);
    }

    method PersistResult(result: Journal.ActionResult)
      requires result.id in actions
      modifies this`actions
      ensures actions == old(actions)[result.id := old(actions)[result.id].(result := Some(result))]
    {
      actions := actions[result.id := actions[result.id].(result := Some(result))];
    }

    /** Journals the action as running and consumes its one-time approval, in one transaction. */
    method Begin(request: Journal.Request, approval: Option<Journal.Approval>, now: int)
      modifies this`actions, this`approvals
      ensures State() == Journal.Begin(old(State()), request, approval, now)
    {
      var approvalId := if approval.Some? then Some(approval.value.unsigned.id) else None;
      actions :=
        actions[request.id :=
                  Journal.ActionRow(Journal.Requested(request), request.requestedBy, approvalId, now, None)];
      if approval.Some? && approval.value.unsigned.oneTime
         && Journal.Unconsumed(approvals, approval.value.unsigned.id) {
        var key := approval.value.unsigned.id;
        approvals := approvals[key := approvals[key].(consumedBy := Some(request.id))];
      }
    }

    method Execute(request: Journal.Request, approval: Option<Journal.Approval>, now: int, done: int)
      returns (r: Result<Journal.ActionResult, Journal.Error>)
      modifies this`tree, this`actions, this`approvals, this`backups, this`dispatched
      ensures Journal.Outcome(State(), r) == Journal.Execute(old(State()), policy, request, approval, now, done)
    {
      hide Journal.Begin, Dispatch, Journal.PlanFor, Journal.ApprovalHolds, Journal.AddRows, Journal.ResultOf;
      var prior := Journal.GetResult(actions, request.id);
      if prior.Some? {
        if actions[request.id].stored == Journal.Requested(request) { return Success(prior.value); }
        return Failure(Journal.PolicyDenied);
      }
      var plan := Journal.PlanFor(tree, policy, request.action);
      if plan.Failure? { return Failure(plan.error); }
      if plan.value.requiresApproval {
        if approval.None? { return Failure(Journal.ApprovalRequired); }
        if !Journal.ApprovalHolds(approvals, approval.value, plan.value, request.id, now) {
          return Failure(Journal.ApprovalInvalid);
        }
      }
      if request.id in actions { return Failure(Journal.Storage); }
      if approval.Some? && approval.value.unsigned.oneTime
         && !Journal.Unconsumed(approvals, approval.value.unsigned.id) {
        return Failure(Journal.ApprovalInvalid);
      }
      r := Carry(request, approval, plan.value, now, done);
    }

    method Carry(request: Journal.Request, approval: Option<Journal.Approval>, plan: Journal.Plan, now: int, done: int)
      returns (r: Result<Journal.ActionResult, Journal.Error>)
      modifies this`tree, this`actions, this`approvals, this`backups, this`dispatched
      ensures Journal.Outcome(State(), r) == Journal.Carry(old(State()), policy, request, approval, plan, now, done)
    {
      hide Dispatch, Journal.AddRows;
      Begin(request, approval, now);
      var ok := DispatchAction(request.id, request.action);
      var result :=
        if ok then Journal.ActionResult(request.id, Journal.Completed, now, done, !request.action.ReadFile?,
                                        Journal.ChangedPaths(request.action))
        else Journal.ActionResult(request.id, Journal.Failed, now, done, plan.reversible, {});
      PersistResult(result);
      if ok { return Success(result); }
      return Failure(Journal.DispatchFailed);
    }

    /** Restores the backup rows of an action, highest ordinal first, changing the workspace as it goes. */
    method RestoreBackups(rows: seq<Backup>) returns (ok: bool)
      modifies this`tree
      ensures Restoration(tree, ok) == RestoreRows(old(tree), rows)
    {
      var i := |rows|;
      assert rows[..i] == rows;
      while i > 0
        invariant 0 <= i <= |rows|
        invariant RestoreRows(old(tree), rows) == RestoreRows(tree, rows[..i])
      {
        hide WithParents, BlockedBy, Removed;
        var row := rows[i - 1];
        assert rows[..i][..i - 1] == rows[..i - 1] && rows[..i][i - 1] == row;
        ghost var before := tree;
        tree := Removed(tree, row.path);
        if row.saved.Some? {
          if BlockedBy(tree, row.path) { return false; }
          tree := WithParents(tree, row.path) + row.saved.value;
        }
        assert RestoreRow(before, row) == Restoration(tree, true);
        i := i - 1;
      }
      return true;
    }

    method Undo(target: Journal.ActionId, chosen: Option<Journal.ActionId>, requestedBy: string, now: int, done: int)
      returns (r: Result<Journal.ActionResult, Journal.Error>)
      modifies this`tree, this`actions
      ensures Journal.Outcome(State(), r) == Journal.Undo(old(State()), target, chosen, requestedBy, now, done)
    {
      hide RestoreRows;
      var undoId := Journal.UndoId(target, chosen);
      var original := Journal.GetResult(actions, target);
      if original.None? { return Failure(Journal.NotFound); }
      if !original.value.reversible { return Failure(Journal.NotReversible); }
      var existing := Journal.GetResult(actions, undoId);
      if existing.Some? { return Success(existing.value); }
      if undoId in actions { return Failure(Journal.Storage); }
      actions := actions[undoId := Journal.ActionRow(Journal.UndoRequested(target), requestedBy, None, now, None)];
      var rows := Journal.RowsFor(backups, target);
      if rows == [] { return Failure(Journal.NotReversible); }
      var ok := RestoreBackups(rows);
      if !ok { return Failure(Journal.RestoreFailed); }
      var result := Journal.ActionResult(undoId, Journal.Completed, now, done, false, Journal.PathsOf(rows));
      PersistResult(result);
      return Success(result);
    }
  }
}
