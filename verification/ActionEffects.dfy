/**
 When a file action completes and what the workspace then holds, path by path.
 */
module ActionEffects {
  import opened Prelude
  import opened FileTree
  import opened FileActions
  import opened UndoGuarantees
  import opened UndoChains
  import opened ActionJournal
  import opened JournalGuarantees

  /** Whatever exists above a path is a directory. */
  ghost predicate ClearAbove(t: Tree, p: Path) {
    forall q | Above(q, p) && q in t :: t[q] == Dir
  }

  /** Where a moved path comes to rest: inside the target when that is another directory. */
  ghost function RestingPlace(t: Tree, source: Target, target: Target): Target {
    if IsDirectory(t, target) && source != target then target + [source[|source| - 1]] else target
  }

  /** The action can be carried out on this workspace. */
  ghost predicate Feasible(t: Tree, a: FileAction, limit: Limit) {
    match a
    case ReadFile(p) => IsFile(t, p)
    case WriteFile(p, _) => Fits(t, p, limit) && ClearAbove(t, p) && !IsDirectory(t, p)
    case MakeDirectory(p, parents, existOk) =>
      && Fits(t, p, limit)
      && (p in t ==> existOk && t[p] == Dir)
      && (p !in t ==> ClearAbove(t, p) && (parents || IsDirectory(t, Parent(p))))
    case Move(source, target) =>
      && source in t && Fits(t, source, limit) && Fits(t, target, limit) && ClearAbove(t, target)
      && (source != target ==>
            var place := RestingPlace(t, source, target);
            if place in t then IsFile(t, source) && IsFile(t, target)
            else IsFile(t, source) || !Under(source, place))
    case Delete(p) => p in t && Fits(t, p, limit)
  }

  /** A path is as it was, or a new directory above `made`. */
  ghost predicate Untouched(t: Tree, after: Tree, q: Path, made: Path) {
    (q in after <==> q in t || Above(q, made)) && (q in after ==> after[q] == if q in t then t[q] else Dir)
  }

  /** Everything at or under `source` is at the same place at or under `place`, and nothing else is there. */
  ghost predicate Transferred(t: Tree, after: Tree, source: Path, place: Path) {
    && (forall q | Under(source, q) :: q !in after)
    && (forall rest :: place + rest in after <==> source + rest in t)
    && (forall rest | source + rest in t :: place + rest in after && after[place + rest] == t[source + rest])
  }

  /** What the action was asked for has been done, and nothing else. */
  ghost predicate Performed(t: Tree, after: Tree, a: FileAction) {
    match a
    case ReadFile(_) => after == t
    case WriteFile(p, content) =>
      p in after && after[p] == File(content) && forall q | q != p :: Untouched(t, after, q, p)
    case MakeDirectory(p, _, _) =>
      p in after && after[p] == Dir && forall q | q != p :: Untouched(t, after, q, p)
    case Move(source, target) =>
      if source == target then after == t
      else
        var place := RestingPlace(t, source, target);
        && Transferred(t, after, source, place)
        && forall q | !Under(source, q) && !Under(place, q) :: Untouched(t, after, q, target)
    case Delete(p) =>
      forall q :: if Under(p, q) then q !in after else (q in after <==> q in t) && (q in t ==> after[q] == t[q])
  }

  /** A failed action has lost nothing, and left at most new directories above its destination. */
  ghost predicate Spared(t: Tree, after: Tree, a: FileAction) {
    && (forall q | q in t :: q in after && after[q] == t[q])
    && (forall q | q in after && q !in t :: after[q] == Dir && Above(q, Destination(a)))
  }

  lemma ClearIff(t: Tree, p: Path)
    ensures ClearAbove(t, p) <==> !BlockedBy(t, p)
  {
    forall q ensures q in AncestorsOf(p) <==> Above(q, p) {
      AncestorIsAbove(q, p);
    }
  }

  lemma ParentsUntouched(t: Tree, p: Target)
    requires WellFormed(t) && ClearAbove(t, p)
    ensures WellFormed(WithParents(t, p)) && forall q :: Untouched(t, WithParents(t, p), q, p)
    ensures p in WithParents(t, p) <==> p in t
    ensures forall q | Above(q, p) :: q in WithParents(t, p) && WithParents(t, p)[q] == Dir
  {
    ClearIff(t, p);
    WithParentsWellFormed(t, p);
    NotBoth(p, p);
  }

  lemma PutDoes(t: Tree, p: Target, node: Node)
    requires WellFormed(t) && ClearAbove(t, p)
    ensures var after := WithParents(t, p)[p := node];
            after[p] == node && forall q | q != p :: Untouched(t, after, q, p)
  {
    ParentsUntouched(t, p);
    var ready := WithParents(t, p);
    var after := ready[p := node];
    hide WithParents, WellFormed, ClearAbove, Above;
    forall q | q != p ensures Untouched(t, after, q, p) {
      assert Untouched(t, ready, q, p);
    }
  }

  lemma ParentsSpare(t: Tree, a: FileAction)
    requires WellFormed(t) && ClearAbove(t, Destination(a))
    ensures Spared(t, t, a) && Spared(t, WithParents(t, Destination(a)), a)
  {
    ParentsUntouched(t, Destination(a));
    var ready := WithParents(t, Destination(a));
    hide WithParents, WellFormed, ClearAbove, Above;
    forall q ensures Untouched(t, ready, q, Destination(a)) {}
  }

  lemma NothingSpares(t: Tree, a: FileAction)
    ensures Spared(t, t, a)
  {
  }

  lemma WriteDoes(t: Tree, p: Target, content: string, limit: Limit)
    requires WellFormed(t)
    ensures var a, e := WriteFile(p, content), Write(t, p, content, limit);
            && (e.ok <==> Feasible(t, a, limit))
            && if e.ok then Performed(t, e.tree, a) else Spared(t, e.tree, a)
  {
    var a := WriteFile(p, content);
    ClearIff(t, p);
    NothingSpares(t, a);
    if ClearAbove(t, p) {
      PutDoes(t, p, File(content));
      ParentsSpare(t, a);
    }
    hide ClearAbove, WithParents, BlockedBy, WellFormed, Fits, BackupOf, Untouched, Spared;
  }

  lemma MakeDirDoes(t: Tree, p: Target, parents: bool, existOk: bool, limit: Limit)
    requires WellFormed(t)
    ensures var a, e := MakeDirectory(p, parents, existOk), MakeDir(t, p, parents, existOk, limit);
            && (e.ok <==> Feasible(t, a, limit))
            && if e.ok then Performed(t, e.tree, a) else Spared(t, e.tree, a)
  {
    ClearIff(t, p);
    NothingSpares(t, MakeDirectory(p, parents, existOk));
    if p in t || IsDirectory(t, Parent(p)) {
      DirectoriesAbove(t, p);
      var made := t[p := Dir];
      forall q ensures Untouched(t, t, q, p) {}
      assert forall q | q != p :: Untouched(t, made, q, p);
    }
    if ClearAbove(t, p) {
      PutDoes(t, p, Dir);
    }
    hide ClearAbove, WithParents, BlockedBy, WellFormed, Fits, BackupOf, Untouched, Spared, Parent;
  }

  /** What exists, or lies in an existing directory, has nothing but existing directories above it. */
  lemma DirectoriesAbove(t: Tree, p: Target)
    requires WellFormed(t) && (p in t || IsDirectory(t, Parent(p)))
    ensures ClearAbove(t, p) && forall q | Above(q, p) :: q in t
  {
    forall q | Above(q, p) ensures q in t && t[q] == Dir {
      if p in t {
        AncestorsExist(t, p, q);
      } else if q != Parent(p) {
        assert Above(q, Parent(p)) by { assert Parent(p)[..|q|] == p[..|q|]; }
        AncestorsExist(t, Parent(p), q);
      }
    }
  }

  lemma DeleteDoes(t: Tree, p: Target, limit: Limit)
    requires WellFormed(t)
    ensures var a, e := Delete(p), DeleteTree(t, p, limit);
            && (e.ok <==> Feasible(t, a, limit))
            && if e.ok then Performed(t, e.tree, a) else Spared(t, e.tree, a)
  {
    RemovedAt(t, p);
    hide Removed, Fits, BackupOf, WellFormed, Under, Above;
  }

  // ---------- moves ----------

  /** Outside the two subtrees both trees agree. */
  ghost predicate SameOutside(t: Tree, after: Tree, source: Path, place: Path) {
    forall q | !Under(source, q) && !Under(place, q) :: (q in after <==> q in t) && (q in t ==> after[q] == t[q])
  }

  lemma FileTransfers(t: Tree, source: Target, place: Target)
    requires WellFormed(t) && IsFile(t, source) && source != place && !Under(source, place)
    requires place in t ==> t[place].File?
    ensures var after := Removed(t, source)[place := t[source]];
            Transferred(t, after, source, place) && SameOutside(t, after, source, place)
  {
    RemovedAt(t, source);
    var after := Removed(t, source)[place := t[source]];
    hide Removed;
    forall rest | source + rest in t ensures rest == [] {
      NothingBelowFile(t, source, rest);
    }
    forall rest | place + rest in t ensures rest == [] {
      NothingBelowFile(t, place, rest);
    }
    forall q | Under(source, q) ensures q !in after {}
    forall rest ensures place + rest in after <==> source + rest in t {
      if rest == [] {
        assert place + rest == place && source + rest == source;
      } else {
        assert place + rest != place;
      }
    }
    forall rest | source + rest in t ensures place + rest in after && after[place + rest] == t[source + rest] {
      assert rest == [] && place + rest == place && source + rest == source;
    }
  }

  lemma NothingBelowFile(t: Tree, p: Target, rest: Path)
    requires WellFormed(t) && (p in t ==> t[p].File?) && p + rest in t
    ensures rest == []
  {
    if rest != [] {
      assert Above(p, p + rest) by { assert (p + rest)[..|p|] == p; }
      AncestorsExist(t, p + rest, p);
      assert false;
    }
  }

  lemma PrefixesMeet(a: Path, b: Path, q: Path)
    requires Under(a, q) && Under(b, q)
    ensures Under(a, b) || Under(b, a)
  {
    if |a| <= |b| {
      assert b[..|a|] == q[..|b|][..|a|];
    } else {
      assert a[..|b|] == q[..|a|][..|b|];
    }
  }

  lemma RenamedTransfers(t: Tree, source: Target, place: Target)
    requires WellFormed(t) && source in t && place !in t && !Under(source, place)
    ensures Transferred(t, Renamed(t, source, place), source, place)
    ensures SameOutside(t, Renamed(t, source, place), source, place)
  {
    var after := Renamed(t, source, place);
    RenamedAt(t, source, place);
    NothingUnder(t, place);
    hide Renamed, WellFormed;
    forall q | Under(source, q) ensures q !in after {
      if Under(place, q) {
        PrefixesMeet(source, place, q);
      }
    }
    forall rest ensures place + rest in after <==> source + rest in t {
      assert (place + rest)[|place|..] == rest && Under(place, place + rest);
    }
    forall rest | source + rest in t ensures place + rest in after && after[place + rest] == t[source + rest] {
      assert (place + rest)[|place|..] == rest && Under(place, place + rest);
    }
  }

  /** What a move does to the tree with its target's parents made, seen from the tree before they were made. */
  lemma TransferFromBefore(t: Tree, ready: Tree, after: Tree, source: Target, place: Target, target: Target)
    requires forall q :: Untouched(t, ready, q, target)
    requires Transferred(ready, after, source, place) && SameOutside(ready, after, source, place)
    requires !Under(source, target)
    ensures Transferred(t, after, source, place)
    ensures forall q | !Under(source, q) && !Under(place, q) :: Untouched(t, after, q, target)
  {
    forall rest ensures source + rest in ready <==> source + rest in t
      ensures source + rest in t ==> ready[source + rest] == t[source + rest]
    {
      assert Untouched(t, ready, source + rest, target);
      assert Under(source, source + rest);
      if Above(source + rest, target) {
        UnderTransitive(source, source + rest, target);
      }
    }
    forall q | !Under(source, q) && !Under(place, q) ensures Untouched(t, after, q, target) {
      assert Untouched(t, ready, q, target);
    }
  }

  lemma MoveDoes(t: Tree, source: Target, target: Target, limit: Limit)
    requires WellFormed(t)
    ensures var a, e := Move(source, target), MoveTo(t, source, target, limit);
            && (e.ok <==> Feasible(t, a, limit))
            && if e.ok then Performed(t, e.tree, a) else Spared(t, e.tree, a)
  {
    var a := Move(source, target);
    NothingSpares(t, a);
    ClearIff(t, target);
    if source in t && Fits(t, source, limit) && Fits(t, target, limit) && ClearAbove(t, target) {
      ParentsSpare(t, a);
      ParentsUntouched(t, target);
      MovedDoes(t, source, target);
      hide Performed, Spared, Moved, ClearAbove, WithParents, BlockedBy, WellFormed, Fits, BackupOf;
    } else {
      hide Performed, Spared, Moved, ClearAbove, WithParents, BlockedBy, WellFormed, Fits, BackupOf;
    }
  }

  lemma NothingMade(t: Tree, ready: Tree, p: Target)
    requires WellFormed(t) && p in t && forall q :: Untouched(t, ready, q, p)
    ensures ready == t
  {
    DirectoriesAbove(t, p);
    forall q ensures (q in ready <==> q in t) && (q in t ==> ready[q] == t[q]) {
      assert Untouched(t, ready, q, p);
    }
  }

  /** Making the target's parents does not change where a moved path comes to rest, or what is there. */
  lemma SameLanding(t: Tree, ready: Tree, source: Target, target: Target)
    requires forall q :: Untouched(t, ready, q, target)
    ensures var place := RestingPlace(t, source, target);
            && Landing(ready, source, target) == place
            && Under(target, place) && (place in ready <==> place in t) && (place in t ==> ready[place] == t[place])
            && (IsDirectory(ready, target) <==> IsDirectory(t, target))
            && (IsFile(ready, target) <==> IsFile(t, target))
  {
    var place := RestingPlace(t, source, target);
    NotBoth(target, target);
    assert Untouched(t, ready, target, target) && Untouched(t, ready, place, target);
    assert Under(target, place);
    NotBoth(place, target);
  }

  /** A file above its target would be in the target's way. */
  lemma FileNotAbove(t: Tree, source: Target, target: Target)
    requires ClearAbove(t, target) && IsFile(t, source) && source != target
    requires var place := RestingPlace(t, source, target); place !in t || IsFile(t, target)
    ensures !Under(source, target) && !Under(source, RestingPlace(t, source, target))
  {
    var place := RestingPlace(t, source, target);
    assert !Above(source, target);
    assert |source| == |target| && Under(source, target) ==> source == target;
    assert |source| == |place| && Under(source, place) ==> source == place;
    assert |source| <= |target| && Under(source, place) ==> Under(source, target) by {
      assert |source| <= |target| ==> place[..|source|] == target[..|source|];
    }
  }

  lemma NotAboveEither(source: Path, target: Path, place: Path)
    requires Under(target, place) && !Under(source, place)
    ensures !Under(source, target)
  {
    if Under(source, target) {
      UnderTransitive(source, target, place);
    }
  }

  lemma MovedDoes(t: Tree, source: Target, target: Target)
    requires WellFormed(t) && source in t && ClearAbove(t, target)
    ensures source in WithParents(t, target)
    ensures var place := RestingPlace(t, source, target);
            Moved(WithParents(t, target), source, target).Some?
            <==> (source != target ==> if place in t then IsFile(t, source) && IsFile(t, target)
                                       else IsFile(t, source) || !Under(source, place))
    ensures Moved(WithParents(t, target), source, target).Some? ==>
              Performed(t, Moved(WithParents(t, target), source, target).value, Move(source, target))
  {
    var ready := WithParents(t, target);
    ParentsUntouched(t, target);
    var place := RestingPlace(t, source, target);
    SameLanding(t, ready, source, target);
    assert Untouched(t, ready, source, target) && Untouched(t, ready, place, target);
    hide WithParents, Removed, Renamed, WellFormed, Transferred, SameOutside, Landing, RestingPlace, ClearAbove, Under,
         Above, Untouched;
    if source == target {
      NothingMade(t, ready, target);
    } else if IsFile(t, source) {
      if place !in t || IsFile(t, target) {
        FileNotAbove(t, source, target);
        FileTransfers(ready, source, place);
        TransferFromBefore(t, ready, Removed(ready, source)[place := ready[source]], source, place, target);
      }
    } else if !Under(source, place) && place !in t {
      NotAboveEither(source, target, place);
      RenamedTransfers(ready, source, place);
      TransferFromBefore(t, ready, Renamed(ready, source, place), source, place, target);
    }
  }

  // ---------- any action, through the runtime ----------

  /**
   An action completes exactly when it is feasible, and has then done what was asked and nothing
   else; otherwise it has lost nothing.
   */
  lemma DispatchDoes(t: Tree, a: FileAction, limit: Limit)
    requires WellFormed(t)
    ensures var e := Dispatch(t, a, limit);
            && (e.ok <==> Feasible(t, a, limit))
            && if e.ok then Performed(t, e.tree, a) else Spared(t, e.tree, a)
  {
    hide Write, MakeDir, MoveTo, DeleteTree, WellFormed;
    match a
    case ReadFile(_) => NothingSpares(t, a);
    case WriteFile(p, content) => WriteDoes(t, p, content, limit);
    case MakeDirectory(p, parents, existOk) => MakeDirDoes(t, p, parents, existOk, limit);
    case Move(source, target) => MoveDoes(t, source, target, limit);
    case Delete(p) => DeleteDoes(t, p, limit);
  }

  /** No path the action changes is at or under a denied one, and what it reads, moves or deletes is there. */
  predicate Allowed(t: Tree, policy: Policy, a: FileAction) {
    !Misses(t, a) && forall p, base | p in ChangedPaths(a) && base in policy.denied :: !Under(base, p)
  }

  predicate Misses(t: Tree, a: FileAction) {
    match a
    case ReadFile(p) => p !in t
    case Delete(p) => p !in t
    case Move(source, _) => source !in t
    case _ => false
  }

  /** The approval is registered as presented, was signed for this very action, and has not expired. */
  predicate Vouches(s: Runtime, approval: Approval, a: FileAction, now: int) {
    var u := approval.unsigned;
    && u.id in s.approvals && s.approvals[u.id].issued == approval && approval.signature == Hmac(u)
    && u.digest == Digest(a) && u.expiresAt.Some? && now < u.expiresAt.value
  }

  /** A new request the runtime lets through: allowed, vouched for if need be, and on an unused one-time approval. */
  predicate Admitted(s: Runtime, policy: Policy, request: Request, approval: Option<Approval>, now: int) {
    && Allowed(s.tree, policy, request.action)
    && (NeedsApproval(policy, request.action) ==>
          approval.Some? && Vouches(s, approval.value, request.action, now))
    && (approval.Some? && approval.value.unsigned.oneTime ==> Unconsumed(s.approvals, approval.value.unsigned.id))
  }

  lemma PlanIff(t: Tree, policy: Policy, a: FileAction)
    ensures PlanFor(t, policy, a)
            == if Misses(t, a) then Failure(NotFound)
               else if !Allowed(t, policy, a) then Failure(PolicyDenied)
               else Success(Plan(NeedsApproval(policy, a), !a.ReadFile?, Digest(a)))
  {
    hide Under;
  }

  /** Why a new request is refused: what it names is missing, it is denied, or its approval is missing or no good. */
  function Refusal(s: Runtime, policy: Policy, request: Request, approval: Option<Approval>): Error {
    var a := request.action;
    if Misses(s.tree, a) then NotFound
    else if !Allowed(s.tree, policy, a) then PolicyDenied
    else if NeedsApproval(policy, a) && approval.None? then ApprovalRequired
    else ApprovalInvalid
  }

  lemma OpenIff(s: Runtime, policy: Policy, request: Request, approval: Option<Approval>, now: int)
    requires request.id !in s.actions
    ensures var check := Check(s, policy, request, approval, now);
            if Admitted(s, policy, request, approval, now) then
              check == Open(Plan(NeedsApproval(policy, request.action), !request.action.ReadFile?,
                                 Digest(request.action)))
            else check == Closed(Refusal(s, policy, request, approval))
  {
    PlanIff(s.tree, policy, request.action);
    hide PlanFor, NeedsApproval, Misses, ChangedPaths, Under;
  }

  /** The journal's record of an action: what was requested, by whom, on which approval, when, and how it ended. */
  ghost predicate Recorded(s: Runtime, after: Runtime, request: Request, approval: Option<Approval>, now: int,
                           result: ActionResult) {
    && request.id in after.actions
    && after.actions[request.id]
       == ActionRow(Requested(request), request.requestedBy,
                    if approval.Some? then Some(approval.value.unsigned.id) else None, now, Some(result))
    && (forall id | id != request.id ::
          (id in after.actions <==> id in s.actions) && (id in s.actions ==> after.actions[id] == s.actions[id]))
    && after.dispatched == s.dispatched + [request.id]
    && (forall x | x in s.approvals ::
          && x in after.approvals && after.approvals[x].issued == s.approvals[x].issued
          && after.approvals[x].consumedBy
             == if approval.Some? && approval.value.unsigned.oneTime && approval.value.unsigned.id == x
                then Some(request.id) else s.approvals[x].consumedBy)
  }

  /** What a request that is let through leaves in workspace and journal. */
  lemma CarryDoes(s: Runtime, policy: Policy, request: Request, approval: Option<Approval>, plan: Plan, now: int,
                  done: int)
    requires plan.reversible == !request.action.ReadFile?
    requires approval.Some? && approval.value.unsigned.oneTime ==> Unconsumed(s.approvals, approval.value.unsigned.id)
    ensures var r := Carry(s, policy, request, approval, plan, now, done);
            var e := Dispatch(s.tree, request.action, policy.limit);
            var status := if e.ok then Completed else Failed;
            var result := ActionResult(request.id, status, now, done, !request.action.ReadFile?,
                                       if e.ok then ChangedPaths(request.action) else {});
            && r.result == (if e.ok then Success(result) else Failure(DispatchFailed))
            && r.state.tree == e.tree && Recorded(s, r.state, request, approval, now, result)
  {
    hide Dispatch, AddRows;
  }

  /**
   A request under a new id goes through to dispatch exactly when it is admitted, and succeeds exactly
   when its action is also feasible; it has then done what was asked, and nothing else, and the journal
   says so. A request that is not admitted is told why and changes nothing.
   */
  lemma ExecuteIff(s: Runtime, policy: Policy, request: Request, approval: Option<Approval>, now: int, done: int)
    requires WellFormed(s.tree) && request.id !in s.actions
    ensures var r := Execute(s, policy, request, approval, now, done);
            var admitted := Admitted(s, policy, request, approval, now);
            && (HasOutcome(s, policy, request, approval, now, done) <==> admitted)
            && (r.result.Success? <==> admitted && Feasible(s.tree, request.action, policy.limit))
            && (r.result.Success? ==>
                  && Performed(s.tree, r.state.tree, request.action)
                  && r.result.value == ActionResult(request.id, Completed, now, done, !request.action.ReadFile?,
                                                    ChangedPaths(request.action))
                  && Recorded(s, r.state, request, approval, now, r.result.value))
            && (admitted && r.result.Failure? ==>
                  && Spared(s.tree, r.state.tree, request.action) && r.result.error == DispatchFailed
                  && Recorded(s, r.state, request, approval, now,
                              ActionResult(request.id, Failed, now, done, !request.action.ReadFile?, {})))
            && (!admitted ==> r == Outcome(s, Failure(Refusal(s, policy, request, approval))))
  {
    hide Check, Carry, Dispatch, Performed, Spared, Feasible, WellFormed, Recorded, Allowed, Vouches,
         NeedsApproval;
    OpenIff(s, policy, request, approval, now);
    DispatchDoes(s.tree, request.action, policy.limit);
    if Admitted(s, policy, request, approval, now) {
      CarryDoes(s, policy, request, approval, Check(s, policy, request, approval, now).plan, now, done);
    }
    hide Admitted;
  }

  /** An approval is issued exactly for a lifetime of a second to a day, and under an unused id. */
  lemma IssueIff(s: Runtime, x: string, a: FileAction, issuedBy: string, ttl: int, oneTime: bool, now: int)
    ensures var issued := IssueApproval(s, x, a, issuedBy, ttl, oneTime, now);
            if 1 <= ttl <= 86_400 && x !in s.approvals then
              && x in issued.approvals && issued.approvals[x].consumedBy == None
              && issued.approvals[x].issued.unsigned == Unsigned(x, Digest(a), issuedBy, now, Some(now + ttl), oneTime)
              && Vouches(issued, issued.approvals[x].issued, a, now)
              && issued == s.(approvals := s.approvals[x := issued.approvals[x]])
            else issued == s
  {
  }

  /**
   From any run on, an approval lets exactly the action it was issued for through, under a new id,
   until it expires and, when it is one-time, until an action has consumed it.
   */
  lemma IssuedApprovalAdmits(s: Runtime, policy: Policy, x: string, a: FileAction, issuedBy: string, ttl: int,
                             oneTime: bool, now: int, more: seq<Timed>, request: Request, now2: int)
    requires x !in s.approvals && 1 <= ttl <= 86_400
    requires NeedsApproval(policy, request.action)
    ensures var issued := IssueApproval(s, x, a, issuedBy, ttl, oneTime, now);
            var later := Play(issued, policy, more);
            && x in issued.approvals && x in later.approvals
            && (request.id !in later.actions ==>
                  (Check(later, policy, request, Some(issued.approvals[x].issued), now2).Open?
                   <==> && request.action == a && Allowed(later.tree, policy, a) && now2 < now + ttl
                        && (oneTime ==> later.approvals[x].consumedBy.None?)))
  {
    var issued := IssueApproval(s, x, a, issuedBy, ttl, oneTime, now);
    PlayKept(issued, policy, more);
    var later := Play(issued, policy, more);
    assert x in issued.approvals;
    hide Play, Allowed, NeedsApproval, IssueApproval;
    if request.id !in later.actions {
      OpenIff(later, policy, request, Some(issued.approvals[x].issued), now2);
    }
    hide Check;
  }

  /** Why an undo under an unused id is refused; before anything is restored the workspace is left alone. */
  lemma UndoRefused(s: Runtime, target: ActionId, chosen: Option<ActionId>, requestedBy: string, now: int, done: int)
    requires UndoId(target, chosen) !in s.actions
    requires Undo(s, target, chosen, requestedBy, now, done).result.Failure?
    ensures var r := Undo(s, target, chosen, requestedBy, now, done);
            var original := GetResult(s.actions, target);
            && r.result.error == (if original.None? then NotFound
                                  else if !original.value.reversible || RowsFor(s.backups, target) == [] then
                                    NotReversible
                                  else RestoreFailed)
            && (original.None? || !original.value.reversible ==> r.state == s)
            && (RowsFor(s.backups, target) == [] ==> r.state.tree == s.tree)
  {
    hide RestoreRows, RowsFor, PathsOf;
  }

  /** A completed undo names the paths it put back, cannot itself be undone, and is on record as what it is. */
  lemma UndoReports(s: Runtime, target: ActionId, chosen: Option<ActionId>, requestedBy: string, now: int, done: int)
    requires UndoId(target, chosen) !in s.actions
    requires Undo(s, target, chosen, requestedBy, now, done).result.Success?
    ensures var r := Undo(s, target, chosen, requestedBy, now, done);
            var id := if chosen.Some? then chosen.value else UndoOf(target);
            var paths := set row | row in RowsFor(s.backups, target) :: row.path;
            && r.result.value == ActionResult(id, Completed, now, done, false, paths)
            && r.state == s.(tree := r.state.tree,
                             actions := s.actions[id := ActionRow(UndoRequested(target), requestedBy, None, now,
                                                                  Some(r.result.value))])
  {
    var rows := RowsFor(s.backups, target);
    assert PathsOf(rows) == set row | row in rows :: row.path;
    hide RestoreRows, RowsFor;
  }

  /**
   An action cut off after its journal row leaves that row without a result and the workspace in
   whatever shape it was in, exactly when it would have been let through; under its id nothing is
   ever carried out again.
   */
  lemma CutOffActionStaysRunning(s: Runtime, policy: Policy, request: Request, approval: Option<Approval>, now: int,
                                 torn: Tree, rows: seq<Backup>, again: Option<Approval>, later: int, done: int)
    requires request.id !in s.actions
    ensures var cut := ExecuteCrashed(s, policy, request, approval, now, torn, rows);
            if Admitted(s, policy, request, approval, now) then
              && cut.tree == torn && request.id in cut.actions && cut.actions[request.id].result.None?
              && cut.actions[request.id].stored == Requested(request) && cut.dispatched == s.dispatched + [request.id]
              && Execute(cut, policy, request, again, later, done).state == cut
              && Execute(cut, policy, request, again, later, done).result.Failure?
            else cut == s
  {
    hide Check, Admitted, AddRows, Carry;
    OpenIff(s, policy, request, approval, now);
    if Admitted(s, policy, request, approval, now) {
      RunningIsClosed(ExecuteCrashed(s, policy, request, approval, now, torn, rows), policy, request, again, later);
    }
  }

  /** An undo cut off leaves its row without a result, exactly when its target can be undone; its id is then spent. */
  lemma CutOffUndoStaysRunning(s: Runtime, target: ActionId, undoId: ActionId, requestedBy: string, now: int,
                               torn: Tree, later: int, done: int)
    requires undoId !in s.actions
    ensures var cut := UndoCrashed(s, target, Some(undoId), requestedBy, now, torn);
            var original := GetResult(s.actions, target);
            if original.Some? && original.value.reversible then
              && cut.tree == torn && undoId in cut.actions && cut.actions[undoId].result.None?
              && cut.actions[undoId].stored == UndoRequested(target)
              && Undo(cut, target, Some(undoId), requestedBy, later, done) == Outcome(cut, Failure(Storage))
            else cut == s
  {
    hide RestoreRows, RowsFor, PathsOf;
  }

  lemma RunningIsClosed(s: Runtime, policy: Policy, request: Request, approval: Option<Approval>, now: int)
    requires request.id in s.actions && s.actions[request.id].result.None?
    ensures Check(s, policy, request, approval, now).Closed?
  {
    hide PlanFor, ApprovalHolds;
  }
}
