/**
 Undoing a whole run of the journal: the actions as they ran, and their undos in reverse order,
 as calls on the runtime.
 */
module JournalUndo {
  import opened Prelude
  import opened FileTree
  import opened FileActions
  import opened UndoChains
  import opened ActionJournal
  import opened JournalGuarantees

  /** One action as it was asked for, and the id, if any, and clock readings its undo is asked for with. */
  datatype Step = Step(request: Request, approval: Option<Approval>, now: int, done: int, chosen: Option<ActionId>,
                       who: string, undoNow: int, undoDone: int) {
    function Forth(): Timed {
      Timed(Run(request, approval), now, done)
    }

    function Back(): Timed {
      Timed(Reverse(request.id, chosen, who), undoNow, undoDone)
    }

    function Undo(): ActionId {
      UndoId(request.id, chosen)
    }
  }

  function Runs(steps: seq<Step>): seq<Timed> {
    if steps == [] then [] else [steps[0].Forth()] + Runs(steps[1..])
  }

  /** The undos, latest action first. */
  function Undos(steps: seq<Step>): seq<Timed> {
    if steps == [] then [] else Undos(steps[1..]) + [steps[0].Back()]
  }

  function Targets(steps: seq<Step>): seq<Path> {
    if steps == [] then [] else [Destination(steps[0].request.action)] + Targets(steps[1..])
  }

  /** Every id the steps use, for an action or for its undo, is used once and by nothing before. */
  ghost predicate FreshIds(s: Runtime, steps: seq<Step>) {
    && (forall i | 0 <= i < |steps| :: steps[i].request.id !in s.actions && steps[i].Undo() !in s.actions)
    && (forall i, j | 0 <= i < |steps| && 0 <= j < |steps| :: steps[i].request.id != steps[j].Undo())
    && (forall i, j | 0 <= i < j < |steps| ::
          steps[i].request.id != steps[j].request.id && steps[i].Undo() != steps[j].Undo())
  }

  // ---------- runs in parts ----------

  lemma {:induction false} PlayInParts(s: Runtime, policy: Policy, a: seq<Timed>, b: seq<Timed>)
    ensures Play(s, policy, a + b) == Play(Play(s, policy, a), policy, b)
    decreases |b|
  {
    hide Perform;
    if b == [] {
      assert a + b == a;
    } else {
      var n := |b| - 1;
      assert (a + b)[..|a + b| - 1] == a + b[..n];
      PlayInParts(s, policy, a, b[..n]);
    }
  }

  lemma PlayOne(s: Runtime, policy: Policy, c: Timed)
    ensures Play(s, policy, [c]) == Perform(s, policy, c)
  {
    hide Perform;
    assert [c][..0] == [];
    assert Play(s, policy, [c][..0]) == s;
  }

  /** The action ids a call may add to the journal. */
  function NamedBy(c: Call): set<ActionId> {
    match c
    case Run(request, _) => {request.id}
    case RunCrashed(request, _, _, _) => {request.id}
    case Reverse(target, chosen, _) => {UndoId(target, chosen)}
    case ReverseCrashed(target, chosen, _, _) => {UndoId(target, chosen)}
    case _ => {}
  }

  lemma ExecuteNames(s: Runtime, policy: Policy, request: Request, approval: Option<Approval>, now: int, done: int)
    ensures Execute(s, policy, request, approval, now, done).state.actions.Keys <= s.actions.Keys + {request.id}
  {
    hide Check, Dispatch, ResultOf, RowsFor;
  }

  lemma UndoNames(s: Runtime, target: ActionId, chosen: Option<ActionId>, who: string, now: int, done: int)
    ensures Undo(s, target, chosen, who, now, done).state.actions.Keys <= s.actions.Keys + {UndoId(target, chosen)}
  {
    hide CheckUndo, RestoreRows, PathsOf, RowsFor;
  }

  lemma OnlyNamedActions(s: Runtime, policy: Policy, c: Timed)
    ensures Perform(s, policy, c).actions.Keys <= s.actions.Keys + NamedBy(c.call)
  {
    hide Execute, Undo, Check, CheckUndo;
    match c.call
    case Run(request, approval) => ExecuteNames(s, policy, request, approval, c.now, c.done);
    case Reverse(target, chosen, who) => UndoNames(s, target, chosen, who, c.now, c.done);
    case _ =>
  }

  /** An id that no call names does not appear in the journal. */
  lemma {:induction false} UnnamedStaysAway(s: Runtime, policy: Policy, calls: seq<Timed>, id: ActionId)
    requires id !in s.actions && forall i | 0 <= i < |calls| :: id !in NamedBy(calls[i].call)
    ensures id !in Play(s, policy, calls).actions
  {
    hide Perform, NamedBy;
    if calls != [] {
      var n := |calls| - 1;
      UnnamedStaysAway(s, policy, calls[..n], id);
      OnlyNamedActions(Play(s, policy, calls[..n]), policy, calls[n]);
    }
  }

  lemma {:induction false} RunsName(steps: seq<Step>, id: ActionId)
    requires forall i | 0 <= i < |steps| :: steps[i].request.id != id && steps[i].Undo() != id
    ensures forall i | 0 <= i < |Runs(steps)| :: id !in NamedBy(Runs(steps)[i].call)
    ensures forall i | 0 <= i < |Undos(steps)| :: id !in NamedBy(Undos(steps)[i].call)
  {
    if steps != [] {
      RunsName(steps[1..], id);
    }
  }

  // ---------- one step ----------

  /**
   A refused first execution leaves no trace, so its undo finds nothing; a dispatched one is undone
   from its backups.
   */
  lemma StepForth(s: Runtime, policy: Policy, step: Step)
    requires Sound(s) && step.request.id !in s.actions
    ensures var after := Perform(s, policy, step.Forth());
            var e := Dispatch(s.tree, step.request.action, policy.limit);
            && Sound(after)
            && (after == s
                || (&& GetResult(after.actions, step.request.id).Some? && after.tree == e.tree
                    && RowsFor(after.backups, step.request.id) == e.rows
                    && GetResult(after.actions, step.request.id).value.reversible == !step.request.action.ReadFile?))
  {
    if HasOutcome(s, policy, step.request, step.approval, step.now, step.done) {
      FirstExecution(s, policy, step.request, step.approval, step.now, step.done);
    } else {
      RefusalLeavesNothing(s, policy, step.request, step.approval, step.now, step.done);
    }
    hide Execute, Dispatch, Sound, RowsFor;
  }

  lemma StepBack(s: Runtime, after: Runtime, m: Runtime, policy: Policy, step: Step, paths: seq<Path>)
    requires WellFormed(s.tree) && WellFormed(m.tree) && Leftover(after.tree, m.tree, paths) && Kept(after, m)
    requires step.Undo() !in m.actions && step.request.id !in s.actions
    requires after == s
             || (&& GetResult(after.actions, step.request.id).Some?
                 && after.tree == Dispatch(s.tree, step.request.action, policy.limit).tree
                 && RowsFor(after.backups, step.request.id) == Dispatch(s.tree, step.request.action, policy.limit).rows
                 && GetResult(after.actions, step.request.id).value.reversible == !step.request.action.ReadFile?)
    requires after == s ==> step.request.id !in m.actions
    ensures var last := Perform(m, policy, step.Back());
            WellFormed(last.tree) && Leftover(s.tree, last.tree, [Destination(step.request.action)] + paths)
  {
    if after == s {
      MoreLeftover(s.tree, m.tree, Destination(step.request.action), paths);
      hide RestoreRows, WellFormed, Leftover;
    } else {
      var id := step.request.id;
      var rows := Dispatch(s.tree, step.request.action, policy.limit).rows;
      StepUndone(s.tree, step.request.action, policy.limit, m.tree, paths);
      ReadKeepsNothing(s.tree, step.request.action, policy.limit);
      assert RowKept(after.actions[id], m.actions[id]) && RowsFor(m.backups, id) == rows;
      UndoOutcome(m, id, step.chosen, step.who, step.undoNow, step.undoDone);
      hide Dispatch, RestoreRows, Undo, Kept, Leftover, WellFormed, RowsFor;
    }
  }

  lemma ReadKeepsNothing(t: Tree, a: FileAction, limit: Limit)
    ensures a.ReadFile? ==> Dispatch(t, a, limit).rows == []
    ensures RestoreRows(t, []).tree == t
  {
  }

  lemma MoreLeftover(base: Tree, t: Tree, destination: Path, paths: seq<Path>)
    requires Leftover(base, t, paths)
    ensures Leftover(base, t, [destination] + paths)
  {
    hide AboveSome;
    forall q | q in t && q !in base ensures t[q] == Dir && AboveSome([destination] + paths, q) {
      AboveStill(destination, paths, q);
    }
  }

  lemma AboveStill(destination: Path, paths: seq<Path>, q: Path)
    requires AboveSome(paths, q)
    ensures AboveSome([destination] + paths, q)
  {
    var i :| 0 <= i < |paths| && Above(q, paths[i]);
    assert ([destination] + paths)[i + 1] == paths[i];
  }

  // ---------- the whole run ----------

  /** The state after the actions and then their undos, taken apart around the first action. */
  lemma RoundTrip(s: Runtime, policy: Policy, steps: seq<Step>)
    requires steps != []
    ensures var s1 := Perform(s, policy, steps[0].Forth());
            var m := Play(Play(s1, policy, Runs(steps[1..])), policy, Undos(steps[1..]));
            Play(Play(s, policy, Runs(steps)), policy, Undos(steps)) == Perform(m, policy, steps[0].Back())
  {
    hide Perform;
    var s1 := Perform(s, policy, steps[0].Forth());
    PlayInParts(s, policy, [steps[0].Forth()], Runs(steps[1..]));
    PlayOne(s, policy, steps[0].Forth());
    var t := Play(s1, policy, Runs(steps[1..]));
    PlayInParts(t, policy, Undos(steps[1..]), [steps[0].Back()]);
    PlayOne(Play(t, policy, Undos(steps[1..])), policy, steps[0].Back());
  }

  lemma Between(s1: Runtime, policy: Policy, rest: seq<Step>, id: ActionId)
    requires forall i | 0 <= i < |rest| :: rest[i].request.id != id && rest[i].Undo() != id
    ensures var m := Play(Play(s1, policy, Runs(rest)), policy, Undos(rest));
            Kept(s1, m) && (id !in s1.actions ==> id !in m.actions)
  {
    hide Play, Kept, NamedBy, Runs, Undos;
    var t := Play(s1, policy, Runs(rest));
    PlayKept(s1, policy, Runs(rest));
    PlayKept(t, policy, Undos(rest));
    KeptTransitive(s1, t, Play(t, policy, Undos(rest)));
    RunsName(rest, id);
    if id !in s1.actions {
      UnnamedStaysAway(s1, policy, Runs(rest), id);
      UnnamedStaysAway(t, policy, Undos(rest), id);
    }
  }

  lemma RestIsFresh(s: Runtime, policy: Policy, steps: seq<Step>)
    requires steps != [] && FreshIds(s, steps)
    ensures FreshIds(Perform(s, policy, steps[0].Forth()), steps[1..])
    ensures steps[0].Undo() !in Perform(s, policy, steps[0].Forth()).actions
    ensures forall i | 0 <= i < |steps[1..]| ::
              steps[1..][i].request.id != steps[0].Undo() && steps[1..][i].Undo() != steps[0].Undo()
    ensures forall i | 0 <= i < |steps[1..]| ::
              steps[1..][i].request.id != steps[0].request.id && steps[1..][i].Undo() != steps[0].request.id
  {
    hide Perform;
    OnlyNamedActions(s, policy, steps[0].Forth());
  }

  lemma {:induction false} UndoneLeavesOnlyParents(s: Runtime, policy: Policy, steps: seq<Step>)
    requires Sound(s) && FreshIds(s, steps)
    ensures var last := Play(Play(s, policy, Runs(steps)), policy, Undos(steps));
            WellFormed(last.tree) && Leftover(s.tree, last.tree, Targets(steps))
    decreases |steps|
  {
    hide Perform, WellFormed, Leftover, Kept, Dispatch, RowsFor, FreshIds;
    if steps == [] {
      NothingLeftOver(s.tree);
    } else {
      var s1 := Perform(s, policy, steps[0].Forth());
      assert steps[0].request.id !in s.actions by { FirstIsFresh(s, steps); }
      StepForth(s, policy, steps[0]);
      hide Sound;
      RestIsFresh(s, policy, steps);
      UndoneLeavesOnlyParents(s1, policy, steps[1..]);
      Between(s1, policy, steps[1..], steps[0].Undo());
      Between(s1, policy, steps[1..], steps[0].request.id);
      RoundTrip(s, policy, steps);
      hide Play, Runs, Undos;
      StepBack(s, s1, Play(Play(s1, policy, Runs(steps[1..])), policy, Undos(steps[1..])), policy, steps[0],
               Targets(steps[1..]));
    }
  }

  lemma FirstIsFresh(s: Runtime, steps: seq<Step>)
    requires steps != [] && FreshIds(s, steps)
    ensures steps[0].request.id !in s.actions
  {
  }

  /**
   Any actions, asked for one after another in any reachable state of the runtime, and then undone
   in reverse order, bring every regular file back to its original contents or absence and every
   directory back, whether each of them completed, failed or was refused. All that can be left over
   are directories above a path one of them wrote, made or moved to, holding nothing but such directories.
   */
  lemma UndoneRunRestoresFiles(tree: Tree, policy: Policy, earlier: seq<Timed>, steps: seq<Step>)
    requires WellFormed(tree) && Physical(earlier) && FreshIds(Play(Opened(tree), policy, earlier), steps)
    ensures var s := Play(Opened(tree), policy, earlier);
            var last := Play(Play(s, policy, Runs(steps)), policy, Undos(steps));
            && (forall q :: IsFile(last.tree, q) <==> IsFile(s.tree, q))
            && (forall q | q in s.tree :: q in last.tree && last.tree[q] == s.tree[q])
            && (forall q | q in last.tree && q !in s.tree ::
                  AboveSome(Targets(steps), q)
                  && forall below | Under(q, below) && below in last.tree ::
                       last.tree[below] == Dir && below !in s.tree)
  {
    hide Play, Physical, FreshIds, Runs, Undos, Targets;
    OpenedSound(tree);
    PlaySound(Opened(tree), policy, earlier);
    var s := Play(Opened(tree), policy, earlier);
    UndoneLeavesOnlyParents(s, policy, steps);
    LeftoverIsDirectories(s.tree, Play(Play(s, policy, Runs(steps)), policy, Undos(steps)).tree, Targets(steps));
  }

  lemma LeftoverIsDirectories(base: Tree, t: Tree, paths: seq<Path>)
    requires WellFormed(base) && Leftover(base, t, paths)
    ensures forall q :: IsFile(t, q) <==> IsFile(base, q)
    ensures forall q, below | q in t && q !in base && Under(q, below) && below in t :: t[below] == Dir && below !in base
  {
    hide AboveSome;
    forall q, below | q in t && q !in base && Under(q, below) && below in t ensures t[below] == Dir && below !in base {
      if below in base && below != q {
        AncestorsExist(base, below, q);
      }
    }
  }
}
