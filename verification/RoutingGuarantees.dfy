/**
 What every plan of the capacity router guarantees: seats, eligibility, cost, the greedy rule,
 and independence of the order in which the profiles are given.
 */
module RoutingGuarantees {
  import opened Prelude
  import opened CapacityRouter

  // ---------- the ranking is a total order ----------

  lemma {:induction false} TextTotal(a: string, b: string)
    ensures TextLeq(a, b) || TextLeq(b, a)
    ensures TextLeq(a, b) && TextLeq(b, a) ==> a == b
  {
    if a != "" && b != "" && a[0] == b[0] {
      TextTotal(a[1..], b[1..]);
      assert a == [a[0]] + a[1..] && b == [b[0]] + b[1..];
    }
  }

  lemma {:induction false} TextTransitive(a: string, b: string, c: string)
    requires TextLeq(a, b) && TextLeq(b, c)
    ensures TextLeq(a, c)
  {
    if a != "" && b != "" && c != "" && a[0] == b[0] == c[0] {
      TextTransitive(a[1..], b[1..], c[1..]);
    }
  }

  lemma LeqTotal(a: Candidate, b: Candidate)
    ensures Leq(a, b) || Leq(b, a)
    ensures Leq(a, b) && Leq(b, a) ==> a.modelId == b.modelId
  {
    TextTotal(a.modelId, b.modelId);
  }

  lemma LeqTransitive(a: Candidate, b: Candidate, c: Candidate)
    requires Leq(a, b) && Leq(b, c)
    ensures Leq(a, c)
  {
    if a.score == b.score == c.score && a.cost == b.cost == c.cost {
      TextTransitive(a.modelId, b.modelId, c.modelId);
    }
  }

  // ---------- sorting ----------

  ghost predicate Ordered(s: seq<Candidate>) {
    forall i, j | 0 <= i < j < |s| :: Leq(s[i], s[j])
  }

  ghost predicate DistinctModels(s: seq<Candidate>) {
    forall i, j | 0 <= i < j < |s| :: s[i].modelId != s[j].modelId
  }

  lemma {:induction false} InsertOrdered(s: seq<Candidate>, c: Candidate)
    requires Ordered(s)
    ensures Ordered(Insert(s, c)) && multiset(Insert(s, c)) == multiset(s) + multiset{c}
  {
    hide Leq;
    if s != [] {
      var n := |s| - 1;
      var last := s[n];
      assert s == s[..n] + [last];
      if Leq(last, c) {
        forall i | 0 <= i < n ensures Leq(s[i], c) {
          LeqTransitive(s[i], last, c);
        }
      } else {
        LeqTotal(last, c);
        InsertOrdered(s[..n], c);
        var shorter := Insert(s[..n], c);
        forall i | 0 <= i < |shorter| ensures Leq(shorter[i], last) {
          assert shorter[i] in multiset(shorter);
          assert shorter[i] in s[..n] || shorter[i] == c;
        }
      }
    }
  }

  lemma {:induction false} InsertDistinct(s: seq<Candidate>, c: Candidate)
    requires DistinctModels(s) && forall x | x in s :: x.modelId != c.modelId
    ensures DistinctModels(Insert(s, c))
    ensures forall x :: x in Insert(s, c) <==> x in s || x == c
  {
    hide Leq;
    if s != [] {
      var n := |s| - 1;
      assert s == s[..n] + [s[n]];
      if !Leq(s[n], c) {
        InsertDistinct(s[..n], c);
        assert forall x | x in s[..n] :: x.modelId != s[n].modelId;
      }
    }
  }

  /** Sorting orders the candidates and neither adds nor loses one. */
  lemma {:induction false} SortOrders(s: seq<Candidate>)
    ensures Ordered(Sort(s)) && multiset(Sort(s)) == multiset(s)
  {
    hide Insert, Ordered;
    if s == [] {
      EmptyOrdered();
    } else {
      var n := |s| - 1;
      assert s == s[..n] + [s[n]];
      SortOrders(s[..n]);
      InsertOrdered(Sort(s[..n]), s[n]);
    }
  }

  lemma EmptyOrdered()
    ensures Ordered([])
  {
  }

  lemma {:induction false} SortDistinct(s: seq<Candidate>)
    requires DistinctModels(s)
    ensures DistinctModels(Sort(s)) && forall x :: x in Sort(s) <==> x in s
  {
    hide Insert;
    if s != [] {
      var n := |s| - 1;
      SortDistinct(s[..n]);
      assert s == s[..n] + [s[n]];
      InsertDistinct(Sort(s[..n]), s[n]);
    }
  }

  /** Two ordered sequences of the same distinct candidates are the same sequence. */
  lemma {:induction false} OrderedUnique(a: seq<Candidate>, b: seq<Candidate>)
    requires Ordered(a) && Ordered(b) && DistinctModels(a) && DistinctModels(b)
    requires forall c :: c in a <==> c in b
    ensures a == b
  {
    hide Leq;
    assert b == [] || b[0] in b;
    if a != [] {
      assert a[0] in b;
      var m, n := |a| - 1, |b| - 1;
      assert a[m] in b && b[n] in a;
      var i :| 0 <= i < |b| && b[i] == a[m];
      var j :| 0 <= j < |a| && a[j] == b[n];
      LeqTotal(a[m], b[n]);
      assert a[m] == b[n];
      forall c ensures c in a[..m] <==> c in b[..n] {
        if c in a[..m] {
          assert c in b && c != b[n];
        }
        if c in b[..n] {
          assert c in a && c != a[m];
        }
      }
      OrderedUnique(a[..m], b[..n]);
      assert a == a[..m] + [a[m]] && b == b[..n] + [b[n]];
    }
  }

  // ---------- candidates come from profiles ----------

  ghost predicate DistinctProfiles(profiles: seq<Profile>) {
    forall i, j | 0 <= i < j < |profiles| :: profiles[i].modelId != profiles[j].modelId
  }

  ghost predicate Passes(ctx: Context, role: Role, before: Progress, profiles: seq<Profile>, c: Candidate) {
    exists p :: p in profiles && Judge(ctx, role, before.providers, before.used, p) == Accepted(c)
  }

  lemma {:induction false} CandidatesPass(ctx: Context, role: Role, before: Progress, profiles: seq<Profile>,
                                          c: Candidate)
    ensures c in Candidates(ctx, role, before.providers, before.used, profiles)
            <==> Passes(ctx, role, before, profiles, c)
  {
    hide Judge;
    if profiles != [] {
      var n := |profiles| - 1;
      CandidatesPass(ctx, role, before, profiles[..n], c);
      assert profiles == profiles[..n] + [profiles[n]];
      assert forall p :: p in profiles <==> p in profiles[..n] || p == profiles[n];
    }
  }

  lemma {:induction false} CandidatesDistinct(ctx: Context, role: Role, before: Progress, profiles: seq<Profile>)
    requires DistinctProfiles(profiles)
    ensures DistinctModels(Candidates(ctx, role, before.providers, before.used, profiles))
  {
    if profiles != [] {
      var n := |profiles| - 1;
      CandidatesDistinct(ctx, role, before, profiles[..n]);
      var cs := Candidates(ctx, role, before.providers, before.used, profiles[..n]);
      forall c | c in cs ensures c.modelId != profiles[n].modelId {
        CandidatesPass(ctx, role, before, profiles[..n], c);
      }
    }
  }

  /** The ranking of a role is ordered and holds exactly the profiles that pass every gate. */
  lemma RankedAre(ctx: Context, seat: Seat, profiles: seq<Profile>, before: Progress)
    ensures Ordered(Ranked(ctx, seat, profiles, before))
    ensures forall c :: c in Ranked(ctx, seat, profiles, before) <==> Passes(ctx, seat.role, before, profiles, c)
    ensures DistinctProfiles(profiles) ==> DistinctModels(Ranked(ctx, seat, profiles, before))
  {
    hide Judge, Candidates, Sort, Ordered, DistinctModels, DistinctProfiles, Passes;
    var cs := Candidates(ctx, seat.role, before.providers, before.used, profiles);
    SortOrders(cs);
    var ranked := Ranked(ctx, seat, profiles, before);
    forall c ensures c in ranked <==> Passes(ctx, seat.role, before, profiles, c) {
      assert c in multiset(ranked) <==> c in multiset(cs);
      CandidatesPass(ctx, seat.role, before, profiles, c);
    }
    if DistinctProfiles(profiles) {
      CandidatesDistinct(ctx, seat.role, before, profiles);
      SortDistinct(cs);
    }
  }

  // ---------- the greedy choice ----------

  function Costs(s: seq<Candidate>): int {
    if s == [] then 0 else Costs(s[..|s| - 1]) + s[|s| - 1].cost
  }

  /** The cost of the chosen candidates that rank before `c`. */
  function CostsBefore(s: seq<Candidate>, c: Candidate): int {
    if s == [] then 0
    else
      var last := s[|s| - 1];
      CostsBefore(s[..|s| - 1], c) + (if last != c && Leq(last, c) then last.cost else 0)
  }

  lemma {:induction false} AllBefore(s: seq<Candidate>, c: Candidate)
    requires forall i | 0 <= i < |s| :: s[i] != c && Leq(s[i], c)
    ensures CostsBefore(s, c) == Costs(s)
  {
    if s != [] {
      AllBefore(s[..|s| - 1], c);
    }
  }

  lemma CostsOfMore(s: seq<Candidate>, last: Candidate)
    ensures Costs(s + [last]) == Costs(s) + last.cost
  {
    assert (s + [last])[..|s|] == s;
  }

  ghost predicate Accounted(t: Picked, count: nat, budget: Option<real>, total: int) {
    |t.primary| <= count && t.total == total + Costs(t.primary) && (t.primary != [] ==> !Exceeds(budget, t.total))
  }

  lemma OfferAccounts(t: Picked, c: Candidate, count: nat, budget: Option<real>, total: int)
    requires Accounted(t, count, budget, total)
    ensures Accounted(Offer(t, c, count, budget), count, budget, total)
  {
    hide Exceeds, Costs;
    CostsOfMore(t.primary, c);
  }

  /** At most `count` are chosen, the total grows by what they cost, and stays within the budget. */
  lemma {:induction false} TakeAccounts(ranked: seq<Candidate>, count: nat, budget: Option<real>, total: int)
    ensures Accounted(Take(ranked, count, budget, total), count, budget, total)
  {
    hide Offer, Exceeds;
    if ranked != [] {
      hide Accounted;
      TakeAccounts(ranked[..|ranked| - 1], count, budget, total);
      OfferAccounts(Take(ranked[..|ranked| - 1], count, budget, total), ranked[|ranked| - 1], count, budget, total);
    }
  }

  /** Every ranked candidate is chosen, passed over, or left for the fallbacks. */
  lemma {:induction false} TakeCovers(ranked: seq<Candidate>, count: nat, budget: Option<real>, total: int,
                                      c: Candidate)
    ensures var t := Take(ranked, count, budget, total);
            c in ranked <==> c in t.primary || c in t.over || c in t.remaining
  {
    hide Exceeds;
    if ranked != [] {
      var n := |ranked| - 1;
      TakeCovers(ranked[..n], count, budget, total, c);
      assert ranked == ranked[..n] + [ranked[n]];
    }
  }

  lemma CostsBeforeLast(s: seq<Candidate>, last: Candidate, c: Candidate)
    requires c.modelId != last.modelId && Leq(c, last)
    ensures CostsBefore(s + [last], c) == CostsBefore(s, c)
  {
    LeqTotal(c, last);
    hide Leq;
    assert (s + [last])[..|s|] == s;
  }

  ghost predicate PassedOverRightly(t: Picked, budget: Option<real>, total: int) {
    forall c | c in t.over :: Exceeds(budget, total + CostsBefore(t.primary, c) + c.cost)
  }

  ghost predicate RemainingRankAfter(t: Picked) {
    forall c, q | c in t.remaining && q in t.primary :: Leq(q, c) && q.modelId != c.modelId
  }

  lemma OfferIsGreedy(t: Picked, last: Candidate, count: nat, budget: Option<real>, total: int)
    requires PassedOverRightly(t, budget, total) && RemainingRankAfter(t)
    requires t.total == total + Costs(t.primary) && (|t.primary| < count ==> t.remaining == [])
    requires forall c | c in t.primary || c in t.over || c in t.remaining :: Leq(c, last) && c.modelId != last.modelId
    ensures PassedOverRightly(Offer(t, last, count, budget), budget, total)
            && RemainingRankAfter(Offer(t, last, count, budget))
  {
    hide Leq, Exceeds, CostsBefore, Costs;
    if |t.primary| < count {
      if Exceeds(budget, t.total + last.cost) {
        AllBefore(t.primary, last);
      } else {
        forall c | c in t.over ensures CostsBefore(t.primary + [last], c) == CostsBefore(t.primary, c) {
          CostsBeforeLast(t.primary, last, c);
        }
      }
    }
  }

  /** A candidate passed over broke the budget at its turn; a remaining one ranks after every chosen one. */
  lemma {:induction false} TakeIsGreedy(ranked: seq<Candidate>, count: nat, budget: Option<real>, total: int)
    requires Ordered(ranked) && DistinctModels(ranked)
    ensures var t := Take(ranked, count, budget, total); PassedOverRightly(t, budget, total) && RemainingRankAfter(t)
  {
    hide Leq, Offer, PassedOverRightly, RemainingRankAfter;
    if ranked == [] {
      NothingTaken(budget, total);
    } else {
      var n := |ranked| - 1;
      var t := Take(ranked[..n], count, budget, total);
      TakeIsGreedy(ranked[..n], count, budget, total);
      TakeAccounts(ranked[..n], count, budget, total);
      NoRemaining(ranked[..n], count, budget, total);
      forall c | c in t.primary || c in t.over || c in t.remaining
        ensures Leq(c, ranked[n]) && c.modelId != ranked[n].modelId
      {
        TakeCovers(ranked[..n], count, budget, total, c);
      }
      OfferIsGreedy(t, ranked[n], count, budget, total);
    }
  }

  lemma NothingTaken(budget: Option<real>, total: int)
    ensures PassedOverRightly(Picked([], [], [], total), budget, total) && RemainingRankAfter(Picked([], [], [], total))
  {
  }

  lemma {:induction false} NoRemaining(ranked: seq<Candidate>, count: nat, budget: Option<real>, total: int)
    ensures var t := Take(ranked, count, budget, total); |t.primary| < count ==> t.remaining == []
  {
    if ranked != [] {
      NoRemaining(ranked[..|ranked| - 1], count, budget, total);
    }
  }

  // ---------- seats ----------

  /** How many required seats a role has among the members. */
  function RequiredSeats(members: seq<Member>, role: Role): nat {
    if members == [] then 0
    else
      var last := members[|members| - 1];
      RequiredSeats(members[..|members| - 1], role) + (if last.required && last.role == role then 1 else 0)
  }

  function SeatsFor(team: TeamMode, role: Role, producers: nat): nat {
    match role
    case Producer => if team in {Solo, Fallback} then 1 else producers
    case Verifier => if team == Verify then 1 else 0
    case _ => if team == Challenge then 1 else 0
  }

  function LaidOut(layout: seq<Seat>, role: Role): nat {
    if layout == [] then 0
    else
      var last := layout[|layout| - 1];
      LaidOut(layout[..|layout| - 1], role) + (if last.role == role then last.count else 0)
  }

  lemma {:induction false} RequiredConcat(a: seq<Member>, b: seq<Member>, role: Role)
    ensures RequiredSeats(a + b, role) == RequiredSeats(a, role) + RequiredSeats(b, role)
  {
    if b == [] {
      assert a + b == a;
    } else {
      assert (a + b)[..|a + b| - 1] == a + b[..|b| - 1];
      RequiredConcat(a, b[..|b| - 1], role);
    }
  }

  lemma {:induction false} RequiredOf(selected: seq<Candidate>, role: Role, count: nat, other: Role)
    ensures RequiredSeats(MembersOf(selected, role, count), other)
            == if role != other then 0 else if |selected| < count then |selected| else count
  {
    if selected != [] {
      var n := |selected| - 1;
      RequiredOf(selected[..n], role, count, other);
      var members := MembersOf(selected, role, count);
      assert members[..n] == MembersOf(selected[..n], role, count);
    }
  }

  lemma {:induction false} FilledSeats(ctx: Context, layout: seq<Seat>, profiles: seq<Profile>, role: Role)
    requires FillAll(ctx, layout, profiles).Success?
    ensures RequiredSeats(FillAll(ctx, layout, profiles).value.members, role) == LaidOut(layout, role)
  {
    hide Choice, Fallbacks, AnyInvalid, Rejections, MembersOf, ModelsOf, ProvidersOf, RequiredSeats;
    if layout == [] {
      NoSeats(role);
    } else {
      var n := |layout| - 1;
      FilledSeats(ctx, layout[..n], profiles, role);
      var before := FillAll(ctx, layout[..n], profiles).value;
      var t := Choice(ctx, layout[n], profiles, before);
      ChoiceAccounts(ctx, layout[n], profiles, before);
      var selected := t.primary + Fallbacks(layout[n], t.remaining, ctx.policy.fallbacks);
      RequiredConcat(before.members, MembersOf(selected, layout[n].role, layout[n].count), role);
      RequiredOf(selected, layout[n].role, layout[n].count, role);
    }
  }

  lemma NoSeats(role: Role)
    ensures RequiredSeats([], role) == 0
  {
  }

  lemma ChoiceAccounts(ctx: Context, seat: Seat, profiles: seq<Profile>, before: Progress)
    ensures var t := Choice(ctx, seat, profiles, before);
            && |t.primary| <= seat.count && t.total == before.total + Costs(t.primary)
            && (t.primary != [] ==> !Exceeds(ctx.policy.budget, t.total))
  {
    hide Ranked, Costs, Exceeds;
    TakeAccounts(Ranked(ctx, seat, profiles, before), seat.count, ctx.policy.budget, before.total);
  }

  lemma LaidOutSeats(team: TeamMode, producers: nat, role: Role)
    requires !team.OtherTeam?
    ensures LaidOut(Layout(team, producers), role) == SeatsFor(team, role, producers)
  {
    var layout := Layout(team, producers);
    assert layout[..1] == [layout[0]] && layout[..0] == [];
    assert LaidOut(layout[..1], role) == if role == Producer then layout[0].count else 0;
    if |layout| > 1 {
      assert layout[..|layout| - 1][..1] == layout[..1];
      assert layout[..2][..1] == layout[..1];
    }
  }

  /** Every plan has exactly the required seats its team mode calls for, role by role. */
  lemma PlanHasItsSeats(ctx: Context, planId: string, displayName: string, team: TeamMode, profiles: seq<Profile>,
                        role: Role)
    requires MakePlan(ctx, planId, displayName, team, profiles).Success?
    ensures RequiredSeats(MakePlan(ctx, planId, displayName, team, profiles).value.members, role)
            == SeatsFor(team, role, ctx.policy.producers)
  {
    hide FillAll, Layout, RequiredSeats, PortfolioAdmits;
    FilledSeats(ctx, Layout(team, ctx.policy.producers), profiles, role);
    LaidOutSeats(team, ctx.policy.producers, role);
  }

  // ---------- gates and scores ----------

  /** What an observation and a quality must be for a role, stated gate by gate. */
  predicate Admissible(o: Observation, role: Role, quality: int, policy: Policy) {
    && o.terms != Blocked && (o.terms == TermsUnknown ==> !policy.requireKnownTerms)
    && (o.source == ThirdPartyFree ==> policy.allowThirdPartyFree)
    && (o.source == Promotional ==> policy.allowPromotional)
    && (o.source == Subscription ==> policy.allowSubscription && o.entitled)
    && (o.source == Paid ==> policy.allowPaid)
    && (o.source == Local ==> policy.allowLocal)
    && (policy.mode == LocalOnly ==> o.source == Local)
    && o.quota != Exhausted
    && (o.remaining.Some? ==> o.remaining.value >= policy.inputTokens + policy.outputTokens + policy.reserve)
    && quality as real >= Min(1.0, policy.qualityFloor + (if role == Producer then 0.0 else 0.03)) * 1000000.0
    && (policy.budget.Some? ==> EstimatedCost(o, policy) <= policy.budget.value)
  }

  lemma GateOpensIff(o: Observation, role: Role, quality: int, policy: Policy)
    ensures Gate(o, role, quality, policy) == None <==> Admissible(o, role, quality, policy)
  {
  }

  lemma RoundMonotone(x: real, y: real)
    requires x <= y
    ensures Round(x) <= Round(y)
  {
  }

  lemma CostMonotone(cheap: Observation, dear: Observation, policy: Policy)
    requires cheap.inputCost <= dear.inputCost && cheap.outputCost <= dear.outputCost
    ensures 0.0 <= EstimatedCost(cheap, policy) <= EstimatedCost(dear, policy)
  {
    var a, b := policy.inputTokens as real / 1000000.0, policy.outputTokens as real / 1000000.0;
    ProductMonotone(a, cheap.inputCost, dear.inputCost);
    ProductMonotone(b, cheap.outputCost, dear.outputCost);
  }

  lemma ProductMonotone(a: real, x: real, y: real)
    requires a >= 0.0 && 0.0 <= x <= y
    ensures 0.0 <= a * x <= a * y
  {
    assert a * (y - x) >= 0.0;
  }

  /** Of two offers of the same kind, the one of at least the quality and at most the price never scores lower. */
  lemma BetterNeverScoresLower(p: Profile, better: Observation, worse: Observation, role: Role, high: int, low: int,
                               policy: Policy, providers: set<string>)
    requires better == worse.(inputCost := better.inputCost, outputCost := better.outputCost)
    requires better.inputCost <= worse.inputCost && better.outputCost <= worse.outputCost && low <= high
    ensures Score(p, worse, role, low, policy, providers) <= Score(p, better, role, high, policy, providers)
  {
    CostMonotone(better, worse, policy);
    hide EstimatedCost, Round, SourceBonus;
    assert Adjustment(p, worse, role, policy, providers) <= Adjustment(p, better, role, policy, providers);
    hide Adjustment;
    RoundMonotone(ExactScore(low, Adjustment(p, worse, role, policy, providers),
                             EstimatedCost(worse, policy)) * 1000000.0,
                  ExactScore(high, Adjustment(p, better, role, policy, providers),
                             EstimatedCost(better, policy)) * 1000000.0);
  }

  // ---------- no model in two seats, and the checks that can never fail ----------

  ghost predicate MembersUsed(p: Progress) {
    DistinctMembers(p.members) && forall m | m in p.members :: m.modelId in p.used
  }

  lemma {:induction false} MembersAre(selected: seq<Candidate>, role: Role, count: nat)
    ensures var members := MembersOf(selected, role, count);
            forall i | 0 <= i < |selected| :: members[i] == Member(selected[i].modelId, role, 100 + i, i < count)
  {
    if selected != [] {
      MembersAre(selected[..|selected| - 1], role, count);
    }
  }

  /** What a role selects is fresh and without repetition. */
  lemma SelectedFresh(ctx: Context, seat: Seat, profiles: seq<Profile>, before: Progress)
    requires DistinctProfiles(profiles)
    ensures var t := Choice(ctx, seat, profiles, before);
            var selected := t.primary + Fallbacks(seat, t.remaining, ctx.policy.fallbacks);
            DistinctModels(selected) && forall c | c in selected :: c.modelId !in before.used
  {
    hide Judge, Ranked, Take, Leq, Ordered, PassedOverRightly, DistinctProfiles;
    var ranked := Ranked(ctx, seat, profiles, before);
    RankedAre(ctx, seat, profiles, before);
    TakeIsGreedy(ranked, seat.count, ctx.policy.budget, before.total);
    TakeDistinct(ranked, seat.count, ctx.policy.budget, before.total);
    var t := Choice(ctx, seat, profiles, before);
    forall c | c in t.primary || c in t.remaining ensures c.modelId !in before.used {
      TakeCovers(ranked, seat.count, ctx.policy.budget, before.total, c);
      var p :| p in profiles && Judge(ctx, seat.role, before.providers, before.used, p) == Accepted(c);
    }
  }

  lemma {:induction false} TakeDistinct(ranked: seq<Candidate>, count: nat, budget: Option<real>, total: int)
    requires DistinctModels(ranked)
    ensures DistinctModels(Take(ranked, count, budget, total).primary)
            && DistinctModels(Take(ranked, count, budget, total).remaining)
  {
    hide Exceeds;
    if ranked != [] {
      var n := |ranked| - 1;
      TakeDistinct(ranked[..n], count, budget, total);
      var t := Take(ranked[..n], count, budget, total);
      forall c | c in t.primary || c in t.remaining ensures c.modelId != ranked[n].modelId {
        TakeCovers(ranked[..n], count, budget, total, c);
      }
      hide Take;
    }
  }

  lemma MoreMembersUsed(members: seq<Member>, used: set<Id>, selected: seq<Candidate>, role: Role, count: nat)
    requires DistinctMembers(members) && forall m | m in members :: m.modelId in used
    requires DistinctModels(selected) && forall c | c in selected :: c.modelId !in used
    ensures DistinctMembers(members + MembersOf(selected, role, count))
    ensures forall m | m in members + MembersOf(selected, role, count) :: m.modelId in used + ModelsOf(selected)
  {
    MembersAre(selected, role, count);
    var more := MembersOf(selected, role, count);
    hide MembersOf;
    forall i | 0 <= i < |more| ensures more[i].modelId in ModelsOf(selected) && more[i].modelId !in used {
      assert selected[i] in selected;
    }
  }

  lemma {:induction false} FilledDistinct(ctx: Context, layout: seq<Seat>, profiles: seq<Profile>)
    requires DistinctProfiles(profiles) && FillAll(ctx, layout, profiles).Success?
    ensures MembersUsed(FillAll(ctx, layout, profiles).value)
  {
    hide Choice, Fallbacks, AnyInvalid, Rejections, MembersOf, ModelsOf, ProvidersOf, DistinctProfiles;
    if layout != [] {
      var n := |layout| - 1;
      FilledDistinct(ctx, layout[..n], profiles);
      var before := FillAll(ctx, layout[..n], profiles).value;
      var t := Choice(ctx, layout[n], profiles, before);
      var selected := t.primary + Fallbacks(layout[n], t.remaining, ctx.policy.fallbacks);
      SelectedFresh(ctx, layout[n], profiles, before);
      hide DistinctMembers, DistinctModels;
      MoreMembersUsed(before.members, before.used, selected, layout[n].role, layout[n].count);
    }
  }

  lemma {:induction false} FilledWithinBudget(ctx: Context, layout: seq<Seat>, profiles: seq<Profile>)
    requires FillAll(ctx, layout, profiles).Success? && layout != [] && layout[|layout| - 1].count >= 1
    ensures !Exceeds(ctx.policy.budget, FillAll(ctx, layout, profiles).value.total)
  {
    hide Choice, Fallbacks, AnyInvalid, Rejections, MembersOf, ModelsOf, ProvidersOf;
    var n := |layout| - 1;
    ChoiceAccounts(ctx, layout[n], profiles, FillAll(ctx, layout[..n], profiles).value);
  }

  lemma {:induction false} FillingFails(ctx: Context, layout: seq<Seat>, profiles: seq<Profile>)
    requires FillAll(ctx, layout, profiles).Failure?
    ensures var e := FillAll(ctx, layout, profiles).error; e.InvalidObservation? || e.NoEligibleModel?
  {
    hide Choice, Fallbacks, AnyInvalid, Rejections, MembersOf, ModelsOf, ProvidersOf;
    if FillAll(ctx, layout[..|layout| - 1], profiles).Failure? {
      FillingFails(ctx, layout[..|layout| - 1], profiles);
    }
  }

  lemma {:induction false} RequiredHasRole(members: seq<Member>, role: Role)
    requires RequiredSeats(members, role) >= 1
    ensures HasRole(members, role)
  {
    var n := |members| - 1;
    assert members[n] in members;
    if !(members[n].required && members[n].role == role) {
      RequiredHasRole(members[..n], role);
    }
  }

  /**
   The budget check after the portfolio is built can never fail; and for distinct models, neither
   can any check of the portfolio's constructor except that the plan be named.
   */
  lemma LateChecksNeverFail(ctx: Context, planId: string, displayName: string, team: TeamMode, profiles: seq<Profile>)
    ensures MakePlan(ctx, planId, displayName, team, profiles) != Failure(OverBudget)
    ensures DistinctProfiles(profiles)
            && MakePlan(ctx, planId, displayName, team, profiles) == Failure(PortfolioInvalid)
            ==> planId == "" || displayName == ""
  {
    hide FillAll, RequiredSeats, Exceeds, DistinctProfiles;
    var layout := Layout(team, ctx.policy.producers);
    if FillAll(ctx, layout, profiles).Failure? {
      FillingFails(ctx, layout, profiles);
    } else if !team.OtherTeam? {
      var members := FillAll(ctx, layout, profiles).value.members;
      FilledWithinBudget(ctx, layout, profiles);
      forall role: Role | SeatsFor(team, role, ctx.policy.producers) >= 1 ensures HasRole(members, role) {
        FilledSeats(ctx, layout, profiles, role);
        LaidOutSeats(team, ctx.policy.producers, role);
        RequiredHasRole(members, role);
      }
      assert HasRole(members, Producer);
      if DistinctProfiles(profiles) {
        FilledDistinct(ctx, layout, profiles);
      }
    }
  }

  /** No model sits in two seats of a plan, so what verifies or challenges never produced. */
  lemma NoModelTwice(ctx: Context, planId: string, displayName: string, team: TeamMode, profiles: seq<Profile>,
                     a: Member, b: Member)
    requires MakePlan(ctx, planId, displayName, team, profiles).Success?
    requires var members := MakePlan(ctx, planId, displayName, team, profiles).value.members;
             a in members && b in members && a.modelId == b.modelId
    ensures a == b
  {
    hide FillAll, Layout, HasRole;
  }

  // ---------- routes, members, eligibility and cost ----------

  ghost predicate Eligible(ctx: Context, profiles: seq<Profile>, c: Candidate) {
    exists p :: p in profiles && p.enabled && p.modelId == c.modelId && p.providerId == c.providerId
                && PassesGates(ctx, p, c)
  }

  ghost predicate PassesGates(ctx: Context, p: Profile, c: Candidate) {
    && ObservationFor(ctx, p).Some?
    && var o := ObservationFor(ctx, p).value;
       && c.quality == Quality(p, ctx.task, c.role) && c.source == o.source && c.quota == o.quota
       && Gate(o, c.role, c.quality, ctx.policy) == None
       && c.cost == Round(EstimatedCost(o, ctx.policy) * 100000000.0)
  }

  lemma JudgedEligible(ctx: Context, role: Role, before: Progress, profiles: seq<Profile>, c: Candidate)
    requires Passes(ctx, role, before, profiles, c)
    ensures c.role == role && Eligible(ctx, profiles, c)
  {
    hide Gate, Quality, Score, EstimatedCost, ObservationFor;
    var p :| p in profiles && Judge(ctx, role, before.providers, before.used, p) == Accepted(c);
    assert PassesGates(ctx, p, c);
  }

  ghost predicate RouteFits(ctx: Context, profiles: seq<Profile>, seat: Seat, route: Route) {
    && route.role == seat.role
    && seat.count <= |route.selected| <= seat.count + (if seat.withFallbacks then ctx.policy.fallbacks else 0)
    && forall c | c in route.selected :: c.role == seat.role && Eligible(ctx, profiles, c)
  }

  ghost predicate RoutesFit(ctx: Context, profiles: seq<Profile>, layout: seq<Seat>, routes: seq<Route>) {
    |routes| == |layout| && forall i | 0 <= i < |layout| :: RouteFits(ctx, profiles, layout[i], routes[i])
  }

  /** The costs of the required seats. */
  function PrimaryCosts(routes: seq<Route>, layout: seq<Seat>): int
    requires |routes| == |layout| && forall i | 0 <= i < |layout| :: layout[i].count <= |routes[i].selected|
  {
    if routes == [] then 0
    else
      var n := |routes| - 1;
      PrimaryCosts(routes[..n], layout[..n]) + Costs(routes[n].selected[..layout[n].count])
  }

  function Seated(routes: seq<Route>, layout: seq<Seat>): seq<Member>
    requires |routes| == |layout|
  {
    if routes == [] then []
    else
      var n := |routes| - 1;
      Seated(routes[..n], layout[..n]) + MembersOf(routes[n].selected, layout[n].role, layout[n].count)
  }

  lemma FilledRoute(ctx: Context, seat: Seat, profiles: seq<Profile>, before: Progress)
    requires FillSeat(ctx, seat, profiles, before).Success?
    ensures var after := FillSeat(ctx, seat, profiles, before).value;
            && |after.routes| == |before.routes| + 1 && after.routes[..|before.routes|] == before.routes
            && var route := after.routes[|before.routes|];
               && RouteFits(ctx, profiles, seat, route)
               && after.members == before.members + MembersOf(route.selected, seat.role, seat.count)
               && after.total == before.total + Costs(route.selected[..seat.count])
               && route.selected[..seat.count] == Choice(ctx, seat, profiles, before).primary
  {
    hide Choice, AnyInvalid, Rejections, MembersOf, ModelsOf, ProvidersOf, Costs, Eligible, Exceeds;
    var t := Choice(ctx, seat, profiles, before);
    ChoiceAccounts(ctx, seat, profiles, before);
    var after := FillSeat(ctx, seat, profiles, before).value;
    var route := after.routes[|before.routes|];
    assert route.selected[..seat.count] == t.primary;
    forall c | c in route.selected ensures c.role == seat.role && Eligible(ctx, profiles, c) {
      assert c in t.primary || c in t.remaining;
      ChosenPass(ctx, seat, profiles, before, c);
      JudgedEligible(ctx, seat.role, before, profiles, c);
    }
  }

  lemma ChosenPass(ctx: Context, seat: Seat, profiles: seq<Profile>, before: Progress, c: Candidate)
    requires var t := Choice(ctx, seat, profiles, before); c in t.primary || c in t.remaining
    ensures Passes(ctx, seat.role, before, profiles, c)
  {
    hide Ranked, Passes;
    TakeCovers(Ranked(ctx, seat, profiles, before), seat.count, ctx.policy.budget, before.total, c);
    RankedAre(ctx, seat, profiles, before);
  }

  ghost predicate Fit(ctx: Context, profiles: seq<Profile>, layout: seq<Seat>, done: Progress) {
    && RoutesFit(ctx, profiles, layout, done.routes)
    && done.members == Seated(done.routes, layout)
    && done.total == PrimaryCosts(done.routes, layout)
  }

  lemma RoutesOfMore(ctx: Context, profiles: seq<Profile>, layout: seq<Seat>, seat: Seat, routes: seq<Route>,
                     route: Route)
    requires RoutesFit(ctx, profiles, layout, routes) && RouteFits(ctx, profiles, seat, route)
    ensures RoutesFit(ctx, profiles, layout + [seat], routes + [route])
    ensures Seated(routes + [route], layout + [seat])
            == Seated(routes, layout) + MembersOf(route.selected, seat.role, seat.count)
    ensures PrimaryCosts(routes + [route], layout + [seat])
            == PrimaryCosts(routes, layout) + Costs(route.selected[..seat.count])
  {
    hide Eligible, MembersOf, Costs;
    assert (routes + [route])[..|routes|] == routes && (layout + [seat])[..|layout|] == layout;
  }

  lemma SeatKeepsFit(ctx: Context, profiles: seq<Profile>, layout: seq<Seat>, seat: Seat, before: Progress)
    requires Fit(ctx, profiles, layout, before) && FillSeat(ctx, seat, profiles, before).Success?
    ensures Fit(ctx, profiles, layout + [seat], FillSeat(ctx, seat, profiles, before).value)
  {
    hide FillSeat, MembersOf, Costs, RouteFits, RoutesFit, Seated, PrimaryCosts;
    FilledRoute(ctx, seat, profiles, before);
    var after := FillSeat(ctx, seat, profiles, before).value;
    var route := after.routes[|before.routes|];
    assert after.routes == before.routes + [route];
    assert |before.routes| == |layout| by { RoutesAligned(ctx, profiles, layout, before); }
    RoutesOfMore(ctx, profiles, layout, seat, before.routes, route);
  }

  lemma RoutesAligned(ctx: Context, profiles: seq<Profile>, layout: seq<Seat>, done: Progress)
    requires Fit(ctx, profiles, layout, done)
    ensures |done.routes| == |layout|
  {
  }

  lemma {:induction false} FilledFit(ctx: Context, layout: seq<Seat>, profiles: seq<Profile>)
    requires FillAll(ctx, layout, profiles).Success?
    ensures Fit(ctx, profiles, layout, FillAll(ctx, layout, profiles).value)
  {
    hide FillSeat, RouteFits;
    if layout != [] {
      hide Fit;
      var n := |layout| - 1;
      FilledFit(ctx, layout[..n], profiles);
      SeatKeepsFit(ctx, profiles, layout[..n], layout[n], FillAll(ctx, layout[..n], profiles).value);
      assert layout == layout[..n] + [layout[n]];
    }
  }

  /**
   The plan as a whole: one route per role of the layout with every seat past all gates, members
   that are exactly the routes' selections with ascending priorities, and an estimate that is the
   sum of the required seats' costs and within the budget.
   */
  lemma PlanAccounts(ctx: Context, planId: string, displayName: string, team: TeamMode, profiles: seq<Profile>)
    requires MakePlan(ctx, planId, displayName, team, profiles).Success?
    ensures var plan := MakePlan(ctx, planId, displayName, team, profiles).value;
            var layout := Layout(team, ctx.policy.producers);
            && RoutesFit(ctx, profiles, layout, plan.routes)
            && plan.members == Seated(plan.routes, layout)
            && plan.cost == PrimaryCosts(plan.routes, layout)
            && !Exceeds(ctx.policy.budget, plan.cost)
  {
    hide FillAll, Layout, PortfolioAdmits, RouteFits, Seated, PrimaryCosts, Exceeds;
    FilledFit(ctx, Layout(team, ctx.policy.producers), profiles);
  }

  /**
   The policy holds for every seat of every plan, fallbacks included: what sits there comes from an
   enabled profile whose observation is admissible for the role. In particular a subscription alone
   is never taken for access, and a local-only plan is local throughout.
   */
  lemma SeatsKeepThePolicy(ctx: Context, planId: string, displayName: string, team: TeamMode, profiles: seq<Profile>,
                           i: nat, c: Candidate)
    requires MakePlan(ctx, planId, displayName, team, profiles).Success?
    requires i < |MakePlan(ctx, planId, displayName, team, profiles).value.routes|
    requires c in MakePlan(ctx, planId, displayName, team, profiles).value.routes[i].selected
    ensures exists p :: p in profiles && p.enabled && p.modelId == c.modelId && p.providerId == c.providerId
              && ObservationFor(ctx, p).Some? && ObservationFor(ctx, p).value.source == c.source
              && Admissible(ObservationFor(ctx, p).value,
                            MakePlan(ctx, planId, displayName, team, profiles).value.routes[i].role,
                            Quality(p, ctx.task, c.role), ctx.policy)
  {
    hide MakePlan, Layout, Seated, PrimaryCosts, Exceeds, Gate, Admissible, Quality, ObservationFor, EstimatedCost,
         Round;
    PlanAccounts(ctx, planId, displayName, team, profiles);
    var route := MakePlan(ctx, planId, displayName, team, profiles).value.routes[i];
    assert RouteFits(ctx, profiles, Layout(team, ctx.policy.producers)[i], route);
    assert Eligible(ctx, profiles, c);
    var p :| p in profiles && p.enabled && p.modelId == c.modelId && p.providerId == c.providerId
             && PassesGates(ctx, p, c);
    GateOpensIff(ObservationFor(ctx, p).value, c.role, c.quality, ctx.policy);
  }

  /**
   The greedy rule. In the role a route fills, an eligible and still unused model that ranks before
   a chosen primary is itself a primary, unless its cost, on top of what was spent before its turn,
   would break the running budget.
   */
  lemma OnlyTheBudgetSkips(ctx: Context, seat: Seat, profiles: seq<Profile>, before: Progress, c: Candidate,
                           chosen: Candidate)
    requires DistinctProfiles(profiles) && FillSeat(ctx, seat, profiles, before).Success?
    requires Passes(ctx, seat.role, before, profiles, c)
    requires var primaries :=
               FillSeat(ctx, seat, profiles, before).value.routes[|before.routes|].selected[..seat.count];
             chosen in primaries && c !in primaries && Leq(c, chosen)
    ensures var primaries := FillSeat(ctx, seat, profiles, before).value.routes[|before.routes|].selected[..seat.count];
            Exceeds(ctx.policy.budget, before.total + CostsBefore(primaries, c) + c.cost)
  {
    hide FillSeat, Leq, Exceeds, CostsBefore, Passes, Choice, DistinctProfiles, RouteFits;
    FilledRoute(ctx, seat, profiles, before);
    ChoiceIsGreedy(ctx, seat, profiles, before, c);
    LeqTotal(c, chosen);
  }

  /**
   An eligible model is chosen, or broke the budget at its turn, or ranks after all that were
   chosen once all seats were filled.
   */
  lemma ChoiceIsGreedy(ctx: Context, seat: Seat, profiles: seq<Profile>, before: Progress, c: Candidate)
    requires DistinctProfiles(profiles) && Passes(ctx, seat.role, before, profiles, c)
    ensures var t := Choice(ctx, seat, profiles, before);
            || c in t.primary
            || Exceeds(ctx.policy.budget, before.total + CostsBefore(t.primary, c) + c.cost)
            || (|t.primary| >= seat.count && forall q | q in t.primary :: Leq(q, c) && q.modelId != c.modelId)
  {
    hide Leq, Exceeds, CostsBefore, Passes, Ranked, Take, Ordered, DistinctModels, DistinctProfiles;
    RankedAre(ctx, seat, profiles, before);
    var ranked := Ranked(ctx, seat, profiles, before);
    TakeIsGreedy(ranked, seat.count, ctx.policy.budget, before.total);
    TakeCovers(ranked, seat.count, ctx.policy.budget, before.total, c);
    NoRemaining(ranked, seat.count, ctx.policy.budget, before.total);
  }

  /** A finished filling is the filling of any earlier role, carried on. */
  lemma {:induction false} RouteOfFilling(ctx: Context, layout: seq<Seat>, profiles: seq<Profile>, i: nat)
    requires i < |layout| && FillAll(ctx, layout, profiles).Success?
    ensures FillAll(ctx, layout[..i], profiles).Success?
    ensures var before := FillAll(ctx, layout[..i], profiles).value;
            && |before.routes| == i < |FillAll(ctx, layout, profiles).value.routes|
            && FillSeat(ctx, layout[i], profiles, before).Success?
            && FillAll(ctx, layout, profiles).value.routes[i]
               == FillSeat(ctx, layout[i], profiles, before).value.routes[i]
  {
    hide FillSeat, PrimaryCosts, Seated, RouteFits;
    var n := |layout| - 1;
    var earlier := FillAll(ctx, layout[..n], profiles).value;
    FilledFit(ctx, layout[..n], profiles);
    FilledRoute(ctx, layout[n], profiles, earlier);
    if i < n {
      RouteOfFilling(ctx, layout[..n], profiles, i);
      assert layout[..n][..i] == layout[..i];
      assert earlier.routes[i] == FillSeat(ctx, layout[n], profiles, earlier).value.routes[..n][i];
    }
  }

  /** What planning had decided when it came to role `i`. */
  function BeforeRole(ctx: Context, team: TeamMode, profiles: seq<Profile>, i: nat): Progress {
    var layout := Layout(team, ctx.policy.producers);
    if i <= |layout| && FillAll(ctx, layout[..i], profiles).Success? then FillAll(ctx, layout[..i], profiles).value
    else NOTHING
  }

  /** The required seats of the plan's role `i`. */
  function Primaries(plan: Plan, layout: seq<Seat>, i: nat): seq<Candidate> {
    if i < |layout| && i < |plan.routes| && layout[i].count <= |plan.routes[i].selected| then
      plan.routes[i].selected[..layout[i].count]
    else []
  }

  /** The greedy rule for every role of every plan. */
  lemma PlanSkipsOnlyForBudget(ctx: Context, planId: string, displayName: string, team: TeamMode,
                               profiles: seq<Profile>, i: nat, c: Candidate, chosen: Candidate)
    requires DistinctProfiles(profiles) && MakePlan(ctx, planId, displayName, team, profiles).Success?
    requires i < |Layout(team, ctx.policy.producers)|
    requires Passes(ctx, Layout(team, ctx.policy.producers)[i].role, BeforeRole(ctx, team, profiles, i), profiles, c)
    requires var primaries :=
               Primaries(MakePlan(ctx, planId, displayName, team, profiles).value, Layout(team, ctx.policy.producers),
                         i);
             chosen in primaries && c !in primaries && Leq(c, chosen)
    ensures var primaries :=
              Primaries(MakePlan(ctx, planId, displayName, team, profiles).value, Layout(team, ctx.policy.producers),
                        i);
            Exceeds(ctx.policy.budget, BeforeRole(ctx, team, profiles, i).total + CostsBefore(primaries, c) + c.cost)
  {
    hide FillAll, FillSeat, Layout, Leq, Exceeds, CostsBefore, Passes, PortfolioAdmits, DistinctProfiles;
    RouteOfFilling(ctx, Layout(team, ctx.policy.producers), profiles, i);
    OnlyTheBudgetSkips(ctx, Layout(team, ctx.policy.producers)[i], profiles, BeforeRole(ctx, team, profiles, i), c,
                       chosen);
  }

  /** A role that stays short: every eligible model was either chosen or would have broken the budget at its turn. */
  lemma ShortOnlyForBudget(ctx: Context, seat: Seat, profiles: seq<Profile>, before: Progress, c: Candidate)
    requires DistinctProfiles(profiles) && FillSeat(ctx, seat, profiles, before) == Failure(NoEligibleModel(seat.role))
    requires Passes(ctx, seat.role, before, profiles, c)
    ensures var t := Choice(ctx, seat, profiles, before);
            |t.primary| < seat.count
            && (c in t.primary || Exceeds(ctx.policy.budget, before.total + CostsBefore(t.primary, c) + c.cost))
  {
    hide AnyInvalid, Leq, Exceeds, CostsBefore, Passes, Choice, DistinctProfiles;
    ChoiceIsGreedy(ctx, seat, profiles, before, c);
  }

  // ---------- the order of the profiles does not matter ----------

  ghost predicate SameProfiles(a: seq<Profile>, b: seq<Profile>) {
    DistinctProfiles(a) && DistinctProfiles(b) && forall p :: p in a <==> p in b
  }

  ghost predicate SameRoutes(a: seq<Route>, b: seq<Route>) {
    && |a| == |b|
    && forall i | 0 <= i < |a| ::
         a[i].role == b[i].role && a[i].selected == b[i].selected && forall x ::
           x in a[i].rejected <==> x in b[i].rejected
  }

  /** Equal but for the order in which rejections are listed. */
  ghost predicate SameProgress(a: Progress, b: Progress) {
    SameRoutes(a.routes, b.routes) && a.(routes := []) == b.(routes := [])
  }

  lemma SameRanking(ctx: Context, seat: Seat, a: seq<Profile>, b: seq<Profile>, x: Progress, y: Progress)
    requires SameProfiles(a, b) && SameProgress(x, y)
    ensures Ranked(ctx, seat, a, x) == Ranked(ctx, seat, b, y)
    ensures AnyInvalid(ctx, seat.role, x.providers, x.used, a) == AnyInvalid(ctx, seat.role, y.providers, y.used, b)
  {
    hide Judge, Ranked, Ordered, DistinctModels, DistinctProfiles;
    RankedAre(ctx, seat, a, x);
    RankedAre(ctx, seat, b, y);
    OrderedUnique(Ranked(ctx, seat, a, x), Ranked(ctx, seat, b, y));
  }

  lemma {:induction false} RejectionsAre(ctx: Context, role: Role, providers: set<string>, used: set<Id>,
                                         profiles: seq<Profile>, x: Rejection)
    ensures x in Rejections(ctx, role, providers, used, profiles)
            <==> exists p :: p in profiles && Judge(ctx, role, providers, used, p) == Rejected(x.reason)
                             && p.modelId == x.modelId
  {
    hide Judge;
    if profiles != [] {
      var n := |profiles| - 1;
      RejectionsAre(ctx, role, providers, used, profiles[..n], x);
      assert profiles == profiles[..n] + [profiles[n]];
      assert forall p :: p in profiles <==> p in profiles[..n] || p == profiles[n];
    }
  }

  lemma SameSeat(ctx: Context, seat: Seat, a: seq<Profile>, b: seq<Profile>, x: Progress, y: Progress)
    requires SameProfiles(a, b) && SameProgress(x, y)
    ensures var f, g := FillSeat(ctx, seat, a, x), FillSeat(ctx, seat, b, y);
            if f.Success? then g.Success? && SameProgress(f.value, g.value) else f == g
  {
    hide Judge, Ranked, Take, Rejections, AnyInvalid, MembersOf, ModelsOf, ProvidersOf, SameProfiles;
    SameRanking(ctx, seat, a, b, x, y);
    forall r
      ensures r in Rejections(ctx, seat.role, x.providers, x.used, a)
              <==> r in Rejections(ctx, seat.role, y.providers, y.used, b)
    {
      SameRejections(ctx, seat, a, b, x, y, r);
    }
  }

  lemma SameRejections(ctx: Context, seat: Seat, a: seq<Profile>, b: seq<Profile>, x: Progress, y: Progress,
                       r: Rejection)
    requires SameProfiles(a, b) && SameProgress(x, y)
    ensures r in Rejections(ctx, seat.role, x.providers, x.used, a)
            <==> r in Rejections(ctx, seat.role, y.providers, y.used, b)
  {
    hide Judge, Rejections, DistinctProfiles;
    RejectionsAre(ctx, seat.role, x.providers, x.used, a, r);
    RejectionsAre(ctx, seat.role, y.providers, y.used, b, r);
  }

  lemma {:induction false} SameFilling(ctx: Context, layout: seq<Seat>, a: seq<Profile>, b: seq<Profile>)
    requires SameProfiles(a, b)
    ensures var f, g := FillAll(ctx, layout, a), FillAll(ctx, layout, b);
            if f.Success? then g.Success? && SameProgress(f.value, g.value) else f == g
  {
    hide FillSeat, SameProfiles;
    if layout != [] {
      hide SameProgress;
      var n := |layout| - 1;
      SameFilling(ctx, layout[..n], a, b);
      var f, g := FillAll(ctx, layout[..n], a), FillAll(ctx, layout[..n], b);
      if f.Success? {
        SameSeat(ctx, layout[n], a, b, f.value, g.value);
      }
    }
  }

  lemma SameFinish(ctx: Context, planId: string, displayName: string, team: TeamMode, x: Progress, y: Progress)
    requires SameProgress(x, y)
    ensures var f, g := FinishPlan(ctx, planId, displayName, team, x), FinishPlan(ctx, planId, displayName, team, y);
            if f.Success? then
              g.Success? && SameRoutes(f.value.routes, g.value.routes)
              && f.value.(routes := []) == g.value.(routes := [])
            else f == g
  {
    hide SameRoutes, PortfolioAdmits, Exceeds;
  }

  /**
   Giving the same profiles in another order changes nothing but the order in which rejections are
   listed: the same members in the same seats with the same priorities, the same routes, estimate
   and warnings, or the same refusal.
   */
  lemma OrderOfProfilesDoesNotMatter(ctx: Context, planId: string, displayName: string, team: TeamMode,
                                     a: seq<Profile>, b: seq<Profile>)
    requires SameProfiles(a, b)
    ensures var f, g := MakePlan(ctx, planId, displayName, team, a), MakePlan(ctx, planId, displayName, team, b);
            if f.Success? then
              g.Success? && SameRoutes(f.value.routes, g.value.routes)
              && f.value.(routes := []) == g.value.(routes := [])
            else f == g
  {
    assert a == [] || a[0] in a;
    assert b == [] || b[0] in b;
    hide FillAll, FinishPlan, Layout, SameProgress, SameRoutes, DistinctProfiles;
    var layout := Layout(team, ctx.policy.producers);
    SameFilling(ctx, layout, a, b);
    var f, g := FillAll(ctx, layout, a), FillAll(ctx, layout, b);
    if f.Success? {
      SameFinish(ctx, planId, displayName, team, f.value, g.value);
    }
  }
}
