/**
 What the router prefers: how quality, source, price, quota, terms and a new provider weigh against
 each other in every routing mode, and what that means for the model a plan seats.
 */
module RoutingPreferences {
  import opened Prelude
  import opened CapacityRouter
  import opened RoutingGuarantees

  // ---------- scores add up ----------

  /** What a call's price costs in score: a point a cent, and at most twenty; a point is a million units. */
  function Penalty(dollars: real): int {
    Round(Min(20.0, dollars * 100.0) * 1000000.0)
  }

  lemma RoundSplits(half: int, x: real)
    ensures Round((2 * half) as real - x) == 2 * half - Round(x)
  {
  }

  lemma ExactSplits(quality: int, adjustment: int, dollars: real)
    ensures Round(ExactScore(quality, adjustment, dollars) * 1000000.0)
            == 100 * quality + 1000000 * adjustment - Penalty(dollars)
  {
    var lost := Min(20.0, dollars * 100.0);
    hide Min, Round;
    RoundSplits(50 * quality + 500000 * adjustment, lost * 1000000.0);
  }

  lemma ScoreSplits(p: Profile, o: Observation, role: Role, quality: int, policy: Policy, providers: set<string>)
    ensures Score(p, o, role, quality, policy, providers)
            == 100 * quality + 1000000 * Adjustment(p, o, role, policy, providers)
               - Penalty(EstimatedCost(o, policy))
  {
    hide ExactScore, Round, Penalty, Adjustment, EstimatedCost;
    ExactSplits(quality, Adjustment(p, o, role, policy, providers), EstimatedCost(o, policy));
  }

  lemma PenaltyIs(dollars: real)
    requires dollars >= 0.0
    ensures 0 <= Penalty(dollars) <= 20000000
    ensures dollars >= 0.2 ==> Penalty(dollars) == 20000000
    ensures dollars <= 0.2 ==> -0.5 <= Penalty(dollars) as real - dollars * 100000000.0 <= 0.5
    ensures dollars == 0.0 ==> Penalty(dollars) == 0
  {
  }

  lemma PricePerMillion(o: Observation, policy: Policy)
    ensures EstimatedCost(o, policy) * 1000000.0
            == policy.inputTokens as real * o.inputCost + policy.outputTokens as real * o.outputCost
  {
    var i, u := policy.inputTokens as real, policy.outputTokens as real;
    assert i / 1000000.0 * o.inputCost * 1000000.0 == i * o.inputCost;
    assert u / 1000000.0 * o.outputCost * 1000000.0 == u * o.outputCost;
  }

  // ---------- what each thing is worth ----------

  /** How many hundredths of quality a source is worth over a paid one. */
  function Lead(mode: RoutingMode, source: Source): int {
    match (mode, source)
    case (_, Paid) => 0
    case (LocalOnly, Local) => 140
    case (LocalOnly, _) => 0
    case (MaximumFree, OfficialFree) => 70
    case (MaximumFree, Local) => 67
    case (MaximumFree, Subscription) => 64
    case (MaximumFree, Promotional) => 57
    case (MaximumFree, ThirdPartyFree) => 47
    case (MaximumQuality, OfficialFree) => 2
    case (MaximumQuality, Subscription) => 2
    case (MaximumQuality, Promotional) => 1
    case (MaximumQuality, Local) => 1
    case (MaximumQuality, ThirdPartyFree) => -2
    case (_, OfficialFree) => 16
    case (_, Subscription) => 13
    case (_, Local) => 12
    case (_, Promotional) => 10
    case (_, ThirdPartyFree) => 4
  }

  predicate CostsNothing(o: Observation) {
    o.inputCost == 0.0 && o.outputCost == 0.0
  }

  lemma SourceLeads(p: Profile, o: Observation, role: Role, policy: Policy, providers: set<string>)
    ensures Adjustment(p, o, role, policy, providers)
            == Adjustment(p, o.(source := Paid), role, policy, providers) + Lead(policy.mode, o.source)
               + (if o.source != Paid && CostsNothing(o) then 3 else 0)
  {
    assert SourceBonus(o.source, policy.mode) == SourceBonus(Paid, policy.mode) + Lead(policy.mode, o.source);
    hide SourceBonus, Lead;
  }

  lemma SamePrice(o: Observation, other: Observation, policy: Policy)
    requires o.inputCost == other.inputCost && o.outputCost == other.outputCost
    ensures EstimatedCost(o, policy) == EstimatedCost(other, policy)
  {
  }

  /**
   An offer scores like an otherwise equal paid one of a quality higher by its source's lead, and by
   three hundredths more if it costs nothing, which a paid one is not credited with.
   */
  lemma SourceIsWorthQuality(p: Profile, o: Observation, role: Role, quality: int, policy: Policy,
                             providers: set<string>)
    ensures var lead := Lead(policy.mode, o.source) + (if o.source != Paid && CostsNothing(o) then 3 else 0);
            Score(p, o, role, quality, policy, providers)
            == Score(p, o.(source := Paid), role, quality + 10000 * lead, policy, providers)
  {
    hide Score, Penalty, EstimatedCost, Adjustment, Lead;
    var lead := Lead(policy.mode, o.source) + (if o.source != Paid && CostsNothing(o) then 3 else 0);
    var paid := o.(source := Paid);
    ScoreSplits(p, o, role, quality, policy, providers);
    ScoreSplits(p, paid, role, quality + 10000 * lead, policy, providers);
    SamePrice(o, paid, policy);
    SourceLeads(p, o, role, policy, providers);
  }

  /**
   A quota known to be there is worth two hundredths of quality over an unknown one, a low one six
   less; official terms are worth three over unknown ones, a verified third party's one.
   */
  lemma QuotaAndTermsAreWorthQuality(p: Profile, o: Observation, role: Role, quality: int, policy: Policy,
                                     providers: set<string>)
    ensures var worth := (if o.quota in {Available, Unlimited} then 2 else if o.quota == Low then -6 else 0)
                         + (if o.terms == Official then 3 else if o.terms == VerifiedThirdParty then 1 else 0);
            Score(p, o, role, quality, policy, providers)
            == Score(p, o.(quota := QuotaUnknown, terms := TermsUnknown), role, quality + 10000 * worth, policy,
                     providers)
  {
    var plain := o.(quota := QuotaUnknown, terms := TermsUnknown);
    var worth := (if o.quota in {Available, Unlimited} then 2 else if o.quota == Low then -6 else 0)
                 + (if o.terms == Official then 3 else if o.terms == VerifiedThirdParty then 1 else 0);
    assert Adjustment(p, o, role, policy, providers) == Adjustment(p, plain, role, policy, providers) + worth by {
      hide SourceBonus;
    }
    SamePrice(o, plain, policy);
    ScoreSplits(p, o, role, quality, policy, providers);
    ScoreSplits(p, plain, role, quality + 10000 * worth, policy, providers);
    hide Score, Penalty, EstimatedCost, Adjustment;
  }

  /**
   For the roles that check others, and when the policy prefers diversity, a model of a provider not
   yet seated is worth fourteen hundredths of quality over one of a seated provider; otherwise who
   provides a model does not count.
   */
  lemma NewProviderIsWorthQuality(p: Profile, o: Observation, role: Role, quality: int, policy: Policy,
                                  providers: set<string>, newcomer: string, seated: string)
    requires newcomer !in providers
    ensures policy.diversity && role in {Verifier, Challenger} && seated in providers ==>
              Score(p.(providerId := newcomer), o, role, quality, policy, providers)
              == Score(p.(providerId := seated), o, role, quality + 140000, policy, providers)
    ensures !policy.diversity || role !in {Verifier, Challenger} || providers == {} ==>
              Score(p.(providerId := newcomer), o, role, quality, policy, providers)
              == Score(p.(providerId := seated), o, role, quality, policy, providers)
  {
    var a, b := p.(providerId := newcomer), p.(providerId := seated);
    ScoreSplits(a, o, role, quality, policy, providers);
    ScoreSplits(b, o, role, quality, policy, providers);
    ScoreSplits(b, o, role, quality + 140000, policy, providers);
    hide Score, Penalty, EstimatedCost, SourceBonus;
  }

  /** Quality counts a point a hundredth, and a price takes a point a cent off, twenty at most. */
  lemma QualityAndPriceCount(p: Profile, o: Observation, role: Role, quality: int, more: int, policy: Policy,
                             providers: set<string>)
    ensures Score(p, o, role, quality + more, policy, providers)
            == Score(p, o, role, quality, policy, providers) + 100 * more
    ensures !CostsNothing(o) || o.source == Paid ==>
              Score(p, o, role, quality, policy, providers)
              == Score(p, o.(source := Paid, inputCost := 0.0, outputCost := 0.0), role, quality, policy, providers)
                 - Penalty(EstimatedCost(o, policy)) + 1000000 * Lead(policy.mode, o.source)
  {
    var free := o.(source := Paid, inputCost := 0.0, outputCost := 0.0);
    SourceIsWorthQuality(p, o, role, quality, policy, providers);
    ScoreSplits(p, o, role, quality, policy, providers);
    ScoreSplits(p, o, role, quality + more, policy, providers);
    ScoreSplits(p, free, role, quality, policy, providers);
    SourceLeads(p, o, role, policy, providers);
    PricePerMillion(free, policy);
    PenaltyIs(EstimatedCost(free, policy));
    assert Adjustment(p, o.(source := Paid), role, policy, providers)
           == Adjustment(p, free, role, policy, providers) by { hide SourceBonus; }
    hide Score, Penalty, EstimatedCost, Adjustment, Lead;
  }

  /** A paid offer of unknown quota and terms for nothing scores its quality, less what its mode takes off paid ones. */
  lemma PlainScore(p: Profile, role: Role, quality: int, policy: Policy, providers: set<string>, entitled: bool)
    requires !policy.diversity || role !in {Verifier, Challenger} || providers == {}
    ensures Score(p, Observation(Paid, QuotaUnknown, None, 0.0, 0.0, TermsUnknown, entitled), role, quality, policy,
                  providers)
            == 100 * quality - (if policy.mode == MaximumFree then 32000000
                                else if policy.mode == LocalOnly then 100000000 else 0)
  {
    var plain := Observation(Paid, QuotaUnknown, None, 0.0, 0.0, TermsUnknown, entitled);
    ScoreSplits(p, plain, role, quality, policy, providers);
    PricePerMillion(plain, policy);
    PenaltyIs(EstimatedCost(plain, policy));
    hide Score, Penalty, EstimatedCost;
  }

  // ---------- which source a mode prefers ----------

  const FREE_FIRST: seq<Source> := [OfficialFree, Local, Subscription, Promotional, ThirdPartyFree, Paid]
  const BALANCED: seq<Source> := [OfficialFree, Subscription, Local, Promotional, ThirdPartyFree, Paid]

  function LeadAt(mode: RoutingMode, o: Observation, source: Source): int {
    Lead(mode, source) + (if source != Paid && CostsNothing(o) then 3 else 0)
  }

  lemma ScoreFromSource(p: Profile, o: Observation, source: Source, role: Role, quality: int, policy: Policy,
                        providers: set<string>)
    ensures Score(p, o.(source := source), role, quality, policy, providers)
            == Score(p, o.(source := Paid), role, quality, policy, providers)
               + 1000000 * LeadAt(policy.mode, o, source)
  {
    SourceIsWorthQuality(p, o.(source := source), role, quality, policy, providers);
    QualityAndPriceCount(p, o.(source := Paid), role, quality, 10000 * LeadAt(policy.mode, o, source), policy,
                         providers);
    hide Score, Lead;
  }

  lemma LeadsAreOrdered(mode: RoutingMode, o: Observation, i: nat, j: nat)
    requires i < j < 6
    ensures mode == MaximumFree ==> LeadAt(mode, o, FREE_FIRST[j]) < LeadAt(mode, o, FREE_FIRST[i])
    ensures mode in {RoutingMode.Balanced, CustomBudget} ==>
              LeadAt(mode, o, BALANCED[j]) < LeadAt(mode, o, BALANCED[i])
    ensures mode == LocalOnly && FREE_FIRST[i] != Local ==> LeadAt(mode, o, FREE_FIRST[i]) < LeadAt(mode, o, Local)
  {
  }

  /** Of offers alike but for their source, each mode has its order, and local-only prefers the local one. */
  lemma SourcesAreOrdered(p: Profile, o: Observation, role: Role, quality: int, policy: Policy,
                          providers: set<string>, i: nat, j: nat)
    requires i < j < 6
    ensures policy.mode == MaximumFree ==>
              Score(p, o.(source := FREE_FIRST[j]), role, quality, policy, providers)
              < Score(p, o.(source := FREE_FIRST[i]), role, quality, policy, providers)
    ensures policy.mode in {RoutingMode.Balanced, CustomBudget} ==>
              Score(p, o.(source := BALANCED[j]), role, quality, policy, providers)
              < Score(p, o.(source := BALANCED[i]), role, quality, policy, providers)
    ensures policy.mode == LocalOnly && FREE_FIRST[i] != Local ==>
              Score(p, o.(source := FREE_FIRST[i]), role, quality, policy, providers)
              < Score(p, o.(source := Local), role, quality, policy, providers)
  {
    forall source: Source
      ensures Score(p, o.(source := source), role, quality, policy, providers)
              == Score(p, o.(source := Paid), role, quality, policy, providers)
                 + 1000000 * LeadAt(policy.mode, o, source)
    {
      ScoreFromSource(p, o, source, role, quality, policy, providers);
    }
    LeadsAreOrdered(policy.mode, o, i, j);
    hide Score, LeadAt;
  }

  /**
   In the mode of maximum quality a lead in quality of more than four hundredths, five if the offers
   cost nothing, outweighs any difference in source.
   */
  lemma QualityOutweighsSource(p: Profile, o: Observation, other: Source, role: Role, low: int, high: int,
                               policy: Policy, providers: set<string>)
    requires policy.mode == MaximumQuality && high > low + (if CostsNothing(o) then 50000 else 40000)
    ensures Score(p, o.(source := other), role, low, policy, providers)
            < Score(p, o, role, high, policy, providers)
  {
    SourceIsWorthQuality(p, o, role, high, policy, providers);
    SourceIsWorthQuality(p, o.(source := other), role, low, policy, providers);
    var base := Score(p, o.(source := Paid), role, 0, policy, providers);
    assert forall quality :: Score(p, o.(source := Paid), role, quality, policy, providers) == base + 100 * quality by {
      forall quality ensures Score(p, o.(source := Paid), role, quality, policy, providers) == base + 100 * quality {
        QualityAndPriceCount(p, o.(source := Paid), role, 0, quality, policy, providers);
      }
    }
    hide Score;
  }

  // ---------- where quality comes from ----------

  /** The capabilities that count for a task in a role. */
  function Keys(task: Task, role: Role): set<string> {
    (set d | d in task.domains) + {task.phase, task.role, "general", RoleName(role)}
  }

  /** The greatest capability claimed under one of the keys, where a missing one counts as none at all. */
  predicate IsBest(p: Profile, keys: set<string>, best: real) {
    && (forall k | k in keys && k in p.capabilities :: p.capabilities[k] <= best)
    && ((exists k | k in keys :: k !in p.capabilities) ==> best >= 0.0)
    && exists k | k in keys :: if k in p.capabilities then p.capabilities[k] == best else best == 0.0
  }

  lemma {:induction false} BestIs(p: Profile, keys: seq<string>)
    requires keys != []
    ensures IsBest(p, Elements(keys), BestCapability(p, keys))
  {
    if |keys| > 1 {
      BestIs(p, keys[..|keys| - 1]);
      var last := keys[|keys| - 1];
      BestOfMore(p, Elements(keys[..|keys| - 1]), last, BestCapability(p, keys[..|keys| - 1]));
      assert Elements(keys) == Elements(keys[..|keys| - 1]) + {last};
    } else {
      assert Elements(keys) == {keys[0]};
    }
  }

  /**
   A profile's quality for a role is its best capability among those that count, and more by twelve
   hundredths if it lists the role and by four for each of the task's domains it shares, two at most;
   it never passes one.
   */
  lemma QualityIs(p: Profile, task: Task, role: Role)
    ensures exists best :: IsBest(p, Keys(task, role), best)
              && var shared := set d | d in task.domains && d in p.domains;
                 var bonus := (if RoleName(role) in p.roles then 0.12 else 0.0)
                              + (if |shared| == 0 then 0.0 else if |shared| == 1 then 0.04 else 0.08);
                 Quality(p, task, role) == Round(Min(1.0, best + bonus) * 1000000.0)
  {
    hide BestCapability, Capability, Round, Min, Max, IsBest, Elements, Keys, RoleName;
    var keys := task.domains + [task.phase, task.role, "general"];
    BestIs(p, keys);
    BestOfMore(p, Elements(keys), RoleName(role), BestCapability(p, keys));
    KeysAre(task, role);
    SharedDomains(p, task);
    assert IsBest(p, Keys(task, role), Max(BestCapability(p, keys), Capability(p, RoleName(role))));
  }

  lemma KeysAre(task: Task, role: Role)
    ensures Keys(task, role) == Elements(task.domains + [task.phase, task.role, "general"]) + {RoleName(role)}
  {
    hide RoleName;
  }

  lemma SharedDomains(p: Profile, task: Task)
    ensures var shared := set d | d in task.domains && d in p.domains;
            Min(0.08, 0.04 * |Elements(task.domains) * Elements(p.domains)| as real)
            == if |shared| == 0 then 0.0 else if |shared| == 1 then 0.04 else 0.08
  {
    var shared := set d | d in task.domains && d in p.domains;
    assert Elements(task.domains) * Elements(p.domains) == shared;
    DomainBonus(|shared|);
  }

  lemma DomainBonus(n: nat)
    ensures Min(0.08, 0.04 * n as real) == if n == 0 then 0.0 else if n == 1 then 0.04 else 0.08
  {
  }

  lemma BestOfMore(p: Profile, keys: set<string>, key: string, best: real)
    requires IsBest(p, keys, best)
    ensures IsBest(p, keys + {key}, Max(best, Capability(p, key)))
  {
  }

  // ---------- what a plan seats ----------

  ghost predicate CanSit(ctx: Context, profiles: seq<Profile>, p: Profile, role: Role) {
    && p in profiles && p.enabled && ObservationFor(ctx, p).Some?
    && Admissible(ObservationFor(ctx, p).value, role, Quality(p, ctx.task, role), ctx.policy)
  }

  function ScoreOf(ctx: Context, p: Profile, role: Role, providers: set<string>): int
    requires ObservationFor(ctx, p).Some?
  {
    Score(p, ObservationFor(ctx, p).value, role, Quality(p, ctx.task, role), ctx.policy, providers)
  }

  function CostOf(ctx: Context, p: Profile): int
    requires ObservationFor(ctx, p).Some?
  {
    Round(EstimatedCost(ObservationFor(ctx, p).value, ctx.policy) * 100000000.0)
  }

  /** The first profile scores lower, or as high at a higher cost, or all alike under a later id. */
  predicate NoBetter(ctx: Context, q: Profile, p: Profile)
    requires ObservationFor(ctx, p).Some? && ObservationFor(ctx, q).Some?
  {
    var low, high := ScoreOf(ctx, q, Producer, {}), ScoreOf(ctx, p, Producer, {});
    && low <= high
    && (low == high ==> CostOf(ctx, p) <= CostOf(ctx, q))
    && (low == high && CostOf(ctx, p) == CostOf(ctx, q) ==> TextLeq(p.modelId, q.modelId))
  }

  /** The profile behind a seat of a single-model plan, and its score. */
  ghost predicate SeatedAlone(ctx: Context, plan: Plan, profiles: seq<Profile>, p: Profile) {
    && CanSit(ctx, profiles, p, Producer)
    && plan.members == [Member(p.modelId, Producer, 100, true)]
    && |plan.routes| == 1 && |plan.routes[0].selected| == 1
    && plan.routes[0].selected[0].modelId == p.modelId
    && plan.routes[0].selected[0].score == ScoreOf(ctx, p, Producer, {})
  }

  lemma JudgedFirst(ctx: Context, profiles: seq<Profile>, p: Profile)
    requires CanSit(ctx, profiles, p, Producer)
    ensures var v := Judge(ctx, Producer, {}, {}, p);
            && v.Accepted? && v.candidate.modelId == p.modelId && v.candidate.score == ScoreOf(ctx, p, Producer, {})
            && v.candidate.cost == CostOf(ctx, p)
  {
    GateOpensIff(ObservationFor(ctx, p).value, Producer, Quality(p, ctx.task, Producer), ctx.policy);
    hide ObservationFor, Quality, Score, EstimatedCost, Round, Gate, Admissible;
  }

  lemma AcceptedCanSit(ctx: Context, profiles: seq<Profile>, p: Profile)
    requires p in profiles && Judge(ctx, Producer, {}, {}, p).Accepted?
    ensures CanSit(ctx, profiles, p, Producer)
  {
    hide ObservationFor, Quality, Score, EstimatedCost, Round, Gate, Admissible;
    if ObservationFor(ctx, p).Some? {
      GateOpensIff(ObservationFor(ctx, p).value, Producer, Quality(p, ctx.task, Producer), ctx.policy);
    }
  }

  /**
   A solo plan without a budget seats a model that scores at least as high as every other model that
   could sit there, of equals the cheapest, and of these the one whose id comes first.
   */
  lemma SoloSeatsTheBest(ctx: Context, planId: string, displayName: string, profiles: seq<Profile>)
    requires DistinctProfiles(profiles) && ctx.policy.budget == None
    requires MakePlan(ctx, planId, displayName, Solo, profiles).Success?
    ensures exists p :: SeatedAlone(ctx, MakePlan(ctx, planId, displayName, Solo, profiles).value, profiles, p)
              && forall q | CanSit(ctx, profiles, q, Producer) :: NoBetter(ctx, q, p)
  {
    var seat := Seat(Producer, 1, false);
    SoloPlan(ctx, planId, displayName, profiles);
    hide MakePlan;
    var c := Choice(ctx, seat, profiles, NOTHING).primary[0];
    ChosenPass(ctx, seat, profiles, NOTHING, c);
    hide Choice, Judge, CanSit, ScoreOf, CostOf, DistinctProfiles;
    var p :| p in profiles && Judge(ctx, Producer, {}, {}, p) == Accepted(c);
    AcceptedCanSit(ctx, profiles, p);
    JudgedFirst(ctx, profiles, p);
    forall q | CanSit(ctx, profiles, q, Producer) ensures NoBetter(ctx, q, p) {
      JudgedFirst(ctx, profiles, q);
      NoneBetter(ctx, profiles, q);
    }
    assert SeatedAlone(ctx, MakePlan(ctx, planId, displayName, Solo, profiles).value, profiles, p);
  }

  lemma NoneBetter(ctx: Context, profiles: seq<Profile>, q: Profile)
    requires DistinctProfiles(profiles) && ctx.policy.budget == None && CanSit(ctx, profiles, q, Producer)
    ensures Judge(ctx, Producer, {}, {}, q).Accepted?
    ensures var t := Choice(ctx, Seat(Producer, 1, false), profiles, NOTHING);
            |t.primary| == 1 ==> Leq(t.primary[0], Judge(ctx, Producer, {}, {}, q).candidate)
  {
    JudgedFirst(ctx, profiles, q);
    ProfileIsThere(ctx, profiles, q);
    hide Judge, CanSit, ScoreOf, Choice, DistinctProfiles;
    var other := Judge(ctx, Producer, {}, {}, q).candidate;
    assert Passes(ctx, Producer, NOTHING, profiles, other);
    NoneRanksBefore(ctx, profiles, other);
  }

  lemma NoneRanksBefore(ctx: Context, profiles: seq<Profile>, c: Candidate)
    requires DistinctProfiles(profiles) && ctx.policy.budget == None
    requires Passes(ctx, Producer, NOTHING, profiles, c)
    ensures var t := Choice(ctx, Seat(Producer, 1, false), profiles, NOTHING);
            |t.primary| == 1 ==> Leq(t.primary[0], c)
  {
    hide Choice, Passes, DistinctProfiles, CostsBefore, Leq;
    ChoiceIsGreedy(ctx, Seat(Producer, 1, false), profiles, NOTHING, c);
    LeqTotal(c, c);
  }

  lemma ProfileIsThere(ctx: Context, profiles: seq<Profile>, p: Profile)
    requires CanSit(ctx, profiles, p, Producer)
    ensures p in profiles
  {
  }

  lemma SoloPlan(ctx: Context, planId: string, displayName: string, profiles: seq<Profile>)
    requires MakePlan(ctx, planId, displayName, Solo, profiles).Success?
    ensures var plan := MakePlan(ctx, planId, displayName, Solo, profiles).value;
            var primary := Choice(ctx, Seat(Producer, 1, false), profiles, NOTHING).primary;
            && |primary| == 1 && |plan.routes| == 1 && plan.routes[0].selected == primary
            && plan.members == [Member(primary[0].modelId, Producer, 100, true)]
  {
    var seat := Seat(Producer, 1, false);
    var layout := [seat];
    assert layout[..0] == [] && layout[0] == seat;
    ChoiceAccounts(ctx, seat, profiles, NOTHING);
    hide Choice, AnyInvalid, Rejections, PortfolioAdmits, Exceeds;
    assert FillAll(ctx, layout[..0], profiles) == Success(NOTHING);
    assert FillAll(ctx, layout, profiles) == FillSeat(ctx, seat, profiles, NOTHING);
    var primary := Choice(ctx, seat, profiles, NOTHING).primary;
    assert primary + [] == primary && primary == [primary[0]];
    MembersAre(primary, Producer, 1);
  }

  /**
   In the mode of maximum free capacity, when a zero-price officially free model could sit in a solo
   plan, a paid model of the same quota and terms is seated only with a lead in quality of at least
   seventy-three hundredths, and one more for each cent it costs.
   */
  lemma FreeComesFirst(ctx: Context, planId: string, displayName: string, profiles: seq<Profile>, free: Profile,
                       seated: Profile)
    requires DistinctProfiles(profiles) && ctx.policy.budget == None && ctx.policy.mode == MaximumFree
    requires MakePlan(ctx, planId, displayName, Solo, profiles).Success?
    requires CanSit(ctx, profiles, free, Producer) && CanSit(ctx, profiles, seated, Producer)
    requires MakePlan(ctx, planId, displayName, Solo, profiles).value.members
             == [Member(seated.modelId, Producer, 100, true)]
    requires var f, s := ObservationFor(ctx, free).value, ObservationFor(ctx, seated).value;
             && f.source == OfficialFree && CostsNothing(f)
             && s.source == Paid && s.quota == f.quota && s.terms == f.terms
    ensures var lead := Quality(seated, ctx.task, Producer) - Quality(free, ctx.task, Producer);
            && lead >= 730000
            && 100 * lead >= 73000000 + Penalty(EstimatedCost(ObservationFor(ctx, seated).value, ctx.policy))
  {
    SoloSeatsTheBest(ctx, planId, displayName, profiles);
    SameModel(profiles, seated);
    var f, s := ObservationFor(ctx, free).value, ObservationFor(ctx, seated).value;
    FreeOutscores(free, f, seated, s, Quality(free, ctx.task, Producer), Quality(seated, ctx.task, Producer),
                  ctx.policy);
    CostMonotone(s, s, ctx.policy);
    PenaltyIs(EstimatedCost(s, ctx.policy));
    hide MakePlan, Admissible, ObservationFor, Quality, EstimatedCost, Penalty, Score;
  }

  /** An enabled and unused profile of which no sense can be made. */
  ghost predicate Broken(ctx: Context, profiles: seq<Profile>, used: set<Id>) {
    exists p :: p in profiles && p.enabled && p.modelId !in used && ObservationFor(ctx, p).None?
  }

  /**
   A role is filled exactly when all unused enabled profiles make sense and the greedy choice finds
   enough models; otherwise the refusal says which of the two failed.
   */
  lemma SeatFillsIff(ctx: Context, seat: Seat, profiles: seq<Profile>, before: Progress)
    ensures var found := |Choice(ctx, seat, profiles, before).primary|;
            && (FillSeat(ctx, seat, profiles, before).Success?
                <==> !Broken(ctx, profiles, before.used) && found >= seat.count)
            && (FillSeat(ctx, seat, profiles, before).Failure? ==>
                  FillSeat(ctx, seat, profiles, before).error
                  == if Broken(ctx, profiles, before.used) then InvalidObservation else NoEligibleModel(seat.role))
  {
    assert AnyInvalid(ctx, seat.role, before.providers, before.used, profiles)
           <==> Broken(ctx, profiles, before.used) by {
      hide ObservationFor, Quality, Score, EstimatedCost, Gate, Round;
    }
    hide Choice, AnyInvalid, Rejections, MembersOf, Broken;
  }

  /**
   A solo plan without a budget succeeds exactly when it has an id and a name, every enabled profile
   makes sense, and some model can sit there.
   */
  lemma SoloSucceedsIff(ctx: Context, planId: string, displayName: string, profiles: seq<Profile>)
    requires DistinctProfiles(profiles) && ctx.policy.budget == None
    ensures MakePlan(ctx, planId, displayName, Solo, profiles).Success?
            <==> && planId != "" && displayName != "" && !Broken(ctx, profiles, {})
                 && exists p :: CanSit(ctx, profiles, p, Producer)
  {
    var seat := Seat(Producer, 1, false);
    SeatFillsIff(ctx, seat, profiles, NOTHING);
    SoloFilling(ctx, planId, displayName, profiles);
    hide MakePlan, FillSeat, Broken;
    ChoiceAccounts(ctx, seat, profiles, NOTHING);
    var primary := Choice(ctx, seat, profiles, NOTHING).primary;
    hide Choice, DistinctProfiles;
    if primary != [] {
      ChosenPass(ctx, seat, profiles, NOTHING, primary[0]);
      hide Judge, CanSit;
      var p :| p in profiles && Judge(ctx, Producer, {}, {}, p) == Accepted(primary[0]);
      AcceptedCanSit(ctx, profiles, p);
    }
    if p :| CanSit(ctx, profiles, p, Producer) {
      SomebodySits(ctx, profiles, p);
      hide CanSit;
    }
  }

  lemma SomebodySits(ctx: Context, profiles: seq<Profile>, p: Profile)
    requires DistinctProfiles(profiles) && ctx.policy.budget == None && CanSit(ctx, profiles, p, Producer)
    ensures Choice(ctx, Seat(Producer, 1, false), profiles, NOTHING).primary != [] && profiles != []
  {
    hide Judge, CanSit, Choice, DistinctProfiles, CostsBefore, Leq;
    JudgedFirst(ctx, profiles, p);
    ProfileIsThere(ctx, profiles, p);
    var c := Judge(ctx, Producer, {}, {}, p).candidate;
    assert Passes(ctx, Producer, NOTHING, profiles, c);
    hide Passes;
    ChoiceIsGreedy(ctx, Seat(Producer, 1, false), profiles, NOTHING, c);
  }

  lemma SoloFilling(ctx: Context, planId: string, displayName: string, profiles: seq<Profile>)
    requires ctx.policy.budget == None
    ensures MakePlan(ctx, planId, displayName, Solo, profiles).Success?
            <==> && planId != "" && displayName != "" && profiles != []
                 && FillSeat(ctx, Seat(Producer, 1, false), profiles, NOTHING).Success?
  {
    var seat := Seat(Producer, 1, false);
    var layout := [seat];
    assert layout[..0] == [] && layout[0] == seat;
    ChoiceAccounts(ctx, seat, profiles, NOTHING);
    hide Choice, AnyInvalid, Rejections;
    assert FillAll(ctx, layout[..0], profiles) == Success(NOTHING);
    assert FillAll(ctx, layout, profiles) == FillSeat(ctx, seat, profiles, NOTHING);
    var primary := Choice(ctx, seat, profiles, NOTHING).primary;
    if |primary| == 1 {
      assert primary + [] == primary && primary == [primary[0]];
      MembersAre(primary, Producer, 1);
    }
  }

  lemma SameModel(profiles: seq<Profile>, p: Profile)
    requires DistinctProfiles(profiles) && p in profiles
    ensures forall q | q in profiles && q.modelId == p.modelId :: q == p
  {
  }

  /** In the mode of maximum free capacity, the exact margin between a paid offer and a zero-price official one. */
  lemma FreeOutscores(free: Profile, f: Observation, paid: Profile, o: Observation, quality: int, high: int,
                      policy: Policy)
    requires policy.mode == MaximumFree && f.source == OfficialFree && CostsNothing(f)
    requires o.source == Paid && o.quota == f.quota && o.terms == f.terms
    ensures Score(paid, o, Producer, high, policy, {}) - Score(free, f, Producer, quality, policy, {})
            == 100 * (high - quality) - 73000000 - Penalty(EstimatedCost(o, policy))
  {
    ScoreSplits(paid, o, Producer, high, policy, {});
    ScoreSplits(free, f, Producer, quality, policy, {});
    PricePerMillion(f, policy);
    PenaltyIs(EstimatedCost(f, policy));
    hide Score, Penalty, EstimatedCost;
  }

  /** So with a quality floor above 0.27 a paid model never takes the seat of such a free one. */
  lemma PaidNeverSeatedOverFree(ctx: Context, planId: string, displayName: string, profiles: seq<Profile>,
                                free: Profile, seated: Profile)
    requires DistinctProfiles(profiles) && ctx.policy.budget == None && ctx.policy.mode == MaximumFree
    requires ctx.policy.qualityFloor > 0.27
    requires MakePlan(ctx, planId, displayName, Solo, profiles).Success?
    requires CanSit(ctx, profiles, free, Producer) && CanSit(ctx, profiles, seated, Producer)
    requires MakePlan(ctx, planId, displayName, Solo, profiles).value.members
             == [Member(seated.modelId, Producer, 100, true)]
    requires var f, s := ObservationFor(ctx, free).value, ObservationFor(ctx, seated).value;
             && f.source == OfficialFree && CostsNothing(f) && s.quota == f.quota && s.terms == f.terms
    ensures ObservationFor(ctx, seated).value.source != Paid
  {
    if ObservationFor(ctx, seated).value.source == Paid {
      FreeComesFirst(ctx, planId, displayName, profiles, free, seated);
      QualityAtMostOne(seated, ctx.task, Producer);
      assert false by {
        hide MakePlan, ObservationFor, Quality, EstimatedCost, Penalty, Round;
      }
    }
  }

  lemma QualityAtMostOne(p: Profile, task: Task, role: Role)
    ensures Quality(p, task, role) <= 1000000
  {
    QualityIs(p, task, role);
    hide Quality, IsBest;
  }

  // ---------- why a profile is rejected ----------

  /** What a rejection claims of the observation it rejects. */
  predicate Holds(reason: Reason, o: Observation, role: Role, quality: int, policy: Policy) {
    match reason
    case TermsAreBlocked => o.terms == Blocked
    case TermsAreUnknown => o.terms == TermsUnknown && policy.requireKnownTerms
    case ThirdPartyNotAllowed => o.source == ThirdPartyFree && !policy.allowThirdPartyFree
    case PromotionalNotAllowed => o.source == Promotional && !policy.allowPromotional
    case SubscriptionNotAllowed => o.source == Subscription && !policy.allowSubscription
    case SubscriptionProvesNothing => o.source == Subscription && policy.allowSubscription && !o.entitled
    case PaidNotAllowed => o.source == Paid && !policy.allowPaid
    case LocalNotAllowed => o.source == Local && !policy.allowLocal
    case NotLocal => policy.mode == LocalOnly && o.source != Local
    case QuotaExhausted => o.quota == Exhausted
    case QuotaInsufficient =>
      o.remaining.Some? && policy.inputTokens + policy.outputTokens + policy.reserve > o.remaining.value
    case BelowQualityFloor =>
      Min(1.0, policy.qualityFloor + (if role == Producer then 0.0 else 0.03)) * 1000000.0 > quality as real
    case OverTaskBudget => policy.budget.Some? && policy.budget.value < EstimatedCost(o, policy)
    case OverRunningBudget => false
  }

  /** A rejection tells the truth: its reason holds, and no offer with such a fault is ever admitted. */
  lemma RejectedRightly(o: Observation, role: Role, quality: int, policy: Policy, reason: Reason)
    ensures Gate(o, role, quality, policy) == Some(reason) ==> Holds(reason, o, role, quality, policy)
    ensures Holds(reason, o, role, quality, policy) ==> !Admissible(o, role, quality, policy)
    ensures !Admissible(o, role, quality, policy) ==> Gate(o, role, quality, policy).Some?
  {
    hide EstimatedCost;
  }

  lemma {:induction false} OverListed(over: seq<Candidate>, x: Rejection)
    ensures x in OverBudgetRejections(over) <==> exists c :: c in over && x == Rejection(c.modelId, OverRunningBudget)
  {
    if over != [] {
      OverListed(over[..|over| - 1], x);
      var last := over[|over| - 1];
      assert forall c :: c in over <==> c in over[..|over| - 1] || c == last;
    }
  }

  /**
   A role lists as rejected exactly the models that some gate kept out, with the gate's reason, and
   those passed over because they would have broken the running budget.
   */
  lemma RejectedAre(ctx: Context, seat: Seat, profiles: seq<Profile>, before: Progress, x: Rejection)
    requires FillSeat(ctx, seat, profiles, before).Success?
    ensures |FillSeat(ctx, seat, profiles, before).value.routes| == |before.routes| + 1
    ensures x in FillSeat(ctx, seat, profiles, before).value.routes[|before.routes|].rejected
            <==> (|| (exists p :: p in profiles && p.modelId == x.modelId
                                  && Judge(ctx, seat.role, before.providers, before.used, p) == Rejected(x.reason))
                  || (exists c :: c in Choice(ctx, seat, profiles, before).over
                                  && x == Rejection(c.modelId, OverRunningBudget)))
  {
    hide Judge, Choice, AnyInvalid, Rejections, OverBudgetRejections, MembersOf;
    RejectionsAre(ctx, seat.role, before.providers, before.used, profiles, x);
    OverListed(Choice(ctx, seat, profiles, before).over, x);
  }

  /** Spending exactly the budget is within it. */
  lemma BudgetIsInclusive(budget: Option<real>, units: int)
    ensures !Exceeds(budget, units) <==> budget.None? || units as real / 100000000.0 <= budget.value
  {
  }

  // ---------- fallbacks and warnings ----------

  lemma {:induction false} RemainingOrdered(ranked: seq<Candidate>, count: nat, budget: Option<real>, total: int)
    requires Ordered(ranked)
    ensures var t := Take(ranked, count, budget, total);
            Ordered(t.remaining) && forall c | c in t.remaining :: c in ranked
  {
    hide Leq, Exceeds;
    if ranked != [] {
      var n := |ranked| - 1;
      RemainingOrdered(ranked[..n], count, budget, total);
      forall c | c in Take(ranked[..n], count, budget, total).remaining ensures Leq(c, ranked[n]) {
        var i :| 0 <= i < n && ranked[..n][i] == c;
        assert ranked[i] == c;
      }
    }
  }

  /**
   The fallbacks of a role are the next best: an eligible model that is neither selected nor too dear at
   its turn ranks after every fallback, and is left out only when there are as many as the policy wants.
   */
  lemma FallbacksAreNextBest(ctx: Context, seat: Seat, profiles: seq<Profile>, before: Progress, c: Candidate)
    requires DistinctProfiles(profiles) && FillSeat(ctx, seat, profiles, before).Success? && seat.withFallbacks
    requires Passes(ctx, seat.role, before, profiles, c)
    requires c !in FillSeat(ctx, seat, profiles, before).value.routes[|before.routes|].selected
    ensures var selected := FillSeat(ctx, seat, profiles, before).value.routes[|before.routes|].selected;
            && |selected| >= seat.count
            && (|| Exceeds(ctx.policy.budget, before.total + CostsBefore(selected[..seat.count], c) + c.cost)
                || (&& |selected| == seat.count + ctx.policy.fallbacks
                    && forall i | seat.count <= i < |selected| :: Leq(selected[i], c)))
  {
    var t := Choice(ctx, seat, profiles, before);
    var ranked := Ranked(ctx, seat, profiles, before);
    hide FillSeat, Choice, Ranked, Take, Leq, Exceeds, CostsBefore, Passes, DistinctProfiles, DistinctModels, Ordered,
         RemainingRankAfter;
    RankedAre(ctx, seat, profiles, before);
    FallbackRoute(ctx, seat, profiles, before);
    TakeCovers(ranked, seat.count, ctx.policy.budget, before.total, c);
    TakeIsGreedy(ranked, seat.count, ctx.policy.budget, before.total);
    RemainingOrdered(ranked, seat.count, ctx.policy.budget, before.total);
    NextBest(t.primary, t.remaining, ctx.policy.fallbacks, c);
  }

  lemma NextBest(primary: seq<Candidate>, rest: seq<Candidate>, limit: nat, c: Candidate)
    requires Ordered(rest)
    ensures var selected := primary + (if |rest| <= limit then rest else rest[..limit]);
            && selected[..|primary|] == primary && (c in primary ==> c in selected)
            && (c in rest && c !in selected ==>
                  && |selected| == |primary| + limit
                  && forall i | |primary| <= i < |selected| :: Leq(selected[i], c))
  {
    hide Leq;
    var selected := primary + (if |rest| <= limit then rest else rest[..limit]);
    if c in rest && c !in selected {
      var k :| 0 <= k < |rest| && rest[k] == c;
      forall i | |primary| <= i < |selected| ensures Leq(selected[i], c) {
        assert selected[i] == rest[i - |primary|];
      }
    }
  }

  lemma FallbackRoute(ctx: Context, seat: Seat, profiles: seq<Profile>, before: Progress)
    requires FillSeat(ctx, seat, profiles, before).Success? && seat.withFallbacks
    ensures var t := Choice(ctx, seat, profiles, before);
            var after := FillSeat(ctx, seat, profiles, before).value;
            var limit := ctx.policy.fallbacks;
            && |after.routes| == |before.routes| + 1 && |t.primary| == seat.count
            && after.routes[|before.routes|].selected
               == t.primary + (if |t.remaining| <= limit then t.remaining else t.remaining[..limit])
            && t == Take(Ranked(ctx, seat, profiles, before), seat.count, ctx.policy.budget, before.total)
  {
    ChoiceAccounts(ctx, seat, profiles, before);
    hide AnyInvalid, Rejections, MembersOf, Ranked, Take;
  }

  /** In every plan but a solo one, every role has its fallbacks, and they are the next best. */
  lemma PlanFallsBackOnNextBest(ctx: Context, planId: string, displayName: string, team: TeamMode,
                                profiles: seq<Profile>, i: nat, c: Candidate)
    requires DistinctProfiles(profiles) && MakePlan(ctx, planId, displayName, team, profiles).Success? && team != Solo
    requires i < |Layout(team, ctx.policy.producers)|
    requires i < |MakePlan(ctx, planId, displayName, team, profiles).value.routes|
    requires Passes(ctx, Layout(team, ctx.policy.producers)[i].role, BeforeRole(ctx, team, profiles, i), profiles, c)
    requires c !in MakePlan(ctx, planId, displayName, team, profiles).value.routes[i].selected
    ensures var selected := MakePlan(ctx, planId, displayName, team, profiles).value.routes[i].selected;
            var count := Layout(team, ctx.policy.producers)[i].count;
            && |selected| >= count
            && (|| Exceeds(ctx.policy.budget,
                           BeforeRole(ctx, team, profiles, i).total + CostsBefore(selected[..count], c) + c.cost)
                || (&& |selected| == count + ctx.policy.fallbacks
                    && forall k | count <= k < |selected| :: Leq(selected[k], c)))
  {
    hide MakePlan, FillSeat, FillAll, Layout, Passes, DistinctProfiles, Leq, Exceeds, CostsBefore, BeforeRole;
    LaidOutWithFallbacks(team, ctx.policy.producers);
    PlanFilled(ctx, planId, displayName, team, profiles, i);
    FallbacksAreNextBest(ctx, Layout(team, ctx.policy.producers)[i], profiles, BeforeRole(ctx, team, profiles, i), c);
  }

  lemma LaidOutWithFallbacks(team: TeamMode, producers: nat)
    requires team != Solo
    ensures forall seat | seat in Layout(team, producers) :: seat.withFallbacks
  {
  }

  lemma PlanFilled(ctx: Context, planId: string, displayName: string, team: TeamMode, profiles: seq<Profile>, i: nat)
    requires MakePlan(ctx, planId, displayName, team, profiles).Success? && i < |Layout(team, ctx.policy.producers)|
    ensures var before := BeforeRole(ctx, team, profiles, i);
            var filled := FillSeat(ctx, Layout(team, ctx.policy.producers)[i], profiles, before);
            && |before.routes| == i < |MakePlan(ctx, planId, displayName, team, profiles).value.routes|
            && filled.Success? && i < |filled.value.routes|
            && MakePlan(ctx, planId, displayName, team, profiles).value.routes[i] == filled.value.routes[i]
  {
    hide FillSeat, FillAll, Layout, PortfolioAdmits, Exceeds, RouteFits;
    RouteOfFilling(ctx, Layout(team, ctx.policy.producers), profiles, i);
    FilledRoute(ctx, Layout(team, ctx.policy.producers)[i], profiles, BeforeRole(ctx, team, profiles, i));
  }

  /** An unknown team mode is refused before anything is looked at, and then a plan without models. */
  lemma RefusedAtOnce(ctx: Context, planId: string, displayName: string, team: TeamMode, profiles: seq<Profile>)
    ensures MakePlan(ctx, planId, displayName, team, profiles) == Failure(TeamModeInvalid) <==> team.OtherTeam?
    ensures MakePlan(ctx, planId, displayName, team, profiles) == Failure(NoModels)
            <==> !team.OtherTeam? && profiles == []
  {
    hide FillAll, Layout, PortfolioAdmits, Exceeds;
    if FillAll(ctx, Layout(team, ctx.policy.producers), profiles).Failure? {
      FillingFails(ctx, Layout(team, ctx.policy.producers), profiles);
    }
  }

  /** The seats' providers, fallbacks included. */
  function AllProviders(routes: seq<Route>): set<string> {
    if routes == [] then {} else AllProviders(routes[..|routes| - 1]) + ProvidersOf(routes[|routes| - 1].selected)
  }

  ghost predicate Warned(routes: seq<Route>, warnings: seq<Warning>, layout: seq<Seat>) {
    forall role :: FallbackReady(role) in warnings
      <==> exists i :: 0 <= i < |layout| && layout[i].role == role && i < |routes|
                       && |routes[i].selected| > layout[i].count
  }

  lemma SeatWarns(ctx: Context, seat: Seat, profiles: seq<Profile>, before: Progress)
    requires FillSeat(ctx, seat, profiles, before).Success?
    ensures var after := FillSeat(ctx, seat, profiles, before).value;
            && |after.routes| == |before.routes| + 1 && after.routes[..|before.routes|] == before.routes
            && var selected := after.routes[|before.routes|].selected;
               && after.warnings
                  == before.warnings + (if |selected| > seat.count then [FallbackReady(seat.role)] else [])
               && after.providers == before.providers + ProvidersOf(selected)
  {
    hide AnyInvalid, Choice, Rejections, MembersOf, ProvidersOf;
    ChoiceAccounts(ctx, seat, profiles, before);
  }

  lemma {:induction false} FillingWarns(ctx: Context, layout: seq<Seat>, profiles: seq<Profile>)
    requires FillAll(ctx, layout, profiles).Success?
    ensures var done := FillAll(ctx, layout, profiles).value;
            && |done.routes| == |layout| && Warned(done.routes, done.warnings, layout)
            && NoProviderDiversity !in done.warnings && done.providers == AllProviders(done.routes)
  {
    hide FillAll, FillSeat, ProvidersOf, Warned, AllProviders;
    FillAllStep(ctx, layout, profiles);
    if layout == [] {
      NothingWarned();
    } else {
      var n := |layout| - 1;
      FillingWarns(ctx, layout[..n], profiles);
      var before := FillAll(ctx, layout[..n], profiles).value;
      var after := FillAll(ctx, layout, profiles).value;
      SeatWarns(ctx, layout[n], profiles, before);
      assert layout == layout[..n] + [layout[n]] && after.routes == before.routes + [after.routes[n]];
      WarnedMore(before.routes, before.warnings, layout[..n], after.routes[n], layout[n]);
      ProvidersOfMore(before.routes, after.routes[n]);
    }
  }

  lemma FillAllStep(ctx: Context, layout: seq<Seat>, profiles: seq<Profile>)
    requires FillAll(ctx, layout, profiles).Success?
    ensures layout == [] ==> FillAll(ctx, layout, profiles).value == NOTHING
    ensures layout != [] ==>
              var n := |layout| - 1;
              && FillAll(ctx, layout[..n], profiles).Success?
              && FillSeat(ctx, layout[n], profiles, FillAll(ctx, layout[..n], profiles).value)
                 == FillAll(ctx, layout, profiles)
  {
    hide FillSeat;
  }

  lemma ProvidersOfMore(routes: seq<Route>, route: Route)
    ensures AllProviders(routes + [route]) == AllProviders(routes) + ProvidersOf(route.selected)
  {
    assert (routes + [route])[..|routes|] == routes;
  }

  lemma NothingWarned()
    ensures Warned([], [], []) && AllProviders([]) == {}
  {
  }

  lemma WarnedMore(routes: seq<Route>, warnings: seq<Warning>, layout: seq<Seat>, route: Route, seat: Seat)
    requires |routes| == |layout| && Warned(routes, warnings, layout)
    ensures Warned(routes + [route],
                   warnings + (if |route.selected| > seat.count then [FallbackReady(seat.role)] else []),
                   layout + [seat])
  {
    var after := warnings + (if |route.selected| > seat.count then [FallbackReady(seat.role)] else []);
    var all, seats := routes + [route], layout + [seat];
    forall role
      ensures FallbackReady(role) in after
              <==> exists i :: 0 <= i < |seats| && seats[i].role == role && i < |all|
                               && |all[i].selected| > seats[i].count
    {
      if FallbackReady(role) in warnings {
        var i :| 0 <= i < |layout| && layout[i].role == role && |routes[i].selected| > layout[i].count;
        assert seats[i] == layout[i] && all[i] == routes[i];
      }
      if FallbackReady(role) in after && FallbackReady(role) !in warnings {
        assert seats[|layout|] == seat && all[|layout|] == route;
      }
      forall i | 0 <= i < |seats| && seats[i].role == role && |all[i].selected| > seats[i].count
        ensures FallbackReady(role) in after
      {
        if i < |layout| {
          assert seats[i] == layout[i] && all[i] == routes[i];
        }
      }
    }
  }

  /**
   A plan's warnings are its own: a role is said to have fallbacks exactly when it has some, a checking
   team is said to lack diversity exactly when fewer than two providers are seated, and no more models
   work in parallel than the policy has producers or the plan has members.
   */
  lemma PlanWarns(ctx: Context, planId: string, displayName: string, team: TeamMode, profiles: seq<Profile>)
    requires MakePlan(ctx, planId, displayName, team, profiles).Success?
    ensures var plan := MakePlan(ctx, planId, displayName, team, profiles).value;
            && Warned(plan.routes, plan.warnings, Layout(team, ctx.policy.producers))
            && (NoProviderDiversity in plan.warnings <==>
                  team in {Verify, Challenge} && |AllProviders(plan.routes)| < 2)
            && 1 <= plan.maxParallel <= |plan.members| && plan.maxParallel <= ctx.policy.producers
            && plan.maxParallel in {|plan.members|, ctx.policy.producers}
  {
    hide FillAll, Layout, AllProviders, Warned;
    var layout := Layout(team, ctx.policy.producers);
    FillingWarns(ctx, layout, profiles);
    FinishWarns(ctx, planId, displayName, team, FillAll(ctx, layout, profiles).value);
    hide FinishPlan;
    WarnedAlso(FillAll(ctx, layout, profiles).value, layout);
  }

  lemma FinishWarns(ctx: Context, planId: string, displayName: string, team: TeamMode, done: Progress)
    requires FinishPlan(ctx, planId, displayName, team, done).Success?
    ensures var plan := FinishPlan(ctx, planId, displayName, team, done).value;
            && plan.routes == done.routes && plan.members == done.members
            && plan.warnings
               == done.warnings
                  + (if team in {Verify, Challenge} && |done.providers| < 2 then [NoProviderDiversity] else [])
            && 1 <= plan.maxParallel <= |plan.members| && plan.maxParallel <= ctx.policy.producers
            && plan.maxParallel in {|plan.members|, ctx.policy.producers}
  {
    hide Exceeds, DistinctMembers, HasRole;
  }

  lemma WarnedAlso(done: Progress, layout: seq<Seat>)
    requires Warned(done.routes, done.warnings, layout)
    ensures Warned(done.routes, done.warnings + [NoProviderDiversity], layout)
    ensures done.warnings + [] == done.warnings
  {
    var more := done.warnings + [NoProviderDiversity];
    assert forall role :: FallbackReady(role) in more <==> FallbackReady(role) in done.warnings;
  }

  // ---------- what a profile says of itself ----------

  function SourceName(source: Source): string {
    match source
    case OfficialFree => "official_free"
    case Subscription => "subscription_entitlement"
    case Promotional => "promotional"
    case ThirdPartyFree => "third_party_free"
    case Paid => "paid"
    case Local => "local"
  }

  function QuotaName(quota: Quota): string {
    match quota
    case QuotaUnknown => "unknown"
    case Available => "available"
    case Low => "low"
    case Exhausted => "exhausted"
    case Unlimited => "unlimited"
  }

  function TermsName(terms: Terms): string {
    match terms
    case Official => "official"
    case VerifiedThirdParty => "verified_third_party"
    case TermsUnknown => "unknown"
    case Blocked => "blocked"
  }

  /** Every name is read back as what it names; an unknown source is paid, other unknown names are refused. */
  lemma NamesParse(text: string)
    ensures forall source :: ParseSource(text) == source
              <==> text == SourceName(source) || (source == Paid && forall s :: text != SourceName(s))
    ensures forall quota :: ParseQuota(text) == Some(quota) <==> text == QuotaName(quota)
    ensures forall terms :: ParseTerms(text) == Some(terms) <==> text == TermsName(terms)
  {
    SourceNamesDiffer(text);
  }

  /** No two roles go by one name. */
  lemma RoleNamesDiffer(a: Role, b: Role)
    ensures RoleName(a) == RoleName(b) ==> a == b
  {
  }

  lemma SourceNamesDiffer(text: string)
    ensures ParseSource(text) != Paid ==> text == SourceName(ParseSource(text))
    ensures forall source :: ParseSource(SourceName(source)) == source
  {
  }

  /**
   What a profile without a recorded observation is taken for: its metadata, where a missing source is
   local for a local endpoint and paid otherwise, a missing quota unlimited for local models and unknown
   otherwise, and missing terms unknown for third-party free models and official otherwise; names or
   numbers that make no sense are refused. A recorded observation counts instead of all that.
   */
  lemma ObservationIs(ctx: Context, p: Profile)
    ensures p.modelId in ctx.observations ==> ObservationFor(ctx, p) == Some(ctx.observations[p.modelId])
    ensures p.modelId !in ctx.observations ==>
              var m := p.metadata;
              && (ObservationFor(ctx, p).Some? <==>
                    && (m.quota == "" || exists quota :: m.quota == QuotaName(quota))
                    && (m.terms == "" || exists terms :: m.terms == TermsName(terms))
                    && m.inputCost >= 0.0 && m.outputCost >= 0.0 && (m.remaining.Some? ==> m.remaining.value >= 0))
              && (ObservationFor(ctx, p).Some? ==>
                    var o := ObservationFor(ctx, p).value;
                    && o.source == (if m.source != "" then ParseSource(m.source)
                                    else if p.localEndpoint then Local else Paid)
                    && (if m.quota != "" then m.quota == QuotaName(o.quota)
                        else o.quota == if o.source == Local then Unlimited else QuotaUnknown)
                    && (if m.terms != "" then m.terms == TermsName(o.terms)
                        else o.terms == if o.source == ThirdPartyFree then TermsUnknown else Official)
                    && o.inputCost == m.inputCost && o.outputCost == m.outputCost && o.entitled == m.entitled
                    && (if m.remaining.Some? then o.remaining.Some? && o.remaining.value == m.remaining.value
                        else o.remaining.None?))
  {
    NamesParse(p.metadata.quota);
    NamesParse(p.metadata.terms);
    hide ParseSource, ParseQuota, ParseTerms, QuotaName, TermsName;
    assert ParseQuota(p.metadata.quota).Some? ==>
             p.metadata.quota == QuotaName(ParseQuota(p.metadata.quota).value);
    assert ParseTerms(p.metadata.terms).Some? ==>
             p.metadata.terms == TermsName(ParseTerms(p.metadata.terms).value);
  }
}
