/**
 The adaptive capacity router: eligibility gates, scores, ranking, and the greedy choice of
 models for the roles of a team under one running budget.

 Qualities and scores are whole millionths and costs whole hundred-millionths of a dollar, as the
 router rounds them; everything before the rounding is exact real arithmetic.
 */
module CapacityRouter {
  import opened Prelude

  type Id = s: string | s != "" witness "m"

  type Price = x: real | x >= 0.0

  datatype Source = OfficialFree | Subscription | Promotional | ThirdPartyFree | Paid | Local

  datatype Quota = QuotaUnknown | Available | Low | Exhausted | Unlimited

  datatype Terms = Official | VerifiedThirdParty | TermsUnknown | Blocked

  datatype Observation = Observation(source: Source, quota: Quota, remaining: Option<nat>, inputCost: Price,
                                     outputCost: Price, terms: Terms, entitled: bool)

  /** What a profile's metadata says about its capacity; empty texts stand for missing entries. */
  datatype Metadata = Metadata(source: string, quota: string, remaining: Option<int>, inputCost: real, outputCost: real,
                               terms: string, entitled: bool)

  datatype Profile = Profile(modelId: Id, providerId: string, localEndpoint: bool, capabilities: map<string, real>,
                             roles: seq<string>, domains: seq<string>, enabled: bool, metadata: Metadata)

  datatype Task = Task(phase: string, role: string, domains: seq<string>)

  datatype RoutingMode = MaximumQuality | Balanced | MaximumFree | LocalOnly | CustomBudget

  datatype PolicyFields = PolicyFields(mode: RoutingMode, qualityFloor: real, budget: Option<real>, inputTokens: nat,
                                       outputTokens: nat, producers: nat, fallbacks: nat, diversity: bool,
                                       allowPaid: bool, allowLocal: bool, allowPromotional: bool,
                                       allowSubscription: bool, allowThirdPartyFree: bool, requireKnownTerms: bool,
                                       reserve: int)

  /** A policy as its constructor admits it. */
  type Policy = p: PolicyFields | 0.0 <= p.qualityFloor <= 1.0 && (p.budget.Some? ==> p.budget.value >= 0.0)
                                  && p.producers >= 1
    witness PolicyFields(Balanced, 0.65, None, 2500, 1500, 2, 1, true, true, true, true, true, false, true, 512)

  /** What a router plans with: its recorded observations, the task, and the policy. */
  datatype Context = Context(observations: map<Id, Observation>, task: Task, policy: Policy)

  datatype Role = Producer | Verifier | Challenger | Synthesizer

  datatype TeamMode = Solo | Fallback | Parallel | Verify | Challenge | OtherTeam(text: string)

  datatype Reason =
    | TermsAreBlocked | TermsAreUnknown | ThirdPartyNotAllowed | PromotionalNotAllowed
    | SubscriptionNotAllowed | SubscriptionProvesNothing | PaidNotAllowed | LocalNotAllowed | NotLocal
    | QuotaExhausted | QuotaInsufficient | BelowQualityFloor | OverTaskBudget | OverRunningBudget

  datatype Candidate = Candidate(modelId: Id, providerId: string, role: Role, quality: int, score: int, cost: int,
                                 source: Source, quota: Quota)

  datatype Rejection = Rejection(modelId: Id, reason: Reason)

  datatype Route = Route(role: Role, selected: seq<Candidate>, rejected: seq<Rejection>)

  datatype Member = Member(modelId: Id, role: Role, priority: nat, required: bool)

  datatype Warning = FallbackReady(role: Role) | NoProviderDiversity

  datatype Plan = Plan(routes: seq<Route>, members: seq<Member>, maxParallel: nat, cost: int, warnings: seq<Warning>)

  datatype Error =
    | TeamModeInvalid
    | NoModels
    | InvalidObservation
    | NoEligibleModel(role: Role)
    | PortfolioInvalid
    | OverBudget

  // ---------- observations ----------

  function ParseSource(text: string): Source {
    match text
    case "official_free" => OfficialFree
    case "subscription_entitlement" => Subscription
    case "promotional" => Promotional
    case "third_party_free" => ThirdPartyFree
    case "local" => Local
    case _ => Paid
  }

  function ParseQuota(text: string): Option<Quota> {
    match text
    case "unknown" => Some(QuotaUnknown)
    case "available" => Some(Available)
    case "low" => Some(Low)
    case "exhausted" => Some(Exhausted)
    case "unlimited" => Some(Unlimited)
    case _ => None
  }

  function ParseTerms(text: string): Option<Terms> {
    match text
    case "official" => Some(Official)
    case "verified_third_party" => Some(VerifiedThirdParty)
    case "unknown" => Some(TermsUnknown)
    case "blocked" => Some(Blocked)
    case _ => None
  }

  /** An unknown source counts as paid; any other value the observation's constructor refuses is an error. */
  function Derived(p: Profile): Option<Observation> {
    var m := p.metadata;
    var source := if m.source == "" then (if p.localEndpoint then Local else Paid) else ParseSource(m.source);
    var quota :=
      if m.quota == "" then Some(if source == Local then Unlimited else QuotaUnknown) else ParseQuota(m.quota);
    var terms :=
      if m.terms == "" then Some(if source == ThirdPartyFree then TermsUnknown else Official) else ParseTerms(m.terms);
    if quota.None? || terms.None? || m.inputCost < 0.0 || m.outputCost < 0.0
       || (m.remaining.Some? && m.remaining.value < 0) then None
    else Some(Observation(source, quota.value, if m.remaining.Some? then Some(m.remaining.value) else None,
                          m.inputCost, m.outputCost, terms.value, m.entitled))
  }

  function ObservationFor(ctx: Context, p: Profile): Option<Observation> {
    if p.modelId in ctx.observations then Some(ctx.observations[p.modelId]) else Derived(p)
  }

  predicate FreeLike(o: Observation) {
    o.source != Paid && o.inputCost == 0.0 && o.outputCost == 0.0
  }

  function EstimatedCost(o: Observation, policy: Policy): (dollars: real)
  {
    (policy.inputTokens as real / 1000000.0) * o.inputCost + (policy.outputTokens as real / 1000000.0) * o.outputCost
  }

  // ---------- quality, eligibility, score ----------

  /** Rounds to the nearest integer, halves to even. */
  function Round(x: real): (n: int)
    ensures -0.5 <= n as real - x <= 0.5
    ensures n as real - x in {-0.5, 0.5} ==> n % 2 == 0
  {
    var down := x.Floor;
    var rest := x - down as real;
    if rest < 0.5 || (rest == 0.5 && down % 2 == 0) then down else down + 1
  }

  function Min(x: real, y: real): real {
    if x <= y then x else y
  }

  function Max(x: real, y: real): real {
    if x >= y then x else y
  }

  function RoleName(role: Role): string {
    match role
    case Producer => "producer"
    case Verifier => "verifier"
    case Challenger => "challenger"
    case Synthesizer => "synthesizer"
  }

  function Capability(p: Profile, key: string): real {
    if key in p.capabilities then p.capabilities[key] else 0.0
  }

  function BestCapability(p: Profile, keys: seq<string>): real
    requires keys != []
  {
    var last := Capability(p, keys[|keys| - 1]);
    if |keys| == 1 then last else Max(BestCapability(p, keys[..|keys| - 1]), last)
  }

  function Elements(s: seq<string>): set<string> {
    set x | x in s
  }

  function Quality(p: Profile, task: Task, role: Role): int {
    var capability := BestCapability(p, task.domains + [task.phase, task.role, "general"]);
    var roleBonus := if RoleName(role) in p.roles then 0.12 else 0.0;
    var domainBonus := Min(0.08, 0.04 * |Elements(task.domains) * Elements(p.domains)| as real);
    Round(Min(1.0, Max(capability, Capability(p, RoleName(role))) + roleBonus + domainBonus) * 1000000.0)
  }

  function RoleFloor(policy: Policy, role: Role): real {
    Min(1.0, policy.qualityFloor + (if role == Producer then 0.0 else 0.03))
  }

  /** The first gate an observation and a quality do not pass, if any. */
  function Gate(o: Observation, role: Role, quality: int, policy: Policy): Option<Reason> {
    if o.terms == Blocked then Some(TermsAreBlocked)
    else if policy.requireKnownTerms && o.terms == TermsUnknown then Some(TermsAreUnknown)
    else if o.source == ThirdPartyFree && !policy.allowThirdPartyFree then Some(ThirdPartyNotAllowed)
    else if o.source == Promotional && !policy.allowPromotional then Some(PromotionalNotAllowed)
    else if o.source == Subscription && !policy.allowSubscription then Some(SubscriptionNotAllowed)
    else if o.source == Subscription && !o.entitled then Some(SubscriptionProvesNothing)
    else if o.source == Paid && !policy.allowPaid then Some(PaidNotAllowed)
    else if o.source == Local && !policy.allowLocal then Some(LocalNotAllowed)
    else if policy.mode == LocalOnly && o.source != Local then Some(NotLocal)
    else if o.quota == Exhausted then Some(QuotaExhausted)
    else if o.remaining.Some? && o.remaining.value < policy.inputTokens + policy.outputTokens + policy.reserve then
      Some(QuotaInsufficient)
    else if quality as real < RoleFloor(policy, role) * 1000000.0 then Some(BelowQualityFloor)
    else if policy.budget.Some? && EstimatedCost(o, policy) > policy.budget.value then Some(OverTaskBudget)
    else None
  }

  function SourceBonus(source: Source, mode: RoutingMode): int {
    match mode
    case MaximumQuality =>
      (match source
       case OfficialFree => 2
       case Subscription => 2
       case Promotional => 1
       case ThirdPartyFree => -2
       case Paid => 0
       case Local => 1)
    case MaximumFree =>
      (match source
       case OfficialFree => 38
       case Subscription => 32
       case Promotional => 25
       case ThirdPartyFree => 15
       case Paid => -32
       case Local => 35)
    case LocalOnly => if source == Local then 40 else -100
    case _ =>
      (match source
       case OfficialFree => 16
       case Subscription => 13
       case Promotional => 10
       case ThirdPartyFree => 4
       case Paid => 0
       case Local => 12)
  }

  /** What source, price, quota, terms and provider add to a score. */
  function Adjustment(p: Profile, o: Observation, role: Role, policy: Policy, providers: set<string>): int {
    var diversity := if !policy.diversity || role !in {Verifier, Challenger} || providers == {} then 0
                     else if p.providerId !in providers then 9 else -5;
    SourceBonus(o.source, policy.mode) + (if FreeLike(o) then 3 else 0)
    + (match o.quota case Available => 2 case Unlimited => 2 case Low => -6 case _ => 0)
    + (match o.terms case Official => 3 case VerifiedThirdParty => 1 case _ => 0)
    + diversity
  }

  function ExactScore(quality: int, adjustment: int, dollars: real): real {
    quality as real / 10000.0 + adjustment as real - Min(20.0, dollars * 100.0)
  }

  function Score(p: Profile, o: Observation, role: Role, quality: int, policy: Policy, providers: set<string>): int {
    Round(ExactScore(quality, Adjustment(p, o, role, policy, providers), EstimatedCost(o, policy)) * 1000000.0)
  }

  // ---------- ranking ----------

  datatype Verdict = Skipped | Invalid | Rejected(reason: Reason) | Accepted(candidate: Candidate)

  /** What becomes of one profile when a role is ranked. */
  function Judge(ctx: Context, role: Role, providers: set<string>, used: set<Id>, p: Profile): (v: Verdict)
    ensures v.Accepted? ==> v.candidate.modelId == p.modelId && p.modelId !in used
  {
    if !p.enabled || p.modelId in used then Skipped
    else
      match ObservationFor(ctx, p)
      case None => Invalid
      case Some(o) =>
        var quality := Quality(p, ctx.task, role);
        match Gate(o, role, quality, ctx.policy)
        case Some(reason) => Rejected(reason)
        case None =>
          Accepted(Candidate(p.modelId, p.providerId, role, quality, Score(p, o, role, quality, ctx.policy, providers),
                             Round(EstimatedCost(o, ctx.policy) * 100000000.0), o.source, o.quota))
  }

  predicate AnyInvalid(ctx: Context, role: Role, providers: set<string>, used: set<Id>, profiles: seq<Profile>) {
    exists p | p in profiles :: Judge(ctx, role, providers, used, p).Invalid?
  }

  function Candidates(ctx: Context, role: Role, providers: set<string>, used: set<Id>, profiles: seq<Profile>)
    : seq<Candidate>
  {
    if profiles == [] then []
    else
      var before := Candidates(ctx, role, providers, used, profiles[..|profiles| - 1]);
      match Judge(ctx, role, providers, used, profiles[|profiles| - 1])
      case Accepted(c) => before + [c]
      case _ => before
  }

  function Rejections(ctx: Context, role: Role, providers: set<string>, used: set<Id>, profiles: seq<Profile>)
    : seq<Rejection>
  {
    if profiles == [] then []
    else
      var before := Rejections(ctx, role, providers, used, profiles[..|profiles| - 1]);
      match Judge(ctx, role, providers, used, profiles[|profiles| - 1])
      case Rejected(reason) => before + [Rejection(profiles[|profiles| - 1].modelId, reason)]
      case _ => before
  }

  /** Texts in code point order. */
  predicate TextLeq(a: string, b: string) {
    a == "" || (b != "" && (a[0] < b[0] || (a[0] == b[0] && TextLeq(a[1..], b[1..]))))
  }

  /** Better score first, then the cheaper, then the model id. */
  predicate Leq(a: Candidate, b: Candidate) {
    || a.score > b.score
    || (a.score == b.score && (a.cost < b.cost || (a.cost == b.cost && TextLeq(a.modelId, b.modelId))))
  }

  function Insert(sorted: seq<Candidate>, c: Candidate): seq<Candidate> {
    if sorted == [] then [c]
    else
      var last := sorted[|sorted| - 1];
      if Leq(last, c) then sorted + [c] else Insert(sorted[..|sorted| - 1], c) + [last]
  }

  /** The stable sort by rank. */
  function Sort(candidates: seq<Candidate>): seq<Candidate> {
    if candidates == [] then [] else Insert(Sort(candidates[..|candidates| - 1]), candidates[|candidates| - 1])
  }

  method RankRole(ctx: Context, role: Role, profiles: seq<Profile>, providers: set<string>, used: set<Id>)
    returns (r: Result<(seq<Candidate>, seq<Rejection>), Error>)
    ensures r == if AnyInvalid(ctx, role, providers, used, profiles) then Failure(InvalidObservation)
                 else Success((Sort(Candidates(ctx, role, providers, used, profiles)),
                               Rejections(ctx, role, providers, used, profiles)))
  {
    hide Judge, Sort;
    var candidates, rejected := [], [];
    var i := 0;
    while i < |profiles|
      invariant 0 <= i <= |profiles|
      invariant candidates == Candidates(ctx, role, providers, used, profiles[..i])
      invariant rejected == Rejections(ctx, role, providers, used, profiles[..i])
      invariant forall k | 0 <= k < i :: !Judge(ctx, role, providers, used, profiles[k]).Invalid?
    {
      assert profiles[..i + 1][..i] == profiles[..i];
      match Judge(ctx, role, providers, used, profiles[i]) {
        case Skipped =>
        case Invalid => return Failure(InvalidObservation);
        case Rejected(reason) => rejected := rejected + [Rejection(profiles[i].modelId, reason)];
        case Accepted(c) => candidates := candidates + [c];
      }
      i := i + 1;
    }
    assert profiles[..i] == profiles;
    r := Success((Sort(candidates), rejected));
  }

  // ---------- the greedy choice for one role ----------

  datatype Picked = Picked(primary: seq<Candidate>, remaining: seq<Candidate>, over: seq<Candidate>, total: int)

  predicate Exceeds(budget: Option<real>, units: int) {
    budget.Some? && units as real > budget.value * 100000000.0
  }

  /** Seats the next candidate in rank order if a seat is free and the running budget allows. */
  function Offer(t: Picked, c: Candidate, count: nat, budget: Option<real>): Picked {
    if |t.primary| >= count then t.(remaining := t.remaining + [c])
    else if Exceeds(budget, t.total + c.cost) then t.(over := t.over + [c])
    else t.(primary := t.primary + [c], total := t.total + c.cost)
  }

  function Take(ranked: seq<Candidate>, count: nat, budget: Option<real>, total: int): Picked {
    if ranked == [] then Picked([], [], [], total)
    else Offer(Take(ranked[..|ranked| - 1], count, budget, total), ranked[|ranked| - 1], count, budget)
  }

  method TakeSeats(ranked: seq<Candidate>, count: nat, budget: Option<real>, total: int) returns (t: Picked)
    ensures t == Take(ranked, count, budget, total)
  {
    var primary, remaining, over, running := [], [], [], total;
    var i := 0;
    while i < |ranked|
      invariant 0 <= i <= |ranked|
      invariant Picked(primary, remaining, over, running) == Take(ranked[..i], count, budget, total)
    {
      assert ranked[..i + 1][..i] == ranked[..i];
      var c := ranked[i];
      if |primary| < count {
        var projected := running + c.cost;
        if Exceeds(budget, projected) {
          over := over + [c];
        } else {
          primary, running := primary + [c], projected;
        }
      } else {
        remaining := remaining + [c];
      }
      i := i + 1;
    }
    assert ranked[..i] == ranked;
    t := Picked(primary, remaining, over, running);
  }

  // ---------- the plan ----------

  datatype Seat = Seat(role: Role, count: nat, withFallbacks: bool)

  function Layout(team: TeamMode, producers: nat): seq<Seat> {
    match team
    case Solo => [Seat(Producer, 1, false)]
    case Fallback => [Seat(Producer, 1, true)]
    case Parallel => [Seat(Producer, producers, true)]
    case Verify => [Seat(Producer, producers, true), Seat(Verifier, 1, true)]
    case _ => [Seat(Producer, producers, true), Seat(Challenger, 1, true), Seat(Synthesizer, 1, true)]
  }

  /** What planning has decided so far. */
  datatype Progress = Progress(routes: seq<Route>, members: seq<Member>, warnings: seq<Warning>, used: set<Id>,
                               providers: set<string>, total: int)

  const NOTHING := Progress([], [], [], {}, {}, 0)

  function OverBudgetRejections(over: seq<Candidate>): seq<Rejection> {
    if over == [] then []
    else OverBudgetRejections(over[..|over| - 1]) + [Rejection(over[|over| - 1].modelId, OverRunningBudget)]
  }

  function MembersOf(selected: seq<Candidate>, role: Role, count: nat): (r: seq<Member>)
    ensures |r| == |selected|
  {
    if selected == [] then []
    else
      var index := |selected| - 1;
      MembersOf(selected[..index], role, count) + [Member(selected[index].modelId, role, 100 + index, index < count)]
  }

  function ModelsOf(selected: seq<Candidate>): set<Id> {
    set c | c in selected :: c.modelId
  }

  function ProvidersOf(selected: seq<Candidate>): set<string> {
    set c | c in selected :: c.providerId
  }

  function Fallbacks(seat: Seat, remaining: seq<Candidate>, limit: nat): seq<Candidate> {
    if !seat.withFallbacks then [] else if |remaining| <= limit then remaining else remaining[..limit]
  }

  function Ranked(ctx: Context, seat: Seat, profiles: seq<Profile>, before: Progress): seq<Candidate> {
    Sort(Candidates(ctx, seat.role, before.providers, before.used, profiles))
  }

  function Choice(ctx: Context, seat: Seat, profiles: seq<Profile>, before: Progress): Picked {
    Take(Ranked(ctx, seat, profiles, before), seat.count, ctx.policy.budget, before.total)
  }

  function FillSeat(ctx: Context, seat: Seat, profiles: seq<Profile>, before: Progress): Result<Progress, Error> {
    if AnyInvalid(ctx, seat.role, before.providers, before.used, profiles) then Failure(InvalidObservation)
    else
      var t := Choice(ctx, seat, profiles, before);
      if |t.primary| < seat.count then Failure(NoEligibleModel(seat.role))
      else
        var fallbacks := Fallbacks(seat, t.remaining, ctx.policy.fallbacks);
        var selected := t.primary + fallbacks;
        var rejected :=
          Rejections(ctx, seat.role, before.providers, before.used, profiles) + OverBudgetRejections(t.over);
        Success(Progress(before.routes + [Route(seat.role, selected, rejected)],
                         before.members + MembersOf(selected, seat.role, seat.count),
                         if fallbacks != [] then before.warnings + [FallbackReady(seat.role)] else before.warnings,
                         before.used + ModelsOf(selected), before.providers + ProvidersOf(selected), t.total))
  }

  function FillAll(ctx: Context, layout: seq<Seat>, profiles: seq<Profile>): Result<Progress, Error> {
    if layout == [] then Success(NOTHING)
    else
      match FillAll(ctx, layout[..|layout| - 1], profiles)
      case Failure(e) => Failure(e)
      case Success(before) => FillSeat(ctx, layout[|layout| - 1], profiles, before)
  }

  predicate DistinctMembers(members: seq<Member>) {
    forall i, j | 0 <= i < j < |members| :: members[i].modelId != members[j].modelId
  }

  predicate HasRole(members: seq<Member>, role: Role) {
    exists m | m in members :: m.role == role
  }

  /** The checks of the portfolio's own constructor. */
  predicate PortfolioAdmits(planId: string, displayName: string, team: TeamMode, members: seq<Member>) {
    && planId != "" && displayName != "" && members != [] && DistinctMembers(members)
    && (team == Verify ==> HasRole(members, Verifier))
    && (team == Challenge ==>
          HasRole(members, Challenger) && HasRole(members, Synthesizer) && HasRole(members, Producer))
  }

  function MaxParallel(producers: nat, members: nat): nat {
    var fewer := if producers <= members then producers else members;
    if fewer >= 1 then fewer else 1
  }

  function FinishPlan(ctx: Context, planId: string, displayName: string, team: TeamMode, done: Progress)
    : Result<Plan, Error>
  {
    if !PortfolioAdmits(planId, displayName, team, done.members) then Failure(PortfolioInvalid)
    else if Exceeds(ctx.policy.budget, done.total) then Failure(OverBudget)
    else
      var warnings :=
        if team in {Verify, Challenge} && |done.providers| < 2 then done.warnings + [NoProviderDiversity]
        else done.warnings;
      Success(Plan(done.routes, done.members, MaxParallel(ctx.policy.producers, |done.members|), done.total, warnings))
  }

  function MakePlan(ctx: Context, planId: string, displayName: string, team: TeamMode, profiles: seq<Profile>)
    : Result<Plan, Error>
  {
    if team.OtherTeam? then Failure(TeamModeInvalid)
    else if profiles == [] then Failure(NoModels)
    else
      match FillAll(ctx, Layout(team, ctx.policy.producers), profiles)
      case Failure(e) => Failure(e)
      case Success(done) => FinishPlan(ctx, planId, displayName, team, done)
  }

  lemma NobodySeated(seat: Seat)
    ensures MembersOf([], seat.role, seat.count) == [] && ModelsOf([]) == {} && ProvidersOf([]) == {}
  {
  }

  lemma SeatOneMore(selected: seq<Candidate>, index: nat, seat: Seat)
    requires index < |selected|
    ensures MembersOf(selected[..index + 1], seat.role, seat.count)
            == MembersOf(selected[..index], seat.role, seat.count)
               + [Member(selected[index].modelId, seat.role, 100 + index, index < seat.count)]
    ensures ModelsOf(selected[..index + 1]) == ModelsOf(selected[..index]) + {selected[index].modelId}
    ensures ProvidersOf(selected[..index + 1]) == ProvidersOf(selected[..index]) + {selected[index].providerId}
  {
    assert selected[..index + 1] == selected[..index] + [selected[index]];
  }

  method SeatMembers(selected: seq<Candidate>, seat: Seat, before: Progress)
    returns (members: seq<Member>, used: set<Id>, providers: set<string>)
    ensures members == before.members + MembersOf(selected, seat.role, seat.count)
    ensures used == before.used + ModelsOf(selected)
    ensures providers == before.providers + ProvidersOf(selected)
  {
    NobodySeated(seat);
    hide MembersOf, ModelsOf, ProvidersOf;
    members, used, providers := before.members, before.used, before.providers;
    var index := 0;
    while index < |selected|
      invariant 0 <= index <= |selected|
      invariant members == before.members + MembersOf(selected[..index], seat.role, seat.count)
      invariant used == before.used + ModelsOf(selected[..index])
      invariant providers == before.providers + ProvidersOf(selected[..index])
    {
      SeatOneMore(selected, index, seat);
      members := members + [Member(selected[index].modelId, seat.role, 100 + index, index < seat.count)];
      used := used + {selected[index].modelId};
      providers := providers + {selected[index].providerId};
      index := index + 1;
    }
    assert selected[..index] == selected;
  }

  method SeatRole(ctx: Context, seat: Seat, profiles: seq<Profile>, before: Progress)
    returns (r: Result<Progress, Error>)
    ensures r == FillSeat(ctx, seat, profiles, before)
  {
    hide Take, Sort, Candidates, Rejections, AnyInvalid, MembersOf, ModelsOf, ProvidersOf;
    var ranking := RankRole(ctx, seat.role, profiles, before.providers, before.used);
    if ranking.Failure? {
      return Failure(ranking.error);
    }
    var t := TakeSeats(ranking.value.0, seat.count, ctx.policy.budget, before.total);
    if |t.primary| < seat.count {
      return Failure(NoEligibleModel(seat.role));
    }
    var fallbacks := Fallbacks(seat, t.remaining, ctx.policy.fallbacks);
    var selected := t.primary + fallbacks;
    var route := Route(seat.role, selected, ranking.value.1 + OverBudgetRejections(t.over));
    var members, used, providers := SeatMembers(selected, seat, before);
    var warnings := before.warnings;
    if fallbacks != [] {
      warnings := warnings + [FallbackReady(seat.role)];
    }
    r := Success(Progress(before.routes + [route], members, warnings, used, providers, t.total));
  }

  method PlanTeam(ctx: Context, planId: string, displayName: string, team: TeamMode, profiles: seq<Profile>)
    returns (r: Result<Plan, Error>)
    ensures r == MakePlan(ctx, planId, displayName, team, profiles)
  {
    hide FillSeat, Exceeds, PortfolioAdmits, Layout;
    if team.OtherTeam? {
      return Failure(TeamModeInvalid);
    }
    if profiles == [] {
      return Failure(NoModels);
    }
    var layout := Layout(team, ctx.policy.producers);
    var state := NOTHING;
    var i := 0;
    while i < |layout|
      invariant 0 <= i <= |layout|
      invariant FillAll(ctx, layout[..i], profiles) == Success(state)
    {
      assert layout[..i + 1][..i] == layout[..i];
      LayoutPrefix(ctx, layout, profiles, i + 1);
      var filled := SeatRole(ctx, layout[i], profiles, state);
      if filled.Failure? {
        return Failure(filled.error);
      }
      state := filled.value;
      i := i + 1;
    }
    assert layout[..i] == layout;
    if !PortfolioAdmits(planId, displayName, team, state.members) {
      return Failure(PortfolioInvalid);
    }
    if Exceeds(ctx.policy.budget, state.total) {
      return Failure(OverBudget);
    }
    var warnings := state.warnings;
    if team in {Verify, Challenge} && |state.providers| < 2 {
      warnings := warnings + [NoProviderDiversity];
    }
    r := Success(Plan(state.routes, state.members, MaxParallel(ctx.policy.producers, |state.members|), state.total,
                      warnings));
  }

  /** A role that cannot be filled ends the plan. */
  lemma {:induction false} LayoutPrefix(ctx: Context, layout: seq<Seat>, profiles: seq<Profile>, n: nat)
    requires n <= |layout|
    ensures FillAll(ctx, layout[..n], profiles).Failure? ==>
              FillAll(ctx, layout, profiles) == FillAll(ctx, layout[..n], profiles)
  {
    hide FillSeat;
    if n == |layout| {
      assert layout[..n] == layout;
    } else {
      LayoutPrefix(ctx, layout[..|layout| - 1], profiles, n);
      assert layout[..|layout| - 1][..n] == layout[..n];
    }
  }
}
