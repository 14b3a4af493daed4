/** Provider selection (swarm-provider/router.rs): hard and soft filters, the comparators,
    and the final decision. */
module Routing {
  import opened Wrappers
  import opened StableSort

  type ProviderId = nat

  datatype Feature =
    | ChatCompletion | Streaming | ToolCalling | Reasoning | Embeddings | Speech | Multimodal | Vision | JsonMode

  // Numeric hints are absent or ordinary numbers; region and standard names are normalised.
  datatype Provider = Provider(
    id: ProviderId,
    name: string,
    features: set<Feature>,
    models: set<string>,
    cost: Option<real>,
    quality: Option<real>,
    latency: Option<real>,
    standards: set<string>,
    regions: set<string>,
    healthy: bool)

  datatype CostPreference = Cheapest | BalancedCost | BestQuality

  datatype LatencyPreference = Fastest | BalancedLatency | NoPreference

  datatype DataLocality = DataLocality(allowedRegions: set<string>, strict: bool)

  datatype Context = Context(
    required: set<Feature>,
    preferredModel: Option<string>,
    costPreference: CostPreference,
    latencyPreference: LatencyPreference,
    mandatory: set<string>,
    advisory: set<string>,
    locality: Option<DataLocality>,
    allowlist: set<ProviderId>,
    blocklist: set<ProviderId>,
    fallbackAllowed: bool,
    requireHealthy: bool)

  datatype RoutingError = RoutingFailed | ComplianceBoundaryViolation

  datatype Decision = Decision(primary: Provider, fallbacks: seq<Provider>)

  // ---- Predicates on one provider ----

  predicate MatchesModel(p: Provider, model: Option<string>) {
    model.None? || model.value in p.models
  }

  predicate MeetsStandards(p: Provider, standards: set<string>) {
    standards == {} || (p.standards != {} && standards <= p.standards)
  }

  predicate MatchesLocality(p: Provider, l: DataLocality) {
    if l.allowedRegions == {} then true
    else if p.regions == {} then !l.strict
    else l.allowedRegions * p.regions != {}
  }

  predicate Admissible(p: Provider, ctx: Context) {
    && ctx.required <= p.features
    && (ctx.allowlist == {} || p.id in ctx.allowlist)
    && p.id !in ctx.blocklist
  }

  // Everything a request may insist on.
  predicate MeetsHard(p: Provider, ctx: Context) {
    && Admissible(p, ctx)
    && (ctx.locality.Some? && ctx.locality.value.strict ==> MatchesLocality(p, ctx.locality.value))
    && MeetsStandards(p, ctx.mandatory)
  }

  // ---- Filtering ----

  function OffersModel(ctx: Context): Provider -> bool {
    p => MatchesModel(p, ctx.preferredModel)
  }

  function InRegion(l: DataLocality): Provider -> bool {
    p => MatchesLocality(p, l)
  }

  function Certified(standards: set<string>): Provider -> bool {
    p => MeetsStandards(p, standards)
  }

  // Narrow to the satisfying members, unless that would leave nobody.
  function Prefer(keep: Provider -> bool, s: seq<Provider>): seq<Provider> {
    if Filter(keep, s) == [] then s else Filter(keep, s)
  }

  function Base(registry: seq<Provider>, ctx: Context): seq<Provider> {
    var capable := Filter((p: Provider) => ctx.required <= p.features, registry);
    var allowed := if ctx.allowlist == {} then capable else Filter((p: Provider) => p.id in ctx.allowlist, capable);
    if ctx.blocklist == {} then allowed else Filter((p: Provider) => p.id !in ctx.blocklist, allowed)
  }

  function ByModel(s: seq<Provider>, ctx: Context): seq<Provider> {
    if ctx.preferredModel.None? then s else Prefer(OffersModel(ctx), s)
  }

  function ByLocality(s: seq<Provider>, ctx: Context): Result<seq<Provider>, RoutingError> {
    if ctx.locality.None? then Ok(s)
    else if ctx.locality.value.strict then
      var localized := Filter(InRegion(ctx.locality.value), s);
      if localized == [] then Err(ComplianceBoundaryViolation) else Ok(localized)
    else Ok(Prefer(InRegion(ctx.locality.value), s))
  }

  function ByMandatory(s: seq<Provider>, ctx: Context): Result<seq<Provider>, RoutingError> {
    if ctx.mandatory == {} then Ok(s)
    else
      var meeting := Filter(Certified(ctx.mandatory), s);
      if meeting == [] then Err(ComplianceBoundaryViolation) else Ok(meeting)
  }

  function ByAdvisory(s: seq<Provider>, ctx: Context): seq<Provider> {
    if ctx.advisory == {} then s else Prefer(Certified(ctx.advisory), s)
  }

  function Candidates(registry: seq<Provider>, ctx: Context): Result<seq<Provider>, RoutingError> {
    match ByLocality(ByModel(Base(registry, ctx), ctx), ctx)
    case Err(e) => Err(e)
    case Ok(localized) =>
      match ByMandatory(localized, ctx)
      case Err(e) => Err(e)
      case Ok(meeting) => Ok(ByAdvisory(meeting, ctx))
  }

  // A soft stage never empties a list; if anybody satisfies it, exactly the satisfying members
  // stay, and otherwise the list is left as it was given.
  lemma SoftStage(keep: Provider -> bool, s: seq<Provider>)
    ensures s != [] ==> Prefer(keep, s) != []
    ensures if exists p :: p in s && keep(p) then forall p :: p in Prefer(keep, s) <==> p in s && keep(p)
            else Prefer(keep, s) == s
  {
    if exists p :: p in s && keep(p) {
      var p :| p in s && keep(p);
      assert p in Filter(keep, s);
    } else if Filter(keep, s) != [] {
      assert Filter(keep, s)[0] in Filter(keep, s);
    }
  }

  lemma BaseMembers(registry: seq<Provider>, ctx: Context)
    ensures forall p :: p in Base(registry, ctx) <==> p in registry && Admissible(p, ctx)
  {
  }

  // What the soft choices that come before a hard stage leave standing.
  function Narrowed(registry: seq<Provider>, ctx: Context): seq<Provider> {
    var byModel := ByModel(Base(registry, ctx), ctx);
    if ctx.locality.Some? && !ctx.locality.value.strict then
      Prefer(InRegion(ctx.locality.value), byModel)
    else byModel
  }

  // The soft choices, told from the registry alone: the provider offers the preferred model, unless
  // no admissible provider does...
  ghost predicate Offered(registry: seq<Provider>, ctx: Context, p: Provider) {
    ctx.preferredModel.None? || MatchesModel(p, ctx.preferredModel)
    || forall q | q in registry && Admissible(q, ctx) :: !MatchesModel(q, ctx.preferredModel)
  }

  predicate PrefersRegion(ctx: Context) {
    ctx.locality.Some? && !ctx.locality.value.strict
  }

  // ...and lies in a preferred region, unless nobody who is left does.
  ghost predicate Located(registry: seq<Provider>, ctx: Context, p: Provider) {
    !PrefersRegion(ctx) || MatchesLocality(p, ctx.locality.value)
    || forall q | q in registry && Admissible(q, ctx) && Offered(registry, ctx, q) :: !MatchesLocality(q, ctx.locality.value)
  }

  lemma ByModelMembers(registry: seq<Provider>, ctx: Context)
    ensures forall p :: p in ByModel(Base(registry, ctx), ctx) <==> (p in registry && Admissible(p, ctx) && Offered(registry, ctx, p))
  {
    hide Filter, Prefer, Admissible, Base;
    BaseMembers(registry, ctx);
    SoftStage(OffersModel(ctx), Base(registry, ctx));
  }

  lemma NarrowedMembers(registry: seq<Provider>, ctx: Context)
    ensures forall p :: p in Narrowed(registry, ctx) <==>
              (p in registry && Admissible(p, ctx) && Offered(registry, ctx, p) && Located(registry, ctx, p))
  {
    hide Filter, Prefer, Admissible, Base, ByModel, Offered, MatchesLocality;
    ByModelMembers(registry, ctx);
    if PrefersRegion(ctx) {
      SoftStage(InRegion(ctx.locality.value), ByModel(Base(registry, ctx), ctx));
    }
  }

  // The two stages that a request may insist on, as filters.
  function Insisted(narrowed: seq<Provider>, ctx: Context): seq<Provider> {
    var localized :=
      if ctx.locality.Some? && ctx.locality.value.strict then Filter(InRegion(ctx.locality.value), narrowed) else narrowed;
    if ctx.mandatory == {} then localized else Filter(Certified(ctx.mandatory), localized)
  }

  lemma InsistedMembers(narrowed: seq<Provider>, ctx: Context)
    requires forall p | p in narrowed :: Admissible(p, ctx)
    ensures forall p :: p in Insisted(narrowed, ctx) <==> (p in narrowed && MeetsHard(p, ctx))
  {
    hide Filter, Admissible;
    var localized :=
      if ctx.locality.Some? && ctx.locality.value.strict then Filter(InRegion(ctx.locality.value), narrowed) else narrowed;
    assert forall p :: p in Insisted(narrowed, ctx) <==> (p in localized && MeetsStandards(p, ctx.mandatory));
  }

  lemma CandidatesAreInsisted(registry: seq<Provider>, ctx: Context)
    ensures var meeting := Insisted(Narrowed(registry, ctx), ctx);
            var r := Candidates(registry, ctx);
            if r.Ok? then r.value == ByAdvisory(meeting, ctx) else meeting == []
  {
    hide Filter, Prefer, ByModel, Base, ByAdvisory, MeetsStandards, MatchesLocality;
  }

  // Every candidate meets all hard constraints, and there is one exactly when some registered
  // provider meets them and is not passed over by the soft choices that come first.
  lemma CandidatesMeetHard(registry: seq<Provider>, ctx: Context)
    ensures var r := Candidates(registry, ctx);
            && (r.Ok? ==> forall p | p in r.value :: p in registry && MeetsHard(p, ctx))
            && ((r.Ok? && r.value != []) <==>
                  exists p :: p in registry && MeetsHard(p, ctx) && Offered(registry, ctx, p) && Located(registry, ctx, p))
  {
    hide Filter, Prefer, Base, ByModel, ByLocality, ByMandatory, Candidates, Narrowed, Insisted, Admissible, Offered, Located,
         MatchesLocality, MeetsStandards;
    NarrowedMembers(registry, ctx);
    var meeting := Insisted(Narrowed(registry, ctx), ctx);
    InsistedMembers(Narrowed(registry, ctx), ctx);
    CandidatesAreInsisted(registry, ctx);
    SoftStage(Certified(ctx.advisory), meeting);
    assert meeting != [] ==> meeting[0] in meeting;
    var r := Candidates(registry, ctx);
    if r.Ok? && r.value != [] {
      assert r.value[0] in r.value;
    }
  }

  // With no soft stage ahead of the hard ones, a candidate is found exactly when a registered
  // provider meets every hard constraint.
  lemma HardConstraintsDecide(registry: seq<Provider>, ctx: Context)
    requires ctx.preferredModel.None? && (ctx.locality.Some? ==> ctx.locality.value.strict)
    ensures (Candidates(registry, ctx).Ok? && Candidates(registry, ctx).value != []) <==>
              exists p :: p in registry && MeetsHard(p, ctx)
  {
    hide Candidates, MatchesLocality, MeetsStandards, Admissible;
    CandidatesMeetHard(registry, ctx);
    forall p | p in registry && MeetsHard(p, ctx) ensures Offered(registry, ctx, p) && Located(registry, ctx, p) {
    }
  }

  lemma {:induction false} NobodyStays(keep: Provider -> bool, s: seq<Provider>)
    requires forall p | p in s :: !keep(p)
    ensures Filter(keep, s) == []
  {
    if s != [] {
      NobodyStays(keep, s[1..]);
    }
  }

  // Soft before hard: preferring a model can rule out the only provider that meets the strict
  // locality, and the request fails although that provider is registered.
  lemma SoftStageCanDefeatHardConstraint()
    ensures exists registry, ctx, p ::
              p in registry && MeetsHard(p, ctx) && Candidates(registry, ctx) == Err(ComplianceBoundaryViolation)
  {
    var us := Provider(1, "us", {ChatCompletion}, {"m"}, None, None, None, {}, {"us-east-1"}, true);
    var eu := Provider(2, "eu", {ChatCompletion}, {}, None, None, None, {}, {"eu-west-1"}, true);
    var ctx := Context({ChatCompletion}, Some("m"), BalancedCost, BalancedLatency, {}, {},
                       Some(DataLocality({"eu-west-1"}, true)), {}, {}, true, false);
    var registry := [us, eu];
    BaseMembers(registry, ctx);
    SoftStage(OffersModel(ctx), Base(registry, ctx));
    assert us in Base(registry, ctx) && MatchesModel(us, ctx.preferredModel);
    assert "eu-west-1" in ctx.locality.value.allowedRegions * eu.regions;
    assert MeetsHard(eu, ctx);
    assert "us-east-1" != "eu-west-1" by { assert "us-east-1"[0] != "eu-west-1"[0]; }
    assert ctx.locality.value.allowedRegions * us.regions == {};
    NobodyStays(InRegion(ctx.locality.value), ByModel(Base(registry, ctx), ctx));
    assert eu in registry && Candidates(registry, ctx) == Err(ComplianceBoundaryViolation);
  }

  // The candidate list as it is narrowed stage by stage.
  method CandidateProviders(registry: seq<Provider>, ctx: Context) returns (r: Result<seq<Provider>, RoutingError>)
    ensures r == Candidates(registry, ctx)
  {
    var candidates := Filter((p: Provider) => ctx.required <= p.features, registry);
    if ctx.allowlist != {} {
      candidates := Filter((p: Provider) => p.id in ctx.allowlist, candidates);
    }
    if ctx.blocklist != {} {
      candidates := Filter((p: Provider) => p.id !in ctx.blocklist, candidates);
    }
    if ctx.preferredModel.Some? {
      var preferred := Filter(OffersModel(ctx), candidates);
      if preferred != [] {
        candidates := preferred;
      }
    }
    if ctx.locality.Some? {
      var localized := Filter(InRegion(ctx.locality.value), candidates);
      if ctx.locality.value.strict {
        if localized == [] {
          return Err(ComplianceBoundaryViolation);
        }
        candidates := localized;
      } else if localized != [] {
        candidates := localized;
      }
    }
    if ctx.mandatory != {} {
      candidates := Filter(Certified(ctx.mandatory), candidates);
      if candidates == [] {
        return Err(ComplianceBoundaryViolation);
      }
    }
    if ctx.advisory != {} {
      var preferred := Filter(Certified(ctx.advisory), candidates);
      if preferred != [] {
        candidates := preferred;
      }
    }
    return Ok(candidates);
  }

  // ---- Comparators ----

  // Byte order on names.
  predicate NameLe(a: string, b: string) {
    a == "" || (b != "" && (a[0] < b[0] || (a[0] == b[0] && NameLe(a[1..], b[1..]))))
  }

  lemma {:induction false} NameLeTotal(a: string, b: string)
    ensures NameLe(a, b) || NameLe(b, a)
  {
    if a != "" && b != "" {
      NameLeTotal(a[1..], b[1..]);
    }
  }

  lemma {:induction false} NameLeTransitive(a: string, b: string, c: string)
    requires NameLe(a, b) && NameLe(b, c)
    ensures NameLe(a, c)
  {
    if a != "" && a[0] == b[0] == c[0] {
      NameLeTransitive(a[1..], b[1..], c[1..]);
    }
  }

  // Negative, zero or positive, as `Ordering`: a present hint precedes an absent one.
  function CompareHint(a: Option<real>, b: Option<real>, descending: bool): int {
    match (a, b)
    case (Some(x), Some(y)) => if x == y then 0 else if (x < y) != descending then -1 else 1
    case (Some(_), None) => -1
    case (None, Some(_)) => 1
    case (None, None) => 0
  }

  predicate ModelThen(model: Option<string>, a: Provider, b: Provider, rest: bool) {
    if MatchesModel(a, model) != MatchesModel(b, model) then MatchesModel(a, model) else rest
  }

  predicate HintThen(order: int, rest: bool) {
    order < 0 || (order == 0 && rest)
  }

  function CostOrder(ctx: Context, a: Provider, b: Provider): int {
    match ctx.costPreference
    case Cheapest => CompareHint(a.cost, b.cost, false)
    case BestQuality => CompareHint(a.quality, b.quality, true)
    case BalancedCost => 0
  }

  function LatencyOrder(ctx: Context, a: Provider, b: Provider): int {
    if ctx.latencyPreference.Fastest? then CompareHint(a.latency, b.latency, false) else 0
  }

  // `sort_capability_match_candidates`.
  predicate CapabilityLe(ctx: Context, a: Provider, b: Provider) {
    ModelThen(ctx.preferredModel, a, b,
      HintThen(CostOrder(ctx, a, b), HintThen(LatencyOrder(ctx, a, b), NameLe(a.name, b.name))))
  }

  // `sort_by_numeric_hint` with the cost or the latency hint.
  predicate CostLe(ctx: Context, a: Provider, b: Provider) {
    ModelThen(ctx.preferredModel, a, b, HintThen(CompareHint(a.cost, b.cost, false), NameLe(a.name, b.name)))
  }

  predicate LatencyLe(ctx: Context, a: Provider, b: Provider) {
    ModelThen(ctx.preferredModel, a, b, HintThen(CompareHint(a.latency, b.latency, false), NameLe(a.name, b.name)))
  }

  datatype Strategy = CapabilityMatch | LowestCost | LowestLatency

  predicate StrategyLe(st: Strategy, ctx: Context, a: Provider, b: Provider) {
    match st
    case CapabilityMatch => CapabilityLe(ctx, a, b)
    case LowestCost => CostLe(ctx, a, b)
    case LowestLatency => LatencyLe(ctx, a, b)
  }

  function Order(st: Strategy, ctx: Context): (Provider, Provider) -> bool {
    (a, b) => StrategyLe(st, ctx, a, b)
  }

  lemma HintTransitive(a: Option<real>, b: Option<real>, c: Option<real>, descending: bool)
    ensures CompareHint(b, a, descending) == -CompareHint(a, b, descending)
    ensures CompareHint(a, b, descending) <= 0 && CompareHint(b, c, descending) <= 0 ==> CompareHint(a, c, descending) <= 0
    ensures CompareHint(a, b, descending) <= 0 && CompareHint(b, c, descending) <= 0 && CompareHint(a, c, descending) == 0 ==>
              CompareHint(a, b, descending) == 0 && CompareHint(b, c, descending) == 0
  {
  }

  lemma StrategyLeTransitive(st: Strategy, ctx: Context, a: Provider, b: Provider, c: Provider)
    requires StrategyLe(st, ctx, a, b) && StrategyLe(st, ctx, b, c)
    ensures StrategyLe(st, ctx, a, c)
  {
    HintTransitive(a.cost, b.cost, c.cost, false);
    HintTransitive(a.quality, b.quality, c.quality, true);
    HintTransitive(a.latency, b.latency, c.latency, false);
    if NameLe(a.name, b.name) && NameLe(b.name, c.name) {
      NameLeTransitive(a.name, b.name, c.name);
    }
  }

  // All three comparators are total preorders, so sorting by them is well defined.
  lemma OrderIsTotalPreorder(st: Strategy, ctx: Context)
    ensures TotalPreorder(Order(st, ctx))
  {
    var le := Order(st, ctx);
    forall a, b ensures le(a, b) || le(b, a) {
      HintTransitive(a.cost, b.cost, b.cost, false);
      HintTransitive(a.quality, b.quality, b.quality, true);
      HintTransitive(a.latency, b.latency, b.latency, false);
      NameLeTotal(a.name, b.name);
    }
    forall a, b, c | le(a, b) && le(b, c) ensures le(a, c) {
      StrategyLeTransitive(st, ctx, a, b, c);
    }
  }

  // ---- The decision ----

  predicate IsHealthy(p: Provider) {
    p.healthy
  }

  function Usable(s: seq<Provider>, ctx: Context): seq<Provider> {
    if ctx.requireHealthy then Filter(IsHealthy, s) else s
  }

  function Finalize(s: seq<Provider>, ctx: Context): Result<Decision, RoutingError> {
    var usable := Usable(s, ctx);
    if usable == [] then Err(RoutingFailed)
    else Ok(Decision(usable[0], if ctx.fallbackAllowed then usable[1..] else []))
  }

  // The health checks, one candidate after another.
  method CollectHealthy(candidates: seq<Provider>) returns (healthy: seq<Provider>)
    ensures healthy == Filter(IsHealthy, candidates)
  {
    healthy := [];
    var i := 0;
    while i < |candidates|
      invariant i <= |candidates|
      invariant Filter(IsHealthy, candidates) == healthy + Filter(IsHealthy, candidates[i..])
    {
      var rest := candidates[i..];
      assert rest[0] == candidates[i] && rest[1..] == candidates[i + 1..];
      if candidates[i].healthy {
        assert healthy + ([rest[0]] + Filter(IsHealthy, rest[1..])) == healthy + [rest[0]] + Filter(IsHealthy, rest[1..]);
        healthy := healthy + [candidates[i]];
      }
      i := i + 1;
    }
    assert candidates[i..] == [];
  }

  method FinalizeDecision(candidates: seq<Provider>, ctx: Context) returns (r: Result<Decision, RoutingError>)
    ensures r == Finalize(candidates, ctx)
  {
    var usable := candidates;
    if ctx.requireHealthy {
      usable := CollectHealthy(candidates);
    }
    if usable == [] {
      return Err(RoutingFailed);
    }
    return Ok(Decision(usable[0], if ctx.fallbackAllowed then usable[1..] else []));
  }

  function Route(st: Strategy, registry: seq<Provider>, ctx: Context): Result<Decision, RoutingError> {
    match Candidates(registry, ctx)
    case Err(e) => Err(e)
    case Ok(c) => Finalize(Sort(Order(st, ctx), c), ctx)
  }

  method Select(st: Strategy, registry: seq<Provider>, ctx: Context) returns (r: Result<Decision, RoutingError>)
    ensures r == Route(st, registry, ctx)
  {
    var candidates := CandidateProviders(registry, ctx);
    if candidates.Err? {
      return Err(candidates.error);
    }
    r := FinalizeDecision(Sort(Order(st, ctx), candidates.value), ctx);
  }

  lemma UsableSorted(le: (Provider, Provider) -> bool, c: seq<Provider>, ctx: Context)
    requires TotalPreorder(le)
    ensures Usable(Sort(le, c), ctx) == Sort(le, Usable(c, ctx))
  {
    SortFilter(le, IsHealthy, c);
  }

  lemma UsableMembers(c: seq<Provider>, ctx: Context)
    ensures forall p :: p in Usable(c, ctx) <==> (p in c && (ctx.requireHealthy ==> p.healthy))
  {
  }

  // What a sorted list of usable candidates says about the decision cut from it.
  ghost predicate BestFirst(le: (Provider, Provider) -> bool, usable: seq<Provider>, d: Decision, fallbackAllowed: bool) {
    && d.primary in usable
    && (forall p | p in usable :: le(d.primary, p))
    && (if fallbackAllowed then
          multiset([d.primary] + d.fallbacks) == multiset(usable) && SortedBy(le, [d.primary] + d.fallbacks)
        else d.fallbacks == [])
  }

  lemma CutIsBestFirst(le: (Provider, Provider) -> bool, usable: seq<Provider>, fallbackAllowed: bool)
    requires TotalPreorder(le)
    ensures Sort(le, usable) == [] <==> usable == []
    ensures var sorted := Sort(le, usable);
            sorted != [] ==> BestFirst(le, usable, Decision(sorted[0], if fallbackAllowed then sorted[1..] else []), fallbackAllowed)
  {
    hide Sort, TotalPreorder, SortedBy;
    SortMembers(le, usable);
    if usable != [] {
      SortSorts(le, usable);
      SortPutsLeastFirst(le, usable);
      assert [Sort(le, usable)[0]] + Sort(le, usable)[1..] == Sort(le, usable);
    }
  }

  // The primary is minimal among the usable candidates and meets every hard constraint; with
  // fallbacks allowed, primary and fallbacks are a permutation of the usable candidates, in order.
  lemma RouteIsBest(st: Strategy, registry: seq<Provider>, ctx: Context)
    requires Candidates(registry, ctx).Ok?
    ensures var usable := Usable(Candidates(registry, ctx).value, ctx);
            match Route(st, registry, ctx)
            case Err(e) => e == RoutingFailed && usable == []
            case Ok(d) =>
              && MeetsHard(d.primary, ctx) && (ctx.requireHealthy ==> d.primary.healthy)
              && BestFirst(Order(st, ctx), usable, d, ctx.fallbackAllowed)
  {
    hide Candidates, Sort, Usable, TotalPreorder, BestFirst, Order, MeetsHard, Filter;
    var c := Candidates(registry, ctx).value;
    var le := Order(st, ctx);
    OrderIsTotalPreorder(st, ctx);
    CandidatesMeetHard(registry, ctx);
    UsableSorted(le, c, ctx);
    CutIsBestFirst(le, Usable(c, ctx), ctx.fallbackAllowed);
    UsableMembers(c, ctx);
    if Usable(c, ctx) != [] {
      PrimaryIsUsable(st, registry, ctx);
    }
  }

  lemma PrimaryIsUsable(st: Strategy, registry: seq<Provider>, ctx: Context)
    requires Candidates(registry, ctx).Ok? && Route(st, registry, ctx).Ok?
    ensures Route(st, registry, ctx).value.primary in Usable(Candidates(registry, ctx).value, ctx)
  {
    hide Candidates, Sort, Usable, TotalPreorder, Order, Filter;
    var c := Candidates(registry, ctx).value;
    OrderIsTotalPreorder(st, ctx);
    UsableSorted(Order(st, ctx), c, ctx);
    SortMembers(Order(st, ctx), Usable(c, ctx));
  }
}

/** Round-robin routing: a shared cursor rotates the candidate list. */
module RoundRobin {
  import opened Wrappers
  import opened StableSort
  import opened Routing
  import opened Quotients

  const CURSOR_MODULUS: nat := 0x1_0000_0000_0000_0000

  function RotateLeft(s: seq<Provider>, k: nat): seq<Provider>
    requires k <= |s|
  {
    s[k..] + s[..k]
  }

  function RouteAt(s: seq<Provider>, cursor: nat, ctx: Context): Result<Decision, RoutingError> {
    if s == [] then Finalize(s, ctx) else Finalize(RotateLeft(s, cursor % |s|), ctx)
  }

  // `AtomicUsize::fetch_add(1)` wraps around.
  function Advance(cursor: nat): nat {
    (cursor + 1) % CURSOR_MODULUS
  }

  // The i-th provider cyclically from the cursor.
  function Cyclic(s: seq<Provider>, cursor: nat, i: nat): Provider
    requires s != []
  {
    s[(cursor + i) % |s|]
  }

  lemma RotationIndex(s: seq<Provider>, cursor: nat, i: nat)
    requires s != [] && i < |s|
    ensures RotateLeft(s, cursor % |s|)[i] == Cyclic(s, cursor, i)
  {
    var (n, r) := (|s|, cursor % |s|);
    if r + i < n {
      QuotientIs(cursor + i, n, cursor / n, r + i);
    } else {
      assert (cursor / n + 1) * n == cursor / n * n + n;
      QuotientIs(cursor + i, n, cursor / n + 1, r + i - n);
    }
  }

  lemma RotationIsCyclic(s: seq<Provider>, cursor: nat)
    requires s != []
    ensures RotateLeft(s, cursor % |s|) == seq(|s|, i requires 0 <= i => Cyclic(s, cursor, i))
  {
    hide Cyclic;
    forall i | 0 <= i < |s| ensures RotateLeft(s, cursor % |s|)[i] == Cyclic(s, cursor, i) {
      RotationIndex(s, cursor, i);
    }
  }

  // Without the health filter the decision is the cyclic order that starts at the cursor.
  lemma RouteIsCyclic(s: seq<Provider>, cursor: nat, ctx: Context)
    requires s != [] && !ctx.requireHealthy
    ensures RouteAt(s, cursor, ctx).Ok?
    ensures var d := RouteAt(s, cursor, ctx).value;
            && d.primary == Cyclic(s, cursor, 0)
            && (if ctx.fallbackAllowed then
                  |d.fallbacks| == |s| - 1
                  && forall i | 0 <= i < |s| - 1 :: d.fallbacks[i] == Cyclic(s, cursor, i + 1)
                else d.fallbacks == [])
  {
    hide Cyclic, RotateLeft, Filter;
    RotationIsCyclic(s, cursor);
  }

  lemma {:induction false} FirstOfFilter(s: seq<Provider>, k: nat)
    requires k < |s| && s[k].healthy && forall i | 0 <= i < k :: !s[i].healthy
    ensures Filter(IsHealthy, s) != [] && Filter(IsHealthy, s)[0] == s[k]
  {
    if k > 0 {
      FirstOfFilter(s[1..], k - 1);
    }
  }

  // With it, the primary is the first healthy candidate cyclically from the cursor.
  lemma RouteIsFirstHealthy(s: seq<Provider>, cursor: nat, ctx: Context, k: nat)
    requires s != [] && ctx.requireHealthy && k < |s|
    requires Cyclic(s, cursor, k).healthy && forall i: nat | i < k :: !Cyclic(s, cursor, i).healthy
    ensures RouteAt(s, cursor, ctx).Ok? && RouteAt(s, cursor, ctx).value.primary == Cyclic(s, cursor, k)
  {
    hide Cyclic, RotateLeft, Filter;
    RotationIsCyclic(s, cursor);
    FirstOfFilter(RotateLeft(s, cursor % |s|), k);
  }

  // ---- Fairness ----

  // How often candidate j of n is chosen by m routes that start at the given cursor.
  function TimesChosen(n: nat, cursor: nat, m: nat, j: nat): nat
    requires n > 0
  {
    if m == 0 then 0
    else TimesChosen(n, cursor, m - 1, j) + if (cursor + m - 1) % n == j then 1 else 0
  }

  lemma {:induction false} ChosenFromZero(n: nat, m: nat, j: nat)
    requires j < n
    ensures TimesChosen(n, 0, m, j) == m / n + if j < m % n then 1 else 0
  {
    if m > 0 {
      ChosenFromZero(n, m - 1, j);
      NextQuotient(m - 1, n);
    } else {
      QuotientIs(0, n, 0, 0);
    }
  }

  lemma {:induction false} ChosenSplits(n: nat, c: nat, m: nat, j: nat)
    requires n > 0
    ensures TimesChosen(n, 0, c + m, j) == TimesChosen(n, 0, c, j) + TimesChosen(n, c, m, j)
  {
    if m > 0 {
      ChosenSplits(n, c, m - 1, j);
      assert c + m - 1 == c + (m - 1);
    }
  }

  // Any n consecutive routes choose each of n candidates exactly once.
  lemma EveryWindowIsFair(n: nat, cursor: nat, j: nat)
    requires j < n
    ensures TimesChosen(n, cursor, n, j) == 1
  {
    ChosenSplits(n, cursor, n, j);
    ChosenFromZero(n, cursor, j);
    ChosenFromZero(n, cursor + n, j);
    AddDivisor(cursor, n);
  }

  class RoundRobinRouter {
    var cursor: nat

    constructor ()
      ensures cursor == 0
    {
      cursor := 0;
    }

    method Route(registry: seq<Provider>, ctx: Context) returns (r: Result<Decision, RoutingError>)
      modifies this
      ensures match Candidates(registry, ctx)
              case Err(e) => r == Err(e) && cursor == old(cursor)
              case Ok(c) => r == RouteAt(c, old(cursor), ctx) && cursor == if c == [] then old(cursor) else Advance(old(cursor))
    {
      var candidates := CandidateProviders(registry, ctx);
      if candidates.Err? {
        return Err(candidates.error);
      }
      var c := candidates.value;
      if c == [] {
        r := FinalizeDecision(c, ctx);
        return;
      }
      var index := cursor % |c|;
      cursor := Advance(cursor);
      c := RotateLeft(c, index);
      r := FinalizeDecision(c, ctx);
    }
  }

  ghost predicate Distinct(c: seq<Provider>) {
    forall i, j | 0 <= i < j < |c| :: c[i] != c[j]
  }

  lemma OneMoreChoice(c: seq<Provider>, cursor: nat, chosen: seq<Provider>)
    requires Distinct(c) && c != []
    requires forall j | 0 <= j < |c| :: multiset(chosen)[c[j]] == TimesChosen(|c|, cursor, |chosen|, j)
    ensures forall j | 0 <= j < |c| ::
              multiset(chosen + [Cyclic(c, cursor + |chosen|, 0)])[c[j]] == TimesChosen(|c|, cursor, |chosen| + 1, j)
  {
    var p := Cyclic(c, cursor + |chosen|, 0);
    assert multiset(chosen + [p]) == multiset(chosen) + multiset{p};
  }

  // What m routes over n candidates amount to: floor(m/n) or ceil(m/n) each from cursor 0, and
  // exactly one each over any n in a row.
  lemma FairRun(c: seq<Provider>, cursor: nat, chosen: seq<Provider>, j: nat)
    requires j < |c| && multiset(chosen)[c[j]] == TimesChosen(|c|, cursor, |chosen|, j)
    ensures |chosen| == |c| ==> multiset(chosen)[c[j]] == 1
    ensures cursor == 0 ==> |chosen| / |c| <= multiset(chosen)[c[j]] <= (|chosen| + |c| - 1) / |c|
  {
    EveryWindowIsFair(|c|, cursor, j);
    ChosenFromZero(|c|, |chosen|, j);
    CeilingIs(|chosen|, |c|);
  }

  lemma CeilingIs(m: nat, n: nat)
    requires n > 0
    ensures (m + n - 1) / n == m / n + if m % n > 0 then 1 else 0
  {
    var (q, r) := (m / n, m % n);
    if r > 0 {
      assert (q + 1) * n == q * n + n;
      QuotientIs(m + n - 1, n, q + 1, r - 1);
    } else {
      QuotientIs(m + n - 1, n, q, n - 1);
    }
  }

  // The decision of a route, and where it leaves the cursor, for one state of the registry.
  function RouteFrom(registry: seq<Provider>, ctx: Context, cursor: nat): Result<Decision, RoutingError> {
    match Candidates(registry, ctx)
    case Err(e) => Err(e)
    case Ok(c) => RouteAt(c, cursor, ctx)
  }

  function CursorAfter(registry: seq<Provider>, ctx: Context, cursor: nat, m: nat): nat {
    if Candidates(registry, ctx) == Ok([]) || Candidates(registry, ctx).Err? then cursor
    else (cursor + m) % CURSOR_MODULUS
  }

  // Any number of routes over one unchanged registry, with or without a health filter, past the
  // wrap of the cursor, and when there is nobody to route to.
  method RouteMany(router: RoundRobinRouter, registry: seq<Provider>, ctx: Context, m: nat)
      returns (decisions: seq<Result<Decision, RoutingError>>)
    requires router.cursor < CURSOR_MODULUS
    modifies router
    ensures |decisions| == m
    ensures forall i | 0 <= i < m ::
              decisions[i] == RouteFrom(registry, ctx, CursorAfter(registry, ctx, old(router.cursor), i))
    ensures router.cursor == CursorAfter(registry, ctx, old(router.cursor), m) < CURSOR_MODULUS
  {
    hide Candidates, RouteAt;
    decisions := [];
    for k := 0 to m
      invariant |decisions| == k && router.cursor == CursorAfter(registry, ctx, old(router.cursor), k)
      invariant forall i | 0 <= i < k ::
                  decisions[i] == RouteFrom(registry, ctx, CursorAfter(registry, ctx, old(router.cursor), i))
    {
      OneStepOn(old(router.cursor), k);
      var d := router.Route(registry, ctx);
      decisions := decisions + [d];
    }
  }

  lemma OneStepOn(cursor: nat, k: nat)
    ensures Advance((cursor + k) % CURSOR_MODULUS) == (cursor + k + 1) % CURSOR_MODULUS
  {
    NextQuotient(cursor + k, CURSOR_MODULUS);
  }

  // Unless the cursor wraps to a place out of step, the position in the cycle is that of an
  // unbounded cursor.
  lemma WrapKeepsStep(x: nat, n: nat)
    requires n > 0 && (x < CURSOR_MODULUS || CURSOR_MODULUS % n == 0)
    ensures x % CURSOR_MODULUS % n == x % n
  {
    if x >= CURSOR_MODULUS {
      var (q, r, k) := (x / CURSOR_MODULUS, x % CURSOR_MODULUS, CURSOR_MODULUS / n);
      Regroup(q, k, n, r);
      QuotientIs(x, n, q * k + r / n, r % n);
    } else {
      QuotientIs(x, CURSOR_MODULUS, 0, x);
    }
  }

  lemma Regroup(q: nat, k: nat, n: nat, r: nat)
    requires n > 0
    ensures q * (k * n) + r == (q * k + r / n) * n + r % n
  {
    assert q * (k * n) == (q * k) * n;
    assert (q * k + r / n) * n == (q * k) * n + r / n * n;
  }

  // Without a health filter the primaries of a run are the cyclic order, and each candidate's share
  // is that of `TimesChosen`; so `FairRun` applies. This is so until the cursor wraps, and also
  // past that when the number of candidates divides the range of the cursor.
  lemma {:induction false} RunIsCyclic(registry: seq<Provider>, ctx: Context, cursor: nat,
                                       decisions: seq<Result<Decision, RoutingError>>) returns (chosen: seq<Provider>)
    requires Candidates(registry, ctx).Ok? && Candidates(registry, ctx).value != [] && !ctx.requireHealthy
    requires Distinct(Candidates(registry, ctx).value)
    requires cursor + |decisions| <= CURSOR_MODULUS || CURSOR_MODULUS % |Candidates(registry, ctx).value| == 0
    requires forall i | 0 <= i < |decisions| :: decisions[i] == RouteFrom(registry, ctx, CursorAfter(registry, ctx, cursor, i))
    ensures var c := Candidates(registry, ctx).value;
            && |chosen| == |decisions|
            && (forall i | 0 <= i < |chosen| ::
                  decisions[i].Ok? && decisions[i].value.primary == chosen[i] == Cyclic(c, cursor + i, 0))
            && (forall j | 0 <= j < |c| :: multiset(chosen)[c[j]] == TimesChosen(|c|, cursor, |chosen|, j))
    decreases |decisions|
  {
    hide Candidates, RouteAt, Cyclic, Distinct, TimesChosen;
    var c := Candidates(registry, ctx).value;
    if decisions == [] {
      chosen := [];
      NoneYet(|c|, cursor);
    } else {
      var last := |decisions| - 1;
      var before := RunIsCyclic(registry, ctx, cursor, decisions[..last]);
      SameStep(c, cursor + last, ctx);
      OneMoreChoice(c, cursor, before);
      chosen := before + [Cyclic(c, cursor + last, 0)];
    }
  }

  lemma SameStep(c: seq<Provider>, x: nat, ctx: Context)
    requires c != [] && !ctx.requireHealthy && (x < CURSOR_MODULUS || CURSOR_MODULUS % |c| == 0)
    ensures RouteAt(c, x % CURSOR_MODULUS, ctx).Ok?
    ensures RouteAt(c, x % CURSOR_MODULUS, ctx).value.primary == Cyclic(c, x, 0)
  {
    hide RouteAt;
    RouteIsCyclic(c, x % CURSOR_MODULUS, ctx);
    WrapKeepsStep(x, |c|);
  }

  lemma NoneYet(n: nat, cursor: nat)
    requires n > 0
    ensures forall j: nat :: TimesChosen(n, cursor, 0, j) == 0
  {
  }
}
