/** Provider selection told from the fields of the registered providers and the numbers in their
    hints, without the stages and comparators of `Routing`. */
module RoutingByFields {
  import opened Wrappers
  import opened StableSort
  import opened Routing

  // ---- Who is a candidate ----

  predicate Permitted(p: Provider, ctx: Context) {
    && (forall f | f in ctx.required :: f in p.features)
    && (ctx.allowlist != {} ==> p.id in ctx.allowlist)
    && !(p.id in ctx.blocklist)
  }

  predicate HasModel(p: Provider, ctx: Context) {
    ctx.preferredModel.Some? ==> ctx.preferredModel.value in p.models
  }

  // In an allowed region; who names no region at all is taken to be anywhere, unless locality is strict.
  predicate Within(p: Provider, l: DataLocality) {
    l.allowedRegions != {} ==>
      (exists r :: r in l.allowedRegions && r in p.regions) || (p.regions == {} && !l.strict)
  }

  predicate Complies(p: Provider, standards: set<string>) {
    forall s | s in standards :: s in p.standards
  }

  ghost predicate Modelled(registry: seq<Provider>, ctx: Context, p: Provider) {
    && p in registry && Permitted(p, ctx)
    && (HasModel(p, ctx) || !exists q :: q in registry && Permitted(q, ctx) && HasModel(q, ctx))
  }

  ghost predicate Placed(registry: seq<Provider>, ctx: Context, p: Provider) {
    && Modelled(registry, ctx, p)
    && (ctx.locality.Some? ==>
          || Within(p, ctx.locality.value)
          || (!ctx.locality.value.strict && !exists q :: Modelled(registry, ctx, q) && Within(q, ctx.locality.value)))
  }

  ghost predicate Compliant(registry: seq<Provider>, ctx: Context, p: Provider) {
    Placed(registry, ctx, p) && Complies(p, ctx.mandatory)
  }

  ghost predicate Chosen(registry: seq<Provider>, ctx: Context, p: Provider) {
    && Compliant(registry, ctx, p)
    && (Complies(p, ctx.advisory) || !exists q :: Compliant(registry, ctx, q) && Complies(q, ctx.advisory))
  }

  // A strict locality or a mandatory standard leaves nobody.
  ghost predicate Violated(registry: seq<Provider>, ctx: Context) {
    || (ctx.locality.Some? && ctx.locality.value.strict && forall p :: !Placed(registry, ctx, p))
    || (ctx.mandatory != {} && forall p :: !Compliant(registry, ctx, p))
  }

  lemma FieldsOfOne(p: Provider, ctx: Context, l: DataLocality, standards: set<string>)
    ensures Admissible(p, ctx) <==> Permitted(p, ctx)
    ensures MatchesModel(p, ctx.preferredModel) <==> HasModel(p, ctx)
    ensures MatchesLocality(p, l) <==> Within(p, l)
    ensures MeetsStandards(p, standards) <==> Complies(p, standards)
  {
    assert l.allowedRegions * p.regions != {} <==> exists r :: r in l.allowedRegions && r in p.regions by {
      if r :| r in l.allowedRegions && r in p.regions {
        assert r in l.allowedRegions * p.regions;
      }
    }
    if standards != {} && p.standards == {} {
      var s :| s in standards;
    }
  }

  lemma ModelledMembers(registry: seq<Provider>, ctx: Context)
    ensures forall p :: p in ByModel(Base(registry, ctx), ctx) <==> Modelled(registry, ctx, p)
  {
    ByModelMembers(registry, ctx);
    forall p ensures p in ByModel(Base(registry, ctx), ctx) <==> Modelled(registry, ctx, p) {
      hide Filter, Base, ByModel, Permitted, Admissible, HasModel, MatchesModel;
      forall q: Provider
        ensures (Admissible(q, ctx) <==> Permitted(q, ctx)) && (MatchesModel(q, ctx.preferredModel) <==> HasModel(q, ctx))
      {
        FieldsOfOne(q, ctx, DataLocality({}, false), {});
      }
      NoModelMatchesAll(p, ctx);
    }
  }

  lemma NoModelMatchesAll(p: Provider, ctx: Context)
    ensures ctx.preferredModel.None? ==> HasModel(p, ctx)
  {
  }

  lemma LocalityMembers(registry: seq<Provider>, ctx: Context, s: seq<Provider>)
    requires forall p :: p in s <==> Modelled(registry, ctx, p)
    ensures match ByLocality(s, ctx)
            case Ok(localized) =>
              && (forall p :: p in localized <==> Placed(registry, ctx, p))
              && (ctx.locality.Some? && ctx.locality.value.strict ==> exists p :: Placed(registry, ctx, p))
            case Err(e) => e == ComplianceBoundaryViolation && ctx.locality.Some? && ctx.locality.value.strict
                           && forall p :: !Placed(registry, ctx, p)
  {
    hide Filter, Prefer, MatchesLocality, Modelled, Within;
    if ctx.locality.Some? {
      var l := ctx.locality.value;
      forall p: Provider ensures MatchesLocality(p, l) <==> Within(p, l) {
        FieldsOfOne(p, ctx, l, {});
      }
      SoftStage(InRegion(l), s);
      var localized := Filter(InRegion(l), s);
      assert forall p :: p in localized <==> p in s && Within(p, l);
      if l.strict && localized != [] {
        assert Placed(registry, ctx, localized[0]);
      }
    }
  }

  lemma MandatoryMembers(registry: seq<Provider>, ctx: Context, s: seq<Provider>)
    requires forall p :: p in s <==> Placed(registry, ctx, p)
    ensures match ByMandatory(s, ctx)
            case Ok(meeting) =>
              && (forall p :: p in meeting <==> Compliant(registry, ctx, p))
              && (ctx.mandatory != {} ==> exists p :: Compliant(registry, ctx, p))
            case Err(e) => e == ComplianceBoundaryViolation && ctx.mandatory != {}
                           && forall p :: !Compliant(registry, ctx, p)
  {
    hide Filter, MeetsStandards, Placed;
    forall p: Provider ensures MeetsStandards(p, ctx.mandatory) <==> Complies(p, ctx.mandatory) {
      FieldsOfOne(p, ctx, DataLocality({}, false), ctx.mandatory);
    }
    var meeting := Filter(Certified(ctx.mandatory), s);
    assert forall p :: p in meeting <==> p in s && Complies(p, ctx.mandatory);
    if meeting != [] {
      assert Compliant(registry, ctx, meeting[0]);
    }
  }

  lemma AdvisoryMembers(registry: seq<Provider>, ctx: Context, s: seq<Provider>)
    requires forall p :: p in s <==> Compliant(registry, ctx, p)
    ensures forall p :: p in ByAdvisory(s, ctx) <==> Chosen(registry, ctx, p)
  {
    hide Filter, Prefer, MeetsStandards, Compliant;
    forall p: Provider ensures MeetsStandards(p, ctx.advisory) <==> Complies(p, ctx.advisory) {
      FieldsOfOne(p, ctx, DataLocality({}, false), ctx.advisory);
    }
    SoftStage(Certified(ctx.advisory), s);
  }

  // The candidates are exactly the registered providers that pass every stage as the request words it;
  // the boundary is reported violated exactly when a strict locality or a mandatory standard leaves
  // nobody.
  lemma CandidatesByFields(registry: seq<Provider>, ctx: Context)
    ensures match Candidates(registry, ctx)
            case Ok(c) => (forall p :: p in c <==> Chosen(registry, ctx, p)) && !Violated(registry, ctx)
            case Err(e) => e == ComplianceBoundaryViolation && Violated(registry, ctx) && forall p :: !Compliant(registry, ctx, p)
  {
    hide Filter, Base, ByModel, ByLocality, ByMandatory, ByAdvisory, Modelled, Placed, Chosen, Complies;
    ModelledMembers(registry, ctx);
    var byModel := ByModel(Base(registry, ctx), ctx);
    LocalityMembers(registry, ctx, byModel);
    if ByLocality(byModel, ctx).Ok? {
      var localized := ByLocality(byModel, ctx).value;
      MandatoryMembers(registry, ctx, localized);
      if ByMandatory(localized, ctx).Ok? {
        AdvisoryMembers(registry, ctx, ByMandatory(localized, ctx).value);
      }
    }
  }

  // ---- Who comes first ----

  // A number not above the other one comes first, and any number before none.
  predicate LowFirst(x: Option<real>, y: Option<real>) {
    y.Some? ==> x.Some? && x.value <= y.value
  }

  predicate HighFirst(x: Option<real>, y: Option<real>) {
    y.Some? ==> x.Some? && x.value >= y.value
  }

  // Equal up to some place, and there the end of the first name or a lesser character.
  ghost predicate Alphabetical(a: string, b: string) {
    exists k: nat :: k <= |a| && k <= |b| && a[..k] == b[..k] && (k == |a| || (k < |b| && a[k] < b[k]))
  }

  lemma {:induction false} NameLeIsAlphabetical(a: string, b: string)
    requires NameLe(a, b)
    ensures Alphabetical(a, b)
  {
    if a == "" {
      assert a[..0] == b[..0];
    } else if a[0] < b[0] {
      assert a[..0] == b[..0];
    } else {
      NameLeIsAlphabetical(a[1..], b[1..]);
      var k: nat :| k <= |a[1..]| && k <= |b[1..]| && a[1..][..k] == b[1..][..k]
                    && (k == |a[1..]| || (k < |b[1..]| && a[1..][k] < b[1..][k]));
      assert a[..k + 1] == [a[0]] + a[1..][..k] && b[..k + 1] == [b[0]] + b[1..][..k];
    }
  }

  // `a` may stand before `b` under a strategy: the preferred model first, then the numbers that the
  // strategy looks at, and among equal ones the names.
  ghost predicate MayPrecede(st: Strategy, ctx: Context, a: Provider, b: Provider) {
    && (HasModel(b, ctx) ==> HasModel(a, ctx))
    && (HasModel(a, ctx) == HasModel(b, ctx) ==>
          match st
          case LowestCost => LowFirst(a.cost, b.cost) && (a.cost == b.cost ==> Alphabetical(a.name, b.name))
          case LowestLatency => LowFirst(a.latency, b.latency) && (a.latency == b.latency ==> Alphabetical(a.name, b.name))
          case CapabilityMatch =>
            && (ctx.costPreference.Cheapest? ==> LowFirst(a.cost, b.cost))
            && (ctx.costPreference.BestQuality? ==> HighFirst(a.quality, b.quality))
            && (TiedOnCost(ctx, a, b) ==>
                  && (ctx.latencyPreference.Fastest? ==> LowFirst(a.latency, b.latency))
                  && ((ctx.latencyPreference.Fastest? && a.latency != b.latency) || Alphabetical(a.name, b.name))))
  }

  predicate TiedOnCost(ctx: Context, a: Provider, b: Provider) {
    match ctx.costPreference
    case Cheapest => a.cost == b.cost
    case BestQuality => a.quality == b.quality
    case BalancedCost => true
  }

  lemma OrderMayPrecede(st: Strategy, ctx: Context, a: Provider, b: Provider)
    requires StrategyLe(st, ctx, a, b)
    ensures MayPrecede(st, ctx, a, b)
  {
    if NameLe(a.name, b.name) {
      NameLeIsAlphabetical(a.name, b.name);
    }
    hide NameLe, Alphabetical;
  }

  // ---- The decision ----

  ghost predicate UsableByFields(registry: seq<Provider>, ctx: Context, p: Provider) {
    Chosen(registry, ctx, p) && (ctx.requireHealthy ==> p.healthy)
  }

  // The primary is a usable candidate that may precede every other one; with fallbacks allowed all the
  // others follow, each preceded only by whom it may follow; without any usable candidate, and only
  // then, routing fails, with the boundary violation exactly when a hard constraint leaves nobody.
  lemma DecisionByFields(st: Strategy, registry: seq<Provider>, ctx: Context)
    ensures match Route(st, registry, ctx)
            case Ok(d) =>
              var listed := [d.primary] + d.fallbacks;
              && UsableByFields(registry, ctx, d.primary)
              && (forall p | UsableByFields(registry, ctx, p) :: MayPrecede(st, ctx, d.primary, p))
              && (if ctx.fallbackAllowed then
                    && (forall p :: p in listed <==> UsableByFields(registry, ctx, p))
                    && (forall i, j | 0 <= i < j < |listed| :: MayPrecede(st, ctx, listed[i], listed[j]))
                  else d.fallbacks == [])
            case Err(e) =>
              && (forall p :: !UsableByFields(registry, ctx, p))
              && e == if Violated(registry, ctx) then ComplianceBoundaryViolation else RoutingFailed
  {
    CandidatesByFields(registry, ctx);
    hide Candidates, Chosen, Filter, Sort, Usable, BestFirst, Violated;
    if Candidates(registry, ctx).Ok? {
      var usable := Usable(Candidates(registry, ctx).value, ctx);
      UsableMembers(Candidates(registry, ctx).value, ctx);
      RouteIsBest(st, registry, ctx);
      if Route(st, registry, ctx).Ok? {
        ListedByFields(st, ctx, usable, Route(st, registry, ctx).value);
      }
    } else {
      ErrIsNobody(registry, ctx);
    }
  }

  lemma ErrIsNobody(registry: seq<Provider>, ctx: Context)
    requires forall p :: !Compliant(registry, ctx, p)
    ensures forall p :: !Chosen(registry, ctx, p)
  {
    hide Compliant;
  }

  lemma ListedByFields(st: Strategy, ctx: Context, usable: seq<Provider>, d: Decision)
    requires BestFirst(Order(st, ctx), usable, d, ctx.fallbackAllowed)
    ensures d.primary in usable && forall p | p in usable :: MayPrecede(st, ctx, d.primary, p)
    ensures var listed := [d.primary] + d.fallbacks;
            if ctx.fallbackAllowed then
              && (forall p :: p in listed <==> p in usable)
              && (forall i, j | 0 <= i < j < |listed| :: MayPrecede(st, ctx, listed[i], listed[j]))
            else d.fallbacks == []
  {
    hide StrategyLe, MayPrecede;
    forall a, b | StrategyLe(st, ctx, a, b) ensures MayPrecede(st, ctx, a, b) {
      OrderMayPrecede(st, ctx, a, b);
    }
    var listed := [d.primary] + d.fallbacks;
    if ctx.fallbackAllowed {
      forall p ensures p in listed <==> p in usable {
        assert p in listed <==> p in multiset(listed);
        assert p in usable <==> p in multiset(usable);
      }
    }
  }

  // In particular: under `LowestCost` nobody usable with as good a claim to the preferred model costs
  // less than the primary, and if the primary names no cost, nobody of them does...
  lemma LowestCostIsLowest(registry: seq<Provider>, ctx: Context, p: Provider)
    requires Route(LowestCost, registry, ctx).Ok? && UsableByFields(registry, ctx, p)
    ensures var d := Route(LowestCost, registry, ctx).value;
            && (HasModel(p, ctx) ==> HasModel(d.primary, ctx))
            && (HasModel(p, ctx) == HasModel(d.primary, ctx) && p.cost.Some? ==>
                  d.primary.cost.Some? && d.primary.cost.value <= p.cost.value)
  {
    DecisionByFields(LowestCost, registry, ctx);
  }

  // ...and the same of latency under `LowestLatency`.
  lemma LowestLatencyIsLowest(registry: seq<Provider>, ctx: Context, p: Provider)
    requires Route(LowestLatency, registry, ctx).Ok? && UsableByFields(registry, ctx, p)
    ensures var d := Route(LowestLatency, registry, ctx).value;
            && (HasModel(p, ctx) ==> HasModel(d.primary, ctx))
            && (HasModel(p, ctx) == HasModel(d.primary, ctx) && p.latency.Some? ==>
                  d.primary.latency.Some? && d.primary.latency.value <= p.latency.value)
  {
    DecisionByFields(LowestLatency, registry, ctx);
  }

  // Under `CapabilityMatch` the preferences of the request decide, cost or quality before latency.
  lemma PreferencesDecide(registry: seq<Provider>, ctx: Context, p: Provider)
    requires Route(CapabilityMatch, registry, ctx).Ok? && UsableByFields(registry, ctx, p)
    requires HasModel(p, ctx) == HasModel(Route(CapabilityMatch, registry, ctx).value.primary, ctx)
    ensures var d := Route(CapabilityMatch, registry, ctx).value;
            && (ctx.costPreference.Cheapest? && p.cost.Some? ==>
                  d.primary.cost.Some? && d.primary.cost.value <= p.cost.value)
            && (ctx.costPreference.BestQuality? && p.quality.Some? ==>
                  d.primary.quality.Some? && d.primary.quality.value >= p.quality.value)
            && (ctx.latencyPreference.Fastest? && p.latency.Some? && TiedOnCost(ctx, d.primary, p) ==>
                  d.primary.latency.Some? && d.primary.latency.value <= p.latency.value)
  {
    DecisionByFields(CapabilityMatch, registry, ctx);
  }
}
