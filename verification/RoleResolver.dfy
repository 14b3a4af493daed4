/** Role resolution (swarm-role/resolver.rs): a tenant override is merged into a role so that the
    more restrictive side wins. */
module Roles {
  import opened Wrappers
  import opened StableSort

  // ---- Lists of names ----

  // An empty allow-list restricts nothing.
  predicate Admits(allowed: seq<string>, x: string) {
    allowed == [] || x in allowed
  }

  ghost function Names(s: seq<string>): set<string> {
    set x | x in s
  }

  ghost predicate Overlap(a: seq<string>, b: seq<string>) {
    exists x :: x in a && x in b
  }

  // Append, in order, the names that are not there yet.
  function Union(base: seq<string>, extra: seq<string>): seq<string>
    decreases |extra|
  {
    if extra == [] then base
    else Union(if extra[0] in base then base else base + [extra[0]], extra[1..])
  }

  function ListedIn(s: seq<string>): string -> bool {
    x => x in s
  }

  function Narrow(base: seq<string>, overlay: seq<string>): seq<string> {
    if overlay == [] then base
    else if base == [] then overlay
    else Filter(ListedIn(overlay), base)
  }

  lemma {:induction false} UnionMembers(base: seq<string>, extra: seq<string>)
    ensures forall x :: x in Union(base, extra) <==> (x in base || x in extra)
    decreases |extra|
  {
    if extra != [] {
      UnionMembers(if extra[0] in base then base else base + [extra[0]], extra[1..]);
      assert extra == [extra[0]] + extra[1..];
    }
  }

  lemma {:induction false} UnionOfListed(base: seq<string>, extra: seq<string>)
    requires forall x | x in extra :: x in base
    ensures Union(base, extra) == base
  {
    if extra != [] {
      UnionOfListed(base, extra[1..]);
    }
  }

  lemma {:induction false} KeepListed(keep: string -> bool, s: seq<string>)
    requires forall x | x in s :: keep(x)
    ensures Filter(keep, s) == s
  {
    if s != [] {
      KeepListed(keep, s[1..]);
    }
  }

  lemma NarrowMembers(a: seq<string>, b: seq<string>)
    requires a != [] && b != []
    ensures forall x :: x in Narrow(a, b) <==> (x in a && x in b)
    ensures Narrow(a, b) == [] <==> !Overlap(a, b)
  {
    if Narrow(a, b) != [] {
      assert Narrow(a, b)[0] in Narrow(a, b);
    }
  }

  // The merged allow-list admits exactly what both sides admit, unless the two are nonempty and
  // disjoint: then it is empty and admits everything, although no name is admitted by both.
  lemma NarrowAdmits(a: seq<string>, b: seq<string>)
    ensures (a == [] || b == [] || Overlap(a, b)) ==>
              forall x :: Admits(Narrow(a, b), x) <==> (Admits(a, x) && Admits(b, x))
    ensures !(a == [] || b == [] || Overlap(a, b)) ==>
              forall x :: Admits(Narrow(a, b), x) && !(Admits(a, x) && Admits(b, x))
  {
    if a != [] && b != [] {
      hide Narrow;
      NarrowMembers(a, b);
    }
  }

  // Set-level associativity of the allow-list merge: the exact condition.
  ghost predicate Regroups(a: seq<string>, b: seq<string>, c: seq<string>) {
    || a == [] || b == [] || c == []
    || (Overlap(a, b) && Overlap(b, c))
    || (!Overlap(a, b) && !Overlap(b, c) && Names(a) == Names(c))
  }

  lemma NarrowRegroupsIff(a: seq<string>, b: seq<string>, c: seq<string>)
    ensures Names(Narrow(Narrow(a, b), c)) == Names(Narrow(a, Narrow(b, c))) <==> Regroups(a, b, c)
  {
    if a != [] && b != [] && c != [] {
      NarrowMembers(a, b);
      NarrowMembers(b, c);
      NamesOfNarrow(a, b);
      NamesOfNarrow(b, c);
      NamesOfNarrow(Narrow(a, b), c);
      NamesOfNarrow(a, Narrow(b, c));
      assert a[0] in Names(a) && c[0] in Names(c);
    }
  }

  lemma NamesOfNarrow(a: seq<string>, b: seq<string>)
    ensures Names(Narrow(a, b)) == if b == [] then Names(a) else if a == [] then Names(b) else Names(a) * Names(b)
  {
    if a != [] && b != [] {
      NarrowMembers(a, b);
    }
  }

  // Three allow-lists with a name in common always regroup.
  lemma CommonNameRegroups(a: seq<string>, b: seq<string>, c: seq<string>)
    requires exists x :: x in a && x in b && x in c
    ensures Regroups(a, b, c)
  {
  }

  lemma NarrowCommutes(a: seq<string>, b: seq<string>)
    ensures Names(Narrow(a, b)) == Names(Narrow(b, a))
  {
    NamesOfNarrow(a, b);
    NamesOfNarrow(b, a);
  }

  // ---- A name outside any given list ----

  function Longest(s: seq<string>): nat {
    if s == [] then 0 else if |s[0]| > Longest(s[1..]) then |s[0]| else Longest(s[1..])
  }

  lemma {:induction false} NoLonger(s: seq<string>)
    ensures forall x | x in s :: |x| <= Longest(s)
  {
    if s != [] {
      NoLonger(s[1..]);
      assert s == [s[0]] + s[1..];
    }
  }

  lemma FreshName(s: seq<string>) returns (x: string)
    ensures x !in s
  {
    NoLonger(s);
    x := seq(Longest(s) + 1, _ => 'x');
  }

  // ---- Policies ----

  datatype ToolPolicy = ToolPolicy(
    allowed: seq<string>,
    denied: seq<string>,
    requiredCapabilities: seq<string>,
    maxCalls: Option<nat>)
  {
    predicate Permits(tool: string) {
      Admits(allowed, tool) && tool !in denied
    }
  }

  datatype MemoryPolicy = MemoryPolicy(
    readable: seq<string>,
    writable: seq<string>,
    maxSensitivity: Option<string>,
    retentionHint: Option<string>)

  datatype LearningPolicy = LearningPolicy(
    enabled: bool,
    requireApproval: bool,
    allowed: seq<string>,
    denied: seq<string>)
  {
    predicate Permits(category: string) {
      Admits(allowed, category) && category !in denied
    }
  }

  function LowerLimit(a: Option<nat>, b: Option<nat>): Option<nat> {
    match (a, b)
    case (Some(x), Some(y)) => Some(if x <= y then x else y)
    case (Some(x), None) => Some(x)
    case (None, _) => b
  }

  // Whether a use counted or ranked `n` stays within a limit; no limit restricts nothing.
  predicate Within(limit: Option<nat>, n: nat) {
    limit.None? || n <= limit.value
  }

  function Rank(level: string): nat {
    if level == "public" then 0
    else if level == "internal" then 1
    else if level == "confidential" then 2
    else if level == "restricted" then 3
    else 1
  }

  function Ceiling(level: Option<string>): Option<nat> {
    if level.None? then None else Some(Rank(level.value))
  }

  function MoreRestrictive(a: Option<string>, b: Option<string>): Option<string> {
    if a.None? then b
    else if b.None? then a
    else if Rank(a.value) <= Rank(b.value) then a else b
  }

  function MergeTools(base: ToolPolicy, overlay: ToolPolicy): ToolPolicy {
    ToolPolicy(
      Narrow(base.allowed, overlay.allowed),
      Union(base.denied, overlay.denied),
      Union(base.requiredCapabilities, overlay.requiredCapabilities),
      LowerLimit(base.maxCalls, overlay.maxCalls))
  }

  function MergeMemory(base: MemoryPolicy, overlay: MemoryPolicy): MemoryPolicy {
    MemoryPolicy(
      Narrow(base.readable, overlay.readable),
      Narrow(base.writable, overlay.writable),
      MoreRestrictive(base.maxSensitivity, overlay.maxSensitivity),
      if overlay.retentionHint.Some? then overlay.retentionHint else base.retentionHint)
  }

  function MergeLearning(base: LearningPolicy, overlay: LearningPolicy): LearningPolicy {
    LearningPolicy(
      base.enabled && overlay.enabled,
      base.requireApproval || overlay.requireApproval,
      Narrow(base.allowed, overlay.allowed),
      Union(base.denied, overlay.denied))
  }

  // ---- What a merge permits ----

  // The one family of inputs on which "more restrictive wins" fails: both sides restrict, and
  // nothing satisfies both.
  ghost predicate Clash(a: seq<string>, b: seq<string>) {
    a != [] && b != [] && !Overlap(a, b)
  }

  // On a clash there is always a name that the merge lets through and one of the sides does not.
  lemma ClashWitness(a: seq<string>, b: seq<string>, denied: seq<string>) returns (x: string)
    requires Clash(a, b)
    ensures x !in denied && Admits(Narrow(a, b), x) && !(Admits(a, x) && Admits(b, x))
  {
    x := FreshName(denied);
    NarrowAdmits(a, b);
  }

  // A tool is permitted by the merge iff by both sides, for every tool, exactly when the two
  // allow-lists do not clash; the call limit is the lower one either way.
  lemma MergeToolsIsConjunctionIff(base: ToolPolicy, overlay: ToolPolicy)
    ensures (forall t :: MergeTools(base, overlay).Permits(t) <==> (base.Permits(t) && overlay.Permits(t)))
       <==> !Clash(base.allowed, overlay.allowed)
    ensures forall n :: Within(MergeTools(base, overlay).maxCalls, n) <==> (Within(base.maxCalls, n) && Within(overlay.maxCalls, n))
  {
    hide Narrow, Union, Admits;
    NarrowAdmits(base.allowed, overlay.allowed);
    UnionMembers(base.denied, overlay.denied);
    if Clash(base.allowed, overlay.allowed) {
      var t := ClashWitness(base.allowed, overlay.allowed, Union(base.denied, overlay.denied));
      assert MergeTools(base, overlay).Permits(t) && !(base.Permits(t) && overlay.Permits(t));
    }
  }

  lemma MergeLearningIsConjunctionIff(base: LearningPolicy, overlay: LearningPolicy)
    ensures (forall c :: MergeLearning(base, overlay).Permits(c) <==> (base.Permits(c) && overlay.Permits(c)))
       <==> !Clash(base.allowed, overlay.allowed)
  {
    hide Narrow, Union, Admits;
    NarrowAdmits(base.allowed, overlay.allowed);
    UnionMembers(base.denied, overlay.denied);
    if Clash(base.allowed, overlay.allowed) {
      var c := ClashWitness(base.allowed, overlay.allowed, Union(base.denied, overlay.denied));
      assert MergeLearning(base, overlay).Permits(c) && !(base.Permits(c) && overlay.Permits(c));
    }
  }

  // Scopes have no deny-list: reading (and writing) needs both sides exactly when they do not
  // clash. The sensitivity ceiling is the lower one, unknown labels ranking as internal.
  lemma MergeMemoryIsConjunctionIff(base: MemoryPolicy, overlay: MemoryPolicy)
    ensures (forall s :: Admits(MergeMemory(base, overlay).readable, s) <==> (Admits(base.readable, s) && Admits(overlay.readable, s)))
       <==> !Clash(base.readable, overlay.readable)
    ensures (forall s :: Admits(MergeMemory(base, overlay).writable, s) <==> (Admits(base.writable, s) && Admits(overlay.writable, s)))
       <==> !Clash(base.writable, overlay.writable)
    ensures forall n :: Within(Ceiling(MergeMemory(base, overlay).maxSensitivity), n)
                   <==> (Within(Ceiling(base.maxSensitivity), n) && Within(Ceiling(overlay.maxSensitivity), n))
  {
    hide Narrow, Admits, Rank;
    NarrowAdmits(base.readable, overlay.readable);
    NarrowAdmits(base.writable, overlay.writable);
    var anyName := "";
    assert Clash(base.readable, overlay.readable) ==> Admits(Narrow(base.readable, overlay.readable), anyName);
    assert Clash(base.writable, overlay.writable) ==> Admits(Narrow(base.writable, overlay.writable), anyName);
  }

  // ---- Algebra of the merges ----

  lemma {:induction false} MergesAreIdempotent(t: ToolPolicy, m: MemoryPolicy, l: LearningPolicy)
    ensures MergeTools(t, t) == t && MergeMemory(m, m) == m && MergeLearning(l, l) == l
  {
    hide Union, Filter;
    UnionOfListed(t.denied, t.denied);
    UnionOfListed(t.requiredCapabilities, t.requiredCapabilities);
    UnionOfListed(l.denied, l.denied);
    KeepListed(ListedIn(t.allowed), t.allowed);
    KeepListed(ListedIn(m.readable), m.readable);
    KeepListed(ListedIn(m.writable), m.writable);
    KeepListed(ListedIn(l.allowed), l.allowed);
  }

  ghost predicate SameTools(p: ToolPolicy, q: ToolPolicy) {
    && Names(p.allowed) == Names(q.allowed)
    && Names(p.denied) == Names(q.denied)
    && Names(p.requiredCapabilities) == Names(q.requiredCapabilities)
    && p.maxCalls == q.maxCalls
  }

  ghost predicate SameLearning(p: LearningPolicy, q: LearningPolicy) {
    && p.enabled == q.enabled && p.requireApproval == q.requireApproval
    && Names(p.allowed) == Names(q.allowed)
    && Names(p.denied) == Names(q.denied)
  }

  // The retention hint is left out: there the overlay wins.
  ghost predicate SameMemory(p: MemoryPolicy, q: MemoryPolicy) {
    && Names(p.readable) == Names(q.readable)
    && Names(p.writable) == Names(q.writable)
    && Ceiling(p.maxSensitivity) == Ceiling(q.maxSensitivity)
  }

  lemma UnionNames(a: seq<string>, b: seq<string>)
    ensures Names(Union(a, b)) == Names(a) + Names(b)
  {
    UnionMembers(a, b);
  }

  lemma MergesCommute(t: ToolPolicy, t': ToolPolicy, m: MemoryPolicy, m': MemoryPolicy, l: LearningPolicy, l': LearningPolicy)
    ensures SameTools(MergeTools(t, t'), MergeTools(t', t))
    ensures SameMemory(MergeMemory(m, m'), MergeMemory(m', m))
    ensures SameLearning(MergeLearning(l, l'), MergeLearning(l', l))
  {
    hide Union, Narrow, Names, Rank;
    NarrowCommutes(t.allowed, t'.allowed);
    NarrowCommutes(m.readable, m'.readable);
    NarrowCommutes(m.writable, m'.writable);
    NarrowCommutes(l.allowed, l'.allowed);
    UnionNames(t.denied, t'.denied);
    UnionNames(t'.denied, t.denied);
    UnionNames(t.requiredCapabilities, t'.requiredCapabilities);
    UnionNames(t'.requiredCapabilities, t.requiredCapabilities);
    UnionNames(l.denied, l'.denied);
    UnionNames(l'.denied, l.denied);
  }

  lemma UnionRegroups(a: seq<string>, b: seq<string>, c: seq<string>)
    ensures Names(Union(Union(a, b), c)) == Names(Union(a, Union(b, c)))
  {
    hide Union;
    UnionNames(a, b);
    UnionNames(b, c);
    UnionNames(Union(a, b), c);
    UnionNames(a, Union(b, c));
  }

  lemma MergeToolsRegroupsIff(a: ToolPolicy, b: ToolPolicy, c: ToolPolicy)
    ensures SameTools(MergeTools(MergeTools(a, b), c), MergeTools(a, MergeTools(b, c)))
       <==> Regroups(a.allowed, b.allowed, c.allowed)
  {
    hide Union, Narrow, Names, Regroups;
    NarrowRegroupsIff(a.allowed, b.allowed, c.allowed);
    UnionRegroups(a.denied, b.denied, c.denied);
    UnionRegroups(a.requiredCapabilities, b.requiredCapabilities, c.requiredCapabilities);
  }

  lemma MergeLearningRegroupsIff(a: LearningPolicy, b: LearningPolicy, c: LearningPolicy)
    ensures SameLearning(MergeLearning(MergeLearning(a, b), c), MergeLearning(a, MergeLearning(b, c)))
       <==> Regroups(a.allowed, b.allowed, c.allowed)
  {
    hide Union, Narrow, Names, Regroups;
    NarrowRegroupsIff(a.allowed, b.allowed, c.allowed);
    UnionRegroups(a.denied, b.denied, c.denied);
  }

  lemma MergeMemoryRegroupsIff(a: MemoryPolicy, b: MemoryPolicy, c: MemoryPolicy)
    ensures SameMemory(MergeMemory(MergeMemory(a, b), c), MergeMemory(a, MergeMemory(b, c)))
       <==> (Regroups(a.readable, b.readable, c.readable) && Regroups(a.writable, b.writable, c.writable))
    ensures MergeMemory(MergeMemory(a, b), c).retentionHint == MergeMemory(a, MergeMemory(b, c)).retentionHint
  {
    hide Narrow, Names, Regroups, Rank;
    NarrowRegroupsIff(a.readable, b.readable, c.readable);
    NarrowRegroupsIff(a.writable, b.writable, c.writable);
  }

  // ---- Resolution ----

  // Trust levels in ascending order, `Untrusted` being 0 and `Full` 4.
  type TrustLevel = n: nat | n <= 4

  datatype Preferences = Preferences(provider: Option<string>, model: Option<string>)

  datatype RoleSpec = RoleSpec(
    trust: TrustLevel,
    tools: ToolPolicy,
    memory: MemoryPolicy,
    learning: LearningPolicy,
    preferences: Preferences)

  datatype TenantOverride = TenantOverride(
    tenant: string,
    trust: Option<TrustLevel>,
    tools: Option<ToolPolicy>,
    memory: Option<MemoryPolicy>,
    learning: Option<LearningPolicy>,
    preferences: Option<Preferences>,
    additionalDeniedTools: seq<string>,
    additionalDeniedCategories: seq<string>)

  datatype Profile = Profile(
    trust: TrustLevel,
    tools: ToolPolicy,
    memory: MemoryPolicy,
    learning: LearningPolicy,
    preferences: Preferences,
    tenant: Option<string>)

  function Resolved(spec: RoleSpec, override: Option<TenantOverride>): Profile {
    if override.None? then
      Profile(spec.trust, spec.tools, spec.memory, spec.learning, spec.preferences, None)
    else
      var ov := override.value;
      var tools := if ov.tools.Some? then MergeTools(spec.tools, ov.tools.value) else spec.tools;
      var learning := if ov.learning.Some? then MergeLearning(spec.learning, ov.learning.value) else spec.learning;
      Profile(
        if ov.trust.Some? && ov.trust.value < spec.trust then ov.trust.value else spec.trust,
        tools.(denied := Union(tools.denied, ov.additionalDeniedTools)),
        if ov.memory.Some? then MergeMemory(spec.memory, ov.memory.value) else spec.memory,
        learning.(denied := Union(learning.denied, ov.additionalDeniedCategories)),
        if ov.preferences.Some? then ov.preferences.value else spec.preferences,
        Some(ov.tenant))
  }

  ghost predicate OverrideAllows(ov: TenantOverride, tool: string) {
    (ov.tools.Some? ==> ov.tools.value.Permits(tool)) && tool !in ov.additionalDeniedTools
  }

  // A tool is open to the resolved role iff the role permits it, the override permits it, and it
  // is not additionally denied; for every tool, exactly when the allow-lists do not clash.
  lemma ResolvedPermitsIff(spec: RoleSpec, ov: TenantOverride)
    ensures (forall t :: Resolved(spec, Some(ov)).tools.Permits(t) <==> (spec.tools.Permits(t) && OverrideAllows(ov, t)))
       <==> !(ov.tools.Some? && Clash(spec.tools.allowed, ov.tools.value.allowed))
  {
    hide Narrow, Union, Admits, Clash;
    if ov.tools.Some? {
      var overlay := ov.tools.value;
      var merged := MergeTools(spec.tools, overlay);
      UnionMembers(merged.denied, ov.additionalDeniedTools);
      UnionMembers(spec.tools.denied, overlay.denied);
      if Clash(spec.tools.allowed, overlay.allowed) {
        var t := ClashWitness(spec.tools.allowed, overlay.allowed, Union(merged.denied, ov.additionalDeniedTools));
        assert Resolved(spec, Some(ov)).tools.Permits(t) && !(spec.tools.Permits(t) && OverrideAllows(ov, t));
      } else {
        PermitsTogether(spec.tools, overlay, ov.additionalDeniedTools);
      }
    } else {
      UnionMembers(spec.tools.denied, ov.additionalDeniedTools);
    }
  }

  lemma PermitsTogether(base: ToolPolicy, overlay: ToolPolicy, additional: seq<string>)
    requires !Clash(base.allowed, overlay.allowed)
    ensures var merged := MergeTools(base, overlay);
            forall t :: merged.(denied := Union(merged.denied, additional)).Permits(t)
                   <==> (base.Permits(t) && overlay.Permits(t) && t !in additional)
  {
    hide Narrow, Union, Admits, Clash;
    MergeToolsIsConjunctionIff(base, overlay);
    UnionMembers(MergeTools(base, overlay).denied, additional);
  }

  // Whatever the override says, resolution never undoes a denial, never raises trust, the call
  // limit or the sensitivity ceiling, and never turns learning on or approval off.
  lemma ResolvedNeverLoosens(spec: RoleSpec, ov: TenantOverride)
    ensures var p := Resolved(spec, Some(ov));
            && p.trust <= spec.trust && (ov.trust.Some? ==> p.trust <= ov.trust.value)
            && (p.trust == spec.trust || ov.trust == Some(p.trust))
            && (forall t | t in spec.tools.denied || t in ov.additionalDeniedTools
                           || (ov.tools.Some? && t in ov.tools.value.denied) :: !p.tools.Permits(t))
            && (forall c | c in spec.learning.denied || c in ov.additionalDeniedCategories
                           || (ov.learning.Some? && c in ov.learning.value.denied) :: !p.learning.Permits(c))
            && (forall n | Within(p.tools.maxCalls, n) :: Within(spec.tools.maxCalls, n))
            && (forall n | Within(Ceiling(p.memory.maxSensitivity), n) :: Within(Ceiling(spec.memory.maxSensitivity), n))
            && (p.learning.enabled ==> spec.learning.enabled)
            && (spec.learning.requireApproval ==> p.learning.requireApproval)
  {
    hide Narrow, Union, Admits, Rank;
    var p := Resolved(spec, Some(ov));
    if ov.tools.Some? {
      UnionMembers(spec.tools.denied, ov.tools.value.denied);
      UnionMembers(MergeTools(spec.tools, ov.tools.value).denied, ov.additionalDeniedTools);
    } else {
      UnionMembers(spec.tools.denied, ov.additionalDeniedTools);
    }
    if ov.learning.Some? {
      UnionMembers(spec.learning.denied, ov.learning.value.denied);
      UnionMembers(MergeLearning(spec.learning, ov.learning.value).denied, ov.additionalDeniedCategories);
    } else {
      UnionMembers(spec.learning.denied, ov.additionalDeniedCategories);
    }
  }

  // ---- The resolved profile, field by field ----

  // The sensitivity labels in words: public is below internal, internal below confidential and that
  // below restricted; any other label counts as internal.
  predicate AtMost(level: string, ceiling: string) {
    || ceiling == "restricted"
    || (ceiling == "confidential" && level != "restricted")
    || (ceiling == "public" && level == "public")
    || (ceiling !in ["public", "confidential", "restricted"] && level !in ["confidential", "restricted"])
  }

  lemma AtMostIff(level: string, ceiling: string)
    ensures AtMost(level, ceiling) <==> Rank(level) <= Rank(ceiling)
  {
  }

  // The stricter of two labels; of two that are equally strict, the role's own.
  predicate IsStricter(merged: Option<string>, own: Option<string>, other: Option<string>) {
    if own.None? then merged == other
    else if other.None? then merged == own
    else
      && merged.Some? && (merged == own || merged == other)
      && AtMost(merged.value, own.value) && AtMost(merged.value, other.value)
      && (AtMost(own.value, other.value) ==> merged == own)
  }

  predicate IsLower(limit: Option<nat>, own: Option<nat>, other: Option<nat>) {
    && (limit.None? <==> own.None? && other.None?)
    && (limit.Some? ==> limit == own || limit == other)
    && (limit.Some? && own.Some? ==> limit.value <= own.value)
    && (limit.Some? && other.Some? ==> limit.value <= other.value)
  }

  // What an override does to each part of the role: trust and the call limit are the lower ones, the
  // memory label is the stricter one, learning stays on only if both want it and asks for approval if
  // either does, required capabilities and denials add up, and a retention hint and provider
  // preferences are the override's where it has any. A part it does not mention is the role's.
  lemma ResolvedByFields(spec: RoleSpec, ov: TenantOverride)
    ensures var p := Resolved(spec, Some(ov));
            && p.trust == (if ov.trust.Some? && ov.trust.value <= spec.trust then ov.trust.value else spec.trust)
            && p.tenant == Some(ov.tenant)
            && p.preferences == (if ov.preferences.Some? then ov.preferences.value else spec.preferences)
            && (forall t :: t in p.tools.denied <==>
                  t in spec.tools.denied || t in ov.additionalDeniedTools || (ov.tools.Some? && t in ov.tools.value.denied))
            && (forall c :: c in p.tools.requiredCapabilities <==>
                  c in spec.tools.requiredCapabilities || (ov.tools.Some? && c in ov.tools.value.requiredCapabilities))
            && IsLower(p.tools.maxCalls, spec.tools.maxCalls, if ov.tools.Some? then ov.tools.value.maxCalls else None)
            && (forall c :: c in p.learning.denied <==>
                  c in spec.learning.denied || c in ov.additionalDeniedCategories
                  || (ov.learning.Some? && c in ov.learning.value.denied))
            && (p.learning.enabled <==> spec.learning.enabled && (ov.learning.Some? ==> ov.learning.value.enabled))
            && (p.learning.requireApproval <==>
                  spec.learning.requireApproval || (ov.learning.Some? && ov.learning.value.requireApproval))
  {
    hide Narrow, Union, Admits, Rank;
    if ov.tools.Some? {
      UnionMembers(spec.tools.denied, ov.tools.value.denied);
      UnionMembers(spec.tools.requiredCapabilities, ov.tools.value.requiredCapabilities);
      UnionMembers(MergeTools(spec.tools, ov.tools.value).denied, ov.additionalDeniedTools);
    } else {
      UnionMembers(spec.tools.denied, ov.additionalDeniedTools);
    }
    if ov.learning.Some? {
      UnionMembers(spec.learning.denied, ov.learning.value.denied);
      UnionMembers(MergeLearning(spec.learning, ov.learning.value).denied, ov.additionalDeniedCategories);
    } else {
      UnionMembers(spec.learning.denied, ov.additionalDeniedCategories);
    }
  }

  // The allow-lists: the role's where the override has none, the override's where the role has none,
  // and otherwise the role's names, in their order, that the override lists too.
  ghost predicate IsNarrowed(allowed: seq<string>, own: seq<string>, other: seq<string>) {
    && (other == [] ==> allowed == own)
    && (own == [] ==> allowed == other)
    && (own != [] && other != [] ==> (forall x :: x in allowed <==> x in own && x in other) && Thinned(allowed, own))
  }

  // What is left of a list when some of its members are taken out.
  predicate Thinned(s: seq<string>, from: seq<string>) {
    s == []
    || (from != [] && if s[0] == from[0] then Thinned(s[1..], from[1..]) else Thinned(s, from[1..]))
  }

  lemma {:induction false} FilterThins(keep: string -> bool, s: seq<string>)
    ensures Thinned(Filter(keep, s), s)
  {
    if s != [] {
      FilterThins(keep, s[1..]);
      ThinnedSkips(Filter(keep, s[1..]), s);
    }
  }

  lemma {:induction false} ThinnedSkips(s: seq<string>, from: seq<string>)
    requires from != [] && Thinned(s, from[1..])
    ensures Thinned(s, from)
  {
    if s != [] && s[0] == from[0] {
      ThinnedTail(s, from[1..]);
    }
  }

  lemma {:induction false} ThinnedTail(s: seq<string>, from: seq<string>)
    requires s != [] && Thinned(s, from)
    ensures Thinned(s[1..], from)
  {
    if s[0] == from[0] {
      ThinnedSkips(s[1..], from);
    } else {
      ThinnedTail(s, from[1..]);
      ThinnedSkips(s[1..], from);
    }
  }

  lemma NarrowedBoth(own: seq<string>, other: seq<string>)
    ensures IsNarrowed(Narrow(own, other), own, other)
  {
    FilterThins(ListedIn(other), own);
    hide Thinned;
  }

  lemma ResolvedListsByFields(spec: RoleSpec, ov: TenantOverride)
    ensures var p := Resolved(spec, Some(ov));
            && IsNarrowed(p.tools.allowed, spec.tools.allowed, if ov.tools.Some? then ov.tools.value.allowed else [])
            && IsNarrowed(p.learning.allowed, spec.learning.allowed, if ov.learning.Some? then ov.learning.value.allowed else [])
            && IsNarrowed(p.memory.readable, spec.memory.readable, if ov.memory.Some? then ov.memory.value.readable else [])
            && IsNarrowed(p.memory.writable, spec.memory.writable, if ov.memory.Some? then ov.memory.value.writable else [])
            && IsStricter(p.memory.maxSensitivity, spec.memory.maxSensitivity,
                          if ov.memory.Some? then ov.memory.value.maxSensitivity else None)
            && p.memory.retentionHint == (if ov.memory.Some? && ov.memory.value.retentionHint.Some? then
                                            ov.memory.value.retentionHint
                                          else spec.memory.retentionHint)
  {
    hide Narrow, Union, Admits, Rank, AtMost, IsNarrowed;
    forall a: string, b: string ensures AtMost(a, b) <==> Rank(a) <= Rank(b) {
      AtMostIff(a, b);
    }
    if ov.tools.Some? {
      NarrowedBoth(spec.tools.allowed, ov.tools.value.allowed);
    }
    if ov.learning.Some? {
      NarrowedBoth(spec.learning.allowed, ov.learning.value.allowed);
    }
    if ov.memory.Some? {
      NarrowedBoth(spec.memory.readable, ov.memory.value.readable);
      NarrowedBoth(spec.memory.writable, ov.memory.value.writable);
    }
    NothingNarrowed();
  }

  lemma NothingNarrowed()
    ensures forall own :: IsNarrowed(own, own, [])
  {
  }

  // ---- The resolver as it runs ----

  method PushMissing(list: seq<string>, extra: seq<string>) returns (r: seq<string>)
    ensures r == Union(list, extra)
  {
    r := list;
    for i := 0 to |extra|
      invariant Union(r, extra[i..]) == Union(list, extra)
    {
      assert extra[i..][0] == extra[i] && extra[i..][1..] == extra[i + 1..];
      if extra[i] !in r {
        r := r + [extra[i]];
      }
    }
  }

  method MergeToolPolicy(base: ToolPolicy, overlay: ToolPolicy) returns (r: ToolPolicy)
    ensures r == MergeTools(base, overlay)
  {
    var denied := PushMissing(base.denied, overlay.denied);
    var allowed := Narrow(base.allowed, overlay.allowed);
    var caps := PushMissing(base.requiredCapabilities, overlay.requiredCapabilities);
    r := ToolPolicy(allowed, denied, caps, LowerLimit(base.maxCalls, overlay.maxCalls));
  }

  method MergeLearningPolicy(base: LearningPolicy, overlay: LearningPolicy) returns (r: LearningPolicy)
    ensures r == MergeLearning(base, overlay)
  {
    var denied := PushMissing(base.denied, overlay.denied);
    r := LearningPolicy(base.enabled && overlay.enabled, base.requireApproval || overlay.requireApproval,
                        Narrow(base.allowed, overlay.allowed), denied);
  }

  method Resolve(spec: RoleSpec, override: Option<TenantOverride>) returns (profile: Profile)
    ensures profile == Resolved(spec, override)
  {
    hide Narrow, Union;
    var tools, memory, learning := spec.tools, spec.memory, spec.learning;
    var preferences, trust, tenant := spec.preferences, spec.trust, None;
    if override.Some? {
      var ov := override.value;
      tenant := Some(ov.tenant);
      if ov.tools.Some? {
        tools := MergeToolPolicy(tools, ov.tools.value);
      }
      var deniedTools := PushMissing(tools.denied, ov.additionalDeniedTools);
      tools := tools.(denied := deniedTools);
      if ov.memory.Some? {
        memory := MergeMemory(memory, ov.memory.value);
      }
      if ov.learning.Some? {
        learning := MergeLearningPolicy(learning, ov.learning.value);
      }
      var deniedCategories := PushMissing(learning.denied, ov.additionalDeniedCategories);
      learning := learning.(denied := deniedCategories);
      if ov.preferences.Some? {
        preferences := ov.preferences.value;
      }
      if ov.trust.Some? && ov.trust.value < trust {
        trust := ov.trust.value;
      }
    }
    profile := Profile(trust, tools, memory, learning, preferences, tenant);
  }
}
