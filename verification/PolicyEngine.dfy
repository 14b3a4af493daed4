/** The policy engine (swarm-policy/engine.rs): a list kept in stable descending priority
    order, and evaluation that stops at the first explicit outcome. */
module Policies {
  import opened Wrappers
  import opened StableSort

  type PolicyId = nat

  datatype Policy = Policy(id: PolicyId, priority: int)

  datatype PolicyOutcome = Allow | Deny(reason: string) | Abstain

  datatype PolicyDecision = Allowed | Denied(policy: PolicyId, reason: string)

  datatype DefaultDecision = DefaultAllow | DefaultDeny

  // What each policy answers in one context: an outcome, or an evaluation error.
  type Answers = Policy -> Result<PolicyOutcome, string>

  const DEFAULT_DENY_POLICY: PolicyId := 0xd3f1
  const DEFAULT_DENY_REASON := "no policy explicitly allowed this action (deny-by-default)"

  predicate HigherFirst(a: Policy, b: Policy) {
    a.priority >= b.priority
  }

  predicate Differs(id: PolicyId, p: Policy) {
    p.id != id
  }

  function Keep(id: PolicyId): Policy -> bool {
    p => Differs(id, p)
  }

  function Register(list: seq<Policy>, p: Policy): seq<Policy> {
    Sort(HigherFirst, list + [p])
  }

  function Unregister(list: seq<Policy>, id: PolicyId): seq<Policy> {
    Filter(Keep(id), list)
  }

  function Decide(p: Policy, o: PolicyOutcome): PolicyDecision {
    if o.Deny? then Denied(p.id, o.reason) else Allowed
  }

  function Default(d: DefaultDecision): PolicyDecision {
    if d.DefaultAllow? then Allowed else Denied(DEFAULT_DENY_POLICY, DEFAULT_DENY_REASON)
  }

  function Evaluate(list: seq<Policy>, answers: Answers, d: DefaultDecision): Result<PolicyDecision, string> {
    if list == [] then Ok(Default(d))
    else
      match answers(list[0])
      case Err(e) => Err(e)
      case Ok(Abstain) => Evaluate(list[1..], answers, d)
      case Ok(o) => Ok(Decide(list[0], o))
  }

  function Enforce(list: seq<Policy>, answers: Answers, d: DefaultDecision): Result<(), Option<string>> {
    match Evaluate(list, answers, d)
    case Err(e) => Err(Some(e))
    case Ok(Allowed) => Ok(())
    case Ok(Denied(_, _)) => Err(None)
  }

  // ---- The list over any history of registrations ----

  datatype Op = Add(policy: Policy) | Drop(id: PolicyId)

  function Engine(list: seq<Policy>, ops: seq<Op>): seq<Policy>
    decreases |ops|
  {
    if ops == [] then list
    else Engine(match ops[0] case Add(p) => Register(list, p) case Drop(id) => Unregister(list, id), ops[1..])
  }

  // The registrations that survive, in the order in which they were made.
  function Surviving(history: seq<Policy>, ops: seq<Op>): seq<Policy>
    decreases |ops|
  {
    if ops == [] then history
    else Surviving(match ops[0] case Add(p) => history + [p] case Drop(id) => Filter(Keep(id), history), ops[1..])
  }

  lemma HigherFirstIsPreorder()
    ensures TotalPreorder(HigherFirst)
  {
  }

  // Pushing and sorting at every registration, and retaining at every removal, gives the same list
  // as sorting all surviving registrations once, stably, by descending priority.
  lemma {:induction false} EngineSortsSurvivors(history: seq<Policy>, ops: seq<Op>)
    ensures Engine(Sort(HigherFirst, history), ops) == Sort(HigherFirst, Surviving(history, ops))
    decreases |ops|
  {
    HigherFirstIsPreorder();
    if ops != [] {
      match ops[0] {
        case Add(p) =>
          PushAndSort(HigherFirst, history, p);
          EngineSortsSurvivors(history + [p], ops[1..]);
        case Drop(id) =>
          SortFilter(HigherFirst, Keep(id), history);
          EngineSortsSurvivors(Filter(Keep(id), history), ops[1..]);
      }
    }
  }

  // ---- Decisions ----

  predicate Abstains(answers: Answers, p: Policy) {
    answers(p) == Ok(Abstain)
  }

  // The decision is that of the first policy in the list that does not abstain, or the default.
  lemma {:induction false} EvaluateIsFirstExplicit(list: seq<Policy>, answers: Answers, d: DefaultDecision, k: nat)
    requires k <= |list| && forall i | 0 <= i < k :: Abstains(answers, list[i])
    requires k < |list| ==> !Abstains(answers, list[k])
    ensures Evaluate(list, answers, d)
         == if k == |list| then Ok(Default(d))
            else if answers(list[k]).Err? then Err(answers(list[k]).error)
            else Ok(Decide(list[k], answers(list[k]).value))
  {
    if k > 0 {
      assert Abstains(answers, list[0]);
      EvaluateIsFirstExplicit(list[1..], answers, d, k - 1);
    }
  }

  ghost predicate DistinctPriorities(s: seq<Policy>) {
    forall a, b | a in s && b in s && a.priority == b.priority :: a == b
  }

  // With distinct priorities there is only one sorted arrangement...
  lemma {:induction false} SortedIsUnique(s: seq<Policy>, t: seq<Policy>)
    requires SortedBy(HigherFirst, s) && SortedBy(HigherFirst, t)
    requires multiset(s) == multiset(t) && DistinctPriorities(s)
    ensures s == t
  {
    if s == [] {
      assert |multiset(t)| == 0;
    } else {
      SameMembers(s, t);
      HeadIsHighest(s, t[0]);
      HeadIsHighest(t, s[0]);
      assert s[0] == t[0];
      TailsMatch(s, t);
      SortedIsUnique(s[1..], t[1..]);
      assert s == [s[0]] + s[1..] && t == [t[0]] + t[1..];
    }
  }

  lemma SameMembers(s: seq<Policy>, t: seq<Policy>)
    requires multiset(s) == multiset(t) && s != []
    ensures t != [] && s[0] in t && t[0] in s
  {
    assert |multiset(s)| == |multiset(t)|;
    assert s[0] in multiset(t) && t[0] in multiset(s);
  }

  lemma TailsMatch(s: seq<Policy>, t: seq<Policy>)
    requires multiset(s) == multiset(t) && s != [] && t != [] && s[0] == t[0]
    ensures multiset(s[1..]) == multiset(t[1..])
  {
    assert s == [s[0]] + s[1..] && t == [t[0]] + t[1..];
    assert multiset(s[1..]) == multiset(s) - multiset{s[0]};
    assert multiset(t[1..]) == multiset(t) - multiset{t[0]};
  }

  lemma HeadIsHighest(s: seq<Policy>, p: Policy)
    requires SortedBy(HigherFirst, s) && p in s
    ensures s[0].priority >= p.priority
  {
    var j :| 0 <= j < |s| && s[j] == p;
    assert j == 0 || HigherFirst(s[0], s[j]);
  }

  // ...so two histories that leave the same policies decide alike, whatever the order of registration.
  lemma RegistrationOrderIsIrrelevant(ops: seq<Op>, ops': seq<Op>, answers: Answers, d: DefaultDecision)
    requires multiset(Surviving([], ops)) == multiset(Surviving([], ops'))
    requires DistinctPriorities(Surviving([], ops))
    ensures Engine([], ops) == Engine([], ops')
    ensures Evaluate(Engine([], ops), answers, d) == Evaluate(Engine([], ops'), answers, d)
  {
    HigherFirstIsPreorder();
    EngineSortsSurvivors([], ops);
    EngineSortsSurvivors([], ops');
    SortSorts(HigherFirst, Surviving([], ops));
    SortSorts(HigherFirst, Surviving([], ops'));
    SortMembers(HigherFirst, Surviving([], ops));
    SortedIsUnique(Sort(HigherFirst, Surviving([], ops)), Sort(HigherFirst, Surviving([], ops')));
  }

  // With equal priorities the order does matter: one allows and one denies.
  lemma EqualPrioritiesDependOnOrder(a: Policy, b: Policy, d: DefaultDecision)
    requires a.id != b.id && a.priority == b.priority
    ensures exists answers: Answers ::
              Evaluate(Engine([], [Add(a), Add(b)]), answers, d) != Evaluate(Engine([], [Add(b), Add(a)]), answers, d)
  {
    var answers: Answers := p => if p == a then Ok(Allow) else Ok(Deny("no"));
    OrderOfTwo(a, b);
    OrderOfTwo(b, a);
    assert Evaluate([a, b], answers, d) == Ok(Allowed);
    assert Evaluate([b, a], answers, d) == Ok(Denied(b.id, "no"));
  }

  // ---- Exactly when the order of registering does not matter ----

  // The history leaves these policies, in whatever order.
  ghost predicate Leaves(ops: seq<Op>, s: seq<Policy>) {
    multiset(Surviving([], ops)) == multiset(s)
  }

  ghost predicate DecideAlike(ops: seq<Op>, ops': seq<Op>, d: DefaultDecision) {
    forall answers: Answers :: Evaluate(Engine([], ops), answers, d) == Evaluate(Engine([], ops'), answers, d)
  }

  function Adds(s: seq<Policy>): seq<Op> {
    if s == [] then [] else [Add(s[0])] + Adds(s[1..])
  }

  lemma AddSurvives(history: seq<Policy>, s: seq<Policy>)
    requires s != []
    ensures Surviving(history, Adds(s)) == Surviving(history + [s[0]], Adds(s[1..]))
  {
    hide Filter;
    assert Adds(s)[0] == Add(s[0]) && Adds(s)[1..] == Adds(s[1..]);
  }

  lemma {:induction false} AddsSurvive(history: seq<Policy>, s: seq<Policy>)
    ensures Surviving(history, Adds(s)) == history + s
    decreases |s|
  {
    hide Filter;
    if s == [] {
      assert history + s == history;
    } else {
      AddSurvives(history, s);
      hide *;
      AddsSurvive(history + [s[0]], s[1..]);
      assert history + s == history + [s[0]] + s[1..];
    }
  }

  function Opinionated(answers: Answers): Policy -> bool {
    p => !Abstains(answers, p)
  }

  lemma {:induction false} EvaluateSkipsAbstainers(list: seq<Policy>, answers: Answers, d: DefaultDecision)
    ensures Evaluate(list, answers, d) == Evaluate(Filter(Opinionated(answers), list), answers, d)
  {
    if list != [] {
      EvaluateSkipsAbstainers(list[1..], answers, d);
      if Opinionated(answers)(list[0]) {
        assert Filter(Opinionated(answers), list)[1..] == Filter(Opinionated(answers), list[1..]);
      }
    }
  }

  lemma LevelIsSorted(s: seq<Policy>)
    requires forall p, q | p in s && q in s :: p.priority == q.priority
    ensures Sort(HigherFirst, s) == s
  {
    HigherFirstIsPreorder();
    assert SortedBy(HigherFirst, s);
    SortOfSorted(HigherFirst, s);
  }

  // One of `a` and `b` allows, the other denies, and everybody else abstains.
  function TwoVoices(a: Policy, b: Policy): Answers {
    p => if p == a then Ok(Allow) else if p == b then Ok(Deny("no")) else Ok(Abstain)
  }

  // Of two policies of equal priority the one registered first speaks first.
  lemma FirstOfEqualsDecides(a: Policy, b: Policy, rest: seq<Policy>, first: Policy, second: Policy, d: DefaultDecision)
    requires a != b && a.priority == b.priority && {first, second} == {a, b}
    ensures Evaluate(Engine([], Adds([first, second] + rest)), TwoVoices(a, b), d)
         == Ok(if first == a then Allowed else Denied(b.id, "no"))
  {
    var s := [first, second] + rest;
    var answers := TwoVoices(a, b);
    var voices := Filter(Opinionated(answers), s);
    HigherFirstIsPreorder();
    EngineSortsSurvivors([], Adds(s));
    AddsSurvive([], s);
    assert [] + s == s;
    EvaluateSkipsAbstainers(Sort(HigherFirst, s), answers, d);
    SortFilter(HigherFirst, Opinionated(answers), s);
    LevelIsSorted(voices);
    FirstVoice(a, b, rest, first, second);
    hide Sort, Filter, Engine, Adds, TotalPreorder, Opinionated, HigherFirst;
  }

  lemma FirstVoice(a: Policy, b: Policy, rest: seq<Policy>, first: Policy, second: Policy)
    requires {first, second} == {a, b}
    ensures var voices := Filter(Opinionated(TwoVoices(a, b)), [first, second] + rest);
            voices != [] && voices[0] == first && first in {a, b}
  {
    assert first in {a, b};
    assert ([first, second] + rest)[0] == first && Opinionated(TwoVoices(a, b))(first);
  }

  lemma WithoutOne(s: seq<Policy>, p: Policy) returns (rest: seq<Policy>)
    requires p in s
    ensures multiset(s) == multiset{p} + multiset(rest)
    ensures forall q | q in s && q != p :: q in rest
  {
    var i :| 0 <= i < |s| && s[i] == p;
    rest := s[..i] + s[i + 1..];
    assert s == s[..i] + [p] + s[i + 1..];
  }

  // All histories that leave the same policies decide alike, for all answers, exactly when the
  // surviving priorities are distinct.
  lemma OrderIsIrrelevantIff(s: seq<Policy>, d: DefaultDecision)
    ensures (forall ops, ops' | Leaves(ops, s) && Leaves(ops', s) :: DecideAlike(ops, ops', d)) <==> DistinctPriorities(s)
  {
    if DistinctPriorities(s) {
      forall ops, ops' | Leaves(ops, s) && Leaves(ops', s) ensures DecideAlike(ops, ops', d) {
        DistinctSurvivors(ops, s);
        forall answers: Answers ensures Evaluate(Engine([], ops), answers, d) == Evaluate(Engine([], ops'), answers, d) {
          RegistrationOrderIsIrrelevant(ops, ops', answers, d);
        }
      }
    } else {
      var a, b :| a in s && b in s && a.priority == b.priority && a != b;
      var others := WithoutOne(s, a);
      var rest := WithoutOne(others, b);
      TwoHistories(s, a, b, rest);
      FirstOfEqualsDecides(a, b, rest, a, b, d);
      FirstOfEqualsDecides(a, b, rest, b, a, d);
      assert !DecideAlike(Adds([a, b] + rest), Adds([b, a] + rest), d);
    }
  }

  lemma DistinctSurvivors(ops: seq<Op>, s: seq<Policy>)
    requires Leaves(ops, s) && DistinctPriorities(s)
    ensures DistinctPriorities(Surviving([], ops))
  {
    forall p | p in Surviving([], ops) ensures p in s {
      assert p in multiset(Surviving([], ops));
    }
  }

  lemma TwoHistories(s: seq<Policy>, a: Policy, b: Policy, rest: seq<Policy>)
    requires multiset(s) == multiset{a} + (multiset{b} + multiset(rest))
    ensures Leaves(Adds([a, b] + rest), s) && Leaves(Adds([b, a] + rest), s)
  {
    AddsSurvive([], [a, b] + rest);
    AddsSurvive([], [b, a] + rest);
    assert [] + ([a, b] + rest) == [a] + ([b] + rest) && [] + ([b, a] + rest) == [b] + ([a] + rest);
  }

  lemma OrderOfTwo(a: Policy, b: Policy)
    requires a.priority == b.priority
    ensures Engine([], [Add(a), Add(b)]) == [a, b]
  {
    var none: seq<Policy> := [];
    assert none + [a] == [a] && [a][1..] == none && [b][1..] == none;
    assert Sort(HigherFirst, [a]) == [a] && Sort(HigherFirst, [b]) == [b];
    assert [a] + [b] == [a, b] && [a, b][1..] == [b];
    assert Register(none, a) == [a] && Register([a], b) == [a, b];
    assert [Add(a), Add(b)][1..] == [Add(b)] && [Add(b)][1..] == [];
    assert Engine([a], [Add(b)]) == Engine([a, b], []);
  }

  // ---- Decisions told from the history ----

  // The surviving registrations are those that no later removal names.
  lemma {:induction false} SurvivorsByHistory(history: seq<Policy>, ops: seq<Op>, p: Policy)
    ensures p in Surviving(history, ops) <==>
              || (p in history && forall j | 0 <= j < |ops| :: ops[j] != Drop(p.id))
              || exists i | 0 <= i < |ops| :: ops[i] == Add(p) && forall j | i < j < |ops| :: ops[j] != Drop(p.id)
    decreases |ops|
  {
    if ops != [] {
      var (o, rest) := (ops[0], ops[1..]);
      assert ops == [o] + rest;
      var next := match o case Add(q) => history + [q] case Drop(id) => Filter(Keep(id), history);
      SurvivorsByHistory(next, rest, p);
      if i :| 0 <= i < |rest| && rest[i] == Add(p) && forall j | i < j < |rest| :: rest[j] != Drop(p.id) {
        assert ops[i + 1] == Add(p) && forall j | i + 1 < j < |ops| :: ops[j] == rest[j - 1];
      }
      if i :| 0 <= i < |ops| && ops[i] == Add(p) && forall j | i < j < |ops| :: ops[j] != Drop(p.id) {
        assert i > 0 ==> rest[i - 1] == Add(p);
        assert forall j | i - 1 < j < |rest| :: rest[j] == ops[j + 1];
      }
      assert (forall j | 0 <= j < |ops| :: ops[j] != Drop(p.id)) <==>
               o != Drop(p.id) && forall j | 0 <= j < |rest| :: rest[j] != Drop(p.id) by {
        assert forall j | 0 <= j < |rest| :: rest[j] == ops[j + 1];
      }
    }
  }

  // Nobody registered has a higher priority, and nobody registered earlier has the same one.
  predicate IsForemost(s: seq<Policy>, k: nat)
    requires k < |s|
  {
    forall j | 0 <= j < |s| :: s[j].priority <= s[k].priority && (j < k ==> s[j].priority != s[k].priority)
  }

  lemma {:induction false} ForemostSortsFirst(s: seq<Policy>) returns (k: nat)
    requires s != []
    ensures k < |s| && IsForemost(s, k) && Sort(HigherFirst, s) != [] && Sort(HigherFirst, s)[0] == s[k]
  {
    if |s| == 1 {
      k := 0;
      assert s[1..] == [];
    } else {
      var m := ForemostSortsFirst(s[1..]);
      k := if s[0].priority >= s[m + 1].priority then 0 else m + 1;
      assert forall j | 0 < j < |s| :: s[j] == s[1..][j - 1];
    }
  }

  predicate Speaks(answers: Answers, p: Policy) {
    answers(p) != Ok(Abstain)
  }

  function Speakers(answers: Answers): Policy -> bool {
    p => Speaks(answers, p)
  }

  lemma {:induction false} OnlySpeakersDecide(list: seq<Policy>, answers: Answers, d: DefaultDecision)
    ensures Evaluate(list, answers, d) == Evaluate(Filter(Speakers(answers), list), answers, d)
  {
    if list != [] {
      OnlySpeakersDecide(list[1..], answers, d);
    }
  }

  // What a policy that speaks up decides.
  function Verdict(p: Policy, answers: Answers): Result<PolicyDecision, string>
    requires Speaks(answers, p)
  {
    match answers(p)
    case Err(e) => Err(e)
    case Ok(Allow) => Ok(Allowed)
    case Ok(Deny(reason)) => Ok(Denied(p.id, reason))
  }

  // After any history, of the surviving policies that do not abstain the one of the highest priority
  // decides, and of several the one registered first; if all abstain, the default does.
  lemma DecisionByHistory(ops: seq<Op>, answers: Answers, d: DefaultDecision)
    ensures var speaking := Filter(Speakers(answers), Surviving([], ops));
            var r := Evaluate(Engine([], ops), answers, d);
            && (forall p :: p in speaking <==> p in Surviving([], ops) && answers(p) != Ok(Abstain))
            && if speaking == [] then
                 r == Ok(if d == DefaultAllow then Allowed else Denied(DEFAULT_DENY_POLICY, DEFAULT_DENY_REASON))
               else exists k :: 0 <= k < |speaking| && IsForemost(speaking, k) && r == Verdict(speaking[k], answers)
  {
    var all := Surviving([], ops);
    var speaking := Filter(Speakers(answers), all);
    hide Filter, Verdict, IsForemost;
    HigherFirstIsPreorder();
    EngineSortsSurvivors([], ops);
    assert Sort(HigherFirst, []) == [];
    OnlySpeakersDecide(Sort(HigherFirst, all), answers, d);
    SortFilter(HigherFirst, Speakers(answers), all);
    if speaking != [] {
      var k := ForemostSortsFirst(speaking);
      assert speaking[k] in speaking;
      SpeakerDecides(Sort(HigherFirst, speaking), answers, d);
    }
  }

  lemma SpeakerDecides(list: seq<Policy>, answers: Answers, d: DefaultDecision)
    requires list != [] && Speaks(answers, list[0])
    ensures Evaluate(list, answers, d) == Verdict(list[0], answers)
  {
  }

  // Enforcing lets through exactly what is allowed, and tells a denial from an evaluation error.
  lemma EnforceIff(list: seq<Policy>, answers: Answers, d: DefaultDecision)
    ensures var (decision, r) := (Evaluate(list, answers, d), Enforce(list, answers, d));
            && (r == Ok(()) <==> decision == Ok(Allowed))
            && (r == Err(None) <==> decision.Ok? && decision.value.Denied?)
            && forall e :: r == Err(Some(e)) <==> decision == Err(e)
  {
  }
}

/** The mutable engine. */
module PolicyEngines {
  import opened Wrappers
  import opened StableSort
  import opened Policies

  class PolicyEngine {
    var policies: seq<Policy>
    const defaultDecision: DefaultDecision

    constructor (defaultDecision: DefaultDecision)
      ensures policies == [] && this.defaultDecision == defaultDecision
    {
      policies := [];
      this.defaultDecision := defaultDecision;
    }

    method Register(p: Policy)
      modifies this`policies
      ensures policies == Policies.Register(old(policies), p)
    {
      policies := policies + [p];
      policies := Sort(HigherFirst, policies);
    }

    method Unregister(id: PolicyId)
      modifies this`policies
      ensures policies == Policies.Unregister(old(policies), id)
    {
      policies := Filter(Keep(id), policies);
    }

    method Evaluate(answers: Answers) returns (r: Result<PolicyDecision, string>)
      ensures r == Policies.Evaluate(policies, answers, defaultDecision)
    {
      for i := 0 to |policies|
        invariant Policies.Evaluate(policies[i..], answers, defaultDecision)
               == Policies.Evaluate(policies, answers, defaultDecision)
      {
        assert policies[i..][1..] == policies[i + 1..];
        match answers(policies[i]) {
          case Err(e) => return Err(e);
          case Ok(Abstain) =>
          case Ok(Allow) => return Ok(Allowed);
          case Ok(Deny(reason)) => return Ok(Denied(policies[i].id, reason));
        }
      }
      return Ok(Default(defaultDecision));
    }

    method Enforce(answers: Answers) returns (r: Result<(), Option<string>>)
      ensures r == Policies.Enforce(policies, answers, defaultDecision)
    {
      var decision := Evaluate(answers);
      match decision {
        case Err(e) => return Err(Some(e));
        case Ok(Allowed) => return Ok(());
        case Ok(Denied(_, _)) => return Err(None);
      }
    }
  }
}
