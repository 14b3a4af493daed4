/** Capability matching and agent choice (swarm-orchestrator/scheduler.rs). */
module Scheduling {
  import opened Wrappers
  import opened Core
  import opened Capabilities
  import opened Tasks
  import opened Registry
  import opened StableSort
  import opened Quotients

  datatype SchedulingDecision =
    | Assigned(task: TaskId, agent: AgentId)
    | NoCapableAgent(task: TaskId)

  function LowerChar(c: char): char {
    if 'A' <= c <= 'Z' then (c as int + 32) as char else c
  }

  function Lower(s: string): string {
    seq(|s|, i requires 0 <= i < |s| => LowerChar(s[i]))
  }

  predicate CanTake(r: AgentRecord, task: Task) {
    r.status.IsAvailable() && SatisfiesAll(r.descriptor.capabilities, task.spec.requiredCapabilities)
  }

  predicate RoleMatches(r: AgentRecord, hint: string) {
    r.descriptor.roleId.Some? && Lower(r.descriptor.roleId.value) == Lower(hint)
  }

  predicate FewerCompleted(a: AgentRecord, b: AgentRecord) {
    a.tasksCompleted <= b.tasksCompleted
  }

  // Role matches first, then fewer completed tasks.
  predicate AffinityFirst(hint: string, a: AgentRecord, b: AgentRecord) {
    if RoleMatches(a, hint) != RoleMatches(b, hint) then RoleMatches(a, hint) else FewerCompleted(a, b)
  }

  predicate Prefers(hint: Option<string>, a: AgentRecord, b: AgentRecord) {
    match hint
    case Some(h) => AffinityFirst(h, a, b)
    case None => FewerCompleted(a, b)
  }

  function Preference(hint: Option<string>): (AgentRecord, AgentRecord) -> bool {
    (a, b) => Prefers(hint, a, b)
  }

  function Candidates(records: seq<AgentRecord>, task: Task): (c: seq<AgentRecord>)
    ensures forall r :: r in c <==> r in records && CanTake(r, task)
  {
    if records == [] then []
    else if CanTake(records[0], task) then [records[0]] + Candidates(records[1..], task)
    else Candidates(records[1..], task)
  }

  function Schedule(records: seq<AgentRecord>, task: Task): SchedulingDecision {
    var ranked := Sort(Preference(task.spec.roleHint), Candidates(records, task));
    if ranked == [] then NoCapableAgent(task.id) else Assigned(task.id, ranked[0].descriptor.id)
  }

  // Record ids match their keys.
  ghost predicate KeyedById(g: Agents) {
    forall a | a in g :: g[a].descriptor.id == a
  }

  lemma PreferenceIsTotalPreorder(hint: Option<string>)
    ensures TotalPreorder(Preference(hint))
  {
  }

  // The chosen agent is available, capable, and not beaten by any other such agent;
  // nobody is chosen only if nobody is available and capable.
  ghost predicate BestChoice(g: Agents, task: Task, d: SchedulingDecision) {
    match d
    case NoCapableAgent(t) => t == task.id && forall a | a in g :: !CanTake(g[a], task)
    case Assigned(t, a) =>
      && t == task.id && a in g && CanTake(g[a], task)
      && forall b | b in g && CanTake(g[b], task) :: Prefers(task.spec.roleHint, g[a], g[b])
  }

  lemma CandidatesCover(g: Agents, order: seq<AgentId>, task: Task)
    requires Enumerates(order, g.Keys)
    ensures forall a | a in g && CanTake(g[a], task) :: g[a] in Candidates(Records(g, order), task)
    ensures forall r | r in Candidates(Records(g, order), task) :: CanTake(r, task) && exists a :: a in g && g[a] == r
  {
    hide CanTake, Candidates, Records;
    RecordsCover(g, order);
  }

  lemma ScheduleChoosesBest(g: Agents, order: seq<AgentId>, task: Task)
    requires KeyedById(g) && Enumerates(order, g.Keys)
    ensures BestChoice(g, task, Schedule(Records(g, order), task))
  {
    assert forall a | a in order :: a in g;
    hide Sort, TotalPreorder, Candidates, CanTake, Enumerates, Prefers;
    var candidates := Candidates(Records(g, order), task);
    var le := Preference(task.spec.roleHint);
    CandidatesCover(g, order, task);
    PreferenceIsTotalPreorder(task.spec.roleHint);
    SortMembers(le, candidates);
    if candidates != [] {
      SortPutsLeastFirst(le, candidates);
    }
  }

  lemma {:induction false} OrderOf(ids: set<AgentId>) returns (order: seq<AgentId>)
    ensures Enumerates(order, ids)
    decreases |ids|
  {
    if ids == {} {
      order := [];
    } else {
      var a :| a in ids;
      var rest := OrderOf(ids - {a});
      order := [a] + rest;
    }
  }

  // Sorting leaves an element in front that is in front already and beaten by nobody.
  lemma FrontRunnerStays(le: (AgentRecord, AgentRecord) -> bool, s: seq<AgentRecord>)
    requires TotalPreorder(le) && s != [] && forall r | r in s :: le(s[0], r)
    ensures Sort(le, s) != [] && Sort(le, s)[0] == s[0]
  {
    SortMembers(le, s[1..]);
    if Sort(le, s[1..]) != [] {
      assert Sort(le, s[1..])[0] in Sort(le, s[1..]);
    }
  }

  // Conversely, every best choice is what the scheduler decides for some order of the registry.
  lemma BestChoiceIsScheduled(g: Agents, task: Task, d: SchedulingDecision) returns (order: seq<AgentId>)
    requires KeyedById(g) && BestChoice(g, task, d)
    ensures Enumerates(order, g.Keys) && Schedule(Records(g, order), task) == d
  {
    if d.NoCapableAgent? {
      order := OrderOf(g.Keys);
      NobodyIsCandidate(g, order, task);
    } else {
      var others := OrderOf(g.Keys - {d.agent});
      order := [d.agent] + others;
      ChosenIsCandidate(g, order, task, d.agent);
    }
  }

  lemma NobodyIsCandidate(g: Agents, order: seq<AgentId>, task: Task)
    requires Enumerates(order, g.Keys) && forall a | a in g :: !CanTake(g[a], task)
    ensures Candidates(Records(g, order), task) == []
  {
    hide CanTake, Candidates, Enumerates;
    EnumeratesOnly(order, g.Keys);
    var candidates := Candidates(Records(g, order), task);
    CandidatesCover(g, order, task);
    if candidates != [] {
      NonemptyHas(candidates);
    }
  }

  lemma NonemptyHas<T>(s: seq<T>)
    requires s != []
    ensures exists x :: x in s
  {
    assert s[0] in s;
  }

  lemma EnumeratesOnly(order: seq<AgentId>, ids: set<AgentId>)
    requires Enumerates(order, ids)
    ensures forall a | a in order :: a in ids
  {
  }

  lemma ChosenIsCandidate(g: Agents, order: seq<AgentId>, task: Task, a: AgentId)
    requires KeyedById(g) && Enumerates(order, g.Keys) && order != [] && order[0] == a
    requires BestChoice(g, task, Assigned(task.id, a))
    ensures Schedule(Records(g, order), task) == Assigned(task.id, a)
  {
    hide CanTake, Enumerates, Prefers, TotalPreorder, Sort;
    EnumeratesOnly(order, g.Keys);
    var candidates := Candidates(Records(g, order), task);
    assert candidates[0] == g[a];
    CandidatesCover(g, order, task);
    var le := Preference(task.spec.roleHint);
    PreferenceIsTotalPreorder(task.spec.roleHint);
    forall r | r in candidates ensures le(candidates[0], r) {
      var b :| b in g && g[b] == r;
    }
    FrontRunnerStays(le, candidates);
  }

  // The scheduler can come to a decision over a registry.
  ghost predicate CanDecide(g: Agents, task: Task, d: SchedulingDecision) {
    exists order :: Enumerates(order, g.Keys) && (forall a | a in order :: a in g) && Schedule(Records(g, order), task) == d
  }

  // Over all iteration orders of the registry, the best choices are exactly the possible decisions.
  lemma CanDecideIff(g: Agents, task: Task, d: SchedulingDecision)
    requires KeyedById(g)
    ensures CanDecide(g, task, d) <==> BestChoice(g, task, d)
  {
    hide BestChoice, Schedule, Enumerates;
    if BestChoice(g, task, d) {
      var order := BestChoiceIsScheduled(g, task, d);
      EnumeratesOnly(order, g.Keys);
    }
    forall order | Enumerates(order, g.Keys) && (forall a | a in order :: a in g) && Schedule(Records(g, order), task) == d
      ensures BestChoice(g, task, d)
    {
      ScheduleChoosesBest(g, order, task);
    }
  }

  // ---- What a decision means for the records ----

  predicate SameLetter(c: char, d: char) {
    || c == d
    || ('A' <= c <= 'Z' && 'a' <= d <= 'z' && c - 'A' == d - 'a')
    || ('A' <= d <= 'Z' && 'a' <= c <= 'z' && d - 'A' == c - 'a')
  }

  predicate SameIgnoringCase(s: string, t: string) {
    |s| == |t| && forall i | 0 <= i < |s| :: SameLetter(s[i], t[i])
  }

  predicate HasRole(r: AgentRecord, role: string) {
    r.descriptor.roleId.Some? && SameIgnoringCase(r.descriptor.roleId.value, role)
  }

  // Ready, and for every requirement the owner of a capability of that name, and of that very version
  // where one is asked for.
  predicate Able(r: AgentRecord, task: Task) {
    && r.status == AgentStatus.Ready
    && forall req | req in task.spec.requiredCapabilities ::
         exists cap | cap in r.descriptor.capabilities ::
           cap.name == req.name && (req.version == None || cap.version == req.version)
  }

  lemma AbleIff(r: AgentRecord, task: Task)
    ensures CanTake(r, task) <==> Able(r, task)
  {
    var (owned, required) := (r.descriptor.capabilities, task.spec.requiredCapabilities);
    if SatisfiesAll(owned, required) {
      forall req | req in required
        ensures exists cap | cap in owned :: cap.name == req.name && (req.version == None || cap.version == req.version)
      {
        var cap :| cap in owned && cap.Satisfies(req);
      }
    }
    if Able(r, task) {
      forall req | req in required ensures exists cap | cap in owned :: cap.Satisfies(req) {
        var cap :| cap in owned && cap.name == req.name && (req.version == None || cap.version == req.version);
        assert cap.Satisfies(req);
      }
    }
  }

  lemma LowerIff(s: string, t: string)
    ensures Lower(s) == Lower(t) <==> SameIgnoringCase(s, t)
  {
    if |s| == |t| {
      forall i | 0 <= i < |s| ensures Lower(s)[i] == Lower(t)[i] <==> SameLetter(s[i], t[i]) {
      }
    }
  }

  // An agent is assigned exactly when some agent is able; whoever is assigned is.
  lemma AssignedIsAble(g: Agents, order: seq<AgentId>, task: Task)
    requires KeyedById(g) && Enumerates(order, g.Keys) && forall a | a in order :: a in g
    ensures var d := Schedule(Records(g, order), task);
            && d.task == task.id
            && (d.Assigned? ==> d.agent in g && Able(g[d.agent], task))
            && (d.Assigned? <==> exists b :: b in g && Able(g[b], task))
  {
    ScheduleChoosesBest(g, order, task);
    hide Schedule, CanTake, Able, Prefers, Enumerates;
    forall b | b in g ensures CanTake(g[b], task) <==> Able(g[b], task) {
      AbleIff(g[b], task);
    }
  }

  // An agent that owns nothing of a required name, or nothing of the version named with it, is never
  // assigned, not even as the only one there is.
  lemma LackingIsNeverAssigned(g: Agents, order: seq<AgentId>, task: Task, b: AgentId, req: Capability)
    requires KeyedById(g) && Enumerates(order, g.Keys) && forall a | a in order :: a in g
    requires b in g && req in task.spec.requiredCapabilities
    requires forall cap | cap in g[b].descriptor.capabilities ::
               cap.name != req.name || (req.version.Some? && cap.version != req.version)
    ensures Schedule(Records(g, order), task) != Assigned(task.id, b)
  {
    AssignedIsAble(g, order, task);
    hide Schedule, Enumerates;
  }

  // Of all able agents the chosen one has the hinted role if anybody has, and nobody of the same
  // standing has completed fewer tasks.
  lemma AssignedIsPreferred(g: Agents, order: seq<AgentId>, task: Task, b: AgentId)
    requires KeyedById(g) && Enumerates(order, g.Keys) && forall a | a in order :: a in g
    requires b in g && Able(g[b], task)
    ensures var d := Schedule(Records(g, order), task);
            && d.Assigned? && d.agent in g
            && match task.spec.roleHint
               case None => g[d.agent].tasksCompleted <= g[b].tasksCompleted
               case Some(role) =>
                 && (HasRole(g[b], role) ==> HasRole(g[d.agent], role))
                 && (HasRole(g[b], role) == HasRole(g[d.agent], role) ==> g[d.agent].tasksCompleted <= g[b].tasksCompleted)
  {
    AssignedIsAble(g, order, task);
    ScheduleChoosesBest(g, order, task);
    AbleIff(g[b], task);
    hide Schedule, CanTake, Able, Enumerates, Lower, SameIgnoringCase;
    var d := Schedule(Records(g, order), task);
    if task.spec.roleHint.Some? {
      var role := task.spec.roleHint.value;
      forall r: AgentRecord ensures RoleMatches(r, role) <==> HasRole(r, role) {
        if r.descriptor.roleId.Some? {
          LowerIff(r.descriptor.roleId.value, role);
        }
      }
    }
  }

  // ---- Load balance ----

  datatype Job = Job(task: Task, order: seq<AgentId>, at: Timestamp)

  // What the registry sees of one task that is scheduled, run and completed.
  function CompleteOne(g: Agents, task: TaskId, a: AgentId, now: Timestamp): (g': Agents)
    ensures g'.Keys == g.Keys
  {
    RecordTaskCompleted(UpdateStatus(UpdateStatus(g, a, Busy(task), now).0, a, AgentStatus.Ready, now).0, a)
  }

  // Dispatch and complete the jobs one after another.
  ghost function RunJobs(g: Agents, jobs: seq<Job>): (g': Agents)
    ensures g'.Keys == g.Keys
    requires forall job | job in jobs :: Enumerates(job.order, g.Keys)
    decreases |jobs|
  {
    if jobs == [] then g
    else
      assert Enumerates(jobs[0].order, g.Keys) by { assert jobs[0] in jobs; }
      match Schedule(Records(g, jobs[0].order), jobs[0].task)
      case NoCapableAgent(_) => RunJobs(g, jobs[1..])
      case Assigned(t, a) =>
        RunJobs(CompleteOne(g, t, a, jobs[0].at), jobs[1..])
  }

  // No role singles out any agent for this job, and all are able to take it.
  ghost predicate EqualFor(g: Agents, job: Job) {
    && Enumerates(job.order, g.Keys)
    && forall a | a in g ::
         && SatisfiesAll(g[a].descriptor.capabilities, job.task.spec.requiredCapabilities)
         && (job.task.spec.roleHint.Some? ==> !RoleMatches(g[a], job.task.spec.roleHint.value))
  }

  ghost predicate AllReady(g: Agents) {
    KeyedById(g) && forall a | a in g :: g[a].status == AgentStatus.Ready
  }

  ghost predicate Interchangeable(g: Agents, jobs: seq<Job>) {
    && AllReady(g)
    && (forall job | job in jobs :: EqualFor(g, job))
  }

  ghost function AtLevel(g: Agents, n: nat): set<AgentId> {
    set a | a in g && g[a].tasksCompleted == n
  }

  // Exactly `extra` agents have completed `level + 1` tasks, all others `level`.
  ghost predicate Levelled(g: Agents, level: nat, extra: nat) {
    && (forall a | a in g :: g[a].tasksCompleted == level || g[a].tasksCompleted == level + 1)
    && |AtLevel(g, level + 1)| == extra < |g.Keys|
  }

  // A best choice among interchangeable agents is an agent of the lower level.
  lemma BestIsLow(g: Agents, job: Job, d: SchedulingDecision, level: nat, extra: nat)
    requires AllReady(g) && EqualFor(g, job) && Levelled(g, level, extra) && BestChoice(g, job.task, d)
    ensures d.Assigned? && d.task == job.task.id && d.agent in g && g[d.agent].tasksCompleted == level
  {
    var high := AtLevel(g, level + 1);
    assert high <= g.Keys;
    assert |g.Keys - high| == |g.Keys| - |high|;
    var low :| low in g.Keys - high;
    assert CanTake(g[low], job.task);
  }

  lemma CompleteOneLevels(g: Agents, t: TaskId, a: AgentId, now: Timestamp, level: nat, extra: nat)
    requires Levelled(g, level, extra) && a in g && g[a].tasksCompleted == level
    ensures var g' := CompleteOne(g, t, a, now);
            if extra + 1 < |g.Keys| then Levelled(g', level, extra + 1) else Levelled(g', level + 1, 0)
  {
    var g' := CompleteOne(g, t, a, now);
    var high := AtLevel(g', level + 1);
    assert high == AtLevel(g, level + 1) + {a};
    if extra + 1 == |g.Keys| {
      SubsetOfEqualSize(high, g.Keys);
      assert forall b | b in g' :: b in high;
      assert AtLevel(g', level + 2) == {};
    }
  }

  lemma CompleteOneInterchangeable(g: Agents, jobs: seq<Job>, t: TaskId, a: AgentId, now: Timestamp)
    requires Interchangeable(g, jobs) && a in g
    ensures Interchangeable(CompleteOne(g, t, a, now), jobs)
  {
    forall job | job in jobs ensures EqualFor(CompleteOne(g, t, a, now), job) {
      assert EqualFor(g, job);
    }
  }

  lemma SubsetOfEqualSize(s: set<AgentId>, t: set<AgentId>)
    requires s <= t && |s| == |t|
    ensures s == t
  {
    assert |t - s| == |t| - |s|;
  }

  lemma {:induction false} RunJobsLevels(g: Agents, jobs: seq<Job>, w: nat, level: nat, extra: nat)
      returns (l: nat, e: nat)
    requires Interchangeable(g, jobs) && Levelled(g, level, extra) && w == |g.Keys|
    ensures l * w + e == level * w + extra + |jobs| && Levelled(RunJobs(g, jobs), l, e)
    decreases |jobs|
  {
    if jobs == [] {
      l, e := level, extra;
    } else {
      var job := jobs[0];
      assert EqualFor(g, job) by { assert job in jobs; }
      var d := Schedule(Records(g, job.order), job.task);
      ScheduleChoosesBest(g, job.order, job.task);
      BestIsLow(g, job, d, level, extra);
      var a := d.agent;
      var g' := CompleteOne(g, job.task.id, a, job.at);
      CompleteOneLevels(g, job.task.id, a, job.at, level, extra);
      CompleteOneInterchangeable(g, jobs[1..], job.task.id, a, job.at);
      if extra + 1 < w {
        l, e := RunJobsLevels(g', jobs[1..], w, level, extra + 1);
      } else {
        l, e := RunJobsLevels(g', jobs[1..], w, level + 1, 0);
        assert (level + 1) * w == level * w + w;
      }
    }
  }

  // From zero counters, n completed tasks leave n % w agents with n / w + 1 and the rest with n / w.
  lemma LeastLoadedIsBalanced(g: Agents, jobs: seq<Job>, w: nat) returns (floor: nat, extra: nat)
    requires Interchangeable(g, jobs) && w == |g.Keys| && w > 0
    requires forall a | a in g :: g[a].tasksCompleted == 0
    requires forall job | job in jobs :: Enumerates(job.order, g.Keys)
    ensures floor == |jobs| / w && extra == |jobs| % w
    ensures Levelled(RunJobs(g, jobs), floor, extra)
  {
    assert AtLevel(g, 1) == {};
    floor, extra := RunJobsLevels(g, jobs, w, 0, 0);
    LevelledIsProper(RunJobs(g, jobs), g.Keys, floor, extra);
    QuotientIs(|jobs|, w, floor, extra);
  }

  lemma LevelledIsProper(g: Agents, ids: set<AgentId>, level: nat, extra: nat)
    requires Levelled(g, level, extra) && g.Keys == ids
    ensures extra < |ids|
  {
  }
}

/** The scheduler object, backed by the shared registry. */
module Schedulers {
  import opened Wrappers
  import opened Core
  import opened Tasks
  import opened Registry
  import opened Scheduling
  import opened StableSort
  import opened AgentRegistries

  class Scheduler {
    const registry: AgentRegistry

    constructor (registry: AgentRegistry)
      ensures this.registry == registry
    {
      this.registry := registry;
    }

    method Schedule(task: Task) returns (decision: SchedulingDecision, ghost order: seq<AgentId>)
      ensures Enumerates(order, registry.agents.Keys)
      ensures decision == Scheduling.Schedule(Records(registry.agents, order), task)
      ensures KeyedById(registry.agents) ==> BestChoice(registry.agents, task, decision)
    {
      hide BestChoice, KeyedById, CanTake, Prefers;
      var records;
      records, order := registry.AllAgents();
      if KeyedById(registry.agents) {
        ScheduleChoosesBest(registry.agents, order, task);
      }
      var candidates := CollectCandidates(records, task);
      if candidates == [] {
        return NoCapableAgent(task.id), order;
      }
      PreferenceIsTotalPreorder(task.spec.roleHint);
      SortPutsLeastFirst(Preference(task.spec.roleHint), candidates);
      candidates := Sort(Preference(task.spec.roleHint), candidates);
      return Assigned(task.id, candidates[0].descriptor.id), order;
    }

    static method CollectCandidates(records: seq<AgentRecord>, task: Task) returns (candidates: seq<AgentRecord>)
      ensures candidates == Candidates(records, task)
    {
      candidates := [];
      for i := 0 to |records|
        invariant candidates + Candidates(records[i..], task) == Candidates(records, task)
      {
        assert records[i..][1..] == records[i + 1..];
        if CanTake(records[i], task) {
          candidates := candidates + [records[i]];
        }
      }
    }
  }
}
