/** The concurrency bound of `Dispatchers` is tight: for every positive limit and every number of
    dispatchers some run from the very start reaches it. */
module DispatcherBound {
  import opened Wrappers
  import opened Core
  import opened Tasks
  import opened TaskQueues
  import opened Capabilities
  import opened Registry
  import opened Scheduling
  import O = Orchestration
  import opened Dispatchers

  // A further agent registers and becomes ready.
  function Hire(g: Agents, n: nat): Agents {
    g[AgentId(n) := NewRecord(AgentDescriptor(AgentId(n), "worker", {}, None, None), 0).(status := Ready)]
  }

  // Agent number `n` is the last one hired and the only one ready; the ones before hold all tasks
  // in flight.
  ghost predicate Team(tasks: O.TaskMap, agents: Agents, n: nat) {
    && KeyedById(agents) && AgentId(n) in agents && agents[AgentId(n)].status.Ready?
    && (forall a | a in agents :: a.uuid <= n && (agents[a].status.Ready? ==> a == AgentId(n)))
    && (forall id | id in tasks && tasks[id].status.Holder().Some? :: tasks[id].status.Holder().value.uuid < n)
  }

  // Anybody can take any queued task, and nobody is preferred for a role.
  ghost predicate Plain(q: Queue) {
    forall key | key in q.queue :: PlainTask(q.queue[key].task)
  }

  predicate PlainTask(t: Task) {
    t.spec.requiredCapabilities == {} && t.spec.roleHint.None?
  }

  // All dispatchers idle, so many plain tasks queued, and as many in flight as there are busy agents.
  ghost predicate AtRest(s: System, k: nat, limit: nat, queued: nat, inFlight: nat) {
    && Inv(s) && s.pcs == AllIdle(k) && s.maxConcurrent == limit
    && Team(s.tasks, s.agents, inFlight) && Plain(s.queue)
    && |s.queue.index.Keys| == queued && |O.InFlight(s.tasks)| == inFlight
  }

  // The first `n` submissions are in, and nothing else has happened to them.
  ghost predicate Submitted(s: System, k: nat, limit: nat, n: nat) {
    && AtRest(s, k, limit, n, 0) && s.storing == {}
    && forall id | id in s.tasks :: id.uuid < n
  }

  function NthTask(n: nat): Task {
    NewTask(TaskId(n), TaskSpec("task", "", {}, Normal, None, None), 0)
  }

  function Submission(n: nat): seq<Action> {
    [StoreSubmission(NthTask(n)), EnqueueSubmission(TaskId(n), 0)]
  }

  lemma QueuedAreKnown(s: System)
    requires Inv(s)
    ensures WellFormed(s.queue) && forall id | id in s.queue.index :: id in s.tasks
  {
  }

  lemma EnqueueAddsOne(q: Queue, t: Task)
    requires t.id !in q.index && t.status.Pending?
    ensures q.Enqueue(t, 0).0.index.Keys == q.index.Keys + {t.id}
    ensures |q.Enqueue(t, 0).0.index.Keys| == |q.index.Keys| + 1
    ensures Plain(q) && PlainTask(t) ==> Plain(q.Enqueue(t, 0).0)
  {
  }

  lemma PendingAdds(tasks: O.TaskMap, agents: Agents, n: nat, t: Task)
    requires Team(tasks, agents, n) && t.id !in tasks && t.status.Pending?
    ensures Team(tasks[t.id := t], agents, n) && O.InFlight(tasks[t.id := t]) == O.InFlight(tasks)
  {
    hide KeyedById;
    InFlightUpdate(tasks, t.id, t);
  }

  lemma SubmissionRuns(s: System, t: Task)
    requires t.id !in s.tasks && t.status.Pending? && t.id !in s.storing
    ensures Runs(s, [StoreSubmission(t), EnqueueSubmission(t.id, 0)])
    ensures After(s, [StoreSubmission(t), EnqueueSubmission(t.id, 0)])
         == s.(tasks := s.tasks[t.id := t], queue := s.queue.Enqueue(t, 0).0)
  {
    hide Runs, After, Queue.Enqueue;
    assert s.storing + {t.id} - {t.id} == s.storing;
    RunOfTwo(s, StoreSubmission(t), EnqueueSubmission(t.id, 0));
  }

  lemma SubmitOne(s: System, k: nat, limit: nat, n: nat)
    requires Submitted(s, k, limit, n)
    ensures Runs(s, Submission(n)) && Submitted(After(s, Submission(n)), k, limit, n + 1)
  {
    hide Inv, Runs, After, WellFormed, Plain, Team, O.InFlight, Queue.Enqueue;
    var t := NthTask(n);
    QueuedAreKnown(s);
    assert t.id !in s.tasks;
    SubmissionRuns(s, t);
    RunKeepsInv(s, Submission(n));
    EnqueueAddsOne(s.queue, t);
    PendingAdds(s.tasks, s.agents, 0, t);
  }

  lemma EmptyRun(s: System)
    ensures Runs(s, []) && After(s, []) == s
  {
  }

  lemma {:induction false} SubmitMany(s: System, k: nat, limit: nat, n: nat, more: nat) returns (actions: seq<Action>)
    requires Submitted(s, k, limit, n)
    ensures Runs(s, actions) && Submitted(After(s, actions), k, limit, n + more)
    decreases more
  {
    hide *;
    if more == 0 {
      actions := [];
      EmptyRun(s);
    } else {
      SubmitOne(s, k, limit, n);
      var s1 := After(s, Submission(n));
      var rest := SubmitMany(s1, k, limit, n + 1, more - 1);
      RunsAppend(s, Submission(n), rest);
      actions := Submission(n) + rest;
    }
  }

  lemma OnlyChoice(tasks: O.TaskMap, agents: Agents, n: nat, t: Task)
    requires Team(tasks, agents, n) && PlainTask(t)
    ensures BestChoice(agents, t, Assigned(t.id, AgentId(n)))
  {
    assert SatisfiesAll(agents[AgentId(n)].descriptor.capabilities, t.spec.requiredCapabilities);
  }

  lemma PlainContents(q: Queue)
    requires Plain(q)
    ensures forall t | t in Contents(q) :: PlainTask(t)
  {
    var keys := Drained(q.queue.Keys);
    forall t | t in Contents(q) ensures PlainTask(t) {
      var i :| 0 <= i < |Contents(q)| && Contents(q)[i] == t;
      assert keys[i] in q.queue;
    }
  }

  lemma RestAllows(s: System, k: nat, limit: nat, queued: nat, inFlight: nat, ds: seq<Dispatcher>)
    requires AtRest(s, k, limit, queued, inFlight) && inFlight < limit && |ds| <= queued
    requires forall i | 0 <= i < |ds| :: ds[i] < k
    requires forall i, j | 0 <= i < j < |ds| :: ds[i] != ds[j]
    ensures CanOvershoot(s, ds, AgentId(inFlight))
  {
    hide Inv, Contents, WellFormed, O.InFlight, Team, Plain, BestChoice, PlainTask, AllIdle;
    QueuedAreKnown(s);
    QueueSizes(s.queue);
    DrainAllIsContents(s.queue);
    PlainContents(s.queue);
    forall i | 0 <= i < |ds|
      ensures BestChoice(s.agents, Contents(s.queue)[i], Assigned(Contents(s.queue)[i].id, AgentId(inFlight)))
    {
      OnlyChoice(s.tasks, s.agents, inFlight, Contents(s.queue)[i]);
    }
  }

  // The dispatcher marks its agent busy, and the next agent is hired.
  function Wrap(s2: System, n: nat, id: TaskId): seq<Action> {
    [MarkBusy(0, 0), ChangeAgents(Hire(UpdateStatus(s2.agents, AgentId(n), Busy(id), 0).0, n + 1))]
  }

  lemma TeamGrows(s: System, s3: System, n: nat, id: TaskId)
    requires Team(s.tasks, s.agents, n) && id in s3.tasks && s3.tasks[id].status == Scheduled(AgentId(n))
    requires s3.tasks == s.tasks[id := s3.tasks[id]] && s3.agents == UpdateStatus(s.agents, AgentId(n), Busy(id), 0).0
    ensures Respects(s3, Hire(s3.agents, n + 1)) && Team(s3.tasks, Hire(s3.agents, n + 1), n + 1)
  {
  }

  lemma PlainRest(q: Queue, id: TaskId)
    requires Plain(q)
    ensures Plain(q.Remove(id).0)
  {
  }

  lemma WrapRuns(s2: System, n: nat, id: TaskId)
    requires 0 in s2.pcs && s2.pcs[0] == Committing(id, AgentId(n))
    requires Respects(s2.(agents := UpdateStatus(s2.agents, AgentId(n), Busy(id), 0).0, pcs := s2.pcs[0 := Idle]),
                      Hire(UpdateStatus(s2.agents, AgentId(n), Busy(id), 0).0, n + 1))
    ensures Runs(s2, Wrap(s2, n, id))
    ensures After(s2, Wrap(s2, n, id))
         == s2.(agents := Hire(UpdateStatus(s2.agents, AgentId(n), Busy(id), 0).0, n + 1), pcs := s2.pcs[0 := Idle])
  {
    hide Runs, After, UpdateStatus, Hire, Respects;
    var tail := Wrap(s2, n, id);
    RunOfTwo(s2, tail[0], tail[1]);
  }

  lemma BackToRest(s: System, s2: System, k: nat, limit: nat, queued: nat, n: nat, id: TaskId)
    requires AtRest(s, k, limit, queued, n) && k >= 1 && queued >= 1 && Inv(s2)
    requires s2.pcs == s.pcs[0 := Dequeued(id, AgentId(n))][0 := Committing(id, AgentId(n))]
    requires s2.maxConcurrent == s.maxConcurrent && s2.agents == s.agents
    requires id in s2.tasks && s2.tasks[id].status == Scheduled(AgentId(n)) && s2.tasks == s.tasks[id := s2.tasks[id]]
    requires s2.queue == s.queue.Remove(id).0 && |s2.queue.index.Keys| == queued - 1
    requires |O.InFlight(s2.tasks)| == n + 1
    ensures Runs(s2, Wrap(s2, n, id)) && AtRest(After(s2, Wrap(s2, n, id)), k, limit, queued - 1, n + 1)
  {
    hide Inv, Runs, After, O.InFlight, UpdateStatus, Hire, Team, Plain, Respects, Queue.Remove;
    var s3 := s2.(agents := UpdateStatus(s2.agents, AgentId(n), Busy(id), 0).0, pcs := s2.pcs[0 := Idle]);
    TeamGrows(s, s3, n, id);
    PlainRest(s.queue, id);
    WrapRuns(s2, n, id);
    RunKeepsInv(s2, Wrap(s2, n, id));
    assert s3.pcs == s.pcs;
  }

  // One dispatcher on its own, from rest to rest.
  lemma ScheduleOne(s: System, k: nat, limit: nat, queued: nat, inFlight: nat) returns (actions: seq<Action>)
    requires AtRest(s, k, limit, queued, inFlight) && k >= 1 && queued >= 1 && inFlight < limit
    ensures Runs(s, actions) && AtRest(After(s, actions), k, limit, queued - 1, inFlight + 1)
  {
    hide *;
    var a := AgentId(inFlight);
    assert [0][0] == 0 && [0] != [];
    ZeroIsThere(s, k, limit, queued, inFlight);
    RestAllows(s, k, limit, queued, inFlight, [0]);
    var id := ReserveFirst(s, [0], a);
    RemovedKeys(s, [0], id, a);
    var s1 := Reserved(s, 0, id, a);
    ReservedFacts(s, s1, id, a);
    ReservedKeepsInv(s1, [0][1..], a);
    CommitStep(s1, 0, id, a, 0);
    var commit := CommitTask(0, 0);
    var s2 := Do(s1, commit);
    RunOfOne(s1, commit);
    OneMoreInFlight(s, s2, queued, inFlight, id);
    BackToRest(s, s2, k, limit, queued, inFlight, id);
    var tail := Wrap(s2, inFlight, id);
    RunsAppend(s1, [commit], tail);
    RunsAppend(s, Reservation(0, a), [commit] + tail);
    actions := Reservation(0, a) + ([commit] + tail);
  }

  lemma ZeroIsThere(s: System, k: nat, limit: nat, queued: nat, inFlight: nat)
    requires AtRest(s, k, limit, queued, inFlight) && k >= 1
    ensures 0 in s.pcs && |s.queue.index.Keys| == queued && |O.InFlight(s.tasks)| == inFlight
  {
    hide Inv, O.InFlight;
  }

  lemma OneMoreInFlight(s: System, s2: System, queued: nat, inFlight: nat, id: TaskId)
    requires |s.queue.index.Keys| == queued && |O.InFlight(s.tasks)| == inFlight
    requires id in s.queue.index.Keys && s2.queue.index.Keys == s.queue.index.Keys - {id}
    requires O.InFlight(s2.tasks) == O.InFlight(s.tasks) + {id} && id !in O.InFlight(s.tasks)
    ensures |s2.queue.index.Keys| == queued - 1 && |O.InFlight(s2.tasks)| == inFlight + 1
  {
    hide O.InFlight;
  }

  lemma ReservedFacts(s: System, s1: System, id: TaskId, a: AgentId)
    requires 0 in s.pcs && s1 == Reserved(s, 0, id, a)
    ensures 0 in s1.pcs && s1.pcs == s.pcs[0 := Dequeued(id, a)] && s1.pcs[0] == Dequeued(id, a)
    ensures s1.tasks == s.tasks && s1.maxConcurrent == s.maxConcurrent && s1.agents == s.agents
    ensures s1.queue == s.queue.Remove(id).0
  {
  }

  lemma ReservedKeepsInv(s: System, ds: seq<Dispatcher>, agent: AgentId)
    requires CanOvershoot(s, ds, agent)
    ensures Inv(s)
  {
  }

  lemma {:induction false} Fill(s: System, k: nat, limit: nat, queued: nat, inFlight: nat, n: nat) returns (actions: seq<Action>)
    requires AtRest(s, k, limit, queued, inFlight) && k >= 1 && n <= queued && inFlight + n <= limit
    ensures Runs(s, actions) && AtRest(After(s, actions), k, limit, queued - n, inFlight + n)
    decreases n
  {
    hide *;
    if n == 0 {
      actions := [];
      EmptyRun(s);
    } else {
      var first := ScheduleOne(s, k, limit, queued, inFlight);
      var rest := Fill(After(s, first), k, limit, queued - 1, inFlight + 1, n - 1);
      RunsAppend(s, first, rest);
      actions := first + rest;
    }
  }

  lemma Staffed(k: nat, limit: nat)
    requires k >= 1
    ensures var s := Fresh(k, limit);
            Runs(s, [ChangeAgents(Hire(map[], 0))]) && Submitted(After(s, [ChangeAgents(Hire(map[], 0))]), k, limit, 0)
  {
    var s := Fresh(k, limit);
    FreshInv(k, limit);
    hide Inv, Runs, After;
    RunOfOne(s, ChangeAgents(Hire(map[], 0)));
    RunKeepsInv(s, [ChangeAgents(Hire(map[], 0))]);
    assert O.InFlight(s.tasks) == {} && s.queue.index.Keys == {};
  }

  function Everybody(k: nat): seq<Dispatcher> {
    seq(k, i requires i >= 0 => i)
  }

  lemma EverybodyCan(s: System, k: nat, limit: nat, inFlight: nat)
    requires AtRest(s, k, limit, k, inFlight) && inFlight < limit
    ensures CanOvershoot(s, Everybody(k), AgentId(inFlight))
  {
    hide AtRest, CanOvershoot;
    RestAllows(s, k, limit, k, inFlight, Everybody(k));
  }

  // For every positive limit and every number of dispatchers, limit + k - 1 tasks can be in flight, although
  // every choice is the scheduler's and the registry changes as the protocol allows. With more than
  // one dispatcher, some of them are then held by the same agent.
  lemma BoundIsAttained(k: nat, limit: nat) returns (actions: seq<Action>)
    requires k >= 1 && limit >= 1
    ensures Runs(Fresh(k, limit), actions)
    ensures |O.InFlight(After(Fresh(k, limit), actions).tasks)| == limit + k - 1
    ensures k >= 2 ==> !HeldOnce(After(Fresh(k, limit), actions).tasks)
  {
    hide *;
    var s := Fresh(k, limit);
    Staffed(k, limit);
    var hire := [ChangeAgents(Hire(map[], 0))];
    var s1 := After(s, hire);
    var submit := SubmitMany(s1, k, limit, 0, limit + k - 1);
    var s2 := After(s1, submit);
    SubmittedRests(s2, k, limit, limit + k - 1);
    var fill := Fill(s2, k, limit, limit + k - 1, 0, limit - 1);
    var s3 := After(s2, fill);
    EverybodyCan(s3, k, limit, limit - 1);
    var overshoot := DispatchersCanOvershoot(s3, Everybody(k), AgentId(limit - 1), 0);
    OvershotCounts(s3, After(s3, overshoot), k, limit);
    if k >= 2 {
      OvershotDoubles(s3, After(s3, overshoot), k, AgentId(limit - 1));
    }
    RunsAppend(s2, fill, overshoot);
    RunsAppend(s1, submit, fill + overshoot);
    RunsAppend(s, hire, submit + (fill + overshoot));
    actions := hire + (submit + (fill + overshoot));
  }

  lemma SubmittedRests(s: System, k: nat, limit: nat, n: nat)
    requires Submitted(s, k, limit, n)
    ensures AtRest(s, k, limit, n, 0)
  {
  }

  lemma OvershotCounts(s: System, s': System, k: nat, limit: nat)
    requires limit >= 1 && AtRest(s, k, limit, k, limit - 1) && Overshot(s, s', Everybody(k), AgentId(limit - 1))
    ensures |O.InFlight(s'.tasks)| == limit + k - 1
  {
  }

  lemma OvershotDoubles(s: System, s': System, k: nat, agent: AgentId)
    requires k >= 2 && Overshot(s, s', Everybody(k), agent)
    ensures !HeldOnce(s'.tasks)
  {
    hide Inv;
    var more := O.InFlight(s'.tasks) - O.InFlight(s.tasks);
    assert |more| == k;
    var i :| i in more;
    assert |more - {i}| == k - 1;
    var j :| j in more - {i};
    assert Holds(s'.tasks, i, agent) && Holds(s'.tasks, j, agent);
  }

  // ---- The exact maximum ----

  // Nobody ever gets past the limit test.
  ghost predicate Barred(s: System) {
    && O.InFlight(s.tasks) == {} && (s.maxConcurrent == 0 || s.pcs == map[])
    && forall d | d in s.pcs :: s.pcs[d].Idle?
  }

  lemma StepKeepsBarred(s: System, a: Action)
    requires Barred(s) && Enabled(s, a)
    ensures Barred(Do(s, a))
  {
    forall id | id in s.tasks ensures s.tasks[id].status.Holder().None? {
      assert id !in O.InFlight(s.tasks);
    }
    hide Queue.Peek, Queue.Remove, Queue.Enqueue, BestChoice, Respects;
  }

  lemma {:induction false} RunKeepsBarred(s: System, actions: seq<Action>)
    requires Barred(s) && Runs(s, actions)
    ensures Barred(After(s, actions))
    decreases |actions|
  {
    hide Barred, Do, Enabled;
    if actions != [] {
      StepKeepsBarred(s, actions[0]);
      RunKeepsBarred(Do(s, actions[0]), actions[1..]);
    }
  }

  function MostInFlight(k: nat, limit: nat): nat {
    if k == 0 || limit == 0 then 0 else limit + k - 1
  }

  lemma NeverMore(k: nat, limit: nat, actions: seq<Action>)
    requires Runs(Fresh(k, limit), actions)
    ensures |O.InFlight(After(Fresh(k, limit), actions).tasks)| <= MostInFlight(k, limit)
  {
    if k == 0 || limit == 0 {
      var s := Fresh(k, limit);
      assert Barred(s);
      hide Runs, After;
      RunKeepsBarred(s, actions);
    } else {
      InFlightBound(k, limit, actions);
    }
  }

  // The maximum over all runs of k dispatchers, for every k and every limit.
  lemma MostInFlightIsExact(k: nat, limit: nat)
    ensures forall actions | Runs(Fresh(k, limit), actions) ::
              |O.InFlight(After(Fresh(k, limit), actions).tasks)| <= MostInFlight(k, limit)
    ensures exists actions :: Runs(Fresh(k, limit), actions)
                           && |O.InFlight(After(Fresh(k, limit), actions).tasks)| == MostInFlight(k, limit)
  {
    forall actions | Runs(Fresh(k, limit), actions)
      ensures |O.InFlight(After(Fresh(k, limit), actions).tasks)| <= MostInFlight(k, limit)
    {
      NeverMore(k, limit, actions);
    }
    if k == 0 || limit == 0 {
      EmptyRun(Fresh(k, limit));
    } else {
      hide Runs, After, Fresh, O.InFlight;
      var actions := BoundIsAttained(k, limit);
    }
  }

  // The concurrency limit is kept in every run exactly when there is at most one dispatcher, or the
  // limit lets none of them through.
  lemma LimitIsKeptIff(k: nat, limit: nat)
    ensures (forall actions | Runs(Fresh(k, limit), actions) :: |O.InFlight(After(Fresh(k, limit), actions).tasks)| <= limit)
        <==> (k <= 1 || limit == 0)
  {
    hide Runs, After, Fresh, O.InFlight;
    MostInFlightIsExact(k, limit);
  }
}
