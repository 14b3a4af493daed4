/** What one round of the drain loop does to the control plane (swarm-cli/commands/task.rs). */
module Draining {
  import opened Wrappers
  import opened Core
  import opened Capabilities
  import opened Tasks
  import opened TaskQueues
  import opened Registry
  import opened Scheduling
  import opened Orchestration
  import opened OrchestrationInvariant
  import opened CircuitBreaking
  import opened Running

  // `combined_capabilities`: everything any task of the batch requires.
  function CombinedCapabilities(tasks: seq<Task>): (caps: CapabilitySet)
    ensures forall t | t in tasks :: t.spec.requiredCapabilities <= caps
  {
    if tasks == [] then {} else tasks[0].spec.requiredCapabilities + CombinedCapabilities(tasks[1..])
  }

  // All workers are ready and hold the combined capabilities.
  ghost predicate Workers(g: Agents, caps: CapabilitySet) {
    g != map[] && forall a | a in g :: g[a].status == Ready && g[a].descriptor.capabilities == caps
  }

  // Between rounds: all workers idle, and `order` is what the queue still yields.
  ghost predicate Drainable(s: Swarm, order: seq<Task>, caps: CapabilitySet) {
    && Inv(s) && Workers(s.agents, caps) && Contents(s.queue) == order
    && forall t | t in order :: t.spec.requiredCapabilities <= caps
  }

  lemma IdleMeansNothingInFlight(tasks: TaskMap, g: Agents, caps: CapabilitySet)
    requires Owned(tasks, g) && Workers(g, caps)
    ensures InFlight(tasks) == {}
  {
  }

  lemma WorkersCanTake(g: Agents, caps: CapabilitySet, task: Task)
    requires Workers(g, caps) && task.spec.requiredCapabilities <= caps
    ensures exists a :: a in g && CanTake(g[a], task)
  {
    var a :| a in g;
    SupersetSatisfies(caps, task.spec.requiredCapabilities);
    assert CanTake(g[a], task);
  }

  lemma DrainableHead(s: Swarm, order: seq<Task>, caps: CapabilitySet)
    requires Drainable(s, order, caps)
    ensures InFlight(s.tasks) == {}
    ensures s.queue.Peek() == if order == [] then None else Some(order[0])
    ensures order != [] ==> exists a :: a in s.agents && CanTake(s.agents[a], order[0])
  {
    DequeueTakesHead(s.queue);
    IdleMeansNothingInFlight(s.tasks, s.agents, caps);
    if order != [] {
      assert order[0] in order;
      WorkersCanTake(s.agents, caps, order[0]);
    }
  }

  // The head of the queue is always schedulable, and an empty queue ends the loop.
  lemma RoundSchedulesHead(s: Swarm, order: seq<Task>, caps: CapabilitySet, pick: seq<AgentId>, now: Timestamp)
    requires Drainable(s, order, caps) && s.maxConcurrent >= 1 && Enumerates(pick, s.agents.Keys)
    ensures var (s1, r) := s.TryScheduleNext(None, pick, now);
            if order == [] then (s1, r) == (s, Ok(None))
            else
              && r == Ok(Some(order[0].id)) && order[0].id in s.tasks && s.tasks[order[0].id] == order[0]
              && exists a :: a in s.agents && (s1, r) == s.Assign(order[0].id, a, now)
  {
    hide Inv, Swarm.TryScheduleNext, Swarm.Assign, CanTake, Explained;
    DrainableHead(s, order, caps);
    ScheduleNeverLosesATask(s, None, pick, now);
    QueuedIsNamed(s);
    var (s1, r) := s.TryScheduleNext(None, pick, now);
    HeadIsAssigned(s, order, now, s1, r);
  }

  lemma HeadIsAssigned(s: Swarm, order: seq<Task>, now: Timestamp, s1: Swarm, r: Result<Option<TaskId>, SwarmError>)
    requires Explained(s, None, now, s1, r) && s.maxConcurrent >= 1 && InFlight(s.tasks) == {}
    requires s.queue.Peek() == if order == [] then None else Some(order[0])
    requires order != [] ==> exists a :: a in s.agents && CanTake(s.agents[a], order[0])
    requires forall id | id in s.tasks :: s.tasks[id].id == id
    ensures if order == [] then (s1, r) == (s, Ok(None))
            else
              && r == Ok(Some(order[0].id)) && order[0].id in s.tasks && s.tasks[order[0].id] == order[0]
              && exists a :: a in s.agents && (s1, r) == s.Assign(order[0].id, a, now)
  {
    hide Inv, Swarm.Assign, CanTake;
  }

  lemma QueuedIsNamed(s: Swarm)
    requires Inv(s)
    ensures forall id | id in s.tasks :: s.tasks[id].id == id
  {
  }

  lemma AfterAssign(s: Swarm, order: seq<Task>, caps: CapabilitySet, a: AgentId, now: Timestamp)
    requires Drainable(s, order, caps) && s.maxConcurrent >= 1 && order != [] && a in s.agents
    requires order[0].id in s.tasks && s.tasks[order[0].id] == order[0]
    ensures var s1 := s.Assign(order[0].id, a, now).0;
            && Inv(s1) && order[0].id in s1.tasks && s1.tasks[order[0].id].status == Scheduled(a)
            && s1.tasks == s.tasks[order[0].id := order[0].(status := Scheduled(a), updatedAt := now)]
            && s1.agents == s.agents[a := s.agents[a].(status := Busy(order[0].id), lastSeenAt := now)]
            && Contents(s1.queue) == order[1..]
  {
    hide Inv, Workers, Contents, WellFormed, Queue.Remove, Swarm.Assign;
    QueueIsWellFormed(s);
    HeadLeaves(s.queue, order);
    IdleWorker(s, caps, a);
    AssignKeepsInv(s, order[0].id, a, now);
  }

  lemma IdleWorker(s: Swarm, caps: CapabilitySet, a: AgentId)
    requires Inv(s) && Workers(s.agents, caps) && a in s.agents
    ensures s.agents[a].status.Ready? && InFlight(s.tasks) == {}
  {
    hide QueueAgrees, Accounted, Supervised;
    IdleMeansNothingInFlight(s.tasks, s.agents, caps);
  }

  lemma HeadLeaves(q: Queue, order: seq<Task>)
    requires WellFormed(q) && Contents(q) == order && order != []
    ensures order[0].id in q.index && q.Remove(order[0].id).1.Ok? && Contents(q.Remove(order[0].id).0) == order[1..]
  {
    DequeueTakesHead(q);
    DequeueIsRemoveOfPeek(q);
  }

  // Running the scheduled task brings the loop back to its start, with one task less to go.
  lemma AfterRun(s: Swarm, s1: Swarm, order: seq<Task>, caps: CapabilitySet, a: AgentId, b: Breaker,
                 limit: Option<Duration>, i: Inputs, now: Timestamp)
    requires Drainable(s, order, caps) && s.maxConcurrent >= 1 && order != [] && a in s.agents
    requires order[0].id in s.tasks && s.tasks[order[0].id] == order[0]
    requires s1 == s.Assign(order[0].id, a, now).0
    ensures order[0].id in s1.tasks
    ensures var s2 := RunTask(s1, b, s1.tasks[order[0].id], a, limit, i).0;
            && Drainable(s2, order[1..], caps) && s2.agents.Keys == s.agents.Keys
            && order[0].id in s2.tasks && s2.tasks == s.tasks[order[0].id := s2.tasks[order[0].id]]
            && s2.tasks[order[0].id].status.IsTerminal() && s2.tasks[order[0].id].id == order[0].id
            && s2.maxConcurrent == s.maxConcurrent
  {
    hide Inv, RunTask, FinalTask, Settled, Swarm.Assign, FinishedAt, Reports, Workers, Contents;
    AfterAssign(s, order, caps, a, now);
    var id := order[0].id;
    var task := s1.tasks[id];
    var s2 := RunTask(s1, b, task, a, limit, i).0;
    var t := FinalTask(task, b, task, a, limit, i);
    QueuedIsNamed(s1);
    RunTaskSettles(s1, b, task, a, limit, i);
    RunnerFollowsProtocol(s1, b, task, a, limit, i);
    SettledFrame(s1, s2, id, a, t, FinishedAt(b, i));
    FinalTaskNamed(task, b, task, a, limit, i);
    AssignFrame(s, id, a, now);
    assert s2.tasks == s.tasks[id := t];
    WorkersAgain(s.agents, s1.agents, s2.agents, caps, a);
  }

  // One whole round, from one idle state to the next.
  ghost predicate RoundDone(s: Swarm, s2: Swarm, order: seq<Task>, caps: CapabilitySet, ok: bool)
    requires order != []
  {
    var id := order[0].id;
    && Drainable(s2, order[1..], caps) && s2.agents.Keys == s.agents.Keys && s2.maxConcurrent == s.maxConcurrent
    && id in s2.tasks && s2.tasks == s.tasks[id := s2.tasks[id]] && s2.tasks[id].id == id
    && s2.tasks[id].status.IsTerminal() && (ok <==> s2.tasks[id].status.Completed?)
  }

  // How a task ends that is scheduled to this agent at that moment and run at once.
  function EndOfRound(t: Task, b: Breaker, a: AgentId, limit: Option<Duration>, i: Inputs, now: Timestamp): Task {
    var scheduled := t.(status := Scheduled(a), updatedAt := now);
    FinalTask(scheduled, b, scheduled, a, limit, i)
  }

  lemma RoundSettles(s: Swarm, order: seq<Task>, caps: CapabilitySet, a: AgentId, b: Breaker,
                     limit: Option<Duration>, i: Inputs, now: Timestamp)
    requires Drainable(s, order, caps) && s.maxConcurrent >= 1 && order != [] && a in s.agents
    requires order[0].id in s.tasks && s.tasks[order[0].id] == order[0] && i.persistence.None?
    ensures var s1 := s.Assign(order[0].id, a, now).0;
            && order[0].id in s1.tasks && s1.tasks[order[0].id].status == Scheduled(a)
            && s1.tasks[order[0].id].id == order[0].id
            && var (s2, _, r) := RunTask(s1, b, s1.tasks[order[0].id], a, limit, i);
               && RoundDone(s, s2, order, caps, r.Ok?)
               && s2.tasks[order[0].id] == EndOfRound(order[0], b, a, limit, i, now)
  {
    hide Inv, RunTask, Swarm.Assign, Workers, Contents, FinalTask, Settled;
    var s1 := s.Assign(order[0].id, a, now).0;
    QueuedIsNamed(s);
    AfterAssign(s, order, caps, a, now);
    RunTaskSettles(s1, b, s1.tasks[order[0].id], a, limit, i);
    SettledFrame(s1, RunTask(s1, b, s1.tasks[order[0].id], a, limit, i).0, order[0].id, a,
                 FinalTask(s1.tasks[order[0].id], b, s1.tasks[order[0].id], a, limit, i), FinishedAt(b, i));
    AfterRun(s, s1, order, caps, a, b, limit, i, now);
    RunTaskResult(s1, b, s1.tasks[order[0].id], a, limit, i);
  }

  lemma FinalTaskNamed(t: Task, b: Breaker, task: Task, a: AgentId, limit: Option<Duration>, i: Inputs)
    ensures FinalTask(t, b, task, a, limit, i).id == t.id && FinalTask(t, b, task, a, limit, i).status.IsTerminal()
  {
  }

  lemma SettledFrame(s: Swarm, s': Swarm, id: TaskId, a: AgentId, t: Task, now: Timestamp)
    requires Settled(s, s', id, a, t, now)
    ensures s'.tasks == s.tasks[id := t] && s'.queue == s.queue && s'.maxConcurrent == s.maxConcurrent
    ensures a in s.agents && s'.agents.Keys == s.agents.Keys && s'.agents[a].status == Ready
    ensures s'.agents[a].descriptor == s.agents[a].descriptor
    ensures forall x | x in s.agents && x != a :: s'.agents[x] == s.agents[x]
  {
  }

  lemma WorkersAgain(g: Agents, g1: Agents, g2: Agents, caps: CapabilitySet, a: AgentId)
    requires Workers(g, caps) && a in g && g1.Keys == g.Keys == g2.Keys
    requires g1[a].descriptor == g[a].descriptor && forall x | x in g && x != a :: g1[x] == g[x]
    requires g2[a].descriptor == g1[a].descriptor && g2[a].status == Ready
    requires forall x | x in g && x != a :: g2[x] == g1[x]
    ensures Workers(g2, caps)
  {
    assert a in g2;
  }

  lemma AssignFrame(s: Swarm, id: TaskId, a: AgentId, now: Timestamp)
    ensures s.Assign(id, a, now).0.maxConcurrent == s.maxConcurrent
  {
  }

  // ---- Setting up: workers and imports ----

  lemma AddWorker(s: Swarm, d: AgentDescriptor, now: Timestamp)
    requires Inv(s) && d.id !in s.agents && s.queue == EMPTY_QUEUE && s.tasks == map[]
    requires s.agents != map[] ==> Workers(s.agents, d.capabilities)
    ensures s.RegisterAgent(d, now).1.Ok?
    ensures var s' := s.RegisterAgent(d, now).0.SetAgentReady(d.id, now).0;
            && s.RegisterAgent(d, now).0.SetAgentReady(d.id, now).1.Ok?
            && Inv(s') && Workers(s'.agents, d.capabilities) && s'.agents.Keys == s.agents.Keys + {d.id}
            && s'.queue == EMPTY_QUEUE && s'.tasks == map[] && s'.maxConcurrent == s.maxConcurrent
            && s'.defaultTimeout == s.defaultTimeout
  {
    hide Inv;
    RegisterKeepsInv(s, d, now);
    var s1 := s.RegisterAgent(d, now).0;
    ReadyKeepsInv(s1, d.id, now);
    assert s1.agents == s.agents[d.id := NewRecord(d, now)];
    var g := s1.SetAgentReady(d.id, now).0.agents;
    assert d.id in g;
  }

  function Imported(t: Task, default: Option<Duration>): Task {
    t.(spec := t.spec.WithDefaultTimeout(default))
  }

  function ImportedAll(ts: seq<Task>, default: Option<Duration>): (r: seq<Task>)
    ensures |r| == |ts| && forall i | 0 <= i < |ts| :: r[i] == Imported(ts[i], default)
  {
    if ts == [] then [] else [Imported(ts[0], default)] + ImportedAll(ts[1..], default)
  }

  // Importing an admissible task is a stable push and touches nothing else.
  lemma ImportPushes(s: Swarm, t: Task, now: Timestamp)
    requires Inv(s) && t.status.Pending? && t.id !in s.tasks
    requires forall k | k in s.queue.queue :: k.at <= now
    ensures var (s', r) := s.ImportTask(t, None, now);
            && Inv(s')
            && (r.Ok? <==> Imported(t, s.defaultTimeout).spec.Validate())
            && (r.Err? ==> s' == s)
            && (r.Ok? ==>
                  && Contents(s'.queue) == StablePush(Contents(s.queue), Imported(t, s.defaultTimeout))
                  && s' == s.(tasks := s.tasks[t.id := Imported(t, s.defaultTimeout)], queue := s'.queue)
                  && forall k | k in s'.queue.queue :: k.at <= now)
  {
    hide Inv, Contents, StablePush, WellFormed, TaskSpec.Validate, TaskSpec.WithDefaultTimeout, QueueAgrees, Queue.Enqueue,
         ClockNotBehind;
    var t' := Imported(t, s.defaultTimeout);
    ImportKeepsInv(s, t, None, now);
    QueueIsWellFormed(s);
    QueuedIffPending(s.tasks, s.queue, t.id);
    EnqueueRefinesStablePush(s.queue, t', now);
    EnqueueStamps(s.queue, t', now);
  }

  lemma EnqueueStamps(q: Queue, t: Task, now: Timestamp)
    requires t.status.Pending? && t.id !in q.index && forall k | k in q.queue :: k.at <= now
    ensures q.Enqueue(t, now).1.Ok? && ClockNotBehind(q, t, now)
    ensures forall k | k in q.Enqueue(t, now).0.queue :: k.at <= now
  {
  }

  lemma QueueIsWellFormed(s: Swarm)
    requires Inv(s)
    ensures QueueAgrees(s.tasks, s.queue) && WellFormed(s.queue)
  {
  }
}
