/** The control plane (swarm-orchestrator/orchestrator.rs) as a state and its handle calls.
    Every call is one atomic step; a call that fails half-way keeps the updates it made. */
module Orchestration {
  import opened Wrappers
  import opened Core
  import opened Tasks
  import opened TaskQueues
  import opened Registry
  import opened Scheduling
  import Sup = Supervision

  // Counters of agents that have been deregistered. No handle call reads them.
  datatype Tally = Tally(completed: nat, failed: nat)

  type TaskMap = map<TaskId, Task>

  function InFlight(tasks: TaskMap): set<TaskId> {
    set id | id in tasks && tasks[id].status.Holder().Some?
  }

  datatype Swarm = Swarm(
    tasks: TaskMap,
    queue: Queue,
    agents: Agents,
    nodes: Sup.Nodes,
    maxConcurrent: nat,
    defaultTimeout: Option<Duration>,
    retired: Tally)
  {
    function RegisterAgent(d: AgentDescriptor, now: Timestamp): (Swarm, Result<AgentId, SwarmError>) {
      var (g, r) := Register(agents, d, now);
      if r.Err? then (this, r)
      else (this.(agents := g, nodes := Sup.RegisterRoot(nodes, d.id)), r)
    }

    function SetAgentReady(a: AgentId, now: Timestamp): (Swarm, Result<(), SwarmError>) {
      var (g, r) := UpdateStatus(agents, a, Ready, now);
      (this.(agents := g), r)
    }

    function DeregisterAgent(a: AgentId): (Swarm, Result<(), SwarmError>) {
      var (g, r) := Deregister(agents, a);
      if r.Err? then (this, Err(r.error))
      else
        (this.(agents := g,
               nodes := Sup.Deregister(nodes, a),
               retired := Tally(retired.completed + r.value.tasksCompleted, retired.failed + r.value.tasksFailed)),
         Ok(()))
    }

    function SetSupervisor(a: AgentId, supervisor: AgentId): (Swarm, Result<(), SwarmError>) {
      var (n, r) := Sup.RegisterUnder(nodes, a, supervisor);
      (this.(nodes := n), r)
    }

    // `policy` is the admission policy's error, if it raises one; `id` is the new task's id.
    function SubmitTask(id: TaskId, spec: TaskSpec, policy: Option<SwarmError>, now: Timestamp)
      : (Swarm, Result<TaskId, SwarmError>)
    {
      var spec := spec.WithDefaultTimeout(defaultTimeout);
      if !spec.Validate() then (this, Err(InvalidTaskSpec))
      else if policy.Some? then (this, Err(policy.value))
      else
        var task := NewTask(id, spec, now);
        var stored := this.(tasks := tasks[id := task]);
        var (q, r) := queue.Enqueue(task, now);
        if r.Err? then (stored, Err(r.error)) else (stored.(queue := q), Ok(id))
    }

    function ImportTask(task: Task, policy: Option<SwarmError>, now: Timestamp): (Swarm, Result<(), SwarmError>) {
      if !task.status.Pending? || task.id in tasks then (this, Err(InvalidTaskSpec))
      else
        var task := task.(spec := task.spec.WithDefaultTimeout(defaultTimeout));
        if !task.spec.Validate() then (this, Err(InvalidTaskSpec))
        else if policy.Some? then (this, Err(policy.value))
        else
          var (q, r) := queue.Enqueue(task, now);
          if r.Err? then (this, Err(r.error)) else (this.(queue := q, tasks := tasks[task.id := task]), Ok(()))
    }

    ghost function TryScheduleNext(policy: Option<SwarmError>, order: seq<AgentId>, now: Timestamp)
      : (Swarm, Result<Option<TaskId>, SwarmError>)
      requires forall a | a in order :: a in agents
    {
      if |InFlight(tasks)| >= maxConcurrent then (this, Ok(None))
      else
        match queue.Peek()
        case None => (this, Ok(None))
        case Some(task) =>
          if policy.Some? then (this, Err(policy.value))
          else
            match Schedule(Records(agents, order), task)
            case NoCapableAgent(_) => (this, Ok(None))
            case Assigned(id, a) => Assign(id, a, now)
    }

    // The commit of a scheduling decision: dequeue, update the task, mark the agent busy.
    function Assign(id: TaskId, a: AgentId, now: Timestamp): (Swarm, Result<Option<TaskId>, SwarmError>) {
      var (q, removed) := queue.Remove(id);
      var s1 := this.(queue := q);
      if removed.Err? then (s1, Err(removed.error))
      else if id !in tasks then (s1, Err(TaskNotFound(id)))
      else
        var t := tasks[id].Schedule(a, now);
        if t.Err? then (s1, Err(AgentInvalidState(a)))
        else
          var s2 := s1.(tasks := tasks[id := t.value]);
          var (g, r) := UpdateStatus(agents, a, Busy(id), now);
          if r.Err? then (s2, Err(r.error)) else (s2.(agents := g), Ok(Some(id)))
    }

    function RecordTaskStarted(id: TaskId, a: AgentId, now: Timestamp): (Swarm, Result<(), SwarmError>) {
      if id !in tasks then (this, Err(TaskNotFound(id)))
      else
        var t := tasks[id].StartRunning(a, now);
        if t.Err? then (this, Err(AgentInvalidState(a))) else (this.(tasks := tasks[id := t.value]), Ok(()))
    }

    function RecordTaskCompleted(id: TaskId, a: AgentId, output: string, now: Timestamp)
      : (Swarm, Result<(), SwarmError>)
    {
      if id !in tasks then (this, Err(TaskNotFound(id)))
      else
        var s1 := this.(tasks := tasks[id := tasks[id].Complete(output, now)]);
        var (g, r) := UpdateStatus(agents, a, Ready, now);
        if r.Err? then (s1, r) else (s1.(agents := Registry.RecordTaskCompleted(g, a)), Ok(()))
    }

    function RecordTaskFailed(id: TaskId, a: AgentId, reason: SwarmError, now: Timestamp)
      : (Swarm, Result<(), SwarmError>)
    {
      if id !in tasks then (this, Err(TaskNotFound(id)))
      else
        var s1 := this.(tasks := tasks[id := tasks[id].Fail(reason, now)]);
        var (g, r) := UpdateStatus(agents, a, Ready, now);
        if r.Err? then (s1, r) else (s1.(agents := Registry.RecordTaskFailed(g, a)), Ok(()))
    }

    function RecordTaskTimedOut(id: TaskId, a: AgentId, now: Timestamp): (Swarm, Result<(), SwarmError>) {
      if id !in tasks then (this, Err(TaskNotFound(id)))
      else
        var s1 := this.(tasks := tasks[id := tasks[id].TimeOut(now)]);
        var (g, r) := UpdateStatus(agents, a, Ready, now);
        if r.Err? then (s1, r) else (s1.(agents := Registry.RecordTaskFailed(g, a)), Ok(()))
    }

    function CancelTask(id: TaskId, now: Timestamp): (Swarm, Result<(), SwarmError>) {
      var (q, removed) := queue.Remove(id);
      var s1 := this.(queue := q);
      if removed.Err? then (s1, Err(removed.error))
      else if id in tasks then (s1.(tasks := tasks[id := tasks[id].(status := Cancelled(now))]), Ok(()))
      else (s1, Ok(()))
    }
  }

  function NewSwarm(maxConcurrent: nat, defaultTimeout: Option<Duration>): Swarm {
    Swarm(map[], EMPTY_QUEUE, map[], map[], maxConcurrent, defaultTimeout, Tally(0, 0))
  }

  // ---- Handle calls as steps of a state machine ----

  datatype Call =
    | RegisterAgent(descriptor: AgentDescriptor)
    | SetAgentReady(agent: AgentId)
    | DeregisterAgent(agent: AgentId)
    | SetSupervisor(agent: AgentId, supervisor: AgentId)
    | SubmitTask(id: TaskId, spec: TaskSpec, policy: Option<SwarmError>)
    | ImportTask(task: Task, policy: Option<SwarmError>)
    | TryScheduleNext(policy: Option<SwarmError>, order: seq<AgentId>)
    | RecordTaskStarted(id: TaskId, agent: AgentId)
    | RecordTaskCompleted(id: TaskId, agent: AgentId, output: string)
    | RecordTaskFailed(id: TaskId, agent: AgentId, reason: SwarmError)
    | RecordTaskTimedOut(id: TaskId, agent: AgentId)
    | CancelTask(id: TaskId)

  // What clients must respect for the call to be safe: outcomes are recorded only for the
  // agent that holds the task, a busy agent is neither readied nor deregistered, new ids
  // are fresh, and nobody is put under one of its own descendants.
  ghost predicate Permitted(s: Swarm, c: Call) {
    match c
    case SetAgentReady(a) => a in s.agents ==> !s.agents[a].status.Busy?
    case DeregisterAgent(a) => a in s.agents ==> !s.agents[a].status.Busy?
    case SetSupervisor(a, sup) => Sup.Acyclic(s.nodes) && a !in Sup.Ancestry(s.nodes, sup)
    case SubmitTask(id, _, _) => id !in s.tasks
    case TryScheduleNext(_, order) => Enumerates(order, s.agents.Keys)
    case RecordTaskCompleted(id, a, _) => Holds(s, id, a)
    case RecordTaskFailed(id, a, _) => Holds(s, id, a)
    case RecordTaskTimedOut(id, a) => Holds(s, id, a)
    case _ => true
  }

  predicate Holds(s: Swarm, id: TaskId, a: AgentId) {
    id in s.tasks && s.tasks[id].status.Holder() == Some(a)
  }

  ghost function Next(s: Swarm, c: Call, now: Timestamp): Swarm
    requires Permitted(s, c)
  {
    match c
    case RegisterAgent(d) => s.RegisterAgent(d, now).0
    case SetAgentReady(a) => s.SetAgentReady(a, now).0
    case DeregisterAgent(a) => s.DeregisterAgent(a).0
    case SetSupervisor(a, sup) => s.SetSupervisor(a, sup).0
    case SubmitTask(id, spec, policy) => s.SubmitTask(id, spec, policy, now).0
    case ImportTask(task, policy) => s.ImportTask(task, policy, now).0
    case TryScheduleNext(policy, order) => s.TryScheduleNext(policy, order, now).0
    case RecordTaskStarted(id, a) => s.RecordTaskStarted(id, a, now).0
    case RecordTaskCompleted(id, a, output) => s.RecordTaskCompleted(id, a, output, now).0
    case RecordTaskFailed(id, a, reason) => s.RecordTaskFailed(id, a, reason, now).0
    case RecordTaskTimedOut(id, a) => s.RecordTaskTimedOut(id, a, now).0
    case CancelTask(id) => s.CancelTask(id, now).0
  }

  datatype TimedCall = TimedCall(call: Call, at: Timestamp)

  // A run: every call is permitted in the state it meets.
  ghost predicate Runs(s: Swarm, calls: seq<TimedCall>)
    decreases |calls|
  {
    calls == [] || (Permitted(s, calls[0].call) && Runs(Next(s, calls[0].call, calls[0].at), calls[1..]))
  }

  ghost function After(s: Swarm, calls: seq<TimedCall>): Swarm
    requires Runs(s, calls)
    decreases |calls|
  {
    if calls == [] then s else After(Next(s, calls[0].call, calls[0].at), calls[1..])
  }
}

/** The invariant that keeps the five structures in step, and what follows for whole runs. */
module OrchestrationInvariant {
  import opened Wrappers
  import opened Core
  import opened Tasks
  import opened TaskQueues
  import opened Registry
  import opened Scheduling
  import opened Orchestration
  import Sup = Supervision

  // The queue holds exactly the pending tasks, each in the copy the task map has.
  ghost predicate QueueAgrees(tasks: TaskMap, q: Queue) {
    && WellFormed(q)
    && (forall id | id in tasks :: tasks[id].id == id)
    && (forall id :: id in q.index <==> id in tasks && tasks[id].status.Pending?)
    && (forall k | k in q.queue :: q.queue[k].task.id in tasks && q.queue[k].task == tasks[q.queue[k].task.id])
  }

  // An agent is busy with t exactly when t is scheduled to it or running on it.
  ghost predicate Owned(tasks: TaskMap, g: Agents) {
    && KeyedById(g)
    && (forall a | a in g && g[a].status.Busy? ::
          g[a].status.currentTask in tasks && tasks[g[a].status.currentTask].status.Holder() == Some(a))
    && (forall id | id in tasks && tasks[id].status.Holder().Some? ::
          var a := tasks[id].status.Holder().value;
          a in g && g[a].status == Busy(id))
  }

  function Count(r: AgentRecord, ok: bool): nat {
    if ok then r.tasksCompleted else r.tasksFailed
  }

  ghost function Total(g: Agents, ok: bool): nat
    decreases |g|
  {
    if g == map[] then 0
    else
      var a :| a in g;
      Count(g[a], ok) + Total(g - {a}, ok)
  }

  predicate EndedAs(status: TaskStatus, ok: bool) {
    if ok then status.Completed? else status.Failed? || status.TimedOut?
  }

  function Ended(tasks: TaskMap, ok: bool): set<TaskId> {
    set id | id in tasks && EndedAs(tasks[id].status, ok)
  }

  // The counters account for every finished task.
  ghost predicate Accounted(tasks: TaskMap, g: Agents, retired: Tally) {
    && Total(g, true) + retired.completed == |Ended(tasks, true)|
    && Total(g, false) + retired.failed == |Ended(tasks, false)|
  }

  ghost predicate Supervised(g: Agents, n: Sup.Nodes) {
    Sup.Forest(n) && n.Keys == g.Keys
  }

  ghost predicate Inv(s: Swarm) {
    && QueueAgrees(s.tasks, s.queue)
    && Owned(s.tasks, s.agents)
    && Accounted(s.tasks, s.agents, s.retired)
    && Supervised(s.agents, s.nodes)
    && |InFlight(s.tasks)| <= s.maxConcurrent
  }

  // ---- Counting ----

  lemma {:induction false} TotalSplit(g: Agents, a: AgentId, ok: bool)
    requires a in g
    ensures Total(g, ok) == Count(g[a], ok) + Total(g - {a}, ok)
    decreases |g|
  {
    var b :| b in g && Total(g, ok) == Count(g[b], ok) + Total(g - {b}, ok);
    if b != a {
      TotalSplit(g - {b}, a, ok);
      TotalSplit(g - {a}, b, ok);
      assert g - {b} - {a} == g - {a} - {b};
    }
  }

  lemma TotalUpdate(g: Agents, a: AgentId, r: AgentRecord, ok: bool)
    ensures Total(g[a := r], ok) == Total(g, ok) + Count(r, ok) - if a in g then Count(g[a], ok) else 0
  {
    TotalSplit(g[a := r], a, ok);
    if a in g {
      TotalSplit(g, a, ok);
      assert g[a := r] - {a} == g - {a};
    } else {
      assert g[a := r] - {a} == g;
    }
  }

  lemma SetsUpdate(tasks: TaskMap, id: TaskId, t: Task, ok: bool)
    ensures Ended(tasks[id := t], ok)
         == if EndedAs(t.status, ok) then Ended(tasks, ok) + {id} else Ended(tasks, ok) - {id}
    ensures InFlight(tasks[id := t])
         == if t.status.Holder().Some? then InFlight(tasks) + {id} else InFlight(tasks) - {id}
  {
  }

  // A task that has not ended and does not end: the accounts stay.
  lemma AccountsUnmoved(tasks: TaskMap, id: TaskId, t: Task, g: Agents, retired: Tally)
    requires Accounted(tasks, g, retired)
    requires id in tasks ==> !EndedAs(tasks[id].status, true) && !EndedAs(tasks[id].status, false)
    requires !EndedAs(t.status, true) && !EndedAs(t.status, false)
    ensures Accounted(tasks[id := t], g, retired)
  {
    SetsUpdate(tasks, id, t, true);
    SetsUpdate(tasks, id, t, false);
    assert Ended(tasks[id := t], true) == Ended(tasks, true);
    assert Ended(tasks[id := t], false) == Ended(tasks, false);
  }

  // A change of status only: the accounts stay.
  lemma AccountsRestatus(tasks: TaskMap, g: Agents, a: AgentId, r: AgentRecord, retired: Tally)
    requires Accounted(tasks, g, retired) && a in g
    requires r.tasksCompleted == g[a].tasksCompleted && r.tasksFailed == g[a].tasksFailed
    ensures Accounted(tasks, g[a := r], retired)
  {
    TotalUpdate(g, a, r, true);
    TotalUpdate(g, a, r, false);
  }

  // A new agent, with zero counters and not busy.
  lemma AccountsJoin(tasks: TaskMap, g: Agents, r: AgentRecord, retired: Tally)
    requires Accounted(tasks, g, retired) && r.descriptor.id !in g && r.tasksCompleted == r.tasksFailed == 0
    ensures Accounted(tasks, g[r.descriptor.id := r], retired)
  {
    TotalUpdate(g, r.descriptor.id, r, true);
    TotalUpdate(g, r.descriptor.id, r, false);
  }

  // An agent that leaves, its counters kept in the tally.
  lemma AccountsRetire(tasks: TaskMap, g: Agents, a: AgentId, retired: Tally)
    requires Accounted(tasks, g, retired) && a in g
    ensures Accounted(tasks, g - {a}, Tally(retired.completed + g[a].tasksCompleted, retired.failed + g[a].tasksFailed))
  {
    TotalSplit(g, a, true);
    TotalSplit(g, a, false);
  }

  lemma OwnedJoin(tasks: TaskMap, g: Agents, r: AgentRecord)
    requires Owned(tasks, g) && r.descriptor.id !in g && !r.status.Busy?
    ensures Owned(tasks, g[r.descriptor.id := r])
  {
  }

  lemma OwnedLeave(tasks: TaskMap, g: Agents, a: AgentId)
    requires Owned(tasks, g) && a in g && !g[a].status.Busy?
    ensures Owned(tasks, g - {a})
  {
  }

  // A task that ends and the counter that records it.
  lemma AccountsFinish(tasks: TaskMap, id: TaskId, t: Task, g: Agents, a: AgentId, r: AgentRecord, ok: bool, retired: Tally)
    requires Accounted(tasks, g, retired) && a in g && id in tasks
    requires !EndedAs(tasks[id].status, true) && !EndedAs(tasks[id].status, false) && EndedAs(t.status, ok)
    requires Count(r, ok) == Count(g[a], ok) + 1 && Count(r, !ok) == Count(g[a], !ok)
    ensures Accounted(tasks[id := t], g[a := r], retired)
  {
    SetsUpdate(tasks, id, t, ok);
    SetsUpdate(tasks, id, t, !ok);
    TotalUpdate(g, a, r, true);
    TotalUpdate(g, a, r, false);
    assert Ended(tasks[id := t], ok) == Ended(tasks, ok) + {id};
    assert Ended(tasks[id := t], !ok) == Ended(tasks, !ok);
  }

  lemma OwnedUnmoved(tasks: TaskMap, id: TaskId, t: Task, g: Agents)
    requires Owned(tasks, g)
    requires t.status.Holder() == if id in tasks then tasks[id].status.Holder() else None
    ensures Owned(tasks[id := t], g)
  {
  }

  lemma OwnedAssign(tasks: TaskMap, id: TaskId, t: Task, g: Agents, a: AgentId, r: AgentRecord)
    requires Owned(tasks, g) && id in tasks && tasks[id].status.Holder().None? && a in g && !g[a].status.Busy?
    requires t.status.Holder() == Some(a) && r.status == Busy(id) && r.descriptor == g[a].descriptor
    ensures Owned(tasks[id := t], g[a := r])
  {
  }

  lemma OwnedFinish(tasks: TaskMap, id: TaskId, t: Task, g: Agents, a: AgentId, r: AgentRecord)
    requires Owned(tasks, g) && id in tasks && tasks[id].status.Holder() == Some(a)
    requires t.status.Holder().None? && r.status == Ready && a in g && r.descriptor == g[a].descriptor
    ensures Owned(tasks[id := t], g[a := r])
  {
  }

  // ---- Every permitted call keeps the invariant ----

  lemma RegisterKeepsInv(s: Swarm, d: AgentDescriptor, now: Timestamp)
    requires Inv(s)
    ensures Inv(s.RegisterAgent(d, now).0)
  {
    hide QueueAgrees, Accounted, Owned, Sup.Forest;
    if d.id !in s.agents {
      AccountsJoin(s.tasks, s.agents, NewRecord(d, now), s.retired);
      OwnedJoin(s.tasks, s.agents, NewRecord(d, now));
      Sup.RegisterRootKeepsForest(s.nodes, d.id);
    }
  }

  lemma ReadyKeepsInv(s: Swarm, a: AgentId, now: Timestamp)
    requires Inv(s) && Permitted(s, SetAgentReady(a))
    ensures Inv(s.SetAgentReady(a, now).0)
  {
    hide QueueAgrees, Accounted, Sup.Forest;
    if a in s.agents {
      AccountsRestatus(s.tasks, s.agents, a, s.agents[a].(status := Ready, lastSeenAt := now), s.retired);
    }
  }

  lemma DeregisterKeepsInv(s: Swarm, a: AgentId)
    requires Inv(s) && Permitted(s, DeregisterAgent(a))
    ensures Inv(s.DeregisterAgent(a).0)
  {
    hide QueueAgrees, Accounted, Owned, Sup.Forest;
    if a in s.agents {
      AccountsRetire(s.tasks, s.agents, a, s.retired);
      OwnedLeave(s.tasks, s.agents, a);
      Sup.DeregisterKeepsForest(s.nodes, a);
    }
  }

  lemma SupervisorKeepsInv(s: Swarm, a: AgentId, sup: AgentId)
    requires Inv(s) && Permitted(s, SetSupervisor(a, sup))
    ensures Inv(s.SetSupervisor(a, sup).0)
  {
    Sup.RegisterUnderLinks(s.nodes, a, sup);
    if s.SetSupervisor(a, sup).1.Ok? {
      Sup.RegisterUnderKeepsForestIff(s.nodes, a, sup);
    }
  }

  lemma AdmitAgrees(tasks: TaskMap, q: Queue, task: Task, now: Timestamp)
    requires QueueAgrees(tasks, q) && task.id !in tasks && task.status.Pending?
    ensures q.Enqueue(task, now).1.Ok? && QueueAgrees(tasks[task.id := task], q.Enqueue(task, now).0)
  {
    EnqueueKeepsWellFormed(q, task, now);
  }

  // Storing a fresh pending task in the map and in the queue.
  lemma AdmitKeepsInv(s: Swarm, task: Task, now: Timestamp)
    requires Inv(s) && task.id !in s.tasks && task.status.Pending?
    ensures s.queue.Enqueue(task, now).1.Ok?
    ensures Inv(s.(tasks := s.tasks[task.id := task], queue := s.queue.Enqueue(task, now).0))
  {
    hide QueueAgrees, Owned, Accounted, Supervised, Queue.Enqueue;
    AdmitAgrees(s.tasks, s.queue, task, now);
    AccountsUnmoved(s.tasks, task.id, task, s.agents, s.retired);
    OwnedUnmoved(s.tasks, task.id, task, s.agents);
    SetsUpdate(s.tasks, task.id, task, true);
    assert InFlight(s.tasks[task.id := task]) == InFlight(s.tasks);
  }

  lemma SubmitKeepsInv(s: Swarm, id: TaskId, spec: TaskSpec, policy: Option<SwarmError>, now: Timestamp)
    requires Inv(s) && id !in s.tasks
    ensures Inv(s.SubmitTask(id, spec, policy, now).0)
  {
    AdmitKeepsInv(s, NewTask(id, spec.WithDefaultTimeout(s.defaultTimeout), now), now);
  }

  lemma ImportKeepsInv(s: Swarm, task: Task, policy: Option<SwarmError>, now: Timestamp)
    requires Inv(s)
    ensures Inv(s.ImportTask(task, policy, now).0)
  {
    if task.status.Pending? && task.id !in s.tasks {
      AdmitKeepsInv(s, task.(spec := task.spec.WithDefaultTimeout(s.defaultTimeout)), now);
    }
  }

  // Taking a pending task out of the queue while giving it another status.
  lemma LeavePendingAgrees(tasks: TaskMap, q: Queue, id: TaskId, t: Task)
    requires QueueAgrees(tasks, q) && id in q.index && t.id == id && !t.status.Pending?
    ensures q.Remove(id).1.Ok? && QueueAgrees(tasks[id := t], q.Remove(id).0)
  {
    RemoveKeepsWellFormed(q, id);
  }

  lemma QueuedIffPending(tasks: TaskMap, q: Queue, id: TaskId)
    requires QueueAgrees(tasks, q)
    ensures id in q.index <==> id in tasks && tasks[id].status.Pending?
  {
  }

  lemma AssignKeepsInv(s: Swarm, id: TaskId, a: AgentId, now: Timestamp)
    requires Inv(s) && id in s.queue.index && a in s.agents && s.agents[a].status.Ready?
    requires |InFlight(s.tasks)| < s.maxConcurrent
    ensures Inv(s.Assign(id, a, now).0) && s.Assign(id, a, now).1 == Ok(Some(id))
    ensures id in s.tasks
    ensures s.Assign(id, a, now).0
         == s.(tasks := s.tasks[id := s.tasks[id].(status := Scheduled(a), updatedAt := now)],
               queue := s.queue.Remove(id).0,
               agents := s.agents[a := s.agents[a].(status := Busy(id), lastSeenAt := now)])
  {
    hide QueueAgrees, Accounted, Sup.Forest, Owned;
    TasksNamed(s.tasks, s.queue);
    QueuedIffPending(s.tasks, s.queue, id);
    var t := s.tasks[id].(status := Scheduled(a), updatedAt := now);
    var r := s.agents[a].(status := Busy(id), lastSeenAt := now);
    LeavePendingAgrees(s.tasks, s.queue, id, t);
    AccountsUnmoved(s.tasks, id, t, s.agents, s.retired);
    AccountsRestatus(s.tasks[id := t], s.agents, a, r, s.retired);
    OwnedAssign(s.tasks, id, t, s.agents, a, r);
    SetsUpdate(s.tasks, id, t, true);
    assert s.Assign(id, a, now).0 == s.(tasks := s.tasks[id := t], queue := s.queue.Remove(id).0, agents := s.agents[a := r]);
  }

  // Why a scheduling attempt ended as it did: a policy error, the limit, an empty queue, nobody
  // able to take the head, or an assignment of the head to an able agent, carried out in full.
  ghost predicate Explained(s: Swarm, policy: Option<SwarmError>, now: Timestamp,
                            s': Swarm, r: Result<Option<TaskId>, SwarmError>) {
    match r
    case Err(e) => policy == Some(e) && s' == s
    case Ok(None) =>
      && s' == s
      && (|| |InFlight(s.tasks)| >= s.maxConcurrent
          || s.queue.Peek().None?
          || (policy.None? && forall a | a in s.agents :: !CanTake(s.agents[a], s.queue.Peek().value)))
    case Ok(Some(id)) =>
      && policy.None? && id in s.tasks && s.queue.Peek() == Some(s.tasks[id]) && Inv(s')
      && exists a :: a in s.agents && CanTake(s.agents[a], s.tasks[id]) && (s', r) == s.Assign(id, a, now)
  }

  lemma HeadIsPending(s: Swarm)
    requires Inv(s) && s.queue.Peek().Some?
    ensures var task := s.queue.Peek().value; task.id in s.queue.index && task.id in s.tasks && s.tasks[task.id] == task
  {
    hide Owned, Accounted, Sup.Forest;
    DequeueIsRemoveOfPeek(s.queue);
    assert Least(s.queue.queue.Keys) in s.queue.queue;
  }

  lemma EveryoneIsRegistered(order: seq<AgentId>, g: Agents)
    requires Enumerates(order, g.Keys)
    ensures forall a | a in order :: a in g
  {
  }

  lemma KeysMatch(s: Swarm)
    requires Inv(s)
    ensures KeyedById(s.agents)
  {
  }

  lemma AssignmentIsExplained(s: Swarm, now: Timestamp, id: TaskId, a: AgentId)
    requires Inv(s) && |InFlight(s.tasks)| < s.maxConcurrent && s.queue.Peek().Some?
    requires BestChoice(s.agents, s.queue.Peek().value, Assigned(id, a))
    ensures Explained(s, None, now, s.Assign(id, a, now).0, s.Assign(id, a, now).1) && Inv(s.Assign(id, a, now).0)
  {
    hide Inv, InFlight, Queue.Peek, Swarm.Assign, Prefers;
    HeadIsPending(s);
    AssignKeepsInv(s, id, a, now);
  }

  lemma WaitingIsExplained(s: Swarm, now: Timestamp, id: TaskId)
    requires Inv(s) && s.queue.Peek().Some? && BestChoice(s.agents, s.queue.Peek().value, NoCapableAgent(id))
    ensures Explained(s, None, now, s, Ok(None))
  {
    hide Inv, InFlight, Queue.Peek;
  }

  // Under the invariant scheduling never fails half-way: the error returns that follow
  // `task_queue.remove` are unreachable, so no task is lost between queue and agent.
  lemma ScheduleNeverLosesATask(s: Swarm, policy: Option<SwarmError>, order: seq<AgentId>, now: Timestamp)
    requires Inv(s) && Enumerates(order, s.agents.Keys)
    ensures var (s', r) := s.TryScheduleNext(policy, order, now);
            Explained(s, policy, now, s', r) && Inv(s')
  {
    hide Inv, Enumerates, Schedule, Queue.Peek, Swarm.Assign, BestChoice, InFlight, CanTake;
    EveryoneIsRegistered(order, s.agents);
    if |InFlight(s.tasks)| < s.maxConcurrent && s.queue.Peek().Some? && policy.None? {
      KeysMatch(s);
      ScheduleChoosesBest(s.agents, order, s.queue.Peek().value);
      match Schedule(Records(s.agents, order), s.queue.Peek().value) {
        case NoCapableAgent(id) => WaitingIsExplained(s, now, id);
        case Assigned(id, a) => AssignmentIsExplained(s, now, id, a);
      }
    }
  }

  lemma NonPendingUpdateAgrees(tasks: TaskMap, q: Queue, id: TaskId, t: Task)
    requires QueueAgrees(tasks, q) && id in tasks && !tasks[id].status.Pending? && t.id == id && !t.status.Pending?
    ensures QueueAgrees(tasks[id := t], q)
  {
  }

  lemma RunningKeepsInv(s: Swarm, id: TaskId, t: Task)
    requires Inv(s) && id in s.tasks && s.tasks[id].status.Scheduled?
    requires t.id == id && t.status.Running? && t.status.Holder() == s.tasks[id].status.Holder()
    ensures Inv(s.(tasks := s.tasks[id := t]))
  {
    hide QueueAgrees, Owned, Accounted, Supervised;
    NonPendingUpdateAgrees(s.tasks, s.queue, id, t);
    AccountsUnmoved(s.tasks, id, t, s.agents, s.retired);
    OwnedUnmoved(s.tasks, id, t, s.agents);
    SetsUpdate(s.tasks, id, t, true);
    assert InFlight(s.tasks[id := t]) == InFlight(s.tasks);
  }

  lemma TasksOf(s: Swarm)
    requires Inv(s)
    ensures forall id | id in s.tasks :: s.tasks[id].id == id
  {
  }

  lemma StartedKeepsInv(s: Swarm, id: TaskId, a: AgentId, now: Timestamp)
    requires Inv(s)
    ensures Inv(s.RecordTaskStarted(id, a, now).0)
    ensures s.RecordTaskStarted(id, a, now).1.Ok? <==> id in s.tasks && s.tasks[id].status == Scheduled(a)
  {
    hide Inv;
    TasksOf(s);
    if id in s.tasks && s.tasks[id].status == Scheduled(a) {
      RunningKeepsInv(s, id, s.tasks[id].StartRunning(a, now).value);
    }
  }

  lemma HolderIsBusy(s: Swarm, id: TaskId, a: AgentId)
    requires Inv(s) && Holds(s, id, a)
    ensures a in s.agents && s.agents[a].status == Busy(id)
  {
  }

  lemma TasksNamed(tasks: TaskMap, q: Queue)
    requires QueueAgrees(tasks, q)
    ensures forall id | id in tasks :: tasks[id].id == id
  {
  }

  // The common effect of the three outcome reports.
  function Finish(s: Swarm, id: TaskId, a: AgentId, t: Task, ok: bool, now: Timestamp): Swarm
    requires a in s.agents
  {
    var r := s.agents[a].(status := Ready, lastSeenAt := now);
    s.(tasks := s.tasks[id := t],
       agents := s.agents[a := if ok then r.(tasksCompleted := r.tasksCompleted + 1) else r.(tasksFailed := r.tasksFailed + 1)])
  }

  lemma FinishKeepsInv(s: Swarm, id: TaskId, a: AgentId, t: Task, ok: bool, now: Timestamp)
    requires Inv(s) && Holds(s, id, a) && t.id == id && EndedAs(t.status, ok)
    ensures a in s.agents && Inv(Finish(s, id, a, t, ok, now))
  {
    hide QueueAgrees, Accounted, Sup.Forest;
    var s' := Finish(s, id, a, t, ok, now);
    TasksNamed(s.tasks, s.queue);
    NonPendingUpdateAgrees(s.tasks, s.queue, id, t);
    AccountsFinish(s.tasks, id, t, s.agents, a, s'.agents[a], ok, s.retired);
    OwnedFinish(s.tasks, id, t, s.agents, a, s'.agents[a]);
    SetsUpdate(s.tasks, id, t, ok);
  }

  lemma CompletedFinishes(s: Swarm, id: TaskId, a: AgentId, output: string, now: Timestamp)
    requires id in s.tasks && a in s.agents
    ensures s.RecordTaskCompleted(id, a, output, now)
         == (Finish(s, id, a, s.tasks[id].Complete(output, now), true, now), Ok(()))
  {
    OutcomeUpdate(s.agents, a, now);
    hide UpdateStatus;
  }

  lemma FailedFinishes(s: Swarm, id: TaskId, a: AgentId, reason: SwarmError, now: Timestamp)
    requires id in s.tasks && a in s.agents
    ensures s.RecordTaskFailed(id, a, reason, now)
         == (Finish(s, id, a, s.tasks[id].Fail(reason, now), false, now), Ok(()))
  {
    OutcomeUpdate(s.agents, a, now);
    hide UpdateStatus;
  }

  lemma TimedOutFinishes(s: Swarm, id: TaskId, a: AgentId, now: Timestamp)
    requires id in s.tasks && a in s.agents
    ensures s.RecordTaskTimedOut(id, a, now)
         == (Finish(s, id, a, s.tasks[id].TimeOut(now), false, now), Ok(()))
  {
    OutcomeUpdate(s.agents, a, now);
    hide UpdateStatus;
  }

  lemma CancelKeepsInv(s: Swarm, id: TaskId, now: Timestamp)
    requires Inv(s)
    ensures Inv(s.CancelTask(id, now).0)
    ensures s.CancelTask(id, now).1.Ok? <==> id in s.tasks && s.tasks[id].status.Pending?
  {
    hide QueueAgrees, Accounted, Sup.Forest, Owned;
    QueuedIffPending(s.tasks, s.queue, id);
    if id in s.queue.index {
      var t := s.tasks[id].(status := Cancelled(now));
      TasksNamed(s.tasks, s.queue);
      LeavePendingAgrees(s.tasks, s.queue, id, t);
      AccountsUnmoved(s.tasks, id, t, s.agents, s.retired);
      OwnedUnmoved(s.tasks, id, t, s.agents);
      SetsUpdate(s.tasks, id, t, true);
      assert InFlight(s.tasks[id := t]) == InFlight(s.tasks);
    }
  }

  lemma StepKeepsInv(s: Swarm, c: Call, now: Timestamp)
    requires Inv(s) && Permitted(s, c)
    ensures Inv(Next(s, c, now))
  {
    match c {
      case RegisterAgent(d) => RegisterKeepsInv(s, d, now);
      case SetAgentReady(a) => ReadyKeepsInv(s, a, now);
      case DeregisterAgent(a) => DeregisterKeepsInv(s, a);
      case SetSupervisor(a, sup) => SupervisorKeepsInv(s, a, sup);
      case SubmitTask(id, spec, policy) => SubmitKeepsInv(s, id, spec, policy, now);
      case ImportTask(task, policy) => ImportKeepsInv(s, task, policy, now);
      case TryScheduleNext(policy, order) => ScheduleNeverLosesATask(s, policy, order, now);
      case RecordTaskStarted(id, a) => StartedKeepsInv(s, id, a, now);
      case RecordTaskCompleted(id, a, output) =>
        HolderIsBusy(s, id, a);
        CompletedFinishes(s, id, a, output, now);
        FinishKeepsInv(s, id, a, s.tasks[id].Complete(output, now), true, now);
      case RecordTaskFailed(id, a, reason) =>
        HolderIsBusy(s, id, a);
        FailedFinishes(s, id, a, reason, now);
        FinishKeepsInv(s, id, a, s.tasks[id].Fail(reason, now), false, now);
      case RecordTaskTimedOut(id, a) =>
        HolderIsBusy(s, id, a);
        TimedOutFinishes(s, id, a, now);
        FinishKeepsInv(s, id, a, s.tasks[id].TimeOut(now), false, now);
      case CancelTask(id) => CancelKeepsInv(s, id, now);
    }
  }

  lemma InitialInv(maxConcurrent: nat, defaultTimeout: Option<Duration>)
    ensures Inv(NewSwarm(maxConcurrent, defaultTimeout))
  {
    assert Ended(map[], true) == {} && Ended(map[], false) == {} && InFlight(map[]) == {};
  }

  // Every state of every run that respects the protocol satisfies the invariant.
  lemma {:induction false} RunKeepsInv(s: Swarm, calls: seq<TimedCall>)
    requires Inv(s) && Runs(s, calls)
    ensures Inv(After(s, calls))
    decreases |calls|
  {
    if calls != [] {
      StepKeepsInv(s, calls[0].call, calls[0].at);
      RunKeepsInv(Next(s, calls[0].call, calls[0].at), calls[1..]);
    }
  }
}
