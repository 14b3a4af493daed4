/** What the invariant gives for whole runs: lifecycles only go forward, outcomes are final,
    a held task is untouched by other clients, and the books balance. */
module OrchestrationRuns {
  import opened Wrappers
  import opened Core
  import opened Tasks
  import opened TaskQueues
  import opened Registry
  import opened Scheduling
  import opened Orchestration
  import opened OrchestrationInvariant

  function Phase(status: TaskStatus): nat {
    match status
    case Pending => 0
    case Scheduled(_) => 1
    case Running(_, _) => 2
    case _ => 3
  }

  // One lifecycle transition, or none. Identity and specification never change.
  predicate Advances(t: Task, t': Task) {
    || t' == t
    || (&& t'.id == t.id && t'.spec == t.spec && t'.createdAt == t.createdAt
        && t.attemptCount <= t'.attemptCount
        && match t'.status
           case Pending => false
           case Scheduled(_) => t.status.Pending?
           case Running(a, _) => t.status == Scheduled(a) && t'.attemptCount == t.attemptCount + 1
           case Cancelled(_) => t.status.Pending?
           case _ => t.status.Holder().Some?)
  }

  ghost predicate TasksAdvance(tasks: TaskMap, tasks': TaskMap) {
    forall id | id in tasks :: id in tasks' && Advances(tasks[id], tasks'[id])
  }

  // The part of the invariant on which lifecycles depend.
  ghost predicate QueuedArePending(s: Swarm) {
    forall id | id in s.queue.index && id in s.tasks :: s.tasks[id].status.Pending?
  }

  lemma AssignAdvances(s: Swarm, id: TaskId, a: AgentId, now: Timestamp)
    requires QueuedArePending(s)
    ensures TasksAdvance(s.tasks, s.Assign(id, a, now).0.tasks)
  {
  }

  lemma ScheduleAdvances(s: Swarm, policy: Option<SwarmError>, order: seq<AgentId>, now: Timestamp)
    requires QueuedArePending(s) && forall a | a in order :: a in s.agents
    ensures TasksAdvance(s.tasks, s.TryScheduleNext(policy, order, now).0.tasks)
  {
    forall id, a ensures TasksAdvance(s.tasks, s.Assign(id, a, now).0.tasks) {
      AssignAdvances(s, id, a, now);
    }
  }

  lemma ReportAdvances(s: Swarm, c: Call, now: Timestamp)
    requires (c.RecordTaskStarted? || c.RecordTaskCompleted? || c.RecordTaskFailed? || c.RecordTaskTimedOut?)
    requires Permitted(s, c)
    ensures TasksAdvance(s.tasks, Next(s, c, now).tasks)
  {
    if c.RecordTaskStarted? {
      assert TasksAdvance(s.tasks, Next(s, c, now).tasks);
    }
  }

  lemma CallAdvances(s: Swarm, c: Call, now: Timestamp)
    requires QueuedArePending(s) && Permitted(s, c)
    ensures TasksAdvance(s.tasks, Next(s, c, now).tasks)
  {
    if c.RecordTaskStarted? || c.RecordTaskCompleted? || c.RecordTaskFailed? || c.RecordTaskTimedOut? {
      hide *;
      ReportAdvances(s, c, now);
    } else if c.TryScheduleNext? {
      hide Swarm.TryScheduleNext;
      ScheduleAdvances(s, c.policy, c.order, now);
    }
  }

  lemma StepAdvances(s: Swarm, c: Call, now: Timestamp)
    requires Inv(s) && Permitted(s, c)
    ensures TasksAdvance(s.tasks, Next(s, c, now).tasks)
  {
    assert QueuedArePending(s);
    hide Inv, Next, Permitted;
    CallAdvances(s, c, now);
  }

  // In every run no task disappears, phases never go back, and an outcome, once reached, is final.
  lemma {:induction false} RunsOnlyGoForward(s: Swarm, calls: seq<TimedCall>, id: TaskId)
    requires Inv(s) && Runs(s, calls) && id in s.tasks
    ensures id in After(s, calls).tasks
    ensures var (t, t') := (s.tasks[id], After(s, calls).tasks[id]);
            && t'.id == t.id && t'.spec == t.spec
            && Phase(t.status) <= Phase(t'.status)
            && (t.status.IsTerminal() ==> t' == t)
            && (Phase(t.status) == Phase(t'.status) ==> t' == t)
    decreases |calls|
  {
    hide Inv, Next, Permitted;
    if calls != [] {
      StepAdvances(s, calls[0].call, calls[0].at);
      StepKeepsInv(s, calls[0].call, calls[0].at);
      RunsOnlyGoForward(Next(s, calls[0].call, calls[0].at), calls[1..], id);
    }
  }

  // ---- Clients do not disturb each other's tasks ----

  predicate ReportsOn(c: Call, id: TaskId) {
    match c
    case RecordTaskStarted(i, _) => i == id
    case RecordTaskCompleted(i, _, _) => i == id
    case RecordTaskFailed(i, _, _) => i == id
    case RecordTaskTimedOut(i, _) => i == id
    case _ => false
  }

  lemma AssignSparesHeldTask(s: Swarm, x: TaskId, a: AgentId, now: Timestamp, id: TaskId)
    requires QueuedArePending(s) && id in s.tasks && s.tasks[id].status.Holder().Some?
    ensures id in s.Assign(x, a, now).0.tasks && s.Assign(x, a, now).0.tasks[id] == s.tasks[id]
  {
  }

  lemma CallSparesHeldTask(s: Swarm, c: Call, now: Timestamp, id: TaskId)
    requires QueuedArePending(s) && Permitted(s, c) && id in s.tasks && s.tasks[id].status.Holder().Some?
    requires !ReportsOn(c, id)
    ensures id in Next(s, c, now).tasks && Next(s, c, now).tasks[id] == s.tasks[id]
  {
    if c.TryScheduleNext? {
      hide Swarm.Assign;
      forall x, a ensures id in s.Assign(x, a, now).0.tasks && s.Assign(x, a, now).0.tasks[id] == s.tasks[id] {
        AssignSparesHeldTask(s, x, a, now, id);
      }
    }
  }

  lemma HeldTaskUntouched(s: Swarm, c: Call, now: Timestamp, id: TaskId)
    requires Inv(s) && Permitted(s, c) && id in s.tasks && s.tasks[id].status.Holder().Some?
    requires !ReportsOn(c, id)
    ensures id in Next(s, c, now).tasks && Next(s, c, now).tasks[id] == s.tasks[id]
  {
    assert QueuedArePending(s);
    hide Inv, Next, Permitted;
    CallSparesHeldTask(s, c, now, id);
  }

  // However others interleave, the task stays held by its agent until its own runner reports on it.
  lemma {:induction false} HeldTaskStaysHeld(s: Swarm, calls: seq<TimedCall>, id: TaskId)
    requires Inv(s) && Runs(s, calls) && id in s.tasks && s.tasks[id].status.Holder().Some?
    requires forall c | c in calls :: !ReportsOn(c.call, id)
    ensures Inv(After(s, calls)) && id in After(s, calls).tasks && After(s, calls).tasks[id] == s.tasks[id]
    decreases |calls|
  {
    hide Inv, Next, Permitted;
    if calls != [] {
      assert calls[0] in calls;
      HeldTaskUntouched(s, calls[0].call, calls[0].at, id);
      StepKeepsInv(s, calls[0].call, calls[0].at);
      HeldTaskStaysHeld(Next(s, calls[0].call, calls[0].at), calls[1..], id);
    }
  }

  // ---- Conservation ----

  function Busy(g: Agents): set<AgentId> {
    set a | a in g && g[a].status.Busy?
  }

  function CancelledIn(tasks: TaskMap): set<TaskId> {
    set id | id in tasks && tasks[id].status.Cancelled?
  }

  lemma {:induction false} MatchedSizes<A, B>(s: set<A>, t: set<B>, f: map<A, B>)
    requires forall x | x in s :: x in f && f[x] in t
    requires forall x, y | x in s && y in s && f[x] == f[y] :: x == y
    requires forall z | z in t :: exists x :: x in s && f[x] == z
    ensures |s| == |t|
  {
    if s != {} {
      var x :| x in s;
      MatchedSizes(s - {x}, t - {f[x]}, f);
    } else {
      assert t == {};
    }
  }

  lemma BusyMatchesInFlight(tasks: TaskMap, g: Agents)
    requires Owned(tasks, g)
    ensures |Busy(g)| == |InFlight(tasks)|
  {
    var held := map a | a in Busy(g) :: g[a].status.currentTask;
    forall id | id in InFlight(tasks) ensures exists a :: a in Busy(g) && held[a] == id {
      var a := tasks[id].status.Holder().value;
      assert a in Busy(g) && held[a] == id;
    }
    MatchedSizes(Busy(g), InFlight(tasks), held);
  }

  lemma QueuedMatchesPending(q: Queue)
    requires WellFormed(q)
    ensures |q.queue| == |q.index|
  {
    QueueSizes(q);
    assert |q.index| == |q.index.Keys|;
  }

  lemma FiveParts(p: set<TaskId>, f: set<TaskId>, c: set<TaskId>, x: set<TaskId>, k: set<TaskId>)
    requires p !! f && (p + f) !! c && (p + f + c) !! x && (p + f + c + x) !! k
    ensures |p + f + c + x + k| == |p| + |f| + |c| + |x| + |k|
  {
    assert |p + f + c| == |p + f| + |c|;
    assert |p + f + c + x| == |p + f + c| + |x|;
  }

  lemma OneClass(t: TaskStatus)
    ensures t.Pending? || t.Holder().Some? || EndedAs(t, true) || EndedAs(t, false) || t.Cancelled?
    ensures t.Pending? ==> t.Holder().None? && !EndedAs(t, true) && !EndedAs(t, false) && !t.Cancelled?
    ensures t.Holder().Some? ==> !EndedAs(t, true) && !EndedAs(t, false) && !t.Cancelled?
    ensures EndedAs(t, true) ==> !EndedAs(t, false) && !t.Cancelled?
    ensures EndedAs(t, false) ==> !t.Cancelled?
  {
  }

  lemma TasksPartition(tasks: TaskMap, pending: set<TaskId>)
    requires forall id :: id in pending <==> id in tasks && tasks[id].status.Pending?
    ensures |tasks| == |pending| + |InFlight(tasks)| + |Ended(tasks, true)| + |Ended(tasks, false)| + |CancelledIn(tasks)|
  {
    hide EndedAs, TaskStatus.Holder;
    var (f, c, x, k) := (InFlight(tasks), Ended(tasks, true), Ended(tasks, false), CancelledIn(tasks));
    forall id | id in tasks
      ensures id in pending + f + c + x + k
      ensures (id in pending ==> id !in f + c + x + k) && (id in f ==> id !in c + x + k)
      ensures (id in c ==> id !in x + k) && (id in x ==> id !in k)
    {
      OneClass(tasks[id].status);
    }
    FiveParts(pending, f, c, x, k);
    assert tasks.Keys == pending + f + c + x + k;
  }

  // Every task ever admitted is queued, held by a busy agent, counted as an outcome, or cancelled.
  lemma BooksBalance(s: Swarm)
    requires Inv(s)
    ensures |s.tasks| == |s.queue.queue| + |Busy(s.agents)|
                       + (Total(s.agents, true) + s.retired.completed)
                       + (Total(s.agents, false) + s.retired.failed)
                       + |CancelledIn(s.tasks)|
  {
    BusyMatchesInFlight(s.tasks, s.agents);
    QueuedMatchesPending(s.queue);
    TasksPartition(s.tasks, s.queue.index.Keys);
  }
}

/** The handle: the shared mutable components behind the control plane. */
module OrchestratorHandles {
  import opened Wrappers
  import opened Core
  import opened Tasks
  import TaskQueues
  import opened Registry
  import opened Scheduling
  import opened Orchestration
  import opened AgentRegistries
  import opened SupervisionManagers
  import opened Schedulers
  import Sup = Supervision

  class OrchestratorHandle {
    const registry: AgentRegistry
    const taskQueue: TaskQueues.TaskQueue
    const supervision: SupervisionManager
    const scheduler: Scheduler
    const defaultTaskTimeout: Option<Duration>
    const maxConcurrentTasks: nat
    var tasks: TaskMap
    ghost var retired: Tally

    ghost predicate Valid() {
      scheduler.registry == registry
    }

    ghost function Value(): Swarm
      reads this, registry, taskQueue, supervision
    {
      Swarm(tasks, taskQueue.Value(), registry.agents, supervision.nodes,
            maxConcurrentTasks, defaultTaskTimeout, retired)
    }

    constructor (maxConcurrentTasks: nat, defaultTaskTimeout: Option<Duration>)
      ensures Valid() && Value() == NewSwarm(maxConcurrentTasks, defaultTaskTimeout)
      ensures fresh(registry) && fresh(taskQueue) && fresh(supervision)
    {
      var r := new AgentRegistry();
      registry := r;
      taskQueue := new TaskQueues.TaskQueue();
      supervision := new SupervisionManager();
      scheduler := new Scheduler(r);
      this.maxConcurrentTasks, this.defaultTaskTimeout := maxConcurrentTasks, defaultTaskTimeout;
      tasks, retired := map[], Tally(0, 0);
    }

    method RegisterAgent(d: AgentDescriptor, now: Timestamp) returns (r: Result<AgentId, SwarmError>)
      modifies registry, supervision
      ensures (Value(), r) == old(Value()).RegisterAgent(d, now)
    {
      r := registry.Register(d, now);
      if r.Err? {
        return r;
      }
      supervision.RegisterRoot(r.value);
    }

    method SetAgentReady(a: AgentId, now: Timestamp) returns (r: Result<(), SwarmError>)
      modifies registry
      ensures (Value(), r) == old(Value()).SetAgentReady(a, now)
    {
      if a !in registry.agents {
        return Err(AgentNotFound(a));
      }
      r := registry.UpdateStatus(a, Ready, now);
    }

    method DeregisterAgent(a: AgentId) returns (r: Result<(), SwarmError>)
      modifies this`retired, registry, supervision
      ensures (Value(), r) == old(Value()).DeregisterAgent(a)
    {
      var removed := registry.Deregister(a);
      if removed.Err? {
        return Err(removed.error);
      }
      retired := Tally(retired.completed + removed.value.tasksCompleted, retired.failed + removed.value.tasksFailed);
      supervision.Deregister(a);
      return Ok(());
    }

    method SetSupervisor(a: AgentId, supervisor: AgentId) returns (r: Result<(), SwarmError>)
      modifies supervision
      ensures (Value(), r) == old(Value()).SetSupervisor(a, supervisor)
    {
      r := supervision.RegisterUnder(a, supervisor);
    }

    method SubmitTask(id: TaskId, spec: TaskSpec, policy: Option<SwarmError>, now: Timestamp)
        returns (r: Result<TaskId, SwarmError>)
      modifies this`tasks, taskQueue
      ensures (Value(), r) == old(Value()).SubmitTask(id, spec, policy, now)
    {
      var spec' := spec;
      if spec'.timeout.None? {
        spec' := spec'.(timeout := defaultTaskTimeout);
      }
      if !spec'.Validate() {
        return Err(InvalidTaskSpec);
      }
      if policy.Some? {
        return Err(policy.value);
      }
      var task := NewTask(id, spec', now);
      tasks := tasks[id := task];
      var queued := taskQueue.Enqueue(task, now);
      if queued.Err? {
        return Err(queued.error);
      }
      return Ok(id);
    }

    method ImportTaskSnapshot(task: Task, policy: Option<SwarmError>, now: Timestamp)
        returns (r: Result<(), SwarmError>)
      modifies this`tasks, taskQueue
      ensures (Value(), r) == old(Value()).ImportTask(task, policy, now)
    {
      if !task.status.Pending? {
        return Err(InvalidTaskSpec);
      }
      if task.id in tasks {
        return Err(InvalidTaskSpec);
      }
      var task' := task;
      if task'.spec.timeout.None? {
        task' := task'.(spec := task'.spec.(timeout := defaultTaskTimeout));
      }
      if !task'.spec.Validate() {
        return Err(InvalidTaskSpec);
      }
      if policy.Some? {
        return Err(policy.value);
      }
      r := taskQueue.Enqueue(task', now);
      if r.Err? {
        return r;
      }
      tasks := tasks[task'.id := task'];
    }

    method InFlightTaskCount() returns (n: nat)
      ensures n == |InFlight(tasks)|
    {
      n := 0;
      ghost var counted: set<TaskId> := {};
      var rest := tasks.Keys;
      while rest != {}
        invariant rest <= tasks.Keys && counted !! rest
        invariant counted == (set id | id in InFlight(tasks) && id !in rest) && n == |counted|
        decreases |rest|
      {
        var id :| id in rest;
        rest := rest - {id};
        if tasks[id].status.Scheduled? || tasks[id].status.Running? {
          assert counted + {id} == (set x | x in InFlight(tasks) && x !in rest);
          counted, n := counted + {id}, n + 1;
        }
      }
      assert counted == InFlight(tasks);
    }

    method TryScheduleNext(policy: Option<SwarmError>, now: Timestamp)
        returns (r: Result<Option<TaskId>, SwarmError>, ghost order: seq<AgentId>)
      requires Valid()
      modifies this`tasks, taskQueue, registry
      ensures Enumerates(order, old(registry.agents).Keys)
      ensures (Value(), r) == old(Value()).TryScheduleNext(policy, order, now)
    {
      ghost var records;
      records, order := registry.AllAgents();
      var inFlight := InFlightTaskCount();
      if inFlight >= maxConcurrentTasks {
        return Ok(None), order;
      }
      var head := taskQueue.Peek();
      if head.None? {
        return Ok(None), order;
      }
      if policy.Some? {
        return Err(policy.value), order;
      }
      var decision;
      decision, order := scheduler.Schedule(head.value);
      match decision {
        case NoCapableAgent(_) =>
          return Ok(None), order;
        case Assigned(id, a) =>
          r := Commit(id, a, now);
      }
    }

    // The commit half of `try_schedule_next`.
    method Commit(id: TaskId, a: AgentId, now: Timestamp) returns (r: Result<Option<TaskId>, SwarmError>)
      modifies this`tasks, taskQueue, registry
      ensures (Value(), r) == old(Value()).Assign(id, a, now)
    {
      var removed := taskQueue.Remove(id);
      if removed.Err? {
        return Err(removed.error);
      }
      if id !in tasks {
        return Err(TaskNotFound(id));
      }
      var t := tasks[id].Schedule(a, now);
      if t.Err? {
        return Err(AgentInvalidState(a));
      }
      tasks := tasks[id := t.value];
      var busy := registry.UpdateStatus(a, Busy(id), now);
      if busy.Err? {
        return Err(busy.error);
      }
      return Ok(Some(id));
    }

    method RecordTaskStarted(id: TaskId, a: AgentId, now: Timestamp) returns (r: Result<(), SwarmError>)
      modifies this`tasks
      ensures (Value(), r) == old(Value()).RecordTaskStarted(id, a, now)
    {
      if id !in tasks {
        return Err(TaskNotFound(id));
      }
      var t := tasks[id].StartRunning(a, now);
      if t.Err? {
        return Err(AgentInvalidState(a));
      }
      tasks := tasks[id := t.value];
      return Ok(());
    }

    method RecordTaskCompleted(id: TaskId, a: AgentId, output: string, now: Timestamp)
        returns (r: Result<(), SwarmError>)
      modifies this`tasks, registry
      ensures (Value(), r) == old(Value()).RecordTaskCompleted(id, a, output, now)
    {
      if id !in tasks {
        return Err(TaskNotFound(id));
      }
      tasks := tasks[id := tasks[id].Complete(output, now)];
      r := registry.UpdateStatus(a, Ready, now);
      if r.Err? {
        return r;
      }
      registry.RecordTaskCompleted(a);
    }

    method RecordTaskFailed(id: TaskId, a: AgentId, reason: SwarmError, now: Timestamp)
        returns (r: Result<(), SwarmError>)
      modifies this`tasks, registry
      ensures (Value(), r) == old(Value()).RecordTaskFailed(id, a, reason, now)
    {
      if id !in tasks {
        return Err(TaskNotFound(id));
      }
      tasks := tasks[id := tasks[id].Fail(reason, now)];
      r := registry.UpdateStatus(a, Ready, now);
      if r.Err? {
        return r;
      }
      registry.RecordTaskFailed(a);
    }

    method RecordTaskTimedOut(id: TaskId, a: AgentId, now: Timestamp) returns (r: Result<(), SwarmError>)
      modifies this`tasks, registry
      ensures (Value(), r) == old(Value()).RecordTaskTimedOut(id, a, now)
    {
      if id !in tasks {
        return Err(TaskNotFound(id));
      }
      tasks := tasks[id := tasks[id].TimeOut(now)];
      r := registry.UpdateStatus(a, Ready, now);
      if r.Err? {
        return r;
      }
      registry.RecordTaskFailed(a);
    }

    method CancelTask(id: TaskId, now: Timestamp) returns (r: Result<(), SwarmError>)
      modifies this`tasks, taskQueue
      ensures (Value(), r) == old(Value()).CancelTask(id, now)
    {
      var removed := taskQueue.Remove(id);
      if removed.Err? {
        return Err(removed.error);
      }
      if id in tasks {
        tasks := tasks[id := tasks[id].(status := Cancelled(now))];
      }
      return Ok(());
    }
  }
}
