/** What each call of the orchestrator handle answers and changes (swarm-orchestrator/orchestrator.rs),
    told from the fields of the state it meets and of its arguments. */
module HandleCalls {
  import opened Wrappers
  import opened Core
  import opened Capabilities
  import opened Tasks
  import opened TaskQueues
  import opened Registry
  import opened Scheduling
  import opened Orchestration
  import opened OrchestrationInvariant
  import Sup = Supervision

  // ---- Work comes in ----

  // A name that is not blank, and no time limit or one between a millisecond and a day.
  predicate Sensible(name: string, timeout: Option<Duration>) {
    && (exists i | 0 <= i < |name| :: name[i] != ' ' && name[i] != '\t' && name[i] != '\n' && name[i] != '\r')
    && (timeout.Some? ==> 1_000_000 <= timeout.value && timeout.value <= 86_400_000_000_000)
  }

  // The time limit of the specification, or else the default one.
  function LimitOf(spec: TaskSpec, default: Option<Duration>): Option<Duration> {
    match spec.timeout
    case Some(t) => Some(t)
    case None => default
  }

  lemma SensibleIff(spec: TaskSpec, default: Option<Duration>)
    ensures var full := spec.WithDefaultTimeout(default);
            && full == TaskSpec(spec.name, spec.input, spec.requiredCapabilities, spec.priority, LimitOf(spec, default), spec.roleHint)
            && (full.Validate() <==> Sensible(spec.name, LimitOf(spec, default)))
  {
    var full := spec.WithDefaultTimeout(default);
    if full.Validate() {
      var c :| c in full.name && c !in " \t\n\r";
      var i :| 0 <= i < |full.name| && full.name[i] == c;
      assert " \t\n\r"[0] == ' ' && " \t\n\r"[1] == '\t' && " \t\n\r"[2] == '\n' && " \t\n\r"[3] == '\r';
    }
    if Sensible(spec.name, LimitOf(spec, default)) {
      var i :| 0 <= i < |spec.name| && spec.name[i] != ' ' && spec.name[i] != '\t' && spec.name[i] != '\n' && spec.name[i] != '\r';
      assert spec.name[i] in full.name && spec.name[i] !in " \t\n\r";
    }
  }

  // One more task is queued: nothing else comes or goes, and with a clock that has not gone back it
  // takes its place behind the tasks of its priority and above.
  ghost predicate OneMoreQueued(q: Queue, q': Queue, t: Task, now: Timestamp) {
    && (forall u :: u in Contents(q') <==> u in Contents(q) || u == t)
    && |Contents(q')| == |Contents(q)| + 1
    && ((forall k | k in q.queue && q.queue[k].task.spec.priority == t.spec.priority :: q.queue[k].enqueuedAt <= now) ==>
          Contents(q') == StablePush(Contents(q), t))
  }

  lemma EnqueuedIsOneMore(q: Queue, t: Task, now: Timestamp)
    requires WellFormed(q) && t.status.Pending? && t.id !in q.index
    ensures q.Enqueue(t, now).1.Ok? && OneMoreQueued(q, q.Enqueue(t, now).0, t, now)
  {
    var q' := q.Enqueue(t, now).0;
    EnqueueKeepsWellFormed(q, t, now);
    ContentsAre(q);
    ContentsAre(q');
    QueuesGrow(q, t, now);
    if forall k | k in q.queue && q.queue[k].task.spec.priority == t.spec.priority :: q.queue[k].enqueuedAt <= now {
      ClockTold(q, t, now);
      EnqueueRefinesStablePush(q, t, now);
    }
  }

  lemma ContentsAre(q: Queue)
    requires WellFormed(q)
    ensures forall u :: u in Contents(q) <==> exists k :: k in q.queue && q.queue[k].task == u
    ensures |Contents(q)| == |q.queue|
  {
    QueueSizes(q);
    DrainAllIsContents(q);
    var keys := Drained(q.queue.Keys);
    forall u ensures u in Contents(q) <==> exists k :: k in q.queue && q.queue[k].task == u {
      if u in Contents(q) {
        var i :| 0 <= i < |Contents(q)| && Contents(q)[i] == u;
        assert keys[i] in q.queue;
      }
      if k :| k in q.queue && q.queue[k].task == u {
        assert k in keys;
        var i :| 0 <= i < |keys| && keys[i] == k;
        assert Contents(q)[i] == u;
      }
    }
  }

  lemma QueuesGrow(q: Queue, t: Task, now: Timestamp)
    requires WellFormed(q) && t.status.Pending? && t.id !in q.index
    ensures var q' := q.Enqueue(t, now).0;
            && (forall k | k in q.queue :: k in q'.queue && q'.queue[k] == q.queue[k])
            && (exists k :: k in q'.queue && q'.queue[k].task == t)
            && (forall k | k in q'.queue :: k in q.queue || q'.queue[k].task == t)
            && |q'.queue| == |q.queue| + 1
  {
    var q' := q.Enqueue(t, now).0;
    var key := q.KeyFor(t, now);
    assert key in q'.queue && q'.queue[key].task == t;
    assert key !in q.queue && q'.queue.Keys == q.queue.Keys + {key};
    assert |q'.queue| == |q'.queue.Keys| && |q.queue| == |q.queue.Keys|;
  }

  lemma ClockTold(q: Queue, t: Task, now: Timestamp)
    requires WellFormed(q)
    requires forall k | k in q.queue && q.queue[k].task.spec.priority == t.spec.priority :: q.queue[k].enqueuedAt <= now
    ensures ClockNotBehind(q, t, now)
  {
  }

  // A submission is accepted exactly if its specification is sensible, with the default time limit if
  // it has none, and the policy does not object. It is then stored and queued, pending and unattempted;
  // a refused one leaves no trace.
  lemma SubmissionByFields(s: Swarm, id: TaskId, spec: TaskSpec, policy: Option<SwarmError>, now: Timestamp)
    requires Inv(s) && id !in s.tasks
    ensures var limit := LimitOf(spec, s.defaultTimeout);
            var t := Task(id, TaskSpec(spec.name, spec.input, spec.requiredCapabilities, spec.priority, limit, spec.roleHint),
                          Pending, now, now, 0);
            var (s', r) := s.SubmitTask(id, spec, policy, now);
            if Sensible(spec.name, limit) && policy.None? then
              && r == Ok(id) && OneMoreQueued(s.queue, s'.queue, t, now)
              && s' == s.(tasks := s.tasks[id := t], queue := s'.queue)
            else
              s' == s && r == Err(if Sensible(spec.name, limit) then policy.value else InvalidTaskSpec)
  {
    hide TaskSpec.Validate, TaskSpec.WithDefaultTimeout, Sensible, OneMoreQueued, Queue.Enqueue;
    SensibleIff(spec, s.defaultTimeout);
    FreshIsNotQueued(s, id);
    EnqueuedIsOneMore(s.queue, NewTask(id, spec.WithDefaultTimeout(s.defaultTimeout), now), now);
  }

  lemma FreshIsNotQueued(s: Swarm, id: TaskId)
    requires Inv(s)
    ensures WellFormed(s.queue) && (id !in s.tasks ==> id !in s.queue.index)
  {
  }

  // An import is accepted exactly if its task is pending, not tracked yet and sensible, and the policy
  // does not object; its time stamps and attempts are kept.
  lemma ImportByFields(s: Swarm, task: Task, policy: Option<SwarmError>, now: Timestamp)
    requires Inv(s)
    ensures var limit := LimitOf(task.spec, s.defaultTimeout);
            var t := task.(spec := task.spec.(timeout := limit));
            var admissible := task.status.Pending? && task.id !in s.tasks && Sensible(task.spec.name, limit);
            var (s', r) := s.ImportTask(task, policy, now);
            if admissible && policy.None? then
              && r == Ok(()) && OneMoreQueued(s.queue, s'.queue, t, now)
              && s' == s.(tasks := s.tasks[task.id := t], queue := s'.queue)
            else
              s' == s && r == Err(if admissible then policy.value else InvalidTaskSpec)
  {
    hide TaskSpec.Validate, TaskSpec.WithDefaultTimeout, Sensible, OneMoreQueued, Queue.Enqueue;
    SensibleIff(task.spec, s.defaultTimeout);
    FreshIsNotQueued(s, task.id);
    if task.status.Pending? && task.id !in s.tasks {
      EnqueuedIsOneMore(s.queue, task.(spec := task.spec.WithDefaultTimeout(s.defaultTimeout)), now);
    }
  }

  // ---- Work is handed out ----

  function UnderWay(tasks: TaskMap): set<TaskId> {
    set id | id in tasks && (tasks[id].status.Scheduled? || tasks[id].status.Running?)
  }

  // `a` can do the task, has the hinted role if anybody who can does, and has completed no more tasks
  // than anybody of the same standing.
  ghost predicate IsFirstChoice(g: Agents, task: Task, a: AgentId) {
    a in g && Able(g[a], task) && forall b | b in g && Able(g[b], task) :: NoWorse(task.spec.roleHint, g[a], g[b])
  }

  predicate NoWorse(hint: Option<string>, a: AgentRecord, b: AgentRecord) {
    match hint
    case None => a.tasksCompleted <= b.tasksCompleted
    case Some(role) =>
      && (HasRole(b, role) ==> HasRole(a, role))
      && (HasRole(b, role) == HasRole(a, role) ==> a.tasksCompleted <= b.tasksCompleted)
  }

  // With room under the limit, a task queued, the policy content and somebody able, and only then, the
  // first task of the queue is scheduled to a first choice for it, who is busy with it from then on;
  // the rest of the queue stays as it is. Otherwise nothing changes.
  lemma SchedulingByFields(s: Swarm, policy: Option<SwarmError>, order: seq<AgentId>, now: Timestamp)
    requires Inv(s) && Enumerates(order, s.agents.Keys) && forall a | a in order :: a in s.agents
    ensures var (s', r) := s.TryScheduleNext(policy, order, now);
            if |UnderWay(s.tasks)| >= s.maxConcurrent || Contents(s.queue) == [] then s' == s && r == Ok(None)
            else if policy.Some? then s' == s && r == Err(policy.value)
            else
              var head := Contents(s.queue)[0];
              if !exists b :: b in s.agents && Able(s.agents[b], head) then s' == s && r == Ok(None)
              else
                && r == Ok(Some(head.id)) && head.id in s.tasks && s.tasks[head.id] == head
                && exists a ::
                     && IsFirstChoice(s.agents, head, a)
                     && s' == s.(tasks := s.tasks[head.id := head.(status := Scheduled(a), updatedAt := now)],
                                 queue := s'.queue,
                                 agents := s.agents[a := s.agents[a].(status := Busy(head.id), lastSeenAt := now)])
                     && Contents(s'.queue) == Contents(s.queue)[1..]
  {
    hide Inv, Schedule, Enumerates, Queue.Peek, Swarm.Assign, Able, Contents;
    assert InFlight(s.tasks) == UnderWay(s.tasks);
    HeadOfQueue(s);
    if |UnderWay(s.tasks)| < s.maxConcurrent && Contents(s.queue) != [] && policy.None? {
      var head := Contents(s.queue)[0];
      KeysMatch(s);
      AssignedIsAble(s.agents, order, head);
      var d := Schedule(Records(s.agents, order), head);
      if d.Assigned? {
        FirstChoice(s.agents, order, head);
        AbleIsReady(s.agents[d.agent], head);
        AssignTakesHead(s, d.agent, now);
      }
    }
  }

  lemma HeadOfQueue(s: Swarm)
    requires Inv(s)
    ensures s.queue.Peek() == if Contents(s.queue) == [] then None else Some(Contents(s.queue)[0])
    ensures Contents(s.queue) != [] ==>
              var head := Contents(s.queue)[0];
              && head.id in s.tasks && s.tasks[head.id] == head && head.id in s.queue.index
              && Contents(s.queue.Remove(head.id).0) == Contents(s.queue)[1..]
  {
    FreshIsNotQueued(s, TaskId(0));
    DequeueTakesHead(s.queue);
    DequeueIsRemoveOfPeek(s.queue);
    if s.queue.Peek().Some? {
      HeadIsPending(s);
      assert Least(s.queue.queue.Keys) in s.queue.queue;
      hide Inv, Contents;
    }
  }

  lemma FirstChoice(g: Agents, order: seq<AgentId>, task: Task)
    requires KeyedById(g) && Enumerates(order, g.Keys) && (forall a | a in order :: a in g)
    requires Schedule(Records(g, order), task).Assigned?
    ensures IsFirstChoice(g, task, Schedule(Records(g, order), task).agent)
  {
    hide Schedule, Able, Enumerates, HasRole;
    AssignedIsAble(g, order, task);
    var chosen := Schedule(Records(g, order), task).agent;
    forall b | b in g && Able(g[b], task) ensures NoWorse(task.spec.roleHint, g[chosen], g[b]) {
      AssignedIsPreferred(g, order, task, b);
    }
  }

  lemma AbleIsReady(r: AgentRecord, task: Task)
    requires Able(r, task)
    ensures r.status == AgentStatus.Ready
  {
  }

  lemma AssignTakesHead(s: Swarm, a: AgentId, now: Timestamp)
    requires Inv(s) && Contents(s.queue) != [] && a in s.agents && s.agents[a].status == AgentStatus.Ready
    requires |UnderWay(s.tasks)| < s.maxConcurrent
    ensures var head := Contents(s.queue)[0];
            var (s', r) := s.Assign(head.id, a, now);
            && r == Ok(Some(head.id))
            && s' == s.(tasks := s.tasks[head.id := head.(status := Scheduled(a), updatedAt := now)],
                        queue := s'.queue,
                        agents := s.agents[a := s.agents[a].(status := Busy(head.id), lastSeenAt := now)])
            && Contents(s'.queue) == Contents(s.queue)[1..]
  {
    hide Inv, Swarm.Assign, Contents;
    assert InFlight(s.tasks) == UnderWay(s.tasks);
    HeadOfQueue(s);
    AssignKeepsInv(s, Contents(s.queue)[0].id, a, now);
  }

  // ---- Work is reported ----

  // A start is accepted exactly for a task scheduled to this agent.
  lemma StartByFields(s: Swarm, id: TaskId, a: AgentId, now: Timestamp)
    ensures var (s', r) := s.RecordTaskStarted(id, a, now);
            if id in s.tasks && s.tasks[id].status == Scheduled(a) then
              && r == Ok(())
              && s' == s.(tasks := s.tasks[id := s.tasks[id].(status := Running(a, now), updatedAt := now,
                                                               attemptCount := s.tasks[id].attemptCount + 1)])
            else s' == s && r == Err(if id in s.tasks then AgentInvalidState(a) else TaskNotFound(id))
  {
  }

  // What an outcome reported for the holder changes: the status of the task, and of the agent the
  // status and exactly one counter.
  ghost predicate Ends(s: Swarm, s': Swarm, id: TaskId, a: AgentId, status: TaskStatus, completed: nat, failed: nat, now: Timestamp)
    requires id in s.tasks && a in s.agents
  {
    var r := s.agents[a];
    s' == s.(tasks := s.tasks[id := s.tasks[id].(status := status, updatedAt := now)],
             agents := s.agents[a := AgentRecord(r.descriptor, AgentStatus.Ready, now, r.tasksCompleted + completed, r.tasksFailed + failed)])
  }

  lemma FinishEnds(s: Swarm, id: TaskId, a: AgentId, t: Task, ok: bool, now: Timestamp)
    requires id in s.tasks && a in s.agents && t == s.tasks[id].(status := t.status, updatedAt := now)
    ensures Ends(s, Finish(s, id, a, t, ok, now), id, a, t.status, if ok then 1 else 0, if ok then 0 else 1, now)
  {
  }

  lemma CompletionByFields(s: Swarm, id: TaskId, a: AgentId, output: string, now: Timestamp)
    requires Inv(s) && Holds(s, id, a)
    ensures a in s.agents && s.agents[a].status == Busy(id)
    ensures var (s', r) := s.RecordTaskCompleted(id, a, output, now); r == Ok(()) && Ends(s, s', id, a, Completed(now, output), 1, 0, now)
  {
    hide Inv, Swarm.RecordTaskCompleted, Finish, Ends;
    HolderIsBusy(s, id, a);
    CompletedFinishes(s, id, a, output, now);
    FinishEnds(s, id, a, s.tasks[id].Complete(output, now), true, now);
  }

  lemma FailureByFields(s: Swarm, id: TaskId, a: AgentId, reason: SwarmError, now: Timestamp)
    requires Inv(s) && Holds(s, id, a)
    ensures a in s.agents && s.agents[a].status == Busy(id)
    ensures var (s', r) := s.RecordTaskFailed(id, a, reason, now);
            r == Ok(()) && Ends(s, s', id, a, TaskStatus.Failed(now, reason, s.tasks[id].attemptCount), 0, 1, now)
  {
    hide Inv, Swarm.RecordTaskFailed, Finish, Ends;
    HolderIsBusy(s, id, a);
    FailedFinishes(s, id, a, reason, now);
    FinishEnds(s, id, a, s.tasks[id].Fail(reason, now), false, now);
  }

  lemma TimeoutByFields(s: Swarm, id: TaskId, a: AgentId, now: Timestamp)
    requires Inv(s) && Holds(s, id, a)
    ensures a in s.agents && s.agents[a].status == Busy(id)
    ensures var (s', r) := s.RecordTaskTimedOut(id, a, now); r == Ok(()) && Ends(s, s', id, a, TimedOut(now), 0, 1, now)
  {
    hide Inv, Swarm.RecordTaskTimedOut, Finish, Ends;
    HolderIsBusy(s, id, a);
    TimedOutFinishes(s, id, a, now);
    FinishEnds(s, id, a, s.tasks[id].TimeOut(now), false, now);
  }

  // A cancellation is accepted exactly for a pending task, which leaves the queue; the others keep
  // their order.
  lemma CancellationByFields(s: Swarm, id: TaskId, now: Timestamp)
    requires Inv(s)
    ensures var (s', r) := s.CancelTask(id, now);
            if id in s.tasks && s.tasks[id].status == Pending then
              && r == Ok(()) && Contents(s'.queue) == Without(Contents(s.queue), id)
              && s' == s.(tasks := s.tasks[id := s.tasks[id].(status := Cancelled(now))], queue := s'.queue)
            else s' == s && r == Err(TaskNotFound(id))
  {
    CancelKeepsInv(s, id, now);
    PendingIsQueued(s, id);
    hide Inv;
    if id in s.queue.index {
      RemoveKeepsOrder(s.queue, id);
      hide Contents;
    }
  }

  lemma PendingIsQueued(s: Swarm, id: TaskId)
    requires Inv(s)
    ensures WellFormed(s.queue) && (id in s.queue.index <==> id in s.tasks && s.tasks[id].status == Pending)
  {
  }

  // ---- Agents come and go ----

  // Registering takes a new id and adds an inactive agent without counts, and a root to the hierarchy.
  lemma RegistrationByFields(s: Swarm, d: AgentDescriptor, now: Timestamp)
    requires Inv(s)
    ensures var (s', r) := s.RegisterAgent(d, now);
            if d.id in s.agents then s' == s && r.Err?
            else
              && r == Ok(d.id) && s' == s.(agents := s'.agents, nodes := s'.nodes)
              && s'.agents == s.agents[d.id := AgentRecord(d, AgentStatus.Inactive, now, 0, 0)]
              && s'.nodes == s.nodes[d.id := Sup.Node(d.id, None, [])]
  {
  }

  // A supervisor is set exactly between two registered agents that are not the same; the one whose
  // supervisor it becomes moves with everybody below it, and nobody else's supervisor changes.
  lemma SupervisionByFields(s: Swarm, a: AgentId, supervisor: AgentId)
    requires Inv(s)
    ensures var (s', r) := s.SetSupervisor(a, supervisor);
            if a != supervisor && supervisor in s.nodes && a in s.nodes then
              && r.Ok? && s' == s.(nodes := s'.nodes) && s'.nodes.Keys == s.nodes.Keys
              && forall x | x in s.nodes ::
                   s'.nodes[x].supervisor == if x == a then Some(supervisor) else s.nodes[x].supervisor
            else
              && s' == s
              && r == Err(if a == supervisor then Internal
                          else if supervisor !in s.nodes then AgentNotFound(supervisor)
                          else AgentNotFound(a))
  {
    hide Inv, Sup.Linked, Sup.RegisterUnder;
    NodesAreLinked(s);
    Sup.RegisterUnderLinks(s.nodes, a, supervisor);
    WhyRefused(s.nodes, a, supervisor);
  }

  lemma WhyRefused(n: Sup.Nodes, a: AgentId, supervisor: AgentId)
    ensures a == supervisor || a !in n || supervisor !in n ==>
              Sup.RegisterUnder(n, a, supervisor).1 ==
                Err(if a == supervisor then Internal
                    else if supervisor !in n then AgentNotFound(supervisor)
                    else AgentNotFound(a))
  {
  }

  lemma NodesAreLinked(s: Swarm)
    requires Inv(s)
    ensures Sup.Linked(s.nodes)
  {
  }

  lemma ReadyingByFields(s: Swarm, a: AgentId, now: Timestamp)
    ensures var (s', r) := s.SetAgentReady(a, now);
            if a in s.agents then
              r == Ok(()) && s' == s.(agents := s.agents[a := s.agents[a].(status := AgentStatus.Ready, lastSeenAt := now)])
            else s' == s && r == Err(AgentNotFound(a))
  {
  }

  // Leaving takes the agent out of the registry and the hierarchy, and its counts are remembered.
  lemma LeavingByFields(s: Swarm, a: AgentId)
    requires Inv(s)
    ensures var (s', r) := s.DeregisterAgent(a);
            if a in s.agents then
              && r == Ok(()) && s'.agents == s.agents - {a} && s'.nodes.Keys == s.nodes.Keys - {a}
              && s'.retired.completed == s.retired.completed + s.agents[a].tasksCompleted
              && s'.retired.failed == s.retired.failed + s.agents[a].tasksFailed
              && s'.tasks == s.tasks && s'.queue == s.queue
            else s' == s && r == Err(AgentNotFound(a))
  {
    if a in s.agents {
      Sup.DeregisterKeepsForest(s.nodes, a);
    }
  }
}
