/** Whom the dispatchers of `Dispatchers` assign tasks to: to the scheduler's choice, and never two
    tasks to one agent exactly when no two of them can be past the limit test at a time. */
module DispatcherAssignments {
  import opened Wrappers
  import opened Core
  import opened Tasks
  import opened TaskQueues
  import opened Registry
  import opened Scheduling
  import O = Orchestration
  import opened Dispatchers
  import opened DispatcherBound

  // ---- Choices are the scheduler's ----

  lemma StepKeepsKeyed(s: System, a: Action)
    requires KeyedById(s.agents) && Enabled(s, a)
    ensures KeyedById(Do(s, a).agents)
  {
    hide Queue.Peek, Queue.Remove, Queue.Enqueue, BestChoice, O.InFlight, Commits;
  }

  lemma {:induction false} RunKeepsKeyed(s: System, actions: seq<Action>)
    requires KeyedById(s.agents) && Runs(s, actions)
    ensures KeyedById(After(s, actions).agents)
    decreases |actions|
  {
    hide KeyedById, Do, Enabled;
    if actions != [] {
      StepKeepsKeyed(s, actions[0]);
      RunKeepsKeyed(Do(s, actions[0]), actions[1..]);
    }
  }

  // In every reachable state an approved dispatcher moves on exactly as the scheduler can decide
  // about the task it has peeked, over some order of the registry.
  lemma ChoicesAreTheSchedulers(k: nat, limit: nat, actions: seq<Action>, d: Dispatcher, agent: AgentId)
    requires Runs(Fresh(k, limit), actions)
    ensures var s := After(Fresh(k, limit), actions);
            d in s.pcs && s.pcs[d].Approved? ==>
              && (Enabled(s, Choose(d, agent)) <==>
                  CanDecide(s.agents, s.pcs[d].head, Assigned(s.pcs[d].head.id, agent)))
              && (Enabled(s, NobodyCapable(d)) <==>
                  CanDecide(s.agents, s.pcs[d].head, NoCapableAgent(s.pcs[d].head.id)))
  {
    RunKeepsKeyed(Fresh(k, limit), actions);
    var s := After(Fresh(k, limit), actions);
    hide Runs, After, KeyedById, CanDecide, BestChoice;
    if d in s.pcs && s.pcs[d].Approved? {
      var head := s.pcs[d].head;
      CanDecideIff(s.agents, head, Assigned(head.id, agent));
      CanDecideIff(s.agents, head, NoCapableAgent(head.id));
    }
  }

  // ---- Dispatchers and tasks come to an end ----

  // A start or an end of a task changes that task alone; an end makes room under the limit.
  lemma TaskStepsByFields(s: System, id: TaskId, status: TaskStatus, now: Timestamp)
    requires id in s.tasks
    ensures Enabled(s, Start(id, now)) ==>
              Do(s, Start(id, now)) == s.(tasks := s.tasks[id := s.tasks[id].(status := Running(s.tasks[id].status.assignedTo, now),
                                                                               attemptCount := s.tasks[id].attemptCount + 1, updatedAt := now)])
              && O.InFlight(Do(s, Start(id, now)).tasks) == O.InFlight(s.tasks)
    ensures Enabled(s, Finish(id, status)) ==>
              Do(s, Finish(id, status)) == s.(tasks := s.tasks[id := s.tasks[id].(status := status)])
              && id in O.InFlight(s.tasks) && O.InFlight(Do(s, Finish(id, status)).tasks) == O.InFlight(s.tasks) - {id}
  {
  }

  // How far a dispatcher is from being idle again.
  function StepsToGo(pc: Pc): nat {
    match pc
    case Idle => 0
    case Committing(_, _) => 1
    case Dequeued(_, _) => 2
    case Chosen(_, _) => 3
    case Approved(_) => 4
    case Peeked(_) => 5
    case Checked => 6
  }

  // Every step after the limit test brings its dispatcher nearer to being idle, whatever the policy, the
  // scheduler and the queue say; a denial or an empty choice at once.
  lemma OwnStepAdvances(s: System, a: Action, d: Dispatcher)
    requires Enabled(s, a) && OfDispatcher(a, d)
    ensures d in s.pcs && d in Do(s, a).pcs && StepsToGo(Do(s, a).pcs[d]) < StepsToGo(s.pcs[d])
    ensures a.PolicyDenies? || a.NobodyCapable? || a.MarkBusy? ==> Do(s, a).pcs[d].Idle?
  {
    hide Queue.Peek, Queue.Remove, O.InFlight, BestChoice, Commits;
  }

  // A step by which a dispatcher goes on.
  lemma GoesOn(s: System, d: Dispatcher) returns (a: Action)
    requires KeyedById(s.agents) && d in s.pcs && !s.pcs[d].Idle?
    ensures OfDispatcher(a, d) && Enabled(s, a)
    ensures d in Do(s, a).pcs && StepsToGo(Do(s, a).pcs[d]) < StepsToGo(s.pcs[d])
  {
    hide Do, BestChoice;
    match s.pcs[d] {
      case Checked => a := PeekHead(d);
      case Peeked(_) => a := PolicyAllows(d);
      case Approved(head) =>
        var decision := SomeDecision(s.agents, head);
        a := if decision.Assigned? then Choose(d, decision.agent) else NobodyCapable(d);
      case Chosen(_, _) => a := RemoveFromQueue(d);
      case Dequeued(_, _) => a := CommitTask(d, 0);
      case Committing(_, _) => a := MarkBusy(d, 0);
    }
    OwnStepAdvances(s, a, d);
  }

  predicate OfDispatcher(a: Action, d: Dispatcher) {
    match a
    case PeekHead(x) => x == d
    case PolicyAllows(x) => x == d
    case PolicyDenies(x) => x == d
    case Choose(x, _) => x == d
    case NobodyCapable(x) => x == d
    case RemoveFromQueue(x) => x == d
    case CommitTask(x, _) => x == d
    case MarkBusy(x, _) => x == d
    case _ => false
  }

  // The scheduler can always come to some decision.
  lemma SomeDecision(g: Agents, task: Task) returns (d: SchedulingDecision)
    requires KeyedById(g)
    ensures BestChoice(g, task, d)
    ensures d == if d.Assigned? then Assigned(task.id, d.agent) else NoCapableAgent(task.id)
  {
    var order := OrderOf(g.Keys);
    EnumeratesOnly(order, g.Keys);
    hide Schedule, Enumerates;
    ScheduleChoosesBest(g, order, task);
    d := Schedule(Records(g, order), task);
  }

  // A dispatcher that has passed the limit test can always come back to rest by steps of its own: it
  // waits for nobody, whatever the others do.
  lemma {:induction false} DispatcherReturns(s: System, d: Dispatcher) returns (actions: seq<Action>)
    requires KeyedById(s.agents) && d in s.pcs
    ensures Runs(s, actions) && (forall a | a in actions :: OfDispatcher(a, d)) && |actions| <= StepsToGo(s.pcs[d])
    ensures d in After(s, actions).pcs && After(s, actions).pcs[d] == Idle
    decreases StepsToGo(s.pcs[d])
  {
    hide KeyedById, Do, Enabled, OfDispatcher;
    if s.pcs[d].Idle? {
      actions := [];
    } else {
      var a := GoesOn(s, d);
      StepKeepsKeyed(s, a);
      var rest := DispatcherReturns(Do(s, a), d);
      actions := [a] + rest;
      assert actions[1..] == rest;
    }
  }

  // ---- Double booking ----

  // At most one dispatcher ever gets past the limit test.
  ghost predicate Alone(s: System) {
    || s.pcs.Keys <= {0}
    || (s.maxConcurrent == 0 && forall d | d in s.pcs :: s.pcs[d].Idle?)
  }

  // The dispatcher is to assign its task to this agent, or has done so without marking it busy.
  predicate Books(pc: Pc, a: AgentId) {
    (pc.Chosen? || pc.Dequeued? || pc.Committing?) && pc.agent == a
  }

  // An agent with a task in flight shows it: it is busy with that task, or gone, or about to be
  // marked busy with it.
  ghost predicate Shown(s: System) {
    forall id, a | Holds(s.tasks, id, a) ::
      || a !in s.agents
      || s.agents[a].status == Busy(id)
      || exists d | d in s.pcs :: s.pcs[d] == Committing(id, a)
  }

  // The agent a dispatcher is about to book has no other task in flight.
  ghost predicate Free(s: System) {
    forall d, id, a | d in s.pcs && Books(s.pcs[d], a) && Holds(s.tasks, id, a) :: s.pcs[d] == Committing(id, a)
  }

  ghost predicate Exclusive(s: System) {
    Alone(s) && Shown(s) && Free(s) && HeldOnce(s.tasks)
  }

  lemma StepKeepsAlone(s: System, a: Action)
    requires Alone(s) && Enabled(s, a)
    ensures Alone(Do(s, a))
  {
    DoKeepsLimits(s, a);
  }

  // Tasks and agents as they were; the dispatcher books nobody new.
  lemma MoveKeepsExclusive(s: System, s': System, d: Dispatcher, pc: Pc)
    requires Exclusive(s) && d in s.pcs && Alone(s') && !s.pcs[d].Committing? && !pc.Committing?
    requires s'.tasks == s.tasks && s'.agents == s.agents && s'.pcs == s.pcs[d := pc]
    requires forall a | Books(pc, a) :: Books(s.pcs[d], a) || forall id :: !Holds(s.tasks, id, a)
    ensures Exclusive(s')
  {
  }

  // The scheduler chooses ready agents only, and no agent with a task in flight looks ready.
  lemma ReadyHoldsNothing(s: System, d: Dispatcher, agent: AgentId)
    requires Shown(s) && Alone(s) && d in s.pcs && s.pcs[d].Approved? && agent in s.agents && s.agents[agent].status.Ready?
    ensures forall id :: !Holds(s.tasks, id, agent)
  {
  }

  lemma CommitKeepsExclusive(s: System, d: Dispatcher, now: Timestamp)
    requires Exclusive(s) && Enabled(s, CommitTask(d, now))
    ensures Exclusive(Do(s, CommitTask(d, now)))
  {
    var (s', id, agent) := (Do(s, CommitTask(d, now)), s.pcs[d].task, s.pcs[d].agent);
    StepKeepsAlone(s, CommitTask(d, now));
    if Commits(s, d, now) {
      assert forall i, a :: Holds(s'.tasks, i, a) <==> if i == id then a == agent else Holds(s.tasks, i, a);
      hide Do, Enabled, Alone, Commits;
      assert s'.pcs[d] == Committing(id, agent);
    } else {
      MoveKeepsExclusive(s, s', d, Idle);
    }
  }

  lemma MarkKeepsExclusive(s: System, d: Dispatcher, now: Timestamp)
    requires Exclusive(s) && Enabled(s, MarkBusy(d, now))
    ensures Exclusive(Do(s, MarkBusy(d, now)))
  {
    StepKeepsAlone(s, MarkBusy(d, now));
  }

  // Only the tasks change, and no task is newly held.
  lemma RestatusKeepsExclusive(s: System, s': System)
    requires Exclusive(s) && s'.agents == s.agents && s'.pcs == s.pcs && s'.maxConcurrent == s.maxConcurrent
    requires forall id, a | Holds(s'.tasks, id, a) :: Holds(s.tasks, id, a)
    ensures Exclusive(s')
  {
  }

  lemma ChangeKeepsExclusive(s: System, agents: Agents)
    requires Exclusive(s) && Respects(s, agents)
    ensures Exclusive(s.(agents := agents))
  {
  }

  predicate MovesDispatcher(a: Action) {
    || a.Check? || a.PeekHead? || a.PolicyAllows? || a.PolicyDenies? || a.Choose? || a.NobodyCapable?
    || a.RemoveFromQueue?
  }

  lemma DispatcherMoveKeepsExclusive(s: System, a: Action)
    requires Exclusive(s) && Enabled(s, a) && MovesDispatcher(a)
    ensures Exclusive(Do(s, a))
  {
    StepKeepsAlone(s, a);
    if a.Choose? {
      ReadyHoldsNothing(s, a.d, a.agent);
    }
    hide Queue.Peek, Queue.Remove, O.InFlight, Exclusive, Respects;
    MoveKeepsExclusive(s, Do(s, a), a.d, Do(s, a).pcs[a.d]);
  }

  lemma ClientKeepsExclusive(s: System, a: Action)
    requires Exclusive(s) && Enabled(s, a) && !MovesDispatcher(a)
    requires !a.CommitTask? && !a.MarkBusy? && !a.ChangeAgents?
    ensures Exclusive(Do(s, a))
  {
    hide Queue.Remove, Queue.Enqueue, Exclusive, Respects;
    RestatusKeepsExclusive(s, Do(s, a));
  }

  lemma StepKeepsExclusive(s: System, a: Action)
    requires Exclusive(s) && Enabled(s, a)
    ensures Exclusive(Do(s, a))
  {
    hide Exclusive;
    match a {
      case CommitTask(d, now) => CommitKeepsExclusive(s, d, now);
      case MarkBusy(d, now) => MarkKeepsExclusive(s, d, now);
      case ChangeAgents(agents) => ChangeKeepsExclusive(s, agents);
      case _ =>
        if MovesDispatcher(a) {
          DispatcherMoveKeepsExclusive(s, a);
        } else {
          ClientKeepsExclusive(s, a);
        }
    }
  }

  lemma {:induction false} RunKeepsExclusive(s: System, actions: seq<Action>)
    requires Exclusive(s) && Runs(s, actions)
    ensures Exclusive(After(s, actions))
    decreases |actions|
  {
    hide Exclusive, Do, Enabled;
    if actions != [] {
      StepKeepsExclusive(s, actions[0]);
      RunKeepsExclusive(Do(s, actions[0]), actions[1..]);
    }
  }

  // No agent ever has two tasks in flight exactly when there is at most one dispatcher, or the limit
  // lets none of them through.
  lemma NeverDoubleBookedIff(k: nat, limit: nat)
    ensures (forall actions | Runs(Fresh(k, limit), actions) :: HeldOnce(After(Fresh(k, limit), actions).tasks))
        <==> (k <= 1 || limit == 0)
  {
    var s := Fresh(k, limit);
    if k <= 1 || limit == 0 {
      assert Exclusive(s);
      hide *;
      forall actions | Runs(s, actions) ensures HeldOnce(After(s, actions).tasks) {
        RunKeepsExclusive(s, actions);
        ExclusiveMeansOnce(After(s, actions));
      }
    } else {
      hide *;
      var actions := BoundIsAttained(k, limit);
    }
  }

  lemma ExclusiveMeansOnce(s: System)
    requires Exclusive(s)
    ensures HeldOnce(s.tasks)
  {
  }
}
