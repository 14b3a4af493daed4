/** Several dispatchers inside `try_schedule_next` at once (swarm-orchestrator/orchestrator.rs):
    the call checks the limit, peeks, waits for the policy, chooses an agent, dequeues and only
    then commits, and other clients act between any two of these steps. */
module Dispatchers {
  import opened Wrappers
  import opened Core
  import opened Tasks
  import opened TaskQueues
  import opened Registry
  import opened Scheduling
  import opened Orchestration

  type Dispatcher = nat

  // Where a dispatcher stands. `Checked` up to `Dequeued` have passed the limit test but
  // have not yet turned a task into an in-flight one.
  datatype Pc =
    | Idle
    | Checked
    | Peeked(head: Task)
    | Approved(head: Task)
    | Chosen(task: TaskId, agent: AgentId)
    | Dequeued(task: TaskId, agent: AgentId)
    | Committing(task: TaskId, agent: AgentId)
  {
    predicate IsArmed() {
      !Idle? && !Committing?
    }
  }

  // `storing` are submissions stored but not yet enqueued, `cancelling` cancellations whose
  // removal won, `removed` the log of all successful removals from the queue.
  datatype System = System(
    tasks: TaskMap,
    queue: Queue,
    agents: Agents,
    maxConcurrent: nat,
    pcs: map<Dispatcher, Pc>,
    storing: set<TaskId>,
    cancelling: set<TaskId>,
    removed: seq<TaskId>)

  datatype Action =
    | Check(d: Dispatcher)
    | PeekHead(d: Dispatcher)
    | PolicyAllows(d: Dispatcher)
    | PolicyDenies(d: Dispatcher)
    | Choose(d: Dispatcher, agent: AgentId)
    | NobodyCapable(d: Dispatcher)
    | RemoveFromQueue(d: Dispatcher)
    | CommitTask(d: Dispatcher, now: Timestamp)
    | MarkBusy(d: Dispatcher, now: Timestamp)
    | StoreSubmission(task: Task)
    | EnqueueSubmission(id: TaskId, now: Timestamp)
    | CancelRemoves(id: TaskId)
    | CancelCommits(id: TaskId, now: Timestamp)
    | Start(id: TaskId, now: Timestamp)
    | Finish(id: TaskId, status: TaskStatus)
    | ChangeAgents(agents: Agents)

  // How the registry may change under the dispatchers: whoever is busy with a task in flight stays
  // so until the task has ended, and no agent registers under the id of one that is gone while a
  // task is still booked on it.
  ghost predicate Respects(s: System, agents: Agents) {
    && KeyedById(agents)
    && forall id | id in s.tasks && s.tasks[id].status.Holder().Some? ::
         var a := s.tasks[id].status.Holder().value;
         && (a in s.agents && s.agents[a].status == Busy(id) ==> a in agents && agents[a].status == Busy(id))
         && (a !in s.agents ==> a !in agents)
  }

  // The scheduler's choice for the task that was peeked is one it can come to over the registry of
  // that moment.
  ghost predicate Enabled(s: System, a: Action) {
    match a
    case Check(d) => d in s.pcs && s.pcs[d].Idle?
    case PeekHead(d) => d in s.pcs && s.pcs[d].Checked?
    case PolicyAllows(d) => d in s.pcs && s.pcs[d].Peeked?
    case PolicyDenies(d) => d in s.pcs && s.pcs[d].Peeked?
    case Choose(d, agent) =>
      d in s.pcs && s.pcs[d].Approved? && BestChoice(s.agents, s.pcs[d].head, Assigned(s.pcs[d].head.id, agent))
    case NobodyCapable(d) =>
      d in s.pcs && s.pcs[d].Approved? && BestChoice(s.agents, s.pcs[d].head, NoCapableAgent(s.pcs[d].head.id))
    case RemoveFromQueue(d) => d in s.pcs && s.pcs[d].Chosen?
    case CommitTask(d, _) => d in s.pcs && s.pcs[d].Dequeued?
    case MarkBusy(d, _) => d in s.pcs && s.pcs[d].Committing?
    case StoreSubmission(task) => task.id !in s.tasks && task.status.Pending?
    case EnqueueSubmission(id, _) => id in s.storing && id in s.tasks
    case CancelRemoves(_) => true
    case CancelCommits(id, _) => id in s.cancelling && id in s.tasks
    case Start(id, _) => id in s.tasks && s.tasks[id].status.Scheduled?
    case Finish(id, status) => id in s.tasks && s.tasks[id].status.Holder().Some? && status.IsTerminal()
    case ChangeAgents(agents) => Respects(s, agents)
  }

  ghost function Do(s: System, a: Action): System
    requires Enabled(s, a)
  {
    match a
    case Check(d) => if |InFlight(s.tasks)| >= s.maxConcurrent then s else s.(pcs := s.pcs[d := Checked])
    case PeekHead(d) =>
      s.(pcs := s.pcs[d := if s.queue.Peek().None? then Idle else Peeked(s.queue.Peek().value)])
    case PolicyAllows(d) => s.(pcs := s.pcs[d := Approved(s.pcs[d].head)])
    case PolicyDenies(d) => s.(pcs := s.pcs[d := Idle])
    case Choose(d, agent) => s.(pcs := s.pcs[d := Chosen(s.pcs[d].head.id, agent)])
    case NobodyCapable(d) => s.(pcs := s.pcs[d := Idle])
    case RemoveFromQueue(d) =>
      var id := s.pcs[d].task;
      var (q, r) := s.queue.Remove(id);
      if r.Err? then s.(queue := q, pcs := s.pcs[d := Idle])
      else s.(queue := q, pcs := s.pcs[d := Dequeued(id, s.pcs[d].agent)], removed := s.removed + [id])
    case CommitTask(d, now) =>
      var (id, agent) := (s.pcs[d].task, s.pcs[d].agent);
      if Commits(s, d, now) then
        s.(tasks := s.tasks[id := s.tasks[id].Schedule(agent, now).value], pcs := s.pcs[d := Committing(id, agent)])
      else s.(pcs := s.pcs[d := Idle])
    case MarkBusy(d, now) =>
      s.(agents := UpdateStatus(s.agents, s.pcs[d].agent, Busy(s.pcs[d].task), now).0, pcs := s.pcs[d := Idle])
    case StoreSubmission(task) => s.(tasks := s.tasks[task.id := task], storing := s.storing + {task.id})
    case EnqueueSubmission(id, now) =>
      s.(queue := s.queue.Enqueue(s.tasks[id], now).0, storing := s.storing - {id})
    case CancelRemoves(id) =>
      var (q, r) := s.queue.Remove(id);
      if r.Err? then s.(queue := q)
      else s.(queue := q, cancelling := s.cancelling + {id}, removed := s.removed + [id])
    case CancelCommits(id, now) =>
      s.(tasks := s.tasks[id := s.tasks[id].(status := Cancelled(now))], cancelling := s.cancelling - {id})
    case Start(id, now) =>
      s.(tasks := s.tasks[id := s.tasks[id].StartRunning(s.tasks[id].status.assignedTo, now).value])
    case Finish(id, status) => s.(tasks := s.tasks[id := s.tasks[id].(status := status)])
    case ChangeAgents(agents) => s.(agents := agents)
  }

  // The commit after a won removal finds its task, still pending.
  predicate Commits(s: System, d: Dispatcher, now: Timestamp)
    requires d in s.pcs && s.pcs[d].Dequeued?
  {
    s.pcs[d].task in s.tasks && s.tasks[s.pcs[d].task].Schedule(s.pcs[d].agent, now).Ok?
  }

  ghost predicate Runs(s: System, actions: seq<Action>)
    decreases |actions|
  {
    actions == [] || (Enabled(s, actions[0]) && Runs(Do(s, actions[0]), actions[1..]))
  }

  ghost function After(s: System, actions: seq<Action>): System
    requires Runs(s, actions)
    decreases |actions|
  {
    if actions == [] then s else After(Do(s, actions[0]), actions[1..])
  }

  // ---- The concurrency bound ----

  function Armed(pcs: map<Dispatcher, Pc>): set<Dispatcher> {
    set d | d in pcs && pcs[d].IsArmed()
  }

  // Every armed dispatcher may still add one in-flight task.
  ghost predicate Bounded(s: System) {
    |InFlight(s.tasks)| + |Armed(s.pcs)| <= s.maxConcurrent + |s.pcs.Keys| - 1
  }

  // ---- Who may still touch a pending task ----

  ghost predicate NoRepeats(ids: seq<TaskId>) {
    forall i, j | 0 <= i < j < |ids| :: ids[i] != ids[j]
  }

  predicate PendingIn(tasks: TaskMap, id: TaskId) {
    id in tasks && tasks[id].id == id && tasks[id].status.Pending?
  }

  // A pending task is queued, still being stored, or owned by the one removal that won it.
  ghost predicate Claimed(s: System) {
    && WellFormed(s.queue) && NoRepeats(s.removed)
    && (forall id | id in s.removed :: id in s.tasks && id !in s.queue.index && id !in s.storing)
    && (forall id | id in s.queue.index :: PendingIn(s.tasks, id) && id !in s.storing)
    && (forall id | id in s.storing :: PendingIn(s.tasks, id))
    && (forall id | id in s.cancelling :: PendingIn(s.tasks, id) && id in s.removed)
    && (forall d | d in s.pcs && s.pcs[d].Dequeued? ::
          PendingIn(s.tasks, s.pcs[d].task) && s.pcs[d].task in s.removed && s.pcs[d].task !in s.cancelling)
    && (forall d, e | d in s.pcs && e in s.pcs && d != e && s.pcs[d].Dequeued? && s.pcs[e].Dequeued? ::
          s.pcs[d].task != s.pcs[e].task)
  }

  ghost predicate Inv(s: System) {
    Bounded(s) && Claimed(s)
  }

  lemma ArmedUpdate(pcs: map<Dispatcher, Pc>, d: Dispatcher, pc: Pc)
    requires d in pcs
    ensures Armed(pcs[d := pc]) == if pc.IsArmed() then Armed(pcs) + {d} else Armed(pcs) - {d}
    ensures pcs[d := pc].Keys == pcs.Keys
  {
  }

  lemma InFlightUpdate(tasks: TaskMap, id: TaskId, t: Task)
    ensures InFlight(tasks[id := t]) == if t.status.Holder().Some? then InFlight(tasks) + {id} else InFlight(tasks) - {id}
  {
  }

  lemma ArmedAtMostAll(pcs: map<Dispatcher, Pc>)
    ensures |Armed(pcs)| <= |pcs.Keys|
  {
    CardinalityMonotone(Armed(pcs), pcs.Keys);
  }

  lemma CardinalityMonotone(a: set<Dispatcher>, b: set<Dispatcher>)
    requires a <= b
    ensures |a| <= |b|
  {
    assert b == a + (b - a);
  }

  // A dispatcher moves on without touching queue, tasks or removals.
  lemma MoveKeepsInv(s: System, s': System, d: Dispatcher, pc: Pc)
    requires Inv(s) && d in s.pcs && !pc.Dequeued?
    requires s' == s.(pcs := s.pcs[d := pc], agents := s'.agents)
    requires pc.IsArmed() ==> s.pcs[d].IsArmed() || |InFlight(s.tasks)| < s.maxConcurrent
    ensures Inv(s')
  {
    hide Claimed;
    MoveKeepsClaims(s, s', d, pc);
    ArmedUpdate(s.pcs, d, pc);
    ArmedAtMostAll(s'.pcs);
  }

  lemma MoveKeepsClaims(s: System, s': System, d: Dispatcher, pc: Pc)
    requires Claimed(s) && d in s.pcs && !pc.Dequeued?
    requires s' == s.(pcs := s.pcs[d := pc], agents := s'.agents)
    ensures Claimed(s')
  {
    hide WellFormed, NoRepeats, PendingIn;
  }

  // What a won removal leaves in the queue and in the log.
  lemma WonRemoval(s: System, id: TaskId)
    requires Claimed(s) && id in s.queue.index
    ensures var q := s.queue.Remove(id).0;
            && s.queue.Remove(id).1.Ok? && WellFormed(q) && q.index.Keys == s.queue.index.Keys - {id}
            && NoRepeats(s.removed + [id]) && id !in s.removed && PendingIn(s.tasks, id)
  {
    RemoveKeepsWellFormed(s.queue, id);
  }

  lemma DequeueKeepsClaims(s: System, d: Dispatcher, id: TaskId, agent: AgentId)
    requires Claimed(s) && id in s.queue.index && d in s.pcs
    ensures Claimed(s.(queue := s.queue.Remove(id).0, pcs := s.pcs[d := Dequeued(id, agent)], removed := s.removed + [id]))
  {
    WonRemoval(s, id);
    hide WellFormed, NoRepeats, Queue.Remove;
  }

  lemma CancelRemovalKeepsClaims(s: System, id: TaskId)
    requires Claimed(s) && id in s.queue.index
    ensures Claimed(s.(queue := s.queue.Remove(id).0, cancelling := s.cancelling + {id}, removed := s.removed + [id]))
  {
    WonRemoval(s, id);
    hide WellFormed, NoRepeats, Queue.Remove;
  }

  lemma RemovalKeepsInv(s: System, d: Dispatcher)
    requires Inv(s) && Enabled(s, RemoveFromQueue(d))
    ensures Inv(Do(s, RemoveFromQueue(d)))
  {
    hide Claimed;
    var id := s.pcs[d].task;
    if id in s.queue.index {
      WonRemoval(s, id);
      DequeueKeepsClaims(s, d, id, s.pcs[d].agent);
      ArmedUpdate(s.pcs, d, Dequeued(id, s.pcs[d].agent));
    } else {
      MoveKeepsInv(s, Do(s, RemoveFromQueue(d)), d, Idle);
    }
  }

  // The winner of a removal always commits: its task is there and still pending.
  lemma WinnerCommits(s: System, d: Dispatcher, now: Timestamp)
    requires Inv(s) && Enabled(s, CommitTask(d, now))
    ensures Commits(s, d, now)
  {
  }

  lemma CommitKeepsInv(s: System, d: Dispatcher, now: Timestamp)
    requires Inv(s) && Enabled(s, CommitTask(d, now))
    ensures Inv(Do(s, CommitTask(d, now)))
  {
    hide Claimed, InFlight, Armed;
    var (id, agent) := (s.pcs[d].task, s.pcs[d].agent);
    WinnerCommits(s, d, now);
    WinnerOwnsTask(s, d);
    var t := s.tasks[id].Schedule(agent, now).value;
    PendingIsNotInFlight(s.tasks, id);
    DequeuedIsArmed(s.pcs, d);
    CommitKeepsClaims(s, d, t, Committing(id, agent));
    ArmedUpdate(s.pcs, d, Committing(id, agent));
    InFlightUpdate(s.tasks, id, t);
  }

  lemma PendingIsNotInFlight(tasks: TaskMap, id: TaskId)
    requires PendingIn(tasks, id)
    ensures id !in InFlight(tasks)
  {
  }

  lemma DequeuedIsArmed(pcs: map<Dispatcher, Pc>, d: Dispatcher)
    requires d in pcs && pcs[d].Dequeued?
    ensures d in Armed(pcs)
  {
  }

  lemma WinnerOwnsTask(s: System, d: Dispatcher)
    requires Claimed(s) && d in s.pcs && s.pcs[d].Dequeued?
    ensures PendingIn(s.tasks, s.pcs[d].task)
  {
  }

  lemma CommitKeepsClaims(s: System, d: Dispatcher, t: Task, pc: Pc)
    requires Claimed(s) && d in s.pcs && s.pcs[d].Dequeued? && t.id == s.pcs[d].task && !pc.Dequeued?
    ensures Claimed(s.(tasks := s.tasks[t.id := t], pcs := s.pcs[d := pc]))
  {
    hide WellFormed, NoRepeats;
  }

  lemma StoreKeepsClaims(s: System, task: Task)
    requires Claimed(s) && task.id !in s.tasks && task.status.Pending?
    ensures Claimed(s.(tasks := s.tasks[task.id := task], storing := s.storing + {task.id}))
  {
    hide WellFormed, NoRepeats;
  }

  lemma EnqueueKeepsClaims(s: System, id: TaskId, now: Timestamp)
    requires Claimed(s) && id in s.storing
    ensures Claimed(s.(queue := s.queue.Enqueue(s.tasks[id], now).0, storing := s.storing - {id}))
  {
    EnqueueAddsKey(s.queue, s.tasks[id], now);
    hide WellFormed, NoRepeats, Queue.Enqueue;
  }

  lemma EnqueueAddsKey(q: Queue, t: Task, now: Timestamp)
    requires WellFormed(q) && t.status.Pending? && t.id !in q.index
    ensures WellFormed(q.Enqueue(t, now).0) && q.Enqueue(t, now).0.index.Keys == q.index.Keys + {t.id}
  {
    EnqueueKeepsWellFormed(q, t, now);
  }

  lemma SubmissionKeepsInv(s: System, a: Action)
    requires Inv(s) && Enabled(s, a) && (a.StoreSubmission? || a.EnqueueSubmission?)
    ensures Inv(Do(s, a))
  {
    hide Claimed;
    if a.StoreSubmission? {
      StoreKeepsClaims(s, a.task);
      InFlightUpdate(s.tasks, a.task.id, a.task);
      assert InFlight(Do(s, a).tasks) == InFlight(s.tasks);
    } else {
      EnqueueKeepsClaims(s, a.id, a.now);
    }
  }

  lemma CancelCommitKeepsClaims(s: System, id: TaskId, now: Timestamp)
    requires Claimed(s) && id in s.cancelling
    ensures Claimed(s.(tasks := s.tasks[id := s.tasks[id].(status := Cancelled(now))], cancelling := s.cancelling - {id}))
  {
    hide WellFormed, NoRepeats;
  }

  lemma CancelRemovalKeepsInv(s: System, id: TaskId)
    requires Inv(s)
    ensures Inv(Do(s, CancelRemoves(id)))
  {
    hide Claimed;
    if id in s.queue.index {
      WonRemoval(s, id);
      CancelRemovalKeepsClaims(s, id);
    }
  }

  lemma CancelCommitKeepsInv(s: System, id: TaskId, now: Timestamp)
    requires Inv(s) && id in s.cancelling && id in s.tasks
    ensures Inv(Do(s, CancelCommits(id, now)))
  {
    hide Claimed;
    CancelCommitKeepsClaims(s, id, now);
    InFlightUpdate(s.tasks, id, s.tasks[id].(status := Cancelled(now)));
  }

  // An in-flight task changes status without becoming pending again.
  lemma RestatusKeepsInv(s: System, id: TaskId, t: Task)
    requires Inv(s) && id in s.tasks && s.tasks[id].status.Holder().Some?
    requires !t.status.Pending? && t.id == s.tasks[id].id
    ensures Inv(s.(tasks := s.tasks[id := t]))
  {
    hide Claimed;
    RestatusKeepsClaims(s, id, t);
    InFlightUpdate(s.tasks, id, t);
  }

  lemma RestatusKeepsClaims(s: System, id: TaskId, t: Task)
    requires Claimed(s) && id in s.tasks && s.tasks[id].status.Holder().Some?
    ensures Claimed(s.(tasks := s.tasks[id := t]))
  {
    hide WellFormed, NoRepeats;
  }

  lemma StepKeepsInv(s: System, a: Action)
    requires Inv(s) && Enabled(s, a)
    ensures Inv(Do(s, a))
  {
    hide Inv, WellFormed, InFlight;
    match a {
      case RemoveFromQueue(d) => RemovalKeepsInv(s, d);
      case CommitTask(d, now) => CommitKeepsInv(s, d, now);
      case StoreSubmission(_) => SubmissionKeepsInv(s, a);
      case EnqueueSubmission(_, _) => SubmissionKeepsInv(s, a);
      case CancelRemoves(id) => CancelRemovalKeepsInv(s, id);
      case CancelCommits(id, now) => CancelCommitKeepsInv(s, id, now);
      case Start(id, now) =>
        RestatusKeepsInv(s, id, s.tasks[id].StartRunning(s.tasks[id].status.assignedTo, now).value);
      case Finish(id, status) => RestatusKeepsInv(s, id, s.tasks[id].(status := status));
      case ChangeAgents(agents) => AgentsDoNotMatter(s, agents);
      case Check(d) =>
        if |InFlight(s.tasks)| < s.maxConcurrent {
          MoveKeepsInv(s, Do(s, a), d, Checked);
        }
      case _ => MoveKeepsInv(s, Do(s, a), a.d, Do(s, a).pcs[a.d]);
    }
  }

  lemma AgentsDoNotMatter(s: System, agents: Agents)
    requires Inv(s)
    ensures Inv(s.(agents := agents))
  {
    hide WellFormed;
  }

  lemma DoKeepsLimits(s: System, a: Action)
    requires Enabled(s, a)
    ensures Do(s, a).maxConcurrent == s.maxConcurrent && Do(s, a).pcs.Keys == s.pcs.Keys
  {
  }

  lemma {:induction false} RunKeepsInv(s: System, actions: seq<Action>)
    requires Inv(s) && Runs(s, actions)
    ensures Inv(After(s, actions))
    ensures After(s, actions).maxConcurrent == s.maxConcurrent && After(s, actions).pcs.Keys == s.pcs.Keys
    decreases |actions|
  {
    hide Inv, Do, Enabled;
    if actions != [] {
      StepKeepsInv(s, actions[0]);
      DoKeepsLimits(s, actions[0]);
      RunKeepsInv(Do(s, actions[0]), actions[1..]);
    }
  }

  // ---- Main results ----

  function AllIdle(k: nat): (pcs: map<Dispatcher, Pc>)
    ensures |pcs.Keys| == k && (forall d | d in pcs :: pcs[d] == Idle) && forall d: nat :: d in pcs <==> d < k
  {
    if k == 0 then map[] else AllIdle(k - 1)[k - 1 := Idle]
  }

  function Fresh(k: nat, maxConcurrent: nat): System {
    System(map[], EMPTY_QUEUE, map[], maxConcurrent, AllIdle(k), {}, {}, [])
  }

  lemma FreshInv(k: nat, maxConcurrent: nat)
    requires k >= 1
    ensures Inv(Fresh(k, maxConcurrent)) && |Fresh(k, maxConcurrent).pcs.Keys| == k
  {
    var s := Fresh(k, maxConcurrent);
    assert Armed(s.pcs) == {} && InFlight(s.tasks) == {};
  }

  // With k dispatchers, no interleaving has more than limit + k - 1 tasks in flight...
  lemma InFlightBound(k: nat, maxConcurrent: nat, actions: seq<Action>)
    requires k >= 1 && Runs(Fresh(k, maxConcurrent), actions)
    ensures |InFlight(After(Fresh(k, maxConcurrent), actions).tasks)| <= maxConcurrent + k - 1
  {
    FreshInv(k, maxConcurrent);
    RunKeepsInv(Fresh(k, maxConcurrent), actions);
  }

  // ...and of all competing dispatchers and cancellations exactly one removal wins per task.
  lemma OneRemovalPerTask(k: nat, maxConcurrent: nat, actions: seq<Action>)
    requires k >= 1 && Runs(Fresh(k, maxConcurrent), actions)
    ensures NoRepeats(After(Fresh(k, maxConcurrent), actions).removed)
    ensures forall d, now | Enabled(After(Fresh(k, maxConcurrent), actions), CommitTask(d, now)) ::
              Commits(After(Fresh(k, maxConcurrent), actions), d, now)
  {
    FreshInv(k, maxConcurrent);
    RunKeepsInv(Fresh(k, maxConcurrent), actions);
    var s := After(Fresh(k, maxConcurrent), actions);
    hide Runs, After;
    forall d, now | Enabled(s, CommitTask(d, now)) ensures Commits(s, d, now) {
      WinnerCommits(s, d, now);
    }
  }

  // ---- What two dispatchers can do that one cannot ----

  lemma {:induction false} RunsAppend(s: System, xs: seq<Action>, ys: seq<Action>)
    requires Runs(s, xs) && Runs(After(s, xs), ys)
    ensures Runs(s, xs + ys) && After(s, xs + ys) == After(After(s, xs), ys)
    decreases |xs|
  {
    hide Do, Enabled;
    if xs == [] {
      assert xs + ys == ys;
    } else {
      assert (xs + ys)[1..] == xs[1..] + ys;
      RunsAppend(Do(s, xs[0]), xs[1..], ys);
    }
  }

  lemma RunOfOne(s: System, a: Action)
    requires Enabled(s, a)
    ensures Runs(s, [a]) && After(s, [a]) == Do(s, a)
  {
    hide Do, Enabled;
    assert [a][1..] == [];
  }

  lemma RunOfTwo(s: System, a: Action, b: Action)
    requires Enabled(s, a) && Enabled(Do(s, a), b)
    ensures Runs(s, [a, b]) && After(s, [a, b]) == Do(Do(s, a), b)
  {
    hide Do, Enabled;
    RunOfOne(s, a);
    RunOfOne(Do(s, a), b);
    RunsAppend(s, [a], [b]);
    assert [a] + [b] == [a, b];
  }

  function Reservation(d: Dispatcher, agent: AgentId): seq<Action> {
    [Check(d), PeekHead(d)] + ([PolicyAllows(d), Choose(d, agent)] + [RemoveFromQueue(d)])
  }

  ghost function Reserved(s: System, d: Dispatcher, id: TaskId, agent: AgentId): System {
    s.(queue := s.queue.Remove(id).0, pcs := s.pcs[d := Dequeued(id, agent)], removed := s.removed + [id])
  }

  // An idle dispatcher can take the head of the queue for an agent that the scheduler can choose.
  lemma CanReserve(s: System, d: Dispatcher, head: Task, agent: AgentId)
    requires d in s.pcs && s.pcs[d].Idle? && |InFlight(s.tasks)| < s.maxConcurrent
    requires s.queue.Peek() == Some(head) && s.queue.Remove(head.id).1.Ok?
    requires BestChoice(s.agents, head, Assigned(head.id, agent))
    ensures Runs(s, Reservation(d, agent)) && After(s, Reservation(d, agent)) == Reserved(s, d, head.id, agent)
  {
    var id := head.id;
    var s1 := s.(pcs := s.pcs[d := Checked]);
    var s2 := s.(pcs := s.pcs[d := Peeked(head)]);
    var s3 := s.(pcs := s.pcs[d := Approved(head)]);
    var s4 := s.(pcs := s.pcs[d := Chosen(id, agent)]);
    Overwrite(s, d, Checked, Peeked(head));
    Overwrite(s, d, Peeked(head), Approved(head));
    Overwrite(s, d, Approved(head), Chosen(id, agent));
    Overwrite(s, d, Chosen(id, agent), Dequeued(id, agent));
    hide InFlight, Queue.Peek, Queue.Remove, BestChoice;
    RunOfTwo(s, Check(d), PeekHead(d));
    RunOfTwo(s2, PolicyAllows(d), Choose(d, agent));
    RunOfOne(s4, RemoveFromQueue(d));
    hide *;
    RunsAppend(s2, [PolicyAllows(d), Choose(d, agent)], [RemoveFromQueue(d)]);
    RunsAppend(s, [Check(d), PeekHead(d)], [PolicyAllows(d), Choose(d, agent)] + [RemoveFromQueue(d)]);
  }

  lemma Overwrite(s: System, d: Dispatcher, p: Pc, q: Pc)
    requires d in s.pcs
    ensures s.pcs[d := p][d := q] == s.pcs[d := q]
  {
  }

  // The task is scheduled to or running on the agent.
  predicate Holds(tasks: TaskMap, id: TaskId, a: AgentId) {
    id in tasks && tasks[id].status.Holder() == Some(a)
  }

  // No agent has two tasks in flight.
  ghost predicate HeldOnce(tasks: TaskMap) {
    forall i, j, a | Holds(tasks, i, a) && Holds(tasks, j, a) :: i == j
  }

  // What an overshoot leaves behind: `n` more tasks in flight, all of them held by one agent.
  ghost predicate Overshot(s: System, s': System, ds: seq<Dispatcher>, agent: AgentId) {
    && Inv(s') && s'.agents == s.agents && s'.maxConcurrent == s.maxConcurrent && s'.pcs.Keys == s.pcs.Keys
    && (forall d | d in s.pcs && d !in ds :: s'.pcs[d] == s.pcs[d])
    && (forall id | id in s.tasks && id !in s.queue.index :: id in s'.tasks && s'.tasks[id] == s.tasks[id])
    && InFlight(s.tasks) <= InFlight(s'.tasks) && |InFlight(s'.tasks)| == |InFlight(s.tasks)| + |ds|
    && (forall id | id in InFlight(s'.tasks) - InFlight(s.tasks) :: s'.tasks[id].status == Scheduled(agent))
  }

  // The scheduler can choose the agent for each of the first `n` tasks that the queue yields.
  ghost predicate HeadsGoTo(q: Queue, agents: Agents, n: nat, agent: AgentId) {
    n <= |Contents(q)| && forall i | 0 <= i < n :: BestChoice(agents, Contents(q)[i], Assigned(Contents(q)[i].id, agent))
  }

  ghost predicate CanOvershoot(s: System, ds: seq<Dispatcher>, agent: AgentId) {
    && Inv(s) && |InFlight(s.tasks)| < s.maxConcurrent
    && HeadsGoTo(s.queue, s.agents, |ds|, agent)
    && (forall i | 0 <= i < |ds| :: ds[i] in s.pcs && s.pcs[ds[i]].Idle?)
    && (forall i, j | 0 <= i < j < |ds| :: ds[i] != ds[j])
  }

  lemma HeadsLeave(q: Queue, agents: Agents, n: nat, agent: AgentId)
    requires WellFormed(q) && n > 0 && HeadsGoTo(q, agents, n, agent)
    ensures q.Peek().Some? && BestChoice(agents, q.Peek().value, Assigned(q.Peek().value.id, agent))
    ensures HeadsGoTo(q.Remove(q.Peek().value.id).0, agents, n - 1, agent)
  {
    hide BestChoice, Contents, WellFormed, Queue.Peek, Queue.Dequeue, Queue.Remove;
    DequeueIsRemoveOfPeek(q);
    DequeueTakesHead(q);
    var rest := q.Remove(q.Peek().value.id).0;
    assert Contents(q)[0] == q.Peek().value;
    forall i | 0 <= i < n - 1 ensures BestChoice(agents, Contents(rest)[i], Assigned(Contents(rest)[i].id, agent)) {
      assert Contents(rest)[i] == Contents(q)[i + 1];
    }
  }

  lemma HeadToReserve(s: System, n: nat, agent: AgentId) returns (head: Task)
    requires Claimed(s) && n > 0 && HeadsGoTo(s.queue, s.agents, n, agent)
    ensures s.queue.Peek() == Some(head) && head.id in s.queue.index
    ensures PendingIn(s.tasks, head.id) && s.queue.Remove(head.id).1.Ok?
    ensures s.queue.Remove(head.id).0.index.Keys == s.queue.index.Keys - {head.id}
    ensures BestChoice(s.agents, head, Assigned(head.id, agent))
    ensures HeadsGoTo(s.queue.Remove(head.id).0, s.agents, n - 1, agent)
  {
    hide Claimed, BestChoice, HeadsGoTo, WellFormed, Queue.Peek, Queue.Remove, PendingIn;
    ClaimedIsWellFormed(s);
    HeadsLeave(s.queue, s.agents, n, agent);
    head := s.queue.Peek().value;
    QueueHeadIsIndexed(s.queue);
    WonRemoval(s, head.id);
  }

  lemma ClaimedIsWellFormed(s: System)
    requires Claimed(s)
    ensures WellFormed(s.queue)
  {
  }

  lemma ReserveFirst(s: System, ds: seq<Dispatcher>, agent: AgentId) returns (id: TaskId)
    requires CanOvershoot(s, ds, agent) && ds != []
    ensures Runs(s, Reservation(ds[0], agent)) && After(s, Reservation(ds[0], agent)) == Reserved(s, ds[0], id, agent)
    ensures id in s.queue.index && PendingIn(s.tasks, id)
    ensures CanOvershoot(Reserved(s, ds[0], id, agent), ds[1..], agent)
  {
    hide Claimed, Bounded, PendingIn, Queue.Peek, Queue.Remove, Do, Enabled, Runs, After, InFlight, Reservation, HeadsGoTo,
         BestChoice;
    var head := HeadToReserve(s, |ds|, agent);
    id := head.id;
    CanReserve(s, ds[0], head, agent);
    RunKeepsInv(s, Reservation(ds[0], agent));
  }

  lemma QueueHeadIsIndexed(q: Queue)
    requires WellFormed(q) && q.Peek().Some?
    ensures q.Peek().value.id in q.index
  {
    assert Least(q.queue.Keys) in q.queue;
  }

  // The commit that a dispatcher with a won removal still owes.
  lemma CommitStep(s: System, d: Dispatcher, id: TaskId, agent: AgentId, now: Timestamp)
    requires Inv(s) && d in s.pcs && s.pcs[d] == Dequeued(id, agent) && PendingIn(s.tasks, id)
    ensures var a := CommitTask(d, now);
            var t := s.tasks[id].(status := Scheduled(agent), updatedAt := now);
            && Enabled(s, a) && Inv(Do(s, a))
            && Do(s, a) == s.(tasks := s.tasks[id := t], pcs := s.pcs[d := Committing(id, agent)])
            && InFlight(Do(s, a).tasks) == InFlight(s.tasks) + {id} && id !in InFlight(s.tasks)
  {
    hide Inv;
    StepKeepsInv(s, CommitTask(d, now));
    InFlightUpdate(s.tasks, id, s.tasks[id].(status := Scheduled(agent), updatedAt := now));
  }

  lemma FirstStandsApart(s: System, ds: seq<Dispatcher>, agent: AgentId)
    requires ds != [] && CanOvershoot(s, ds, agent)
    ensures ds[0] in s.pcs && ds[0] !in ds[1..]
  {
  }

  lemma CommitAfter(s: System, s1: System, s2: System, ds: seq<Dispatcher>, id: TaskId, agent: AgentId, now: Timestamp)
    requires ds != [] && CanOvershoot(s, ds, agent) && id in s.queue.index && PendingIn(s.tasks, id)
    requires s1 == Reserved(s, ds[0], id, agent) && s.queue.Remove(id).0.index.Keys == s.queue.index.Keys - {id}
    requires Overshot(s1, s2, ds[1..], agent)
    ensures Enabled(s2, CommitTask(ds[0], now)) && Overshot(s, Do(s2, CommitTask(ds[0], now)), ds, agent)
  {
    hide Inv, Queue.Remove, Do, Enabled, InFlight, CanOvershoot;
    var d := ds[0];
    FirstStandsApart(s, ds, agent);
    CommitStep(s2, d, id, agent, now);
    var s3 := Do(s2, CommitTask(d, now));
    forall x | x in s.pcs && x !in ds ensures s3.pcs[x] == s.pcs[x] {
      assert x !in ds[1..] && x != d;
    }
  }

  lemma NoOvershoot(s: System, ds: seq<Dispatcher>, agent: AgentId)
    requires Inv(s) && ds == []
    ensures Runs(s, []) && Overshot(s, After(s, []), ds, agent)
  {
    hide Inv;
  }

  lemma OvershootKeepsInv(s: System, ds: seq<Dispatcher>, agent: AgentId)
    requires CanOvershoot(s, ds, agent)
    ensures Inv(s)
  {
  }

  // Assignments to one and the same agent: from any reachable state with room for one more task, n
  // idle dispatchers and n queued tasks for which the scheduler can choose the agent, n tasks can go
  // in flight on it.
  lemma {:induction false} DispatchersCanOvershoot(s: System, ds: seq<Dispatcher>, agent: AgentId, now: Timestamp)
      returns (actions: seq<Action>)
    requires CanOvershoot(s, ds, agent)
    ensures Runs(s, actions) && Overshot(s, After(s, actions), ds, agent)
    decreases |ds|
  {
    hide *;
    if ds == [] {
      actions := [];
      OvershootKeepsInv(s, ds, agent);
      NoOvershoot(s, ds, agent);
    } else {
      var id := ReserveFirst(s, ds, agent);
      RemovedKeys(s, ds, id, agent);
      var s1 := Reserved(s, ds[0], id, agent);
      var rest := DispatchersCanOvershoot(s1, ds[1..], agent, now);
      var s2 := After(s1, rest);
      CommitAfter(s, s1, s2, ds, id, agent, now);
      RunOfOne(s2, CommitTask(ds[0], now));
      RunsAppend(s1, rest, [CommitTask(ds[0], now)]);
      RunsAppend(s, Reservation(ds[0], agent), rest + [CommitTask(ds[0], now)]);
      actions := Reservation(ds[0], agent) + (rest + [CommitTask(ds[0], now)]);
    }
  }

  lemma RemovedKeys(s: System, ds: seq<Dispatcher>, id: TaskId, agent: AgentId)
    requires CanOvershoot(s, ds, agent) && id in s.queue.index
    ensures s.queue.Remove(id).0.index.Keys == s.queue.index.Keys - {id}
  {
    WonRemoval(s, id);
  }
}
