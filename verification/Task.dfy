/** Capabilities and their matching rule (swarm-core/capability.rs). */
module Capabilities {
  import opened Wrappers

  datatype Capability = Capability(name: string, version: Option<string>)
  {
    predicate Satisfies(required: Capability) {
      && name == required.name
      && (required.version.None? || version == required.version)
    }
  }

  type CapabilitySet = set<Capability>

  predicate SatisfiesAll(owned: CapabilitySet, required: CapabilitySet) {
    forall req | req in required :: exists cap | cap in owned :: cap.Satisfies(req)
  }

  // Owning everything that is required is enough, whatever versions are named.
  lemma SupersetSatisfies(owned: CapabilitySet, required: CapabilitySet)
    requires required <= owned
    ensures SatisfiesAll(owned, required)
  {
    forall req | req in required
      ensures exists cap | cap in owned :: cap.Satisfies(req)
    {
      assert req.Satisfies(req);
    }
  }

  // Matching is a preorder on single capabilities and is inherited by sets.
  lemma SatisfiesAllTransitive(a: CapabilitySet, b: CapabilitySet, c: CapabilitySet)
    requires SatisfiesAll(a, b) && SatisfiesAll(b, c)
    ensures SatisfiesAll(a, c)
  {
    forall req | req in c
      ensures exists cap | cap in a :: cap.Satisfies(req)
    {
      var mid :| mid in b && mid.Satisfies(req);
      var cap :| cap in a && cap.Satisfies(mid);
      assert cap.Satisfies(req);
    }
  }
}

/** The task entity and its lifecycle transitions (swarm-core/task.rs). Tasks are values:
    the orchestrator clones them between its task map and its queue. */
module Tasks {
  import opened Wrappers
  import opened Core
  import opened Capabilities

  const MIN_TASK_TIMEOUT: Duration := 1_000_000
  const MAX_TASK_TIMEOUT: Duration := 86_400_000_000_000

  datatype TaskPriority = Low | Normal | High | Critical
  {
    function Rank(): int {
      match this
      case Low => 0
      case Normal => 1
      case High => 2
      case Critical => 3
    }
  }

  datatype TaskSpec = TaskSpec(
    name: string,
    input: string,
    requiredCapabilities: CapabilitySet,
    priority: TaskPriority,
    timeout: Option<Duration>,
    roleHint: Option<string>)
  {
    // The checks made before a specification enters the orchestrator.
    predicate Validate() {
      && (exists c | c in name :: c !in " \t\n\r")
      && (timeout.Some? ==> MIN_TASK_TIMEOUT <= timeout.value <= MAX_TASK_TIMEOUT)
    }

    function WithDefaultTimeout(default: Option<Duration>): TaskSpec {
      if timeout.None? then this.(timeout := default) else this
    }
  }

  datatype TaskStatus =
    | Pending
    | Scheduled(assignedTo: AgentId)
    | Running(executingOn: AgentId, startedAt: Timestamp)
    | Completed(completedAt: Timestamp, output: string)
    | Failed(failedAt: Timestamp, reason: SwarmError, attempts: nat)
    | Cancelled(cancelledAt: Timestamp)
    | TimedOut(timedOutAt: Timestamp)
  {
    predicate IsTerminal() {
      Completed? || Failed? || Cancelled? || TimedOut?
    }

    predicate CanRetry() {
      Failed? || Cancelled? || TimedOut?
    }

    // The agent an in-flight task is assigned to or executing on.
    function Holder(): Option<AgentId> {
      match this
      case Scheduled(agent) => Some(agent)
      case Running(agent, _) => Some(agent)
      case _ => None
    }
  }

  datatype Task = Task(
    id: TaskId,
    spec: TaskSpec,
    status: TaskStatus,
    createdAt: Timestamp,
    updatedAt: Timestamp,
    attemptCount: nat)
  {
    function Schedule(agent: AgentId, now: Timestamp): Result<Task, TaskStatus> {
      if !status.Pending? then Err(status)
      else Ok(this.(status := Scheduled(agent), updatedAt := now))
    }

    function StartRunning(agent: AgentId, now: Timestamp): Result<Task, TaskStatus> {
      if status != Scheduled(agent) then Err(status)
      else Ok(this.(status := Running(agent, now), attemptCount := attemptCount + 1, updatedAt := now))
    }

    // Complete, Fail and TimeOut carry no guard, exactly as in the source.
    function Complete(output: string, now: Timestamp): Task {
      this.(status := Completed(now, output), updatedAt := now)
    }

    function Fail(reason: SwarmError, now: Timestamp): Task {
      this.(status := Failed(now, reason, attemptCount), updatedAt := now)
    }

    function TimeOut(now: Timestamp): Task {
      this.(status := TimedOut(now), updatedAt := now)
    }

    function Retry(now: Timestamp): Result<Task, TaskStatus> {
      if !status.CanRetry() then Err(status)
      else Ok(this.(status := Pending, updatedAt := now))
    }
  }

  function NewTask(id: TaskId, spec: TaskSpec, now: Timestamp): Task {
    Task(id, spec, Pending, now, now, 0)
  }
}

/** A task's life outside the orchestrator's protocol: any transitions in any order. */
module TaskLifecycle {
  import opened Wrappers
  import opened Core
  import opened Tasks

  datatype Transition =
    | Schedule(agent: AgentId)
    | StartRunning(agent: AgentId)
    | Complete(output: string)
    | Fail(reason: SwarmError)
    | TimeOut
    | Retry

  // A refused transition leaves the task as it was.
  function Apply(t: Task, x: Transition, now: Timestamp): Task {
    match x
    case Schedule(a) => Updated(t, t.Schedule(a, now))
    case StartRunning(a) => Updated(t, t.StartRunning(a, now))
    case Complete(output) => t.Complete(output, now)
    case Fail(reason) => t.Fail(reason, now)
    case TimeOut => t.TimeOut(now)
    case Retry => Updated(t, t.Retry(now))
  }

  function Updated(t: Task, r: Result<Task, TaskStatus>): Task {
    if r.Ok? then r.value else t
  }

  function Live(t: Task, xs: seq<(Transition, Timestamp)>): Task
    decreases |xs|
  {
    if xs == [] then t else Live(Apply(t, xs[0].0, xs[0].1), xs[1..])
  }

  // How often a retry was granted.
  function Retries(t: Task, xs: seq<(Transition, Timestamp)>): nat
    decreases |xs|
  {
    if xs == [] then 0
    else (if xs[0].0.Retry? && t.status.CanRetry() then 1 else 0) + Retries(Apply(t, xs[0].0, xs[0].1), xs[1..])
  }

  // A start that the present status still allows without a retry.
  function StartsLeft(status: TaskStatus): nat {
    if status.Pending? || status.Scheduled? then 1 else 0
  }

  // However a task is driven, it keeps its identity and specification, its attempts never
  // decrease, and every attempt after the first needs a granted retry.
  lemma {:induction false} AttemptsNeedRetries(t: Task, xs: seq<(Transition, Timestamp)>)
    ensures var t' := Live(t, xs);
            && t'.id == t.id && t'.spec == t.spec && t'.createdAt == t.createdAt
            && t.attemptCount <= t'.attemptCount
            && t'.attemptCount + StartsLeft(t'.status) <= t.attemptCount + StartsLeft(t.status) + Retries(t, xs)
    decreases |xs|
  {
    if xs != [] {
      AttemptsNeedRetries(Apply(t, xs[0].0, xs[0].1), xs[1..]);
    }
  }

  // The report would write the very outcome the task already has.
  predicate Repeats(t: Task, x: Transition, now: Timestamp) {
    match x
    case Complete(output) => t.status == Completed(now, output)
    case Fail(reason) => t.status == Failed(now, reason, t.attemptCount)
    case TimeOut => t.status == TimedOut(now)
    case _ => false
  }

  // What a terminal status withstands: scheduling and starting always, a retry only as completed,
  // and an outcome report, which no guard stops, only when it repeats the outcome.
  lemma TerminalChangesIff(t: Task, x: Transition, now: Timestamp)
    requires t.status.IsTerminal()
    ensures Apply(t, x, now).status == t.status <==>
              || x.Schedule? || x.StartRunning?
              || (x.Retry? && t.status.Completed?)
              || Repeats(t, x, now)
    ensures x.Retry? && !t.status.Completed? ==> Apply(t, x, now).status == Pending
  {
  }
}

/** The task record, updated in place. */
module TaskRecords {
  import opened Wrappers
  import opened Core
  import opened Tasks

  class TaskRecord {
    const id: TaskId
    const spec: TaskSpec
    const createdAt: Timestamp
    var status: TaskStatus
    var updatedAt: Timestamp
    var attemptCount: nat

    ghost function Value(): Task
      reads this
    {
      Task(id, spec, status, createdAt, updatedAt, attemptCount)
    }

    constructor (id: TaskId, spec: TaskSpec, now: Timestamp)
      ensures Value() == NewTask(id, spec, now)
    {
      this.id, this.spec, createdAt := id, spec, now;
      status, updatedAt, attemptCount := Pending, now, 0;
    }

    method Schedule(agent: AgentId, now: Timestamp) returns (r: Result<(), TaskStatus>)
      modifies this
      ensures match old(Value()).Schedule(agent, now)
              case Ok(t) => r == Ok(()) && Value() == t
              case Err(e) => r == Err(e) && Value() == old(Value())
    {
      if !status.Pending? {
        return Err(status);
      }
      status := Scheduled(agent);
      updatedAt := now;
      return Ok(());
    }

    method StartRunning(agent: AgentId, now: Timestamp) returns (r: Result<(), TaskStatus>)
      modifies this
      ensures match old(Value()).StartRunning(agent, now)
              case Ok(t) => r == Ok(()) && Value() == t
              case Err(e) => r == Err(e) && Value() == old(Value())
    {
      if status != Scheduled(agent) {
        return Err(status);
      }
      attemptCount := attemptCount + 1;
      status := Running(agent, now);
      updatedAt := now;
      return Ok(());
    }

    method Complete(output: string, now: Timestamp)
      modifies this
      ensures Value() == old(Value()).Complete(output, now)
    {
      status := Completed(now, output);
      updatedAt := now;
    }

    method Fail(reason: SwarmError, now: Timestamp)
      modifies this
      ensures Value() == old(Value()).Fail(reason, now)
    {
      status := Failed(now, reason, attemptCount);
      updatedAt := now;
    }

    method TimeOut(now: Timestamp)
      modifies this
      ensures Value() == old(Value()).TimeOut(now)
    {
      status := TimedOut(now);
      updatedAt := now;
    }

    method Retry(now: Timestamp) returns (r: Result<(), TaskStatus>)
      modifies this
      ensures match old(Value()).Retry(now)
              case Ok(t) => r == Ok(()) && Value() == t
              case Err(e) => r == Err(e) && Value() == old(Value())
    {
      if !status.CanRetry() {
        return Err(status);
      }
      status := Pending;
      updatedAt := now;
      return Ok(());
    }
  }
}
