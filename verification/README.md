# AiOfficeSwarm, verified models

Dafny models of the parts of AiOfficeSwarm in which several pieces of mutable state have to agree, or an
algorithm has an exact specification, with proofs of what they keep. `dafny verify dfyconfig.toml` checks
all of it.

## How it is organised

For each component there is a module of values and functions with the lemmas about them, and a class with
the source's fields whose methods update those fields in the source's order. Each method is proved to have
the effect of the function on the abstract value of the object, so the lemmas speak about both. What a
function means is stated once more without its helpers, from the fields of what it is given: these lemmas
have names that end in `ByFields`, or live in `HandleCalls`, `PluginCalls` and `RouterFields`.

| files | what they model |
|---|---|
| `Wrappers`, `StableSort` | results, errors, ids; the stable sort that stands for `slice::sort_by` |
| `Task`, `TaskQueue`, `Registry`, `Scheduler`, `Supervision` | the components behind the orchestrator |
| `Orchestrator`, `OrchestratorRuns`, `HandleCalls` | the control plane as a state machine, its invariant, runs, the handle, each call by its fields |
| `CircuitBreaker`, `Runner` | the breaker as a timed machine; one task execution on every path |
| `DrainLoop`, `TaskProcessing` | the command that works off pending tasks |
| `Dispatchers`, `DispatcherBound`, `DispatcherAssignments`, `ImportRace` | several dispatchers interleaving inside `try_schedule_next`: the bound, how it is attained, who gets the tasks, imports in between |
| `PluginHost`, `PluginCalls`, `PluginUnload` | loading, invoking and unloading plugins from many threads; single calls; how often `on_unload` begins |
| `PolicyEngine`, `Router`, `RouterFields`, `RoleResolver`, `MemoryRetention`, `Retry` | policies, provider routing, role merging, retention, retries |
| `Wasm` | marshalling between host and WASM guest |

## Main results

- **Control plane.** One invariant ties task map, queue, registry, scheduler and supervision together and
  holds in every state of every run whose clients follow the runner protocol; the runner is proved to follow
  it on every path. From it follow conservation of tasks, finality of outcomes, and that scheduling never
  loses a task. The drain loop is total and works its batch off completely, in priority order.
- **Interleavings.** With k dispatchers and a positive limit the most tasks in flight over all runs are limit
  + k - 1, and none with limit zero; the limit is kept, and no agent is ever booked twice, exactly when k is at
  most one or the limit is zero. No plugin action overlaps `on_unload`.
- **Guards and selection.** The breaker over all timed traces, and what any series of runs makes of it, told by
  how their tasks end; routing, role merging and the policy engine
  with the exact condition under which each does what it promises.
- **Algorithms.** Retention, retry bounds and WASM marshalling with exact specifications and round trips.

## What turned out not to hold, and when it does

- Re-parenting refuses only self-supervision, so two accepted calls can close a cycle
  (`Supervision.MutualSupervisionIsAccepted`); it keeps the forest exactly when the agent is not an ancestor of
  its new supervisor.
- First-in first-out within a priority depends on the clock: a queued task of the same priority with a later
  timestamp is overtaken (`TaskQueues.EnqueueRefinesStablePush`, `TaskQueues.SecondOvertakesIff`).
- Two dispatchers can exceed the concurrency limit (`DispatcherBound.LimitIsKeptIff`) and book one agent
  twice; one dispatcher never does (`DispatcherAssignments.NeverDoubleBookedIff`).
- An import enqueues before it stores. A task whose removal is won in between and looked up in vain is lost:
  pending, and never queued again (`ImportRaces.AbandonedIff`, `ImportRaces.AbandonedForGood`).
- `on_unload` is documented to be called once, but overlapping unload calls on one plugin all go through with it,
  and unloaded turns into unloading again (`PluginUnloads.SecondUnloadIff`, `PluginUnloads.UnloadedForGoodIff`);
  only a single thread is sure to call it once (`PluginUnloads.UnloadsOnceIff`).
- A probe spent on a task that is unknown or not scheduled to the runner's agent leaves the breaker half-open
  (`Running.BreakerLeftHalfOpenIff`), and for good (`Running.StrandedForGood`).
- Two histories that leave the same policies can decide differently, exactly when two surviving priorities
  are equal (`Policies.OrderIsIrrelevantIff`).
- "More restrictive wins" fails when both allow-lists restrict and are disjoint: the merge is empty, and an
  empty list restricts nothing (`Roles.MergeToolsIsConjunctionIff`).
- A soft routing stage that comes before a hard one can rule out the only provider that satisfies the hard
  one (`Routing.SoftStageCanDefeatHardConstraint`), exactly under the condition of
  `Routing.CandidatesMeetHard`.
- Growing delays are in order until the 32-bit exponent wraps. Right after the wrap the factor vanishes and
  the cap is returned; near the top of the range the exponent is small again and delays fall below the first
  one (`Retrying.DelaysNondecreasingIff`, `Retrying.DefaultStrategyDrops`).
- Where the factor becomes infinite although the delay it stands for is below the cap, the cap is returned
  instead: exactly then the total exceeds the geometric series (`Retrying.TotalIsBoundedIff`).
- A one-byte error message cannot be told from the marker for no message (`WasmAbi.ErrorRoundTripIff`), and an
  allocation that the guest places outside its memory is never released
  (`WasmHosting.EveryGrantIsReleasedIff`).
- `health_check_all` is documented for active plugins, but takes every instance without looking at its state.
  A check meets an active plugin exactly when no unload of it has been announced
  (`PluginHosts.HealthCheckMeetsActiveIff`), and one can run after `on_unload` has returned
  (`PluginHosts.CheckCanMeetUnloaded`); only a single thread is safe (`PluginHosts.HealthChecksMeetOnlyActiveIff`).
- `is_terminal` is documented as final, but `complete`, `fail` and `time_out` carry no guard and `retry` leaves
  three of the four terminal states (`TaskLifecycle.TerminalChangesIff`); finality holds under the protocol
  (`OrchestrationRuns.RunsOnlyGoForward`).

## Assumptions

- **Runner protocol** (`Orchestration.Permitted`): outcomes are reported only for the agent that holds the
  task, a busy agent is neither readied nor deregistered, submitted ids are fresh, and no agent is put under
  its own descendant. Each handle call is one atomic step, except in `Dispatchers`, where the registry may
  change at any moment in the ways that `Dispatchers.Respects` allows: a busy agent is left alone until its
  task has ended, and no id of a deregistered agent is registered anew while a task is booked on it.
- Time, generated ids, policy answers, enrichment and persistence results, agents, providers, plugins and
  guests are inputs with arbitrary values. A call reads the clock
  once per step, and wall clock and monotonic clock are one.
- Concurrent maps are ordinary maps that iterate in an arbitrary order; locks are atomic acquisitions.
- Counters and sequence numbers are unbounded, except where the width matters: the round-robin cursor of 64
  bits, the retry exponent, WASM pointers, lengths and return codes.
- Retry factors are exact reals, told from zero and from infinity only between a least and a greatest one,
  which are parameters (`Retrying.Format`).

## Model

| member | source | states |
|---|---|---|
| `Capabilities.SupersetSatisfies` | crates/swarm-core/src/capability.rs:56-98 | a capability set satisfies every requirement set it contains, versions included; this is what lets a worker with the union of all requirements take any task |
| `Capabilities.SatisfiesAllTransitive` | crates/swarm-core/src/capability.rs:56-98 | matching composes: whatever satisfies a set that satisfies the requirements satisfies them itself |
| `TaskLifecycle.AttemptsNeedRetries` | crates/swarm-core/src/task.rs:235-306 | over any sequence of transitions, granted or refused, identity, specification and creation time stay, attempts never decrease, and every attempt after the first needs a granted retry |
| `TaskLifecycle.TerminalChangesIff` | crates/swarm-core/src/task.rs:235-306 | a terminal status of any kind stays exactly under scheduling, starting, a retry of a completed task, and an outcome report that repeats the very outcome; every other report overwrites it, and retrying a failed, cancelled or timed-out task makes it pending |
| `TaskRecords.TaskRecord.constructor` | crates/swarm-core/src/task.rs:218-228 | a new record is pending, unattempted and stamped with the creation time |
| `TaskRecords.TaskRecord.Schedule` | crates/swarm-core/src/task.rs:235-245 | the record updated in place takes exactly the scheduling transition, or keeps every field and reports its status |
| `TaskRecords.TaskRecord.StartRunning` | crates/swarm-core/src/task.rs:251-266 | the in-place start is the start transition for the assigned agent only; a refusal changes nothing |
| `TaskRecords.TaskRecord.Complete` | crates/swarm-core/src/task.rs:268-275 | the in-place completion is the completion transition, from any status |
| `TaskRecords.TaskRecord.Fail` | crates/swarm-core/src/task.rs:278-286 | the in-place failure is the failure transition and records the attempts made so far |
| `TaskRecords.TaskRecord.TimeOut` | crates/swarm-core/src/task.rs:289-293 | the in-place timeout is the timeout transition, from any status |
| `TaskRecords.TaskRecord.Retry` | crates/swarm-core/src/task.rs:299-306 | the in-place retry is the retry transition; a refusal changes nothing |
| `TaskQueues.EnqueueKeepsWellFormed` | crates/swarm-orchestrator/src/task_queue.rs:62-89 | enqueueing keeps the ordered map and the id index mutual inverses, and succeeds exactly for a pending task whose id is not queued |
| `TaskQueues.RemoveKeepsWellFormed` | crates/swarm-orchestrator/src/task_queue.rs:110-121 | removal by id keeps map and index mutual inverses, succeeds exactly for queued ids, returns the task of that id and drops only it |
| `TaskQueues.DequeueIsRemoveOfPeek` | crates/swarm-orchestrator/src/task_queue.rs:92-121 | peek and dequeue agree on the least key, and dequeueing leaves the same queue as removing the peeked id |
| `TaskQueues.EnqueueRefinesStablePush` | crates/swarm-orchestrator/src/task_queue.rs:62-89 | enqueueing refines a stable priority push on the abstract list exactly when no queued task of the same priority carries a later timestamp |
| `TaskQueues.SecondOvertakesIff` | crates/swarm-orchestrator/src/task_queue.rs:62-107 | of two tasks of one priority, enqueued one after the other and drained, the second comes out first exactly when the clock has gone back between them |
| `TaskQueues.DequeueTakesHead` | crates/swarm-orchestrator/src/task_queue.rs:92-107 | peek, dequeue and the abstract list agree: the head goes and the tail remains |
| `TaskQueues.RemoveKeepsOrder` | crates/swarm-orchestrator/src/task_queue.rs:110-121 | removal by id takes that one task out of the abstract list and leaves the relative order of all the others |
| `TaskQueues.DrainAllIsContents` | crates/swarm-orchestrator/src/task_queue.rs:101-107 | dequeueing until the queue is empty yields exactly the abstract list |
| `TaskQueues.EnqueueAllRefinesPushAll` | crates/swarm-orchestrator/src/task_queue.rs:62-89 | any series of admissible enqueues under a clock that never goes back refines the same series of stable pushes |
| `TaskQueues.PushAllIsPermutation` | crates/swarm-orchestrator/src/task_queue.rs:62-89 | a series of stable pushes loses and invents nothing: the result is a permutation of old contents and arrivals |
| `TaskQueues.PushAllOrder` | crates/swarm-orchestrator/src/task_queue.rs:62-89 | after any series of stable pushes the list is sorted by falling priority, and within each priority it is in order of arrival |
| `TaskQueues.DrainIsStablePriorityOrder` | crates/swarm-orchestrator/src/task_queue.rs:62-121 | end to end: enqueueing tasks under a nondecreasing clock and draining yields a permutation sorted by priority and first-in first-out within each priority |
| `TaskQueues.DrainIsByUrgency` | crates/swarm-orchestrator/src/task_queue.rs:62-121 | without ranks: draining after admissible arrivals yields the critical tasks in order of arrival, then the high ones, then the normal ones, then the low ones |
| `TaskQueues.PeekIsMostUrgent` | crates/swarm-orchestrator/src/task_queue.rs:92-107 | the task that is peeked, and dequeued next, is outranked by no queued task, critical before high before normal before low, and nobody of its priority was enqueued earlier |
| `TaskQueues.TaskQueue.constructor` | crates/swarm-orchestrator/src/task_queue.rs:47-49 | a new queue is the empty queue value with sequence number zero |
| `TaskQueues.TaskQueue.Enqueue` | crates/swarm-orchestrator/src/task_queue.rs:62-89 | the in-place update equals the queue operation whose refinement is proved above, errors included |
| `TaskQueues.TaskQueue.FirstKey` | crates/swarm-orchestrator/src/task_queue.rs:92-107 | the key found is the least key of a nonempty ordered map |
| `TaskQueues.TaskQueue.Peek` | crates/swarm-orchestrator/src/task_queue.rs:92-98 | returns the task under the least key and changes nothing |
| `TaskQueues.TaskQueue.Dequeue` | crates/swarm-orchestrator/src/task_queue.rs:101-107 | the in-place update removes the least entry from map and index together |
| `TaskQueues.TaskQueue.Remove` | crates/swarm-orchestrator/src/task_queue.rs:110-121 | the in-place update removes the entry of that id from both structures or reports it missing |
| `TaskQueues.TaskQueue.Len` | crates/swarm-orchestrator/src/task_queue.rs:124-126 | the number reported is how many tasks draining the queue would still yield, and how many ids can be removed |
| `Registry.OutcomeUpdate` | crates/swarm-orchestrator/src/registry.rs:96-160 | recording an outcome on a registered agent makes it ready and raises exactly the matching counter |
| `AgentRegistries.AgentRegistry.constructor` | crates/swarm-orchestrator/src/registry.rs:62-67 | a new registry is empty |
| `AgentRegistries.AgentRegistry.Register` | crates/swarm-orchestrator/src/registry.rs:70-85 | the in-place update adds a fresh inactive record, or refuses a known id and changes nothing |
| `AgentRegistries.AgentRegistry.Deregister` | crates/swarm-orchestrator/src/registry.rs:88-93 | the in-place update removes and returns the record, or reports it missing |
| `AgentRegistries.AgentRegistry.UpdateStatus` | crates/swarm-orchestrator/src/registry.rs:96-111 | the in-place update sets status and last-seen time of one registered agent |
| `AgentRegistries.AgentRegistry.RecordTaskCompleted` | crates/swarm-orchestrator/src/registry.rs:146-150 | one registered agent gets one more completed task; an unknown id changes nothing |
| `AgentRegistries.AgentRegistry.RecordTaskFailed` | crates/swarm-orchestrator/src/registry.rs:153-157 | one registered agent gets one more failed task; an unknown id changes nothing |
| `AgentRegistries.AgentRegistry.AllAgents` | crates/swarm-orchestrator/src/registry.rs:131-133 | lists every record exactly once, in an order of which nothing is promised |
| `Scheduling.PreferenceIsTotalPreorder` | crates/swarm-orchestrator/src/scheduler.rs:80-116 | both comparators, with and without a role hint, are total preorders, so sorting by them is well defined |
| `Scheduling.ScheduleChoosesBest` | crates/swarm-orchestrator/src/scheduler.rs:59-125 | for any iteration order of the registry the chosen agent is available, capable and beaten by no other such agent; nobody is chosen exactly when there is none |
| `Scheduling.CanDecideIff` | crates/swarm-orchestrator/src/scheduler.rs:59-125 | over all iteration orders of the registry the possible decisions are exactly the best choices, so nothing else can be decided and each of them can |
| `Scheduling.AssignedIsAble` | crates/swarm-orchestrator/src/scheduler.rs:59-79 | for any registry and any order: somebody is assigned exactly when some agent is ready and owns, for every requirement, a capability of that name and of that very version where one is named; whoever is assigned is such an agent |
| `Scheduling.LackingIsNeverAssigned` | crates/swarm-orchestrator/src/scheduler.rs:70-79 | an agent without a capability of a required name, or without the version named with it, is never assigned |
| `Scheduling.AssignedIsPreferred` | crates/swarm-orchestrator/src/scheduler.rs:88-116 | if any able agent has the hinted role, upper and lower case alike, the chosen one has it, and nobody of the same standing has completed fewer tasks |
| `Scheduling.LeastLoadedIsBalanced` | crates/swarm-orchestrator/src/scheduler.rs:59-125 | when equally capable agents without role match start level and each task completes before the next dispatch, after n tasks over w agents everyone has completed n/w or one more, and exactly n mod w agents have the one more |
| `Schedulers.Scheduler.constructor` | crates/swarm-orchestrator/src/scheduler.rs:47-49 | the scheduler shares the registry it was given |
| `Schedulers.Scheduler.Schedule` | crates/swarm-orchestrator/src/scheduler.rs:59-125 | the loop that collects candidates and sorts them in place returns the best choice over the registry, whatever order the registry is listed in |
| `Schedulers.Scheduler.CollectCandidates` | crates/swarm-orchestrator/src/scheduler.rs:59-79 | the filtering loop collects exactly the available and capable records, in registry order |
| `Supervision.AncestryIsAChain` | crates/swarm-orchestrator/src/supervision.rs:152-160 | in a forest the ancestry has no repeats, never contains its own agent, is shorter than the node count, stays within the map and ends at a root |
| `Supervision.RegisterRootKeepsForest` | crates/swarm-orchestrator/src/supervision.rs:47-50 | registering a fresh id as a root keeps links and acyclicity |
| `Supervision.RegisterUnderLinks` | crates/swarm-orchestrator/src/supervision.rs:57-107 | re-parenting, when accepted, keeps both directions of every link in agreement and changes the supervisor of exactly that agent; when refused it changes nothing |
| `Supervision.RegisterUnderKeepsForestIff` | crates/swarm-orchestrator/src/supervision.rs:57-107 | an accepted re-parenting keeps the forest if and only if the agent is not among the ancestors of its new supervisor |
| `Supervision.MutualSupervisionIsAccepted` | crates/swarm-orchestrator/src/supervision.rs:60-64 | two calls the code accepts leave two agents supervising each other, since only self-supervision is refused |
| `Supervision.DeregisterLinks` | crates/swarm-orchestrator/src/supervision.rs:110-128 | deregistering removes one node, re-roots exactly its subordinates and keeps all links in agreement |
| `Supervision.DeregisterKeepsForest` | crates/swarm-orchestrator/src/supervision.rs:110-128 | deregistering keeps the forest and removes exactly that id |
| `SupervisionManagers.SupervisionManager.constructor` | crates/swarm-orchestrator/src/supervision.rs:36-38 | a new manager has no nodes |
| `SupervisionManagers.SupervisionManager.RegisterRoot` | crates/swarm-orchestrator/src/supervision.rs:47-50 | the in-place update makes the agent a root without subordinates |
| `SupervisionManagers.SupervisionManager.RegisterUnder` | crates/swarm-orchestrator/src/supervision.rs:57-107 | the three in-place edits of nodes amount to the re-parenting proved above, with every error path leaving the map unchanged |
| `SupervisionManagers.SupervisionManager.Deregister` | crates/swarm-orchestrator/src/supervision.rs:110-128 | removal, unlinking and the loop that re-roots orphans amount to the deregistration proved above |
| `SupervisionManagers.SupervisionManager.Ancestry` | crates/swarm-orchestrator/src/supervision.rs:152-160 | whenever the chain of supervisors ends, and only then does the loop, it returns the whole chain from the immediate supervisor on; on a forest that is the ancestry characterised above |
| `Supervision.AllWalksEndIff` | crates/swarm-orchestrator/src/supervision.rs:152-160 | where the links agree, the walk to the root ends for every agent exactly when the hierarchy has no cycle |
| `Supervision.MutualWalkNeverEnds` | crates/swarm-orchestrator/src/supervision.rs:60-64 | the walk from one of two agents that supervise each other never ends |
| `OrchestrationInvariant.RegisterKeepsInv` | crates/swarm-orchestrator/src/orchestrator.rs:174-184 | registering an agent keeps all five structures in agreement |
| `OrchestrationInvariant.ReadyKeepsInv` | crates/swarm-orchestrator/src/orchestrator.rs:186-195 | readying an agent that is not busy keeps the invariant |
| `OrchestrationInvariant.DeregisterKeepsInv` | crates/swarm-orchestrator/src/orchestrator.rs:199-206 | deregistering an agent that is not busy keeps the invariant; its counters move to the retired tally |
| `OrchestrationInvariant.SupervisorKeepsInv` | crates/swarm-orchestrator/src/orchestrator.rs:209-213 | setting a supervisor that is no descendant keeps the invariant |
| `OrchestrationInvariant.SubmitKeepsInv` | crates/swarm-orchestrator/src/orchestrator.rs:221-240 | submission, accepted or refused at any point, keeps queue and task map in agreement |
| `OrchestrationInvariant.ImportKeepsInv` | crates/swarm-orchestrator/src/orchestrator.rs:243-272 | importing a snapshot, accepted or refused at any point, keeps the invariant |
| `OrchestrationInvariant.AssignKeepsInv` | crates/swarm-orchestrator/src/orchestrator.rs:293-318 | the commit of a scheduling decision succeeds in full: the task leaves the queue, is scheduled to the agent, and the agent is busy with it |
| `OrchestrationInvariant.ScheduleNeverLosesATask` | crates/swarm-orchestrator/src/orchestrator.rs:278-322 | every scheduling attempt ends in one of the explained ways; the error returns after the removal from the queue are unreachable, so no task is lost between queue and agent |
| `OrchestrationInvariant.StartedKeepsInv` | crates/swarm-orchestrator/src/orchestrator.rs:325-339 | a start report is accepted exactly for the agent the task is scheduled to, and keeps the invariant |
| `OrchestrationInvariant.FinishKeepsInv` | crates/swarm-orchestrator/src/orchestrator.rs:342-404 | an outcome report for the holding agent keeps the invariant: the agent is ready again and exactly one counter accounts for the task |
| `OrchestrationInvariant.CompletedFinishes` | crates/swarm-orchestrator/src/orchestrator.rs:342-361 | reporting completion on a known task and agent succeeds and has no effect beyond task, status and completed counter |
| `OrchestrationInvariant.FailedFinishes` | crates/swarm-orchestrator/src/orchestrator.rs:364-387 | reporting failure on a known task and agent succeeds and has no effect beyond task, status and failed counter |
| `OrchestrationInvariant.TimedOutFinishes` | crates/swarm-orchestrator/src/orchestrator.rs:390-404 | reporting a timeout on a known task and agent succeeds and counts as a failure |
| `OrchestrationInvariant.CancelKeepsInv` | crates/swarm-orchestrator/src/orchestrator.rs:407-420 | cancelling succeeds exactly for pending tasks and keeps the invariant |
| `OrchestrationInvariant.StepKeepsInv` | crates/swarm-orchestrator/src/orchestrator.rs:174-420 | every handle call that respects the runner protocol keeps the global invariant: queued ids are the pending ids with agreeing copies, busy agents match in-flight tasks one to one, counters account for all outcomes, supervision is a forest over the registered ids, and the concurrency limit holds |
| `OrchestrationInvariant.InitialInv` | crates/swarm-orchestrator/src/orchestrator.rs:69-84 | a new orchestrator satisfies the invariant |
| `OrchestrationInvariant.RunKeepsInv` | crates/swarm-orchestrator/src/orchestrator.rs:174-420 | every state of every run that respects the protocol satisfies the invariant |
| `OrchestrationRuns.StepAdvances` | crates/swarm-orchestrator/src/orchestrator.rs:221-420 | one permitted call takes each task through at most one legal lifecycle transition and removes no task |
| `OrchestrationRuns.RunsOnlyGoForward` | crates/swarm-orchestrator/src/orchestrator.rs:221-420 | in every run no task disappears, phases never go back, identity and specification stay, and an outcome once reached is final |
| `OrchestrationRuns.HeldTaskUntouched` | crates/swarm-orchestrator/src/orchestrator.rs:174-420 | a call that does not report on an in-flight task leaves it exactly as it is |
| `OrchestrationRuns.HeldTaskStaysHeld` | crates/swarm-orchestrator/src/orchestrator.rs:174-420 | however other clients interleave, an in-flight task stays with its agent until its own runner reports on it |
| `OrchestrationRuns.BusyMatchesInFlight` | crates/swarm-orchestrator/src/orchestrator.rs:92-102 | there are as many busy agents as in-flight tasks, so no agent holds two |
| `OrchestrationRuns.BooksBalance` | crates/swarm-orchestrator/src/orchestrator.rs:174-420 | conservation: tracked tasks are the queued, the held, the completed and failed by the counters (deregistered agents included) and the cancelled, each counted once |
| `OrchestratorHandles.OrchestratorHandle.constructor` | crates/swarm-orchestrator/src/orchestrator.rs:69-84 | a new handle stands for the initial state over fresh components |
| `OrchestratorHandles.OrchestratorHandle.RegisterAgent` | crates/swarm-orchestrator/src/orchestrator.rs:174-184 | updating registry and supervision in sequence is the registration step of the state machine |
| `OrchestratorHandles.OrchestratorHandle.SetAgentReady` | crates/swarm-orchestrator/src/orchestrator.rs:186-195 | the in-place status update is the readying step |
| `OrchestratorHandles.OrchestratorHandle.DeregisterAgent` | crates/swarm-orchestrator/src/orchestrator.rs:199-206 | removing from registry and supervision in sequence is the deregistration step |
| `OrchestratorHandles.OrchestratorHandle.SetSupervisor` | crates/swarm-orchestrator/src/orchestrator.rs:209-213 | the in-place call is the re-parenting step |
| `OrchestratorHandles.OrchestratorHandle.SubmitTask` | crates/swarm-orchestrator/src/orchestrator.rs:221-240 | defaulting, validation, policy, insertion and enqueueing in that order are the submission step, whichever of them fails |
| `OrchestratorHandles.OrchestratorHandle.ImportTaskSnapshot` | crates/swarm-orchestrator/src/orchestrator.rs:243-272 | the checks, enqueueing and insertion in that order are the import step, whichever of them fails |
| `OrchestratorHandles.OrchestratorHandle.InFlightTaskCount` | crates/swarm-orchestrator/src/orchestrator.rs:92-102 | filtering and counting the task map one by one, in whatever order, gives the number of scheduled and running tasks, each counted once |
| `OrchestratorHandles.OrchestratorHandle.TryScheduleNext` | crates/swarm-orchestrator/src/orchestrator.rs:278-322 | check, peek, policy, choice and commit are the scheduling step for some iteration order of the registry |
| `OrchestratorHandles.OrchestratorHandle.Commit` | crates/swarm-orchestrator/src/orchestrator.rs:293-318 | removal, task transition and status update in that order are the commit step, partial effects included |
| `OrchestratorHandles.OrchestratorHandle.RecordTaskStarted` | crates/swarm-orchestrator/src/orchestrator.rs:325-339 | the in-place update is the start step |
| `OrchestratorHandles.OrchestratorHandle.RecordTaskCompleted` | crates/swarm-orchestrator/src/orchestrator.rs:342-361 | task, status and counter updates in that order are the completion step |
| `OrchestratorHandles.OrchestratorHandle.RecordTaskFailed` | crates/swarm-orchestrator/src/orchestrator.rs:364-387 | task, status and counter updates in that order are the failure step |
| `OrchestratorHandles.OrchestratorHandle.RecordTaskTimedOut` | crates/swarm-orchestrator/src/orchestrator.rs:390-404 | task, status and counter updates in that order are the timeout step |
| `OrchestratorHandles.OrchestratorHandle.CancelTask` | crates/swarm-orchestrator/src/orchestrator.rs:407-420 | removal and the status change are the cancellation step |
| `HandleCalls.SubmissionByFields` | crates/swarm-orchestrator/src/orchestrator.rs:221-240 | a submission is accepted exactly if the name is not blank, the time limit, or else the default one, is absent or between a millisecond and a day, and the policy does not object; it is then stored pending and unattempted and is the one more task queued; a refused one leaves no trace |
| `HandleCalls.ImportByFields` | crates/swarm-orchestrator/src/orchestrator.rs:243-272 | an import is accepted exactly if its task is pending, not tracked and sensible in the same way, and the policy does not object; a refused one leaves no trace |
| `HandleCalls.SchedulingByFields` | crates/swarm-orchestrator/src/orchestrator.rs:278-322 | with room under the limit, a task queued, a content policy and an able agent, and only then, the first task of the queue goes to a first choice for it, who is busy with it from then on, and the rest of the queue stays in order; otherwise nothing changes |
| `HandleCalls.StartByFields` | crates/swarm-orchestrator/src/orchestrator.rs:325-339 | a start is accepted exactly for a task scheduled to this agent, and counts one more attempt; a refused one changes nothing |
| `HandleCalls.CompletionByFields` | crates/swarm-orchestrator/src/orchestrator.rs:342-361 | reported by the holder, a completion gives the task that output, makes the agent ready and raises its completed count by one, and changes nothing else |
| `HandleCalls.FailureByFields` | crates/swarm-orchestrator/src/orchestrator.rs:364-387 | reported by the holder, a failure gives the task that reason and the attempts so far, makes the agent ready and raises its failed count by one, and changes nothing else |
| `HandleCalls.TimeoutByFields` | crates/swarm-orchestrator/src/orchestrator.rs:390-404 | reported by the holder, a timeout does the same with the status timed out |
| `HandleCalls.CancellationByFields` | crates/swarm-orchestrator/src/orchestrator.rs:407-420 | a cancellation is accepted exactly for a pending task, which leaves the queue while the others keep their order |
| `HandleCalls.RegistrationByFields` | crates/swarm-orchestrator/src/orchestrator.rs:174-184 | a new id is registered inactive, without counts and as a root; a known one is refused and nothing changes |
| `HandleCalls.ReadyingByFields` | crates/swarm-orchestrator/src/orchestrator.rs:186-195 | a known agent becomes ready, and an unknown one is reported |
| `HandleCalls.LeavingByFields` | crates/swarm-orchestrator/src/orchestrator.rs:199-206 | a known agent leaves registry and hierarchy and its counts are added to the tally, and an unknown one is reported |
| `HandleCalls.SupervisionByFields` | crates/swarm-orchestrator/src/orchestrator.rs:209-213 | a supervisor is set exactly between two registered agents that are not the same, and nobody else gets another one; a refusal names the agent that is missing and changes nothing |
| `Dispatchers.WinnerCommits` | crates/swarm-orchestrator/src/orchestrator.rs:293-318 | after a won removal the task is always there and still pending, so the commit cannot fail half-way |
| `Dispatchers.MoveKeepsInv` | crates/swarm-orchestrator/src/orchestrator.rs:278-322 | the check, peek, policy and choice steps of a dispatcher keep the bound and every claim on a pending task |
| `Dispatchers.RemovalKeepsInv` | crates/swarm-orchestrator/src/orchestrator.rs:293-296 | the removal step, won or lost, keeps the bound and the claims |
| `Dispatchers.CommitKeepsInv` | crates/swarm-orchestrator/src/orchestrator.rs:297-318 | the commit step keeps the bound and the claims |
| `Dispatchers.SubmissionKeepsInv` | crates/swarm-orchestrator/src/orchestrator.rs:221-240 | a submission that stores before it enqueues keeps the claims, interleaved anywhere |
| `Dispatchers.CancelRemovalKeepsInv` | crates/swarm-orchestrator/src/orchestrator.rs:407-412 | a cancellation that competes for the removal keeps the bound and the claims, won or lost |
| `Dispatchers.CancelCommitKeepsInv` | crates/swarm-orchestrator/src/orchestrator.rs:413-420 | a cancellation that won the removal keeps the bound and the claims when it sets the status |
| `Dispatchers.StepKeepsInv` | crates/swarm-orchestrator/src/orchestrator.rs:221-420 | every single step of every dispatcher, submission, cancellation or report keeps bound and claims |
| `Dispatchers.RunKeepsInv` | crates/swarm-orchestrator/src/orchestrator.rs:221-420 | so does every interleaving |
| `Dispatchers.InFlightBound` | crates/swarm-orchestrator/src/orchestrator.rs:278-322 | with k dispatchers no interleaving has more than the limit plus k - 1 tasks in flight, hence exactly the limit for k = 1 |
| `Dispatchers.OneRemovalPerTask` | crates/swarm-orchestrator/src/orchestrator.rs:293-318 | of all dispatchers and cancellations competing for a task exactly one removal ever wins, and a winning dispatcher always commits |
| `Dispatchers.CanReserve` | crates/swarm-orchestrator/src/orchestrator.rs:278-296 | an idle dispatcher that passes the limit check can take the head of the queue for any agent that the scheduler can choose for it |
| `Dispatchers.DispatchersCanOvershoot` | crates/swarm-orchestrator/src/orchestrator.rs:278-322 | from any reachable state with room for one task, n idle dispatchers and n queued tasks for each of which the scheduler can choose one and the same agent, some interleaving puts all n in flight on that agent |
| `DispatcherBound.SubmitOne` | crates/swarm-orchestrator/src/orchestrator.rs:221-240 | an undisturbed submission queues exactly one more pending task and changes nothing else |
| `DispatcherBound.ScheduleOne` | crates/swarm-orchestrator/src/orchestrator.rs:278-322 | one dispatcher on its own takes exactly one task from queued to in flight, on the only agent the scheduler can choose, marks it busy and comes back to rest |
| `DispatcherBound.BoundIsAttained` | crates/swarm-orchestrator/src/orchestrator.rs:278-322 | the bound is tight: for every positive limit and every number k of dispatchers some run from the empty orchestrator, with the scheduler choosing and busy agents left alone, has the limit plus k - 1 tasks in flight; for k above one an agent holds two of them |
| `DispatcherBound.MostInFlightIsExact` | crates/swarm-orchestrator/src/orchestrator.rs:278-322 | the greatest number of tasks in flight over all runs, for every k and every limit: none without dispatchers or with limit zero, otherwise the limit plus k - 1 |
| `DispatcherBound.LimitIsKeptIff` | crates/swarm-orchestrator/src/orchestrator.rs:278-322 | the concurrency limit is kept in every run of k dispatchers exactly when k is at most one or the limit is zero |
| `DispatcherAssignments.ChoicesAreTheSchedulers` | crates/swarm-orchestrator/src/orchestrator.rs:285-292 | in every reachable state a dispatcher that asks for an agent moves on exactly as the scheduler can decide about the task it has peeked, over the registry of that moment |
| `DispatcherAssignments.DispatcherReturns` | crates/swarm-orchestrator/src/orchestrator.rs:278-322 | a dispatcher that has passed the limit check can always come back to rest by at most six steps of its own, without waiting for anybody, since each of them brings it nearer |
| `DispatcherAssignments.TaskStepsByFields` | crates/swarm-orchestrator/src/orchestrator.rs:325-404 | a start or an end of a task changes that task alone, and an end makes room under the limit |
| `DispatcherAssignments.StepKeepsExclusive` | crates/swarm-orchestrator/src/orchestrator.rs:278-420 | with at most one dispatcher past the limit check, every step of it and of all other clients keeps: an agent with a task in flight shows it, one about to be booked is free, and none holds two |
| `DispatcherAssignments.NeverDoubleBookedIff` | crates/swarm-orchestrator/src/orchestrator.rs:278-322 | no run of k dispatchers ever puts two tasks in flight on one agent exactly when k is at most one or the limit is zero |
| `ImportRaces.StepKeepsInv` | crates/swarm-orchestrator/src/orchestrator.rs:221-420 | with imports as two steps among all others: a pending or importing task is queued, being stored, owned by the one removal that won it, or was looked up in vain |
| `ImportRaces.WinnerFindsIff` | crates/swarm-orchestrator/src/orchestrator.rs:293-318 | the winner of a removal commits exactly when its task has been stored |
| `ImportRaces.MissedIff` | crates/swarm-orchestrator/src/orchestrator.rs:293-318 | a task is looked up in vain by exactly those steps in which the winner of its removal, a dispatcher or a cancellation, looks it up before it is stored |
| `ImportRaces.AbandonedIff` | crates/swarm-orchestrator/src/orchestrator.rs:243-272 | after any run the tasks that are pending but in no hands are exactly the imported ones that the winner of their removal looked up between the two steps of the import |
| `ImportRaces.NoTaskIsLostIff` | crates/swarm-orchestrator/src/orchestrator.rs:243-272 | when all imports are done, no task has been lost exactly when no winner looked one up in vain |
| `ImportRaces.AbandonedForGood` | crates/swarm-orchestrator/src/orchestrator.rs:243-272 | such a task stays pending and unqueued in every continuation |
| `ImportRaces.DispatcherCanAbandon` | crates/swarm-orchestrator/src/orchestrator.rs:243-318 | with one dispatcher and any positive limit some run loses an imported task |
| `ImportRaces.CancellationCanAbandon` | crates/swarm-orchestrator/src/orchestrator.rs:243-420 | so does a cancellation between the two steps, which succeeds and yet leaves the task pending |
| `ImportRaces.BoundsSurviveImports` | crates/swarm-orchestrator/src/orchestrator.rs:243-322 | with imports anywhere, the bound of the limit plus k - 1 and one won removal per task still hold |
| `ImportRaces.SingleBookingSurvivesImports` | crates/swarm-orchestrator/src/orchestrator.rs:243-322 | with imports anywhere, a single dispatcher still never books an agent twice |
| `CircuitBreaking.NewBreakerConsistentIff` | crates/swarm-runtime/src/circuit_breaker.rs:84-94 | a new breaker is consistent exactly when its threshold is at least one |
| `CircuitBreaking.PlayKeepsConsistent` | crates/swarm-runtime/src/circuit_breaker.rs:125-207 | over every trace: a deadline is set exactly while open and lies one open duration after opening, a closed breaker is below its threshold, and the counter is the number of failures since the last success |
| `CircuitBreaking.ClosedIff` | crates/swarm-runtime/src/circuit_breaker.rs:125-207 | over every trace from a new breaker the circuit is closed exactly while fewer failures than the threshold were recorded since the last success, and then every call is admitted |
| `CircuitBreaking.OpensAtThreshold` | crates/swarm-runtime/src/circuit_breaker.rs:181-207 | it opens with exactly the failure that reaches the threshold, at that instant and for one open duration, and again with the failure of a probe; a failure while it is open changes nothing |
| `CircuitBreaking.AdmittedAgainIff` | crates/swarm-runtime/src/circuit_breaker.rs:125-165 | an open circuit admits its first call at any instant from one open duration after it opened, and none before, whatever was refused or recorded in between, a success excepted |
| `CircuitBreaking.SuccessCloses` | crates/swarm-runtime/src/circuit_breaker.rs:169-178 | a success makes the breaker as new, whatever came before |
| `CircuitBreaking.ZeroThresholdIsOne` | crates/swarm-runtime/src/circuit_breaker.rs:181-207 | a breaker with threshold zero behaves as one with threshold one on every trace |
| `CircuitBreaking.OpenUntilDeadline` | crates/swarm-runtime/src/circuit_breaker.rs:125-165 | while open, without a recorded success, nothing that happens before the deadline changes the circuit |
| `CircuitBreaking.OneProbe` | crates/swarm-runtime/src/circuit_breaker.rs:125-165 | after a half-open admission every further acquire is refused, at any time, until an outcome is recorded |
| `CircuitBreaking.OpenedMeansWait` | crates/swarm-runtime/src/circuit_breaker.rs:125-207 | after a failure that opens the circuit and without a success, the next admission comes at least one open duration later |
| `CircuitBreaking.ProbesAreSpaced` | crates/swarm-runtime/src/circuit_breaker.rs:125-207 | two successive probes without a success between them are at least one open duration apart |
| `CircuitBreakers.CircuitBreaker.constructor` | crates/swarm-runtime/src/circuit_breaker.rs:84-94 | a new breaker is closed with no failures |
| `CircuitBreakers.CircuitBreaker.Acquire` | crates/swarm-runtime/src/circuit_breaker.rs:125-165 | the in-place decision is the acquire step of the timed machine |
| `CircuitBreakers.CircuitBreaker.RecordSuccess` | crates/swarm-runtime/src/circuit_breaker.rs:169-178 | the in-place reset is the success step |
| `CircuitBreakers.CircuitBreaker.RecordFailure` | crates/swarm-runtime/src/circuit_breaker.rs:181-207 | the in-place update is the failure step, opening from closed at the threshold and from half-open at once |
| `Running.CutShortIff` | crates/swarm-runtime/src/runner.rs:320-328 | a run is cut short exactly when it outlasts some limit that is present, of the task or of the agent |
| `Running.RunnerFollowsProtocol` | crates/swarm-runtime/src/runner.rs:233-358 | every path of a run on a task scheduled to this agent makes only calls the protocol permits, and its effect is that of those calls |
| `Running.RunTaskSettles` | crates/swarm-runtime/src/runner.rs:233-358 | every path (breaker refusal, policy denial, enrichment error, success, agent error, timeout) leaves the task with the outcome the inputs determine and the agent ready, and touches nothing else |
| `Running.RunSettlesAmongOthers` | crates/swarm-runtime/src/runner.rs:233-358 | however many protocol-abiding calls other clients make before, between and after the reports of a run, the reports are permitted where they come, the invariant holds, and the task ends exactly as if the run had been alone |
| `Running.SettledMeans` | crates/swarm-runtime/src/runner.rs:233-358 | settled means: the task is terminal, the agent is ready, exactly one counter of exactly that agent went up by one, and every other task and agent is unchanged |
| `Running.RunTaskResult` | crates/swarm-runtime/src/runner.rs:233-358 | the result is Ok exactly when the task completed and its artifacts were persisted, with the same output; a timeout is reported as such |
| `Running.RunByInputs` | crates/swarm-runtime/src/runner.rs:233-358 | status and answer of a run follow from its inputs: refused by the breaker, the policy or the enrichment, timed out when the agent outlasts the limit of the task or its own, and otherwise what the agent answered, a persistence error taking precedence in the answer |
| `Running.RunKeepsBook` | crates/swarm-runtime/src/runner.rs:233-358 | a run whose task ends completed leaves the breaker closed with no failures; every other run that is let in raises the count by one and shuts the breaker from the threshold on, at the time its task ended; a run that is turned away changes nothing |
| `Running.RunsKeepBook` | crates/swarm-runtime/src/runner.rs:233-358 | over any series of runs of one runner on tasks scheduled to its agent the breaker agrees with a book that knows of each run only when it asked for admission and how its task ended |
| `Running.FailingAgentOpensBreaker` | crates/swarm-runtime/src/runner.rs:233-358 | when no run completes its task, the breaker is open exactly from the run on that reaches the threshold, and closed before it |
| `Running.LastRunDecides` | crates/swarm-runtime/src/runner.rs:233-358 | after any series, a completed task leaves count zero and a closed breaker, and a miss that is let in raises the count by exactly one |
| `Running.BreakerLeftHalfOpenIff` | crates/swarm-runtime/src/runner.rs:233-358 | a run leaves the breaker half-open exactly when it found it so, or when its probe was admitted for a task that is unknown or not scheduled to this agent, since that path records no outcome |
| `Running.StrandedForGood` | crates/swarm-runtime/src/runner.rs:233-358 | a breaker that a run leaves half-open admits nobody at any time, and no series of later runs of its runner changes that |
| `Running.StrandedByUnknownTask` | crates/swarm-runtime/src/runner.rs:233-308 | for every open duration, a breaker with threshold one that has failed once is stranded by a probe on an unknown task |
| `Running.BreakerNeverLeftHalfOpen` | crates/swarm-runtime/src/runner.rs:233-358 | on a task scheduled to this agent a breaker that was not half-open is not left half-open |
| `TaskRunners.TaskRunner.constructor` | crates/swarm-runtime/src/runner.rs:208-216 | a runner has its own closed breaker, to open at the fifth failure in a row and for thirty seconds |
| `TaskRunners.TaskRunner.RunTask` | crates/swarm-runtime/src/runner.rs:233-308 | breaker, policy, enrichment, start, execution and reports in that order are the run analysed above, for handle, breaker and result together |
| `TaskRunners.TaskRunner.FinishExecution` | crates/swarm-runtime/src/runner.rs:330-358 | the success and error branches update breaker and handle as the run analysed above |
| `TaskStores.CollectIsBatch` | crates/swarm-cli/src/commands/task.rs:362-369 | whatever order the store lists its tasks in, the batch is made of distinct pending tasks, oldest first, as many as the limit allows, and nothing older is left behind |
| `TaskStores.TaskStore.List` | crates/swarm-cli/src/commands/task.rs:460-461 | lists every stored task exactly once |
| `TaskStores.TaskStore.Record` | crates/swarm-cli/src/commands/task.rs:532-533 | replaces the stored record of one task |
| `Draining.CombinedCapabilities` | crates/swarm-cli/src/commands/task.rs:371-376 | the union covers the requirements of every task of the batch |
| `Draining.AddWorker` | crates/swarm-cli/src/commands/task.rs:486-500 | registering and readying a worker with the combined capabilities succeeds and keeps all workers idle, capable and equal |
| `Draining.ImportPushes` | crates/swarm-cli/src/commands/task.rs:502-504 | importing an admissible task is a stable push onto the queue and touches nothing else |
| `Draining.RoundSchedulesHead` | crates/swarm-cli/src/commands/task.rs:510-515 | with all workers idle the head of the queue is always scheduled, and an empty queue ends the loop |
| `Draining.RoundSettles` | crates/swarm-cli/src/commands/task.rs:510-540 | one round schedules the head, runs it to a terminal status, reports Ok exactly on completion and returns to the all-idle state with one task less to go |
| `TaskProcessing.RegisterWorkers` | crates/swarm-cli/src/commands/task.rs:486-500 | after the loop there is one runner for every registered worker, all idle and capable |
| `TaskProcessing.ImportAll` | crates/swarm-cli/src/commands/task.rs:502-504 | the imports succeed exactly when every task of the batch validates, and then the queue holds the batch in priority order, oldest first within a priority |
| `TaskProcessing.FindRunner` | crates/swarm-cli/src/commands/task.rs:517-520 | finds a runner of the given agent exactly when there is one |
| `TaskProcessing.ProcessOne` | crates/swarm-cli/src/commands/task.rs:510-540 | one pass of the loop ends it exactly when nothing is queued or the limit is zero, and otherwise takes the next task to the terminal record that a run of its worker, with the breaker as it is and no policy or persistence, makes of it, stores that record and reports it truthfully |
| `TaskProcessing.DrainAll` | crates/swarm-cli/src/commands/task.rs:506-540 | the loop terminates, reports one entry per queued task in queue order, completed plus failed is the number of entries, and the store has every outcome and is otherwise unchanged |
| `TaskProcessing.WorkOrderFacts` | crates/swarm-cli/src/commands/task.rs:502-540 | the order of work touches exactly the tasks of the batch, each once |
| `TaskProcessing.WorkOrderIsByUrgency` | crates/swarm-cli/src/commands/task.rs:502-540 | a batch is worked off critical tasks first, then high, normal and low ones, each priority in the order of the batch |
| `TaskProcessing.ImportableIff` | crates/swarm-cli/src/commands/task.rs:502-504 | a batch can be imported exactly if every task in it has a name that is not blank and a time limit, or else the default one, that is absent or between a millisecond and a day |
| `TaskProcessing.CompletedCountIs` | crates/swarm-cli/src/commands/task.rs:534-540 | the number completed is the number of reports of completed tasks |
| `TaskProcessing.RecordedMeansFinished` | crates/swarm-cli/src/commands/task.rs:506-540 | what the reports say about the store means that every task of the batch is terminal, everything else is as before, and the pending count dropped by the batch size |
| `TaskProcessing.CountPending` | crates/swarm-cli/src/commands/task.rs:462-466 | counts exactly the pending tasks of the store |
| `TaskProcessing.ProcessBatch` | crates/swarm-cli/src/commands/task.rs:481-558 | setting up, importing and draining a nonempty batch works it off completely, or leaves the store as it was when an import is refused |
| `TaskProcessing.ProcessPendingTasks` | crates/swarm-cli/src/commands/task.rs:452-559 | the command is total: it succeeds exactly with a worker and an importable batch; with room for one task it works the batch off, processed = attempted = completed + failed, and remaining is what is still pending; otherwise the store is untouched |
| `PluginHosts.StepKeepsInv` | crates/swarm-plugin/src/host.rs:255-411 | every step of every loader, invoker, unloader and health check keeps: one instance per plugin, from a completed load; loaders alone on their plugin; a lock held by exactly one thread; announced unloads are final |
| `PluginHosts.RunKeepsInv` | crates/swarm-plugin/src/host.rs:255-411 | so does every interleaving |
| `PluginHosts.InitialInv` | crates/swarm-plugin/src/host.rs:156-187 | an empty host with any number of idle threads satisfies the invariant |
| `PluginHosts.OneHolderPerPlugin` | crates/swarm-plugin/src/host.rs:329-359 | two threads that hold the instance lock of one plugin are the same thread |
| `PluginHosts.EnterUnloadKeepsUnloads` | crates/swarm-plugin/src/host.rs:351-366 | when `on_unload` begins no action of that plugin is about to run or running, because it begins under the instance lock and after the state changed |
| `PluginHosts.ActionsNeverMeetUnload` | crates/swarm-plugin/src/host.rs:291-387 | in no reachable state does a plugin action overlap `on_unload` of the same plugin, and none runs once some `on_unload` of it has begun |
| `PluginHosts.RetiredForGood` | crates/swarm-plugin/src/host.rs:351-387 | once a plugin is unloading or unloaded no later step of any thread makes it active again, though unloaded can turn into unloading again |
| `PluginUnloads.BeginsAsAnnounced` | crates/swarm-plugin/src/host.rs:351-387 | in every run `on_unload` has begun as often as the unload of the plugin was announced, less the announcements that have not yet come to begin |
| `PluginUnloads.SecondUnloadIff` | crates/swarm-plugin/src/host.rs:351-387 | after any run, `on_unload` of a plugin can come to begin a second time, without a further unload call, exactly when two unload calls on it overlapped in the run |
| `PluginUnloads.BeginsOnceWithoutOverlap` | crates/swarm-plugin/src/host.rs:351-387 | in every run in which unload calls on a plugin do not overlap its `on_unload` begins at most once |
| `PluginUnloads.UnloadsOnceIff` | crates/swarm-plugin/src/host.rs:351-387 | it begins at most once per plugin in every run from an empty host exactly when there is at most one thread |
| `PluginUnloads.UnloadCanBeginTwice` | crates/swarm-plugin/src/host.rs:351-387 | with two threads the plugin goes from unloaded back to unloading and `on_unload` begins again |
| `PluginUnloads.UnloadedForGoodIff` | crates/swarm-plugin/src/host.rs:351-387 | in a reachable state an unloaded plugin stays unloaded, whatever happens, exactly when no thread is left that cloned its instance for an unload and has not announced it |
| `PluginHosts.RetiredIffAnnounced` | crates/swarm-plugin/src/host.rs:351-387 | a plugin is unloading or unloaded after a run exactly when it was before or some step of the run announced its unload |
| `PluginHosts.HealthCheckMeetsActiveIff` | crates/swarm-plugin/src/host.rs:400-411 | in every reachable state a health check under way meets an active plugin exactly when no unload of it has been announced, and otherwise one that is unloading or unloaded |
| `PluginHosts.CheckCanMeetUnloaded` | crates/swarm-plugin/src/host.rs:400-411 | with two threads a health check can run after `on_unload` has returned and the plugin is unloaded, because its clone outlives the map entry |
| `PluginHosts.CheckCanMeetUnloading` | crates/swarm-plugin/src/host.rs:400-411 | with two threads a health check can be running when the unload of its plugin is announced |
| `PluginHosts.HealthChecksMeetOnlyActiveIff` | crates/swarm-plugin/src/host.rs:400-411 | health checks meet only active plugins in every run from an empty host exactly when there is at most one thread |
| `PluginCalls.InvocationIsServed` | crates/swarm-plugin/src/host.rs:291-347 | an invocation on an active, loaded plugin whose lock is free runs the action and leaves everything as it was |
| `PluginCalls.InvocationPassesIff` | crates/swarm-plugin/src/host.rs:291-347 | both looks at the registry let an invocation pass exactly if the plugin is active at that moment, and a refused one holds no lock |
| `PluginCalls.LoadIsTakenUpIff` | crates/swarm-plugin/src/host.rs:255-289 | a load is taken up exactly for a plugin that is unknown or whose load has failed |
| `PluginCalls.FailedLoadCanBeRepeated` | crates/swarm-plugin/src/host.rs:255-289 | a failed load leaves no instance, and the plugin can be loaded once more |
| `PluginCalls.InstanceIsAskedForIff` | crates/swarm-plugin/src/host.rs:351-411 | an unload and a health check are taken up exactly for a plugin with an instance, whatever its state |
| `Policies.EngineSortsSurvivors` | crates/swarm-policy/src/engine.rs:74-86 | pushing and sorting at every registration and retaining at every removal gives the stable descending-priority sort of the surviving registrations |
| `Policies.EvaluateIsFirstExplicit` | crates/swarm-policy/src/engine.rs:95-136 | the decision is that of the first policy in the list that does not abstain, an evaluation error included, or the default |
| `Policies.SurvivorsByHistory` | crates/swarm-policy/src/engine.rs:74-86 | a registration is in force exactly if no later removal names its id |
| `Policies.DecisionByHistory` | crates/swarm-policy/src/engine.rs:74-136 | after any history, of the policies in force that do not abstain the one of the highest priority decides, and of several the one registered first, with its denial, its permission or its error; if all abstain, the default does |
| `Policies.EnforceIff` | crates/swarm-policy/src/engine.rs:140-149 | enforcing lets through exactly what is allowed, and tells a denial from an evaluation error |
| `Policies.SortedIsUnique` | crates/swarm-policy/src/engine.rs:74-80 | with distinct priorities there is only one sorted arrangement |
| `Policies.RegistrationOrderIsIrrelevant` | crates/swarm-policy/src/engine.rs:74-136 | two histories that leave the same policies with distinct priorities decide alike, whatever the order of registration |
| `Policies.OrderIsIrrelevantIff` | crates/swarm-policy/src/engine.rs:74-136 | all histories that leave the same policies decide alike, for all answers, exactly when the surviving priorities are distinct |
| `Policies.EqualPrioritiesDependOnOrder` | crates/swarm-policy/src/engine.rs:74-136 | with equal priorities the order of registration can change the decision |
| `PolicyEngines.PolicyEngine.constructor` | crates/swarm-policy/src/engine.rs:53-71 | a new engine has no policies and the given default |
| `PolicyEngines.PolicyEngine.Register` | crates/swarm-policy/src/engine.rs:74-80 | pushing and sorting in place is the registration step |
| `PolicyEngines.PolicyEngine.Unregister` | crates/swarm-policy/src/engine.rs:83-86 | retaining in place is the removal step |
| `PolicyEngines.PolicyEngine.Evaluate` | crates/swarm-policy/src/engine.rs:95-136 | the loop with early return computes the decision characterised above |
| `PolicyEngines.PolicyEngine.Enforce` | crates/swarm-policy/src/engine.rs:140-149 | succeeds exactly on an allowing decision and separates denials from evaluation errors |
| `Routing.SoftStage` | crates/swarm-provider/src/router.rs:363-372 | a soft stage never empties a nonempty list and leaves either exactly the satisfying members or the list it was given |
| `Routing.CandidatesMeetHard` | crates/swarm-provider/src/router.rs:351-437 | every candidate is registered and meets all hard constraints; there is one exactly when some registered provider meets them, offers the preferred model unless no admissible provider does, and lies in the preferred region unless nobody left does |
| `Routing.HardConstraintsDecide` | crates/swarm-provider/src/router.rs:351-437 | with no soft stage ahead of the hard ones a candidate is found exactly when a registered provider meets every hard constraint |
| `Routing.SoftStageCanDefeatHardConstraint` | crates/swarm-provider/src/router.rs:363-437 | preferring a model can rule out the only provider that meets a strict locality, so a request can fail although a suitable provider is registered |
| `Routing.CandidateProviders` | crates/swarm-provider/src/router.rs:351-437 | narrowing one list stage by stage, with both early returns, computes the candidates characterised above |
| `Routing.OrderIsTotalPreorder` | crates/swarm-provider/src/router.rs:175-249 | all three comparators are total preorders over absent or ordinary hints |
| `Routing.CollectHealthy` | crates/swarm-provider/src/router.rs:319-328 | the health-check loop keeps exactly the healthy candidates, in order |
| `Routing.FinalizeDecision` | crates/swarm-provider/src/router.rs:315-349 | filtering, the emptiness check and splitting off the first candidate compute the decision |
| `Routing.Select` | crates/swarm-provider/src/router.rs:452-508 | candidates, sorting and finalisation in that order compute the route of each sorting strategy |
| `Routing.RouteIsBest` | crates/swarm-provider/src/router.rs:452-508 | the primary meets every hard constraint, is healthy when required and beaten by no usable candidate; primary and fallbacks are a sorted permutation of the usable candidates when fallbacks are allowed; an error means nobody is usable |
| `RoutingByFields.CandidatesByFields` | crates/swarm-provider/src/router.rs:351-437 | from the fields of the providers: the candidates are exactly the registered ones with every required feature, allowed and not blocked, with the preferred model unless nobody has it, in an allowed region unless that is soft and nobody is, with every mandatory standard, and with every advisory one unless nobody has them; the boundary is violated exactly when a strict locality or a mandatory standard leaves nobody |
| `RoutingByFields.DecisionByFields` | crates/swarm-provider/src/router.rs:175-349 | the primary may precede every usable candidate, by preferred model, then by the numbers the strategy looks at, then by name; with fallbacks allowed exactly the usable candidates are listed, in such an order; routing fails exactly when nobody is usable, with the right error |
| `RoutingByFields.LowestCostIsLowest` | crates/swarm-provider/src/router.rs:175-208 | under `LowestCost` no usable candidate with as good a claim to the preferred model has a lower cost than the primary, and if the primary names none, neither does any of them; any match of the model comes before any non-match |
| `RoutingByFields.LowestLatencyIsLowest` | crates/swarm-provider/src/router.rs:175-208 | the same of latency under `LowestLatency` |
| `RoutingByFields.PreferencesDecide` | crates/swarm-provider/src/router.rs:211-249 | under `CapabilityMatch` the primary has the lowest cost when cheapest is asked for and the highest quality when the best is, and among those tied with it the lowest latency when the fastest is |
| `RoundRobin.RouteIsCyclic` | crates/swarm-provider/src/router.rs:530-540 | without a health filter the primary is the candidate at the cursor and the fallbacks are the remaining cyclic order |
| `RoundRobin.RouteIsFirstHealthy` | crates/swarm-provider/src/router.rs:530-540 | with the health filter the primary is the first healthy candidate cyclically from the cursor |
| `RoundRobin.ChosenFromZero` | crates/swarm-provider/src/router.rs:530-540 | m routes from cursor zero over n candidates choose candidate j exactly m/n times, and once more when j is below m mod n |
| `RoundRobin.EveryWindowIsFair` | crates/swarm-provider/src/router.rs:530-540 | any n consecutive routes choose each of n candidates exactly once, from whatever cursor |
| `RoundRobin.FairRun` | crates/swarm-provider/src/router.rs:530-540 | so a run chooses everybody once per n routes, and between floor(m/n) and ceil(m/n) times from cursor zero |
| `RoundRobin.RoundRobinRouter.constructor` | crates/swarm-provider/src/router.rs:520-525 | the cursor starts at zero |
| `RoundRobin.RoundRobinRouter.Route` | crates/swarm-provider/src/router.rs:530-540 | fetching and advancing the cursor, with wrap-around, and rotating in place give the rotation analysed above; errors and empty lists leave the cursor alone |
| `RoundRobin.RouteMany` | crates/swarm-provider/src/router.rs:530-540 | any number of routes over one unchanged registry, with or without a health filter and past the wrap, are the routes of successive cursor positions; errors and empty lists leave the cursor where it is |
| `RoundRobin.RunIsCyclic` | crates/swarm-provider/src/router.rs:530-540 | without a health filter the primaries of such a run are the cyclic order, and each candidate gets exactly the share counted above, until the cursor wraps and also past that when the number of candidates divides its range |
| `Roles.NarrowAdmits` | crates/swarm-role/src/resolver.rs:107-120 | the merged allow-list admits exactly what both sides admit, unless both are nonempty and disjoint, in which case it admits everything although both together admit nothing |
| `Roles.MergeToolsIsConjunctionIff` | crates/swarm-role/src/resolver.rs:98-146 | a tool is permitted by the merge iff by both sides, for every tool, exactly when the allow-lists do not clash; the call limit is the lower one |
| `Roles.MergeLearningIsConjunctionIff` | crates/swarm-role/src/resolver.rs:197-229 | a learning category is permitted by the merge iff by both sides, for every category, exactly when the allow-lists do not clash |
| `Roles.MergeMemoryIsConjunctionIff` | crates/swarm-role/src/resolver.rs:149-252 | reading and writing a scope needs both sides, for every scope, exactly when the lists do not clash; the sensitivity ceiling is the lower rank, unknown labels ranking as internal |
| `Roles.MergesAreIdempotent` | crates/swarm-role/src/resolver.rs:98-252 | merging a policy with itself changes nothing, not even the order of its lists |
| `Roles.MergesCommute` | crates/swarm-role/src/resolver.rs:98-252 | the three merges commute as sets of names, limits and ranks |
| `Roles.NarrowRegroupsIff` | crates/swarm-role/src/resolver.rs:107-120 | the allow-list merge is associative as sets under an exact condition on which neighbouring lists overlap |
| `Roles.CommonNameRegroups` | crates/swarm-role/src/resolver.rs:107-120 | three allow-lists with a name in common always meet that condition |
| `Roles.MergeToolsRegroupsIff` | crates/swarm-role/src/resolver.rs:98-146 | the tool merge is associative as sets exactly under that condition on the allow-lists |
| `Roles.MergeLearningRegroupsIff` | crates/swarm-role/src/resolver.rs:197-229 | the learning merge is associative as sets exactly under that condition |
| `Roles.MergeMemoryRegroupsIff` | crates/swarm-role/src/resolver.rs:149-195 | the memory merge is associative exactly under that condition on both scope lists; the retention hint always regroups |
| `Roles.ResolvedPermitsIff` | crates/swarm-role/src/resolver.rs:22-95 | a tool is open to the resolved role iff the role and the override permit it and it is not additionally denied, for every tool, exactly when the allow-lists do not clash |
| `Roles.ResolvedNeverLoosens` | crates/swarm-role/src/resolver.rs:22-95 | whatever the override says, resolution undoes no denial, raises neither trust nor call limit nor sensitivity ceiling, and turns neither learning on nor approval off |
| `Roles.ResolvedByFields` | crates/swarm-role/src/resolver.rs:22-95 | what an override does to each part of a role: trust and call limit are the lower ones, denials and required capabilities add up, learning stays on only if both want it and asks for approval if either does, preferences are the override where it has any, and a part it does not mention is the role |
| `Roles.ResolvedListsByFields` | crates/swarm-role/src/resolver.rs:22-95 | each allow-list is the one side where the other has none, and otherwise the names of the role in their order that the override lists too; the memory label is the stricter one, public below internal below confidential below restricted and any other as internal; the retention hint is that of the override where it has one |
| `Roles.PushMissing` | crates/swarm-role/src/resolver.rs:100-105 | the loop that appends missing names computes the order-preserving union |
| `Roles.MergeToolPolicy` | crates/swarm-role/src/resolver.rs:98-146 | the two union loops and the intersection compute the tool merge |
| `Roles.MergeLearningPolicy` | crates/swarm-role/src/resolver.rs:197-229 | the union loop, conjunction and disjunction compute the learning merge |
| `Roles.Resolve` | crates/swarm-role/src/resolver.rs:22-95 | resolution step by step computes the profile analysed above |
| `Retention.RetentionSparesTheNewest` | crates/swarm-memory/src/in_memory.rs:114-173 | a pass touches nothing out of scope, keeps nothing too old and at most the allowed number, and every survivor in scope is at least as new as every removed entry |
| `Retention.RetentionRemoves` | crates/swarm-memory/src/in_memory.rs:114-173 | the number of removed entries follows from the input alone: the too old ones plus the excess of the young ones over the limit |
| `Retention.RetainedByFields` | crates/swarm-memory/src/in_memory.rs:114-173 | a pass leaves every entry out of scope, none in scope that has outlived the age, and of the others in scope all, or as many as the limit allows with none of them older than one that goes |
| `Retention.RetentionIsIdempotent` | crates/swarm-memory/src/in_memory.rs:114-173 | a second pass at the same time removes nothing |
| `Retention.RetentionIsDeterministic` | crates/swarm-memory/src/in_memory.rs:114-173 | with distinct creation times the iteration order of the map never shows in the outcome |
| `Retention.NewestOfNewest` | crates/swarm-memory/src/in_memory.rs:47-99 | the newest n of the newest m are the newest n, for n up to m |
| `Retention.FoundByFields` | crates/swarm-memory/src/in_memory.rs:47-99 | what a query finds is stored and wanted: not expired unless asked for, of the scope and kind asked for, with every tag, and no more sensitive than allowed; whatever is wanted is found, unless the limit is used up by entries at least as new |
| `Retention.RetentionIsInvisibleToRecentQueries` | crates/swarm-memory/src/in_memory.rs:47-173 | a query for the newest n of a scope sees the same entries before and after a pass that keeps at least n there and finds nothing too old |
| `InMemoryBackends.InMemoryBackend.constructor` | crates/swarm-memory/src/in_memory.rs:32-36 | a new backend is empty |
| `InMemoryBackends.InMemoryBackend.Put` | crates/swarm-memory/src/in_memory.rs:41-45 | stores the entry under its id, replacing an older one |
| `InMemoryBackends.InMemoryBackend.Delete` | crates/swarm-memory/src/in_memory.rs:105-112 | removes exactly that entry or reports it missing |
| `InMemoryBackends.InMemoryBackend.Retrieve` | crates/swarm-memory/src/in_memory.rs:47-99 | returns the newest matches, newest first and without repeats, as many as asked for, with no better match left out |
| `InMemoryBackends.NewestComeFirst` | crates/swarm-memory/src/in_memory.rs:47-99 | the entries come back newest first |
| `InMemoryBackends.InMemoryBackend.RemoveAll` | crates/swarm-memory/src/in_memory.rs:140-143 | the removal loop removes exactly the listed entries and counts them |
| `InMemoryBackends.InMemoryBackend.TrimToLimit` | crates/swarm-memory/src/in_memory.rs:148-169 | collecting, sorting oldest first and removing the excess leaves exactly the newest in scope |
| `InMemoryBackends.InMemoryBackend.ApplyRetention` | crates/swarm-memory/src/in_memory.rs:114-173 | an age that does not fit is refused and one that reaches back before the earliest date panics, each exactly then and before anything is removed; otherwise the store is retained exactly and the result is the size before minus the size after |
| `Retrying.DelayIsCapped` | crates/swarm-core/src/types.rs:128-155 | no delay is negative or exceeds the cap, for any attempt, strategy and multiplier |
| `Retrying.DelaysNondecreasing` | crates/swarm-core/src/types.rs:128-155 | for a multiplier of at least one delays are nondecreasing as long as the exponent fits, also when the factor becomes infinite on the way |
| `Retrying.DelaysNondecreasingIff` | crates/swarm-core/src/types.rs:128-155 | for growing delays, any first delay and cap and any two attempts, the delays are in order exactly when the later one does not dip or the earlier one dips already; one dips when its factor is neither vanished nor infinite although its exponent has wrapped or the first delay is zero, and the delay is below the cap |
| `Retrying.DelayByBranch` | crates/swarm-core/src/types.rs:128-155 | over the whole range of attempts a growing delay is the product, below the cap and not above the first delay, exactly where it dips; past the wrap, for a first delay of zero and for one at or above the cap it is otherwise the cap; else it lies between the first delay and the cap |
| `Retrying.DelayWithoutGrowth` | crates/swarm-core/src/types.rs:128-155 | a fixed strategy waits the first delay as far as the cap allows, a multiplier that is not positive the cap, and nobody waits before the first attempt |
| `Retrying.DefaultStrategyDrops` | crates/swarm-core/src/types.rs:128-155 | the default strategy starts with half a second, returns the cap right after the wrap, where the factor vanishes, and an eighth of a second at the last attempt |
| `Retrying.TotalWithinCap` | crates/swarm-core/src/types.rs:128-155 | the delays of n retries add up to at most n times the cap |
| `Retrying.TotalIsBoundedIff` | crates/swarm-core/src/types.rs:128-155 | for a multiplier above one the totals of all numbers of retries up to n stay within initial * (m^i - 1) / (m - 1) exactly when at none of these attempts the factor is infinite although the delay it stands for is below the cap |
| `Retrying.ZeroDelayIsBlownIff` | crates/swarm-core/src/types.rs:128-155 | for a first delay of zero this happens exactly when the factor is infinite |
| `Retrying.ZeroDelayBlows` | crates/swarm-core/src/types.rs:128-155 | an instance: with a first delay of zero and multiplier two the waits are zero until the factor is infinite, and then the cap, so the series is exceeded |
| `Retrying.ReachableCapIsNeverBlown` | crates/swarm-core/src/types.rs:128-155 | it never happens when the cap is at most the first delay times the greatest factor |
| `Retrying.JitterStaysWithinCap` | crates/swarm-runtime/src/retry.rs:37-44 | jitter only lengthens a delay, by less than a tenth, and never past the cap |
| `Retrying.JitterAdds` | crates/swarm-runtime/src/retry.rs:37-44 | with jitter the wait is the delay with its fraction added, as far as the cap allows |
| `Retrying.WaitsAreBounded` | crates/swarm-runtime/src/retry.rs:37-76 | the waits of any run lie between the plain delays and the cap, one by one and in total, and equal the plain delays without jitter |
| `Retrying.Execute` | crates/swarm-runtime/src/retry.rs:50-76 | the operation is called again exactly after a timeout or a lost channel and at most max_attempts times more; the result is that of the last call |
| `WasmAbi.RangeGrantedIff` | crates/swarm-plugin/src/wasm_loader.rs:233-261 | a range is granted exactly when it lies in linear memory; neither a negative pointer nor an overflow can fake one |
| `WasmAbi.DecodedOutputIsBounded` | crates/swarm-plugin/src/wasm_loader.rs:419-459 | for every return code, decoded output is a slice of guest memory at the result pointer of exactly the announced length, at most 256 KiB; success and message are decoded exactly when such a slice exists; for the least i32 this is so in builds without overflow checks, since with them its negation panics |
| `WasmAbi.CopyInto` | plugins/wasm-example/src/lib.rs:97-114 | the copy overwrites exactly the front of the buffer |
| `WasmAbi.WriteSuccess` | plugins/wasm-example/src/lib.rs:97-104 | copies and returns the length, or refuses what does not fit and leaves the buffer alone |
| `WasmAbi.WriteError` | plugins/wasm-example/src/lib.rs:106-114 | copies and returns the negated length, or -1 for the empty and the oversized message |
| `WasmAbi.WriteErrorWithFallback` | plugins/wasm-example/src/lib.rs:116-127 | falls back to the buffer-too-small message exactly where the first attempt returned -1 on a nonempty message |
| `WasmAbi.SuccessRoundTrip` | crates/swarm-plugin/src/wasm_loader.rs:420-435 | the host recovers success bytes exactly when they fit the capacity, whatever surrounds the buffer |
| `WasmAbi.ErrorRoundTripIff` | crates/swarm-plugin/src/wasm_loader.rs:436-459 | the host recovers an error message exactly when it has at least two bytes and fits; otherwise it reports an unspecified error |
| `WasmAbi.FallbackRoundTripIff` | plugins/wasm-example/src/lib.rs:116-127 | with the fallback, a one-byte or oversized message arrives as the complaint that the buffer is too small |
| `WasmHosting.HostWritesOnlyItsBuffer` | crates/swarm-plugin/src/wasm_loader.rs:159-185 | the host writes its input into the range the guest granted and nowhere else |
| `WasmHosting.DeallocateAllReleases` | crates/swarm-plugin/src/wasm_loader.rs:113-125 | every recorded allocation is released exactly once, newest first, whatever fails on the way, and the first failure is reported |
| `WasmHosting.BodyAccounts` | crates/swarm-plugin/src/wasm_loader.rs:386-460 | on every path the requests are made in order, each recorded allocation was granted, and the action runs exactly when all three were |
| `WasmHosting.InvokeTrace` | crates/swarm-plugin/src/wasm_loader.rs:369-475 | the whole trace of invoking an arbitrary guest: requests, perhaps the action, one release per recorded allocation; a result is at most 256 KiB long and comes only after every release succeeded |
| `WasmHosting.EveryGrantIsReleasedIff` | crates/swarm-plugin/src/wasm_loader.rs:369-475 | over the trace of any invocation of any guest, what was granted is what was released plus what went astray, at most one allocation; every granted allocation is released, once each, exactly when every pointer returned was in bounds at that moment |
| `WasmHosting.OutOfBoundsGrantIsNeverReleased` | crates/swarm-plugin/src/wasm_loader.rs:159-185 | an instance for the first request: placed outside memory it is refused before it is recorded, and nothing at all is released |
| `WasmHosting.AnswerRoundTrip` | plugins/wasm-example/src/lib.rs:207-224 | what the example guest answers decodes to that answer, or to the complaint that it did not fit |
| `WasmHosting.EveryActionIsAnswered` | plugins/wasm-example/src/lib.rs:191-225 | what the host decodes for every action of the example: the parameters for `echo`, the pong for `ping`, and an error message for an action it cannot read or does not know |
| `WasmHosting.EchoReturnsItsParameters` | plugins/wasm-example/src/lib.rs:191-225 | from end to end, for any guest that acts as the example, returns from deallocation, and whose allocations of this run lie in memory, apart from each other, and keep what is in them, `echo` brings the parameters back byte for byte up to the capacity and says so when they are longer |
| `WasmHosting.BumpServes` | plugins/wasm-example/src/lib.rs:135-224 | an allocator that grows memory at its end, together with the action of the example, is such a guest wherever memory has room for the three allocations |
| `WasmHosting.BumpEchoes` | plugins/wasm-example/src/lib.rs:191-225 | so for this guest the round trip holds for all parameters that leave room |
| `WasmRuntimes.WasmRuntime.constructor` | crates/swarm-plugin/src/wasm_loader.rs:270-341 | a runtime starts with the guest memory it was given and an empty record |
| `WasmRuntimes.WasmRuntime.Enter` | crates/swarm-plugin/src/wasm_loader.rs:188-195 | one call into the guest replaces the memory by whatever the guest left and is recorded |
| `WasmRuntimes.WasmRuntime.AllocateBuffer` | crates/swarm-plugin/src/wasm_loader.rs:198-214 | asking for a buffer and checking its range is the allocation step |
| `WasmRuntimes.WasmRuntime.AllocAndWrite` | crates/swarm-plugin/src/wasm_loader.rs:159-185 | allocation, range check and copy in that order are the input step |
| `WasmRuntimes.WasmRuntime.DeallocateAll` | crates/swarm-plugin/src/wasm_loader.rs:113-125 | the reversed loop that remembers the first error is the clean-up step |
| `WasmRuntimes.WasmRuntime.Run` | crates/swarm-plugin/src/wasm_loader.rs:386-460 | the closure with its early returns records exactly the allocations it made |
| `WasmRuntimes.WasmRuntime.InvokeAction` | crates/swarm-plugin/src/wasm_loader.rs:369-475 | closure, clean-up and the choice between the two errors are the invocation analysed above |

## Left out

- TaskProcessing.ProcessPendingTasks: the store cannot fail, worker ids are given and distinct, and the clock does not go back between imports.
- TaskProcessing.ProcessOne: the built-in worker has no execution policy and persists no artifacts, as the command sets it up.
- Running.RunTaskSettles: an agent that never returns is cut short only by a limit; a run without any limit is taken to end.
- Dispatchers.InFlightBound: work arrives through `submit_task`; `ImportRaces` adds imports, at most one at a time for an id. The in-flight count is read in one step, and so is the registry by the scheduler.
- PluginHosts.StepKeepsInv: one loader per plugin id at a time, since `prepare_registry_slot` and `register` are two steps; manifest validation, permissions and action lookup only refuse earlier and are not modelled.
- PolicyEngines.PolicyEngine.Evaluate: evaluation works on the list as it was when it began, and each policy answers once.
- RoundRobin.RouteMany: one caller at a time, and health answers that do not change between the routes.
- Routing.RouteIsBest: numeric hints are absent or ordinary numbers (no NaN), health answers do not change during a decision, and model, region and standard names are compared after normalisation.
- Retrying.Execute: the range of the factor is modelled, its rounding is not; nor are non-finite multipliers, which return the cap, and the conversion to `Duration`.
- InMemoryBackends.InMemoryBackend.ApplyRetention: the earliest date is a parameter, since it belongs to the date library.
- InMemoryBackends.InMemoryBackend.Retrieve: text and embedding queries, which the in-memory backend ignores, and the entry's content.
- WasmHosting.InvokeTrace: JSON is a predicate on bytes; the wrap of the negated least `i32` is that of a build without overflow checks; with them it panics before the clean-up.
- Roles.ResolvedNeverLoosens: provider preferences, where the override simply wins, and the profile fields that are copied.
- Tasks inside the orchestrator are values in a map; the record updated in place is `TaskRecords.TaskRecord`, and the map entry is replaced by the updated value.
- `Orchestrator` events, metrics, tracing and the audit log: they observe and change nothing.
- Reason strings of errors: they format what the other fields say.
- `TaskSpec::validate` trims Unicode white space and the scheduler lowers Unicode role names; the model does so for ASCII.
- `Scheduler::is_satisfiable`: one quantified check that nothing else uses.
- The file task store, its locking and its JSON form; the retry, export and listing commands of the CLI.
- Runner enrichment with personality, memory, learning and provider metadata: an arbitrary success or failure before the start.
- `MemoryBackend::redact`, access control and summarisation.
- Streaming, embeddings and the provider registry's own lookup by id.
- Role Markdown parsing, personality overlays, RBAC, manifest checks and configuration defaults: keyword tables and single checks.
- Mutex poisoning and its recovery.
