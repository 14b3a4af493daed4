/** The persistent task store seen as an in-memory map, and the order in which the
    command line takes pending tasks from it. */
module TaskStores {
  import opened Wrappers
  import opened Core
  import opened Tasks
  import opened StableSort
  import opened Orchestration

  predicate OlderFirst(a: Task, b: Task) {
    a.createdAt <= b.createdAt
  }

  predicate IsPending(t: Task) {
    t.status.Pending?
  }

  function PendingIds(tasks: TaskMap): set<TaskId> {
    set id | id in tasks && tasks[id].status.Pending?
  }

  ghost predicate DistinctIds(s: seq<Task>) {
    forall i, j | 0 <= i < j < |s| :: s[i].id != s[j].id
  }

  // Every stored task exactly once.
  ghost predicate Lists(s: seq<Task>, tasks: TaskMap) {
    && DistinctIds(s)
    && (forall t | t in s :: t.id in tasks && tasks[t.id] == t)
    && (forall id | id in tasks :: tasks[id].id == id && tasks[id] in s)
  }

  function CollectPending(tasks: seq<Task>, limit: Option<nat>): seq<Task> {
    var sorted := Sort(OlderFirst, Filter(IsPending, tasks));
    if limit.Some? && limit.value < |sorted| then sorted[..limit.value] else sorted
  }

  // A batch: distinct pending tasks of the store, oldest first, and nothing older left behind.
  ghost predicate Batch(batch: seq<Task>, tasks: TaskMap, limit: Option<nat>) {
    && DistinctIds(batch)
    && (forall t | t in batch :: t.id in tasks && tasks[t.id] == t && t.status.Pending?)
    && (forall i, j | 0 <= i < j < |batch| :: batch[i].createdAt <= batch[j].createdAt)
    && |batch| == (if limit.Some? && limit.value < |PendingIds(tasks)| then limit.value else |PendingIds(tasks)|)
    && (forall t, id | t in batch && id in PendingIds(tasks) && tasks[id] !in batch :: t.createdAt <= tasks[id].createdAt)
  }

  lemma {:induction false} DistinctSize(s: seq<Task>)
    requires DistinctIds(s)
    ensures |set t | t in s :: t.id| == |s|
  {
    if s != [] {
      DistinctSize(s[1..]);
      assert (set t | t in s :: t.id) == (set t | t in s[1..] :: t.id) + {s[0].id};
    }
  }

  lemma {:induction false} FilterDistinct(s: seq<Task>)
    requires DistinctIds(s)
    ensures DistinctIds(Filter(IsPending, s))
  {
    if s != [] {
      FilterDistinct(s[1..]);
      assert forall t | t in s[1..] :: t.id != s[0].id;
    }
  }

  lemma DistinctByMultiset(s: seq<Task>, r: seq<Task>)
    requires DistinctIds(s) && multiset(s) == multiset(r)
    ensures DistinctIds(r) && |r| == |s| && forall t :: t in r <==> t in s
  {
    assert |multiset(s)| == |multiset(r)|;
    forall t ensures t in r <==> t in s {
      assert t in multiset(r) <==> t in multiset(s);
    }
    forall i, j | 0 <= i < j < |r| ensures r[i].id != r[j].id {
      if r[i].id == r[j].id {
        SameIdSame(s, r[i], r[j]);
        assert r == r[..i] + [r[i]] + r[i + 1..j] + [r[j]] + r[j + 1..];
        assert multiset(r)[r[i]] >= 2;
        OccursOnce(s, r[i]);
      }
    }
  }

  lemma SameIdSame(s: seq<Task>, a: Task, b: Task)
    requires DistinctIds(s) && a in s && b in s && a.id == b.id
    ensures a == b
  {
  }

  lemma {:induction false} OccursOnce(s: seq<Task>, t: Task)
    requires DistinctIds(s)
    ensures multiset(s)[t] <= 1
  {
    if s != [] {
      assert s == [s[0]] + s[1..];
      OccursOnce(s[1..], t);
      if t == s[0] {
        assert t !in s[1..];
      }
    }
  }

  // The listed pending tasks are exactly the pending tasks of the store.
  ghost predicate ListsPending(s: seq<Task>, tasks: TaskMap) {
    && DistinctIds(s)
    && (forall t | t in s :: t.id in tasks && tasks[t.id] == t && t.status.Pending?)
    && (forall id | id in PendingIds(tasks) :: tasks[id] in s)
  }

  lemma FilterListsPending(listing: seq<Task>, tasks: TaskMap)
    requires Lists(listing, tasks)
    ensures ListsPending(Filter(IsPending, listing), tasks)
  {
    FilterDistinct(listing);
  }

  lemma ListsPendingSize(s: seq<Task>, tasks: TaskMap)
    requires ListsPending(s, tasks) && forall id | id in tasks :: tasks[id].id == id
    ensures |s| == |PendingIds(tasks)|
  {
    DistinctSize(s);
    forall id | id in PendingIds(tasks) ensures id in set t | t in s :: t.id {
      assert tasks[id] in s;
    }
    assert (set t | t in s :: t.id) == PendingIds(tasks);
  }

  // All pending tasks, oldest first.
  lemma SortedPending(listing: seq<Task>, tasks: TaskMap)
    requires Lists(listing, tasks)
    ensures var sorted := Sort(OlderFirst, Filter(IsPending, listing));
            ListsPending(sorted, tasks) && SortedBy(OlderFirst, sorted) && |sorted| == |PendingIds(tasks)|
  {
    var pending := Filter(IsPending, listing);
    assert TotalPreorder(OlderFirst);
    FilterListsPending(listing, tasks);
    SortSorts(OlderFirst, pending);
    DistinctByMultiset(pending, Sort(OlderFirst, pending));
    ListsPendingSize(Sort(OlderFirst, pending), tasks);
  }

  lemma CollectIsBatch(listing: seq<Task>, tasks: TaskMap, limit: Option<nat>)
    requires Lists(listing, tasks)
    ensures Batch(CollectPending(listing, limit), tasks, limit)
  {
    var sorted := Sort(OlderFirst, Filter(IsPending, listing));
    SortedPending(listing, tasks);
    TruncateIsBatch(sorted, tasks, limit);
  }

  lemma TruncateIsBatch(sorted: seq<Task>, tasks: TaskMap, limit: Option<nat>)
    requires ListsPending(sorted, tasks) && SortedBy(OlderFirst, sorted) && |sorted| == |PendingIds(tasks)|
    ensures Batch(if limit.Some? && limit.value < |sorted| then sorted[..limit.value] else sorted, tasks, limit)
  {
    var batch := if limit.Some? && limit.value < |sorted| then sorted[..limit.value] else sorted;
    forall i, j | 0 <= i < j < |batch| ensures batch[i].createdAt <= batch[j].createdAt {
      assert OlderFirst(sorted[i], sorted[j]);
    }
    forall t, id | t in batch && id in PendingIds(tasks) && tasks[id] !in batch
      ensures t.createdAt <= tasks[id].createdAt
    {
      var i :| 0 <= i < |batch| && batch[i] == t;
      var j :| 0 <= j < |sorted| && sorted[j] == tasks[id];
      assert j >= |batch|;
      assert OlderFirst(sorted[i], sorted[j]);
    }
  }

  class TaskStore {
    var tasks: TaskMap

    method Record(task: Task)
      modifies this
      ensures tasks == old(tasks)[task.id := task]
    {
      tasks := tasks[task.id := task];
    }

    method List() returns (listing: seq<Task>)
      requires forall id | id in tasks :: tasks[id].id == id
      ensures Lists(listing, tasks)
    {
      listing := [];
      var rest := tasks.Keys;
      while rest != {}
        invariant rest <= tasks.Keys && DistinctIds(listing)
        invariant forall t | t in listing :: t.id in tasks && t.id !in rest && tasks[t.id] == t
        invariant forall id | id in tasks && id !in rest :: tasks[id] in listing
        decreases |rest|
      {
        var id :| id in rest;
        rest := rest - {id};
        listing := listing + [tasks[id]];
      }
    }
  }
}

/** `process_pending_tasks`: import a batch, run it on local workers until nothing is left. */
module TaskProcessing {
  import opened Wrappers
  import opened Core
  import opened Capabilities
  import opened Tasks
  import opened TaskQueues
  import opened Registry
  import opened Orchestration
  import opened OrchestrationInvariant
  import opened OrchestratorHandles
  import opened Running
  import opened TaskRunners
  import opened TaskStores
  import opened StableSort
  import opened Draining
  import opened HandleCalls

  const DEFAULT_LIMIT: Option<Duration> := Some(300_000_000_000)

  datatype ProcessedTaskReport = ProcessedTaskReport(id: TaskId, status: TaskStatus, worker: AgentId)

  datatype Summary = Summary(
    availablePending: nat,
    attempted: nat,
    processed: nat,
    completed: nat,
    failed: nat,
    remainingPending: nat,
    workerCount: nat,
    tasks: seq<ProcessedTaskReport>)

  predicate Importable(batch: seq<Task>, default: Option<Duration>) {
    forall t | t in batch :: Imported(t, default).spec.Validate()
  }

  // A batch can be imported exactly if every task in it has a name that is not blank and a time limit,
  // or else the default one, that is absent or between a millisecond and a day.
  lemma ImportableIff(batch: seq<Task>, default: Option<Duration>)
    ensures Importable(batch, default) <==> forall t | t in batch :: Sensible(t.spec.name, LimitOf(t.spec, default))
  {
    hide Sensible, LimitOf, TaskSpec.Validate, TaskSpec.WithDefaultTimeout;
    forall t | t in batch ensures Imported(t, default).spec.Validate() <==> Sensible(t.spec.name, LimitOf(t.spec, default)) {
      SensibleIff(t.spec, default);
    }
  }

  // The order in which a batch is worked off: by priority, then by age.
  function WorkOrder(batch: seq<Task>, default: Option<Duration>): seq<Task> {
    PushAll([], ImportedAll(batch, default))
  }

  method RegisterWorker(handle: OrchestratorHandle, id: AgentId, caps: CapabilitySet, now: Timestamp)
      returns (runner: TaskRunner)
    requires Inv(handle.Value()) && id !in handle.registry.agents
    requires handle.taskQueue.Value() == EMPTY_QUEUE && handle.tasks == map[]
    requires handle.registry.agents != map[] ==> Workers(handle.registry.agents, caps)
    modifies handle.registry, handle.supervision
    ensures Inv(handle.Value()) && Workers(handle.registry.agents, caps)
    ensures handle.registry.agents.Keys == old(handle.registry.agents.Keys) + {id}
    ensures runner.handle == handle && runner.agentId == id && fresh(runner.circuitBreaker)
  {
    hide Inv, Workers;
    var d := AgentDescriptor(id, "CLI-Worker", caps, None, DEFAULT_LIMIT);
    AddWorker(handle.Value(), d, now);
    var registered := handle.RegisterAgent(d, now);
    var ready := handle.SetAgentReady(id, now);
    runner := new TaskRunner(id, DEFAULT_LIMIT, handle);
  }

  ghost predicate Staffed(handle: OrchestratorHandle, runners: seq<TaskRunner>, caps: CapabilitySet)
    reads handle.registry
  {
    && handle.Valid()
    && (forall r | r in runners :: r.handle == handle)
    && (forall a | a in handle.registry.agents :: exists r | r in runners :: r.agentId == a)
    && Workers(handle.registry.agents, caps)
  }

  method RegisterWorkers(handle: OrchestratorHandle, ids: seq<AgentId>, caps: CapabilitySet, now: Timestamp)
      returns (runners: seq<TaskRunner>)
    requires handle.Valid() && ids != [] && forall i, j | 0 <= i < j < |ids| :: ids[i] != ids[j]
    requires Inv(handle.Value()) && handle.registry.agents == map[]
    requires handle.taskQueue.Value() == EMPTY_QUEUE && handle.tasks == map[]
    modifies handle.registry, handle.supervision
    ensures Inv(handle.Value()) && Staffed(handle, runners, caps)
    ensures forall r | r in runners :: fresh(r.circuitBreaker)
  {
    hide Inv, Workers;
    runners := [];
    for i := 0 to |ids|
      invariant forall r | r in runners :: r.handle == handle && fresh(r.circuitBreaker)
      invariant |runners| == i && forall j | 0 <= j < i :: runners[j].agentId == ids[j]
      invariant Inv(handle.Value()) && (handle.registry.agents != map[] ==> Workers(handle.registry.agents, caps))
      invariant handle.registry.agents.Keys == set a | a in ids[..i]
    {
      var runner := RegisterWorker(handle, ids[i], caps, now);
      runners := runners + [runner];
    }
    assert ids[..|ids|] == ids;
    assert ids[0] in handle.registry.agents;
    forall a | a in handle.registry.agents ensures exists r | r in runners :: r.agentId == a {
      var j :| 0 <= j < |ids| && ids[j] == a;
      assert runners[j] in runners;
    }
  }

  // ---- Importing the batch ----

  lemma {:induction false} PushAllAppend(ts: seq<Task>, more: seq<Task>, t: Task)
    ensures PushAll(ts, more + [t]) == StablePush(PushAll(ts, more), t)
    decreases |more|
  {
    if more == [] {
      assert [t][1..] == [];
    } else {
      assert (more + [t])[1..] == more[1..] + [t];
      PushAllAppend(StablePush(ts, more[0]), more[1..], t);
    }
  }

  lemma WorkOrderAppend(batch: seq<Task>, default: Option<Duration>, i: nat)
    requires i < |batch|
    ensures WorkOrder(batch[..i + 1], default) == StablePush(WorkOrder(batch[..i], default), Imported(batch[i], default))
  {
    assert ImportedAll(batch[..i + 1], default) == ImportedAll(batch[..i], default) + [Imported(batch[i], default)];
    PushAllAppend([], ImportedAll(batch[..i], default), Imported(batch[i], default));
  }

  ghost predicate ImportedInto(tasks: TaskMap, batch: seq<Task>, default: Option<Duration>) {
    && (forall t | t in batch :: t.id in tasks && tasks[t.id] == Imported(t, default))
    && (forall id | id in tasks :: exists t :: t in batch && t.id == id)
  }

  // The first `i` tasks of the batch are imported, the latest of them not after `now`.
  ghost predicate Importing(s: Swarm, batch: seq<Task>, i: nat, now: Timestamp)
    requires i <= |batch|
  {
    && Inv(s) && ImportedInto(s.tasks, batch[..i], s.defaultTimeout)
    && Contents(s.queue) == WorkOrder(batch[..i], s.defaultTimeout)
    && forall k | k in s.queue.queue :: k.at <= now
  }

  lemma OneMoreImported(tasks: TaskMap, batch: seq<Task>, i: nat, default: Option<Duration>)
    requires i < |batch| && DistinctIds(batch) && ImportedInto(tasks, batch[..i], default)
    ensures batch[i].id !in tasks
    ensures ImportedInto(tasks[batch[i].id := Imported(batch[i], default)], batch[..i + 1], default)
  {
    assert batch[..i + 1] == batch[..i] + [batch[i]];
    assert forall x | x in batch[..i] :: x.id != batch[i].id;
  }

  lemma ImportStep(s: Swarm, batch: seq<Task>, i: nat, now: Timestamp, later: Timestamp)
    requires i < |batch| && DistinctIds(batch) && batch[i].status.Pending?
    requires Importing(s, batch, i, now) && now <= later
    ensures var (s', r) := s.ImportTask(batch[i], None, later);
            && (r.Ok? <==> Imported(batch[i], s.defaultTimeout).spec.Validate())
            && (if r.Ok? then s'.defaultTimeout == s.defaultTimeout && Importing(s', batch, i + 1, later) else s' == s)
  {
    hide Inv, Contents, Swarm.ImportTask, WorkOrder, WellFormed, TaskSpec.Validate, DistinctIds, ImportedInto, StablePush;
    var t := batch[i];
    OneMoreImported(s.tasks, batch, i, s.defaultTimeout);
    ImportPushes(s, t, later);
    var (s', r) := s.ImportTask(t, None, later);
    assert r.Ok? || r.Err?;
    WorkOrderAppend(batch, s.defaultTimeout, i);
  }

  // Imports in batch order, under a clock that does not go back.
  method ImportAll(handle: OrchestratorHandle, batch: seq<Task>, start: Timestamp) returns (r: Result<(), SwarmError>)
    requires Importing(handle.Value(), batch, 0, start)
    requires DistinctIds(batch) && forall t | t in batch :: t.status.Pending?
    modifies handle`tasks, handle.taskQueue
    ensures r.Ok? <==> Importable(batch, handle.defaultTaskTimeout)
    ensures r.Ok? ==> exists now :: Importing(handle.Value(), batch, |batch|, now)
  {
    hide Importing, Swarm.ImportTask, TaskSpec.Validate;
    var now := start;
    for i := 0 to |batch|
      invariant Importing(handle.Value(), batch, i, now)
      invariant forall j | 0 <= j < i :: Imported(batch[j], handle.defaultTaskTimeout).spec.Validate()
    {
      var later :| now <= later;
      ImportStep(handle.Value(), batch, i, now, later);
      r := handle.ImportTaskSnapshot(batch[i], None, later);
      if r.Err? {
        assert batch[i] in batch;
        return r;
      }
      now := later;
    }
    return Ok(());
  }

  // ---- Working the queue off ----

  method FindRunner(runners: seq<TaskRunner>, a: AgentId) returns (r: Option<TaskRunner>)
    ensures r.Some? ==> r.value in runners && r.value.agentId == a
    ensures r.None? ==> forall x | x in runners :: x.agentId != a
  {
    for i := 0 to |runners|
      invariant forall j | 0 <= j < i :: runners[j].agentId != a
    {
      if runners[i].agentId == a {
        return Some(runners[i]);
      }
    }
    return None;
  }

  lemma ZeroLimitSchedulesNothing(s: Swarm, pick: seq<AgentId>, now: Timestamp)
    requires s.maxConcurrent == 0 && forall a | a in pick :: a in s.agents
    ensures s.TryScheduleNext(None, pick, now) == (s, Ok(None))
  {
  }

  // One round. `env` supplies what the built-in worker of each task answers; this command
  // configures neither an execution policy nor artifact persistence.
  method ProcessOne(handle: OrchestratorHandle, runners: seq<TaskRunner>, store: TaskStore, env: TaskId -> Inputs,
                    caps: CapabilitySet, ghost order: seq<Task>, now: Timestamp)
      returns (report: Option<ProcessedTaskReport>, ok: bool)
    requires Drainable(handle.Value(), order, caps) && Staffed(handle, runners, caps)
    modifies handle`tasks, handle.taskQueue, handle.registry, store, set r | r in runners :: r.circuitBreaker
    ensures Staffed(handle, runners, caps)
    ensures report.None? <==> order == [] || handle.maxConcurrentTasks == 0
    ensures report.None? ==> store.tasks == old(store.tasks)
    ensures report.Some? ==>
              && Drainable(handle.Value(), order[1..], caps)
              && var id := order[0].id;
                 && report.value.id == id && report.value.status.IsTerminal()
                 && (ok <==> report.value.status.Completed?)
                 && id in store.tasks && store.tasks == old(store.tasks)[id := store.tasks[id]]
                 && store.tasks[id].id == id && store.tasks[id].status == report.value.status
                 && exists r | r in runners ::
                      && r.agentId == report.value.worker
                      && store.tasks[id] == EndOfRound(order[0], old(r.circuitBreaker.Value()), r.agentId, r.limit,
                                                       env(id).(policy := None, persistence := None), now)
  {
    hide Inv, Workers, Contents, Swarm.Assign, Swarm.TryScheduleNext, Running.RunTask;
    ghost var s := handle.Value();
    var scheduled;
    ghost var pick;
    scheduled, pick := handle.TryScheduleNext(None, now);
    if handle.maxConcurrentTasks == 0 {
      ZeroLimitSchedulesNothing(s, pick, now);
    } else {
      RoundSchedulesHead(s, order, caps, pick, now);
    }
    match scheduled {
      case Err(_) =>
        assert false;
      case Ok(None) =>
        report, ok := None, false;
      case Ok(Some(id)) =>
        ghost var a :| a in s.agents && handle.Value() == s.Assign(id, a, now).0;
        AfterAssign(s, order, caps, a, now);
        var task := handle.tasks[id];
        var holder := task.status.assignedTo;
        var found := FindRunner(runners, holder);
        var runner := found.value;
        var i := env(id).(policy := None, persistence := None);
        RoundSettles(s, order, caps, a, runner.circuitBreaker.Value(), runner.limit, i, now);
        var r := runner.RunTask(task, i);
        var updated := handle.tasks[id];
        store.Record(updated);
        report, ok := Some(ProcessedTaskReport(id, updated.status, holder)), r.Ok?;
    }
  }

  function CompletedCount(reports: seq<ProcessedTaskReport>): nat {
    if reports == [] then 0
    else CompletedCount(reports[..|reports| - 1]) + if reports[|reports| - 1].status.Completed? then 1 else 0
  }

  // As many as there are reports of completed tasks.
  lemma {:induction false} CompletedCountIs(reports: seq<ProcessedTaskReport>)
    ensures CompletedCount(reports) == |set i | 0 <= i < |reports| && reports[i].status.Completed?|
  {
    var done := set i | 0 <= i < |reports| && reports[i].status.Completed?;
    if reports != [] {
      var last := |reports| - 1;
      var front := reports[..last];
      CompletedCountIs(front);
      var before := set i | 0 <= i < |front| && front[i].status.Completed?;
      assert done == if reports[last].status.Completed? then before + {last} else before;
    }
  }

  ghost function Ids(tasks: seq<Task>): set<TaskId> {
    set t | t in tasks :: t.id
  }

  // The i-th report is about the i-th task and says what the store has.
  ghost predicate ReportsMatch(reports: seq<ProcessedTaskReport>, order: seq<Task>, after: TaskMap)
    requires |reports| <= |order|
  {
    forall i | 0 <= i < |reports| ::
      && reports[i].id == order[i].id && reports[i].status.IsTerminal()
      && order[i].id in after && after[order[i].id].id == order[i].id
      && after[order[i].id].status == reports[i].status
  }

  // The reports follow `order`, and the store has the outcome of each of its tasks and is
  // otherwise as before.
  ghost predicate Recorded(reports: seq<ProcessedTaskReport>, order: seq<Task>, before: TaskMap, after: TaskMap)
  {
    && |reports| <= |order| && ReportsMatch(reports, order, after)
    && after.Keys == before.Keys + Ids(order[..|reports|])
    && (forall id | id in before && id !in Ids(order[..|reports|]) :: after[id] == before[id])
  }

  lemma RecordedStep(reports: seq<ProcessedTaskReport>, r: ProcessedTaskReport, order: seq<Task>,
                     before: TaskMap, mid: TaskMap, t: Task)
    requires |reports| < |order| && DistinctIds(order) && Recorded(reports, order, before, mid)
    requires r.id == order[|reports|].id == t.id && r.status == t.status && t.status.IsTerminal()
    ensures Recorded(reports + [r], order, before, mid[t.id := t])
  {
    OneMoreId(order, |reports|);
    OneMoreMatch(reports, r, order, mid, t);
    hide Ids, ReportsMatch, DistinctIds;
  }

  lemma OneMoreId(order: seq<Task>, k: nat)
    requires k < |order|
    ensures Ids(order[..k + 1]) == Ids(order[..k]) + {order[k].id}
  {
    assert order[..k + 1] == order[..k] + [order[k]];
  }

  lemma OneMoreMatch(reports: seq<ProcessedTaskReport>, r: ProcessedTaskReport, order: seq<Task>, mid: TaskMap, t: Task)
    requires |reports| < |order| && DistinctIds(order) && ReportsMatch(reports, order, mid)
    requires r.id == order[|reports|].id == t.id && r.status == t.status && t.status.IsTerminal()
    ensures ReportsMatch(reports + [r], order, mid[t.id := t])
  {
  }

  method DrainAll(handle: OrchestratorHandle, runners: seq<TaskRunner>, store: TaskStore, env: TaskId -> Inputs,
                  caps: CapabilitySet, ghost order: seq<Task>, now: Timestamp)
      returns (reports: seq<ProcessedTaskReport>, completed: nat, failed: nat)
    requires Drainable(handle.Value(), order, caps) && Staffed(handle, runners, caps) && DistinctIds(order)
    modifies handle`tasks, handle.taskQueue, handle.registry, store, set r | r in runners :: r.circuitBreaker
    ensures |reports| == if handle.maxConcurrentTasks == 0 then 0 else |order|
    ensures completed + failed == |reports| && completed == CompletedCount(reports)
    ensures Recorded(reports, order, old(store.tasks), store.tasks)
  {
    hide Inv, Workers, Contents, Recorded;
    reports, completed, failed := [], 0, 0;
    ghost var before := store.tasks;
    NothingRecorded(order, before);
    while true
      invariant |reports| <= |order| && (handle.maxConcurrentTasks == 0 ==> reports == [])
      invariant Drainable(handle.Value(), order[|reports|..], caps) && Staffed(handle, runners, caps)
      invariant completed + failed == |reports| && completed == CompletedCount(reports)
      invariant Recorded(reports, order, before, store.tasks)
      decreases |order| - |reports|
    {
      ghost var mid := store.tasks;
      var report, ok := ProcessOne(handle, runners, store, env, caps, order[|reports|..], now);
      if report.None? {
        break;
      }
      RecordedStep(reports, report.value, order, before, mid, store.tasks[report.value.id]);
      assert order[|reports|..][1..] == order[|reports| + 1..];
      if ok {
        completed := completed + 1;
      } else {
        failed := failed + 1;
      }
      assert (reports + [report.value])[..|reports|] == reports;
      reports := reports + [report.value];
    }
  }

  lemma NothingRecorded(order: seq<Task>, before: TaskMap)
    ensures Recorded([], order, before, before)
  {
  }

  // ---- The command ----

  lemma ImportedAllIds(batch: seq<Task>, default: Option<Duration>)
    requires DistinctIds(batch)
    ensures DistinctIds(ImportedAll(batch, default))
    ensures forall t | t in ImportedAll(batch, default) :: Imported(t, default) == t && exists b :: b in batch && t == Imported(b, default)
    ensures forall b | b in batch :: Imported(b, default) in ImportedAll(batch, default)
  {
    forall b | b in batch ensures Imported(b, default) in ImportedAll(batch, default) {
      var i :| 0 <= i < |batch| && batch[i] == b;
      assert ImportedAll(batch, default)[i] == Imported(b, default);
    }
  }

  // Working a batch off in order touches exactly its tasks.
  lemma WorkOrderFacts(batch: seq<Task>, default: Option<Duration>)
    requires DistinctIds(batch)
    ensures var order := WorkOrder(batch, default);
            && DistinctIds(order) && |order| == |batch|
            && (forall t | t in order :: exists b :: b in batch && t == Imported(b, default))
            && (set t | t in order :: t.id) == (set b | b in batch :: b.id)
  {
    var order := WorkOrder(batch, default);
    ImportedAllIds(batch, default);
    PushAllIsPermutation([], ImportedAll(batch, default));
    DistinctByMultiset(ImportedAll(batch, default), order);
    forall b | b in batch ensures b.id in set t | t in order :: t.id {
      assert Imported(b, default) in order;
    }
  }

  function IdsOf(ts: seq<Task>): seq<TaskId> {
    if ts == [] then [] else [ts[0].id] + IdsOf(ts[1..])
  }

  lemma {:induction false} ImportedKeepsIds(batch: seq<Task>, default: Option<Duration>, p: TaskPriority)
    ensures IdsOf(OfPriority(ImportedAll(batch, default), p)) == IdsOf(OfPriority(batch, p))
  {
    hide OfPriority;
    if batch == [] {
      NoneOfPriority(batch, p);
      NoneOfPriority(ImportedAll(batch, default), p);
    } else {
      var (b, rest) := (batch[0], batch[1..]);
      ImportedKeepsIds(rest, default, p);
      assert batch == [b] + rest && ImportedAll(batch, default) == [Imported(b, default)] + ImportedAll(rest, default);
      OfPriorityCons(b, rest, p);
      OfPriorityCons(Imported(b, default), ImportedAll(rest, default), p);
      var (head, head') := if b.spec.priority == p then ([b], [Imported(b, default)]) else ([], []);
      IdsAppend(head, OfPriority(rest, p));
      IdsAppend(head', OfPriority(ImportedAll(rest, default), p));
      assert IdsOf(head) == IdsOf(head');
    }
  }

  lemma {:induction false} IdsAppend(xs: seq<Task>, ys: seq<Task>)
    ensures IdsOf(xs + ys) == IdsOf(xs) + IdsOf(ys)
  {
    if xs == [] {
      assert xs + ys == ys;
    } else {
      IdsAppend(xs[1..], ys);
      assert (xs + ys)[1..] == xs[1..] + ys;
    }
  }

  lemma IdsByUrgency(ts: seq<Task>)
    ensures IdsOf(ByUrgency(ts))
         == IdsOf(OfPriority(ts, Critical)) + IdsOf(OfPriority(ts, High)) + IdsOf(OfPriority(ts, Normal)) + IdsOf(OfPriority(ts, Low))
  {
    hide OfPriority, IdsOf;
    IdsAppend(OfPriority(ts, Critical), OfPriority(ts, High));
    IdsAppend(OfPriority(ts, Critical) + OfPriority(ts, High), OfPriority(ts, Normal));
    IdsAppend(OfPriority(ts, Critical) + OfPriority(ts, High) + OfPriority(ts, Normal), OfPriority(ts, Low));
  }

  // A batch is worked off critical tasks first, then the high, the normal and the low ones, and each
  // priority in the order of the batch.
  lemma WorkOrderIsByUrgency(batch: seq<Task>, default: Option<Duration>)
    ensures IdsOf(WorkOrder(batch, default)) == IdsOf(ByUrgency(batch))
  {
    hide OfPriority, IdsOf, ImportedAll, PushAll, ByUrgency;
    PushAllIsByUrgency(ImportedAll(batch, default));
    IdsByUrgency(ImportedAll(batch, default));
    IdsByUrgency(batch);
    ImportedKeepsIds(batch, default, Critical);
    ImportedKeepsIds(batch, default, High);
    ImportedKeepsIds(batch, default, Normal);
    ImportedKeepsIds(batch, default, Low);
  }

  predicate Named(tasks: TaskMap) {
    forall id | id in tasks :: tasks[id].id == id
  }

  // Every task of the batch has an outcome, everything else is as it was.
  ghost predicate Finished(before: TaskMap, after: TaskMap, batch: seq<Task>) {
    && after.Keys == before.Keys
    && (forall t | t in batch :: t.id in after && after[t.id].status.IsTerminal())
    && (forall id | id in before && before[id] !in batch :: after[id] == before[id])
    && |PendingIds(after)| == |PendingIds(before)| - |batch|
  }

  lemma RecordedAll(before: TaskMap, after: TaskMap, order: seq<Task>, ids: set<TaskId>, reports: seq<ProcessedTaskReport>)
    requires Recorded(reports, order, before, after) && |reports| == |order| && ids == set t | t in order :: t.id
    ensures after.Keys == before.Keys + ids
    ensures forall id | id in ids :: after[id].id == id && after[id].status.IsTerminal()
    ensures forall id | id in before && id !in ids :: after[id] == before[id]
  {
    assert order[..|reports|] == order;
    forall id | id in ids ensures after[id].id == id && after[id].status.IsTerminal() {
      var t :| t in order && t.id == id;
      var i :| 0 <= i < |order| && order[i] == t;
      assert reports[i].id == order[i].id;
    }
  }

  lemma RecordedMeansFinished(before: TaskMap, after: TaskMap, batch: seq<Task>, limit: Option<nat>,
                              reports: seq<ProcessedTaskReport>, default: Option<Duration>)
    requires Named(before) && Batch(batch, before, limit)
    requires Recorded(reports, WorkOrder(batch, default), before, after) && |reports| == |batch|
    ensures Named(after) && Finished(before, after, batch)
  {
    hide Recorded, WorkOrder, Batch, Finished;
    WorkOrderFactsOf(batch, before, limit, default);
    var ids := set b | b in batch :: b.id;
    RecordedAll(before, after, WorkOrder(batch, default), ids, reports);
    UpdatedMeansFinished(before, after, batch, limit, ids);
  }

  lemma WorkOrderFactsOf(batch: seq<Task>, before: TaskMap, limit: Option<nat>, default: Option<Duration>)
    requires Batch(batch, before, limit)
    ensures |WorkOrder(batch, default)| == |batch|
    ensures (set t | t in WorkOrder(batch, default) :: t.id) == (set b | b in batch :: b.id)
  {
    WorkOrderFacts(batch, default);
  }

  lemma UpdatedMeansFinished(before: TaskMap, after: TaskMap, batch: seq<Task>, limit: Option<nat>, ids: set<TaskId>)
    requires Named(before) && Batch(batch, before, limit) && ids == set b | b in batch :: b.id
    requires after.Keys == before.Keys + ids
    requires forall id | id in ids :: after[id].id == id && after[id].status.IsTerminal()
    requires forall id | id in before && id !in ids :: after[id] == before[id]
    ensures Named(after) && Finished(before, after, batch)
  {
    forall b | b in batch ensures b.id in ids && b.id in before {}
    assert after.Keys == before.Keys;
    DistinctSize(batch);
    assert PendingIds(after) == PendingIds(before) - ids && ids <= PendingIds(before);
  }

  lemma NothingRecordedMeansSame(before: TaskMap, after: TaskMap, order: seq<Task>)
    requires Recorded([], order, before, after)
    ensures after == before
  {
    assert order[..0] == [];
  }

  method CountPending(store: TaskStore) returns (n: nat, listing: seq<Task>)
    requires Named(store.tasks)
    ensures Lists(listing, store.tasks) && n == |PendingIds(store.tasks)|
  {
    listing := store.List();
    FilterListsPending(listing, store.tasks);
    ListsPendingSize(Filter(IsPending, listing), store.tasks);
    n := |Filter(IsPending, listing)|;
  }

  // What the summary says, and what has become of the store.
  ghost predicate WorkedOff(before: TaskMap, after: TaskMap, batch: seq<Task>, default: Option<Duration>, s: Summary) {
    && s.attempted == s.processed == |batch| == |s.tasks|
    && s.completed + s.failed == s.processed && s.completed == CompletedCount(s.tasks)
    && Recorded(s.tasks, WorkOrder(batch, default), before, after)
    && Finished(before, after, batch)
    && s.availablePending == |PendingIds(before)| && s.remainingPending == |PendingIds(after)|
  }

  // With a worker and room for one task, a batch whose imports are accepted is always worked
  // off completely, in priority order; a refused import leaves the store as it was.
  method ProcessPendingTasks(store: TaskStore, ids: seq<AgentId>, limit: Option<nat>, maxConcurrent: nat,
                             default: Option<Duration>, env: TaskId -> Inputs, now: Timestamp)
      returns (r: Result<Summary, SwarmError>, ghost batch: seq<Task>)
    requires Named(store.tasks) && forall i, j | 0 <= i < j < |ids| :: ids[i] != ids[j]
    modifies store
    ensures Batch(batch, old(store.tasks), limit)
    ensures r.Ok? <==> ids != [] && Importable(batch, default)
    ensures r.Err? ==> store.tasks == old(store.tasks)
    ensures r.Ok? && maxConcurrent >= 1 ==> WorkedOff(old(store.tasks), store.tasks, batch, default, r.value)
    ensures r.Ok? && maxConcurrent == 0 ==> store.tasks == old(store.tasks) && r.value.processed == 0
  {
    hide Batch, WorkedOff, Recorded, Finished, Inv, Workers, Contents;
    var available, all := CountPending(store);
    var pending := CollectPending(all, limit);
    batch := pending;
    CollectIsBatch(all, store.tasks, limit);
    if |ids| == 0 {
      return Err(Internal), batch;
    }
    if pending == [] {
      EmptyIsWorkedOff(store.tasks, default, available, |ids|);
      return Ok(Summary(available, 0, 0, 0, 0, available, |ids|, [])), batch;
    }
    r := ProcessBatch(store, ids, pending, available, limit, maxConcurrent, default, env, now);
  }

  lemma EmptyIsWorkedOff(tasks: TaskMap, default: Option<Duration>, available: nat, workers: nat)
    requires available == |PendingIds(tasks)|
    ensures WorkedOff(tasks, tasks, [], default, Summary(available, 0, 0, 0, 0, available, workers, []))
  {
  }

  method ProcessBatch(store: TaskStore, ids: seq<AgentId>, pending: seq<Task>, available: nat, ghost limit: Option<nat>,
                      maxConcurrent: nat, default: Option<Duration>, env: TaskId -> Inputs, now: Timestamp)
      returns (r: Result<Summary, SwarmError>)
    requires Named(store.tasks) && ids != [] && forall i, j | 0 <= i < j < |ids| :: ids[i] != ids[j]
    requires Batch(pending, store.tasks, limit) && available == |PendingIds(store.tasks)|
    modifies store
    ensures r.Ok? <==> Importable(pending, default)
    ensures r.Err? ==> store.tasks == old(store.tasks)
    ensures r.Ok? && maxConcurrent >= 1 ==> WorkedOff(old(store.tasks), store.tasks, pending, default, r.value)
    ensures r.Ok? && maxConcurrent == 0 ==> store.tasks == old(store.tasks) && r.value.processed == 0
  {
    hide Recorded, Finished, Inv, Workers, Contents, Importing, TaskSpec.Validate, Staffed, Batch;
    ghost var before := store.tasks;
    ghost var order := WorkOrder(pending, default);
    BatchFacts(pending, before, limit);
    var caps := CombinedCapabilities(pending);
    var handle := new OrchestratorHandle(maxConcurrent, default);
    InitialInv(maxConcurrent, default);
    var runners := RegisterWorkers(handle, ids, caps, now);
    NothingImported(handle.Value(), pending, now);
    var imported := ImportAll(handle, pending, now);
    if imported.Err? {
      return Err(imported.error);
    }
    WorkersStayed(handle, runners, caps);
    ReadyToDrain(handle.Value(), pending, caps);
    WorkOrderFacts(pending, default);
    var reports, completed, failed := DrainAll(handle, runners, store, env, caps, order, now);
    if maxConcurrent == 0 {
      NothingRecordedMeansSame(before, store.tasks, order);
    } else {
      RecordedMeansFinished(before, store.tasks, pending, limit, reports, default);
    }
    var remaining, _ := CountPending(store);
    return Ok(Summary(available, |pending|, |reports|, completed, failed, remaining, |ids|, reports));
  }

  lemma BatchFacts(batch: seq<Task>, tasks: TaskMap, limit: Option<nat>)
    requires Batch(batch, tasks, limit)
    ensures DistinctIds(batch) && forall t | t in batch :: t.status.Pending?
  {
  }

  lemma NothingImported(s: Swarm, batch: seq<Task>, now: Timestamp)
    requires Inv(s) && s.tasks == map[] && s.queue == EMPTY_QUEUE
    ensures Importing(s, batch, 0, now)
  {
    hide Inv;
    assert batch[..0] == [];
  }

  lemma ReadyToDrain(s: Swarm, batch: seq<Task>, caps: CapabilitySet)
    requires exists now :: Importing(s, batch, |batch|, now)
    requires Workers(s.agents, caps) && DistinctIds(batch) && caps == CombinedCapabilities(batch)
    ensures Drainable(s, WorkOrder(batch, s.defaultTimeout), caps)
  {
    hide Inv, Workers, Contents;
    assert batch[..|batch|] == batch;
    WorkOrderFacts(batch, s.defaultTimeout);
  }

  lemma WorkersStayed(handle: OrchestratorHandle, runners: seq<TaskRunner>, caps: CapabilitySet)
    requires Staffed(handle, runners, caps)
    ensures Workers(handle.registry.agents, caps)
  {
  }
}
