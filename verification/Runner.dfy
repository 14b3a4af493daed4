/** One task execution (swarm-runtime/runner.rs): breaker, admission, start, outcome, report. */
module Running {
  import opened Wrappers
  import opened Core
  import opened Tasks
  import opened Registry
  import opened Orchestration
  import opened OrchestrationInvariant
  import opened OrchestrationRuns
  import opened CircuitBreaking

  // What the agent's `execute` answers, and after how long.
  datatype Execution = Execution(result: Result<string, SwarmError>, duration: Duration)

  // Everything the run learns from outside: the execution policy's error, the enrichment's
  // error, the agent, the error of persisting artifacts, and the clock.
  datatype Inputs = Inputs(
    policy: Option<SwarmError>,
    enrichment: Option<SwarmError>,
    execution: Execution,
    persistence: Option<SwarmError>,
    acquiredAt: Timestamp,
    startedAt: Timestamp,
    endedAt: Timestamp)

  function EffectiveTimeout(task: Option<Duration>, agent: Option<Duration>): Option<Duration> {
    match (task, agent)
    case (Some(t), Some(a)) => Some(if t <= a then t else a)
    case (Some(t), None) => Some(t)
    case (None, _) => agent
  }

  // A run is cut short exactly when it outlasts the tighter of the limits that are present.
  lemma CutShortIff(task: Option<Duration>, agent: Option<Duration>, duration: Duration)
    ensures TimesOut(EffectiveTimeout(task, agent), duration)
       <==> (task.Some? && duration > task.value) || (agent.Some? && duration > agent.value)
  {
  }

  predicate TimesOut(timeout: Option<Duration>, duration: Duration) {
    timeout.Some? && duration > timeout.value
  }

  function ReportFailure(s: Swarm, id: TaskId, a: AgentId, e: SwarmError, now: Timestamp)
    : (Swarm, Result<string, SwarmError>)
  {
    var (s', r) := s.RecordTaskFailed(id, a, e, now);
    (s', Err(if r.Err? then r.error else e))
  }

  // `run_task` on agent `a` with execution limit `limit`.
  function RunTask(s: Swarm, b: Breaker, task: Task, a: AgentId, limit: Option<Duration>, i: Inputs)
    : (Swarm, Breaker, Result<string, SwarmError>)
  {
    var id := task.id;
    var (b1, admitted) := b.Acquire(i.acquiredAt);
    if !admitted then
      var (s1, r) := ReportFailure(s, id, a, Internal, i.acquiredAt);
      (s1, b1, r)
    else if i.policy.Some? then
      var (s1, r) := ReportFailure(s, id, a, i.policy.value, i.acquiredAt);
      (s1, b1.RecordFailure(i.acquiredAt), r)
    else if i.enrichment.Some? then
      var (s1, r) := ReportFailure(s, id, a, i.enrichment.value, i.acquiredAt);
      (s1, b1.RecordFailure(i.acquiredAt), r)
    else
      var (s1, started) := s.RecordTaskStarted(id, a, i.startedAt);
      if started.Err? then
        (s1.RecordTaskFailed(id, a, started.error, i.startedAt).0, b1, Err(started.error))
      else if TimesOut(EffectiveTimeout(task.spec.timeout, limit), i.execution.duration) then
        var (s2, r) := s1.RecordTaskTimedOut(id, a, i.endedAt);
        (s2, b1.RecordFailure(i.endedAt), Err(if r.Err? then r.error else TaskTimeout(id)))
      else
        FinishExecution(s1, b1, id, a, i)
  }

  function FinishExecution(s: Swarm, b: Breaker, id: TaskId, a: AgentId, i: Inputs)
    : (Swarm, Breaker, Result<string, SwarmError>)
  {
    match i.execution.result
    case Ok(output) =>
      var (s1, r) := s.RecordTaskCompleted(id, a, output, i.endedAt);
      (s1, b.RecordSuccess(),
       if r.Err? then Err(r.error) else if i.persistence.Some? then Err(i.persistence.value) else Ok(output))
    case Err(e) =>
      var (s1, r) := s.RecordTaskFailed(id, a, e, i.endedAt);
      (s1, b.RecordFailure(i.endedAt),
       Err(if r.Err? then r.error else if i.persistence.Some? then i.persistence.value else e))
  }

  // ---- The runner as a client of the control plane ----

  // The calls a run makes on a task that is scheduled to its agent.
  function Reports(b: Breaker, task: Task, a: AgentId, limit: Option<Duration>, i: Inputs): seq<TimedCall> {
    var id := task.id;
    if !b.Acquire(i.acquiredAt).1 then [TimedCall(RecordTaskFailed(id, a, Internal), i.acquiredAt)]
    else if i.policy.Some? then [TimedCall(RecordTaskFailed(id, a, i.policy.value), i.acquiredAt)]
    else if i.enrichment.Some? then [TimedCall(RecordTaskFailed(id, a, i.enrichment.value), i.acquiredAt)]
    else
      [TimedCall(RecordTaskStarted(id, a), i.startedAt),
       TimedCall(
         if TimesOut(EffectiveTimeout(task.spec.timeout, limit), i.execution.duration) then RecordTaskTimedOut(id, a)
         else if i.execution.result.Ok? then RecordTaskCompleted(id, a, i.execution.result.value)
         else RecordTaskFailed(id, a, i.execution.result.error),
         i.endedAt)]
  }

  // The task has outcome `t`, the agent is ready again, exactly one of its counters went up by
  // one (the completed one exactly for a completed task), and nothing else moved.
  ghost predicate Settled(s: Swarm, s': Swarm, id: TaskId, a: AgentId, t: Task, now: Timestamp) {
    && a in s.agents && id in s.tasks && t.status.IsTerminal()
    && s' == Finish(s, id, a, t, t.status.Completed?, now)
  }

  lemma SettledMeans(s: Swarm, s': Swarm, id: TaskId, a: AgentId, t: Task, now: Timestamp)
    requires Settled(s, s', id, a, t, now)
    ensures id in s'.tasks && s'.tasks[id] == t && a in s'.agents && s'.agents[a].status == Ready
    ensures s'.agents[a].tasksCompleted + s'.agents[a].tasksFailed
         == s.agents[a].tasksCompleted + s.agents[a].tasksFailed + 1
    ensures s'.agents[a].tasksCompleted == s.agents[a].tasksCompleted + if t.status.Completed? then 1 else 0
    ensures s'.tasks.Keys == s.tasks.Keys && forall x | x in s.tasks && x != id :: s'.tasks[x] == s.tasks[x]
    ensures s'.agents.Keys == s.agents.Keys && forall x | x in s.agents && x != a :: s'.agents[x] == s.agents[x]
    ensures s'.queue == s.queue && s'.nodes == s.nodes
  {
  }

  function Outcome(t: Task, c: Call, now: Timestamp): Task {
    match c
    case RecordTaskCompleted(_, _, output) => t.Complete(output, now)
    case RecordTaskFailed(_, _, reason) => t.Fail(reason, now)
    case RecordTaskTimedOut(_, _) => t.TimeOut(now)
    case _ => t
  }

  predicate IsOutcome(c: Call, id: TaskId, a: AgentId) {
    match c
    case RecordTaskCompleted(x, y, _) => x == id && y == a
    case RecordTaskFailed(x, y, _) => x == id && y == a
    case RecordTaskTimedOut(x, y) => x == id && y == a
    case _ => false
  }

  lemma OutcomeSettles(s: Swarm, id: TaskId, a: AgentId, c: Call, now: Timestamp)
    requires id in s.tasks && a in s.agents && IsOutcome(c, id, a) && Holds(s, id, a)
    ensures Settled(s, Next(s, c, now), id, a, Outcome(s.tasks[id], c, now), now)
  {
    match c {
      case RecordTaskCompleted(_, _, output) => CompletedFinishes(s, id, a, output, now);
      case RecordTaskFailed(_, _, reason) => FailedFinishes(s, id, a, reason, now);
      case RecordTaskTimedOut(_, _) => TimedOutFinishes(s, id, a, now);
    }
  }

  lemma StartReport(s: Swarm, id: TaskId, a: AgentId, now: Timestamp)
    requires Inv(s) && id in s.tasks && s.tasks[id].status == Scheduled(a)
    ensures var s' := s.RecordTaskStarted(id, a, now).0;
            && Inv(s') && Holds(s', id, a) && a in s.agents && s'.agents == s.agents
            && s' == s.(tasks := s.tasks[id := s.tasks[id].StartRunning(a, now).value])
            && s.RecordTaskStarted(id, a, now).1.Ok?
  {
    StartedKeepsInv(s, id, a, now);
    HolderIsBusy(s, id, a);
    hide Inv;
  }

  lemma RunOfOne(s: Swarm, c: TimedCall)
    requires Permitted(s, c.call)
    ensures Runs(s, [c]) && After(s, [c]) == Next(s, c.call, c.at)
  {
    hide Next, Permitted;
    assert [c][1..] == [];
  }

  lemma RunOfTwo(s: Swarm, c: TimedCall, d: TimedCall)
    requires Permitted(s, c.call) && Permitted(Next(s, c.call, c.at), d.call)
    ensures Runs(s, [c, d]) && After(s, [c, d]) == Next(Next(s, c.call, c.at), d.call, d.at)
  {
    RunOfOne(Next(s, c.call, c.at), d);
    hide Next, Permitted;
    assert [c, d][1..] == [d];
  }

  lemma ReportsSucceed(s: Swarm, id: TaskId, a: AgentId)
    requires id in s.tasks && a in s.agents
    ensures forall e, now :: s.RecordTaskFailed(id, a, e, now).1.Ok?
    ensures forall o, now :: s.RecordTaskCompleted(id, a, o, now).1.Ok?
    ensures forall now :: s.RecordTaskTimedOut(id, a, now).1.Ok?
  {
  }

  // The calls lead from `s` to `s'`: an outcome report, or a start and then an outcome report.
  ghost predicate LeadsTo(s: Swarm, calls: seq<TimedCall>, s': Swarm, id: TaskId, a: AgentId) {
    || (|calls| == 1 && Holds(s, id, a) && IsOutcome(calls[0].call, id, a) && s' == Next(s, calls[0].call, calls[0].at))
    || (&& |calls| == 2 && calls[0].call == RecordTaskStarted(id, a) && IsOutcome(calls[1].call, id, a)
        && var s1 := Next(s, calls[0].call, calls[0].at);
           Holds(s1, id, a) && s' == Next(s1, calls[1].call, calls[1].at))
  }

  lemma RunTaskMakesReports(s: Swarm, b: Breaker, task: Task, a: AgentId, limit: Option<Duration>, i: Inputs)
    requires task.id in s.tasks && s.tasks[task.id].status == Scheduled(a)
    ensures LeadsTo(s, Reports(b, task, a, limit, i), RunTask(s, b, task, a, limit, i).0, task.id, a)
  {
    hide Swarm.RecordTaskCompleted, Swarm.RecordTaskFailed, Swarm.RecordTaskTimedOut;
  }

  lemma LeadingCallsRun(s: Swarm, calls: seq<TimedCall>, s': Swarm, id: TaskId, a: AgentId)
    requires Holds(s, id, a) && LeadsTo(s, calls, s', id, a)
    ensures Runs(s, calls) && After(s, calls) == s'
  {
    hide Next, Runs, After, Permitted, Holds, IsOutcome;
    ReportsPermitted(s, calls[0].call, id, a);
    if |calls| == 1 {
      assert calls == [calls[0]];
      RunOfOne(s, calls[0]);
    } else {
      assert calls == [calls[0], calls[1]];
      ReportsPermitted(Next(s, calls[0].call, calls[0].at), calls[1].call, id, a);
      RunOfTwo(s, calls[0], calls[1]);
    }
  }

  lemma ReportsPermitted(s: Swarm, c: Call, id: TaskId, a: AgentId)
    requires c == RecordTaskStarted(id, a) || (IsOutcome(c, id, a) && Holds(s, id, a))
    ensures Permitted(s, c)
  {
  }

  // Every path of a run on a task scheduled to this agent makes only permitted calls.
  lemma RunnerFollowsProtocol(s: Swarm, b: Breaker, task: Task, a: AgentId, limit: Option<Duration>, i: Inputs)
    requires Inv(s) && task.id in s.tasks && s.tasks[task.id].status == Scheduled(a)
    ensures Runs(s, Reports(b, task, a, limit, i))
    ensures RunTask(s, b, task, a, limit, i).0 == After(s, Reports(b, task, a, limit, i))
    ensures Inv(RunTask(s, b, task, a, limit, i).0)
  {
    hide *;
    ScheduledIsRegistered(s, task.id, a);
    RunTaskMakesReports(s, b, task, a, limit, i);
    LeadingCallsRun(s, Reports(b, task, a, limit, i), RunTask(s, b, task, a, limit, i).0, task.id, a);
    RunKeepsInv(s, Reports(b, task, a, limit, i));
  }

  // The final task record of a run, computed from the inputs alone.
  function FinalTask(t: Task, b: Breaker, task: Task, a: AgentId, limit: Option<Duration>, i: Inputs): Task {
    if !b.Acquire(i.acquiredAt).1 then t.Fail(Internal, i.acquiredAt)
    else if i.policy.Some? then t.Fail(i.policy.value, i.acquiredAt)
    else if i.enrichment.Some? then t.Fail(i.enrichment.value, i.acquiredAt)
    else
      var running := t.(status := Running(a, i.startedAt), attemptCount := t.attemptCount + 1, updatedAt := i.startedAt);
      if TimesOut(EffectiveTimeout(task.spec.timeout, limit), i.execution.duration) then running.TimeOut(i.endedAt)
      else if i.execution.result.Ok? then running.Complete(i.execution.result.value, i.endedAt)
      else running.Fail(i.execution.result.error, i.endedAt)
  }

  function FinishedAt(b: Breaker, i: Inputs): Timestamp {
    if !b.Acquire(i.acquiredAt).1 || i.policy.Some? || i.enrichment.Some? then i.acquiredAt else i.endedAt
  }

  // The task record that a start (if any) and an outcome report leave behind.
  function RecordAfter(t: Task, calls: seq<TimedCall>): Task {
    if |calls| == 1 then Outcome(t, calls[0].call, calls[0].at)
    else if |calls| == 2 && calls[0].call.RecordTaskStarted? && t.StartRunning(calls[0].call.agent, calls[0].at).Ok? then
      Outcome(t.StartRunning(calls[0].call.agent, calls[0].at).value, calls[1].call, calls[1].at)
    else t
  }

  lemma FinalTaskIsOutcome(t: Task, b: Breaker, task: Task, a: AgentId, limit: Option<Duration>, i: Inputs)
    requires t.status == Scheduled(a)
    ensures var calls := Reports(b, task, a, limit, i);
            && 1 <= |calls| <= 2 && calls[|calls| - 1].at == FinishedAt(b, i)
            && RecordAfter(t, calls) == FinalTask(t, b, task, a, limit, i)
  {
  }

  lemma SettledFromStart(s: Swarm, s': Swarm, id: TaskId, a: AgentId, running: Task, t: Task, now: Timestamp)
    requires id in s.tasks && Settled(s.(tasks := s.tasks[id := running]), s', id, a, t, now)
    ensures Settled(s, s', id, a, t, now)
  {
    assert s.tasks[id := running][id := t] == s.tasks[id := t];
  }

  lemma StartedBy(s: Swarm, id: TaskId, a: AgentId, now: Timestamp)
    requires id in s.tasks && s.tasks[id].status == Scheduled(a)
    ensures var c := RecordTaskStarted(id, a);
            && Permitted(s, c)
            && Next(s, c, now) == s.(tasks := s.tasks[id := s.tasks[id].StartRunning(a, now).value])
            && Holds(Next(s, c, now), id, a)
  {
  }

  lemma LeadingCallsSettle(s: Swarm, calls: seq<TimedCall>, s': Swarm, id: TaskId, a: AgentId)
    requires id in s.tasks && s.tasks[id].status == Scheduled(a) && a in s.agents
    requires LeadsTo(s, calls, s', id, a)
    ensures Settled(s, s', id, a, RecordAfter(s.tasks[id], calls), calls[|calls| - 1].at)
  {
    if |calls| == 1 {
      OutcomeSettles(s, id, a, calls[0].call, calls[0].at);
    } else {
      StartedBy(s, id, a, calls[0].at);
      hide Next, Settled, Outcome, IsOutcome;
      var s1 := Next(s, calls[0].call, calls[0].at);
      OutcomeSettles(s1, id, a, calls[1].call, calls[1].at);
      SettledFromStart(s, s', id, a, s1.tasks[id], RecordAfter(s.tasks[id], calls), calls[1].at);
    }
  }

  lemma ScheduledIsRegistered(s: Swarm, id: TaskId, a: AgentId)
    requires Inv(s) && id in s.tasks && s.tasks[id].status == Scheduled(a)
    ensures Holds(s, id, a) && a in s.agents
  {
    hide QueueAgrees, Accounted, Supervised;
  }

  // Whatever happens, the run settles the task and readies the agent.
  lemma RunTaskSettles(s: Swarm, b: Breaker, task: Task, a: AgentId, limit: Option<Duration>, i: Inputs)
    requires Inv(s) && task.id in s.tasks && s.tasks[task.id].status == Scheduled(a)
    ensures Settled(s, RunTask(s, b, task, a, limit, i).0, task.id, a,
                    FinalTask(s.tasks[task.id], b, task, a, limit, i), FinishedAt(b, i))
  {
    hide *;
    ScheduledIsRegistered(s, task.id, a);
    RunTaskMakesReports(s, b, task, a, limit, i);
    FinalTaskIsOutcome(s.tasks[task.id], b, task, a, limit, i);
    LeadingCallsSettle(s, Reports(b, task, a, limit, i), RunTask(s, b, task, a, limit, i).0, task.id, a);
  }

  // ---- The same run among other clients ----

  // The calls that report on the task, in their order.
  function About(calls: seq<TimedCall>, id: TaskId): seq<TimedCall> {
    if calls == [] then []
    else (if ReportsOn(calls[0].call, id) then [calls[0]] else []) + About(calls[1..], id)
  }

  // Whoever does not report on the task respects the protocol, as far as everybody has so far.
  ghost predicate OthersBehave(s: Swarm, calls: seq<TimedCall>, id: TaskId)
    decreases |calls|
  {
    calls == []
    || (&& (ReportsOn(calls[0].call, id) || Permitted(s, calls[0].call))
        && (Permitted(s, calls[0].call) ==> OthersBehave(Next(s, calls[0].call, calls[0].at), calls[1..], id)))
  }

  // What is left of a run on the task: nothing, its outcome report, or a start and an outcome report.
  ghost predicate StillToCome(t: Task, mine: seq<TimedCall>, id: TaskId, a: AgentId) {
    || (mine == [] && t.status.IsTerminal())
    || (|mine| == 1 && t.status.Holder() == Some(a) && IsOutcome(mine[0].call, id, a))
    || (|mine| == 2 && t.status == Scheduled(a) && mine[0].call == RecordTaskStarted(id, a) && IsOutcome(mine[1].call, id, a))
  }

  lemma OthersSpareTask(s: Swarm, c: TimedCall, id: TaskId)
    requires Inv(s) && Permitted(s, c.call) && id in s.tasks && !ReportsOn(c.call, id)
    requires s.tasks[id].status.IsTerminal() || s.tasks[id].status.Holder().Some?
    ensures id in Next(s, c.call, c.at).tasks && Next(s, c.call, c.at).tasks[id] == s.tasks[id]
  {
    hide Inv, Next, Permitted;
    if s.tasks[id].status.IsTerminal() {
      StepAdvances(s, c.call, c.at);
    } else {
      HeldTaskUntouched(s, c.call, c.at, id);
    }
  }

  // The next report of the run is permitted, and does to the task what it says.
  lemma ReportAdvancesRun(s: Swarm, mine: seq<TimedCall>, id: TaskId, a: AgentId)
    requires Inv(s) && id in s.tasks && mine != [] && StillToCome(s.tasks[id], mine, id, a)
    ensures Permitted(s, mine[0].call)
    ensures var s' := Next(s, mine[0].call, mine[0].at);
            id in s'.tasks && StillToCome(s'.tasks[id], mine[1..], id, a)
            && RecordAfter(s'.tasks[id], mine[1..]) == RecordAfter(s.tasks[id], mine)
  {
    if |mine| == 1 {
      HeldByRegistered(s, id, a);
      hide Inv;
      ReportsPermitted(s, mine[0].call, id, a);
      OutcomeSettles(s, id, a, mine[0].call, mine[0].at);
      hide Next;
    } else {
      hide Inv;
      StartedBy(s, id, a, mine[0].at);
      hide Next;
    }
  }

  lemma HeldByRegistered(s: Swarm, id: TaskId, a: AgentId)
    requires Inv(s) && Holds(s, id, a)
    ensures a in s.agents
  {
    hide QueueAgrees, Accounted, Supervised;
  }

  lemma {:induction false} ReportsLandAmongOthers(s: Swarm, calls: seq<TimedCall>, id: TaskId, a: AgentId)
    requires Inv(s) && id in s.tasks && StillToCome(s.tasks[id], About(calls, id), id, a) && OthersBehave(s, calls, id)
    ensures Runs(s, calls) && Inv(After(s, calls)) && id in After(s, calls).tasks
    ensures After(s, calls).tasks[id] == RecordAfter(s.tasks[id], About(calls, id))
    decreases |calls|
  {
    hide Inv, Next, Permitted, RecordAfter, StillToCome;
    var mine := About(calls, id);
    if calls == [] {
      NothingLeft(s.tasks[id], id, a);
    } else {
      var c := calls[0];
      if ReportsOn(c.call, id) {
        assert mine[0] == c && mine[1..] == About(calls[1..], id);
        ReportAdvancesRun(s, mine, id, a);
      } else {
        assert mine == About(calls[1..], id);
        ComesFromHeldOrEnded(s.tasks[id], mine, id, a);
        OthersSpareTask(s, c, id);
      }
      StepKeepsInv(s, c.call, c.at);
      ReportsLandAmongOthers(Next(s, c.call, c.at), calls[1..], id, a);
    }
  }

  lemma NothingLeft(t: Task, id: TaskId, a: AgentId)
    ensures RecordAfter(t, []) == t
  {
  }

  lemma ComesFromHeldOrEnded(t: Task, mine: seq<TimedCall>, id: TaskId, a: AgentId)
    requires StillToCome(t, mine, id, a)
    ensures t.status.IsTerminal() || t.status.Holder().Some?
  {
  }

  // However many calls other clients make before, between and after the reports of a run, as long as
  // they respect the protocol: the reports are permitted where they come, and the task ends as if
  // the run had been alone.
  lemma RunSettlesAmongOthers(s: Swarm, calls: seq<TimedCall>, b: Breaker, task: Task, a: AgentId, limit: Option<Duration>, i: Inputs)
    requires Inv(s) && task.id in s.tasks && s.tasks[task.id].status == Scheduled(a)
    requires About(calls, task.id) == Reports(b, task, a, limit, i) && OthersBehave(s, calls, task.id)
    ensures Runs(s, calls) && Inv(After(s, calls)) && task.id in After(s, calls).tasks
    ensures After(s, calls).tasks[task.id] == FinalTask(s.tasks[task.id], b, task, a, limit, i)
  {
    hide Inv, Runs, After, OthersBehave, FinalTask, RecordAfter, About;
    FinalTaskIsOutcome(s.tasks[task.id], b, task, a, limit, i);
    ReportsLandAmongOthers(s, calls, task.id, a);
  }

  // The result tells the truth: Ok exactly when the task completed and its artifacts were persisted.
  lemma RunTaskResult(s: Swarm, b: Breaker, task: Task, a: AgentId, limit: Option<Duration>, i: Inputs)
    requires Inv(s) && task.id in s.tasks && s.tasks[task.id].status == Scheduled(a)
    ensures var (s', b', r) := RunTask(s, b, task, a, limit, i);
            && task.id in s'.tasks
            && (r.Ok? ==> s'.tasks[task.id].status == Completed(i.endedAt, r.value))
            && (r.Ok? <==> s'.tasks[task.id].status.Completed? && i.persistence.None?)
            && (s'.tasks[task.id].status.TimedOut? <==> TimedOutPath(b, task, limit, i))
            && (s'.tasks[task.id].status.TimedOut? ==> r == Err(TaskTimeout(task.id)))
  {
    hide Inv, Settled, Finish;
    RunTaskSettles(s, b, task, a, limit, i);
    SettledMeans(s, RunTask(s, b, task, a, limit, i).0, task.id, a,
                 FinalTask(s.tasks[task.id], b, task, a, limit, i), FinishedAt(b, i));
    StartReport(s, task.id, a, i.startedAt);
    ReportsSucceed(s, task.id, a);
    ReportsSucceed(s.RecordTaskStarted(task.id, a, i.startedAt).0, task.id, a);
    hide Swarm.RecordTaskCompleted, Swarm.RecordTaskFailed, Swarm.RecordTaskTimedOut;
  }

  predicate TimedOutPath(b: Breaker, task: Task, limit: Option<Duration>, i: Inputs) {
    && b.Acquire(i.acquiredAt).1 && i.policy.None? && i.enrichment.None?
    && TimesOut(EffectiveTimeout(task.spec.timeout, limit), i.execution.duration)
  }

  // The start report is refused.
  predicate NotOurs(s: Swarm, task: Task, a: AgentId) {
    task.id !in s.tasks || s.tasks[task.id].status != Scheduled(a)
  }

  // A run leaves the breaker half-open exactly if it found it so, or if its probe was admitted for a
  // task that is not scheduled to this agent: that path reports no outcome to the breaker.
  lemma BreakerLeftHalfOpenIff(s: Swarm, b: Breaker, task: Task, a: AgentId, limit: Option<Duration>, i: Inputs)
    ensures RunTask(s, b, task, a, limit, i).1.state.HalfOpen?
       <==> || b.state.HalfOpen?
            || (&& b.state.Open? && b.Acquire(i.acquiredAt).1
                && i.policy.None? && i.enrichment.None?
                && NotOurs(s, task, a))
  {
  }

  // The breaker after a series of runs, each on whatever state the control plane is in by then.
  function AfterTheRuns(b: Breaker, runs: seq<(Swarm, Task, Inputs)>, a: AgentId, limit: Option<Duration>): Breaker
    decreases |runs|
  {
    if runs == [] then b
    else AfterTheRuns(RunTask(runs[0].0, b, runs[0].1, a, limit, runs[0].2).1, runs[1..], a, limit)
  }

  // ---- A run told from its inputs ----

  // The breaker lets a run in: it is closed, or has been open for its open duration.
  predicate LetsIn(b: Breaker, at: Timestamp) {
    b.state.Closed? || (b.state.Open? && at >= b.state.openedAt + b.openDuration)
  }

  predicate Outlasts(duration: Duration, limit: Option<Duration>) {
    limit.Some? && duration > limit.value
  }

  // The status a run leaves its task in: failed before it starts if the breaker, the policy or the
  // enrichment objects, timed out if the agent outlasts the task's limit or its own, and otherwise what
  // the agent answered, with one more attempt.
  function StatusAfter(attempts: nat, b: Breaker, task: Task, limit: Option<Duration>, i: Inputs): TaskStatus {
    if !LetsIn(b, i.acquiredAt) then TaskStatus.Failed(i.acquiredAt, Internal, attempts)
    else if i.policy != None then TaskStatus.Failed(i.acquiredAt, i.policy.value, attempts)
    else if i.enrichment != None then TaskStatus.Failed(i.acquiredAt, i.enrichment.value, attempts)
    else if Outlasts(i.execution.duration, task.spec.timeout) || Outlasts(i.execution.duration, limit) then TimedOut(i.endedAt)
    else
      match i.execution.result
      case Ok(output) => Completed(i.endedAt, output)
      case Err(e) => TaskStatus.Failed(i.endedAt, e, attempts + 1)
  }

  // What the caller of the run is told.
  function AnswerOf(b: Breaker, task: Task, limit: Option<Duration>, i: Inputs): Result<string, SwarmError> {
    if !LetsIn(b, i.acquiredAt) then Err(Internal)
    else if i.policy != None then Err(i.policy.value)
    else if i.enrichment != None then Err(i.enrichment.value)
    else if Outlasts(i.execution.duration, task.spec.timeout) || Outlasts(i.execution.duration, limit) then Err(TaskTimeout(task.id))
    else if i.persistence != None then Err(i.persistence.value)
    else i.execution.result
  }

  lemma LetsInIff(b: Breaker, at: Timestamp)
    requires Consistent(b)
    ensures b.Acquire(at).1 <==> LetsIn(b, at)
  {
  }

  lemma RunByInputs(s: Swarm, b: Breaker, task: Task, a: AgentId, limit: Option<Duration>, i: Inputs)
    requires Inv(s) && task.id in s.tasks && s.tasks[task.id].status == Scheduled(a) && Consistent(b)
    ensures var (s', _, r) := RunTask(s, b, task, a, limit, i);
            && task.id in s'.tasks
            && s'.tasks[task.id].status == StatusAfter(s.tasks[task.id].attemptCount, b, task, limit, i)
            && r == AnswerOf(b, task, limit, i)
  {
    hide *;
    ScheduledIsRegistered(s, task.id, a);
    RunOfRegistered(s, b, task, a, limit, i);
  }

  lemma RunOfRegistered(s: Swarm, b: Breaker, task: Task, a: AgentId, limit: Option<Duration>, i: Inputs)
    requires a in s.agents && task.id in s.tasks && s.tasks[task.id].status == Scheduled(a) && Consistent(b)
    ensures var (s', _, r) := RunTask(s, b, task, a, limit, i);
            && task.id in s'.tasks
            && s'.tasks[task.id].status == StatusAfter(s.tasks[task.id].attemptCount, b, task, limit, i)
            && r == AnswerOf(b, task, limit, i)
  {
    hide Consistent, Breaker.Acquire, Breaker.RecordFailure, Breaker.RecordSuccess, LetsIn, TimesOut, FinishExecution;
    hide Swarm.RecordTaskStarted, Swarm.RecordTaskCompleted, Swarm.RecordTaskFailed, Swarm.RecordTaskTimedOut;
    LetsInIff(b, i.acquiredAt);
    CutShortIff(task.spec.timeout, limit, i.execution.duration);
    ReportedInFull(s, task.id, a, i.acquiredAt);
    StartedInFull(s, task.id, a, i.startedAt);
    var s1 := s.RecordTaskStarted(task.id, a, i.startedAt).0;
    ReportedInFull(s1, task.id, a, i.endedAt);
    FinishInFull(s1, b.Acquire(i.acquiredAt).0, task.id, a, i);
  }

  lemma FinishInFull(s: Swarm, b: Breaker, id: TaskId, a: AgentId, i: Inputs)
    requires id in s.tasks && a in s.agents
    ensures var (s', _, r) := FinishExecution(s, b, id, a, i);
            && id in s'.tasks
            && s'.tasks[id].status == (match i.execution.result
                                       case Ok(output) => Completed(i.endedAt, output)
                                       case Err(e) => TaskStatus.Failed(i.endedAt, e, s.tasks[id].attemptCount))
            && r == if i.persistence != None then Err(i.persistence.value) else i.execution.result
  {
    ReportedInFull(s, id, a, i.endedAt);
    hide Swarm.RecordTaskCompleted, Swarm.RecordTaskFailed, Breaker.RecordFailure, Breaker.RecordSuccess;
  }

  lemma ReportedInFull(s: Swarm, id: TaskId, a: AgentId, now: Timestamp)
    requires id in s.tasks && a in s.agents
    ensures forall e :: var (s', r) := s.RecordTaskFailed(id, a, e, now);
              r == Ok(()) && id in s'.tasks && s'.tasks[id].status == TaskStatus.Failed(now, e, s.tasks[id].attemptCount)
    ensures forall o :: var (s', r) := s.RecordTaskCompleted(id, a, o, now);
              r == Ok(()) && id in s'.tasks && s'.tasks[id].status == Completed(now, o)
    ensures var (s', r) := s.RecordTaskTimedOut(id, a, now);
            r == Ok(()) && id in s'.tasks && s'.tasks[id].status == TimedOut(now)
  {
  }

  lemma StartedInFull(s: Swarm, id: TaskId, a: AgentId, now: Timestamp)
    requires id in s.tasks && s.tasks[id].status == Scheduled(a)
    ensures var (s', r) := s.RecordTaskStarted(id, a, now);
            r == Ok(()) && id in s'.tasks && s'.agents == s.agents && s'.tasks[id].attemptCount == s.tasks[id].attemptCount + 1
  {
  }

  // ---- What runs do to the breaker, told by how their tasks end ----

  // One run of a runner: the state of the control plane, the task, and what comes from outside.
  predicate Proper(run: (Swarm, Task, Inputs), a: AgentId) {
    run.1.id in run.0.tasks && run.0.tasks[run.1.id].status == Scheduled(a)
  }

  // When admission was asked for, and the status in which the run left its task.
  datatype Report = Report(askedAt: Timestamp, status: TaskStatus)

  // When a task ended.
  function EndedAt(status: TaskStatus): Timestamp {
    match status
    case Completed(at, _) => at
    case Failed(at, _, _) => at
    case TimedOut(at) => at
    case Cancelled(at) => at
    case _ => 0
  }

  function ReportOf(b: Breaker, run: (Swarm, Task, Inputs), a: AgentId, limit: Option<Duration>): Report
    requires Proper(run, a)
  {
    var s' := RunTask(run.0, b, run.1, a, limit, run.2).0;
    Report(run.2.acquiredAt, if run.1.id in s'.tasks then s'.tasks[run.1.id].status else Pending)
  }

  function ReportsOf(b: Breaker, runs: seq<(Swarm, Task, Inputs)>, a: AgentId, limit: Option<Duration>): seq<Report>
    requires forall run | run in runs :: Proper(run, a)
    decreases |runs|
  {
    if runs == [] then []
    else
      [ReportOf(b, runs[0], a, limit)]
      + ReportsOf(RunTask(runs[0].0, b, runs[0].1, a, limit, runs[0].2).1, runs[1..], a, limit)
  }

  // The book kept by somebody who sees only reports: how many runs in a row have not completed their
  // task, and since when nobody is let in.
  datatype Book = Book(misses: nat, shutSince: Option<Timestamp>)
  {
    predicate TurnsAway(r: Report, openDuration: Duration) {
      shutSince.Some? && r.askedAt < shutSince.value + openDuration
    }

    function Enter(r: Report, threshold: nat, openDuration: Duration): Book {
      if TurnsAway(r, openDuration) then this
      else if r.status.Completed? then Book(0, None)
      else Book(misses + 1, if misses + 1 >= threshold then Some(EndedAt(r.status)) else None)
    }
  }

  function Keep(book: Book, reports: seq<Report>, threshold: nat, openDuration: Duration): Book
    decreases |reports|
  {
    if reports == [] then book else Keep(book.Enter(reports[0], threshold, openDuration), reports[1..], threshold, openDuration)
  }

  predicate Agrees(b: Breaker, book: Book) {
    && b.consecutiveFailures == book.misses
    && b.state == (match book.shutSince case None => Closed case Some(t) => Open(t, t + b.openDuration))
    && b.retryDeadline == (match book.shutSince case None => None case Some(t) => Some(t + b.openDuration))
    && (book.shutSince.None? <==> book.misses < b.threshold)
  }

  // A run that completes its task leaves the breaker closed with no failures; every other run that is
  // let in raises the count by one and shuts the breaker from the threshold on; a run that is turned
  // away changes nothing, and its task has failed.
  lemma RunKeepsBook(b: Breaker, book: Book, run: (Swarm, Task, Inputs), a: AgentId, limit: Option<Duration>)
    requires Agrees(b, book) && b.threshold >= 1 && Proper(run, a)
    ensures var (b', r) := (RunTask(run.0, b, run.1, a, limit, run.2).1, ReportOf(b, run, a, limit));
            && r.status.IsTerminal()
            && Agrees(b', book.Enter(r, b.threshold, b.openDuration))
            && b'.threshold == b.threshold && b'.openDuration == b.openDuration
            && (book.TurnsAway(r, b.openDuration) ==> b' == b && r.status.Failed?)
  {
    AdmittedUnlessTurnedAway(b, book, run.2.acquiredAt);
    hide Agrees, Breaker.Acquire, Breaker.RecordFailure, Breaker.RecordSuccess;
    var (b1, admitted) := b.Acquire(run.2.acquiredAt);
    var r := ReportOf(b, run, a, limit);
    HowItEnds(b, run, a, limit);
    if admitted {
      OutcomesKeepBook(b, b1, book, r.status, run.2.acquiredAt);
    }
  }

  lemma AdmittedUnlessTurnedAway(b: Breaker, book: Book, now: Timestamp)
    requires Agrees(b, book)
    ensures var (b1, admitted) := b.Acquire(now);
            && (admitted <==> !(book.shutSince.Some? && now < book.shutSince.value + b.openDuration))
            && (!admitted ==> b1 == b)
  {
  }

  // Admitted or not, what a run does to the breaker and how it leaves the task.
  lemma HowItEnds(b: Breaker, run: (Swarm, Task, Inputs), a: AgentId, limit: Option<Duration>)
    requires Proper(run, a)
    ensures var (b1, admitted) := b.Acquire(run.2.acquiredAt);
            var (b', status) := (RunTask(run.0, b, run.1, a, limit, run.2).1, ReportOf(b, run, a, limit).status);
            && status.IsTerminal()
            && (!admitted ==> b' == b1 && status.Failed?)
            && (admitted ==> b' == if status.Completed? then b1.RecordSuccess() else b1.RecordFailure(EndedAt(status)))
  {
    hide Breaker.Acquire, Breaker.RecordFailure, Breaker.RecordSuccess;
    hide Swarm.RecordTaskStarted, Swarm.RecordTaskCompleted, Swarm.RecordTaskFailed, Swarm.RecordTaskTimedOut, TimesOut;
    ReportedStatus(run.0, run.1.id, a, run.2.acquiredAt);
    StartIsAccepted(run.0, run.1.id, a, run.2.startedAt);
    ReportedStatus(run.0.RecordTaskStarted(run.1.id, a, run.2.startedAt).0, run.1.id, a, run.2.endedAt);
  }

  lemma ReportedStatus(s: Swarm, id: TaskId, a: AgentId, now: Timestamp)
    requires id in s.tasks
    ensures forall e :: var s' := s.RecordTaskFailed(id, a, e, now).0;
              id in s'.tasks && s'.tasks[id].status.Failed? && s'.tasks[id].status.failedAt == now
    ensures forall o :: var s' := s.RecordTaskCompleted(id, a, o, now).0;
              id in s'.tasks && s'.tasks[id].status.Completed? && s'.tasks[id].status.completedAt == now
    ensures var s' := s.RecordTaskTimedOut(id, a, now).0; id in s'.tasks && s'.tasks[id].status == TimedOut(now)
  {
  }

  lemma StartIsAccepted(s: Swarm, id: TaskId, a: AgentId, now: Timestamp)
    requires id in s.tasks && s.tasks[id].status == Scheduled(a)
    ensures s.RecordTaskStarted(id, a, now).1.Ok? && id in s.RecordTaskStarted(id, a, now).0.tasks
  {
  }

  lemma OutcomesKeepBook(b: Breaker, b1: Breaker, book: Book, status: TaskStatus, now: Timestamp)
    requires Agrees(b, book) && b.threshold >= 1 && b.Acquire(now) == (b1, true)
    ensures var b' := if status.Completed? then b1.RecordSuccess() else b1.RecordFailure(EndedAt(status));
            && Agrees(b', book.Enter(Report(now, status), b.threshold, b.openDuration))
            && b'.threshold == b.threshold && b'.openDuration == b.openDuration
  {
  }

  // Over any series of runs of one runner on tasks scheduled to its agent, the breaker is what the
  // book says, which knows of each run only when it asked for admission and how its task ended.
  lemma {:induction false} RunsKeepBook(b: Breaker, book: Book, runs: seq<(Swarm, Task, Inputs)>, a: AgentId, limit: Option<Duration>)
    requires Agrees(b, book) && b.threshold >= 1 && forall run | run in runs :: Proper(run, a)
    ensures var b' := AfterTheRuns(b, runs, a, limit);
            && Agrees(b', Keep(book, ReportsOf(b, runs, a, limit), b.threshold, b.openDuration))
            && b'.threshold == b.threshold && b'.openDuration == b.openDuration
    decreases |runs|
  {
    hide RunTask, ReportOf, Agrees, Book.Enter, Proper;
    if runs != [] {
      assert runs[0] in runs && forall run | run in runs[1..] :: run in runs;
      RunKeepsBook(b, book, runs[0], a, limit);
      var r := ReportOf(b, runs[0], a, limit);
      var b1 := RunTask(runs[0].0, b, runs[0].1, a, limit, runs[0].2).1;
      RunsKeepBook(b1, book.Enter(r, b.threshold, b.openDuration), runs[1..], a, limit);
      assert ReportsOf(b, runs, a, limit)[1..] == ReportsOf(b1, runs[1..], a, limit);
    }
  }

  // Reports that complete no task shut the book as soon as they are as many as the threshold, counted
  // with the misses before them; shut it stays.
  lemma {:induction false} MissesShutBook(book: Book, reports: seq<Report>, threshold: nat, openDuration: Duration)
    requires forall r | r in reports :: !r.status.Completed?
    requires book.shutSince.Some? <==> book.misses >= threshold
    ensures Keep(book, reports, threshold, openDuration).shutSince.Some? <==> book.misses + |reports| >= threshold
    decreases |reports|
  {
    if reports != [] {
      var next := book.Enter(reports[0], threshold, openDuration);
      assert reports[0] in reports && forall r | r in reports[1..] :: r in reports;
      MissesShutBook(next, reports[1..], threshold, openDuration);
    }
  }

  // An agent that never completes a task opens the breaker of its runner with exactly the run that
  // reaches the threshold, whatever makes the runs fail.
  lemma FailingAgentOpensBreaker(threshold: nat, openDuration: Duration, runs: seq<(Swarm, Task, Inputs)>,
                                 a: AgentId, limit: Option<Duration>)
    requires threshold >= 1 && forall run | run in runs :: Proper(run, a)
    requires forall r | r in ReportsOf(NewBreaker(threshold, openDuration), runs, a, limit) :: !r.status.Completed?
    ensures var b := AfterTheRuns(NewBreaker(threshold, openDuration), runs, a, limit);
            && (b.state.Open? <==> |runs| >= threshold)
            && (b.state.Closed? <==> |runs| < threshold)
  {
    var b := NewBreaker(threshold, openDuration);
    RunsKeepBook(b, Book(0, None), runs, a, limit);
    ReportPerRun(b, runs, a, limit);
    MissesShutBook(Book(0, None), ReportsOf(b, runs, a, limit), threshold, openDuration);
  }

  lemma {:induction false} ReportPerRun(b: Breaker, runs: seq<(Swarm, Task, Inputs)>, a: AgentId, limit: Option<Duration>)
    requires forall run | run in runs :: Proper(run, a)
    ensures |ReportsOf(b, runs, a, limit)| == |runs|
    decreases |runs|
  {
    hide RunTask, ReportOf, Proper;
    if runs != [] {
      assert runs[0] in runs && forall run | run in runs[1..] :: run in runs;
      ReportPerRun(RunTask(runs[0].0, b, runs[0].1, a, limit, runs[0].2).1, runs[1..], a, limit);
    }
  }

  // The last run alone: after any series, a completed task leaves the breaker as new, and a miss that
  // is let in counts.
  lemma LastRunDecides(b: Breaker, book: Book, run: (Swarm, Task, Inputs), a: AgentId, limit: Option<Duration>)
    requires Agrees(b, book) && b.threshold >= 1 && Proper(run, a)
    ensures var (b', r) := (RunTask(run.0, b, run.1, a, limit, run.2).1, ReportOf(b, run, a, limit));
            && (r.status.Completed? ==> b'.state.Closed? && b'.consecutiveFailures == 0)
            && (!r.status.Completed? && !(b.state.Open? && r.askedAt < b.state.openedAt + b.openDuration) ==>
                  b'.consecutiveFailures == b.consecutiveFailures + 1
                  && (b'.state.Open? <==> b'.consecutiveFailures >= b.threshold))
  {
    RunKeepsBook(b, book, run, a, limit);
    hide RunTask, ReportOf;
  }

  // A half-open breaker admits nobody,  // A half-open breaker admits nobody, and a refused run does not report to it: no number of later
  // runs, on whatever tasks and at whatever times, gets it going again.
  lemma {:induction false} StrandedForGood(b: Breaker, runs: seq<(Swarm, Task, Inputs)>, a: AgentId, limit: Option<Duration>)
    requires b.state.HalfOpen?
    ensures AfterTheRuns(b, runs, a, limit) == b
    ensures forall now :: !b.Acquire(now).1
    decreases |runs|
  {
    if runs != [] {
      StrandedForGood(b, runs[1..], a, limit);
    }
  }

  // An instance: one failure opens a breaker with threshold one, and after the open duration the
  // probe is spent on a task that the control plane does not know.
  lemma StrandedByUnknownTask(task: Task, a: AgentId, limit: Option<Duration>, i: Inputs, openDuration: Duration)
    requires i.policy.None? && i.enrichment.None?
    ensures var s := NewSwarm(1, None);
            var b := NewBreaker(1, openDuration).RecordFailure(i.acquiredAt - openDuration);
            && b.state.Open? && b.Acquire(i.acquiredAt).1
            && RunTask(s, b, task, a, limit, i).1.state.HalfOpen?
            && RunTask(s, b, task, a, limit, i).2.Err?
  {
    var b := NewBreaker(1, openDuration).RecordFailure(i.acquiredAt - openDuration);
    BreakerLeftHalfOpenIff(NewSwarm(1, None), b, task, a, limit, i);
  }

  lemma BreakerNeverLeftHalfOpen(s: Swarm, b: Breaker, task: Task, a: AgentId, limit: Option<Duration>, i: Inputs)
    requires Inv(s) && task.id in s.tasks && s.tasks[task.id].status == Scheduled(a)
    requires !b.state.HalfOpen?
    ensures !RunTask(s, b, task, a, limit, i).1.state.HalfOpen?
  {
    StartReport(s, task.id, a, i.startedAt);
    hide Inv;
    BreakerLeftHalfOpenIff(s, b, task, a, limit, i);
  }
}

/** The runner object: one agent, its breaker, and the shared handle. */
module TaskRunners {
  import opened Wrappers
  import opened Core
  import opened Tasks
  import opened Running
  import opened OrchestratorHandles
  import opened CircuitBreaking
  import opened CircuitBreakers

  class TaskRunner {
    const agentId: AgentId
    const limit: Option<Duration>
    const handle: OrchestratorHandle
    const circuitBreaker: CircuitBreaker

    constructor (agentId: AgentId, limit: Option<Duration>, handle: OrchestratorHandle)
      ensures this.agentId == agentId && this.limit == limit && this.handle == handle && fresh(circuitBreaker)
      // Closed, to open at the fifth failure in a row, and then for thirty seconds.
      ensures circuitBreaker.Value() == NewBreaker(5, 30_000_000_000)
    {
      this.agentId, this.limit, this.handle := agentId, limit, handle;
      circuitBreaker := new CircuitBreaker(5, 30_000_000_000);
    }

    method RunTask(task: Task, i: Inputs) returns (r: Result<string, SwarmError>)
      modifies handle`tasks, handle.registry, circuitBreaker
      ensures (handle.Value(), circuitBreaker.Value(), r)
           == Running.RunTask(old(handle.Value()), old(circuitBreaker.Value()), task, agentId, limit, i)
    {
      var admitted := circuitBreaker.Acquire(i.acquiredAt);
      if !admitted {
        var recorded := handle.RecordTaskFailed(task.id, agentId, Internal, i.acquiredAt);
        return Err(if recorded.Err? then recorded.error else Internal);
      }
      if i.policy.Some? {
        circuitBreaker.RecordFailure(i.acquiredAt);
        var recorded := handle.RecordTaskFailed(task.id, agentId, i.policy.value, i.acquiredAt);
        return Err(if recorded.Err? then recorded.error else i.policy.value);
      }
      if i.enrichment.Some? {
        circuitBreaker.RecordFailure(i.acquiredAt);
        var recorded := handle.RecordTaskFailed(task.id, agentId, i.enrichment.value, i.acquiredAt);
        return Err(if recorded.Err? then recorded.error else i.enrichment.value);
      }
      var started := handle.RecordTaskStarted(task.id, agentId, i.startedAt);
      if started.Err? {
        var _ := handle.RecordTaskFailed(task.id, agentId, started.error, i.startedAt);
        return Err(started.error);
      }
      if TimesOut(EffectiveTimeout(task.spec.timeout, limit), i.execution.duration) {
        circuitBreaker.RecordFailure(i.endedAt);
        var recorded := handle.RecordTaskTimedOut(task.id, agentId, i.endedAt);
        return Err(if recorded.Err? then recorded.error else TaskTimeout(task.id));
      }
      r := FinishExecution(task.id, i);
    }

    method FinishExecution(id: TaskId, i: Inputs) returns (r: Result<string, SwarmError>)
      modifies handle`tasks, handle.registry, circuitBreaker
      ensures (handle.Value(), circuitBreaker.Value(), r)
           == Running.FinishExecution(old(handle.Value()), old(circuitBreaker.Value()), id, agentId, i)
    {
      match i.execution.result {
        case Ok(output) =>
          circuitBreaker.RecordSuccess();
          var recorded := handle.RecordTaskCompleted(id, agentId, output, i.endedAt);
          if recorded.Err? {
            return Err(recorded.error);
          }
          if i.persistence.Some? {
            return Err(i.persistence.value);
          }
          return Ok(output);
        case Err(e) =>
          circuitBreaker.RecordFailure(i.endedAt);
          var recorded := handle.RecordTaskFailed(id, agentId, e, i.endedAt);
          if recorded.Err? {
            return Err(recorded.error);
          }
          if i.persistence.Some? {
            return Err(i.persistence.value);
          }
          return Err(e);
      }
    }
  }
}
