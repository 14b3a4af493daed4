/** The agent registry (swarm-orchestrator/registry.rs): descriptors, statuses, counters. */
module Registry {
  import opened Wrappers
  import opened Core
  import opened Capabilities

  datatype AgentStatus =
    | Inactive
    | Ready
    | Busy(currentTask: TaskId)
    | Paused(reason: string)
    | Failed(reason: string, failedAt: Timestamp)
    | Stopped
  {
    predicate IsAvailable() {
      Ready?
    }
  }

  // `limit` is the descriptor's `resource_limits.max_execution_time`.
  datatype AgentDescriptor = AgentDescriptor(
    id: AgentId, name: string, capabilities: CapabilitySet, roleId: Option<string>, limit: Option<Duration>)

  datatype AgentRecord = AgentRecord(
    descriptor: AgentDescriptor, status: AgentStatus, lastSeenAt: Timestamp, tasksCompleted: nat, tasksFailed: nat)

  type Agents = map<AgentId, AgentRecord>

  function NewRecord(d: AgentDescriptor, now: Timestamp): AgentRecord {
    AgentRecord(d, Inactive, now, 0, 0)
  }

  function Register(g: Agents, d: AgentDescriptor, now: Timestamp): (Agents, Result<AgentId, SwarmError>) {
    if d.id in g then (g, Err(Internal)) else (g[d.id := NewRecord(d, now)], Ok(d.id))
  }

  function Deregister(g: Agents, a: AgentId): (Agents, Result<AgentRecord, SwarmError>) {
    if a in g then (g - {a}, Ok(g[a])) else (g, Err(AgentNotFound(a)))
  }

  function UpdateStatus(g: Agents, a: AgentId, status: AgentStatus, now: Timestamp): (Agents, Result<(), SwarmError>) {
    if a in g then (g[a := g[a].(status := status, lastSeenAt := now)], Ok(())) else (g, Err(AgentNotFound(a)))
  }

  function RecordTaskCompleted(g: Agents, a: AgentId): Agents {
    if a in g then g[a := g[a].(tasksCompleted := g[a].tasksCompleted + 1)] else g
  }

  function RecordTaskFailed(g: Agents, a: AgentId): Agents {
    if a in g then g[a := g[a].(tasksFailed := g[a].tasksFailed + 1)] else g
  }

  // Becoming ready and counting an outcome, as one update of the record.
  lemma OutcomeUpdate(g: Agents, a: AgentId, now: Timestamp)
    requires a in g
    ensures var r := g[a].(status := Ready, lastSeenAt := now);
            && UpdateStatus(g, a, Ready, now) == (g[a := r], Ok(()))
            && RecordTaskCompleted(g[a := r], a) == g[a := r.(tasksCompleted := r.tasksCompleted + 1)]
            && RecordTaskFailed(g[a := r], a) == g[a := r.(tasksFailed := r.tasksFailed + 1)]
  {
  }

  // An iteration order of the concurrent map: every key once, in no promised order.
  ghost predicate Enumerates(order: seq<AgentId>, ids: set<AgentId>) {
    && (forall a :: a in order <==> a in ids)
    && (forall i, j | 0 <= i < j < |order| :: order[i] != order[j])
  }

  function Records(g: Agents, order: seq<AgentId>): (s: seq<AgentRecord>)
    requires forall a | a in order :: a in g
    ensures |s| == |order| && forall i | 0 <= i < |s| :: s[i] == g[order[i]]
  {
    if order == [] then [] else [g[order[0]]] + Records(g, order[1..])
  }

  lemma RecordsCover(g: Agents, order: seq<AgentId>)
    requires Enumerates(order, g.Keys)
    ensures forall a | a in g :: g[a] in Records(g, order)
    ensures forall r | r in Records(g, order) :: exists a :: a in g && g[a] == r
  {
    var records := Records(g, order);
    forall a | a in g ensures g[a] in records {
      var i :| 0 <= i < |order| && order[i] == a;
      assert records[i] == g[a];
    }
    forall r | r in records ensures exists a :: a in g && g[a] == r {
      var i :| 0 <= i < |records| && records[i] == r;
      assert order[i] in g && g[order[i]] == r;
    }
  }
}

/** The mutable registry. */
module AgentRegistries {
  import opened Wrappers
  import opened Core
  import opened Registry

  class AgentRegistry {
    var agents: Agents

    constructor ()
      ensures agents == map[]
    {
      agents := map[];
    }

    method Register(d: AgentDescriptor, now: Timestamp) returns (r: Result<AgentId, SwarmError>)
      modifies this
      ensures (agents, r) == Registry.Register(old(agents), d, now)
    {
      var record := NewRecord(d, now);
      if d.id in agents {
        return Err(Internal);
      }
      agents := agents[d.id := record];
      return Ok(d.id);
    }

    method Deregister(a: AgentId) returns (r: Result<AgentRecord, SwarmError>)
      modifies this
      ensures (agents, r) == Registry.Deregister(old(agents), a)
    {
      if a !in agents {
        return Err(AgentNotFound(a));
      }
      r := Ok(agents[a]);
      agents := agents - {a};
    }

    method UpdateStatus(a: AgentId, status: AgentStatus, now: Timestamp) returns (r: Result<(), SwarmError>)
      modifies this
      ensures (agents, r) == Registry.UpdateStatus(old(agents), a, status, now)
    {
      if a !in agents {
        return Err(AgentNotFound(a));
      }
      agents := agents[a := agents[a].(status := status, lastSeenAt := now)];
      return Ok(());
    }

    method RecordTaskCompleted(a: AgentId)
      modifies this
      ensures agents == Registry.RecordTaskCompleted(old(agents), a)
    {
      if a in agents {
        agents := agents[a := agents[a].(tasksCompleted := agents[a].tasksCompleted + 1)];
      }
    }

    method RecordTaskFailed(a: AgentId)
      modifies this
      ensures agents == Registry.RecordTaskFailed(old(agents), a)
    {
      if a in agents {
        agents := agents[a := agents[a].(tasksFailed := agents[a].tasksFailed + 1)];
      }
    }

    // A snapshot of all records, in the map's own order.
    method AllAgents() returns (records: seq<AgentRecord>, ghost order: seq<AgentId>)
      ensures Enumerates(order, agents.Keys) && records == Records(agents, order)
      ensures forall a | a in agents :: agents[a] in records
      ensures forall r | r in records :: exists a :: a in agents && agents[a] == r
    {
      records, order := [], [];
      var rest := agents.Keys;
      while rest != {}
        invariant rest <= agents.Keys
        invariant forall a :: a in order <==> a in agents && a !in rest
        invariant forall i, j | 0 <= i < j < |order| :: order[i] != order[j]
        invariant records == Records(agents, order)
        decreases |rest|
      {
        var a :| a in rest;
        rest := rest - {a};
        records, order := records + [agents[a]], order + [a];
      }
      RecordsCover(agents, order);
    }
  }
}
