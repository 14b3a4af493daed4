/** The supervision hierarchy (swarm-orchestrator/supervision.rs): a map from agents to
    nodes that name their supervisor and list their subordinates. */
module Supervision {
  import opened Wrappers
  import opened Core

  datatype Node = Node(agentId: AgentId, supervisor: Option<AgentId>, subordinates: seq<AgentId>)
  {
    function AddSubordinate(a: AgentId): Node {
      if a in subordinates then this else this.(subordinates := subordinates + [a])
    }
  }

  type Nodes = map<AgentId, Node>

  function Root(a: AgentId): Node {
    Node(a, None, [])
  }

  // `Vec::retain(|id| id != a)`.
  function Retain(s: seq<AgentId>, a: AgentId): (r: seq<AgentId>)
    ensures forall x :: x in r <==> x in s && x != a
    ensures NoDuplicates(s) ==> NoDuplicates(r)
  {
    if s == [] then []
    else if s[0] == a then Retain(s[1..], a)
    else
      assert s[0] !in s[1..] || !NoDuplicates(s) by { assert forall x | x in s[1..] :: exists i | 0 < i < |s| :: s[i] == x; }
      [s[0]] + Retain(s[1..], a)
  }

  ghost predicate NoDuplicates(s: seq<AgentId>) {
    forall i, j | 0 <= i < j < |s| :: s[i] != s[j]
  }

  // ---- The operations as functions ----

  function RegisterRoot(n: Nodes, a: AgentId): Nodes {
    n[a := Root(a)]
  }

  function Unlink(n: Nodes, supervisor: AgentId, a: AgentId): Nodes
    requires supervisor in n
  {
    n[supervisor := n[supervisor].(subordinates := Retain(n[supervisor].subordinates, a))]
  }

  function RegisterUnder(n: Nodes, a: AgentId, supervisor: AgentId): (Nodes, Result<(), SwarmError>) {
    if a == supervisor then (n, Err(Internal))
    else if supervisor !in n then (n, Err(AgentNotFound(supervisor)))
    else if a !in n then (n, Err(AgentNotFound(a)))
    else
      var previous := n[a].supervisor;
      if previous.Some? && previous.value != supervisor then
        if previous.value !in n then (n, Err(Internal))
        else (Link(Unlink(n, previous.value, a), a, supervisor), Ok(()))
      else (Link(n, a, supervisor), Ok(()))
  }

  // The last two updates of a re-parenting: the agent's supervisor, then the supervisor's list.
  function Link(n: Nodes, a: AgentId, supervisor: AgentId): Nodes
    requires a in n && supervisor in n
  {
    var n2 := n[a := n[a].(supervisor := Some(supervisor))];
    n2[supervisor := n2[supervisor].AddSubordinate(a)]
  }

  // Clear the supervisor of every listed subordinate that is still registered.
  function Reroot(n: Nodes, orphans: seq<AgentId>): (r: Nodes)
    ensures r.Keys == n.Keys
    ensures forall x | x in n :: r[x] == if x in orphans then n[x].(supervisor := None) else n[x]
  {
    if orphans == [] then n
    else
      var o := orphans[0];
      Reroot(if o in n then n[o := n[o].(supervisor := None)] else n, orphans[1..])
  }

  function Deregister(n: Nodes, a: AgentId): Nodes {
    if a !in n then n
    else
      var node := n[a];
      var n1 := n - {a};
      var n2 := if node.supervisor.Some? && node.supervisor.value in n1 then Unlink(n1, node.supervisor.value, a) else n1;
      Reroot(n2, node.subordinates)
  }

  // ---- Forest: links agree in both directions, and every chain ends at a root ----

  ghost predicate Linked(n: Nodes) {
    && (forall a | a in n :: n[a].agentId == a && NoDuplicates(n[a].subordinates))
    && (forall a, b | a in n :: b in n[a].subordinates <==> b in n && n[b].supervisor == Some(a))
    && (forall b | b in n && n[b].supervisor.Some? :: n[b].supervisor.value in n)
  }

  // The chain of supervisors above `a` reaches a root in exactly `d` steps.
  ghost predicate AtDepth(n: Nodes, a: AgentId, d: nat)
    decreases d
  {
    a in n && match n[a].supervisor
              case None => d == 0
              case Some(p) => d > 0 && AtDepth(n, p, d - 1)
  }

  ghost predicate Acyclic(n: Nodes) {
    forall a | a in n :: exists d :: AtDepth(n, a, d)
  }

  ghost predicate Forest(n: Nodes) {
    Linked(n) && Acyclic(n)
  }

  lemma {:induction false} DepthUnique(n: Nodes, a: AgentId, d: nat, e: nat)
    requires AtDepth(n, a, d) && AtDepth(n, a, e)
    ensures d == e
    decreases d
  {
    if n[a].supervisor.Some? {
      DepthUnique(n, n[a].supervisor.value, d - 1, e - 1);
    }
  }

  ghost function Depth(n: Nodes, a: AgentId): (d: nat)
    requires Acyclic(n) && a in n
    ensures AtDepth(n, a, d)
  {
    var d :| AtDepth(n, a, d);
    d
  }

  lemma SupervisorIsShallower(n: Nodes, a: AgentId)
    requires Acyclic(n) && a in n && n[a].supervisor.Some?
    ensures n[a].supervisor.value in n && Depth(n, n[a].supervisor.value) == Depth(n, a) - 1
  {
    assert AtDepth(n, n[a].supervisor.value, Depth(n, a) - 1);
    DepthUnique(n, n[a].supervisor.value, Depth(n, n[a].supervisor.value), Depth(n, a) - 1);
  }

  // ---- Ancestry: the chain from the immediate supervisor to the root ----

  ghost function Ancestry(n: Nodes, a: AgentId): seq<AgentId>
    requires Acyclic(n)
    decreases if a in n then Depth(n, a) else 0
  {
    if a !in n || n[a].supervisor.None? then []
    else
      SupervisorIsShallower(n, a);
      [n[a].supervisor.value] + Ancestry(n, n[a].supervisor.value)
  }

  // The chain has no repeats, never returns to its agent, and is shorter than the node count.
  lemma AncestryIsAChain(n: Nodes, a: AgentId)
    requires Acyclic(n) && a in n
    ensures var chain := Ancestry(n, a);
            && NoDuplicates(chain) && a !in chain
            && |chain| == Depth(n, a) < |n|
            && (forall x | x in chain :: x in n)
            && (chain != [] ==> n[chain[|chain| - 1]].supervisor.None?)
            && (chain == [] <==> n[a].supervisor.None?)
  {
    AncestryDepths(n, a);
    var chain := Ancestry(n, a);
    forall i, j | 0 <= i < j < |chain| ensures chain[i] != chain[j] {
      assert Depth(n, chain[i]) != Depth(n, chain[j]);
    }
    forall i | 0 <= i < |chain| ensures chain[i] != a {
      assert Depth(n, chain[i]) != Depth(n, a);
    }
    DistinctWithin([a] + chain, n.Keys);
    assert |n| == |n.Keys|;
  }

  lemma {:induction false} AncestryDepths(n: Nodes, a: AgentId)
    requires Acyclic(n) && a in n
    ensures |Ancestry(n, a)| == Depth(n, a)
    ensures forall i | 0 <= i < |Ancestry(n, a)| ::
              Ancestry(n, a)[i] in n && Depth(n, Ancestry(n, a)[i]) == Depth(n, a) - 1 - i
    ensures Ancestry(n, a) != [] ==> n[Ancestry(n, a)[|Ancestry(n, a)| - 1]].supervisor.None?
    decreases Depth(n, a)
  {
    if n[a].supervisor.Some? {
      SupervisorIsShallower(n, a);
      AncestryDepths(n, n[a].supervisor.value);
    }
  }

  lemma {:induction false} DistinctWithin(s: seq<AgentId>, all: set<AgentId>)
    requires NoDuplicates(s) && forall x | x in s :: x in all
    ensures |s| <= |all|
  {
    if s != [] {
      assert forall x | x in s[1..] :: x != s[0];
      DistinctWithin(s[1..], all - {s[0]});
    }
  }

  // ---- Every operation keeps the forest ----

  lemma {:induction false} DepthFrame(n: Nodes, n': Nodes, a: AgentId, d: nat)
    requires AtDepth(n, a, d)
    requires forall x | x in n :: x in n' && n'[x].supervisor == n[x].supervisor
    ensures AtDepth(n', a, d)
    decreases d
  {
    if n[a].supervisor.Some? {
      DepthFrame(n, n', n[a].supervisor.value, d - 1);
    }
  }

  lemma RegisterRootLinks(n: Nodes, a: AgentId)
    requires Linked(n) && a !in n
    ensures Linked(RegisterRoot(n, a))
  {
  }

  lemma RegisterRootKeepsForest(n: Nodes, a: AgentId)
    requires Forest(n) && a !in n
    ensures Forest(RegisterRoot(n, a))
  {
    var n' := RegisterRoot(n, a);
    RegisterRootLinks(n, a);
    forall x | x in n' ensures exists d :: AtDepth(n', x, d) {
      if x == a {
        assert AtDepth(n', a, 0);
      } else {
        DepthFrame(n, n', x, Depth(n, x));
      }
    }
  }

  lemma LinkNode(n: Nodes, a: AgentId, s: AgentId, x: AgentId)
    requires a != s && a in n && s in n && x in n && NoDuplicates(n[x].subordinates)
    ensures var (m, r) := (n[x], Link(n, a, s)[x]);
            && Link(n, a, s).Keys == n.Keys && r.agentId == m.agentId && NoDuplicates(r.subordinates)
            && r.supervisor == (if x == a then Some(s) else m.supervisor)
            && forall y :: y in r.subordinates <==> y in m.subordinates || (x == s && y == a)
  {
  }

  lemma UnlinkNode(n: Nodes, p: AgentId, a: AgentId, x: AgentId)
    requires p in n && x in n && NoDuplicates(n[x].subordinates)
    ensures var (m, r) := (n[x], Unlink(n, p, a)[x]);
            && Unlink(n, p, a).Keys == n.Keys && r.agentId == m.agentId && NoDuplicates(r.subordinates)
            && r.supervisor == m.supervisor
            && forall y :: y in r.subordinates <==> y in m.subordinates && !(x == p && y == a)
  {
  }

  lemma NodeFacts(n: Nodes, a: AgentId, x: AgentId)
    requires Linked(n) && a in n && x in n
    ensures n[x].agentId == x && NoDuplicates(n[x].subordinates)
    ensures a in n[x].subordinates <==> n[a].supervisor == Some(x)
    ensures n[a].supervisor.Some? ==> n[a].supervisor.value in n
  {
  }

  // Taking `a` off one list and linking it elsewhere, seen at one node.
  lemma RelinkNode(n: Nodes, a: AgentId, p: AgentId, s: AgentId, x: AgentId)
    requires a != s && p != s && a in n && p in n && s in n && x in n
    requires n[x].agentId == x && NoDuplicates(n[x].subordinates) && (a in n[x].subordinates <==> x == p)
    ensures Link(Unlink(n, p, a), a, s).Keys == n.Keys
    ensures MovedNode(n, Link(Unlink(n, p, a), a, s), a, s, x)
  {
    hide Link, Unlink, NoDuplicates;
    UnlinkNode(n, p, a, x);
    LinkNode(Unlink(n, p, a), a, s, x);
  }

  lemma LinkOnlyNode(n: Nodes, a: AgentId, s: AgentId, x: AgentId)
    requires a != s && a in n && s in n && x in n
    requires n[x].agentId == x && NoDuplicates(n[x].subordinates) && (a in n[x].subordinates ==> x == s)
    ensures Link(n, a, s).Keys == n.Keys
    ensures MovedNode(n, Link(n, a, s), a, s, x)
  {
    hide Link, NoDuplicates;
    LinkNode(n, a, s, x);
  }

  // What re-parenting does to one node.
  lemma RegisterUnderNode(n: Nodes, a: AgentId, s: AgentId, x: AgentId)
    requires Linked(n) && a != s && a in n && s in n && x in n
    ensures RegisterUnder(n, a, s).0.Keys == n.Keys
    ensures RegisterUnder(n, a, s).1.Ok?
    ensures MovedNode(n, RegisterUnder(n, a, s).0, a, s, x)
  {
    hide Linked, Link, Unlink, MovedNode, NoDuplicates;
    NodeFacts(n, a, x);
    var previous := n[a].supervisor;
    if previous.Some? && previous.value != s {
      RelinkNode(n, a, previous.value, s, x);
    } else {
      LinkOnlyNode(n, a, s, x);
    }
  }

  lemma RegisterUnderLinks(n: Nodes, a: AgentId, s: AgentId)
    requires Linked(n)
    ensures var (n', r) := RegisterUnder(n, a, s);
            && Linked(n') && n'.Keys == n.Keys
            && (r.Ok? <==> a != s && a in n && s in n)
            && (r.Err? ==> n' == n)
            && (r.Ok? ==> forall x | x in n :: n'[x].supervisor == if x == a then Some(s) else n[x].supervisor)
  {
    if a != s && a in n && s in n {
      var n' := RegisterUnder(n, a, s).0;
      RegisterUnderNode(n, a, s, a);
      forall x | x in n ensures MovedNode(n, n', a, s, x) {
        RegisterUnderNode(n, a, s, x);
      }
      hide Linked;
      MoveKeepsLinks(n, n', a, s);
    }
  }

  ghost predicate MovedNode(n: Nodes, n': Nodes, a: AgentId, s: AgentId, x: AgentId)
    requires x in n
  {
    && x in n' && n'[x].agentId == x && NoDuplicates(n'[x].subordinates)
    && n'[x].supervisor == (if x == a then Some(s) else n[x].supervisor)
    && forall y :: y in n'[x].subordinates <==> if y == a then x == s else y in n[x].subordinates
  }

  lemma MoveKeepsLinks(n: Nodes, n': Nodes, a: AgentId, s: AgentId)
    requires Linked(n) && a in n && s in n && n'.Keys == n.Keys
    requires forall x | x in n :: MovedNode(n, n', a, s, x)
    ensures Linked(n')
    ensures forall x | x in n :: n'[x].supervisor == if x == a then Some(s) else n[x].supervisor
  {
    forall x, y | x in n' ensures y in n'[x].subordinates <==> y in n' && n'[y].supervisor == Some(x) {
      assert MovedNode(n, n', a, s, x);
      assert y in n ==> MovedNode(n, n', a, s, y);
    }
  }

  // Chains that avoid `a`, or that pass through it, still end at a root after the move.
  lemma {:induction false} MoveKeepsChains(n: Nodes, n': Nodes, a: AgentId, s: AgentId, x: AgentId, d: nat)
    requires AtDepth(n, x, d) && a in n && s in n
    requires n'.Keys == n.Keys
    requires forall y | y in n :: n'[y].supervisor == if y == a then Some(s) else n[y].supervisor
    requires exists e :: AtDepth(n', s, e)
    ensures exists e :: AtDepth(n', x, e)
    decreases d
  {
    if x == a {
      var e: nat :| AtDepth(n', s, e);
      assert AtDepth(n', a, e + 1);
    } else if n[x].supervisor.Some? {
      MoveKeepsChains(n, n', a, s, n[x].supervisor.value, d - 1);
      var e: nat :| AtDepth(n', n[x].supervisor.value, e);
      assert AtDepth(n', x, e + 1);
    } else {
      assert AtDepth(n', x, 0);
    }
  }

  lemma {:induction false} ChainAvoiding(n: Nodes, n': Nodes, a: AgentId, x: AgentId)
    requires Acyclic(n) && x in n && x != a && a !in Ancestry(n, x)
    requires n'.Keys == n.Keys && forall y | y in n && y != a :: n'[y].supervisor == n[y].supervisor
    ensures AtDepth(n', x, Depth(n, x))
    decreases Depth(n, x)
  {
    if n[x].supervisor.Some? {
      SupervisorIsShallower(n, x);
      assert Ancestry(n, x)[0] == n[x].supervisor.value;
      assert forall y | y in Ancestry(n, n[x].supervisor.value) :: y in Ancestry(n, x);
      ChainAvoiding(n, n', a, n[x].supervisor.value);
    }
  }

  // If `a` is above `s`, then hanging `a` below `s` closes a cycle: no depth exists any more.
  lemma {:induction false} CycleHasNoDepth(n: Nodes, n': Nodes, a: AgentId, s: AgentId, x: AgentId, d: nat, e: nat)
    requires Acyclic(n) && x in n && (x == a || a in Ancestry(n, x))
    requires a in n' && n'[a].supervisor == Some(s)
    requires forall y | y in n && y != a :: y in n' && n'[y].supervisor == n[y].supervisor
    requires AtDepth(n', a, d) && AtDepth(n', x, e)
    ensures d <= e
    decreases Depth(n, x)
  {
    if x == a {
      DepthUnique(n', a, d, e);
    } else {
      SupervisorIsShallower(n, x);
      CycleHasNoDepth(n, n', a, s, n[x].supervisor.value, d, e - 1);
    }
  }

  // Re-parenting keeps the forest exactly when the new supervisor is not a descendant of the agent.
  lemma RegisterUnderKeepsForestIff(n: Nodes, a: AgentId, s: AgentId)
    requires Forest(n) && RegisterUnder(n, a, s).1.Ok?
    ensures Forest(RegisterUnder(n, a, s).0) <==> a !in Ancestry(n, s)
  {
    RegisterUnderLinks(n, a, s);
    var n' := RegisterUnder(n, a, s).0;
    if a !in Ancestry(n, s) {
      ChainAvoiding(n, n', a, s);
      forall x | x in n' ensures exists d :: AtDepth(n', x, d) {
        MoveKeepsChains(n, n', a, s, x, Depth(n, x));
      }
    } else if Forest(n') {
      var d := Depth(n', a);
      CycleHasNoDepth(n, n', a, s, s, d, d - 1);
      assert false;
    }
  }

  // Two registrations that the code accepts and that leave two agents supervising each other.
  lemma MutualSupervisionIsAccepted(a: AgentId, b: AgentId)
    requires a != b
    ensures var n0 := RegisterRoot(RegisterRoot(map[], a), b);
            var (n1, r1) := RegisterUnder(n0, a, b);
            var (n2, r2) := RegisterUnder(n1, b, a);
            && Forest(n0) && Forest(n1) && r1.Ok? && r2.Ok?
            && n2[a].supervisor == Some(b) && n2[b].supervisor == Some(a)
            && !Forest(n2)
  {
    var e: Nodes := map[];
    RegisterRootKeepsForest(e, a);
    RegisterRootKeepsForest(RegisterRoot(e, a), b);
    var n0 := RegisterRoot(RegisterRoot(e, a), b);
    RegisterUnderKeepsForestIff(n0, a, b);
    var n1 := RegisterUnder(n0, a, b).0;
    RegisterUnderLinks(n0, a, b);
    RegisterUnderLinks(n1, b, a);
    assert Ancestry(n1, a)[0] == b;
    RegisterUnderKeepsForestIff(n1, b, a);
  }

  // ---- The upward walk on any hierarchy ----

  // The walk from supervisor to supervisor stops after `d` steps, at a root or outside the map.
  ghost predicate WalkEnds(n: Nodes, a: AgentId, d: nat)
    decreases d
  {
    if a !in n || n[a].supervisor.None? then d == 0 else d > 0 && WalkEnds(n, n[a].supervisor.value, d - 1)
  }

  ghost function Walk(n: Nodes, a: AgentId, d: nat): seq<AgentId>
    requires WalkEnds(n, a, d)
    decreases d
  {
    if d == 0 then [] else [n[a].supervisor.value] + Walk(n, n[a].supervisor.value, d - 1)
  }

  lemma {:induction false} WalkUnique(n: Nodes, a: AgentId, d: nat, e: nat)
    requires WalkEnds(n, a, d) && WalkEnds(n, a, e)
    ensures d == e
    decreases d
  {
    if d > 0 && e > 0 {
      WalkUnique(n, n[a].supervisor.value, d - 1, e - 1);
    }
  }

  // On a hierarchy without cycles every walk ends, and it is the ancestry.
  lemma {:induction false} AcyclicWalkEnds(n: Nodes, a: AgentId)
    requires Acyclic(n)
    ensures var d := if a in n then Depth(n, a) else 0; WalkEnds(n, a, d) && Walk(n, a, d) == Ancestry(n, a)
    decreases if a in n then Depth(n, a) else 0
  {
    if a in n && n[a].supervisor.Some? {
      SupervisorIsShallower(n, a);
      AcyclicWalkEnds(n, n[a].supervisor.value);
    } else if a in n {
      assert AtDepth(n, a, 0);
      DepthUnique(n, a, 0, Depth(n, a));
    }
  }

  lemma {:induction false} WalkReachesRoot(n: Nodes, a: AgentId, d: nat)
    requires Linked(n) && a in n && WalkEnds(n, a, d)
    ensures AtDepth(n, a, d)
    decreases d
  {
    if d > 0 {
      WalkReachesRoot(n, n[a].supervisor.value, d - 1);
    }
  }

  ghost predicate Ends(n: Nodes, a: AgentId) {
    exists d :: WalkEnds(n, a, d)
  }

  lemma EndsAtRoot(n: Nodes, a: AgentId)
    requires Linked(n) && a in n && Ends(n, a)
    ensures exists d :: AtDepth(n, a, d)
  {
    var d: nat :| WalkEnds(n, a, d);
    WalkReachesRoot(n, a, d);
  }

  lemma EndsFromRoot(n: Nodes, a: AgentId, d: nat)
    requires AtDepth(n, a, d)
    ensures Ends(n, a)
  {
    DepthWalks(n, a, d);
  }

  lemma {:induction false} DepthWalks(n: Nodes, a: AgentId, d: nat)
    requires AtDepth(n, a, d)
    ensures WalkEnds(n, a, d)
    decreases d
  {
    if n[a].supervisor.Some? {
      DepthWalks(n, n[a].supervisor.value, d - 1);
    }
  }

  // Where the links agree, all walks end exactly when there is no cycle.
  lemma AllWalksEndIff(n: Nodes)
    requires Linked(n)
    ensures (forall a | a in n :: Ends(n, a)) <==> Acyclic(n)
  {
    hide Ends, Linked;
    if Acyclic(n) {
      forall a | a in n ensures Ends(n, a) {
        EndsFromRoot(n, a, Depth(n, a));
      }
    }
    if forall a | a in n :: Ends(n, a) {
      forall a | a in n ensures exists d :: AtDepth(n, a, d) {
        EndsAtRoot(n, a);
      }
    }
  }

  // Two agents that supervise each other are walked for ever.
  lemma {:induction false} MutualWalkNeverEnds(n: Nodes, a: AgentId, b: AgentId, d: nat)
    requires a in n && b in n && n[a].supervisor == Some(b) && n[b].supervisor == Some(a)
    ensures !WalkEnds(n, a, d)
    decreases d
  {
    if d > 0 {
      MutualWalkNeverEnds(n, b, a, d - 1);
    }
  }

  lemma DeregisterNode(n: Nodes, a: AgentId, x: AgentId)
    requires Linked(n) && a in n && x in n && x != a
    ensures var n' := Deregister(n, a);
            && n'.Keys == n.Keys - {a}
            && n'[x].agentId == x && NoDuplicates(n'[x].subordinates)
            && n'[x].supervisor == (if n[x].supervisor == Some(a) then None else n[x].supervisor)
            && forall y :: y in n'[x].subordinates <==> y in n[x].subordinates && y != a
  {
    var n1 := n - {a};
    var p := n[a].supervisor;
    var n2 := if p.Some? && p.value in n1 then Unlink(n1, p.value, a) else n1;
    assert x in n[a].subordinates <==> n[x].supervisor == Some(a);
    assert a in n[x].subordinates <==> p == Some(x);
    assert forall y :: y in n2[x].subordinates <==> y in n[x].subordinates && y != a;
    assert NoDuplicates(n2[x].subordinates);
  }

  lemma DeregisterKeys(n: Nodes, a: AgentId)
    ensures Deregister(n, a).Keys == n.Keys - {a}
  {
  }

  lemma DeregisterLinks(n: Nodes, a: AgentId)
    requires Linked(n) && a in n
    ensures var n' := Deregister(n, a);
            && Linked(n') && n'.Keys == n.Keys - {a}
            && forall x | x in n' :: n'[x].supervisor == if n[x].supervisor == Some(a) then None else n[x].supervisor
  {
    hide Deregister;
    var n' := Deregister(n, a);
    DeregisterKeys(n, a);
    forall x | x in n && x != a
      ensures n'[x].agentId == x && NoDuplicates(n'[x].subordinates)
      ensures n'[x].supervisor == if n[x].supervisor == Some(a) then None else n[x].supervisor
      ensures forall y :: y in n'[x].subordinates <==> y in n[x].subordinates && y != a
    {
      DeregisterNode(n, a, x);
    }
  }

  lemma {:induction false} DeregisterChain(n: Nodes, n': Nodes, a: AgentId, x: AgentId, d: nat)
    requires AtDepth(n, x, d) && x != a && n'.Keys == n.Keys - {a}
    requires forall x | x in n' :: n'[x].supervisor == if n[x].supervisor == Some(a) then None else n[x].supervisor
    ensures exists e :: AtDepth(n', x, e)
    decreases d
  {
    if n[x].supervisor.None? || n[x].supervisor == Some(a) {
      assert AtDepth(n', x, 0);
    } else {
      DeregisterChain(n, n', a, n[x].supervisor.value, d - 1);
      var e: nat :| AtDepth(n', n[x].supervisor.value, e);
      assert AtDepth(n', x, e + 1);
    }
  }

  lemma DeregisterKeepsForest(n: Nodes, a: AgentId)
    requires Forest(n)
    ensures Forest(Deregister(n, a)) && Deregister(n, a).Keys == n.Keys - {a}
  {
    if a in n {
      DeregisterLinks(n, a);
      var n' := Deregister(n, a);
      forall x | x in n' ensures exists d :: AtDepth(n', x, d) {
        DeregisterChain(n, n', a, x, Depth(n, x));
      }
    }
  }
}

/** The mutable supervision manager. */
module SupervisionManagers {
  import opened Wrappers
  import opened Core
  import S = Supervision

  class SupervisionManager {
    var nodes: S.Nodes

    constructor ()
      ensures nodes == map[]
    {
      nodes := map[];
    }

    method RegisterRoot(a: AgentId)
      modifies this
      ensures nodes == old(nodes)[a := S.Root(a)]
    {
      nodes := nodes[a := S.Root(a)];
    }

    method RegisterUnder(a: AgentId, supervisor: AgentId) returns (r: Result<(), SwarmError>)
      modifies this
      ensures (nodes, r) == S.RegisterUnder(old(nodes), a, supervisor)
    {
      if a == supervisor {
        return Err(Internal);
      }
      if supervisor !in nodes {
        return Err(AgentNotFound(supervisor));
      }
      if a !in nodes {
        return Err(AgentNotFound(a));
      }
      var previous := nodes[a].supervisor;
      if previous.Some? && previous.value != supervisor {
        if previous.value !in nodes {
          return Err(Internal);
        }
        var oldNode := nodes[previous.value];
        nodes := nodes[previous.value := oldNode.(subordinates := S.Retain(oldNode.subordinates, a))];
      }
      nodes := nodes[a := nodes[a].(supervisor := Some(supervisor))];
      nodes := nodes[supervisor := nodes[supervisor].AddSubordinate(a)];
      return Ok(());
    }

    method Deregister(a: AgentId)
      modifies this
      ensures nodes == S.Deregister(old(nodes), a)
    {
      if a !in nodes {
        return;
      }
      var node := nodes[a];
      nodes := nodes - {a};
      if node.supervisor.Some? && node.supervisor.value in nodes {
        var supNode := nodes[node.supervisor.value];
        nodes := nodes[node.supervisor.value := supNode.(subordinates := S.Retain(supNode.subordinates, a))];
      }
      ghost var unlinked := nodes;
      var i := 0;
      while i < |node.subordinates|
        invariant 0 <= i <= |node.subordinates|
        invariant S.Reroot(nodes, node.subordinates[i..]) == S.Reroot(unlinked, node.subordinates)
      {
        var o := node.subordinates[i];
        if o in nodes {
          nodes := nodes[o := nodes[o].(supervisor := None)];
        }
        assert node.subordinates[i..][1..] == node.subordinates[i + 1..];
        i := i + 1;
      }
    }

    // The walk has to end for the call to return, and that is all that is asked for.
    method Ancestry(a: AgentId) returns (chain: seq<AgentId>)
      requires S.Ends(nodes, a)
      ensures forall d | S.WalkEnds(nodes, a, d) :: chain == S.Walk(nodes, a, d)
      ensures S.Acyclic(nodes) ==> chain == S.Ancestry(nodes, a)
    {
      chain := [];
      var current := a;
      ghost var total: nat :| S.WalkEnds(nodes, a, total);
      ghost var left := total;
      while current in nodes && nodes[current].supervisor.Some?
        invariant S.WalkEnds(nodes, current, left)
        invariant chain + S.Walk(nodes, current, left) == S.Walk(nodes, a, total)
        decreases left
      {
        var parent := nodes[current].supervisor.value;
        chain := chain + [parent];
        current, left := parent, left - 1;
      }
      forall d | S.WalkEnds(nodes, a, d) ensures d == total {
        S.WalkUnique(nodes, a, d, total);
      }
      if S.Acyclic(nodes) {
        S.AcyclicWalkEnds(nodes, a);
      }
    }
  }
}
