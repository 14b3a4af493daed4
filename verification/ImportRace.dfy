/** `import_task_snapshot` among dispatchers and cancellations (swarm-orchestrator/orchestrator.rs).
    An import enqueues its task before it stores it, so whoever removes the task in between looks it
    up in vain; it is stored afterwards, pending and in nobody's hands. */
module ImportRaces {
  import opened Wrappers
  import opened Core
  import opened Tasks
  import opened TaskQueues
  import opened Registry
  import opened Scheduling
  import O = Orchestration
  import D = Dispatchers
  import opened DispatcherBound
  import A = DispatcherAssignments

  // `importing` holds the tasks enqueued but not yet stored, `missed` the ids that the winner of a
  // removal looked up in vain.
  datatype World = World(s: D.System, importing: map<TaskId, Task>, missed: set<TaskId>)

  datatype Event =
    | Inner(a: D.Action)
    | ImportEnqueues(task: Task, now: Timestamp)
    | ImportStores(id: TaskId)
    | CancelMisses(id: TaskId)

  // At most one import is under way for an id, and the ids of submissions are fresh.
  ghost predicate Enabled(w: World, e: Event) {
    match e
    case Inner(a) => D.Enabled(w.s, a) && (a.StoreSubmission? ==> a.task.id !in w.importing)
    case ImportEnqueues(task, _) => task.status.Pending? && task.id !in w.s.tasks && task.id !in w.importing
    case ImportStores(id) => id in w.importing
    case CancelMisses(id) => id in w.s.cancelling && id !in w.s.tasks
  }

  // A dispatcher that has won a removal does not find its task.
  predicate LooksInVain(w: World, a: D.Action) {
    a.CommitTask? && a.d in w.s.pcs && w.s.pcs[a.d].Dequeued? && w.s.pcs[a.d].task !in w.s.tasks
  }

  ghost function Do(w: World, e: Event): World
    requires Enabled(w, e)
  {
    match e
    case Inner(a) =>
      w.(s := D.Do(w.s, a), missed := if LooksInVain(w, a) then w.missed + {w.s.pcs[a.d].task} else w.missed)
    case ImportEnqueues(task, now) =>
      w.(s := w.s.(queue := w.s.queue.Enqueue(task, now).0), importing := w.importing[task.id := task])
    case ImportStores(id) =>
      w.(s := w.s.(tasks := w.s.tasks[id := w.importing[id]]), importing := w.importing - {id})
    case CancelMisses(id) => w.(s := w.s.(cancelling := w.s.cancelling - {id}), missed := w.missed + {id})
  }

  ghost predicate Runs(w: World, events: seq<Event>)
    decreases |events|
  {
    events == [] || (Enabled(w, events[0]) && Runs(Do(w, events[0]), events[1..]))
  }

  ghost function After(w: World, events: seq<Event>): World
    requires Runs(w, events)
    decreases |events|
  {
    if events == [] then w else After(Do(w, events[0]), events[1..])
  }

  // ---- The invariant ----

  // Pending in the task map, or about to be stored there.
  predicate Open(w: World, id: TaskId) {
    D.PendingIn(w.s.tasks, id) || id in w.importing
  }

  // Some dispatcher has won the removal and is to commit.
  ghost predicate Won(w: World, id: TaskId) {
    exists d | d in w.s.pcs :: IsWinner(w.s.pcs[d], id)
  }

  predicate IsWinner(pc: D.Pc, id: TaskId) {
    pc.Dequeued? && pc.task == id
  }

  // Removals win once per id, and have not been undone.
  ghost predicate Logged(w: World) {
    && WellFormed(w.s.queue) && D.NoRepeats(w.s.removed)
    && forall id | id in w.s.removed ::
         (id in w.s.tasks || id in w.importing) && id !in w.s.queue.index && id !in w.s.storing
  }

  // Who may still touch an open task.
  ghost predicate Claims(w: World) {
    && (forall id | id in w.s.tasks :: w.s.tasks[id].id == id)
    && (forall id | id in w.importing ::
          w.importing[id].id == id && w.importing[id].status.Pending? && id !in w.s.tasks && id !in w.s.storing)
    && (forall id | id in w.s.queue.index :: Open(w, id) && id !in w.s.storing)
    && (forall id | id in w.s.storing :: D.PendingIn(w.s.tasks, id))
    && (forall id | id in w.s.cancelling :: Open(w, id) && id in w.s.removed)
    && (forall id | id in w.missed :: Open(w, id) && id in w.s.removed && id !in w.s.cancelling)
  }

  ghost predicate Winners(w: World) {
    && (forall d | d in w.s.pcs && w.s.pcs[d].Dequeued? ::
          var id := w.s.pcs[d].task; Open(w, id) && id in w.s.removed && id !in w.s.cancelling && id !in w.missed)
    && (forall d, e, id | d in w.s.pcs && e in w.s.pcs && IsWinner(w.s.pcs[d], id) && IsWinner(w.s.pcs[e], id) :: d == e)
  }

  // An open task is in somebody's hands, or has been missed.
  ghost predicate Kept(w: World) {
    forall id | Open(w, id) ::
      id in w.s.queue.index || id in w.s.storing || id in w.s.cancelling || id in w.missed || Won(w, id)
  }

  ghost predicate Inv(w: World) {
    Logged(w) && Claims(w) && Winners(w) && Kept(w)
  }

  predicate MovesOnly(a: D.Action) {
    a.Check? || a.PeekHead? || a.PolicyAllows? || a.PolicyDenies? || a.Choose? || a.NobodyCapable? || a.MarkBusy?
  }

  // A dispatcher moves on without touching queue, tasks or removals.
  lemma MoveKeepsInv(w: World, s': D.System, d: D.Dispatcher, pc: D.Pc)
    requires Inv(w) && d in w.s.pcs && !w.s.pcs[d].Dequeued? && !pc.Dequeued?
    requires s' == w.s.(pcs := w.s.pcs[d := pc], agents := s'.agents)
    ensures Inv(w.(s := s'))
  {
    hide WellFormed, D.NoRepeats, D.PendingIn;
    var w' := w.(s := s');
    forall id | Won(w, id) ensures Won(w', id) {
      var e :| e in w.s.pcs && IsWinner(w.s.pcs[e], id);
      assert IsWinner(w'.s.pcs[e], id);
    }
  }

  // What a won removal does to the queue.
  ghost predicate Removes(q: Queue, id: TaskId, q': Queue) {
    id in q.index && WellFormed(q') && q'.index.Keys == q.index.Keys - {id}
  }

  lemma LogGrows(w: World, id: TaskId)
    requires Inv(w) && id in w.s.queue.index
    ensures D.NoRepeats(w.s.removed + [id]) && id !in w.s.removed && Open(w, id) && (id in w.s.tasks || id in w.importing)
    ensures id !in w.s.storing && id !in w.s.cancelling && id !in w.missed
  {
  }

  lemma DequeueKeepsInv(w: World, w': World, d: D.Dispatcher, id: TaskId, agent: AgentId, q: Queue)
    requires Inv(w) && d in w.s.pcs && !w.s.pcs[d].Dequeued? && Removes(w.s.queue, id, q)
    requires w' == w.(s := w.s.(queue := q, pcs := w.s.pcs[d := D.Dequeued(id, agent)], removed := w.s.removed + [id]))
    ensures Inv(w')
  {
    hide Logged, Claims, Winners, Kept, Open, Won, WellFormed;
    LogGrows(w, id);
    SameOpen(w, w');
    RemovalKeepsLog(w, w', id);
    RemovalKeepsClaims(w, w', id);
    DequeueAddsWinner(w, w', d, id, agent);
    DequeueKeepsHands(w, w', d, id, agent);
  }

  lemma RemovalKeepsLog(w: World, w': World, id: TaskId)
    requires Logged(w) && Removes(w.s.queue, id, w'.s.queue) && D.NoRepeats(w.s.removed + [id])
    requires (id in w.s.tasks || id in w.importing) && id !in w.s.storing
    requires w'.s.removed == w.s.removed + [id] && w'.s.tasks == w.s.tasks && w'.s.storing == w.s.storing
    requires w'.importing == w.importing
    ensures Logged(w')
  {
    hide WellFormed, D.NoRepeats;
  }

  lemma RemovalKeepsClaims(w: World, w': World, id: TaskId)
    requires Claims(w) && Removes(w.s.queue, id, w'.s.queue) && Open(w, id) && forall x :: Open(w', x) <==> Open(w, x)
    requires w'.s.removed == w.s.removed + [id] && w'.s.tasks == w.s.tasks && w'.s.storing == w.s.storing
    requires w'.importing == w.importing && w'.missed == w.missed && id !in w.missed
    requires w.s.cancelling <= w'.s.cancelling <= w.s.cancelling + {id}
    ensures Claims(w')
  {
    hide WellFormed, Open, D.PendingIn;
  }

  lemma DequeueAddsWinner(w: World, w': World, d: D.Dispatcher, id: TaskId, agent: AgentId)
    requires d in w.s.pcs && !w.s.pcs[d].Dequeued? && w'.s.pcs == w.s.pcs[d := D.Dequeued(id, agent)]
    ensures Won(w', id) && forall x | Won(w, x) :: Won(w', x)
  {
    assert IsWinner(w'.s.pcs[d], id);
    forall x | Won(w, x) ensures Won(w', x) {
      var e :| e in w.s.pcs && IsWinner(w.s.pcs[e], x);
      assert IsWinner(w'.s.pcs[e], x);
    }
  }

  lemma DequeueKeepsHands(w: World, w': World, d: D.Dispatcher, id: TaskId, agent: AgentId)
    requires Winners(w) && Kept(w) && Removes(w.s.queue, id, w'.s.queue) && Open(w, id) && id !in w.s.removed
    requires d in w.s.pcs && w'.s.pcs == w.s.pcs[d := D.Dequeued(id, agent)] && id !in w.s.cancelling && id !in w.missed
    requires w'.s.removed == w.s.removed + [id] && w'.s.storing == w.s.storing && w'.s.cancelling == w.s.cancelling
    requires w'.missed == w.missed && forall x :: Open(w', x) <==> Open(w, x)
    requires Won(w', id) && forall x | Won(w, x) :: Won(w', x)
    ensures Winners(w') && Kept(w')
  {
    hide WellFormed, Open, Won;
  }

  lemma CancelRemovalKeepsInv(w: World, w': World, id: TaskId, q: Queue)
    requires Inv(w) && Removes(w.s.queue, id, q)
    requires w' == w.(s := w.s.(queue := q, cancelling := w.s.cancelling + {id}, removed := w.s.removed + [id]))
    ensures Inv(w')
  {
    hide Logged, Claims, Winners, Kept, Open, Won, WellFormed;
    LogGrows(w, id);
    SameOpen(w, w');
    SameWinners(w, w');
    RemovalKeepsLog(w, w', id);
    RemovalKeepsClaims(w, w', id);
    CancelRemovalKeepsHands(w, w', id);
  }

  lemma CancelRemovalKeepsHands(w: World, w': World, id: TaskId)
    requires Winners(w) && Kept(w) && Removes(w.s.queue, id, w'.s.queue) && id !in w.s.removed
    requires w'.s.pcs == w.s.pcs && w'.s.cancelling == w.s.cancelling + {id}
    requires w'.s.removed == w.s.removed + [id] && w'.s.storing == w.s.storing && w'.missed == w.missed
    requires (forall x :: Open(w', x) <==> Open(w, x)) && forall x :: Won(w', x) <==> Won(w, x)
    ensures Winners(w') && Kept(w')
  {
    hide WellFormed, Open, Won;
  }

  lemma SameWinners(w: World, w': World)
    requires w'.s.pcs == w.s.pcs
    ensures forall id :: Won(w', id) <==> Won(w, id)
  {
  }

  lemma SameOpen(w: World, w': World)
    requires w'.s.tasks == w.s.tasks && w'.importing == w.importing
    ensures forall id :: Open(w', id) <==> Open(w, id)
  {
  }

  // The winner of a removal commits, or has looked in vain.
  lemma CommitKeepsInv(w: World, w': World, d: D.Dispatcher, t: Task, pc: D.Pc)
    requires Inv(w) && d in w.s.pcs && w.s.pcs[d].Dequeued? && !pc.Dequeued?
    requires t.id == w.s.pcs[d].task && t.id in w.s.tasks && !t.status.Pending?
    requires w' == w.(s := w.s.(tasks := w.s.tasks[t.id := t], pcs := w.s.pcs[d := pc]))
    ensures Inv(w')
  {
    hide WellFormed, D.NoRepeats, Open, Won, D.PendingIn;
    NotQueued(w, t.id);
    NoLongerOpen(w, w', t);
    WinnerLeaves(w, w', d, t.id);
    forall e | e in w.s.pcs && e != d && w.s.pcs[e].Dequeued? ensures w.s.pcs[e].task != t.id {
      assert IsWinner(w.s.pcs[e], w.s.pcs[e].task) && IsWinner(w.s.pcs[d], t.id);
    }
  }

  lemma NoLongerOpen(w: World, w': World, t: Task)
    requires w'.s.tasks == w.s.tasks[t.id := t] && w'.importing == w.importing && t.id !in w.importing && !t.status.Pending?
    ensures forall x :: Open(w', x) <==> Open(w, x) && x != t.id
    ensures forall x :: D.PendingIn(w'.s.tasks, x) <==> D.PendingIn(w.s.tasks, x) && x != t.id
  {
  }

  lemma WinnerLeaves(w: World, w': World, d: D.Dispatcher, id: TaskId)
    requires d in w.s.pcs && IsWinner(w.s.pcs[d], id) && w'.s.pcs.Keys == w.s.pcs.Keys && !w'.s.pcs[d].Dequeued?
    requires forall e | e in w.s.pcs && e != d :: w'.s.pcs[e] == w.s.pcs[e]
    ensures forall x | Won(w, x) && x != id :: Won(w', x)
  {
    forall x | Won(w, x) && x != id ensures Won(w', x) {
      var e :| e in w.s.pcs && IsWinner(w.s.pcs[e], x);
      assert IsWinner(w'.s.pcs[e], x);
    }
  }

  lemma MissKeepsInv(w: World, w': World, d: D.Dispatcher, id: TaskId)
    requires Inv(w) && d in w.s.pcs && IsWinner(w.s.pcs[d], id)
    requires w' == w.(s := w.s.(pcs := w.s.pcs[d := D.Idle]), missed := w.missed + {id})
    ensures Inv(w')
  {
    hide WellFormed, D.NoRepeats, D.PendingIn;
    forall x | Won(w, x) && x != id ensures Won(w', x) {
      var e :| e in w.s.pcs && IsWinner(w.s.pcs[e], x);
      assert IsWinner(w'.s.pcs[e], x);
    }
  }

  lemma CancelMissKeepsInv(w: World, id: TaskId)
    requires Inv(w) && Enabled(w, CancelMisses(id))
    ensures Inv(Do(w, CancelMisses(id)))
  {
    hide WellFormed, D.NoRepeats;
    assert Do(w, CancelMisses(id)).s.pcs == w.s.pcs;
  }

  // A new task is stored, and is to be enqueued.
  lemma StoreKeepsInv(w: World, w': World, t: Task)
    requires Inv(w) && t.id !in w.s.tasks && t.id !in w.importing && t.status.Pending?
    requires w' == w.(s := w.s.(tasks := w.s.tasks[t.id := t], storing := w.s.storing + {t.id}))
    ensures Inv(w')
  {
    hide WellFormed, D.NoRepeats, Open, Won, D.PendingIn;
    IsFresh(w, t.id);
    NotQueued(w, t.id);
    SameWinners(w, w');
    NewlyOpen(w, w', t);
  }

  lemma NewlyOpen(w: World, w': World, t: Task)
    requires w'.s.tasks == w.s.tasks[t.id := t] && w'.importing == w.importing && t.id !in w.s.tasks && t.status.Pending?
    ensures forall x :: Open(w', x) <==> Open(w, x) || x == t.id
    ensures forall x :: D.PendingIn(w'.s.tasks, x) <==> D.PendingIn(w.s.tasks, x) || x == t.id
  {
  }

  // What an enqueue does to the queue.
  ghost predicate Adds(q: Queue, id: TaskId, q': Queue) {
    WellFormed(q') && q'.index.Keys == q.index.Keys + {id}
  }

  lemma EnqueueKeepsInv(w: World, w': World, id: TaskId, q: Queue)
    requires Inv(w) && id in w.s.storing && Adds(w.s.queue, id, q)
    requires w' == w.(s := w.s.(queue := q, storing := w.s.storing - {id}))
    ensures Inv(w')
  {
    hide WellFormed, D.NoRepeats;
    assert w'.s.pcs == w.s.pcs;
  }

  lemma ImportEnqueueKeepsInv(w: World, w': World, t: Task, q: Queue)
    requires Inv(w) && t.id !in w.s.tasks && t.id !in w.importing && t.status.Pending? && Adds(w.s.queue, t.id, q)
    requires w' == w.(s := w.s.(queue := q), importing := w.importing[t.id := t])
    ensures Inv(w')
  {
    hide Logged, Claims, Winners, Kept, Won, Adds;
    IsFresh(w, t.id);
    SameWinners(w, w');
    ImportEnqueueKeepsLog(w, w', t);
    ImportEnqueueKeepsClaims(w, w', t);
    ImportEnqueueKeepsHands(w, w', t);
  }

  lemma ImportEnqueueKeepsLog(w: World, w': World, t: Task)
    requires Logged(w) && Adds(w.s.queue, t.id, w'.s.queue) && t.id !in w.s.removed
    requires w'.s == w.s.(queue := w'.s.queue) && w'.importing == w.importing[t.id := t]
    ensures Logged(w')
  {
    hide WellFormed, D.NoRepeats;
  }

  lemma ImportEnqueueKeepsClaims(w: World, w': World, t: Task)
    requires Claims(w) && Adds(w.s.queue, t.id, w'.s.queue) && t.id !in w.s.tasks && t.id !in w.s.storing && t.status.Pending?
    requires w'.s == w.s.(queue := w'.s.queue) && w'.importing == w.importing[t.id := t] && w'.missed == w.missed
    ensures Claims(w')
  {
    hide WellFormed, D.PendingIn;
  }

  lemma ImportEnqueueKeepsHands(w: World, w': World, t: Task)
    requires Winners(w) && Kept(w) && Adds(w.s.queue, t.id, w'.s.queue) && forall x :: Won(w', x) <==> Won(w, x)
    requires w'.s == w.s.(queue := w'.s.queue) && w'.importing == w.importing[t.id := t] && w'.missed == w.missed
    ensures Winners(w') && Kept(w')
  {
    hide WellFormed, D.PendingIn, Won;
  }

  // An id that is neither stored nor being imported has never been seen.
  lemma IsFresh(w: World, id: TaskId)
    requires Inv(w) && id !in w.s.tasks && id !in w.importing
    ensures !Open(w, id) && id !in w.s.removed && id !in w.s.storing && id !in w.s.cancelling && id !in w.missed
  {
  }

  lemma ImportStoreKeepsInv(w: World, w': World, t: Task)
    requires Inv(w) && t.id in w.importing && t == w.importing[t.id]
    requires w' == w.(s := w.s.(tasks := w.s.tasks[t.id := t]), importing := w.importing - {t.id})
    ensures Inv(w')
  {
    StoredWhileImporting(w, w', t);
    hide Logged, Claims, Winners, Kept, Won, Open, D.PendingIn;
    SameWinners(w, w');
    ImportStoreKeepsLog(w, w', t);
    ImportStoreKeepsClaims(w, w', t);
    ImportStoreKeepsHands(w, w', t);
  }

  lemma ImportStoreKeepsLog(w: World, w': World, t: Task)
    requires Logged(w) && w'.s == w.s.(tasks := w.s.tasks[t.id := t]) && w'.importing == w.importing - {t.id}
    ensures Logged(w')
  {
    hide WellFormed, D.NoRepeats;
  }

  lemma ImportStoreKeepsClaims(w: World, w': World, t: Task)
    requires Claims(w) && t.id in w.importing && t == w.importing[t.id] && w'.missed == w.missed
    requires w'.s == w.s.(tasks := w.s.tasks[t.id := t]) && w'.importing == w.importing - {t.id}
    requires (forall x :: Open(w', x) <==> Open(w, x))
          && forall x | x != t.id :: D.PendingIn(w'.s.tasks, x) <==> D.PendingIn(w.s.tasks, x)
    ensures Claims(w')
  {
    hide WellFormed, Open, D.PendingIn;
  }

  lemma ImportStoreKeepsHands(w: World, w': World, t: Task)
    requires Winners(w) && Kept(w) && w'.s == w.s.(tasks := w.s.tasks[t.id := t]) && w'.missed == w.missed
    requires (forall x :: Open(w', x) <==> Open(w, x)) && forall x :: Won(w', x) <==> Won(w, x)
    ensures Winners(w') && Kept(w')
  {
    hide Open, Won;
  }

  lemma StoredWhileImporting(w: World, w': World, t: Task)
    requires Claims(w) && t.id in w.importing && t == w.importing[t.id]
    requires w' == w.(s := w.s.(tasks := w.s.tasks[t.id := t]), importing := w.importing - {t.id})
    ensures forall x :: Open(w', x) <==> Open(w, x)
    ensures forall x | x != t.id :: D.PendingIn(w'.s.tasks, x) <==> D.PendingIn(w.s.tasks, x)
  {
  }

  // A task that is no longer pending, or is being cancelled, changes its status.
  lemma RestatusKeepsInv(w: World, w': World, t: Task)
    requires Inv(w) && t.id in w.s.tasks && !t.status.Pending?
    requires !w.s.tasks[t.id].status.Pending? || t.id in w.s.cancelling
    requires w' == w.(s := w.s.(tasks := w.s.tasks[t.id := t], cancelling := w.s.cancelling - {t.id}))
    ensures Inv(w')
  {
    hide WellFormed, D.NoRepeats, Open, Won, D.PendingIn;
    NobodyElse(w, t.id);
    SameWinners(w, w');
    NoLongerOpen(w, w', t);
  }

  // Apart from a cancellation nobody is about to touch such a task.
  lemma NobodyElse(w: World, id: TaskId)
    requires Inv(w) && id in w.s.tasks && (!w.s.tasks[id].status.Pending? || id in w.s.cancelling)
    ensures id !in w.importing && id !in w.s.queue.index && id !in w.s.storing && id !in w.missed && !Won(w, id)
    ensures forall d | d in w.s.pcs && w.s.pcs[d].Dequeued? :: w.s.pcs[d].task != id
  {
    hide WellFormed, D.NoRepeats;
  }

  // ---- Every step keeps it ----

  lemma RemoveStep(w: World, d: D.Dispatcher)
    requires Inv(w) && D.Enabled(w.s, D.RemoveFromQueue(d))
    ensures Inv(w.(s := D.Do(w.s, D.RemoveFromQueue(d))))
  {
    var s' := D.Do(w.s, D.RemoveFromQueue(d));
    var id := w.s.pcs[d].task;
    QueueIsWellFormed(w);
    RemoveKeepsWellFormed(w.s.queue, id);
    hide Inv, WellFormed;
    if id in w.s.queue.index {
      DequeueKeepsInv(w, w.(s := s'), d, id, w.s.pcs[d].agent, s'.queue);
    } else {
      MoveKeepsInv(w, s', d, D.Idle);
    }
  }

  lemma CancelStep(w: World, id: TaskId)
    requires Inv(w)
    ensures Inv(w.(s := D.Do(w.s, D.CancelRemoves(id))))
  {
    var s' := D.Do(w.s, D.CancelRemoves(id));
    QueueIsWellFormed(w);
    RemoveKeepsWellFormed(w.s.queue, id);
    hide Inv, WellFormed;
    if id in w.s.queue.index {
      CancelRemovalKeepsInv(w, w.(s := s'), id, s'.queue);
    }
  }

  lemma QueueIsWellFormed(w: World)
    requires Inv(w)
    ensures WellFormed(w.s.queue)
  {
  }

  lemma CommitStep(w: World, d: D.Dispatcher, now: Timestamp)
    requires Inv(w) && D.Enabled(w.s, D.CommitTask(d, now))
    ensures Inv(Do(w, Inner(D.CommitTask(d, now))))
  {
    var a := D.CommitTask(d, now);
    var (id, agent) := (w.s.pcs[d].task, w.s.pcs[d].agent);
    WinnerFindsIff(w, d, now);
    hide Inv;
    if id in w.s.tasks {
      var t := w.s.tasks[id].Schedule(agent, now).value;
      CommitKeepsInv(w, Do(w, Inner(a)), d, t, D.Committing(id, agent));
    } else {
      MissKeepsInv(w, Do(w, Inner(a)), d, id);
    }
  }

  // The winner of a removal commits exactly when its task has been stored.
  lemma WinnerFindsIff(w: World, d: D.Dispatcher, now: Timestamp)
    requires Inv(w) && D.Enabled(w.s, D.CommitTask(d, now))
    ensures D.Commits(w.s, d, now) <==> w.s.pcs[d].task in w.s.tasks
    ensures w.s.pcs[d].task in w.s.tasks ==> w.s.tasks[w.s.pcs[d].task].id == w.s.pcs[d].task
  {
    hide WellFormed, D.NoRepeats;
  }

  lemma SubmissionStep(w: World, a: D.Action)
    requires Inv(w) && Enabled(w, Inner(a)) && (a.StoreSubmission? || a.EnqueueSubmission?)
    ensures Inv(Do(w, Inner(a)))
  {
    if a.StoreSubmission? {
      hide Inv;
      StoreKeepsInv(w, Do(w, Inner(a)), a.task);
    } else {
      StoringIsPending(w, a.id);
      D.EnqueueAddsKey(w.s.queue, w.s.tasks[a.id], a.now);
      hide Inv, Queue.Enqueue;
      EnqueueKeepsInv(w, Do(w, Inner(a)), a.id, D.Do(w.s, a).queue);
    }
  }

  lemma StoringIsPending(w: World, id: TaskId)
    requires Inv(w) && id in w.s.storing
    ensures WellFormed(w.s.queue) && D.PendingIn(w.s.tasks, id) && id !in w.s.queue.index
  {
    hide WellFormed;
  }

  lemma ImportStep(w: World, e: Event)
    requires Inv(w) && Enabled(w, e) && (e.ImportEnqueues? || e.ImportStores?)
    ensures Inv(Do(w, e))
  {
    if e.ImportEnqueues? {
      QueueIsWellFormed(w);
      NotQueued(w, e.task.id);
      D.EnqueueAddsKey(w.s.queue, e.task, e.now);
      hide Inv, Queue.Enqueue;
      ImportEnqueueKeepsInv(w, Do(w, e), e.task, Do(w, e).s.queue);
    } else {
      NotQueued(w, e.id);
      hide Inv;
      ImportStoreKeepsInv(w, Do(w, e), w.importing[e.id]);
    }
  }

  lemma NotQueued(w: World, id: TaskId)
    requires Inv(w)
    ensures id !in w.s.tasks && id !in w.importing ==> id !in w.s.queue.index
    ensures id in w.importing ==> w.importing[id].id == id
    ensures id in w.s.tasks ==> w.s.tasks[id].id == id && id !in w.importing
  {
    hide WellFormed;
  }

  lemma RestatusStep(w: World, a: D.Action)
    requires Inv(w) && Enabled(w, Inner(a)) && (a.CancelCommits? || a.Start? || a.Finish?)
    ensures Inv(Do(w, Inner(a)))
  {
    NotQueued(w, a.id);
    if !a.CancelCommits? {
      HeldIsNotCancelled(w, a.id);
    }
    hide Inv;
    var w' := Do(w, Inner(a));
    assert w'.s.cancelling == w.s.cancelling - {a.id};
    RestatusKeepsInv(w, w', w'.s.tasks[a.id]);
  }

  lemma HeldIsNotCancelled(w: World, id: TaskId)
    requires Inv(w) && id in w.s.tasks && !w.s.tasks[id].status.Pending?
    ensures id !in w.s.cancelling
  {
    hide WellFormed;
  }

  lemma MoveStep(w: World, a: D.Action)
    requires Inv(w) && D.Enabled(w.s, a) && MovesOnly(a)
    ensures Inv(w.(s := D.Do(w.s, a)))
  {
    hide Inv, O.InFlight, BestChoice, Queue.Peek;
    var s' := D.Do(w.s, a);
    if s' != w.s {
      MoveKeepsInv(w, s', a.d, s'.pcs[a.d]);
    }
  }

  lemma AgentsDoNotMatter(w: World, agents: Agents)
    requires Inv(w)
    ensures Inv(w.(s := w.s.(agents := agents)))
  {
    var w' := w.(s := w.s.(agents := agents));
    SameWinners(w, w');
    SameOpen(w, w');
    hide WellFormed, D.NoRepeats, Open, Won;
  }

  lemma StepKeepsInv(w: World, e: Event)
    requires Inv(w) && Enabled(w, e)
    ensures Inv(Do(w, e))
  {
    hide Inv, D.Do, D.Enabled;
    match e {
      case CancelMisses(id) => CancelMissKeepsInv(w, id);
      case ImportEnqueues(_, _) => ImportStep(w, e);
      case ImportStores(_) => ImportStep(w, e);
      case Inner(a) =>
        if MovesOnly(a) {
          MoveStep(w, a);
        } else {
          OtherInnerStep(w, a);
        }
    }
  }

  lemma OtherInnerStep(w: World, a: D.Action)
    requires Inv(w) && Enabled(w, Inner(a)) && !MovesOnly(a)
    ensures Inv(Do(w, Inner(a)))
  {
    hide Inv, WellFormed;
    match a {
      case RemoveFromQueue(d) => RemoveStep(w, d);
      case CommitTask(d, now) => CommitStep(w, d, now);
      case StoreSubmission(_) => SubmissionStep(w, a);
      case EnqueueSubmission(_, _) => SubmissionStep(w, a);
      case CancelRemoves(id) => CancelStep(w, id);
      case CancelCommits(_, _) => RestatusStep(w, a);
      case Start(_, _) => RestatusStep(w, a);
      case Finish(_, _) => RestatusStep(w, a);
      case ChangeAgents(agents) => AgentsDoNotMatter(w, agents);
    }
  }

  lemma {:induction false} RunKeepsInv(w: World, events: seq<Event>)
    requires Inv(w) && Runs(w, events)
    ensures Inv(After(w, events))
    decreases |events|
  {
    hide Inv, Do, Enabled;
    if events != [] {
      StepKeepsInv(w, events[0]);
      RunKeepsInv(Do(w, events[0]), events[1..]);
    }
  }

  // ---- Main results ----

  function Fresh(k: nat, maxConcurrent: nat): World {
    World(D.Fresh(k, maxConcurrent), map[], {})
  }

  lemma FreshInv(k: nat, maxConcurrent: nat)
    ensures Inv(Fresh(k, maxConcurrent))
  {
  }

  lemma InnerKeepsBounded(s: D.System, a: D.Action)
    requires D.Bounded(s) && D.Enabled(s, a)
    ensures D.Bounded(D.Do(s, a))
  {
    hide Queue.Peek, Queue.Remove, Queue.Enqueue, BestChoice, D.Respects, O.InFlight, D.Armed;
    var s' := D.Do(s, a);
    match a {
      case StoreSubmission(task) => D.InFlightUpdate(s.tasks, task.id, task);
      case CancelCommits(id, _) => TaskKeepsBounded(s, s', id);
      case Start(id, _) => TaskKeepsBounded(s, s', id);
      case Finish(id, _) => TaskKeepsBounded(s, s', id);
      case CommitTask(d, now) => CommitKeepsBounded(s, d, now);
      case EnqueueSubmission(_, _) =>
      case CancelRemoves(_) =>
      case ChangeAgents(_) =>
      case _ =>
        assert s'.pcs == s.pcs[a.d := s'.pcs[a.d]];
        MoveKeepsBounded(s, s', a.d);
    }
  }

  lemma TaskKeepsBounded(s: D.System, s': D.System, id: TaskId)
    requires D.Bounded(s) && id in s.tasks && id in s'.tasks && s'.tasks == s.tasks[id := s'.tasks[id]]
    requires s'.pcs == s.pcs && s'.maxConcurrent == s.maxConcurrent
    requires s'.tasks[id].status.Holder().Some? ==> s.tasks[id].status.Holder().Some?
    ensures D.Bounded(s')
  {
    D.InFlightUpdate(s.tasks, id, s'.tasks[id]);
    assert s'.tasks[id].status.Holder().Some? ==> id in O.InFlight(s.tasks);
  }

  lemma CommitKeepsBounded(s: D.System, d: D.Dispatcher, now: Timestamp)
    requires D.Bounded(s) && D.Enabled(s, D.CommitTask(d, now))
    ensures D.Bounded(D.Do(s, D.CommitTask(d, now)))
  {
    hide O.InFlight, D.Armed;
    var s' := D.Do(s, D.CommitTask(d, now));
    D.DequeuedIsArmed(s.pcs, d);
    D.ArmedUpdate(s.pcs, d, s'.pcs[d]);
    if D.Commits(s, d, now) {
      D.InFlightUpdate(s.tasks, s.pcs[d].task, s'.tasks[s.pcs[d].task]);
    }
  }

  lemma MoveKeepsBounded(s: D.System, s': D.System, d: D.Dispatcher)
    requires D.Bounded(s) && d in s.pcs && d in s'.pcs && s'.pcs == s.pcs[d := s'.pcs[d]]
    requires s'.tasks == s.tasks && s'.maxConcurrent == s.maxConcurrent
    requires s'.pcs[d].IsArmed() ==> s.pcs[d].IsArmed() || |O.InFlight(s.tasks)| < s.maxConcurrent
    ensures D.Bounded(s')
  {
    hide O.InFlight;
    D.ArmedUpdate(s.pcs, d, s'.pcs[d]);
    D.ArmedAtMostAll(s'.pcs);
    assert s.pcs[d].IsArmed() ==> d in D.Armed(s.pcs);
  }

  lemma StepKeepsBounded(w: World, e: Event)
    requires D.Bounded(w.s) && Enabled(w, e) && (e.ImportStores? ==> w.importing[e.id].status.Pending?)
    ensures D.Bounded(Do(w, e).s) && Do(w, e).s.maxConcurrent == w.s.maxConcurrent && Do(w, e).s.pcs.Keys == w.s.pcs.Keys
  {
    hide D.Do, D.Enabled, O.InFlight, D.Armed, Queue.Enqueue;
    match e {
      case Inner(a) =>
        InnerKeepsBounded(w.s, a);
        D.DoKeepsLimits(w.s, a);
      case ImportStores(id) => D.InFlightUpdate(w.s.tasks, id, w.importing[id]);
      case _ =>
    }
  }

  lemma {:induction false} RunKeepsBounded(w: World, events: seq<Event>)
    requires Inv(w) && D.Bounded(w.s) && Runs(w, events)
    ensures D.Bounded(After(w, events).s)
    ensures After(w, events).s.maxConcurrent == w.s.maxConcurrent && After(w, events).s.pcs.Keys == w.s.pcs.Keys
    decreases |events|
  {
    hide Inv, D.Bounded, Do, Enabled;
    if events != [] {
      ImportingIsPending(w, events[0]);
      StepKeepsInv(w, events[0]);
      StepKeepsBounded(w, events[0]);
      RunKeepsBounded(Do(w, events[0]), events[1..]);
    }
  }

  lemma ImportingIsPending(w: World, e: Event)
    requires Inv(w) && Enabled(w, e)
    ensures e.ImportStores? ==> w.importing[e.id].status.Pending?
  {
    hide WellFormed, D.NoRepeats;
  }

  // What holds of dispatchers without imports holds with them: the concurrency bound, and one won
  // removal per task; and a winner commits exactly when its task has been stored.
  lemma BoundsSurviveImports(k: nat, maxConcurrent: nat, events: seq<Event>)
    requires k >= 1 && Runs(Fresh(k, maxConcurrent), events)
    ensures var s := After(Fresh(k, maxConcurrent), events).s;
            && |O.InFlight(s.tasks)| <= maxConcurrent + k - 1
            && D.NoRepeats(s.removed)
            && forall d, now | D.Enabled(s, D.CommitTask(d, now)) :: D.Commits(s, d, now) <==> s.pcs[d].task in s.tasks
  {
    var w := Fresh(k, maxConcurrent);
    FreshInv(k, maxConcurrent);
    D.FreshInv(k, maxConcurrent);
    hide Runs, After;
    RunKeepsInv(w, events);
    RunKeepsBounded(w, events);
    var w' := After(w, events);
    forall d, now | D.Enabled(w'.s, D.CommitTask(d, now))
      ensures D.Commits(w'.s, d, now) <==> w'.s.pcs[d].task in w'.s.tasks
    {
      WinnerFindsIff(w', d, now);
    }
  }

  lemma StepKeepsExclusive(w: World, e: Event)
    requires Inv(w) && A.Exclusive(w.s) && Enabled(w, e)
    ensures A.Exclusive(Do(w, e).s)
  {
    hide A.Exclusive, D.Do, D.Enabled, Queue.Enqueue;
    match e {
      case Inner(a) => A.StepKeepsExclusive(w.s, a);
      case _ =>
        ImportingIsPending(w, e);
        hide Inv;
        A.RestatusKeepsExclusive(w.s, Do(w, e).s);
    }
  }

  lemma {:induction false} RunKeepsExclusive(w: World, events: seq<Event>)
    requires Inv(w) && A.Exclusive(w.s) && Runs(w, events)
    ensures A.Exclusive(After(w, events).s)
    decreases |events|
  {
    hide Inv, A.Exclusive, Do, Enabled;
    if events != [] {
      StepKeepsInv(w, events[0]);
      StepKeepsExclusive(w, events[0]);
      RunKeepsExclusive(Do(w, events[0]), events[1..]);
    }
  }

  // Nor does an import make a single dispatcher book an agent twice.
  lemma SingleBookingSurvivesImports(k: nat, maxConcurrent: nat, events: seq<Event>)
    requires (k <= 1 || maxConcurrent == 0) && Runs(Fresh(k, maxConcurrent), events)
    ensures D.HeldOnce(After(Fresh(k, maxConcurrent), events).s.tasks)
  {
    var w := Fresh(k, maxConcurrent);
    FreshInv(k, maxConcurrent);
    assert A.Exclusive(w.s);
    hide Inv, Runs, After;
    RunKeepsExclusive(w, events);
  }

  // Pending in the task map, but neither queued nor in the hands of anybody who will enqueue, cancel
  // or commit it.
  ghost predicate Abandoned(w: World, id: TaskId) {
    && D.PendingIn(w.s.tasks, id)
    && id !in w.s.queue.index && id !in w.s.storing && id !in w.s.cancelling && !Won(w, id)
  }

  lemma InvTellsAbandoned(w: World, id: TaskId)
    requires Inv(w)
    ensures Abandoned(w, id) <==> id in w.missed && id in w.s.tasks
  {
    hide WellFormed, D.NoRepeats;
  }

  // After any run the abandoned tasks are those that were imported and that the winner of their
  // removal, a dispatcher or a cancellation, looked up between the two steps of the import.
  lemma AbandonedIff(k: nat, maxConcurrent: nat, events: seq<Event>, id: TaskId)
    requires Runs(Fresh(k, maxConcurrent), events)
    ensures var w := After(Fresh(k, maxConcurrent), events); Abandoned(w, id) <==> id in w.missed && id in w.s.tasks
  {
    FreshInv(k, maxConcurrent);
    hide Inv, Runs, After;
    RunKeepsInv(Fresh(k, maxConcurrent), events);
    InvTellsAbandoned(After(Fresh(k, maxConcurrent), events), id);
  }

  // So when all imports are done, no task has been lost exactly when nobody looked one up in vain.
  lemma NoTaskIsLostIff(k: nat, maxConcurrent: nat, events: seq<Event>)
    requires Runs(Fresh(k, maxConcurrent), events) && After(Fresh(k, maxConcurrent), events).importing == map[]
    ensures var w := After(Fresh(k, maxConcurrent), events);
            (forall id :: !Abandoned(w, id)) <==> w.missed == {}
  {
    FreshInv(k, maxConcurrent);
    RunKeepsInv(Fresh(k, maxConcurrent), events);
    var w := After(Fresh(k, maxConcurrent), events);
    forall id | id in w.missed ensures id in w.s.tasks {
      assert Open(w, id);
    }
    hide Inv, Runs, After, Abandoned;
    forall id ensures Abandoned(w, id) <==> id in w.missed {
      AbandonedIff(k, maxConcurrent, events, id);
    }
  }

  // A task is looked up in vain by exactly those steps in which the winner of its removal, a dispatcher
  // that is to commit it or a cancellation, looks it up before it is stored.
  lemma MissedIff(w: World, e: Event, id: TaskId)
    requires Enabled(w, e)
    ensures id in Do(w, e).missed <==>
              || id in w.missed
              || (id !in w.s.tasks && match e
                                      case Inner(CommitTask(d, _)) => d in w.s.pcs && w.s.pcs[d].Dequeued? && w.s.pcs[d].task == id
                                      case CancelMisses(x) => x == id
                                      case _ => false)
  {
    hide D.Do;
  }

  lemma StepSparesAbandoned(w: World, e: Event, id: TaskId)
    requires Inv(w) && Abandoned(w, id) && Enabled(w, e)
    ensures id in Do(w, e).s.tasks && Do(w, e).s.tasks[id] == w.s.tasks[id] && w.missed <= Do(w, e).missed
  {
    NotImporting(w, id);
    hide Inv, D.Do, D.Enabled;
    match e {
      case Inner(a) => InnerSparesTask(w, a, id);
      case _ =>
    }
  }

  lemma InnerSparesTask(w: World, a: D.Action, id: TaskId)
    requires Abandoned(w, id) && D.Enabled(w.s, a)
    ensures id in D.Do(w.s, a).tasks && D.Do(w.s, a).tasks[id] == w.s.tasks[id]
  {
    hide Queue.Peek, Queue.Remove, Queue.Enqueue, BestChoice, O.InFlight, D.Respects;
    if a.CommitTask? {
      assert !IsWinner(w.s.pcs[a.d], id);
    }
  }

  lemma NotImporting(w: World, id: TaskId)
    requires Inv(w) && id in w.s.tasks
    ensures id !in w.importing && w.s.tasks[id].id == id
    ensures forall x | x in w.importing :: w.importing[x].id == x
  {
    hide WellFormed, D.NoRepeats;
  }

  // An abandoned task stays as it is for ever: pending, and never queued again.
  lemma {:induction false} AbandonedForGood(w: World, events: seq<Event>, id: TaskId)
    requires Inv(w) && Abandoned(w, id) && Runs(w, events)
    ensures Abandoned(After(w, events), id) && After(w, events).s.tasks[id] == w.s.tasks[id]
    decreases |events|
  {
    hide Inv, Abandoned, Do, Enabled;
    InvTellsAbandoned(w, id);
    if events != [] {
      StepKeepsInv(w, events[0]);
      StepSparesAbandoned(w, events[0], id);
      InvTellsAbandoned(Do(w, events[0]), id);
      AbandonedForGood(Do(w, events[0]), events[1..], id);
    }
  }

  // ---- Instances ----

  function InnerEvents(actions: seq<D.Action>): seq<Event> {
    if actions == [] then [] else [Inner(actions[0])] + InnerEvents(actions[1..])
  }

  lemma {:induction false} Lift(w: World, actions: seq<D.Action>)
    requires D.Runs(w.s, actions) && forall a | a in actions :: !a.StoreSubmission? && !a.CommitTask?
    ensures Runs(w, InnerEvents(actions)) && After(w, InnerEvents(actions)) == w.(s := D.After(w.s, actions))
    decreases |actions|
  {
    hide D.Do, D.Enabled;
    if actions != [] {
      assert actions[0] in actions && forall a | a in actions[1..] :: a in actions;
      assert InnerEvents(actions)[1..] == InnerEvents(actions[1..]);
      assert Do(w, Inner(actions[0])) == w.(s := D.Do(w.s, actions[0]));
      Lift(Do(w, Inner(actions[0])), actions[1..]);
    }
  }

  lemma {:induction false} RunsAppend(w: World, xs: seq<Event>, ys: seq<Event>)
    requires Runs(w, xs) && Runs(After(w, xs), ys)
    ensures Runs(w, xs + ys) && After(w, xs + ys) == After(After(w, xs), ys)
    decreases |xs|
  {
    hide Do, Enabled;
    if xs == [] {
      assert xs + ys == ys;
    } else {
      assert (xs + ys)[1..] == xs[1..] + ys;
      RunsAppend(Do(w, xs[0]), xs[1..], ys);
    }
  }

  lemma OneStep(w: World, e: Event)
    requires Enabled(w, e)
    ensures Runs(w, [e]) && After(w, [e]) == Do(w, e)
  {
    hide Do, Enabled;
    assert [e][1..] == [];
  }

  lemma OneMore(w: World, events: seq<Event>, e: Event)
    requires Runs(w, events) && Enabled(After(w, events), e)
    ensures Runs(w, events + [e]) && After(w, events + [e]) == Do(After(w, events), e)
  {
    hide Do, Enabled;
    OneStep(After(w, events), e);
    RunsAppend(w, events, [e]);
  }

  // A cancellation that comes between the two steps succeeds, and the task is stored pending after it.
  lemma CancellationCanAbandon(k: nat, maxConcurrent: nat, t: Task) returns (events: seq<Event>)
    requires t.status.Pending?
    ensures Runs(Fresh(k, maxConcurrent), events) && Abandoned(After(Fresh(k, maxConcurrent), events), t.id)
  {
    var w := Fresh(k, maxConcurrent);
    FreshInv(k, maxConcurrent);
    EnqueueAlone(t);
    hide Runs, After, Inv, Abandoned, Queue.Enqueue, Queue.Remove, WellFormed;
    OneStep(w, ImportEnqueues(t, 0));
    events := [ImportEnqueues(t, 0)];
    OneMore(w, events, Inner(D.CancelRemoves(t.id)));
    events := events + [Inner(D.CancelRemoves(t.id))];
    OneMore(w, events, CancelMisses(t.id));
    events := events + [CancelMisses(t.id)];
    OneMore(w, events, ImportStores(t.id));
    events := events + [ImportStores(t.id)];
    RunKeepsInv(w, events);
    InvTellsAbandoned(After(w, events), t.id);
  }

  lemma EnqueueAlone(t: Task)
    requires t.status.Pending?
    ensures var q := EMPTY_QUEUE.Enqueue(t, 0).0;
            && q.Peek() == Some(t) && q.Remove(t.id).1.Ok? && t.id in q.index
  {
    var q := EMPTY_QUEUE.Enqueue(t, 0).0;
    var key := EMPTY_QUEUE.KeyFor(t, 0);
    assert q.queue.Keys == {key};
    LeastIs({key}, key);
  }

  // An idle dispatcher, one ready agent, and one task between the two steps of its import.
  ghost predicate Poised(w: World, t: Task, d: D.Dispatcher, agent: AgentId) {
    && d in w.s.pcs && w.s.pcs[d].Idle? && w.s.tasks == map[] && w.importing == map[t.id := t] && w.s.maxConcurrent >= 1
    && w.s.queue.Peek() == Some(t) && w.s.queue.Remove(t.id).1.Ok?
    && BestChoice(w.s.agents, t, Assigned(t.id, agent))
  }

  lemma GetsPoised(k: nat, maxConcurrent: nat) returns (events: seq<Event>)
    requires k >= 1 && maxConcurrent >= 1
    ensures Runs(Fresh(k, maxConcurrent), events)
    ensures Poised(After(Fresh(k, maxConcurrent), events), NthTask(0), 0, AgentId(0))
  {
    hide Runs, After, Queue.Enqueue, Queue.Remove, Queue.Peek, BestChoice, Hire, D.Respects;
    var t := NthTask(0);
    var w := Fresh(k, maxConcurrent);
    EnqueueAlone(t);
    Staffed(w);
    OneStep(w, Inner(D.ChangeAgents(Hire(map[], 0))));
    events := [Inner(D.ChangeAgents(Hire(map[], 0)))];
    OneMore(w, events, ImportEnqueues(t, 0));
    events := events + [ImportEnqueues(t, 0)];
  }

  lemma Reserves(w: World, t: Task, d: D.Dispatcher, agent: AgentId) returns (events: seq<Event>)
    requires Poised(w, t, d, agent)
    ensures Runs(w, events) && After(w, events) == w.(s := D.Reserved(w.s, d, t.id, agent))
  {
    assert O.InFlight(w.s.tasks) == {};
    hide Runs, After, D.Runs, D.After, Queue.Remove, Queue.Peek, BestChoice, D.Reservation;
    D.CanReserve(w.s, d, t, agent);
    ReservationLifts(w, d, agent);
    events := InnerEvents(D.Reservation(d, agent));
  }

  lemma LooksUpThenStored(w: World, t: Task, d: D.Dispatcher) returns (events: seq<Event>)
    requires d in w.s.pcs && IsWinner(w.s.pcs[d], t.id) && w.s.tasks == map[] && t.id in w.importing
    ensures Runs(w, events) && t.id in After(w, events).missed && t.id in After(w, events).s.tasks
  {
    hide Runs, After;
    OneStep(w, Inner(D.CommitTask(d, 0)));
    events := [Inner(D.CommitTask(d, 0))];
    OneMore(w, events, ImportStores(t.id));
    events := events + [ImportStores(t.id)];
  }

  // A dispatcher that wins the removal between the two steps reports the task unknown, and the task is
  // stored pending after it.
  lemma DispatcherCanAbandon(k: nat, maxConcurrent: nat) returns (events: seq<Event>)
    requires k >= 1 && maxConcurrent >= 1
    ensures Runs(Fresh(k, maxConcurrent), events)
    ensures Abandoned(After(Fresh(k, maxConcurrent), events), TaskId(0))
  {
    hide Runs, After, Inv, Abandoned, Fresh, Queue.Remove, Queue.Peek, BestChoice;
    var t := NthTask(0);
    var w := Fresh(k, maxConcurrent);
    var first := GetsPoised(k, maxConcurrent);
    var reserve := Reserves(After(w, first), t, 0, AgentId(0));
    RunsAppend(w, first, reserve);
    var last := LooksUpThenStored(After(w, first + reserve), t, 0);
    RunsAppend(w, first + reserve, last);
    events := first + reserve + last;
    FreshInv(k, maxConcurrent);
    RunKeepsInv(w, events);
    InvTellsAbandoned(After(w, events), t.id);
  }

  lemma ReservationLifts(w: World, d: D.Dispatcher, agent: AgentId)
    requires D.Runs(w.s, D.Reservation(d, agent))
    ensures Runs(w, InnerEvents(D.Reservation(d, agent)))
    ensures After(w, InnerEvents(D.Reservation(d, agent))) == w.(s := D.After(w.s, D.Reservation(d, agent)))
  {
    hide D.Runs, D.After;
    Lift(w, D.Reservation(d, agent));
  }

  // With one agent hired the scheduler can choose it for a plain task, and nobody is in flight.
  lemma Staffed(w: World)
    requires w.s.tasks == map[] && w.s.agents == map[]
    ensures D.Respects(w.s, Hire(map[], 0)) && O.InFlight(w.s.tasks) == {}
    ensures BestChoice(Hire(map[], 0), NthTask(0), Assigned(TaskId(0), AgentId(0)))
  {
    OnlyChoice(map[], Hire(map[], 0), 0, NthTask(0));
  }
}
