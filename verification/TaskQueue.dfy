/** The priority queue (swarm-orchestrator/task_queue.rs): an ordered map from keys to
    entries, an index from task ids to keys, and a sequence counter. */
module TaskQueues {
  import opened Wrappers
  import opened Core
  import opened Tasks

  datatype QueueKey = QueueKey(negPriority: int, at: Timestamp, sequence: nat)

  datatype QueueEntry = QueueEntry(task: Task, enqueuedAt: Timestamp)

  datatype Queue = Queue(queue: map<QueueKey, QueueEntry>, index: map<TaskId, QueueKey>, nextSequence: nat)
  {
    function KeyFor(task: Task, now: Timestamp): QueueKey {
      QueueKey(-task.spec.priority.Rank(), now, nextSequence)
    }

    function Enqueue(task: Task, now: Timestamp): (Queue, Result<(), SwarmError>) {
      if !task.status.Pending? || task.id in index then (this, Err(InvalidTaskSpec))
      else
        var key := KeyFor(task, now);
        (Queue(queue[key := QueueEntry(task, now)], index[task.id := key], nextSequence + 1), Ok(()))
    }

    ghost function Peek(): Option<Task> {
      if queue == map[] then None else Some(queue[Least(queue.Keys)].task)
    }

    ghost function Dequeue(): (Queue, Option<Task>) {
      if queue == map[] then (this, None)
      else
        var key := Least(queue.Keys);
        var task := queue[key].task;
        (this.(queue := queue - {key}, index := index - {task.id}), Some(task))
    }

    function Remove(id: TaskId): (Queue, Result<Task, SwarmError>) {
      if id !in index then (this, Err(TaskNotFound(id)))
      else
        var key := index[id];
        var unindexed := this.(index := index - {id});
        if key !in queue then (unindexed, Err(TaskNotFound(id)))
        else (unindexed.(queue := queue - {key}), Ok(queue[key].task))
    }
  }

  const EMPTY_QUEUE := Queue(map[], map[], 0)

  // The lexicographic order of the ordered map.
  predicate Before(a: QueueKey, b: QueueKey) {
    a.negPriority < b.negPriority
    || (a.negPriority == b.negPriority && (a.at < b.at || (a.at == b.at && a.sequence < b.sequence)))
  }

  // Queue and index are mutual inverses, and every key was made from its entry.
  ghost predicate WellFormed(q: Queue) {
    && (forall id | id in q.index :: q.index[id] in q.queue && q.queue[q.index[id]].task.id == id)
    && (forall k | k in q.queue ::
          && q.queue[k].task.id in q.index
          && q.index[q.queue[k].task.id] == k
          && q.queue[k].task.status.Pending?
          && k.negPriority == -q.queue[k].task.spec.priority.Rank()
          && k.at == q.queue[k].enqueuedAt
          && k.sequence < q.nextSequence)
  }

  // ---- The least key of the ordered map ----

  ghost predicate IsLeast(k: QueueKey, s: set<QueueKey>) {
    k in s && forall x | x in s && x != k :: Before(k, x)
  }

  lemma LeastExists(s: set<QueueKey>)
    requires s != {}
    ensures exists k :: IsLeast(k, s)
  {
    var x :| x in s;
    if s == {x} {
      assert IsLeast(x, s);
    } else {
      LeastExists(s - {x});
      var m :| IsLeast(m, s - {x});
      var least := if Before(m, x) then m else x;
      forall y | y in s && y != least ensures Before(least, y) {
        assert y == x || y in s - {x};
      }
      assert IsLeast(least, s);
    }
  }

  ghost function Least(s: set<QueueKey>): (k: QueueKey)
    requires s != {}
    ensures IsLeast(k, s)
  {
    LeastExists(s);
    var k :| IsLeast(k, s);
    k
  }

  lemma LeastIs(s: set<QueueKey>, k: QueueKey)
    requires IsLeast(k, s)
    ensures Least(s) == k
  {
    assert IsLeast(Least(s), s);
  }

  // ---- Abstraction: the tasks in the order in which the queue yields them ----

  ghost function Drained(s: set<QueueKey>): (ks: seq<QueueKey>)
    ensures |ks| == |s|
    ensures forall k :: k in ks <==> k in s
    decreases |s|
  {
    if s == {} then [] else [Least(s)] + Drained(s - {Least(s)})
  }

  ghost function TasksAt(q: map<QueueKey, QueueEntry>, ks: seq<QueueKey>): (ts: seq<Task>)
    requires forall k | k in ks :: k in q
    ensures |ts| == |ks|
    ensures forall i | 0 <= i < |ts| :: ts[i] == q[ks[i]].task
  {
    if ks == [] then [] else [q[ks[0]].task] + TasksAt(q, ks[1..])
  }

  ghost function Yield(m: map<QueueKey, QueueEntry>): seq<Task> {
    TasksAt(m, Drained(m.Keys))
  }

  ghost function Contents(q: Queue): seq<Task> {
    Yield(q.queue)
  }

  // The specification: push behind every task of at least the same priority.
  function StablePush(ts: seq<Task>, t: Task): seq<Task> {
    if ts == [] || ts[0].spec.priority.Rank() < t.spec.priority.Rank() then [t] + ts
    else [ts[0]] + StablePush(ts[1..], t)
  }

  function Without(ts: seq<Task>, id: TaskId): seq<Task> {
    if ts == [] then []
    else if ts[0].id == id then Without(ts[1..], id)
    else [ts[0]] + Without(ts[1..], id)
  }

  // ---- Every operation keeps the queue well formed ----

  lemma EnqueueKeepsWellFormed(q: Queue, task: Task, now: Timestamp)
    requires WellFormed(q)
    ensures WellFormed(q.Enqueue(task, now).0)
    ensures q.Enqueue(task, now).1.Ok? <==> task.status.Pending? && task.id !in q.index
  {
    assert q.KeyFor(task, now) !in q.queue;
  }

  lemma RemoveKeepsWellFormed(q: Queue, id: TaskId)
    requires WellFormed(q)
    ensures WellFormed(q.Remove(id).0)
    ensures q.Remove(id).1.Ok? <==> id in q.index
    ensures q.Remove(id).1.Ok? ==> q.Remove(id).1.value.id == id && q.Remove(id).0.index.Keys == q.index.Keys - {id}
  {
  }

  lemma DequeueIsRemoveOfPeek(q: Queue)
    requires WellFormed(q)
    ensures q.Peek().None? <==> q.index == map[]
    ensures q.Dequeue().1 == q.Peek()
    ensures q.Peek().Some? ==> q.Dequeue().0 == q.Remove(q.Peek().value.id).0
    ensures WellFormed(q.Dequeue().0)
  {
    assert forall id | id in q.index :: q.index[id] in q.queue;
    if q.queue == map[] {
      assert forall id :: id !in q.index;
    } else {
      assert q.queue[Least(q.queue.Keys)].task.id in q.index;
    }
  }

  // ---- Refinement of the stable priority queue ----

  function InsertKey(ks: seq<QueueKey>, k: QueueKey): seq<QueueKey> {
    if ks == [] || Before(k, ks[0]) then [k] + ks else [ks[0]] + InsertKey(ks[1..], k)
  }

  lemma {:induction false} DrainedInsert(s: set<QueueKey>, k: QueueKey)
    requires k !in s
    ensures Drained(s + {k}) == InsertKey(Drained(s), k)
    decreases |s|
  {
    var all := s + {k};
    var m := Least(all);
    if s == {} {
      assert all - {m} == {};
    } else if m == k {
      assert all - {m} == s;
      assert Before(k, Drained(s)[0]);
    } else {
      LeastIs(s, m);
      assert all - {m} == (s - {m}) + {k};
      DrainedInsert(s - {m}, k);
    }
  }

  lemma {:induction false} DrainedRemove(q: map<QueueKey, QueueEntry>, s: set<QueueKey>, k: QueueKey)
    requires k in s && s <= q.Keys
    requires forall x | x in s :: q[x].task.id == q[k].task.id <==> x == k
    ensures TasksAt(q, Drained(s - {k})) == Without(TasksAt(q, Drained(s)), q[k].task.id)
    decreases |s|
  {
    var m := Least(s);
    if m == k {
      WithoutAbsent(TasksAt(q, Drained(s - {k})), q[k].task.id);
    } else {
      LeastIs(s - {k}, m);
      assert s - {m} - {k} == s - {k} - {m};
      DrainedRemove(q, s - {m}, k);
    }
  }

  lemma {:induction false} WithoutAbsent(ts: seq<Task>, id: TaskId)
    requires forall t | t in ts :: t.id != id
    ensures Without(ts, id) == ts
  {
    if ts != [] {
      WithoutAbsent(ts[1..], id);
    }
  }

  ghost predicate MadeFrom(q: map<QueueKey, QueueEntry>, k: QueueKey) {
    k in q && k.negPriority == -q[k].task.spec.priority.Rank()
  }

  lemma {:induction false} InsertKeyIsStablePush(q: map<QueueKey, QueueEntry>, ks: seq<QueueKey>, k: QueueKey)
    requires MadeFrom(q, k) && forall x | x in ks :: MadeFrom(q, x)
    requires forall x | x in ks :: x in q
    requires forall x | x in ks && x.negPriority == k.negPriority :: Before(x, k)
    ensures forall x | x in InsertKey(ks, k) :: x in q
    ensures TasksAt(q, InsertKey(ks, k)) == StablePush(TasksAt(q, ks), q[k].task)
  {
    if ks != [] {
      assert MadeFrom(q, ks[0]);
      if !Before(k, ks[0]) {
        InsertKeyIsStablePush(q, ks[1..], k);
      }
    }
  }

  lemma {:induction false} TasksAtFrame(q: map<QueueKey, QueueEntry>, q': map<QueueKey, QueueEntry>, ks: seq<QueueKey>)
    requires forall k | k in ks :: k in q && k in q' && q[k] == q'[k]
    ensures TasksAt(q, ks) == TasksAt(q', ks)
  {
    if ks != [] {
      TasksAtFrame(q, q', ks[1..]);
    }
  }

  // No queued task of this priority carries a timestamp later than `now`.
  ghost predicate ClockNotBehind(q: Queue, task: Task, now: Timestamp) {
    forall k | k in q.queue && k.negPriority == -task.spec.priority.Rank() :: k.at <= now
  }

  // Inserting a key that follows every key of its priority is a stable push...
  lemma InsertLatest(m: map<QueueKey, QueueEntry>, k: QueueKey, e: QueueEntry)
    requires k !in m && MadeFrom(m[k := e], k) && forall x | x in m :: MadeFrom(m, x)
    requires forall x | x in m && x.negPriority == k.negPriority :: Before(x, k)
    ensures Yield(m[k := e]) == StablePush(Yield(m), e.task)
  {
    hide Drained, InsertKey, TasksAt, StablePush;
    var m' := m[k := e];
    var ks := Drained(m.Keys);
    assert m'.Keys == m.Keys + {k};
    DrainedInsert(m.Keys, k);
    TasksAtFrame(m, m', ks);
    assert forall x | x in ks :: m'[x] == m[x];
    InsertKeyIsStablePush(m', ks, k);
  }

  // ...and inserting one that precedes such a key is not.
  lemma InsertEarlier(m: map<QueueKey, QueueEntry>, k: QueueKey, e: QueueEntry, x: QueueKey)
    requires k !in m && MadeFrom(m[k := e], k) && forall y | y in m :: MadeFrom(m, y) && m[y].task.id != e.task.id
    requires x in m && x.negPriority == k.negPriority && Before(k, x)
    ensures Yield(m[k := e]) != StablePush(Yield(m), e.task)
  {
    hide Drained, InsertKey, TasksAt, StablePush;
    var m' := m[k := e];
    var ks := Drained(m.Keys);
    assert m'.Keys == m.Keys + {k};
    DrainedInsert(m.Keys, k);
    DrainedSorted(m.Keys);
    TasksAtFrame(m, m', ks);
    assert forall y | y in ks :: m'[y] == m[y];
    EarlierKeyIsNotStable(m', ks, k, x);
  }

  // Enqueueing is a stable push exactly when the clock has not gone back within the priority.
  lemma EnqueueRefinesStablePush(q: Queue, task: Task, now: Timestamp)
    requires WellFormed(q) && task.status.Pending? && task.id !in q.index
    ensures Contents(q.Enqueue(task, now).0) == StablePush(Contents(q), task) <==> ClockNotBehind(q, task, now)
  {
    var key := q.KeyFor(task, now);
    var entry := QueueEntry(task, now);
    assert q.Enqueue(task, now).0.queue == q.queue[key := entry];
    assert MadeFrom(q.queue[key := entry], key);
    if ClockNotBehind(q, task, now) {
      InsertLatest(q.queue, key, entry);
    } else {
      var x :| x in q.queue && x.negPriority == key.negPriority && x.at > now;
      InsertEarlier(q.queue, key, entry, x);
    }
  }

  // The strict order of the drained keys.
  lemma {:induction false} DrainedSorted(s: set<QueueKey>)
    ensures forall i, j | 0 <= i < j < |Drained(s)| :: Before(Drained(s)[i], Drained(s)[j])
    decreases |s|
  {
    if s != {} {
      var m := Least(s);
      DrainedSorted(s - {m});
      var rest := Drained(s - {m});
      forall i, j | 0 <= i < j < |Drained(s)|
        ensures Before(Drained(s)[i], Drained(s)[j])
      {
        assert Drained(s)[j] == rest[j - 1];
        assert rest[j - 1] in rest;
      }
    }
  }

  lemma {:induction false} EarlierKeyIsNotStable(q: map<QueueKey, QueueEntry>, ks: seq<QueueKey>, k: QueueKey, x: QueueKey)
    requires MadeFrom(q, k) && forall y | y in ks :: MadeFrom(q, y) && q[y].task.id != q[k].task.id
    requires forall y | y in ks :: y in q
    requires x in ks && x.negPriority == k.negPriority && Before(k, x)
    requires forall i, j | 0 <= i < j < |ks| :: Before(ks[i], ks[j])
    ensures forall y | y in InsertKey(ks, k) :: y in q
    ensures TasksAt(q, InsertKey(ks, k)) != StablePush(TasksAt(q, ks), q[k].task)
  {
    hide TasksAt, StablePush;
    InsertKeyDomain(q, ks, k);
    FirstIsNoLess(ks, x);
    PushPassesFirst(q, ks, k);
    TasksAtFirst(q, InsertKey(ks, k));
    if Before(k, ks[0]) {
      assert InsertKey(ks, k)[0] == k;
      assert MadeFrom(q, ks[0]) && q[ks[0]].task.id != q[k].task.id;
      assert TasksAt(q, InsertKey(ks, k))[0] != StablePush(TasksAt(q, ks), q[k].task)[0];
    } else {
      EarlierKeyIsNotStable(q, ks[1..], k, x);
    }
  }

  lemma FirstIsNoLess(ks: seq<QueueKey>, x: QueueKey)
    requires x in ks && forall i, j | 0 <= i < j < |ks| :: Before(ks[i], ks[j])
    ensures ks[0] == x || Before(ks[0], x)
  {
    var i :| 0 <= i < |ks| && ks[i] == x;
  }

  lemma TasksAtFirst(q: map<QueueKey, QueueEntry>, ks: seq<QueueKey>)
    requires ks != [] && forall y | y in ks :: y in q
    ensures TasksAt(q, ks) == [q[ks[0]].task] + TasksAt(q, ks[1..])
  {
  }

  lemma PushPassesFirst(q: map<QueueKey, QueueEntry>, ks: seq<QueueKey>, k: QueueKey)
    requires MadeFrom(q, k) && ks != [] && MadeFrom(q, ks[0]) && forall y | y in ks :: y in q
    requires ks[0].negPriority <= k.negPriority
    ensures StablePush(TasksAt(q, ks), q[k].task) == [q[ks[0]].task] + StablePush(TasksAt(q, ks[1..]), q[k].task)
  {
    TasksAtFirst(q, ks);
    assert TasksAt(q, ks)[1..] == TasksAt(q, ks[1..]);
  }

  lemma {:induction false} InsertKeyDomain(q: map<QueueKey, QueueEntry>, ks: seq<QueueKey>, k: QueueKey)
    requires k in q && forall y | y in ks :: y in q
    ensures forall y | y in InsertKey(ks, k) :: y in q
  {
    if ks != [] && !Before(k, ks[0]) {
      InsertKeyDomain(q, ks[1..], k);
    }
  }

  lemma DequeueTakesHead(q: Queue)
    requires WellFormed(q)
    ensures q.Peek().None? <==> Contents(q) == []
    ensures q.Peek().Some? ==> Contents(q) == [q.Peek().value] + Contents(q.Dequeue().0)
  {
    if q.queue != map[] {
      var m := Least(q.queue.Keys);
      var q' := q.Dequeue().0;
      assert q'.queue.Keys == q.queue.Keys - {m};
      TasksAtFrame(q.queue, q'.queue, Drained(q'.queue.Keys));
    }
  }

  // Removing by id keeps the relative order of everything else.
  lemma RemoveKeepsOrder(q: Queue, id: TaskId)
    requires WellFormed(q) && id in q.index
    ensures Contents(q.Remove(id).0) == Without(Contents(q), id)
  {
    var key := q.index[id];
    var q' := q.Remove(id).0;
    assert q'.queue.Keys == q.queue.Keys - {key};
    TasksAtFrame(q.queue, q'.queue, Drained(q'.queue.Keys));
    DrainedRemove(q.queue, q.queue.Keys, key);
  }

  // ---- Whole runs: enqueue everything, then drain ----

  datatype Arrival = Arrival(task: Task, at: Timestamp)

  function EnqueueAll(q: Queue, arrivals: seq<Arrival>): Queue
    decreases |arrivals|
  {
    if arrivals == [] then q else EnqueueAll(q.Enqueue(arrivals[0].task, arrivals[0].at).0, arrivals[1..])
  }

  ghost function DrainAll(q: Queue): seq<Task>
    requires WellFormed(q)
    decreases |q.queue|
  {
    if q.queue == map[] then []
    else
      DequeueIsRemoveOfPeek(q);
      assert q.Dequeue().0.queue.Keys == q.queue.Keys - {Least(q.queue.Keys)};
      [q.Dequeue().1.value] + DrainAll(q.Dequeue().0)
  }

  ghost predicate Admissible(arrivals: seq<Arrival>) {
    && (forall i | 0 <= i < |arrivals| :: arrivals[i].task.status.Pending?)
    && (forall i, j | 0 <= i < j < |arrivals| :: arrivals[i].task.id != arrivals[j].task.id)
    && (forall i, j | 0 <= i < j < |arrivals| :: arrivals[i].at <= arrivals[j].at)
  }

  function TasksOf(arrivals: seq<Arrival>): seq<Task> {
    if arrivals == [] then [] else [arrivals[0].task] + TasksOf(arrivals[1..])
  }

  function OfPriority(ts: seq<Task>, p: TaskPriority): seq<Task> {
    if ts == [] then []
    else (if ts[0].spec.priority == p then [ts[0]] else []) + OfPriority(ts[1..], p)
  }

  ghost predicate ByPriority(ts: seq<Task>) {
    forall i, j | 0 <= i < j < |ts| :: ts[i].spec.priority.Rank() >= ts[j].spec.priority.Rank()
  }

  lemma {:induction false} DrainAllIsContents(q: Queue)
    requires WellFormed(q)
    ensures DrainAll(q) == Contents(q)
    decreases |q.queue|
  {
    DequeueTakesHead(q);
    if q.queue != map[] {
      DequeueIsRemoveOfPeek(q);
      assert q.Dequeue().0.queue.Keys == q.queue.Keys - {Least(q.queue.Keys)};
      DrainAllIsContents(q.Dequeue().0);
    }
  }

  lemma DequeueSizes(q: Queue)
    requires WellFormed(q) && q.queue != map[]
    ensures |q.Dequeue().0.queue| == |q.queue| - 1 && |q.Dequeue().0.index.Keys| == |q.index.Keys| - 1
  {
    var (rest, key) := (q.Dequeue().0, Least(q.queue.Keys));
    var id := q.queue[key].task.id;
    assert rest.queue.Keys == q.queue.Keys - {key} && rest.index.Keys == q.index.Keys - {id};
    assert id in q.index;
  }

  lemma EmptyIndex(q: Queue)
    requires WellFormed(q) && q.queue == map[]
    ensures q.index.Keys == {}
  {
    assert forall id | id in q.index :: q.index[id] in q.queue;
  }

  // Map, index and yield have one size.
  lemma {:induction false} QueueSizes(q: Queue)
    requires WellFormed(q)
    ensures |DrainAll(q)| == |q.queue| == |q.index.Keys|
    decreases |q.queue|
  {
    hide WellFormed, Queue.Dequeue;
    DequeueIsRemoveOfPeek(q);
    if q.queue != map[] {
      DequeueSizes(q);
      QueueSizes(q.Dequeue().0);
    } else {
      EmptyIndex(q);
    }
  }

  lemma {:induction false} StablePushIsPermutation(ts: seq<Task>, t: Task)
    ensures multiset(StablePush(ts, t)) == multiset(ts) + multiset{t}
  {
    if ts != [] && ts[0].spec.priority.Rank() >= t.spec.priority.Rank() {
      StablePushIsPermutation(ts[1..], t);
      assert ts == [ts[0]] + ts[1..];
    }
  }

  lemma {:induction false} StablePushKeepsPriorityOrder(ts: seq<Task>, t: Task)
    requires ByPriority(ts)
    ensures ByPriority(StablePush(ts, t))
  {
    if ts != [] && ts[0].spec.priority.Rank() >= t.spec.priority.Rank() {
      var rest := StablePush(ts[1..], t);
      StablePushKeepsPriorityOrder(ts[1..], t);
      StablePushIsPermutation(ts[1..], t);
      forall x | x in rest ensures ts[0].spec.priority.Rank() >= x.spec.priority.Rank() {
        assert x in multiset(rest);
        assert x == t || x in ts[1..];
      }
    }
  }

  lemma {:induction false} StablePushKeepsArrivalOrder(ts: seq<Task>, t: Task, p: TaskPriority)
    requires ByPriority(ts)
    ensures OfPriority(StablePush(ts, t), p) == OfPriority(ts, p) + (if t.spec.priority == p then [t] else [])
  {
    hide OfPriority;
    if ts == [] || ts[0].spec.priority.Rank() < t.spec.priority.Rank() {
      OfPriorityCons(t, ts, p);
      if t.spec.priority == p {
        NoneOfPriority(ts, p);
      }
    } else {
      StablePushKeepsArrivalOrder(ts[1..], t, p);
      OfPriorityCons(ts[0], StablePush(ts[1..], t), p);
      OfPriorityCons(ts[0], ts[1..], p);
      assert ts == [ts[0]] + ts[1..];
    }
  }

  lemma OfPriorityCons(t: Task, ts: seq<Task>, p: TaskPriority)
    ensures OfPriority([t] + ts, p) == (if t.spec.priority == p then [t] else []) + OfPriority(ts, p)
  {
    assert ([t] + ts)[1..] == ts;
  }

  lemma {:induction false} NoneOfPriority(ts: seq<Task>, p: TaskPriority)
    requires forall t | t in ts :: t.spec.priority.Rank() < p.Rank()
    ensures OfPriority(ts, p) == []
  {
    if ts != [] {
      NoneOfPriority(ts[1..], p);
    }
  }

  function PushAll(ts: seq<Task>, more: seq<Task>): seq<Task>
    decreases |more|
  {
    if more == [] then ts else PushAll(StablePush(ts, more[0]), more[1..])
  }

  ghost predicate FollowedBy(q: Queue, arrivals: seq<Arrival>) {
    && WellFormed(q) && Admissible(arrivals)
    && (forall a, k | a in arrivals && k in q.queue :: k.at <= a.at)
    && (forall a | a in arrivals :: a.task.id !in q.index)
  }

  lemma OneArrival(q: Queue, arrivals: seq<Arrival>)
    requires FollowedBy(q, arrivals) && arrivals != []
    ensures var q' := q.Enqueue(arrivals[0].task, arrivals[0].at).0;
            FollowedBy(q', arrivals[1..]) && Contents(q') == StablePush(Contents(q), arrivals[0].task)
  {
    var a := arrivals[0];
    assert a in arrivals;
    EnqueueKeepsWellFormed(q, a.task, a.at);
    EnqueueRefinesStablePush(q, a.task, a.at);
    AdmissibleTail(arrivals);
  }

  // Arrivals on a queue that holds only older entries refine pushes on its contents.
  lemma {:induction false} EnqueueAllRefinesPushAll(q: Queue, arrivals: seq<Arrival>)
    requires FollowedBy(q, arrivals)
    ensures WellFormed(EnqueueAll(q, arrivals))
    ensures Contents(EnqueueAll(q, arrivals)) == PushAll(Contents(q), TasksOf(arrivals))
    decreases |arrivals|
  {
    if arrivals != [] {
      var q', rest := q.Enqueue(arrivals[0].task, arrivals[0].at).0, arrivals[1..];
      OneArrival(q, arrivals);
      EnqueueAllRefinesPushAll(q', rest);
      assert EnqueueAll(q, arrivals) == EnqueueAll(q', rest);
      assert TasksOf(arrivals)[0] == arrivals[0].task && TasksOf(arrivals)[1..] == TasksOf(rest);
    }
  }

  lemma AdmissibleTail(arrivals: seq<Arrival>)
    requires Admissible(arrivals) && arrivals != []
    ensures Admissible(arrivals[1..]) && arrivals[0].task.status.Pending?
    ensures forall a | a in arrivals[1..] :: a in arrivals && a.task.id != arrivals[0].task.id && arrivals[0].at <= a.at
  {
  }

  lemma {:induction false} PushAllIsPermutation(ts: seq<Task>, more: seq<Task>)
    ensures multiset(PushAll(ts, more)) == multiset(ts) + multiset(more)
    decreases |more|
  {
    if more != [] {
      StablePushIsPermutation(ts, more[0]);
      PushAllIsPermutation(StablePush(ts, more[0]), more[1..]);
      assert more == [more[0]] + more[1..];
    }
  }

  lemma {:induction false} PushAllOrder(ts: seq<Task>, more: seq<Task>, p: TaskPriority)
    requires ByPriority(ts)
    ensures ByPriority(PushAll(ts, more))
    ensures OfPriority(PushAll(ts, more), p) == OfPriority(ts, p) + OfPriority(more, p)
    decreases |more|
  {
    if more != [] {
      StablePushKeepsPriorityOrder(ts, more[0]);
      StablePushKeepsArrivalOrder(ts, more[0], p);
      PushAllOrder(StablePush(ts, more[0]), more[1..], p);
    }
  }

  // Draining after any admissible arrivals: a permutation, by priority, FIFO within each priority.
  lemma DrainIsStablePriorityOrder(arrivals: seq<Arrival>, p: TaskPriority)
    requires Admissible(arrivals)
    ensures WellFormed(EnqueueAll(EMPTY_QUEUE, arrivals))
    ensures var out := DrainAll(EnqueueAll(EMPTY_QUEUE, arrivals));
            && multiset(out) == multiset(TasksOf(arrivals))
            && ByPriority(out)
            && OfPriority(out, p) == OfPriority(TasksOf(arrivals), p)
  {
    EnqueueAllRefinesPushAll(EMPTY_QUEUE, arrivals);
    PushAllIsPermutation([], TasksOf(arrivals));
    PushAllOrder([], TasksOf(arrivals), p);
    DrainAllIsContents(EnqueueAll(EMPTY_QUEUE, arrivals));
  }

  // What outranks what.
  predicate Outranks(p: TaskPriority, other: TaskPriority) {
    match p
    case Critical => !other.Critical?
    case High => other.Normal? || other.Low?
    case Normal => other.Low?
    case Low => false
  }

  lemma RankIff(p: TaskPriority, other: TaskPriority)
    ensures p.Rank() > other.Rank() <==> Outranks(p, other)
  {
  }

  // The task that is peeked, and dequeued next, is outranked by no queued task, and no task of its
  // priority has been enqueued earlier.
  lemma PeekIsMostUrgent(q: Queue)
    requires WellFormed(q) && q.Peek().Some?
    ensures var head := q.queue[Least(q.queue.Keys)];
            && q.Peek() == q.Dequeue().1 == Some(head.task)
            && forall k | k in q.queue ::
                 && !Outranks(q.queue[k].task.spec.priority, head.task.spec.priority)
                 && (q.queue[k].task.spec.priority == head.task.spec.priority ==> head.enqueuedAt <= q.queue[k].enqueuedAt)
  {
    var least := Least(q.queue.Keys);
    forall k | k in q.queue ensures !Outranks(q.queue[k].task.spec.priority, q.queue[least].task.spec.priority) {
      assert k == least || Before(least, k);
      RankIff(q.queue[k].task.spec.priority, q.queue[least].task.spec.priority);
    }
  }

  // The tasks in order of urgency, each priority in the order given.
  function ByUrgency(ts: seq<Task>): seq<Task> {
    OfPriority(ts, Critical) + OfPriority(ts, High) + OfPriority(ts, Normal) + OfPriority(ts, Low)
  }

  lemma {:induction false} SortedIsByUrgency(ts: seq<Task>)
    requires ByPriority(ts)
    ensures ts == ByUrgency(ts)
  {
    hide OfPriority;
    if ts == [] {
      NoneOfPriority(ts, Critical);
      NoneOfPriority(ts, High);
      NoneOfPriority(ts, Normal);
      NoneOfPriority(ts, Low);
    } else {
      SortedIsByUrgency(ts[1..]);
      assert ts == [ts[0]] + ts[1..];
      UrgencyCons(ts[0], ts[1..]);
    }
  }

  lemma UrgencyCons(t: Task, rest: seq<Task>)
    requires ByPriority([t] + rest)
    ensures ByUrgency([t] + rest) == [t] + ByUrgency(rest)
  {
    var (ts, p) := ([t] + rest, t.spec.priority);
    assert ts[0] == t;
    if !p.Critical? {
      HigherOnesAreGone(ts, Critical);
    }
    if p.Normal? || p.Low? {
      HigherOnesAreGone(ts, High);
    }
    if p.Low? {
      HigherOnesAreGone(ts, Normal);
    }
    hide OfPriority, ByPriority;
    OfPriorityCons(t, rest, Critical);
    OfPriorityCons(t, rest, High);
    OfPriorityCons(t, rest, Normal);
    OfPriorityCons(t, rest, Low);
    InsertInto(p, t, OfPriority(rest, Critical), OfPriority(rest, High), OfPriority(rest, Normal), OfPriority(rest, Low));
  }

  lemma InsertInto(p: TaskPriority, t: Task, c: seq<Task>, h: seq<Task>, n: seq<Task>, l: seq<Task>)
    requires (p.Critical? || c == []) && (p.Normal? || p.Low? ==> h == []) && (p.Low? ==> n == [])
    ensures (if p.Critical? then [t] else []) + c + ((if p.High? then [t] else []) + h)
          + ((if p.Normal? then [t] else []) + n) + ((if p.Low? then [t] else []) + l) == [t] + (c + h + n + l)
  {
    assert [] + c == c && [] + h == h && [] + n == n && [] + l == l;
  }

  lemma HigherOnesAreGone(ts: seq<Task>, p: TaskPriority)
    requires ByPriority(ts) && ts != [] && Outranks(p, ts[0].spec.priority)
    ensures OfPriority(ts, p) == []
  {
    forall t | t in ts ensures t.spec.priority.Rank() < p.Rank() {
      RankIff(p, ts[0].spec.priority);
      var i :| 0 <= i < |ts| && ts[i] == t;
    }
    NoneOfPriority(ts, p);
  }

  // From end to end, without ranks: draining yields the critical arrivals in their order, then the
  // high ones, then the normal ones, then the low ones.
  lemma DrainIsByUrgency(arrivals: seq<Arrival>)
    requires Admissible(arrivals)
    ensures WellFormed(EnqueueAll(EMPTY_QUEUE, arrivals))
    ensures DrainAll(EnqueueAll(EMPTY_QUEUE, arrivals)) == ByUrgency(TasksOf(arrivals))
  {
    hide DrainAll, EnqueueAll, TasksOf, WellFormed, ByPriority, OfPriority, Admissible;
    DrainIsStablePriorityOrder(arrivals, Critical);
    DrainIsStablePriorityOrder(arrivals, High);
    DrainIsStablePriorityOrder(arrivals, Normal);
    DrainIsStablePriorityOrder(arrivals, Low);
    SortedIsByUrgency(DrainAll(EnqueueAll(EMPTY_QUEUE, arrivals)));
  }

  lemma PushAllIsByUrgency(more: seq<Task>)
    ensures PushAll([], more) == ByUrgency(more)
  {
    PushAllOrder([], more, Critical);
    PushAllOrder([], more, High);
    PushAllOrder([], more, Normal);
    PushAllOrder([], more, Low);
    SortedIsByUrgency(PushAll([], more));
  }

  // An instance of the failure: of two tasks of one priority the second to be enqueued comes out
  // first exactly when the clock has gone back between them, as from 2 to 1.
  lemma SecondOvertakesIff(first: Task, second: Task, at: Timestamp, later: Timestamp)
    requires first.status.Pending? && second.status.Pending? && first.id != second.id
    requires first.spec.priority == second.spec.priority
    ensures var q := EMPTY_QUEUE.Enqueue(first, at).0.Enqueue(second, later).0;
            && WellFormed(q)
            && (DrainAll(q) == [second, first] <==> later < at)
            && (DrainAll(q) == [first, second] <==> at <= later)
  {
    hide Queue.Enqueue, WellFormed, Drained, TasksAt, DrainAll;
    var q := EMPTY_QUEUE.Enqueue(first, at).0.Enqueue(second, later).0;
    TwoEnqueued(first, second, at, later);
    DrainAllIsContents(q);
    var rank := -first.spec.priority.Rank();
    var (k1, k2) := (QueueKey(rank, at, 0), QueueKey(rank, later, 1));
    var (head, last) := if later < at then (k2, k1) else (k1, k2);
    YieldPair(q.queue, head, last);
    var (a, b) := (q.queue[head].task, q.queue[last].task);
    assert DrainAll(q) == [a, b] && [a, b][0] == a && [a, b][1] == b;
    assert [first, second][0] == first && [second, first][0] == second;
  }

  lemma TwoEnqueued(first: Task, second: Task, at: Timestamp, later: Timestamp)
    requires first.status.Pending? && second.status.Pending? && first.id != second.id
    requires first.spec.priority == second.spec.priority
    ensures var q := EMPTY_QUEUE.Enqueue(first, at).0.Enqueue(second, later).0;
            && WellFormed(q)
            && var rank := -first.spec.priority.Rank();
               q.queue == map[QueueKey(rank, at, 0) := QueueEntry(first, at), QueueKey(rank, later, 1) := QueueEntry(second, later)]
  {
    hide WellFormed, Queue.Enqueue;
    EnqueueAddsEntry(EMPTY_QUEUE, first, at);
    EnqueueAddsEntry(EMPTY_QUEUE.Enqueue(first, at).0, second, later);
  }

  lemma EnqueueAddsEntry(q: Queue, task: Task, now: Timestamp)
    requires (WellFormed(q) || q == EMPTY_QUEUE) && task.status.Pending? && task.id !in q.index
    ensures var q' := q.Enqueue(task, now).0;
            && WellFormed(q') && q'.index.Keys == q.index.Keys + {task.id} && q'.nextSequence == q.nextSequence + 1
            && q'.queue == q.queue[QueueKey(-task.spec.priority.Rank(), now, q.nextSequence) := QueueEntry(task, now)]
  {
    EnqueueKeepsWellFormed(q, task, now);
  }

  lemma YieldPair(m: map<QueueKey, QueueEntry>, k: QueueKey, l: QueueKey)
    requires m.Keys == {k, l} && Before(k, l)
    ensures Yield(m) == [m[k].task, m[l].task]
  {
    DrainedPair(k, l);
    hide Drained;
  }

  lemma DrainedPair(k: QueueKey, l: QueueKey)
    requires Before(k, l)
    ensures Drained({k, l}) == [k, l]
  {
    LeastIs({k, l}, k);
    assert {k, l} - {k} == {l};
    LeastIs({l}, l);
    assert {l} - {l} == {};
  }

  // ---- The mutable queue ----

  class TaskQueue {
    var queue: map<QueueKey, QueueEntry>
    var index: map<TaskId, QueueKey>
    var nextSequence: nat

    ghost function Value(): Queue
      reads this
    {
      Queue(queue, index, nextSequence)
    }

    constructor ()
      ensures Value() == EMPTY_QUEUE
    {
      queue, index, nextSequence := map[], map[], 0;
    }

    method Enqueue(task: Task, now: Timestamp) returns (r: Result<(), SwarmError>)
      modifies this
      ensures (Value(), r) == old(Value()).Enqueue(task, now)
    {
      if !task.status.Pending? {
        return Err(InvalidTaskSpec);
      }
      var priorityKey := -task.spec.priority.Rank();
      if task.id in index {
        return Err(InvalidTaskSpec);
      }
      var sequence := nextSequence;
      nextSequence := nextSequence + 1;
      var key := QueueKey(priorityKey, now, sequence);
      queue := queue[key := QueueEntry(task, now)];
      index := index[task.id := key];
      return Ok(());
    }

    method FirstKey() returns (key: QueueKey)
      requires queue != map[]
      ensures key == Least(queue.Keys)
    {
      LeastExists(queue.Keys);
      assert exists k :: k in queue && IsLeast(k, queue.Keys);
      key :| key in queue && forall x | x in queue && x != key :: Before(key, x);
      LeastIs(queue.Keys, key);
    }

    method Peek() returns (r: Option<Task>)
      ensures r == Value().Peek()
    {
      if queue == map[] {
        return None;
      }
      var key := FirstKey();
      return Some(queue[key].task);
    }

    method Dequeue() returns (r: Option<Task>)
      modifies this
      ensures (Value(), r) == old(Value()).Dequeue()
    {
      if queue == map[] {
        return None;
      }
      var key := FirstKey();
      var entry := queue[key];
      queue := queue - {key};
      index := index - {entry.task.id};
      return Some(entry.task);
    }

    method Remove(id: TaskId) returns (r: Result<Task, SwarmError>)
      modifies this
      ensures (Value(), r) == old(Value()).Remove(id)
    {
      if id !in index {
        return Err(TaskNotFound(id));
      }
      var key := index[id];
      index := index - {id};
      if key !in queue {
        return Err(TaskNotFound(id));
      }
      var entry := queue[key];
      queue := queue - {key};
      return Ok(entry.task);
    }

    // As many tasks as draining the queue would still yield, and as many as can be removed by id.
    method Len() returns (n: nat)
      ensures n == |Value().queue|
      ensures WellFormed(Value()) ==> n == |DrainAll(Value())| == |Value().index.Keys|
    {
      n := |queue|;
      if WellFormed(Value()) {
        QueueSizes(Value());
      }
    }
  }
}
