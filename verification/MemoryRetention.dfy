/** Memory entries and the exact effect of a retention pass (swarm-memory/in_memory.rs). */
module Retention {
  import opened Wrappers

  datatype MemoryId = MemoryId(uuid: nat)

  type Timestamp = int  // nanoseconds since the epoch

  datatype Scope =
    | Session(id: string)
    | TaskScope(id: string)
    | Agent(id: string)
    | Team(id: string)
    | Tenant(id: string)
    | LongTerm(id: string)

  datatype Kind = Structured | Semantic | Episodic | Procedural | KnowledgeRef | Summary | ExternalLink

  // Sensitivity in ascending order, `Public` being 0 and `Restricted` 3.
  type Sensitivity = n: nat | n <= 3

  datatype Entry = Entry(
    id: MemoryId,
    scope: Scope,
    kind: Kind,
    sensitivity: Sensitivity,
    tags: set<string>,
    createdAt: Timestamp,
    expiresAt: Option<Timestamp>)

  type Store = map<MemoryId, Entry>

  datatype Policy = Policy(scope: Option<Scope>, maxAge: Option<nat>, maxEntries: Option<nat>)

  datatype MemoryError = AgeOutOfRange | NoSuchEntry(id: MemoryId)

  // How a pass ends: with the number of removed entries, with an error, or, when the date below
  // which entries are too old lies before the earliest one there is, in a panic.
  datatype PassOutcome = Returned(removed: nat) | Refused(error: MemoryError) | Panicked

  // Beyond this, 2^63 - 1 milliseconds, a `std::time::Duration` does not fit a `chrono::Duration`.
  const MAX_AGE: nat := 0x7FFF_FFFF_FFFF_FFFF * 1_000_000

  predicate InScope(e: Entry, scope: Option<Scope>) {
    scope.None? || e.scope == scope.value
  }

  predicate TooOld(e: Entry, policy: Policy, now: Timestamp) {
    InScope(e, policy.scope) && policy.maxAge.Some? && e.createdAt < now - policy.maxAge.value
  }

  function Scoped(s: Store, scope: Option<Scope>): set<MemoryId> {
    set id | id in s && InScope(s[id], scope)
  }

  function Aged(s: Store, policy: Policy, now: Timestamp): set<MemoryId> {
    set id | id in s && TooOld(s[id], policy, now)
  }

  // `kept` are the newest of `from`, as many as the limit allows.
  ghost predicate Newest(s: Store, from: set<MemoryId>, kept: set<MemoryId>, limit: Option<nat>)
    requires from <= s.Keys
  {
    && kept <= from
    && |kept| == (if limit.Some? && limit.value < |from| then limit.value else |from|)
    && forall k, d | k in kept && d in from - kept :: s[d].createdAt <= s[k].createdAt
  }

  // What a retention pass at time `now` makes of a store.
  ghost predicate Retained(pre: Store, policy: Policy, now: Timestamp, post: Store) {
    && post.Keys <= pre.Keys
    && (forall id | id in post :: post[id] == pre[id])
    && pre.Keys - Scoped(pre, policy.scope) <= post.Keys
    && Newest(pre, Scoped(pre, policy.scope) - Aged(pre, policy, now), Scoped(post, policy.scope), policy.maxEntries)
  }

  lemma SubsetCardinality<T>(a: set<T>, b: set<T>)
    requires a <= b
    ensures |b - a| == |b| - |a|
    ensures |a| == |b| ==> a == b
  {
    assert b == a + (b - a);
    if |a| == |b| {
      assert b - a == {};
    }
  }

  // ---- What a pass guarantees ----

  // Nothing out of scope is touched, nothing too old stays, and no removed entry is newer than a
  // survivor in scope.
  lemma RetentionSparesTheNewest(pre: Store, policy: Policy, now: Timestamp, post: Store)
    requires Retained(pre, policy, now, post)
    ensures forall id | id in pre && !InScope(pre[id], policy.scope) :: id in post && post[id] == pre[id]
    ensures forall id | id in post :: !TooOld(post[id], policy, now)
    ensures policy.maxEntries.Some? ==> |Scoped(post, policy.scope)| <= policy.maxEntries.value
    ensures forall k, d | k in Scoped(post, policy.scope) && d in pre.Keys - post.Keys :: pre[d].createdAt <= pre[k].createdAt
  {
    var kept := Scoped(post, policy.scope);
    forall id | id in post ensures !TooOld(post[id], policy, now) {
      if id in kept {
        assert id !in Aged(pre, policy, now);
      }
    }
    forall k, d | k in kept && d in pre.Keys - post.Keys ensures pre[d].createdAt <= pre[k].createdAt {
      assert d in Scoped(pre, policy.scope) - kept;
      assert k !in Aged(pre, policy, now);
    }
  }

  // The number of removed entries follows from the input alone.
  lemma RetentionRemoves(pre: Store, policy: Policy, now: Timestamp, post: Store)
    requires Retained(pre, policy, now, post)
    ensures var young := |Scoped(pre, policy.scope) - Aged(pre, policy, now)|;
            |pre| - |post| == |Aged(pre, policy, now)|
              + if policy.maxEntries.Some? && policy.maxEntries.value < young then young - policy.maxEntries.value else 0
  {
    var scoped := Scoped(pre, policy.scope);
    var kept := Scoped(post, policy.scope);
    RemovedAreScoped(pre, policy, now, post);
    hide Scoped, Aged, InScope, TooOld;
    SubsetCardinality(Aged(pre, policy, now), scoped);
    SubsetCardinality(kept, scoped);
    SubsetCardinality(post.Keys, pre.Keys);
  }

  lemma RemovedAreScoped(pre: Store, policy: Policy, now: Timestamp, post: Store)
    requires Retained(pre, policy, now, post)
    ensures Aged(pre, policy, now) <= Scoped(pre, policy.scope) && Scoped(post, policy.scope) <= Scoped(pre, policy.scope)
    ensures pre.Keys - post.Keys == Scoped(pre, policy.scope) - Scoped(post, policy.scope)
    ensures |pre| == |pre.Keys| && |post| == |post.Keys|
  {
    hide Newest;
  }

  // A second pass at the same time removes nothing.
  lemma RetentionIsIdempotent(pre: Store, policy: Policy, now: Timestamp, post: Store, again: Store)
    requires Retained(pre, policy, now, post) && Retained(post, policy, now, again)
    ensures again == post
  {
    hide InScope, TooOld;
    RetentionSparesTheNewest(pre, policy, now, post);
    RetentionRemoves(post, policy, now, again);
    hide Newest;
    assert Aged(post, policy, now) == {};
    assert Scoped(post, policy.scope) - {} == Scoped(post, policy.scope);
    assert |post.Keys| == |again.Keys| by {
      assert |post| == |again|;
    }
    SubsetCardinality(again.Keys, post.Keys);
  }

  // No two of these entries were created at the same instant.
  ghost predicate DistinctTimes(s: Store, ids: set<MemoryId>)
    requires ids <= s.Keys
  {
    forall a, b | a in ids && b in ids && a != b :: s[a].createdAt != s[b].createdAt
  }

  lemma ProperDifference(k1: set<MemoryId>, k2: set<MemoryId>)
    requires |k1| == |k2| && k1 != k2
    ensures k1 - k2 != {}
  {
    if forall x | x in k1 :: x in k2 {
      SubsetCardinality(k1, k2);
    } else {
      var x :| x in k1 && x !in k2;
      assert x in k1 - k2;
    }
  }

  // Two sets of one size that differ have members to exchange.
  lemma Exchange(k1: set<MemoryId>, k2: set<MemoryId>) returns (a: MemoryId, b: MemoryId)
    requires |k1| == |k2| && k1 != k2
    ensures a in k1 - k2 && b in k2 - k1
  {
    ProperDifference(k1, k2);
    ProperDifference(k2, k1);
    a :| a in k1 - k2;
    b :| b in k2 - k1;
  }

  lemma NewestTie(s: Store, from: set<MemoryId>, k1: set<MemoryId>, k2: set<MemoryId>, limit: Option<nat>, a: MemoryId, b: MemoryId)
    requires from <= s.Keys && Newest(s, from, k1, limit) && Newest(s, from, k2, limit)
    requires a in k1 - k2 && b in k2 - k1
    ensures a in from && b in from && s[a].createdAt == s[b].createdAt
  {
    assert s[a].createdAt <= s[b].createdAt;
  }

  lemma NewestIsUnique(s: Store, from: set<MemoryId>, k1: set<MemoryId>, k2: set<MemoryId>, limit: Option<nat>)
    requires from <= s.Keys && DistinctTimes(s, from)
    requires Newest(s, from, k1, limit) && Newest(s, from, k2, limit)
    ensures k1 == k2
  {
    hide DistinctTimes;
    NewestSize(s, from, k1, limit);
    NewestSize(s, from, k2, limit);
    hide Newest;
    if k1 != k2 {
      var a, b := Exchange(k1, k2);
      NewestTie(s, from, k1, k2, limit, a, b);
      NotDistinct(s, from, a, b);
      assert false;
    }
  }

  lemma NewestSize(s: Store, from: set<MemoryId>, kept: set<MemoryId>, limit: Option<nat>)
    requires from <= s.Keys && Newest(s, from, kept, limit)
    ensures |kept| == if limit.Some? && limit.value < |from| then limit.value else |from|
  {
  }

  lemma NotDistinct(s: Store, from: set<MemoryId>, a: MemoryId, b: MemoryId)
    requires from <= s.Keys && a in from && b in from && a != b && s[a].createdAt == s[b].createdAt
    ensures !DistinctTimes(s, from)
  {
  }

  // The map is iterated in no particular order; with distinct creation times that order never
  // shows in the outcome.
  lemma RetentionIsDeterministic(pre: Store, policy: Policy, now: Timestamp, p1: Store, p2: Store)
    requires Retained(pre, policy, now, p1) && Retained(pre, policy, now, p2)
    requires DistinctTimes(pre, Scoped(pre, policy.scope))
    ensures p1 == p2
  {
    NewestIsUnique(pre, Scoped(pre, policy.scope) - Aged(pre, policy, now), Scoped(p1, policy.scope), Scoped(p2, policy.scope),
                   policy.maxEntries);
    forall id ensures id in p1 <==> id in p2 {
      if id in pre && InScope(pre[id], policy.scope) {
        assert id in p1 <==> id in Scoped(p1, policy.scope);
        assert id in p2 <==> id in Scoped(p2, policy.scope);
      }
    }
  }

  // ---- Queries ----

  datatype Query = Query(
    scope: Option<Scope>,
    kind: Option<Kind>,
    tags: set<string>,
    limit: Option<nat>,
    maxSensitivity: Option<Sensitivity>,
    includeExpired: bool)

  predicate Matches(e: Entry, q: Query, now: Timestamp) {
    && (q.includeExpired || e.expiresAt.None? || now <= e.expiresAt.value)
    && InScope(e, q.scope)
    && (q.kind.None? || e.kind == q.kind.value)
    && q.tags <= e.tags
    && (q.maxSensitivity.None? || e.sensitivity <= q.maxSensitivity.value)
  }

  function Matching(s: Store, q: Query, now: Timestamp): set<MemoryId> {
    set id | id in s && Matches(s[id], q, now)
  }

  ghost predicate Found(s: Store, q: Query, now: Timestamp, ids: set<MemoryId>) {
    Newest(s, Matching(s, q, now), ids, q.limit)
  }

  lemma NewestOfNewest(s: Store, from: set<MemoryId>, kept: set<MemoryId>, m: Option<nat>, shown: set<MemoryId>, n: nat)
    requires from <= s.Keys && Newest(s, from, kept, m) && Newest(s, kept, shown, Some(n))
    requires m.None? || n <= m.value
    ensures Newest(s, from, shown, Some(n))
  {
    SubsetCardinality(kept, from);
    SubsetCardinality(shown, kept);
    if shown == {} {
      assert |shown| == 0;
    } else {
      forall k, d | k in shown && d in from - shown ensures s[d].createdAt <= s[k].createdAt {
        assert k in kept;
      }
    }
  }

  // ---- In terms of the entries' fields ----

  // Not expired unless expired entries are asked for, of the scope and kind asked for, carrying every
  // tag asked for, and no more sensitive than allowed.
  predicate Wanted(e: Entry, q: Query, now: Timestamp) {
    && (e.expiresAt.Some? && now > e.expiresAt.value ==> q.includeExpired)
    && (q.scope.Some? ==> e.scope == q.scope.value)
    && (q.kind.Some? ==> e.kind == q.kind.value)
    && (forall tag | tag in q.tags :: tag in e.tags)
    && (q.maxSensitivity.Some? ==> !(e.sensitivity > q.maxSensitivity.value))
  }

  // Everything found is stored and wanted; whatever is wanted is found too, unless the limit is used up
  // by entries at least as new.
  lemma FoundByFields(s: Store, q: Query, now: Timestamp, ids: set<MemoryId>)
    requires Found(s, q, now, ids)
    ensures forall id | id in ids :: id in s && Wanted(s[id], q, now)
    ensures forall id | id in s && Wanted(s[id], q, now) && id !in ids ::
              q.limit.Some? && |ids| == q.limit.value && forall k | k in ids :: s[id].createdAt <= s[k].createdAt
    ensures q.limit.Some? ==> |ids| <= q.limit.value
  {
    forall id | id in s ensures Matches(s[id], q, now) <==> Wanted(s[id], q, now) {
    }
    hide Matches, Wanted;
    var all := Matching(s, q, now);
    if id :| id in all && id !in ids {
      SubsetCardinality(ids, all);
    }
  }

  predicate ScopedTo(e: Entry, policy: Policy) {
    policy.scope.Some? ==> e.scope == policy.scope.value
  }

  predicate Outlived(e: Entry, policy: Policy, now: Timestamp) {
    policy.maxAge.Some? && e.createdAt + policy.maxAge.value < now
  }

  // What a pass leaves: every entry out of scope, none in scope that has outlived the age, and of the
  // others in scope all, or as many as the limit allows with none of them older than one that goes.
  lemma RetainedByFields(pre: Store, policy: Policy, now: Timestamp, post: Store)
    requires Retained(pre, policy, now, post)
    ensures forall id | id in post :: id in pre && post[id] == pre[id]
    ensures forall id | id in pre && !ScopedTo(pre[id], policy) :: id in post
    ensures forall id | id in pre && ScopedTo(pre[id], policy) && Outlived(pre[id], policy, now) :: id !in post
    ensures var left := set id | id in post && ScopedTo(post[id], policy);
            && (policy.maxEntries.Some? ==> |left| <= policy.maxEntries.value)
            && forall id | id in pre && ScopedTo(pre[id], policy) && !Outlived(pre[id], policy, now) && id !in post ::
                 policy.maxEntries.Some? && |left| == policy.maxEntries.value
                 && forall k | k in left :: pre[id].createdAt <= pre[k].createdAt
  {
    forall e: Entry ensures InScope(e, policy.scope) <==> ScopedTo(e, policy) {
    }
    forall e: Entry ensures TooOld(e, policy, now) <==> ScopedTo(e, policy) && Outlived(e, policy, now) {
    }
    hide InScope, TooOld, ScopedTo, Outlived;
    var young := Scoped(pre, policy.scope) - Aged(pre, policy, now);
    var kept := Scoped(post, policy.scope);
    assert kept == set id | id in post && ScopedTo(post[id], policy);
    if id :| id in young && id !in kept {
      SubsetCardinality(kept, young);
    }
  }

  lemma SameNewest(s: Store, t: Store, from: set<MemoryId>, kept: set<MemoryId>, limit: Option<nat>)
    requires from <= s.Keys && from <= t.Keys && (forall id | id in from :: s[id] == t[id]) && Newest(s, from, kept, limit)
    ensures Newest(t, from, kept, limit)
  {
  }

  // A query for the newest n of a scope sees the same entries before and after a pass that keeps
  // at least n there and finds nothing too old.
  lemma RetentionIsInvisibleToRecentQueries(pre: Store, policy: Policy, now: Timestamp, post: Store,
                                            q: Query, before: set<MemoryId>, after: set<MemoryId>)
    requires Retained(pre, policy, now, post) && Aged(pre, policy, now) == {}
    requires q == Query(policy.scope, None, {}, q.limit, None, true) && q.limit.Some?
    requires policy.maxEntries.None? || q.limit.value <= policy.maxEntries.value
    requires DistinctTimes(pre, Scoped(pre, policy.scope))
    requires Found(pre, q, now, before) && Found(post, q, now, after)
    ensures before == after
  {
    var scoped := Scoped(pre, policy.scope);
    var kept := Scoped(post, policy.scope);
    assert Matching(pre, q, now) == scoped && Matching(post, q, now) == kept;
    assert scoped - {} == scoped;
    SameNewest(post, pre, kept, after, q.limit);
    hide *;
    NewestOfNewest(pre, scoped, kept, policy.maxEntries, after, q.limit.value);
    NewestIsUnique(pre, scoped, before, after, q.limit);
  }
}

/** The backend itself: one map, edited in place. */
module InMemoryBackends {
  import opened Wrappers
  import opened StableSort
  import opened Retention

  function CreatedAt(s: Store, id: MemoryId): Timestamp {
    if id in s then s[id].createdAt else 0
  }

  function OldestFirst(s: Store): (MemoryId, MemoryId) -> bool {
    (a, b) => CreatedAt(s, a) <= CreatedAt(s, b)
  }

  function NewestFirst(s: Store): (MemoryId, MemoryId) -> bool {
    (a, b) => CreatedAt(s, b) <= CreatedAt(s, a)
  }

  ghost predicate Repeatless(ids: seq<MemoryId>) {
    forall i, j | 0 <= i < j < |ids| :: ids[i] != ids[j]
  }

  ghost function Elements(ids: seq<MemoryId>): set<MemoryId> {
    set id | id in ids
  }

  lemma {:induction false} RepeatlessCount(ids: seq<MemoryId>)
    requires Repeatless(ids)
    ensures |Elements(ids)| == |ids|
  {
    if ids != [] {
      RepeatlessCount(ids[1..]);
      assert Elements(ids) == Elements(ids[1..]) + {ids[0]};
    }
  }

  lemma CountRepeatless(ids: seq<MemoryId>)
    requires |Elements(ids)| == |ids|
    ensures Repeatless(ids)
  {
    forall i, j | 0 <= i < j < |ids| ensures ids[i] != ids[j] {
      if ids[i] == ids[j] {
        var rest := ids[..j] + ids[j + 1..];
        assert Elements(rest) == Elements(ids) by {
          forall x | x in ids ensures x in rest {
            var k :| 0 <= k < |ids| && ids[k] == x;
            assert x in rest by {
              if k == j { assert rest[i] == x; } else if k < j { assert rest[k] == x; } else { assert rest[k - 1] == x; }
            }
          }
        }
        ElementsBound(rest);
      }
    }
  }

  lemma {:induction false} ElementsBound(ids: seq<MemoryId>)
    ensures |Elements(ids)| <= |ids|
  {
    if ids != [] {
      ElementsBound(ids[1..]);
      assert Elements(ids) == Elements(ids[1..]) + {ids[0]};
    }
  }

  lemma SortedIds(le: (MemoryId, MemoryId) -> bool, ids: seq<MemoryId>)
    requires TotalPreorder(le) && Repeatless(ids)
    ensures Repeatless(Sort(le, ids)) && Elements(Sort(le, ids)) == Elements(ids) && |Sort(le, ids)| == |ids|
    ensures SortedBy(le, Sort(le, ids))
  {
    SortSorts(le, ids);
    SortMembers(le, ids);
    RepeatlessCount(ids);
    assert Elements(Sort(le, ids)) == Elements(ids);
    CountRepeatless(Sort(le, ids));
  }

  lemma SlicesPartition(ids: seq<MemoryId>, k: nat)
    requires Repeatless(ids) && k <= |ids|
    ensures Repeatless(ids[..k]) && Repeatless(ids[k..])
    ensures Elements(ids[k..]) == Elements(ids) - Elements(ids[..k])
    ensures Elements(ids[..k]) == Elements(ids) - Elements(ids[k..])
  {
    assert ids == ids[..k] + ids[k..];
  }

  lemma PrefixSorted(le: (MemoryId, MemoryId) -> bool, ids: seq<MemoryId>, k: nat)
    requires SortedBy(le, ids) && k <= |ids|
    ensures SortedBy(le, ids[..k])
  {
  }

  lemma AllIn(ids: seq<MemoryId>, all: set<MemoryId>)
    requires Elements(ids) <= all
    ensures forall id | id in ids :: id in all
  {
    forall id | id in ids ensures id in all {
      assert id in Elements(ids);
    }
  }

  lemma AcrossCut(le: (MemoryId, MemoryId) -> bool, ids: seq<MemoryId>, k: nat, a: MemoryId, b: MemoryId)
    requires SortedBy(le, ids) && k <= |ids| && a in Elements(ids[..k]) && b in Elements(ids[k..])
    ensures le(a, b)
  {
    var i :| 0 <= i < k && ids[..k][i] == a;
    var j :| 0 <= j < |ids| - k && ids[k..][j] == b;
    assert le(ids[i], ids[k + j]);
  }

  // Dropping the first k, oldest first, keeps the newest.
  lemma DropOldest(s: Store, ids: seq<MemoryId>, k: nat)
    requires Repeatless(ids) && SortedBy(OldestFirst(s), ids) && Elements(ids) <= s.Keys && k <= |ids|
    ensures Newest(s, Elements(ids), Elements(ids) - Elements(ids[..k]), Some(|ids| - k))
  {
    hide Elements, SortedBy, Repeatless;
    SlicesPartition(ids, k);
    RepeatlessCount(ids[k..]);
    RepeatlessCount(ids);
    forall a, d | a in Elements(ids[k..]) && d in Elements(ids[..k]) ensures s[d].createdAt <= s[a].createdAt {
      AcrossCut(OldestFirst(s), ids, k, d, a);
    }
  }

  // Taking the first k, newest first, takes the newest.
  lemma TakeNewest(s: Store, ids: seq<MemoryId>, k: nat)
    requires Repeatless(ids) && SortedBy(NewestFirst(s), ids) && Elements(ids) <= s.Keys && k <= |ids|
    ensures Newest(s, Elements(ids), Elements(ids[..k]), Some(k))
  {
    hide Elements, SortedBy, Repeatless;
    SlicesPartition(ids, k);
    RepeatlessCount(ids[..k]);
    RepeatlessCount(ids);
    forall a, d | a in Elements(ids[..k]) && d in Elements(ids[k..]) ensures s[d].createdAt <= s[a].createdAt {
      AcrossCut(NewestFirst(s), ids, k, a, d);
    }
  }

  lemma TimeOrders(s: Store)
    ensures TotalPreorder(OldestFirst(s)) && TotalPreorder(NewestFirst(s))
  {
  }

  function Lookup(s: Store, ids: seq<MemoryId>): seq<Entry>
    requires forall id | id in ids :: id in s
  {
    seq(|ids|, i requires 0 <= i < |ids| => assert ids[i] in ids; s[ids[i]])
  }

  // The ids of a map, in whatever order the iterator yields them.
  method Iterate(ids: set<MemoryId>) returns (order: seq<MemoryId>)
    ensures Repeatless(order) && Elements(order) == ids
  {
    order := [];
    var left := ids;
    while left != {}
      invariant Repeatless(order) && Elements(order) == ids - left && left <= ids
    {
      var id :| id in left;
      assert id !in Elements(order);
      assert Elements(order + [id]) == Elements(order) + {id};
      order, left := order + [id], left - {id};
    }
  }

  method SortedByTime(s: Store, ids: seq<MemoryId>, newestFirst: bool) returns (r: seq<MemoryId>)
    requires Repeatless(ids)
    ensures SortedBy(if newestFirst then NewestFirst(s) else OldestFirst(s), r)
    ensures Repeatless(r) && Elements(r) == Elements(ids) && |r| == |ids|
  {
    hide Sort, TotalPreorder, Elements, Repeatless, SortedBy;
    TimeOrders(s);
    if newestFirst {
      SortedIds(NewestFirst(s), ids);
      r := Sort(NewestFirst(s), ids);
    } else {
      SortedIds(OldestFirst(s), ids);
      r := Sort(OldestFirst(s), ids);
    }
  }

  lemma PassIsRetained(pre: Store, policy: Policy, now: Timestamp, mid: Store, gone: set<MemoryId>)
    requires mid == pre - Aged(pre, policy, now) && gone <= Scoped(mid, policy.scope)
    requires Newest(mid, Scoped(mid, policy.scope), Scoped(mid, policy.scope) - gone, policy.maxEntries)
    ensures Retained(pre, policy, now, mid - gone)
  {
    var post := mid - gone;
    assert Scoped(mid, policy.scope) == Scoped(pre, policy.scope) - Aged(pre, policy, now);
    assert Scoped(post, policy.scope) == Scoped(mid, policy.scope) - gone;
  }

  class InMemoryBackend {
    var entries: Store

    constructor ()
      ensures entries == map[]
    {
      entries := map[];
    }

    // `HashMap::insert`: an entry with the same id is replaced.
    method Put(entry: Entry) returns (id: MemoryId)
      modifies this
      ensures id == entry.id && entries == old(entries)[entry.id := entry]
    {
      entries := entries[entry.id := entry];
      return entry.id;
    }

    method Delete(id: MemoryId) returns (r: Result<(), MemoryError>)
      modifies this
      ensures r == (if id in old(entries) then Ok(()) else Err(NoSuchEntry(id)))
      ensures entries == old(entries) - {id}
    {
      if id !in entries {
        return Err(NoSuchEntry(id));
      }
      entries := entries - {id};
      return Ok(());
    }

    // The newest matches, newest first, at most as many as asked for.
    method Retrieve(query: Query, now: Timestamp) returns (ids: seq<MemoryId>, results: seq<Entry>)
      ensures Repeatless(ids) && Found(entries, query, now, Elements(ids))
      ensures SortedBy(NewestFirst(entries), ids) && forall id | id in ids :: id in entries
      ensures results == Lookup(entries, ids)
    {
      hide Sort, SortedBy, Repeatless, Matches, OldestFirst, NewestFirst, Elements;
      var s := entries;
      ids := Iterate(Matching(s, query, now));
      ids := SortedByTime(s, ids, true);
      RepeatlessCount(ids);
      var k := |ids|;
      if query.limit.Some? && query.limit.value < |ids| {
        k := query.limit.value;
      }
      TakeNewest(s, ids, k);
      SlicesPartition(ids, k);
      PrefixSorted(NewestFirst(s), ids, k);
      ids := ids[..k];
      AllIn(ids, s.Keys);
      results := Lookup(s, ids);
    }

    method RemoveAll(ids: seq<MemoryId>) returns (removed: nat)
      requires Repeatless(ids) && Elements(ids) <= entries.Keys
      modifies this
      ensures entries == old(entries) - Elements(ids) && removed == |ids|
    {
      removed := 0;
      while removed < |ids|
        invariant removed <= |ids| && entries == old(entries) - Elements(ids[..removed])
      {
        assert ids[..removed + 1] == ids[..removed] + [ids[removed]];
        entries := entries - {ids[removed]};
        removed := removed + 1;
      }
      assert ids[..removed] == ids;
    }

    // Removes the oldest entries in scope beyond the limit.
    method TrimToLimit(scope: Option<Scope>, maxEntries: nat) returns (removed: nat, ghost gone: set<MemoryId>)
      modifies this
      ensures entries == old(entries) - gone && gone <= Scoped(old(entries), scope) && removed == |gone|
      ensures Newest(old(entries), Scoped(old(entries), scope), Scoped(old(entries), scope) - gone, Some(maxEntries))
    {
      hide Sort, SortedBy, Repeatless, Elements, OldestFirst, InScope;
      ghost var before := Scoped(entries, scope);
      gone, removed := {}, 0;
      var scoped := Iterate(Scoped(entries, scope));
      RepeatlessCount(scoped);
      if |scoped| > maxEntries {
        scoped := SortedByTime(entries, scoped, false);
        var excess := |scoped| - maxEntries;
        DropOldest(entries, scoped, excess);
        SlicesPartition(scoped, excess);
        RepeatlessCount(scoped[..excess]);
        gone := Elements(scoped[..excess]);
        removed := RemoveAll(scoped[..excess]);
      } else {
        assert before - {} == before && entries - {} == entries;
      }
    }

    // An age that does not fit is refused, and one that reaches back before the earliest date panics,
    // both before anything is removed; otherwise the store is retained exactly and the result is the
    // number of entries that went.
    method ApplyRetention(policy: Policy, now: Timestamp, earliest: Timestamp) returns (r: PassOutcome)
      modifies this
      ensures r.Refused? <==> policy.maxAge.Some? && policy.maxAge.value > MAX_AGE
      ensures r.Panicked? <==> policy.maxAge.Some? && policy.maxAge.value <= MAX_AGE && now - policy.maxAge.value < earliest
      ensures r.Refused? ==> r.error == AgeOutOfRange
      ensures !r.Returned? ==> entries == old(entries)
      ensures r.Returned? ==> Retained(old(entries), policy, now, entries) && r.removed == |old(entries)| - |entries|
    {
      hide Repeatless, Elements, TooOld, InScope, Retained, Newest;
      var removed := 0;
      ghost var pre := entries;
      if policy.maxAge.Some? {
        if policy.maxAge.value > MAX_AGE {
          return Refused(AgeOutOfRange);
        }
        if now - policy.maxAge.value < earliest {
          return Panicked;
        }
        var toRemove := Iterate(Aged(entries, policy, now));
        removed := RemoveAll(toRemove);
        RepeatlessCount(toRemove);
      } else {
        NothingAged(entries, policy, now);
      }
      ghost var mid, gone: set<MemoryId> := entries, {};
      if policy.maxEntries.Some? {
        var more;
        more, gone := TrimToLimit(policy.scope, policy.maxEntries.value);
        removed := removed + more;
      } else {
        KeepAll(mid, policy.scope);
      }
      PassIsRetained(pre, policy, now, mid, gone);
      Removed(pre, Aged(pre, policy, now), gone);
      return Returned(removed);
    }
  }

  // The entries come back newest first.
  lemma NewestComeFirst(s: Store, ids: seq<MemoryId>)
    requires SortedBy(NewestFirst(s), ids) && forall id | id in ids :: id in s
    ensures forall i, j | 0 <= i < j < |ids| :: Lookup(s, ids)[i].createdAt >= Lookup(s, ids)[j].createdAt
    ensures forall i | 0 <= i < |ids| :: Lookup(s, ids)[i] == s[ids[i]]
  {
  }

  lemma KeepAll(s: Store, scope: Option<Scope>)
    ensures s - {} == s && Newest(s, Scoped(s, scope), Scoped(s, scope) - {}, None)
  {
    assert Scoped(s, scope) - {} == Scoped(s, scope);
  }

  lemma NothingAged(s: Store, policy: Policy, now: Timestamp)
    requires policy.maxAge.None?
    ensures Aged(s, policy, now) == {} && s - {} == s
  {
  }

  lemma Removed(s: Store, first: set<MemoryId>, second: set<MemoryId>)
    requires first <= s.Keys && second <= s.Keys - first
    ensures |s - first - second| == |s| - |first| - |second|
  {
    assert (s - first - second).Keys == s.Keys - (first + second);
    SubsetCardinality(first + second, s.Keys);
    SubsetCardinality(first, first + second);
    assert first + second - first == second;
    MapSize(s);
    MapSize(s - first - second);
  }

  lemma MapSize(s: Store)
    ensures |s| == |s.Keys|
  {
  }
}
