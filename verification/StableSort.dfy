/** A stable sort with a caller-supplied order, standing for `slice::sort_by` and
    `slice::sort_by_key`. Insertion is its definition; the lemmas pin down its result. */
module StableSort {

  ghost predicate TotalPreorder<T(!new)>(le: (T, T) -> bool) {
    && (forall a, b :: le(a, b) || le(b, a))
    && (forall a, b, c :: le(a, b) && le(b, c) ==> le(a, c))
  }

  ghost predicate SortedBy<T>(le: (T, T) -> bool, s: seq<T>) {
    forall i, j | 0 <= i < j < |s| :: le(s[i], s[j])
  }

  // Insert before the first element that is not strictly smaller: `x` came earlier.
  function InsertFirst<T>(le: (T, T) -> bool, x: T, s: seq<T>): seq<T> {
    if s == [] || le(x, s[0]) then [x] + s else [s[0]] + InsertFirst(le, x, s[1..])
  }

  // Insert after the last element that is not strictly larger: `x` came later.
  function InsertLast<T>(le: (T, T) -> bool, x: T, s: seq<T>): seq<T> {
    if s == [] || !le(s[0], x) then [x] + s else [s[0]] + InsertLast(le, x, s[1..])
  }

  function Sort<T>(le: (T, T) -> bool, s: seq<T>): seq<T> {
    if s == [] then [] else InsertFirst(le, s[0], Sort(le, s[1..]))
  }

  function Filter<T(!new)>(p: T -> bool, s: seq<T>): (r: seq<T>)
    ensures forall x :: x in r <==> x in s && p(x)
    ensures |r| <= |s|
  {
    if s == [] then []
    else if p(s[0]) then [s[0]] + Filter(p, s[1..])
    else Filter(p, s[1..])
  }

  // ---- Sorted permutation ----

  lemma {:induction false} InsertFirstMembers<T(!new)>(le: (T, T) -> bool, x: T, s: seq<T>)
    ensures multiset(InsertFirst(le, x, s)) == multiset(s) + multiset{x}
    ensures forall y | y in InsertFirst(le, x, s) :: y == x || y in s
  {
    if s != [] {
      assert s == [s[0]] + s[1..];
      if !le(x, s[0]) {
        InsertFirstMembers(le, x, s[1..]);
      }
    }
  }

  lemma {:induction false} InsertFirstSorted<T(!new)>(le: (T, T) -> bool, x: T, s: seq<T>)
    requires TotalPreorder(le) && SortedBy(le, s)
    ensures SortedBy(le, InsertFirst(le, x, s))
    ensures multiset(InsertFirst(le, x, s)) == multiset(s) + multiset{x}
  {
    InsertFirstMembers(le, x, s);
    if s != [] {
      if le(x, s[0]) {
        assert forall j | 0 <= j < |s| :: le(s[0], s[j]);
      } else {
        InsertFirstSorted(le, x, s[1..]);
        InsertFirstMembers(le, x, s[1..]);
        assert forall y | y in InsertFirst(le, x, s[1..]) :: le(s[0], y);
      }
    }
  }

  lemma {:induction false} SortSorts<T(!new)>(le: (T, T) -> bool, s: seq<T>)
    requires TotalPreorder(le)
    ensures SortedBy(le, Sort(le, s))
    ensures multiset(Sort(le, s)) == multiset(s)
  {
    if s != [] {
      SortSorts(le, s[1..]);
      InsertFirstSorted(le, s[0], Sort(le, s[1..]));
      assert s == [s[0]] + s[1..];
    }
  }

  lemma SortMembers<T(!new)>(le: (T, T) -> bool, s: seq<T>)
    requires TotalPreorder(le)
    ensures |Sort(le, s)| == |s|
    ensures forall x :: x in Sort(le, s) <==> x in s
  {
    SortSorts(le, s);
    assert |multiset(Sort(le, s))| == |multiset(s)|;
    forall x ensures x in Sort(le, s) <==> x in s {
      assert x in multiset(Sort(le, s)) <==> x in multiset(s);
    }
  }

  lemma SortPutsLeastFirst<T(!new)>(le: (T, T) -> bool, s: seq<T>)
    requires TotalPreorder(le) && s != []
    ensures Sort(le, s) != [] && Sort(le, s)[0] in s
    ensures forall x | x in s :: le(Sort(le, s)[0], x)
  {
    SortSorts(le, s);
    SortMembers(le, s);
    var r := Sort(le, s);
    assert r[0] in r;
    forall x | x in s ensures le(r[0], x) {
      assert x in r;
      var j :| 0 <= j < |r| && r[j] == x;
      assert j == 0 || le(r[0], r[j]);
    }
  }

  lemma {:induction false} SortOfSorted<T(!new)>(le: (T, T) -> bool, s: seq<T>)
    requires TotalPreorder(le) && SortedBy(le, s)
    ensures Sort(le, s) == s
  {
    if s != [] {
      SortOfSorted(le, s[1..]);
      if s[1..] != [] {
        assert le(s[0], s[1]);
      }
    }
  }

  // ---- Stability: sorting commutes with dropping elements ----

  lemma {:induction false} InsertFilter<T(!new)>(le: (T, T) -> bool, p: T -> bool, x: T, s: seq<T>)
    requires TotalPreorder(le) && SortedBy(le, s)
    ensures Filter(p, InsertFirst(le, x, s))
         == if p(x) then InsertFirst(le, x, Filter(p, s)) else Filter(p, s)
  {
    if s != [] {
      if le(x, s[0]) {
        assert InsertFirst(le, x, s)[1..] == s;
        InsertSmallest(le, p, x, s);
      } else {
        InsertFilter(le, p, x, s[1..]);
        assert InsertFirst(le, x, s)[1..] == InsertFirst(le, x, s[1..]);
        var f := Filter(p, s[1..]);
        assert ([s[0]] + f)[1..] == f;
      }
    }
  }

  lemma InsertSmallest<T(!new)>(le: (T, T) -> bool, p: T -> bool, x: T, s: seq<T>)
    requires TotalPreorder(le) && SortedBy(le, s) && (s != [] ==> le(x, s[0]))
    ensures InsertFirst(le, x, Filter(p, s)) == [x] + Filter(p, s)
  {
    if Filter(p, s) != [] {
      assert Filter(p, s)[0] in s;
      assert forall y | y in s :: le(x, y);
    }
  }

  lemma {:induction false} SortFilter<T(!new)>(le: (T, T) -> bool, p: T -> bool, s: seq<T>)
    requires TotalPreorder(le)
    ensures Filter(p, Sort(le, s)) == Sort(le, Filter(p, s))
  {
    if s != [] {
      SortSorts(le, s[1..]);
      SortFilter(le, p, s[1..]);
      InsertFilter(le, p, s[0], Sort(le, s[1..]));
      var f := Filter(p, s[1..]);
      assert ([s[0]] + f)[1..] == f;
    }
  }

  // ---- Appending to a sorted list and sorting again ----

  lemma {:induction false} InsertsCommute<T(!new)>(le: (T, T) -> bool, x: T, y: T, s: seq<T>)
    requires TotalPreorder(le)
    ensures InsertFirst(le, x, InsertLast(le, y, s)) == InsertLast(le, y, InsertFirst(le, x, s))
  {
    if s != [] {
      InsertsCommute(le, x, y, s[1..]);
    }
  }

  lemma {:induction false} SortAppend<T(!new)>(le: (T, T) -> bool, s: seq<T>, y: T)
    requires TotalPreorder(le)
    ensures Sort(le, s + [y]) == InsertLast(le, y, Sort(le, s))
  {
    if s == [] {
      assert s + [y] == [y];
      assert Sort(le, [y][1..]) == [];
    } else {
      assert (s + [y])[1..] == s[1..] + [y];
      SortAppend(le, s[1..], y);
      InsertsCommute(le, s[0], y, Sort(le, s[1..]));
    }
  }

  // Push-and-sort on an already sorted list equals sorting the whole history at once.
  lemma PushAndSort<T(!new)>(le: (T, T) -> bool, s: seq<T>, y: T)
    requires TotalPreorder(le)
    ensures Sort(le, Sort(le, s) + [y]) == Sort(le, s + [y])
  {
    SortSorts(le, s);
    SortOfSorted(le, Sort(le, s));
    SortAppend(le, Sort(le, s), y);
    SortAppend(le, s, y);
  }
}
