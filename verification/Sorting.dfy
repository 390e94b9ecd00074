/** Stable sorting by a key order, as every `sorted(...)` call of the program relies on it. */
module Sorting {
  ghost predicate TotalPreorder<T(!new)>(le: (T, T) -> bool) {
    && (forall a, b :: le(a, b) || le(b, a))
    && (forall a, b, c :: le(a, b) && le(b, c) ==> le(a, c))
  }

  ghost predicate Sorted<T>(s: seq<T>, le: (T, T) -> bool) {
    forall i, j | 0 <= i < j < |s| :: le(s[i], s[j])
  }

  /** Put x behind every element that does not come strictly after it. */
  function Insert<T>(x: T, s: seq<T>, le: (T, T) -> bool): seq<T> {
    if s == [] then [x]
    else if le(s[|s| - 1], x) then s + [x]
    else Insert(x, s[..|s| - 1], le) + [s[|s| - 1]]
  }

  function StableSort<T>(s: seq<T>, le: (T, T) -> bool): seq<T> {
    if s == [] then [] else Insert(s[|s| - 1], StableSort(s[..|s| - 1], le), le)
  }

  function Filter<T>(s: seq<T>, p: T -> bool): seq<T> {
    if s == [] then []
    else Filter(s[..|s| - 1], p) + (if p(s[|s| - 1]) then [s[|s| - 1]] else [])
  }

  lemma {:induction false} InsertContents<T>(x: T, s: seq<T>, le: (T, T) -> bool)
    ensures multiset(Insert(x, s, le)) == multiset(s) + multiset{x}
  {
    if s != [] {
      assert s == s[..|s| - 1] + [s[|s| - 1]];
      if !le(s[|s| - 1], x) {
        InsertContents(x, s[..|s| - 1], le);
      }
    }
  }

  lemma {:induction false} InsertSorted<T(!new)>(x: T, s: seq<T>, le: (T, T) -> bool)
    requires TotalPreorder(le) && Sorted(s, le)
    ensures Sorted(Insert(x, s, le), le)
  {
    if s != [] {
      var front, last := s[..|s| - 1], s[|s| - 1];
      if le(last, x) {
        forall e | e in s
          ensures le(e, x)
        {
          assert e == last || le(e, last);
        }
      } else {
        InsertSorted(x, front, le);
        InsertContents(x, front, le);
        forall e | e in Insert(x, front, le)
          ensures le(e, last)
        {
          assert e in multiset(Insert(x, front, le));
          assert e in front || e == x;
        }
      }
    }
  }

  /** Sorting yields the same elements, in order. */
  lemma {:induction false} SortSorts<T(!new)>(s: seq<T>, le: (T, T) -> bool)
    requires TotalPreorder(le)
    ensures Sorted(StableSort(s, le), le)
    ensures multiset(StableSort(s, le)) == multiset(s)
    ensures |StableSort(s, le)| == |s|
    ensures forall e :: e in StableSort(s, le) <==> e in s
  {
    if s != [] {
      var front, last := s[..|s| - 1], s[|s| - 1];
      assert s == front + [last];
      SortSorts(front, le);
      InsertSorted(last, StableSort(front, le), le);
      InsertContents(last, StableSort(front, le), le);
    }
    assert |multiset(StableSort(s, le))| == |multiset(s)|;
    forall e
      ensures e in StableSort(s, le) <==> e in s
    {
      assert e in StableSort(s, le) <==> e in multiset(StableSort(s, le));
    }
  }

  /** A sequence that is in order already is left alone. */
  lemma {:induction false} SortIdentity<T(!new)>(s: seq<T>, le: (T, T) -> bool)
    requires Sorted(s, le)
    ensures StableSort(s, le) == s
  {
    if s != [] {
      SortIdentity(s[..|s| - 1], le);
      assert s == s[..|s| - 1] + [s[|s| - 1]];
    }
  }

  lemma {:induction false} FilterKeeps<T>(s: seq<T>, p: T -> bool)
    ensures forall e | e in Filter(s, p) :: e in s && p(e)
    ensures forall e | e in s && p(e) :: e in Filter(s, p)
  {
    if s != [] {
      assert s == s[..|s| - 1] + [s[|s| - 1]];
      FilterKeeps(s[..|s| - 1], p);
    }
  }

  lemma {:induction false} FilterAppend<T>(a: seq<T>, b: seq<T>, p: T -> bool)
    ensures Filter(a + b, p) == Filter(a, p) + Filter(b, p)
  {
    if b == [] {
      assert a + b == a;
    } else {
      var last := b[|b| - 1];
      assert (a + b)[..|a + b| - 1] == a + b[..|b| - 1];
      FilterAppend(a, b[..|b| - 1], p);
    }
  }

  lemma {:induction false} FilterSorted<T>(s: seq<T>, p: T -> bool, le: (T, T) -> bool)
    requires Sorted(s, le)
    ensures Sorted(Filter(s, p), le)
  {
    if s != [] {
      var front, last := s[..|s| - 1], s[|s| - 1];
      FilterSorted(front, p, le);
      FilterKeeps(front, p);
      forall e | e in Filter(front, p)
        ensures le(e, last)
      {
        assert e in front;
        var i :| 0 <= i < |front| && front[i] == e;
        assert le(s[i], s[|s| - 1]);
      }
    }
  }

  lemma {:induction false} FilterInsert<T(!new)>(x: T, s: seq<T>, p: T -> bool, le: (T, T) -> bool)
    requires TotalPreorder(le) && Sorted(s, le)
    ensures Filter(Insert(x, s, le), p) == if p(x) then Insert(x, Filter(s, p), le) else Filter(s, p)
  {
    if s != [] {
      var front, last := s[..|s| - 1], s[|s| - 1];
      if le(last, x) {
        assert (s + [x])[..|s|] == s;
        FilterKeeps(s, p);
        assert forall e | e in s :: le(e, x) by {
          forall e | e in s ensures le(e, x) { assert e == last || le(e, last); }
        }
      } else {
        FilterInsert(x, front, p, le);
        var inner := Insert(x, front, le);
        assert (inner + [last])[..|inner|] == inner;
        if p(last) {
          var kept := Filter(front, p);
          assert Filter(s, p) == kept + [last];
          assert (kept + [last])[..|kept|] == kept;
        } else if p(x) {
          assert Filter(s, p) == Filter(front, p);
        }
      }
    }
  }

  /** Stability: what a sub-selection sees is the sorted sub-selection, whatever the selection.
      Selecting one equivalence class of the key shows that ties keep their original order. */
  lemma {:induction false} SortStable<T(!new)>(s: seq<T>, p: T -> bool, le: (T, T) -> bool)
    requires TotalPreorder(le)
    ensures Filter(StableSort(s, le), p) == StableSort(Filter(s, p), le)
  {
    if s != [] {
      var front, last := s[..|s| - 1], s[|s| - 1];
      var kept := Filter(front, p);
      SortStable(front, p, le);
      SortSorts(front, le);
      FilterInsert(last, StableSort(front, le), p, le);
      if p(last) {
        var all := Filter(s, p);
        assert all == kept + [last];
        assert all[..|all| - 1] == kept && all[|all| - 1] == last;
        assert StableSort(all, le) == Insert(last, StableSort(kept, le), le);
      } else {
        assert Filter(s, p) == kept;
      }
    }
  }
}
