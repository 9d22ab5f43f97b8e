/** Filtering and stable sorting of sequences, as the array methods do it. */
module Sorting {

  function Filter<T(!new)>(s: seq<T>, p: T -> bool): (r: seq<T>)
    ensures forall x :: x in r <==> x in s && p(x)
    ensures |r| <= |s|
  {
    if s == [] then []
    else
      var rest := Filter(s[..|s| - 1], p);
      assert s == s[..|s| - 1] + [s[|s| - 1]];
      if p(s[|s| - 1]) then rest + [s[|s| - 1]] else rest
  }

  ghost predicate TotalPreorder<T(!new)>(le: (T, T) -> bool) {
    && (forall x, y :: le(x, y) || le(y, x))
    && (forall x, y, z :: le(x, y) && le(y, z) ==> le(x, z))
  }

  ghost predicate Sorted<T>(s: seq<T>, le: (T, T) -> bool) {
    forall i, j :: 0 <= i < j < |s| ==> le(s[i], s[j])
  }

  /** Inserts behind every element not greater than `x`. */
  function Insert<T>(x: T, s: seq<T>, le: (T, T) -> bool): (r: seq<T>)
    ensures multiset(r) == multiset(s) + multiset{x}
    ensures |r| == |s| + 1
  {
    if s == [] || le(s[|s| - 1], x) then s + [x]
    else
      assert s == s[..|s| - 1] + [s[|s| - 1]];
      Insert(x, s[..|s| - 1], le) + [s[|s| - 1]]
  }

  /** Stable insertion sort. */
  function Sort<T>(s: seq<T>, le: (T, T) -> bool): (r: seq<T>)
    ensures multiset(r) == multiset(s)
    ensures |r| == |s|
  {
    if s == [] then []
    else
      assert s == s[..|s| - 1] + [s[|s| - 1]];
      Insert(s[|s| - 1], Sort(s[..|s| - 1], le), le)
  }

  lemma SortSameElements<T(!new)>(s: seq<T>, le: (T, T) -> bool)
    ensures forall x :: x in Sort(s, le) <==> x in s
  {
    forall x ensures x in Sort(s, le) <==> x in s {
      assert x in Sort(s, le) <==> x in multiset(Sort(s, le));
      assert x in s <==> x in multiset(s);
    }
  }

  lemma AppendSorted<T(!new)>(s: seq<T>, x: T, le: (T, T) -> bool)
    requires Sorted(s, le) && forall y :: y in s ==> le(y, x)
    ensures Sorted(s + [x], le)
  {
  }

  lemma InsertMembers<T(!new)>(x: T, s: seq<T>, le: (T, T) -> bool)
    ensures forall y :: y in Insert(x, s, le) <==> y == x || y in s
  {
    forall y ensures y in Insert(x, s, le) <==> y == x || y in s {
      assert y in Insert(x, s, le) <==> y in multiset(Insert(x, s, le));
      assert y in s <==> y in multiset(s);
    }
  }

  lemma {:induction false} InsertSorted<T(!new)>(x: T, s: seq<T>, le: (T, T) -> bool)
    requires TotalPreorder(le) && Sorted(s, le)
    ensures Sorted(Insert(x, s, le), le)
  {
    if s == [] {
      AppendSorted(s, x, le);
    } else {
      var init, last := s[..|s| - 1], s[|s| - 1];
      assert s == init + [last];
      SortedInit(init, last, le);
      hide Sorted;
      if le(last, x) {
        forall y | y in s ensures le(y, x) {
          assert y == last || y in init;
        }
        AppendSorted(s, x, le);
      } else {
        InsertSorted(x, init, le);
        InsertMembers(x, init, le);
        AppendSorted(Insert(x, init, le), last, le);
      }
    }
  }

  lemma {:induction false} SortSorted<T(!new)>(s: seq<T>, le: (T, T) -> bool)
    requires TotalPreorder(le)
    ensures Sorted(Sort(s, le), le)
  {
    if s != [] {
      SortSorted(s[..|s| - 1], le);
      InsertSorted(s[|s| - 1], Sort(s[..|s| - 1], le), le);
    }
  }

  ghost predicate NoDup<T>(s: seq<T>) {
    forall i, j :: 0 <= i < j < |s| ==> s[i] != s[j]
  }

  ghost function Elements<T(!new)>(s: seq<T>): set<T> {
    set x | x in s
  }

  lemma {:induction false} NoDupCount<T(!new)>(s: seq<T>)
    requires NoDup(s)
    ensures |Elements(s)| == |s|
    ensures forall x :: multiset(s)[x] <= 1
  {
    if s != [] {
      var init, last := s[..|s| - 1], s[|s| - 1];
      NoDupCount(init);
      assert s == init + [last];
      assert Elements(s) == Elements(init) + {last};
      assert last !in init;
    }
  }

  lemma {:induction false} SubsetSize<T>(a: set<T>, b: set<T>)
    requires a <= b
    ensures |a| <= |b|
  {
    if a != {} {
      var x :| x in a;
      SubsetSize(a - {x}, b - {x});
    }
  }

  lemma {:induction false} NoDupFromMultiset<T(!new)>(s: seq<T>)
    requires forall x :: multiset(s)[x] <= 1
    ensures NoDup(s)
  {
    if s != [] {
      var init, last := s[..|s| - 1], s[|s| - 1];
      assert s == init + [last];
      assert forall x :: multiset(init)[x] <= multiset(s)[x];
      NoDupFromMultiset(init);
      assert multiset(s)[last] == multiset(init)[last] + 1;
      assert last !in multiset(init);
    }
  }

  lemma SortNoDup<T(!new)>(s: seq<T>, le: (T, T) -> bool)
    requires NoDup(s)
    ensures NoDup(Sort(s, le))
  {
    NoDupCount(s);
    NoDupFromMultiset(Sort(s, le));
  }

  lemma {:induction false} FilterNoDup<T(!new)>(s: seq<T>, p: T -> bool)
    requires NoDup(s)
    ensures NoDup(Filter(s, p))
  {
    if s != [] {
      FilterNoDup(s[..|s| - 1], p);
    }
  }

  lemma {:induction false} FilterPrefix<T(!new)>(s: seq<T>, i: nat, p: T -> bool)
    requires i < |s|
    ensures Filter(s[..i + 1], p) == if p(s[i]) then Filter(s[..i], p) + [s[i]] else Filter(s[..i], p)
  {
    assert s[..i + 1][..i] == s[..i];
  }

  lemma {:induction false} FilterTwice<T(!new)>(s: seq<T>, p: T -> bool, q: T -> bool, both: T -> bool)
    requires forall x :: both(x) <==> p(x) && q(x)
    ensures Filter(Filter(s, p), q) == Filter(s, both)
  {
    if s != [] {
      var init := s[..|s| - 1];
      FilterTwice(init, p, q, both);
      if p(s[|s| - 1]) {
        assert (Filter(init, p) + [s[|s| - 1]])[..|Filter(init, p)|] == Filter(init, p);
      }
    }
  }

  lemma {:induction false} FilterSame<T(!new)>(s: seq<T>, p: T -> bool, q: T -> bool)
    requires forall x :: x in s ==> (p(x) <==> q(x))
    ensures Filter(s, p) == Filter(s, q)
  {
    if s != [] {
      FilterSame(s[..|s| - 1], p, q);
    }
  }

  lemma {:induction false} FilterConcat<T(!new)>(a: seq<T>, b: seq<T>, p: T -> bool)
    ensures Filter(a + b, p) == Filter(a, p) + Filter(b, p)
  {
    if b == [] {
      assert a + b == a;
    } else {
      assert (a + b)[..|a + b| - 1] == a + b[..|b| - 1];
      FilterConcat(a, b[..|b| - 1], p);
    }
  }

  lemma {:induction false} FilterNone<T(!new)>(s: seq<T>, p: T -> bool)
    requires forall x :: x in s ==> !p(x)
    ensures Filter(s, p) == []
  {
    if s != [] {
      FilterNone(s[..|s| - 1], p);
    }
  }

  lemma {:induction false} FilterAll<T(!new)>(s: seq<T>, p: T -> bool)
    requires forall x :: x in s ==> p(x)
    ensures Filter(s, p) == s
  {
    if s != [] {
      FilterAll(s[..|s| - 1], p);
    }
  }

  /** One more element satisfies the second predicate. */
  lemma {:induction false} FilterOneMore<T(!new)>(s: seq<T>, p: T -> bool, q: T -> bool, k: nat)
    requires k < |s| && !p(s[k]) && q(s[k])
    requires forall i :: 0 <= i < |s| && i != k ==> (p(s[i]) <==> q(s[i]))
    ensures |Filter(s, q)| == |Filter(s, p)| + 1
  {
    var last := |s| - 1;
    if k == last {
      FilterSame(s[..last], p, q);
    } else {
      FilterOneMore(s[..last], p, q, k);
    }
  }

  /** Filtering a sequence that was changed only where the elements are dropped. */
  lemma {:induction false} FilterChanged<T(!new)>(s: seq<T>, t: seq<T>, p: T -> bool, q: T -> bool)
    requires |s| == |t|
    requires forall i :: 0 <= i < |s| ==> (p(t[i]) <==> q(s[i])) && (q(s[i]) ==> t[i] == s[i])
    ensures Filter(t, p) == Filter(s, q)
  {
    if s != [] {
      FilterChanged(s[..|s| - 1], t[..|t| - 1], p, q);
    }
  }

  lemma FilterSnoc<T(!new)>(s: seq<T>, x: T, p: T -> bool)
    ensures Filter(s + [x], p) == if p(x) then Filter(s, p) + [x] else Filter(s, p)
  {
    assert (s + [x])[..|s|] == s;
  }

  lemma SortedInit<T(!new)>(init: seq<T>, last: T, le: (T, T) -> bool)
    requires TotalPreorder(le) && Sorted(init + [last], le)
    ensures Sorted(init, le) && le(last, last) && forall y :: y in init ==> le(y, last)
  {
    var s := init + [last];
    forall i, j | 0 <= i < j < |init| ensures le(init[i], init[j]) {
      assert le(s[i], s[j]);
    }
    forall y | y in init ensures le(y, last) {
      var i :| 0 <= i < |init| && init[i] == y;
      assert le(s[i], s[|init|]);
    }
  }

  /** An element not smaller than any other goes to the end. */
  lemma InsertGreatest<T(!new)>(x: T, s: seq<T>, le: (T, T) -> bool)
    requires forall y :: y in s ==> le(y, x)
    ensures Insert(x, s, le) == s + [x]
  {
    assert s != [] ==> s[|s| - 1] in s;
  }

  lemma InsertAtEndThenFilter<T(!new)>(x: T, s: seq<T>, p: T -> bool, le: (T, T) -> bool)
    requires forall y :: y in s ==> le(y, x)
    ensures Filter(Insert(x, s, le), p) == if p(x) then Insert(x, Filter(s, p), le) else Filter(s, p)
  {
    hide Filter, Insert;
    InsertGreatest(x, s, le);
    InsertGreatest(x, Filter(s, p), le);
    FilterSnoc(s, x, p);
  }

  lemma InsertBeforeLast<T(!new)>(x: T, init: seq<T>, last: T, le: (T, T) -> bool)
    requires !le(last, x)
    ensures Insert(x, init + [last], le) == Insert(x, init, le) + [last]
  {
    assert (init + [last])[..|init|] == init;
  }

  lemma InsertBeforeLastThenFilter<T(!new)>(x: T, init: seq<T>, last: T, p: T -> bool, le: (T, T) -> bool)
    requires !le(last, x)
    requires Filter(Insert(x, init, le), p) == if p(x) then Insert(x, Filter(init, p), le) else Filter(init, p)
    ensures Filter(Insert(x, init + [last], le), p) ==
            if p(x) then Insert(x, Filter(init + [last], p), le) else Filter(init + [last], p)
  {
    hide Filter, Insert;
    InsertBeforeLast(x, init, last, le);
    FilterSnoc(Insert(x, init, le), last, p);
    FilterSnoc(init, last, p);
    InsertBeforeLast(x, Filter(init, p), last, le);
  }

  lemma {:induction false} InsertThenFilter<T(!new)>(x: T, s: seq<T>, p: T -> bool, le: (T, T) -> bool)
    requires TotalPreorder(le) && Sorted(s, le)
    ensures Filter(Insert(x, s, le), p) == if p(x) then Insert(x, Filter(s, p), le) else Filter(s, p)
  {
    hide Filter, Insert, Sorted;
    if s == [] {
      InsertAtEndThenFilter(x, s, p, le);
    } else {
      var init, last := s[..|s| - 1], s[|s| - 1];
      assert s == init + [last];
      SortedInit(init, last, le);
      if le(last, x) {
        forall y | y in s ensures le(y, x) {
          assert y == last || y in init;
        }
        InsertAtEndThenFilter(x, s, p, le);
      } else {
        InsertThenFilter(x, init, p, le);
        InsertBeforeLastThenFilter(x, init, last, p, le);
      }
    }
  }

  /** A stable sort commutes with filtering. */
  lemma {:induction false} SortThenFilter<T(!new)>(s: seq<T>, p: T -> bool, le: (T, T) -> bool)
    requires TotalPreorder(le)
    ensures Filter(Sort(s, le), p) == Sort(Filter(s, p), le)
  {
    if s != [] {
      var init, last := s[..|s| - 1], s[|s| - 1];
      SortThenFilter(init, p, le);
      SortSorted(init, le);
      InsertThenFilter(last, Sort(init, le), p, le);
      if p(last) {
        var f := Filter(init, p);
        assert (f + [last])[..|f|] == f;
      }
    }
  }
}
