/**
 * Order-preserving filtering, de-duplication, `findIndex`, and the stable
 * sort that `Array.prototype.sort` performs with a comparator. A comparator is modelled by `le(a, b)`, "a may
 * come before b"; the sort is specified by its three promises: the result is
 * ordered, it is a permutation of the input, and elements the comparator
 * ties keep their relative order.
 */
module Sorting {
  import opened Outcomes

  /** `s.filter(p)`: the elements satisfying `p`, in their original order. */
  function Filter<T>(s: seq<T>, p: T -> bool): (r: seq<T>)
    ensures |r| <= |s|
    ensures forall i :: 0 <= i < |r| ==> p(r[i])
  {
    if s == [] then []
    else
      var front := s[..|s| - 1];
      assert s == front + [s[|s| - 1]];
      Filter(front, p) + (if p(s[|s| - 1]) then [s[|s| - 1]] else [])
  }

  /** An element survives the filter exactly when it is in the input and satisfies `p`. */
  lemma {:induction false} FilterMembership<T>(s: seq<T>, p: T -> bool, x: T)
    ensures x in Filter(s, p) <==> x in s && p(x)
    decreases |s|
  {
    if s != [] {
      var front := s[..|s| - 1];
      FilterMembership(front, p, x);
      assert s == front + [s[|s| - 1]];
    }
  }

  lemma {:induction false} FilterConcat<T>(a: seq<T>, b: seq<T>, p: T -> bool)
    ensures Filter(a + b, p) == Filter(a, p) + Filter(b, p)
    decreases |b|
  {
    if b == [] {
      assert a + b == a;
    } else {
      var b' := b[..|b| - 1];
      assert (a + b)[..|a + b| - 1] == a + b';
      FilterConcat(a, b', p);
    }
  }

  lemma {:induction false} FilterAll<T>(s: seq<T>, p: T -> bool)
    requires forall i :: 0 <= i < |s| ==> p(s[i])
    ensures Filter(s, p) == s
    decreases |s|
  {
    if s != [] {
      var front := s[..|s| - 1];
      assert forall i :: 0 <= i < |front| ==> front[i] == s[i];
      FilterAll(front, p);
      assert p(s[|s| - 1]);
      assert s == front + [s[|s| - 1]];
    }
  }

  lemma {:induction false} FilterNone<T>(s: seq<T>, p: T -> bool)
    requires forall i :: 0 <= i < |s| ==> !p(s[i])
    ensures Filter(s, p) == []
    decreases |s|
  {
    if s != [] {
      var front := s[..|s| - 1];
      assert forall i :: 0 <= i < |front| ==> front[i] == s[i];
      FilterNone(front, p);
    }
  }

  /** The last element joins the filter's multiset exactly when it satisfies `p`. */
  lemma FilterLastMultiset<T>(s: seq<T>, p: T -> bool)
    requires s != []
    ensures multiset(Filter(s, p)) == multiset(Filter(s[..|s| - 1], p))
                                      + (if p(s[|s| - 1]) then multiset{s[|s| - 1]} else multiset{})
  {
    var f := Filter(s[..|s| - 1], p);
    if p(s[|s| - 1]) {
      assert Filter(s, p) == f + [s[|s| - 1]];
      assert multiset(f + [s[|s| - 1]]) == multiset(f) + multiset{s[|s| - 1]};
    } else {
      assert Filter(s, p) == f;
    }
  }

  lemma MultisetSnoc<T>(s: seq<T>)
    requires s != []
    ensures multiset(s) == multiset(s[..|s| - 1]) + multiset{s[|s| - 1]}
  {
    assert s == s[..|s| - 1] + [s[|s| - 1]];
  }

  /** One step of a two-way split: the new element lands on exactly one side. */
  lemma SplitStep<T>(a: multiset<T>, b: multiset<T>, a': multiset<T>, b': multiset<T>,
                     whole: multiset<T>, whole': multiset<T>, x: T, left: bool)
    requires a + b == whole && whole' == whole + multiset{x}
    requires a' == a + (if left then multiset{x} else multiset{})
    requires b' == b + (if !left then multiset{x} else multiset{})
    ensures a' + b' == whole'
  {
  }

  /** Two complementary filters split a sequence: together they hold every element once. */
  lemma {:induction false} FilterPartition<T>(s: seq<T>, p: T -> bool, q: T -> bool)
    requires forall i :: 0 <= i < |s| ==> (p(s[i]) <==> !q(s[i]))
    ensures multiset(Filter(s, p)) + multiset(Filter(s, q)) == multiset(s)
    decreases |s|
  {
    if s != [] {
      var front, last := s[..|s| - 1], s[|s| - 1];
      forall i | 0 <= i < |front|
        ensures p(front[i]) <==> !q(front[i])
      {
        assert front[i] == s[i];
      }
      FilterPartition(front, p, q);
      FilterLastMultiset(s, p);
      FilterLastMultiset(s, q);
      MultisetSnoc(s);
      assert q(last) <==> !p(last);
      SplitStep(multiset(Filter(front, p)), multiset(Filter(front, q)), multiset(Filter(s, p)), multiset(Filter(s, q)),
                multiset(front), multiset(s), last, p(last));
    }
  }

  predicate Distinct<T(==)>(s: seq<T>)
  {
    forall i, j :: 0 <= i < j < |s| ==> s[i] != s[j]
  }

  /** `Array.from(new Set(s))`: each value once, at its first occurrence, in order. */
  function Dedupe(s: seq<string>): (r: seq<string>)
    ensures Distinct(r)
    ensures forall x :: x in r <==> x in s
  {
    if s == [] then []
    else
      var d := Dedupe(s[..|s| - 1]);
      assert forall x :: x in s <==> x in s[..|s| - 1] || x == s[|s| - 1] by {
        assert s == s[..|s| - 1] + [s[|s| - 1]];
      }
      if s[|s| - 1] in d then d else d + [s[|s| - 1]]
  }

  /** `s.findIndex(p)`: the first index whose element satisfies `p`, if any. */
  function FindFirst<T>(s: seq<T>, p: T -> bool): (r: Option<nat>)
    ensures r.Some? ==> r.value < |s| && p(s[r.value]) && forall j :: 0 <= j < r.value ==> !p(s[j])
    ensures r.None? ==> forall j :: 0 <= j < |s| ==> !p(s[j])
  {
    if s == [] then None
    else if p(s[0]) then Some(0)
    else
      match FindFirst(s[1..], p)
      case None => None
      case Some(k) => Some(k + 1)
  }

  /** Total preorder: what a consistent comparator provides. */
  ghost predicate TotalPreorder<T(!new)>(le: (T, T) -> bool)
  {
    && (forall x, y :: le(x, y) || le(y, x))
    && (forall x, y, z :: le(x, y) && le(y, z) ==> le(x, z))
  }

  ghost predicate SortedBy<T>(s: seq<T>, le: (T, T) -> bool)
  {
    forall i, j :: 0 <= i < j < |s| ==> le(s[i], s[j])
  }

  /** The elements of `s` that the comparator ties with `y`, in order. */
  function Ties<T>(s: seq<T>, le: (T, T) -> bool, y: T): seq<T>
  {
    Filter(s, z => le(z, y) && le(y, z))
  }

  /** Inserts `x` after every element that may precede it. */
  function Insert<T>(t: seq<T>, x: T, le: (T, T) -> bool): (r: seq<T>)
    ensures |r| == |t| + 1
    ensures multiset(r) == multiset(t) + multiset{x}
  {
    if t == [] then [x]
    else if le(t[|t| - 1], x) then t + [x]
    else
      assert t == t[..|t| - 1] + [t[|t| - 1]];
      Insert(t[..|t| - 1], x, le) + [t[|t| - 1]]
  }

  /** Insertion sort, front to back: the reference stable sort. */
  function Sort<T>(s: seq<T>, le: (T, T) -> bool): (r: seq<T>)
    ensures |r| == |s|
    ensures multiset(r) == multiset(s)
  {
    if s == [] then []
    else
      assert s == s[..|s| - 1] + [s[|s| - 1]];
      Insert(Sort(s[..|s| - 1], le), s[|s| - 1], le)
  }

  lemma {:induction false} InsertSorted<T(!new)>(t: seq<T>, x: T, le: (T, T) -> bool)
    requires TotalPreorder(le)
    requires SortedBy(t, le)
    ensures SortedBy(Insert(t, x, le), le)
    decreases |t|
  {
    if t != [] {
      var last := t[|t| - 1];
      if !le(last, x) {
        var front := t[..|t| - 1];
        var r' := Insert(front, x, le);
        InsertSorted(front, x, le);
        assert le(x, last);
        forall i | 0 <= i < |r'|
          ensures le(r'[i], last)
        {
          assert r'[i] in multiset(r');
          assert r'[i] in multiset(front) || r'[i] == x;
          if r'[i] != x {
            assert r'[i] in front;
          }
        }
        var r := r' + [last];
        forall i, j | 0 <= i < j < |r|
          ensures le(r[i], r[j])
        {
          if j < |r'| {
            assert r[i] == r'[i] && r[j] == r'[j];
          }
        }
      }
    }
  }

  lemma {:induction false} SortSorted<T(!new)>(s: seq<T>, le: (T, T) -> bool)
    requires TotalPreorder(le)
    ensures SortedBy(Sort(s, le), le)
    decreases |s|
  {
    if s != [] {
      SortSorted(s[..|s| - 1], le);
      InsertSorted(Sort(s[..|s| - 1], le), s[|s| - 1], le);
    }
  }

  lemma TiesSnoc<T>(t: seq<T>, e: T, le: (T, T) -> bool, y: T)
    ensures Ties(t + [e], le, y) == Ties(t, le, y) + (if le(e, y) && le(y, e) then [e] else [])
  {
    assert (t + [e])[..|t|] == t;
  }

  lemma {:induction false} InsertTies<T(!new)>(t: seq<T>, x: T, le: (T, T) -> bool, y: T)
    requires TotalPreorder(le)
    requires SortedBy(t, le)
    ensures Ties(Insert(t, x, le), le, y) == Ties(t, le, y) + (if le(x, y) && le(y, x) then [x] else [])
    decreases |t|
  {
    if t == [] {
      TiesSnoc([], x, le, y);
      assert [] + [x] == [x];
    } else {
      var last := t[|t| - 1];
      var front := t[..|t| - 1];
      assert t == front + [last];
      if le(last, x) {
        TiesSnoc(t, x, le, y);
      } else {
        InsertTies(front, x, le, y);
        TiesSnoc(Insert(front, x, le), last, le, y);
        TiesSnoc(front, last, le, y);
      }
    }
  }

  lemma {:induction false} SortStable<T(!new)>(s: seq<T>, le: (T, T) -> bool, y: T)
    requires TotalPreorder(le)
    ensures Ties(Sort(s, le), le, y) == Ties(s, le, y)
    decreases |s|
  {
    if s != [] {
      var front, last := s[..|s| - 1], s[|s| - 1];
      assert s == front + [last];
      var tail: seq<T> := if le(last, y) && le(y, last) then [last] else [];
      SortStable(front, le, y);
      SortSorted(front, le);
      InsertTies(Sort(front, le), last, le, y);
      assert Ties(Sort(s, le), le, y) == Ties(front, le, y) + tail;
      TiesSnoc(front, last, le, y);
    }
  }

  /** `Sort` is a stable sort: ordered, a permutation, ties in input order. */
  lemma SortIsStableSort<T(!new)>(s: seq<T>, le: (T, T) -> bool)
    requires TotalPreorder(le)
    ensures SortedBy(Sort(s, le), le)
    ensures multiset(Sort(s, le)) == multiset(s)
    ensures forall y :: Ties(Sort(s, le), le, y) == Ties(s, le, y)
  {
    SortSorted(s, le);
    forall y ensures Ties(Sort(s, le), le, y) == Ties(s, le, y) {
      SortStable(s, le, y);
    }
  }
}
