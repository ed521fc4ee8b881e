/**
 A stable sort over sequences, standing for Go's `sort.Strings` and `sort.SliceStable`,
 Python's `sorted` and the sorts of data frames. The order is given by a strict
 comparison; a stable sort of a sequence is unique, so any other stable algorithm returns
 the same sequence.
 */
module Sorting {

  /** `less` is a strict weak order: what library sorts ask of a comparison. */
  ghost predicate StrictWeak<T(!new)>(less: (T, T) -> bool) {
    && (forall a, b :: Asymmetric(less, a, b))
    && (forall a, b, c :: NegativelyTransitive(less, a, b, c))
  }

  predicate Asymmetric<T>(less: (T, T) -> bool, a: T, b: T) {
    less(a, b) ==> !less(b, a)
  }

  predicate NegativelyTransitive<T>(less: (T, T) -> bool, a: T, b: T, c: T) {
    !less(a, b) && !less(b, c) ==> !less(a, c)
  }

  ghost predicate Ordered<T>(s: seq<T>, less: (T, T) -> bool) {
    forall i, j :: 0 <= i < j < |s| ==> !less(s[j], s[i])
  }

  /** `x` goes behind everything that is not greater than it. */
  function Insert<T>(x: T, s: seq<T>, less: (T, T) -> bool): (r: seq<T>)
    ensures |r| == |s| + 1
    ensures multiset(r) == multiset(s) + multiset{x}
  {
    if s == [] || !less(x, s[|s| - 1]) then s + [x]
    else
      assert s == s[..|s| - 1] + [s[|s| - 1]];
      Insert(x, s[..|s| - 1], less) + [s[|s| - 1]]
  }

  function Sort<T>(s: seq<T>, less: (T, T) -> bool): (r: seq<T>)
    ensures |r| == |s|
    ensures multiset(r) == multiset(s)
  {
    if s == [] then []
    else
      assert s == s[..|s| - 1] + [s[|s| - 1]];
      Insert(s[|s| - 1], Sort(s[..|s| - 1], less), less)
  }

  lemma SameMembers<T>(s: seq<T>, t: seq<T>)
    requires multiset(s) == multiset(t)
    ensures forall x :: x in s <==> x in t
  {
    forall x
      ensures x in s <==> x in t
    {
      assert x in s <==> x in multiset(s);
      assert x in t <==> x in multiset(t);
    }
  }

  lemma {:induction false} InsertOrdered<T(!new)>(x: T, s: seq<T>, less: (T, T) -> bool)
    requires StrictWeak(less) && Ordered(s, less)
    ensures Ordered(Insert(x, s, less), less)
  {
    if s != [] {
      var front, last := s[..|s| - 1], s[|s| - 1];
      if less(x, last) {
        InsertOrdered(x, front, less);
        var r := Insert(x, front, less);
        assert multiset(front + [x]) == multiset(r);
        SameMembers(r, front + [x]);
        forall i | 0 <= i < |r|
          ensures !less(last, r[i])
        {
          assert r[i] in r;
          assert Asymmetric(less, x, last);
        }
      } else {
        forall i | 0 <= i < |s|
          ensures !less(x, s[i])
        {
          assert NegativelyTransitive(less, x, last, s[i]);
        }
      }
    }
  }

  lemma {:induction false} SortOrdered<T(!new)>(s: seq<T>, less: (T, T) -> bool)
    requires StrictWeak(less)
    ensures Ordered(Sort(s, less), less)
  {
    if s != [] {
      SortOrdered(s[..|s| - 1], less);
      InsertOrdered(s[|s| - 1], Sort(s[..|s| - 1], less), less);
    }
  }

  /** The elements that neither come before `k` nor after it, in order. */
  function Ties<T>(s: seq<T>, less: (T, T) -> bool, k: T): seq<T> {
    if s == [] then []
    else
      var last := s[|s| - 1];
      Ties(s[..|s| - 1], less, k) + if !less(last, k) && !less(k, last) then [last] else []
  }

  lemma TiesAppend<T>(s: seq<T>, x: T, less: (T, T) -> bool, k: T)
    ensures Ties(s + [x], less, k) == Ties(s, less, k) + if !less(x, k) && !less(k, x) then [x] else []
  {
    assert (s + [x])[..|s|] == s;
  }

  lemma {:induction false} InsertStable<T(!new)>(x: T, s: seq<T>, less: (T, T) -> bool, k: T)
    requires StrictWeak(less)
    ensures Ties(Insert(x, s, less), less, k) == Ties(s + [x], less, k)
  {
    if s != [] && less(x, s[|s| - 1]) {
      var front, last := s[..|s| - 1], s[|s| - 1];
      InsertStable(x, front, less, k);
      assert s == front + [last];
      TiesAppend(Insert(x, front, less), last, less, k);
      TiesAppend(front, x, less, k);
      TiesAppend(front, last, less, k);
      TiesAppend(s, x, less, k);
      assert NegativelyTransitive(less, x, k, last);
    }
  }

  /** The sort is stable: elements that tie stay in the order they had. */
  lemma {:induction false} SortStable<T(!new)>(s: seq<T>, less: (T, T) -> bool, k: T)
    requires StrictWeak(less)
    ensures Ties(Sort(s, less), less, k) == Ties(s, less, k)
  {
    if s != [] {
      var front, last := s[..|s| - 1], s[|s| - 1];
      SortStable(front, less, k);
      InsertStable(last, Sort(front, less), less, k);
      TiesAppend(Sort(front, less), last, less, k);
    }
  }

  /** The head of a sorted sequence is a minimum of the original one. */
  lemma HeadIsMinimum<T(!new)>(s: seq<T>, less: (T, T) -> bool)
    requires StrictWeak(less) && s != []
    ensures Sort(s, less)[0] in s
    ensures forall x :: x in s ==> !less(x, Sort(s, less)[0])
  {
    var r := Sort(s, less);
    SortOrdered(s, less);
    SameMembers(r, s);
    assert r[0] in r;
    forall x | x in s
      ensures !less(x, r[0])
    {
      var i :| 0 <= i < |r| && r[i] == x;
      assert Asymmetric(less, x, r[0]);
    }
  }
}
