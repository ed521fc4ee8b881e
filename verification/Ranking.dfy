/**
 How a model's choice is judged: competition ranks over metrics that may be missing, and
 the criteria built on them.
 */
module Ranking {
  import opened Sets
  import opened Views
  import opened Sorting

  datatype Item = Item(idx: nat, v: real)

  predicate Lower(a: Item, b: Item) {
    a.v < b.v
  }

  predicate IsItem(values: seq<Option<real>>, it: Item) {
    it.idx < |values| && values[it.idx] == Some(it.v)
  }

  /** The positions whose value is present and strictly smaller than `x`. */
  function Below(values: seq<Option<real>>, x: real): set<nat> {
    set k: nat | k < |values| && values[k].Some? && values[k].value < x
  }

  /** One more than the number of strictly smaller values; 0 when the value is missing. */
  function RankOf(values: seq<Option<real>>, i: nat): nat
    requires i < |values|
  {
    if values[i].None? then 0 else 1 + |Below(values, values[i].value)|
  }

  // ---------------------------------------------------------------------------
  // Counting through the sorted list
  // ---------------------------------------------------------------------------

  ghost predicate Lists(values: seq<Option<real>>, items: seq<Item>) {
    && (forall p :: 0 <= p < |items| ==> IsItem(values, items[p]))
    && (forall p, q :: 0 <= p < q < |items| ==> items[p].idx != items[q].idx)
    && (forall k: nat :: k < |values| && values[k].Some? ==> Item(k, values[k].value) in items)
  }

  lemma {:induction false} OccursOnce(items: seq<Item>, x: Item)
    requires forall p, q :: 0 <= p < q < |items| ==> items[p] != items[q]
    ensures multiset(items)[x] <= 1
  {
    if items != [] {
      var front, last := items[..|items| - 1], items[|items| - 1];
      OccursOnce(front, x);
      assert items == front + [last];
      assert last !in front;
      assert multiset(front)[last] == 0;
    }
  }

  lemma {:induction false} OccursTwice(items: seq<Item>, p: nat, q: nat)
    requires p < q < |items| && items[p] == items[q]
    ensures multiset(items)[items[p]] >= 2
  {
    var front, last := items[..|items| - 1], items[|items| - 1];
    assert items == front + [last];
    if q < |items| - 1 {
      OccursTwice(front, p, q);
    } else {
      assert front[p] in multiset(front);
    }
  }

  /** Sorting keeps every entry exactly once. */
  lemma SortedLists(values: seq<Option<real>>, items: seq<Item>, sorted: seq<Item>)
    requires Lists(values, items) && multiset(sorted) == multiset(items)
    ensures Lists(values, sorted)
  {
    SameMembers(sorted, items);
    forall p | 0 <= p < |sorted|
      ensures IsItem(values, sorted[p])
    {
      assert sorted[p] in items;
    }
    forall p, q | 0 <= p < q < |sorted|
      ensures sorted[p].idx != sorted[q].idx
    {
      if sorted[p].idx == sorted[q].idx {
        assert IsItem(values, sorted[p]) && IsItem(values, sorted[q]);
        OccursTwice(sorted, p, q);
        OccursOnce(items, sorted[p]);
      }
    }
  }

  function Indices(items: seq<Item>, n: nat): set<nat>
    requires n <= |items|
  {
    set p: nat | p < n :: items[p].idx
  }

  lemma {:induction false} IndexCount(items: seq<Item>, n: nat)
    requires n <= |items| && forall p, q :: 0 <= p < q < |items| ==> items[p].idx != items[q].idx
    ensures |Indices(items, n)| == n
  {
    if n > 0 {
      IndexCount(items, n - 1);
      assert Indices(items, n) == Indices(items, n - 1) + {items[n - 1].idx};
      assert items[n - 1].idx !in Indices(items, n - 1);
    }
  }

  /** The first of a run of equal values has everything before it, and nothing else,
      strictly below. */
  lemma BelowIsPrefix(values: seq<Option<real>>, items: seq<Item>, pos: nat)
    requires Lists(values, items) && Ordered(items, Lower) && pos < |items|
    requires pos == 0 || items[pos].v != items[pos - 1].v
    ensures |Below(values, items[pos].v)| == pos
  {
    var x := items[pos].v;
    forall p: nat | p < |items|
      ensures items[p].v < x <==> p < pos
    {
      assert p < pos ==> !Lower(items[pos], items[p]) && (p < pos - 1 ==> !Lower(items[pos - 1], items[p]));
      assert pos > 0 ==> !Lower(items[pos], items[pos - 1]);
      assert p > pos ==> !Lower(items[p], items[pos]);
    }
    assert Below(values, x) == Indices(items, pos) by {
      forall k: nat | k in Below(values, x)
        ensures k in Indices(items, pos)
      {
        var p :| 0 <= p < |items| && items[p] == Item(k, values[k].value);
      }
      forall p: nat | p < pos
        ensures items[p].idx in Below(values, x)
      {
        assert IsItem(values, items[p]);
      }
    }
    IndexCount(items, pos);
  }

  // ---------------------------------------------------------------------------
  // The ranking
  // ---------------------------------------------------------------------------

  method Present(values: seq<Option<real>>) returns (items: seq<Item>)
    ensures Lists(values, items)
  {
    items := [];
    for i := 0 to |values|
      invariant forall p :: 0 <= p < |items| ==> IsItem(values, items[p]) && items[p].idx < i
      invariant forall p, q :: 0 <= p < q < |items| ==> items[p].idx != items[q].idx
      invariant forall k: nat :: k < i && values[k].Some? ==> Item(k, values[k].value) in items
    {
      if values[i].Some? {
        items := items + [Item(i, values[i].value)];
      }
    }
  }

  lemma LowerIsStrictWeak()
    ensures StrictWeak(Lower)
  {
  }

  method SortedPresent(values: seq<Option<real>>) returns (sorted: seq<Item>)
    ensures Lists(values, sorted) && Ordered(sorted, Lower)
  {
    var items := Present(values);
    sorted := Sort(items, Lower);
    LowerIsStrictWeak();
    SortOrdered(items, Lower);
    SortedLists(values, items, sorted);
  }

  method RankAscending(values: seq<Option<real>>) returns (ranks: seq<nat>)
    ensures |ranks| == |values|
    ensures forall i :: 0 <= i < |values| ==> ranks[i] == RankOf(values, i)
  {
    var sorted := SortedPresent(values);
    var out := new nat[|values|](_ => 0);
    for pos := 0 to |sorted|
      invariant forall p :: 0 <= p < pos ==> out[sorted[p].idx] == RankOf(values, sorted[p].idx)
      invariant forall i :: 0 <= i < |values| && values[i].None? ==> out[i] == 0
    {
      var it := sorted[pos];
      assert IsItem(values, it);
      if pos > 0 && it.v == sorted[pos - 1].v {
        assert IsItem(values, sorted[pos - 1]);
        out[it.idx] := out[sorted[pos - 1].idx];
      } else {
        BelowIsPrefix(values, sorted, pos);
        out[it.idx] := pos + 1;
      }
    }
    ranks := out[..];
    forall i | 0 <= i < |values|
      ensures ranks[i] == RankOf(values, i)
    {
      if values[i].Some? {
        var p :| 0 <= p < |sorted| && sorted[p] == Item(i, values[i].value);
      }
    }
  }

  // ---------------------------------------------------------------------------
  // What a rank says
  // ---------------------------------------------------------------------------

  /** Ranks follow the values, in both directions. */
  lemma RankFollowsValue(values: seq<Option<real>>, i: nat, j: nat)
    requires i < |values| && j < |values| && values[i].Some? && values[j].Some?
    ensures RankOf(values, i) <= RankOf(values, j) <==> values[i].value <= values[j].value
  {
    var x, y := values[i].value, values[j].value;
    if x <= y {
      SubsetSize(Below(values, x), Below(values, y));
    } else {
      SubsetSize(Below(values, y), Below(values, x));
      assert j in Below(values, x) && j !in Below(values, y);
    }
  }

  /** Whenever some value is present, some position has rank 1. */
  lemma {:induction false} SomeoneIsFirst(values: seq<Option<real>>, i: nat) returns (best: nat)
    requires i < |values| && values[i].Some?
    ensures best < |values| && values[best].Some? && RankOf(values, best) == 1
    decreases |Below(values, values[i].value)|
  {
    var below := Below(values, values[i].value);
    if below == {} {
      best := i;
    } else {
      var k :| k in below;
      SubsetSize(Below(values, values[k].value), below);
      assert k !in Below(values, values[k].value);
      best := SomeoneIsFirst(values, k);
    }
  }
}
