/**
 The check between the phases: is the federation back to the capacity it started with?
 Only totals and the listed ids are compared; this module says when that comparison
 really means that no chunk is still held.
 */
module Capacity {
  import opened Views
  import opened Sorting

  /** Chunks reserved in all, per group that holds any, and the groups seen. */
  datatype Snapshot = Snapshot(total: int, reservedBy: map<string, int>, ids: seq<string>)

  function SumReserved(list: seq<NodeGroup>): int {
    if list == [] then 0 else SumReserved(list[..|list| - 1]) + list[|list| - 1].reserved
  }

  function IdsOf(list: seq<NodeGroup>): set<string> {
    set ng | ng in list :: ng.id
  }

  method ReadFederationCapacity(list: seq<NodeGroup>) returns (c: Snapshot)
    ensures c.total == SumReserved(list)
    ensures (set id | id in c.ids) == IdsOf(list)
    ensures |c.ids| == |list|
    ensures forall i, j :: 0 <= i < j < |c.ids| ==> !StringLess(c.ids[j], c.ids[i])
    ensures forall id :: id in c.reservedBy ==>
      exists ng :: ng in list && ng.id == id && ng.reserved == c.reservedBy[id] > 0
    ensures forall ng :: ng in list && ng.reserved > 0 ==> ng.id in c.reservedBy
  {
    var total, held: map<string, int>, ids: seq<string> := 0, map[], [];
    for i := 0 to |list|
      invariant total == SumReserved(list[..i])
      invariant |ids| == i && forall k :: 0 <= k < i ==> ids[k] == list[k].id
      invariant forall id :: id in held ==>
        exists k :: 0 <= k < i && list[k].id == id && list[k].reserved == held[id] > 0
      invariant forall k :: 0 <= k < i && list[k].reserved > 0 ==> list[k].id in held
    {
      assert list[..i + 1][..i] == list[..i];
      total := total + list[i].reserved;
      if list[i].reserved > 0 {
        held := held[list[i].id := list[i].reserved];
      }
      ids := ids + [list[i].id];
    }
    assert list[..|list|] == list;
    var sorted := Sort(ids, StringLess);
    StringOrderIsStrictWeak();
    SortOrdered(ids, StringLess);
    SameMembers(sorted, ids);
    assert forall id :: id in ids <==> id in IdsOf(list) by {
      assert forall k :: 0 <= k < |list| ==> list[k] in list;
    }
    c := Snapshot(total, held, sorted);
  }

  lemma StringOrderIsStrictWeak()
    ensures StrictWeak(StringLess)
  {
    forall a: string, b: string
      ensures Asymmetric(StringLess, a, b)
    {
      StringOrderTotal(a, b);
    }
    forall a: string, b: string, c: string
      ensures NegativelyTransitive(StringLess, a, b, c)
    {
      StringOrderTotal(a, b);
      StringOrderTotal(b, c);
      StringOrderTotal(a, c);
      if StringLess(b, a) && StringLess(c, b) {
        StringOrderTransitive(c, b, a);
      }
    }
  }

  /** Same total, and nothing that was listed is gone. New groups are allowed. */
  predicate MatchesBaseline(now: Snapshot, want: Snapshot) {
    now.total == want.total && forall id :: id in want.ids ==> id in now.ids
  }

  method Matches(now: Snapshot, want: Snapshot) returns (r: bool)
    ensures r == MatchesBaseline(now, want)
  {
    if now.total != want.total {
      return false;
    }
    var have: set<string> := {};
    for i := 0 to |now.ids|
      invariant have == set k | 0 <= k < i :: now.ids[k]
    {
      have := have + {now.ids[i]};
    }
    assert forall id :: id in have <==> id in now.ids;
    for i := 0 to |want.ids|
      invariant forall k :: 0 <= k < i ==> want.ids[k] in now.ids
    {
      if want.ids[i] !in have {
        return false;
      }
    }
    return true;
  }

  // ---------------------------------------------------------------------------
  // Sums over groups
  // ---------------------------------------------------------------------------

  ghost function SumOver(ids: set<string>, f: string -> int): int {
    if ids == {} then 0 else
      var x :| x in ids;
      f(x) + SumOver(ids - {x}, f)
  }

  lemma {:induction false} SumRemove(ids: set<string>, f: string -> int, x: string)
    requires x in ids
    ensures SumOver(ids, f) == f(x) + SumOver(ids - {x}, f)
    decreases ids
  {
    var y :| y in ids && SumOver(ids, f) == f(y) + SumOver(ids - {y}, f);
    if y != x {
      SumRemove(ids - {y}, f, x);
      SumRemove(ids - {x}, f, y);
      assert ids - {y} - {x} == ids - {x} - {y};
    }
  }

  ghost predicate DistinctIds(list: seq<NodeGroup>) {
    forall i, j :: 0 <= i < j < |list| ==> list[i].id != list[j].id
  }

  lemma {:induction false} ListSum(list: seq<NodeGroup>, f: string -> int)
    requires DistinctIds(list) && forall ng :: ng in list ==> f(ng.id) == ng.reserved
    ensures SumReserved(list) == SumOver(IdsOf(list), f)
  {
    if list != [] {
      var front, last := list[..|list| - 1], list[|list| - 1];
      ListSum(front, f);
      assert last in list;
      assert IdsOf(list) == IdsOf(front) + {last.id};
      assert last.id !in IdsOf(front);
      SumRemove(IdsOf(list), f, last.id);
      assert IdsOf(list) - {last.id} == IdsOf(front);
    }
  }

  /** Over a larger set, with counts that never fell, a sum is at least as large, and it
      is the same only when every count is. */
  lemma {:induction false} SumGrows(small: set<string>, large: set<string>, f: string -> int, g: string -> int)
    requires small <= large
    requires forall x :: x in small ==> f(x) <= g(x)
    requires forall x :: x in large - small ==> 0 <= g(x)
    ensures SumOver(small, f) <= SumOver(large, g)
    ensures SumOver(small, f) == SumOver(large, g) <==>
      (forall x :: x in small ==> f(x) == g(x)) && (forall x :: x in large - small ==> g(x) == 0)
    decreases large
  {
    if large != {} {
      var x :| x in large;
      SumRemove(large, g, x);
      if x in small {
        SumRemove(small, f, x);
        SumGrows(small - {x}, large - {x}, f, g);
      } else {
        SumGrows(small, large - {x}, f, g);
        assert large - {x} - small == large - small - {x};
      }
    }
  }

  // ---------------------------------------------------------------------------
  // What a match means
  // ---------------------------------------------------------------------------

  /** The list shows the true number of reserved chunks, one row per group. */
  ghost predicate Shows(list: seq<NodeGroup>, count: string -> int) {
    DistinctIds(list) && forall ng :: ng in list ==> ng.reserved == count(ng.id)
  }

  /** Since the baseline reservations were only added, and none of the groups holding one
      is outside both the baseline and the current list. */
  ghost predicate OnlyAdded(base: seq<NodeGroup>, now: seq<NodeGroup>, before: string -> int, after: string -> int) {
    && (forall id :: 0 <= before(id) <= after(id))
    && (forall id :: id !in IdsOf(base) ==> before(id) == 0)
    && (forall id :: after(id) > 0 ==> id in IdsOf(base) + IdsOf(now))
  }

  /** Under that assumption the check passes exactly when no baseline group is missing and
      every group holds as much as it did. */
  lemma MatchMeansNoLeak(base: seq<NodeGroup>, now: seq<NodeGroup>, want: Snapshot, got: Snapshot,
                         before: string -> int, after: string -> int)
    requires Shows(base, before) && Shows(now, after) && OnlyAdded(base, now, before, after)
    requires want.total == SumReserved(base) && (set id | id in want.ids) == IdsOf(base)
    requires got.total == SumReserved(now) && (set id | id in got.ids) == IdsOf(now)
    ensures MatchesBaseline(got, want) <==> IdsOf(base) <= IdsOf(now) && forall id :: after(id) == before(id)
  {
    ListSum(base, before);
    ListSum(now, after);
    assert forall id :: id in want.ids <==> id in IdsOf(base);
    assert forall id :: id in got.ids <==> id in IdsOf(now);
    if IdsOf(base) <= IdsOf(now) {
      SumGrows(IdsOf(base), IdsOf(now), before, after);
      forall id | MatchesBaseline(got, want)
        ensures after(id) == before(id)
      {
        assert after(id) > 0 ==> id in IdsOf(now);
      }
    }
  }

  function Row(id: string, reserved: int): NodeGroup {
    NodeGroup(id, id, STANDARD, 2, reserved, None, None, None)
  }

  /** A chunk given back that was not the phase's hides one that it leaked. */
  lemma GivingBackHidesLeak(want: Snapshot, got: Snapshot)
    requires want == Snapshot(SumReserved([Row("a", 1), Row("b", 0)]), map["a" := 1], ["a", "b"])
    requires got == Snapshot(SumReserved([Row("a", 0), Row("b", 1)]), map["b" := 1], ["a", "b"])
    ensures MatchesBaseline(got, want) && got.reservedBy != want.reservedBy
  {
    var x, y := [Row("a", 1), Row("b", 0)], [Row("a", 0), Row("b", 1)];
    assert x[..1] == [Row("a", 1)] && y[..1] == [Row("a", 0)];
    assert x[..1][..0] == [] && y[..1][..0] == [];
    assert SumReserved(x[..1]) == 1 && SumReserved(y[..1]) == 0;
    assert got.reservedBy.Keys == {"b"} && want.reservedBy.Keys == {"a"};
  }

  // ---------------------------------------------------------------------------
  // Polling until the federation is back
  // ---------------------------------------------------------------------------

  datatype WaitResult = Back(capacity: Snapshot) | ReadFailed | TimedOut | Cancelled

  ghost predicate MatchesAt(polls: nat -> Option<seq<NodeGroup>>, want: Snapshot, k: nat) {
    polls(k).Some? && SumReserved(polls(k).value) == want.total &&
    forall id :: id in want.ids ==> id in IdsOf(polls(k).value)
  }

  /** The k-th poll ended the wait, none before it did, and this is how. */
  ghost predicate EndsWith(r: WaitResult, polls: nat -> Option<seq<NodeGroup>>, cancelled: nat -> bool, deadline: nat,
                           want: Snapshot, k: nat)
  {
    && k <= deadline && (forall i: nat :: i < k ==> polls(i).Some? && !MatchesAt(polls, want, i) && !cancelled(i))
    && match r
       case Back(_) => MatchesAt(polls, want, k)
       case ReadFailed => polls(k).None?
       case TimedOut => k == deadline && polls(k).Some? && !MatchesAt(polls, want, k)
       case Cancelled => k < deadline && polls(k).Some? && !MatchesAt(polls, want, k) && cancelled(k)
  }

  /** `polls(k)` is what the Broker answers to the k-th poll, `deadline` the first poll past
      the timeout, `cancelled(k)` whether the run was interrupted in the wait after it. */
  method WaitForFederationCapacity(polls: nat -> Option<seq<NodeGroup>>, cancelled: nat -> bool, deadline: nat,
                                   want: Snapshot) returns (r: WaitResult)
    ensures r.Back? ==> exists k: nat ::
      k <= deadline && MatchesAt(polls, want, k) && r.capacity.total == SumReserved(polls(k).value) &&
      (set id | id in r.capacity.ids) == IdsOf(polls(k).value)
    ensures (forall k: nat :: k <= deadline ==> polls(k).Some? && !cancelled(k)) ==>
      (r.Back? <==> exists k: nat :: k <= deadline && MatchesAt(polls, want, k))
    ensures r.TimedOut? ==> forall k: nat :: k <= deadline ==> polls(k).Some? && !MatchesAt(polls, want, k)
    ensures r.Cancelled? ==> exists k: nat :: k < deadline && cancelled(k)
    ensures r.ReadFailed? ==> exists k: nat :: k <= deadline && polls(k).None?
    ensures exists k: nat :: EndsWith(r, polls, cancelled, deadline, want, k)
  {
    var i: nat := 0;
    while true
      invariant i <= deadline
      invariant forall k: nat :: k < i ==> polls(k).Some? && !MatchesAt(polls, want, k) && !cancelled(k)
      decreases deadline - i
    {
      if polls(i).None? {
        assert EndsWith(ReadFailed, polls, cancelled, deadline, want, i);
        return ReadFailed;
      }
      var got := ReadFederationCapacity(polls(i).value);
      assert forall id :: id in got.ids <==> id in IdsOf(polls(i).value);
      var back := Matches(got, want);
      if back {
        assert MatchesAt(polls, want, i);
        assert EndsWith(Back(got), polls, cancelled, deadline, want, i);
        return Back(got);
      }
      assert !MatchesAt(polls, want, i);
      if i >= deadline {
        assert EndsWith(TimedOut, polls, cancelled, deadline, want, i);
        return TimedOut;
      }
      if cancelled(i) {
        assert EndsWith(Cancelled, polls, cancelled, deadline, want, i);
        return Cancelled;
      }
      i := i + 1;
    }
  }
}
