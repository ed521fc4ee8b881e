/**
 The reported breakdown of a run: how often each failure occurred, and how consistently
 the model chose within one scenario.
 */
module Repeatability {
  import opened Views
  import opened Sorting
  import opened Capacity
  import opened ChoiceDecision
  import opened Verdict

  function At<K(==)>(m: map<K, nat>, k: K): nat {
    if k in m then m[k] else 0
  }

  function Times(fs: seq<Failure>, f: Failure): nat {
    if fs == [] then 0 else Times(fs[..|fs| - 1], f) + One(fs[|fs| - 1] == f)
  }

  function Occurrences(os: seq<Outcome>, f: Failure): nat {
    if os == [] then 0 else Occurrences(os[..|os| - 1], f) + Times(os[|os| - 1].failures, f)
  }

  lemma {:induction false} AddFailuresAt(m: map<Failure, nat>, fs: seq<Failure>, f: Failure)
    ensures At(AddFailures(m, fs), f) == At(m, f) + Times(fs, f)
  {
    if fs != [] {
      AddFailuresAt(m, fs[..|fs| - 1], f);
    }
  }

  /** The breakdown counts every recorded failure once. */
  lemma {:induction false} BreakdownCounts(os: seq<Outcome>, f: Failure)
    ensures At(TallyOf(os).breakdown, f) == Occurrences(os, f)
  {
    if os != [] {
      BreakdownCounts(os[..|os| - 1], f);
      AddFailuresAt(TallyOf(os[..|os| - 1]).breakdown, os[|os| - 1].failures, f);
    }
  }

  function Choices(os: seq<Outcome>, name: string, id: string): nat {
    if os == [] then 0
    else Choices(os[..|os| - 1], name, id) + One(os[|os| - 1].scenario == name && os[|os| - 1].selected == id)
  }

  function Runs(os: seq<Outcome>, name: string): nat {
    if os == [] then 0 else Runs(os[..|os| - 1], name) + One(os[|os| - 1].scenario == name)
  }

  /** A scenario's distribution counts the model's choices in it, and no provider was
      chosen more often than the model was asked: the repeatability is a share. */
  lemma {:induction false} DistributionCounts(os: seq<Outcome>, mode: FallbackMode, name: string, id: string)
    requires AllOk(os, mode) && id != ""
    ensures var t := ScenarioOf(TallyOf(os).scenarios, name);
      && t.repetitions == Runs(os, name)
      && At(t.distribution, id) == Choices(os, name, id)
      && At(t.distribution, id) <= t.aiCalls <= t.repetitions
  {
    if os != [] {
      var front, last := os[..|os| - 1], os[|os| - 1];
      assert last in os && forall o :: o in front ==> o in os;
      DistributionCounts(front, mode, name, id);
      assert OutcomeOk(last, mode);
    }
  }

  method SortedKeys(dist: map<string, nat>) returns (ids: seq<string>)
    ensures forall id :: id in ids <==> id in dist
    ensures Ordered(ids, StringLess)
  {
    var keys := KeysOf(dist);
    StringOrderIsStrictWeak();
    SortOrdered(keys, StringLess);
    ids := Sort(keys, StringLess);
    SameMembers(ids, keys);
  }

  /** `best` is the first of `ids[..n]` that occurs `count` times, and none occurs more. */
  ghost predicate Leads(dist: map<string, nat>, ids: seq<string>, n: nat, best: string, count: nat) {
    && n <= |ids| && (forall k :: 0 <= k < n ==> ids[k] in dist && dist[ids[k]] <= count)
    && (count == 0 ==> best == "")
    && (count > 0 ==> exists at :: 0 <= at < n && best == ids[at] && best in dist && dist[best] == count &&
                                   forall k :: 0 <= k < at ==> dist[ids[k]] < count)
  }

  lemma LeaderIsLowest(dist: map<string, nat>, ids: seq<string>, best: string, count: nat, id: string)
    requires Leads(dist, ids, |ids|, best, count) && Ordered(ids, StringLess)
    requires id in ids && id in dist && dist[id] == count && count > 0
    ensures id == best || StringLess(best, id)
  {
    var k :| 0 <= k < |ids| && ids[k] == id;
    var at :| 0 <= at < |ids| && best == ids[at] && forall m :: 0 <= m < at ==> dist[ids[m]] < count;
    StringOrderTotal(best, id);
    assert at < k ==> !StringLess(ids[k], ids[at]);
  }

  /** The most chosen provider, the lower id on a tie; nothing when nobody was chosen. */
  method MostFrequent(dist: map<string, nat>) returns (best: string, count: nat)
    ensures count > 0 ==> best in dist && dist[best] == count
    ensures forall id :: id in dist ==> dist[id] <= count
    ensures forall id :: id in dist && dist[id] == count && count > 0 ==> id == best || StringLess(best, id)
    ensures count == 0 ==> best == ""
  {
    var ids := SortedKeys(dist);
    best, count := "", 0;
    for i := 0 to |ids|
      invariant Leads(dist, ids, i, best, count)
    {
      assert ids[i] in ids;
      if dist[ids[i]] > count {
        best, count := ids[i], dist[ids[i]];
      }
    }
    forall id | id in dist
      ensures dist[id] <= count
      ensures dist[id] == count && count > 0 ==> id == best || StringLess(best, id)
    {
      assert id in ids;
      if dist[id] == count && count > 0 {
        LeaderIsLowest(dist, ids, best, count, id);
      }
    }
  }

  method KeysOf(dist: map<string, nat>) returns (ids: seq<string>)
    ensures forall id :: id in ids <==> id in dist
  {
    ids := [];
    var todo := dist.Keys;
    while todo != {}
      invariant todo <= dist.Keys
      invariant forall id :: id in ids <==> id in dist && id !in todo
      decreases todo
    {
      var id :| id in todo;
      ids := ids + [id];
      todo := todo - {id};
    }
  }
}
