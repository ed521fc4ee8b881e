/**
 The deterministic choices made when the model's answer cannot be used: the lowest group
 by two metrics and its id, and the agent's own ranking.
 */
module Fallback {
  import opened Views
  import opened Sorting

  datatype Metric = Cost | Carbon

  function Get(m: Metric, ng: NodeGroup): Option<real> {
    match m
    case Cost => ng.cost
    case Carbon => ng.carbon
  }

  /** A value before a missing one, a smaller value before a larger one. */
  predicate ValueLess(a: Option<real>, b: Option<real>) {
    a.Some? && (b.None? || a.value < b.value)
  }

  /** The order of `PickLowest`: primary metric, secondary metric, provider id. */
  predicate Before(p: Metric, s: Metric, a: NodeGroup, b: NodeGroup) {
    ValueLess(Get(p, a), Get(p, b)) ||
    (Get(p, a) == Get(p, b) &&
     (ValueLess(Get(s, a), Get(s, b)) || (Get(s, a) == Get(s, b) && StringLess(a.provider, b.provider))))
  }

  function Order(p: Metric, s: Metric): (NodeGroup, NodeGroup) -> bool {
    (a, b) => Before(p, s, a, b)
  }

  /** Neither comes first only when all three keys agree. */
  lemma OrderIsTotal(p: Metric, s: Metric, a: NodeGroup, b: NodeGroup)
    ensures Before(p, s, a, b) ==> !Before(p, s, b, a)
    ensures !Before(p, s, a, b) && !Before(p, s, b, a) <==>
      Get(p, a) == Get(p, b) && Get(s, a) == Get(s, b) && a.provider == b.provider
  {
    StringOrderTotal(a.provider, b.provider);
  }

  lemma OrderIsTransitive(p: Metric, s: Metric, a: NodeGroup, b: NodeGroup, c: NodeGroup)
    requires Before(p, s, a, b) && Before(p, s, b, c)
    ensures Before(p, s, a, c)
  {
    if StringLess(a.provider, b.provider) && StringLess(b.provider, c.provider) {
      StringOrderTransitive(a.provider, b.provider, c.provider);
    }
  }

  lemma OrderNegativelyTransitive(p: Metric, s: Metric, a: NodeGroup, b: NodeGroup, c: NodeGroup)
    ensures NegativelyTransitive(Order(p, s), a, b, c)
  {
    if !Before(p, s, a, b) && !Before(p, s, b, c) {
      OrderIsTotal(p, s, a, b);
      OrderIsTotal(p, s, b, c);
      OrderIsTotal(p, s, a, c);
      if Before(p, s, b, a) && Before(p, s, c, b) {
        OrderIsTransitive(p, s, c, b, a);
      }
    }
  }

  lemma OrderIsStrictWeak(p: Metric, s: Metric)
    ensures StrictWeak(Order(p, s))
  {
    forall a, b
      ensures Asymmetric(Order(p, s), a, b)
    {
      OrderIsTotal(p, s, a, b);
    }
    forall a, b, c
      ensures NegativelyTransitive(Order(p, s), a, b, c)
    {
      OrderNegativelyTransitive(p, s, a, b, c);
    }
  }

  ghost predicate IsLowest(p: Metric, s: Metric, ngs: seq<NodeGroup>, g: NodeGroup) {
    g in ngs && forall h :: h in ngs ==> !Before(p, s, h, g)
  }

  predicate SomePrimary(p: Metric, ngs: seq<NodeGroup>) {
    exists g :: g in ngs && Get(p, g).Some?
  }

  ghost predicate IsPick(p: Metric, s: Metric, ngs: seq<NodeGroup>, id: string) {
    if SomePrimary(p, ngs)
    then exists g :: IsLowest(p, s, ngs, g) && Get(p, g).Some? && id == g.provider
    else id == ""
  }

  method PickLowest(ngs: seq<NodeGroup>, p: Metric, s: Metric) returns (id: string)
    ensures IsPick(p, s, ngs, id)
  {
    var sorted := Sort(ngs, Order(p, s));
    if |sorted| == 0 {
      return "";
    }
    OrderIsStrictWeak(p, s);
    HeadIsMinimum(ngs, Order(p, s));
    ghost var head := sorted[0];
    assert IsLowest(p, s, ngs, head) by {
      assert forall h :: h in ngs ==> !Order(p, s)(h, head);
    }
    if Get(p, sorted[0]).None? {
      return "";
    }
    return sorted[0].provider;
  }

  /** The same choice whatever the order of the list: two lists with the same groups,
      however often each is listed, give the same id. */
  lemma PickIgnoresOrder(p: Metric, s: Metric, ngs: seq<NodeGroup>, ngs': seq<NodeGroup>, id: string, id': string)
    requires forall g :: g in ngs <==> g in ngs'
    requires IsPick(p, s, ngs, id) && IsPick(p, s, ngs', id')
    ensures id == id'
  {
    assert SomePrimary(p, ngs) <==> SomePrimary(p, ngs');
    if SomePrimary(p, ngs) {
      var a :| IsLowest(p, s, ngs, a) && Get(p, a).Some? && id == a.provider;
      var b :| IsLowest(p, s, ngs', b) && Get(p, b).Some? && id' == b.provider;
      OrderIsTotal(p, s, a, b);
    }
  }

  /** Nothing is picked exactly when no group has the primary metric, or when the lowest
      one belongs to a provider without an id. */
  lemma EmptyPickExactlyWhen(p: Metric, s: Metric, ngs: seq<NodeGroup>, id: string)
    requires IsPick(p, s, ngs, id)
    ensures id == "" <==> !SomePrimary(p, ngs) || exists g :: IsLowest(p, s, ngs, g) && g.provider == ""
  {
    if SomePrimary(p, ngs) {
      var a :| IsLowest(p, s, ngs, a) && Get(p, a).Some? && id == a.provider;
      forall g | IsLowest(p, s, ngs, g)
        ensures g.provider == a.provider
      {
        OrderIsTotal(p, s, a, g);
      }
    }
  }

  /** `a` is known and at most `b`, or `b` is unknown. */
  predicate NoMore(a: Option<real>, b: Option<real>) {
    b.Some? ==> a.Some? && a.value <= b.value
  }

  /** `h` is not cheaper than `g`; nor, equally cheap, has it less carbon; nor, equal in
      both, a lower id. What is not advertised counts as most. */
  predicate CostsNoMore(g: NodeGroup, h: NodeGroup) {
    && NoMore(g.cost, h.cost)
    && (g.cost == h.cost ==> NoMore(g.carbon, h.carbon))
    && (g.cost == h.cost && g.carbon == h.carbon ==> !StringLess(h.provider, g.provider))
  }

  /** The same, carbon first. */
  predicate EmitsNoMore(g: NodeGroup, h: NodeGroup) {
    && NoMore(g.carbon, h.carbon)
    && (g.carbon == h.carbon ==> NoMore(g.cost, h.cost))
    && (g.carbon == h.carbon && g.cost == h.cost ==> !StringLess(h.provider, g.provider))
  }

  predicate Cheapest(ngs: seq<NodeGroup>, g: NodeGroup) {
    forall h :: h in ngs ==> CostsNoMore(g, h)
  }

  predicate Greenest(ngs: seq<NodeGroup>, g: NodeGroup) {
    forall h :: h in ngs ==> EmitsNoMore(g, h)
  }

  /** By cost the pick is the cheapest group that advertises a cost, by carbon the greenest
      that advertises carbon, and there is one exactly when some group does. */
  lemma PicksMean(ngs: seq<NodeGroup>, id: string)
    ensures IsPick(Cost, Carbon, ngs, id) <==>
      if exists g :: g in ngs && g.cost.Some?
      then exists g :: g in ngs && g.cost.Some? && Cheapest(ngs, g) && id == g.provider
      else id == ""
    ensures IsPick(Carbon, Cost, ngs, id) <==>
      if exists g :: g in ngs && g.carbon.Some?
      then exists g :: g in ngs && g.carbon.Some? && Greenest(ngs, g) && id == g.provider
      else id == ""
  {
    assert SomePrimary(Cost, ngs) <==> exists g :: g in ngs && g.cost.Some?;
    assert SomePrimary(Carbon, ngs) <==> exists g :: g in ngs && g.carbon.Some?;
    forall g | g in ngs
      ensures IsLowest(Cost, Carbon, ngs, g) <==> Cheapest(ngs, g)
      ensures IsLowest(Carbon, Cost, ngs, g) <==> Greenest(ngs, g)
    {
      LowestMeans(ngs, g);
    }
    assert forall g :: Get(Cost, g) == g.cost && Get(Carbon, g) == g.carbon;
  }

  lemma LowestMeans(ngs: seq<NodeGroup>, g: NodeGroup)
    requires g in ngs
    ensures IsLowest(Cost, Carbon, ngs, g) <==> Cheapest(ngs, g)
    ensures IsLowest(Carbon, Cost, ngs, g) <==> Greenest(ngs, g)
  {
    assert forall h :: !Before(Cost, Carbon, h, g) <==> CostsNoMore(g, h);
    assert forall h :: !Before(Carbon, Cost, h, g) <==> EmitsNoMore(g, h);
  }

  // ---------------------------------------------------------------------------
  // The agent's own ranking
  // ---------------------------------------------------------------------------

  function Free(ng: NodeGroup): int {
    ng.maxSize - ng.reserved
  }

  /** Cheapest first, then lowest carbon, then most free chunks. */
  predicate Preferred(a: NodeGroup, b: NodeGroup) {
    ValueLess(a.cost, b.cost) ||
    (a.cost == b.cost && (ValueLess(a.carbon, b.carbon) || (a.carbon == b.carbon && Free(a) > Free(b))))
  }

  lemma PreferredIsStrictWeak()
    ensures StrictWeak(Preferred)
  {
    forall a, b
      ensures Asymmetric(Preferred, a, b)
    {
    }
    forall a, b, c
      ensures NegativelyTransitive(Preferred, a, b, c)
    {
    }
  }

  function Providers(ngs: seq<NodeGroup>): seq<string> {
    if ngs == [] then [] else Providers(ngs[..|ngs| - 1]) + [ngs[|ngs| - 1].provider]
  }

  lemma {:induction false} ProvidersAt(ngs: seq<NodeGroup>, i: nat)
    requires i < |ngs|
    ensures |Providers(ngs)| == |ngs| && Providers(ngs)[i] == ngs[i].provider
  {
    if i < |ngs| - 1 {
      ProvidersAt(ngs[..|ngs| - 1], i);
    } else if |ngs| > 1 {
      ProvidersAt(ngs[..|ngs| - 1], 0);
    }
  }

  ghost predicate IsBest(ngs: seq<NodeGroup>, g: NodeGroup) {
    g in ngs && HasRoom(g) && forall h :: h in ngs && HasRoom(h) ==> !Preferred(h, g)
  }

  /** `h` is not cheaper than `g`; nor, equally cheap, has it less carbon; nor, equal in
      both, more free chunks. */
  predicate NoWorseThan(g: NodeGroup, h: NodeGroup) {
    && NoMore(g.cost, h.cost)
    && (g.cost == h.cost ==> NoMore(g.carbon, h.carbon))
    && (g.cost == h.cost && g.carbon == h.carbon ==> h.maxSize - h.reserved <= g.maxSize - g.reserved)
  }

  lemma BestMeans(ngs: seq<NodeGroup>, g: NodeGroup)
    ensures IsBest(ngs, g) <==> g in ngs && HasRoom(g) && forall h :: h in ngs && HasRoom(h) ==> NoWorseThan(g, h)
  {
    assert forall h :: !Preferred(h, g) <==> NoWorseThan(g, h);
  }

  /** `order` is the groups that can grow, sorted stably. */
  ghost predicate Ranks(ngs: seq<NodeGroup>, order: seq<NodeGroup>) {
    && multiset(order) == multiset(Growable(ngs))
    && Ordered(order, Preferred)
    && (forall k :: Ties(order, Preferred, k) == Ties(Growable(ngs), Preferred, k))
  }

  lemma SortRanks(ngs: seq<NodeGroup>)
    ensures Ranks(ngs, Sort(Growable(ngs), Preferred))
  {
    PreferredIsStrictWeak();
    SortOrdered(Growable(ngs), Preferred);
    forall k
      ensures Ties(Sort(Growable(ngs), Preferred), Preferred, k) == Ties(Growable(ngs), Preferred, k)
    {
      SortStable(Growable(ngs), Preferred, k);
    }
  }

  lemma HeadIsBest(ngs: seq<NodeGroup>)
    requires Growable(ngs) != []
    ensures var order := Sort(Growable(ngs), Preferred); order != [] && IsBest(ngs, order[0])
  {
    PreferredIsStrictWeak();
    SortOrdered(Growable(ngs), Preferred);
    HeadIsMinimum(Growable(ngs), Preferred);
  }

  /** Ranks the groups that can grow, and fails exactly when there is none. */
  method DeterministicFallback(ngs: seq<NodeGroup>) returns (ranked: Option<seq<string>>)
    ensures ranked.Some? <==> exists g :: g in ngs && HasRoom(g)
    ensures ranked.Some? ==> exists order :: Ranks(ngs, order) && ranked.value == Providers(order)
    ensures ranked.Some? ==> |ranked.value| > 0 && exists g :: IsBest(ngs, g) && ranked.value[0] == g.provider
    ensures ranked.Some? ==> exists g ::
      g in ngs && HasRoom(g) && ranked.value[0] == g.provider &&
      forall h :: h in ngs && HasRoom(h) ==> NoWorseThan(g, h)
  {
    var candidates: seq<NodeGroup> := [];
    for i := 0 to |ngs|
      invariant candidates == Growable(ngs[..i])
    {
      assert ngs[..i + 1][..i] == ngs[..i];
      if HasRoom(ngs[i]) {
        candidates := candidates + [ngs[i]];
      }
    }
    assert ngs[..|ngs|] == ngs;
    if |candidates| == 0 {
      return None;
    }
    assert candidates[0] in candidates;
    var sorted := Sort(candidates, Preferred);
    SortRanks(ngs);
    HeadIsBest(ngs);
    BestMeans(ngs, sorted[0]);
    ProvidersAt(sorted, 0);
    return Some(Providers(sorted));
  }
}
