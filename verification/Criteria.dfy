/**
 The scenario criteria: which selections of a provider pass, given the ranks of the
 candidates the model was shown.
 */
module Criteria {
  import opened Sets
  import opened Views
  import opened Ranking

  /** A candidate as it was sent to the model; `distance` is known to the harness only. */
  datatype Candidate = Candidate(provider: string, carbon: Option<real>, distance: Option<real>, cost: Option<real>)

  datatype Metrics = Metrics(provider: string, carbonRank: nat, distanceRank: nat, costRank: nat)

  datatype Criterion =
    | Eco(maxCarbonRank: nat)
    | Proximity(maxDistanceRank: nat, worstQuantile: real)
    | Balanced(worstQuantile: real)
    | NoPreference

  function Carbon(cs: seq<Candidate>): seq<Option<real>> {
    seq(|cs|, i requires 0 <= i < |cs| => cs[i].carbon)
  }

  function Distance(cs: seq<Candidate>): seq<Option<real>> {
    seq(|cs|, i requires 0 <= i < |cs| => cs[i].distance)
  }

  function Cost(cs: seq<Candidate>): seq<Option<real>> {
    seq(|cs|, i requires 0 <= i < |cs| => cs[i].cost)
  }

  function MetricsOf(cs: seq<Candidate>, i: nat): Metrics
    requires i < |cs|
  {
    Metrics(cs[i].provider, RankOf(Carbon(cs), i), RankOf(Distance(cs), i), RankOf(Cost(cs), i))
  }

  ghost predicate Ranked(cs: seq<Candidate>, ms: seq<Metrics>) {
    |ms| == |cs| && forall i :: 0 <= i < |cs| ==> ms[i] == MetricsOf(cs, i)
  }

  method CandidateMetrics(cs: seq<Candidate>) returns (ms: seq<Metrics>)
    ensures Ranked(cs, ms)
  {
    var carbon := RankAscending(Carbon(cs));
    var distance := RankAscending(Distance(cs));
    var cost := RankAscending(Cost(cs));
    ms := [];
    for i := 0 to |cs|
      invariant |ms| == i && forall k :: 0 <= k < i ==> ms[k] == MetricsOf(cs, k)
    {
      ms := ms + [Metrics(cs[i].provider, carbon[i], distance[i], cost[i])];
    }
  }

  // ---------------------------------------------------------------------------
  // The worst quantile
  // ---------------------------------------------------------------------------

  function Ceil(x: real): int {
    -((-x).Floor)
  }

  predicate InWorstQuantile(rank: nat, n: nat, q: real) {
    rank > 0 && n > 0 && rank > n - Ceil(q * n as real)
  }

  function Worst(values: seq<Option<real>>, q: real): set<nat> {
    set i: nat | i < |values| && InWorstQuantile(RankOf(values, i), |values|, q)
  }

  /** The positions ranked behind all but `c` places. */
  function Last(values: seq<Option<real>>, c: int): set<nat> {
    set i: nat | i < |values| && RankOf(values, i) > 0 && RankOf(values, i) > |values| - c
  }

  lemma LastIsFew(values: seq<Option<real>>, c: nat)
    ensures |Last(values, c)| <= c
  {
    var n, last := |values|, Last(values, c);
    if last != {} {
      var i :| i in last;
      var low := LowestOf(values, last, i);
      var below := Below(values, values[low].value);
      DisjointSize(last, below);
      RangeSize(last + below, n);
    }
  }

  lemma CeilIsNat(q: real, n: nat)
    requires q >= 0.0
    ensures Ceil(q * n as real) >= 0
  {
  }

  lemma {:induction false} RangeSize(s: set<nat>, n: nat)
    requires forall i :: i in s ==> i < n
    ensures |s| <= n
  {
    if n > 0 {
      RangeSize(s - {n - 1}, n - 1);
    }
  }

  lemma {:induction false} LowestOf(values: seq<Option<real>>, s: set<nat>, i: nat) returns (low: nat)
    requires i in s && forall k :: k in s ==> k < |values| && values[k].Some?
    ensures low in s && Below(values, values[low].value) !! s
    decreases |Below(values, values[i].value)|
  {
    var below := Below(values, values[i].value);
    if below !! s {
      low := i;
    } else {
      var k :| k in below && k in s;
      SubsetSize(Below(values, values[k].value), below);
      assert k !in Below(values, values[k].value);
      low := LowestOf(values, s, k);
    }
  }

  lemma {:induction false} DisjointSize(a: set<nat>, b: set<nat>)
    requires a !! b
    ensures |a + b| == |a| + |b|
  {
  }

  /** Ties share the lower rank, so the worst quantile never holds more candidates than
      the share it is named after. */
  lemma WorstIsAShare(values: seq<Option<real>>, q: real)
    requires q >= 0.0
    ensures |Worst(values, q)| <= Ceil(q * |values| as real)
  {
    CeilIsNat(q, |values|);
    var c := Ceil(q * |values| as real);
    assert Worst(values, q) == Last(values, c);
    LastIsFew(values, c);
  }

  // ---------------------------------------------------------------------------
  // Judging a selection
  // ---------------------------------------------------------------------------

  predicate IsFirst(ms: seq<Metrics>, i: nat, id: string) {
    i < |ms| && ms[i].provider == id && forall k :: 0 <= k < i ==> ms[k].provider != id
  }

  /** A near candidate with strictly lower carbon. */
  predicate CleanerNearby(ms: seq<Metrics>, sel: Metrics, max: nat, k: nat)
    requires k < |ms|
  {
    && ms[k].provider != sel.provider
    && 0 < ms[k].distanceRank <= max
    && 0 < ms[k].carbonRank < sel.carbonRank
  }

  ghost predicate HasCleanerNearby(ms: seq<Metrics>, sel: Metrics, max: nat) {
    exists k: nat :: k < |ms| && CleanerNearby(ms, sel, max, k)
  }

  /** The verdict on one candidate; `None` where a metric it needs is missing. */
  ghost function VerdictOn(c: Criterion, ms: seq<Metrics>, sel: Metrics): Option<bool> {
    match c
    case Eco(max) =>
      if sel.carbonRank == 0 then None else Some(sel.carbonRank <= max)
    case Proximity(max, q) =>
      if sel.distanceRank == 0 || sel.carbonRank == 0 then None
      else Some(sel.distanceRank <= max &&
                !(InWorstQuantile(sel.carbonRank, |ms|, q) && HasCleanerNearby(ms, sel, max)))
    case Balanced(q) =>
      if sel.distanceRank == 0 || sel.carbonRank == 0 then None
      else Some(!InWorstQuantile(sel.carbonRank, |ms|, q) && !InWorstQuantile(sel.distanceRank, |ms|, q))
    case NoPreference => Some(true)
  }

  method EvaluateCriterion(c: Criterion, ms: seq<Metrics>, id: string) returns (r: Option<bool>)
    ensures (forall i :: 0 <= i < |ms| ==> ms[i].provider != id) ==> r == Some(false)
    ensures forall i: nat :: IsFirst(ms, i, id) ==> r == VerdictOn(c, ms, ms[i])
  {
    var s := 0;
    while s < |ms| && ms[s].provider != id
      invariant 0 <= s <= |ms|
      invariant forall k :: 0 <= k < s ==> ms[k].provider != id
    {
      s := s + 1;
    }
    if s == |ms| {
      return Some(false);
    }
    var sel := ms[s];
    match c
    case Eco(max) =>
      if sel.carbonRank == 0 {
        return None;
      }
      return Some(sel.carbonRank <= max);
    case Proximity(max, q) =>
      if sel.distanceRank == 0 || sel.carbonRank == 0 {
        return None;
      }
      var outlier := false;
      if InWorstQuantile(sel.carbonRank, |ms|, q) {
        var k: nat := 0;
        while k < |ms| && !outlier
          invariant k <= |ms|
          invariant outlier ==> HasCleanerNearby(ms, sel, max)
          invariant !outlier ==> forall m: nat :: m < k ==> !CleanerNearby(ms, sel, max, m)
          decreases |ms| - k, !outlier
        {
          if CleanerNearby(ms, sel, max, k) {
            outlier := true;
          } else {
            k := k + 1;
          }
        }
      }
      return Some(sel.distanceRank <= max && !outlier);
    case Balanced(q) =>
      if sel.distanceRank == 0 || sel.carbonRank == 0 {
        return None;
      }
      var worstCarbon := InWorstQuantile(sel.carbonRank, |ms|, q);
      var worstDistance := InWorstQuantile(sel.distanceRank, |ms|, q);
      return Some(!worstCarbon && !worstDistance);
    case NoPreference =>
      return Some(true);
  }

  // ---------------------------------------------------------------------------
  // What the criteria mean
  // ---------------------------------------------------------------------------

  /** The candidates that advertise strictly lower carbon than candidate `i`. */
  function Greener(cs: seq<Candidate>, i: nat): set<nat>
    requires i < |cs| && cs[i].carbon.Some?
  {
    set k: nat | k < |cs| && cs[k].carbon.Some? && cs[k].carbon.value < cs[i].carbon.value
  }

  /** The eco criterion passes exactly when the choice advertises carbon and fewer than
      the allowed number of candidates are strictly greener. */
  lemma EcoPassesExactlyWhen(cs: seq<Candidate>, ms: seq<Metrics>, max: nat, i: nat)
    requires Ranked(cs, ms) && i < |cs|
    ensures VerdictOn(Eco(max), ms, ms[i]) == Some(true) <==> cs[i].carbon.Some? && |Greener(cs, i)| < max
    ensures VerdictOn(Eco(max), ms, ms[i]) == None <==> cs[i].carbon.None?
  {
    if cs[i].carbon.Some? {
      assert Greener(cs, i) == Below(Carbon(cs), cs[i].carbon.value);
    }
  }

  lemma CeilIsLeast(x: real)
    ensures x <= Ceil(x) as real < x + 1.0
  {
  }

  /** The candidates that are known to be strictly nearer than candidate `i`. */
  function Nearer(cs: seq<Candidate>, i: nat): set<nat>
    requires i < |cs| && cs[i].distance.Some?
  {
    set k: nat | k < |cs| && cs[k].distance.Some? && cs[k].distance.value < cs[i].distance.value
  }

  /** So many of `n` are strictly better that the rest, but for one, is less than the share. */
  predicate LeavesWorst(better: nat, n: nat, q: real) {
    n > 0 && (n - 1 - better) as real < q * n as real
  }

  lemma WorstByShare(better: nat, n: nat, q: real)
    ensures InWorstQuantile(1 + better, n, q) <==> LeavesWorst(better, n, q)
  {
    CeilIsLeast(q * n as real);
  }

  /** Candidate `i` is dirty: it advertises carbon and is left among the worst share. */
  predicate Dirty(cs: seq<Candidate>, i: nat, q: real)
    requires i < |cs|
  {
    cs[i].carbon.Some? && LeavesWorst(|Greener(cs, i)|, |cs|, q)
  }

  predicate Distant(cs: seq<Candidate>, i: nat, q: real)
    requires i < |cs|
  {
    cs[i].distance.Some? && LeavesWorst(|Nearer(cs, i)|, |cs|, q)
  }

  predicate CloseBy(cs: seq<Candidate>, i: nat, max: nat)
    requires i < |cs|
  {
    cs[i].distance.Some? && |Nearer(cs, i)| < max
  }

  lemma RanksMean(cs: seq<Candidate>, ms: seq<Metrics>, i: nat)
    requires Ranked(cs, ms) && i < |cs|
    ensures ms[i].provider == cs[i].provider
    ensures ms[i].carbonRank == if cs[i].carbon.Some? then 1 + |Greener(cs, i)| else 0
    ensures ms[i].distanceRank == if cs[i].distance.Some? then 1 + |Nearer(cs, i)| else 0
  {
    if cs[i].carbon.Some? {
      assert Greener(cs, i) == Below(Carbon(cs), cs[i].carbon.value);
    }
    if cs[i].distance.Some? {
      assert Nearer(cs, i) == Below(Distance(cs), cs[i].distance.value);
    }
  }

  /** Balanced passes exactly when both metrics are known and the choice is neither dirty
      nor distant. */
  lemma BalancedPassesExactlyWhen(cs: seq<Candidate>, ms: seq<Metrics>, q: real, i: nat)
    requires Ranked(cs, ms) && i < |cs|
    ensures var v := VerdictOn(Balanced(q), ms, ms[i]);
      && (v.None? <==> cs[i].carbon.None? || cs[i].distance.None?)
      && (v.Some? ==> (v.value <==> !Dirty(cs, i, q) && !Distant(cs, i, q)))
  {
    RanksMean(cs, ms, i);
    if cs[i].carbon.Some? && cs[i].distance.Some? {
      WorstByShare(|Greener(cs, i)|, |cs|, q);
      WorstByShare(|Nearer(cs, i)|, |cs|, q);
    }
  }

  /** Another near candidate with strictly less carbon. */
  ghost predicate GreenerNearby(cs: seq<Candidate>, i: nat, max: nat)
    requires i < |cs| && cs[i].carbon.Some?
  {
    exists k: nat :: k < |cs| && cs[k].provider != cs[i].provider && CloseBy(cs, k, max) && k in Greener(cs, i)
  }

  lemma CarbonRanksOrder(cs: seq<Candidate>, k: nat, i: nat)
    requires k < |cs| && i < |cs| && cs[k].carbon.Some? && cs[i].carbon.Some?
    ensures |Greener(cs, k)| < |Greener(cs, i)| <==> cs[k].carbon.value < cs[i].carbon.value
  {
    if cs[k].carbon.value < cs[i].carbon.value {
      assert k in Greener(cs, i) && k !in Greener(cs, k);
      SubsetSize(Greener(cs, k), Greener(cs, i));
    } else {
      SubsetSize(Greener(cs, i), Greener(cs, k));
    }
  }

  lemma CleanerIsGreener(cs: seq<Candidate>, ms: seq<Metrics>, max: nat, i: nat, k: nat)
    requires Ranked(cs, ms) && i < |cs| && k < |cs| && cs[i].carbon.Some?
    ensures CleanerNearby(ms, ms[i], max, k) <==>
      cs[k].provider != cs[i].provider && CloseBy(cs, k, max) && k in Greener(cs, i)
  {
    RanksMean(cs, ms, i);
    RanksMean(cs, ms, k);
    if cs[k].carbon.Some? {
      CarbonRanksOrder(cs, k, i);
    }
  }

  /** Proximity passes exactly when both metrics are known, fewer than the allowed number of
      candidates are nearer, and the choice is not dirty with a greener one nearby. */
  lemma ProximityPassesExactlyWhen(cs: seq<Candidate>, ms: seq<Metrics>, max: nat, q: real, i: nat)
    requires Ranked(cs, ms) && i < |cs|
    ensures var v := VerdictOn(Proximity(max, q), ms, ms[i]);
      && (v.None? <==> cs[i].carbon.None? || cs[i].distance.None?)
      && (v.Some? ==> (v.value <==> CloseBy(cs, i, max) && !(Dirty(cs, i, q) && GreenerNearby(cs, i, max))))
  {
    RanksMean(cs, ms, i);
    if cs[i].carbon.Some? {
      WorstByShare(|Greener(cs, i)|, |cs|, q);
      forall k: nat | k < |cs|
        ensures CleanerNearby(ms, ms[i], max, k) <==>
          cs[k].provider != cs[i].provider && CloseBy(cs, k, max) && k in Greener(cs, i)
      {
        CleanerIsGreener(cs, ms, max, i, k);
      }
    }
  }

  predicate DistinctProviders(ms: seq<Metrics>) {
    forall i, j :: 0 <= i < j < |ms| ==> ms[i].provider != ms[j].provider
  }

  /** Where any candidate advertises carbon, some selection passes the eco criterion. */
  lemma SomeEcoChoicePasses(cs: seq<Candidate>, ms: seq<Metrics>, max: nat, i: nat) returns (best: nat)
    requires Ranked(cs, ms) && DistinctProviders(ms) && max > 0 && i < |cs| && cs[i].carbon.Some?
    ensures best < |ms| && IsFirst(ms, best, ms[best].provider)
    ensures VerdictOn(Eco(max), ms, ms[best]) == Some(true)
  {
    best := SomeoneIsFirst(Carbon(cs), i);
    assert forall k :: 0 <= k < best ==> ms[k].provider != ms[best].provider;
  }

  /** The row a selection of its provider is judged by: the first one listed. */
  predicate Judged(cs: seq<Candidate>, i: nat) {
    i < |cs| && forall k :: 0 <= k < i ==> cs[k].provider != cs[i].provider
  }

  ghost predicate SomeSelectionPasses(c: Criterion, ms: seq<Metrics>) {
    exists i: nat, id :: IsFirst(ms, i, id) && VerdictOn(c, ms, ms[i]) == Some(true)
  }

  predicate GreenEnough(cs: seq<Candidate>, i: nat, max: nat) {
    i < |cs| && cs[i].carbon.Some? && |Greener(cs, i)| < max
  }

  lemma JudgedIsFirst(cs: seq<Candidate>, ms: seq<Metrics>, i: nat)
    requires Ranked(cs, ms) && i < |cs|
    ensures IsFirst(ms, i, cs[i].provider) <==> Judged(cs, i)
  {
    forall k | 0 <= k < |cs|
      ensures ms[k].provider == cs[k].provider
    {
      assert ms[k] == MetricsOf(cs, k);
    }
  }

  /** For every list of candidates, repeated providers included: some selection passes the
      eco criterion exactly when some row that is judged advertises carbon and has fewer
      than the allowed number of candidates strictly greener than it. */
  lemma SomeEcoChoicePassesExactlyWhen(cs: seq<Candidate>, ms: seq<Metrics>, max: nat)
    requires Ranked(cs, ms)
    ensures SomeSelectionPasses(Eco(max), ms) <==> exists i: nat :: Judged(cs, i) && GreenEnough(cs, i, max)
  {
    if SomeSelectionPasses(Eco(max), ms) {
      var i: nat, id :| IsFirst(ms, i, id) && VerdictOn(Eco(max), ms, ms[i]) == Some(true);
      assert ms[i] == MetricsOf(cs, i);
      JudgedIsFirst(cs, ms, i);
      EcoPassesExactlyWhen(cs, ms, max, i);
      assert Judged(cs, i) && GreenEnough(cs, i, max);
    }
    if i: nat :| Judged(cs, i) && GreenEnough(cs, i, max) {
      JudgedIsFirst(cs, ms, i);
      EcoPassesExactlyWhen(cs, ms, max, i);
      assert IsFirst(ms, i, cs[i].provider);
    }
  }

  ghost predicate GreenestJudged(cs: seq<Candidate>, g: nat) {
    && Judged(cs, g) && cs[g].carbon.Some?
    && forall i: nat :: Judged(cs, i) && cs[i].carbon.Some? ==> cs[g].carbon.value <= cs[i].carbon.value
  }

  /** The greenest judged row decides: some selection passes exactly when fewer than the
      allowed number of rows are greener than it, and those are all second listings. */
  lemma GreenestJudgedDecides(cs: seq<Candidate>, ms: seq<Metrics>, max: nat, g: nat)
    requires Ranked(cs, ms) && GreenestJudged(cs, g)
    ensures SomeSelectionPasses(Eco(max), ms) <==> |Greener(cs, g)| < max
    ensures forall k :: k in Greener(cs, g) ==> !Judged(cs, k)
  {
    SomeEcoChoicePassesExactlyWhen(cs, ms, max);
    forall i: nat | Judged(cs, i) && cs[i].carbon.Some?
      ensures |Greener(cs, g)| <= |Greener(cs, i)|
    {
      SubsetSize(Greener(cs, g), Greener(cs, i));
    }
    if |Greener(cs, g)| < max {
      assert Judged(cs, g) && GreenEnough(cs, g, max);
    }
  }

  /** A provider listed twice hides its second entry, and with it the only passing one. */
  lemma SecondListingIsHidden(cs: seq<Candidate>, ms: seq<Metrics>, max: nat, i: nat, id: string)
    requires cs == [Candidate("a", None, None, None), Candidate("a", Some(1.0), None, None)] && Ranked(cs, ms)
    requires IsFirst(ms, i, id)
    ensures VerdictOn(Eco(max), ms, ms[i]) != Some(true)
  {
    assert ms[0] == MetricsOf(cs, 0) && ms[1] == MetricsOf(cs, 1);
    assert ms[0].provider == ms[1].provider;
  }

  ghost predicate Near(ms: seq<Metrics>, max: nat, i: nat) {
    i < |ms| && 0 < ms[i].distanceRank <= max && ms[i].carbonRank > 0
  }

  /** Where any near candidate has both metrics, the greenest near one passes the
      proximity criterion, however dirty it is. */
  lemma {:induction false} SomeNearChoicePasses(ms: seq<Metrics>, max: nat, q: real, i: nat) returns (best: nat)
    requires DistinctProviders(ms) && Near(ms, max, i)
    ensures Near(ms, max, best) && IsFirst(ms, best, ms[best].provider)
    ensures VerdictOn(Proximity(max, q), ms, ms[best]) == Some(true)
    decreases ms[i].carbonRank
  {
    if HasCleanerNearby(ms, ms[i], max) {
      var k: nat :| k < |ms| && CleanerNearby(ms, ms[i], max, k);
      best := SomeNearChoicePasses(ms, max, q, k);
    } else {
      best := i;
      assert forall k :: 0 <= k < i ==> ms[k].provider != ms[i].provider;
    }
  }
}
