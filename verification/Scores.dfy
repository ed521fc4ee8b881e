/**
 The reference score: a weighted sum of min-max normalised metrics, 0 for the best
 candidate on a metric and 1 for the worst or for one that does not advertise it.
 Floating-point values are modelled as reals.
 */
module Scores {
  import opened Views
  import opened Ranking

  datatype Weights = Weights(carbon: real, distance: real, cost: real)

  predicate ValidWeights(w: Weights) {
    w.carbon >= 0.0 && w.distance >= 0.0 && w.cost >= 0.0 && w.carbon + w.distance + w.cost > 0.0
  }

  ghost predicate IsLowest(vals: seq<Option<real>>, lo: real) {
    Some(lo) in vals && forall i :: 0 <= i < |vals| && vals[i].Some? ==> lo <= vals[i].value
  }

  ghost predicate IsHighest(vals: seq<Option<real>>, hi: real) {
    Some(hi) in vals && forall i :: 0 <= i < |vals| && vals[i].Some? ==> vals[i].value <= hi
  }

  /** Where the value lies between the lowest and the highest of all candidates. */
  ghost predicate IsNorm(vals: seq<Option<real>>, out: seq<real>) {
    |out| == |vals| && forall i :: 0 <= i < |vals| ==> NormAt(vals, i, out[i])
  }

  ghost predicate NormAt(vals: seq<Option<real>>, i: nat, x: real)
    requires i < |vals|
  {
    if vals[i].None? then x == 1.0
    else exists lo, hi ::
      IsLowest(vals, lo) && IsHighest(vals, hi) && x == Scaled(vals[i].value, lo, hi)
  }

  function Scaled(x: real, lo: real, hi: real): real {
    if hi == lo then 0.0 else (x - lo) / (hi - lo)
  }

  /** The best value present counts 0, the worst 1 where they differ, and equal steps of the
      metric are equal steps of its norm. */
  lemma NormIsLinear(vals: seq<Option<real>>, out: seq<real>, lo: real, hi: real, i: nat, j: nat)
    requires IsNorm(vals, out) && IsLowest(vals, lo) && IsHighest(vals, hi)
    requires i < |vals| && j < |vals| && vals[i].Some? && vals[j].Some?
    ensures vals[i].value == lo ==> out[i] == 0.0
    ensures vals[i].value == hi > lo ==> out[i] == 1.0
    ensures (out[i] - out[j]) * (hi - lo) == vals[i].value - vals[j].value
  {
    NormIsScaled(vals, i, out[i], lo, hi);
    NormIsScaled(vals, j, out[j], lo, hi);
    if lo < hi {
      SameSteps(vals[i].value, vals[j].value, lo, hi);
    }
  }

  lemma NormIsScaled(vals: seq<Option<real>>, i: nat, x: real, lo: real, hi: real)
    requires IsLowest(vals, lo) && IsHighest(vals, hi) && i < |vals| && vals[i].Some? && NormAt(vals, i, x)
    ensures x == Scaled(vals[i].value, lo, hi) && lo <= vals[i].value <= hi
  {
    var lo', hi' :| IsLowest(vals, lo') && IsHighest(vals, hi') && x == Scaled(vals[i].value, lo', hi');
    assert lo' == lo && hi' == hi;
  }

  lemma SameSteps(x: real, y: real, lo: real, hi: real)
    requires lo < hi
    ensures (Scaled(x, lo, hi) - Scaled(y, lo, hi)) * (hi - lo) == x - y
    ensures Scaled(lo, lo, hi) == 0.0 && Scaled(hi, lo, hi) == 1.0
  {
    var d := hi - lo;
    assert d / d == 1.0;
  }

  method Norm(vals: seq<Option<real>>) returns (out: seq<real>)
    ensures IsNorm(vals, out)
  {
    var lo, hi: Option<real> := None, None;
    for i := 0 to |vals|
      invariant lo.None? <==> forall k :: 0 <= k < i ==> vals[k].None?
      invariant hi.None? <==> lo.None?
      invariant lo.Some? ==> IsLowest(vals[..i], lo.value) && IsHighest(vals[..i], hi.value)
    {
      assert vals[..i + 1] == vals[..i] + [vals[i]];
      if vals[i].Some? {
        var v := vals[i].value;
        lo := if lo.None? || v < lo.value then Some(v) else lo;
        hi := if hi.None? || v > hi.value then Some(v) else hi;
        assert Some(v) in vals[..i + 1];
      }
    }
    assert vals[..|vals|] == vals;
    out := [];
    for i := 0 to |vals|
      invariant |out| == i && forall k :: 0 <= k < i ==> NormAt(vals, k, out[k])
    {
      var x := if vals[i].None? then 1.0
        else if hi.value == lo.value then 0.0
        else (vals[i].value - lo.value) / (hi.value - lo.value);
      assert NormAt(vals, i, x);
      out := out + [x];
    }
  }

  /** Candidate `i` is at least as good as `j` on every metric. */
  predicate Dominates(carbon: seq<Option<real>>, distance: seq<Option<real>>, cost: seq<Option<real>>, i: nat, j: nat)
    requires |carbon| == |distance| == |cost| && i < |carbon| && j < |carbon|
  {
    NoWorse(carbon[i], carbon[j]) && NoWorse(distance[i], distance[j]) && NoWorse(cost[i], cost[j])
  }

  /** `a` is at least as good as `b`, a missing value counting as the worst. */
  predicate NoWorse(a: Option<real>, b: Option<real>) {
    b.None? || (a.Some? && a.value <= b.value)
  }

  lemma FractionBounds(x: real, y: real, d: real)
    requires 0.0 <= x <= y <= d && d > 0.0
    ensures 0.0 <= x / d <= y / d <= 1.0
  {
    var a, b := x / d, y / d;
    assert a * d == x && b * d == y;
    if b > 1.0 {
      assert b * d > 1.0 * d;
    }
  }

  lemma ScaledBounds(x: real, y: real, lo: real, hi: real)
    requires lo <= x <= y <= hi
    ensures 0.0 <= Scaled(x, lo, hi) <= Scaled(y, lo, hi) <= 1.0
  {
    if lo != hi {
      FractionBounds(x - lo, y - lo, hi - lo);
    }
  }

  lemma NormIsMonotone(vals: seq<Option<real>>, out: seq<real>, i: nat, j: nat)
    requires IsNorm(vals, out) && i < |vals| && j < |vals|
    ensures 0.0 <= out[i] <= 1.0
    ensures NoWorse(vals[i], vals[j]) ==> out[i] <= out[j]
  {
    assert NormAt(vals, i, out[i]) && NormAt(vals, j, out[j]);
    if vals[i].Some? {
      var lo, hi :| IsLowest(vals, lo) && IsHighest(vals, hi) && out[i] == Scaled(vals[i].value, lo, hi);
      ScaledBounds(vals[i].value, vals[i].value, lo, hi);
      if vals[j].Some? && vals[i].value <= vals[j].value {
        var lo', hi' :| IsLowest(vals, lo') && IsHighest(vals, hi') && out[j] == Scaled(vals[j].value, lo', hi');
        SameExtremes(vals, lo, hi, lo', hi');
        ScaledBounds(vals[i].value, vals[j].value, lo, hi);
      }
    }
  }

  lemma SameExtremes(vals: seq<Option<real>>, lo: real, hi: real, lo': real, hi': real)
    requires IsLowest(vals, lo) && IsHighest(vals, hi) && IsLowest(vals, lo') && IsHighest(vals, hi')
    ensures lo == lo' && hi == hi'
  {
    var a :| 0 <= a < |vals| && vals[a] == Some(lo);
    var a' :| 0 <= a' < |vals| && vals[a'] == Some(lo');
    var b :| 0 <= b < |vals| && vals[b] == Some(hi);
    var b' :| 0 <= b' < |vals| && vals[b'] == Some(hi');
  }

  // ---------------------------------------------------------------------------
  // The score
  // ---------------------------------------------------------------------------

  /** One candidate's three normalised metrics. */
  datatype Normed = Normed(carbon: real, distance: real, cost: real)

  function WeightedSum(w: Weights, n: Normed): real {
    w.carbon * n.carbon + w.distance * n.distance + w.cost * n.cost
  }

  function Total(w: Weights): real {
    w.carbon + w.distance + w.cost
  }

  function WeightedMean(w: Weights, n: Normed): real
    requires ValidWeights(w)
  {
    WeightedSum(w, n) / Total(w)
  }

  /** Rounding to four decimals, halves upwards: scores are never negative. */
  function Round4(x: real): real {
    (x * 10000.0 + 0.5).Floor as real / 10000.0
  }

  predicate InUnit(n: Normed) {
    0.0 <= n.carbon <= 1.0 && 0.0 <= n.distance <= 1.0 && 0.0 <= n.cost <= 1.0
  }

  function ScoreOf(w: Weights, n: Normed): real
    requires ValidWeights(w)
  {
    Round4(WeightedMean(w, n))
  }

  lemma ProductOrder(w: real, a: real, b: real)
    requires w >= 0.0 && a <= b
    ensures w * a <= w * b
  {
  }

  lemma WeightedSums(w: Weights, n: Normed, m: Normed)
    requires ValidWeights(w) && n.carbon <= m.carbon && n.distance <= m.distance && n.cost <= m.cost
    ensures WeightedSum(w, n) <= WeightedSum(w, m)
  {
    var a, b, c := w.carbon * n.carbon, w.distance * n.distance, w.cost * n.cost;
    var x, y, z := w.carbon * m.carbon, w.distance * m.distance, w.cost * m.cost;
    assert a <= x by {
      ProductOrder(w.carbon, n.carbon, m.carbon);
    }
    assert b <= y by {
      ProductOrder(w.distance, n.distance, m.distance);
    }
    assert c <= z by {
      ProductOrder(w.cost, n.cost, m.cost);
    }
  }

  const BEST := Normed(0.0, 0.0, 0.0)
  const WORST := Normed(1.0, 1.0, 1.0)

  lemma ExtremeSums(w: Weights)
    ensures WeightedSum(w, BEST) == 0.0 && WeightedSum(w, WORST) == Total(w)
  {
  }

  lemma WeightedOrder(w: Weights, n: Normed, m: Normed)
    requires ValidWeights(w) && InUnit(n) && InUnit(m)
    requires n.carbon <= m.carbon && n.distance <= m.distance && n.cost <= m.cost
    ensures 0.0 <= WeightedSum(w, n) <= WeightedSum(w, m) <= Total(w)
  {
    ExtremeSums(w);
    WeightedSums(w, BEST, n);
    WeightedSums(w, n, m);
    WeightedSums(w, m, WORST);
  }

  lemma MeanBounds(w: Weights, n: Normed, m: Normed)
    requires ValidWeights(w) && 0.0 <= WeightedSum(w, n) <= WeightedSum(w, m) <= Total(w)
    ensures 0.0 <= WeightedMean(w, n) <= WeightedMean(w, m) <= 1.0
  {
    FractionBounds(WeightedSum(w, n), WeightedSum(w, m), Total(w));
  }

  lemma FloorOrder(a: real, b: real)
    requires a <= b
    ensures a.Floor <= b.Floor
  {
  }

  lemma RoundBounds(x: real, y: real)
    requires 0.0 <= x <= y <= 1.0
    ensures 0.0 <= Round4(x) <= Round4(y) <= 1.0
  {
    var a, b := (x * 10000.0 + 0.5).Floor, (y * 10000.0 + 0.5).Floor;
    FloorOrder(x * 10000.0 + 0.5, y * 10000.0 + 0.5);
    FloorOrder(0.5, x * 10000.0 + 0.5);
    FloorOrder(y * 10000.0 + 0.5, 10000.5);
    assert 0 <= a <= b <= 10000;
    FractionBounds(a as real, b as real, 10000.0);
  }

  method ReferenceScores(carbon: seq<Option<real>>, distance: seq<Option<real>>, cost: seq<Option<real>>, w: Weights)
    returns (scores: seq<Option<real>>)
    requires |carbon| == |distance| == |cost| && ValidWeights(w)
    ensures |scores| == |carbon|
    ensures forall i :: 0 <= i < |scores| ==> scores[i].Some? && 0.0 <= scores[i].value <= 1.0
    ensures forall i: nat, j: nat | i < |scores| && j < |scores| ::
      Dominates(carbon, distance, cost, i, j) ==> scores[i].value <= scores[j].value
    ensures forall i: nat :: i < |scores| ==> ScoredAt(carbon, distance, cost, w, i, scores[i].value)
  {
    var nc := Norm(carbon);
    var nd := Norm(distance);
    var nk := Norm(cost);
    ghost var ns: seq<Normed> := seq(|carbon|, i requires 0 <= i < |carbon| => Normed(nc[i], nd[i], nk[i]));
    scores := [];
    for i := 0 to |carbon|
      invariant |scores| == i && forall k :: 0 <= k < i ==> scores[k] == Some(ScoreOf(w, ns[k]))
    {
      var s := WeightedMean(w, Normed(nc[i], nd[i], nk[i]));
      scores := scores + [Some(Round4(s))];
    }
    forall i: nat, j: nat | i < |scores| && j < |scores|
      ensures 0.0 <= scores[i].value <= 1.0
      ensures Dominates(carbon, distance, cost, i, j) ==> scores[i].value <= scores[j].value
    {
      ScoreOrder(carbon, distance, cost, nc, nd, nk, w, i, j);
      ScoreOrder(carbon, distance, cost, nc, nd, nk, w, i, i);
    }
    forall i: nat | i < |scores|
      ensures ScoredAt(carbon, distance, cost, w, i, scores[i].value)
    {
      assert NormedAt(carbon, distance, cost, i, ns[i]);
    }
  }

  lemma Cancels(x: real, c: real)
    requires x > 0.0
    ensures x * c / x == c
  {
  }

  /** With all weight on one metric the score is that metric alone, rounded. */
  lemma OneMetricDecides(x: real, n: Normed)
    requires x > 0.0
    ensures ScoreOf(Weights(x, 0.0, 0.0), n) == Round4(n.carbon)
    ensures ScoreOf(Weights(0.0, x, 0.0), n) == Round4(n.distance)
    ensures ScoreOf(Weights(0.0, 0.0, x), n) == Round4(n.cost)
  {
    OneTerm(x, n);
    MeanOfOne(Weights(x, 0.0, 0.0), n, x, n.carbon);
    MeanOfOne(Weights(0.0, x, 0.0), n, x, n.distance);
    MeanOfOne(Weights(0.0, 0.0, x), n, x, n.cost);
  }

  lemma MeanOfOne(w: Weights, n: Normed, x: real, c: real)
    requires ValidWeights(w) && x > 0.0 && Total(w) == x && WeightedSum(w, n) == x * c
    ensures WeightedMean(w, n) == c
  {
    Cancels(x, c);
  }

  lemma OneTerm(x: real, n: Normed)
    ensures WeightedSum(Weights(x, 0.0, 0.0), n) == x * n.carbon && Total(Weights(x, 0.0, 0.0)) == x
    ensures WeightedSum(Weights(0.0, x, 0.0), n) == x * n.distance && Total(Weights(0.0, x, 0.0)) == x
    ensures WeightedSum(Weights(0.0, 0.0, x), n) == x * n.cost && Total(Weights(0.0, 0.0, x)) == x
  {
  }

  /** The rounded score is the nearest multiple of one ten-thousandth. */
  lemma RoundIsNearest(x: real)
    ensures -0.00005 < Round4(x) - x <= 0.00005
    ensures (Round4(x) * 10000.0).Floor as real == Round4(x) * 10000.0
  {
    var k := (x * 10000.0 + 0.5).Floor;
    assert Round4(x) == k as real / 10000.0;
  }

  /** Better metrics, better score. */
  lemma ScoreBounds(w: Weights, n: Normed, m: Normed)
    requires ValidWeights(w) && InUnit(n) && InUnit(m)
    requires n.carbon <= m.carbon && n.distance <= m.distance && n.cost <= m.cost
    ensures 0.0 <= ScoreOf(w, n) <= ScoreOf(w, m) <= 1.0
  {
    WeightedOrder(w, n, m);
    MeanBounds(w, n, m);
    RoundBounds(WeightedMean(w, n), WeightedMean(w, m));
  }

  ghost predicate NormedAt(carbon: seq<Option<real>>, distance: seq<Option<real>>, cost: seq<Option<real>>,
                           i: nat, n: Normed)
    requires i < |carbon| == |distance| == |cost|
  {
    NormAt(carbon, i, n.carbon) && NormAt(distance, i, n.distance) && NormAt(cost, i, n.cost)
  }

  ghost predicate ScoredAt(carbon: seq<Option<real>>, distance: seq<Option<real>>, cost: seq<Option<real>>,
                           w: Weights, i: nat, score: real)
    requires i < |carbon| == |distance| == |cost| && ValidWeights(w)
  {
    exists n :: NormedAt(carbon, distance, cost, i, n) && score == ScoreOf(w, n)
  }

  lemma ScoreOrder(carbon: seq<Option<real>>, distance: seq<Option<real>>, cost: seq<Option<real>>,
                   nc: seq<real>, nd: seq<real>, nk: seq<real>, w: Weights, i: nat, j: nat)
    requires |carbon| == |distance| == |cost| && ValidWeights(w) && i < |carbon| && j < |carbon|
    requires IsNorm(carbon, nc) && IsNorm(distance, nd) && IsNorm(cost, nk)
    ensures 0.0 <= ScoreOf(w, Normed(nc[i], nd[i], nk[i])) <= 1.0
    ensures Dominates(carbon, distance, cost, i, j) ==>
      ScoreOf(w, Normed(nc[i], nd[i], nk[i])) <= ScoreOf(w, Normed(nc[j], nd[j], nk[j]))
  {
    var n, m := Normed(nc[i], nd[i], nk[i]), Normed(nc[j], nd[j], nk[j]);
    NormIsMonotone(carbon, nc, i, j);
    NormIsMonotone(distance, nd, i, j);
    NormIsMonotone(cost, nk, i, j);
    NormIsMonotone(carbon, nc, j, i);
    NormIsMonotone(distance, nd, j, i);
    NormIsMonotone(cost, nk, j, i);
    ScoreBounds(w, n, n);
    if Dominates(carbon, distance, cost, i, j) {
      ScoreBounds(w, n, m);
    }
  }

  /** The reference score and rank of every candidate: one that is no worse on any metric
      never ranks behind, normalisation, weights, rounding and ties included. */
  method ReferenceRanks(carbon: seq<Option<real>>, distance: seq<Option<real>>, cost: seq<Option<real>>, w: Weights)
    returns (scores: seq<Option<real>>, ranks: seq<nat>)
    requires |carbon| == |distance| == |cost| && ValidWeights(w)
    ensures |ranks| == |scores| == |carbon| && forall i :: 0 <= i < |ranks| ==> ranks[i] == RankOf(scores, i) >= 1
    ensures forall i: nat :: i < |scores| ==>
      scores[i].Some? && ScoredAt(carbon, distance, cost, w, i, scores[i].value)
    ensures forall i: nat, j: nat | i < |ranks| && j < |ranks| ::
      Dominates(carbon, distance, cost, i, j) ==> ranks[i] <= ranks[j]
  {
    scores := ReferenceScores(carbon, distance, cost, w);
    ranks := RankAscending(scores);
    forall i: nat, j: nat | i < |ranks| && j < |ranks|
      ensures Dominates(carbon, distance, cost, i, j) ==> ranks[i] <= ranks[j]
    {
      RankFollowsValue(scores, i, j);
    }
  }
}
