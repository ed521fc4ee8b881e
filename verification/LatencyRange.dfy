/**
 The range drawn around the latency curve. Here the edges are means over the round-trip
 times probed in the same refresh window, so the curve's own values must be among the
 probes, counted as often as they are used: merely occurring there is not enough.
 */
module LatencyRange {
  import opened Seqs
  import opened Views
  import opened Sets
  import opened Sorting
  import opened Bands

  datatype Probe = Probe(elapsed: real, consumer: string, provider: string, rtt: real)

  /** The sorted round-trip times of one window and how many pairs they come from. */
  datatype Pool = Pool(values: seq<real>, pairs: nat)

  /** The refresh windows are `step` minutes long and one boundary lies at `offset`. */
  datatype Grid = Grid(window: real, offset: real)

  function Step(g: Grid): (s: real)
    ensures s > 0.0
  {
    if g.window > 0.0 then g.window else 1.0
  }

  function Number(g: Grid, elapsed: real): int {
    ((elapsed - g.offset) / Step(g)).Floor
  }

  /** Rounding to a whole number, halves to the even one. */
  function RoundEven(x: real): int {
    var rest := x - x.Floor as real;
    if rest < 0.5 || (rest == 0.5 && x.Floor % 2 == 0) then x.Floor else x.Floor + 1
  }

  const MILLION := 1000000.0

  function Round6(x: real): real {
    RoundEven(x * MILLION) as real / MILLION
  }

  /** The key of the window a moment lies in: its start, rounded to six decimals. */
  function WindowOf(g: Grid, elapsed: real): real {
    Round6(StartOf(g, Number(g, elapsed)))
  }

  function StartOf(g: Grid, n: int): real {
    n as real * Step(g) + g.offset
  }

  lemma ScaleUp(x: real, q: real, y: real, step: real)
    requires step > 0.0 && x <= q < y
    ensures x * step <= q * step < y * step
  {
    var a, b := q - x, y - q;
    NonNegProduct(a, step);
    assert a * step == q * step - x * step;
    PositiveProduct(b, step);
    assert b * step == y * step - q * step;
  }

  lemma PositiveProduct(a: real, b: real)
    requires a > 0.0 && b > 0.0
    ensures a * b > 0.0
  {
  }

  /** A moment lies between the start of its window and the start of the next. */
  lemma WindowHolds(g: Grid, elapsed: real)
    ensures StartOf(g, Number(g, elapsed)) <= elapsed < StartOf(g, Number(g, elapsed) + 1)
  {
    var n, q := Number(g, elapsed), (elapsed - g.offset) / Step(g);
    Undivide(elapsed - g.offset, Step(g));
    FloorBounds(q, n);
    ShiftedScale(n as real, q, (n + 1) as real, Step(g), g.offset, elapsed);
  }

  lemma ShiftedScale(x: real, q: real, y: real, step: real, offset: real, elapsed: real)
    requires step > 0.0 && x <= q < y && q * step == elapsed - offset
    ensures x * step + offset <= elapsed < y * step + offset
  {
    ScaleUp(x, q, y, step);
  }

  lemma Undivide(d: real, step: real)
    requires step > 0.0
    ensures d / step * step == d
  {
  }

  lemma FloorBounds(q: real, n: int)
    requires n == q.Floor
    ensures n as real <= q < (n + 1) as real
  {
  }

  lemma RoundIsClose(x: real)
    ensures x - 0.5 <= RoundEven(x) as real <= x + 0.5
  {
  }

  lemma FarApartRoundsApart(x: real, y: real)
    requires y - x > 1.0 / MILLION
    ensures Round6(x) < Round6(y)
  {
    RoundIsClose(x * MILLION);
    RoundIsClose(y * MILLION);
  }

  lemma LaterStart(g: Grid, a: int, b: int)
    requires a < b
    ensures StartOf(g, b) - StartOf(g, a) >= Step(g)
  {
    MoreSteps(a as real, b as real, Step(g));
  }

  lemma MoreSteps(x: real, y: real, step: real)
    requires y - x >= 1.0 && step > 0.0
    ensures y * step - x * step >= step
  {
    var d := y - x - 1.0;
    NonNegProduct(d, step);
    assert d * step == y * step - x * step - step;
  }

  lemma NonNegProduct(a: real, b: real)
    requires a >= 0.0 && b >= 0.0
    ensures a * b >= 0.0
  {
  }

  lemma LaterKey(g: Grid, a: int, b: int)
    requires a < b && Step(g) > 1.0 / MILLION
    ensures Round6(StartOf(g, a)) < Round6(StartOf(g, b))
  {
    LaterStart(g, a, b);
    FarApartRoundsApart(StartOf(g, a), StartOf(g, b));
  }

  /** With windows longer than a millionth of a minute, two moments get the same key
      exactly when they lie in the same window. */
  lemma KeysAreWindows(g: Grid, e: real, e': real)
    requires Step(g) > 1.0 / MILLION
    ensures WindowOf(g, e) == WindowOf(g, e') <==> Number(g, e) == Number(g, e')
  {
    var a, b := Number(g, e), Number(g, e');
    if a < b {
      LaterKey(g, a, b);
    } else if b < a {
      LaterKey(g, b, a);
    }
  }

  function TimesIn(g: Grid, rows: seq<Probe>, b: real): seq<real> {
    if rows == [] then []
    else if WindowOf(g, rows[|rows| - 1].elapsed) == b
    then TimesIn(g, rows[..|rows| - 1], b) + [rows[|rows| - 1].rtt]
    else TimesIn(g, rows[..|rows| - 1], b)
  }

  /** The times of a window are those of its probes, one each, in their order. */
  lemma {:induction false} TimesSplit(g: Grid, xs: seq<Probe>, ys: seq<Probe>, b: real)
    ensures TimesIn(g, xs + ys, b) == TimesIn(g, xs, b) + TimesIn(g, ys, b)
    ensures |xs| == 1 ==> TimesIn(g, xs, b) == if WindowOf(g, xs[0].elapsed) == b then [xs[0].rtt] else []
  {
    if ys == [] {
      assert xs + ys == xs;
    } else {
      var front, last := ys[..|ys| - 1], ys[|ys| - 1];
      var end := if WindowOf(g, last.elapsed) == b then [last.rtt] else [];
      TimesSplit(g, xs, front, b);
      MovedFront(xs, ys);
      assert TimesIn(g, xs + ys, b) == TimesIn(g, xs + front, b) + end;
      Regroup(TimesIn(g, xs, b), TimesIn(g, front, b), end);
    }
    if |xs| == 1 {
      assert xs[..0] == [];
    }
  }

  function PairsIn(g: Grid, rows: seq<Probe>, b: real): set<(string, string)> {
    set r | r in rows && WindowOf(g, r.elapsed) == b :: (r.consumer, r.provider)
  }

  ghost predicate PoolOk(g: Grid, rows: seq<Probe>, b: real, pool: Pool) {
    && Ascending(pool.values)
    && multiset(pool.values) == multiset(TimesIn(g, rows, b))
    && pool.pairs == |PairsIn(g, rows, b)|
  }

  lemma PairsGrow(g: Grid, rows: seq<Probe>, r: Probe, b: real)
    ensures PairsIn(g, rows + [r], b) ==
      if WindowOf(g, r.elapsed) == b then PairsIn(g, rows, b) + {(r.consumer, r.provider)} else PairsIn(g, rows, b)
  {
    var all := PairsIn(g, rows + [r], b);
    forall p | p in PairsIn(g, rows, b)
      ensures p in all
    {
      var q :| q in rows && WindowOf(g, q.elapsed) == b && p == (q.consumer, q.provider);
      assert q in rows + [r];
    }
    if WindowOf(g, r.elapsed) == b {
      assert r in rows + [r];
    }
  }

  /** What is known of window `b` after the probes in `rows`. */
  ghost predicate GroupOk(g: Grid, rows: seq<Probe>, groups: map<real, Group>, b: real) {
    if b in groups
    then groups[b] == Group(TimesIn(g, rows, b), PairsIn(g, rows, b)) && groups[b].times != []
    else TimesIn(g, rows, b) == [] && PairsIn(g, rows, b) == {}
  }

  datatype Group = Group(times: seq<real>, pairs: set<(string, string)>)

  function AddProbe(g: Grid, groups: map<real, Group>, r: Probe): map<real, Group> {
    var b := WindowOf(g, r.elapsed);
    var was := if b in groups then groups[b] else Group([], {});
    groups[b := Group(was.times + [r.rtt], was.pairs + {(r.consumer, r.provider)})]
  }

  lemma AddProbeOk(g: Grid, rows: seq<Probe>, groups: map<real, Group>, r: Probe, b: real)
    requires GroupOk(g, rows, groups, b)
    ensures GroupOk(g, rows + [r], AddProbe(g, groups, r), b)
  {
    PairsGrow(g, rows, r, b);
    assert (rows + [r])[..|rows|] == rows;
  }

  method GroupByWindow(g: Grid, rows: seq<Probe>) returns (groups: map<real, Group>)
    ensures forall b :: GroupOk(g, rows, groups, b)
  {
    groups := map[];
    for i := 0 to |rows|
      invariant forall b :: GroupOk(g, rows[..i], groups, b)
    {
      ghost var seen := rows[..i + 1];
      assert seen == rows[..i] + [rows[i]];
      var next := AddProbe(g, groups, rows[i]);
      forall b
        ensures GroupOk(g, seen, next, b)
      {
        AddProbeOk(g, rows[..i], groups, rows[i], b);
      }
      groups := next;
    }
    assert rows[..|rows|] == rows;
  }

  method PoolByWindow(g: Grid, rows: seq<Probe>) returns (pools: map<real, Pool>)
    ensures forall b :: b in pools <==> TimesIn(g, rows, b) != []
    ensures forall b :: b in pools ==> PoolOk(g, rows, b, pools[b])
  {
    var groups := GroupByWindow(g, rows);
    pools := map b | b in groups :: Pool(Sort(groups[b].times, Smaller), |groups[b].pairs|);
    forall b
      ensures b in pools <==> TimesIn(g, rows, b) != []
      ensures b in pools ==> PoolOk(g, rows, b, pools[b])
    {
      assert GroupOk(g, rows, groups, b);
      if b in groups {
        SortAscends(groups[b].times);
      }
    }
  }

  // ---------------------------------------------------------------------------
  // The range at one point
  // ---------------------------------------------------------------------------

  datatype Moment = Moment(elapsed: real, consumers: int)

  datatype Range = Range(elapsed: real, floor: real, ceiling: real, used: int, pairs: nat, coverage: Option<real>)

  function Mean(s: seq<real>): real
    requires s != []
  {
    Sum(s) / |s| as real
  }

  function Take(x: int, n: nat): int {
    if x < n then x else n
  }

  /** The share of all pairs that was measured, where the number of pairs is known. */
  function Coverage(pairs: nat, possible: int): Option<real> {
    if possible > 0 then Some(pairs as real / possible as real) else None
  }

  /** It is a share, and it is all of them exactly when every pair was measured. */
  lemma CoverageIsAShare(g: Grid, rows: seq<Probe>, b: real, pool: Pool, matrix: set<(string, string)>)
    requires PoolOk(g, rows, b, pool) && PairsIn(g, rows, b) <= matrix && matrix != {}
    ensures var c := Coverage(pool.pairs, |matrix|);
      c.Some? && 0.0 <= c.value <= 1.0 && (c.value == 1.0 <==> PairsIn(g, rows, b) == matrix)
  {
    SubsetSize(PairsIn(g, rows, b), matrix);
    Share(pool.pairs, |matrix|);
  }

  lemma Share(k: nat, n: nat)
    requires k <= n && n > 0
    ensures 0.0 <= k as real / n as real <= 1.0
    ensures k as real / n as real == 1.0 <==> k == n
  {
    RatioBounds(k as real, n as real);
  }

  lemma RatioBounds(a: real, b: real)
    requires 0.0 <= a <= b && b > 0.0
    ensures 0.0 <= a / b <= 1.0
    ensures a / b == 1.0 <==> a == b
  {
    var q := a / b;
    assert q * b == a && 1.0 * b == b;
  }

  /** A point whose window was never probed, or that averages nobody, has no range. */
  function RangeAt(g: Grid, pools: map<real, Pool>, possible: int, m: Moment): Option<Range> {
    var b := WindowOf(g, m.elapsed);
    if b !in pools then None
    else
      var t := pools[b].values;
      var take := Take(m.consumers, |t|);
      if take <= 0 then None
      else Some(Range(m.elapsed, Mean(t[..take]), Mean(t[|t| - take..]), take, pools[b].pairs,
                      Coverage(pools[b].pairs, possible)))
  }

  function AllRanges(g: Grid, pools: map<real, Pool>, possible: int, ms: seq<Moment>): seq<Range> {
    if ms == [] then []
    else
      var r := RangeAt(g, pools, possible, ms[|ms| - 1]);
      AllRanges(g, pools, possible, ms[..|ms| - 1]) + (if r.Some? then [r.value] else [])
  }

  /** The ranges are those of the points that have one. */
  lemma {:induction false} RangesAreAll(g: Grid, pools: map<real, Pool>, possible: int, ms: seq<Moment>, r: Range)
    ensures r in AllRanges(g, pools, possible, ms) <==> exists m :: m in ms && RangeAt(g, pools, possible, m) == Some(r)
  {
    if ms != [] {
      var front, last := ms[..|ms| - 1], ms[|ms| - 1];
      assert ms == front + [last];
      RangesAreAll(g, pools, possible, front, r);
    }
  }

  predicate Earlier(a: Range, b: Range) {
    a.elapsed < b.elapsed
  }

  method ObservedRange(g: Grid, pools: map<real, Pool>, possible: int, timeline: seq<Moment>)
    returns (records: seq<Range>)
    ensures multiset(records) == multiset(AllRanges(g, pools, possible, timeline))
    ensures forall i, j :: 0 <= i < j < |records| ==> records[i].elapsed <= records[j].elapsed
  {
    records := [];
    for i := 0 to |timeline|
      invariant records == AllRanges(g, pools, possible, timeline[..i])
    {
      assert timeline[..i + 1][..i] == timeline[..i];
      var r := RangeAt(g, pools, possible, timeline[i]);
      if r.Some? {
        records := records + [r.value];
      }
    }
    assert timeline[..|timeline|] == timeline;
    assert StrictWeak(Earlier);
    SortOrdered(records, Earlier);
    records := Sort(records, Earlier);
    forall i, j | 0 <= i < j < |records|
      ensures records[i].elapsed <= records[j].elapsed
    {
      assert !Earlier(records[j], records[i]);
    }
  }

  lemma MeanOrder(a: real, b: real, n: nat)
    requires n > 0
    ensures a <= b <==> a / n as real <= b / n as real
    ensures a == b <==> a / n as real == b / n as real
  {
    var k := n as real;
    assert a == a / k * k && b == b / k * k;
  }

  /** When the values a point averages are among the probes of its window, each used no
      more often than it was measured, the mean lies between the two edges. */
  lemma CurveStaysInRange(g: Grid, rows: seq<Probe>, pools: map<real, Pool>, possible: int, m: Moment, v: seq<real>)
    requires v != [] && |v| == m.consumers
    requires var b := WindowOf(g, m.elapsed); b in pools && PoolOk(g, rows, b, pools[b]) && Fits(v, TimesIn(g, rows, b))
    ensures RangeAt(g, pools, possible, m).Some?
    ensures var r := RangeAt(g, pools, possible, m).value; r.used == |v| && r.floor <= Mean(v) <= r.ceiling
  {
    var b := WindowOf(g, m.elapsed);
    var t := pools[b].values;
    ChoiceIsBetween(TimesIn(g, rows, b), t, v);
    MeanOrder(Sum(t[..|v|]), Sum(v), |v|);
    MeanOrder(Sum(v), Sum(t[|t| - |v|..]), |v|);
  }

  /** A point has a range exactly when its window was probed and it averages somebody, and
      the edges are the least and the greatest mean of that many probes of the window. */
  lemma RangeIsTight(g: Grid, rows: seq<Probe>, pools: map<real, Pool>, possible: int, m: Moment)
    requires var b := WindowOf(g, m.elapsed); b in pools ==> PoolOk(g, rows, b, pools[b])
    ensures var b, r := WindowOf(g, m.elapsed), RangeAt(g, pools, possible, m);
      && (r.Some? <==> b in pools && TimesIn(g, rows, b) != [] && m.consumers > 0)
      && (r.Some? ==> IsEdge(r.value, TimesIn(g, rows, b), m))
  {
    var b := WindowOf(g, m.elapsed);
    if b in pools {
      var slots, t := TimesIn(g, rows, b), pools[b].values;
      assert |t| == |multiset(t)| && |slots| == |multiset(slots)|;
      var take := Take(m.consumers, |t|);
      if take > 0 {
        EndsAreEdges(slots, t, take);
      }
    }
  }

  /** The least mean of `x` of the times. */
  ghost predicate IsLeastMean(m: real, times: seq<real>, x: nat)
    requires x > 0
  {
    exists sum :: IsLeastSum(sum, times, x) && m == sum / x as real
  }

  ghost predicate IsGreatestMean(m: real, times: seq<real>, x: nat)
    requires x > 0
  {
    exists sum :: IsGreatestSum(sum, times, x) && m == sum / x as real
  }

  lemma EndsAreEdges(slots: seq<real>, t: seq<real>, take: nat)
    requires Ascending(t) && multiset(t) == multiset(slots) && 0 < take <= |t|
    ensures IsLeastMean(Mean(t[..take]), slots, take)
    ensures IsGreatestMean(Mean(t[|t| - take..]), slots, take)
  {
    LowEndIsLeast(slots, t, take);
    HighEndIsGreatest(slots, t, take);
  }

  ghost predicate IsEdge(r: Range, times: seq<real>, m: Moment) {
    && r.elapsed == m.elapsed && 0 < r.used <= |times|
    && r.used == (if m.consumers < |times| then m.consumers else |times|)
    && IsLeastMean(r.floor, times, r.used) && IsGreatestMean(r.ceiling, times, r.used)
  }

  // ---------------------------------------------------------------------------
  // Occurring among the probes is not enough
  // ---------------------------------------------------------------------------

  ghost predicate OnlyMembers(v: seq<real>, t: seq<real>) {
    forall i :: 0 <= i < |v| ==> v[i] in t
  }

  /** `c`, added up `n` times. */
  function Times(n: nat, c: real): real {
    if n == 0 then 0.0 else Times(n - 1, c) + c
  }

  lemma OneMore(a: real, c: real)
    ensures (a + 1.0) * c == a * c + c
  {
  }

  lemma {:induction false} TimesIsProduct(n: nat, c: real)
    ensures Times(n, c) == n as real * c
  {
    if n > 0 {
      TimesIsProduct(n - 1, c);
      OneMore((n - 1) as real, c);
    }
  }

  lemma {:induction false} SumAtLeast(v: seq<real>, c: real)
    requires forall i :: 0 <= i < |v| ==> v[i] >= c
    ensures Sum(v) >= Times(|v|, c)
    ensures Sum(v) == Times(|v|, c) <==> forall i :: 0 <= i < |v| ==> v[i] == c
  {
    if v != [] {
      SumAtLeast(v[..|v| - 1], c);
    }
  }

  lemma {:induction false} SumAtMost(v: seq<real>, c: real)
    requires forall i :: 0 <= i < |v| ==> v[i] <= c
    ensures Sum(v) <= Times(|v|, c)
    ensures Sum(v) == Times(|v|, c) <==> forall i :: 0 <= i < |v| ==> v[i] == c
  {
    if v != [] {
      SumAtMost(v[..|v| - 1], c);
    }
  }

  lemma MeanIs(n: nat, c: real)
    requires n > 0
    ensures Times(n, c) / n as real == c
  {
    TimesIsProduct(n, c);
  }

  lemma MeanAtLeast(v: seq<real>, c: real)
    requires v != [] && forall i :: 0 <= i < |v| ==> v[i] >= c
    ensures Mean(v) >= c
    ensures Mean(v) == c <==> forall i :: 0 <= i < |v| ==> v[i] == c
  {
    SumAtLeast(v, c);
    MeanOrder(Times(|v|, c), Sum(v), |v|);
    MeanIs(|v|, c);
  }

  lemma MeanAtMost(v: seq<real>, c: real)
    requires v != [] && forall i :: 0 <= i < |v| ==> v[i] <= c
    ensures Mean(v) <= c
    ensures Mean(v) == c <==> forall i :: 0 <= i < |v| ==> v[i] == c
  {
    SumAtMost(v, c);
    MeanOrder(Sum(v), Times(|v|, c), |v|);
    MeanIs(|v|, c);
  }

  /** Every curve value occurs among the probes; the mean stays in the range. */
  ghost predicate InRangeFor(t: seq<real>, x: nat, v: seq<real>)
    requires t != [] && x > 0
  {
    var take := Take(x, |t|);
    |v| == x && OnlyMembers(v, t) ==> Mean(t[..take]) <= Mean(v) <= Mean(t[|t| - take..])
  }

  /** The `x` fastest are equally fast, and so are the `x` slowest. */
  predicate FlatEnds(t: seq<real>, x: nat)
    requires t != [] && x > 0
  {
    var take := Take(x, |t|);
    t[0] == t[take - 1] && t[|t| - take] == t[|t| - 1]
  }

  lemma FlatEndsMeans(t: seq<real>, x: nat)
    requires Ascending(t) && t != [] && x > 0
    ensures var take := Take(x, |t|); Mean(t[..take]) >= t[0] && Mean(t[|t| - take..]) <= t[|t| - 1]
    ensures var take := Take(x, |t|);
      FlatEnds(t, x) <==> Mean(t[..take]) == t[0] && Mean(t[|t| - take..]) == t[|t| - 1]
  {
    var take := Take(x, |t|);
    var low, high := t[..take], t[|t| - take..];
    MeanAtLeast(low, t[0]);
    MeanAtMost(high, t[|t| - 1]);
    assert low[take - 1] == t[take - 1] && high[0] == t[|t| - take];
  }

  /** Membership alone keeps every curve inside exactly when the range is that wide
      already: the slowest of the `x` fastest is as fast as the fastest of all. */
  lemma MembershipSufficesExactlyWhen(t: seq<real>, x: nat)
    requires Ascending(t) && t != [] && x > 0
    ensures (forall v :: InRangeFor(t, x, v)) <==> FlatEnds(t, x)
  {
    FlatEndsMeans(t, x);
    if FlatEnds(t, x) {
      forall v
        ensures InRangeFor(t, x, v)
      {
        if |v| == x && OnlyMembers(v, t) {
          MeanAtLeast(v, t[0]);
          MeanAtMost(v, t[|t| - 1]);
        }
      }
    } else {
      var low, high := seq(x, i => t[0]), seq(x, i => t[|t| - 1]);
      assert OnlyMembers(low, t) && OnlyMembers(high, t);
      MeanAtLeast(low, t[0]);
      MeanAtMost(high, t[|t| - 1]);
      assert !InRangeFor(t, x, low) || !InRangeFor(t, x, high);
    }
  }
}
