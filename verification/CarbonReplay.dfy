/**
 Replaying the carbon intensities. Each assignment draws a share of green regions, a
 permutation that says which, and one jitter per region; a region whose update fails
 keeps its old value but uses up its draw all the same.
 */
module CarbonReplay {
  import opened Updates

  /** The generator's draws in each state: `Float64`, `Perm(n)`, and the states after. */
  datatype Gen = Gen(
    unit: int -> real,
    afterUnit: int -> int,
    perm: (int, nat) -> seq<nat>,
    afterPerm: (int, nat) -> int)

  ghost predicate IsPermutation(p: seq<nat>, n: nat) {
    && |p| == n
    && (forall i :: 0 <= i < n ==> p[i] < n)
    && (forall i, j :: 0 <= i < j < n ==> p[i] != p[j])
  }

  ghost predicate Fair(g: Gen) {
    && (forall s :: 0.0 <= g.unit(s) < 1.0)
    && (forall s: int, n: nat {:trigger g.perm(s, n)} :: IsPermutation(g.perm(s, n), n))
  }

  datatype Params = Params(greenMin: real, greenMax: real, low: int, high: int)

  function Round(x: real): int {
    if x >= 0.0 then (x + 0.5).Floor else -((0.5 - x).Floor)
  }

  /** Rounded to the share drawn, at least one and not all of the regions. */
  function GreenCount(p: Params, u: real, n: nat): int {
    Clamp(Round(Share(p, u, n)), n)
  }

  /** The drawn share of the regions. */
  function Share(p: Params, u: real, n: nat): real {
    (p.greenMin + u * (p.greenMax - p.greenMin)) * n as real
  }

  function Clamp(count: int, n: nat): int {
    var atLeast := if count < 1 then 1 else count;
    if atLeast > n - 1 then n - 1 else atLeast
  }

  /** Conversion to an integer, towards zero. */
  function Truncate(x: real): int {
    if x >= 0.0 then x.Floor else -((-x).Floor)
  }

  function Level(base: int, u: real): int {
    var v := Truncate(base as real * (0.7 + u * 0.6));
    if v > 1 then v else 1
  }

  function AfterUnits(g: Gen, s: int, k: nat): int {
    if k == 0 then s else g.afterUnit(AfterUnits(g, s, k - 1))
  }

  function Green(g: Gen, p: Params, s: int, n: nat): set<nat>
    requires Fair(g)
  {
    var order, count := g.perm(g.afterUnit(s), n), GreenCount(p, g.unit(s), n);
    FirstOf(order, count)
  }

  /** The first `count` regions of the permutation. */
  function FirstOf(order: seq<nat>, count: int): set<nat> {
    set i | 0 <= i < count && i < |order| :: order[i]
  }

  function Jittered(g: Gen, s: int, n: nat): int {
    g.afterPerm(g.afterUnit(s), n)
  }

  /** What an assignment started in state `s` gives region `i` of `n`. */
  function CarbonAt(g: Gen, p: Params, s: int, n: nat, i: nat): int
    requires Fair(g)
  {
    Level(if i in Green(g, p, s, n) then p.low else p.high, g.unit(AfterUnits(g, Jittered(g, s, n), i)))
  }

  function AfterAssign(g: Gen, s: int, n: nat): int {
    if n == 0 then s else AfterUnits(g, Jittered(g, s, n), n)
  }

  // ---------------------------------------------------------------------------
  // How many regions turn green
  // ---------------------------------------------------------------------------

  lemma PrefixStep(order: seq<nat>, n: nat, k: nat)
    requires IsPermutation(order, n) && k < n
    ensures FirstOf(order, k + 1) == FirstOf(order, k) + {order[k]}
    ensures order[k] !in FirstOf(order, k)
  {
  }

  lemma {:induction false} PrefixSize(order: seq<nat>, n: nat, count: nat)
    requires IsPermutation(order, n) && count <= n
    ensures |FirstOf(order, count)| == count
  {
    if count > 0 {
      PrefixSize(order, n, count - 1);
      PrefixStep(order, n, count - 1);
    } else {
      assert FirstOf(order, 0) == {};
    }
  }

  /** Exactly the count drawn turns green, and with two regions or more both kinds exist. */
  lemma GreenShare(g: Gen, p: Params, s: int, n: nat)
    requires Fair(g) && n >= 1
    ensures |Green(g, p, s, n)| == GreenCount(p, g.unit(s), n)
    ensures n >= 2 ==> 1 <= GreenCount(p, g.unit(s), n) <= n - 1
    ensures n == 1 ==> Green(g, p, s, n) == {}
    ensures forall i :: i in Green(g, p, s, n) ==> i < n
  {
    var next: int := g.afterUnit(s);
    var order := g.perm(next, n);
    assert Fair(g) && IsPermutation(g.perm(next, n), n);
    PrefixSize(order, n, GreenCount(p, g.unit(s), n));
  }

  lemma RoundIsNearest(x: real)
    ensures x - 0.5 <= Round(x) as real <= x + 0.5
  {
  }

  /** The count is the share rounded to the nearest, one if that is none and all but one if
      that is all. */
  predicate NearShare(share: real, count: int, n: nat) {
    && (n < 2 ==> count == n - 1)
    && (n >= 2 && share < 0.5 ==> count == 1)
    && (n >= 2 && share > n as real - 0.5 ==> count == n - 1)
    && (n >= 2 && 0.5 <= share <= n as real - 0.5 ==> share - 0.5 <= count as real <= share + 0.5)
  }

  lemma CountIsTheShare(p: Params, u: real, n: nat)
    ensures NearShare(Share(p, u, n), GreenCount(p, u, n), n)
  {
    ClampIsNear(Share(p, u, n), n);
  }

  lemma ClampIsNear(share: real, n: nat)
    ensures NearShare(share, Clamp(Round(share), n), n)
  {
    RoundIsNearest(share);
  }

  /** The value varies by at most three tenths around the base, cut to a whole number, and is
      at least one. */
  predicate Around(base: int, v: int) {
    v >= 1 && base as real * 0.7 - 1.0 < v as real && (v > 1 ==> v as real <= base as real * 1.3)
  }

  lemma Jitter(base: real, u: real)
    requires base >= 0.0 && 0.0 <= u < 1.0
    ensures base * 0.7 <= base * (0.7 + u * 0.6) <= base * 1.3
  {
    var a := base * u;
    assert 0.0 <= a by {
      assert base * u >= 0.0;
    }
    assert a <= base by {
      assert base * (1.0 - u) >= 0.0;
    }
    assert base * (0.7 + u * 0.6) == base * 0.7 + a * 0.6;
  }

  lemma LevelIsAround(base: int, u: real)
    requires base >= 0 && 0.0 <= u < 1.0
    ensures Around(base, Level(base, u))
  {
    Jitter(base as real, u);
  }

  /** Green regions get values around the low level and the others around the high one, so
      with the levels far enough apart every green region is the cleaner of two. */
  lemma ColourDecides(g: Gen, p: Params, s: int, n: nat, i: nat)
    requires Fair(g) && i < n && p.low >= 0 && p.high >= 0
    ensures Around(if i in Green(g, p, s, n) then p.low else p.high, CarbonAt(g, p, s, n, i))
  {
    var u := g.unit(AfterUnits(g, Jittered(g, s, n), i));
    assert 0.0 <= u < 1.0;
    LevelIsAround(if i in Green(g, p, s, n) then p.low else p.high, u);
  }

  lemma GreenIsCleaner(g: Gen, p: Params, s: int, n: nat, i: nat, j: nat)
    requires Fair(g) && i < n && j < n && p.low >= 0 && p.high as real * 0.7 >= p.low as real * 1.3 + 2.0
    requires i in Green(g, p, s, n) && j !in Green(g, p, s, n)
    ensures CarbonAt(g, p, s, n, i) < CarbonAt(g, p, s, n, j)
  {
    ColourDecides(g, p, s, n, i);
    ColourDecides(g, p, s, n, j);
  }

  // ---------------------------------------------------------------------------
  // Assigning
  // ---------------------------------------------------------------------------

  class Rng {
    const gen: Gen
    var state: int

    constructor (gen: Gen, seed: int)
      ensures this.gen == gen && state == seed
    {
      this.gen, state := gen, seed;
    }

    method Float64() returns (u: real)
      modifies this
      ensures u == gen.unit(old(state)) && state == gen.afterUnit(old(state))
    {
      u, state := gen.unit(state), gen.afterUnit(state);
    }

    method Perm(n: nat) returns (order: seq<nat>)
      modifies this
      ensures order == gen.perm(old(state), n) && state == gen.afterPerm(old(state), n)
    {
      order, state := gen.perm(state, n), gen.afterPerm(state, n);
    }
  }

  function Drawn(g: Gen, p: Params, s: int, n: nat): (values: seq<int>)
    requires Fair(g)
    ensures |values| == n && forall i :: 0 <= i < n ==> values[i] == CarbonAt(g, p, s, n, i)
  {
    seq(n, i requires 0 <= i < n => CarbonAt(g, p, s, n, i))
  }

  method GreenSet(order: seq<nat>, count: int) returns (green: set<nat>)
    requires count <= |order|
    ensures green == FirstOf(order, count)
  {
    green := {};
    var i := 0;
    while i < count
      invariant i == 0 || 0 < i <= count
      invariant green == FirstOf(order, i)
    {
      green := green + {order[i]};
      i := i + 1;
    }
  }

  /** What the regions hold after the first `k` updates. */
  function Given(eco: map<string, int>, regions: seq<string>, update: nat -> Update, values: seq<int>,
                 k: nat): map<string, int>
    requires k <= |regions| && k <= |values|
  {
    if k == 0 then eco
    else
      var before := Given(eco, regions, update, values, k - 1);
      if update(k - 1) == Applied then before[regions[k - 1] := values[k - 1]] else before
  }

  ghost predicate Distinct(regions: seq<string>) {
    forall i, j :: 0 <= i < j < |regions| ==> regions[i] != regions[j]
  }

  /** A region whose update was applied holds its value; any other holds what it held. */
  lemma {:induction false} GivenAt(eco: map<string, int>, regions: seq<string>, update: nat -> Update, values: seq<int>,
                                   k: nat, i: nat)
    requires Distinct(regions) && k <= |regions| && k <= |values| && i < |regions|
    ensures var now := Given(eco, regions, update, values, k);
      if i < k && update(i) == Applied then regions[i] in now && now[regions[i]] == values[i]
      else (regions[i] in now <==> regions[i] in eco) && (regions[i] in now ==> now[regions[i]] == eco[regions[i]])
  {
    if k > 0 {
      GivenAt(eco, regions, update, values, k - 1, i);
    }
  }

  /** The draws do not depend on how the updates end, and without a cancellation all of
      them are made. */
  method AssignCarbon(rng: Rng, p: Params, regions: seq<string>, update: nat -> Update, eco: map<string, int>)
    returns (now: map<string, int>, drawn: seq<int>, cut: bool)
    requires Fair(rng.gen)
    modifies rng
    ensures drawn <= Drawn(rng.gen, p, old(rng.state), |regions|)
    ensures Tried(update, |regions|, |drawn|, cut)
    ensures now == Given(eco, regions, update, Drawn(rng.gen, p, old(rng.state), |regions|), |drawn|)
    ensures !cut ==> rng.state == AfterAssign(rng.gen, old(rng.state), |regions|)
  {
    var n := |regions|;
    now, drawn, cut := eco, [], false;
    if n == 0 {
      return;
    }
    ghost var s, all := rng.state, Drawn(rng.gen, p, rng.state, n);
    var green := DrawGreen(rng, p, n);
    while |drawn| < n && !cut
      invariant |drawn| <= n && drawn <= all
      invariant rng.state == AfterUnits(rng.gen, Jittered(rng.gen, s, n), |drawn|)
      invariant forall k: nat :: k < |drawn| && update(k) == Cancelled ==> cut && k == |drawn| - 1
      invariant cut ==> |drawn| > 0 && update(|drawn| - 1) == Cancelled
      invariant now == Given(eco, regions, update, all, |drawn|)
    {
      var i := |drawn|;
      var carbon := DrawCarbon(rng, p, green, s, n, i);
      drawn := drawn + [carbon];
      if update(i) == Applied {
        now := now[regions[i] := carbon];
      }
      cut := update(i) == Cancelled;
    }
  }

  method DrawCarbon(rng: Rng, p: Params, green: set<nat>, ghost s: int, ghost n: nat, i: nat) returns (carbon: int)
    requires Fair(rng.gen) && i < n && green == Green(rng.gen, p, s, n)
    requires rng.state == AfterUnits(rng.gen, Jittered(rng.gen, s, n), i)
    modifies rng
    ensures carbon == Drawn(rng.gen, p, s, n)[i]
    ensures rng.state == AfterUnits(rng.gen, Jittered(rng.gen, s, n), i + 1)
  {
    var jitter := rng.Float64();
    carbon := Level(if i in green then p.low else p.high, jitter);
  }

  /** The share and the permutation, and with them the regions that turn green. */
  method DrawGreen(rng: Rng, p: Params, n: nat) returns (green: set<nat>)
    requires Fair(rng.gen) && n > 0
    modifies rng
    ensures green == Green(rng.gen, p, old(rng.state), n)
    ensures rng.state == Jittered(rng.gen, old(rng.state), n)
  {
    var u := rng.Float64();
    var count := GreenCount(p, u, n);
    var order := rng.Perm(n);
    assert IsPermutation(order, n);
    green := GreenSet(order, count);
  }

  function StateAt(g: Gen, seed: int, n: nat, t: nat): int {
    if t == 0 then seed else AfterAssign(g, StateAt(g, seed, n, t - 1), n)
  }

  /** Assignment `t` of a phase: all of it, unless an update is cancelled. */
  method AssignOnce(rng: Rng, p: Params, regions: seq<string>, t: nat, update: (nat, nat) -> Update,
                    eco: map<string, int>)
    returns (now: map<string, int>, drawn: seq<int>, cut: bool)
    requires Fair(rng.gen)
    modifies rng
    ensures cut <==> !Runs(update, t, |regions|)
    ensures !cut ==> drawn == Drawn(rng.gen, p, old(rng.state), |regions|)
    ensures !cut ==> rng.state == AfterAssign(rng.gen, old(rng.state), |regions|)
  {
    var row := (i: nat) => update(t, i);
    now, drawn, cut := AssignCarbon(rng, p, regions, row, eco);
    assert forall i: nat :: i < |drawn| ==> update(t, i) == row(i);
  }

  /** The refresh of one phase: one assignment at once and one per tick, until one of them
      is cut short. The history holds those that were not. */
  method RefreshCarbon(g: Gen, seed: int, p: Params, regions: seq<string>, ticks: nat,
                       update: (nat, nat) -> Update, eco: map<string, int>)
    returns (now: map<string, int>, history: seq<seq<int>>)
    requires Fair(g)
    ensures IsReplay(g, seed, p, |regions|, history)
    ensures |history| <= ticks + 1 && forall t: nat :: t < |history| ==> Runs(update, t, |regions|)
    ensures |history| <= ticks ==> !Runs(update, |history|, |regions|)
  {
    var rng := new Rng(g, seed);
    history, now := [], eco;
    for t: nat := 0 to ticks + 1
      invariant fresh(rng) && rng.gen == g && rng.state == StateAt(g, seed, |regions|, t)
      invariant |history| == t && IsReplay(g, seed, p, |regions|, history)
      invariant forall k: nat :: k < t ==> Runs(update, k, |regions|)
    {
      var drawn, cut;
      now, drawn, cut := AssignOnce(rng, p, regions, t, update, now);
      if cut {
        return;
      }
      ReplayGrows(g, seed, p, |regions|, history, drawn);
      history := history + [drawn];
    }
  }

  lemma ReplayGrows(g: Gen, seed: int, p: Params, n: nat, history: seq<seq<int>>, drawn: seq<int>)
    requires Fair(g) && IsReplay(g, seed, p, n, history)
    requires drawn == Drawn(g, p, StateAt(g, seed, n, |history|), n)
    ensures IsReplay(g, seed, p, n, history + [drawn])
  {
    forall t | 0 <= t < |history + [drawn]|
      ensures (history + [drawn])[t] == Drawn(g, p, StateAt(g, seed, n, t), n)
    {
      assert t < |history| ==> (history + [drawn])[t] == history[t];
    }
  }

  ghost predicate IsReplay(g: Gen, seed: int, p: Params, n: nat, history: seq<seq<int>>)
    requires Fair(g)
  {
    forall t :: 0 <= t < |history| ==> history[t] == Drawn(g, p, StateAt(g, seed, n, t), n)
  }

  /** Both phases of a run, on the regions of the configuration: the same values at every
      assignment both complete, whatever updates failed or were cancelled in either. */
  method BothPhases(g: Gen, seed: int, p: Params, configured: seq<string>, ticksA: nat, ticksB: nat,
                    updateA: (nat, nat) -> Update, updateB: (nat, nat) -> Update, eco: map<string, int>)
    returns (historyA: seq<seq<int>>, historyB: seq<seq<int>>, ghost n: nat)
    requires Fair(g)
    ensures n == |set r | r in configured && r != ""|
    ensures IsReplay(g, seed, p, n, historyA) && IsReplay(g, seed, p, n, historyB)
    ensures forall t :: 0 <= t < |historyA| && t < |historyB| ==> historyA[t] == historyB[t]
    ensures |historyA| == ticksA + 1 <==> forall t: nat :: t <= ticksA ==> Runs(updateA, t, n)
    ensures |historyB| == ticksB + 1 <==> forall t: nat :: t <= ticksB ==> Runs(updateB, t, n)
  {
    var regions := UniqueRegions(configured);
    n := |regions|;
    DistinctSize(regions);
    assert (set r | r in regions) == set r | r in configured && r != "";
    var after;
    after, historyA := RefreshCarbon(g, seed, p, regions, ticksA, updateA, eco);
    after, historyB := RefreshCarbon(g, seed, p, regions, ticksB, updateB, after);
  }

  lemma {:induction false} DistinctSize(s: seq<string>)
    requires Distinct(s)
    ensures |set r | r in s| == |s|
  {
    if s != [] {
      var front, last := s[..|s| - 1], s[|s| - 1];
      DistinctSize(front);
      assert s == front + [last] && last !in front;
      assert (set r | r in s) == (set r | r in front) + {last};
    }
  }

  /** `a` appears in `s` before `b` does. */
  ghost predicate SeenBefore(s: seq<string>, a: string, b: string) {
    exists k :: 0 <= k < |s| && s[k] == a && b !in s[..k + 1]
  }

  /** Regions come in the order of their first appearance: the draws go by position. */
  ghost predicate FirstSeenOrder(unique: seq<string>, regions: seq<string>) {
    forall i, j :: 0 <= i < j < |unique| ==> SeenBefore(regions, unique[i], unique[j])
  }

  lemma OrderExtends(unique: seq<string>, seen: seq<string>, r: string)
    requires FirstSeenOrder(unique, seen)
    ensures FirstSeenOrder(unique, seen + [r])
  {
    forall i, j | 0 <= i < j < |unique|
      ensures SeenBefore(seen + [r], unique[i], unique[j])
    {
      var k :| 0 <= k < |seen| && seen[k] == unique[i] && unique[j] !in seen[..k + 1];
      assert (seen + [r])[..k + 1] == seen[..k + 1];
    }
  }

  lemma OrderGrows(unique: seq<string>, seen: seq<string>, r: string)
    requires FirstSeenOrder(unique, seen + [r]) && r !in seen && forall u :: u in unique ==> u in seen
    ensures FirstSeenOrder(unique + [r], seen + [r])
  {
    forall i | 0 <= i < |unique|
      ensures SeenBefore(seen + [r], unique[i], r)
    {
      assert unique[i] in seen;
      var k :| 0 <= k < |seen| && seen[k] == unique[i];
      assert (seen + [r])[..k + 1] == seen[..k + 1];
    }
  }

  method UniqueRegions(regions: seq<string>) returns (unique: seq<string>)
    ensures Distinct(unique)
    ensures forall r :: r in unique <==> r in regions && r != ""
    ensures FirstSeenOrder(unique, regions)
  {
    unique := [];
    for i := 0 to |regions|
      invariant Distinct(unique)
      invariant forall r :: r in unique <==> r in regions[..i] && r != ""
      invariant FirstSeenOrder(unique, regions[..i])
    {
      assert regions[..i + 1] == regions[..i] + [regions[i]];
      OrderExtends(unique, regions[..i], regions[i]);
      if regions[i] != "" && regions[i] !in unique {
        OrderGrows(unique, regions[..i], regions[i]);
        unique := unique + [regions[i]];
      }
    }
    assert regions[..|regions|] == regions;
  }
}
