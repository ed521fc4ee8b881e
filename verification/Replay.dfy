/**
 Replaying the simulated delays. Phase B is handed a generator with phase A's seed and is
 reset to the delays phase A began with; it must then draw what phase A drew, whatever
 updates failed in either phase, and the saved delays must not have moved meanwhile.
 */
module Replay {
  import opened Updates

  /** One simulated one-way delay, towards one provider. */
  datatype Entry = Entry(ip: string, text: string, ms: int)

  /** A pseudo-random generator: what `Intn(n)` returns in a state, and the next state. */
  datatype Gen = Gen(intn: (int, nat) -> nat, after: (int, nat) -> int)

  /** The bounds delays are drawn from. */
  datatype Bounds = Bounds(min: int, max: int)

  function Draw(g: Gen, b: Bounds, s: int): int {
    if b.max <= b.min then b.min else b.min + g.intn(s, b.max - b.min + 1)
  }

  function After(g: Gen, b: Bounds, s: int): int {
    if b.max <= b.min then s else g.after(s, b.max - b.min + 1)
  }

  /** `Intn(n)` stays below n. */
  ghost predicate Fair(g: Gen) {
    forall s, n: nat :: n > 0 ==> g.intn(s, n) < n
  }

  /** The delays that can be drawn are those from the lower to the upper bound, both
      included, and no others. */
  lemma DelaysAreTheBounds(b: Bounds, s: int, ms: int)
    requires b.min <= b.max
    ensures b.min <= ms <= b.max <==> exists g: Gen :: Fair(g) && Draw(g, b, s) == ms
  {
    if b.min <= ms <= b.max {
      var g := Gen((_, n: nat) => if ms - b.min < n then ms - b.min else 0, (s, _) => s);
      assert Fair(g) && Draw(g, b, s) == ms;
    }
    forall g: Gen | Fair(g)
      ensures b.min <= Draw(g, b, s) <= b.max
    {
      DrawIsInBounds(g, b, s);
    }
  }

  lemma DrawIsInBounds(g: Gen, b: Bounds, s: int)
    requires Fair(g) && b.min <= b.max
    ensures b.min <= Draw(g, b, s) <= b.max
  {
    if b.min < b.max {
      assert g.intn(s, b.max - b.min + 1) < b.max - b.min + 1;
    }
  }

  /** The state after `n` draws, and the delays drawn on the way. */
  function AfterMany(g: Gen, b: Bounds, s: int, n: nat): int {
    if n == 0 then s else After(g, b, AfterMany(g, b, s, n - 1))
  }

  function DrawAt(g: Gen, b: Bounds, s: int, k: nat): int {
    Draw(g, b, AfterMany(g, b, s, k))
  }

  /** All the draws of one seeded generator, and the states they are made in. */
  datatype Draws = Draws(state: nat -> int, delay: nat -> int)

  function DrawsOf(g: Gen, b: Bounds, seed: int): Draws {
    Draws((k: nat) => AfterMany(g, b, seed, k), (k: nat) => DrawAt(g, b, seed, k))
  }

  predicate DrawnAt(g: Gen, b: Bounds, d: Draws, k: nat) {
    d.delay(k) == Draw(g, b, d.state(k)) && d.state(k + 1) == After(g, b, d.state(k))
  }

  ghost predicate DrawnBy(g: Gen, b: Bounds, d: Draws) {
    forall k: nat :: DrawnAt(g, b, d, k)
  }

  lemma DrawsAreDrawn(g: Gen, b: Bounds, seed: int)
    ensures DrawnBy(g, b, DrawsOf(g, b, seed)) && DrawsOf(g, b, seed).state(0) == seed
  {
    forall k: nat
      ensures DrawnAt(g, b, DrawsOf(g, b, seed), k)
    {
      assert AfterMany(g, b, seed, k + 1) == After(g, b, AfterMany(g, b, seed, k));
    }
  }

  // ---------------------------------------------------------------------------
  // What is changed in place
  // ---------------------------------------------------------------------------

  class Rng {
    const gen: Gen
    var state: int

    constructor (gen: Gen, seed: int)
      ensures this.gen == gen && state == seed
    {
      this.gen, state := gen, seed;
    }

    method RandomDelayMs(b: Bounds) returns (ms: int)
      modifies this
      ensures ms == Draw(gen, b, old(state)) && state == After(gen, b, old(state))
    {
      if b.max <= b.min {
        return b.min;
      }
      ms := b.min + gen.intn(state, b.max - b.min + 1);
      state := gen.after(state, b.max - b.min + 1);
    }
  }

  /** The entries with the delays replaced, as far as new ones are given. */
  function Redelayed(was: seq<Entry>, now: seq<Entry>): (r: seq<Entry>)
    ensures |r| == |was|
    ensures forall i :: 0 <= i < |was| ==> r[i] == if i < |now| then was[i].(ms := now[i].ms) else was[i]
  {
    seq(|was|, i requires 0 <= i < |was| => if i < |now| then was[i].(ms := now[i].ms) else was[i])
  }

  class TCConsumerDelay {
    const delays: array<Entry>

    constructor (delays: array<Entry>)
      ensures this.delays == delays
    {
      this.delays := delays;
    }

    /** `applied` says whether the batch of commands succeeded. */
    method UpdateDelays(newDelays: array<Entry>, applied: bool)
      modifies delays
      ensures delays[..] == if applied then Redelayed(old(delays[..]), old(newDelays[..])) else old(delays[..])
    {
      if !applied {
        return;
      }
      var n := if newDelays.Length < delays.Length then newDelays.Length else delays.Length;
      ghost var was, now := delays[..], newDelays[..];
      for i := 0 to n
        invariant forall k :: 0 <= k < i ==> delays[k] == was[k].(ms := now[k].ms)
        invariant forall k :: i <= k < delays.Length ==> delays[k] == was[k]
        invariant forall k :: i <= k < newDelays.Length ==> newDelays[k] == now[k]
      {
        delays[i] := delays[i].(ms := newDelays[i].ms);
      }
      assert delays[..] == Redelayed(was, now);
    }

    /** The copy that phase B is reset to. */
    method Save() returns (saved: array<Entry>)
      ensures fresh(saved) && saved[..] == delays[..]
    {
      saved := new Entry[delays.Length](i requires 0 <= i < delays.Length reads delays => delays[i]);
    }
  }

  // ---------------------------------------------------------------------------
  // One refresh
  // ---------------------------------------------------------------------------

  /** The entries with delays number `from`, `from + 1`, ... */
  function Redrawn(d: Draws, from: nat, was: seq<Entry>): (r: seq<Entry>)
    ensures |r| == |was|
    ensures forall i {:trigger r[i]} :: 0 <= i < |was| ==> r[i] == was[i].(ms := d.delay(from + i))
  {
    seq(|was|, i requires 0 <= i < |was| => was[i].(ms := d.delay(from + i)))
  }

  /** Draws a delay for every entry of one consumer and tries to apply them. The draws
      are used up whether or not they could be applied. */
  method RefreshConsumer(rng: Rng, b: Bounds, tc: TCConsumerDelay, applied: bool, ghost d: Draws, ghost from: nat)
    returns (drawn: seq<Entry>)
    requires DrawnBy(rng.gen, b, d) && rng.state == d.state(from)
    modifies rng, tc.delays
    ensures rng.state == d.state(from + tc.delays.Length)
    ensures drawn == Redrawn(d, from, old(tc.delays[..]))
    ensures tc.delays[..] == if applied then drawn else old(tc.delays[..])
  {
    var n := tc.delays.Length;
    var newDelays := new Entry[n](_ => Entry("", "", 0));
    ghost var was := tc.delays[..];
    for i := 0 to n
      invariant rng.state == d.state(from + i)
      invariant tc.delays[..] == was
      invariant forall k :: 0 <= k < i ==> newDelays[k] == was[k].(ms := d.delay(from + k))
    {
      assert DrawnAt(rng.gen, b, d, from + i);
      var ms := rng.RandomDelayMs(b);
      newDelays[i] := tc.delays[i].(ms := ms);
    }
    assert newDelays[..] == Redrawn(d, from, was);
    drawn := newDelays[..];
    tc.UpdateDelays(newDelays, applied);
    assert applied ==> tc.delays[..] == drawn;
  }

  // ---------------------------------------------------------------------------
  // A whole tick
  // ---------------------------------------------------------------------------

  type Matrix = seq<seq<Entry>>

  /** How many delays come before row `k`. */
  function Offset(m: Matrix, k: nat): nat
    requires k <= |m|
  {
    if k == 0 then 0 else Offset(m, k - 1) + |m[k - 1]|
  }

  /** The rows drawn by the tick that starts at draw `from`. */
  function TickRow(d: Draws, from: nat, base: Matrix, k: nat): seq<Entry>
    requires k < |base|
  {
    Redrawn(d, from + Offset(base, k), base[k])
  }

  function Tick(d: Draws, from: nat, base: Matrix): (m: Matrix)
    ensures |m| == |base|
    ensures forall k {:trigger m[k]} :: 0 <= k < |base| ==> m[k] == TickRow(d, from, base, k)
  {
    seq(|base|, k requires 0 <= k < |base| => TickRow(d, from, base, k))
  }

  predicate SameNames(a: seq<Entry>, b: seq<Entry>) {
    |a| == |b| && forall i :: 0 <= i < |a| ==> a[i].ip == b[i].ip && a[i].text == b[i].text
  }

  /** What a draw gives depends on the entries' names only, not on their delays. */
  lemma RedrawnForgetsDelays(d: Draws, from: nat, x: seq<Entry>, y: seq<Entry>)
    requires SameNames(x, y)
    ensures Redrawn(d, from, x) == Redrawn(d, from, y) && SameNames(Redrawn(d, from, x), y)
  {
  }

  ghost predicate Separate(tcs: seq<TCConsumerDelay>) {
    forall i, j :: 0 <= i < j < |tcs| ==> tcs[i].delays != tcs[j].delays
  }

  function Arrays(tcs: seq<TCConsumerDelay>): set<array<Entry>> {
    set tc | tc in tcs :: tc.delays
  }

  /** Every row has the names it had in `base`. */
  ghost predicate Shaped(tcs: seq<TCConsumerDelay>, base: Matrix)
    reads Arrays(tcs)
  {
    |base| == |tcs| && forall k {:trigger tcs[k]} :: 0 <= k < |tcs| ==> SameNames(tcs[k].delays[..], base[k])
  }

  ghost function Delays(tcs: seq<TCConsumerDelay>): Matrix
    reads Arrays(tcs)
  {
    seq(|tcs|, k requires 0 <= k < |tcs| reads Arrays(tcs) => tcs[k].delays[..])
  }

  /** The first `k` rows of a tick. */
  function TickRows(d: Draws, from: nat, base: Matrix, k: nat): (m: Matrix)
    requires k <= |base|
    ensures |m| == k
  {
    if k == 0 then [] else TickRows(d, from, base, k - 1) + [TickRow(d, from, base, k - 1)]
  }

  lemma {:induction false} RowsMakeTick(d: Draws, from: nat, base: Matrix, k: nat)
    requires k <= |base|
    ensures TickRows(d, from, base, k) == Tick(d, from, base)[..k]
  {
    if k > 0 {
      RowsMakeTick(d, from, base, k - 1);
    }
  }

  method RefreshRow(rng: Rng, b: Bounds, tc: TCConsumerDelay, applied: bool,
                    ghost d: Draws, ghost from: nat, ghost base: Matrix, ghost k: nat, ghost at: nat)
    returns (row: seq<Entry>)
    requires k < |base| && SameNames(tc.delays[..], base[k])
    requires DrawnBy(rng.gen, b, d) && at == from + Offset(base, k) && rng.state == d.state(at)
    modifies rng, tc.delays
    ensures rng.state == d.state(at + |base[k]|)
    ensures row == TickRow(d, from, base, k)
    ensures tc.delays[..] == (if applied then row else old(tc.delays[..])) && SameNames(tc.delays[..], base[k])
  {
    RedrawnForgetsDelays(d, at, tc.delays[..], base[k]);
    row := RefreshConsumer(rng, b, tc, applied, d, at);
  }

  /** One tick over all rows, or as far as it gets; a provider's own delay is a row with
      one entry. */
  method RefreshTick(rng: Rng, b: Bounds, tcs: seq<TCConsumerDelay>, update: nat -> Update,
                     ghost d: Draws, ghost from: nat, ghost base: Matrix) returns (drawn: Matrix, cut: bool)
    requires Separate(tcs) && Shaped(tcs, base)
    requires DrawnBy(rng.gen, b, d) && rng.state == d.state(from)
    modifies rng, Arrays(tcs)
    ensures Shaped(tcs, base)
    ensures Tried(update, |tcs|, |drawn|, cut)
    ensures drawn == Tick(d, from, base)[..|drawn|]
    ensures rng.state == d.state(from + Offset(base, |drawn|))
    ensures RowsAre(tcs, update, drawn, old(Delays(tcs)))
  {
    drawn, cut := [], false;
    ghost var was := Delays(tcs);
    while |drawn| < |tcs| && !cut
      invariant |drawn| <= |tcs| && Shaped(tcs, base)
      invariant forall j: nat :: j < |drawn| && update(j) == Cancelled ==> cut && j == |drawn| - 1
      invariant cut ==> |drawn| > 0 && update(|drawn| - 1) == Cancelled
      invariant rng.state == d.state(from + Offset(base, |drawn|))
      invariant drawn == TickRows(d, from, base, |drawn|)
      invariant RowsAre(tcs, update, drawn, was)
    {
      var k := |drawn|;
      drawn := RefreshNext(rng, b, tcs, update, drawn, d, from, base, was);
      cut := update(k) == Cancelled;
    }
    RowsMakeTick(d, from, base, |drawn|);
  }

  /** Of the rows drawn so far those whose update went through are in place, and every
      other row is as it was. */
  ghost predicate RowsAre(tcs: seq<TCConsumerDelay>, update: nat -> Update, drawn: Matrix, was: Matrix)
    reads Arrays(tcs)
  {
    && |was| == |tcs| && |drawn| <= |tcs|
    && forall k {:trigger tcs[k]} :: 0 <= k < |tcs| ==>
         tcs[k].delays[..] == if k < |drawn| && update(k) == Applied then drawn[k] else was[k]
  }

  method RefreshNext(rng: Rng, b: Bounds, tcs: seq<TCConsumerDelay>, update: nat -> Update, drawn: Matrix,
                     ghost d: Draws, ghost from: nat, ghost base: Matrix, ghost was: Matrix) returns (next: Matrix)
    requires Separate(tcs) && Shaped(tcs, base) && |drawn| < |tcs|
    requires DrawnBy(rng.gen, b, d) && rng.state == d.state(from + Offset(base, |drawn|))
    requires RowsAre(tcs, update, drawn, was)
    modifies rng, Arrays(tcs)
    ensures Shaped(tcs, base) && next == drawn + [TickRow(d, from, base, |drawn|)]
    ensures rng.state == d.state(from + Offset(base, |next|))
    ensures RowsAre(tcs, update, next, was)
  {
    var k := |drawn|;
    var row := RefreshRow(rng, b, tcs[k], update(k) == Applied, d, from, base, k, from + Offset(base, k));
    next := drawn + [row];
  }

  /** Where tick `t` starts in the sequence of draws. */
  function TickStart(base: Matrix, t: nat): nat {
    if t == 0 then 0 else TickStart(base, t - 1) + Offset(base, |base|)
  }

  ghost predicate IsReplay(d: Draws, base: Matrix, history: seq<Matrix>) {
    forall t {:trigger history[t]} :: 0 <= t < |history| ==> history[t] == Tick(d, TickStart(base, t), base)
  }

  lemma ReplayGrows(d: Draws, base: Matrix, history: seq<Matrix>, drawn: Matrix)
    requires IsReplay(d, base, history) && drawn == Tick(d, TickStart(base, |history|), base)
    ensures IsReplay(d, base, history + [drawn])
  {
  }

  /** Tick `t` of a phase: all of it, unless an update is cancelled. */
  method RefreshOnce(rng: Rng, b: Bounds, tcs: seq<TCConsumerDelay>, t: nat, update: (nat, nat) -> Update,
                     ghost d: Draws, ghost base: Matrix) returns (drawn: Matrix, cut: bool)
    requires Separate(tcs) && Shaped(tcs, base)
    requires DrawnBy(rng.gen, b, d) && rng.state == d.state(TickStart(base, t))
    modifies rng, Arrays(tcs)
    ensures Shaped(tcs, base) && (cut <==> !Runs(update, t, |tcs|))
    ensures !cut ==> rng.state == d.state(TickStart(base, t + 1)) && drawn == Tick(d, TickStart(base, t), base)
  {
    var row := (k: nat) => update(t, k);
    drawn, cut := RefreshTick(rng, b, tcs, row, d, TickStart(base, t), base);
    assert forall k: nat :: k < |drawn| ==> update(t, k) == row(k);
  }

  /** The refresh loop of one phase: `update(t, k)` says how tick t's update of row k ends.
      A cancelled one ends the loop; the history holds the ticks before. */
  method Refresh(rng: Rng, b: Bounds, tcs: seq<TCConsumerDelay>, ticks: nat, update: (nat, nat) -> Update,
                 ghost base: Matrix) returns (history: seq<Matrix>)
    requires Separate(tcs) && Shaped(tcs, base)
    modifies rng, Arrays(tcs)
    ensures Shaped(tcs, base)
    ensures IsReplay(DrawsOf(rng.gen, b, old(rng.state)), base, history)
    ensures |history| <= ticks && forall t: nat :: t < |history| ==> Runs(update, t, |tcs|)
    ensures |history| < ticks ==> !Runs(update, |history|, |tcs|)
  {
    history := [];
    ghost var d := DrawsOf(rng.gen, b, rng.state);
    DrawsAreDrawn(rng.gen, b, rng.state);
    for t: nat := 0 to ticks
      invariant Shaped(tcs, base)
      invariant rng.state == d.state(TickStart(base, t))
      invariant |history| == t && IsReplay(d, base, history)
      invariant forall k: nat :: k < t ==> Runs(update, k, |tcs|)
    {
      var drawn, cut := RefreshOnce(rng, b, tcs, t, update, d, base);
      if cut {
        return;
      }
      ReplayGrows(d, base, history, drawn);
      history := history + [drawn];
    }
  }

  /** Two runs with one seed draw the same at every tick both complete: nothing else
      enters, neither the delays they start from nor the updates that failed. */
  lemma SameSeedSameDraws(d: Draws, base: Matrix, base': Matrix, h: seq<Matrix>, h': seq<Matrix>)
    requires IsReplay(d, base, h) && IsReplay(d, base', h')
    requires |base| == |base'| && forall k :: 0 <= k < |base| ==> SameNames(base[k], base'[k])
    ensures forall t :: 0 <= t < |h| && t < |h'| ==> h[t] == h'[t]
  {
    forall t | 0 <= t < |h| && t < |h'|
      ensures h[t] == h'[t]
    {
      SameStart(base, base', t);
      forall k | 0 <= k < |base|
        ensures h[t][k] == h'[t][k]
      {
        SameOffset(base, base', k);
        RedrawnForgetsDelays(d, TickStart(base, t) + Offset(base, k), base[k], base'[k]);
      }
    }
  }

  lemma {:induction false} SameOffset(m: Matrix, m': Matrix, k: nat)
    requires |m| == |m'| && k <= |m| && forall j :: 0 <= j < |m| ==> |m[j]| == |m'[j]|
    ensures Offset(m, k) == Offset(m', k)
  {
    if k > 0 {
      SameOffset(m, m', k - 1);
    }
  }

  lemma {:induction false} SameStart(m: Matrix, m': Matrix, t: nat)
    requires |m| == |m'| && forall j :: 0 <= j < |m| ==> |m[j]| == |m'[j]|
    ensures TickStart(m, t) == TickStart(m', t)
  {
    SameOffset(m, m', |m|);
    if t > 0 {
      SameStart(m, m', t - 1);
    }
  }

  // ---------------------------------------------------------------------------
  // Both phases
  // ---------------------------------------------------------------------------

  method SaveAll(tcs: seq<TCConsumerDelay>) returns (saved: seq<array<Entry>>)
    ensures |saved| == |tcs|
    ensures forall k :: 0 <= k < |tcs| ==> fresh(saved[k]) && saved[k][..] == tcs[k].delays[..]
  {
    saved := [];
    for k := 0 to |tcs|
      invariant |saved| == k
      invariant forall j :: 0 <= j < k ==> fresh(saved[j]) && saved[j][..] == tcs[j].delays[..]
    {
      var copy := tcs[k].Save();
      saved := saved + [copy];
    }
  }

  /** Puts every row back to a saved one with the same names. */
  method ResetAll(tcs: seq<TCConsumerDelay>, saved: seq<array<Entry>>)
    requires Separate(tcs) && |saved| == |tcs|
    requires forall k :: 0 <= k < |tcs| ==> SameNames(tcs[k].delays[..], saved[k][..]) && saved[k] !in Arrays(tcs)
    modifies Arrays(tcs)
    ensures forall k :: 0 <= k < |tcs| ==> tcs[k].delays[..] == saved[k][..] == old(saved[k][..])
  {
    for k := 0 to |tcs|
      invariant forall j :: 0 <= j < |tcs| ==> saved[j][..] == old(saved[j][..])
      invariant forall j :: 0 <= j < k ==> tcs[j].delays[..] == saved[j][..]
      invariant forall j :: k <= j < |tcs| ==> tcs[j].delays[..] == old(tcs[j].delays[..])
    {
      assert SameNames(tcs[k].delays[..], saved[k][..]);
      tcs[k].UpdateDelays(saved[k], true);
    }
  }

  /** The refresh of one phase, on a generator of its own. */
  method RefreshSeeded(g: Gen, seed: int, b: Bounds, tcs: seq<TCConsumerDelay>, ticks: nat,
                       update: (nat, nat) -> Update, ghost base: Matrix) returns (history: seq<Matrix>)
    requires Separate(tcs) && Shaped(tcs, base)
    modifies Arrays(tcs)
    ensures Shaped(tcs, base) && IsReplay(DrawsOf(g, b, seed), base, history)
    ensures |history| == ticks <==> forall t: nat :: t < ticks ==> Runs(update, t, |tcs|)
  {
    var rng := new Rng(g, seed);
    history := Refresh(rng, b, tcs, ticks, update, base);
  }

  /** Phase B begins with exactly the delays phase A began with, and draws exactly what
      phase A drew at every tick they both reach. */
  method BothPhases(g: Gen, seed: int, b: Bounds, tcs: seq<TCConsumerDelay>, ticksA: nat, ticksB: nat,
                    updateA: (nat, nat) -> Update, updateB: (nat, nat) -> Update)
    returns (ghost startB: Matrix, historyA: seq<Matrix>, historyB: seq<Matrix>)
    requires Separate(tcs)
    modifies Arrays(tcs)
    ensures startB == old(Delays(tcs))
    ensures |historyA| == ticksA <==> forall t: nat :: t < ticksA ==> Runs(updateA, t, |tcs|)
    ensures |historyB| == ticksB <==> forall t: nat :: t < ticksB ==> Runs(updateB, t, |tcs|)
    ensures IsReplay(DrawsOf(g, b, seed), old(Delays(tcs)), historyA)
    ensures IsReplay(DrawsOf(g, b, seed), old(Delays(tcs)), historyB)
    ensures forall t :: 0 <= t < |historyA| && t < |historyB| ==> historyA[t] == historyB[t]
  {
    ghost var start := Delays(tcs);
    var saved := SaveAll(tcs);
    historyA := RefreshSeeded(g, seed, b, tcs, ticksA, updateA, start);
    ResetAll(tcs, saved);
    startB := Delays(tcs);
    assert startB == start;
    historyB := RefreshSeeded(g, seed, b, tcs, ticksB, updateB, start);
    SameSeedSameDraws(DrawsOf(g, b, seed), start, start, historyA, historyB);
  }
}
