/**
 The achievable range drawn around a phase's curve. At every instant the chart sums the
 readings of the providers that are held, and sets beside it the best and the worst sum
 that as many consumers could have had. The claim of the chart code is that the curve
 never leaves the range.
 */
module Bands {
  import opened Seqs
  import opened Views
  import opened Sorting

  function Sum(s: seq<real>): real {
    if s == [] then 0.0 else Sum(s[..|s| - 1]) + s[|s| - 1]
  }

  predicate Smaller(a: real, b: real) {
    a < b
  }

  predicate Ascending(s: seq<real>) {
    forall i, j :: 0 <= i < j < |s| ==> s[i] <= s[j]
  }

  lemma SortAscends(s: seq<real>)
    ensures Ascending(Sort(s, Smaller))
  {
    assert StrictWeak(Smaller);
    SortOrdered(s, Smaller);
    var r := Sort(s, Smaller);
    forall i, j | 0 <= i < j < |r|
      ensures r[i] <= r[j]
    {
      assert !Smaller(r[j], r[i]);
    }
  }

  lemma {:induction false} SumConcat(a: seq<real>, b: seq<real>)
    ensures Sum(a + b) == Sum(a) + Sum(b)
  {
    if b == [] {
      assert a + b == a;
    } else {
      SumConcat(a, b[..|b| - 1]);
      assert (a + b)[..|a + b| - 1] == a + b[..|b| - 1];
    }
  }

  lemma SumOne(x: real)
    ensures Sum([x]) == x
  {
    assert [x][..0] == [];
  }

  function Count<T(==)>(s: seq<T>, x: T): nat {
    if s == [] then 0 else Count(s[..|s| - 1], x) + (if s[|s| - 1] == x then 1 else 0)
  }

  lemma {:induction false} CountIsMultiplicity<T>(s: seq<T>, x: T)
    ensures Count(s, x) == multiset(s)[x]
  {
    if s != [] {
      CountIsMultiplicity(s[..|s| - 1], x);
      assert s == s[..|s| - 1] + [s[|s| - 1]];
    }
  }

  lemma {:induction false} CountConcat<T>(a: seq<T>, b: seq<T>, x: T)
    ensures Count(a + b, x) == Count(a, x) + Count(b, x)
  {
    if b == [] {
      assert a + b == a;
    } else {
      CountConcat(a, b[..|b| - 1], x);
      assert (a + b)[..|a + b| - 1] == a + b[..|b| - 1];
    }
  }

  lemma CountAppend<T>(a: seq<T>, y: T, x: T)
    ensures Count(a + [y], x) == Count(a, x) + if x == y then 1 else 0
  {
    assert (a + [y])[..|a|] == a;
  }

  /** No value occurs more often in `v` than in `t`. */
  ghost predicate Fits(v: seq<real>, t: seq<real>) {
    forall r :: Count(v, r) <= Count(t, r)
  }

  lemma FitsSize(v: seq<real>, t: seq<real>)
    requires Fits(v, t)
    ensures |v| <= |t|
  {
    forall r
      ensures multiset(v)[r] <= multiset(t)[r]
    {
      CountIsMultiplicity(v, r);
      CountIsMultiplicity(t, r);
    }
    assert multiset(t) == multiset(v) + (multiset(t) - multiset(v));
  }

  lemma SameCount(s: seq<real>, t: seq<real>, r: real)
    requires multiset(s) == multiset(t)
    ensures Count(s, r) == Count(t, r)
  {
    CountIsMultiplicity(s, r);
    CountIsMultiplicity(t, r);
  }

  lemma {:induction false} CountedIsThere(s: seq<real>, x: real) returns (k: nat)
    requires Count(s, x) > 0
    ensures k < |s| && s[k] == x
  {
    if s[|s| - 1] == x {
      return |s| - 1;
    }
    k := CountedIsThere(s[..|s| - 1], x);
  }

  function Without(v: seq<real>, k: nat): seq<real>
    requires k < |v|
  {
    v[..k] + v[k + 1..]
  }

  lemma WithoutSum(v: seq<real>, k: nat)
    requires k < |v|
    ensures Sum(Without(v, k)) + v[k] == Sum(v)
  {
    var left, right := v[..k], v[k + 1..];
    SumConcat(left, right);
    SumConcat(v[..k + 1], right);
    assert v[..k + 1] + right == v;
    assert v[..k + 1][..k] == left;
  }

  lemma WithoutCount(v: seq<real>, k: nat, r: real)
    requires k < |v|
    ensures Count(v, r) == Count(Without(v, k), r) + if r == v[k] then 1 else 0
  {
    var left, mid, right := v[..k], [v[k]], v[k + 1..];
    assert v == left + mid + right;
    CountConcat(left + mid, right, r);
    CountAppend(left, v[k], r);
    CountConcat(left, right, r);
  }

  /** Taking the same value out of both sides keeps one inside the other. */
  lemma StillFits(v: seq<real>, k: nat, t: seq<real>, j: nat)
    requires k < |v| && j < |t| && v[k] == t[j] && Fits(v, t)
    ensures Fits(Without(v, k), Without(t, j))
  {
    forall r
      ensures Count(Without(v, k), r) <= Count(Without(t, j), r)
    {
      WithoutCount(v, k, r);
      WithoutCount(t, j, r);
    }
  }

  lemma FitsWithout(v: seq<real>, t: seq<real>, j: nat)
    requires j < |t| && Count(v, t[j]) == 0 && Fits(v, t)
    ensures Fits(v, Without(t, j))
  {
    forall r
      ensures Count(v, r) <= Count(Without(t, j), r)
    {
      WithoutCount(t, j, r);
    }
  }

  // ---------------------------------------------------------------------------
  // The x smallest and the x largest
  // ---------------------------------------------------------------------------

  lemma PrefixStep(t: seq<real>, m: nat)
    requires m < |t| && Ascending(t)
    ensures Sum(t[..m + 1]) == Sum(t[..|t| - 1][..m]) + t[m] <= Sum(t[..|t| - 1][..m]) + t[|t| - 1]
  {
    assert t[..m + 1][..m] == t[..|t| - 1][..m];
  }

  lemma SuffixStep(t: seq<real>, m: nat)
    requires m < |t| && Ascending(t)
    ensures Sum(t[m..]) == Sum(t[1..][m..]) + t[m] >= Sum(t[1..][m..]) + t[0]
  {
    assert t[m..] == [t[m]] + t[1..][m..];
    SumConcat([t[m]], t[1..][m..]);
    SumOne(t[m]);
  }

  lemma {:induction false} PrefixIsLeast(t: seq<real>, v: seq<real>)
    requires Ascending(t) && Fits(v, t)
    ensures |v| <= |t| && Sum(t[..|v|]) <= Sum(v)
    decreases |t|
  {
    FitsSize(v, t);
    if v != [] {
      var front, last := t[..|t| - 1], t[|t| - 1];
      assert Without(t, |t| - 1) == front;
      if Count(v, last) > 0 {
        var k := CountedIsThere(v, last);
        StillFits(v, k, t, |t| - 1);
        WithoutSum(v, k);
        PrefixIsLeast(front, Without(v, k));
        PrefixStep(t, |v| - 1);
      } else {
        FitsWithout(v, t, |t| - 1);
        PrefixIsLeast(front, v);
        assert t[..|v|] == front[..|v|];
      }
    }
  }

  /** The largest sum of `x` of the values of an ascending sequence. */
  function TopSum(t: seq<real>, x: nat): real
    requires x <= |t|
  {
    Sum(t[|t| - x..])
  }

  lemma TopSumStep(t: seq<real>, x: nat)
    requires x < |t| && Ascending(t)
    ensures TopSum(t, x) == TopSum(t[1..], x)
    ensures TopSum(t, x + 1) >= TopSum(t[1..], x) + t[0]
  {
    assert t[|t| - x..] == t[1..][|t| - 1 - x..];
    SuffixStep(t, |t| - x - 1);
  }

  /** The smallest value of `t` is taken out of `v`, where it occurs. */
  lemma DropSmallest(t: seq<real>, v: seq<real>) returns (k: nat)
    requires t != [] && Fits(v, t) && Count(v, t[0]) > 0
    ensures k < |v| && v[k] == t[0] && Fits(Without(v, k), t[1..])
  {
    k := CountedIsThere(v, t[0]);
    StillFits(v, k, t, 0);
    assert Without(t, 0) == t[1..];
  }

  lemma SmallestUnused(t: seq<real>, v: seq<real>)
    requires t != [] && Fits(v, t) && Count(v, t[0]) == 0
    ensures Fits(v, t[1..])
  {
    FitsWithout(v, t, 0);
    assert Without(t, 0) == t[1..];
  }

  lemma PutBack(t: seq<real>, v: seq<real>, k: nat)
    requires Ascending(t) && t != [] && k < |v| <= |t| && v[k] == t[0]
    requires Sum(Without(v, k)) <= TopSum(t[1..], |v| - 1)
    ensures Sum(v) <= TopSum(t, |v|)
  {
    var n := |v| - 1;
    WithoutSum(v, k);
    TopSumStep(t, n);
  }

  lemma {:induction false} SuffixIsGreatest(t: seq<real>, v: seq<real>)
    requires Ascending(t) && Fits(v, t)
    ensures |v| <= |t| && Sum(v) <= TopSum(t, |v|)
    decreases |t|
  {
    FitsSize(v, t);
    if v != [] {
      if Count(v, t[0]) > 0 {
        var k := DropSmallest(t, v);
        SuffixIsGreatest(t[1..], Without(v, k));
        PutBack(t, v, k);
      } else {
        SmallestUnused(t, v);
        SuffixIsGreatest(t[1..], v);
        TopSumStep(t, |v|);
      }
    }
  }

  /** `x` of the slots were chosen. */
  ghost predicate Chosen(v: seq<real>, slots: seq<real>, x: nat) {
    |v| == x && Fits(v, slots)
  }

  ghost predicate IsLeastSum(m: real, slots: seq<real>, x: nat) {
    && (exists v :: Chosen(v, slots, x) && Sum(v) == m)
    && (forall v :: Chosen(v, slots, x) ==> m <= Sum(v))
  }

  ghost predicate IsGreatestSum(m: real, slots: seq<real>, x: nat) {
    && (exists v :: Chosen(v, slots, x) && Sum(v) == m)
    && (forall v :: Chosen(v, slots, x) ==> Sum(v) <= m)
  }

  lemma PartIsChosen(slots: seq<real>, t: seq<real>, from: nat, to: nat)
    requires from <= to <= |t| && multiset(t) == multiset(slots)
    ensures Chosen(t[from..to], slots, to - from)
  {
    forall r
      ensures Count(t[from..to], r) <= Count(slots, r)
    {
      assert t == t[..from] + t[from..to] + t[to..];
      CountConcat(t[..from] + t[from..to], t[to..], r);
      CountConcat(t[..from], t[from..to], r);
      SameCount(t, slots, r);
    }
  }

  lemma ChoiceIsBetween(slots: seq<real>, t: seq<real>, v: seq<real>)
    requires Ascending(t) && multiset(t) == multiset(slots) && Fits(v, slots)
    ensures |v| <= |t| && Sum(t[..|v|]) <= Sum(v) <= Sum(t[|t| - |v|..])
  {
    forall r
      ensures Count(v, r) <= Count(t, r)
    {
      SameCount(t, slots, r);
    }
    PrefixIsLeast(t, v);
    SuffixIsGreatest(t, v);
  }

  lemma LowEndIsLeast(slots: seq<real>, t: seq<real>, x: nat)
    requires Ascending(t) && multiset(t) == multiset(slots) && x <= |t|
    ensures IsLeastSum(Sum(t[..x]), slots, x)
  {
    PartIsChosen(slots, t, 0, x);
    assert t[0..x] == t[..x];
    forall v | Chosen(v, slots, x)
      ensures Sum(t[..x]) <= Sum(v)
    {
      ChoiceIsBetween(slots, t, v);
    }
  }

  lemma HighEndIsGreatest(slots: seq<real>, t: seq<real>, x: nat)
    requires Ascending(t) && multiset(t) == multiset(slots) && x <= |t|
    ensures IsGreatestSum(Sum(t[|t| - x..]), slots, x)
  {
    PartIsChosen(slots, t, |t| - x, |t|);
    assert t[|t| - x..|t|] == t[|t| - x..];
    forall v | Chosen(v, slots, x)
      ensures Sum(v) <= Sum(t[|t| - x..])
    {
      ChoiceIsBetween(slots, t, v);
    }
  }

  // ---------------------------------------------------------------------------
  // What the consumers hold fits into the slots
  // ---------------------------------------------------------------------------

  /** One column of the readings: `None` where no reading is known yet. */
  datatype Reading = Reading(provider: string, value: Option<real>)

  function Lookup(row: seq<Reading>, p: string): Option<real> {
    if row == [] then None
    else if row[|row| - 1].provider == p then row[|row| - 1].value
    else Lookup(row[..|row| - 1], p)
  }

  function AsSeq(v: Option<real>): seq<real> {
    if v.Some? then [v.value] else []
  }

  /** The readings known at this instant. */
  function Available(row: seq<Reading>): seq<real> {
    if row == [] then [] else Available(row[..|row| - 1]) + AsSeq(row[|row| - 1].value)
  }

  /** The readings of the providers held, one per consumer whose provider has one. */
  function HeldValues(row: seq<Reading>, held: seq<string>): seq<real> {
    if held == [] then [] else HeldValues(row, held[..|held| - 1]) + AsSeq(Lookup(row, held[|held| - 1]))
  }

  function Repeat(s: seq<real>, n: nat): seq<real> {
    if n == 0 then [] else Repeat(s, n - 1) + s
  }

  lemma OneMore(n: nat, k: nat)
    ensures (n + 1) * k == n * k + k
  {
  }

  lemma OneMoreCopy(k: nat, n: nat)
    ensures k * (n + 1) == k * n + k
  {
  }

  lemma {:induction false} RepeatCount(s: seq<real>, n: nat, r: real)
    ensures Count(Repeat(s, n), r) == Count(s, r) * n
  {
    if n > 0 {
      RepeatCount(s, n - 1, r);
      CountConcat(Repeat(s, n - 1), s, r);
      OneMoreCopy(Count(s, r), n - 1);
    }
  }

  function Others(held: seq<string>, p: string): seq<string> {
    if held == [] then []
    else if held[|held| - 1] == p then Others(held[..|held| - 1], p)
    else Others(held[..|held| - 1], p) + [held[|held| - 1]]
  }

  lemma {:induction false} OthersCount(held: seq<string>, p: string, q: string)
    ensures Count(Others(held, p), q) <= Count(held, q)
  {
    if held != [] {
      OthersCount(held[..|held| - 1], p, q);
      CountAppend(Others(held[..|held| - 1], p), held[|held| - 1], q);
    }
  }

  lemma HeldAppend(row: seq<Reading>, held: seq<string>, q: string, r: real)
    ensures Count(HeldValues(row, held + [q]), r) ==
      Count(HeldValues(row, held), r) + if Lookup(row, q) == Some(r) then 1 else 0
  {
    assert (held + [q])[..|held|] == held;
    var v := Lookup(row, q);
    if v.Some? {
      CountAppend(HeldValues(row, held), v.value, r);
    } else {
      assert HeldValues(row, held + [q]) == HeldValues(row, held);
    }
  }

  /** Taking the last column out of the row takes the consumers of its provider out. */
  lemma {:induction false} SplitColumn(row: seq<Reading>, held: seq<string>, r: real)
    requires row != []
    ensures var last := row[|row| - 1];
      Count(HeldValues(row, held), r) ==
      Count(HeldValues(row[..|row| - 1], Others(held, last.provider)), r) +
      if last.value == Some(r) then Count(held, last.provider) else 0
    decreases |held|
  {
    if held != [] {
      var front, last, h, q := row[..|row| - 1], row[|row| - 1], held[..|held| - 1], held[|held| - 1];
      SplitColumn(row, h, r);
      assert held == h + [q];
      HeldAppend(row, h, q, r);
      if q == last.provider {
        assert Others(held, last.provider) == Others(h, last.provider);
        assert Lookup(row, q) == last.value;
      } else {
        assert Others(held, last.provider) == Others(h, last.provider) + [q];
        assert Lookup(row, q) == Lookup(front, q);
        HeldAppend(front, Others(h, last.provider), q, r);
      }
    }
  }

  lemma AvailableAppend(row: seq<Reading>, r: real)
    requires row != []
    ensures Count(Available(row), r) ==
      Count(Available(row[..|row| - 1]), r) + if row[|row| - 1].value == Some(r) then 1 else 0
  {
    var front, v := row[..|row| - 1], row[|row| - 1].value;
    if v.Some? {
      CountAppend(Available(front), v.value, r);
    } else {
      assert Available(row) == Available(front);
    }
  }

  /** When no provider is held by more than `copies` consumers, each reading is used no
      more often than the slots offer it. */
  lemma {:induction false} HeldFits(row: seq<Reading>, held: seq<string>, copies: nat, r: real)
    requires forall p :: Count(held, p) <= copies
    ensures Count(HeldValues(row, held), r) <= Count(Available(row), r) * copies
    decreases |row|
  {
    if row == [] {
      NothingToLookUp(held);
    } else {
      var front, last := row[..|row| - 1], row[|row| - 1];
      SplitColumn(row, held, r);
      AvailableAppend(row, r);
      forall p
        ensures Count(Others(held, last.provider), p) <= copies
      {
        OthersCount(held, last.provider, p);
      }
      HeldFits(front, Others(held, last.provider), copies, r);
      OneMore(Count(Available(front), r), copies);
    }
  }

  lemma {:induction false} NothingToLookUp(held: seq<string>)
    ensures HeldValues([], held) == []
  {
    if held != [] {
      NothingToLookUp(held[..|held| - 1]);
    }
  }

  /** How many consumers the fullest provider holds. */
  function Packed(held: seq<string>): (n: nat)
    ensures held != [] ==> n > 0
  {
    if held == [] then 0
    else
      var here, before := Count(held, held[|held| - 1]), Packed(held[..|held| - 1]);
      if here > before then here else before
  }

  lemma {:induction false} PackedBounds(held: seq<string>, p: string)
    ensures Count(held, p) <= Packed(held)
  {
    if held != [] {
      PackedBounds(held[..|held| - 1], p);
    }
  }

  lemma {:induction false} PackedIsReached(held: seq<string>)
    requires held != []
    ensures exists p :: p in held && Count(held, p) == Packed(held)
  {
    var front, last := held[..|held| - 1], held[|held| - 1];
    assert held == front + [last];
    if Count(held, last) > Packed(front) {
      assert last in held;
    } else {
      PackedIsReached(front);
      var p :| p in front && Count(front, p) == Packed(front);
      CountAppend(front, last, p);
      PackedBounds(held, p);
      assert p in held;
    }
  }

  /** The least number of copies that covers one chunk, the chunks a provider offers and
      the consumers on the fullest provider. */
  ghost predicate IsCopies(n: nat, chunksPerProvider: int, held: seq<string>) {
    && n >= 1 && n >= chunksPerProvider && (forall p :: Count(held, p) <= n)
    && (n == 1 || n == chunksPerProvider || exists p :: p in held && n == Count(held, p))
  }

  lemma CopiesAreLeast(chunksPerProvider: int, held: seq<string>)
    ensures IsCopies(Copies(chunksPerProvider, held), chunksPerProvider, held)
  {
    forall p
      ensures Count(held, p) <= Copies(chunksPerProvider, held)
    {
      PackedBounds(held, p);
    }
    if held != [] {
      PackedIsReached(held);
    }
  }

  /** How often each reading may be used: at least what the run itself did. */
  function Copies(chunksPerProvider: int, held: seq<string>): (n: nat)
    ensures n >= 1 && n >= chunksPerProvider && n >= Packed(held)
  {
    var packed := if held == [] then 1 else Packed(held);
    var least := if chunksPerProvider > 1 then chunksPerProvider else 1;
    if packed > least then packed else least
  }

  function Slots(row: seq<Reading>, chunksPerProvider: int, held: seq<string>): seq<real> {
    Repeat(Available(row), Copies(chunksPerProvider, held))
  }

  lemma HeldFitsSlots(row: seq<Reading>, held: seq<string>, copies: nat, r: real)
    requires copies >= Packed(held)
    ensures Count(HeldValues(row, held), r) <= Count(Repeat(Available(row), copies), r)
  {
    forall p
      ensures Count(held, p) <= copies
    {
      PackedBounds(held, p);
    }
    HeldFits(row, held, copies, r);
    RepeatCount(Available(row), copies, r);
  }

  lemma HeldIsChosen(row: seq<Reading>, held: seq<string>, chunksPerProvider: int)
    ensures Chosen(HeldValues(row, held), Slots(row, chunksPerProvider, held), |HeldValues(row, held)|)
    ensures |HeldValues(row, held)| <= |Slots(row, chunksPerProvider, held)|
  {
    var copies := Copies(chunksPerProvider, held);
    var values, slots := HeldValues(row, held), Slots(row, chunksPerProvider, held);
    forall r
      ensures Count(values, r) <= Count(slots, r)
    {
      HeldFitsSlots(row, held, copies, r);
    }
    FitsSize(values, slots);
  }

  // ---------------------------------------------------------------------------
  // The curve and its range
  // ---------------------------------------------------------------------------

  datatype Sums = Sums(curve: real, floor: real, ceiling: real)

  /** One instant of the chart; `None` stands for the three missing values. */
  datatype Point = Point(seen: nat, counted: nat, sums: Option<Sums>)

  /** The consumers that hold something at this instant. */
  function Known(held: seq<Option<string>>): seq<string> {
    if held == [] then []
    else Known(held[..|held| - 1]) + (if held[|held| - 1].Some? then [held[|held| - 1].value] else [])
  }

  /** Each known reading, as often as it may be used. */
  ghost predicate AreSlots(slots: seq<real>, row: seq<Reading>, chunksPerProvider: int, held: seq<string>) {
    exists n: nat :: IsCopies(n, chunksPerProvider, held) && forall r :: Count(slots, r) == Count(Available(row), r) * n
  }

  lemma SlotsAreSlots(row: seq<Reading>, chunksPerProvider: int, held: seq<string>)
    ensures AreSlots(Slots(row, chunksPerProvider, held), row, chunksPerProvider, held)
  {
    var n := Copies(chunksPerProvider, held);
    CopiesAreLeast(chunksPerProvider, held);
    forall r
      ensures Count(Slots(row, chunksPerProvider, held), r) == Count(Available(row), r) * n
    {
      RepeatCount(Available(row), n, r);
    }
  }

  /** Each provider is known to be held by as many consumers as hold it. */
  lemma {:induction false} KnownCounts(held: seq<Option<string>>, p: string)
    ensures Count(Known(held), p) == Count(held, Some(p))
  {
    if held != [] {
      var front, last := held[..|held| - 1], held[|held| - 1];
      KnownCounts(front, p);
      if last.Some? {
        CountAppend(Known(front), last.value, p);
      } else {
        assert Known(held) == Known(front);
      }
    }
  }

  lemma {:induction false} AvailableSplits(a: seq<Reading>, b: seq<Reading>)
    ensures Available(a + b) == Available(a) + Available(b)
  {
    if b == [] {
      assert a + b == a;
    } else {
      var front, last := b[..|b| - 1], b[|b| - 1];
      AvailableSplits(a, front);
      MovedFront(a, b);
      assert Available(a + b) == Available(a + front) + AsSeq(last.value);
      Regroup(Available(a), Available(front), AsSeq(last.value));
    }
  }

  /** Every column with a reading gives one value, in the order of the columns. */
  lemma ColumnCounts(a: seq<Reading>, x: Reading, b: seq<Reading>)
    ensures Available(a + [x] + b) ==
      Available(a) + (if x.value.Some? then [x.value.value] else []) + Available(b)
  {
    AvailableSplits(a + [x], b);
    AvailableSplits(a, [x]);
    assert [x][..0] == [];
  }

  lemma {:induction false} HeldSplits(row: seq<Reading>, a: seq<string>, b: seq<string>)
    ensures HeldValues(row, a + b) == HeldValues(row, a) + HeldValues(row, b)
  {
    if b == [] {
      assert a + b == a;
    } else {
      var front, last := b[..|b| - 1], b[|b| - 1];
      HeldSplits(row, a, front);
      MovedFront(a, b);
      assert HeldValues(row, a + b) == HeldValues(row, a + front) + AsSeq(Lookup(row, last));
      Regroup(HeldValues(row, a), HeldValues(row, front), AsSeq(Lookup(row, last)));
    }
  }

  /** Every consumer gives the reading of its provider, if there is one. */
  lemma ConsumerCounts(row: seq<Reading>, a: seq<string>, p: string, b: seq<string>)
    ensures HeldValues(row, a + [p] + b) ==
      HeldValues(row, a) + (if Lookup(row, p).Some? then [Lookup(row, p).value] else []) + HeldValues(row, b)
  {
    HeldSplits(row, a + [p], b);
    HeldSplits(row, a, [p]);
    assert [p][..0] == [];
  }

  /** A provider's reading is that of its column. */
  lemma {:induction false} LookupFinds(row: seq<Reading>, i: nat)
    requires i < |row| && forall k :: i < k < |row| ==> row[k].provider != row[i].provider
    ensures Lookup(row, row[i].provider) == row[i].value
  {
    if i < |row| - 1 {
      LookupFinds(row[..|row| - 1], i);
    }
  }

  /** The curve, and the least and the greatest sum that as many consumers could have. */
  ghost predicate PointOk(row: seq<Reading>, held: seq<string>, chunksPerProvider: int, p: Point) {
    exists slots :: AreSlots(slots, row, chunksPerProvider, held) && PointOver(slots, row, held, p)
  }

  ghost predicate PointOver(slots: seq<real>, row: seq<Reading>, held: seq<string>, p: Point) {
    var x := |HeldValues(row, held)|;
    && p.seen == |Available(row)|
    && p.counted == x
    && (p.sums.None? <==> x == 0)
    && (p.sums.Some? ==>
          p.sums.value.curve == Sum(HeldValues(row, held)) && InTightRange(p.sums.value, slots, x))
  }

  ghost predicate InTightRange(s: Sums, slots: seq<real>, x: nat) {
    IsLeastSum(s.floor, slots, x) && IsGreatestSum(s.ceiling, slots, x) && s.floor <= s.curve <= s.ceiling
  }

  lemma NothingAvailable(row: seq<Reading>, held: seq<string>, chunksPerProvider: int)
    requires Available(row) == []
    ensures HeldValues(row, held) == []
  {
    HeldIsChosen(row, held, chunksPerProvider);
    NoSlots(Copies(chunksPerProvider, held));
  }

  lemma {:induction false} NoSlots(n: nat)
    ensures Repeat([], n) == []
  {
    if n > 0 {
      NoSlots(n - 1);
    }
  }

  lemma EndsAreExtreme(values: seq<real>, slots: seq<real>, sorted: seq<real>, x: nat)
    requires Chosen(values, slots, x) && x <= |sorted|
    requires Ascending(sorted) && multiset(sorted) == multiset(slots)
    ensures InTightRange(Sums(Sum(values), Sum(sorted[..x]), Sum(sorted[|sorted| - x..])), slots, x)
  {
    LowEndIsLeast(slots, sorted, x);
    HighEndIsGreatest(slots, sorted, x);
  }

  method RebuildPoint(row: seq<Reading>, held: seq<string>, chunksPerProvider: int) returns (p: Point)
    ensures PointOk(row, held, chunksPerProvider, p)
  {
    var values := HeldValues(row, held);
    var available := Available(row);
    var x := |values|;
    SlotsAreSlots(row, chunksPerProvider, held);
    if x == 0 || |available| == 0 {
      if |available| == 0 {
        NothingAvailable(row, held, chunksPerProvider);
      }
      p := Point(|available|, x, None);
      assert PointOver(Slots(row, chunksPerProvider, held), row, held, p);
      return;
    }
    HeldIsChosen(row, held, chunksPerProvider);
    var slots := Slots(row, chunksPerProvider, held);
    var sorted := Sort(slots, Smaller);
    SortAscends(slots);
    EndsAreExtreme(values, slots, sorted, x);
    var take := if x < |sorted| then x else |sorted|;
    p := Point(|available|, x, Some(Sums(Sum(values), Sum(sorted[..take]), Sum(sorted[|sorted| - take..]))));
    assert PointOver(slots, row, held, p);
  }

  /** Every point of a phase's curve lies in its range, whatever is held and whatever the
      readings, and the range is the tightest one for that many consumers. */
  method RebuildOnCurrentReadings(readings: seq<seq<Reading>>, holdings: seq<seq<Option<string>>>,
                                  chunksPerProvider: int) returns (points: seq<Point>)
    requires |readings| == |holdings|
    ensures |points| == |readings|
    ensures forall i :: 0 <= i < |points| ==> PointOk(readings[i], Known(holdings[i]), chunksPerProvider, points[i])
  {
    points := [];
    for i := 0 to |readings|
      invariant |points| == i
      invariant forall k :: 0 <= k < i ==> PointOk(readings[k], Known(holdings[k]), chunksPerProvider, points[k])
    {
      var held := Known(holdings[i]);
      var p := RebuildPoint(readings[i], held, chunksPerProvider);
      points := points + [p];
    }
  }

  /** The packed count is needed: with one copy of each reading the least sum of two is
      above what two consumers on the same provider pay. */
  lemma TooFewCopies(row: seq<Reading>, held: seq<string>, floor: real)
    requires row == [Reading("a", Some(1.0)), Reading("b", Some(5.0))] && held == ["a", "a"]
    requires IsLeastSum(floor, Repeat(Available(row), 1), 2)
    ensures Sum(HeldValues(row, held)) < floor
  {
    TwoReadings(row);
    TwoHeld(row, held);
    var v :| Chosen(v, [1.0, 5.0], 2) && Sum(v) == floor;
    PrefixIsLeast([1.0, 5.0], v);
    assert [1.0, 5.0][..2] == [1.0, 5.0];
    SumPair(1.0, 5.0);
    SumPair(1.0, 1.0);
  }

  lemma TwoReadings(row: seq<Reading>)
    requires row == [Reading("a", Some(1.0)), Reading("b", Some(5.0))]
    ensures Repeat(Available(row), 1) == [1.0, 5.0] && Lookup(row, "a") == Some(1.0)
  {
    assert row[..1] == [Reading("a", Some(1.0))] && row[..1][..0] == [];
    assert Available(row[..1]) == [1.0];
    assert Available(row) == [1.0, 5.0];
    assert Repeat(Available(row), 0) == [];
    assert Lookup(row[..1], "a") == Some(1.0);
  }

  lemma TwoHeld(row: seq<Reading>, held: seq<string>)
    requires Lookup(row, "a") == Some(1.0) && held == ["a", "a"]
    ensures HeldValues(row, held) == [1.0, 1.0]
  {
    assert held[..1] == ["a"] && held[..1][..0] == [];
    assert HeldValues(row, held[..1]) == [1.0];
  }

  lemma SumPair(a: real, b: real)
    ensures Sum([a, b]) == a + b
  {
    SumOne(a);
    assert [a, b][..1] == [a];
  }
}
