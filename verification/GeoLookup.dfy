/**
 The mock geolocation service: an address is looked up by longest prefix (section 5.1 of
 RFC 4632) in a table of rows, each row one location fronting one or more prefixes.
 */
module GeoLookup {

  /** An address as the library compares it: an IPv4-mapped IPv6 address is an IPv4 one. */
  datatype Addr = V4(bits: nat) | V6(bits: nat)

  datatype Prefix = Prefix(network: Addr, ones: nat)

  datatype Location = Location(continent: string, country: string, region: string, city: string)

  datatype Row = Row(nets: seq<Prefix>, loc: Location)

  const NOWHERE := Location("", "", "", "")

  function Width(a: Addr): nat {
    if a.V4? then 32 else 128
  }

  function Pow2(n: nat): (p: nat)
    ensures p > 0
  {
    if n == 0 then 1 else 2 * Pow2(n - 1)
  }

  /** The two addresses agree on the prefix's leading bits. */
  predicate Contains(p: Prefix, a: Addr) {
    && p.network.V4? == a.V4?
    && p.ones <= Width(a)
    && a.bits / Pow2(Width(a) - p.ones) == p.network.bits / Pow2(Width(a) - p.ones)
  }

  /** Row `i`'s prefix `j` holds the address. */
  predicate Hit(table: seq<Row>, a: Addr, i: int, j: int) {
    0 <= i < |table| && 0 <= j < |table[i].nets| && Contains(table[i].nets[j], a)
  }

  function Ones(table: seq<Row>, i: int, j: int): int
    requires 0 <= i < |table| && 0 <= j < |table[i].nets|
  {
    table[i].nets[j].ones
  }

  predicate Before(i: int, j: int, i': int, j': int) {
    i < i' || (i == i' && j < j')
  }

  /** No prefix holding the address is longer, and none as long comes earlier. */
  ghost predicate IsBest(table: seq<Row>, a: Addr, i: int, j: int) {
    Hit(table, a, i, j) && forall i', j' :: Hit(table, a, i', j') ==>
      Ones(table, i', j') < Ones(table, i, j) || (Ones(table, i', j') == Ones(table, i, j) && !Before(i', j', i, j))
  }

  /** The same among the prefixes that come before row `r`, column `c`. */
  ghost predicate BestSoFar(table: seq<Row>, a: Addr, r: int, c: int, i: int, j: int) {
    && Hit(table, a, i, j) && Before(i, j, r, c)
    && forall i', j' :: Hit(table, a, i', j') && Before(i', j', r, c) ==>
      Ones(table, i', j') < Ones(table, i, j) || (Ones(table, i', j') == Ones(table, i, j) && !Before(i', j', i, j))
  }

  ghost predicate NoHitSoFar(table: seq<Row>, a: Addr, r: int, c: int) {
    forall i, j :: Hit(table, a, i, j) ==> !Before(i, j, r, c)
  }

  ghost predicate SoFar(table: seq<Row>, a: Addr, r: int, c: int, best: Location, bestOnes: int) {
    || (bestOnes == -1 && best == NOWHERE && NoHitSoFar(table, a, r, c))
    || exists i, j :: BestSoFar(table, a, r, c, i, j) && best == table[i].loc && bestOnes == Ones(table, i, j)
  }

  ghost predicate IsAnswer(table: seq<Row>, a: Addr, best: Location) {
    || (best == NOWHERE && forall i, j :: !Hit(table, a, i, j))
    || exists i, j :: IsBest(table, a, i, j) && best == table[i].loc
  }

  /** What one more prefix does to the best found so far. */
  lemma OneMore(table: seq<Row>, a: Addr, r: int, c: int, best: Location, bestOnes: int)
    requires 0 <= r < |table| && 0 <= c < |table[r].nets| && SoFar(table, a, r, c, best, bestOnes)
    ensures
      var better := Contains(table[r].nets[c], a) && Ones(table, r, c) > bestOnes;
      if better then SoFar(table, a, r, c + 1, table[r].loc, Ones(table, r, c))
      else SoFar(table, a, r, c + 1, best, bestOnes)
  {
    assert forall i, j :: Hit(table, a, i, j) && Before(i, j, r, c + 1) ==> Before(i, j, r, c) || (i == r && j == c);
    if Contains(table[r].nets[c], a) && Ones(table, r, c) > bestOnes {
      assert Hit(table, a, r, c);
      assert BestSoFar(table, a, r, c + 1, r, c);
    } else if bestOnes != -1 || best != NOWHERE || !NoHitSoFar(table, a, r, c) {
      var i, j :| BestSoFar(table, a, r, c, i, j) && best == table[i].loc && bestOnes == Ones(table, i, j);
      assert BestSoFar(table, a, r, c + 1, i, j);
    }
  }

  lemma NextRow(table: seq<Row>, a: Addr, r: int, best: Location, bestOnes: int)
    requires 0 <= r < |table| && SoFar(table, a, r, |table[r].nets|, best, bestOnes)
    ensures SoFar(table, a, r + 1, 0, best, bestOnes)
  {
    assert forall i, j :: Hit(table, a, i, j) ==> (Before(i, j, r + 1, 0) <==> Before(i, j, r, |table[r].nets|));
    if !(bestOnes == -1 && best == NOWHERE && NoHitSoFar(table, a, r, |table[r].nets|)) {
      var i, j :|
        BestSoFar(table, a, r, |table[r].nets|, i, j) && best == table[i].loc && bestOnes == Ones(table, i, j);
      assert BestSoFar(table, a, r + 1, 0, i, j);
    }
  }

  method Lookup(table: seq<Row>, a: Addr) returns (best: Location)
    ensures IsAnswer(table, a, best)
  {
    var bestOnes: int := -1;
    best := NOWHERE;
    for r := 0 to |table|
      invariant SoFar(table, a, r, 0, best, bestOnes)
    {
      for c := 0 to |table[r].nets|
        invariant SoFar(table, a, r, c, best, bestOnes)
      {
        OneMore(table, a, r, c, best, bestOnes);
        var p := table[r].nets[c];
        if Contains(p, a) && p.ones > bestOnes {
          bestOnes := p.ones;
          best := table[r].loc;
        }
      }
      NextRow(table, a, r, best, bestOnes);
    }
    assert forall i, j :: Hit(table, a, i, j) ==> Before(i, j, |table|, 0);
    if exists i, j :: BestSoFar(table, a, |table|, 0, i, j) && best == table[i].loc {
      ghost var i, j :| BestSoFar(table, a, |table|, 0, i, j) && best == table[i].loc;
      assert IsBest(table, a, i, j);
    }
  }

  // ---------------------------------------------------------------------------
  // When the order of the rows does not matter
  // ---------------------------------------------------------------------------

  /** Equally long prefixes that hold the same address belong to the same location. */
  ghost predicate Unambiguous(table: seq<Row>, a: Addr) {
    forall i, j, i', j' :: Hit(table, a, i, j) && Hit(table, a, i', j') && Ones(table, i, j) == Ones(table, i', j') ==>
      table[i].loc == table[i'].loc
  }

  /** The same rows, in any order and however often each is listed. */
  ghost predicate SameRows(table: seq<Row>, table': seq<Row>) {
    forall row :: row in table <==> row in table'
  }

  lemma HitElsewhere(table: seq<Row>, table': seq<Row>, a: Addr, i: int, j: int) returns (i': int)
    requires Hit(table, a, i, j) && SameRows(table, table')
    ensures Hit(table', a, i', j) && table'[i'] == table[i]
  {
    assert table[i] in table';
    i' :| 0 <= i' < |table'| && table'[i'] == table[i];
  }

  /** Any other order of the rows of an unambiguous table gives the same answer. */
  lemma OrderDoesNotMatter(table: seq<Row>, table': seq<Row>, a: Addr, best: Location, best': Location)
    requires SameRows(table, table') && Unambiguous(table, a)
    requires IsAnswer(table, a, best) && IsAnswer(table', a, best')
    ensures best == best'
  {
    if i, j :| IsBest(table, a, i, j) && best == table[i].loc {
      var k := HitElsewhere(table, table', a, i, j);
      var i', j' :| IsBest(table', a, i', j') && best' == table'[i'].loc;
      var k' := HitElsewhere(table', table, a, i', j');
      assert Ones(table, k', j') <= Ones(table, i, j) && Ones(table', k, j) <= Ones(table', i', j');
    } else if i', j' :| IsBest(table', a, i', j') && best' == table'[i'].loc {
      var k' := HitElsewhere(table', table, a, i', j');
    }
  }

  // ---------------------------------------------------------------------------
  // The shipped table
  // ---------------------------------------------------------------------------

  /** 172.23.`third`.0/24 */
  function Subnet(third: nat): nat {
    (172 * 256 + 23) * 256 + third
  }

  /** The quarter of that subnet starting at address 64 * `quarter`, a /26. */
  function Block(third: nat, quarter: nat): Prefix {
    Prefix(V4(Subnet(third) * 256 + 64 * quarter), 26)
  }

  const TABLE: seq<Row> := [
    Row([Block(4, 0), Block(4, 3)], Location("NA", "CA", "QC", "Montreal")),
    Row([Block(4, 1)], Location("NA", "US", "CA", "San Jose")),
    Row([Block(4, 2)], Location("OC", "AU", "NSW", "Sydney")),
    Row([Block(6, 0), Block(6, 3)], Location("EU", "FR", "IDF", "Paris")),
    Row([Block(6, 1)], Location("EU", "GB", "ENG", "London")),
    Row([Block(6, 2)], Location("AS", "JP", "13", "Tokyo")),
    Row([Block(7, 0), Block(7, 3)], Location("EU", "DE", "HE", "Frankfurt")),
    Row([Block(7, 1)], Location("SA", "BR", "SP", "Sao Paulo")),
    Row([Block(7, 2)], Location("AS", "IN", "MH", "Mumbai")),
    Row([Block(22, 0), Block(22, 3)], Location("EU", "SE", "AB", "Stockholm")),
    Row([Block(22, 1)], Location("EU", "IT", "LOM", "Milan")),
    Row([Block(22, 2)], Location("AS", "SG", "SG", "Singapore")),
    Row([Prefix(V4(0), 0)], NOWHERE)
  ]

  /** The four subnets, in the order of the table: three rows each. */
  function Third(i: nat): nat {
    if i < 3 then 4 else if i < 6 then 6 else if i < 9 then 7 else 22
  }

  function Quarter(i: nat, j: nat): nat {
    if i % 3 != 0 then i % 3 else if j == 0 then 0 else 3
  }

  /** Every row but the last stands for quarters of one subnet and has a region. */
  lemma ShippedRows(i: nat, j: nat)
    requires i < |TABLE| && j < |TABLE[i].nets|
    ensures i < 12 ==> TABLE[i].nets[j] == Block(Third(i), Quarter(i, j)) && TABLE[i].loc.region != ""
    ensures i == 12 ==> TABLE[i] == Row([Prefix(V4(0), 0)], NOWHERE)
    ensures i < 12 && i % 3 != 0 ==> j == 0
    ensures j < 2
  {
  }

  lemma ShippedQuarters(i: nat)
    requires i < 12
    ensures |TABLE| == 13 && |TABLE[i].nets| == if i % 3 == 0 then 2 else 1
  {
  }

  lemma BlockHolds(third: nat, quarter: nat, a: Addr)
    requires quarter < 4
    ensures Contains(Block(third, quarter), a) <==> a.V4? && a.bits / 64 == Subnet(third) * 4 + quarter
  {
    assert Pow2(0) == 1 && Pow2(1) == 2 && Pow2(2) == 4 && Pow2(3) == 8;
    assert Pow2(4) == 16 && Pow2(5) == 32 && Pow2(6) == 64;
    assert (Subnet(third) * 256 + 64 * quarter) / 64 == Subnet(third) * 4 + quarter;
  }

  /** 172.23.4.0/24, 172.23.6.0/24, 172.23.7.0/24 or 172.23.22.0/24 */
  predicate Known(a: Addr) {
    a.V4? && (a.bits / 256 == Subnet(4) || a.bits / 256 == Subnet(6) ||
              a.bits / 256 == Subnet(7) || a.bits / 256 == Subnet(22))
  }

  lemma ShippedHit(a: Addr, i: int, j: int)
    requires Hit(TABLE, a, i, j) && i < 12
    ensures a.V4? && a.bits / 64 == Subnet(Third(i)) * 4 + Quarter(i, j)
    ensures Known(a) && Ones(TABLE, i, j) == 26 && TABLE[i].loc.region != ""
  {
    ShippedRows(i, j);
    BlockHolds(Third(i), Quarter(i, j), a);
  }

  lemma QuarterOf(bits: nat, third: nat)
    requires bits / 256 == Subnet(third)
    ensures bits / 64 == Subnet(third) * 4 + (bits / 64) % 4
  {
  }

  lemma KnownHit(a: Addr) returns (i: int, j: int)
    requires Known(a)
    ensures Hit(TABLE, a, i, j) && i < 12
  {
    var base := if a.bits / 256 == Subnet(4) then 0 else if a.bits / 256 == Subnet(6) then 3
      else if a.bits / 256 == Subnet(7) then 6 else 9;
    var q := (a.bits / 64) % 4;
    i, j := base + (if q == 3 then 0 else q), if q == 3 then 1 else 0;
    ShippedQuarters(i);
    ShippedRows(i, j);
    QuarterOf(a.bits, Third(i));
    BlockHolds(Third(i), Quarter(i, j), a);
  }

  /** With the shipped table an address gets a region exactly when it lies in one of the
      four subnets. */
  lemma ShippedRegions(a: Addr, best: Location)
    requires IsAnswer(TABLE, a, best)
    ensures best.region != "" <==> Known(a)
  {
    if Known(a) {
      var i, j := KnownHit(a);
      ShippedHit(a, i, j);
      var i', j' :| IsBest(TABLE, a, i', j') && best == TABLE[i'].loc;
      ShippedRows(i', j');
      assert i' < 12;
      ShippedHit(a, i', j');
    } else if i', j' :| IsBest(TABLE, a, i', j') && best == TABLE[i'].loc {
      ShippedRows(i', j');
      if i' < 12 {
        ShippedHit(a, i', j');
      }
    }
  }

  lemma ShippedIsUnambiguous(a: Addr)
    ensures Unambiguous(TABLE, a)
  {
    forall i, j, i', j' | Hit(TABLE, a, i, j) && Hit(TABLE, a, i', j') && Ones(TABLE, i, j) == Ones(TABLE, i', j')
      ensures TABLE[i].loc == TABLE[i'].loc
    {
      ShippedRows(i, j);
      ShippedRows(i', j');
      if i < 12 && i' < 12 {
        ShippedHit(a, i, j);
        ShippedHit(a, i', j');
        assert Third(i) == Third(i') && Quarter(i, j) == Quarter(i', j');
      }
    }
  }

  /** The order of the shipped rows plays no part. */
  lemma ShippedOrderDoesNotMatter(table: seq<Row>, a: Addr, best: Location, best': Location)
    requires SameRows(TABLE, table)
    requires IsAnswer(TABLE, a, best) && IsAnswer(table, a, best')
    ensures best == best'
  {
    ShippedIsUnambiguous(a);
    OrderDoesNotMatter(TABLE, table, a, best, best');
  }
}
