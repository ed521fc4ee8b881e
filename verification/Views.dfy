/**
 The Broker's node-group list as the harness and the gRPC bridge see it, and the
 selection helpers every suite shares.
 */
module Views {
  import opened Seqs

  datatype Option<+T> = None | Some(value: T)

  /** One row of the Broker's list: `reserved`/`maxSize` are the booked and total
      chunks, `metric` the value the applied policy ranked the provider on. */
  datatype NodeGroup = NodeGroup(
    id: string,
    provider: string,
    kind: string,
    maxSize: int,
    reserved: int,
    metric: Option<real>,
    carbon: Option<real>,
    cost: Option<real>)

  const STANDARD: string := "standard"

  predicate HasRoom(ng: NodeGroup) {
    ng.maxSize > ng.reserved
  }

  /** The node groups that can still grow, in list order. */
  function Growable(ngs: seq<NodeGroup>): (out: seq<NodeGroup>)
    ensures forall ng :: ng in out <==> ng in ngs && HasRoom(ng)
  {
    if ngs == [] then []
    else Growable(ngs[..|ngs| - 1]) + (if HasRoom(ngs[|ngs| - 1]) then [ngs[|ngs| - 1]] else [])
  }

  /** The single growable group, when the Broker left exactly one. */
  function FindWinner(ngs: seq<NodeGroup>): (w: Option<NodeGroup>)
    ensures w.Some? <==> |Growable(ngs)| == 1
    ensures w.Some? ==> w.value in ngs && HasRoom(w.value)
    ensures w.Some? ==> forall ng :: ng in ngs && HasRoom(ng) ==> ng == w.value
  {
    var growable := Growable(ngs);
    if |growable| != 1 then None else
      assert growable[0] in growable;
      assert forall ng :: ng in growable ==> ng == growable[0];
      Some(growable[0])
  }

  /** The groups that can grow are kept one by one, in their order. */
  lemma {:induction false} GrowableSplits(a: seq<NodeGroup>, b: seq<NodeGroup>)
    ensures Growable(a + b) == Growable(a) + Growable(b)
    ensures |a| == 1 ==> Growable(a) == if a[0].maxSize > a[0].reserved then a else []
  {
    if b == [] {
      assert a + b == a;
    } else {
      var front, last := b[..|b| - 1], b[|b| - 1];
      var end := if HasRoom(last) then [last] else [];
      GrowableSplits(a, front);
      MovedFront(a, b);
      assert Growable(a + b) == Growable(a + front) + end;
      Regroup(Growable(a), Growable(front), end);
    }
    if |a| == 1 {
      assert a[..0] == [];
    }
  }

  /** `i` is the only place of a group that can grow. */
  predicate OnlyRoom(ngs: seq<NodeGroup>, i: int) {
    0 <= i < |ngs| && forall k :: 0 <= k < |ngs| ==> (ngs[k].maxSize > ngs[k].reserved <==> k == i)
  }

  /** There is a winner exactly when one group can grow, and it is that group. */
  lemma {:induction false} WinnerIsOnly(ngs: seq<NodeGroup>)
    ensures FindWinner(ngs).Some? <==> exists i :: OnlyRoom(ngs, i)
    ensures forall i :: OnlyRoom(ngs, i) ==> FindWinner(ngs) == Some(ngs[i])
  {
    if ngs != [] {
      var front, last := ngs[..|ngs| - 1], |ngs| - 1;
      if HasRoom(ngs[last]) {
        NoOtherRoom(ngs);
      } else {
        WinnerIsOnly(front);
        forall i
          ensures OnlyRoom(ngs, i) <==> OnlyRoom(front, i)
        {
          OnlyInFront(ngs, i);
        }
      }
    }
  }

  lemma NoOtherRoom(ngs: seq<NodeGroup>)
    requires ngs != [] && HasRoom(ngs[|ngs| - 1])
    ensures Growable(ngs[..|ngs| - 1]) == [] <==> OnlyRoom(ngs, |ngs| - 1)
    ensures forall i :: OnlyRoom(ngs, i) ==> i == |ngs| - 1
  {
    var front := ngs[..|ngs| - 1];
    if Growable(front) != [] {
      assert Growable(front)[0] in Growable(front);
    } else {
      assert forall k :: 0 <= k < |front| ==> ngs[k] == front[k] && front[k] in front;
    }
  }

  lemma OnlyInFront(ngs: seq<NodeGroup>, i: int)
    requires ngs != [] && !HasRoom(ngs[|ngs| - 1])
    ensures OnlyRoom(ngs, i) <==> OnlyRoom(ngs[..|ngs| - 1], i)
  {
    var front := ngs[..|ngs| - 1];
    assert forall k :: 0 <= k < |front| ==> ngs[k] == front[k];
  }

  predicate IsStandardOf(ng: NodeGroup, provider: string) {
    ng.provider == provider && ng.kind == STANDARD
  }

  /** The first standard group a provider lists. */
  function StandardGroup(ngs: seq<NodeGroup>, provider: string): (r: Option<NodeGroup>)
    ensures r.Some? ==> r.value in ngs && IsStandardOf(r.value, provider)
    ensures r.Some? ==> exists i :: FirstStandard(ngs, provider, i) && ngs[i] == r.value
    ensures r.None? <==> forall ng :: ng in ngs ==> !IsStandardOf(ng, provider)
  {
    if ngs == [] then None
    else if IsStandardOf(ngs[0], provider) then
      assert FirstStandard(ngs, provider, 0);
      Some(ngs[0])
    else
      var rest := StandardGroup(ngs[1..], provider);
      FirstOfRest(ngs, provider);
      rest
  }

  /** Row `i` is standard and the provider's, and no row before it is. */
  predicate FirstStandard(ngs: seq<NodeGroup>, provider: string, i: int) {
    0 <= i < |ngs| && IsStandardOf(ngs[i], provider) && forall k :: 0 <= k < i ==> !IsStandardOf(ngs[k], provider)
  }

  lemma FirstOfRest(ngs: seq<NodeGroup>, provider: string)
    requires ngs != [] && !IsStandardOf(ngs[0], provider)
    ensures forall i :: FirstStandard(ngs[1..], provider, i) ==> FirstStandard(ngs, provider, i + 1)
  {
    forall i | FirstStandard(ngs[1..], provider, i)
      ensures FirstStandard(ngs, provider, i + 1)
    {
      assert forall k :: 0 < k <= i ==> ngs[k] == ngs[1..][k - 1];
    }
  }

  /** Go's `<` on strings: lexicographic on characters, a proper prefix first. */
  predicate StringLess(a: string, b: string) {
    b != [] && (a == [] || a[0] < b[0] || (a[0] == b[0] && StringLess(a[1..], b[1..])))
  }

  /** The string order is total: of two different strings exactly one is smaller. */
  lemma {:induction false} StringOrderTotal(a: string, b: string)
    ensures (StringLess(a, b) && !StringLess(b, a) && a != b)
         || (StringLess(b, a) && !StringLess(a, b) && a != b)
         || (a == b && !StringLess(a, b) && !StringLess(b, a))
  {
    if a != [] && b != [] && a[0] == b[0] {
      StringOrderTotal(a[1..], b[1..]);
      assert a == [a[0]] + a[1..] && b == [b[0]] + b[1..];
    }
  }

  lemma {:induction false} StringOrderTransitive(a: string, b: string, c: string)
    requires StringLess(a, b) && StringLess(b, c)
    ensures StringLess(a, c)
  {
    if a != [] && a[0] == b[0] && b[0] == c[0] {
      StringOrderTransitive(a[1..], b[1..], c[1..]);
    }
  }

  /** The order of the dictionary: the first character that differs decides, and a string
      comes before what it starts. */
  lemma {:induction false} StringOrderIsLexicographic(s: string, a: string, b: string)
    ensures StringLess(s + a, s + b) <==> StringLess(a, b)
    ensures a != [] && b != [] && a[0] != b[0] ==> (StringLess(a, b) <==> a[0] as int < b[0] as int)
    ensures StringLess([], b) <==> b != []
  {
    if s != [] {
      StringOrderIsLexicographic(s[1..], a, b);
      assert (s + a)[1..] == s[1..] + a && (s + b)[1..] == s[1..] + b;
    } else {
      assert s + a == a && s + b == b;
    }
  }
}
