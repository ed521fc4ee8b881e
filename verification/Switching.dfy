/**
 When a consumer leaves the provider it holds for the Broker's current winner.
 */
module Switching {
  import opened Sets
  import opened Views

  /** The metric of the last listed group of a provider that carries one. */
  function LastMetric(ngs: seq<NodeGroup>, provider: string): Option<real> {
    if ngs == [] then None else
      var ng := ngs[|ngs| - 1];
      if ng.provider == provider && ng.metric.Some? then ng.metric
      else LastMetric(ngs[..|ngs| - 1], provider)
  }

  /** Nothing held: move. Same provider: stay. Both measured: move only to a strictly
      lower metric. One of the two unmeasured: move. */
  predicate Switches(held: Option<string>, winner: string, ngs: seq<NodeGroup>) {
    held.None? ||
    (held.value != winner &&
     var cur, win := LastMetric(ngs, held.value), LastMetric(ngs, winner);
     (cur.Some? && win.Some? ==> win.value < cur.value))
  }

  method ShouldSwitch(held: Option<string>, winner: string, ngs: seq<NodeGroup>) returns (r: bool)
    ensures r == Switches(held, winner, ngs)
  {
    if held.None? {
      return true;
    }
    if held.value == winner {
      return false;
    }
    var cur: Option<real>, win: Option<real> := None, None;
    for i := 0 to |ngs|
      invariant cur == LastMetric(ngs[..i], held.value)
      invariant win == LastMetric(ngs[..i], winner)
    {
      assert ngs[..i + 1][..i] == ngs[..i];
      if ngs[i].provider == held.value && ngs[i].metric.Some? {
        cur := ngs[i].metric;
      }
      if ngs[i].provider == winner && ngs[i].metric.Some? {
        win := ngs[i].metric;
      }
    }
    assert ngs[..|ngs|] == ngs;
    if cur.Some? && win.Some? {
      return win.value < cur.value;
    }
    return true;
  }

  /** Row `i` is the provider's last one with a metric. */
  predicate LastMeasured(ngs: seq<NodeGroup>, provider: string, i: int) {
    && 0 <= i < |ngs| && ngs[i].provider == provider && ngs[i].metric.Some?
    && forall k :: i < k < |ngs| ==> ngs[k].provider != provider || ngs[k].metric.None?
  }

  lemma {:induction false} LastMetricIsLast(ngs: seq<NodeGroup>, provider: string)
    ensures forall i :: LastMeasured(ngs, provider, i) ==> LastMetric(ngs, provider) == ngs[i].metric
    ensures LastMetric(ngs, provider).Some? ==> exists i :: LastMeasured(ngs, provider, i)
  {
    if ngs != [] {
      var n, front := |ngs| - 1, ngs[..|ngs| - 1];
      LastMetricIsLast(front, provider);
      if ngs[n].provider == provider && ngs[n].metric.Some? {
        assert LastMeasured(ngs, provider, n);
      } else {
        assert forall i :: LastMeasured(ngs, provider, i) <==> LastMeasured(front, provider, i);
      }
    }
  }

  /** A consumer stays with what it holds exactly when that is the winner, or when the last
      measurements of both are listed and the winner's is not the lower one. */
  lemma StaysExactlyWhen(held: string, winner: string, ngs: seq<NodeGroup>)
    ensures Switches(None, winner, ngs)
    ensures !Switches(Some(held), winner, ngs) <==>
      || held == winner
      || exists i, j :: LastMeasured(ngs, held, i) && LastMeasured(ngs, winner, j) &&
                        ngs[j].metric.value >= ngs[i].metric.value
  {
    LastMetricIsLast(ngs, held);
    LastMetricIsLast(ngs, winner);
    if LastMetric(ngs, held).Some? && LastMetric(ngs, winner).Some? {
      var i :| LastMeasured(ngs, held, i);
      var j :| LastMeasured(ngs, winner, j);
      assert LastMetric(ngs, held) == ngs[i].metric && LastMetric(ngs, winner) == ngs[j].metric;
    }
  }

  function Providers(ngs: seq<NodeGroup>): set<string> {
    set ng | ng in ngs :: ng.provider
  }

  ghost predicate AllMeasured(ngs: seq<NodeGroup>) {
    forall p :: p in Providers(ngs) ==> LastMetric(ngs, p).Some?
  }

  /** The providers a consumer holds one after the other while the list stands still. */
  ghost predicate SwitchPath(path: seq<string>, ngs: seq<NodeGroup>) {
    && (forall i :: 0 <= i < |path| ==> path[i] in Providers(ngs))
    && (forall i :: 0 <= i < |path| - 1 ==> Switches(Some(path[i]), path[i + 1], ngs))
  }

  /** Along any path of switches the metric of the held provider strictly falls. */
  lemma {:induction false} MetricFalls(path: seq<string>, ngs: seq<NodeGroup>, i: nat, j: nat)
    requires AllMeasured(ngs) && SwitchPath(path, ngs)
    requires i < j < |path|
    ensures LastMetric(ngs, path[j]).value < LastMetric(ngs, path[i]).value
    decreases j - i
  {
    assert Switches(Some(path[j - 1]), path[j], ngs);
    if i < j - 1 {
      MetricFalls(path, ngs, i, j - 1);
    }
  }

  /** With every provider measured no provider is revisited, so a consumer makes fewer
      switches than there are providers. */
  lemma NoThrashing(path: seq<string>, ngs: seq<NodeGroup>)
    requires AllMeasured(ngs) && SwitchPath(path, ngs) && path != []
    ensures forall i, j :: 0 <= i < j < |path| ==> path[i] != path[j]
    ensures |path| - 1 < |Providers(ngs)|
  {
    forall i, j | 0 <= i < j < |path|
      ensures path[i] != path[j]
    {
      MetricFalls(path, ngs, i, j);
    }
    var visited := set p | p in path;
    DistinctCount(path);
    SubsetSize(visited, Providers(ngs));
  }

  lemma {:induction false} DistinctCount(path: seq<string>)
    requires forall i, j :: 0 <= i < j < |path| ==> path[i] != path[j]
    ensures |set p | p in path| == |path|
  {
    if path != [] {
      var rest := path[..|path| - 1];
      DistinctCount(rest);
      var last := path[|path| - 1];
      assert (set p | p in path) == (set p | p in rest) + {last};
      assert last !in rest;
    }
  }

  ghost predicate HasPath(ngs: seq<NodeGroup>, n: nat) {
    exists path: seq<string> :: |path| == n && SwitchPath(path, ngs)
  }

  ghost predicate SomeUnmeasuredPair(ngs: seq<NodeGroup>) {
    exists a, b :: a in Providers(ngs) && b in Providers(ngs) && a != b && LastMetric(ngs, a).None?
  }

  /** A consumer can switch for ever exactly when there are two providers, one of them
      unmeasured: it is then left for the other and returned to for as long as the winner
      alternates. */
  lemma ThrashesExactlyWhen(ngs: seq<NodeGroup>)
    ensures (forall n: nat :: HasPath(ngs, n)) <==> SomeUnmeasuredPair(ngs)
  {
    if SomeUnmeasuredPair(ngs) {
      var a, b :| a in Providers(ngs) && b in Providers(ngs) && a != b && LastMetric(ngs, a).None?;
      forall n: nat
        ensures HasPath(ngs, n)
      {
        var path := seq(n, i => if i % 2 == 0 then a else b);
        assert SwitchPath(path, ngs);
      }
    } else {
      var n := |Providers(ngs)| + 2;
      if HasPath(ngs, n) {
        var path :| |path| == n && SwitchPath(path, ngs);
        MeasuredPath(path, ngs);
        assert false;
      }
    }
  }

  lemma MeasuredPath(path: seq<string>, ngs: seq<NodeGroup>)
    requires SwitchPath(path, ngs) && !SomeUnmeasuredPair(ngs) && |path| >= 2
    ensures |path| <= |Providers(ngs)|
  {
    assert path[0] in Providers(ngs) && path[1] in Providers(ngs);
    assert Switches(Some(path[0]), path[1], ngs);
    forall p | p in Providers(ngs)
      ensures LastMetric(ngs, p).Some?
    {
      assert p != path[0] || p != path[1];
    }
    NoThrashing(path, ngs);
  }
}
