/**
 The node-group list the bridge answers from. It is kept for a short time so that a burst
 of reads costs one round trip to the Broker; how old an answer can be and how many round
 trips there are is proved here, over every run of calls. Time is a logical clock in
 milliseconds; the lock serialises the callers.
 */
module NodeGroupCache {
  import opened Views

  const TTL := 2000

  /** What a read of the Broker would do: see the list of some instant, and end; `ok` says
      whether it succeeds. */
  datatype Fetch = Fetch(ok: bool, seesAt: int, endsAt: int)

  /** One call: when it comes, what a read would do, and the list that read would see. */
  datatype Call = Call(now: int, fetch: Fetch, list: seq<NodeGroup>)

  /** The list kept, and the read that brought it; only its end is stamped on the cache. */
  datatype Cached = Cached(list: seq<NodeGroup>, startedAt: int, readAt: int, endedAt: int)

  datatype Trip = Trip(startedAt: int, endedAt: int, ok: bool)

  /** The cache, and every round trip so far, failed ones included. */
  datatype CacheState = CacheState(cached: Option<Cached>, trips: seq<Trip>)

  const EMPTY := CacheState(None, [])

  predicate Serves(s: CacheState, now: int) {
    s.cached.Some? && now - s.cached.value.endedAt < TTL
  }

  function Next(s: CacheState, c: Call): CacheState {
    if Serves(s, c.now) then s
    else
      var trips := s.trips + [Trip(c.now, c.fetch.endsAt, c.fetch.ok)];
      if c.fetch.ok then CacheState(Some(Cached(c.list, c.now, c.fetch.seesAt, c.fetch.endsAt)), trips)
      else CacheState(s.cached, trips)
  }

  function Answer(s: CacheState, c: Call): Option<seq<NodeGroup>> {
    if Serves(s, c.now) then Some(s.cached.value.list)
    else if c.fetch.ok then Some(c.list)
    else None
  }

  function AnsweredAt(s: CacheState, c: Call): int {
    if Serves(s, c.now) then c.now else c.fetch.endsAt
  }

  /** The call comes after every round trip so far has ended. */
  predicate InOrder(s: CacheState, c: Call) {
    && c.now <= c.fetch.seesAt <= c.fetch.endsAt
    && (s.trips != [] ==> s.trips[|s.trips| - 1].endedAt <= c.now)
  }

  // ---------------------------------------------------------------------------
  // What every state of the cache satisfies
  // ---------------------------------------------------------------------------

  ghost predicate Spaced(trips: seq<Trip>) {
    && (forall i :: 0 <= i < |trips| ==> trips[i].startedAt <= trips[i].endedAt)
    && (forall i, j :: 0 <= i < j < |trips| ==>
          trips[j].startedAt - trips[i].endedAt >= if trips[i].ok then TTL else 0)
  }

  ghost predicate CacheOk(s: CacheState) {
    && Spaced(s.trips)
    && (s.cached.None? ==> forall i :: 0 <= i < |s.trips| ==> !s.trips[i].ok)
    && (s.cached.Some? ==>
          && s.cached.value.startedAt <= s.cached.value.readAt <= s.cached.value.endedAt
          && s.trips != [] && s.cached.value.endedAt <= s.trips[|s.trips| - 1].endedAt
          && forall i :: 0 <= i < |s.trips| && s.trips[i].ok ==> s.trips[i].endedAt <= s.cached.value.endedAt)
  }

  lemma NextKeeps(s: CacheState, c: Call)
    requires CacheOk(s) && InOrder(s, c)
    ensures CacheOk(Next(s, c))
  {
    if !Serves(s, c.now) {
      forall i | 0 <= i < |s.trips|
        ensures c.now - s.trips[i].endedAt >= if s.trips[i].ok then TTL else 0
      {
        assert i < |s.trips| - 1 ==> s.trips[|s.trips| - 1].startedAt - s.trips[i].endedAt >= 0;
      }
    }
  }

  // ---------------------------------------------------------------------------
  // Runs of calls
  // ---------------------------------------------------------------------------

  ghost predicate ValidCalls(s: CacheState, calls: seq<Call>)
    decreases |calls|
  {
    calls == [] || (InOrder(s, calls[0]) && ValidCalls(Next(s, calls[0]), calls[1..]))
  }

  function After(s: CacheState, calls: seq<Call>): CacheState
    decreases |calls|
  {
    if calls == [] then s else After(Next(s, calls[0]), calls[1..])
  }

  lemma {:induction false} AfterKeeps(s: CacheState, calls: seq<Call>)
    requires CacheOk(s) && ValidCalls(s, calls)
    ensures CacheOk(After(s, calls))
    decreases |calls|
  {
    if calls != [] {
      NextKeeps(s, calls[0]);
      AfterKeeps(Next(s, calls[0]), calls[1..]);
    }
  }

  /** The Broker's list over time. */
  type History = int -> seq<NodeGroup>

  ghost predicate Truthful(broker: History, calls: seq<Call>) {
    forall i :: 0 <= i < |calls| ==> calls[i].list == broker(calls[i].fetch.seesAt)
  }

  ghost predicate ListIsBrokers(broker: History, s: CacheState) {
    s.cached.Some? ==> s.cached.value.list == broker(s.cached.value.readAt)
  }

  /** `list`, answered at `at`, was the Broker's less than TTL plus the length of the read
      that brought it ago. */
  ghost predicate Young(broker: History, list: seq<NodeGroup>, at: int, from: Cached) {
    && from.startedAt <= from.readAt <= from.endedAt && list == broker(from.readAt)
    && from.readAt <= at && at - from.readAt < TTL + (from.endedAt - from.startedAt)
  }

  ghost predicate AnswersYoung(broker: History, s: CacheState, c: Call) {
    var answer, next := Answer(s, c), Next(s, c);
    answer.Some? ==> next.cached.Some? && Young(broker, answer.value, AnsweredAt(s, c), next.cached.value)
  }

  lemma AnswerIsYoung(broker: History, s: CacheState, c: Call)
    requires CacheOk(s) && InOrder(s, c) && ListIsBrokers(broker, s) && c.list == broker(c.fetch.seesAt)
    ensures ListIsBrokers(broker, Next(s, c))
    ensures AnswersYoung(broker, s, c)
  {
  }

  /** In every run of calls, every answer is a list the Broker had that recently. */
  lemma {:induction false} AnswersAreYoung(broker: History, s: CacheState, calls: seq<Call>, i: nat)
    requires CacheOk(s) && ListIsBrokers(broker, s) && ValidCalls(s, calls) && Truthful(broker, calls) && i < |calls|
    ensures AnswersYoung(broker, After(s, calls[..i]), calls[i])
    decreases |calls|
  {
    AnswerIsYoung(broker, s, calls[0]);
    if i == 0 {
      assert calls[..0] == [];
    } else {
      NextKeeps(s, calls[0]);
      AnswersAreYoung(broker, Next(s, calls[0]), calls[1..], i - 1);
      assert calls[..i][0] == calls[0] && calls[..i][1..] == calls[1..][..i - 1];
    }
  }

  // ---------------------------------------------------------------------------
  // How often the Broker is read
  // ---------------------------------------------------------------------------

  function Successes(trips: seq<Trip>): nat {
    if trips == [] then 0
    else Successes(trips[..|trips| - 1]) + if trips[|trips| - 1].ok then 1 else 0
  }

  /** Over any stretch of time, however many calls it holds, the Broker is read with
      success no more than once per TTL, and once more. */
  lemma {:induction false} FewSuccessfulReads(trips: seq<Trip>, from: int, to: int)
    requires Spaced(trips) && from <= to
    requires forall i :: 0 <= i < |trips| ==> from <= trips[i].endedAt <= to
    ensures Successes(trips) > 0 ==> (Successes(trips) - 1) * TTL <= to - from
    decreases |trips|
  {
    if trips != [] {
      var front, last := trips[..|trips| - 1], trips[|trips| - 1];
      if last.ok && Successes(front) > 0 {
        var k := LastSuccess(front);
        var upTo := front[..k + 1];
        FewSuccessfulReads(upTo, from, upTo[k].endedAt);
      } else if !last.ok {
        FewSuccessfulReads(front, from, to);
      }
    }
  }

  lemma {:induction false} LastSuccess(trips: seq<Trip>) returns (k: nat)
    requires Successes(trips) > 0 && Spaced(trips)
    ensures k < |trips| && trips[k].ok && Successes(trips[..k + 1]) == Successes(trips)
    ensures forall i :: 0 <= i <= k ==> trips[i].endedAt <= trips[k].endedAt
  {
    var n := |trips| - 1;
    if trips[n].ok {
      k := n;
      assert trips[..n + 1] == trips;
      assert forall i :: 0 <= i < n ==> trips[n].startedAt - trips[i].endedAt >= 0;
    } else {
      k := LastSuccess(trips[..n]);
      assert trips[..n][..k + 1] == trips[..k + 1];
    }
  }

  /** A burst: each call comes within TTL of the end of any read made for an earlier one. */
  ghost predicate Burst(calls: seq<Call>) {
    forall i, j :: 0 <= i < j < |calls| ==> calls[j].now - calls[i].fetch.endsAt < TTL
  }

  /** The calls up to and including the first whose read succeeds. */
  function UntilSuccess(calls: seq<Call>): nat {
    if calls == [] then 0 else if calls[0].fetch.ok then 1 else 1 + UntilSuccess(calls[1..])
  }

  lemma {:induction false} AllServed(s: CacheState, calls: seq<Call>)
    requires s.cached.Some? && forall i :: 0 <= i < |calls| ==> calls[i].now - s.cached.value.endedAt < TTL
    ensures After(s, calls) == s
    decreases |calls|
  {
    if calls != [] {
      AllServed(s, calls[1..]);
    }
  }

  /** A burst that finds nothing fresh makes one round trip per read that fails until one
      succeeds, and none after it. */
  lemma {:induction false} BurstTrips(s: CacheState, calls: seq<Call>)
    requires ValidCalls(s, calls) && Burst(calls) && (calls != [] ==> !Serves(s, calls[0].now))
    ensures |After(s, calls).trips| == |s.trips| + UntilSuccess(calls)
    decreases |calls|
  {
    if calls != [] {
      var s', rest := Next(s, calls[0]), calls[1..];
      if calls[0].fetch.ok {
        AllServed(s', rest);
      } else {
        if rest != [] {
          LaterIsStale(s, calls);
        }
        BurstTrips(s', rest);
      }
    }
  }

  lemma LaterIsStale(s: CacheState, calls: seq<Call>)
    requires ValidCalls(s, calls) && |calls| > 1 && !Serves(s, calls[0].now) && !calls[0].fetch.ok
    ensures !Serves(Next(s, calls[0]), calls[1].now)
  {
    assert calls[1..][0] == calls[1];
    assert InOrder(Next(s, calls[0]), calls[1]);
  }

  /** So a burst costs at most one round trip exactly when it holds at most one call or its
      first read succeeds: while the Broker fails, every call asks again. */
  lemma BurstCostsOneTripExactlyWhen(s: CacheState, calls: seq<Call>)
    requires ValidCalls(s, calls) && Burst(calls) && (calls != [] ==> !Serves(s, calls[0].now))
    ensures |After(s, calls).trips| <= |s.trips| + 1 <==> |calls| <= 1 || calls[0].fetch.ok
  {
    BurstTrips(s, calls);
    if |calls| > 1 && !calls[0].fetch.ok {
      assert UntilSuccess(calls) == 1 + UntilSuccess(calls[1..]);
      assert UntilSuccess(calls[1..]) >= 1;
    }
  }

  /** Two failed reads back to back: two round trips in no time. */
  lemma FailedReadsAskAgain(list: seq<NodeGroup>, now: int)
    ensures var c := Call(now, Fetch(false, now, now), list);
      ValidCalls(EMPTY, [c, c]) && After(EMPTY, [c, c]).trips == [Trip(now, now, false), Trip(now, now, false)]
  {
    var c := Call(now, Fetch(false, now, now), list);
    assert [c, c][1..] == [c] && [c][1..] == [];
    var s := Next(EMPTY, c);
    assert s == CacheState(None, [Trip(now, now, false)]);
    assert ValidCalls(s, [c]) && After(s, [c]) == Next(s, c);
  }

  // ---------------------------------------------------------------------------
  // The target size
  // ---------------------------------------------------------------------------

  function TargetOf(list: seq<NodeGroup>, id: string): int {
    if list == [] then 0
    else if list[0].id == id then list[0].reserved
    else TargetOf(list[1..], id)
  }

  lemma {:induction false} TargetFound(list: seq<NodeGroup>, id: string, i: nat)
    requires i < |list| && list[i].id == id && forall k :: 0 <= k < i ==> list[k].id != id
    ensures TargetOf(list, id) == list[i].reserved
  {
    if i > 0 {
      TargetFound(list[1..], id, i - 1);
    }
  }

  lemma {:induction false} TargetMissing(list: seq<NodeGroup>, id: string)
    requires forall k :: 0 <= k < |list| ==> list[k].id != id
    ensures TargetOf(list, id) == 0
  {
    if list != [] {
      TargetMissing(list[1..], id);
    }
  }

  method TargetIn(list: seq<NodeGroup>, id: string) returns (n: int)
    ensures n == TargetOf(list, id)
  {
    for i := 0 to |list|
      invariant forall k :: 0 <= k < i ==> list[k].id != id
    {
      if list[i].id == id {
        TargetFound(list, id, i);
        return list[i].reserved;
      }
    }
    TargetMissing(list, id);
    return 0;
  }

  // ---------------------------------------------------------------------------
  // The server
  // ---------------------------------------------------------------------------

  /** `agent` says whether there is an agent client to ask. */
  class Server {
    const agent: bool
    var cache: Option<seq<NodeGroup>>
    var cacheAt: int
    ghost var state: CacheState

    constructor (agent: bool)
      ensures Valid() && state == EMPTY && this.agent == agent
    {
      this.agent := agent;
      cache, cacheAt, state := None, 0, EMPTY;
    }

    /** The two fields are the cached part of the state. */
    ghost predicate Valid()
      reads this
    {
      && CacheOk(state)
      && (cache.Some? <==> state.cached.Some?)
      && (cache.Some? ==> cache.value == state.cached.value.list && cacheAt == state.cached.value.endedAt)
    }

    method CachedNodeGroups(now: int, fetch: Fetch, list: seq<NodeGroup>) returns (r: Option<seq<NodeGroup>>)
      requires Valid() && InOrder(state, Call(now, fetch, list))
      modifies this
      ensures Valid()
      ensures state == Next(old(state), Call(now, fetch, list))
      ensures r == Answer(old(state), Call(now, fetch, list))
    {
      if cache.Some? && now - cacheAt < TTL {
        return cache;
      }
      NextKeeps(state, Call(now, fetch, list));
      state := Next(state, Call(now, fetch, list));
      if !fetch.ok {
        return None;
      }
      cache, cacheAt := Some(list), fetch.endsAt;
      return cache;
    }

    /** The chunks reserved on a group, 0 when it is not listed. */
    method NodeGroupTargetSize(now: int, fetch: Fetch, list: seq<NodeGroup>, id: string) returns (r: Option<int>)
      requires Valid() && InOrder(state, Call(now, fetch, list))
      modifies this
      ensures Valid()
      ensures state == if id == "" || !agent then old(state) else Next(old(state), Call(now, fetch, list))
      ensures var answer := Answer(old(state), Call(now, fetch, list));
        r == if id == "" || !agent || answer.None? then None else Some(TargetOf(answer.value, id))
    {
      if id == "" || !agent {
        return None;
      }
      var resp := CachedNodeGroups(now, fetch, list);
      if resp.None? {
        return None;
      }
      var n := TargetIn(resp.value, id);
      return Some(n);
    }
  }
}
