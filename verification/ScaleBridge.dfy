/**
 The scaling calls of the gRPC bridge. Growing a group posts one reservation per chunk;
 shrinking it first maps every node to its reservation and only then releases. The
 ledger of reservations is shared with the Broker, whose every answer is possible.
 */
module ScaleBridge {
  import opened Sets
  import opened Views

  /** One reservation: always one chunk. */
  datatype Chunk = Chunk(provider: string, group: string, kind: string)

  /** `Lost` acts and then fails to answer; `Late` fails to answer and acts later, if ever. */
  datatype Answer = Done | Refused | Lost | Late

  predicate Acts(a: Answer) {
    a == Done || a == Lost
  }

  datatype Code = InvalidArgument | NotFound | FailedPrecondition | AgentError

  /** `live` are the reserved chunks, `pending` the POSTs that were given up but may still
      arrive. */
  class Ledger {
    var live: map<string, Chunk>
    var pending: map<string, Chunk>
    ghost var used: set<string>
    ghost var placed: nat
    ghost var released: nat

    constructor ()
      ensures Valid() && live == map[] && pending == map[] && used == {} && placed == 0 && released == 0
    {
      live, pending, used, placed, released := map[], map[], {}, 0, 0;
    }

    /** Reserved chunks are the placed ones minus the released ones. */
    ghost predicate Valid()
      reads this
    {
      && live.Keys <= used && pending.Keys <= used && live.Keys !! pending.Keys
      && |live.Keys| == placed - released
    }

    method Post(id: string, chunk: Chunk, answer: Answer) returns (ok: bool)
      requires Valid() && id !in used
      modifies this
      ensures Valid()
      ensures ok <==> answer == Done
      ensures used == old(used) + {id} && released == old(released)
      ensures live == if Acts(answer) then old(live)[id := chunk] else old(live)
      ensures pending == if answer == Late then old(pending)[id := chunk] else old(pending)
      ensures placed == old(placed) + if Acts(answer) then 1 else 0
    {
      used := used + {id};
      if Acts(answer) {
        assert live[id := chunk].Keys == live.Keys + {id};
        live := live[id := chunk];
        placed := placed + 1;
      } else if answer == Late {
        pending := pending[id := chunk];
      }
      return answer == Done;
    }

    /** A POST that was given up arrives after all. */
    method Land(id: string)
      requires Valid()
      modifies this
      ensures Valid() && used == old(used) && released == old(released)
      ensures live == if id in old(pending) then old(live)[id := old(pending)[id]] else old(live)
      ensures pending == old(pending) - {id}
      ensures placed == old(placed) + if id in old(pending) then 1 else 0
    {
      if id in pending {
        assert live[id := pending[id]].Keys == live.Keys + {id};
        live := live[id := pending[id]];
        placed := placed + 1;
      }
      pending := pending - {id};
    }

    /** Deleting an id that is not held changes nothing. */
    method Delete(id: string, answer: Answer) returns (ok: bool)
      requires Valid()
      modifies this
      ensures Valid()
      ensures ok <==> answer == Done
      ensures used == old(used) && pending == old(pending) && placed == old(placed)
      ensures live == if Acts(answer) then old(live) - {id} else old(live)
      ensures released == old(released) + if Acts(answer) && id in old(live) then 1 else 0
    {
      if Acts(answer) {
        if id in live {
          assert (live - {id}).Keys == live.Keys - {id};
          released := released + 1;
        } else {
          assert live - {id} == live;
        }
        live := live - {id};
      }
      return answer == Done;
    }
  }

  // ---------------------------------------------------------------------------
  // Growing
  // ---------------------------------------------------------------------------

  /** The first `k` minted ids, each holding the same chunk. */
  function PlaceAll(live: map<string, Chunk>, mint: nat -> string, chunk: Chunk, k: nat): map<string, Chunk> {
    if k == 0 then live else PlaceAll(live, mint, chunk, k - 1)[mint(k - 1) := chunk]
  }

  function Minted(mint: nat -> string, k: nat): set<string> {
    set i: nat | i < k :: mint(i)
  }

  predicate Apart(mint: nat -> string, i: nat, j: nat) {
    i != j ==> mint(i) != mint(j)
  }

  predicate Unused(mint: nat -> string, used: set<string>, i: nat) {
    mint(i) !in used
  }

  ghost predicate FreshIds(mint: nat -> string, used: set<string>) {
    (forall i: nat, j: nat :: Apart(mint, i, j)) && (forall i: nat :: Unused(mint, used, i))
  }

  lemma FreshForFewer(mint: nat -> string, used: set<string>, fewer: set<string>)
    requires FreshIds(mint, used) && fewer <= used
    ensures FreshIds(mint, fewer)
  {
    forall i: nat
      ensures Unused(mint, fewer, i)
    {
      assert Unused(mint, used, i);
    }
  }

  lemma NextIsFresh(mint: nat -> string, used: set<string>, i: nat)
    requires FreshIds(mint, used)
    ensures mint(i) !in used + Minted(mint, i)
    ensures Minted(mint, i + 1) == Minted(mint, i) + {mint(i)}
  {
    assert Unused(mint, used, i);
    forall j: nat | j < i
      ensures mint(j) != mint(i)
    {
      assert Apart(mint, j, i);
    }
  }

  ghost predicate FreshFrom(mint: nat -> string, used: set<string>, i: nat) {
    forall j: nat :: j >= i ==> Unused(mint, used, j)
  }

  lemma StillFresh(mint: nat -> string, used: set<string>, i: nat)
    requires FreshFrom(mint, used, i) && forall a: nat, b: nat :: Apart(mint, a, b)
    ensures mint(i) !in used && FreshFrom(mint, used + {mint(i)}, i + 1)
  {
    assert Unused(mint, used, i);
    forall j: nat | j >= i + 1
      ensures Unused(mint, used + {mint(i)}, j)
    {
      assert Unused(mint, used, j) && Apart(mint, i, j);
    }
  }

  method FindNodeGroup(list: seq<NodeGroup>, id: string) returns (r: Option<NodeGroup>)
    ensures r.None? <==> forall ng :: ng in list ==> ng.id != id
    ensures r.Some? ==> r.value.id == id
    ensures r.Some? ==> exists i ::
      0 <= i < |list| && list[i] == r.value && forall k :: 0 <= k < i ==> list[k].id != id
  {
    for i := 0 to |list|
      invariant forall k :: 0 <= k < i ==> list[k].id != id
    {
      if list[i].id == id {
        return Some(list[i]);
      }
    }
    return None;
  }

  /** The first `k` POSTs were all answered. */
  predicate AllWentThrough(answer: nat -> Answer, k: nat) {
    k == 0 || (AllWentThrough(answer, k - 1) && answer(k - 1) == Done)
  }

  /** How far a scale-up got: all of it, or up to the first POST that failed. */
  ghost predicate StopsAt(answer: nat -> Answer, delta: nat, k: nat) {
    && k <= delta
    && AllWentThrough(answer, k)
    && (k < delta ==> answer(k) != Done)
  }

  /** How many chunks were placed: those, and one more when its reply was lost. */
  function Placed(answer: nat -> Answer, delta: nat, k: nat): nat {
    if k < delta && answer(k) == Lost then k + 1 else k
  }

  /** What is held after `k` POSTs went through and the next one, if any, ended as it did. */
  function AfterPosts(live: map<string, Chunk>, mint: nat -> string, chunk: Chunk, answer: nat -> Answer,
                      delta: nat, k: nat): map<string, Chunk>
  {
    PlaceAll(live, mint, chunk, Placed(answer, delta, k))
  }

  /** The POST that stopped the fan-out may still arrive. */
  function AfterLate(pending: map<string, Chunk>, mint: nat -> string, chunk: Chunk, answer: nat -> Answer,
                     delta: nat, k: nat): map<string, Chunk>
  {
    if k < delta && answer(k) == Late then pending[mint(k) := chunk] else pending
  }

  /** `mint` are the fresh ids, `answer(i)` what happens to the i-th POST. */
  method PlaceChunks(l: Ledger, mint: nat -> string, chunk: Chunk, delta: nat, answer: nat -> Answer)
    returns (failed: bool, k: nat)
    requires l.Valid() && FreshIds(mint, l.used)
    modifies l
    ensures l.Valid() && StopsAt(answer, delta, k)
    ensures failed <==> k < delta
    ensures l.live == AfterPosts(old(l.live), mint, chunk, answer, delta, k)
    ensures l.pending == AfterLate(old(l.pending), mint, chunk, answer, delta, k)
    ensures l.released == old(l.released)
    ensures l.placed == old(l.placed) + Placed(answer, delta, k)
    ensures FreshFrom(mint, l.used, delta)
  {
    k := 0;
    while k < delta
      invariant k <= delta && Placing(l, mint, chunk, answer, k, old(l.live), old(l.placed), old(l.released))
      invariant l.pending == old(l.pending)
    {
      var ok := PlaceNext(l, mint, chunk, answer, k, old(l.live), old(l.placed), old(l.released));
      if !ok {
        return true, k;
      }
      k := k + 1;
    }
    return false, k;
  }

  /** Where the fan-out stands after `k` POSTs that went through. */
  ghost predicate Placing(l: Ledger, mint: nat -> string, chunk: Chunk, answer: nat -> Answer, k: nat,
                          live: map<string, Chunk>, placed: nat, released: nat)
    reads l
  {
    && l.Valid() && FreshFrom(mint, l.used, k) && AllWentThrough(answer, k)
    && l.live == PlaceAll(live, mint, chunk, k) && l.placed == placed + k && l.released == released
  }

  /** The k-th POST of a fan-out. */
  method PlaceNext(l: Ledger, mint: nat -> string, chunk: Chunk, answer: nat -> Answer, k: nat,
                   ghost live: map<string, Chunk>, ghost placed: nat, ghost released: nat) returns (ok: bool)
    requires Placing(l, mint, chunk, answer, k, live, placed, released) && forall a: nat, b: nat :: Apart(mint, a, b)
    modifies l
    ensures ok <==> answer(k) == Done
    ensures l.pending == AfterLate(old(l.pending), mint, chunk, answer, k + 1, k)
    ensures ok ==> Placing(l, mint, chunk, answer, k + 1, live, placed, released)
    ensures !ok ==> l.Valid() && FreshFrom(mint, l.used, k + 1) && l.released == released
    ensures !ok ==> var n := if answer(k) == Lost then k + 1 else k;
                    l.live == PlaceAll(live, mint, chunk, n) && l.placed == placed + n
  {
    StillFresh(mint, l.used, k);
    ok := l.Post(mint(k), chunk, answer(k));
  }

  /** Whether the call gets as far as placing chunks, and with which code it fails if not. */
  function GrowRefusal(agent: bool, list: Option<seq<NodeGroup>>, id: string, delta: int): Option<Code> {
    if id == "" || delta <= 0 then Some(InvalidArgument)
    else if !agent then Some(FailedPrecondition)
    else if list.None? then Some(AgentError)
    else if forall ng :: ng in list.value ==> ng.id != id then Some(NotFound)
    else None
  }

  /** Which code tells what: the request is malformed, there is no agent to ask, the list
      could not be read, the group is not listed. */
  lemma GrowRefusalsTell(agent: bool, list: Option<seq<NodeGroup>>, id: string, delta: int)
    ensures var r := GrowRefusal(agent, list, id, delta);
      && (r == Some(InvalidArgument) <==> !(id != "" && delta >= 1))
      && (r == Some(FailedPrecondition) <==> id != "" && delta >= 1 && !agent)
      && (r == Some(AgentError) <==> id != "" && delta >= 1 && agent && list.None?)
      && (r.None? <==> id != "" && delta >= 1 && agent && list.Some? && exists ng :: ng in list.value && ng.id == id)
      && (r.Some? ==> r.value in {InvalidArgument, FailedPrecondition, AgentError, NotFound})
  {
  }

  /** What is asked for on a group. */
  function ChunkOf(ng: NodeGroup): Chunk {
    Chunk(ng.provider, ng.id, ng.kind)
  }

  /** `agent` says whether an agent client is configured, `list` is its fresh answer. */
  method NodeGroupIncreaseSize(l: Ledger, agent: bool, list: Option<seq<NodeGroup>>, id: string, delta: int,
                               mint: nat -> string, answer: nat -> Answer)
    returns (r: Option<Code>, ghost k: nat, ghost group: Option<NodeGroup>)
    requires l.Valid() && FreshIds(mint, l.used)
    modifies l
    ensures l.Valid() && l.released == old(l.released)
    ensures FreshFrom(mint, l.used, if delta > 0 then delta else 0)
    ensures group.Some? <==> GrowRefusal(agent, list, id, delta).None?
    ensures group.None? ==> r == GrowRefusal(agent, list, id, delta)
    ensures group.None? ==> l.live == old(l.live) && l.pending == old(l.pending) && l.placed == old(l.placed)
    ensures group.Some? ==>
      && group.value in list.value && group.value.id == id && StopsAt(answer, delta, k)
      && r == (if k == delta then None else Some(AgentError))
      && l.live == AfterPosts(old(l.live), mint, ChunkOf(group.value), answer, delta, k)
      && l.pending == AfterLate(old(l.pending), mint, ChunkOf(group.value), answer, delta, k)
      && l.placed == old(l.placed) + Placed(answer, delta, k)
    ensures group.Some? ==> forall x :: x in l.live && x !in old(l.live) ==>
      l.live[x].provider == group.value.provider && l.live[x].group == id && l.live[x].kind == group.value.kind
  {
    k, group := 0, None;
    if id == "" || delta <= 0 {
      return Some(InvalidArgument), 0, None;
    }
    if !agent {
      return Some(FailedPrecondition), 0, None;
    }
    if list.None? {
      return Some(AgentError), 0, None;
    }
    var found := FindNodeGroup(list.value, id);
    if found.None? {
      return Some(NotFound), 0, None;
    }
    var failed, placed := PlaceChunks(l, mint, ChunkOf(found.value), delta, answer);
    k, group := placed, found;
    PlacedKeys(old(l.live), mint, ChunkOf(found.value), Placed(answer, delta, k));
    return if failed then Some(AgentError) else None, k, group;
  }

  // ---------------------------------------------------------------------------
  // What growing and shrinking add up to
  // ---------------------------------------------------------------------------

  function HeldWith(live: map<string, Chunk>, provider: string): set<string> {
    set id | id in live && live[id].provider == provider
  }

  lemma {:induction false} PlacedKeys(live: map<string, Chunk>, mint: nat -> string, chunk: Chunk, k: nat)
    ensures PlaceAll(live, mint, chunk, k).Keys == live.Keys + Minted(mint, k)
    ensures forall id :: id in Minted(mint, k) ==> PlaceAll(live, mint, chunk, k)[id] == chunk
    ensures forall id :: id in live && id !in Minted(mint, k) ==> PlaceAll(live, mint, chunk, k)[id] == live[id]
  {
    if k > 0 {
      PlacedKeys(live, mint, chunk, k - 1);
      assert Minted(mint, k) == Minted(mint, k - 1) + {mint(k - 1)};
    }
  }

  lemma {:induction false} MintedCount(mint: nat -> string, k: nat)
    requires FreshIds(mint, {})
    ensures |Minted(mint, k)| == k
  {
    if k > 0 {
      MintedCount(mint, k - 1);
      NextIsFresh(mint, {}, k - 1);
    }
  }

  lemma PlacedWith(live: map<string, Chunk>, mint: nat -> string, chunk: Chunk, k: nat, provider: string)
    requires Minted(mint, k) !! live.Keys
    ensures HeldWith(PlaceAll(live, mint, chunk, k), provider) ==
      HeldWith(live, provider) + if provider == chunk.provider then Minted(mint, k) else {}
  {
    PlacedKeys(live, mint, chunk, k);
  }

  lemma MintedIsNew(mint: nat -> string, used: set<string>, k: nat)
    requires FreshIds(mint, used)
    ensures Minted(mint, k) !! used && FreshIds(mint, {})
  {
    forall i: nat | i < k
      ensures mint(i) !in used
    {
      assert Unused(mint, used, i);
    }
    forall i: nat
      ensures Unused(mint, {}, i)
    {
    }
  }

  /** Growing by `k` adds exactly `k` reservations with the group's provider and leaves
      every other provider's alone. */
  lemma PlacingAddsExactly(live: map<string, Chunk>, mint: nat -> string, chunk: Chunk, k: nat, provider: string)
    requires FreshIds(mint, live.Keys)
    ensures var now := PlaceAll(live, mint, chunk, k);
      |HeldWith(now, provider)| == |HeldWith(live, provider)| + if provider == chunk.provider then k else 0
    ensures var now := PlaceAll(live, mint, chunk, k); forall id :: id in live ==> id in now && now[id] == live[id]
  {
    MintedIsNew(mint, live.Keys, k);
    PlacedWith(live, mint, chunk, k, provider);
    PlacedKeys(live, mint, chunk, k);
    MintedCount(mint, k);
    assert HeldWith(live, provider) !! Minted(mint, k);
  }

  // ---------------------------------------------------------------------------
  // Shrinking
  // ---------------------------------------------------------------------------

  datatype VirtualNode = VirtualNode(name: string, reservation: string)

  /** Each name's reservation; a name listed twice counts as its last row. */
  function ByName(nodes: seq<VirtualNode>): map<string, string> {
    if nodes == [] then map[]
    else
      var last := nodes[|nodes| - 1];
      ByName(nodes[..|nodes| - 1])[last.name := last.reservation]
  }

  /** Row `i` is the last one with its name. */
  predicate LastNamed(nodes: seq<VirtualNode>, i: int) {
    0 <= i < |nodes| && forall k :: i < k < |nodes| ==> nodes[k].name != nodes[i].name
  }

  lemma {:induction false} ByNameAt(nodes: seq<VirtualNode>, i: nat)
    requires LastNamed(nodes, i)
    ensures nodes[i].name in ByName(nodes) && ByName(nodes)[nodes[i].name] == nodes[i].reservation
  {
    if i < |nodes| - 1 {
      var front := nodes[..|nodes| - 1];
      assert nodes[|nodes| - 1].name != nodes[i].name;
      assert forall k :: i < k < |front| ==> front[k] == nodes[k];
      ByNameAt(front, i);
    }
  }

  lemma {:induction false} ByNameHas(nodes: seq<VirtualNode>, name: string) returns (i: nat)
    requires name in ByName(nodes)
    ensures LastNamed(nodes, i) && nodes[i].name == name
  {
    i := |nodes| - 1;
    if nodes[i].name != name {
      i := ByNameHas(nodes[..|nodes| - 1], name);
    }
  }

  /** The index maps exactly the names, each to the reservation of its last row. */
  lemma ByNameIsLast(nodes: seq<VirtualNode>)
    ensures forall i :: LastNamed(nodes, i) ==>
      nodes[i].name in ByName(nodes) && ByName(nodes)[nodes[i].name] == nodes[i].reservation
    ensures forall name :: name in ByName(nodes) ==> exists i :: LastNamed(nodes, i) && nodes[i].name == name
  {
    forall i | LastNamed(nodes, i)
      ensures nodes[i].name in ByName(nodes) && ByName(nodes)[nodes[i].name] == nodes[i].reservation
    {
      ByNameAt(nodes, i);
    }
    forall name | name in ByName(nodes)
      ensures exists i :: LastNamed(nodes, i) && nodes[i].name == name
    {
      var i := ByNameHas(nodes, name);
    }
  }

  /** The reservations of the named nodes, row by row. */
  ghost function OfRows(nodes: seq<VirtualNode>, names: seq<Option<string>>): set<string> {
    set i | 0 <= i < |nodes| && LastNamed(nodes, i) && Some(nodes[i].name) in names :: nodes[i].reservation
  }

  lemma WantedIsOfRows(nodes: seq<VirtualNode>, names: seq<Option<string>>)
    ensures Wanted(nodes, names) == OfRows(nodes, names)
  {
    ByNameIsLast(nodes);
    forall x | x in Wanted(nodes, names)
      ensures x in OfRows(nodes, names)
    {
      var n :| n in names && n.Some? && n.value in ByName(nodes) && x == ByName(nodes)[n.value];
      var i :| LastNamed(nodes, i) && nodes[i].name == n.value;
      assert Some(nodes[i].name) in names;
    }
    forall x | x in OfRows(nodes, names)
      ensures x in Wanted(nodes, names)
    {
      var i :| 0 <= i < |nodes| && LastNamed(nodes, i) && Some(nodes[i].name) in names && x == nodes[i].reservation;
      assert x == ByName(nodes)[nodes[i].name];
    }
  }

  /** An entry can be released exactly when it names a node and the node's last row has a
      reservation. */
  lemma MappedMeans(nodes: seq<VirtualNode>, n: Option<string>)
    ensures Mapped(nodes, n) <==>
      n.Some? && n.value != "" &&
      exists i :: LastNamed(nodes, i) && nodes[i].name == n.value && nodes[i].reservation != ""
  {
    ByNameIsLast(nodes);
  }

  /** The entry names a node that can be mapped to a reservation; `None` is a nil entry. */
  predicate Mapped(nodes: seq<VirtualNode>, n: Option<string>) {
    n.Some? && n.value != "" && n.value in ByName(nodes) && ByName(nodes)[n.value] != ""
  }

  predicate FirstUnmapped(nodes: seq<VirtualNode>, names: seq<Option<string>>, i: int) {
    0 <= i < |names| && !Mapped(nodes, names[i]) && forall k :: 0 <= k < i ==> Mapped(nodes, names[k])
  }

  function WhyUnmapped(nodes: seq<VirtualNode>, n: Option<string>): Code {
    if n.None? || n.value == "" then InvalidArgument
    else if n.value !in ByName(nodes) then NotFound
    else FailedPrecondition
  }

  lemma {:induction false} EveryNameIsKey(nodes: seq<VirtualNode>, i: nat)
    requires i < |nodes|
    ensures nodes[i].name in ByName(nodes)
  {
    if i < |nodes| - 1 {
      EveryNameIsKey(nodes[..|nodes| - 1], i);
    }
  }

  /** What the code of an entry that does not map says: the entry names nothing, no row has
      the name, or its last row has no reservation. */
  lemma UnmappedTells(nodes: seq<VirtualNode>, n: Option<string>)
    requires !Mapped(nodes, n)
    ensures match WhyUnmapped(nodes, n)
      case InvalidArgument => n.None? || n.value == ""
      case NotFound => n.Some? && n.value != "" && forall i :: 0 <= i < |nodes| ==> nodes[i].name != n.value
      case FailedPrecondition =>
        n.Some? && n.value != "" &&
        exists i :: LastNamed(nodes, i) && nodes[i].name == n.value && nodes[i].reservation == ""
      case AgentError => false
  {
    if WhyUnmapped(nodes, n) == NotFound {
      forall i: nat | i < |nodes|
        ensures nodes[i].name != n.value
      {
        EveryNameIsKey(nodes, i);
      }
    } else if WhyUnmapped(nodes, n) == FailedPrecondition {
      var i := ByNameHas(nodes, n.value);
      ByNameAt(nodes, i);
    }
  }

  /** The distinct reservations of the named nodes. */
  function Wanted(nodes: seq<VirtualNode>, names: seq<Option<string>>): set<string> {
    set n | n in names && n.Some? && n.value in ByName(nodes) :: ByName(nodes)[n.value]
  }

  method BuildByName(nodes: seq<VirtualNode>) returns (m: map<string, string>)
    ensures m == ByName(nodes)
  {
    m := map[];
    for i := 0 to |nodes|
      invariant m == ByName(nodes[..i])
    {
      assert nodes[..i + 1][..i] == nodes[..i];
      m := m[nodes[i].name := nodes[i].reservation];
    }
    assert nodes[..|nodes|] == nodes;
  }

  /** Maps every name before anything is released. */
  method Resolve(nodes: seq<VirtualNode>, names: seq<Option<string>>) returns (r: Option<Code>, releasing: set<string>)
    ensures r.None? <==> forall n :: n in names ==> Mapped(nodes, n)
    ensures r.None? ==> releasing == Wanted(nodes, names)
    ensures r.Some? ==> exists i :: FirstUnmapped(nodes, names, i) && r.value == WhyUnmapped(nodes, names[i])
  {
    var m := BuildByName(nodes);
    releasing := {};
    for i := 0 to |names|
      invariant forall k :: 0 <= k < i ==> Mapped(nodes, names[k])
      invariant releasing == Wanted(nodes, names[..i])
    {
      var n := names[i];
      assert n in names;
      if n.None? || n.value == "" {
        assert FirstUnmapped(nodes, names, i);
        return Some(InvalidArgument), {};
      }
      if n.value !in m {
        assert FirstUnmapped(nodes, names, i);
        return Some(NotFound), {};
      }
      if m[n.value] == "" {
        assert FirstUnmapped(nodes, names, i);
        return Some(FailedPrecondition), {};
      }
      assert names[..i + 1] == names[..i] + [n];
      releasing := releasing + {m[n.value]};
      assert releasing == Wanted(nodes, names[..i + 1]);
    }
    assert names[..|names|] == names;
    return None, releasing;
  }

  lemma OneMoreGone(live: map<string, Chunk>, releasing: set<string>, todo: set<string>, id: string)
    requires todo <= releasing && id in todo
    ensures releasing - (todo - {id}) == releasing - todo + {id} <= releasing
    ensures live - (releasing - todo) - {id} == live - (releasing - todo + {id})
  {
  }

  lemma GoneGrows(gone: set<string>, keys: set<string>, id: string)
    requires id !in gone
    ensures |(gone + {id}) * keys| == |gone * keys| + if id in keys then 1 else 0
  {
    assert (gone + {id}) * keys == gone * keys + if id in keys then {id} else {};
  }

  /** Releases in any order; stops at the first DELETE that fails. */
  method ReleaseAll(l: Ledger, releasing: set<string>, answer: string -> Answer)
    returns (r: Option<Code>, ghost gone: set<string>)
    requires l.Valid()
    modifies l
    ensures l.Valid() && l.placed == old(l.placed) && l.used == old(l.used) && l.pending == old(l.pending)
    ensures l.live == old(l.live) - gone && l.released == old(l.released) + |gone * old(l.live).Keys|
    ensures Shrunk(releasing, answer, r, gone)
  {
    var todo := releasing;
    gone := {};
    while todo != {}
      invariant todo <= releasing && gone == releasing - todo
      invariant l.Valid() && l.placed == old(l.placed) && l.used == old(l.used) && l.pending == old(l.pending)
      invariant l.live == old(l.live) - gone
      invariant l.released == old(l.released) + |gone * old(l.live).Keys|
      invariant forall id :: id in gone ==> answer(id) == Done
      decreases todo
    {
      var id :| id in todo;
      OneMoreGone(old(l.live), releasing, todo, id);
      var ok := l.Delete(id, answer(id));
      if Acts(answer(id)) {
        GoneGrows(gone, old(l.live).Keys, id);
        gone := gone + {id};
      }
      if !ok {
        return Some(AgentError), gone;
      }
      todo := todo - {id};
    }
    return None, gone;
  }

  predicate ShrinkIsResolved(agent: bool, id: string, names: seq<Option<string>>, nodes: Option<seq<VirtualNode>>) {
    id != "" && names != [] && agent && nodes.Some? && forall n :: n in names ==> Mapped(nodes.value, n)
  }

  /** The code a request is refused with before anything is released. */
  ghost predicate RefusedWith(agent: bool, id: string, names: seq<Option<string>>, nodes: Option<seq<VirtualNode>>,
                              c: Code)
  {
    if id == "" || names == [] then c == InvalidArgument
    else if !agent then c == FailedPrecondition
    else if nodes.None? then c == AgentError
    else exists i :: FirstUnmapped(nodes.value, names, i) && c == WhyUnmapped(nodes.value, names[i])
  }

  method CheckRequest(agent: bool, id: string, names: seq<Option<string>>, nodes: Option<seq<VirtualNode>>)
    returns (r: Option<Code>, releasing: set<string>)
    ensures r.None? <==> ShrinkIsResolved(agent, id, names, nodes)
    ensures r.None? ==> releasing == Wanted(nodes.value, names)
    ensures r.Some? ==> RefusedWith(agent, id, names, nodes, r.value)
  {
    if id == "" || |names| == 0 {
      return Some(InvalidArgument), {};
    }
    if !agent {
      return Some(FailedPrecondition), {};
    }
    if nodes.None? {
      return Some(AgentError), {};
    }
    r, releasing := Resolve(nodes.value, names);
  }

  /** Nothing is released unless every entry maps to a reservation; `gone` is what was. */
  method NodeGroupDeleteNodes(l: Ledger, agent: bool, id: string, names: seq<Option<string>>,
                              nodes: Option<seq<VirtualNode>>, answer: string -> Answer)
    returns (r: Option<Code>, ghost gone: set<string>)
    requires l.Valid()
    modifies l
    ensures l.Valid() && l.placed == old(l.placed) && l.used == old(l.used) && l.pending == old(l.pending)
    ensures l.live == old(l.live) - gone && l.released == old(l.released) + |gone * old(l.live).Keys|
    ensures !ShrinkIsResolved(agent, id, names, nodes) ==>
      gone == {} && r.Some? && RefusedWith(agent, id, names, nodes, r.value)
    ensures ShrinkIsResolved(agent, id, names, nodes) ==> Shrunk(Wanted(nodes.value, names), answer, r, gone)
    ensures r.None? ==> nodes.Some? && gone == OfRows(nodes.value, names) && gone != {}
    ensures r.Some? && nodes.Some? ==> gone <= OfRows(nodes.value, names)
  {
    if nodes.Some? {
      WantedIsOfRows(nodes.value, names);
    }
    gone := {};
    var bad, releasing := CheckRequest(agent, id, names, nodes);
    if nodes.Some? && bad.None? {
      assert names[0] in names && Mapped(nodes.value, names[0]);
      assert ByName(nodes.value)[names[0].value] in Wanted(nodes.value, names);
    }
    if bad.Some? {
      assert l.live - {} == l.live && {} * l.live.Keys == {};
      return bad, {};
    }
    r, gone := ReleaseAll(l, releasing, answer);
  }

  /** Everything wanted is gone, or some of it and an error for the DELETE that failed. */
  ghost predicate Shrunk(wanted: set<string>, answer: string -> Answer, r: Option<Code>, gone: set<string>) {
    && gone <= wanted
    && (r.None? <==> forall id :: id in wanted ==> answer(id) == Done)
    && (r.None? ==> gone == wanted)
    && (r.Some? ==> r.value == AgentError)
  }

  // ---------------------------------------------------------------------------
  // Runs of scaling calls
  // ---------------------------------------------------------------------------

  /** A call, or a POST or DELETE of an earlier one that takes effect only now. */
  datatype Call =
    | Grow(agent: bool, list: Option<seq<NodeGroup>>, id: string, delta: int, post: nat -> Answer)
    | Shrink(agent: bool, id: string, names: seq<Option<string>>, nodes: Option<seq<VirtualNode>>,
             delete: string -> Answer)
    | Arrive(id: string)
    | Depart(id: string)

  /** What one call did to the ledger. */
  datatype Effect = Effect(placed: nat, released: nat, ok: bool)

  ghost predicate EffectOk(c: Call, e: Effect) {
    match c
    case Grow(_, _, _, delta, _) =>
      e.released == 0 && e.placed <= (if delta > 0 then delta else 0) && (e.ok ==> e.placed == delta > 0)
    case Shrink(_, _, names, nodes, _) =>
      && e.placed == 0 && (nodes.Some? ==> e.released <= |Wanted(nodes.value, names)|)
      && (nodes.None? ==> e.released == 0)
    case Arrive(_) => e.placed <= 1 && e.released == 0
    case Depart(_) => e.placed == 0 && e.released <= 1
  }

  function PlacedIn(es: seq<Effect>): nat {
    if es == [] then 0 else PlacedIn(es[..|es| - 1]) + es[|es| - 1].placed
  }

  function ReleasedIn(es: seq<Effect>): nat {
    if es == [] then 0 else ReleasedIn(es[..|es| - 1]) + es[|es| - 1].released
  }

  /** One call, with ids not used before. */
  method RunCall(l: Ledger, mint: nat -> string, next: nat, c: Call) returns (next': nat, ghost e: Effect)
    requires l.Valid() && FreshFrom(mint, l.used, next) && forall a: nat, b: nat :: Apart(mint, a, b)
    modifies l
    ensures l.Valid() && FreshFrom(mint, l.used, next') && EffectOk(c, e)
    ensures |l.live.Keys| == |old(l.live).Keys| + e.placed - e.released
  {
    ghost var placed, released := l.placed, l.released;
    next' := next;
    match c
    case Grow(_, _, _, _, _) =>
      next', e := RunGrow(l, mint, next, c);
    case Shrink(_, _, _, _, _) =>
      e := RunShrink(l, c);
    case Arrive(id) =>
      l.Land(id);
      e := Effect(l.placed - placed, 0, true);
    case Depart(id) =>
      var ok := l.Delete(id, Done);
      e := Effect(0, l.released - released, true);
  }

  method RunGrow(l: Ledger, mint: nat -> string, next: nat, c: Call) returns (next': nat, ghost e: Effect)
    requires l.Valid() && FreshFrom(mint, l.used, next) && (forall a: nat, b: nat :: Apart(mint, a, b)) && c.Grow?
    modifies l
    ensures l.Valid() && FreshFrom(mint, l.used, next') && EffectOk(c, e)
    ensures |l.live.Keys| == |old(l.live).Keys| + e.placed - e.released
  {
    ghost var placed := l.placed;
    var ids := (i: nat) => mint(next + i);
    ShiftIsFresh(mint, next, ids, l.used);
    var r, k, group := NodeGroupIncreaseSize(l, c.agent, c.list, c.id, c.delta, ids, c.post);
    next' := next + if c.delta > 0 then c.delta else 0;
    ShiftBack(mint, next, ids, l.used, next' - next);
    e := Effect(l.placed - placed, 0, r.None?);
  }

  method RunShrink(l: Ledger, c: Call) returns (ghost e: Effect)
    requires l.Valid() && c.Shrink?
    modifies l
    ensures l.Valid() && l.used == old(l.used) && EffectOk(c, e)
    ensures |l.live.Keys| == |old(l.live).Keys| + e.placed - e.released
  {
    ghost var released, live := l.released, l.live.Keys;
    var r, gone := NodeGroupDeleteNodes(l, c.agent, c.id, c.names, c.nodes, c.delete);
    e := Effect(0, l.released - released, r.None?);
    if c.nodes.Some? {
      SubsetSize(gone * live, Wanted(c.nodes.value, c.names));
    }
  }

  lemma ShiftIsFresh(mint: nat -> string, next: nat, ids: nat -> string, used: set<string>)
    requires FreshFrom(mint, used, next) && (forall a: nat, b: nat :: Apart(mint, a, b))
    requires forall i: nat :: ids(i) == mint(next + i)
    ensures FreshIds(ids, used)
  {
    forall i: nat, j: nat
      ensures Apart(ids, i, j)
    {
      assert Apart(mint, next + i, next + j);
    }
    forall i: nat
      ensures Unused(ids, used, i)
    {
      assert Unused(mint, used, next + i);
    }
  }

  lemma ShiftBack(mint: nat -> string, next: nat, ids: nat -> string, used: set<string>, n: nat)
    requires FreshFrom(ids, used, n) && forall i: nat :: ids(i) == mint(next + i)
    ensures FreshFrom(mint, used, next + n)
  {
    forall j: nat | j >= next + n
      ensures Unused(mint, used, j)
    {
      assert Unused(ids, used, j - next);
    }
  }

  lemma OneMoreEffect(es: seq<Effect>, e: Effect)
    ensures PlacedIn(es + [e]) == PlacedIn(es) + e.placed && ReleasedIn(es + [e]) == ReleasedIn(es) + e.released
  {
    assert (es + [e])[..|es|] == es;
  }

  /** Along any run of calls, with any answers, the reserved chunks are those there were,
      plus those placed, minus those released. */
  method RunCalls(l: Ledger, mint: nat -> string, calls: seq<Call>) returns (ghost effects: seq<Effect>)
    requires l.Valid() && FreshIds(mint, l.used)
    modifies l
    ensures l.Valid()
    ensures |effects| == |calls| && forall i :: 0 <= i < |calls| ==> EffectOk(calls[i], effects[i])
    ensures |l.live.Keys| == |old(l.live).Keys| + PlacedIn(effects) - ReleasedIn(effects)
  {
    effects := [];
    var next := 0;
    for i := 0 to |calls|
      invariant l.Valid() && FreshFrom(mint, l.used, next)
      invariant |effects| == i && forall k :: 0 <= k < i ==> EffectOk(calls[k], effects[k])
      invariant |l.live.Keys| == |old(l.live).Keys| + PlacedIn(effects) - ReleasedIn(effects)
    {
      ghost var e;
      next, e := RunCall(l, mint, next, calls[i]);
      OneMoreEffect(effects, e);
      effects := effects + [e];
    }
  }
}
