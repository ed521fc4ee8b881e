/**
 From phase A to phase B. Phase B may start only when the capacity check passes; this
 module says what the check then guarantees about the reservations phase A made, and
 that the names of the two phases never meet.
 */
module PhaseTransition {
  import opened Sets
  import opened Views
  import opened Capacity
  import opened ReservationIds
  import opened ReserveProtocol

  // ---------------------------------------------------------------------------
  // The harness's own names
  // ---------------------------------------------------------------------------

  ghost predicate NamedBy(run: string, phase: string, id: string) {
    exists c: string, k: nat :: id == MakeReservationID(run, phase, c, k)
  }

  ghost function OwnerOf(run: string, phase: string, id: string): string {
    if NamedBy(run, phase, id) then
      var c, k: nat :| id == MakeReservationID(run, phase, c, k); c
    else ""
  }

  ghost function NumberOf(run: string, phase: string, id: string): nat {
    if NamedBy(run, phase, id) then
      var c, k: nat :| id == MakeReservationID(run, phase, c, k); k
    else 0
  }

  /** One phase of one run, starting on a given ledger. */
  ghost function HarnessConfig(run: string, phase: string, base: map<string, Entry>): Config {
    Config((c, k) => MakeReservationID(run, phase, c, k),
           id => OwnerOf(run, phase, id), id => NumberOf(run, phase, id), base)
  }

  lemma HarnessConfigIsWellFormed(run: string, phase: string, base: map<string, Entry>)
    requires IsPhase(phase)
    requires forall id :: id in base ==> !NamedBy(run, phase, id)
    ensures WellFormed(HarnessConfig(run, phase, base))
  {
    var cfg := HarnessConfig(run, phase, base);
    forall c: string, k: nat
      ensures cfg.owner(cfg.name(c, k)) == c && cfg.number(cfg.name(c, k)) == k
    {
      var id := MakeReservationID(run, phase, c, k);
      assert NamedBy(run, phase, id);
      var c', k': nat :| id == MakeReservationID(run, phase, c', k') && c' == OwnerOf(run, phase, id);
      IdsInjective(run, phase, c, k, phase, c', k');
      var c'', k'': nat :| id == MakeReservationID(run, phase, c'', k'') && k'' == NumberOf(run, phase, id);
      IdsInjective(run, phase, c, k, phase, c'', k'');
    }
    forall id | id in base
      ensures !IsName(cfg, id)
    {
      assert cfg.name(cfg.owner(id), cfg.number(id)) == MakeReservationID(run, phase, cfg.owner(id), cfg.number(id));
    }
  }

  /** Phase B can always be run on what phase A left: none of its ids is taken, so across
      both phases no id is posted with two different requests. */
  lemma SecondPhaseIsWellFormed(run: string, base: map<string, Entry>, s: State)
    requires forall id :: id in base ==> !NamedBy(run, PHASE_A, id) && !NamedBy(run, PHASE_B, id)
    requires Inv(HarnessConfig(run, PHASE_A, base), s)
    ensures WellFormed(HarnessConfig(run, PHASE_B, s.ledger))
  {
    var cfg := HarnessConfig(run, PHASE_A, base);
    forall id | id in s.ledger
      ensures !NamedBy(run, PHASE_B, id)
    {
      if id !in base {
        assert id in CreatedIds(cfg, s);
        assert Owns(cfg, s, cfg.owner(id), id);
        var c, k := cfg.owner(id), cfg.number(id);
        assert id == MakeReservationID(run, PHASE_A, c, k);
        forall c': string, k': nat
          ensures id != MakeReservationID(run, PHASE_B, c', k')
        {
          if id == MakeReservationID(run, PHASE_B, c', k') {
            IdsInjective(run, PHASE_A, c, k, PHASE_B, c', k');
          }
        }
      }
    }
    HarnessConfigIsWellFormed(run, PHASE_B, s.ledger);
  }

  // ---------------------------------------------------------------------------
  // What the Broker's list shows
  // ---------------------------------------------------------------------------

  /** A reservation holds its chunk until it is given back; a DELETE frees it at once. */
  predicate HoldsChunk(p: BrokerPhase) {
    p.Pending? || p.Peered?
  }

  /** Who made a reservation, and which group a provider's chunks are listed under. */
  datatype World = World(owner: string -> string, groupOf: string -> string, providerOf: string -> string)

  ghost predicate Consistent(w: World, cfg: Config) {
    && (forall p :: w.providerOf(w.groupOf(p)) == p)
    && (forall id :: IsName(cfg, id) ==> w.owner(id) == cfg.owner(id))
  }

  /** The chunks one consumer holds with one provider. The list a consumer gets counts
      these and nobody else's. */
  function HeldAt(w: World, ledger: map<string, Entry>, viewer: string, provider: string): set<string> {
    set id | id in ledger && w.owner(id) == viewer && ledger[id].target.provider == provider &&
             HoldsChunk(ledger[id].phase)
  }

  function Count(w: World, ledger: map<string, Entry>, viewer: string, group: string): nat {
    if w.groupOf(w.providerOf(group)) == group then |HeldAt(w, ledger, viewer, w.providerOf(group))| else 0
  }

  function CountFor(w: World, ledger: map<string, Entry>, viewer: string): string -> int {
    group => Count(w, ledger, viewer, group)
  }

  /** No count that `viewer` is shown differs from what it was when the phase began. */
  ghost predicate SameCounts(w: World, cfg: Config, s: State, viewer: string) {
    forall g :: Count(w, s.ledger, viewer, g) == Count(w, cfg.base, viewer, g)
  }

  /** A phase never takes a chunk away from what was held before it. */
  lemma PhaseOnlyAdds(w: World, cfg: Config, s: State, viewer: string, provider: string)
    requires BaseUntouched(cfg, s)
    ensures HeldAt(w, cfg.base, viewer, provider) <= HeldAt(w, s.ledger, viewer, provider)
    ensures |HeldAt(w, cfg.base, viewer, provider)| <= |HeldAt(w, s.ledger, viewer, provider)|
  {
    SubsetSize(HeldAt(w, cfg.base, viewer, provider), HeldAt(w, s.ledger, viewer, provider));
  }

  /** The reservations of one consumer that the phase made and that still hold a chunk. */
  function Leaks(w: World, cfg: Config, s: State, viewer: string): set<string> {
    set id | id in CreatedIds(cfg, s) && w.owner(id) == viewer && HoldsChunk(s.ledger[id].phase)
  }

  /** The groups that matter are listed: those with a chunk of `viewer` at the start were
      in the baseline, those with one now were in the baseline or are listed now. */
  ghost predicate ListedWhenHeld(w: World, cfg: Config, s: State, viewer: string,
                                 base: seq<NodeGroup>, now: seq<NodeGroup>)
  {
    && (forall g :: Count(w, cfg.base, viewer, g) > 0 ==> g in IdsOf(base))
    && (forall g :: Count(w, s.ledger, viewer, g) > 0 ==> g in IdsOf(base) + IdsOf(now))
  }

  function LeaksAt(w: World, cfg: Config, s: State, viewer: string, provider: string): set<string> {
    set id | id in Leaks(w, cfg, s, viewer) && s.ledger[id].target.provider == provider
  }

  /** Per provider, the count is what it was exactly when the phase leaked nothing there. */
  lemma SameCountAt(w: World, cfg: Config, s: State, viewer: string, p: string)
    requires BaseUntouched(cfg, s)
    ensures |HeldAt(w, s.ledger, viewer, p)| == |HeldAt(w, cfg.base, viewer, p)| <==>
      LeaksAt(w, cfg, s, viewer, p) == {}
  {
    var now, before := HeldAt(w, s.ledger, viewer, p), HeldAt(w, cfg.base, viewer, p);
    var leaks := LeaksAt(w, cfg, s, viewer, p);
    PhaseOnlyAdds(w, cfg, s, viewer, p);
    SubsetSize(before, now);
    assert now == before + leaks && before !! leaks;
    assert leaks == {} ==> now == before;
  }

  lemma SameCountsMeanNoLeak(w: World, cfg: Config, s: State, viewer: string)
    requires Consistent(w, cfg) && BaseUntouched(cfg, s)
    ensures SameCounts(w, cfg, s, viewer) <==> Leaks(w, cfg, s, viewer) == {}
  {
    if Leaks(w, cfg, s, viewer) == {} {
      forall g
        ensures Count(w, s.ledger, viewer, g) == Count(w, cfg.base, viewer, g)
      {
        SameCountAt(w, cfg, s, viewer, w.providerOf(g));
        assert LeaksAt(w, cfg, s, viewer, w.providerOf(g)) == {};
      }
    } else {
      var id :| id in Leaks(w, cfg, s, viewer);
      var p := s.ledger[id].target.provider;
      SameCountAt(w, cfg, s, viewer, p);
      assert id in LeaksAt(w, cfg, s, viewer, p);
      assert w.providerOf(w.groupOf(p)) == p;
      assert Count(w, s.ledger, viewer, w.groupOf(p)) != Count(w, cfg.base, viewer, w.groupOf(p));
    }
  }

  /** The check between the phases, read with `viewer`'s identity, passes exactly when no
      baseline group is missing and no reservation phase A made for `viewer` still holds a
      chunk. This covers every run of phase A, with every answer the Broker gave. */
  lemma CheckSeesOwnLeaks(w: World, cfg: Config, s: State, viewer: string,
                          base: seq<NodeGroup>, now: seq<NodeGroup>, want: Snapshot, got: Snapshot)
    requires Consistent(w, cfg) && Inv(cfg, s)
    requires Shows(base, CountFor(w, cfg.base, viewer)) && Shows(now, CountFor(w, s.ledger, viewer))
    requires ListedWhenHeld(w, cfg, s, viewer, base, now)
    requires want.total == SumReserved(base) && (set id | id in want.ids) == IdsOf(base)
    requires got.total == SumReserved(now) && (set id | id in got.ids) == IdsOf(now)
    ensures MatchesBaseline(got, want) <==>
      IdsOf(base) <= IdsOf(now) && Leaks(w, cfg, s, viewer) == {}
  {
    var before, after := CountFor(w, cfg.base, viewer), CountFor(w, s.ledger, viewer);
    forall g
      ensures 0 <= before(g) <= after(g)
    {
      PhaseOnlyAdds(w, cfg, s, viewer, w.providerOf(g));
    }
    assert (forall g :: after(g) == before(g)) <==> SameCounts(w, cfg, s, viewer) by {
      assert forall g :: after(g) == Count(w, s.ledger, viewer, g) && before(g) == Count(w, cfg.base, viewer, g);
    }
    MatchMeansNoLeak(base, now, want, got, before, after);
    SameCountsMeanNoLeak(w, cfg, s, viewer);
  }

  // ---------------------------------------------------------------------------
  // Waiting for the check to pass
  // ---------------------------------------------------------------------------

  /** A list read in state `s` with `viewer`'s identity, to be held against `base`. */
  ghost predicate ReadIn(w: World, cfg: Config, s: State, viewer: string, base: seq<NodeGroup>, now: seq<NodeGroup>) {
    && Inv(cfg, s)
    && Shows(now, CountFor(w, s.ledger, viewer))
    && ListedWhenHeld(w, cfg, s, viewer, base, now)
  }

  /** The groups of the baseline are back, and nothing made for `viewer` holds a chunk. */
  ghost predicate Clean(w: World, cfg: Config, s: State, viewer: string, base: seq<NodeGroup>, now: seq<NodeGroup>) {
    IdsOf(base) <= IdsOf(now) && Leaks(w, cfg, s, viewer) == {}
  }

  lemma MatchIsClean(w: World, cfg: Config, s: State, viewer: string, base: seq<NodeGroup>, want: Snapshot,
                     lists: nat -> Option<seq<NodeGroup>>, k: nat)
    requires Consistent(w, cfg) && Shows(base, CountFor(w, cfg.base, viewer))
    requires want.total == SumReserved(base) && (set id | id in want.ids) == IdsOf(base)
    requires lists(k).Some? && ReadIn(w, cfg, s, viewer, base, lists(k).value)
    ensures MatchesAt(lists, want, k) <==> Clean(w, cfg, s, viewer, base, lists(k).value)
  {
    var now := lists(k).value;
    var got := Snapshot(SumReserved(now), map[], seq(|now|, i requires 0 <= i < |now| => now[i].id));
    forall id
      ensures id in got.ids <==> id in IdsOf(now)
    {
      if id in IdsOf(now) {
        var i :| 0 <= i < |now| && now[i].id == id;
        assert got.ids[i] == id;
      }
    }
    assert (set id | id in got.ids) == IdsOf(now);
    CheckSeesOwnLeaks(w, cfg, s, viewer, base, now, want, got);
  }

  /** The wait between the phases, with the baseline read before phase A. `states(k)` is
      where the Broker and the harness stand at the k-th poll. When the wait succeeds, no
      reservation phase A made for `viewer` holds a chunk at that poll; and undisturbed it
      succeeds exactly when there is such a poll in time. */
  method AwaitPhaseEnd(base: seq<NodeGroup>, lists: nat -> Option<seq<NodeGroup>>, cancelled: nat -> bool,
                       deadline: nat, ghost w: World, ghost cfg: Config, ghost states: nat -> State,
                       ghost viewer: string)
    returns (r: WaitResult)
    requires Consistent(w, cfg) && Shows(base, CountFor(w, cfg.base, viewer))
    requires forall k: nat :: lists(k).Some? ==> ReadIn(w, cfg, states(k), viewer, base, lists(k).value)
    ensures r.Back? ==> exists k: nat ::
      k <= deadline && lists(k).Some? && Clean(w, cfg, states(k), viewer, base, lists(k).value)
    ensures (forall k: nat :: k <= deadline ==> lists(k).Some? && !cancelled(k)) ==>
      (r.Back? <==> exists k: nat ::
         k <= deadline && lists(k).Some? && Clean(w, cfg, states(k), viewer, base, lists(k).value))
  {
    var want := ReadFederationCapacity(base);
    r := WaitForFederationCapacity(lists, cancelled, deadline, want);
    forall k: nat | lists(k).Some?
      ensures MatchesAt(lists, want, k) <==> Clean(w, cfg, states(k), viewer, base, lists(k).value)
    {
      MatchIsClean(w, cfg, states(k), viewer, base, want, lists, k);
    }
  }

  /** The run in which consumer `c` asks for a chunk, never hears back, and stops. */
  function LostReply(c: string, next: Target): seq<Event> {
    [Begin(c), Choose(c, next), Number(c), PostLost(c, false), Join]
  }

  /** Where that run stands after `k` steps. */
  function LostReplyAt(cfg: Config, c: string, next: Target, k: nat): State {
    var id, s := cfg.name(c, 0), Init(cfg);
    var lost := State(cfg.base[id := Entry(next, Pending)], map[], map[c := 1], map[c := Idle], {},
                      map[id := ReserveFailed], Running);
    if k == 0 then s
    else if k == 1 then s.(pc := map[c := Reading])
    else if k == 2 then s.(pc := map[c := Numbering(next)])
    else if k == 3 then s.(seqNo := map[c := 1], pc := map[c := Posting(id, next)])
    else if k == 4 then lost
    else lost.(mode := Cleaning({}))
  }

  lemma LostReplyStep(cfg: Config, c: string, next: Target, k: nat)
    requires k < 5 && cfg.name(c, 0) !in cfg.base
    ensures Enabled(LostReplyAt(cfg, c, next, k), LostReply(c, next)[k])
    ensures Apply(cfg, LostReplyAt(cfg, c, next, k), LostReply(c, next)[k]) == LostReplyAt(cfg, c, next, k + 1)
  {
    var s := LostReplyAt(cfg, c, next, k);
    if k == 4 {
      assert s.active.Keys == {};
    }
  }

  lemma {:induction false} LostReplyRuns(cfg: Config, c: string, next: Target, k: nat)
    requires k <= 5 && cfg.name(c, 0) !in cfg.base
    ensures ValidRun(cfg, LostReplyAt(cfg, c, next, k), LostReply(c, next)[k..])
    ensures Run(cfg, LostReplyAt(cfg, c, next, k), LostReply(c, next)[k..]) == LostReplyAt(cfg, c, next, 5)
    decreases 5 - k
  {
    if k < 5 {
      LostReplyStep(cfg, c, next, k);
      LostReplyRuns(cfg, c, next, k + 1);
      RunStep(cfg, LostReplyAt(cfg, c, next, k), LostReply(c, next), k);
    }
  }

  lemma RunStep(cfg: Config, s: State, es: seq<Event>, k: nat)
    requires k < |es| && Enabled(s, es[k]) && ValidRun(cfg, Apply(cfg, s, es[k]), es[k + 1..])
    ensures ValidRun(cfg, s, es[k..])
    ensures Run(cfg, s, es[k..]) == Run(cfg, Apply(cfg, s, es[k]), es[k + 1..])
  {
    assert es[k..][0] == es[k] && es[k..][1..] == es[k + 1..];
  }

  /** It does not cover the others: the run above leaks a chunk, and yet no count that
      `viewer` is shown differs from what it was before the phase. */
  lemma OthersLeaksAreInvisible(w: World, cfg: Config, viewer: string, c: string, next: Target)
    requires Consistent(w, cfg) && WellFormed(cfg) && c != viewer
    ensures ValidRun(cfg, Init(cfg), LostReply(c, next))
    ensures var s := Run(cfg, Init(cfg), LostReply(c, next));
      && s.mode == Cleaning({})
      && Leaks(w, cfg, s, c) == {cfg.name(c, 0)}
      && SameCounts(w, cfg, s, viewer)
  {
    var id := cfg.name(c, 0);
    assert IsName(cfg, id) && w.owner(id) == c;
    LostReplyRuns(cfg, c, next, 0);
    assert LostReply(c, next)[0..] == LostReply(c, next);
    var s := Run(cfg, Init(cfg), LostReply(c, next));
    assert CreatedIds(cfg, s) == {id};
    SameCountsMeanNoLeak(w, cfg, s, viewer);
    assert Leaks(w, cfg, s, viewer) == {};
  }
}
