/**
 The invariant of the reserve phase is kept by every step, hence by every run.
 */
module ReserveInvariant {
  import opened ReserveProtocol

  // ---------------------------------------------------------------------------
  // Ids belong to one consumer
  // ---------------------------------------------------------------------------

  /** The number a consumer takes next has never named a reservation. */
  lemma NextIdIsFresh(cfg: Config, s: State, c: string)
    requires WellFormed(cfg) && Inv(cfg, s)
    ensures cfg.name(c, SeqOf(s, c)) !in s.ledger
  {
    var id := cfg.name(c, SeqOf(s, c));
    assert cfg.owner(id) == c && cfg.number(id) == SeqOf(s, c);
    assert id in CreatedIds(cfg, s) ==> Owns(cfg, s, cfg.owner(id), id);
  }

  /** The id a consumer's program counter or active entry names is its own. */
  lemma NamedIsOwned(cfg: Config, s: State, c: string)
    requires WellFormed(cfg) && HeldOk(cfg, s, c) && PcOk(cfg, s, c)
    ensures c in s.active ==> Owns(cfg, s, c, s.active[c].id)
    ensures InFlight(PcOf(s, c)) || PcOf(s, c).Posting? ==> Owns(cfg, s, c, PcOf(s, c).id)
  {
  }

  // ---------------------------------------------------------------------------
  // A step of one consumer leaves the others alone
  // ---------------------------------------------------------------------------

  /** `s'` differs from `s` only in what belongs to consumer `c`. */
  ghost predicate LocalTo(cfg: Config, s: State, s': State, c: string) {
    && s'.mode == s.mode
    && (forall d :: d != c ==> PcOf(s', d) == PcOf(s, d))
    && (forall d :: d != c ==> SeqOf(s', d) == SeqOf(s, d))
    && SeqOf(s', c) >= SeqOf(s, c)
    && (forall d :: d != c ==> (d in s'.active <==> d in s.active))
    && (forall d :: d != c && d in s.active ==> s'.active[d] == s.active[d])
    && (forall id :: id in s.ledger ==> id in s'.ledger)
    && (forall id :: id in s'.ledger && !Owns(cfg, s', c, id) ==> id in s.ledger && s'.ledger[id] == s.ledger[id])
  }

  lemma OtherKeeps(cfg: Config, s: State, s': State, c: string, d: string)
    requires WellFormed(cfg) && LocalTo(cfg, s, s', c) && d != c
    requires HeldOk(cfg, s, d) && PcOk(cfg, s, d)
    ensures HeldOk(cfg, s', d) && PcOk(cfg, s', d)
  {
    NamedIsOwned(cfg, s, d);
    assert SeqOf(s', d) == SeqOf(s, d) && PcOf(s', d) == PcOf(s, d);
  }

  lemma CreatedKeep(cfg: Config, s: State, s': State, c: string)
    requires WellFormed(cfg) && CreatedAreOwned(cfg, s) && BaseUntouched(cfg, s) && LocalTo(cfg, s, s', c)
    ensures BaseUntouched(cfg, s') && CreatedAreOwned(cfg, s')
  {
    forall id | id in CreatedIds(cfg, s')
      ensures Owns(cfg, s', cfg.owner(id), id)
    {
      if !Owns(cfg, s', c, id) {
        assert id in CreatedIds(cfg, s);
        assert Owns(cfg, s, cfg.owner(id), id);
      }
    }
  }

  /** What is left to check of a local step is the acting consumer and the partition. */
  lemma LocalStepKeeps(cfg: Config, s: State, s': State, c: string)
    requires WellFormed(cfg) && Inv(cfg, s) && LocalTo(cfg, s, s', c)
    requires HeldOk(cfg, s', c) && PcOk(cfg, s', c) && ModeOk(s')
    requires Partitioned(cfg, s') && ReleasedAreFree(s')
    ensures Inv(cfg, s')
  {
    CreatedKeep(cfg, s, s', c);
    forall d
      ensures HeldOk(cfg, s', d) && PcOk(cfg, s', d)
    {
      if d != c {
        assert HeldOk(cfg, s, d) && PcOk(cfg, s, d);
        OtherKeeps(cfg, s, s', c, d);
      }
    }
  }

  // ---------------------------------------------------------------------------
  // How the sets of active and in-flight ids move
  // ---------------------------------------------------------------------------

  /** The in-flight ids of everyone but `c`. */
  function OtherFlights(s: State, c: string): set<string> {
    set d | d in s.pc && d != c && InFlight(s.pc[d]) :: s.pc[d].id
  }

  function OtherActives(s: State, c: string): set<string> {
    set d | d in s.active && d != c && StillActive(s, d) :: s.active[d].id
  }

  function OwnFlight(s: State, c: string): set<string> {
    if InFlight(PcOf(s, c)) then {PcOf(s, c).id} else {}
  }

  function OwnActive(s: State, c: string): set<string> {
    if StillActive(s, c) then {s.active[c].id} else {}
  }

  lemma SplitSets(s: State, c: string)
    ensures FlightIds(s) == OtherFlights(s, c) + OwnFlight(s, c)
    ensures ActiveIds(s) == OtherActives(s, c) + OwnActive(s, c)
  {
  }

  lemma OtherSetsKeep(cfg: Config, s: State, s': State, c: string)
    requires LocalTo(cfg, s, s', c)
    ensures OtherFlights(s', c) == OtherFlights(s, c)
    ensures OtherActives(s', c) == OtherActives(s, c)
  {
    forall d | d != c
      ensures (d in s'.pc && InFlight(s'.pc[d])) <==> (d in s.pc && InFlight(s.pc[d]))
      ensures d in s.pc && InFlight(s.pc[d]) ==> s'.pc[d] == s.pc[d]
      ensures StillActive(s', d) <==> StillActive(s, d)
    {
      assert PcOf(s', d) == PcOf(s, d);
    }
  }

  /** Nobody else has `c`'s ids in flight or active. */
  lemma OthersHoldOtherIds(cfg: Config, s: State, c: string, id: string)
    requires WellFormed(cfg) && cfg.owner(id) == c
    requires forall d :: HeldOk(cfg, s, d)
    requires forall d :: PcOk(cfg, s, d)
    ensures id !in OtherFlights(s, c) && id !in OtherActives(s, c)
  {
    forall d | d != c && (d in s.active || InFlight(PcOf(s, d)))
      ensures d in s.active ==> s.active[d].id != id
      ensures InFlight(PcOf(s, d)) ==> PcOf(s, d).id != id
    {
      assert HeldOk(cfg, s, d) && PcOk(cfg, s, d);
      NamedIsOwned(cfg, s, d);
    }
    assert forall d :: d in s.pc ==> PcOf(s, d) == s.pc[d];
  }

  /** One id of `c`, or none, changes class; everybody else's ids stay put. */
  lemma PartitionKeeps(cfg: Config, s: State, s': State, c: string, id: string)
    requires WellFormed(cfg) && Inv(cfg, s) && LocalTo(cfg, s, s', c)
    requires cfg.owner(id) == c
    requires CreatedIds(cfg, s') - {id} == CreatedIds(cfg, s) - {id}
    requires s'.released - {id} == s.released - {id}
    requires s'.orphaned.Keys - {id} == s.orphaned.Keys - {id}
    requires OwnFlight(s, c) <= {id} && OwnFlight(s', c) <= {id}
    requires OwnActive(s, c) <= {id} && OwnActive(s', c) <= {id}
    requires InOneClass(cfg, s', c, id)
    ensures Partitioned(cfg, s')
  {
    OthersHoldOtherIds(cfg, s, c, id);
    OtherSetsKeep(cfg, s, s', c);
    SplitSets(s, c);
    SplitSets(s', c);
    PartitionAlgebra(CreatedIds(cfg, s), OtherActives(s, c), OwnActive(s, c), OtherFlights(s, c), OwnFlight(s, c),
      s.released, s.orphaned.Keys, CreatedIds(cfg, s'), OwnActive(s', c), OwnFlight(s', c), s'.released,
      s'.orphaned.Keys, id);
  }

  /** `id` is created and in exactly one class, or is not created and in none. */
  predicate InOneClass(cfg: Config, s: State, c: string, id: string) {
    var a, f, r, o := id in OwnActive(s, c), id in OwnFlight(s, c), id in s.released, id in s.orphaned.Keys;
    && (id in CreatedIds(cfg, s) <==> a || f || r || o)
    && !(a && f) && !(a && r) && !(a && o) && !(f && r) && !(f && o) && !(r && o)
  }

  lemma PartitionAlgebra(all: set<string>, a: set<string>, a0: set<string>, f: set<string>, f0: set<string>,
                         r: set<string>, o: set<string>,
                         all': set<string>, a1: set<string>, f1: set<string>, r': set<string>, o': set<string>,
                         id: string)
    requires all == (a + a0) + (f + f0) + r + o
    requires (a + a0) !! (f + f0) && ((a + a0) + (f + f0)) !! r && ((a + a0) + (f + f0)) !! o && r !! o
    requires id !in a && id !in f && a0 <= {id} && f0 <= {id} && a1 <= {id} && f1 <= {id}
    requires all' - {id} == all - {id} && r' - {id} == r - {id} && o' - {id} == o - {id}
    requires id in all' <==> id in a1 || id in f1 || id in r' || id in o'
    requires !(id in a1 && id in f1) && !(id in a1 && id in r') && !(id in a1 && id in o')
    requires !(id in f1 && id in r') && !(id in f1 && id in o') && !(id in r' && id in o')
    ensures all' == (a + a1) + (f + f1) + r' + o'
    ensures (a + a1) !! (f + f1) && ((a + a1) + (f + f1)) !! r' && ((a + a1) + (f + f1)) !! o' && r' !! o'
  {
    forall x
      ensures x in all' <==> x in (a + a1) + (f + f1) + r' + o'
      ensures !(x in a + a1 && x in f + f1) && !(x in (a + a1) + (f + f1) && x in r')
      ensures !(x in (a + a1) + (f + f1) && x in o') && !(x in r' && x in o')
    {
      if x != id {
        assert x in all' <==> x in all' - {id};
        assert x in all <==> x in all - {id};
        assert x in r' <==> x in r' - {id};
        assert x in r <==> x in r - {id};
        assert x in o' <==> x in o' - {id};
        assert x in o <==> x in o - {id};
      }
    }
  }

  /** The id a step of `c` can be about. */
  function CurrentId(cfg: Config, s: State, c: string): string {
    var p := PcOf(s, c);
    if c in s.active then s.active[c].id
    else if InFlight(p) || p.Posting? then p.id
    else cfg.name(c, SeqOf(s, c))
  }

  /** All a step lemma needs to know about the acting consumer beforehand. */
  lemma Standing(cfg: Config, s: State, c: string)
    requires WellFormed(cfg) && Inv(cfg, s)
    ensures HeldOk(cfg, s, c) && PcOk(cfg, s, c)
    ensures !PcOf(s, c).Idle? ==> s.mode.Running?
    ensures cfg.owner(CurrentId(cfg, s, c)) == c && CurrentId(cfg, s, c) !in cfg.base
    ensures s.mode.Running? ==> InOneClass(cfg, s, c, CurrentId(cfg, s, c))
    ensures OwnActive(s, c) <= {CurrentId(cfg, s, c)} && OwnFlight(s, c) <= {CurrentId(cfg, s, c)}
    ensures cfg.name(c, SeqOf(s, c)) !in s.ledger
  {
    assert HeldOk(cfg, s, c) && PcOk(cfg, s, c);
    NamedIsOwned(cfg, s, c);
    NextIdIsFresh(cfg, s, c);
    assert c !in s.pc ==> PcOf(s, c).Idle?;
    OthersHoldOtherIds(cfg, s, c, CurrentId(cfg, s, c));
    SplitSets(s, c);
  }

  /** A step that moves no id of `c` between the classes. */
  lemma QuietStepKeeps(cfg: Config, s: State, s': State, c: string)
    requires WellFormed(cfg) && Inv(cfg, s) && LocalTo(cfg, s, s', c) && s.mode.Running?
    requires HeldOk(cfg, s', c) && PcOk(cfg, s', c)
    requires s'.ledger.Keys == s.ledger.Keys
    requires s'.released == s.released && s'.orphaned == s.orphaned
    requires OwnActive(s', c) == OwnActive(s, c) && OwnFlight(s', c) == OwnFlight(s, c)
    requires forall id :: id in s.released && Owns(cfg, s', c, id) ==> s'.ledger[id].phase == Released
    ensures Inv(cfg, s')
  {
    Standing(cfg, s, c);
    PartitionKeeps(cfg, s, s', c, CurrentId(cfg, s, c));
    LocalStepKeeps(cfg, s, s', c);
  }

  /** Only `c`'s program counter moves. */
  lemma PcStepKeeps(cfg: Config, s: State, c: string, p: Pc)
    requires WellFormed(cfg) && Inv(cfg, s) && s.mode.Running?
    requires OwnFlight(SetPc(s, c, p), c) == OwnFlight(s, c)
    requires HeldOk(cfg, SetPc(s, c, p), c) && PcOk(cfg, SetPc(s, c, p), c)
    ensures Inv(cfg, SetPc(s, c, p))
  {
    QuietStepKeeps(cfg, s, SetPc(s, c, p), c);
  }

  predicate TurnEvent(e: Event) {
    e.Begin? || e.End? || e.Choose? || e.PostRefused?
  }

  predicate AnswerEvent(e: Event) {
    e.DeleteRefused? || e.ReleaseConfirmed? || e.ReleaseGivesUp?
  }

  /** The steps that move only program counters. */
  lemma TurnEventKeeps(cfg: Config, s: State, e: Event)
    requires WellFormed(cfg) && Inv(cfg, s) && TurnEvent(e) && Enabled(s, e)
    ensures Inv(cfg, Apply(cfg, s, e))
  {
    var c := e.c;
    var s' := Apply(cfg, s, e);
    Standing(cfg, s, c);
    PcStepKeeps(cfg, s, c, PcOf(s', c));
  }

  lemma AnswerEventKeeps(cfg: Config, s: State, e: Event)
    requires WellFormed(cfg) && Inv(cfg, s) && AnswerEvent(e) && Enabled(s, e)
    ensures Inv(cfg, Apply(cfg, s, e))
  {
    var c := e.c;
    var s' := Apply(cfg, s, e);
    Standing(cfg, s, c);
    PcStepKeeps(cfg, s, c, PcOf(s', c));
  }

  lemma WaitConfirmedKeeps(cfg: Config, s: State, c: string)
    requires WellFormed(cfg) && Inv(cfg, s) && Enabled(s, WaitConfirmed(c))
    ensures Inv(cfg, Apply(cfg, s, WaitConfirmed(c)))
  {
    Standing(cfg, s, c);
    PcStepKeeps(cfg, s, c, PcOf(Apply(cfg, s, WaitConfirmed(c)), c));
  }

  lemma SetPhaseIsLocal(cfg: Config, s: State, c: string, id: string, phase: BrokerPhase, p: Pc)
    requires id in s.ledger && Owns(cfg, s, c, id)
    ensures LocalTo(cfg, s, SetPc(SetPhase(s, id, phase), c, p), c)
    ensures SetPc(SetPhase(s, id, phase), c, p).ledger.Keys == s.ledger.Keys
  {
  }

  /** The Broker moves the reservation `c` waits on, and `c` moves with it. */
  lemma PhaseStepKeeps(cfg: Config, s: State, c: string, id: string, phase: BrokerPhase, p: Pc)
    requires WellFormed(cfg) && Inv(cfg, s) && s.mode.Running?
    requires id in s.ledger && Owns(cfg, s, c, id)
    requires id in OwnActive(s, c) + OwnFlight(s, c)
    requires OwnFlight(SetPc(s, c, p), c) == OwnFlight(s, c)
    requires HeldOk(cfg, SetPc(SetPhase(s, id, phase), c, p), c)
    requires PcOk(cfg, SetPc(SetPhase(s, id, phase), c, p), c)
    ensures Inv(cfg, SetPc(SetPhase(s, id, phase), c, p))
  {
    var s' := SetPc(SetPhase(s, id, phase), c, p);
    SplitSets(s, c);
    SetPhaseIsLocal(cfg, s, c, id, phase, p);
    QuietStepKeeps(cfg, s, s', c);
  }

  predicate DeleteEvent(e: Event) {
    e.DeleteLost? || e.DeleteAccepted?
  }

  lemma DeleteEventKeeps(cfg: Config, s: State, e: Event)
    requires WellFormed(cfg) && Inv(cfg, s) && DeleteEvent(e) && Enabled(s, e)
    ensures Inv(cfg, Apply(cfg, s, e))
  {
    var c := e.c;
    Standing(cfg, s, c);
    PhaseStepKeeps(cfg, s, c, CurrentId(cfg, s, c), Unpeering, PcOf(Apply(cfg, s, e), c));
  }

  lemma BrokerPeersKeeps(cfg: Config, s: State, c: string)
    requires WellFormed(cfg) && Inv(cfg, s) && Enabled(s, BrokerPeers(c))
    ensures Inv(cfg, Apply(cfg, s, BrokerPeers(c)))
  {
    Standing(cfg, s, c);
    assert s.pc[c := s.pc[c]] == s.pc;
    PhaseStepKeeps(cfg, s, c, CurrentId(cfg, s, c), Peered, PcOf(s, c));
  }

  lemma BrokerFailsKeeps(cfg: Config, s: State, c: string)
    requires WellFormed(cfg) && Inv(cfg, s) && Enabled(s, BrokerFails(c))
    ensures Inv(cfg, Apply(cfg, s, BrokerFails(c)))
  {
    Standing(cfg, s, c);
    assert s.pc[c := s.pc[c]] == s.pc;
    PhaseStepKeeps(cfg, s, c, CurrentId(cfg, s, c), Failed, PcOf(s, c));
  }

  lemma BrokerReleasesKeeps(cfg: Config, s: State, c: string)
    requires WellFormed(cfg) && Inv(cfg, s) && Enabled(s, BrokerReleases(c))
    ensures Inv(cfg, Apply(cfg, s, BrokerReleases(c)))
  {
    Standing(cfg, s, c);
    assert s.pc[c := s.pc[c]] == s.pc;
    PhaseStepKeeps(cfg, s, c, CurrentId(cfg, s, c), Released, PcOf(s, c));
  }

  lemma NumberKeeps(cfg: Config, s: State, c: string)
    requires WellFormed(cfg) && Inv(cfg, s) && Enabled(s, Number(c))
    ensures Inv(cfg, Apply(cfg, s, Number(c)))
  {
    Standing(cfg, s, c);
    QuietStepKeeps(cfg, s, Apply(cfg, s, Number(c)), c);
  }

  /** The steps in which an id of `c` changes class. */
  lemma MoveStepKeeps(cfg: Config, s: State, s': State, c: string)
    requires WellFormed(cfg) && Inv(cfg, s) && LocalTo(cfg, s, s', c) && s.mode.Running?
    requires HeldOk(cfg, s', c) && PcOk(cfg, s', c)
    requires var id := CurrentId(cfg, s, c);
      && CreatedIds(cfg, s') - {id} == CreatedIds(cfg, s) - {id}
      && s'.released - {id} == s.released - {id}
      && s'.orphaned.Keys - {id} == s.orphaned.Keys - {id}
      && OwnFlight(s', c) <= {id} && OwnActive(s', c) <= {id}
      && InOneClass(cfg, s', c, id)
    requires ReleasedAreFree(s')
    ensures Inv(cfg, s')
  {
    Standing(cfg, s, c);
    PartitionKeeps(cfg, s, s', c, CurrentId(cfg, s, c));
    LocalStepKeeps(cfg, s, s', c);
  }

  lemma DropKeeps(cfg: Config, s: State, c: string)
    requires WellFormed(cfg) && Inv(cfg, s) && Enabled(s, Drop(c))
    ensures Inv(cfg, Apply(cfg, s, Drop(c)))
  {
    Standing(cfg, s, c);
    MoveStepKeeps(cfg, s, Apply(cfg, s, Drop(c)), c);
  }

  /** A POST that takes effect adds the one id it names, which was not there. */
  lemma PostAdds(cfg: Config, s: State, c: string)
    requires WellFormed(cfg) && Inv(cfg, s) && PcOf(s, c).Posting?
    ensures var p := PcOf(s, c); var s1 := Post(s, p.id, p.next);
      && p.id == CurrentId(cfg, s, c) && p.id !in s.ledger && p.id !in cfg.base && Owns(cfg, s, c, p.id)
      && s1 == s.(ledger := s.ledger[p.id := Entry(p.next, Pending)])
      && CreatedIds(cfg, s1) == CreatedIds(cfg, s) + {p.id}
      && p.id !in s.released && p.id !in s.orphaned
  {
    Standing(cfg, s, c);
    var p := PcOf(s, c);
    assert (s.ledger[p.id := Entry(p.next, Pending)]).Keys == s.ledger.Keys + {p.id};
  }

  lemma PostAcceptedKeeps(cfg: Config, s: State, c: string)
    requires WellFormed(cfg) && Inv(cfg, s) && Enabled(s, PostAccepted(c))
    ensures Inv(cfg, Apply(cfg, s, PostAccepted(c)))
  {
    PostAdds(cfg, s, c);
    PostedAndPolled(cfg, s, c);
  }

  lemma PostedAndPolled(cfg: Config, s: State, c: string)
    requires WellFormed(cfg) && Inv(cfg, s) && PcOf(s, c).Posting?
    ensures var id, next := PcOf(s, c).id, PcOf(s, c).next;
      Inv(cfg, s.(ledger := s.ledger[id := Entry(next, Pending)], pc := s.pc[c := Polling(id, next)]))
  {
    Standing(cfg, s, c);
    PostAdds(cfg, s, c);
    var id, next := PcOf(s, c).id, PcOf(s, c).next;
    var s' := s.(ledger := s.ledger[id := Entry(next, Pending)], pc := s.pc[c := Polling(id, next)]);
    assert LocalTo(cfg, s, s', c);
    MoveStepKeeps(cfg, s, s', c);
  }

  lemma PostLostKeeps(cfg: Config, s: State, c: string, again: bool)
    requires WellFormed(cfg) && Inv(cfg, s) && Enabled(s, PostLost(c, again))
    ensures Inv(cfg, Apply(cfg, s, PostLost(c, again)))
  {
    PostAdds(cfg, s, c);
    PostedAndLost(cfg, s, c, AfterFailure(again));
  }

  lemma PostedAndLost(cfg: Config, s: State, c: string, p: Pc)
    requires WellFormed(cfg) && Inv(cfg, s) && PcOf(s, c).Posting? && (p.Reading? || p.Idle?)
    ensures var id, next := PcOf(s, c).id, PcOf(s, c).next;
      Inv(cfg, s.(ledger := s.ledger[id := Entry(next, Pending)],
                  orphaned := s.orphaned[id := ReserveFailed], pc := s.pc[c := p]))
  {
    Standing(cfg, s, c);
    PostAdds(cfg, s, c);
    var id, next := PcOf(s, c).id, PcOf(s, c).next;
    var s' := s.(ledger := s.ledger[id := Entry(next, Pending)],
                 orphaned := s.orphaned[id := ReserveFailed], pc := s.pc[c := p]);
    assert LocalTo(cfg, s, s', c);
    MoveStepKeeps(cfg, s, s', c);
  }

  lemma WaitGivesUpKeeps(cfg: Config, s: State, c: string, again: bool)
    requires WellFormed(cfg) && Inv(cfg, s) && Enabled(s, WaitGivesUp(c, again))
    ensures Inv(cfg, Apply(cfg, s, WaitGivesUp(c, again)))
  {
    Standing(cfg, s, c);
    MoveStepKeeps(cfg, s, Apply(cfg, s, WaitGivesUp(c, again)), c);
  }

  lemma RecordKeeps(cfg: Config, s: State, c: string)
    requires WellFormed(cfg) && Inv(cfg, s) && Enabled(s, Record(c))
    ensures Inv(cfg, Apply(cfg, s, Record(c)))
  {
    Standing(cfg, s, c);
    MoveStepKeeps(cfg, s, Apply(cfg, s, Record(c)), c);
  }

  // ---------------------------------------------------------------------------
  // Steps outside a running iteration
  // ---------------------------------------------------------------------------

  lemma OrphanOwnerKeeps(cfg: Config, s: State, id: string, to: BrokerPhase)
    requires WellFormed(cfg) && Inv(cfg, s) && Enabled(s, OrphanMoves(id, to))
    ensures var s', c := SetPhase(s, id, to), cfg.owner(id);
      HeldOk(cfg, s', c) && PcOk(cfg, s', c) && Owns(cfg, s', c, id)
  {
    assert id in CreatedIds(cfg, s);
    var c := cfg.owner(id);
    assert HeldOk(cfg, s, c) && PcOk(cfg, s, c) && Owns(cfg, s, c, id);
    SplitSets(s, c);
    assert id !in OwnActive(s, c) && id !in OwnFlight(s, c);
    assert c !in s.pc ==> PcOf(s, c).Idle?;
  }

  lemma OrphanMovesKeeps(cfg: Config, s: State, id: string, to: BrokerPhase)
    requires WellFormed(cfg) && Inv(cfg, s) && Enabled(s, OrphanMoves(id, to))
    ensures Inv(cfg, Apply(cfg, s, OrphanMoves(id, to)))
  {
    var s' := SetPhase(s, id, to);
    OrphanOwnerKeeps(cfg, s, id, to);
    assert LocalTo(cfg, s, s', cfg.owner(id));
    SamePartition(cfg, s, s');
    LocalStepKeeps(cfg, s, s', cfg.owner(id));
  }

  lemma SamePartition(cfg: Config, s: State, s': State)
    requires Partitioned(cfg, s)
    requires s'.ledger.Keys == s.ledger.Keys && s'.active == s.active && s'.pc == s.pc && s'.mode == s.mode
    requires s'.released == s.released && s'.orphaned.Keys == s.orphaned.Keys
    ensures Partitioned(cfg, s')
  {
    assert ActiveIds(s') == ActiveIds(s);
    assert FlightIds(s') == FlightIds(s);
  }

  lemma JoinKeeps(cfg: Config, s: State)
    requires WellFormed(cfg) && Inv(cfg, s) && Enabled(s, Join)
    ensures Inv(cfg, Apply(cfg, s, Join))
  {
    var s' := Apply(cfg, s, Join);
    forall d
      ensures HeldOk(cfg, s', d) && PcOk(cfg, s', d)
    {
      assert HeldOk(cfg, s, d) && PcOk(cfg, s, d);
    }
    forall id | id in CreatedIds(cfg, s')
      ensures Owns(cfg, s', cfg.owner(id), id)
    {
      assert id in CreatedIds(cfg, s);
      assert Owns(cfg, s, cfg.owner(id), id);
    }
    assert ActiveIds(s') == ActiveIds(s);
    assert FlightIds(s') == FlightIds(s);
  }

  lemma CleanupSets(cfg: Config, s: State, c: string, ok: bool, to: BrokerPhase)
    requires WellFormed(cfg) && Inv(cfg, s) && Enabled(s, CleanupRelease(c, ok, to))
    ensures ActiveIds(Apply(cfg, s, CleanupRelease(c, ok, to))) == ActiveIds(s) - {s.active[c].id}
    ensures FlightIds(Apply(cfg, s, CleanupRelease(c, ok, to))) == FlightIds(s)
    ensures s.active[c].id in ActiveIds(s)
  {
    Standing(cfg, s, c);
    var id := s.active[c].id;
    var s' := Apply(cfg, s, CleanupRelease(c, ok, to));
    OthersHoldOtherIds(cfg, s, c, id);
    SplitSets(s, c);
    SplitSets(s', c);
    assert OtherActives(s', c) == OtherActives(s, c);
  }

  lemma CleanupHolds(cfg: Config, s: State, c: string, ok: bool, to: BrokerPhase, d: string)
    requires HeldOk(cfg, s, c) && HeldOk(cfg, s, d) && PcOk(cfg, s, d) && ModeOk(s)
    requires Enabled(s, CleanupRelease(c, ok, to))
    ensures var s' := Apply(cfg, s, CleanupRelease(c, ok, to)); HeldOk(cfg, s', d) && PcOk(cfg, s', d)
  {
    assert c !in s.pc || s.pc[c].Idle?;
    assert d !in s.pc || s.pc[d].Idle?;
  }

  lemma CleanupPartition(cfg: Config, s: State, c: string, ok: bool, to: BrokerPhase)
    requires WellFormed(cfg) && Inv(cfg, s) && Enabled(s, CleanupRelease(c, ok, to))
    ensures Partitioned(cfg, Apply(cfg, s, CleanupRelease(c, ok, to)))
  {
    var s' := Apply(cfg, s, CleanupRelease(c, ok, to));
    CleanupSets(cfg, s, c, ok, to);
    assert s'.ledger.Keys == s.ledger.Keys;
    assert CreatedIds(cfg, s') == CreatedIds(cfg, s);
  }

  lemma CleanupKeeps(cfg: Config, s: State, c: string, ok: bool, to: BrokerPhase)
    requires WellFormed(cfg) && Inv(cfg, s) && Enabled(s, CleanupRelease(c, ok, to))
    ensures Inv(cfg, Apply(cfg, s, CleanupRelease(c, ok, to)))
  {
    var s' := Apply(cfg, s, CleanupRelease(c, ok, to));
    CleanupPartition(cfg, s, c, ok, to);
    forall d
      ensures HeldOk(cfg, s', d) && PcOk(cfg, s', d)
    {
      CleanupHolds(cfg, s, c, ok, to, d);
    }
    CleanupRest(cfg, s, c, ok, to);
  }

  lemma CleanupRest(cfg: Config, s: State, c: string, ok: bool, to: BrokerPhase)
    requires WellFormed(cfg) && Inv(cfg, s) && Enabled(s, CleanupRelease(c, ok, to))
    ensures var s' := Apply(cfg, s, CleanupRelease(c, ok, to));
      BaseUntouched(cfg, s') && CreatedAreOwned(cfg, s') && ModeOk(s') && ReleasedAreFree(s')
  {
    var s' := Apply(cfg, s, CleanupRelease(c, ok, to));
    CleanupSets(cfg, s, c, ok, to);
    assert HeldOk(cfg, s, c);
    forall x | x in CreatedIds(cfg, s')
      ensures Owns(cfg, s', cfg.owner(x), x)
    {
      assert x in CreatedIds(cfg, s);
      assert Owns(cfg, s, cfg.owner(x), x);
    }
  }

  // ---------------------------------------------------------------------------
  // Main results
  // ---------------------------------------------------------------------------

  lemma StepKeeps(cfg: Config, s: State, e: Event)
    requires WellFormed(cfg) && Inv(cfg, s) && Enabled(s, e)
    ensures Inv(cfg, Apply(cfg, s, e))
  {
    if TurnEvent(e) {
      TurnEventKeeps(cfg, s, e);
    } else if AnswerEvent(e) {
      AnswerEventKeeps(cfg, s, e);
    } else if DeleteEvent(e) {
      DeleteEventKeeps(cfg, s, e);
    } else {
      match e
      case WaitConfirmed(c) => WaitConfirmedKeeps(cfg, s, c);
      case BrokerPeers(c) => BrokerPeersKeeps(cfg, s, c);
      case BrokerFails(c) => BrokerFailsKeeps(cfg, s, c);
      case BrokerReleases(c) => BrokerReleasesKeeps(cfg, s, c);
      case Drop(c) => DropKeeps(cfg, s, c);
      case Number(c) => NumberKeeps(cfg, s, c);
      case PostLost(c, again) => PostLostKeeps(cfg, s, c, again);
      case PostAccepted(c) => PostAcceptedKeeps(cfg, s, c);
      case WaitGivesUp(c, again) => WaitGivesUpKeeps(cfg, s, c, again);
      case Record(c) => RecordKeeps(cfg, s, c);
      case OrphanMoves(id, to) => OrphanMovesKeeps(cfg, s, id, to);
      case Join => JoinKeeps(cfg, s);
      case CleanupRelease(c, ok, to) => CleanupKeeps(cfg, s, c, ok, to);
    }
  }

  lemma InitKeeps(cfg: Config)
    requires WellFormed(cfg)
    ensures Inv(cfg, Init(cfg))
  {
  }

  /** Every state of every interleaving, whatever the Broker answers, satisfies the
      invariant. */
  lemma {:induction false} RunKeeps(cfg: Config, s: State, es: seq<Event>)
    requires WellFormed(cfg) && Inv(cfg, s) && ValidRun(cfg, s, es)
    ensures Inv(cfg, Run(cfg, s, es))
    decreases |es|
  {
    if es != [] {
      StepKeeps(cfg, s, es[0]);
      RunKeeps(cfg, Apply(cfg, s, es[0]), es[1..]);
    }
  }

  lemma ReachableKeeps(cfg: Config, es: seq<Event>)
    requires WellFormed(cfg) && ValidRun(cfg, Init(cfg), es)
    ensures Inv(cfg, Run(cfg, Init(cfg), es))
  {
    InitKeeps(cfg);
    RunKeeps(cfg, Init(cfg), es);
  }

  /** A consumer never has two live reservations: of the ids it owns at most one is
      active or in flight. */
  lemma AtMostOneLive(cfg: Config, s: State, c: string, id: string, id': string)
    requires WellFormed(cfg) && Inv(cfg, s) && s.mode.Running?
    requires {id, id'} <= ActiveIds(s) + FlightIds(s)
    requires cfg.owner(id) == c && cfg.owner(id') == c
    ensures id == id'
  {
    Standing(cfg, s, c);
    SplitSets(s, c);
    OthersHoldOtherIds(cfg, s, c, id);
    OthersHoldOtherIds(cfg, s, c, id');
  }

  /** The answers that cost the harness its grip on a reservation. */
  predicate LosesTrack(s: State, e: Event, id: string) {
    match e
    case Drop(c) => PcOf(s, c).Dropping? && PcOf(s, c).held.id == id && !PcOf(s, c).ok
    case PostLost(c, _) => PcOf(s, c).Posting? && PcOf(s, c).id == id
    case WaitGivesUp(c, _) => PcOf(s, c).Polling? && PcOf(s, c).id == id
    case CleanupRelease(c, ok, _) => c in s.active && s.active[c].id == id && !ok
    case _ => false
  }

  /** An id is orphaned by a step exactly when that step is a failed release, in mid-phase
      or in the final cleanup, or a reservation that failed after it was created. */
  lemma OrphanedOnlyBy(cfg: Config, s: State, e: Event, id: string)
    requires Enabled(s, e) && id !in s.orphaned
    ensures id in Apply(cfg, s, e).orphaned <==> LosesTrack(s, e, id)
  {
    if !e.Drop? && !e.PostLost? && !e.WaitGivesUp? && !e.CleanupRelease? {
      OrphansStay(cfg, s, e);
    }
  }

  lemma OrphansStay(cfg: Config, s: State, e: Event)
    requires Enabled(s, e) && !e.Drop? && !e.PostLost? && !e.WaitGivesUp? && !e.CleanupRelease?
    ensures Apply(cfg, s, e).orphaned == s.orphaned
  {
  }

  /** Nothing leaves the ledger or comes back from released or orphaned. */
  lemma ClassesAreFinal(cfg: Config, s: State, e: Event)
    requires Enabled(s, e)
    ensures s.ledger.Keys <= Apply(cfg, s, e).ledger.Keys
    ensures s.released <= Apply(cfg, s, e).released
    ensures s.orphaned.Keys <= Apply(cfg, s, e).orphaned.Keys
    ensures forall id :: id in s.ledger ==> Apply(cfg, s, e).ledger[id].target == s.ledger[id].target
  {
    forall id
      ensures id in s.ledger ==>
        id in Apply(cfg, s, e).ledger && Apply(cfg, s, e).ledger[id].target == s.ledger[id].target
      ensures id in s.released ==> id in Apply(cfg, s, e).released
      ensures id in s.orphaned ==> id in Apply(cfg, s, e).orphaned
    {
      if id in s.ledger {
        EntryIsFinal(cfg, s, e, id);
      }
      ClassIsFinal(cfg, s, e, id);
    }
  }

  lemma EntryIsFinal(cfg: Config, s: State, e: Event, id: string)
    requires Enabled(s, e) && id in s.ledger
    ensures id in Apply(cfg, s, e).ledger && Apply(cfg, s, e).ledger[id].target == s.ledger[id].target
  {
    LedgerAfter(cfg, s, e, id);
  }

  /** The one entry a step may write: which id, and in which phase it is left. */
  function Written(s: State, e: Event): set<string>
    requires Enabled(s, e)
  {
    match e
    case DeleteLost(c) => {PcOf(s, c).held.id}
    case DeleteAccepted(c) => {PcOf(s, c).held.id}
    case BrokerReleases(c) => {PcOf(s, c).held.id}
    case PostLost(c, _) => {PcOf(s, c).id} - s.ledger.Keys
    case PostAccepted(c) => {PcOf(s, c).id} - s.ledger.Keys
    case BrokerPeers(c) => {PcOf(s, c).id}
    case BrokerFails(c) => {PcOf(s, c).id}
    case OrphanMoves(id, _) => {id}
    case CleanupRelease(c, _, _) => {s.active[c].id}
    case _ => {}
  }

  ghost predicate EntryAfter(s: State, s': State, written: set<string>, id: string) {
    && (id in s'.ledger <==> id in s.ledger || id in written)
    && (id in s.ledger ==> s'.ledger[id].target == s.ledger[id].target)
    && (id in s.ledger && id !in written ==> s'.ledger[id] == s.ledger[id])
  }

  lemma PhaseWrites(cfg: Config, s: State, e: Event, id: string)
    requires Enabled(s, e)
    requires e.DeleteLost? || e.DeleteAccepted? || e.BrokerReleases? || e.BrokerPeers? || e.BrokerFails?
    ensures EntryAfter(s, Apply(cfg, s, e), Written(s, e), id)
  {
  }

  lemma OtherWrites(cfg: Config, s: State, e: Event, id: string)
    requires Enabled(s, e) && (e.PostLost? || e.PostAccepted? || e.OrphanMoves? || e.CleanupRelease?)
    ensures EntryAfter(s, Apply(cfg, s, e), Written(s, e), id)
  {
  }

  /** A step leaves every other entry alone, and a request once written stays. */
  lemma LedgerAfter(cfg: Config, s: State, e: Event, id: string)
    requires Enabled(s, e)
    ensures EntryAfter(s, Apply(cfg, s, e), Written(s, e), id)
  {
    if e.DeleteLost? || e.DeleteAccepted? || e.BrokerReleases? || e.BrokerPeers? || e.BrokerFails? {
      PhaseWrites(cfg, s, e, id);
    } else if e.PostLost? || e.PostAccepted? || e.OrphanMoves? || e.CleanupRelease? {
      OtherWrites(cfg, s, e, id);
    }
  }

  lemma ClassIsFinal(cfg: Config, s: State, e: Event, id: string)
    requires Enabled(s, e)
    ensures id in s.released ==> id in Apply(cfg, s, e).released
    ensures id in s.orphaned ==> id in Apply(cfg, s, e).orphaned
  {
  }

  /** When cleanup is over, what the harness did not see released it has orphaned. */
  lemma PhaseEnd(cfg: Config, s: State)
    requires WellFormed(cfg) && Inv(cfg, s) && s.mode == Cleaning({})
    ensures CreatedIds(cfg, s) == s.released + s.orphaned.Keys
    ensures forall id :: id in CreatedIds(cfg, s) && s.ledger[id].phase != Released ==> id in s.orphaned
  {
    assert ActiveIds(s) == {};
    assert FlightIds(s) == {};
  }
}