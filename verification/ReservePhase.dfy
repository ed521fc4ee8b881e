/**
 The shared state of one reserve phase and the goroutine body that works on it. Between
 any two steps of a consumer the others may have moved: `Yield` stands for that. The
 ghost field `at` is the position in the step system; every access to the shared maps
 and every Broker call is one of its events.
 */
module ReservePhase {
  import opened Views
  import opened ReservationIds
  import opened ReserveProtocol
  import opened ReserveInvariant
  import opened ReserveDecision
  import opened ReserveIteration

  // ---------------------------------------------------------------------------
  // Interference
  // ---------------------------------------------------------------------------

  predicate ActsFor(e: Event, c: string) {
    match e
    case OrphanMoves(_, _) => false
    case Join => false
    case _ => e.c == c
  }

  /** A run in which consumer `c` does not move. */
  ghost predicate OthersRun(cfg: Config, s: State, es: seq<Event>, c: string) {
    ValidRun(cfg, s, es) && forall e :: e in es ==> !ActsFor(e, c)
  }

  /** The Broker's entry for what `c` holds or waits for. */
  function OwnEntry(s: State, c: string): Option<Entry> {
    if c in s.active && s.active[c].id in s.ledger then Some(s.ledger[s.active[c].id])
    else if InFlight(PcOf(s, c)) && PcOf(s, c).id in s.ledger then Some(s.ledger[PcOf(s, c).id])
    else None
  }

  predicate SameFor(s: State, s': State, c: string) {
    && PcOf(s', c) == PcOf(s, c) && SeqOf(s', c) == SeqOf(s, c) && s'.mode == s.mode
    && (c in s'.active <==> c in s.active)
    && (c in s.active ==> s'.active[c] == s.active[c])
    && OwnEntry(s', c) == OwnEntry(s, c)
  }

  /** A step touches the entry of at most one id: the acting consumer's, or an orphan. */
  lemma OnlyItsEntry(cfg: Config, s: State, e: Event, id: string)
    requires Enabled(s, e) && s.mode.Running?
    requires e.OrphanMoves? ==> id != e.id
    requires !e.OrphanMoves? && !e.Join? ==> PcOk(cfg, s, e.c) && id != CurrentId(cfg, s, e.c)
    ensures id in Apply(cfg, s, e).ledger <==> id in s.ledger
    ensures id in s.ledger ==> Apply(cfg, s, e).ledger[id] == s.ledger[id]
  {
    LedgerAfter(cfg, s, e, id);
  }

  lemma OtherStepIsHarmless(cfg: Config, s: State, e: Event, c: string)
    requires WellFormed(cfg) && Inv(cfg, s)
    requires Enabled(s, e) && !ActsFor(e, c) && s.mode.Running? && !PcOf(s, c).Idle?
    ensures SameFor(s, Apply(cfg, s, e), c)
  {
    OtherStepKeepsEntry(cfg, s, e, c);
    OtherStepKeepsBooks(cfg, s, e, c);
    assert HeldOk(cfg, s, c) && PcOk(cfg, s, c);
  }

  lemma OtherStepKeepsEntry(cfg: Config, s: State, e: Event, c: string)
    requires WellFormed(cfg) && Inv(cfg, s)
    requires Enabled(s, e) && !ActsFor(e, c) && s.mode.Running? && !PcOf(s, c).Idle?
    ensures var id := CurrentId(cfg, s, c);
      OwnEntry(s, c).Some? ==>
        id in s.ledger && id in Apply(cfg, s, e).ledger && Apply(cfg, s, e).ledger[id] == s.ledger[id]
    ensures OwnEntry(s, c).Some? ==> CurrentId(cfg, s, c) == if c in s.active then s.active[c].id else PcOf(s, c).id
  {
    assert c in s.pc;
    Standing(cfg, s, c);
    if OwnEntry(s, c).Some? {
      OtherIds(cfg, s, e, c);
      OnlyItsEntry(cfg, s, e, CurrentId(cfg, s, c));
    }
  }

  /** What `c` holds or waits for is not what another's step touches. */
  lemma OtherIds(cfg: Config, s: State, e: Event, c: string)
    requires WellFormed(cfg) && Inv(cfg, s) && Enabled(s, e) && !ActsFor(e, c) && s.mode.Running?
    requires !PcOf(s, c).Idle? && OwnEntry(s, c).Some?
    ensures e.OrphanMoves? ==> CurrentId(cfg, s, c) != e.id
    ensures !e.OrphanMoves? && !e.Join? ==> PcOk(cfg, s, e.c) && CurrentId(cfg, s, c) != CurrentId(cfg, s, e.c)
  {
    Standing(cfg, s, c);
    if e.OrphanMoves? {
      SplitSets(s, c);
    } else if !e.Join? {
      Standing(cfg, s, e.c);
    }
  }

  lemma OtherStepKeepsBooks(cfg: Config, s: State, e: Event, c: string)
    requires Enabled(s, e) && !ActsFor(e, c) && s.mode.Running? && !PcOf(s, c).Idle?
    ensures var s' := Apply(cfg, s, e);
      && PcOf(s', c) == PcOf(s, c) && SeqOf(s', c) == SeqOf(s, c) && s'.mode == s.mode
      && (c in s'.active <==> c in s.active)
      && (c in s.active ==> s'.active[c] == s.active[c])
  {
    OtherStepKeepsPlace(cfg, s, e, c);
    OtherStepKeepsActive(cfg, s, e, c);
  }

  lemma OtherStepKeepsPlace(cfg: Config, s: State, e: Event, c: string)
    requires Enabled(s, e) && !ActsFor(e, c) && s.mode.Running? && !PcOf(s, c).Idle?
    ensures var s' := Apply(cfg, s, e); PcOf(s', c) == PcOf(s, c) && SeqOf(s', c) == SeqOf(s, c) && s'.mode == s.mode
  {
    assert c in s.pc;
  }

  lemma OtherStepKeepsActive(cfg: Config, s: State, e: Event, c: string)
    requires Enabled(s, e) && !ActsFor(e, c) && s.mode.Running?
    ensures var s' := Apply(cfg, s, e);
      (c in s'.active <==> c in s.active) && (c in s.active ==> s'.active[c] == s.active[c])
  {
    if !e.Drop? && !e.Record? {
      ActiveStays(cfg, s, e);
    }
  }

  lemma ActiveStays(cfg: Config, s: State, e: Event)
    requires Enabled(s, e) && !e.Drop? && !e.Record?
    ensures Apply(cfg, s, e).active == s.active
  {
  }

  /** Whatever the others do while `c` is busy, `c`'s own part stays as it was. */
  lemma {:induction false} OthersAreHarmless(cfg: Config, s: State, es: seq<Event>, c: string)
    requires WellFormed(cfg) && Inv(cfg, s) && OthersRun(cfg, s, es, c)
    requires s.mode.Running? && !PcOf(s, c).Idle?
    ensures Inv(cfg, Run(cfg, s, es)) && SameFor(s, Run(cfg, s, es), c)
    decreases |es|
  {
    if es != [] {
      OtherStepIsHarmless(cfg, s, es[0], c);
      StepKeeps(cfg, s, es[0]);
      OthersAreHarmless(cfg, Apply(cfg, s, es[0]), es[1..], c);
    }
  }

  // ---------------------------------------------------------------------------
  // Rows of one consumer
  // ---------------------------------------------------------------------------

  function SelectionsOf(rows: seq<SelectionRow>, c: string): seq<SelectionRow> {
    if rows == [] then []
    else SelectionsOf(rows[..|rows| - 1], c) +
         (if rows[|rows| - 1].consumer == c then [rows[|rows| - 1]] else [])
  }

  function ReservationsOf(rows: seq<ReservationRow>, c: string): seq<ReservationRow> {
    if rows == [] then []
    else ReservationsOf(rows[..|rows| - 1], c) +
         (if rows[|rows| - 1].consumer == c then [rows[|rows| - 1]] else [])
  }

  /** The active ids of `who` whose release was confirmed, or was not. */
  function IdsAnswered(active: map<string, Held>, who: set<string>, answer: string -> ReleaseAnswer,
                       confirmed: bool): set<string>
  {
    set c | c in who && c in active && answer(c).Confirmed? == confirmed :: active[c].id
  }

  lemma OneMoreAnswered(active: map<string, Held>, who: set<string>, answer: string -> ReleaseAnswer, c: string)
    requires c in active
    ensures IdsAnswered(active, who + {c}, answer, answer(c).Confirmed?) ==
      IdsAnswered(active, who, answer, answer(c).Confirmed?) + {active[c].id}
    ensures IdsAnswered(active, who + {c}, answer, !answer(c).Confirmed?) ==
      IdsAnswered(active, who, answer, !answer(c).Confirmed?)
  {
  }

  /** How far a cleanup is when `done` is answered: what is left to do, and what was lost
      and released since there were `lost0` and `gone0`. */
  ghost predicate Answered(active: map<string, Held>, done: set<string>, answer: string -> ReleaseAnswer, mode: Mode,
                           lost0: set<string>, lost: set<string>, gone0: set<string>, gone: set<string>)
  {
    && done <= active.Keys && mode == Cleaning(active.Keys - done)
    && lost == lost0 + IdsAnswered(active, done, answer, false)
    && gone == gone0 + IdsAnswered(active, done, answer, true)
  }

  lemma AnsweredNext(active: map<string, Held>, done: set<string>, answer: string -> ReleaseAnswer, mode: Mode,
                     lost0: set<string>, lost: set<string>, gone0: set<string>, gone: set<string>, c: string)
    requires Answered(active, done, answer, mode, lost0, lost, gone0, gone) && c in active.Keys - done
    ensures Answered(active, done + {c}, answer, Cleaning(mode.todo - {c}),
                     lost0, lost + (if answer(c).Confirmed? then {} else {active[c].id}),
                     gone0, gone + (if answer(c).Confirmed? then {active[c].id} else {}))
  {
    OneMoreAnswered(active, done, answer, c);
    assert active.Keys - (done + {c}) == active.Keys - done - {c};
  }

  class PhaseState {
    const run: string
    const phase: string
    var active: map<string, Held>
    var seqNo: map<string, nat>
    var selections: seq<SelectionRow>
    var reservations: seq<ReservationRow>
    ghost const cfg: Config
    ghost var at: State

    ghost predicate Valid()
      reads this
    {
      && WellFormed(cfg) && Inv(cfg, at)
      && (forall c: string, k: nat :: cfg.name(c, k) == MakeReservationID(run, phase, c, k))
      && at.active == active && at.seqNo == seqNo && at.mode.Running?
    }

    /** What the shared maps hold for one consumer. */
    function HeldBy(c: string): Option<Held>
      reads this
    {
      if c in active then Some(active[c]) else None
    }

    function NextNumber(c: string): nat
      reads this
    {
      if c in seqNo then seqNo[c] else 0
    }

    constructor (run: string, phase: string, ghost cfg: Config)
      requires WellFormed(cfg)
      requires forall c: string, k: nat :: cfg.name(c, k) == MakeReservationID(run, phase, c, k)
      ensures Valid() && at == Init(cfg) && this.run == run && this.phase == phase && this.cfg == cfg
      ensures active == map[] && seqNo == map[] && selections == [] && reservations == []
    {
      this.run, this.phase, this.cfg := run, phase, cfg;
      active, seqNo, selections, reservations := map[], map[], [], [];
      at := Init(cfg);
      InitKeeps(cfg);
    }

    /** The other consumers run for a while. */
    method Interfere(ghost c: string)
      requires Valid() && !PcOf(at, c).Idle?
      modifies this
      ensures exists es :: OthersRun(cfg, old(at), es, c) && at == Run(cfg, old(at), es)
      ensures at.active == active && at.seqNo == seqNo
      ensures SelectionsOf(selections, c) == old(SelectionsOf(selections, c))
      ensures ReservationsOf(reservations, c) == old(ReservationsOf(reservations, c))
    {
      assert OthersRun(cfg, at, [], c) && at == Run(cfg, at, []);
    }

    method Yield(ghost c: string)
      requires Valid() && !PcOf(at, c).Idle?
      modifies this
      ensures Valid() && PcOf(at, c) == old(PcOf(at, c)) && OwnEntry(at, c) == old(OwnEntry(at, c))
      ensures HeldBy(c) == old(HeldBy(c)) && NextNumber(c) == old(NextNumber(c))
      ensures SelectionsOf(selections, c) == old(SelectionsOf(selections, c))
      ensures ReservationsOf(reservations, c) == old(ReservationsOf(reservations, c))
    {
      ghost var before := at;
      Interfere(c);
      ghost var es :| OthersRun(cfg, before, es, c) && at == Run(cfg, before, es);
      OthersAreHarmless(cfg, before, es, c);
    }

    /** One event of the step system; only the ghost position moves. */
    ghost method Take(e: Event)
      requires WellFormed(cfg) && Inv(cfg, at) && Enabled(at, e)
      modifies this`at
      ensures at == Apply(cfg, old(at), e) && Inv(cfg, at)
    {
      StepKeeps(cfg, at, e);
      at := Apply(cfg, at, e);
    }

    method AddSelection(r: SelectionRow)
      modifies this`selections
      ensures forall c ::
        SelectionsOf(selections, c) == old(SelectionsOf(selections, c)) + (if r.consumer == c then [r] else [])
    {
      assert (selections + [r])[..|selections|] == selections;
      selections := selections + [r];
    }

    method AddReservation(r: ReservationRow)
      modifies this`reservations
      ensures forall c ::
        ReservationsOf(reservations, c) == old(ReservationsOf(reservations, c)) + (if r.consumer == c then [r] else [])
    {
      assert (reservations + [r])[..|reservations|] == reservations;
      reservations := reservations + [r];
    }

    method PollForRelease(ghost c: string, ghost confirmed: bool)
      requires Valid() && PcOf(at, c).Releasing? && PcOf(at, c).held.id in at.ledger
      requires at.ledger[PcOf(at, c).held.id].phase == Unpeering
      modifies this
      ensures Valid() && HeldBy(c) == old(HeldBy(c)) && NextNumber(c) == old(NextNumber(c))
      ensures PcOf(at, c) == Dropping(old(PcOf(at, c).held), old(PcOf(at, c).next), confirmed)
      ensures SelectionsOf(selections, c) == old(SelectionsOf(selections, c))
      ensures ReservationsOf(reservations, c) == old(ReservationsOf(reservations, c))
    {
      assert PcOk(cfg, at, c) && HeldOk(cfg, at, c);
      Yield(c);
      assert PcOk(cfg, at, c) && HeldOk(cfg, at, c);
      if confirmed {
        Take(BrokerReleases(c));
        Take(ReleaseConfirmed(c));
      } else {
        Take(ReleaseGivesUp(c));
      }
    }

    /** ReleaseAndWait: DELETE, then poll until the Broker reports Released. */
    method ReleaseAndWait(c: string, answer: ReleaseAnswer) returns (ok: bool)
      requires Valid() && PcOf(at, c).Deleting?
      modifies this
      ensures ok == answer.Confirmed?
      ensures Valid() && HeldBy(c) == old(HeldBy(c)) && NextNumber(c) == old(NextNumber(c))
      ensures PcOf(at, c) == Dropping(old(PcOf(at, c).held), old(PcOf(at, c).next), ok)
      ensures SelectionsOf(selections, c) == old(SelectionsOf(selections, c))
      ensures ReservationsOf(reservations, c) == old(ReservationsOf(reservations, c))
    {
      assert PcOk(cfg, at, c) && HeldOk(cfg, at, c);
      match answer {
        case Refused =>
          Take(DeleteRefused(c));
        case Unanswered =>
          Take(DeleteLost(c));
        case Unconfirmed =>
          Take(DeleteAccepted(c));
          PollForRelease(c, false);
        case Confirmed =>
          Take(DeleteAccepted(c));
          PollForRelease(c, true);
      }
      ok := answer.Confirmed?;
    }

    /** The held reservation is released and forgotten, whether or not the Broker agreed. */
    method GiveUp(c: string, answer: ReleaseAnswer)
      requires Valid() && PcOf(at, c).Deleting?
      modifies this
      ensures Valid() && HeldBy(c) == None && NextNumber(c) == old(NextNumber(c))
      ensures PcOf(at, c) == Numbering(old(PcOf(at, c).next))
      ensures SelectionsOf(selections, c) == old(SelectionsOf(selections, c))
      ensures ReservationsOf(reservations, c) == old(ReservationsOf(reservations, c))
    {
      Yield(c);
      var _ := ReleaseAndWait(c, answer);
      Forget(c);
    }

    method Forget(c: string)
      requires Valid() && PcOf(at, c).Dropping?
      modifies this
      ensures Valid() && HeldBy(c) == None && NextNumber(c) == old(NextNumber(c))
      ensures PcOf(at, c) == Numbering(old(PcOf(at, c).next))
      ensures SelectionsOf(selections, c) == old(SelectionsOf(selections, c))
      ensures ReservationsOf(reservations, c) == old(ReservationsOf(reservations, c))
    {
      Yield(c);
      active := active - {c};
      Take(Drop(c));
    }

    /** nextSeq, and the id it makes. */
    method TakeNumber(c: string) returns (id: string)
      requires Valid() && PcOf(at, c).Numbering?
      modifies this
      ensures Valid() && HeldBy(c) == old(HeldBy(c)) && NextNumber(c) == old(NextNumber(c)) + 1
      ensures id == MakeReservationID(run, phase, c, old(NextNumber(c)))
      ensures PcOf(at, c) == Posting(id, old(PcOf(at, c).next))
      ensures SelectionsOf(selections, c) == old(SelectionsOf(selections, c))
      ensures ReservationsOf(reservations, c) == old(ReservationsOf(reservations, c))
    {
      Yield(c);
      var n := if c in seqNo then seqNo[c] else 0;
      seqNo := seqNo[c := n + 1];
      Take(Number(c));
      id := MakeReservationID(run, phase, c, n);
    }

    method PollUntilPeered(ghost c: string)
      requires Valid() && PcOf(at, c).Polling? && PcOf(at, c).id in at.ledger
      requires at.ledger[PcOf(at, c).id].phase == Pending
      modifies this
      ensures Valid() && HeldBy(c) == old(HeldBy(c)) && NextNumber(c) == old(NextNumber(c))
      ensures PcOf(at, c) == Recording(old(PcOf(at, c).id), old(PcOf(at, c).next))
      ensures SelectionsOf(selections, c) == old(SelectionsOf(selections, c))
      ensures ReservationsOf(reservations, c) == old(ReservationsOf(reservations, c))
    {
      assert PcOk(cfg, at, c);
      Yield(c);
      assert PcOk(cfg, at, c);
      Take(BrokerPeers(c));
      Take(WaitConfirmed(c));
    }

    method PollInVain(ghost c: string, ghost again: bool)
      requires Valid() && PcOf(at, c).Polling?
      modifies this
      ensures Valid() && HeldBy(c) == old(HeldBy(c)) && NextNumber(c) == old(NextNumber(c))
      ensures PcOf(at, c) == AfterFailure(again)
      ensures SelectionsOf(selections, c) == old(SelectionsOf(selections, c))
      ensures ReservationsOf(reservations, c) == old(ReservationsOf(reservations, c))
    {
      Yield(c);
      Take(WaitGivesUp(c, again));
    }

    /** ReserveAndWait: POST, then poll until the Broker reports Peered. */
    method ReserveAndWait(c: string, answer: ReserveAnswer, again: bool) returns (ok: bool)
      requires Valid() && PcOf(at, c).Posting?
      modifies this
      ensures ok == answer.ReachedPeered?
      ensures Valid() && HeldBy(c) == old(HeldBy(c)) && NextNumber(c) == old(NextNumber(c))
      ensures PcOf(at, c) == if ok then Recording(old(PcOf(at, c).id), old(PcOf(at, c).next)) else AfterFailure(again)
      ensures SelectionsOf(selections, c) == old(SelectionsOf(selections, c))
      ensures ReservationsOf(reservations, c) == old(ReservationsOf(reservations, c))
    {
      Yield(c);
      assert PcOk(cfg, at, c);
      match answer {
        case NotCreated(_) =>
          Take(PostRefused(c, again));
        case CreationUnanswered(_) =>
          Take(PostLost(c, again));
        case FailedAfterCreation(_) =>
          Take(PostAccepted(c));
          PollInVain(c, again);
        case ReachedPeered =>
          Take(PostAccepted(c));
          PollUntilPeered(c);
      }
      ok := answer.ReachedPeered?;
    }

    method SetActive(c: string, h: Held)
      requires Valid() && PcOf(at, c) == Recording(h.id, h.target)
      modifies this
      ensures Valid() && HeldBy(c) == Some(h) && NextNumber(c) == old(NextNumber(c)) && PcOf(at, c).Idle?
      ensures SelectionsOf(selections, c) == old(SelectionsOf(selections, c))
      ensures ReservationsOf(reservations, c) == old(ReservationsOf(reservations, c))
    {
      Yield(c);
      active := active[c := h];
      Take(Record(c));
    }

    /** The consumer is reading, and `p` is where its loop and its entries stand. */
    ghost predicate StandsAt(j: Job, p: Progress, sel: seq<SelectionRow>, res: seq<ReservationRow>)
      reads this
    {
      && Valid() && PcOf(at, j.consumer).Reading? && j.run == run && j.phase == phase && Sound(p)
      && HeldBy(j.consumer) == p.held && NextNumber(j.consumer) == p.seqNo
      && SelectionsOf(selections, j.consumer) == sel && ReservationsOf(reservations, j.consumer) == res
    }

    /** The iteration is over with outcome `o`, whose rows follow `sel` and `res`. */
    ghost predicate EndsWith(j: Job, o: Outcome, sel: seq<SelectionRow>, res: seq<ReservationRow>)
      reads this
    {
      && Valid() && PcOf(at, j.consumer).Idle?
      && HeldBy(j.consumer) == o.held && NextNumber(j.consumer) == o.seqNo
      && SelectionsOf(selections, j.consumer) == sel + o.selections
      && ReservationsOf(reservations, j.consumer) == res + o.reservations
    }

    ghost predicate Reaches(j: Job, s: Step, sel: seq<SelectionRow>, res: seq<ReservationRow>)
      reads this
    {
      match s
      case Done(o) => EndsWith(j, o, sel, res)
      case Again(q) => StandsAt(j, q, sel, res)
    }

    /** An attempt that ends with one selection row and no reservation row. */
    method FinishWith(j: Job, ghost p: Progress, attempt: nat, initial: string, outcome: Label,
                      ghost sel: seq<SelectionRow>, ghost res: seq<ReservationRow>)
      requires StandsAt(j, p, sel, res) && p.attempt == attempt && p.initial == initial
      modifies this
      ensures EndsWith(j, Finish(p, [StopRow(j, p, outcome)], []), sel, res)
    {
      Take(End(j.consumer));
      AddSelection(SelectionRow(j.consumer, j.iteration, "", "", "", outcome, initial, attempt));
    }

    /** An attempt that keeps what the consumer holds. */
    method FinishKeeping(j: Job, ghost p: Progress, attempt: nat, initial: string, outcome: Label,
                         ghost sel: seq<SelectionRow>, ghost res: seq<ReservationRow>)
      requires StandsAt(j, p, sel, res) && p.attempt == attempt && p.held.Some?
      modifies this
      ensures var q := p.(initial := initial);
        EndsWith(j, Finish(q, [TargetRow(j, q, p.held.value, outcome)],
                              [ActionRow(j, q, p.held.value, KeepIt, "", outcome)]), sel, res)
    {
      var cur := active[j.consumer];
      Take(End(j.consumer));
      AddSelection(SelectionRow(j.consumer, j.iteration, cur.target.provider, cur.target.group, cur.id,
        outcome, initial, attempt));
      AddReservation(ReservationRow(j.consumer, j.iteration, cur.id, cur.target.provider, cur.target.group,
        KeepIt, "", outcome, initial, attempt));
    }

    /** Up to the number of the new reservation: give up what is held, once. */
    method Prepare(j: Job, ghost p: Progress, target: Target, prev: string, answer: ReleaseAnswer,
                   ghost sel: seq<SelectionRow>, ghost res: seq<ReservationRow>)
      returns (prev': string, id: string)
      requires StandsAt(j, p, sel, res) && p.prev == prev
      modifies this
      ensures Valid() && PcOf(at, j.consumer) == Posting(id, target)
      ensures id == MakeReservationID(run, phase, j.consumer, p.seqNo)
      ensures prev' == AfterRelease(p).prev
      ensures HeldBy(j.consumer) == AfterRelease(p).held && NextNumber(j.consumer) == p.seqNo + 1
      ensures SelectionsOf(selections, j.consumer) == sel && ReservationsOf(reservations, j.consumer) == res
    {
      var c := j.consumer;
      prev' := prev;
      var cur := HeldBy(c);
      Take(Choose(c, target));
      if cur.Some? && prev == "" {
        prev' := cur.value.target.provider;
        GiveUp(c, answer);
      }
      id := TakeNumber(c);
    }

    /** The answer ends the iteration, one way or the other. */
    method FinishAiming(j: Job, ghost q: Progress, attempt: nat, initial: string, prev: string, h: Held, ok: bool,
                        ghost sel: seq<SelectionRow>, ghost res: seq<ReservationRow>)
      requires Valid() && PcOf(at, j.consumer) == if ok then Recording(h.id, h.target) else Idle
      requires HeldBy(j.consumer) == q.held && NextNumber(j.consumer) == q.seqNo
      requires SelectionsOf(selections, j.consumer) == sel && ReservationsOf(reservations, j.consumer) == res
      requires q.attempt == attempt && q.initial == initial && q.prev == prev
      modifies this
      ensures var outcome := if ok then Success else ReserveError;
        EndsWith(j, Finish(if ok then q.(held := Some(h)) else q, [TargetRow(j, q, h, outcome)],
                           [ActionRow(j, q, h, ActionAfter(prev), prev, outcome)]), sel, res)
    {
      var c := j.consumer;
      if ok {
        SetActive(c, h);
      }
      var outcome := if ok then Success else ReserveError;
      AddSelection(SelectionRow(c, j.iteration, h.target.provider, h.target.group, h.id, outcome, initial, attempt));
      AddReservation(ReservationRow(c, j.iteration, h.id, h.target.provider, h.target.group, ActionAfter(prev), prev,
        outcome, initial, attempt));
    }

    /** An attempt that aims for `target`. */
    method TryTarget(j: Job, ghost p: Progress, attempt: nat, initial: string, prev: string, a: Attempt,
                     target: Target, ghost sel: seq<SelectionRow>, ghost res: seq<ReservationRow>)
      returns (again: bool, prev': string)
      requires StandsAt(j, p, sel, res) && p.attempt == attempt && p.prev == prev
      requires initial == First(p.initial, target.provider)
      modifies this
      ensures var s := Conclude(j, a, p, Move(target.provider, target.group));
        && Reaches(j, s, sel, res)
        && again == s.Again?
        && (again ==> prev' == s.progress.prev && initial == s.progress.initial)
    {
      ghost var q := AfterRelease(p).(initial := initial, seqNo := p.seqNo + 1);
      AttemptGuarantees(j, a, p, Move(target.provider, target.group));
      var retry := !a.reserve.ReachedPeered? && Retries(a.reserve.why, attempt);
      again := retry && (!a.reserve.why.TooManyRequests? || a.wakes);
      var id, ok;
      prev', id, ok := Aim(j, p, target, prev, a, again, sel, res);
      if !retry {
        FinishAiming(j, q, attempt, initial, prev', Held(id, target), ok, sel, res);
      }
    }

    /** Give up what is held, number the new reservation and wait for it. */
    method Aim(j: Job, ghost p: Progress, target: Target, prev: string, a: Attempt, again: bool,
               ghost sel: seq<SelectionRow>, ghost res: seq<ReservationRow>)
      returns (prev': string, id: string, ok: bool)
      requires StandsAt(j, p, sel, res) && p.prev == prev
      modifies this
      ensures Valid() && ok == a.reserve.ReachedPeered?
      ensures PcOf(at, j.consumer) == if ok then Recording(id, target) else AfterFailure(again)
      ensures id == MakeReservationID(run, phase, j.consumer, p.seqNo) && prev' == AfterRelease(p).prev
      ensures HeldBy(j.consumer) == AfterRelease(p).held && NextNumber(j.consumer) == p.seqNo + 1
      ensures SelectionsOf(selections, j.consumer) == sel && ReservationsOf(reservations, j.consumer) == res
    {
      prev', id := Prepare(j, p, target, prev, a.release, sel, res);
      ok := ReserveAndWait(j.consumer, a.reserve, again);
    }

    /** One pass of the retry loop. */
    method OneAttempt(j: Job, ghost p: Progress, attempt: nat, initial: string, prev: string, a: Attempt,
                      ghost sel: seq<SelectionRow>, ghost res: seq<ReservationRow>)
      returns (again: bool, initial': string, prev': string)
      requires StandsAt(j, p, sel, res) && p.attempt == attempt && p.initial == initial && p.prev == prev
      modifies this
      ensures var s := Once(j, a, p);
        && Reaches(j, s, sel, res)
        && again == s.Again?
        && (again ==> initial' == s.progress.initial && prev' == s.progress.prev)
    {
      again, initial', prev' := false, initial, prev;
      Yield(j.consumer);
      if a.list.None? {
        FinishWith(j, p, attempt, initial, ListError, sel, res);
        return;
      }
      var d := Decide(j.suite, HeldProvider(HeldBy(j.consumer)), a.list.value, a.probe);
      match d {
        case Stop(outcome) =>
          FinishWith(j, p, attempt, initial, outcome, sel, res);
        case Keep(outcome, seen) =>
          FinishKeeping(j, p, attempt, First(initial, seen), outcome, sel, res);
        case Move(provider, group) =>
          initial' := First(initial, provider);
          again, prev' := TryTarget(j, p, attempt, initial', prev, a, Target(provider, group), sel, res);
      }
    }

    /** The iteration as one consumer sees it, given what the outside world answers. */
    ghost function Expected(j: Job, env: nat -> Attempt): Outcome
      reads this
    {
      Iterate(j, env, Start(HeldBy(j.consumer), NextNumber(j.consumer)))
    }

    /** The goroutine body. Whatever the other consumers do meanwhile, the shared maps and
        rows end up, for this consumer, as `Iterate` says. */
    method RunIteration(j: Job, env: nat -> Attempt) returns (attempts: nat)
      requires Valid() && PcOf(at, j.consumer).Idle? && j.run == run && j.phase == phase
      modifies this
      ensures attempts == old(Expected(j, env)).attempts
      ensures EndsWith(j, old(Expected(j, env)), old(SelectionsOf(selections, j.consumer)),
                       old(ReservationsOf(reservations, j.consumer)))
    {
      var attempt: nat, initial, prev, again := 0, "", "", true;
      ghost var p := Start(HeldBy(j.consumer), NextNumber(j.consumer));
      ghost var sel, res := SelectionsOf(selections, j.consumer), ReservationsOf(reservations, j.consumer);
      Take(Begin(j.consumer));
      while true
        invariant StandsAt(j, p, sel, res)
        invariant p.attempt == attempt && p.initial == initial && p.prev == prev
        invariant Iterate(j, env, p) == old(Expected(j, env))
        decreases MAX_RACE_RETRIES - attempt
      {
        ghost var s := Once(j, env(attempt), p);
        OutcomeCounts(j, env(attempt), p);
        again, initial, prev := OneAttempt(j, p, attempt, initial, prev, env(attempt), sel, res);
        attempt := attempt + 1;
        if !again {
          return attempt;
        }
        p := s.progress;
      }
    }

    /** One release of the final cleanup. */
    ghost method CleanUpOne(c: string, answer: ReleaseAnswer)
      requires WellFormed(cfg) && Inv(cfg, at) && at.mode.Cleaning? && c in at.mode.todo
      modifies this`at
      ensures Inv(cfg, at) && at.mode == Cleaning(old(at.mode.todo) - {c}) && at.active == old(at.active)
      ensures c in at.active
      ensures at.orphaned.Keys == old(at.orphaned.Keys) + (if answer.Confirmed? then {} else {at.active[c].id})
      ensures at.released == old(at.released) + (if answer.Confirmed? then {at.active[c].id} else {})
    {
      assert HeldOk(cfg, at, c);
      Take(CleanupRelease(c, answer.Confirmed?,
        if answer.Confirmed? then Released else if answer.Refused? then Peered else Unpeering));
    }

    /** All goroutines are joined. */
    ghost method BeginCleanUp()
      requires Valid() && forall c :: c in at.pc ==> at.pc[c].Idle?
      modifies this`at
      ensures Inv(cfg, at) && at.mode == Cleaning(active.Keys) && at.active == active
      ensures at.orphaned == old(at.orphaned) && at.released == old(at.released)
    {
      Take(Join);
    }

    /** How far the cleanup has come: `done` is answered, the rest is still to do. */
    ghost predicate CleanedUp(done: set<string>, answer: string -> ReleaseAnswer, orphaned: set<string>,
                              released: set<string>)
      reads this
    {
      && WellFormed(cfg) && Inv(cfg, at) && at.active == active
      && Answered(active, done, answer, at.mode, orphaned, at.orphaned.Keys, released, at.released)
    }

    ghost method CleanUpNext(c: string, done: set<string>, answer: string -> ReleaseAnswer, orphaned: set<string>,
                             released: set<string>)
      requires CleanedUp(done, answer, orphaned, released) && c in active.Keys - done
      modifies this`at
      ensures CleanedUp(done + {c}, answer, orphaned, released)
    {
      ghost var was, lost, gone := at.mode, at.orphaned.Keys, at.released;
      CleanUpOne(c, answer(c));
      AnsweredNext(active, done, answer, was, orphaned, lost, released, gone, c);
    }

    /** The deferred loop at the end of the phase: everything still active is released, one
        by one, and the maps are left as they are. The ids whose release was not confirmed
        are the ones the phase leaves behind now. */
    method CleanUp(answer: string -> ReleaseAnswer) returns (failed: set<string>)
      requires Valid() && forall c :: c in at.pc ==> at.pc[c].Idle?
      modifies this`at
      ensures Inv(cfg, at) && at.mode == Cleaning({}) && at.active == active
      ensures failed == IdsAnswered(active, active.Keys, answer, false)
      ensures at.orphaned.Keys == old(at.orphaned.Keys) + failed
      ensures at.released == old(at.released) + IdsAnswered(active, active.Keys, answer, true)
    {
      failed := {};
      var done := {};
      BeginCleanUp();
      while active.Keys - done != {}
        invariant CleanedUp(done, answer, old(at.orphaned.Keys), old(at.released))
        invariant failed == IdsAnswered(active, done, answer, false)
        decreases active.Keys - done
      {
        var c :| c in active.Keys - done;
        CleanUpNext(c, done, answer, old(at.orphaned.Keys), old(at.released));
        OneMoreAnswered(active, done, answer, c);
        if !answer(c).Confirmed? {
          failed := failed + {active[c].id};
        }
        done := done + {c};
      }
      assert done == active.Keys;
    }
  }
}
