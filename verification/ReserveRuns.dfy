/**
 What whole runs of the reserve phase do: which ids they post, across both phases, and
 how a reservation can come to be left behind.
 */
module ReserveRuns {
  import opened ReservationIds
  import opened ReserveProtocol
  import opened ReserveInvariant
  import opened PhaseTransition

  // ---------------------------------------------------------------------------
  // The ids a run posts
  // ---------------------------------------------------------------------------

  /** A request sent to the Broker under an id. */
  datatype Posted = Posted(id: string, request: Target)

  predicate IsPost(e: Event) {
    e.PostRefused? || e.PostLost? || e.PostAccepted?
  }

  /** Every first POST of a run, refused ones included. The polls that follow an accepted
      one repeat its request. */
  ghost function Posts(cfg: Config, s: State, es: seq<Event>): seq<Posted>
    requires ValidRun(cfg, s, es)
    decreases |es|
  {
    if es == [] then []
    else
      (if IsPost(es[0]) then [Posted(PcOf(s, es[0].c).id, PcOf(s, es[0].c).next)] else []) +
      Posts(cfg, Apply(cfg, s, es[0]), es[1..])
  }

  /** `id` was handed out before: its number is below its owner's next one, and it is not
      the id its owner is about to post. */
  predicate Spent(cfg: Config, s: State, id: string) {
    var c := cfg.owner(id);
    && Owns(cfg, s, c, id)
    && (PcOf(s, c).Posting? ==> PcOf(s, c).id != id)
  }

  /** The number a consumer has reached never falls, and moves only when it takes one. */
  lemma NumbersMove(cfg: Config, s: State, e: Event, c: string)
    requires Enabled(s, e)
    ensures SeqOf(Apply(cfg, s, e), c) == SeqOf(s, c) + if e == Number(c) then 1 else 0
  {
  }

  /** The numbers a run hands to one consumer, in order. */
  function Numbers(cfg: Config, s: State, es: seq<Event>, c: string): seq<nat>
    requires ValidRun(cfg, s, es)
    decreases |es|
  {
    if es == [] then []
    else (if es[0] == Number(c) then [SeqOf(s, c)] else []) + Numbers(cfg, Apply(cfg, s, es[0]), es[1..], c)
  }

  /** No number is handed out twice: in every run a consumer gets consecutive numbers,
      whatever became of the reservations they were for. */
  lemma {:induction false} NumbersNeverRepeat(cfg: Config, s: State, es: seq<Event>, c: string)
    requires ValidRun(cfg, s, es)
    ensures var ns := Numbers(cfg, s, es, c);
      && (forall i :: 0 <= i < |ns| ==> ns[i] == SeqOf(s, c) + i)
      && SeqOf(Run(cfg, s, es), c) == SeqOf(s, c) + |ns|
    decreases |es|
  {
    if es != [] {
      NumbersMove(cfg, s, es[0], c);
      NumbersNeverRepeat(cfg, Apply(cfg, s, es[0]), es[1..], c);
    }
  }

  /** Only taking a number makes a consumer about to post. */
  lemma PostingBegins(cfg: Config, s: State, e: Event, c: string)
    requires Enabled(s, e) && PcOf(Apply(cfg, s, e), c).Posting?
    ensures e == Number(c) || PcOf(Apply(cfg, s, e), c) == PcOf(s, c)
    ensures e == Number(c) ==> PcOf(Apply(cfg, s, e), c).id == cfg.name(c, SeqOf(s, c))
  {
  }

  lemma StaysSpent(cfg: Config, s: State, e: Event, id: string)
    requires WellFormed(cfg) && Enabled(s, e) && Spent(cfg, s, id)
    ensures Spent(cfg, Apply(cfg, s, e), id)
  {
    var c := cfg.owner(id);
    NumbersMove(cfg, s, e, c);
    if PcOf(Apply(cfg, s, e), c).Posting? {
      PostingBegins(cfg, s, e, c);
      assert cfg.number(cfg.name(c, SeqOf(s, c))) == SeqOf(s, c);
    }
  }

  lemma PostedIsOwned(cfg: Config, s: State, e: Event)
    requires WellFormed(cfg) && Inv(cfg, s) && Enabled(s, e) && IsPost(e)
    ensures Owns(cfg, s, e.c, PcOf(s, e.c).id) && cfg.owner(PcOf(s, e.c).id) == e.c
  {
    assert PcOk(cfg, s, e.c) && HeldOk(cfg, s, e.c);
    NamedIsOwned(cfg, s, e.c);
  }

  lemma BecomesSpent(cfg: Config, s: State, e: Event)
    requires WellFormed(cfg) && Inv(cfg, s) && Enabled(s, e) && IsPost(e)
    ensures !Spent(cfg, s, PcOf(s, e.c).id)
    ensures Spent(cfg, Apply(cfg, s, e), PcOf(s, e.c).id)
  {
    PostedIsOwned(cfg, s, e);
    NumbersMove(cfg, s, e, e.c);
    assert !PcOf(Apply(cfg, s, e), e.c).Posting?;
  }

  /** What a run posts was not spent before it, is never posted again, and belongs to the
      phase. */
  lemma {:induction false} PostsAreNew(cfg: Config, s: State, es: seq<Event>)
    requires WellFormed(cfg) && Inv(cfg, s) && ValidRun(cfg, s, es)
    ensures forall i :: 0 <= i < |Posts(cfg, s, es)| ==>
      IsName(cfg, Posts(cfg, s, es)[i].id) && !Spent(cfg, s, Posts(cfg, s, es)[i].id)
    ensures forall i, j :: 0 <= i < j < |Posts(cfg, s, es)| ==> Posts(cfg, s, es)[i].id != Posts(cfg, s, es)[j].id
    decreases |es|
  {
    if es != [] {
      var e, s' := es[0], Apply(cfg, s, es[0]);
      StepKeeps(cfg, s, e);
      PostsAreNew(cfg, s', es[1..]);
      var rest, all := Posts(cfg, s', es[1..]), Posts(cfg, s, es);
      forall i | 0 <= i < |rest|
        ensures !Spent(cfg, s, rest[i].id)
      {
        if Spent(cfg, s, rest[i].id) {
          StaysSpent(cfg, s, e, rest[i].id);
        }
      }
      if IsPost(e) {
        BecomesSpent(cfg, s, e);
        PostedIsOwned(cfg, s, e);
        assert all[1..] == rest;
      } else {
        assert all == rest;
      }
    }
  }

  /** In every run of a phase no two first POSTs carry the same id. */
  lemma NoIdIsPostedTwice(cfg: Config, es: seq<Event>, i: nat, j: nat)
    requires WellFormed(cfg) && ValidRun(cfg, Init(cfg), es)
    requires i < |Posts(cfg, Init(cfg), es)| && j < |Posts(cfg, Init(cfg), es)|
    requires Posts(cfg, Init(cfg), es)[i].id == Posts(cfg, Init(cfg), es)[j].id
    ensures i == j
  {
    InitKeeps(cfg);
    PostsAreNew(cfg, Init(cfg), es);
  }

  lemma NamesOfPhase(run: string, phase: string, base: map<string, Entry>, id: string)
    requires IsName(HarnessConfig(run, phase, base), id)
    ensures NamedBy(run, phase, id)
  {
    var cfg := HarnessConfig(run, phase, base);
    assert id == MakeReservationID(run, phase, cfg.owner(id), cfg.number(id));
  }

  lemma PhasesDiffer(run: string, id: string)
    requires NamedBy(run, PHASE_A, id)
    ensures !NamedBy(run, PHASE_B, id)
  {
    var c, k: nat :| id == MakeReservationID(run, PHASE_A, c, k);
    forall c': string, k': nat
      ensures id != MakeReservationID(run, PHASE_B, c', k')
    {
      if id == MakeReservationID(run, PHASE_B, c', k') {
        IdsInjective(run, PHASE_A, c, k, PHASE_B, c', k');
      }
    }
  }

  /** Across both phases of a run, with every interleaving and every answer in each, no id
      is ever posted with two different requests: no two first POSTs share an id at all. */
  lemma PhasesPostOnce(run: string, base: map<string, Entry>, esA: seq<Event>, esB: seq<Event>)
    requires forall id :: id in base ==> !NamedBy(run, PHASE_A, id) && !NamedBy(run, PHASE_B, id)
    requires ValidRun(HarnessConfig(run, PHASE_A, base), Init(HarnessConfig(run, PHASE_A, base)), esA)
    requires var a := HarnessConfig(run, PHASE_A, base);
      var b := HarnessConfig(run, PHASE_B, Run(a, Init(a), esA).ledger);
      ValidRun(b, Init(b), esB)
    ensures var a := HarnessConfig(run, PHASE_A, base);
      var b := HarnessConfig(run, PHASE_B, Run(a, Init(a), esA).ledger);
      var posts := Posts(a, Init(a), esA) + Posts(b, Init(b), esB);
      forall i, j :: 0 <= i < j < |posts| ==> posts[i].id != posts[j].id
  {
    var a := HarnessConfig(run, PHASE_A, base);
    HarnessConfigIsWellFormed(run, PHASE_A, base);
    InitKeeps(a);
    RunKeeps(a, Init(a), esA);
    var s := Run(a, Init(a), esA);
    SecondPhaseIsWellFormed(run, base, s);
    var b := HarnessConfig(run, PHASE_B, s.ledger);
    InitKeeps(b);
    PostsAreNew(a, Init(a), esA);
    PostsAreNew(b, Init(b), esB);
    var pa, pb := Posts(a, Init(a), esA), Posts(b, Init(b), esB);
    forall i, j | 0 <= i < |pa| && 0 <= j < |pb|
      ensures pa[i].id != pb[j].id
    {
      NamesOfPhase(run, PHASE_A, base, pa[i].id);
      NamesOfPhase(run, PHASE_B, s.ledger, pb[j].id);
      PhasesDiffer(run, pa[i].id);
    }
  }

  // ---------------------------------------------------------------------------
  // How a reservation is left behind
  // ---------------------------------------------------------------------------

  /** Some step of the run loses track of `id`. */
  ghost predicate LostIn(cfg: Config, s: State, es: seq<Event>, id: string)
    requires ValidRun(cfg, s, es)
    decreases |es|
  {
    es != [] && (LosesTrack(s, es[0], id) || LostIn(cfg, Apply(cfg, s, es[0]), es[1..], id))
  }

  /** Over any run, an id is orphaned exactly when it was before or when some step of the
      run was a failed release of it, or a reservation of it that failed after creation. */
  lemma {:induction false} OrphanedExactlyWhenLost(cfg: Config, s: State, es: seq<Event>, id: string)
    requires ValidRun(cfg, s, es)
    ensures id in Run(cfg, s, es).orphaned <==> id in s.orphaned || LostIn(cfg, s, es, id)
    decreases |es|
  {
    if es != [] {
      ClassIsFinal(cfg, s, es[0], id);
      if id !in s.orphaned {
        OrphanedOnlyBy(cfg, s, es[0], id);
      }
      OrphanedExactlyWhenLost(cfg, Apply(cfg, s, es[0]), es[1..], id);
      if id in s.orphaned {
        AlreadyOrphaned(cfg, s, es, id);
      }
    }
  }

  lemma {:induction false} AlreadyOrphaned(cfg: Config, s: State, es: seq<Event>, id: string)
    requires ValidRun(cfg, s, es) && id in s.orphaned
    ensures id in Run(cfg, s, es).orphaned
    decreases |es|
  {
    if es != [] {
      ClassIsFinal(cfg, s, es[0], id);
      AlreadyOrphaned(cfg, Apply(cfg, s, es[0]), es[1..], id);
    }
  }

  /** A reservation the phase made that the Broker does not show as released when the
      cleanup is over was lost in one of the ways above, whatever happened in the run. */
  lemma LeftBehindOnlyIfLost(cfg: Config, es: seq<Event>, id: string)
    requires WellFormed(cfg) && ValidRun(cfg, Init(cfg), es)
    requires Run(cfg, Init(cfg), es).mode == Cleaning({}) && id in CreatedIds(cfg, Run(cfg, Init(cfg), es))
    ensures Run(cfg, Init(cfg), es).ledger[id].phase != Released ==> LostIn(cfg, Init(cfg), es, id)
  {
    ReachableKeeps(cfg, es);
    PhaseEnd(cfg, Run(cfg, Init(cfg), es));
    OrphanedExactlyWhenLost(cfg, Init(cfg), es, id);
  }

  /** When no step loses track of anything, everything the phase made is released at the
      Broker when the cleanup is over. */
  lemma CarefulRunReleasesAll(cfg: Config, es: seq<Event>)
    requires WellFormed(cfg) && ValidRun(cfg, Init(cfg), es)
    requires Run(cfg, Init(cfg), es).mode == Cleaning({})
    requires forall id :: !LostIn(cfg, Init(cfg), es, id)
    ensures forall id :: id in CreatedIds(cfg, Run(cfg, Init(cfg), es)) ==>
      Run(cfg, Init(cfg), es).ledger[id].phase == Released
  {
    forall id | id in CreatedIds(cfg, Run(cfg, Init(cfg), es))
      ensures Run(cfg, Init(cfg), es).ledger[id].phase == Released
    {
      LeftBehindOnlyIfLost(cfg, es, id);
    }
  }
}
