/**
 The reserve phase as a step system. Every consumer runs its own goroutine; they share
 the mutex-guarded maps `active` and `seqNo` and talk to one Broker. A step is one
 locked access or one Broker call taking effect, so a run is any interleaving of the
 consumers with any pattern of Broker answers.

 The Broker is an environment: a ledger from reservation id to request and phase. It
 may refuse, lose a reply after acting, fail a pending reservation or stay silent, but
 it does not end a Peered reservation on its own.
 */
module ReserveProtocol {

  /** The request one reservation makes: one standard chunk of one provider's group. */
  datatype Target = Target(provider: string, group: string)

  datatype Held = Held(id: string, target: Target)

  datatype BrokerPhase = Pending | Peered | Unpeering | Released | Failed

  datatype Entry = Entry(target: Target, phase: BrokerPhase)

  /** Where one consumer's goroutine stands inside its iteration. */
  datatype Pc =
    | Idle
    | Reading
    | Deleting(held: Held, next: Target)
    | Releasing(held: Held, next: Target)
    | Dropping(held: Held, next: Target, ok: bool)
    | Numbering(next: Target)
    | Posting(id: string, next: Target)
    | Polling(id: string, next: Target)
    | Recording(id: string, next: Target)

  datatype Cause = ReleaseFailed | CleanupFailed | ReserveFailed

  /** `Cleaning(todo)` is the deferred loop that releases what is still active. */
  datatype Mode = Running | Cleaning(todo: set<string>)

  /** What is fixed for one phase: how it names a consumer's k-th reservation, who an id
      belongs to and which of that consumer's ids it is, and the ledger it starts on. */
  datatype Config = Config(
    name: (string, nat) -> string,
    owner: string -> string,
    number: string -> nat,
    base: map<string, Entry>)

  datatype State = State(
    ledger: map<string, Entry>,
    active: map<string, Held>,
    seqNo: map<string, nat>,
    pc: map<string, Pc>,
    released: set<string>,
    orphaned: map<string, Cause>,
    mode: Mode)

  /** `again` says whether the iteration loop retries after a failed reservation. */
  datatype Event =
    | Begin(c: string)
    | End(c: string)
    | Choose(c: string, next: Target)
    | DeleteRefused(c: string)
    | DeleteLost(c: string)
    | DeleteAccepted(c: string)
    | BrokerReleases(c: string)
    | ReleaseConfirmed(c: string)
    | ReleaseGivesUp(c: string)
    | Drop(c: string)
    | Number(c: string)
    | PostRefused(c: string, again: bool)
    | PostLost(c: string, again: bool)
    | PostAccepted(c: string)
    | BrokerPeers(c: string)
    | BrokerFails(c: string)
    | WaitConfirmed(c: string)
    | WaitGivesUp(c: string, again: bool)
    | Record(c: string)
    | OrphanMoves(id: string, to: BrokerPhase)
    | Join
    | CleanupRelease(c: string, ok: bool, to: BrokerPhase)

  function PcOf(s: State, c: string): Pc {
    if c in s.pc then s.pc[c] else Idle
  }

  function SeqOf(s: State, c: string): nat {
    if c in s.seqNo then s.seqNo[c] else 0
  }

  function SetPc(s: State, c: string, p: Pc): State {
    s.(pc := s.pc[c := p])
  }

  function SetPhase(s: State, id: string, p: BrokerPhase): State
    requires id in s.ledger
  {
    s.(ledger := s.ledger[id := s.ledger[id].(phase := p)])
  }

  function AfterFailure(again: bool): Pc {
    if again then Reading else Idle
  }

  function Init(cfg: Config): State {
    State(cfg.base, map[], map[], map[], {}, map[], Running)
  }

  /** A first POST is answered 409 when the id is taken by another request. */
  predicate CanPost(s: State, id: string, next: Target) {
    id in s.ledger ==> s.ledger[id].target == next
  }

  predicate Enabled(s: State, e: Event) {
    match e
    case Begin(c) => s.mode.Running? && PcOf(s, c).Idle?
    case End(c) => PcOf(s, c).Reading?
    case Choose(c, _) => PcOf(s, c).Reading?
    case DeleteRefused(c) => PcOf(s, c).Deleting?
    case DeleteLost(c) => PcOf(s, c).Deleting? && PcOf(s, c).held.id in s.ledger
    case DeleteAccepted(c) => PcOf(s, c).Deleting? && PcOf(s, c).held.id in s.ledger
    case BrokerReleases(c) =>
      PcOf(s, c).Releasing? && PcOf(s, c).held.id in s.ledger && s.ledger[PcOf(s, c).held.id].phase == Unpeering
    case ReleaseConfirmed(c) =>
      PcOf(s, c).Releasing? && PcOf(s, c).held.id in s.ledger && s.ledger[PcOf(s, c).held.id].phase == Released
    case ReleaseGivesUp(c) => PcOf(s, c).Releasing?
    case Drop(c) => PcOf(s, c).Dropping?
    case Number(c) => PcOf(s, c).Numbering?
    case PostRefused(c, _) => PcOf(s, c).Posting?
    case PostLost(c, _) => PcOf(s, c).Posting? && CanPost(s, PcOf(s, c).id, PcOf(s, c).next)
    case PostAccepted(c) => PcOf(s, c).Posting? && CanPost(s, PcOf(s, c).id, PcOf(s, c).next)
    case BrokerPeers(c) =>
      PcOf(s, c).Polling? && PcOf(s, c).id in s.ledger && s.ledger[PcOf(s, c).id].phase == Pending
    case BrokerFails(c) =>
      PcOf(s, c).Polling? && PcOf(s, c).id in s.ledger && s.ledger[PcOf(s, c).id].phase == Pending
    case WaitConfirmed(c) =>
      PcOf(s, c).Polling? && PcOf(s, c).id in s.ledger && s.ledger[PcOf(s, c).id].phase == Peered
    case WaitGivesUp(c, _) => PcOf(s, c).Polling?
    case Record(c) => PcOf(s, c).Recording?
    case OrphanMoves(id, _) => id in s.orphaned && id in s.ledger
    case Join => s.mode.Running? && forall c :: c in s.pc ==> s.pc[c].Idle?
    case CleanupRelease(c, ok, to) =>
      && s.mode.Cleaning? && c in s.mode.todo && c in s.active && s.active[c].id in s.ledger
      && (ok ==> to == Released)
  }

  function Post(s: State, id: string, next: Target): State {
    if id in s.ledger then s else s.(ledger := s.ledger[id := Entry(next, Pending)])
  }

  function Settle(s: State, id: string, ok: bool, cause: Cause): State {
    if ok then s.(released := s.released + {id}) else s.(orphaned := s.orphaned[id := cause])
  }

  function Apply(cfg: Config, s: State, e: Event): State
    requires Enabled(s, e)
  {
    match e
    case Begin(c) => SetPc(s, c, Reading)
    case End(c) => SetPc(s, c, Idle)
    case Choose(c, next) =>
      SetPc(s, c, if c in s.active then Deleting(s.active[c], next) else Numbering(next))
    case DeleteRefused(c) =>
      SetPc(s, c, Dropping(PcOf(s, c).held, PcOf(s, c).next, false))
    case DeleteLost(c) =>
      SetPc(SetPhase(s, PcOf(s, c).held.id, Unpeering), c, Dropping(PcOf(s, c).held, PcOf(s, c).next, false))
    case DeleteAccepted(c) =>
      SetPc(SetPhase(s, PcOf(s, c).held.id, Unpeering), c, Releasing(PcOf(s, c).held, PcOf(s, c).next))
    case BrokerReleases(c) => SetPhase(s, PcOf(s, c).held.id, Released)
    case ReleaseConfirmed(c) =>
      SetPc(s, c, Dropping(PcOf(s, c).held, PcOf(s, c).next, true))
    case ReleaseGivesUp(c) =>
      SetPc(s, c, Dropping(PcOf(s, c).held, PcOf(s, c).next, false))
    case Drop(c) =>
      var p := PcOf(s, c);
      SetPc(Settle(s.(active := s.active - {c}), p.held.id, p.ok, ReleaseFailed), c, Numbering(p.next))
    case Number(c) =>
      SetPc(s.(seqNo := s.seqNo[c := SeqOf(s, c) + 1]), c, Posting(cfg.name(c, SeqOf(s, c)), PcOf(s, c).next))
    case PostRefused(c, again) => SetPc(s, c, AfterFailure(again))
    case PostLost(c, again) =>
      var p := PcOf(s, c);
      SetPc(Settle(Post(s, p.id, p.next), p.id, false, ReserveFailed), c, AfterFailure(again))
    case PostAccepted(c) =>
      var p := PcOf(s, c);
      SetPc(Post(s, p.id, p.next), c, Polling(p.id, p.next))
    case BrokerPeers(c) => SetPhase(s, PcOf(s, c).id, Peered)
    case BrokerFails(c) => SetPhase(s, PcOf(s, c).id, Failed)
    case WaitConfirmed(c) => SetPc(s, c, Recording(PcOf(s, c).id, PcOf(s, c).next))
    case WaitGivesUp(c, again) =>
      SetPc(Settle(s, PcOf(s, c).id, false, ReserveFailed), c, AfterFailure(again))
    case Record(c) =>
      SetPc(s.(active := s.active[c := Held(PcOf(s, c).id, PcOf(s, c).next)]), c, Idle)
    case OrphanMoves(id, to) => SetPhase(s, id, to)
    case Join => s.(mode := Cleaning(s.active.Keys))
    case CleanupRelease(c, ok, to) =>
      var id := s.active[c].id;
      Settle(SetPhase(s, id, to), id, ok, CleanupFailed).(mode := Cleaning(s.mode.todo - {c}))
  }

  ghost predicate ValidRun(cfg: Config, s: State, es: seq<Event>)
    decreases |es|
  {
    es == [] || (Enabled(s, es[0]) && ValidRun(cfg, Apply(cfg, s, es[0]), es[1..]))
  }

  ghost function Run(cfg: Config, s: State, es: seq<Event>): State
    requires ValidRun(cfg, s, es)
    decreases |es|
  {
    if es == [] then s else Run(cfg, Apply(cfg, s, es[0]), es[1..])
  }

  // ---------------------------------------------------------------------------
  // What every reachable state satisfies
  // ---------------------------------------------------------------------------

  predicate IsName(cfg: Config, id: string) {
    cfg.name(cfg.owner(id), cfg.number(id)) == id
  }

  /** Names are told apart, and none of this phase's is in use when it starts. */
  ghost predicate WellFormed(cfg: Config) {
    && (forall c: string, k: nat :: cfg.owner(cfg.name(c, k)) == c && cfg.number(cfg.name(c, k)) == k)
    && (forall id :: id in cfg.base ==> !IsName(cfg, id))
  }

  /** `id` is one of the ids consumer `c` has taken so far. */
  predicate Owns(cfg: Config, s: State, c: string, id: string) {
    IsName(cfg, id) && cfg.owner(id) == c && cfg.number(id) < SeqOf(s, c)
  }

  predicate StillActive(s: State, c: string) {
    c in s.active && (s.mode.Running? || c in s.mode.todo)
  }

  function ActiveIds(s: State): set<string> {
    set c | c in s.active && StillActive(s, c) :: s.active[c].id
  }

  predicate InFlight(p: Pc) {
    p.Polling? || p.Recording?
  }

  function FlightIds(s: State): set<string> {
    set c | c in s.pc && InFlight(s.pc[c]) :: s.pc[c].id
  }

  function CreatedIds(cfg: Config, s: State): set<string> {
    s.ledger.Keys - cfg.base.Keys
  }

  /** Between the accepted DELETE and the bookkeeping that follows it. */
  predicate InReleaseWindow(p: Pc) {
    p.Releasing? || p.Dropping?
  }

  ghost predicate BaseUntouched(cfg: Config, s: State) {
    forall id :: id in cfg.base ==> id in s.ledger && s.ledger[id] == cfg.base[id]
  }

  ghost predicate CreatedAreOwned(cfg: Config, s: State) {
    forall id :: id in CreatedIds(cfg, s) ==> Owns(cfg, s, cfg.owner(id), id)
  }

  /** An active id is the consumer's own and is held at the Broker for the recorded
      request, unless the consumer is just releasing it. */
  ghost predicate HeldOk(cfg: Config, s: State, c: string) {
    c in s.active ==>
      && Owns(cfg, s, c, s.active[c].id)
      && s.active[c].id in s.ledger
      && s.ledger[s.active[c].id].target == s.active[c].target
      && (StillActive(s, c) && !InReleaseWindow(PcOf(s, c)) ==> s.ledger[s.active[c].id].phase == Peered)
  }

  ghost predicate PcOk(cfg: Config, s: State, c: string) {
    match PcOf(s, c)
    case Idle => true
    case Reading => true
    case Deleting(h, _) => c in s.active && s.active[c] == h
    case Releasing(h, _) => c in s.active && s.active[c] == h
    case Dropping(h, _, ok) =>
      c in s.active && s.active[c] == h && h.id in s.ledger && (ok ==> s.ledger[h.id].phase == Released)
    case Numbering(_) => c !in s.active
    case Posting(id, _) =>
      c !in s.active && SeqOf(s, c) > 0 && id == cfg.name(c, SeqOf(s, c) - 1) && id !in s.ledger
    case Polling(id, next) =>
      && c !in s.active && SeqOf(s, c) > 0 && id == cfg.name(c, SeqOf(s, c) - 1)
      && id in s.ledger && s.ledger[id].target == next
    case Recording(id, next) =>
      && c !in s.active && SeqOf(s, c) > 0 && id == cfg.name(c, SeqOf(s, c) - 1)
      && id in s.ledger && s.ledger[id] == Entry(next, Peered)
  }

  ghost predicate ModeOk(s: State) {
    s.mode.Cleaning? ==> s.mode.todo <= s.active.Keys && forall c :: c in s.pc ==> s.pc[c].Idle?
  }

  /** Every id the phase created is active, in flight, released or orphaned, and is
      only one of these. */
  ghost predicate Partitioned(cfg: Config, s: State) {
    && CreatedIds(cfg, s) == ActiveIds(s) + FlightIds(s) + s.released + s.orphaned.Keys
    && ActiveIds(s) !! FlightIds(s)
    && (ActiveIds(s) + FlightIds(s)) !! s.released
    && (ActiveIds(s) + FlightIds(s)) !! s.orphaned.Keys
    && s.released !! s.orphaned.Keys
  }

  ghost predicate ReleasedAreFree(s: State) {
    forall id :: id in s.released ==> id in s.ledger && s.ledger[id].phase == Released
  }

  ghost predicate Inv(cfg: Config, s: State) {
    && BaseUntouched(cfg, s)
    && CreatedAreOwned(cfg, s)
    && (forall c :: HeldOk(cfg, s, c))
    && (forall c :: PcOk(cfg, s, c))
    && ModeOk(s)
    && Partitioned(cfg, s)
    && ReleasedAreFree(s)
  }
}
