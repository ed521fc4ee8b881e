/**
 One consumer's iteration: read, decide, release, reserve, retry, and write the rows.
 `Iterate` is what an iteration amounts to for the consumer that runs it. The class
 holds the state the consumers share and runs the iteration as the goroutine does, with
 the other consumers free to move between any two of its steps; it follows the step
 system of ReserveProtocol and still produces `Iterate`.
 */
module ReserveIteration {
  import opened Views
  import opened ReservationIds
  import opened ReserveProtocol
  import opened ReserveDecision

  const MAX_RACE_RETRIES: nat := 10

  datatype Action = KeepIt | Create | Switch

  datatype Failure = TooManyRequests | Conflict | Transient | OtherError

  /** How ReleaseAndWait ended: confirmed, refused, acted on but not answered, or accepted
      and never confirmed. */
  datatype ReleaseAnswer = Confirmed | Refused | Unanswered | Unconfirmed

  /** How ReserveAndWait ended: Peered, or an error before the reservation existed, with
      the reply to the creation, or after it. */
  datatype ReserveAnswer =
    | ReachedPeered
    | NotCreated(why: Failure)
    | CreationUnanswered(why: Failure)
    | FailedAfterCreation(why: Failure)

  /** Everything the outside world answers during one attempt. `wakes` is false when the
      run is cancelled during the back-off after a 429. */
  datatype Attempt = Attempt(
    list: Option<Listing>,
    probe: Option<Probe>,
    release: ReleaseAnswer,
    reserve: ReserveAnswer,
    wakes: bool)

  datatype SelectionRow = SelectionRow(
    consumer: string, iteration: nat, provider: string, group: string, reservation: string,
    outcome: Label, initial: string, retries: nat)

  datatype ReservationRow = ReservationRow(
    consumer: string, iteration: nat, reservation: string, provider: string, group: string,
    action: Action, prev: string, outcome: Label, initial: string, retries: nat)

  /** What stays fixed during an iteration. */
  datatype Job = Job(suite: Suite, run: string, phase: string, consumer: string, iteration: nat)

  /** The loop variables, and what the shared maps hold for this consumer. */
  datatype Progress = Progress(
    attempt: nat, held: Option<Held>, seqNo: nat, initial: string, prev: string, released: Option<Held>)

  datatype Outcome = Outcome(
    attempts: nat, held: Option<Held>, seqNo: nat, released: Option<Held>, cancelled: bool,
    selections: seq<SelectionRow>, reservations: seq<ReservationRow>)

  function HeldProvider(h: Option<Held>): Option<string> {
    if h.Some? then Some(h.value.target.provider) else None
  }

  function Finish(p: Progress, sel: seq<SelectionRow>, res: seq<ReservationRow>): Outcome {
    Outcome(p.attempt + 1, p.held, p.seqNo, p.released, false, sel, res)
  }

  function First(initial: string, seen: string): string {
    if initial == "" then seen else initial
  }

  function StopRow(j: Job, p: Progress, outcome: Label): SelectionRow {
    SelectionRow(j.consumer, j.iteration, "", "", "", outcome, p.initial, p.attempt)
  }

  function TargetRow(j: Job, p: Progress, h: Held, outcome: Label): SelectionRow {
    SelectionRow(j.consumer, j.iteration, h.target.provider, h.target.group, h.id, outcome, p.initial, p.attempt)
  }

  function ActionRow(j: Job, p: Progress, h: Held, action: Action, prev: string, outcome: Label): ReservationRow {
    ReservationRow(j.consumer, j.iteration, h.id, h.target.provider, h.target.group, action, prev, outcome,
                   p.initial, p.attempt)
  }

  function ActionAfter(prev: string): Action {
    if prev != "" then Switch else Create
  }

  /** The reservation given up before the consumer aims elsewhere. */
  function AfterRelease(p: Progress): Progress {
    if p.held.Some? && p.prev == ""
    then p.(held := None, prev := p.held.value.target.provider, released := p.held)
    else p
  }

  predicate Retries(why: Failure, attempt: nat) {
    attempt < MAX_RACE_RETRIES && !why.OtherError?
  }

  datatype Step = Done(outcome: Outcome) | Again(progress: Progress)

  /** What follows from an attempt's decision and the Broker's answers to it. */
  function Conclude(j: Job, a: Attempt, p: Progress, d: Decision): (s: Step)
    requires d.Keep? ==> p.held.Some?
    ensures s.Again? ==> s.progress.attempt == p.attempt + 1 <= MAX_RACE_RETRIES
  {
    match d
    case Stop(outcome) => Done(Finish(p, [StopRow(j, p, outcome)], []))
    case Keep(outcome, seen) =>
      var q := p.(initial := First(p.initial, seen));
      Done(Finish(q, [TargetRow(j, q, p.held.value, outcome)],
                     [ActionRow(j, q, p.held.value, KeepIt, "", outcome)]))
    case Move(provider, group) =>
      var q := AfterRelease(p).(initial := First(p.initial, provider), seqNo := p.seqNo + 1);
      var h := Held(MakeReservationID(j.run, j.phase, j.consumer, p.seqNo), Target(provider, group));
      if a.reserve.ReachedPeered? then
        Done(Finish(q.(held := Some(h)), [TargetRow(j, q, h, Success)],
                    [ActionRow(j, q, h, ActionAfter(q.prev), q.prev, Success)]))
      else if Retries(a.reserve.why, p.attempt) then
        if a.reserve.why.TooManyRequests? && !a.wakes
        then Done(Outcome(q.attempt + 1, q.held, q.seqNo, q.released, true, [], []))
        else Again(q.(attempt := p.attempt + 1))
      else
        Done(Finish(q, [TargetRow(j, q, h, ReserveError)],
                    [ActionRow(j, q, h, ActionAfter(q.prev), q.prev, ReserveError)]))
  }

  function Once(j: Job, a: Attempt, p: Progress): (s: Step)
    ensures s.Again? ==> s.progress.attempt == p.attempt + 1 <= MAX_RACE_RETRIES
  {
    if a.list.None? then Done(Finish(p, [StopRow(j, p, ListError)], []))
    else Conclude(j, a, p, Decide(j.suite, HeldProvider(p.held), a.list.value, a.probe))
  }

  /** The whole iteration, from loop progress `p` on. */
  function Iterate(j: Job, env: nat -> Attempt, p: Progress): Outcome
    requires p.attempt <= MAX_RACE_RETRIES
    decreases MAX_RACE_RETRIES - p.attempt
  {
    match Once(j, env(p.attempt), p)
    case Done(o) => o
    case Again(q) => Iterate(j, env, q)
  }

  function Start(held: Option<Held>, seqNo: nat): Progress {
    Progress(0, held, seqNo, "", "", None)
  }

  // ---------------------------------------------------------------------------
  // What an iteration guarantees
  // ---------------------------------------------------------------------------

  /** Loop progress an iteration can be in: once something was released, nothing is held. */
  predicate Sound(p: Progress) {
    && p.attempt <= MAX_RACE_RETRIES
    && (p.released.Some? ==> p.held.None? && p.prev == p.released.value.target.provider)
    && (p.released.None? ==> p.prev == "")
  }

  /** The rows an iteration leaves: none when cancelled in the back-off, otherwise one
      selection row and at most one reservation row, which says `switch` exactly when a
      reservation on a named provider was given up. */
  ghost predicate RowsOk(j: Job, o: Outcome) {
    && (o.cancelled <==> o.selections == [])
    && (o.cancelled ==> o.reservations == [])
    && |o.selections| <= 1 && |o.reservations| <= 1
    && (forall r :: r in o.selections ==>
         r.consumer == j.consumer && r.iteration == j.iteration && r.retries == o.attempts - 1)
    && (forall r :: r in o.reservations ==>
         && r.consumer == j.consumer && r.iteration == j.iteration && r.retries == o.attempts - 1
         && (r.action == Switch <==> o.released.Some? && o.released.value.target.provider != "")
         && (r.action == KeepIt ==> o.released.None? && o.held.Some? && o.held.value.id == r.reservation)
         && (r.action != KeepIt && r.outcome == Success ==> o.held.Some? && o.held.value.id == r.reservation)
         && r.prev == (if o.released.Some? then o.released.value.target.provider else "")
         && SameEnd(o.selections[0], r))
  }

  /** Both rows tell of the same reservation. */
  predicate SameEnd(s: SelectionRow, r: ReservationRow) {
    && s.reservation == r.reservation && s.provider == r.provider && s.group == r.group
    && s.outcome == r.outcome && s.initial == r.initial
  }

  /** What the loop keeps from `p` to a later progress or outcome of `p`'s consumer. */
  ghost predicate Within(j: Job, p: Progress, attempts: nat, held: Option<Held>, seqNo: nat, released: Option<Held>) {
    && p.attempt + 1 <= attempts <= MAX_RACE_RETRIES + 1
    && (released == p.released || (p.released.None? && p.held.Some? && released == p.held))
    && p.seqNo <= seqNo <= p.seqNo + (attempts - p.attempt)
    && (held == p.held || held.None? ||
        (p.seqNo < seqNo && held.value.id == MakeReservationID(j.run, j.phase, j.consumer, seqNo - 1)))
  }

  /** What one attempt leaves, whether it ends the iteration or not. */
  ghost predicate StepOk(j: Job, p: Progress, s: Step) {
    match s
    case Done(o) => RowsOk(j, o) && Within(j, p, o.attempts, o.held, o.seqNo, o.released)
    case Again(q) => Sound(q) && q.held.None? && Within(j, p, q.attempt, q.held, q.seqNo, q.released)
  }

  lemma PeeredGuarantees(j: Job, a: Attempt, p: Progress, d: Decision)
    requires Sound(p) && d.Move? && a.reserve.ReachedPeered?
    ensures StepOk(j, p, Conclude(j, a, p, d))
  {
  }

  lemma FailedGuarantees(j: Job, a: Attempt, p: Progress, d: Decision)
    requires Sound(p) && d.Move? && !a.reserve.ReachedPeered?
    ensures StepOk(j, p, Conclude(j, a, p, d))
  {
  }

  lemma AttemptGuarantees(j: Job, a: Attempt, p: Progress, d: Decision)
    requires Sound(p) && (d.Keep? ==> p.held.Some?)
    ensures StepOk(j, p, Conclude(j, a, p, d))
  {
    if d.Move? && a.reserve.ReachedPeered? {
      PeeredGuarantees(j, a, p, d);
    } else if d.Move? {
      FailedGuarantees(j, a, p, d);
    }
  }

  /** The attempt count an iteration ends with is the pass it ends in. */
  lemma OutcomeCounts(j: Job, a: Attempt, p: Progress)
    ensures var s := Once(j, a, p); s.Done? ==> s.outcome.attempts == p.attempt + 1
  {
  }

  /** An iteration ends within eleven attempts, gives up at most the reservation it came
      with, takes at most one number per attempt, ends up holding what it came with, nothing
      or the last id it asked for, and leaves the rows above. */
  lemma {:induction false} IterationGuarantees(j: Job, env: nat -> Attempt, p: Progress)
    requires Sound(p)
    ensures var o := Iterate(j, env, p);
      RowsOk(j, o) && Within(j, p, o.attempts, o.held, o.seqNo, o.released)
    decreases MAX_RACE_RETRIES - p.attempt
  {
    var a := env(p.attempt);
    if a.list.Some? {
      var d := Decide(j.suite, HeldProvider(p.held), a.list.value, a.probe);
      AttemptGuarantees(j, a, p, d);
      var s := Conclude(j, a, p, d);
      if s.Again? {
        IterationGuarantees(j, env, s.progress);
      }
    }
  }

  // ---------------------------------------------------------------------------
  // What the rows name
  // ---------------------------------------------------------------------------

  /** The reservation row names what was kept or asked for, and what it asked for is held
      exactly when it succeeded; without a reservation row the selection row names nothing. */
  ghost predicate RowsName(j: Job, o: Outcome) {
    && (o.reservations == [] && o.selections != [] ==>
          var s := o.selections[0]; s.provider == "" && s.group == "" && s.reservation == "")
    && (o.reservations != [] ==>
          var r := o.reservations[0];
          var h := Held(r.reservation, Target(r.provider, r.group));
          if r.action == KeepIt then o.held == Some(h)
          else
            && o.seqNo > 0 && r.reservation == MakeReservationID(j.run, j.phase, j.consumer, o.seqNo - 1)
            && o.held == (if r.outcome == Success then Some(h) else None))
  }

  /** The target of the last attempt is the one it decided on. */
  ghost predicate AimsFor(j: Job, a: Attempt, held: Option<string>, o: Outcome) {
    o.reservations != [] && o.reservations[0].action != KeepIt ==>
      && a.list.Some?
      && Decide(j.suite, held, a.list.value, a.probe) == Move(o.reservations[0].provider, o.reservations[0].group)
  }

  lemma MoveNames(j: Job, a: Attempt, p: Progress, d: Decision)
    requires Sound(p) && d.Move? && Conclude(j, a, p, d).Done?
    ensures var o := Conclude(j, a, p, d).outcome;
      && RowsName(j, o)
      && (o.reservations != [] ==> d == Move(o.reservations[0].provider, o.reservations[0].group))
  {
  }

  lemma AttemptNames(j: Job, a: Attempt, p: Progress)
    requires Sound(p) && Once(j, a, p).Done?
    ensures RowsName(j, Once(j, a, p).outcome) && AimsFor(j, a, HeldProvider(p.held), Once(j, a, p).outcome)
  {
    if a.list.Some? {
      var d := Decide(j.suite, HeldProvider(p.held), a.list.value, a.probe);
      if d.Move? {
        MoveNames(j, a, p, d);
      }
    }
  }

  /** `held` is what the consumer held at attempt `from`; after a retry it holds nothing. */
  ghost predicate NamedFrom(j: Job, env: nat -> Attempt, from: nat, held: Option<string>, o: Outcome) {
    && RowsName(j, o) && o.attempts > from
    && AimsFor(j, env(o.attempts - 1), if o.attempts == from + 1 then held else None, o)
  }

  lemma NamedEarlier(j: Job, env: nat -> Attempt, from: nat, held: Option<string>, o: Outcome)
    requires NamedFrom(j, env, from + 1, None, o)
    ensures NamedFrom(j, env, from, held, o)
  {
  }

  /** An iteration's rows name the id it last asked for, made from its last number, with the
      provider and group that the last attempt decided on, and the maps hold just that. */
  lemma {:induction false} IterationNames(j: Job, env: nat -> Attempt, p: Progress)
    requires Sound(p)
    ensures NamedFrom(j, env, p.attempt, HeldProvider(p.held), Iterate(j, env, p))
    decreases MAX_RACE_RETRIES - p.attempt
  {
    var a := env(p.attempt);
    var s := Once(j, a, p);
    if s.Again? {
      AgainIsSound(j, a, p);
      IterationNames(j, env, s.progress);
      NamedEarlier(j, env, p.attempt, HeldProvider(p.held), Iterate(j, env, s.progress));
    } else {
      OutcomeCounts(j, a, p);
      AttemptNames(j, a, p);
    }
  }

  // ---------------------------------------------------------------------------
  // When an iteration tries again
  // ---------------------------------------------------------------------------

  /** The reservation failed in a way worth another attempt: a 409, a transient error, or a
      429 whose back-off ran to its end. */
  predicate LostRace(a: Attempt) {
    && !a.reserve.ReachedPeered?
    && (a.reserve.why == Conflict || a.reserve.why == Transient || (a.reserve.why == TooManyRequests && a.wakes))
  }

  /** The last attempt asked for a new reservation. */
  predicate Asked(o: Outcome) {
    o.cancelled || (o.reservations != [] && o.reservations[0].action != KeepIt)
  }

  /** How the last attempt ended, told by the rows. A reservation that fails is reported
      only after eleven attempts or when its error is none of those worth another. */
  ghost predicate EndsAs(o: Outcome, a: Attempt) {
    && (o.cancelled ==>
          !a.reserve.ReachedPeered? && a.reserve.why == TooManyRequests && !a.wakes && o.attempts < 11)
    && (!o.cancelled ==>
          && |o.selections| == 1
          && (o.selections[0].outcome == ListError <==> a.list.None?)
          && (o.selections[0].outcome == ReserveError <==> Asked(o) && !a.reserve.ReachedPeered?)
          && (o.selections[0].outcome == ReserveError ==> a.reserve.why == OtherError || o.attempts == 11)
          && (Asked(o) && a.reserve.ReachedPeered? ==> o.selections[0].outcome == Success && o.held.Some?)
          && (o.reservations == [] <==> o.selections[0].outcome in {ListError, NoWinner, NoCandidates, ProbeError}))
  }

  ghost predicate StepEnds(p: Progress, s: Step, a: Attempt) {
    match s
    case Done(o) => o.attempts == p.attempt + 1 && EndsAs(o, a) && o.seqNo == p.seqNo + (if Asked(o) then 1 else 0)
    case Again(q) => q.attempt == p.attempt + 1 && LostRace(a) && q.seqNo == p.seqNo + 1
  }

  lemma MoveEnds(j: Job, a: Attempt, p: Progress, d: Decision)
    requires Sound(p) && d.Move? && a.list.Some?
    ensures StepEnds(p, Conclude(j, a, p, d), a)
  {
    if !a.reserve.ReachedPeered? {
      match a.reserve.why
      case Conflict =>
      case Transient =>
      case TooManyRequests =>
      case OtherError =>
    }
  }

  lemma OnceEnds(j: Job, a: Attempt, p: Progress)
    requires Sound(p)
    ensures StepEnds(p, Once(j, a, p), a)
  {
    if a.list.Some? {
      var held := HeldProvider(p.held);
      DecisionLabels(j.suite, held, a.list.value, a.probe);
      var d := Decide(j.suite, held, a.list.value, a.probe);
      if d.Move? {
        MoveEnds(j, a, p, d);
      }
    }
  }

  ghost predicate RacesLost(env: nat -> Attempt, from: nat, seqNo: nat, o: Outcome) {
    && from < o.attempts <= 11
    && (forall k: nat :: from <= k < o.attempts - 1 ==> LostRace(env(k)))
    && EndsAs(o, env(o.attempts - 1))
    && o.seqNo == seqNo + (o.attempts - 1 - from) + (if Asked(o) then 1 else 0)
  }

  /** Every attempt before the last lost a race and took a number; the last one did not
      lose one that could be tried again. So an iteration goes on exactly as long as it
      loses races, up to eleven attempts, and takes one number for each reservation asked
      for. */
  lemma {:induction false} TriesAgainExactlyWhen(j: Job, env: nat -> Attempt, p: Progress)
    requires Sound(p)
    ensures RacesLost(env, p.attempt, p.seqNo, Iterate(j, env, p))
    decreases MAX_RACE_RETRIES - p.attempt
  {
    var a := env(p.attempt);
    OnceEnds(j, a, p);
    var s := Once(j, a, p);
    if s.Again? {
      AgainIsSound(j, a, p);
      TriesAgainExactlyWhen(j, env, s.progress);
      OneMoreRace(env, p.attempt, p.seqNo, Iterate(j, env, s.progress));
    } else {
      LastRace(env, p, s.outcome);
    }
  }

  lemma LastRace(env: nat -> Attempt, p: Progress, o: Outcome)
    requires Sound(p) && StepEnds(p, Done(o), env(p.attempt))
    ensures RacesLost(env, p.attempt, p.seqNo, o)
  {
  }

  lemma OneMoreRace(env: nat -> Attempt, from: nat, seqNo: nat, o: Outcome)
    requires LostRace(env(from)) && RacesLost(env, from + 1, seqNo + 1, o)
    ensures RacesLost(env, from, seqNo, o)
  {
  }

  lemma AgainIsSound(j: Job, a: Attempt, p: Progress)
    requires Sound(p) && Once(j, a, p).Again?
    ensures Sound(Once(j, a, p).progress) && Once(j, a, p).progress.held.None? && a.list.Some?
    ensures Decide(j.suite, HeldProvider(p.held), a.list.value, a.probe).Move?
    ensures Once(j, a, p).progress.initial ==
      First(p.initial, Decide(j.suite, HeldProvider(p.held), a.list.value, a.probe).provider)
  {
    AttemptGuarantees(j, a, p, Decide(j.suite, HeldProvider(p.held), a.list.value, a.probe));
  }

  predicate RowsStartWith(o: Outcome, provider: string) {
    |o.selections| <= 1 && (o.selections != [] ==> o.selections[0].initial == provider)
  }

  lemma ConcludeKeepsInitial(j: Job, a: Attempt, p: Progress, d: Decision)
    requires Sound(p) && (d.Keep? ==> p.held.Some?) && p.initial != ""
    ensures match Conclude(j, a, p, d)
      case Done(o) => RowsStartWith(o, p.initial)
      case Again(q) => q.initial == p.initial
  {
  }

  lemma {:induction false} InitialStays(j: Job, env: nat -> Attempt, p: Progress)
    requires Sound(p) && p.initial != ""
    ensures RowsStartWith(Iterate(j, env, p), p.initial)
    decreases MAX_RACE_RETRIES - p.attempt
  {
    var a := env(p.attempt);
    if a.list.Some? {
      var d := Decide(j.suite, HeldProvider(p.held), a.list.value, a.probe);
      ConcludeKeepsInitial(j, a, p, d);
      var s := Conclude(j, a, p, d);
      if s.Again? {
        AgainIsSound(j, a, p);
        InitialStays(j, env, s.progress);
      }
    }
  }

  /** The rows name the provider the first attempt aimed for, however many followed. */
  lemma InitialIsFirst(j: Job, env: nat -> Attempt, held: Option<Held>, seqNo: nat, provider: string, group: string)
    requires env(0).list.Some? && provider != ""
    requires Decide(j.suite, HeldProvider(held), env(0).list.value, env(0).probe) == Move(provider, group)
    ensures RowsStartWith(Iterate(j, env, Start(held, seqNo)), provider)
  {
    var p := Start(held, seqNo);
    var s := Once(j, env(0), p);
    if s.Again? {
      AgainIsSound(j, env(0), p);
      InitialStays(j, env, s.progress);
    }
  }

  /** The condition on the name is needed: given up under an empty provider id, a
      reservation leaves the row reading `create`. Only the eco suite can get there. */
  lemma EmptyProviderIsMislabelled(env: nat -> Attempt, ng: NodeGroup)
    requires ng.maxSize > ng.reserved && ng.provider != "" && ng.metric.None?
    requires env(0) == Attempt(Some(Listing([ng], false)), None, Confirmed, ReachedPeered, true)
    ensures var h := Held("old", Target("", "g"));
      var o := Iterate(Job(Eco, "run", PHASE_A, "c", 1), env, Start(Some(h), 1));
      o.released == Some(h) && |o.reservations| == 1 && o.reservations[0].action == Create
  {
    assert [ng][..0] == [] && Growable([ng][..0]) == [];
    assert Growable([ng]) == [ng];
    assert Switching.LastMetric([ng][..0], "").None?;
    assert Switching.LastMetric([ng], "").None?;
  }
}
