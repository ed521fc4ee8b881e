/**
 From one repetition to the verdict on a run: an outcome is recorded per repetition,
 counters are folded over the outcomes, and the verdict compares counters. The main
 result says what PASS means for every single outcome.
 */
module Verdict {
  import opened Views
  import opened ChoiceDecision
  import opened Tracking
  import Capacity

  datatype Outcome = Outcome(
    scenario: string,
    aiCalled: bool,
    single: bool,
    aiValid: bool,
    modelFailure: bool,
    selected: string,
    source: Source,
    provider: string,
    fallbackUsed: bool,
    attempted: bool,
    peered: bool,
    settled: bool,
    passed: Option<bool>,
    candidates: nat,
    failures: seq<Failure>)

  /** How waiting for the capacity to come back ended. */
  datatype Settle = Back | Interrupted | Leaked

  // ---------------------------------------------------------------------------
  // One repetition
  // ---------------------------------------------------------------------------

  /** What the way an outcome is built guarantees, whatever was answered. */
  ghost predicate OutcomeOk(o: Outcome, mode: FallbackMode) {
    && (o.single <==> !o.aiCalled)
    && (o.single <==> o.candidates == 1)
    && (o.aiValid || o.modelFailure ==> o.candidates >= 2)
    && (o.aiValid ==> o.aiCalled && o.source == FromModel && o.attempted && !o.fallbackUsed)
    && (o.modelFailure ==> o.aiCalled && !o.aiValid)
    && (o.modelFailure && mode != FailMode ==> o.fallbackUsed && o.attempted)
    && (o.modelFailure && mode == FailMode ==> !o.fallbackUsed && !o.attempted)
    && (o.attempted <==> o.provider != "")
    && (o.peered ==> o.attempted)
    && (o.settled ==> o.attempted)
    && (o.selected != "" ==> o.aiCalled)
    && (o.source == FromModel <==> o.aiValid)
  }

  /** The outcome repeats what the decision ended with. */
  ghost predicate Records(o: Outcome, f: Final) {
    && o.aiCalled == AICalled(f) && o.single == f.trace.single && o.candidates == |f.trace.providers|
    && o.aiValid == (AICalled(f) && f.validation.valid)
    && o.modelFailure == ModelAnswerFailed(f)
    && o.selected == (if AICalled(f) then f.validation.selected else "")
    && o.source == f.source && o.provider == f.provider && o.fallbackUsed == f.validation.fallbackApplied
    && (o.attempted <==> f.group.Some?)
  }

  /** What trying to reserve adds to the failures: how the reservation failed, a release
      that did not succeed although the Broker had answered, and capacity that stayed away. */
  function AttemptFailures(t: Track, released: bool, settle: Settle): seq<Failure> {
    (if t.failure.Some? then [t.failure.value] else []) +
    Only(t.last.Some? && !released, ReleaseError) + Only(settle == Leaked, CapacityLeak)
  }

  lemma {:induction false} AllRoomAllGrow(ngs: seq<NodeGroup>)
    requires forall ng :: ng in ngs ==> HasRoom(ng)
    ensures Growable(ngs) == ngs
  {
    if ngs != [] {
      assert ngs == ngs[..|ngs| - 1] + [ngs[|ngs| - 1]];
      AllRoomAllGrow(ngs[..|ngs| - 1]);
    }
  }

  /** What the Broker and the clock do once a group is to be reserved: the answers to the
      POSTs, to the DELETE and the polls after it, the lists read while the capacity is
      awaited, and whether the run was interrupted by the end of that. */
  datatype Attempt = Attempt(
    env: Env,
    postsBy: nat,
    del: Option<Phase>,
    poll: nat -> Option<Phase>,
    ticks: nat -> bool,
    releaseBy: nat,
    lists: nat -> Option<seq<NodeGroup>>,
    cancelled: nat -> bool,
    settleBy: nat,
    interrupted: bool)

  /** Every wait has an end. */
  ghost predicate Bounded(a: Attempt) {
    (forall k: nat :: k >= a.postsBy ==> !a.env.wakes(k)) && !a.ticks(a.releaseBy)
  }

  ghost predicate GivenBack(a: Attempt) {
    a.del.Some? && (a.del.value == RELEASED || exists k: nat :: k <= a.releaseBy && ReleasedAt(a.poll, a.ticks, k))
  }

  /** Some list read in time shows the baseline again. */
  ghost predicate BackInTime(a: Attempt, want: Capacity.Snapshot) {
    exists k: nat :: k <= a.settleBy && Capacity.MatchesAt(a.lists, want, k)
  }

  ghost predicate Undisturbed(a: Attempt) {
    !a.interrupted && forall k: nat :: k <= a.settleBy ==> a.lists(k).Some? && !a.cancelled(k)
  }

  /** An interruption decides before the result of the wait is looked at. */
  method AwaitBaseline(a: Attempt, want: Capacity.Snapshot) returns (settle: Settle)
    ensures settle == Back ==> BackInTime(a, want) && !a.interrupted
    ensures a.interrupted ==> settle == Interrupted
    ensures Undisturbed(a) ==> settle == if BackInTime(a, want) then Back else Leaked
  {
    var r := Capacity.WaitForFederationCapacity(a.lists, a.cancelled, a.settleBy, want);
    if a.interrupted || r.Cancelled? {
      return Interrupted;
    }
    return if r.Back? then Back else Leaked;
  }

  /** What the attempt left: its track, whether it was given back, how the wait ended. */
  ghost predicate AttemptOk(a: Attempt, want: Capacity.Snapshot, t: Track, released: bool, settle: Settle) {
    && TrackOk(a.env, t)
    && (released <==> t.last.Some? && GivenBack(a))
    && (settle == Back ==> BackInTime(a, want) && !a.interrupted)
    && (a.interrupted ==> settle == Interrupted)
    && (Undisturbed(a) ==> settle == if BackInTime(a, want) then Back else Leaked)
  }

  method TryReservation(a: Attempt, want: Capacity.Snapshot) returns (t: Track, released: bool, settle: Settle)
    requires Bounded(a)
    ensures AttemptOk(a, want, t, released, settle)
  {
    t := ReserveAndTrack(a.env, a.postsBy);
    released := false;
    if t.last.Some? {
      released := ReleaseAndWait(a.del, a.poll, a.ticks, a.releaseBy);
    }
    settle := AwaitBaseline(a, want);
  }

  /** The outcome tells the decision and, when a group was reserved, the attempt. */
  ghost predicate Tells(o: Outcome, f: Final, a: Attempt, want: Capacity.Snapshot, t: Track, released: bool,
                        settle: Settle) {
    && Records(o, f)
    && (o.attempted ==>
          AttemptOk(a, want, t, released, settle) && o.peered == t.peered && o.settled == (settle == Back))
    && o.failures == f.failures + if o.attempted then AttemptFailures(t, released, settle) else []
  }

  /** What the failures of an attempt say: the release failed exactly when the Broker held the
      reservation and did not give it back; undisturbed, capacity leaked exactly when no
      list read in time showed the baseline; and otherwise only the reservation failed. */
  lemma FailuresTellAttempt(a: Attempt, want: Capacity.Snapshot, t: Track, released: bool, settle: Settle)
    requires AttemptOk(a, want, t, released, settle)
    ensures var fs := AttemptFailures(t, released, settle);
      && (ReleaseError in fs <==> t.last.Some? && !GivenBack(a))
      && (Undisturbed(a) ==> (CapacityLeak in fs <==> !BackInTime(a, want)))
      && (a.interrupted ==> CapacityLeak !in fs)
      && (forall x :: x in fs && x != ReleaseError && x != CapacityLeak ==> !t.peered && t.failure == Some(x))
      && (!t.peered ==> t.failure.value in fs)
  {
  }

  /** `judge` is the scenario's criterion, `want` the capacity at the start of the run. */
  method RunRepetition(scenario: string, list: seq<NodeGroup>, reply: Reply, answer: Option<FreshList>,
                       mode: FallbackMode, judge: string -> Option<bool>, a: Attempt, want: Capacity.Snapshot)
    returns (o: Outcome, fatal: bool, ghost f: Final, ghost t: Track, ghost released: bool, ghost settle: Settle)
    requires Bounded(a)
    ensures OutcomeOk(o, mode)
    ensures Sound(f, mode) && Traced(Candidates(list), reply, f) && f.reread == answer
    ensures o.aiValid || o.modelFailure ==> Consulted(f, reply)
    ensures o.modelFailure ==> BadReply(reply, Candidates(list))
    ensures o.aiValid ==> GoodReply(reply, Candidates(list), o.provider)
    ensures |Candidates(list)| >= 2 ==> (o.aiValid <==> Acceptable(reply, Candidates(list), answer))
    ensures o.scenario == scenario && o.candidates == |Candidates(list)|
    ensures Tells(o, f, a, want, t, released, settle)
    ensures o.passed == if f.provider != "" then judge(f.provider) else None
    ensures fatal <==> o.attempted && !o.settled
  {
    t, released, settle := Track(0, [], None, false, None), false, Back;
    var candidates := EligibleCandidates(list);
    AllRoomAllGrow(candidates);
    o, f := RecordDecision(scenario, candidates, reply, answer, mode, judge);
    ghost var decided := o;
    fatal := false;
    if o.attempted {
      var track, gone, how := TryReservation(a, want);
      t, released, settle := track, gone, how;
      o := RecordAttempt(o, track, gone, how);
      fatal := how != Back;
    }
    RepetitionIsTold(decided, o, f, candidates, reply, mode, a, want, t, released, settle);
    ReplyDecides(o, f, candidates, reply, mode);
  }

  /** The reply put a provider first that was sent, and it is the one chosen. */
  predicate GoodReply(reply: Reply, sent: seq<NodeGroup>, chosen: string) {
    reply.Json? && FirstNamed(reply.answer) == chosen != "" && Sent(sent, chosen)
  }

  lemma ReplyDecides(o: Outcome, f: Final, ngs: seq<NodeGroup>, reply: Reply, mode: FallbackMode)
    requires Sound(f, mode) && Traced(ngs, reply, f) && Records(o, f) && OutcomeOk(o, mode) && Growable(ngs) == ngs
    ensures o.modelFailure ==> BadReply(reply, ngs)
    ensures o.aiValid ==> GoodReply(reply, ngs, o.provider)
    ensures |ngs| >= 2 ==> (o.aiValid <==> Acceptable(reply, ngs, f.reread))
  {
    if |ngs| >= 2 {
      AcceptedExactlyWhen(ngs, reply, f, mode);
    }
    if o.modelFailure {
      BlamedExactlyWhen(ngs, reply, f, mode);
    }
    if o.aiValid {
      AnswerIsConsulted(ngs, reply, f, mode);
    }
  }

  lemma RepetitionIsTold(was: Outcome, o: Outcome, f: Final, ngs: seq<NodeGroup>, reply: Reply, mode: FallbackMode,
                         a: Attempt, want: Capacity.Snapshot, t: Track, released: bool, settle: Settle)
    requires Sound(f, mode) && Traced(ngs, reply, f) && was == FromDecision(was.scenario, f, was.passed)
    requires was.attempted ==> AttemptOk(a, want, t, released, settle)
    requires o == if was.attempted then FromAttempt(was, t, released, settle) else was
    ensures OutcomeOk(o, mode) && Tells(o, f, a, want, t, released, settle)
    ensures o.aiValid || o.modelFailure ==> Consulted(f, reply)
  {
    assert Records(o, f);
    RecordsAreOk(o, f, ngs, reply, mode);
  }

  /** The outcome of a decision, before anything is reserved. */
  function FromDecision(scenario: string, f: Final, passed: Option<bool>): Outcome {
    Outcome(scenario, AICalled(f), f.trace.single, AICalled(f) && f.validation.valid, ModelAnswerFailed(f),
            if AICalled(f) then f.validation.selected else "", f.source, f.provider, f.validation.fallbackApplied,
            f.group.Some?, false, false, passed, |f.trace.providers|, f.failures)
  }

  lemma SameCandidates(ngs: seq<NodeGroup>, reply: Reply, f: Final)
    requires Traced(ngs, reply, f) && Growable(ngs) == ngs
    ensures |f.trace.providers| == |ngs|
  {
  }

  /** The outcome of the decision alone; `attempted` says whether there is a group. */
  method RecordDecision(scenario: string, ngs: seq<NodeGroup>, reply: Reply, answer: Option<FreshList>,
                        mode: FallbackMode, judge: string -> Option<bool>) returns (o: Outcome, ghost f: Final)
    requires Growable(ngs) == ngs
    ensures Sound(f, mode) && Traced(ngs, reply, f) && f.reread == answer
    ensures o == FromDecision(scenario, f, if f.provider != "" then judge(f.provider) else None)
    ensures o.candidates == |ngs|
  {
    var d := Decide(ngs, reply, answer, mode);
    f := d.Result();
    SameCandidates(ngs, reply, f);
    o := Describe(d, scenario, judge, |ngs|);
  }

  method Describe(d: Decision, scenario: string, judge: string -> Option<bool>, candidates: nat) returns (o: Outcome)
    requires candidates == |d.trace.providers|
    ensures o == FromDecision(scenario, d.Result(), if d.provider != "" then judge(d.provider) else None)
  {
    var asked := !d.trace.single;
    var modelFailure := d.ModelAnswerFailure();
    var passed := if d.provider != "" then judge(d.provider) else None;
    o := Outcome(scenario, asked, d.trace.single, asked && d.validation.valid, modelFailure,
                 if asked then d.validation.selected else "", d.source, d.provider, d.validation.fallbackApplied,
                 d.group.Some?, false, false, passed, candidates, d.failures);
  }

  function FromAttempt(was: Outcome, t: Track, released: bool, settle: Settle): Outcome {
    was.(peered := t.peered, settled := settle == Back, failures := was.failures + AttemptFailures(t, released, settle))
  }

  method RecordAttempt(was: Outcome, t: Track, released: bool, settle: Settle) returns (o: Outcome)
    ensures o == FromAttempt(was, t, released, settle)
  {
    var added: seq<Failure> := if t.failure.Some? then [t.failure.value] else [];
    if t.last.Some? && !released {
      added := added + [ReleaseError];
    }
    if settle == Leaked {
      added := added + [CapacityLeak];
    }
    assert added == AttemptFailures(t, released, settle);
    o := was.(peered := t.peered, settled := settle == Back, failures := was.failures + added);
  }

  lemma RecordsAreOk(o: Outcome, f: Final, ngs: seq<NodeGroup>, reply: Reply, mode: FallbackMode)
    requires Sound(f, mode) && Traced(ngs, reply, f) && Records(o, f) && (o.peered || o.settled ==> o.attempted)
    ensures OutcomeOk(o, mode)
    ensures o.aiValid || o.modelFailure ==> Consulted(f, reply)
  {
    if ModelAnswerFailed(f) && mode != FailMode {
      ModelFailureIsCovered(f, mode);
    }
    if o.aiValid || o.modelFailure {
      AnswerIsConsulted(ngs, reply, f, mode);
    }
  }

  // ---------------------------------------------------------------------------
  // Counters
  // ---------------------------------------------------------------------------

  datatype ScenarioTally = ScenarioTally(repetitions: nat, aiCalls: nat, distribution: map<string, nat>)

  /** What the model's answers add up to. */
  datatype AnswerTally = AnswerTally(aiCalls: nat, valid: nat, modelFailures: nat, peeredValid: nat, fallbacks: nat)

  datatype Tally = Tally(
    answers: AnswerTally,
    single: nat,
    reservations: nat,
    peered: nat,
    evaluated: nat,
    aligned: nat,
    breakdown: map<Failure, nat>,
    scenarios: map<string, ScenarioTally>)

  const ZERO := Tally(AnswerTally(0, 0, 0, 0, 0), 0, 0, 0, 0, 0, map[], map[])

  function One(b: bool): nat {
    if b then 1 else 0
  }

  function Bump<K(==)>(m: map<K, nat>, k: K): map<K, nat> {
    m[k := (if k in m then m[k] else 0) + 1]
  }

  function AddFailures(m: map<Failure, nat>, fs: seq<Failure>): map<Failure, nat> {
    if fs == [] then m else Bump(AddFailures(m, fs[..|fs| - 1]), fs[|fs| - 1])
  }

  function AddToScenario(t: ScenarioTally, o: Outcome): ScenarioTally {
    ScenarioTally(t.repetitions + 1, t.aiCalls + One(o.aiCalled),
                  if o.selected != "" then Bump(t.distribution, o.selected) else t.distribution)
  }

  function ScenarioOf(m: map<string, ScenarioTally>, name: string): ScenarioTally {
    if name in m then m[name] else ScenarioTally(0, 0, map[])
  }

  function AddAnswer(t: AnswerTally, o: Outcome): AnswerTally {
    AnswerTally(t.aiCalls + One(o.aiCalled),
                t.valid + One(Valid(o)),
                t.modelFailures + One(FailedByModel(o)),
                t.peeredValid + One(PeeredValid(o)),
                t.fallbacks + One(o.aiCalled && o.fallbackUsed))
  }

  /** What one outcome adds. */
  function Add(t: Tally, o: Outcome): Tally {
    Tally(AddAnswer(t.answers, o),
          t.single + One(o.single),
          t.reservations + One(o.attempted),
          t.peered + One(o.attempted && o.peered),
          t.evaluated + One(o.source == FromModel && o.passed.Some?),
          t.aligned + One(o.source == FromModel && o.passed == Some(true)),
          AddFailures(t.breakdown, o.failures),
          t.scenarios[o.scenario := AddToScenario(ScenarioOf(t.scenarios, o.scenario), o)])
  }

  function TallyOf(os: seq<Outcome>): Tally {
    if os == [] then ZERO else Add(TallyOf(os[..|os| - 1]), os[|os| - 1])
  }

  method CountAnswer(t: AnswerTally, o: Outcome) returns (r: AnswerTally)
    ensures r == AddAnswer(t, o)
  {
    r := t;
    if o.aiCalled {
      r := r.(aiCalls := r.aiCalls + 1);
      if o.aiValid {
        r := r.(valid := r.valid + 1);
        if o.peered {
          r := r.(peeredValid := r.peeredValid + 1);
        }
      }
      if o.modelFailure {
        r := r.(modelFailures := r.modelFailures + 1);
      }
      if o.fallbackUsed {
        r := r.(fallbacks := r.fallbacks + 1);
      }
    }
  }

  method AddOutcome(t: Tally, o: Outcome) returns (r: Tally)
    ensures r == Add(t, o)
  {
    var sm := AddToScenario(ScenarioOf(t.scenarios, o.scenario), o);
    var single := if o.single then t.single + 1 else t.single;
    var answers := CountAnswer(t.answers, o);
    var reservations, peered := t.reservations, t.peered;
    if o.attempted {
      reservations := reservations + 1;
      if o.peered {
        peered := peered + 1;
      }
    }
    var evaluated, aligned := t.evaluated, t.aligned;
    if o.source == FromModel && o.passed.Some? {
      evaluated := evaluated + 1;
      if o.passed.value {
        aligned := aligned + 1;
      }
    }
    var breakdown := AddCategories(t.breakdown, o.failures);
    r := Tally(answers, single, reservations, peered, evaluated, aligned, breakdown, t.scenarios[o.scenario := sm]);
  }

  method AddCategories(m: map<Failure, nat>, fs: seq<Failure>) returns (r: map<Failure, nat>)
    ensures r == AddFailures(m, fs)
  {
    r := m;
    for j := 0 to |fs|
      invariant r == AddFailures(m, fs[..j])
    {
      assert fs[..j + 1][..j] == fs[..j];
      r := Bump(r, fs[j]);
    }
    assert fs[..|fs|] == fs;
  }

  method ComputeMetrics(os: seq<Outcome>) returns (t: Tally)
    ensures t == TallyOf(os)
  {
    t := ZERO;
    for i := 0 to |os|
      invariant t == TallyOf(os[..i])
    {
      assert os[..i + 1][..i] == os[..i];
      t := AddOutcome(t, os[i]);
    }
    assert os[..|os|] == os;
  }

  // ---------------------------------------------------------------------------
  // Counters and the outcomes behind them
  // ---------------------------------------------------------------------------

  function Count(os: seq<Outcome>, p: Outcome -> bool): nat {
    if os == [] then 0 else Count(os[..|os| - 1], p) + One(p(os[|os| - 1]))
  }

  predicate Called(o: Outcome) { o.aiCalled }

  predicate Valid(o: Outcome) { o.aiCalled && o.aiValid }

  predicate FailedByModel(o: Outcome) { o.aiCalled && o.modelFailure }

  predicate PeeredValid(o: Outcome) { o.aiCalled && o.aiValid && o.peered }

  predicate Single(o: Outcome) { o.single }

  /** Each counter is the number of outcomes it is named after. */
  lemma {:induction false} TallyCounts(os: seq<Outcome>)
    ensures TallyOf(os).answers.aiCalls == Count(os, Called)
    ensures TallyOf(os).answers.valid == Count(os, Valid)
    ensures TallyOf(os).answers.modelFailures == Count(os, FailedByModel)
    ensures TallyOf(os).answers.peeredValid == Count(os, PeeredValid)
    ensures TallyOf(os).single == Count(os, Single)
    ensures TallyOf(os).answers.fallbacks == Count(os, (o: Outcome) => o.aiCalled && o.fallbackUsed)
    ensures TallyOf(os).reservations == Count(os, (o: Outcome) => o.attempted)
    ensures TallyOf(os).peered == Count(os, (o: Outcome) => o.attempted && o.peered)
    ensures TallyOf(os).evaluated == Count(os, (o: Outcome) => o.source == FromModel && o.passed.Some?)
    ensures TallyOf(os).aligned == Count(os, (o: Outcome) => o.source == FromModel && o.passed == Some(true))
  {
    if os != [] {
      TallyCounts(os[..|os| - 1]);
    }
  }

  lemma {:induction false} NoneCounted(os: seq<Outcome>, p: Outcome -> bool)
    ensures Count(os, p) == 0 <==> forall o :: o in os ==> !p(o)
  {
    if os != [] {
      NoneCounted(os[..|os| - 1], p);
      assert os == os[..|os| - 1] + [os[|os| - 1]];
    }
  }

  /** Where every counted outcome is counted by `q` as well, equal counts mean that both
      count the same outcomes. */
  lemma {:induction false} EqualCounts(os: seq<Outcome>, p: Outcome -> bool, q: Outcome -> bool)
    requires forall o :: o in os && p(o) ==> q(o)
    ensures Count(os, p) <= Count(os, q)
    ensures Count(os, p) == Count(os, q) <==> forall o :: o in os && q(o) ==> p(o)
  {
    if os != [] {
      EqualCounts(os[..|os| - 1], p, q);
      assert os == os[..|os| - 1] + [os[|os| - 1]];
    }
  }

  predicate Settled(o: Outcome) { Valid(o) || FailedByModel(o) }

  lemma {:induction false} CountsAdd(os: seq<Outcome>)
    requires forall o :: o in os ==> !(Valid(o) && FailedByModel(o))
    ensures Count(os, Settled) == Count(os, Valid) + Count(os, FailedByModel)
  {
    if os != [] {
      CountsAdd(os[..|os| - 1]);
      assert os[|os| - 1] in os;
    }
  }

  ghost predicate AllOk(os: seq<Outcome>, mode: FallbackMode) {
    forall o :: o in os ==> OutcomeOk(o, mode)
  }

  /** The number of answers rejected for a reason outside the model is never negative, and
      it is zero exactly when every answer was valid or failed by the model's own doing. */
  lemma RejectedIsACount(os: seq<Outcome>, mode: FallbackMode)
    requires AllOk(os, mode)
    ensures var t := TallyOf(os).answers; t.aiCalls - t.valid - t.modelFailures >= 0
    ensures var t := TallyOf(os).answers; t.aiCalls - t.valid - t.modelFailures == 0 <==>
      forall o :: o in os && o.aiCalled ==> o.aiValid || o.modelFailure
  {
    TallyCounts(os);
    assert forall o :: o in os ==> OutcomeOk(o, mode);
    CountsAdd(os);
    EqualCounts(os, Settled, Called);
    assert (forall o :: o in os && Called(o) ==> Settled(o)) <==>
      forall o :: o in os && o.aiCalled ==> o.aiValid || o.modelFailure;
  }

  // ---------------------------------------------------------------------------
  // The verdict
  // ---------------------------------------------------------------------------

  /** One scenario on the agent path: whether it passed, and, when the agent logged a
      selection, whether the model made it. */
  datatype AgentPath = AgentPath(passed: bool, byModel: Option<bool>)

  datatype Suite = Suite(scenarios: nat, repetitions: nat, agentPath: bool)

  datatype Reason =
    | StoppedEarly | AgentPathShort | AgentPathFailed | TooFewRepetitions | NotExercised | RejectedAnswers
    | NeverUsable | ValidNotPeered | FallbackNotPeered | NotSettled | NothingRan

  ghost predicate SomeByModel(paths: seq<Option<AgentPath>>) {
    exists i :: 0 <= i < |paths| && paths[i].Some? && paths[i].value.byModel == Some(true)
  }

  ghost predicate SomeSelection(paths: seq<Option<AgentPath>>) {
    exists i :: 0 <= i < |paths| && paths[i].Some? && paths[i].value.byModel.Some?
  }

  ghost predicate AgentPathsPass(s: Suite, paths: seq<Option<AgentPath>>) {
    s.agentPath ==> |paths| >= s.scenarios && forall i :: 0 <= i < |paths| && paths[i].Some? ==> paths[i].value.passed
  }

  method AgentPathReasons(s: Suite, paths: seq<Option<AgentPath>>) returns (reasons: seq<Reason>)
    ensures reasons == [] <==> AgentPathsPass(s, paths)
  {
    reasons := [];
    if !s.agentPath {
      return;
    }
    if |paths| < s.scenarios {
      reasons := [AgentPathShort];
    }
    for i := 0 to |paths|
      invariant reasons == [] <==>
        |paths| >= s.scenarios && forall k :: 0 <= k < i && paths[k].Some? ==> paths[k].value.passed
    {
      if paths[i].Some? && !paths[i].value.passed {
        reasons := reasons + [AgentPathFailed];
      }
    }
  }

  method NoUsableAnswer(t: AnswerTally, paths: seq<Option<AgentPath>>) returns (r: bool)
    ensures r <==> t.valid == 0 && !SomeByModel(paths) && (t.aiCalls > 0 || SomeSelection(paths))
  {
    if t.valid > 0 {
      return false;
    }
    var asked := t.aiCalls;
    for i := 0 to |paths|
      invariant asked >= t.aiCalls
      invariant asked > t.aiCalls <==> exists k :: 0 <= k < i && paths[k].Some? && paths[k].value.byModel.Some?
      invariant forall k :: 0 <= k < i && paths[k].Some? ==> paths[k].value.byModel != Some(true)
    {
      if paths[i].Some? && paths[i].value.byModel.Some? {
        if paths[i].value.byModel.value {
          return false;
        }
        asked := asked + 1;
      }
    }
    return asked > 0;
  }

  /** What is asked of each outcome beyond the counters. */
  predicate ReservationFine(o: Outcome) {
    && !(o.modelFailure && o.fallbackUsed && !o.peered)
    && !(o.attempted && !o.settled)
  }

  method OutcomeReasons(os: seq<Outcome>) returns (reasons: seq<Reason>)
    ensures reasons == [] <==> forall o :: o in os ==> ReservationFine(o)
  {
    reasons := [];
    for i := 0 to |os|
      invariant reasons == [] <==> forall k :: 0 <= k < i ==> ReservationFine(os[k])
    {
      if os[i].modelFailure && os[i].fallbackUsed && !os[i].peered {
        reasons := reasons + [FallbackNotPeered];
      }
      if os[i].attempted && !os[i].settled {
        reasons := reasons + [NotSettled];
      }
    }
  }

  /** Counters and outcomes as the verdict compares them. */
  ghost predicate CountersPass(s: Suite, t: Tally, os: seq<Outcome>, paths: seq<Option<AgentPath>>, fatal: bool) {
    && !fatal
    && AgentPathsPass(s, paths)
    && |os| >= s.scenarios * s.repetitions
    && t.single == 0
    && t.answers.aiCalls - t.answers.valid - t.answers.modelFailures <= 0
    && !(t.answers.valid == 0 && !SomeByModel(paths) && (t.answers.aiCalls > 0 || SomeSelection(paths)))
    && t.answers.peeredValid >= t.answers.valid
    && (forall o :: o in os ==> ReservationFine(o))
    && os != []
  }

  method Judge(s: Suite, t: Tally, os: seq<Outcome>, paths: seq<Option<AgentPath>>, fatal: bool)
    returns (pass: bool, reasons: seq<Reason>)
    ensures pass <==> reasons == []
    ensures pass <==> CountersPass(s, t, os, paths, fatal)
  {
    reasons := [];
    if fatal {
      reasons := reasons + [StoppedEarly];
    }
    var agent := AgentPathReasons(s, paths);
    reasons := reasons + agent;
    if |os| < s.scenarios * s.repetitions {
      reasons := reasons + [TooFewRepetitions];
    }
    if t.single > 0 {
      reasons := reasons + [NotExercised];
    }
    if t.answers.aiCalls - t.answers.valid - t.answers.modelFailures > 0 {
      reasons := reasons + [RejectedAnswers];
    }
    var never := NoUsableAnswer(t.answers, paths);
    if never {
      reasons := reasons + [NeverUsable];
    }
    if t.answers.peeredValid < t.answers.valid {
      reasons := reasons + [ValidNotPeered];
    }
    var each := OutcomeReasons(os);
    reasons := reasons + each;
    if |os| == 0 && !fatal {
      reasons := reasons + [NothingRan];
    }
    pass := |reasons| == 0;
  }

  // ---------------------------------------------------------------------------
  // What PASS means
  // ---------------------------------------------------------------------------

  /** The full chain worked: the model was asked, and either its valid choice was peered
      and given back, or the failure was its own and the fallback's was. */
  ghost predicate ChainWorks(o: Outcome, mode: FallbackMode) {
    && o.aiCalled
    && (|| (o.aiValid && o.source == FromModel && o.peered && o.settled)
        || (o.modelFailure && (mode != FailMode ==> o.fallbackUsed && o.peered && o.settled)))
  }

  lemma NobodyShortcut(os: seq<Outcome>, mode: FallbackMode)
    requires AllOk(os, mode)
    ensures TallyOf(os).single == 0 <==> forall o :: o in os ==> o.aiCalled
    ensures os != [] && TallyOf(os).single == 0 ==> TallyOf(os).answers.aiCalls > 0
  {
    TallyCounts(os);
    NoneCounted(os, Single);
    NoneCounted(os, Called);
    assert forall o :: o in os ==> (Single(o) <==> !Called(o)) by {
      assert forall o :: o in os ==> OutcomeOk(o, mode);
    }
    assert os != [] ==> os[0] in os;
  }

  lemma ValidArePeered(os: seq<Outcome>)
    ensures TallyOf(os).answers.peeredValid >= TallyOf(os).answers.valid <==>
      forall o :: o in os && Valid(o) ==> o.peered
  {
    TallyCounts(os);
    EqualCounts(os, PeeredValid, Valid);
    assert forall o :: PeeredValid(o) <==> Valid(o) && o.peered;
  }

  lemma NoFallbackInFailMode(o: Outcome, mode: FallbackMode)
    requires OutcomeOk(o, mode) && o.aiCalled && (o.aiValid || o.modelFailure)
    ensures ReservationFine(o) && (o.aiValid ==> o.peered) ==> ChainWorks(o, mode)
  {
  }

  /** PASS is sound: every repetition that was expected ran, the model was asked in each,
      and the full chain worked in each; and some answer of the model was usable. */
  lemma PassIsSound(s: Suite, os: seq<Outcome>, paths: seq<Option<AgentPath>>, mode: FallbackMode)
    requires AllOk(os, mode)
    requires CountersPass(s, TallyOf(os), os, paths, false)
    ensures |os| >= s.scenarios * s.repetitions && os != []
    ensures forall o :: o in os ==> ChainWorks(o, mode) && o.candidates >= 2
    ensures (exists o :: o in os && o.aiValid) || SomeByModel(paths)
  {
    NobodyShortcut(os, mode);
    RejectedIsACount(os, mode);
    ValidArePeered(os);
    TallyCounts(os);
    NoneCounted(os, Valid);
    forall o | o in os
      ensures ChainWorks(o, mode) && o.candidates >= 2
    {
      assert OutcomeOk(o, mode) && ReservationFine(o);
      assert Valid(o) ==> o.peered;
      NoFallbackInFailMode(o, mode);
    }
  }

  /** And complete: when the chain works everywhere, nothing else fails the run. */
  lemma PassIsComplete(s: Suite, os: seq<Outcome>, paths: seq<Option<AgentPath>>, mode: FallbackMode)
    requires AllOk(os, mode) && os != [] && |os| >= s.scenarios * s.repetitions && AgentPathsPass(s, paths)
    requires forall o :: o in os ==> ChainWorks(o, mode)
    requires (exists o :: o in os && o.aiValid) || SomeByModel(paths)
    ensures CountersPass(s, TallyOf(os), os, paths, false)
  {
    assert forall o :: o in os ==> ChainWorks(o, mode) && OutcomeOk(o, mode);
    NobodyShortcut(os, mode);
    RejectedIsACount(os, mode);
    ValidArePeered(os);
    TallyCounts(os);
    NoneCounted(os, Valid);
    forall o | o in os
      ensures ReservationFine(o)
    {
      assert ChainWorks(o, mode);
    }
  }

  /** The whole end of a run: it passes exactly when it was not cut short, everything
      expected ran, the chain worked in every repetition, and the model was usable once. */
  method Finish(s: Suite, os: seq<Outcome>, paths: seq<Option<AgentPath>>, fatal: bool, ghost mode: FallbackMode)
    returns (pass: bool)
    requires AllOk(os, mode)
    ensures pass <==>
      && !fatal && os != [] && |os| >= s.scenarios * s.repetitions && AgentPathsPass(s, paths)
      && (forall o :: o in os ==> ChainWorks(o, mode))
      && ((exists o :: o in os && o.aiValid) || SomeByModel(paths))
    ensures pass ==> forall o :: o in os ==> o.candidates >= 2
  {
    var t := ComputeMetrics(os);
    var verdict, reasons := Judge(s, t, os, paths, fatal);
    pass := verdict;
    if pass {
      PassIsSound(s, os, paths, mode);
    } else if !fatal && os != [] && |os| >= s.scenarios * s.repetitions && AgentPathsPass(s, paths) {
      if (forall o :: o in os ==> ChainWorks(o, mode)) && ((exists o :: o in os && o.aiValid) || SomeByModel(paths)) {
        PassIsComplete(s, os, paths, mode);
      }
    }
  }
}
