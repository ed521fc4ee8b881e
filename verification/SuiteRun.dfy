/**
 A whole ConsumerChoice run: scenario after scenario, repetition after repetition, until
 one of them makes going on meaningless. Everything the Broker, the model and the clock
 do is an input. The main result says what a PASS of the run means.
 */
module SuiteRun {
  import opened Views
  import opened ChoiceDecision
  import opened Tracking
  import opened Verdict

  // ---------------------------------------------------------------------------
  // Is there a choice at all?
  // ---------------------------------------------------------------------------

  /** A configured provider and how many chunks it was given. */
  datatype Profile = Profile(id: string, chunks: int)

  datatype Masking = Unmasked | OtherPolicy | ProvidersMasked | NoChoice

  ghost predicate DistinctProfiles(profiles: seq<Profile>) {
    forall i, j :: 0 <= i < j < |profiles| ==> profiles[i].id != profiles[j].id
  }

  function HeldAtBaseline(base: Capacity.Snapshot, id: string): int {
    if id in base.reservedBy then base.reservedBy[id] else 0
  }

  /** The row shows no room although its provider had some at the start of the run. */
  predicate Masked(p: Profile, ng: NodeGroup, base: Capacity.Snapshot) {
    IsStandardOf(ng, p.id) && !HasRoom(ng) && p.chunks > HeldAtBaseline(base, ng.id)
  }

  /** How many standard rows of the given providers have room. */
  function RowsWithRoom(list: seq<NodeGroup>, ids: set<string>): nat {
    if list == [] then 0
    else
      var last := list[|list| - 1];
      RowsWithRoom(list[..|list| - 1], ids) + One(last.provider in ids && last.kind == STANDARD && HasRoom(last))
  }

  lemma {:induction false} RowsAddUp(list: seq<NodeGroup>, ids: set<string>, id: string)
    requires id !in ids
    ensures RowsWithRoom(list, ids + {id}) == RowsWithRoom(list, ids) + RowsWithRoom(list, {id})
  {
    if list != [] {
      RowsAddUp(list[..|list| - 1], ids, id);
    }
  }

  lemma {:induction false} RowsAreCandidates(list: seq<NodeGroup>, ids: set<string>)
    ensures RowsWithRoom(list, ids) <= |Candidates(list)|
  {
    if list != [] {
      var front, last := list[..|list| - 1], list[|list| - 1];
      RowsAreCandidates(front, ids);
      if HasRoom(last) {
        assert Growable(list)[..|Growable(front)|] == Growable(front);
      } else {
        assert Growable(list) == Growable(front);
      }
    }
  }

  /** When every candidate is a configured provider, the rows counted are the candidates. */
  lemma {:induction false} RowsAreTheCandidates(list: seq<NodeGroup>, ids: set<string>)
    requires forall ng :: ng in list && ng.kind == STANDARD && HasRoom(ng) ==> ng.provider in ids
    ensures RowsWithRoom(list, ids) == |Candidates(list)|
  {
    if list != [] {
      var front, last := list[..|list| - 1], list[|list| - 1];
      RowsAreTheCandidates(front, ids);
      if HasRoom(last) {
        assert Growable(list)[..|Growable(front)|] == Growable(front);
      } else {
        assert Growable(list) == Growable(front);
      }
    }
  }

  lemma {:induction false} NoIdsNoRows(list: seq<NodeGroup>)
    ensures RowsWithRoom(list, {}) == 0
  {
    if list != [] {
      NoIdsNoRows(list[..|list| - 1]);
    }
  }

  function IdsUpTo(profiles: seq<Profile>, n: nat): set<string>
    requires n <= |profiles|
  {
    set i | 0 <= i < n :: profiles[i].id
  }

  method CheckProfile(p: Profile, list: seq<NodeGroup>, base: Capacity.Snapshot) returns (growable: nat, masked: bool)
    ensures growable == RowsWithRoom(list, {p.id})
    ensures masked <==> exists ng :: ng in list && Masked(p, ng, base)
  {
    growable, masked := 0, false;
    for j := 0 to |list|
      invariant growable == RowsWithRoom(list[..j], {p.id})
      invariant masked <==> exists k :: 0 <= k < j && Masked(p, list[k], base)
    {
      var ng := list[j];
      assert list[..j + 1][..j] == list[..j];
      if ng.provider != p.id || ng.kind != STANDARD {
        continue;
      }
      if HasRoom(ng) {
        growable := growable + 1;
      } else if p.chunks > HeldAtBaseline(base, ng.id) {
        masked := true;
      }
    }
    assert list[..|list|] == list;
  }

  /** Every candidate is one of the configured providers. */
  predicate AllConfigured(list: seq<NodeGroup>, profiles: seq<Profile>) {
    forall ng :: ng in list && ng.kind == STANDARD && HasRoom(ng) ==> ng.provider in IdsUpTo(profiles, |profiles|)
  }

  /** A list that passes offers two candidates or more, so a choice is always made. */
  method AssertUnmasked(list: FreshList, profiles: seq<Profile>, base: Capacity.Snapshot) returns (r: Masking)
    requires DistinctProfiles(profiles)
    ensures r == OtherPolicy <==> !list.consumerChoice
    ensures r == ProvidersMasked <==>
      list.consumerChoice && exists i, ng :: 0 <= i < |profiles| && ng in list.groups && Masked(profiles[i], ng, base)
    ensures r in {Unmasked, NoChoice} ==>
      (r == Unmasked <==> RowsWithRoom(list.groups, IdsUpTo(profiles, |profiles|)) >= 2)
    ensures r == Unmasked ==> |Candidates(list.groups)| >= 2
    ensures r == NoChoice && AllConfigured(list.groups, profiles) ==> |Candidates(list.groups)| < 2
  {
    if !list.consumerChoice {
      return OtherPolicy;
    }
    var growable, anyMasked := 0, false;
    NoIdsNoRows(list.groups);
    assert IdsUpTo(profiles, 0) == {};
    for i := 0 to |profiles|
      invariant growable == RowsWithRoom(list.groups, IdsUpTo(profiles, i))
      invariant anyMasked <==> exists k, ng :: 0 <= k < i && ng in list.groups && Masked(profiles[k], ng, base)
    {
      var n, masked := CheckProfile(profiles[i], list.groups, base);
      assert IdsUpTo(profiles, i + 1) == IdsUpTo(profiles, i) + {profiles[i].id};
      RowsAddUp(list.groups, IdsUpTo(profiles, i), profiles[i].id);
      growable, anyMasked := growable + n, anyMasked || masked;
    }
    RowsAreCandidates(list.groups, IdsUpTo(profiles, |profiles|));
    if AllConfigured(list.groups, profiles) {
      RowsAreTheCandidates(list.groups, IdsUpTo(profiles, |profiles|));
    }
    return if anyMasked then ProvidersMasked else if growable < 2 then NoChoice else Unmasked;
  }

  // ---------------------------------------------------------------------------
  // The plan of a run
  // ---------------------------------------------------------------------------

  /** What happens in one repetition: the list read first (none when the read fails), the
      model's reply, the second read, and the attempt. */
  datatype Rep = Rep(list: Option<FreshList>, reply: Reply, answer: Option<FreshList>, attempt: Attempt)

  /** What the agent path ends with, and whether it stops the run. */
  datatype AgentRun = AgentRun(path: AgentPath, stops: bool)

  datatype Scenario = Scenario(
    name: string,
    activates: bool,
    rep: nat -> Rep,
    judge: string -> Option<bool>,
    agent: AgentRun)

  datatype Setting = Setting(
    repetitions: nat,
    agentPath: bool,
    mode: FallbackMode,
    profiles: seq<Profile>,
    base: Capacity.Snapshot)

  /** One repetition of the plan, in the order in which they are run. */
  datatype Step = Step(scenario: Scenario, rep: Rep)

  ghost function StepsOf(sc: Scenario, n: nat): seq<Step> {
    seq(n, (j: nat) => Step(sc, sc.rep(j)))
  }

  ghost function Plan(scs: seq<Scenario>, repetitions: nat): seq<Step> {
    if scs == [] then [] else Plan(scs[..|scs| - 1], repetitions) + StepsOf(scs[|scs| - 1], repetitions)
  }

  lemma {:induction false} PlanIsFull(scs: seq<Scenario>, repetitions: nat)
    ensures |Plan(scs, repetitions)| == |scs| * repetitions
  {
    if scs != [] {
      var n := |scs| - 1;
      PlanIsFull(scs[..n], repetitions);
      assert |scs| * repetitions == n * repetitions + repetitions;
    }
  }

  /** Scenario after scenario, repetition after repetition. */
  lemma PlanAt(scs: seq<Scenario>, repetitions: nat, i: nat, j: nat)
    requires i < |scs| && j < repetitions
    ensures i * repetitions + j < |Plan(scs, repetitions)|
    ensures Plan(scs, repetitions)[i * repetitions + j] == Step(scs[i], scs[i].rep(j))
  {
    PlanIsFull(scs[..i], repetitions);
    PlanGrows(scs, repetitions, i);
    var before, upTo, plan := Plan(scs[..i], repetitions), Plan(scs[..i + 1], repetitions), Plan(scs, repetitions);
    assert |before| == i * repetitions;
    assert upTo[|before| + j] == StepsOf(scs[i], repetitions)[j];
    assert plan[|before| + j] == upTo[|before| + j];
  }

  lemma {:induction false} PlanStarts(scs: seq<Scenario>, repetitions: nat, i: nat)
    requires i <= |scs|
    ensures Plan(scs[..i], repetitions) <= Plan(scs, repetitions)
  {
    if i == |scs| {
      assert scs[..i] == scs;
    } else {
      PlanStarts(scs[..|scs| - 1], repetitions, i);
      assert scs[..|scs| - 1][..i] == scs[..i];
    }
  }

  lemma PlanGrows(scs: seq<Scenario>, repetitions: nat, i: nat)
    requires i < |scs|
    ensures Plan(scs[..i + 1], repetitions) == Plan(scs[..i], repetitions) + StepsOf(scs[i], repetitions)
    ensures Plan(scs[..i + 1], repetitions) <= Plan(scs, repetitions)
  {
    assert scs[..i + 1][..i] == scs[..i];
    PlanStarts(scs, repetitions, i + 1);
  }

  /** The waits of every repetition end. */
  ghost predicate AllBounded(sc: Scenario) {
    forall j: nat :: Bounded(sc.rep(j).attempt)
  }

  // ---------------------------------------------------------------------------
  // Outcomes against the plan
  // ---------------------------------------------------------------------------

  /** What happened in a repetition: its decision, and its reservation if there was one. */
  datatype Account = Account(final: Final, track: Track, released: bool, settle: Settle)

  /** The account behind an outcome: a decision made among the candidates of this very
      repetition, from its reply, which was judged wherever an answer counts; and a
      reservation, release and wait that went as this repetition's Broker answered. */
  ghost predicate Explains(o: Outcome, step: Step, cc: Setting, a: Account) {
    && step.rep.list.Some?
    && Sound(a.final, cc.mode) && Traced(Candidates(step.rep.list.value.groups), step.rep.reply, a.final)
    && a.final.reread == step.rep.answer
    && Tells(o, a.final, step.rep.attempt, cc.base, a.track, a.released, a.settle)
    && (o.aiValid || o.modelFailure ==> Consulted(a.final, step.rep.reply))
    && ReplyTells(o, step.rep.reply, Candidates(step.rep.list.value.groups))
    && (o.passed == if a.final.provider != "" then step.scenario.judge(a.final.provider) else None)
  }

  /** A failure of the model is a reply that was bad in itself; a valid answer one that put
      first the candidate that was chosen. */
  predicate ReplyTells(o: Outcome, reply: Reply, sent: seq<NodeGroup>) {
    (o.modelFailure ==> BadReply(reply, sent)) && (o.aiValid ==> GoodReply(reply, sent, o.provider))
  }

  /** Some POST of the repetition was answered with Peered. */
  ghost predicate BrokerPeered(e: Env) {
    exists k: nat :: e.answer(k) == Accepted(Peered)
  }

  ghost predicate OutcomeOf(o: Outcome, step: Step, cc: Setting) {
    && OutcomeOk(o, cc.mode)
    && o.scenario == step.scenario.name
    && o.candidates >= 2
    && exists a :: Explains(o, step, cc, a)
  }

  /** The flags of an outcome say what the Broker answered in its repetition. */
  lemma FlagsAreAnswers(o: Outcome, step: Step, cc: Setting, a: Account)
    requires Explains(o, step, cc, a) && o.attempted
    ensures o.peered ==> BrokerPeered(step.rep.attempt.env)
    ensures o.settled ==> BackInTime(step.rep.attempt, cc.base)
  {
    if o.peered {
      LastAnswerPeered(step.rep.attempt.env, a.track);
    }
  }

  lemma LastAnswerPeered(e: Env, t: Track)
    requires TrackOk(e, t) && t.peered
    ensures BrokerPeered(e)
  {
    assert e.answer(t.posts - 1) == Accepted(Peered);
  }

  ghost function Judged(cc: Setting): (Outcome, Step) -> bool {
    (o, step) => OutcomeOf(o, step, cc)
  }

  /** `ok` asks no more of an outcome than `OutcomeOf`. What the loops keep in order does
      not depend on what that is. */
  ghost predicate Admits(ok: (Outcome, Step) -> bool, cc: Setting) {
    forall o, step :: OutcomeOf(o, step, cc) ==> ok(o, step)
  }

  /** The outcomes are those of the first steps, in order, and every one but the last
      left the capacity as it was. */
  ghost predicate Follows(os: seq<Outcome>, steps: seq<Step>, ok: (Outcome, Step) -> bool) {
    && |os| <= |steps|
    && (forall k :: 0 <= k < |os| ==> ok(os[k], steps[k]))
    && (forall k :: 0 <= k < |os| - 1 ==> CapacityIsBack(os[k]))
  }

  predicate CapacityIsBack(o: Outcome) {
    o.attempted ==> o.settled
  }

  predicate EndsWell(os: seq<Outcome>) {
    os != [] ==> CapacityIsBack(os[|os| - 1])
  }

  /** Outcomes one after the other: if the first part ended well it can be continued. */
  lemma FollowsOn(os: seq<Outcome>, steps: seq<Step>, more: seq<Outcome>, next: seq<Step>, ok: (Outcome, Step) -> bool)
    requires Follows(os, steps, ok) && |os| == |steps| && EndsWell(os)
    requires Follows(more, next, ok)
    ensures Follows(os + more, steps + next, ok)
    ensures EndsWell(more) ==> EndsWell(os + more)
  {
  }

  /** The first `i` scenarios are done and nothing stopped the run. */
  ghost predicate DoneWith(os: seq<Outcome>, scs: seq<Scenario>, reps: nat, i: nat, ok: (Outcome, Step) -> bool)
    requires i <= |scs|
  {
    Follows(os, Plan(scs[..i], reps), ok) && |os| == |Plan(scs[..i], reps)| && EndsWell(os)
  }

  lemma DoneSoFar(os: seq<Outcome>, scs: seq<Scenario>, reps: nat, i: nat, ok: (Outcome, Step) -> bool)
    requires i <= |scs| && DoneWith(os, scs, reps, i, ok)
    ensures Follows(os, Plan(scs, reps), ok)
    ensures i == |scs| ==> |os| == |scs| * reps
  {
    PlanStarts(scs, reps, i);
    if i == |scs| {
      assert scs[..i] == scs;
      PlanIsFull(scs, reps);
    }
  }

  /** Whatever part of the next scenario was run, the plan is followed. */
  lemma NextScenario(os: seq<Outcome>, more: seq<Outcome>, scs: seq<Scenario>, reps: nat, i: nat,
                     ok: (Outcome, Step) -> bool)
    requires i < |scs| && DoneWith(os, scs, reps, i, ok) && Follows(more, StepsOf(scs[i], reps), ok)
    ensures Follows(os + more, Plan(scs, reps), ok)
    ensures |more| == reps && EndsWell(more) ==> DoneWith(os + more, scs, reps, i + 1, ok)
  {
    FollowsOn(os, Plan(scs[..i], reps), more, StepsOf(scs[i], reps), ok);
    PlanGrows(scs, reps, i);
  }

  // ---------------------------------------------------------------------------
  // Why a run stops
  // ---------------------------------------------------------------------------

  /** The list read first can be used: ConsumerChoice applies, no provider is masked, and
      two of the configured ones have room. */
  ghost predicate Offers(rep: Rep, cc: Setting) {
    && rep.list.Some? && rep.list.value.consumerChoice
    && !(exists i, ng :: 0 <= i < |cc.profiles| && ng in rep.list.value.groups && Masked(cc.profiles[i], ng, cc.base))
    && RowsWithRoom(rep.list.value.groups, IdsUpTo(cc.profiles, |cc.profiles|)) >= 2
  }

  /** The last outcome left capacity away, or the next repetition had no list to use. */
  ghost predicate CutShort(os: seq<Outcome>, steps: seq<Step>, cc: Setting) {
    !EndsWell(os) || (|os| < |steps| && !Offers(steps[|os|].rep, cc))
  }

  /** That, or a policy that could not be activated, or an agent path that stops the run. */
  ghost predicate Stopped(os: seq<Outcome>, scs: seq<Scenario>, cc: Setting) {
    || CutShort(os, Plan(scs, cc.repetitions), cc)
    || exists i :: 0 <= i < |scs| && (!scs[i].activates || (cc.agentPath && scs[i].agent.stops))
  }

  lemma CutInScenario(os: seq<Outcome>, more: seq<Outcome>, scs: seq<Scenario>, cc: Setting, i: nat)
    requires i < |scs| && |os| == |Plan(scs[..i], cc.repetitions)|
    requires CutShort(more, StepsOf(scs[i], cc.repetitions), cc)
    ensures |more| <= cc.repetitions ==> CutShort(os + more, Plan(scs, cc.repetitions), cc)
  {
    var before, here := Plan(scs[..i], cc.repetitions), StepsOf(scs[i], cc.repetitions);
    var plan := Plan(scs, cc.repetitions);
    PlanGrows(scs, cc.repetitions, i);
    if |more| < |here| {
      assert (before + here)[|os| + |more|] == here[|more|];
      assert plan[|os| + |more|] == (before + here)[|os| + |more|];
    }
  }

  // ---------------------------------------------------------------------------
  // The loops
  // ---------------------------------------------------------------------------

  /** No outcome when the list cannot be read or offers no choice. */
  method RunStep(sc: Scenario, j: nat, cc: Setting, ghost ok: (Outcome, Step) -> bool)
    returns (o: Option<Outcome>, fatal: bool)
    requires Admits(ok, cc) && DistinctProfiles(cc.profiles) && Bounded(sc.rep(j).attempt)
    ensures (o.None? ==> fatal) && (o.None? <==> !Offers(sc.rep(j), cc))
    ensures o.Some? ==> ok(o.value, Step(sc, sc.rep(j))) && (fatal <==> !CapacityIsBack(o.value))
  {
    var rep := sc.rep(j);
    if rep.list.None? {
      return None, true;
    }
    var masking := AssertUnmasked(rep.list.value, cc.profiles, cc.base);
    if masking != Unmasked {
      return None, true;
    }
    var outcome, stop, f, t, released, settle :=
      RunRepetition(sc.name, rep.list.value.groups, rep.reply, rep.answer, cc.mode, sc.judge, rep.attempt, cc.base);
    assert Explains(outcome, Step(sc, rep), cc, Account(f, t, released, settle));
    assert OutcomeOf(outcome, Step(sc, rep), cc);
    o, fatal := Some(outcome), stop;
  }

  method RunScenario(sc: Scenario, cc: Setting, ghost ok: (Outcome, Step) -> bool)
    returns (os: seq<Outcome>, fatal: bool)
    requires Admits(ok, cc) && DistinctProfiles(cc.profiles) && AllBounded(sc)
    ensures Follows(os, StepsOf(sc, cc.repetitions), ok)
    ensures !fatal ==> |os| == cc.repetitions && EndsWell(os)
    ensures fatal ==> CutShort(os, StepsOf(sc, cc.repetitions), cc)
  {
    os, fatal := [], false;
    for j := 0 to cc.repetitions
      invariant |os| == j && Follows(os, StepsOf(sc, cc.repetitions), ok) && EndsWell(os)
    {
      assert Bounded(sc.rep(j).attempt);
      var o, stop := RunStep(sc, j, cc, ok);
      assert StepsOf(sc, cc.repetitions)[j] == Step(sc, sc.rep(j));
      if o.Some? {
        os := os + [o.value];
      }
      if stop {
        return os, true;
      }
    }
  }

  method RunScenarios(scs: seq<Scenario>, cc: Setting, ghost ok: (Outcome, Step) -> bool)
    returns (os: seq<Outcome>, paths: seq<Option<AgentPath>>, fatal: bool)
    requires Admits(ok, cc) && DistinctProfiles(cc.profiles) && forall sc :: sc in scs ==> AllBounded(sc)
    ensures Follows(os, Plan(scs, cc.repetitions), ok)
    ensures !fatal ==> |os| == |scs| * cc.repetitions && EndsWell(os)
    ensures |paths| <= |scs| && forall i :: 0 <= i < |paths| ==> paths[i] == Some(scs[i].agent.path)
    ensures !fatal && cc.agentPath ==> |paths| == |scs|
    ensures fatal ==> Stopped(os, scs, cc)
  {
    os, paths, fatal := [], [], false;
    for i := 0 to |scs|
      invariant DoneWith(os, scs, cc.repetitions, i, ok)
      invariant |paths| == if cc.agentPath then i else 0
      invariant forall k :: 0 <= k < |paths| ==> paths[k] == Some(scs[k].agent.path)
    {
      DoneSoFar(os, scs, cc.repetitions, i, ok);
      if !scs[i].activates {
        return os, paths, true;
      }
      var more, stop := RunScenario(scs[i], cc, ok);
      NextScenario(os, more, scs, cc.repetitions, i, ok);
      if stop {
        CutInScenario(os, more, scs, cc, i);
      }
      os := os + more;
      if !stop && cc.agentPath {
        paths, stop := paths + [Some(scs[i].agent.path)], scs[i].agent.stops;
      }
      if stop {
        return os, paths, true;
      }
    }
    DoneSoFar(os, scs, cc.repetitions, |scs|, ok);
  }

  // ---------------------------------------------------------------------------
  // What a PASS means
  // ---------------------------------------------------------------------------

  /** The repetition did what the suite is for: two candidates or more were offered, the
      model's reply was judged, and the chain it started worked to the end: unless the
      model failed in `fail` mode, the Broker answered Peered and the capacity came back. */
  ghost predicate Exercised(o: Outcome, step: Step, cc: Setting) {
    && OutcomeOf(o, step, cc)
    && ChainWorks(o, cc.mode)
    && (exists a :: Explains(o, step, cc, a) && Consulted(a.final, step.rep.reply))
    && step.rep.list.Some? && ReplyTells(o, step.rep.reply, Candidates(step.rep.list.value.groups))
    && (if o.attempted then BrokerPeered(step.rep.attempt.env) && BackInTime(step.rep.attempt, cc.base)
        else o.modelFailure && cc.mode == FailMode)
  }

  lemma WorkingIsExercised(o: Outcome, step: Step, cc: Setting)
    requires OutcomeOf(o, step, cc) && ChainWorks(o, cc.mode) && CapacityIsBack(o)
    ensures Exercised(o, step, cc)
  {
    var a :| Explains(o, step, cc, a);
    assert Consulted(a.final, step.rep.reply);
    if o.attempted {
      FlagsAreAnswers(o, step, cc, a);
    }
  }

  lemma PassIsExercised(os: seq<Outcome>, plan: seq<Step>, cc: Setting)
    requires Follows(os, plan, Judged(cc)) && |os| == |plan| && EndsWell(os)
    requires forall o :: o in os ==> ChainWorks(o, cc.mode)
    ensures forall k :: 0 <= k < |plan| ==> Exercised(os[k], plan[k], cc)
  {
    forall k | 0 <= k < |plan|
      ensures Exercised(os[k], plan[k], cc)
    {
      assert os[k] in os && Judged(cc)(os[k], plan[k]);
      assert CapacityIsBack(os[k]);
      WorkingIsExercised(os[k], plan[k], cc);
    }
  }

  /** The whole run. When it passes, there is exactly one outcome per planned repetition,
      in order, and each was exercised; and it passes whenever nothing stopped it, every
      chain worked and the model was usable once. */
  method Execute(prepared: bool, scs: seq<Scenario>, cc: Setting)
    returns (pass: bool, os: seq<Outcome>, paths: seq<Option<AgentPath>>, fatal: bool)
    requires DistinctProfiles(cc.profiles) && forall sc :: sc in scs ==> AllBounded(sc)
    ensures Follows(os, Plan(scs, cc.repetitions), Judged(cc))
    ensures pass ==> |os| == |Plan(scs, cc.repetitions)| == |scs| * cc.repetitions && os != []
    ensures pass ==> forall k :: 0 <= k < |os| ==> Exercised(os[k], Plan(scs, cc.repetitions)[k], cc)
    ensures pass ==> (exists o :: o in os && o.aiValid) || SomeByModel(paths)
    ensures fatal ==> !prepared || Stopped(os, scs, cc)
    ensures pass <==>
      && !fatal && os != [] && AgentPathsPass(Suite(|scs|, cc.repetitions, cc.agentPath), paths)
      && (forall o :: o in os ==> ChainWorks(o, cc.mode))
      && ((exists o :: o in os && o.aiValid) || SomeByModel(paths))
  {
    os, paths, fatal := [], [], true;
    if prepared {
      os, paths, fatal := RunScenarios(scs, cc, Judged(cc));
    }
    FollowedAreOk(os, Plan(scs, cc.repetitions), cc);
    pass := Finish(Suite(|scs|, cc.repetitions, cc.agentPath), os, paths, fatal, cc.mode);
    PlanIsFull(scs, cc.repetitions);
    if pass {
      PassIsExercised(os, Plan(scs, cc.repetitions), cc);
    }
  }

  /** Whatever happened, every recorded outcome is well formed and had the model asked. */
  lemma FollowedAreOk(os: seq<Outcome>, plan: seq<Step>, cc: Setting)
    requires Follows(os, plan, Judged(cc))
    ensures AllOk(os, cc.mode)
    ensures forall o :: o in os ==> o.aiCalled && o.candidates >= 2
  {
    forall o | o in os
      ensures OutcomeOk(o, cc.mode) && o.aiCalled && o.candidates >= 2
    {
      var k :| 0 <= k < |os| && os[k] == o;
      assert Judged(cc)(os[k], plan[k]);
    }
  }
}
