/**
 One ConsumerChoice decision: the model's answer is untrusted input, so it is checked
 against the list that was sent and against a fresh read of the Broker, and a fallback
 may take its place. `Sound` is what holds of every decision, whatever was answered.
 */
module ChoiceDecision {
  import opened Views
  import opened Sorting
  import opened Fallback

  datatype Failure =
    | NoCapacity | Unreachable | Timeout | HttpStatus | EnvelopeDecode
    | InvalidJson | EmptyProviderId | UnknownProviderId
    | ProviderNotListed | ProviderNoCapacity | MissingFields | PolicyChanged | BrokerUnavailable
    | FallbackNoCandidate
    | ReservationRejected | ReservationTimeout | ReservationBadPhase | ReleaseError | CapacityLeak

  /** A failure that is the model's own: late, not JSON, no provider or an invented one. */
  predicate IsModelAnswerKind(f: Failure) {
    f.Timeout? || f.InvalidJson? || f.EmptyProviderId? || f.UnknownProviderId?
  }

  /** What the JSON reply holds. */
  datatype Answer = Answer(list: seq<string>, provider: string)

  datatype Reply = CallFailed(kind: Failure) | NotJson | Json(answer: Answer)

  /** The record of one question to the model. */
  datatype Trace = Trace(
    providers: seq<NodeGroup>,
    single: bool,
    parsed: Option<Answer>,
    ranked: seq<string>,
    unknown: seq<string>)

  predicate Sent(providers: seq<NodeGroup>, id: string) {
    exists ng :: ng in providers && ng.provider == id
  }

  predicate NoRepeats(s: seq<string>) {
    forall i, j :: 0 <= i < j < |s| ==> s[i] != s[j]
  }

  /** The valid ids of a list, each at its first place. */
  function FirstPlaces(list: seq<string>, providers: seq<NodeGroup>): (ranked: seq<string>)
    ensures NoRepeats(ranked)
    ensures forall id :: id in ranked <==> id in list && Sent(providers, id)
  {
    if list == [] then []
    else
      var before, id := FirstPlaces(list[..|list| - 1], providers), list[|list| - 1];
      assert list == list[..|list| - 1] + [id];
      if Sent(providers, id) && id !in before then before + [id] else before
  }

  /** The ids of a list that were not sent, as often as they are listed. */
  function Invented(list: seq<string>, providers: seq<NodeGroup>): (unknown: seq<string>)
    ensures forall id :: id in unknown <==> id in list && !Sent(providers, id)
  {
    if list == [] then []
    else
      var before, id := Invented(list[..|list| - 1], providers), list[|list| - 1];
      assert list == list[..|list| - 1] + [id];
      if Sent(providers, id) then before else before + [id]
  }

  lemma {:induction false} InventedAreAllKept(list: seq<string>, providers: seq<NodeGroup>, id: string)
    requires !Sent(providers, id)
    ensures multiset(Invented(list, providers))[id] == multiset(list)[id]
  {
    if list != [] {
      InventedAreAllKept(list[..|list| - 1], providers, id);
      assert list == list[..|list| - 1] + [list[|list| - 1]];
    }
  }

  /** `a` is listed before `b` first is. */
  predicate ListedBefore(list: seq<string>, a: string, b: string) {
    exists i :: 0 <= i < |list| && list[i] == a && b !in list[..i + 1]
  }

  /** Repetitions and invented ids leave the order in which the model named the others. */
  lemma {:induction false} RankingKeepsOrder(list: seq<string>, providers: seq<NodeGroup>, i: nat, j: nat)
    requires i < j < |FirstPlaces(list, providers)|
    ensures var ranked := FirstPlaces(list, providers); ListedBefore(list, ranked[i], ranked[j])
  {
    var shorter, last := list[..|list| - 1], list[|list| - 1];
    var before, ranked := FirstPlaces(shorter, providers), FirstPlaces(list, providers);
    assert list == shorter + [last];
    var k: int;
    if j < |before| {
      RankingKeepsOrder(shorter, providers, i, j);
      k :| 0 <= k < |shorter| && shorter[k] == ranked[i] && ranked[j] !in shorter[..k + 1];
      assert shorter[..k + 1] == list[..k + 1];
    } else {
      assert before[i] in before;
      k :| 0 <= k < |shorter| && shorter[k] == ranked[i];
      assert forall id :: id in list[..k + 1] ==> id in shorter;
    }
    assert list[k] == ranked[i];
  }

  // ---------------------------------------------------------------------------
  // Asking the model
  // ---------------------------------------------------------------------------

  method RankList(list: seq<string>, providers: seq<NodeGroup>) returns (ranked: seq<string>, unknown: seq<string>)
    ensures ranked == FirstPlaces(list, providers)
    ensures unknown == Invented(list, providers)
  {
    ranked, unknown := [], [];
    for i := 0 to |list|
      invariant ranked == FirstPlaces(list[..i], providers)
      invariant unknown == Invented(list[..i], providers)
    {
      NextName(list, providers, i);
      if !Sent(providers, list[i]) {
        unknown := unknown + [list[i]];
      } else if list[i] !in ranked {
        ranked := ranked + [list[i]];
      }
    }
    assert list[..|list|] == list;
  }

  lemma NextName(list: seq<string>, providers: seq<NodeGroup>, i: nat)
    requires i < |list|
    ensures var ranked := FirstPlaces(list[..i], providers);
      FirstPlaces(list[..i + 1], providers) ==
      if Sent(providers, list[i]) && list[i] !in ranked then ranked + [list[i]] else ranked
    ensures var unknown := Invented(list[..i], providers);
      Invented(list[..i + 1], providers) == if Sent(providers, list[i]) then unknown else unknown + [list[i]]
  {
    assert list[..i + 1][..i] == list[..i];
  }

  /** Why an answer was rejected by the selector, if it was. */
  function SelectError(providers: seq<NodeGroup>, reply: Reply): Option<Failure> {
    if providers == [] then Some(NoCapacity)
    else if |providers| == 1 then None
    else match reply
      case CallFailed(kind) => Some(kind)
      case NotJson => Some(InvalidJson)
      case Json(a) =>
        if a.list != [] then
          if exists id :: id in a.list && Sent(providers, id) then None else Some(UnknownProviderId)
        else if a.provider == "" then Some(EmptyProviderId)
        else if Sent(providers, a.provider) then None else Some(UnknownProviderId)
  }

  ghost predicate TraceOk(ngs: seq<NodeGroup>, reply: Reply, trace: Trace, err: Option<Failure>) {
    && trace.providers == Growable(ngs)
    && (trace.single <==> |trace.providers| == 1)
    && err == SelectError(trace.providers, reply)
    && (trace.parsed.Some? <==> |trace.providers| > 1 && reply.Json?)
    && (trace.parsed.Some? ==> trace.parsed.value == reply.answer)
    && (trace.single ==> trace.ranked == [trace.providers[0].provider])
    && (forall id :: id in trace.ranked ==> Sent(trace.providers, id))
    && (err.None? <==> trace.ranked != [])
  }

  /** What is recorded of the ids an answer names: the sent ones in its order, the others
      apart. */
  predicate NamesRecorded(reply: Reply, trace: Trace) {
    if |trace.providers| <= 1 || !reply.Json? then
      && trace.unknown == []
      && trace.ranked == if |trace.providers| == 1 then [trace.providers[0].provider] else []
    else
      var named := if reply.answer.list != [] then reply.answer.list
                   else if reply.answer.provider != "" then [reply.answer.provider] else [];
      trace.ranked == FirstPlaces(named, trace.providers) && trace.unknown == Invented(named, trace.providers)
  }

  method SelectDetailed(ngs: seq<NodeGroup>, reply: Reply) returns (trace: Trace, err: Option<Failure>)
    ensures TraceOk(ngs, reply, trace, err)
    ensures NamesRecorded(reply, trace)
  {
    var providers := Growable(ngs);
    trace := Trace(providers, false, None, [], []);
    if |providers| == 0 {
      return trace, Some(NoCapacity);
    }
    if |providers| == 1 {
      assert providers[0] in providers;
      return trace.(single := true, ranked := [providers[0].provider]), None;
    }
    match reply
    case CallFailed(kind) =>
      return trace, Some(kind);
    case NotJson =>
      return trace, Some(InvalidJson);
    case Json(answer) =>
      trace := trace.(parsed := Some(answer));
      if |answer.list| > 0 {
        var ranked, unknown := RankList(answer.list, providers);
        if |ranked| == 0 {
          assert forall id :: id in answer.list && Sent(providers, id) ==> id in ranked;
          return trace.(unknown := unknown), Some(UnknownProviderId);
        }
        assert ranked[0] in ranked;
        return trace.(ranked := ranked, unknown := unknown), None;
      }
      if answer.provider == "" {
        return trace, Some(EmptyProviderId);
      }
      assert [answer.provider][..0] == [];
      if !Sent(providers, answer.provider) {
        return trace.(unknown := [answer.provider]), Some(UnknownProviderId);
      }
      return trace.(ranked := [answer.provider]), None;
  }

  // ---------------------------------------------------------------------------
  // Checking the answer
  // ---------------------------------------------------------------------------

  datatype Validation = Validation(
    selected: string,
    validJson: bool,
    nonEmpty: bool,
    inList: bool,
    stillListed: bool,
    stillHasRoom: bool,
    policyOk: bool,
    fieldsPresent: bool,
    valid: bool,
    fallbackApplied: bool)

  /** The model's choice is what it ranked first itself, not the first valid entry. */
  function Selected(trace: Trace): string {
    if trace.parsed.Some? then
      if trace.parsed.value.list != [] then trace.parsed.value.list[0] else trace.parsed.value.provider
    else if trace.single && trace.ranked != [] then trace.ranked[0]
    else ""
  }

  function AnswerFailures(trace: Trace, err: Option<Failure>): seq<Failure> {
    if err.Some? then [err.value]
    else if Selected(trace) == "" then [EmptyProviderId]
    else if !Sent(trace.providers, Selected(trace)) then [UnknownProviderId]
    else []
  }

  method ValidateAnswer(trace: Trace, err: Option<Failure>) returns (v: Validation, failures: seq<Failure>)
    ensures v == Validation(Selected(trace), trace.parsed.Some?, Selected(trace) != "",
                            Sent(trace.providers, Selected(trace)), false, false, false, false, false, false)
    ensures failures == AnswerFailures(trace, err)
  {
    failures := [];
    var selected := "";
    if trace.parsed.Some? && |trace.parsed.value.list| > 0 {
      selected := trace.parsed.value.list[0];
    } else if trace.parsed.Some? {
      selected := trace.parsed.value.provider;
    } else if trace.single && |trace.ranked| > 0 {
      selected := trace.ranked[0];
    }
    if err.Some? {
      failures := failures + [err.value];
    }
    var inList := false;
    var i := 0;
    while i < |trace.providers| && !inList
      invariant 0 <= i <= |trace.providers|
      invariant inList ==> Sent(trace.providers, selected)
      invariant !inList ==> forall k :: 0 <= k < i ==> trace.providers[k].provider != selected
      decreases |trace.providers| - i, !inList
    {
      if trace.providers[i].provider == selected {
        assert trace.providers[i] in trace.providers;
        inList := true;
      } else {
        i := i + 1;
      }
    }
    if err.None? && selected == "" {
      failures := failures + [EmptyProviderId];
    }
    if err.None? && selected != "" && !inList {
      failures := failures + [UnknownProviderId];
    }
    v := Validation(selected, trace.parsed.Some?, selected != "", inList, false, false, false, false, false, false);
  }

  /** What a fresh read of the Broker shows; `consumerChoice` is the policy it applies. */
  datatype FreshList = FreshList(consumerChoice: bool, groups: seq<NodeGroup>)

  predicate FieldsPresent(ng: NodeGroup) {
    ng.id != "" && ng.provider != "" && ng.kind != ""
  }

  /** The group the selection would be reserved on, as the Broker lists it now. */
  function GroupNow(answer: Option<FreshList>, v: Validation): Option<NodeGroup> {
    if answer.Some? && v.inList then StandardGroup(answer.value.groups, v.selected) else None
  }

  function Only(c: bool, f: Failure): seq<Failure> {
    if c then [f] else []
  }

  function GroupFailures(group: Option<NodeGroup>): seq<Failure> {
    if group.None? then [ProviderNotListed]
    else Only(!HasRoom(group.value), ProviderNoCapacity) + Only(!FieldsPresent(group.value), MissingFields)
  }

  function BrokerFailures(answer: Option<FreshList>, v: Validation): seq<Failure> {
    if answer.None? then [BrokerUnavailable]
    else
      var group := GroupNow(answer, v);
      Only(!answer.value.consumerChoice, PolicyChanged) + if v.inList then GroupFailures(group) else []
  }

  /** The checks of the selected provider's group. */
  function Seen(v: Validation, now: Option<NodeGroup>): Validation {
    v.(stillListed := now.Some?,
       stillHasRoom := now.Some? && HasRoom(now.value),
       fieldsPresent := now.Some? && FieldsPresent(now.value))
  }

  function Checked(v: Validation, answer: Option<FreshList>): Validation {
    Seen(v.(policyOk := answer.Some? && answer.value.consumerChoice), GroupNow(answer, v))
  }

  function Usable(now: Option<NodeGroup>): Option<NodeGroup> {
    if now.Some? && HasRoom(now.value) && FieldsPresent(now.value) then now else None
  }

  // ---------------------------------------------------------------------------
  // The decision
  // ---------------------------------------------------------------------------

  datatype Source = FromModel | FromFallback | OnlyCandidate | NoSource

  datatype FallbackMode = FailMode | AgentDefault | CheapestEligible | LowestCarbonEligible

  /** Everything a decision ends with. */
  datatype Final = Final(
    trace: Trace,
    validation: Validation,
    source: Source,
    provider: string,
    group: Option<NodeGroup>,
    failures: seq<Failure>,
    reread: Option<FreshList>)

  predicate AICalled(f: Final) {
    !f.trace.single
  }

  predicate AllModelKinds(failures: seq<Failure>) {
    forall i :: 0 <= i < |failures| ==> IsModelAnswerKind(failures[i])
  }

  /** The model was asked and its answer was rejected for its own reasons only. */
  predicate ModelAnswerFailed(f: Final) {
    AICalled(f) && !f.validation.valid && f.failures != [] && AllModelKinds(f.failures)
  }

  /** A growable standard group of `provider` is listed. */
  ghost predicate Eligible(groups: seq<NodeGroup>, provider: string) {
    exists ng :: ng in groups && HasRoom(ng) && IsStandardOf(ng, provider)
  }

  /** The growable standard groups of a list, in some order. */
  ghost predicate EligibleOnly(standard: seq<NodeGroup>, groups: seq<NodeGroup>) {
    forall ng :: ng in standard <==> ng in groups && HasRoom(ng) && ng.kind == STANDARD
  }

  /** The provider a mode picks among eligible groups; empty when it picks none. */
  ghost predicate Picked(mode: FallbackMode, standard: seq<NodeGroup>, id: string) {
    match mode
    case FailMode => id == ""
    case AgentDefault =>
      if exists ng :: ng in standard && HasRoom(ng)
      then exists g :: IsBest(standard, g) && id == g.provider
      else id == ""
    case CheapestEligible => IsPick(Cost, Carbon, standard, id)
    case LowestCarbonEligible => IsPick(Carbon, Cost, standard, id)
  }

  ghost predicate PickedFrom(mode: FallbackMode, groups: seq<NodeGroup>, id: string) {
    exists standard :: EligibleOnly(standard, groups) && Picked(mode, standard, id)
  }

  ghost predicate GroupIsProviders(f: Final) {
    && (f.group.Some? <==> f.provider != "")
    && (f.group.Some? ==>
          && f.reread.Some? && f.reread.value.consumerChoice
          && f.group == StandardGroup(f.reread.value.groups, f.provider))
  }

  ghost predicate ChoiceIsSent(f: Final) {
    && (f.source.FromModel? || f.source.OnlyCandidate? <==> f.validation.valid)
    && (f.source.OnlyCandidate? ==> f.trace.single) && (f.source.FromModel? ==> !f.trace.single)
    && (f.validation.valid ==>
          && f.provider == Selected(f.trace) && f.provider != "" && Sent(f.trace.providers, f.provider)
          && f.group.Some? && HasRoom(f.group.value)
          && f.failures == [] && !f.validation.fallbackApplied)
  }

  ghost predicate FallbackIsEligible(f: Final, mode: FallbackMode) {
    && (f.source.FromFallback? <==> !f.validation.valid && f.provider != "")
    && (f.source.FromFallback? ==>
          f.validation.fallbackApplied && f.reread.Some? && Eligible(f.reread.value.groups, f.provider))
    && (f.validation.fallbackApplied <==>
          !f.validation.valid && mode != FailMode && f.reread.Some? && f.reread.value.consumerChoice)
    && (f.validation.fallbackApplied && f.provider == "" ==> FallbackNoCandidate in f.failures)
    && (f.validation.fallbackApplied ==> PickedFrom(mode, f.reread.value.groups, f.provider))
  }

  ghost predicate FailuresAreNamed(f: Final) {
    && (!f.validation.valid ==> f.failures != [])
    && (f.reread.None? ==> BrokerUnavailable in f.failures)
    && (f.reread.Some? && !f.reread.value.consumerChoice ==> PolicyChanged in f.failures)
  }

  ghost predicate Sound(f: Final, mode: FallbackMode) {
    GroupIsProviders(f) && ChoiceIsSent(f) && FallbackIsEligible(f, mode) && FailuresAreNamed(f)
  }

  /** What the fallback leaves: it is applied where it can be, and then either names an
      eligible provider with its group, or one more failure. */
  ghost predicate FellBack(f: Final, mode: FallbackMode, before: seq<Failure>) {
    && (f.validation.fallbackApplied <==> mode != FailMode && f.reread.Some? && f.reread.value.consumerChoice)
    && f.failures == before + Only(f.validation.fallbackApplied && f.provider == "", FallbackNoCandidate)
    && (f.validation.fallbackApplied ==> PickedFrom(mode, f.reread.value.groups, f.provider))
    && (f.provider != "" ==>
          && f.validation.fallbackApplied && f.source == FromFallback && Eligible(f.reread.value.groups, f.provider)
          && f.group == StandardGroup(f.reread.value.groups, f.provider) && f.group.Some?)
    && (f.provider == "" ==> f.source == NoSource && f.group == None)
  }

  class Decision {
    const trace: Trace
    var validation: Validation
    var source: Source
    var provider: string
    var group: Option<NodeGroup>
    var failures: seq<Failure>
    var reread: Option<FreshList>

    constructor (trace: Trace, validation: Validation, failures: seq<Failure>)
      ensures Result() == Final(trace, validation, NoSource, "", None, failures, None)
    {
      this.trace, this.validation, this.failures := trace, validation, failures;
      source, provider, group, reread := NoSource, "", None, None;
    }

    function Result(): Final
      reads this
    {
      Final(trace, validation, source, provider, group, failures, reread)
    }

    method Fail(category: Failure)
      modifies `failures
      ensures failures == old(failures) + [category]
    {
      failures := failures + [category];
    }

    /** Checks the group of the selected provider, if it is still listed. */
    method CheckGroup(now: Option<NodeGroup>)
      requires group == None && !validation.stillListed && !validation.stillHasRoom && !validation.fieldsPresent
      modifies `validation, `group, `failures
      ensures failures == old(failures) + GroupFailures(now)
      ensures validation == Seen(old(validation), now)
      ensures group == Usable(now)
    {
      if now.None? {
        Fail(ProviderNotListed);
        return;
      }
      var hasRoom, fields := HasRoom(now.value), FieldsPresent(now.value);
      validation := validation.(stillListed := true, stillHasRoom := hasRoom, fieldsPresent := fields);
      if !hasRoom {
        Fail(ProviderNoCapacity);
      }
      if !fields {
        Fail(MissingFields);
      }
      if hasRoom && fields {
        group := now;
      }
    }

    /** Re-reads the Broker; `answer` is what it says, or nothing when it cannot be read. */
    method CheckAgainstBroker(answer: Option<FreshList>)
      requires reread == None && group == None
      requires !validation.stillListed && !validation.stillHasRoom && !validation.policyOk && !validation.fieldsPresent
      modifies `validation, `group, `failures, `reread
      ensures reread == answer
      ensures failures == old(failures) + BrokerFailures(answer, old(validation))
      ensures validation == Checked(old(validation), answer)
      ensures group == Usable(GroupNow(answer, old(validation)))
    {
      if answer.None? {
        Fail(BrokerUnavailable);
        return;
      }
      reread := answer;
      validation := validation.(policyOk := answer.value.consumerChoice);
      if !validation.policyOk {
        Fail(PolicyChanged);
      }
      if validation.inList {
        CheckGroup(StandardGroup(answer.value.groups, validation.selected));
      }
    }

    /** Picks from the fresh list; leaves everything alone when that is not possible. */
    method ApplyFallback(mode: FallbackMode)
      requires !validation.fallbackApplied && source == NoSource && provider == "" && group == None
      modifies `validation, `source, `provider, `group, `failures
      ensures validation == old(validation).(fallbackApplied := validation.fallbackApplied)
      ensures FellBack(Result(), mode, old(failures))
    {
      if mode == FailMode || reread.None? || !reread.value.consumerChoice {
        return;
      }
      var id := PickEligible(mode, reread.value.groups);
      validation := validation.(fallbackApplied := true);
      if id == "" {
        failures := failures + [FallbackNoCandidate];
        return;
      }
      source, provider := FromFallback, id;
      group := StandardGroup(reread.value.groups, id);
    }

    method ModelAnswerFailure() returns (r: bool)
      ensures r == ModelAnswerFailed(Result())
    {
      if trace.single || validation.valid || |failures| == 0 {
        return false;
      }
      for i := 0 to |failures|
        invariant forall k :: 0 <= k < i ==> IsModelAnswerKind(failures[k])
      {
        if !IsModelAnswerKind(failures[i]) {
          return false;
        }
      }
      return true;
    }
  }

  function StandardOnly(ngs: seq<NodeGroup>): (r: seq<NodeGroup>)
    ensures forall ng :: ng in r <==> ng in ngs && ng.kind == STANDARD
  {
    if ngs == [] then []
    else
      var last := ngs[|ngs| - 1];
      assert ngs == ngs[..|ngs| - 1] + [last];
      StandardOnly(ngs[..|ngs| - 1]) + if last.kind == STANDARD then [last] else []
  }

  /** Whom the model may choose: the standard groups that can still grow. */
  function Candidates(groups: seq<NodeGroup>): seq<NodeGroup> {
    StandardOnly(Growable(groups))
  }

  method EligibleCandidates(groups: seq<NodeGroup>) returns (out: seq<NodeGroup>)
    ensures out == Candidates(groups) && EligibleOnly(out, groups)
  {
    out := [];
    var growable := Growable(groups);
    for i := 0 to |growable|
      invariant out == StandardOnly(growable[..i])
    {
      assert growable[..i + 1][..i] == growable[..i];
      if growable[i].kind == STANDARD {
        out := out + [growable[i]];
      }
    }
    assert growable[..|growable|] == growable;
  }

  method PickEligible(mode: FallbackMode, groups: seq<NodeGroup>) returns (id: string)
    ensures PickedFrom(mode, groups, id)
    ensures id != "" ==> Eligible(groups, id)
  {
    var standard := EligibleCandidates(groups);
    id := Choose(mode, standard);
    if id != "" {
      ghost var ng :| ng in standard && ng.provider == id;
      assert ng in groups && HasRoom(ng) && IsStandardOf(ng, id);
    }
  }

  method Choose(mode: FallbackMode, standard: seq<NodeGroup>) returns (id: string)
    ensures id != "" ==> exists ng :: ng in standard && ng.provider == id
    ensures Picked(mode, standard, id)
  {
    id := "";
    match mode
    case AgentDefault =>
      var ranked := DeterministicFallback(standard);
      if ranked.Some? {
        id := ranked.value[0];
      }
    case CheapestEligible =>
      id := PickLowest(standard, Cost, Carbon);
    case LowestCarbonEligible =>
      id := PickLowest(standard, Carbon, Cost);
    case FailMode =>
  }

  // ---------------------------------------------------------------------------
  // The whole decision
  // ---------------------------------------------------------------------------

  /** All the checks hold exactly when none of them recorded a failure. */
  lemma ValidExactlyWhenNoFailure(ngs: seq<NodeGroup>, reply: Reply, trace: Trace, err: Option<Failure>, v: Validation,
                                  answer: Option<FreshList>)
    requires TraceOk(ngs, reply, trace, err)
    requires v.selected == Selected(trace) && v.inList == Sent(trace.providers, Selected(trace))
    ensures AnswerFailures(trace, err) + BrokerFailures(answer, v) == [] <==>
      && err.None? && (trace.parsed.Some? || trace.single) && v.selected != "" && v.inList
      && answer.Some? && answer.value.consumerChoice
      && GroupNow(answer, v).Some? && HasRoom(GroupNow(answer, v).value) && FieldsPresent(GroupNow(answer, v).value)
  {
    var own, brokers := AnswerFailures(trace, err), BrokerFailures(answer, v);
    assert |own + brokers| == |own| + |brokers|;
  }

  /** A valid answer, taken over as it is. */
  lemma ValidIsSound(f: Final, mode: FallbackMode)
    requires f.validation.valid && !f.validation.fallbackApplied && f.failures == []
    requires f.source == (if f.trace.single then OnlyCandidate else FromModel)
    requires f.provider == Selected(f.trace) && f.provider != "" && Sent(f.trace.providers, f.provider)
    requires f.reread.Some? && f.reread.value.consumerChoice
    requires f.group.Some? && HasRoom(f.group.value) && f.group == StandardGroup(f.reread.value.groups, f.provider)
    ensures Sound(f, mode)
  {
  }

  /** A rejected answer, after the fallback had its turn. */
  lemma FallbackIsSound(f: Final, mode: FallbackMode, before: seq<Failure>)
    requires !f.validation.valid && before != []
    requires f.reread.None? ==> BrokerUnavailable in before
    requires f.reread.Some? && !f.reread.value.consumerChoice ==> PolicyChanged in before
    requires FellBack(f, mode, before)
    ensures Sound(f, mode)
  {
    assert forall g :: g in before ==> g in f.failures;
  }

  /** The answer was checked, and nothing has been chosen yet. */
  ghost predicate Examined(ngs: seq<NodeGroup>, reply: Reply, answer: Option<FreshList>, f: Final) {
    && Traced(ngs, reply, f) && f.reread == answer
    && f.source == NoSource && f.provider == "" && !f.validation.fallbackApplied
    && (f.validation.valid <==> f.failures == [])
    && (f.validation.valid ==>
          && f.validation.selected != "" && Sent(f.trace.providers, f.validation.selected)
          && answer.Some? && answer.value.consumerChoice && f.group.Some? && HasRoom(f.group.value)
          && f.group == StandardGroup(answer.value.groups, f.validation.selected))
    && (answer.None? ==> BrokerUnavailable in f.failures)
    && (answer.Some? && !answer.value.consumerChoice ==> PolicyChanged in f.failures)
  }

  function Unchecked(trace: Trace): Validation {
    Validation(Selected(trace), trace.parsed.Some?, Selected(trace) != "", Sent(trace.providers, Selected(trace)),
               false, false, false, false, false, false)
  }

  predicate Passes(trace: Trace, err: Option<Failure>, w: Validation) {
    err.None? && (w.validJson || trace.single) && w.nonEmpty && w.inList && w.stillListed && w.stillHasRoom &&
    w.fieldsPresent && w.policyOk
  }

  /** Where a decision stands after both checks. */
  function AfterChecks(trace: Trace, err: Option<Failure>, answer: Option<FreshList>): Final {
    var v := Unchecked(trace);
    var w := Checked(v, answer);
    Final(trace, w.(valid := Passes(trace, err, w)), NoSource, "", Usable(GroupNow(answer, v)),
          AnswerFailures(trace, err) + BrokerFailures(answer, v), answer)
  }

  lemma ChecksExamine(ngs: seq<NodeGroup>, reply: Reply, trace: Trace, err: Option<Failure>, answer: Option<FreshList>)
    requires TraceOk(ngs, reply, trace, err)
    ensures Examined(ngs, reply, answer, AfterChecks(trace, err, answer))
  {
    var v, f := Unchecked(trace), AfterChecks(trace, err, answer);
    ValidExactlyWhenNoFailure(ngs, reply, trace, err, v, answer);
    NamedBrokerFailures(answer, v, AnswerFailures(trace, err), f.failures);
    assert f.validation.valid <==> f.failures == [];
  }

  method Examine(ngs: seq<NodeGroup>, reply: Reply, answer: Option<FreshList>) returns (d: Decision)
    ensures fresh(d) && Examined(ngs, reply, answer, d.Result())
  {
    var trace, err := SelectDetailed(ngs, reply);
    ChecksExamine(ngs, reply, trace, err, answer);
    d := CheckTrace(trace, err, answer);
  }

  method CheckTrace(trace: Trace, err: Option<Failure>, answer: Option<FreshList>) returns (d: Decision)
    ensures fresh(d) && d.Result() == AfterChecks(trace, err, answer)
  {
    var v, failures := ValidateAnswer(trace, err);
    d := new Decision(trace, v, failures);
    d.CheckAgainstBroker(answer);
    var w := d.validation;
    var answerOk := w.validJson || trace.single;
    d.validation := w.(valid := err.None? && answerOk && w.nonEmpty && w.inList && w.stillListed && w.stillHasRoom &&
      w.fieldsPresent && w.policyOk);
  }

  lemma StillTraced(ngs: seq<NodeGroup>, reply: Reply, f: Final, f': Final)
    requires Traced(ngs, reply, f) && !f.validation.fallbackApplied && f'.trace == f.trace && f'.reread == f.reread
    requires f'.validation.selected == f.validation.selected && f'.validation.valid == f.validation.valid
    requires f'.failures == f.failures + NoneLeft(f')
    ensures Traced(ngs, reply, f')
  {
    assert NoneLeft(f) == [];
  }

  method Decide(ngs: seq<NodeGroup>, reply: Reply, answer: Option<FreshList>, mode: FallbackMode) returns (d: Decision)
    ensures fresh(d)
    ensures Sound(d.Result(), mode)
    ensures Traced(ngs, reply, d.Result()) && d.reread == answer
  {
    d := Examine(ngs, reply, answer);
    ghost var f := d.Result();
    if d.validation.valid {
      d.source := if d.trace.single then OnlyCandidate else FromModel;
      d.provider := d.validation.selected;
      ValidIsSound(d.Result(), mode);
    } else {
      d.group := None;
      d.ApplyFallback(mode);
      FallbackIsSound(d.Result(), mode, f.failures);
    }
    assert f.failures + [] == f.failures;
    StillTraced(ngs, reply, f, d.Result());
  }

  lemma NamedBrokerFailures(answer: Option<FreshList>, v: Validation, own: seq<Failure>, failures: seq<Failure>)
    requires failures == own + BrokerFailures(answer, v)
    ensures answer.None? ==> BrokerUnavailable in failures
    ensures answer.Some? && !answer.value.consumerChoice ==> PolicyChanged in failures
  {
    assert answer.None? ==> BrokerUnavailable in BrokerFailures(answer, v);
    assert answer.Some? && !answer.value.consumerChoice ==> PolicyChanged in BrokerFailures(answer, v);
  }

  // ---------------------------------------------------------------------------
  // What was asked
  // ---------------------------------------------------------------------------

  /** What a fallback that found nobody adds to the failures. */
  function NoneLeft(f: Final): seq<Failure> {
    Only(f.validation.fallbackApplied && f.provider == "", FallbackNoCandidate)
  }

  /** The decision's record is that of the question: the growable providers were sent, the
      model was skipped exactly when there was one, and the failures are the answer's, then
      the fresh list's, then the fallback's. */
  ghost predicate Traced(ngs: seq<NodeGroup>, reply: Reply, f: Final) {
    var err := SelectError(f.trace.providers, reply);
    && TraceOk(ngs, reply, f.trace, err)
    && f.failures == AnswerFailures(f.trace, err) + BrokerFailures(f.reread, Unchecked(f.trace)) + NoneLeft(f)
    && (f.validation.valid <==> f.failures == NoneLeft(f))
    && f.validation.selected == Selected(f.trace)
  }

  /** What the reply puts first: the head of its list, or its single id. */
  function FirstNamed(a: Answer): string {
    if a.list != [] then a.list[0] else a.provider
  }

  /** The reply is bad in itself: the call timed out or was reported as one of the three bad
      answers, or it is not JSON, or what it puts first is empty or was not sent. */
  predicate BadReply(reply: Reply, sent: seq<NodeGroup>) {
    match reply
    case CallFailed(kind) => kind in {Timeout, InvalidJson, EmptyProviderId, UnknownProviderId}
    case NotJson => true
    case Json(a) => FirstNamed(a) == "" || !Sent(sent, FirstNamed(a))
  }

  /** Nothing but the reply stands in the way: the fresh list could be read under the same
      policy, a fallback, where one was tried, found somebody, and no provider without an id
      was sent for an empty answer to match. */
  predicate NothingElse(reply: Reply, sent: seq<NodeGroup>, f: Final) {
    && f.reread.Some? && f.reread.value.consumerChoice
    && !(f.validation.fallbackApplied && f.provider == "")
    && !Sent(sent, if reply.Json? then FirstNamed(reply.answer) else "")
  }

  lemma {:induction false} BrokerKinds(answer: Option<FreshList>, v: Validation)
    ensures forall x :: x in BrokerFailures(answer, v) ==>
      x in {BrokerUnavailable, PolicyChanged, ProviderNotListed, ProviderNoCapacity, MissingFields}
    ensures BrokerFailures(answer, v) == [] <==>
      answer.Some? && answer.value.consumerChoice &&
      (v.inList ==> var g := StandardGroup(answer.value.groups, v.selected);
                    g.Some? && g.value.maxSize > g.value.reserved && FieldsPresent(g.value))
  {
    var group := GroupNow(answer, v);
    assert |Only(true, PolicyChanged)| == 1;
  }

  /** What the model failed by: one failure, named after what was wrong with its answer. */
  lemma OwnFailure(ngs: seq<NodeGroup>, reply: Reply, trace: Trace)
    requires TraceOk(ngs, reply, trace, SelectError(trace.providers, reply)) && |trace.providers| >= 2
    ensures var own := AnswerFailures(trace, SelectError(trace.providers, reply));
      && |own| <= 1
      && (own != [] && own[0] in {Timeout, InvalidJson, EmptyProviderId, UnknownProviderId} <==>
          BadReply(reply, trace.providers))
      && (reply.CallFailed? ==> own == [reply.kind]) && (reply.NotJson? ==> own == [InvalidJson])
      && (reply.Json? && reply.answer.list == [] && reply.answer.provider == "" ==> own == [EmptyProviderId])
      && (reply.Json? && FirstNamed(reply.answer) != "" && !Sent(trace.providers, FirstNamed(reply.answer)) ==>
            own == [UnknownProviderId])
    ensures Selected(trace) == if reply.Json? then FirstNamed(reply.answer) else ""
  {
    if reply.Json? && reply.answer.list != [] {
      assert reply.answer.list[0] in reply.answer.list;
    }
  }

  /** A failure is put on the model exactly when its reply was bad in itself and nothing
      else went wrong. In particular a provider that left the list, filled up or changed
      since it was offered is never the model's failure. */
  lemma BlamedExactlyWhen(ngs: seq<NodeGroup>, reply: Reply, f: Final, mode: FallbackMode)
    requires Sound(f, mode) && Traced(ngs, reply, f) && |Growable(ngs)| >= 2
    ensures ModelAnswerFailed(f) <==> BadReply(reply, Growable(ngs)) && NothingElse(reply, Growable(ngs), f)
  {
    var own := AnswerFailures(f.trace, SelectError(f.trace.providers, reply));
    var brokers, none := BrokerFailures(f.reread, Unchecked(f.trace)), NoneLeft(f);
    FailedByKinds(f, mode);
    OwnFailure(ngs, reply, f.trace);
    OnlyOwnKinds(own, brokers, none, f.reread, Unchecked(f.trace));
    if BadReply(reply, Growable(ngs)) {
      ListIsFine(f.reread, f.trace);
    }
  }

  /** The fresh list shows a group of the provider that can be reserved under the policy. */
  predicate ReservableNow(answer: Option<FreshList>, provider: string) {
    && answer.Some? && answer.value.consumerChoice
    && var g := StandardGroup(answer.value.groups, provider);
       g.Some? && g.value.maxSize > g.value.reserved && g.value.id != "" && g.value.provider != ""
  }

  /** The reply puts first a provider that was sent and that can still be reserved. */
  predicate Acceptable(reply: Reply, sent: seq<NodeGroup>, answer: Option<FreshList>) {
    reply.Json? && Sent(sent, FirstNamed(reply.answer)) && ReservableNow(answer, FirstNamed(reply.answer))
  }

  /** The model's choice is accepted exactly when it is acceptable, and then it is the final
      one. */
  lemma AcceptedExactlyWhen(ngs: seq<NodeGroup>, reply: Reply, f: Final, mode: FallbackMode)
    requires Sound(f, mode) && Traced(ngs, reply, f) && |Growable(ngs)| >= 2
    ensures f.validation.valid <==> Acceptable(reply, Growable(ngs), f.reread)
    ensures f.validation.valid ==> f.source == FromModel && f.provider == FirstNamed(reply.answer)
  {
    OwnFailure(ngs, reply, f.trace);
    NothingRecorded(ngs, reply, f);
    ListAccepts(f.reread, f.trace);
  }

  lemma NothingRecorded(ngs: seq<NodeGroup>, reply: Reply, f: Final)
    requires Traced(ngs, reply, f)
    ensures f.validation.valid <==>
      AnswerFailures(f.trace, SelectError(f.trace.providers, reply)) == [] &&
      BrokerFailures(f.reread, Unchecked(f.trace)) == []
  {
  }

  lemma ListAccepts(answer: Option<FreshList>, trace: Trace)
    ensures BrokerFailures(answer, Unchecked(trace)) == [] && Sent(trace.providers, Selected(trace)) <==>
      Sent(trace.providers, Selected(trace)) && ReservableNow(answer, Selected(trace))
  {
    BrokerKinds(answer, Unchecked(trace));
  }

  lemma FailedByKinds(f: Final, mode: FallbackMode)
    requires Sound(f, mode) && AICalled(f)
    ensures ModelAnswerFailed(f) <==> f.failures != [] && AllModelKinds(f.failures)
  {
  }

  /** All failures are of the model's kinds exactly when there is none but its own. */
  lemma OnlyOwnKinds(own: seq<Failure>, brokers: seq<Failure>, none: seq<Failure>,
                     answer: Option<FreshList>, v: Validation)
    requires |own| <= 1 && brokers == BrokerFailures(answer, v) && (none == [] || none == [FallbackNoCandidate])
    ensures own + brokers + none != [] && AllModelKinds(own + brokers + none) <==>
      own != [] && own[0] in {Timeout, InvalidJson, EmptyProviderId, UnknownProviderId} && brokers == [] && none == []
  {
    KindsSplit(own, brokers, none);
    BrokerKinds(answer, v);
    if brokers != [] {
      assert brokers[0] in brokers && !IsModelAnswerKind(brokers[0]);
    }
    if none != [] {
      assert !IsModelAnswerKind(none[0]);
    }
  }

  /** An id that is empty or was not sent is looked for in the fresh list only when a
      provider without an id was sent, and then what is found cannot be reserved. */
  lemma ListIsFine(answer: Option<FreshList>, trace: Trace)
    requires Selected(trace) == "" || !Sent(trace.providers, Selected(trace))
    ensures BrokerFailures(answer, Unchecked(trace)) == [] <==>
      answer.Some? && answer.value.consumerChoice && !Sent(trace.providers, Selected(trace))
  {
    BrokerKinds(answer, Unchecked(trace));
    if answer.Some? {
      StandardNamesProvider(answer.value.groups);
    }
  }

  lemma KindsSplit(a: seq<Failure>, b: seq<Failure>, c: seq<Failure>)
    ensures AllModelKinds(a + b + c) <==> AllModelKinds(a) && AllModelKinds(b) && AllModelKinds(c)
  {
    var all := a + b + c;
    assert forall i :: 0 <= i < |a| ==> all[i] == a[i];
    assert forall i :: 0 <= i < |b| ==> all[|a| + i] == b[i];
    assert forall i :: 0 <= i < |c| ==> all[|a| + |b| + i] == c[i];
  }

  /** A provider without an id lacks a field needed to reserve it. */
  lemma StandardNamesProvider(groups: seq<NodeGroup>)
    ensures var g := StandardGroup(groups, ""); g.Some? ==> !FieldsPresent(g.value)
  {
  }

  /** The reply decided: its error or what it ranked first is what was judged. */
  predicate Consulted(f: Final, reply: Reply) {
    match reply
    case CallFailed(kind) => !f.validation.valid && kind in f.failures
    case NotJson => !f.validation.valid && InvalidJson in f.failures
    case Json(a) => f.trace.parsed == Some(a) && f.validation.selected == FirstNamed(a)
  }

  /** The flag alone does not say that the model was asked: it is also set when no provider
      could be sent. But then the failure is not the model's, so an answer that counts,
      valid or failed by the model, means that two providers or more were sent and that the
      reply was judged. */
  lemma AnswerIsConsulted(ngs: seq<NodeGroup>, reply: Reply, f: Final, mode: FallbackMode)
    requires Sound(f, mode) && Traced(ngs, reply, f) && AICalled(f)
    requires f.validation.valid || ModelAnswerFailed(f)
    ensures |f.trace.providers| >= 2 && Consulted(f, reply)
  {
    var err := SelectError(f.trace.providers, reply);
    var named := AnswerFailures(f.trace, err);
    if err.Some? {
      assert named[0] in f.failures && named[0] == f.failures[0];
    }
  }

  /** With nobody to send, the flag is set and the failure says so. */
  lemma NobodyToAsk(ngs: seq<NodeGroup>, reply: Reply, f: Final)
    requires Traced(ngs, reply, f) && Growable(ngs) == []
    ensures AICalled(f) && NoCapacity in f.failures && !ModelAnswerFailed(f)
  {
    assert AnswerFailures(f.trace, Some(NoCapacity)) == [NoCapacity];
    assert f.failures[0] == NoCapacity;
  }

  // ---------------------------------------------------------------------------
  // What a sound decision means
  // ---------------------------------------------------------------------------

  /** When only the model failed and a fallback is configured, the fallback has found a
      provider to reserve. */
  lemma ModelFailureIsCovered(f: Final, mode: FallbackMode)
    requires Sound(f, mode) && ModelAnswerFailed(f) && mode != FailMode
    ensures f.validation.fallbackApplied && f.source == FromFallback && f.group.Some?
  {
    assert !IsModelAnswerKind(BrokerUnavailable) && !IsModelAnswerKind(PolicyChanged);
    assert !IsModelAnswerKind(FallbackNoCandidate);
    assert forall g :: g in f.failures ==> IsModelAnswerKind(g);
  }

  /** What a fallback's provider is, in the fresh list's own numbers. */
  ghost predicate ChosenByMode(mode: FallbackMode, groups: seq<NodeGroup>, id: string) {
    exists g :: g in groups && HasRoom(g) && g.kind == STANDARD && g.provider == id &&
      forall h :: h in groups && HasRoom(h) && h.kind == STANDARD ==> BeatenBy(mode, g, h)
  }

  /** `h` gives no reason to prefer it over `g`. */
  predicate BeatenBy(mode: FallbackMode, g: NodeGroup, h: NodeGroup) {
    match mode
    case FailMode => false
    case AgentDefault => NoWorseThan(g, h)
    case CheapestEligible => g.cost.Some? && CostsNoMore(g, h)
    case LowestCarbonEligible => g.carbon.Some? && EmitsNoMore(g, h)
  }

  /** The fallback takes the cheapest, the greenest or the agent's best of the standard
      groups of the fresh list that can grow. */
  lemma FallbackIsByMode(f: Final, mode: FallbackMode)
    requires Sound(f, mode) && f.source == FromFallback
    ensures mode != FailMode && ChosenByMode(mode, f.reread.value.groups, f.provider)
  {
    var groups := f.reread.value.groups;
    var standard :| EligibleOnly(standard, groups) && Picked(mode, standard, f.provider);
    match mode {
      case FailMode =>
      case AgentDefault =>
        var g :| IsBest(standard, g) && f.provider == g.provider;
        BestMeans(standard, g);
        assert forall h :: h in groups && HasRoom(h) && h.kind == STANDARD ==> h in standard;
      case CheapestEligible =>
        PicksMean(standard, f.provider);
        var g: NodeGroup :| g in standard && g.cost.Some? && Cheapest(standard, g) && f.provider == g.provider;
        assert forall h :: h in groups && HasRoom(h) && h.kind == STANDARD ==> h in standard;
      case LowestCarbonEligible =>
        PicksMean(standard, f.provider);
        var g: NodeGroup :| g in standard && g.carbon.Some? && Greenest(standard, g) && f.provider == g.provider;
        assert forall h :: h in groups && HasRoom(h) && h.kind == STANDARD ==> h in standard;
    }
  }

  lemma FirstInFront(ng: NodeGroup, groups: seq<NodeGroup>) returns (perm: seq<NodeGroup>)
    requires ng in groups
    ensures multiset(perm) == multiset(groups) && perm != [] && perm[0] == ng
  {
    var i :| 0 <= i < |groups| && groups[i] == ng;
    perm := [ng] + (groups[..i] + groups[i + 1..]);
    assert groups == groups[..i] + [ng] + groups[i + 1..];
    assert multiset(perm) == multiset(groups);
  }

  ghost predicate RoomInOrder(groups: seq<NodeGroup>, provider: string) {
    StandardGroup(groups, provider).Some? && HasRoom(StandardGroup(groups, provider).value)
  }

  /** The group reserved for a fallback's provider is the first one listed. It can grow in
      every order of the list exactly when all standard groups of the provider can. */
  lemma FallbackHasRoomExactlyWhen(groups: seq<NodeGroup>, provider: string)
    requires Eligible(groups, provider)
    ensures (forall perm :: multiset(perm) == multiset(groups) ==> RoomInOrder(perm, provider)) <==>
      forall ng :: ng in groups && IsStandardOf(ng, provider) ==> HasRoom(ng)
  {
    if forall ng :: ng in groups && IsStandardOf(ng, provider) ==> HasRoom(ng) {
      forall perm | multiset(perm) == multiset(groups)
        ensures RoomInOrder(perm, provider)
      {
        SameMembers(perm, groups);
      }
    } else {
      var ng :| ng in groups && IsStandardOf(ng, provider) && !HasRoom(ng);
      var perm := FirstInFront(ng, groups);
      assert !RoomInOrder(perm, provider);
    }
  }
}
