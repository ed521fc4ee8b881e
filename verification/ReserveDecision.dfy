/**
 What one attempt of a consumer's iteration decides to do, in both comparative suites.
 */
module ReserveDecision {
  import opened Views
  import opened Switching

  /** How an iteration's selection row ends. */
  datatype Label = Success | KeepNoAlternative | NoWinner | NoCandidates | ProbeError | ListError | ReserveError

  /** The Broker's answer to a list request; `shortlist` marks a latency shortlist. */
  datatype Listing = Listing(groups: seq<NodeGroup>, shortlist: bool)

  /** The consumer's own probe: the fastest provider and what was measured. */
  datatype Probe = Probe(chosen: string, rtts: map<string, real>)

  /** `Latency` knows the providers' probe endpoints. */
  datatype Suite = Eco | Latency(endpoints: map<string, string>)

  /** `seen` is the provider the attempt aimed for, empty when it aimed for none. */
  datatype Decision =
    | Stop(outcome: Label)
    | Keep(outcome: Label, seen: string)
    | Move(provider: string, group: string)

  /** No room anywhere: a consumer that holds something stays, another gives up. */
  function NowhereToGo(held: Option<string>, otherwise: Label): Decision {
    if held.Some? then Keep(KeepNoAlternative, "") else Stop(otherwise)
  }

  function EcoDecide(held: Option<string>, list: Listing): Decision {
    var winner := FindWinner(list.groups);
    if winner.None? then NowhereToGo(held, NoWinner)
    else if Switches(held, winner.value.provider, list.groups) then Move(winner.value.provider, winner.value.id)
    else Keep(Success, winner.value.provider)
  }

  function WithEndpoint(ngs: seq<NodeGroup>, endpoints: map<string, string>): seq<string> {
    if ngs == [] then []
    else (if ngs[0].provider in endpoints then [ngs[0].provider] else []) + WithEndpoint(ngs[1..], endpoints)
  }

  /** The shortlist, and the provider already held, which the Broker masked. */
  function Candidates(held: Option<string>, list: Listing, endpoints: map<string, string>): seq<string> {
    var free := WithEndpoint(Growable(list.groups), endpoints);
    if held.Some? && held.value in endpoints && held.value !in free then free + [held.value] else free
  }

  function GroupOf(ngs: seq<NodeGroup>, provider: string): string {
    var ng := StandardGroup(ngs, provider);
    if ng.Some? then ng.value.id else ""
  }

  /** Under a shortlist the incumbent must have been measured to lose. */
  function ProbeDecide(held: Option<string>, list: Listing, endpoints: map<string, string>,
                       probe: Option<Probe>): Decision
  {
    var free := WithEndpoint(Growable(list.groups), endpoints);
    if Candidates(held, list, endpoints) == [] then NowhereToGo(held, NoCandidates)
    else if probe.None? then Stop(ProbeError)
    else if probe.value.chosen == "" then NowhereToGo(held, NoWinner)
    else
      var chosen := probe.value.chosen;
      if held.None? || (chosen != held.value && held.value in probe.value.rtts)
      then Move(chosen, GroupOf(list.groups, chosen))
      else Keep(if free == [] then KeepNoAlternative else Success, chosen)
  }

  function WinnerDecide(held: Option<string>, list: Listing): Decision {
    var winner := FindWinner(list.groups);
    if winner.None? then NowhereToGo(held, NoWinner)
    else
      var chosen := winner.value.provider;
      if chosen == "" then NowhereToGo(held, NoWinner)
      else if held == Some(chosen) then Keep(Success, chosen)
      else
        // An empty group id is looked up again before the request is built.
        Move(chosen, if winner.value.id != "" then winner.value.id else GroupOf(list.groups, chosen))
  }

  function Decide(suite: Suite, held: Option<string>, list: Listing, probe: Option<Probe>): (d: Decision)
    ensures d.Keep? ==> held.Some?
    ensures d.Move? && held.Some? ==> d.provider != held.value
    ensures d.Move? && suite.Latency? ==> d.provider != ""
  {
    match suite
    case Eco => EcoDecide(held, list)
    case Latency(endpoints) =>
      if list.shortlist then ProbeDecide(held, list, endpoints, probe) else WinnerDecide(held, list)
  }

  // ---------------------------------------------------------------------------
  // When a consumer moves, stays or gives up
  // ---------------------------------------------------------------------------

  /** A provider that can grow, or the one held, can be probed. */
  predicate FreeEndpoint(list: Listing, endpoints: map<string, string>) {
    exists ng :: ng in list.groups && HasRoom(ng) && ng.provider in endpoints
  }

  lemma {:induction false} WithEndpointHolds(ngs: seq<NodeGroup>, endpoints: map<string, string>)
    ensures forall p :: p in WithEndpoint(ngs, endpoints) <==>
                        p in endpoints && exists ng :: ng in ngs && ng.provider == p
  {
    if ngs != [] {
      WithEndpointHolds(ngs[1..], endpoints);
      assert ngs == [ngs[0]] + ngs[1..];
    }
  }

  lemma FreeIsSomeEndpoint(list: Listing, endpoints: map<string, string>)
    ensures WithEndpoint(Growable(list.groups), endpoints) != [] <==> FreeEndpoint(list, endpoints)
  {
    var free := WithEndpoint(Growable(list.groups), endpoints);
    WithEndpointHolds(Growable(list.groups), endpoints);
    if free != [] {
      assert free[0] in free;
    }
    if FreeEndpoint(list, endpoints) {
      var ng :| ng in list.groups && HasRoom(ng) && ng.provider in endpoints;
      assert ng.provider in free;
    }
  }

  /** Some group of the list carries the last measurement of each, and the challenger's is
      not the lower one. */
  ghost predicate NotBeaten(ngs: seq<NodeGroup>, held: string, winner: string) {
    exists i, j :: LastMeasured(ngs, held, i) && LastMeasured(ngs, winner, j) &&
                   ngs[j].metric.value >= ngs[i].metric.value
  }

  /** When an attempt aims for another reservation, and for which. In the eco suite: the
      only group that can grow, unless it is held or does not beat what is held. Under a
      shortlist: the provider the probe chose, unless it is held or what is held was not
      measured. Otherwise: the only group that can grow, unless its provider is held. */
  ghost predicate MoveIsDue(suite: Suite, held: Option<string>, list: Listing, probe: Option<Probe>,
                            provider: string, group: string)
  {
    var only := FindWinner(list.groups);
    if suite.Eco? then
      && only.Some? && provider == only.value.provider && group == only.value.id
      && (held.Some? ==> held.value != provider && !NotBeaten(list.groups, held.value, provider))
    else if list.shortlist then
      && (FreeEndpoint(list, suite.endpoints) || (held.Some? && held.value in suite.endpoints))
      && probe.Some? && provider == probe.value.chosen != "" && IsGroupOf(list.groups, provider, group)
      && (held.Some? ==> held.value != provider && held.value in probe.value.rtts)
    else
      && only.Some? && provider == only.value.provider != "" && held != Some(provider)
      && (if only.value.id != "" then group == only.value.id else IsGroupOf(list.groups, provider, group))
  }

  /** `group` is the id of the first standard group the provider lists, if it lists one. */
  predicate IsGroupOf(ngs: seq<NodeGroup>, provider: string, group: string) {
    var first := StandardGroup(ngs, provider);
    if first.Some? then group == first.value.id else group == ""
  }

  /** The probe that a shortlist asks for was made and failed. */
  predicate ProbeFailed(suite: Suite, held: Option<string>, list: Listing, probe: Option<Probe>) {
    && suite.Latency? && list.shortlist && probe.None?
    && (FreeEndpoint(list, suite.endpoints) || (held.Some? && held.value in suite.endpoints))
  }

  ghost predicate DecidedRight(suite: Suite, held: Option<string>, list: Listing, probe: Option<Probe>, d: Decision) {
    && (forall p, g :: d == Move(p, g) <==> MoveIsDue(suite, held, list, probe, p, g))
    && (d == Stop(ProbeError) <==> ProbeFailed(suite, held, list, probe))
    && (d.Keep? <==> held.Some? && !d.Move? && !ProbeFailed(suite, held, list, probe))
  }

  lemma EcoDecidesRight(held: Option<string>, list: Listing, probe: Option<Probe>)
    ensures DecidedRight(Eco, held, list, probe, EcoDecide(held, list))
  {
    if held.Some? && FindWinner(list.groups).Some? {
      StaysExactlyWhen(held.value, FindWinner(list.groups).value.provider, list.groups);
    }
  }

  lemma ProbeDecidesRight(held: Option<string>, list: Listing, endpoints: map<string, string>, probe: Option<Probe>)
    requires list.shortlist
    ensures DecidedRight(Latency(endpoints), held, list, probe, ProbeDecide(held, list, endpoints, probe))
  {
    FreeIsSomeEndpoint(list, endpoints);
  }

  lemma WinnerDecidesRight(held: Option<string>, list: Listing, endpoints: map<string, string>, probe: Option<Probe>)
    requires !list.shortlist
    ensures DecidedRight(Latency(endpoints), held, list, probe, WinnerDecide(held, list))
  {
  }

  /** An attempt moves exactly when a move is due. Otherwise a consumer that holds something
      keeps it and one that holds nothing gives up, but for a failed probe, which ends the
      attempt either way. */
  lemma DecidesExactlyWhen(suite: Suite, held: Option<string>, list: Listing, probe: Option<Probe>)
    ensures DecidedRight(suite, held, list, probe, Decide(suite, held, list, probe))
  {
    match suite
    case Eco => EcoDecidesRight(held, list, probe);
    case Latency(endpoints) =>
      if list.shortlist {
        ProbeDecidesRight(held, list, endpoints, probe);
      } else {
        WinnerDecidesRight(held, list, endpoints, probe);
      }
  }

  lemma DecisionLabels(suite: Suite, held: Option<string>, list: Listing, probe: Option<Probe>)
    ensures var d := Decide(suite, held, list, probe);
      && (d.Stop? ==> d.outcome in {NoWinner, NoCandidates, ProbeError})
      && (d.Keep? ==> d.outcome in {Success, KeepNoAlternative})
  {
  }
}
