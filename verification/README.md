# Verified model of the federation autoscaler's experiment harness and gRPC bridge

The federation autoscaler lets Kubernetes consumer clusters borrow chunks of capacity from
provider clusters through a Broker. This project models, in Dafny, the code that drives the
Broker and the decision code around it, and proves what that code is meant to guarantee:

- **the reserve phase** of the two comparative suites: consumers that run concurrently,
  each reading a possibly stale list, keeping, creating or switching a reservation, with a
  Broker that may refuse, lose replies, fail or stay silent; and the capacity check that
  decides whether the second phase may start (`ReserveProtocol`, `ReserveInvariant`,
  `ReserveRuns`, `ReserveDecision`, `ReserveIteration`, `ReservePhase`, `ReservationIds`,
  `Switching`, `Capacity`, `PhaseTransition`);
- **ConsumerChoice**: a model's untrusted answer, its validation, the fallback, the tracked
  reservation, the counters, the verdict and the whole run, together with the ranks, scores
  and criteria a choice is judged by (`ChoiceDecision`, `Fallback`, `Tracking`, `Verdict`,
  `SuiteRun`, `Repeatability`, `Ranking`, `Criteria`, `Scores`);
- **the Cluster Autoscaler bridge**: scale-up, scale-down, the cached node-group list and
  the autoscaler's loops over them (`ScaleBridge`, `NodeGroupCache`, `Autoscaler`);
- **the replay** of simulated delays and carbon intensities (`Replay`, `CarbonReplay`);
- **the charts' achievable ranges** (`Bands`, `LatencyRange`), **the generated shell
  script** (`ShellScript`) and **the mock geolocation lookup** (`GeoLookup`).

`Views`, `Sorting`, `Seqs`, `Sets` and `Updates` hold what several modules share. `dafny verify dfyconfig.toml`
checks the whole project.

## How to read the model

*The reserve phase* is a step system: a step is one access to the mutex-guarded maps or one
Broker call taking effect, so a run is any interleaving with any pattern of answers.
`ReservePhase.PhaseState` is the imperative code over those maps. Between any two of its
steps the other consumers may take any number of steps (`Interfere`), and a ghost position
in the step system ties each statement to an event, so what is proved of all runs holds of
the code. The Broker is an environment: it may fail a pending reservation, but it does not
end a Peered one on its own.

*The autoscaler* is modelled as any sequence of waits, releases, reads and scale requests on
the bridge's own `Server` and `Ledger`. A read takes time and sees the list of some moment
within it, releases may fall into it, and POSTs may fail, lose their reply, or arrive only
after they were given up.

*Environments are parameters.* Broker answers, clocks, cancelled contexts, model replies and
generators are functions or values passed in and quantified over. Library sorts are stood
for by one stable sort; a stable sort of a sequence is unique.

*Numbers.* Floating-point values are reals, counters are unbounded integers.

## Results where the code does less than its documentation says

- The check between the phases is documented as a check of the federation. The list it
  reads counts the chunks of the identity that asks, and it asks as the first consumer.
  `PhaseTransition.CheckSeesOwnLeaks` proves that it passes exactly when that consumer
  leaked nothing and no baseline group is missing; `PhaseTransition.OthersLeaksAreInvisible`
  gives a run in which another consumer's chunk stays held and every count shown is
  unchanged.
- `Capacity.GivingBackHidesLeak`: if something that was held before the phase is given back
  during it, the totals can match with a chunk leaked; `Capacity.MatchMeansNoLeak` is the
  exact meaning when the phase only added.
- `ReservationIds.NegativeNumbersCollide`: ids are injective for non-negative numbers only.
  The harness numbers from 0 (from 1 in ConsumerChoice), so no run reaches this.
- `Switching.ThrashesExactlyWhen`: a consumer can switch for ever exactly when there are two
  providers and one of them is unmeasured; with a metric everywhere `Switching.NoThrashing`
  bounds the switches.
- `ReserveIteration.EmptyProviderIsMislabelled`: a reservation given up under an empty
  provider id leaves a row labelled `create`. `IterationGuarantees` has the exact condition.
  The shipped Broker answers an empty provider id with 400
  (internal/broker/api/reservation.go:211), so with it nothing is ever held under one.
- `Fallback.EmptyPickExactlyWhen`: the lowest pick is empty also when the lowest group
  belongs to a provider without an id. The shipped Broker lists no such group.
- `ChoiceDecision.NobodyToAsk`: the flag that says the model was called is also set when there
  was no provider to send. `ChoiceDecision.AnswerIsConsulted` proves that an answer that
  counts was really judged, and `SuiteRun.AssertUnmasked` that the suite never gets there.
- `ChoiceDecision.FallbackHasRoomExactlyWhen`: the group reserved for a fallback's provider
  is the first one listed, which need not be the one that made the provider eligible. The
  shipped Broker lists one standard group per provider, so there the two are the same.
- `Criteria.SecondListingIsHidden`: a provider listed twice is judged by its first row, so no
  choice may pass although a candidate advertises carbon.
  `Criteria.SomeEcoChoicePassesExactlyWhen` is the exact condition for every list; with one
  standard group per provider it is the documented one (`Criteria.SomeEcoChoicePasses`).
- `LatencyRange.MembershipSufficesExactlyWhen`: the latency chart asks that every value the
  curve uses is in the pool; that alone keeps the curve inside exactly when the ends of the
  pool are flat. `LatencyRange.CurveStaysInRange` needs each value as often as it is used.
- `ShellScript.ExactlyTheOriginal`: a command without any word leaves an empty line and
  disappears (`ShellScript.EmptyVectorVanishes`). The harness never builds such a command.
- The cache is documented to bound a burst of reads to one round trip.
  `NodeGroupCache.FailedReadsAskAgain` is a burst that makes two, and
  `NodeGroupCache.BurstCostsOneTripExactlyWhen` says when it is one: the first read succeeds.
- Reporting reserved chunks is documented to stop the autoscaler from asking again for what
  it has. `Autoscaler.Loops.Run` proves it when each loop's first read starts at least the
  cache's lifetime after the last successful read before it *ended* and the group is listed,
  but for POSTs that were given up and are still to arrive when a list is read: by no more
  than the number of those can the reserved chunks exceed the demand.
  `Autoscaler.LateArrival` is a run that does exceed it by one.
  `Autoscaler.TwoLoops` places the demand twice when the loops are closer or the group drops
  out of the list; since a read takes time, starting them a lifetime apart is not enough.
  `Autoscaler.OvershootsExactlyWhen` is the exact condition for one loop.
- `CarbonReplay.GreenShare`: with a single region no region is green, although the code
  asks for at least one.

## Model

| member | source | states |
|---|---|---|
| `ReserveInvariant.StepKeeps` | federation-tests/comparative-eco/main.go:502-567 | every step of every consumer and every Broker answer keeps the phase invariant: active ids are held at the Broker for the recorded request outside their own release window, and every id the phase created is active, in flight, released or orphaned, and only one of these |
| `ReserveInvariant.ReachableKeeps` | federation-tests/comparative-eco/main.go:576-630 | the invariant holds in every state of every interleaving of any number of consumers |
| `ReserveInvariant.AtMostOneLive` | federation-tests/comparative-eco/main.go:973-1076 | a consumer never has two reservations active or in flight |
| `ReserveRuns.OrphanedExactlyWhenLost` | federation-tests/comparative-eco/main.go:588-600 | over every run, an id is orphaned exactly when some step was a failed release of it, mid-phase or in the final cleanup, or a reservation of it that failed after it was created |
| `ReserveRuns.LeftBehindOnlyIfLost` | federation-tests/comparative-eco/main.go:588-600 | whatever the Broker does not show as released after the cleanup was lost by such a step |
| `ReserveRuns.CarefulRunReleasesAll` | federation-tests/comparative-eco/main.go:588-600 | a run without such a step ends with everything the phase created released at the Broker |
| `ReserveInvariant.ClassesAreFinal` | federation-tests/comparative-eco/main.go:543-567 | no reservation leaves the ledger or changes its request, and nothing comes back from released or orphaned |
| `ReserveRuns.NumbersNeverRepeat` | federation-tests/comparative-eco/main.go:561-567 | in every run a consumer is handed consecutive numbers, none of them twice, whatever became of the reservations |
| `ReserveRuns.NoIdIsPostedTwice` | federation-tests/comparative-eco/main.go:985-997 | in every run of a phase no two first POSTs carry the same id, refused and lost ones included |
| `ReserveRuns.PhasesPostOnce` | federation-tests/comparative-eco/main.go:200-235 | nor do any two across phase A and a phase B on the ledger it left, so no id is ever posted with two requests |
| `ReserveInvariant.PhaseEnd` | federation-tests/comparative-eco/main.go:588-600 | after the cleanup everything the phase created is released or orphaned |
| `ReservePhase.OthersAreHarmless` | federation-tests/comparative-eco/main.go:543-567 | whatever the other consumers do meanwhile, a busy consumer's own entry, number and reservation stay as they were |
| `ReservePhase.PhaseState.TakeNumber` | federation-tests/comparative-eco/main.go:561-567 | the next number is taken once, and the id is made from it, under any interference |
| `ReservePhase.PhaseState.ReleaseAndWait` | federation-tests/testlib/reserve.go:47-57 | each way a release can end moves the protocol by the matching events and keeps the invariant |
| `ReservePhase.PhaseState.ReserveAndWait` | federation-tests/testlib/reserve.go:42-44 | success leaves the id peered and ready to record; every failure leaves nothing recorded |
| `ReservePhase.PhaseState.RunIteration` | federation-tests/comparative-eco/main.go:804-1119 | the retry loop does what the iteration specification says, for both suites, with the rows appended and the maps left in the state the protocol is in; `TriesAgainExactlyWhen`, `IterationNames` and `IterationGuarantees` say what that is |
| `ReservePhase.PhaseState.CleanUp` | federation-tests/comparative-eco/main.go:588-600 | every active reservation is released once; exactly the unconfirmed ones are added to the orphans |
| `ReserveIteration.IterationGuarantees` | federation-tests/comparative-latency/main.go:1156-1521 | an iteration ends within eleven attempts, releases at most what it came with, takes at most one number per attempt, and leaves one selection row and at most one reservation row that tell of the same reservation, none when cancelled in the back-off; the row says `switch`, with the provider given up, exactly when a reservation on a named provider was given up |
| `ReserveIteration.TriesAgainExactlyWhen` | federation-tests/comparative-eco/main.go:1006-1020 | over every iteration: every attempt before the last was answered 409, with a transient error or with a 429 slept off, and a failed reservation is reported only after eleven attempts or for any other error; one number is taken for each reservation asked for |
| `ReserveIteration.IterationNames` | federation-tests/comparative-latency/main.go:1376-1521 | the rows name the id made from the last number, the provider and the group the last attempt decided on, and what is then held is just that, or nothing when it failed |
| `ReserveIteration.InitialIsFirst` | federation-tests/comparative-latency/main.go:1376-1521 | the rows name the provider the first attempt aimed for, if it has an id, however many followed |
| `ReserveIteration.EmptyProviderIsMislabelled` | federation-tests/comparative-eco/main.go:955-1000 | the label is wrong for a holding under an empty provider id, which a Broker that refuses such requests never creates |
| `ReserveDecision.Decide` | federation-tests/comparative-latency/main.go:1012-1115 | an attempt keeps only what is held, never moves to what is held, and in the latency suite never to an empty provider id |
| `ReserveDecision.DecidesExactlyWhen` | federation-tests/comparative-latency/main.go:1012-1115 | when an attempt moves and where, in all three cases: to the only group that can grow unless it does not beat what is held; to the provider the probe chose unless what is held was not measured; to the only group's provider; otherwise what is held is kept and a consumer without anything gives up, but for a failed probe |
| `ReservationIds.IdsInjective` | federation-tests/testlib/reserve.go:37-39 | ids of one run are injective in phase, consumer and non-negative number, whatever hyphens and digits the consumer ids contain |
| `ReservationIds.DigitsReadBack` | federation-tests/testlib/reserve.go:37-39 | the digits of a number stand for that number |
| `ReservationIds.NegativeNumbersCollide` | federation-tests/testlib/reserve.go:37-39 | with negative numbers two consumers can share an id |
| `ReservationIds.ChoiceIdsInjective` | federation-tests/consumerchoice/main.go:252-254 | the ids of all repetitions of all scenarios differ |
| `Switching.ShouldSwitch` | federation-tests/testlib/reserve.go:63-86 | the loop decides by the last-listed metrics of the held provider and of the winner |
| `Switching.StaysExactlyWhen` | federation-tests/testlib/reserve.go:63-86 | a consumer stays exactly when the winner is what it holds, or the last measurements of both are listed and the winner's is not the lower one |
| `Switching.NoThrashing` | federation-tests/testlib/reserve.go:63-86 | on a fixed list with a metric everywhere every permitted switch lowers the metric, no provider is revisited, and there are fewer switches than providers |
| `Switching.ThrashesExactlyWhen` | federation-tests/testlib/reserve.go:63-86 | there are permitted switch paths of every length exactly when there are two providers and one of them has no metric |
| `Capacity.ReadFederationCapacity` | federation-tests/testlib/broker.go:92-115 | the snapshot's total, per-group counts and sorted ids are those of the list |
| `Capacity.Matches` | federation-tests/testlib/broker.go:122-136 | the set-building loops decide equal totals and no missing baseline group |
| `Capacity.MatchMeansNoLeak` | federation-tests/testlib/broker.go:122-136 | when reservations were only added, it matches exactly when no baseline group is missing and every group's count is its baseline count |
| `Capacity.GivingBackHidesLeak` | federation-tests/testlib/broker.go:122-136 | without that assumption a match can hide a leak |
| `Capacity.WaitForFederationCapacity` | federation-tests/testlib/broker.go:193-217 | the wait ends with the first poll that matches, fails, is the last in time or is cancelled, and says which; undisturbed it succeeds exactly when some poll up to the deadline matches |
| `PhaseTransition.HarnessConfigIsWellFormed` | federation-tests/testlib/reserve.go:37-39 | the harness's names meet what the protocol assumes of names |
| `PhaseTransition.SecondPhaseIsWellFormed` | federation-tests/comparative-eco/main.go:200-235 | after any run of phase A no id of phase B is taken |
| `PhaseTransition.CheckSeesOwnLeaks` | internal/broker/api/nodegroups.go:461-502 | after any run, with any answers, the check read as one consumer passes exactly when no baseline group is missing and none of that consumer's new reservations holds a chunk |
| `PhaseTransition.AwaitPhaseEnd` | federation-tests/comparative-eco/main.go:200-210 | when the wait between the phases succeeds, the reader has no leak at the poll it succeeded with; undisturbed it succeeds exactly when some poll in time finds no baseline group missing and no leak of the reader |
| `PhaseTransition.OthersLeaksAreInvisible` | internal/broker/api/nodegroups.go:461-502 | a run leaks another consumer's chunk and changes no count shown to the reader |
| `ChoiceDecision.SelectDetailed` | internal/agent/ollama/client.go:223-300 | which of the growable providers are sent, when the model is skipped, why an answer is rejected, and which of the ids it names are recorded as ranked and as unknown |
| `ChoiceDecision.RankingKeepsOrder` | internal/agent/ollama/client.go:263-276 | repetitions and invented ids leave the order in which the model first named the others |
| `ChoiceDecision.InventedAreAllKept` | internal/agent/ollama/client.go:263-276 | an id that was not sent is recorded as unknown as often as it is listed |
| `ChoiceDecision.ValidateAnswer` | federation-tests/consumerchoice/decision.go:164-208 | the selection is what the model ranked first itself, and exactly one failure is named when it is unusable |
| `ChoiceDecision.Decision.CheckAgainstBroker` | federation-tests/consumerchoice/decision.go:220-252 | each check's outcome and the failures appended, and the final group set only when it can be reserved; which of these failures is whose is `BlamedExactlyWhen` |
| `ChoiceDecision.Decision.ApplyFallback` | federation-tests/consumerchoice/decision.go:256-300 | a fallback names an eligible provider and its group, or one more failure, or leaves everything alone |
| `ChoiceDecision.Decision.ModelAnswerFailure` | federation-tests/consumerchoice/decision.go:112-122 | the loop decides whether every failure is the model's own |
| `ChoiceDecision.ValidExactlyWhenNoFailure` | federation-tests/consumerchoice/decision.go:127-155 | all checks hold exactly when no failure was recorded |
| `ChoiceDecision.Decide` | federation-tests/consumerchoice/decision.go:127-155 | for every reply and every fresh list: a final group exists exactly when a final provider does, it is that provider's standard group in a fresh ConsumerChoice list, a model's choice was sent to it and has room, and a fallback is what its mode picks among the eligible groups; the providers sent, the shortcut for exactly one of them and the judged selection are those of this list and this reply, and the failures are exactly the answer's, then the fresh list's, then the fallback's |
| `ChoiceDecision.AcceptedExactlyWhen` | federation-tests/consumerchoice/decision.go:127-155 | with two providers or more sent, the model's choice is accepted exactly when the reply puts first a provider that was sent and the fresh ConsumerChoice list shows a group of it with room and its fields, and it is then the final choice |
| `ChoiceDecision.BlamedExactlyWhen` | federation-tests/consumerchoice/decision.go:110-122 | a failure is put on the model exactly when the reply was bad in itself (timed out, not JSON, naming nothing or a provider that was not sent) and nothing else went wrong; a provider that left the list, filled up or changed since is never the model's failure |
| `ChoiceDecision.OwnFailure` | federation-tests/consumerchoice/decision.go:164-208 | the one failure an answer leaves is named after what was wrong with it |
| `ChoiceDecision.AnswerIsConsulted` | federation-tests/consumerchoice/decision.go:106-122 | an answer that is valid, or failed by the model's own doing, means that two providers or more were sent and that this reply was judged |
| `ChoiceDecision.NobodyToAsk` | federation-tests/consumerchoice/decision.go:106-122 | with nobody to send the called flag is set all the same, and the failure is not the model's |
| `ChoiceDecision.ModelFailureIsCovered` | federation-tests/consumerchoice/decision.go:256-300 | when only the model failed and a fallback is configured, there is a provider to reserve |
| `ChoiceDecision.FallbackIsByMode` | federation-tests/consumerchoice/decision.go:256-330 | a fallback takes the cheapest, the greenest or the agent's best of the fresh list's standard groups with room, in the list's own numbers |
| `ChoiceDecision.FallbackHasRoomExactlyWhen` | federation-tests/consumerchoice/decision.go:333-341 | the fallback's group has room in every list order exactly when all of that provider's standard groups do |
| `Fallback.PickLowest` | federation-tests/consumerchoice/decision.go:304-330 | the lexicographic minimum of primary metric, secondary metric and id, missing values last; `PicksMean` gives it in numbers |
| `Fallback.PicksMean` | federation-tests/consumerchoice/decision.go:304-330 | by cost the pick is a group that no other undercuts, equally cheap ones have no less carbon, and then no lower id, with a missing value behind every present one; by carbon likewise; there is a pick exactly when some group has the metric |
| `Fallback.OrderIsStrictWeak` | federation-tests/consumerchoice/decision.go:304-330 | the comparison handed to the sort is a strict weak order |
| `Fallback.PickIgnoresOrder` | federation-tests/consumerchoice/decision.go:304-330 | lists with the same groups give the same pick in any order |
| `Fallback.EmptyPickExactlyWhen` | federation-tests/consumerchoice/decision.go:304-330 | when nothing is picked |
| `Fallback.DeterministicFallback` | internal/agent/ollama/client.go:380-440 | ranks exactly the growable groups, ties in their order, and fails exactly when there is none; the first is one that no other beats on cost, then carbon, then free chunks |
| `Fallback.BestMeans` | internal/agent/ollama/client.go:371-440 | being the best is having no more cost than any other, no more carbon at the same cost and no fewer free chunks at the same both |
| `Sorting.SortStable` | internal/agent/ollama/client.go:415-435 | elements that tie stay in the order they had |
| `Tracking.ReserveAndTrack` | federation-tests/consumerchoice/reservation.go:71-141 | how the polling loop ends for every sequence of answers: after which POST and why, what is logged, at most eleven refusals, and which failure is recorded |
| `Tracking.RejectedOnlyAfter` | federation-tests/consumerchoice/reservation.go:71-141 | a reservation is rejected only by a refusal that cannot be retried or by the eleventh, and timed out only when the time is up |
| `Tracking.LogShowsAll` | federation-tests/consumerchoice/reservation.go:113-120 | the transition log is the observed phases with repetitions removed |
| `Tracking.PeeredEndsTheLog` | federation-tests/consumerchoice/reservation.go:122-128 | peered exactly when the log ends with Peered, which occurs nowhere else in it |
| `Tracking.WaitForPhase` | federation-tests/testlib/broker.go:232-261 | the polling loop stops at the first poll that reaches the phase, ends elsewhere, fails or is the last in time, and says which |
| `Tracking.ReleaseAndWait` | federation-tests/testlib/reserve.go:47-57 | a release succeeds exactly when the DELETE is answered with Released or some poll in time is the first decisive one and shows it |
| `Verdict.AwaitBaseline` | federation-tests/consumerchoice/main.go:325-345 | settled only if some poll in time showed the baseline; undisturbed, settled exactly then and leaked otherwise; an interruption is never a leak |
| `Verdict.RunRepetition` | federation-tests/consumerchoice/main.go:260-350 | the outcome repeats the sound decision among this list's candidates, the tracked reservation, the release and the settling, with all their failures; the model's answer counts as valid exactly when it is acceptable, and as failed only when it is bad in itself; and a repetition stops the run exactly when a reservation was tried and capacity did not settle |
| `Verdict.FailuresTellAttempt` | federation-tests/consumerchoice/main.go:300-350 | of an attempt's failures, the release failed exactly when the Broker held the reservation and did not give it back, and, undisturbed, capacity leaked exactly when no list read in time showed the baseline |
| `Verdict.ComputeMetrics` | federation-tests/consumerchoice/metrics.go:103-163 | the counting loop is the fold of one outcome's contributions |
| `Verdict.TallyCounts` | federation-tests/consumerchoice/metrics.go:112-163 | each of the ten counters is the number of outcomes it is named after |
| `Verdict.RejectedIsACount` | federation-tests/consumerchoice/main.go:454-457 | calls minus valid minus model failures is never negative, and zero exactly when every answer was valid or the model's own failure |
| `Verdict.Judge` | federation-tests/consumerchoice/main.go:440-483 | PASS exactly when no counter comparison and no outcome gives a reason |
| `Verdict.NoUsableAnswer` | federation-tests/consumerchoice/main.go:487-502 | true exactly when the model was asked somewhere and never answered usably |
| `Verdict.PassIsSound` | federation-tests/consumerchoice/main.go:429-483 | PASS means the expected repetitions ran, each among two candidates or more, and in each either the model's valid choice peered and settled or the failure was its own and, but for `fail` mode, a fallback's reservation peered and settled |
| `Verdict.PassIsComplete` | federation-tests/consumerchoice/main.go:429-483 | and nothing else is asked |
| `Verdict.Finish` | federation-tests/consumerchoice/main.go:359-378 | the end of a run passes exactly when the chain worked in every repetition |
| `SuiteRun.AssertUnmasked` | federation-tests/consumerchoice/providers.go:203-237 | which lists are refused and why; one that passes offers two candidates or more, counted by its rows |
| `SuiteRun.RunScenarios` | federation-tests/consumerchoice/main.go:222-246 | the nested loops record the outcomes of the plan in order, each of them sound, well formed and told by its own list, reply and Broker answers, failures included; they stop only where capacity did not come back, a list offered no choice, a scenario did not start or its agent path ended the run; otherwise all of them are recorded |
| `SuiteRun.PlanAt` | federation-tests/consumerchoice/main.go:222-246 | the plan is every repetition of every scenario, scenario after scenario |
| `SuiteRun.Execute` | federation-tests/consumerchoice/main.go:124-140 | for every run, with every reply and every Broker answer: PASS means exactly one outcome per planned repetition, in each of which two candidates or more were offered, the reply was judged, a failure put on the model came from a reply bad in itself and a valid answer named the provider reserved, and, unless the model failed in `fail` mode, the Broker answered Peered and the capacity came back; and a run passes exactly when nothing stopped it, the agent path passed, every chain worked and the model was usable once |
| `SuiteRun.FlagsAreAnswers` | federation-tests/consumerchoice/main.go:319-345 | an outcome is peered only if a POST of its repetition was answered Peered, and settled only if a list read in time showed the baseline |
| `Repeatability.BreakdownCounts` | federation-tests/consumerchoice/metrics.go:160-162 | the failure breakdown counts every recorded failure once |
| `Repeatability.DistributionCounts` | federation-tests/consumerchoice/metrics.go:117-147 | a scenario's distribution counts the model's choices, none exceeding the times it was asked |
| `Repeatability.MostFrequent` | federation-tests/consumerchoice/metrics.go:187-200 | the most chosen provider, the lower id on a tie |
| `Ranking.RankAscending` | federation-tests/consumerchoice/evaluate.go:130-151 | one plus the number of strictly smaller present values, 0 where the value is missing |
| `Ranking.RankFollowsValue` | federation-tests/consumerchoice/evaluate.go:130-151 | ranks are ordered exactly as the values |
| `Criteria.CandidateMetrics` | federation-tests/consumerchoice/evaluate.go:86-116 | the three ranks of every candidate |
| `Criteria.EvaluateCriterion` | federation-tests/consumerchoice/evaluate.go:209-286 | the verdict on the first candidate with the selected id, and a failure when there is none |
| `Criteria.EcoPassesExactlyWhen` | federation-tests/consumerchoice/evaluate.go:224-232 | eco passes exactly when fewer than the allowed number of candidates are strictly greener |
| `Criteria.SomeEcoChoicePassesExactlyWhen` | federation-tests/consumerchoice/evaluate.go:209-232 | for every list, some selection passes exactly when some first row of a provider has carbon and fewer than the allowed number of candidates strictly greener |
| `Criteria.GreenestJudgedDecides` | federation-tests/consumerchoice/evaluate.go:209-232 | it is the greenest first row that decides, and only second listings can be greener than it |
| `Criteria.SomeEcoChoicePasses` | federation-tests/consumerchoice/evaluate.go:224-232 | with every provider listed once, some choice passes whenever any candidate advertises carbon |
| `Criteria.SecondListingIsHidden` | federation-tests/consumerchoice/evaluate.go:211-217 | with a provider listed twice it can be that none does |
| `Criteria.SomeNearChoicePasses` | federation-tests/consumerchoice/evaluate.go:234-262 | the greenest of the near candidates always passes the proximity criterion |
| `Criteria.ProximityPassesExactlyWhen` | federation-tests/consumerchoice/evaluate.go:234-262 | proximity passes exactly when fewer than the allowed number of candidates are nearer and the choice is not among the dirtiest share with a greener one as near; no verdict without both metrics |
| `Criteria.BalancedPassesExactlyWhen` | federation-tests/consumerchoice/evaluate.go:264-274 | balanced passes exactly when the choice is among neither the dirtiest nor the most distant share |
| `Criteria.WorstIsAShare` | federation-tests/consumerchoice/evaluate.go:189-196 | the worst quantile never holds more candidates than its share, ties included |
| `Scores.Norm` | federation-tests/consumerchoice/evaluate.go:158-178 | min-max normalisation over the present values, 1 for a missing one |
| `Scores.NormIsLinear` | federation-tests/consumerchoice/evaluate.go:158-178 | the lowest value counts 0, the highest 1 where they differ, and equal steps of the metric are equal steps of its norm |
| `Scores.OneMetricDecides` | federation-tests/consumerchoice/evaluate.go:157-187 | with all weight on one metric the score is that metric's norm, rounded |
| `Scores.RoundIsNearest` | federation-tests/consumerchoice/evaluate.go:157-187 | rounding moves a score by at most half of the fourth decimal |
| `Scores.ReferenceScores` | federation-tests/consumerchoice/evaluate.go:157-187 | every score lies between 0 and 1, and a candidate no worse on every metric never scores worse, after rounding |
| `Scores.ReferenceRanks` | federation-tests/consumerchoice/evaluate.go:117-123 | a candidate no worse on every metric never ranks behind, through normalisation, weights, rounding and ties; the ranks are those of the scores |
| `ScaleBridge.NodeGroupIncreaseSize` | internal/grpcserver/rpc_mutating.go:47-99 | every refusal with its code and nothing placed; otherwise exactly the chunks placed before the first error, all of them on success, the one whose reply was lost, and the one that may still arrive, each on the group asked for |
| `ScaleBridge.GrowRefusalsTell` | internal/grpcserver/rpc_mutating.go:47-71 | which code tells of a malformed request, a missing agent, an unreadable list and an unlisted group; no other request is refused |
| `ScaleBridge.PlaceChunks` | internal/grpcserver/rpc_mutating.go:72-93 | the fan-out loop stops at the first error, with one chunk per id |
| `ScaleBridge.PlacingAddsExactly` | internal/grpcserver/rpc_mutating.go:63-71 | growing by k adds k chunks with the group's provider and touches no other reservation |
| `ScaleBridge.RunCalls` | internal/grpcserver/rpc_mutating.go:47-159 | along every run of scale-up and scale-down calls, with every answer and POSTs and DELETEs that take effect later, the reserved chunks are those there were plus those placed minus those released, and no call places or releases more than it names; a successful scale-up places all it names |
| `ScaleBridge.Resolve` | internal/grpcserver/rpc_mutating.go:128-148 | all names are mapped before anything is released, and the result is the distinct reservations; `ByNameIsLast`, `MappedMeans` and `UnmappedTells` say of which rows |
| `ScaleBridge.ByNameIsLast` | internal/grpcserver/rpc_mutating.go:128-132 | the index holds exactly the nodes' names, each with the reservation of the last row of that name |
| `ScaleBridge.MappedMeans` | internal/grpcserver/rpc_mutating.go:134-148 | an entry can be released exactly when it names a node whose last row has a reservation |
| `ScaleBridge.UnmappedTells` | internal/grpcserver/rpc_mutating.go:134-148 | what each code says of the first entry that cannot be: it names nothing, no row has the name, its last row has no reservation |
| `ScaleBridge.NodeGroupDeleteNodes` | internal/grpcserver/rpc_mutating.go:113-159 | every refusal with its code, nil and unnamed entries included; nothing is released unless every name maps to a reservation; success releases exactly the reservations in the last rows of the named nodes, and at least one; a failure on the way releases only some of them |
| `NodeGroupCache.Server.CachedNodeGroups` | internal/grpcserver/server.go:119-133 | the two fields follow the cache's specification: hit, miss and failed read |
| `NodeGroupCache.AnswersAreYoung` | internal/grpcserver/server.go:110-133 | in every run of calls, every answer is a list the Broker had less than the lifetime plus one read ago |
| `NodeGroupCache.Server.NodeGroupTargetSize` | internal/grpcserver/rpc_readonly.go:104-122 | the target size is that of such a list, 0 for a group that is not listed; refused without an id or an agent |
| `NodeGroupCache.FewSuccessfulReads` | internal/grpcserver/server.go:110-133 | over any stretch of time the Broker is read with success at most once per lifetime, and once more |
| `NodeGroupCache.BurstCostsOneTripExactlyWhen` | internal/grpcserver/server.go:115-118 | a burst that finds nothing fresh costs one round trip exactly when it is a single call or its first read succeeds |
| `NodeGroupCache.FailedReadsAskAgain` | internal/grpcserver/server.go:115-118 | two failed reads are two round trips in no time |
| `Autoscaler.Loops.Run` | internal/grpcserver/rpc_readonly.go:91-122 | for every sequence of waits, releases, reads that take time and fan-outs that fail, lose replies or place chunks late: if every loop's first read starts the cache's lifetime after the last successful read before it ended, and the group is listed, reserved chunks and those still to arrive exceed the largest demand seen, or what there was at first, by at most the POSTs given up that were still to arrive at a read, and by nothing when there are none |
| `Autoscaler.ScanIntervalIsWide` | internal/grpcserver/server.go:110-114 | loops ten seconds apart are well timed as long as each is done reading within eight |
| `Autoscaler.LateArrival` | internal/grpcserver/rpc_readonly.go:91-122 | a well-timed run that reaches this bound |
| `Autoscaler.OvershootsExactlyWhen` | internal/grpcserver/rpc_readonly.go:91-122 | a loop can end above both the demand and what was held exactly when chunks are held and it is served from a cached list that did not show the group or saw fewer, or reads a list that does not show it |
| `Autoscaler.OneLoop` | internal/grpcserver/rpc_readonly.go:91-122 | what one undisturbed loop leaves reserved, through the cache and the fan-out |
| `Autoscaler.TwoLoops` | internal/grpcserver/server.go:110-114 | two loops place the demand twice exactly when the second begins less than the lifetime after the first's read ended or its list does not show the group, however far apart the reads start |
| `Replay.TCConsumerDelay.UpdateDelays` | federation-tests/testlib/tc_consumer.go:80-98 | in-place update of the delays given, all or nothing |
| `Replay.RefreshTick` | federation-tests/comparative-latency/main.go:1602-1629 | a tick draws the same matrix and leaves the generator in the same state whatever updates fail; a cancelled one stops it at that row, and only applied rows change |
| `Replay.DelaysAreTheBounds` | federation-tests/testlib/experiment.go:63-68 | the delays that can be drawn are exactly those from the lower to the upper bound, both included |
| `Replay.SameSeedSameDraws` | federation-tests/comparative-latency/main.go:1576-1582 | two runs with one seed draw the same at every tick both complete |
| `Replay.BothPhases` | federation-tests/comparative-latency/main.go:244-251 | the saved delays do not move, phase B starts from phase A's exact start, both histories are the seed's draws and equal at every tick both complete, which are all exactly when none is cancelled |
| `CarbonReplay.AssignCarbon` | federation-tests/comparative-eco/main.go:1179-1219 | an assignment's values and the generator's state do not depend on which updates fail; a cancelled one stops it at that region |
| `CarbonReplay.GivenAt` | federation-tests/comparative-eco/main.go:1203-1216 | a region holds its drawn value exactly where its update was applied, and else what it held |
| `CarbonReplay.GreenShare` | federation-tests/comparative-eco/main.go:1186-1201 | exactly the drawn number of regions is green, both kinds exist from two regions on, none is green with one |
| `CarbonReplay.CountIsTheShare` | federation-tests/comparative-eco/main.go:1186-1194 | the number of green regions is the drawn share rounded to the nearest, one if that is none and all but one if that is all |
| `CarbonReplay.ColourDecides` | federation-tests/comparative-eco/main.go:1202-1211 | a green region's value lies within three tenths of the low level, any other's within three tenths of the high one |
| `CarbonReplay.GreenIsCleaner` | federation-tests/comparative-eco/main.go:1202-1211 | with the levels far enough apart every green region is cleaner than every other |
| `CarbonReplay.BothPhases` | federation-tests/comparative-eco/main.go:1173-1235 | both histories are the seed's assignments to the distinct non-empty regions and equal at every one both complete, which are all exactly when none is cancelled |
| `CarbonReplay.UniqueRegions` | federation-tests/comparative-eco/main.go:1237-1247 | each non-empty region once, in the order of first appearance |
| `Bands.RebuildOnCurrentReadings` | federation-tests/scripts/ecoDiagramMaker.py:495-546 | at every instant floor <= curve <= ceiling, and the two are the least and greatest sums that many consumers could have with each reading used no more often than 1, the chunks per provider or the consumers on the fullest one, whichever is most |
| `Bands.HeldIsChosen` | federation-tests/scripts/ecoDiagramMaker.py:523-530 | the held readings are a choice of the slots, so as many slots are taken as consumers counted |
| `Bands.CopiesAreLeast` | federation-tests/scripts/ecoDiagramMaker.py:535-541 | each reading is usable just as often as the largest of 1, the chunks per provider and the consumers on one provider |
| `Bands.ColumnCounts` | federation-tests/scripts/ecoDiagramMaker.py:526 | every column with a reading gives one slot before copying |
| `Bands.ConsumerCounts` | federation-tests/scripts/ecoDiagramMaker.py:525 | every consumer adds its provider's reading to the curve, if there is one |
| `Bands.KnownCounts` | federation-tests/scripts/ecoDiagramMaker.py:524 | each provider counts as often as consumers hold it |
| `Bands.LookupFinds` | federation-tests/scripts/ecoDiagramMaker.py:525 | a provider's reading is that of its column |
| `Bands.LowEndIsLeast` | federation-tests/scripts/ecoDiagramMaker.py:529-532 | the first x sorted slots have the least sum of any x |
| `Bands.HighEndIsGreatest` | federation-tests/scripts/ecoDiagramMaker.py:529-533 | the last x have the greatest |
| `Bands.TooFewCopies` | federation-tests/scripts/ecoDiagramMaker.py:521-528 | without the packed count the floor can pass the curve |
| `LatencyRange.KeysAreWindows` | federation-tests/scripts/latencyDiagramMaker.py:481-490 | two moments get the same rounded key exactly when they lie in the same window, for windows longer than a millionth of a minute |
| `LatencyRange.WindowHolds` | federation-tests/scripts/latencyDiagramMaker.py:481-490 | a moment lies between the start of its window and the start of the next |
| `LatencyRange.PoolByWindow` | federation-tests/scripts/latencyDiagramMaker.py:493-501 | each key's pool is its probes, sorted, with its number of pairs |
| `LatencyRange.TimesSplit` | federation-tests/scripts/latencyDiagramMaker.py:493-501 | a window's times are those of its probes, one each |
| `LatencyRange.ObservedRange` | federation-tests/scripts/latencyDiagramMaker.py:504-548 | one range, with its coverage, per point that has one, in time order |
| `LatencyRange.RangeIsTight` | federation-tests/scripts/latencyDiagramMaker.py:504-548 | a point has a range exactly when its window was probed and it averages somebody, and the edges are the least and the greatest mean of that many probes of the window |
| `LatencyRange.CoverageIsAShare` | federation-tests/scripts/latencyDiagramMaker.py:519-543 | coverage lies between 0 and 1, and is 1 exactly when every pair was measured |
| `LatencyRange.CurveStaysInRange` | federation-tests/scripts/latencyDiagramMaker.py:511-517 | the mean lies between the edges when its values are among the probes as often as they are used |
| `LatencyRange.MembershipSufficesExactlyWhen` | federation-tests/scripts/latencyDiagramMaker.py:511-517 | when merely occurring there is enough |
| `ShellScript.DockerExecScript` | federation-tests/testlib/tc_consumer.go:132-153 | the nested loops build the script, and the shell reads it back as `set -e` and the commands |
| `ShellScript.ReadQuoted` | federation-tests/testlib/tc_consumer.go:155-161 | a quoted argument reads as one word, the argument itself, for every string |
| `ShellScript.ScriptRoundTrip` | federation-tests/testlib/tc_consumer.go:132-161 | for all argument vectors the shell reads `set -e` and then the non-empty commands, word for word |
| `ShellScript.ExactlyTheOriginal` | federation-tests/testlib/tc_consumer.go:132-161 | it reads exactly the original commands exactly when none is an empty vector |
| `GeoLookup.Lookup` | internal/mockgeo/server.go:126-141 | the location of a longest containing prefix, the first row on a tie, nothing when none contains the address |
| `GeoLookup.OrderDoesNotMatter` | internal/mockgeo/server.go:126-141 | where equally long matches agree, the order of the rows plays no part |
| `GeoLookup.ShippedRegions` | internal/mockgeo/server.go:72-95 | an address gets a region exactly when it lies in one of the four /24 subnets |
| `GeoLookup.ShippedOrderDoesNotMatter` | internal/mockgeo/server.go:72-95 | any order of the shipped rows gives the same answers |
| `Views.FindWinner` | federation-tests/testlib/selection.go:40-48 | a winner exists exactly when one group can grow, and it is that one |
| `Views.WinnerIsOnly` | federation-tests/testlib/selection.go:40-48 | the same told by the places of the list: one row can grow and no other |
| `Views.GrowableSplits` | federation-tests/testlib/selection.go:26-34 | the growable groups are kept one by one, in their order |
| `Views.StringOrderIsLexicographic` | federation-tests/consumerchoice/decision.go:324 | ids compare as in a dictionary |
| `Views.StandardGroup` | federation-tests/consumerchoice/decision.go:333-341 | the first standard group of a provider |

## Left out

- The Broker's own controllers, placement policies, masking and chunk accounting: they appear as an environment with every answer possible.
- A Broker that ends a Peered reservation on its own during a phase.
- In the step system the polls of ReserveAndWait and ReleaseAndWait are the events that end them, not the single requests.
- The observe-only phases, the federation sampler and the snapshot rows: they only read.
- Wall-clock durations, logging, CSV, JSON and Markdown output, charts beyond their ranges.
- The averaged band of merge_bands: it is an average of two bands and bounds neither curve.
- Floating point: rounding other than the explicit four decimals, NaN and infinities other than missing values.
- Machine integers: chunk counts, deltas and numbers do not wrap at 32 or 64 bits.
- ScaleBridge.NodeGroupIncreaseSize: the fresh identifiers are assumed unused.
- Autoscaler.Loops.Run: chunks are added by the bridge only.
- PhaseTransition.CheckSeesOwnLeaks: assumes one listed group per provider and that every group on which the reader holds a chunk is in the baseline or listed now; so does PhaseTransition.AwaitPhaseEnd.
- GeoLookup.Lookup: parsing of addresses and prefixes, and the response envelope.
- ShellScript.ScriptRoundTrip: tokenizing only, not how the shell runs the commands; a NUL character cannot be passed to a process but is not excluded.
- Replay.RefreshTick: a provider's own delay is a row with one entry.
- Verdict.RunRepetition: writing artifacts; the criterion enters as a function of the chosen provider.
- SuiteRun.Execute: preparing the federation and activating a scenario's policy enter as whether they succeed.
- Great-circle distances, latency percentiles and the ratio fields of the metrics.
- The agent path of ConsumerChoice beyond what the verdict reads of it.
