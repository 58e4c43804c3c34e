# Verified model of the proxy's reliability engine

This project models the parts of the proxy that decide where a request goes, when it is retried, and what the client
is told, and proves what they keep over every run. Time is a natural number of milliseconds handed to each operation.

- **Routing table.** Four nested failure domains (credential, quota group, (model, group) route, model), each with
  lazily expiring deadlines; a circuit per model fed by pruned evidence of distinct failing groups; a tiered planner
  with skip sets, session affinity and rotation; in-flight guards that may hold a half-open probe.
  `Routing.dfy` says what each operation computes. `RouteTable.dfy` is the table itself, a class whose methods walk the
  gates, loop over candidates and update its fields, each proved equal to that specification.
- **Runs.** `Runs.dfy` interleaves plans, attempts, outcomes and guard drops of any number of requests in any order.
  `RunInvariants.dfy`, `CircuitRuns.dfy`, `ModelOutages.dfy`, `Isolation.dfy` and `TransientReach.dfy` prove what holds
  after every run: bounded recovery, exact in-flight counts, circuits that trip exactly on the unpruned log and stay open
  for their whole period, the exact open counter, failure domains that do not leak, and a cooldown ladder that climbs.
- **Planning.** `Planner.dfy` states what a plan means in terms of the table it started from, `Ranking.dfy` which route
  wins in terms of the keys' counters, `KnownWaits.dfy` when a refused one is known to come back, `Rotation.dfy` fairness
  and skip sets, `Readiness.dfy` that the readiness count and the planner agree, `Expiry.dfy` that lazy expiry is
  invisible.
- **Failover.** `Failover.dfy` is one logical request: the attempt loop over the table and the global breaker, with an
  arbitrary upstream and with other requests taking any steps of a run between its own. The loop is proved to be a
  sequence of specified rounds; `FailoverRuns.dfy` proves that such a sequence, with what the others do in between, is a
  stretch of one run, so that every run invariant holds for any number of requests at once. `FailoverTheorems.dfy` is
  what every request keeps, and `FailoverWitnesses.dfy` where that stops. `Outcomes.dfy` and `RequestOutcomes.dfy` say
  what each kind of reply leaves on key, route, group, circuit and breaker, `NextSteps.dfy` what follows and what the
  client is told.
- **Streams.** `Sse.dfy` is the incremental event decoder against a whole-string definition; `StreamPump.dfy` the pump
  that forwards chunks and judges the stream, `StreamEndings.dfy` how it ends when it breaks off.
- **Smaller parts.** `Backoff.dfy`, `CircuitBreaker.dfy` (the proxy-wide breaker), `RetryDuration.dfy` (durations in
  error text), `Admission.dfy` (semaphore and queue counter, one atomic access a step), `KeyTable.dfy`.

`dafny verify dfyconfig.toml` checks everything. Proofs hide the definitions they do not need (`hide F;`) to stay cheap.

## Where the code differs from what it says of itself

The model follows the code in each case.

- Retrying the same route after a cooldown (docs/routing.md:171, src/upstream.rs:1033-1063) never re-dials it when each
  quota group has one key: the next plan still skips it. With two keys in a group a request *can* dial the same key
  twice; `FailoverWitnesses.DialsDistinctExactly` gives the exact condition.
- A transient failure does not cool its route (docs/routing.md:94). It cools the key, for at most a quarter of a
  second, and only when another group exists: `Isolation.TransientRouteStaysReady` says exactly when the route stays
  ready. It can also cut a longer cooldown of the key short, and then matters to a candidate for as long as that
  cooldown would have lasted: `Isolation.TransientEndsExactly` says for which candidates, and
  `TransientReach.TransientPassesExactly` that this needs two keys in one group and a second group.
- A quota exhaustion or a 404 is followed up by comparing the planned group or route with the failed one
  (src/upstream.rs:1071-1175). Once the cooldown has passed or another request has revived the group, that comparison
  can end a request although something is left to dial: `FailoverTheorems.FailsOverExactly` says when,
  `FailoverTheorems.GivesUpWithNothingLeft` when not, `FailoverWitnesses.GivesUpWithARouteLeft` gives a request.
- When the follow-up plan finds a ready route the request still sleeps until the soonest cooling alternative of that
  tier is due (src/router.rs:1080-1083), although docs/routing.md:200 says it proceeds at once.
  `FailoverTheorems.PlannedFollowupSleepsExactly` says exactly when it does, and the sleep is bounded by a day, not by
  `retry_after_max`.
- Affinity ranks before score (src/router.rs:1695-1707), despite the comment at src/router.rs:1034-1035:
  `Rotation.PinnedRouteWins`.
- The failure of a half-open probe reopens the circuit but is not evidence (src/router.rs:1362-1381), so after the next
  probe is cancelled two groups can have failed in the window without a trip: `ReferenceCircuit.TripsAgreeExactly`.
- The streak behind the cooldown ladder is read and written under separate locks (src/upstream.rs:567-584,
  src/router.rs:1164-1168), so overlapping 429s on a key lose a rung: `RunCooldowns.StreakCountsExactly`.
- "The decoder was reset" (src/sse.rs:24): an overflow is sticky instead (`SseTheorems.PushKeepsSound`).
- The wait queue is not bounded by its capacity when more than one worker runs tasks (src/concurrency.rs:68-73): the
  exact bound is capacity + workers - 1 (`AdmissionTheorems.CapacityHoldsExactly`).
- The verdict on a stream can depend on chunk boundaries; `StreamPumpTheorems.VerdictIgnoresCutsExactly` says when.
- Keys are looked up by their position among the enabled keys but carry their configured position
  (src/router.rs:474-483, 584-586). `KeyTable.AlignedExactly` says when the two agree; the table assumes they do.

## Model

| member | source | states |
|---|---|---|
| Backoff.BarrierDuration | src/router.rs:1743-1775 | Every cooldown lies between 1 ms and a day, and without a hint it never exceeds the configured maximum. |
| Backoff.LadderClosedForm | src/router.rs:1743-1775 | At zero jitter a hintless cooldown is min(initial * 2^max(attempt - 1, streak), max) for every attempt and streak, so neither the shift cap nor 128-bit saturation is observable. |
| Backoff.LadderMonotone | src/router.rs:1743-1775 | The ladder never falls as attempt, streak or jitter rises. |
| Backoff.JitterAddsUpToHalf | src/router.rs:1743-1775 | Jitter only ever adds to the plain doubling and at most half of it, still capped; full jitter adds exactly half. |
| Backoff.HintDecides | src/router.rs:1743-1775 | With a hint the cooldown is the hint itself, kept between 1 ms and the hint cap (a day at most), whatever attempt, streak and jitter are. |
| ReferenceCircuit.ObserveStandsFor | src/router.rs:1358-1382 | The pruned evidence list stays duplicate-free and in time order, keeps the newest observation of each group, and its length is the number of distinct groups the whole log has inside the window. |
| ReferenceCircuit.PrunedRefinesLog | src/router.rs:1320-1382 | Under any chronological sequence of operations the pruned circuit stays in step with one that never prunes its failure and 404 logs. |
| ReferenceCircuit.TripsExactly | src/router.rs:1358-1382 | A failure opens a Closed circuit exactly when the unpruned log names enough distinct groups inside the window; the log holds every failure since the last clear but those of half-open probes. |
| ReferenceCircuit.LogsAgreeExactly | src/router.rs:1362-1381 | That log is every failure since the last clear exactly when no half-open probe has failed since. |
| ReferenceCircuit.TripsOnEveryFailure | docs/routing.md:102-105 | If none has, the circuit opens exactly on the distinct groups of every failure since the last clear. |
| ReferenceCircuit.TripsAgreeExactly | docs/routing.md:102-105 | The circuit never opens before enough distinct groups have failed inside the window since the last clear, and it opens as soon as they have, except exactly when the groups it logged are too few and those of failed half-open probes would make up the number. |
| ReferenceCircuit.FailedProbeGoesUncounted | src/router.rs:1362-1381 | A sequence after which two groups have failed inside the window since the last clear, one as a probe, and the second leaves the circuit closed at a threshold of two. |
| ReferenceCircuit.GoesMissingExactly | src/router.rs:1231-1262 | A 404 takes a served model out exactly when the unpruned 404 log names enough distinct groups inside the window. |
| ReferenceCircuit.OneAccountNeverTrips | src/router.rs:1358-1382 | With a threshold of two or more, failures and 404s of one group alone never open a model or take it out. |
| CircuitRuns.ProjectionIsChronological | src/router.rs:775-798 | Every run of the table acts on each model in time order. |
| CircuitRuns.TripsExactlyInRuns | src/router.rs:1358-1382 | After any run of the table a failure opens a Closed circuit exactly when that log, which leaves out failed half-open probes, names enough distinct groups inside the window. |
| CircuitRuns.TripsOnEveryFailureInRuns | docs/routing.md:102-105 | After any run in which no half-open probe failed since the last clear, exactly when all failures since then do. |
| CircuitRuns.GoesMissingExactlyInRuns | src/router.rs:1231-1262 | The same for the model-wide 404 state. |
| CircuitRuns.OneAccountNeverDisablesAModel | docs/routing.md:102-105 | No run in which one account alone fails ever opens a model's circuit or marks the model missing. |
| CircuitRuns.OnlyFailuresOpen | src/router.rs:1320-1344 | No step but a recorded failure of that model moves its circuit into Open. |
| CircuitRuns.CounterIsExact | docs/routing.md:145-158 | Over every run the open counter is the number of circuit transitions into Open, summed over all models. |
| ModelOutages.OpenedModelIsNotPlanned | src/router.rs:1320-1344 | Once a recorded failure opens a model's circuit, no plan in any run in which nobody succeeds with the model returns it before the open period is over. |
| ModelOutages.MissingModelIsNotPlanned | src/router.rs:1231-1262 | The same for a 404 that takes the model out, until its missing period is over. |
| Ordering.SortsPlainly | src/router.rs:1682-1715 | In plain comparisons: ranking puts affine candidates first, then orders by score, then by model position, then by rotated slot. |
| Ordering.SortKeepsItems | src/router.rs:1682-1715 | Ranking is a permutation. |
| Routing.CandidateFor | src/router.rs:595-631 | The keys sampled for a candidate are configured keys of its group. |
| Routing.GroupNames | src/router.rs:595-631 | One candidate per quota group: the groups of the keys, each once. |
| Routing.Members | src/router.rs:595-631 | Exactly the key positions of one group, ascending. |
| Expiry.SameJudge | src/router.rs:666-820 | Tables that differ only in deadlines that have passed give every candidate the same verdict, now and at every later time. |
| Expiry.DialSame | src/router.rs:666-747 | The expiry done while judging one candidate changes no later verdict. |
| KnownWaits.WaitIsTheDeadline | src/router.rs:666-747 | Read off the raw records: a candidate is ready or refused by a first gate; its known wait is exactly what is left of that gate's deadline (open circuit, group, route, or the least among the keys that cool), and there is none exactly when the model or the route is gone, the probe is out, or no sampled key cools. |
| KnownWaits.GateOpensAfterTheWait | src/router.rs:666-747 | Once the known wait is over, the gate that named it is open on the same table. |
| KnownWaits.NotReadyBeforeTheWait | src/router.rs:706-728 | Before that the candidate cannot be dialed, except that a half-open circuit looks past the route's cooldown as soon as a sampled key is up. |
| Planner.TierCandidatesMeans | src/router.rs:595-631 | The candidates of a tier are one per listed model and quota group, and no others. |
| Planner.ScanReports | src/router.rs:838-936 | The dialable candidates and the least wait that a scan reports are those of the table it started from, whatever it expired on the way. |
| Planner.PlanMeans | src/router.rs:826-998 | A planned target is a ready sampled key of the best dialable candidate of its tier, every earlier tier had nothing unskipped and ready, the alternative reported with it is the least known wait of the tier, and a refusal reports the least known wait of the tiers it reached. |
| Planner.PlansTierExactly | docs/routing.md:45-47 | The plan lands on a tier exactly when every earlier tier was passed over and this one has something to dial. |
| Planner.PlannedTargetIsHealthy | src/router.rs:666-747 | The planned target is a candidate of the planned tier that passes every health gate, through a key it samples that belongs to its group and is ready when picked. |
| Planner.RefusalMeans | src/router.rs:938-978 | A refusal means that nothing was dialable in any tier the scan could reach. |
| Rotation.OrderHeadIsLeast | src/router.rs:1682-1715 | The head of the order is a candidate of least rank. |
| Rotation.LeastIsUnique | src/router.rs:1682-1715 | No two candidates share the least rank. |
| Rotation.EveryCandidateGetsATurn | src/router.rs:908-936 | In any n consecutive rotations every one of n evenly matched candidates of the first-listed model heads the order. |
| Rotation.ExactlyOneTurn | src/router.rs:908-936 | When the tier has one model, at exactly one rotation in each round. |
| Rotation.NoRouteStarves | docs/routing.md:240-249 | With one key per group, any n plans in a row over n evenly matched dialable routes pick each route of the first-listed model. |
| Rotation.PinnedRouteWins | src/router.rs:1695-1707 | A plan that lands on a tier picks the session's pinned route, whatever its load, exactly when that route can be dialed there. |
| Ranking.PicksTheLightest | src/router.rs:1010-1040 | A plan picks the session's live pin if the tier can dial it; otherwise no dialable candidate of the tier weighs less than the picked one, at a million for each attempt in flight, a hundred thousand for each strike, and slowness where the profile counts it, and none that weighs the same comes earlier in the tier. |
| Ranking.LeastLoadedWins | src/router.rs:1021-1025 | In terms of the counters: no other dialable route has fewer attempts in flight unless it has at least ten strikes more for each, none has as many and fewer strikes, and none with the same counters comes earlier in the tier. |
| Rotation.OneKeyNeverRedials | src/router.rs:868-874 | With one key per group no plan returns an identity the request has already used. |
| Rotation.SharedGroupRedials | src/router.rs:980-998 | Two keys in a group: a plan returns the used key although only the other one is left unskipped. |
| Rotation.SkipSetsHonouredExactly | src/router.rs:868-874 | Skip sets are honoured on every table exactly when no quota group holds two keys. |
| Readiness.NoUsableRouteNoPlan | src/router.rs:1572-1583 | A usable-route count of zero means that every profile's plan fails, for every skip set. |
| Readiness.ReadyExactlyWhenPlannable | src/router.rs:1572-1583 | When multi-tier profiles may fall back, a usable route exists exactly when some profile's plan succeeds. |
| Readiness.LookingKeepsReadiness | src/router.rs:1572-1583 | Neither checking a route nor a plan that fails changes which routes are usable. |
| Runs.StepProjects | src/router.rs:1320-1382 | Every step of the table acts on each model through at most one operation of its circuit. |
| Runs.RunProjects | src/router.rs:1320-1382 | So each model's state after a run is that of its circuit after its own operations. |
| Runs.PlanOnlyLooks | src/router.rs:826-978 | Planning does nothing to a model beyond expiring its deadlines. |
| RunInvariants.StepKeepsGood | src/router.rs:1717-1728 | Every step keeps every deadline within a day, and every Open or missing model with a deadline. |
| RunInvariants.StepKeepsCounts | src/router.rs:1453-1475 | Every step keeps each key's in-flight count equal to the number of live guards on it. |
| RunInvariants.StepKeepsProbes | src/router.rs:1628-1661 | Every step keeps a taken probe slot in the hands of a live guard. |
| RunInvariants.RunKeepsInv | src/router.rs:1453-1475 | All of these hold after every run, and the clock never falls. |
| RunInvariants.QuiescenceReleasesEverything | docs/routing.md:251-252 | Once all guards are gone nothing is counted in flight and no probe slot is taken. |
| RunInvariants.RecoversWithinADay | src/router.rs:666-820 | After any run that left no guard, a day without events makes a candidate ready exactly when some key it samples was not rejected by a 401. |
| RunInvariants.PlansAfterAQuietDay | src/router.rs:826-978 | After such a day the first tier serves exactly when one of its candidates samples an accepted key. |
| Isolation.RateLimitIsolated | docs/routing.md:89 | A generic 429 changes no other route's verdict at any time, of the same model only if that very call opened its circuit. |
| Isolation.ModelMissingIsolated | docs/routing.md:123-135 | A 404 changes only its own route, unless it completes the evidence that takes the model out. |
| Isolation.AuthenticationIsolated | docs/routing.md:91 | A 401 changes only candidates that sample the rejected key. |
| Isolation.QuotaIsolated | docs/routing.md:90 | Quota exhaustion changes only candidates of the exhausted group. |
| Isolation.TransientIsolated | src/router.rs:1265-1301 | A transient failure reaches other candidates only through the failed key, only if another group exists, and for at most 250 ms; the one longer effect is that it can shorten a cooldown the key already had. |
| Isolation.TransientEndsExactly | src/router.rs:1283-1293 | Once the failure's own cooldown has passed it still decides whether a candidate can be dialed exactly when the candidate samples the failed key, another group exists, that key is not rejected and would still be cooling, no other sampled key is ready, and model, route and group let the candidate through. |
| TransientReach.TransientPasses | src/router.rs:1283-1293 | In every run, with one key per group or a single group, no verdict on a configured candidate differs from a quarter of a second after a transient failure on, unless the failure opened that model's circuit. |
| TransientReach.TransientOutlasts | src/router.rs:1287-1293 | With two keys in one group and a second group, a run (the group exhausted for an hour, revived by a success on its other key, that key rejected) after which a transient failure on the first key makes a candidate of another model ready that would otherwise not be, for the rest of the hour. |
| TransientReach.TransientPassesExactly | docs/routing.md:94 | So no verdict outlasts a transient failure by more than a quarter of a second, in any run, exactly when no group holds two keys or all keys are of one group. |
| RunCooldowns.RejectedKeyIsNeverPlanned | src/router.rs:1207-1215 | Once a 401 rejected a key no later plan of any run picks it, whatever succeeds meanwhile. |
| RunCooldowns.RunKeepsGroupCooling | src/router.rs:1183-1205 | An exhausted group keeps its deadline over every run without a success or another exhaustion on it. |
| RunCooldowns.ExhaustedGroupIsNotPlanned | src/upstream.rs:1071-1119 | After an exhaustion no plan of any profile, session, rotation or skip set picks the group before its cooldown ends, so the group comparison never ends a request early. |
| RunCooldowns.MissingRouteIsNotPlanned | src/router.rs:1231-1262 | After a 404, in every run in which nobody succeeds on the route, no plan returns that route before its cooldown ends. |
| RunCooldowns.StreakCountsExactly | src/upstream.rs:564-584 | With reading and writing the streak as two steps, a key's streak counts its hintless 429s since the last restart exactly when no two of them overlap. |
| RunCooldowns.StreakCounts | src/router.rs:1056-1060 | Without overlaps it counts them up to where the counter saturates. |
| RunCooldowns.StreakAtMost | src/router.rs:1164-1168 | With overlaps it never exceeds their number. |
| RunCooldowns.StreakAtLeastOne | src/router.rs:1164-1168 | Nor does it fall below one after a report. |
| RunCooldowns.OverlapLosesAnUpdate | src/upstream.rs:564-584 | Two requests that read before either writes leave a streak of one after two hintless 429s. |
| RunCooldowns.LadderClimbsAcrossRuns | src/upstream.rs:564-584 | When no two hintless 429s on a key overlap, one that follows n others cools its route for at least min(initial * 2^n, max). |
| RouteTables.RouteTable.ByGroup | src/router.rs:595-610 | Groups keys by quota group, in the order of each group's first key. |
| RouteTables.RouteTable.CandidatesFor | src/router.rs:595-631 | The loop produces one candidate per group with the two keys at the rotation. |
| RouteTables.RouteTable.ViewModel | src/router.rs:775-798 | The view is the model with passed deadlines expired, and the table keeps the expired form. |
| RouteTables.RouteTable.ViewRoute | src/router.rs:800-811 | The remaining cooldown and the disabled flag of the route, expired in place. |
| RouteTables.RouteTable.ViewGroup | src/router.rs:813-820 | The remaining group cooldown, expired in place. |
| RouteTables.RouteTable.KeyIsReady | src/router.rs:749-758 | Ready means not rejected and past its cooldown. |
| RouteTables.RouteTable.KeyCooldown | src/router.rs:760-765 | The remaining cooldown of one key. |
| RouteTables.RouteTable.JudgeKeys | src/router.rs:725-747 | Ready at the first ready sampled key, else the shortest cooldown of a cooling one, else blocked. |
| RouteTables.RouteTable.CheckDialability | src/router.rs:666-747 | The gate walk with early exits gives the specified verdict and touches exactly the entries it reached. |
| RouteTables.RouteTable.Cost | src/router.rs:1010-1040 | Load and failure penalty of the sampled keys, with affinity worth one. |
| RouteTables.RouteTable.AffinityFor | src/router.rs:1042-1054 | An unexpired pin, and an expired one is dropped. |
| RouteTables.RouteTable.ScanModels | src/router.rs:838-906 | The nested loop over models and groups is the fold over the tier's candidates. |
| RouteTables.RouteTable.SelectFrom | src/router.rs:908-936 | Takes the head of the order at the current rotation and advances the rotation by one. |
| RouteTables.RouteTable.PickTarget | src/router.rs:980-998 | The first sampled key that is ready when the credential is picked, else the first sampled key. |
| RouteTables.RouteTable.Plan | src/router.rs:826-978 | The tier loop computes the specified plan and leaves the specified table. |
| RouteTables.RouteTable.FollowUp | src/router.rs:1068-1092 | Breaks the affinity, plans without the failed identity, and continues on a target or on a wait within the limit. |
| RouteTables.RouteTable.RecordRouteFailure | src/router.rs:1358-1382 | Moves the model's circuit as specified and reports the transition. |
| RouteTables.RouteTable.NoteSuccess | src/router.rs:1094-1143 | Clears the key's streak, the route, the group and the model's missing state, and closes a circuit that was not closed. |
| RouteTables.RouteTable.NoteRateLimited | src/router.rs:1146-1180 | Raises the streak, cools the one route, records the failure, and counts an opening. |
| RouteTables.RouteTable.NoteQuotaExhausted | src/router.rs:1183-1205 | Cools the group and each of its keys and breaks the group's pins. |
| RouteTables.RouteTable.NoteAuthenticationFailure | src/router.rs:1208-1222 | Rejects the key until a restart and breaks the route's pins. |
| RouteTables.RouteTable.NoteModelMissing | src/router.rs:1231-1262 | Disables the route and takes the model out once enough groups reported it. |
| RouteTables.RouteTable.NoteTransientFailure | src/router.rs:1265-1301 | Cools the key briefly if another group exists, records the failure, and counts an opening. |
| RouteTables.RouteTable.NoteSessionRoute | src/router.rs:1404-1432 | Pins the session for the affinity period after dropping expired pins and, on a full map, one of earliest expiry. |
| RouteTables.RouteTable.RoomIsMadeSparingly | src/router.rs:1404-1440 | Pinning a session moves no other pin and drops expired ones; a live pin is lost only to a new session on a map full of live pins, one at most, and none that outlives a kept one. |
| RouteTables.RouteTable.PinnedFits | src/router.rs:1404-1432 | The affinity map never grows beyond its cap. |
| RouteTables.RouteTable.BeginAttempt | src/router.rs:1453-1475 | Counts the attempt in flight and hands the guard the probe exactly when a half-open model had it free. |
| RouteTables.RouteTable.AllCandidates | src/router.rs:634-649 | Every configured (model, group) pair, one per pair of name hashes. |
| RouteTables.RouteTable.UsableRouteCount | src/router.rs:1572-1583 | Counts the ready pairs of the table it started from, although counting expires entries as it goes; the count is exact when no two names share a hash. |
| RouteTables.InflightGuard.ReleaseProbe | src/router.rs:1628-1641 | Gives the probe slot back once. |
| RouteTables.InflightGuard.Drop | src/router.rs:1643-1661 | Lowers the in-flight count, and closes a half-open circuit whose probe the guard still held. |
| Failover.Core.PlanRoute | src/upstream.rs:176-182 | Planning is one run event, after whatever other requests did. |
| Failover.Core.AskBreaker | src/upstream.rs:187-201 | Asking the breaker is one admission step, on the breaker as other requests left it. |
| Failover.Core.TakeGuard | src/upstream.rs:240-242 | Taking the guard is one run event, after whatever other requests did, and the guard handed out is the one the world then lists for this request. |
| Failover.Core.NextAttempt | src/upstream.rs:995-1067 | Continues exactly as the follow-up decides, or on the same route within its retry limit and the cooldown limit, and never past the budget. |
| Failover.Core.NextAttemptGroup | src/upstream.rs:1071-1119 | Continues exactly when a plan without the failed identity returns another group. |
| Failover.Core.NextAttemptModel | src/upstream.rs:1125-1175 | Continues exactly when a plan returns another identity. |
| Failover.Core.Decide | src/upstream.rs:553-920 | What follows a failed reply is the follow-up of its class, one run event in the world as other requests left it. |
| Failover.Core.Record | src/upstream.rs:553-920 | Each failed reply acts on the table as its one run event and on the breaker by its class; counting the usable routes after an exhaustion only checks them one by one, and opens the breaker exactly when none is left. |
| Failover.Core.Serve | src/upstream.rs:316-350 | A success is recorded, pins its session only on the first attempt, closes the breaker, and gives probe and guard back. |
| Failover.Core.Fail | src/upstream.rs:243-297 | A failure is recorded while the guard is held, and the guard dropped with its probe. |
| Failover.Core.Attempt | src/upstream.rs:242-922 | One attempt takes a guard, gets the upstream's reply, and is served or failed and decided on, other requests acting in between; no guard is left. |
| Failover.Core.SendMessages | src/upstream.rs:137-922 | For every upstream and all interference a request is a sequence of such rounds, each planned without what was dialed before, admitted by the breaker as it stood, and answered by the upstream; it starts in the world it finds and ends in the one it leaves, with the result its ending calls for, and leaves no guard. |
| Outcomes.UnauthorizedRejectsTheKey | src/upstream.rs:690-693 | A failed attempt answered with 401 leaves the dialed key rejected and nothing else of keys, routes and groups changed, and no session pinned to its route. |
| Outcomes.ForbiddenLeavesHealth | src/upstream.rs:687-731 | A 403, an unclassified error, and a 400 without budget leave the health of every key, route and group as it was. |
| Outcomes.LimitCoolsTheRoute | src/upstream.rs:553-631 | A generic 429 puts its deadline on its route and one strike more on the key, from the strikes it read (none with an authoritative hint), and touches no other key, route or group. |
| Outcomes.MissingDisablesTheRoute | src/router.rs:1231-1262 | A 404 disables its route for the configured time, leaves keys and groups, and unpins the route. |
| Outcomes.StrainCoolsTheKey | src/router.rs:1265-1301 | An overload, or a 400 that is tried elsewhere, cools its key alone, for at most 250 ms, and only if another group exists. |
| Outcomes.QuotaCoolsTheGroup | src/router.rs:1183-1205 | An exhaustion cools its group and every key in it until the cooldown ends, leaves the deadlines of all else that lie ahead, and unpins the group. |
| Outcomes.QuotaCooldownIsCapped | src/upstream.rs:645-649 | That cooldown is the hint, kept between 1 ms and the configured cap or a day. |
| Outcomes.CircuitHears | src/router.rs:1320-1382 | The circuit of the dialed model hears of exactly one failure of the group after a generic 429, an overload or a retried 400, of one 404 after a 404, of nothing after other replies, and then of the probe if the guard held it; no other circuit hears of anything. |
| Outcomes.BreakerHears | src/upstream.rs:243-897 | The breaker counts an overload for lost connections, missed deadlines, transient statuses and broken bodies; a generic 429 is nothing to it, an exhaustion only when no route is left, and every other failure only frees its probe. |
| Outcomes.ExhaustionOpensExactly | src/upstream.rs:650-653 | An exhaustion opens the breaker exactly when no route is usable on the table with the exhaustion on it. |
| Outcomes.FailureUnpins | src/upstream.rs:553-897 | After a failure that is more than reported the request's own session is pinned nowhere. |
| RequestOutcomes.FailedDial | src/upstream.rs:242-297 | A failed dial is recorded with its own guard in hand, and a 429 without an authoritative hint with the strikes the key had when the reply came in. |
| RequestOutcomes.RejectedStaysRejected | docs/routing.md:91 | A key that answered 401 is never dialed again by the request, and no plan of anybody in any later run returns it. |
| RequestOutcomes.SuccessRestores | src/router.rs:1094-1144 | A success clears the key's cooldown and strikes, its route and group, closes the model's circuit and the breaker, touches nothing else, and pins the session on a first attempt only. |
| NextSteps.LastResortExactly | src/upstream.rs:995-1067 | After a failure that is neither an exhaustion nor a 404: another planned route is taken, else a known wait within the client-facing limit is slept, else the same route is dialed again after its cooldown if that is within the limit and a retry is left, else the request stops; only the last resort costs a retry. |
| NextSteps.ReportsItsLastReply | src/upstream.rs:553-920 | A request that gives up reports the status of its last reply; after a 429 it tells the client to come back exactly a quarter second after the deadline that was put on the route or the group, and after anything else it names no time. |
| NextSteps.NoRouteTellsTheClient | src/upstream.rs:1180-1215 | Without a route the client gets 429 with the least known wait of the scanned tiers, capped, plus a quarter second; 503 without a time only when every tier was scanned and everything untried is refused for a reason no time cures. |
| Failover.SparedKeepsOwn | src/router.rs:1628-1661 | Whatever steps other requests take, the guard a request holds and the streak it has read stay as they are. |
| FailoverRuns.RequestsAreRuns | src/upstream.rs:137-922 | A request and whatever other requests do between its steps are together one run of the shared table, in which the request acts through its own guards alone, takes one at a time, and nobody else acts through them; left alone, every step of that run is its own. |
| FailoverRuns.RunRotates | src/router.rs:980-998 | In every run the rotation only ever grows, by one a step at most, and the clock never falls. |
| FailoverRuns.RequestsConserveInflight | docs/routing.md:251-252 | However a request ends and whatever others do, every guard it took is gone and every in-flight count is the number of guards alive; left alone, it leaves guards and counts as it found them. |
| FailoverTheorems.StaysWithinBudget | docs/routing.md:210-214 | At most the budgeted dials, and every one but the last was a failure that may be retried, so nothing is dialed after a success. |
| FailoverTheorems.RetriesBounded | src/upstream.rs:1033-1063 | The same route is waited for at most as often as configured. |
| FailoverTheorems.SleepsAreBounded | src/router.rs:1717-1720 | No sleep of any request is longer than a day, from any world a run can reach and whatever other requests do. |
| FailoverTheorems.DecisionSleeps | src/upstream.rs:1033-1063 | A wait for the same route stays within the client-facing limit. |
| FailoverTheorems.NeverDialsTwice | docs/routing.md:225-231 | With one key per group a request never dials an identity twice, whatever other requests do. |
| FailoverWitnesses.DialsDistinctExactly | src/router.rs:868-874 | No request that starts in a reachable world dials an identity twice, whatever steps other requests take, exactly when no group holds two keys. |
| FailoverWitnesses.SharedGroupIsRedialed | src/router.rs:980-998 | Two keys or more in a group: a request refused with 403 dials the very same key again once its own follow-up and plans of other requests, which touch nothing else, have brought that key's turn round. |
| FailoverTheorems.FailsOverWhenPossible | docs/routing.md:160-172 | No retryable failure stops a request while a tier the scan reaches holds an untried route that can be dialed and nothing of the exhausted group or missing route comes back. |
| FailoverTheorems.FailsOverExactly | src/upstream.rs:1071-1175 | In any world and after any failure, every request, whatever it asks for and has tried, goes on while something is left exactly when nothing of what failed comes back: after an exhaustion no dialable candidate of that group, after a 404 no dialable candidate that would be dialed under the failed identity. |
| FailoverTheorems.FailureTakesOut | src/router.rs:1183-1205 | Recording an exhaustion or a 404 sets that group's or route's deadline to the end of its cooldown, and counting usable routes and dropping the guard leave it. |
| FailoverTheorems.StillOutAtTheDecision | src/router.rs:1183-1262 | It is still out when the request decides if its cooldown has not passed by then and no other request in between succeeded on it or exhausted the group again. |
| FailoverTheorems.GuardsNeverStop | src/upstream.rs:1088-1119 | While nothing of what failed comes back, the request goes on exactly when the planner finds anything: comparing group or identity never ends it. |
| FailoverTheorems.GivesUpOnlyWhenNothingIsLeft | src/upstream.rs:995-1067 | A request that reports its last failure had spent its budget, got an unclassified error, had something of what failed come back, or had nothing left to dial in the very world the decision was made in. |
| FailoverTheorems.GivesUpWithNothingLeft | docs/routing.md:160-172 | A request that gives up within its budget on a classified error had nothing left to dial, provided that between its recording an exhaustion or a 404 and its decision the cooldown did not run out and no other request succeeded on that group or route or exhausted the group again. |
| FailoverWitnesses.GivesUpWithARouteLeft | src/upstream.rs:1088-1119 | Without that proviso it fails: a request on two keys of one group whose exhaustion cools for a millisecond, five of which pass before it decides, gives up after one of two attempts although the other key can be dialed. |
| FailoverTheorems.NoRouteMeansNothingIsLeft | src/upstream.rs:176-187 | No route is reported only when nothing untried could be dialed in the world the plan was made in, and the breaker is then left as it stood. |
| FailoverTheorems.PlanWaitBounded | src/router.rs:1717-1720 | No plan reports a wait of more than a day on a table any run can reach. |
| FailoverTheorems.FollowupWaitBounded | src/router.rs:1068-1092 | No follow-up asks for a sleep of more than a day, and one without a target for none beyond the client-facing limit. |
| FailoverTheorems.PlannedFollowupSleepsExactly | src/router.rs:1080-1083 | When the follow-up finds a route, the request sleeps for the least known wait of that route's tier, and goes on at once exactly when nothing untried there is known to come back. |
| FailoverWitnesses.SleepsThoughARouteIsReady | docs/routing.md:200 | A reachable table on which a route is ready and the request sleeps five seconds. |
| Sse.SseDecoder.Push | src/sse.rs:25-46 | The draining loop is the line-by-line definition, including the sticky overflow. |
| Sse.SseDecoder.Finish | src/sse.rs:48-59 | The flush takes the unterminated line and dispatches what is pending. |
| SseTheorems.DrainMeans | src/sse.rs:30-45 | Draining a buffer is splitting it at LF and feeding the lines, refused exactly when some line makes the pending data too large. |
| SseTheorems.PushKeepsSound | src/sse.rs:25-46 | Between chunks the buffer holds no LF, the byte count is the sum of the pending lines, and an overflow is never forgotten. |
| SseTheorems.ChunkingIsInvisible | src/sse.rs:200-226 | However the bytes are cut, an accepted stream yields the events and the final state of the whole string. |
| SseTheorems.AcceptedCutsAgree | src/sse.rs:200-226 | Two accepted cuts of the same bytes agree, the final flush included. |
| SseTheorems.MergesExactly | src/sse.rs:25-46 | Two chunks are accepted as one exactly when both are accepted and buffer and chunks fit the limit together, with the same events. |
| SseTheorems.EveryCutIsAccepted | src/sse.rs:25-46 | Bytes accepted in one piece are accepted however they are cut. |
| SseTheorems.RoundTrip | src/sse.rs:61-87 | Printing frames and decoding the bytes gives their events back with nothing pending: lines ended by LF or CR LF, the space after the colon present or not, the last name kept, comments and other fields ignored, frames without data dropped. |
| SseTheorems.JoinSplits | src/sse.rs:76-86 | Splitting an event's data at LF gives its data lines back. |
| SseTheorems.FlushEndsTheLine | src/sse.rs:48-59 | The final flush gives the events that two line ends would have, unless the unfinished line ends in CR. |
| StreamPumps.RequestScope.Record | src/server.rs:765-773 | Only the first outcome is recorded. |
| StreamPumps.RequestScope.Drop | src/server.rs:804-818 | A scope dropped without an outcome records that the client left. |
| StreamPumps.StreamPump.Process | src/server.rs:657-709 | The event loop skips pings and terminators, counts tool uses, notes the stop, and ends on invalid data or an error event. |
| StreamPumps.StreamPump.StreamBody | src/server.rs:508-635 | The pump loop computes the specified output and verdict for every upstream, ping schedule and client. |
| StreamPumpTheorems.OutputShape | src/server.rs:508-635 | Without pings the output is the first chunk, then later ones in order, then at most one error frame and nothing after it; exactly one verdict is recorded, and it matches the frame. For a client that stays, every chunk taken was forwarded but one that was itself refused, and every failure the upstream did not report itself is told in exactly one frame. |
| StreamEndings.BrokenTransport | src/server.rs:586-599 | For a client that stays and a stream that has decided nothing, a broken transport is recorded as an interruption and told in the interruption frame, after every chunk so far and one ping for every tick, whatever is left half-read. |
| StreamEndings.AbandonedStream | src/server.rs:804-818 | A client that leaves meanwhile is recorded as such and nothing more is written. |
| StreamEndings.LeavesOverAChunk | src/server.rs:569-572 | So is one that leaves as it is handed a chunk, whatever the chunk says. |
| StreamEndings.OversizedChunk | src/server.rs:561-569 | A chunk that outgrows the limit is not forwarded and ends the stream as a protocol error with its frame. |
| StreamEndings.OversizedFirstChunk | src/server.rs:508-560 | A first chunk that is too large is forwarded, then the frame. |
| StreamEndings.EndedWithoutStop | src/server.rs:600-625 | A body that ends without a stop, the flush included, is recorded as ended early and told so. |
| StreamEndings.CompleteMeans | src/server.rs:508-635 | For every client and upstream a stream is complete only when some prefix of chunks and pings was accepted and its events hold a stop and exactly the tool uses reported; when only the flush supplies the stop, that prefix is the whole body. |
| StreamPumpTheorems.QuietExactly | src/server.rs:681-706 | After a stop the remaining events leave the verdict alone exactly when none of them counts a tool use or fails. |
| StreamPumpTheorems.QuietStreamVerdict | src/server.rs:508-635 | For a client that stays, any accepted cut and any pings give a quiet stream the verdict of the whole byte string. |
| StreamPumpTheorems.VerdictIgnoresCutsExactly | src/server.rs:508-635 | For bytes within the size limit the verdict is independent of chunking exactly when nothing after the first message_stop counts a tool use or fails. |
| CircuitBreakers.CircuitBreaker.Admit | src/circuit.rs:80-109 | One admission check: allowed when closed, one probe once the open time has passed, refused with the remaining time otherwise. |
| CircuitBreakers.CircuitBreaker.RecordSuccess | src/circuit.rs:111-116 | Closes and clears. |
| CircuitBreakers.CircuitBreaker.RecordQuotaExhaustion | src/circuit.rs:119-127 | Opens until the capped reset. |
| CircuitBreakers.CircuitBreaker.RecordOverload | src/circuit.rs:131-150 | Prunes, appends, and opens on a failed probe or at the threshold. |
| CircuitBreakers.WindowIsExact | src/circuit.rs:131-150 | In every reachable state the list is shorter than the threshold and is exactly the overloads since the last clear that were inside the window at the latest one. |
| CircuitBreakers.RecentMeans | src/circuit.rs:134-136 | What stays in the window is every instant no older than the window, as often as it was recorded. |
| CircuitBreakers.OpensExactly | src/circuit.rs:131-150 | A closed breaker opens on an overload exactly when the unpruned log has the threshold inside the window. |
| CircuitBreakers.OverloadShuts | src/circuit.rs:80-150 | From the overload at t that opens the breaker, until a success, an exhaustion or another overload, everybody who asks before t + the open period is refused with exactly the rest of it, and the first to ask at or after it is let through. |
| CircuitBreakers.ExhaustionShuts | src/circuit.rs:119-127 | The same after an exhaustion, for its reset time or 366 days, whichever is less. |
| CircuitBreakers.ProbeKeepsOthersOut | src/circuit.rs:98-108 | While a granted probe has no outcome everybody else is refused for a second. |
| CircuitBreakers.FreedProbeIsGrantedAgain | src/circuit.rs:152-160 | An outcome that says nothing about the upstream hands the probe to the next who asks. |
| CircuitBreakers.ClosedAdmitsEverybody | src/circuit.rs:80-84 | Until an exhaustion, or an overload that meets the threshold inside the window, everybody is let through. |
| CircuitBreakers.OutcomeBetweenProbes | src/circuit.rs:80-109 | Between two admissions granted while not closed some outcome was recorded. |
| RetryDuration.ParseRetryDuration | src/rate_limit.rs:353-409 | The scan over positions terminates, computes the specified value, and never exceeds 366 days. |
| RetryDuration.AddComponents | src/rate_limit.rs:367-403 | The component loop is the recursive reading of the text from its start. |
| RetryDuration.FindMarker | src/rate_limit.rs:356-361 | The text after the first marker that occurs, in order of preference. |
| RetryDurationTheorems.ReadsAll | src/rate_limit.rs:371-403 | Reading a printed list adds its exact total, and overflows only when the total exceeds 128 bits. |
| RetryDurationTheorems.ParsesExactly | src/rate_limit.rs:353-409 | For every non-empty list of components, separators and gaps, before text that does not continue it, the parse is the exact total up to 366 days and nothing beyond. |
| RetryDurationTheorems.PrintedDurationsRoundTrip | src/rate_limit.rs:349-353 | The same for a list alone or led by any of the three phrases, in any letter case. |
| RetryDurationTheorems.DurationsAreFound | src/rate_limit.rs:353-366 | Anywhere in a message, in any letter case: behind the first listed phrase that occurs, at its first place, the list of components is parsed to its exact total up to 366 days and nothing beyond. |
| RetryDurationTheorems.FindMeans | src/rate_limit.rs:356-361 | The search finds the first place where a phrase stands, and fails only if there is none. |
| RetryDurationTheorems.NegativeDurationsAreRefused | src/rate_limit.rs:363-366 | A minus sign between a marker and the list refuses it, whatever follows. |
| RetryDurationTheorems.MarkedText | src/rate_limit.rs:356-361 | Each phrase is skipped when it leads a duration. |
| RetryDurationTheorems.NumeralReads | src/rate_limit.rs:378-383 | Reading decimal notation gives the number back. |
| Admission.AdmissionController.TryAcquireOwned | src/concurrency.rs:60-65 | Takes a permit exactly when one is free. |
| Admission.AdmissionController.LoadWaiting | src/concurrency.rs:66-68 | Refuses exactly when the counter it reads has reached the capacity. |
| Admission.AdmissionController.LeaveQueue | src/concurrency.rs:38-42 | Dropping the waiting guard lowers the counter, after a grant and after a timeout. |
| AdmissionTheorems.StepKeepsInv | src/concurrency.rs:58-83 | Every single access by any task keeps permits, counter and bounds. |
| AdmissionTheorems.PermitsAndCounterAreExact | src/concurrency.rs:58-83 | In every interleaving, cancellation included, the permits out never exceed the limit, and the counter is the tasks with a waiting guard plus those between increment and guard, so it never underflows. |
| AdmissionTheorems.WaitingIsBounded | src/concurrency.rs:66-72 | Waiting tasks plus tasks between check and increment never exceed capacity + workers - 1. |
| AdmissionTheorems.BoundIsReached | src/concurrency.rs:66-72 | Some interleaving reaches that bound. |
| AdmissionTheorems.CapacityHoldsExactly | src/concurrency.rs:1-8 | The queue stays within its capacity in every interleaving exactly when there is one worker. |
| AdmissionTheorems.FreePermitIsTaken | src/concurrency.rs:58-65 | A task that finds a permit free holds it at once and is never counted as waiting. |
| AdmissionTheorems.WaiterIsServed | src/concurrency.rs:73-83 | A waiting task takes a permit that comes free and gives its place up. |
| AdmissionTheorems.TurnedAwayOnly | src/concurrency.rs:66-83 | A task is turned away only at a full queue, after its deadline or by its own cancellation. |
| KeyTable.AlignedExactly | src/router.rs:474-483 | Every key state is looked up under its own key exactly when no disabled key is configured before an enabled one. |

## Left out

- HTTP, TLS, request and response bodies, JSON and UTF-8 repair: the upstream is an arbitrary script of replies, and payload tests and text repair are parameters.
- Latency averages (floating point): a key carries an arbitrary natural latency cost. Jitter is an arbitrary real.
- Durations below a millisecond: time is counted in whole milliseconds.
- Wrap-around of the 64-bit rotation counter, saturation of scores, counters and tool counts, and the decoder's saturating length additions.
- Metrics other than the circuit-open counter, and all logging.
- RouteTables.RouteTable: keys are looked up by position; the configured index is assumed equal to it, see KeyTable.AlignedExactly. Names are hashed by an arbitrary function, and injectivity is assumed only where a row says so.
- RouteTables.RouteTable.NoteSessionRoute: which of several pins of equal expiry is dropped is left open.
- RouteTables.RouteTable.UsableRouteCount: without injective hashes only that the count does not exceed the usable routes.
- Failover.Core.Record: noting the outcome, breaking the affinity and counting usable routes are one step; other requests act before and after it.
- Failover.Core.SendMessages: the Retry-After of the exhausted-at-head exit, which only a zero budget reaches, is not computed. A sleep takes no step of its own: time passes in the steps of other requests, in any amount.
- Runs.Step: a call that records an outcome or takes a guard is one step, though the code takes its locks one after another; reading the streak before a 429 is recorded is a step of its own.
- Classifying an error response and choosing among retry hints: a reply carries its class, and a 429 its hint, authoritative or fallback.
- Sse.SseDecoder.Push: the size limit is on the buffer and on the data bytes, as in the code; empty data lines and joining newlines are not counted, so total memory is not bounded by it.
- StreamPumpTheorems.QuietStreamVerdict: for clients that stay and upstreams that neither break off nor overstep the limit; other endings are covered by OutputShape.
- Pings are not kept out of a partly forwarded event, and nothing is claimed about it.
- Every global half-open probe being released: rate-limited and cancelled attempts record nothing, so it is not claimed. Nor is a single half-open probe per model across overlapping guards.
- Admission.AdmissionController: the semaphore's own queue order and a permit granted to a task cancelled at that instant.
- Configuration loading, model name resolution, authentication, redaction, the metrics endpoint and graceful shutdown.
