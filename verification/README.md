# TideGate, modelled and proved in Dafny

TideGate is an LLM gateway: it admits requests against per-tenant quotas kept in Redis, routes them over
upstream deployments, retries, caches and streams the answers, and writes usage to a ledger. What it promises
about quotas, retries, caching and accounting has to survive any interleaving of requests and any failure of
the parts around it. This project models those parts and proves the promises over all runs.

Each component has one file with the operations and, where the promise is about runs, a second one:

| part | files |
|---|---|
| Quota scripts as atomic steps over one tenant's keys | `QuotaScripts`, `Reservations`, `TokenBucket` |
| Their runs: conservation, admission bounds, release, sweeping, retry times, rejections | `QuotaRuns`, `QuotaTheorems`, `QuotaDeadlines`, `QuotaDecisions`, `QuotaRejections` |
| Callers of the scripts, and the limiter that stands in for them | `QuotaService`, `LocalFallback` |
| Retry loops with their reservation | `Settlement`, `Attempts`, `NonStream`, `NonStreamReach`, `Stream`, `StreamSafety`, `StreamReach`, `StreamEndings`, `StreamHedges`, `StreamBilling` |
| A request's quota calls amid everything else, answered, refused or lost | `RequestRuns`, `RequestCalls`, `RequestLoops`, `RequestLegal` |
| Collapsing of identical requests | `SingleFlight`, `Collapse` |
| Routing | `Breaker`, `BreakerRuns`, `BreakerTransitions`, `BreakerStuck`, `HedgeBudget`, `Routing`, `Ladder` |
| Authentication cache | `AuthCache`, `AuthMiddleware` |
| Usage ledger | `LedgerBatcher`, `LedgerRuns`, `LedgerLosses` |

Everything is checked by `dafny verify dfyconfig.toml`.

## How it is modelled

Objects that the program updates in place are classes whose methods are proved against functions of the old
state; a run is a sequence of such steps, and the run theorems are about the functions. Between two awaits a
request handler cannot be interrupted, so one step of a protocol is what happens between two awaits. Upstreams,
Redis, Postgres, clocks and random draws are inputs that may take any value. Bucket levels, rates, times and
moving averages are real numbers; money is in whole micro-USD.

Assumptions of the quota theorems, each of which the program either guarantees or relies on:

* Limits are not negative, and the plan of a tenant does not change during a run. The conservation laws
  (`TpmConservation`, `BudgetConservation`, `WhereAdmissionsEnd`) and `RpmWindowBound` need nothing else of ids,
  costs, usage or sweeps.
* Where bounds are involved, estimates cost at least one token (`src/tidegate/quota/estimator.py:70`), and usage
  and money are not negative.
* Where nothing is to be lost, a request id is reserved only while it is not outstanding. `FreshIdKeepsIndex` shows
  that the tables agree exactly under this condition, and `OverwritesLeak` what a run without it costs. A tenant's
  run meets it iff every request reserves its own id only while that is free (`AllFreshIsLegal`). The retry loops do
  as long as Redis is reliable (`NonStreamRequest`, `StreamRequest`, `ReliableRunsAreLegal`); `FreshIff` says
  exactly when they do if it is not.
* Where a bound speaks of elapsed time, the clock readings do not go back. The scripts ignore a negative step
  but still move the stored time back, so that the same interval is refilled twice: `RewoundClockBreaksBound`.
  The conservation law itself holds for any clock, over the time the clock moved forward.

## What turned out not to hold

* A stale cached answer can follow partial data of a failed upstream in one stream: exactly if an upstream that
  is opened fails after showing data and a stale answer is at hand (`OneSourceIff`). `StaleReplayMixesSources`
  gives a run.
* A completed stream whose upstream reports no usage is charged, and its followers are answered, with the usage
  that an earlier failed attempt of the same request reported: `CompletedCharge` says exactly when,
  `EarlierReportIsCharged` gives a run.
* A rejected reserve attempt can turn a later admission into a rejection if a settle above its estimate comes
  between: `RejectionSwaysAdmission` says exactly when, `RejectionIsNoticed` gives a run.
* A settle that never reaches Redis is only logged (`src/tidegate/quota/service.py:161-163`), and a reserve whose
  answer is lost may have run. If the loop then reserves again, it overwrites its own entry: the counter stays one
  too high with nothing left to sweep, and the tokens and the money of the overwritten estimate are never given
  back. `FreshIff` says exactly when, `OverwritesLeak` how much, `LostCallsLeak` gives both runs.
* A tenant can be served from the cache after its removal. While a reload is under way the new configuration
  carries the old version (`src/tidegate/api/admin.py:47-61`, `src/tidegate/config/reloader.py:34`), and until the
  new one is set nothing is dropped: `ReloadGapServesRemoved`. Startup puts the stored tenants in place under the
  version whose fingerprints are already recorded (`src/tidegate/app.py:120-123`), so that a later removal under a
  new version is not noticed for them either: `StartupTenantOutlivesRemoval`. `ServedAsScannedIff` says exactly
  when, for runs with any versions.
* A leader cancelled between taking its flight and calling upstream never gives the flight back
  (`AbandonedKeepsFlight`). `FlightComesBackIff` says that this is exactly when it does not come back,
  `CancelledLeaderKeepsFlight` gives a run.
* A half-open breaker whose probes are all aborted or rate-limited refuses every later call, however much time
  passes, until some result is recorded or it is forced open: `StuckNeverAdmits`, `StuckUntilFreed`,
  `StuckIsReached`.
* A hedge is picked from the first level on, and what it picks is not remembered as attempted: a retry may go to
  the deployment that has just failed as a hedge. `HedgesAside` says that only hedges repeat a deployment or fall
  back a level, `HedgeIsRetried` gives a run.
* Ledger and quota disagree on a streamed request exactly if usage is reported and a stale answer is replayed, when
  it is billed and refunded in full, or if none is reported and a reservation is settled, when assumed usage is
  charged and nothing billed: `BillingAgreesIff`, `BilledAndRefunded`.
* A half-open breaker may let through almost twice its number of probes: `HalfOpenBoundIsTight`.
* Usage assumed for an upstream that reported none can exceed the estimate: `FallbackUsageOvershoots`.
* A ledger record enqueued while a drain writes its last batch stays in the queue (`LateRecordStaysQueued`), and if
  that drain is the last one before closing it is lost without being counted (`ShutdownLosesLateRecord`).

## Model

| member | source | states |
|---|---|---|
| QuotaScripts.QuotaStore.CheckAndReserve | lua/check_and_reserve.lua:21-76 | one run of the script decides as `Decide` and changes all six keys as `Reserve`; a rejection still refills and seeds |
| QuotaScripts.QuotaStore.RefillBucket | lua/check_and_reserve.lua:21-34 | a missing bucket starts full, a known one refills to its cap, and the clock reading is stored |
| QuotaScripts.QuotaStore.SettleReservation | lua/settle.lua:12-42 | a held id swaps its estimate for the actual usage, in its own month; any other id changes nothing |
| QuotaScripts.QuotaStore.ExpiredRange | lua/sweep.lua:11 | the earliest expired ids, as many as the limit allows |
| QuotaScripts.QuotaStore.Sweep | lua/sweep.lua:11-44 | refunds what the range held in full and counts it |
| QuotaScripts.QuotaStore.SweepEntry | lua/sweep.lua:15-42 | one pass of the sweep loop: refund if held, drop from the index in any case |
| QuotaRuns.RunKeepsBalanced | lua/check_and_reserve.lua:43-76 | every run of the three scripts keeps the accounts balanced: tables, counter, tokens, requests, budgets and custody, overwritten entries included; nothing is assumed of ids, costs, usage, clocks or sweeps |
| QuotaRuns.RunKeepsBounds | lua/settle.lua:28-35 | with costs and usage not negative, levels stay within cap and overshoot, and nothing is clipped while no time passes |
| QuotaRuns.LegalRunsLoseNothing | lua/check_and_reserve.lua:66-74 | where every reserved id is free, nothing is overwritten |
| QuotaTheorems.SweepRefundsInFull | lua/sweep.lua:15-42 | whatever ids a sweep takes, it gives back exactly what they held: tokens up to the cap, money to each reservation's month, one place in the counter each |
| QuotaTheorems.OverwritesLeak | lua/check_and_reserve.lua:66-74 | in every run the counter exceeds the reservations by the number of overwritten entries, and their tokens and each month's money are gone |
| QuotaTheorems.TpmConservation | lua/settle.lua:28-35 | in every run tokens = cap + refill − settled − outstanding − overwritten − clipped |
| QuotaTheorems.TpmStaysBounded | lua/settle.lua:28-35 | tokens ≤ cap, tokens ≥ −overshoot, and nothing is clipped while no time passes |
| QuotaTheorems.TpmConservationOfFreshIds | lua/settle.lua:28-35 | the balance without loss where every reserved id is free |
| QuotaTheorems.AdmissionBound | lua/check_and_reserve.lua:21-67 | settled plus outstanding plus overwritten tokens ≤ cap + rate × elapsed + overshoot of settles, ids reserved twice or not |
| QuotaTheorems.AdmissionsAreSpends | lua/check_and_reserve.lua:51-64 | admissions in a window are exactly what the request bucket paid out in it |
| QuotaTheorems.RpmWindowBound | lua/check_and_reserve.lua:43-64 | in every run with a forward clock, admissions in any interval ≤ cap + rate × its length |
| QuotaTheorems.MinuteAdmitsTwice | lua/check_and_reserve.lua:21-34 | any 60 seconds admit at most twice the per-minute limit |
| QuotaTheorems.WhereAdmissionsEnd | lua/check_and_reserve.lua:57-74 | in every run each admission is settled once, swept once, overwritten, or held, and the counter stays within the plan |
| QuotaTheorems.ReleaseExactlyOnce | lua/check_and_reserve.lua:57-74 | where every reserved id is free: index, table and counter agree, and each admission is settled once, swept once, or held |
| QuotaTheorems.LateSettlesAreNoOps | lua/settle.lua:12-15 | a repeated settle, and a settle after the sweep, change nothing |
| QuotaTheorems.FreshIdKeepsIndex | lua/check_and_reserve.lua:66-74 | after an admission the tables agree iff the id was not outstanding |
| QuotaTheorems.RefundUndoesReserve | src/tidegate/quota/service.py:179-181 | a full refund restores everything but the request token and the lazy refill |
| QuotaTheorems.SweepsCountDown | lua/sweep.lua:11-42 | k sweeps leave max(0, n − k × limit) of n expired reservations |
| QuotaTheorems.SweepsTakeExpired | lua/sweep.lua:15-42 | sweeps take nothing but expired reservations, from index and table together |
| QuotaTheorems.SweepsClear | lua/sweep.lua:11-42 | exactly the expired reservations are gone iff k × limit reaches their number |
| QuotaTheorems.BudgetConservation | lua/settle.lua:17-36 | in every run and for every month: left + reserved + spent + overwritten = the month's budget, whichever month the scripts run in |
| QuotaTheorems.BudgetConservationOfFreshIds | lua/settle.lua:17-36 | the same without loss where every reserved id is free |
| QuotaRuns.RunKeepsBudgetBound | lua/settle.lua:30-36 | every run keeps each month's remainder above minus the excess of its settles over their estimates |
| QuotaTheorems.BudgetIsKept | lua/check_and_reserve.lua:60-67 | in every run no month is overdrawn but by what settles took above their estimates: spent + reserved + overwritten ≤ the month's budget + that excess |
| QuotaTheorems.FourLimits | lua/check_and_reserve.lua:43-62 | in every run a request is admitted iff the accounts show that requests, tokens, places and money cover it; otherwise it is rejected on the first that does not, in this order, and told a second where waiting is of no known use |
| QuotaDeadlines.IndexHoldsDeadlines | lua/check_and_reserve.lua:68 | in every run the index holds for each id the deadline given with its latest admission |
| QuotaDeadlines.DueAreSwept | lua/sweep.lua:11-42 | after any run, sweeps take a reservation only when its deadline has come, and with capacity for all that are due leave exactly the others |
| QuotaDeadlines.OldestAreSweptFirst | lua/sweep.lua:11 | what a sweep leaves of the expired is due no earlier than what it takes |
| QuotaDeadlines.RefundIsCutIff | lua/settle.lua:30-35 | a refund is cut iff a positive cap is set and exceeded, and then to that cap |
| TokenBucket.WindowBound | lua/check_and_reserve.lua:21-34 | a bucket pays out at most cap + rate × length in any window |
| TokenBucket.ForwardIsElapsed | lua/check_and_reserve.lua:28-30 | time the bucket counts equals elapsed time iff the clock never went back |
| TokenBucket.RewoundClockBreaksBound | lua/check_and_reserve.lua:28-32 | with a rewound clock the window bound fails |
| TokenBucket.RefillComposes | lua/check_and_reserve.lua:28-29 | refilling in two steps is refilling in one |
| TokenBucket.RefillCommutesWithRefund | lua/settle.lua:30-33 | refill and capped refund commute iff the refund is not negative or the refill does not overflow |
| QuotaDecisions.HeaderCoversWait | src/tidegate/quota/service.py:116-124 | the header's whole seconds cover the announced milliseconds |
| QuotaDecisions.TpmRetryAfterIsExact | lua/check_and_reserve.lua:36-56 | after a rejection on tokens, the buckets still refuse iff less than the announced time passed, the rate is zero, or the cost exceeds the cap |
| QuotaDecisions.RpmRetryAfterIsExact | lua/check_and_reserve.lua:36-53 | the same for a rejection on the request rate |
| QuotaDecisions.HeaderIsSufficient | src/tidegate/api/errors.py:73-75 | waiting the Retry-After header (section 10.2.3 of RFC 9110) clears the limit that rejected |
| QuotaDecisions.RejectionsUnobservable | lua/check_and_reserve.lua:21-62 | removing any rejected attempts from a run leaves every other outcome as it was |
| QuotaDecisions.RejectionBeforeSettle | lua/settle.lua:30-35 | a rejected attempt before a settle leaves the token level as it would be iff the settle refunds nothing negative or the attempt clipped nothing |
| QuotaRejections.RejectionSwaysAdmission | lua/check_and_reserve.lua:51-62 | a rejected attempt before a settle changes a later admission iff the settle exceeds its estimate and the later cost exceeds cap − excess + refill since, while it is admitted without the attempt |
| QuotaRejections.RejectionIsNoticed | lua/check_and_reserve.lua:21-62 | a run from the empty keys whose outcomes change when its rejected attempt is dropped |
| QuotaService.FallbackUsageOvershoots | src/tidegate/quota/service.py:310-320 | assumed usage stays within the estimate iff no more was forwarded than the estimate's output share |
| QuotaService.FallbackUsageParts | src/tidegate/quota/service.py:310-320 | assumed output is what was forwarded, assumed input the rest of the estimate, neither negative |
| QuotaService.ChargeCoversCost | src/tidegate/quota/service.py:322-327 | the charge is the least whole micro-USD that covers input and output at their own prices |
| QuotaService.Service.Reserve | src/tidegate/quota/service.py:75-133 | an answer of Redis decides; without one the fail mode does, through the local limiter, and Redis may have moved all the same |
| QuotaService.Service.Settle | src/tidegate/quota/service.py:135-177 | the keys are settled once although the script may run twice, iff a call ran; a fallback reservation touches nothing |
| QuotaService.Service.RefundFull | src/tidegate/quota/service.py:179-181 | a full refund is one settle at zero usage |
| LocalFallback.LocalFallbackLimiter.Allow | src/tidegate/quota/local_fallback.py:22-55 | both buckets are refilled; both are debited or neither |
| LocalFallback.FallbackBound | src/tidegate/quota/local_fallback.py:22-55 | in any window a tenant is admitted at most cap + rate × length, in requests and in tokens, without overshoot |
| LocalFallback.AllowsIff | src/tidegate/quota/local_fallback.py:22-55 | in every run a call is allowed iff its tenant's buckets, full at the first call and refilled since the last, cover it |
| LocalFallback.FleetKeepsPlan | src/tidegate/quota/local_fallback.py:23-25 | the instances together allow the plan, or one a minute each if it has less to share |
| LocalFallback.RejectionDebitsNothing | src/tidegate/quota/local_fallback.py:32-37 | after a rejection every later level of every tenant reads as if the call had not come, first call or not |
| Breaker.CircuitBreaker.CanTry | src/tidegate/routing/breaker.py:33-40 | refreshes and answers whether a call would be admitted, taking no probe |
| Breaker.CircuitBreaker.AllowCall | src/tidegate/routing/breaker.py:42-51 | admits and takes a probe slot when half-open |
| Breaker.CircuitBreaker.RefreshState | src/tidegate/routing/breaker.py:53-60 | an open breaker whose time is up turns half-open with both counters at zero |
| Breaker.CircuitBreaker.RecordOutcome | src/tidegate/routing/breaker.py:62-76 | a result moves the breaker as `Record` says: half-open closes or reopens, otherwise the window decides |
| Breaker.CircuitBreaker.ForceOpenFor | src/tidegate/routing/breaker.py:86-90 | opens for the remaining time and gives up probes |
| BreakerRuns.HalfOpenBound | src/tidegate/routing/breaker.py:42-71 | one HALF_OPEN episode admits at most 2 × probes − 1 calls; the counters stay in their bounds and are zero outside |
| BreakerRuns.HalfOpenBoundIsTight | src/tidegate/routing/breaker.py:42-71 | for every number of probes a run attains that bound |
| BreakerRuns.WindowIsRecentLog | src/tidegate/routing/breaker.py:62-76 | the window is the last outcomes outside HALF_OPEN since the last close, and CLOSED means too few or too few failures |
| BreakerRuns.CooldownsNeverShrink | src/tidegate/routing/breaker.py:98-107 | the k-th opening without a close lasts min(max, base × 2^(k−1)), never less than the one before |
| BreakerRuns.CooldownsDouble | src/tidegate/routing/breaker.py:98-107 | the first opening since a close lasts the base, each later one twice as long, up to the maximum |
| BreakerRuns.RecoversAfterProbes | src/tidegate/routing/breaker.py:53-71 | after the cooldown the breaker closes on exactly the last of its successful probes, with an empty window |
| BreakerTransitions.ClosedOpensIff | src/tidegate/routing/breaker.py:72-76 | a closed breaker admits, and opens iff an outcome completes a window with enough outcomes and enough failures; then it refuses for exactly the next cooldown |
| BreakerTransitions.OpenWaits | src/tidegate/routing/breaker.py:53-60 | no late result moves an open breaker; it turns half-open exactly when its time has come |
| BreakerTransitions.ForcedRefusesFor | src/tidegate/routing/breaker.py:86-90 | a forced opening refuses for exactly the time given |
| BreakerTransitions.EpisodeSucceeds | src/tidegate/routing/breaker.py:62-71 | in HALF_OPEN all results of the episode were successes, fewer than the probes |
| BreakerTransitions.HalfOpenMovesIff | src/tidegate/routing/breaker.py:62-71 | a half-open breaker closes iff this is the last of `probes` successes of the episode; a failure opens it for exactly the next cooldown |
| BreakerStuck.StuckNeverAdmits | src/tidegate/routing/breaker.py:33-51 | a breaker refuses at every instant iff it is half-open with all probe slots taken |
| BreakerStuck.StuckUntilFreed | src/tidegate/routing/breaker.py:42-90 | it stays so through every run without a recorded result or forced opening, and either frees it |
| BreakerStuck.StuckIsReached | src/tidegate/routing/breaker.py:42-51 | for every number of probes a run without any recorded result reaches this |
| HedgeBudget.HedgeBudget.RecordRequest | src/tidegate/routing/hedge.py:17-20 | prunes, then appends the request |
| HedgeBudget.HedgeBudget.Allow | src/tidegate/routing/hedge.py:22-29 | prunes, then grants and appends iff one more stays within the ratio |
| HedgeBudget.HedgeBudget.Prune | src/tidegate/routing/hedge.py:31-36 | drops exactly the old front of both deques |
| HedgeBudget.DequesAreWindow | src/tidegate/routing/hedge.py:17-36 | the deques hold exactly the in-window part of the full history |
| HedgeBudget.GrantedIffAffordable | src/tidegate/routing/hedge.py:22-29 | a hedge is granted iff in-window grants + 1 ≤ ratio × max(1, in-window requests), counted in the full history |
| HedgeBudget.WindowedGrants | src/tidegate/routing/hedge.py:22-36 | any window [t − w, t] holds at most ratio × max(1, requests in [t − 2w, t]) grants |
| Routing.EwmaBetween | src/tidegate/routing/stats.py:151-154 | a moving average stays between its bounds |
| Routing.EwmaMoves | src/tidegate/routing/stats.py:151-154 | the first sample is taken as it is, each later one moves the average by its share of the difference |
| Routing.RoutingState.RecordStart | src/tidegate/routing/stats.py:46-49 | refuses iff the breaker does; otherwise one more call is in flight |
| Routing.RoutingState.RecordAbort | src/tidegate/routing/stats.py:51-53 | one call less in flight, nothing else |
| Routing.UnrecordedCallKeepsSlot | src/tidegate/routing/stats.py:46-99 | aborting or rate-limiting a started call restores its statistics up to a longer cooldown, and leaves the breaker's probe slot taken |
| Routing.RoutingState.RecordFinish | src/tidegate/routing/stats.py:55-87 | statistics and breaker learn the verdict, a slow first token counting as a failure |
| Routing.FinishLearns | src/tidegate/routing/stats.py:55-87 | a finished call gives back its place, and its first-token time, if any, moves that average and nothing else does |
| Routing.ErrorRateEnds | src/tidegate/routing/stats.py:55-87 | calls that all succeed in time leave an error rate of 0, calls that all fail or are slow one of 1 |
| Routing.RoutingState.RecordRateLimit | src/tidegate/routing/stats.py:89-99 | one call less in flight, and a cooldown that never shrinks; the breaker learns nothing |
| Routing.RateLimitedIsSkipped | src/tidegate/routing/stats.py:89-99 | a rate-limited deployment is not picked before its time |
| Routing.RoutingState.RefreshBreaker | src/tidegate/routing/stats.py:101-107 | brings one breaker up to date |
| Routing.Candidates | src/tidegate/routing/selector.py:21-35 | the candidates are exactly the group's eligible deployments |
| Routing.P2CSelector.Pick | src/tidegate/routing/selector.py:21-48 | the first half-open candidate, else the only one, else the lower score of a pair; a call to it then starts at any later time |
| Routing.P2CSelector.CandidateAllowed | src/tidegate/routing/selector.py:50-62 | weight, exclusion and cooldown are checked before the breaker is refreshed |
| Routing.PickIsEligible | src/tidegate/routing/selector.py:21-62 | nothing is picked iff nothing is eligible; a pick is in the group and eligible |
| Routing.PickIsUsable | src/tidegate/routing/selector.py:50-62 | a pick has weight, was not tried, is not cooling down and its breaker lets calls through; there is none iff no deployment of the group is so |
| Routing.ProbesGoFirst | src/tidegate/routing/selector.py:37-43 | the first usable deployment that is probing is picked before any other |
| Routing.PickIsAdmitted | src/tidegate/routing/stats.py:46-49 | after a pick, `record_start` at any later time is not refused |
| Routing.DominatedNeverPicked | src/tidegate/routing/selector.py:44-95 | a candidate worse than every other is never picked while none is half-open |
| Ladder.Levels | src/tidegate/routing/ladder.py:21-37 | the levels are the known candidates, each once, where it first comes up |
| Ladder.Append | src/tidegate/routing/ladder.py:50-64 | one candidate is appended iff it is known and not seen |
| Ladder.KeptIsFirstMentions | src/tidegate/routing/ladder.py:21-64 | each level is the first mention of a known group, in the order of those mentions |
| Ladder.LadderLevels | src/tidegate/routing/ladder.py:21-37 | names are distinct, exactly the known ones of request, chain beyond it and smaller model, the requested one first |
| Ladder.LadderOrder | src/tidegate/routing/ladder.py:21-37 | the requested group alone at the top, then fallbacks in the chain's order, then the smaller model, each marked as such |
| Attempts.PickFrom | src/tidegate/api/routes.py:1253-1270 | a pick is an unused deployment of a level not below the current one |
| Attempts.PickIsFirstOffer | src/tidegate/api/routes.py:1253-1270 | the pick is the offer of the first level from the current one on that makes any; none iff none does |
| Attempts.PickOverSelector | src/tidegate/api/routes.py:1273-1291 | over the selector's own answers nothing is filtered: a pick is its choice in the first level with an eligible deployment, and there is none iff no level has any |
| Attempts.PickNextAttempt | src/tidegate/api/routes.py:1253-1270 | the loop over levels finds the first that offers a deployment |
| Attempts.RetryableIsTransient | src/tidegate/api/routes.py:1213-1217 | another deployment is tried after three categories of failure only |
| Settlement.QuotaSettlement.SettleOnce | src/tidegate/api/routes.py:1625-1632 | settles unless released already; reported usage wins over captured usage |
| Settlement.QuotaSettlement.RefundFull | src/tidegate/api/routes.py:1634-1639 | refunds unless released already |
| Settlement.ReserveQuota | src/tidegate/api/routes.py:1642-1671 | the call is made in any case; granted it is one open settlement, refused nothing to release |
| NonStream.CallUpstream | src/tidegate/api/routes.py:1083-1250 | the loop with its live settlement does what `Proceed` says, and a leader's flight is resolved or rejected, and released, on every way out |
| NonStream.TryOnce | src/tidegate/api/routes.py:1105-1220 | one iteration: pick, reserve if nothing is held, start, call, settle |
| NonStream.Conclude | src/tidegate/api/routes.py:1211-1243 | after the last attempt: stale answer with a refund, or the last error after a settle |
| NonStream.RetryDiscipline | src/tidegate/api/routes.py:1099-1243 | distinct deployments, levels never fall back, one reservation at a time and none left, at most the allowed dispatches; reported usage is charged only for the returned response, and every other upstream call that does not crash is charged assumed usage once |
| NonStream.UnusedIsRefundedIfStale | src/tidegate/api/routes.py:1219-1243 | a reservation no upstream used is refunded if a stale answer is served and charged only if the request ends in an error |
| NonStreamReach.LoopForetold | src/tidegate/api/routes.py:1099-1243 | from the inputs alone: which upstreams are called, in order, and what the request gets, by cases on the attempt that lets no other follow |
| NonStreamReach.FinalRepliesEnd | src/tidegate/api/routes.py:1140-1217 | an answer, and an error that is not transient, end the loop and are what the request gets |
| NonStream.PrefixesAreCovered | src/tidegate/api/routes.py:1117-1123 | the reservation discipline holds at every moment of a run, not only at its end |
| Stream.Render | src/tidegate/api/routes.py:342-380 | the chunks shown, the usage accumulated, and whether a data event left |
| StreamSafety.ShownOneForOne | src/tidegate/api/routes.py:342-380 | every idle slot is a heartbeat, every other item an event, but for usage nobody asked for |
| Stream.Receive | src/tidegate/api/routes.py:706-833 | one opened upstream: what the client sees, what becomes of flight and reservation, and whether to retry |
| Stream.TryOnce | src/tidegate/api/routes.py:670-833 | one iteration of the streaming loop |
| Stream.StreamWithRetries | src/tidegate/api/routes.py:641-905 | once the generator has started, the handler does what `Proceed` says; on every way out the reservation is settled or refunded once, reported usage is billed once, and the flight ended and released |
| StreamSafety.StreamShape | src/tidegate/api/routes.py:732-764 | data events come from one upstream at most, after nothing but heartbeats (comments, section 9.2 of the WHATWG HTML standard); [DONE] is last and single unless the run is interrupted |
| StreamEndings.FailureIsTold | src/tidegate/api/routes.py:859-870 | the error chunk is sent iff no stale answer is at hand and no opened upstream completes or interrupts the run, once, directly before the final [DONE] |
| StreamEndings.ReplayIsWhole | src/tidegate/api/routes.py:622-638 | a replay shows one event for each delta of the cached answer that the client would be shown, then [DONE] |
| StreamReach.OneSourceIff | src/tidegate/api/routes.py:826-859 | the client sees one source iff there is no stale answer or no upstream that picks, quota and earlier failures let open fails after showing data |
| StreamReach.OneSourceIfDataIsFinal | src/tidegate/api/routes.py:815-821 | scripts in which no upstream fails after data give one source, stale answer or not |
| StreamSafety.OneSourceWithoutStale | src/tidegate/api/routes.py:826-833 | without a stale answer at hand there is always one source |
| StreamSafety.StaleReplayMixesSources | src/tidegate/api/routes.py:826-859 | a run that mixes sources |
| StreamSafety.StreamPicks | src/tidegate/api/routes.py:675-689 | the loop's own picks go to distinct deployments at levels that never fall back |
| StreamHedges.HedgesAside | src/tidegate/api/routes.py:449-454 | the upstreams that answer are distinct, at levels that never fall back, unless a hedge won: only a hedge's deployment answers again, and the level falls only to or from a hedge |
| StreamHedges.HedgeIsRetried | src/tidegate/api/routes.py:449-454 | a run whose hedge answers below the current level, fails, and is retried on the same deployment |
| StreamReach.CompletesIff | src/tidegate/api/routes.py:738-765 | a run completes iff some upstream it opens finishes |
| StreamReach.CompletedCharge | src/tidegate/api/routes.py:757-774 | a completed stream is charged its own upstream's report iff that upstream made one or none opened before it had |
| StreamReach.EarlierReportIsCharged | src/tidegate/api/routes.py:757-774 | a run that settles the report of an attempt that failed |
| StreamBilling.BillingAgreesIff | src/tidegate/api/routes.py:766-905 | the ledger bills what the quota settles iff no report is followed by a stale answer and no reservation is settled without a report |
| StreamBilling.UsageIffReports | src/tidegate/api/routes.py:1742-1747 | a row is billed iff some opened upstream reports usage |
| StreamBilling.FollowersAreAnsweredIff | src/tidegate/api/routes.py:757-765 | followers get the stream's answer iff some opened upstream finishes and some reports usage |
| StreamBilling.BilledAndRefunded | src/tidegate/api/routes.py:834-905 | a run that is billed and refunded in full |
| StreamSafety.NothingLeftHeld | src/tidegate/api/routes.py:880-905 | after any run the request holds no reservation, and released none twice |
| RequestRuns.HeldIff | lua/settle.lua:12-40 | the id is outstanding iff some reserve of the request took it and neither a settle of it that reached Redis nor a sweep has come since |
| RequestRuns.FreshIff | src/tidegate/quota/service.py:75-177 | a request reserves its id only while free iff, before each run of the reserve script, every earlier reserve that took it was answered and its settle reached Redis, or a sweep took it |
| RequestRuns.NothingLeftIff | src/tidegate/quota/service.py:135-177 | such a request leaves nothing in the table iff the same holds at its end |
| RequestCalls.Ask | src/tidegate/quota/service.py:75-133 | a reserve carried out by the service is a step of the request: keys as the step says, a reservation in hand iff it does |
| RequestCalls.Release | src/tidegate/quota/service.py:135-181 | settling or refunding through the service moves the keys as the request's step says, with the first reply or the second |
| RequestLoops.CoveredIsInTurn | src/tidegate/api/routes.py:1117-1203 | the non-streaming loop reserves only where nothing is held and releases only where something is |
| RequestLoops.NonStreamRequest | src/tidegate/api/routes.py:1099-1243 | in any interleaving, with calls answered, refused or lost: the exact condition, met whenever Redis is reliable; then nothing is left unless the loop crashed |
| RequestLoops.StreamRequest | src/tidegate/api/routes.py:669-905 | the same for the streaming loop, whichever way the stream ends |
| RequestLoops.LostCallsLeak | src/tidegate/quota/service.py:161-163 | two runs of the retry loop, a lost settle and a lost answer, that leave the counter at one with nothing reserved, and the overwritten tokens and money gone |
| RequestLoops.RetryMakesTheseCalls | src/tidegate/api/routes.py:1117-1203 | the calls of these runs are those of a failure and a retry |
| RequestLegal.StepsAreScriptRuns | src/tidegate/quota/service.py:75-177 | a request's calls with their replies leave the tenant's keys as the script runs they amount to |
| RequestLegal.AllFreshIsLegal | src/tidegate/api/routes.py:1099-1243 | a tenant's run meets the quota theorems' condition on ids iff every request reserves its own id only while free |
| RequestLegal.ReliableRunsAreLegal | src/tidegate/api/routes.py:1099-1243 | with a reliable Redis and calls in turn, as the loops make them, it does |
| SingleFlight.SingleFlight.Acquire | src/tidegate/cache/singleflight.py:21-27 | exactly the caller that finds no future leads; the others share it |
| SingleFlight.SingleFlight.Resolve | src/tidegate/cache/singleflight.py:29-31 | the first outcome stays |
| SingleFlight.SingleFlight.Reject | src/tidegate/cache/singleflight.py:33-35 | the first outcome stays |
| SingleFlight.SingleFlight.Release | src/tidegate/cache/singleflight.py:37-38 | the key is free again, waiters keep their future |
| Collapse.StepKeepsOneLeader | src/tidegate/api/routes.py:959-1002 | at any moment at most one request leads, and it holds the flight |
| Collapse.CallsBounded | src/tidegate/api/routes.py:959-1002 | in every interleaving, leaders cancelled before their call included, calls ≤ 1 + lapses + follower fallbacks |
| Collapse.FlightsAreSettled | src/tidegate/api/routes.py:1169-1250 | in every interleaving a follower waits only for a flight its leader still has in hand |
| Collapse.FlightComesBackIff | src/tidegate/api/routes.py:982-1002 | when all requests are over the flight has been given back iff no leader was cancelled before its call |
| Collapse.CancelledLeaderKeepsFlight | src/tidegate/api/routes.py:982-988 | a run that keeps the flight |
| Collapse.AbandonedKeepsFlight | src/tidegate/api/routes.py:982-1002 | a leader cancelled before its call holds the flight from then on, and nobody else leads |
| Collapse.ExactlyOneCall | src/tidegate/api/routes.py:959-1002 | when nothing goes wrong, any number of identical requests end with the one answer of one upstream call |
| Collapse.AtMostOneCall | src/tidegate/api/routes.py:1169-1178 | at every moment of such a run, whoever has a response has that one |
| Collapse.SmoothRunsEnd | src/tidegate/api/routes.py:959-1002 | such a run takes at most eight steps a request |
| Collapse.SmoothNeverStuck | src/tidegate/api/routes.py:959-1002 | such a run can go on until every request has its response |
| AuthCache.AuthCache.Get | src/tidegate/api/middleware.py:36-45 | a live entry moves to the back, an expired one goes |
| AuthCache.AuthCache.Put | src/tidegate/api/middleware.py:47-57 | the key goes to the back with a new expiry; the front is evicted down to the capacity |
| AuthCache.AuthCache.InvalidateTenant | src/tidegate/api/middleware.py:59-61 | removes exactly the tenant's keys |
| AuthCache.AuthCache.Remove | src/tidegate/api/middleware.py:63-65 | the key leaves the entries and both indexes |
| AuthCache.AuthCache.RemoveIndex | src/tidegate/api/middleware.py:67-76 | both indexes stay inverse to each other, with no empty set |
| AuthCache.OrderIsLru | src/tidegate/api/middleware.py:36-57 | in every run the keys stand in order of last use, distinct, at most the capacity of them |
| AuthCache.ServedForTtl | src/tidegate/api/middleware.py:36-57 | in every run a cached tenant is the last one put, and served for exactly the time to live since then |
| AuthCache.PutEvictsOverflowOnly | src/tidegate/api/middleware.py:47-57 | a put evicts only what exceeds the capacity, least recently used first |
| AuthMiddleware.ConfigHolder.Replace | src/tidegate/config/holder.py:47-50 | the version changes only if one is given |
| AuthMiddleware.Middleware.Authenticate | src/tidegate/api/middleware.py:120-152 | serves what the up-to-date cache or else the scan finds, and caches it |
| AuthMiddleware.RequestRenews | src/tidegate/api/middleware.py:120-152 | a request that finds its tenant, cached or not, renews it for the whole time to live |
| AuthMiddleware.Middleware.ResetCacheIfConfigChanged | src/tidegate/api/middleware.py:156-174 | a new version drops changed and removed tenants, or starts anew if the cache settings changed |
| AuthMiddleware.Middleware.FindTenant | src/tidegate/api/middleware.py:176-180 | the first tenant with the key hash |
| AuthMiddleware.CachedEqualsScan | src/tidegate/api/middleware.py:125-180 | over every run whose configurations carry fresh versions, the tenant served is the one a scan finds |
| AuthMiddleware.ServedAsScannedIff | src/tidegate/api/middleware.py:125-180 | in every run, whatever the versions, all keys are served as scanned unless a live cached tenant is no tenant any more and no reset is due, or the due one has no or an unchanged fingerprint of it |
| AuthMiddleware.ReloadGapServesRemoved | src/tidegate/api/admin.py:47-61 | a run that serves a removed tenant before the new version is set |
| AuthMiddleware.StartupTenantOutlivesRemoval | src/tidegate/app.py:120-123 | a run that serves a tenant loaded at startup after its removal under a new version |
| LedgerBatcher.LedgerBatcher.Enqueue | src/tidegate/settlement/batcher.py:45-52 | appended, or counted as dropped when full, or ignored when closed |
| LedgerBatcher.LedgerBatcher.Get | src/tidegate/settlement/batcher.py:65-74 | the oldest record joins the batch, which is written when full |
| LedgerBatcher.LedgerBatcher.InsertRows | src/tidegate/settlement/batcher.py:153-164 | the batch is inserted, an existing row of a request staying as it is |
| LedgerBatcher.LedgerBatcher.WriteAttempt | src/tidegate/settlement/batcher.py:108-132 | success ends the batch, failure keeps it, except in a drain past its deadline, which drops and counts it |
| LedgerBatcher.LedgerBatcher.FlushAttempt | src/tidegate/settlement/batcher.py:54-57 | a direct write that lands inserts its row unless the request has one |
| LedgerBatcher.LedgerBatcher.Cancel | src/tidegate/settlement/batcher.py:79-85 | a batch in hand is written again, then the queue is drained |
| LedgerBatcher.LedgerBatcher.Load | src/tidegate/settlement/batcher.py:87-104 | a drain takes the oldest records up to a batch |
| LedgerRuns.LedgerConservation | src/tidegate/settlement/batcher.py:45-132 | accepted records are, in order, those done with, in the batch and queued; the drop counter counts exactly the rest |
| LedgerRuns.WritingTwiceIsWritingOnce | src/tidegate/settlement/batcher.py:79-84 | writing a batch again changes nothing, whatever was written in between |
| LedgerRuns.RunKeepsTable | src/tidegate/settlement/batcher.py:108-164 | at every moment the row of a request without direct writes is the first that landed |
| LedgerRuns.RowsInOrder | src/tidegate/settlement/batcher.py:54-57 | direct writes included, each request's row is the first inserted |
| LedgerRuns.OneRowIff | src/tidegate/settlement/batcher.py:54-164 | direct writes included, a request has a row iff it had one or one of its records was finished or written directly |
| LedgerRuns.ExactlyOnce | src/tidegate/settlement/batcher.py:87-104 | after a drain whose batches landed each request has its first finished record; that is its first accepted one iff it has a row already or no record of it came during the last write |
| LedgerRuns.NoDropsNoLosses | src/tidegate/settlement/batcher.py:122-129 | if the drop counter shows only records turned away at the queue, every finished batch landed |
| LedgerLosses.OnlyDeadlinesLose | src/tidegate/settlement/batcher.py:108-132 | in every run the accepted records lost are exactly those in hand when a drain's write failed past its deadline, and the drop counter adds those turned away |
| LedgerLosses.EverythingIsWrittenIff | src/tidegate/settlement/batcher.py:108-132 | every record done with was written iff no drain's write failed past its deadline |
| LedgerLosses.FailedWriteIsRetried | src/tidegate/settlement/batcher.py:119-132 | any other failure leaves batch and phase as they are |
| LedgerLosses.SuccessWrites | src/tidegate/settlement/batcher.py:119-122 | a write that succeeds takes the whole batch out of the pipeline, written |
| LedgerLosses.AcceptedIff | src/tidegate/settlement/batcher.py:45-52 | in every run a record is accepted iff the batcher is open and what it has waiting leaves room |
| LedgerLosses.BatchesFit | src/tidegate/settlement/batcher.py:59-104 | in every run a batch is written before it exceeds its size |
| LedgerLosses.CancelWindsDown | src/tidegate/settlement/batcher.py:79-85 | the writer leaves its loop iff it was cancelled, and never takes it up again |
| LedgerRuns.FirstOfIsFirst | src/tidegate/settlement/batcher.py:161 | the row kept under the conflict clause is the first record of its request |
| LedgerRuns.LateRecordStaysQueued | src/tidegate/settlement/batcher.py:93-104 | a drain that leaves a record in the queue |
| LedgerRuns.ShutdownLosesLateRecord | src/tidegate/app.py:224-231 | the whole shutdown: the second drain writes what the first left, and a record offered during its last write is lost uncounted |

## Left out

- HTTP, Redis, Postgres and provider transport, script loading and JSON: each script and each batch insert is one atomic step.
- Redis key expiry: keys live through a run. With an expired budget key the month would be seeded again.
- Floating-point rounding of tokens, averages and prices: they are real numbers, with ceilings where the code takes them.
- QuotaScripts.QuotaStore.ExpiredRange: which of several ids with the same deadline comes first is left open.
- Routing.RoutingState.RecordStart: breakers and statistics are values in maps instead of shared objects; an entry that was never written reads as fresh. The breaker as an object is `Breaker.CircuitBreaker`, proved against the same functions.
- NonStream.CallUpstream: an exception that is no gateway error may come out of the upstream call only; the reservation then stays for the sweeper, as in the code. Provider, cache and ledger calls after the settle are taken to return.
- Stream.StreamWithRetries: cancellation and foreign exceptions are modelled while the upstream streams, not within a settle, a store or a replay. A response cancelled before its generator's first step runs nothing of it: its reservation stays for the sweeper, and its flight is the one that `Collapse.Abandon` leaves. Within the loop the hedge race appears as the winner's deltas, or as a failure; who the winner is, is the subject of `StreamHedges`.
- Collapse.ExactlyOneCall: cascades are not part of the run; a failed cascade draft never releases its flight, so that later callers of the key wait until they time out.
- RequestRuns.FreshIff: a script that Redis runs only after the gateway has given up on the call is taken to run at that call, and a settle whose first script run was lost to run at its second.
- RequestLoops.NonStreamRequest: a request whose draft is rejected runs the loop twice; each run is covered by itself.
- Semantic cache lookups, embeddings, reranking and the tokenizer: only the exact-match cache takes part in collapsing.
- The digest of keys and requests is taken as injective: a key hash or a flight key stands for the thing it was computed from.
- LedgerRuns.ExactlyOnce: says which record wins only for a request that does not also write directly, beside the queue; for the others `RowsInOrder` and `OneRowIff` hold.
- LedgerBatcher.LedgerBatcher.Cancel: the writer is cancelled once, as the registry at shutdown does; a second cancellation during the last write would lose the batch in hand, and an exception that is not a database or connection error would end the writer.
- The per-attempt ledger: the same pipeline over a two-part key.
- Metrics, logging, tracing, the routing report, the admin interface, configuration parsing and reload supervision.
