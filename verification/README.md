# Kenbun gateway: a verified model of the control loop

Kenbun is a multi-tenant gateway in front of LLM providers. Each request passes a tenant lookup, a budget gate, a
token bucket, a response cache and a latency-aware provider selection, and is then sent upstream through a retry
decorator. What it costs comes back later: background processors add logged costs up and charge the tenants in the
database, and the recorded outcomes steer the selection.

This project models these components as the code runs them and proves what they promise over whole runs.

| file | models |
|---|---|
| `RateLimit.dfy`, `LimiterTheorems.dfy` | the lazily refilled token bucket per tenant, and traces of calls |
| `Fleet.dfy` | the limiters of several nodes and the Redis counters of their syncs, and runs of them |
| `Budget.dfy`, `BudgetTheorems.dfy` | the budget processor's event loop and flushes, and schedules of them |
| `Processors.dfy` | the processors of several nodes over one table of rows, with flushes taken apart |
| `Health.dfy`, `HealthTheorems.dfy` | the exponentially weighted error rate and latency per provider |
| `Selector.dfy` | filter, unstable sort, head |
| `Dispatch.dfy` | runs in which requests are selected, are in flight, and complete in any order |
| `Races.dfy` | the same with selections that take several steps, interleaved with each other and with completions |
| `TwoTierCache.dfy`, `Staleness.dfy` | a lossy in-memory tier per node over one Redis, and runs of several nodes whose operations are taken apart and interleaved |
| `Retry.dfy` | the retry loop around a base provider |
| `Streaming.dfy` | the streaming decorator, with the contexts it cancels, and the handler that reads its two channels, under every schedule |
| `Tenants.dfy`, `Gateway.dfy`, `GatewayTheorems.dfy` | the request handler over all of these, and what serving a request amounts to |
| `Upstream.dfy` | the end-to-end bound from the limiter through the retry loops |
| `Enforcement.dfy` | budget enforcement across nodes, stale caches and budget processors, in every interleaving |
| `Lookups.dfy` | the handler's cache and database accesses as events of `Enforcement`, so that its theorems are about the handler's replies |
| `Charges.dfy` | from served requests through the log to the budget processors: who is charged |

Each stateful component is a class whose methods are proved equal to a function on its abstract value (`View`); the
theorems are about runs of those functions.

## Reading the numbers

* Limiter: a token is 60·10^9 units and time is in nanoseconds, so a bucket of limit L earns exactly L units per
  nanosecond. All limiter arithmetic is exact integer arithmetic.
* Costs, latencies and error rates are `float64` in the code and exact reals here; conversions to `int` truncate
  towards zero, as in Go.
* Backoffs are int64 products with two's complement wrap-around. Powers from 2^63 on do not fit into an int64 before
  the multiplication; what the machine makes of them is a parameter. A timer that is not positive fires at once.
* Cache operations are not atomic: a Get looks into memory, asks Redis and backfills, a Set writes to memory and then to
  Redis, a record is read from the database and then set, and anything may come in between. A parameter `delay` bounds
  the time from the read of a row to the first write of its record, between the two writes of a Set, and from the answer
  of Redis to the backfill.
* The environment (clocks, database answers, Redis availability, losses of the in-memory tier, which updates fail, what
  the base providers do, how `select` chooses) enters as parameters; theorems hold for all of them. Assumed: clocks are
  monotonic and nodes share one, each access to a tier and each row update is atomic, base providers report natural
  numbers of tokens, Redis honours its time-to-lives, a failed update is not applied, and the in-memory tier never keeps
  the old entry of a key that is written again.

## Where the code differs from what is said about it

The model follows the code in each case.

* A comment in ratelimit.go promises new buckets "10% or 10 tokens"; the code grants a tenth of the limit or one token,
  so ten calls are admitted at once only with a limit of at least 100 (`LimiterTheorems.InitialQuota`).
* DESIGN.md and README.md promise global limits by a background sync of the limiters with Redis. Nothing reads the
  result of the sync, so each node limits on its own: n nodes together admit n times the limit
  (`Fleet.NFoldIsAttained`, and two nodes in `Fleet.TwoNodes`), and a limit is global exactly with one node
  (`Fleet.LimitIsGlobalIff`).
* The one-second `Retry-After` suffices exactly for limits of at least 60 per minute (`LimiterTheorems.HintSufficesIff`).
* The health check is meant to recover: a forced failure with at most 6 requests in flight is never lifted, since only
  dispatched requests report (`Dispatch.ForcedFailureIsForGood`; in general `Dispatch.QuarantinedIff`). Streams that
  end well are not reported at all, so the errors of a provider that only streams never fade
  (`Dispatch.StreamErrorsAreForGood`).
* A selection is not atomic: a provider may have become Unhealthy between the filter and the dispatch (`Races.TooLate`).
  Quarantine then means no more requests than there are selections considering the provider, and holds exactly if it would
  stay Unhealthy even if all of these chose it and all its requests succeeded (`Races.QuarantinedIff`).
* DESIGN.md says that existing tenants continue to function while the database cannot be reached, since they are cached.
  They do for 15 minutes and three delays, less two nanoseconds, at most; then every request gets a 401
  (`Lookups.PartitionEndsIn401`; the bound is exact, `Enforcement.LagIsAttained`).
* After an overwrite even the writing node may return the old value again, if a Get of the key on the node was between
  its answer from Redis and its backfill, or another Set of the key under way (`Staleness.WriterIsUpToDateIff`).
* The streaming decorator cancels an attempt's context when its first chunk arrives. A base provider that heeds its
  context is cut off there: the client gets the beginning of the stream, and the request is logged with status 200
  (`Streaming.CutShort`, and the repository's own mock provider in `Streaming.MockIsCutShort`). A logged stream is whole
  exactly if the provider sends all of it in spite of the cancellation (`Streaming.DeliveryIsWholeIff`).
* After the first chunk the decorator no longer reads the base provider's errors, so a stream that breaks off is
  logged as one that ended (`Streaming.LateErrorsAreLost`).
* A stream that fails on every attempt may be logged as an empty success with status 200, depending on which ready
  channel `select` picks (`Streaming.FailureMayPassForSuccess`, `Streaming.FailedAndLogged`).
* A comment in provider.go prices other models' completion tokens at 0.1 cents per thousand; the code takes 0.2
  (`Charges.LogIsResponse`).
* Streamed requests are logged without a cost, so they never use up a budget (`Charges.StreamersPayNothing`,
  `Charges.StreamersAreNotStopped`).
* Backoffs are exact up to 37 retries; in the 38th the int64 product wraps, and the call sleeps less than it should
  (`Retry.BackoffsAreExact`, `Retry.SleptInTotal`).

## Model

| member | source | states |
|---|---|---|
| `RateLimit.TokenBucket.Allow` | internal/ratelimit/ratelimit.go:50-82 | the call opens the tenant's bucket if it has none, refills it up to the cap, takes a token if there is one, and touches no other tenant's bucket |
| `RateLimit.TokenBucket.Find` | internal/ratelimit/ratelimit.go:54-63 | a new tenant gets a bucket of its own with its initial grant; an existing bucket is left as it is |
| `RateLimit.LocalBucket.Take` | internal/ratelimit/ratelimit.go:65-81 | refill, cap and check in place agree with the exact arithmetic, including `Remaining` and the retry hint |
| `RateLimit.TokenBucket.Snapshot` | internal/ratelimit/ratelimit.go:87-93 | the sync copies the level of every bucket and changes none |
| `LimiterTheorems.RefillIsContinuous` | internal/ratelimit/ratelimit.go:65-73 | refilling only on use gives the level of a bucket that is refilled and capped at any number of moments in between |
| `LimiterTheorems.Conservation` | internal/ratelimit/ratelimit.go:54-81 | over any trace, admissions, level and overflow add up to the starting level and the earnings |
| `LimiterTheorems.CreationBound` | internal/ratelimit/ratelimit.go:54-79 | since creation a tenant is admitted at most max(L/10, 1) + L·Δ/60 calls |
| `LimiterTheorems.SegmentBound` | internal/ratelimit/ratelimit.go:65-79 | any contiguous segment of any trace admits at most L + L·Δ/60 calls |
| `LimiterTheorems.DeniedHasSpentAll` | internal/ratelimit/ratelimit.go:54-81 | a tenant denied now has been admitted more than max(L/10, 1) + L·Δ/60 − 1 calls, up to what the cap threw away |
| `LimiterTheorems.AdmittedIff` | internal/ratelimit/ratelimit.go:54-81 | a call is admitted iff with it the tenant has been admitted at most max(L/10, 1) + L·Δ/60 calls since its first, fractions included, and in no window up to now more than L + L·Δ/60 |
| `LimiterTheorems.GreedyIsOptimal` | internal/ratelimit/ratelimit.go:54-81 | on every prefix of every trace, with any limits and times, no policy spending from the same bucket admits more |
| `LimiterTheorems.GreedyIsSolvent` | internal/ratelimit/ratelimit.go:75-79 | Allow is itself such a policy, with the same bucket at the end, so the optimum is attained |
| `LimiterTheorems.DeniedPollsAreInvisible` | internal/ratelimit/ratelimit.go:65-81 | deleting any set of denied calls leaves all other verdicts and `Remaining` values as they were |
| `LimiterTheorems.RetrySucceeds` | internal/ratelimit/ratelimit.go:65-81 | after a denial some poll is admitted by the first one 60/L seconds later, however often the tenant polls |
| `LimiterTheorems.VerdictSays` | internal/ratelimit/ratelimit.go:75-81 | every verdict carries the limit passed in, and a denial a hint of one second and nothing remaining |
| `LimiterTheorems.HintSufficesIff` | internal/ratelimit/ratelimit.go:81 | the hint that a denial returns is enough for every tenant history iff the limit is at least 60 |
| `LimiterTheorems.RemainingIsAPromise` | internal/ratelimit/ratelimit.go:76-79 | `Remaining` = k guarantees that the next k calls at the same limit are admitted, at any later times |
| `LimiterTheorems.RemainingIsExact` | internal/ratelimit/ratelimit.go:76-79 | and it is the most that can be promised: at the same instant the call after those k is denied |
| `LimiterTheorems.InitialQuota` | internal/ratelimit/ratelimit.go:54-63 | of a new tenant's calls at the instant its bucket is created, all are admitted iff there are at most max(L/10, 1) of them; ten are iff L ≥ 100 |
| `LimiterTheorems.Projection` | internal/ratelimit/ratelimit.go:50-97 | in any interleaving of tenants and syncs each tenant gets what its own calls alone would get |
| `Fleet.NodesAreIndependent` | internal/ratelimit/ratelimit.go:50-135 | in any run of nodes, syncs and expiring counters a node gives a tenant the verdicts, and leaves it the bucket, that it would for its calls on that node alone |
| `Fleet.CounterCountsSyncs` | internal/ratelimit/ratelimit.go:84-131 | until it expires, a tenant's counter in Redis counts the syncs that included it, not what it has used |
| `Fleet.NFoldBound` | internal/ratelimit/ratelimit.go:50-135 | in any window of any run, n nodes together admit at most n·(L + L·Δ/60) calls of a tenant |
| `Fleet.NFoldIsAttained` | internal/ratelimit/ratelimit.go:50-135 | for every n, every positive limit and every whole number of minutes, a run that admits just as many |
| `Fleet.LimitIsGlobalIff` | internal/ratelimit/ratelimit.go:84-135 | the bound L + L·Δ/60 holds of the nodes together, in all runs with all syncs, iff there is at most one node |
| `Fleet.TwoNodes` | internal/ratelimit/ratelimit.go:84-135 | with a limit of one a minute, two nodes that both sync in between admit two calls at one instant |
| `Budget.BudgetProcessor.Start` | internal/db/processor.go:45-81 | the loop does to pending costs and rows exactly what its sequence of wake-ups prescribes, and stops at shutdown |
| `Budget.BudgetProcessor.Wake` | internal/db/processor.go:51-79 | one turn: consume and flush a full batch, flush on a tick, flush on shutdown, skip an unreadable message |
| `Budget.BudgetProcessor.Flush` | internal/db/processor.go:83-102 | pending is emptied and every row whose update succeeds gains the truncated cents, in whatever order the map is walked |
| `Budget.TenantRepository.UpdateTenantSpend` | internal/db/db.go:57-61 | an update adds to an existing row, has no effect without one, and none when it fails |
| `BudgetTheorems.Conservation` | internal/db/processor.go:51-102 | a tenant's costs are pending, persisted, dropped by failed updates, or lost to truncation, less than a cent a successful update and never a gain |
| `BudgetTheorems.PendingIsBounded` | internal/db/processor.go:51-78 | at every loop head fewer than a batch of tenants is pending, and none after shutdown |
| `BudgetTheorems.ShutdownSettles` | internal/db/processor.go:53-56 | after a shutdown without failed updates every message of the tenant is in its row, up to less than a cent an update |
| `BudgetTheorems.TickSettles` | internal/db/processor.go:57-58 | right after any tick nothing is pending, and without failed updates every row shows all that its tenant's messages have cost so far, up to less than a cent an update |
| `BudgetTheorems.BatchesWait` | internal/db/processor.go:66-78 | without ticks and with messages of fewer tenants than a batch, rows stay as they are and costs add up |
| `BudgetTheorems.UnreadableIsSkipped` | internal/db/processor.go:61-69 | a message that cannot be read changes neither rows nor pending costs |
| `BudgetTheorems.CoarserChargesMore` | internal/db/processor.go:83-101 | leaving flushes out of a schedule never lowers what a tenant is charged |
| `BudgetTheorems.SchedulesAgree` | internal/db/processor.go:83-101 | two schedules of the same costs charge amounts that differ by less than the number of updates of the one that charges less |
| `Processors.FlushIsSteps` | internal/db/processor.go:83-101 | a flush taken apart into its swap and its row updates, in any order, does to its processor and the rows what Flush does, and nothing to the other processors |
| `Processors.Conservation` | internal/db/processor.go:51-102 | over any interleaving of n processors on the same rows, a tenant's costs are held by a processor, persisted, dropped by failed updates, or lost to truncation, less than a cent a successful update and never a gain |
| `Processors.NeverOvercharged` | internal/db/processor.go:66-102 | however many processors there are, a row never shows more than the start value and the cost of the consumed events |
| `Health.EWMAMonitor.GetMetrics` | internal/router/router.go:47-61 | a provider's own metrics, inserted fresh if missing, all others untouched |
| `Health.EWMAMonitor.RecordSuccess` | internal/router/router.go:63-77 | the latency average (or first sample) and the faded error rate of that provider only |
| `Health.EWMAMonitor.RecordError` | internal/router/router.go:79-86 | the raised error rate of that provider only |
| `Health.EWMAMonitor.ForceFailure` | internal/router/router.go:88-95 | an error rate of one for that provider only |
| `Health.EWMAMonitor.GetState` | internal/router/router.go:97-109 | the state by its thresholds, with at most a fresh entry inserted |
| `HealthTheorems.ClosedForm` | internal/router/router.go:75-85 | the rate is the 0.9-weighted sum of the errors plus what is left of the rate before |
| `HealthTheorems.ForcedStartsOver` | internal/router/router.go:75-94 | after a forced failure the closed form starts over from one |
| `HealthTheorems.RateIsARate` | internal/router/router.go:75-94 | over any trace, forced failures included, the rate stays between 0 and 1 |
| `HealthTheorems.ErrorsToUnhealthy` | internal/router/router.go:85-104 | n consecutive errors make every provider Unhealthy iff n ≥ 7 |
| `HealthTheorems.SuccessesToLeave` | internal/router/router.go:76-104 | n consecutive successes take every provider out of Unhealthy iff n ≥ 7 |
| `HealthTheorems.SuccessesToHealthy` | internal/router/router.go:76-107 | n consecutive successes bring every rate to at most 0.2 iff n ≥ 16 |
| `HealthTheorems.LatencyIsAnAverage` | internal/router/router.go:68-73 | from the first success on the latency lies between the least and the greatest sample, samples below a millisecond included, and errors do not move it |
| `HealthTheorems.LatencyClosedForm` | internal/router/router.go:68-73 | with n samples after the first positive one, the latency is 0.9^n of that and a tenth of each later one, faded by 0.9 for each after it; errors and forced failures leave no mark |
| `HealthTheorems.SlowdownShows` | internal/router/router.go:68-107 | a provider at 100 ms without errors is Degraded by n samples of 10 s iff n ≥ 7, and Healthy before |
| `HealthTheorems.HealthyIsKeptIff` | internal/router/router.go:75-108 | providers up to a rate and a latency are Healthy, and stay so while they succeed within that latency, iff the bounds are at most 0.2 and 5 s |
| `HealthTheorems.UnhealthyIsAvoidedIff` | internal/router/router.go:76-103 | providers up to a rate are not Unhealthy, and do not become so while they succeed, iff the rate is at most 0.5 |
| `HealthTheorems.SpacedErrorsNeverQuarantine` | internal/router/router.go:75-103 | with two successes between errors the rate never exceeds 100/271, over unbounded traces |
| `HealthTheorems.AlternationQuarantines` | internal/router/router.go:75-103 | strict alternation is Unhealthy after the n-th error iff n ≥ 15 |
| `Selector.LatencyAwareSelector.Select` | internal/router/selector.go:26-60 | nothing without candidates, else the head of some sort of the candidates by latency; the monitor gains fresh entries only (one call without interference; `Races` has the others) |
| `Selector.LatencyAwareSelector.Sort` | internal/router/selector.go:53-57 | all that is relied on of sort.Slice: the same elements, no pair against the comparator |
| `Selector.LatencyAwareSelector.GetLatency` | internal/router/selector.go:62-76 | the largest float without a latency, else the average; a provider without metrics gets fresh ones, and nothing else changes |
| `Selector.SelectionIsArgMin` | internal/router/selector.go:26-60 | for every unstable sort, Select returns nothing iff every provider is Unhealthy or missing on an allowlist that is not empty, and can return exactly those of the others of least score |
| `Selector.SeenIsInvisible` | internal/router/selector.go:43-55 | the metrics a selection inserts change no provider's state or latency |
| `Selector.SeenAreAllowed` | internal/router/selector.go:30-46 | the monitor gets entries for just the providers on the allowlist, or for all if that is empty |
| `Dispatch.UnhealthyIsNotDispatched` | internal/router/selector.go:43-50 | in every interleaving of atomic selections an Unhealthy provider gets no new request |
| `Dispatch.MetricsAreHistory` | internal/router/router.go:63-95 | in every interleaving a provider's metrics are those of its own reported latencies, errors and forced failures in their order, so the closed forms hold in every run |
| `Dispatch.DispatchedIff` | internal/router/selector.go:30-52 | in every run a request is dispatched iff some provider is not Unhealthy and on its allowlist, or the allowlist is empty, and then to such a provider |
| `Dispatch.QuarantinedIff` | internal/router/router.go:75-104 | a provider gets no request in any continuation iff its error rate, faded by as many successes as it has requests in flight, still exceeds 0.5 |
| `Dispatch.QuarantineInRuns` | internal/router/router.go:75-104 | this law holds at every point of every run of the gateway |
| `Dispatch.ForcedFailureIsForGood` | internal/router/router.go:88-104 | a forced failure excludes a provider from all continuations iff at most 6 of its requests are in flight |
| `Dispatch.StreamErrorsAreForGood` | internal/router/handler.go:175-202 | a provider whose completions never record a success, as those of streams do not, is Unhealthy exactly from its seventh error on, and then gets no request again |
| `Dispatch.ExploredFirst` | internal/router/selector.go:53-76 | in every run a provider without a latency is dispatched only when no candidate has one, and otherwise the least latency wins |
| `Races.FilterIsCandidates` | internal/router/selector.go:29-46 | a filter that reads the states one by one finds, if nothing interferes, the candidates of the atomic selection |
| `Races.FilterFinds` | internal/router/selector.go:29-46 | these are the providers short of Unhealthy on the allowlist, or any such if that is empty |
| `Races.DispatchedIsAllowed` | internal/router/selector.go:29-59 | in every interleaving a provider that is dispatched to is on the allowlist its selection was opened with, unless that is empty |
| `Races.DispatchedWasHealthy` | internal/router/selector.go:29-59 | in every interleaving a provider that is dispatched to was not Unhealthy when its selection read its state |
| `Races.TooLate` | internal/router/selector.go:43-59 | it may be Unhealthy by the time it is dispatched to |
| `Races.HeldIsQuarantined` | internal/router/selector.go:43-59 | a provider that stays Unhealthy even if all its requests, in flight or under selection, succeed gets no more requests in any continuation than there are selections considering it |
| `Races.QuarantinedIff` | internal/router/selector.go:43-59 | with interleaved selections, every continuation dispatches to a provider at most as often as selections are considering it iff it would stay Unhealthy even if all its requests, in flight or under selection, succeeded; and none does iff moreover no selection considers it |
| `Races.QuarantineInRuns` | internal/router/selector.go:43-59 | this law holds at every point of every run of the gateway |
| `Races.ForcedFailureUnderRaces` | internal/router/router.go:88-104 | a forced failure puts a provider into this quarantine iff at most 6 of its requests are in flight or under selection, and keeps every request from it iff moreover none is under selection |
| `TwoTierCache.Cache.Get` | internal/cache/cache.go:41-59 | in-memory hit, else Redis with a ten-minute backfill, else a miss; an error leaves everything as it was |
| `TwoTierCache.Cache.Set` | internal/cache/cache.go:61-67 | both tiers get the entry with its time-to-live; a failing Redis is reported and only the in-memory tier changes |
| `TwoTierCache.GetReplies` | internal/cache/cache.go:41-53 | a Get fails iff it has no live entry in memory and Redis is down, misses iff neither tier has one, and then changes nothing |
| `Staleness.GetIsSteps` | internal/cache/cache.go:41-59 | the steps of a Get that nothing comes between do to the tiers, and return, what Get does |
| `Staleness.SetIsSteps` | internal/cache/cache.go:61-67 | the steps of a Set that nothing comes between do what Set does |
| `Staleness.NeverTooStale` | internal/cache/cache.go:41-67 | in every interleaving, no node returns a value later than its time, its time-to-live, ten minutes and two delays, less two nanoseconds, even if writes to Redis fail |
| `Staleness.StalenessIsAttained` | internal/cache/cache.go:41-67 | at exactly that time a second node may still return it |
| `Staleness.UpToDateIff` | internal/cache/cache.go:41-67 | in no continuation does a node return a value from before a given write iff Redis and its memory hold none, no Get on the node is about to backfill one, and no Set on any node is about to publish one |
| `Staleness.WriterIsUpToDateIff` | internal/cache/cache.go:41-67 | the writer of a value that reaches Redis is up to date at once iff no Get of the key on its node is between Redis and its backfill and no other Set of the key is between its two writes |
| `Staleness.OverwriteTakesOver` | internal/cache/cache.go:41-67 | after a write has reached Redis, with no earlier Set of the key under way, no node returns an older value of time-to-live d from max(d, ten minutes and a delay) later on |
| `Staleness.TakeoverIsAttained` | internal/cache/cache.go:41-67 | one nanosecond before that a node may still return the older value, for every time-to-live |
| `Staleness.WrittenIsServed` | internal/cache/cache.go:41-67 | until it expires, the last value written for a key is found in Redis by every Get that asks; a node returns it or an older one, and only it once the node is settled |
| `Retry.Chat` | internal/provider/resilient.go:33-66 | the attempt the loop stops at decides the result, each earlier one was followed by one completed backoff, the last by none |
| `Retry.FirstSuccess` | internal/provider/resilient.go:36-51 | a response is returned iff one of at most maxRetries + 1 attempts succeeds before the context is found done, and then the first |
| `Retry.EndsIff` | internal/provider/resilient.go:36-65 | exactly when and after which attempt a call fails with that attempt's error, with its context's error, or with the last error of maxRetries + 1 attempts |
| `Retry.UncancelledIsSearch` | internal/provider/resilient.go:36-65 | without cancellation the call is a search for the first success, failing with the last error |
| `Retry.SleptInTotal` | internal/provider/resilient.go:54-58 | for every maxRetries, k completed backoffs took at most 2^k − 1 tenths of a second, and exactly that iff k ≤ 37 |
| `Retry.BackoffsAreExact` | internal/provider/resilient.go:55 | every int64 backoff is exact and positive iff maxRetries ≤ 37, whatever the machine makes of powers that do not fit |
| `Streaming.ChatStream` | internal/provider/resilient.go:68-118 | the first attempt that opens is passed on, its first chunk and then what the provider still sends with its context cancelled, or there is no chunk and one error value; one backoff is slept between attempts |
| `Streaming.Pipe` | internal/provider/resilient.go:86-95 | after the first chunk all that comes through the chunk channel is passed on, in order, and nothing of the error channel |
| `Streaming.EndsIff` | internal/provider/resilient.go:76-114 | the attempt passed on is the first that opens among maxRetries + 1, if the context was not done before; else the error sent is the context's, if it was done, or the last one |
| `Streaming.LastErrorIsLast` | internal/provider/resilient.go:96-101 | the last error is that of the last attempt that ended in one or at its deadline |
| `Streaming.SleptInTotal` | internal/provider/resilient.go:109-111 | k attempts are k − 1 backoffs apart, as for calls that are not streamed |
| `Streaming.HandleStream` | internal/router/handler.go:162-207 | the channel loop, its token totals and its ends, for every schedule |
| `Streaming.StreamIntegrity` | internal/router/handler.go:173-205 | through both layers and every schedule: the client gets a prefix of one attempt; a recorded error implies that nothing was written; a stream is logged only when all that came through was written, with exactly the tokens written |
| `Streaming.LeavesIff` | internal/router/handler.go:197-205 | the handler returns without a log or a recorded error iff the client goes away before either; the nil of a closed error channel ends nothing |
| `Streaming.DeliveryIsWholeIff` | internal/provider/resilient.go:82-94 | logged deliveries are whole iff the provider sends all of the rest after its context is cancelled: always if it ignores its context, and only for a single chunk if it heeds it |
| `Streaming.LateErrorsAreLost` | internal/provider/resilient.go:86-95 | whatever error a provider reports after its first chunk is recorded under no schedule, and the stream may be logged as delivered |
| `Streaming.CutShort` | internal/provider/resilient.go:86-95 | two chunks of a provider that heeds its context: one is written, and its tokens are logged with status 200 |
| `Streaming.MockIsCutShort` | internal/provider/mock.go:46-61 | a stream of the mock provider is logged with its completion tokens iff the provider sends its whole response and the last chunk in spite of the cancelled context |
| `Streaming.FailureMayPassForSuccess` | internal/router/handler.go:174-202 | an empty success can be logged iff no attempt opens, and an error recorded iff moreover an attempt ended in an error or at its deadline or the context was done |
| `Streaming.FailedAndLogged` | internal/router/handler.go:174-202 | three refused attempts that one schedule logs with status 200 and another records as an error |
| `Tenants.ResponseKeyIsInjective` | internal/router/handler.go:100 | response keys of different tenants, models or digests differ |
| `Tenants.KeysDiffer` | internal/router/handler.go:64-100 | tenant records and responses never share a cache key |
| `Gateway.GatewayHandler.ServeHTTP` | internal/router/handler.go:50-123 | one request, served with nothing else on the node in between, passes the gates in their order with exactly their effects, and what is dispatched is a possible selection and a possible outcome of the decorator |
| `Gateway.GatewayHandler.LookUp` | internal/router/handler.go:60-76 | a cached record is used as it is, else the row is read and cached for five minutes |
| `Gateway.GatewayHandler.Store` | internal/router/handler.go:74-75 | the row is cached for five minutes in both tiers |
| `Gateway.GatewayHandler.PassGates` | internal/router/handler.go:78-90 | an exhausted budget stops a request before it takes a token, and a denied one before anything else |
| `Gateway.GatewayHandler.Admit` | internal/router/handler.go:92-121 | parse errors and cached responses end a request before routing |
| `Gateway.GatewayHandler.LookUpResponse` | internal/router/handler.go:100-108 | a cached response is found under its own key only, and the lookup backfills the in-memory tier at most |
| `Gateway.GatewayHandler.Dispatch` | internal/router/handler.go:110-122 | routing to a possible selection, synchronously or as a stream |
| `Gateway.GatewayHandler.HandleSync` | internal/router/handler.go:125-160 | success or error is recorded for the dispatched provider, and a success is logged with its cost and cached for an hour |
| `Gateway.GatewayHandler.HandleStream` | internal/router/handler.go:162-207 | only a recorded stream error reaches the monitor |
| `Gateway.CostIsNotNegative` | internal/provider/provider.go:49-66 | the estimated cost of non-negative token counts is not negative |
| `GatewayTheorems.ServingDispatches` | internal/router/handler.go:110-160 | serving one request with no other in between is a run of the dispatch loop: one legal selection and the completion of just that dispatch |
| `GatewayTheorems.SelectionIsAStep` | internal/router/handler.go:110-122 | with any requests in flight, what the handler does to the monitor up to the dispatch is a legal request step of the loop, and the rest of the handler starts from there |
| `GatewayTheorems.CompletionIsAStep` | internal/router/handler.go:125-207 | whatever has become of the monitor since, a handler that ends does to it what a completion step does, and a streamed request never records a success |
| `GatewayTheorems.GatesInOrder` | internal/router/handler.go:54-90 | which requests get 401, 402 (those of a tenant with 0 < budget ≤ spend) and 429, in that order of precedence, and that nothing is spent before the limiter and exactly one token at it, at the tenant's own limit |
| `GatewayTheorems.RepliesInOrder` | internal/router/handler.go:54-160 | the reply to every request, as the first of nine conditions on the tenant's fields, the limiter, the body, the cached response, the providers and the outcome that applies |
| `GatewayTheorems.CachedResponsesAreOwn` | internal/router/handler.go:99-108 | over any sequence of requests on one node a cached response is the answer to an earlier request of the same tenant for the same model and digest |
| `Upstream.AttemptsFollowAdmissions` | internal/router/handler.go:84-122 | base-provider calls for a tenant are at most maxRetries + 1 times its admissions |
| `Upstream.DispatchedOnce` | internal/router/handler.go:110-163 | a request is dispatched at most once, to the selected provider, with as many base-provider calls as its retry loop made, and any other request with none |
| `Upstream.UpstreamBound` | internal/router/handler.go:84-122 | since its bucket was created a tenant whose own limit is L causes at most (maxRetries + 1)·(max(L/10, 1) + L·Δ/60) base-provider calls on a node |
| `Enforcement.DecisionIsRecent` | internal/router/handler.go:60-82 | in every run over any number of nodes, every record the budget gate decides on was read from the database at most 15 minutes and three delays, less two nanoseconds, ago, and has only been charged more since |
| `Enforcement.BoundedLag` | internal/router/handler.go:63-82 | on any number of nodes and processors, later than that after a tenant's spend reached its budget every decision is a 402, whatever fails, is lost, or comes in between |
| `Enforcement.LagIsAttained` | internal/cache/cache.go:41-67 | at exactly that time a tenant may still be let through |
| `Enforcement.RecordsRunOut` | internal/router/handler.go:63-76 | later than that after the last row was read, no decision is made on any record, on any node |
| `Enforcement.NoPremature402` | internal/router/handler.go:78-82 | a rejected tenant has a positive budget, and its initial spend and the costs consumed by any number of processors come to at least that |
| `Enforcement.ResponsesAreOwn` | internal/router/handler.go:99-108 | over any number of nodes and any interleaving, a response a Get returns was cached by some node for the same tenant, model and digest, not longer ago than its time-to-live, ten minutes and two delays |
| `Lookups.LookUpIsDecision` | internal/router/handler.go:60-76 | the handler's tenant lookup is a legal run of events that ends in the decision the enforcement theorems are about, on the tenant the handler goes on with; it finds none iff there is no cached record and the row is missing or its read fails |
| `Lookups.LateRequestsGet402` | internal/router/handler.go:60-82 | on any node, once a tenant's spend has reached its budget and the lag of BoundedLag has passed, a request with its key is answered with 402, or with 401 iff its lookup misses the cache and the read of the row fails |
| `Lookups.PartitionEndsIn401` | internal/router/handler.go:63-73 | once no row has been read for as long as that lag, every request is answered with 401, on any node |
| `Lookups.NoEarly402` | internal/router/handler.go:78-82 | a request is answered with 402 only if the tenant has a positive budget and its initial spend and consumed costs come to it, whether or not reads fail |
| `Lookups.NoBudgetNo402` | internal/router/handler.go:79 | a tenant whose budget is zero or less is never answered with 402, on any node |
| `Lookups.AnswerIsEvents` | internal/router/handler.go:125-156 | what a handler that has got an answer does to the caches are just the caching events of the enforcement world |
| `Lookups.ResponseIsRead` | internal/router/handler.go:100-108 | what the handler finds under a response's key, and what it leaves in the caches, is what a Get of the enforcement world does |
| `Lookups.FoundResponsesWereAnswers` | internal/router/handler.go:99-156 | over any run of handlers on several nodes, with any interleaving, a response that a handler finds in the cache is what an earlier request of the same tenant, for the same model and digest, was answered with at most an hour, ten minutes and two delays before |
| `Charges.WhoIsCharged` | internal/router/handler.go:137-189 | a served request is logged iff it was answered by a provider or streamed to its end, and costs something iff it was answered, not streamed, with at least one token; no cost is negative |
| `Charges.LogIsResponse` | internal/router/handler.go:137-147 | what is logged of an answered request are the tokens of the response, at the prices of the model that answered |
| `Charges.BillIsCharged` | internal/provider/provider.go:49-66 | if every logged event is consumed once, the processors take in just what the tenant's answered requests cost by the price list |
| `Charges.LogIsChargeable` | internal/db/processor.go:66-102 | whatever any nodes have logged, in any order and however often it is consumed, meets what the budget and enforcement theorems assume of charges |
| `Charges.StreamersPayNothing` | internal/router/handler.go:178-189 | over any run of any number of processors on the log, the row of a tenant that only streams does not change |
| `Charges.StreamersAreNotStopped` | internal/router/handler.go:78-82 | in every run of several nodes such a tenant is rejected by the budget gate only if it was exhausted at the start |

## Left out

- Floating-point rounding: `float64` values are exact reals or scaled integers; the thresholds have clear margins.
- Network, SDK and storage clients (base providers, Postgres, Kafka, ClickHouse, the Redis wire): oracles and maps.
- The Lua script of the limiter's sync: its counters in Redis are raised by one and expire in `Fleet`, and what the script returns, which is never read, is not modelled.
- `MemoryCache`, which ignores time-to-lives: the staleness and lag bounds are about the two-tier cache.
- The in-memory cache's admission and hashing, and its asynchronous application of buffered writes: a lossy map.
- SHA-256, JSON and the rendering of messages: digests are opaque, and nothing is claimed about messages with equal digests.
- Time-to-lives below zero: neither caller passes one.
- Admin routes other than the forced failure, configuration, log transport, live broadcast, simulator and UI.
- Leaked goroutines, wall-clock latency and clock skew between nodes.
- How Kafka spreads a tenant's events over the processors: any processor may consume any logged event, at any time and any number of times.
- Base providers that never close their channels after a first chunk: the decorator then waits for ever, and so does its handler unless the client leaves.
- `Selector.LatencyAwareSelector.Sort`: works on a sequence value instead of sorting the candidate slice in place, since the algorithm of sort.Slice is not the repository's.
- `Selector.LatencyAwareSelector.Select`: is one atomic step in `Dispatch`; `Races` has filters and choices that are interleaved, and leaves open which candidate a sort by latencies that change under it puts first.
- `Gateway.GatewayHandler.ServeHTTP`: serves one request from start to end; interleavings are the subject of `Dispatch` and `Races` (to which `GatewayTheorems.SelectionIsAStep` and `GatewayTheorems.CompletionIsAStep` tie the handler), `Enforcement` (`Lookups`), `Staleness` and `Upstream`.
- `GatewayTheorems.CachedResponsesAreOwn`: is about one node whose requests are served one after the other, with entries lost in between; `Enforcement.ResponsesAreOwn` and `Lookups.FoundResponsesWereAnswers` are about several nodes and any interleaving.
- `GatewayTheorems.ServingDispatches`: is about a request with no other between its selection and its completion; `GatewayTheorems.SelectionIsAStep` and `GatewayTheorems.CompletionIsAStep` are about its two halves with others in between.
- `Lookups.LookUpIsDecision`: is about a lookup that nothing comes between, like the handler it is about; `Enforcement.BoundedLag`, `Enforcement.RecordsRunOut` and `Enforcement.NoPremature402` are about lookups whose steps anything may come between.
- `BudgetTheorems.CoarserChargesMore`: is about costs that are not negative, as the estimated costs are; refunds do not occur.
