# Health-check probe engine, modelled in Dafny

This project models the part of the health-check service that probes endpoints:

- `HealthCheckService` turns a target's configuration and one transport outcome into a classified result (`executeOnce`).
- It wraps those attempts in a retry loop with doubling backoff (`attemptWithRetries`, `isRetryable`, `sleepBackoff`).
- `checkTarget` puts a TTL result cache and a per-target circuit breaker in front of the retry loop.
- The model also covers the target registry (`createTarget`, `updateTarget`, `deleteTarget`), body truncation (`limitBody`), the cached copy (`copyResult`) and the status summary (`getSummary`).
- `CircuitBreakerState` is the breaker: a consecutive-failure counter and an open-until instant.

Modules:

- `Model` holds the value types: targets, requests, transport outcomes, results and the configuration.
- `Targets` builds a target from a create request and applies partial updates.
- `Classifier` holds the classification of one attempt and retryability.
- `Breaker` holds the breaker as a value (`BreakerState`) and as a class (`CircuitBreakerState`) whose methods update its two fields.
- `Transport` models the scripted transport (`FakeTransport`): a queue of outcomes per target, consumed one per call, with the default answer 200 `{}` after 50 ms once the queue is empty.
- `Retry` holds the retry run as a specification function (`RunRetries`) and the loop (`AttemptWithRetries`), which is proved equal to it.
- `Service` holds `checkTarget` as a function over the three maps (`Check`) and the `HealthCheckService` class. The class keeps the three maps as fields. `CheckTarget` is proved equal to `Check`, `CreateTarget` and `UpdateTarget` to `NewTarget` and `ApplyUpdate`, and `GetSummary` to `Summarize`; `DeleteTarget` and `ScheduledChecks` state their effect on the maps directly.

Time enters as an integer `now` in milliseconds, one value per check. The wall-clock latency of an attempt is a parameter `elapsedMs`. The JSON parser is a parameter `json` that says whether a body parses; a null body never parses, as the parser rejects null input. The backoff is recorded as a sequence of delays rather than slept.

## Model

| member | source | states |
|---|---|---|
| Model.BaseResult | src/main/java/com/healthcheck/service/HealthCheckService.java:304-310 | a fresh result names the target, has status and category UNKNOWN, no timestamp, no attempt and no cache metadata |
| Model.Contains | src/main/java/com/healthcheck/service/HealthCheckService.java:239 | `String.contains`: whether `sub` occurs in `s`; its meaning is stated by `ContainsIffOccurs` |
| Model.ContainsIffOccurs | src/main/java/com/healthcheck/service/HealthCheckService.java:239 | `s` contains `sub` exactly when `sub` is the slice of `s` at some index |
| Targets.NewTarget | src/main/java/com/healthcheck/service/HealthCheckService.java:43-66 | the new target carries the request's fields under the given id; its content type is the request's, or "application/json" exactly when none was given and a body was; a target with a body always has a content type |
| Targets.ApplyUpdate | src/main/java/com/healthcheck/service/HealthCheckService.java:84-125 | every field whose request value is null keeps the target's value, every given field replaces it; a given body defaults the content type to JSON only when neither request nor target has one, and an explicit request content type always wins; the id never changes |
| Targets.EmptyUpdateIsIdentity | src/main/java/com/healthcheck/service/HealthCheckService.java:84-125 | an update with every field null leaves the target unchanged |
| Targets.UpdateIdempotent | src/main/java/com/healthcheck/service/HealthCheckService.java:84-125 | applying the same update twice equals applying it once |
| Targets.UpdateKeepsBodyContentType | src/main/java/com/healthcheck/service/HealthCheckService.java:96-104 | an update keeps the invariant "a target with a body has a content type" |
| Classifier.ClassifyResponse | src/main/java/com/healthcheck/service/HealthCheckService.java:221-256 | the verdict on a response that arrived, checks in source order, first failing check wins; its properties are stated by `ResponseVerdicts`, `StatusRangeBoundaries`, `SlowWinsOverStatus` and `NullBodyIsInvalidJson` |
| Classifier.ResponseVerdicts | src/main/java/com/healthcheck/service/HealthCheckService.java:221-256 | for a response, each category is produced exactly when its check is the first that fails (slow, 401/403, 429, status outside the inclusive range, missing substring with a null body counting as missing, JSON); UP iff NONE, DEGRADED iff SLOW_RESPONSE, DOWN for every other category, and a message exactly when not UP |
| Classifier.StatusRangeBoundaries | src/main/java/com/healthcheck/service/HealthCheckService.java:233-237 | a status at either end of the expected range is accepted and one just outside either end is an HTTP error |
| Classifier.SlowWinsOverStatus | src/main/java/com/healthcheck/service/HealthCheckService.java:221-224 | a response slower than the threshold is DEGRADED / SLOW_RESPONSE whatever its status and body |
| Classifier.NullBodyIsInvalidJson | src/main/java/com/healthcheck/service/HealthCheckService.java:243-252 | a target expecting JSON rejects a null body: a prompt in-range response without a body is DOWN / INVALID_JSON |
| Classifier.ClassifyFailure | src/main/java/com/healthcheck/service/HealthCheckService.java:257-277 | every transport exception gives DOWN with a message; timeout, unknown host, TLS handshake and connect failure each give their own category (both directions), any other exception gives UNKNOWN with message `kind + ": " + message` |
| Classifier.LimitBody | src/main/java/com/healthcheck/service/HealthCheckService.java:327-336 | null stays null; otherwise the result is the prefix of length min(length, max(0, limit)), and the body itself when it fits |
| Classifier.ExecuteOnce | src/main/java/com/healthcheck/service/HealthCheckService.java:208-282 | the result of one attempt with a given transport outcome; what it records is stated by `ExecuteOnceResult` |
| Classifier.ExecuteOnceResult | src/main/java/com/healthcheck/service/HealthCheckService.java:208-282 | one attempt records the target id, the attempt number, `now` and the wall-clock latency; it is never a cached copy, never UNKNOWN status nor CIRCUIT_OPEN, and UP exactly when its category is NONE; a response carries the classifier's verdict, status code, headers and truncated body, an exception its own verdict and no response data |
| Classifier.IsRetryable | src/main/java/com/healthcheck/service/HealthCheckService.java:284-292 | the retryability test on a classified result; stated on the outcome by `RetryableOutcomes` and `NeverRetryable` |
| Classifier.RetryableOutcomes | src/main/java/com/healthcheck/service/HealthCheckService.java:284-292 | an attempt is retryable exactly when its outcome was a timeout, unknown host, TLS or connect failure, a prompt 429, or a prompt response classified HTTP_ERROR whose status is at least 500 or 408 |
| Classifier.NeverRetryable | src/main/java/com/healthcheck/service/HealthCheckService.java:284-292 | NONE, AUTH_FAILURE, INVALID_JSON, SLOW_RESPONSE, CIRCUIT_OPEN and UNKNOWN are never retryable |
| Retry.MaxAttemptsAsWritten | src/main/java/com/healthcheck/service/HealthCheckService.java:192 | the attempt budget as the code computes it, `Math.max(1, maxRetries + 1)` in 32-bit arithmetic; `MaxRetriesOverflow` and `MaxAttemptsAgree` compare it with `MaxAttempts` |
| Retry.MaxAttempts | src/main/java/com/healthcheck/service/HealthCheckService.java:192 | the attempt budget is maxRetries + 1 for a non-negative retry count and 1 otherwise |
| Retry.Wrap32 | src/main/java/com/healthcheck/service/HealthCheckService.java:192 | Java `int` addition: the result lies in the 32-bit range and is congruent to the exact sum |
| Retry.MaxRetriesOverflow | src/main/java/com/healthcheck/service/HealthCheckService.java:192 | with maxRetries = 2147483647 the budget as written is a single attempt, where the intended one is 2147483648 |
| Retry.MaxAttemptsAgree | src/main/java/com/healthcheck/service/HealthCheckService.java:192 | for every other `int` retry count the budget as written equals the intended one |
| Retry.BackoffDelay | src/main/java/com/healthcheck/service/HealthCheckService.java:294-296 | the delay slept after attempt number `attempt`, base · 2^attempt; stated by `BackoffDoubles` |
| Retry.BackoffDoubles | src/main/java/com/healthcheck/service/HealthCheckService.java:294-296 | the first backoff is the base delay and each later one is twice the one before |
| Retry.AttemptsAreNumbered | src/main/java/com/healthcheck/service/HealthCheckService.java:194-196 | attempt k of a run records attempt number k + 1, is stamped `now` and is not a cached copy |
| Retry.RunFrom | src/main/java/com/healthcheck/service/HealthCheckService.java:194-205 | the retry run from attempt i over a given attempt function; its shape is stated by `RunFromShape` and `RunStep` |
| Retry.RunRetries | src/main/java/com/healthcheck/service/HealthCheckService.java:189-206 | the whole retry run of a target against its transport queue; stated by `RetryShape` and realised by `AttemptWithRetries` |
| Retry.RunFromShape | src/main/java/com/healthcheck/service/HealthCheckService.java:194-205 | a run from attempt i makes between one and all remaining attempts and returns the last one's result; it ends early only at an UP or non-retryable result, no earlier attempt stopped it, one backoff follows each attempt that did not stop it (the last attempt's included), and the delays double |
| Retry.RetryShape | src/main/java/com/healthcheck/service/HealthCheckService.java:189-206 | a whole run makes 1 to max(1, maxRetries + 1) attempts and returns the last attempt's result, a fresh one stamped `now`; it stops early only at UP or a non-retryable result, every earlier attempt was a retryable failure, one backoff follows every attempt except a stopping last one, and backoff k is base · 2^k |
| Retry.NoRetriesSingleAttempt | src/main/java/com/healthcheck/service/HealthCheckService.java:192-204 | with no retries one attempt is made, followed by one backoff when it is a retryable failure |
| Retry.TimeoutThenSuccess | src/test/java/com/healthcheck/service/HealthCheckServiceTest.java:147-157 | with one retry allowed, a timeout then a prompt 200 gives UP after two attempts and one backoff of the base delay |
| Retry.RunStep | src/main/java/com/healthcheck/service/HealthCheckService.java:194-204 | one loop iteration: a stopping result ends the run, the last allowed attempt ends it with one more backoff, otherwise the run continues from the next attempt after one backoff |
| Retry.AttemptWithRetries | src/main/java/com/healthcheck/service/HealthCheckService.java:189-206 | the loop returns exactly the result and backoffs of `RunRetries` on the target's queue, and consumes one queued outcome per attempt, which is the result's attempt count; its budget is the corrected `MaxAttempts` (see Findings) |
| Transport.Consume | src/test/java/com/healthcheck/service/FakeTransport.java:23-27 | consuming n outcomes for a target leaves every other target's queue and the set of queues as they were |
| Transport.DropThenNext | src/test/java/com/healthcheck/service/FakeTransport.java:23-27 | call k after n earlier calls is call n + k on the original queue |
| Transport.ConsumeTwice | src/test/java/com/healthcheck/service/FakeTransport.java:23-27 | consuming n and then m outcomes is consuming n + m |
| Transport.FakeTransport.Enqueue | src/test/java/com/healthcheck/service/FakeTransport.java:17-19 | the outcome is appended to the target's queue, which is created when missing |
| Transport.FakeTransport.Execute | src/test/java/com/healthcheck/service/FakeTransport.java:21-32 | one call returns the head of the target's queue and removes it, or the default answer when the queue is empty or missing |
| Breaker.CircuitBreakerState.constructor | src/main/java/com/healthcheck/service/CircuitBreakerState.java:6-7 | a new breaker has counter 0 and no open-until instant |
| Breaker.IsOpenAt | src/main/java/com/healthcheck/service/CircuitBreakerState.java:9-11 | open at `now` exactly when an open-until instant is set and `now` is strictly before it |
| Breaker.CircuitBreakerState.IsOpen | src/main/java/com/healthcheck/service/CircuitBreakerState.java:9-11 | `isOpen()` read against the clock value `now`: `IsOpenAt` of the breaker's two fields |
| Breaker.ClosedIsNeverOpen | src/main/java/com/healthcheck/service/CircuitBreakerState.java:9-11 | a new breaker is not open at any instant |
| Breaker.AfterFailure | src/main/java/com/healthcheck/service/CircuitBreakerState.java:13-18 | the state after `recordFailure`; stated by `FailureStep` and `ReplayFromClosed` |
| Breaker.CircuitBreakerState.RecordFailure | src/main/java/com/healthcheck/service/CircuitBreakerState.java:13-18 | the breaker's new state is the failure step applied to its old state |
| Breaker.FailureStep | src/main/java/com/healthcheck/service/CircuitBreakerState.java:13-18 | a failure adds exactly one to the counter; at or above the threshold (`>=`) every failure re-arms the window from `now`, which is then open for `openMillis`; below it the window is unchanged |
| Breaker.AfterSuccess | src/main/java/com/healthcheck/service/CircuitBreakerState.java:20-23 | the state after `recordSuccess`; stated by `SuccessResets` |
| Breaker.CircuitBreakerState.RecordSuccess | src/main/java/com/healthcheck/service/CircuitBreakerState.java:20-23 | the breaker's new state is the success step applied to its old state |
| Breaker.SuccessResets | src/main/java/com/healthcheck/service/CircuitBreakerState.java:20-23 | a success resets the breaker to a new one, a second success changes nothing more, and a reset breaker is closed |
| Breaker.ExpiryIsFinal | src/main/java/com/healthcheck/service/CircuitBreakerState.java:9-11 | a breaker closed at some instant is closed at every later instant: time alone never reopens it |
| Breaker.ReplayFromClosed | src/main/java/com/healthcheck/service/CircuitBreakerState.java:9-23 | after any history of probes, the counter is the number of failures since the last success, and the breaker has a window exactly when that number is positive and reaches the threshold, running from the last failure |
| Breaker.TrailingFailuresAtLeast | src/main/java/com/healthcheck/service/CircuitBreakerState.java:13-14 | a history ending in k failures has at least k failures since its last success |
| Breaker.ThresholdFailuresOpen | src/main/java/com/healthcheck/service/CircuitBreakerState.java:13-18 | `threshold` consecutive failures open the breaker for `openMillis` from the last of them, whatever came before |
| Service.CacheHit | src/main/java/com/healthcheck/service/HealthCheckService.java:139-142 | a stored result is served again exactly when the check is not forced, a result with a timestamp is stored, and its age is strictly below the TTL |
| Service.CachedCopy | src/main/java/com/healthcheck/service/HealthCheckService.java:143-145 | the copy served from the cache agrees with the stored result except for `fromCache`, which is set, and `cachedAt`, which is the stored timestamp |
| Service.CircuitOpenResult | src/main/java/com/healthcheck/service/HealthCheckService.java:152-156 | the refusal is DOWN / CIRCUIT_OPEN, stamped `now`, with no attempt and no cache metadata |
| Service.BreakerStep | src/main/java/com/healthcheck/service/HealthCheckService.java:150-168 | past the cache, with the breaker registered: an open breaker refuses and stores the refusal, a closed one stores the run's result and records it; stated by `OpenBreakerShortCircuits` and `ClosedBreakerProbes` |
| Service.Check | src/main/java/com/healthcheck/service/HealthCheckService.java:133-170 | a result exists exactly for a known id; the targets never change; the answer is a cached copy exactly on a cache hit, and then nothing changes and no call is made; otherwise the answer is stored, stamped `now`, and its attempt count is the number of transport calls; only the checked target's breaker can change |
| Service.CheckUnknownTarget | src/main/java/com/healthcheck/service/HealthCheckService.java:134-137 | an unknown id returns nothing and changes nothing |
| Service.CacheHitServesStoredResult | src/main/java/com/healthcheck/service/HealthCheckService.java:139-147 | a hit returns the stored result's content with `fromCache` set and `cachedAt` equal to the stored timestamp, and touches neither the state nor the transport |
| Service.ForcedCheckIsFresh | src/main/java/com/healthcheck/service/HealthCheckService.java:140 | a forced check never returns a cached copy |
| Service.OpenBreakerShortCircuits | src/main/java/com/healthcheck/service/HealthCheckService.java:150-159 | past the cache an open breaker answers DOWN / CIRCUIT_OPEN with no transport call, the answer overwrites the stored result, and the breaker is unchanged |
| Service.ClosedBreakerProbes | src/main/java/com/healthcheck/service/HealthCheckService.java:161-168 | past the cache a closed breaker lets the retry run; its result is returned and stored, UP resets the breaker, and any other status, DEGRADED included, records a failure |
| Service.CheckKeepsOriginals | src/main/java/com/healthcheck/service/HealthCheckService.java:133-170 | a check keeps the invariant that every stored result is stamped and carries no cache metadata |
| Service.SecondCheckWithinTtlIsCached | src/test/java/com/healthcheck/service/HealthCheckServiceTest.java:160-172 | an unforced check within the TTL of a forced one is served from the cache with the first result's status, category and message, with `cachedAt` the first check's instant, and with no call and no state change |
| Service.FailureAtThresholdOpensCircuit | src/main/java/com/healthcheck/service/HealthCheckService.java:150-168 | a failing forced check that brings the counter to the threshold makes the next forced check within the open window a CIRCUIT_OPEN refusal with no transport call |
| Service.Summarize | src/main/java/com/healthcheck/service/HealthCheckService.java:176-180 | the summary lists exactly the statuses that occur among the stored results, each with its count, and is stamped `now` |
| Service.StatusCountsPartition | src/main/java/com/healthcheck/service/HealthCheckService.java:177-178 | the four per-status counts add up to the number of stored results |
| Service.SummaryCountsEveryResult | src/main/java/com/healthcheck/service/HealthCheckService.java:176-180 | the counts of a summary add up to the number of stored results |
| Service.HealthCheckService.constructor | src/main/java/com/healthcheck/service/HealthCheckService.java:25-41 | a new service has no targets, no results and no breakers |
| Service.HealthCheckService.CreateTarget | src/main/java/com/healthcheck/service/HealthCheckService.java:43-69 | the target built by `NewTarget` is stored under its id, results are untouched, and a new closed breaker is added unless the id already has one |
| Service.HealthCheckService.UpdateTarget | src/main/java/com/healthcheck/service/HealthCheckService.java:79-127 | an unknown id gives null and changes nothing; otherwise the stored target is replaced by `ApplyUpdate` of it, which is returned |
| Service.HealthCheckService.DeleteTarget | src/main/java/com/healthcheck/service/HealthCheckService.java:129-131 | the target is removed, the answer says whether it existed, and its result and breaker are left behind |
| Service.HealthCheckService.BreakerFor | src/main/java/com/healthcheck/service/HealthCheckService.java:150 | the id's existing breaker is returned unchanged, or a new closed one is created and registered |
| Service.HealthCheckService.RecordOutcome | src/main/java/com/healthcheck/service/HealthCheckService.java:164-168 | UP applies the success step and anything else the failure step to the target's breaker; every other breaker keeps its state |
| Service.HealthCheckService.CheckTarget | src/main/java/com/healthcheck/service/HealthCheckService.java:133-170 | the returned result, backoffs, new maps and consumed transport queue are exactly those of `Check` on the old state |
| Service.HealthCheckService.ProbeTarget | src/main/java/com/healthcheck/service/HealthCheckService.java:150-169 | past the cache, the answer and new state are those of the breaker step on the state with the target's breaker registered |
| Service.HealthCheckService.ProbeOpen | src/main/java/com/healthcheck/service/HealthCheckService.java:151-158 | an open breaker's refusal is returned and stored, with no call |
| Service.HealthCheckService.ProbeClosed | src/main/java/com/healthcheck/service/HealthCheckService.java:161-169 | the retry run's result is returned, stored and recorded in the breaker, as the breaker step says |
| Service.HealthCheckService.RunAndStore | src/main/java/com/healthcheck/service/HealthCheckService.java:161-162 | the retry run's result is stored as the target's last result, and the transport queue loses one outcome per attempt |
| Service.HealthCheckService.GetSummary | src/main/java/com/healthcheck/service/HealthCheckService.java:176-180 | the summary of the stored results at `now` |
| Service.HealthCheckService.ScheduledChecks | src/main/java/com/healthcheck/service/HealthCheckService.java:182-187 | given the target ids, after an unforced check of each of them every target has a stored result, and the targets are unchanged |

## Left out

- Clock: every `Instant.now()` read within one check is the single parameter `now`. The latency stored by an attempt, which the code overwrites with the wall-clock time of the attempt, is the parameter `elapsedMs`.
- The JSON library (`objectMapper.readTree`) is a parameter `json` of type `string -> bool`. A null body is always invalid JSON, because `readTree(null)` throws (`HealthCheckService.java:245`).
- Real HTTP (`JavaHttpTransport`) is not part of this model. The transport is the scripted queue of the test double `FakeTransport`.
- `Thread.sleep` and the interrupt handling in `sleepBackoff` are not modelled. The delays are recorded instead.
- Retry.BackoffDelay: `base * (long) Math.pow(2, attempt)` is exact integer arithmetic here. It does not model double rounding or the clamping of the long cast for very large attempt numbers. Nor does it model a negative base delay: there `Thread.sleep` (`HealthCheckService.java:298`) throws `IllegalArgumentException`, which leaves `checkTarget` with nothing stored and the breaker untouched, whereas the model records the negative delay.
- Breaker.AfterFailure: the `int` counter is unbounded here. The Java counter would wrap after 2^31 consecutive failures.
- Concurrency (`ConcurrentHashMap`, races between `computeIfAbsent` and other calls) and the Spring `@Scheduled` trigger are not modelled. `ScheduledChecks` runs sequentially over a given list of ids, with one `now` for the whole pass.
- Service.HealthCheckService.ScheduledChecks: its contract states that every target ends with a stored result. It does not state the sequence of `Check` steps.
- Targets are values. `updateTarget` mutates the shared `Target` object in place, while the model replaces the map entry, so aliasing of a `Target` returned earlier is not captured.
- Null handling outside the modelled nullable fields is not modelled, e.g. a null request or a null duration.
- Lengths and substrings are on Dafny `char` sequences, not on UTF-16 code units.
- The accessors `getTarget`, `listTargets` and `getLastResults` only return the maps and are not modelled.
- UUIDs are integers, and `createTarget` takes the fresh id as a parameter instead of drawing a random one.
- Retry.NoRetriesSingleAttempt: with no retries, a retryable failure is still followed by one backoff, because `sleepBackoff(i)` at `HealthCheckService.java:203` also runs on the last iteration. The model follows the code.
- Retry.RunRetries / Retry.AttemptWithRetries: the run uses the corrected budget `MaxAttempts`, not the 32-bit arithmetic of `HealthCheckService.java:192`. They differ only at maxRetries = 2147483647, where the code makes one attempt and the model up to 2^31 (see Findings; `MaxAttemptsAgree` proves the two budgets equal everywhere else).
- The test at `HealthCheckServiceTest.java:175-188` is inconsistent with the code and is not used as a property. With one retry allowed, the first check consumes both queued timeouts, so the second check receives the default 200 answer and is UP.
- `HealthCheckController`, the request validation annotations and the `HealthCheckProperties` holder are not modelled. The configuration is the `Config` value, with the defaults in `DefaultConfig`.

## Findings

| source | as written | input that shows it | evidently intended | confidence | as-written member | corrected member |
|---|---|---|---|---|---|---|
| src/main/java/com/healthcheck/service/HealthCheckService.java:192 | `Math.max(1, target.getMaxRetries() + 1)` in `int` arithmetic | maxRetries = 2147483647, which the `@Min(0)` validation accepts: the sum wraps to -2147483648 and the budget becomes 1 attempt | maxRetries + 1 attempts | not executed | Retry.MaxRetriesOverflow | Retry.MaxAttempts |
