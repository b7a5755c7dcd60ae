/**
 The retry controller (`attemptWithRetries`): up to `maxRetries + 1`
 attempts against the transport, stopping at the first UP or
 non-retryable result, with a backoff of `base * 2^i` after attempt `i`.
 The backoff delays are recorded instead of slept.
 */
module Retry {
  import opened Model
  import opened Classifier
  import opened Transport

  const Int32Modulus: int := 0x1_0000_0000

  /** Java `int` arithmetic: the value wrapped into [-2^31, 2^31). */
  function Wrap32(x: int): (r: int)
    ensures -0x8000_0000 <= r < 0x8000_0000
    ensures (r - x) % Int32Modulus == 0
  {
    (x + 0x8000_0000) % Int32Modulus - 0x8000_0000
  }

  /** The attempt budget as the source computes it: `Math.max(1, maxRetries + 1)` in 32-bit arithmetic. */
  function MaxAttemptsAsWritten(maxRetries: int): int {
    Max(1, Wrap32(maxRetries + 1))
  }

  /** The attempt budget as intended: one attempt plus one per allowed retry, and at least one. */
  function MaxAttempts(maxRetries: int): (n: nat)
    ensures n >= 1
    ensures maxRetries >= 0 ==> n == maxRetries + 1
    ensures maxRetries < 0 ==> n == 1
  {
    Max(1, maxRetries + 1)
  }

  /** The largest retry count a target accepts: its field is a Java `int`, validated only to be at least 0. */
  const MaxInt32: int := 0x7fff_ffff

  /** With the largest retry count the source's budget wraps around to a single attempt. */
  lemma MaxRetriesOverflow()
    ensures MaxAttemptsAsWritten(MaxInt32) == 1
    ensures MaxAttempts(MaxInt32) == MaxInt32 + 1
  {
  }

  /** Everywhere else in the `int` range the source's budget is the intended one. */
  lemma MaxAttemptsAgree(maxRetries: int)
    requires -0x8000_0000 <= maxRetries < MaxInt32
    ensures MaxAttemptsAsWritten(maxRetries) == MaxAttempts(maxRetries)
  {
  }

  function Pow2(n: nat): (r: nat)
    ensures r >= 1
  {
    if n == 0 then 1 else 2 * Pow2(n - 1)
  }

  /** `sleepBackoff(attempt)`: the delay slept after attempt number `attempt` (from 0). */
  function BackoffDelay(baseMs: int, attempt: nat): int {
    baseMs * Pow2(attempt)
  }

  /** Each backoff is twice the one before it, starting from the base delay. */
  lemma BackoffDoubles(baseMs: int, attempt: nat)
    ensures BackoffDelay(baseMs, 0) == baseMs
    ensures BackoffDelay(baseMs, attempt + 1) == 2 * BackoffDelay(baseMs, attempt)
  {
  }

  /** What a retry run produced: its final result and the backoff delays slept, in order. */
  datatype RetryTrace = RetryTrace(result: HealthCheckResult, delays: seq<int>)

  /** The result of attempt number `i` (from 0) against queue `q`. */
  function AttemptAt(cfg: Config, json: JsonOracle, t: Target, q: seq<TransportOutcome>,
                     now: int, elapsedMs: int, i: nat): HealthCheckResult
  {
    ExecuteOnce(cfg, json, t, NextOutcome(q, i), i + 1, now, elapsedMs)
  }

  /** The run stops after this result. */
  predicate Stops(r: HealthCheckResult) {
    r.status == UP || !IsRetryable(r)
  }

  /** Every attempt result records its own attempt number. */
  ghost predicate Numbered(attempt: nat -> HealthCheckResult) {
    forall k: nat :: attempt(k).attempts == k + 1
  }

  /**
   The attempts from number `i` on, where `attempt(k)` is the result of
   attempt `k` and `maxAttempts` are allowed in total: the run ends at the
   first result that is UP or not retryable, or when the budget is spent;
   every result that does not stop the run is followed by a backoff, the
   last attempt's included.
   */
  function RunFrom(attempt: nat -> HealthCheckResult, baseMs: int, i: nat, maxAttempts: nat): RetryTrace
    requires i < maxAttempts
    decreases maxAttempts - i
  {
    var r := attempt(i);
    if Stops(r) then RetryTrace(r, [])
    else if i + 1 == maxAttempts then RetryTrace(r, [BackoffDelay(baseMs, i)])
    else
      var rest := RunFrom(attempt, baseMs, i + 1, maxAttempts);
      RetryTrace(rest.result, [BackoffDelay(baseMs, i)] + rest.delays)
  }

  /**
   The shape of a run from attempt `i`: it makes between one and all of the
   remaining attempts and returns the last one's result; it ends early only
   at a result that stops it, every earlier attempt did not stop it, one
   backoff follows every attempt that did not stop the run, and the backoffs
   double from attempt `i`'s.
   */
  lemma {:induction false} RunFromShape(attempt: nat -> HealthCheckResult, baseMs: int, i: nat, maxAttempts: nat)
    requires i < maxAttempts && Numbered(attempt)
    ensures var tr := RunFrom(attempt, baseMs, i, maxAttempts);
      && i + 1 <= tr.result.attempts <= maxAttempts
      && tr.result == attempt(tr.result.attempts - 1)
      && (Stops(tr.result) || tr.result.attempts == maxAttempts)
      && (forall k: nat :: i <= k < tr.result.attempts - 1 ==> !Stops(attempt(k)))
      && |tr.delays| == (if Stops(tr.result) then tr.result.attempts - 1 - i else tr.result.attempts - i)
      && (forall k :: 0 <= k < |tr.delays| ==> tr.delays[k] == BackoffDelay(baseMs, i + k))
    decreases maxAttempts - i
  {
    var r := attempt(i);
    if !Stops(r) && i + 1 < maxAttempts {
      RunFromShape(attempt, baseMs, i + 1, maxAttempts);
    }
  }

  /** The attempt results of target `t` against transport queue `q`. */
  function Attempts(cfg: Config, json: JsonOracle, t: Target, q: seq<TransportOutcome>,
                    now: int, elapsedMs: int): nat -> HealthCheckResult
  {
    (k: nat) => AttemptAt(cfg, json, t, q, now, elapsedMs, k)
  }

  /** Attempt `k` records attempt number `k + 1`, is stamped with `now` and is not a cached copy. */
  lemma AttemptsAreNumbered(cfg: Config, json: JsonOracle, t: Target, q: seq<TransportOutcome>,
                            now: int, elapsedMs: int)
    ensures Numbered(Attempts(cfg, json, t, q, now, elapsedMs))
    ensures forall k: nat :: var r := Attempts(cfg, json, t, q, now, elapsedMs)(k);
      r.timestamp == Some(now) && !r.fromCache && r.cachedAt.None?
  {
  }

  /** The whole retry run for target `t` with transport queue `q`. */
  function RunRetries(cfg: Config, json: JsonOracle, t: Target, q: seq<TransportOutcome>,
                 now: int, elapsedMs: int): RetryTrace
  {
    RunFrom(Attempts(cfg, json, t, q, now, elapsedMs), cfg.retryBaseBackoffMs, 0, MaxAttempts(t.maxRetries))
  }

  /**
   The run makes between 1 and `max(1, maxRetries + 1)` attempts, one
   transport call each, and its result is a fresh one stamped `now`; it ends early only at an UP or non-retryable result,
   every earlier attempt was a retryable failure, and the delays double
   from the base delay.
   */
  lemma RetryShape(cfg: Config, json: JsonOracle, t: Target, q: seq<TransportOutcome>, now: int, elapsedMs: int)
    ensures var tr := RunRetries(cfg, json, t, q, now, elapsedMs);
      && 1 <= tr.result.attempts <= Max(1, t.maxRetries + 1)
      && tr.result == AttemptAt(cfg, json, t, q, now, elapsedMs, tr.result.attempts - 1)
      && tr.result.timestamp == Some(now) && !tr.result.fromCache && tr.result.cachedAt.None?
      && (tr.result.attempts < Max(1, t.maxRetries + 1) ==> Stops(tr.result))
      && (forall k :: 0 <= k < tr.result.attempts - 1 ==>
            var r := AttemptAt(cfg, json, t, q, now, elapsedMs, k); r.status != UP && IsRetryable(r))
      && |tr.delays| == (if Stops(tr.result) then tr.result.attempts - 1 else tr.result.attempts)
      && (forall k :: 0 <= k < |tr.delays| ==> tr.delays[k] == cfg.retryBaseBackoffMs * Pow2(k))
  {
    AttemptsAreNumbered(cfg, json, t, q, now, elapsedMs);
    assert forall k: nat :: Attempts(cfg, json, t, q, now, elapsedMs)(k) == AttemptAt(cfg, json, t, q, now, elapsedMs, k);
    RunFromShape(Attempts(cfg, json, t, q, now, elapsedMs), cfg.retryBaseBackoffMs, 0, MaxAttempts(t.maxRetries));
  }

  /** With no retries allowed, one attempt is made; a retryable failure is still followed by one backoff. */
  lemma NoRetriesSingleAttempt(cfg: Config, json: JsonOracle, t: Target, q: seq<TransportOutcome>, now: int, elapsedMs: int)
    requires t.maxRetries == 0
    ensures var tr := RunRetries(cfg, json, t, q, now, elapsedMs);
      && tr.result.attempts == 1
      && tr.result == AttemptAt(cfg, json, t, q, now, elapsedMs, 0)
      && tr.delays == (if Stops(tr.result) then [] else [cfg.retryBaseBackoffMs])
  {
    AttemptsAreNumbered(cfg, json, t, q, now, elapsedMs);
  }

  /** One allowed retry, a timeout and then a prompt 200 in range: UP after two attempts and one backoff. */
  lemma TimeoutThenSuccess(cfg: Config, json: JsonOracle, t: Target, ok: HttpResponseData, now: int, elapsedMs: int)
    requires t.maxRetries == 1
    requires ok.statusCode == 200 && ok.durationMs <= t.slowThresholdMs
    requires t.expectedStatusMin <= 200 <= t.expectedStatusMax
    requires t.expectedBodyContains.None? && !t.expectJson
    ensures var tr := RunRetries(cfg, json, t, [Timeout, Response(ok)], now, elapsedMs);
      && tr.result.status == UP && tr.result.attempts == 2
      && tr.delays == [cfg.retryBaseBackoffMs]
  {
    var q := [Timeout, Response(ok)];
    assert !Stops(AttemptAt(cfg, json, t, q, now, elapsedMs, 0));
    assert Stops(AttemptAt(cfg, json, t, q, now, elapsedMs, 1));
  }

  /** A trace with `delays` slept before it. */
  function After(delays: seq<int>, tr: RetryTrace): RetryTrace {
    RetryTrace(tr.result, delays + tr.delays)
  }

  /** One step of the run from attempt `i`, after `delays` were already slept. */
  lemma RunStep(attempt: nat -> HealthCheckResult, baseMs: int, i: nat, maxAttempts: nat, delays: seq<int>)
    requires i < maxAttempts
    ensures var here := After(delays, RunFrom(attempt, baseMs, i, maxAttempts));
      var d := BackoffDelay(baseMs, i);
      && (Stops(attempt(i)) ==> here == RetryTrace(attempt(i), delays))
      && (!Stops(attempt(i)) && i + 1 == maxAttempts ==> here == RetryTrace(attempt(i), delays + [d]))
      && (!Stops(attempt(i)) && i + 1 < maxAttempts ==>
            here == After(delays + [d], RunFrom(attempt, baseMs, i + 1, maxAttempts)))
  {
    var d := BackoffDelay(baseMs, i);
    if !Stops(attempt(i)) && i + 1 < maxAttempts {
      var rest := RunFrom(attempt, baseMs, i + 1, maxAttempts);
      assert delays + ([d] + rest.delays) == (delays + [d]) + rest.delays;
    }
  }

  /**
   `attemptWithRetries`: calls the transport once per attempt and returns
   the last result and the backoff delays, exactly as `RunRetries` describes,
   having consumed one queued outcome per attempt.
   */
  method AttemptWithRetries(cfg: Config, json: JsonOracle, transport: FakeTransport, t: Target,
                            now: int, elapsedMs: int)
    returns (last: HealthCheckResult, delays: seq<int>)
    modifies transport
    ensures 1 <= last.attempts <= MaxAttempts(t.maxRetries)
    ensures RetryTrace(last, delays) == RunRetries(cfg, json, t, QueueOf(old(transport.queues), t.id), now, elapsedMs)
    ensures transport.queues == Consume(old(transport.queues), t.id, last.attempts)
  {
    ghost var q := QueueOf(transport.queues, t.id);
    ghost var attempt := Attempts(cfg, json, t, q, now, elapsedMs);
    ghost var spec := RunRetries(cfg, json, t, q, now, elapsedMs);
    var attempts := 0;
    var maxAttempts := MaxAttempts(t.maxRetries);
    last := BaseResult(t.id);
    delays := [];
    var i := 0;
    while i < maxAttempts
      invariant 0 <= i <= maxAttempts && attempts == i
      invariant transport.queues == Consume(old(transport.queues), t.id, i)
      invariant i < maxAttempts ==> spec == After(delays, RunFrom(attempt, cfg.retryBaseBackoffMs, i, maxAttempts))
      invariant i == maxAttempts ==> spec == RetryTrace(last, delays) && last.attempts == i
    {
      attempts := attempts + 1;
      var o := transport.Execute(t);
      DropThenNext(q, i, 0);
      ConsumeTwice(old(transport.queues), t.id, i, 1);
      last := ExecuteOnce(cfg, json, t, o, attempts, now, elapsedMs);
      assert last == attempt(i);
      RunStep(attempt, cfg.retryBaseBackoffMs, i, maxAttempts, delays);
      if last.status == UP || !IsRetryable(last) {
        return;
      }
      delays := delays + [BackoffDelay(cfg.retryBaseBackoffMs, i)];
      i := i + 1;
    }
  }
}
