/**
 The per-target circuit breaker: a consecutive-failure counter and an
 optional instant until which the breaker is open. Expiry is lazy: the
 state only changes when a failure or a success is recorded.
 */
module Breaker {
  import opened Model

  /** The abstract value of a breaker: its two fields. */
  datatype BreakerState = BreakerState(consecutiveFailures: int, openUntil: Option<int>)

  /** A new breaker: no failures, never opened. */
  const Closed := BreakerState(0, None)

  /** Open at `now`: an open-until instant is set and `now` is strictly before it. */
  predicate IsOpenAt(b: BreakerState, now: int) {
    b.openUntil.Some? && now < b.openUntil.value
  }

  /** The state after `recordFailure(threshold, openMillis)` at instant `now`. */
  function AfterFailure(b: BreakerState, threshold: int, openMillis: int, now: int): BreakerState {
    var failures := b.consecutiveFailures + 1;
    BreakerState(failures, if failures >= threshold then Some(now + openMillis) else b.openUntil)
  }

  /** The state after `recordSuccess()`. */
  function AfterSuccess(b: BreakerState): BreakerState {
    BreakerState(0, None)
  }

  /** A new breaker is not open at any instant. */
  lemma ClosedIsNeverOpen(now: int)
    ensures !IsOpenAt(Closed, now)
  {
  }

  /**
   A failure adds exactly one to the counter; once the counter reaches the
   threshold every failure re-arms the window from the current instant, and
   below it the window is left as it was.
   */
  lemma FailureStep(b: BreakerState, threshold: int, openMillis: int, now: int)
    ensures var b' := AfterFailure(b, threshold, openMillis, now);
      && b'.consecutiveFailures == b.consecutiveFailures + 1
      && (b'.consecutiveFailures >= threshold ==> b'.openUntil == Some(now + openMillis))
      && (b'.consecutiveFailures < threshold ==> b'.openUntil == b.openUntil)
      && (b'.consecutiveFailures >= threshold ==> forall t :: now <= t < now + openMillis ==> IsOpenAt(b', t))
  {
  }

  /** A success fully resets the breaker, and a second success changes nothing more. */
  lemma SuccessResets(b: BreakerState, now: int)
    ensures AfterSuccess(b) == Closed
    ensures AfterSuccess(AfterSuccess(b)) == AfterSuccess(b)
    ensures !IsOpenAt(AfterSuccess(b), now)
  {
  }

  /**
   Lazy expiry: once a breaker is closed at some instant it stays closed at
   every later instant, while its counter and window stay as they are.
   */
  lemma ExpiryIsFinal(b: BreakerState, now: int, later: int)
    requires !IsOpenAt(b, now) && now <= later
    ensures !IsOpenAt(b, later)
  {
  }

  /** One recorded probe outcome: a success, or a failure recorded at an instant. */
  datatype Probe = Success | Failure(at: int)

  /** The breaker after recording each of `probes` in order, starting from `b`. */
  function Replay(b: BreakerState, probes: seq<Probe>, threshold: int, openMillis: int): BreakerState
    decreases |probes|
  {
    if probes == [] then b
    else
      var before := Replay(b, probes[..|probes| - 1], threshold, openMillis);
      match probes[|probes| - 1]
      case Success => AfterSuccess(before)
      case Failure(at) => AfterFailure(before, threshold, openMillis, at)
  }

  /** The number of failures since the last success (or since the start). */
  function TrailingFailures(probes: seq<Probe>): nat
    decreases |probes|
  {
    if probes == [] || probes[|probes| - 1].Success? then 0
    else TrailingFailures(probes[..|probes| - 1]) + 1
  }

  /**
   The breaker's state in closed form, from its history alone: the counter is
   the number of failures since the last success, and the breaker has a window
   exactly when there is at least one such failure and they reach the
   threshold, in which case the window runs from the most recent failure.
   */
  lemma {:induction false} ReplayFromClosed(probes: seq<Probe>, threshold: int, openMillis: int)
    ensures var k := TrailingFailures(probes);
      Replay(Closed, probes, threshold, openMillis) ==
        BreakerState(k, if k > 0 && k >= threshold then Some(probes[|probes| - 1].at + openMillis) else None)
  {
    if probes != [] {
      var init := probes[..|probes| - 1];
      ReplayFromClosed(init, threshold, openMillis);
      var k := TrailingFailures(init);
      if probes[|probes| - 1].Failure? && k > 0 && k < threshold {
        // The failures before this one stayed below the threshold, so no window was set.
        assert Replay(Closed, init, threshold, openMillis).openUntil == None;
      }
    }
  }

  /**
   `threshold` consecutive failures (threshold at least 1) open the breaker
   from the last of them for `openMillis`, whatever happened before them.
   */
  lemma ThresholdFailuresOpen(history: seq<Probe>, failures: seq<Probe>, threshold: int, openMillis: int, now: int)
    requires 1 <= threshold <= |failures|
    requires forall i :: 0 <= i < |failures| ==> failures[i].Failure?
    requires failures[|failures| - 1].at <= now < failures[|failures| - 1].at + openMillis
    ensures IsOpenAt(Replay(Closed, history + failures, threshold, openMillis), now)
  {
    TrailingFailuresAtLeast(history, failures);
    ReplayFromClosed(history + failures, threshold, openMillis);
  }

  lemma {:induction false} TrailingFailuresAtLeast(history: seq<Probe>, failures: seq<Probe>)
    requires forall i :: 0 <= i < |failures| ==> failures[i].Failure?
    ensures TrailingFailures(history + failures) >= |failures|
    ensures failures != [] ==> (history + failures)[|history + failures| - 1] == failures[|failures| - 1]
    decreases |failures|
  {
    if failures != [] {
      var init := failures[..|failures| - 1];
      assert (history + failures)[..|history + failures| - 1] == history + init;
      TrailingFailuresAtLeast(history, init);
    }
  }

  /** The breaker of one target: `CircuitBreakerState`. */
  class CircuitBreakerState {
    var consecutiveFailures: int
    var openUntil: Option<int>

    function State(): BreakerState
      reads this
    {
      BreakerState(consecutiveFailures, openUntil)
    }

    constructor ()
      ensures State() == Closed
    {
      consecutiveFailures := 0;
      openUntil := None;
    }

    /** `isOpen()` read against the clock value `now`. */
    function IsOpen(now: int): bool
      reads this
    {
      IsOpenAt(State(), now)
    }

    method RecordFailure(threshold: int, openMillis: int, now: int)
      modifies this
      ensures State() == AfterFailure(old(State()), threshold, openMillis, now)
    {
      consecutiveFailures := consecutiveFailures + 1;
      if consecutiveFailures >= threshold {
        openUntil := Some(now + openMillis);
      }
    }

    method RecordSuccess()
      modifies this
      ensures State() == AfterSuccess(old(State()))
    {
      consecutiveFailures := 0;
      openUntil := None;
    }
  }
}
