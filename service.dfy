/**
 The probe orchestrator (`HealthCheckService`): the target registry, the
 last result of every target (which doubles as the result cache), and one
 circuit breaker per target. `checkTarget` goes through the cache, then the
 breaker, then the retry loop, then stores the result and updates the breaker.
 */
module Service {
  import opened Model
  import opened Targets
  import opened Classifier
  import opened Breaker
  import opened Transport
  import opened Retry

  /** The service's three maps as values, breakers by their state. */
  datatype ServiceState = ServiceState(
    targets: map<Id, Target>,
    lastResults: map<Id, HealthCheckResult>,
    breakers: map<Id, BreakerState>)

  /** A stored result may be served again: not forced, stamped, and strictly younger than the TTL. */
  predicate CacheHit(cfg: Config, lastResults: map<Id, HealthCheckResult>, id: Id, force: bool, now: int) {
    && !force
    && id in lastResults
    && lastResults[id].timestamp.Some?
    && now - lastResults[id].timestamp.value < cfg.cacheTtlMs
  }

  /** Two results agree on everything except the cache metadata. */
  predicate SameContent(a: HealthCheckResult, b: HealthCheckResult) {
    a.(fromCache := false, cachedAt := None) == b.(fromCache := false, cachedAt := None)
  }

  /** The copy a cache hit returns (`copyResult` plus the cache metadata). */
  function CachedCopy(stored: HealthCheckResult): (c: HealthCheckResult)
    ensures SameContent(c, stored)
    ensures c.fromCache && c.cachedAt == stored.timestamp
  {
    stored.(fromCache := true, cachedAt := stored.timestamp)
  }

  /** The result of a check refused by an open breaker. */
  function CircuitOpenResult(id: Id, now: int): (r: HealthCheckResult)
    ensures r.targetId == id && r.status == DOWN && r.errorCategory == CIRCUIT_OPEN
    ensures r.timestamp == Some(now) && r.attempts == 0 && !r.fromCache && r.cachedAt.None?
  {
    BaseResult(id).(status := DOWN, errorCategory := CIRCUIT_OPEN,
                    errorMessage := Some("Circuit breaker open"), timestamp := Some(now))
  }

  /** The breaker of `id`, a new closed one when there is none yet (`computeIfAbsent`). */
  function BreakerOf(breakers: map<Id, BreakerState>, id: Id): BreakerState {
    if id in breakers then breakers[id] else Closed
  }

  /** What one check returned and left behind, and how many transport calls and backoffs it made. */
  datatype CheckOutcome = CheckOutcome(
    result: Option<HealthCheckResult>,
    state: ServiceState,
    calls: int,
    delays: seq<int>)

  /**
   `checkTarget(id, force)` at instant `now`, with `q` the transport's queue
   for the target: unknown id, then cache, then breaker, then the retry
   loop, whose result is stored and recorded in the breaker.
   */
  function Check(cfg: Config, json: JsonOracle, s: ServiceState, q: seq<TransportOutcome>,
                 id: Id, force: bool, now: int, elapsedMs: int): (out: CheckOutcome)
    ensures out.state.targets == s.targets
    ensures out.result.Some? <==> id in s.targets
    ensures out.result.None? ==> out.state == s && out.calls == 0
    ensures out.result.Some? ==> (out.result.value.fromCache <==> CacheHit(cfg, s.lastResults, id, force, now))
    ensures out.result.Some? && out.result.value.fromCache ==> out.state == s && out.calls == 0
    ensures out.result.Some? && !out.result.value.fromCache ==>
      && out.state.lastResults == s.lastResults[id := out.result.value]
      && out.calls == out.result.value.attempts
      && out.result.value.timestamp == Some(now)
    ensures forall j :: j != id ==> BreakerOf(out.state.breakers, j) == BreakerOf(s.breakers, j)
    ensures out.state.breakers.Keys <= s.breakers.Keys + {id}
    ensures out.calls >= 0 && (out.calls == 0 ==> out.delays == [])
  {
    if id !in s.targets then
      CheckOutcome(None, s, 0, [])
    else if CacheHit(cfg, s.lastResults, id, force, now) then
      CheckOutcome(Some(CachedCopy(s.lastResults[id])), s, 0, [])
    else
      RetryShape(cfg, json, s.targets[id], q, now, elapsedMs);
      BreakerStep(cfg, Registered(s, id), id, now, RunRetries(cfg, json, s.targets[id], q, now, elapsedMs))
  }

  /** The state once the target has a breaker (`computeIfAbsent`): a new closed one when it had none. */
  function Registered(s: ServiceState, id: Id): ServiceState {
    s.(breakers := s.breakers[id := BreakerOf(s.breakers, id)])
  }

  /**
   A check past the cache, the target's breaker registered, where `tr` is
   what the retry loop does if it runs: an open breaker refuses the check,
   otherwise the loop's result is stored and recorded in the breaker.
   */
  function BreakerStep(cfg: Config, s: ServiceState, id: Id, now: int, tr: RetryTrace): CheckOutcome
    requires id in s.breakers
  {
    var b := s.breakers[id];
    if IsOpenAt(b, now) then
      var r := CircuitOpenResult(id, now);
      CheckOutcome(Some(r), s.(lastResults := s.lastResults[id := r]), 0, [])
    else
      var b' := if tr.result.status == UP then AfterSuccess(b)
                else AfterFailure(b, cfg.circuitFailureThreshold, cfg.circuitOpenMs, now);
      CheckOutcome(Some(tr.result),
                   s.(lastResults := s.lastResults[id := tr.result], breakers := s.breakers[id := b']),
                   tr.result.attempts, tr.delays)
  }

  /** An unknown id: no result, no state change, no transport call. */
  lemma CheckUnknownTarget(cfg: Config, json: JsonOracle, s: ServiceState, q: seq<TransportOutcome>,
                           id: Id, force: bool, now: int, elapsedMs: int)
    requires id !in s.targets
    ensures Check(cfg, json, s, q, id, force, now, elapsedMs) == CheckOutcome(None, s, 0, [])
  {
  }

  /**
   A cache hit returns the stored result with `fromCache` set and `cachedAt`
   the stored timestamp, unchanged otherwise, and touches neither the
   stored result, nor the breaker, nor the transport.
   */
  lemma CacheHitServesStoredResult(cfg: Config, json: JsonOracle, s: ServiceState, q: seq<TransportOutcome>,
                                   id: Id, now: int, elapsedMs: int)
    requires id in s.targets && CacheHit(cfg, s.lastResults, id, false, now)
    ensures var out := Check(cfg, json, s, q, id, false, now, elapsedMs);
      && out.result.Some?
      && SameContent(out.result.value, s.lastResults[id])
      && out.result.value.fromCache && out.result.value.cachedAt == s.lastResults[id].timestamp
      && out.state == s && out.calls == 0 && out.delays == []
  {
  }

  /** A forced check is never served from the cache. */
  lemma ForcedCheckIsFresh(cfg: Config, json: JsonOracle, s: ServiceState, q: seq<TransportOutcome>,
                           id: Id, now: int, elapsedMs: int)
    ensures var out := Check(cfg, json, s, q, id, true, now, elapsedMs);
      out.result.Some? ==> !out.result.value.fromCache
  {
  }

  /**
   Past the cache, an open breaker answers DOWN / CIRCUIT_OPEN without a
   transport call; the answer replaces the stored result and the breaker is
   left as it was.
   */
  lemma OpenBreakerShortCircuits(cfg: Config, json: JsonOracle, s: ServiceState, q: seq<TransportOutcome>,
                                 id: Id, force: bool, now: int, elapsedMs: int)
    requires id in s.targets && !CacheHit(cfg, s.lastResults, id, force, now)
    requires id in s.breakers && IsOpenAt(s.breakers[id], now)
    ensures var out := Check(cfg, json, s, q, id, force, now, elapsedMs);
      && out.result == Some(CircuitOpenResult(id, now))
      && out.calls == 0 && out.delays == []
      && out.state == s.(lastResults := s.lastResults[id := CircuitOpenResult(id, now)])
  {
  }

  /**
   Past the cache with the breaker closed, the retry loop's result is
   returned and stored; UP resets the breaker and every other status,
   DEGRADED included, records a failure.
   */
  lemma ClosedBreakerProbes(cfg: Config, json: JsonOracle, s: ServiceState, q: seq<TransportOutcome>,
                            id: Id, force: bool, now: int, elapsedMs: int)
    requires id in s.targets && !CacheHit(cfg, s.lastResults, id, force, now)
    requires !IsOpenAt(BreakerOf(s.breakers, id), now)
    ensures var out := Check(cfg, json, s, q, id, force, now, elapsedMs);
      var tr := RunRetries(cfg, json, s.targets[id], q, now, elapsedMs);
      var b := BreakerOf(s.breakers, id);
      && out.result == Some(tr.result) && out.delays == tr.delays && out.calls == tr.result.attempts
      && out.state.lastResults == s.lastResults[id := tr.result]
      && out.state.breakers[id] ==
           (if tr.result.status == UP then Closed
            else AfterFailure(b, cfg.circuitFailureThreshold, cfg.circuitOpenMs, now))
  {
  }

  /** Every stored result is an original: stamped, and without cache metadata. */
  predicate StoredResultsAreOriginals(s: ServiceState) {
    forall id :: id in s.lastResults ==>
      s.lastResults[id].timestamp.Some? && !s.lastResults[id].fromCache && s.lastResults[id].cachedAt.None?
  }

  /** No check ever stores a cached copy: cache metadata never leaks into storage. */
  lemma CheckKeepsOriginals(cfg: Config, json: JsonOracle, s: ServiceState, q: seq<TransportOutcome>,
                            id: Id, force: bool, now: int, elapsedMs: int)
    requires StoredResultsAreOriginals(s)
    ensures StoredResultsAreOriginals(Check(cfg, json, s, q, id, force, now, elapsedMs).state)
  {
    if id in s.targets {
      RetryShape(cfg, json, s.targets[id], q, now, elapsedMs);
    }
  }

  /**
   A probed result is served from the cache by a later unforced check that
   comes within the TTL, with the same status, category and message.
   */
  lemma SecondCheckWithinTtlIsCached(cfg: Config, json: JsonOracle, s: ServiceState,
                                     q1: seq<TransportOutcome>, q2: seq<TransportOutcome>,
                                     id: Id, now1: int, now2: int, elapsedMs: int)
    requires id in s.targets
    requires now2 - now1 < cfg.cacheTtlMs
    ensures var first := Check(cfg, json, s, q1, id, true, now1, elapsedMs);
      var second := Check(cfg, json, first.state, q2, id, false, now2, elapsedMs);
      && second.result.Some? && second.result.value.fromCache
      && second.result.value.cachedAt == Some(now1)
      && second.result.value.status == first.result.value.status
      && second.result.value.errorCategory == first.result.value.errorCategory
      && second.result.value.errorMessage == first.result.value.errorMessage
      && second.calls == 0 && second.state == first.state
  {
    var first := Check(cfg, json, s, q1, id, true, now1, elapsedMs);
    assert CacheHit(cfg, first.state.lastResults, id, false, now2);
  }

  /**
   With the breaker one failure short of the threshold, a failing forced
   check opens it: a forced check that follows within the open window is
   refused with CIRCUIT_OPEN and makes no transport call.
   */
  lemma FailureAtThresholdOpensCircuit(cfg: Config, json: JsonOracle, s: ServiceState,
                                       q1: seq<TransportOutcome>, q2: seq<TransportOutcome>,
                                       id: Id, now1: int, now2: int, elapsedMs: int)
    requires id in s.targets && id in s.breakers
    requires s.breakers[id].consecutiveFailures + 1 >= cfg.circuitFailureThreshold
    requires !IsOpenAt(s.breakers[id], now1)
    requires RunRetries(cfg, json, s.targets[id], q1, now1, elapsedMs).result.status != UP
    requires now1 <= now2 < now1 + cfg.circuitOpenMs
    ensures var first := Check(cfg, json, s, q1, id, true, now1, elapsedMs);
      var second := Check(cfg, json, first.state, q2, id, true, now2, elapsedMs);
      && second.result == Some(CircuitOpenResult(id, now2))
      && second.calls == 0
  {
    var first := Check(cfg, json, s, q1, id, true, now1, elapsedMs);
    ClosedBreakerProbes(cfg, json, s, q1, id, true, now1, elapsedMs);
    assert IsOpenAt(first.state.breakers[id], now2);
  }

  /** The ids whose stored result has status `st`. */
  function WithStatus(lastResults: map<Id, HealthCheckResult>, st: HealthStatus): set<Id> {
    set id | id in lastResults && lastResults[id].status == st
  }

  /** The number of stored results with status `st`. */
  function CountStatus(lastResults: map<Id, HealthCheckResult>, st: HealthStatus): nat {
    |WithStatus(lastResults, st)|
  }

  /** `getSummary`: the count per status, statuses with no result left out, and the instant of computation. */
  datatype HealthSummary = HealthSummary(statusCounts: map<HealthStatus, nat>, lastUpdated: int)

  const AllStatuses: set<HealthStatus> := {UP, DEGRADED, DOWN, HealthStatus.UNKNOWN}

  lemma AllStatusesListed()
    ensures forall st :: st in AllStatuses
  {
    forall st ensures st in AllStatuses {
      match st
      case UP => case DEGRADED => case DOWN => case UNKNOWN =>
    }
  }

  function Summarize(lastResults: map<Id, HealthCheckResult>, now: int): (s: HealthSummary)
    ensures s.lastUpdated == now
    ensures forall st :: st in s.statusCounts <==> CountStatus(lastResults, st) > 0
    ensures forall st :: st in s.statusCounts ==> s.statusCounts[st] == CountStatus(lastResults, st)
  {
    AllStatusesListed();
    HealthSummary(map st | st in AllStatuses && CountStatus(lastResults, st) > 0 :: CountStatus(lastResults, st), now)
  }

  /** A status's count in a summary, zero when it is left out. */
  function CountIn(s: HealthSummary, st: HealthStatus): nat {
    if st in s.statusCounts then s.statusCounts[st] else 0
  }

  /** The counts of a summary add up to the number of stored results. */
  lemma SummaryCountsEveryResult(lastResults: map<Id, HealthCheckResult>, now: int)
    ensures var s := Summarize(lastResults, now);
      CountIn(s, UP) + CountIn(s, DEGRADED) + CountIn(s, DOWN) + CountIn(s, HealthStatus.UNKNOWN) == |lastResults|
  {
    StatusCountsPartition(lastResults);
  }

  /** Every stored result has exactly one status, so the per-status counts add up to the number of results. */
  lemma StatusCountsPartition(lastResults: map<Id, HealthCheckResult>)
    ensures CountStatus(lastResults, UP) + CountStatus(lastResults, DEGRADED)
          + CountStatus(lastResults, DOWN) + CountStatus(lastResults, HealthStatus.UNKNOWN) == |lastResults|
  {
    var up, degraded := WithStatus(lastResults, UP), WithStatus(lastResults, DEGRADED);
    var down, unknown := WithStatus(lastResults, DOWN), WithStatus(lastResults, HealthStatus.UNKNOWN);
    forall id | id in lastResults
      ensures id in up + degraded + down + unknown
    {
      AllStatusesListed();
      assert lastResults[id].status in AllStatuses;
    }
    assert lastResults.Keys == up + degraded + down + unknown;
    DisjointUnion(up, degraded);
    assert up + degraded !! down;
    DisjointUnion(up + degraded, down);
    assert up + degraded + down !! unknown;
    DisjointUnion(up + degraded + down, unknown);
  }

  lemma DisjointUnion(a: set<Id>, b: set<Id>)
    requires a !! b
    ensures |a + b| == |a| + |b|
  {
    assert (a + b) - b == a;
  }

  /** The service object: three maps updated in place, a transport, a JSON parser and the configuration. */
  class HealthCheckService {
    const config: Config
    const json: JsonOracle
    const transport: FakeTransport
    var targets: map<Id, Target>
    var lastResults: map<Id, HealthCheckResult>
    var circuitBreakers: map<Id, CircuitBreakerState>

    /** Every target is stored under its own id, and no two ids share a breaker object. */
    ghost predicate Valid()
      reads this`targets, this`circuitBreakers
    {
      && (forall i :: i in targets ==> targets[i].id == i)
      && (forall i, j :: i in circuitBreakers && j in circuitBreakers && i != j ==> circuitBreakers[i] != circuitBreakers[j])
    }

    ghost function Breakers(): map<Id, BreakerState>
      reads this`circuitBreakers, circuitBreakers.Values
    {
      map i | i in circuitBreakers :: circuitBreakers[i].State()
    }

    ghost function Snapshot(): ServiceState
      reads this, circuitBreakers.Values
    {
      ServiceState(targets, lastResults, Breakers())
    }

    constructor (config: Config, json: JsonOracle, transport: FakeTransport)
      ensures Valid() && Snapshot() == ServiceState(map[], map[], map[])
      ensures this.config == config && this.json == json && this.transport == transport
    {
      this.config := config;
      this.json := json;
      this.transport := transport;
      targets := map[];
      lastResults := map[];
      circuitBreakers := map[];
    }

    /** `createTarget` under the fresh id `id`; a breaker is added unless one exists. */
    method CreateTarget(id: Id, request: CreateTargetRequest) returns (t: Target)
      requires Valid()
      modifies this
      ensures Valid()
      ensures t == NewTarget(id, request)
      ensures targets == old(targets)[id := t] && lastResults == old(lastResults)
      ensures Breakers() == if id in old(Breakers()) then old(Breakers()) else old(Breakers())[id := Closed]
      ensures forall j :: j in circuitBreakers ==>
        (j in old(circuitBreakers) && circuitBreakers[j] == old(circuitBreakers[j])) || fresh(circuitBreakers[j])
    {
      t := NewTarget(id, request);
      targets := targets[id := t];
      if id !in circuitBreakers {
        var b := new CircuitBreakerState();
        circuitBreakers := circuitBreakers[id := b];
      }
    }

    /** `updateTarget`: the partial update applied to an existing target; `None` for an unknown id. */
    method UpdateTarget(id: Id, request: UpdateTargetRequest) returns (r: Option<Target>)
      requires Valid()
      modifies this
      ensures Valid()
      ensures id !in old(targets) ==> r.None? && targets == old(targets)
      ensures id in old(targets) ==>
        && r == Some(ApplyUpdate(old(targets)[id], request))
        && targets == old(targets)[id := r.value]
      ensures lastResults == old(lastResults) && circuitBreakers == old(circuitBreakers)
    {
      if id !in targets {
        return None;
      }
      var t := ApplyUpdate(targets[id], request);
      targets := targets[id := t];
      r := Some(t);
    }

    /** `deleteTarget`: the last result and the breaker of the target are left behind. */
    method DeleteTarget(id: Id) returns (existed: bool)
      requires Valid()
      modifies this
      ensures Valid()
      ensures existed == (id in old(targets))
      ensures targets == old(targets) - {id}
      ensures lastResults == old(lastResults) && circuitBreakers == old(circuitBreakers)
    {
      existed := id in targets;
      targets := targets - {id};
    }

    /** The breaker of `id`, created and registered when there is none yet (`computeIfAbsent`). */
    method BreakerFor(id: Id) returns (breaker: CircuitBreakerState)
      requires Valid()
      modifies this
      ensures Valid()
      ensures id in circuitBreakers && circuitBreakers[id] == breaker
      ensures id in old(circuitBreakers) ==> circuitBreakers == old(circuitBreakers)
      ensures id !in old(circuitBreakers) ==> fresh(breaker) && circuitBreakers == old(circuitBreakers)[id := breaker]
      ensures Snapshot() == Registered(old(Snapshot()), id)
      ensures forall x :: x in circuitBreakers.Values ==> x in old(circuitBreakers.Values) || fresh(x)
    {
      if id in circuitBreakers {
        breaker := circuitBreakers[id];
      } else {
        breaker := new CircuitBreakerState();
        circuitBreakers := circuitBreakers[id := breaker];
      }
    }

    /** Records a probe's final status in the breaker of `id`: UP resets it, anything else is a failure. */
    method RecordOutcome(id: Id, up: bool, now: int)
      requires Valid() && id in circuitBreakers
      modifies circuitBreakers[id]
      ensures Breakers() == old(Breakers())[id :=
        if up then AfterSuccess(old(Breakers())[id])
        else AfterFailure(old(Breakers())[id], config.circuitFailureThreshold, config.circuitOpenMs, now)]
    {
      var breaker := circuitBreakers[id];
      if up {
        breaker.RecordSuccess();
      } else {
        breaker.RecordFailure(config.circuitFailureThreshold, config.circuitOpenMs, now);
      }
      // The breaker belongs to `id` alone, so every other target's breaker keeps its state.
      assert forall j :: j in circuitBreakers && j != id ==> circuitBreakers[j].State() == old(circuitBreakers[j].State());
    }

    /** `checkTarget(id, force)` at instant `now`; the attempt latency is `elapsedMs`. */
    method CheckTarget(id: Id, force: bool, now: int, elapsedMs: int)
      returns (result: Option<HealthCheckResult>, delays: seq<int>)
      requires Valid()
      modifies this, transport, circuitBreakers.Values
      ensures Valid()
      ensures var out := Check(config, json, old(Snapshot()), QueueOf(old(transport.queues), id), id, force, now, elapsedMs);
        && result == out.result && delays == out.delays
        && Snapshot() == out.state
        && transport.queues == Consume(old(transport.queues), id, out.calls)
      ensures targets == old(targets) && old(lastResults).Keys <= lastResults.Keys
      ensures id in targets ==> id in lastResults
      ensures forall b :: b in circuitBreakers.Values ==> b in old(circuitBreakers.Values) || fresh(b)
    {
      if id !in targets {
        return None, [];
      }
      var target := targets[id];

      if !force && id in lastResults && lastResults[id].timestamp.Some? {
        var cached := lastResults[id];
        var age := now - cached.timestamp.value;
        if age < config.cacheTtlMs {
          return Some(CachedCopy(cached)), [];
        }
      }

      result, delays := ProbeTarget(id, now, elapsedMs);
    }

    /** The part of `checkTarget` past the cache: the breaker, then the retry loop. */
    method ProbeTarget(id: Id, now: int, elapsedMs: int)
      returns (result: Option<HealthCheckResult>, delays: seq<int>)
      requires Valid() && id in targets
      modifies this, transport, circuitBreakers.Values
      ensures Valid()
      ensures var tr := RunRetries(config, json, old(targets)[id], QueueOf(old(transport.queues), id), now, elapsedMs);
        var out := BreakerStep(config, Registered(old(Snapshot()), id), id, now, tr);
        && result == out.result && delays == out.delays
        && Snapshot() == out.state && out.calls >= 0
        && transport.queues == Consume(old(transport.queues), id, out.calls)
      ensures forall b :: b in circuitBreakers.Values ==> b in old(circuitBreakers.Values) || fresh(b)
    {
      ghost var registered := Registered(Snapshot(), id);
      ghost var tr := RunRetries(config, json, targets[id], QueueOf(transport.queues, id), now, elapsedMs);
      var breaker := BreakerFor(id);
      assert Snapshot() == registered;
      if breaker.IsOpen(now) {
        result, delays := ProbeOpen(id, now, tr);
      } else {
        var r;
        r, delays := ProbeClosed(id, now, elapsedMs);
        result := Some(r);
      }
    }

    /** An open breaker refuses the check: the refusal is stored as the target's last result. */
    method ProbeOpen(id: Id, now: int, ghost tr: RetryTrace) returns (result: Option<HealthCheckResult>, delays: seq<int>)
      requires id in circuitBreakers && circuitBreakers[id].IsOpen(now)
      modifies this`lastResults
      ensures var out := BreakerStep(config, old(Snapshot()), id, now, tr);
        && result == out.result && delays == out.delays
        && Snapshot() == out.state && out.calls == 0
    {
      var r := CircuitOpenResult(id, now);
      lastResults := lastResults[id := r];
      result, delays := Some(r), [];
    }

    /** A closed breaker lets the retry loop run; its result is stored and recorded in the breaker. */
    method ProbeClosed(id: Id, now: int, elapsedMs: int) returns (r: HealthCheckResult, delays: seq<int>)
      requires Valid() && id in targets && id in circuitBreakers && !circuitBreakers[id].IsOpen(now)
      modifies this`lastResults, transport, circuitBreakers[id]
      ensures RetryTrace(r, delays) == RunRetries(config, json, targets[id], QueueOf(old(transport.queues), id), now, elapsedMs)
      ensures r.attempts >= 1 && transport.queues == Consume(old(transport.queues), id, r.attempts)
      ensures var out := BreakerStep(config, old(Snapshot()), id, now, RetryTrace(r, delays));
        && out.result == Some(r) && out.delays == delays && out.calls == r.attempts
        && Snapshot() == out.state
    {
      ghost var before := Snapshot();
      r, delays := RunAndStore(id, now, elapsedMs);
      RecordOutcome(id, r.status == UP, now);
      ghost var b' := if r.status == UP then AfterSuccess(before.breakers[id])
                      else AfterFailure(before.breakers[id], config.circuitFailureThreshold, config.circuitOpenMs, now);
      assert Snapshot() == before.(lastResults := before.lastResults[id := r], breakers := before.breakers[id := b']);
    }

    /** The retry loop for target `id`, its final result stored as the target's last result. */
    method RunAndStore(id: Id, now: int, elapsedMs: int) returns (r: HealthCheckResult, delays: seq<int>)
      requires id in targets && targets[id].id == id
      modifies this`lastResults, transport
      ensures RetryTrace(r, delays) == RunRetries(config, json, targets[id], QueueOf(old(transport.queues), id), now, elapsedMs)
      ensures r.attempts >= 1 && transport.queues == Consume(old(transport.queues), id, r.attempts)
      ensures lastResults == old(lastResults)[id := r]
    {
      r, delays := AttemptWithRetries(config, json, transport, targets[id], now, elapsedMs);
      lastResults := lastResults[id := r];
    }

    /** `getSummary` at instant `now`. */
    method GetSummary(now: int) returns (summary: HealthSummary)
      ensures summary == Summarize(lastResults, now)
    {
      summary := Summarize(lastResults, now);
    }

    /**
     `scheduledChecks`: an unforced check of every id of `ids`, the target
     ids in the order the map yields them. Afterwards every target has a
     stored result.
     */
    method ScheduledChecks(ids: seq<Id>, now: int, elapsedMs: int)
      requires Valid()
      requires forall i :: i in targets <==> i in ids
      modifies this, transport, circuitBreakers.Values
      ensures Valid()
      ensures targets == old(targets)
      ensures forall k :: 0 <= k < |ids| && ids[k] in targets ==> ids[k] in lastResults
      ensures forall i :: i in targets ==> i in lastResults
    {
      var i := 0;
      while i < |ids|
        invariant 0 <= i <= |ids|
        invariant Valid() && targets == old(targets)
        invariant forall k :: 0 <= k < i && ids[k] in targets ==> ids[k] in lastResults
        invariant forall b :: b in circuitBreakers.Values ==> b in old(circuitBreakers.Values) || fresh(b)
      {
        var _, _ := CheckTarget(ids[i], false, now, elapsedMs);
        i := i + 1;
      }
    }
  }
}
