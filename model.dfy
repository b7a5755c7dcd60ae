/**
 The value types of the health-check service: targets and the requests that
 create and update them, one transport outcome, one classified probe result,
 and the service's configuration.
 */
module Model {

  datatype Option<+T> = None | Some(value: T)

  /** Stand-in for the UUID that identifies a target. */
  type Id = int

  /** Request headers of a target (name to value). */
  type RequestHeaders = map<string, string>

  /** Response headers as the transport reports them (name to values). */
  type ResponseHeaders = map<string, seq<string>>

  /** Whether a (non-null) response body parses as JSON: the JSON library is outside the model. */
  type JsonOracle = string -> bool

  datatype HttpMethod = GET | POST | PUT | DELETE | PATCH | HEAD

  datatype HealthStatus = UP | DEGRADED | DOWN | UNKNOWN

  datatype ErrorCategory =
    | NONE
    | TIMEOUT
    | DNS_FAILURE
    | TLS_ERROR
    | CONNECTION_FAILURE
    | HTTP_ERROR
    | AUTH_FAILURE
    | RATE_LIMIT
    | INVALID_JSON
    | SLOW_RESPONSE
    | CIRCUIT_OPEN
    | UNKNOWN

  /** A monitored endpoint; durations are in milliseconds. */
  datatype Target = Target(
    id: Id,
    name: string,
    url: string,
    httpMethod: HttpMethod,
    headers: Option<RequestHeaders>,
    requestBody: Option<string>,
    contentType: Option<string>,
    timeoutMs: int,
    expectedStatusMin: int,
    expectedStatusMax: int,
    expectJson: bool,
    expectedBodyContains: Option<string>,
    slowThresholdMs: int,
    maxRetries: int)

  datatype CreateTargetRequest = CreateTargetRequest(
    name: string,
    url: string,
    httpMethod: HttpMethod,
    headers: Option<RequestHeaders>,
    requestBody: Option<string>,
    contentType: Option<string>,
    timeoutMs: int,
    expectedStatusMin: int,
    expectedStatusMax: int,
    expectJson: bool,
    expectedBodyContains: Option<string>,
    slowThresholdMs: int,
    maxRetries: int)

  /** A partial update: `None` stands for a field the caller left null. */
  datatype UpdateTargetRequest = UpdateTargetRequest(
    name: Option<string>,
    url: Option<string>,
    httpMethod: Option<HttpMethod>,
    headers: Option<RequestHeaders>,
    requestBody: Option<string>,
    contentType: Option<string>,
    timeoutMs: Option<int>,
    expectedStatusMin: Option<int>,
    expectedStatusMax: Option<int>,
    expectJson: Option<bool>,
    expectedBodyContains: Option<string>,
    slowThresholdMs: Option<int>,
    maxRetries: Option<int>)

  /** What one HTTP exchange returned. */
  datatype HttpResponseData = HttpResponseData(
    statusCode: int,
    body: Option<string>,
    headers: ResponseHeaders,
    durationMs: int)

  /**
   The outcome of one call to the transport: a response, or one of the
   exceptions the probe distinguishes (HttpTimeoutException,
   UnknownHostException, SSLHandshakeException, ConnectException), or any
   other exception with its simple class name and its (possibly null) message.
   */
  datatype TransportOutcome =
    | Response(data: HttpResponseData)
    | Timeout
    | UnknownHost
    | TlsHandshake
    | ConnectFailure
    | Other(kind: string, message: Option<string>)

  datatype HealthCheckResult = HealthCheckResult(
    targetId: Id,
    status: HealthStatus,
    httpStatus: Option<int>,
    latencyMs: int,
    responseBodyPreview: Option<string>,
    responseHeaders: Option<ResponseHeaders>,
    errorCategory: ErrorCategory,
    errorMessage: Option<string>,
    timestamp: Option<int>,
    attempts: int,
    fromCache: bool,
    cachedAt: Option<int>)

  /** The service's configuration; durations are in milliseconds. */
  datatype Config = Config(
    cacheTtlMs: int,
    circuitFailureThreshold: int,
    circuitOpenMs: int,
    retryBaseBackoffMs: int,
    maxResponseBodyChars: int)

  /** The configuration defaults of the service. */
  const DefaultConfig := Config(15000, 3, 30000, 200, 2048)

  const JsonContentType := "application/json"

  /** A fresh result for a target before any classification (`baseResult`). */
  function BaseResult(id: Id): (r: HealthCheckResult)
    ensures r.targetId == id && r.status == HealthStatus.UNKNOWN && r.errorCategory == ErrorCategory.UNKNOWN
    ensures r.timestamp.None? && !r.fromCache && r.cachedAt.None? && r.attempts == 0
  {
    HealthCheckResult(id, HealthStatus.UNKNOWN, None, 0, None, None, ErrorCategory.UNKNOWN, None, None, 0, false, None)
  }

  function Max(a: int, b: int): int { if a < b then b else a }

  function Min(a: int, b: int): int { if a < b then a else b }

  predicate IsPrefix(p: string, s: string) {
    |p| <= |s| && s[..|p|] == p
  }

  /** `s.contains(sub)`: `sub` occurs in `s` at some position. */
  predicate Contains(s: string, sub: string)
    decreases |s|
  {
    IsPrefix(sub, s) || (|s| > 0 && Contains(s[1..], sub))
  }

  /** `sub` is the slice of `s` that starts at index `i`. */
  predicate OccursAt(s: string, sub: string, i: int) {
    0 <= i && i + |sub| <= |s| && s[i..i + |sub|] == sub
  }

  /** `Contains` agrees with the positional reading: `sub` is the slice of `s` at some index. */
  lemma {:induction false} ContainsIffOccurs(s: string, sub: string)
    ensures Contains(s, sub) <==> exists i :: OccursAt(s, sub, i)
    decreases |s|
  {
    if IsPrefix(sub, s) {
      assert OccursAt(s, sub, 0);
    } else if |s| > 0 {
      ContainsIffOccurs(s[1..], sub);
      if Contains(s[1..], sub) {
        var i :| OccursAt(s[1..], sub, i);
        assert s[i + 1..i + 1 + |sub|] == s[1..][i..i + |sub|];
        assert OccursAt(s, sub, i + 1);
      } else {
        forall i | OccursAt(s, sub, i)
          ensures false
        {
          if i > 0 {
            assert s[i..i + |sub|] == s[1..][i - 1..i - 1 + |sub|];
            assert OccursAt(s[1..], sub, i - 1);
          }
        }
      }
    } else {
      assert |sub| > 0;
    }
  }
}
