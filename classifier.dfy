/**
 One probe: classify one transport outcome against a target's thresholds
 (`executeOnce`), truncate the body preview (`limitBody`), and decide
 whether a classified result is worth another attempt (`isRetryable`).
 */
module Classifier {
  import opened Model

  /** The classification part of a result: status, category and message. */
  datatype Verdict = Verdict(status: HealthStatus, category: ErrorCategory, message: Option<string>)

  /** The response took longer than the target's slow threshold. */
  predicate IsSlow(t: Target, resp: HttpResponseData) {
    resp.durationMs > t.slowThresholdMs
  }

  predicate IsAuthStatus(code: int) { code == 401 || code == 403 }

  /** The status code lies in the target's accepted range, both ends included. */
  predicate InExpectedRange(t: Target, code: int) {
    t.expectedStatusMin <= code <= t.expectedStatusMax
  }

  /** The body contains the target's required substring, if it has one; a null body contains nothing. */
  predicate BodyMatches(t: Target, body: Option<string>) {
    t.expectedBodyContains.Some? ==> body.Some? && Contains(body.value, t.expectedBodyContains.value)
  }

  /** The body parses as JSON, if the target asks for JSON; a null body never parses. */
  predicate JsonMatches(t: Target, body: Option<string>, json: JsonOracle) {
    t.expectJson ==> body.Some? && json(body.value)
  }

  /**
   The checks applied to a response that arrived, first match wins:
   slow, authentication, rate limit, status range, required substring, JSON.
   */
  function ClassifyResponse(t: Target, resp: HttpResponseData, json: JsonOracle): Verdict
  {
    if IsSlow(t, resp) then
      Verdict(DEGRADED, SLOW_RESPONSE, Some("Response exceeded slow threshold"))
    else if IsAuthStatus(resp.statusCode) then
      Verdict(DOWN, AUTH_FAILURE, Some("Authentication failed"))
    else if resp.statusCode == 429 then
      Verdict(DOWN, RATE_LIMIT, Some("Rate limited"))
    else if !InExpectedRange(t, resp.statusCode) then
      Verdict(DOWN, HTTP_ERROR, Some("Unexpected HTTP status"))
    else if !BodyMatches(t, resp.body) then
      Verdict(DOWN, HTTP_ERROR, Some("Response body missing expected content"))
    else if !JsonMatches(t, resp.body, json) then
      Verdict(DOWN, INVALID_JSON, Some("Invalid JSON response"))
    else
      Verdict(UP, NONE, None)
  }

  /**
   The verdict on a response, category by category: each category is given
   exactly when its check is the first one that fails, and the status follows
   from the category.
   */
  lemma ResponseVerdicts(t: Target, resp: HttpResponseData, json: JsonOracle)
    ensures var v := ClassifyResponse(t, resp, json);
      && (v.category == SLOW_RESPONSE <==> IsSlow(t, resp))
      && (v.category == AUTH_FAILURE <==> !IsSlow(t, resp) && IsAuthStatus(resp.statusCode))
      && (v.category == RATE_LIMIT <==> !IsSlow(t, resp) && resp.statusCode == 429)
      && (v.category == HTTP_ERROR <==>
            !IsSlow(t, resp) && !IsAuthStatus(resp.statusCode) && resp.statusCode != 429
            && (!InExpectedRange(t, resp.statusCode) || !BodyMatches(t, resp.body)))
      && (v.category == INVALID_JSON <==>
            !IsSlow(t, resp) && !IsAuthStatus(resp.statusCode) && resp.statusCode != 429
            && InExpectedRange(t, resp.statusCode) && BodyMatches(t, resp.body) && !JsonMatches(t, resp.body, json))
      && (v.category == NONE <==>
            !IsSlow(t, resp) && !IsAuthStatus(resp.statusCode) && resp.statusCode != 429
            && InExpectedRange(t, resp.statusCode) && BodyMatches(t, resp.body) && JsonMatches(t, resp.body, json))
      && (v.status == UP <==> v.category == NONE)
      && (v.status == DEGRADED <==> v.category == SLOW_RESPONSE)
      && (v.status == DOWN <==> v.category !in {NONE, SLOW_RESPONSE})
      && (v.status == UP <==> v.message.None?)
  {
  }

  /** Java's string conversion of a possibly null message. */
  function MessageText(m: Option<string>): string {
    if m.Some? then m.value else "null"
  }

  /** The exceptions the transport may raise, each mapped to its category; all of them are DOWN. */
  function ClassifyFailure(o: TransportOutcome): (v: Verdict)
    requires !o.Response?
    ensures v.status == DOWN && v.message.Some?
    ensures o.Timeout? <==> v.category == TIMEOUT
    ensures o.UnknownHost? <==> v.category == DNS_FAILURE
    ensures o.TlsHandshake? <==> v.category == TLS_ERROR
    ensures o.ConnectFailure? <==> v.category == CONNECTION_FAILURE
    ensures o.Other? <==> v.category == ErrorCategory.UNKNOWN
    ensures o.Other? ==> v.message == Some(o.kind + ": " + MessageText(o.message))
  {
    match o
    case Timeout => Verdict(DOWN, TIMEOUT, Some("Request timed out"))
    case UnknownHost => Verdict(DOWN, DNS_FAILURE, Some("DNS resolution failed"))
    case TlsHandshake => Verdict(DOWN, TLS_ERROR, Some("TLS handshake failed"))
    case ConnectFailure => Verdict(DOWN, CONNECTION_FAILURE, Some("Connection failed"))
    case Other(kind, message) => Verdict(DOWN, ErrorCategory.UNKNOWN, Some(kind + ": " + MessageText(message)))
  }

  /** `limitBody`: the body cut to at most `maxChars` characters (none when the limit is negative). */
  function LimitBody(body: Option<string>, maxChars: int): (r: Option<string>)
    ensures r.None? <==> body.None?
    ensures r.Some? ==> IsPrefix(r.value, body.value)
    ensures r.Some? ==> |r.value| == Min(|body.value|, Max(0, maxChars))
    ensures r.Some? && |body.value| <= maxChars ==> r == body
  {
    if body.None? then None
    else
      var limit := Max(0, maxChars);
      if |body.value| <= limit then body else Some(body.value[..limit])
  }

  /**
   `executeOnce`: the result of attempt number `attempts` with the given
   outcome. The result is stamped with `now`, and its latency is the
   wall-clock time the attempt took, `elapsedMs`, which replaces the
   duration the transport reported.
   */
  function ExecuteOnce(cfg: Config, json: JsonOracle, t: Target, o: TransportOutcome,
                       attempts: int, now: int, elapsedMs: int): HealthCheckResult
  {
    var base := BaseResult(t.id).(attempts := attempts, timestamp := Some(now), latencyMs := elapsedMs);
    match o
    case Response(resp) =>
      var v := ClassifyResponse(t, resp, json);
      base.(httpStatus := Some(resp.statusCode), responseHeaders := Some(resp.headers),
            responseBodyPreview := LimitBody(resp.body, cfg.maxResponseBodyChars),
            status := v.status, errorCategory := v.category, errorMessage := v.message)
    case _ =>
      var v := ClassifyFailure(o);
      base.(status := v.status, errorCategory := v.category, errorMessage := v.message)
  }

  /**
   What one attempt records: the target, the attempt number, the instant and
   the latency; a fresh (uncached) result that is never UNKNOWN nor
   CIRCUIT_OPEN and is UP exactly when nothing went wrong; for a response,
   the classifier's verdict, the status code, the headers and the truncated
   body; for a transport exception, its verdict and no response data.
   */
  lemma ExecuteOnceResult(cfg: Config, json: JsonOracle, t: Target, o: TransportOutcome,
                          attempts: int, now: int, elapsedMs: int)
    ensures var r := ExecuteOnce(cfg, json, t, o, attempts, now, elapsedMs);
      && r.targetId == t.id && r.attempts == attempts
      && r.timestamp == Some(now) && r.latencyMs == elapsedMs
      && !r.fromCache && r.cachedAt.None?
      && r.status != HealthStatus.UNKNOWN && r.errorCategory != CIRCUIT_OPEN
      && (r.status == UP <==> r.errorCategory == NONE)
      && (o.Response? ==>
            && Verdict(r.status, r.errorCategory, r.errorMessage) == ClassifyResponse(t, o.data, json)
            && r.httpStatus == Some(o.data.statusCode)
            && r.responseHeaders == Some(o.data.headers)
            && r.responseBodyPreview == LimitBody(o.data.body, cfg.maxResponseBodyChars))
      && (!o.Response? ==>
            && Verdict(r.status, r.errorCategory, r.errorMessage) == ClassifyFailure(o)
            && r.httpStatus.None? && r.responseHeaders.None? && r.responseBodyPreview.None?)
  {
    if o.Response? {
      ResponseVerdicts(t, o.data, json);
    }
  }

  /** `isRetryable`: transient failures, and server errors or 408 reported as HTTP errors. */
  predicate IsRetryable(r: HealthCheckResult) {
    || r.errorCategory == TIMEOUT
    || r.errorCategory == CONNECTION_FAILURE
    || r.errorCategory == DNS_FAILURE
    || r.errorCategory == TLS_ERROR
    || r.errorCategory == RATE_LIMIT
    || (r.errorCategory == HTTP_ERROR && r.httpStatus.Some?
        && (r.httpStatus.value >= 500 || r.httpStatus.value == 408))
  }

  /**
   Which transport outcomes give a retryable attempt, stated on the outcome:
   every transport exception the probe names, a rate limit, and a server error
   or 408 that the classifier reports as an HTTP error; never a slow response,
   an authentication failure, invalid JSON or an unknown exception.
   */
  lemma RetryableOutcomes(cfg: Config, json: JsonOracle, t: Target, o: TransportOutcome,
                          attempts: int, now: int, elapsedMs: int)
    ensures var r := ExecuteOnce(cfg, json, t, o, attempts, now, elapsedMs);
      IsRetryable(r) <==>
        || o.Timeout? || o.UnknownHost? || o.TlsHandshake? || o.ConnectFailure?
        || (o.Response? && !IsSlow(t, o.data) && o.data.statusCode == 429)
        || (o.Response? && !IsSlow(t, o.data) && !IsAuthStatus(o.data.statusCode) && o.data.statusCode != 429
            && (!InExpectedRange(t, o.data.statusCode) || !BodyMatches(t, o.data.body))
            && (o.data.statusCode >= 500 || o.data.statusCode == 408))
  {
  }

  /** Categories that never lead to another attempt. */
  lemma NeverRetryable(r: HealthCheckResult)
    requires r.errorCategory in {NONE, AUTH_FAILURE, INVALID_JSON, SLOW_RESPONSE, CIRCUIT_OPEN, ErrorCategory.UNKNOWN}
    ensures !IsRetryable(r)
  {
  }

  /**
   The status range is inclusive: for a target with no body or JSON check,
   a prompt response with status exactly at either bound is UP, and one just
   outside either bound is an HTTP error (when that code is not 401, 403 or 429).
   */
  lemma StatusRangeBoundaries(t: Target, resp: HttpResponseData, json: JsonOracle)
    requires t.expectedBodyContains.None? && !t.expectJson && !IsSlow(t, resp)
    requires t.expectedStatusMin <= t.expectedStatusMax
    ensures var code := resp.statusCode;
      (code == t.expectedStatusMin || code == t.expectedStatusMax) && !IsAuthStatus(code) && code != 429 ==>
        ClassifyResponse(t, resp, json) == Verdict(UP, NONE, None)
    ensures var code := resp.statusCode;
      (code == t.expectedStatusMin - 1 || code == t.expectedStatusMax + 1) && !IsAuthStatus(code) && code != 429 ==>
        ClassifyResponse(t, resp, json).category == HTTP_ERROR
  {
  }

  /** A slow response is DEGRADED whatever its status code and body. */
  lemma SlowWinsOverStatus(t: Target, resp: HttpResponseData, json: JsonOracle)
    requires IsSlow(t, resp)
    ensures ClassifyResponse(t, resp, json) == Verdict(DEGRADED, SLOW_RESPONSE, Some("Response exceeded slow threshold"))
  {
  }

  /**
   A target that expects JSON never accepts a null body: the parser rejects
   it, so a prompt in-range response without a body is INVALID_JSON.
   */
  lemma NullBodyIsInvalidJson(t: Target, resp: HttpResponseData, json: JsonOracle)
    requires t.expectJson && resp.body.None? && t.expectedBodyContains.None?
    requires !IsSlow(t, resp) && !IsAuthStatus(resp.statusCode) && resp.statusCode != 429
    requires InExpectedRange(t, resp.statusCode)
    ensures ClassifyResponse(t, resp, json) == Verdict(DOWN, INVALID_JSON, Some("Invalid JSON response"))
  {
  }
}
