/**
 Target bookkeeping: building a target from a create request and applying a
 partial update to it, with the content-type default both of them apply.
 */
module Targets {
  import opened Model

  /**
   A target sends a content type whenever it sends a body. Creation
   establishes this and every update keeps it.
   */
  predicate BodyHasContentType(t: Target) {
    t.requestBody.Some? ==> t.contentType.Some?
  }

  /** `createTarget`: the request's fields under a fresh id, JSON as the default content type of a body. */
  function NewTarget(id: Id, req: CreateTargetRequest): (t: Target)
    ensures t.id == id
    ensures req.contentType.Some? ==> t.contentType == req.contentType
    ensures req.contentType.None? ==> t.contentType == (if req.requestBody.Some? then Some(JsonContentType) else None)
    ensures t.contentType.None? <==> req.contentType.None? && req.requestBody.None?
    ensures BodyHasContentType(t)
    ensures t.requestBody == req.requestBody && t.name == req.name && t.url == req.url
    ensures t.httpMethod == req.httpMethod && t.headers == req.headers && t.timeoutMs == req.timeoutMs
    ensures t.expectedStatusMin == req.expectedStatusMin && t.expectedStatusMax == req.expectedStatusMax
    ensures t.expectJson == req.expectJson && t.expectedBodyContains == req.expectedBodyContains
    ensures t.slowThresholdMs == req.slowThresholdMs && t.maxRetries == req.maxRetries
  {
    var contentType :=
      if req.contentType.None? && req.requestBody.Some? then Some(JsonContentType) else req.contentType;
    Target(id, req.name, req.url, req.httpMethod, req.headers, req.requestBody, contentType,
           req.timeoutMs, req.expectedStatusMin, req.expectedStatusMax, req.expectJson,
           req.expectedBodyContains, req.slowThresholdMs, req.maxRetries)
  }

  /** The value a partial update leaves in a field: the request's when given, else the current one. */
  function Pick<T>(given: Option<T>, current: T): T {
    if given.Some? then given.value else current
  }

  /** Like `Pick` for a field that is itself nullable on the target. */
  function PickOpt<T>(given: Option<T>, current: Option<T>): Option<T> {
    if given.Some? then given else current
  }

  /** `updateTarget` on an existing target: every field the request gives replaces the target's. */
  function ApplyUpdate(t: Target, u: UpdateTargetRequest): (r: Target)
    ensures r.id == t.id
    ensures u.name.None? ==> r.name == t.name
    ensures u.name.Some? ==> r.name == u.name.value
    ensures u.url.None? ==> r.url == t.url
    ensures u.url.Some? ==> r.url == u.url.value
    ensures u.httpMethod.None? ==> r.httpMethod == t.httpMethod
    ensures u.httpMethod.Some? ==> r.httpMethod == u.httpMethod.value
    ensures u.headers.None? ==> r.headers == t.headers
    ensures u.headers.Some? ==> r.headers == u.headers
    ensures u.requestBody.None? ==> r.requestBody == t.requestBody
    ensures u.requestBody.Some? ==> r.requestBody == u.requestBody
    ensures u.contentType.Some? ==> r.contentType == u.contentType
    ensures u.contentType.None? && u.requestBody.Some? && t.contentType.None? ==> r.contentType == Some(JsonContentType)
    ensures u.contentType.None? && (u.requestBody.None? || t.contentType.Some?) ==> r.contentType == t.contentType
    ensures u.timeoutMs.None? ==> r.timeoutMs == t.timeoutMs
    ensures u.timeoutMs.Some? ==> r.timeoutMs == u.timeoutMs.value
    ensures u.expectedStatusMin.None? ==> r.expectedStatusMin == t.expectedStatusMin
    ensures u.expectedStatusMin.Some? ==> r.expectedStatusMin == u.expectedStatusMin.value
    ensures u.expectedStatusMax.None? ==> r.expectedStatusMax == t.expectedStatusMax
    ensures u.expectedStatusMax.Some? ==> r.expectedStatusMax == u.expectedStatusMax.value
    ensures u.expectJson.None? ==> r.expectJson == t.expectJson
    ensures u.expectJson.Some? ==> r.expectJson == u.expectJson.value
    ensures u.expectedBodyContains.None? ==> r.expectedBodyContains == t.expectedBodyContains
    ensures u.expectedBodyContains.Some? ==> r.expectedBodyContains == u.expectedBodyContains
    ensures u.slowThresholdMs.None? ==> r.slowThresholdMs == t.slowThresholdMs
    ensures u.slowThresholdMs.Some? ==> r.slowThresholdMs == u.slowThresholdMs.value
    ensures u.maxRetries.None? ==> r.maxRetries == t.maxRetries
    ensures u.maxRetries.Some? ==> r.maxRetries == u.maxRetries.value
  {
    // The body is applied first, and may default the content type; an explicit
    // content type in the request is applied after it and so always wins.
    var withBody :=
      if u.requestBody.Some? then
        t.(requestBody := u.requestBody,
           contentType := if u.contentType.None? && t.contentType.None? then Some(JsonContentType) else t.contentType)
      else t;
    withBody.(
      name := Pick(u.name, t.name),
      url := Pick(u.url, t.url),
      httpMethod := Pick(u.httpMethod, t.httpMethod),
      headers := PickOpt(u.headers, t.headers),
      contentType := PickOpt(u.contentType, withBody.contentType),
      timeoutMs := Pick(u.timeoutMs, t.timeoutMs),
      expectedStatusMin := Pick(u.expectedStatusMin, t.expectedStatusMin),
      expectedStatusMax := Pick(u.expectedStatusMax, t.expectedStatusMax),
      expectJson := Pick(u.expectJson, t.expectJson),
      expectedBodyContains := PickOpt(u.expectedBodyContains, t.expectedBodyContains),
      slowThresholdMs := Pick(u.slowThresholdMs, t.slowThresholdMs),
      maxRetries := Pick(u.maxRetries, t.maxRetries))
  }

  /** The request that changes nothing. */
  const EmptyUpdate := UpdateTargetRequest(None, None, None, None, None, None, None, None, None, None, None, None, None)

  /** An update whose every field is null leaves the target exactly as it was. */
  lemma EmptyUpdateIsIdentity(t: Target)
    ensures ApplyUpdate(t, EmptyUpdate) == t
  {
  }

  /** Applying the same partial update twice is the same as applying it once. */
  lemma UpdateIdempotent(t: Target, u: UpdateTargetRequest)
    ensures ApplyUpdate(ApplyUpdate(t, u), u) == ApplyUpdate(t, u)
  {
  }

  /** An update never leaves a target that had a content type for its body without one. */
  lemma UpdateKeepsBodyContentType(t: Target, u: UpdateTargetRequest)
    requires BodyHasContentType(t)
    ensures BodyHasContentType(ApplyUpdate(t, u))
  {
  }
}
