/**
 * The request middleware (src/axum_layer/mod.rs): header extraction, the
 * manager-to-boundary error conversion, and the choice between forwarding
 * the inner service's response and answering with a rejection.
 */
module Middleware {
  import opened Wrappers
  import opened Types
  import opened Errors
  import opened LayerErrors
  import opened RedisLimiter
  import opened Manager

  type Byte = b: int | 0 <= b < 256

  /** Header name (lower case, as the HTTP library stores it) to the raw bytes of its first value. */
  type HeaderMap = map<string, seq<Byte>>

  datatype Request = Request(headers: HeaderMap, body: seq<Byte>)

  datatype Body = ErrorJson(payload: ApiKeyErrorResponse) | Content(bytes: seq<Byte>)

  datatype Response = Response(status: int, body: Body)

  /** The inner service's error type, opaque here. */
  type ServiceError = string

  const ApiKeyHeader: string := "x-api-key"

  /** The bytes `HeaderValue::to_str` accepts: visible ASCII and horizontal tab. */
  predicate IsVisibleAscii(b: Byte) {
    b == 9 || 32 <= b < 127
  }

  /** `HeaderValue::to_str`: the value as text when every byte is visible ASCII, otherwise nothing. */
  function ToStr(value: seq<Byte>): (r: Option<string>)
    ensures r.Some? <==> forall i :: 0 <= i < |value| ==> IsVisibleAscii(value[i])
    ensures r.Some? ==> |r.value| == |value| && forall i :: 0 <= i < |value| ==> r.value[i] as int == value[i]
  {
    if forall i :: 0 <= i < |value| ==> IsVisibleAscii(value[i])
    then Some(seq(|value|, i requires 0 <= i < |value| => value[i] as char))
    else None
  }

  /** `extract_header`: the header's text when it is present and converts, otherwise nothing. */
  function ExtractHeader(name: string, headers: HeaderMap): (r: Option<string>)
    ensures r.Some? <==> name in headers && ToStr(headers[name]).Some?
    ensures r.Some? ==> r == ToStr(headers[name])
  {
    if name in headers then
      match ToStr(headers[name])
      case Some(text) => Some(text)
      case None => None
    else None
  }

  /**
   * `impl From<ApiKeyManagerError> for ApiKeyLayerError`: a limiter error
   * passes through unchanged, every other manager error becomes `InvalidApiKey`.
   */
  function FromManagerError(e: ApiKeyManagerError): (l: ApiKeyLayerError)
    ensures e.LimiterError? <==> l.LimiterError?
    ensures e.LimiterError? ==> l.limiter == e.limiter
    ensures !e.LimiterError? ==> l == InvalidApiKey
  {
    match e
    case LimiterError(inner) => ApiKeyLayerError.LimiterError(inner)
    case _ => InvalidApiKey
  }

  /** `verify_api_key` given the manager's answer: `Ok(true)` exactly on success, and never `Ok(false)`. */
  function VerifyApiKey(outcome: Result<(), ApiKeyManagerError>): (r: Result<bool, ApiKeyLayerError>)
    ensures r != Ok(false)
    ensures r == Ok(true) <==> outcome.Ok?
    ensures outcome.Err? ==> r == Err(FromManagerError(outcome.error))
  {
    match outcome
    case Ok(_) => Ok(true)
    case Err(e) => Err(FromManagerError(e))
  }

  /** A rejection turned into a response: its status and its JSON payload. */
  function Rejection(e: ApiKeyLayerError): Response {
    var reply := IntoResponse(e);
    Response(reply.status, ErrorJson(reply.body))
  }

  /**
   * The future `call` returns: on `Ok(true)` the inner service's result,
   * untouched; on `Ok(false)` an `InvalidApiKey` rejection; on an error its
   * rejection. A rejection is always an `Ok` response.
   */
  function Settle(verification: Result<bool, ApiKeyLayerError>, inner: Result<Response, ServiceError>)
    : (r: Result<Response, ServiceError>)
    ensures verification == Ok(true) ==> r == inner
    ensures verification != Ok(true) ==> r.Ok? && r.value.body.ErrorJson?
    ensures verification == Ok(false) ==>
      && r.value.status == Unauthorized
      && r.value.body.payload == ApiKeyErrorResponse("The provided API key is not valid", "InvalidApiKey")
    ensures verification.Err? ==> r.value.body.payload == IntoResponse(verification.error).body
    ensures verification.Err? ==>
      && r.value.status == IntoResponse(verification.error).status
      && r.value.body.payload.messageType == LayerMessageType(verification.error)
  {
    match verification
    case Ok(true) => inner
    case Ok(false) => Ok(Rejection(InvalidApiKey))
    case Err(e) => Ok(Rejection(e))
  }

  /**
   * Whatever the manager answers: success forwards the inner result
   * unchanged, and every failure is a 401 rejection whose type is
   * `InvalidApiKey`, `RateLimitExceeded` or `ApiLimiter::Other`.
   */
  lemma ManagerOutcomeSettles(outcome: Result<(), ApiKeyManagerError>, inner: Result<Response, ServiceError>)
    ensures var r := Settle(VerifyApiKey(outcome), inner);
      && (outcome.Ok? ==> r == inner)
      && (outcome.Err? ==>
            && r.Ok? && r.value.status == Unauthorized && r.value.body.ErrorJson?
            && r.value.body.payload.messageType in {"InvalidApiKey", "RateLimitExceeded", "ApiLimiter::Other"})
  {
    if outcome.Err? {
      var l := FromManagerError(outcome.error);
      PayloadOfRejection(l);
    }
  }

  /** A request without a usable `x-api-key` header is a 401 `MissingApiKey` rejection. */
  lemma MissingHeaderRejected()
    ensures Rejection(MissingApiKey) ==
      Response(Unauthorized, ErrorJson(ApiKeyErrorResponse("x-api-key header is not set", "MissingApiKey")))
  {
  }

  /**
   * Any failed lookup, a missing key as much as a storage fault, is
   * answered with the same 401 `InvalidApiKey` rejection, and no counter moves.
   */
  lemma FailedLookupLooksInvalid(lookup: Result<ApiKey, ApiKeyStorageError>, c: Counters, f: RedisFaults,
                                 inner: Result<Response, ServiceError>)
    requires lookup.Err?
    ensures var u := UseKeyOutcome(lookup, c, f);
      && u.after == c
      && Settle(VerifyApiKey(u.outcome), inner) ==
         Ok(Response(Unauthorized, ErrorJson(ApiKeyErrorResponse("The provided API key is not valid", "InvalidApiKey"))))
  {
  }

  /** A known key under its quota is forwarded, and the inner service's result comes back unchanged. */
  lemma UnderQuotaForwarded(apiKey: ApiKey, c: Counters, inner: Result<Response, ServiceError>)
    requires apiKey.limits.maxReadsPerMinute.Limited?
    requires CountOf(c, CounterName(apiKey.key)) + 1 <= AsI32(apiKey.limits.maxReadsPerMinute.max)
    ensures Settle(VerifyApiKey(UseKeyOutcome(Ok(apiKey), c, NoFaults).outcome), inner) == inner
  {
    LimitedCallCounts(c, apiKey, NoFaults);
  }

  /** A known key that has used up its quota is a 401 `RateLimitExceeded` rejection. */
  lemma ExhaustedQuotaRejected(apiKey: ApiKey, c: Counters, inner: Result<Response, ServiceError>)
    requires apiKey.limits.maxReadsPerMinute.Limited?
    requires CountOf(c, CounterName(apiKey.key)) + 1 > AsI32(apiKey.limits.maxReadsPerMinute.max)
    ensures Settle(VerifyApiKey(UseKeyOutcome(Ok(apiKey), c, NoFaults).outcome), inner) ==
      Ok(Response(Unauthorized, ErrorJson(ApiKeyErrorResponse("Rate limit exceeded", "RateLimitExceeded"))))
  {
    LimitedCallCounts(c, apiKey, NoFaults);
  }

  class ApiKeyMiddleware {
    const manager: KeyManager
    /** The requests handed to the inner service's `call` so far. */
    var innerCalls: seq<Request>

    constructor (manager: KeyManager)
      ensures this.manager == manager && innerCalls == []
    {
      this.manager := manager;
      innerCalls := [];
    }

    /**
     * `ApiKeyMiddleware::call`. Without a usable `x-api-key` header it
     * rejects at once, consulting neither the manager nor the inner service.
     * Otherwise it first calls the inner service (whose eventual result is
     * `inner`), then has the manager use the key, and settles on the inner
     * result or a rejection.
     */
    method Call(request: Request, storageFault: Option<string>, redisFaults: RedisFaults,
                inner: Result<Response, ServiceError>)
      returns (r: Result<Response, ServiceError>)
      requires manager.limiter.redis.Valid()
      modifies this, manager.limiter.redis
      ensures manager.limiter.redis.Valid()
      ensures var key := ExtractHeader(ApiKeyHeader, request.headers);
        key.None? ==>
          && r == Ok(Rejection(MissingApiKey))
          && innerCalls == old(innerCalls)
          && manager.limiter.redis.State() == old(manager.limiter.redis.State())
      ensures var key := ExtractHeader(ApiKeyHeader, request.headers);
        key.Some? ==>
          var u := UseKeyOutcome(old(Retrieve(manager.storage, key.value, storageFault)),
                                 old(manager.limiter.redis.State()), redisFaults);
          && innerCalls == old(innerCalls) + [request]
          && manager.limiter.redis.State() == u.after
          && r == Settle(VerifyApiKey(u.outcome), inner)
    {
      var key := ExtractHeader(ApiKeyHeader, request.headers);
      if key.None? {
        return Ok(Rejection(MissingApiKey));
      }
      innerCalls := innerCalls + [request];
      var used := manager.UseKey(key.value, storageFault, redisFaults);
      r := Settle(VerifyApiKey(used), inner);
    }
  }
}
