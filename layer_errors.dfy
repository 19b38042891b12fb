/**
 * The boundary error tier (src/axum_layer/errors.rs): its messages, kinds,
 * the `{message, type}` payload and the status each error is answered with.
 */
module LayerErrors {
  import opened Errors

  datatype ApiKeyLayerError =
    | MissingApiKey
    | InvalidApiKey
    | ApiKeyNotFound
    | DomainNotAllowed
    | LimiterError(limiter: ApiKeyLimiterError)
    | StorageError(storage: ApiKeyStorageError)
    | UnexpectedError

  const Unauthorized: int := 401
  const InternalServerError: int := 500

  /** The JSON body of a rejection: exactly a message and a type. */
  datatype ApiKeyErrorResponse = ApiKeyErrorResponse(message: string, messageType: string)

  /** A rejection as sent back: a status code and the payload. */
  datatype ErrorReply = ErrorReply(status: int, body: ApiKeyErrorResponse)

  /**
   * `impl Display for ApiKeyLayerError`. Only a message that wraps a
   * lower-tier error contains a colon, so a client can tell the two apart.
   */
  function LayerMessage(e: ApiKeyLayerError): (m: string)
    ensures ':' in m <==> e.LimiterError? || e.StorageError?
  {
    match e
    case MissingApiKey => "x-api-key header is not set"
    case InvalidApiKey => "The provided API key is not valid"
    case ApiKeyNotFound => "The provided API key was not found"
    case DomainNotAllowed => "The provided API key is not allowed for this domain"
    case LimiterError(inner) => "Limiter error: " + LimiterMessage(inner)
    case UnexpectedError => "Unexpected error"
    case StorageError(inner) => "Storage error: " + StorageMessage(inner)
  }

  /** The boundary messages: a fixed sentence per unit variant, the inner message behind a prefix for a wrapped one. */
  lemma LayerMessageTable(e: ApiKeyLayerError)
    ensures e.MissingApiKey? ==> LayerMessage(e) == "x-api-key header is not set"
    ensures e.InvalidApiKey? ==> LayerMessage(e) == "The provided API key is not valid"
    ensures e.ApiKeyNotFound? ==> LayerMessage(e) == "The provided API key was not found"
    ensures e.DomainNotAllowed? ==> LayerMessage(e) == "The provided API key is not allowed for this domain"
    ensures e.UnexpectedError? ==> LayerMessage(e) == "Unexpected error"
    ensures e.LimiterError? ==> LayerMessage(e) == "Limiter error: " + LimiterMessage(e.limiter)
    ensures e.StorageError? ==> LayerMessage(e) == "Storage error: " + StorageMessage(e.storage)
  {
  }

  /** `ApiKeyLayerError::to_message_type`: a fixed kind per unit variant, the inner kind for a wrapped one. */
  function LayerMessageType(e: ApiKeyLayerError): (kind: string)
    ensures e.LimiterError? ==> kind == LimiterMessageType(e.limiter)
    ensures e.StorageError? ==> kind == StorageMessageType(e.storage)
    ensures kind == "MissingApiKey" <==> e.MissingApiKey?
    ensures kind == "InvalidApiKey" <==> e.InvalidApiKey?
    ensures kind == "ApiKeyNotFound" <==> e.ApiKeyNotFound?
    ensures kind == "DomainNotAllowed" <==> e.DomainNotAllowed?
    ensures kind == "UnexpectedError" <==> e.UnexpectedError?
  {
    match e
    case MissingApiKey => "MissingApiKey"
    case InvalidApiKey => "InvalidApiKey"
    case ApiKeyNotFound => "ApiKeyNotFound"
    case DomainNotAllowed => "DomainNotAllowed"
    case LimiterError(inner) => LimiterMessageType(inner)
    case UnexpectedError => "UnexpectedError"
    case StorageError(inner) => StorageMessageType(inner)
  }

  /** `impl From<ApiKeyLayerError> for ApiKeyErrorResponse`. */
  function ToErrorResponse(e: ApiKeyLayerError): (p: ApiKeyErrorResponse)
    ensures p.message == LayerMessage(e) && p.messageType == LayerMessageType(e)
  {
    ApiKeyErrorResponse(LayerMessage(e), LayerMessageType(e))
  }

  /**
   * `impl IntoResponse for ApiKeyLayerError`, without the HTTP plumbing.
   * Unexpected and storage errors are internal errors, every other
   * rejection is unauthorized, and the payload always carries the error's kind.
   */
  function IntoResponse(e: ApiKeyLayerError): (reply: ErrorReply)
    ensures reply.status == InternalServerError <==> e.UnexpectedError? || e.StorageError?
    ensures reply.status == Unauthorized <==> !(e.UnexpectedError? || e.StorageError?)
    ensures reply.body.messageType == LayerMessageType(e)
  {
    match e
    case MissingApiKey => ErrorReply(Unauthorized, ToErrorResponse(e))
    case InvalidApiKey => ErrorReply(Unauthorized, ToErrorResponse(e))
    case ApiKeyNotFound => ErrorReply(Unauthorized, ToErrorResponse(e))
    case DomainNotAllowed => ErrorReply(Unauthorized, ToErrorResponse(e))
    case LimiterError(inner) =>
      ErrorReply(Unauthorized, ApiKeyErrorResponse(LimiterMessage(inner), LimiterMessageType(inner)))
    case UnexpectedError => ErrorReply(InternalServerError, ToErrorResponse(e))
    case StorageError(inner) =>
      ErrorReply(InternalServerError, ApiKeyErrorResponse(StorageMessage(inner), StorageMessageType(inner)))
  }

  /**
   * A unit variant's payload is its own message and kind; a wrapped
   * variant's payload is the inner error's message, without the layer's
   * prefix, and the inner kind.
   */
  lemma PayloadOfRejection(e: ApiKeyLayerError)
    ensures !(e.LimiterError? || e.StorageError?) ==> IntoResponse(e).body == ToErrorResponse(e)
    ensures e.LimiterError? ==>
      IntoResponse(e).body == ApiKeyErrorResponse(LimiterMessage(e.limiter), LimiterMessageType(e.limiter))
      && ToErrorResponse(e).message == "Limiter error: " + IntoResponse(e).body.message
    ensures e.StorageError? ==>
      IntoResponse(e).body == ApiKeyErrorResponse(StorageMessage(e.storage), StorageMessageType(e.storage))
      && ToErrorResponse(e).message == "Storage error: " + IntoResponse(e).body.message
  {
  }

  /** The payload loses nothing: distinct boundary errors give distinct payloads. */
  lemma ToErrorResponseInjective(a: ApiKeyLayerError, b: ApiKeyLayerError)
    ensures ToErrorResponse(a) == ToErrorResponse(b) <==> a == b
  {
    if ToErrorResponse(a) == ToErrorResponse(b) {
      if a.LimiterError? && b.LimiterError? {
        PrefixCancel("Limiter error: ", LimiterMessage(a.limiter), LimiterMessage(b.limiter));
        LimiterMessageInjective(a.limiter, b.limiter);
      } else if a.StorageError? && b.StorageError? {
        PrefixCancel("Storage error: ", StorageMessage(a.storage), StorageMessage(b.storage));
        StorageMessageInjective(a.storage, b.storage);
      } else {
        LayerKindsDistinct(a, b);
      }
    }
  }

  /** The reply loses nothing: distinct boundary errors are answered differently. */
  lemma IntoResponseInjective(a: ApiKeyLayerError, b: ApiKeyLayerError)
    ensures IntoResponse(a) == IntoResponse(b) <==> a == b
  {
    if IntoResponse(a) == IntoResponse(b) {
      if a.LimiterError? && b.LimiterError? {
        LimiterMessageInjective(a.limiter, b.limiter);
      } else if a.StorageError? && b.StorageError? {
        StorageMessageInjective(a.storage, b.storage);
      } else {
        LayerKindsDistinct(a, b);
      }
    }
  }

  /** Variants of different shape never share a kind, whatever they wrap. */
  lemma LayerKindsDistinct(a: ApiKeyLayerError, b: ApiKeyLayerError)
    requires !(a.LimiterError? && b.LimiterError?) && !(a.StorageError? && b.StorageError?)
    requires LayerMessageType(a) == LayerMessageType(b)
    ensures a == b
  {
    if a.LimiterError? && b.StorageError? {
      KindsIdentifyTier(b.storage, a.limiter);
    } else if a.StorageError? && b.LimiterError? {
      KindsIdentifyTier(a.storage, b.limiter);
    }
  }
}
