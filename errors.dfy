/**
 * The storage, limiter and manager error tiers (src/errors.rs): their
 * human-readable messages (`Display`) and machine-readable kinds
 * (`to_message_type`).
 */
module Errors {

  datatype ApiKeyStorageError =
    | KeyNotFound
    | KeyAlreadyExists
    | SerializationError(detail: string)
    | StorageError(detail: string)

  datatype ApiKeyLimiterError = RateLimitExceeded | Other(detail: string)

  /** The manager tier holds a lower-tier error as it is, or a free-form detail. */
  datatype ApiKeyManagerError =
    | StorageError(storage: ApiKeyStorageError)
    | LimiterError(limiter: ApiKeyLimiterError)
    | Other(reason: string)

  /** Characters 2 and 4 of a storage message: "Key n", "Key a", "Seria" and "Stora" tell the variants apart. */
  function StorageMarks(e: ApiKeyStorageError): (char, char) {
    match e
    case KeyNotFound => ('y', 'n')
    case KeyAlreadyExists => ('y', 'a')
    case SerializationError(_) => ('r', 'a')
    case StorageError(_) => ('o', 'a')
  }

  /**
   * `impl Display for ApiKeyStorageError`: the variant can be read off the
   * message's opening characters, and a wrapped detail is its tail.
   */
  function StorageMessage(e: ApiKeyStorageError): (m: string)
    ensures |m| > 4 && (m[2], m[4]) == StorageMarks(e)
    ensures (e.SerializationError? || e.StorageError?) ==>
      |m| > |e.detail| && m[|m| - |e.detail|..] == e.detail
  {
    match e
    case KeyNotFound => "Key not found"
    case KeyAlreadyExists => "Key already exists"
    case SerializationError(d) => "Serialization error: " + d
    case StorageError(d) => "Storage error: " + d
  }

  /** `ApiKeyStorageError::to_message_type`: the kind names the variant and nothing else. */
  function StorageMessageType(e: ApiKeyStorageError): (kind: string)
    ensures kind == "KeyNotFound" <==> e.KeyNotFound?
    ensures kind == "KeyAlreadyExists" <==> e.KeyAlreadyExists?
    ensures kind == "SerializationError" <==> e.SerializationError?
    ensures kind == "StorageError" <==> e.StorageError?
  {
    match e
    case KeyNotFound => "KeyNotFound"
    case KeyAlreadyExists => "KeyAlreadyExists"
    case SerializationError(_) => "SerializationError"
    case StorageError(_) => "StorageError"
  }

  /**
   * `impl Display for ApiKeyLimiterError`: the first character tells the two
   * variants apart, and the detail of `Other` is the message's tail.
   */
  function LimiterMessage(e: ApiKeyLimiterError): (m: string)
    ensures |m| > 0 && (m[0] == 'R' <==> e.RateLimitExceeded?)
    ensures e.Other? ==> |m| > |e.detail| && m[|m| - |e.detail|..] == e.detail
  {
    match e
    case RateLimitExceeded => "Rate limit exceeded"
    case Other(d) => "Other error: " + d
  }

  /** `ApiKeyLimiterError::to_message_type`. */
  function LimiterMessageType(e: ApiKeyLimiterError): (kind: string)
    ensures kind == "RateLimitExceeded" <==> e.RateLimitExceeded?
    ensures kind == "ApiLimiter::Other" <==> e.Other?
  {
    match e
    case RateLimitExceeded => "RateLimitExceeded"
    case Other(_) => "ApiLimiter::Other"
  }

  /** The storage kind depends on the variant only, never on the detail it carries. */
  lemma StorageKindIgnoresDetail(a: ApiKeyStorageError, b: ApiKeyStorageError)
    ensures StorageMessageType(a) == StorageMessageType(b) <==>
      (a.KeyNotFound? && b.KeyNotFound?) || (a.KeyAlreadyExists? && b.KeyAlreadyExists?) ||
      (a.SerializationError? && b.SerializationError?) || (a.StorageError? && b.StorageError?)
  {
  }

  /** No storage kind is a limiter kind, so a kind string names its tier as well as its variant. */
  lemma KindsIdentifyTier(s: ApiKeyStorageError, l: ApiKeyLimiterError)
    ensures StorageMessageType(s) != LimiterMessageType(l)
  {
    var k := StorageMessageType(s);
    assert k[0] == 'K' || k[0] == 'S';
    assert LimiterMessageType(l)[0] == 'R' || LimiterMessageType(l)[0] == 'A';
  }

  /** The storage messages are exactly those of the source table. */
  lemma StorageMessageTable(e: ApiKeyStorageError)
    ensures e.KeyNotFound? ==> StorageMessage(e) == "Key not found"
    ensures e.KeyAlreadyExists? ==> StorageMessage(e) == "Key already exists"
    ensures e.SerializationError? ==> StorageMessage(e) == "Serialization error: " + e.detail
    ensures e.StorageError? ==> StorageMessage(e) == "Storage error: " + e.detail
  {
  }

  lemma PrefixCancel(p: string, a: string, b: string)
    requires p + a == p + b
    ensures a == b
  {
    assert a == (p + a)[|p|..];
    assert b == (p + b)[|p|..];
  }

  /** A storage message loses nothing: distinct storage errors give distinct messages. */
  lemma StorageMessageInjective(a: ApiKeyStorageError, b: ApiKeyStorageError)
    ensures StorageMessage(a) == StorageMessage(b) <==> a == b
  {
    if StorageMessage(a) == StorageMessage(b) {
      if a.SerializationError? && b.SerializationError? {
        PrefixCancel("Serialization error: ", a.detail, b.detail);
      } else if a.StorageError? && b.StorageError? {
        PrefixCancel("Storage error: ", a.detail, b.detail);
      }
    }
  }

  /** The limiter messages are exactly those of the source table, and they lose nothing either. */
  lemma LimiterMessageInjective(a: ApiKeyLimiterError, b: ApiKeyLimiterError)
    ensures a.RateLimitExceeded? ==> LimiterMessage(a) == "Rate limit exceeded"
    ensures a.Other? ==> LimiterMessage(a) == "Other error: " + a.detail
    ensures LimiterMessage(a) == LimiterMessage(b) <==> a == b
  {
    if LimiterMessage(a) == LimiterMessage(b) {
      if a.Other? && b.Other? {
        PrefixCancel("Other error: ", a.detail, b.detail);
      }
    }
  }
}
