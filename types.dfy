/**
 * The key record (src/types.rs): the quota settings of a key, its domain
 * restrictions, its status and the record itself, together with the
 * `Display` rendering of a quota setting.
 */
module Types {
  import opened Wrappers

  /** Rust's `u32`. */
  type U32 = n: int | 0 <= n < 0x1_0000_0000

  /** A per-minute ceiling, or no ceiling at all. */
  datatype ApiKeyLimit = Limited(max: U32) | Unlimited

  /** One quota per operation class. */
  datatype ApiKeyLimits = ApiKeyLimits(maxReadsPerMinute: ApiKeyLimit, maxWritesPerMinute: ApiKeyLimit)

  datatype ApiKeyRestrictions = ApiKeyRestrictions(allowedDomains: seq<string>)

  datatype ApiKeyStatus = Active | Inactive | Deleted

  /** A `DateTime<Utc>`; the request path never looks inside it. */
  datatype Timestamp = Timestamp(instant: int)

  datatype ApiKey = ApiKey(
    key: string,
    limits: ApiKeyLimits,
    restrictions: ApiKeyRestrictions,
    status: ApiKeyStatus,
    createdAt: Timestamp,
    updatedAt: Timestamp)

  predicate IsDigit(c: char) {
    '0' <= c <= '9'
  }

  function DigitChar(d: int): (c: char)
    requires 0 <= d < 10
    ensures IsDigit(c) && c as int - '0' as int == d
  {
    ('0' as int + d) as char
  }

  /** The decimal rendering of `n` that Rust's `{}` format gives an unsigned integer. */
  function DecimalString(n: nat): (s: string)
    ensures |s| >= 1
    ensures forall i :: 0 <= i < |s| ==> IsDigit(s[i])
    ensures |s| > 1 ==> s[0] != '0'
    ensures n >= 10 <==> |s| > 1
  {
    if n < 10 then [DigitChar(n)] else DecimalString(n / 10) + [DigitChar(n % 10)]
  }

  /** Reads a string of decimal digits back as a number: the inverse of DecimalString. */
  function DecimalValue(s: string): nat
    requires forall i :: 0 <= i < |s| ==> IsDigit(s[i])
  {
    if s == [] then 0
    else DecimalValue(s[..|s| - 1]) * 10 + DigitValue(s[|s| - 1])
  }

  function DigitValue(c: char): (d: nat)
    requires IsDigit(c)
    ensures d < 10
  {
    c as int - '0' as int
  }

  lemma {:induction false} DecimalRoundTrip(n: nat)
    ensures DecimalValue(DecimalString(n)) == n
  {
    if n >= 10 {
      var s := DecimalString(n);
      var prefix := DecimalString(n / 10);
      assert s == prefix + [DigitChar(n % 10)];
      assert s[..|s| - 1] == prefix;
      DecimalRoundTrip(n / 10);
    }
  }

  /** Distinct numbers render as distinct strings. */
  lemma DecimalStringInjective(m: nat, n: nat)
    ensures DecimalString(m) == DecimalString(n) ==> m == n
  {
    DecimalRoundTrip(m);
    DecimalRoundTrip(n);
  }

  /** `impl Display for ApiKeyLimit`. */
  function LimitDisplay(limit: ApiKeyLimit): (s: string)
    ensures s == "unlimited" <==> limit.Unlimited?
    ensures limit.Limited? ==> |s| >= 1 && forall i :: 0 <= i < |s| ==> IsDigit(s[i])
  {
    match limit
    case Limited(max) => DecimalString(max)
    case Unlimited => "unlimited"
  }

  /** `Limited(n)` shows as the digits of n, `Unlimited` as "unlimited". */
  lemma LimitDisplayForms(limit: ApiKeyLimit)
    ensures limit.Unlimited? ==> LimitDisplay(limit) == "unlimited"
    ensures limit.Limited? ==>
      var s := LimitDisplay(limit);
      |s| >= 1 && (forall i :: 0 <= i < |s| ==> IsDigit(s[i])) && DecimalValue(s) == limit.max
  {
    if limit.Limited? {
      DecimalRoundTrip(limit.max);
    }
  }

  /** The display of a limit identifies the limit: no two limits share a rendering. */
  lemma LimitDisplayInjective(a: ApiKeyLimit, b: ApiKeyLimit)
    ensures LimitDisplay(a) == LimitDisplay(b) <==> a == b
  {
    if a.Limited? && b.Limited? {
      DecimalStringInjective(a.max, b.max);
    } else if a.Limited? && b.Unlimited? {
      assert !IsDigit(LimitDisplay(b)[0]);
    } else if a.Unlimited? && b.Limited? {
      assert !IsDigit(LimitDisplay(a)[0]);
    }
  }

  /**
   * The record `get_mock_api_key` builds (src/mock/mock_api_key.rs). The
   * clock is read twice there, once per timestamp, so the two readings are
   * separate parameters.
   */
  function MockApiKey(key: Option<string>, createdAt: Timestamp, updatedAt: Timestamp): (k: ApiKey)
    ensures k.key == (if key.Some? then key.value else "test_key")
    ensures k.limits.maxReadsPerMinute == Limited(100) && k.status == Active
    ensures k.createdAt == createdAt && k.updatedAt == updatedAt
  {
    ApiKey(
      if key.Some? then key.value else "test_key",
      ApiKeyLimits(Limited(100), Limited(100)),
      ApiKeyRestrictions(["example.com"]),
      Active,
      createdAt,
      updatedAt)
  }
}
