/**
 * The fixed-window rate limiter (src/limiters/redis_limiter.rs).
 *
 * Redis is modelled by its keyspace: integer counters by name, and the
 * time-to-live, in seconds, of those counters that have one. The passing of
 * a window is the explicit command `ElapseCmd`, which drops every counter
 * that has a time-to-live. A failing connection or command is an explicit
 * fault carrying the Redis error message.
 */
module RedisLimiter {
  import opened Wrappers
  import opened Types
  import opened Errors

  /** The window length handed to EXPIRE. */
  const WindowSeconds: nat := 60

  const I32Max: int := 0x7fff_ffff

  /** The Redis keyspace as the limiter sees it. */
  datatype Counters = Counters(values: map<string, int>, expiring: map<string, nat>)

  /** Only present counters carry a time-to-live, and the limiter only ever writes non-negative counts. */
  predicate WellFormed(c: Counters) {
    && c.expiring.Keys <= c.values.Keys
    && forall n :: n in c.values ==> c.values[n] >= 0
  }

  /** The value INCR starts from: an absent counter counts as 0. */
  function CountOf(c: Counters, name: string): int {
    if name in c.values then c.values[name] else 0
  }

  /** SET: stores the value and clears any time-to-live. */
  function SetCmd(c: Counters, name: string, value: nat): Counters {
    Counters(c.values[name := value], c.expiring - {name})
  }

  /** EXPIRE: gives a present counter a time-to-live; on an absent name it does nothing. */
  function ExpireCmd(c: Counters, name: string, seconds: nat): Counters {
    if name in c.values then c.(expiring := c.expiring[name := seconds]) else c
  }

  /** INCR by 1: creates an absent counter (with no time-to-live) at 1. */
  function IncrCmd(c: Counters, name: string): Counters {
    c.(values := c.values[name := CountOf(c, name) + 1])
  }

  /** A window passes: every counter with a time-to-live expires, the others stay. */
  function ElapseCmd(c: Counters): Counters {
    Counters(c.values - c.expiring.Keys, map[])
  }

  /** Which Redis calls of one `use_key` fail, each with its error message. */
  datatype RedisFaults = RedisFaults(
    onConnect: Option<string>,
    onExists: Option<string>,
    onSet: Option<string>,
    onExpire: Option<string>,
    onIncr: Option<string>)

  const NoFaults := RedisFaults(None, None, None, None, None)

  /** The counter of a key: `format!("{}_read_count", key)`; the key is its prefix, so it can be read back. */
  function CounterName(key: string): (name: string)
    ensures |name| > |key| && name[..|key|] == key
    ensures name[|key|..] == "_read_count"
  {
    key + "_read_count"
  }

  /** Distinct keys have distinct counters. */
  lemma CounterNameInjective(a: string, b: string)
    ensures CounterName(a) == CounterName(b) <==> a == b
  {
    if CounterName(a) == CounterName(b) {
      assert a == CounterName(a)[..|a|];
      assert b == CounterName(b)[..|b|];
    }
  }

  /** Rust's `n as i32` for a `u32`: keeps the low 32 bits as a two's-complement number. */
  function AsI32(n: U32): (r: int)
    ensures -0x8000_0000 <= r <= I32Max
    ensures (r - n) % 0x1_0000_0000 == 0
  {
    if n <= I32Max then n else n - 0x1_0000_0000
  }

  /** `impl From<RedisError> for ApiKeyLimiterError`: reported as kind `ApiLimiter::Other`, with the Redis message at the end. */
  function FromRedisError(message: string): (e: ApiKeyLimiterError)
    ensures LimiterMessageType(e) == "ApiLimiter::Other"
    ensures LimiterMessage(e) == "Other error: " + message
  {
    ApiKeyLimiterError.Other(message)
  }

  /** What one `use_key` call answers, and the keyspace it leaves behind. */
  datatype Admission = Admission(outcome: Result<(), ApiKeyLimiterError>, after: Counters)

  /** The SET-then-EXPIRE of an absent counter; a failure of either is ignored. */
  function OpenWindow(c: Counters, name: string, f: RedisFaults): Counters {
    var afterSet := if f.onSet.Some? then c else SetCmd(c, name, 0);
    if f.onExpire.Some? then afterSet else ExpireCmd(afterSet, name, WindowSeconds)
  }

  /** `RedisLimiter::use_key` as a function of the keyspace before the call. */
  function Admit(c: Counters, apiKey: ApiKey, f: RedisFaults): (a: Admission)
    ensures WellFormed(c) ==> WellFormed(a.after)
  {
    match apiKey.limits.maxReadsPerMinute
    case Unlimited => Admission(Ok(()), c)
    case Limited(max) =>
      if f.onConnect.Some? then Admission(Err(FromRedisError(f.onConnect.value)), c)
      else if f.onExists.Some? then Admission(Err(FromRedisError(f.onExists.value)), c)
      else
        var name := CounterName(apiKey.key);
        var prepared := if name in c.values then c else OpenWindow(c, name, f);
        if f.onIncr.Some? then Admission(Err(FromRedisError(f.onIncr.value)), prepared)
        else
          var counted := IncrCmd(prepared, name);
          Admission(if counted.values[name] > AsI32(max) then Err(RateLimitExceeded) else Ok(()), counted)
  }

  /** The Redis instance the limiter's client talks to. */
  class CounterStore {
    var values: map<string, int>
    var expiring: map<string, nat>

    function State(): Counters
      reads this
    {
      Counters(values, expiring)
    }

    /** The keyspace invariant every command keeps. */
    predicate Valid()
      reads this
    {
      WellFormed(State())
    }

    constructor ()
      ensures State() == Counters(map[], map[])
      ensures Valid()
    {
      values, expiring := map[], map[];
    }

    /** EXISTS. */
    method Exists(name: string, fault: Option<string>) returns (r: Result<bool, string>)
      ensures r == if fault.Some? then Err(fault.value) else Ok(name in values)
    {
      if fault.Some? {
        r := Err(fault.value);
      } else {
        r := Ok(name in values);
      }
    }

    /** SET. */
    method Set(name: string, value: nat, fault: Option<string>) returns (r: Result<(), string>)
      requires Valid()
      modifies this
      ensures Valid()
      ensures r == if fault.Some? then Err(fault.value) else Ok(())
      ensures State() == if fault.Some? then old(State()) else SetCmd(old(State()), name, value)
    {
      if fault.Some? {
        return Err(fault.value);
      }
      values := values[name := value];
      expiring := expiring - {name};
      r := Ok(());
    }

    /** EXPIRE. */
    method Expire(name: string, seconds: nat, fault: Option<string>) returns (r: Result<(), string>)
      requires Valid()
      modifies this
      ensures Valid()
      ensures r == if fault.Some? then Err(fault.value) else Ok(())
      ensures State() == if fault.Some? then old(State()) else ExpireCmd(old(State()), name, seconds)
    {
      if fault.Some? {
        return Err(fault.value);
      }
      if name in values {
        expiring := expiring[name := seconds];
      }
      r := Ok(());
    }

    /** INCR by 1, answering the value after the increment. */
    method Incr(name: string, fault: Option<string>) returns (r: Result<int, string>)
      requires Valid()
      modifies this
      ensures Valid()
      ensures r == if fault.Some? then Err(fault.value) else Ok(CountOf(old(State()), name) + 1)
      ensures State() == if fault.Some? then old(State()) else IncrCmd(old(State()), name)
    {
      if fault.Some? {
        return Err(fault.value);
      }
      var next := (if name in values then values[name] else 0) + 1;
      values := values[name := next];
      r := Ok(next);
    }

    /** The window passes for every counter that has a time-to-live. */
    method ElapseWindow()
      requires Valid()
      modifies this
      ensures Valid()
      ensures State() == ElapseCmd(old(State()))
    {
      values := values - expiring.Keys;
      expiring := map[];
    }
  }

  class RedisLimiter {
    const redis: CounterStore

    constructor (redis: CounterStore)
      ensures this.redis == redis
    {
      this.redis := redis;
    }

    /**
     * Admits or rejects one read with `apiKey`: exists, then (for an absent
     * counter) set 0 and expire 60, then incr, then compare with the limit.
     */
    method UseKey(apiKey: ApiKey, faults: RedisFaults) returns (r: Result<(), ApiKeyLimiterError>)
      requires redis.Valid()
      modifies redis
      ensures redis.Valid()
      ensures Admission(r, redis.State()) == Admit(old(redis.State()), apiKey, faults)
    {
      match apiKey.limits.maxReadsPerMinute {
        case Unlimited =>
        case Limited(max) =>
          if faults.onConnect.Some? {
            return Err(FromRedisError(faults.onConnect.value));
          }
          var name := CounterName(apiKey.key);
          var present := redis.Exists(name, faults.onExists);
          if present.Err? {
            return Err(FromRedisError(present.error));
          }
          if !present.value {
            var setReply := redis.Set(name, 0, faults.onSet);
            var expireReply := redis.Expire(name, WindowSeconds, faults.onExpire);
          }
          var count := redis.Incr(name, faults.onIncr);
          if count.Err? {
            return Err(FromRedisError(count.error));
          }
          if count.value > AsI32(max) {
            return Err(RateLimitExceeded);
          }
      }
      r := Ok(());
    }
  }
  /** An `Unlimited` read quota admits at once and touches no counter, whatever Redis would have done. */
  lemma UnlimitedTouchesNothing(c: Counters, apiKey: ApiKey, f: RedisFaults)
    requires apiKey.limits.maxReadsPerMinute.Unlimited?
    ensures Admit(c, apiKey, f) == Admission(Ok(()), c)
  {
  }

  /** Only the read quota is consulted: the write quota never changes what happens. */
  lemma WriteQuotaIgnored(c: Counters, a: ApiKey, b: ApiKey, f: RedisFaults)
    requires a.key == b.key && a.limits.maxReadsPerMinute == b.limits.maxReadsPerMinute
    ensures Admit(c, a, f) == Admit(c, b, f)
  {
  }

  /**
   * A limited call that reaches INCR raises its own counter by exactly one,
   * whether it is then admitted or rejected, leaves every other counter
   * alone, and is rejected exactly when the new count exceeds the limit
   * read as an i32.
   */
  lemma LimitedCallCounts(c: Counters, apiKey: ApiKey, f: RedisFaults)
    requires apiKey.limits.maxReadsPerMinute.Limited?
    requires f.onConnect.None? && f.onExists.None? && f.onIncr.None?
    ensures var a := Admit(c, apiKey, f);
      var name := CounterName(apiKey.key);
      && name in a.after.values
      && a.after.values[name] == CountOf(c, name) + 1
      && (forall n :: n != name ==> (n in a.after.values <==> n in c.values))
      && (forall n :: n != name && n in c.values ==> a.after.values[n] == c.values[n])
      && (a.outcome == Err(RateLimitExceeded) <==> a.after.values[name] > AsI32(apiKey.limits.maxReadsPerMinute.max))
      && (a.outcome.Ok? <==> a.after.values[name] <= AsI32(apiKey.limits.maxReadsPerMinute.max))
  {
  }

  /**
   * A failed connection, EXISTS or INCR is `Other` with the Redis message; a
   * failed SET or EXPIRE is ignored and never changes the answer. `Other`
   * arises from nothing else.
   */
  lemma FailuresBecomeOther(c: Counters, apiKey: ApiKey, f: RedisFaults)
    requires apiKey.limits.maxReadsPerMinute.Limited?
    ensures f.onConnect.Some? ==> Admit(c, apiKey, f) == Admission(Err(ApiKeyLimiterError.Other(f.onConnect.value)), c)
    ensures f.onConnect.None? && f.onExists.Some? ==> Admit(c, apiKey, f) == Admission(Err(ApiKeyLimiterError.Other(f.onExists.value)), c)
    ensures f.onConnect.None? && f.onExists.None? && f.onIncr.Some? ==>
      Admit(c, apiKey, f).outcome == Err(ApiKeyLimiterError.Other(f.onIncr.value))
    ensures Admit(c, apiKey, f).outcome == Admit(c, apiKey, f.(onSet := None, onExpire := None)).outcome
    ensures Admit(c, apiKey, f).outcome.Err? && Admit(c, apiKey, f).outcome.error.Other? ==>
      f.onConnect.Some? || f.onExists.Some? || f.onIncr.Some?
  {
  }

  /** `Limited(0)` rejects every call that reaches INCR. */
  lemma LimitedZeroRejectsAll(c: Counters, apiKey: ApiKey)
    requires WellFormed(c)
    requires apiKey.limits.maxReadsPerMinute == Limited(0)
    ensures Admit(c, apiKey, NoFaults).outcome == Err(RateLimitExceeded)
  {
  }

  /** A limit above `i32::MAX` turns negative under `as i32`, so every call that reaches INCR is rejected. */
  lemma LimitAboveI32MaxRejectsAll(c: Counters, apiKey: ApiKey)
    requires WellFormed(c)
    requires apiKey.limits.maxReadsPerMinute.Limited? && apiKey.limits.maxReadsPerMinute.max > I32Max
    ensures AsI32(apiKey.limits.maxReadsPerMinute.max) < 0
    ensures Admit(c, apiKey, NoFaults).outcome == Err(RateLimitExceeded)
  {
  }

  /** What a run of fault-free calls with one key answers, in order, and the keyspace after it. */
  datatype Trace = Trace(outcomes: seq<Result<(), ApiKeyLimiterError>>, after: Counters)

  function Run(c: Counters, apiKey: ApiKey, calls: nat): Trace
    decreases calls
  {
    if calls == 0 then Trace([], c)
    else
      var first := Admit(c, apiKey, NoFaults);
      var rest := Run(first.after, apiKey, calls - 1);
      Trace([first.outcome] + rest.outcomes, rest.after)
  }

  /**
   * Successive fault-free calls with a limited key: the j-th call (from 0)
   * sees the count it started from plus j + 1 and is admitted exactly when
   * that is within the limit; the counter ends up raised by the number of
   * calls; a counter absent at the start has been given the window's
   * time-to-live, and an existing time-to-live is left as it was.
   */
  lemma {:induction false} RunCounts(c: Counters, apiKey: ApiKey, calls: nat)
    requires WellFormed(c)
    requires apiKey.limits.maxReadsPerMinute.Limited?
    ensures var t := Run(c, apiKey, calls);
      var name := CounterName(apiKey.key);
      var limit := AsI32(apiKey.limits.maxReadsPerMinute.max);
      && |t.outcomes| == calls
      && WellFormed(t.after)
      && CountOf(t.after, name) == CountOf(c, name) + calls
      && (forall j :: 0 <= j < calls ==>
            t.outcomes[j] == if CountOf(c, name) + j + 1 > limit then Err(RateLimitExceeded) else Ok(()))
      && (name in c.expiring ==> name in t.after.expiring && t.after.expiring[name] == c.expiring[name])
      && (calls > 0 && name !in c.values ==> name in t.after.expiring && t.after.expiring[name] == WindowSeconds)
    decreases calls
  {
    if calls > 0 {
      var name := CounterName(apiKey.key);
      var first := Admit(c, apiKey, NoFaults);
      LimitedCallCounts(c, apiKey, NoFaults);
      RunCounts(first.after, apiKey, calls - 1);
      var t := Run(c, apiKey, calls);
      var rest := Run(first.after, apiKey, calls - 1);
      assert t.outcomes == [first.outcome] + rest.outcomes;
      forall j | 0 <= j < calls
        ensures t.outcomes[j] == if CountOf(c, name) + j + 1 > AsI32(apiKey.limits.maxReadsPerMinute.max)
                                 then Err(RateLimitExceeded) else Ok(())
      {
        if j > 0 {
          assert t.outcomes[j] == rest.outcomes[j - 1];
        }
      }
    }
  }

  /**
   * A fresh window for a key limited to n (n within i32): calls 1..n are
   * admitted, every later call is rejected, the counter equals the number
   * of calls, and the counter expires after the window.
   */
  lemma FreshWindow(c: Counters, apiKey: ApiKey, calls: nat)
    requires WellFormed(c)
    requires apiKey.limits.maxReadsPerMinute.Limited? && apiKey.limits.maxReadsPerMinute.max <= I32Max
    requires CounterName(apiKey.key) !in c.values
    ensures var t := Run(c, apiKey, calls);
      var n := apiKey.limits.maxReadsPerMinute.max;
      && |t.outcomes| == calls
      && (forall j :: 0 <= j < calls ==> (t.outcomes[j].Ok? <==> j < n))
      && (forall j :: n <= j < calls ==> t.outcomes[j] == Err(RateLimitExceeded))
      && CountOf(t.after, CounterName(apiKey.key)) == calls
      && (calls > 0 ==> CounterName(apiKey.key) in t.after.expiring)
  {
    RunCounts(c, apiKey, calls);
  }

  /** Once the window has passed, the same key starts again from a fresh window. */
  lemma WindowRestarts(c: Counters, apiKey: ApiKey, calls: nat, later: nat)
    requires WellFormed(c)
    requires apiKey.limits.maxReadsPerMinute.Limited? && apiKey.limits.maxReadsPerMinute.max <= I32Max
    requires CounterName(apiKey.key) !in c.values
    requires calls > 0
    ensures var again := Run(ElapseCmd(Run(c, apiKey, calls).after), apiKey, later);
      && |again.outcomes| == later
      && forall j :: 0 <= j < later ==> (again.outcomes[j].Ok? <==> j < apiKey.limits.maxReadsPerMinute.max)
  {
    var first := Run(c, apiKey, calls);
    FreshWindow(c, apiKey, calls);
    RunCounts(c, apiKey, calls);
    FreshWindow(ElapseCmd(first.after), apiKey, later);
  }

  /**
   * Because a failed SET is ignored, INCR creates the counter with no
   * time-to-live: the call is answered as usual, but that counter never
   * expires when the window passes.
   */
  lemma IgnoredSetFailureNeverExpires(c: Counters, apiKey: ApiKey, message: string)
    requires WellFormed(c)
    requires apiKey.limits.maxReadsPerMinute.Limited?
    requires CounterName(apiKey.key) !in c.values
    ensures var a := Admit(c, apiKey, NoFaults.(onSet := Some(message)));
      var name := CounterName(apiKey.key);
      && a.outcome == Admit(c, apiKey, NoFaults).outcome
      && name !in a.after.expiring
      && name in ElapseCmd(a.after).values && ElapseCmd(a.after).values[name] == 1
  {
  }
}
