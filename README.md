# apikeys-rs in Dafny

A model of the request path of `apikeys-rs`, an API-key gate placed in front of an axum
service. A request carries its key in the `x-api-key` header. The middleware asks the key
manager to *use* that key. The manager looks the record up in a storage backend (an
in-process hash map or a MongoDB collection), then has the Redis fixed-window limiter admit
one read. The middleware then forwards the request or answers with a `{message, type}`
rejection.

Modules, one per source file:

- `Wrappers` (wrappers.dfy): `Option` and `Result`.
- `Types` (types.dfy, `src/types.rs`): the key record, its quota settings and the decimal
  `Display` of a quota, proved against its inverse `DecimalValue`.
- `Errors` (errors.dfy, `src/errors.rs`): the storage, limiter and manager error tiers, with
  their messages and kinds.
- `MemoryStorage` (memory_storage.dfy): `HashMapStorage`, a class whose `entries` map is
  updated in place.
- `MongoStorage` (mongodb_storage.dfy): `MongoDBStorage`, a class over a sequence of
  documents. It does a check-then-insert on store, a find-one on retrieve and a delete-one
  on delete. A failing driver call is an explicit `Option<string>` fault parameter.
- `RedisLimiter` (redis_limiter.dfy): the Redis keyspace as the class `CounterStore`. Its
  EXISTS, SET, EXPIRE and INCR commands mirror the pure functions `SetCmd`, `ExpireCmd` and
  `IncrCmd`. `RedisLimiter.UseKey` runs these commands in the source's order and is proved
  equal to the pure function `Admit`. The lemmas are stated about `Admit`.
- `Manager` (manager.dfy): `KeyManager` over a `StorageBackend`, which is either of the two
  backends, and a `RedisLimiter`. It is proved against `UseKeyOutcome`.
- `LayerErrors` (layer_errors.dfy, `src/axum_layer/errors.rs`): the boundary tier, its
  payload and the status of each error.
- `Middleware` (middleware.dfy, `src/axum_layer/mod.rs`): header extraction, the
  manager-to-boundary conversion, `verify_api_key`, and `ApiKeyMiddleware.Call`.

I/O and clocks become parameters:

- A failing driver, connection or Redis command is a fault argument that carries the
  error's message.
- The inner service is represented by the result its future would resolve to, plus a log
  of the requests handed to its `call`.
- The passing of a rate-limit window is the explicit operation `ElapseWindow`/`ElapseCmd`.
  It drops every counter that has a time-to-live.

Three behaviours of the code that a reader might not expect, all modelled as written:

- A manager error of kind `Other` reaches the client as `InvalidApiKey` (401):
  `src/axum_layer/mod.rs:132-142` turns every non-limiter manager error into `InvalidApiKey`.
- When the header is present, `inner.call(request)` runs before the key is verified. A
  rejection only skips awaiting that future. `Call` records the call in `innerCalls`.
- The in-memory store overwrites an existing key. Only the MongoDB store rejects duplicates.

## Model

| member | source | states |
|---|---|---|
| `Types.DecimalString` | src/types.rs:15 | the rendering of a `u32` limit is non-empty, all decimal digits, has no leading zero, and is longer than one digit exactly when the number is at least 10 |
| `Types.DecimalRoundTrip` | src/types.rs:15 | reading the rendered digits back gives the number itself |
| `Types.DecimalStringInjective` | src/types.rs:15 | distinct numbers render as distinct strings |
| `Types.LimitDisplay` | src/types.rs:12-19 | a limit shows as "unlimited" exactly when it is `Unlimited`; a `Limited` one shows as a non-empty string of decimal digits |
| `Types.LimitDisplayForms` | src/types.rs:12-19 | `Unlimited` shows as "unlimited"; `Limited(n)` shows as a non-empty digit string whose value is n |
| `Types.LimitDisplayInjective` | src/types.rs:12-19 | two limits display alike exactly when they are equal, so no `Limited` value displays as "unlimited" |
| `Types.MockApiKey` | src/mock/mock_api_key.rs:3-15 | the fixture record has the given key or "test_key", a read quota of `Limited(100)`, status `Active`, and its two timestamps from two separate clock readings |
| `Errors.StorageMessageType` | src/errors.rs:22-30 | each storage kind string names exactly one variant: KeyNotFound, KeyAlreadyExists, SerializationError, StorageError |
| `Errors.StorageKindIgnoresDetail` | src/errors.rs:27-28 | two storage errors have the same kind exactly when they are the same variant, whatever details they carry |
| `Errors.LimiterMessageType` | src/errors.rs:55-61 | "RateLimitExceeded" names exactly `RateLimitExceeded`, "ApiLimiter::Other" exactly `Other(_)` |
| `Errors.KindsIdentifyTier` | src/errors.rs:22-61 | no storage kind equals a limiter kind, so the six kind strings are pairwise distinct across tiers |
| `Errors.StorageMessage` | src/errors.rs:11-19 | the variant can be read off characters 2 and 4 of its message, and a wrapped detail is the message's tail |
| `Errors.StorageMessageTable` | src/errors.rs:11-19 | storage messages are "Key not found", "Key already exists", "Serialization error: "+detail and "Storage error: "+detail |
| `Errors.StorageMessageInjective` | src/errors.rs:11-19 | two storage errors have the same message exactly when they are equal |
| `Errors.LimiterMessage` | src/errors.rs:46-52 | a message starts with 'R' exactly for `RateLimitExceeded`, and the detail of `Other` is the message's tail |
| `Errors.LimiterMessageInjective` | src/errors.rs:46-52 | limiter messages are "Rate limit exceeded" and "Other error: "+detail, and equal messages mean equal errors |
| `MemoryStorage.Lookup` | src/storage/memory_storage.rs:26-31 | a lookup succeeds exactly for a present key, with that key's entry; otherwise it is `KeyNotFound` |
| `MemoryStorage.HashMapStorage.constructor` | src/storage/memory_storage.rs:13-15 | a new store is empty |
| `MemoryStorage.HashMapStorage.StoreApiKey` | src/storage/memory_storage.rs:20-24 | store always answers the key argument; the entry is indexed by that argument, overwrites any earlier one, and every other key reads as before |
| `MemoryStorage.HashMapStorage.RetrieveApiKey` | src/storage/memory_storage.rs:26-31 | retrieve answers the stored record or `KeyNotFound` and changes nothing |
| `MemoryStorage.HashMapStorage.DeleteApiKey` | src/storage/memory_storage.rs:33-35 | delete answers whether the key was present; afterwards the key is absent, other keys read as before, and an absent key leaves the map unchanged |
| `MemoryStorage.StoreThenRetrieve` | src/lib.rs:36-65 | storing a record and reading it back gives the key argument and then the very record stored |
| `MemoryStorage.DeleteTwice` | src/storage/memory_storage.rs:33-35 | deleting twice answers presence, then false, and a later retrieve is `KeyNotFound` |
| `MongoStorage.FindOne` | src/storage/mongodb_storage.rs:34-36 | the filter finds nothing exactly when no document has that `key` field; a found document has it and is in the collection |
| `MongoStorage.DeleteOne` | src/storage/mongodb_storage.rs:76 | without a match the collection is unchanged; with one, exactly the found document is removed (one fewer, same multiset otherwise) |
| `MongoStorage.Lookup` | src/storage/mongodb_storage.rs:53-69 | with a working driver, retrieve succeeds exactly when some document has the key, and the answer is such a document; a driver failure is always `StorageError(msg)`, and the only other error is `KeyNotFound` |
| `MongoStorage.MongoDBStorage.StoreApiKey` | src/storage/mongodb_storage.rs:31-51 | a failed find is `StorageError(msg)`; an existing key is `KeyAlreadyExists`; a failed insert is `StorageError(msg)`; in all three cases the collection is unchanged; otherwise `value` is appended once and the key argument is answered |
| `MongoStorage.MongoDBStorage.RetrieveApiKey` | src/storage/mongodb_storage.rs:53-69 | retrieve answers as `Lookup` and changes nothing |
| `MongoStorage.MongoDBStorage.DeleteApiKey` | src/storage/mongodb_storage.rs:71-82 | a driver failure is `StorageError(msg)` with nothing removed; otherwise the answer is whether a match existed and the first match is removed |
| `MongoStorage.StorePreservesUniqueKeys` | src/storage/mongodb_storage.rs:34-50 | when `value.key` is the key argument, a successful store keeps every `key` field unique |
| `MongoStorage.MismatchedKeyBypassesCheck` | src/storage/mongodb_storage.rs:34-45 | the pre-check filters on the argument, so a record whose `key` field differs can duplicate an existing one |
| `MongoStorage.DeleteOneRemovesOneMatch` | src/storage/mongodb_storage.rs:76-79 | delete-one removes exactly one matching document when there is one and none otherwise, and reports a match exactly when there was one |
| `MongoStorage.DeleteUniqueLeavesNoMatch` | src/storage/mongodb_storage.rs:71-82 | with unique keys, a deleted key is not found afterwards |
| `RedisLimiter.CounterName` | src/limiters/redis_limiter.rs:30 | the counter name is the key followed by "_read_count" |
| `RedisLimiter.CounterNameInjective` | src/limiters/redis_limiter.rs:30 | two keys share a counter name exactly when they are equal, so distinct keys never share a counter |
| `RedisLimiter.AsI32` | src/limiters/redis_limiter.rs:43 | `u32 as i32` stays within the i32 range and agrees with the limit modulo 2^32 |
| `RedisLimiter.FromRedisError` | src/limiters/redis_limiter.rs:54-58 | a Redis failure reaches the client with kind "ApiLimiter::Other" and message "Other error: " followed by the Redis message |
| `RedisLimiter.Admit` | src/limiters/redis_limiter.rs:25-51 | one `use_key` keeps the keyspace well formed: only present counters expire and every count stays non-negative |
| `RedisLimiter.CounterStore.Exists` | src/limiters/redis_limiter.rs:32 | EXISTS answers whether the counter is present, or the Redis error |
| `RedisLimiter.CounterStore.Set` | src/limiters/redis_limiter.rs:35 | SET stores the value and clears its time-to-live; a failed SET changes nothing; the keyspace stays well formed |
| `RedisLimiter.CounterStore.Expire` | src/limiters/redis_limiter.rs:37 | EXPIRE gives a present counter the time-to-live and does nothing to an absent one; the keyspace stays well formed |
| `RedisLimiter.CounterStore.Incr` | src/limiters/redis_limiter.rs:41 | INCR raises the counter by one, starting an absent one from 0, and answers the new value; the keyspace stays well formed |
| `RedisLimiter.CounterStore.ElapseWindow` | src/limiters/redis_limiter.rs:37 | when the window passes, every counter with a time-to-live disappears and the others stay |
| `RedisLimiter.RedisLimiter.UseKey` | src/limiters/redis_limiter.rs:25-51 | the exists → set 0 → expire 60 → incr → compare sequence answers, and leaves the keyspace, exactly as `Admit`, and keeps the keyspace well formed |
| `RedisLimiter.UnlimitedTouchesNothing` | src/limiters/redis_limiter.rs:47-50 | an `Unlimited` read quota admits and touches no counter, even when Redis is failing |
| `RedisLimiter.WriteQuotaIgnored` | src/limiters/redis_limiter.rs:26 | keys that differ only in their write quota are treated identically |
| `RedisLimiter.LimitedCallCounts` | src/limiters/redis_limiter.rs:41-45 | a limited call that reaches INCR raises its counter by exactly one, admitted or not, leaves other counters alone, and is rejected exactly when the new count exceeds the limit as i32 |
| `RedisLimiter.FailuresBecomeOther` | src/limiters/redis_limiter.rs:28-41 | failed connect, EXISTS or INCR give `Other(message)` (the first two touch nothing); failed SET or EXPIRE never change the answer; `Other` comes from nothing else |
| `RedisLimiter.LimitedZeroRejectsAll` | src/limiters/redis_limiter.rs:43-45 | `Limited(0)` rejects every call |
| `RedisLimiter.LimitAboveI32MaxRejectsAll` | src/limiters/redis_limiter.rs:43 | a limit above 2^31-1 turns negative under the cast and every call is rejected |
| `RedisLimiter.RunCounts` | src/limiters/redis_limiter.rs:32-45 | over successive calls the j-th sees its start count plus j+1 and is admitted exactly when that is within the limit; the counter ends raised by the number of calls; a new counter gets the 60-second time-to-live |
| `RedisLimiter.FreshWindow` | src/limiters/redis_limiter.rs:32-45 | from a fresh window with limit n, calls 1..n are admitted and every later one is `RateLimitExceeded`; the counter equals the number of calls and will expire |
| `RedisLimiter.WindowRestarts` | src/limiters/redis_limiter.rs:35-37 | after the window passes, the same key is admitted n more times again |
| `RedisLimiter.IgnoredSetFailureNeverExpires` | src/limiters/redis_limiter.rs:35-37 | when SET fails on a fresh window the call is answered as usual, but INCR creates the counter without a time-to-live, so it survives the window |
| `Manager.FromLimiterError` | src/manager/mod.rs:50-54 | a limiter error becomes `LimiterError(e)` with e unchanged |
| `Manager.FromStorageError` | src/manager/mod.rs:56-60 | a storage error becomes `StorageError(e)` with e unchanged |
| `Manager.Retrieve` | src/manager/mod.rs:36 | the in-memory backend finds exactly the keys it holds and answers the record stored under the key; with a working driver the document backend finds a key exactly when some document carries it and answers such a document; a driver failure is always `StorageError(msg)`; the only other error is `KeyNotFound` |
| `Manager.GetKeyOutcome` | src/manager/mod.rs:35-39 | `get_key` succeeds exactly when the lookup does, with the stored record; a storage error is wrapped unchanged |
| `Manager.UseKeyOutcome` | src/manager/mod.rs:41-47 | a failed lookup is returned as `StorageError(e)` and moves no counter; otherwise the limiter runs once on the retrieved record and its error comes back as `LimiterError(e)`; success exactly when both succeed; `Other` never appears |
| `Manager.UnknownKeyInMemory` | src/manager/mod.rs:41-42 | a key the hash map lacks gives `StorageError(KeyNotFound)` and consumes no quota |
| `Manager.UnknownKeyInDocuments` | src/manager/mod.rs:41-42 | a key no document carries gives `StorageError(KeyNotFound)` and consumes no quota |
| `Manager.KeyManager.constructor` | src/manager/mod.rs:24-26 | the manager holds the given storage and limiter |
| `Manager.KeyManager.GetKey` | src/manager/mod.rs:35-39 | reads the plugged-in backend and answers as `GetKeyOutcome`, changing nothing |
| `Manager.KeyManager.UseKey` | src/manager/mod.rs:41-47 | answers and updates the limiter keyspace as `UseKeyOutcome` of the backend's answer; storage is never written, and the keyspace stays well formed |
| `LayerErrors.LayerMessage` | src/axum_layer/errors.rs:24-38 | a message contains a colon exactly when it wraps a limiter or storage error |
| `LayerErrors.LayerMessageTable` | src/axum_layer/errors.rs:24-38 | the fixed message of each unit variant, and "Limiter error: " / "Storage error: " before the inner message for wrapped ones |
| `LayerErrors.LayerMessageType` | src/axum_layer/errors.rs:40-51 | the five unit variants have their own fixed kinds; wrapped variants delegate to the inner error's kind |
| `LayerErrors.LayerKindsDistinct` | src/axum_layer/errors.rs:40-51 | variants of different shape never share a kind |
| `LayerErrors.ToErrorResponseInjective` | src/axum_layer/errors.rs:56-60 | two boundary errors give the same payload exactly when they are equal, so the payload keeps the variant and its detail |
| `LayerErrors.IntoResponse` | src/axum_layer/errors.rs:62-92 | `UnexpectedError` and `StorageError` are 500; the other five variants are 401; the payload always carries the error's kind |
| `LayerErrors.PayloadOfRejection` | src/axum_layer/errors.rs:62-92 | a unit variant's payload is its own message and kind; a wrapped variant's payload is the inner message without the layer prefix, and the inner kind |
| `LayerErrors.IntoResponseInjective` | src/axum_layer/errors.rs:62-92 | distinct boundary errors always get distinct replies |
| `Middleware.ToStr` | src/axum_layer/mod.rs:110-113 | a header value converts exactly when every byte is visible ASCII or tab, and then character for byte |
| `Middleware.ExtractHeader` | src/axum_layer/mod.rs:108-116 | `Some(text)` exactly when the header is present and converts; otherwise `None` |
| `Middleware.FromManagerError` | src/axum_layer/mod.rs:132-142 | `LimiterError(e)` passes through unchanged; `StorageError` and `Other` both collapse to `InvalidApiKey` |
| `Middleware.VerifyApiKey` | src/axum_layer/mod.rs:118-130 | `Ok(true)` exactly when `use_key` succeeds, the converted error otherwise, never `Ok(false)` |
| `Middleware.Settle` | src/axum_layer/mod.rs:77-92 | a successful verification gives back the inner result untouched; anything else is an `Ok` JSON rejection, 401 with {"The provided API key is not valid", "InvalidApiKey"} for `Ok(false)`, and for an error exactly the status and payload of its `into_response` |
| `Middleware.ManagerOutcomeSettles` | src/axum_layer/mod.rs:77-92 | on success the inner result is returned unchanged; every failure is a 401 rejection of type InvalidApiKey, RateLimitExceeded or ApiLimiter::Other |
| `Middleware.MissingHeaderRejected` | src/axum_layer/mod.rs:64-71 | the missing-header answer is 401 with {"x-api-key header is not set", "MissingApiKey"} |
| `Middleware.FailedLookupLooksInvalid` | src/axum_layer/mod.rs:132-142 | any failed lookup, absent key or storage fault alike, gives the same 401 `InvalidApiKey` reply and moves no counter |
| `Middleware.UnderQuotaForwarded` | src/axum_layer/mod.rs:79-82 | a known key under its quota is forwarded and the inner result comes back unchanged |
| `Middleware.ExhaustedQuotaRejected` | src/axum_layer/mod.rs:87-90 | a known key over its quota gets 401 {"Rate limit exceeded", "RateLimitExceeded"} |
| `Middleware.ApiKeyMiddleware.Call` | src/axum_layer/mod.rs:60-93 | without a usable header: `MissingApiKey`, with neither manager nor inner service consulted; otherwise the inner service is called first, the manager uses the key, and the answer is the inner result or the rejection; either way the keyspace stays well formed |

## Left out

- HTTP and tower plumbing is left out: `ApiKeyLayer::new`, `Layer::layer`, `poll_ready`, `BoxFuture`, building `Response<Body>` and JSON serialisation. A response is only its status and its `{message, type}` record, or the inner service's result.
- Header names are looked up as the lower-case key the HTTP library normalises them to. Only a header's first value is kept.
- Connection setup is left out: `RedisLimiter::new`, `MongoDBStorage::new` with its default collection name "api_keys", and `get_async_connection`. A failed connection appears only as the `onConnect` fault.
- Redis and MongoDB are reduced to a counter map with time-to-lives and a document sequence. `find_one` and `delete_one` act on the first match in sequence order. A failed insert or delete is assumed to leave the collection unchanged.
- The i32 conversion of the INCR reply is not modelled. Counters are unbounded integers; overflowing i32 would take 2^31 calls in one window.
- Concurrency and async suspension are left out. The exists/set/incr race between simultaneous calls is not modelled, nor is the claim that N simultaneous first calls admit exactly the quota. Only sequential behaviour is proved.
- Real time is left out. A window passes only through the explicit `ElapseWindow`, which expires every counter with a time-to-live at once. The 60 seconds are recorded but never count down.
- The `chrono` timestamps and serde derives are left out. `created_at` and `updated_at` are opaque `Timestamp` values.
- `tracing` logging is left out, including the error logged before a manager error collapses to `InvalidApiKey`.
- The traits in `src/traits.rs` are not Dafny traits. The storage port is the `StorageBackend` datatype with one variant per backend. `RedisLimiter` is the only limiter.
- Cloning is not modelled. In the source, a `HashMapStorage` cloned into a manager is a separate map. Here the manager refers to the one object it is given.
- `status` and `allowed_domains` are never read on the request path, so no check is modelled for them. `ApiKeyNotFound`, `DomainNotAllowed`, `UnexpectedError` and `SerializationError` are modelled as values but never produced.
- The crate's MongoDB test needs a live database and is not modelled.
