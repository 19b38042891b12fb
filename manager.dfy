/**
 * The key manager (src/manager/mod.rs): a storage lookup composed with the
 * limiter. The storage backend is whichever of the two is plugged in.
 */
module Manager {
  import opened Wrappers
  import opened Types
  import opened Errors
  import MemoryStorage
  import MongoStorage
  import opened RedisLimiter

  /** `impl From<ApiKeyLimiterError> for ApiKeyManagerError`: the limiter error is kept as it is. */
  function FromLimiterError(e: ApiKeyLimiterError): (m: ApiKeyManagerError)
    ensures m.LimiterError? && m.limiter == e
  {
    LimiterError(e)
  }

  /** `impl From<ApiKeyStorageError> for ApiKeyManagerError`: the storage error is kept as it is. */
  function FromStorageError(e: ApiKeyStorageError): (m: ApiKeyManagerError)
    ensures m.StorageError? && m.storage == e
  {
    ApiKeyManagerError.StorageError(e)
  }

  /** The storage backend chosen when the manager is built. */
  datatype StorageBackend =
    | HashMap(memory: MemoryStorage.HashMapStorage)
    | MongoDB(mongo: MongoStorage.MongoDBStorage)

  function BackendObjects(b: StorageBackend): set<object> {
    match b
    case HashMap(m) => {m}
    case MongoDB(d) => {d}
  }

  /** What `retrieve_api_key` of the backend answers; `fault` is the driver's failure, if any, and only the document store has one. */
  function Retrieve(b: StorageBackend, key: string, fault: Option<string>): (r: Result<ApiKey, ApiKeyStorageError>)
    reads BackendObjects(b)
    ensures b.HashMap? ==> (r.Ok? <==> key in b.memory.entries)
    ensures b.HashMap? && r.Ok? ==> r.value == b.memory.entries[key]
    ensures b.MongoDB? && fault.None? ==>
      (r.Ok? <==> exists i :: 0 <= i < |b.mongo.docs| && b.mongo.docs[i].key == key)
    ensures b.MongoDB? && r.Ok? ==> r.value in b.mongo.docs
    ensures b.MongoDB? && r.Ok? ==> r.value.key == key
    ensures b.MongoDB? && fault.Some? ==> r == Err(ApiKeyStorageError.StorageError(fault.value))
    ensures r.Err? ==> r.error == KeyNotFound || (b.MongoDB? && fault.Some?)
  {
    match b
    case HashMap(m) => MemoryStorage.Lookup(m.entries, key)
    case MongoDB(d) => MongoStorage.Lookup(d.docs, key, fault)
  }

  /** `get_key` given the storage answer: the record on success, the storage error wrapped unchanged otherwise. */
  function GetKeyOutcome(lookup: Result<ApiKey, ApiKeyStorageError>): (r: Result<ApiKey, ApiKeyManagerError>)
    ensures r.Ok? <==> lookup.Ok?
    ensures r.Ok? ==> r.value == lookup.value
    ensures r.Err? ==> r.error == FromStorageError(lookup.error)
  {
    match lookup
    case Ok(apiKey) => Ok(apiKey)
    case Err(e) => Err(FromStorageError(e))
  }

  /** What one `use_key` answers, and the limiter's keyspace after it. */
  datatype Use = Use(outcome: Result<(), ApiKeyManagerError>, after: Counters)

  /**
   * `use_key` given the storage answer: a failed lookup is returned as a
   * storage error before the limiter is reached, so it consumes no quota;
   * otherwise the limiter runs once on the retrieved record and its error,
   * if any, is returned as a limiter error. `Other` is never produced.
   */
  function UseKeyOutcome(lookup: Result<ApiKey, ApiKeyStorageError>, c: Counters, f: RedisFaults): (u: Use)
    ensures lookup.Err? ==> u == Use(Err(FromStorageError(lookup.error)), c)
    ensures lookup.Ok? ==> u.after == Admit(c, lookup.value, f).after
    ensures lookup.Ok? && Admit(c, lookup.value, f).outcome.Err? ==>
      u.outcome == Err(FromLimiterError(Admit(c, lookup.value, f).outcome.error))
    ensures u.outcome.Ok? <==> lookup.Ok? && Admit(c, lookup.value, f).outcome.Ok?
    ensures !(u.outcome.Err? && u.outcome.error.Other?)
  {
    match GetKeyOutcome(lookup)
    case Err(e) => Use(Err(e), c)
    case Ok(apiKey) =>
      var admission := Admit(c, apiKey, f);
      match admission.outcome
      case Ok(_) => Use(Ok(()), admission.after)
      case Err(e) => Use(Err(FromLimiterError(e)), admission.after)
  }

  /** A key the in-memory store does not hold is `KeyNotFound`, and no counter moves. */
  lemma UnknownKeyInMemory(entries: map<string, ApiKey>, key: string, c: Counters, f: RedisFaults)
    requires key !in entries
    ensures UseKeyOutcome(MemoryStorage.Lookup(entries, key), c, f) == Use(Err(ApiKeyManagerError.StorageError(KeyNotFound)), c)
  {
  }

  /** A key no document carries is `KeyNotFound` when the driver works, and no counter moves. */
  lemma UnknownKeyInDocuments(docs: seq<ApiKey>, key: string, c: Counters, f: RedisFaults)
    requires forall i :: 0 <= i < |docs| ==> docs[i].key != key
    ensures UseKeyOutcome(MongoStorage.Lookup(docs, key, None), c, f) == Use(Err(ApiKeyManagerError.StorageError(KeyNotFound)), c)
  {
  }

  class KeyManager {
    const storage: StorageBackend
    const limiter: RedisLimiter

    constructor (storage: StorageBackend, limiter: RedisLimiter)
      ensures this.storage == storage && this.limiter == limiter
    {
      this.storage := storage;
      this.limiter := limiter;
    }

    /** Looks the key up in the backend; reads only. */
    method GetKey(key: string, storageFault: Option<string>) returns (r: Result<ApiKey, ApiKeyManagerError>)
      ensures r == GetKeyOutcome(Retrieve(storage, key, storageFault))
    {
      var lookup;
      match storage {
        case HashMap(m) => lookup := m.RetrieveApiKey(key);
        case MongoDB(d) => lookup := d.RetrieveApiKey(key, storageFault);
      }
      match lookup {
        case Ok(apiKey) => r := Ok(apiKey);
        case Err(e) => r := Err(FromStorageError(e));
      }
    }

    /**
     * Looks the key up, then has the limiter admit one use of the record.
     * Only the limiter's keyspace changes; storage is never written.
     */
    method UseKey(key: string, storageFault: Option<string>, redisFaults: RedisFaults)
      returns (r: Result<(), ApiKeyManagerError>)
      requires limiter.redis.Valid()
      modifies limiter.redis
      ensures limiter.redis.Valid()
      ensures Use(r, limiter.redis.State()) ==
        UseKeyOutcome(old(Retrieve(storage, key, storageFault)), old(limiter.redis.State()), redisFaults)
    {
      ghost var lookup := Retrieve(storage, key, storageFault);
      ghost var before := limiter.redis.State();
      var found := GetKey(key, storageFault);
      if found.Err? {
        return Err(found.error);
      }
      var admitted := limiter.UseKey(found.value, redisFaults);
      assert Admission(admitted, limiter.redis.State()) == Admit(before, lookup.value, redisFaults);
      if admitted.Err? {
        return Err(FromLimiterError(admitted.error));
      }
      r := Ok(());
    }
  }
}
