/**
 * The in-process storage backend (src/storage/memory_storage.rs): a hash map
 * from the key argument to the record, updated in place.
 */
module MemoryStorage {
  import opened Wrappers
  import opened Types
  import opened Errors

  /** What `retrieve_api_key` answers for `key` when the map holds `entries`. */
  function Lookup(entries: map<string, ApiKey>, key: string): (r: Result<ApiKey, ApiKeyStorageError>)
    ensures r.Ok? <==> key in entries
    ensures r.Ok? ==> r.value == entries[key]
    ensures r.Err? ==> r.error == KeyNotFound
  {
    if key in entries then Ok(entries[key]) else Err(KeyNotFound)
  }

  class HashMapStorage {
    var entries: map<string, ApiKey>

    /** `HashMapStorage::new`: an empty map. */
    constructor ()
      ensures entries == map[]
    {
      entries := map[];
    }

    /**
     * Inserts `value` under the key argument, replacing whatever was there;
     * it never fails and never reports `KeyAlreadyExists`.
     */
    method StoreApiKey(key: string, value: ApiKey) returns (r: Result<string, ApiKeyStorageError>)
      modifies this
      ensures r == Ok(key)
      ensures entries == old(entries)[key := value]
      ensures Lookup(entries, key) == Ok(value)
      ensures forall k :: k != key ==> Lookup(entries, k) == Lookup(old(entries), k)
    {
      entries := entries[key := value];
      r := Ok(key);
    }

    /** Reads the entry for `key`; an absent key is `KeyNotFound`. The map is not changed. */
    method RetrieveApiKey(key: string) returns (r: Result<ApiKey, ApiKeyStorageError>)
      ensures r == Lookup(entries, key)
    {
      if key in entries {
        r := Ok(entries[key]);
      } else {
        r := Err(KeyNotFound);
      }
    }

    /** Removes the entry for `key`, answering whether there was one; it never fails. */
    method DeleteApiKey(key: string) returns (r: Result<bool, ApiKeyStorageError>)
      modifies this
      ensures r == Ok(key in old(entries))
      ensures entries == old(entries) - {key}
      ensures Lookup(entries, key) == Err(KeyNotFound)
      ensures forall k :: k != key ==> Lookup(entries, k) == Lookup(old(entries), k)
      ensures key !in old(entries) ==> entries == old(entries)
    {
      var present := key in entries;
      entries := entries - {key};
      r := Ok(present);
    }
  }

  /**
   * The scenario of the crate's own storage tests: storing a record and
   * reading it back gives the key argument and then the very record stored.
   */
  method StoreThenRetrieve(storage: HashMapStorage, key: string, value: ApiKey)
    returns (stored: Result<string, ApiKeyStorageError>, retrieved: Result<ApiKey, ApiKeyStorageError>)
    modifies storage
    ensures stored == Ok(key) && retrieved == Ok(value)
  {
    stored := storage.StoreApiKey(key, value);
    retrieved := storage.RetrieveApiKey(key);
  }

  /** Deleting twice: the first call answers whether the key was there, the second answers false. */
  method DeleteTwice(storage: HashMapStorage, key: string)
    returns (first: Result<bool, ApiKeyStorageError>, second: Result<bool, ApiKeyStorageError>,
             retrieved: Result<ApiKey, ApiKeyStorageError>)
    modifies storage
    ensures first == Ok(key in old(storage.entries)) && second == Ok(false)
    ensures retrieved == Err(KeyNotFound)
  {
    first := storage.DeleteApiKey(key);
    second := storage.DeleteApiKey(key);
    retrieved := storage.RetrieveApiKey(key);
  }
}
