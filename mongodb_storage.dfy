/**
 * The document-database storage backend (src/storage/mongodb_storage.rs).
 * The collection is a sequence of documents in natural order; `find_one` and
 * `delete_one` with a `{ key: <argument> }` filter act on the first document
 * whose `key` field matches. A failing driver call is an explicit fault
 * parameter carrying the driver's message.
 */
module MongoStorage {
  import opened Wrappers
  import opened Types
  import opened Errors

  /** A failed driver call, reported as `StorageError(e.to_string())`. */
  function DriverError(message: string): ApiKeyStorageError {
    ApiKeyStorageError.StorageError(message)
  }

  /** `find_one({ key })`: the first document whose `key` field is `key`. */
  function FindOne(docs: seq<ApiKey>, key: string): (r: Option<ApiKey>)
    ensures r.None? <==> forall i :: 0 <= i < |docs| ==> docs[i].key != key
    ensures r.Some? ==> r.value.key == key && r.value in docs
  {
    if docs == [] then None
    else if docs[0].key == key then Some(docs[0])
    else FindOne(docs[1..], key)
  }

  /** `delete_one({ key })`: the collection without its first matching document. */
  function DeleteOne(docs: seq<ApiKey>, key: string): (r: seq<ApiKey>)
    ensures FindOne(docs, key).None? ==> r == docs
    ensures FindOne(docs, key).Some? ==>
      |r| == |docs| - 1 && multiset(r) + multiset{FindOne(docs, key).value} == multiset(docs)
  {
    if docs == [] then []
    else
      assert docs == [docs[0]] + docs[1..];
      if docs[0].key == key then docs[1..]
      else [docs[0]] + DeleteOne(docs[1..], key)
  }

  /** Number of documents whose `key` field is `key`. */
  function Matching(docs: seq<ApiKey>, key: string): nat {
    if docs == [] then 0
    else (if docs[0].key == key then 1 else 0) + Matching(docs[1..], key)
  }

  /** No two documents share a `key` field. */
  predicate UniqueKeys(docs: seq<ApiKey>) {
    forall i, j :: 0 <= i < j < |docs| ==> docs[i].key != docs[j].key
  }

  class MongoDBStorage {
    var docs: seq<ApiKey>

    constructor (initial: seq<ApiKey>)
      ensures docs == initial
    {
      docs := initial;
    }

    /**
     * Check-then-insert: a document with the argument key already there is
     * `KeyAlreadyExists`; otherwise `value` is appended once. Either driver
     * call may fail, which is a `StorageError` carrying the driver's message
     * and leaves the collection as it was.
     */
    method StoreApiKey(key: string, value: ApiKey, findFault: Option<string>, insertFault: Option<string>)
      returns (r: Result<string, ApiKeyStorageError>)
      modifies this
      ensures findFault.Some? ==> r == Err(DriverError(findFault.value)) && docs == old(docs)
      ensures findFault.None? && FindOne(old(docs), key).Some? ==> r == Err(KeyAlreadyExists) && docs == old(docs)
      ensures findFault.None? && FindOne(old(docs), key).None? && insertFault.Some? ==>
        r == Err(DriverError(insertFault.value)) && docs == old(docs)
      ensures findFault.None? && FindOne(old(docs), key).None? && insertFault.None? ==>
        r == Ok(key) && docs == old(docs) + [value]
    {
      if findFault.Some? {
        return Err(DriverError(findFault.value));
      }
      var existing := FindOne(docs, key);
      if existing.Some? {
        return Err(KeyAlreadyExists);
      }
      if insertFault.Some? {
        return Err(DriverError(insertFault.value));
      }
      docs := docs + [value];
      r := Ok(key);
    }

    /** Finds the first document with the key; none is `KeyNotFound`. Reads only. */
    method RetrieveApiKey(key: string, fault: Option<string>) returns (r: Result<ApiKey, ApiKeyStorageError>)
      ensures r == Lookup(docs, key, fault)
    {
      if fault.Some? {
        return Err(DriverError(fault.value));
      }
      var found := FindOne(docs, key);
      match found
      case Some(doc) => r := Ok(doc);
      case None => r := Err(KeyNotFound);
    }

    /** Deletes the first document with the key, answering whether one was deleted. */
    method DeleteApiKey(key: string, fault: Option<string>) returns (r: Result<bool, ApiKeyStorageError>)
      modifies this
      ensures fault.Some? ==> r == Err(DriverError(fault.value)) && docs == old(docs)
      ensures fault.None? ==> r == Ok(FindOne(old(docs), key).Some?) && docs == DeleteOne(old(docs), key)
    {
      if fault.Some? {
        return Err(DriverError(fault.value));
      }
      var deletedCount := if FindOne(docs, key).Some? then 1 else 0;
      docs := DeleteOne(docs, key);
      r := Ok(deletedCount > 0);
    }
  }

  /** What `retrieve_api_key` answers for `key` over the collection `docs`. */
  function Lookup(docs: seq<ApiKey>, key: string, fault: Option<string>): (r: Result<ApiKey, ApiKeyStorageError>)
    ensures fault.Some? ==> r == Err(DriverError(fault.value))
    ensures r.Err? ==> r.error == KeyNotFound || (fault.Some? && r.error == DriverError(fault.value))
    ensures fault.None? ==> (r.Ok? <==> exists i :: 0 <= i < |docs| && docs[i].key == key)
    ensures r.Ok? ==> r.value.key == key && r.value in docs
  {
    if fault.Some? then Err(DriverError(fault.value))
    else match FindOne(docs, key)
      case Some(doc) => Ok(doc)
      case None => Err(KeyNotFound)
  }

  /** A successful store with `value.key` equal to the key argument keeps the keys unique. */
  lemma StorePreservesUniqueKeys(docs: seq<ApiKey>, key: string, value: ApiKey)
    requires UniqueKeys(docs)
    requires FindOne(docs, key).None?
    requires value.key == key
    ensures UniqueKeys(docs + [value])
  {
  }

  /**
   * The pre-check filters on the key argument, not on `value.key`: storing a
   * record under a different argument key can duplicate an existing `key` field.
   */
  lemma MismatchedKeyBypassesCheck()
    ensures exists docs: seq<ApiKey>, key: string, value: ApiKey ::
      UniqueKeys(docs) && FindOne(docs, key).None? && !UniqueKeys(docs + [value])
  {
    var rec := MockApiKey(None, Timestamp(0), Timestamp(0));
    var docs := [rec];
    assert FindOne(docs, "other") == None;
    assert (docs + [rec])[0].key == (docs + [rec])[1].key;
    assert UniqueKeys(docs) && FindOne(docs, "other").None? && !UniqueKeys(docs + [rec]);
  }

  /** `delete_one` removes at most one matching document, and exactly one when there is a match. */
  lemma {:induction false} DeleteOneRemovesOneMatch(docs: seq<ApiKey>, key: string)
    ensures Matching(DeleteOne(docs, key), key) == if Matching(docs, key) > 0 then Matching(docs, key) - 1 else 0
    ensures Matching(docs, key) > 0 <==> FindOne(docs, key).Some?
  {
    if docs != [] {
      DeleteOneRemovesOneMatch(docs[1..], key);
      if docs[0].key != key {
        assert DeleteOne(docs, key) == [docs[0]] + DeleteOne(docs[1..], key);
        assert ([docs[0]] + DeleteOne(docs[1..], key))[1..] == DeleteOne(docs[1..], key);
      }
    }
  }

  /** With unique keys, a deleted key cannot be found any more. */
  lemma DeleteUniqueLeavesNoMatch(docs: seq<ApiKey>, key: string)
    requires UniqueKeys(docs)
    ensures FindOne(DeleteOne(docs, key), key).None?
  {
    DeleteOneRemovesOneMatch(docs, key);
    UniqueMatchesAtMostOne(docs, key);
    MatchingZero(DeleteOne(docs, key), key);
  }

  lemma {:induction false} UniqueMatchesAtMostOne(docs: seq<ApiKey>, key: string)
    requires UniqueKeys(docs)
    ensures Matching(docs, key) <= 1
  {
    if docs != [] {
      UniqueMatchesAtMostOne(docs[1..], key);
      if docs[0].key == key {
        MatchingZero(docs[1..], key);
      }
    }
  }

  lemma {:induction false} MatchingZero(docs: seq<ApiKey>, key: string)
    ensures Matching(docs, key) == 0 <==> forall i :: 0 <= i < |docs| ==> docs[i].key != key
  {
    if docs != [] {
      MatchingZero(docs[1..], key);
      assert forall i :: 1 <= i < |docs| ==> docs[i] == docs[1..][i - 1];
    }
  }
}
