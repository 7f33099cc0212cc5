/**
 * The cache adapter of src/cache.js: a promise-style `get`/`set` over a
 * key/value store with a per-entry time-to-live. The backing store is a map;
 * the errors it may report are passed in by the caller, one per store call.
 */
module SdkCache {
  import opened Wrappers

  /** A stored value together with the `ttl` option it was written with. */
  datatype Entry = Entry(value: string, ttl: Option<int>)

  /** What the store holds under `key`, or `None` when nothing is stored there. */
  function Lookup(store: map<string, Entry>, key: string): Option<string>
  {
    if key in store then Some(store[key].value) else None
  }

  /** Writing `key` makes a read of `key` see the new value and leaves every other key as it was. */
  lemma LookupAfterWrite(store: map<string, Entry>, key: string, e: Entry, other: string)
    ensures Lookup(store[key := e], key) == Some(e.value)
    ensures other != key ==> Lookup(store[key := e], other) == Lookup(store, other)
  {
  }

  class WechatSdkCache {
    /** The backing store (a cache-manager instance in the source). */
    var store: map<string, Entry>

    constructor ()
      ensures store == map[]
    {
      store := map[];
    }

    /**
     * Resolves with the value stored under `key`, absent when there is none,
     * or rejects with the store's error. Never changes the store.
     */
    method Get(key: string, fault: Option<string>) returns (r: Result<Option<string>, string>)
      ensures r.Failure? <==> fault.Some?
      ensures r.Failure? ==> r.error == fault.value
      ensures r.Success? ==> (r.value.Some? <==> key in store)
      ensures r.Success? && r.value.Some? ==> r.value.value == store[key].value
    {
      if fault.Some? {
        return Failure(fault.value);
      }
      return Success(Lookup(store, key));
    }

    /**
     * Writes `val` under `key`, then reads the entry back and resolves with
     * what the read returned. A failed write rejects without reading back; a
     * failed read-back rejects although the entry has been written.
     */
    method Set(key: string, val: string, ttl: Option<int>, writeFault: Option<string>, readFault: Option<string>)
      returns (r: Result<Option<string>, string>)
      modifies this
      ensures writeFault.Some? ==> r == Failure(writeFault.value) && store == old(store)
      ensures writeFault.None? ==> store == old(store)[key := Entry(val, ttl)]
      ensures writeFault.None? && readFault.Some? ==> r == Failure(readFault.value)
      ensures writeFault.None? && readFault.None? ==> r == Success(Some(val))
    {
      if writeFault.Some? {
        return Failure(writeFault.value);
      }
      store := store[key := Entry(val, ttl)];
      r := Get(key, readFault);
    }
  }
}
