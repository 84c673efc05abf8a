/**
 * The process-wide forecast cache: a map from key to (value, expiry) with a
 * fixed time to live. Expired entries are removed lazily, when they are read.
 * Times are milliseconds, passed in by the caller in place of the clock.
 */
module CacheStore {
  import opened Wrappers

  /** Four hours, in milliseconds. */
  const CacheDurationMs: int := 4 * 60 * 60 * 1000

  /** A cached value and the last instant at which it may still be read. */
  datatype Entry<V> = Entry(value: V, expiry: int)

  /** What a read at time `now` returns from `store`. */
  function Lookup<V>(store: map<string, Entry<V>>, key: string, now: int): (r: Option<V>)
    ensures key !in store ==> r == None
    ensures key in store && now > store[key].expiry ==> r == None
    ensures key in store && now <= store[key].expiry ==> r == Some(store[key].value)
    ensures r.Some? <==> key in store && now <= store[key].expiry
  {
    if key !in store then None
    else if now > store[key].expiry then None
    else Some(store[key].value)
  }

  /** The store after a read at time `now`: the key is dropped if it has expired. */
  function AfterLookup<V>(store: map<string, Entry<V>>, key: string, now: int): (r: map<string, Entry<V>>)
    ensures r.Keys <= store.Keys
    ensures forall k :: k in r ==> r[k] == store[k]
    ensures forall k :: k in store && k != key ==> k in r
    ensures key in r <==> Lookup(store, key, now).Some?
  {
    if key in store && now > store[key].expiry then store - {key} else store
  }

  /** The store after writing `value` under `key` at time `now`. */
  function Store<V>(store: map<string, Entry<V>>, key: string, value: V, now: int): (r: map<string, Entry<V>>)
    ensures r.Keys == store.Keys + {key}
    ensures r[key] == Entry(value, now + CacheDurationMs)
    ensures forall k :: k in store && k != key ==> r[k] == store[k]
  {
    store[key := Entry(value, now + CacheDurationMs)]
  }

  class Cache<V> {
    var store: map<string, Entry<V>>

    /** A new, empty cache. */
    constructor ()
      ensures store == map[]
    {
      store := map[];
    }

    /** Stores `value` under `key`, to expire CacheDurationMs after `now`. */
    method Set(key: string, value: V, now: int)
      modifies this
      ensures store == Store(old(store), key, value, now)
    {
      var entry := Entry(value, now + CacheDurationMs);
      store := store[key := entry];
    }

    /**
     * Returns the value under `key` unless it is absent or has expired at
     * `now`; an expired entry is removed.
     */
    method Get(key: string, now: int) returns (r: Option<V>)
      modifies this
      ensures r == Lookup(old(store), key, now)
      ensures store == AfterLookup(old(store), key, now)
    {
      if key !in store {
        return None;
      }
      var entry := store[key];
      if now > entry.expiry {
        store := store - {key};
        return None;
      }
      return Some(entry.value);
    }

    /** Removes every entry. */
    method Clear()
      modifies this
      ensures store == map[]
    {
      store := map[];
    }
  }

  /** A read within the time to live of a write returns the written value and keeps the store. */
  lemma ReadWithinTtl<V>(store: map<string, Entry<V>>, key: string, value: V, t: int, now: int)
    requires now <= t + CacheDurationMs
    ensures Lookup(Store(store, key, value, t), key, now) == Some(value)
    ensures AfterLookup(Store(store, key, value, t), key, now) == Store(store, key, value, t)
  {
  }

  /** A read after the time to live of a write returns nothing and removes only that key. */
  lemma ReadAfterTtl<V>(store: map<string, Entry<V>>, key: string, value: V, t: int, now: int)
    requires now > t + CacheDurationMs
    ensures Lookup(Store(store, key, value, t), key, now) == None
    ensures AfterLookup(Store(store, key, value, t), key, now) == store - {key}
  {
  }

  /** Nothing can be read from an empty (new or cleared) cache. */
  lemma ReadFromEmpty<V>(key: string, now: int)
    ensures Lookup<V>(map[], key, now) == None
    ensures AfterLookup<V>(map[], key, now) == map[]
  {
  }

  /** A write under one key does not change what is read under another. */
  lemma WriteIsolated<V>(store: map<string, Entry<V>>, key: string, other: string, value: V, t: int, now: int)
    requires other != key
    ensures Lookup(Store(store, key, value, t), other, now) == Lookup(store, other, now)
  {
  }
}
