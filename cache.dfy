/**
 * The localStorage response cache of `src/services/cache.ts`.
 *
 * The storage primitive is the whole key/value store (every namespace, not
 * only this cache's); its values are modelled after JSON parsing: either a
 * well-formed `{data, timestamp}` entry or something that is not one (an
 * empty string, text that does not parse, a value of another shape). The
 * clock is the `now` parameter, in milliseconds; the outcome of
 * `localStorage.setItem`, which throws when the quota is exceeded, is the
 * `writeOk` parameter.
 */
module Cache {
  import opened Basics

  const CachePrefix: string := "shop_pwa_cache_"
  const CacheTtl: int := 24 * 60 * 60 * 1000

  /** A stored item: a `CacheEntry<V>`, or a value that does not read back as one. */
  datatype Item<V> = Entry(data: V, timestamp: int) | Malformed

  type Storage<V> = map<string, Item<V>>

  /** The storage key of cache key `key`. */
  function StorageKey(key: string): (k: string)
    ensures CachePrefix <= k && k[|CachePrefix|..] == key
  {
    CachePrefix + key
  }

  /** An entry written at `timestamp` is stale at `now` once strictly more than the TTL has passed. */
  predicate Expired(timestamp: int, now: int)
  {
    now - timestamp > CacheTtl
  }

  /** What `cacheGet(key)` returns at `now`. */
  function Read<V>(items: Storage<V>, key: string, now: int): (r: Option<V>)
    ensures r.Some? <==>
      StorageKey(key) in items && items[StorageKey(key)].Entry?
      && !Expired(items[StorageKey(key)].timestamp, now)
    ensures r.Some? ==> r.value == items[StorageKey(key)].data
  {
    var k := StorageKey(key);
    if k !in items then None
    else match items[k]
      case Malformed => None
      case Entry(data, timestamp) => if Expired(timestamp, now) then None else Some(data)
  }

  /** The storage after `cacheGet(key)` at `now`: an expired entry has been removed, nothing else changed. */
  function AfterRead<V>(items: Storage<V>, key: string, now: int): (m: Storage<V>)
    ensures m.Keys <= items.Keys
    ensures forall k :: k in m ==> m[k] == items[k]
    ensures StorageKey(key) !in m <==>
      StorageKey(key) !in items
      || (items[StorageKey(key)].Entry? && Expired(items[StorageKey(key)].timestamp, now))
  {
    var k := StorageKey(key);
    if k in items && items[k].Entry? && Expired(items[k].timestamp, now) then items - {k} else items
  }

  /** The storage after `cacheSet(key, data)` at `now`; a failed `setItem` changes nothing. */
  function AfterWrite<V>(items: Storage<V>, key: string, data: V, now: int, writeOk: bool): (m: Storage<V>)
    ensures writeOk ==> m.Keys == items.Keys + {StorageKey(key)} && m[StorageKey(key)] == Entry(data, now)
    ensures !writeOk ==> m == items
    ensures forall k :: k != StorageKey(key) ==> (k in m <==> k in items)
    ensures forall k :: k != StorageKey(key) && k in m ==> m[k] == items[k]
  {
    if writeOk then items[StorageKey(key) := Entry(data, now)] else items
  }

  /** The storage after `cacheClear()`: every key of this cache's namespace is gone, every other key stays. */
  function AfterClear<V>(items: Storage<V>): (m: Storage<V>)
    ensures forall k :: k in m <==> k in items && !(CachePrefix <= k)
    ensures forall k :: k in m ==> m[k] == items[k]
  {
    map k | k in items && !(CachePrefix <= k) :: items[k]
  }

  /** The storage primitive together with the three cache operations. */
  class Store<V> {
    var items: Storage<V>

    constructor (initial: Storage<V>)
      ensures items == initial
    {
      items := initial;
    }

    /** `cacheSet`: overwrite `key` with `{data, timestamp: now}`; a storage failure is swallowed. */
    method Set(key: string, data: V, now: int, writeOk: bool)
      modifies this
      ensures items == AfterWrite(old(items), key, data, now, writeOk)
    {
      if writeOk {
        items := items[StorageKey(key) := Entry(data, now)];
      }
    }

    /** `cacheGet`: the live entry's data, or nothing; an expired entry is evicted on the way. */
    method Get(key: string, now: int) returns (r: Option<V>)
      modifies this
      ensures r == Read(old(items), key, now)
      ensures items == AfterRead(old(items), key, now)
    {
      var k := StorageKey(key);
      if k !in items {
        return None;
      }
      match items[k]
      case Malformed =>
        r := None;
      case Entry(data, timestamp) =>
        if now - timestamp > CacheTtl {
          items := items - {k};
          r := None;
        } else {
          r := Some(data);
        }
    }

    /** `cacheClear`: walk over the keys present when it starts and remove those with the prefix. */
    method Clear()
      modifies this
      ensures items == AfterClear(old(items))
    {
      var keys := items.Keys;
      while keys != {}
        invariant keys <= old(items).Keys
        invariant items.Keys == keys + (set k | k in old(items).Keys - keys && !(CachePrefix <= k))
        invariant forall k :: k in items ==> items[k] == old(items)[k]
        decreases keys
      {
        var k :| k in keys;
        if CachePrefix <= k {
          items := items - {k};
        }
        keys := keys - {k};
      }
      assert items.Keys == AfterClear(old(items)).Keys;
    }
  }

  /* ---------------------------------------------------------------------
   * Properties of the cache.
   * --------------------------------------------------------------------- */

  /** A value written at `written` reads back unchanged up to and including the TTL. */
  lemma ReadAfterWrite<V>(items: Storage<V>, key: string, data: V, written: int, now: int)
    requires now - written <= CacheTtl
    ensures Read(AfterWrite(items, key, data, written, true), key, now) == Some(data)
  {
  }

  /** Exactly at the TTL the entry is still served: expiry needs strictly more time. */
  lemma ServedAtExactTtl<V>(items: Storage<V>, key: string, data: V, written: int)
    ensures Read(AfterWrite(items, key, data, written, true), key, written + CacheTtl) == Some(data)
    ensures Read(AfterWrite(items, key, data, written, true), key, written + CacheTtl + 1) == None
  {
  }

  /** A write overwrites whatever was stored under the key before, whatever it was. */
  lemma WriteOverwrites<V>(items: Storage<V>, key: string, old1: V, data: V, t0: int, t1: int, now: int)
    requires now - t1 <= CacheTtl
    ensures Read(AfterWrite(AfterWrite(items, key, old1, t0, true), key, data, t1, true), key, now)
            == Some(data)
  {
  }

  /** A swallowed storage failure leaves the cache exactly as it was. */
  lemma FailedWriteIsNoop<V>(items: Storage<V>, key: string, data: V, now: int)
    ensures AfterWrite(items, key, data, now, false) == items
  {
  }

  /** A stale entry is reported absent and removed from storage by the read. */
  lemma StaleReadEvicts<V>(items: Storage<V>, key: string, now: int)
    requires StorageKey(key) in items && items[StorageKey(key)].Entry?
    requires Expired(items[StorageKey(key)].timestamp, now)
    ensures Read(items, key, now) == None
    ensures StorageKey(key) !in AfterRead(items, key, now)
  {
  }

  /** Absent and malformed items read as nothing and stay where they are. */
  lemma UnusableReadsNothing<V>(items: Storage<V>, key: string, now: int)
    requires StorageKey(key) !in items || items[StorageKey(key)] == Malformed
    ensures Read(items, key, now) == None
    ensures AfterRead(items, key, now) == items
  {
  }

  /** Different cache keys live under different storage keys. */
  lemma StorageKeyInjective(k1: string, k2: string)
    requires k1 != k2
    ensures StorageKey(k1) != StorageKey(k2)
  {
    assert StorageKey(k1)[|CachePrefix|..] == k1;
    assert StorageKey(k2)[|CachePrefix|..] == k2;
  }

  /** Writing one key does not change what any other key reads. */
  lemma WriteKeepsOtherKeys<V>(items: Storage<V>, key: string, data: V, written: int,
                               writeOk: bool, other: string, now: int)
    requires other != key
    ensures Read(AfterWrite(items, key, data, written, writeOk), other, now) == Read(items, other, now)
  {
    StorageKeyInjective(key, other);
  }

  /** Reading one key does not change what any other key reads. */
  lemma ReadKeepsOtherKeys<V>(items: Storage<V>, key: string, t: int, other: string, now: int)
    requires other != key
    ensures Read(AfterRead(items, key, t), other, now) == Read(items, other, now)
  {
    StorageKeyInjective(key, other);
  }

  /** Reading a key does not change what that same key reads afterwards at the same instant. */
  lemma ReadIsStable<V>(items: Storage<V>, key: string, now: int)
    ensures Read(AfterRead(items, key, now), key, now) == Read(items, key, now)
  {
  }

  /** After a clear no cache key reads anything, and storage outside the namespace is untouched. */
  lemma ClearForgetsEverything<V>(items: Storage<V>, key: string, now: int)
    ensures Read(AfterClear(items), key, now) == None
  {
  }
}
