/**
 * The read-through pattern every cached fetcher of `src/api/payments.ts` and
 * `src/api/summary.ts` repeats:
 *
 *   apiFetch(url).then(data => { cacheSet(key, data); return data; })
 *                .catch(() => cacheGet(key) || throw new Error(NotAvailableOffline))
 *
 * The transport (`apiFetch`, not part of this model) is the `outcome`
 * parameter: the response it resolved with, or a rejection of any kind.
 */
module Fallback {
  import opened Basics
  import opened Cache

  /** How the transport call settled. */
  datatype Fetch<V> = Fetched(data: V) | Unreachable

  const NotAvailableOffline: string := "Données non disponibles hors ligne"

  /** What a read-through fetch of `key` settles with. */
  function ReadThroughResult<V>(items: Storage<V>, key: string, outcome: Fetch<V>, now: int): (r: Result<V>)
    ensures outcome.Fetched? ==> r == Ok(outcome.data)
    ensures outcome.Unreachable? && Read(items, key, now).Some? ==> r == Ok(Read(items, key, now).value)
    ensures outcome.Unreachable? && Read(items, key, now).None? ==> r == Err(NotAvailableOffline)
  {
    match outcome
    case Fetched(data) => Ok(data)
    case Unreachable =>
      match Read(items, key, now)
      case Some(cached) => Ok(cached)
      case None => Err(NotAvailableOffline)
  }

  /** The storage after a read-through fetch of `key`: written through on success, read on failure. */
  function ReadThroughStorage<V>(items: Storage<V>, key: string, outcome: Fetch<V>, now: int,
                                 writeOk: bool): (after: Storage<V>)
    ensures forall other :: other != key ==> Read(after, other, now) == Read(items, other, now)
    ensures outcome.Fetched? && writeOk ==> Read(after, key, now) == Some(outcome.data)
    ensures outcome.Unreachable? ==> Read(after, key, now) == Read(items, key, now)
  {
    match outcome
    case Fetched(data) => AfterWrite(items, key, data, now, writeOk)
    case Unreachable => AfterRead(items, key, now)
  }

  /** Fetch, write the response through to `key` on success, fall back to `key` on failure. */
  method ReadThrough<V>(store: Store<V>, key: string, outcome: Fetch<V>, now: int, writeOk: bool)
    returns (r: Result<V>)
    modifies store
    ensures r == ReadThroughResult(old(store.items), key, outcome, now)
    ensures store.items == ReadThroughStorage(old(store.items), key, outcome, now, writeOk)
  {
    match outcome
    case Fetched(data) =>
      store.Set(key, data, now, writeOk);
      r := Ok(data);
    case Unreachable =>
      var cached := store.Get(key, now);
      match cached
      case Some(v) => r := Ok(v);
      case None => r := Err(NotAvailableOffline);
  }

  /**
   * A response fetched at `fetchedAt` is what a later failed fetch of the same
   * key falls back to, as long as the TTL has not run out.
   */
  lemma FallbackServesLastResponse<V>(items: Storage<V>, key: string, data: V, fetchedAt: int, now: int)
    requires now - fetchedAt <= CacheTtl
    ensures var afterOnline := ReadThroughStorage(items, key, Fetched(data), fetchedAt, true);
            ReadThroughResult(afterOnline, key, Unreachable, now) == Ok(data)
  {
    ReadAfterWrite(items, key, data, fetchedAt, now);
  }

  /** A failed fetch is rejected only when the cache has nothing live for the key. */
  lemma RejectedOnlyWithoutCache<V>(items: Storage<V>, key: string, outcome: Fetch<V>, now: int)
    ensures ReadThroughResult(items, key, outcome, now).Err? <==>
            outcome.Unreachable? && Read(items, key, now).None?
  {
  }
}
