/**
 * The payments API client of `src/api/payments.ts`: the 90-day window cache,
 * the local filter that reproduces the server's search filter, the coverage
 * estimate, and the cached fetchers.
 *
 * Dates the source keeps as `YYYY-MM-DD` strings are day ordinals here;
 * comparing two such strings with `<` is comparing the ordinals (see
 * `Calendar.IsoDateString`). `created_at` is the instant it denotes.
 */
module Payments {
  import opened Basics
  import opened Calendar
  import opened Cache
  import opened Fallback

  datatype PaymentStatus = Paid | Credit | Installments

  datatype Payment = Payment(
    id: int,
    supplier: string,
    supplierId: int,
    date: Day,
    amount: real,
    status: PaymentStatus,
    note: Option<string>,
    expectedPaymentDate: Option<Day>,
    createdAt: Option<Instant>)

  /** `PaymentsSearchFilters`; `None` is an unset (or empty) field. */
  datatype SearchFilters = SearchFilters(
    supplierId: Option<int>,
    status: Option<PaymentStatus>,
    startExpectedDate: Option<Day>,
    endExpectedDate: Option<Day>,
    overdueOnly: bool)

  datatype PaymentListResponse = PaymentListResponse(payments: seq<Payment>, totalPaid: real, totalCredit: real)

  /** What the payments client keeps in the cache: the window list, or one day's response. */
  datatype Cached = Window(rows: seq<Payment>) | DayList(response: PaymentListResponse)

  const Last90DaysKey: string := "payments:last90days"
  const NinetyDaysMs: int := 90 * DayMs

  const NoCachedData: string := "Aucune donnée en cache. Connectez-vous pour charger les paiements."
  const OfflineOperation: string := "Opération impossible hors ligne"

  /* ---------------------------------------------------------------------
   * The 90-day window.
   * --------------------------------------------------------------------- */

  /** `new Date(p.created_at || p.date)`: the creation instant, or the start of the business date. */
  function ReferenceInstant(p: Payment): Instant
  {
    match p.createdAt
    case Some(t) => t
    case None => DayStart(p.date)
  }

  /** `filterLast90Days`: the payments whose reference instant is at or after `now - 90 days`, in order. */
  function FilterLast90Days(payments: seq<Payment>, now: Instant): (r: seq<Payment>)
    ensures IsSubsequence(r, payments)
    ensures forall i :: 0 <= i < |r| ==> r[i] in payments && ReferenceInstant(r[i]) >= now - NinetyDaysMs
    ensures forall i :: 0 <= i < |payments| && ReferenceInstant(payments[i]) >= now - NinetyDaysMs
                        ==> payments[i] in r
  {
    Filter(payments, p => ReferenceInstant(p) >= now - NinetyDaysMs)
  }

  /** `get90DaysAgoDate`: the calendar day holding the instant exactly 90 days before `now`. */
  function Get90DaysAgoDate(now: Instant): (d: Day)
    ensures DayStart(d) <= now - NinetyDaysMs < DayStart(d) + DayMs
  {
    Today(now) - 90
  }

  /**
   * `isDateRangeWithinCache`: with no bound set the range is answerable; otherwise
   * it is not when it starts before the 90-days-ago date or ends after today.
   */
  function IsDateRangeWithinCache(startDate: Option<Day>, endDate: Option<Day>, now: Instant): (r: bool)
    ensures startDate.None? && endDate.None? ==> r
    ensures !r <==>
      (startDate.Some? && startDate.value < Get90DaysAgoDate(now))
      || (endDate.Some? && endDate.value > Today(now))
  {
    if startDate.None? && endDate.None? then true
    else if startDate.Some? && startDate.value < Get90DaysAgoDate(now) then false
    else if endDate.Some? && endDate.value > Today(now) then false
    else true
  }

  /**
   * The coverage estimate and the window use different cutoffs: a payment
   * without `created_at`, dated the day after the 90-days-ago date or later,
   * is kept by the window filter at the same instant, but one dated on the
   * 90-days-ago date itself is dropped unless `now` is exactly midnight.
   */
  lemma CoverageCutoffAgainstWindow(p: Payment, now: Instant)
    requires p.createdAt.None?
    ensures p.date > Get90DaysAgoDate(now) ==> FilterLast90Days([p], now) == [p]
    ensures p.date == Get90DaysAgoDate(now) && DayStart(Today(now)) < now ==> FilterLast90Days([p], now) == []
  {
    var d := Get90DaysAgoDate(now);
    if p.date > d {
      assert DayStart(p.date) >= DayStart(d) + DayMs;
    }
  }

  /* ---------------------------------------------------------------------
   * The local filter.
   * --------------------------------------------------------------------- */

  /** `if (filters.supplier_id)`: undefined and 0 are falsy. */
  predicate SupplierFilterActive(f: SearchFilters)
  {
    f.supplierId.Some? && f.supplierId.value != 0
  }

  /* Each stage below holds of every payment when its field is unset. */

  predicate SupplierStage(f: SearchFilters, p: Payment)
  {
    SupplierFilterActive(f) ==> p.supplierId == f.supplierId.value
  }

  predicate StatusStage(f: SearchFilters, p: Payment)
  {
    f.status.Some? ==> p.status == f.status.value
  }

  /** The expected-date bounds only ever exclude a CREDIT payment that has an expected date. */
  predicate StartStage(f: SearchFilters, p: Payment)
  {
    f.startExpectedDate.Some? ==>
      p.status != Credit || p.expectedPaymentDate.None? || p.expectedPaymentDate.value >= f.startExpectedDate.value
  }

  predicate EndStage(f: SearchFilters, p: Payment)
  {
    f.endExpectedDate.Some? ==>
      p.status != Credit || p.expectedPaymentDate.None? || p.expectedPaymentDate.value <= f.endExpectedDate.value
  }

  /** Overdue: a CREDIT payment whose expected date began strictly before `now`. */
  predicate OverdueStage(p: Payment, now: Instant)
  {
    if p.status != Credit || p.expectedPaymentDate.None? then false
    else DayStart(p.expectedPaymentDate.value) < now
  }

  /** One `if (field) result = result.filter(keep)` step. */
  function Stage(xs: seq<Payment>, active: bool, keep: Payment -> bool): (r: seq<Payment>)
    ensures forall p :: p in r ==> p in xs && (active ==> keep(p))
  {
    if active then Filter(xs, keep) else xs
  }

  /* `filterPaymentsLocal`, one step at a time: the list after the supplier, status, start and end stages. */

  function ThroughSupplier(xs: seq<Payment>, f: SearchFilters): seq<Payment>
  {
    Stage(xs, SupplierFilterActive(f), p => SupplierStage(f, p))
  }

  function ThroughStatus(xs: seq<Payment>, f: SearchFilters): seq<Payment>
  {
    Stage(ThroughSupplier(xs, f), f.status.Some?, p => StatusStage(f, p))
  }

  function ThroughStart(xs: seq<Payment>, f: SearchFilters): seq<Payment>
  {
    Stage(ThroughStatus(xs, f), f.startExpectedDate.Some?, p => StartStage(f, p))
  }

  function ThroughEnd(xs: seq<Payment>, f: SearchFilters): seq<Payment>
  {
    Stage(ThroughStart(xs, f), f.endExpectedDate.Some?, p => EndStage(f, p))
  }

  /** `filterPaymentsLocal`: the chain of filter stages, each applied only when its field is set. */
  function FilterPaymentsLocal(payments: seq<Payment>, f: SearchFilters, now: Instant): (r: seq<Payment>)
    ensures forall p :: p in r ==> p in payments && Matches(p, f, now)
  {
    Stage(ThroughEnd(payments, f), f.overdueOnly, p => OverdueStage(p, now))
  }

  /* The conditions the chain has checked after each step. */

  predicate PassesStatus(f: SearchFilters, p: Payment)
  {
    SupplierStage(f, p) && StatusStage(f, p)
  }

  predicate PassesStart(f: SearchFilters, p: Payment)
  {
    PassesStatus(f, p) && StartStage(f, p)
  }

  predicate PassesEnd(f: SearchFilters, p: Payment)
  {
    PassesStart(f, p) && EndStage(f, p)
  }

  /** The server's search semantics, as one conjunction of independent conditions. */
  predicate Matches(p: Payment, f: SearchFilters, now: Instant)
  {
    PassesEnd(f, p) && (f.overdueOnly ==> OverdueStage(p, now))
  }

  /** A stage skipped when its field is unset is the same as filtering by a predicate that then always holds. */
  lemma SkippableStage(xs: seq<Payment>, active: bool, keep: Payment -> bool)
    requires !active ==> forall p :: keep(p)
    ensures Stage(xs, active, keep) == Filter(xs, keep)
  {
    if !active {
      FilterKeepsAll(xs, keep);
    }
  }

  /** A further stage on an already filtered list is one filter by the conjunction. */
  lemma StageFuses(xs: seq<Payment>, h: Payment -> bool, active: bool, g: Payment -> bool, c: Payment -> bool)
    requires !active ==> forall p :: g(p)
    requires forall p :: c(p) == (h(p) && g(p))
    ensures Stage(Filter(xs, h), active, g) == Filter(xs, c)
  {
    SkippableStage(Filter(xs, h), active, g);
    FilterFusion(xs, h, g, c);
  }

  lemma {:induction false} ThroughStatusFilters(xs: seq<Payment>, f: SearchFilters)
    ensures ThroughStatus(xs, f) == Filter(xs, p => PassesStatus(f, p))
  {
    SkippableStage(xs, SupplierFilterActive(f), p => SupplierStage(f, p));
    StageFuses(xs, p => SupplierStage(f, p), f.status.Some?, p => StatusStage(f, p), p => PassesStatus(f, p));
  }

  lemma {:induction false} ThroughStartFilters(xs: seq<Payment>, f: SearchFilters)
    ensures ThroughStart(xs, f) == Filter(xs, p => PassesStart(f, p))
  {
    ThroughStatusFilters(xs, f);
    StageFuses(xs, p => PassesStatus(f, p), f.startExpectedDate.Some?, p => StartStage(f, p), p => PassesStart(f, p));
  }

  lemma {:induction false} ThroughEndFilters(xs: seq<Payment>, f: SearchFilters)
    ensures ThroughEnd(xs, f) == Filter(xs, p => PassesEnd(f, p))
  {
    ThroughStartFilters(xs, f);
    StageFuses(xs, p => PassesStart(f, p), f.endExpectedDate.Some?, p => EndStage(f, p), p => PassesEnd(f, p));
  }

  /** The stage chain equals a single filter by `Matches`. */
  lemma {:induction false} LocalFilterIsConjunction(xs: seq<Payment>, f: SearchFilters, now: Instant)
    ensures FilterPaymentsLocal(xs, f, now) == Filter(xs, p => Matches(p, f, now))
  {
    var byEnd := p => PassesEnd(f, p);
    var overdue := p => OverdueStage(p, now);
    var m := p => Matches(p, f, now);
    ThroughEndFilters(xs, f);
    if f.overdueOnly {
      FilterFusion(xs, byEnd, overdue, m);
    } else {
      FilterExtensional(xs, byEnd, m);
    }
  }

  /** The local filter keeps, in order, exactly the payments that match every set condition. */
  lemma LocalFilterSelects(xs: seq<Payment>, f: SearchFilters, now: Instant)
    ensures IsSubsequence(FilterPaymentsLocal(xs, f, now), xs)
    ensures forall p :: p in FilterPaymentsLocal(xs, f, now) <==> p in xs && Matches(p, f, now)
  {
    LocalFilterIsConjunction(xs, f, now);
    var r := FilterPaymentsLocal(xs, f, now);
    forall p | p in xs && Matches(p, f, now)
      ensures p in r
    {
      var i :| 0 <= i < |xs| && xs[i] == p;
    }
  }

  /** Filtering an already filtered list again changes nothing. */
  lemma LocalFilterIdempotent(xs: seq<Payment>, f: SearchFilters, now: Instant)
    ensures FilterPaymentsLocal(FilterPaymentsLocal(xs, f, now), f, now) == FilterPaymentsLocal(xs, f, now)
  {
    LocalFilterIsConjunction(xs, f, now);
    LocalFilterIsConjunction(FilterPaymentsLocal(xs, f, now), f, now);
    FilterIdempotent(xs, p => Matches(p, f, now));
  }

  /**
   * The conditions are independent: applying the filters `f` and `g` one after
   * the other, in either order, gives the same list.
   */
  lemma LocalFiltersCommute(xs: seq<Payment>, f: SearchFilters, g: SearchFilters, now: Instant)
    ensures FilterPaymentsLocal(FilterPaymentsLocal(xs, f, now), g, now)
            == FilterPaymentsLocal(FilterPaymentsLocal(xs, g, now), f, now)
  {
    var mf := p => Matches(p, f, now);
    var mg := p => Matches(p, g, now);
    LocalFilterIsConjunction(xs, f, now);
    LocalFilterIsConjunction(xs, g, now);
    LocalFilterIsConjunction(Filter(xs, mf), g, now);
    LocalFilterIsConjunction(Filter(xs, mg), f, now);
    FilterStagesCommute(xs, mf, mg);
  }

  /** An empty filter keeps every payment. */
  lemma UnsetFiltersKeepAll(xs: seq<Payment>, now: Instant)
    ensures FilterPaymentsLocal(xs, SearchFilters(None, None, None, None, false), now) == xs
  {
  }

  /** A supplier id of 0 is falsy and filters nothing, just like no supplier id. */
  lemma ZeroSupplierIgnored(p: Payment, f: SearchFilters, now: Instant)
    ensures Matches(p, f.(supplierId := Some(0)), now) == Matches(p, f.(supplierId := None), now)
  {
  }

  /**
   * The expected-date bounds exempt every payment that is not CREDIT or has
   * no expected date: for those, the bounds might as well be unset.
   */
  lemma DateBoundsExemptNonCredit(p: Payment, f: SearchFilters, now: Instant)
    requires p.status != Credit || p.expectedPaymentDate.None?
    ensures Matches(p, f, now) == Matches(p, f.(startExpectedDate := None, endExpectedDate := None), now)
  {
  }

  /**
   * For a CREDIT payment with an expected date, each bound that is set is an
   * inclusive comparison on that date, and a date inside the bounds is never
   * excluded by them.
   */
  lemma DateBoundsOnCredit(p: Payment, f: SearchFilters, now: Instant)
    requires p.status == Credit && p.expectedPaymentDate.Some?
    ensures var d := p.expectedPaymentDate.value;
            Matches(p, f, now) ==
              ((f.startExpectedDate.Some? ==> f.startExpectedDate.value <= d)
               && (f.endExpectedDate.Some? ==> d <= f.endExpectedDate.value)
               && Matches(p, f.(startExpectedDate := None, endExpectedDate := None), now))
  {
  }

  /** `overdue_only` keeps exactly the CREDIT payments whose expected date began before `now`. */
  lemma OverdueOnlyKeeps(p: Payment, f: SearchFilters, now: Instant)
    requires f.overdueOnly
    ensures Matches(p, f, now) ==>
      p.status == Credit && p.expectedPaymentDate.Some? && DayStart(p.expectedPaymentDate.value) < now
    ensures Matches(p, f, now) <==> Matches(p, f.(overdueOnly := false), now) && OverdueStage(p, now)
  {
  }

  /* ---------------------------------------------------------------------
   * The window cache and the fetchers.
   * --------------------------------------------------------------------- */

  /** `getCachedPayments90Days`: the stored window list, or `[]` when there is no live one. */
  function CachedWindow(items: Storage<Cached>, now: Instant): (rows: seq<Payment>)
    ensures rows != [] ==> Read(items, Last90DaysKey, now) == Some(Window(rows))
  {
    var cached: Option<Cached> := Read(items, Last90DaysKey, now);
    match cached
    case Some(Window(rows)) => rows
    case _ => []
  }

  /** Store the windowed list under the fixed key, replacing what was there. */
  method CachePayments90Days(store: Store<Cached>, payments: seq<Payment>, now: Instant, writeOk: bool)
    modifies store
    ensures store.items == AfterWrite(old(store.items), Last90DaysKey, Window(FilterLast90Days(payments, now)),
                                      now, writeOk)
  {
    var filtered := FilterLast90Days(payments, now);
    store.Set(Last90DaysKey, Window(filtered), now, writeOk);
  }

  method GetCachedPayments90Days(store: Store<Cached>, now: Instant) returns (rows: seq<Payment>)
    modifies store
    ensures rows == CachedWindow(old(store.items), now)
    ensures store.items == AfterRead(old(store.items), Last90DaysKey, now)
  {
    var cached := store.Get(Last90DaysKey, now);
    match cached
    case Some(Window(list)) => rows := list;
    case _ => rows := [];
  }

  /**
   * The window round trip: storing `payments` at `written` and reading within
   * the TTL gives exactly the windowed list, whatever was stored before (the
   * write replaces, it does not merge).
   */
  lemma WindowRoundTrip(items: Storage<Cached>, payments: seq<Payment>, written: Instant, now: Instant)
    requires now - written <= CacheTtl
    ensures CachedWindow(AfterWrite(items, Last90DaysKey, Window(FilterLast90Days(payments, written)), written,
                                    true), now)
            == FilterLast90Days(payments, written)
  {
  }

  /** A window read after the TTL, or with no window stored, is empty. */
  lemma ExpiredWindowIsEmpty(items: Storage<Cached>, now: Instant)
    requires StorageKey(Last90DaysKey) !in items
             || (items[StorageKey(Last90DaysKey)].Entry? && Expired(items[StorageKey(Last90DaysKey)].timestamp, now))
    ensures CachedWindow(items, now) == []
  {
  }

  /**
   * The window invariant: the stored list only holds payments whose reference
   * instant was within 90 days of the moment it was written.
   */
  ghost predicate WindowHonoursCutoff(items: Storage<Cached>)
  {
    StorageKey(Last90DaysKey) in items && items[StorageKey(Last90DaysKey)].Entry?
    && items[StorageKey(Last90DaysKey)].data.Window?
    ==> forall p :: p in items[StorageKey(Last90DaysKey)].data.rows ==>
          ReferenceInstant(p) >= items[StorageKey(Last90DaysKey)].timestamp - NinetyDaysMs
  }

  /** Storing a window keeps the invariant, whatever was stored before. */
  lemma CachingKeepsWindowInvariant(items: Storage<Cached>, payments: seq<Payment>, now: Instant, writeOk: bool)
    requires WindowHonoursCutoff(items)
    ensures WindowHonoursCutoff(AfterWrite(items, Last90DaysKey, Window(FilterLast90Days(payments, now)), now,
                                           writeOk))
  {
    var rows := FilterLast90Days(payments, now);
    forall p | p in rows
      ensures ReferenceInstant(p) >= now - NinetyDaysMs
    {
      var i :| 0 <= i < |rows| && rows[i] == p;
    }
  }

  /** Reads and writes of any other key, and clearing, keep the invariant. */
  lemma OtherOperationsKeepWindowInvariant(items: Storage<Cached>, key: string, v: Cached, now: Instant,
                                           writeOk: bool)
    requires WindowHonoursCutoff(items)
    requires key != Last90DaysKey
    ensures WindowHonoursCutoff(AfterWrite(items, key, v, now, writeOk))
    ensures WindowHonoursCutoff(AfterRead(items, key, now))
    ensures WindowHonoursCutoff(AfterRead(items, Last90DaysKey, now))
    ensures WindowHonoursCutoff(AfterClear(items))
  {
    StorageKeyInjective(key, Last90DaysKey);
  }

  function DateKey(date: string): string
  {
    "payments_date_" + date
  }

  /** `getPaymentsByDate`: read-through under `payments_date_<date>`. */
  method GetPaymentsByDate(store: Store<Cached>, date: string, outcome: Fetch<PaymentListResponse>,
                           now: Instant, writeOk: bool)
    returns (r: Result<Cached>)
    modifies store
    ensures outcome.Fetched? ==> r == Ok(DayList(outcome.data))
    ensures r == ReadThroughResult(old(store.items), DateKey(date), ResponseFetch(outcome), now)
    ensures store.items == ReadThroughStorage(old(store.items), DateKey(date), ResponseFetch(outcome), now, writeOk)
  {
    r := ReadThrough(store, DateKey(date), ResponseFetch(outcome), now, writeOk);
  }

  function ResponseFetch(outcome: Fetch<PaymentListResponse>): Fetch<Cached>
  {
    match outcome
    case Fetched(data) => Fetched(DayList(data))
    case Unreachable => Unreachable
  }

  /** What `searchPayments` settles with. */
  function SearchResult(items: Storage<Cached>, params: SearchFilters, isOnline: bool,
                        outcome: Fetch<seq<Payment>>, now: Instant): (r: Result<seq<Payment>>)
    ensures isOnline && outcome.Fetched? ==> r == Ok(outcome.data)
    ensures !(isOnline && outcome.Fetched?) ==>
      && (r.Err? <==> CachedWindow(items, now) == [])
      && (r.Ok? ==> forall p :: p in r.value ==> p in CachedWindow(items, now) && Matches(p, params, now))
      && (r.Err? ==> r.message == if isOnline then NotAvailableOffline else NoCachedData)
  {
    if !isOnline then
      var cached := CachedWindow(items, now);
      if |cached| > 0 then Ok(FilterPaymentsLocal(cached, params, now)) else Err(NoCachedData)
    else match outcome
      case Fetched(data) => Ok(data)
      case Unreachable =>
        var cached := CachedWindow(items, now);
        if |cached| > 0 then Ok(FilterPaymentsLocal(cached, params, now)) else Err(NotAvailableOffline)
  }

  /** The storage after `searchPayments`: the window is rewritten only by an online success. */
  function SearchStorage(items: Storage<Cached>, isOnline: bool, outcome: Fetch<seq<Payment>>,
                         now: Instant, writeOk: bool): (after: Storage<Cached>)
    ensures forall key :: key != Last90DaysKey ==> Read(after, key, now) == Read(items, key, now)
    ensures isOnline && outcome.Fetched? && writeOk ==>
      Read(after, Last90DaysKey, now) == Some(Window(FilterLast90Days(outcome.data, now)))
  {
    if isOnline && outcome.Fetched? then
      AfterWrite(items, Last90DaysKey, Window(FilterLast90Days(outcome.data, now)), now, writeOk)
    else AfterRead(items, Last90DaysKey, now)
  }

  /** `searchPayments`: online, ask the server and cache the window; otherwise filter the window locally. */
  method SearchPayments(store: Store<Cached>, params: SearchFilters, isOnline: bool,
                        outcome: Fetch<seq<Payment>>, now: Instant, writeOk: bool)
    returns (r: Result<seq<Payment>>)
    modifies store
    ensures r == SearchResult(old(store.items), params, isOnline, outcome, now)
    ensures store.items == SearchStorage(old(store.items), isOnline, outcome, now, writeOk)
  {
    if !isOnline {
      var cached := GetCachedPayments90Days(store, now);
      if |cached| > 0 {
        return Ok(FilterPaymentsLocal(cached, params, now));
      }
      return Err(NoCachedData);
    }
    match outcome
    case Fetched(data) =>
      CachePayments90Days(store, data, now, writeOk);
      r := Ok(data);
    case Unreachable =>
      var cached := GetCachedPayments90Days(store, now);
      if |cached| > 0 {
        r := Ok(FilterPaymentsLocal(cached, params, now));
      } else {
        r := Err(NotAvailableOffline);
      }
  }

  /** Online success hands back the server's list unchanged. */
  lemma OnlineSearchReturnsServerData(items: Storage<Cached>, params: SearchFilters, data: seq<Payment>,
                                      now: Instant)
    ensures SearchResult(items, params, true, Fetched(data), now) == Ok(data)
  {
  }

  /**
   * Offline after an online search: within the TTL, and when the window is not
   * empty, the answer is the local filter over the windowed server list.
   */
  lemma OfflineSearchAfterOnline(items: Storage<Cached>, first: SearchFilters, data: seq<Payment>,
                                 written: Instant, writeOk: bool, params: SearchFilters, now: Instant)
    requires writeOk && now - written <= CacheTtl
    requires |FilterLast90Days(data, written)| > 0
    ensures var after := SearchStorage(items, true, Fetched(data), written, writeOk);
            SearchResult(after, params, false, Unreachable, now)
            == Ok(FilterPaymentsLocal(FilterLast90Days(data, written), params, now))
  {
    WindowRoundTrip(items, data, written, now);
  }

  /**
   * A search that was not answered by the server is answered from the cached
   * window, and only with payments of that window matching every condition; an
   * empty window counts as a miss.
   */
  lemma FallbackSearchServesMatches(items: Storage<Cached>, params: SearchFilters, isOnline: bool,
                                    outcome: Fetch<seq<Payment>>, now: Instant)
    requires !isOnline || outcome.Unreachable?
    ensures var r := SearchResult(items, params, isOnline, outcome, now);
            && (r.Err? <==> CachedWindow(items, now) == [])
            && (r.Ok? ==> forall p :: p in r.value <==> p in CachedWindow(items, now) && Matches(p, params, now))
  {
    LocalFilterSelects(CachedWindow(items, now), params, now);
  }

  /** A write request: whether it reached the server, and how its promise settled. */
  datatype WriteCall<+T> = WriteCall(sent: bool, result: Result<T>)

  /**
   * The offline guard of `createPayment`, `updatePayment`, `deletePayment` and
   * `settleCredit`: offline, the request is not sent and the promise rejects;
   * online, it is sent and settles as the server's `response` does.
   */
  function OnlineOnly<T>(isOnline: bool, response: Result<T>): (c: WriteCall<T>)
    ensures c.sent <==> isOnline
    ensures !c.sent ==> c.result == Err(OfflineOperation)
    ensures c.sent ==> c.result == response
  {
    if !isOnline then WriteCall(false, Err(OfflineOperation)) else WriteCall(true, response)
  }
}
