# Offline cache and consistency layer of the shop PWA, in Dafny

This project models the part of the shop's progressive web app that keeps it
usable without a network, and proves properties of that model:

- `src/services/cache.ts` is the localStorage response cache. Entries are
  namespaced by a prefix and expire 24 hours after they were written. An
  expired entry is evicted when it is read, and a failed write is swallowed.
  Model: `cache.dfy`, module `Cache`. `Cache.Store` is a class whose `items`
  field is the whole key/value store.
- The read-through pattern shared by the cached fetchers: on success, write
  the response to the cache and return it; on failure, fall back to the
  cache or reject with "Données non disponibles hors ligne". Model:
  `fallback.dfy`, module `Fallback`.
- `src/api/payments.ts` is the payments client. Model: `payments.dfy`,
  module `Payments`. It covers:
  - the 90-day window that is cached;
  - the coverage estimate `isDateRangeWithinCache`;
  - `filterPaymentsLocal`, the local filter that stands in for the server's
    search when offline;
  - `searchPayments` and `getPaymentsByDate`;
  - the offline guard of the write operations.
- `src/hooks/useDateAwareCachedData.ts` is the hook that ties data to a date
  key and drops answers to superseded requests. Model: `fetcher.dfy`, module
  `Fetcher`.
  - A pure transition system (`Start`, `Succeed`, `Fail`) describes it.
  - The class `SequencedFetcher` implements it, and each of its methods is
    proved to follow that system.
- `src/api/summary.ts` holds the ISO week and month identifiers, the
  cache-key choice of the summary fetchers, and the fetchers themselves.
  Model: `summary.dfy`, module `Summary`.
- `src/screens/PaymentsSearch.tsx` is the search screen. Model: `search.dfy`,
  module `Search`. It covers:
  - the status labels, date reformatting and the overdue badge;
  - the selection toggle and the settle pre-check;
  - `handleSearch`, and the effect that drops stale results when the filters
    change while offline;
  - the class `SearchScreen`, which holds the component state.

Two shared modules support the rest:

- `calendar.dfy`, module `Calendar`:
  - day ordinals counted from 1970-01-01 (UTC), and civil dates;
  - the ISO 8601 week date, used as the reference definition;
  - decimal text, zero padding, and the `YYYY-MM-DD` text of a date.
- `basics.dfy`, module `Basics`:
  - `Option` and `Result`;
  - `Array.prototype.filter` on sequences, with its laws.

Conventions:

- Instants are integers in milliseconds.
- A `YYYY-MM-DD` date string is its day ordinal wherever the source only
  compares such strings (string order and day order agree on that form).
- `now`, `isOnline`, the outcome of each transport call and the success of
  each `setItem` are parameters.

Where the written code and the documented design differ, the model follows
the code:

- The hook clears `data` on a failure without checking the request's key.
- The week identifier pairs the ISO week number with the calendar year, not
  the ISO week-year.

The lemmas record several consequences of the code as written:

- A week-mode key can be shared by two dates a year apart
  (`Summary.WeekIdentifierCollision`).
- Every date text that does not parse shares one week or month key
  (`Summary.InvalidStartsShareKey`).
- An empty date key lets old data survive a key change
  (`Fetcher.EmptyKeyDataSurvivesKeyChange`).
- A leftover selection settles nothing but still reports success
  (`Search.StaleClearKeepsSelection`, `Search.OfflineSettlesNothing`).

## Model

| member | source | states |
|---|---|---|
| Cache.StorageKey | src/services/cache.ts:2 | the storage key is the prefix followed by the cache key, which can be read back from it |
| Cache.Read | src/services/cache.ts:22-41 | `cacheGet` yields data exactly when a well-formed entry exists under the prefixed key and at most the TTL has elapsed since it was written; the data is the stored data |
| Cache.AfterRead | src/services/cache.ts:31-34 | a read removes the key exactly when it holds an expired entry, and changes nothing else |
| Cache.AfterWrite | src/services/cache.ts:10-20 | a successful write puts `{data, now}` under the prefixed key and keeps every other key; a failed write changes nothing |
| Cache.AfterClear | src/services/cache.ts:43-54 | a clear keeps exactly the keys outside the prefix, with their values |
| Cache.Store.Set | src/services/cache.ts:10-20 | the store becomes `AfterWrite` of the old store |
| Cache.Store.Get | src/services/cache.ts:22-41 | returns `Read` of the old store and leaves `AfterRead` of it |
| Cache.Store.Clear | src/services/cache.ts:43-54 | the loop over the keys leaves exactly `AfterClear` of the old store |
| Cache.ReadAfterWrite | src/services/cache.ts:10-36 | a value written reads back unchanged as long as at most the TTL has elapsed |
| Cache.ServedAtExactTtl | src/services/cache.ts:3 | at exactly the TTL the entry is still served, one millisecond later it is not |
| Cache.WriteOverwrites | src/services/cache.ts:16 | a second write to a key replaces the first, whatever it was |
| Cache.FailedWriteIsNoop | src/services/cache.ts:17-19 | a write whose `setItem` throws leaves the storage unchanged |
| Cache.StaleReadEvicts | src/services/cache.ts:31-34 | an expired entry reads as null and is gone from storage after the read |
| Cache.UnusableReadsNothing | src/services/cache.ts:24-27 | an absent or malformed item reads as null and stays where it is |
| Cache.StorageKeyInjective | src/services/cache.ts:16 | different cache keys use different storage keys |
| Cache.WriteKeepsOtherKeys | src/services/cache.ts:16 | writing one key never changes what another key reads |
| Cache.ReadKeepsOtherKeys | src/services/cache.ts:24-32 | reading one key never changes what another key reads |
| Cache.ReadIsStable | src/services/cache.ts:22-41 | reading a key twice at the same instant gives the same answer |
| Cache.ClearForgetsEverything | src/services/cache.ts:43-50 | after a clear no cache key reads anything |
| Fallback.ReadThroughResult | src/api/summary.ts:94-105 | success returns the response; failure returns the live cached value, or rejects with the offline message when there is none |
| Fallback.ReadThroughStorage | src/api/summary.ts:94-105 | no other key changes; a successful fetch whose write succeeded is read back under the key; a failed fetch leaves what the key reads unchanged |
| Fallback.ReadThrough | src/api/summary.ts:94-105 | result and storage are `ReadThroughResult` and `ReadThroughStorage` of the old store |
| Fallback.FallbackServesLastResponse | src/api/summary.ts:97-103 | after a successful fetch, a failed one within the TTL serves the same response |
| Fallback.RejectedOnlyWithoutCache | src/api/summary.ts:101-104 | a read-through rejects exactly when the transport failed and the cache holds nothing live |
| Payments.FilterLast90Days | src/api/payments.ts:44-50 | keeps, in order, exactly the payments whose `created_at` (or date) is at or after `now` minus 90 days |
| Payments.Get90DaysAgoDate | src/api/payments.ts:35-39 | the date (UTC) of the instant 90 days before `now` |
| Payments.IsDateRangeWithinCache | src/api/payments.ts:117-130 | with no bound the range counts as covered; otherwise it does not exactly when it starts before the 90-days-ago date or ends after today |
| Payments.CoverageCutoffAgainstWindow | src/api/payments.ts:35-50 | a payment dated after the 90-days-ago date is in the window; one dated on that date is not, unless `now` is midnight |
| Payments.SkippableStage | src/api/payments.ts:62-85 | a stage skipped because its field is unset equals filtering by a predicate that always holds |
| Payments.StageFuses | src/api/payments.ts:59-85 | one more stage after a filter is one filter by the conjunction |
| Payments.ThroughStatusFilters | src/api/payments.ts:59-69 | the supplier and status stages together filter by both conditions |
| Payments.ThroughStartFilters | src/api/payments.ts:59-78 | the stages up to the start bound filter by their conjunction |
| Payments.ThroughEndFilters | src/api/payments.ts:59-85 | the stages up to the end bound filter by their conjunction |
| Payments.FilterPaymentsLocal | src/api/payments.ts:55-97 | every payment the stage chain keeps comes from the list and matches every set condition |
| Payments.LocalFilterIsConjunction | src/api/payments.ts:55-97 | `filterPaymentsLocal` is one filter by the conjunction of every active condition |
| Payments.LocalFilterSelects | src/api/payments.ts:55-97 | the local filter keeps, in order, exactly the payments matching every active condition |
| Payments.LocalFilterIdempotent | src/api/payments.ts:55-97 | filtering twice with the same filters is filtering once |
| Payments.LocalFiltersCommute | src/api/payments.ts:55-97 | the order in which two filter sets are applied does not matter |
| Payments.UnsetFiltersKeepAll | src/api/payments.ts:59-96 | with every field unset the local filter returns the list unchanged |
| Payments.ZeroSupplierIgnored | src/api/payments.ts:62 | a supplier id of 0 filters nothing, as an unset one |
| Payments.DateBoundsExemptNonCredit | src/api/payments.ts:71-85 | the expected-date bounds never exclude a non-CREDIT payment or one without an expected date |
| Payments.DateBoundsOnCredit | src/api/payments.ts:71-85 | for a CREDIT payment with an expected date, each bound that is set is an inclusive comparison on that date: the payment matches exactly when its date lies within the set bounds and it matches with the bounds removed |
| Payments.OverdueOnlyKeeps | src/api/payments.ts:88-94 | with `overdue_only` a payment passes exactly when it passes the other stages and is a CREDIT whose expected date is before now |
| Payments.CachePayments90Days | src/api/payments.ts:102-105 | the window key now holds the 90-day filter of the list |
| Payments.GetCachedPayments90Days | src/api/payments.ts:110-112 | returns the cached window, or the empty list when there is none |
| Payments.CachedWindow | src/api/payments.ts:110-112 | a non-empty result is exactly the rows of the live window entry |
| Payments.WindowRoundTrip | src/api/payments.ts:102-112 | within the TTL, the cached window reads back as the 90-day filter of the list written |
| Payments.ExpiredWindowIsEmpty | src/api/payments.ts:110-112 | with no live window entry the cached window is the empty list |
| Payments.CachingKeepsWindowInvariant | src/api/payments.ts:102-105 | every row of the stored window lies inside the window of the instant it was written, and caching keeps this |
| Payments.OtherOperationsKeepWindowInvariant | src/services/cache.ts:10-54 | writes to other keys, reads and clears keep the window invariant |
| Payments.GetPaymentsByDate | src/api/payments.ts:138-149 | `getPaymentsByDate` is the read-through fetch under `payments_date_<date>` |
| Payments.SearchResult | src/api/payments.ts:221-271 | an online success answers with the server's list; otherwise the answer rejects exactly when the window is empty, with the offline or the no-cache message, and every row it returns is a window row matching the filters |
| Payments.SearchStorage | src/api/payments.ts:243-262 | no other cache key changes; after an online success whose write succeeded the window key holds the 90-day filter of the server's list |
| Payments.SearchPayments | src/api/payments.ts:221-271 | result and storage are `SearchResult` and `SearchStorage` of the old store |
| Payments.OnlineSearchReturnsServerData | src/api/payments.ts:255-262 | an online success returns the server's list unchanged |
| Payments.OfflineSearchAfterOnline | src/api/payments.ts:243-262 | offline, after an online search within the TTL, the answer is the local filter over the window of that list |
| Payments.FallbackSearchServesMatches | src/api/payments.ts:243-270 | offline or after a transport failure, the answer rejects exactly when the window is empty, and otherwise holds exactly the window's matching payments |
| Payments.OnlineOnly | src/api/payments.ts:172-213 | offline, a write request is not sent and rejects with "Opération impossible hors ligne"; online it is sent and settles as the server's response does |
| Summary.MathRound | src/api/summary.ts:18 | `Math.round`: the result is within half a unit of the quotient, halves rounded up |
| Summary.WeekNumber | src/api/summary.ts:11-18 | the rounded week count from January 4th to the date's Thursday equals the ISO 8601 week number, between 1 and 53 |
| Summary.RoundedWeeks | src/api/summary.ts:18 | `Math.round` of (n − 3) days in weeks is the floor of n / 7 |
| Summary.TaggedIdRoundTrip | src/api/summary.ts:20 | `<year><tag><two-digit number>` can be read back into the year and the number |
| Summary.TaggedIdInjective | src/api/summary.ts:20 | two such identifiers are equal exactly when their years and numbers are |
| Summary.WeekIdentifier | src/api/summary.ts:8-21 | the identifier of a valid date is its calendar year and its ISO 8601 week number |
| Summary.WeekIdentifierOf | src/api/summary.ts:8-21 | the week identifier of a date text: `WeekIdentifier` of the date it names, or `NaN_WNaN` for a text `new Date` cannot read (stated by `NaNIdentifiersExactlyInvalid`) |
| Summary.WeekIdentifierRoundTrip | src/api/summary.ts:8-21 | the week identifier holds the calendar year and the ISO week number, 1 to 53 |
| Summary.MonthIdentifier | src/api/summary.ts:23-28 | the year, `_M` and the two-digit month of a valid date (its read-back is stated by `MonthIdentifierRoundTrip`) |
| Summary.MonthIdentifierOf | src/api/summary.ts:23-28 | the month identifier of a date text: `MonthIdentifier` of the date it names, or `NaN_MNaN` for a text `new Date` cannot read (stated by `NaNIdentifiersExactlyInvalid`) |
| Summary.NaNIdentifiersExactlyInvalid | src/api/summary.ts:8-28 | a text gets the `NaN` week and month identifiers exactly when `new Date` cannot read it |
| Summary.MonthIdentifierRoundTrip | src/api/summary.ts:23-28 | the month identifier holds the year and the month, 1 to 12 |
| Summary.MonthIdentifierIdentifiesMonth | src/api/summary.ts:23-28 | two dates have the same month identifier exactly when they share year and month |
| Summary.WeekIdentifierIdentifiesWeek | src/api/summary.ts:8-21 | for dates whose ISO week-year is their calendar year, the identifiers agree exactly when the dates share an ISO week |
| Summary.SameWeekSameIdentifier | src/api/summary.ts:8-21 | two dates of one calendar year in the same ISO week share the identifier |
| Summary.WeekIdentifierUsesCalendarYear | src/api/summary.ts:19-20 | 2021-01-01 is in ISO week 53 of 2020 and gets the identifier `2021_W53` |
| Summary.WeekIdentifierCollision | src/api/summary.ts:19-20 | 2018-01-01 and 2018-12-31 both get `2018_W01` |
| Summary.DifferentWeeksIn2018 | src/api/summary.ts:8-21 | those two dates lie in different ISO weeks |
| Summary.MonthIdentifierExample | src/api/summary.ts:23-28 | 2026-02-15 gets `2026_M02` |
| Summary.PeriodKey | src/api/summary.ts:84-92 | the key starts with the kind, followed by `_week_` in week mode and `_month_` in month mode |
| Summary.SameWeekSharesKey | src/api/summary.ts:86-87 | in week mode, two ranges whose starts share an ISO week of one year share the cache key, whatever their ends |
| Summary.SameMonthSharesKey | src/api/summary.ts:88-89 | in month mode, two ranges share the key exactly when their starts share year and month |
| Summary.RangeKeyIdentifiesRange | src/api/summary.ts:90-91 | without a mode, two ranges of dates share the key exactly when they have the same start and end |
| Summary.ModesUseDistinctKeys | src/api/summary.ts:84-92 | for a start date that parses, the three modes never give the same key for a range |
| Summary.InvalidStartsShareKey | src/api/summary.ts:8-28 | every start text that does not parse as a date gives the same week key and the same month key |
| Summary.KindsUseDistinctKeys | src/api/summary.ts:84-92 | a period-summary key is never a supplier-breakdown key |
| Summary.GetDailySummary | src/api/summary.ts:53-66 | the read-through fetch under `daily_summary_<date>` |
| Summary.GetPeriodSummary | src/api/summary.ts:79-106 | the read-through fetch under the key chosen by mode |
| Summary.GetSupplierBreakdown | src/api/summary.ts:127-154 | the read-through fetch under the key chosen by mode |
| Summary.WeekEntryServesOtherRange | src/api/summary.ts:86-103 | a week-mode response cached for one range is served offline for another range starting in the same week |
| Fetcher.ReportedError | src/hooks/useDateAwareCachedData.ts:64 | an `Error` is reported as it is; any other rejection as "Erreur de chargement" |
| Fetcher.Start | src/hooks/useDateAwareCachedData.ts:40-51 | the ref takes the new key, loading starts, the error goes, and the data is cleared exactly when the key changes from a non-empty one |
| Fetcher.Succeed | src/hooks/useDateAwareCachedData.ts:54-69 | loading stops; the data and error change only when the request's key is the current one, to the result and no error |
| Fetcher.Fail | src/hooks/useDateAwareCachedData.ts:63-69 | the data goes, the reported error is shown and loading stops, whatever the key |
| Fetcher.Run | src/hooks/useDateAwareCachedData.ts:39-69 | after any sequence of events the ref holds its first key or a key some request started with |
| Fetcher.StartClearsOnKeyChange | src/hooks/useDateAwareCachedData.ts:41-51 | starting a request for a new key clears the data, marks loading, clears the error and makes the key current |
| Fetcher.SucceedCommitsOnlyLatest | src/hooks/useDateAwareCachedData.ts:54-62 | a success is committed exactly when its key is the current one; loading stops either way |
| Fetcher.FailIgnoresKey | src/hooks/useDateAwareCachedData.ts:63-69 | a failure clears the data and sets the error whatever its key |
| Fetcher.ShowsLatestOrEmptyKeyHolds | src/hooks/useDateAwareCachedData.ts:39-69 | shown data always belongs to the current key or to the empty key, after any sequence of events |
| Fetcher.NeverCachedData | src/hooks/useDateAwareCachedData.ts:32-66 | `isCachedData` is never true |
| Fetcher.ShowsLatestKeyHolds | src/hooks/useDateAwareCachedData.ts:39-69 | when no key is empty, shown data always belongs to the current key |
| Fetcher.NoStaleDataWithNonEmptyKeys | src/hooks/useDateAwareCachedData.ts:39-69 | from the initial state, with non-empty keys, data is never that of a superseded key |
| Fetcher.SupersededSuccessDropped | src/hooks/useDateAwareCachedData.ts:54-62 | a late success for an old key neither replaces nor restores data |
| Fetcher.SupersededSettleStopsLoading | src/hooks/useDateAwareCachedData.ts:67-69 | a superseded request settling ends loading although the current one is still pending |
| Fetcher.StaleRejectionWipesData | src/hooks/useDateAwareCachedData.ts:63-66 | a late failure of an old request wipes the current key's data and shows its error |
| Fetcher.SameKeyLastSettledWins | src/hooks/useDateAwareCachedData.ts:54-62 | of two requests for one key, whichever settles last is shown |
| Fetcher.EmptyKeyDataSurvivesKeyChange | src/hooks/useDateAwareCachedData.ts:41-44 | data fetched for the empty key is not cleared when the key changes |
| Fetcher.SequencedFetcher.constructor | src/hooks/useDateAwareCachedData.ts:29-36 | the hook starts with no data, not loading, no error and an empty key |
| Fetcher.SequencedFetcher.Begin | src/hooks/useDateAwareCachedData.ts:40-51 | the new state is `Start` of the old one |
| Fetcher.SequencedFetcher.Resolve | src/hooks/useDateAwareCachedData.ts:54-62 | the new state is `Succeed` of the old one |
| Fetcher.SequencedFetcher.Reject | src/hooks/useDateAwareCachedData.ts:63-69 | the new state is `Fail` of the old one |
| Fetcher.SwitchKeyBeforeResult | src/hooks/useDateAwareCachedData.ts:41-62 | on the class, switching keys before the first result arrives leaves nothing shown and loading off |
| Fetcher.StaleFailureOnObject | src/hooks/useDateAwareCachedData.ts:63-66 | on the class, a late failure of an old request blanks the newer data and shows the error |
| Search.FormatStatus | src/screens/PaymentsSearch.tsx:12-18 | PAID and CREDIT get their French labels; any other status is shown unchanged |
| Search.ParseStatus | src/screens/PaymentsSearch.tsx:20-24 | only "Payé" and "Crédit" name a status, never INSTALLMENTS |
| Search.StatusLabelRoundTrip | src/screens/PaymentsSearch.tsx:12-24 | the label of PAID or CREDIT parses back to it |
| Search.LabelStatusRoundTrip | src/screens/PaymentsSearch.tsx:12-24 | a label that parses is the label of the status it parses to |
| Search.InstallmentsShownRaw | src/screens/PaymentsSearch.tsx:12-24 | INSTALLMENTS is shown raw and does not parse back |
| Search.Split | src/screens/PaymentsSearch.tsx:31 | `split` yields separator-free pieces that join back to the text |
| Search.SplitJoin | src/screens/PaymentsSearch.tsx:31 | splitting a join of separator-free pieces gives the pieces back |
| Search.FormatDateDDMMYYYY | src/screens/PaymentsSearch.tsx:29-33 | the empty text is shown as empty |
| Search.FormatsThreeFields | src/screens/PaymentsSearch.tsx:29-33 | `y-m-d` with dash-free fields is shown as `d/m/y` |
| Search.FormatsIsoDate | src/screens/PaymentsSearch.tsx:26-33 | the `YYYY-MM-DD` text of any date is shown as `DD/MM/YYYY` with the same padded fields |
| Search.FormatsDashlessText | src/screens/PaymentsSearch.tsx:31-32 | a text with no dash is shown as `undefined/undefined/<text>` |
| Search.IsOverdue | src/screens/PaymentsSearch.tsx:35-43 | only a CREDIT payment with an expected date can be overdue |
| Search.IsOverdueMatchesFilter | src/screens/PaymentsSearch.tsx:35-43 | the badge holds exactly for a CREDIT payment whose expected date is before now, which is the `overdue_only` stage of the local filter |
| Search.OverdueOnlyShowsOverdue | src/api/payments.ts:88-94 | every payment an `overdue_only` local search returns carries the overdue badge |
| Search.Toggle | src/screens/PaymentsSearch.tsx:119-125 | a selected id is removed everywhere, leaving the other entries in order, and an unselected one appended; no other id changes membership |
| Search.ToggleTwiceRestoresMembership | src/screens/PaymentsSearch.tsx:119-125 | toggling one id twice restores which ids are selected |
| Search.SelectThenDeselect | src/screens/PaymentsSearch.tsx:119-125 | selecting and then deselecting an id restores the list exactly |
| Search.DeselectThenSelectMovesToEnd | src/screens/PaymentsSearch.tsx:121-123 | deselecting and reselecting moves the id to the end |
| Search.SettlePlanOf | src/screens/PaymentsSearch.tsx:127-143 | nothing happens for an empty selection; the batch is refused exactly when a selected shown payment is not a CREDIT; otherwise exactly the selected shown payments are settled |
| Search.SettledIds | src/screens/PaymentsSearch.tsx:156-158 | one settle request per credit, for its id, in order |
| Search.LeftoverSelectionSettlesNothing | src/screens/PaymentsSearch.tsx:128-143 | a selection whose rows are no longer shown passes the check with no credit |
| Search.NumberTextInjective | src/screens/PaymentsSearch.tsx:65 | different supplier ids print differently |
| Search.FilterString | src/screens/PaymentsSearch.tsx:65 | for a form without underscores in its texts, the string splits back into the five fields |
| Search.FilterStringNonEmpty | src/screens/PaymentsSearch.tsx:65 | the filter string is never empty |
| Search.FilterStringInjective | src/screens/PaymentsSearch.tsx:65 | two forms without underscores in their texts have the same filter string only when they are equal |
| Search.DateParam | src/screens/PaymentsSearch.tsx:99-100 | an empty date field is sent as unset; a `YYYY-MM-DD` field is sent as the day it names |
| Search.Params | src/screens/PaymentsSearch.tsx:95-102 | the search receives the supplier, the parsed status, the two date bounds of the form as `DateParam` makes them, and the overdue flag |
| Search.SearchWarning | src/screens/PaymentsSearch.tsx:88-93 | the incompleteness warning is shown exactly when offline and the range is not covered by the window |
| Search.SettleCalls | src/screens/PaymentsSearch.tsx:156-158 | one request per credit id, in order; each is sent exactly when online; it goes through exactly when online and the server accepts that id, and otherwise rejects with the server's error or the offline message |
| Search.FirstRejection | src/screens/PaymentsSearch.tsx:156-158 | `Promise.all` fulfils exactly when every call did, and otherwise rejects with the message of one of the rejected calls |
| Search.OfflineSettleSendsNothing | src/api/payments.ts:208-213 | offline, no settle request of the batch reaches the server and each is refused with the offline message |
| Search.SettleRequests | src/screens/PaymentsSearch.tsx:155-158 | with no credit the batch resolves at once; offline it rejects with the offline message; online it resolves exactly when the server accepted every credit, and otherwise rejects with an error the server gave for one of them |
| Search.SettleOutcomeOf | src/screens/PaymentsSearch.tsx:127-175 | an empty selection is ignored and a non-credit selection refused; settling or failing needs a confirmed all-credit plan; a success counts every planned credit and, offline, happens only for an empty batch; a failure needs at least one credit |
| Search.SettleRefreshesOnlyAfterSuccess | src/screens/PaymentsSearch.tsx:127-169 | the flow refreshes exactly when a non-empty all-credit selection is confirmed and, online, the server accepted every selected shown credit (offline, only when no shown payment is selected) |
| Search.OfflineSettlesNothing | src/screens/PaymentsSearch.tsx:154-169 | offline, a settle that reports success settled zero credits |
| Search.StaleFilterClear | src/screens/PaymentsSearch.tsx:67-72 | the effect keeps selection, form, warning and last searched filters; when it changes anything it is offline, and it empties the rows and shows the filters-changed message |
| Search.AfterSearch | src/screens/PaymentsSearch.tsx:83-117 | the selection is cleared and the form kept; a success shows its rows and records the current filter string; a failure shows no rows, its message and no warning, and keeps the last searched filters |
| Search.SearchedFiltersAreCurrent | src/screens/PaymentsSearch.tsx:64-72 | right after a successful search the stale-filter effect changes nothing |
| Search.OfflineFilterChangeClears | src/screens/PaymentsSearch.tsx:64-72 | offline, editing the filters after a successful search drops the rows and shows the filters-changed message |
| Search.EffectIdleOnlineOrUnsearched | src/screens/PaymentsSearch.tsx:68 | online, or before any successful search, the effect changes nothing |
| Search.StaleClearKeepsSelection | src/screens/PaymentsSearch.tsx:68-71 | the effect keeps the selection, which then settles no credit |
| Search.FailedSearchShowsOnlyError | src/screens/PaymentsSearch.tsx:109-116 | a failed search leaves no row, selection or warning, only the error, and keeps the last searched filters |
| Search.WarningOnlyOffline | src/screens/PaymentsSearch.tsx:85-93 | after a search the warning is shown only offline, after a success, for a range the window may not cover |
| Search.SearchScreen.constructor | src/screens/PaymentsSearch.tsx:48-62 | the screen starts with no row, no selection, no message, empty filters and no searched filter string |
| Search.SearchScreen.SetForm | src/screens/PaymentsSearch.tsx:54-58 | editing the form changes the form only |
| Search.SearchScreen.StaleFilterEffect | src/screens/PaymentsSearch.tsx:64-72 | the new state is `StaleFilterClear` of the old one |
| Search.SearchScreen.HandleSearch | src/screens/PaymentsSearch.tsx:83-117 | the new state is `AfterSearch` of the old one with the answer of `searchPayments` for the form's filters; the store is updated as `searchPayments` does |
| Search.SearchScreen.ToggleSelection | src/screens/PaymentsSearch.tsx:119-125 | the selection becomes `Toggle` of the old one and nothing else changes |
| Search.SearchScreen.HandleSettle | src/screens/PaymentsSearch.tsx:127-177 | reports the outcome of the pre-check, the confirmation and the requests; only a batch that went through refreshes the search, and every other outcome leaves screen and store unchanged |

## Left out

- Time zones and daylight saving time are not modelled: every `Date` is read in UTC. The source uses local time in `get90DaysAgoDate`, `getWeekIdentifier` and `getMonthIdentifier`, so west of Greenwich the identifiers can name the previous day.
- `new Date(text)` is modelled only for `YYYY-MM-DD` texts with a real month and day. Any other text, including out-of-range days that engines roll over, is modelled as an Invalid Date, which prints as `NaN_WNaN` or `NaN_MNaN`.
- Payment amounts, the totals of a day list and the settle total are not modelled: they are floating point, and the total only reaches a confirmation message.
- The alert and confirmation texts of `handleSettle` are not modelled. The confirmation is the `confirmed` parameter.
- React scheduling is not modelled: batching, effect timing and re-renders. The effect is a method the caller runs after a state change.
- Real asynchrony is not modelled: request completions are explicit events in the order they happen. `Promise.all` over the settle requests fulfils when every request went through; when several fail it rejects with the first failure in time, which the model takes to be the first in list order (`Search.FirstRejection`). The server's answer to each settle request is the `response` parameter, by payment id.
- `apiFetch`, the query string it is given and the server's own filtering are not part of this model. Each transport call is a `Fetch` outcome parameter.
- `navigator.onLine` and `useOnline` are the `isOnline` parameter.
- The read-through fallbacks (`if (cached) return cached`) test truthiness. Cached values are taken to be truthy, which holds for the objects and arrays the fetchers store, so the model serves every live cached value.
- `localStorage` is one store shared by payments and summaries. The model keeps each value type in its own `Cache.Store`, which is sound because the key families (`payments:last90days`, `payments_date_…`, `daily_summary_…`, `period_summary_…`, `supplier_breakdown_…`) never overlap. A clear of the shared storage corresponds to clearing every store.
- `localStorage` is an in-memory map of parsed values. JSON stringify and parse are taken as an identity round trip, and a value that does not parse is the `Malformed` item. A `getItem` that throws is treated as an absent item.
- `getPayment` is not modelled beyond the read-through pattern it repeats.
- `createPayment`, `updatePayment`, `deletePayment` and `settleCredit` are modelled only through their offline guard, `OnlineOnly`, which records whether the request was sent. The server's answer is a parameter, and the response body of a write is not modelled. Only `settleCredit` is called by a modelled screen.
- `getSuppliers` and the initial search on mount are not modelled; they are ordinary calls of modelled operations.
- Summary.GetDailySummary, Summary.GetPeriodSummary and Summary.GetSupplierBreakdown are generic over the response type: the response fields are never inspected.
- Fetcher.SequencedFetcher: `dataKey` is ghost bookkeeping that records which key the shown data was fetched for; the hook has no such field. `lastSuccessfulFetchRef` is kept as the last committed result rather than a resolved promise.
- Search.DateParam: a non-empty date text that is not a `YYYY-MM-DD` date is sent as unset, whereas the source sends the raw text. A date input never holds such a text.
- Search.FilterStringInjective: it is proved only for forms whose status and date texts contain no underscore, which holds for every value the select and date inputs produce.
