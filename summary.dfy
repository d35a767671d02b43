/**
 * The summary API client of `src/api/summary.ts`: the week and month
 * identifiers, the cache key each fetcher chooses, and the three cached
 * fetchers (daily summary, period summary, supplier breakdown).
 *
 * A date string is what `new Date(dateStr)` makes of it: a `YYYY-MM-DD`
 * string names a civil date (`Calendar.ParseIsoDate`), anything else is an
 * Invalid Date, whose year and week print as `NaN`. The device time zone is
 * UTC, so the millisecond differences the source computes are whole days.
 */
module Summary {
  import opened Basics
  import opened Calendar
  import opened Cache
  import opened Fallback

  /** `Math.round(num / den)` for `den > 0`: the nearest integer, halves rounded up. */
  function MathRound(num: int, den: int): (r: int)
    requires den > 0
    ensures 2 * den * r - den <= 2 * num < 2 * den * r + den
  {
    var r := (2 * num + den) / (2 * den);
    assert 2 * den * r <= 2 * num + den < 2 * den * r + 2 * den;
    r
  }

  const WeekMs: int := 604800000

  /** `target.setMonth(0, 4)`: the day ordinal of January 4th of year `y`. */
  function Jan4(y: int): Day
  {
    DaysBeforeYear(y) + 3
  }

  /**
   * The week number `getWeekIdentifier` computes: move to the Thursday of the
   * date's Monday-to-Sunday week, then count rounded weeks from January 4th of
   * that Thursday's year. It is the ISO 8601 week number.
   */
  function WeekNumber(c: CivilDate): (w: int)
    requires ValidDate(c)
    ensures w == IsoWeekDate(c).week
    ensures 1 <= w <= 53
  {
    var firstThursday := IsoThursday(c);
    var thursdayYear := YearNear(firstThursday, c.year);
    RoundedWeeks(firstThursday - DaysBeforeYear(thursdayYear));
    MathRound((firstThursday - Jan4(thursdayYear)) * DayMs, WeekMs) + 1
  }

  /** Rounding `(n - 3)` days to whole weeks is the floor of `n` days in weeks. */
  lemma RoundedWeeks(n: int)
    ensures MathRound((n - 3) * DayMs, WeekMs) == n / 7
  {
    var q, r := n / 7, n % 7;
    assert 2 * ((n - 3) * DayMs) + WeekMs == 2 * WeekMs * q + (2 * r + 1) * DayMs;
    assert 0 <= (2 * r + 1) * DayMs < 2 * WeekMs;
  }

  /** `` `${year}${tag}${String(n).padStart(2, '0')}` `` */
  function TaggedId(year: nat, tag: string, n: nat): string
  {
    DecimalString(year) + tag + PadStart(DecimalString(n), 2)
  }

  /**
   * Reading an identifier back: the text before the two-character `tag` is
   * the decimal year, the two characters after it the number.
   */
  function ParseTaggedId(s: string, tag: string): Option<(nat, nat)>
  {
    if |s| >= 5 && s[|s| - 4..|s| - 2] == tag && AllDigits(s[..|s| - 4]) && AllDigits(s[|s| - 2..])
    then Some((ParseDecimal(s[..|s| - 4]), ParseDecimal(s[|s| - 2..])))
    else None
  }

  /** A tagged identifier reads back as the year and number it was made from. */
  lemma TaggedIdRoundTrip(year: nat, tag: string, n: nat)
    requires |tag| == 2 && n < 100
    ensures ParseTaggedId(TaggedId(year, tag, n), tag) == Some((year, n))
  {
    var y, p := DecimalString(year), PadStart(DecimalString(n), 2);
    PaddedWidth(n, 2);
    PadStartValue(n, 2);
    DecimalRoundTrip(year);
    ParseDigitParts(y, tag, p);
  }

  /** Digits, a two-character tag and two digits read back as the two numbers. */
  lemma ParseDigitParts(y: string, tag: string, p: string)
    requires |y| >= 1 && |tag| == 2 && |p| == 2 && AllDigits(y) && AllDigits(p)
    ensures ParseTaggedId(y + tag + p, tag) == Some((ParseDecimal(y), ParseDecimal(p)))
  {
    ThreeParts(y, tag, p);
  }

  /** The pieces of `a + b + c` for `b` and `c` of two characters each. */
  lemma ThreeParts(a: string, b: string, c: string)
    requires |b| == 2 && |c| == 2
    ensures var s := a + b + c;
            s[..|s| - 4] == a && s[|s| - 4..|s| - 2] == b && s[|s| - 2..] == c
  {
  }

  /** Two identifiers with the same tag are equal exactly when year and number are. */
  lemma TaggedIdInjective(y1: nat, n1: nat, y2: nat, n2: nat, tag: string)
    requires |tag| == 2 && n1 < 100 && n2 < 100
    ensures TaggedId(y1, tag, n1) == TaggedId(y2, tag, n2) <==> y1 == y2 && n1 == n2
  {
    TaggedIdRoundTrip(y1, tag, n1);
    TaggedIdRoundTrip(y2, tag, n2);
  }

  /* ---------------------------------------------------------------------
   * Week and month identifiers.
   * --------------------------------------------------------------------- */

  /** `getWeekIdentifier` of a valid date: the CALENDAR year of the date, then the ISO week number. */
  function WeekIdentifier(c: CivilDate): (id: string)
    requires ValidDate(c)
    ensures id == TaggedId(c.year, "_W", IsoWeekDate(c).week)
  {
    TaggedId(c.year, "_W", WeekNumber(c))
  }

  /** `getMonthIdentifier` of a valid date. */
  function MonthIdentifier(c: CivilDate): string
    requires ValidDate(c)
  {
    TaggedId(c.year, "_M", c.month)
  }

  /** `getWeekIdentifier(dateStr)`; an Invalid Date prints `NaN` for both fields. */
  function WeekIdentifierOf(dateStr: string): string
  {
    match ParseIsoDate(dateStr)
    case Some(c) => WeekIdentifier(c)
    case None => "NaN_WNaN"
  }

  /** `getMonthIdentifier(dateStr)`; an Invalid Date prints `NaN` for both fields. */
  function MonthIdentifierOf(dateStr: string): string
  {
    match ParseIsoDate(dateStr)
    case Some(c) => MonthIdentifier(c)
    case None => "NaN_MNaN"
  }

  /** The identifiers print `NaN` exactly for the texts `new Date` cannot read: a real date starts with a digit. */
  lemma NaNIdentifiersExactlyInvalid(dateStr: string)
    ensures ParseIsoDate(dateStr).None? <==> WeekIdentifierOf(dateStr) == "NaN_WNaN"
    ensures ParseIsoDate(dateStr).None? <==> MonthIdentifierOf(dateStr) == "NaN_MNaN"
  {
    if ParseIsoDate(dateStr).Some? {
      var c := ParseIsoDate(dateStr).value;
      assert WeekIdentifier(c)[0] == DecimalString(c.year)[0];
      assert MonthIdentifier(c)[0] == DecimalString(c.year)[0];
    }
  }

  /**
   * The week identifier of a date reads back as `<year>_W<ww>`: the calendar
   * year, then the ISO week number in two digits, 01 to 53.
   */
  lemma WeekIdentifierRoundTrip(c: CivilDate)
    requires ValidDate(c)
    ensures ParseTaggedId(WeekIdentifier(c), "_W") == Some((c.year, IsoWeekDate(c).week))
    ensures 1 <= IsoWeekDate(c).week <= 53
  {
    TaggedIdRoundTrip(c.year, "_W", WeekNumber(c));
  }

  /** The month identifier of a date reads back as `<year>_M<mm>`, the month in two digits, 01 to 12. */
  lemma MonthIdentifierRoundTrip(c: CivilDate)
    requires ValidDate(c)
    ensures ParseTaggedId(MonthIdentifier(c), "_M") == Some((c.year, c.month))
    ensures 1 <= c.month <= 12
  {
    TaggedIdRoundTrip(c.year, "_M", c.month);
  }

  /** Two dates share a month identifier exactly when they share year and month. */
  lemma MonthIdentifierIdentifiesMonth(c1: CivilDate, c2: CivilDate)
    requires ValidDate(c1) && ValidDate(c2)
    ensures MonthIdentifier(c1) == MonthIdentifier(c2) <==> c1.year == c2.year && c1.month == c2.month
  {
    TaggedIdInjective(c1.year, c1.month, c2.year, c2.month, "_M");
  }

  /**
   * Where the calendar year is the ISO week-numbering year, the week
   * identifier names the ISO week: two such dates share it exactly when they
   * lie in the same Monday-to-Sunday week.
   */
  lemma WeekIdentifierIdentifiesWeek(c1: CivilDate, c2: CivilDate)
    requires ValidDate(c1) && ValidDate(c2)
    requires IsoWeekDate(c1).weekYear == c1.year && IsoWeekDate(c2).weekYear == c2.year
    ensures WeekIdentifier(c1) == WeekIdentifier(c2) <==> IsoThursday(c1) == IsoThursday(c2)
  {
    TaggedIdInjective(c1.year, WeekNumber(c1), c2.year, WeekNumber(c2), "_W");
    var t1, t2 := IsoThursday(c1), IsoThursday(c2);
    if t1 == t2 {
      YearUnique(t1, YearNear(t1, c1.year), YearNear(t2, c2.year));
    }
    if WeekIdentifier(c1) == WeekIdentifier(c2) {
      IsoWeekDateInjective(c1, c2);
    }
  }

  /** Dates in the same week and the same calendar year share the week identifier. */
  lemma SameWeekSameIdentifier(c1: CivilDate, c2: CivilDate)
    requires ValidDate(c1) && ValidDate(c2)
    requires c1.year == c2.year && IsoThursday(c1) == IsoThursday(c2)
    ensures WeekIdentifier(c1) == WeekIdentifier(c2)
  {
    assert IsoWeekDate(c1) == IsoWeekDate(c2);
  }

  /**
   * The year is the calendar year, not the ISO week-numbering year: January
   * 1st, 2021 lies in week 53 of 2020 and is labelled `2021_W53`.
   */
  lemma WeekIdentifierUsesCalendarYear()
    ensures IsoWeekDate(CivilDate(2021, 1, 1)) == WeekDate(2020, 53)
    ensures WeekIdentifierOf("2021-01-01") == "2021_W53"
  {
    ParseIsoDateOfDigits("2021-01-01", CivilDate(2021, 1, 1));
    Week53Of2021();
  }

  lemma Week53Of2021()
    ensures IsoWeekDate(CivilDate(2021, 1, 1)) == WeekDate(2020, 53)
    ensures WeekIdentifier(CivilDate(2021, 1, 1)) == "2021_W53"
  {
    IsoWeekOf20210101();
    Text2021W53();
  }

  /** January 1st of a four-digit year is a valid date, the first day of that year. */
  lemma NewYearOrdinal(y: int)
    requires 0 <= y <= 9999
    ensures ValidDate(CivilDate(y, 1, 1)) && Ordinal(CivilDate(y, 1, 1)) == DaysBeforeYear(y)
  {
  }

  /** The Thursday of a date's week, from its ordinal and weekday. */
  lemma ThursdayFrom(c: CivilDate, d: Day, w: int)
    requires ValidDate(c) && Ordinal(c) == d && Weekday(d) == w
    ensures IsoThursday(c) == d - (w + 6) % 7 + 3
  {
    assert IsoThursday(c) == Ordinal(c) - (Weekday(Ordinal(c)) + 6) % 7 + 3;
  }

  /** The ISO week date, from the Thursday of the week and that Thursday's year. */
  lemma WeekDateFrom(c: CivilDate, t: Day, y: int, base: Day)
    requires ValidDate(c) && IsoThursday(c) == t
    requires DaysBeforeYear(c.year) - 3 <= t < DaysBeforeYear(c.year + 1) + 3
    requires YearNear(t, c.year) == y && DaysBeforeYear(y) == base
    ensures IsoWeekDate(c) == WeekDate(y, (t - base) / 7 + 1)
  {
  }

  lemma NewYears2020And2021()
    ensures DaysBeforeYear(2020) == 18262 && DaysBeforeYear(2021) == 18628
  {
  }

  lemma IsoWeekOf20210101()
    ensures IsoWeekDate(CivilDate(2021, 1, 1)) == WeekDate(2020, 53)
  {
    Thursday20210101(CivilDate(2021, 1, 1));
    NewYears2020And2021();
    WeekDateFrom(CivilDate(2021, 1, 1), 18627, 2020, 18262);
  }

  lemma Thursday20210101(c: CivilDate)
    requires c == CivilDate(2021, 1, 1)
    ensures ValidDate(c) && IsoThursday(c) == 18627
    ensures DaysBeforeYear(c.year) - 3 <= 18627 < DaysBeforeYear(c.year + 1) + 3
    ensures YearNear(18627, c.year) == 2020
  {
    NewYears2020And2021();
    NewYearOrdinal(c.year);
    assert Weekday(18628) == 5;
    ThursdayFrom(c, 18628, 5);
    YearLength(c.year);
  }

  lemma Text2021W53()
    ensures TaggedId(2021, "_W", 53) == "2021_W53"
  {
    assert DecimalString(2021) == "2021";
    assert PadStart(DecimalString(53), 2) == "53";
  }

  /**
   * Because of the calendar year, two different ISO weeks share an
   * identifier: January 1st and December 31st, 2018 are both `2018_W01`
   * (though they lie in week 1 of 2018 and week 1 of 2019, see
   * `DifferentWeeksIn2018`).
   */
  lemma WeekIdentifierCollision()
    ensures WeekIdentifierOf("2018-01-01") == WeekIdentifierOf("2018-12-31") == "2018_W01"
  {
    FirstDayOf2018();
    LastDayOf2018();
  }

  lemma FirstDayOf2018()
    ensures WeekIdentifierOf("2018-01-01") == "2018_W01"
  {
    ParseIsoDateOfDigits("2018-01-01", CivilDate(2018, 1, 1));
    Week1Of2018();
  }

  lemma LastDayOf2018()
    ensures WeekIdentifierOf("2018-12-31") == "2018_W01"
  {
    ReadsLastDayOf2018();
    Week1Of2019();
  }

  lemma ReadsLastDayOf2018()
    ensures ParseIsoDate("2018-12-31") == Some(CivilDate(2018, 12, 31))
  {
    ParseIsoDateOfDigits("2018-12-31", CivilDate(2018, 12, 31));
  }

  /** January 1st and December 31st, 2018 lie in different ISO weeks. */
  lemma DifferentWeeksIn2018()
    ensures IsoWeekDate(CivilDate(2018, 1, 1)) != IsoWeekDate(CivilDate(2018, 12, 31))
  {
    Week1Of2018();
    Week1Of2019();
  }

  lemma Week1Of2018()
    ensures IsoWeekDate(CivilDate(2018, 1, 1)) == WeekDate(2018, 1)
    ensures WeekIdentifier(CivilDate(2018, 1, 1)) == "2018_W01"
  {
    IsoWeekOf20180101();
    Text2018W01();
  }

  lemma Week1Of2019()
    ensures IsoWeekDate(CivilDate(2018, 12, 31)) == WeekDate(2019, 1)
    ensures WeekIdentifier(CivilDate(2018, 12, 31)) == "2018_W01"
  {
    IsoWeekOf20181231();
    Text2018W01();
  }

  lemma NewYears2018And2019()
    ensures DaysBeforeYear(2018) == 17532 && DaysBeforeYear(2019) == 17897
  {
  }

  lemma IsoWeekOf20180101()
    ensures IsoWeekDate(CivilDate(2018, 1, 1)) == WeekDate(2018, 1)
  {
    Thursday20180101(CivilDate(2018, 1, 1));
    NewYears2018And2019();
    WeekDateFrom(CivilDate(2018, 1, 1), 17535, 2018, 17532);
  }

  lemma Thursday20180101(c: CivilDate)
    requires c == CivilDate(2018, 1, 1)
    ensures ValidDate(c) && IsoThursday(c) == 17535
    ensures DaysBeforeYear(c.year) - 3 <= 17535 < DaysBeforeYear(c.year + 1) + 3
    ensures YearNear(17535, c.year) == 2018
  {
    NewYears2018And2019();
    NewYearOrdinal(c.year);
    assert Weekday(17532) == 1;
    ThursdayFrom(c, 17532, 1);
    YearLength(c.year);
  }

  lemma IsoWeekOf20181231()
    ensures IsoWeekDate(CivilDate(2018, 12, 31)) == WeekDate(2019, 1)
  {
    NewYears2018And2019();
    assert DayOfYear(CivilDate(2018, 12, 31)) == 365;
    assert Ordinal(CivilDate(2018, 12, 31)) == 17896;
    assert Weekday(17896) == 1;
    assert IsoThursday(CivilDate(2018, 12, 31)) == 17899;
    assert YearNear(17899, 2018) == 2019;
  }

  lemma Text2018W01()
    ensures TaggedId(2018, "_W", 1) == "2018_W01"
  {
    assert DecimalString(2018) == "2018";
    PadOneDigit(DecimalString(1));
  }

  /** February 2026 is `2026_M02`. */
  lemma MonthIdentifierExample()
    ensures MonthIdentifierOf("2026-02-15") == "2026_M02"
  {
    ParseIsoDateOfDigits("2026-02-15", CivilDate(2026, 2, 15));
    Text2026M02();
  }

  lemma Text2026M02()
    ensures TaggedId(2026, "_M", 2) == "2026_M02"
  {
    assert DecimalString(2026) == "2026";
    PadOneDigit(DecimalString(2));
  }

  /* ---------------------------------------------------------------------
   * Cache keys.
   * --------------------------------------------------------------------- */

  /** The `mode` argument; an absent or other value is `None`. */
  datatype PeriodMode = WeekMode | MonthMode

  const PeriodSummaryKind: string := "period_summary"
  const SupplierBreakdownKind: string := "supplier_breakdown"

  function DailyKey(date: string): string
  {
    "daily_summary_" + date
  }

  /**
   * The key `getPeriodSummary` (kind `period_summary`) and `getSupplierBreakdown`
   * (kind `supplier_breakdown`) cache under.
   */
  function PeriodKey(kind: string, startDate: string, endDate: string, mode: Option<PeriodMode>): (key: string)
    ensures kind <= key && |key| >= |kind| + 2
    ensures mode == Some(WeekMode) ==> kind + "_week_" <= key
    ensures mode == Some(MonthMode) ==> kind + "_month_" <= key
    ensures |startDate| > 0 ==> key[|kind| + 1] == ModeMarker(startDate, mode)
  {
    match mode
    case Some(WeekMode) =>
      CharAfterKind(kind, "_week_", WeekIdentifierOf(startDate));
      kind + "_week_" + WeekIdentifierOf(startDate)
    case Some(MonthMode) =>
      CharAfterKind(kind, "_month_", MonthIdentifierOf(startDate));
      kind + "_month_" + MonthIdentifierOf(startDate)
    case None =>
      var key := kind + "_" + startDate + "_" + endDate;
      if startDate == "" then key
      else
        CharAfterKind(kind, "_" + startDate, "_" + endDate);
        key
  }

  /**
   * In week mode two ranges share the cache entry when their start dates lie
   * in the same week of the same calendar year, whatever their end dates.
   */
  lemma SameWeekSharesKey(kind: string, s1: string, e1: string, s2: string, e2: string)
    requires ParseIsoDate(s1).Some? && ParseIsoDate(s2).Some?
    requires ParseIsoDate(s1).value.year == ParseIsoDate(s2).value.year
    requires IsoThursday(ParseIsoDate(s1).value) == IsoThursday(ParseIsoDate(s2).value)
    ensures PeriodKey(kind, s1, e1, Some(WeekMode)) == PeriodKey(kind, s2, e2, Some(WeekMode))
  {
    SameWeekSameIdentifier(ParseIsoDate(s1).value, ParseIsoDate(s2).value);
  }

  /** In month mode two ranges share the cache entry exactly when their start dates share year and month. */
  lemma SameMonthSharesKey(kind: string, s1: string, e1: string, s2: string, e2: string)
    requires ParseIsoDate(s1).Some? && ParseIsoDate(s2).Some?
    ensures var c1, c2 := ParseIsoDate(s1).value, ParseIsoDate(s2).value;
            PeriodKey(kind, s1, e1, Some(MonthMode)) == PeriodKey(kind, s2, e2, Some(MonthMode))
            <==> c1.year == c2.year && c1.month == c2.month
  {
    var c1, c2 := ParseIsoDate(s1).value, ParseIsoDate(s2).value;
    MonthIdentifierIdentifiesMonth(c1, c2);
    var p := kind + "_month_";
    if PeriodKey(kind, s1, e1, Some(MonthMode)) == PeriodKey(kind, s2, e2, Some(MonthMode)) {
      assert (p + MonthIdentifier(c1))[|p|..] == MonthIdentifier(c1);
      assert (p + MonthIdentifier(c2))[|p|..] == MonthIdentifier(c2);
    }
  }

  /** Without a mode, ranges of `YYYY-MM-DD` dates share the entry only when both bounds agree. */
  lemma RangeKeyIdentifiesRange(kind: string, s1: string, e1: string, s2: string, e2: string)
    requires ParseIsoDate(s1).Some? && ParseIsoDate(s2).Some?
    ensures PeriodKey(kind, s1, e1, None) == PeriodKey(kind, s2, e2, None) <==> s1 == s2 && e1 == e2
  {
    var k1, k2 := PeriodKey(kind, s1, e1, None), PeriodKey(kind, s2, e2, None);
    var n := |kind| + 1;
    if k1 == k2 {
      assert k1[n..n + 10] == s1;
      assert k2[n..n + 10] == s2;
      assert k1[n + 11..] == e1;
      assert k2[n + 11..] == e2;
    }
  }

  /** The character right after `<kind>_` in a key: `w`, `m`, or the first character of the start date. */
  function ModeMarker(startDate: string, mode: Option<PeriodMode>): char
    requires |startDate| > 0
  {
    match mode
    case Some(WeekMode) => 'w'
    case Some(MonthMode) => 'm'
    case None => startDate[0]
  }

  lemma CharAfterKind(kind: string, middle: string, rest: string)
    requires |middle| >= 2
    ensures (kind + middle + rest)[|kind| + 1] == middle[1]
  {
  }

  /** For a `YYYY-MM-DD` start date the three modes never choose the same key. */
  lemma ModesUseDistinctKeys(kind: string, s: string, e: string, m1: Option<PeriodMode>, m2: Option<PeriodMode>)
    requires ParseIsoDate(s).Some?
    requires m1 != m2
    ensures PeriodKey(kind, s, e, m1) != PeriodKey(kind, s, e, m2)
  {
    ParsedDateShape(s);
    assert ModeMarker(s, m1) != ModeMarker(s, m2);
  }

  /** Every start date `new Date` cannot read shares one week key and one month key. */
  lemma InvalidStartsShareKey(kind: string, s1: string, e1: string, s2: string, e2: string, m: PeriodMode)
    requires ParseIsoDate(s1).None? && ParseIsoDate(s2).None?
    ensures PeriodKey(kind, s1, e1, Some(m)) == PeriodKey(kind, s2, e2, Some(m))
  {
  }

  /* ---------------------------------------------------------------------
   * The fetchers. `V` is the response type of each endpoint.
   * --------------------------------------------------------------------- */

  /** `getDailySummary(date)`: read-through under `daily_summary_<date>`. */
  method GetDailySummary<V>(store: Store<V>, date: string, outcome: Fetch<V>, now: int, writeOk: bool)
    returns (r: Result<V>)
    modifies store
    ensures r == ReadThroughResult(old(store.items), DailyKey(date), outcome, now)
    ensures store.items == ReadThroughStorage(old(store.items), DailyKey(date), outcome, now, writeOk)
  {
    r := ReadThrough(store, DailyKey(date), outcome, now, writeOk);
  }

  /** `getPeriodSummary(startDate, endDate, mode)`: read-through under the key the mode chooses. */
  method GetPeriodSummary<V>(store: Store<V>, startDate: string, endDate: string, mode: Option<PeriodMode>,
                             outcome: Fetch<V>, now: int, writeOk: bool)
    returns (r: Result<V>)
    modifies store
    ensures var key := PeriodKey(PeriodSummaryKind, startDate, endDate, mode);
            && r == ReadThroughResult(old(store.items), key, outcome, now)
            && store.items == ReadThroughStorage(old(store.items), key, outcome, now, writeOk)
  {
    var cacheKey := PeriodKey(PeriodSummaryKind, startDate, endDate, mode);
    r := ReadThrough(store, cacheKey, outcome, now, writeOk);
  }

  /** `getSupplierBreakdown(startDate, endDate, mode)`: the same, under the `supplier_breakdown` kind. */
  method GetSupplierBreakdown<V>(store: Store<V>, startDate: string, endDate: string, mode: Option<PeriodMode>,
                                 outcome: Fetch<V>, now: int, writeOk: bool)
    returns (r: Result<V>)
    modifies store
    ensures var key := PeriodKey(SupplierBreakdownKind, startDate, endDate, mode);
            && r == ReadThroughResult(old(store.items), key, outcome, now)
            && store.items == ReadThroughStorage(old(store.items), key, outcome, now, writeOk)
  {
    var cacheKey := PeriodKey(SupplierBreakdownKind, startDate, endDate, mode);
    r := ReadThrough(store, cacheKey, outcome, now, writeOk);
  }

  /**
   * The shared week entry at work: a week-mode summary fetched online for one
   * range is what a failed week-mode fetch of another range starting in the
   * same week (and calendar year) returns, within the TTL.
   */
  lemma WeekEntryServesOtherRange<V>(items: Storage<V>, kind: string, s1: string, e1: string, s2: string,
                                     e2: string, data: V, fetchedAt: int, now: int)
    requires ParseIsoDate(s1).Some? && ParseIsoDate(s2).Some?
    requires ParseIsoDate(s1).value.year == ParseIsoDate(s2).value.year
    requires IsoThursday(ParseIsoDate(s1).value) == IsoThursday(ParseIsoDate(s2).value)
    requires now - fetchedAt <= CacheTtl
    ensures var after := ReadThroughStorage(items, PeriodKey(kind, s1, e1, Some(WeekMode)), Fetched(data),
                                            fetchedAt, true);
            ReadThroughResult(after, PeriodKey(kind, s2, e2, Some(WeekMode)), Unreachable, now) == Ok(data)
  {
    SameWeekSharesKey(kind, s1, e1, s2, e2);
    FallbackServesLastResponse(items, PeriodKey(kind, s1, e1, Some(WeekMode)), data, fetchedAt, now);
  }

  /** The period summary and the supplier breakdown never read each other's entries. */
  lemma KindsUseDistinctKeys(s1: string, e1: string, m1: Option<PeriodMode>,
                             s2: string, e2: string, m2: Option<PeriodMode>)
    ensures PeriodKey(PeriodSummaryKind, s1, e1, m1) != PeriodKey(SupplierBreakdownKind, s2, e2, m2)
  {
    assert PeriodKey(PeriodSummaryKind, s1, e1, m1)[0] == 'p';
    assert PeriodKey(SupplierBreakdownKind, s2, e2, m2)[0] == 's';
  }
}
