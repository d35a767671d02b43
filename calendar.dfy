/**
 * Dates and instants as the cache layer uses them, in the proleptic
 * Gregorian calendar and in UTC (the model fixes the device time zone to UTC;
 * see README).
 *
 * - an instant is a JavaScript time value: milliseconds since 1970-01-01T00:00Z;
 * - a day is a day ordinal: whole days since 1970-01-01;
 * - a civil date is what a `YYYY-MM-DD` string denotes.
 */
module Calendar {
  import opened Basics

  type Instant = int
  type Day = int

  const DayMs: int := 24 * 60 * 60 * 1000

  /** `new Date("YYYY-MM-DD")`: the instant at which day `d` begins (UTC midnight). */
  function DayStart(d: Day): Instant
  {
    d * DayMs
  }

  /** The day on which instant `now` falls (the date part of `toISOString()`). */
  function Today(now: Instant): (d: Day)
    ensures DayStart(d) <= now < DayStart(d) + DayMs
  {
    now / DayMs
  }

  /** `Date.prototype.getDay()`: 0 for Sunday ... 6 for Saturday. Day 0 was a Thursday. */
  function Weekday(d: Day): (w: int)
    ensures 0 <= w < 7
  {
    (d + 4) % 7
  }

  predicate IsLeapYear(y: int)
  {
    y % 4 == 0 && (y % 100 != 0 || y % 400 == 0)
  }

  function DaysInYear(y: int): int
  {
    if IsLeapYear(y) then 366 else 365
  }

  function DaysInMonth(y: int, m: int): int
    requires 1 <= m <= 12
  {
    if m == 2 then (if IsLeapYear(y) then 29 else 28)
    else if m == 4 || m == 6 || m == 9 || m == 11 then 30
    else 31
  }

  /** Days of year `y` that precede the first of month `m`. */
  function DaysBeforeMonth(y: int, m: int): (n: int)
    requires 1 <= m <= 12
    ensures 0 <= n && n + DaysInMonth(y, m) <= DaysInYear(y)
    ensures 1 < m ==> n == DaysBeforeMonth(y, m - 1) + DaysInMonth(y, m - 1)
  {
    [0, 31, 59, 90, 120, 151, 181, 212, 243, 273, 304, 334][m - 1]
      + (if m > 2 && IsLeapYear(y) then 1 else 0)
  }

  /** Leap years among the years before `y` (counted with floor division, so also for y <= 0). */
  function LeapYearsBefore(y: int): int
  {
    (y - 1) / 4 - (y - 1) / 100 + (y - 1) / 400
  }

  /** Day ordinal of January 1st of year `y`. */
  function DaysBeforeYear(y: int): Day
  {
    365 * (y - 1970) + LeapYearsBefore(y) - LeapYearsBefore(1970)
  }

  /** Consecutive New Year's days are one year length apart. */
  lemma YearLength(y: int)
    ensures DaysBeforeYear(y + 1) == DaysBeforeYear(y) + DaysInYear(y)
  {
    QuotientStep4(y);
    QuotientStep100(y);
    QuotientStep400(y);
  }

  /* Going from `y - 1` to `y`, a quotient grows by one exactly at a multiple of the divisor. */

  lemma QuotientStep4(y: int)
    ensures y / 4 - (y - 1) / 4 == if y % 4 == 0 then 1 else 0
  {
  }

  lemma QuotientStep100(y: int)
    ensures y / 100 - (y - 1) / 100 == if y % 100 == 0 then 1 else 0
  {
  }

  lemma QuotientStep400(y: int)
    ensures y / 400 - (y - 1) / 400 == if y % 400 == 0 then 1 else 0
  {
  }

  /** Later years start later: at least 365 days per year in between. */
  lemma {:induction false} DaysBeforeYearMonotone(a: int, b: int)
    requires a <= b
    ensures DaysBeforeYear(a) + 365 * (b - a) <= DaysBeforeYear(b)
    decreases b - a
  {
    if a < b {
      DaysBeforeYearMonotone(a, b - 1);
      YearLength(b - 1);
    }
  }

  datatype CivilDate = CivilDate(year: int, month: int, day: int)

  /** A date an `<input type="date">` can hold: four-digit year, real month and day. */
  predicate ValidDate(c: CivilDate)
  {
    0 <= c.year <= 9999 && 1 <= c.month <= 12 && 1 <= c.day <= DaysInMonth(c.year, c.month)
  }

  /** 1-based position of `c` within its year. */
  function DayOfYear(c: CivilDate): (n: int)
    requires ValidDate(c)
    ensures 1 <= n <= DaysInYear(c.year)
  {
    DaysBeforeMonth(c.year, c.month) + c.day
  }

  /** Day ordinal of a civil date; it lies inside the date's own year. */
  function Ordinal(c: CivilDate): (d: Day)
    requires ValidDate(c)
    ensures DaysBeforeYear(c.year) <= d < DaysBeforeYear(c.year + 1)
  {
    YearLength(c.year);
    DaysBeforeYear(c.year) + DayOfYear(c) - 1
  }

  /** The calendar year holding day `d`, for a day at most three days from year `near`. */
  function YearNear(d: Day, near: int): (y: int)
    requires DaysBeforeYear(near) - 3 <= d < DaysBeforeYear(near + 1) + 3
    ensures DaysBeforeYear(y) <= d < DaysBeforeYear(y + 1)
    ensures near - 1 <= y <= near + 1
  {
    YearLength(near - 1);
    YearLength(near);
    YearLength(near + 1);
    if d < DaysBeforeYear(near) then near - 1
    else if d >= DaysBeforeYear(near + 1) then near + 1
    else near
  }

  /** Each day belongs to exactly one calendar year. */
  lemma YearUnique(d: Day, y1: int, y2: int)
    requires DaysBeforeYear(y1) <= d < DaysBeforeYear(y1 + 1)
    requires DaysBeforeYear(y2) <= d < DaysBeforeYear(y2 + 1)
    ensures y1 == y2
  {
    if y1 < y2 {
      DaysBeforeYearMonotone(y1 + 1, y2);
    } else if y2 < y1 {
      DaysBeforeYearMonotone(y2 + 1, y1);
    }
  }

  /** Thursdays are exactly the ordinals divisible by 7. */
  lemma ThursdayOrdinals(d: Day)
    ensures Weekday(d) == 4 <==> d % 7 == 0
  {
  }

  /**
   * The Thursday of the Monday-to-Sunday week holding `c` (ISO 8601 weeks
   * start on Monday): the unique Thursday at most three days away.
   */
  function IsoThursday(c: CivilDate): (t: Day)
    requires ValidDate(c)
    ensures Weekday(t) == 4
    ensures t - 3 <= Ordinal(c) <= t + 3
  {
    var d := Ordinal(c);
    ThursdayOfWeek(d);
    d - (Weekday(d) + 6) % 7 + 3
  }

  lemma ThursdayOfWeek(d: Day)
    ensures Weekday(d - (Weekday(d) + 6) % 7 + 3) == 4
    ensures (Weekday(d) + 6) % 7 <= 6
  {
    var w := Weekday(d);
    var q := (d + 4) / 7;
    assert d + 4 == 7 * q + w;
    if w == 0 {
      assert (w + 6) % 7 == 6;
      assert d - 3 + 4 == 7 * (q - 1) + 4;
    } else {
      assert (w + 6) % 7 == w - 1;
      assert d - (w - 1) + 3 + 4 == 7 * q + 4;
    }
  }

  /** Two days that share their ISO-week Thursday lie in the same Monday-to-Sunday week. */
  lemma SameThursdayUnique(t1: Day, t2: Day, d: Day)
    requires Weekday(t1) == 4 && Weekday(t2) == 4
    requires t1 - 3 <= d <= t1 + 3 && t2 - 3 <= d <= t2 + 3
    ensures t1 == t2
  {
    ThursdayOrdinals(t1);
    ThursdayOrdinals(t2);
    var k := (t1 - t2) / 7;
    assert t1 - t2 == 7 * k;
  }

  /**
   * The ISO 8601 week date of `c` (section 3.2.2 of ISO 8601: week 1 of a year
   * is the week holding its first Thursday): the week-numbering year is the
   * year of the week's Thursday, the week number counts whole weeks from that
   * year's first Thursday.
   */
  datatype WeekDate = WeekDate(weekYear: int, week: int)

  function IsoWeekDate(c: CivilDate): (w: WeekDate)
    requires ValidDate(c)
    ensures 1 <= w.week <= 53
    ensures c.year - 1 <= w.weekYear <= c.year + 1
  {
    var t := IsoThursday(c);
    var y := YearNear(t, c.year);
    YearLength(y);
    WeekDate(y, (t - DaysBeforeYear(y)) / 7 + 1)
  }

  /** January 4th always lies in week 1 of its own year. */
  lemma Jan4InWeekOne(y: int)
    requires 0 <= y <= 9999
    ensures IsoWeekDate(CivilDate(y, 1, 4)) == WeekDate(y, 1)
  {
    var c := CivilDate(y, 1, 4);
    var t := IsoThursday(c);
    YearLength(y);
    YearUnique(t, YearNear(t, y), y);
  }

  /** The ISO week date identifies the week: equal week dates mean the same Thursday. */
  lemma IsoWeekDateInjective(c1: CivilDate, c2: CivilDate)
    requires ValidDate(c1) && ValidDate(c2)
    requires IsoWeekDate(c1) == IsoWeekDate(c2)
    ensures IsoThursday(c1) == IsoThursday(c2)
  {
    var t1, t2 := IsoThursday(c1), IsoThursday(c2);
    var y := IsoWeekDate(c1).weekYear;
    WeekIndexOf(c1, t1, y);
    WeekIndexOf(c2, t2, y);
    ThursdaysInOneWeek(t1, t2, DaysBeforeYear(y), IsoWeekDate(c1).week);
  }

  /** Two Thursdays the same number of whole weeks after `base` are the same day. */
  lemma ThursdaysInOneWeek(t1: Day, t2: Day, base: Day, week: int)
    requires Weekday(t1) == 4 && Weekday(t2) == 4
    requires week == (t1 - base) / 7 + 1 && week == (t2 - base) / 7 + 1
    ensures t1 == t2
  {
    ThursdayOrdinals(t1);
    ThursdayOrdinals(t2);
    SameWeekIndex(t1, t2, base);
  }

  /** The week number counts whole weeks from the week-year's New Year's day to the Thursday. */
  lemma WeekIndexOf(c: CivilDate, t: Day, y: int)
    requires ValidDate(c) && t == IsoThursday(c) && y == IsoWeekDate(c).weekYear
    ensures IsoWeekDate(c).week == (t - DaysBeforeYear(y)) / 7 + 1 && Weekday(t) == 4
  {
  }

  /** Two multiples of 7 in the same block of seven days from `base` are equal. */
  lemma SameWeekIndex(t1: int, t2: int, base: int)
    requires t1 % 7 == 0 && t2 % 7 == 0
    requires (t1 - base) / 7 == (t2 - base) / 7
    ensures t1 == t2
  {
    var a, b := t1 / 7, t2 / 7;
    var p, r := base / 7, base % 7;
    if r == 0 {
      assert t1 - base == 7 * (a - p) && t2 - base == 7 * (b - p);
    } else {
      assert t1 - base == 7 * (a - p - 1) + (7 - r);
      assert t2 - base == 7 * (b - p - 1) + (7 - r);
    }
  }

  /* ---------------------------------------------------------------------
   * Text forms of numbers and dates.
   * --------------------------------------------------------------------- */

  predicate IsDigit(ch: char)
  {
    '0' <= ch <= '9'
  }

  predicate AllDigits(s: string)
  {
    forall i :: 0 <= i < |s| ==> IsDigit(s[i])
  }

  function DigitChar(n: int): (ch: char)
    requires 0 <= n <= 9
    ensures IsDigit(ch) && DigitValue(ch) == n
  {
    "0123456789"[n]
  }

  function DigitValue(ch: char): int
    requires IsDigit(ch)
  {
    ch as int - '0' as int
  }

  /** `String(n)` for a non-negative integer: decimal digits, no leading zero. */
  function DecimalString(n: nat): (s: string)
    ensures 1 <= |s| && AllDigits(s)
    ensures |s| > 1 ==> s[0] != '0'
  {
    if n < 10 then [DigitChar(n)] else DecimalString(n / 10) + [DigitChar(n % 10)]
  }

  /** The value of a string of decimal digits (leading zeros allowed; `""` is 0). */
  function ParseDecimal(s: string): nat
    requires AllDigits(s)
  {
    if s == [] then 0 else 10 * ParseDecimal(s[..|s| - 1]) + DigitValue(s[|s| - 1])
  }

  lemma {:induction false} DecimalRoundTrip(n: nat)
    ensures ParseDecimal(DecimalString(n)) == n
  {
    if n >= 10 {
      DecimalRoundTrip(n / 10);
      var s := DecimalString(n);
      assert s[..|s| - 1] == DecimalString(n / 10);
    }
  }

  /** The number of digits of `n` is at most `k` when `n < 10^k` (here for k up to 4). */
  lemma DecimalLength(n: nat)
    ensures n < 10 ==> |DecimalString(n)| == 1
    ensures n < 100 ==> |DecimalString(n)| <= 2
    ensures n < 10000 ==> |DecimalString(n)| <= 4
  {
    if n >= 10 {
      DecimalLength(n / 10);
    }
  }

  /** `s.padStart(width, "0")`. */
  function PadStart(s: string, width: nat): (r: string)
    ensures |r| == if |s| >= width then |s| else width
    ensures r[|r| - |s|..] == s
    ensures forall i :: 0 <= i < |r| - |s| ==> r[i] == '0'
    decreases width - |s|
  {
    if |s| >= width then s else PadStart("0" + s, width)
  }

  /** Leading zeros do not change the value of a digit string. */
  lemma {:induction false} ParseDecimalLeadingZeros(z: string, s: string)
    requires AllDigits(s) && forall i :: 0 <= i < |z| ==> z[i] == '0'
    ensures AllDigits(z + s) && ParseDecimal(z + s) == ParseDecimal(s)
    decreases |s|
  {
    if s == [] {
      assert z + s == z;
      ZerosParseToZero(z);
    } else {
      ParseDecimalLeadingZeros(z, s[..|s| - 1]);
      assert (z + s)[..|z + s| - 1] == z + s[..|s| - 1];
    }
  }

  lemma {:induction false} ZerosParseToZero(z: string)
    requires forall i :: 0 <= i < |z| ==> z[i] == '0'
    ensures AllDigits(z) && ParseDecimal(z) == 0
  {
    if z != [] {
      ZerosParseToZero(z[..|z| - 1]);
    }
  }

  lemma PadStartValue(n: nat, width: nat)
    ensures AllDigits(PadStart(DecimalString(n), width))
    ensures ParseDecimal(PadStart(DecimalString(n), width)) == n
  {
    var s := DecimalString(n);
    var r := PadStart(s, width);
    var z := r[..|r| - |s|];
    assert r == z + s;
    ParseDecimalLeadingZeros(z, s);
    DecimalRoundTrip(n);
  }

  /** The `YYYY-MM-DD` form of a date (an `<input type="date">` value). */
  function IsoDateString(c: CivilDate): (s: string)
    requires ValidDate(c)
    ensures |s| == 10 && s[4] == '-' && s[7] == '-'
  {
    DateFieldWidths(c);
    DashJoin(PadStart(DecimalString(c.year), 4), PadStart(DecimalString(c.month), 2),
             PadStart(DecimalString(c.day), 2))
  }

  /** `y-m-d` for fields of widths 4, 2 and 2, with each field at its fixed position. */
  function DashJoin(y: string, m: string, d: string): (s: string)
    requires |y| == 4 && |m| == 2 && |d| == 2
    ensures |s| == 10 && s[4] == '-' && s[7] == '-'
    ensures s[..4] == y && s[5..7] == m && s[8..] == d
  {
    y + "-" + m + "-" + d
  }

  lemma DateFieldWidths(c: CivilDate)
    requires ValidDate(c)
    ensures |PadStart(DecimalString(c.year), 4)| == 4
    ensures |PadStart(DecimalString(c.month), 2)| == 2
    ensures |PadStart(DecimalString(c.day), 2)| == 2
  {
    assert c.day <= 31 by {
      assert DaysInMonth(c.year, c.month) <= 31;
    }
    PaddedWidth(c.year, 4);
    PaddedWidth(c.month, 2);
    PaddedWidth(c.day, 2);
  }

  lemma PaddedWidth(n: nat, w: nat)
    requires (w == 4 && n < 10000) || (w == 2 && n < 100)
    ensures |PadStart(DecimalString(n), w)| == w
  {
    DecimalLength(n);
  }

  /**
   * `new Date(s)` restricted to the `YYYY-MM-DD` form: the civil date the
   * string names, or `None` where JavaScript yields an Invalid Date.
   */
  function ParseIsoDate(s: string): (r: Option<CivilDate>)
    ensures r.Some? ==> ValidDate(r.value)
  {
    if |s| == 10 && s[4] == '-' && s[7] == '-'
       && AllDigits(s[..4]) && AllDigits(s[5..7]) && AllDigits(s[8..])
    then
      var c := CivilDate(ParseDecimal(s[..4]), ParseDecimal(s[5..7]), ParseDecimal(s[8..]));
      if ValidDate(c) then Some(c) else None
    else None
  }

  /** A string that reads as a date is ten characters long and starts with a digit. */
  lemma ParsedDateShape(s: string)
    requires ParseIsoDate(s).Some?
    ensures |s| == 10 && IsDigit(s[0])
  {
    assert s[..4][0] == s[0];
  }

  /** A `YYYY-MM-DD` string whose digit fields spell out a valid date reads as that date. */
  lemma ParseIsoDateOfDigits(s: string, c: CivilDate)
    requires |s| == 10 && s[4] == '-' && s[7] == '-'
    requires AllDigits(s[..4]) && AllDigits(s[5..7]) && AllDigits(s[8..])
    requires ValidDate(c)
    requires c.year == 1000 * DigitValue(s[0]) + 100 * DigitValue(s[1]) + 10 * DigitValue(s[2]) + DigitValue(s[3])
    requires c.month == 10 * DigitValue(s[5]) + DigitValue(s[6])
    requires c.day == 10 * DigitValue(s[8]) + DigitValue(s[9])
    ensures ParseIsoDate(s) == Some(c)
  {
    FourDigitValue(s[..4]);
    TwoDigitValue(s[5..7]);
    TwoDigitValue(s[8..]);
  }

  lemma FourDigitValue(s: string)
    requires |s| == 4 && AllDigits(s)
    ensures ParseDecimal(s) == 1000 * DigitValue(s[0]) + 100 * DigitValue(s[1]) + 10 * DigitValue(s[2]) + DigitValue(s[3])
  {
    var a, b, c := s[..1], s[..2], s[..3];
    assert a[..0] == [] && b[..1] == a && c[..2] == b && s[..3] == c;
    assert ParseDecimal(a) == DigitValue(s[0]);
    assert ParseDecimal(b) == 10 * DigitValue(s[0]) + DigitValue(s[1]);
    assert ParseDecimal(c) == 100 * DigitValue(s[0]) + 10 * DigitValue(s[1]) + DigitValue(s[2]);
  }

  lemma TwoDigitValue(s: string)
    requires |s| == 2 && AllDigits(s)
    ensures ParseDecimal(s) == 10 * DigitValue(s[0]) + DigitValue(s[1])
  {
    var a := s[..1];
    assert a[..0] == [] && s[..1] == a;
    assert ParseDecimal(a) == DigitValue(s[0]);
  }

  /** A single digit is padded with one zero. */
  lemma PadOneDigit(s: string)
    requires |s| == 1
    ensures PadStart(s, 2) == ['0'] + s
  {
    assert PadStart(s, 2) == PadStart("0" + s, 2);
  }

  /** Printing a date and parsing it back gives the date. */
  lemma IsoDateRoundTrip(c: CivilDate)
    requires ValidDate(c)
    ensures ParseIsoDate(IsoDateString(c)) == Some(c)
  {
    DateFieldWidths(c);
    PadStartValue(c.year, 4);
    PadStartValue(c.month, 2);
    PadStartValue(c.day, 2);
  }
}
