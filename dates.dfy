/**
 * Calendar dates and times as the services format and parse them with Go's
 * `time` layouts ("2006-01-02", "02/01/2006", "02012006", "2006-01-02T15:04:05",
 * "02/01/2006 15:04", "15:04:05"). Time zones are not modelled: every value is a
 * wall-clock reading.
 */
module Dates {
  import opened Wrappers
  import opened Text

  datatype Date = Date(year: int, month: int, day: int)

  datatype DateTime = DateTime(date: Date, hour: int, minute: int, second: int)

  /** Go's zero `time.Time`: 0001-01-01 00:00:00. */
  const ZeroTime: DateTime := DateTime(Date(1, 1, 1), 0, 0, 0)

  predicate IsLeap(year: int)
  {
    year % 4 == 0 && (year % 100 != 0 || year % 400 == 0)
  }

  function DaysIn(month: int, year: int): (n: int)
    requires 1 <= month <= 12
    ensures 28 <= n <= 31
  {
    if month == 2 then (if IsLeap(year) then 29 else 28)
    else if month == 4 || month == 6 || month == 9 || month == 11 then 30
    else 31
  }

  predicate ValidDate(d: Date)
  {
    1 <= d.month <= 12 && 1 <= d.day <= DaysIn(d.month, d.year)
  }

  predicate ValidDateTime(t: DateTime)
  {
    ValidDate(t.date) && 0 <= t.hour < 24 && 0 <= t.minute < 60 && 0 <= t.second < 60
  }

  /** Days in the months of `year` before `month`. */
  function DaysBeforeMonth(month: int, year: int): int
    requires 1 <= month <= 12
  {
    if month == 1 then 0 else DaysBeforeMonth(month - 1, year) + DaysIn(month - 1, year)
  }

  function YearLength(year: int): int
  {
    if IsLeap(year) then 366 else 365
  }

  /** Days from 0001-01-01 to the first of January of `year` (proleptic Gregorian calendar). */
  function DaysBeforeYear(year: int): int
    decreases if year >= 1 then year else 2 - year
  {
    if year == 1 then 0
    else if year > 1 then DaysBeforeYear(year - 1) + YearLength(year - 1)
    else DaysBeforeYear(year + 1) - YearLength(year)
  }

  /** The day number of a date, 0 for 0001-01-01. */
  function DayNumber(d: Date): int
    requires ValidDate(d)
  {
    DaysBeforeYear(d.year) + DaysBeforeMonth(d.month, d.year) + d.day - 1
  }

  /** `a` is not later than `b`: field by field, from the year down to the second. */
  predicate NotAfter(a: DateTime, b: DateTime)
  {
    if a.date.year != b.date.year then a.date.year < b.date.year
    else if a.date.month != b.date.month then a.date.month < b.date.month
    else if a.date.day != b.date.day then a.date.day < b.date.day
    else if a.hour != b.hour then a.hour < b.hour
    else if a.minute != b.minute then a.minute < b.minute
    else a.second <= b.second
  }

  /** The comparison is a total order: reflexive, total, antisymmetric and transitive. */
  lemma NotAfterTotalOrder(a: DateTime, b: DateTime, c: DateTime)
    ensures NotAfter(a, a)
    ensures NotAfter(a, b) || NotAfter(b, a)
    ensures NotAfter(a, b) && NotAfter(b, a) ==> a == b
    ensures NotAfter(a, b) && NotAfter(b, c) ==> NotAfter(a, c)
  {
  }

  /** `start <= t <= end`, the period filter of the reports. */
  predicate InPeriod(t: DateTime, start: DateTime, end: DateTime)
  {
    NotAfter(start, t) && NotAfter(t, end)
  }

  /** The following calendar day. */
  function NextDay(d: Date): (r: Date)
    requires ValidDate(d)
    ensures ValidDate(r)
  {
    if d.day < DaysIn(d.month, d.year) then Date(d.year, d.month, d.day + 1)
    else if d.month < 12 then Date(d.year, d.month + 1, 1)
    else Date(d.year + 1, 1, 1)
  }

  /** The months of a year add up to 365 or 366 days. */
  lemma MonthsOfYear(year: int)
    ensures DaysBeforeMonth(12, year) + 31 == YearLength(year)
  {
    var feb := DaysIn(2, year);
    assert DaysBeforeMonth(2, year) == 31;
    assert DaysBeforeMonth(3, year) == 31 + feb;
    assert DaysBeforeMonth(4, year) == 62 + feb;
    assert DaysBeforeMonth(5, year) == 92 + feb;
    assert DaysBeforeMonth(6, year) == 123 + feb;
    assert DaysBeforeMonth(7, year) == 153 + feb;
    assert DaysBeforeMonth(8, year) == 184 + feb;
    assert DaysBeforeMonth(9, year) == 215 + feb;
    assert DaysBeforeMonth(10, year) == 245 + feb;
    assert DaysBeforeMonth(11, year) == 276 + feb;
    assert DaysBeforeMonth(12, year) == 306 + feb;
  }

  /** The day numbers of consecutive New Years differ by the length of the year. */
  lemma DaysInYear(year: int)
    ensures DaysBeforeYear(year + 1) - DaysBeforeYear(year) == YearLength(year)
  {
  }

  /** `NextDay` advances the day number by exactly one. */
  lemma NextDayNumber(d: Date)
    requires ValidDate(d)
    ensures DayNumber(NextDay(d)) == DayNumber(d) + 1
  {
    if d.day == DaysIn(d.month, d.year) && d.month == 12 {
      MonthsOfYear(d.year);
      DaysInYear(d.year);
    }
  }

  /** `t.AddDate(0, 0, n)` for `n >= 0`. */
  function AddDays(d: Date, n: nat): (r: Date)
    requires ValidDate(d)
    ensures ValidDate(r)
    ensures DayNumber(r) == DayNumber(d) + n
    decreases n
  {
    if n == 0 then d
    else
      NextDayNumber(d);
      AddDays(NextDay(d), n - 1)
  }

  /** `a` is an earlier calendar day than `b`: by year, then month, then day. */
  predicate DateBefore(a: Date, b: Date)
  {
    a.year < b.year || (a.year == b.year && (a.month < b.month || (a.month == b.month && a.day < b.day)))
  }

  /** A month ends no later than a later month begins. */
  lemma {:induction false} MonthStartsGrow(m1: int, m2: int, year: int)
    requires 1 <= m1 < m2 <= 12
    ensures DaysBeforeMonth(m1, year) + DaysIn(m1, year) <= DaysBeforeMonth(m2, year)
    decreases m2 - m1
  {
    if m1 + 1 < m2 {
      MonthStartsGrow(m1, m2 - 1, year);
    }
  }

  /** A year ends no later than a later year begins. */
  lemma {:induction false} YearStartsGrow(y1: int, y2: int)
    requires y1 < y2
    ensures DaysBeforeYear(y1) + YearLength(y1) <= DaysBeforeYear(y2)
    decreases y2 - y1
  {
    DaysInYear(y2 - 1);
    if y1 + 1 < y2 {
      YearStartsGrow(y1, y2 - 1);
    }
  }

  /** The day number of a date falls within its year. */
  lemma DayInYear(d: Date)
    requires ValidDate(d)
    ensures DaysBeforeYear(d.year) <= DayNumber(d) < DaysBeforeYear(d.year) + YearLength(d.year)
  {
    MonthsOfYear(d.year);
    if 1 < d.month {
      MonthStartsGrow(1, d.month, d.year);
    }
    if d.month < 12 {
      MonthStartsGrow(d.month, 12, d.year);
    }
  }

  /** Day numbers follow the calendar: an earlier day has a smaller number. */
  lemma DayNumberOrder(a: Date, b: Date)
    requires ValidDate(a) && ValidDate(b) && DateBefore(a, b)
    ensures DayNumber(a) < DayNumber(b)
  {
    if a.year < b.year {
      DayInYear(a);
      DayInYear(b);
      YearStartsGrow(a.year, b.year);
    } else if a.month < b.month {
      MonthStartsGrow(a.month, b.month, a.year);
    }
  }

  /** Two valid dates with the same day number are the same date. */
  lemma DayNumberInjective(a: Date, b: Date)
    requires ValidDate(a) && ValidDate(b) && DayNumber(a) == DayNumber(b)
    ensures a == b
  {
    if DateBefore(a, b) {
      DayNumberOrder(a, b);
    } else if DateBefore(b, a) {
      DayNumberOrder(b, a);
    }
  }

  // ---------------------------------------------------------------- formatting

  /** Go's year element: at least four digits, a sign in front of negative years. */
  function FormatYear(year: int): string
  {
    if year < 0 then "-" + PadZeros(NatToString(-year), 4) else PadZeros(NatToString(year), 4)
  }

  function Two(n: int): string
  {
    ZeroPad(n, 2)
  }

  /** Layout "2006-01-02". */
  function FormatIsoDate(d: Date): string
  {
    FormatYear(d.year) + "-" + Two(d.month) + "-" + Two(d.day)
  }

  /** Layout "02/01/2006". */
  function FormatSlashDate(d: Date): string
  {
    Two(d.day) + "/" + Two(d.month) + "/" + FormatYear(d.year)
  }

  /** Layout "02012006", the date field of the access key. */
  function FormatCompactDate(d: Date): string
  {
    Two(d.day) + Two(d.month) + FormatYear(d.year)
  }

  /** Layout "15:04:05". */
  function FormatClock(t: DateTime): string
  {
    Two(t.hour) + ":" + Two(t.minute) + ":" + Two(t.second)
  }

  /** Layout "2006-01-02T15:04:05", the XAdES signing time. */
  function FormatSigningTime(t: DateTime): string
  {
    FormatIsoDate(t.date) + "T" + FormatClock(t)
  }

  /** Layout "02/01/2006 15:04". */
  function FormatSlashDateTime(t: DateTime): string
  {
    FormatSlashDate(t.date) + " " + Two(t.hour) + ":" + Two(t.minute)
  }

  // ---------------------------------------------------------------- parsing

  /** `time.Parse("2006-01-02", s)`: four-digit year, two-digit month and day, a real calendar day, nothing more. */
  function ParseIsoDate(s: string): (r: Option<Date>)
    ensures r.Some? ==> ValidDate(r.value) && 0 <= r.value.year <= 9999
    ensures r.Some? ==> |s| == 10
  {
    if |s| != 10 || s[4] != '-' || s[7] != '-' then None
    else if !AllDigits(s[..4]) || !AllDigits(s[5..7]) || !AllDigits(s[8..]) then None
    else
      DigitsValueBound(s[..4]);
      var d := Date(DigitsValue(s[..4]), DigitsValue(s[5..7]), DigitsValue(s[8..]));
      if ValidDate(d) then Some(d) else None
  }

  /** Two zero-padded digits read back as their value. */
  lemma TwoDigits(n: int)
    requires 0 <= n < 100
    ensures |Two(n)| == 2 && AllDigits(Two(n)) && DigitsValue(Two(n)) == n
  {
    ZeroPadWidth(n, 2);
  }

  lemma FourDigits(n: int)
    requires 0 <= n < 10000
    ensures FormatYear(n) == ZeroPad(n, 4)
    ensures |FormatYear(n)| == 4 && AllDigits(FormatYear(n)) && DigitsValue(FormatYear(n)) == n
  {
    ZeroPadWidth(n, 4);
  }

  /** Parsing a formatted date gives it back, for the years the layout can express. */
  lemma ParseFormatIsoDate(d: Date)
    requires ValidDate(d) && 0 <= d.year <= 9999
    ensures ParseIsoDate(FormatIsoDate(d)) == Some(d)
  {
    var y, m, dd := FormatYear(d.year), Two(d.month), Two(d.day);
    FourDigits(d.year);
    TwoDigits(d.month);
    TwoDigits(d.day);
    var s := FormatIsoDate(d);
    assert s == y + "-" + m + "-" + dd;
    assert s[..4] == y;
    assert s[5..7] == m;
    assert s[8..] == dd;
  }
}
