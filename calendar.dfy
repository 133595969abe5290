/**
 * The proleptic Gregorian calendar of Python's `datetime`: dates, times of
 * day, day arithmetic (`timedelta`), `toordinal`, `weekday`, the text forms
 * `%Y-%m-%d` and `%Y-%m-%d %H:%M` of `strftime`/`strptime`, and the
 * conversions between naive datetimes and epoch milliseconds.
 *
 * The canonical date text is the calendar date of ISO 8601 in extended
 * format (section 4.1.2.2 of ISO 8601:2004): four-digit year, two-digit
 * month and two-digit day separated by hyphens.
 */
module Calendar {
  import opened Wrappers
  import opened Text

  /** `datetime.MINYEAR` and `datetime.MAXYEAR`. */
  const MinYear: int := 1
  const MaxYear: int := 9999

  datatype Date = Date(year: int, month: int, day: int)

  /** A naive `datetime` to the second (microseconds never matter to the model). */
  datatype DateTime = DateTime(date: Date, hour: int, minute: int, second: int)

  predicate IsLeap(y: int) {
    y % 4 == 0 && (y % 100 != 0 || y % 400 == 0)
  }

  function DaysInMonth(y: int, m: int): (n: int)
    requires 1 <= m <= 12
    ensures 28 <= n <= 31
    ensures n == 31 <==> m in {1, 3, 5, 7, 8, 10, 12}
    ensures n == 30 <==> m in {4, 6, 9, 11}
    ensures m == 2 ==> (n == 29 <==> IsLeap(y))
  {
    if m == 2 then (if IsLeap(y) then 29 else 28)
    else if m == 4 || m == 6 || m == 9 || m == 11 then 30
    else 31
  }

  function DaysInYear(y: int): int {
    if IsLeap(y) then 366 else 365
  }

  /** A real calendar day (Gregorian month lengths, leap years). */
  predicate Valid(d: Date) {
    1 <= d.month <= 12 && 1 <= d.day <= DaysInMonth(d.year, d.month)
  }

  /** Within the years `datetime` can represent. */
  predicate InRange(d: Date) {
    MinYear <= d.year <= MaxYear
  }

  /** A date Python's `date` constructor accepts. */
  predicate IsPyDate(d: Date) {
    Valid(d) && InRange(d)
  }

  predicate ValidTimeOfDay(hour: int, minute: int, second: int) {
    0 <= hour < 24 && 0 <= minute < 60 && 0 <= second < 60
  }

  /** A datetime Python's `datetime` constructor accepts. */
  predicate IsPyDateTime(t: DateTime) {
    IsPyDate(t.date) && ValidTimeOfDay(t.hour, t.minute, t.second)
  }

  // ---------------------------------------------------------------------------
  // Day arithmetic

  function NextDay(d: Date): (r: Date)
    requires Valid(d)
    ensures Valid(r)
  {
    if d.day < DaysInMonth(d.year, d.month) then d.(day := d.day + 1)
    else if d.month < 12 then Date(d.year, d.month + 1, 1)
    else Date(d.year + 1, 1, 1)
  }

  function PrevDay(d: Date): (r: Date)
    requires Valid(d)
    ensures Valid(r)
  {
    if d.day > 1 then d.(day := d.day - 1)
    else if d.month > 1 then Date(d.year, d.month - 1, DaysInMonth(d.year, d.month - 1))
    else Date(d.year - 1, 12, 31)
  }

  /** `date + timedelta(days=k)` on the unbounded proleptic calendar. */
  function AddDays(d: Date, k: int): (r: Date)
    requires Valid(d)
    ensures Valid(r)
    decreases if k < 0 then -k else k
  {
    if k == 0 then d
    else if k > 0 then AddDays(NextDay(d), k - 1)
    else AddDays(PrevDay(d), k + 1)
  }

  /** Days in the years before `y` (Python's `_days_before_year`). */
  function DaysBeforeYear(y: int): int {
    var y1 := y - 1;
    y1 * 365 + y1 / 4 - y1 / 100 + y1 / 400
  }

  /** Days in the months of year `y` before month `m` (Python's `_days_before_month`). */
  function DaysBeforeMonth(y: int, m: int): int
    requires 1 <= m <= 12
  {
    var table := [0, 31, 59, 90, 120, 151, 181, 212, 243, 273, 304, 334];
    table[m - 1] + (if m > 2 && IsLeap(y) then 1 else 0)
  }

  /** `date.toordinal()`: 0001-01-01 is day 1. */
  function Ordinal(d: Date): int
    requires Valid(d)
  {
    DaysBeforeYear(d.year) + DaysBeforeMonth(d.year, d.month) + d.day
  }

  /** Stepping the year by one adds one to `y / n` exactly when `n` divides `y`. */
  lemma DivStep(y: int, n: int)
    requires n == 4 || n == 100 || n == 400
    ensures y / n - (y - 1) / n == if y % n == 0 then 1 else 0
  {
  }

  /** The leap rule as a count of the three divisibility tests. */
  lemma LeapCount(y: int)
    ensures (if y % 4 == 0 then 1 else 0) - (if y % 100 == 0 then 1 else 0) + (if y % 400 == 0 then 1 else 0)
      == if IsLeap(y) then 1 else 0
  {
    if y % 400 == 0 {
      var k := y / 400;
      assert y == 100 * (4 * k);
      assert y % 100 == 0;
      assert y == 4 * (100 * k);
      assert y % 4 == 0;
    } else if y % 100 == 0 {
      var k := y / 100;
      assert y == 4 * (25 * k);
      assert y % 4 == 0;
    }
  }

  lemma YearLength(y: int)
    ensures DaysBeforeYear(y + 1) == DaysBeforeYear(y) + DaysInYear(y)
  {
    DivStep(y, 4);
    DivStep(y, 100);
    DivStep(y, 400);
    LeapCount(y);
  }

  /** The day after is one ordinal later. */
  lemma OrdinalNextDay(d: Date)
    requires Valid(d)
    ensures Ordinal(NextDay(d)) == Ordinal(d) + 1
  {
    if d.day == DaysInMonth(d.year, d.month) && d.month == 12 {
      YearLength(d.year);
    }
  }

  lemma OrdinalPrevDay(d: Date)
    requires Valid(d)
    ensures Ordinal(PrevDay(d)) == Ordinal(d) - 1
  {
    if d.day == 1 && d.month == 1 {
      YearLength(d.year - 1);
    }
  }

  /** `timedelta(days=k)` moves the ordinal by exactly `k`. */
  lemma {:induction false} OrdinalAddDays(d: Date, k: int)
    requires Valid(d)
    ensures Ordinal(AddDays(d, k)) == Ordinal(d) + k
    decreases if k < 0 then -k else k
  {
    if k > 0 {
      OrdinalNextDay(d);
      OrdinalAddDays(NextDay(d), k - 1);
    } else if k < 0 {
      OrdinalPrevDay(d);
      OrdinalAddDays(PrevDay(d), k + 1);
    }
  }

  /** A date's ordinal lies within its year's span of ordinals. */
  lemma OrdinalWithinYear(d: Date)
    requires Valid(d)
    ensures DaysBeforeYear(d.year) < Ordinal(d) <= DaysBeforeYear(d.year + 1)
  {
    YearLength(d.year);
  }

  /** Every year has at least 365 days. */
  lemma {:induction false} DaysBeforeYearGrows(a: int, b: int)
    requires a <= b
    ensures DaysBeforeYear(a) + 365 * (b - a) <= DaysBeforeYear(b)
    decreases b - a
  {
    if a < b {
      YearLength(a);
      DaysBeforeYearGrows(a + 1, b);
    }
  }

  /** Ordinals and years are ordered alike. */
  lemma YearsFollowOrdinals(d: Date, e: Date)
    requires Valid(d) && Valid(e) && Ordinal(d) <= Ordinal(e)
    ensures d.year <= e.year
  {
    if d.year > e.year {
      OrdinalWithinYear(d);
      OrdinalWithinYear(e);
      DaysBeforeYearGrows(e.year + 1, d.year);
    }
  }

  /** Dates at most 365 days apart are at most one year apart. */
  lemma YearsNear(d: Date, e: Date)
    requires Valid(d) && Valid(e) && -365 <= Ordinal(e) - Ordinal(d) <= 365
    ensures -1 <= e.year - d.year <= 1
  {
    OrdinalWithinYear(d);
    OrdinalWithinYear(e);
    if e.year >= d.year + 2 {
      DaysBeforeYearGrows(d.year + 1, e.year);
    } else if d.year >= e.year + 2 {
      DaysBeforeYearGrows(e.year + 1, d.year);
    }
  }

  /** Year 1 starts at ordinal 1: a date is in year 1 or later exactly when its ordinal is positive. */
  lemma OrdinalPositive(d: Date)
    requires Valid(d)
    ensures Ordinal(d) >= 1 <==> d.year >= MinYear
  {
    OrdinalWithinYear(d);
    if d.year >= MinYear {
      DaysBeforeYearGrows(MinYear, d.year);
    } else {
      DaysBeforeYearGrows(d.year + 1, MinYear);
    }
  }

  /** A move of under a year changes the year by at most one. */
  lemma AddDaysNearYear(d: Date, k: int)
    requires Valid(d) && -365 <= k <= 365
    ensures -1 <= AddDays(d, k).year - d.year <= 1
  {
    OrdinalAddDays(d, k);
    YearsNear(d, AddDays(d, k));
  }

  /** `date.weekday()`: Monday is 0 and Sunday is 6. */
  function Weekday(d: Date): (w: int)
    requires Valid(d)
    ensures 0 <= w < 7
  {
    (Ordinal(d) + 6) % 7
  }

  /** Adding whole weeks does not change the remainder modulo 7. */
  lemma ModWeeks(x: int, weeks: int)
    ensures (x + 7 * weeks) % 7 == x % 7
  {
    var q := x / 7;
    assert x + 7 * weeks == 7 * (q + weeks) + x % 7;
  }

  /** Going back `Weekday(d)` days lands on a Monday. */
  lemma MondayOfWeek(d: Date)
    requires Valid(d)
    ensures Weekday(AddDays(d, -Weekday(d))) == 0
  {
    var o := Ordinal(d);
    var w := Weekday(d);
    OrdinalAddDays(d, -w);
    var q := (o + 6) / 7;
    assert o + 6 - w == 7 * q;
    ModWeeks(0, q);
  }

  /** Moving by a whole number of weeks keeps the weekday. */
  lemma WeekdayAfterWeeks(d: Date, weeks: int)
    requires Valid(d)
    ensures Weekday(AddDays(d, 7 * weeks)) == Weekday(d)
  {
    OrdinalAddDays(d, 7 * weeks);
    ModWeeks(Ordinal(d) + 6, weeks);
  }

  /** The day `7 * weeks - Weekday(d)` days from `d` is a Monday, `weeks` weeks after the Monday of `d`'s week. */
  lemma WeekStart(d: Date, weeks: int)
    requires Valid(d)
    ensures Weekday(AddDays(d, 7 * weeks - Weekday(d))) == 0
    ensures Ordinal(AddDays(d, 7 * weeks - Weekday(d))) == Ordinal(d) - Weekday(d) + 7 * weeks
  {
    OrdinalAddDays(d, 7 * weeks - Weekday(d));
    WeekArith(Ordinal(d), weeks);
  }

  /** From ordinal `o`, going back to its Monday and on by whole weeks lands on a Monday. */
  lemma WeekArith(o: int, weeks: int)
    ensures (o + 7 * weeks - (o + 6) % 7 + 6) % 7 == 0
  {
    var q := (o + 6) / 7;
    assert o + 7 * weeks - (o + 6) % 7 + 6 == 0 + 7 * (q + weeks);
    ModWeeks(0, q + weeks);
  }

  /** `d.replace(day=1)`. */
  function FirstOfMonth(d: Date): (r: Date)
    requires Valid(d)
    ensures Valid(r) && r.year == d.year && r.month == d.month && r.day == 1
  {
    d.(day := 1)
  }

  /** `d.replace(day=1) - timedelta(days=1)`: the last day of the previous month. */
  lemma LastDayOfPreviousMonth(d: Date)
    requires Valid(d)
    ensures var r := AddDays(FirstOfMonth(d), -1);
      && r.month == (if d.month == 1 then 12 else d.month - 1)
      && r.year == (if d.month == 1 then d.year - 1 else d.year)
      && r.day == DaysInMonth(r.year, r.month)
  {
    var f := FirstOfMonth(d);
    assert AddDays(f, -1) == AddDays(PrevDay(f), 0);
  }

  // ---------------------------------------------------------------------------
  // Minutes and seconds

  /** Seconds since 0001-01-01 00:00:00 minus one day, an absolute time line for naive datetimes. */
  function AbsSeconds(t: DateTime): int
    requires Valid(t.date)
  {
    Ordinal(t.date) * 86400 + t.hour * 3600 + t.minute * 60 + t.second
  }

  /** `t - timedelta(minutes=n)`; whole hours are `60 * n` minutes. */
  function MinusMinutes(t: DateTime, n: int): (r: DateTime)
    requires Valid(t.date) && ValidTimeOfDay(t.hour, t.minute, t.second)
    ensures Valid(r.date) && ValidTimeOfDay(r.hour, r.minute, r.second)
    ensures r.second == t.second
  {
    var m := t.hour * 60 + t.minute - n;
    var rem := m % 1440;
    DateTime(AddDays(t.date, m / 1440), rem / 60, rem % 60, t.second)
  }

  /** Subtracting `n` minutes moves the absolute time back by exactly `60 * n` seconds. */
  lemma MinusMinutesExact(t: DateTime, n: int)
    requires Valid(t.date) && ValidTimeOfDay(t.hour, t.minute, t.second)
    ensures AbsSeconds(MinusMinutes(t, n)) == AbsSeconds(t) - 60 * n
  {
    var m := t.hour * 60 + t.minute - n;
    OrdinalAddDays(t.date, m / 1440);
    assert m == (m / 1440) * 1440 + m % 1440;
    var rem := m % 1440;
    assert rem == (rem / 60) * 60 + rem % 60;
  }

  /** `t + timedelta(days=k)`: same time of day, date moved. */
  function PlusDays(t: DateTime, k: int): (r: DateTime)
    requires Valid(t.date)
    ensures Valid(r.date)
  {
    t.(date := AddDays(t.date, k))
  }

  // ---------------------------------------------------------------------------
  // Text forms

  /** `strftime('%Y-%m-%d')`. */
  function FormatDate(d: Date): (s: string)
    requires IsPyDate(d)
    ensures |s| == 10
  {
    Pad(d.year, 4) + "-" + Pad(d.month, 2) + "-" + Pad(d.day, 2)
  }

  /** `strftime('%Y-%m-%d %H:%M')`. */
  function FormatMinute(t: DateTime): (s: string)
    requires IsPyDateTime(t)
    ensures |s| == 16
  {
    FormatDate(t.date) + " " + Pad(t.hour, 2) + ":" + Pad(t.minute, 2)
  }

  /** `strftime('%d/%m/%Y %H:%M')`. */
  function FormatDayFirst(t: DateTime): (s: string)
    requires IsPyDateTime(t)
  {
    Pad(t.date.day, 2) + "/" + Pad(t.date.month, 2) + "/" + Pad(t.date.year, 4) + " "
      + Pad(t.hour, 2) + ":" + Pad(t.minute, 2)
  }

  /** The digits of `s` at indices `i .. i + n` read as a number. */
  function FieldAt(s: string, i: nat, n: nat): nat
    requires i + n <= |s| && AllDigits(s[i..i + n])
  {
    DigitsValue(s[i..i + n])
  }

  /** `s` has the shape `dddd-dd-dd`. */
  predicate IsDateShape(s: string) {
    |s| == 10 && s[4] == '-' && s[7] == '-'
    && AllDigits(s[0..4]) && AllDigits(s[5..7]) && AllDigits(s[8..10])
  }

  /**
   * `datetime.strptime(s, '%Y-%m-%d')` on text of the shape `dddd-dd-dd` (the
   * only text the model parses this way): `None` stands for the `ValueError`
   * of a month, day or year that no date has.
   */
  function ParseDate(s: string): (r: Option<Date>)
    ensures r.Some? ==> IsPyDate(r.value)
  {
    if !IsDateShape(s) then None
    else
      var d := Date(FieldAt(s, 0, 4), FieldAt(s, 5, 2), FieldAt(s, 8, 2));
      if IsPyDate(d) then Some(d) else None
  }

  /** Formatting then parsing a date gives it back. */
  lemma ParseFormatDate(d: Date)
    requires IsPyDate(d)
    ensures ParseDate(FormatDate(d)) == Some(d)
  {
    var s := FormatDate(d);
    assert s[0..4] == Pad(d.year, 4);
    assert s[5..7] == Pad(d.month, 2);
    assert s[8..10] == Pad(d.day, 2);
  }

  /** Parsing then formatting gives the text back: the accepted text is canonical. */
  lemma FormatParseDate(s: string)
    requires ParseDate(s).Some?
    ensures FormatDate(ParseDate(s).value) == s
  {
    var d := ParseDate(s).value;
    PadDigits(s[0..4]);
    PadDigits(s[5..7]);
    PadDigits(s[8..10]);
    assert Pad(d.year, 4) == s[0..4];
    assert Pad(d.month, 2) == s[5..7];
    assert Pad(d.day, 2) == s[8..10];
    assert s == s[0..4] + [s[4]] + s[5..7] + [s[7]] + s[8..10];
  }

  /** `s` has the shape `dddd-dd-dd dd:dd`. */
  predicate IsMinuteShape(s: string) {
    |s| == 16 && IsDateShape(s[..10]) && s[10] == ' ' && s[13] == ':'
    && AllDigits(s[11..13]) && AllDigits(s[14..16])
  }

  /** `pd.to_datetime` of a `YYYY-MM-DD HH:MM` text: `None` when no such datetime exists. */
  function ParseMinute(s: string): (r: Option<DateTime>)
    ensures r.Some? ==> IsPyDateTime(r.value) && r.value.second == 0
  {
    if !IsMinuteShape(s) then None
    else
      match ParseDate(s[..10])
      case None => None
      case Some(d) =>
        var t := DateTime(d, FieldAt(s, 11, 2), FieldAt(s, 14, 2), 0);
        if IsPyDateTime(t) then Some(t) else None
  }

  lemma ParseFormatMinute(t: DateTime)
    requires IsPyDateTime(t) && t.second == 0
    ensures ParseMinute(FormatMinute(t)) == Some(t)
  {
    var s := FormatMinute(t);
    assert s[..10] == FormatDate(t.date);
    ParseFormatDate(t.date);
    assert s[11..13] == Pad(t.hour, 2);
    assert s[14..16] == Pad(t.minute, 2);
  }

  // ---------------------------------------------------------------------------
  // Epoch milliseconds (naive datetimes read as UTC, as pandas does)

  const EpochDate: Date := Date(1970, 1, 1)

  /** Days since 1970-01-01. */
  function UnixDays(d: Date): int
    requires Valid(d)
  {
    Ordinal(d) - Ordinal(EpochDate)
  }

  /** Milliseconds since the epoch of a naive datetime read as UTC. */
  function NaiveMillis(t: DateTime): int
    requires Valid(t.date)
  {
    (UnixDays(t.date) * 86400 + t.hour * 3600 + t.minute * 60 + t.second) * 1000
  }

  /** `pd.to_datetime(ms, unit='ms')`, truncated to the second. */
  function FromMillis(ms: int): (t: DateTime)
    ensures Valid(t.date) && ValidTimeOfDay(t.hour, t.minute, t.second)
  {
    var secs := ms / 1000;
    var days := secs / 86400;
    var rem := secs % 86400;
    DateTime(AddDays(EpochDate, days), rem / 3600, rem % 3600 / 60, rem % 60)
  }

  /** Reading the milliseconds back loses only the sub-second part. */
  lemma FromMillisExact(ms: int)
    ensures NaiveMillis(FromMillis(ms)) == ms - ms % 1000
  {
    var secs := ms / 1000;
    var days := secs / 86400;
    var rem := secs % 86400;
    OrdinalAddDays(EpochDate, days);
    assert secs == days * 86400 + rem;
    assert rem == (rem / 3600) * 3600 + (rem % 3600 / 60) * 60 + rem % 60;
    assert ms == secs * 1000 + ms % 1000;
  }
}
