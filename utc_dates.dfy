/**
 * `todayUTC` and `dateToUTCRange`: a calendar day written `YYYY-MM-DD` and
 * the window of Unix seconds from its first to its last second in UTC, on
 * the proleptic Gregorian calendar the JavaScript `Date` uses.
 */
module UtcDates {
  import opened Wrappers
  import opened Text

  const SecondsPerDay := 86400
  /** The offset of 23:59:59 from 00:00:00 of the same day. */
  const LastSecond := 86399

  datatype Date = Date(year: int, month: int, day: int)

  /** A window of Unix seconds, both ends included. */
  datatype Window = Window(from: int, to: int)

  predicate IsLeapYear(y: int)
  {
    (y % 4 == 0 && y % 100 != 0) || y % 400 == 0
  }

  function YearLength(y: int): int
  {
    if IsLeapYear(y) then 366 else 365
  }

  function DaysInMonth(y: int, m: int): int
  {
    if m == 2 then (if IsLeapYear(y) then 29 else 28)
    else if m == 4 || m == 6 || m == 9 || m == 11 then 30
    else 31
  }

  /** A date the four-digit `YYYY-MM-DD` form can write and the calendar has. */
  predicate ValidDate(d: Date)
  {
    0 <= d.year <= 9999 && 1 <= d.month <= 12 && 1 <= d.day <= DaysInMonth(d.year, d.month)
  }

  /** Days from 1 January 1970 to 1 January of year `y` (negative before 1970). */
  function DaysBeforeYear(y: int): int
    decreases if y < 1970 then 1970 - y else y - 1970
  {
    if y == 1970 then 0
    else if y > 1970 then DaysBeforeYear(y - 1) + YearLength(y - 1)
    else DaysBeforeYear(y + 1) - YearLength(y)
  }

  /** Days from 1 January to the first day of each month of a common year. */
  const CommonYearMonthStarts: seq<int> := [0, 31, 59, 90, 120, 151, 181, 212, 243, 273, 304, 334]

  /** Days from 1 January to the first day of month `m` of year `y`. */
  function DaysBeforeMonth(y: int, m: int): int
    requires 1 <= m <= 12
  {
    CommonYearMonthStarts[m - 1] + (if m > 2 && IsLeapYear(y) then 1 else 0)
  }

  /** Days from 1 January 1970 to `d`. */
  function EpochDay(d: Date): int
    requires ValidDate(d)
  {
    DaysBeforeYear(d.year) + DaysBeforeMonth(d.year, d.month) + d.day - 1
  }

  /** The window of a valid day: its midnight and, 86399 seconds later, its last second. */
  function DayWindow(d: Date): (w: Window)
    requires ValidDate(d)
    ensures w.to - w.from == LastSecond
    ensures w.from % SecondsPerDay == 0
    ensures w.from / SecondsPerDay == EpochDay(d)
  {
    var from := EpochDay(d) * SecondsPerDay;
    Window(from, from + LastSecond)
  }

  /** The calendar day after `d`. */
  function NextDay(d: Date): Date
    requires ValidDate(d)
  {
    if d.day < DaysInMonth(d.year, d.month) then Date(d.year, d.month, d.day + 1)
    else if d.month < 12 then Date(d.year, d.month + 1, 1)
    else Date(d.year + 1, 1, 1)
  }

  /** Calendar order. */
  predicate Before(a: Date, b: Date)
  {
    a.year < b.year || (a.year == b.year && (a.month < b.month || (a.month == b.month && a.day < b.day)))
  }

  // ----- Text form -----

  function DigitValue(c: char): int
  {
    c as int - '0' as int
  }

  /** The decimal value of a string of digits. */
  function DigitsValue(s: string): int
    decreases |s|
  {
    if s == [] then 0 else DigitsValue(s[..|s| - 1]) * 10 + DigitValue(s[|s| - 1])
  }

  function Pow10(k: nat): nat
  {
    if k == 0 then 1 else 10 * Pow10(k - 1)
  }

  /** `n` in exactly `width` digits, with leading zeros. */
  function Padded(n: nat, width: nat): (s: string)
    ensures |s| == width
    ensures forall i :: 0 <= i < |s| ==> IsDigit(s[i])
  {
    if width == 0 then "" else Padded(n / 10, width - 1) + [DigitChar(n % 10)]
  }

  predicate AllDigits(s: string)
  {
    forall i :: 0 <= i < |s| ==> IsDigit(s[i])
  }

  /**
   * The `YYYY-MM-DD` form: ten characters, dashes at positions 4 and 7,
   * digits elsewhere, naming a day the calendar has; anything else is `None`,
   * the invalid date.
   */
  function ParseIsoDate(s: string): (r: Option<Date>)
    ensures r.Some? ==> ValidDate(r.value)
  {
    if |s| == 10 && s[4] == '-' && s[7] == '-' && AllDigits(s[..4]) && AllDigits(s[5..7]) && AllDigits(s[8..]) then
      var d := Date(DigitsValue(s[..4]), DigitsValue(s[5..7]), DigitsValue(s[8..]));
      if ValidDate(d) then Some(d) else None
    else None
  }

  /** The `YYYY-MM-DD` form `todayUTC` cuts from the ISO timestamp of an instant on day `d`. */
  function FormatIsoDate(d: Date): (s: string)
    requires ValidDate(d)
    ensures |s| == 10
  {
    Padded(d.year, 4) + "-" + Padded(d.month, 2) + "-" + Padded(d.day, 2)
  }

  /**
   * `dateToUTCRange(dateStr)`: the window of the day the string names;
   * `None` where `Date` yields NaN for both ends.
   */
  function DateToUtcRange(dateStr: string): (w: Option<Window>)
    ensures w.Some? ==> w.value.to - w.value.from == LastSecond && w.value.from % SecondsPerDay == 0
    ensures w.Some? <==> ParseIsoDate(dateStr).Some?
  {
    match ParseIsoDate(dateStr)
    case None => None
    case Some(d) => Some(DayWindow(d))
  }

  // ----- Lemmas -----

  lemma YearStep(y: int)
    ensures DaysBeforeYear(y + 1) == DaysBeforeYear(y) + YearLength(y)
  {
  }

  /** Each month starts where the previous one ends, and December ends the year. */
  lemma MonthsFillYear(y: int, m: int)
    requires 1 <= m <= 12
    ensures 0 <= DaysBeforeMonth(y, m)
    ensures m < 12 ==> DaysBeforeMonth(y, m) + DaysInMonth(y, m) == DaysBeforeMonth(y, m + 1)
    ensures m == 12 ==> DaysBeforeMonth(y, m) + DaysInMonth(y, m) == YearLength(y)
  {
  }

  /** The day of the year of a valid date lies within its year. */
  lemma DayOfYearBounds(d: Date)
    requires ValidDate(d)
    ensures DaysBeforeYear(d.year) <= EpochDay(d) < DaysBeforeYear(d.year + 1)
  {
    MonthsFillYear(d.year, d.month);
    if d.month < 12 {
      MonthsOrdered(d.year, d.month, 12);
      MonthsFillYear(d.year, 12);
    }
    YearStep(d.year);
  }

  /** Consecutive days have adjacent windows: the next day starts one second after this one ends. */
  lemma NextDayAdjacent(d: Date)
    requires ValidDate(d)
    requires d.year < 9999 || d.month < 12 || d.day < 31
    ensures ValidDate(NextDay(d))
    ensures DayWindow(NextDay(d)).from == DayWindow(d).to + 1
  {
    MonthsFillYear(d.year, d.month);
    if d.day == DaysInMonth(d.year, d.month) && d.month == 12 {
      YearStep(d.year);
    }
  }

  /** Earlier days have earlier windows, and the windows never overlap. */
  lemma {:induction false} WindowsOrdered(a: Date, b: Date)
    requires ValidDate(a) && ValidDate(b)
    requires Before(a, b)
    ensures DayWindow(a).to < DayWindow(b).from
  {
    if a.year < b.year {
      DayOfYearBounds(a);
      DayOfYearBounds(b);
      YearsOrdered(a.year + 1, b.year);
    } else if a.month < b.month {
      MonthsOrdered(a.year, a.month, b.month);
    }
  }

  lemma {:induction false} YearsOrdered(y: int, z: int)
    requires y <= z
    ensures DaysBeforeYear(y) <= DaysBeforeYear(z)
    decreases z - y
  {
    if y < z {
      YearStep(y);
      YearsOrdered(y + 1, z);
    }
  }

  lemma {:induction false} MonthsOrdered(y: int, m: int, n: int)
    requires 1 <= m < n <= 12
    ensures DaysBeforeMonth(y, m) + DaysInMonth(y, m) <= DaysBeforeMonth(y, n)
    decreases n - m
  {
    MonthsFillYear(y, m);
    if m + 1 < n {
      MonthsFillYear(y, m + 1);
      MonthsOrdered(y, m + 1, n);
    }
  }

  /** Different valid days have different windows. */
  lemma WindowInjective(a: Date, b: Date)
    requires ValidDate(a) && ValidDate(b)
    ensures DayWindow(a) == DayWindow(b) ==> a == b
  {
    if Before(a, b) {
      WindowsOrdered(a, b);
    } else if Before(b, a) {
      WindowsOrdered(b, a);
    }
  }

  lemma {:induction false} PaddedValue(n: nat, width: nat)
    requires n < Pow10(width)
    ensures DigitsValue(Padded(n, width)) == n
  {
    if width > 0 {
      PaddedValue(n / 10, width - 1);
      var s := Padded(n, width);
      assert s[..|s| - 1] == Padded(n / 10, width - 1);
    }
  }

  /** Reading back the written form of a valid date gives the date. */
  lemma ParseFormat(d: Date)
    requires ValidDate(d)
    ensures ParseIsoDate(FormatIsoDate(d)) == Some(d)
  {
    var s := FormatIsoDate(d);
    PaddedValue(d.year, 4);
    PaddedValue(d.month, 2);
    PaddedValue(d.day, 2);
    assert s[..4] == Padded(d.year, 4);
    assert s[5..7] == Padded(d.month, 2);
    assert s[8..] == Padded(d.day, 2);
  }
}
