/** Calendar dates as the application handles them.

    Dates travel through the application as "YYYY-MM-DD" strings (the value of an
    HTML date input, or the second column of an I-94 record). Every comparison and
    every day walk is done on the day each string names; here that day is a
    proleptic-Gregorian day ordinal, `DayNumber`, whose day 0 is 0001-01-01.
 */
module Calendar {

  /** The leap-year rule of the manual-input form. */
  predicate IsLeapYear(year: int) {
    (year % 4 == 0 && year % 100 != 0) || year % 400 == 0
  }

  /** The number of days in a calendar year: the form's per-year maximum day count. */
  function DaysInYear(year: int): int {
    if IsLeapYear(year) then 366 else 365
  }

  /** Ordinal of 1 January of `year` (0001-01-01 is day 0). */
  function YearStart(year: int): int {
    365 * (year - 1) + (year - 1) / 4 - (year - 1) / 100 + (year - 1) / 400
  }

  function DaysInMonth(year: int, month: int): int {
    if month == 2 then (if IsLeapYear(year) then 29 else 28)
    else if month == 4 || month == 6 || month == 9 || month == 11 then 30
    else 31
  }

  /** Days of `year` that precede the first of `month`. Months outside 1..12 name
      no day (the browser yields an invalid date for them); they are given the value 0. */
  function DaysBeforeMonth(year: int, month: int): int {
    if month < 1 || month > 12 then 0
    else
      [0, 31, 59, 90, 120, 151, 181, 212, 243, 273, 304, 334][month - 1]
      + (if month > 2 && IsLeapYear(year) then 1 else 0)
  }

  /** The ordinal of the calendar date year-month-day. */
  function Ordinal(year: int, month: int, day: int): int {
    YearStart(year) + DaysBeforeMonth(year, month) + day - 1
  }

  predicate IsValidDate(year: int, month: int, day: int) {
    1 <= month <= 12 && 1 <= day <= DaysInMonth(year, month)
  }

  // ---------------------------------------------------------------------------
  // "YYYY-MM-DD" strings

  predicate IsDigit(c: char) {
    '0' <= c <= '9'
  }

  /** The pattern ^\d{4}-\d{2}-\d{2}$ (JavaScript's \d is [0-9]; without the m flag
      $ matches only at the end of the string). */
  predicate IsIsoPattern(s: string) {
    |s| == 10
    && IsDigit(s[0]) && IsDigit(s[1]) && IsDigit(s[2]) && IsDigit(s[3])
    && s[4] == '-'
    && IsDigit(s[5]) && IsDigit(s[6])
    && s[7] == '-'
    && IsDigit(s[8]) && IsDigit(s[9])
  }

  type IsoDate = s: string | IsIsoPattern(s) witness "1970-01-01"

  function DigitValue(c: char): int
    requires IsDigit(c)
  {
    c as int - '0' as int
  }

  function YearOf(s: IsoDate): int {
    1000 * DigitValue(s[0]) + 100 * DigitValue(s[1]) + 10 * DigitValue(s[2]) + DigitValue(s[3])
  }

  function MonthOf(s: IsoDate): int {
    10 * DigitValue(s[5]) + DigitValue(s[6])
  }

  function DayOf(s: IsoDate): int {
    10 * DigitValue(s[8]) + DigitValue(s[9])
  }

  /** A string that passes the pattern and also names a real calendar date. */
  predicate IsCalendarDate(s: IsoDate) {
    IsValidDate(YearOf(s), MonthOf(s), DayOf(s))
  }

  /** The day a date string names: what `new Date(s)` denotes, read as a calendar day. */
  function DayNumber(s: IsoDate): int {
    Ordinal(YearOf(s), MonthOf(s), DayOf(s))
  }

  /** A date string read as the number YYYYMMDD. For dates of the calendar it orders
      exactly as the days do (`DateKeyOrder`), so it stands for the timestamp wherever
      timestamps are only compared. */
  function DateKey(s: IsoDate): int {
    10000 * YearOf(s) + 100 * MonthOf(s) + DayOf(s)
  }

  /** The key of 1970-01-01, the day `new Date(0)` denotes (`EpochKeyOf`). */
  const EpochKey: int := 19700101

  lemma EpochKeyOf()
    ensures EpochKey == DateKey("1970-01-01")
  {
  }

  predicate Between(lo: int, d: int, hi: int) {
    lo <= d <= hi
  }

  /** The inclusive run of days lo..hi (the bounds are repeated outside `Between` so
      that the set is seen to be finite, and `Between` gives its quantifier a trigger). */
  function Days(lo: int, hi: int): set<int> {
    set d | lo <= d <= hi && Between(lo, d, hi)
  }

  // ---------------------------------------------------------------------------
  // Lemmas

  /** Stepping from n-1 to n raises n / k by one exactly when k divides n. */
  lemma DivStep(n: int, k: int)
    requires k == 4 || k == 100 || k == 400
    ensures n / k - (n - 1) / k == if n % k == 0 then 1 else 0
  {
    var q, r := (n - 1) / k, (n - 1) % k;
    assert n - 1 == k * q + r && 0 <= r < k;
    if r + 1 < k {
      assert n == k * q + (r + 1);
    } else {
      assert n == k * (q + 1);
    }
  }

  lemma CenturyDivisibleByFour(y: int)
    requires y % 100 == 0
    ensures y % 4 == 0
  {
    var q := y / 100;
    assert y == 4 * (25 * q);
  }

  lemma FourCenturiesDivisibleByCentury(y: int)
    requires y % 400 == 0
    ensures y % 100 == 0
  {
    var q := y / 400;
    assert y == 100 * (4 * q);
  }

  /** The calendar years are back to back, and year `year` is exactly as long as the
      leap rule says: 366 days for a leap year, 365 otherwise. */
  lemma {:induction false} YearLength(year: int)
    ensures YearStart(year + 1) - YearStart(year) == DaysInYear(year)
  {
    DivStep(year, 4);
    DivStep(year, 100);
    DivStep(year, 400);
    if year % 400 == 0 {
      FourCenturiesDivisibleByCentury(year);
      CenturyDivisibleByFour(year);
    } else if year % 100 == 0 {
      CenturyDivisibleByFour(year);
    }
  }

  /** 1 January and 31 December of a year are the first and last ordinals of that year. */
  lemma YearBounds(year: int)
    ensures Ordinal(year, 1, 1) == YearStart(year)
    ensures Ordinal(year, 12, 31) == YearStart(year + 1) - 1
  {
    YearLength(year);
  }

  lemma {:induction false} YearStartMonotone(y1: int, y2: int)
    requires y1 <= y2
    ensures YearStart(y1) <= YearStart(y2)
    decreases y2 - y1
  {
    if y1 < y2 {
      YearStartMonotone(y1, y2 - 1);
      YearLength(y2 - 1);
    }
  }

  /** A valid date lies inside its own year. */
  lemma OrdinalInYear(year: int, month: int, day: int)
    requires IsValidDate(year, month, day)
    ensures YearStart(year) <= Ordinal(year, month, day) < YearStart(year + 1)
  {
    YearLength(year);
  }

  /** Chronological order of valid dates is the lexicographic order of (year, month,
      day), so the day ordinals compare as the date strings do. */
  lemma OrdinalOrder(y1: int, m1: int, d1: int, y2: int, m2: int, d2: int)
    requires IsValidDate(y1, m1, d1) && IsValidDate(y2, m2, d2)
    ensures Ordinal(y1, m1, d1) < Ordinal(y2, m2, d2)
        <==> (y1 < y2 || (y1 == y2 && (m1 < m2 || (m1 == m2 && d1 < d2))))
  {
    OrdinalInYear(y1, m1, d1);
    OrdinalInYear(y2, m2, d2);
    if y1 < y2 {
      YearStartMonotone(y1 + 1, y2);
    } else if y2 < y1 {
      YearStartMonotone(y2 + 1, y1);
    }
  }

  /** Different date strings have different keys. */
  lemma DateKeyInjective(a: IsoDate, b: IsoDate)
    requires DateKey(a) == DateKey(b)
    ensures a == b
  {
    Hundreds(100 * YearOf(a) + MonthOf(a), DayOf(a), 100 * YearOf(b) + MonthOf(b), DayOf(b));
    Hundreds(YearOf(a), MonthOf(a), YearOf(b), MonthOf(b));
    FieldsDetermine(a, b);
  }

  /** A date string is determined by its year, month and day numbers. */
  lemma FieldsDetermine(a: IsoDate, b: IsoDate)
    requires YearOf(a) == YearOf(b) && MonthOf(a) == MonthOf(b) && DayOf(a) == DayOf(b)
    ensures a == b
  {
    Hundreds(10 * DigitValue(a[0]) + DigitValue(a[1]), 10 * DigitValue(a[2]) + DigitValue(a[3]),
             10 * DigitValue(b[0]) + DigitValue(b[1]), 10 * DigitValue(b[2]) + DigitValue(b[3]));
    assert forall i | 0 <= i < 10 :: a[i] == b[i];
  }

  /** Two date strings that name real dates name the same day only if they are the
      same string: comparing timestamps is comparing strings. */
  lemma DayNumberInjective(a: IsoDate, b: IsoDate)
    requires IsCalendarDate(a) && IsCalendarDate(b)
    requires DayNumber(a) == DayNumber(b)
    ensures a == b
  {
    OrdinalOrder(YearOf(a), MonthOf(a), DayOf(a), YearOf(b), MonthOf(b), DayOf(b));
    OrdinalOrder(YearOf(b), MonthOf(b), DayOf(b), YearOf(a), MonthOf(a), DayOf(a));
    assert DateKey(a) == DateKey(b);
    DateKeyInjective(a, b);
  }

  /** Comparing keys is comparing days, and equal keys belong to equal strings. */
  lemma DateKeyOrder(a: IsoDate, b: IsoDate)
    requires IsCalendarDate(a) && IsCalendarDate(b)
    ensures DateKey(a) < DateKey(b) <==> DayNumber(a) < DayNumber(b)
    ensures DateKey(a) == DateKey(b) <==> a == b
  {
    OrdinalOrder(YearOf(a), MonthOf(a), DayOf(a), YearOf(b), MonthOf(b), DayOf(b));
    if DateKey(a) == DateKey(b) {
      DateKeyInjective(a, b);
    }
  }

  /** A number written in base 100 determines its digits. */
  lemma Hundreds(x1: int, x0: int, y1: int, y0: int)
    requires 0 <= x1 && 0 <= x0 < 100 && 0 <= y1 && 0 <= y0 < 100
    requires 100 * x1 + x0 == 100 * y1 + y0
    ensures x1 == y1 && x0 == y0
  {
  }

  lemma DaysEmpty(lo: int, hi: int)
    requires hi < lo
    ensures Days(lo, hi) == {}
  {
    assert forall x | x in Days(lo, hi) :: lo <= x <= hi;
  }

  lemma DaysExtend(lo: int, hi: int)
    requires lo <= hi + 1
    ensures Days(lo, hi + 1) == Days(lo, hi) + {hi + 1}
  {
    assert forall x | x in Days(lo, hi + 1) :: x in Days(lo, hi) || x == hi + 1;
  }

  /** Two runs that meet on a day make one run. */
  lemma DaysJoin(lo: int, mid: int, hi: int)
    requires lo <= mid <= hi
    ensures Days(lo, mid) + Days(mid, hi) == Days(lo, hi)
  {
    assert forall x | x in Days(lo, hi) :: x in Days(lo, mid) || x in Days(mid, hi);
  }

  /** The run lo..hi holds hi - lo + 1 days, and none when it is reversed. */
  lemma {:induction false} DaysCount(lo: int, hi: int)
    ensures |Days(lo, hi)| == if lo <= hi then hi - lo + 1 else 0
    decreases hi - lo
  {
    if lo > hi {
      DaysEmpty(lo, hi);
    } else {
      DaysCount(lo, hi - 1);
      DaysExtend(lo, hi - 1);
    }
  }
}
