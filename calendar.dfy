/** Dates and times of day as the application's Python code uses them.

    A date is a proleptic Gregorian (year, month, day) triple, compared the way
    Python compares `date` objects: lexicographically. Day arithmetic
    (`date + timedelta(days=n)`, `(a - b).days`) goes through `Ordinal`, which is
    Python's `date.toordinal()` (0001-01-01 has ordinal 1). A time of day is kept
    to the minute, and an instant is a count of minutes since the ordinal epoch. */
module Calendar {

  datatype YMD = YMD(year: int, month: int, day: int)

  predicate IsLeap(y: int) {
    y % 4 == 0 && (y % 100 != 0 || y % 400 == 0)
  }

  function DaysInMonth(y: int, m: int): (n: int)
    requires 1 <= m <= 12
    ensures 28 <= n <= 31
    ensures m == 2 ==> (n == 29 <==> IsLeap(y))
  {
    if m == 2 then (if IsLeap(y) then 29 else 28)
    else if m == 4 || m == 6 || m == 9 || m == 11 then 30
    else 31
  }

  /** The range of Python's `date`: years 1 to 9999, real days of real months. */
  predicate IsValidDate(d: YMD) {
    1 <= d.year <= 9999 && 1 <= d.month <= 12 && 1 <= d.day <= DaysInMonth(d.year, d.month)
  }

  type Date = d: YMD | IsValidDate(d) witness YMD(1, 1, 1)

  /** Python's `date` ordering: (year, month, day) compared lexicographically. */
  predicate Before(a: YMD, b: YMD) {
    a.year < b.year || (a.year == b.year && (a.month < b.month || (a.month == b.month && a.day < b.day)))
  }

  predicate AtOrBefore(a: YMD, b: YMD) {
    Before(a, b) || a == b
  }

  function YearLength(y: int): int {
    if IsLeap(y) then 366 else 365
  }

  function DaysBeforeYear(y: int): int
    requires 1 <= y
  {
    (y - 1) * 365 + (y - 1) / 4 - (y - 1) / 100 + (y - 1) / 400
  }

  function DaysBeforeMonth(y: int, m: int): int
    requires 1 <= m <= 12
  {
    var leap := if IsLeap(y) then 1 else 0;
    if m == 1 then 0
    else if m == 2 then 31
    else if m == 3 then 59 + leap
    else if m == 4 then 90 + leap
    else if m == 5 then 120 + leap
    else if m == 6 then 151 + leap
    else if m == 7 then 181 + leap
    else if m == 8 then 212 + leap
    else if m == 9 then 243 + leap
    else if m == 10 then 273 + leap
    else if m == 11 then 304 + leap
    else 334 + leap
  }

  /** The day of the year, 1 for January 1st. */
  function DayOfYear(d: Date): (n: int)
    ensures 1 <= n <= YearLength(d.year)
  {
    DaysBeforeMonth(d.year, d.month) + d.day
  }

  /** `date.toordinal()`: the number of days since 0000-12-31. */
  function Ordinal(d: Date): (n: int)
    ensures n >= 1
  {
    DaysBeforeYear(d.year) + DayOfYear(d)
  }

  /** `d == base + timedelta(days=n)`, stated on ordinals. */
  predicate DaysAfter(d: Date, base: Date, n: int) {
    Ordinal(d) == Ordinal(base) + n
  }

  /** Counting multiples of a divisor one step further. */
  lemma MultiplesStep4(x: int)
    requires x >= 0
    ensures (x + 1) / 4 == x / 4 + (if x % 4 == 3 then 1 else 0)
    ensures (x + 1) % 4 == 0 <==> x % 4 == 3
  {
  }

  lemma MultiplesStep100(x: int)
    requires x >= 0
    ensures (x + 1) / 100 == x / 100 + (if x % 100 == 99 then 1 else 0)
    ensures (x + 1) % 100 == 0 <==> x % 100 == 99
    ensures x % 100 == 99 ==> x % 4 == 3
  {
    if x % 100 == 99 {
      assert x == 4 * (25 * (x / 100) + 24) + 3;
    }
  }

  lemma MultiplesStep400(x: int)
    requires x >= 0
    ensures (x + 1) / 400 == x / 400 + (if x % 400 == 399 then 1 else 0)
    ensures (x + 1) % 400 == 0 <==> x % 400 == 399
    ensures x % 400 == 399 ==> x % 100 == 99
  {
    if x % 400 == 399 {
      assert x == 100 * (4 * (x / 400) + 3) + 99;
    }
  }

  lemma YearStep(y: int)
    requires 1 <= y
    ensures DaysBeforeYear(y + 1) == DaysBeforeYear(y) + YearLength(y)
  {
    var x := y - 1;
    MultiplesStep4(x);
    MultiplesStep100(x);
    MultiplesStep400(x);
    assert DaysBeforeYear(y + 1) == DaysBeforeYear(y) + 365 + (if x % 4 == 3 then 1 else 0)
                                    - (if x % 100 == 99 then 1 else 0) + (if x % 400 == 399 then 1 else 0);
  }

  /** Across whole years the calendar gains at least 365 days a year, and one
      more when the first of those years is a leap year. */
  lemma {:induction false} YearsSpan(y1: int, y2: int)
    requires 1 <= y1 <= y2
    ensures DaysBeforeYear(y2) - DaysBeforeYear(y1) >= 365 * (y2 - y1) + (if y1 < y2 && IsLeap(y1) then 1 else 0)
    decreases y2 - y1
  {
    if y1 < y2 {
      YearStep(y1);
      if y1 + 1 < y2 {
        YearsSpan(y1 + 1, y2);
      }
    }
  }

  lemma DayOfYearMonotone(a: Date, b: Date)
    requires a.year == b.year && Before(a, b)
    ensures DayOfYear(a) < DayOfYear(b)
  {
  }

  /** Calendar order and ordinal order agree. */
  lemma OrdinalMonotone(a: Date, b: Date)
    requires Before(a, b)
    ensures Ordinal(a) < Ordinal(b)
  {
    if a.year < b.year {
      YearStep(a.year);
      YearsSpan(a.year + 1, b.year);
    } else {
      DayOfYearMonotone(a, b);
    }
  }

  lemma OrdinalOrder(a: Date, b: Date)
    ensures Before(a, b) <==> Ordinal(a) < Ordinal(b)
    ensures a == b <==> Ordinal(a) == Ordinal(b)
  {
    if Before(a, b) {
      OrdinalMonotone(a, b);
    } else if Before(b, a) {
      OrdinalMonotone(b, a);
    }
  }

  /** `date.max`, 9999-12-31, and its ordinal. */
  const LAST_DATE: Date := YMD(9999, 12, 31)
  const MAX_ORDINAL := 3652059

  /** No date lies after `date.max`, whose ordinal is MAX_ORDINAL. */
  lemma OrdinalBounded(d: Date)
    ensures Ordinal(LAST_DATE) == MAX_ORDINAL
    ensures Ordinal(d) <= MAX_ORDINAL
    ensures Ordinal(d) == MAX_ORDINAL <==> d == LAST_DATE
  {
    assert DaysBeforeYear(9999) == 3651694;
    OrdinalOrder(d, LAST_DATE);
  }

  /** `d + timedelta(days=n)` for n >= 0 raises OverflowError exactly when the
      sum would pass `date.max`. */
  predicate AddDaysOverflows(d: Date, n: nat) {
    Ordinal(d) + n > MAX_ORDINAL
  }

  /** Adding one day overflows only on `date.max` itself. */
  lemma NextDayOverflowsOnlyAtMax(d: Date)
    ensures AddDaysOverflows(d, 1) <==> d == LAST_DATE
  {
    OrdinalBounded(d);
  }

  datatype HourMinute = HourMinute(hour: int, minute: int)

  /** A `time` of day to the minute. */
  type Time = t: HourMinute | 0 <= t.hour < 24 && 0 <= t.minute < 60 witness HourMinute(0, 0)

  function MinuteOfDay(t: Time): (n: int)
    ensures 0 <= n < 1440
  {
    t.hour * 60 + t.minute
  }

  /** `datetime.combine(d, t)`, as minutes since the ordinal epoch. */
  function Combine(d: Date, t: Time): int {
    Ordinal(d) * 1440 + MinuteOfDay(t)
  }

  /** Instants are ordered by date first and time of day second, and distinct
      (date, time) pairs give distinct instants. */
  lemma CombineOrder(d1: Date, t1: Time, d2: Date, t2: Time)
    ensures Combine(d1, t1) < Combine(d2, t2) <==>
              Before(d1, d2) || (d1 == d2 && MinuteOfDay(t1) < MinuteOfDay(t2))
    ensures Combine(d1, t1) == Combine(d2, t2) <==> d1 == d2 && t1 == t2
  {
    OrdinalOrder(d1, d2);
  }
}
