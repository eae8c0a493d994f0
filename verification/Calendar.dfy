/**
 Civil dates of the proleptic Gregorian calendar and the instants of São Paulo, which is a
 fixed three hours behind UTC. Days are numbered from the first day of year 0.
 */
module Calendar {
  import opened Common

  const HOUR_MS := 3600000
  const DAY_MS := 86400000
  const SAO_PAULO_OFFSET_MS := 3 * HOUR_MS

  datatype Date = Date(year: int, month: int, day: int)

  predicate IsLeap(y: int) { y % 4 == 0 && (y % 100 != 0 || y % 400 == 0) }

  function MonthLength(y: int, m: int): (r: int)
    ensures 28 <= r <= 31
  {
    if m == 2 then (if IsLeap(y) then 29 else 28) else if m in {4, 6, 9, 11} then 30 else 31
  }

  predicate IsDate(d: Date) { d.year >= 0 && 1 <= d.month <= 12 && 1 <= d.day <= MonthLength(d.year, d.month) }

  predicate Earlier(a: Date, b: Date) {
    a.year < b.year || (a.year == b.year && (a.month < b.month || (a.month == b.month && a.day < b.day)))
  }

  // ---- day numbers -----------------------------------------------------------------------

  function DaysBeforeMonth(y: int, m: int): int
    requires 1 <= m <= 13
    decreases m
  {
    if m == 1 then 0 else DaysBeforeMonth(y, m - 1) + MonthLength(y, m - 1)
  }

  function YearLength(y: int): int { DaysBeforeMonth(y, 13) }

  function DaysBeforeYear(y: int): int
    requires y >= 0
  {
    if y == 0 then 0 else DaysBeforeYear(y - 1) + YearLength(y - 1)
  }

  function DayNumber(d: Date): int
    requires IsDate(d)
  {
    DaysBeforeYear(d.year) + DaysBeforeMonth(d.year, d.month) + d.day - 1
  }

  function NextDay(d: Date): Date {
    if d.day < MonthLength(d.year, d.month) then Date(d.year, d.month, d.day + 1)
    else if d.month < 12 then Date(d.year, d.month + 1, 1)
    else Date(d.year + 1, 1, 1)
  }

  lemma {:induction false} MonthsGrow(y: int, a: int, b: int)
    requires 1 <= a < b <= 13
    ensures DaysBeforeMonth(y, a) + MonthLength(y, a) <= DaysBeforeMonth(y, b)
    decreases b
  {
    if a < b - 1 { MonthsGrow(y, a, b - 1); }
  }

  lemma {:induction false} YearsGrow(a: int, b: int)
    requires 0 <= a < b
    ensures DaysBeforeYear(a) + YearLength(a) <= DaysBeforeYear(b)
    decreases b
  {
    if a < b - 1 {
      YearsGrow(a, b - 1);
      MonthsGrow(b - 1, 1, 13);
    }
  }

  /** Day numbers order dates: a later date has the larger number. */
  lemma {:induction false} EarlierIsLess(a: Date, b: Date)
    requires IsDate(a) && IsDate(b) && Earlier(a, b)
    ensures DayNumber(a) < DayNumber(b)
  {
    MonthsGrow(a.year, a.month, 13);
    if a.year < b.year {
      YearsGrow(a.year, b.year);
      if b.month > 1 { MonthsGrow(b.year, 1, b.month); }
    } else if a.month < b.month {
      MonthsGrow(a.year, a.month, b.month);
    }
  }

  lemma {:induction false} DayNumberOrders(a: Date, b: Date)
    requires IsDate(a) && IsDate(b)
    ensures Earlier(a, b) <==> DayNumber(a) < DayNumber(b)
    ensures a == b <==> DayNumber(a) == DayNumber(b)
  {
    if Earlier(a, b) { EarlierIsLess(a, b); }
    else if a != b { EarlierIsLess(b, a); }
  }

  lemma {:induction false} NextDayNumber(d: Date)
    requires IsDate(d)
    ensures IsDate(NextDay(d)) && DayNumber(NextDay(d)) == DayNumber(d) + 1
  {
    if d.day == MonthLength(d.year, d.month) && d.month == 12 {
      assert YearLength(d.year) == DaysBeforeMonth(d.year, 12) + MonthLength(d.year, 12);
    }
  }

  /** The date of a day number, counted day by day. */
  function DateOf(n: nat): Date {
    if n == 0 then Date(0, 1, 1) else NextDay(DateOf(n - 1))
  }

  lemma {:induction false} DateOfNumber(n: nat)
    ensures IsDate(DateOf(n)) && DayNumber(DateOf(n)) == n
  {
    if n > 0 {
      DateOfNumber(n - 1);
      NextDayNumber(DateOf(n - 1));
    }
  }

  /** Counting days is the inverse of numbering dates. */
  lemma {:induction false} NumberOfDate(d: Date)
    requires IsDate(d)
    ensures DayNumber(d) >= 0 && DateOf(DayNumber(d)) == d
  {
    FirstDay(d);
    DateOfNumber(DayNumber(d));
    DayNumberOrders(DateOf(DayNumber(d)), d);
  }

  lemma {:induction false} FirstDay(d: Date)
    requires IsDate(d)
    ensures DayNumber(d) >= 0
  {
    var first := Date(0, 1, 1);
    if d != first { EarlierIsLess(first, d); }
  }

  // ---- date arithmetic -------------------------------------------------------------------

  /** The day of the Unix epoch. */
  const EPOCH := 719528

  lemma {:induction false} YearLengthIs(y: int)
    ensures YearLength(y) == if IsLeap(y) then 366 else 365
  {
    assert DaysBeforeMonth(y, 5) == DaysBeforeMonth(y, 4) + 30 == DaysBeforeMonth(y, 3) + 61 == DaysBeforeMonth(y, 2) + MonthLength(y, 2) + 61;
    assert DaysBeforeMonth(y, 9) == DaysBeforeMonth(y, 8) + 31 == DaysBeforeMonth(y, 7) + 62 == DaysBeforeMonth(y, 6) + 92 == DaysBeforeMonth(y, 5) + 123;
    assert DaysBeforeMonth(y, 13) == DaysBeforeMonth(y, 12) + 31 == DaysBeforeMonth(y, 11) + 61 == DaysBeforeMonth(y, 10) + 92 == DaysBeforeMonth(y, 9) + 122;
  }

  /** Years before y that are leap, year 0 included. */
  function LeapCount(y: int): int
    requires y >= 0
  {
    if y == 0 then 0 else LeapCount(y - 1) + (if IsLeap(y - 1) then 1 else 0)
  }

  function LeapYears(y: int): int { (y + 3) / 4 - (y + 99) / 100 + (y + 399) / 400 }

  lemma {:induction false} Quotient4(y: int)
    ensures (y + 4) / 4 - (y + 3) / 4 == if y % 4 == 0 then 1 else 0
  {}

  lemma {:induction false} Quotient100(y: int)
    ensures (y + 100) / 100 - (y + 99) / 100 == if y % 100 == 0 then 1 else 0
  {}

  lemma {:induction false} Quotient400(y: int)
    ensures (y + 400) / 400 - (y + 399) / 400 == if y % 400 == 0 then 1 else 0
  {}

  lemma {:induction false} Multiples(y: int)
    ensures y % 400 == 0 ==> y % 100 == 0
    ensures y % 100 == 0 ==> y % 4 == 0
  {}

  lemma {:induction false} LeapStep(y: int)
    ensures LeapYears(y + 1) == LeapYears(y) + (if IsLeap(y) then 1 else 0)
  {
    Quotient4(y);
    Quotient100(y);
    Quotient400(y);
    Multiples(y);
  }

  /** The usual count of leap years. */
  lemma {:induction false} LeapCountIs(y: int)
    requires y >= 0
    ensures LeapCount(y) == LeapYears(y)
  {
    if y > 0 {
      LeapCountIs(y - 1);
      LeapStep(y - 1);
    }
  }

  lemma {:induction false} YearsCounted(y: int)
    requires y >= 0
    ensures DaysBeforeYear(y) == 365 * y + LeapCount(y) && LeapCount(y) >= 0
  {
    if y > 0 {
      YearsCounted(y - 1);
      YearLengthIs(y - 1);
    }
  }

  lemma {:induction false} EpochDays(y: int)
    requires y == 1970
    ensures 365 * y + LeapYears(y) == EPOCH
  {}

  /** The day number of the first of January 1970. */
  lemma {:induction false} EpochIs(d: Date)
    requires d.day == 1 && d.month == 1 && 1969 < d.year < 1971
    ensures DayNumber(d) == EPOCH
  {
    EpochDays(d.year);
    YearsCounted(d.year);
    LeapCountIs(d.year);
  }

  /** A date that many days away; before year 0 there is none. */
  function AddDays(d: Date, days: int): (r: Date)
    requires IsDate(d) && DayNumber(d) + days >= 0
    ensures IsDate(r) && DayNumber(r) == DayNumber(d) + days
  {
    DateOfNumber(DayNumber(d) + days);
    DateOf(DayNumber(d) + days)
  }

  function DaysBetween(start: Date, end: Date): int
    requires IsDate(start) && IsDate(end)
  {
    DayNumber(end) - DayNumber(start)
  }

  /** Months since year 0. */
  function MonthIndex(d: Date): int { d.year * 12 + d.month - 1 }

  function ShiftMonths(d: Date, months: int): (r: Date)
    requires IsDate(d) && MonthIndex(d) + months >= 0
    ensures IsDate(r) && MonthIndex(r) == MonthIndex(d) + months && r.day == Min(d.day, MonthLength(r.year, r.month))
  {
    var index := MonthIndex(d) + months;
    Date(index / 12, index % 12 + 1, Min(d.day, MonthLength(index / 12, index % 12 + 1)))
  }

  lemma {:induction false} MonthIndexOrders(a: Date, b: Date)
    requires IsDate(a) && IsDate(b)
    ensures MonthIndex(a) < MonthIndex(b) ==> Earlier(a, b)
    ensures MonthIndex(a) == MonthIndex(b) <==> a.year == b.year && a.month == b.month
    ensures Earlier(a, b) ==> MonthIndex(a) <= MonthIndex(b)
  {}

  // ---- instants --------------------------------------------------------------------------

  /** Days since the epoch, turning at midnight in São Paulo. */
  function SaoPauloDay(t: int): int { (t - SAO_PAULO_OFFSET_MS) / DAY_MS }

  predicate InCalendar(t: int) { SaoPauloDay(t) + EPOCH >= 0 }

  function SaoPauloDate(t: int): (d: Date)
    requires InCalendar(t)
    ensures IsDate(d) && DayNumber(d) == SaoPauloDay(t) + EPOCH
  {
    DateOfNumber(SaoPauloDay(t) + EPOCH);
    DateOf(SaoPauloDay(t) + EPOCH)
  }

  function SaoPauloStart(d: Date): int
    requires IsDate(d)
  {
    (DayNumber(d) - EPOCH) * DAY_MS + SAO_PAULO_OFFSET_MS
  }

  /** An instant falls on a date exactly between that midnight and the next. */
  lemma {:induction false} InstantsOfDate(t: int, d: Date)
    requires IsDate(d) && InCalendar(t) && DayNumber(d) >= 0
    ensures SaoPauloDate(t) == d <==> SaoPauloStart(d) <= t < SaoPauloStart(AddDays(d, 1))
  {
    DayNumberOrders(SaoPauloDate(t), d);
    NextStart(d);
    WholeDays(t - SAO_PAULO_OFFSET_MS, DayNumber(d) - EPOCH);
  }

  lemma {:induction false} NextStart(d: Date)
    requires IsDate(d)
    ensures DayNumber(d) >= 0 && SaoPauloStart(AddDays(d, 1)) == SaoPauloStart(d) + DAY_MS
  {
    FirstDay(d);
  }

  lemma {:induction false} WholeDays(u: int, n: int)
    ensures u / DAY_MS == n <==> n * DAY_MS <= u < (n + 1) * DAY_MS
  {}
}
