/**
 Dhaka report attribution (bdpay/compliance/report_dates.py).

 An instant counts microseconds so that instant / DAY is the proleptic Gregorian ordinal of its UTC date (1 is
 0001-01-01, as in Python's `date.toordinal`). Leap years follow Appendix C of RFC 3339.
 */
module ReportDates {

  const DAY := 86_400_000_000
  const HOUR := 3_600_000_000
  const DHAKA_OFFSET := 6 * HOUR

  /** An aware timestamp; Python's datetime begins at 0001-01-01T00:00Z. */
  type Instant = t: int | t >= DAY witness DAY

  datatype Date = Date(year: nat, month: nat, day: nat)

  datatype Bounds = InvalidMonth | ImplausibleYear | OutOfRange | Range(start: int, end: int)

  // ------------------------------------------------------------------ the calendar

  predicate Leap(y: nat) {
    y % 4 == 0 && (y % 100 != 0 || y % 400 == 0)
  }

  function DaysInMonth(y: nat, m: nat): (d: nat)
    requires 1 <= m <= 12
    ensures 28 <= d <= 31
  {
    match m
    case 4 => 30
    case 6 => 30
    case 9 => 30
    case 11 => 30
    case 2 => if Leap(y) then 29 else 28
    case _ => 31
  }

  /** Days before 1 January of year `y`. */
  function DaysBeforeYear(y: nat): int
    requires y >= 1
  {
    (y - 1) * 365 + (y - 1) / 4 - (y - 1) / 100 + (y - 1) / 400
  }

  function DaysBeforeMonth(y: nat, m: nat): nat
    requires 1 <= m <= 12
  {
    if m == 1 then 0 else DaysBeforeMonth(y, m - 1) + DaysInMonth(y, m - 1)
  }

  predicate ValidDate(d: Date) {
    d.year >= 1 && 1 <= d.month <= 12 && 1 <= d.day <= DaysInMonth(d.year, d.month)
  }

  /** Ordinal of the first of a month. */
  function MonthStart(y: nat, m: nat): int
    requires y >= 1 && 1 <= m <= 12
  {
    DaysBeforeYear(y) + DaysBeforeMonth(y, m) + 1
  }

  function Ordinal(d: Date): int
    requires ValidDate(d)
  {
    MonthStart(d.year, d.month) + d.day - 1
  }

  function NextMonth(y: nat, m: nat): (nat, nat) {
    if m == 12 then (y + 1, 1) else (y, m + 1)
  }

  lemma YearLength(y: nat)
    requires y >= 1
    ensures DaysBeforeYear(y + 1) == DaysBeforeYear(y) + (if Leap(y) then 366 else 365)
  {
    Fourth(y);
    Hundredth(y);
    FourHundredth(y);
  }

  lemma Fourth(y: nat)
    requires y >= 1
    ensures y / 4 == (y - 1) / 4 + (if y % 4 == 0 then 1 else 0)
  {
  }

  lemma Hundredth(y: nat)
    requires y >= 1
    ensures y / 100 == (y - 1) / 100 + (if y % 100 == 0 then 1 else 0)
    ensures y % 100 == 0 ==> y % 4 == 0
  {
  }

  lemma FourHundredth(y: nat)
    requires y >= 1
    ensures y / 400 == (y - 1) / 400 + (if y % 400 == 0 then 1 else 0)
    ensures y % 400 == 0 ==> y % 100 == 0
  {
  }

  lemma YearIsItsMonths(y: nat)
    ensures DaysBeforeMonth(y, 12) + DaysInMonth(y, 12) == if Leap(y) then 366 else 365
  {
    assert DaysBeforeMonth(y, 2) == 31;
    assert DaysBeforeMonth(y, 3) == 31 + DaysInMonth(y, 2);
    assert DaysBeforeMonth(y, 5) == DaysBeforeMonth(y, 3) + 61;
    assert DaysBeforeMonth(y, 7) == DaysBeforeMonth(y, 5) + 61;
    assert DaysBeforeMonth(y, 9) == DaysBeforeMonth(y, 7) + 62;
    assert DaysBeforeMonth(y, 11) == DaysBeforeMonth(y, 9) + 61;
  }

  /** Months abut: the next one starts right after the last day of this one. */
  lemma MonthsAbut(y: nat, m: nat)
    requires y >= 1 && 1 <= m <= 12
    ensures var (y1, m1) := NextMonth(y, m);
            MonthStart(y1, m1) == MonthStart(y, m) + DaysInMonth(y, m)
  {
    if m == 12 {
      YearLength(y);
      YearIsItsMonths(y);
    }
  }

  /** Months since year 0, so that months are ordered like integers. */
  function Index(y: nat, m: nat): int {
    12 * y + m
  }

  lemma {:induction false} MonthStartsIncrease(y: nat, m: nat, y1: nat, m1: nat)
    requires y >= 1 && 1 <= m <= 12 && y1 >= 1 && 1 <= m1 <= 12
    requires Index(y, m) < Index(y1, m1)
    ensures MonthStart(y, m) + DaysInMonth(y, m) <= MonthStart(y1, m1)
    decreases Index(y1, m1) - Index(y, m)
  {
    MonthsAbut(y, m);
    var (y2, m2) := NextMonth(y, m);
    if (y2, m2) != (y1, m1) {
      MonthStartsIncrease(y2, m2, y1, m1);
    }
  }

  // ------------------------------------------------------------------ dates of ordinals

  /** The date of ordinal `n`, found by walking the months from (y, m). */
  function Walk(y: nat, m: nat, n: int): (d: Date)
    requires y >= 1 && 1 <= m <= 12 && n >= MonthStart(y, m)
    ensures ValidDate(d) && Ordinal(d) == n
    decreases n - MonthStart(y, m)
  {
    if n < MonthStart(y, m) + DaysInMonth(y, m) then Date(y, m, n - MonthStart(y, m) + 1)
    else
      MonthsAbut(y, m);
      var (y1, m1) := NextMonth(y, m);
      Walk(y1, m1, n)
  }

  function DateOf(n: int): (d: Date)
    requires n >= 1
    ensures ValidDate(d) && Ordinal(d) == n
  {
    Walk(1, 1, n)
  }

  /** A valid date lies in month (y, m) exactly when its ordinal lies between that month's start and the next one's. */
  lemma MonthOfOrdinal(d: Date, y: nat, m: nat)
    requires ValidDate(d) && y >= 1 && 1 <= m <= 12
    ensures (d.year == y && d.month == m) <==> MonthStart(y, m) <= Ordinal(d) < MonthStart(y, m) + DaysInMonth(y, m)
  {
    if Index(d.year, d.month) < Index(y, m) {
      MonthStartsIncrease(d.year, d.month, y, m);
    } else if Index(y, m) < Index(d.year, d.month) {
      MonthStartsIncrease(y, m, d.year, d.month);
    }
  }

  /** The ordinal determines the date. */
  lemma OrdinalIsInjective(a: Date, b: Date)
    requires ValidDate(a) && ValidDate(b) && Ordinal(a) == Ordinal(b)
    ensures a == b
  {
    MonthOfOrdinal(a, b.year, b.month);
  }

  // ------------------------------------------------------------------ the attribution rule

  function UtcDate(t: Instant): (d: Date)
    ensures ValidDate(d)
  {
    DateOf(t / DAY)
  }

  /** `dhaka_report_date`: the calendar date of the instant at UTC+6. */
  function DhakaReportDate(t: Instant): (d: Date)
    ensures ValidDate(d)
  {
    DateOf((t + DHAKA_OFFSET) / DAY)
  }

  /** `dhaka_month_bounds_utc`; a month that ends after year 9999 is beyond Python's datetime. */
  function DhakaMonthBounds(year: int, month: int): Bounds {
    if !(1 <= month <= 12) then InvalidMonth
    else if year < 2020 then ImplausibleYear
    else if year > 9999 || (year == 9999 && month == 12) then OutOfRange
    else
      var start := MonthStart(year, month) * DAY - DHAKA_OFFSET;
      var end := if month == 12 then MonthStart(year + 1, 1) * DAY - DHAKA_OFFSET
                 else MonthStart(year, month + 1) * DAY - DHAKA_OFFSET;
      Range(start, end)
  }

  lemma DivBetween(x: int, a: int, b: int)
    ensures a * DAY <= x < b * DAY <==> a <= x / DAY < b
  {
  }

  /** The half-open range of a month holds exactly the instants whose report date falls in that month. */
  lemma MonthBoundsMatchReportDates(t: Instant, year: int, month: int)
    requires DhakaMonthBounds(year, month).Range?
    ensures var b := DhakaMonthBounds(year, month);
            b.start <= t < b.end <==> DhakaReportDate(t).year == year && DhakaReportDate(t).month == month
  {
    var n := (t + DHAKA_OFFSET) / DAY;
    MonthsAbut(year, month);
    MonthOfOrdinal(DateOf(n), year, month);
    DivBetween(t + DHAKA_OFFSET, MonthStart(year, month), MonthStart(year, month) + DaysInMonth(year, month));
  }

  /** Consecutive months abut, so they neither overlap nor leave a gap. */
  lemma MonthBoundsAbut(year: int, month: int)
    requires DhakaMonthBounds(year, month).Range?
    ensures var b := DhakaMonthBounds(year, month);
            var (y1, m1) := NextMonth(year, month);
            var b1 := DhakaMonthBounds(y1, m1);
            b.start < b.end && (b1.Range? ==> b.end == b1.start)
  {
    MonthsAbut(year, month);
  }

  /** Every instant from January 2020 (Dhaka) to the end of November 9999 lies in exactly one month range. */
  lemma MonthsPartitionTime(t: Instant)
    requires DhakaMonthBounds(2020, 1).start <= t < DhakaMonthBounds(9999, 11).end
    ensures var d := DhakaReportDate(t);
            && DhakaMonthBounds(d.year, d.month).Range?
            && DhakaMonthBounds(d.year, d.month).start <= t < DhakaMonthBounds(d.year, d.month).end
            && (forall y, m :: DhakaMonthBounds(y, m).Range? && DhakaMonthBounds(y, m).start <= t < DhakaMonthBounds(y, m).end
                  ==> y == d.year && m == d.month)
  {
    var d := DhakaReportDate(t);
    var n := (t + DHAKA_OFFSET) / DAY;
    DivBetween(t + DHAKA_OFFSET, MonthStart(2020, 1), MonthStart(9999, 12));
    if Index(d.year, d.month) < Index(2020, 1) {
      MonthStartsIncrease(d.year, d.month, 2020, 1);
    }
    if Index(9999, 12) <= Index(d.year, d.month) {
      MonthOfOrdinal(d, 9999, 12);
      if Index(9999, 12) < Index(d.year, d.month) {
        MonthStartsIncrease(9999, 12, d.year, d.month);
      }
    }
    MonthBoundsMatchReportDates(t, d.year, d.month);
    forall y, m | DhakaMonthBounds(y, m).Range? && DhakaMonthBounds(y, m).start <= t < DhakaMonthBounds(y, m).end
      ensures y == d.year && m == d.month
    {
      MonthBoundsMatchReportDates(t, y, m);
    }
  }

  /** The Dhaka and the UTC date of an instant agree exactly before 18:00 UTC. */
  lemma DhakaAndUtcAgreeBefore18(t: Instant)
    ensures DhakaReportDate(t) == UtcDate(t) <==> t % DAY < 18 * HOUR
  {
    var n := t / DAY;
    assert t == n * DAY + t % DAY;
    if t % DAY < 18 * HOUR {
      DivBetween(t + DHAKA_OFFSET, n, n + 1);
    } else {
      DivBetween(t + DHAKA_OFFSET, n + 1, n + 2);
      assert Ordinal(DhakaReportDate(t)) == n + 1;
    }
  }

  /** Day numbers are those of the proleptic Gregorian calendar: 400 years are 146097 days, and these dates have their usual
      numbers. */
  lemma CalendarIsGregorian(y: nat)
    requires y >= 1
    ensures DaysBeforeYear(y + 400) == DaysBeforeYear(y) + 146_097
    ensures Ordinal(Date(1970, 1, 1)) == 719_163 && Ordinal(Date(2020, 3, 1)) == Ordinal(Date(2020, 2, 28)) + 2
    ensures Ordinal(Date(1900, 3, 1)) == Ordinal(Date(1900, 2, 28)) + 1 && Ordinal(Date(2000, 3, 1)) == Ordinal(Date(2000, 2, 28)) + 2
  {
    assert DaysBeforeMonth(2020, 2) == 31 && DaysBeforeMonth(2020, 3) == 60;
    assert DaysBeforeMonth(1900, 2) == 31 && DaysBeforeMonth(1900, 3) == 59;
    assert DaysBeforeMonth(2000, 2) == 31 && DaysBeforeMonth(2000, 3) == 60;
  }

  /** Bounds are refused exactly for a month that is none, a year before 2020, or a range past the last representable year. */
  lemma BoundsRefusedExactly(year: int, month: int)
    ensures DhakaMonthBounds(year, month) == InvalidMonth <==> month < 1 || month > 12
    ensures DhakaMonthBounds(year, month) == ImplausibleYear <==> 1 <= month <= 12 && year < 2020
    ensures DhakaMonthBounds(year, month) == OutOfRange <==> 1 <= month <= 12 && (year > 9999 || (year == 9999 && month == 12))
  {
  }
}
