/**
 * Gregorian calendar arithmetic shared by the attendance screens, the salary
 * calculation and the date presets: month lengths, weekdays, month stepping
 * and calendar dates ordered as the "yyyy-MM-dd" strings the screens exchange.
 */
module Calendar {

  predicate IsMonth(m: int) { 1 <= m <= 12 }

  predicate IsLeapYear(y: int)
  {
    (y % 4 == 0 && y % 100 != 0) || y % 400 == 0
  }

  function DaysInMonth(y: int, m: int): (n: int)
    requires IsMonth(m)
    ensures 28 <= n <= 31
    ensures m == 2 ==> (n == 29 <==> IsLeapYear(y))
    ensures m in {4, 6, 9, 11} ==> n == 30
    ensures m in {1, 3, 5, 7, 8, 10, 12} ==> n == 31
  {
    if m == 2 then (if IsLeapYear(y) then 29 else 28)
    else if m in {4, 6, 9, 11} then 30
    else 31
  }

  datatype Date = Date(year: int, month: int, day: int)
  {
    predicate Valid() { IsMonth(month) && 1 <= day <= DaysInMonth(year, month) }
  }

  /** Calendar order, which is also the order of the zero-padded "yyyy-MM-dd" strings. */
  predicate NotAfter(a: Date, b: Date)
  {
    a.year < b.year
    || (a.year == b.year && a.month < b.month)
    || (a.year == b.year && a.month == b.month && a.day <= b.day)
  }

  /**
   * Days since 1 January 1970 (proleptic Gregorian), by the standard
   * era/year-of-era decomposition. Dafny's `/` on a positive divisor floors.
   */
  function DayNumber(d: Date): int
    requires IsMonth(d.month)
  {
    var y := if d.month <= 2 then d.year - 1 else d.year;
    var era := y / 400;
    var yoe := y - era * 400;
    var mp := if d.month > 2 then d.month - 3 else d.month + 9;
    var doy := (153 * mp + 2) / 5 + d.day - 1;
    var doe := yoe * 365 + yoe / 4 - yoe / 100 + doy;
    era * 146097 + doe - 719468
  }

  /** `Date.getDay()`: 0 is Sunday (1 January 1970 was a Thursday, 4). */
  function JsWeekday(d: Date): (w: int)
    requires IsMonth(d.month)
    ensures 0 <= w <= 6
  {
    (DayNumber(d) + 4) % 7
  }

  /** 1 January 1970 was a Thursday. */
  lemma JsWeekdayEpoch()
    ensures DayNumber(Date(1970, 1, 1)) == 0 && JsWeekday(Date(1970, 1, 1)) == 4
  {
  }

  /** The calendar day after `d`. */
  function NextDay(d: Date): (r: Date)
    requires d.Valid()
    ensures r.Valid() && NotAfter(d, r) && r != d
  {
    if d.day < DaysInMonth(d.year, d.month) then Date(d.year, d.month, d.day + 1)
    else if d.month < 12 then Date(d.year, d.month + 1, 1)
    else Date(d.year + 1, 1, 1)
  }

  /** Each next day moves the weekday on by one, Saturday (6) wrapping to Sunday (0). */
  lemma JsWeekdayNext(d: Date)
    requires d.Valid()
    ensures JsWeekday(NextDay(d)) == (JsWeekday(d) + 1) % 7
  {
    DayNumberNext(d);
    WeekStep(DayNumber(d));
  }

  lemma WeekStep(x: int)
    ensures (x + 1 + 4) % 7 == ((x + 4) % 7 + 1) % 7
  {
  }

  /** Consecutive days have consecutive day numbers. */
  lemma DayNumberNext(d: Date)
    requires d.Valid()
    ensures DayNumber(NextDay(d)) == DayNumber(d) + 1
  {
    if d.day < DaysInMonth(d.year, d.month) {
      assert NextDay(d) == d.(day := d.day + 1);
    } else if d.month == 2 {
      EndOfFebruary(d);
    } else if d.month < 12 {
      LastDayOfMonth(d);
    } else {
      EndOfYear(d);
    }
  }

  lemma EndOfFebruary(d: Date)
    requires d.Valid() && d.month == 2 && d.day == DaysInMonth(d.year, 2)
    ensures DayNumber(Date(d.year, 3, 1)) == DayNumber(d) + 1
  {
    YearLength(d.year - 1);
    assert DayNumber(d) == MarchDays(d.year - 1) + MonthStart(11) + d.day - 1 - 719468;
    assert DayNumber(Date(d.year, 3, 1)) == MarchDays(d.year) + MonthStart(0) - 719468;
  }

  lemma LastDayOfMonth(d: Date)
    requires d.Valid() && d.month != 2 && d.month < 12 && d.day == DaysInMonth(d.year, d.month)
    ensures DayNumber(Date(d.year, d.month + 1, 1)) == DayNumber(d) + 1
  {
    MonthStarts(d.month);
    var y := if d.month <= 2 then d.year - 1 else d.year;
    var mp := if d.month > 2 then d.month - 3 else d.month + 9;
    assert DaysInMonth(d.year, d.month) == DaysInMonth(2000, d.month);
    assert DayNumber(d) == MarchDays(y) + MonthStart(mp) + d.day - 1 - 719468;
    assert DayNumber(Date(d.year, d.month + 1, 1)) == MarchDays(y) + MonthStart(mp + 1) - 719468;
  }

  lemma EndOfYear(d: Date)
    requires d.Valid() && d.month == 12 && d.day == 31
    ensures DayNumber(Date(d.year + 1, 1, 1)) == DayNumber(d) + 1
  {
    MonthStarts(12);
    assert DayNumber(d) == MarchDays(d.year) + MonthStart(9) + 30 - 719468;
    assert DayNumber(Date(d.year + 1, 1, 1)) == MarchDays(d.year) + MonthStart(10) - 719468;
  }

  /** The day of the March-based year on which each month starts. */
  function MonthStart(mp: int): int { (153 * mp + 2) / 5 }

  lemma MonthStarts(m: int)
    requires IsMonth(m) && m != 2
    ensures var mp := if m > 2 then m - 3 else m + 9;
            m != 12 ==> MonthStart(mp + 1) == MonthStart(mp) + DaysInMonth(2000, m)
    ensures m == 12 ==> MonthStart(10) == MonthStart(9) + 31
  {
  }

  /** Days from 1 March of year 0 to 1 March of year `y`. */
  function MarchDays(y: int): int
  {
    var era := y / 400;
    var yoe := y - era * 400;
    era * 146097 + yoe * 365 + yoe / 4 - yoe / 100
  }

  /** The year from 1 March of `y` to the end of February has 365 days, 366 when February 29 exists. */
  lemma YearLength(y: int)
    ensures MarchDays(y + 1) == MarchDays(y) + 365 + (if IsLeapYear(y + 1) then 1 else 0)
  {
    var era := y / 400;
    var n := y - era * 400;
    assert 0 <= n < 400;
    if n == 399 {
      assert (y + 1) / 400 == era + 1;
      assert (y + 1) % 400 == 0;
    } else {
      assert (y + 1) / 400 == era;
      StepQuarter(n);
      StepCentury(n);
      ShiftRemainders(era, n + 1);
      assert y + 1 == era * 400 + (n + 1);
    }
  }

  lemma StepQuarter(n: int)
    ensures (n + 1) / 4 == n / 4 + (if (n + 1) % 4 == 0 then 1 else 0)
  {
  }

  lemma StepCentury(n: int)
    ensures (n + 1) / 100 == n / 100 + (if (n + 1) % 100 == 0 then 1 else 0)
  {
  }

  lemma ShiftRemainders(era: int, a: int)
    ensures (era * 400 + a) % 4 == a % 4
    ensures (era * 400 + a) % 100 == a % 100
  {
    ShiftQuarter(era * 100, a);
    ShiftCentury(era * 4, a);
  }

  lemma ShiftQuarter(q: int, a: int)
    ensures (4 * q + a) % 4 == a % 4
  {
  }

  lemma ShiftCentury(q: int, a: int)
    ensures (100 * q + a) % 100 == a % 100
  {
  }

  /** A selected (month, year) pair as the attendance screens hold it. */
  datatype YearMonth = YearMonth(year: int, month: int)
  {
    predicate Valid() { IsMonth(month) }
  }

  function PreviousMonth(ym: YearMonth): (r: YearMonth)
    requires ym.Valid()
    ensures r.Valid()
    ensures ym.month == 1 ==> r == YearMonth(ym.year - 1, 12)
    ensures ym.month > 1 ==> r == YearMonth(ym.year, ym.month - 1)
  {
    if ym.month == 1 then YearMonth(ym.year - 1, 12) else YearMonth(ym.year, ym.month - 1)
  }

  function NextMonth(ym: YearMonth): (r: YearMonth)
    requires ym.Valid()
    ensures r.Valid()
    ensures ym.month == 12 ==> r == YearMonth(ym.year + 1, 1)
    ensures ym.month < 12 ==> r == YearMonth(ym.year, ym.month + 1)
  {
    if ym.month == 12 then YearMonth(ym.year + 1, 1) else YearMonth(ym.year, ym.month + 1)
  }

  /** Months counted from year 0; stepping moves this index by exactly one. */
  function MonthIndex(ym: YearMonth): int { ym.year * 12 + ym.month - 1 }

  function FromMonthIndex(i: int): (r: YearMonth)
    ensures r.Valid() && MonthIndex(r) == i
  {
    YearMonth(i / 12, i % 12 + 1)
  }

  lemma MonthIndexInjective(a: YearMonth, b: YearMonth)
    requires a.Valid() && b.Valid() && MonthIndex(a) == MonthIndex(b)
    ensures a == b
  {
  }

  /** Stepping back and then forward (or forward and then back) returns to the same month. */
  lemma MonthNavigationInverse(ym: YearMonth)
    requires ym.Valid()
    ensures NextMonth(PreviousMonth(ym)) == ym
    ensures PreviousMonth(NextMonth(ym)) == ym
    ensures MonthIndex(NextMonth(ym)) == MonthIndex(ym) + 1
    ensures MonthIndex(PreviousMonth(ym)) == MonthIndex(ym) - 1
  {
  }

  /** `subMonths(date, k)` as far as the month is concerned. */
  function MonthsBack(ym: YearMonth, k: nat): (r: YearMonth)
    ensures r.Valid() && MonthIndex(r) == MonthIndex(ym) - k
  {
    FromMonthIndex(MonthIndex(ym) - k)
  }

  function StartOfMonth(ym: YearMonth): (d: Date)
    requires ym.Valid()
    ensures d.Valid() && d.day == 1 && d.year == ym.year && d.month == ym.month
  {
    Date(ym.year, ym.month, 1)
  }

  function EndOfMonth(ym: YearMonth): (d: Date)
    requires ym.Valid()
    ensures d.Valid() && d.year == ym.year && d.month == ym.month
    ensures d.day == DaysInMonth(ym.year, ym.month)
  {
    Date(ym.year, ym.month, DaysInMonth(ym.year, ym.month))
  }

  lemma NotAfterByMonthIndex(a: Date, b: Date)
    requires a.Valid() && b.Valid()
    requires MonthIndex(YearMonth(a.year, a.month)) < MonthIndex(YearMonth(b.year, b.month))
    ensures NotAfter(a, b)
  {
  }
}
