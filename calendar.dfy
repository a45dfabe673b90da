/** The proleptic Gregorian calendar, as far as the feature transform needs it:
    which dates exist, and a day number for each date such that the date n
    days after another has a day number n larger. */
module Calendar {

  datatype Date = Date(year: int, month: int, day: int)

  predicate IsLeapYear(y: int) {
    y % 4 == 0 && (y % 100 != 0 || y % 400 == 0)
  }

  function DaysInMonth(y: int, m: int): (n: int)
    requires 1 <= m <= 12
    ensures 28 <= n <= 31
    ensures m == 2 ==> (n == 29 <==> IsLeapYear(y))
  {
    if m == 2 then (if IsLeapYear(y) then 29 else 28)
    else if m == 4 || m == 6 || m == 9 || m == 11 then 30
    else 31
  }

  /** A date that exists in the calendar: month 1 to 12, day valid for that month. */
  predicate ValidDate(d: Date) {
    1 <= d.month <= 12 && 1 <= d.day <= DaysInMonth(d.year, d.month)
  }

  /** Days since 1970-01-01 (negative before it). Years are counted from March,
      so that the leap day is the last day of a counting year; `/` and `%` on
      int round towards negative infinity for a positive divisor, so the formula
      holds for every year. */
  function DaysFromCivil(d: Date): (r: int)
    requires 1 <= d.month <= 12
    ensures ValidDate(d) ==> (0 <= r <==> 1970 <= d.year)
  {
    var y := if d.month <= 2 then d.year - 1 else d.year;
    var era := y / 400;
    var yoe := y % 400;
    var mp := if d.month > 2 then d.month - 3 else d.month + 9;
    var doy := (153 * mp + 2) / 5 + d.day - 1;
    var doe := yoe * 365 + yoe / 4 - yoe / 100 + doy;
    era * 146097 + doe - 719468
  }

  /** The calendar's successor: the date one day later. */
  function NextDay(d: Date): (n: Date)
    requires ValidDate(d)
    ensures ValidDate(n)
    ensures n.year == d.year || (n.year == d.year + 1 && n.month == 1 && n.day == 1)
  {
    if d.day < DaysInMonth(d.year, d.month) then Date(d.year, d.month, d.day + 1)
    else if d.month < 12 then Date(d.year, d.month + 1, 1)
    else Date(d.year + 1, 1, 1)
  }

  /** 1970-01-01 is day 0. */
  lemma EpochIsDayZero()
    ensures DaysFromCivil(Date(1970, 1, 1)) == 0
  {
  }

  /** Day-of-era arithmetic: one more year of the 400-year era adds 365 days,
      plus one when the year it ends in has a leap day. */
  lemma EraYearStep(r: int)
    requires 0 <= r < 399
    ensures var k := r + 1;
            (k * 365 + k / 4 - k / 100) - (r * 365 + r / 4 - r / 100)
            == 365 + (if k % 4 == 0 && k % 100 != 0 then 1 else 0)
  {
  }

  /** A positive multiple of m is at least m. */
  lemma {:induction false} MultipleAtLeast(m: int, d: int)
    requires m > 0 && d >= 1
    ensures m * d >= m
    decreases d
  {
    if d > 1 {
      MultipleAtLeast(m, d - 1);
      assert m * d == m * (d - 1) + m;
    }
  }

  /** The remainder of y by a positive divisor m is the r of any way of
      writing y as m * x + r with 0 <= r < m. */
  lemma ModUnique(y: int, m: int, x: int, r: int)
    requires m > 0 && y == m * x + r && 0 <= r < m
    ensures y % m == r
  {
    var q, s := y / m, y % m;
    assert y == m * q + s && 0 <= s < m;
    if q < x {
      MultipleAtLeast(m, x - q);
      assert false;
    } else if q > x {
      MultipleAtLeast(m, q - x);
      assert false;
    }
  }

  /** Leap years repeat every 400 years. */
  lemma LeapYearPeriodic(q: int, k: int)
    requires 0 <= k < 400
    ensures IsLeapYear(400 * q + k) <==> (k % 4 == 0 && (k % 100 != 0 || k == 0))
  {
    var y := 400 * q + k;
    ModUnique(y, 4, 100 * q + k / 4, k % 4);
    ModUnique(y, 100, 4 * q + k / 100, k % 100);
    ModUnique(y, 400, q, k);
  }

  /** Length of the March-based counting year that starts in year y: from the
      last day of February of y + 1 to the first of March is one day. */
  lemma CountingYearLength(y: int)
    ensures var a := Date(y + 1, 2, DaysInMonth(y + 1, 2));
            DaysFromCivil(Date(y + 1, 3, 1)) == DaysFromCivil(a) + 1
  {
    var q := y / 400;
    var r := y % 400;
    var feb := DaysInMonth(y + 1, 2);
    assert DaysFromCivil(Date(y + 1, 2, feb)) == q * 146097 + (r * 365 + r / 4 - r / 100 + 336 + feb) - 719468;
    if r < 399 {
      assert y + 1 == 400 * q + (r + 1);
      assert (y + 1) / 400 == q && (y + 1) % 400 == r + 1;
      LeapYearPeriodic(q, r + 1);
      EraYearStep(r);
      var k := r + 1;
      assert DaysFromCivil(Date(y + 1, 3, 1)) == q * 146097 + (k * 365 + k / 4 - k / 100) - 719468;
    } else {
      assert y + 1 == 400 * (q + 1);
      assert (y + 1) / 400 == q + 1 && (y + 1) % 400 == 0;
      LeapYearPeriodic(q + 1, 0);
      assert DaysFromCivil(Date(y + 1, 3, 1)) == (q + 1) * 146097 - 719468;
    }
  }

  /** Within a month, the next day has the next day number. */
  lemma NextDayInMonth(d: Date)
    requires ValidDate(d) && d.day < DaysInMonth(d.year, d.month)
    ensures DaysFromCivil(Date(d.year, d.month, d.day + 1)) == DaysFromCivil(d) + 1
  {
  }

  /** From the last day of a month other than February and December, the
      first of the next month has the next day number. */
  lemma NextDayNewMonth(d: Date)
    requires ValidDate(d) && d.day == DaysInMonth(d.year, d.month)
    requires d.month != 2 && d.month < 12
    ensures DaysFromCivil(Date(d.year, d.month + 1, 1)) == DaysFromCivil(d) + 1
  {
  }

  /** From 31 December, 1 January of the next year has the next day number. */
  lemma NextDayNewYear(d: Date)
    requires ValidDate(d) && d.month == 12 && d.day == 31
    ensures DaysFromCivil(Date(d.year + 1, 1, 1)) == DaysFromCivil(d) + 1
  {
  }

  /** DaysFromCivil counts days: the next calendar day has the next day number. */
  lemma DaysFromCivilNextDay(d: Date)
    requires ValidDate(d)
    ensures DaysFromCivil(NextDay(d)) == DaysFromCivil(d) + 1
  {
    if d.day < DaysInMonth(d.year, d.month) {
      assert NextDay(d) == Date(d.year, d.month, d.day + 1);
      NextDayInMonth(d);
    } else if d.month == 2 {
      assert NextDay(d) == Date(d.year, 3, 1);
      CountingYearLength(d.year - 1);
    } else if d.month < 12 {
      assert NextDay(d) == Date(d.year, d.month + 1, 1);
      NextDayNewMonth(d);
    } else {
      assert NextDay(d) == Date(d.year + 1, 1, 1);
      NextDayNewYear(d);
    }
  }

  /** The date n days after d, stepping through the calendar one day at a time. */
  function DaysAfter(d: Date, n: nat): (r: Date)
    requires ValidDate(d)
    ensures ValidDate(r)
    decreases n
  {
    if n == 0 then d else DaysAfter(NextDay(d), n - 1)
  }

  /** Day numbers measure elapsed days: n calendar steps later is n day numbers later. */
  lemma {:induction false} DaysFromCivilDaysAfter(d: Date, n: nat)
    requires ValidDate(d)
    ensures DaysFromCivil(DaysAfter(d, n)) == DaysFromCivil(d) + n
    decreases n
  {
    if n > 0 {
      DaysFromCivilNextDay(d);
      DaysFromCivilDaysAfter(NextDay(d), n - 1);
    }
  }
}
