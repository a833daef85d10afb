/** The calendar behind the bucket labels: the proleptic Gregorian dates of package time and
    the week dates of section 4.1.4 of ISO 8601:2004. Days are counted from 1970-01-01, a
    Thursday. */
module Calendar {

  datatype Date = Date(year: int, month: int, day: int)

  predicate Leap(y: int) {
    y % 4 == 0 && (y % 100 != 0 || y % 400 == 0)
  }

  /** The number of 1 January of year y. */
  function YearStart(y: int): int {
    var p := y - 1;
    365 * p + p / 4 - p / 100 + p / 400 - 719162
  }

  function YearLength(y: int): int {
    if Leap(y) then 366 else 365
  }

  lemma YearsAdjoin(y: int)
    ensures YearStart(y + 1) == YearStart(y) + YearLength(y)
  {
    LeapStep(y, 4);
    LeapStep(y, 100);
    LeapStep(y, 400);
    Multiples(y);
  }

  lemma Hundreds(k: int)
    ensures (100 * k) % 100 == 0
  {
  }

  lemma Fours(k: int)
    ensures (4 * k) % 4 == 0
  {
  }

  lemma Multiples(y: int)
    ensures (y % 400 == 0 ==> y % 100 == 0) && (y % 100 == 0 ==> y % 4 == 0)
  {
    if y % 400 == 0 {
      assert y == 100 * (4 * (y / 400));
      Hundreds(4 * (y / 400));
    }
    if y % 100 == 0 {
      assert y == 4 * (25 * (y / 100));
      Fours(25 * (y / 100));
    }
  }

  lemma LeapStep(y: int, n: int)
    requires n == 4 || n == 100 || n == 400
    ensures y / n == (y - 1) / n + if y % n == 0 then 1 else 0
  {
  }

  lemma {:induction false} YearsOrdered(y: int, z: int)
    requires y <= z
    ensures YearStart(y) + 365 * (z - y) <= YearStart(z)
    decreases z - y
  {
    if y < z {
      YearsOrdered(y, z - 1);
      YearsAdjoin(z - 1);
    }
  }

  /** A first guess at the year, never off by more than one. */
  function YearGuess(day: int): int {
    day * 400 / 146097 + 1970
  }

  lemma GuessIsClose(day: int)
    ensures YearStart(YearGuess(day) - 1) <= day < YearStart(YearGuess(day) + 2)
  {
    var q := day * 400 / 146097;
    assert 146097 * q <= 400 * day < 146097 * q + 146097;
    StartBounds(q + 1969);
    StartBounds(q + 1972);
  }

  lemma StartBounds(y: int)
    ensures 146097 * (y - 1970) - 1200 <= 400 * YearStart(y) <= 146097 * (y - 1970) + 1200
  {
    var p := y - 1;
    assert 4 * (p / 4) <= p < 4 * (p / 4) + 4;
    assert 100 * (p / 100) <= p < 100 * (p / 100) + 100;
    assert 400 * (p / 400) <= p < 400 * (p / 400) + 400;
  }

  function YearOf(day: int): (y: int)
    ensures YearStart(y) <= day < YearStart(y + 1)
  {
    GuessIsClose(day);
    var g := YearGuess(day);
    if day < YearStart(g) then g - 1 else if day < YearStart(g + 1) then g else g + 1
  }

  // ----- months

  /** Days of the year before month m. */
  function Before(m: int, leap: bool): int
    requires 1 <= m <= 13
  {
    [0, 31, 59, 90, 120, 151, 181, 212, 243, 273, 304, 334, 365][m - 1] + if leap && m > 2 then 1 else 0
  }

  function MonthAt(yday: int, leap: bool, m: int): (r: int)
    requires 0 <= yday && 1 <= m <= 12 && yday < Before(m + 1, leap)
    ensures 1 <= r <= 12 && Before(r, leap) <= yday < Before(r + 1, leap)
  {
    if Before(m, leap) <= yday then m else MonthAt(yday, leap, m - 1)
  }

  function DateOf(day: int): (d: Date)
    ensures 1 <= d.month <= 12
  {
    var y := YearOf(day);
    YearsAdjoin(y);
    var yday := day - YearStart(y);
    var m := MonthAt(yday, Leap(y), 12);
    Date(y, m, yday - Before(m, Leap(y)) + 1)
  }

  /** time.Date at midnight, of a date in its normal form or off by some days. */
  function DayOf(d: Date): int
    requires 1 <= d.month <= 12
  {
    YearStart(d.year) + Before(d.month, Leap(d.year)) + d.day - 1
  }

  /** Dates name days, one each. */
  lemma DateRoundTrip(day: int)
    ensures DayOf(DateOf(day)) == day
  {
  }

  lemma DatesDiffer(a: int, b: int)
    requires DateOf(a) == DateOf(b)
    ensures a == b
  {
    DateRoundTrip(a);
    DateRoundTrip(b);
  }

  lemma LeapExactly(y: int)
    ensures Leap(y) <==> y % 400 == 0 || (y % 4 == 0 && y % 100 != 0)
  {
    Multiples(y);
  }

  lemma YearOnly(day: int, y: int)
    requires YearStart(y) <= day < YearStart(y + 1)
    ensures YearOf(day) == y
  {
    var z := YearOf(day);
    if z < y { YearsOrdered(z + 1, y); }
    if y < z { YearsOrdered(y + 1, z); }
  }

  /** The days of a month: thirty-one, thirty, or those of February. */
  predicate MonthHas(leap: bool, m: int, days: int) {
    || (m in {1, 3, 5, 7, 8, 10, 12} && days == 31)
    || (m in {4, 6, 9, 11} && days == 30)
    || (m == 2 && days == if leap then 29 else 28)
  }

  lemma MonthLengths(leap: bool, m: int)
    requires 1 <= m <= 12
    ensures MonthHas(leap, m, Before(m + 1, leap) - Before(m, leap))
  {
  }

  lemma MonthsOrdered(leap: bool, m: int, n: int)
    requires 1 <= m <= n <= 13
    ensures Before(m, leap) <= Before(n, leap)
  {
  }

  lemma {:induction false} MonthFrom(yday: int, leap: bool, m: int, n: int)
    requires 1 <= m <= n <= 12 && 0 <= yday < Before(n + 1, leap) && Before(m, leap) <= yday < Before(m + 1, leap)
    ensures MonthAt(yday, leap, n) == m
    decreases n
  {
    if m < n {
      MonthsOrdered(leap, m + 1, n);
      MonthFrom(yday, leap, m, n - 1);
    }
  }

  /** A day that is day d of month m of year y is dated so. */
  lemma DateIs(day: int, y: int, m: int, d: int)
    requires 1 <= m <= 12 && day == YearStart(y) + Before(m, Leap(y)) + d - 1
    requires 1 <= d <= Before(m + 1, Leap(y)) - Before(m, Leap(y))
    ensures DateOf(day) == Date(y, m, d)
  {
    var yday := day - YearStart(y);
    MonthsOrdered(Leap(y), 1, m);
    MonthsOrdered(Leap(y), m + 1, 13);
    YearsAdjoin(y);
    YearEnds(Leap(y));
    YearOnly(day, y);
    MonthFrom(yday, Leap(y), m, 12);
  }

  lemma YearEnds(leap: bool)
    ensures Before(1, leap) == 0 && Before(13, leap) == if leap then 366 else 365
  {
  }

  lemma DateSpells(day: int)
    ensures Valid(DateOf(day)) && DayOf(DateOf(day)) == day
  {
  }

  lemma FirstOfYear(y: int)
    ensures DateOf(YearStart(y)) == Date(y, 1, 1)
  {
    YearEnds(Leap(y));
    MonthLengths(Leap(y), 1);
    DateIs(YearStart(y), y, 1, 1);
  }

  /** The calendar starts with 1970, on a Thursday. */
  lemma EpochIs()
    ensures YearStart(1970) == 0 && Weekday(0) == 4
  {
  }

  /** The date after a date: the next of its month, or the first of the next month, and after
      31 December that of the next year. */
  function NextOf(d: Date): Date {
    if !MonthHas(Leap(d.year), d.month, d.day) then Date(d.year, d.month, d.day + 1)
    else if d.month < 12 then Date(d.year, d.month + 1, 1)
    else Date(d.year + 1, 1, 1)
  }

  predicate Valid(d: Date) {
    1 <= d.month <= 12 && 1 <= d.day <= Before(d.month + 1, Leap(d.year)) - Before(d.month, Leap(d.year))
  }

  lemma NextInYear(leap: bool, m: int, d: int)
    requires 1 <= m <= 12 && 1 <= d <= Before(m + 1, leap) - Before(m, leap)
    ensures MonthHas(leap, m, d) <==> d == Before(m + 1, leap) - Before(m, leap)
    ensures m < 12 ==> Before(m + 2, leap) - Before(m + 1, leap) >= 28
  {
    MonthLengths(leap, m);
    if m < 12 { MonthLengths(leap, m + 1); }
  }

  lemma NextDayOf(d: Date)
    requires Valid(d)
    ensures Valid(NextOf(d)) && DayOf(NextOf(d)) == DayOf(d) + 1
  {
    var leap := Leap(d.year);
    NextInYear(leap, d.month, d.day);
    if MonthHas(leap, d.month, d.day) && d.month == 12 {
      YearsAdjoin(d.year);
      YearEnds(leap);
      YearEnds(Leap(d.year + 1));
      MonthLengths(Leap(d.year + 1), 1);
    }
  }

  /** The day after a day has the next date. */
  lemma NextDate(day: int)
    ensures DateOf(day + 1) == NextOf(DateOf(day))
  {
    var d := DateOf(day);
    DateSpells(day);
    NextDayOf(d);
    NextDated(day + 1, NextOf(d));
  }

  lemma NextDated(day: int, d: Date)
    requires Valid(d) && day == DayOf(d)
    ensures DateOf(day) == d
  {
    DateIs(day, d.year, d.month, d.day);
  }

  // ----- weeks

  /** time.Weekday: Sunday is 0. */
  function Weekday(day: int): (w: int)
    ensures 0 <= w < 7
  {
    (day + 4) % 7
  }

  /** Days since Monday. */
  function SinceMonday(day: int): (n: int)
    ensures 0 <= n < 7
  {
    if Weekday(day) == 0 then 6 else Weekday(day) - 1
  }

  function Monday(day: int): int {
    day - SinceMonday(day)
  }

  lemma MondayIsMonday(day: int)
    ensures SinceMonday(Monday(day)) == 0
    ensures Weekday(Monday(day)) == 1 && Monday(day) <= day < Monday(day) + 7
  {
  }

  /** The Thursday of a day's week. Thursdays are the multiples of 7. */
  function Thursday(day: int): (t: int)
    ensures t % 7 == 0 && t - 3 <= day <= t + 3 && t == Monday(day) + 3
  {
    Monday(day) + 3
  }

  /** time.Time.ISOWeek: the year of the week's Thursday, and which of its Thursdays it is. */
  function IsoWeek(day: int): (int, int) {
    var y := YearOf(Thursday(day));
    (y, (Thursday(day) - YearStart(y)) / 7 + 1)
  }

  lemma ThursdaysOfAYear(t: int, u: int, start: int)
    requires t % 7 == u % 7 == 0
    ensures (t - start) / 7 == (u - start) / 7 ==> t == u
    ensures start <= u < start + 7 ==> t == u + 7 * ((t - start) / 7)
  {
    var a, b := t / 7, u / 7;
    assert t == 7 * a && u == 7 * b;
  }

  /** A week date names one week, also where a week belongs to two calendar years. */
  lemma IsoWeeksDiffer(a: int, b: int)
    requires IsoWeek(a) == IsoWeek(b)
    ensures Monday(a) == Monday(b)
  {
    ThursdaysOfAYear(Thursday(a), Thursday(b), YearStart(YearOf(Thursday(a))));
  }

  /** Weeks are numbered 1 to 53, and the first is the one with 4 January in it. */
  lemma IsoWeekIs(day: int)
    ensures 1 <= IsoWeek(day).1 <= 53
    ensures Monday(day) == Monday(YearStart(IsoWeek(day).0) + 3) + 7 * (IsoWeek(day).1 - 1)
  {
    var y := IsoWeek(day).0;
    YearsAdjoin(y);
    FirstWeek(Thursday(day), Thursday(YearStart(y) + 3), YearStart(y), YearLength(y));
  }

  lemma FirstWeek(t: int, first: int, start: int, length: int)
    requires t % 7 == first % 7 == 0 && start <= first < start + 7
    requires start <= t < start + length && length <= 366
    ensures 0 <= (t - start) / 7 <= 52 && t == first + 7 * ((t - start) / 7)
  {
    ThursdaysOfAYear(t, first, start);
  }
}
