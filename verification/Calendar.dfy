/**
 * The proleptic Gregorian calendar as ECMA-262, section 21.4.1 defines it for Date values, on a
 * local clock without shifts: a time is a number of milliseconds of local time since 1970-01-01.
 * Months are numbered consecutively, month k being month k % 12 of year k / 12.
 */
module Calendar {
  const MS_PER_MINUTE: int := 60_000
  const MS_PER_HOUR: int := 3_600_000
  const MS_PER_DAY: int := 86_400_000

  function Day(t: int): int { t / MS_PER_DAY }

  function HourOf(t: int): int { t % MS_PER_DAY / MS_PER_HOUR }

  function MinuteOf(t: int): int { t % MS_PER_HOUR / MS_PER_MINUTE }

  /** 0 is Sunday; day 0 was a Thursday. */
  function WeekDay(t: int): int { (Day(t) + 4) % 7 }

  predicate Leap(year: int) {
    year % 4 == 0 && (year % 100 != 0 || year % 400 == 0)
  }

  /** The number of the first day of a year. */
  function YearStart(year: int): int {
    365 * (year - 1970) + (year - 1969) / 4 - (year - 1901) / 100 + (year - 1601) / 400
  }

  /** Days of the year that precede a month, 0 being January. */
  function DaysBefore(month: int, leap: bool): int
    requires 0 <= month < 12
  {
    (if leap && month >= 2 then 1 else 0)
    + (if month == 0 then 0 else if month == 1 then 31 else if month == 2 then 59 else if month == 3 then 90
       else if month == 4 then 120 else if month == 5 then 151 else if month == 6 then 181
       else if month == 7 then 212 else if month == 8 then 243 else if month == 9 then 273
       else if month == 10 then 304 else 334)
  }

  /** The number of the first day of month k. */
  function MonthStart(k: int): int {
    YearStart(k / 12) + DaysBefore(k % 12, Leap(k / 12))
  }

  lemma {:induction false} QuotientSteps(x: int)
    ensures (x + 1) / 4 == x / 4 + if (x + 1) % 4 == 0 then 1 else 0
    ensures (x + 1) / 100 == x / 100 + if (x + 1) % 100 == 0 then 1 else 0
    ensures (x + 1) / 400 == x / 400 + if (x + 1) % 400 == 0 then 1 else 0
  {
  }

  lemma {:induction false} YearLength(year: int)
    ensures YearStart(year + 1) - YearStart(year) == if Leap(year) then 366 else 365
  {
    QuotientSteps(year - 1969);
    QuotientSteps(year - 1901);
    QuotientSteps(year - 1601);
    SameRemainders(year);
  }

  lemma {:induction false} SameRemainders(year: int)
    ensures (year - 1968) % 4 == year % 4 && (year - 1900) % 100 == year % 100 && (year - 1600) % 400 == year % 400
    ensures year % 400 == 0 ==> year % 100 == 0
    ensures year % 100 == 0 ==> year % 4 == 0
  {
    BackByFours(year);
    BackByHundreds(year);
    BackByFourHundreds(year);
  }

  lemma {:induction false} BackByFours(year: int)
    ensures (year - 1968) % 4 == year % 4
  {
    var q, r := year / 4, year % 4;
    assert year - 1968 == 4 * (q - 492) + r;
  }

  lemma {:induction false} BackByHundreds(year: int)
    ensures (year - 1900) % 100 == year % 100
    ensures year % 100 == 0 ==> year % 4 == 0
  {
    var q, r := year / 100, year % 100;
    assert year - 1900 == 100 * (q - 19) + r;
    if r == 0 { assert year == 4 * (25 * q); }
  }

  lemma {:induction false} BackByFourHundreds(year: int)
    ensures (year - 1600) % 400 == year % 400
    ensures year % 400 == 0 ==> year % 100 == 0
  {
    var q, r := year / 400, year % 400;
    assert year - 1600 == 400 * (q - 4) + r;
    if r == 0 { assert year == 100 * (4 * q); }
  }

  /** Every month has between 28 and 31 days. */
  lemma {:induction false} MonthLength(k: int)
    ensures 28 <= MonthStart(k + 1) - MonthStart(k) <= 31
  {
    YearLength(k / 12);
    if k % 12 == 11 {
      assert (k + 1) / 12 == k / 12 + 1 && (k + 1) % 12 == 0;
    } else {
      assert (k + 1) / 12 == k / 12 && (k + 1) % 12 == k % 12 + 1;
    }
  }

  lemma {:induction false} MonthsAscend(j: int, k: int)
    requires j <= k
    ensures MonthStart(j) + 28 * (k - j) <= MonthStart(k)
    decreases k - j
  {
    if j < k {
      MonthLength(k - 1);
      MonthsAscend(j, k - 1);
      AddMonth(MonthStart(j), MonthStart(k - 1), MonthStart(k), k - j);
    }
  }

  lemma {:induction false} AddMonth(a: int, b: int, c: int, n: int)
    requires a + 28 * (n - 1) <= b && b + 28 <= c
    ensures a + 28 * n <= c
  {
  }

  // ---------------------------------------------------------------- ladders of month starts

  /** A sequence of day numbers that climbs by at least 28 a step. */
  ghost predicate Ladder(start: int -> int) {
    forall j, k :: j <= k ==> start(j) + 28 * (k - j) <= start(k)
  }

  lemma {:induction false} MonthsAreALadder()
    ensures Ladder(MonthStart)
  {
    forall j: int, k: int | j <= k ensures MonthStart(j) + 28 * (k - j) <= MonthStart(k) {
      MonthsAscend(j, k);
    }
  }

  /** Of two days the later stands on the same rung or a higher one. */
  lemma {:induction false} RungsFollow(start: int -> int, d: int, e: int, k: int, m: int)
    requires Ladder(start) && d <= e
    requires start(k) <= d < start(k + 1) && start(m) <= e < start(m + 1)
    ensures k <= m
  {
  }

  /** The month that a day falls in, searched downward from a month that does not end before it. */
  function MonthDown(day: int, k: int): (m: int)
    requires day < MonthStart(k + 1)
    ensures MonthStart(m) <= day < MonthStart(m + 1)
    decreases MonthStart(k + 1) - day
  {
    MonthLength(k);
    if MonthStart(k) <= day then k else MonthDown(day, k - 1)
  }

  const EPOCH_MONTH: int := 12 * 1970

  /** A month that does not end before the day. */
  function LateMonth(day: int): (k: int)
    ensures day < MonthStart(k + 1)
  {
    var months := if day < 0 then 0 else day / 28 + 1;
    MonthsAhead(months);
    assert day < 28 * months || day < 0;
    EPOCH_MONTH + months - 1
  }

  lemma {:induction false} MonthsAhead(months: nat)
    ensures 28 * months <= MonthStart(EPOCH_MONTH + months)
  {
    JanuaryStart(1970);
    MonthsAscend(EPOCH_MONTH, EPOCH_MONTH + months);
  }

  function MonthOfDay(day: int): (m: int)
    ensures MonthStart(m) <= day < MonthStart(m + 1)
  {
    MonthDown(day, LateMonth(day))
  }

  function Month(t: int): int { MonthOfDay(Day(t)) }

  function Year(t: int): int { Month(t) / 12 }

  /** The day of the month, from 1. */
  function DateOf(t: int): int { Day(t) - MonthStart(Month(t)) + 1 }

  lemma {:induction false} MonthIsUnique(day: int, k: int)
    requires MonthStart(k) <= day < MonthStart(k + 1)
    ensures MonthOfDay(day) == k
  {
    MonthsAreALadder();
    RungsFollow(MonthStart, day, day, k, MonthOfDay(day));
    RungsFollow(MonthStart, day, day, MonthOfDay(day), k);
  }

  lemma {:induction false} JanuaryStart(year: int)
    ensures MonthStart(12 * year) == YearStart(year)
  {
    assert 12 * year / 12 == year && 12 * year % 12 == 0;
  }

  lemma {:induction false} YearsAscend(start: int -> int, a: int, b: int)
    requires a < b && forall year :: start(year) < start(year + 1)
    ensures start(a + 1) <= start(b)
    decreases b - a
  {
    if a + 1 < b {
      YearsAscend(start, a, b - 1);
      assert start(b - 1) < start(b - 1 + 1);
    }
  }

  lemma {:induction false} YearBefore(a: int, b: int)
    requires a < b
    ensures YearStart(a + 1) <= YearStart(b)
  {
    forall y ensures YearStart(y) < YearStart(y + 1) {
      YearLength(y);
    }
    YearsAscend(YearStart, a, b);
  }

  /** The year of a time is the one whose first day is not after it and whose successor's is. */
  lemma {:induction false} YearIsContainingYear(t: int, year: int)
    ensures YearStart(year) <= Day(t) < YearStart(year + 1) <==> year == Year(t)
  {
    YearOfMonth(Day(t), Month(t), year);
  }

  lemma {:induction false} YearOfMonth(day: int, k: int, year: int)
    requires MonthStart(k) <= day < MonthStart(k + 1)
    ensures YearStart(year) <= day < YearStart(year + 1) <==> year == k / 12
  {
    YearAroundMonth(day, k, k / 12);
    OnlyYearAround(YearStart, day, k / 12, year);
  }

  lemma {:induction false} OnlyYearAround(start: int -> int, day: int, y: int, year: int)
    requires start == YearStart && start(y) <= day < start(y + 1)
    ensures start(year) <= day < start(year + 1) <==> year == y
  {
    if year < y {
      YearBefore(year, y);
    } else if y < year {
      YearBefore(y, year);
    }
  }

  lemma {:induction false} YearAroundMonth(day: int, k: int, year: int)
    requires MonthStart(k) <= day < MonthStart(k + 1) && year == k / 12
    ensures YearStart(year) <= day < YearStart(year + 1)
  {
    MonthsAreALadder();
    WithinYear(MonthStart, day, k, year);
    JanuaryStart(year);
    JanuaryStart(year + 1);
  }

  lemma {:induction false} WithinYear(start: int -> int, day: int, k: int, year: int)
    requires Ladder(start) && start(k) <= day < start(k + 1) && 12 * year <= k < 12 * year + 12
    ensures start(12 * year) <= day < start(12 * (year + 1))
  {
    assert start(12 * year) + 28 * (k - 12 * year) <= start(k);
    assert start(k + 1) + 28 * (12 * (year + 1) - (k + 1)) <= start(12 * (year + 1));
  }

  /** Whole hours ahead of a remainder do not change the part within the hour; likewise minutes. */
  lemma {:induction false} DropHours(q: int, r: int)
    ensures (q * MS_PER_HOUR + r) % MS_PER_HOUR == r % MS_PER_HOUR
  {
  }

  lemma {:induction false} DropMinutes(q: int, r: int)
    ensures (q * MS_PER_MINUTE + r) % MS_PER_MINUTE == r % MS_PER_MINUTE
  {
  }

  /** A time is its day, hour and minute, plus what exceeds the minute. */
  lemma {:induction false} SplitTime(t: int)
    ensures t == Day(t) * MS_PER_DAY + HourOf(t) * MS_PER_HOUR + MinuteOf(t) * MS_PER_MINUTE + t % MS_PER_MINUTE
  {
    var inDay := t % MS_PER_DAY;
    DropHours(24 * Day(t), inDay);
    assert t % MS_PER_HOUR == inDay % MS_PER_HOUR;
    var inHour := t % MS_PER_HOUR;
    DropMinutes(60 * (t / MS_PER_HOUR), inHour);
    assert t % MS_PER_MINUTE == inHour % MS_PER_MINUTE;
  }

  /** A time assembled from a day and an offset within it gives both back. */
  lemma {:induction false} Assemble(day: int, offset: int)
    requires 0 <= offset < MS_PER_DAY
    ensures Day(day * MS_PER_DAY + offset) == day
    ensures (day * MS_PER_DAY + offset) % MS_PER_DAY == offset
  {
  }
}
