/**
 * Structured backup schedules (apps/server/src/common/backup-schedule.ts): `IsDue` says when a
 * schedule fires, `NextRunAt` computes the next firing directly.
 */
module BackupSchedule {
  import opened Wrappers
  import opened Calendar

  datatype Frequency = Off | Daily | Weekly | Monthly

  datatype Schedule = Schedule(frequency: Frequency, dayOfWeek: int, dayOfMonth: int, hour: int, minute: int) {
    /** The ranges the schedule's dropdowns offer. */
    predicate InRange() {
      0 <= dayOfWeek <= 6 && 1 <= dayOfMonth <= 28 && 0 <= hour <= 23 && 0 <= minute <= 59
    }

    function TimeOfDay(): int {
      hour * MS_PER_HOUR + minute * MS_PER_MINUTE
    }
  }

  /** The minute of `now` is one the schedule names. */
  predicate IsDue(s: Schedule, now: int) {
    && s.frequency != Off
    && HourOf(now) == s.hour && MinuteOf(now) == s.minute
    && match s.frequency
       case Off => false
       case Daily => true
       case Weekly => WeekDay(now) == s.dayOfWeek
       case Monthly => DateOf(now) == s.dayOfMonth
  }

  /** The schedule's time on the day of `t`. */
  function At(s: Schedule, t: int): int {
    Day(t) * MS_PER_DAY + s.TimeOfDay()
  }

  /** Midnight of a calendar date; a year from 0 to 99 means one of the twentieth century. */
  function DateFrom(year: int, month: int, date: int): int {
    var fullYear := if 0 <= year <= 99 then 1900 + year else year;
    (MonthStart(12 * fullYear + month) + date - 1) * MS_PER_DAY
  }

  /** The first matching day from the i-th day after `from` on, looking no further than a week ahead. */
  function WeeklyFrom(s: Schedule, from: int, i: nat): Option<int>
    requires i <= 8
    decreases 8 - i
  {
    if i == 8 then None
    else
      var d := At(s, from + i * MS_PER_DAY);
      if WeekDay(d) == s.dayOfWeek && d > from then Some(d) else WeeklyFrom(s, from, i + 1)
  }

  /** The first firing later than `from`; an off schedule has none. */
  function NextRunAt(s: Schedule, from: int): Option<int> {
    match s.frequency
    case Off => None
    case Daily =>
      var today := At(s, from);
      Some(if today > from then today else At(s, from + MS_PER_DAY))
    case Weekly => WeeklyFrom(s, from, 0)
    case Monthly =>
      var thisMonth := At(s, DateFrom(Year(from), Month(from) % 12, s.dayOfMonth));
      Some(if thisMonth > from then thisMonth
           else At(s, DateFrom(Year(from), Month(from) % 12 + 1, s.dayOfMonth)))
  }

  /** The distance between two runs in milliseconds. */
  function IntervalMs(s: Schedule): int {
    match s.frequency
    case Off => 0
    case Daily => MS_PER_DAY
    case Weekly => 7 * MS_PER_DAY
    case Monthly => 31 * MS_PER_DAY
  }

  predicate OnTheMinute(t: int) { t % MS_PER_MINUTE == 0 }

  /** `next` is the first due minute after `from`, and within one interval of it. */
  ghost predicate FirstDueAfter(s: Schedule, from: int, next: int) {
    && OnTheMinute(next) && IsDue(s, next)
    && 0 < next - from <= IntervalMs(s)
    && forall t :: from < t < next && OnTheMinute(t) ==> !IsDue(s, t)
  }

  /** NextRunAt keeps its promise at `from`. */
  ghost predicate Correct(s: Schedule, from: int) {
    NextRunAt(s, from).Some? && FirstDueAfter(s, from, NextRunAt(s, from).value)
  }

  /** The one family of inputs on which it does not: a monthly schedule asked about years 0 to 99. */
  predicate TwoDigitYear(s: Schedule, from: int) {
    s.frequency.Monthly? && 0 <= Year(from) <= 99
  }

  // ---------------------------------------------------------------- due minutes

  /** The due minutes of a day are one: the schedule's time on it. */
  lemma {:induction false} DueIsAt(s: Schedule, t: int)
    requires s.InRange() && OnTheMinute(t) && HourOf(t) == s.hour && MinuteOf(t) == s.minute
    ensures t == Day(t) * MS_PER_DAY + s.TimeOfDay()
  {
    SplitTime(t);
  }

  lemma {:induction false} AtIsOnTime(s: Schedule, day: int)
    requires s.InRange()
    ensures var t := day * MS_PER_DAY + s.TimeOfDay();
            Day(t) == day && HourOf(t) == s.hour && MinuteOf(t) == s.minute && OnTheMinute(t)
  {
    var offset := s.TimeOfDay();
    var t := day * MS_PER_DAY + offset;
    Assemble(day, offset);
    assert t == (24 * day + s.hour) * MS_PER_HOUR + s.minute * MS_PER_MINUTE;
    assert t % MS_PER_HOUR == s.minute * MS_PER_MINUTE;
    assert t == (24 * 60 * day + 60 * s.hour + s.minute) * MS_PER_MINUTE;
  }

  // ---------------------------------------------------------------- daily and weekly

  /** The schedule's slot on a day. */
  function DaySlot(s: Schedule, day: int): int {
    day * MS_PER_DAY + s.TimeOfDay()
  }

  /** A slot falls within its own day, so later days have later slots. */
  lemma {:induction false} DaySlotsOrdered(s: Schedule, d: int, e: int)
    requires s.InRange() && d < e
    ensures d * MS_PER_DAY <= DaySlot(s, d) < e * MS_PER_DAY <= DaySlot(s, e)
  {
  }

  lemma {:induction false} DayBounds(t: int)
    ensures Day(t) * MS_PER_DAY <= t < (Day(t) + 1) * MS_PER_DAY
  {
  }

  /** A due minute strictly between `from` and the slot of day e lies on a day from `from`'s on, before e. */
  lemma {:induction false} DueDay(s: Schedule, from: int, t: int, e: int)
    requires s.InRange() && OnTheMinute(t) && IsDue(s, t) && from < t < DaySlot(s, e)
    ensures t == DaySlot(s, Day(t)) && Day(from) <= Day(t) < e
  {
    DueIsAt(s, t);
    DayBounds(from);
    if e <= Day(t) && e < Day(t) { DaySlotsOrdered(s, e, Day(t)); }
    if Day(t) < Day(from) { DaySlotsOrdered(s, Day(t), Day(from)); }
  }

  lemma {:induction false} DailyCorrect(s: Schedule, from: int)
    requires s.InRange() && s.frequency.Daily?
    ensures Correct(s, from)
  {
    var d := Day(from);
    var e := if DaySlot(s, d) > from then d else d + 1;
    assert Day(from + MS_PER_DAY) == d + 1;
    DailyFirst(s, from, d, e);
    Settles(s, from, DaySlot(s, e));
  }

  lemma {:induction false} DailyFirst(s: Schedule, from: int, d: int, e: int)
    requires s.InRange() && s.frequency.Daily? && d == Day(from)
    requires e == if DaySlot(s, d) > from then d else d + 1
    ensures FirstDueAfter(s, from, DaySlot(s, e))
  {
    AtIsOnTime(s, e);
    DayBounds(from);
    DaySlotsOrdered(s, d, d + 1);
    forall t | from < t < DaySlot(s, e) && OnTheMinute(t) ensures !IsDue(s, t) {
      if IsDue(s, t) { DueDay(s, from, t, e); }
    }
  }

  /** NextRunAt is correct when what it returns is the first due minute, wrong when that is too far. */
  lemma {:induction false} Settles(s: Schedule, from: int, next: int)
    requires NextRunAt(s, from) == Some(next)
    ensures Correct(s, from) <==> FirstDueAfter(s, from, next)
    ensures next - from > IntervalMs(s) ==> !Correct(s, from)
  {
  }

  /** The search meets the first matching day; the days before it do not fire after `from`. */
  lemma {:induction false} WeeklySearch(s: Schedule, from: int, i: nat) returns (j: nat)
    requires s.InRange() && s.frequency.Weekly? && i <= 7
    requires exists k :: i <= k <= 7 && Fires(s, from, k)
    ensures i <= j <= 7 && Fires(s, from, j)
    ensures forall k :: i <= k < j ==> !Fires(s, from, k)
    ensures WeeklyFrom(s, from, i) == Some(DaySlot(s, Day(from) + j))
    decreases 8 - i
  {
    assert Day(from + i * MS_PER_DAY) == Day(from) + i;
    if Fires(s, from, i) {
      j := i;
    } else {
      j := WeeklySearch(s, from, i + 1);
    }
  }

  predicate Fires(s: Schedule, from: int, i: int) {
    var slot := DaySlot(s, Day(from) + i);
    WeekDay(slot) == s.dayOfWeek && slot > from
  }

  /** Which day of the week a day is, read off its slot. */
  lemma {:induction false} SlotWeekDay(s: Schedule, day: int)
    requires s.InRange()
    ensures WeekDay(DaySlot(s, day)) == (day + 4) % 7
    ensures WeekDay(DaySlot(s, day + 7)) == (day + 4) % 7
  {
    AtIsOnTime(s, day);
    AtIsOnTime(s, day + 7);
  }

  lemma {:induction false} SomeDayFires(s: Schedule, from: int)
    requires s.InRange()
    ensures exists k :: 0 <= k <= 7 && Fires(s, from, k)
  {
    var d := Day(from);
    var ahead := (s.dayOfWeek - (d + 4)) % 7;
    SlotWeekDay(s, d + ahead);
    assert (d + ahead + 4) % 7 == s.dayOfWeek;
    DayBounds(from);
    if DaySlot(s, d + ahead) > from {
      assert Fires(s, from, ahead);
    } else {
      if ahead > 0 { DaySlotsOrdered(s, d, d + ahead); }
      DaySlotsOrdered(s, d, d + 7);
      assert Fires(s, from, 7);
    }
  }

  lemma {:induction false} WeeklyCorrect(s: Schedule, from: int)
    requires s.InRange() && s.frequency.Weekly?
    ensures Correct(s, from)
  {
    SomeDayFires(s, from);
    var j := WeeklySearch(s, from, 0);
    WeeklyFirst(s, from, Day(from), j);
    Settles(s, from, DaySlot(s, Day(from) + j));
  }

  lemma {:induction false} WeeklyFirst(s: Schedule, from: int, d: int, j: int)
    requires s.InRange() && s.frequency.Weekly? && d == Day(from)
    requires 0 <= j <= 7 && Fires(s, from, j) && forall k :: 0 <= k < j ==> !Fires(s, from, k)
    ensures FirstDueAfter(s, from, DaySlot(s, d + j))
  {
    AtIsOnTime(s, d + j);
    WithinAWeek(s, from, d, j);
    forall t | from < t < DaySlot(s, d + j) && OnTheMinute(t) ensures !IsDue(s, t) {
      if IsDue(s, t) {
        DueDay(s, from, t, d + j);
        assert Fires(s, from, Day(t) - d);
      }
    }
  }

  lemma {:induction false} WithinAWeek(s: Schedule, from: int, d: int, j: int)
    requires s.InRange() && d == Day(from)
    requires 0 <= j <= 7 && Fires(s, from, j) && (j == 7 ==> !Fires(s, from, 0))
    ensures 0 < DaySlot(s, d + j) - from <= 7 * MS_PER_DAY
  {
    DayBounds(from);
    SlotWeekDay(s, d);
    if j < 7 { DaySlotsOrdered(s, d + j, d + 7); }
  }

  // ---------------------------------------------------------------- monthly

  /** The slot of a schedule on rung k of a ladder of month starts. */
  function Slotted(start: int -> int, date: int, offset: int, k: int): int {
    (start(k) + date - 1) * MS_PER_DAY + offset
  }

  /** The schedule's slot in month k. */
  function MonthSlot(s: Schedule, k: int): int {
    Slotted(MonthStart, s.dayOfMonth, s.TimeOfDay(), k)
  }

  /** A slot lies after everything in the months before its own and before everything after it. */
  lemma {:induction false} SlotsOrdered(start: int -> int, date: int, offset: int, j: int, k: int)
    requires Ladder(start) && 1 <= date <= 28 && 0 <= offset < MS_PER_DAY && j < k
    ensures start(j) * MS_PER_DAY <= Slotted(start, date, offset, j)
            < start(k) * MS_PER_DAY <= Slotted(start, date, offset, k)
  {
    assert start(j) + 28 * (k - j) <= start(k);
  }

  /** This month's slot if it is still ahead, else next month's: no slot lies in between. */
  lemma {:induction false} NextSlot(start: int -> int, date: int, offset: int, from: int, day: int, k: int)
    requires Ladder(start) && 1 <= date <= 28 && 0 <= offset < MS_PER_DAY
    requires day * MS_PER_DAY <= from < (day + 1) * MS_PER_DAY && start(k) <= day < start(k + 1) <= start(k) + 31
    ensures var n := if Slotted(start, date, offset, k) > from then k else k + 1;
            && 0 < Slotted(start, date, offset, n) - from <= 31 * MS_PER_DAY
            && forall m :: !(from < Slotted(start, date, offset, m) < Slotted(start, date, offset, n))
  {
    var n := if Slotted(start, date, offset, k) > from then k else k + 1;
    SlotsOrdered(start, date, offset, k, k + 1);
    forall m ensures !(from < Slotted(start, date, offset, m) < Slotted(start, date, offset, n)) {
      if m < n { SlotsOrdered(start, date, offset, m, n); }
      if n < m { SlotsOrdered(start, date, offset, n, m); }
      if m < k { SlotsOrdered(start, date, offset, m, k); }
    }
  }

  lemma {:induction false} MonthSlotIsDue(s: Schedule, k: int)
    requires s.InRange() && s.frequency.Monthly?
    ensures OnTheMinute(MonthSlot(s, k)) && IsDue(s, MonthSlot(s, k))
  {
    var day := MonthStart(k) + s.dayOfMonth - 1;
    AtIsOnTime(s, day);
    DateInMonth(day, k, s.dayOfMonth);
  }

  lemma {:induction false} DateInMonth(day: int, k: int, date: int)
    requires 1 <= date <= 28 && day == MonthStart(k) + date - 1
    ensures MonthOfDay(day) == k
  {
    MonthLength(k);
    MonthIsUnique(day, k);
  }

  lemma {:induction false} DueIsMonthSlot(s: Schedule, t: int)
    requires s.InRange() && s.frequency.Monthly? && OnTheMinute(t) && IsDue(s, t)
    ensures t == MonthSlot(s, Month(t))
  {
    DueIsAt(s, t);
  }

  /** The date constructor and the time of day together give a month's slot. */
  lemma {:induction false} DateFromIsSlot(s: Schedule, year: int, month: int)
    ensures At(s, DateFrom(year, month, s.dayOfMonth))
         == MonthSlot(s, 12 * (if 0 <= year <= 99 then 1900 + year else year) + month)
  {
    var k := 12 * (if 0 <= year <= 99 then 1900 + year else year) + month;
    Assemble(MonthStart(k) + s.dayOfMonth - 1, 0);
  }

  /** Outside years 0 to 99 the result is this month's slot if still ahead, else next month's. */
  lemma {:induction false} MonthlyCandidates(s: Schedule, from: int, k: int, n: int)
    requires s.InRange() && s.frequency.Monthly? && !(0 <= Year(from) <= 99)
    requires k == Month(from) && n == if MonthSlot(s, k) > from then k else k + 1
    ensures NextRunAt(s, from) == Some(MonthSlot(s, n))
  {
    SlotOfDate(s, k / 12, k % 12, k);
    SlotOfDate(s, k / 12, k % 12 + 1, k + 1);
  }

  lemma {:induction false} SlotOfDate(s: Schedule, year: int, month: int, k: int)
    requires !(0 <= year <= 99) && k == 12 * year + month
    ensures At(s, DateFrom(year, month, s.dayOfMonth)) == MonthSlot(s, k)
  {
    DateFromIsSlot(s, year, month);
  }

  lemma {:induction false} MonthlyCorrect(s: Schedule, from: int)
    requires s.InRange() && s.frequency.Monthly? && !(0 <= Year(from) <= 99)
    ensures Correct(s, from)
  {
    var k := Month(from);
    var n := if MonthSlot(s, k) > from then k else k + 1;
    MonthlyCandidates(s, from, k, n);
    MonthlyFirst(s, from, k, n);
    Settles(s, from, MonthSlot(s, n));
  }

  lemma {:induction false} MonthlyFirst(s: Schedule, from: int, k: int, n: int)
    requires s.InRange() && s.frequency.Monthly? && k == Month(from)
    requires n == if MonthSlot(s, k) > from then k else k + 1
    ensures FirstDueAfter(s, from, MonthSlot(s, n))
  {
    MonthSlotIsDue(s, n);
    SlotsAround(s, from, k, n);
    forall t | from < t < MonthSlot(s, n) && OnTheMinute(t) ensures !IsDue(s, t) {
      if IsDue(s, t) { DueIsMonthSlot(s, t); }
    }
  }

  lemma {:induction false} SlotsAround(s: Schedule, from: int, k: int, n: int)
    requires s.InRange() && k == Month(from)
    requires n == if MonthSlot(s, k) > from then k else k + 1
    ensures 0 < MonthSlot(s, n) - from <= 31 * MS_PER_DAY
    ensures forall m :: !(from < MonthSlot(s, m) < MonthSlot(s, n))
  {
    MonthsAreALadder();
    MonthLength(k);
    NextSlot(MonthStart, s.dayOfMonth, s.TimeOfDay(), from, Day(from), k);
  }

  /** In years 0 to 99 the computed time lies in the twentieth century. */
  lemma {:induction false} TwoDigitYearFails(s: Schedule, from: int)
    requires s.InRange() && TwoDigitYear(s, from)
    ensures !Correct(s, from)
  {
    var k := Month(from);
    CenturiesAhead(s, from, k);
    CenturiesAheadIsReturned(s, from, k);
    Settles(s, from, MonthSlot(s, 12 * (1900 + k / 12) + k % 12));
  }

  lemma {:induction false} CenturiesAheadIsReturned(s: Schedule, from: int, k: int)
    requires TwoDigitYear(s, from) && k == Month(from)
    requires MonthSlot(s, 12 * (1900 + k / 12) + k % 12) > from
    ensures NextRunAt(s, from) == Some(MonthSlot(s, 12 * (1900 + k / 12) + k % 12))
  {
    DateFromIsSlot(s, Year(from), k % 12);
  }

  lemma {:induction false} CenturiesAhead(s: Schedule, from: int, k: int)
    requires s.InRange() && k == Month(from)
    ensures MonthSlot(s, 12 * (1900 + k / 12) + k % 12) > from + 31 * MS_PER_DAY
  {
    MonthsAreALadder();
    FarSlot(MonthStart, s, from, Day(from), k);
  }

  lemma {:induction false} FarSlot(start: int -> int, s: Schedule, from: int, day: int, k: int)
    requires Ladder(start) && s.InRange() && start(k) <= day < start(k + 1)
    requires day * MS_PER_DAY <= from < (day + 1) * MS_PER_DAY
    ensures Slotted(start, s.dayOfMonth, s.TimeOfDay(), 12 * (1900 + k / 12) + k % 12) > from + 31 * MS_PER_DAY
  {
    var far := 12 * (1900 + k / 12) + k % 12;
    assert far == k + 12 * 1900;
    assert start(k + 1) + 28 * (far - k - 1) <= start(far);
  }

  // ---------------------------------------------------------------- the theorems

  /**
   * For every schedule that is on and in range, NextRunAt gives the first due minute after `from`,
   * at most one interval ahead, except exactly for monthly schedules asked about years 0 to 99.
   */
  lemma {:induction false} NextRunExactly(s: Schedule, from: int)
    requires s.InRange() && s.frequency != Off
    ensures Correct(s, from) <==> !TwoDigitYear(s, from)
  {
    match s.frequency
    case Daily => DailyCorrect(s, from);
    case Weekly => WeeklyCorrect(s, from);
    case Monthly =>
      if TwoDigitYear(s, from) { TwoDigitYearFails(s, from); } else { MonthlyCorrect(s, from); }
  }

  /** A partial step applied n times. */
  function Iterate(step: int -> Option<int>, from: int, n: nat): Option<int> {
    if n == 0 then Some(from)
    else
      var before := Iterate(step, from, n - 1);
      if before.None? then None else step(before.value)
  }

  lemma {:induction false} IterateFromNext(step: int -> Option<int>, from: int, n: nat)
    requires step(from).Some?
    ensures Iterate(step, from, n + 1) == Iterate(step, step(from).value, n)
  {
    if n == 0 {
      assert Iterate(step, from, 0) == Some(from);
    } else {
      IterateFromNext(step, from, n - 1);
    }
  }

  function Next(s: Schedule): int -> Option<int> {
    t => NextRunAt(s, t)
  }

  /** No time between the two falls in a year from 0 to 99, or the schedule is not monthly. */
  predicate AvoidsTwoDigitYears(s: Schedule, from: int, to: int) {
    s.frequency.Monthly? ==> Year(from) >= 100 || Year(to) < 0
  }

  lemma {:induction false} YearsFollowTime(t: int, u: int)
    requires t <= u
    ensures Year(t) <= Year(u)
  {
    MonthsAreALadder();
    RungsFollow(MonthStart, Day(t), Day(u), Month(t), Month(u));
  }

  /** One application moves toward a due minute without passing it. */
  lemma {:induction false} StepsToward(s: Schedule, from: int, due: int)
    requires s.InRange() && s.frequency != Off
    requires from < due && OnTheMinute(due) && IsDue(s, due) && AvoidsTwoDigitYears(s, from, due)
    ensures Next(s)(from).Some?
    ensures from < Next(s)(from).value <= due && AvoidsTwoDigitYears(s, Next(s)(from).value, due)
  {
    YearsFollowTime(from, due);
    NextRunExactly(s, from);
    YearsFollowTime(from, NextRunAt(s, from).value);
  }

  /** Iterating NextRunAt meets every due minute after `from`. */
  lemma {:induction false} EveryDueMinuteIsReached(s: Schedule, from: int, due: int) returns (n: nat)
    requires s.InRange() && s.frequency != Off
    requires from < due && OnTheMinute(due) && IsDue(s, due) && AvoidsTwoDigitYears(s, from, due)
    ensures n >= 1 && Iterate(Next(s), from, n) == Some(due)
    decreases due - from
  {
    StepsToward(s, from, due);
    var next := Next(s)(from).value;
    if next == due {
      n := 1;
      assert Iterate(Next(s), from, 0) == Some(from);
    } else {
      n := EveryDueMinuteIsReached(s, next, due);
      IterateFromNext(Next(s), from, n);
      n := n + 1;
    }
  }

  /** ... and nothing but due minutes, in order. */
  lemma {:induction false} IteratesAreDue(s: Schedule, from: int, n: nat)
    requires s.InRange() && s.frequency != Off && (s.frequency.Monthly? ==> Year(from) >= 100)
    ensures Iterate(Next(s), from, n).Some? && Iterate(Next(s), from, n).value >= from
    ensures n > 0 ==> var t := Iterate(Next(s), from, n).value;
                      OnTheMinute(t) && IsDue(s, t) && Iterate(Next(s), from, n - 1).value < t
  {
    if n > 0 {
      IteratesAreDue(s, from, n - 1);
      var before := Iterate(Next(s), from, n - 1).value;
      YearsFollowTime(from, before);
      NextRunExactly(s, before);
    }
  }
}
