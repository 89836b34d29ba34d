/** The split of a Palm OS date - seconds since the first moment of 1904 - into calendar fields. */
module PalmDate {
  import opened Bytes

  const DAY_IN_SECONDS: nat := 0x15180
  const HOUR_IN_SECONDS: nat := 3600
  const MINUTE_IN_SECONDS: nat := 60
  const FIRST_YEAR: nat := 1904
  const DAYS_IN_FOUR_YEARS: nat := 1461

  datatype DateTime = DateTime(year: nat, month: nat, day: nat, hour: nat, minute: nat, second: nat, weekDay: nat)

  /** One row of `daysInPrevMonths`: the days before each month of a leap year. */
  function LeapRow(j: nat): nat
    requires j < 12
  {
    if j == 0 then 0
    else if j == 1 then 31
    else if j == 2 then 60
    else if j == 3 then 91
    else if j == 4 then 121
    else if j == 5 then 152
    else if j == 6 then 182
    else if j == 7 then 213
    else if j == 8 then 244
    else if j == 9 then 274
    else if j == 10 then 305
    else 335
  }

  function PlainRow(j: nat): nat
    requires j < 12
  {
    if j == 0 then 0
    else if j == 1 then 31
    else if j == 2 then 59
    else if j == 3 then 90
    else if j == 4 then 120
    else if j == 5 then 151
    else if j == 6 then 181
    else if j == 7 then 212
    else if j == 8 then 243
    else if j == 9 then 273
    else if j == 10 then 304
    else 334
  }

  const TABLE_SIZE: nat := 49

  /** The table `daysInPrevMonths`: the days before each month of a cycle of four years that starts with
      the leap year, and one entry more for the end of the cycle. */
  function DaysInPrevMonths(i: nat): nat
    requires i < TABLE_SIZE
  {
    if i < 12 then LeapRow(i)
    else if i < 24 then 366 + PlainRow(i - 12)
    else if i < 36 then 731 + PlainRow(i - 24)
    else if i < 48 then 1096 + PlainRow(i - 36)
    else 1461
  }

  // ---------------------------------------------------------------------------
  // The Gregorian calendar

  predicate IsLeap(year: nat) {
    year % 4 == 0 && (year % 100 != 0 || year % 400 == 0)
  }

  function DaysInMonth(leap: bool, month: nat): nat
    requires 1 <= month <= 12
  {
    if month == 2 then (if leap then 29 else 28)
    else if month == 4 || month == 6 || month == 9 || month == 11 then 30
    else 31
  }

  function DaysBeforeMonth(leap: bool, month: nat): nat
    requires 1 <= month <= 12
  {
    if month == 1 then 0 else DaysBeforeMonth(leap, month - 1) + DaysInMonth(leap, month - 1)
  }

  function DaysBeforeYear(year: nat): nat
    requires year >= FIRST_YEAR
    decreases year
  {
    if year == FIRST_YEAR then 0 else DaysBeforeYear(year - 1) + if IsLeap(year - 1) then 366 else 365
  }

  /** The number of days from the first of January 1904 to the date. */
  function DayNumber(year: nat, month: nat, day: nat): nat
    requires year >= FIRST_YEAR && 1 <= month <= 12 && day >= 1
  {
    DaysBeforeYear(year) + DaysBeforeMonth(IsLeap(year), month) + day - 1
  }

  /** A date and time of the Gregorian calendar. */
  predicate IsCalendar(t: DateTime) {
    && t.year >= FIRST_YEAR && 1 <= t.month <= 12
    && 1 <= t.day <= DaysInMonth(IsLeap(t.year), t.month)
    && t.hour < 24 && t.minute < 60 && t.second < 60
  }

  function SecondsOf(t: DateTime): nat
    requires IsCalendar(t)
  {
    DayNumber(t.year, t.month, t.day) * DAY_IN_SECONDS
    + t.hour * HOUR_IN_SECONDS + t.minute * MINUTE_IN_SECONDS + t.second
  }

  /** The day of the week, Sunday being 0, by Sakamoto's congruence. */
  function DayOfWeek(year: nat, month: nat, day: nat): nat
    requires year >= FIRST_YEAR && 1 <= month <= 12
  {
    var y := if month < 3 then year - 1 else year;
    (y + y / 4 - y / 100 + y / 400 + [0, 3, 2, 5, 0, 3, 5, 1, 4, 6, 2, 4][month - 1] + day) % 7
  }

  // ---------------------------------------------------------------------------

  /** `PrvSetDate` up to the formatting. */
  method SplitDate(seconds: uint32) returns (t: DateTime)
    ensures IsCalendar(t) && SecondsOf(t) == seconds
    ensures t.weekDay == DayOfWeek(t.year, t.month, t.day)
  {
    hide DaysInMonth, IsLeap, DaysBeforeYear, DaysBeforeMonth, DayOfWeek;
    var days: nat := seconds / DAY_IN_SECONDS;
    var rest: nat := seconds % DAY_IN_SECONDS;
    var weekDay := (days + 5) % 7;
    var cycle := days / DAYS_IN_FOUR_YEARS;
    var year := FIRST_YEAR + cycle * 4;
    ghost var allDays := days;
    days := days % DAYS_IN_FOUR_YEARS;
    var month := 0;
    while days >= DaysInPrevMonths(month)
      invariant 0 <= month < TABLE_SIZE
      invariant month > 0 ==> days >= DaysInPrevMonths(month - 1)
      decreases TABLE_SIZE - month
    {
      TableEnd(days, month);
      month := month + 1;
    }
    TableBegin(days, month);
    month := month - 1;
    ghost var inCycle := month;
    year := year + month / 12;
    var day := days - DaysInPrevMonths(month) + 1;
    month := month % 12 + 1;
    CycleEntry(cycle, inCycle);
    WeekdayFromDayNumber(year, month, day);
    var hour := rest / HOUR_IN_SECONDS;
    rest := rest % HOUR_IN_SECONDS;
    var minute := rest / MINUTE_IN_SECONDS;
    rest := rest % MINUTE_IN_SECONDS;
    t := DateTime(year, month, day, hour, minute, rest, weekDay);
  }

  /** The search stops inside the table. */
  lemma TableEnd(days: nat, month: nat)
    requires month < TABLE_SIZE && days < DAYS_IN_FOUR_YEARS && days >= DaysInPrevMonths(month)
    ensures month + 1 < TABLE_SIZE
  {
  }

  /** And it does not stop at its first entry. */
  lemma TableBegin(days: nat, month: nat)
    requires month < TABLE_SIZE && days < DaysInPrevMonths(month)
    ensures month > 0
  {
  }

  lemma {:induction false} LeapRowMeaning(month: nat)
    requires 1 <= month <= 12
    ensures LeapRow(month - 1) == DaysBeforeMonth(true, month)
    ensures (if month == 12 then 366 else LeapRow(month)) - LeapRow(month - 1) == DaysInMonth(true, month)
    decreases month
  {
    if month > 1 {
      LeapRowMeaning(month - 1);
    }
  }

  lemma {:induction false} PlainRowMeaning(month: nat)
    requires 1 <= month <= 12
    ensures PlainRow(month - 1) == DaysBeforeMonth(false, month)
    ensures (if month == 12 then 365 else PlainRow(month)) - PlainRow(month - 1) == DaysInMonth(false, month)
    decreases month
  {
    if month > 1 {
      PlainRowMeaning(month - 1);
    }
  }

  lemma LeapInRange(cycle: nat, k: nat)
    requires cycle <= 48 && k <= 3
    ensures IsLeap(FIRST_YEAR + 4 * cycle + k) <==> k == 0
  {
  }

  lemma {:induction false} CycleStart(cycle: nat)
    requires cycle <= 48
    ensures DaysBeforeYear(FIRST_YEAR + 4 * cycle) == DAYS_IN_FOUR_YEARS * cycle
  {
    hide IsLeap;
    if cycle > 0 {
      CycleStart(cycle - 1);
      YearInCycle(cycle - 1, 3);
      LeapInRange(cycle - 1, 3);
      var y := FIRST_YEAR + 4 * cycle;
      assert DaysBeforeYear(y) == DaysBeforeYear(y - 1) + 365;
    }
  }

  lemma {:induction false} YearInCycle(cycle: nat, k: nat)
    requires cycle <= 48 && k <= 3
    requires DaysBeforeYear(FIRST_YEAR + 4 * cycle) == DAYS_IN_FOUR_YEARS * cycle
    ensures DaysBeforeYear(FIRST_YEAR + 4 * cycle + k)
            == DAYS_IN_FOUR_YEARS * cycle + if k == 0 then 0 else 1 + 365 * k
    decreases k
  {
    hide IsLeap;
    if k > 0 {
      YearInCycle(cycle, k - 1);
      LeapInRange(cycle, k - 1);
    }
  }

  /** An entry of the table, seen from the calendar. */
  lemma CycleEntry(cycle: nat, month: nat)
    requires cycle <= 48 && month < 48
    ensures var year, m := FIRST_YEAR + cycle * 4 + month / 12, month % 12 + 1;
            && DaysBeforeYear(year) + DaysBeforeMonth(IsLeap(year), m)
               == DAYS_IN_FOUR_YEARS * cycle + DaysInPrevMonths(month)
            && DaysInPrevMonths(month + 1) - DaysInPrevMonths(month) == DaysInMonth(IsLeap(year), m)
  {
    hide IsLeap, DaysBeforeYear, DaysBeforeMonth, DaysInMonth, LeapRow, PlainRow;
    var k, j := month / 12, month % 12;
    CycleStart(cycle);
    YearInCycle(cycle, k);
    LeapInRange(cycle, k);
    LeapRowMeaning(j + 1);
    PlainRowMeaning(j + 1);
    RowStarts();
  }

  lemma RowStarts()
    ensures PlainRow(0) == 0
  {
  }

  lemma CenturyConstant(y: nat)
    requires 1900 <= y < 2100
    ensures y / 400 - y / 100 == -15
  {
  }

  /** Sakamoto's sum with the centuries evaluated. */
  lemma DayOfWeekInRange(year: nat, month: nat, day: nat)
    requires FIRST_YEAR <= year < 2100 && 1 <= month <= 12 && day >= 1
    ensures var y := if month < 3 then year - 1 else year;
            DayOfWeek(year, month, day)
            == (y + y / 4 - 15 + [0, 3, 2, 5, 0, 3, 5, 1, 4, 6, 2, 4][month - 1] + day) % 7
  {
    CenturyConstant(if month < 3 then year - 1 else year);
  }

  /** The months' shares of Sakamoto's sum are the days before them, modulo a week. */
  lemma MonthShare(leap: bool, month: nat)
    requires 1 <= month <= 12
    ensures (DaysBeforeMonth(leap, month) - [0, 3, 2, 5, 0, 3, 5, 1, 4, 6, 2, 4][month - 1]
             - if month < 3 then 0 else if leap then 2 else 1) % 7
            == 0
  {
    LeapRowMeaning(month);
    PlainRowMeaning(month);
  }

  lemma SameModWeek(a: int, b: int, weeks: int)
    requires a == b + 7 * weeks
    ensures a % 7 == b % 7
  {
  }

  /** Both counts of a day within its cycle of four years agree modulo a week. */
  lemma WeekArithmetic(cycle: nat, k: nat, early: bool, before: nat, share: nat, day: nat)
    requires k <= 3
    requires (before - share - if early then 0 else if k == 0 then 2 else 1) % 7 == 0
    ensures var y := FIRST_YEAR + 4 * cycle + k - if early then 1 else 0;
            (DAYS_IN_FOUR_YEARS * cycle + (if k == 0 then 0 else 1 + 365 * k) + before + day - 1 + 5) % 7
            == (y + y / 4 - 15 + share + day) % 7
  {
    var y := FIRST_YEAR + 4 * cycle + k - if early then 1 else 0;
    var c := if early then 0 else if k == 0 then 2 else 1;
    var e := (before - share - c) / 7;
    var left := DAYS_IN_FOUR_YEARS * cycle + (if k == 0 then 0 else 1 + 365 * k) + before + day - 1 + 5;
    var right := y + y / 4 - 15 + share + day;
    assert before == share + c + 7 * e;
    assert y / 4 == if early && k == 0 then 475 + cycle else 476 + cycle;
    SameModWeek(left, right, 208 * cycle + 52 * k + e - 337);
  }

  lemma WeekdayFromDayNumber(year: nat, month: nat, day: nat)
    requires FIRST_YEAR <= year < FIRST_YEAR + 196 && 1 <= month <= 12 && day >= 1
    ensures (DayNumber(year, month, day) + 5) % 7 == DayOfWeek(year, month, day)
  {
    hide IsLeap, DaysBeforeYear, DaysBeforeMonth, DayOfWeek;
    var cycle, k := (year - FIRST_YEAR) / 4, (year - FIRST_YEAR) % 4;
    CycleStart(cycle);
    YearInCycle(cycle, k);
    LeapInRange(cycle, k);
    DayOfWeekInRange(year, month, day);
    MonthShare(k == 0, month);
    WeekArithmetic(cycle, k, month < 3, DaysBeforeMonth(k == 0, month),
                   [0, 3, 2, 5, 0, 3, 5, 1, 4, 6, 2, 4][month - 1], day);
  }

  lemma {:induction false} YearsAscend(a: nat, b: nat)
    requires FIRST_YEAR <= a < b
    ensures DaysBeforeYear(a) + (if IsLeap(a) then 366 else 365) <= DaysBeforeYear(b)
    decreases b
  {
    hide IsLeap;
    if a + 1 < b {
      YearsAscend(a, b - 1);
    }
  }

  lemma {:induction false} MonthsAscend(leap: bool, a: nat, b: nat)
    requires 1 <= a < b <= 12
    ensures DaysBeforeMonth(leap, a) + DaysInMonth(leap, a) <= DaysBeforeMonth(leap, b)
    decreases b
  {
    if a + 1 < b {
      MonthsAscend(leap, a, b - 1);
    }
  }

  lemma DayWithinYear(leap: bool, month: nat, day: nat)
    requires 1 <= month <= 12 && 1 <= day <= DaysInMonth(leap, month)
    ensures DaysBeforeMonth(leap, month) + day <= if leap then 366 else 365
  {
    LeapRowMeaning(month);
    PlainRowMeaning(month);
  }

  /** Counting a calendar date and time in seconds loses nothing: the split is the only possible one. */
  lemma SecondsInjective(a: DateTime, b: DateTime)
    requires IsCalendar(a) && IsCalendar(b) && SecondsOf(a) == SecondsOf(b)
    ensures a == b.(weekDay := a.weekDay)
  {
    hide IsLeap, DaysBeforeYear, DaysBeforeMonth, DaysInMonth;
    DayWithinYear(IsLeap(a.year), a.month, a.day);
    DayWithinYear(IsLeap(b.year), b.month, b.day);
    assert DayNumber(a.year, a.month, a.day) == DayNumber(b.year, b.month, b.day);
    if a.year < b.year {
      YearsAscend(a.year, b.year);
    } else if b.year < a.year {
      YearsAscend(b.year, a.year);
    } else if a.month < b.month {
      MonthsAscend(IsLeap(a.year), a.month, b.month);
    } else if b.month < a.month {
      MonthsAscend(IsLeap(a.year), b.month, a.month);
    }
  }
}
