/**
 The proleptic Gregorian arithmetic behind the event timestamps (`chrono_like` in crates/quic).

 `CivilFromDays` is the branch-free era computation of the source. It is compared with an
 independent calendar: month lengths, leap years, the successor of a date and the day count
 that sums the lengths of whole years and whole months.
 */
module Calendar {

  datatype Date = Date(year: int, month: int, day: int)

  datatype DateTime = DateTime(year: int, month: int, day: int, hour: int, minute: int, second: int)

  const SECONDS_PER_DAY := 86_400

  // ---------------------------------------------------------------- independent calendar

  predicate IsLeap(year: int) {
    year % 4 == 0 && (year % 100 != 0 || year % 400 == 0)
  }

  function DaysInMonth(year: int, month: int): int {
    if month == 2 then (if IsLeap(year) then 29 else 28)
    else if month == 4 || month == 6 || month == 9 || month == 11 then 30
    else 31
  }

  function YearLength(year: int): int {
    if IsLeap(year) then 366 else 365
  }

  predicate ValidDate(date: Date) {
    1 <= date.month <= 12 && 1 <= date.day <= DaysInMonth(date.year, date.month)
  }

  function NextDay(date: Date): Date {
    if date.day < DaysInMonth(date.year, date.month) then date.(day := date.day + 1)
    else if date.month < 12 then Date(date.year, date.month + 1, 1)
    else Date(date.year + 1, 1, 1)
  }

  /** Days from 1970-01-01 to the first day of `year`, summing year lengths in either direction. */
  function DaysToYear(year: int): int
    decreases if year >= 1970 then year - 1970 else 1970 - year
  {
    if year == 1970 then 0
    else if year > 1970 then DaysToYear(year - 1) + YearLength(year - 1)
    else DaysToYear(year + 1) - YearLength(year)
  }

  function DaysToMonth(year: int, month: nat): int {
    if month <= 1 then 0 else DaysToMonth(year, month - 1) + DaysInMonth(year, month - 1)
  }

  function DayNumber(date: Date): int
    requires ValidDate(date)
  {
    DaysToYear(date.year) + DaysToMonth(date.year, date.month) + date.day - 1
  }

  // ---------------------------------------------------------------- the source's computation

  /** Integer division of the source language: it truncates toward zero. */
  function TruncDiv(a: int, b: int): int
    requires b > 0
  {
    if a >= 0 then a / b else -((-a) / b)
  }

  function EraOf(z: int): int {
    TruncDiv(if z >= 0 then z else z - 146_096, 146_097)
  }

  function YearOfEra(doe: int): int {
    (doe - doe / 1_460 + doe / 36_524 - doe / 146_096) / 365
  }

  function MarchStart(yoe: int): int {
    365 * yoe + yoe / 4 - yoe / 100
  }

  /** Month and day of the `doy`-th day of a year that starts on March 1; the month counts to 14. */
  function MarchDate(yearFromMarch: int, doy: int): Date {
    var mp := (5 * doy + 2) / 153;
    var d := doy - (153 * mp + 2) / 5 + 1;
    var m := mp + if mp < 10 then 3 else -9;
    Date(yearFromMarch + (if m <= 2 then 1 else 0), m, d)
  }

  /** The date of day `doe` of era `era`. */
  function CivilInEra(era: int, doe: int): Date {
    var yoe := YearOfEra(doe);
    MarchDate(yoe + era * 400, doe - MarchStart(yoe))
  }

  function CivilFromDays(days: int): Date {
    var z := days + 719_468;
    var era := EraOf(z);
    CivilInEra(era, z - era * 146_097)
  }

  /** The final cast of the year to a 32-bit signed integer keeps the low 32 bits. */
  function AsI32(x: int): int {
    var low := x % 0x1_0000_0000;
    if low < 0x8000_0000 then low else low - 0x1_0000_0000
  }

  function FromUnix(epochSecs: int): DateTime {
    var days := epochSecs / SECONDS_PER_DAY;
    var seconds := epochSecs % SECONDS_PER_DAY;
    var date := CivilFromDays(days);
    DateTime(AsI32(date.year), date.month, date.day,
             seconds / 3_600, (seconds % 3_600) / 60, seconds % 60)
  }

  // ---------------------------------------------------------------- one era

  lemma EraIsFloor(z: int)
    ensures 0 <= z - EraOf(z) * 146_097 < 146_097
  {
  }

  /** The correction terms, on a day written as century, four-year cycle, year and day of year. */
  lemma YearOfEraOnDigits(century: int, cycle: int, year: int, doy: int, doe: int)
    requires 0 <= century <= 3 && 0 <= cycle <= 24 && 0 <= year <= 3 && 0 <= doy <= 365
    requires doy == 365 ==> year == 3 && (cycle < 24 || century == 3)
    requires doe == 36_524 * century + 1_461 * cycle + 365 * year + doy
    ensures YearOfEra(doe) == 100 * century + 4 * cycle + year
  {
    var spill := 24 * century + cycle + 365 * year + doy;
    assert doe == 1_460 * (25 * century + cycle) + spill;
    assert doe / 1_460 == 25 * century + cycle + (if spill < 1_460 then 0 else 1);
    assert doe / 146_096 == if doe == 146_096 then 1 else 0;
    assert doe / 36_524 == if doe == 146_096 then 4 else century;
    var n := doe - doe / 1_460 + doe / 36_524 - doe / 146_096;
    var yoe := 100 * century + 4 * cycle + year;
    assert 365 * yoe <= n < 365 * yoe + 365;
    assert n / 365 == yoe;
  }

  /** The correction terms pick exactly the March-based year that contains the day. */
  lemma YearOfEraBrackets(doe: int)
    requires 0 <= doe < 146_097
    ensures 0 <= YearOfEra(doe) <= 399
    ensures MarchStart(YearOfEra(doe)) <= doe
    ensures doe < MarchStart(YearOfEra(doe) + 1) || (YearOfEra(doe) == 399 && doe == 146_096)
  {
    var century := if doe / 36_524 < 3 then doe / 36_524 else 3;
    var inCentury := doe - 36_524 * century;
    var cycle := inCentury / 1_461;
    var inCycle := inCentury - 1_461 * cycle;
    var year := if inCycle / 365 < 3 then inCycle / 365 else 3;
    YearOfEraOnDigits(century, cycle, year, inCycle - 365 * year, doe);
    var yoe := 100 * century + 4 * cycle + year;
    assert yoe / 4 == 25 * century + cycle && yoe / 100 == century;
    assert MarchStart(yoe) == 36_524 * century + 1_461 * cycle + 365 * year;
    MarchStartStep(yoe);
  }

  lemma MarchStartStep(yoe: int)
    requires 0 <= yoe
    ensures MarchStart(yoe + 1) - MarchStart(yoe) ==
            if (yoe + 1) % 4 == 0 && (yoe + 1) % 100 != 0 then 366 else 365
  {
    var next := yoe + 1;
    assert next / 4 - yoe / 4 == if next % 4 == 0 then 1 else 0;
    assert next / 100 - yoe / 100 == if next % 100 == 0 then 1 else 0;
    assert next % 100 == 0 ==> next % 4 == 0;
  }

  /** A day lies in one March-based year only, so any bracketing year is the computed one. */
  lemma YearOfEraUnique(doe: int, yoe: int)
    requires 0 <= doe < 146_097 && 0 <= yoe <= 399
    requires MarchStart(yoe) <= doe
    requires doe < MarchStart(yoe + 1) || (yoe == 399 && doe == 146_096)
    ensures YearOfEra(doe) == yoe
  {
    YearOfEraBrackets(doe);
    var other := YearOfEra(doe);
    if other < yoe {
      MarchStartMonotone(other + 1, yoe);
    } else if yoe < other {
      MarchStartMonotone(yoe + 1, other);
    }
  }

  lemma MarchStartMonotone(a: int, b: int)
    requires 0 <= a <= b
    ensures MarchStart(a) <= MarchStart(b)
  {
  }

  // ---------------------------------------------------------------- one March-based year

  function LastDoy(yearFromMarch: int): int {
    if IsLeap(yearFromMarch + 1) then 365 else 364
  }

  lemma MarchDateValid(y: int, doy: int)
    requires 0 <= doy <= LastDoy(y)
    ensures ValidDate(MarchDate(y, doy))
  {
    var mp := (5 * doy + 2) / 153;
    assert 0 <= mp <= 11;
    assert mp == 11 ==> doy >= 337;
  }

  lemma MarchDateNext(y: int, doy: int)
    requires 0 <= doy < LastDoy(y)
    ensures MarchDate(y, doy + 1) == NextDay(MarchDate(y, doy))
  {
    var mp := (5 * doy + 2) / 153;
    assert 0 <= mp <= 11;
    assert (5 * (doy + 1) + 2) / 153 == mp || (5 * (doy + 1) + 2) / 153 == mp + 1;
  }

  lemma MarchDateLast(y: int)
    ensures NextDay(MarchDate(y, LastDoy(y))) == MarchDate(y + 1, 0)
  {
  }

  /** Every day of an era lies in one of its 400 March-based years. */
  lemma YearAndDoy(era: int, doe: int) returns (yoe: int, doy: int)
    requires 0 <= doe < 146_097
    ensures 0 <= yoe <= 399 && doe == MarchStart(yoe) + doy
    ensures 0 <= doy <= LastDoy(yoe + era * 400)
    ensures CivilInEra(era, doe) == MarchDate(yoe + era * 400, doy)
    ensures yoe == 399 && doy == LastDoy(yoe + era * 400) ==> doe == 146_096
  {
    YearOfEraBrackets(doe);
    yoe := YearOfEra(doe);
    doy := doe - MarchStart(yoe);
    YearSpan(era, yoe);
  }

  /** The distance between the starts of two March-based years, except across the end of an era. */
  lemma YearSpan(era: int, yoe: int)
    requires 0 <= yoe <= 399
    ensures MarchStart(yoe + 1) - MarchStart(yoe) ==
            LastDoy(yoe + era * 400) + if yoe == 399 then 0 else 1
  {
    MarchStartStep(yoe);
    LeapInEra(era, yoe + 1);
  }

  lemma LeapInEra(era: int, yoe: int)
    requires 1 <= yoe <= 400
    ensures IsLeap(yoe + era * 400) <==> (yoe % 4 == 0 && (yoe % 100 != 0 || yoe == 400))
  {
    Shift400(yoe, era);
    Shift100(yoe, 4 * era);
    Shift4(yoe, 100 * era);
  }

  lemma Shift400(a: int, k: int)
    ensures (a + 400 * k) % 400 == a % 400
  {
  }

  lemma Shift100(a: int, k: int)
    ensures (a + 100 * k) % 100 == a % 100
  {
  }

  lemma Shift4(a: int, k: int)
    ensures (a + 4 * k) % 4 == a % 4
  {
  }

  /** The date at a position named from outside. */
  lemma InEraAt(era: int, yoe: int, doy: int)
    requires 0 <= yoe <= 399 && 0 <= doy <= LastDoy(yoe + era * 400)
    ensures CivilInEra(era, MarchStart(yoe) + doy) == MarchDate(yoe + era * 400, doy)
    ensures 0 <= MarchStart(yoe) + doy < 146_097
  {
    hide MarchDate, YearOfEra, LastDoy;
    YearSpan(era, yoe);
    MarchStartMonotone(yoe, 399);
    YearOfEraUnique(MarchStart(yoe) + doy, yoe);
  }

  lemma DaysInEra(days: int, era: int, doe: int)
    requires days + 719_468 == era * 146_097 + doe && 0 <= doe < 146_097
    ensures CivilFromDays(days) == CivilInEra(era, doe)
  {
    hide CivilInEra;
    EraIsFloor(days + 719_468);
  }

  lemma NextInEra(era: int, yoe: int, doy: int)
    requires 0 <= yoe <= 399 && 0 <= doy <= LastDoy(yoe + era * 400)
    requires yoe < 399 || doy < LastDoy(yoe + era * 400)
    ensures CivilInEra(era, MarchStart(yoe) + doy + 1) ==
            NextDay(MarchDate(yoe + era * 400, doy))
    ensures MarchStart(yoe) + doy + 1 < 146_097
  {
    hide CivilInEra, MarchDate, NextDay, MarchStart;
    var y := yoe + era * 400;
    if doy < LastDoy(y) {
      InEraAt(era, yoe, doy + 1);
      MarchDateNext(y, doy);
    } else {
      YearSpan(era, yoe);
      InEraAt(era, yoe + 1, 0);
      MarchDateLast(y);
    }
  }

  // ---------------------------------------------------------------- main results

  lemma CivilIsValid(days: int)
    ensures ValidDate(CivilFromDays(days))
  {
    EraIsFloor(days + 719_468);
    var era := EraOf(days + 719_468);
    var yoe, doy := YearAndDoy(era, days + 719_468 - era * 146_097);
    MarchDateValid(yoe + era * 400, doy);
  }

  /** Consecutive day numbers give consecutive dates, across months, years, centuries and eras. */
  lemma CivilSuccessor(days: int)
    ensures CivilFromDays(days + 1) == NextDay(CivilFromDays(days))
  {
    hide CivilInEra, NextDay, MarchDate, MarchStart, LastDoy;
    EraIsFloor(days + 719_468);
    var era := EraOf(days + 719_468);
    var doe := days + 719_468 - era * 146_097;
    var yoe, doy := YearAndDoy(era, doe);
    if yoe == 399 && doy == LastDoy(yoe + era * 400) {
      LastOfEra(era, days);
    } else {
      NextInEra(era, yoe, doy);
      DaysInEra(days + 1, era, doe + 1);
    }
  }

  lemma LastOfEra(era: int, days: int)
    requires days + 719_468 == era * 146_097 + 146_096
    ensures CivilFromDays(days + 1) == NextDay(CivilFromDays(days))
  {
    hide CivilFromDays, CivilInEra, NextDay, MarchDate;
    LeapInEra(era, 400);
    InEraAt(era, 399, 365);
    InEraAt(era + 1, 0, 0);
    DaysInEra(days, era, 146_096);
    DaysInEra(days + 1, era + 1, 0);
    MarchDateLast(399 + era * 400);
  }

  lemma NextDayNumber(date: Date)
    requires ValidDate(date)
    ensures ValidDate(NextDay(date)) && DayNumber(NextDay(date)) == DayNumber(date) + 1
  {
    WholeYear(date.year);
    assert DaysToYear(date.year + 1) == DaysToYear(date.year) + YearLength(date.year);
  }

  lemma WholeYear(year: int)
    ensures DaysToMonth(year, 12) + 31 == YearLength(year)
  {
    assert DaysToMonth(year, 2) == 31;
    assert DaysToMonth(year, 4) == 31 + DaysInMonth(year, 2) + 31;
    assert DaysToMonth(year, 6) == DaysToMonth(year, 4) + 61;
    assert DaysToMonth(year, 8) == DaysToMonth(year, 6) + 61;
    assert DaysToMonth(year, 10) == DaysToMonth(year, 8) + 61;
  }

  lemma EpochDate()
    ensures CivilFromDays(0) == Date(1970, 1, 1)
  {
  }

  /** `CivilFromDays` is a right inverse of the day count, for every integer day. */
  lemma {:induction false} CivilInvertsDayNumber(days: int)
    ensures ValidDate(CivilFromDays(days)) && DayNumber(CivilFromDays(days)) == days
    decreases if days >= 0 then days else -days
  {
    hide CivilFromDays;
    CivilIsValid(days);
    if days == 0 {
      EpochDate();
    } else if days > 0 {
      CivilInvertsDayNumber(days - 1);
      CivilSuccessor(days - 1);
      NextDayNumber(CivilFromDays(days - 1));
    } else {
      CivilInvertsDayNumber(days + 1);
      CivilSuccessor(days);
      NextDayNumber(CivilFromDays(days));
    }
  }

  lemma {:induction false} YearsAhead(earlier: int, later: int)
    requires earlier < later
    ensures DaysToYear(earlier) + YearLength(earlier) <= DaysToYear(later)
    decreases later - earlier
  {
    assert DaysToYear(later) == DaysToYear(later - 1) + YearLength(later - 1);
    if earlier < later - 1 {
      YearsAhead(earlier, later - 1);
    }
  }

  lemma {:induction false} MonthsAhead(year: int, earlier: nat, later: nat)
    requires 1 <= earlier < later
    ensures DaysToMonth(year, earlier) + DaysInMonth(year, earlier) <= DaysToMonth(year, later)
    decreases later - earlier
  {
    if earlier < later - 1 {
      MonthsAhead(year, earlier, later - 1);
    }
  }

  lemma InsideYear(date: Date)
    requires ValidDate(date)
    ensures DaysToYear(date.year) <= DayNumber(date) < DaysToYear(date.year) + YearLength(date.year)
  {
    MonthPositive(date.year, date.month);
    WholeYear(date.year);
    if date.month < 12 {
      MonthsAhead(date.year, date.month, 12);
    }
  }

  lemma {:induction false} MonthPositive(year: int, month: nat)
    ensures DaysToMonth(year, month) >= 0
  {
    if month > 1 {
      MonthPositive(year, month - 1);
    }
  }

  /** The day count separates dates, so the inverse is two-sided. */
  lemma DayNumberInjective(a: Date, b: Date)
    requires ValidDate(a) && ValidDate(b) && DayNumber(a) == DayNumber(b)
    ensures a == b
  {
    InsideYear(a);
    InsideYear(b);
    if a.year < b.year {
      YearsAhead(a.year, b.year);
    } else if b.year < a.year {
      YearsAhead(b.year, a.year);
    } else if a.month < b.month {
      MonthsAhead(a.year, a.month, b.month);
    } else if b.month < a.month {
      MonthsAhead(a.year, b.month, a.month);
    }
  }

  lemma DayNumberInvertsCivil(date: Date)
    requires ValidDate(date)
    ensures CivilFromDays(DayNumber(date)) == date
  {
    var days := DayNumber(date);
    CivilInvertsDayNumber(days);
    DayNumberInjective(CivilFromDays(days), date);
  }

  // ---------------------------------------------------------------- timestamps

  /** Seconds since the epoch of a date and a time of day. */
  function UnixOf(date: Date, hour: int, minute: int, second: int): int
    requires ValidDate(date)
  {
    DayNumber(date) * SECONDS_PER_DAY + hour * 3_600 + minute * 60 + second
  }

  /** The first and the last second whose year fits the 32-bit year field. */
  const FIRST_EXACT_SECOND := -67_768_100_567_971_200
  const LAST_EXACT_SECOND := 67_767_976_233_532_799

  /**
   The time fields are always in range, and they recompose to the input whenever the year field
   is the true year.
   */
  lemma FromUnixRecomposes(epochSecs: int)
    ensures var t := FromUnix(epochSecs);
            && 0 <= t.hour <= 23 && 0 <= t.minute <= 59 && 0 <= t.second <= 59
    ensures var t := FromUnix(epochSecs);
            var date := CivilFromDays(epochSecs / SECONDS_PER_DAY);
            && ValidDate(date) && t.month == date.month && t.day == date.day
            && UnixOf(date, t.hour, t.minute, t.second) == epochSecs
            && (t.year == date.year <==> FIRST_EXACT_SECOND <= epochSecs <= LAST_EXACT_SECOND)
  {
    hide CivilFromDays, ValidDate, DayNumber;
    var days := epochSecs / SECONDS_PER_DAY;
    CivilInvertsDayNumber(days);
    YearFits(CivilFromDays(days));
    TimeOfDay(epochSecs % SECONDS_PER_DAY);
    assert epochSecs == days * SECONDS_PER_DAY + epochSecs % SECONDS_PER_DAY;
  }

  lemma TimeOfDay(seconds: int)
    requires 0 <= seconds < SECONDS_PER_DAY
    ensures 0 <= seconds / 3_600 <= 23 && 0 <= (seconds % 3_600) / 60 <= 59 && 0 <= seconds % 60 <= 59
    ensures seconds / 3_600 * 3_600 + (seconds % 3_600) / 60 * 60 + seconds % 60 == seconds
  {
    assert seconds % 3_600 == seconds - seconds / 3_600 * 3_600;
    Shift60(seconds % 3_600, seconds / 3_600 * 60);
  }

  lemma Shift60(a: int, k: int)
    ensures (a + 60 * k) % 60 == a % 60
  {
  }

  lemma AsI32Exact(x: int)
    ensures AsI32(x) == x <==> -0x8000_0000 <= x < 0x8000_0000
  {
  }

  lemma FirstYear()
    ensures DaysToYear(-0x8000_0000) == FIRST_EXACT_SECOND / SECONDS_PER_DAY
  {
    DaysToYearClosed(-0x8000_0000);
    hide DaysToYear;
  }

  lemma LastYear()
    ensures DaysToYear(0x8000_0000) == LAST_EXACT_SECOND / SECONDS_PER_DAY + 1
  {
    DaysToYearClosed(0x8000_0000);
    hide DaysToYear;
  }

  lemma YearFits(date: Date)
    requires ValidDate(date)
    ensures AsI32(date.year) == date.year <==>
            FIRST_EXACT_SECOND / SECONDS_PER_DAY <= DayNumber(date) <= LAST_EXACT_SECOND / SECONDS_PER_DAY
  {
    InsideYear(date);
    AsI32Exact(date.year);
    FirstYear();
    LastYear();
    hide DayNumber, AsI32, IsLeap, DaysToYear;
    YearOrder(date.year, -0x8000_0000);
    YearOrder(date.year, 0x8000_0000);
  }

  lemma YearOrder(a: int, b: int)
    ensures a < b ==> DaysToYear(a) + YearLength(a) <= DaysToYear(b)
    ensures b <= a ==> DaysToYear(b) <= DaysToYear(a)
  {
    if a < b {
      YearsAhead(a, b);
    } else if b < a {
      YearsAhead(b, a);
    }
  }

  lemma {:induction false} DaysToYearClosed(year: int)
    ensures DaysToYear(year) == 365 * (year - 1970) + LeapsBefore(year) - LeapsBefore(1970)
    decreases if year >= 1970 then year - 1970 else 1970 - year
  {
    if year > 1970 {
      DaysToYearClosed(year - 1);
      LeapsStep(year - 1);
    } else if year < 1970 {
      DaysToYearClosed(year + 1);
      LeapsStep(year);
    }
  }

  function LeapsBefore(year: int): int {
    (year - 1) / 4 - (year - 1) / 100 + (year - 1) / 400
  }

  lemma LeapsStep(year: int)
    ensures LeapsBefore(year + 1) - LeapsBefore(year) == if IsLeap(year) then 1 else 0
  {
    hide LeapsBefore, IsLeap;
    LeapsStepParts(year);
    LeapParts(year);
  }

  lemma LeapParts(year: int)
    ensures (if IsLeap(year) then 1 else 0) ==
            (if year % 4 == 0 then 1 else 0) - (if year % 100 == 0 then 1 else 0)
            + (if year % 400 == 0 then 1 else 0)
  {
    if year % 400 == 0 {
      Shift100(0, 4 * (year / 400));
    }
    if year % 100 == 0 {
      Shift4(0, 25 * (year / 100));
    }
  }

  lemma LeapsStepParts(year: int)
    ensures LeapsBefore(year + 1) - LeapsBefore(year) ==
            (if year % 4 == 0 then 1 else 0) - (if year % 100 == 0 then 1 else 0)
            + (if year % 400 == 0 then 1 else 0)
  {
    assert year / 4 - (year - 1) / 4 == if year % 4 == 0 then 1 else 0;
    assert year / 100 - (year - 1) / 100 == if year % 100 == 0 then 1 else 0;
    assert year / 400 - (year - 1) / 400 == if year % 400 == 0 then 1 else 0;
  }
}
