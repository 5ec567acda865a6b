/** The civil date of a day number, and that it is the proleptic Gregorian calendar's.
    Models `date_from_unix_days` in bench/src/report.rs. */
module CivilDate {

  datatype Date = Date(year: int, month: int, day: int)

  // ------------------------------------------------------------------ the program

  /** Dafny's division and remainder are the Euclidean ones the program asks for. */
  function YearOfEra(doe: nat): int { (doe - doe / 1_460 + doe / 36_524 - doe / 146_096) / 365 }

  function DayOfYear(doe: nat): int {
    var yoe := YearOfEra(doe);
    doe - (365 * yoe + yoe / 4 - yoe / 100)
  }

  function FromUnixDays(days: int): Date {
    var z := days + 719_468;
    var era, doe := z / 146_097, z % 146_097;
    var doy := DayOfYear(doe);
    var mp := (5 * doy + 2) / 153;
    var day := doy - (153 * mp + 2) / 5 + 1;
    var month := if mp < 10 then mp + 3 else mp - 9;
    Date(YearOfEra(doe) + era * 400 + (if month <= 2 then 1 else 0), month, day)
  }

  // ----------------------------------------------------------------- the calendar

  predicate Leap(y: int) { y % 4 == 0 && (y % 100 != 0 || y % 400 == 0) }

  function MonthDays(y: int, m: int): int {
    if m == 2 then if Leap(y) then 29 else 28
    else if m == 4 || m == 6 || m == 9 || m == 11 then 30
    else 31
  }

  predicate Valid(d: Date) { 1 <= d.month <= 12 && 1 <= d.day <= MonthDays(d.year, d.month) }

  function NextDay(d: Date): Date {
    if d.day < MonthDays(d.year, d.month) then d.(day := d.day + 1)
    else if d.month < 12 then Date(d.year, d.month + 1, 1)
    else Date(d.year + 1, 1, 1)
  }

  /** Days from 1 January of year 1 to 1 January of year `y`. */
  function DaysBeforeYear(y: int): int {
    365 * (y - 1) + (y - 1) / 4 - (y - 1) / 100 + (y - 1) / 400
  }

  function DaysBeforeMonth(y: int, m: int): int
    requires 1 <= m <= 12
    decreases m
  {
    if m == 1 then 0 else DaysBeforeMonth(y, m - 1) + MonthDays(y, m - 1)
  }

  /** A date's own day count, 1 January 1970 being day 0. */
  function DayNumber(d: Date): int
    requires Valid(d)
  {
    DaysBeforeYear(d.year) + DaysBeforeMonth(d.year, d.month) + d.day - 1 - 719_162
  }

  // ------------------------------------------------------------------- one era

  /** A day of an era as centuries, four-year cycles, years and days, counting years
      from March. */
  predicate Split(doe: int, q: int, f: int, s: int, doy: int) {
    && 0 <= q <= 3 && 0 <= f <= 24 && 0 <= s <= 3 && 0 <= doy <= 365
    && (doy == 365 ==> s == 3 && (f < 24 || q == 3))
    && doe == 36_524 * q + 1_461 * f + 365 * s + doy
  }

  lemma SplitExists(doe: int) returns (q: int, f: int, s: int, doy: int)
    requires 0 <= doe < 146_097
    ensures Split(doe, q, f, s, doy)
  {
    q := if doe / 36_524 <= 3 then doe / 36_524 else 3;
    var a := doe - 36_524 * q;
    f := if a / 1_461 <= 24 then a / 1_461 else 24;
    var b := a - 1_461 * f;
    s := if b / 365 <= 3 then b / 365 else 3;
    doy := b - 365 * s;
  }

  /** The corrections in the program's year formula cancel exactly the leap days before
      the date, with one day to spare where it is needed. */
  lemma Corrections(doe: nat, q: int, f: int, s: int, doy: int)
    requires Split(doe, q, f, s, doy)
    ensures var extra := if 24 * q + f + 365 * s + doy >= 1_460 then 1 else 0;
            && doe / 1_460 == 25 * q + f + extra
            && doe / 36_524 - doe / 146_096 == q
            && (extra == 1 ==> s == 3 && doy > 0) && (doy == 365 ==> extra == 1)
  {
    assert doe == 1_460 * (25 * q + f) + (24 * q + f + 365 * s + doy);
  }

  lemma {:induction false} YearIs(doe: nat, q: int, f: int, s: int, doy: int)
    requires Split(doe, q, f, s, doy)
    ensures YearOfEra(doe) == 100 * q + 4 * f + s && DayOfYear(doe) == doy
  {
    Corrections(doe, q, f, s, doy);
    var y := 100 * q + 4 * f + s;
    assert 365 * y <= doe - doe / 1_460 + doe / 36_524 - doe / 146_096 < 365 * (y + 1);
    assert y / 4 == 25 * q + f && y / 100 == q;
  }

  // -------------------------------------------------------------------- months

  /** Days before month `mp` of a year that starts in March. */
  function MarchDays(mp: int): int { (153 * mp + 2) / 5 }

  lemma MonthIs(doy: int, mp: int)
    requires 0 <= mp <= 11 && MarchDays(mp) <= doy < (if mp < 11 then MarchDays(mp + 1) else 366)
    ensures (5 * doy + 2) / 153 == mp
  {}

  lemma MonthExists(doy: int) returns (mp: int)
    requires 0 <= doy <= 365
    ensures 0 <= mp <= 11 && MarchDays(mp) <= doy < (if mp < 11 then MarchDays(mp + 1) else 366)
    ensures mp == (5 * doy + 2) / 153
  {
    mp := (5 * doy + 2) / 153;
  }

  /** Days before a month of the calendar year. */
  lemma MonthTable(y: int)
    ensures DaysBeforeMonth(y, 1) == 0 && DaysBeforeMonth(y, 2) == 31
    ensures var l := if Leap(y) then 1 else 0;
            forall m | 3 <= m <= 12 :: DaysBeforeMonth(y, m) == 59 + l + MarchDays(m - 3)
  {
    hide Leap;
    assert DaysBeforeMonth(y, 2) == 31;
    var l := if Leap(y) then 1 else 0;
    assert DaysBeforeMonth(y, 3) == 59 + l;
    assert DaysBeforeMonth(y, 4) == 90 + l;
    assert DaysBeforeMonth(y, 5) == 120 + l;
    assert DaysBeforeMonth(y, 6) == 151 + l;
    assert DaysBeforeMonth(y, 7) == 181 + l;
    assert DaysBeforeMonth(y, 8) == 212 + l;
    assert DaysBeforeMonth(y, 9) == 243 + l;
    assert DaysBeforeMonth(y, 10) == 273 + l;
    assert DaysBeforeMonth(y, 11) == 304 + l;
    assert DaysBeforeMonth(y, 12) == 334 + l;
  }

  // ------------------------------------------------------- dates counted from March

  /** The calendar date of day `day` of month `mp` in the year that starts in March of
      year `y`. */
  function FromMarch(y: int, mp: int, day: int): Date {
    var month := if mp < 10 then mp + 3 else mp - 9;
    Date(y + (if month <= 2 then 1 else 0), month, day)
  }

  /** 1 for a multiple of `n`, else 0. */
  function Multiple(y: int, n: int): int
    requires n > 0
  {
    if y % n == 0 then 1 else 0
  }

  /** Counting multiples up to `y` one year at a time. */
  lemma OneMore(y: int)
    ensures y / 4 == (y - 1) / 4 + Multiple(y, 4)
    ensures y / 100 == (y - 1) / 100 + Multiple(y, 100)
    ensures y / 400 == (y - 1) / 400 + Multiple(y, 400)
  {}

  lemma Times4(k: int)
    ensures (4 * k) % 4 == 0
  {}

  lemma Times100(k: int)
    ensures (100 * k) % 100 == 0
  {}

  lemma Nested(y: int)
    ensures y % 400 == 0 ==> y % 100 == 0
    ensures y % 100 == 0 ==> y % 4 == 0
  {
    Times100(4 * (y / 400));
    Times4(25 * (y / 100));
  }

  lemma LeapDays(y: int)
    ensures (if Leap(y) then 1 else 0) == Multiple(y, 4) - Multiple(y, 100) + Multiple(y, 400)
  {
    Nested(y);
  }

  lemma YearLength(y: int)
    ensures DaysBeforeYear(y + 1) == DaysBeforeYear(y) + 365 + (if Leap(y) then 1 else 0)
  {
    hide Leap, Multiple;
    LeapDays(y);
    OneMore(y);
  }

  /** Days from 1 January of year 1 to 1 March of year `y`, leap days and all. */
  lemma MarchFirst(y: int)
    ensures DaysBeforeYear(y) + 59 + (if Leap(y) then 1 else 0) == 365 * y + y / 4 - y / 100 + y / 400 - 306
  {
    hide Leap, Multiple;
    LeapDays(y);
    OneMore(y);
  }

  lemma DayNumberFromMarch(y: int, mp: int, day: int)
    requires 0 <= mp <= 11 && Valid(FromMarch(y, mp, day))
    ensures DayNumber(FromMarch(y, mp, day)) == 365 * y + y / 4 - y / 100 + y / 400 + MarchDays(mp) + day - 1 - 719_468
  {
    hide Leap, DaysBeforeMonth;
    var d := FromMarch(y, mp, day);
    MonthTable(d.year);
    if mp < 10 {
      MarchFirst(y);
    }
  }

  lemma EraParts(era: int, q: int, f: int, s: int)
    requires 0 <= q <= 3 && 0 <= f <= 24 && 0 <= s <= 3
    ensures var y := 400 * era + 100 * q + 4 * f + s;
            y / 400 == era && y / 100 == 4 * era + q && y / 4 == 100 * era + 25 * q + f
  {
    var y := 400 * era + 100 * q + 4 * f + s;
    assert y == 400 * era + (100 * q + 4 * f + s);
    assert y == 100 * (4 * era + q) + (4 * f + s);
    assert y == 4 * (100 * era + 25 * q + f) + s;
  }

  lemma Remainder4(k: int, r: int)
    requires 1 <= r <= 4
    ensures (4 * k + r) % 4 == 0 <==> r == 4
  {}

  lemma Remainder100(k: int, r: int)
    requires 1 <= r <= 100
    ensures (100 * k + r) % 100 == 0 <==> r == 100
  {}

  lemma Remainder400(k: int, r: int)
    requires 1 <= r <= 400
    ensures (400 * k + r) % 400 == 0 <==> r == 400
  {}

  lemma EraMultiples(era: int, q: int, f: int, s: int)
    requires 0 <= q <= 3 && 0 <= f <= 24 && 0 <= s <= 3
    ensures var n := 400 * era + 100 * q + 4 * f + s + 1;
            && (n % 4 == 0 <==> s == 3) && (n % 100 == 0 <==> s == 3 && f == 24)
            && (n % 400 == 0 <==> s == 3 && f == 24 && q == 3)
  {
    var n := 400 * era + 100 * q + 4 * f + s + 1;
    var k4, k100 := 100 * era + 25 * q + f, 4 * era + q;
    Remainder4(k4, s + 1);
    Remainder100(k100, 4 * f + s + 1);
    Remainder400(era, 100 * q + 4 * f + s + 1);
    assert n == 4 * k4 + (s + 1) == 100 * k100 + (4 * f + s + 1) == 400 * era + (100 * q + 4 * f + s + 1);
  }

  /** Years of an era: four centuries of cycles, whatever the era. */
  lemma EraYears(era: int, q: int, f: int, s: int)
    requires 0 <= q <= 3 && 0 <= f <= 24 && 0 <= s <= 3
    ensures var y := 400 * era + 100 * q + 4 * f + s;
            && 365 * y + y / 4 - y / 100 + y / 400 == 146_097 * era + 36_524 * q + 1_461 * f + 365 * s
            && (Leap(y + 1) <==> s == 3 && (f < 24 || q == 3))
  {
    EraParts(era, q, f, s);
    EraMultiples(era, q, f, s);
  }

  /** A date counted from March is one the calendar has exactly when its day of the year
      exists. */
  lemma ValidFromMarch(era: int, q: int, f: int, s: int, mp: int, day: int)
    requires 0 <= q <= 3 && 0 <= f <= 24 && 0 <= s <= 3 && 0 <= mp <= 11
    ensures var y, doy := 400 * era + 100 * q + 4 * f + s, MarchDays(mp) + day - 1;
            Valid(FromMarch(y, mp, day)) <==>
            && 1 <= day && doy < (if mp < 11 then MarchDays(mp + 1) else 366)
            && (doy == 365 ==> s == 3 && (f < 24 || q == 3))
  {
    hide Leap;
    EraYears(era, q, f, s);
  }

  // --------------------------------------------------------------- main results

  lemma SplitDate(days: int) returns (era: int, q: int, f: int, s: int, mp: int, day: int)
    ensures 0 <= mp <= 11 && Split(days + 719_468 - 146_097 * era, q, f, s, MarchDays(mp) + day - 1)
    ensures 1 <= day && MarchDays(mp) + day - 1 < (if mp < 11 then MarchDays(mp + 1) else 366)
    ensures FromUnixDays(days) == FromMarch(400 * era + 100 * q + 4 * f + s, mp, day)
  {
    var doe: nat := (days + 719_468) % 146_097;
    era := (days + 719_468) / 146_097;
    var doy;
    q, f, s, doy := SplitExists(doe);
    YearIs(doe, q, f, s, doy);
    mp := MonthExists(doy);
    day := doy - MarchDays(mp) + 1;
  }

  /** Every day number, negative ones included, gives a date the calendar has, and that
      date's own count is the number. */
  lemma {:induction false} CountsBack(days: int)
    ensures Valid(FromUnixDays(days)) && DayNumber(FromUnixDays(days)) == days
  {
    hide FromUnixDays, FromMarch, DayNumber, MarchDays, Valid;
    var era, q, f, s, mp, day := SplitDate(days);
    var y := 400 * era + 100 * q + 4 * f + s;
    ValidFromMarch(era, q, f, s, mp, day);
    DayNumberFromMarch(y, mp, day);
    EraYears(era, q, f, s);
  }

  /** A valid date is day `day` of a March year of some era. */
  lemma FromCalendar(d: Date) returns (era: int, q: int, f: int, s: int, mp: int)
    requires Valid(d)
    ensures 0 <= q <= 3 && 0 <= f <= 24 && 0 <= s <= 3 && 0 <= mp <= 11
    ensures d == FromMarch(400 * era + 100 * q + 4 * f + s, mp, d.day)
  {
    mp := if d.month >= 3 then d.month - 3 else d.month + 9;
    var y := if d.month >= 3 then d.year else d.year - 1;
    era := y / 400;
    var yoe := y % 400;
    q := yoe / 100;
    f := yoe % 100 / 4;
    s := yoe % 4;
  }

  lemma EraOf(z: int, era: int, doe: nat)
    requires z == 146_097 * era + doe && doe < 146_097
    ensures z / 146_097 == era && z % 146_097 == doe
  {}

  /** The program finds the date of a day it is given as an era, a split and a month. */
  lemma Finds(days: int, era: int, doe: nat, q: int, f: int, s: int, doy: int, mp: int)
    requires days + 719_468 == 146_097 * era + doe && doe < 146_097 && Split(doe, q, f, s, doy)
    requires 0 <= mp <= 11 && MarchDays(mp) <= doy < (if mp < 11 then MarchDays(mp + 1) else 366)
    ensures FromUnixDays(days) == FromMarch(400 * era + 100 * q + 4 * f + s, mp, doy - MarchDays(mp) + 1)
  {
    hide Split, YearOfEra, DayOfYear;
    EraOf(days + 719_468, era, doe);
    YearIs(doe, q, f, s, doy);
    MonthIs(doy, mp);
  }

  /** And every date of the calendar is the date of its own count. */
  lemma {:induction false} DatesBack(d: Date)
    requires Valid(d)
    ensures FromUnixDays(DayNumber(d)) == d
  {
    hide DayNumber, Leap, MonthDays, FromUnixDays, FromMarch;
    var era, q, f, s, mp := FromCalendar(d);
    var y, doy := 400 * era + 100 * q + 4 * f + s, MarchDays(mp) + d.day - 1;
    ValidFromMarch(era, q, f, s, mp, d.day);
    DayNumberFromMarch(y, mp, d.day);
    EraYears(era, q, f, s);
    var doe: nat := 36_524 * q + 1_461 * f + 365 * s + doy;
    assert Split(doe, q, f, s, doy);
    Finds(DayNumber(d), era, doe, q, f, s, doy, mp);
  }

  /** The day after, by the calendar's own rules, has the next count. */
  lemma {:induction false} NextCounts(d: Date)
    requires Valid(d)
    ensures Valid(NextDay(d)) && DayNumber(NextDay(d)) == DayNumber(d) + 1
  {
    hide Leap, DaysBeforeYear;
    MonthTable(d.year);
    YearLength(d.year);
  }

  /** Consecutive days give consecutive dates, starting from 1 January 1970. */
  lemma {:induction false} Consecutive(days: int)
    ensures FromUnixDays(days + 1) == NextDay(FromUnixDays(days))
    ensures FromUnixDays(0) == Date(1970, 1, 1)
  {
    hide DayNumber, NextDay, Valid, FromUnixDays;
    CountsBack(days);
    NextCounts(FromUnixDays(days));
    DatesBack(NextDay(FromUnixDays(days)));
    assert FromUnixDays(0) == Date(1970, 1, 1) by { Epoch(); }
  }

  lemma Epoch()
    ensures FromUnixDays(0) == Date(1970, 1, 1)
  {
    hide FromUnixDays;
    var d := Date(1970, 1, 1);
    assert DayNumber(d) == 0 by { assert DaysBeforeYear(1970) == 719_162; }
    DatesBack(d);
  }
}
