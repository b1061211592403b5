/** The proleptic Gregorian calendar from 1 January of year 1, which is day 0 and a Monday. */
module Calendar {
  import opened Prelude

  predicate IsLeap(year: int) {
    (year % 4 == 0 && year % 100 != 0) || year % 400 == 0
  }

  /** Months are numbered through: month 0 is January of year 1. */
  function YearOf(month: nat): int {
    month / 12 + 1
  }

  /** The length of the `index`-th month of a year, January being 0. */
  function LengthIn(leap: bool, index: nat): (n: nat)
    ensures 28 <= n <= 31
  {
    if index == 1 then (if leap then 29 else 28)
    else if index == 3 || index == 5 || index == 8 || index == 10 then 30
    else 31
  }

  function LengthOf(month: nat): (n: nat)
    ensures 28 <= n <= 31
  {
    LengthIn(IsLeap(YearOf(month)), month % 12)
  }

  /** The first day of a month. */
  function MonthStart(month: nat): nat {
    if month == 0 then 0 else MonthStart(month - 1) + LengthOf(month - 1)
  }

  function MonthFrom(day: nat, from: nat): nat
    requires MonthStart(from) <= day
    decreases day - MonthStart(from)
  {
    if day < MonthStart(from + 1) then from else MonthFrom(day, from + 1)
  }

  /** The month a day falls in. */
  function MonthOf(day: nat): nat {
    MonthFrom(day, 0)
  }

  /** `from_ymd_opt`, for years from 1 on. */
  function FromYmd(year: int, month: int, day: int): Option<nat> {
    if year < 1 || month < 1 || month > 12 || day < 1 || day > LengthOf(12 * (year - 1) + month - 1) then None
    else Some(MonthStart(12 * (year - 1) + month - 1) + day - 1)
  }

  function Year(day: nat): int {
    YearOf(MonthOf(day))
  }

  function MonthNumber(day: nat): int {
    MonthOf(day) % 12 + 1
  }

  function DayOfMonth(day: nat): int
  {
    day - MonthStart(MonthOf(day)) + 1
  }

  // ---------------------------------------------------------------- months partition the days

  lemma {:induction false} MonthStartGrows(a: nat, b: nat)
    requires a < b
    ensures MonthStart(a) + LengthOf(a) <= MonthStart(b)
  {
    if a + 1 < b {
      MonthStartGrows(a, b - 1);
    }
  }

  lemma {:induction false} MonthFromHolds(day: nat, from: nat)
    requires MonthStart(from) <= day
    ensures var m := MonthFrom(day, from); MonthStart(m) <= day < MonthStart(m) + LengthOf(m)
    decreases day - MonthStart(from)
  {
    if day >= MonthStart(from + 1) {
      MonthFromHolds(day, from + 1);
    }
  }

  /** A day lies in exactly one month. */
  lemma MonthsPartition(day: nat, month: nat)
    ensures month == MonthOf(day) <==> MonthStart(month) <= day < MonthStart(month) + LengthOf(month)
  {
    MonthFromHolds(day, 0);
    var m := MonthOf(day);
    if m < month {
      MonthStartGrows(m, month);
    } else if month < m {
      MonthStartGrows(month, m);
    }
  }

  lemma MonthsAreOrdered(a: nat, b: nat)
    requires a <= b
    ensures MonthOf(a) <= MonthOf(b)
  {
    MonthsPartition(a, MonthOf(a));
    MonthsPartition(b, MonthOf(b));
    if MonthOf(b) < MonthOf(a) {
      MonthStartGrows(MonthOf(b), MonthOf(a));
    }
  }

  /** Splitting a day into year, month and day, and putting them together again. */
  lemma YmdRoundTrip(day: nat)
    ensures FromYmd(Year(day), MonthNumber(day), DayOfMonth(day)) == Some(day)
  {
    MonthsPartition(day, MonthOf(day));
    assert 12 * (Year(day) - 1) + MonthNumber(day) - 1 == MonthOf(day);
  }

  lemma FromYmdRoundTrip(year: int, month: int, day: int)
    requires FromYmd(year, month, day).Some?
    ensures var d := FromYmd(year, month, day).value; Year(d) == year && MonthNumber(d) == month && DayOfMonth(d) == day
  {
    MonthsPartition(FromYmd(year, month, day).value, 12 * (year - 1) + month - 1);
  }

  // ---------------------------------------------------------------- the year's closed form

  function YearStart(year: nat): int
    requires year >= 1
  {
    var y := year - 1;
    365 * y + y / 4 - y / 100 + y / 400
  }

  /** The days of a year before its `index`-th month. */
  function DaysBefore(leap: bool, index: nat): nat {
    if index == 0 then 0 else DaysBefore(leap, index - 1) + LengthIn(leap, index - 1)
  }

  lemma InYear(y: nat, index: nat)
    requires index < 12
    ensures (12 * y + index) / 12 == y && (12 * y + index) % 12 == index
  {
  }

  lemma NextMonth(y: nat, index: nat)
    requires index < 12
    ensures MonthStart(12 * y + index + 1) == MonthStart(12 * y + index) + LengthIn(IsLeap(y + 1), index)
  {
    InYear(y, index);
    var m := 12 * y + index;
    assert LengthOf(m) == LengthIn(IsLeap(y + 1), index);
    hide IsLeap, LengthIn, LengthOf;
    assert MonthStart(m + 1) == MonthStart(m) + LengthOf(m);
  }

  lemma {:induction false} WithinYear(y: nat, index: nat)
    requires index <= 12
    ensures MonthStart(12 * y + index) == MonthStart(12 * y) + DaysBefore(IsLeap(y + 1), index)
  {
    if index > 0 {
      hide IsLeap, LengthIn;
      WithinYear(y, index - 1);
      NextMonth(y, index - 1);
    }
  }

  lemma YearLength(y: nat)
    ensures MonthStart(12 * y + 12) == MonthStart(12 * y) + if IsLeap(y + 1) then 366 else 365
  {
    WithinYear(y, 12);
    hide MonthStart, IsLeap;
    assert DaysBefore(true, 6) == 182 && DaysBefore(false, 6) == 181;
    assert DaysBefore(true, 12) == 366 && DaysBefore(false, 12) == 365;
  }

  lemma Multiples4(y: nat)
    ensures (y + 1) / 4 == y / 4 + if (y + 1) % 4 == 0 then 1 else 0
  {
  }

  lemma Multiples100(y: nat)
    ensures (y + 1) / 100 == y / 100 + if (y + 1) % 100 == 0 then 1 else 0
  {
  }

  lemma Multiples400(y: nat)
    ensures (y + 1) / 400 == y / 400 + if (y + 1) % 400 == 0 then 1 else 0
  {
  }

  lemma MultiplesNest(y: nat)
    ensures y % 400 == 0 ==> y % 100 == 0
    ensures y % 100 == 0 ==> y % 4 == 0
  {
    HundredDivides(4 * (y / 400));
    FourDivides(25 * (y / 100));
  }

  lemma HundredDivides(a: nat)
    ensures (100 * a) % 100 == 0
  {
  }

  lemma FourDivides(a: nat)
    ensures (4 * a) % 4 == 0
  {
  }

  lemma LeapDays(y: nat)
    ensures YearStart(y + 2) == YearStart(y + 1) + if IsLeap(y + 1) then 366 else 365
  {
    Multiples4(y);
    Multiples100(y);
    Multiples400(y);
    MultiplesNest(y + 1);
  }

  /** Counting months one by one agrees with the Gregorian leap-year rule. */
  lemma {:induction false} YearsAreGregorian(year: nat)
    requires year >= 1
    ensures MonthStart(12 * (year - 1)) == YearStart(year)
  {
    hide MonthStart, YearStart, IsLeap;
    if year > 1 {
      var y := year - 2;
      YearsAreGregorian(year - 1);
      YearLength(y);
      LeapDays(y);
      assert 12 * (year - 1) == 12 * y + 12;
    } else {
      FirstYear();
    }
  }

  lemma FirstYear()
    ensures MonthStart(0) == YearStart(1)
  {
  }

  // ---------------------------------------------------------------- the source's helpers

  /** month_bounds: December's last day is the 31st, any other month ends a day before the next starts. */
  function MonthBounds(day: nat): (int, int) {
    BoundsOf(Year(day), MonthNumber(day))
  }

  function BoundsOf(year: int, month: int): (int, int) {
    (Or<int>(FromYmd(year, month, 1), 0),
     if month == 12 then Or<int>(FromYmd(year, 12, 31), 0) else Or<int>(FromYmd(year, month + 1, 1), 0) - 1)
  }

  lemma StartOfNext(m: nat)
    ensures MonthStart(m + 1) == MonthStart(m) + LengthOf(m)
  {
  }

  lemma BoundsOfForm(y: nat, k: nat)
    requires k < 12
    ensures BoundsOf(y + 1, k + 1) == (MonthStart(12 * y + k), MonthStart(12 * y + k) + LengthOf(12 * y + k) - 1)
  {
    StartOfNext(12 * y + k);
    hide LengthOf, FromYmd, MonthStart;
    DayOf(y, k, 1);
    if k < 11 {
      DayOf(y, k + 1, 1);
    } else {
      DecemberHas31(y);
    }
  }

  lemma PartsOf(day: nat, y: nat, k: nat)
    requires MonthOf(day) == 12 * y + k && k < 12
    ensures Year(day) == y + 1 && MonthNumber(day) == k + 1
  {
    hide MonthOf;
    InYear(y, k);
  }

  lemma BoundsForm(day: nat)
    ensures var m := MonthOf(day); MonthBounds(day) == (MonthStart(m), MonthStart(m) + LengthOf(m) - 1)
  {
    hide MonthOf, BoundsOf, LengthOf, MonthStart, Year, MonthNumber;
    var m := MonthOf(day);
    MonthParts(m);
    PartsOf(day, m / 12, m % 12);
    BoundsOfForm(m / 12, m % 12);
  }

  lemma MonthParts(m: nat)
    ensures m == 12 * (m / 12) + m % 12 && 0 <= m % 12 < 12
  {
  }

  lemma DayOf(y: nat, k: nat, day: nat)
    requires k < 12 && 1 <= day <= LengthOf(12 * y + k)
    ensures FromYmd(y + 1, k + 1, day) == Some(MonthStart(12 * y + k) + day - 1)
  {
    hide LengthOf, MonthStart;
  }

  /** The day of the month reached from any day of that month. */
  lemma SameMonthDay(today: nat, day: nat)
    requires 1 <= day <= LengthOf(MonthOf(today))
    ensures FromYmd(Year(today), MonthNumber(today), day) == Some(MonthStart(MonthOf(today)) + day - 1)
  {
    var m := MonthOf(today);
    var y, k := m / 12, m % 12;
    MonthParts(m);
    PartsOf(today, y, k);
    hide MonthOf, Year, MonthNumber, LengthOf, FromYmd, MonthStart;
    DayOf(y, k, day);
  }

  lemma DecemberHas31(y: nat)
    ensures LengthOf(12 * y + 11) == 31 && FromYmd(y + 1, 12, 31) == Some(MonthStart(12 * y + 11) + 30)
  {
    assert (12 * y + 11) % 12 == 11;
    hide IsLeap;
  }

  /** The bounds are exactly the days of the month. */
  lemma BoundsAreTheMonth(day: nat, other: nat)
    ensures var (first, last) := MonthBounds(day);
            && first == MonthStart(MonthOf(day)) && last == first + LengthOf(MonthOf(day)) - 1
            && (first <= other <= last <==> MonthOf(other) == MonthOf(day))
            && DayOfMonth(last) == LengthOf(MonthOf(day))
  {
    var m := MonthOf(day);
    BoundsForm(day);
    MonthsPartition(other, m);
    MonthsPartition(MonthStart(m) + LengthOf(m) - 1, m);
    hide MonthOf, MonthBounds, LengthOf;
  }

  /** current_week_start: back to Monday. */
  function WeekStart(day: nat): int {
    day - day % 7
  }

  /** Weeks partition the days as well. */
  lemma WeeksPartition(day: nat, week: nat)
    ensures WeekStart(day) == 7 * week <==> 7 * week <= day < 7 * week + 7
    ensures WeekStart(day) == 7 * (day / 7)
  {
  }
}
