/** The proleptic Gregorian calendar behind `time.Date`, `Weekday` and `AddDate`, in UTC. */
module Calendar {

  predicate IsLeap(y: int) {
    y % 4 == 0 && (y % 100 != 0 || y % 400 == 0)
  }

  function DaysIn(y: int, m: int): (n: int)
    requires 1 <= m <= 12
    ensures 28 <= n <= 31
  {
    if m == 2 then (if IsLeap(y) then 29 else 28)
    else if m in {4, 6, 9, 11} then 30
    else 31
  }

  datatype Date = Date(year: int, month: int, day: int) {
    predicate Valid() {
      1 <= month <= 12 && 1 <= day <= DaysIn(year, month)
    }

    function Next(): (d: Date)
      requires Valid()
      ensures d.Valid()
    {
      if day < DaysIn(year, month) then Date(year, month, day + 1)
      else if month < 12 then Date(year, month + 1, 1)
      else Date(year + 1, 1, 1)
    }

    function Prev(): (d: Date)
      requires Valid()
      ensures d.Valid() && d.Next() == this
    {
      if day > 1 then Date(year, month, day - 1)
      else if month > 1 then Date(year, month - 1, DaysIn(year, month - 1))
      else Date(year - 1, 12, 31)
    }

    predicate Before(d: Date) {
      year < d.year || (year == d.year && (month < d.month || (month == d.month && day < d.day)))
    }
  }

  function DaysBeforeYear(y: int): int {
    365 * (y - 1) + (y - 1) / 4 - (y - 1) / 100 + (y - 1) / 400
  }

  function DaysBeforeMonth(y: int, m: int): (n: int)
    requires 1 <= m <= 12
    ensures 0 <= n
    decreases m
  {
    if m == 1 then 0 else DaysBeforeMonth(y, m - 1) + DaysIn(y, m - 1)
  }

  /** Days since 1 January of year 1. */
  function DayNumber(d: Date): int
    requires d.Valid()
  {
    DaysBeforeYear(d.year) + DaysBeforeMonth(d.year, d.month) + d.day - 1
  }

  const SUNDAY := 0
  const SATURDAY := 6

  /** 1 January of year 1 is a Monday. */
  function Weekday(d: Date): (w: int)
    requires d.Valid()
    ensures 0 <= w <= 6
  {
    (DayNumber(d) + 1) % 7
  }

  /** Multiples of k are met once every k steps. */
  lemma QuotientSteps(y: int, k: int)
    requires k in {4, 100, 400}
    ensures y / k - (y - 1) / k == (if y % k == 0 then 1 else 0)
  {
  }

  lemma YearLength(y: int)
    ensures DaysBeforeYear(y + 1) == DaysBeforeYear(y) + DaysIn(y, 2) + 337
  {
    QuotientSteps(y, 4);
    QuotientSteps(y, 100);
    QuotientSteps(y, 400);
    LeapCases(y);
  }

  lemma LeapCases(y: int)
    ensures y % 400 == 0 ==> y % 100 == 0
    ensures y % 100 == 0 ==> y % 4 == 0
  {
    if y % 400 == 0 { Multiples(4 * (y / 400), 100); }
    if y % 100 == 0 { Multiples(25 * (y / 100), 4); }
  }

  lemma Multiples(q: int, k: int)
    requires k in {4, 100}
    ensures (k * q) % k == 0
  {
  }

  lemma MonthsOfYear(y: int)
    ensures DaysBeforeMonth(y, 12) == DaysIn(y, 2) + 306
  {
    assert DaysBeforeMonth(y, 3) == 31 + DaysIn(y, 2);
    assert DaysBeforeMonth(y, 5) == DaysBeforeMonth(y, 3) + 61;
    assert DaysBeforeMonth(y, 7) == DaysBeforeMonth(y, 5) + 61;
    assert DaysBeforeMonth(y, 9) == DaysBeforeMonth(y, 7) + 62;
    assert DaysBeforeMonth(y, 11) == DaysBeforeMonth(y, 9) + 61;
  }

  /** The closed-form day number counts days one by one, across months and leap years. */
  lemma DayNumberCounts(d: Date)
    requires d.Valid()
    ensures DayNumber(d.Next()) == DayNumber(d) + 1
  {
    if d.month == 12 && d.day == 31 {
      YearLength(d.year);
      MonthsOfYear(d.year);
    }
  }

  lemma {:induction false} YearsIncrease(y: int, z: int)
    requires y <= z
    ensures DaysBeforeYear(y) + 365 * (z - y) <= DaysBeforeYear(z)
    decreases z - y
  {
    if y < z {
      YearsIncrease(y, z - 1);
      YearLength(z - 1);
    }
  }

  lemma {:induction false} MonthsIncrease(y: int, m: int, n: int)
    requires 1 <= m < n <= 12
    ensures DaysBeforeMonth(y, m) + DaysIn(y, m) <= DaysBeforeMonth(y, n)
    decreases n - m
  {
    if m < n - 1 { MonthsIncrease(y, m, n - 1); }
  }

  lemma WithinYear(d: Date)
    requires d.Valid()
    ensures DaysBeforeYear(d.year) <= DayNumber(d) < DaysBeforeYear(d.year + 1)
  {
    YearLength(d.year);
    MonthsOfYear(d.year);
    if d.month < 12 { MonthsIncrease(d.year, d.month, 12); }
  }

  /** Calendar order is day-number order, so a day number names one date. */
  lemma DayNumberOrders(d: Date, e: Date)
    requires d.Valid() && e.Valid()
    ensures d.Before(e) <==> DayNumber(d) < DayNumber(e)
  {
    DayNumberGrows(d, e);
    DayNumberGrows(e, d);
  }

  lemma DayNumberGrows(d: Date, e: Date)
    requires d.Valid() && e.Valid()
    ensures d.Before(e) ==> DayNumber(d) < DayNumber(e)
  {
    if d.year < e.year {
      WithinYear(d);
      WithinYear(e);
      YearsIncrease(d.year + 1, e.year);
    } else if d.year == e.year && d.month < e.month {
      MonthsIncrease(d.year, d.month, e.month);
    }
  }

  function AddDays(d: Date, n: int): (r: Date)
    requires d.Valid()
    ensures r.Valid()
    decreases if n < 0 then -n else n
  {
    if n == 0 then d
    else if n > 0 then AddDays(d, n - 1).Next()
    else AddDays(d, n + 1).Prev()
  }

  /** `AddDate(0, months, days)` from the first of a month: the month moves first, then the day. */
  function AddDate(d: Date, months: nat, days: int): (r: Date)
    requires d.Valid() && d.day == 1
    ensures r.Valid()
  {
    var m := d.month - 1 + months;
    AddDays(Date(d.year + m / 12, m % 12 + 1, 1), days)
  }

  lemma {:induction false} AddDaysMoves(d: Date, n: int)
    requires d.Valid()
    ensures DayNumber(AddDays(d, n)) == DayNumber(d) + n
    decreases if n < 0 then -n else n
  {
    if n > 0 {
      AddDaysMoves(d, n - 1);
      DayNumberCounts(AddDays(d, n - 1));
    } else if n < 0 {
      AddDaysMoves(d, n + 1);
      DayNumberCounts(AddDays(d, n));
    }
  }

  /** The date n days on is whichever valid date has that day number. */
  lemma AddDaysIs(d: Date, n: int, e: Date)
    requires d.Valid() && e.Valid() && DayNumber(e) == DayNumber(d) + n
    ensures AddDays(d, n) == e
  {
    AddDaysMoves(d, n);
    DayNumberOrders(AddDays(d, n), e);
    DayNumberOrders(e, AddDays(d, n));
  }

  lemma FirstOfNext(y: int, m: int)
    requires 1 <= m <= 12
    ensures Date(y, m, DaysIn(y, m)).Next() == Date(y + m / 12, m % 12 + 1, 1)
  {
  }

  /** Going k days back from the first of the next month lands k - 1 days before the last of this one. */
  lemma MonthEnd(y: int, m: int, k: int)
    requires 1 <= m <= 12 && 1 <= k <= 28
    ensures AddDate(Date(y, m, 1), 1, -k) == Date(y, m, DaysIn(y, m) + 1 - k)
  {
    var first := Date(y + m / 12, m % 12 + 1, 1);
    var last := Date(y, m, DaysIn(y, m));
    hide DayNumber, AddDays, DaysIn, Date.Next;
    FirstOfNext(y, m);
    DayNumberCounts(last);
    MonthDayNumber(y, m, DaysIn(y, m));
    MonthDayNumber(y, m, DaysIn(y, m) + 1 - k);
    AddDaysIs(first, -k, Date(y, m, DaysIn(y, m) + 1 - k));
  }

  lemma MonthDayNumber(y: int, m: int, d: int)
    requires Date(y, m, d).Valid()
    ensures DayNumber(Date(y, m, d)) == DayNumber(Date(y, m, 1)) + d - 1
  {
  }

  lemma WithinMonth(y: int, m: int, d: int)
    requires Date(y, m, d).Valid()
    ensures AddDate(Date(y, m, 1), 0, d - 1) == Date(y, m, d)
    ensures Weekday(Date(y, m, d)) == (Weekday(Date(y, m, 1)) + d - 1) % 7
  {
    hide DayNumber;
    MonthDayNumber(y, m, d);
    AddDaysIs(Date(y, m, 1), d - 1, Date(y, m, d));
    ShiftMod7(DayNumber(Date(y, m, 1)) + 1, d - 1);
  }

  lemma ShiftMod7(a: int, k: int)
    ensures (a + k) % 7 == (a % 7 + k) % 7
  {
    var q := a / 7;
    assert a + k == 7 * q + (a % 7 + k);
    AddMultipleOf7(a % 7 + k, q);
  }

  lemma AddMultipleOf7(x: int, q: int)
    ensures (7 * q + x) % 7 == x % 7
  {
    assert 7 * q + x == 7 * (q + x / 7) + x % 7;
  }

  // ---- What fixes the calendar ----

  /** Where the months of any year start, and where 1970 does. */
  lemma MonthsStart(y: int, m: int)
    requires 1 <= m <= 12
    ensures
      var leap := y % 4 == 0 && (y % 100 != 0 || y % 400 == 0);
      DayNumber(Date(y, m, 1)) - DayNumber(Date(y, 1, 1)) ==
        [0, 31, 59, 90, 120, 151, 181, 212, 243, 273, 304, 334][m - 1] + if leap && m > 2 then 1 else 0
    ensures DayNumber(Date(y + 1, 1, 1)) - DayNumber(Date(y, 1, 1)) == if y % 4 == 0 && (y % 100 != 0 || y % 400 == 0) then 366 else 365
    ensures DayNumber(Date(1, 1, 1)) == 0 && DayNumber(Date(1970, 1, 1)) == 719162
  {
    MonthsBefore(y, m);
    YearLength(y);
  }

  lemma MonthsBefore(y: int, m: int)
    requires 1 <= m <= 12
    ensures DaysBeforeMonth(y, m) ==
      [0, 31, 59, 90, 120, 151, 181, 212, 243, 273, 304, 334][m - 1] + if IsLeap(y) && m > 2 then 1 else 0
  {
    if m > 1 { MonthsBefore(y, m - 1); }
  }

  /** 1 January 1970 is a Thursday. */
  lemma EpochWeekday()
    ensures Weekday(Date(1970, 1, 1)) == 4
  {
    assert DayNumber(Date(1970, 1, 1)) == 719162;
  }

  /** Weekdays follow each other across month ends and leap days. */
  lemma WeekdayNext(d: Date)
    requires d.Valid()
    ensures Weekday(d.Next()) == (Weekday(d) + 1) % 7
  {
    hide DayNumber, Date.Next;
    DayNumberCounts(d);
    ShiftMod7(DayNumber(d) + 1, 1);
  }

  /** A way to name the days that calls that day a Thursday and goes round the week. */
  ghost predicate NamesDays(name: Date -> int) {
    name(Date(1970, 1, 1)) == 4 && forall e: Date :: e.Valid() ==> 0 <= name(e) <= 6 && name(e.Next()) == (name(e) + 1) % 7
  }

  /** There is only one: it agrees with `Weekday` on every date. */
  lemma WeekdayDetermined(name: Date -> int, d: Date)
    requires NamesDays(name) && d.Valid()
    ensures name(d) == Weekday(d)
  {
    hide NamesDays, DayNumber, Weekday, AddDays;
    var epoch := Date(1970, 1, 1);
    AddDaysIs(epoch, DayNumber(d) - DayNumber(epoch), d);
    NamedAfter(name, DayNumber(d) - DayNumber(epoch));
  }

  lemma NamedNext(name: Date -> int, d: Date)
    requires NamesDays(name) && d.Valid()
    ensures name(d) == Weekday(d) <==> name(d.Next()) == Weekday(d.Next())
  {
    hide Weekday, Date.Next;
    WeekdayNext(d);
    NextModSeven(name(d), Weekday(d));
  }

  lemma NamedEpoch(name: Date -> int)
    requires NamesDays(name)
    ensures name(Date(1970, 1, 1)) == Weekday(Date(1970, 1, 1))
  {
    hide Weekday;
    EpochWeekday();
  }

  lemma {:induction false} NamedAfter(name: Date -> int, n: int)
    requires NamesDays(name)
    ensures name(AddDays(Date(1970, 1, 1), n)) == Weekday(AddDays(Date(1970, 1, 1), n))
    decreases if n < 0 then -n else n
  {
    hide NamesDays, Weekday, Date.Next, Date.Prev;
    var epoch := Date(1970, 1, 1);
    if n == 0 {
      NamedEpoch(name);
    } else if n > 0 {
      NamedAfter(name, n - 1);
      NamedNext(name, AddDays(epoch, n - 1));
    } else {
      NamedAfter(name, n + 1);
      NamedNext(name, AddDays(epoch, n));
    }
  }

  lemma NextModSeven(a: int, b: int)
    requires 0 <= a <= 6 && 0 <= b <= 6
    ensures (a + 1) % 7 == (b + 1) % 7 ==> a == b
  {
  }
}
