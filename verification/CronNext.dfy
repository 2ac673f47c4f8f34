/** The walk of `Next` through the value lists, over the shared cache of actual days. */
module CronNext {
  import opened Calendar
  import opened SortedLists
  import opened CronSpec
  import opened CronDays

  /** Days the cache must hold while the walk stands in t's month. */
  ghost predicate DaysOf(f: Fields, t: Time, list: seq<int>) {
    Increasing(list) && forall d :: d in list <==> DayRule(f, t.year, t.month, d)
  }

  /** The first matching clock time of a day. */
  function Start(f: Fields, y: int, m: int, d: int): Time
    requires f.Populated()
  {
    Time(y, m, d, f.hourList[0], f.minuteList[0], f.secondList[0], 0)
  }

  /** The start of a matching day fires, and nothing on that day fires before it. */
  lemma StartIsFirst(f: Fields, y: int, m: int, d: int)
    requires f.WellFormed() && y in f.yearList && m in f.monthList && DayRule(f, y, m, d)
    ensures Fires(f, Start(f, y, m, d))
    ensures forall u :: Fires(f, u) && u.year == y && u.month == m && u.day == d ==> !SecondAfter(Start(f, y, m, d), u)
  {
    HeadIsLeast(f.hourList);
    HeadIsLeast(f.minuteList);
    HeadIsLeast(f.secondList);
  }

  /** The first matching day of the first listed month of the next listed year is the earliest. */
  lemma YearFound(f: Fields, t: Time, y: int, m: int, d: int)
    requires f.WellFormed() && y in f.yearList && y > t.year && forall z :: z in f.yearList && z > t.year ==> y <= z
    requires m in f.monthList && forall n :: n in f.monthList ==> m <= n
    requires DayRule(f, y, m, d) && forall e :: DayRule(f, y, m, e) ==> d <= e
    ensures Earliest(f, Year, t, Start(f, y, m, d))
  {
    StartIsFirst(f, y, m, d);
  }

  /** If that month has no matching day, the year is continued month by month. */
  lemma YearContinued(f: Fields, t: Time, y: int, m: int, r: Time)
    requires f.WellFormed() && y > t.year && forall z :: z in f.yearList && z > t.year ==> y <= z
    requires forall n :: n in f.monthList ==> m <= n
    requires forall e :: !DayRule(f, y, m, e)
    requires Earliest(f, Month, Start(f, y, m, 1), r)
    ensures Earliest(f, Year, t, r)
  {
    forall u | Fires(f, u) && YearAfter(u, t)
      ensures MonthAfter(u, Start(f, y, m, 1))
    {
    }
  }

  lemma MonthFound(f: Fields, t: Time, m: int, d: int)
    requires f.WellFormed() && t.year in f.yearList
    requires m in f.monthList && m > t.month && forall n :: n in f.monthList && n > t.month ==> m <= n
    requires DayRule(f, t.year, m, d) && forall e :: DayRule(f, t.year, m, e) ==> d <= e
    ensures Earliest(f, Month, t, Start(f, t.year, m, d))
  {
    StartIsFirst(f, t.year, m, d);
  }

  lemma MonthContinued(f: Fields, t: Time, m: int, r: Time)
    requires f.WellFormed() && m > t.month && forall n :: n in f.monthList && n > t.month ==> m <= n
    requires forall e :: !DayRule(f, t.year, m, e)
    requires Earliest(f, Month, Start(f, t.year, m, 1), r)
    ensures Earliest(f, Month, t, r)
  {
    forall u | Fires(f, u) && MonthAfter(u, t)
      ensures MonthAfter(u, Start(f, t.year, m, 1))
    {
    }
  }

  lemma MonthsOver(f: Fields, t: Time, r: Time)
    requires (forall n :: n in f.monthList ==> n <= t.month) && Earliest(f, Year, t, r)
    ensures Earliest(f, Month, t, r)
  {
  }

  /** If t's day is not among the month's days, what comes later comes on a later day; after the last of them, in a later
      month. */
  lemma DayMissed(f: Fields, t: Time, days: seq<int>)
    requires DaysOf(f, t, days)
    ensures t.day !in days ==> forall u :: Fires(f, u) && SecondAfter(u, t) ==> After(Day, u, t)
    ensures (forall d :: d in days ==> d < t.day) ==> forall u :: Fires(f, u) && SecondAfter(u, t) ==> After(Month, u, t)
  {
    hide DayRule;
  }

  class Expression {
    const f: Fields
    var actualDaysOfMonthList: seq<int>

    constructor (fields: Fields)
      ensures f == fields
    {
      f := fields;
      actualDaysOfMonthList := [];
    }

    method NextYear(t: Time) returns (r: Time)
      requires f.WellFormed()
      modifies this`actualDaysOfMonthList
      ensures Earliest(f, Year, t, r)
      decreases |f.yearList| - Search(f.yearList, t.year + 1), 0
    {
      var i := Search(f.yearList, t.year + 1);
      SearchSplits(f.yearList, t.year + 1);
      if i == |f.yearList| {
        return ZERO;
      }
      HeadIsLeast(f.monthList);
      var y, m := f.yearList[i], f.monthList[0];
      actualDaysOfMonthList := CalculateActualDaysOfMonth(f, y, m);
      if actualDaysOfMonthList == [] {
        SearchNext(f.yearList, t.year + 1, y + 1);
        ghost var none := actualDaysOfMonthList;
        assert forall e :: !DayRule(f, y, m, e) by { assert forall e :: e !in none; }
        r := NextMonth(Start(f, y, m, 1));
        YearContinued(f, t, y, m, r);
        return;
      }
      HeadIsLeast(actualDaysOfMonthList);
      YearFound(f, t, y, m, actualDaysOfMonthList[0]);
      r := Start(f, y, m, actualDaysOfMonthList[0]);
    }

    method NextMonth(t: Time) returns (r: Time)
      requires f.WellFormed() && t.year in f.yearList
      modifies this`actualDaysOfMonthList
      ensures Earliest(f, Month, t, r)
      decreases |f.yearList| - Search(f.yearList, t.year + 1), 1 + |f.monthList| - Search(f.monthList, t.month + 1)
    {
      hide Earliest, Fires, DayRule;
      var i := Search(f.monthList, t.month + 1);
      SearchSplits(f.monthList, t.month + 1);
      if i == |f.monthList| {
        r := NextYear(t);
        MonthsOver(f, t, r);
        return;
      }
      var m := f.monthList[i];
      actualDaysOfMonthList := CalculateActualDaysOfMonth(f, t.year, m);
      if actualDaysOfMonthList == [] {
        SearchNext(f.monthList, t.month + 1, m + 1);
        ghost var none := actualDaysOfMonthList;
        assert forall e :: !DayRule(f, t.year, m, e) by { assert forall e :: e !in none; }
        r := NextMonth(Start(f, t.year, m, 1));
        MonthContinued(f, t, m, r);
        return;
      }
      HeadIsLeast(actualDaysOfMonthList);
      MonthFound(f, t, m, actualDaysOfMonthList[0]);
      r := Start(f, t.year, m, actualDaysOfMonthList[0]);
    }

    method NextDayOfMonth(t: Time) returns (r: Time)
      requires f.WellFormed() && t.year in f.yearList && t.month in f.monthList
      requires DaysOf(f, t, actualDaysOfMonthList)
      modifies this`actualDaysOfMonthList
      ensures Earliest(f, Day, t, r)
    {
      var i := Search(actualDaysOfMonthList, t.day + 1);
      SearchSplits(actualDaysOfMonthList, t.day + 1);
      if i == |actualDaysOfMonthList| {
        r := NextMonth(t);
        return;
      }
      var d := actualDaysOfMonthList[i];
      assert d in actualDaysOfMonthList;
      StartIsFirst(f, t.year, t.month, d);
      r := Start(f, t.year, t.month, d);
    }

    method NextHour(t: Time) returns (r: Time)
      requires f.WellFormed() && t.year in f.yearList && t.month in f.monthList
      requires DaysOf(f, t, actualDaysOfMonthList) && t.day in actualDaysOfMonthList
      modifies this`actualDaysOfMonthList
      ensures Earliest(f, Hour, t, r)
    {
      var i := Search(f.hourList, t.hour + 1);
      SearchSplits(f.hourList, t.hour + 1);
      if i == |f.hourList| {
        r := NextDayOfMonth(t);
        return;
      }
      HeadIsLeast(f.minuteList);
      HeadIsLeast(f.secondList);
      r := Time(t.year, t.month, t.day, f.hourList[i], f.minuteList[0], f.secondList[0], 0);
    }

    method NextMinute(t: Time) returns (r: Time)
      requires f.WellFormed() && t.year in f.yearList && t.month in f.monthList && t.hour in f.hourList
      requires DaysOf(f, t, actualDaysOfMonthList) && t.day in actualDaysOfMonthList
      modifies this`actualDaysOfMonthList
      ensures Earliest(f, Minute, t, r)
    {
      var i := Search(f.minuteList, t.minute + 1);
      SearchSplits(f.minuteList, t.minute + 1);
      if i == |f.minuteList| {
        r := NextHour(t);
        return;
      }
      HeadIsLeast(f.secondList);
      r := Time(t.year, t.month, t.day, t.hour, f.minuteList[i], f.secondList[0], 0);
    }

    method NextSecond(t: Time) returns (r: Time)
      requires f.WellFormed() && t.year in f.yearList && t.month in f.monthList
      requires t.hour in f.hourList && t.minute in f.minuteList
      requires DaysOf(f, t, actualDaysOfMonthList) && t.day in actualDaysOfMonthList
      modifies this`actualDaysOfMonthList
      ensures Earliest(f, Second, t, r)
    {
      var i := Search(f.secondList, t.second + 1);
      SearchSplits(f.secondList, t.second + 1);
      if i == |f.secondList| {
        r := NextMinute(t);
        return;
      }
      r := Time(t.year, t.month, t.day, t.hour, t.minute, f.secondList[i], 0);
    }

    /** `Next`: the first instant of the schedule after `from`, whatever an earlier call left in the cache. */
    method Next(from: Time) returns (r: Time)
      requires f.WellFormed() && from.Valid()
      modifies this`actualDaysOfMonthList
      ensures if from == ZERO then r == ZERO else IsNext(f, from, r)
    {
      if from == ZERO {
        return from;
      }
      r := NextFrom(from);
      EarliestIsNext(f, from, r);
    }

    /** The entry point: leave to the step function of the first field that does not match. */
    method NextFrom(t: Time) returns (r: Time)
      requires f.WellFormed()
      modifies this`actualDaysOfMonthList
      ensures Earliest(f, Second, t, r)
    {
      var i := Search(f.yearList, t.year);
      SearchSplits(f.yearList, t.year);
      if i == |f.yearList| {
        return ZERO;
      }
      if t.year != f.yearList[i] {
        r := NextYear(t);
        Deepen(f, Year, t, r);
        return;
      }
      r := NextWithinYear(t);
    }

    /** The part of `Next` that runs once the year matches. */
    method NextWithinYear(t: Time) returns (r: Time)
      requires f.WellFormed() && t.year in f.yearList
      modifies this`actualDaysOfMonthList
      ensures Earliest(f, Second, t, r)
    {
      var i := Search(f.monthList, t.month);
      SearchSplits(f.monthList, t.month);
      if i == |f.monthList| {
        r := NextYear(t);
        Deepen(f, Year, t, r);
        return;
      }
      if t.month != f.monthList[i] {
        r := NextMonth(t);
        Deepen(f, Month, t, r);
        return;
      }
      actualDaysOfMonthList := CalculateActualDaysOfMonth(f, t.year, t.month);
      if actualDaysOfMonthList == [] {
        ghost var none := actualDaysOfMonthList;
        assert forall e :: !DayRule(f, t.year, t.month, e) by { assert forall e :: e !in none; }
        r := NextMonth(t);
        Deepen(f, Month, t, r);
        return;
      }
      r := NextWithinMonth(t);
    }

    /** The part of `Next` that runs once year and month match and the cache holds this month's days. */
    method NextWithinMonth(t: Time) returns (r: Time)
      requires f.WellFormed() && t.year in f.yearList && t.month in f.monthList
      requires DaysOf(f, t, actualDaysOfMonthList)
      modifies this`actualDaysOfMonthList
      ensures Earliest(f, Second, t, r)
    {
      hide Earliest, Fires, DayRule;
      var i := Search(actualDaysOfMonthList, t.day);
      SearchSplits(actualDaysOfMonthList, t.day);
      DayMissed(f, t, actualDaysOfMonthList);
      if i == |actualDaysOfMonthList| {
        r := NextMonth(t);
        Deepen(f, Month, t, r);
        return;
      }
      if t.day != actualDaysOfMonthList[i] {
        r := NextDayOfMonth(t);
        Deepen(f, Day, t, r);
        return;
      }
      r := NextWithinDay(t);
    }

    /** The part of `Next` that runs once the whole date matches. */
    method NextWithinDay(t: Time) returns (r: Time)
      requires f.WellFormed() && t.year in f.yearList && t.month in f.monthList
      requires DaysOf(f, t, actualDaysOfMonthList) && t.day in actualDaysOfMonthList
      modifies this`actualDaysOfMonthList
      ensures Earliest(f, Second, t, r)
    {
      var i := Search(f.hourList, t.hour);
      SearchSplits(f.hourList, t.hour);
      if i == |f.hourList| {
        r := NextDayOfMonth(t);
        Deepen(f, Day, t, r);
        return;
      }
      if t.hour != f.hourList[i] {
        r := NextHour(t);
        Deepen(f, Hour, t, r);
        return;
      }
      i := Search(f.minuteList, t.minute);
      SearchSplits(f.minuteList, t.minute);
      if i == |f.minuteList| {
        r := NextHour(t);
        Deepen(f, Hour, t, r);
        return;
      }
      if t.minute != f.minuteList[i] {
        r := NextMinute(t);
        Deepen(f, Minute, t, r);
        return;
      }
      i := Search(f.secondList, t.second);
      SearchSplits(f.secondList, t.second);
      if i == |f.secondList| {
        r := NextMinute(t);
        Deepen(f, Minute, t, r);
        return;
      }
      r := NextSecond(t);
    }

    /** `NextInterval`: how long a ticker must run to fire at the next instant. */
    method NextInterval(from: Time) returns (d: int)
      requires f.WellFormed() && from.Valid()
      modifies this`actualDaysOfMonthList
      ensures from == ZERO ==> d == 0
      ensures from.Nanos() > 0 ==> (d > 0 <==> exists u :: Fires(f, u) && u.Nanos() > from.Nanos())
      ensures from.year >= 1970 && d > 0 ==>
        exists r: Time :: r.Valid() && r != ZERO && IsNext(f, from, r) && from.Nanos() + d == r.Nanos()
    {
      hide IsNext, Time.Seconds;
      ZeroIsOrigin();
      hide Time.Nanos;
      var r := Next(from);
      if from != ZERO {
        IntervalMeans(f, from, r);
      }
      d := Sub(r.Nanos(), from.Nanos());
    }
  }

  /** If nothing fires at t's own prefix below the level, the earliest at the level is the earliest of all. */
  lemma Deepen(f: Fields, level: Level, t: Time, r: Time)
    requires Earliest(f, level, t, r)
    requires forall u :: Fires(f, u) && SecondAfter(u, t) ==> After(level, u, t)
    ensures Earliest(f, Second, t, r)
  {
  }

  const MAX_DURATION := 0x7FFF_FFFF_FFFF_FFFF

  /** `Time.Sub`: the difference, saturated to 64 bits. */
  function Sub(a: int, b: int): int {
    if a - b > MAX_DURATION then MAX_DURATION
    else if a - b < -MAX_DURATION - 1 then -MAX_DURATION - 1
    else a - b
  }

  lemma ZeroIsOrigin()
    ensures ZERO.Nanos() == 0
  {
  }

  /** The schedule is over exactly if it has no later instant. */
  lemma OverIff(f: Fields, t: Time)
    requires t.Valid()
    ensures IsNext(f, t, ZERO) <==> !exists u :: Fires(f, u) && u.Nanos() > t.Nanos()
  {
    hide Time.Nanos;
  }

  lemma LaterThanZero(t: Time)
    requires t.Valid() && t.year >= 1970
    ensures t.Nanos() > 0
  {
    WithinYear(Date(t.year, t.month, t.day));
    YearsIncrease(1970, t.year);
    assert DaysBeforeYear(1970) == 719162;
  }

  /** What the saturated difference to the next instant says. */
  lemma IntervalMeans(f: Fields, from: Time, r: Time)
    requires f.WellFormed() && from.Valid() && IsNext(f, from, r)
    ensures r.Valid()
    ensures
      var d := Sub(r.Nanos(), from.Nanos());
      && (from.Nanos() > 0 ==> (d > 0 <==> exists u :: Fires(f, u) && u.Nanos() > from.Nanos()))
      && (from.year >= 1970 && d > 0 ==> r != ZERO && from.Nanos() + d == r.Nanos())
  {
    hide Time.Seconds;
    ZeroIsOrigin();
    if from.year >= 1970 {
      LaterThanZero(from);
      if r != ZERO { ScheduleSpan(f, from, r); }
    }
    hide Time.Nanos;
  }

  /** From 1970 on no gap of the schedule saturates a duration. */
  lemma ScheduleSpan(f: Fields, from: Time, r: Time)
    requires f.WellFormed() && from.Valid() && from.year >= 1970 && Fires(f, r) && from.Nanos() < r.Nanos()
    ensures r.Nanos() - from.Nanos() <= MAX_DURATION
  {
    var a, b := Date(from.year, from.month, from.day), Date(r.year, r.month, r.day);
    WithinYear(a);
    WithinYear(b);
    YearsIncrease(1970, a.year);
    YearsIncrease(b.year + 1, 2100);
    assert DaysBeforeYear(2100) - DaysBeforeYear(1970) == 47482;
  }
}
