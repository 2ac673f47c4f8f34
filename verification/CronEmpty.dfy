/** The walk of `Next` over an expression one of whose lists is empty: it indexes that list as soon as it builds a time. */
module CronEmpty {
  import opened SortedLists
  import opened CronSpec
  import opened CronDays

  ghost predicate Later(list: seq<int>, v: int) {
    exists x :: x in list && x > v
  }

  // ---- The walk has somewhere to go ----

  ghost predicate MinuteOnward(f: Fields, t: Time) {
    Later(f.minuteList, t.minute)
  }

  ghost predicate HourOnward(f: Fields, t: Time) {
    Later(f.hourList, t.hour) || (t.hour in f.hourList && MinuteOnward(f, t))
  }

  ghost predicate DayOnward(f: Fields, t: Time) {
    || (exists d :: DayRule(f, t.year, t.month, d) && d > t.day)
    || (DayRule(f, t.year, t.month, t.day) && HourOnward(f, t))
  }

  ghost predicate MonthOnward(f: Fields, t: Time) {
    Later(f.monthList, t.month) || (t.month in f.monthList && DayOnward(f, t))
  }

  /** A later year is listed, or the year is listed and a later month is, and so on down to the minutes. */
  ghost predicate Onward(f: Fields, t: Time) {
    Later(f.yearList, t.year) || (t.year in f.yearList && MonthOnward(f, t))
  }

  // ---- The walk ----

  /** How the walk ends: with an index out of range, or with an answer. */
  datatype Walk = Panic | Answer(time: Time)

  /** It panics if it goes on, and otherwise answers that there is no next instant. */
  ghost predicate Ends(r: Walk, onward: bool) {
    r == if onward then Panic else Answer(ZERO)
  }

  ghost predicate Unpopulated(f: Fields) {
    !f.Populated() && f.ListsInRange() && f.DaysInRange()
  }

  /** A time at the first hour, minute and second cannot be built. */
  predicate NoStart(f: Fields) {
    f.hourList == [] || f.minuteList == [] || f.secondList == []
  }

  lemma SearchFinds(list: seq<int>, v: int)
    requires Increasing(list)
    ensures Search(list, v + 1) == |list| <==> !Later(list, v)
  {
    SearchSplits(list, v + 1);
    if Search(list, v + 1) < |list| {
      assert list[Search(list, v + 1)] in list;
    }
  }

  method EmptyNextYear(f: Fields, t: Time) returns (r: Walk)
    requires Unpopulated(f)
    ensures Ends(r, Later(f.yearList, t.year))
  {
    SearchFinds(f.yearList, t.year);
    if Search(f.yearList, t.year + 1) == |f.yearList| {
      return Answer(ZERO);
    }
    assert f.monthList == [] || NoStart(f);
    r := Panic;
  }

  method EmptyNextMonth(f: Fields, t: Time) returns (r: Walk)
    requires Unpopulated(f)
    ensures Ends(r, Later(f.yearList, t.year) || Later(f.monthList, t.month))
  {
    SearchFinds(f.monthList, t.month);
    if Search(f.monthList, t.month + 1) == |f.monthList| {
      r := EmptyNextYear(f, t);
      return;
    }
    assert NoStart(f);
    r := Panic;
  }

  method EmptyNextDayOfMonth(f: Fields, t: Time, days: seq<int>) returns (r: Walk)
    requires Unpopulated(f) && f.monthList != [] && Increasing(days)
    ensures Ends(r, Later(f.yearList, t.year) || Later(f.monthList, t.month) || Later(days, t.day))
  {
    SearchFinds(days, t.day);
    if Search(days, t.day + 1) == |days| {
      r := EmptyNextMonth(f, t);
      return;
    }
    assert NoStart(f);
    r := Panic;
  }

  method EmptyNextHour(f: Fields, t: Time, days: seq<int>) returns (r: Walk)
    requires Unpopulated(f) && f.monthList != [] && Increasing(days)
    ensures Ends(r, Later(f.yearList, t.year) || Later(f.monthList, t.month) || Later(days, t.day) || Later(f.hourList, t.hour))
  {
    SearchFinds(f.hourList, t.hour);
    if Search(f.hourList, t.hour + 1) == |f.hourList| {
      r := EmptyNextDayOfMonth(f, t, days);
      return;
    }
    assert f.minuteList == [] || f.secondList == [];
    r := Panic;
  }

  method EmptyNextMinute(f: Fields, t: Time, days: seq<int>) returns (r: Walk)
    requires Unpopulated(f) && f.monthList != [] && f.hourList != [] && Increasing(days)
    ensures Ends(r, Later(f.yearList, t.year) || Later(f.monthList, t.month) || Later(days, t.day) ||
                    Later(f.hourList, t.hour) || Later(f.minuteList, t.minute))
  {
    SearchFinds(f.minuteList, t.minute);
    if Search(f.minuteList, t.minute + 1) == |f.minuteList| {
      r := EmptyNextHour(f, t, days);
      return;
    }
    assert f.secondList == [];
    r := Panic;
  }

  /** `Next` on such an expression panics exactly if the walk has somewhere to go, and answers the zero time otherwise. */
  method EmptyNext(f: Fields, t: Time) returns (r: Walk)
    requires Unpopulated(f)
    ensures Ends(r, Onward(f, t))
  {
    hide DayRule;
    var i := Search(f.yearList, t.year);
    SearchSplits(f.yearList, t.year);
    if i == |f.yearList| {
      return Answer(ZERO);
    }
    if t.year != f.yearList[i] {
      r := EmptyNextYear(f, t);
      return;
    }
    i := Search(f.monthList, t.month);
    SearchSplits(f.monthList, t.month);
    if i == |f.monthList| {
      r := EmptyNextYear(f, t);
      return;
    }
    if t.month != f.monthList[i] {
      r := EmptyNextMonth(f, t);
      return;
    }
    var days := CalculateActualDaysOfMonth(f, t.year, t.month);
    assert Later(days, t.day) <==> exists d :: DayRule(f, t.year, t.month, d) && d > t.day;
    if days == [] {
      assert t.day !in days;
      r := EmptyNextMonth(f, t);
      return;
    }
    r := EmptyNextWithinMonth(f, t, days);
  }

  /** The part of it that runs once year and month match. */
  method EmptyNextWithinMonth(f: Fields, t: Time, days: seq<int>) returns (r: Walk)
    requires Unpopulated(f) && f.monthList != [] && Increasing(days)
    ensures Ends(r, Later(f.yearList, t.year) || Later(f.monthList, t.month) || Later(days, t.day) ||
                    (t.day in days && HourOnward(f, t)))
  {
    var i := Search(days, t.day);
    SearchSplits(days, t.day);
    if i == |days| {
      r := EmptyNextMonth(f, t);
      return;
    }
    if t.day != days[i] {
      r := EmptyNextDayOfMonth(f, t, days);
      return;
    }
    i := Search(f.hourList, t.hour);
    SearchSplits(f.hourList, t.hour);
    if i == |f.hourList| {
      r := EmptyNextDayOfMonth(f, t, days);
      return;
    }
    if t.hour != f.hourList[i] {
      r := EmptyNextHour(f, t, days);
      return;
    }
    i := Search(f.minuteList, t.minute);
    SearchSplits(f.minuteList, t.minute);
    if i == |f.minuteList| {
      r := EmptyNextHour(f, t, days);
      return;
    }
    if t.minute != f.minuteList[i] {
      r := EmptyNextMinute(f, t, days);
      return;
    }
    assert Search(f.secondList, t.second) == |f.secondList|;
    r := EmptyNextMinute(f, t, days);
  }
}
