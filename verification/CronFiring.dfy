/** How a cron job's ticker follows its schedule: each handled tick re-arms it at `Next(now)`. */
module CronFiring {
  import opened CronSpec
  import opened CronNext
  import opened Calendar

  /** `Next` does not change between an instant and the one it names. */
  lemma NextIsConstant(f: Fields, s: Time, t: Time, r: Time)
    requires s.Valid() && t.Valid() && IsNext(f, s, r) && r != ZERO
    requires s.Nanos() <= t.Nanos() < r.Nanos()
    ensures IsNext(f, t, r)
  {
  }

  /** An expression whose days lie past the end of all its months, such as 30 February, never fires: its next instant
      is the zero time from wherever one asks. */
  lemma NoSuchDay(f: Fields, t: Time)
    requires t.Valid() && f.daysOfMonthRestricted && !f.daysOfWeekRestricted
    requires !f.lastDayOfMonth && !f.lastWorkdayOfMonth && f.workdaysOfMonth == {}
    requires forall d, m :: d in f.daysOfMonth && m in f.monthList && 1 <= m <= 12 ==> d > DaysIn(4, m)
    ensures IsNext(f, t, ZERO)
  {
    forall u ensures !Fires(f, u) {
      if 1 <= u.month <= 12 { LeapYearIsLongest(u.year, u.month); }
    }
  }

  lemma LeapYearIsLongest(y: int, m: int)
    requires 1 <= m <= 12
    ensures DaysIn(y, m) <= DaysIn(4, m)
  {
  }

  lemma SameInstant(a: Time, b: Time)
    requires a.Valid() && b.Valid() && a.Nanos() == b.Nanos()
    ensures a == b
  {
    SecondsOrder(a, b);
    SecondsOrder(b, a);
  }

  /** There is only one next instant. */
  lemma NextIsUnique(f: Fields, t: Time, r: Time, q: Time)
    requires t.Valid() && IsNext(f, t, r) && IsNext(f, t, q)
    ensures r == q
  {
    if r != ZERO && q != ZERO { SameInstant(r, q); }
  }

  /** A tick armed at one instant was taken up at another, which re-armed the ticker. */
  ghost predicate Rearmed(f: Fields, armed: Time, handled: Time, next: Time) {
    && Fires(f, armed) && handled.Valid() && armed.Nanos() <= handled.Nanos()
    && next != ZERO && IsNext(f, handled, next)
  }

  /** A run of one job: armed[i] is where the ticker stands, handled[i] when its tick was taken up. */
  ghost predicate ArmedRun(f: Fields, armed: seq<Time>, handled: seq<Time>) {
    && |armed| == |handled| + 1
    && (forall i :: 0 <= i < |armed| ==> Fires(f, armed[i]))
    && forall i {:trigger handled[i]} :: 0 <= i < |handled| ==> Rearmed(f, armed[i], handled[i], armed[i + 1])
  }

  lemma MovesForward(f: Fields, armed: Time, handled: Time, next: Time)
    requires Rearmed(f, armed, handled, next)
    ensures Fires(f, next) && armed.Nanos() < next.Nanos()
  {
  }

  /** No instant is armed twice: the armed instants only move forward. */
  lemma {:induction false} ArmedIncreases(f: Fields, armed: seq<Time>, handled: seq<Time>, i: nat, j: nat)
    requires ArmedRun(f, armed, handled) && i < j < |armed|
    ensures armed[i].Nanos() < armed[j].Nanos()
    decreases j
  {
    hide Rearmed, Time.Seconds;
    assert Rearmed(f, armed[j - 1], handled[j - 1], armed[j]);
    MovesForward(f, armed[j - 1], handled[j - 1], armed[j]);
    if i < j - 1 { ArmedIncreases(f, armed, handled, i, j - 1); }
  }

  /** Tick i is handled before the schedule's following instant. */
  ghost predicate OnTime(f: Fields, armed: Time, handled: Time)
    requires armed.Valid() && handled.Valid()
  {
    forall u :: Fires(f, u) && armed.Nanos() < u.Nanos() ==> handled.Nanos() < u.Nanos()
  }

  /** Re-arming skips an instant exactly when the tick was handled late. */
  lemma SkipsIffLate(f: Fields, armed: seq<Time>, handled: seq<Time>, i: nat)
    requires ArmedRun(f, armed, handled) && i < |handled|
    ensures OnTime(f, armed[i], handled[i]) <==>
      forall u :: Fires(f, u) && armed[i].Nanos() < u.Nanos() ==> armed[i + 1].Nanos() <= u.Nanos()
  {
    assert Rearmed(f, armed[i], handled[i], armed[i + 1]);
  }

  lemma NotSkipped(f: Fields, armed: Time, handled: Time, next: Time, u: Time)
    requires Rearmed(f, armed, handled, next) && OnTime(f, armed, handled)
    requires Fires(f, u) && u.Nanos() < next.Nanos()
    ensures u.Nanos() <= armed.Nanos()
  {
  }

  ghost predicate AllOnTime(f: Fields, armed: seq<Time>, handled: seq<Time>)
    requires ArmedRun(f, armed, handled)
  {
    forall i {:trigger handled[i]} :: 0 <= i < |handled| ==>
      Rearmed(f, armed[i], handled[i], armed[i + 1]) && OnTime(f, armed[i], handled[i])
  }

  /** With every tick on time the armed instants are all the schedule's instants in their span. */
  lemma {:induction false} NoneSkipped(f: Fields, armed: seq<Time>, handled: seq<Time>, n: nat, u: Time) returns (i: nat)
    requires ArmedRun(f, armed, handled) && AllOnTime(f, armed, handled) && n < |armed| && Fires(f, u)
    requires armed[0].Nanos() <= u.Nanos() <= armed[n].Nanos()
    ensures i <= n && armed[i] == u
    decreases n
  {
    hide Time.Seconds, IsNext;
    if n == 0 || armed[n].Nanos() == u.Nanos() {
      SameInstant(armed[n], u);
      i := n;
    } else {
      NotSkipped(f, armed[n - 1], handled[n - 1], armed[n], u);
      i := NoneSkipped(f, armed, handled, n - 1, u);
    }
  }

  // ---- The end of a schedule ----

  /** The tick of a schedule's last instant finds no next one, however promptly it is handled. */
  lemma LastTick(f: Fields, armed: Time, handled: Time)
    requires Fires(f, armed) && IsNext(f, armed, ZERO) && handled.Valid() && armed.Nanos() <= handled.Nanos()
    ensures IsNext(f, handled, ZERO)
  {
    hide Time.Seconds;
  }

  /** Every schedule ends: years are listed up to 2099, so from 2100 on no ticker can be re-armed. */
  lemma EveryScheduleEnds(f: Fields, t: Time)
    requires f.WellFormed() && t.Valid() && t.year > 2099
    ensures IsNext(f, t, ZERO)
  {
    hide Time.Seconds;
    forall u | Fires(f, u) ensures u.Nanos() <= t.Nanos() {
      assert YearAfter(t, u);
      SecondsOrder(u, t);
    }
  }

  lemma WholeSecondLater(f: Fields, armed: Time, handled: Time, next: Time)
    requires Rearmed(f, armed, handled, next)
    ensures next.Nanos() >= armed.Nanos() + 1_000_000_000
  {
    hide Time.Seconds;
    MovesForward(f, armed, handled, next);
  }

  /** Each re-arming moves on by a second at least. */
  lemma {:induction false} SecondsApart(f: Fields, armed: seq<Time>, handled: seq<Time>, n: nat)
    requires ArmedRun(f, armed, handled) && n < |armed|
    ensures armed[n].Nanos() >= armed[0].Nanos() + n * 1_000_000_000
  {
    hide Rearmed, Time.Nanos;
    if n > 0 {
      SecondsApart(f, armed, handled, n - 1);
      assert Rearmed(f, armed[n - 1], handled[n - 1], armed[n - 1 + 1]);
      WholeSecondLater(f, armed[n - 1], handled[n - 1], armed[n]);
    }
  }

  const END := Time(2100, 1, 1, 0, 0, 0, 0)

  /** So a ticker is re-armed only finitely often: fewer times than there are seconds left to 2100. */
  lemma FinitelyManyTicks(f: Fields, armed: seq<Time>, handled: seq<Time>)
    requires f.WellFormed() && ArmedRun(f, armed, handled)
    ensures armed[0].Nanos() + |handled| * 1_000_000_000 < END.Nanos()
  {
    var last := armed[|handled|];
    SecondsApart(f, armed, handled, |handled|);
    assert last.year in f.yearList && YearAfter(END, last);
    SecondsOrder(END, last);
    hide Time.Seconds, Rearmed;
  }

  /** The ticker of a scheduled job. */
  class ScheduledJob {
    const schedule: Expression
    var fireAt: int

    constructor (schedule: Expression)
      ensures this.schedule == schedule
    {
      this.schedule := schedule;
      fireAt := 0;
    }

    /** `registerNextInterval`: a new ticker runs for `NextInterval(now)`. `NewTicker` panics on a duration
        that is not positive, which happens exactly when the schedule is over. */
    method Rearm(now: Time) returns (panicked: bool)
      requires schedule.f.WellFormed() && now.Valid() && now.year >= 1970
      modifies this, schedule`actualDaysOfMonthList
      ensures panicked <==> IsNext(schedule.f, now, ZERO)
      ensures !panicked ==> exists r: Time :: r.Valid() && r != ZERO && IsNext(schedule.f, now, r) && fireAt == r.Nanos()
      ensures panicked ==> fireAt == old(fireAt)
    {
      LaterThanZero(now);
      OverIff(schedule.f, now);
      hide Fires, IsNext, Time.Nanos, Time.Seconds;
      var d := schedule.NextInterval(now);
      panicked := d <= 0;
      if !panicked {
        fireAt := now.Nanos() + d;
      }
    }
  }
}
