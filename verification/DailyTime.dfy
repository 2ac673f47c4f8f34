/** `HH:mm:ss@repeat` jobs: the first delay and the instants the ticker then follows. */
module DailyTime {
  import opened Calendar
  import opened CronSpec

  const SECOND_NS := 1_000_000_000
  const ONE_DAY := 24 * 3600 * SECOND_NS

  datatype Repeat = Unstated | Daily | Weekly | Monthly | Yearly | Every(duration: int) | Unknown

  datatype Delays = Delays(first: int, next: int) | Invalid

  function SinceMidnight(hour: int, min: int, sec: int): int {
    ((hour * 60 + min) * 60 + sec) * SECOND_NS
  }

  function RepeatDuration(r: Repeat): int
    requires !r.Unknown?
  {
    match r
    case Unstated => ONE_DAY
    case Daily => ONE_DAY
    case Weekly => 7 * ONE_DAY
    case Monthly => 30 * ONE_DAY
    case Yearly => 12 * (30 * ONE_DAY)
    case Every(d) => d
  }

  /** `ParseDurationExpression` after the numbers are read: the first delay is positive, at most a day,
      and ends exactly at the given time of day. */
  method ParseDurationExpression(now: Time, hour: int, min: int, sec: int, repeat: Repeat) returns (d: Delays)
    requires now.Valid()
    ensures d.Delays? <==> 0 <= hour < 24 && 0 <= min < 60 && 0 <= sec < 60 && !repeat.Unknown?
    ensures d.Delays? ==> 0 < d.first <= 86_400_000_000_000
    ensures d.Delays? ==>
      var at := ((hour * 60 + min) * 60 + sec) * 1_000_000_000;
      && (now.Nanos() + d.first) % 86_400_000_000_000 == at
      && (d.first == 86_400_000_000_000 <==> now.Nanos() % 86_400_000_000_000 == at)
    ensures d.Delays? && (repeat.Unstated? || repeat.Daily?) ==> d.next == 86_400_000_000_000
    ensures d.Delays? && repeat.Weekly? ==> d.next == 7 * 86_400_000_000_000
    ensures d.Delays? && repeat.Monthly? ==> d.next == 30 * 86_400_000_000_000
    ensures d.Delays? && repeat.Yearly? ==> d.next == 360 * 86_400_000_000_000
    ensures d.Delays? && repeat.Every? ==> d.next == repeat.duration
  {
    if hour < 0 || hour > 23 || min < 0 || min > 59 || sec < 0 || sec > 59 {
      return Invalid;
    }
    if repeat.Unknown? {
      return Invalid;
    }
    var at := Time(now.year, now.month, now.day, hour, min, sec, 0);
    var duration;
    if now.Nanos() < at.Nanos() {
      duration := at.Nanos() - now.Nanos();
    } else {
      duration := ONE_DAY - (now.Nanos() - at.Nanos());
    }
    if duration < 0 {
      duration := duration * -1;
    }
    TimeOfDay(now);
    TimeOfDay(at);
    WholeDay(at.Nanos());
    d := Delays(duration, RepeatDuration(repeat));
  }

  /** The clock fields are the instant's remainder within its day. */
  lemma TimeOfDay(t: Time)
    requires t.Valid()
    ensures t.Nanos() % ONE_DAY == SinceMidnight(t.hour, t.minute, t.second) + t.nano
    ensures t.Nanos() - t.Nanos() % ONE_DAY == DayNumber(Date(t.year, t.month, t.day)) * ONE_DAY
  {
    var n := DayNumber(Date(t.year, t.month, t.day));
    assert t.Nanos() == n * ONE_DAY + (SinceMidnight(t.hour, t.minute, t.second) + t.nano);
    Remainder(n, SinceMidnight(t.hour, t.minute, t.second) + t.nano);
  }

  lemma Remainder(n: int, x: int)
    requires 0 <= x < ONE_DAY
    ensures (n * ONE_DAY + x) % ONE_DAY == x
  {
  }

  lemma WholeDay(x: int)
    ensures (x + ONE_DAY) % ONE_DAY == x % ONE_DAY
  {
  }

  // ---- The ticker of such a job ----

  /** A Go ticker started at `start` with its `period`, after `ticks` ticks. */
  datatype Ticker = Ticker(start: int, period: int, ticks: nat) {
    function Due(): int { start + (ticks + 1) * period }
  }

  datatype Job = Job(ticker: Ticker, nextDuration: int)

  /** `addJob`: the first ticker runs for the first delay; a repeat that is not positive is not kept. */
  function AddJob(now: int, first: int, next: int): Job {
    Job(Ticker(now, first, 0), if next > 0 then next else 0)
  }

  /** `registerNextInterval` of a job without a schedule: the repeat replaces the ticker once. */
  function HandleTick(j: Job, now: int): Job {
    if j.nextDuration > 0 then Job(Ticker(now, j.nextDuration, 0), 0)
    else Job(j.ticker.(ticks := j.ticker.ticks + 1), 0)
  }

  /** The job after n ticks, each handled at the moment it is due. */
  function AfterTicks(j: Job, n: nat): Job
    decreases n
  {
    if n == 0 then j else var k := AfterTicks(j, n - 1); HandleTick(k, k.ticker.Due())
  }

  /** Handled on time, run n comes n repeats after the first; without a repeat, n first delays after it. */
  lemma {:induction false} FiresEveryRepeat(now: int, first: int, next: int, n: nat)
    ensures AfterTicks(AddJob(now, first, next), n).ticker.Due() ==
            now + first + n * (if next > 0 then next else first)
    ensures AfterTicks(AddJob(now, first, next), n) ==
            if next <= 0 then Job(Ticker(now, first, n), 0)
            else if n == 0 then AddJob(now, first, next)
            else Job(Ticker(now + first, next, n - 1), 0)
  {
    if n > 0 { FiresEveryRepeat(now, first, next, n - 1); }
  }

  /** A daily repeat keeps landing on the same time of day. */
  lemma {:induction false} DailyKeepsTime(at: int, n: nat)
    ensures (at + n * ONE_DAY) % ONE_DAY == at % ONE_DAY
  {
    if n > 0 {
      DailyKeepsTime(at, n - 1);
      assert at + n * ONE_DAY == at + (n - 1) * ONE_DAY + ONE_DAY;
      WholeDay(at + (n - 1) * ONE_DAY);
    }
  }
}
