/** When a stored job can be armed: how long its ticker is to run, from its next running time or its interval. */
module JobInterval {
  import opened CronSpec
  import opened CronNext
  import opened JobModel

  /** What an interval text reads as: a duration that is positive, a cron line, or neither. */
  datatype Rule = Every(nanos: int) | Cron(f: Fields) | Unreadable

  ghost predicate ValidRule(rule: Rule) {
    (rule.Every? ==> rule.nanos > 0) && (rule.Cron? ==> rule.f.WellFormed())
  }

  /** The rule gives a run after now: it repeats, or its schedule has a later instant. */
  ghost predicate RunsAgain(rule: Rule, now: Time)
    requires now.Valid()
  {
    rule.Every? || (rule.Cron? && !IsNext(rule.f, now, ZERO))
  }

  /** The job has a run ahead of it: its next running time is to come, or its rule gives one. */
  ghost predicate Armable(rule: Rule, nextRunningAt: int, now: Time)
    requires now.Valid()
  {
    nextRunningAt > now.Nanos() || RunsAgain(rule, now)
  }

  class PendingJob {
    const rule: Rule
    const schedule: Expression?
    var nextRunningAt: int

    ghost predicate Valid() {
      ValidRule(rule) && (rule.Cron? <==> schedule != null) && (schedule != null ==> schedule.f == rule.f)
    }

    constructor (rule: Rule, nextRunningAt: int)
      requires ValidRule(rule)
      ensures Valid() && this.rule == rule && this.nextRunningAt == nextRunningAt && (schedule != null ==> fresh(schedule))
    {
      this.rule := rule;
      this.nextRunningAt := nextRunningAt;
      if rule.Cron? {
        var e := new Expression(rule.f);
        schedule := e;
      } else {
        schedule := null;
      }
    }

    /** The interval the rule gives, as its second part computes it. */
    method RuleInterval(now: Time) returns (interval: int, ok: bool)
      requires Valid() && now.Valid() && now.year >= 1970
      modifies if schedule != null then {schedule} else {}
      ensures ok <==> !rule.Unreadable?
      ensures ok && interval > 0 <==> RunsAgain(rule, now)
      ensures rule.Every? ==> interval == rule.nanos
      ensures rule.Cron? && interval > 0 ==>
        exists r: Time :: r.Valid() && IsNext(rule.f, now, r) && now.Nanos() + interval == r.Nanos()
    {
      LaterThanZero(now);
      if rule.Cron? { OverIff(rule.f, now); }
      hide Fires, IsNext, Time.Nanos, Time.Seconds, Time.Valid;
      if rule.Every? {
        return rule.nanos, true;
      }
      if rule.Unreadable? {
        return 0, false;
      }
      interval := schedule.NextInterval(now);
      ok := true;
    }

    /** `ParseNextRunningInterval`, which reads the clock up to three times. A job with no run ahead never gets a positive
        interval. One with a run ahead gets one unless that run's time comes up between the first two readings; it then ends
        at the next running time, at the next instant of the schedule, or after the duration. */
    method ParseNextRunningInterval(first: Time, second: Time, third: Time) returns (interval: int, ok: bool)
      requires Valid() && first.Valid() && second.Valid() && third.Valid() && second.year >= 1970
      requires first.Nanos() <= second.Nanos() <= third.Nanos()
      modifies this, if schedule != null then {schedule} else {}
      ensures ok && interval > 0 <==>
        if old(nextRunningAt) > first.Nanos() then old(nextRunningAt) > second.Nanos() else RunsAgain(rule, second)
      ensures old(nextRunningAt) > first.Nanos() ==> second.Nanos() + interval == nextRunningAt == old(nextRunningAt)
      ensures old(nextRunningAt) <= first.Nanos() && ok ==> nextRunningAt == third.Nanos() + interval
      ensures old(nextRunningAt) <= first.Nanos() && rule.Every? ==> interval == rule.nanos
      ensures old(nextRunningAt) <= first.Nanos() && rule.Cron? && interval > 0 ==>
        exists r: Time :: r.Valid() && IsNext(rule.f, second, r) && second.Nanos() + interval == r.Nanos()
    {
      hide RunsAgain, Fires, IsNext, Time.Nanos, Time.Seconds, Time.Valid;
      if nextRunningAt > first.Nanos() {
        return nextRunningAt - second.Nanos(), true;
      }
      interval, ok := RuleInterval(second);
      if ok {
        nextRunningAt := third.Nanos() + interval;
      }
    }
  }

  /** A job without a run ahead never has one again, whatever a failed attempt made of its next running time: the set of
      run-out jobs only grows. */
  lemma RunOutStays(rule: Rule, nextRunningAt: int, now: Time, failed: int, later: Time)
    requires now.Valid() && later.Valid() && now.Nanos() <= later.Nanos() && !Armable(rule, nextRunningAt, now)
    requires failed == nextRunningAt || failed <= later.Nanos()
    ensures !Armable(rule, failed, later)
  {
    hide Time.Nanos;
  }

  /** What decides whether a stored job can be armed. */
  datatype Plan = Plan(rule: Rule, nextRunningAt: int)

  /** The jobs that cannot be: what the task queue's state keeps as `exhausted`. */
  ghost function RunOut(plans: map<JobId, Plan>, now: Time): set<JobId>
    requires now.Valid()
  {
    set id | id in plans && !Armable(plans[id].rule, plans[id].nextRunningAt, now)
  }

  /** As time passes and jobs come, and next running times change only to times gone by, that set only grows. */
  lemma RunOutGrows(plans: map<JobId, Plan>, now: Time, after: map<JobId, Plan>, later: Time)
    requires now.Valid() && later.Valid() && now.Nanos() <= later.Nanos() && plans.Keys <= after.Keys
    requires forall id :: id in plans ==>
      after[id].rule == plans[id].rule &&
      (after[id].nextRunningAt == plans[id].nextRunningAt || after[id].nextRunningAt <= later.Nanos() || id !in RunOut(plans, now))
    ensures RunOut(plans, now) <= RunOut(after, later)
  {
    hide Armable, Time.Nanos;
    forall id | id in RunOut(plans, now) ensures id in RunOut(after, later) {
      RunOutStays(plans[id].rule, plans[id].nextRunningAt, now, after[id].nextRunningAt, later);
    }
  }
}
