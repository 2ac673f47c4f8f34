/** Concrete calls after which the counters no longer match the table. */
module CounterDrift {
  import opened JobModel
  import opened JobSteps
  import opened CounterTheorems

  /** One task with one job in the given status, and exact counters. */
  function OneJob(st: Status): State {
    State({0}, map[0 := Job(0, st, 0, 3, false, 0)], map[0 := [0]], map[0 := NO_JOBS.Add(st, 1)], map[], map[], {}, {}, {}, 1)
  }

  lemma OneJobExact(st: Status)
    ensures Exact(OneJob(st)) && WellFormed(OneJob(st))
  {
    var s := OneJob(st);
    forall x: Status ensures Count(s.jobs, 0, x) == if x == st then 1 else 0 {
      assert Where(s.jobs, 0, x) == if x == st then {0} else {};
    }
  }

  /** Retrying a queueing job counts it twice. */
  lemma RetryOfQueueingDrifts()
    ensures Exact(OneJob(Queueing)) && !Exact(Retry(OneJob(Queueing), 0))
    ensures SummaryOf(Retry(OneJob(Queueing), 0), 0).queueing == 2
  {
    OneJobExact(Queueing);
    RetryExactIff(OneJob(Queueing), 0);
  }

  /** Stopping a stopped job uncounts it. */
  lemma StopOfStoppedDrifts()
    ensures Exact(OneJob(Stopped)) && !Exact(Stop(OneJob(Stopped), 0))
    ensures SummaryOf(Stop(OneJob(Stopped), 0), 0).stopped == 0
  {
    OneJobExact(Stopped);
    StopExactIff(OneJob(Stopped), 0);
  }

  lemma RetriedRow(s: State, id: JobId)
    requires id in s.jobs && ExecSound(s)
    ensures
      var r := Retry(s, id);
      r.exec == s.exec && r.tasks == s.tasks && id in r.jobs && r.jobs[id].status == Queueing && ExecSound(r)
  {
    hide Increment;
  }

  /** A job retried by hand while its handler runs: the retry itself is safe, every answer of the handler is not. */
  lemma RetryWhileRunningDrifts(s: State, t: TaskName, outcome: Outcome, del: bool)
    requires Exact(s) && ExecSound(s) && t in s.tasks && t in s.exec && !outcome.Cancelled?
    requires s.exec[t].id in s.jobs && s.jobs[s.exec[t].id].status == Retrying
    ensures
      var retried := Retry(s, s.exec[t].id);
      Exact(retried) && !Exact(Finish(retried, t, outcome, del))
  {
    hide Retry, Finish, Exact, ExecSound;
    var id := s.exec[t].id;
    RetriedRow(s, id);
    RetryExactIff(s, id);
    FinishExactIff(Retry(s, id), t, outcome, del);
  }
}
