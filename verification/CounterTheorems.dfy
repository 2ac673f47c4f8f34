/** The status counters: which steps keep them equal to the number of stored jobs, and which do not. */
module CounterTheorems {
  import opened JobModel
  import opened JobSteps

  /** Each registered task's five counters are the numbers of its stored jobs. */
  ghost predicate Exact(s: State) {
    forall t, st :: t in s.tasks && st != Hold ==> SummaryOf(s, t).Get(st) == Count(s.jobs, t, st)
  }

  /** The worker's copy and the stored row are the same job. */
  predicate SameJob(a: Job, b: Job) {
    a.task == b.task && a.maxRetry == b.maxRetry && a.cron == b.cron
  }

  predicate InQueue(s: State, t: TaskName, id: JobId) {
    id in QueueOf(s, t)
  }

  ghost predicate QueueSound(s: State) {
    forall t: TaskName, id: JobId :: InQueue(s, t, id) ==> id < s.nextId && (id in s.jobs ==> s.jobs[id].task == t)
  }

  ghost predicate ExecSound(s: State) {
    forall t :: t in s.exec ==>
      && s.exec[t].id < s.nextId && s.exec[t].job.task == t
      && (s.exec[t].id in s.jobs ==> SameJob(s.jobs[s.exec[t].id], s.exec[t].job))
  }

  /** Ids are never reused, and queues and executions only name jobs of their own task. */
  ghost predicate WellFormed(s: State) {
    (forall id :: id in s.jobs ==> id < s.nextId) && QueueSound(s) && ExecSound(s)
  }

  /** An update of one task's rows together with an increment keeps the counters exact exactly when the
      increment is the change in the counts. */
  lemma ExactIff(s: State, r: State, t: TaskName, incr: Increments)
    requires Exact(s) && r.tasks == s.tasks && r.summary == s.summary[t := Increment(SummaryOf(s, t), incr)]
    requires forall u, st :: u != t ==> Change(s.jobs, r.jobs, u, st) == 0
    ensures t in s.tasks ==> (Exact(r) <==> forall st :: st != Hold ==> Delta(incr, st) == Change(s.jobs, r.jobs, t, st))
    ensures t !in s.tasks ==> Exact(r)
  {
    forall u, st | u in s.tasks && st != Hold
      ensures SummaryOf(r, u).Get(st) - Count(r.jobs, u, st) ==
              if u == t then Delta(incr, st) - Change(s.jobs, r.jobs, t, st) else 0
    {
      assert SummaryOf(s, u).Get(st) == Count(s.jobs, u, st);
      assert Change(s.jobs, r.jobs, u, st) == Count(r.jobs, u, st) - Count(s.jobs, u, st);
      IncrementGet(SummaryOf(s, t), incr, st);
    }
    if t in s.tasks && Exact(r) {
      forall st | st != Hold ensures Delta(incr, st) == Change(s.jobs, r.jobs, t, st) {
        assert SummaryOf(r, t).Get(st) == Count(r.jobs, t, st);
      }
    }
  }

  lemma IncrementGet(c: Counters, incr: Increments, st: Status)
    requires st != Hold
    ensures Increment(c, incr).Get(st) == c.Get(st) + Delta(incr, st)
  {
  }

  /** Which calls are safe for the counters. */
  ghost predicate Safe(s: State, step: Step) {
    match step
    case RetryStep(id) => id in s.jobs && s.jobs[id].task in s.tasks ==> s.jobs[id].status != Queueing
    case StopStep(id) => id in s.jobs && s.jobs[id].task in s.tasks ==> s.jobs[id].status != Stopped
    case FinishStep(t, outcome, del) =>
      t in s.exec && t in s.tasks && !outcome.Cancelled? ==>
        var Execution(id, job, _) := s.exec[t];
        if del && FinalStatus(job, outcome) == Success then id in s.jobs && s.jobs[id].status == Retrying
        else id in s.jobs ==> s.jobs[id].status == Retrying
    case _ => true
  }

  // ---- One row ----

  /** One row changes status under a task's increment. */
  lemma RowExactIff(s: State, r: State, id: JobId, b: Status, incr: Increments)
    requires Exact(s) && id in s.jobs && Restated(s.jobs, r.jobs, {id}, b)
    requires var t := s.jobs[id].task; t in s.tasks && r.tasks == s.tasks && r.summary == s.summary[t := Increment(SummaryOf(s, t), incr)]
    ensures Exact(r) <==> forall st :: st != Hold ==>
      Delta(incr, st) == (if st == b then 1 else 0) - (if st == s.jobs[id].status then 1 else 0)
  {
    var t, a := s.jobs[id].task, s.jobs[id].status;
    forall u, st ensures Change(s.jobs, r.jobs, u, st) ==
      (if u == t && st == b then 1 else 0) - (if u == t && st == a then 1 else 0)
    {
      MovedCounts(s.jobs, r.jobs, {id}, t, a, b, u, st);
    }
    ExactIff(s, r, t, incr);
  }

  lemma RowOfOtherTask(s: State, r: State, id: JobId, b: Status, incr: Increments)
    requires Exact(s) && id in s.jobs && Restated(s.jobs, r.jobs, {id}, b)
    requires var t := s.jobs[id].task; t !in s.tasks && r.tasks == s.tasks && r.summary == s.summary[t := Increment(SummaryOf(s, t), incr)]
    ensures Exact(r)
  {
    var t, a := s.jobs[id].task, s.jobs[id].status;
    forall u, st | u != t ensures Change(s.jobs, r.jobs, u, st) == 0 {
      MovedCounts(s.jobs, r.jobs, {id}, t, a, b, u, st);
    }
    ExactIff(s, r, t, incr);
  }

  lemma RetryRow(s: State, id: JobId)
    requires id in s.jobs
    ensures
      var r, t := Retry(s, id), s.jobs[id].task;
      && r.tasks == s.tasks && Restated(s.jobs, r.jobs, {id}, Queueing)
      && r.summary == s.summary[t := Increment(SummaryOf(s, t), map[Upper(s.jobs[id].status) := -1][Upper(Queueing) := 1])]
  {
    hide Increment, Restated;
    var r, job := Retry(s, id), s.jobs[id];
    assert r.jobs == s.jobs[id := job.(status := Queueing, retries := if job.retries >= job.maxRetry then 0 else job.retries)];
    hide Retry;
    RewrittenRow(s.jobs, r.jobs, id, Queueing);
  }

  lemma RewrittenRow(before: Table, after: Table, id: JobId, st: Status)
    requires id in before && id in after && after == before[id := after[id]] && SameJob(before[id], after[id]) && after[id].status == st
    ensures Restated(before, after, {id}, st)
  {
  }

  lemma StopRow(s: State, id: JobId)
    requires id in s.jobs
    ensures
      var r, t := Stop(s, id), s.jobs[id].task;
      && r.tasks == s.tasks && Restated(s.jobs, r.jobs, {id}, Stopped)
      && r.summary == s.summary[t := Increment(SummaryOf(s, t), map[Upper(Stopped) := 1][Upper(s.jobs[id].status) := -1])]
  {
    hide Increment;
  }

  /** What the increments of a manual retry and of a stop amount to: the map literal has one key fewer when both keys are
      the same status. */
  lemma RetryDelta(a: Status)
    ensures
      var incr: Increments := map[Upper(a) := -1][Upper(Queueing) := 1];
      (forall st :: st != Hold ==> Delta(incr, st) == (if st == Queueing then 1 else 0) - (if st == a then 1 else 0)) <==> a != Queueing
  {
    assert Delta(map[Upper(a) := -1][Upper(Queueing) := 1], Queueing) == 1;
  }

  lemma StopDelta(a: Status)
    ensures
      var incr: Increments := map[Upper(Stopped) := 1][Upper(a) := -1];
      (forall st :: st != Hold ==> Delta(incr, st) == (if st == Stopped then 1 else 0) - (if st == a then 1 else 0)) <==> a != Stopped
  {
    assert Delta(map[Upper(Stopped) := 1][Upper(a) := -1], a) == -1;
  }

  /** A manual retry keeps the counters exact exactly when the job is not queueing already. */
  lemma RetryExactIff(s: State, id: JobId)
    requires Exact(s)
    ensures Exact(Retry(s, id)) <==> Safe(s, RetryStep(id))
  {
    if id in s.jobs {
      hide Retry, Exact, Restated, Increment, Delta;
      RetryRow(s, id);
      var job := s.jobs[id];
      var incr: Increments := map[Upper(job.status) := -1][Upper(Queueing) := 1];
      if job.task in s.tasks {
        RowExactIff(s, Retry(s, id), id, Queueing, incr);
        RetryDelta(job.status);
      } else {
        RowOfOtherTask(s, Retry(s, id), id, Queueing, incr);
      }
    }
  }

  /** A stop keeps the counters exact exactly when the job is not stopped already. */
  lemma StopExactIff(s: State, id: JobId)
    requires Exact(s)
    ensures Exact(Stop(s, id)) <==> Safe(s, StopStep(id))
  {
    if id in s.jobs {
      hide Stop, Exact, Restated, Increment, Delta;
      StopRow(s, id);
      var job := s.jobs[id];
      var incr: Increments := map[Upper(Stopped) := 1][Upper(job.status) := -1];
      if job.task in s.tasks {
        RowExactIff(s, Stop(s, id), id, Stopped, incr);
        StopDelta(job.status);
      } else {
        RowOfOtherTask(s, Stop(s, id), id, Stopped, incr);
      }
    }
  }

  // ---- The end of an execution ----

  /** The rows and counters after a handler's answer has been written back. */
  ghost predicate WrittenBack(s: State, r: State, t: TaskName, id: JobId, jobs: Table, incr: Increments) {
    r.tasks == s.tasks && r.jobs == jobs && r.summary == s.summary[t := Increment(SummaryOf(s, t), incr)]
  }

  lemma DeletedExactIff(s: State, r: State, t: TaskName, id: JobId, incr: Increments)
    requires Exact(s) && t in s.tasks && (id in s.jobs ==> s.jobs[id].task == t)
    requires WrittenBack(s, r, t, id, s.jobs - {id}, incr)
    ensures Exact(r) <==> forall st :: st != Hold ==> Delta(incr, st) == if id in s.jobs && st == s.jobs[id].status then -1 else 0
  {
    forall u, st ensures Change(s.jobs, r.jobs, u, st) == if u == t && id in s.jobs && st == s.jobs[id].status then -1 else 0 {
      if id in s.jobs {
        RemovedCounts(s.jobs, {id}, t, s.jobs[id].status, u, st);
      } else {
        assert s.jobs - {id} == s.jobs;
      }
    }
    ExactIff(s, r, t, incr);
  }

  lemma OtherTaskExact(s: State, r: State, t: TaskName, id: JobId, jobs: Table, incr: Increments)
    requires Exact(s) && t !in s.tasks && WrittenBack(s, r, t, id, jobs, incr)
    requires forall u, st :: u != t ==> Change(s.jobs, jobs, u, st) == 0
    ensures Exact(r)
  {
    ExactIff(s, r, t, incr);
  }

  lemma FinishDeletes(s: State, t: TaskName, outcome: Outcome)
    requires t in s.exec && s.exec[t].job.task == t && !outcome.Cancelled? && FinalStatus(s.exec[t].job, outcome) == Success
    ensures WrittenBack(s, Finish(s, t, outcome, true), t, s.exec[t].id, s.jobs - {s.exec[t].id}, map[Lower(Retrying) := -1])
  {
  }

  function Rewritten(jobs: Table, id: JobId, st: Status, retries: int): Table {
    if id in jobs then jobs[id := jobs[id].(status := st, retries := retries)] else jobs
  }

  lemma FinishWrites(s: State, t: TaskName, outcome: Outcome, del: bool)
    requires t in s.exec && s.exec[t].job.task == t && !outcome.Cancelled?
    requires !(del && FinalStatus(s.exec[t].job, outcome) == Success)
    ensures
      var Execution(id, job, _) := s.exec[t];
      var st, found := FinalStatus(job, outcome), if id in s.jobs then 1 else 0;
      WrittenBack(s, Finish(s, t, outcome, del), t, id, Rewritten(s.jobs, id, st, job.retries),
                  map[Upper(st) := found, Lower(Retrying) := -found])
  {
  }

  lemma FinishCancelled(s: State, t: TaskName, del: bool)
    ensures var r := Finish(s, t, Cancelled, del); r.tasks == s.tasks && r.jobs == s.jobs && r.summary == s.summary
  {
  }

  lemma SameCounters(s: State, r: State)
    requires Exact(s) && r.tasks == s.tasks && r.jobs == s.jobs && r.summary == s.summary
    ensures Exact(r)
  {
    assert forall t :: SummaryOf(r, t) == SummaryOf(s, t);
  }

  lemma FinishedOtherTask(s: State, t: TaskName, id: JobId, jobs: Table, r: State, incr: Increments)
    requires Exact(s) && t !in s.tasks && (id in s.jobs ==> s.jobs[id].task == t) && WrittenBack(s, r, t, id, jobs, incr)
    requires jobs == s.jobs - {id} || exists st, n :: jobs == Rewritten(s.jobs, id, st, n)
    ensures Exact(r)
  {
    forall u, st | u != t ensures Change(s.jobs, jobs, u, st) == 0 {
      assert Where(jobs, u, st) == Where(s.jobs, u, st);
    }
    OtherTaskExact(s, r, t, id, jobs, incr);
  }

  lemma RewrittenExactIff(s: State, r: State, t: TaskName, id: JobId, st: Status, n: int)
    requires Exact(s) && t in s.tasks && id in s.jobs && s.jobs[id].task == t && st != Retrying
    requires WrittenBack(s, r, t, id, Rewritten(s.jobs, id, st, n), map[Upper(st) := 1, Lower(Retrying) := -1])
    ensures Exact(r) <==> s.jobs[id].status == Retrying
  {
    hide Exact, Increment;
    var incr: Increments := map[Upper(st) := 1, Lower(Retrying) := -1];
    RowExactIff(s, r, id, st, incr);
    assert forall x :: Delta(incr, x) == (if x == st then 1 else 0) - (if x == Retrying then 1 else 0);
    assert Delta(incr, Retrying) == -1;
  }

  lemma MissingExact(s: State, r: State, t: TaskName, id: JobId, st: Status)
    requires Exact(s) && id !in s.jobs
    requires WrittenBack(s, r, t, id, s.jobs, map[Upper(st) := 0, Lower(Retrying) := 0])
    ensures Exact(r)
  {
    var incr: Increments := map[Upper(st) := 0, Lower(Retrying) := 0];
    assert forall x :: Delta(incr, x) == 0;
    ExactIff(s, r, t, incr);
  }

  lemma FinishDeletedIff(s: State, t: TaskName, outcome: Outcome)
    requires Exact(s) && ExecSound(s) && t in s.exec && !outcome.Cancelled? && FinalStatus(s.exec[t].job, outcome) == Success
    ensures Exact(Finish(s, t, outcome, true)) <==>
      t !in s.tasks || (s.exec[t].id in s.jobs && s.jobs[s.exec[t].id].status == Retrying)
  {
    hide Finish, Exact, Increment;
    var r, id := Finish(s, t, outcome, true), s.exec[t].id;
    FinishDeletes(s, t, outcome);
    var incr: Increments := map[Lower(Retrying) := -1];
    if t in s.tasks {
      DeletedExactIff(s, r, t, id, incr);
      assert Delta(incr, Retrying) == -1;
    } else {
      FinishedOtherTask(s, t, id, s.jobs - {id}, r, incr);
    }
  }

  lemma FinishWrittenIff(s: State, t: TaskName, outcome: Outcome, del: bool)
    requires Exact(s) && ExecSound(s) && t in s.exec && !outcome.Cancelled?
    requires !(del && FinalStatus(s.exec[t].job, outcome) == Success)
    ensures Exact(Finish(s, t, outcome, del)) <==>
      t !in s.tasks || (s.exec[t].id in s.jobs ==> s.jobs[s.exec[t].id].status == Retrying)
  {
    hide Finish, Exact, Increment;
    var Execution(id, job, _) := s.exec[t];
    var r, st := Finish(s, t, outcome, del), FinalStatus(job, outcome);
    FinishWrites(s, t, outcome, del);
    if id !in s.jobs {
      MissingExact(s, r, t, id, st);
    } else if t in s.tasks {
      RewrittenExactIff(s, r, t, id, st, job.retries);
    } else {
      FinishedOtherTask(s, t, id, Rewritten(s.jobs, id, st, job.retries), r, map[Upper(st) := 1, Lower(Retrying) := -1]);
    }
  }

  /** A finished execution keeps the counters exact exactly when it was cancelled, or its row is still
      RETRYING, or its row is gone and nothing is deleted. */
  lemma FinishExactIff(s: State, t: TaskName, outcome: Outcome, del: bool)
    requires Exact(s) && ExecSound(s)
    ensures Exact(Finish(s, t, outcome, del)) <==> Safe(s, FinishStep(t, outcome, del))
  {
    if t in s.exec {
      hide Finish, Exact;
      if outcome.Cancelled? {
        FinishCancelled(s, t, del);
        SameCounters(s, Finish(s, t, outcome, del));
      } else if del && FinalStatus(s.exec[t].job, outcome) == Success {
        FinishDeletedIff(s, t, outcome);
      } else {
        FinishWrittenIff(s, t, outcome, del);
      }
    }
  }

  // ---- Bulk updates ----

  lemma SetStatusRestates(jobs: Table, ids: set<JobId>, st: Status, reset: bool)
    ensures Restated(jobs, SetStatus(jobs, ids, st, reset), ids, st)
  {
  }

  lemma AddedTwice(incr: Increments, a: Status, b: Status, n: int, x: Status)
    ensures Delta(AddAt(AddAt(incr, Lower(a), -n), Lower(b), n), x) ==
            Delta(incr, x) + (if x == b then n else 0) - (if x == a then n else 0)
  {
  }

  lemma AddedOnce(incr: Increments, a: Status, n: int, x: Status)
    ensures Delta(AddAt(incr, Lower(a), n), x) == Delta(incr, x) + if x == a then n else 0
  {
  }

  /** However the statuses repeat or overlap, the increments add up to the change in the counts. */
  lemma {:induction false} MoveAllCounts(jobs: Table, incr: Increments, t: TaskName, statuses: seq<Status>, within: set<JobId>,
                                         to: Status, reset: bool, u: TaskName, st: Status)
    ensures
      var (after, total) := MoveAll(jobs, incr, t, statuses, within, to, reset);
      Change(jobs, after, u, st) == if u == t then Delta(total, st) - Delta(incr, st) else 0
    decreases |statuses|
  {
    hide Count, Where, Delta, AddAt, SetStatus, Restated;
    if statuses != [] {
      var a := statuses[0];
      var ids := Where(jobs, t, a) * within;
      var next := SetStatus(jobs, ids, to, reset);
      var more := AddAt(AddAt(incr, Lower(a), -|ids|), Lower(to), |ids|);
      SetStatusRestates(jobs, ids, to, reset);
      MovedCounts(jobs, next, ids, t, a, to, u, st);
      AddedTwice(incr, a, to, |ids|, st);
      MoveAllCounts(next, more, t, statuses[1..], within, to, reset, u, st);
    }
  }

  lemma {:induction false} CleanAllCounts(jobs: Table, incr: Increments, t: TaskName, statuses: seq<Status>, within: set<JobId>,
                                          u: TaskName, st: Status)
    ensures
      var (after, total) := CleanAll(jobs, incr, t, statuses, within);
      Change(jobs, after, u, st) == if u == t then Delta(total, st) - Delta(incr, st) else 0
    decreases |statuses|
  {
    hide Count, Where, Delta, AddAt;
    if statuses != [] {
      var a := statuses[0];
      var ids := Where(jobs, t, a) * within;
      RemovedCounts(jobs, ids, t, a, u, st);
      AddedOnce(incr, a, -|ids|, st);
      CleanAllCounts(jobs - ids, AddAt(incr, Lower(a), -|ids|), t, statuses[1..], within, u, st);
    }
  }

  /** An increment that is the change in the counts keeps them exact. */
  lemma TrackedExact(s: State, r: State, t: TaskName, incr: Increments)
    requires Exact(s) && r.tasks == s.tasks && r.summary == s.summary[t := Increment(SummaryOf(s, t), incr)]
    requires forall u, st :: Change(s.jobs, r.jobs, u, st) == if u == t then Delta(incr, st) else 0
    ensures Exact(r)
  {
    hide Exact, Increment, Change;
    ExactIff(s, r, t, incr);
  }

  lemma BulkExact(s: State, t: TaskName, statuses: seq<Status>, within: set<JobId>, to: Status, reset: bool, r: State)
    requires Exact(s) && r.tasks == s.tasks
    requires var (jobs, incr) := MoveAll(s.jobs, map[], t, statuses, within, to, reset);
             r.jobs == jobs && r.summary == s.summary[t := Increment(SummaryOf(s, t), incr)]
    ensures Exact(r)
  {
    hide Exact, Increment, Change;
    var (jobs, incr) := MoveAll(s.jobs, map[], t, statuses, within, to, reset);
    forall u, st ensures Change(s.jobs, r.jobs, u, st) == if u == t then Delta(incr, st) else 0 {
      MoveAllCounts(s.jobs, map[], t, statuses, within, to, reset, u, st);
    }
    TrackedExact(s, r, t, incr);
  }

  lemma StopAllShape(s: State, t: TaskName)
    requires t in s.tasks
    ensures
      var r, moved := StopAll(s, t), MoveAll(s.jobs, map[], t, [Queueing, Retrying], s.jobs.Keys, Stopped, false);
      && r.tasks == s.tasks && r.jobs == moved.0 && r.summary == s.summary[t := Increment(SummaryOf(s, t), moved.1)]
      && r.holding == s.holding - {t} && QueueOf(r, t) == []
  {
    hide Increment, MoveAll;
  }

  lemma StopAllExact(s: State, t: TaskName)
    requires Exact(s)
    ensures Exact(StopAll(s, t))
  {
    if t in s.tasks {
      hide Exact, Increment, MoveAll, StopAll;
      StopAllShape(s, t);
      BulkExact(s, t, [Queueing, Retrying], s.jobs.Keys, Stopped, false, StopAll(s, t));
    }
  }

  /** The updates of a bulk retry or of a release keep the counters exact, wherever the pushed ids are by then. */
  lemma MoveExact(s: State, t: TaskName, statuses: seq<Status>, within: set<JobId>)
    requires Exact(s)
    ensures Exact(Move(s, t, statuses, within))
  {
    hide Exact, Increment, MoveAll;
    BulkExact(s, t, statuses, within, Queueing, true, Move(s, t, statuses, within));
  }

  lemma CleanExact(s: State, t: TaskName, asked: seq<Status>, within: set<JobId>)
    requires Exact(s)
    ensures Exact(Clean(s, t, asked, within))
  {
    hide Exact, Increment, Change;
    var r := Clean(s, t, asked, within);
    var (jobs, incr) := CleanAll(s.jobs, map[], t, asked, within);
    forall u, st ensures Change(s.jobs, r.jobs, u, st) == if u == t then Delta(incr, st) else 0 {
      CleanAllCounts(s.jobs, map[], t, asked, within, u, st);
    }
    TrackedExact(s, r, t, incr);
  }

  lemma DeleteExact(s: State, id: JobId)
    requires Exact(s)
    ensures Exact(Delete(s, id))
  {
    if id in s.jobs {
      hide Exact, Increment, Change;
      var r, t, a := Delete(s, id), s.jobs[id].task, s.jobs[id].status;
      var incr: Increments := map[Upper(a) := -1];
      forall u, st ensures Change(s.jobs, r.jobs, u, st) == if u == t then Delta(incr, st) else 0 {
        RemovedCounts(s.jobs, {id}, t, a, u, st);
      }
      TrackedExact(s, r, t, incr);
    }
  }

  lemma AddShape(s: State, t: TaskName, maxRetry: int, interval: int, cron: bool, created: int)
    ensures
      var r := AddJob(s, t, maxRetry, interval, cron, created);
      r == s || (t in s.tasks && (cron || maxRetry > 0) && r == Added(s, t, maxRetry, cron, created))
  {
  }

  lemma AddExact(s: State, t: TaskName, maxRetry: int, interval: int, cron: bool, created: int)
    requires Exact(s) && WellFormed(s)
    ensures Exact(AddJob(s, t, maxRetry, interval, cron, created))
  {
    hide Exact, Increment, Change, AddJob;
    var r, status := AddJob(s, t, maxRetry, interval, cron, created), if t in s.holding then Hold else Queueing;
    AddShape(s, t, maxRetry, interval, cron, created);
    if r != s {
      var incr: Increments := map[Lower(status) := 1];
      assert s.nextId !in s.jobs;
      forall u, st ensures Change(s.jobs, r.jobs, u, st) == if u == t then Delta(incr, st) else 0 {
        InsertedCounts(s.jobs, s.nextId, Job(t, status, 0, maxRetry, cron, created), u, st);
      }
      TrackedExact(s, r, t, incr);
    }
  }

  lemma BeginRow(s: State, t: TaskName, hasHandler: bool)
    requires Runnable(s, t)
    ensures
      var r, id := Begin(s, t, hasHandler), QueueOf(s, t)[0];
      && r.tasks == s.tasks && Restated(s.jobs, r.jobs, {id}, Retrying)
      && r.summary == s.summary[s.jobs[id].task :=
           Increment(SummaryOf(s, s.jobs[id].task), map[Upper(Retrying) := 1, Lower(Queueing) := -1])]
  {
    hide Increment;
  }

  lemma BeginIdle(s: State, t: TaskName, hasHandler: bool)
    requires !Runnable(s, t)
    ensures var r := Begin(s, t, hasHandler); r.tasks == s.tasks && r.jobs == s.jobs && r.summary == s.summary
  {
    hide Increment;
  }

  /** Past its own part a start only arms the next job. */
  lemma StartKeepsRows(s: State, t: TaskName, hasHandler: bool)
    ensures
      var r, m := Start(s, t, hasHandler), Begin(s, t, hasHandler);
      r.tasks == m.tasks && r.jobs == m.jobs && r.summary == m.summary
  {
    hide Begin;
  }

  lemma StartExact(s: State, t: TaskName, hasHandler: bool)
    requires Exact(s)
    ensures Exact(Start(s, t, hasHandler))
  {
    hide Exact, Increment, Change, Start, Begin;
    var r := Start(s, t, hasHandler);
    StartKeepsRows(s, t, hasHandler);
    if !Runnable(s, t) {
      BeginIdle(s, t, hasHandler);
      SameCounters(s, r);
    } else {
      BeginRow(s, t, hasHandler);
      var id := QueueOf(s, t)[0];
      var incr: Increments := map[Upper(Retrying) := 1, Lower(Queueing) := -1];
      forall u, st ensures Change(s.jobs, r.jobs, u, st) == if u == s.jobs[id].task then Delta(incr, st) else 0 {
        MovedCounts(s.jobs, r.jobs, {id}, s.jobs[id].task, Queueing, Retrying, u, st);
      }
      TrackedExact(s, r, s.jobs[id].task, incr);
    }
  }

  /** `RecalculateSummary` makes the counters exact whatever they were. */
  lemma RecalculateRestores(s: State)
    ensures Exact(Recalculate(s))
  {
    var r := Recalculate(s);
    forall t, st | t in r.tasks && st != Hold ensures SummaryOf(r, t).Get(st) == Count(r.jobs, t, st) {
      assert r.summary[t] == CountersOf(s.jobs, t);
    }
  }

  /** Recovery makes the recovered task's counters exact whatever they were. */
  lemma RecoverRestores(s: State, t: TaskName, locked: set<JobId>, st: Status)
    requires t in s.tasks && st != Hold
    ensures SummaryOf(Recover(s, t, locked), t).Get(st) == Count(Recover(s, t, locked).jobs, t, st)
  {
    hide RegisterNext;
  }

  lemma RecoverRows(s: State, t: TaskName, locked: set<JobId>)
    ensures
      var r := Recover(s, t, locked);
      && (forall u :: u != t ==> SummaryOf(r, u) == SummaryOf(s, u))
      && (r.jobs == s.jobs || Restated(s.jobs, r.jobs, PendingIds(s.jobs, t) - locked, Queueing))
  {
    hide RegisterNext, OldestFirst, CountersOf, Unlocked, Where;
  }

  lemma OtherTaskRows(before: Table, after: Table, moved: set<JobId>, t: TaskName, b: Status, u: TaskName, st: Status)
    requires after == before || Restated(before, after, moved, b)
    requires u != t && forall id :: id in moved ==> id in before && before[id].task == t
    ensures Where(after, u, st) == Where(before, u, st)
  {
  }

  lemma RecoverOthers(s: State, t: TaskName, locked: set<JobId>, u: TaskName, st: Status)
    requires u != t
    ensures SummaryOf(Recover(s, t, locked), u) == SummaryOf(s, u)
    ensures Count(Recover(s, t, locked).jobs, u, st) == Count(s.jobs, u, st)
  {
    RecoverRows(s, t, locked);
    hide Recover, OldestFirst, CountersOf;
    OtherTaskRows(s.jobs, Recover(s, t, locked).jobs, PendingIds(s.jobs, t) - locked, t, Queueing, u, st);
  }

  lemma RecoverExact(s: State, t: TaskName, locked: set<JobId>)
    requires Exact(s)
    ensures Exact(Recover(s, t, locked))
  {
    if t in s.tasks {
      var r := Recover(s, t, locked);
      hide Recover;
      forall u, st | u in s.tasks && st != Hold ensures SummaryOf(r, u).Get(st) == Count(r.jobs, u, st) {
        if u == t { RecoverRestores(s, t, locked, st); } else { RecoverOthers(s, t, locked, u, st); }
      }
      RecoverKeepsTasks(s, t, locked);
    }
  }

  lemma RecoverKeepsTasks(s: State, t: TaskName, locked: set<JobId>)
    ensures Recover(s, t, locked).tasks == s.tasks
  {
  }

  lemma StreamExact(s: State, t: TaskName, statuses: seq<Status>, within: set<JobId>)
    requires Exact(s)
    ensures Exact(Stream(s, t, statuses, within))
  {
    hide OldestFirst, Selected, Exact;
    SameCounters(s, Stream(s, t, statuses, within));
  }

  lemma SwitchHoldExact(s: State, t: TaskName)
    requires Exact(s)
    ensures Exact(SwitchHold(s, t))
  {
    hide OldestFirst, Selected, Exact;
    SameCounters(s, SwitchHold(s, t));
  }

  /** Every step, from every state with exact counters: they stay exact exactly when the step is safe. */
  lemma StepExactIff(s: State, step: Step)
    requires Exact(s) && WellFormed(s)
    ensures Exact(Apply(s, step)) <==> Safe(s, step)
  {
    hide Exact, AddJob, Start, Finish, Retry, Stop, Delete, StopAll, Stream, Move, Clean, SwitchHold, Recalculate, Recover;
    match step
    case AddStep(t, maxRetry, interval, cron, created) => AddExact(s, t, maxRetry, interval, cron, created);
    case StartStep(t, hasHandler) => StartExact(s, t, hasHandler);
    case FinishStep(t, outcome, del) => FinishExactIff(s, t, outcome, del);
    case RetryStep(id) => RetryExactIff(s, id);
    case StopStep(id) => StopExactIff(s, id);
    case DeleteStep(id) => DeleteExact(s, id);
    case StopAllStep(t) => StopAllExact(s, t);
    case StreamStep(t, statuses, within) => StreamExact(s, t, statuses, within);
    case MoveStep(t, statuses, within) => MoveExact(s, t, statuses, within);
    case CleanStep(t, statuses, within) => CleanExact(s, t, statuses, within);
    case HoldStep(t) => SwitchHoldExact(s, t);
    case RecalculateStep => RecalculateRestores(s);
    case RecoverStep(t, locked) => RecoverExact(s, t, locked);
    case BeginLoadStep(t) => SameCounters(s, BeginLoad(s, t));
    case EndLoadStep(t) => SameCounters(s, EndLoad(s, t));
    case ExpireStep(id) => SameCounters(s, Expire(s, id));
    case ClearStep(t) => SameCounters(s, ClearQueue(s, t));
  }
}
