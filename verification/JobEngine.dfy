/** The task queue worker itself: an engine whose fields the operations update in place. */
module JobEngine {
  import opened JobModel
  import opened JobSteps
  import opened RunTheorems
  import opened Recovery
  import opened SortedLists

  class Engine {
    const tasks: set<TaskName>
    var jobs: Table
    var queue: map<TaskName, seq<JobId>>
    var summary: map<TaskName, Counters>
    var exec: map<TaskName, Execution>
    var armed: map<TaskName, JobId>
    var holding: set<TaskName>
    var loading: set<TaskName>
    var exhausted: set<JobId>
    var nextId: JobId

    ghost function View(): State
      reads this
    {
      State(tasks, jobs, queue, summary, exec, armed, holding, loading, exhausted, nextId)
    }

    constructor (tasks: set<TaskName>)
      ensures View() == State(tasks, map[], map[], map[], map[], map[], {}, {}, {}, 0)
    {
      this.tasks := tasks;
      jobs, queue, summary, exec, armed := map[], map[], map[], map[], map[];
      holding, loading, exhausted, nextId := {}, {}, {}, 0;
    }

    function Waiting(t: TaskName): seq<JobId>
      reads this
    {
      if t in queue then queue[t] else []
    }

    /** `IncrementSummary`: one counter per entry, in whatever order the map yields them. */
    method IncrementSummary(t: TaskName, incr: Increments)
      modifies this`summary
      ensures View() == AddToSummary(old(View()), t, incr)
    {
      var c := if t in summary then summary[t] else NO_JOBS;
      ghost var before := c;
      var rest := incr.Keys;
      while rest != {}
        invariant rest <= incr.Keys && summary == old(summary)
        invariant c == Increment(before, Without(incr, rest))
      {
        ghost var some := SomeMember(rest);
        var k :| k in rest;
        EntryAdds(before, incr, rest, k);
        c := c.Add(k.status, incr[k]);
        rest := rest - {k};
      }
      assert Without(incr, {}) == incr;
      summary := summary[t := c];
    }

    /** `PushJob` of the queue storage. */
    method PushJob(t: TaskName, id: JobId) returns (n: nat)
      modifies this`queue
      ensures View() == Push(old(View()), t, [id]) && n == |Waiting(t)|
    {
      queue := queue[t := Waiting(t) + [id]];
      n := |Waiting(t)|;
    }

    /** `registerJobToWorker` of a queueing job. */
    method RegisterJobToWorker(t: TaskName, id: JobId)
      modifies this`armed
      ensures View() == Arm(old(View()), t, id)
    {
      if id in exhausted {
        return;
      }
      armed := armed[t := id];
    }

    /** `Clear` of the queue storage. */
    method Clear(t: TaskName)
      modifies this`queue
      ensures View() == ClearQueue(old(View()), t)
    {
      queue := queue[t := []];
    }

    method PushAll(t: TaskName, ids: seq<JobId>)
      modifies this`queue
      ensures View() == Push(old(View()), t, ids)
    {
      ghost var start := Waiting(t);
      queue := queue[t := Waiting(t)];
      assert start + ids[..0] == start;
      for i := 0 to |ids|
        invariant queue == old(queue)[t := start + ids[..i]]
      {
        var n := PushJob(t, ids[i]);
        assert start + ids[..i + 1] == start + ids[..i] + [ids[i]];
      }
      assert ids[..|ids|] == ids;
    }

    /** `StreamAllJob` over one status, pushing every row: page by page, ten rows at a time by default. */
    method StreamIntoQueue(t: TaskName, ids: set<JobId>, limit: nat)
      requires ids <= jobs.Keys && limit > 0
      modifies this`queue
      ensures View() == Push(old(View()), t, OldestFirst(jobs, ids))
    {
      hide TotalPages, Page, Before, OldestFirst;
      var rows := OldestFirst(jobs, ids);
      var count := |ids|;
      var page := 1;
      ghost var before := Waiting(t);
      queue := queue[t := Waiting(t)];
      FirstPage(limit, |rows|);
      assert before + rows[..0] == before;
      while page <= TotalPages(count, limit)
        invariant page > 0 && queue == old(queue)[t := before + rows[..Before(page, limit, |rows|)]]
      {
        NextPage(rows, page, limit);
        ghost var a, b := Before(page, limit, |rows|), Before(page + 1, limit, |rows|);
        assert before + rows[..a] + rows[a..b] == before + rows[..b];
        PushAll(t, Page(rows, page, limit));
        page := page + 1;
      }
      LastPage(page, limit, count);
      assert rows[..|rows|] == rows;
    }

    /** `registerNextJob`. */
    method RegisterNextJob(withStream: bool, t: TaskName)
      modifies this`queue, this`armed
      ensures View() == RegisterNext(old(View()), withStream, t)
      decreases withStream, |Waiting(t)|
    {
      if Waiting(t) != [] {
        var id := Waiting(t)[0];
        if !IsQueueing(jobs, id) {
          queue := queue[t := Waiting(t)[1..]];
          RegisterNextJob(false, t);
          return;
        }
        RegisterJobToWorker(t, id);
      } else if withStream {
        StreamIntoQueue(t, Where(jobs, t, Queueing), 10);
        RegisterNextJob(false, t);
      }
    }

    // ---- Windows ----

    /** `broadcastWhenChangeAllJob` as far as the summary goes: a bulk operation announces itself and reports its end. */
    method ChangeLoading(t: TaskName, isLoading: bool)
      modifies this`loading
      ensures View() == if isLoading then BeginLoad(old(View()), t) else EndLoad(old(View()), t)
    {
      loading := if isLoading then loading + {t} else loading - {t};
    }

    // ---- Jobs ----

    /** The end of `AddJob`: the first job in the queue of an idle task is armed. */
    method PushNew(t: TaskName, id: JobId)
      modifies this`queue, this`armed
      ensures queue == old(queue)[t := old(Waiting(t)) + [id]]
      ensures armed == if old(Waiting(t)) != [] || t in exec || id in exhausted then old(armed) else old(armed)[t := id]
    {
      var n := PushJob(t, id);
      assert n == |old(Waiting(t))| + 1;
      if n <= 1 && t !in exec {
        RegisterJobToWorker(t, id);
      }
    }

    method AddJob(t: TaskName, maxRetry: int, interval: int, cron: bool, created: int)
      modifies this
      ensures View() == JobSteps.AddJob(old(View()), t, maxRetry, interval, cron, created)
    {
      hide Increment;
      if !cron && (maxRetry <= 0 || interval < 0) {
        return;
      }
      if t !in tasks {
        return;
      }
      if cron && exists id :: id in jobs && jobs[id].task == t && jobs[id].maxRetry == 0 && jobs[id].status in {Queueing, Retrying} {
        return;
      }
      assert !Refuses(View(), t, maxRetry, interval, cron);
      hide Refuses;
      var id := nextId;
      var status := if t in holding then Hold else Queueing;
      jobs := jobs[id := Job(t, status, 0, maxRetry, cron, created)];
      nextId := nextId + 1;
      IncrementSummary(t, map[Lower(status) := 1]);
      if t in holding || t in loading {
        return;
      }
      PushNew(t, id);
    }

    /** `triggerTask` and the first half of `execJob`; the semaphore of the task is free. */
    method StartJob(t: TaskName, hasHandler: bool)
      requires t !in exec
      modifies this
      ensures View() == Start(old(View()), t, hasHandler)
    {
      hide RegisterNext, Increment, OldestFirst;
      armed := armed - {t};
      if t in holding {
        return;
      }
      if Waiting(t) == [] {
        RegisterNextJob(true, t);
        return;
      }
      var id := Waiting(t)[0];
      queue := queue[t := Waiting(t)[1..]];
      if !IsQueueing(jobs, id) {
        RegisterNextJob(true, t);
        return;
      }
      var job := jobs[id].(status := Retrying, retries := jobs[id].retries + 1);
      jobs := jobs[id := jobs[id].(status := Retrying)];
      IncrementSummary(job.task, map[Upper(Retrying) := 1, Lower(Queueing) := -1]);
      if !hasHandler {
        RegisterNextJob(true, t);
        return;
      }
      exec := exec[t := Execution(id, job, false)];
    }

    /** The second half of `execJob`. */
    method FinishJob(t: TaskName, outcome: Outcome, deleteAfterSuccess: bool)
      requires t in exec
      modifies this
      ensures View() == Finish(old(View()), t, outcome, deleteAfterSuccess)
    {
      hide RegisterNext, Increment;
      var Execution(id, job, _) := exec[t];
      var st := FinalStatus(job, outcome);
      exec := exec - {t};
      if st == Queueing {
        var n := PushJob(job.task, id);
      }
      if !outcome.Cancelled? {
        if deleteAfterSuccess && st == Success {
          jobs := jobs - {id};
          IncrementSummary(job.task, map[Lower(Retrying) := -1]);
        } else {
          var found := if id in jobs then 1 else 0;
          if id in jobs {
            jobs := jobs[id := jobs[id].(status := st, retries := job.retries)];
          }
          IncrementSummary(job.task, map[Upper(st) := found, Lower(Retrying) := -found]);
        }
      }
      RegisterNextJob(true, t);
    }

    method RetryJob(id: JobId)
      modifies this
      ensures View() == Retry(old(View()), id)
    {
      hide Increment;
      if id !in jobs {
        return;
      }
      var job := jobs[id];
      var retries := job.retries;
      if job.retries >= job.maxRetry {
        retries := 0;
      }
      jobs := jobs[id := job.(status := Queueing, retries := retries)];
      IncrementSummary(job.task, map[Upper(job.status) := -1][Upper(Queueing) := 1]);
      if job.task !in tasks {
        return;
      }
      var n := PushJob(job.task, id);
      RegisterJobToWorker(job.task, id);
    }

    method StopAllJobInTask(t: TaskName)
      modifies this`armed, this`exec
      ensures View() == Cancel(old(View()), t)
    {
      armed := armed - {t};
      if t in exec {
        exec := exec[t := exec[t].(cancelled := true)];
      }
    }

    method StopJob(id: JobId)
      modifies this
      ensures View() == Stop(old(View()), id)
    {
      hide RegisterNext, Increment;
      if id !in jobs {
        return;
      }
      var job := jobs[id];
      if job.status == Retrying {
        StopAllJobInTask(job.task);
      }
      jobs := jobs[id := job.(status := Stopped)];
      IncrementSummary(job.task, map[Upper(Stopped) := 1][Upper(job.status) := -1]);
      RegisterNextJob(false, job.task);
    }

    method DeleteJob(id: JobId)
      modifies this
      ensures View() == Delete(old(View()), id)
    {
      if id !in jobs {
        return;
      }
      var job := jobs[id];
      jobs := jobs - {id};
      IncrementSummary(job.task, map[Upper(job.status) := -1]);
    }

    // ---- Bulk operations ----

    /** The loop of `StopAllJob` and `RetryAllJob` over the statuses. */
    method MoveStatuses(t: TaskName, statuses: seq<Status>, within: set<JobId>, to: Status, reset: bool) returns (incr: Increments)
      modifies this`jobs
      ensures (jobs, incr) == MoveAll(old(jobs), map[], t, statuses, within, to, reset)
    {
      hide Where, AddAt, SetStatus;
      incr := map[];
      var i := 0;
      while i < |statuses|
        invariant 0 <= i <= |statuses|
        invariant MoveAll(jobs, incr, t, statuses[i..], within, to, reset) == MoveAll(old(jobs), map[], t, statuses, within, to, reset)
      {
        var ids := Where(jobs, t, statuses[i]) * within;
        assert statuses[i..][1..] == statuses[i + 1..];
        jobs := SetStatus(jobs, ids, to, reset);
        incr := AddAt(incr, Lower(statuses[i]), -|ids|);
        incr := AddAt(incr, Lower(to), |ids|);
        i := i + 1;
      }
    }

    method StopAllJob(t: TaskName)
      modifies this
      ensures View() == StopAll(old(View()), t)
    {
      hide MoveAll, Increment;
      if t !in tasks {
        return;
      }
      ChangeLoading(t, true);
      holding := holding + {t};
      StopAllJobInTask(t);
      var incr := MoveStatuses(t, [Queueing, Retrying], jobs.Keys, Stopped, false);
      holding := holding - {t};
      ChangeLoading(t, false);
      IncrementSummary(t, incr);
      Clear(t);
    }

    /** The first half of a bulk retry and of a release: the rows are pushed in the status they have. */
    method StreamRows(t: TaskName, statuses: seq<Status>, within: set<JobId>, limit: nat)
      requires limit > 0
      modifies this`queue, this`loading
      ensures View() == Stream(old(View()), t, statuses, within)
    {
      hide OldestFirst;
      ChangeLoading(t, true);
      var ids := set id | id in jobs && id in within && jobs[id].task == t && jobs[id].status in statuses;
      assert ids == Selected(View(), t, statuses, within);
      StreamIntoQueue(t, ids, limit);
    }

    /** The second half: the rows become QUEUEING, whatever has become of the pushed ids. */
    method MoveRows(t: TaskName, statuses: seq<Status>, within: set<JobId>)
      modifies this
      ensures View() == Move(old(View()), t, statuses, within)
    {
      hide MoveAll, Increment, RegisterNext;
      var incr := MoveStatuses(t, statuses, within, Queueing, true);
      ChangeLoading(t, false);
      IncrementSummary(t, incr);
      RegisterNextJob(false, t);
    }

    method RetryAllJob(t: TaskName, asked: seq<Status>, within: set<JobId>, limit: nat)
      requires limit > 0
      modifies this
      ensures View() == RetryAll(old(View()), t, asked, within)
    {
      hide Stream, Move;
      var statuses := if asked == [] then [Failure, Stopped] else asked;
      StreamRows(t, statuses, within, limit);
      MoveRows(t, statuses, within);
    }

    /** The loop of `CleanJob` over the statuses of the request. */
    method CleanStatuses(t: TaskName, asked: seq<Status>, within: set<JobId>) returns (incr: Increments)
      modifies this`jobs
      ensures (jobs, incr) == CleanAll(old(jobs), map[], t, asked, within)
    {
      hide Where, AddAt;
      incr := map[];
      var i := 0;
      while i < |asked|
        invariant 0 <= i <= |asked|
        invariant CleanAll(jobs, incr, t, asked[i..], within) == CleanAll(old(jobs), map[], t, asked, within)
      {
        var ids := Where(jobs, t, asked[i]) * within;
        assert asked[i..][1..] == asked[i + 1..];
        jobs := jobs - ids;
        incr := AddAt(incr, Lower(asked[i]), -|ids|);
        i := i + 1;
      }
    }

    method CleanJob(t: TaskName, asked: seq<Status>, within: set<JobId>)
      modifies this
      ensures View() == Clean(old(View()), t, asked, within)
    {
      hide CleanAll, Increment;
      ChangeLoading(t, true);
      var incr := CleanStatuses(t, asked, within);
      ChangeLoading(t, false);
      IncrementSummary(t, incr);
    }

    method HoldJobTask(t: TaskName)
      modifies this
      ensures View() == ToggleHold(old(View()), t)
    {
      hide Stream, Move;
      if t !in tasks {
        return;
      }
      if t !in holding {
        holding := holding + {t};
        return;
      }
      holding := holding - {t};
      StreamRows(t, [Hold], jobs.Keys, 10);
      MoveRows(t, [Hold], jobs.Keys);
    }

    method RecalculateSummary()
      modifies this`summary
      ensures View() == Recalculate(old(View()))
    {
      hide CountersOf;
      var rest := tasks;
      while rest != {}
        invariant rest <= tasks && summary.Keys == old(summary).Keys + (tasks - rest)
        invariant forall t :: t in summary ==>
          summary[t] == if t in tasks && t !in rest then CountersOf(jobs, t) else old(summary)[t]
      {
        ghost var some := SomeMember(rest);
        var t :| t in rest;
        rest := rest - {t};
        summary := summary[t := CountersOf(jobs, t)];
      }
      assert summary == Recalculate(old(View())).summary;
    }

    // ---- Start-up recovery ----

    /** How far recovery of task t has come: the first k pending rows, as they were before, are handled. */
    ghost predicate Recovered(s: State, t: TaskName, all: seq<JobId>, k: nat, locked: set<JobId>)
      reads this
    {
      && Requeued(s.jobs, jobs, t, all, k, locked)
      && View() == s.(jobs := jobs, queue := s.queue[t := Unlocked(all[..k], locked)], summary := s.summary[t := CountersOf(jobs, t)])
    }

    method RequeueStatus(t: TaskName, id: JobId, status: Status)
      requires id in jobs && jobs[id].task == t && jobs[id].status == status && IsPending(status)
      requires t in summary && summary[t] == CountersOf(jobs, t)
      modifies this`jobs, this`summary
      ensures jobs == old(jobs)[id := old(jobs)[id].(status := Queueing)] && summary == old(summary)[t := CountersOf(jobs, t)]
    {
      hide CountersOf, Increment;
      if status != Queueing {
        RecountRow(jobs, id, summary[t]);
        jobs := jobs[id := jobs[id].(status := Queueing)];
        IncrementSummary(t, map[Upper(Queueing) := 1, Upper(status) := -1]);
      } else {
        assert jobs[id := jobs[id].(status := Queueing)] == jobs;
      }
    }

    /** The callback of `prepare` on one row, with the status the page query read. */
    method RequeueRow(t: TaskName, id: JobId, status: Status, locked: set<JobId>, ghost s: State, ghost all: seq<JobId>, ghost k: nat)
      requires Recovered(s, t, all, k, locked) && k < |all| && id == all[k]
      requires id in s.jobs && status == s.jobs[id].status
      modifies this`jobs, this`queue, this`summary
      ensures Recovered(s, t, all, k + 1, locked)
    {
      hide Requeued, Done, SetStatus, Unlocked, CountersOf, OldestFirst, Increment, PendingIds, Where;
      RowHandled(s.jobs, jobs, t, all, k, locked);
      if id in locked {
        return;
      }
      RequeueStatus(t, id, status);
      var n := PushJob(t, id);
    }

    /** `StreamAllJob` with that callback: every page is queried from the table as it then is, a hundred rows at a time. */
    method RequeuePending(t: TaskName, locked: set<JobId>, ghost s: State)
      requires s == View() && t in queue && queue[t] == [] && t in summary && summary[t] == CountersOf(jobs, t)
      modifies this`jobs, this`queue, this`summary
      ensures Recovered(s, t, OldestFirst(s.jobs, PendingIds(s.jobs, t)), |PendingIds(s.jobs, t)|, locked)
    {
      hide TotalPages, Page, Before, OldestFirst, CountersOf, Unlocked, Requeued, PendingIds, Where;
      PendingInTable(s.jobs, t);
      ghost var all := OldestFirst(s.jobs, PendingIds(s.jobs, t));
      NothingDone(s.jobs, t, all, locked);
      var count := |PendingIds(jobs, t)|;
      var page := 1;
      FirstPage(100, count);
      while page <= TotalPages(count, 100)
        invariant page > 0 && Recovered(s, t, all, Before(page, 100, count), locked)
      {
        QueryIsStable(s.jobs, jobs, t, all, Before(page, 100, count), locked);
        NextPage(all, page, 100);
        PendingInTable(jobs, t);
        var rows := Page(OldestFirst(jobs, PendingIds(jobs, t)), page, 100);
        assert forall id :: id in rows ==> id in all;
        RequeuePage(t, rows, locked, s, all, Before(page, 100, count));
        page := page + 1;
      }
      LastPage(page, 100, count);
    }

    method RequeuePage(t: TaskName, rows: seq<JobId>, locked: set<JobId>, ghost s: State, ghost all: seq<JobId>, ghost k: nat)
      requires Recovered(s, t, all, k, locked) && k + |rows| <= |all| && rows == all[k..k + |rows|]
      requires forall id :: id in rows ==> id in jobs
      modifies this`jobs, this`queue, this`summary
      ensures Recovered(s, t, all, k + |rows|, locked)
    {
      hide OldestFirst, CountersOf, Unlocked, Requeued;
      var page := jobs;
      PageUntouched(s.jobs, jobs, t, all, k, locked);
      for i := 0 to |rows|
        invariant Recovered(s, t, all, k + i, locked)
      {
        assert rows[i] == all[k + i] && rows[i] in rows;
        RequeueRow(t, rows[i], page[rows[i]].status, locked, s, all, k + i);
      }
    }

    /** The goroutine `prepare` starts for a task with pending jobs. */
    method RequeueTask(t: TaskName, locked: set<JobId>)
      requires t !in exec && t !in armed && t in queue && queue[t] == [] && t in summary && summary[t] == CountersOf(jobs, t)
      modifies this
      ensures View() == RegisterNext(Rebuild(old(View()), t, locked), false, t)
    {
      hide OldestFirst, CountersOf, Unlocked, RegisterNext, SetStatus, PendingIds, Requeued;
      PendingInTable(jobs, t);
      ghost var s := View();
      RequeuePending(t, locked, s);
      AllDone(s.jobs, jobs, t, OldestFirst(s.jobs, PendingIds(s.jobs, t)), locked);
      ChangeLoading(t, false);
      assert View() == Rebuild(s, t, locked);
      hide Rebuild;
      RegisterNextJob(false, t);
    }

    /** `prepare` for one task of a worker that has just started. */
    method Prepare(t: TaskName, locked: set<JobId>)
      requires t in tasks && t !in exec && t !in armed
      modifies this
      ensures View() == Recover(old(View()), t, locked)
    {
      hide OldestFirst, CountersOf, Unlocked, RegisterNext, Rebuild, PendingIds;
      Clear(t);
      summary := summary[t := CountersOf(jobs, t)];
      ChangeLoading(t, true);
      RebuildForgets(old(View()), View(), t, locked);
      if PendingIds(jobs, t) != {} {
        RequeueTask(t, locked);
      } else {
        NothingToRebuild(View(), t, locked);
        ChangeLoading(t, false);
      }
    }
  }

  /** Rebuilding does not look at the old queue, counters or loading flag. */
  lemma RebuildForgets(s: State, r: State, t: TaskName, locked: set<JobId>)
    requires t in r.queue && t in r.summary
    requires r == s.(queue := s.queue[t := r.queue[t]], summary := s.summary[t := r.summary[t]], loading := s.loading + {t})
    ensures Rebuild(r, t, locked) == Rebuild(s, t, locked)
  {
    hide OldestFirst, CountersOf, Unlocked, SetStatus, PendingIds;
    assert r.loading - {t} == s.loading - {t};
  }

  lemma NothingToRebuild(s: State, t: TaskName, locked: set<JobId>)
    requires t in s.queue && s.queue[t] == [] && t in s.summary && s.summary[t] == CountersOf(s.jobs, t)
    requires t !in s.exec && t !in s.armed && PendingIds(s.jobs, t) == {}
    ensures Rebuild(s, t, locked) == EndLoad(s, t)
  {
    hide CountersOf, SetStatus, PendingIds;
    NothingPending(s.jobs, t, locked);
    hide Unlocked, OldestFirst;
  }

  lemma PendingInTable(jobs: Table, t: TaskName)
    ensures PendingIds(jobs, t) <= jobs.Keys
  {
  }

  lemma RequeuedLength(before: Table, now: Table, t: TaskName, all: seq<JobId>, k: nat, locked: set<JobId>)
    requires Requeued(before, now, t, all, k, locked)
    ensures k <= |all|
  {
  }

  /** One row handled, seen from the table, the queue and the row itself. */
  lemma RowHandled(before: Table, now: Table, t: TaskName, all: seq<JobId>, k: nat, locked: set<JobId>)
    requires Requeued(before, now, t, all, k, locked) && k < |all|
    ensures all[k] in before && all[k] in now && now[all[k]] == before[all[k]] && now[all[k]].task == t && IsPending(now[all[k]].status)
    ensures all[k] in locked ==> Requeued(before, now, t, all, k + 1, locked)
    ensures all[k] !in locked ==> Requeued(before, now[all[k] := now[all[k]].(status := Queueing)], t, all, k + 1, locked)
    ensures Unlocked(all[..k + 1], locked) == if all[k] in locked then Unlocked(all[..k], locked) else Unlocked(all[..k], locked) + [all[k]]
  {
    hide Requeued, Done, SetStatus, PendingIds, OldestFirst, Unlocked;
    NextRow(before, now, t, all, k, locked);
    RowDone(before, now, t, all, k, locked);
    RequeuedLength(before, now, t, all, k, locked);
    UnlockedNext(all[..k], all[k], locked);
    assert all[..k + 1] == all[..k] + [all[k]];
  }

  lemma NothingDone(jobs: Table, t: TaskName, all: seq<JobId>, locked: set<JobId>)
    requires all == OldestFirst(jobs, PendingIds(jobs, t))
    ensures Requeued(jobs, jobs, t, all, 0, locked) && Unlocked(all[..0], locked) == []
  {
    hide OldestFirst;
    assert jobs == SetStatus(jobs, {}, Queueing, false);
    assert Done(all, 0, locked) == {};
  }

  lemma NothingPending(jobs: Table, t: TaskName, locked: set<JobId>)
    ensures PendingIds(jobs, t) == {} ==>
      SetStatus(jobs, PendingIds(jobs, t) - locked, Queueing, false) == jobs && Unlocked(OldestFirst(jobs, PendingIds(jobs, t)), locked) == []
  {
  }

  /** The rows of the page about to be handled are still as they were at the start. */
  lemma PageUntouched(before: Table, now: Table, t: TaskName, all: seq<JobId>, k: nat, locked: set<JobId>)
    requires Requeued(before, now, t, all, k, locked)
    ensures forall i :: k <= i < |all| ==> all[i] in before && all[i] in now && now[all[i]] == before[all[i]]
  {
    OldestFirstInOrder(before, PendingIds(before, t));
    hide OldestFirst;
    forall i | k <= i < |all| ensures all[i] in before && all[i] in now && now[all[i]] == before[all[i]] {
      assert all[i] in all;
    }
  }

  function Without(incr: Increments, rest: set<Key>): Increments {
    map k | k in incr && k !in rest :: incr[k]
  }

  lemma EntryAdds(c: Counters, incr: Increments, rest: set<Key>, k: Key)
    requires k in rest && rest <= incr.Keys
    ensures Increment(c, Without(incr, rest - {k})) == Increment(c, Without(incr, rest)).Add(k.status, incr[k])
  {
  }
}
