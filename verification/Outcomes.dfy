/** What each operation of the task queue leaves behind, row by row, queue by queue and ticker by ticker, said without the
    functions the operations are put together from. */
module Outcomes {
  import opened JobModel
  import opened JobSteps
  import opened CounterTheorems
  import opened BulkRows
  import opened Recovery

  // ---- Adding ----

  /** A job is saved exactly if its task is registered and, for a duration, it may run and its interval is not negative, or,
      for a cron expression, no job of the task without a bound on its runs is pending. Otherwise nothing changes. */
  lemma AddLeaves(s: State, t: TaskName, maxRetry: int, interval: int, cron: bool, created: int)
    requires WellFormed(s)
    ensures
      var r := AddJob(s, t, maxRetry, interval, cron, created);
      && (s.nextId in r.jobs <==>
          && t in s.tasks
          && (!cron ==> maxRetry > 0 && interval >= 0)
          && (cron ==> forall i :: i in s.jobs && s.jobs[i].task == t && s.jobs[i].maxRetry == 0 ==>
                s.jobs[i].status != Queueing && s.jobs[i].status != Retrying))
      && (s.nextId !in r.jobs ==> r == s)
    ensures
      var r, id, q := AddJob(s, t, maxRetry, interval, cron, created), s.nextId, QueueOf(s, t);
      var open := t !in s.holding && t !in s.loading;
      id in r.jobs ==>
        && r == s.(jobs := r.jobs, nextId := id + 1, summary := r.summary, queue := r.queue, armed := r.armed)
        && r.jobs == s.jobs[id := Job(t, if t in s.holding then Hold else Queueing, 0, maxRetry, cron, created)]
        && r.queue == (if open then s.queue[t := q + [id]] else s.queue)
        && r.armed == if open && q == [] && t !in s.exec && id !in s.exhausted then s.armed[t := id] else s.armed
  {
    hide Increment, QueueSound, ExecSound;
  }

  // ---- Executions ----

  /** A tick of an idle task that is not on hold, with a queueing job at the head and a handler: the job leaves the queue,
      its row is RETRYING with its retries as they were, and the worker's copy counts one more. */
  lemma StartLeaves(s: State, t: TaskName)
    requires t !in s.holding && QueueOf(s, t) != [] && IsQueueing(s.jobs, QueueOf(s, t)[0])
    ensures
      var r, q := Start(s, t, true), QueueOf(s, t);
      var id, row := q[0], s.jobs[q[0]];
      && r == s.(jobs := r.jobs, queue := s.queue[t := q[1..]], exec := r.exec, armed := s.armed - {t}, summary := r.summary)
      && r.jobs == s.jobs[id := row.(status := Retrying)]
      && r.exec == s.exec[t := Execution(id, row.(status := Retrying, retries := row.retries + 1), false)]
  {
    hide Increment;
  }

  /** The other ticks: on hold only the ticker stops; an empty queue registers anew, a stale head is popped first, and
      without handlers the head is popped and stays RETRYING. */
  lemma SkipLeaves(s: State, t: TaskName)
    ensures t in s.holding ==> forall h :: Start(s, t, h) == s.(armed := s.armed - {t})
    ensures t !in s.holding && QueueOf(s, t) == [] ==> forall h :: Start(s, t, h) == RegisterNext(s.(armed := s.armed - {t}), true, t)
    ensures t !in s.holding && QueueOf(s, t) != [] && !IsQueueing(s.jobs, QueueOf(s, t)[0]) ==>
      forall h :: Start(s, t, h) == RegisterNext(s.(armed := s.armed - {t}, queue := s.queue[t := QueueOf(s, t)[1..]]), true, t)
    ensures t !in s.holding && QueueOf(s, t) != [] && IsQueueing(s.jobs, QueueOf(s, t)[0]) ==>
      var r, q := Start(s, t, false), QueueOf(s, t);
      && r.jobs == s.jobs[q[0] := s.jobs[q[0]].(status := Retrying)]
      && r == RegisterNext(s.(armed := s.armed - {t}, queue := s.queue[t := q[1..]], jobs := r.jobs, summary := r.summary), true, t)
  {
    hide Increment, RegisterNext;
    FinishKeeps(Begin(s, t, false), t);
  }

  /** What a handler's end makes of its row, where the row is still stored: a cancelled handler leaves it; a cron job without
      a bound on its runs, or below it, is QUEUEING again; a duration job is QUEUEING again exactly if it asks for it
      below its bound; the others end in SUCCESS, or are removed if asked, or in FAILURE. */
  lemma FinishLeaves(s: State, t: TaskName, outcome: Outcome, del: bool)
    requires t in s.exec && s.exec[t].id in s.jobs
    ensures
      var r, id, job := Finish(s, t, outcome, del), s.exec[t].id, s.exec[t].job;
      && r.exec == s.exec - {t}
      && (outcome.Cancelled? ==> r.jobs == s.jobs)
      && (!outcome.Cancelled? && job.cron && (job.maxRetry == 0 || job.retries < job.maxRetry) ==>
          r.jobs == s.jobs[id := s.jobs[id].(status := Queueing, retries := job.retries)])
      && (outcome.Succeeded? && !(job.cron && (job.maxRetry == 0 || job.retries < job.maxRetry)) ==>
          r.jobs == if del then s.jobs - {id} else s.jobs[id := s.jobs[id].(status := Success, retries := job.retries)])
      && (outcome.Failed? && !(job.cron && (job.maxRetry == 0 || job.retries < job.maxRetry)) ==>
          r.jobs == s.jobs[id := s.jobs[id].(status := Failure, retries := job.retries)])
      && (outcome.AskedRetry? && !job.cron ==>
          r.jobs == s.jobs[id := s.jobs[id].(status := if job.retries < job.maxRetry then Queueing else Failure, retries := job.retries)])
      && (outcome.AskedRetry? && job.cron && job.maxRetry != 0 && job.retries >= job.maxRetry ==>
          r.jobs == s.jobs[id := s.jobs[id].(status := Failure, retries := job.retries)])
  {
    hide Increment;
  }

  /** A row that is gone stays gone, and a job is pushed exactly if it is to run again; then the next one is registered. */
  lemma FinishPushes(s: State, t: TaskName, outcome: Outcome, del: bool)
    requires t in s.exec && s.exec[t].job.task == t
    ensures
      var r, id, job := Finish(s, t, outcome, del), s.exec[t].id, s.exec[t].job;
      var again := !outcome.Cancelled? && (if job.cron && job.maxRetry == 0 then true else
                                             (job.cron || outcome.AskedRetry?) && job.retries < job.maxRetry);
      && (id !in s.jobs ==> r.jobs == s.jobs)
      && r == RegisterNext(s.(exec := s.exec - {t}, jobs := r.jobs, summary := r.summary,
                              queue := if again then s.queue[t := QueueOf(s, t) + [id]] else s.queue), true, t)
  {
    hide Increment, RegisterNext;
    var w := WriteBack(s, t, outcome, del);
    FinishKeeps(w, t);
    if s.exec[t].id !in s.jobs { assert s.jobs - {s.exec[t].id} == s.jobs; }
  }

  lemma FinishKeeps(w: State, t: TaskName)
    ensures var r := RegisterNext(w, true, t); r.jobs == w.jobs && r.summary == w.summary
  {
  }

  // ---- Single jobs ----

  /** A manual retry: QUEUEING, with the retries set back exactly if none are left, and queued last and armed if the task is
      registered. */
  lemma RetryLeaves(s: State, id: JobId)
    ensures id !in s.jobs ==> Retry(s, id) == s
    ensures id in s.jobs ==>
      var r, row := Retry(s, id), s.jobs[id];
      var t := row.task;
      && r == s.(jobs := r.jobs, summary := r.summary, queue := r.queue, armed := r.armed)
      && r.jobs == s.jobs[id := row.(status := Queueing, retries := if row.retries >= row.maxRetry then 0 else row.retries)]
      && r.queue == (if t in s.tasks then s.queue[t := QueueOf(s, t) + [id]] else s.queue)
      && r.armed == if t in s.tasks && id !in s.exhausted then s.armed[t := id] else s.armed
  {
    hide Increment;
  }

  /** A stop: STOPPED, and exactly if the job was RETRYING its task's handler is cancelled and its ticker stopped; every
      other handler goes on. Then the next job is registered. */
  lemma StopLeaves(s: State, id: JobId)
    ensures id !in s.jobs ==> Stop(s, id) == s
    ensures id in s.jobs ==>
      var r, t := Stop(s, id), s.jobs[id].task;
      var hit := s.jobs[id].status == Retrying;
      && r.jobs == s.jobs[id := s.jobs[id].(status := Stopped)]
      && r.exec.Keys == s.exec.Keys
      && (forall u :: u in s.exec ==>
            && r.exec[u].id == s.exec[u].id && r.exec[u].job == s.exec[u].job
            && (r.exec[u].cancelled <==> s.exec[u].cancelled || (u == t && hit)))
      && r == RegisterNext(s.(jobs := r.jobs, exec := r.exec, summary := r.summary, armed := if hit then s.armed - {t} else s.armed),
                           false, t)
  {
    hide Increment, RegisterNext;
    if id in s.jobs { StopKeeps(Halt(s, id), s.jobs[id].task); }
  }

  lemma StopKeeps(w: State, t: TaskName)
    ensures var r := RegisterNext(w, false, t); r.jobs == w.jobs && r.summary == w.summary && r.exec == w.exec
  {
  }

  lemma DeleteLeaves(s: State, id: JobId)
    ensures Delete(s, id) == if id in s.jobs then s.(jobs := s.jobs - {id}, summary := Delete(s, id).summary) else s
  {
    hide Increment;
  }

  // ---- Whole tasks ----

  /** Stopping a task: every QUEUEING or RETRYING row of it is STOPPED, its queue is empty, its ticker stopped and its handler
      cancelled, its hold and its loading over; nothing of another task changes. */
  lemma StopAllLeaves(s: State, t: TaskName)
    ensures t !in s.tasks ==> StopAll(s, t) == s
    ensures t in s.tasks ==>
      var r := StopAll(s, t);
      && r.jobs.Keys == s.jobs.Keys
      && (forall i :: i in s.jobs ==>
            r.jobs[i] == if s.jobs[i].task == t && (s.jobs[i].status == Queueing || s.jobs[i].status == Retrying) then s.jobs[i].(status := Stopped)
                         else s.jobs[i])
      && r == s.(jobs := r.jobs, summary := r.summary, queue := s.queue[t := []], armed := s.armed - {t}, exec := r.exec,
                 holding := s.holding - {t}, loading := s.loading - {t})
      && r.exec == if t in s.exec then s.exec[t := Execution(s.exec[t].id, s.exec[t].job, true)] else s.exec
  {
    hide Increment, MoveAll, Matches, MovedRow;
    MoveAllTable(s.jobs, t, [Queueing, Retrying], s.jobs.Keys, Stopped, false);
    StopMatches(s.jobs, t);
  }

  lemma StopMatches(jobs: Table, t: TaskName)
    ensures forall i :: i in jobs ==>
      (Matches(jobs[i], i, t, [Queueing, Retrying], jobs.Keys) <==>
       jobs[i].task == t && (jobs[i].status == Queueing || jobs[i].status == Retrying))
    ensures forall i :: i in jobs ==> MovedRow(jobs[i], Stopped, false) == jobs[i].(status := Stopped)
  {
  }

  /** The rows a request of statuses and filter selects; no statuses means failed and stopped. */
  ghost predicate Asked(row: Job, id: JobId, t: TaskName, asked: seq<Status>, within: set<JobId>) {
    row.task == t && id in within && if asked == [] then row.status == Failure || row.status == Stopped else row.status in asked
  }

  /** A bulk retry: exactly the selected rows are QUEUEING with no retries counted, they are queued last, oldest first, and the
      next job is registered. */
  lemma RetryAllLeaves(s: State, t: TaskName, asked: seq<Status>, within: set<JobId>) returns (ids: seq<JobId>)
    ensures InOrder(s.jobs, ids) && forall i: JobId :: i in ids <==> i in s.jobs && Asked(s.jobs[i], i, t, asked, within)
    ensures
      var r := RetryAll(s, t, asked, within);
      && r.jobs.Keys == s.jobs.Keys
      && (forall i :: i in s.jobs ==>
            r.jobs[i] == if Asked(s.jobs[i], i, t, asked, within) then s.jobs[i].(status := Queueing, retries := 0) else s.jobs[i])
      && r == RegisterNext(s.(jobs := r.jobs, summary := r.summary, loading := s.loading - {t},
                              queue := s.queue[t := QueueOf(s, t) + ids]), false, t)
  {
    hide OldestFirst, InOrder, RegisterNext, Move, Matches, Asked;
    var statuses := if asked == [] then [Failure, Stopped] else asked;
    ids := OldestFirst(s.jobs, Selected(s, t, statuses, within));
    RetryMatches(s.jobs, t, asked, within);
    SelectedInOrder(s, t, statuses, within);
    MovedLeaves(Stream(s, t, statuses, within), t, statuses, within);
    assert s.loading + {t} - {t} == s.loading - {t};
  }

  lemma SelectedInOrder(s: State, t: TaskName, statuses: seq<Status>, within: set<JobId>)
    ensures
      var ids := OldestFirst(s.jobs, Selected(s, t, statuses, within));
      InOrder(s.jobs, ids) && forall i: JobId :: i in ids <==> i in s.jobs && Matches(s.jobs[i], i, t, statuses, within)
  {
    hide OldestFirst, InOrder;
    OldestFirstInOrder(s.jobs, Selected(s, t, statuses, within));
  }

  lemma RetryMatches(jobs: Table, t: TaskName, asked: seq<Status>, within: set<JobId>)
    ensures
      var statuses := if asked == [] then [Failure, Stopped] else asked;
      forall i :: i in jobs ==> (Matches(jobs[i], i, t, statuses, within) <==> Asked(jobs[i], i, t, asked, within))
  {
  }

  /** The updates of a bulk retry or release. */
  lemma MovedLeaves(s: State, t: TaskName, statuses: seq<Status>, within: set<JobId>)
    ensures
      var r := Move(s, t, statuses, within);
      && r.jobs.Keys == s.jobs.Keys
      && (forall i :: i in s.jobs ==>
            r.jobs[i] == if Matches(s.jobs[i], i, t, statuses, within) then s.jobs[i].(status := Queueing, retries := 0) else s.jobs[i])
      && r == RegisterNext(s.(jobs := r.jobs, summary := r.summary, loading := s.loading - {t}), false, t)
  {
    MoveAllTable(s.jobs, t, statuses, within, Queueing, true);
    StopKeeps(Requeue(s, t, statuses, within), t);
    hide MoveAll, Matches, Increment, RegisterNext;
  }

  /** A clean removes exactly the rows of the statuses the request itself names. */
  lemma CleanLeaves(s: State, t: TaskName, asked: seq<Status>, within: set<JobId>)
    ensures
      var r := Clean(s, t, asked, within);
      && (forall i: JobId :: i in r.jobs <==>
            i in s.jobs && !(s.jobs[i].task == t && i in within && s.jobs[i].status in asked))
      && (forall i: JobId :: i in r.jobs ==> r.jobs[i] == s.jobs[i])
      && r == s.(jobs := r.jobs, summary := r.summary, loading := s.loading - {t})
  {
    hide CleanAll, Increment;
    CleanAllTable(s.jobs, t, asked, within);
  }

  /** A hold only raises the flag. A release lowers it and makes every job on HOLD QUEUEING with no retries counted, queued
      last, oldest first, and registers the next. */
  lemma HoldLeaves(s: State, t: TaskName) returns (ids: seq<JobId>)
    ensures t !in s.tasks ==> ToggleHold(s, t) == s
    ensures t in s.tasks && t !in s.holding ==> ToggleHold(s, t) == s.(holding := s.holding + {t})
    ensures InOrder(s.jobs, ids) && forall i: JobId :: i in ids <==> i in s.jobs && s.jobs[i].task == t && s.jobs[i].status == Hold
    ensures t in s.tasks && t in s.holding ==>
      var r := ToggleHold(s, t);
      && r.jobs.Keys == s.jobs.Keys
      && (forall i :: i in s.jobs ==>
            r.jobs[i] == if s.jobs[i].task == t && s.jobs[i].status == Hold then s.jobs[i].(status := Queueing, retries := 0) else s.jobs[i])
      && r == RegisterNext(s.(jobs := r.jobs, summary := r.summary, holding := s.holding - {t}, loading := s.loading - {t},
                              queue := s.queue[t := QueueOf(s, t) + ids]), false, t)
  {
    hide OldestFirst, InOrder, RegisterNext, Move, Matches;
    var off := s.(holding := s.holding - {t});
    ids := OldestFirst(s.jobs, Selected(off, t, [Hold], s.jobs.Keys));
    HoldMatches(s.jobs, t);
    SelectedInOrder(off, t, [Hold], s.jobs.Keys);
    if t in s.tasks && t in s.holding {
      MovedLeaves(Stream(off, t, [Hold], s.jobs.Keys), t, [Hold], s.jobs.Keys);
      assert s.loading + {t} - {t} == s.loading - {t};
    }
  }

  lemma HoldMatches(jobs: Table, t: TaskName)
    ensures forall i :: i in jobs ==>
      (Matches(jobs[i], i, t, [Hold], jobs.Keys) <==> jobs[i].task == t && jobs[i].status == Hold)
  {
  }

  /** A recalculation counts the stored jobs of every registered task and leaves everything else. */
  lemma RecalculateLeaves(s: State, t: TaskName)
    ensures Recalculate(s) == s.(summary := Recalculate(s).summary)
    ensures t !in s.tasks ==> SummaryOf(Recalculate(s), t) == SummaryOf(s, t)
    ensures t in s.tasks ==>
      var c := SummaryOf(Recalculate(s), t);
      && c.success == |set i | i in s.jobs && s.jobs[i].task == t && s.jobs[i].status == Success|
      && c.queueing == |set i | i in s.jobs && s.jobs[i].task == t && s.jobs[i].status == Queueing|
      && c.retrying == |set i | i in s.jobs && s.jobs[i].task == t && s.jobs[i].status == Retrying|
      && c.failure == |set i | i in s.jobs && s.jobs[i].task == t && s.jobs[i].status == Failure|
      && c.stopped == |set i | i in s.jobs && s.jobs[i].task == t && s.jobs[i].status == Stopped|
  {
    assert Where(s.jobs, t, Success) == set i | i in s.jobs && s.jobs[i].task == t && s.jobs[i].status == Success;
    assert Where(s.jobs, t, Queueing) == set i | i in s.jobs && s.jobs[i].task == t && s.jobs[i].status == Queueing;
    assert Where(s.jobs, t, Retrying) == set i | i in s.jobs && s.jobs[i].task == t && s.jobs[i].status == Retrying;
    assert Where(s.jobs, t, Failure) == set i | i in s.jobs && s.jobs[i].task == t && s.jobs[i].status == Failure;
    assert Where(s.jobs, t, Stopped) == set i | i in s.jobs && s.jobs[i].task == t && s.jobs[i].status == Stopped;
  }

  // ---- Recovery ----

  /** Start-up recovery of a task: exactly its RETRYING and QUEUEING rows that nobody has locked are QUEUEING, with their
      retries as they were, and are its whole queue, oldest first; executions, ticker and loading flag are cleared and the
      counters counted. If any row was pending the next job is registered. */
  lemma RecoverLeaves(s: State, t: TaskName, locked: set<JobId>) returns (ids: seq<JobId>)
    ensures t !in s.tasks ==> Recover(s, t, locked) == s
    ensures InOrder(s.jobs, ids) && forall i: JobId :: i in ids <==>
      i in s.jobs && s.jobs[i].task == t && (s.jobs[i].status == Retrying || s.jobs[i].status == Queueing) && i !in locked
    ensures t in s.tasks ==>
      var r := Recover(s, t, locked);
      var m := s.(jobs := r.jobs, queue := s.queue[t := ids], exec := s.exec - {t}, armed := s.armed - {t}, loading := s.loading - {t},
                  summary := s.summary[t := CountersOf(r.jobs, t)]);
      && r.jobs.Keys == s.jobs.Keys
      && (forall i :: i in s.jobs ==> r.jobs[i] == if i in ids then s.jobs[i].(status := Queueing) else s.jobs[i])
      && r == if exists i :: i in s.jobs && s.jobs[i].task == t && (s.jobs[i].status == Retrying || s.jobs[i].status == Queueing)
              then RegisterNext(m, false, t) else m
  {
    hide OldestFirst, InOrder, RegisterNext, CountersOf, Unlocked;
    ids := Unlocked(OldestFirst(s.jobs, PendingIds(s.jobs, t)), locked);
    RecoveryQueuesAll(s, t, locked);
    if t in s.tasks {
      StopKeeps(Rebuild(s, t, locked), t);
      RebuiltRows(s, t, locked);
      SomePending(s.jobs, t);
    }
  }

  lemma SomePending(jobs: Table, t: TaskName)
    ensures PendingIds(jobs, t) != {} <==>
      exists i :: i in jobs && jobs[i].task == t && (jobs[i].status == Retrying || jobs[i].status == Queueing)
  {
    if PendingIds(jobs, t) != {} {
      var i :| i in PendingIds(jobs, t);
      assert i in jobs;
    }
    if i :| i in jobs && jobs[i].task == t && (jobs[i].status == Retrying || jobs[i].status == Queueing) {
      assert i in PendingIds(jobs, t);
    }
  }

  lemma RebuiltRows(s: State, t: TaskName, locked: set<JobId>)
    ensures Rebuild(s, t, locked).jobs.Keys == s.jobs.Keys
  {
    hide OldestFirst, CountersOf, Unlocked;
  }
}
