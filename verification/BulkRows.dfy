/** Which rows the bulk operations touch, and what they make of them. */
module BulkRows {
  import opened JobModel
  import opened JobSteps

  /** The row answers a bulk operation's filter. */
  predicate Matches(job: Job, id: JobId, t: TaskName, statuses: seq<Status>, within: set<JobId>) {
    job.task == t && id in within && job.status in statuses
  }

  function MovedRow(job: Job, to: Status, reset: bool): Job {
    job.(status := to, retries := if reset then 0 else job.retries)
  }

  /** A bulk move rewrites exactly the rows its filter matches, however the statuses repeat or include the target. */
  lemma {:induction false} MoveAllExactly(jobs: Table, incr: Increments, t: TaskName, statuses: seq<Status>, within: set<JobId>,
                                          to: Status, reset: bool, id: JobId)
    ensures
      var after := MoveAll(jobs, incr, t, statuses, within, to, reset).0;
      && (id in after <==> id in jobs)
      && (id in jobs ==> after[id] == if Matches(jobs[id], id, t, statuses, within) then MovedRow(jobs[id], to, reset) else jobs[id])
    decreases |statuses|
  {
    if statuses != [] {
      var ids := Where(jobs, t, statuses[0]) * within;
      var next := SetStatus(jobs, ids, to, reset);
      var more := AddAt(AddAt(incr, Lower(statuses[0]), -|ids|), Lower(to), |ids|);
      MoveAllExactly(next, more, t, statuses[1..], within, to, reset, id);
    }
  }

  /** A clean removes exactly the rows its filter matches, and changes no other. */
  lemma {:induction false} CleanAllExactly(jobs: Table, incr: Increments, t: TaskName, statuses: seq<Status>, within: set<JobId>, id: JobId)
    ensures
      var after := CleanAll(jobs, incr, t, statuses, within).0;
      && (id in after <==> id in jobs && !Matches(jobs[id], id, t, statuses, within))
      && (id in after ==> after[id] == jobs[id])
    decreases |statuses|
  {
    if statuses != [] {
      var ids := Where(jobs, t, statuses[0]) * within;
      CleanAllExactly(jobs - ids, AddAt(incr, Lower(statuses[0]), -|ids|), t, statuses[1..], within, id);
    }
  }

  /** The same for whole tables. */
  ghost predicate MovedTable(before: Table, after: Table, t: TaskName, statuses: seq<Status>, within: set<JobId>, to: Status, reset: bool) {
    && after.Keys == before.Keys
    && forall id: JobId :: id in before ==>
        after[id] == if Matches(before[id], id, t, statuses, within) then MovedRow(before[id], to, reset) else before[id]
  }

  lemma MoveAllTable(jobs: Table, t: TaskName, statuses: seq<Status>, within: set<JobId>, to: Status, reset: bool)
    ensures MovedTable(jobs, MoveAll(jobs, map[], t, statuses, within, to, reset).0, t, statuses, within, to, reset)
  {
    var after := MoveAll(jobs, map[], t, statuses, within, to, reset).0;
    hide MoveAll, Matches, MovedRow;
    forall id: JobId
      ensures id in after <==> id in jobs
      ensures id in jobs ==> after[id] == if Matches(jobs[id], id, t, statuses, within) then MovedRow(jobs[id], to, reset) else jobs[id]
    {
      MoveAllExactly(jobs, map[], t, statuses, within, to, reset, id);
    }
  }

  ghost predicate CleanedTable(before: Table, after: Table, t: TaskName, statuses: seq<Status>, within: set<JobId>) {
    forall id: JobId ::
      && (id in after <==> id in before && !Matches(before[id], id, t, statuses, within))
      && (id in after ==> after[id] == before[id])
  }

  lemma CleanAllTable(jobs: Table, t: TaskName, statuses: seq<Status>, within: set<JobId>)
    ensures CleanedTable(jobs, CleanAll(jobs, map[], t, statuses, within).0, t, statuses, within)
  {
    hide CleanAll, Matches;
    forall id: JobId ensures
      var after := CleanAll(jobs, map[], t, statuses, within).0;
      (id in after <==> id in jobs && !Matches(jobs[id], id, t, statuses, within)) && (id in after ==> after[id] == jobs[id])
    {
      CleanAllExactly(jobs, map[], t, statuses, within, id);
    }
  }

  // ---- The default of a clean ----

  /** The statuses `CleanJob` prepares when the request names none. */
  const CLEAN_DEFAULT: seq<Status> := [Failure, Stopped]

  lemma NothingAdded(c: Counters)
    ensures Increment(c, map[]) == c
  {
  }

  lemma CleanShape(s: State, t: TaskName, asked: seq<Status>, within: set<JobId>)
    ensures
      var r, cleaned := Clean(s, t, asked, within), CleanAll(s.jobs, map[], t, asked, within);
      r.jobs == cleaned.0 && r.summary == s.summary[t := Increment(SummaryOf(s, t), cleaned.1)]
  {
    hide CleanAll, Increment;
  }

  /** A clean that names no statuses removes nothing and counts nothing. */
  lemma EmptyCleanKeepsAll(s: State, t: TaskName, within: set<JobId>)
    ensures var r := Clean(s, t, [], within); r.jobs == s.jobs && forall u: TaskName :: SummaryOf(r, u) == SummaryOf(s, u)
  {
    hide Clean, Increment;
    CleanShape(s, t, [], within);
    NothingAdded(SummaryOf(s, t));
  }

  /** The loop agrees with the prepared default exactly when the request names statuses or no failed or stopped job answers it. */
  lemma CleanDefaultIff(s: State, t: TaskName, asked: seq<Status>, within: set<JobId>)
    ensures
      Clean(s, t, asked, within).jobs == Clean(s, t, if asked == [] then CLEAN_DEFAULT else asked, within).jobs <==>
      asked != [] || forall id: JobId :: id in s.jobs ==> !Matches(s.jobs[id], id, t, CLEAN_DEFAULT, within)
  {
    hide Clean, CleanAll, Matches, Increment;
    if asked == [] {
      EmptyCleanKeepsAll(s, t, within);
      CleanShape(s, t, CLEAN_DEFAULT, within);
      CleanAllTable(s.jobs, t, CLEAN_DEFAULT, within);
      var after := CleanAll(s.jobs, map[], t, CLEAN_DEFAULT, within).0;
      if forall id: JobId :: id in s.jobs ==> !Matches(s.jobs[id], id, t, CLEAN_DEFAULT, within) {
        assert after == s.jobs;
      }
    }
  }
}
