/** Paging over the job table, and start-up recovery: the pages are fetched while the rows are being rewritten. */
module Recovery {
  import opened JobModel
  import opened JobSteps
  import opened RunTheorems

  // ---- Pages ----

  function Clip(i: nat, n: nat): (r: nat)
    ensures r <= n
  {
    if i < n then i else n
  }

  /** How many of n rows the pages before this one hold. */
  function Before(page: nat, limit: nat, n: nat): (r: nat)
    requires page > 0
    ensures r <= n
  {
    Clip((page - 1) * limit, n)
  }

  /** `LIMIT limit OFFSET (page - 1) * limit`. */
  function Page(rows: seq<JobId>, page: nat, limit: nat): seq<JobId>
    requires page > 0
  {
    rows[Clip((page - 1) * limit, |rows|)..Clip((page - 1) * limit + limit, |rows|)]
  }

  /** The ceiling of count / limit. */
  function TotalPages(count: nat, limit: nat): nat
    requires limit > 0
  {
    (count + limit - 1) / limit
  }

  lemma FirstPage(limit: nat, n: nat)
    ensures Before(1, limit, n) == 0
  {
  }

  /** Each page continues where the one before it ended. */
  lemma NextPage(rows: seq<JobId>, page: nat, limit: nat)
    requires page > 0
    ensures
      var a, b := Before(page, limit, |rows|), Before(page + 1, limit, |rows|);
      a <= b && Page(rows, page, limit) == rows[a..b] && rows[..a] + rows[a..b] == rows[..b]
  {
    assert (page - 1) * limit + limit == page * limit;
  }

  /** After the last page nothing is left. */
  lemma LastPage(page: nat, limit: nat, n: nat)
    requires limit > 0 && page > TotalPages(n, limit)
    ensures Before(page, limit, n) == n
  {
    var x := n + limit - 1;
    assert x == limit * (x / limit) + x % limit;
    var k := page - 1 - TotalPages(n, limit);
    assert (page - 1) * limit == TotalPages(n, limit) * limit + k * limit;
  }

  // ---- Rewriting while paging ----

  function Done(all: seq<JobId>, k: nat, locked: set<JobId>): set<JobId>
    requires k <= |all|
  {
    (set id | id in all[..k]) - locked
  }

  /** The table once the first k pending rows have been handled. */
  ghost predicate Requeued(before: Table, now: Table, t: TaskName, all: seq<JobId>, k: nat, locked: set<JobId>) {
    && all == OldestFirst(before, PendingIds(before, t)) && k <= |all|
    && now == SetStatus(before, Done(all, k, locked), Queueing, false)
  }

  /** The rewrite changes neither the filtered set nor the sort key: every page query still sees the same list. */
  lemma QueryIsStable(before: Table, now: Table, t: TaskName, all: seq<JobId>, k: nat, locked: set<JobId>)
    requires Requeued(before, now, t, all, k, locked)
    ensures PendingIds(now, t) == PendingIds(before, t)
    ensures OldestFirst(now, PendingIds(now, t)) == all
  {
    hide OldestFirst;
    StillPending(before, Done(all, k, locked), t);
    OrderIgnoresStatus(before, now, PendingIds(before, t));
  }

  lemma StillPending(before: Table, done: set<JobId>, t: TaskName)
    requires done <= PendingIds(before, t)
    ensures PendingIds(SetStatus(before, done, Queueing, false), t) == PendingIds(before, t)
  {
    var now := SetStatus(before, done, Queueing, false);
    forall id ensures id in PendingIds(now, t) <==> id in PendingIds(before, t) {
    }
  }

  /** The k-th row has not been touched yet. */
  lemma NextRow(before: Table, now: Table, t: TaskName, all: seq<JobId>, k: nat, locked: set<JobId>)
    requires Requeued(before, now, t, all, k, locked) && k < |all|
    ensures all[k] in before && all[k] in now && now[all[k]] == before[all[k]]
    ensures now[all[k]].task == t && IsPending(now[all[k]].status)
  {
    OldestFirstInOrder(before, PendingIds(before, t));
    hide OldestFirst;
    assert all[k] in all;
  }

  /** Handling it moves on by one. */
  lemma RowDone(before: Table, now: Table, t: TaskName, all: seq<JobId>, k: nat, locked: set<JobId>)
    requires Requeued(before, now, t, all, k, locked) && k < |all|
    ensures Done(all, k + 1, locked) == if all[k] in locked then Done(all, k, locked) else Done(all, k, locked) + {all[k]}
    ensures all[k] in locked ==> Requeued(before, now, t, all, k + 1, locked)
    ensures all[k] !in locked && all[k] in now ==> Requeued(before, now[all[k] := now[all[k]].(status := Queueing)], t, all, k + 1, locked)
  {
    NextRow(before, now, t, all, k, locked);
    hide OldestFirst;
    assert all[..k + 1] == all[..k] + [all[k]];
    var done := Done(all, k, locked);
    if all[k] !in locked {
      assert now[all[k] := now[all[k]].(status := Queueing)] == SetStatus(before, done + {all[k]}, Queueing, false);
    }
  }

  lemma {:induction false} UnlockedNext(ids: seq<JobId>, id: JobId, locked: set<JobId>)
    ensures Unlocked(ids + [id], locked) == Unlocked(ids, locked) + if id in locked then [] else [id]
  {
    if ids != [] {
      UnlockedNext(ids[1..], id, locked);
      assert (ids + [id])[1..] == ids[1..] + [id];
    }
  }

  /** After the last row all unlocked pending jobs are queueing. */
  lemma AllDone(before: Table, now: Table, t: TaskName, all: seq<JobId>, locked: set<JobId>)
    requires Requeued(before, now, t, all, |all|, locked)
    ensures now == SetStatus(before, PendingIds(before, t) - locked, Queueing, false)
    ensures all[..|all|] == all
  {
    hide OldestFirst;
    assert Done(all, |all|, locked) == PendingIds(before, t) - locked;
  }

  /** Counting a row over from RETRYING to QUEUEING keeps a task's counters exact. */
  lemma RecountRow(now: Table, id: JobId, c: Counters)
    requires id in now && now[id].status == Retrying && c == CountersOf(now, now[id].task)
    ensures
      Increment(c, map[Upper(Queueing) := 1, Upper(Retrying) := -1]) ==
      CountersOf(now[id := now[id].(status := Queueing)], now[id].task)
  {
    var t, after := now[id].task, now[id := now[id].(status := Queueing)];
    hide Count;
    forall st ensures Change(now, after, t, st) == (if st == Queueing then 1 else 0) - (if st == Retrying then 1 else 0) {
      MovedCounts(now, after, {id}, t, Retrying, Queueing, t, st);
    }
    assert Change(now, after, t, Queueing) == 1 && Change(now, after, t, Retrying) == -1;
    assert Change(now, after, t, Success) == 0 && Change(now, after, t, Failure) == 0 && Change(now, after, t, Stopped) == 0;
  }

  // ---- What recovery achieves ----

  /** Every pending job nobody has locked is queued exactly once, oldest first. */
  lemma RecoveryQueuesAll(s: State, t: TaskName, locked: set<JobId>)
    ensures
      var q := QueueOf(Rebuild(s, t, locked), t);
      InOrder(s.jobs, q) && forall id: JobId :: id in q <==> id in PendingIds(s.jobs, t) && id !in locked
  {
    var all := OldestFirst(s.jobs, PendingIds(s.jobs, t));
    OldestFirstInOrder(s.jobs, PendingIds(s.jobs, t));
    hide OldestFirst, CountersOf, Where, SetStatus, InOrder;
    forall id: JobId ensures id in Unlocked(all, locked) <==> id in PendingIds(s.jobs, t) && id !in locked {
      UnlockedIds(all, locked, id);
    }
    UnlockedInOrder(s.jobs, all, locked);
  }

  /** Only jobs that are locked stay RETRYING, and no other row of the table changes. */
  lemma RecoveryLeavesNoneRetrying(s: State, t: TaskName, locked: set<JobId>, id: JobId)
    requires id in s.jobs
    ensures
      var r := Rebuild(s, t, locked);
      id in r.jobs && r.jobs[id] == if id in PendingIds(s.jobs, t) && id !in locked then s.jobs[id].(status := Queueing) else s.jobs[id]
  {
    hide OldestFirst, CountersOf, Unlocked;
  }

  lemma {:induction false} UnlockedInOrder(jobs: Table, ids: seq<JobId>, locked: set<JobId>)
    requires InOrder(jobs, ids)
    ensures InOrder(jobs, Unlocked(ids, locked))
  {
    if ids != [] {
      var rest := ids[1..];
      assert forall i :: 0 <= i < |rest| ==> rest[i] == ids[i + 1];
      UnlockedInOrder(jobs, rest, locked);
      forall id: JobId | id in Unlocked(rest, locked) ensures id != ids[0] && id in jobs && Older(jobs, ids[0], id) {
        UnlockedIds(rest, locked, id);
      }
    }
  }
}
