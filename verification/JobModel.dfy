/** The task queue's data: the job table, the per-task status counters and how increments apply to them. */
module JobModel {

  type TaskName = nat
  type JobId = nat

  datatype Status = Queueing | Retrying | Success | Failure | Stopped | Hold

  /** A stored job; `cron` says that its interval is a cron expression and not a duration. */
  datatype Job = Job(task: TaskName, status: Status, retries: int, maxRetry: int, cron: bool, created: int)

  type Table = map<JobId, Job>

  // ---- Counters ----

  /** The five counters of a task summary; jobs on hold are not counted. */
  datatype Counters = Counters(success: int, queueing: int, retrying: int, failure: int, stopped: int) {
    function Get(st: Status): int {
      match st
      case Success => success
      case Queueing => queueing
      case Retrying => retrying
      case Failure => failure
      case Stopped => stopped
      case Hold => 0
    }

    function Add(st: Status, n: int): Counters {
      match st
      case Success => this.(success := success + n)
      case Queueing => this.(queueing := queueing + n)
      case Retrying => this.(retrying := retrying + n)
      case Failure => this.(failure := failure + n)
      case Stopped => this.(stopped := stopped + n)
      case Hold => this
    }
  }

  const NO_JOBS := Counters(0, 0, 0, 0, 0)

  /** Increment maps are keyed by status names; callers spell them in upper or lower case, and the two
      spellings are different keys until the counters fold the case. */
  datatype Key = Upper(status: Status) | Lower(status: Status)

  type Increments = map<Key, int>

  function At(incr: Increments, k: Key): int {
    if k in incr then incr[k] else 0
  }

  /** What the increments add to one status, whichever way it is spelled. */
  function Delta(incr: Increments, st: Status): int {
    At(incr, Upper(st)) + At(incr, Lower(st))
  }

  function Increment(c: Counters, incr: Increments): Counters {
    Counters(c.success + Delta(incr, Success), c.queueing + Delta(incr, Queueing), c.retrying + Delta(incr, Retrying),
             c.failure + Delta(incr, Failure), c.stopped + Delta(incr, Stopped))
  }

  // ---- Counting stored jobs ----

  function Where(jobs: Table, t: TaskName, st: Status): set<JobId> {
    set id | id in jobs && jobs[id].task == t && jobs[id].status == st
  }

  function Count(jobs: Table, t: TaskName, st: Status): nat {
    |Where(jobs, t, st)|
  }

  function CountersOf(jobs: Table, t: TaskName): Counters {
    Counters(Count(jobs, t, Success), Count(jobs, t, Queueing), Count(jobs, t, Retrying),
             Count(jobs, t, Failure), Count(jobs, t, Stopped))
  }

  /** By how much a table update changes the number of a task's jobs in a status. */
  function Change(before: Table, after: Table, t: TaskName, st: Status): int {
    Count(after, t, st) - Count(before, t, st)
  }

  /** The table after `moved` went to status b; other columns may differ. */
  ghost predicate Restated(before: Table, after: Table, moved: set<JobId>, b: Status) {
    && after.Keys == before.Keys
    && forall id :: id in before ==>
        after[id].task == before[id].task && after[id].status == if id in moved then b else before[id].status
  }

  lemma MovedOut(before: Table, after: Table, moved: set<JobId>, t: TaskName, a: Status, b: Status)
    requires moved <= Where(before, t, a) && Restated(before, after, moved, b) && a != b
    ensures Where(after, t, a) == Where(before, t, a) - moved
    ensures Count(after, t, a) == Count(before, t, a) - |moved|
  {
  }

  lemma MovedIn(before: Table, after: Table, moved: set<JobId>, t: TaskName, a: Status, b: Status)
    requires moved <= Where(before, t, a) && Restated(before, after, moved, b) && a != b
    ensures Where(after, t, b) == Where(before, t, b) + moved
    ensures Count(after, t, b) == Count(before, t, b) + |moved|
  {
    assert moved !! Where(before, t, b);
  }

  lemma NotMoved(before: Table, after: Table, moved: set<JobId>, t: TaskName, a: Status, b: Status, u: TaskName, st: Status)
    requires moved <= Where(before, t, a) && Restated(before, after, moved, b)
    requires a == b || u != t || (st != a && st != b)
    ensures Where(after, u, st) == Where(before, u, st)
  {
  }

  /** Moving jobs of one task from status a to b shifts exactly those two counts. */
  lemma MovedCounts(before: Table, after: Table, moved: set<JobId>, t: TaskName, a: Status, b: Status, u: TaskName, st: Status)
    requires moved <= Where(before, t, a) && Restated(before, after, moved, b)
    ensures Change(before, after, u, st) ==
            (if u == t && st == b then |moved| else 0) - (if u == t && st == a then |moved| else 0)
  {
    if a == b || u != t || (st != a && st != b) {
      NotMoved(before, after, moved, t, a, b, u, st);
    } else if st == a {
      MovedOut(before, after, moved, t, a, b);
    } else {
      MovedIn(before, after, moved, t, a, b);
    }
  }

  lemma RemovedCounts(before: Table, gone: set<JobId>, t: TaskName, a: Status, u: TaskName, st: Status)
    requires gone <= Where(before, t, a)
    ensures Change(before, before - gone, u, st) == if u == t && st == a then -|gone| else 0
  {
    if u == t && st == a {
      assert Where(before - gone, u, st) == Where(before, u, st) - gone;
    } else {
      assert Where(before - gone, u, st) == Where(before, u, st);
    }
  }

  lemma InsertedCounts(before: Table, id: JobId, job: Job, u: TaskName, st: Status)
    requires id !in before
    ensures Change(before, before[id := job], u, st) == if u == job.task && st == job.status then 1 else 0
  {
    InsertedWhere(before, id, job, u, st);
    hide Where;
  }

  lemma InsertedWhere(before: Table, id: JobId, job: Job, u: TaskName, st: Status)
    requires id !in before
    ensures id !in Where(before, u, st)
    ensures Where(before[id := job], u, st) == Where(before, u, st) + if u == job.task && st == job.status then {id} else {}
  {
  }

  // ---- Oldest first ----

  predicate Older(jobs: Table, a: JobId, b: JobId)
    requires a in jobs && b in jobs
  {
    jobs[a].created < jobs[b].created || (jobs[a].created == jobs[b].created && a <= b)
  }

  ghost predicate IsOldest(jobs: Table, ids: set<JobId>, a: JobId)
    requires ids <= jobs.Keys
  {
    a in ids && forall b :: b in ids ==> Older(jobs, a, b)
  }

  lemma {:induction false} OldestExists(jobs: Table, ids: set<JobId>) returns (a: JobId)
    requires ids <= jobs.Keys && ids != {}
    ensures IsOldest(jobs, ids, a)
    decreases ids
  {
    a :| a in ids;
    var rest := ids - {a};
    if rest == {} {
      assert ids == {a};
    } else {
      var c := OldestExists(jobs, rest);
      OldestOfTwo(jobs, ids, a, c);
      a := if Older(jobs, a, c) then a else c;
    }
  }

  lemma OldestOfTwo(jobs: Table, ids: set<JobId>, a: JobId, c: JobId)
    requires ids <= jobs.Keys && a in ids && IsOldest(jobs, ids - {a}, c)
    ensures IsOldest(jobs, ids, if Older(jobs, a, c) then a else c)
  {
    forall b | b in ids ensures b == a || Older(jobs, c, b) {
      if b != a { assert b in ids - {a}; }
    }
  }

  lemma SomeOldest(jobs: Table, ids: set<JobId>)
    requires ids <= jobs.Keys && ids != {}
    ensures exists a :: a in ids && forall b :: b in ids ==> Older(jobs, a, b)
  {
    var a := OldestExists(jobs, ids);
  }

  /** `ORDER BY created_at`, ties by id. */
  function OldestFirst(jobs: Table, ids: set<JobId>): (s: seq<JobId>)
    requires ids <= jobs.Keys
    ensures |s| == |ids| && forall id :: id in s <==> id in ids
    decreases ids
  {
    if ids == {} then []
    else
      SomeOldest(jobs, ids);
      var a :| a in ids && forall b :: b in ids ==> Older(jobs, a, b);
      [a] + OldestFirst(jobs, ids - {a})
  }

  ghost predicate InOrder(jobs: Table, s: seq<JobId>) {
    && (forall id :: id in s ==> id in jobs)
    && forall i, j :: 0 <= i < j < |s| ==> s[i] != s[j] && Older(jobs, s[i], s[j])
  }

  /** Page order is creation order, equal times by id. */
  lemma InOrderByTime(jobs: Table, s: seq<JobId>, i: nat, j: nat)
    requires InOrder(jobs, s) && i < j < |s|
    ensures jobs[s[i]].created < jobs[s[j]].created || (jobs[s[i]].created == jobs[s[j]].created && s[i] < s[j])
  {
  }

  lemma {:induction false} OldestFirstInOrder(jobs: Table, ids: set<JobId>)
    requires ids <= jobs.Keys
    ensures InOrder(jobs, OldestFirst(jobs, ids))
    decreases ids
  {
    if ids != {} {
      var s := OldestFirst(jobs, ids);
      OldestFirstInOrder(jobs, ids - {s[0]});
      assert s[1..] == OldestFirst(jobs, ids - {s[0]});
      forall i, j | 0 <= i < j < |s| ensures s[i] != s[j] && Older(jobs, s[i], s[j]) {
        assert s[j] == s[1..][j - 1] && s[j] in s[1..];
        if i > 0 { assert s[i] == s[1..][i - 1]; }
      }
    }
  }

  /** The order depends on the creation times alone. */
  lemma {:induction false} OrderIgnoresStatus(before: Table, after: Table, ids: set<JobId>)
    requires ids <= before.Keys && ids <= after.Keys
    requires forall id :: id in ids ==> before[id].created == after[id].created
    ensures OldestFirst(before, ids) == OldestFirst(after, ids)
    decreases ids
  {
    if ids != {} {
      var a, b := OldestFirst(before, ids)[0], OldestFirst(after, ids)[0];
      assert Older(before, a, b) && Older(after, b, a);
      OrderIgnoresStatus(before, after, ids - {a});
    }
  }
}
