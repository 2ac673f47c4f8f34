/** The two grains agree: an operation whose accesses nothing interrupts does what the atomic step of the same name does. */
module Alone {
  import opened JobModel
  import opened Interleaving
  import opened Reaching
  import JobSteps
  import Outcomes

  function Plain(jobs: Table): Rows {
    map id | id in jobs :: Row(jobs[id].task, jobs[id].status)
  }

  /** A state of the atomic steps, with these operations under way. */
  function Fine(s: JobSteps.State, ops: map<Pid, seq<Access>>): State {
    State(s.tasks, Plain(s.jobs), s.queue, s.armed.Keys, s.holding, s.loading, s.exec.Keys, s.exhausted, ops)
  }

  lemma Then(s: State, p: Pid, c: Choice, a: Access, rest: seq<Access>, left: seq<Access>, m: State, r: State)
    requires p in s.ops && s.ops[p] == [a] + rest && Ready(s, a, c) && left == Follow(s, a, c) + rest
    requires m == Effect(s, a, c).(ops := Left(s.ops, p, left)) && Reach(m, r)
    ensures Reach(s, r)
  {
    hide Reach, Follow;
    Does(s, p, c, a, rest, left, Effect(s, a, c));
    assert Now(Effect(s, a, c), p, left) == m;
    ReachTwice(s, m, r);
  }

  lemma LeftLeft(ops: map<Pid, seq<Access>>, p: Pid, some: seq<Access>, rest: seq<Access>)
    requires p in ops
    ensures Left(Left(ops, p, some), p, rest) == Left(ops, p, rest)
  {
  }

  lemma Stays(s: State)
    ensures Reach(s, s)
  {
    assert Leads(s, [], s);
  }

  // ---- Registering ----

  lemma ArmsAlone(s: JobSteps.State, t: TaskName, id: JobId, ops: map<Pid, seq<Access>>, p: Pid, rest: seq<Access>)
    requires p in ops && ops[p] == [StartTicker(t, id)] + rest
    ensures Reach(Fine(s, ops), Fine(JobSteps.Arm(s, t, id), Left(ops, p, rest)))
  {
    hide Reach;
    var f, r := Fine(s, ops), Fine(JobSteps.Arm(s, t, id), Left(ops, p, rest));
    assert [] + rest == rest;
    assert s.armed[t := id].Keys == s.armed.Keys + {t};
    Does(f, p, ANY, StartTicker(t, id), rest, rest, r.(ops := ops));
  }

  /** A stream pushes its rows in order. */
  lemma {:induction false} FeedsAlone(s: JobSteps.State, t: TaskName, ids: seq<JobId>, ops: map<Pid, seq<Access>>, p: Pid, rest: seq<Access>)
    requires p in ops && ops[p] == [Feed(t)] + rest && t in s.queue
    ensures Reach(Fine(s, ops), Fine(JobSteps.Push(s, t, ids), Left(ops, p, rest)))
    decreases |ids|
  {
    hide Reach;
    var f, r := Fine(s, ops), Fine(JobSteps.Push(s, t, ids), Left(ops, p, rest));
    if ids == [] {
      assert JobSteps.Push(s, t, ids) == s by { assert s.queue[t] + [] == s.queue[t]; }
      Stays(r);
      assert [] + rest == rest;
      Then(f, p, ANY, Feed(t), rest, rest, r, r);
    } else {
      var pushing := [PushJob(t, ids[0])] + ([Feed(t)] + rest);
      var next, nextOps := JobSteps.Push(s, t, [ids[0]]), Left(ops, p, [Feed(t)] + rest);
      FeedsAlone(next, t, ids[1..], nextOps, p, rest);
      assert JobSteps.Push(next, t, ids[1..]) == JobSteps.Push(s, t, ids) by {
        assert s.queue[t] + [ids[0]] + ids[1..] == s.queue[t] + ids;
      }
      assert Left(nextOps, p, rest) == Left(ops, p, rest);
      FeedsOne(s, t, ids[0], ops, p, rest, r);
    }
  }

  lemma FeedsOne(s: JobSteps.State, t: TaskName, id: JobId, ops: map<Pid, seq<Access>>, p: Pid, rest: seq<Access>, r: State)
    requires p in ops && ops[p] == [Feed(t)] + rest && t in s.queue
    requires Reach(Fine(JobSteps.Push(s, t, [id]), Left(ops, p, [Feed(t)] + rest)), r)
    ensures Reach(Fine(s, ops), r)
  {
    hide Reach;
    var feed := [Feed(t)] + rest;
    var f, m := Fine(s, ops), Fine(s, Left(ops, p, [PushJob(t, id)] + feed));
    assert [] + feed == feed && [PushJob(t, id), Feed(t)] + rest == [PushJob(t, id)] + feed;
    Then(m, p, ANY, PushJob(t, id), feed, feed, Fine(JobSteps.Push(s, t, [id]), Left(ops, p, feed)), r);
    Then(f, p, ANY.(id := id, more := true), Feed(t), rest, [PushJob(t, id)] + feed, m, r);
  }

  lemma SameQueueing(jobs: Table, id: JobId)
    ensures IsQueueing(Plain(jobs), id) <==> JobSteps.IsQueueing(jobs, id)
  {
  }

  /** `registerNextJob`. */
  lemma {:induction false} RegistersAlone(s: JobSteps.State, withStream: bool, t: TaskName, ops: map<Pid, seq<Access>>, p: Pid, rest: seq<Access>)
    requires p in ops && ops[p] == [Peek(t, withStream)] + rest && t in s.queue
    ensures Reach(Fine(s, ops), Fine(JobSteps.RegisterNext(s, withStream, t), Left(ops, p, rest)))
    decreases withStream, |s.queue[t]|
  {
    hide Reach, Fine;
    var q, again := s.queue[t], Left(ops, p, [Peek(t, false)] + rest);
    var r := Fine(JobSteps.RegisterNext(s, withStream, t), Left(ops, p, rest));
    LeftLeft(ops, p, [Peek(t, false)] + rest, rest);
    if q == [] && !withStream {
      EndsAlone(s, t, ops, p, rest);
    } else if q == [] {
      RegistersAlone(JobSteps.Push(s, t, OldestFirst(s.jobs, Where(s.jobs, t, Queueing))), false, t, again, p, rest);
      StreamsAlone(s, t, ops, p, rest, r);
    } else if JobSteps.IsQueueing(s.jobs, q[0]) {
      var ops1 := Left(ops, p, [StartTicker(t, q[0])] + rest);
      LeftLeft(ops, p, [StartTicker(t, q[0])] + rest, rest);
      ArmsAlone(s, t, q[0], ops1, p, rest);
      LooksAlone(s, withStream, t, ops, p, rest, r);
    } else {
      RegistersAlone(s.(queue := s.queue[t := q[1..]]), false, t, again, p, rest);
      DropsAlone(s, t, ops, p, rest, r);
      LooksAlone(s, withStream, t, ops, p, rest, r);
    }
  }

  lemma EndsAlone(s: JobSteps.State, t: TaskName, ops: map<Pid, seq<Access>>, p: Pid, rest: seq<Access>)
    requires p in ops && ops[p] == [Peek(t, false)] + rest && t in s.queue && s.queue[t] == []
    ensures Reach(Fine(s, ops), Fine(s, Left(ops, p, rest)))
  {
    hide Reach;
    var r := Fine(s, Left(ops, p, rest));
    Stays(r);
    assert [] + rest == rest;
    Then(Fine(s, ops), p, ANY, Peek(t, false), rest, rest, r, r);
  }

  lemma StreamsAlone(s: JobSteps.State, t: TaskName, ops: map<Pid, seq<Access>>, p: Pid, rest: seq<Access>, r: State)
    requires p in ops && ops[p] == [Peek(t, true)] + rest && t in s.queue && s.queue[t] == []
    requires Reach(Fine(JobSteps.Push(s, t, OldestFirst(s.jobs, Where(s.jobs, t, Queueing))), Left(ops, p, [Peek(t, false)] + rest)), r)
    ensures Reach(Fine(s, ops), r)
  {
    hide Reach, OldestFirst;
    var ids, peek := OldestFirst(s.jobs, Where(s.jobs, t, Queueing)), [Peek(t, false)] + rest;
    var ops1, ops2 := Left(ops, p, [Feed(t)] + peek), Left(ops, p, peek);
    FeedsAlone(s, t, ids, ops1, p, peek);
    assert Left(ops1, p, peek) == ops2;
    ReachTwice(Fine(s, ops1), Fine(JobSteps.Push(s, t, ids), ops2), r);
    assert [Feed(t), Peek(t, false)] + rest == [Feed(t)] + peek;
    Then(Fine(s, ops), p, ANY, Peek(t, true), rest, [Feed(t)] + peek, Fine(s, ops1), r);
  }

  lemma DropsAlone(s: JobSteps.State, t: TaskName, ops: map<Pid, seq<Access>>, p: Pid, rest: seq<Access>, r: State)
    requires p in ops && t in s.queue && s.queue[t] != []
    requires Reach(Fine(s.(queue := s.queue[t := s.queue[t][1..]]), Left(ops, p, [Peek(t, false)] + rest)), r)
    ensures Reach(Fine(s, Left(ops, p, [Drop(t)] + rest)), r)
  {
    hide Reach;
    var ops1, ops2 := Left(ops, p, [Drop(t)] + rest), Left(ops, p, [Peek(t, false)] + rest);
    assert Left(ops1, p, [Peek(t, false)] + rest) == ops2;
    Then(Fine(s, ops1), p, ANY, Drop(t), rest, [Peek(t, false)] + rest, Fine(s.(queue := s.queue[t := s.queue[t][1..]]), ops2), r);
  }

  /** It peeks at the head and fetches its row. */
  lemma LooksAlone(s: JobSteps.State, withStream: bool, t: TaskName, ops: map<Pid, seq<Access>>, p: Pid, rest: seq<Access>, r: State)
    requires p in ops && ops[p] == [Peek(t, withStream)] + rest && t in s.queue && s.queue[t] != []
    requires
      var id := s.queue[t][0];
      Reach(Fine(s, Left(ops, p, [if JobSteps.IsQueueing(s.jobs, id) then StartTicker(t, id) else Drop(t)] + rest)), r)
    ensures Reach(Fine(s, ops), r)
  {
    hide Reach;
    var id := s.queue[t][0];
    SameQueueing(s.jobs, id);
    var left := [if JobSteps.IsQueueing(s.jobs, id) then StartTicker(t, id) else Drop(t)] + rest;
    var look := Fine(s, Left(ops, p, [Look(t, id)] + rest));
    Then(look, p, ANY, Look(t, id), rest, left, Fine(s, Left(ops, p, left)), r);
    Then(Fine(s, ops), p, ANY, Peek(t, withStream), rest, [Look(t, id)] + rest, look, r);
  }

  // ---- Adding ----

  /** The push of `AddJob` and what follows it. */
  function Pushed(s: JobSteps.State, t: TaskName, id: JobId): JobSteps.State
    requires t in s.queue
  {
    var q := s.queue[t];
    s.(queue := s.queue[t := q + [id]],
       armed := if q != [] || t in s.exec || id in s.exhausted then s.armed else s.armed[t := id])
  }

  lemma PushesAlone(s: JobSteps.State, t: TaskName, id: JobId, ops: map<Pid, seq<Access>>, p: Pid)
    requires p !in ops && t in s.queue
    ensures Reach(Fine(s, ops[p := [PushNew(t, id)]]), Fine(Pushed(s, t, id), ops))
  {
    hide Reach;
    var q, r := s.queue[t], Fine(Pushed(s, t, id), ops);
    var m := s.(queue := s.queue[t := q + [id]]);
    var f := Fine(s, ops[p := [PushNew(t, id)]]);
    if q != [] {
      Does(f, p, ANY, PushNew(t, id), [], [], Fine(m, f.ops));
      assert Now(Fine(m, f.ops), p, []) == r;
    } else {
      IdlesAlone(m, t, id, ops, p);
      assert (if t in m.exec then m else JobSteps.Arm(m, t, id)) == Pushed(s, t, id);
      Then(f, p, ANY, PushNew(t, id), [], [IfIdle(t, id)], Fine(m, ops[p := [IfIdle(t, id)]]), r);
    }
  }

  lemma IdlesAlone(s: JobSteps.State, t: TaskName, id: JobId, ops: map<Pid, seq<Access>>, p: Pid)
    requires p !in ops
    ensures Reach(Fine(s, ops[p := [IfIdle(t, id)]]), Fine(if t in s.exec then s else JobSteps.Arm(s, t, id), ops))
  {
    hide Reach;
    var f := Fine(s, ops[p := [IfIdle(t, id)]]);
    if t in s.exec {
      Does(f, p, ANY, IfIdle(t, id), [], [], f);
      assert Now(f, p, []) == Fine(s, ops);
    } else {
      var ops1 := ops[p := [StartTicker(t, id)]];
      ArmsAlone(s, t, id, ops1, p, []);
      assert Left(ops1, p, []) == ops;
      Then(f, p, ANY, IfIdle(t, id), [], [StartTicker(t, id)], Fine(s, ops1), Fine(JobSteps.Arm(s, t, id), ops));
    }
  }

  lemma SavesAlone(s: JobSteps.State, t: TaskName, job: Job, id: JobId, ops: map<Pid, seq<Access>>, p: Pid, left: seq<Access>)
    requires p !in ops && t in s.tasks && t in s.queue && id !in s.jobs && id !in s.queue[t]
    requires job.task == t && job.status == if t in s.holding then Hold else Queueing
    requires left == if t in s.holding || t in s.loading then [] else [PushNew(t, id)]
    ensures Reach(Fine(s, ops), Fine(s.(jobs := s.jobs[id := job]), Left(ops[p := []], p, left)))
  {
    hide Reach;
    var save := Save(t, t in s.holding, t in s.loading);
    var f1, f2 := Fine(s, ops[p := [ReadFlags(t)]]), Fine(s, ops[p := [save]]);
    var r := Fine(s.(jobs := s.jobs[id := job]), Left(ops[p := []], p, left));
    Begins(Fine(s, ops), p, AddJob(t), [ReadFlags(t)]);
    Does(f1, p, ANY, ReadFlags(t), [], [save], f1);
    assert Now(f1, p, [save]) == f2;
    ReachTwice(Fine(s, ops), f1, f2);
    SaveAlone(s, t, job, id, f2.ops, p, left);
    assert Left(f2.ops, p, left) == Left(ops[p := []], p, left);
    ReachTwice(Fine(s, ops), f2, r);
  }

  lemma SaveAlone(s: JobSteps.State, t: TaskName, job: Job, id: JobId, ops: map<Pid, seq<Access>>, p: Pid, left: seq<Access>)
    requires t in s.queue && id !in s.jobs && id !in s.queue[t]
    requires p in ops && ops[p] == [Save(t, t in s.holding, t in s.loading)]
    requires job.task == t && job.status == if t in s.holding then Hold else Queueing
    requires left == if t in s.holding || t in s.loading then [] else [PushNew(t, id)]
    ensures Reach(Fine(s, ops), Fine(s.(jobs := s.jobs[id := job]), Left(ops, p, left)))
  {
    hide Reach;
    assert left + [] == left;
    assert Plain(s.jobs[id := job]) == Plain(s.jobs)[id := Row(t, job.status)];
    Does(Fine(s, ops), p, ANY.(id := id), Save(t, t in s.holding, t in s.loading), [], left, Fine(s.(jobs := s.jobs[id := job]), ops));
  }

  /** `AddJob` of a request that is not refused. */
  lemma AddsAlone(s: JobSteps.State, t: TaskName, maxRetry: int, cron: bool, created: int, ops: map<Pid, seq<Access>>, p: Pid)
    requires p !in ops && t in s.tasks && t in s.queue && s.nextId !in s.jobs && s.nextId !in s.queue[t]
    ensures Reach(Fine(s, ops), Fine(JobSteps.Added(s, t, maxRetry, cron, created), ops))
  {
    hide Reach, Increment;
    var id, open := s.nextId, t !in s.holding && t !in s.loading;
    var job := Job(t, if t in s.holding then Hold else Queueing, 0, maxRetry, cron, created);
    var saved := s.(jobs := s.jobs[id := job]);
    var left: seq<Access> := if open then [PushNew(t, id)] else [];
    SavesAlone(s, t, job, id, ops, p, left);
    if open {
      assert Left(ops[p := []], p, left) == ops[p := left];
      PushesAlone(saved, t, id, ops, p);
      ReachTwice(Fine(s, ops), Fine(saved, ops[p := left]), Fine(Pushed(saved, t, id), ops));
    } else {
      assert Left(ops[p := []], p, left) == ops;
    }
  }

  // ---- Bulk retry and release ----

  /** The rows become QUEUEING, one status after the other. */
  lemma {:induction false} RewritesAlone(s: JobSteps.State, incr: Increments, t: TaskName, statuses: seq<Status>, within: set<JobId>,
                                         ops: map<Pid, seq<Access>>, p: Pid, rest: seq<Access>)
    requires p in ops && ops[p] == Rewrites(t, statuses, Queueing) + rest && rest != []
    ensures
      var jobs := JobSteps.MoveAll(s.jobs, incr, t, statuses, within, Queueing, true).0;
      Reach(Fine(s, ops), Fine(s.(jobs := jobs), ops[p := rest]))
    decreases |statuses|
  {
    hide Reach, Fine, JobSteps.AddAt, JobSteps.SetStatus, Where;
    if statuses == [] {
      assert [] + rest == rest;
      assert ops[p := rest] == ops && s.(jobs := s.jobs) == s;
      Stays(Fine(s, ops));
    } else {
      var st, more := statuses[0], Rewrites(t, statuses[1..], Queueing) + rest;
      var ids := Where(s.jobs, t, st) * within;
      var next := JobSteps.SetStatus(s.jobs, ids, Queueing, true);
      var incr1 := JobSteps.AddAt(JobSteps.AddAt(incr, Lower(st), -|ids|), Lower(Queueing), |ids|);
      RewritesAlone(s.(jobs := next), incr1, t, statuses[1..], within, ops[p := more], p, rest);
      assert ops[p := more][p := rest] == ops[p := rest];
      RewriteAlone(s, t, st, within, ops, p, more);
      ReachTwice(Fine(s, ops), Fine(s.(jobs := next), ops[p := more]),
        Fine(s.(jobs := JobSteps.MoveAll(s.jobs, incr, t, statuses, within, Queueing, true).0), ops[p := rest]));
    }
  }

  lemma RewriteAlone(s: JobSteps.State, t: TaskName, st: Status, within: set<JobId>, ops: map<Pid, seq<Access>>, p: Pid, more: seq<Access>)
    requires p in ops && ops[p] == [Rewrite(t, st, Queueing)] + more && more != []
    ensures
      var next := JobSteps.SetStatus(s.jobs, Where(s.jobs, t, st) * within, Queueing, true);
      Reach(Fine(s, ops), Fine(s.(jobs := next), ops[p := more]))
  {
    hide Reach;
    var next := JobSteps.SetStatus(s.jobs, Where(s.jobs, t, st) * within, Queueing, true);
    var c := ANY.(rows := within);
    assert [] + more == more;
    assert Effect(Fine(s, ops), Rewrite(t, st, Queueing), c).jobs == Plain(next);
    Does(Fine(s, ops), p, c, Rewrite(t, st, Queueing), more, more, Fine(s.(jobs := next), ops));
  }

  lemma LoadsAlone(s: JobSteps.State, t: TaskName, on: bool, ops: map<Pid, seq<Access>>, p: Pid, rest: seq<Access>)
    requires p in ops && ops[p] == [SetLoading(t, on)] + rest && rest != []
    ensures Reach(Fine(s, ops), Fine(s.(loading := if on then s.loading + {t} else s.loading - {t}), ops[p := rest]))
  {
    hide Reach;
    assert [] + rest == rest;
    Does(Fine(s, ops), p, ANY, SetLoading(t, on), rest, rest, Fine(s.(loading := if on then s.loading + {t} else s.loading - {t}), ops));
  }

  /** The second half of a bulk retry or release. */
  lemma MovesAlone(s: JobSteps.State, t: TaskName, statuses: seq<Status>, within: set<JobId>, ops: map<Pid, seq<Access>>, p: Pid)
    requires p in ops && ops[p] == Rewrites(t, statuses, Queueing) + [SetLoading(t, false), Peek(t, false)] && t in s.queue
    ensures Reach(Fine(s, ops), Fine(JobSteps.Move(s, t, statuses, within), ops - {p}))
  {
    hide Reach, JobSteps.MoveAll, Increment;
    var down, peek := [SetLoading(t, false), Peek(t, false)], [Peek(t, false)];
    var moved := s.(jobs := JobSteps.MoveAll(s.jobs, map[], t, statuses, within, Queueing, true).0);
    var lowered := moved.(loading := s.loading - {t});
    RewritesAlone(s, map[], t, statuses, within, ops, p, down);
    assert down == [SetLoading(t, false)] + peek && ops[p := down][p := peek] == ops[p := peek];
    LoadsAlone(moved, t, false, ops[p := down], p, peek);
    ReachTwice(Fine(s, ops), Fine(moved, ops[p := down]), Fine(lowered, ops[p := peek]));
    var counted := JobSteps.Requeue(s, t, statuses, within);
    assert Fine(counted, ops[p := peek]) == Fine(lowered, ops[p := peek]);
    assert peek == peek + [] && Left(ops[p := peek], p, []) == ops - {p};
    RegistersAlone(counted, false, t, ops[p := peek], p, []);
    ReachTwice(Fine(s, ops), Fine(lowered, ops[p := peek]), Fine(JobSteps.Move(s, t, statuses, within), ops - {p}));
  }

  /** The first half. */
  lemma StreamRowsAlone(s: JobSteps.State, t: TaskName, statuses: seq<Status>, within: set<JobId>, ops: map<Pid, seq<Access>>, p: Pid)
    requires p in ops && ops[p] == Requeue(t, statuses) && t in s.queue
    ensures Reach(Fine(s, ops), Fine(JobSteps.Stream(s, t, statuses, within),
                                     ops[p := Rewrites(t, statuses, Queueing) + [SetLoading(t, false), Peek(t, false)]]))
  {
    hide Reach, OldestFirst;
    var rest := Rewrites(t, statuses, Queueing) + [SetLoading(t, false), Peek(t, false)];
    var feed := [Feed(t)] + rest;
    assert Requeue(t, statuses) == [SetLoading(t, true)] + feed;
    LoadsAlone(s, t, true, ops, p, feed);
    var up := s.(loading := s.loading + {t});
    var ids := OldestFirst(s.jobs, JobSteps.Selected(s, t, statuses, within));
    FeedsAlone(up, t, ids, ops[p := feed], p, rest);
    assert Left(ops[p := feed], p, rest) == ops[p := rest];
    ReachTwice(Fine(s, ops), Fine(up, ops[p := feed]), Fine(JobSteps.Push(up, t, ids), ops[p := rest]));
  }

  /** `RetryAllJob`. */
  lemma RetriesAllAlone(s: JobSteps.State, t: TaskName, asked: seq<Status>, within: set<JobId>, ops: map<Pid, seq<Access>>, p: Pid)
    requires p !in ops && t in s.queue
    ensures Reach(Fine(s, ops), Fine(JobSteps.RetryAll(s, t, asked, within), ops))
  {
    hide Reach, JobSteps.Move, JobSteps.Stream;
    var statuses := if asked == [] then [Failure, Stopped] else asked;
    var ops1 := ops[p := Requeue(t, statuses)];
    Begins(Fine(s, ops), p, RetryAllJob(t, statuses), Requeue(t, statuses));
    RequeuesAlone(s, t, statuses, within, ops1, p);
    assert ops1 - {p} == ops;
    ReachTwice(Fine(s, ops), Fine(s, ops1), Fine(JobSteps.RetryAll(s, t, asked, within), ops));
  }

  lemma StreamKeepsQueue(s: JobSteps.State, t: TaskName, statuses: seq<Status>, within: set<JobId>)
    ensures t in JobSteps.Stream(s, t, statuses, within).queue
  {
    hide OldestFirst;
  }

  lemma RequeuesAlone(s: JobSteps.State, t: TaskName, statuses: seq<Status>, within: set<JobId>, ops: map<Pid, seq<Access>>, p: Pid)
    requires p in ops && ops[p] == Requeue(t, statuses) && t in s.queue
    ensures Reach(Fine(s, ops), Fine(JobSteps.Move(JobSteps.Stream(s, t, statuses, within), t, statuses, within), ops - {p}))
  {
    hide Reach, JobSteps.Move, JobSteps.Stream;
    var streamed := JobSteps.Stream(s, t, statuses, within);
    StreamKeepsQueue(s, t, statuses, within);
    var rest := Rewrites(t, statuses, Queueing) + [SetLoading(t, false), Peek(t, false)];
    StreamRowsAlone(s, t, statuses, within, ops, p);
    MovesAlone(streamed, t, statuses, within, ops[p := rest], p);
    assert ops[p := rest] - {p} == ops - {p};
    ReachTwice(Fine(s, ops), Fine(streamed, ops[p := rest]), Fine(JobSteps.Move(streamed, t, statuses, within), ops - {p}));
  }

  /** `HoldJobTask`. */
  lemma HoldsAlone(s: JobSteps.State, t: TaskName, ops: map<Pid, seq<Access>>, p: Pid)
    requires p !in ops && t in s.tasks && t in s.queue
    ensures Reach(Fine(s, ops), Fine(JobSteps.ToggleHold(s, t), ops))
  {
    hide Reach, JobSteps.Move, JobSteps.Stream;
    if t in s.holding {
      var requeue := Requeue(t, [Hold]);
      var ops1, ops2 := ops[p := [SetHold(t, false)] + requeue], ops[p := requeue];
      Begins(Fine(s, ops), p, HoldJobTask(t), [SetHold(t, false)] + requeue);
      var off := s.(holding := s.holding - {t});
      HeldAlone(s, t, false, ops1, p, requeue);
      assert Left(ops1, p, requeue) == ops2;
      ReachTwice(Fine(s, ops), Fine(s, ops1), Fine(off, ops2));
      RequeuesAlone(off, t, [Hold], s.jobs.Keys, ops2, p);
      assert ops2 - {p} == ops;
      ReachTwice(Fine(s, ops), Fine(off, ops2), Fine(JobSteps.ToggleHold(s, t), ops));
    } else {
      var ops1 := ops[p := [SetHold(t, true)]];
      Begins(Fine(s, ops), p, HoldJobTask(t), [SetHold(t, true)]);
      HeldAlone(s, t, true, ops1, p, []);
      assert Left(ops1, p, []) == ops;
      ReachTwice(Fine(s, ops), Fine(s, ops1), Fine(JobSteps.ToggleHold(s, t), ops));
    }
  }

  lemma HeldAlone(s: JobSteps.State, t: TaskName, on: bool, ops: map<Pid, seq<Access>>, p: Pid, rest: seq<Access>)
    requires p in ops && ops[p] == [SetHold(t, on)] + rest
    ensures Reach(Fine(s, ops), Fine(s.(holding := if on then s.holding + {t} else s.holding - {t}), Left(ops, p, rest)))
  {
    hide Reach;
    assert [] + rest == rest;
    Does(Fine(s, ops), p, ANY, SetHold(t, on), rest, rest, Fine(s.(holding := if on then s.holding + {t} else s.holding - {t}), ops));
  }

  // ---- Single accesses ----

  /** An access that only adds accesses. */
  lemma Expands(f: State, p: Pid, c: Choice, a: Access, rest: seq<Access>, left: seq<Access>, r: State)
    requires p in f.ops && f.ops[p] == [a] + rest && Ready(f, a, c) && left == Follow(f, a, c) + rest && left != []
    requires Effect(f, a, c) == f && Reach(f.(ops := f.ops[p := left]), r)
    ensures Reach(f, r)
  {
    hide Reach, Follow, Effect;
    Then(f, p, c, a, rest, left, f.(ops := f.ops[p := left]), r);
  }

  lemma SetsRowThen(f: State, p: Pid, id: JobId, st: Status, rest: seq<Access>, r: State)
    requires p in f.ops && f.ops[p] == [SetRow(id, st)] + rest && rest != []
    requires Reach(f.(jobs := WithStatus(f.jobs, id, st), ops := f.ops[p := rest]), r)
    ensures Reach(f, r)
  {
    hide Reach;
    assert [] + rest == rest;
    Then(f, p, ANY, SetRow(id, st), rest, rest, f.(jobs := WithStatus(f.jobs, id, st), ops := f.ops[p := rest]), r);
  }

  lemma RemovesThen(f: State, p: Pid, c: Choice, rest: seq<Access>, r: State)
    requires p in f.ops && f.ops[p] == [Remove] + rest && rest != []
    requires Reach(f.(jobs := f.jobs - c.rows, ops := f.ops[p := rest]), r)
    ensures Reach(f, r)
  {
    hide Reach;
    assert [] + rest == rest;
    Then(f, p, c, Remove, rest, rest, f.(jobs := f.jobs - c.rows, ops := f.ops[p := rest]), r);
  }

  lemma PushesThen(f: State, p: Pid, t: TaskName, id: JobId, rest: seq<Access>, r: State)
    requires p in f.ops && f.ops[p] == [PushJob(t, id)] + rest && rest != []
    requires Reach(f.(queue := f.queue[t := QueueOf(f, t) + [id]], ops := f.ops[p := rest]), r)
    ensures Reach(f, r)
  {
    hide Reach;
    assert [] + rest == rest;
    Then(f, p, ANY, PushJob(t, id), rest, rest, f.(queue := f.queue[t := QueueOf(f, t) + [id]], ops := f.ops[p := rest]), r);
  }

  lemma TakesThen(f: State, p: Pid, t: TaskName, id: JobId, rest: seq<Access>, r: State)
    requires p in f.ops && f.ops[p] == [Take(t)] + rest && QueueOf(f, t) != [] && id == QueueOf(f, t)[0]
    requires Reach(f.(queue := f.queue[t := QueueOf(f, t)[1..]], ops := f.ops[p := [Fetch(t, id)] + rest]), r)
    ensures Reach(f, r)
  {
    hide Reach;
    var left := [Fetch(t, id)] + rest;
    Then(f, p, ANY, Take(t), rest, left, f.(queue := f.queue[t := QueueOf(f, t)[1..]], ops := f.ops[p := left]), r);
  }

  lemma FetchesThen(f: State, p: Pid, t: TaskName, id: JobId, close: seq<Access>, r: State)
    requires p in f.ops && f.ops[p] == [Fetch(t, id)] + close && IsQueueing(f.jobs, id)
    requires Reach(f.(ops := f.ops[p := [SetRow(id, Retrying)] + ([Handle(t, id)] + close)]), r)
    ensures Reach(f, r)
  {
    hide Reach;
    assert [SetRow(id, Retrying), Handle(t, id)] + close == [SetRow(id, Retrying)] + ([Handle(t, id)] + close);
    Expands(f, p, ANY, Fetch(t, id), close, [SetRow(id, Retrying)] + ([Handle(t, id)] + close), r);
  }

  /** The head is taken, still queueing, and becomes RETRYING. */
  lemma PopsThen(f: State, p: Pid, t: TaskName, id: JobId, close: seq<Access>, r: State)
    requires p in f.ops && f.ops[p] == [Take(t)] + close && QueueOf(f, t) != [] && id == QueueOf(f, t)[0] && IsQueueing(f.jobs, id)
    requires Reach(f.(queue := f.queue[t := QueueOf(f, t)[1..]], jobs := WithStatus(f.jobs, id, Retrying),
                      ops := f.ops[p := [Handle(t, id)] + close]), r)
    ensures Reach(f, r)
  {
    hide Reach;
    var handle := [Handle(t, id)] + close;
    var f1 := f.(queue := f.queue[t := QueueOf(f, t)[1..]], ops := f.ops[p := [Fetch(t, id)] + close]);
    var f2 := f1.(ops := f.ops[p := [SetRow(id, Retrying)] + handle]);
    assert f2.ops[p := handle] == f.ops[p := handle] && f1.ops[p := [SetRow(id, Retrying)] + handle] == f2.ops;
    SetsRowThen(f2, p, id, Retrying, handle, r);
    FetchesThen(f1, p, t, id, close, r);
    TakesThen(f, p, t, id, close, r);
  }

  lemma NothingThen(f: State, p: Pid, t: TaskName, close: seq<Access>, r: State)
    requires p in f.ops && f.ops[p] == [Take(t)] + close && QueueOf(f, t) == [] && close != [] && Reach(f.(ops := f.ops[p := close]), r)
    ensures Reach(f, r)
  {
    hide Reach;
    assert [] + close == close;
    Expands(f, p, ANY, Take(t), close, close, r);
  }

  /** The head is taken and is stale. */
  lemma StaleThen(f: State, p: Pid, t: TaskName, id: JobId, close: seq<Access>, r: State)
    requires p in f.ops && f.ops[p] == [Take(t)] + close && QueueOf(f, t) != [] && id == QueueOf(f, t)[0] && !IsQueueing(f.jobs, id)
    requires close != [] && Reach(f.(queue := f.queue[t := QueueOf(f, t)[1..]], ops := f.ops[p := close]), r)
    ensures Reach(f, r)
  {
    hide Reach;
    var f1 := f.(queue := f.queue[t := QueueOf(f, t)[1..]], ops := f.ops[p := [Fetch(t, id)] + close]);
    assert f1.ops[p := close] == f.ops[p := close] && [] + close == close;
    Expands(f1, p, ANY, Fetch(t, id), close, close, r);
    TakesThen(f, p, t, id, close, r);
  }

  lemma AcquiresThen(f: State, p: Pid, t: TaskName, rest: seq<Access>, r: State)
    requires p in f.ops && f.ops[p] == [Acquire(t)] + rest && rest != [] && t !in f.busy
    requires Reach(f.(busy := f.busy + {t}, ops := f.ops[p := rest]), r)
    ensures Reach(f, r)
  {
    hide Reach;
    assert [] + rest == rest;
    Then(f, p, ANY, Acquire(t), rest, rest, f.(busy := f.busy + {t}, ops := f.ops[p := rest]), r);
  }

  lemma EndsHandler(f: State, p: Pid, t: TaskName, id: JobId, c: Choice, left: seq<Access>, close: seq<Access>, r: State)
    requires p in f.ops && f.ops[p] == [Handle(t, id)] + close && close != []
    requires left == match c.ending {
               case Unwritten => close
               case Deleted => [Remove] + close
               case Final(st) => if st == Queueing then [PushJob(t, id)] + ([SetRow(id, st)] + close) else [SetRow(id, st)] + close
             }
    requires Reach(f.(ops := f.ops[p := left]), r)
    ensures Reach(f, r)
  {
    hide Reach;
    assert [] + close == close;
    assert [PushJob(t, id), SetRow(id, Queueing)] + close == [PushJob(t, id)] + ([SetRow(id, Queueing)] + close);
    Expands(f, p, c, Handle(t, id), close, left, r);
  }

  // ---- Executions ----

  /** What every execution ends with. */
  function Closing(t: TaskName): seq<Access> {
    [Free(t), Peek(t, true)]
  }

  /** An execution in its handler, as the atomic steps leave it between start and finish. */
  function Handling(t: TaskName, id: JobId): seq<Access> {
    [Handle(t, id)] + Closing(t)
  }

  /** The semaphore is freed and the next job registered: `exec` no longer holds the task. */
  lemma ClosesAlone(s: JobSteps.State, t: TaskName, busy: set<TaskName>, ops: map<Pid, seq<Access>>, p: Pid)
    requires p in ops && ops[p] == Closing(t) && t in s.queue && busy - {t} == s.exec.Keys
    ensures Reach(Fine(s, ops).(busy := busy), Fine(JobSteps.RegisterNext(s, true, t), ops - {p}))
  {
    hide Reach, JobSteps.RegisterNext;
    var peek := [Peek(t, true)];
    var f := Fine(s, ops).(busy := busy);
    assert Closing(t) == [Free(t)] + peek && [] + peek == peek && peek + [] == peek;
    Does(f, p, ANY, Free(t), peek, peek, f.(busy := busy - {t}));
    assert Now(f.(busy := busy - {t}), p, peek) == Fine(s, ops[p := peek]);
    RegistersAlone(s, true, t, ops[p := peek], p, []);
    assert Left(ops[p := peek], p, []) == ops - {p};
    ReachTwice(f, Fine(s, ops[p := peek]), Fine(JobSteps.RegisterNext(s, true, t), ops - {p}));
  }

  /** How an outcome ends the handler's accesses. */
  function EndingOf(job: Job, outcome: JobSteps.Outcome, del: bool): Ending {
    if outcome.Cancelled? then Unwritten
    else if del && JobSteps.FinalStatus(job, outcome) == Success then Deleted
    else Final(JobSteps.FinalStatus(job, outcome))
  }

  /** The write-back, with the execution still holding the semaphore. */
  lemma WritesAlone(s: JobSteps.State, t: TaskName, outcome: JobSteps.Outcome, del: bool, ops: map<Pid, seq<Access>>, p: Pid)
    requires t in s.exec && t in s.queue && s.exec[t].job.task == t && p in ops && ops[p] == Handling(t, s.exec[t].id)
    ensures Reach(Fine(s, ops), Fine(JobSteps.WriteBack(s, t, outcome, del), ops[p := Closing(t)]).(busy := s.exec.Keys))
  {
    hide Reach, Increment;
    var id, job := s.exec[t].id, s.exec[t].job;
    var ending, close := EndingOf(job, outcome, del), Closing(t);
    var c := ANY.(ending := ending, rows := {id});
    var f, r := Fine(s, ops), Fine(JobSteps.WriteBack(s, t, outcome, del), ops[p := close]).(busy := s.exec.Keys);
    assert [] + close == close;
    if ending.Unwritten? {
      Does(f, p, c, Handle(t, id), close, close, f);
      assert Now(f, p, close) == r;
    } else if ending.Deleted? {
      DeletesAlone(s, t, id, ops, p, close, c);
      assert r.jobs == Plain(s.jobs) - {id};
    } else if ending.status == Queueing {
      RequeuesRowAlone(s, t, id, ops, p, close, c);
      assert r.jobs == WithStatus(Plain(s.jobs), id, Queueing);
    } else {
      SetsRowAlone(s, t, id, ending.status, ops, p, close, c);
      assert r.jobs == WithStatus(Plain(s.jobs), id, ending.status);
    }
  }

  lemma DeletesAlone(s: JobSteps.State, t: TaskName, id: JobId, ops: map<Pid, seq<Access>>, p: Pid, close: seq<Access>, c: Choice)
    requires p in ops && ops[p] == [Handle(t, id)] + close && close != [] && c.ending == Deleted && c.rows == {id}
    ensures Reach(Fine(s, ops), Fine(s, ops[p := close]).(jobs := Plain(s.jobs) - {id}))
  {
    hide Reach;
    var f, r := Fine(s, ops), Fine(s, ops[p := close]).(jobs := Plain(s.jobs) - {id});
    var m := Fine(s, ops[p := [Remove] + close]);
    Stays(r);
    assert m.ops[p := close] == ops[p := close];
    RemovesThen(m, p, c, close, r);
    EndsHandler(f, p, t, id, c, [Remove] + close, close, r);
  }

  lemma SetsRowAlone(s: JobSteps.State, t: TaskName, id: JobId, st: Status, ops: map<Pid, seq<Access>>, p: Pid, close: seq<Access>, c: Choice)
    requires p in ops && ops[p] == [Handle(t, id)] + close && close != [] && c.ending == Final(st) && st != Queueing
    ensures Reach(Fine(s, ops), Fine(s, ops[p := close]).(jobs := WithStatus(Plain(s.jobs), id, st)))
  {
    hide Reach;
    var f, r := Fine(s, ops), Fine(s, ops[p := close]).(jobs := WithStatus(Plain(s.jobs), id, st));
    var m := Fine(s, ops[p := [SetRow(id, st)] + close]);
    Stays(r);
    assert m.ops[p := close] == ops[p := close];
    SetsRowThen(m, p, id, st, close, r);
    EndsHandler(f, p, t, id, c, [SetRow(id, st)] + close, close, r);
  }

  lemma RequeuesRowAlone(s: JobSteps.State, t: TaskName, id: JobId, ops: map<Pid, seq<Access>>, p: Pid, close: seq<Access>, c: Choice)
    requires p in ops && ops[p] == [Handle(t, id)] + close && close != [] && c.ending == Final(Queueing) && t in s.queue
    ensures Reach(Fine(s, ops), Fine(JobSteps.Push(s, t, [id]), ops[p := close]).(jobs := WithStatus(Plain(s.jobs), id, Queueing)))
  {
    hide Reach;
    var row := [SetRow(id, Queueing)] + close;
    var f, pushed := Fine(s, ops), JobSteps.Push(s, t, [id]);
    var m1, m2 := Fine(s, ops[p := [PushJob(t, id)] + row]), Fine(pushed, ops[p := row]);
    var r := Fine(pushed, ops[p := close]).(jobs := WithStatus(Plain(s.jobs), id, Queueing));
    Stays(r);
    assert m2.ops[p := close] == ops[p := close] && m1.ops[p := row] == ops[p := row];
    SetsRowThen(m2, p, id, Queueing, close, r);
    PushesThen(m1, p, t, id, row, r);
    EndsHandler(f, p, t, id, c, [PushJob(t, id)] + row, close, r);
  }

  /** The second half of `execJob`. */
  lemma FinishesAlone(s: JobSteps.State, t: TaskName, outcome: JobSteps.Outcome, del: bool, ops: map<Pid, seq<Access>>, p: Pid)
    requires t in s.exec && t in s.queue && s.exec[t].job.task == t && p in ops && ops[p] == Handling(t, s.exec[t].id)
    ensures Reach(Fine(s, ops), Fine(JobSteps.Finish(s, t, outcome, del), ops - {p}))
  {
    var written := JobSteps.WriteBack(s, t, outcome, del);
    WrittenShape(s, t, outcome, del);
    hide Reach, JobSteps.WriteBack, JobSteps.RegisterNext;
    WritesAlone(s, t, outcome, del, ops, p);
    ClosesAlone(written, t, s.exec.Keys, ops[p := Closing(t)], p);
    assert ops[p := Closing(t)] - {p} == ops - {p};
    ReachTwice(Fine(s, ops), Fine(written, ops[p := Closing(t)]).(busy := s.exec.Keys), Fine(JobSteps.Finish(s, t, outcome, del), ops - {p}));
  }

  lemma WrittenShape(s: JobSteps.State, t: TaskName, outcome: JobSteps.Outcome, del: bool)
    requires t in s.exec && t in s.queue && s.exec[t].job.task == t
    ensures var r := JobSteps.WriteBack(s, t, outcome, del); t in r.queue && r.exec.Keys == s.exec.Keys - {t}
  {
    hide Increment;
  }

  /** `triggerTask` up to the semaphore, with the task not on hold and the lock free. */
  lemma TriggersAlone(s: JobSteps.State, t: TaskName, ops: map<Pid, seq<Access>>, p: Pid)
    requires p !in ops && t in s.armed && t !in s.holding && t !in s.exec
    ensures Reach(Fine(s, ops), Fine(s.(armed := s.armed - {t}), ops[p := [Take(t)] + Closing(t)]).(busy := s.exec.Keys + {t}))
  {
    hide Reach;
    var off := s.(armed := s.armed - {t});
    var f, f1 := Fine(s, ops), Fine(s, ops[p := [StopTicker(t), ReadHold(t)]]);
    var lock := [TryLock(t)] + Closing(t);
    var f2, f3 := Fine(off, ops[p := [ReadHold(t)]]), Fine(off, ops[p := [Acquire(t)] + lock]);
    var f4 := Fine(off, ops[p := lock]).(busy := s.exec.Keys + {t});
    var r := Fine(off, ops[p := [Take(t)] + Closing(t)]).(busy := s.exec.Keys + {t});
    Begins(f, p, TriggerTask(t), [StopTicker(t), ReadHold(t)]);
    TakesAlone(off, t, ops, p);
    assert [StopTicker(t), ReadHold(t)] == [StopTicker(t)] + [ReadHold(t)] && [] + [ReadHold(t)] == [ReadHold(t)];
    assert (s.armed - {t}).Keys == s.armed.Keys - {t};
    Then(f1, p, ANY, StopTicker(t), [ReadHold(t)], [ReadHold(t)], f2, r);
    ReachTwice(f, f1, r);
  }

  lemma TakesAlone(s: JobSteps.State, t: TaskName, ops: map<Pid, seq<Access>>, p: Pid)
    requires p !in ops && t !in s.holding && t !in s.exec
    ensures Reach(Fine(s, ops[p := [ReadHold(t)]]), Fine(s, ops[p := [Take(t)] + Closing(t)]).(busy := s.exec.Keys + {t}))
  {
    hide Reach;
    var lock := [TryLock(t)] + Closing(t);
    var f2, f3 := Fine(s, ops[p := [ReadHold(t)]]), Fine(s, ops[p := [Acquire(t)] + lock]);
    var f4 := Fine(s, ops[p := lock]).(busy := s.exec.Keys + {t});
    var r := Fine(s, ops[p := [Take(t)] + Closing(t)]).(busy := s.exec.Keys + {t});
    Stays(r);
    assert f4.ops[p := [Take(t)] + Closing(t)] == r.ops && f3.ops[p := lock] == f4.ops && f2.ops[p := [Acquire(t)] + lock] == f3.ops;
    Expands(f4, p, ANY, TryLock(t), Closing(t), [Take(t)] + Closing(t), r);
    AcquiresThen(f3, p, t, lock, r);
    assert [Acquire(t), TryLock(t), Free(t), Peek(t, true)] + [] == [Acquire(t)] + lock;
    Expands(f2, p, ANY, ReadHold(t), [], [Acquire(t)] + lock, r);
  }

  /** The first half of `execJob`, for a job that is still queueing: the handler runs. */
  lemma StartsAlone(s: JobSteps.State, t: TaskName, ops: map<Pid, seq<Access>>, p: Pid)
    requires p !in ops && t in s.armed && t !in s.exec && t in s.queue && JobSteps.Runnable(s, t)
    ensures Reach(Fine(s, ops), Fine(JobSteps.Start(s, t, true), ops[p := Handling(t, s.queue[t][0])]))
  {
    StartedShape(s, t, ops[p := Handling(t, s.queue[t][0])]);
    hide Reach, JobSteps.Start;
    var off := s.(armed := s.armed - {t});
    var id, busy := s.queue[t][0], s.exec.Keys + {t};
    var close := Closing(t);
    var r := Fine(JobSteps.Start(s, t, true), ops[p := Handling(t, id)]);
    var f := Fine(off, ops[p := [Take(t)] + close]).(busy := busy);
    TriggersAlone(s, t, ops, p);
    PopsAlone(off, t, id, busy, ops, p);
    ReachTwice(Fine(s, ops), f, r);
  }

  lemma StartedShape(s: JobSteps.State, t: TaskName, ops: map<Pid, seq<Access>>)
    requires t !in s.exec && t in s.queue && JobSteps.Runnable(s, t)
    ensures
      var id, popped := s.queue[t][0], s.(armed := s.armed - {t}, queue := s.queue[t := s.queue[t][1..]]);
      Fine(JobSteps.Start(s, t, true), ops) ==
        Fine(popped, ops).(busy := s.exec.Keys + {t}, jobs := WithStatus(Plain(s.jobs), id, Retrying))
  {
    hide Increment;
    var r := JobSteps.Start(s, t, true);
    assert r.exec.Keys == s.exec.Keys + {t};
    assert Plain(r.jobs) == WithStatus(Plain(s.jobs), s.queue[t][0], Retrying);
  }

  lemma PopsAlone(s: JobSteps.State, t: TaskName, id: JobId, busy: set<TaskName>, ops: map<Pid, seq<Access>>, p: Pid)
    requires p !in ops && t in s.queue && s.queue[t] != [] && s.queue[t][0] == id && JobSteps.IsQueueing(s.jobs, id)
    ensures
      var popped := s.(queue := s.queue[t := s.queue[t][1..]]);
      Reach(Fine(s, ops[p := [Take(t)] + Closing(t)]).(busy := busy),
            Fine(popped, ops[p := Handling(t, id)]).(busy := busy, jobs := WithStatus(Plain(s.jobs), id, Retrying)))
  {
    hide Reach;
    var popped, close := s.(queue := s.queue[t := s.queue[t][1..]]), Closing(t);
    var f := Fine(s, ops[p := [Take(t)] + close]).(busy := busy);
    var r := Fine(popped, ops[p := Handling(t, id)]).(busy := busy, jobs := WithStatus(Plain(s.jobs), id, Retrying));
    Stays(r);
    SameQueueing(s.jobs, id);
    assert f.ops[p := Handling(t, id)] == r.ops;
    PopsThen(f, p, t, id, close, r);
  }

  /** The starts that run no handler: an empty queue, a stale head, or a task without handlers. */
  lemma SkipsAlone(s: JobSteps.State, t: TaskName, hasHandler: bool, ops: map<Pid, seq<Access>>, p: Pid)
    requires p !in ops && t in s.armed && t !in s.holding && t !in s.exec && t in s.queue && !(JobSteps.Runnable(s, t) && hasHandler)
    ensures Reach(Fine(s, ops), Fine(JobSteps.Start(s, t, hasHandler), ops))
  {
    var begun := JobSteps.Begin(s, t, hasHandler);
    BegunShape(s, t, hasHandler);
    hide Reach, JobSteps.Begin, JobSteps.RegisterNext;
    var close, busy := Closing(t), s.exec.Keys + {t};
    var off := s.(armed := s.armed - {t});
    var f, m := Fine(off, ops[p := [Take(t)] + close]).(busy := busy), Fine(begun, ops[p := close]).(busy := busy);
    TriggersAlone(s, t, ops, p);
    SkipsTo(s, off, t, busy, ops, p, begun);
    ReachTwice(Fine(s, ops), f, m);
    assert busy - {t} == begun.exec.Keys && ops[p := close] - {p} == ops;
    ClosesAlone(begun, t, busy, ops[p := close], p);
    ReachTwice(Fine(s, ops), m, Fine(JobSteps.Start(s, t, hasHandler), ops));
  }

  lemma BegunShape(s: JobSteps.State, t: TaskName, hasHandler: bool)
    requires t !in s.holding && t in s.queue && !(JobSteps.Runnable(s, t) && hasHandler)
    ensures
      var r := JobSteps.Begin(s, t, hasHandler);
      && t in r.queue && r.exec == s.exec && r.armed == s.armed - {t}
      && r.tasks == s.tasks && r.holding == s.holding && r.loading == s.loading && r.exhausted == s.exhausted
      && r.queue == (if s.queue[t] == [] then s.queue else s.queue[t := s.queue[t][1..]])
      && Plain(r.jobs) == if JobSteps.Runnable(s, t) then WithStatus(Plain(s.jobs), s.queue[t][0], Retrying) else Plain(s.jobs)
  {
    hide Increment, Plain;
    if JobSteps.Runnable(s, t) { RetryingRow(s.jobs, s.queue[t][0]); }
  }

  lemma RetryingRow(jobs: Table, id: JobId)
    requires id in jobs
    ensures Plain(jobs[id := jobs[id].(status := Retrying)]) == WithStatus(Plain(jobs), id, Retrying)
  {
  }

  lemma SkipsTo(s: JobSteps.State, off: JobSteps.State, t: TaskName, busy: set<TaskName>, ops: map<Pid, seq<Access>>, p: Pid, begun: JobSteps.State)
    requires p !in ops && t in s.queue && t !in s.holding && off == s.(armed := s.armed - {t})
    requires begun.exec == s.exec && begun.armed == off.armed && begun.tasks == s.tasks && begun.holding == s.holding
    requires begun.loading == s.loading && begun.exhausted == s.exhausted
    requires begun.queue == if s.queue[t] == [] then s.queue else s.queue[t := s.queue[t][1..]]
    requires Plain(begun.jobs) == if JobSteps.Runnable(s, t) then WithStatus(Plain(s.jobs), s.queue[t][0], Retrying) else Plain(s.jobs)
    ensures Reach(Fine(off, ops[p := [Take(t)] + Closing(t)]).(busy := busy), Fine(begun, ops[p := Closing(t)]).(busy := busy))
  {
    hide Reach, Plain;
    var q, close := s.queue[t], Closing(t);
    var f, r := Fine(off, ops[p := [Take(t)] + close]).(busy := busy), Fine(begun, ops[p := close]).(busy := busy);
    Stays(r);
    assert f.ops[p := close] == r.ops;
    if q == [] {
      NothingThen(f, p, t, close, r);
    } else {
      var id := q[0];
      SameQueueing(s.jobs, id);
      if JobSteps.IsQueueing(s.jobs, id) {
        var handling := Fine(begun, ops[p := Handling(t, id)]).(busy := busy);
        assert handling.ops[p := close] == r.ops && f.ops[p := Handling(t, id)] == handling.ops;
        EndsHandler(handling, p, t, id, ANY, close, close, r);
        PopsThen(f, p, t, id, close, r);
      } else {
        StaleThen(f, p, t, id, close, r);
      }
    }
  }

  /** A trigger of a task on hold stops its ticker and gives up. */
  lemma GivesUpAlone(s: JobSteps.State, t: TaskName, hasHandler: bool, ops: map<Pid, seq<Access>>, p: Pid)
    requires p !in ops && t in s.armed && t in s.holding
    ensures Reach(Fine(s, ops), Fine(JobSteps.Start(s, t, hasHandler), ops))
  {
    hide Reach;
    var off := s.(armed := s.armed - {t});
    var f1, f2 := Fine(s, ops[p := [StopTicker(t), ReadHold(t)]]), Fine(off, ops[p := [ReadHold(t)]]);
    Begins(Fine(s, ops), p, TriggerTask(t), [StopTicker(t), ReadHold(t)]);
    Does(f2, p, ANY, ReadHold(t), [], [], f2);
    assert Now(f2, p, []) == Fine(off, ops);
    assert [StopTicker(t), ReadHold(t)] == [StopTicker(t)] + [ReadHold(t)] && [] + [ReadHold(t)] == [ReadHold(t)];
    Then(f1, p, ANY, StopTicker(t), [ReadHold(t)], [ReadHold(t)], f2, Fine(off, ops));
    ReachTwice(Fine(s, ops), f1, Fine(off, ops));
  }

  // ---- Stopping, retrying, deleting ----

  lemma StopsTickerThen(f: State, p: Pid, t: TaskName, rest: seq<Access>, r: State)
    requires p in f.ops && f.ops[p] == [StopTicker(t)] + rest && rest != []
    requires Reach(f.(armed := f.armed - {t}, ops := f.ops[p := rest]), r)
    ensures Reach(f, r)
  {
    hide Reach;
    assert [] + rest == rest;
    Then(f, p, ANY, StopTicker(t), rest, rest, f.(armed := f.armed - {t}, ops := f.ops[p := rest]), r);
  }

  lemma StopsRowThen(f: State, p: Pid, id: JobId, rest: seq<Access>, r: State)
    requires id in f.jobs && p in f.ops && f.ops[p] == [StopRow(id, f.jobs[id].status)] + rest && rest != []
    requires Reach(f.(jobs := WithStatus(f.jobs, id, Stopped), ops := f.ops[p := rest]), r)
    ensures Reach(f, r)
  {
    hide Reach;
    assert [] + rest == rest;
    Then(f, p, ANY, StopRow(id, f.jobs[id].status), rest, rest, f.(jobs := WithStatus(f.jobs, id, Stopped), ops := f.ops[p := rest]), r);
  }

  lemma HaltedShape(s: JobSteps.State, id: JobId, ops: map<Pid, seq<Access>>)
    requires id in s.jobs
    ensures
      var t, hit := s.jobs[id].task, s.jobs[id].status == Retrying;
      Fine(JobSteps.Halt(s, id), ops) ==
        Fine(s, ops).(jobs := WithStatus(Plain(s.jobs), id, Stopped), armed := if hit then s.armed.Keys - {t} else s.armed.Keys)
    ensures s.queue == JobSteps.Halt(s, id).queue
  {
    hide Increment;
    var r := JobSteps.Halt(s, id);
    assert r.exec.Keys == s.exec.Keys;
    assert (s.armed - {s.jobs[id].task}).Keys == s.armed.Keys - {s.jobs[id].task};
    assert Plain(r.jobs) == WithStatus(Plain(s.jobs), id, Stopped);
  }

  /** `StopJob`. */
  lemma StopsAlone(s: JobSteps.State, id: JobId, ops: map<Pid, seq<Access>>, p: Pid)
    requires p !in ops && id in s.jobs && s.jobs[id].task in s.queue
    ensures Reach(Fine(s, ops), Fine(JobSteps.Stop(s, id), ops))
  {
    hide Reach, JobSteps.Halt, JobSteps.RegisterNext;
    var t, before := s.jobs[id].task, s.jobs[id].status;
    var peek := [Peek(t, false)];
    var row := [StopRow(id, before)] + peek;
    var r, halted := Fine(JobSteps.Stop(s, id), ops), Fine(JobSteps.Halt(s, id), ops[p := peek]);
    HaltedShape(s, id, ops[p := peek]);
    assert peek + [] == peek && Left(ops[p := peek], p, []) == ops;
    RegistersAlone(JobSteps.Halt(s, id), false, t, ops[p := peek], p, []);
    var program := (if before == Retrying then [StopTicker(t)] else []) + row;
    var f1 := Fine(s, ops[p := row]).(armed := halted.armed);
    assert f1.ops[p := peek] == halted.ops;
    StopsRowThen(f1, p, id, peek, r);
    var f0 := Fine(s, ops[p := program]);
    if before == Retrying {
      assert f0.ops[p := row] == f1.ops;
      StopsTickerThen(f0, p, t, row, r);
    } else {
      assert program == row;
    }
    assert [StopRow(id, before), Peek(t, false)] == row;
    Begins(Fine(s, ops), p, StopJob(id), program);
    ReachTwice(Fine(s, ops), f0, r);
  }

  lemma RetriedShape(s: JobSteps.State, id: JobId, ops: map<Pid, seq<Access>>)
    requires id in s.jobs && s.jobs[id].task in s.queue
    ensures
      var t, r, row := s.jobs[id].task, JobSteps.Retry(s, id), Fine(s, ops).(jobs := WithStatus(Plain(s.jobs), id, Queueing));
      Fine(r, ops) == if t !in s.tasks then row else
        row.(queue := s.queue[t := s.queue[t] + [id]], armed := if id in s.exhausted then s.armed.Keys else s.armed.Keys + {t})
  {
    Outcomes.RetryLeaves(s, id);
    hide JobSteps.Retry;
    var r := JobSteps.Retry(s, id);
    assert Plain(r.jobs) == WithStatus(Plain(s.jobs), id, Queueing);
    assert s.armed[s.jobs[id].task := id].Keys == s.armed.Keys + {s.jobs[id].task};
  }

  lemma StartsTicker(f: State, p: Pid, t: TaskName, id: JobId, r: State)
    requires p in f.ops && f.ops[p] == [StartTicker(t, id)]
    requires r == f.(armed := if id in f.exhausted then f.armed else f.armed + {t}, ops := f.ops - {p})
    ensures Reach(f, r)
  {
    hide Reach;
    Does(f, p, ANY, StartTicker(t, id), [], [], r.(ops := f.ops));
  }

  /** `RetryJob`. */
  lemma RetriesAlone(s: JobSteps.State, id: JobId, ops: map<Pid, seq<Access>>, p: Pid)
    requires p !in ops && id in s.jobs && s.jobs[id].task in s.queue
    ensures Reach(Fine(s, ops), Fine(JobSteps.Retry(s, id), ops))
  {
    RetriedShape(s, id, ops);
    hide Reach, JobSteps.Retry, Plain;
    var f, t, r := Fine(s, ops), s.jobs[id].task, Fine(JobSteps.Retry(s, id), ops);
    RowOf(s.jobs, id);
    if t in s.tasks {
      RetriesFrom(f, p, t, id, r);
    } else {
      RetriesUnregistered(f, p, id, r);
    }
  }

  lemma RowOf(jobs: Table, id: JobId)
    requires id in jobs
    ensures id in Plain(jobs) && Plain(jobs)[id] == Row(jobs[id].task, jobs[id].status)
  {
  }

  lemma RetriesFrom(f: State, p: Pid, t: TaskName, id: JobId, r: State)
    requires p !in f.ops && id in f.jobs && f.jobs[id].task == t && t in f.tasks && t in f.queue
    requires r == f.(jobs := WithStatus(f.jobs, id, Queueing), queue := f.queue[t := f.queue[t] + [id]],
                     armed := if id in f.exhausted then f.armed else f.armed + {t})
    ensures Reach(f, r)
  {
    hide Reach, WithStatus;
    var ticker := [StartTicker(t, id)];
    var push := [PushJob(t, id)] + ticker;
    var f1 := f.(ops := f.ops[p := [SetRow(id, Queueing)] + push]);
    var f2 := f.(jobs := WithStatus(f.jobs, id, Queueing), ops := f.ops[p := push]);
    var f3 := f2.(queue := f.queue[t := f.queue[t] + [id]], ops := f.ops[p := ticker]);
    assert f2.ops[p := ticker] == f3.ops && f1.ops[p := push] == f2.ops && f3.ops - {p} == f.ops;
    StartsTicker(f3, p, t, id, r);
    PushesThen(f2, p, t, id, ticker, r);
    SetsRowThen(f1, p, id, Queueing, push, r);
    RetryBegins(f, p, t, id);
    ReachTwice(f, f1, r);
  }

  lemma RetryBegins(f: State, p: Pid, t: TaskName, id: JobId)
    requires p !in f.ops && id in f.jobs && f.jobs[id].task == t && t in f.tasks
    ensures Reach(f, f.(ops := f.ops[p := [SetRow(id, Queueing)] + ([PushJob(t, id)] + [StartTicker(t, id)])]))
  {
    hide Reach;
    assert [SetRow(id, Queueing), PushJob(t, id), StartTicker(t, id)] == [SetRow(id, Queueing)] + ([PushJob(t, id)] + [StartTicker(t, id)]);
    Begins(f, p, RetryJob(id), [SetRow(id, Queueing)] + ([PushJob(t, id)] + [StartTicker(t, id)]));
  }

  lemma RetriesUnregistered(f: State, p: Pid, id: JobId, r: State)
    requires p !in f.ops && id in f.jobs && f.jobs[id].task !in f.tasks && r == f.(jobs := WithStatus(f.jobs, id, Queueing))
    ensures Reach(f, r)
  {
    hide Reach;
    var f1 := f.(ops := f.ops[p := [SetRow(id, Queueing)]]);
    Begins(f, p, RetryJob(id), [SetRow(id, Queueing)]);
    assert f1.ops - {p} == f.ops;
    SetsRowLast(f1, p, id, r);
    ReachTwice(f, f1, r);
  }

  lemma SetsRowLast(f: State, p: Pid, id: JobId, r: State)
    requires p in f.ops && f.ops[p] == [SetRow(id, Queueing)] && r == f.(jobs := WithStatus(f.jobs, id, Queueing), ops := f.ops - {p})
    ensures Reach(f, r)
  {
    hide Reach;
    Does(f, p, ANY, SetRow(id, Queueing), [], [], r.(ops := f.ops));
  }

  /** `DeleteJob`. */
  lemma DeletesJobAlone(s: JobSteps.State, id: JobId, ops: map<Pid, seq<Access>>, p: Pid)
    requires p !in ops
    ensures Reach(Fine(s, ops), Fine(JobSteps.Delete(s, id), ops))
  {
    Outcomes.DeleteLeaves(s, id);
    hide Reach, JobSteps.Delete;
    var f, r := Fine(s, ops[p := [Remove]]), JobSteps.Delete(s, id);
    Begins(Fine(s, ops), p, DeleteJob, [Remove]);
    assert Plain(r.jobs) == Plain(s.jobs) - {id};
    Does(f, p, ANY.(rows := {id}), Remove, [], [], Fine(r, f.ops));
    assert Now(Fine(r, f.ops), p, []) == Fine(r, ops);
    ReachTwice(Fine(s, ops), f, Fine(r, ops));
  }

  // ---- Stopping and cleaning whole tasks ----

  lemma SetsLoadingThen(f: State, p: Pid, t: TaskName, on: bool, rest: seq<Access>, r: State)
    requires p in f.ops && f.ops[p] == [SetLoading(t, on)] + rest && rest != []
    requires Reach(f.(loading := if on then f.loading + {t} else f.loading - {t}, ops := f.ops[p := rest]), r)
    ensures Reach(f, r)
  {
    hide Reach;
    assert [] + rest == rest;
    Then(f, p, ANY, SetLoading(t, on), rest, rest,
      f.(loading := if on then f.loading + {t} else f.loading - {t}, ops := f.ops[p := rest]), r);
  }

  lemma SetsHoldThen(f: State, p: Pid, t: TaskName, on: bool, rest: seq<Access>, r: State)
    requires p in f.ops && f.ops[p] == [SetHold(t, on)] + rest && rest != []
    requires Reach(f.(holding := if on then f.holding + {t} else f.holding - {t}, ops := f.ops[p := rest]), r)
    ensures Reach(f, r)
  {
    hide Reach;
    assert [] + rest == rest;
    Then(f, p, ANY, SetHold(t, on), rest, rest,
      f.(holding := if on then f.holding + {t} else f.holding - {t}, ops := f.ops[p := rest]), r);
  }

  /** The rows of a task in one status get another. */
  function Restatused(jobs: Rows, t: TaskName, before: Status, after: Status): Rows {
    map id | id in jobs :: if jobs[id] == Row(t, before) then Row(t, after) else jobs[id]
  }

  lemma RewritesThen(f: State, p: Pid, t: TaskName, before: Status, after: Status, rest: seq<Access>, r: State)
    requires p in f.ops && f.ops[p] == [Rewrite(t, before, after)] + rest && rest != []
    requires Reach(f.(jobs := Restatused(f.jobs, t, before, after), ops := f.ops[p := rest]), r)
    ensures Reach(f, r)
  {
    hide Reach;
    var c := ANY.(rows := f.jobs.Keys);
    assert [] + rest == rest;
    assert Effect(f, Rewrite(t, before, after), c).jobs == Restatused(f.jobs, t, before, after);
    Then(f, p, c, Rewrite(t, before, after), rest, rest, f.(jobs := Restatused(f.jobs, t, before, after), ops := f.ops[p := rest]), r);
  }

  lemma ClearsLast(f: State, p: Pid, t: TaskName, r: State)
    requires p in f.ops && f.ops[p] == [Clear(t)] && r == f.(queue := f.queue[t := []], ops := f.ops - {p})
    ensures Reach(f, r)
  {
    hide Reach;
    Does(f, p, ANY, Clear(t), [], [], r.(ops := f.ops));
  }

  lemma StoppedShape(s: JobSteps.State, t: TaskName, ops: map<Pid, seq<Access>>)
    requires t in s.tasks
    ensures
      Fine(JobSteps.StopAll(s, t), ops) ==
        Fine(s, ops).(jobs := Restatused(Restatused(Plain(s.jobs), t, Queueing, Stopped), t, Retrying, Stopped),
                      queue := s.queue[t := []], armed := s.armed.Keys - {t}, holding := s.holding - {t}, loading := s.loading - {t})
  {
    Outcomes.StopAllLeaves(s, t);
    hide JobSteps.StopAll;
    var r := JobSteps.StopAll(s, t);
    assert (s.armed - {t}).Keys == s.armed.Keys - {t};
    assert r.exec.Keys == s.exec.Keys;
    assert Plain(r.jobs) == Restatused(Restatused(Plain(s.jobs), t, Queueing, Stopped), t, Retrying, Stopped);
  }

  /** `StopAllJob`. */
  lemma StopsAllAlone(s: JobSteps.State, t: TaskName, ops: map<Pid, seq<Access>>, p: Pid)
    requires p !in ops && t in s.tasks
    ensures Reach(Fine(s, ops), Fine(JobSteps.StopAll(s, t), ops))
  {
    StoppedShape(s, t, ops);
    hide Reach, JobSteps.StopAll, Restatused, Plain;
    StopsAllFrom(Fine(s, ops), p, t, Fine(JobSteps.StopAll(s, t), ops));
  }

  lemma StopsAllFrom(f: State, p: Pid, t: TaskName, r: State)
    requires p !in f.ops && t in f.tasks
    requires r == f.(jobs := Restatused(Restatused(f.jobs, t, Queueing, Stopped), t, Retrying, Stopped),
                     queue := f.queue[t := []], armed := f.armed - {t}, holding := f.holding - {t}, loading := f.loading - {t})
    ensures Reach(f, r)
  {
    hide Reach, Restatused, Program;
    var a3 := [SetLoading(t, false)] + [Clear(t)];
    var a2 := [Rewrite(t, Retrying, Stopped)] + ([SetHold(t, false)] + a3);
    var a1 := [StopTicker(t)] + ([Rewrite(t, Queueing, Stopped)] + a2);
    var program := [SetLoading(t, true)] + ([SetHold(t, true)] + a1);
    var f0 := f.(ops := f.ops[p := program]);
    var f2 := f.(jobs := Restatused(f.jobs, t, Queueing, Stopped), armed := f.armed - {t}, holding := f.holding + {t},
                 loading := f.loading + {t}, ops := f.ops[p := a2]);
    assert f.holding + {t} - {t} == f.holding - {t} && f.loading + {t} - {t} == f.loading - {t} && f2.ops - {p} == f.ops;
    StopsAllEnds(f2, p, t, a3, r);
    assert f0.ops[p := a2] == f2.ops;
    StopsAllBegins(f0, p, t, a1, a2, f2, r);
    StopAllProgram(f, t);
    Begins(f, p, StopAllJob(t), program);
    ReachTwice(f, f0, r);
  }

  lemma StopAllProgram(f: State, t: TaskName)
    requires t in f.tasks
    ensures
      var a3 := [SetLoading(t, false)] + [Clear(t)];
      var a2 := [Rewrite(t, Retrying, Stopped)] + ([SetHold(t, false)] + a3);
      Program(f, StopAllJob(t)) ==
        [SetLoading(t, true)] + ([SetHold(t, true)] + ([StopTicker(t)] + ([Rewrite(t, Queueing, Stopped)] + a2)))
  {
  }

  lemma StopsAllBegins(f: State, p: Pid, t: TaskName, a1: seq<Access>, a2: seq<Access>, m: State, r: State)
    requires p in f.ops && a1 == [StopTicker(t)] + ([Rewrite(t, Queueing, Stopped)] + a2) && a2 != []
    requires f.ops[p] == [SetLoading(t, true)] + ([SetHold(t, true)] + a1)
    requires m == f.(jobs := Restatused(f.jobs, t, Queueing, Stopped), armed := f.armed - {t}, holding := f.holding + {t},
                     loading := f.loading + {t}, ops := f.ops[p := a2])
    requires Reach(m, r)
    ensures Reach(f, r)
  {
    hide Reach, Restatused;
    var hold, rewrite := [SetHold(t, true)] + a1, [Rewrite(t, Queueing, Stopped)] + a2;
    var f1 := f.(loading := f.loading + {t}, ops := f.ops[p := hold]);
    var f2 := f1.(holding := f.holding + {t}, ops := f.ops[p := a1]);
    var f3 := f2.(armed := f.armed - {t}, ops := f.ops[p := rewrite]);
    assert f3.ops[p := a2] == m.ops && f2.ops[p := rewrite] == f3.ops && f1.ops[p := a1] == f2.ops;
    RewritesThen(f3, p, t, Queueing, Stopped, a2, r);
    StopsTickerThen(f2, p, t, rewrite, r);
    SetsHoldThen(f1, p, t, true, a1, r);
    SetsLoadingThen(f, p, t, true, hold, r);
  }

  lemma StopsAllEnds(f: State, p: Pid, t: TaskName, a3: seq<Access>, r: State)
    requires p in f.ops && a3 == [SetLoading(t, false)] + [Clear(t)]
    requires f.ops[p] == [Rewrite(t, Retrying, Stopped)] + ([SetHold(t, false)] + a3)
    requires r == f.(jobs := Restatused(f.jobs, t, Retrying, Stopped), holding := f.holding - {t}, loading := f.loading - {t},
                     queue := f.queue[t := []], ops := f.ops - {p})
    ensures Reach(f, r)
  {
    hide Reach, Restatused;
    var hold, clear := [SetHold(t, false)] + a3, [Clear(t)];
    var f1 := f.(jobs := Restatused(f.jobs, t, Retrying, Stopped), ops := f.ops[p := hold]);
    var f2 := f1.(holding := f.holding - {t}, ops := f.ops[p := a3]);
    var f3 := f2.(loading := f.loading - {t}, ops := f.ops[p := clear]);
    assert f2.ops[p := clear] == f3.ops && f1.ops[p := a3] == f2.ops && f3.ops - {p} == r.ops;
    ClearsLast(f3, p, t, r);
    SetsLoadingThen(f2, p, t, false, clear, r);
    SetsHoldThen(f1, p, t, false, a3, r);
    RewritesThen(f, p, t, Retrying, Stopped, hold, r);
  }

  /** The rows of one status after the other are removed. */
  lemma {:induction false} RemovesAlone(s: JobSteps.State, incr: Increments, t: TaskName, asked: seq<Status>, within: set<JobId>,
                                        ops: map<Pid, seq<Access>>, p: Pid, rest: seq<Access>)
    requires p in ops && ops[p] == Removals(|asked|) + rest && rest != []
    ensures
      var jobs := JobSteps.CleanAll(s.jobs, incr, t, asked, within).0;
      Reach(Fine(s, ops), Fine(s.(jobs := jobs), ops[p := rest]))
    decreases |asked|
  {
    hide Reach, Fine, JobSteps.AddAt, Where;
    if asked == [] {
      assert [] + rest == rest;
      assert ops[p := rest] == ops && s.(jobs := s.jobs) == s;
      Stays(Fine(s, ops));
    } else {
      var more := Removals(|asked| - 1) + rest;
      var ids := Where(s.jobs, t, asked[0]) * within;
      RemovesAlone(s.(jobs := s.jobs - ids), JobSteps.AddAt(incr, Lower(asked[0]), -|ids|), t, asked[1..], within, ops[p := more], p, rest);
      assert ops[p := more][p := rest] == ops[p := rest];
      RemoveAlone(s, ids, ops, p, more);
      ReachTwice(Fine(s, ops), Fine(s.(jobs := s.jobs - ids), ops[p := more]),
        Fine(s.(jobs := JobSteps.CleanAll(s.jobs, incr, t, asked, within).0), ops[p := rest]));
    }
  }

  lemma RemoveAlone(s: JobSteps.State, ids: set<JobId>, ops: map<Pid, seq<Access>>, p: Pid, more: seq<Access>)
    requires p in ops && ops[p] == [Remove] + more && more != []
    ensures Reach(Fine(s, ops), Fine(s.(jobs := s.jobs - ids), ops[p := more]))
  {
    hide Reach;
    var r := Fine(s.(jobs := s.jobs - ids), ops[p := more]);
    assert Plain(s.jobs - ids) == Plain(s.jobs) - ids;
    Stays(r);
    RemovesThen(Fine(s, ops), p, ANY.(rows := ids), more, r);
  }

  /** `CleanJob`. */
  lemma CleansAlone(s: JobSteps.State, t: TaskName, asked: seq<Status>, within: set<JobId>, ops: map<Pid, seq<Access>>, p: Pid)
    requires p !in ops
    ensures Reach(Fine(s, ops), Fine(JobSteps.Clean(s, t, asked, within), ops))
  {
    hide Reach, JobSteps.CleanAll, Increment;
    var down := [SetLoading(t, false)];
    var removals := Removals(|asked|) + down;
    var up := s.(loading := s.loading + {t});
    var cleaned := up.(jobs := JobSteps.CleanAll(s.jobs, map[], t, asked, within).0);
    var r := Fine(JobSteps.Clean(s, t, asked, within), ops);
    var f, f0 := Fine(s, ops), Fine(s, ops[p := [SetLoading(t, true)] + removals]);
    assert [SetLoading(t, true)] + Removals(|asked|) + down == [SetLoading(t, true)] + removals;
    Begins(f, p, CleanJob(t, asked), [SetLoading(t, true)] + removals);
    LoadsAlone(s, t, true, f0.ops, p, removals);
    assert f0.ops[p := removals] == ops[p := removals] && ops[p := removals][p := down] == ops[p := down];
    ReachTwice(f, f0, Fine(up, ops[p := removals]));
    RemovesAlone(up, map[], t, asked, within, ops[p := removals], p, down);
    ReachTwice(f, Fine(up, ops[p := removals]), Fine(cleaned, ops[p := down]));
    CleanEnds(cleaned, s, t, ops, p, r);
    ReachTwice(f, Fine(cleaned, ops[p := down]), r);
  }

  lemma CleanEnds(cleaned: JobSteps.State, s: JobSteps.State, t: TaskName, ops: map<Pid, seq<Access>>, p: Pid, r: State)
    requires p !in ops && cleaned.loading == s.loading + {t} && r == Fine(cleaned, ops).(loading := s.loading - {t})
    ensures Reach(Fine(cleaned, ops[p := [SetLoading(t, false)]]), r)
  {
    hide Reach;
    var f := Fine(cleaned, ops[p := [SetLoading(t, false)]]);
    assert s.loading + {t} - {t} == s.loading - {t};
    Does(f, p, ANY, SetLoading(t, false), [], [], r.(ops := f.ops));
    assert Now(r.(ops := f.ops), p, []) == r;
  }

  // ---- Recovery ----

  /** The rows recovery is to take up, each QUEUEING afterwards if it is not locked. */
  function Taken(jobs: Rows, ids: seq<JobId>): Rows {
    map id | id in jobs :: if id in ids then Row(jobs[id].task, Queueing) else jobs[id]
  }

  lemma {:induction false} TakesUp(f: State, p: Pid, t: TaskName, ids: seq<JobId>, rest: seq<Access>, r: State)
    requires p in f.ops && f.ops[p] == [Recover(t)] + rest && rest != [] && t in f.queue && forall id :: id in ids ==> id in f.jobs
    requires r == f.(jobs := Taken(f.jobs, ids), queue := f.queue[t := f.queue[t] + ids], ops := f.ops[p := rest])
    ensures Reach(f, r)
    decreases |ids|
  {
    hide Reach;
    if ids == [] {
      assert Taken(f.jobs, ids) == f.jobs && f.queue[t] + ids == f.queue[t] && [] + rest == rest;
      assert r == f.(ops := f.ops[p := rest]);
      Stays(r);
      Expands(f, p, ANY, Recover(t), rest, rest, r);
    } else {
      var id, recover := ids[0], [Recover(t)] + rest;
      var m := f.(jobs := WithStatus(f.jobs, id, Queueing), queue := f.queue[t := f.queue[t] + [id]], ops := f.ops[p := recover]);
      TakenNext(f.jobs, ids);
      assert f.queue[t] + [id] + ids[1..] == f.queue[t] + ids && m.ops[p := rest] == f.ops[p := rest];
      TakesUp(m, p, t, ids[1..], rest, r);
      TakesOne(f, p, t, id, rest, r);
    }
  }

  lemma TakenNext(jobs: Rows, ids: seq<JobId>)
    requires ids != [] && ids[0] in jobs
    ensures Taken(WithStatus(jobs, ids[0], Queueing), ids[1..]) == Taken(jobs, ids)
  {
  }

  lemma TakesOne(f: State, p: Pid, t: TaskName, id: JobId, rest: seq<Access>, r: State)
    requires p in f.ops && f.ops[p] == [Recover(t)] + rest && rest != [] && t in f.queue && id in f.jobs
    requires
      Reach(f.(jobs := WithStatus(f.jobs, id, Queueing), queue := f.queue[t := f.queue[t] + [id]], ops := f.ops[p := [Recover(t)] + rest]), r)
    ensures Reach(f, r)
  {
    hide Reach;
    var c, recover := ANY.(id := id, more := true), [Recover(t)] + rest;
    var push := [PushJob(t, id)] + recover;
    var f2 := f.(jobs := WithStatus(f.jobs, id, Queueing), ops := f.ops[p := push]);
    assert f2.ops[p := recover] == f.ops[p := recover];
    PushesThen(f2, p, t, id, recover, r);
    if IsQueueing(f.jobs, id) {
      assert WithStatus(f.jobs, id, Queueing) == f.jobs && [PushJob(t, id), Recover(t)] + rest == push;
      Expands(f, p, c, Recover(t), rest, push, r);
    } else {
      var f1 := f.(ops := f.ops[p := [SetRow(id, Queueing)] + push]);
      assert f1.ops[p := push] == f2.ops;
      SetsRowThen(f1, p, id, Queueing, push, r);
      assert [SetRow(id, Queueing), PushJob(t, id), Recover(t)] + rest == [SetRow(id, Queueing)] + push;
      Expands(f, p, c, Recover(t), rest, [SetRow(id, Queueing)] + push, r);
    }
  }

  /** `prepare` for one task of a worker that has just started. */
  lemma RecoversAlone(s: JobSteps.State, t: TaskName, locked: set<JobId>, ops: map<Pid, seq<Access>>, p: Pid)
    requires p in ops && ops[p] == Prepare(t) && t in s.tasks && t !in s.exec && t !in s.armed
    ensures Reach(Fine(s, ops), Fine(JobSteps.Recover(s, t, locked), ops - {p}))
  {
    hide Reach, JobSteps.Recover, JobSteps.RegisterNext, CountersOf, InOrder, Plain;
    var ids := Outcomes.RecoverLeaves(s, t, locked);
    var r := JobSteps.Recover(s, t, locked);
    var m := s.(jobs := r.jobs, queue := s.queue[t := ids], exec := s.exec - {t}, armed := s.armed - {t}, loading := s.loading - {t},
                summary := s.summary[t := CountersOf(r.jobs, t)]);
    assert s.exec - {t} == s.exec && s.armed - {t} == s.armed;
    var empty := Fine(s, ops[p := [Count(t)]]).(queue := s.queue[t := []]);
    ClearsFirst(Fine(s, ops), p, t, empty);
    PlainPending(s.jobs, t);
    PlainTaken(s.jobs, r.jobs, ids);
    if exists i :: i in s.jobs && s.jobs[i].task == t && (s.jobs[i].status == Retrying || s.jobs[i].status == Queueing) {
      RecoversPending(s, m, t, ids, ops, p, empty);
    } else {
      if ids != [] { SomeMember(ids); }
      CountsNone(empty, p, t, Fine(r, ops - {p}));
    }
    ReachTwice(Fine(s, ops), empty, Fine(r, ops - {p}));
  }

  lemma RecoversPending(s: JobSteps.State, m: JobSteps.State, t: TaskName, ids: seq<JobId>, ops: map<Pid, seq<Access>>, p: Pid, empty: State)
    requires p in ops && (forall id :: id in ids ==> id in s.jobs) && Plain(m.jobs) == Taken(Plain(s.jobs), ids)
    requires empty == Fine(s, ops[p := [Count(t)]]).(queue := s.queue[t := []])
    requires exists i :: i in empty.jobs && empty.jobs[i].task == t && empty.jobs[i].status in {Retrying, Queueing}
    requires m == s.(jobs := m.jobs, queue := s.queue[t := ids], loading := s.loading - {t}, summary := m.summary)
    ensures Reach(empty, Fine(JobSteps.RegisterNext(m, false, t), ops - {p}))
  {
    hide Reach, JobSteps.RegisterNext;
    var peek := [Peek(t, false)];
    CountsPending(empty, p, t, ids, Fine(m, ops[p := peek]));
    assert peek + [] == peek && Left(ops[p := peek], p, []) == ops - {p};
    RegistersAlone(m, false, t, ops[p := peek], p, []);
    ReachTwice(empty, Fine(m, ops[p := peek]), Fine(JobSteps.RegisterNext(m, false, t), ops - {p}));
  }

  lemma PlainPending(jobs: Table, t: TaskName)
    ensures (exists i :: i in jobs && jobs[i].task == t && (jobs[i].status == Retrying || jobs[i].status == Queueing)) <==>
      exists i :: i in Plain(jobs) && Plain(jobs)[i].task == t && Plain(jobs)[i].status in {Retrying, Queueing}
  {
    if i :| i in jobs && jobs[i].task == t && (jobs[i].status == Retrying || jobs[i].status == Queueing) {
      assert i in Plain(jobs);
    }
    if i :| i in Plain(jobs) && Plain(jobs)[i].task == t && Plain(jobs)[i].status in {Retrying, Queueing} {
      assert i in jobs;
    }
  }

  lemma PlainTaken(before: Table, after: Table, ids: seq<JobId>)
    requires after.Keys == before.Keys
    requires forall i :: i in before ==> after[i] == if i in ids then before[i].(status := Queueing) else before[i]
    ensures Plain(after) == Taken(Plain(before), ids)
  {
  }

  lemma SomeMember(ids: seq<JobId>)
    requires ids != []
    ensures exists i :: i in ids
  {
    assert ids[0] in ids;
  }

  lemma ClearsFirst(f: State, p: Pid, t: TaskName, r: State)
    requires p in f.ops && f.ops[p] == Prepare(t) && r == f.(queue := f.queue[t := []], ops := f.ops[p := [Count(t)]])
    ensures Reach(f, r)
  {
    hide Reach;
    assert Prepare(t) == [Clear(t)] + [Count(t)] && [] + [Count(t)] == [Count(t)];
    Does(f, p, ANY, Clear(t), [Count(t)], [Count(t)], r.(ops := f.ops));
  }

  lemma CountsNone(f: State, p: Pid, t: TaskName, r: State)
    requires p in f.ops && f.ops[p] == [Count(t)] && r == f.(loading := f.loading - {t}, ops := f.ops - {p})
    requires !exists i :: i in f.jobs && f.jobs[i].task == t && f.jobs[i].status in {Retrying, Queueing}
    ensures Reach(f, r)
  {
    hide Reach;
    var down := [SetLoading(t, false)];
    var up := [SetLoading(t, true)] + down;
    var f1 := f.(ops := f.ops[p := up]);
    var f2 := f.(loading := f.loading + {t}, ops := f.ops[p := down]);
    assert f1.ops[p := down] == f2.ops && f2.ops - {p} == f.ops - {p} && f.loading + {t} - {t} == f.loading - {t};
    Does(f2, p, ANY, SetLoading(t, false), [], [], r.(ops := f2.ops));
    assert Now(r.(ops := f2.ops), p, []) == r;
    SetsLoadingThen(f1, p, t, true, down, r);
    assert [SetLoading(t, true), SetLoading(t, false)] + [] == up;
    Expands(f, p, ANY, Count(t), [], up, r);
  }

  lemma CountsPending(f: State, p: Pid, t: TaskName, ids: seq<JobId>, r: State)
    requires p in f.ops && f.ops[p] == [Count(t)] && t in f.queue && f.queue[t] == [] && forall id :: id in ids ==> id in f.jobs
    requires exists i :: i in f.jobs && f.jobs[i].task == t && f.jobs[i].status in {Retrying, Queueing}
    requires r == f.(jobs := Taken(f.jobs, ids), queue := f.queue[t := ids], loading := f.loading - {t}, ops := f.ops[p := [Peek(t, false)]])
    ensures Reach(f, r)
  {
    hide Reach, Taken;
    var peek := [Peek(t, false)];
    var down := [SetLoading(t, false)] + peek;
    var recover := [Recover(t)] + down;
    var f1 := f.(ops := f.ops[p := [SetLoading(t, true)] + recover]);
    var f2 := f.(loading := f.loading + {t}, ops := f.ops[p := recover]);
    var f3 := f2.(jobs := Taken(f.jobs, ids), queue := f.queue[t := ids], ops := f.ops[p := down]);
    Stays(r);
    assert f3.ops[p := peek] == r.ops && f2.ops[p := down] == f3.ops && f1.ops[p := recover] == f2.ops;
    assert f.loading + {t} - {t} == f.loading - {t} && [] + ids == ids;
    SetsLoadingThen(f3, p, t, false, peek, r);
    TakesUp(f2, p, t, ids, down, f3);
    ReachTwice(f2, f3, r);
    SetsLoadingThen(f1, p, t, true, recover, r);
    assert [SetLoading(t, true), Recover(t), SetLoading(t, false), Peek(t, false)] + [] == [SetLoading(t, true)] + recover;
    Expands(f, p, ANY, Count(t), [], [SetLoading(t, true)] + recover, r);
  }
}
