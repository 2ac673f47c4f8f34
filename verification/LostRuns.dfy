/** Runs in which the losing accesses happen, and leave a job stranded with every operation over. */
module LostRuns {
  import opened JobModel
  import opened Interleaving
  import opened LostJobs
  import opened Reaching

  // ---- A registration ----

  lemma PeeksHead(s: State, p: Pid, t: TaskName, withStream: bool, id: JobId)
    requires p in s.ops && s.ops[p] == [Peek(t, withStream)] && QueueOf(s, t) != [] && QueueOf(s, t)[0] == id
    ensures Reach(s, Now(s, p, [Look(t, id)]))
  {
    hide Reach;
    Does(s, p, ANY, Peek(t, withStream), [], [Look(t, id)], s);
  }

  lemma PeeksNothing(s: State, p: Pid, t: TaskName)
    requires p in s.ops && s.ops[p] == [Peek(t, false)] && QueueOf(s, t) == []
    ensures Reach(s, Now(s, p, []))
  {
    hide Reach;
    Does(s, p, ANY, Peek(t, false), [], [], s);
  }

  lemma LooksStale(s: State, p: Pid, t: TaskName, id: JobId)
    requires p in s.ops && s.ops[p] == [Look(t, id)] && !IsQueueing(s.jobs, id)
    ensures Reach(s, Now(s, p, [Drop(t)]))
  {
    hide Reach;
    Does(s, p, ANY, Look(t, id), [], [Drop(t)], s);
  }

  lemma Drops(s: State, p: Pid, t: TaskName, r: State)
    requires p in s.ops && s.ops[p] == [Drop(t)] && QueueOf(s, t) != [] && r == s.(queue := s.queue[t := QueueOf(s, t)[1..]])
    ensures Reach(s, Now(r, p, [Peek(t, false)]))
  {
    hide Reach;
    Does(s, p, ANY, Drop(t), [], [Peek(t, false)], r);
  }

  /** A registration finds the one id in the queue stale, drops it and ends. */
  lemma RegistrationDrops(s: State, p: Pid, t: TaskName, id: JobId, withStream: bool)
    requires p in s.ops && s.ops[p] == [Peek(t, withStream)] && QueueOf(s, t) == [id] && !IsQueueing(s.jobs, id)
    ensures Reach(s, Now(s.(queue := s.queue[t := []]), p, []))
  {
    hide Reach;
    var empty := s.(queue := s.queue[t := []]);
    var s1, s2, s3 := Now(s, p, [Look(t, id)]), Now(s, p, [Drop(t)]), Now(empty, p, [Peek(t, false)]);
    PeeksHead(s, p, t, withStream, id);
    LooksStale(s1, p, t, id);
    NowNow(s, p, [Look(t, id)], [Drop(t)]);
    ReachTwice(s, s1, s2);
    assert QueueOf(s2, t)[1..] == [];
    Drops(s2, p, t, empty.(ops := s2.ops));
    NowNow(empty, p, [Drop(t)], [Peek(t, false)]);
    ReachTwice(s, s2, s3);
    PeeksNothing(s3, p, t);
    NowNow(empty, p, [Peek(t, false)], []);
    ReachTwice(s, s3, Now(empty, p, []));
  }

  // ---- A bulk retry overtaken by a registration ----

  function Rewriting(t: TaskName, st: Status): seq<Access> {
    [Rewrite(t, st, Queueing), SetLoading(t, false), Peek(t, false)]
  }

  lemma Pushes(s: State, q: Pid, t: TaskName, id: JobId, rest: seq<Access>, r: State)
    requires q in s.ops && s.ops[q] == [PushJob(t, id)] + rest && r == s.(queue := s.queue[t := QueueOf(s, t) + [id]])
    ensures Reach(s, Now(r, q, rest))
  {
    hide Reach;
    assert [] + rest == rest;
    Does(s, q, ANY, PushJob(t, id), rest, rest, r);
  }

  /** A stream that pushes one row. */
  lemma Feeds(s: State, q: Pid, t: TaskName, id: JobId, w: seq<Access>, r: State)
    requires q in s.ops && s.ops[q] == [Feed(t)] + w && r == s.(queue := s.queue[t := QueueOf(s, t) + [id]])
    ensures Reach(s, Now(r, q, w))
  {
    hide Reach;
    var feed := [Feed(t)] + w;
    var s1, s2 := Now(s, q, [PushJob(t, id)] + feed), Now(r, q, feed);
    assert [PushJob(t, id), Feed(t)] + w == [PushJob(t, id)] + feed;
    Does(s, q, ANY.(id := id, more := true), Feed(t), w, [PushJob(t, id)] + feed, s);
    Pushes(s1, q, t, id, feed, r.(ops := s1.ops));
    NowNow(r, q, [PushJob(t, id)] + feed, feed);
    ReachTwice(s, s1, s2);
    assert [] + w == w;
    Does(s2, q, ANY, Feed(t), w, w, s2);
    NowNow(r, q, feed, w);
    ReachTwice(s, s2, Now(r, q, w));
  }

  lemma SetsLoading(s: State, q: Pid, t: TaskName, on: bool, rest: seq<Access>, r: State)
    requires q in s.ops && s.ops[q] == [SetLoading(t, on)] + rest && r == s.(loading := if on then s.loading + {t} else s.loading - {t})
    ensures Reach(s, Now(r, q, rest))
  {
    hide Reach;
    assert [] + rest == rest;
    Does(s, q, ANY, SetLoading(t, on), rest, rest, r);
  }

  /** A bulk retry announces itself and pushes one row. */
  lemma RetryPushes(s: State, q: Pid, t: TaskName, id: JobId, st: Status)
    requires q !in s.ops && QueueOf(s, t) == []
    ensures Reach(s, s.(loading := s.loading + {t}, queue := s.queue[t := [id]], ops := s.ops[q := Rewriting(t, st)]))
  {
    hide Reach;
    var w, feed := Rewriting(t, st), [Feed(t)] + Rewriting(t, st);
    var b := s.(ops := s.ops[q := [SetLoading(t, true)] + feed]);
    assert [SetLoading(t, true), Feed(t)] + w == [SetLoading(t, true)] + feed;
    RetryBegins(s, q, t, st);
    var up := b.(loading := b.loading + {t});
    SetsLoading(b, q, t, true, feed, up);
    ReachTwice(s, b, Now(up, q, feed));
    var pushed := up.(queue := s.queue[t := [id]]);
    assert QueueOf(up, t) + [id] == [id];
    Feeds(Now(up, q, feed), q, t, id, w, pushed.(ops := Now(up, q, feed).ops));
    NowNow(pushed, q, feed, w);
    ReachTwice(s, Now(up, q, feed), Now(pushed, q, w));
    assert Now(pushed, q, w).ops == s.ops[q := w];
  }

  lemma RetryBegins(s: State, q: Pid, t: TaskName, st: Status)
    requires q !in s.ops
    ensures Reach(s, s.(ops := s.ops[q := [SetLoading(t, true), Feed(t)] + Rewriting(t, st)]))
  {
    hide Reach;
    assert Rewrites(t, [st], Queueing) == [Rewrite(t, st, Queueing)];
    assert Requeue(t, [st]) == [SetLoading(t, true), Feed(t)] + Rewriting(t, st);
    Begins(s, q, RetryAllJob(t, [st]), Requeue(t, [st]));
  }

  /** Job id of the table becomes QUEUEING. */
  function Requeued(jobs: Rows, id: JobId): Rows
    requires id in jobs
  {
    jobs[id := jobs[id].(status := Queueing)]
  }

  /** It rewrites the row and registers, with nothing in the queue. */
  lemma RetryEnds(s: State, q: Pid, t: TaskName, id: JobId, st: Status)
    requires q in s.ops && s.ops[q] == Rewriting(t, st) && QueueOf(s, t) == []
    requires id in s.jobs && s.jobs[id].task == t && s.jobs[id].status == st
    ensures Reach(s, Now(s.(jobs := Requeued(s.jobs, id), loading := s.loading - {t}), q, []))
  {
    hide Reach;
    var rest := [SetLoading(t, false), Peek(t, false)];
    var r1 := s.(jobs := Requeued(s.jobs, id));
    var s1 := Now(r1, q, rest);
    assert [] + rest == rest && Rewriting(t, st) == [Rewrite(t, st, Queueing)] + rest;
    Does(s, q, ANY.(rows := {id}), Rewrite(t, st, Queueing), rest, rest, r1);
    var r2 := r1.(loading := s.loading - {t});
    var s2 := Now(r2, q, [Peek(t, false)]);
    assert rest == [SetLoading(t, false)] + [Peek(t, false)];
    SetsLoading(s1, q, t, false, [Peek(t, false)], r2.(ops := s1.ops));
    NowNow(r2, q, rest, [Peek(t, false)]);
    ReachTwice(s, s1, s2);
    PeeksNothing(s2, q, t);
    NowNow(r2, q, [Peek(t, false)], []);
    ReachTwice(s, s2, Now(r2, q, []));
  }

  /** Whenever an operation is about to register a task with nothing queued, a bulk retry can begin, push a row and be
      overtaken: the registration drops the id, the row then becomes QUEUEING, and the closing registration finds an
      empty queue. Both operations are over, and nothing else has changed. */
  lemma OvertakenRetryStrands(s: State, p: Pid, q: Pid, t: TaskName, id: JobId, withStream: bool)
    requires p in s.ops && s.ops[p] == [Peek(t, withStream)] && q !in s.ops && QueueOf(s, t) == []
    requires id in s.jobs && s.jobs[id].task == t && s.jobs[id].status != Queueing && t in s.tasks
    ensures
      var r := s.(jobs := Requeued(s.jobs, id), queue := s.queue[t := []], loading := s.loading - {t}, ops := s.ops - {p});
      Reach(s, r) && Lost(r, id)
  {
    hide Reach;
    var st := s.jobs[id].status;
    var s1 := s.(loading := s.loading + {t}, queue := s.queue[t := [id]], ops := s.ops[q := Rewriting(t, st)]);
    RetryPushes(s, q, t, id, st);
    RegistrationDrops(s1, p, t, id, withStream);
    var s2 := Now(s1.(queue := s1.queue[t := []]), p, []);
    ReachTwice(s, s1, s2);
    RetryEnds(s2, q, t, id, st);
    var s3 := Now(s2.(jobs := Requeued(s2.jobs, id), loading := s2.loading - {t}), q, []);
    ReachTwice(s, s2, s3);
    assert s3 == s.(jobs := Requeued(s.jobs, id), queue := s.queue[t := []], loading := s.loading - {t}, ops := s.ops - {p});
  }

  lemma SetsRow(s: State, q: Pid, id: JobId, rest: seq<Access>, r: State)
    requires q in s.ops && s.ops[q] == [SetRow(id, Queueing)] + rest && id in s.jobs && r == s.(jobs := Requeued(s.jobs, id))
    ensures Reach(s, Now(r, q, rest))
  {
    hide Reach;
    assert [] + rest == rest;
    Does(s, q, ANY, SetRow(id, Queueing), rest, rest, r);
  }

  // ---- The end of an execution overtaken by a registration ----

  /** An execution that requeues its job pushes it before it rewrites the row. A registration in between drops the id, and
      the row becomes QUEUEING outside its queue. */
  lemma OvertakenExecutionLoses(s: State, p: Pid, q: Pid, t: TaskName, id: JobId, rest: seq<Access>)
    requires p in s.ops && q in s.ops && p != q && QueueOf(s, t) == [] && rest != []
    requires s.ops[p] == [Peek(t, false)] && s.ops[q] == [PushJob(t, id), SetRow(id, Queueing)] + rest
    requires id in s.jobs && s.jobs[id].task == t && s.jobs[id].status != Queueing && t in s.tasks
    ensures
      var r := s.(jobs := Requeued(s.jobs, id), queue := s.queue[t := []], ops := (s.ops - {p})[q := rest]);
      Reach(s, r) && Lost(r, id)
  {
    hide Reach;
    var row := [SetRow(id, Queueing)] + rest;
    assert s.ops[q] == [PushJob(t, id)] + row && QueueOf(s, t) + [id] == [id];
    var s1 := Now(s.(queue := s.queue[t := [id]]), q, row);
    Pushes(s, q, t, id, row, s.(queue := s.queue[t := [id]]));
    RegistrationDrops(s1, p, t, id, false);
    var s2 := Now(s1.(queue := s1.queue[t := []]), p, []);
    ReachTwice(s, s1, s2);
    var r2 := s2.(jobs := Requeued(s.jobs, id));
    SetsRow(s2, q, id, rest, r2);
    ReachTwice(s, s2, Now(r2, q, rest));
    assert Now(r2, q, rest) == s.(jobs := Requeued(s.jobs, id), queue := s.queue[t := []], ops := (s.ops - {p})[q := rest]);
  }

  // ---- Two registrations at once ----

  /** Two registrations look at the same stale head, and both pop: the second takes the QUEUEING job behind it. */
  lemma TwoRegistrationsStrand(s: State, p: Pid, q: Pid, t: TaskName, stale: JobId, id: JobId)
    requires p in s.ops && q in s.ops && p != q && s.ops[p] == [Peek(t, false)] && s.ops[q] == [Peek(t, false)]
    requires QueueOf(s, t) == [stale, id] && !IsQueueing(s.jobs, stale) && Pending(s, id, t)
    ensures
      var r := s.(queue := s.queue[t := []], ops := s.ops - {p, q});
      Reach(s, r) && Lost(r, id)
  {
    hide Reach;
    BothLook(s, p, q, t, stale);
    var s1 := s.(ops := s.ops[p := [Drop(t)]][q := [Drop(t)]]);
    assert QueueOf(s1, t)[1..] == [id];
    var m2 := s1.(queue := s.queue[t := [id]]);
    Drops(s1, p, t, m2);
    var s2 := Now(m2, p, [Peek(t, false)]);
    ReachTwice(s, s1, s2);
    assert QueueOf(s2, t)[1..] == [];
    var m3 := s2.(queue := s.queue[t := []]);
    Drops(s2, q, t, m3);
    var s3 := Now(m3, q, [Peek(t, false)]);
    ReachTwice(s, s2, s3);
    PeeksNothing(s3, p, t);
    var s4 := Now(s3, p, []);
    ReachTwice(s, s3, s4);
    PeeksNothing(s4, q, t);
    ReachTwice(s, s4, Now(s4, q, []));
    assert Now(s4, q, []) == s.(queue := s.queue[t := []], ops := s.ops - {p, q});
  }

  lemma BothLook(s: State, p: Pid, q: Pid, t: TaskName, stale: JobId)
    requires p in s.ops && q in s.ops && p != q && s.ops[p] == [Peek(t, false)] && s.ops[q] == [Peek(t, false)]
    requires QueueOf(s, t) != [] && QueueOf(s, t)[0] == stale && !IsQueueing(s.jobs, stale)
    ensures Reach(s, s.(ops := s.ops[p := [Drop(t)]][q := [Drop(t)]]))
  {
    hide Reach;
    PeeksHead(s, p, t, false, stale);
    var s1 := Now(s, p, [Look(t, stale)]);
    PeeksHead(s1, q, t, false, stale);
    var s2 := Now(s1, q, [Look(t, stale)]);
    ReachTwice(s, s1, s2);
    LooksStale(s2, p, t, stale);
    var s3 := Now(s2, p, [Drop(t)]);
    ReachTwice(s, s2, s3);
    LooksStale(s3, q, t, stale);
    ReachTwice(s, s3, Now(s3, q, [Drop(t)]));
    assert Now(s3, q, [Drop(t)]) == s.(ops := s.ops[p := [Drop(t)]][q := [Drop(t)]]);
  }

  // ---- Jobs added at the wrong moment ----

  lemma Saves(s: State, p: Pid, t: TaskName, id: JobId, left: seq<Access>, r: State)
    requires p in s.ops && s.ops[p] == [Save(t, false, t in s.loading)] && id !in s.jobs && id !in QueueOf(s, t)
    requires left == (if t in s.loading then [] else [PushNew(t, id)]) && r == s.(jobs := s.jobs[id := Row(t, Queueing)])
    ensures Reach(s, Now(r, p, left))
  {
    hide Reach;
    assert left + [] == left;
    Does(s, p, ANY.(id := id), Save(t, false, t in s.loading), [], left, r);
  }

  /** `AddJob` begins, reads the flags and saves its row; only without a loading flag is it going to push. */
  lemma AddSaves(s: State, p: Pid, t: TaskName, id: JobId, left: seq<Access>)
    requires p !in s.ops && t in s.tasks && t !in s.holding && id !in s.jobs && id !in QueueOf(s, t)
    requires left == if t in s.loading then [] else [PushNew(t, id)]
    ensures Reach(s, Now(s.(jobs := s.jobs[id := Row(t, Queueing)], ops := s.ops[p := []]), p, left))
  {
    hide Reach;
    var s1 := s.(ops := s.ops[p := [ReadFlags(t)]]);
    Begins(s, p, AddJob(t), [ReadFlags(t)]);
    var save := Save(t, false, t in s.loading);
    Does(s1, p, ANY, ReadFlags(t), [], [save], s1);
    var s2 := Now(s1, p, [save]);
    ReachTwice(s, s1, s2);
    var r := s2.(jobs := s.jobs[id := Row(t, Queueing)]);
    Saves(s2, p, t, id, left, r);
    ReachTwice(s, s2, Now(r, p, left));
    assert Now(r, p, left) == Now(s.(jobs := s.jobs[id := Row(t, Queueing)], ops := s.ops[p := []]), p, left);
  }

  /** From any state: a clean announces itself, a job is added, and the clean ends. The job is QUEUEING outside its queue,
      both operations are over, and nothing else has changed but the flag. */
  lemma AddedInWindowStrands(s: State, p: Pid, q: Pid, t: TaskName, id: JobId)
    requires p !in s.ops && q !in s.ops && p != q && t in s.tasks && t !in s.holding && id !in s.jobs && id !in QueueOf(s, t)
    ensures
      var r := s.(jobs := s.jobs[id := Row(t, Queueing)], loading := s.loading - {t});
      Reach(s, r) && Lost(r, id)
  {
    hide Reach;
    var down := [SetLoading(t, false)];
    assert Program(s, CleanJob(t, [])) == [SetLoading(t, true)] + down;
    var s1 := s.(ops := s.ops[q := [SetLoading(t, true)] + down]);
    Begins(s, q, CleanJob(t, []), [SetLoading(t, true)] + down);
    var up := s1.(loading := s.loading + {t});
    SetsLoading(s1, q, t, true, down, up);
    var s2 := Now(up, q, down);
    ReachTwice(s, s1, s2);
    AddSaves(s2, p, t, id, []);
    var s3 := s2.(jobs := s.jobs[id := Row(t, Queueing)]);
    assert Now(s2.(jobs := s2.jobs[id := Row(t, Queueing)], ops := s2.ops[p := []]), p, []) == s3;
    ReachTwice(s, s2, s3);
    assert down == [SetLoading(t, false)] + [];
    SetsLoading(s3, q, t, false, [], s3.(loading := s.loading - {t}));
    var r := s.(jobs := s.jobs[id := Row(t, Queueing)], loading := s.loading - {t});
    assert Now(s3.(loading := s.loading - {t}), q, []) == r;
    ReachTwice(s, s3, r);
  }

  /** `StopAllJob` lowers its flags before it clears the queue. From any state in which one has come so far: a job added
      then is pushed behind what is queued, unarmed, and lost by the clear. */
  lemma AddedBeforeClearStrands(s: State, p: Pid, q: Pid, t: TaskName, id: JobId)
    requires p !in s.ops && q in s.ops && s.ops[q] == [Clear(t)] && QueueOf(s, t) != []
    requires t in s.tasks && t !in s.holding && t !in s.loading && id !in s.jobs && id !in QueueOf(s, t)
    ensures
      var r := s.(jobs := s.jobs[id := Row(t, Queueing)], queue := s.queue[t := []], ops := s.ops - {q});
      Reach(s, r) && Lost(r, id)
  {
    hide Reach;
    AddSaves(s, p, t, id, [PushNew(t, id)]);
    var s1 := s.(jobs := s.jobs[id := Row(t, Queueing)], ops := s.ops[p := [PushNew(t, id)]]);
    assert Now(s.(jobs := s.jobs[id := Row(t, Queueing)], ops := s.ops[p := []]), p, [PushNew(t, id)]) == s1;
    var pushed := s1.(queue := s.queue[t := QueueOf(s, t) + [id]]);
    Does(s1, p, ANY, PushNew(t, id), [], [], pushed);
    var s2 := Now(pushed, p, []);
    ReachTwice(s, s1, s2);
    var cleared := s2.(queue := s.queue[t := []]);
    Does(s2, q, ANY, Clear(t), [], [], cleared);
    ReachTwice(s, s2, Now(cleared, q, []));
    assert Now(cleared, q, []) == s.(jobs := s.jobs[id := Row(t, Queueing)], queue := s.queue[t := []], ops := s.ops - {q});
  }
}
