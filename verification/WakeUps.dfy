/** No wake-up is lost: a task with a queue has its ticker running, or an operation under way will see to it. */
module WakeUps {
  import opened JobModel
  import opened Interleaving
  import opened LostJobs

  // ---- What an operation has still to see to ----

  /** The access ends in a look at task t's queue, or empties it. */
  predicate Always(a: Access, t: TaskName) {
    (a.Peek? || a.Clear? || a.ReadHold? || a.Drop?) && a.task == t
  }

  /** The access will, while h is the head of the queue, start the ticker for it. */
  predicate ForHead(a: Access, t: TaskName, h: JobId) {
    (a.Look? || a.StartTicker? || a.IfIdle?) && a.task == t && a.id == h
  }

  ghost predicate Ends(ops: seq<Access>, t: TaskName) {
    exists a :: a in ops && Always(a, t)
  }

  ghost predicate Sees(ops: seq<Access>, t: TaskName, h: JobId) {
    Ends(ops, t) || exists a :: a in ops && ForHead(a, t, h)
  }

  /** What must follow an access: whatever stops a ticker, ends a hold, pops or pushes goes on to look at the queue, and a
      semaphore taken is freed, once. */
  ghost predicate SafeAccess(a: Access, rest: seq<Access>) {
    match a
    case StopTicker(t) => Ends(rest, t)
    case SetHold(t, on) => on || Ends(rest, t)
    case TryLock(t) => Ends(rest, t)
    case Take(t) => Ends(rest, t)
    case Fetch(t, _) => Ends(rest, t)
    case Handle(t, _) => Ends(rest, t)
    case Feed(t) => Ends(rest, t)
    case Recover(t) => Ends(rest, t)
    case PushJob(t, id) => Ends(rest, t) || StartTicker(t, id) in rest
    case ReadHold(t) => Acquire(t) !in rest && Free(t) !in rest
    case Acquire(t) => Acquire(t) !in rest && Free(t) in rest
    case Free(t) => Free(t) !in rest && Acquire(t) !in rest && Ends(rest, t)
    case _ => true
  }

  ghost predicate Safe(ops: seq<Access>) {
    ops == [] || (SafeAccess(ops[0], ops[1..]) && Safe(ops[1..]))
  }

  lemma SafeCons(a: Access, ops: seq<Access>)
    requires SafeAccess(a, ops) && Safe(ops)
    ensures Safe([a] + ops)
  {
    assert ([a] + ops)[1..] == ops;
  }

  lemma SafePair(a: Access, b: Access, ops: seq<Access>)
    requires SafeAccess(b, ops) && SafeAccess(a, [b] + ops) && Safe(ops)
    ensures Safe([a, b] + ops)
  {
    SafeCons(b, ops);
    SafeCons(a, [b] + ops);
    assert [a, b] + ops == [a] + ([b] + ops);
  }

  lemma EndsIn(ops: seq<Access>, a: Access, t: TaskName)
    requires a in ops && Always(a, t)
    ensures Ends(ops, t)
  {
  }

  /** The accesses that follow another are as safe as it is. */
  lemma SafeFollow(s: State, a: Access, c: Choice, rest: seq<Access>)
    requires SafeAccess(a, rest) && Safe(rest)
    ensures Safe(Follow(s, a, c) + rest)
  {
    hide Safe, Ends, Always;
    assert [] + rest == rest;
    match a
    case ReadHold(t) =>
      if t !in s.holding { SafeTrigger(t, rest); }
    case Peek(t, withStream) =>
      if QueueOf(s, t) == [] && withStream {
        PeekEnds(t, false, rest);
        SafePair(Feed(t), Peek(t, false), rest);
      } else {
        SafeSingle(s, a, c, rest);
      }
    case Feed(t) =>
      if c.more {
        EndsLater(Feed(t), rest, t);
        SafePair(PushJob(t, c.id), Feed(t), rest);
      }
    case Fetch(t, id) =>
      if IsQueueing(s.jobs, id) { SafePair(SetRow(id, Retrying), Handle(t, id), rest); }
    case Handle(t, id) =>
      if c.ending == Final(Queueing) {
        EndsLater(SetRow(id, Queueing), rest, t);
        SafePair(PushJob(t, id), SetRow(id, Queueing), rest);
      } else {
        SafeSingle(s, a, c, rest);
      }
    case Count(t) => SafeCount(t, rest);
    case Recover(t) =>
      if c.more { SafeRecover(t, c.id, rest); }
    case _ => SafeSingle(s, a, c, rest);
  }

  lemma SafeRecover(t: TaskName, id: JobId, rest: seq<Access>)
    requires Ends(rest, t) && Safe(rest)
    ensures Safe([PushJob(t, id), Recover(t)] + rest) && Safe([SetRow(id, Queueing), PushJob(t, id), Recover(t)] + rest)
  {
    hide Safe, Ends;
    EndsLater(Recover(t), rest, t);
    SafePair(PushJob(t, id), Recover(t), rest);
    SafeCons(SetRow(id, Queueing), [PushJob(t, id), Recover(t)] + rest);
    assert [SetRow(id, Queueing), PushJob(t, id), Recover(t)] + rest == [SetRow(id, Queueing)] + ([PushJob(t, id), Recover(t)] + rest);
  }

  lemma SafeSingle(s: State, a: Access, c: Choice, rest: seq<Access>)
    requires SafeAccess(a, rest) && Safe(rest) && |Follow(s, a, c)| <= 1
    ensures Safe(Follow(s, a, c) + rest)
  {
    hide Safe, Ends, Always;
    var f := Follow(s, a, c);
    if f == [] {
      assert f + rest == rest;
    } else {
      assert f == [f[0]];
      SafeCons(f[0], rest);
    }
  }

  lemma PeekEnds(t: TaskName, withStream: bool, rest: seq<Access>)
    ensures Ends([Peek(t, withStream)] + rest, t)
  {
    EndsIn([Peek(t, withStream)] + rest, Peek(t, withStream), t);
  }

  lemma EndsLater(a: Access, rest: seq<Access>, t: TaskName)
    requires Ends(rest, t)
    ensures Ends([a] + rest, t)
  {
    var b :| b in rest && Always(b, t);
    assert b in [a] + rest;
  }

  lemma SafeTrigger(t: TaskName, rest: seq<Access>)
    requires Safe(rest) && Acquire(t) !in rest && Free(t) !in rest
    ensures Safe([Acquire(t), TryLock(t), Free(t), Peek(t, true)] + rest)
  {
    hide Safe, Ends;
    var tail := [Peek(t, true)] + rest;
    SafeCons(Peek(t, true), rest);
    EndsIn(tail, Peek(t, true), t);
    EndsIn([Free(t)] + tail, Peek(t, true), t);
    SafePair(TryLock(t), Free(t), tail);
    SafeCons(Acquire(t), [TryLock(t), Free(t)] + tail);
    assert [Acquire(t), TryLock(t), Free(t), Peek(t, true)] + rest == [Acquire(t)] + ([TryLock(t), Free(t)] + tail);
  }

  lemma SafeCount(t: TaskName, rest: seq<Access>)
    requires Safe(rest)
    ensures Safe([SetLoading(t, true), Recover(t), SetLoading(t, false), Peek(t, false)] + rest)
    ensures Safe([SetLoading(t, true), SetLoading(t, false)] + rest)
  {
    var tail := [SetLoading(t, false), Peek(t, false)] + rest;
    SafePair(SetLoading(t, false), Peek(t, false), rest);
    EndsIn(tail, Peek(t, false), t);
    SafePair(SetLoading(t, true), Recover(t), tail);
    assert [SetLoading(t, true), Recover(t), SetLoading(t, false), Peek(t, false)] + rest ==
      [SetLoading(t, true), Recover(t)] + tail;
    SafePair(SetLoading(t, true), SetLoading(t, false), rest);
  }

  // ---- The operations ----

  lemma {:induction false} SafeRewrites(t: TaskName, statuses: seq<Status>, after: Status, rest: seq<Access>)
    requires Safe(rest)
    ensures Safe(Rewrites(t, statuses, after) + rest)
    ensures forall a :: a in rest ==> a in Rewrites(t, statuses, after) + rest
  {
    if statuses == [] {
      assert [] + rest == rest;
    } else {
      var more := Rewrites(t, statuses[1..], after);
      SafeRewrites(t, statuses[1..], after, rest);
      SafeCons(Rewrite(t, statuses[0], after), more + rest);
      assert [Rewrite(t, statuses[0], after)] + (more + rest) == [Rewrite(t, statuses[0], after)] + more + rest;
    }
  }

  lemma {:induction false} SafeRemovals(n: nat, rest: seq<Access>)
    requires Safe(rest)
    ensures Safe(Removals(n) + rest)
  {
    if n == 0 {
      assert [] + rest == rest;
    } else {
      SafeRemovals(n - 1, rest);
      SafeCons(Remove, Removals(n - 1) + rest);
      assert [Remove] + (Removals(n - 1) + rest) == [Remove] + Removals(n - 1) + rest;
    }
  }

  lemma SafeRequeue(t: TaskName, statuses: seq<Status>)
    ensures Safe(Requeue(t, statuses)) && Ends(Requeue(t, statuses), t)
  {
    var tail := [SetLoading(t, false), Peek(t, false)];
    SafePair(SetLoading(t, false), Peek(t, false), []);
    assert tail + [] == tail;
    SafeRewrites(t, statuses, Queueing, tail);
    var rest := Rewrites(t, statuses, Queueing) + tail;
    EndsIn(rest, Peek(t, false), t);
    SafePair(SetLoading(t, true), Feed(t), rest);
    assert Requeue(t, statuses) == [SetLoading(t, true), Feed(t)] + rest;
    EndsIn(Requeue(t, statuses), Peek(t, false), t);
  }

  lemma SafeNone()
    ensures Safe([])
  {
  }

  lemma ClearIsAlways(t: TaskName)
    ensures Always(Clear(t), t)
  {
  }

  lemma SafeStopAll(t: TaskName)
    ensures Safe([SetLoading(t, true), SetHold(t, true), StopTicker(t), Rewrite(t, Queueing, Stopped), Rewrite(t, Retrying, Stopped),
                  SetHold(t, false), SetLoading(t, false), Clear(t)])
  {
    hide Safe, Ends, Always;
    var a := [SetLoading(t, false), Clear(t)];
    SafeNone();
    ClearIsAlways(t);
    SafePair(SetLoading(t, false), Clear(t), []);
    assert a + [] == a;
    EndsIn(a, Clear(t), t);
    var b := [Rewrite(t, Retrying, Stopped), SetHold(t, false)] + a;
    SafePair(Rewrite(t, Retrying, Stopped), SetHold(t, false), a);
    var c := [StopTicker(t), Rewrite(t, Queueing, Stopped)] + b;
    EndsIn([Rewrite(t, Queueing, Stopped)] + b, Clear(t), t);
    SafePair(StopTicker(t), Rewrite(t, Queueing, Stopped), b);
    SafePair(SetLoading(t, true), SetHold(t, true), c);
    assert [SetLoading(t, true), SetHold(t, true), StopTicker(t), Rewrite(t, Queueing, Stopped), Rewrite(t, Retrying, Stopped),
            SetHold(t, false), SetLoading(t, false), Clear(t)] == [SetLoading(t, true), SetHold(t, true)] + c;
  }

  /** Two accesses, the second of which sees to the queue. */
  lemma SafeTwo(a: Access, b: Access)
    requires SafeAccess(a, [b]) && SafeAccess(b, [])
    ensures Safe([a, b])
  {
    SafePair(a, b, []);
    assert [a, b] + [] == [a, b];
    assert [b] + [] == [b];
  }

  lemma SafeProgram(s: State, op: Operation)
    requires Starts(s, op)
    ensures Safe(Program(s, op))
  {
    match op
    case RetryJob(id) =>
      var t := s.jobs[id].task;
      SafeTwo(PushJob(t, id), StartTicker(t, id));
      SafeCons(SetRow(id, Queueing), [PushJob(t, id), StartTicker(t, id)]);
      SafeCons(SetRow(id, Queueing), []);
    case StopJob(id) =>
      var Row(t, before) := s.jobs[id];
      var tail := [StopRow(id, before), Peek(t, false)];
      SafeTwo(StopRow(id, before), Peek(t, false));
      EndsIn(tail, Peek(t, false), t);
      SafeCons(StopTicker(t), tail);
      assert [] + tail == tail;
    case StopAllJob(t) => SafeStopAll(t);
    case RetryAllJob(t, statuses) => SafeRequeue(t, statuses);
    case CleanJob(t, statuses) =>
      SafeCons(SetLoading(t, false), []);
      assert [SetLoading(t, false)] + [] == [SetLoading(t, false)];
      SafeRemovals(|statuses|, [SetLoading(t, false)]);
      SafeCons(SetLoading(t, true), Removals(|statuses|) + [SetLoading(t, false)]);
      assert [SetLoading(t, true)] + (Removals(|statuses|) + [SetLoading(t, false)]) == Program(s, op);
    case HoldJobTask(t) =>
      if t in s.holding {
        SafeRequeue(t, [Hold]);
        SafeCons(SetHold(t, false), Requeue(t, [Hold]));
      }
    case TriggerTask(t) =>
      EndsIn([ReadHold(t)], ReadHold(t), t);
      SafeTwo(StopTicker(t), ReadHold(t));
    case Shutdown(t) =>
      EndsIn([Clear(t)], Clear(t), t);
      SafeTwo(StopTicker(t), Clear(t));
    case _ =>
  }

  // ---- The invariant ----

  /** A registered task, not on hold and with something queued, has its ticker running, a run-out job at the head, or an operation
      that will see to it. */
  ghost predicate Tended(s: State, t: TaskName) {
    t in s.tasks && QueueOf(s, t) != [] && t !in s.holding ==>
      t in s.armed || QueueOf(s, t)[0] in s.exhausted || exists pid :: pid in s.ops && Sees(s.ops[pid], t, QueueOf(s, t)[0])
  }

  /** The operation is between taking and freeing task t's semaphore. */
  predicate Inside(ops: seq<Access>, t: TaskName) {
    Free(t) in ops && Acquire(t) !in ops
  }

  ghost predicate Exclusive(s: State, t: TaskName) {
    && (t in s.busy ==> exists pid :: pid in s.ops && Inside(s.ops[pid], t))
    && (forall pid :: pid in s.ops && Inside(s.ops[pid], t) ==> t in s.busy)
    && forall p, q :: p in s.ops && q in s.ops && Inside(s.ops[p], t) && Inside(s.ops[q], t) ==> p == q
  }

  ghost predicate AllSafe(s: State) {
    forall pid :: pid in s.ops ==> Safe(s.ops[pid])
  }

  ghost predicate Inv(s: State) {
    AllSafe(s) && (forall t: TaskName :: Exclusive(s, t)) && forall t: TaskName :: Tended(s, t)
  }

  /** One access: the queue afterwards is empty or on hold, or its ticker runs or its head has run out, or the operation
      sees to it, or a semaphore is taken; otherwise nothing about it has changed, and the access was not to see to it. */
  lemma AccessTends(s: State, a: Access, rest: seq<Access>, c: Choice, t: TaskName)
    requires SafeAccess(a, rest)
    requires var r := Effect(s, a, c); QueueOf(r, t) != [] && t !in r.holding
    ensures
      var r := Effect(s, a, c);
      var h := QueueOf(r, t)[0];
      || t in r.armed || h in r.exhausted || Sees(Follow(s, a, c) + rest, t, h) || (a.IfIdle? && a.task == t && t in s.busy)
      || (QueueOf(s, t) != [] && QueueOf(s, t)[0] == h && t !in s.holding && t !in s.armed && h !in s.exhausted
          && !Always(a, t) && !ForHead(a, t, h))
  {
    var r := Effect(s, a, c);
    var h, f := QueueOf(r, t)[0], Follow(s, a, c);
    SeesParts(a, f, rest, t, h);
    if f != [] { SeesFollow(f, rest, t, h); }
    RestSees(rest, t, h);
    hide Ends, Sees;
  }

  lemma RestSees(ops: seq<Access>, t: TaskName, h: JobId)
    ensures Ends(ops, t) || StartTicker(t, h) in ops ==> Sees(ops, t, h)
  {
    assert ForHead(StartTicker(t, h), t, h);
  }

  /** The first or the last of the accesses that follow. */
  lemma SeesFollow(follow: seq<Access>, rest: seq<Access>, t: TaskName, h: JobId)
    requires follow != []
    ensures Always(follow[0], t) || ForHead(follow[0], t, h) || Always(follow[|follow| - 1], t) ==> Sees(follow + rest, t, h)
  {
    assert follow[0] in follow + rest && follow[|follow| - 1] in follow + rest;
  }

  lemma SeesParts(a: Access, follow: seq<Access>, rest: seq<Access>, t: TaskName, h: JobId)
    ensures Sees([a] + rest, t, h) ==> Always(a, t) || ForHead(a, t, h) || Sees(rest, t, h)
    ensures Sees(rest, t, h) ==> Sees(follow + rest, t, h)
    ensures !Sees([], t, h)
  {
    if Sees(rest, t, h) {
      if Ends(rest, t) {
        var b :| b in rest && Always(b, t);
        assert b in follow + rest;
      } else {
        var b :| b in rest && ForHead(b, t, h);
        assert b in follow + rest;
      }
    }
  }

  lemma {:induction false} FreeEnds(ops: seq<Access>, t: TaskName)
    requires Safe(ops) && Free(t) in ops
    ensures Ends(ops, t)
  {
    if ops[0] == Free(t) {
      var b :| b in ops[1..] && Always(b, t);
    } else {
      FreeEnds(ops[1..], t);
      var b :| b in ops[1..] && Always(b, t);
    }
  }

  lemma NextTended(s: State, pid: Pid, c: Choice, t: TaskName)
    requires AllSafe(s) && Exclusive(s, t) && Tended(s, t) && Enabled(s, Next(pid, c))
    ensures Tended(Apply(s, Next(pid, c)), t)
  {
    var r := Apply(s, Next(pid, c));
    var a, rest := s.ops[pid][0], s.ops[pid][1..];
    var e, follow := Effect(s, a, c), Follow(s, a, c);
    assert r == e.(ops := Left(s.ops, pid, follow + rest));
    if t in r.tasks && QueueOf(r, t) != [] && t !in r.holding && t !in r.armed && QueueOf(r, t)[0] !in r.exhausted {
      var h := QueueOf(r, t)[0];
      AccessTends(s, a, rest, c, t);
      hide Effect, Follow, Sees, Safe;
      assert QueueOf(e, t) == QueueOf(r, t);
      SeesParts(a, follow, rest, t, h);
      assert s.ops[pid] == [a] + rest;
      var p: Pid;
      if Sees(follow + rest, t, h) {
        p := pid;
      } else if a.IfIdle? && a.task == t && t in s.busy {
        p :| p in s.ops && Inside(s.ops[p], t);
        BusyIsSeen(s, pid, p, a, follow, rest, t, h);
      } else {
        p :| p in s.ops && Sees(s.ops[p], t, h);
      }
      assert p in r.ops && Sees(r.ops[p], t, h);
    }
  }

  lemma BusyIsSeen(s: State, pid: Pid, p: Pid, a: Access, follow: seq<Access>, rest: seq<Access>, t: TaskName, h: JobId)
    requires AllSafe(s) && pid in s.ops && p in s.ops && Inside(s.ops[p], t) && s.ops[pid] == [a] + rest && a.IfIdle?
    ensures p == pid ==> Sees(follow + rest, t, h)
    ensures p != pid ==> Sees(s.ops[p], t, h)
  {
    FreeEnds(s.ops[p], t);
    SeesParts(a, follow, rest, t, h);
    assert p == pid ==> Free(t) in rest;
    if p == pid { FreeEnds(s.ops[pid][1..], t); }
  }

  // ---- One handler per task ----

  lemma NextExclusive(s: State, pid: Pid, c: Choice, t: TaskName)
    requires AllSafe(s) && Exclusive(s, t) && Enabled(s, Next(pid, c))
    ensures Exclusive(Apply(s, Next(pid, c)), t)
  {
    var r := Apply(s, Next(pid, c));
    var a, rest := s.ops[pid][0], s.ops[pid][1..];
    var e, follow := Effect(s, a, c), Follow(s, a, c);
    assert r == e.(ops := Left(s.ops, pid, follow + rest));
    InsideParts(s, a, c, rest, t);
    assert s.ops[pid] == [a] + rest;
    assert SafeAccess(a, rest);
    EffectOnBusy(s, a, c, t);
    hide Effect, Follow, SafeAccess, Safe;
    forall p | p in s.ops && p != pid ensures p in r.ops && r.ops[p] == s.ops[p] {
    }
    forall p | p in r.ops && p != pid ensures p in s.ops && r.ops[p] == s.ops[p] {
    }
    assert pid in r.ops <==> follow + rest != [];
    assert Inside(follow + rest, t) ==> pid in r.ops && r.ops[pid] == follow + rest;
  }

  lemma EffectOnBusy(s: State, a: Access, c: Choice, t: TaskName)
    ensures t in Effect(s, a, c).busy <==> (a == Acquire(t) || (t in s.busy && a != Free(t)))
  {
  }

  /** An operation gets inside by taking the semaphore and outside by freeing it, and not otherwise. */
  lemma InsideParts(s: State, a: Access, c: Choice, rest: seq<Access>, t: TaskName)
    requires SafeAccess(a, rest)
    ensures a == Acquire(t) ==> !Inside([a] + rest, t) && Inside(Follow(s, a, c) + rest, t)
    ensures a == Free(t) ==> Inside([a] + rest, t) && !Inside(Follow(s, a, c) + rest, t)
    ensures a != Acquire(t) && a != Free(t) ==> (Inside([a] + rest, t) <==> Inside(Follow(s, a, c) + rest, t))
  {
    var f := Follow(s, a, c);
    if a == ReadHold(t) {
      assert Acquire(t) in f ==> f[0] == Acquire(t);
    } else {
      assert Acquire(t) !in f && Free(t) !in f;
    }
  }

  // ---- Every step and every run ----

  lemma {:induction false} NoFreeInRewrites(t: TaskName, statuses: seq<Status>, after: Status, u: TaskName)
    ensures Free(u) !in Rewrites(t, statuses, after)
  {
    if statuses != [] { NoFreeInRewrites(t, statuses[1..], after, u); }
  }

  lemma {:induction false} NoFreeInRemovals(n: nat, u: TaskName)
    ensures Free(u) !in Removals(n)
  {
    if n > 0 { NoFreeInRemovals(n - 1, u); }
  }

  /** No operation starts inside. */
  lemma StartsOutside(s: State, op: Operation, u: TaskName)
    requires Starts(s, op)
    ensures Free(u) !in Program(s, op)
  {
    match op
    case RetryAllJob(t, statuses) => NoFreeInRewrites(t, statuses, Queueing, u);
    case HoldJobTask(t) => NoFreeInRewrites(t, [Hold], Queueing, u);
    case CleanJob(t, statuses) => NoFreeInRemovals(|statuses|, u);
    case _ =>
  }

  lemma BeginInv(s: State, pid: Pid, op: Operation)
    requires Inv(s) && Enabled(s, Begin(pid, op))
    ensures Inv(Apply(s, Begin(pid, op)))
  {
    var r, p := Apply(s, Begin(pid, op)), Program(s, op);
    SafeProgram(s, op);
    hide Program, Safe, Sees;
    forall t: TaskName ensures Exclusive(r, t) && Tended(r, t) {
      StartsOutside(s, op, t);
      assert Exclusive(s, t) && Tended(s, t);
      forall q | q in s.ops ensures q in r.ops && r.ops[q] == s.ops[q] {
      }
      forall q | q in r.ops ensures q == pid || (q in s.ops && r.ops[q] == s.ops[q]) {
      }
    }
  }

  lemma RestartInv(s: State, memory: bool)
    requires Inv(s)
    ensures Inv(Apply(s, Restart(memory)))
  {
    var r := Apply(s, Restart(memory));
    forall t: TaskName ensures Safe(Prepare(t)) && Ends(Prepare(t), t) {
      SafeTwo(Clear(t), Count(t));
      EndsIn(Prepare(t), Clear(t), t);
    }
    forall t: TaskName ensures Exclusive(r, t) && Tended(r, t) {
      assert forall pid :: pid in r.ops ==> Free(t) !in r.ops[pid];
      assert t in s.tasks ==> t in r.ops && Ends(r.ops[t], t);
    }
  }

  lemma StepInv(s: State, step: Step)
    requires Inv(s) && Enabled(s, step)
    ensures Inv(Apply(s, step))
  {
    var r := Apply(s, step);
    match step
    case Begin(pid, op) =>
      BeginInv(s, pid, op);
    case Next(pid, c) =>
      SafeFollow(s, s.ops[pid][0], c, s.ops[pid][1..]);
      assert AllSafe(r) by { hide Effect, Follow; }
      forall t: TaskName ensures Exclusive(r, t) && Tended(r, t) {
        NextExclusive(s, pid, c, t);
        NextTended(s, pid, c, t);
      }
    case Expire(id) =>
      forall t: TaskName ensures Exclusive(r, t) && Tended(r, t) {
        assert Exclusive(s, t) && Tended(s, t);
      }
    case Restart(memory) => RestartInv(s, memory);
  }

  /** In every interleaving of any number of operations the operations left are safe, each task has at most one handler, and
      every registered task with something queued is on hold, has its ticker running or a run-out job at the head, or
      is seen to by an operation under way. */
  lemma {:induction false} RunInv(states: seq<State>, steps: seq<Step>, n: nat)
    requires Run(states, steps) && n < |states| && Inv(states[0])
    ensures Inv(states[n])
  {
    hide Inv, Apply;
    if n > 0 {
      RunInv(states, steps, n - 1);
      var s, step := states[n - 1], steps[n - 1];
      StepInv(s, step);
      assert states[n - 1 + 1] == Apply(s, step);
    }
  }

  /** The semaphores keep one handler per task. */
  lemma OneHandler(states: seq<State>, steps: seq<Step>, n: nat, t: TaskName, p: Pid, q: Pid)
    requires Run(states, steps) && n < |states| && Inv(states[0])
    requires p in states[n].ops && q in states[n].ops && Inside(states[n].ops[p], t) && Inside(states[n].ops[q], t)
    ensures p == q && t in states[n].busy
  {
    RunInv(states, steps, n);
    hide Run;
    assert Exclusive(states[n], t);
  }

  /** Together: in every interleaving a QUEUEING job of a registered task is in the hand of an operation, or was lost by one
      of the losing accesses and not pushed since, or is in its queue, and its task is on hold, has its ticker running, is
      blocked by a run-out job at the head, or is seen to by an operation under way. */
  lemma NoJobStranded(states: seq<State>, steps: seq<Step>, n: nat, id: JobId)
    requires Run(states, steps) && n < |states| && !Lost(states[0], id) && Inv(states[0])
    requires IsQueueing(states[n].jobs, id) && states[n].jobs[id].task in states[n].tasks
    ensures
      var s, t := states[n], states[n].jobs[id].task;
      || InHand(s, id)
      || (exists k: nat :: LostSince(states, steps, id, k, n))
      || (id in QueueOf(s, t) && (t in s.holding || t in s.armed || QueueOf(s, t)[0] in s.exhausted ||
                                  exists pid :: pid in s.ops && Sees(s.ops[pid], t, QueueOf(s, t)[0])))
  {
    LostExactlySince(states, steps, n, id);
    RunInv(states, steps, n);
    hide Run, LostSince, InHand, Sees;
    assert Tended(states[n], states[n].jobs[id].task);
  }

  /** Once every operation is over nothing is in hand and nothing will be seen to. */
  lemma NoJobStrandedAtRest(states: seq<State>, steps: seq<Step>, n: nat, id: JobId)
    requires Run(states, steps) && n < |states| && !Lost(states[0], id) && Inv(states[0]) && states[n].ops == map[]
    requires IsQueueing(states[n].jobs, id) && states[n].jobs[id].task in states[n].tasks
    ensures
      var s, t := states[n], states[n].jobs[id].task;
      || (exists k: nat :: LostSince(states, steps, id, k, n))
      || (id in QueueOf(s, t) && (t in s.holding || t in s.armed || QueueOf(s, t)[0] in s.exhausted))
  {
    NoJobStranded(states, steps, n, id);
    hide Run, LostSince;
  }

  /** A worker that has just been created. */
  lemma NewWorker(tasks: set<TaskName>)
    ensures var s := State(tasks, map[], map[], {}, {}, {}, {}, {}, map[]); Inv(s) && forall id :: !Lost(s, id)
  {
  }
}
