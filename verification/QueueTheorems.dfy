/** What `registerNextJob` keeps, finds and arms, and what the hold and a run-out job do to a queue. */
module QueueTheorems {
  import opened JobModel
  import opened JobSteps
  import opened CounterTheorems
  import opened BulkRows
  import opened RunTheorems
  import opened Arming

  // ---- Registering ----

  /** Only ids that are not queueing are dropped. */
  lemma {:induction false} RegisterKeepsEntry(s: State, withStream: bool, t: TaskName, u: TaskName, id: JobId)
    requires IsQueueing(s.jobs, id) && InQueue(s, u, id)
    ensures InQueue(RegisterNext(s, withStream, t), u, id)
    decreases withStream, |QueueOf(s, t)|
  {
    var q := QueueOf(s, t);
    if q != [] {
      if !IsQueueing(s.jobs, q[0]) {
        RegisterKeepsEntry(s.(queue := s.queue[t := q[1..]]), false, t, u, id);
      }
    } else if withStream {
      RegisterKeepsEntry(Push(s, t, OldestFirst(s.jobs, Where(s.jobs, t, Queueing))), false, t, u, id);
    }
  }

  /** Without streaming nothing enters a queue. */
  lemma {:induction false} RegisterAddsNothing(s: State, t: TaskName, u: TaskName, id: JobId)
    requires InQueue(RegisterNext(s, false, t), u, id)
    ensures InQueue(s, u, id)
    decreases |QueueOf(s, t)|
  {
    var q := QueueOf(s, t);
    if q != [] && !IsQueueing(s.jobs, q[0]) {
      RegisterAddsNothing(s.(queue := s.queue[t := q[1..]]), t, u, id);
    }
  }

  /** A stream that starts from the task's empty queue finds every queueing job of the task. */
  lemma StreamFinds(s: State, t: TaskName, id: JobId)
    requires QueueOf(s, t) == [] && IsQueueing(s.jobs, id) && s.jobs[id].task == t
    ensures InQueue(RegisterNext(s, true, t), t, id)
  {
    StreamsWhenEmpty(s, t);
    StreamedRows(s.jobs, t);
    hide RegisterNext, OldestFirst;
  }

  /** An idle task that is not on hold and has ids in its queue has its ticker running, or the head of its queue is a
      job whose cron expression has run out. */
  predicate Ticking(s: State, t: TaskName) {
    t !in s.exec && t !in s.holding && QueueOf(s, t) != [] ==> t in s.armed || QueueOf(s, t)[0] in s.exhausted
  }

  /** `registerNextJob` leaves the task with an empty queue, a running ticker or a run-out head, and other tasks alone. */
  lemma {:induction false} RegisterTicks(s: State, withStream: bool, t: TaskName, u: TaskName)
    requires u != t ==> Ticking(s, u)
    ensures Ticking(RegisterNext(s, withStream, t), u)
    decreases withStream, |QueueOf(s, t)|
  {
    var q := QueueOf(s, t);
    if q != [] {
      if !IsQueueing(s.jobs, q[0]) {
        RegisterTicks(s.(queue := s.queue[t := q[1..]]), false, t, u);
      }
    } else if withStream {
      RegisterTicks(Push(s, t, OldestFirst(s.jobs, Where(s.jobs, t, Queueing))), false, t, u);
    }
  }

  /** A run-out job at the head of an idle task's queue blocks it: the job added next is queued behind it and not armed, and
      `registerNextJob` changes nothing, with or without streaming. */
  lemma ExhaustedHeadBlocks(s: State, t: TaskName, maxRetry: int, interval: int, created: int, withStream: bool)
    requires WellFormed(s) && t in s.tasks && t !in s.exec && t !in s.holding && t !in s.loading && t !in s.armed
    requires QueueOf(s, t) != [] && IsQueueing(s.jobs, QueueOf(s, t)[0]) && QueueOf(s, t)[0] in s.exhausted
    requires maxRetry > 0 && interval >= 0
    ensures
      var r := AddJob(s, t, maxRetry, interval, false, created);
      && IsQueueing(r.jobs, s.nextId) && QueueOf(r, t) == QueueOf(s, t) + [s.nextId] && t !in r.armed && t !in r.exec
      && RegisterNext(r, withStream, t) == r
  {
    hide Increment;
    assert InQueue(s, t, QueueOf(s, t)[0]);
  }

  // ---- The hold ----

  /** Stopping all jobs of a task on hold ends the hold and leaves its held rows on HOLD, with nothing queued; they are
      queued again only by holding the task once more and releasing it. */
  lemma StopAllLeavesHeld(s: State, t: TaskName, id: JobId)
    requires t in s.tasks && id in s.jobs && s.jobs[id].task == t && s.jobs[id].status == Hold
    ensures
      var r := StopAll(s, t);
      && t !in r.holding && QueueOf(r, t) == [] && id in r.jobs && r.jobs[id] == s.jobs[id]
      && ToggleHold(r, t).jobs == r.jobs
      && IsQueueing(ToggleHold(ToggleHold(r, t), t).jobs, id) && InQueue(ToggleHold(ToggleHold(r, t), t), t, id)
  {
    hide StopAll, MoveAll, ToggleHold, Increment;
    StopAllShape(s, t);
    MoveAllExactly(s.jobs, map[], t, [Queueing, Retrying], s.jobs.Keys, Stopped, false, id);
    HoldAndRelease(StopAll(s, t), t, id);
  }

  lemma HoldAndRelease(s: State, t: TaskName, id: JobId)
    requires t in s.tasks && t !in s.holding && id in s.jobs && s.jobs[id].task == t && s.jobs[id].status == Hold
    ensures
      var held := ToggleHold(s, t);
      held.jobs == s.jobs && IsQueueing(ToggleHold(held, t).jobs, id) && InQueue(ToggleHold(held, t), t, id)
  {
    hide RegisterNext, Requeue, Stream;
    var held := ToggleHold(s, t);
    var pushed := SwitchHold(held, t);
    ReleaseQueues(held, t, id);
    RegisterKeepsEntry(Requeue(pushed, t, [Hold], held.jobs.Keys), false, t, t, id);
  }

  lemma ReleaseQueues(s: State, t: TaskName, id: JobId)
    requires t in s.tasks && t in s.holding && id in s.jobs && s.jobs[id].task == t && s.jobs[id].status == Hold
    ensures
      var r := Requeue(SwitchHold(s, t), t, [Hold], s.jobs.Keys);
      IsQueueing(r.jobs, id) && InQueue(r, t, id)
  {
    OldestFirstInOrder(s.jobs, Selected(s.(holding := s.holding - {t}), t, [Hold], s.jobs.Keys));
    MoveAllExactly(s.jobs, map[], t, [Hold], s.jobs.Keys, Queueing, true, id);
    hide Increment, OldestFirst, MoveAll;
  }

  /** A worker that has just been created satisfies everything the run theorems ask of the first state. */
  lemma InitialState(tasks: set<TaskName>)
    ensures
      var s := State(tasks, map[], map[], map[], map[], map[], {}, {}, {}, 0);
      WellFormed(s) && Exact(s) && Tidy(s) && RetryBound(s)
  {
    var s := State(tasks, map[], map[], map[], map[], map[], {}, {}, {}, 0);
    forall t: TaskName, st: Status ensures Count(s.jobs, t, st) == 0 {
      assert Where(s.jobs, t, st) == {};
    }
  }
}
