/** Which job `registerNextJob` arms, and what it does to the queue on the way. */
module Arming {
  import opened JobModel
  import opened JobSteps

  /** n is the length of the longest prefix of ids that are not queueing. */
  ghost predicate StalePrefix(jobs: Table, q: seq<JobId>, n: nat) {
    && n <= |q|
    && (forall i :: 0 <= i < n ==> !IsQueueing(jobs, q[i]))
    && (n < |q| ==> IsQueueing(jobs, q[n]))
  }

  /** A queue that is not empty loses exactly its longest stale prefix, and its new head is armed. */
  lemma {:induction false} DropsStalePrefix(s: State, withStream: bool, t: TaskName, n: nat)
    requires QueueOf(s, t) != [] && StalePrefix(s.jobs, QueueOf(s, t), n)
    ensures
      var q, r := QueueOf(s, t), RegisterNext(s, withStream, t);
      && QueueOf(r, t) == q[n..]
      && r.armed == if n < |q| && q[n] !in s.exhausted then s.armed[t := q[n]] else s.armed
    decreases |QueueOf(s, t)|
  {
    var q := QueueOf(s, t);
    if n > 0 {
      var rest := s.(queue := s.queue[t := q[1..]]);
      if |q| > 1 {
        assert StalePrefix(s.jobs, q[1..], n - 1);
        DropsStalePrefix(rest, false, t, n - 1);
        assert q[1..][n - 1..] == q[n..];
      }
    }
  }

  /** The rows streamed in: all queueing jobs of the task, oldest first. */
  lemma StreamedRows(jobs: Table, t: TaskName)
    ensures
      var all := OldestFirst(jobs, Where(jobs, t, Queueing));
      InOrder(jobs, all) && forall id: JobId :: id in all <==> IsQueueing(jobs, id) && jobs[id].task == t
  {
    OldestFirstInOrder(jobs, Where(jobs, t, Queueing));
    hide OldestFirst;
  }

  /** An empty queue with streaming becomes those rows, and the oldest is armed. */
  lemma StreamsWhenEmpty(s: State, t: TaskName)
    requires QueueOf(s, t) == []
    ensures
      var all, r := OldestFirst(s.jobs, Where(s.jobs, t, Queueing)), RegisterNext(s, true, t);
      QueueOf(r, t) == all && r.armed == if all != [] && all[0] !in s.exhausted then s.armed[t := all[0]] else s.armed
  {
    hide OldestFirst, InOrder;
    var all := OldestFirst(s.jobs, Where(s.jobs, t, Queueing));
    var m := Push(s, t, all);
    StreamedRows(s.jobs, t);
    assert QueueOf(m, t) == all;
    if all != [] {
      assert all[0] in all;
      DropsStalePrefix(m, false, t, 0);
    }
  }

  /** Without streaming an empty queue is left alone, and no other task's queue is ever touched. */
  lemma {:induction false} TouchesOneQueue(s: State, withStream: bool, t: TaskName, u: TaskName)
    ensures QueueOf(s, t) == [] ==> RegisterNext(s, false, t) == s
    ensures u != t ==> QueueOf(RegisterNext(s, withStream, t), u) == QueueOf(s, u)
    decreases withStream, |QueueOf(s, t)|
  {
    var q := QueueOf(s, t);
    if q != [] {
      if !IsQueueing(s.jobs, q[0]) { TouchesOneQueue(s.(queue := s.queue[t := q[1..]]), false, t, u); }
    } else if withStream {
      TouchesOneQueue(Push(s, t, OldestFirst(s.jobs, Where(s.jobs, t, Queueing))), false, t, u);
    }
  }

  /** The table is streamed exactly when the queue was empty to begin with: a queue of stale ids only is emptied and
      stays empty, with no job armed, even if queueing jobs wait in the table. */
  lemma StaleQueueIsNotRefilled(s: State, t: TaskName)
    requires QueueOf(s, t) != [] && forall id: JobId :: id in QueueOf(s, t) ==> !IsQueueing(s.jobs, id)
    ensures QueueOf(RegisterNext(s, true, t), t) == [] && RegisterNext(s, true, t).armed == s.armed
  {
    DropsStalePrefix(s, true, t, |QueueOf(s, t)|);
  }
}
