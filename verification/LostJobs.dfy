/** Which accesses leave a QUEUEING job outside its queue. */
module LostJobs {
  import opened JobModel
  import opened Interleaving

  /** A QUEUEING job of a registered task that is not in its task's queue. */
  predicate Lost(s: State, id: JobId) {
    IsQueueing(s.jobs, id) && s.jobs[id].task in s.tasks && id !in QueueOf(s, s.jobs[id].task)
  }

  /** The operation is going to push the job, or has popped it to run it. */
  predicate Holds(ops: seq<Access>, t: TaskName, id: JobId) {
    PushJob(t, id) in ops || PushNew(t, id) in ops || Fetch(t, id) in ops || SetRow(id, Retrying) in ops
  }

  ghost predicate InHand(s: State, id: JobId) {
    id in s.jobs && exists pid :: pid in s.ops && Holds(s.ops[pid], s.jobs[id].task, id)
  }

  predicate Pending(s: State, id: JobId, t: TaskName) {
    IsQueueing(s.jobs, id) && s.jobs[id].task == t && t in s.tasks
  }

  /** The access leaves the job QUEUEING and outside its queue, and its operation is not going to push it:
      an add in the window of a bulk operation saves a job it will not push;
      a bulk retry or release rewrites a row whose id, pushed before, has been dropped since;
      so does the end of an execution;
      a registration drops a head other than the one it looked at, or one that has become QUEUEING since;
      a queue is cleared. */
  predicate AccessLoses(s: State, a: Access, rest: seq<Access>, c: Choice, id: JobId) {
    match a
    case Save(t, onHold, inWindow) => id == c.id && t in s.tasks && !onHold && inWindow
    case Rewrite(t, before, after) =>
      && after == Queueing && id in s.jobs && s.jobs[id].task == t && t in s.tasks && id !in QueueOf(s, t)
      && s.jobs[id].status == before && id in c.rows
    case SetRow(i, st) =>
      && i == id && st == Queueing && id in s.jobs && s.jobs[id].task in s.tasks && id !in QueueOf(s, s.jobs[id].task)
      && !Holds(rest, s.jobs[id].task, id)
    case Drop(t) => Pending(s, id, t) && QueueOf(s, t) != [] && id == QueueOf(s, t)[0] && id !in QueueOf(s, t)[1..]
    case Clear(t) => Pending(s, id, t)
    case _ => false
  }

  /** Those accesses, and a restart, which forgets the queues in memory and what operations had in hand. */
  predicate Loses(s: State, step: Step, id: JobId) {
    match step
    case Next(_, c) => Due(s, step) && AccessLoses(s, s.ops[step.pid][0], s.ops[step.pid][1..], c, id)
    case Restart(memory) => IsQueueing(s.jobs, id) && s.jobs[id].task in s.tasks && (memory || Lost(s, id))
    case _ => false
  }

  /** One access: afterwards the job is outside its queue and not in the operation's hand only if the access lost it, or it
      was outside before and the access was not the one that had it in hand. */
  lemma AccessLost(s: State, a: Access, rest: seq<Access>, c: Choice, id: JobId)
    requires Ready(s, a, c)
    requires Lost(Effect(s, a, c), id) && !Holds(Follow(s, a, c) + rest, Effect(s, a, c).jobs[id].task, id)
    ensures
      || AccessLoses(s, a, rest, c, id)
      || (Lost(s, id) && Effect(s, a, c).jobs[id].task == s.jobs[id].task && !Holds([a], s.jobs[id].task, id))
  {
  }

  lemma LosingAccess(s: State, a: Access, rest: seq<Access>, c: Choice, id: JobId)
    requires Ready(s, a, c) && AccessLoses(s, a, rest, c, id)
    ensures Lost(Effect(s, a, c), id)
  {
  }

  lemma HoldsParts(a: Access, follow: seq<Access>, rest: seq<Access>, t: TaskName, id: JobId)
    ensures Holds([a] + rest, t, id) <==> Holds([a], t, id) || Holds(rest, t, id)
    ensures Holds(rest, t, id) ==> Holds(follow + rest, t, id)
  {
  }

  /** Every step: a job is outside its queue and in nobody's hand afterwards only if it was before, or the step lost it. */
  lemma StepLost(s: State, step: Step, id: JobId)
    requires Enabled(s, step)
    ensures Lost(Apply(s, step), id) && !InHand(Apply(s, step), id) ==> (Lost(s, id) && !InHand(s, id)) || Loses(s, step, id)
    ensures Loses(s, step, id) ==> Lost(Apply(s, step), id)
  {
    var r := Apply(s, step);
    match step
    case Begin(pid, op) =>
      hide Program;
      if InHand(s, id) {
        var p :| p in s.ops && Holds(s.ops[p], s.jobs[id].task, id);
        assert p in r.ops && r.ops[p] == s.ops[p];
      }
    case Next(pid, c) =>
      var a, rest := s.ops[pid][0], s.ops[pid][1..];
      if AccessLoses(s, a, rest, c, id) { LosingAccess(s, a, rest, c, id); }
      if Lost(r, id) && !InHand(r, id) && !AccessLoses(s, a, rest, c, id) { NextLost(s, pid, c, id); }
    case Expire(_) =>
    case Restart(_) =>
  }

  lemma NextLost(s: State, pid: Pid, c: Choice, id: JobId)
    requires Enabled(s, Next(pid, c)) && Lost(Apply(s, Next(pid, c)), id) && !InHand(Apply(s, Next(pid, c)), id)
    requires !AccessLoses(s, s.ops[pid][0], s.ops[pid][1..], c, id)
    ensures Lost(s, id) && !InHand(s, id)
  {
    var r := Apply(s, Next(pid, c));
    var a, rest := s.ops[pid][0], s.ops[pid][1..];
    var e, follow := Effect(s, a, c), Follow(s, a, c);
    assert r == e.(ops := Left(s.ops, pid, follow + rest));
    hide Effect, Follow, AccessLoses, Holds;
    var t := r.jobs[id].task;
    HoldsNone(t, id);
    assert pid in r.ops ==> r.ops[pid] == follow + rest;
    assert pid !in r.ops ==> follow + rest == [];
    AccessLost(s, a, rest, c, id);
    HoldsParts(a, follow, rest, t, id);
    assert s.ops[pid] == [a] + rest;
    forall p | p in s.ops ensures !Holds(s.ops[p], t, id) {
      assert p != pid ==> p in r.ops && r.ops[p] == s.ops[p];
    }
  }

  lemma HoldsNone(t: TaskName, id: JobId)
    ensures !Holds([], t, id)
  {
  }

  // ---- Runs ----

  /** Step k lost the job, and it has been outside its queue ever since, up to state n. */
  ghost predicate LostSince(states: seq<State>, steps: seq<Step>, id: JobId, k: nat, n: nat) {
    k < n < |states| == |steps| + 1 && Loses(states[k], steps[k], id) && forall j :: k < j <= n ==> Lost(states[j], id)
  }

  /** In every interleaving a QUEUEING job outside its queue is in the hand of an operation that is about to push or run it,
      or one of the losing accesses lost it and nothing has pushed it since; and what they lose is outside its queue. */
  lemma {:induction false} LostExactlySince(states: seq<State>, steps: seq<Step>, n: nat, id: JobId)
    requires Run(states, steps) && n < |states| && !Lost(states[0], id)
    ensures Lost(states[n], id) && !InHand(states[n], id) ==> exists k: nat :: LostSince(states, steps, id, k, n)
    ensures (exists k: nat :: LostSince(states, steps, id, k, n)) ==> Lost(states[n], id)
  {
    hide Apply, Loses, Lost, InHand;
    if n > 0 && Lost(states[n], id) && !InHand(states[n], id) {
      LostExactlySince(states, steps, n - 1, id);
      var s, step := states[n - 1], steps[n - 1];
      StepLost(s, step, id);
      assert states[n - 1 + 1] == Apply(s, step);
      if Loses(s, step, id) {
        assert LostSince(states, steps, id, n - 1, n);
      } else {
        var k: nat :| LostSince(states, steps, id, k, n - 1);
        assert LostSince(states, steps, id, k, n);
      }
    }
  }

  /** So without losing accesses every QUEUEING job of a registered task is in its queue or in hand. */
  lemma RunNoneLost(states: seq<State>, steps: seq<Step>, n: nat, id: JobId)
    requires Run(states, steps) && n < |states| && !Lost(states[0], id)
    requires forall i: nat :: i < n ==> !Loses(states[i], steps[i], id)
    ensures Lost(states[n], id) ==> InHand(states[n], id)
  {
    hide Lost, Loses, InHand, Apply;
    LostExactlySince(states, steps, n, id);
  }
}
