/** How often a job's handler can start. */
module RetryTheorems {
  import opened JobModel
  import opened JobSteps
  import opened CounterTheorems
  import opened BulkRows
  import opened RunTheorems

  /** The step starts job id's handler. */
  predicate StartsJob(s: State, step: Step, id: JobId) {
    step.StartStep? && step.hasHandler && Runnable(s, step.task) && QueueOf(s, step.task)[0] == id
  }

  function Starts(states: seq<State>, steps: seq<Step>, id: JobId, n: nat): nat
    requires n <= |steps| < |states|
  {
    if n == 0 then 0 else Starts(states, steps, id, n - 1) + if StartsJob(states[n - 1], steps[n - 1], id) then 1 else 0
  }

  /** The restart finds job id RETRYING, cut off before its retry was counted, and queues it again. */
  predicate CutsOff(s: State, step: Step, id: JobId) {
    && step.RecoverStep? && step.task in s.tasks && id !in step.locked
    && id in s.jobs && s.jobs[id].task == step.task && s.jobs[id].status == Retrying
  }

  function CutOffs(states: seq<State>, steps: seq<Step>, id: JobId, n: nat): nat
    requires n <= |steps| < |states|
  {
    if n == 0 then 0 else CutOffs(states, steps, id, n - 1) + if CutsOff(states[n - 1], steps[n - 1], id) then 1 else 0
  }

  /** Steps that do not queue a job anew by hand: everything but a retry and the updates of a bulk retry or a release. Jobs
      may be stopped and cancelled, and the worker may restart. */
  predicate Unattended(step: Step) {
    !step.RetryStep? && !step.MoveStep?
  }

  predicate Executing(s: State, t: TaskName, id: JobId) {
    t in s.exec && s.exec[t].id == id
  }

  function RetriesLeft(j: Job): nat {
    if j.retries < j.maxRetry then j.maxRetry - j.retries else 0
  }

  /** An upper bound for the starts still to come; a row left RETRYING has used a start that is not counted yet. */
  function StartsLeft(s: State, t: TaskName, id: JobId): nat {
    if Executing(s, t, id) then RetriesLeft(s.exec[t].job)
    else if IsQueueing(s.jobs, id) then RetriesLeft(s.jobs[id])
    else if id in s.jobs && s.jobs[id].status == Retrying && RetriesLeft(s.jobs[id]) > 0 then RetriesLeft(s.jobs[id]) - 1
    else 0
  }

  /** Job id of task t is an ordinary job known to the state; while it is executed its row is not queueing and lacks
      one retry of the worker's copy. */
  ghost predicate Ordinary(s: State, t: TaskName, id: JobId) {
    && id < s.nextId
    && (id in s.jobs ==> s.jobs[id].task == t && !s.jobs[id].cron)
    && (Executing(s, t, id) ==> !s.exec[t].job.cron && !IsQueueing(s.jobs, id))
    && (Executing(s, t, id) && id in s.jobs ==> s.exec[t].job.retries == s.jobs[id].retries + 1)
  }

  /** The row kept its state, went away, or is no longer pending; the execution is the same. */
  ghost predicate Calm(s: State, r: State, t: TaskName, id: JobId) {
    && r.nextId >= s.nextId
    && (id in r.jobs ==> id in s.jobs && SameJob(s.jobs[id], r.jobs[id]) && r.jobs[id].retries == s.jobs[id].retries)
    && (id in r.jobs ==> r.jobs[id] == s.jobs[id] || !IsPending(r.jobs[id].status))
    && (Executing(r, t, id) <==> Executing(s, t, id))
    && (Executing(s, t, id) ==> r.exec[t].job == s.exec[t].job)
  }

  lemma CalmLeft(s: State, r: State, t: TaskName, id: JobId)
    requires Ordinary(s, t, id) && Calm(s, r, t, id)
    ensures Ordinary(r, t, id) && StartsLeft(r, t, id) <= StartsLeft(s, t, id)
  {
  }

  lemma RegisterLeft(m: State, withStream: bool, u: TaskName, t: TaskName, id: JobId)
    ensures Ordinary(RegisterNext(m, withStream, u), t, id) <==> Ordinary(m, t, id)
    ensures StartsLeft(RegisterNext(m, withStream, u), t, id) == StartsLeft(m, t, id)
  {
  }

  lemma BeginLeft(s: State, u: TaskName, hasHandler: bool, t: TaskName, id: JobId)
    requires WellFormed(s) && RetryBound(s) && Ordinary(s, t, id) && u !in s.exec
    ensures
      var r := Begin(s, u, hasHandler);
      Ordinary(r, t, id) &&
      StartsLeft(r, t, id) + (if StartsJob(s, StartStep(u, hasHandler), id) then 1 else 0) <= StartsLeft(s, t, id)
  {
    hide Increment;
    var r := Begin(s, u, hasHandler);
    if Runnable(s, u) {
      var head := QueueOf(s, u)[0];
      assert InQueue(s, u, head);
      if head != id { assert Calm(s, r, t, id); }
    } else {
      assert Calm(s, r, t, id);
    }
  }

  lemma WriteBackLeft(s: State, u: TaskName, outcome: Outcome, del: bool, t: TaskName, id: JobId)
    requires WellFormed(s) && Ordinary(s, t, id) && u in s.exec
    ensures var r := WriteBack(s, u, outcome, del); Ordinary(r, t, id) && StartsLeft(r, t, id) <= StartsLeft(s, t, id)
  {
    hide Increment;
    var r := WriteBack(s, u, outcome, del);
    if !(u == t && Executing(s, t, id)) {
      assert s.exec[u].id in s.jobs ==> s.jobs[s.exec[u].id].task == u;
      assert Calm(s, r, t, id);
    }
  }

  lemma HaltCalm(s: State, i: JobId, t: TaskName, id: JobId)
    requires i in s.jobs
    ensures Calm(s, Halt(s, i), t, id)
  {
    hide Increment;
  }

  lemma StopAllCalm(s: State, u: TaskName, t: TaskName, id: JobId)
    ensures Calm(s, StopAll(s, u), t, id)
  {
    hide Increment, MoveAll;
    MoveAllTable(s.jobs, u, [Queueing, Retrying], s.jobs.Keys, Stopped, false);
  }

  lemma CleanCalm(s: State, u: TaskName, asked: seq<Status>, within: set<JobId>, t: TaskName, id: JobId)
    ensures Calm(s, Clean(s, u, asked, within), t, id)
  {
    hide Increment, CleanAll;
    CleanAllTable(s.jobs, u, asked, within);
  }

  lemma AddCalm(s: State, u: TaskName, maxRetry: int, interval: int, cron: bool, created: int, t: TaskName, id: JobId)
    requires id < s.nextId
    ensures Calm(s, AddJob(s, u, maxRetry, interval, cron, created), t, id)
  {
    AddShape(s, u, maxRetry, interval, cron, created);
    hide AddJob, Increment;
  }

  lemma DeleteCalm(s: State, i: JobId, t: TaskName, id: JobId)
    ensures Calm(s, Delete(s, i), t, id)
  {
    hide Increment;
  }

  /** A restart gives a job one start more exactly if it cut it off. */
  lemma RebuildLeft(s: State, u: TaskName, locked: set<JobId>, t: TaskName, id: JobId)
    requires WellFormed(s) && Ordinary(s, t, id) && u in s.tasks
    ensures
      var r := Rebuild(s, u, locked);
      Ordinary(r, t, id) && StartsLeft(r, t, id) <= StartsLeft(s, t, id) + if CutsOff(s, RecoverStep(u, locked), id) then 1 else 0
  {
    hide CountersOf, OldestFirst, Unlocked;
    var r := Rebuild(s, u, locked);
    if id in s.jobs {
      assert r.jobs[id] == if id in PendingIds(s.jobs, u) && id !in locked then s.jobs[id].(status := Queueing) else s.jobs[id];
    }
  }

  /** The step leaves the job ordinary and takes its start, if it starts it, from those left. */
  ghost predicate LeftAfter(s: State, step: Step, r: State, t: TaskName, id: JobId) {
    && Ordinary(r, t, id)
    && StartsLeft(r, t, id) + (if StartsJob(s, step, id) then 1 else 0) <= StartsLeft(s, t, id) + if CutsOff(s, step, id) then 1 else 0
  }

  lemma CalmStep(s: State, step: Step, r: State, t: TaskName, id: JobId)
    requires Ordinary(s, t, id) && Calm(s, r, t, id) && !step.StartStep?
    ensures LeftAfter(s, step, r, t, id)
  {
    hide Ordinary, Calm, StartsLeft;
    CalmLeft(s, r, t, id);
  }

  lemma StartLeft(s: State, u: TaskName, hasHandler: bool, t: TaskName, id: JobId)
    requires WellFormed(s) && RetryBound(s) && Ordinary(s, t, id) && u !in s.exec
    ensures LeftAfter(s, StartStep(u, hasHandler), Start(s, u, hasHandler), t, id)
  {
    hide WellFormed, RetryBound, Ordinary, StartsLeft, StartsJob, Begin, RegisterNext, Runnable;
    BeginLeft(s, u, hasHandler, t, id);
    RegisterLeft(Begin(s, u, hasHandler), true, u, t, id);
  }

  lemma FinishLeft(s: State, u: TaskName, outcome: Outcome, del: bool, t: TaskName, id: JobId)
    requires WellFormed(s) && Ordinary(s, t, id) && u in s.exec
    ensures LeftAfter(s, FinishStep(u, outcome, del), Finish(s, u, outcome, del), t, id)
  {
    hide WellFormed, Ordinary, StartsLeft, WriteBack, RegisterNext;
    WriteBackLeft(s, u, outcome, del, t, id);
    RegisterLeft(WriteBack(s, u, outcome, del), true, u, t, id);
  }

  lemma StopLeft(s: State, i: JobId, t: TaskName, id: JobId)
    requires Ordinary(s, t, id)
    ensures LeftAfter(s, StopStep(i), Stop(s, i), t, id)
  {
    hide Ordinary, StartsLeft, Halt, RegisterNext;
    if i in s.jobs {
      HaltCalm(s, i, t, id);
      CalmLeft(s, Halt(s, i), t, id);
      RegisterLeft(Halt(s, i), false, s.jobs[i].task, t, id);
    }
  }

  lemma RecoverLeft(s: State, u: TaskName, locked: set<JobId>, t: TaskName, id: JobId)
    requires WellFormed(s) && Ordinary(s, t, id)
    ensures LeftAfter(s, RecoverStep(u, locked), Recover(s, u, locked), t, id)
  {
    hide WellFormed, Ordinary, StartsLeft, CutsOff, Rebuild, RegisterNext;
    if u in s.tasks {
      RebuildLeft(s, u, locked, t, id);
      RegisterLeft(Rebuild(s, u, locked), false, u, t, id);
    }
  }

  lemma StreamLeft(s: State, u: TaskName, statuses: seq<Status>, within: set<JobId>, t: TaskName, id: JobId)
    requires Ordinary(s, t, id)
    ensures LeftAfter(s, StreamStep(u, statuses, within), Stream(s, u, statuses, within), t, id)
    ensures LeftAfter(s, HoldStep(u), SwitchHold(s, u), t, id)
  {
    hide Ordinary, StartsLeft, OldestFirst, Selected;
    SameLeft(s, Stream(s, u, statuses, within), t, id);
    SameLeft(s, SwitchHold(s, u), t, id);
  }

  /** The steps that change neither rows nor executions. */
  lemma QuietLeft(s: State, step: Step, t: TaskName, id: JobId)
    requires Ordinary(s, t, id)
    requires step.RecalculateStep? || step.BeginLoadStep? || step.EndLoadStep? || step.ExpireStep? || step.ClearStep?
    ensures LeftAfter(s, step, Apply(s, step), t, id)
  {
    hide Ordinary, StartsLeft, CountersOf;
    SameLeft(s, Apply(s, step), t, id);
  }

  lemma StepLeft(s: State, step: Step, t: TaskName, id: JobId)
    requires WellFormed(s) && RetryBound(s) && Ordinary(s, t, id) && Enabled(s, step) && Unattended(step)
    ensures LeftAfter(s, step, Apply(s, step), t, id)
  {
    hide WellFormed, RetryBound, Ordinary, Calm, LeftAfter, AddJob, Start, Finish, Stop, Delete, StopAll, Stream, Clean, SwitchHold, Recover;
    match step
    case AddStep(u, maxRetry, interval, cron, created) =>
      Known(s, t, id);
      AddCalm(s, u, maxRetry, interval, cron, created, t, id);
      CalmStep(s, step, AddJob(s, u, maxRetry, interval, cron, created), t, id);
    case StartStep(u, hasHandler) => StartLeft(s, u, hasHandler, t, id);
    case FinishStep(u, outcome, del) => FinishLeft(s, u, outcome, del, t, id);
    case StopStep(i) => StopLeft(s, i, t, id);
    case DeleteStep(i) =>
      DeleteCalm(s, i, t, id);
      CalmStep(s, step, Delete(s, i), t, id);
    case StopAllStep(u) =>
      StopAllCalm(s, u, t, id);
      CalmStep(s, step, StopAll(s, u), t, id);
    case StreamStep(u, statuses, within) => StreamLeft(s, u, statuses, within, t, id);
    case CleanStep(u, asked, within) =>
      CleanCalm(s, u, asked, within, t, id);
      CalmStep(s, step, Clean(s, u, asked, within), t, id);
    case HoldStep(u) => StreamLeft(s, u, [], {}, t, id);
    case RecoverStep(u, locked) => RecoverLeft(s, u, locked, t, id);
    case RecalculateStep => QuietLeft(s, step, t, id);
    case BeginLoadStep(_) => QuietLeft(s, step, t, id);
    case EndLoadStep(_) => QuietLeft(s, step, t, id);
    case ExpireStep(_) => QuietLeft(s, step, t, id);
    case ClearStep(_) => QuietLeft(s, step, t, id);
  }

  lemma Known(s: State, t: TaskName, id: JobId)
    requires Ordinary(s, t, id)
    ensures id < s.nextId
  {
  }

  lemma SameLeft(s: State, r: State, t: TaskName, id: JobId)
    requires Ordinary(s, t, id) && r.jobs == s.jobs && r.exec == s.exec && r.nextId == s.nextId
    ensures Ordinary(r, t, id) && StartsLeft(r, t, id) == StartsLeft(s, t, id)
  {
  }

  /** Without a manual retry or a released hold, a stored job's handler starts at most as often as it has retries left,
      `MaxRetry` times for a job just added, plus once for every restart that cut it off. */
  lemma {:induction false} StartsAtMost(states: seq<State>, steps: seq<Step>, t: TaskName, id: JobId, n: nat)
    requires Run(states, steps) && n <= |steps| && RetryBound(states[0]) && Ordinary(states[0], t, id)
    requires forall i {:trigger steps[i]} :: 0 <= i < n ==> Unattended(steps[i])
    ensures Ordinary(states[n], t, id)
    ensures Starts(states, steps, id, n) + StartsLeft(states[n], t, id) <=
            StartsLeft(states[0], t, id) + CutOffs(states, steps, id, n)
  {
    hide WellFormed, Apply, RetryBound, Ordinary, StartsLeft, StartsJob, CutsOff, Unattended;
    if n > 0 {
      StartsAtMost(states, steps, t, id, n - 1);
      RunWellFormed(states, steps, n - 1);
      RunRetryBound(states, steps, n - 1);
      var s, step := states[n - 1], steps[n - 1];
      StepLeft(s, step, t, id);
      assert states[n - 1 + 1] == Apply(s, step);
    }
  }

  /** A job just added has `MaxRetry` starts. */
  lemma FreshJobStarts(s: State, t: TaskName, maxRetry: int, interval: int, created: int)
    requires WellFormed(s) && t in s.tasks && t !in s.holding && maxRetry > 0 && interval >= 0
    ensures
      var r := AddJob(s, t, maxRetry, interval, false, created);
      Ordinary(r, t, s.nextId) && StartsLeft(r, t, s.nextId) == maxRetry
  {
    hide Increment;
  }

  /** The extra start of a restart is real: a job cut off while running is queued again without its retry being counted. */
  lemma RestartForgetsTheRetry(s: State, id: JobId, locked: set<JobId>)
    requires id in s.jobs && s.jobs[id].status == Retrying && s.jobs[id].task in s.tasks && id !in locked
    ensures
      var r := Recover(s, s.jobs[id].task, locked);
      IsQueueing(r.jobs, id) && r.jobs[id].retries == s.jobs[id].retries
  {
    hide CountersOf, OldestFirst, Unlocked, RegisterNext;
  }
}
