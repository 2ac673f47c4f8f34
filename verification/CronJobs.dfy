/** At most one cron job of a task is pending: what the refusal of a second one achieves over whole runs. */
module CronJobs {
  import opened JobModel
  import opened JobSteps
  import opened CounterTheorems
  import opened RunTheorems
  import opened Outcomes

  /** A pending job of task t without a bound on its runs, as cron jobs are added. */
  predicate Unbounded(jobs: Table, t: TaskName, id: JobId) {
    id in jobs && jobs[id].task == t && jobs[id].maxRetry == 0 && (jobs[id].status == Queueing || jobs[id].status == Retrying)
  }

  ghost predicate OneUnbounded(jobs: Table) {
    forall t: TaskName, a: JobId, b: JobId :: Unbounded(jobs, t, a) && Unbounded(jobs, t, b) ==> a == b
  }

  ghost predicate CronUnbounded(jobs: Table) {
    forall id :: id in jobs && jobs[id].cron ==> jobs[id].maxRetry == 0
  }

  /** No job becomes one. */
  ghost predicate NoneArises(before: Table, after: Table) {
    forall t: TaskName, id: JobId :: Unbounded(after, t, id) ==> Unbounded(before, t, id)
  }

  lemma NoneArisesKeeps(before: Table, after: Table)
    requires NoneArises(before, after) && OneUnbounded(before)
    ensures OneUnbounded(after)
  {
    hide Unbounded;
  }

  lemma StartArises(s: State, t: TaskName, hasHandler: bool)
    ensures NoneArises(s.jobs, Start(s, t, hasHandler).jobs)
  {
    hide Start, RegisterNext;
    if t !in s.holding && QueueOf(s, t) != [] && IsQueueing(s.jobs, QueueOf(s, t)[0]) && hasHandler {
      StartLeaves(s, t);
    } else {
      SkipLeaves(s, t);
    }
  }

  /** A handler that was not cancelled finds its row RETRYING, so its end makes no new job pending. */
  lemma FinishArises(s: State, t: TaskName, outcome: Outcome, del: bool)
    requires WellFormed(s) && Tidy(s) && t in s.exec && (s.exec[t].cancelled ==> outcome.Cancelled?)
    ensures NoneArises(s.jobs, Finish(s, t, outcome, del).jobs)
  {
    FinishPushes(s, t, outcome, del);
    if s.exec[t].id in s.jobs {
      FinishLeaves(s, t, outcome, del);
      assert !s.exec[t].cancelled ==> Working(s, t, s.exec[t].id);
    }
    hide Finish, RegisterNext, QueueSound;
  }

  lemma BulkArises(s: State, t: TaskName, statuses: seq<Status>, within: set<JobId>)
    ensures NoneArises(s.jobs, StopAll(s, t).jobs) && NoneArises(s.jobs, Clean(s, t, statuses, within).jobs)
  {
    hide StopAll, Clean;
    StopAllLeaves(s, t);
    CleanLeaves(s, t, statuses, within);
  }

  lemma SingleArises(s: State, id: JobId)
    ensures NoneArises(s.jobs, Stop(s, id).jobs) && NoneArises(s.jobs, Delete(s, id).jobs)
  {
    hide Stop, Delete, RegisterNext;
    StopLeaves(s, id);
    DeleteLeaves(s, id);
  }

  lemma RecoverArises(s: State, t: TaskName, locked: set<JobId>)
    ensures NoneArises(s.jobs, Recover(s, t, locked).jobs)
  {
    hide Recover, RegisterNext, CountersOf, InOrder;
    var ids := RecoverLeaves(s, t, locked);
  }

  lemma StreamArises(s: State, t: TaskName, statuses: seq<Status>, within: set<JobId>)
    ensures NoneArises(s.jobs, Stream(s, t, statuses, within).jobs) && NoneArises(s.jobs, SwitchHold(s, t).jobs)
  {
    hide OldestFirst, Selected;
  }

  /** An add saves a second one only where none is pending. */
  lemma AddKeepsOne(s: State, t: TaskName, maxRetry: int, interval: int, cron: bool, created: int)
    requires WellFormed(s) && OneUnbounded(s.jobs)
    ensures OneUnbounded(AddJob(s, t, maxRetry, interval, cron, created).jobs)
  {
    hide AddJob, QueueSound, ExecSound;
    AddLeaves(s, t, maxRetry, interval, cron, created);
    var r := AddJob(s, t, maxRetry, interval, cron, created);
    forall u: TaskName, a: JobId, b: JobId | Unbounded(r.jobs, u, a) && Unbounded(r.jobs, u, b) ensures a == b {
      assert a != s.nextId ==> Unbounded(s.jobs, u, a);
      assert b != s.nextId ==> Unbounded(s.jobs, u, b);
    }
  }

  /** The caller's side: disciplined steps, no retry by hand, in bulk or by a release, and cron jobs without a bound. */
  ghost predicate Undisturbed(s: State, step: Step) {
    Disciplined(s, step) && !step.RetryStep? && !step.MoveStep? && (step.AddStep? && step.cron ==> step.maxRetry == 0)
  }

  lemma StepArises(s: State, step: Step)
    requires WellFormed(s) && Tidy(s) && Enabled(s, step) && Undisturbed(s, step) && !step.AddStep?
    ensures NoneArises(s.jobs, Apply(s, step).jobs)
  {
    hide WellFormed, Tidy, NoneArises, Start, Finish, Stop, Delete, StopAll, Stream, Clean, SwitchHold, Recover;
    match step
    case StartStep(t, hasHandler) => StartArises(s, t, hasHandler);
    case FinishStep(t, outcome, del) => FinishArises(s, t, outcome, del);
    case StopStep(id) => SingleArises(s, id);
    case DeleteStep(id) => SingleArises(s, id);
    case StopAllStep(t) => BulkArises(s, t, [], {});
    case StreamStep(t, statuses, within) => StreamArises(s, t, statuses, within);
    case CleanStep(t, statuses, within) => BulkArises(s, t, statuses, within);
    case HoldStep(t) => StreamArises(s, t, [], {});
    case RecoverStep(t, locked) => RecoverArises(s, t, locked);
    case _ => QuietArises(s, step);
  }

  lemma StepKeepsOne(s: State, step: Step)
    requires WellFormed(s) && Tidy(s) && OneUnbounded(s.jobs) && Enabled(s, step) && Undisturbed(s, step)
    ensures OneUnbounded(Apply(s, step).jobs)
  {
    hide WellFormed, Tidy, OneUnbounded, NoneArises, AddJob;
    if step.AddStep? {
      AddKeepsOne(s, step.task, step.maxRetry, step.interval, step.cron, step.created);
    } else {
      StepArises(s, step);
      hide Apply;
      NoneArisesKeeps(s.jobs, Apply(s, step).jobs);
    }
  }

  lemma QuietArises(s: State, step: Step)
    ensures step.RecalculateStep? || step.BeginLoadStep? || step.EndLoadStep? || step.ExpireStep? || step.ClearStep? ==>
      NoneArises(s.jobs, Apply(s, step).jobs)
  {
    hide CountersOf;
  }

  lemma StepKeepsCron(s: State, step: Step)
    requires WellFormed(s) && CronUnbounded(s.jobs) && Undisturbed(s, step)
    ensures CronUnbounded(Apply(s, step).jobs)
  {
    var r := Apply(s, step);
    StepEvolves(s, step);
    if step.AddStep? {
      AddLeaves(s, step.task, step.maxRetry, step.interval, step.cron, step.created);
    } else {
      NothingNew(s, step);
    }
    hide Apply, AddJob, WellFormed, Disciplined, QueuesEvolve, ExecEvolves;
  }

  lemma ExecutionsTakeNoId(s: State, t: TaskName, hasHandler: bool, outcome: Outcome, del: bool)
    ensures Start(s, t, hasHandler).nextId == s.nextId && Finish(s, t, outcome, del).nextId == s.nextId
  {
    hide Increment, RegisterNext;
  }

  lemma SingleJobsTakeNoId(s: State, id: JobId)
    ensures Stop(s, id).nextId == s.nextId && Delete(s, id).nextId == s.nextId && Retry(s, id).nextId == s.nextId
  {
    hide Increment, RegisterNext;
  }

  lemma UpdatesTakeNoId(s: State, t: TaskName, statuses: seq<Status>, within: set<JobId>)
    ensures StopAll(s, t).nextId == s.nextId && Clean(s, t, statuses, within).nextId == s.nextId
    ensures Move(s, t, statuses, within).nextId == s.nextId
  {
    hide Increment, RegisterNext, MoveAll, CleanAll;
  }

  lemma StreamsTakeNoId(s: State, t: TaskName, statuses: seq<Status>, within: set<JobId>)
    ensures Stream(s, t, statuses, within).nextId == s.nextId && SwitchHold(s, t).nextId == s.nextId
  {
    hide OldestFirst, Selected;
  }

  lemma RecoveryTakesNoId(s: State, t: TaskName, locked: set<JobId>)
    ensures Recover(s, t, locked).nextId == s.nextId
  {
    hide RegisterNext, OldestFirst, CountersOf, SetStatus, Unlocked;
  }

  /** Only an add takes an id. */
  lemma NothingNew(s: State, step: Step)
    requires !step.AddStep?
    ensures Apply(s, step).nextId == s.nextId
  {
    hide Start, Finish, Retry, Stop, Delete, StopAll, Stream, Move, Clean, SwitchHold, Recover, CountersOf;
    match step
    case StartStep(t, hasHandler) => ExecutionsTakeNoId(s, t, hasHandler, Cancelled, false);
    case FinishStep(t, outcome, del) => ExecutionsTakeNoId(s, t, false, outcome, del);
    case RetryStep(id) => SingleJobsTakeNoId(s, id);
    case StopStep(id) => SingleJobsTakeNoId(s, id);
    case DeleteStep(id) => SingleJobsTakeNoId(s, id);
    case StopAllStep(t) => UpdatesTakeNoId(s, t, [], {});
    case StreamStep(t, statuses, within) => StreamsTakeNoId(s, t, statuses, within);
    case MoveStep(t, statuses, within) => UpdatesTakeNoId(s, t, statuses, within);
    case CleanStep(t, statuses, within) => UpdatesTakeNoId(s, t, statuses, within);
    case HoldStep(t) => StreamsTakeNoId(s, t, [], {});
    case RecoverStep(t, locked) => RecoveryTakesNoId(s, t, locked);
    case _ =>
  }

  /** In every run of undisturbed steps a task has at most one pending cron job. */
  lemma {:induction false} RunOneCron(states: seq<State>, steps: seq<Step>, n: nat)
    requires Run(states, steps) && n < |states| && Exact(states[0]) && Tidy(states[0])
    requires OneUnbounded(states[0].jobs) && CronUnbounded(states[0].jobs)
    requires forall i {:trigger steps[i]} :: 0 <= i < n ==> Undisturbed(states[i], steps[i])
    ensures OneUnbounded(states[n].jobs) && CronUnbounded(states[n].jobs)
    ensures forall a: JobId, b: JobId :: a in states[n].jobs && b in states[n].jobs ==>
      var x, y := states[n].jobs[a], states[n].jobs[b];
      x.cron && y.cron && x.task == y.task && IsPending(x.status) && IsPending(y.status) ==> a == b
  {
    if n > 0 {
      RunOneCron(states, steps, n - 1);
      RunWellFormed(states, steps, n - 1);
      DisciplinedRun(states, steps, n - 1);
      StepKeepsOne(states[n - 1], steps[n - 1]);
      StepKeepsCron(states[n - 1], steps[n - 1]);
      assert states[n - 1 + 1] == Apply(states[n - 1], steps[n - 1]);
    }
    hide Run, Undisturbed;
    forall a: JobId, b: JobId | a in states[n].jobs && b in states[n].jobs
      ensures
        var x, y := states[n].jobs[a], states[n].jobs[b];
        x.cron && y.cron && x.task == y.task && IsPending(x.status) && IsPending(y.status) ==> a == b
    {
      var t := states[n].jobs[a].task;
      assert Unbounded(states[n].jobs, t, a) && Unbounded(states[n].jobs, t, b) ==> a == b;
    }
  }

  /** A release is what breaks it: on hold the refusal sees no pending job, so a second cron job is saved, and both become
      QUEUEING when the hold ends. */
  lemma ReleaseMakesTwo(s: State, t: TaskName, created: int)
    requires WellFormed(s) && t in s.tasks && t in s.holding && forall id: JobId :: !Unbounded(s.jobs, t, id)
    ensures
      var one := AddJob(s, t, 0, 0, true, created);
      var two := AddJob(one, t, 0, 0, true, created);
      var r := ToggleHold(two, t);
      Unbounded(r.jobs, t, s.nextId) && Unbounded(r.jobs, t, s.nextId + 1)
  {
    hide AddJob, ToggleHold, RegisterNext, InOrder, WellFormed;
    var one := AddJob(s, t, 0, 0, true, created);
    HeldAdd(s, t, created);
    var two := AddJob(one, t, 0, 0, true, created);
    HeldAdd(one, t, created);
    var ids := HoldLeaves(two, t);
  }

  lemma HeldAdd(s: State, t: TaskName, created: int)
    requires WellFormed(s) && t in s.tasks && t in s.holding && forall id: JobId :: !Unbounded(s.jobs, t, id)
    ensures
      var r := AddJob(s, t, 0, 0, true, created);
      && WellFormed(r) && r.tasks == s.tasks && r.holding == s.holding && r.nextId == s.nextId + 1
      && (forall id: JobId :: !Unbounded(r.jobs, t, id))
      && r.jobs == s.jobs[s.nextId := Job(t, Hold, 0, 0, true, created)]
  {
    hide AddJob, WellFormed;
    forall i | i in s.jobs && s.jobs[i].task == t && s.jobs[i].maxRetry == 0
      ensures s.jobs[i].status != Queueing && s.jobs[i].status != Retrying
    {
      assert !Unbounded(s.jobs, t, i);
    }
    AddLeaves(s, t, 0, 0, true, created);
    StepWellFormed(s, AddStep(t, 0, 0, true, created));
    var r := AddJob(s, t, 0, 0, true, created);
    forall id: JobId ensures !Unbounded(r.jobs, t, id) {
      assert !Unbounded(s.jobs, t, id);
    }
  }
}
