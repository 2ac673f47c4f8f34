/** What holds along whole runs of the task queue worker. */
module RunTheorems {
  import opened JobModel
  import opened JobSteps
  import opened CounterTheorems
  import opened BulkRows

  // ---- How one step may change rows, queues and executions ----

  predicate IsPending(st: Status) {
    st == Queueing || st == Retrying
  }

  /** The row before and after a step: the job's identity stays, and a pending row has retries left. */
  predicate RowStep(a: Job, b: Job) {
    && SameJob(a, b)
    && (IsPending(b.status) && !b.cron ==>
        b.retries == 0 || b.retries < b.maxRetry || (IsPending(a.status) && b.retries == a.retries))
  }

  predicate NewRow(b: Job) {
    b.retries == 0 && (!b.cron ==> b.maxRetry > 0)
  }

  ghost predicate RowsEvolve(s: State, r: State) {
    && s.nextId <= r.nextId
    && forall id :: id in r.jobs ==>
        || (id in s.jobs && RowStep(s.jobs[id], r.jobs[id]))
        || (id == s.nextId < r.nextId && NewRow(r.jobs[id]))
  }

  ghost predicate QueuesEvolve(s: State, r: State) {
    forall t: TaskName, id: JobId :: InQueue(r, t, id) ==>
      InQueue(s, t, id) || (id < r.nextId && (id in r.jobs ==> r.jobs[id].task == t))
  }

  ghost predicate ExecEvolves(s: State, r: State) {
    forall t :: t in r.exec ==>
      || (t in s.exec && r.exec[t].id == s.exec[t].id && r.exec[t].job == s.exec[t].job)
      || (r.exec[t].id < r.nextId && r.exec[t].job.task == t &&
          r.exec[t].id in r.jobs && SameJob(r.jobs[r.exec[t].id], r.exec[t].job))
  }

  ghost predicate Evolves(s: State, r: State) {
    RowsEvolve(s, r) && QueuesEvolve(s, r) && ExecEvolves(s, r)
  }

  lemma EvolvesWellFormed(s: State, r: State)
    requires WellFormed(s) && Evolves(s, r)
    ensures WellFormed(r)
  {
  }

  /** `registerNextJob` only drops ids, or streams in queueing jobs of the task. */
  lemma {:induction false} RegisterNextQueues(s: State, withStream: bool, t: TaskName, u: TaskName, id: JobId)
    requires InQueue(RegisterNext(s, withStream, t), u, id)
    ensures InQueue(s, u, id) || (u == t && id in Where(s.jobs, t, Queueing))
    decreases withStream, |QueueOf(s, t)|
  {
    var q := QueueOf(s, t);
    if q != [] {
      if !IsQueueing(s.jobs, q[0]) {
        RegisterNextQueues(s.(queue := s.queue[t := q[1..]]), false, t, u, id);
      }
    } else if withStream {
      RegisterNextQueues(Push(s, t, OldestFirst(s.jobs, Where(s.jobs, t, Queueing))), false, t, u, id);
    }
  }

  /** Arming the next job at the end of a step changes nothing that matters here. */
  lemma EvolvesThenRegister(s: State, m: State, withStream: bool, t: TaskName)
    requires Evolves(s, m) && forall id :: id in m.jobs ==> id < m.nextId
    ensures Evolves(s, RegisterNext(m, withStream, t))
  {
    var r := RegisterNext(m, withStream, t);
    hide RegisterNext;
    forall u: TaskName, id: JobId | InQueue(r, u, id)
      ensures InQueue(s, u, id) || (id < r.nextId && (id in r.jobs ==> r.jobs[id].task == u))
    {
      RegisterNextQueues(m, withStream, t, u, id);
    }
  }

  // ---- The steps ----

  lemma AddRows(s: State, t: TaskName, maxRetry: int, interval: int, cron: bool, created: int)
    ensures var r := AddJob(s, t, maxRetry, interval, cron, created); RowsEvolve(s, r) && ExecEvolves(s, r)
  {
    AddShape(s, t, maxRetry, interval, cron, created);
    hide AddJob, Increment;
  }

  lemma AddQueues(s: State, t: TaskName, maxRetry: int, interval: int, cron: bool, created: int)
    ensures QueuesEvolve(s, AddJob(s, t, maxRetry, interval, cron, created))
  {
    AddShape(s, t, maxRetry, interval, cron, created);
    hide AddJob, Increment;
  }

  lemma AddEvolves(s: State, t: TaskName, maxRetry: int, interval: int, cron: bool, created: int)
    requires WellFormed(s)
    ensures Evolves(s, AddJob(s, t, maxRetry, interval, cron, created))
  {
    hide AddJob, RowsEvolve, QueuesEvolve, ExecEvolves, WellFormed;
    AddRows(s, t, maxRetry, interval, cron, created);
    AddQueues(s, t, maxRetry, interval, cron, created);
  }

  lemma BeginEvolves(s: State, t: TaskName, hasHandler: bool)
    requires WellFormed(s)
    ensures Evolves(s, Begin(s, t, hasHandler))
  {
    hide Increment;
    if Runnable(s, t) { assert InQueue(s, t, QueueOf(s, t)[0]); }
  }

  lemma WriteBackEvolves(s: State, t: TaskName, outcome: Outcome, del: bool)
    requires WellFormed(s) && t in s.exec
    ensures Evolves(s, WriteBack(s, t, outcome, del))
  {
    hide Increment;
  }

  lemma RetryQueues(s: State, id: JobId)
    requires WellFormed(s)
    ensures QueuesEvolve(s, Retry(s, id))
  {
    hide Increment, ExecSound;
  }

  lemma RetryRows(s: State, id: JobId)
    ensures RowsEvolve(s, Retry(s, id)) && ExecEvolves(s, Retry(s, id))
  {
    hide Increment;
  }

  lemma RetryEvolves(s: State, id: JobId)
    requires WellFormed(s)
    ensures Evolves(s, Retry(s, id))
  {
    hide Retry, RowsEvolve, QueuesEvolve, ExecEvolves, WellFormed;
    RetryRows(s, id);
    RetryQueues(s, id);
  }

  lemma HaltEvolves(s: State, id: JobId)
    requires WellFormed(s) && id in s.jobs
    ensures Evolves(s, Halt(s, id))
  {
    hide Increment;
  }

  lemma DeleteEvolves(s: State, id: JobId)
    requires WellFormed(s)
    ensures Evolves(s, Delete(s, id))
  {
    hide Increment;
  }

  /** A bulk move to a status that is not pending, or with the retries cleared, evolves the rows. */
  lemma MovedEvolves(s: State, r: State, t: TaskName, statuses: seq<Status>, within: set<JobId>, to: Status, reset: bool)
    requires WellFormed(s) && MovedTable(s.jobs, r.jobs, t, statuses, within, to, reset)
    requires (reset || !IsPending(to)) && r.nextId == s.nextId
    ensures RowsEvolve(s, r)
  {
  }

  lemma StopAllRest(s: State, t: TaskName)
    ensures var r := StopAll(s, t); r.nextId == s.nextId && QueuesEvolve(s, r) && ExecEvolves(s, r)
  {
    hide Increment, MoveAll;
  }

  lemma StopAllEvolves(s: State, t: TaskName)
    requires WellFormed(s)
    ensures Evolves(s, StopAll(s, t))
  {
    hide RowsEvolve, QueuesEvolve, ExecEvolves, WellFormed, Increment, MoveAll, MovedTable;
    if t in s.tasks {
      hide StopAll;
      StopAllShape(s, t);
      StopAllRest(s, t);
      MoveAllTable(s.jobs, t, [Queueing, Retrying], s.jobs.Keys, Stopped, false);
      MovedEvolves(s, StopAll(s, t), t, [Queueing, Retrying], s.jobs.Keys, Stopped, false);
    } else {
      Unchanged(s);
    }
  }

  lemma RequeueEvolves(s: State, t: TaskName, statuses: seq<Status>, within: set<JobId>)
    requires WellFormed(s)
    ensures Evolves(s, Requeue(s, t, statuses, within))
  {
    hide Increment, MoveAll;
    MoveAllTable(s.jobs, t, statuses, within, Queueing, true);
    MovedEvolves(s, Requeue(s, t, statuses, within), t, statuses, within, Queueing, true);
  }

  lemma StreamEvolves(s: State, t: TaskName, statuses: seq<Status>, within: set<JobId>)
    requires WellFormed(s)
    ensures Evolves(s, Stream(s, t, statuses, within))
  {
    OldestFirstInOrder(s.jobs, Selected(s, t, statuses, within));
    hide OldestFirst;
  }

  lemma CleanEvolves(s: State, t: TaskName, asked: seq<Status>, within: set<JobId>)
    requires WellFormed(s)
    ensures Evolves(s, Clean(s, t, asked, within))
  {
    hide Increment, CleanAll;
    CleanAllTable(s.jobs, t, asked, within);
  }

  lemma {:induction false} UnlockedIds(ids: seq<JobId>, locked: set<JobId>, id: JobId)
    ensures id in Unlocked(ids, locked) <==> id in ids && id !in locked
  {
    if ids != [] { UnlockedIds(ids[1..], locked, id); }
  }

  lemma RebuildRows(s: State, t: TaskName, locked: set<JobId>)
    ensures var r := Rebuild(s, t, locked); RowsEvolve(s, r) && ExecEvolves(s, r)
  {
    hide CountersOf, OldestFirst, Unlocked;
  }

  lemma RebuildQueues(s: State, t: TaskName, locked: set<JobId>)
    requires WellFormed(s)
    ensures QueuesEvolve(s, Rebuild(s, t, locked))
  {
    hide CountersOf, OldestFirst, Unlocked, QueueSound, ExecSound;
    var ids := OldestFirst(s.jobs, PendingIds(s.jobs, t));
    forall id: JobId ensures id in Unlocked(ids, locked) ==> id in s.jobs && s.jobs[id].task == t {
      UnlockedIds(ids, locked, id);
    }
  }

  lemma RebuildEvolves(s: State, t: TaskName, locked: set<JobId>)
    requires WellFormed(s)
    ensures Evolves(s, Rebuild(s, t, locked))
  {
    hide Rebuild, RowsEvolve, QueuesEvolve, ExecEvolves, WellFormed;
    RebuildRows(s, t, locked);
    RebuildQueues(s, t, locked);
  }

  lemma StartEvolves(s: State, t: TaskName, hasHandler: bool)
    requires WellFormed(s)
    ensures Evolves(s, Start(s, t, hasHandler))
  {
    hide WellFormed, Evolves, RegisterNext, Begin;
    BeginEvolves(s, t, hasHandler);
    Registers(s, Begin(s, t, hasHandler), true, t);
  }

  lemma FinishEvolves(s: State, t: TaskName, outcome: Outcome, del: bool)
    requires WellFormed(s)
    ensures Evolves(s, Finish(s, t, outcome, del))
  {
    hide WellFormed, Evolves, RegisterNext, WriteBack;
    Unchanged(s);
    if t in s.exec {
      WriteBackEvolves(s, t, outcome, del);
      Registers(s, WriteBack(s, t, outcome, del), true, t);
    }
  }

  lemma StopEvolves(s: State, id: JobId)
    requires WellFormed(s)
    ensures Evolves(s, Stop(s, id))
  {
    hide WellFormed, Evolves, RegisterNext, Halt;
    Unchanged(s);
    if id in s.jobs {
      HaltEvolves(s, id);
      Registers(s, Halt(s, id), false, s.jobs[id].task);
    }
  }

  lemma MoveEvolves(s: State, t: TaskName, statuses: seq<Status>, within: set<JobId>)
    requires WellFormed(s)
    ensures Evolves(s, Move(s, t, statuses, within))
  {
    hide WellFormed, Evolves, RegisterNext, Requeue;
    RequeueEvolves(s, t, statuses, within);
    Registers(s, Requeue(s, t, statuses, within), false, t);
  }

  lemma HoldIsApart(s: State, m: State, r: State)
    requires WellFormed(s) && m == s.(holding := m.holding)
    ensures WellFormed(m) && (Evolves(m, r) ==> Evolves(s, r))
  {
    assert forall t: TaskName, id: JobId :: InQueue(m, t, id) <==> InQueue(s, t, id);
  }

  lemma SwitchHoldEvolves(s: State, t: TaskName)
    requires WellFormed(s)
    ensures Evolves(s, SwitchHold(s, t))
  {
    hide Stream, Evolves, WellFormed;
    if t in s.tasks && t in s.holding {
      var m := s.(holding := s.holding - {t});
      HoldIsApart(s, m, Stream(m, t, [Hold], s.jobs.Keys));
      StreamEvolves(m, t, [Hold], s.jobs.Keys);
    } else {
      FlagsEvolve(s, SwitchHold(s, t));
    }
  }

  lemma RecoverEvolves(s: State, t: TaskName, locked: set<JobId>)
    requires WellFormed(s)
    ensures Evolves(s, Recover(s, t, locked))
  {
    hide WellFormed, Evolves, RegisterNext, Rebuild;
    Unchanged(s);
    RebuildEvolves(s, t, locked);
    Registers(s, Rebuild(s, t, locked), false, t);
  }

  /** The steps that change no row, queue or execution. */
  lemma FlagsEvolve(s: State, r: State)
    requires WellFormed(s) && r == s.(summary := r.summary, loading := r.loading, holding := r.holding, exhausted := r.exhausted)
    ensures Evolves(s, r)
  {
  }

  lemma ClearEvolves(s: State, t: TaskName)
    requires WellFormed(s)
    ensures Evolves(s, ClearQueue(s, t))
  {
  }

  lemma StepEvolves(s: State, step: Step)
    requires WellFormed(s)
    ensures Evolves(s, Apply(s, step))
  {
    hide WellFormed, Evolves, AddJob, Start, Finish, Retry, Stop, Delete, StopAll, Stream, Move, Clean, SwitchHold, Recover;
    match step
    case AddStep(t, maxRetry, interval, cron, created) => AddEvolves(s, t, maxRetry, interval, cron, created);
    case StartStep(t, hasHandler) => StartEvolves(s, t, hasHandler);
    case FinishStep(t, outcome, del) => FinishEvolves(s, t, outcome, del);
    case RetryStep(id) => RetryEvolves(s, id);
    case StopStep(id) => StopEvolves(s, id);
    case DeleteStep(id) => DeleteEvolves(s, id);
    case StopAllStep(t) => StopAllEvolves(s, t);
    case StreamStep(t, statuses, within) => StreamEvolves(s, t, statuses, within);
    case MoveStep(t, statuses, within) => MoveEvolves(s, t, statuses, within);
    case CleanStep(t, statuses, within) => CleanEvolves(s, t, statuses, within);
    case HoldStep(t) => SwitchHoldEvolves(s, t);
    case RecalculateStep => FlagsEvolve(s, Recalculate(s));
    case RecoverStep(t, locked) => RecoverEvolves(s, t, locked);
    case BeginLoadStep(t) => FlagsEvolve(s, BeginLoad(s, t));
    case EndLoadStep(t) => FlagsEvolve(s, EndLoad(s, t));
    case ExpireStep(id) => FlagsEvolve(s, Expire(s, id));
    case ClearStep(t) => ClearEvolves(s, t);
  }

  lemma Unchanged(s: State)
    requires WellFormed(s)
    ensures Evolves(s, s)
  {
  }

  lemma Registers(s: State, m: State, withStream: bool, t: TaskName)
    requires WellFormed(s) && Evolves(s, m)
    ensures Evolves(s, RegisterNext(m, withStream, t))
  {
    EvolvesWellFormed(s, m);
    EvolvesThenRegister(s, m, withStream, t);
  }

  // ---- Runs ----

  ghost predicate Run(states: seq<State>, steps: seq<Step>) {
    && |states| == |steps| + 1 && WellFormed(states[0])
    && forall i {:trigger steps[i]} :: 0 <= i < |steps| ==>
        Enabled(states[i], steps[i]) && states[i + 1] == Apply(states[i], steps[i])
  }

  lemma StepWellFormed(s: State, step: Step)
    requires WellFormed(s)
    ensures WellFormed(Apply(s, step))
  {
    hide WellFormed, Evolves, Apply;
    StepEvolves(s, step);
    EvolvesWellFormed(s, Apply(s, step));
  }

  lemma {:induction false} RunWellFormed(states: seq<State>, steps: seq<Step>, n: nat)
    requires Run(states, steps) && n < |states|
    ensures WellFormed(states[n])
  {
    hide WellFormed, Apply;
    if n > 0 {
      RunWellFormed(states, steps, n - 1);
      var step := steps[n - 1];
      StepWellFormed(states[n - 1], step);
      assert states[n - 1 + 1] == Apply(states[n - 1], step);
    }
  }

  /** In every run of safe steps each task's counters equal its numbers of stored jobs, after every step. */
  lemma {:induction false} RunExact(states: seq<State>, steps: seq<Step>, n: nat)
    requires Run(states, steps) && n < |states| && Exact(states[0])
    requires forall i {:trigger steps[i]} :: 0 <= i < n ==> Safe(states[i], steps[i])
    ensures Exact(states[n])
  {
    hide WellFormed, Apply, Exact, Safe;
    if n > 0 {
      RunExact(states, steps, n - 1);
      RunWellFormed(states, steps, n - 1);
      var step := steps[n - 1];
      StepExactIff(states[n - 1], step);
      assert states[n - 1 + 1] == Apply(states[n - 1], step);
    }
  }

  // ---- Retries ----

  /** A stored job that is pending and not a cron job has retries left. */
  ghost predicate RetryBound(s: State) {
    forall id :: id in s.jobs && !s.jobs[id].cron ==>
      s.jobs[id].maxRetry > 0 && (IsPending(s.jobs[id].status) ==> s.jobs[id].retries < s.jobs[id].maxRetry)
  }

  /** It holds in every reachable state, whatever is called and when. */
  lemma {:induction false} RunRetryBound(states: seq<State>, steps: seq<Step>, n: nat)
    requires Run(states, steps) && n < |states| && RetryBound(states[0])
    ensures RetryBound(states[n])
  {
    hide WellFormed, Apply;
    if n > 0 {
      hide RetryBound;
      RunRetryBound(states, steps, n - 1);
      RunWellFormed(states, steps, n - 1);
      var step := steps[n - 1];
      StepRetryBound(states[n - 1], step);
      assert states[n - 1 + 1] == Apply(states[n - 1], step);
    }
  }

  lemma StepRetryBound(s: State, step: Step)
    requires WellFormed(s) && RetryBound(s)
    ensures RetryBound(Apply(s, step))
  {
    hide WellFormed, Apply;
    StepEvolves(s, step);
    var r := Apply(s, step);
    hide QueuesEvolve, ExecEvolves;
    forall id | id in r.jobs && !r.jobs[id].cron
      ensures r.jobs[id].maxRetry > 0 && (IsPending(r.jobs[id].status) ==> r.jobs[id].retries < r.jobs[id].maxRetry)
    {
    }
  }

  // ---- Callers that leave running jobs alone ----

  /** Job id is the one a handler of task t works on, and nobody has cancelled it. */
  predicate Working(s: State, t: TaskName, id: JobId) {
    t in s.exec && s.exec[t].id == id && !s.exec[t].cancelled
  }

  /** A running job that was not cancelled is still RETRYING in the table. */
  ghost predicate Tidy(s: State) {
    forall t: TaskName, id: JobId :: Working(s, t, id) ==> id in s.jobs && s.jobs[id].status == Retrying
  }

  ghost predicate NotWorking(s: State, id: JobId) {
    forall t: TaskName :: !Working(s, t, id)
  }

  /** What the callers have to respect: no retry of a queueing or running job, no stop of a stopped one, no removal or bulk
      retry of a running one; and a cancelled handler ends through its cancelled context. */
  ghost predicate Disciplined(s: State, step: Step) {
    match step
    case RetryStep(id) => (id in s.jobs ==> s.jobs[id].status != Queueing) && NotWorking(s, id)
    case StopStep(id) => id in s.jobs ==> s.jobs[id].status != Stopped
    case DeleteStep(id) => NotWorking(s, id)
    case MoveStep(t, statuses, within) => Retrying in statuses ==> forall id: JobId :: id in within ==> NotWorking(s, id)
    case CleanStep(t, statuses, within) => Retrying in statuses ==> forall id: JobId :: id in within ==> NotWorking(s, id)
    case FinishStep(t, outcome, _) => t in s.exec && s.exec[t].cancelled ==> outcome.Cancelled?
    case _ => true
  }

  lemma DisciplinedIsSafe(s: State, step: Step)
    requires WellFormed(s) && Tidy(s) && Enabled(s, step) && Disciplined(s, step)
    ensures Safe(s, step)
  {
    if step.FinishStep? && !step.outcome.Cancelled? {
      assert Working(s, step.task, s.exec[step.task].id);
    }
  }

  /** Every execution after the step is a new one on a RETRYING row, or an old one whose row stayed RETRYING. */
  ghost predicate KeepsWork(s: State, r: State) {
    forall t: TaskName, id: JobId :: Working(r, t, id) ==>
      id in r.jobs && (r.jobs[id].status == Retrying || (Working(s, t, id) && id in s.jobs && r.jobs[id].status == s.jobs[id].status))
  }

  lemma KeptTidy(s: State, r: State)
    requires Tidy(s) && KeepsWork(s, r)
    ensures Tidy(r)
  {
  }

  lemma RegisterKeepsWork(s: State, m: State, withStream: bool, t: TaskName)
    requires KeepsWork(s, m)
    ensures KeepsWork(s, RegisterNext(m, withStream, t))
  {
    var r := RegisterNext(m, withStream, t);
    assert forall u: TaskName, id: JobId :: Working(r, u, id) <==> Working(m, u, id);
  }

  lemma AddKeepsWork(s: State, t: TaskName, maxRetry: int, interval: int, cron: bool, created: int)
    requires WellFormed(s) && Tidy(s)
    ensures KeepsWork(s, AddJob(s, t, maxRetry, interval, cron, created))
  {
    AddShape(s, t, maxRetry, interval, cron, created);
    hide AddJob, Increment;
    var r := AddJob(s, t, maxRetry, interval, cron, created);
    assert forall u: TaskName, id: JobId :: Working(r, u, id) <==> Working(s, u, id);
  }

  lemma BeginKeepsWork(s: State, t: TaskName, hasHandler: bool)
    requires WellFormed(s) && Tidy(s) && t !in s.exec
    ensures KeepsWork(s, Begin(s, t, hasHandler))
  {
    hide Increment;
    var r := Begin(s, t, hasHandler);
    forall u: TaskName, id: JobId | Working(r, u, id)
      ensures id in r.jobs && r.jobs[id].status == Retrying
    {
      assert u != t ==> Working(s, u, id);
    }
  }

  lemma WriteBackKeepsWork(s: State, t: TaskName, outcome: Outcome, del: bool)
    requires WellFormed(s) && Tidy(s) && t in s.exec
    ensures KeepsWork(s, WriteBack(s, t, outcome, del))
  {
    hide Increment;
    var r := WriteBack(s, t, outcome, del);
    forall u: TaskName, id: JobId | Working(r, u, id)
      ensures Working(s, u, id) && u != t && id in s.jobs && s.jobs[id].task == u
    {
      assert u in s.exec && Working(s, u, id);
    }
  }

  lemma RetryKeepsWork(s: State, id: JobId)
    requires Tidy(s) && NotWorking(s, id)
    ensures KeepsWork(s, Retry(s, id))
  {
    hide Increment;
    var r := Retry(s, id);
    assert forall u: TaskName, i: JobId :: Working(r, u, i) <==> Working(s, u, i);
  }

  lemma HaltKeepsWork(s: State, id: JobId)
    requires WellFormed(s) && Tidy(s) && id in s.jobs
    ensures KeepsWork(s, Halt(s, id))
  {
    hide Increment;
    var r := Halt(s, id);
    forall u: TaskName, i: JobId | Working(r, u, i)
      ensures Working(s, u, i) && i in s.jobs && s.jobs[i].task == u
    {
      assert u in s.exec && Working(s, u, i);
    }
  }

  lemma DeleteKeepsWork(s: State, id: JobId)
    requires Tidy(s) && NotWorking(s, id)
    ensures KeepsWork(s, Delete(s, id))
  {
    hide Increment;
    var r := Delete(s, id);
    assert forall u: TaskName, i: JobId :: Working(r, u, i) <==> Working(s, u, i);
  }

  lemma StopAllKeepsWork(s: State, t: TaskName)
    requires WellFormed(s) && Tidy(s)
    ensures KeepsWork(s, StopAll(s, t))
  {
    hide Increment, MoveAll;
    var r := StopAll(s, t);
    forall u: TaskName, id: JobId | Working(r, u, id)
      ensures Working(s, u, id) && id in s.jobs && id in r.jobs && r.jobs[id].status == s.jobs[id].status
    {
      assert Working(s, u, id) && s.jobs[id].task == u;
      if t in s.tasks { MoveAllExactly(s.jobs, map[], t, [Queueing, Retrying], s.jobs.Keys, Stopped, false, id); }
    }
  }

  lemma RequeueKeepsWork(s: State, t: TaskName, statuses: seq<Status>, within: set<JobId>)
    requires Tidy(s) && (Retrying in statuses ==> forall id: JobId :: id in within ==> NotWorking(s, id))
    ensures KeepsWork(s, Requeue(s, t, statuses, within))
  {
    hide Increment, MoveAll;
    var r := Requeue(s, t, statuses, within);
    forall u: TaskName, id: JobId | Working(r, u, id)
      ensures Working(s, u, id) && id in s.jobs && id in r.jobs && r.jobs[id].status == s.jobs[id].status
    {
      assert Working(s, u, id);
      MoveAllExactly(s.jobs, map[], t, statuses, within, Queueing, true, id);
    }
  }

  lemma CleanKeepsWork(s: State, t: TaskName, asked: seq<Status>, within: set<JobId>)
    requires Tidy(s) && (Retrying in asked ==> forall id: JobId :: id in within ==> NotWorking(s, id))
    ensures KeepsWork(s, Clean(s, t, asked, within))
  {
    hide Increment, CleanAll;
    var r := Clean(s, t, asked, within);
    forall u: TaskName, id: JobId | Working(r, u, id)
      ensures Working(s, u, id) && id in s.jobs && id in r.jobs && r.jobs[id].status == s.jobs[id].status
    {
      assert Working(s, u, id);
      CleanAllExactly(s.jobs, map[], t, asked, within, id);
    }
  }

  lemma RebuildKeepsWork(s: State, t: TaskName, locked: set<JobId>)
    requires WellFormed(s) && Tidy(s)
    ensures KeepsWork(s, Rebuild(s, t, locked))
  {
    hide CountersOf, OldestFirst, Unlocked;
    var r := Rebuild(s, t, locked);
    forall u: TaskName, i: JobId | Working(r, u, i)
      ensures Working(s, u, i) && u != t && i in s.jobs && s.jobs[i].task == u
    {
      assert u in s.exec && Working(s, u, i);
    }
  }

  lemma StartTidy(s: State, t: TaskName, hasHandler: bool)
    requires WellFormed(s) && Tidy(s) && t !in s.exec
    ensures Tidy(Start(s, t, hasHandler))
  {
    hide WellFormed, Tidy, KeepsWork, RegisterNext, Begin;
    BeginKeepsWork(s, t, hasHandler);
    RegisterKeepsWork(s, Begin(s, t, hasHandler), true, t);
    KeptTidy(s, Start(s, t, hasHandler));
  }

  lemma FinishTidy(s: State, t: TaskName, outcome: Outcome, del: bool)
    requires WellFormed(s) && Tidy(s) && t in s.exec
    ensures Tidy(Finish(s, t, outcome, del))
  {
    hide WellFormed, Tidy, KeepsWork, RegisterNext, WriteBack;
    WriteBackKeepsWork(s, t, outcome, del);
    RegisterKeepsWork(s, WriteBack(s, t, outcome, del), true, t);
    KeptTidy(s, Finish(s, t, outcome, del));
  }

  lemma StopTidy(s: State, id: JobId)
    requires WellFormed(s) && Tidy(s)
    ensures Tidy(Stop(s, id))
  {
    hide WellFormed, Tidy, KeepsWork, RegisterNext, Halt;
    if id in s.jobs {
      HaltKeepsWork(s, id);
      RegisterKeepsWork(s, Halt(s, id), false, s.jobs[id].task);
      KeptTidy(s, Stop(s, id));
    }
  }

  lemma MoveTidy(s: State, t: TaskName, statuses: seq<Status>, within: set<JobId>)
    requires Tidy(s) && (Retrying in statuses ==> forall id: JobId :: id in within ==> NotWorking(s, id))
    ensures Tidy(Move(s, t, statuses, within))
  {
    hide Tidy, KeepsWork, RegisterNext, Requeue, NotWorking;
    RequeueKeepsWork(s, t, statuses, within);
    RegisterKeepsWork(s, Requeue(s, t, statuses, within), false, t);
    KeptTidy(s, Move(s, t, statuses, within));
  }

  lemma RecoverTidy(s: State, t: TaskName, locked: set<JobId>)
    requires WellFormed(s) && Tidy(s)
    ensures Tidy(Recover(s, t, locked))
  {
    hide WellFormed, Tidy, KeepsWork, RegisterNext, Rebuild;
    if t in s.tasks {
      RebuildKeepsWork(s, t, locked);
      RegisterKeepsWork(s, Rebuild(s, t, locked), false, t);
      KeptTidy(s, Recover(s, t, locked));
    }
  }

  lemma StreamTidy(s: State, t: TaskName, statuses: seq<Status>, within: set<JobId>)
    requires Tidy(s)
    ensures Tidy(Stream(s, t, statuses, within)) && Tidy(SwitchHold(s, t))
  {
    hide Tidy, OldestFirst, Selected;
    SameWork(s, Stream(s, t, statuses, within));
    SameWork(s, SwitchHold(s, t));
  }

  lemma StepTidy(s: State, step: Step)
    requires WellFormed(s) && Tidy(s) && Enabled(s, step) && Disciplined(s, step)
    ensures Tidy(Apply(s, step))
  {
    hide WellFormed, Tidy, KeepsWork, NotWorking, AddJob, Start, Finish, Retry, Stop, Delete, StopAll, Stream, Move, Clean, SwitchHold, Recover;
    match step
    case AddStep(t, maxRetry, interval, cron, created) =>
      AddKeepsWork(s, t, maxRetry, interval, cron, created);
      KeptTidy(s, AddJob(s, t, maxRetry, interval, cron, created));
    case StartStep(t, hasHandler) => StartTidy(s, t, hasHandler);
    case FinishStep(t, outcome, del) => FinishTidy(s, t, outcome, del);
    case RetryStep(id) =>
      RetryKeepsWork(s, id);
      KeptTidy(s, Retry(s, id));
    case StopStep(id) => StopTidy(s, id);
    case DeleteStep(id) =>
      DeleteKeepsWork(s, id);
      KeptTidy(s, Delete(s, id));
    case StopAllStep(t) =>
      StopAllKeepsWork(s, t);
      KeptTidy(s, StopAll(s, t));
    case StreamStep(t, statuses, within) => StreamTidy(s, t, statuses, within);
    case MoveStep(t, statuses, within) => MoveTidy(s, t, statuses, within);
    case CleanStep(t, statuses, within) =>
      CleanKeepsWork(s, t, statuses, within);
      KeptTidy(s, Clean(s, t, statuses, within));
    case HoldStep(t) => StreamTidy(s, t, [], {});
    case RecalculateStep => SameWork(s, Recalculate(s));
    case BeginLoadStep(t) => SameWork(s, BeginLoad(s, t));
    case EndLoadStep(t) => SameWork(s, EndLoad(s, t));
    case ExpireStep(id) => SameWork(s, Expire(s, id));
    case ClearStep(t) => SameWork(s, ClearQueue(s, t));
    case RecoverStep(t, locked) => RecoverTidy(s, t, locked);
  }

  lemma SameWork(s: State, r: State)
    requires Tidy(s) && r.exec == s.exec && r.jobs == s.jobs
    ensures Tidy(r)
  {
    assert forall t: TaskName, id: JobId :: Working(r, t, id) <==> Working(s, t, id);
  }

  /** If the callers are disciplined, every step of every run is safe, and so the counters are exact throughout. */
  lemma {:induction false} DisciplinedRun(states: seq<State>, steps: seq<Step>, n: nat)
    requires Run(states, steps) && n < |states| && Exact(states[0]) && Tidy(states[0])
    requires forall i {:trigger steps[i]} :: 0 <= i < n ==> Disciplined(states[i], steps[i])
    ensures Exact(states[n]) && Tidy(states[n])
  {
    hide WellFormed, Apply, Exact, Safe, Tidy, Disciplined;
    if n > 0 {
      DisciplinedRun(states, steps, n - 1);
      RunWellFormed(states, steps, n - 1);
      var s, step := states[n - 1], steps[n - 1];
      DisciplinedIsSafe(s, step);
      StepTidy(s, step);
      StepExactIff(s, step);
      assert states[n - 1 + 1] == Apply(s, step);
    }
  }
}
