/** The atomic steps of the task queue worker on its whole state. */
module JobSteps {
  import opened JobModel

  /** A job being executed: its id, the worker's own copy of it (with the retry already counted) and
      whether its context has been cancelled. */
  datatype Execution = Execution(id: JobId, job: Job, cancelled: bool)

  /** `exec[t]` exists while task t's semaphore is taken by a running handler; `armed[t]` is the job task t's
      ticker was started for; `loading` are the tasks in the window of a bulk operation; `exhausted` are the jobs
      whose cron expression has run out, so that their next interval is not positive. */
  datatype State = State(
    tasks: set<TaskName>, jobs: Table, queue: map<TaskName, seq<JobId>>, summary: map<TaskName, Counters>,
    exec: map<TaskName, Execution>, armed: map<TaskName, JobId>,
    holding: set<TaskName>, loading: set<TaskName>, exhausted: set<JobId>, nextId: JobId)

  function QueueOf(s: State, t: TaskName): seq<JobId> {
    if t in s.queue then s.queue[t] else []
  }

  function SummaryOf(s: State, t: TaskName): Counters {
    if t in s.summary then s.summary[t] else NO_JOBS
  }

  function AddToSummary(s: State, t: TaskName, incr: Increments): State {
    s.(summary := s.summary[t := Increment(SummaryOf(s, t), incr)])
  }

  function Push(s: State, t: TaskName, ids: seq<JobId>): State {
    s.(queue := s.queue[t := QueueOf(s, t) + ids])
  }

  predicate IsQueueing(jobs: Table, id: JobId) {
    id in jobs && jobs[id].status == Queueing
  }

  // ---- Arming the next job ----

  /** `registerJobToWorker`. */
  function Arm(s: State, t: TaskName, id: JobId): State {
    if id in s.exhausted then s else s.(armed := s.armed[t := id])
  }

  /** `registerNextJob`. */
  function RegisterNext(s: State, withStream: bool, t: TaskName): (r: State)
    ensures r == s.(queue := r.queue, armed := r.armed)
    decreases withStream, |QueueOf(s, t)|
  {
    var q := QueueOf(s, t);
    if q != [] then
      if IsQueueing(s.jobs, q[0]) then Arm(s, t, q[0])
      else RegisterNext(s.(queue := s.queue[t := q[1..]]), false, t)
    else if withStream then
      RegisterNext(Push(s, t, OldestFirst(s.jobs, Where(s.jobs, t, Queueing))), false, t)
    else s
  }

  // ---- Jobs ----

  /** The requests `AddJob` answers with an error: no retries or a negative interval outside cron, an unregistered task, or
      a second cron job beside a pending one. */
  predicate Refuses(s: State, t: TaskName, maxRetry: int, interval: int, cron: bool) {
    || (!cron && (maxRetry <= 0 || interval < 0))
    || t !in s.tasks
    || (cron && exists id :: id in s.jobs && s.jobs[id].task == t && s.jobs[id].maxRetry == 0 && s.jobs[id].status in {Queueing, Retrying})
  }

  /** A new job is saved and counted. On hold or in a loading window it is not pushed; the first in the queue of an idle
      task is armed. */
  function Added(s: State, t: TaskName, maxRetry: int, cron: bool, created: int): State {
    var id, q := s.nextId, QueueOf(s, t);
    var status := if t in s.holding then Hold else Queueing;
    var closed := t in s.holding || t in s.loading;
    s.(jobs := s.jobs[id := Job(t, status, 0, maxRetry, cron, created)],
       nextId := id + 1,
       summary := s.summary[t := Increment(SummaryOf(s, t), map[Lower(status) := 1])],
       queue := if closed then s.queue else s.queue[t := q + [id]],
       armed := if closed || q != [] || t in s.exec || id in s.exhausted then s.armed else s.armed[t := id])
  }

  function AddJob(s: State, t: TaskName, maxRetry: int, interval: int, cron: bool, created: int): State {
    if Refuses(s, t, maxRetry, interval, cron) then s else Added(s, t, maxRetry, cron, created)
  }

  /** The head of task t's queue, if `execJob` will run it. */
  predicate Runnable(s: State, t: TaskName) {
    t !in s.holding && QueueOf(s, t) != [] && IsQueueing(s.jobs, QueueOf(s, t)[0])
  }

  /** `triggerTask` and `execJob` up to the handler call: the ticker stops, the head is popped and, if it is
      still queueing, becomes retrying. */
  function Begin(s: State, t: TaskName, hasHandler: bool): State {
    var q := QueueOf(s, t);
    var stopped := s.(armed := s.armed - {t});
    if t in s.holding || q == [] then stopped
    else
      var popped := stopped.(queue := s.queue[t := q[1..]]);
      if !Runnable(s, t) then popped
      else
        var id, job := q[0], s.jobs[q[0]];
        var retrying := popped.(jobs := s.jobs[id := job.(status := Retrying)],
          exec := if hasHandler then s.exec[t := Execution(id, job.(status := Retrying, retries := job.retries + 1), false)] else s.exec);
        AddToSummary(retrying, job.task, map[Upper(Retrying) := 1, Lower(Queueing) := -1])
  }

  /** Unless a handler is now running, the deferred `registerNextJob` follows. */
  function Start(s: State, t: TaskName, hasHandler: bool): State {
    if t in s.holding || (Runnable(s, t) && hasHandler) then Begin(s, t, hasHandler)
    else RegisterNext(Begin(s, t, hasHandler), true, t)
  }

  datatype Outcome = Cancelled | Succeeded | Failed | AskedRetry

  /** The status `execJob` ends with; a queueing one is also pushed. */
  function FinalStatus(job: Job, outcome: Outcome): Status {
    if outcome.Cancelled? then Stopped
    else if job.cron && (job.maxRetry == 0 || job.retries < job.maxRetry) then Queueing
    else if outcome.AskedRetry? && job.retries < job.maxRetry then Queueing
    else if outcome.Succeeded? then Success
    else Failure
  }

  /** `execJob` from the handler's answer, or the cancelled context, on. */
  function WriteBack(s: State, t: TaskName, outcome: Outcome, deleteAfterSuccess: bool): State
    requires t in s.exec
  {
    var Execution(id, job, _) := s.exec[t];
    var st := FinalStatus(job, outcome);
    var found := if id in s.jobs then 1 else 0;
    var idle := s.(exec := s.exec - {t});
    var pushed := if st == Queueing then Push(idle, job.task, [id]) else idle;
    if outcome.Cancelled? then pushed
    else if deleteAfterSuccess && st == Success then
      AddToSummary(pushed.(jobs := s.jobs - {id}), job.task, map[Lower(Retrying) := -1])
    else
      AddToSummary(
        pushed.(jobs := if id in s.jobs then s.jobs[id := s.jobs[id].(status := st, retries := job.retries)] else s.jobs),
        job.task, map[Upper(st) := found, Lower(Retrying) := -found])
  }

  function Finish(s: State, t: TaskName, outcome: Outcome, deleteAfterSuccess: bool): State {
    if t !in s.exec then s else RegisterNext(WriteBack(s, t, outcome, deleteAfterSuccess), true, t)
  }

  /** `RetryJob`. Two equal keys of the increment map leave only the later one. */
  function Retry(s: State, id: JobId): State {
    if id !in s.jobs then s
    else
      var job := s.jobs[id];
      var retries := if job.retries >= job.maxRetry then 0 else job.retries;
      var queued := s.(jobs := s.jobs[id := job.(status := Queueing, retries := retries)]);
      var counted := AddToSummary(queued, job.task, map[Upper(job.status) := -1][Upper(Queueing) := 1]);
      if job.task !in s.tasks then counted else Arm(Push(counted, job.task, [id]), job.task, id)
  }

  /** `stopAllJobInTask`: the ticker stops and a running handler's context is cancelled. */
  function Cancel(s: State, t: TaskName): State {
    s.(armed := s.armed - {t}, exec := if t in s.exec then s.exec[t := s.exec[t].(cancelled := true)] else s.exec)
  }

  /** `StopJob` up to its `registerNextJob`. */
  function Halt(s: State, id: JobId): State
    requires id in s.jobs
  {
    var job := s.jobs[id];
    var halted := if job.status == Retrying then Cancel(s, job.task) else s;
    var stopped := halted.(jobs := s.jobs[id := job.(status := Stopped)]);
    AddToSummary(stopped, job.task, map[Upper(Stopped) := 1][Upper(job.status) := -1])
  }

  function Stop(s: State, id: JobId): State {
    if id !in s.jobs then s else RegisterNext(Halt(s, id), false, s.jobs[id].task)
  }

  function Delete(s: State, id: JobId): State {
    if id !in s.jobs then s
    else AddToSummary(s.(jobs := s.jobs - {id}), s.jobs[id].task, map[Upper(s.jobs[id].status) := -1])
  }

  // ---- Bulk operations ----

  /** `UpdateJob` over a filter: the selected rows get a new status and, if asked, zero retries. */
  function SetStatus(jobs: Table, ids: set<JobId>, st: Status, resetRetries: bool): Table {
    map id | id in jobs ::
      if id in ids then jobs[id].(status := st, retries := if resetRetries then 0 else jobs[id].retries) else jobs[id]
  }

  function AddAt(incr: Increments, k: Key, n: int): Increments {
    incr[k := At(incr, k) + n]
  }

  /** One status after the other moves to `to`, the increments adding up. */
  function MoveAll(jobs: Table, incr: Increments, t: TaskName, statuses: seq<Status>, within: set<JobId>, to: Status, reset: bool):
    (r: (Table, Increments))
    decreases |statuses|
  {
    if statuses == [] then (jobs, incr)
    else
      var st := statuses[0];
      var ids := Where(jobs, t, st) * within;
      MoveAll(SetStatus(jobs, ids, to, reset), AddAt(AddAt(incr, Lower(st), -|ids|), Lower(to), |ids|),
              t, statuses[1..], within, to, reset)
  }

  function CleanAll(jobs: Table, incr: Increments, t: TaskName, statuses: seq<Status>, within: set<JobId>): (r: (Table, Increments))
    decreases |statuses|
  {
    if statuses == [] then (jobs, incr)
    else
      var ids := Where(jobs, t, statuses[0]) * within;
      CleanAll(jobs - ids, AddAt(incr, Lower(statuses[0]), -|ids|), t, statuses[1..], within)
  }

  /** `StopAllJob`. It ends the task's hold as well as its loading. */
  function StopAll(s: State, t: TaskName): State {
    if t !in s.tasks then s
    else
      var (jobs, incr) := MoveAll(s.jobs, map[], t, [Queueing, Retrying], s.jobs.Keys, Stopped, false);
      AddToSummary(Cancel(s, t).(jobs := jobs, queue := s.queue[t := []], holding := s.holding - {t}, loading := s.loading - {t}),
                   t, incr)
  }

  function Selected(s: State, t: TaskName, statuses: seq<Status>, within: set<JobId>): set<JobId> {
    set id | id in s.jobs && id in within && s.jobs[id].task == t && s.jobs[id].status in statuses
  }

  /** `RetryAllJob` up to its updates: the flag goes up and the selected rows are pushed, in whatever status they have. */
  function Stream(s: State, t: TaskName, statuses: seq<Status>, within: set<JobId>): State {
    Push(s.(loading := s.loading + {t}), t, OldestFirst(s.jobs, Selected(s, t, statuses, within)))
  }

  /** Its updates, whatever has happened since: the rows become queueing, are counted, and the flag goes down. */
  function Requeue(s: State, t: TaskName, statuses: seq<Status>, within: set<JobId>): State {
    var (jobs, incr) := MoveAll(s.jobs, map[], t, statuses, within, Queueing, true);
    AddToSummary(s.(jobs := jobs, loading := s.loading - {t}), t, incr)
  }

  function Move(s: State, t: TaskName, statuses: seq<Status>, within: set<JobId>): State {
    RegisterNext(Requeue(s, t, statuses, within), false, t)
  }

  /** `RetryAllJob` of the jobs a search and date filter leaves `within`; no statuses means failed and stopped. */
  function RetryAll(s: State, t: TaskName, asked: seq<Status>, within: set<JobId>): State {
    var statuses := if asked == [] then [Failure, Stopped] else asked;
    Move(Stream(s, t, statuses, within), t, statuses, within)
  }

  /** `CleanJob` loops over the request's own statuses: its default of failed and stopped is never used. */
  function Clean(s: State, t: TaskName, asked: seq<Status>, within: set<JobId>): State {
    var (jobs, incr) := CleanAll(s.jobs, map[], t, asked, within);
    AddToSummary(s.(jobs := jobs, loading := s.loading - {t}), t, incr)
  }

  /** `HoldJobTask` up to its updates: a task goes on hold, or its hold ends and its held jobs are pushed. */
  function SwitchHold(s: State, t: TaskName): State {
    if t !in s.tasks then s
    else if t !in s.holding then s.(holding := s.holding + {t})
    else Stream(s.(holding := s.holding - {t}), t, [Hold], s.jobs.Keys)
  }

  /** `HoldJobTask` without the automatic switch. */
  function ToggleHold(s: State, t: TaskName): State {
    if t in s.tasks && t in s.holding then Move(SwitchHold(s, t), t, [Hold], s.jobs.Keys) else SwitchHold(s, t)
  }

  /** `RecalculateSummary`. */
  function Recalculate(s: State): State {
    s.(summary := map t | t in s.tasks + s.summary.Keys ::
      if t in s.tasks then CountersOf(s.jobs, t) else s.summary[t])
  }

  // ---- Start-up recovery ----

  function PendingIds(jobs: Table, t: TaskName): set<JobId> {
    Where(jobs, t, Retrying) + Where(jobs, t, Queueing)
  }

  function Unlocked(ids: seq<JobId>, locked: set<JobId>): seq<JobId> {
    if ids == [] then [] else (if ids[0] in locked then [] else [ids[0]]) + Unlocked(ids[1..], locked)
  }

  /** What `prepare` makes of one task after a restart: the queue is rebuilt from the pending jobs nobody has
      locked, those go back to queueing, and the counters are counted again. */
  function Rebuild(s: State, t: TaskName, locked: set<JobId>): State {
    var pending := PendingIds(s.jobs, t);
    var jobs := SetStatus(s.jobs, pending - locked, Queueing, false);
    s.(exec := s.exec - {t}, armed := s.armed - {t}, loading := s.loading - {t}, jobs := jobs,
       queue := s.queue[t := Unlocked(OldestFirst(s.jobs, pending), locked)],
       summary := s.summary[t := CountersOf(jobs, t)])
  }

  function Recover(s: State, t: TaskName, locked: set<JobId>): State {
    if t !in s.tasks then s
    else if PendingIds(s.jobs, t) == {} then Rebuild(s, t, locked)
    else RegisterNext(Rebuild(s, t, locked), false, t)
  }

  // ---- Windows and time ----

  /** A bulk operation announces itself before it starts; it clears the flag when it is done. */
  function BeginLoad(s: State, t: TaskName): State {
    s.(loading := s.loading + {t})
  }

  function EndLoad(s: State, t: TaskName): State {
    s.(loading := s.loading - {t})
  }

  /** A cron expression that has run out does not come back. */
  function Expire(s: State, id: JobId): State {
    s.(exhausted := s.exhausted + {id})
  }

  /** `Clear` of the queue storage on its own: the tail of a `StopAllJob`, after its flags are down, and of a shutdown. */
  function ClearQueue(s: State, t: TaskName): State {
    s.(queue := s.queue[t := []])
  }

  // ---- Runs ----

  datatype Step =
    | AddStep(task: TaskName, maxRetry: int, interval: int, cron: bool, created: int)
    | StartStep(task: TaskName, hasHandler: bool)
    | FinishStep(task: TaskName, outcome: Outcome, deleteAfterSuccess: bool)
    | RetryStep(id: JobId)
    | StopStep(id: JobId)
    | DeleteStep(id: JobId)
    | StopAllStep(task: TaskName)
    | StreamStep(task: TaskName, statuses: seq<Status>, within: set<JobId>)
    | MoveStep(task: TaskName, statuses: seq<Status>, within: set<JobId>)
    | CleanStep(task: TaskName, statuses: seq<Status>, within: set<JobId>)
    | HoldStep(task: TaskName)
    | RecalculateStep
    | RecoverStep(task: TaskName, locked: set<JobId>)
    | BeginLoadStep(task: TaskName)
    | EndLoadStep(task: TaskName)
    | ExpireStep(id: JobId)
    | ClearStep(task: TaskName)

  function Apply(s: State, step: Step): State {
    match step
    case AddStep(t, maxRetry, interval, cron, created) => AddJob(s, t, maxRetry, interval, cron, created)
    case StartStep(t, hasHandler) => Start(s, t, hasHandler)
    case FinishStep(t, outcome, del) => Finish(s, t, outcome, del)
    case RetryStep(id) => Retry(s, id)
    case StopStep(id) => Stop(s, id)
    case DeleteStep(id) => Delete(s, id)
    case StopAllStep(t) => StopAll(s, t)
    case StreamStep(t, statuses, within) => Stream(s, t, statuses, within)
    case MoveStep(t, statuses, within) => Move(s, t, statuses, within)
    case CleanStep(t, statuses, within) => Clean(s, t, statuses, within)
    case HoldStep(t) => SwitchHold(s, t)
    case RecalculateStep => Recalculate(s)
    case RecoverStep(t, locked) => Recover(s, t, locked)
    case BeginLoadStep(t) => BeginLoad(s, t)
    case EndLoadStep(t) => EndLoad(s, t)
    case ExpireStep(id) => Expire(s, id)
    case ClearStep(t) => ClearQueue(s, t)
  }

  /** A task's semaphore has room for one handler, and a context is done only after a cancel. */
  predicate Enabled(s: State, step: Step) {
    && (step.StartStep? ==> step.task in s.tasks && step.task !in s.exec)
    && (step.FinishStep? ==> step.task in s.exec && (step.outcome.Cancelled? ==> s.exec[step.task].cancelled))
  }
}
