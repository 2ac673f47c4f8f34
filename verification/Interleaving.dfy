/** The task queue worker at the grain of single accesses to its storages, flags, tickers and semaphores: any number of
    operations are under way at once, and a step is the next access of one of them. */
module Interleaving {
  import opened JobModel

  type Pid = nat

  /** What of a stored job matters here. */
  datatype Row = Row(task: TaskName, status: Status)

  type Rows = map<JobId, Row>

  /** An access an operation has still to make. */
  datatype Access =
    // flags, tickers and semaphores
    | SetLoading(task: TaskName, on: bool)
    | SetHold(task: TaskName, on: bool)
    | ReadFlags(task: TaskName)                  // `AddJob` reads the summary
    | ReadHold(task: TaskName)                   // `triggerTask` reads it, and gives up on hold
    | StopTicker(task: TaskName)
    | StartTicker(task: TaskName, id: JobId)     // `registerJobToWorker`
    | IfIdle(task: TaskName, id: JobId)          // `AddJob` looks at the semaphore after its push
    | Acquire(task: TaskName)
    | TryLock(task: TaskName)                    // the lock shared with other runtimes
    | Free(task: TaskName)
    // queues
    | PushJob(task: TaskName, id: JobId)
    | PushNew(task: TaskName, id: JobId)         // the push of `AddJob`
    | Clear(task: TaskName)
    | Peek(task: TaskName, withStream: bool)     // `registerNextJob`
    | Look(task: TaskName, id: JobId)            // it fetches the row it has peeked at
    | Drop(task: TaskName)                       // and pops, the row not being queueing
    | Feed(task: TaskName)                       // `StreamAllJob`, pushing the rows of its pages
    | Take(task: TaskName)                       // `execJob` pops
    | Fetch(task: TaskName, id: JobId)           // and fetches the row
    // rows
    | Save(task: TaskName, onHold: bool, inWindow: bool)
    | SetRow(id: JobId, status: Status)
    | StopRow(id: JobId, before: Status)
    | Rewrite(task: TaskName, before: Status, after: Status)
    | Remove
    | Handle(task: TaskName, id: JobId)          // the handler runs
    | Count(task: TaskName)                      // recovery counts the pending rows
    | Recover(task: TaskName)                    // and takes up one after the other

  /** `armed` are the tasks whose ticker runs, `busy` those whose semaphore is taken, `exhausted` the jobs whose next
      interval is not positive; each operation under way is what it has still to do. */
  datatype State = State(
    tasks: set<TaskName>, jobs: Rows, queue: map<TaskName, seq<JobId>>, armed: set<TaskName>,
    holding: set<TaskName>, loading: set<TaskName>, busy: set<TaskName>, exhausted: set<JobId>, ops: map<Pid, seq<Access>>)

  function QueueOf(s: State, t: TaskName): seq<JobId> {
    if t in s.queue then s.queue[t] else []
  }

  predicate IsQueueing(jobs: Rows, id: JobId) {
    id in jobs && jobs[id].status == Queueing
  }

  function WithStatus(jobs: Rows, id: JobId, st: Status): Rows {
    if id in jobs then jobs[id := jobs[id].(status := st)] else jobs
  }

  // ---- What one access does ----

  /** How the handler and its write-back end: nothing is written to the status, the row is deleted, or it gets a status. */
  datatype Ending = Unwritten | Deleted | Final(status: Status)

  /** What the outside decides about an access: a new or a streamed id and whether there is one, the rows a filter
      leaves, whether a lock is taken, and how a handler ends. */
  datatype Choice = Choice(id: JobId, more: bool, rows: set<JobId>, locked: bool, ending: Ending)

  /** The access can be made: a semaphore has room, a new id is new. */
  predicate Ready(s: State, a: Access, c: Choice) {
    && (a.Acquire? ==> a.task !in s.busy)
    && (a.Save? ==> c.id !in s.jobs && c.id !in QueueOf(s, a.task))
  }

  function Effect(s: State, a: Access, c: Choice): State {
    match a
    case SetLoading(t, on) => s.(loading := if on then s.loading + {t} else s.loading - {t})
    case SetHold(t, on) => s.(holding := if on then s.holding + {t} else s.holding - {t})
    case StopTicker(t) => s.(armed := s.armed - {t})
    case StartTicker(t, id) => if id in s.exhausted then s else s.(armed := s.armed + {t})
    case Acquire(t) => s.(busy := s.busy + {t})
    case Free(t) => s.(busy := s.busy - {t})
    case PushJob(t, id) => s.(queue := s.queue[t := QueueOf(s, t) + [id]])
    case PushNew(t, id) => s.(queue := s.queue[t := QueueOf(s, t) + [id]])
    case Clear(t) => s.(queue := s.queue[t := []])
    case Drop(t) => if QueueOf(s, t) == [] then s else s.(queue := s.queue[t := QueueOf(s, t)[1..]])
    case Take(t) => if QueueOf(s, t) == [] then s else s.(queue := s.queue[t := QueueOf(s, t)[1..]])
    case Save(t, onHold, _) => s.(jobs := s.jobs[c.id := Row(t, if onHold then Hold else Queueing)])
    case SetRow(id, st) => s.(jobs := WithStatus(s.jobs, id, st))
    case StopRow(id, before) =>
      if id in s.jobs && s.jobs[id].status == before then s.(jobs := WithStatus(s.jobs, id, Stopped)) else s
    case Rewrite(t, before, after) =>
      s.(jobs := map id | id in s.jobs ::
           if id in c.rows && s.jobs[id].task == t && s.jobs[id].status == before then s.jobs[id].(status := after) else s.jobs[id])
    case Remove => s.(jobs := s.jobs - c.rows)
    case _ => s
  }

  /** The accesses that follow it, before those already planned. */
  function Follow(s: State, a: Access, c: Choice): seq<Access> {
    match a
    case ReadFlags(t) => [Save(t, t in s.holding, t in s.loading)]
    case ReadHold(t) => if t in s.holding then [] else [Acquire(t), TryLock(t), Free(t), Peek(t, true)]
    case TryLock(t) => if c.locked then [] else [Take(t)]
    case Save(t, onHold, inWindow) => if onHold || inWindow then [] else [PushNew(t, c.id)]
    case PushNew(t, id) => if QueueOf(s, t) == [] then [IfIdle(t, id)] else []
    case IfIdle(t, id) => if t in s.busy then [] else [StartTicker(t, id)]
    case Peek(t, withStream) =>
      if QueueOf(s, t) != [] then [Look(t, QueueOf(s, t)[0])] else if withStream then [Feed(t), Peek(t, false)] else []
    case Look(t, id) => if IsQueueing(s.jobs, id) then [StartTicker(t, id)] else [Drop(t)]
    case Drop(t) => [Peek(t, false)]
    case Feed(t) => if c.more then [PushJob(t, c.id), Feed(t)] else []
    case Take(t) => if QueueOf(s, t) == [] then [] else [Fetch(t, QueueOf(s, t)[0])]
    case Fetch(t, id) => if IsQueueing(s.jobs, id) then [SetRow(id, Retrying), Handle(t, id)] else []
    case Handle(t, id) =>
      match c.ending {
        case Unwritten => []
        case Deleted => [Remove]
        case Final(st) => if st == Queueing then [PushJob(t, id), SetRow(id, st)] else [SetRow(id, st)]
      }
    case Count(t) =>
      if exists id :: id in s.jobs && s.jobs[id].task == t && s.jobs[id].status in {Retrying, Queueing} then
        [SetLoading(t, true), Recover(t), SetLoading(t, false), Peek(t, false)]
      else [SetLoading(t, true), SetLoading(t, false)]
    case Recover(t) =>
      if !c.more then []
      else if IsQueueing(s.jobs, c.id) then [PushJob(t, c.id), Recover(t)]
      else [SetRow(c.id, Queueing), PushJob(t, c.id), Recover(t)]
    case _ => []
  }

  // ---- Operations ----

  datatype Operation =
    | AddJob(task: TaskName)
    | RetryJob(id: JobId)
    | StopJob(id: JobId)
    | DeleteJob
    | StopAllJob(task: TaskName)
    | RetryAllJob(task: TaskName, statuses: seq<Status>)
    | CleanJob(task: TaskName, statuses: seq<Status>)
    | HoldJobTask(task: TaskName)
    | TriggerTask(task: TaskName)
    | Shutdown(task: TaskName)

  predicate Starts(s: State, op: Operation) {
    match op
    case AddJob(t) => t in s.tasks
    case RetryJob(id) => id in s.jobs
    case StopJob(id) => id in s.jobs
    case StopAllJob(t) => t in s.tasks
    case HoldJobTask(t) => t in s.tasks
    case TriggerTask(t) => t in s.armed
    case _ => true
  }

  function Rewrites(t: TaskName, statuses: seq<Status>, after: Status): seq<Access> {
    if statuses == [] then [] else [Rewrite(t, statuses[0], after)] + Rewrites(t, statuses[1..], after)
  }

  function Removals(n: nat): seq<Access> {
    if n == 0 then [] else [Remove] + Removals(n - 1)
  }

  /** The bulk retry and the release of a hold push the rows of a stream and rewrite them afterwards. */
  function Requeue(t: TaskName, statuses: seq<Status>): seq<Access> {
    [SetLoading(t, true), Feed(t)] + Rewrites(t, statuses, Queueing) + [SetLoading(t, false), Peek(t, false)]
  }

  function Program(s: State, op: Operation): seq<Access>
    requires Starts(s, op)
  {
    match op
    case AddJob(t) => [ReadFlags(t)]
    case RetryJob(id) =>
      var t := s.jobs[id].task;
      if t in s.tasks then [SetRow(id, Queueing), PushJob(t, id), StartTicker(t, id)] else [SetRow(id, Queueing)]
    case StopJob(id) =>
      var Row(t, before) := s.jobs[id];
      (if before == Retrying then [StopTicker(t)] else []) + [StopRow(id, before), Peek(t, false)]
    case DeleteJob => [Remove]
    case StopAllJob(t) =>
      [SetLoading(t, true), SetHold(t, true), StopTicker(t), Rewrite(t, Queueing, Stopped), Rewrite(t, Retrying, Stopped),
       SetHold(t, false), SetLoading(t, false), Clear(t)]
    case RetryAllJob(t, statuses) => Requeue(t, statuses)
    case CleanJob(t, statuses) => [SetLoading(t, true)] + Removals(|statuses|) + [SetLoading(t, false)]
    case HoldJobTask(t) => if t in s.holding then [SetHold(t, false)] + Requeue(t, [Hold]) else [SetHold(t, true)]
    case TriggerTask(t) => [StopTicker(t), ReadHold(t)]
    case Shutdown(t) => [StopTicker(t), Clear(t)]
  }

  /** `prepare` for one task. */
  function Prepare(t: TaskName): seq<Access> {
    [Clear(t), Count(t)]
  }

  // ---- Runs ----

  datatype Step =
    | Begin(pid: Pid, op: Operation)
    | Next(pid: Pid, choice: Choice)
    | Expire(id: JobId)                // a cron expression runs out
    | Restart(memory: bool)            // the process ends and starts anew; queues in memory are lost

  /** The operation's next access and those after it. */
  predicate Due(s: State, step: Step) {
    step.Next? && step.pid in s.ops && s.ops[step.pid] != []
  }

  predicate Enabled(s: State, step: Step) {
    match step
    case Begin(pid, op) => pid !in s.ops && Starts(s, op)
    case Next(pid, c) => Due(s, step) && Ready(s, s.ops[pid][0], c)
    case _ => true
  }

  /** The accesses left; an operation with none is over. */
  function Left(ops: map<Pid, seq<Access>>, pid: Pid, rest: seq<Access>): map<Pid, seq<Access>> {
    if rest == [] then ops - {pid} else ops[pid := rest]
  }

  function Apply(s: State, step: Step): State
    requires Enabled(s, step)
  {
    match step
    case Begin(pid, op) => s.(ops := s.ops[pid := Program(s, op)])
    case Next(pid, c) =>
      var a := s.ops[pid][0];
      Effect(s, a, c).(ops := Left(s.ops, pid, Follow(s, a, c) + s.ops[pid][1..]))
    case Expire(id) => s.(exhausted := s.exhausted + {id})
    case Restart(memory) =>
      s.(ops := map t | t in s.tasks :: Prepare(t), armed := {}, busy := {}, queue := if memory then map[] else s.queue)
  }

  ghost predicate Run(states: seq<State>, steps: seq<Step>) {
    && |states| == |steps| + 1
    && forall i {:trigger steps[i]} :: 0 <= i < |steps| ==>
        Enabled(states[i], steps[i]) && states[i + 1] == Apply(states[i], steps[i])
  }
}
