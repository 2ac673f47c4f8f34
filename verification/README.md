# candi's cron engine, job queue and workers in Dafny

candi schedules work in two ways: a cron worker follows cron expressions, and a task queue worker runs
stored jobs with retries. This project models the logic behind both and proves what it computes.

- **Cron expressions** (`SortedLists`, `Calendar`, `CronSpec`, `CronDays`, `CronNext`, `CronEmpty`, `CronParser`). The parser
  turns the entries of a cron line into value lists and day sets; `Next` walks them through six step functions over
  a shared cache of the current month's days. The specification is the set of instants a line asks for (`Asked`,
  and `Fires` for the parsed fields), with the crontab day rule stated over weekdays counted in the Gregorian
  calendar. Main result: parsing and walking together return the first such instant strictly after the given one, or
  the zero time exactly when there is none (`CronParser.NextOfLine`, `CronNext.Expression.Next`). The one way to fail, a
  field that ends up without values, has its exact condition (`CronEmpty`).
- **Cron worker** (`CronFiring`, `DailyTime`, `CronWorker`, `Locker`). Re-armed tickers against the schedule they
  follow; `HH:mm:ss@repeat` jobs; the serve loop with its semaphores and shutdown as a step system in which the loop,
  the goroutines and the shutdown interleave; the INCR/DEL lock between instances.
- **Queues** (`RingQueue`, `InMemQueue`). The growing and shrinking ring buffer refines a FIFO sequence, with an
  amortised bound on the elements it copies; the in-memory queue lifts it to independent sequences per task.
- **Task queue, operation by operation** (`JobModel`, `JobSteps`, `JobEngine`, `JobInterval`, `CounterTheorems`,
  `CounterDrift`, `BulkRows`, `RunTheorems`, `RetryTheorems`, `QueueTheorems`, `CronJobs`, `Arming`, `Recovery`,
  `Outcomes`). `JobEngine.Engine` updates table, queues, counters, executions and tickers in place; each method is proved
  equal to a step of `JobSteps`, or to two where other operations come between (stream and move of a bulk retry or release,
  start and finish of an execution). `Outcomes` says of every operation what it leaves of rows, queues, handlers and
  tickers, without the functions it is put together from. The theorems are about every step and every run of steps: counters, retries, cron jobs, arming of the next job, and recovery
  that pages over a table it is rewriting.
- **Task queue, access by access** (`Interleaving`, `LostJobs`, `WakeUps`, `Reaching`, `LostRuns`, `Alone`). Here an
  operation is the sequence of its single accesses to table, queue, flags, tickers and semaphores, and any number of
  operations interleave access by access. The theorems hold in every such interleaving: exactly which accesses leave a
  QUEUEING job outside its queue, no lost wake-up, and one handler per task. `LostRuns` shows the losing accesses happen,
  and `Alone` that an operation nothing interrupts does what its atomic step does.

Reading notes.

- Time is civil time in UTC. An instant of a schedule is a whole second; `Time.Nanos` orders instants.
- Task names and job ids are numbers; a new job takes an id never used before. Rows are ordered by creation time, equal
  times by id. A search and date filter is the set of ids it leaves (`within`).
- An update of the table reports as many affected as matched rows. The steps of `JobSteps` are atomic, the accesses of
  `Interleaving` are single calls; what a stream's pages hold, what a filter leaves and how a handler ends is left open
  there, so that the theorems hold whatever it is.
- The hold and loading flags are those of the persistent summaries. The in-memory summary writes every boolean it is given
  to its loading flag (codebase/app/task_queue_worker/summary.go:86-87), so there a hold acts as loading.
- Increment maps are keyed by status names in the spelling the caller used, upper or lower case, as in the source; when
  two keys of one map literal coincide the later entry is the one kept.

What the code does not do, stated and proved as such:

- A retry of a job that is already QUEUEING, a stop of one already STOPPED, and the ordinary end of an execution whose
  row is no longer RETRYING make the counters wrong. `StepExactIff` gives the exact condition for every operation.
- `registerNextJob` refills a queue from the table only if the queue was empty to begin with
  (`StaleQueueIsNotRefilled`).
- `CleanJob` prepares failed and stopped as default statuses and then loops over the request's own list, so an empty
  request removes nothing (`EmptyCleanKeepsAll`); `CleanDefaultIff` says exactly when that differs from the default.
- A field whose ranges all run backwards is accepted and ends up empty (`EmptyField`). Asking such a line for its next
  instant indexes an empty list exactly if the walk finds a later value in some field (`NextOfLine`, `EmptyNext`).
- A special entry is refused in a plain field only before the first `*` (`GenericFieldHandler`).
- `time.NewTicker` panics when a schedule is over: a tick handled after its schedule's last instant ends the whole serve
  loop (`DiesIffOver`). Years are listed up to 2099, so every ticker is re-armed only finitely often
  (`FinitelyManyTicks`), and any cron tick handled later ends the loop (`DiesAfter2099`).
- A QUEUEING job can end up outside its queue, with every operation over and no ticker running. `LostExactlySince` shows
  that these are the only accesses that do it, besides a restart:
  an add while its task is loading saves the job and does not push it (`AddedInWindowStrands`);
  a bulk retry or a release pushes rows before it makes them QUEUEING, and a registration in between drops them as stale
  (`OvertakenRetryStrands`); so does an execution that requeues its job (`OvertakenExecutionLoses`);
  two registrations peek at the same stale head and both pop (`TwoRegistrationsStrand`);
  `StopAllJob` lowers its flags before it clears the queue (`AddedBeforeClearStrands`).
- A job whose cron expression has run out is not armed and stays at the head of its queue, blocking the jobs behind it
  (`ExhaustedHeadBlocks`).
- Stopping all jobs of a task on hold ends the hold without queueing the held jobs (`StopAllLeavesHeld`).
- A job cut off by a restart is queued again without its retry being counted (`RestartForgetsTheRetry`).
- The refusal of a second cron job looks for pending ones only: on hold a second is saved, and the release makes both pending
  (`ReleaseMakesTwo`).

## Model

| member | source | states |
|---|---|---|
| `SortedLists.SearchSplits` | candiutils/cronparser/next.go:24-29 | on an increasing list the search finds the least listed value that is at least the sought one |
| `SortedLists.ToList` | candiutils/cronparser/parser.go:343-352 | the list holds exactly the set's values, strictly increasing |
| `Calendar.DayNumberCounts` | candiutils/cronparser/next.go:167-168 | day numbers count days one by one across month ends and leap years |
| `Calendar.DayNumberOrders` | candiutils/cronparser/next.go:167-168 | calendar order is day-number order, for all dates |
| `Calendar.MonthEnd` | candiutils/cronparser/next.go:167-168 | a month forward and k days back is the day k - 1 before the end of the month |
| `Calendar.WithinMonth` | candiutils/cronparser/next.go:203-211 | day d of a month is d - 1 days after the first, and its weekday follows |
| `Calendar.MonthsStart` | candiutils/cronparser/next.go:167-168 | in any year the months start at the days of the Gregorian table, a leap day later after February of a leap year; 1 January 1970 is day 719162 |
| `Calendar.EpochWeekday` | candiutils/cronparser/next.go:211 | 1 January 1970 is a Thursday |
| `Calendar.WeekdayNext` | candiutils/cronparser/next.go:211 | the weekday goes round by one from each date to the next |
| `Calendar.WeekdayDetermined` | candiutils/cronparser/next.go:211 | any naming of days with these two properties is the weekday, on every date |
| `CronDays.WorkdayIsNearest` | candiutils/cronparser/next.go:248-267 | the shifted day is the one Monday-to-Friday day of the month nearest to the target, and only it |
| `CronDays.WorkdayOfLast` | candiutils/cronparser/next.go:187-190 | applied to the last day it is the month's last Monday-to-Friday day |
| `CronDays.RowOfWeekday` | candiutils/cronparser/next.go:215-224 | the table row picked by the offset lists exactly the month's days on that weekday |
| `CronDays.SpecificWeek` | candiutils/cronparser/next.go:225-233 | the computed day is the n-th occurrence of the weekday, counted from the first of the month |
| `CronDays.LastWeek` | candiutils/cronparser/next.go:234-242 | the computed day is the last occurrence of the weekday in the month |
| `CronDays.NthByWeeks` | candiutils/cronparser/next.go:225-233 | the n-th such weekday is the one in the n-th seven days of the month |
| `CronDays.LastByWeeks` | candiutils/cronparser/next.go:234-242 | the last such weekday is the one in the last seven days |
| `CronDays.MonthDays` | candiutils/cronparser/next.go:181-206 | the day-of-month half yields exactly the days its rule admits |
| `CronDays.PlainWeekDays` | candiutils/cronparser/next.go:215-224 | the loop collects exactly the days on a listed weekday |
| `CronDays.SpecificWeekDays` | candiutils/cronparser/next.go:228-233 | the loop collects exactly the listed n-th weekdays that exist |
| `CronDays.LastWeekDays` | candiutils/cronparser/next.go:234-242 | the loop collects exactly the last listed weekdays |
| `CronDays.WeekDays` | candiutils/cronparser/next.go:208-243 | the day-of-week half yields exactly the days its rule admits |
| `CronDays.CalculateActualDaysOfMonth` | candiutils/cronparser/next.go:165-246 | strictly increasing, exactly the days of the crontab rule: all if neither field is restricted, otherwise the union of the restricted ones |
| `CronSpec.SecondsOrder` | candiutils/cronparser/expression.go:131-139 | field-by-field order of instants is clock order |
| `CronSpec.ClockCounts` | candiutils/cronparser/expression.go:220-222 | the clock counts a thousand million nanoseconds from each second to the next, across midnight and month ends, from the zero time |
| `CronSpec.WorkdaysAreMondayToFriday` | candiutils/cronparser/next.go:248-267 | workdays are the dates with weekday 1 to 5 |
| `CronSpec.EarliestIsNext` | candiutils/cronparser/expression.go:131-139 | the earliest instant in field order is the first one strictly later on the clock |
| `CronNext.Expression.NextYear` | candiutils/cronparser/next.go:23-52 | the earliest instant in a later year, or none; terminates by listed years left |
| `CronNext.Expression.NextMonth` | candiutils/cronparser/next.go:54-84 | the earliest instant in a later month from any time in a listed year, or none; terminates by listed years, then months left |
| `CronNext.Expression.NextDayOfMonth` | candiutils/cronparser/next.go:86-103 | the earliest instant on a later day, given that the cache holds this month's days, which every caller is shown to provide |
| `CronNext.Expression.NextHour` | candiutils/cronparser/next.go:105-122 | the earliest instant in a later hour from a matching day |
| `CronNext.Expression.NextMinute` | candiutils/cronparser/next.go:124-141 | the earliest instant in a later minute from a matching hour |
| `CronNext.Expression.NextSecond` | candiutils/cronparser/next.go:143-163 | the earliest later instant from a matching minute |
| `CronNext.Expression.Next` | candiutils/cronparser/expression.go:139-143 | the least instant of the schedule strictly after the given one, zero exactly if there is none, whatever the cache held; zero for the zero time |
| `CronNext.Expression.NextFrom` | candiutils/cronparser/expression.go:155-163 | the dispatch on a year that does or does not match returns the earliest later instant |
| `CronNext.Expression.NextWithinYear` | candiutils/cronparser/expression.go:164-177 | the dispatch on the month refreshes the cache and returns the earliest later instant |
| `CronNext.Expression.NextWithinMonth` | candiutils/cronparser/expression.go:179-187 | the dispatch on the day, over a fresh cache, returns the earliest later instant |
| `CronNext.Expression.NextWithinDay` | candiutils/cronparser/expression.go:188-216 | the dispatch on hour, minute and second returns the earliest later instant |
| `CronNext.Expression.NextInterval` | candiutils/cronparser/expression.go:220-222 | positive exactly if a later instant exists, and then exactly the time to it, with no 64-bit saturation from 1970 on |
| `CronParser.ParseEntry` | candiutils/cronparser/parser.go:370-437 | an entry is refused exactly for a bad interval; otherwise it becomes the directive kind of its layout |
| `CronParser.EntryMeans` | candiutils/cronparser/parser.go:370-437 | a stepped entry stands for the values between its ends that are a multiple of the step past its start, a wildcard for the whole range |
| `CronParser.SpecialDays` | candiutils/cronparser/parser.go:246-331 | `L`, `LW`, `15W`, `5L` and `5#3` by weekdays and weeks of the month, with the shift of a weekend day that stays in its month |
| `CronParser.FieldAcceptedIff` | candiutils/cronparser/parser.go:225-244 | a plain field is accepted exactly with entries, steps from 1 to its largest value, and no special entry before the first wildcard |
| `CronParser.ParsedCovers` | candiutils/cronparser/parser.go:370-437 | a directive covers exactly the values its entry means |
| `CronParser.GenericFieldParse` | candiutils/cronparser/parser.go:354-440 | succeeds exactly for a field with entries and good intervals, one directive per entry |
| `CronParser.PopulateMany` | candiutils/cronparser/parser.go:337-341 | adds exactly every step-th value of the range and terminates |
| `CronParser.GenericFieldHandler` | candiutils/cronparser/parser.go:225-244 | succeeds exactly if no special entry precedes the first wildcard; the list is increasing and exactly the union of the entries, early return included |
| `CronParser.DomFieldHandler` | candiutils/cronparser/parser.go:287-331 | collects exactly the days, workdays and last-day marks of the entries; restricted exactly without a wildcard |
| `CronParser.DowFieldHandler` | candiutils/cronparser/parser.go:246-285 | collects exactly the weekdays, n-th and last weekdays of the entries; restricted exactly without a wildcard |
| `CronParser.EmptyField` | candiutils/cronparser/parser.go:337-341 | a field has a value exactly if some entry is not a backward range |
| `CronParser.LayoutByPosition` | candiutils/cronparser/expression.go:62-129 | which field is which for five, six and seven or more fields |
| `CronParser.Parse` | candiutils/cronparser/expression.go:53-129 | accepts exactly the acceptable lines; the fields fire exactly at the instants the line asks for by the position of its fields; says when the lists are populated |
| `CronEmpty.EmptyNext` | candiutils/cronparser/expression.go:139-216 | with an empty list among seconds, minutes, hours and months: panics if a later year is listed, or the year is listed and a later month is, and so on down to the minutes, and answers the zero time otherwise |
| `CronEmpty.EmptyNextMonth` | candiutils/cronparser/next.go:54-84 | the month step then panics if a later month or year is listed, and answers the zero time otherwise |
| `CronEmpty.EmptyNextWithinMonth` | candiutils/cronparser/expression.go:179-216 | the same from a matching month on, over its days |
| `CronParser.OnwardAgrees` | candiutils/cronparser/expression.go:139-216 | that condition read off the entries of the line |
| `CronParser.NextOfLine` | candiutils/cronparser/expression.go:35-217 | end to end, on every line and from every time: refused exactly if not acceptable, panics exactly under the condition above, otherwise the first instant the line asks for, by the position of its fields, after the given time, or the zero time if there is none |
| `CronFiring.NextIsConstant` | candiutils/cronparser/expression.go:131-139 | between an instant and its next one the answer does not change |
| `CronFiring.NextIsUnique` | candiutils/cronparser/expression.go:131-139 | there is one next instant |
| `CronFiring.NoSuchDay` | candiutils/cronparser/next.go:30-42 | days past the end of every listed month, such as 30 February, never fire: the answer is the zero time |
| `CronFiring.ArmedIncreases` | codebase/app/cron_worker/cron_worker.go:230-244 | over any run of late or prompt ticks the armed instants strictly increase, so none fires twice |
| `CronFiring.SkipsIffLate` | codebase/app/cron_worker/cron_worker.go:230-244 | re-arming skips an instant exactly when the tick was handled after it |
| `CronFiring.NoneSkipped` | codebase/app/cron_worker/cron_worker.go:230-244 | with all ticks on time every instant of the schedule in the span is armed |
| `CronFiring.LastTick` | codebase/app/cron_worker/cron_worker.go:230-244 | after the last instant of a schedule no next one is found, however promptly its tick is handled |
| `CronFiring.FinitelyManyTicks` | codebase/app/cron_worker/cron_worker.go:230-244 | over any run of ticks a ticker is re-armed fewer times than there are seconds left to 2100 |
| `CronFiring.EveryScheduleEnds` | candiutils/cronparser/next.go:30-42 | from 2100 on every schedule answers the zero time |
| `CronFiring.ScheduledJob.Rearm` | codebase/app/cron_worker/cron_worker.go:231-235 | panics exactly if the schedule is over, otherwise the ticker stands at the next instant |
| `DailyTime.ParseDurationExpression` | candihelper/time_parser.go:62-103 | refused exactly for a bad clock time or descriptor; the first delay is in (0, 24h] and ends on the time of day; the repeat is 1, 7, 30 or 360 days or the stated duration |
| `DailyTime.FiresEveryRepeat` | codebase/app/cron_worker/cron_worker.go:236-268 | handled on time, run n comes n repeats after the first; a repeat that is not positive leaves the first delay as period |
| `DailyTime.DailyKeepsTime` | candihelper/time_parser.go:66-74 | daily repeats stay on the time of day |
| `Locker.MutualExclusion` | candiutils/locker.go:70-81 | in every run of any number of workers at most one is inside, and the counter is positive exactly while one is |
| `Locker.LetInIffFree` | candiutils/locker.go:70-81 | in every run a worker that asks is let in exactly if nobody is inside |
| `Locker.UnlockIsSafeIff` | candiutils/locker.go:118-124 | deleting the key keeps exclusion exactly if its caller is inside or nobody is |
| `CronWorker.NewWorkerSound` | codebase/app/cron_worker/cron_worker.go:52-82 | every handler gets the select index two past its position and an empty semaphore |
| `CronWorker.RunIsSound` | codebase/app/cron_worker/cron_worker.go:96-134 | in every interleaving indices line up, goroutines per job stay within the bound, a pending send never blocks, no index is out of range, and all goroutines but those still launching have entered their handler |
| `CronWorker.TickLaunchesIff` | codebase/app/cron_worker/cron_worker.go:111-134 | in every interleaving a tick of a schedule that goes on is taken up exactly if its own job has room, and then launches one goroutine of that job and of no other |
| `CronWorker.GoroutinesMove` | codebase/app/cron_worker/cron_worker.go:120-134 | each step moves exactly one goroutine of one job: launch, entry, end of the handler, freed slot |
| `CronWorker.ShutdownTaken` | codebase/app/cron_worker/cron_worker.go:102-109 | the loop returns exactly at the shutdown message, a refresh changes nothing, and the wait ends with no goroutine counted |
| `CronWorker.DiesIffOver` | codebase/app/cron_worker/cron_worker.go:115-117 | in every interleaving the loop is dead exactly if some tick was handled after the last instant of its own job's schedule, and nothing runs after it |
| `CronWorker.DiesAfter2099` | codebase/app/cron_worker/cron_worker.go:230-235 | any tick of a cron job handled after 2099 ends the loop |
| `CronWorker.ShutdownIsFinal` | codebase/app/cron_worker/cron_worker.go:102-163 | once shutdown is received no goroutine is launched, the handlers entered later are exactly those launched before, and after the wait none is launching or running |
| `RingQueue.MaskIsRemainder` | candishared/queue.go:5-7 | bitwise and with n - 1 is the remainder by n, for every power of two |
| `RingQueue.PushHolds` | candishared/queue.go:33-35 | writing at the tail appends to the held sequence and moves the tail by one slot |
| `RingQueue.PopHolds` | candishared/queue.go:44-48 | the head slot holds the first element; zeroing and stepping past it leaves the rest |
| `RingQueue.ResizeHolds` | candishared/queue.go:67-80 | the one or two copied runs are the held sequence, in order |
| `RingQueue.Queue.constructor` | candishared/queue.go:15-20 | a valid empty queue that has copied nothing |
| `RingQueue.Queue.Push` | candishared/queue.go:28-36 | appends; keeps the capacity a power of two of at least 16, below four times the count if above 16; copies at most two elements per operation so far |
| `RingQueue.Queue.Pop` | candishared/queue.go:40-54 | removes and returns the first element or answers empty with the zero value; same bounds; vacated slots are zero |
| `RingQueue.Queue.Peek` | candishared/queue.go:58-63 | the first element, or the zero value of an empty queue |
| `RingQueue.Queue.Resize` | candishared/queue.go:67-80 | twice the contents, unrolled to index 0, contents unchanged |
| `InMemQueue.InMemQueue.PushJob` | codebase/app/task_queue_worker/queue_inmem.go:22-31 | appends to the task's sequence, returns its length, leaves all other tasks alone |
| `InMemQueue.InMemQueue.PopJob` | codebase/app/task_queue_worker/queue_inmem.go:32-41 | removes the task's first id, or answers the empty id |
| `InMemQueue.InMemQueue.NextJob` | codebase/app/task_queue_worker/queue_inmem.go:42-51 | the task's first id without removing it |
| `InMemQueue.InMemQueue.Clear` | codebase/app/task_queue_worker/queue_inmem.go:52-57 | empties the task's sequence only |
| `JobModel.MovedCounts` | codebase/app/task_queue_worker/trigger_task.go:100-113 | moving rows between two statuses of a task changes exactly those two counts, by their number |
| `JobModel.OldestFirstInOrder` | codebase/app/task_queue_worker/job_operation.go:338-345 | the page order has no repetition and follows creation time |
| `JobModel.InOrderByTime` | codebase/app/task_queue_worker/job_operation.go:338-345 | page order is creation time, equal times by id |
| `JobModel.OrderIgnoresStatus` | codebase/app/task_queue_worker/task_queue_worker.go:159-164 | rewriting statuses does not change the page order |
| `CounterTheorems.StepExactIff` | codebase/app/task_queue_worker/summary.go:104-127 | for every operation, from exact counters: the five counters of every task stay equal to its stored jobs if and only if the call is safe |
| `CounterTheorems.RetryExactIff` | codebase/app/task_queue_worker/job_operation.go:249-265 | a retry keeps them exact if and only if the job is not QUEUEING already |
| `CounterTheorems.StopExactIff` | codebase/app/task_queue_worker/job_operation.go:291-308 | a stop keeps them exact if and only if the job is not STOPPED already |
| `CounterTheorems.FinishExactIff` | codebase/app/task_queue_worker/trigger_task.go:236-287 | the end of an execution keeps them exact if and only if it was cancelled, or its row is still RETRYING, or its row is gone and none is deleted |
| `CounterDrift.RetryOfQueueingDrifts` | codebase/app/task_queue_worker/job_operation.go:262-265 | one queueing job, retried, is counted twice |
| `CounterDrift.StopOfStoppedDrifts` | codebase/app/task_queue_worker/job_operation.go:305-308 | one stopped job, stopped again, is no longer counted |
| `CounterDrift.RetryWhileRunningDrifts` | codebase/app/task_queue_worker/job_operation.go:249-265 | from any state, retrying a job while its handler runs keeps the counters exact, and the handler's answer then breaks them |
| `Outcomes.AddLeaves` | codebase/app/task_queue_worker/job_operation.go:62-147 | a job is saved exactly if its task is registered and, for a duration, retries and interval are in order, or, for cron, no unbounded job of the task is pending; its row, queue and ticker; otherwise nothing changes |
| `Outcomes.StartLeaves` | codebase/app/task_queue_worker/trigger_task.go:76-113 | a runnable head leaves the queue, its row is RETRYING with its retries as they were, the worker's copy counts one more, the ticker stops |
| `Outcomes.SkipLeaves` | codebase/app/task_queue_worker/trigger_task.go:25-119 | the ticks that run no handler: hold, empty queue, stale head, no handlers |
| `Outcomes.FinishLeaves` | codebase/app/task_queue_worker/trigger_task.go:181-287 | the row after a handler's end, by outcome, bound and kind of job: unchanged, QUEUEING, SUCCESS, removed or FAILURE |
| `Outcomes.FinishPushes` | codebase/app/task_queue_worker/trigger_task.go:203-233 | the job is pushed exactly if it is to run again, then the next is registered |
| `Outcomes.RetryLeaves` | codebase/app/task_queue_worker/job_operation.go:231-278 | QUEUEING, retries set back exactly if none are left, queued last and armed if the task is registered |
| `Outcomes.StopLeaves` | codebase/app/task_queue_worker/job_operation.go:281-313 | STOPPED; exactly if the job was RETRYING its task's handler is cancelled and its ticker stopped, and no other handler is touched |
| `Outcomes.DeleteLeaves` | codebase/app/task_queue_worker/graphql_resolver.go:136-146 | one row and one counter |
| `Outcomes.StopAllLeaves` | codebase/app/task_queue_worker/graphql_resolver.go:179-222 | exactly the pending rows of the task are STOPPED, its queue emptied, ticker stopped, handler cancelled, hold and loading over |
| `Outcomes.RetryAllLeaves` | codebase/app/task_queue_worker/graphql_resolver.go:231-272 | exactly the selected rows, failed and stopped ones without a request, are QUEUEING with no retries counted and queued last, oldest first |
| `Outcomes.CleanLeaves` | codebase/app/task_queue_worker/graphql_resolver.go:288-303 | exactly the rows of the named statuses that the filter leaves are removed |
| `Outcomes.HoldLeaves` | codebase/app/task_queue_worker/graphql_resolver.go:621-667 | a hold raises the flag; a release queues every job on HOLD, oldest first, with no retries counted |
| `Outcomes.RecalculateLeaves` | codebase/app/task_queue_worker/job_operation.go:350-373 | five counts of stored jobs for every registered task, and nothing else |
| `Outcomes.RecoverLeaves` | codebase/app/task_queue_worker/task_queue_worker.go:92-170 | exactly the pending rows nobody has locked are QUEUEING, with their retries, and are the queue, oldest first |
| `CounterTheorems.StartExact` | codebase/app/task_queue_worker/trigger_task.go:100-113 | starting a job keeps them exact |
| `CounterTheorems.AddExact` | codebase/app/task_queue_worker/job_operation.go:116-147 | adding a job keeps them exact, on hold or not |
| `BulkRows.MoveAllExactly` | codebase/app/task_queue_worker/graphql_resolver.go:194-210 | a bulk move rewrites exactly the rows of the task with a listed status that the filter leaves, however statuses repeat or include the target |
| `BulkRows.CleanAllExactly` | codebase/app/task_queue_worker/graphql_resolver.go:288-297 | a clean removes exactly those rows and changes no other |
| `BulkRows.EmptyCleanKeepsAll` | codebase/app/task_queue_worker/graphql_resolver.go:285-297 | a clean that names no statuses removes and counts nothing |
| `BulkRows.CleanDefaultIff` | codebase/app/task_queue_worker/graphql_resolver.go:285-297 | the loop agrees with the prepared failed and stopped default if and only if the request names statuses or no such row answers it |
| `CounterTheorems.MoveAllCounts` | codebase/app/task_queue_worker/graphql_resolver.go:194-210 | the summed increments are the change in the counts, however the statuses repeat or overlap |
| `CounterTheorems.StopAllExact` | codebase/app/task_queue_worker/graphql_resolver.go:179-222 | stopping a whole task keeps them exact |
| `CounterTheorems.MoveExact` | codebase/app/task_queue_worker/graphql_resolver.go:251-272 | the updates of a bulk retry or release keep them exact, for any list of statuses and whatever came between push and update |
| `CounterTheorems.CleanExact` | codebase/app/task_queue_worker/graphql_resolver.go:278-306 | cleaning keeps them exact, for any list of statuses |
| `CounterTheorems.DeleteExact` | codebase/app/task_queue_worker/graphql_resolver.go:136-146 | deleting a job keeps them exact |
| `CounterTheorems.RecalculateRestores` | codebase/app/task_queue_worker/job_operation.go:350-373 | makes every registered task's counters exact whatever they were |
| `CounterTheorems.RecoverRestores` | codebase/app/task_queue_worker/task_queue_worker.go:97-138 | recovery makes the task's counters exact whatever they were |
| `RunTheorems.RunExact` | codebase/app/task_queue_worker/summary.go:104-127 | in every run of safe steps the counters are exact after each step |
| `RunTheorems.DisciplinedRun` | codebase/app/task_queue_worker/trigger_task.go:181-287 | callers that do not retry a queueing or running job, stop a stopped one or remove a running one, with cancelled handlers ending through their context, have exact counters throughout |
| `RunTheorems.RunWellFormed` | codebase/app/task_queue_worker/trigger_task.go:78-92 | in every run queues and executions only name jobs of their own task |
| `RunTheorems.RunRetryBound` | codebase/app/task_queue_worker/trigger_task.go:203-233 | in every run, whatever is called, a stored non-cron job that is QUEUEING or RETRYING has retries left |
| `RetryTheorems.StartsAtMost` | codebase/app/task_queue_worker/trigger_task.go:89-115 | without manual retry or released hold, restarts and cancellation included: the starts of a job's handler and those left stay within those left at first plus the restarts that cut the job off |
| `RetryTheorems.FreshJobStarts` | codebase/app/task_queue_worker/job_operation.go:94-125 | a job just added has `MaxRetry` starts left |
| `RetryTheorems.RestartForgetsTheRetry` | codebase/app/task_queue_worker/task_queue_worker.go:121-134 | a restart requeues an interrupted job with its old retry count |
| `CronJobs.RunOneCron` | codebase/app/task_queue_worker/job_operation.go:103-109 | in every disciplined run without retries by hand, in bulk or by a release, with cron jobs added unbounded, a task has at most one pending cron job |
| `CronJobs.ReleaseMakesTwo` | codebase/app/task_queue_worker/job_operation.go:103-125 | on hold two cron jobs are saved, and the release makes both pending |
| `Arming.DropsStalePrefix` | codebase/app/task_queue_worker/trigger_task.go:303-311 | a queue with ids loses exactly its longest prefix that is not QUEUEING, and the new head is armed |
| `Arming.StreamsWhenEmpty` | codebase/app/task_queue_worker/trigger_task.go:313-322 | an empty queue with streaming becomes the task's QUEUEING jobs and the oldest is armed |
| `Arming.StreamedRows` | codebase/app/task_queue_worker/trigger_task.go:314-320 | those rows are all the task's QUEUEING jobs, oldest first, each once |
| `Arming.TouchesOneQueue` | codebase/app/task_queue_worker/trigger_task.go:303-323 | no other task's queue changes, and without streaming an empty queue changes nothing |
| `Arming.StaleQueueIsNotRefilled` | codebase/app/task_queue_worker/trigger_task.go:305-311 | a queue of stale ids only ends empty with no job armed, even with streaming |
| `LostJobs.AccessLost` | codebase/app/task_queue_worker/trigger_task.go:200-287 | one access leaves a QUEUEING job outside its queue and in nobody's hand only if it is one of the losing ones, or the job was so before |
| `LostJobs.LosingAccess` | codebase/app/task_queue_worker/trigger_task.go:303-311 | and what a losing access loses is outside its queue |
| `LostJobs.StepLost` | codebase/app/task_queue_worker/job_operation.go:116-147 | the same for every step of every operation, a restart included |
| `LostJobs.LostExactlySince` | codebase/app/task_queue_worker/graphql_resolver.go:239-267 | in every interleaving a QUEUEING job outside its queue is about to be pushed or run by an operation, or a losing access lost it and nothing has pushed it since; and what they lose stays outside until then |
| `LostJobs.RunNoneLost` | codebase/app/task_queue_worker/trigger_task.go:203-233 | without losing accesses every QUEUEING job of a registered task is in its queue or about to be pushed or run |
| `QueueTheorems.StreamFinds` | codebase/app/task_queue_worker/trigger_task.go:313-322 | a stream from the empty queue finds every QUEUEING job of the task |
| `LostRuns.AddedInWindowStrands` | codebase/app/task_queue_worker/job_operation.go:118-144 | from any state an add inside the window of a clean leaves the job QUEUEING outside its queue, both operations over and nothing else changed but the flag |
| `LostRuns.OvertakenRetryStrands` | codebase/app/task_queue_worker/graphql_resolver.go:239-272 | whenever an operation is about to register a task with nothing queued, a bulk retry can push a row and be overtaken: the row ends QUEUEING outside an empty queue, both operations over |
| `LostRuns.OvertakenExecutionLoses` | codebase/app/task_queue_worker/trigger_task.go:203-276 | a registration between an execution's push and its update leaves the requeued job outside its queue |
| `LostRuns.TwoRegistrationsStrand` | codebase/app/task_queue_worker/trigger_task.go:303-311 | two registrations that peek at the same stale head pop it and the QUEUEING job behind it |
| `LostRuns.AddedBeforeClearStrands` | codebase/app/task_queue_worker/graphql_resolver.go:212-218 | from any state in which a stop-all has lowered its flags, a job added before the clear is pushed unarmed and ends outside its queue |
| `QueueTheorems.StopAllLeavesHeld` | codebase/app/task_queue_worker/graphql_resolver.go:189-221 | stopping a held task ends the hold and leaves held rows on HOLD with nothing queued, until the task is held and released again |
| `QueueTheorems.RegisterAddsNothing` | codebase/app/task_queue_worker/trigger_task.go:303-311 | without streaming nothing enters a queue |
| `QueueTheorems.RegisterKeepsEntry` | codebase/app/task_queue_worker/trigger_task.go:303-323 | no queueing job is dropped from any queue |
| `WakeUps.SafeProgram` | codebase/app/task_queue_worker/trigger_task.go:43-57 | every operation that stops a ticker, ends a hold, pops or pushes goes on to look at the queue, and frees the semaphore it takes, once |
| `WakeUps.AccessTends` | codebase/app/task_queue_worker/job_operation.go:145-147 | one access: a task with something queued keeps its ticker, a run-out head, or an operation that will see to it |
| `WakeUps.RunInv` | codebase/app/task_queue_worker/trigger_task.go:43-73 | no wake-up is lost: in every interleaving a registered task with something queued is on hold, has its ticker running or a run-out job at the head, or an operation under way will look at its queue |
| `WakeUps.OneHandler` | codebase/app/task_queue_worker/trigger_task.go:38-57 | in every interleaving at most one operation is between taking and freeing a task's semaphore |
| `QueueTheorems.RegisterTicks` | codebase/app/task_queue_worker/task_queue_worker.go:239-258 | registering leaves the task with an empty queue, a running ticker or a run-out head, and other tasks as they were |
| `QueueTheorems.ExhaustedHeadBlocks` | codebase/app/task_queue_worker/task_queue_worker.go:239-247 | a run-out job at the head of an idle task blocks it: the next job is queued behind it unarmed, and registering changes nothing, with or without streaming |
| `WakeUps.NoJobStranded` | codebase/app/task_queue_worker/job_operation.go:142-147 | in every interleaving a QUEUEING job is in an operation's hand, or was lost by a losing access and not pushed since, or is in its queue, and its task is on hold, has its ticker running, is blocked by a run-out head or is seen to by an operation |
| `WakeUps.NoJobStrandedAtRest` | codebase/app/task_queue_worker/job_operation.go:142-147 | once all operations are over it was so lost, or is in its queue behind a hold, a running ticker or a run-out head |
| `WakeUps.NewWorker` | codebase/app/task_queue_worker/globals.go:67-84 | a new worker satisfies what these theorems ask of a first state |
| `Alone.RegistersAlone` | codebase/app/task_queue_worker/trigger_task.go:303-323 | the accesses of a registration nothing interrupts end in the state its atomic step gives, streaming included |
| `Alone.AddsAlone` | codebase/app/task_queue_worker/job_operation.go:118-147 | the same for an add that is not refused |
| `Alone.RetriesAllAlone` | codebase/app/task_queue_worker/graphql_resolver.go:224-276 | the same for a bulk retry |
| `Alone.HoldsAlone` | codebase/app/task_queue_worker/graphql_resolver.go:628-667 | the same for a hold and its release |
| `Alone.StopsAlone` | codebase/app/task_queue_worker/job_operation.go:281-313 | the same for a stop |
| `Alone.RetriesAlone` | codebase/app/task_queue_worker/job_operation.go:231-278 | the same for a manual retry |
| `Alone.DeletesJobAlone` | codebase/app/task_queue_worker/graphql_resolver.go:136-146 | the same for a deletion |
| `Alone.StopsAllAlone` | codebase/app/task_queue_worker/graphql_resolver.go:179-222 | the same for stopping a task |
| `Alone.CleansAlone` | codebase/app/task_queue_worker/graphql_resolver.go:278-306 | the same for a clean |
| `Alone.RecoversAlone` | codebase/app/task_queue_worker/task_queue_worker.go:92-170 | the same for the recovery of a task |
| `Alone.StartsAlone` | codebase/app/task_queue_worker/trigger_task.go:19-125 | the same for the start of an execution, up to its handler |
| `Alone.SkipsAlone` | codebase/app/task_queue_worker/trigger_task.go:76-119 | the same for a start that runs no handler: an empty queue, a stale head, no handler |
| `Alone.GivesUpAlone` | codebase/app/task_queue_worker/trigger_task.go:25-36 | the same for a trigger of a task on hold |
| `Alone.FinishesAlone` | codebase/app/task_queue_worker/trigger_task.go:181-289 | the same for its end, for every outcome |
| `QueueTheorems.InitialState` | codebase/app/task_queue_worker/globals.go:67-84 | a new worker satisfies what the run theorems ask of a first state |
| `Recovery.NextPage` | codebase/app/task_queue_worker/job_operation.go:338-345 | each page continues where the one before ended |
| `Recovery.LastPage` | codebase/app/task_queue_worker/job_operation.go:338-345 | after the computed number of pages no row is left |
| `Recovery.QueryIsStable` | codebase/app/task_queue_worker/task_queue_worker.go:117-164 | after any number of rewritten rows the page query still sees the same rows in the same order |
| `Recovery.RecoveryQueuesAll` | codebase/app/task_queue_worker/task_queue_worker.go:114-164 | every pending job not locked by another runtime is queued exactly once, oldest first |
| `Recovery.RecoveryLeavesNoneRetrying` | codebase/app/task_queue_worker/task_queue_worker.go:121-138 | exactly those rows become QUEUEING, no other row changes |
| `JobEngine.Engine.IncrementSummary` | codebase/app/task_queue_worker/summary.go:104-127 | adds each entry to its status' counter, case folded, hold ignored, in any map order |
| `JobEngine.Engine.StreamIntoQueue` | codebase/app/task_queue_worker/job_operation.go:316-347 | page by page pushes all selected rows once, in order, for any page size |
| `JobEngine.Engine.RegisterNextJob` | codebase/app/task_queue_worker/trigger_task.go:303-323 | terminates by (withStream, queue length) and equals the step the arming lemmas describe |
| `JobInterval.PendingJob.ParseNextRunningInterval` | codebase/app/task_queue_worker/persistent_model.go:220-235 | positive exactly if the next running time is to come at both clock readings, or has passed and the interval repeats or its schedule has a later instant; and then exactly the time to that run |
| `JobInterval.PendingJob.RuleInterval` | codebase/app/task_queue_worker/persistent_model.go:225-232 | the duration, or the time to the schedule's next instant, or an error |
| `JobInterval.RunOutStays` | codebase/app/task_queue_worker/persistent_model.go:220-235 | a job with no run ahead never has one again |
| `JobInterval.RunOutGrows` | codebase/app/task_queue_worker/persistent_model.go:220-235 | so the set of run-out jobs of a table, as time passes and jobs come, only grows |
| `JobEngine.Engine.RegisterJobToWorker` | codebase/app/task_queue_worker/task_queue_worker.go:239-258 | arms the task's ticker for the job unless its interval is not positive |
| `JobEngine.Engine.Clear` | codebase/app/task_queue_worker/queue_inmem.go:52-57 | empties one task's queue and changes nothing else |
| `JobEngine.Engine.ChangeLoading` | codebase/app/task_queue_worker/subscribers.go:225-228 | raises or clears the loading flag of one task and changes nothing else |
| `JobEngine.Engine.AddJob` | codebase/app/task_queue_worker/job_operation.go:62-147 | equals the add step: refusals of retries, interval, task and second cron job, hold, loading, push and arming |
| `JobEngine.Engine.StartJob` | codebase/app/task_queue_worker/trigger_task.go:19-125 | equals the start step: ticker stopped, head popped, row and counters moved to RETRYING, execution recorded |
| `JobEngine.Engine.FinishJob` | codebase/app/task_queue_worker/trigger_task.go:181-289 | equals the finish step for every outcome, with and without deletion |
| `JobEngine.Engine.RetryJob` | codebase/app/task_queue_worker/job_operation.go:231-278 | equals the retry step |
| `JobEngine.Engine.StopJob` | codebase/app/task_queue_worker/job_operation.go:281-313 | equals the stop step, cancelling a running handler |
| `JobEngine.Engine.MoveStatuses` | codebase/app/task_queue_worker/graphql_resolver.go:194-210 | the loop over statuses equals the recursive bulk move |
| `JobEngine.Engine.StopAllJob` | codebase/app/task_queue_worker/graphql_resolver.go:179-222 | equals the stop-all step, ending the task's loading and its hold |
| `JobEngine.Engine.StreamRows` | codebase/app/task_queue_worker/graphql_resolver.go:231-248 | equals the stream step: the flag up, the selected rows pushed in the status they have |
| `JobEngine.Engine.MoveRows` | codebase/app/task_queue_worker/graphql_resolver.go:250-272 | equals the move step: rows QUEUEING and counted, the flag down, the next job registered, wherever the pushed ids are |
| `JobEngine.Engine.RetryAllJob` | codebase/app/task_queue_worker/graphql_resolver.go:224-276 | equals the stream step and the move step, for any page size |
| `JobEngine.Engine.CleanStatuses` | codebase/app/task_queue_worker/graphql_resolver.go:288-297 | the loop over the request's statuses equals the recursive clean |
| `JobEngine.Engine.CleanJob` | codebase/app/task_queue_worker/graphql_resolver.go:278-306 | equals the clean step, ending the task's loading |
| `JobEngine.Engine.DeleteJob` | codebase/app/task_queue_worker/graphql_resolver.go:136-146 | equals the delete step |
| `JobEngine.Engine.HoldJobTask` | codebase/app/task_queue_worker/graphql_resolver.go:621-667 | equals the hold step, and for a release the move step after it, with the refusal of an unknown task |
| `JobEngine.Engine.RecalculateSummary` | codebase/app/task_queue_worker/job_operation.go:350-373 | equals the recalculation step |
| `JobEngine.Engine.RequeueRow` | codebase/app/task_queue_worker/task_queue_worker.go:117-144 | one row more is requeued, counted and pushed, or skipped if locked |
| `JobEngine.Engine.RequeuePending` | codebase/app/task_queue_worker/task_queue_worker.go:114-164 | pages queried from the changing table still handle every pending row exactly once |
| `JobEngine.Engine.RequeueTask` | codebase/app/task_queue_worker/task_queue_worker.go:112-164 | the goroutine for a task with pending jobs: all of them requeued, the loading flag cleared, then the first armed |
| `JobEngine.Engine.Prepare` | codebase/app/task_queue_worker/task_queue_worker.go:92-170 | equals the recovery step: queue rebuilt, rows requeued, counters exact, loading raised and cleared, first job armed |

## Left out

- Regular expressions, splitting and number parsing of the cron text: the model starts from entries matched to their layout, with values inside the field's bounds (month and weekday tokens with a leading zero, which the token tables lack, are therefore not covered).
- CronNext.Expression.Next: asks for non-empty second, minute, hour and month lists, which the step functions index at 0; `Parse` states exactly which lines give them, and `CronEmpty.EmptyNext` answers for the others.
- CronFiring.ScheduledJob.Rearm: takes the clock to be in 1970 or later; before that the distance to the next instant may exceed a 64-bit duration.
- Time zones and daylight saving: behaviour of the time library inside `time.Date`.
- DailyTime.ParseDurationExpression: starts from the parsed numbers and descriptor; plain duration strings are returned as they are by the library.
- Locker.MutualExclusion: assumes no Redis error, expiry, reset or `Lock` timeout, and that only a worker let in unlocks; the task queue's own unlocking is not bound to that.
- JobEngine.Engine.RegisterJobToWorker: `exhausted` stands for the jobs whose computed interval is not positive, which `JobInterval` describes; the next running time itself is not part of the engine's rows, and the clock readings of one call are taken to agree.
- JobEngine.Engine.AddJob: the release of the task's lock at the end, start times and a failing save are not part of the engine.
- JobEngine.Engine.HoldJobTask: the flags are those of the persistent summaries, and every registered task has a summary.
- RunTheorems.RunExact: treats the steps of `JobSteps` as atomic and updates as successful; matched and affected rows are equal. The access-by-access model has no counters.
- Interleaving of a shutdown: a trigger that waits for a semaphore gives up after it; the model only stops tickers and clears queues.
- The hold counter and the automatic hold switch: not tracked by the in-memory summary, unfinished in the source.
- SQL, Mongo and Redis storage, retry histories, progress, tracing, subscribers, GraphQL, HTTP: I/O or display.
- The retention task of the task queue worker: one more clean by status and age.
