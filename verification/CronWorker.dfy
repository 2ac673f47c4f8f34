/** The cron worker's `Serve` loop, its per-job semaphores and its shutdown, as a step system:
    the loop, the handler goroutines and `Shutdown` interleave step by step. */
module CronWorker {
  import opened CronSpec
  import opened CronFiring

  /** What a job's ticker follows: a cron expression, or a duration. */
  datatype Schedule = Cron(f: Fields) | Periodic

  /** No instant of the schedule is left after now, so that its ticker cannot be started anew. */
  ghost predicate Over(schedule: Schedule, now: Time)
    requires now.Valid()
  {
    schedule.Cron? && IsNext(schedule.f, now, ZERO)
  }

  /** One active job: its schedule, its select index, the length of its semaphore channel, its goroutines that are launched and have
      not reached the handler, those in the handler, those past `wg.Done` that have yet to free their slot, and how
      many were ever launched and how many ever entered the handler. */
  datatype Job = Job(schedule: Schedule, workerIndex: nat, semaphore: nat, launched: nat, running: nat, leaving: nat, started: nat, entered: nat)

  /** Where the serve loop stands: in `reflect.Select`, between the capacity test and the send, returned,
      dead of an index out of range, or dead of a ticker without a positive duration. */
  datatype Loop = Selecting | Sending(slot: nat) | Returned | Panicked | NoTicker

  /** `waited` says that `Shutdown` has got past `wg.Wait` and has cancelled the worker's context. */
  datatype State = State(workers: nat, jobs: seq<Job>, maxGoroutines: nat, waitGroup: int, loop: Loop, waited: bool)

  /** `NewWorker` before any handler: the shutdown and refresh channels take select indices 0 and 1. */
  function Empty(max: nat): State {
    State(2, [], max, 0, Selecting, false)
  }

  /** `addJob` with the semaphore appended after it. */
  function AddJob(s: State, schedule: Schedule): State {
    s.(jobs := s.jobs + [Job(schedule, s.workers, 0, 0, 0, 0, 0, 0)], workers := s.workers + 1)
  }

  function NewWorker(max: nat, handlers: seq<Schedule>): State {
    if handlers == [] then Empty(max) else AddJob(NewWorker(max, handlers[..|handlers| - 1]), handlers[|handlers| - 1])
  }

  datatype Step =
    | Chosen(index: nat, now: Time)       // reflect.Select returned, and the clock is read
    | Send                                // the loop fills a semaphore slot and launches the goroutine
    | Enter(job: nat)                     // a launched goroutine looks at the context and enters the handler
    | Done(job: nat)                      // a goroutine's handler is over and wg.Done is called
    | Leave(job: nat)                     // it then frees its semaphore slot
    | WaitReturns                         // Shutdown gets past wg.Wait

  /** A panic of the loop ends the process. */
  predicate Alive(s: State) {
    !s.loop.Panicked? && !s.loop.NoTicker?
  }

  /** A channel send waits for room, a receive for an element, `wg.Wait` for zero. */
  predicate Enabled(s: State, step: Step) {
    Alive(s) &&
    match step
    case Chosen(c, now) => s.loop.Selecting? && c < s.workers && now.Valid()
    case Send => s.loop.Sending? && s.loop.slot < |s.jobs| && s.jobs[s.loop.slot].semaphore < s.maxGoroutines
    case Enter(i) => i < |s.jobs| && s.jobs[i].launched > 0
    case Done(i) => i < |s.jobs| && s.jobs[i].running > 0
    case Leave(i) => i < |s.jobs| && s.jobs[i].leaving > 0 && s.jobs[i].semaphore > 0
    case WaitReturns => s.loop.Returned? && s.waitGroup == 0
  }

  /** What the invariant says of each job. */
  predicate Sound(s: State, i: nat)
    requires i < |s.jobs|
  {
    var j := s.jobs[i];
    && j.workerIndex == i + 2 && j.semaphore == j.launched + j.running + j.leaving && j.semaphore <= s.maxGoroutines
    && j.entered + j.launched == j.started
  }

  /** The goroutines the wait group counts. */
  function Busy(j: Job): nat {
    j.launched + j.running
  }

  function Running(jobs: seq<Job>): nat {
    if jobs == [] then 0 else Running(jobs[..|jobs| - 1]) + Busy(jobs[|jobs| - 1])
  }

  ghost predicate Inv(s: State) {
    && s.workers == |s.jobs| + 2
    && (forall i :: 0 <= i < |s.jobs| ==> Sound(s, i))
    && s.waitGroup == Running(s.jobs)
    && !s.loop.Panicked? && (s.loop.Sending? ==> Enabled(s, Send))
    && (s.waited ==> s.loop.Returned? && s.waitGroup == 0)
  }

  ghost function Apply(s: State, step: Step): State
    requires Enabled(s, step)
  {
    match step
    case Chosen(c, now) =>
      if c == 0 then s.(loop := Returned)
      else if c == 1 then s
      else if c - 2 >= |s.jobs| then s.(loop := Panicked)
      else if Over(s.jobs[c - 2].schedule, now) then s.(loop := NoTicker)
      else if s.jobs[c - 2].workerIndex < 2 || s.jobs[c - 2].workerIndex - 2 >= |s.jobs| then s.(loop := Panicked)
      else
        var slot := s.jobs[c - 2].workerIndex - 2;
        if s.jobs[slot].semaphore >= s.maxGoroutines then s else s.(loop := Sending(slot))
    case Send =>
      var j := s.jobs[s.loop.slot];
      var sent := j.(semaphore := j.semaphore + 1, launched := j.launched + 1, started := j.started + 1);
      s.(jobs := s.jobs[s.loop.slot := sent], waitGroup := s.waitGroup + 1, loop := Selecting)
    case Enter(i) =>
      var j := s.jobs[i];
      s.(jobs := s.jobs[i := j.(launched := j.launched - 1, running := j.running + 1,
                                entered := if s.waited then j.entered else j.entered + 1)])
    case Done(i) =>
      var j := s.jobs[i];
      s.(jobs := s.jobs[i := j.(running := j.running - 1, leaving := j.leaving + 1)], waitGroup := s.waitGroup - 1)
    case Leave(i) =>
      var j := s.jobs[i];
      s.(jobs := s.jobs[i := j.(semaphore := j.semaphore - 1, leaving := j.leaving - 1)])
    case WaitReturns => s.(waited := true)
  }

  lemma {:induction false} RunningUpdate(jobs: seq<Job>, i: nat, j: Job)
    requires i < |jobs|
    ensures Running(jobs[i := j]) == Running(jobs) - Busy(jobs[i]) + Busy(j)
  {
    var n := |jobs| - 1;
    if i < n {
      RunningUpdate(jobs[..n], i, j);
      assert jobs[i := j][..n] == jobs[..n][i := j];
    } else {
      assert jobs[i := j][..n] == jobs[..n];
    }
  }

  lemma {:induction false} RunningAtLeast(jobs: seq<Job>, i: nat)
    requires i < |jobs|
    ensures Busy(jobs[i]) <= Running(jobs)
  {
    var n := |jobs| - 1;
    if i < n { RunningAtLeast(jobs[..n], i); }
  }

  /** Every handler of a new worker gets the select index two past its position, with an empty semaphore. */
  lemma {:induction false} NewWorkerSound(max: nat, handlers: seq<Schedule>)
    ensures Inv(NewWorker(max, handlers)) && |NewWorker(max, handlers).jobs| == |handlers|
    ensures NewWorker(max, handlers).loop == Selecting && NewWorker(max, handlers).maxGoroutines == max
    ensures forall i :: 0 <= i < |handlers| ==> NewWorker(max, handlers).jobs[i].schedule == handlers[i]
  {
    if handlers != [] {
      hide Inv;
      var front := handlers[..|handlers| - 1];
      NewWorkerSound(max, front);
      AddJobSound(NewWorker(max, front), handlers[|handlers| - 1]);
    }
  }

  lemma AddJobSound(s: State, schedule: Schedule)
    requires Inv(s)
    ensures Inv(AddJob(s, schedule))
  {
    var t := AddJob(s, schedule);
    assert t.jobs[..|t.jobs| - 1] == s.jobs;
    forall i | 0 <= i < |t.jobs| ensures Sound(t, i) {
      if i < |s.jobs| { assert Sound(s, i); }
    }
  }

  lemma ApplyKeepsSound(s: State, step: Step, i: nat)
    requires Inv(s) && Enabled(s, step) && i < |s.jobs|
    ensures |Apply(s, step).jobs| == |s.jobs| && Sound(Apply(s, step), i)
  {
    assert Sound(s, i);
    if step.Enter? { RunningAtLeast(s.jobs, step.job); }
  }

  lemma ApplyKeepsWaitGroup(s: State, step: Step)
    requires Inv(s) && Enabled(s, step)
    ensures Apply(s, step).waitGroup == Running(Apply(s, step).jobs)
  {
    hide Sound, Running;
    var t := Apply(s, step);
    match step
    case Send => RunningUpdate(s.jobs, s.loop.slot, t.jobs[s.loop.slot]);
    case Enter(i) => RunningUpdate(s.jobs, i, t.jobs[i]);
    case Done(i) => RunningUpdate(s.jobs, i, t.jobs[i]);
    case Leave(i) => RunningUpdate(s.jobs, i, t.jobs[i]);
    case _ =>
  }

  lemma ApplyKeepsInv(s: State, step: Step)
    requires Inv(s) && Enabled(s, step)
    ensures Inv(Apply(s, step))
  {
    var t := Apply(s, step);
    if step.Chosen? && step.index >= 2 { assert Sound(s, step.index - 2); }
    if step.Done? { RunningAtLeast(s.jobs, step.job); }
    ApplyKeepsWaitGroup(s, step);
    forall i | 0 <= i < |t.jobs| ensures Sound(t, i) {
      ApplyKeepsSound(s, step, i);
    }
    hide Sound, Running;
  }

  ghost predicate Run(states: seq<State>, steps: seq<Step>) {
    && |states| == |steps| + 1 && (exists max, handlers :: states[0] == NewWorker(max, handlers))
    && forall i {:trigger steps[i]} :: 0 <= i < |steps| ==>
        Enabled(states[i], steps[i]) && states[i + 1] == Apply(states[i], steps[i])
  }

  /** In every interleaving: indices line up, goroutines per job stay within the bound, a pending send finds a free slot,
      and every goroutine but those still launching has entered its handler. */
  lemma {:induction false} RunIsSound(states: seq<State>, steps: seq<Step>, n: nat)
    requires Run(states, steps) && n < |states|
    ensures Inv(states[n])
    ensures forall i :: 0 <= i < |states[n].jobs| ==>
      var j := states[n].jobs[i];
      j.workerIndex == i + 2 && j.launched + j.running <= states[n].maxGoroutines && j.entered == j.started - j.launched
    ensures !states[n].loop.Panicked? && (states[n].loop.Sending? ==> Enabled(states[n], Send))
  {
    if n == 0 {
      var max, handlers :| states[0] == NewWorker(max, handlers);
      NewWorkerSound(max, handlers);
    } else {
      RunIsSound(states, steps, n - 1);
      var step := steps[n - 1];
      ApplyKeepsInv(states[n - 1], step);
      assert states[n - 1 + 1] == Apply(states[n - 1], step);
    }
    forall i | 0 <= i < |states[n].jobs|
      ensures
        var j := states[n].jobs[i];
        j.workerIndex == i + 2 && j.launched + j.running <= states[n].maxGoroutines && j.entered == j.started - j.launched
    {
      assert Sound(states[n], i);
    }
  }

  function One(b: bool): int {
    if b then 1 else 0
  }

  /** How a step moves a job's goroutines: a send launches one, an entry takes it into the handler, the end of the handler
      takes it out of the wait group, and leaving frees its slot. */
  lemma GoroutinesMove(states: seq<State>, steps: seq<Step>, k: nat, i: nat)
    requires Run(states, steps) && k < |steps| && i < |states[k].jobs|
    ensures
      var s, r, step := states[k], states[k + 1], steps[k];
      |r.jobs| == |s.jobs| &&
      var a, b := s.jobs[i], r.jobs[i];
      var send, enter := s.loop == Sending(i) && step.Send?, step == Enter(i);
      var done, leave := step == Done(i), step == Leave(i);
      && b.launched == a.launched + One(send) - One(enter) && b.started == a.started + One(send)
      && b.running == a.running + One(enter) - One(done) && b.entered == a.entered + One(enter)
      && b.leaving == a.leaving + One(done) - One(leave) && b.semaphore == a.semaphore + One(send) - One(leave)
      && b.workerIndex == a.workerIndex && b.schedule == a.schedule
  {
    hide NewWorker, Running;
    RunIsSound(states, steps, k);
    var s, step := states[k], steps[k];
    assert Enabled(s, step) && states[k + 1] == Apply(s, step);
    if step == Enter(i) && s.waited { RunningAtLeast(s.jobs, i); }
  }

  /** The loop returns exactly at the shutdown message, goes on at a refresh, and the wait ends at zero goroutines. */
  lemma ShutdownTaken(states: seq<State>, steps: seq<Step>, k: nat)
    requires Run(states, steps) && k < |steps|
    ensures states[k + 1].loop.Returned? <==> states[k].loop.Returned? || (steps[k].Chosen? && steps[k].index == 0)
    ensures steps[k].Chosen? && steps[k].index == 1 ==> states[k + 1] == states[k]
    ensures states[k + 1].waited <==> states[k].waited || steps[k].WaitReturns?
    ensures steps[k].WaitReturns? ==> states[k].loop.Returned? && Running(states[k].jobs) == 0
  {
    hide NewWorker, Running;
    RunIsSound(states, steps, k);
    assert Enabled(states[k], steps[k]) && states[k + 1] == Apply(states[k], steps[k]);
  }

  /** A tick whose schedule goes on is taken up exactly if fewer goroutines of its own job than the bound hold the semaphore,
      and is otherwise dropped with nothing changed; taken up, it launches one goroutine of that job and of no other. */
  lemma TickLaunchesIff(states: seq<State>, steps: seq<Step>, k: nat)
    requires Run(states, steps) && k < |steps| && steps[k].Chosen? && steps[k].index >= 2 && !LateTick(states[k], steps[k])
    ensures
      var s, i := states[k], steps[k].index - 2;
      i < |s.jobs| && states[k + 1] ==
        if s.jobs[i].launched + s.jobs[i].running + s.jobs[i].leaving < s.maxGoroutines then s.(loop := Sending(i)) else s
    ensures
      var s, i := states[k], steps[k].index - 2;
      k + 1 < |steps| && steps[k + 1].Send? && states[k + 1] != s ==>
        var j := s.jobs[i];
        states[k + 2] == s.(waitGroup := s.waitGroup + 1,
          jobs := s.jobs[i := j.(semaphore := j.semaphore + 1, launched := j.launched + 1, started := j.started + 1)])
  {
    hide NewWorker, Running;
    RunIsSound(states, steps, k);
    var s, i := states[k], steps[k].index - 2;
    assert Enabled(s, steps[k]) && states[k + 1] == Apply(s, steps[k]);
    assert Sound(s, i);
    if k + 1 < |steps| { assert states[k + 1 + 1] == Apply(states[k + 1], steps[k + 1]); }
  }

  /** The step handles a tick of a job whose schedule has no instant after the time it is handled. */
  ghost predicate LateTick(s: State, step: Step) {
    step.Chosen? && step.now.Valid() && 2 <= step.index < |s.jobs| + 2 && Over(s.jobs[step.index - 2].schedule, step.now)
  }

  lemma StepDies(s: State, step: Step)
    requires Inv(s) && Enabled(s, step)
    ensures Apply(s, step).loop.NoTicker? <==> LateTick(s, step)
  {
    hide Over, Running;
    if step.Chosen? && step.index >= 2 { assert Sound(s, step.index - 2); }
  }

  lemma RunStepDies(states: seq<State>, steps: seq<Step>, k: nat)
    requires Run(states, steps) && k < |steps|
    ensures |states| == |steps| + 1 && !states[k].loop.NoTicker? && (states[k + 1].loop.NoTicker? <==> LateTick(states[k], steps[k]))
  {
    hide Inv, Apply, LateTick, NewWorker;
    RunIsSound(states, steps, k);
    assert Enabled(states[k], steps[k]) && states[k + 1] == Apply(states[k], steps[k]);
    StepDies(states[k], steps[k]);
  }

  lemma StartsAlive(states: seq<State>, steps: seq<Step>)
    requires Run(states, steps)
    ensures |states| == |steps| + 1 && !states[0].loop.NoTicker?
  {
    hide Inv, Apply, NewWorker;
    var max, handlers :| states[0] == NewWorker(max, handlers);
    NewWorkerSound(max, handlers);
  }

  /** The loop dies of a ticker exactly at such a tick, whichever job's it is; the run then ends, with the other jobs'
      handlers cut off. */
  lemma {:induction false} DiesIffOver(states: seq<State>, steps: seq<Step>, n: nat)
    requires Run(states, steps) && n < |states|
    ensures states[n].loop.NoTicker? <==> exists k :: 0 <= k < n && LateTick(states[k], steps[k])
    ensures states[n].loop.NoTicker? ==> n == |steps|
  {
    hide Run, LateTick;
    StartsAlive(states, steps);
    if n < |steps| { RunStepDies(states, steps, n); }
    if n > 0 {
      DiesIffOver(states, steps, n - 1);
      RunStepDies(states, steps, n - 1);
    }
  }

  /** Whatever its cron expression, a tick of a cron job that is handled after 2099 ends the loop. */
  lemma DiesAfter2099(states: seq<State>, steps: seq<Step>, k: nat)
    requires Run(states, steps) && k < |steps| && steps[k].Chosen? && steps[k].index >= 2 && steps[k].now.year > 2099
    requires
      var i := steps[k].index - 2;
      i < |states[k].jobs| ==> states[k].jobs[i].schedule.Cron? && states[k].jobs[i].schedule.f.WellFormed()
    ensures states[k + 1].loop.NoTicker? && |steps| == k + 1
  {
    RunIsSound(states, steps, k);
    assert Enabled(states[k], steps[k]);
    EveryScheduleEnds(states[k].jobs[steps[k].index - 2].schedule.f, steps[k].now);
    assert LateTick(states[k], steps[k]);
    DiesIffOver(states, steps, k + 1);
  }

  /** Once the shutdown message is taken no goroutine is launched any more, so the handlers entered later are those launched
      before; after the wait no goroutine is launching or in a handler, so none ever finds the context cancelled. */
  lemma {:induction false} ShutdownIsFinal(states: seq<State>, steps: seq<Step>, m: nat, n: nat)
    requires Run(states, steps) && m <= n < |states| && states[m].loop.Returned?
    ensures states[n].loop.Returned? && |states[n].jobs| == |states[m].jobs|
    ensures forall i :: 0 <= i < |states[n].jobs| ==>
      var before, after := states[m].jobs[i], states[n].jobs[i];
      after.started == before.started && after.entered - before.entered == before.launched - after.launched
    ensures states[n].waited ==> forall i :: 0 <= i < |states[n].jobs| ==>
      states[n].jobs[i].launched == 0 && states[n].jobs[i].running == 0
    decreases n
  {
    if m < n {
      ShutdownIsFinal(states, steps, m, n - 1);
      var step := steps[n - 1];
      assert states[n - 1 + 1] == Apply(states[n - 1], step);
    }
    RunIsSound(states, steps, m);
    RunIsSound(states, steps, n);
    if states[n].waited {
      forall i | 0 <= i < |states[n].jobs| ensures states[n].jobs[i].launched == 0 && states[n].jobs[i].running == 0 {
        RunningAtLeast(states[n].jobs, i);
      }
    }
  }
}
