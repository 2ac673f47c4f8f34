/** The INCR/DEL lock that keeps several cron worker instances from running one job together. */
module Locker {

  type Worker = nat

  /** One key: its Redis counter (0 while the key is absent) and the workers inside the section it guards. */
  datatype State = State(counter: nat, holders: set<Worker>)

  datatype Step = Acquire(w: Worker) | Release(w: Worker)

  /** `IsLocked` increments and reports whether somebody was before; a worker told "no" goes in.
      `Unlock` deletes the key. */
  function Apply(s: State, step: Step): State {
    match step
    case Acquire(w) =>
      var incr := s.counter + 1;
      State(incr, if incr > 1 then s.holders else s.holders + {w})
    case Release(w) => State(0, s.holders - {w})
  }

  /** Only a worker that was let in unlocks, as the deferred call of `processJob` does. */
  predicate Allowed(s: State, step: Step) {
    step.Release? ==> step.w in s.holders
  }

  ghost predicate Run(states: seq<State>, steps: seq<Step>) {
    && |states| == |steps| + 1 && states[0] == State(0, {})
    && forall i :: 0 <= i < |steps| ==> Allowed(states[i], steps[i]) && states[i + 1] == Apply(states[i], steps[i])
  }

  ghost predicate Exclusive(s: State) {
    && (forall a, b :: a in s.holders && b in s.holders ==> a == b)
    && (s.counter > 0 <==> s.holders != {})
  }

  /** In every run of any number of workers at most one is inside, and the counter says whether one is. */
  lemma {:induction false} MutualExclusion(states: seq<State>, steps: seq<Step>, n: nat)
    requires Run(states, steps) && n < |states|
    ensures Exclusive(states[n])
  {
    if n > 0 {
      MutualExclusion(states, steps, n - 1);
      ApplyIsExclusive(states[n - 1], steps[n - 1]);
      assert states[n - 1 + 1] == Apply(states[n - 1], steps[n - 1]);
    }
  }

  /** In every run a worker that asks is let in exactly if nobody was inside, and every worker that unlocks is out. */
  lemma LetInIffFree(states: seq<State>, steps: seq<Step>, k: nat)
    requires Run(states, steps) && k < |steps|
    ensures steps[k].Acquire? ==> states[k + 1].holders == if states[k].holders == {} then {steps[k].w} else states[k].holders
    ensures steps[k].Release? ==> states[k + 1].holders == {}
  {
    MutualExclusion(states, steps, k);
    assert Allowed(states[k], steps[k]) && states[k + 1] == Apply(states[k], steps[k]);
  }

  lemma ApplyIsExclusive(s: State, step: Step)
    requires Exclusive(s) && Allowed(s, step)
    ensures Exclusive(Apply(s, step))
  {
    if step.Release? {
      assert s.holders == {step.w};
      assert Apply(s, step).holders == {};
    } else if s.counter == 0 {
      assert step.w in Apply(s, step).holders;
    }
  }

  /** An unlock keeps exclusion exactly when its caller is inside or nobody is. */
  lemma UnlockIsSafeIff(s: State, w: Worker)
    requires Exclusive(s)
    ensures Exclusive(Apply(s, Release(w))) <==> w in s.holders || s.holders == {}
  {
    if w in s.holders {
      ApplyIsExclusive(s, Release(w));
    } else {
      assert s.holders - {w} == s.holders;
    }
  }
}
