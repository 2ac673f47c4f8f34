/** Which states some interleaving leads to, access by access. */
module Reaching {
  import opened Interleaving

  /** From s the steps lead to r. */
  predicate Leads(s: State, steps: seq<Step>, r: State)
    decreases |steps|
  {
    if steps == [] then r == s else Enabled(s, steps[0]) && Leads(Apply(s, steps[0]), steps[1..], r)
  }

  lemma {:induction false} LeadsThen(s: State, first: seq<Step>, m: State, second: seq<Step>, r: State)
    requires Leads(s, first, m) && Leads(m, second, r)
    ensures Leads(s, first + second, r)
    decreases |first|
  {
    if first == [] {
      assert first + second == second;
    } else {
      LeadsThen(Apply(s, first[0]), first[1..], m, second, r);
      assert (first + second)[0] == first[0] && (first + second)[1..] == first[1..] + second;
    }
  }

  /** Such a chain of steps is a run. */
  lemma {:induction false} LeadsIsRun(s: State, steps: seq<Step>, r: State) returns (states: seq<State>)
    requires Leads(s, steps, r)
    ensures Run(states, steps) && states[0] == s && states[|steps|] == r
    decreases |steps|
  {
    if steps == [] {
      states := [s];
    } else {
      var rest := LeadsIsRun(Apply(s, steps[0]), steps[1..], r);
      states := [s] + rest;
      forall i {:trigger steps[i]} | 0 <= i < |steps|
        ensures Enabled(states[i], steps[i]) && states[i + 1] == Apply(states[i], steps[i])
      {
        if i > 0 { assert steps[1..][i - 1] == steps[i]; }
      }
    }
  }

  /** Some interleaving leads from s to r. */
  ghost predicate Reach(s: State, r: State) {
    exists steps: seq<Step> :: Leads(s, steps, r)
  }

  /** It is a run. */
  lemma ReachIsRun(s: State, r: State) returns (states: seq<State>, steps: seq<Step>)
    requires Reach(s, r)
    ensures Run(states, steps) && states[0] == s && states[|steps|] == r
  {
    steps :| Leads(s, steps, r);
    states := LeadsIsRun(s, steps, r);
  }

  lemma ReachTwice(s: State, m: State, r: State)
    requires Reach(s, m) && Reach(m, r)
    ensures Reach(s, r)
  {
    var first :| Leads(s, first, m);
    var second :| Leads(m, second, r);
    LeadsThen(s, first, m, second, r);
  }

  const ANY := Choice(0, false, {}, false, Unwritten)

  // ---- Single accesses ----

  /** The state with other accesses left to operation p. */
  function Now(s: State, p: Pid, left: seq<Access>): State {
    s.(ops := Left(s.ops, p, left))
  }

  lemma NowNow(s: State, p: Pid, some: seq<Access>, left: seq<Access>)
    requires p in s.ops
    ensures Now(Now(s, p, some), p, left) == Now(s, p, left)
  {
  }

  lemma Does(s: State, p: Pid, c: Choice, a: Access, rest: seq<Access>, left: seq<Access>, r: State)
    requires p in s.ops && s.ops[p] == [a] + rest && Ready(s, a, c)
    requires r == Effect(s, a, c) && r.ops == s.ops && left == Follow(s, a, c) + rest
    ensures Reach(s, Now(r, p, left))
  {
    hide Effect, Follow;
    var after := Apply(s, Next(p, c));
    assert s.ops[p][1..] == rest;
    assert Leads(after, [], after);
    assert Leads(s, [Next(p, c)], after);
  }

  lemma Begins(s: State, p: Pid, op: Operation, program: seq<Access>)
    requires p !in s.ops && Starts(s, op) && program == Program(s, op)
    ensures Reach(s, s.(ops := s.ops[p := program]))
  {
    hide Program;
    var r := Apply(s, Begin(p, op));
    assert Leads(r, [], r);
    assert Leads(s, [Begin(p, op)], r);
  }
}
