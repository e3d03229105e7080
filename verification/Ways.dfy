/** Ways on from a state of the single processor, on which every action is of an allowed kind. */
module Ways {
  import opened SingleProcessor

  /** The actions lead from one state to the other, and each of them is allowed where it is taken. */
  ghost predicate Leads(s: System, rest: seq<Action>, s': System, allowed: (System, Action) -> bool)
    decreases |rest|
  {
    if rest == [] then s == s'
    else Enabled(s, rest[0]) && allowed(s, rest[0]) && Leads(Next(s, rest[0]), rest[1..], s', allowed)
  }

  lemma {:induction false} OneMore(s: System, rest: seq<Action>, s': System, a: Action, allowed: (System, Action) -> bool)
    requires Leads(s, rest, s', allowed) && Enabled(s', a) && allowed(s', a)
    ensures Leads(s, rest + [a], Next(s', a), allowed)
    decreases |rest|
  {
    hide Enabled, Next;
    if rest != [] {
      OneMore(Next(s, rest[0]), rest[1..], s', a, allowed);
      assert (rest + [a])[1..] == rest[1..] + [a];
    } else {
      assert [a][1..] == [];
    }
  }

  /** A way on from the end of a run makes a longer run. */
  lemma {:induction false} LeadsIsRun(run: seq<Action>, rest: seq<Action>, s': System, allowed: (System, Action) -> bool)
    requires IsRun(run) && Leads(After(run), rest, s', allowed)
    ensures IsRun(run + rest) && After(run + rest) == s'
    decreases |rest|
  {
    hide Enabled, Next;
    if rest == [] {
      assert run + rest == run;
    } else {
      var more := run + [rest[0]];
      assert more[..|run|] == run && more[|run|] == rest[0];
      LeadsIsRun(more, rest[1..], s', allowed);
      assert more + rest[1..] == run + rest;
    }
  }
}
