/** Runs can be extended and joined. */
module RunLemmas {
  import opened System

  lemma RunsNothing(c: Config, s: State)
    ensures Runs(c, s, [], s)
  {
    assert Trace(c, [s], []);
  }

  lemma StartReachable(c: Config)
    requires c.n >= 1
    ensures Reachable(c, Init(c))
  {
    hide Init, Runs;
    RunsNothing(c, Init(c));
  }

  lemma RunsOne(c: Config, s: State, t: Step)
    requires Shape(c, s) && Enabled(c, s, t)
    ensures Runs(c, s, [t], Apply(c, s, t))
  {
    hide Shape, Enabled, Apply;
    assert Trace(c, [s, Apply(c, s, t)], [t]);
  }

  lemma TracesJoin(c: Config, before: seq<State>, first: seq<Step>, after: seq<State>, second: seq<Step>)
    requires Trace(c, before, first) && Trace(c, after, second) && before[|first|] == after[0]
    ensures Trace(c, before + after[1..], first + second)
  {
    hide Takes;
    var states, steps := before + after[1..], first + second;
    forall i | 0 <= i < |steps|
      ensures Takes(c, states[i], steps[i], states[i + 1])
    {
      if i < |first| {
        assert steps[i] == first[i];
      } else {
        assert steps[i] == second[i - |first|];
      }
    }
  }

  lemma RunsJoin(c: Config, s: State, first: seq<Step>, t: State, second: seq<Step>, u: State)
    requires Runs(c, s, first, t) && Runs(c, t, second, u)
    ensures Runs(c, s, first + second, u)
  {
    hide Takes;
    var before :| Trace(c, before, first) && before[0] == s && before[|first|] == t;
    var after :| Trace(c, after, second) && after[0] == t && after[|second|] == u;
    TracesJoin(c, before, first, after, second);
    assert (before + after[1..])[|first + second|] == u;
  }

  /** What a run reaches from a reachable state is reachable. */
  lemma ReachableRun(c: Config, s: State, steps: seq<Step>, t: State)
    requires Reachable(c, s) && Runs(c, s, steps, t)
    ensures Reachable(c, t)
  {
    hide Runs;
    var before :| Runs(c, Init(c), before, s);
    RunsJoin(c, Init(c), before, s, steps, t);
  }

  lemma ReachableStep(c: Config, s: State, t: Step)
    requires Reachable(c, s) && Shape(c, s) && Enabled(c, s, t)
    ensures Reachable(c, Apply(c, s, t))
  {
    hide Shape, Enabled, Apply, Runs, Reachable;
    RunsOne(c, s, t);
    ReachableRun(c, s, [t], Apply(c, s, t));
  }
}
