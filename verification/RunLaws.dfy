/** Runs from any state, and runs from the initial state as behaviors. */
module RunLaws {
  import opened Memory
  import opened Machine

  /** `t` is reached from `s` by the steps in `labels`. */
  ghost predicate Runs(c: Config, s: Sys, labels: seq<Label>, t: Sys)
    decreases |labels|
  {
    if labels == [] then t == s
    else WellFormed(s.mem) && Enabled(c, s, labels[0]) && Runs(c, Next(c, s, labels[0]), labels[1..], t)
  }

  lemma RunsOne(c: Config, s: Sys, l: Label, t: Sys)
    requires Step(c, s, l, t)
    ensures Runs(c, s, [l], t)
  {
    assert [l][1..] == [];
  }

  lemma {:induction false} RunsThen(c: Config, s: Sys, a: seq<Label>, t: Sys, b: seq<Label>, u: Sys)
    requires Runs(c, s, a, t) && Runs(c, t, b, u)
    ensures Runs(c, s, a + b, u)
    decreases |a|
  {
    if a == [] {
      assert a + b == b;
    } else {
      assert (a + b)[0] == a[0] && (a + b)[1..] == a[1..] + b;
      RunsThen(c, Next(c, s, a[0]), a[1..], t, b, u);
    }
  }

  /** The states of a run. */
  ghost function StatesOf(c: Config, s: Sys, labels: seq<Label>, t: Sys): (states: seq<Sys>)
    requires Runs(c, s, labels, t)
    ensures |states| == |labels| + 1 && states[0] == s
    decreases |labels|
  {
    if labels == [] then [s] else [s] + StatesOf(c, Next(c, s, labels[0]), labels[1..], t)
  }

  lemma {:induction false} StatesAreSteps(c: Config, s: Sys, labels: seq<Label>, t: Sys)
    requires Runs(c, s, labels, t)
    ensures var states := StatesOf(c, s, labels, t);
      && states[|labels|] == t
      && forall i :: 0 <= i < |labels| ==> Step(c, states[i], labels[i], states[i + 1])
    decreases |labels|
  {
    if labels != [] {
      var next := Next(c, s, labels[0]);
      var states, rest := StatesOf(c, s, labels, t), StatesOf(c, next, labels[1..], t);
      StatesAreSteps(c, next, labels[1..], t);
      forall i | 0 <= i < |labels|
        ensures Step(c, states[i], labels[i], states[i + 1])
      {
        if i > 0 {
          assert Step(c, rest[i - 1], labels[1..][i - 1], rest[i]);
        }
      }
    }
  }

  /** A run from the initial state is a behavior. */
  lemma RunIsBehavior(c: Config, labels: seq<Label>, t: Sys) returns (states: seq<Sys>)
    requires Runs(c, Init, labels, t)
    ensures Behavior(c, states, labels) && states[|labels|] == t
  {
    states := StatesOf(c, Init, labels, t);
    StatesAreSteps(c, Init, labels, t);
    forall i | 0 <= i < |labels|
      ensures StepAt(c, states, labels, i)
    {
      assert Step(c, states[i], labels[i], states[i + 1]);
    }
  }
}
