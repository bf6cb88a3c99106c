/** Runs put together. */
module Runs {
  import opened Network

  /** If `p` holds in state `j`, it holds in the next. */
  ghost predicate KeptAt(p: Net -> bool, ss: seq<Net>, j: nat) {
    j + 1 < |ss| && p(ss[j]) ==> p(ss[j + 1])
  }

  /** A property that every step keeps holds all along. */
  lemma {:induction false} Along(p: Net -> bool, ss: seq<Net>, i: nat)
    requires i < |ss| && p(ss[0]) && forall j: nat {:trigger KeptAt(p, ss, j)} :: KeptAt(p, ss, j)
    ensures p(ss[i])
  {
    if i > 0 {
      Along(p, ss, i - 1);
      assert KeptAt(p, ss, i - 1);
    }
  }

  /** A calm run from `s` to `s'`. */
  ghost predicate Leads(s: Net, s': Net) {
    exists ss, acts :: IsRun(ss, acts) && Calm(acts) && ss[0] == s && ss[|acts|] == s'
  }

  lemma LeadsNowhere(s: Net)
    ensures Leads(s, s)
  {
    var ss, acts: seq<Action> := [s], [];
    assert IsRun(ss, acts) && Calm(acts) && ss[0] == s && ss[|acts|] == s;
  }

  lemma LongerRun(s: Net, a: Action, s1: Net, ss: seq<Net>, acts: seq<Action>)
    requires Step(s, a, s1) && IsRun(ss, acts) && ss[0] == s1
    ensures IsRun([s] + ss, [a] + acts)
  {
    var ss', acts' := [s] + ss, [a] + acts;
    forall i ensures StepAt(ss', acts', i) {
      assert StepAt(ss, acts, i - 1);
    }
  }

  lemma AppendStep(ss: seq<Net>, acts: seq<Action>, a: Action, s': Net)
    requires IsRun(ss, acts) && Step(ss[|acts|], a, s')
    ensures IsRun(ss + [s'], acts + [a])
  {
    var ss', acts' := ss + [s'], acts + [a];
    forall i ensures StepAt(ss', acts', i) {
      assert StepAt(ss, acts, i);
    }
  }

  lemma JoinRuns(ss: seq<Net>, acts: seq<Action>, ss2: seq<Net>, acts2: seq<Action>)
    requires IsRun(ss, acts) && IsRun(ss2, acts2) && ss[|acts|] == ss2[0]
    ensures IsRun(ss + ss2[1..], acts + acts2)
  {
    var ss', acts' := ss + ss2[1..], acts + acts2;
    forall i ensures StepAt(ss', acts', i) {
      assert StepAt(ss, acts, i) && StepAt(ss2, acts2, i - |acts|);
    }
  }

  lemma LeadsOn(s: Net, s1: Net, s2: Net)
    requires Leads(s, s1) && Leads(s1, s2)
    ensures Leads(s, s2)
  {
    var ss, acts :| IsRun(ss, acts) && Calm(acts) && ss[0] == s && ss[|acts|] == s1;
    var ss2, acts2 :| IsRun(ss2, acts2) && Calm(acts2) && ss2[0] == s1 && ss2[|acts2|] == s2;
    JoinRuns(ss, acts, ss2, acts2);
    var ss', acts' := ss + ss2[1..], acts + acts2;
    assert ss'[0] == s && ss'[|acts'|] == s2 && Calm(acts');
  }
}
