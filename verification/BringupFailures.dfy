/** Bring-up with failures: none is passed over. */
module BringupFailures {
  import opened Bringup

  /** A send or a receive of the orchestrator fails, a reply is refused, or a deadline passes. */
  ghost predicate Fails(n: nat, s: State, a: Action) {
    match a
    case SendRequest(ok) => !ok
    case SendsOver(inTime) => !inTime
    case CollectFrom(_, ok) => !ok
    case CollectFails(_) => true
    case CollectOver => s.orch.Collecting? && exists f: nat :: f < n && f !in s.orch.handled
    case _ => false
  }

  /** The orchestrator has recorded an error or has given up. */
  ghost predicate Doomed(o: Orchestrator) {
    o.Stopped? || (o.Sending? && o.bad) || (o.Collecting? && o.bad)
  }

  lemma FailsDooms(n: nat, s: State, a: Action, s': State)
    requires Step(n, s, a, s') && (Fails(n, s, a) || Doomed(s.orch))
    ensures Doomed(s'.orch) && s'.orch.p == s.orch.p
  {
  }

  /** After a failure in one phase the orchestrator begins no other, and bring-up is never done. */
  lemma {:induction false} FailureIsFinal(n: nat, ss: seq<State>, acts: seq<Action>, i: nat, j: nat)
    requires IsRun(n, ss, acts) && i < j <= |acts| && Fails(n, ss[i], acts[i])
    ensures Doomed(ss[j].orch) && !ss[j].orch.Done? && ss[j].orch.p == ss[i].orch.p
  {
    assert StepAt(n, ss, acts, j - 1);
    if i < j - 1 {
      FailureIsFinal(n, ss, acts, i, j - 1);
    }
    FailsDooms(n, ss[j - 1], acts[j - 1], ss[j]);
  }

  lemma DeadStep(n: nat, s: State, a: Action, s': State, f: nat)
    requires Step(n, s, a, s') && f < n && s.frags[f].dead
    ensures Shape(n, s') && s'.frags[f] == s.frags[f] && |s'.up[f]| <= |s.up[f]|
  {
  }

  /** A fragment that has crashed or refused a request receives and acknowledges nothing more, and unless
      it had acknowledged every phase bring-up is never done. */
  lemma {:induction false} DeadStays(n: nat, ss: seq<State>, acts: seq<Action>, i: nat, j: nat, f: nat)
    requires IsRun(n, ss, acts) && i <= j <= |acts| && f < n && Shape(n, ss[i]) && ss[i].frags[f].dead
    ensures Shape(n, ss[j]) && ss[j].frags[f] == ss[i].frags[f] && |ss[j].up[f]| <= |ss[i].up[f]|
    ensures ss[i].frags[f].acked < PHASES ==> !ss[j].orch.Done?
  {
    if i < j {
      DeadStays(n, ss, acts, i, j - 1, f);
      assert StepAt(n, ss, acts, j - 1);
      DeadStep(n, ss[j - 1], acts[j - 1], ss[j], f);
    }
    if ss[j].orch.Done? {
      LockStep(n, ss, acts, j, f);
    }
  }

  /** Which steps kill a fragment: a crash, a request refused, an acknowledgement not sent. */
  lemma WhatKills(n: nat, s: State, a: Action, s': State, f: nat)
    requires Step(n, s, a, s') && f < n && (a == Crash(f) || a == Receive(f, false) || a == Acknowledge(f, false))
    ensures Shape(n, s') && s'.frags[f].dead && s'.up == s.up
  {
  }
}
