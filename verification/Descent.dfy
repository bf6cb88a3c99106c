/** Runs obtained by repeating a step that can always be taken. */
module Descent {
  import opened Overlay
  import opened Network
  import opened StpConverge
  import opened Runs

  /** Until `done`, some delivery keeps `p` and lowers `mu`. */
  ghost predicate CanLower(p: Net -> bool, done: Net -> bool, mu: Net -> nat, s: Net) {
    p(s) && !done(s) ==> exists a, s' :: Step(s, a, s') && a.Deliver? && p(s') && mu(s') < mu(s)
  }

  /** Where deliveries can lower a measure until `done` holds, deliveries alone get there. */
  lemma {:induction false} RunDown(p: Net -> bool, done: Net -> bool, mu: Net -> nat, s: Net) returns (ss: seq<Net>, acts: seq<Action>)
    requires p(s) && forall t {:trigger CanLower(p, done, mu, t)} :: CanLower(p, done, mu, t)
    ensures IsRun(ss, acts) && ss[0] == s && p(ss[|acts|]) && done(ss[|acts|])
    ensures forall i | 0 <= i < |acts| :: acts[i].Deliver?
    decreases mu(s)
  {
    if done(s) {
      ss, acts := [s], [];
    } else {
      assert CanLower(p, done, mu, s);
      var a, s1 :| Step(s, a, s1) && a.Deliver? && p(s1) && mu(s1) < mu(s);
      var ss1, acts1 := RunDown(p, done, mu, s1);
      LongerRun(s, a, s1, ss1, acts1);
      ss, acts := [s] + ss1, [a] + acts1;
    }
  }

  /** Some round keeps `p`. */
  ghost predicate RoundKeeping(m: Addr, p: Net -> bool, s: Net) {
    p(s) ==> exists s' :: OneRound(m, s, s') && Leads(s, s') && p(s')
  }

  /** Rounds can follow one another where each keeps `p`. */
  lemma {:induction false} RoundAfterRound(m: Addr, p: Net -> bool, s: Net, k: nat) returns (s': Net)
    requires p(s) && forall t {:trigger RoundKeeping(m, p, t)} :: RoundKeeping(m, p, t)
    ensures Rounds(m, s, s', k) && Leads(s, s') && p(s')
  {
    if k == 0 {
      s' := s;
      LeadsNowhere(s);
    } else {
      var mid := RoundAfterRound(m, p, s, k - 1);
      assert RoundKeeping(m, p, mid);
      s' :| OneRound(m, mid, s') && Leads(mid, s') && p(s');
      LeadsOn(s, mid, s');
    }
  }
}
