/** The runs that the convergence and flood results speak about exist: deliveries alone drain the
    network, so that it can settle from the start, and a FLOOD in a settled network can run its course. */
module StpLive {
  import opened Overlay
  import opened NodeModel
  import opened Network
  import opened StpInvariants
  import opened StpStable
  import opened StpDrain
  import opened StpConverge
  import opened StpSettled
  import opened Flood
  import opened Runs
  import opened Descent

  // ---------------------------------------------------------------- draining STP

  lemma NoFloodsStep(s: Net, a: Action, s': Net)
    requires Step(s, a, s') && NoFloods(s) && !a.UserFlood?
    ensures NoFloods(s')
  {
    forall d | d in s'.chan ensures Flood !in s'.chan[d] {
      assert s'.chan[d] == Rest(s, a, d) + Sent(s, a, d);
      assert a.Deliver? ==> Head(s, a) in s.chan[(a.from, a.to)];
    }
  }

  /** A network without FLOODs that is not drained can deliver an advertisement. */
  lemma SomeDelivery(g: Graph, s: Net) returns (a: Action)
    requires Valid(g) && WellFormed(g, s) && NoFloods(s) && !Drained(s)
    ensures TakesStp(s, a)
  {
    var d, adv :| d in s.chan && Stp(adv) in s.chan[d];
    assert d in Darts(g);
    assert s.chan[d][0] != Flood;
    a := Deliver(d.0, d.1);
  }

  lemma DrainStep(g: Graph, s: Net) returns (a: Action, s': Net)
    requires Valid(g) && DrainInv(g, s) && NoFloods(s) && !Drained(s)
    ensures Step(s, a, s') && a.Deliver? && DrainInv(g, s') && NoFloods(s') && StpMeasure(g, s') < StpMeasure(g, s)
  {
    a := SomeDelivery(g, s);
    s' := Next(s, a);
    TakeStpDrops(g, s, a, s');
    NoFloodsStep(s, a, s');
  }

  /** Deliveries alone drain it, whatever elections came before. */
  lemma CanDrain(g: Graph, s: Net) returns (ss: seq<Net>, acts: seq<Action>)
    requires Valid(g) && DrainInv(g, s) && NoFloods(s)
    ensures IsRun(ss, acts) && Calm(acts) && ss[0] == s && Drained(ss[|acts|]) && NoFloods(ss[|acts|])
  {
    var p, done, mu := t => DrainInv(g, t) && NoFloods(t), t => Drained(t), t => StpMeasure(g, t);
    forall t ensures CanLower(p, done, mu, t) {
      if p(t) && !done(t) {
        var a, t' := DrainStep(g, t);
        assert Step(t, a, t') && p(t') && mu(t') < mu(t);
      }
    }
    ss, acts := RunDown(p, done, mu, s);
  }

  lemma PathIsDrainable(g: Graph, s: Net)
    requires Valid(g) && PathInv(g, s)
    ensures DrainInv(g, s)
  {
    NodeCount(g);
    forall u | u in s.nodes ensures s.nodes[u].dist <= 0x1_0000 {
      assert NodeWitnessed(g, s, u);
      WitnessShort(g, s, s.nodes[u].root, s.nodes[u].dist, u);
    }
    forall d, a | d in s.chan && Stp(a) in s.chan[d] ensures a.len < 0x1_0000 {
      assert PacketWitnessed(g, s, d, a);
      WitnessShort(g, s, a.root, a.len, d.0);
    }
  }

  /** From a state without FLOODs a round is possible: a hello of the lowest address, then deliveries. */
  lemma CanDoRound(g: Graph, m: Addr, s: Net) returns (s': Net)
    requires Valid(g) && LowestOfComponent(g, m) && PathInv(g, s) && AllLearned(g, s) && NoFloods(s)
    ensures OneRound(m, s, s') && Leads(s, s') && NoFloods(s') && PathInv(g, s') && AllLearned(g, s') && Drained(s')
  {
    LowestIsCorrect(g, s, m);
    var a := Hello(m);
    assert Enabled(s, a);
    var s1 := Next(s, a);
    StepPath(g, s, a, s1);
    PathIsDrainable(g, s1);
    NoFloodsStep(s, a, s1);
    var ss1, acts1 := CanDrain(g, s1);
    LongerRun(s, a, s1, ss1, acts1);
    var ss, acts := [s] + ss1, [a] + acts1;
    s' := ss[|acts|];
    assert IsRound(m, ss, acts, 0) && ss[0] == s;
    RoundKeeps(g, m, s, s');
  }

  lemma CanDoRounds(g: Graph, m: Addr, s: Net, k: nat) returns (s': Net)
    requires Valid(g) && LowestOfComponent(g, m) && PathInv(g, s) && AllLearned(g, s) && NoFloods(s)
    ensures Rounds(m, s, s', k) && Leads(s, s') && NoFloods(s') && PathInv(g, s') && AllLearned(g, s')
  {
    var p := t => PathInv(g, t) && AllLearned(g, t) && NoFloods(t);
    forall t ensures RoundKeeping(m, p, t) {
      if p(t) {
        var t' := CanDoRound(g, m, t);
        assert OneRound(m, t, t') && Leads(t, t') && p(t');
      }
    }
    s' := RoundAfterRound(m, p, s, k);
  }

  /** The network can drain from the start. */
  lemma CanStart(g: Graph) returns (s: Net)
    requires Valid(g)
    ensures Leads(Init(g), s) && CalmReachable(g, s) && Drained(s) && NoFloods(s)
  {
    InitPath(g);
    PathIsDrainable(g, Init(g));
    var ss, acts := CanDrain(g, Init(g));
    s := ss[|acts|];
  }

  /** On every overlay in which all nodes are connected to the lowest address, a settled state is reachable. */
  lemma SettlingIsPossible(g: Graph, m: Addr, k: nat) returns (s: Net)
    requires Valid(g) && Centre(g, m, k)
    ensures CalmReachable(g, s) && Settled(g, s) && Drained(s) && NoFloods(s)
  {
    CentreIsLowest(g, m, k);
    var s0 := CanStart(g);
    FirstDrainLearns(g, s0);
    var s1 := CanDoRounds(g, m, s0, k);
    var s2 := CanDoRound(g, m, s1);
    s := CanDoRound(g, m, s2);
    NetworkSettles(g, m, k, s0, s1, s2, s);
    LeadsOn(Init(g), s0, s1);
    LeadsOn(Init(g), s1, s2);
    LeadsOn(Init(g), s2, s);
  }

  // -------------------------------------------------------------- finishing a FLOOD

  lemma DrainedStep(s: Net, a: Action, s': Net)
    requires Step(s, a, s') && Drained(s) && (a.UserFlood? || (a.Deliver? && TakesFlood(s, a)))
    ensures Drained(s')
  {
    forall d, adv | d in s'.chan ensures Stp(adv) !in s'.chan[d] {
      assert s'.chan[d] == Rest(s, a, d) + Sent(s, a, d);
    }
  }

  lemma SomeFlood(g: Graph, s: Net) returns (a: Action)
    requires Valid(g) && WellFormed(g, s) && Drained(s) && !NoFloods(s)
    ensures TakesFlood(s, a)
  {
    var d :| d in s.chan && Flood in s.chan[d];
    assert d in Darts(g);
    assert s.chan[d][0] in s.chan[d];
    a := Deliver(d.0, d.1);
  }

  lemma FinishStep(g: Graph, m: Addr, s: Net) returns (a: Action, s': Net)
    requires FloodInv(g, m, s) && Drained(s) && !NoFloods(s)
    ensures Step(s, a, s') && a.Deliver? && FloodInv(g, m, s') && Drained(s') && FloodMeasure(s', m) < FloodMeasure(s, m)
  {
    a := SomeFlood(g, s);
    s' := Next(s, a);
    FloodInvStep(g, m, s, a, s');
    FloodMeasureStep(g, m, s, a, s');
    DrainedStep(s, a, s');
  }

  /** Deliveries alone carry all FLOODs to their ends. */
  lemma CanFinish(g: Graph, m: Addr, s: Net) returns (ss: seq<Net>, acts: seq<Action>)
    requires FloodInv(g, m, s) && Drained(s)
    ensures IsRun(ss, acts) && ss[0] == s && NoFloods(ss[|acts|])
    ensures forall i | 0 <= i < |acts| :: acts[i].Deliver?
  {
    var p, done, mu := t => FloodInv(g, m, t) && Drained(t), t => NoFloods(t), t => FloodMeasureOr0(t, m);
    forall t ensures CanLower(p, done, mu, t) {
      if p(t) && !done(t) {
        var a, t' := FinishStep(g, m, t);
        assert Step(t, a, t') && p(t') && mu(t') < mu(t);
      }
    }
    ss, acts := RunDown(p, done, mu, s);
  }

  lemma Injected(g: Graph, m: Addr, k: nat, s: Net, src: Addr) returns (s1: Net)
    requires Settled(g, s) && Centre(g, m, k) && Drained(s) && NoFloods(s) && src in g.nbrs
    ensures Step(s, UserFlood(src), s1) && FloodInv(g, m, s1) && Drained(s1)
  {
    var a := UserFlood(src);
    assert Enabled(s, a);
    s1 := Next(s, a);
    SettledTree(g, m, k, s);
    FloodInvStep(g, m, s, a, s1);
    DrainedStep(s, a, s1);
  }

  /** In a settled, empty network a user's FLOOD can always run its course, and then every other user has
      received it exactly once. */
  lemma FloodIsPossible(g: Graph, m: Addr, k: nat, s: Net, src: Addr) returns (ss: seq<Net>, acts: seq<Action>)
    requires Settled(g, s) && Centre(g, m, k) && Drained(s) && NoFloods(s) && src in g.nbrs
    ensures IsRun(ss, acts) && ss[0] == s && |acts| > 0 && acts[0] == UserFlood(src)
    ensures NoFloods(ss[|acts|]) && forall i | 1 <= i < |acts| :: acts[i].Deliver?
    ensures forall x | x in g.nbrs ::
              x in s.user && x in ss[|acts|].user && ss[|acts|].user[x] == s.user[x] + (if x == src then 0 else 1)
  {
    var s1 := Injected(g, m, k, s, src);
    var ss1, acts1 := CanFinish(g, m, s1);
    LongerRun(s, UserFlood(src), s1, ss1, acts1);
    ss, acts := [s] + ss1, [UserFlood(src)] + acts1;
    AllReceive(g, m, k, ss, acts, src);
  }

  lemma AllReceive(g: Graph, m: Addr, k: nat, ss: seq<Net>, acts: seq<Action>, src: Addr)
    requires IsRun(ss, acts) && Settled(g, ss[0]) && Centre(g, m, k) && NoFloods(ss[0]) && NoFloods(ss[|acts|])
    requires |acts| > 0 && acts[0] == UserFlood(src) && forall i | 1 <= i < |acts| :: acts[i].Deliver?
    ensures forall x | x in g.nbrs ::
              x in ss[0].user && x in ss[|acts|].user && ss[|acts|].user[x] == ss[0].user[x] + (if x == src then 0 else 1)
  {
    forall x | x in g.nbrs
      ensures x in ss[0].user && x in ss[|acts|].user && ss[|acts|].user[x] == ss[0].user[x] + (if x == src then 0 else 1)
    {
      FloodExactlyOnce(g, m, k, ss, acts, src, x);
    }
  }
}
