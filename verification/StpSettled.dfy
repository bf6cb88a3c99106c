/** Once parents are chosen, one more round sets every port flag, and from then on hellos change nothing. */
module StpSettled {
  import opened Overlay
  import opened NodeModel
  import opened Network
  import opened StpInvariants
  import opened StpStable
  import opened StpConverge
  import opened Runs
  import StpDrain
  import Sums

  /** y's advertisement of its present state. */
  ghost function CurrentAdv(s: Net, y: Addr): Adv
    requires y in s.nodes
  {
    Adv(s.nodes[y].root, s.nodes[y].dist, y)
  }

  /** The port to a neighbour is open exactly for the parent and for nodes one hop further out. */
  ghost predicate FlagOk(s: Net, x: Addr, y: Addr) {
    x in s.nodes && y in s.nodes ==>
      (y in s.nodes[x].open <==> y == s.nodes[x].next || s.nodes[y].dist == s.nodes[x].dist + 1)
  }

  ghost predicate PacketsCurrent(s: Net) {
    forall d, a | d in s.chan && Stp(a) in s.chan[d] :: d.0 in s.nodes && a == CurrentAdv(s, d.0)
  }

  ghost predicate Settled(g: Graph, s: Net) {
    && Valid(g) && PathInv(g, s) && AllLearned(g, s) && Quiet(g, s)
    && (forall x, y {:trigger FlagOk(s, x, y)} | Linked(g, x, y) :: FlagOk(s, x, y))
    && PacketsCurrent(s)
  }

  // -------------------------------------------------- one packet in a quiet state

  /** Without an improvement a packet changes at most the flag of its own port. */
  lemma OnlyOwnFlag(n: NodeState, from: Addr, a: Adv)
    requires from in n.learned && !Improves(n, a)
    ensures var n' := HandleStp(n, from, a);
            SameTriple(n, n') && n'.learned == n.learned && forall z | z != from :: z in n'.open <==> z in n.open
  {
  }

  /** The neighbour's current advertisement sets the flag right. */
  lemma CurrentSetsFlag(g: Graph, s: Net, x: Addr, y: Addr)
    requires Valid(g) && LocalInv(g, s) && AllLearned(g, s) && Quiet(g, s) && Linked(g, x, y)
    ensures var n := s.nodes[x];
            var n' := HandleStp(n, y, CurrentAdv(s, y));
            && (y in n'.open <==> y == n.next || s.nodes[y].dist == n.dist + 1)
            && (FlagOk(s, x, y) ==> n' == n)
  {
    assert NodeOk(g, x, s.nodes[x]);
    QuietBothWays(g, s, x, y);
    assert QuietLink(s, x, y);
    OnlyOwnFlag(s.nodes[x], y, CurrentAdv(s, y));
  }

  // ------------------------------------------------------------- the last packet

  datatype MaybeAdv = NoAdv | SomeAdv(adv: Adv)

  /** The advertisement sent last among those in the channel. */
  ghost function LastStp(c: seq<Packet>): MaybeAdv {
    if c == [] then NoAdv
    else if c[|c| - 1].Stp? then SomeAdv(c[|c| - 1].adv)
    else LastStp(c[..|c| - 1])
  }

  lemma {:induction false} LastStpIn(c: seq<Packet>)
    ensures LastStp(c).SomeAdv? ==> Stp(LastStp(c).adv) in c
  {
    if c != [] && !c[|c| - 1].Stp? {
      LastStpIn(c[..|c| - 1]);
    }
  }

  lemma {:induction false} LastStpTail(c: seq<Packet>)
    requires c != []
    ensures LastStp(c) == if LastStp(c[1..]) == NoAdv && c[0].Stp? then SomeAdv(c[0].adv) else LastStp(c[1..])
  {
    if |c| > 1 && !c[|c| - 1].Stp? {
      LastStpTail(c[..|c| - 1]);
      assert c[1..][..|c| - 2] == c[..|c| - 1][1..];
    }
  }

  lemma LastStpAppend(c: seq<Packet>, p: Packet)
    ensures LastStp(c + [p]) == if p.Stp? then SomeAdv(p.adv) else LastStp(c)
  {
    assert (c + [p])[..|c|] == c;
  }

  /** If y's last word has been heard, x's flag for it is right; if not, that word is y's present state. */
  ghost predicate FlagPending(s: Net, y: Addr, x: Addr) {
    (y, x) in s.chan && x in s.nodes && y in s.nodes ==>
      match LastStp(s.chan[(y, x)])
      case NoAdv => FlagOk(s, x, y)
      case SomeAdv(a) => a == CurrentAdv(s, y)
  }

  ghost predicate FlagInv(s: Net, sent: set<Addr>) {
    forall y, x {:trigger FlagPending(s, y, x)} | y in sent :: FlagPending(s, y, x)
  }

  /** FLOODs and packets on other ports leave a flag alone. */
  lemma FlagUntouched(s: Net, a: Action, s': Net, y: Addr, x: Addr)
    requires Step(s, a, s') && !a.Reelect? && x in s.nodes && y in s.nodes
    requires SameTriple(s.nodes[x], s'.nodes[x]) && SameTriple(s.nodes[y], s'.nodes[y])
    requires TakesStp(s, a) && a.to == x ==> a.from != y && a.from in s.nodes[x].learned && !Improves(s.nodes[x], Head(s, a).adv)
    requires FlagOk(s, x, y)
    ensures FlagOk(s', x, y)
  {
    if TakesStp(s, a) && a.to == x {
      OnlyOwnFlag(s.nodes[x], a.from, Head(s, a).adv);
    }
  }

  lemma AdvertisesCurrent(g: Graph, s: Net, a: Action, s': Net, y: Addr, x: Addr)
    requires Valid(g) && PathInv(g, s') && Step(s, a, s') && y == Actor(a) && Advertises(s, a) && (y, x) in s.chan
    requires y in g.nbrs
    ensures s'.chan[(y, x)] == Rest(s, a, (y, x)) + [Stp(CurrentAdv(s', y))]
  {
    AdvertExact(g, s', y);
  }

  lemma LastAfter(s: Net, a: Action, s': Net, d: Dart)
    requires Step(s, a, s') && d in s.chan && !(d.0 == Actor(a) && Advertises(s, a))
    ensures d in s'.chan && LastStp(s'.chan[d]) == LastStp(Rest(s, a, d))
  {
    var rest, sent := Rest(s, a, d), Sent(s, a, d);
    assert s'.chan[d] == rest + sent;
    if sent == [] {
      assert rest + sent == rest;
    } else {
      LastStpAppend(rest, sent[0]);
    }
  }

  /** x takes a packet of y. */
  lemma FlagTake(s: Net, s': Net, y: Addr, x: Addr)
    requires Step(s, Deliver(y, x), s') && y in s.nodes && x in s.nodes && y != x
    requires SameTriple(s.nodes[x], s'.nodes[x])
    requires y in HandleStp(s.nodes[x], y, CurrentAdv(s, y)).open
             <==> y == s.nodes[x].next || s.nodes[y].dist == s.nodes[x].dist + 1
    requires FlagPending(s, y, x) && LastStp(s'.chan[(y, x)]) == LastStp(s.chan[(y, x)][1..])
    ensures FlagPending(s', y, x)
  {
    LastStpTail(s.chan[(y, x)]);
  }

  lemma FlagStepRest(g: Graph, s: Net, a: Action, s': Net, y: Addr, x: Addr)
    requires Valid(g) && PathInv(g, s) && AllLearned(g, s) && Quiet(g, s) && WellFormed(g, s') && SameTriples(g, s, s')
    requires Step(s, a, s') && !a.Reelect? && (y, x) in s.chan && Linked(g, x, y)
    requires FlagPending(s, y, x) && !(y == Actor(a) && Advertises(s, a))
    ensures FlagPending(s', y, x)
  {
    LastAfter(s, a, s', (y, x));
    assert SameTriple(s.nodes[x], s'.nodes[x]) && SameTriple(s.nodes[y], s'.nodes[y]);
    if a == Deliver(y, x) {
      CurrentSetsFlag(g, s, x, y);
      FlagTake(s, s', y, x);
    } else if FlagOk(s, x, y) {
      if TakesStp(s, a) && a.to == x {
        NotImproving(g, s, a);
      }
      FlagUntouched(s, a, s', y, x);
    }
  }

  lemma NotImproving(g: Graph, s: Net, a: Action)
    requires Valid(g) && PathInv(g, s) && AllLearned(g, s) && Quiet(g, s) && TakesStp(s, a)
    ensures a.from in s.nodes[a.to].learned && !Improves(s.nodes[a.to], Head(s, a).adv)
  {
    assert (a.from, a.to) in Darts(g) && a.from in g.nbrs[a.to];
    assert Stp(Head(s, a).adv) in s.chan[(a.from, a.to)];
    QuietPackets(g, s, (a.from, a.to), Head(s, a).adv);
  }

  lemma FlagStep(g: Graph, s: Net, a: Action, s': Net, y: Addr, x: Addr)
    requires Valid(g) && PathInv(g, s) && AllLearned(g, s) && Quiet(g, s) && PathInv(g, s') && SameTriples(g, s, s')
    requires Step(s, a, s') && !a.Reelect? && (y, x) in Darts(g)
    requires FlagPending(s, y, x) || (y == Actor(a) && Advertises(s, a))
    ensures FlagPending(s', y, x)
  {
    DartIsLink(g, y, x);
    if y == Actor(a) && Advertises(s, a) {
      FlagStepSender(g, s, a, s', y, x);
    } else {
      FlagStepRest(g, s, a, s', y, x);
    }
  }

  lemma DartIsLink(g: Graph, y: Addr, x: Addr)
    requires Valid(g) && (y, x) in Darts(g)
    ensures Linked(g, x, y) && y in g.nbrs && x in g.nbrs
  {
  }

  lemma FlagStepSender(g: Graph, s: Net, a: Action, s': Net, y: Addr, x: Addr)
    requires Valid(g) && PathInv(g, s) && AllLearned(g, s) && Quiet(g, s) && PathInv(g, s') && SameTriples(g, s, s')
    requires Step(s, a, s') && !a.Reelect? && (y, x) in s.chan && Linked(g, x, y) && y in g.nbrs && y == Actor(a) && Advertises(s, a)
    ensures FlagPending(s', y, x)
  {
    AdvertisesCurrent(g, s, a, s', y, x);
    LastStpAppend(Rest(s, a, (y, x)), Stp(CurrentAdv(s', y)));
  }

  // ------------------------------------------------------------ the settling round

  lemma {:induction false} SettleRun(g: Graph, m: Addr, ss: seq<Net>, acts: seq<Action>, i: nat) returns (sent: set<Addr>)
    requires Valid(g) && LowestOfComponent(g, m) && IsRun(ss, acts) && Calm(acts)
    requires 0 < i <= |acts| && acts[0] == Hello(m) && PathInv(g, ss[0]) && AllLearned(g, ss[0]) && Quiet(g, ss[0])
    ensures RoundInv(m, ss[0], Correct(g, ss[0], m), ss[i], sent) && FlagInv(ss[i], sent)
    ensures WellFormed(g, ss[i]) && Quiet(g, ss[i])
    decreases i
  {
    var core := Correct(g, ss[0], m);
    assert StepAt(ss, acts, i - 1);
    if i == 1 {
      RoundStartIs(g, m, ss, acts);
      sent := {m};
      SettleStep(g, ss[0], acts[0], ss[1], {}, core);
    } else {
      sent := SettleRun(g, m, ss, acts, i - 1);
      assert IsCore(m, ss[0], core) by { CorrectIsCore(g, ss[0], m); }
      RoundRunStep(g, m, ss, acts, i, sent);
      assert PathInv(g, ss[i - 1]) && AllLearned(g, ss[i - 1]) by {
        RunPath(g, ss, acts, i - 1);
        LearnedKept(g, ss[0], ss[i - 1]);
      }
      SettleStep(g, ss[i - 1], acts[i - 1], ss[i], sent, core);
      sent := SentAfter(core, ss[i - 1], acts[i - 1], sent);
    }
  }

  lemma RoundStartIs(g: Graph, m: Addr, ss: seq<Net>, acts: seq<Action>)
    requires Valid(g) && LowestOfComponent(g, m) && IsRun(ss, acts) && |acts| > 0 && acts[0] == Hello(m) && PathInv(g, ss[0])
    ensures RoundInv(m, ss[0], Correct(g, ss[0], m), ss[1], {m}) && m in Correct(g, ss[0], m)
  {
    assert StepAt(ss, acts, 0);
    CorrectIsCore(g, ss[0], m);
    RoundStart(m, ss[0], Correct(g, ss[0], m), ss[1]);
  }

  lemma SettleStep(g: Graph, s: Net, a: Action, s': Net, sent: set<Addr>, core: set<Addr>)
    requires Valid(g) && PathInv(g, s) && AllLearned(g, s) && Quiet(g, s) && Step(s, a, s') && !a.Reelect?
    requires FlagInv(s, sent)
    ensures WellFormed(g, s') && Quiet(g, s') && FlagInv(s', SentAfter(core, s, a, sent))
  {
    assert WellFormed(g, s') && Quiet(g, s') by {
      StepPath(g, s, a, s');
      StepQuiet(g, s, a, s');
    }
    FlagsFollow(g, s, a, s', sent, core);
  }

  lemma FlagsFollow(g: Graph, s: Net, a: Action, s': Net, sent: set<Addr>, core: set<Addr>)
    requires Valid(g) && PathInv(g, s) && AllLearned(g, s) && Quiet(g, s) && Step(s, a, s') && !a.Reelect? && FlagInv(s, sent)
    ensures FlagInv(s', SentAfter(core, s, a, sent))
  {
    forall y: Addr, x: Addr | y in SentAfter(core, s, a, sent) ensures FlagPending(s', y, x) {
      FlagFollows(g, s, a, s', sent, core, y, x);
    }
  }

  lemma FlagFollows(g: Graph, s: Net, a: Action, s': Net, sent: set<Addr>, core: set<Addr>, y: Addr, x: Addr)
    requires Valid(g) && PathInv(g, s) && AllLearned(g, s) && Quiet(g, s) && Step(s, a, s') && !a.Reelect? && FlagInv(s, sent)
    requires y in SentAfter(core, s, a, sent)
    ensures FlagPending(s', y, x)
  {
    assert y in sent ==> FlagPending(s, y, x);
    FlagStepAny(g, s, a, s', y, x);
  }

  lemma FlagStepAny(g: Graph, s: Net, a: Action, s': Net, y: Addr, x: Addr)
    requires Valid(g) && PathInv(g, s) && AllLearned(g, s) && Quiet(g, s) && Step(s, a, s') && !a.Reelect?
    requires FlagPending(s, y, x) || (y == Actor(a) && Advertises(s, a))
    ensures FlagPending(s', y, x)
  {
    StepPath(g, s, a, s');
    StepQuiet(g, s, a, s');
    if (y, x) in Darts(g) {
      FlagStep(g, s, a, s', y, x);
    } else {
      assert (y, x) !in s'.chan;
    }
  }

  lemma QuietAt(g: Graph, ss: seq<Net>, acts: seq<Action>, j: nat)
    requires Valid(g) && IsRun(ss, acts) && Calm(acts) && j < |acts| && PathInv(g, ss[j]) && Quiet(g, ss[j])
    ensures PathInv(g, ss[j + 1]) && Quiet(g, ss[j + 1])
  {
    assert Step(ss[j], acts[j], ss[j + 1]) by { assert StepAt(ss, acts, j); }
    StepPath(g, ss[j], acts[j], ss[j + 1]);
    StepQuiet(g, ss[j], acts[j], ss[j + 1]);
  }

  lemma RunQuiet(g: Graph, ss: seq<Net>, acts: seq<Action>, i: nat)
    requires Valid(g) && IsRun(ss, acts) && Calm(acts) && PathInv(g, ss[0]) && Quiet(g, ss[0]) && i <= |acts|
    ensures WellFormed(g, ss[i]) && Quiet(g, ss[i])
  {
    var p := t => PathInv(g, t) && Quiet(g, t);
    forall j: nat ensures KeptAt(p, ss, j) {
      if j + 1 < |ss| && p(ss[j]) {
        QuietAt(g, ss, acts, j);
      }
    }
    Along(p, ss, i);
  }

  /** In a quiet state everyone in the centre's reach is correct. */
  lemma QuietIsCorrect(g: Graph, m: Addr, k: nat, s: Net, u: Addr)
    requires Valid(g) && Centre(g, m, k) && PathInv(g, s) && Quiet(g, s) && u in g.nbrs
    ensures CorrectAt(g, s, m, u)
  {
    CentreIsLowest(g, m, k);
    LowestIsCorrect(g, s, m);
    assert Within(g, m, u, k);
    var p :| PathFromTo(g, p, m, u) && |p| <= k + 1;
    QuietAlongPath(g, s, p, |p| - 1);
    QuietHopDist(g, s, u);
  }

  /** In a round that begins with the hello, every node advertises. */
  lemma HelloReaches(g: Graph, m: Addr, k: nat, ss: seq<Net>, acts: seq<Action>, y: Addr) returns (sent: set<Addr>)
    requires Valid(g) && Centre(g, m, k) && LowestOfComponent(g, m) && IsRound(m, ss, acts, 0)
    requires PathInv(g, ss[0]) && AllLearned(g, ss[0]) && Quiet(g, ss[0]) && y in g.nbrs
    ensures y in sent && FlagInv(ss[|acts|], sent) && WellFormed(g, ss[|acts|])
  {
    var s0, core := ss[0], Correct(g, ss[0], m);
    sent := SettleRun(g, m, ss, acts, |acts|);
    assert y in core by { QuietIsCorrect(g, m, k, s0, y); }
    assert IsCore(m, s0, core) by { CorrectIsCore(g, s0, m); }
    AllSent(m, s0, core, ss[|acts|], sent, y);
  }

  lemma HelloRoundSettles(g: Graph, m: Addr, k: nat, ss: seq<Net>, acts: seq<Action>, x: Addr, y: Addr)
    requires Valid(g) && Centre(g, m, k) && LowestOfComponent(g, m) && IsRound(m, ss, acts, 0)
    requires PathInv(g, ss[0]) && AllLearned(g, ss[0]) && Quiet(g, ss[0]) && Linked(g, x, y)
    ensures FlagOk(ss[|acts|], x, y)
  {
    var sent := HelloReaches(g, m, k, ss, acts, y);
    DrainedFlag(g, ss[|acts|], sent, x, y);
  }

  /** Once drained, a flag that was pending is right. */
  lemma DrainedFlag(g: Graph, s: Net, sent: set<Addr>, x: Addr, y: Addr)
    requires Valid(g) && WellFormed(g, s) && Drained(s) && FlagInv(s, sent) && y in sent && Linked(g, x, y)
    ensures FlagOk(s, x, y)
  {
    assert (y, x) in Darts(g) && FlagPending(s, y, x);
    LastStpIn(s.chan[(y, x)]);
  }

  /** One more round of a quiet network keeps it quiet. */
  lemma RoundStaysQuiet(g: Graph, m: Addr, s: Net, s': Net)
    requires Valid(g) && OneRound(m, s, s') && PathInv(g, s) && Quiet(g, s)
    ensures WellFormed(g, s') && Quiet(g, s')
  {
    var ss, acts, h :| IsRound(m, ss, acts, h) && ss[0] == s && ss[|acts|] == s';
    RunQuiet(g, ss, acts, |acts|);
  }

  /** Its part from the hello on is a round of its own. */
  lemma FromTheHello(g: Graph, m: Addr, s: Net, s': Net) returns (ss: seq<Net>, acts: seq<Action>)
    requires Valid(g) && OneRound(m, s, s') && PathInv(g, s) && AllLearned(g, s) && Quiet(g, s)
    ensures IsRound(m, ss, acts, 0) && ss[|acts|] == s' && PathInv(g, ss[0]) && AllLearned(g, ss[0]) && Quiet(g, ss[0])
  {
    var ss0, acts0, h :| IsRound(m, ss0, acts0, h) && ss0[0] == s && ss0[|acts0|] == s';
    SuffixRound(m, ss0, acts0, h);
    ss, acts := ss0[h..], acts0[h..];
    assert PathInv(g, ss0[h]) && AllLearned(g, ss0[h]) by {
      RunPath(g, ss0, acts0, h);
      LearnedKept(g, s, ss0[h]);
    }
    assert Quiet(g, ss0[h]) by { RunQuiet(g, ss0, acts0, h); }
  }

  /** And sets every port flag. */
  lemma RoundSetsFlag(g: Graph, m: Addr, k: nat, s: Net, s': Net, x: Addr, y: Addr)
    requires Valid(g) && Centre(g, m, k) && OneRound(m, s, s') && Linked(g, x, y)
    requires PathInv(g, s) && AllLearned(g, s) && Quiet(g, s)
    ensures FlagOk(s', x, y)
  {
    var ss, acts := FromTheHello(g, m, s, s');
    CentreIsLowest(g, m, k);
    HelloRoundSettles(g, m, k, ss, acts, x, y);
  }

  /** One more round of a quiet network settles all port flags. */
  lemma RoundSettles(g: Graph, m: Addr, k: nat, s: Net, s': Net)
    requires Valid(g) && Centre(g, m, k) && OneRound(m, s, s')
    requires PathInv(g, s) && AllLearned(g, s) && Quiet(g, s)
    ensures Settled(g, s')
  {
    assert PathInv(g, s') && AllLearned(g, s') && PacketsCurrent(s') by { RoundKeeps(g, m, s, s'); }
    assert Quiet(g, s') by { RoundStaysQuiet(g, m, s, s'); }
    forall x, y | Linked(g, x, y) ensures FlagOk(s', x, y) {
      RoundSetsFlag(g, m, k, s, s', x, y);
    }
  }

  /** From the initial state: the first drain, then `k` rounds where `k` bounds the distance from the
      lowest address, one round for the parents and one for the port flags. */
  lemma NetworkSettles(g: Graph, m: Addr, k: nat, s0: Net, s1: Net, s2: Net, s3: Net)
    requires Valid(g) && Centre(g, m, k)
    requires CalmReachable(g, s0) && Drained(s0)
    requires Rounds(m, s0, s1, k) && OneRound(m, s1, s2) && OneRound(m, s2, s3)
    ensures Settled(g, s3)
  {
    CentreIsLowest(g, m, k);
    FirstDrainLearns(g, s0);
    BoundedConvergence(g, m, s0, s1, k);
    RoundMakesQuiet(g, m, k, s1, s2);
    RoundKeeps(g, m, s1, s2);
    RoundSettles(g, m, k, s2, s3);
  }

  // --------------------------------------------------------- settled is forever

  lemma SettledTake(g: Graph, s: Net, a: Action)
    requires Settled(g, s) && TakesStp(s, a)
    ensures a.from in s.nodes && Linked(g, a.to, a.from) && Head(s, a).adv == CurrentAdv(s, a.from)
    ensures HandleStp(s.nodes[a.to], a.from, Head(s, a).adv) == s.nodes[a.to]
    ensures Advertises(s, a) <==> a.from == s.nodes[a.to].next
  {
    var x, y := a.to, a.from;
    assert (y, x) in Darts(g) && Linked(g, x, y) && Stp(Head(s, a).adv) in s.chan[(y, x)];
    assert FlagOk(s, x, y);
    CurrentSetsFlag(g, s, x, y);
    assert QuietLink(s, x, y);
    if y == s.nodes[x].next {
      assert NodeOk(g, x, s.nodes[x]);
      QuietParent(g, s, x);
    }
  }

  /** Whatever happens short of a re-election, a settled network keeps all node states and port flags. */
  lemma SettledStep(g: Graph, s: Net, a: Action, s': Net)
    requires Settled(g, s) && Step(s, a, s') && !a.Reelect?
    ensures s'.nodes == s.nodes && Settled(g, s')
  {
    if TakesStp(s, a) {
      SettledTake(g, s, a);
    }
    assert s'.nodes == s.nodes;
    StepPath(g, s, a, s');
    QuietByTriples(g, s, s');
    SettledPackets(g, s, a, s');
    forall x, y | Linked(g, x, y) ensures FlagOk(s', x, y) {
      assert FlagOk(s, x, y);
    }
  }

  lemma SettledPackets(g: Graph, s: Net, a: Action, s': Net)
    requires Settled(g, s) && Step(s, a, s') && s'.nodes == s.nodes && PathInv(g, s')
    ensures PacketsCurrent(s')
  {
    forall d, adv | d in s'.chan && Stp(adv) in s'.chan[d] ensures d.0 in s'.nodes && adv == CurrentAdv(s', d.0) {
      PacketOrigin(s, a, s', d, Stp(adv));
      if Stp(adv) !in s.chan[d] {
        AdvertExact(g, s', d.0);
      }
    }
  }

  lemma {:induction false} SettledRun(g: Graph, ss: seq<Net>, acts: seq<Action>, i: nat)
    requires IsRun(ss, acts) && Settled(g, ss[0]) && Calm(acts) && i <= |acts|
    ensures Settled(g, ss[i]) && ss[i].nodes == ss[0].nodes
  {
    if i > 0 {
      SettledRun(g, ss, acts, i - 1);
      assert StepAt(ss, acts, i - 1);
      SettledStep(g, ss[i - 1], acts[i - 1], ss[i]);
    }
  }

  /** In a settled network the links open at both ends are exactly the tree's; links between equal
      depths are closed at both ends, and other uplinks are closed at the deeper end only. */
  lemma OpenLinksAreTheTree(g: Graph, s: Net, u: Addr, v: Addr)
    requires Settled(g, s) && Linked(g, u, v)
    ensures u in s.nodes && v in s.nodes
    ensures var n, k := s.nodes[u], s.nodes[v];
            && ((v in n.open && u in k.open) <==> (n.next == v || k.next == u))
            && (n.dist == k.dist ==> v !in n.open && u !in k.open)
            && (k.dist == n.dist + 1 && k.next != u ==> v in n.open && u !in k.open)
            && (n.dist == k.dist || n.dist == k.dist + 1 || k.dist == n.dist + 1)
  {
    assert Linked(g, v, u);
    assert FlagOk(s, u, v) && FlagOk(s, v, u);
    QuietBothWays(g, s, u, v);
    assert NodeOk(g, u, s.nodes[u]) && NodeOk(g, v, s.nodes[v]);
    if s.nodes[u].next == v {
      QuietParent(g, s, u);
    }
    if s.nodes[v].next == u {
      QuietParent(g, s, v);
    }
  }

  // -------------------------------------------------------------- one echo per hello

  /** How often `u` advertised in the first `k` steps. */
  ghost function Adverts(ss: seq<Net>, acts: seq<Action>, k: nat, u: Addr): nat
    requires IsRun(ss, acts) && k <= |acts|
  {
    if k == 0 then 0
    else
      assert StepAt(ss, acts, k - 1);
      Adverts(ss, acts, k - 1, u) + (if Actor(acts[k - 1]) == u && Advertises(ss[k - 1], acts[k - 1]) then 1 else 0)
  }

  /** How many advertisements were delivered over `d` in the first `k` steps. */
  ghost function Delivered(ss: seq<Net>, acts: seq<Action>, k: nat, d: Dart): nat
    requires IsRun(ss, acts) && k <= |acts|
  {
    if k == 0 then 0
    else
      Delivered(ss, acts, k - 1, d)
      + (if TakesStp(ss[k - 1], acts[k - 1]) && acts[k - 1] == Deliver(d.0, d.1) then 1 else 0)
  }

  ghost function StpCount(c: seq<Packet>): (r: nat)
    ensures r <= |c|
  {
    if c == [] then 0 else (if c[0].Stp? then 1 else 0) + StpCount(c[1..])
  }

  lemma {:induction false} StpCountAppend(c: seq<Packet>, p: Packet)
    ensures StpCount(c + [p]) == StpCount(c) + (if p.Stp? then 1 else 0)
  {
    if c == [] {
      assert c + [p] == [p];
    } else {
      StpCountAppend(c[1..], p);
      assert (c + [p])[1..] == c[1..] + [p];
    }
  }

  lemma {:induction false} StpCountZero(c: seq<Packet>)
    requires forall a :: Stp(a) !in c
    ensures StpCount(c) == 0
  {
    if c != [] {
      assert c[0] in c;
      StpCountZero(c[1..]);
    }
  }

  /** Advertisements are neither lost nor duplicated by a step. */
  lemma CountStep(s: Net, a: Action, s': Net, d: Dart)
    requires Step(s, a, s') && d in s.chan
    ensures d in s'.chan
    ensures StpCount(s'.chan[d]) + (if TakesStp(s, a) && a == Deliver(d.0, d.1) then 1 else 0)
         == StpCount(s.chan[d]) + (if Actor(a) == d.0 && Advertises(s, a) then 1 else 0)
  {
    var rest, sent := Rest(s, a, d), Sent(s, a, d);
    assert s'.chan[d] == rest + sent;
    if sent == [] {
      assert rest + sent == rest;
    } else {
      StpCountAppend(rest, sent[0]);
    }
  }

  /** On every channel: in flight plus delivered equals what was there plus what was advertised. */
  lemma {:induction false} Conservation(ss: seq<Net>, acts: seq<Action>, k: nat, d: Dart)
    requires IsRun(ss, acts) && k <= |acts| && d in ss[0].chan
    ensures d in ss[k].chan
    ensures StpCount(ss[k].chan[d]) + Delivered(ss, acts, k, d) == StpCount(ss[0].chan[d]) + Adverts(ss, acts, k, d.0)
  {
    if k > 0 {
      Conservation(ss, acts, k - 1, d);
      assert StepAt(ss, acts, k - 1);
      CountStep(ss[k - 1], acts[k - 1], ss[k], d);
    }
  }

  /** A run in which the only timer event is one hello of `m`, at the start. */
  ghost predicate OneHello(m: Addr, acts: seq<Action>) {
    |acts| > 0 && acts[0] == Hello(m) && forall i | 1 <= i < |acts| :: acts[i].Deliver? || acts[i].UserFlood?
  }

  /** Step `i` makes `x` advertise exactly if it delivers the advertisement of `p`, if `x` has a parent `p`. */
  ghost predicate EchoAt(ss: seq<Net>, acts: seq<Action>, p: Addr, x: Addr, i: int)
    requires IsRun(ss, acts)
  {
    1 <= i < |acts| ==>
      && Enabled(ss[i], acts[i])
      && (Actor(acts[i]) == x && Advertises(ss[i], acts[i]) <==> p != x && TakesStp(ss[i], acts[i]) && acts[i] == Deliver(p, x))
  }

  /** In a settled network, a step other than a timer makes `x` advertise exactly if it delivers the
      advertisement of x's parent; the root never advertises so. */
  lemma EchoStep(g: Graph, s: Net, a: Action, x: Addr)
    requires Settled(g, s) && Enabled(s, a) && (a.Deliver? || a.UserFlood?) && x in g.nbrs
    ensures var p := s.nodes[x].next;
            Actor(a) == x && Advertises(s, a) <==> p != x && TakesStp(s, a) && a == Deliver(p, x)
  {
    if TakesStp(s, a) {
      SettledTake(g, s, a);
      assert a.from != a.to by { assert (a.from, a.to) in Darts(g); }
    }
  }

  lemma EchoInRun(g: Graph, m: Addr, ss: seq<Net>, acts: seq<Action>, x: Addr, i: int)
    requires IsRun(ss, acts) && Settled(g, ss[0]) && OneHello(m, acts) && x in g.nbrs
    ensures EchoAt(ss, acts, ss[0].nodes[x].next, x, i)
  {
    if 1 <= i < |acts| {
      assert Settled(g, ss[i]) && ss[i].nodes == ss[0].nodes by { SettledRun(g, ss, acts, i); }
      assert Enabled(ss[i], acts[i]) by { assert StepAt(ss, acts, i); }
      EchoStep(g, ss[i], acts[i], x);
    }
  }

  lemma {:induction false} CountEchoes(ss: seq<Net>, acts: seq<Action>, p: Addr, x: Addr, k: nat)
    requires IsRun(ss, acts) && 1 <= k <= |acts| && forall i {:trigger EchoAt(ss, acts, p, x, i)} :: EchoAt(ss, acts, p, x, i)
    ensures Adverts(ss, acts, k, x) == Adverts(ss, acts, 1, x) + if p == x then 0 else Delivered(ss, acts, k, (p, x)) - Delivered(ss, acts, 1, (p, x))
  {
    if k > 1 {
      CountEchoes(ss, acts, p, x, k - 1);
      assert EchoAt(ss, acts, p, x, k - 1);
    }
  }

  lemma FirstIsHello(m: Addr, ss: seq<Net>, acts: seq<Action>, p: Addr, x: Addr)
    requires IsRun(ss, acts) && OneHello(m, acts)
    ensures Adverts(ss, acts, 1, x) == (if x == m then 1 else 0) && Delivered(ss, acts, 1, (p, x)) == 0
  {
    assert StepAt(ss, acts, 0);
    assert Adverts(ss, acts, 0, x) == 0 && Delivered(ss, acts, 0, (p, x)) == 0;
  }

  /** Every other node advertises exactly as often as its parent's advertisement reaches it. */
  lemma EchoesFollowParent(g: Graph, m: Addr, ss: seq<Net>, acts: seq<Action>, k: nat, x: Addr)
    requires IsRun(ss, acts) && Settled(g, ss[0]) && OneHello(m, acts) && 1 <= k <= |acts|
    requires x in g.nbrs
    ensures x != m && ss[0].nodes[x].next != x ==> Adverts(ss, acts, k, x) == Delivered(ss, acts, k, (ss[0].nodes[x].next, x))
    ensures x == m && ss[0].nodes[m].next == m ==> Adverts(ss, acts, k, m) == 1
  {
    var p := ss[0].nodes[x].next;
    forall i ensures EchoAt(ss, acts, p, x, i) {
      EchoInRun(g, m, ss, acts, x, i);
    }
    CountEchoes(ss, acts, p, x, k);
    FirstIsHello(m, ss, acts, p, x);
  }

  /** In a settled, drained network one hello of the root makes every node advertise exactly once. */
  lemma {:induction false} OneAdvertEach(g: Graph, m: Addr, ss: seq<Net>, acts: seq<Action>, x: Addr)
    requires IsRun(ss, acts) && Settled(g, ss[0]) && Drained(ss[0]) && OneHello(m, acts) && Drained(ss[|acts|])
    requires x in g.nbrs && ss[0].nodes[x].root == m && m in g.nbrs && ss[0].nodes[m].root == m
    ensures Adverts(ss, acts, |acts|, x) == 1
    decreases ss[0].nodes[x].dist
  {
    var s0, n := ss[0], |acts|;
    EchoesFollowParent(g, m, ss, acts, n, x);
    if x != m {
      var p := s0.nodes[x].next;
      assert NodeOk(g, x, s0.nodes[x]);
      QuietParent(g, s0, x);
      assert (p, x) in s0.chan by { assert (p, x) in Darts(g); }
      OneAdvertEach(g, m, ss, acts, p);
      Conservation(ss, acts, n, (p, x));
      StpCountZero(s0.chan[(p, x)]);
      StpCountZero(ss[n].chan[(p, x)]);
    }
  }

  /** Between drained states everything advertised is delivered. */
  lemma AllDelivered(ss: seq<Net>, acts: seq<Action>, d: Dart)
    requires IsRun(ss, acts) && Drained(ss[0]) && Drained(ss[|acts|]) && d in ss[0].chan
    ensures Delivered(ss, acts, |acts|, d) == Adverts(ss, acts, |acts|, d.0)
  {
    Conservation(ss, acts, |acts|, d);
    StpCountZero(ss[0].chan[d]);
    StpCountZero(ss[|acts|].chan[d]);
  }

  /** One hello: each node advertises once, each directed link carries exactly one advertisement,
      and no node state or port flag changes. */
  lemma OneEchoPerHello(g: Graph, m: Addr, ss: seq<Net>, acts: seq<Action>, d: Dart)
    requires IsRun(ss, acts) && Settled(g, ss[0]) && Drained(ss[0]) && OneHello(m, acts) && Drained(ss[|acts|])
    requires m in g.nbrs && ss[0].nodes[m].root == m
    requires d in Darts(g) && ss[0].nodes[d.0].root == m
    ensures Adverts(ss, acts, |acts|, d.0) == 1 && Delivered(ss, acts, |acts|, d) == 1
    ensures ss[|acts|].nodes == ss[0].nodes
  {
    var n := |acts|;
    assert Adverts(ss, acts, n, d.0) == 1 by { OneAdvertEach(g, m, ss, acts, d.0); }
    assert Delivered(ss, acts, n, d) == 1 by {
      DartIsChannel(g, ss[0], d);
      AllDelivered(ss, acts, d);
    }
    assert ss[n].nodes == ss[0].nodes by { NodesStay(g, m, ss, acts); }
  }

  lemma DartIsChannel(g: Graph, s: Net, d: Dart)
    requires WellFormed(g, s) && d in Darts(g)
    ensures d in s.chan && d.0 in g.nbrs
  {
  }

  lemma NodesStay(g: Graph, m: Addr, ss: seq<Net>, acts: seq<Action>)
    requires IsRun(ss, acts) && Settled(g, ss[0]) && OneHello(m, acts)
    ensures ss[|acts|].nodes == ss[0].nodes
  {
    SettledRun(g, ss, acts, |acts|);
  }

  ghost function DeliveredMap(ss: seq<Net>, acts: seq<Action>, k: nat): map<Dart, nat>
    requires IsRun(ss, acts) && k <= |acts|
  {
    map d | d in ss[0].chan :: Delivered(ss, acts, k, d)
  }

  lemma {:induction false} SameChannels(ss: seq<Net>, acts: seq<Action>, i: nat)
    requires IsRun(ss, acts) && i <= |acts|
    ensures ss[i].chan.Keys == ss[0].chan.Keys
  {
    if i > 0 {
      SameChannels(ss, acts, i - 1);
      assert StepAt(ss, acts, i - 1);
    }
  }

  lemma {:induction false} DeliveriesAddUp(ss: seq<Net>, acts: seq<Action>, k: nat)
    requires IsRun(ss, acts) && k <= |acts|
    ensures Sums.Hits(StpDrain.StpHits(ss, acts), k) == Sums.Sum(DeliveredMap(ss, acts, k))
  {
    if k == 0 {
      Sums.AllZero(DeliveredMap(ss, acts, 0));
    } else {
      DeliveriesAddUp(ss, acts, k - 1);
      SameChannels(ss, acts, k - 1);
      var s, a := ss[k - 1], acts[k - 1];
      var key := if a.Deliver? then (a.from, a.to) else (0, 0);
      Sums.LowerIf(DeliveredMap(ss, acts, k), DeliveredMap(ss, acts, k - 1), key, TakesStp(s, a));
    }
  }

  /** In a settled, drained network of one component, one hello costs one packet per directed link in all. */
  lemma HelloCost(g: Graph, m: Addr, k: nat, ss: seq<Net>, acts: seq<Action>)
    requires IsRun(ss, acts) && Settled(g, ss[0]) && Drained(ss[0]) && OneHello(m, acts) && Drained(ss[|acts|])
    requires Centre(g, m, k)
    ensures StpDrain.StpDeliveries(ss, acts) == |Darts(g)|
  {
    var n := |acts|;
    DeliveriesAddUp(ss, acts, n);
    forall d | d in ss[0].chan ensures Delivered(ss, acts, n, d) == 1 {
      QuietIsCorrect(g, m, k, ss[0], m);
      QuietIsCorrect(g, m, k, ss[0], d.0);
      OneEchoPerHello(g, m, ss, acts, d);
    }
    Sums.AllOne(DeliveredMap(ss, acts, n));
    assert DeliveredMap(ss, acts, n).Keys == Darts(g);
    assert |DeliveredMap(ss, acts, n)| == |DeliveredMap(ss, acts, n).Keys|;
  }
}
