/** Bounded convergence: each round of root hellos carries the lowest root one hop further. */
module StpConverge {
  import opened Overlay
  import opened NodeModel
  import opened Network
  import opened StpInvariants
  import opened StpStable
  import opened Runs

  /** u knows root `m` and its hop distance from `m`. */
  ghost predicate CorrectAt(g: Graph, s: Net, m: Addr, u: Addr)
    requires s.nodes.Keys == g.nbrs.Keys
  {
    u in g.nbrs && s.nodes[u].root == m && HopDist(g, m, u, s.nodes[u].dist)
  }

  /** Everyone within `k` hops of `m` is correct. */
  ghost predicate Converged(g: Graph, s: Net, m: Addr, k: nat)
    requires s.nodes.Keys == g.nbrs.Keys
  {
    forall u {:trigger CorrectAt(g, s, m, u)} | Within(g, m, u, k) :: CorrectAt(g, s, m, u)
  }

  /** A calm run during which `m` sends a hello, and which ends drained.
      Hellos of other nodes, FLOODs and deliveries may be interleaved at will. */
  ghost predicate IsRound(m: Addr, ss: seq<Net>, acts: seq<Action>, h: nat) {
    && IsRun(ss, acts) && Calm(acts)
    && h < |acts| && acts[h] == Hello(m)
    && Drained(ss[|acts|])
  }

  ghost predicate OneRound(m: Addr, s: Net, s': Net) {
    exists ss, acts, h :: IsRound(m, ss, acts, h) && ss[0] == s && ss[|acts|] == s'
  }

  ghost predicate Rounds(m: Addr, s: Net, s': Net, k: nat)
    decreases k
  {
    if k == 0 then s == s'
    else exists mid :: Rounds(m, s, mid, k - 1) && OneRound(m, mid, s')
  }

  // -------------------------------------------------------- correct is forever

  /** Nobody connected to the lowest address ever has a lower root. */
  lemma RootFloor(g: Graph, s: Net, m: Addr, u: Addr)
    requires Valid(g) && PathInv(g, s) && LowestOfComponent(g, m) && Connected(g, m, u)
    ensures u in g.nbrs && m <= s.nodes[u].root
  {
    var p :| PathFromTo(g, p, m, u);
    PathNodes(g, p);
    assert NodeWitnessed(g, s, u);
    var w :| IsWitness(g, s, w, s.nodes[u].root, s.nodes[u].dist, u);
    ReversePath(g, w, s.nodes[u].root, u);
    var q :| PathFromTo(g, q, u, s.nodes[u].root);
    JoinPaths(g, p, q, m, u, s.nodes[u].root);
    assert Connected(g, m, s.nodes[u].root);
  }

  /** With the right root, a path length that no path undercuts is the hop distance. */
  lemma CorrectIf(g: Graph, s: Net, m: Addr, u: Addr)
    requires Valid(g) && PathInv(g, s) && u in g.nbrs && s.nodes[u].root == m
    requires NoShorter(g, m, u, s.nodes[u].dist)
    ensures CorrectAt(g, s, m, u)
  {
    assert NodeWitnessed(g, s, u);
    var w :| IsWitness(g, s, w, m, s.nodes[u].dist, u);
    assert PathFromTo(g, w, m, u) && |w| == s.nodes[u].dist + 1;
  }

  lemma CorrectConnected(g: Graph, s: Net, m: Addr, u: Addr)
    requires s.nodes.Keys == g.nbrs.Keys && CorrectAt(g, s, m, u)
    ensures Connected(g, m, u)
  {
    var p :| PathFromTo(g, p, m, u) && |p| == s.nodes[u].dist + 1;
  }

  lemma CorrectKept(g: Graph, s: Net, s': Net, m: Addr, u: Addr)
    requires Valid(g) && LowestOfComponent(g, m) && PathInv(g, s') && Progress(g, s, s')
    requires CorrectAt(g, s, m, u)
    ensures CorrectAt(g, s', m, u) && s'.nodes[u].dist == s.nodes[u].dist
  {
    CorrectConnected(g, s, m, u);
    RootFloor(g, s', m, u);
    assert NoWorse(s.nodes[u], s'.nodes[u]);
    assert NodeWitnessed(g, s', u);
    var w :| IsWitness(g, s', w, m, s'.nodes[u].dist, u);
    assert PathFromTo(g, w, m, u);
  }

  /** A correct node's parent is correct and one hop closer. */
  lemma CorrectParent(g: Graph, s: Net, m: Addr, u: Addr)
    requires Valid(g) && LowestOfComponent(g, m) && PathInv(g, s)
    requires CorrectAt(g, s, m, u) && u != m
    ensures var p := s.nodes[u].next;
            CorrectAt(g, s, m, p) && s.nodes[p].dist + 1 == s.nodes[u].dist && Linked(g, p, u)
  {
    var p := s.nodes[u].next;
    assert NodeOk(g, u, s.nodes[u]) && ParentCloser(g, s, u);
    assert Linked(g, u, p) && Linked(g, p, u);
    CorrectConnected(g, s, m, u);
    var q :| PathFromTo(g, q, m, u);
    ExtendPath(g, q, m, u, p);
    assert Connected(g, m, p);
    RootFloor(g, s, m, p);
    ParentNoShorter(g, s, m, u, p);
    CorrectIf(g, s, m, p);
    var w :| PathFromTo(g, w, m, p) && |w| == s.nodes[p].dist + 1;
    ExtendPath(g, w, m, p, u);
  }

  lemma ParentNoShorter(g: Graph, s: Net, m: Addr, u: Addr, p: Addr)
    requires s.nodes.Keys == g.nbrs.Keys && Linked(g, p, u) && u in g.nbrs
    requires NoShorter(g, m, u, s.nodes[u].dist) && s.nodes[p].dist < s.nodes[u].dist
    ensures NoShorter(g, m, p, s.nodes[p].dist)
  {
    forall q | PathFromTo(g, q, m, p) ensures s.nodes[p].dist <= |q| - 1 {
      ExtendPath(g, q, m, p, u);
    }
  }

  // ------------------------------------------------------------ within a round

  /** `core` is a set of correct nodes of `s0`, closed under parents. */
  ghost predicate IsCore(m: Addr, s0: Net, core: set<Addr>) {
    && m in core
    && (forall y | y in core :: y in s0.nodes && s0.nodes[y].root == m && s0.nodes[y].dist < 0x1_0000)
    && (forall y | y in core && y != m :: ParentInCore(s0, core, y))
  }

  ghost predicate ParentInCore(s0: Net, core: set<Addr>, y: Addr)
    requires y in s0.nodes
  {
    var p := s0.nodes[y].next;
    p in core && p in s0.nodes && s0.nodes[p].dist + 1 == s0.nodes[y].dist && (p, y) in s0.chan
  }

  /** The core still knows what it knew. */
  ghost predicate Frozen(m: Addr, s0: Net, core: set<Addr>, s: Net) {
    && s.nodes.Keys == s0.nodes.Keys && s.chan.Keys == s0.chan.Keys
    && forall y | y in core && y in s0.nodes :: s.nodes[y].root == m && s.nodes[y].dist == s0.nodes[y].dist
  }

  /** What `y` advertised at the start of the round. */
  ghost function Claim(s0: Net, m: Addr, y: Addr): Packet
    requires y in s0.nodes
  {
    Stp(Adv(m, s0.nodes[y].dist, y))
  }

  /** x has taken y's claim into account, or it is still on its way. */
  ghost predicate Heard(m: Addr, s0: Net, s: Net, y: Addr, x: Addr) {
    y in s0.nodes && (y, x) in s.chan && x in s.nodes ==>
      Le3(s.nodes[x], m, s0.nodes[y].dist + 1, y) || Claim(s0, m, y) in s.chan[(y, x)]
  }

  /** y has kept its parent, and if that has advertised, the claim has not reached y yet. */
  ghost predicate Awaits(m: Addr, s0: Net, s: Net, sent: set<Addr>, y: Addr)
    requires y in s.nodes && y in s0.nodes
  {
    var p := s0.nodes[y].next;
    && s.nodes[y].next == p
    && (p in sent ==> p in s0.nodes && (p, y) in s.chan && Claim(s0, m, p) in s.chan[(p, y)])
  }

  /** `sent`: the core nodes that have advertised since the hello of `m` in state `s0`. */
  ghost predicate RoundInv(m: Addr, s0: Net, core: set<Addr>, s: Net, sent: set<Addr>) {
    && Frozen(m, s0, core, s)
    && m in sent && sent <= core
    && (forall y, x {:trigger Heard(m, s0, s, y, x)} | y in sent :: Heard(m, s0, s, y, x))
    && (forall y {:trigger Awaits(m, s0, s, sent, y)} | y in core && y !in sent && y in s.nodes && y in s0.nodes
          :: Awaits(m, s0, s, sent, y))
  }

  lemma HeardKept(m: Addr, s0: Net, s: Net, a: Action, s': Net, y: Addr, x: Addr)
    requires Step(s, a, s') && y in s0.nodes && (y, x) in s.chan && x in s.nodes && Heard(m, s0, s, y, x)
    requires y in s.nodes[x].learned && NoWorse(s.nodes[x], s'.nodes[x])
    ensures Heard(m, s0, s', y, x)
  {
    assert s'.chan[(y, x)] == Rest(s, a, (y, x)) + Sent(s, a, (y, x));
    if a == Deliver(y, x) && Head(s, a) == Claim(s0, m, y) {
      HandleStpOrder(s.nodes[x], y, Head(s, a).adv);
    }
  }

  /** A core node that advertises sends its claim to every neighbour. */
  lemma AdvertisesClaim(m: Addr, s0: Net, core: set<Addr>, s: Net, a: Action, s': Net, y: Addr, x: Addr)
    requires IsCore(m, s0, core) && Frozen(m, s0, core, s') && Step(s, a, s')
    requires y in core && y == Actor(a) && Advertises(s, a) && (y, x) in s.chan
    ensures (y, x) in s'.chan && Claim(s0, m, y) in s'.chan[(y, x)]
  {
    assert s'.chan[(y, x)] == Rest(s, a, (y, x)) + [Stp(Advert(y, s'.nodes[y]))];
  }

  /** The core nodes that have advertised, after one more step. */
  ghost function SentAfter(core: set<Addr>, s: Net, a: Action, sent: set<Addr>): set<Addr>
    requires Enabled(s, a)
  {
    if Advertises(s, a) && Actor(a) in core then sent + {Actor(a)} else sent
  }

  /** A node that stays silent keeps its parent. */
  lemma SilentKeepsParent(s: Net, a: Action, s': Net, y: Addr)
    requires Step(s, a, s') && !a.Reelect? && y in s.nodes && !(y == Actor(a) && Advertises(s, a))
    ensures y in s'.nodes && s'.nodes[y].next == s.nodes[y].next
  {
  }

  /** Taking the parent's claim would have been an echo. */
  lemma AwaitedStays(m: Addr, s0: Net, core: set<Addr>, s: Net, a: Action, s': Net, sent: set<Addr>, y: Addr)
    requires IsCore(m, s0, core) && Frozen(m, s0, core, s) && Step(s, a, s')
    requires y in core && y != m && Awaits(m, s0, s, sent, y) && s0.nodes[y].next in sent
    requires !(y == Actor(a) && Advertises(s, a))
    ensures var p := s0.nodes[y].next; (p, y) in s'.chan && Claim(s0, m, p) in s'.chan[(p, y)]
  {
    var p := s0.nodes[y].next;
    assert ParentInCore(s0, core, y);
    assert s'.chan[(p, y)] == Rest(s, a, (p, y)) + Sent(s, a, (p, y));
    assert a == Deliver(p, y) ==> Head(s, a) != Claim(s0, m, p);
  }

  lemma AwaitsKept(m: Addr, s0: Net, core: set<Addr>, s: Net, a: Action, s': Net, sent: set<Addr>, y: Addr)
    requires IsCore(m, s0, core) && RoundInv(m, s0, core, s, sent) && Frozen(m, s0, core, s')
    requires Step(s, a, s') && !a.Reelect?
    requires y in core && y !in SentAfter(core, s, a, sent)
    ensures y in s0.nodes && y in s'.nodes && Awaits(m, s0, s', SentAfter(core, s, a, sent), y)
  {
    SilentKeepsParent(s, a, s', y);
    assert Awaits(m, s0, s, sent, y) && ParentInCore(s0, core, y);
    var p := s0.nodes[y].next;
    if p in sent {
      AwaitedStays(m, s0, core, s, a, s', sent, y);
    } else if p in SentAfter(core, s, a, sent) {
      AdvertisesClaim(m, s0, core, s, a, s', p, y);
    }
  }

  /** x has learned the port to y and does not get worse in the step. */
  ghost predicate Listening(s: Net, s': Net, y: Addr, x: Addr) {
    (y, x) in s.chan ==> x in s.nodes && x in s'.nodes && y in s.nodes[x].learned && NoWorse(s.nodes[x], s'.nodes[x])
  }

  ghost predicate AllListening(s: Net, s': Net) {
    forall y, x {:trigger Listening(s, s', y, x)} :: Listening(s, s', y, x)
  }

  lemma HeardStep(m: Addr, s0: Net, core: set<Addr>, s: Net, a: Action, s': Net, sent: set<Addr>, y: Addr, x: Addr)
    requires IsCore(m, s0, core) && RoundInv(m, s0, core, s, sent) && Frozen(m, s0, core, s') && Step(s, a, s')
    requires y in SentAfter(core, s, a, sent) && Listening(s, s', y, x)
    ensures Heard(m, s0, s', y, x)
  {
    if (y, x) in s.chan {
      if y in sent {
        assert Heard(m, s0, s, y, x);
        HeardKept(m, s0, s, a, s', y, x);
      } else {
        AdvertisesClaim(m, s0, core, s, a, s', y, x);
      }
    }
  }

  lemma RoundStep(m: Addr, s0: Net, core: set<Addr>, s: Net, a: Action, s': Net, sent: set<Addr>)
    requires AllListening(s, s')
    requires IsCore(m, s0, core) && RoundInv(m, s0, core, s, sent) && Frozen(m, s0, core, s')
    requires Step(s, a, s') && !a.Reelect?
    ensures RoundInv(m, s0, core, s', SentAfter(core, s, a, sent))
  {
    var sent' := SentAfter(core, s, a, sent);
    forall y, x | y in sent' ensures Heard(m, s0, s', y, x) {
      assert Listening(s, s', y, x);
      HeardStep(m, s0, core, s, a, s', sent, y, x);
    }
    forall y | y in core && y !in sent' && y in s'.nodes && y in s0.nodes ensures Awaits(m, s0, s', sent', y) {
      AwaitsKept(m, s0, core, s, a, s', sent, y);
    }
  }

  /** The hello itself starts the round. */
  lemma RoundStart(m: Addr, s0: Net, core: set<Addr>, s: Net)
    requires IsCore(m, s0, core) && Step(s0, Hello(m), s)
    ensures RoundInv(m, s0, core, s, {m})
  {
    assert Frozen(m, s0, core, s);
    forall x: Addr ensures Heard(m, s0, s, m, x) {
      if (m, x) in s.chan {
        AdvertisesClaim(m, s0, core, s0, Hello(m), s, m, x);
      }
    }
    forall y | y in core && y != m && y in s.nodes && y in s0.nodes ensures Awaits(m, s0, s, {m}, y) {
      assert ParentInCore(s0, core, y);
      if s0.nodes[y].next == m {
        AdvertisesClaim(m, s0, core, s0, Hello(m), s, m, y);
      }
    }
  }

  /** At the end of the round the whole core has advertised. */
  lemma {:induction false} AllSent(m: Addr, s0: Net, core: set<Addr>, s: Net, sent: set<Addr>, y: Addr)
    requires IsCore(m, s0, core) && RoundInv(m, s0, core, s, sent) && Drained(s) && y in core
    ensures y in sent
    decreases s0.nodes[y].dist
  {
    if y != m {
      assert ParentInCore(s0, core, y);
      AllSent(m, s0, core, s, sent, s0.nodes[y].next);
      assert y !in sent ==> Awaits(m, s0, s, sent, y);
    }
  }

  lemma HeardAtEnd(m: Addr, s0: Net, core: set<Addr>, s: Net, sent: set<Addr>, y: Addr, x: Addr)
    requires IsCore(m, s0, core) && RoundInv(m, s0, core, s, sent) && Drained(s) && y in core
    requires (y, x) in s.chan && x in s.nodes
    ensures Le3(s.nodes[x], m, s0.nodes[y].dist + 1, y)
  {
    AllSent(m, s0, core, s, sent, y);
    assert Heard(m, s0, s, y, x);
  }

  // ------------------------------------------------------------- whole rounds

  /** The lowest address is always correct about itself. */
  lemma LowestIsCorrect(g: Graph, s: Net, m: Addr)
    requires Valid(g) && LowestOfComponent(g, m) && PathInv(g, s)
    ensures CorrectAt(g, s, m, m) && s.nodes[m].dist == 0
  {
    assert PathFromTo(g, [m], m, m);
    assert Connected(g, m, m);
    RootFloor(g, s, m, m);
    assert NodeOk(g, m, s.nodes[m]);
    CorrectIf(g, s, m, m);
  }

  ghost function Correct(g: Graph, s: Net, m: Addr): set<Addr>
    requires s.nodes.Keys == g.nbrs.Keys
  {
    set u | u in g.nbrs && CorrectAt(g, s, m, u)
  }

  lemma CorrectIsCore(g: Graph, s: Net, m: Addr)
    requires Valid(g) && LowestOfComponent(g, m) && PathInv(g, s)
    ensures IsCore(m, s, Correct(g, s, m))
  {
    var core := Correct(g, s, m);
    LowestIsCorrect(g, s, m);
    forall y | y in core ensures y in s.nodes && s.nodes[y].root == m && s.nodes[y].dist < 0x1_0000 {
      assert NodeWitnessed(g, s, y);
      WitnessShort(g, s, m, s.nodes[y].dist, y);
    }
    forall y | y in core && y != m ensures ParentInCore(s, core, y) {
      CorrectParent(g, s, m, y);
      assert (s.nodes[y].next, y) in Darts(g);
    }
  }

  lemma CorrectIsFrozen(g: Graph, s0: Net, s: Net, m: Addr)
    requires Valid(g) && LowestOfComponent(g, m) && WellFormed(g, s0) && PathInv(g, s) && Progress(g, s0, s)
    ensures Frozen(m, s0, Correct(g, s0, m), s)
  {
    forall y | y in Correct(g, s0, m) ensures s.nodes[y].root == m && s.nodes[y].dist == s0.nodes[y].dist {
      CorrectKept(g, s0, s, m, y);
    }
  }

  lemma LearnedKept(g: Graph, s: Net, s': Net)
    requires s.nodes.Keys == g.nbrs.Keys && AllLearned(g, s) && Progress(g, s, s')
    ensures AllLearned(g, s')
  {
    forall u | u in g.nbrs ensures g.nbrs[u] <= s'.nodes[u].learned {
      assert NoWorse(s.nodes[u], s'.nodes[u]);
    }
  }

  lemma ListeningInRun(g: Graph, s: Net, s': Net)
    requires Valid(g) && WellFormed(g, s) && AllLearned(g, s) && Progress(g, s, s')
    ensures AllListening(s, s')
  {
    forall y: Addr, x: Addr ensures Listening(s, s', y, x) {
      if (y, x) in s.chan {
        assert (y, x) in Darts(g) && y in g.nbrs[x];
      }
    }
  }

  /** A run that starts with the hello keeps the round invariant. */
  lemma {:induction false} RoundRun(g: Graph, m: Addr, ss: seq<Net>, acts: seq<Action>, i: nat) returns (sent: set<Addr>)
    requires Valid(g) && LowestOfComponent(g, m) && IsRun(ss, acts) && Calm(acts)
    requires 0 < i <= |acts| && acts[0] == Hello(m) && PathInv(g, ss[0]) && AllLearned(g, ss[0])
    ensures RoundInv(m, ss[0], Correct(g, ss[0], m), ss[i], sent)
    decreases i
  {
    var core := Correct(g, ss[0], m);
    CorrectIsCore(g, ss[0], m);
    assert StepAt(ss, acts, i - 1);
    if i == 1 {
      RoundStart(m, ss[0], core, ss[1]);
      sent := {m};
    } else {
      sent := RoundRun(g, m, ss, acts, i - 1);
      RoundRunStep(g, m, ss, acts, i, sent);
      sent := SentAfter(core, ss[i - 1], acts[i - 1], sent);
    }
  }

  lemma RoundRunStep(g: Graph, m: Addr, ss: seq<Net>, acts: seq<Action>, i: nat, sent: set<Addr>)
    requires Valid(g) && LowestOfComponent(g, m) && IsRun(ss, acts) && Calm(acts)
    requires 1 < i <= |acts| && PathInv(g, ss[0]) && AllLearned(g, ss[0])
    requires IsCore(m, ss[0], Correct(g, ss[0], m))
    requires RoundInv(m, ss[0], Correct(g, ss[0], m), ss[i - 1], sent)
    ensures Enabled(ss[i - 1], acts[i - 1])
    ensures RoundInv(m, ss[0], Correct(g, ss[0], m), ss[i], SentAfter(Correct(g, ss[0], m), ss[i - 1], acts[i - 1], sent))
  {
    assert StepAt(ss, acts, i - 1);
    RunPath(g, ss, acts, i - 1);
    RunPath(g, ss, acts, i);
    LearnedKept(g, ss[0], ss[i - 1]);
    CorrectIsFrozen(g, ss[0], ss[i], m);
    StepProgress(g, ss[i - 1], acts[i - 1], ss[i]);
    ListeningInRun(g, ss[i - 1], ss[i]);
    RoundStep(m, ss[0], Correct(g, ss[0], m), ss[i - 1], acts[i - 1], ss[i], sent);
  }

  lemma SuffixRun(ss: seq<Net>, acts: seq<Action>, h: nat)
    requires IsRun(ss, acts) && Calm(acts) && h <= |acts|
    ensures IsRun(ss[h..], acts[h..]) && Calm(acts[h..])
  {
    forall i ensures StepAt(ss[h..], acts[h..], i) {
      assert StepAt(ss, acts, i + h);
    }
  }

  lemma SuffixRound(m: Addr, ss: seq<Net>, acts: seq<Action>, h: nat)
    requires IsRound(m, ss, acts, h)
    ensures IsRound(m, ss[h..], acts[h..], 0)
    ensures ss[h..][0] == ss[h] && |acts[h..]| == |acts| - h && ss[h..][|acts| - h] == ss[|acts|]
  {
    SuffixRun(ss, acts, h);
  }

  /** In a round that starts with the hello, every neighbour of a correct node hears it. */
  lemma HelloRoundHeard(g: Graph, m: Addr, ss: seq<Net>, acts: seq<Action>, y: Addr, x: Addr)
    requires Valid(g) && LowestOfComponent(g, m) && IsRound(m, ss, acts, 0)
    requires PathInv(g, ss[0]) && AllLearned(g, ss[0])
    requires CorrectAt(g, ss[0], m, y) && Linked(g, y, x)
    ensures WellFormed(g, ss[|acts|]) && x in g.nbrs
    ensures Le3(ss[|acts|].nodes[x], m, ss[0].nodes[y].dist + 1, y)
  {
    var s0, s := ss[0], ss[|acts|];
    assert WellFormed(g, s) by { RunPath(g, ss, acts, |acts|); }
    assert (y, x) in s.chan && x in s.nodes by { assert (y, x) in Darts(g); }
    var core := Correct(g, s0, m);
    assert IsCore(m, s0, core) by { CorrectIsCore(g, s0, m); }
    var sent := RoundRun(g, m, ss, acts, |acts|);
    assert y in core;
    HeardAtEnd(m, s0, core, s, sent, y, x);
  }

  /** The same for the hello anywhere in the round. */
  lemma RoundHeard(g: Graph, m: Addr, s: Net, s': Net, y: Addr, x: Addr)
    requires Valid(g) && LowestOfComponent(g, m) && OneRound(m, s, s')
    requires PathInv(g, s) && AllLearned(g, s)
    requires CorrectAt(g, s, m, y) && Linked(g, y, x)
    ensures WellFormed(g, s') && x in g.nbrs && Le3(s'.nodes[x], m, s.nodes[y].dist + 1, y)
  {
    var ss, acts, h :| IsRound(m, ss, acts, h) && ss[0] == s && ss[|acts|] == s';
    SuffixRound(m, ss, acts, h);
    RunPath(g, ss, acts, h);
    LearnedKept(g, s, ss[h]);
    CorrectKept(g, s, ss[h], m, y);
    HelloRoundHeard(g, m, ss[h..], acts[h..], y, x);
  }

  lemma RoundKeeps(g: Graph, m: Addr, s: Net, s': Net)
    requires Valid(g) && OneRound(m, s, s') && PathInv(g, s) && AllLearned(g, s)
    ensures PathInv(g, s') && AllLearned(g, s') && Progress(g, s, s') && Drained(s')
  {
    var ss, acts, h :| IsRound(m, ss, acts, h) && ss[0] == s && ss[|acts|] == s';
    RunPath(g, ss, acts, |acts|);
    LearnedKept(g, s, s');
  }

  /** A round takes a correct node's distance to its neighbours. */
  lemma NeighbourHears(g: Graph, m: Addr, s: Net, s': Net, y: Addr, u: Addr)
    requires Valid(g) && LowestOfComponent(g, m) && OneRound(m, s, s') && PathInv(g, s) && AllLearned(g, s) && PathInv(g, s')
    requires CorrectAt(g, s, m, y) && Linked(g, y, u) && Connected(g, m, u)
    ensures u in g.nbrs && s'.nodes[u].root == m && s'.nodes[u].dist <= s.nodes[y].dist + 1
  {
    RoundHeard(g, m, s, s', y, u);
    RootFloor(g, s', m, u);
  }

  /** If everybody within `k` hops is correct, a round gives a node at the end of any path `q`
      of at most `k + 1` links the right root and a path length no longer than `q`. */
  lemma OneHopFurther(g: Graph, m: Addr, s: Net, s': Net, k: nat, u: Addr, q: seq<Addr>)
    requires Valid(g) && LowestOfComponent(g, m) && OneRound(m, s, s')
    requires PathInv(g, s) && AllLearned(g, s) && PathInv(g, s')
    requires Converged(g, s, m, k) && PathFromTo(g, q, m, u) && |q| <= k + 2
    ensures u in g.nbrs && s'.nodes[u].root == m && s'.nodes[u].dist <= |q| - 1
  {
    if |q| == 1 {
      LowestIsCorrect(g, s', m);
    } else {
      var y := q[|q| - 2];
      assert CorrectAt(g, s, m, y) && s.nodes[y].dist <= |q| - 2 by { LastButOne(g, m, s, k, q); }
      assert Linked(g, y, u) by { assert LinkAt(g, q, |q| - 2); }
      assert Connected(g, m, u);
      NeighbourHears(g, m, s, s', y, u);
    }
  }

  lemma LastButOne(g: Graph, m: Addr, s: Net, k: nat, q: seq<Addr>)
    requires s.nodes.Keys == g.nbrs.Keys && Converged(g, s, m, k) && IsPath(g, q) && q[0] == m && 2 <= |q| <= k + 2
    ensures CorrectAt(g, s, m, q[|q| - 2]) && s.nodes[q[|q| - 2]].dist <= |q| - 2
  {
    PrefixPath(g, q, |q| - 1);
    assert Within(g, m, q[|q| - 2], k);
  }

  /** One round carries correctness one hop further. */
  lemma RoundConverges(g: Graph, m: Addr, s: Net, s': Net, k: nat)
    requires Valid(g) && LowestOfComponent(g, m) && OneRound(m, s, s')
    requires PathInv(g, s) && AllLearned(g, s) && Converged(g, s, m, k)
    ensures WellFormed(g, s') && Converged(g, s', m, k + 1)
  {
    RoundKeeps(g, m, s, s');
    forall u | Within(g, m, u, k + 1) ensures CorrectAt(g, s', m, u) {
      var p :| PathFromTo(g, p, m, u) && |p| <= k + 2;
      OneHopFurther(g, m, s, s', k, u, p);
      forall q | PathFromTo(g, q, m, u) ensures s'.nodes[u].dist <= |q| - 1 {
        if |q| < |p| {
          OneHopFurther(g, m, s, s', k, u, q);
        }
      }
      CorrectIf(g, s', m, u);
    }
  }

  lemma NoRoundsNeeded(g: Graph, m: Addr, s: Net)
    requires Valid(g) && LowestOfComponent(g, m) && PathInv(g, s)
    ensures Converged(g, s, m, 0)
  {
    forall u | Within(g, m, u, 0) ensures CorrectAt(g, s, m, u) {
      LowestIsCorrect(g, s, m);
    }
  }

  /** After `k` rounds everybody within `k` hops of the lowest address knows it and its hop distance. */
  lemma {:induction false} BoundedConvergence(g: Graph, m: Addr, s: Net, s': Net, k: nat)
    requires Valid(g) && LowestOfComponent(g, m) && Rounds(m, s, s', k)
    requires PathInv(g, s) && AllLearned(g, s)
    ensures PathInv(g, s') && AllLearned(g, s') && Converged(g, s', m, k)
    decreases k
  {
    if k == 0 {
      NoRoundsNeeded(g, m, s);
    } else {
      var mid :| Rounds(m, s, mid, k - 1) && OneRound(m, mid, s');
      BoundedConvergence(g, m, s, mid, k - 1);
      RoundConverges(g, m, mid, s', k - 1);
      RoundKeeps(g, m, mid, s');
    }
  }

  /** And it stays so in every calm continuation. */
  lemma ConvergedForever(g: Graph, m: Addr, ss: seq<Net>, acts: seq<Action>, k: nat, i: nat)
    requires Valid(g) && LowestOfComponent(g, m) && IsRun(ss, acts) && Calm(acts) && i <= |acts|
    requires PathInv(g, ss[0]) && Converged(g, ss[0], m, k)
    ensures WellFormed(g, ss[i]) && Converged(g, ss[i], m, k)
  {
    RunPath(g, ss, acts, i);
    forall u | Within(g, m, u, k) ensures CorrectAt(g, ss[i], m, u) {
      assert CorrectAt(g, ss[0], m, u);
      CorrectKept(g, ss[0], ss[i], m, u);
    }
  }

  // ----------------------------------------------------- one more round: quiet

  /** `m` is the lowest address of all, and everyone is within `k` hops of it. */
  ghost predicate Centre(g: Graph, m: Addr, k: nat) {
    m in g.nbrs && forall u | u in g.nbrs :: m <= u && Within(g, m, u, k)
  }

  lemma CentreIsLowest(g: Graph, m: Addr, k: nat)
    requires Valid(g) && Centre(g, m, k)
    ensures LowestOfComponent(g, m)
  {
    forall v | Connected(g, m, v) ensures m <= v {
      var p :| PathFromTo(g, p, m, v);
      PathNodes(g, p);
    }
  }

  /** Once everybody is correct, one more round settles the choice of parents. */
  lemma RoundMakesQuiet(g: Graph, m: Addr, k: nat, s: Net, s': Net)
    requires Valid(g) && Centre(g, m, k) && OneRound(m, s, s')
    requires PathInv(g, s) && AllLearned(g, s) && Converged(g, s, m, k)
    ensures WellFormed(g, s') && Quiet(g, s')
  {
    assert WellFormed(g, s') by { RoundKeeps(g, m, s, s'); }
    forall u, v | Linked(g, u, v) ensures QuietLink(s', u, v) {
      CorrectEnds(g, m, k, s, u, v);
      CentreIsLowest(g, m, k);
      RoundMakesQuietLink(g, m, s, s', u, v);
    }
  }

  lemma CorrectEnds(g: Graph, m: Addr, k: nat, s: Net, u: Addr, v: Addr)
    requires Valid(g) && Centre(g, m, k) && s.nodes.Keys == g.nbrs.Keys && Converged(g, s, m, k) && Linked(g, u, v)
    ensures CorrectAt(g, s, m, u) && CorrectAt(g, s, m, v)
  {
    assert Within(g, m, u, k) && Within(g, m, v, k);
  }

  lemma RoundMakesQuietLink(g: Graph, m: Addr, s: Net, s': Net, u: Addr, v: Addr)
    requires Valid(g) && LowestOfComponent(g, m) && OneRound(m, s, s') && Linked(g, u, v)
    requires PathInv(g, s) && AllLearned(g, s) && CorrectAt(g, s, m, u) && CorrectAt(g, s, m, v)
    ensures u in s'.nodes && v in s'.nodes && QuietLink(s', u, v)
  {
    RoundKeeps(g, m, s, s');
    assert Linked(g, v, u);
    RoundHeard(g, m, s, s', v, u);
    CorrectKept(g, s, s', m, u);
    CorrectKept(g, s, s', m, v);
  }

  // -------------------------------------------------------- from the very start

  /** A port is unlearned only while the first advertisement on it is still in flight. */
  ghost predicate FirstPending(s: Net, d: Dart) {
    d in s.chan && d.1 in s.nodes && d.0 !in s.nodes[d.1].learned ==> s.chan[d] != [] && s.chan[d][0].Stp?
  }

  ghost predicate LearnInv(s: Net) {
    forall d {:trigger FirstPending(s, d)} :: FirstPending(s, d)
  }

  lemma PendingKept(s: Net, a: Action, s': Net, d: Dart)
    requires Step(s, a, s') && FirstPending(s, d)
    requires d.1 in s.nodes && s.nodes[d.1].next == d.0 ==> d.0 in s.nodes[d.1].learned
    requires forall adv | d in s.chan && Stp(adv) in s.chan[d] :: adv.sender == d.0
    ensures FirstPending(s', d)
  {
    if d in s.chan && d.1 in s.nodes {
      assert s'.chan[d] == Rest(s, a, d) + Sent(s, a, d);
      if a == Deliver(d.0, d.1) && Head(s, a).Stp? {
        assert Stp(Head(s, a).adv) in s.chan[d];
      }
    }
  }

  /** What local consistency says about one channel. */
  lemma ChannelLocal(g: Graph, s: Net, d: Dart)
    requires Valid(g) && LocalInv(g, s) && d in s.chan
    ensures d.1 in s.nodes && (s.nodes[d.1].next == d.0 ==> d.0 in s.nodes[d.1].learned)
    ensures forall adv | Stp(adv) in s.chan[d] :: adv.sender == d.0
  {
    assert d in Darts(g) && d.1 in g.nbrs && d.0 != d.1;
    assert NodeOk(g, d.1, s.nodes[d.1]);
  }

  lemma StepLearn(g: Graph, s: Net, a: Action, s': Net)
    requires Valid(g) && LocalInv(g, s) && LearnInv(s) && Step(s, a, s')
    ensures LearnInv(s')
  {
    forall d ensures FirstPending(s', d) {
      assert FirstPending(s, d);
      if d in s.chan {
        ChannelLocal(g, s, d);
        PendingKept(s, a, s', d);
      }
    }
  }

  lemma LearnAt(g: Graph, ss: seq<Net>, acts: seq<Action>, j: nat)
    requires Valid(g) && IsRun(ss, acts) && ss[0] == Init(g) && j < |acts| && LearnInv(ss[j])
    ensures LearnInv(ss[j + 1])
  {
    assert LocalInv(g, ss[j]) by {
      InitLocal(g);
      RunLocal(g, ss, acts, j);
    }
    assert Step(ss[j], acts[j], ss[j + 1]) by { assert StepAt(ss, acts, j); }
    StepLearn(g, ss[j], acts[j], ss[j + 1]);
  }

  lemma RunLearn(g: Graph, ss: seq<Net>, acts: seq<Action>, i: nat)
    requires Valid(g) && IsRun(ss, acts) && ss[0] == Init(g) && i <= |acts|
    ensures LearnInv(ss[i])
  {
    var p := t => LearnInv(t);
    assert p(ss[0]) by { InitLearn(g); }
    forall j: nat ensures KeptAt(p, ss, j) {
      if j + 1 < |ss| && p(ss[j]) {
        LearnAt(g, ss, acts, j);
      }
    }
    Along(p, ss, i);
  }

  lemma InitLearn(g: Graph)
    ensures LearnInv(Init(g))
  {
  }

  lemma DrainedPort(g: Graph, s: Net, u: Addr, v: Addr)
    requires Valid(g) && WellFormed(g, s) && FirstPending(s, (v, u)) && Drained(s) && Linked(g, u, v)
    ensures v in s.nodes[u].learned
  {
    assert (v, u) in Darts(g);
    assert s.chan[(v, u)] != [] ==> s.chan[(v, u)][0] in s.chan[(v, u)];
  }

  lemma ReachableLearn(g: Graph, s: Net)
    requires Valid(g) && Reachable(g, s)
    ensures WellFormed(g, s) && LearnInv(s)
  {
    var ss, acts :| IsRun(ss, acts) && ss[0] == Init(g) && ss[|acts|] == s;
    assert WellFormed(g, s) by {
      InitLocal(g);
      RunLocal(g, ss, acts, |acts|);
    }
    assert LearnInv(s) by { RunLearn(g, ss, acts, |acts|); }
  }

  /** Whenever the network is drained, whatever elections came before, every port has learned its neighbour. */
  lemma DrainedHasLearned(g: Graph, s: Net)
    requires Valid(g) && Reachable(g, s) && Drained(s)
    ensures WellFormed(g, s) && AllLearned(g, s)
  {
    ReachableLearn(g, s);
    forall u, v | u in g.nbrs && v in g.nbrs[u] ensures v in s.nodes[u].learned {
      assert FirstPending(s, (v, u));
      DrainedPort(g, s, u, v);
    }
  }

  lemma FirstDrainLearns(g: Graph, s: Net)
    requires Valid(g) && CalmReachable(g, s) && Drained(s)
    ensures PathInv(g, s) && AllLearned(g, s)
  {
    CalmReachablePath(g, s);
    var ss, acts :| IsRun(ss, acts) && Calm(acts) && ss[0] == Init(g) && ss[|acts|] == s;
    assert Reachable(g, s);
    DrainedHasLearned(g, s);
  }
}
