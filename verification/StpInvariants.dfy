/** What every run keeps: local consistency always, and path witnesses when no re-election happens. */
module StpInvariants {
  import opened Overlay
  import opened NodeModel
  import opened Network
  import Sums

  // ---------------------------------------------------------------- every run

  ghost predicate NodeOk(g: Graph, u: Addr, n: NodeState)
    requires u in g.nbrs
  {
    && n.root <= u
    && (n.root == u <==> n.dist == 0)
    && (n.root == u <==> n.next == u)
    && (n.next != u ==> n.next in n.learned && n.next in n.open)
    && n.open <= n.learned <= g.nbrs[u]
  }

  /** Local consistency of all nodes, and senders name themselves in their packets. */
  ghost predicate LocalInv(g: Graph, s: Net) {
    && WellFormed(g, s)
    && (forall u {:trigger NodeOk(g, u, s.nodes[u])} | u in g.nbrs :: NodeOk(g, u, s.nodes[u]))
    && (forall d, a | d in s.chan && Stp(a) in s.chan[d] :: a.sender == d.0)
  }

  lemma InitLocal(g: Graph)
    requires Valid(g)
    ensures LocalInv(g, Init(g))
  {
  }

  lemma HandleStpLocal(g: Graph, u: Addr, n: NodeState, from: Addr, a: Adv)
    requires Valid(g) && u in g.nbrs && from in g.nbrs[u] && a.sender == from
    requires NodeOk(g, u, n)
    ensures NodeOk(g, u, HandleStp(n, from, a))
  {
  }

  lemma StepLocal(g: Graph, s: Net, a: Action, s': Net)
    requires Valid(g) && LocalInv(g, s) && Step(s, a, s')
    ensures LocalInv(g, s')
  {
    StepWellFormed(g, s, a, s');
    forall u | u in g.nbrs ensures NodeOk(g, u, s'.nodes[u]) {
      assert NodeOk(g, u, s.nodes[u]);
      if u == Actor(a) && TakesStp(s, a) {
        var adv := Head(s, a).adv;
        assert (a.from, u) in Darts(g) && Stp(adv) in s.chan[(a.from, u)];
        HandleStpLocal(g, u, s.nodes[u], a.from, adv);
      }
    }
    forall d, adv | d in s'.chan && Stp(adv) in s'.chan[d] ensures adv.sender == d.0 {
      PacketOrigin(s, a, s', d, Stp(adv));
    }
  }

  /** Local consistency holds throughout every run, re-elections included. */
  lemma {:induction false} RunLocal(g: Graph, ss: seq<Net>, acts: seq<Action>, i: nat)
    requires Valid(g) && IsRun(ss, acts) && LocalInv(g, ss[0]) && i <= |acts|
    ensures LocalInv(g, ss[i])
  {
    if i > 0 {
      RunLocal(g, ss, acts, i - 1);
      assert StepAt(ss, acts, i - 1);
      StepLocal(g, ss[i - 1], acts[i - 1], ss[i]);
    }
  }

  /** The local invariants of every reachable state, spelled out. */
  lemma LocalInvariants(g: Graph, s: Net, u: Addr)
    requires Valid(g) && Reachable(g, s) && u in g.nbrs
    ensures WellFormed(g, s)
    ensures var n := s.nodes[u];
            && n.root <= u
            && (n.root == u <==> n.dist == 0)
            && (n.root == u <==> n.next == u)
            && (n.next != u ==> n.next in g.nbrs[u] && n.next in n.learned && n.next in n.open)
  {
    var ss, acts :| IsRun(ss, acts) && ss[0] == Init(g) && ss[|acts|] == s;
    InitLocal(g);
    RunLocal(g, ss, acts, |acts|);
    assert NodeOk(g, u, s.nodes[u]);
  }

  // ------------------------------------------------- runs without re-election

  ghost predicate KnowsPlace(g: Graph, s: Net, p: seq<Addr>, r: Addr, i: nat)
    requires s.nodes.Keys == g.nbrs.Keys && i < |p|
  {
    p[i] in g.nbrs && Le2(s.nodes[p[i]].root, s.nodes[p[i]].dist, r, i)
  }

  /** `p` is a simple path from `r` to `v` with `l` links, and each node on it already
      knows something at least as good as its place on the path. */
  ghost predicate IsWitness(g: Graph, s: Net, p: seq<Addr>, r: Addr, l: nat, v: Addr)
    requires s.nodes.Keys == g.nbrs.Keys
  {
    && |p| == l + 1
    && PathFromTo(g, p, r, v)
    && (forall i, j | 0 <= i < j < |p| :: p[i] != p[j])
    && (forall i {:trigger KnowsPlace(g, s, p, r, i)} | 0 <= i < |p| :: KnowsPlace(g, s, p, r, i))
  }

  ghost predicate Witnessed(g: Graph, s: Net, r: Addr, l: nat, v: Addr)
    requires s.nodes.Keys == g.nbrs.Keys
  {
    exists p :: IsWitness(g, s, p, r, l, v)
  }

  ghost predicate NodeWitnessed(g: Graph, s: Net, u: Addr)
    requires s.nodes.Keys == g.nbrs.Keys && u in g.nbrs
  {
    Witnessed(g, s, s.nodes[u].root, s.nodes[u].dist, u)
  }

  ghost predicate PacketWitnessed(g: Graph, s: Net, d: Dart, a: Adv)
    requires s.nodes.Keys == g.nbrs.Keys
  {
    d in s.chan && Stp(a) in s.chan[d] ==> Witnessed(g, s, a.root, a.len, d.0)
  }

  /** The parent is at least one link closer to a root that is at least as good. */
  ghost predicate ParentCloser(g: Graph, s: Net, u: Addr)
    requires s.nodes.Keys == g.nbrs.Keys && u in g.nbrs
  {
    var n := s.nodes[u];
    n.next != u ==> n.next in g.nbrs && n.dist > 0
                    && Le2(s.nodes[n.next].root, s.nodes[n.next].dist, n.root, n.dist - 1)
  }

  ghost predicate PathInv(g: Graph, s: Net) {
    && LocalInv(g, s)
    && (forall u {:trigger NodeWitnessed(g, s, u)} | u in g.nbrs :: NodeWitnessed(g, s, u))
    && (forall u {:trigger ParentCloser(g, s, u)} | u in g.nbrs :: ParentCloser(g, s, u))
    && (forall d, a {:trigger PacketWitnessed(g, s, d, a)} :: PacketWitnessed(g, s, d, a))
  }

  ghost predicate NoWorse(n: NodeState, n': NodeState) {
    Le3(n', n.root, n.dist, n.next) && n.learned <= n'.learned
  }

  /** Nobody's triple has grown. */
  ghost predicate Progress(g: Graph, s: Net, s': Net) {
    && s.nodes.Keys == g.nbrs.Keys == s'.nodes.Keys
    && forall u | u in g.nbrs :: NoWorse(s.nodes[u], s'.nodes[u])
  }

  lemma ProgressTrans(g: Graph, s: Net, s': Net, s'': Net)
    requires Progress(g, s, s') && Progress(g, s', s'')
    ensures Progress(g, s, s'')
  {
    forall u | u in g.nbrs ensures NoWorse(s.nodes[u], s''.nodes[u]) {
      assert NoWorse(s.nodes[u], s'.nodes[u]) && NoWorse(s'.nodes[u], s''.nodes[u]);
    }
  }

  lemma StepProgress(g: Graph, s: Net, a: Action, s': Net)
    requires WellFormed(g, s) && Step(s, a, s') && !a.Reelect?
    ensures Progress(g, s, s')
  {
    if TakesStp(s, a) {
      HandleStpOrder(s.nodes[a.to], a.from, Head(s, a).adv);
    }
  }

  lemma WitnessKept(g: Graph, s: Net, s': Net, r: Addr, l: nat, v: Addr)
    requires Progress(g, s, s') && Witnessed(g, s, r, l, v)
    ensures Witnessed(g, s', r, l, v)
  {
    var p :| IsWitness(g, s, p, r, l, v);
    forall i | 0 <= i < |p| ensures KnowsPlace(g, s', p, r, i) {
      assert KnowsPlace(g, s, p, r, i);
    }
    assert IsWitness(g, s', p, r, l, v);
  }

  /** A witness is simple, so it has fewer links than there are nodes. */
  lemma WitnessShort(g: Graph, s: Net, r: Addr, l: nat, v: Addr)
    requires Valid(g) && s.nodes.Keys == g.nbrs.Keys && Witnessed(g, s, r, l, v)
    ensures l < |g.nbrs| <= INVALID_ADDR
    ensures Connected(g, r, v) && r in g.nbrs && v in g.nbrs
    ensures Le2(s.nodes[v].root, s.nodes[v].dist, r, l)
  {
    var p :| IsWitness(g, s, p, r, l, v);
    PathNodes(g, p);
    Sums.DistinctLength(p, g.nbrs.Keys);
    assert |g.nbrs.Keys| == |g.nbrs|;
    NodeCount(g);
    assert KnowsPlace(g, s, p, r, l);
  }

  /** The path length always fits the packet field. */
  lemma AdvertExact(g: Graph, s: Net, u: Addr)
    requires Valid(g) && PathInv(g, s) && u in g.nbrs
    ensures Advert(u, s.nodes[u]) == Adv(s.nodes[u].root, s.nodes[u].dist, u)
  {
    assert NodeWitnessed(g, s, u);
    WitnessShort(g, s, s.nodes[u].root, s.nodes[u].dist, u);
  }

  lemma InitPath(g: Graph)
    requires Valid(g)
    ensures PathInv(g, Init(g))
  {
    InitLocal(g);
    var s := Init(g);
    forall u | u in g.nbrs ensures NodeWitnessed(g, s, u) {
      assert IsWitness(g, s, [u], u, 0, u);
    }
    forall d, a ensures PacketWitnessed(g, s, d, a) {
      InitPacket(g, d, a);
    }
  }

  lemma InitPacket(g: Graph, d: Dart, a: Adv)
    requires Valid(g)
    ensures PacketWitnessed(g, Init(g), d, a)
  {
    var s := Init(g);
    if d in s.chan && Stp(a) in s.chan[d] {
      assert IsWitness(g, s, [d.0], d.0, 0, d.0);
    }
  }

  /** A node that adopts an advertisement is not on the advertised path. */
  lemma AdoptWitness(g: Graph, s: Net, s': Net, u: Addr, v: Addr, a: Adv)
    requires Valid(g) && Progress(g, s, s') && Linked(g, v, u)
    requires Witnessed(g, s, a.root, a.len, v)
    requires Improves(s.nodes[u], a)
    requires s'.nodes[u].root == a.root && s'.nodes[u].dist == a.len + 1
    ensures Witnessed(g, s', a.root, a.len + 1, u)
  {
    var p :| IsWitness(g, s, p, a.root, a.len, v);
    ExtendPath(g, p, a.root, v, u);
    var q := p + [u];
    forall i | 0 <= i < |q| ensures KnowsPlace(g, s', q, a.root, i) && (i < |p| ==> p[i] != u) {
      if i < |p| {
        assert KnowsPlace(g, s, p, a.root, i);
      }
    }
    assert IsWitness(g, s', q, a.root, a.len + 1, u);
  }

  lemma StepPath(g: Graph, s: Net, a: Action, s': Net)
    requires Valid(g) && PathInv(g, s) && Step(s, a, s') && !a.Reelect?
    ensures PathInv(g, s')
  {
    StepLocal(g, s, a, s');
    StepProgress(g, s, a, s');
    StepPathNodes(g, s, a, s');
    StepPathPackets(g, s, a, s');
  }

  lemma StepPathNodes(g: Graph, s: Net, a: Action, s': Net)
    requires Valid(g) && PathInv(g, s) && Step(s, a, s') && !a.Reelect? && LocalInv(g, s') && Progress(g, s, s')
    ensures forall u {:trigger NodeWitnessed(g, s', u)} | u in g.nbrs :: NodeWitnessed(g, s', u)
    ensures forall u {:trigger ParentCloser(g, s', u)} | u in g.nbrs :: ParentCloser(g, s', u)
  {
    forall u | u in g.nbrs ensures NodeWitnessed(g, s', u) && ParentCloser(g, s', u) {
      StepPathNode(g, s, a, s', u);
    }
  }

  lemma StepPathPackets(g: Graph, s: Net, a: Action, s': Net)
    requires Valid(g) && PathInv(g, s) && Step(s, a, s') && WellFormed(g, s') && Progress(g, s, s')
    requires forall u {:trigger NodeWitnessed(g, s', u)} | u in g.nbrs :: NodeWitnessed(g, s', u)
    ensures forall d, adv {:trigger PacketWitnessed(g, s', d, adv)} :: PacketWitnessed(g, s', d, adv)
  {
    forall d, adv ensures PacketWitnessed(g, s', d, adv) {
      if d in s'.chan && Stp(adv) in s'.chan[d] {
        assert d.0 in g.nbrs by { assert d in Darts(g); }
        StepPathPacket(g, s, a, s', d, adv);
      }
    }
  }

  lemma StepPathPacket(g: Graph, s: Net, a: Action, s': Net, d: Dart, adv: Adv)
    requires Valid(g) && PathInv(g, s) && Step(s, a, s') && WellFormed(g, s') && Progress(g, s, s')
    requires d in s'.chan && Stp(adv) in s'.chan[d] && NodeWitnessed(g, s', d.0)
    ensures Witnessed(g, s', adv.root, adv.len, d.0)
  {
    PacketOrigin(s, a, s', d, Stp(adv));
    if Stp(adv) in s.chan[d] {
      assert PacketWitnessed(g, s, d, adv);
      WitnessKept(g, s, s', adv.root, adv.len, d.0);
    } else {
      var n' := s'.nodes[d.0];
      WitnessShort(g, s', n'.root, n'.dist, d.0);
    }
  }

  lemma StepPathNode(g: Graph, s: Net, a: Action, s': Net, u: Addr)
    requires Valid(g) && PathInv(g, s) && Step(s, a, s') && !a.Reelect?
    requires LocalInv(g, s') && Progress(g, s, s') && u in g.nbrs
    ensures NodeWitnessed(g, s', u) && ParentCloser(g, s', u)
  {
    var n, n' := s.nodes[u], s'.nodes[u];
    if SameTriple(n, n') {
      SameKeepsPath(g, s, s', u);
    } else {
      TripleChange(s, a, s', u);
      AdoptKeepsPath(g, s, s', u, a.from, Head(s, a).adv);
    }
  }

  /** A triple changes only when its node adopts the advertisement it just took. */
  lemma TripleChange(s: Net, a: Action, s': Net, u: Addr)
    requires Step(s, a, s') && !a.Reelect? && u in s.nodes && !SameTriple(s.nodes[u], s'.nodes[u])
    ensures a.Deliver? && a.to == u && Head(s, a).Stp? && Stp(Head(s, a).adv) in s.chan[(a.from, u)]
    ensures var adv := Head(s, a).adv;
            && Improves(s.nodes[u], adv) && a.from in s.nodes[u].learned && Advertises(s, a)
            && s'.nodes[u].root == adv.root && s'.nodes[u].dist == adv.len + 1 && s'.nodes[u].next == adv.sender
  {
  }

  lemma SameKeepsPath(g: Graph, s: Net, s': Net, u: Addr)
    requires Valid(g) && PathInv(g, s) && Progress(g, s, s')
    requires u in g.nbrs && SameTriple(s.nodes[u], s'.nodes[u])
    ensures NodeWitnessed(g, s', u) && ParentCloser(g, s', u)
  {
    assert NodeWitnessed(g, s, u) && ParentCloser(g, s, u);
    WitnessKept(g, s, s', s.nodes[u].root, s.nodes[u].dist, u);
  }

  lemma AdoptKeepsPath(g: Graph, s: Net, s': Net, u: Addr, v: Addr, adv: Adv)
    requires Valid(g) && PathInv(g, s) && Progress(g, s, s')
    requires u in g.nbrs && (v, u) in s.chan && Stp(adv) in s.chan[(v, u)]
    requires Improves(s.nodes[u], adv)
    requires s'.nodes[u].root == adv.root && s'.nodes[u].dist == adv.len + 1 && s'.nodes[u].next == adv.sender
    ensures NodeWitnessed(g, s', u) && ParentCloser(g, s', u)
  {
    assert (v, u) in Darts(g);
    assert PacketWitnessed(g, s, (v, u), adv);
    AdoptWitness(g, s, s', u, v, adv);
    WitnessKept(g, s, s', adv.root, adv.len, v);
    WitnessShort(g, s', adv.root, adv.len, v);
  }

  lemma {:induction false} RunPath(g: Graph, ss: seq<Net>, acts: seq<Action>, i: nat)
    requires Valid(g) && IsRun(ss, acts) && Calm(acts) && PathInv(g, ss[0]) && i <= |acts|
    ensures PathInv(g, ss[i]) && Progress(g, ss[0], ss[i])
  {
    if i > 0 {
      RunPath(g, ss, acts, i - 1);
      assert StepAt(ss, acts, i - 1);
      StepPath(g, ss[i - 1], acts[i - 1], ss[i]);
      StepProgress(g, ss[i - 1], acts[i - 1], ss[i]);
      ProgressTrans(g, ss[0], ss[i - 1], ss[i]);
    }
  }

  lemma CalmReachablePath(g: Graph, s: Net)
    requires Valid(g) && CalmReachable(g, s)
    ensures PathInv(g, s)
  {
    var ss, acts :| IsRun(ss, acts) && Calm(acts) && ss[0] == Init(g) && ss[|acts|] == s;
    InitPath(g);
    RunPath(g, ss, acts, |acts|);
  }

  ghost predicate SimplePath(g: Graph, p: seq<Addr>, a: Addr, b: Addr) {
    PathFromTo(g, p, a, b) && forall i, j | 0 <= i < j < |p| :: p[i] != p[j]
  }

  /** Without re-election, a node's (root, path length) describes a simple path from that root. */
  lemma NodePathSimple(g: Graph, s: Net, u: Addr)
    requires Valid(g) && CalmReachable(g, s) && u in g.nbrs
    ensures WellFormed(g, s) && s.nodes[u].dist <= |g.nbrs| - 1
    ensures exists p :: SimplePath(g, p, s.nodes[u].root, u) && |p| == s.nodes[u].dist + 1
    ensures Advert(u, s.nodes[u]).len == s.nodes[u].dist
  {
    CalmReachablePath(g, s);
    var n := s.nodes[u];
    assert NodeWitnessed(g, s, u);
    var p :| IsWitness(g, s, p, n.root, n.dist, u);
    assert SimplePath(g, p, n.root, u);
    WitnessShort(g, s, n.root, n.dist, u);
  }

  /** The same for every advertisement in flight. */
  lemma PacketPathSimple(g: Graph, s: Net, d: Dart, a: Adv)
    requires Valid(g) && CalmReachable(g, s) && d in s.chan && Stp(a) in s.chan[d]
    ensures a.sender == d.0 && a.len <= |g.nbrs| - 1
    ensures exists p :: SimplePath(g, p, a.root, a.sender) && |p| == a.len + 1
  {
    CalmReachablePath(g, s);
    assert PacketWitnessed(g, s, d, a);
    var p :| IsWitness(g, s, p, a.root, a.len, d.0);
    assert SimplePath(g, p, a.root, d.0);
    WitnessShort(g, s, a.root, a.len, d.0);
  }
}
