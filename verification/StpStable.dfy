/** A state that no current advertisement would change is a breadth-first tree, and conversely. */
module StpStable {
  import opened Overlay
  import opened NodeModel
  import opened Network
  import opened StpInvariants

  ghost predicate AllLearned(g: Graph, s: Net)
    requires s.nodes.Keys == g.nbrs.Keys
  {
    forall u | u in g.nbrs :: g.nbrs[u] <= s.nodes[u].learned
  }

  /** v's current advertisement would not improve u. */
  ghost predicate QuietLink(s: Net, u: Addr, v: Addr)
    requires u in s.nodes && v in s.nodes
  {
    !Improves(s.nodes[u], Adv(s.nodes[v].root, s.nodes[v].dist, v))
  }

  ghost predicate Quiet(g: Graph, s: Net)
    requires Valid(g) && s.nodes.Keys == g.nbrs.Keys
  {
    forall u, v {:trigger Linked(g, u, v)} | Linked(g, u, v) :: QuietLink(s, u, v)
  }

  /** u's root is the lowest address of its component, its path length is the hop distance from there,
      and its parent is the lowest-address neighbour one hop closer. */
  ghost predicate BfsAt(g: Graph, s: Net, u: Addr)
    requires s.nodes.Keys == g.nbrs.Keys && u in g.nbrs
  {
    var n := s.nodes[u];
    && HopDist(g, n.root, u, n.dist)
    && (forall v | Connected(g, v, u) :: n.root <= v)
    && (n.dist > 0 ==>
          && n.next in g.nbrs[u]
          && HopDist(g, n.root, n.next, n.dist - 1)
          && (forall w | w in g.nbrs[u] && HopDist(g, n.root, w, n.dist - 1) :: n.next <= w))
  }

  ghost predicate BfsTree(g: Graph, s: Net)
    requires s.nodes.Keys == g.nbrs.Keys
  {
    forall u {:trigger BfsAt(g, s, u)} | u in g.nbrs :: BfsAt(g, s, u)
  }

  lemma QuietBothWays(g: Graph, s: Net, u: Addr, v: Addr)
    requires Valid(g) && s.nodes.Keys == g.nbrs.Keys && Quiet(g, s) && Linked(g, u, v)
    ensures v in s.nodes && s.nodes[u].root == s.nodes[v].root
    ensures s.nodes[v].dist <= s.nodes[u].dist + 1 && s.nodes[u].dist <= s.nodes[v].dist + 1
  {
    assert Linked(g, v, u);
    assert QuietLink(s, u, v) && QuietLink(s, v, u);
  }

  /** Along any path a quiet state has one root, and path lengths grow by at most one per link. */
  lemma {:induction false} QuietAlongPath(g: Graph, s: Net, p: seq<Addr>, i: nat)
    requires Valid(g) && s.nodes.Keys == g.nbrs.Keys && Quiet(g, s)
    requires IsPath(g, p) && i < |p|
    ensures p[0] in g.nbrs && p[i] in g.nbrs
    ensures s.nodes[p[i]].root == s.nodes[p[0]].root
    ensures s.nodes[p[i]].dist <= s.nodes[p[0]].dist + i
  {
    if i > 0 {
      QuietAlongPath(g, s, p, i - 1);
      assert LinkAt(g, p, i - 1);
      QuietBothWays(g, s, p[i - 1], p[i]);
    }
  }

  lemma QuietHopDist(g: Graph, s: Net, u: Addr)
    requires Valid(g) && PathInv(g, s) && Quiet(g, s) && u in g.nbrs
    ensures HopDist(g, s.nodes[u].root, u, s.nodes[u].dist)
  {
    var n := s.nodes[u];
    assert NodeWitnessed(g, s, u);
    var w :| IsWitness(g, s, w, n.root, n.dist, u);
    QuietAlongPath(g, s, w, |w| - 1);
    assert NodeOk(g, n.root, s.nodes[n.root]);
    forall p | PathFromTo(g, p, n.root, u) ensures n.dist <= |p| - 1 {
      QuietAlongPath(g, s, p, |p| - 1);
    }
    assert PathFromTo(g, w, n.root, u) && |w| == n.dist + 1;
  }

  lemma HopDistUnique(g: Graph, a: Addr, b: Addr, d: nat, e: nat)
    requires HopDist(g, a, b, d) && HopDist(g, a, b, e)
    ensures d == e
  {
    var p :| PathFromTo(g, p, a, b) && |p| == d + 1;
    var q :| PathFromTo(g, q, a, b) && |q| == e + 1;
  }

  lemma QuietLowest(g: Graph, s: Net, u: Addr, v: Addr)
    requires Valid(g) && PathInv(g, s) && Quiet(g, s) && Connected(g, v, u)
    ensures u in g.nbrs && s.nodes[u].root <= v
  {
    var p :| PathFromTo(g, p, v, u);
    QuietAlongPath(g, s, p, |p| - 1);
    assert NodeOk(g, v, s.nodes[v]);
  }

  lemma QuietParent(g: Graph, s: Net, u: Addr)
    requires Valid(g) && PathInv(g, s) && Quiet(g, s) && u in g.nbrs && s.nodes[u].dist > 0
    ensures var n := s.nodes[u];
            && n.next in g.nbrs[u] && n.next in g.nbrs
            && s.nodes[n.next].root == n.root && s.nodes[n.next].dist == n.dist - 1
  {
    assert NodeOk(g, u, s.nodes[u]) && ParentCloser(g, s, u);
    QuietBothWays(g, s, u, s.nodes[u].next);
  }

  lemma QuietParentLowest(g: Graph, s: Net, u: Addr, w: Addr)
    requires Valid(g) && PathInv(g, s) && Quiet(g, s) && u in g.nbrs && w in g.nbrs[u]
    requires s.nodes[u].dist > 0 && HopDist(g, s.nodes[u].root, w, s.nodes[u].dist - 1)
    ensures s.nodes[u].next <= w
  {
    QuietBothWays(g, s, u, w);
    QuietHopDist(g, s, w);
    HopDistUnique(g, s.nodes[u].root, w, s.nodes[u].dist - 1, s.nodes[w].dist);
    assert Linked(g, u, w) && QuietLink(s, u, w);
  }

  lemma QuietIsBfsAt(g: Graph, s: Net, u: Addr)
    requires Valid(g) && PathInv(g, s) && Quiet(g, s) && u in g.nbrs
    ensures BfsAt(g, s, u)
  {
    var n := s.nodes[u];
    QuietHopDist(g, s, u);
    forall v | Connected(g, v, u) ensures n.root <= v {
      QuietLowest(g, s, u, v);
    }
    if n.dist > 0 {
      QuietParent(g, s, u);
      QuietHopDist(g, s, n.next);
      forall w | w in g.nbrs[u] && HopDist(g, n.root, w, n.dist - 1) ensures n.next <= w {
        QuietParentLowest(g, s, u, w);
      }
    }
  }

  lemma BfsIsQuietLink(g: Graph, s: Net, u: Addr, v: Addr)
    requires Valid(g) && s.nodes.Keys == g.nbrs.Keys && Linked(g, u, v)
    requires BfsAt(g, s, u) && BfsAt(g, s, v)
    requires s.nodes[u].root <= u
    ensures QuietLink(s, u, v)
  {
    var n, k := s.nodes[u], s.nodes[v];
    assert Linked(g, v, u);
    var p :| PathFromTo(g, p, k.root, v) && |p| == k.dist + 1;
    var q :| PathFromTo(g, q, n.root, u) && |q| == n.dist + 1;
    ExtendPath(g, p, k.root, v, u);
    ExtendPath(g, q, n.root, u, v);
    assert Connected(g, k.root, u) && Connected(g, n.root, v);
    assert k.root == n.root;
    assert n.dist <= k.dist + 1;
  }

  lemma BfsIsQuiet(g: Graph, s: Net)
    requires Valid(g) && LocalInv(g, s) && BfsTree(g, s)
    ensures Quiet(g, s)
  {
    forall u, v | Linked(g, u, v) ensures QuietLink(s, u, v) {
      assert BfsAt(g, s, u) && BfsAt(g, s, v) && NodeOk(g, u, s.nodes[u]);
      BfsIsQuietLink(g, s, u, v);
    }
  }

  /** In a state without re-election, "no neighbour's advertisement would change anything"
      and "everyone sits in the breadth-first tree of the lowest address" are the same. */
  lemma StableIffBfsTree(g: Graph, s: Net)
    requires Valid(g) && CalmReachable(g, s)
    ensures WellFormed(g, s) && (Quiet(g, s) <==> BfsTree(g, s))
  {
    CalmReachablePath(g, s);
    if Quiet(g, s) {
      forall u | u in g.nbrs ensures BfsAt(g, s, u) {
        QuietIsBfsAt(g, s, u);
      }
    }
    if BfsTree(g, s) {
      BfsIsQuiet(g, s);
    }
  }

  // ------------------------------------------------------- quiet is permanent

  /** In a quiet state no advertisement in flight improves anybody either. */
  lemma QuietPackets(g: Graph, s: Net, d: Dart, a: Adv)
    requires Valid(g) && PathInv(g, s) && Quiet(g, s) && d in s.chan && Stp(a) in s.chan[d]
    ensures !Improves(s.nodes[d.1], a)
  {
    assert d in Darts(g) && Linked(g, d.1, d.0);
    assert PacketWitnessed(g, s, d, a);
    WitnessShort(g, s, a.root, a.len, d.0);
    assert QuietLink(s, d.1, d.0);
  }

  /** A quiet state keeps every triple, whatever is delivered or sent. */
  lemma StepQuiet(g: Graph, s: Net, a: Action, s': Net)
    requires Valid(g) && PathInv(g, s) && Quiet(g, s) && Step(s, a, s') && !a.Reelect?
    ensures WellFormed(g, s') && SameTriples(g, s, s') && Quiet(g, s')
  {
    StepWellFormed(g, s, a, s');
    forall u | u in g.nbrs ensures SameTriple(s.nodes[u], s'.nodes[u]) {
      if !SameTriple(s.nodes[u], s'.nodes[u]) {
        TripleChange(s, a, s', u);
        QuietPackets(g, s, (a.from, u), Head(s, a).adv);
      }
    }
    QuietByTriples(g, s, s');
  }

  ghost predicate SameTriples(g: Graph, s: Net, s': Net)
    requires s.nodes.Keys == g.nbrs.Keys == s'.nodes.Keys
  {
    forall u | u in g.nbrs :: SameTriple(s.nodes[u], s'.nodes[u])
  }

  lemma QuietByTriples(g: Graph, s: Net, s': Net)
    requires Valid(g) && s.nodes.Keys == g.nbrs.Keys == s'.nodes.Keys
    requires Quiet(g, s) && SameTriples(g, s, s')
    ensures Quiet(g, s')
  {
    forall u, v | Linked(g, u, v) ensures QuietLink(s', u, v) {
      assert QuietLink(s, u, v);
    }
  }
}
