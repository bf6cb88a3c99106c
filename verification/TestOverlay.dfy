/** The test graph as an overlay: what the spanning-tree results rest on. */
module TestOverlay {
  import opened Basics
  import opened Topology
  import opened Overlay
  import opened StpConverge

  /** The nodes' addresses: valid and pairwise different. */
  ghost predicate Addressed(topo: Lists, addrs: seq<Addr>) {
    |addrs| == |topo| && (forall u | 0 <= u < |addrs| :: addrs[u] < INVALID_ADDR) && Distinct(addrs)
  }

  /** The addresses at the ports of `u`, in port order. */
  ghost function Peers(topo: Lists, addrs: seq<Addr>, u: Vertex): seq<Addr>
    requires u < |topo| == |addrs| && Simple(topo)
  {
    assert ListOk(topo, u);
    seq(|topo[u]|, k requires 0 <= k < |topo[u]| => addrs[topo[u][k]])
  }

  ghost predicate NodeMatches(g: Overlay.Graph, topo: Lists, addrs: seq<Addr>, u: Vertex)
    requires |topo| == |addrs| && Simple(topo)
  {
    u < |topo| ==> addrs[u] in g.nbrs && forall a :: a in g.nbrs[addrs[u]] <==> a in Peers(topo, addrs, u)
  }

  /** `g` is the overlay of the test graph under these addresses. */
  ghost predicate IsOverlay(g: Overlay.Graph, topo: Lists, addrs: seq<Addr>)
    requires |topo| == |addrs| && Simple(topo)
  {
    (forall a | a in g.nbrs :: a in addrs) && forall u: Vertex {:trigger NodeMatches(g, topo, addrs, u)} :: NodeMatches(g, topo, addrs, u)
  }

  /** Adjacent nodes are linked. */
  lemma AdjacentIsLinked(g: Overlay.Graph, topo: Lists, addrs: seq<Addr>, u: Vertex, v: Vertex)
    requires Simple(topo) && Addressed(topo, addrs) && IsOverlay(g, topo, addrs) && (u, v) in Pairs(topo)
    ensures v < |topo| && Linked(g, addrs[u], addrs[v])
  {
    var k :| 0 <= k < |topo[u]| && topo[u][k] == v;
    assert ListOk(topo, u) && NodeMatches(g, topo, addrs, u);
    assert Peers(topo, addrs, u)[k] == addrs[v];
  }

  /** A link is an adjacency. */
  lemma LinkedIsAdjacent(g: Overlay.Graph, topo: Lists, addrs: seq<Addr>, a: Addr, b: Addr) returns (u: Vertex, v: Vertex)
    requires Simple(topo) && Addressed(topo, addrs) && IsOverlay(g, topo, addrs) && Linked(g, a, b)
    ensures u < |topo| && v < |topo| && u != v && a == addrs[u] && b == addrs[v] && (u, v) in Pairs(topo) && (v, u) in Pairs(topo)
  {
    u :| 0 <= u < |addrs| && addrs[u] == a;
    assert NodeMatches(g, topo, addrs, u) && ListOk(topo, u);
    var k :| 0 <= k < |topo[u]| && Peers(topo, addrs, u)[k] == b;
    v := topo[u][k];
    PairsIff(topo, u, v);
    PairsIff(topo, v, u);
  }

  /** A simple graph with distinct valid addresses is an overlay the protocol results apply to, and the
      ports of a node name its neighbours, each once. */
  lemma OverlayIsValid(g: Overlay.Graph, topo: Lists, addrs: seq<Addr>)
    requires Simple(topo) && Addressed(topo, addrs) && IsOverlay(g, topo, addrs)
    ensures Valid(g)
    ensures forall u: Vertex | u < |topo| :: Distinct(Peers(topo, addrs, u))
  {
    forall a, b | a in g.nbrs && b in g.nbrs[a] ensures b != a && b in g.nbrs && a in g.nbrs[b] {
      var u, v := LinkedIsAdjacent(g, topo, addrs, a, b);
      AdjacentIsLinked(g, topo, addrs, v, u);
    }
    forall u: Vertex | u < |topo| ensures Distinct(Peers(topo, addrs, u)) {
      assert ListOk(topo, u);
      var p := Peers(topo, addrs, u);
      forall i, j | 0 <= i < j < |p| ensures p[i] != p[j] {
        assert topo[u][i] != topo[u][j];
      }
    }
  }

  // ------------------------------------------------ generated shapes are connected

  /** The test graph holds the whole shape over all its nodes. */
  ghost predicate HasShape(topo: Lists, t: Shape, idxs: seq<Vertex>) {
    && Simple(topo) && ShapePairs(t, idxs) <= Pairs(topo)
    && forall u: int {:trigger u in idxs} | 0 <= u < |topo| :: u in idxs
  }

  lemma {:induction false} ReachFirst(g: Overlay.Graph, topo: Lists, addrs: seq<Addr>, t: Shape, idxs: seq<Vertex>, k: nat)
    requires Addressed(topo, addrs) && HasShape(topo, t, idxs) && IsOverlay(g, topo, addrs)
    requires k < |idxs| && forall i | 0 <= i < |idxs| :: idxs[i] < |topo|
    ensures Connected(g, addrs[idxs[0]], addrs[idxs[k]])
  {
    var a := addrs[idxs[0]];
    if k == 0 {
      assert NodeMatches(g, topo, addrs, idxs[0]);
      assert PathFromTo(g, [a], a, a);
    } else {
      var j := if t == Star then 0 else k - 1;
      ReachFirst(g, topo, addrs, t, idxs, j);
      assert Joins(t, |idxs|, j, k) && (idxs[j], idxs[k]) in ShapePairs(t, idxs);
      AdjacentIsLinked(g, topo, addrs, idxs[j], idxs[k]);
      var p :| PathFromTo(g, p, a, addrs[idxs[j]]);
      ExtendPath(g, p, a, addrs[idxs[j]], addrs[idxs[k]]);
    }
  }

  lemma ShapeIsConnected(g: Overlay.Graph, topo: Lists, addrs: seq<Addr>, t: Shape, idxs: seq<Vertex>, a: Addr, b: Addr)
    requires Addressed(topo, addrs) && HasShape(topo, t, idxs) && IsOverlay(g, topo, addrs)
    requires forall i | 0 <= i < |idxs| :: idxs[i] < |topo|
    requires a in g.nbrs && b in g.nbrs
    ensures Connected(g, a, b)
  {
    OverlayIsValid(g, topo, addrs);
    var u :| 0 <= u < |addrs| && addrs[u] == a;
    var v :| 0 <= v < |addrs| && addrs[v] == b;
    assert u in idxs && v in idxs;
    var i :| 0 <= i < |idxs| && idxs[i] == u;
    var j :| 0 <= j < |idxs| && idxs[j] == v;
    var c := addrs[idxs[0]];
    ReachFirst(g, topo, addrs, t, idxs, i);
    ReachFirst(g, topo, addrs, t, idxs, j);
    var p :| PathFromTo(g, p, c, a);
    ReversePath(g, p, c, a);
    var q :| PathFromTo(g, q, a, c);
    var r :| PathFromTo(g, r, c, b);
    JoinPaths(g, q, r, a, c, b);
  }

  // ---------------------------------------------- a connected overlay has a centre

  lemma {:induction false} LowestOf(s: set<Addr>) returns (m: Addr)
    requires s != {}
    ensures m in s && forall u | u in s :: m <= u
    decreases |s|
  {
    m :| m in s;
    if s - {m} != {} {
      var other := LowestOf(s - {m});
      assert forall u | u in s :: u == m || u in s - {m};
      if other < m {
        m := other;
      }
    }
  }

  lemma {:induction false} RadiusOf(g: Overlay.Graph, m: Addr, s: set<Addr>) returns (k: nat)
    requires forall u | u in s :: Connected(g, m, u)
    ensures forall u | u in s :: Within(g, m, u, k)
    decreases |s|
  {
    k := 0;
    if s != {} {
      var u :| u in s;
      var k' := RadiusOf(g, m, s - {u});
      var p :| PathFromTo(g, p, m, u);
      k := k' + |p|;
      forall v | v in s ensures Within(g, m, v, k) {
        if v != u {
          assert Within(g, m, v, k');
          var q :| PathFromTo(g, q, m, v) && |q| <= k' + 1;
        }
      }
    }
  }

  /** A generated shape over all nodes meets the premises of the convergence and flood results. */
  lemma ShapeHasCentre(g: Overlay.Graph, topo: Lists, addrs: seq<Addr>, t: Shape, idxs: seq<Vertex>) returns (m: Addr, k: nat)
    requires Addressed(topo, addrs) && HasShape(topo, t, idxs) && IsOverlay(g, topo, addrs) && |topo| > 0
    requires forall i | 0 <= i < |idxs| :: idxs[i] < |topo|
    ensures Valid(g) && Centre(g, m, k)
  {
    OverlayIsValid(g, topo, addrs);
    assert NodeMatches(g, topo, addrs, 0);
    m := LowestOf(g.nbrs.Keys);
    forall u | u in g.nbrs ensures Connected(g, m, u) {
      ShapeIsConnected(g, topo, addrs, t, idxs, m, u);
    }
    k := RadiusOf(g, m, g.nbrs.Keys);
  }
}
