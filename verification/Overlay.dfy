/** The overlay graph: nodes are their mixnet addresses, links are symmetric. */
module Overlay {
  import Sums

  type Addr = nat

  /** The address that stands for "no address" (16 bits, all ones). */
  const INVALID_ADDR: nat := 0xFFFF

  /** A directed link: from `0` to `1`. */
  type Dart = (Addr, Addr)

  datatype Graph = Graph(nbrs: map<Addr, set<Addr>>)

  /** Valid addresses, no self-loops, every link has both directions. */
  ghost predicate Valid(g: Graph) {
    && (forall u | u in g.nbrs :: u < INVALID_ADDR)
    && (forall u, v | u in g.nbrs && v in g.nbrs[u] :: v != u && v in g.nbrs && u in g.nbrs[v])
  }

  ghost function Darts(g: Graph): set<Dart> {
    set u, v | u in g.nbrs && v in g.nbrs[u] :: (u, v)
  }

  ghost predicate Linked(g: Graph, u: Addr, v: Addr) {
    u in g.nbrs && v in g.nbrs[u]
  }

  ghost predicate LinkAt(g: Graph, p: seq<Addr>, i: int) {
    0 <= i < |p| - 1 ==> Linked(g, p[i], p[i + 1])
  }

  /** A walk: a non-empty sequence of nodes, consecutive ones linked. */
  ghost predicate IsPath(g: Graph, p: seq<Addr>) {
    && |p| > 0
    && p[0] in g.nbrs
    && (forall i {:trigger LinkAt(g, p, i)} :: LinkAt(g, p, i))
  }

  ghost predicate PathFromTo(g: Graph, p: seq<Addr>, a: Addr, b: Addr) {
    IsPath(g, p) && p[0] == a && p[|p| - 1] == b
  }

  ghost predicate Connected(g: Graph, a: Addr, b: Addr) {
    exists p :: PathFromTo(g, p, a, b)
  }

  /** No path from `a` to `b` has fewer than `d` links. */
  ghost predicate NoShorter(g: Graph, a: Addr, b: Addr, d: nat) {
    forall p | PathFromTo(g, p, a, b) :: d <= |p| - 1
  }

  /** `d` is the hop distance from `a` to `b`. */
  ghost predicate HopDist(g: Graph, a: Addr, b: Addr, d: nat) {
    NoShorter(g, a, b, d) && exists p :: PathFromTo(g, p, a, b) && |p| == d + 1
  }

  /** `b` can be reached from `a` over at most `k` links. */
  ghost predicate Within(g: Graph, a: Addr, b: Addr, k: nat) {
    exists p :: PathFromTo(g, p, a, b) && |p| <= k + 1
  }

  /** `m` is the lowest address among the nodes it is connected to. */
  ghost predicate LowestOfComponent(g: Graph, m: Addr) {
    m in g.nbrs && forall v | Connected(g, m, v) :: m <= v
  }

  lemma PathNodes(g: Graph, p: seq<Addr>)
    requires Valid(g) && IsPath(g, p)
    ensures forall i | 0 <= i < |p| :: p[i] in g.nbrs
  {
    forall i | 0 <= i < |p| ensures p[i] in g.nbrs {
      if i > 0 {
        assert LinkAt(g, p, i - 1);
      }
    }
  }

  lemma ExtendPath(g: Graph, p: seq<Addr>, a: Addr, b: Addr, c: Addr)
    requires PathFromTo(g, p, a, b) && Linked(g, b, c)
    ensures PathFromTo(g, p + [c], a, c)
  {
    var q := p + [c];
    forall i ensures LinkAt(g, q, i) {
      assert LinkAt(g, p, i);
    }
  }

  lemma PrefixPath(g: Graph, p: seq<Addr>, k: nat)
    requires IsPath(g, p) && 0 < k <= |p|
    ensures PathFromTo(g, p[..k], p[0], p[k - 1])
  {
    var q := p[..k];
    forall i ensures LinkAt(g, q, i) {
      assert LinkAt(g, p, i);
    }
  }

  lemma ReversePath(g: Graph, p: seq<Addr>, a: Addr, b: Addr)
    requires Valid(g) && PathFromTo(g, p, a, b)
    ensures Connected(g, b, a)
  {
    var q := seq(|p|, i requires 0 <= i < |p| => p[|p| - 1 - i]);
    PathNodes(g, p);
    forall i ensures LinkAt(g, q, i) {
      assert LinkAt(g, p, |p| - 2 - i);
    }
    assert PathFromTo(g, q, b, a);
  }

  lemma JoinPaths(g: Graph, p: seq<Addr>, q: seq<Addr>, a: Addr, b: Addr, c: Addr)
    requires PathFromTo(g, p, a, b) && PathFromTo(g, q, b, c)
    ensures PathFromTo(g, p + q[1..], a, c)
  {
    var r := p + q[1..];
    forall i ensures LinkAt(g, r, i) {
      assert LinkAt(g, p, i) && LinkAt(g, q, i - (|p| - 1));
    }
  }

  /** There are fewer nodes than 16-bit numbers. */
  lemma NodeCount(g: Graph)
    requires Valid(g)
    ensures |g.nbrs| <= INVALID_ADDR
  {
    Sums.BoundedCard(g.nbrs.Keys, INVALID_ADDR);
    assert |g.nbrs.Keys| == |g.nbrs|;
  }
}
