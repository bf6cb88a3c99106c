/** The test graph: adjacency lists built edge by edge, and the four generated shapes. */
module Topology {
  import opened Basics

  type Vertex = nat
  type Lists = seq<seq<Vertex>>

  ghost predicate ListOk(topo: Lists, u: Vertex) {
    u < |topo| ==>
      && (forall k | 0 <= k < |topo[u]| :: topo[u][k] < |topo| && topo[u][k] != u && u in topo[topo[u][k]])
      && (forall j, k | 0 <= j < k < |topo[u]| :: topo[u][j] != topo[u][k])
  }

  /** In range, irreflexive, symmetric and free of duplicates. */
  ghost predicate Simple(topo: Lists) {
    forall u {:trigger ListOk(topo, u)} :: ListOk(topo, u)
  }

  /** The adjacency relation. */
  ghost function Pairs(topo: Lists): set<(Vertex, Vertex)> {
    set u, k | 0 <= u < |topo| && 0 <= k < |topo[u]| :: (u, topo[u][k])
  }

  function WithEdge(topo: Lists, a: Vertex, b: Vertex): Lists
    requires a < |topo| && b < |topo| && a != b
  {
    topo[a := topo[a] + [b]][b := topo[b] + [a]]
  }

  lemma PairsIff(topo: Lists, u: Vertex, v: Vertex)
    ensures (u, v) in Pairs(topo) <==> u < |topo| && v in topo[u]
  {
    if u < |topo| && v in topo[u] {
      var k :| 0 <= k < |topo[u]| && topo[u][k] == v;
    }
  }

  lemma EdgeKeepsSimple(topo: Lists, a: Vertex, b: Vertex)
    requires Simple(topo) && a < |topo| && b < |topo| && a != b && b !in topo[a]
    ensures Simple(WithEdge(topo, a, b))
  {
    var t := WithEdge(topo, a, b);
    assert ListOk(topo, b);
    assert a !in topo[b];
    forall u: Vertex ensures ListOk(t, u) {
      assert ListOk(topo, u);
      if u < |topo| {
        forall k | 0 <= k < |t[u]| ensures t[u][k] < |t| && t[u][k] != u && u in t[t[u][k]] {
          if k < |topo[u]| {
            assert t[u][k] == topo[u][k];
          }
        }
      }
    }
  }

  lemma EdgeAddsPairs(topo: Lists, a: Vertex, b: Vertex)
    requires a < |topo| && b < |topo| && a != b
    ensures Pairs(WithEdge(topo, a, b)) == Pairs(topo) + {(a, b), (b, a)}
  {
    var t := WithEdge(topo, a, b);
    forall u: Vertex, v: Vertex ensures (u, v) in Pairs(t) <==> (u, v) in Pairs(topo) + {(a, b), (b, a)} {
      PairsIff(t, u, v);
      PairsIff(topo, u, v);
    }
  }

  // -------------------------------------------------------------- generated shapes

  datatype Shape = Line | Ring | Star | FullMesh

  /** The shape joins the `i`-th and the `j`-th of `n` given nodes. */
  predicate Joins(t: Shape, n: nat, i: nat, j: nat) {
    match t
    case Line => j == i + 1 || i == j + 1
    case Ring => j == i + 1 || i == j + 1 || (i == 0 && j == n - 1) || (j == 0 && i == n - 1)
    case Star => (i == 0) != (j == 0)
    case FullMesh => i != j
  }

  /** The turn of the (outer) loop that adds the edge between `i` and `j`. */
  function Turn(t: Shape, n: nat, i: nat, j: nat): nat {
    var lo, hi := if i <= j then i else j, if i <= j then j else i;
    match t
    case Line => lo
    case Ring => if hi == lo + 1 then lo else hi
    case Star => hi
    case FullMesh => lo
  }

  /** The edge has been added when outer turns below `k`, and in turn `k` partners below `l`, are done. */
  predicate Done(t: Shape, n: nat, k: nat, l: nat, i: nat, j: nat) {
    && Joins(t, n, i, j)
    && (Turn(t, n, i, j) < k || (Turn(t, n, i, j) == k && i < l && j < l))
  }

  ghost function DonePairs(t: Shape, idxs: seq<Vertex>, k: nat, l: nat): set<(Vertex, Vertex)> {
    set i: nat, j: nat | i < |idxs| && j < |idxs| && Done(t, |idxs|, k, l, i, j) :: (idxs[i], idxs[j])
  }

  /** The adjacencies of the whole shape. */
  ghost function ShapePairs(t: Shape, idxs: seq<Vertex>): set<(Vertex, Vertex)> {
    set i: nat, j: nat | i < |idxs| && j < |idxs| && Joins(t, |idxs|, i, j) :: (idxs[i], idxs[j])
  }

  ghost predicate Either(u: Vertex, v: Vertex, a: Vertex, b: Vertex) {
    (u == a && v == b) || (u == b && v == a)
  }

  /** A line joins each node with the next. */
  lemma LineIs(idxs: seq<Vertex>, u: Vertex, v: Vertex)
    ensures (u, v) in ShapePairs(Line, idxs) <==> exists i {:trigger idxs[i]} :: 0 <= i < |idxs| - 1 && Either(u, v, idxs[i], idxs[i + 1])
  {
    if i, j :| 0 <= i < |idxs| && 0 <= j < |idxs| && Joins(Line, |idxs|, i, j) && idxs[i] == u && idxs[j] == v {
      var k := if i < j then i else j;
      assert Either(u, v, idxs[k], idxs[k + 1]);
    }
    if i :| 0 <= i < |idxs| - 1 && Either(u, v, idxs[i], idxs[i + 1]) {
      assert Joins(Line, |idxs|, i, i + 1) && Joins(Line, |idxs|, i + 1, i);
    }
  }

  /** A ring is a line closed by a link from its last node to its first. */
  lemma RingIs(idxs: seq<Vertex>, u: Vertex, v: Vertex)
    requires |idxs| > 2
    ensures (u, v) in ShapePairs(Ring, idxs) <==> (u, v) in ShapePairs(Line, idxs) || Either(u, v, idxs[|idxs| - 1], idxs[0])
  {
    var n := |idxs|;
    forall i: nat, j: nat | i < n && j < n
      ensures Joins(Ring, n, i, j) <==> Joins(Line, n, i, j) || (i == n - 1 && j == 0) || (i == 0 && j == n - 1)
    {
    }
    if Either(u, v, idxs[n - 1], idxs[0]) {
      assert Joins(Ring, n, n - 1, 0) && Joins(Ring, n, 0, n - 1);
    }
  }

  /** A star joins its first node with each other one. */
  lemma StarIs(idxs: seq<Vertex>, u: Vertex, v: Vertex)
    ensures (u, v) in ShapePairs(Star, idxs) <==> exists i {:trigger idxs[i]} :: 1 <= i < |idxs| && Either(u, v, idxs[0], idxs[i])
  {
    if i, j :| 0 <= i < |idxs| && 0 <= j < |idxs| && Joins(Star, |idxs|, i, j) && idxs[i] == u && idxs[j] == v {
      var k := if i == 0 then j else i;
      assert Either(u, v, idxs[0], idxs[k]);
    }
    if i :| 1 <= i < |idxs| && Either(u, v, idxs[0], idxs[i]) {
      assert Joins(Star, |idxs|, i, 0) && Joins(Star, |idxs|, 0, i);
    }
  }

  /** A full mesh over distinct nodes joins every two of them. */
  lemma MeshIs(idxs: seq<Vertex>, u: Vertex, v: Vertex)
    requires Distinct(idxs)
    ensures (u, v) in ShapePairs(FullMesh, idxs) <==> u in idxs && v in idxs && u != v
  {
    if u in idxs && v in idxs && u != v {
      var i: nat :| i < |idxs| && idxs[i] == u;
      var j: nat :| j < |idxs| && idxs[j] == v;
      assert Joins(FullMesh, |idxs|, i, j);
    }
  }

  /** Adding the edge between positions `a` and `b` goes from one stage to the next. */
  lemma NextPair(t: Shape, idxs: seq<Vertex>, k: nat, l: nat, k': nat, l': nat, a: nat, b: nat)
    requires a < |idxs| && b < |idxs|
    requires forall i: nat, j: nat | i < |idxs| && j < |idxs| ::
               Done(t, |idxs|, k', l', i, j) <==> Done(t, |idxs|, k, l, i, j) || (i == a && j == b) || (i == b && j == a)
    ensures DonePairs(t, idxs, k', l') == DonePairs(t, idxs, k, l) + {(idxs[a], idxs[b]), (idxs[b], idxs[a])}
  {
  }

  lemma NotYet(t: Shape, idxs: seq<Vertex>, k: nat, l: nat, a: nat, b: nat)
    requires Distinct(idxs) && a < |idxs| && b < |idxs| && !Done(t, |idxs|, k, l, a, b)
    ensures (idxs[a], idxs[b]) !in DonePairs(t, idxs, k, l)
  {
  }

  /** Nothing is done at first; the star's loop begins at 1, the mesh's inner loop behind the outer index. */
  lemma DoneFirst(t: Shape, idxs: seq<Vertex>)
    ensures DonePairs(t, idxs, if t == Star then 1 else 0, if t == FullMesh then 1 else 0) == {}
  {
  }

  /** The last turn leaves nothing out. */
  lemma DoneLast(t: Shape, idxs: seq<Vertex>)
    requires |idxs| >= 1
    ensures var n := |idxs|;
            DonePairs(t, idxs, if t == Line then n - 1 else n, if t == FullMesh then n + 1 else 0) == ShapePairs(t, idxs)
  {
  }

  lemma MeshRowDone(idxs: seq<Vertex>, k: nat)
    requires k < |idxs|
    ensures DonePairs(FullMesh, idxs, k, |idxs|) == DonePairs(FullMesh, idxs, k + 1, k + 2)
  {
  }

  /** The index after `k`, around the ring. */
  method Following(k: nat, n: nat) returns (r: nat)
    requires k < n
    ensures r == if k == n - 1 then 0 else k + 1
  {
    r := (k + 1) % n;
    if k == n - 1 {
      assert n % n == 0;
    }
  }

  // ------------------------------------------------------------------- the class

  class Graph {
    const numNodes: nat
    var topology: Lists
    var costs: seq<seq<nat>>

    /** One cost per list entry, and a simple graph. */
    ghost predicate Valid()
      reads this
    {
      |topology| == |costs| == numNodes && Simple(topology) && forall u | 0 <= u < numNodes :: |costs[u]| == |topology[u]|
    }

    constructor (n: nat)
      ensures Valid() && numNodes == n && Pairs(topology) == {}
    {
      numNodes := n;
      topology := seq(n, i => []);
      costs := seq(n, i => []);
    }

    /** The source asserts everything required here but validity; costs are unsigned 16-bit numbers there. */
    method AddEdge(src: Vertex, srcCost: nat, dst: Vertex, dstCost: nat)
      requires Valid() && src < numNodes && dst < numNodes
      requires srcCost < 0x1_0000 && 0.0 <= srcCost as real <= 1.0
      requires dstCost < 0x1_0000 && 0.0 <= dstCost as real <= 1.0
      requires src != dst && (src, dst) !in Pairs(topology)
      modifies this
      ensures Valid()
      ensures topology == old(topology)[src := old(topology)[src] + [dst]][dst := old(topology)[dst] + [src]]
      ensures costs == old(costs)[src := old(costs)[src] + [srcCost]][dst := old(costs)[dst] + [dstCost]]
      ensures Pairs(topology) == old(Pairs(topology)) + {(src, dst), (dst, src)}
    {
      PairsIff(topology, src, dst);
      EdgeKeepsSimple(topology, src, dst);
      EdgeAddsPairs(topology, src, dst);
      costs := costs[src := costs[src] + [srcCost]];
      costs := costs[dst := costs[dst] + [dstCost]];
      topology := topology[src := topology[src] + [dst]];
      topology := topology[dst := topology[dst] + [src]];
    }

    ghost predicate Usable(idxs: seq<Vertex>) {
      Distinct(idxs) && forall i | 0 <= i < |idxs| :: idxs[i] < numNodes
    }

    /** The edge between positions `a` and `b`, which takes the shape from one stage to the next. */
    method AddStage(t: Shape, idxs: seq<Vertex>, a: nat, b: nat, ghost k: nat, ghost l: nat, ghost k': nat, ghost l': nat, ghost before: set<(Vertex, Vertex)>)
      requires Valid() && a < |idxs| && b < |idxs| && a != b && Usable(idxs)
      requires before !! ShapePairs(t, idxs) && Pairs(topology) == before + DonePairs(t, idxs, k, l)
      requires Joins(t, |idxs|, a, b) && !Done(t, |idxs|, k, l, a, b)
      requires forall i: nat, j: nat | i < |idxs| && j < |idxs| ::
                 Done(t, |idxs|, k', l', i, j) <==> Done(t, |idxs|, k, l, i, j) || (i == a && j == b) || (i == b && j == a)
      modifies this
      ensures Valid() && Pairs(topology) == before + DonePairs(t, idxs, k', l')
    {
      NotYet(t, idxs, k, l, a, b);
      assert (idxs[a], idxs[b]) in ShapePairs(t, idxs);
      NextPair(t, idxs, k, l, k', l', a, b);
      AddEdge(idxs[a], 1, idxs[b], 1);
    }

    /** The nodes a call covers: all of them when no indices are given. */
    function Chosen(idxs: seq<Vertex>): seq<Vertex> {
      if idxs == [] then seq(numNodes, i => i) else idxs
    }

    method MakeLine(idxs: seq<Vertex>)
      requires Valid() && Usable(idxs) && |idxs| >= 1 && Pairs(topology) !! ShapePairs(Line, idxs)
      modifies this
      ensures Valid() && Pairs(topology) == old(Pairs(topology)) + ShapePairs(Line, idxs)
    {
      ghost var before := Pairs(topology);
      DoneFirst(Line, idxs);
      for k := 0 to |idxs| - 1
        invariant Valid() && Pairs(topology) == before + DonePairs(Line, idxs, k, 0)
      {
        AddStage(Line, idxs, k, k + 1, k, 0, k + 1, 0, before);
      }
      DoneLast(Line, idxs);
    }

    method MakeRing(idxs: seq<Vertex>)
      requires Valid() && Usable(idxs) && |idxs| >= 3 && Pairs(topology) !! ShapePairs(Ring, idxs)
      modifies this
      ensures Valid() && Pairs(topology) == old(Pairs(topology)) + ShapePairs(Ring, idxs)
    {
      ghost var before := Pairs(topology);
      DoneFirst(Ring, idxs);
      for k := 0 to |idxs|
        invariant Valid() && Pairs(topology) == before + DonePairs(Ring, idxs, k, 0)
      {
        var next := Following(k, |idxs|);
        AddStage(Ring, idxs, k, next, k, 0, k + 1, 0, before);
      }
      DoneLast(Ring, idxs);
    }

    method MakeStar(idxs: seq<Vertex>)
      requires Valid() && Usable(idxs) && |idxs| >= 1 && Pairs(topology) !! ShapePairs(Star, idxs)
      modifies this
      ensures Valid() && Pairs(topology) == old(Pairs(topology)) + ShapePairs(Star, idxs)
    {
      ghost var before := Pairs(topology);
      DoneFirst(Star, idxs);
      for k := 1 to |idxs|
        invariant Valid() && Pairs(topology) == before + DonePairs(Star, idxs, k, 0)
      {
        AddStage(Star, idxs, 0, k, k, 0, k + 1, 0, before);
      }
      DoneLast(Star, idxs);
    }

    method MakeFullMesh(idxs: seq<Vertex>)
      requires Valid() && Usable(idxs) && |idxs| >= 1 && Pairs(topology) !! ShapePairs(FullMesh, idxs)
      modifies this
      ensures Valid() && Pairs(topology) == old(Pairs(topology)) + ShapePairs(FullMesh, idxs)
    {
      ghost var before := Pairs(topology);
      DoneFirst(FullMesh, idxs);
      for k := 0 to |idxs|
        invariant Valid() && Pairs(topology) == before + DonePairs(FullMesh, idxs, k, k + 1)
      {
        for l := k + 1 to |idxs|
          invariant Valid() && Pairs(topology) == before + DonePairs(FullMesh, idxs, k, l)
        {
          AddStage(FullMesh, idxs, k, l, k, l, k, l + 1, before);
        }
        MeshRowDone(idxs, k);
      }
      DoneLast(FullMesh, idxs);
    }

    /** Adds exactly the adjacencies of the shape. The source asserts that a ring has more than two nodes
        and, edge by edge, that no adjacency is there already. */
    method GenerateTopology(t: Shape, given: seq<Vertex>)
      requires Valid() && Usable(given)
      requires numNodes >= 2 ==> (t == Ring ==> |Chosen(given)| > 2) && Pairs(topology) !! ShapePairs(t, Chosen(given))
      modifies this
      ensures Valid()
      ensures Pairs(topology) == old(Pairs(topology)) +
                                 if numNodes < 2 then {}
                                 else ShapePairs(t, if given == [] then seq(numNodes, i => i) else given)
    {
      if numNodes < 2 {
        return;
      }
      var idxs := Chosen(given);
      match t
      case Line => MakeLine(idxs);
      case Ring => MakeRing(idxs);
      case FullMesh => MakeFullMesh(idxs);
      case Star => MakeStar(idxs);
    }
  }
}
