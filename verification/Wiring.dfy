/** Resolving connections: which accepted socket becomes which transmit port. */
module Wiring {
  import opened Basics
  import opened Topology

  datatype Netaddr = Netaddr(family: nat, host: nat, port: nat)

  /** A connection is named by its client end: the node that connected, and its receive port. */
  datatype Conn = Conn(client: Vertex, rxPort: nat)

  /** What `accept` recorded: the peer's address and the connection behind the descriptor. */
  datatype Accepted = Accepted(address: Netaddr, conn: Conn)

  /** The client addresses that the fragments reported: one per port. */
  ghost predicate Reported(topo: Lists, clients: seq<seq<Netaddr>>) {
    |clients| == |topo| && forall v | 0 <= v < |topo| :: |clients[v]| == |topo[v]|
  }

  ghost predicate IsPort(topo: Lists, v: Vertex, j: int) {
    v < |topo| && 0 <= j < |topo[v]|
  }

  /** Client addresses identify ports. */
  ghost predicate AddressesDiffer(topo: Lists, clients: seq<seq<Netaddr>>)
    requires Reported(topo, clients)
  {
    forall v: Vertex, j, w: Vertex, k {:trigger IsPort(topo, v, j), IsPort(topo, w, k)} |
      IsPort(topo, v, j) && IsPort(topo, w, k) && clients[v][j] == clients[w][k] :: v == w && j == k
  }

  /** A connection accepted from a reported address is that client's connection. */
  ghost predicate Honest(topo: Lists, clients: seq<seq<Netaddr>>, states: seq<Accepted>)
    requires Reported(topo, clients)
  {
    forall i, v: Vertex, j: nat {:trigger states[i], IsPort(topo, v, j)} |
      0 <= i < |states| && IsPort(topo, v, j) && states[i].address == clients[v][j] :: states[i].conn == Conn(v, j)
  }

  /** Every accepted connection was made by a receive port of some node. */
  ghost predicate FromClients(topo: Lists, clients: seq<seq<Netaddr>>, states: seq<Accepted>)
    requires Reported(topo, clients)
  {
    forall i | 0 <= i < |states| ::
      var c := states[i].conn;
      IsPort(topo, c.client, c.rxPort) && states[i].address == clients[c.client][c.rxPort]
  }

  lemma DistinctIsHonest(topo: Lists, clients: seq<seq<Netaddr>>, states: seq<Accepted>)
    requires Reported(topo, clients) && AddressesDiffer(topo, clients) && FromClients(topo, clients, states)
    ensures Honest(topo, clients, states)
  {
    forall i, v: Vertex, j: nat | 0 <= i < |states| && IsPort(topo, v, j) && states[i].address == clients[v][j]
      ensures states[i].conn == Conn(v, j)
    {
      var c := states[i].conn;
      assert IsPort(topo, c.client, c.rxPort) && IsPort(topo, v, j);
    }
  }

  /** `j` is the port of `v` that leads to `u`. */
  ghost predicate LeadsTo(topo: Lists, v: Vertex, j: int, u: Vertex) {
    IsPort(topo, v, j) && topo[v][j] == u
  }

  lemma OnePortLeads(topo: Lists, v: Vertex, j: int, k: int, u: Vertex)
    requires Simple(topo) && LeadsTo(topo, v, j, u) && LeadsTo(topo, v, k, u)
    ensures j == k
  {
    assert ListOk(topo, v);
  }

  lemma SomePortLeads(topo: Lists, u: Vertex, i: int) returns (j: nat)
    requires Simple(topo) && IsPort(topo, u, i)
    ensures LeadsTo(topo, topo[u][i], j, u)
  {
    assert ListOk(topo, u);
    j :| 0 <= j < |topo[topo[u][i]]| && topo[topo[u][i]][j] == u;
  }

  /** For each port of `u`, the address from which the neighbour there connected to `u`. */
  ghost predicate RequestOk(topo: Lists, clients: seq<seq<Netaddr>>, u: Vertex, addrs: seq<Netaddr>)
    requires Reported(topo, clients) && u < |topo|
  {
    |addrs| == |topo[u]| && forall i, j {:trigger LeadsTo(topo, topo[u][i], j, u)} | 0 <= i < |topo[u]| && LeadsTo(topo, topo[u][i], j, u) ::
                              addrs[i] == clients[topo[u][i]][j]
  }

  /** The orchestrator's request to node `u`: for each neighbour, the address from which that neighbour
      connected. Symmetry of the graph is what makes the source's assertion hold. */
  method ResolveRequest(topo: Lists, clients: seq<seq<Netaddr>>, u: Vertex) returns (addrs: seq<Netaddr>)
    requires Simple(topo) && Reported(topo, clients) && u < |topo|
    ensures RequestOk(topo, clients, u, addrs)
  {
    addrs := [];
    for i := 0 to |topo[u]|
      invariant |addrs| == i
      invariant forall k, j {:trigger LeadsTo(topo, topo[u][k], j, u)} | 0 <= k < i && LeadsTo(topo, topo[u][k], j, u) ::
                  addrs[k] == clients[topo[u][k]][j]
    {
      assert ListOk(topo, u);
      var v := topo[u][i];
      ghost var found := SomePortLeads(topo, u, i);
      var j := 0;
      while topo[v][j] != u
        invariant 0 <= j <= found && forall k | 0 <= k < j :: topo[v][k] != u
        decreases found - j
      {
        j := j + 1;
      }
      OnePortLeads(topo, v, j, found, u);
      assert forall k | LeadsTo(topo, v, k, u) :: k == j by {
        forall k | LeadsTo(topo, v, k, u) ensures k == j {
          OnePortLeads(topo, v, j, k, u);
        }
      }
      addrs := addrs + [clients[v][j]];
    }
  }

  ghost predicate Matches(states: seq<Accepted>, a: Netaddr, c: Conn) {
    exists i :: 0 <= i < |states| && states[i].address == a && states[i].conn == c
  }

  ghost predicate Seen(states: seq<Accepted>, a: Netaddr) {
    exists i :: 0 <= i < |states| && states[i].address == a
  }

  /** The fragment's side: for each address the accepted connection with that address, or failure. */
  method ResolveSockets(states: seq<Accepted>, addrs: seq<Netaddr>) returns (r: Option<seq<Conn>>)
    ensures r.Some? ==> |r.value| == |addrs| && forall n | 0 <= n < |addrs| :: Matches(states, addrs[n], r.value[n])
    ensures r.None? <==> exists n :: 0 <= n < |addrs| && !Seen(states, addrs[n])
  {
    var tx: seq<Conn> := [];
    for n := 0 to |addrs|
      invariant |tx| == n && forall k | 0 <= k < n :: Matches(states, addrs[k], tx[k])
    {
      var i := 0;
      while i < |states| && states[i].address != addrs[n]
        invariant 0 <= i <= |states| && forall k | 0 <= k < i :: states[k].address != addrs[n]
      {
        i := i + 1;
      }
      if i == |states| {
        assert !Seen(states, addrs[n]);
        return None;
      }
      tx := tx + [states[i].conn];
    }
    assert forall k | 0 <= k < |addrs| :: Matches(states, addrs[k], tx[k]) && Seen(states, addrs[k]);
    r := Some(tx);
  }

  /** Transmit port `i` of `u` and receive port `j` of `v` are the two ends of one connection exactly
      when the graph has `v` as the `i`-th neighbour of `u` and `u` as the `j`-th of `v`. */
  ghost predicate Wired(topo: Lists, u: Vertex, tx: seq<Conn>)
    requires u < |topo|
  {
    |tx| == |topo[u]| && forall i, v: Vertex, j: nat {:trigger tx[i], LeadsTo(topo, v, j, u)} | 0 <= i < |tx| ::
                           tx[i] == Conn(v, j) <==> topo[u][i] == v && LeadsTo(topo, v, j, u)
  }

  lemma WiringExact(topo: Lists, clients: seq<seq<Netaddr>>, u: Vertex, states: seq<Accepted>, addrs: seq<Netaddr>, tx: seq<Conn>)
    requires Simple(topo) && Reported(topo, clients) && u < |topo| && RequestOk(topo, clients, u, addrs)
    requires Honest(topo, clients, states)
    requires |tx| == |addrs| && forall n | 0 <= n < |addrs| :: Matches(states, addrs[n], tx[n])
    ensures Wired(topo, u, tx)
  {
    forall i, v: Vertex, j: nat | 0 <= i < |tx|
      ensures tx[i] == Conn(v, j) <==> topo[u][i] == v && LeadsTo(topo, v, j, u)
    {
      var k := SomePortLeads(topo, u, i);
      var w := topo[u][i];
      assert Matches(states, addrs[i], tx[i]) && IsPort(topo, w, k) && addrs[i] == clients[w][k];
      assert tx[i] == Conn(w, k);
      if LeadsTo(topo, w, j, u) {
        OnePortLeads(topo, w, j, k, u);
      }
    }
  }

  /** With every node wired, each receive port is fed by exactly one transmit port, that of the
      neighbour it leads to. */
  lemma EachPortFedOnce(topo: Lists, txs: seq<seq<Conn>>, v: Vertex, j: nat) returns (u: Vertex, i: nat)
    requires Simple(topo) && |txs| == |topo| && (forall w: Vertex | w < |topo| :: Wired(topo, w, txs[w]))
    requires IsPort(topo, v, j)
    ensures IsPort(topo, u, i) && |txs[u]| == |topo[u]| && txs[u][i] == Conn(v, j) && u == topo[v][j] && topo[u][i] == v
    ensures forall w: Vertex, k: nat | w < |txs| && k < |txs[w]| && txs[w][k] == Conn(v, j) :: w == u && k == i
  {
    assert ListOk(topo, v);
    u := topo[v][j];
    i := SomePortLeads(topo, v, j);
    assert Wired(topo, u, txs[u]) && LeadsTo(topo, v, j, u);
    forall w: Vertex, k: nat | w < |txs| && k < |txs[w]| && txs[w][k] == Conn(v, j) ensures w == u && k == i {
      assert Wired(topo, w, txs[w]);
      assert LeadsTo(topo, v, j, w) || !LeadsTo(topo, v, j, w);
      OnePortLeads(topo, u, i, k, v);
    }
  }

  /** Every client connection to `u` has been accepted. */
  ghost predicate AllAccepted(topo: Lists, clients: seq<seq<Netaddr>>, u: Vertex, states: seq<Accepted>)
    requires Reported(topo, clients)
  {
    forall v: Vertex, j: nat {:trigger LeadsTo(topo, v, j, u)} | LeadsTo(topo, v, j, u) :: Seen(states, clients[v][j])
  }

  lemma ResolvableIff(topo: Lists, clients: seq<seq<Netaddr>>, u: Vertex, states: seq<Accepted>, addrs: seq<Netaddr>)
    requires Simple(topo) && Reported(topo, clients) && u < |topo| && RequestOk(topo, clients, u, addrs)
    ensures AllAccepted(topo, clients, u, states) <==> forall n | 0 <= n < |addrs| :: Seen(states, addrs[n])
  {
    if AllAccepted(topo, clients, u, states) {
      forall n | 0 <= n < |addrs| ensures Seen(states, addrs[n]) {
        var k := SomePortLeads(topo, u, n);
      }
    }
    if forall n | 0 <= n < |addrs| :: Seen(states, addrs[n]) {
      forall v: Vertex, j: nat | LeadsTo(topo, v, j, u) ensures Seen(states, clients[v][j]) {
        var n := SomePortLeads(topo, v, j);
        assert topo[u][n] == v && LeadsTo(topo, topo[u][n], j, u);
      }
    }
  }

  /** Both sides, for node `u`: resolution succeeds exactly when every client of `u` has been accepted,
      and then the wiring is that of the graph. */
  method Resolve(topo: Lists, clients: seq<seq<Netaddr>>, u: Vertex, states: seq<Accepted>) returns (tx: Option<seq<Conn>>)
    requires Simple(topo) && Reported(topo, clients) && Honest(topo, clients, states) && u < |topo|
    ensures tx.Some? <==> AllAccepted(topo, clients, u, states)
    ensures tx.Some? ==> Wired(topo, u, tx.value)
  {
    var addrs := ResolveRequest(topo, clients, u);
    tx := ResolveSockets(states, addrs);
    ResolvableIff(topo, clients, u, states, addrs);
    if tx.Some? {
      WiringExact(topo, clients, u, states, addrs, tx.value);
    }
  }
}
