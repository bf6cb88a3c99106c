/** A whole network of node programs, connected as the wiring says, follows a run of the network model. */
module NetworkOfNodes {
  import opened Basics
  import opened Overlay
  import opened NodeModel
  import opened Network
  import opened StpInvariants
  import opened MixnetNode
  import opened NodeInNetwork
  import opened Topology
  import opened Wiring
  import opened TestOverlay
  import opened Runs

  /** Transmit port `i` of `u` holds what the model has in flight on that link: all that was put there, less
      what has been taken. */
  ghost predicate PortCarries(topo: Lists, addrs: seq<Addr>, sents: seq<seq<Sending>>, taken: seq<seq<nat>>, s: Net, u: Vertex, i: nat)
    requires |topo| == |addrs| == |sents| == |taken|
  {
    u < |topo| && i < |topo[u]| ==>
      && topo[u][i] < |topo| && i < |taken[u]| && taken[u][i] <= |OnPort(sents[u], i)|
      && (addrs[u], addrs[topo[u][i]]) in s.chan
      && s.chan[(addrs[u], addrs[topo[u][i]])] == OnPort(sents[u], i)[taken[u][i]..]
  }

  ghost predicate Carries(topo: Lists, addrs: seq<Addr>, sents: seq<seq<Sending>>, taken: seq<seq<nat>>, s: Net) {
    && |topo| == |addrs| == |sents| == |taken|
    && (forall u: Vertex, i: nat {:trigger PortCarries(topo, addrs, sents, taken, s, u, i)} :: PortCarries(topo, addrs, sents, taken, s, u, i))
  }

  /** Users have received what their nodes have put on the user port. */
  ghost predicate UserHas(topo: Lists, addrs: seq<Addr>, sents: seq<seq<Sending>>, s: Net, u: Vertex)
    requires |topo| == |addrs| == |sents|
  {
    u < |topo| ==> addrs[u] in s.user && s.user[addrs[u]] == |OnPort(sents[u], |topo[u]|)|
  }

  ghost predicate UsersHave(topo: Lists, addrs: seq<Addr>, sents: seq<seq<Sending>>, s: Net) {
    |topo| == |addrs| == |sents| && forall u: Vertex {:trigger UserHas(topo, addrs, sents, s, u)} :: UserHas(topo, addrs, sents, s, u)
  }

  /** What the step of vertex `u` puts on its ports. */
  ghost predicate Puts(topo: Lists, addrs: seq<Addr>, before: seq<Sending>, after: seq<Sending>, s: Net, a: Action, u: Vertex)
    requires |topo| == |addrs| && u < |topo| && Enabled(s, a)
  {
    && (forall i: nat {:trigger OnPort(after, i)} | i < |topo[u]| && topo[u][i] < |topo| ::
          OnPort(after, i) == OnPort(before, i) + Sent(s, a, (addrs[u], addrs[topo[u][i]])))
    && OnPort(after, |topo[u]|) == OnPort(before, |topo[u]|) + if AcceptsFlood(s, a) then [Flood] else []
  }

  /** The counts after the step: one packet more has been taken from the link that it takes from. */
  ghost predicate Takes(topo: Lists, addrs: seq<Addr>, taken: seq<seq<nat>>, taken': seq<seq<nat>>, a: Action)
    requires |topo| == |addrs| == |taken| == |taken'|
  {
    forall u: Vertex, i: nat {:trigger TakesAt(topo, addrs, taken, taken', a, u, i)} :: TakesAt(topo, addrs, taken, taken', a, u, i)
  }

  ghost predicate TakesAt(topo: Lists, addrs: seq<Addr>, taken: seq<seq<nat>>, taken': seq<seq<nat>>, a: Action, u: Vertex, i: nat)
    requires |topo| == |addrs| == |taken| == |taken'|
  {
    u < |topo| && i < |topo[u]| && topo[u][i] < |topo| && i < |taken[u]| ==>
      && i < |taken'[u]|
      && taken'[u][i] == taken[u][i] + if a.Deliver? && (a.from, a.to) == (addrs[u], addrs[topo[u][i]]) then 1 else 0
  }

  lemma TakeFromFront<T>(c: seq<T>, n: nat, more: seq<T>, take: bool)
    requires n <= |c| && (take ==> n < |c|)
    ensures (c + more)[n + (if take then 1 else 0)..] == c[n..][(if take then 1 else 0)..] + more
  {
  }

  lemma PortStep(topo: Lists, addrs: seq<Addr>, sents: seq<seq<Sending>>, taken: seq<seq<nat>>, taken': seq<seq<nat>>,
                 s: Net, a: Action, s': Net, u: Vertex, after: seq<Sending>, w: Vertex, i: nat)
    requires |topo| == |addrs| == |sents| == |taken| == |taken'| && Distinct(addrs) && u < |topo| && addrs[u] == Actor(a)
    requires Step(s, a, s') && Puts(topo, addrs, sents[u], after, s, a, u) && Takes(topo, addrs, taken, taken', a)
    requires PortCarries(topo, addrs, sents, taken, s, w, i)
    ensures PortCarries(topo, addrs, sents[u := after], taken', s', w, i)
  {
    if w < |topo| && i < |topo[w]| {
      var d := (addrs[w], addrs[topo[w][i]]);
      var take := a.Deliver? && (a.from, a.to) == d;
      assert TakesAt(topo, addrs, taken, taken', a, w, i);
      assert w != u ==> addrs[w] != addrs[u];
      assert s'.chan[d] == Rest(s, a, d) + Sent(s, a, d);
      TakeFromFront(OnPort(sents[w], i), taken[w][i], Sent(s, a, d), take);
      if w == u {
        assert OnPort(after, i) == OnPort(sents[u], i) + Sent(s, a, d);
      } else {
        assert Sent(s, a, d) == [] && OnPort(sents[w], i) + [] == OnPort(sents[w], i);
      }
    }
  }

  lemma CarriesStep(topo: Lists, addrs: seq<Addr>, sents: seq<seq<Sending>>, taken: seq<seq<nat>>, taken': seq<seq<nat>>,
                    s: Net, a: Action, s': Net, u: Vertex, after: seq<Sending>)
    requires Carries(topo, addrs, sents, taken, s) && |taken'| == |topo| && Distinct(addrs) && u < |topo| && addrs[u] == Actor(a)
    requires Step(s, a, s') && Puts(topo, addrs, sents[u], after, s, a, u) && Takes(topo, addrs, taken, taken', a)
    ensures Carries(topo, addrs, sents[u := after], taken', s')
  {
    var sents' := sents[u := after];
    forall w: Vertex, i: nat ensures PortCarries(topo, addrs, sents', taken', s', w, i) {
      assert PortCarries(topo, addrs, sents, taken, s, w, i);
      PortStep(topo, addrs, sents, taken, taken', s, a, s', u, after, w, i);
    }
  }

  lemma UsersStep(topo: Lists, addrs: seq<Addr>, sents: seq<seq<Sending>>, s: Net, a: Action, s': Net, u: Vertex, after: seq<Sending>)
    requires UsersHave(topo, addrs, sents, s) && Distinct(addrs) && u < |topo| && addrs[u] == Actor(a)
    requires Step(s, a, s') && Puts(topo, addrs, sents[u], after, s, a, u)
    ensures UsersHave(topo, addrs, sents[u := after], s')
  {
    var sents' := sents[u := after];
    forall w: Vertex ensures UserHas(topo, addrs, sents', s', w) {
      assert UserHas(topo, addrs, sents, s, w);
      assert w < |topo| && w != u ==> addrs[w] != addrs[u];
    }
  }

  // ------------------------------------------------------------------ the programs

  /** Each program has its own variables and tables. */
  ghost predicate Separate(nodes: seq<Node>) {
    forall u, w {:trigger nodes[u], nodes[w]} | 0 <= u < |nodes| && 0 <= w < |nodes| && u != w ::
      && nodes[u] != nodes[w] && nodes[u].neighborsAddr != nodes[w].neighborsAddr
      && nodes[u].neighborsBlocked != nodes[w].neighborsBlocked
  }

  /** The test graph, its addresses and its wiring. */
  datatype Site = Site(topo: Lists, addrs: seq<Addr>, txs: seq<seq<Conn>>)

  ghost predicate WiredAt(site: Site, u: Vertex)
    requires |site.txs| == |site.topo|
  {
    u < |site.topo| ==> Wired(site.topo, u, site.txs[u])
  }

  /** The overlay `g` is that of the test graph, and every node is wired. */
  ghost predicate Sound(site: Site, g: Overlay.Graph) {
    && Simple(site.topo) && Addressed(site.topo, site.addrs) && IsOverlay(g, site.topo, site.addrs)
    && |site.txs| == |site.topo| && forall u: Vertex {:trigger WiredAt(site, u)} :: WiredAt(site, u)
  }

  ghost predicate PlacedAt(site: Site, nodes: seq<Node>, u: Vertex)
    requires Simple(site.topo) && |nodes| == |site.topo| == |site.addrs|
  {
    u < |nodes| ==> nodes[u].myAddr == site.addrs[u] && nodes[u].peers == Peers(site.topo, site.addrs, u)
  }

  ghost predicate Placed(site: Site, g: Overlay.Graph, nodes: seq<Node>) {
    && Sound(site, g) && |nodes| == |site.topo| && Separate(nodes)
    && forall u: Vertex {:trigger PlacedAt(site, nodes, u)} :: PlacedAt(site, nodes, u)
  }

  ghost function Tables(nodes: seq<Node>): set<object> {
    (set n | n in nodes :: n.neighborsAddr) + (set n | n in nodes :: n.neighborsBlocked)
  }

  /** What each program has put on its ports. */
  ghost function Sents(nodes: seq<Node>): (r: seq<seq<Sending>>)
    reads nodes
    ensures |r| == |nodes| && forall u | 0 <= u < |nodes| :: r[u] == nodes[u].sent
  {
    if nodes == [] then [] else Sents(nodes[..|nodes| - 1]) + [nodes[|nodes| - 1].sent]
  }

  ghost predicate StandsAt(site: Site, g: Overlay.Graph, nodes: seq<Node>, s: Net, u: Vertex)
    reads nodes, Tables(nodes)
  {
    u < |nodes| && u < |site.addrs| ==> Stands(nodes[u], g, s, site.addrs[u])
  }

  /** The programs are in state `s` of the model, channels and users included. */
  ghost predicate InState(site: Site, g: Overlay.Graph, nodes: seq<Node>, taken: seq<seq<nat>>, s: Net)
    reads nodes, Tables(nodes)
  {
    && Placed(site, g, nodes) && LocalInv(g, s)
    && (forall u: Vertex {:trigger StandsAt(site, g, nodes, s, u)} :: StandsAt(site, g, nodes, s, u))
    && Carries(site.topo, site.addrs, Sents(nodes), taken, s) && UsersHave(site.topo, site.addrs, Sents(nodes), s)
  }

  // ------------------------------------------------------------------------ steps

  /** Port `i` of `u` leads to the node at the other end of its `i`-th edge. */
  lemma PeerAt(site: Site, g: Overlay.Graph, nodes: seq<Node>, u: Vertex, i: nat)
    requires Placed(site, g, nodes) && u < |nodes| && i < |site.topo[u]|
    ensures |nodes[u].peers| == |site.topo[u]| && site.topo[u][i] < |nodes| && nodes[u].peers[i] == site.addrs[site.topo[u][i]]
  {
    assert PlacedAt(site, nodes, u) && ListOk(site.topo, u);
  }

  lemma TookPuts(site: Site, g: Overlay.Graph, nodes: seq<Node>, s: Net, a: Action, u: Vertex, before: seq<Sending>)
    requires Placed(site, g, nodes) && u < |nodes| && Enabled(s, a) && Actor(a) == site.addrs[u] && Took(nodes[u], s, a, before)
    ensures Puts(site.topo, site.addrs, before, nodes[u].sent, s, a, u)
  {
    assert PlacedAt(site, nodes, u) && ListOk(site.topo, u);
    forall i: nat | i < |site.topo[u]| && site.topo[u][i] < |site.topo|
      ensures OnPort(nodes[u].sent, i) == OnPort(before, i) + Sent(s, a, (site.addrs[u], site.addrs[site.topo[u][i]]))
    {
      PeerAt(site, g, nodes, u, i);
      assert nodes[u].peers[i] == site.addrs[site.topo[u][i]];
    }
  }

  /** All programs but `u` are still in state `s`; `sents` is what had been put on the ports before. */
  ghost predicate OthersWait(site: Site, g: Overlay.Graph, nodes: seq<Node>, taken: seq<seq<nat>>, s: Net, u: Vertex, sents: seq<seq<Sending>>)
    reads nodes, Tables(nodes)
  {
    && Placed(site, g, nodes) && LocalInv(g, s) && u < |nodes| == |sents|
    && (forall w: Vertex {:trigger StandsAt(site, g, nodes, s, w)} | w != u :: StandsAt(site, g, nodes, s, w))
    && Carries(site.topo, site.addrs, sents, taken, s) && UsersHave(site.topo, site.addrs, sents, s)
    && Sents(nodes) == sents[u := nodes[u].sent]
  }

  lemma AllStand(site: Site, g: Overlay.Graph, nodes: seq<Node>, taken: seq<seq<nat>>, s: Net, a: Action, u: Vertex, sents: seq<seq<Sending>>, w: Vertex)
    requires OthersWait(site, g, nodes, taken, s, u, sents) && Enabled(s, a) && Actor(a) == site.addrs[u] && Took(nodes[u], s, a, sents[u])
    ensures StandsAt(site, g, nodes, Next(s, a), w)
  {
    OverlayIsValid(g, site.topo, site.addrs);
    if w < |nodes| {
      if w == u {
        assert PlacedAt(site, nodes, u);
        PeersAre(site, g, u);
        TookStands(nodes[u], g, s, a, site.addrs[u], sents[u]);
      } else {
        assert StandsAt(site, g, nodes, s, w) && site.addrs[w] != site.addrs[u];
        OtherStands(nodes[w], g, s, a, site.addrs[w]);
      }
    }
  }

  lemma PeersAre(site: Site, g: Overlay.Graph, u: Vertex)
    requires Sound(site, g) && u < |site.topo|
    ensures site.addrs[u] in g.nbrs && forall v :: v in g.nbrs[site.addrs[u]] <==> v in Peers(site.topo, site.addrs, u)
  {
    assert NodeMatches(g, site.topo, site.addrs, u);
  }

  /** If one program takes a step of the model and the others do nothing, all are in the model's next state. */
  lemma AllFollow(site: Site, g: Overlay.Graph, nodes: seq<Node>, taken: seq<seq<nat>>, taken': seq<seq<nat>>, s: Net, a: Action, u: Vertex,
                  sents: seq<seq<Sending>>)
    requires OthersWait(site, g, nodes, taken, s, u, sents) && Enabled(s, a) && Actor(a) == site.addrs[u] && Took(nodes[u], s, a, sents[u])
    requires |taken'| == |site.topo| && Takes(site.topo, site.addrs, taken, taken', a)
    ensures InState(site, g, nodes, taken', Next(s, a))
  {
    var s' := Next(s, a);
    assert LocalInv(g, s') by {
      OverlayIsValid(g, site.topo, site.addrs);
      StepLocal(g, s, a, s');
    }
    forall w: Vertex ensures StandsAt(site, g, nodes, s', w) {
      AllStand(site, g, nodes, taken, s, a, u, sents, w);
    }
    TookPuts(site, g, nodes, s, a, u, sents[u]);
    CarriesStep(site.topo, site.addrs, sents, taken, taken', s, a, s', u, nodes[u].sent);
    UsersStep(site.topo, site.addrs, sents, s, a, s', u, nodes[u].sent);
  }

  /** Before the step, everybody waits. */
  lemma AllWait(site: Site, g: Overlay.Graph, nodes: seq<Node>, taken: seq<seq<nat>>, s: Net, u: Vertex)
    requires InState(site, g, nodes, taken, s) && u < |nodes|
    ensures OthersWait(site, g, nodes, taken, s, u, Sents(nodes))
  {
    SentsAre(nodes, Sents(nodes), u);
  }

  lemma SentsAre(nodes: seq<Node>, sents: seq<seq<Sending>>, u: Vertex)
    requires u < |nodes| == |sents| && forall w | 0 <= w < |nodes| && w != u :: nodes[w].sent == sents[w]
    ensures Sents(nodes) == sents[u := nodes[u].sent]
  {
  }

  /** The program at `u` handles a packet while the others wait. */
  method DeliverAt(site: Site, nodes: seq<Node>, ghost taken: seq<seq<nat>>, u: Vertex, j: nat, p: Packet, now: Time,
                   ghost g: Overlay.Graph, ghost s: Net, ghost sents: seq<seq<Sending>>)
    requires OthersWait(site, g, nodes, taken, s, u, sents) && sents[u] == nodes[u].sent && Arrives(nodes[u], g, s, j, p)
    modifies nodes, Tables(nodes)
    ensures OthersWait(site, g, nodes, taken, s, u, sents) && Took(nodes[u], s, From(nodes[u], j), sents[u])
  {
    NodeInNetwork.Deliver(nodes[u], g, s, j, p, now);
    forall w: Vertex | w != u ensures StandsAt(site, g, nodes, s, w) {
      assert old(StandsAt(site, g, nodes, s, w));
    }
    SentsAre(nodes, sents, u);
  }

  method InjectAt(site: Site, nodes: seq<Node>, ghost taken: seq<seq<nat>>, u: Vertex, now: Time,
                  ghost g: Overlay.Graph, ghost s: Net, ghost sents: seq<seq<Sending>>)
    requires OthersWait(site, g, nodes, taken, s, u, sents) && sents[u] == nodes[u].sent
    requires nodes[u].numNeighbors == |nodes[u].peers| && Stands(nodes[u], g, s, nodes[u].myAddr)
    modifies nodes, Tables(nodes)
    ensures OthersWait(site, g, nodes, taken, s, u, sents) && Took(nodes[u], s, UserFlood(nodes[u].myAddr), sents[u])
  {
    Inject(nodes[u], g, s, now);
    forall w: Vertex | w != u ensures StandsAt(site, g, nodes, s, w) {
      assert old(StandsAt(site, g, nodes, s, w));
    }
    SentsAre(nodes, sents, u);
  }

  /** The wire from transmit port `i` of `v`: to the receive port of the neighbour there that leads back. */
  lemma OtherEnd(site: Site, g: Overlay.Graph, nodes: seq<Node>, v: Vertex, i: nat)
    requires Placed(site, g, nodes) && v < |nodes| && i < |site.topo[v]|
    ensures |site.txs[v]| == |site.topo[v]|
    ensures var c := site.txs[v][i];
            && c.client == site.topo[v][i] < |nodes| && c.rxPort < |site.topo[c.client]| && site.topo[c.client][c.rxPort] == v
            && |nodes[c.client].peers| == |site.topo[c.client]| && nodes[c.client].peers[c.rxPort] == site.addrs[v]
  {
    assert WiredAt(site, v) && ListOk(site.topo, v);
    var c := site.txs[v][i];
    assert LeadsTo(site.topo, c.client, c.rxPort, v) || !LeadsTo(site.topo, c.client, c.rxPort, v);
    PeerAt(site, g, nodes, c.client, c.rxPort);
  }

  /** The counts after a packet has been taken off transmit port `i` of `v`. */
  lemma TakesOne(site: Site, taken: seq<seq<nat>>, v: Vertex, i: nat)
    requires Simple(site.topo) && Addressed(site.topo, site.addrs) && |taken| == |site.topo| && v < |taken| && i < |site.topo[v]| && i < |taken[v]|
    requires site.topo[v][i] < |site.topo|
    ensures Takes(site.topo, site.addrs, taken, taken[v := taken[v][i := taken[v][i] + 1]],
                  Action.Deliver(site.addrs[v], site.addrs[site.topo[v][i]]))
  {
    var taken', a := taken[v := taken[v][i := taken[v][i] + 1]], Action.Deliver(site.addrs[v], site.addrs[site.topo[v][i]]);
    forall u: Vertex, j: nat ensures TakesAt(site.topo, site.addrs, taken, taken', a, u, j) {
      assert ListOk(site.topo, v);
      if u < |site.topo| && j < |site.topo[u]| && site.topo[u][j] < |site.topo| {
        assert u != v ==> site.addrs[u] != site.addrs[v];
        assert site.topo[u][j] != site.topo[v][i] ==> site.addrs[site.topo[u][j]] != site.addrs[site.topo[v][i]];
      }
    }
  }

  lemma TakesNone(site: Site, taken: seq<seq<nat>>, a: Action)
    requires |taken| == |site.topo| == |site.addrs| && !a.Deliver?
    ensures Takes(site.topo, site.addrs, taken, taken, a)
  {
  }

  /** What the packet at the head of a wire is, in the model. */
  lemma HeadIs(site: Site, g: Overlay.Graph, nodes: seq<Node>, taken: seq<seq<nat>>, s: Net, v: Vertex, i: nat)
    requires InState(site, g, nodes, taken, s) && v < |nodes| && i < |site.topo[v]| && i < |taken[v]| && taken[v][i] < |OnPort(nodes[v].sent, i)|
    ensures site.topo[v][i] < |nodes|
    ensures var a, p := Action.Deliver(site.addrs[v], site.addrs[site.topo[v][i]]), OnPort(nodes[v].sent, i)[taken[v][i]];
            Enabled(s, a) && Head(s, a) == p && (p.Stp? ==> p.adv.sender < INVALID_ADDR)
  {
    assert PortCarries(site.topo, site.addrs, Sents(nodes), taken, s, v, i);
    var u := site.topo[v][i];
    var d, p := (site.addrs[v], site.addrs[u]), OnPort(nodes[v].sent, i)[taken[v][i]];
    assert StandsAt(site, g, nodes, s, u) && StandsAt(site, g, nodes, s, v);
    assert s.chan[d][0] == p && p in s.chan[d];
    assert p.Stp? ==> Stp(p.adv) in s.chan[d];
    OverlayIsValid(g, site.topo, site.addrs);
  }

  /** A packet arrives: the node at the other end of the wire handles it. */
  method Arrive(site: Site, nodes: seq<Node>, taken: seq<seq<nat>>, v: Vertex, i: nat, now: Time, ghost g: Overlay.Graph, ghost s: Net)
    returns (taken': seq<seq<nat>>)
    requires InState(site, g, nodes, taken, s) && v < |nodes| && i < |site.topo[v]| && i < |taken[v]| && taken[v][i] < |OnPort(nodes[v].sent, i)|
    modifies nodes, Tables(nodes)
    ensures site.topo[v][i] < |nodes|
    ensures var a := Action.Deliver(site.addrs[v], site.addrs[site.topo[v][i]]);
            Enabled(s, a) && InState(site, g, nodes, taken', Next(s, a))
  {
    OtherEnd(site, g, nodes, v, i);
    HeadIs(site, g, nodes, taken, s, v, i);
    var c := site.txs[v][i];
    var u: Vertex := c.client;
    var j: nat := c.rxPort;
    var p := OnPort(nodes[v].sent, i)[taken[v][i]];
    ghost var a := Action.Deliver(site.addrs[v], site.addrs[u]);
    assert PlacedAt(site, nodes, u) && StandsAt(site, g, nodes, s, u);
    assert a == From(nodes[u], j) && Arrives(nodes[u], g, s, j, p);
    ghost var sents := Sents(nodes);
    AllWait(site, g, nodes, taken, s, u);
    DeliverAt(site, nodes, taken, u, j, p, now, g, s, sents);
    taken' := taken[v := taken[v][i := taken[v][i] + 1]];
    TakesOne(site, taken, v, i);
    AllFollow(site, g, nodes, taken, taken', s, a, u, sents);
  }

  /** A user sends a FLOOD. */
  method UserSends(site: Site, nodes: seq<Node>, ghost taken: seq<seq<nat>>, u: Vertex, now: Time, ghost g: Overlay.Graph, ghost s: Net)
    requires InState(site, g, nodes, taken, s) && u < |nodes|
    modifies nodes, Tables(nodes)
    ensures Enabled(s, UserFlood(site.addrs[u])) && InState(site, g, nodes, taken, Next(s, UserFlood(site.addrs[u])))
  {
    assert PlacedAt(site, nodes, u) && StandsAt(site, g, nodes, s, u);
    ghost var sents := Sents(nodes);
    AllWait(site, g, nodes, taken, s, u);
    InjectAt(site, nodes, taken, u, now, g, s, sents);
    TakesNone(site, taken, UserFlood(site.addrs[u]));
    AllFollow(site, g, nodes, taken, taken, s, UserFlood(site.addrs[u]), u, sents);
  }

  method TickAt(site: Site, nodes: seq<Node>, ghost taken: seq<seq<nat>>, u: Vertex, t: Readings,
                ghost g: Overlay.Graph, ghost s: Net, ghost sents: seq<seq<Sending>>) returns (ghost act: Option<Action>)
    requires OthersWait(site, g, nodes, taken, s, u, sents) && sents[u] == nodes[u].sent
    requires nodes[u].numNeighbors == |nodes[u].peers| && Stands(nodes[u], g, s, nodes[u].myAddr)
    modifies nodes, Tables(nodes)
    ensures OthersWait(site, g, nodes, taken, s, u, sents)
    ensures act.None? ==> Stands(nodes[u], g, s, nodes[u].myAddr) && nodes[u].sent == sents[u]
    ensures act.Some? ==> (act.value == Hello(nodes[u].myAddr) || act.value == Reelect(nodes[u].myAddr))
                          && Enabled(s, act.value) && Took(nodes[u], s, act.value, sents[u])
  {
    act := TickStep(nodes[u], g, s, t);
    forall w: Vertex | w != u ensures StandsAt(site, g, nodes, s, w) {
      assert old(StandsAt(site, g, nodes, s, w));
    }
    SentsAre(nodes, sents, u);
  }

  /** Time passes at one node: it says hello, elects itself, or does nothing. */
  method TimePasses(site: Site, nodes: seq<Node>, ghost taken: seq<seq<nat>>, u: Vertex, t: Readings, ghost g: Overlay.Graph, ghost s: Net)
    returns (ghost act: Option<Action>)
    requires InState(site, g, nodes, taken, s) && u < |nodes|
    modifies nodes, Tables(nodes)
    ensures act.None? ==> InState(site, g, nodes, taken, s)
    ensures act.Some? ==> Enabled(s, act.value) && InState(site, g, nodes, taken, Next(s, act.value))
  {
    assert PlacedAt(site, nodes, u) && StandsAt(site, g, nodes, s, u);
    ghost var sents := Sents(nodes);
    AllWait(site, g, nodes, taken, s, u);
    act := TickAt(site, nodes, taken, u, t, g, s, sents);
    if act.Some? {
      TakesNone(site, taken, act.value);
      AllFollow(site, g, nodes, taken, taken, s, act.value, u, sents);
    } else {
      NothingHappened(site, g, nodes, taken, s, u, sents);
    }
  }

  lemma NothingHappened(site: Site, g: Overlay.Graph, nodes: seq<Node>, taken: seq<seq<nat>>, s: Net, u: Vertex, sents: seq<seq<Sending>>)
    requires OthersWait(site, g, nodes, taken, s, u, sents) && Stands(nodes[u], g, s, nodes[u].myAddr) && nodes[u].sent == sents[u]
    ensures InState(site, g, nodes, taken, s)
  {
    assert PlacedAt(site, nodes, u);
    forall w: Vertex ensures StandsAt(site, g, nodes, s, w) {
      assert w != u ==> StandsAt(site, g, nodes, s, w);
    }
    assert Sents(nodes) == sents;
  }

  // ------------------------------------------------------------------- whole runs

  /** What the environment makes happen. */
  datatype Event = PacketArrives(v: Vertex, i: nat, now: Time) | UserActs(u: Vertex, now: Time) | ClockRuns(u: Vertex, t: Readings)

  /** One event; one that cannot happen, such as an arrival where nothing is in flight, does nothing. */
  method Happens(site: Site, nodes: seq<Node>, taken: seq<seq<nat>>, e: Event, ghost g: Overlay.Graph, ghost s: Net)
    returns (taken': seq<seq<nat>>, ghost act: Option<Action>)
    requires InState(site, g, nodes, taken, s)
    modifies nodes, Tables(nodes)
    ensures act.None? ==> InState(site, g, nodes, taken', s)
    ensures act.Some? ==> Enabled(s, act.value) && InState(site, g, nodes, taken', Next(s, act.value))
  {
    taken', act := taken, None;
    match e
    case PacketArrives(v, i, now) =>
      if v < |nodes| && i < |site.topo[v]| && i < |taken[v]| && taken[v][i] < |OnPort(nodes[v].sent, i)| {
        taken' := Arrive(site, nodes, taken, v, i, now, g, s);
        act := Some(Action.Deliver(site.addrs[v], site.addrs[site.topo[v][i]]));
      }
    case UserActs(u, now) =>
      if u < |nodes| {
        UserSends(site, nodes, taken, u, now, g, s);
        act := Some(UserFlood(site.addrs[u]));
      }
    case ClockRuns(u, t) =>
      if u < |nodes| {
        act := TimePasses(site, nodes, taken, u, t, g, s);
      }
  }

  /** Whatever the environment does, the programs follow a run of the model. */
  method Run(site: Site, nodes: seq<Node>, taken0: seq<seq<nat>>, events: seq<Event>, ghost g: Overlay.Graph, ghost s: Net)
    returns (taken: seq<seq<nat>>, ghost ss: seq<Net>, ghost acts: seq<Action>)
    requires InState(site, g, nodes, taken0, s)
    modifies nodes, Tables(nodes)
    ensures IsRun(ss, acts) && ss[0] == s && InState(site, g, nodes, taken, ss[|acts|])
  {
    taken, ss, acts := taken0, [s], [];
    for k := 0 to |events|
      invariant IsRun(ss, acts) && ss[0] == s && InState(site, g, nodes, taken, ss[|acts|])
    {
      ghost var act;
      taken, act := Happens(site, nodes, taken, events[k], g, ss[|acts|]);
      if act.Some? {
        ghost var s' := Next(ss[|acts|], act.value);
        AppendStep(ss, acts, act.value, s');
        ss, acts := ss + [s'], acts + [act.value];
      }
    }
  }

  /** A program at vertex `u` as it is after start-up. */
  ghost predicate Booted(site: Site, g: Overlay.Graph, node: Node, u: Vertex)
    requires Sound(site, g) && u < |site.topo|
    reads node, node.neighborsAddr, node.neighborsBlocked
  {
    && node.myAddr == site.addrs[u] && node.peers == Peers(site.topo, site.addrs, u)
    && Stands(node, g, Init(g), site.addrs[u]) && OnPort(node.sent, |site.topo[u]|) == []
    && forall i: nat {:trigger site.topo[u][i]} | i < |site.topo[u]| && site.topo[u][i] < |site.addrs| ::
         && (site.addrs[u], site.addrs[site.topo[u][i]]) in Init(g).chan
         && OnPort(node.sent, i) == Init(g).chan[(site.addrs[u], site.addrs[site.topo[u][i]])]
  }

  ghost predicate AllBooted(site: Site, g: Overlay.Graph, nodes: seq<Node>)
    requires Sound(site, g) && |nodes| <= |site.topo|
    reads nodes, Tables(nodes)
  {
    forall u: Vertex {:trigger nodes[u]} | u < |nodes| :: Booted(site, g, nodes[u], u)
  }

  /** `node` shares nothing with `nodes`. */
  ghost predicate Apart(nodes: seq<Node>, node: Node) {
    node !in nodes && node.neighborsAddr !in Tables(nodes) && node.neighborsBlocked !in Tables(nodes)
  }

  lemma OneMoreBooted(site: Site, g: Overlay.Graph, nodes: seq<Node>, node: Node)
    requires Sound(site, g) && |nodes| < |site.topo| && AllBooted(site, g, nodes) && Separate(nodes) && Apart(nodes, node)
    requires Booted(site, g, node, |nodes|)
    ensures Separate(nodes + [node]) && AllBooted(site, g, nodes + [node])
    ensures Tables(nodes + [node]) == Tables(nodes) + {node.neighborsAddr, node.neighborsBlocked}
  {
    var more := nodes + [node];
    TablesMore(nodes, node);
    forall u: Vertex | u < |more| ensures Booted(site, g, more[u], u) {
      assert u < |nodes| ==> more[u] == nodes[u];
    }
    forall u, w | 0 <= u < |more| && 0 <= w < |more| && u != w
      ensures more[u] != more[w] && more[u].neighborsAddr != more[w].neighborsAddr && more[u].neighborsBlocked != more[w].neighborsBlocked
    {
      assert u < |nodes| ==> more[u] in nodes && more[u].neighborsAddr in Tables(nodes) && more[u].neighborsBlocked in Tables(nodes);
      assert w < |nodes| ==> more[w] in nodes && more[w].neighborsAddr in Tables(nodes) && more[w].neighborsBlocked in Tables(nodes);
    }
  }

  ghost function Zeros(topo: Lists): seq<seq<nat>> {
    seq(|topo|, u requires 0 <= u < |topo| => seq(|topo[u]|, i => 0))
  }

  /** All programs after start-up are in the model's initial state. */
  lemma BootedIsInitial(site: Site, g: Overlay.Graph, nodes: seq<Node>, taken: seq<seq<nat>>)
    requires Sound(site, g) && |nodes| == |site.topo| && Separate(nodes) && taken == Zeros(site.topo)
    requires AllBooted(site, g, nodes)
    ensures InState(site, g, nodes, taken, Init(g))
  {
    OverlayIsValid(g, site.topo, site.addrs);
    InitLocal(g);
    var s := Init(g);
    forall u: Vertex ensures PlacedAt(site, nodes, u) && StandsAt(site, g, nodes, s, u) && UserHas(site.topo, site.addrs, Sents(nodes), s, u) {
      assert u < |nodes| ==> Booted(site, g, nodes[u], u);
    }
    forall u: Vertex, i: nat ensures PortCarries(site.topo, site.addrs, Sents(nodes), taken, s, u, i) {
      assert ListOk(site.topo, u) && (u < |nodes| ==> Booted(site, g, nodes[u], u));
      if u < |site.topo| && i < |site.topo[u]| {
        assert taken[u][i] == 0 && OnPort(nodes[u].sent, i)[0..] == OnPort(nodes[u].sent, i);
        assert site.topo[u][i] < |site.addrs|;
      }
    }
  }

  /** Start-up of one program. */
  method BootOne(site: Site, u: Vertex, hello: Time, election: Time, now: Time, ghost g: Overlay.Graph) returns (node: Node)
    requires Sound(site, g) && u < |site.topo| && |site.topo[u]| <= 255
    ensures fresh(node) && fresh(node.neighborsAddr) && fresh(node.neighborsBlocked)
    ensures Booted(site, g, node, u)
  {
    OverlayIsValid(g, site.topo, site.addrs);
    PeersAre(site, g, u);
    ghost var wiring := Peers(site.topo, site.addrs, u);
    node := Boot(g, site.addrs[u], |site.topo[u]|, hello, election, now, now, wiring);
    assert ListOk(site.topo, u);
    forall i: nat | i < |site.topo[u]| && site.topo[u][i] < |site.addrs|
      ensures (site.addrs[u], site.addrs[site.topo[u][i]]) in Init(g).chan
      ensures OnPort(node.sent, i) == Init(g).chan[(site.addrs[u], site.addrs[site.topo[u][i]])]
    {
      assert wiring[i] == site.addrs[site.topo[u][i]];
    }
  }

  lemma TablesMore(nodes: seq<Node>, node: Node)
    ensures Tables(nodes + [node]) == Tables(nodes) + {node.neighborsAddr, node.neighborsBlocked}
  {
    var more := nodes + [node];
    assert forall n :: n in more <==> n in nodes || n == node;
  }

  /** Start-up of one more program, beside those that run already. */
  method BootNext(site: Site, nodes: seq<Node>, hello: Time, election: Time, now: Time, ghost g: Overlay.Graph) returns (more: seq<Node>)
    requires Sound(site, g) && |nodes| < |site.topo| && |site.topo[|nodes|]| <= 255 && AllBooted(site, g, nodes) && Separate(nodes)
    ensures |more| == |nodes| + 1 && more[..|nodes|] == nodes && Separate(more) && AllBooted(site, g, more)
    ensures fresh(more[|nodes|]) && fresh(Tables(more) - Tables(nodes))
  {
    var node := BootOne(site, |nodes|, hello, election, now, g);
    OneMoreBooted(site, g, nodes, node);
    more := nodes + [node];
  }

  /** Start-up of all programs. */
  method BootAll(site: Site, hello: Time, election: Time, now: Time, ghost g: Overlay.Graph) returns (nodes: seq<Node>)
    requires Sound(site, g) && forall u | 0 <= u < |site.topo| :: |site.topo[u]| <= 255
    ensures fresh(nodes) && fresh(Tables(nodes)) && |nodes| == |site.topo| && Separate(nodes)
    ensures AllBooted(site, g, nodes)
  {
    nodes := [];
    for k := 0 to |site.topo|
      invariant |nodes| == k && fresh(nodes) && fresh(Tables(nodes)) && Separate(nodes) && AllBooted(site, g, nodes)
    {
      nodes := BootNext(site, nodes, hello, election, now, g);
    }
  }

  /** From start-up on, whatever the environment does, a network of programs wired as the test graph says is
      in a state that the model reaches. */
  method BootAndRun(site: Site, hello: Time, election: Time, now: Time, events: seq<Event>, ghost g: Overlay.Graph)
    returns (nodes: seq<Node>, taken: seq<seq<nat>>, ghost s: Net)
    requires Sound(site, g) && forall u | 0 <= u < |site.topo| :: |site.topo[u]| <= 255
    ensures Reachable(g, s) && InState(site, g, nodes, taken, s)
  {
    nodes := BootAll(site, hello, election, now, g);
    taken := seq(|site.topo|, u requires 0 <= u < |site.topo| => seq(|site.topo[u]|, i => 0));
    BootedIsInitial(site, g, nodes, taken);
    ghost var ss, acts;
    taken, ss, acts := Run(site, nodes, taken, events, g, Init(g));
    s := ss[|acts|];
  }
}
