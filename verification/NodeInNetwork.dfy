/** The node program takes exactly the steps of the network model: what it holds afterwards and what it
    has put on each port are the model's. */
module NodeInNetwork {
  import opened Basics
  import opened Overlay
  import opened NodeModel
  import opened Network
  import opened MixnetNode

  /** What has been put on one port, in order. */
  function OnPort(sent: seq<Sending>, port: nat): seq<Packet> {
    if sent == [] then []
    else
      var rest, last := OnPort(sent[..|sent| - 1], port), sent[|sent| - 1];
      if last.port == port then rest + [last.packet] else rest
  }

  lemma {:induction false} OnPortAppend(a: seq<Sending>, b: seq<Sending>, port: nat)
    ensures OnPort(a + b, port) == OnPort(a, port) + OnPort(b, port)
  {
    if b == [] {
      assert a + b == a;
    } else {
      var n := |b| - 1;
      assert (a + b)[..|a + b| - 1] == a + b[..n];
      OnPortAppend(a, b[..n], port);
    }
  }

  lemma OnPortLast(sent: seq<Sending>, x: Sending, port: nat)
    ensures OnPort(sent + [x], port) == OnPort(sent, port) + if x.port == port then [x.packet] else []
  {
    assert (sent + [x])[..|sent|] == sent;
  }

  lemma {:induction false} StpBurstOnPort(n: nat, a: Adv, port: nat)
    ensures OnPort(StpBurst(n, a), port) == if port < n then [Stp(a)] else []
  {
    if n > 0 {
      StpBurstOnPort(n - 1, a, port);
      assert StpBurst(n, a) == StpBurst(n - 1, a) + [Sending(n - 1, Stp(a))];
      OnPortLast(StpBurst(n - 1, a), Sending(n - 1, Stp(a)), port);
    }
  }

  lemma {:induction false} FloodBurstOnPort(blocked: seq<bool>, sender: nat, n: nat, port: nat)
    requires n <= |blocked|
    ensures OnPort(FloodBurst(blocked, sender, n), port) == if port < n && !blocked[port] && port != sender then [Flood] else []
  {
    if n > 0 {
      FloodBurstOnPort(blocked, sender, n - 1, port);
      if !blocked[n - 1] && n - 1 != sender {
        OnPortLast(FloodBurst(blocked, sender, n - 1), Sending(n - 1, Flood), port);
      }
    }
  }

  /** The program at node `u` of the overlay: its ports are u's links, its variables u's state. */
  ghost predicate Stands(node: Node, g: Graph, s: Net, u: Addr)
    reads node, node.neighborsAddr, node.neighborsBlocked
  {
    && node.Valid() && node.myAddr == u && WellFormed(g, s) && u in g.nbrs
    && (forall v :: v in g.nbrs[u] <==> v in node.peers)
    && node.State() == s.nodes[u]
  }

  /** After the step, the program holds u's new state and has put on each port what the model sends there,
      and to its user what the model delivers. */
  ghost predicate Took(node: Node, s: Net, a: Action, before: seq<Sending>)
    requires Enabled(s, a)
    reads node, node.neighborsAddr, node.neighborsBlocked
  {
    && node.Valid() && node.State() == NodeAfter(s, a)
    && (forall i {:trigger node.peers[i]} | 0 <= i < |node.peers| ::
          OnPort(node.sent, i) == OnPort(before, i) + Sent(s, a, (Actor(a), node.peers[i])))
    && OnPort(node.sent, node.numNeighbors) == OnPort(before, node.numNeighbors) + if AcceptsFlood(s, a) then [Flood] else []
  }

  /** The program is then at node `u` of the model's next state. */
  lemma TookStands(node: Node, g: Graph, s: Net, a: Action, u: Addr, before: seq<Sending>)
    requires Valid(g) && WellFormed(g, s) && Enabled(s, a) && Actor(a) == u == node.myAddr && u in g.nbrs
    requires (forall v :: v in g.nbrs[u] <==> v in node.peers) && Took(node, s, a, before)
    ensures Stands(node, g, Next(s, a), u)
  {
    StepWellFormed(g, s, a, Next(s, a));
  }

  /** A step of another node leaves the program where it is. */
  lemma OtherStands(node: Node, g: Graph, s: Net, a: Action, u: Addr)
    requires Stands(node, g, s, u) && Enabled(s, a) && Actor(a) != u
    ensures Stands(node, g, Next(s, a), u)
  {
    StepWellFormed(g, s, a, Next(s, a));
  }

  /** What a burst of advertisements adds. */
  lemma AfterStpBurst(before: seq<Sending>, n: nat, a: Adv, port: nat)
    ensures OnPort(before + StpBurst(n, a), port) == OnPort(before, port) + if port < n then [Stp(a)] else []
  {
    OnPortAppend(before, StpBurst(n, a), port);
    StpBurstOnPort(n, a, port);
  }

  /** What a burst of FLOODs adds. */
  lemma AfterFloodBurst(before: seq<Sending>, blocked: seq<bool>, sender: nat, port: nat)
    ensures OnPort(before + FloodBurst(blocked, sender, |blocked|), port)
         == OnPort(before, port) + if port < |blocked| && !blocked[port] && port != sender then [Flood] else []
  {
    OnPortAppend(before, FloodBurst(blocked, sender, |blocked|), port);
    FloodBurstOnPort(blocked, sender, |blocked|, port);
  }

  lemma AfterUserCopy(before: seq<Sending>, n: nat, port: nat)
    ensures OnPort(before + [Sending(n, Flood)], port) == OnPort(before, port) + if port == n then [Flood] else []
  {
    OnPortLast(before, Sending(n, Flood), port);
  }

  lemma OpenIff(peers: seq<Addr>, blocked: seq<bool>, i: nat)
    requires |peers| == |blocked| && i < |peers| && Distinct(peers)
    ensures peers[i] in OpenAt(peers, blocked) <==> !blocked[i]
  {
  }

  lemma NeighbourOk(g: Graph, u: Addr, v: Addr)
    requires Valid(g) && Linked(g, u, v)
    ensures v < INVALID_ADDR && v != u
    ensures (u, v) in Init(g).chan && Init(g).chan[(u, v)] == [Stp(Advert(u, InitNode(u)))]
  {
    assert v in g.nbrs && (u, v) in Darts(g);
  }

  /** Start-up: the program holds the initial state and has filled u's channels as the model has. */
  method Boot(ghost g: Graph, u: Addr, ports: nat, hello: Time, election: Time, now: Time, now2: Time, ghost wiring: seq<Addr>)
    returns (node: Node)
    requires Valid(g) && u in g.nbrs && ports == |wiring| <= 255 && Distinct(wiring) && forall v :: v in g.nbrs[u] <==> v in wiring
    ensures fresh(node) && fresh(node.neighborsAddr) && fresh(node.neighborsBlocked)
    ensures Stands(node, g, Init(g), u) && node.peers == wiring && OnPort(node.sent, ports) == []
    ensures forall i {:trigger wiring[i]} | 0 <= i < |wiring| ::
              (u, wiring[i]) in Init(g).chan && OnPort(node.sent, i) == Init(g).chan[(u, wiring[i])]
  {
    forall i | 0 <= i < |wiring| ensures wiring[i] < INVALID_ADDR && wiring[i] != u {
      assert wiring[i] in wiring && Linked(g, u, wiring[i]);
      NeighbourOk(g, u, wiring[i]);
    }
    node := new Node(u, ports, hello, election, now, now2, wiring);
    StpBurstOnPort(ports, Advert(u, InitNode(u)), ports);
    forall i | 0 <= i < |wiring|
      ensures (u, wiring[i]) in Init(g).chan && OnPort(node.sent, i) == Init(g).chan[(u, wiring[i])]
    {
      assert wiring[i] in wiring && Linked(g, u, wiring[i]);
      NeighbourOk(g, u, wiring[i]);
      StpBurstOnPort(ports, Advert(u, InitNode(u)), i);
    }
  }

  /** The packet at the head of the channel from the neighbour at `port`. */
  ghost predicate Arrives(node: Node, g: Graph, s: Net, port: nat, p: Packet)
    reads node, node.neighborsAddr, node.neighborsBlocked
  {
    && port < node.numNeighbors == |node.peers| && Stands(node, g, s, node.myAddr)
    && Enabled(s, From(node, port)) && p == Head(s, From(node, port)) && (p.Stp? ==> p.adv.sender < INVALID_ADDR)
  }

  ghost function From(node: Node, port: nat): Action
    requires port < |node.peers|
  {
    Action.Deliver(node.peers[port], node.myAddr)
  }

  /** The delivery of an advertisement. */
  method DeliverStp(node: Node, ghost g: Graph, ghost s: Net, port: nat, p: Packet, now: Time)
    requires Arrives(node, g, s, port, p) && p.Stp?
    modifies node, node.neighborsAddr, node.neighborsBlocked
    ensures Took(node, s, From(node, port), old(node.sent))
  {
    ghost var a, before := From(node, port), node.sent;
    var ok := node.HandlePacket(port, p, now);
    ghost var adv := Advert(node.myAddr, node.State());
    assert node.sent == if Advertises(s, a) then before + StpBurst(node.numNeighbors, adv) else before;
    forall i | 0 <= i < |node.peers|
      ensures OnPort(node.sent, i) == OnPort(before, i) + Sent(s, a, (Actor(a), node.peers[i]))
    {
      AfterStpBurst(before, node.numNeighbors, adv, i);
    }
    AfterStpBurst(before, node.numNeighbors, adv, node.numNeighbors);
  }

  /** The delivery of a FLOOD. */
  method DeliverFlood(node: Node, ghost g: Graph, ghost s: Net, port: nat, now: Time)
    requires Arrives(node, g, s, port, Flood)
    modifies node, node.neighborsAddr, node.neighborsBlocked
    ensures Took(node, s, From(node, port), old(node.sent))
  {
    ghost var a, before, blocked := From(node, port), node.sent, node.neighborsBlocked[..];
    var ok := node.HandlePacket(port, Flood, now);
    ghost var burst := FloodBurst(blocked, port, node.numNeighbors);
    assert node.sent == if AcceptsFlood(s, a) then before + burst + [Sending(node.numNeighbors, Flood)] else before;
    forall i | 0 <= i < |node.peers|
      ensures OnPort(node.sent, i) == OnPort(before, i) + Sent(s, a, (Actor(a), node.peers[i]))
    {
      OpenIff(node.peers, blocked, i);
      assert i != port ==> node.peers[i] != node.peers[port];
      AfterFloodBurst(before, blocked, port, i);
      AfterUserCopy(before + burst, node.numNeighbors, i);
    }
    AfterFloodBurst(before, blocked, port, node.numNeighbors);
    AfterUserCopy(before + burst, node.numNeighbors, node.numNeighbors);
  }

  /** The delivery of any packet. */
  method Deliver(node: Node, ghost g: Graph, ghost s: Net, port: nat, p: Packet, now: Time)
    requires Arrives(node, g, s, port, p)
    modifies node, node.neighborsAddr, node.neighborsBlocked
    ensures Took(node, s, From(node, port), old(node.sent))
  {
    if p.Stp? {
      DeliverStp(node, g, s, port, p, now);
    } else {
      DeliverFlood(node, g, s, port, now);
    }
  }

  /** A FLOOD from the user. */
  method Inject(node: Node, ghost g: Graph, ghost s: Net, now: Time)
    requires node.numNeighbors == |node.peers| && Stands(node, g, s, node.myAddr)
    modifies node, node.neighborsAddr, node.neighborsBlocked
    ensures Took(node, s, UserFlood(node.myAddr), old(node.sent))
  {
    ghost var a, before, blocked := UserFlood(node.myAddr), node.sent, node.neighborsBlocked[..];
    var ok := node.HandlePacket(node.numNeighbors, Flood, now);
    forall i | 0 <= i < |node.peers|
      ensures OnPort(node.sent, i) == OnPort(before, i) + Sent(s, a, (Actor(a), node.peers[i]))
    {
      OpenIff(node.peers, blocked, i);
      AfterFloodBurst(before, blocked, node.numNeighbors, i);
    }
    AfterFloodBurst(before, blocked, node.numNeighbors, node.numNeighbors);
  }

  /** The timers: a hello step, an election step, or nothing. */
  method Tick(node: Node, ghost g: Graph, ghost s: Net, t: Readings)
    requires node.numNeighbors == |node.peers| && Stands(node, g, s, node.myAddr)
    modifies node
    ensures old(node.HelloDue(t.helloCheck)) ==> Enabled(s, Hello(node.myAddr)) && Took(node, s, Hello(node.myAddr), old(node.sent))
    ensures old(node.ElectionDue(t.electionCheck)) ==>
              Enabled(s, Reelect(node.myAddr)) && Took(node, s, Reelect(node.myAddr), old(node.sent))
    ensures !old(node.HelloDue(t.helloCheck)) && !old(node.ElectionDue(t.electionCheck)) ==>
              Stands(node, g, s, node.myAddr) && node.sent == old(node.sent)
  {
    ghost var before := node.sent;
    node.Timers(t);
    forall i: nat ensures OnPort(before + StpBurst(node.numNeighbors, Advert(node.myAddr, node.State())), i)
                       == OnPort(before, i) + if i < node.numNeighbors then [Stp(Advert(node.myAddr, node.State()))] else []
    {
      AfterStpBurst(before, node.numNeighbors, Advert(node.myAddr, node.State()), i);
    }
  }

  /** The same, with the step taken as a result. */
  method TickStep(node: Node, ghost g: Graph, ghost s: Net, t: Readings) returns (ghost act: Option<Action>)
    requires node.numNeighbors == |node.peers| && Stands(node, g, s, node.myAddr)
    modifies node
    ensures act.None? ==> Stands(node, g, s, node.myAddr) && node.sent == old(node.sent)
    ensures act.Some? ==> (act.value == Hello(node.myAddr) || act.value == Reelect(node.myAddr))
                          && Enabled(s, act.value) && Took(node, s, act.value, old(node.sent))
  {
    act := if node.HelloDue(t.helloCheck) then Some(Hello(node.myAddr))
           else if node.ElectionDue(t.electionCheck) then Some(Reelect(node.myAddr)) else None;
    Tick(node, g, s, t);
  }
}
