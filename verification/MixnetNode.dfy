/** The node program itself: port arrays updated in place, proved against the value model. */
module MixnetNode {
  import opened Basics
  import opened Overlay
  import opened NodeModel

  /** The stored form of an address: a signed 16-bit number, so that -1 can mean "none". */
  function AsInt16(a: nat): (r: int)
    requires a < 0x1_0000
    ensures -0x8000 <= r < 0x8000 && (r == a || r == a - 0x1_0000)
  {
    if a < 0x8000 then a else a - 0x1_0000
  }

  const NO_ADDRESS: int := -1

  /** The difference of two readings of the 32-bit millisecond clock, which wraps around. */
  function Elapsed(now: nat, since: nat): (ms: nat)
    requires now < 0x1_0000_0000 && since < 0x1_0000_0000
    ensures ms < 0x1_0000_0000 && (since + ms == now || since + ms == now + 0x1_0000_0000)
  {
    if since <= now then now - since else now + 0x1_0000_0000 - since
  }

  /** A reading of the clock. */
  type Time = t: nat | t < 0x1_0000_0000

  /** The readings that the timers may take in one pass of the main loop, in this order. */
  datatype Readings = Readings(helloCheck: Time, helloSent: Time, helloSeen: Time, electionCheck: Time, elected: Time)

  /** The neighbours at the ports that have an address. */
  ghost function LearnedAt(peers: seq<Addr>, addrs: seq<int>): set<Addr>
    requires |peers| == |addrs|
  {
    set i | 0 <= i < |peers| && addrs[i] != NO_ADDRESS :: peers[i]
  }

  /** The neighbours at the unblocked ports. */
  ghost function OpenAt(peers: seq<Addr>, blocked: seq<bool>): set<Addr>
    requires |peers| == |blocked|
  {
    set i | 0 <= i < |peers| && !blocked[i] :: peers[i]
  }

  lemma OpenSet(peers: seq<Addr>, blocked: seq<bool>, i: nat, b: bool)
    requires |peers| == |blocked| && i < |peers| && Distinct(peers)
    ensures OpenAt(peers, blocked[i := b])
         == if b then OpenAt(peers, blocked) - {peers[i]} else OpenAt(peers, blocked) + {peers[i]}
  {
    var o, o' := OpenAt(peers, blocked), OpenAt(peers, blocked[i := b]);
    forall v ensures v in o' <==> (if v == peers[i] then !b else v in o) {
      assert blocked[i := b][i] == b;
      assert forall j | 0 <= j < |peers| && j != i :: blocked[i := b][j] == blocked[j];
    }
  }

  lemma LearnSet(peers: seq<Addr>, addrs: seq<int>, i: nat, a: int)
    requires |peers| == |addrs| && i < |peers| && a != NO_ADDRESS
    ensures LearnedAt(peers, addrs[i := a]) == LearnedAt(peers, addrs) + {peers[i]}
  {
    var l, l' := LearnedAt(peers, addrs), LearnedAt(peers, addrs[i := a]);
    forall v | v in l ensures v in l' {
      var j :| 0 <= j < |peers| && addrs[j] != NO_ADDRESS && peers[j] == v;
      assert addrs[i := a][j] != NO_ADDRESS;
    }
    assert addrs[i := a][i] != NO_ADDRESS;
  }

  lemma LearnedIff(peers: seq<Addr>, addrs: seq<int>, i: nat)
    requires |peers| == |addrs| && i < |peers| && Distinct(peers)
    ensures peers[i] in LearnedAt(peers, addrs) <==> addrs[i] != NO_ADDRESS
  {
  }

  /** What goes out on one port. */
  datatype Sending = Sending(port: nat, packet: Packet)

  /** One copy of the advertisement on each of the first `n` ports, in order. */
  function StpBurst(n: nat, a: Adv): seq<Sending> {
    seq(n, i requires 0 <= i < n => Sending(i, Stp(a)))
  }

  /** A FLOOD on each unblocked port below `n` except the one it came from, in order. */
  function FloodBurst(blocked: seq<bool>, sender: nat, n: nat): seq<Sending>
    requires n <= |blocked|
  {
    if n == 0 then []
    else if !blocked[n - 1] && n - 1 != sender then FloodBurst(blocked, sender, n - 1) + [Sending(n - 1, Flood)]
    else FloodBurst(blocked, sender, n - 1)
  }

  /** The burst reaches exactly the open neighbours other than the sender, each once. */
  lemma {:induction false} FloodBurstExact(blocked: seq<bool>, sender: nat, n: nat)
    requires n <= |blocked|
    ensures var b := FloodBurst(blocked, sender, n);
            && (forall i | 0 <= i < |b| :: b[i].packet == Flood && b[i].port < n && !blocked[b[i].port] && b[i].port != sender)
            && (forall i, j | 0 <= i < j < |b| :: b[i].port < b[j].port)
            && (forall p | 0 <= p < n && !blocked[p] && p != sender :: Sending(p, Flood) in b)
  {
    if n > 0 {
      FloodBurstExact(blocked, sender, n - 1);
    }
  }

  /** In terms of neighbours: all open ones except the sender. */
  lemma FloodBurstPeers(peers: seq<Addr>, blocked: seq<bool>, sender: nat)
    requires |peers| == |blocked| && Distinct(peers)
    ensures var b := FloodBurst(blocked, sender, |blocked|);
            && (forall i | 0 <= i < |b| :: b[i].port < |peers|)
            && (set i | 0 <= i < |b| :: peers[b[i].port])
               == OpenAt(peers, blocked) - (if sender < |peers| then {peers[sender]} else {})
  {
    var b := FloodBurst(blocked, sender, |blocked|);
    FloodBurstExact(blocked, sender, |blocked|);
    var reached := set i | 0 <= i < |b| :: peers[b[i].port];
    forall v | v in OpenAt(peers, blocked) && !(sender < |peers| && v == peers[sender]) ensures v in reached {
      var p :| 0 <= p < |peers| && !blocked[p] && peers[p] == v;
      assert Sending(p, Flood) in b;
    }
  }

  /** The model's rule, but for an advertisement that names the address stored as "none": it opens the port
      and leaves it unlearned. */
  ghost function Noted(n: NodeState, from: Addr, a: Adv): NodeState {
    if from !in n.learned && a.sender == INVALID_ADDR then n.(open := n.open + {from}) else NodeModel.ReceiveStp(n, from, a)
  }

  /** Lexicographically better than root `r`, length `d` and parent `h`. */
  predicate Better(a: Adv, r: Addr, d: nat, h: Addr) {
    a.root < r || (a.root == r && (a.len + 1 < d || (a.len + 1 == d && a.sender < h)))
  }

  class Node {
    const numNeighbors: nat
    const neighborsAddr: array<int>
    const neighborsBlocked: array<bool>
    const myAddr: Addr
    var rootAddr: Addr
    var nextHop: Addr
    var pathLen: nat
    const helloInterval: Time
    const electionInterval: Time
    /** When the node last said hello, and when it last had a sign of its root. */
    var heartbeatTime: Time
    var electionTime: Time
    /** Everything handed to the network so far; the user's port is `numNeighbors`. */
    var sent: seq<Sending>
    /** Who is at the other end of each port; the program does not know. */
    ghost const peers: seq<Addr>

    ghost predicate Valid()
      reads this, neighborsAddr, neighborsBlocked
    {
      && numNeighbors == |peers| == neighborsAddr.Length == neighborsBlocked.Length
      && Distinct(peers)
      && (forall i | 0 <= i < |peers| :: peers[i] < INVALID_ADDR && peers[i] != myAddr)
    }

    ghost function State(): NodeState
      requires Valid()
      reads this, neighborsAddr, neighborsBlocked
    {
      NodeState(rootAddr, pathLen, nextHop, LearnedAt(peers, neighborsAddr[..]), OpenAt(peers, neighborsBlocked[..]))
    }

    /** Start-up: the node believes itself root, knows nobody, and says so on every port. */
    constructor (addr: Addr, ports: nat, hello: Time, election: Time, now: Time, now2: Time, ghost wiring: seq<Addr>)
      requires ports == |wiring| <= 255 && Distinct(wiring)
      requires forall i | 0 <= i < |wiring| :: wiring[i] < INVALID_ADDR && wiring[i] != addr
      ensures Valid() && fresh(neighborsAddr) && fresh(neighborsBlocked)
      ensures peers == wiring && myAddr == addr
      ensures helloInterval == hello && electionInterval == election && electionTime == now && heartbeatTime == now2
      ensures rootAddr == nextHop == addr && pathLen == 0 && numNeighbors == ports
      ensures forall i | 0 <= i < ports :: neighborsAddr[i] == NO_ADDRESS && neighborsBlocked[i]
      ensures State() == InitNode(addr)
      ensures sent == StpBurst(ports, Advert(addr, InitNode(addr)))
    {
      numNeighbors := ports;
      neighborsAddr := new int[ports](_ => NO_ADDRESS);
      neighborsBlocked := new bool[ports](_ => true);
      rootAddr, myAddr, nextHop, pathLen := addr, addr, addr, 0;
      helloInterval, electionInterval, electionTime, heartbeatTime := hello, election, now, now2;
      peers := wiring;
      sent := [];
      new;
      SendStp();
    }

    /** Advertise the present state on every neighbour port, blocked or not. */
    method SendStp()
      requires Valid()
      modifies this`sent
      ensures Valid() && State() == old(State())
      ensures sent == old(sent) + StpBurst(numNeighbors, Advert(myAddr, State()))
      ensures Announces(old(sent))
    {
      var a := Adv(rootAddr, Narrow(pathLen), myAddr);
      var i := 0;
      while i < numNeighbors
        invariant i <= numNeighbors
        invariant sent == old(sent) + StpBurst(i, a)
      {
        sent := sent + [Sending(i, Stp(a))];
        i := i + 1;
      }
    }

    /** Forward a FLOOD on the unblocked ports other than `sender`, and to the user unless it is the sender. */
    method SendFlood(sender: nat)
      requires Valid()
      modifies this`sent
      ensures Valid() && State() == old(State())
      ensures sent == old(sent) + FloodBurst(neighborsBlocked[..], sender, numNeighbors)
                      + (if sender != numNeighbors then [Sending(numNeighbors, Flood)] else [])
    {
      var i := 0;
      while i < numNeighbors
        invariant i <= numNeighbors
        invariant sent == old(sent) + FloodBurst(neighborsBlocked[..], sender, i)
      {
        if !neighborsBlocked[i] && i != sender {
          sent := sent + [Sending(i, Flood)];
        }
        i := i + 1;
      }
      if sender != numNeighbors {
        sent := sent + [Sending(numNeighbors, Flood)];
      }
    }

    /** Since `before`, one advertisement of the present state has gone out on every neighbour port. */
    ghost predicate Announces(before: seq<Sending>)
      reads this
    {
      && |sent| == |before| + numNeighbors && sent[..|before|] == before
      && forall i | 0 <= i < numNeighbors :: sent[|before| + i] == Sending(i, Stp(Adv(rootAddr, Narrow(pathLen), myAddr)))
    }

    method BlockAll()
      requires Valid()
      modifies neighborsBlocked
      ensures Valid() && State() == old(State()).(open := {})
      ensures forall i | 0 <= i < numNeighbors :: neighborsBlocked[i]
    {
      var i := 0;
      while i < numNeighbors
        invariant i <= numNeighbors
        invariant forall j | 0 <= j < i :: neighborsBlocked[j]
      {
        neighborsBlocked[i] := true;
        i := i + 1;
      }
      assert OpenAt(peers, neighborsBlocked[..]) == {};
    }

    method SetBlocked(port: nat, b: bool)
      requires Valid() && port < numNeighbors
      modifies neighborsBlocked
      ensures Valid() && neighborsBlocked[..] == old(neighborsBlocked[..])[port := b]
      ensures State() == old(State()).(open := if b then old(State()).open - {peers[port]}
                                               else old(State()).open + {peers[port]})
    {
      OpenSet(peers, neighborsBlocked[..], port, b);
      assert neighborsBlocked[..][port := b] == neighborsBlocked[..][..port] + [b] + neighborsBlocked[..][port + 1..];
      neighborsBlocked[port] := b;
      assert neighborsBlocked[..] == old(neighborsBlocked[..])[port := b];
    }

    /** Record the address of the neighbour at `port`. */
    method Learn(port: nat, addr: Addr)
      requires Valid() && port < numNeighbors && addr < 0x1_0000 && neighborsAddr[port] == NO_ADDRESS
      modifies neighborsAddr
      ensures Valid() && neighborsAddr[..] == old(neighborsAddr[..])[port := AsInt16(addr)]
      ensures State() == if addr == INVALID_ADDR then old(State()) else old(State()).(learned := old(State()).learned + {peers[port]})
    {
      if addr != INVALID_ADDR {
        LearnSet(peers, neighborsAddr[..], port, AsInt16(addr));
      }
      neighborsAddr[port] := AsInt16(addr);
      assert neighborsAddr[..] == old(neighborsAddr[..])[port := AsInt16(addr)];
    }

    /** Take over a better root, a shorter path or a lower parent; tells whether anything changed. */
    method Update(a: Adv) returns (changed: bool)
      requires Valid()
      modifies this`rootAddr, this`pathLen, this`nextHop
      ensures Valid() && changed == Improves(old(State()), a)
      ensures changed == Better(a, old(rootAddr), old(pathLen), old(nextHop))
      ensures if changed then rootAddr == a.root && pathLen == a.len + 1 && nextHop == a.sender
              else rootAddr == old(rootAddr) && pathLen == old(pathLen) && nextHop == old(nextHop)
      ensures State() == if changed then Adopt(old(State()), a).(open := old(State()).open) else old(State())
    {
      changed := false;
      if a.root < rootAddr {
        rootAddr, pathLen, nextHop := a.root, a.len + 1, a.sender;
        changed := true;
      } else if a.root == rootAddr && a.len + 1 < pathLen {
        pathLen, nextHop := a.len + 1, a.sender;
        changed := true;
      } else if a.root == rootAddr && a.len + 1 == pathLen && a.sender < nextHop {
        nextHop := a.sender;
        changed := true;
      }
    }

    /** An advertisement that is not the parent's repetition. On a port without an address it only leaves its
        sender there and opens the port. Otherwise, if it is better, the node takes it over, blocks every port
        but this one and says so; if not, only this port's flag is set, open for the parent and for a node
        one hop further out. */
    method ReceiveStp(port: nat, a: Adv)
      requires Valid() && port < numNeighbors && a.sender < 0x1_0000
      modifies this`rootAddr, this`pathLen, this`nextHop, this`sent, neighborsAddr, neighborsBlocked
      ensures old(neighborsAddr[port]) == NO_ADDRESS ==>
                && rootAddr == old(rootAddr) && pathLen == old(pathLen) && nextHop == old(nextHop) && sent == old(sent)
                && neighborsAddr[..] == old(neighborsAddr[..])[port := AsInt16(a.sender)]
                && neighborsBlocked[..] == old(neighborsBlocked[..])[port := false]
      ensures old(neighborsAddr[port]) != NO_ADDRESS ==> neighborsAddr[..] == old(neighborsAddr[..])
      ensures old(neighborsAddr[port]) != NO_ADDRESS && Better(a, old(rootAddr), old(pathLen), old(nextHop)) ==>
                && rootAddr == a.root && pathLen == a.len + 1 && nextHop == a.sender
                && (forall i | 0 <= i < numNeighbors :: neighborsBlocked[i] <==> i != port)
                && Announces(old(sent))
      ensures old(neighborsAddr[port]) != NO_ADDRESS && !Better(a, old(rootAddr), old(pathLen), old(nextHop)) ==>
                && rootAddr == old(rootAddr) && pathLen == old(pathLen) && nextHop == old(nextHop) && sent == old(sent)
                && neighborsBlocked[..] == old(neighborsBlocked[..])[port :=
                     !(a.sender == nextHop || (a.root == rootAddr && a.len == pathLen + 1))]
      ensures Valid() && State() == Noted(old(State()), peers[port], a)
      ensures var adopts := peers[port] in old(State()).learned && Improves(old(State()), a);
              sent == old(sent) + (if adopts then StpBurst(numNeighbors, Advert(myAddr, State())) else [])
    {
      LearnedIff(peers, neighborsAddr[..], port);
      if neighborsAddr[port] == NO_ADDRESS {
        Learn(port, a.sender);
        SetBlocked(port, false);
      } else {
        var changed := Update(a);
        if changed {
          SendStp();
          BlockAll();
        }
        if a.sender == nextHop {
          SetBlocked(port, false);
        } else if a.root == rootAddr && a.len == pathLen + 1 {
          SetBlocked(port, false);
        } else {
          SetBlocked(port, true);
        }
      }
    }

    /** A packet from any port, the user's included. An advertisement on the user's port that is not the
        parent's repetition would make the program index its port tables past their end: `ok` is false. */
    method HandlePacket(port: nat, p: Packet, now: Time) returns (ok: bool)
      requires Valid() && port <= numNeighbors && (p.Stp? ==> p.adv.sender < 0x1_0000)
      modifies this`rootAddr, this`pathLen, this`nextHop, this`sent, this`electionTime, neighborsAddr, neighborsBlocked
      ensures Valid()
      ensures p.Stp? && p.adv.root == old(rootAddr) && p.adv.len + 1 == old(pathLen) && p.adv.sender == old(nextHop) ==>
                && rootAddr == old(rootAddr) && pathLen == old(pathLen) && nextHop == old(nextHop)
                && neighborsAddr[..] == old(neighborsAddr[..]) && neighborsBlocked[..] == old(neighborsBlocked[..])
                && Announces(old(sent)) && electionTime == now
      ensures ok <==> !(p.Stp? && port == numNeighbors && !Matches(old(State()), p.adv))
      ensures electionTime == if p.Stp? && Matches(old(State()), p.adv) then now else old(electionTime)
      ensures p.Stp? && ok && port < numNeighbors ==>
                && State() == (if Matches(old(State()), p.adv) then old(State()) else Noted(old(State()), peers[port], p.adv))
                && sent == old(sent) + (if Rebroadcasts(old(State()), peers[port], p.adv)
                                        then StpBurst(numNeighbors, Advert(myAddr, State())) else [])
      ensures p.Stp? && ok && port == numNeighbors ==>
                State() == old(State()) && sent == old(sent) + StpBurst(numNeighbors, Advert(myAddr, State()))
      ensures !ok ==> State() == old(State()) && sent == old(sent)
      ensures p.Flood? ==>
                && State() == old(State())
                && (port == numNeighbors ==>
                      sent == old(sent) + FloodBurst(old(neighborsBlocked[..]), port, numNeighbors))
                && (port < numNeighbors && peers[port] in old(State()).open ==>
                      sent == old(sent) + FloodBurst(old(neighborsBlocked[..]), port, numNeighbors)
                              + [Sending(numNeighbors, Flood)])
                && (port < numNeighbors && peers[port] !in old(State()).open ==> sent == old(sent))
    {
      ok := true;
      match p
      case Stp(a) =>
        if a.root == rootAddr && a.len + 1 == pathLen && a.sender == nextHop {
          SendStp();
          electionTime := now;
        } else if port < numNeighbors {
          ReceiveStp(port, a);
        } else {
          ok := false;
        }
      case Flood =>
        if port == numNeighbors {
          SendFlood(port);
        } else {
          assert peers[port] in State().open <==> !neighborsBlocked[port];
          if !neighborsBlocked[port] {
            SendFlood(port);
          }
        }
    }

    /** A root, and its hello interval has passed since it last said hello. */
    ghost predicate HelloDue(now: Time)
      reads this
    {
      rootAddr == myAddr && Elapsed(now, heartbeatTime) >= helloInterval
    }

    /** Not a root, and its election interval has passed since the last sign of its root. */
    ghost predicate ElectionDue(now: Time)
      reads this
    {
      rootAddr != myAddr && Elapsed(now, electionTime) >= electionInterval
    }

    /** The timers of the main loop: a root says hello when its interval has passed and never before; a node
        without a sign of its root for the election interval becomes its own root, port tables unchanged,
        and says so; nothing else happens. */
    method Timers(t: Readings)
      requires Valid()
      modifies this`rootAddr, this`pathLen, this`nextHop, this`sent, this`heartbeatTime, this`electionTime
      ensures Valid()
      ensures old(rootAddr) == myAddr ==>
                && rootAddr == myAddr && pathLen == old(pathLen) && nextHop == old(nextHop)
                && if Elapsed(t.helloCheck, old(heartbeatTime)) >= helloInterval
                   then Announces(old(sent)) && heartbeatTime == t.helloSent && electionTime == t.helloSeen
                   else sent == old(sent) && heartbeatTime == old(heartbeatTime) && electionTime == old(electionTime)
      ensures old(rootAddr) != myAddr ==>
                && heartbeatTime == old(heartbeatTime)
                && if Elapsed(t.electionCheck, old(electionTime)) >= electionInterval
                   then rootAddr == nextHop == myAddr && pathLen == 0 && Announces(old(sent)) && electionTime == t.elected
                   else && rootAddr == old(rootAddr) && pathLen == old(pathLen) && nextHop == old(nextHop)
                        && sent == old(sent) && electionTime == old(electionTime)
      ensures neighborsAddr[..] == old(neighborsAddr[..]) && neighborsBlocked[..] == old(neighborsBlocked[..])
      ensures State() == if old(ElectionDue(t.electionCheck)) then Reelected(myAddr, old(State())) else old(State())
      ensures sent == old(sent) + (if old(HelloDue(t.helloCheck)) || old(ElectionDue(t.electionCheck))
                                   then StpBurst(numNeighbors, Advert(myAddr, State())) else [])
      ensures heartbeatTime == if old(HelloDue(t.helloCheck)) then t.helloSent else old(heartbeatTime)
      ensures electionTime == if old(HelloDue(t.helloCheck)) then t.helloSeen
                              else if old(ElectionDue(t.electionCheck)) then t.elected else old(electionTime)
    {
      if rootAddr == myAddr && Elapsed(t.helloCheck, heartbeatTime) >= helloInterval {
        SendStp();
        heartbeatTime := t.helloSent;
        electionTime := t.helloSeen;
      }
      if rootAddr != myAddr && Elapsed(t.electionCheck, electionTime) >= electionInterval {
        rootAddr, pathLen, nextHop := myAddr, 0, myAddr;
        SendStp();
        electionTime := t.elected;
      }
    }
  }
}
