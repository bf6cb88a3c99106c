/** One mixnet node as a value: its protocol variables and how a packet changes them.
    Ports are named by the neighbour at their other end. */
module NodeModel {
  import opened Overlay

  /** The payload of an STP packet. */
  datatype Adv = Adv(root: Addr, len: nat, sender: Addr)

  datatype Packet = Stp(adv: Adv) | Flood

  /** `learned`: neighbours whose port has an address; `open`: neighbours whose port is unblocked. */
  datatype NodeState = NodeState(root: Addr, dist: nat, next: Addr, learned: set<Addr>, open: set<Addr>)

  function InitNode(me: Addr): NodeState {
    NodeState(me, 0, me, {}, {})
  }

  /** Narrowing to the 16 bits of the packet field for the path length. */
  function Narrow(len: nat): (r: nat)
    ensures r < 0x1_0000
    ensures len < 0x1_0000 ==> r == len
    ensures len == 0x1_0000 ==> r == 0
  {
    len % 0x1_0000
  }

  /** What a node says about itself. */
  function Advert(me: Addr, n: NodeState): Adv {
    Adv(n.root, Narrow(n.dist), me)
  }

  /** The advertisement repeats what the node already knows from its parent. */
  predicate Matches(n: NodeState, a: Adv) {
    a.root == n.root && a.len + 1 == n.dist && a.sender == n.next
  }

  /** Lower root, or same root and shorter path, or same root and path and lower parent. */
  predicate Improves(n: NodeState, a: Adv) {
    || a.root < n.root
    || (a.root == n.root && a.len + 1 < n.dist)
    || (a.root == n.root && a.len + 1 == n.dist && a.sender < n.next)
  }

  function Adopt(n: NodeState, a: Adv): NodeState {
    n.(root := a.root, dist := a.len + 1, next := a.sender, open := {})
  }

  /** The port rule applied after the state update. */
  function SetPort(n: NodeState, from: Addr, a: Adv): NodeState {
    if a.sender == n.next || (a.root == n.root && a.len == n.dist + 1)
    then n.(open := n.open + {from})
    else n.(open := n.open - {from})
  }

  /** The first advertisement on a port only teaches the address; later ones may be adopted. */
  function ReceiveStp(n: NodeState, from: Addr, a: Adv): NodeState {
    if from !in n.learned then n.(learned := n.learned + {from}, open := n.open + {from})
    else SetPort(if Improves(n, a) then Adopt(n, a) else n, from, a)
  }

  /** An STP packet that arrives on the port of neighbour `from`. */
  function HandleStp(n: NodeState, from: Addr, a: Adv): NodeState {
    if Matches(n, a) then n else ReceiveStp(n, from, a)
  }

  /** Whether handling the packet makes the node advertise itself on every port. */
  predicate Rebroadcasts(n: NodeState, from: Addr, a: Adv) {
    Matches(n, a) || (from in n.learned && Improves(n, a))
  }

  /** The node's own election timer fires. */
  function Reelected(me: Addr, n: NodeState): NodeState {
    n.(root := me, dist := 0, next := me)
  }

  /** Lexicographic order on (root, path length). */
  predicate Le2(r1: Addr, d1: nat, r2: Addr, d2: nat) {
    r1 < r2 || (r1 == r2 && d1 <= d2)
  }

  /** Lexicographic order on (root, path length, parent). */
  predicate Le3(n: NodeState, r: Addr, d: nat, h: Addr) {
    n.root < r || (n.root == r && (n.dist < d || (n.dist == d && n.next <= h)))
  }

  predicate SameTriple(n: NodeState, n': NodeState) {
    n.root == n'.root && n.dist == n'.dist && n.next == n'.next
  }

  /** Handling a packet never raises the triple, and changes it only to adopt an improvement. */
  lemma HandleStpOrder(n: NodeState, from: Addr, a: Adv)
    ensures var n' := HandleStp(n, from, a);
            && Le3(n', n.root, n.dist, n.next)
            && (SameTriple(n, n') ||
                (from in n.learned && Improves(n, a)
                 && n'.root == a.root && n'.dist == a.len + 1 && n'.next == a.sender))
            && n.learned <= n'.learned <= n.learned + {from}
            && (from in n.learned ==> Le3(n', a.root, a.len + 1, a.sender))
            && (!SameTriple(n, n') ==> Rebroadcasts(n, from, a))
  {
  }
}
