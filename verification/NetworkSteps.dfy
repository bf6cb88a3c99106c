/** What each kind of step does, in terms of the network's variables alone. */
module NetworkSteps {
  import opened Overlay
  import opened NodeModel
  import opened Network
  import opened StpInvariants

  /** The step leaves all channels but those of `u` alone, except for the packet it takes. */
  ghost predicate OnlySends(s: Net, a: Action, s': Net, u: Addr) {
    forall d | d in s.chan && d.0 != u ::
      d in s'.chan && s'.chan[d] == if a.Deliver? && d == (a.from, a.to) && s.chan[d] != [] then s.chan[d][1..] else s.chan[d]
  }

  /** A step changes no node but the one that acts, and sends on no channel but its own. */
  lemma ActsAlone(s: Net, a: Action, s': Net)
    requires Step(s, a, s') && (a.Deliver? ==> a.from != a.to)
    ensures s'.nodes.Keys == s.nodes.Keys && forall v | v in s.nodes && v != Actor(a) :: s'.nodes[v] == s.nodes[v]
    ensures OnlySends(s, a, s', Actor(a))
  {
  }

  /** A re-election makes the node its own root at length 0, keeps what it has learned and opened, and puts
      that advertisement last on each of its channels. */
  lemma ReelectStep(s: Net, u: Addr, s': Net)
    requires Step(s, Reelect(u), s')
    ensures s.nodes[u].root != u
    ensures s'.nodes == s.nodes[u := NodeState(u, 0, u, s.nodes[u].learned, s.nodes[u].open)]
    ensures forall v | (u, v) in s.chan :: (u, v) in s'.chan && s'.chan[(u, v)] == s.chan[(u, v)] + [Stp(Adv(u, 0, u))]
    ensures s'.user == s.user && s'.injected == s.injected
  {
  }

  /** A hello changes no node, and puts the root's advertisement last on each of its channels. */
  lemma HelloStep(g: Graph, s: Net, u: Addr, s': Net)
    requires LocalInv(g, s) && Step(s, Hello(u), s')
    ensures s.nodes[u].root == u && s'.nodes == s.nodes
    ensures forall v | (u, v) in s.chan :: (u, v) in s'.chan && s'.chan[(u, v)] == s.chan[(u, v)] + [Stp(Adv(u, 0, u))]
    ensures s'.user == s.user && s'.injected == s.injected
  {
    assert NodeOk(g, u, s.nodes[u]);
  }

  /** The first advertisement on a port teaches the neighbour, opens the port, and does nothing else. */
  lemma FirstHearing(g: Graph, s: Net, a: Action, s': Net)
    requires LocalInv(g, s) && Step(s, a, s') && TakesStp(s, a) && a.from !in s.nodes[a.to].learned
    ensures var n := s.nodes[a.to];
            s'.nodes == s.nodes[a.to := n.(learned := n.learned + {a.from}, open := n.open + {a.from})]
    ensures forall v | (a.to, v) in s.chan && v != a.from :: (a.to, v) in s'.chan && s'.chan[(a.to, v)] == s.chan[(a.to, v)]
  {
    assert (a.from, a.to) in s.chan && Stp(Head(s, a).adv) in s.chan[(a.from, a.to)];
    assert a.to in g.nbrs && NodeOk(g, a.to, s.nodes[a.to]);
    forall v | (a.to, v) in s.chan && v != a.from ensures (a.to, v) in s'.chan && s'.chan[(a.to, v)] == s.chan[(a.to, v)] {
      assert Sent(s, a, (a.to, v)) == [] && s.chan[(a.to, v)] + [] == s.chan[(a.to, v)];
    }
  }

  /** Every step short of a re-election that changes a node's root, length or parent is the delivery of a
      better advertisement, which the node takes over; it leaves open the port to the new parent and no
      other, and advertises the new state on every channel. */
  lemma AdoptionBlocks(g: Graph, s: Net, a: Action, s': Net, u: Addr)
    requires LocalInv(g, s) && Step(s, a, s') && !a.Reelect? && u in g.nbrs
    requires s'.nodes[u].root != s.nodes[u].root || s'.nodes[u].dist != s.nodes[u].dist || s'.nodes[u].next != s.nodes[u].next
    ensures TakesStp(s, a) && a.to == u && a.from in s.nodes[u].learned
    ensures var adv, n := Head(s, a).adv, s.nodes[u];
            && (adv.root < n.root || (adv.root == n.root && (adv.len + 1 < n.dist || (adv.len + 1 == n.dist && a.from < n.next))))
            && s'.nodes[u] == NodeState(adv.root, adv.len + 1, a.from, n.learned, {a.from})
    ensures forall v | (u, v) in s.chan && v != a.from ::
              (u, v) in s'.chan && s'.chan[(u, v)] == s.chan[(u, v)] + [Stp(Adv(s'.nodes[u].root, Narrow(s'.nodes[u].dist), u))]
  {
    TripleChange(s, a, s', u);
    assert Head(s, a).adv.sender == a.from;
  }

  /** Any other advertisement on a learned port changes at most that port's flag: open for the parent and for a
      node one hop further out, blocked otherwise. */
  lemma OtherHearing(g: Graph, s: Net, a: Action, s': Net)
    requires LocalInv(g, s) && Step(s, a, s') && TakesStp(s, a) && a.from in s.nodes[a.to].learned
    requires SameTriple(s.nodes[a.to], s'.nodes[a.to])
    ensures var n, adv := s.nodes[a.to], Head(s, a).adv;
            if a.from == n.next && adv.root == n.root && adv.len + 1 == n.dist then s'.nodes == s.nodes
            else s'.nodes == s.nodes[a.to := n.(open := if a.from == n.next || (adv.root == n.root && adv.len == n.dist + 1)
                                                         then n.open + {a.from} else n.open - {a.from})]
  {
    assert (a.from, a.to) in s.chan && Stp(Head(s, a).adv) in s.chan[(a.from, a.to)];
    assert Head(s, a).adv.sender == a.from;
  }

  /** A user's FLOOD goes out on every open port of its node, once, and nowhere else. */
  lemma UserFloodStep(s: Net, u: Addr, s': Net)
    requires Step(s, UserFlood(u), s')
    ensures s'.nodes == s.nodes && s'.user == s.user && s'.injected == s.injected[u := s.injected[u] + 1]
    ensures forall v | (u, v) in s.chan ::
              (u, v) in s'.chan && s'.chan[(u, v)] == s.chan[(u, v)] + if v in s.nodes[u].open then [Flood] else []
  {
  }

  /** A FLOOD on an open port goes to the user and out on every other open port; on a blocked port it is dropped. */
  lemma FloodStep(s: Net, a: Action, s': Net)
    requires Step(s, a, s') && a.Deliver? && Head(s, a).Flood? && a.from != a.to
    ensures s'.nodes == s.nodes && s'.injected == s.injected
    ensures s'.user == if a.from in s.nodes[a.to].open then s.user[a.to := s.user[a.to] + 1] else s.user
    ensures forall v | (a.to, v) in s.chan ::
              (a.to, v) in s'.chan && s'.chan[(a.to, v)] == s.chan[(a.to, v)] +
                if a.from in s.nodes[a.to].open && v in s.nodes[a.to].open && v != a.from then [Flood] else []
  {
  }
}
