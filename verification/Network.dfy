/** The network as a step system: node states, one FIFO channel per directed link,
    and the counters of the users' FLOOD packets. */
module Network {
  import opened Overlay
  import opened NodeModel

  /** `chan[(v, u)]` is in flight from `v` to `u`; `user[u]` counts the FLOODs handed to u's user,
      `injected[u]` those that u's user has sent. */
  datatype Net = Net(nodes: map<Addr, NodeState>, chan: map<Dart, seq<Packet>>,
                     user: map<Addr, nat>, injected: map<Addr, nat>)

  datatype Action =
    | Deliver(from: Addr, to: Addr)
    | Hello(node: Addr)
    | Reelect(node: Addr)
    | UserFlood(node: Addr)

  ghost predicate WellFormed(g: Graph, s: Net) {
    && s.nodes.Keys == g.nbrs.Keys
    && s.chan.Keys == Darts(g)
    && s.user.Keys == g.nbrs.Keys
    && s.injected.Keys == g.nbrs.Keys
  }

  /** Every node has sent its first advertisement to all neighbours. */
  ghost function Init(g: Graph): Net {
    Net(map u | u in g.nbrs :: InitNode(u),
        map d | d in Darts(g) :: [Stp(Advert(d.0, InitNode(d.0)))],
        map u | u in g.nbrs :: 0,
        map u | u in g.nbrs :: 0)
  }

  /** The node that takes the step. */
  function Actor(a: Action): Addr {
    match a
    case Deliver(_, u) => u
    case Hello(u) => u
    case Reelect(u) => u
    case UserFlood(u) => u
  }

  ghost predicate Enabled(s: Net, a: Action) {
    && Actor(a) in s.nodes && Actor(a) in s.user && Actor(a) in s.injected
    && match a
       case Deliver(v, u) => (v, u) in s.chan && s.chan[(v, u)] != []
       case Hello(u) => s.nodes[u].root == u
       case Reelect(u) => s.nodes[u].root != u
       case UserFlood(u) => true
  }

  /** The packet that a delivery takes out of its channel. */
  ghost function Head(s: Net, a: Action): Packet
    requires a.Deliver? && Enabled(s, a)
  {
    s.chan[(a.from, a.to)][0]
  }

  ghost predicate TakesStp(s: Net, a: Action) {
    a.Deliver? && Enabled(s, a) && Head(s, a).Stp?
  }

  /** A FLOOD that arrives on an unblocked port. */
  ghost predicate AcceptsFlood(s: Net, a: Action) {
    a.Deliver? && Enabled(s, a) && Head(s, a).Flood? && a.from in s.nodes[a.to].open
  }

  /** The acting node's state after the step. */
  ghost function NodeAfter(s: Net, a: Action): NodeState
    requires Enabled(s, a)
  {
    var n := s.nodes[Actor(a)];
    if TakesStp(s, a) then HandleStp(n, a.from, Head(s, a).adv)
    else if a.Reelect? then Reelected(a.node, n)
    else n
  }

  /** Whether the acting node sends its advertisement on every port. */
  ghost predicate Advertises(s: Net, a: Action)
    requires Enabled(s, a)
  {
    || a.Hello?
    || a.Reelect?
    || (TakesStp(s, a) && Rebroadcasts(s.nodes[a.to], a.from, Head(s, a).adv))
  }

  /** The neighbours to which the acting node sends a FLOOD. */
  ghost function FloodsTo(s: Net, a: Action): set<Addr>
    requires Enabled(s, a)
  {
    if a.UserFlood? then s.nodes[a.node].open
    else if AcceptsFlood(s, a) then s.nodes[a.to].open - {a.from}
    else {}
  }

  /** What the step appends to channel `d`. */
  ghost function Sent(s: Net, a: Action, d: Dart): seq<Packet>
    requires Enabled(s, a)
  {
    if d.0 != Actor(a) then []
    else if Advertises(s, a) then [Stp(Advert(d.0, NodeAfter(s, a)))]
    else if d.1 in FloodsTo(s, a) then [Flood]
    else []
  }

  /** What the step leaves of channel `d`. */
  ghost function Rest(s: Net, a: Action, d: Dart): seq<Packet>
    requires Enabled(s, a) && d in s.chan
  {
    if a.Deliver? && d == (a.from, a.to) then s.chan[d][1..] else s.chan[d]
  }

  ghost function Next(s: Net, a: Action): Net
    requires Enabled(s, a)
  {
    var u := Actor(a);
    Net(s.nodes[u := NodeAfter(s, a)],
        map d | d in s.chan :: Rest(s, a, d) + Sent(s, a, d),
        if AcceptsFlood(s, a) then s.user[u := s.user[u] + 1] else s.user,
        if a.UserFlood? then s.injected[u := s.injected[u] + 1] else s.injected)
  }

  ghost predicate Step(s: Net, a: Action, s': Net) {
    Enabled(s, a) && s' == Next(s, a)
  }

  ghost predicate StepAt(ss: seq<Net>, acts: seq<Action>, i: int)
    requires |ss| == |acts| + 1
  {
    0 <= i < |acts| ==> Step(ss[i], acts[i], ss[i + 1])
  }

  ghost predicate IsRun(ss: seq<Net>, acts: seq<Action>) {
    && |ss| == |acts| + 1
    && (forall i {:trigger StepAt(ss, acts, i)} :: StepAt(ss, acts, i))
  }

  /** No election timer fires during the run. */
  ghost predicate Calm(acts: seq<Action>) {
    forall i | 0 <= i < |acts| :: !acts[i].Reelect?
  }

  /** No STP packet is in flight. */
  ghost predicate Drained(s: Net) {
    forall d, a | d in s.chan :: Stp(a) !in s.chan[d]
  }

  /** `s` ends a run from the initial state. */
  ghost predicate Reachable(g: Graph, s: Net) {
    exists ss, acts :: IsRun(ss, acts) && ss[0] == Init(g) && ss[|acts|] == s
  }

  /** `s` ends a run from the initial state without any re-election. */
  ghost predicate CalmReachable(g: Graph, s: Net) {
    exists ss, acts :: IsRun(ss, acts) && Calm(acts) && ss[0] == Init(g) && ss[|acts|] == s
  }

  lemma StepWellFormed(g: Graph, s: Net, a: Action, s': Net)
    requires WellFormed(g, s) && Step(s, a, s')
    ensures WellFormed(g, s')
  {
  }

  /** Where a packet of the next state comes from: it was in flight before, or the acting node has just sent
      it, a FLOOD to one of the neighbours it forwards to, an advertisement of its new state to any. */
  lemma PacketOrigin(s: Net, a: Action, s': Net, d: Dart, p: Packet)
    requires Step(s, a, s') && d in s'.chan && p in s'.chan[d]
    ensures d in s.chan
    ensures || p in Rest(s, a, d)
            || (d.0 == Actor(a) && d.1 in FloodsTo(s, a) && !Advertises(s, a) && p == Flood)
            || (d.0 == Actor(a) && Advertises(s, a) && p == Stp(Advert(d.0, s'.nodes[d.0])))
    ensures p in Rest(s, a, d) ==> p in s.chan[d]
  {
    assert s'.chan[d] == Rest(s, a, d) + Sent(s, a, d);
  }
}
