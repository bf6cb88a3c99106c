/** Between timer events the STP exchange dies out from every reachable state, whatever elections came
    before: each delivery of an advertisement lowers a natural number that nothing but a timer raises.
    An adoption lowers the rank of a node. An echo raises the path length by one, and only a node at
    exactly that length echoes again; as there are fewer nodes than 16-bit lengths, some length is
    nobody's, and the echoes stop there at the latest, even if the length wraps around on the way. */
module StpDrain {
  import opened Overlay
  import opened NodeModel
  import opened Network
  import opened StpInvariants
  import opened Runs
  import Sums

  // ------------------------------------------------------------------ the lengths

  /** Every path length fits its field, or has just left it. */
  ghost predicate LengthsOk(s: Net) {
    && (forall u | u in s.nodes :: s.nodes[u].dist <= 0x1_0000)
    && (forall d, a | d in s.chan && Stp(a) in s.chan[d] :: a.len < 0x1_0000)
  }

  ghost predicate DrainInv(g: Graph, s: Net) {
    LocalInv(g, s) && LengthsOk(s)
  }

  lemma LengthStep(s: Net, a: Action, s': Net, d: Dart, adv: Adv)
    requires Step(s, a, s') && LengthsOk(s) && d in s'.chan && Stp(adv) in s'.chan[d]
    ensures adv.len < 0x1_0000
  {
    PacketOrigin(s, a, s', d, Stp(adv));
  }

  lemma DistStep(s: Net, a: Action, s': Net, u: Addr)
    requires Step(s, a, s') && LengthsOk(s) && u in s'.nodes
    ensures s'.nodes[u].dist <= 0x1_0000
  {
    if TakesStp(s, a) && u == a.to {
      assert Stp(Head(s, a).adv) in s.chan[(a.from, a.to)];
    }
  }

  lemma StepDrainInv(g: Graph, s: Net, a: Action, s': Net)
    requires Valid(g) && DrainInv(g, s) && Step(s, a, s')
    ensures DrainInv(g, s')
  {
    StepLocal(g, s, a, s');
    forall u | u in s'.nodes ensures s'.nodes[u].dist <= 0x1_0000 {
      DistStep(s, a, s', u);
    }
    forall d, adv | d in s'.chan && Stp(adv) in s'.chan[d] ensures adv.len < 0x1_0000 {
      LengthStep(s, a, s', d, adv);
    }
  }

  lemma DrainInvAt(g: Graph, ss: seq<Net>, acts: seq<Action>, j: nat)
    requires Valid(g) && IsRun(ss, acts) && j < |acts| && DrainInv(g, ss[j])
    ensures DrainInv(g, ss[j + 1])
  {
    assert Step(ss[j], acts[j], ss[j + 1]) by { assert StepAt(ss, acts, j); }
    StepDrainInv(g, ss[j], acts[j], ss[j + 1]);
  }

  lemma RunDrainInv(g: Graph, ss: seq<Net>, acts: seq<Action>, i: nat)
    requires Valid(g) && IsRun(ss, acts) && DrainInv(g, ss[0]) && i <= |acts|
    ensures DrainInv(g, ss[i])
  {
    var p := t => DrainInv(g, t);
    forall j: nat ensures KeptAt(p, ss, j) {
      if j + 1 < |ss| && p(ss[j]) {
        DrainInvAt(g, ss, acts, j);
      }
    }
    Along(p, ss, i);
  }

  lemma ReachableDrainInv(g: Graph, s: Net)
    requires Valid(g) && Reachable(g, s)
    ensures DrainInv(g, s)
  {
    var ss, acts :| IsRun(ss, acts) && ss[0] == Init(g) && ss[|acts|] == s;
    InitLocal(g);
    assert LengthsOk(Init(g));
    RunDrainInv(g, ss, acts, |acts|);
  }

  // ---------------------------------------------------------------------- the gap

  /** The path lengths of all nodes. */
  ghost function Profile(s: Net): map<Addr, nat> {
    map u | u in s.nodes :: s.nodes[u].dist
  }

  /** Nobody is at length `v`. */
  ghost predicate IsGap(pr: map<Addr, nat>, v: nat) {
    1 <= v <= 0x1_0000 && forall u | u in pr :: pr[u] != v
  }

  ghost function Gap(pr: map<Addr, nat>): nat {
    if exists v: nat :: IsGap(pr, v) then var v: nat :| IsGap(pr, v); v else 1
  }

  /** Fewer nodes than lengths leave one free. */
  lemma {:induction false} FindGap(pr: map<Addr, nat>, nodes: set<Addr>, n: nat) returns (v: nat)
    requires nodes <= pr.Keys && |nodes| < n
    ensures 1 <= v <= n && forall u | u in nodes :: pr[u] != v
    decreases n
  {
    var at := set u | u in nodes && pr[u] == n;
    if at == {} {
      v := n;
      assert forall u | u in nodes :: u !in at;
    } else {
      var u :| u in at;
      var rest := nodes - at;
      assert |rest| < |nodes| by {
        assert rest <= nodes - {u} && |nodes - {u}| == |nodes| - 1;
        Smaller(rest, nodes - {u});
      }
      v := FindGap(pr, rest, n - 1);
      assert forall w | w in nodes :: w in rest || w in at;
    }
  }

  lemma Smaller(a: set<Addr>, b: set<Addr>)
    requires a <= b
    ensures |a| <= |b|
  {
    assert b == a + (b - a);
  }

  lemma GapExists(g: Graph, s: Net)
    requires Valid(g) && WellFormed(g, s)
    ensures IsGap(Profile(s), Gap(Profile(s)))
  {
    NodeCount(g);
    assert |Profile(s).Keys| <= INVALID_ADDR by {
      assert Profile(s).Keys == g.nbrs.Keys && |g.nbrs.Keys| == |g.nbrs|;
    }
    var v := FindGap(Profile(s), Profile(s).Keys, 0x1_0000);
    assert IsGap(Profile(s), v);
  }

  /** How many echoes an advertisement of length `len` can be away from the gap, lengths wrapping around. */
  ghost function ToGap(gap: nat, len: nat): int {
    if len + 1 <= gap then gap - len - 1 else gap - len - 1 + 0x1_0000
  }

  /** The nodes that may still echo an advertisement of length `len` or its echoes. */
  ghost function Echoers(pr: map<Addr, nat>, len: nat): set<Addr> {
    set u | u in pr && pr[u] > 0 && ToGap(Gap(pr), pr[u] - 1) <= ToGap(Gap(pr), len)
  }

  lemma EchoersFew(g: Graph, s: Net, len: nat)
    requires WellFormed(g, s)
    ensures |Echoers(Profile(s), len)| <= |g.nbrs|
  {
    Smaller(Echoers(Profile(s), len), g.nbrs.Keys);
    assert |g.nbrs.Keys| == |g.nbrs|;
  }

  /** A node that echoes is not among the echoers of its echo. */
  lemma EchoLosesOne(pr: map<Addr, nat>, u: Addr, len: nat)
    requires IsGap(pr, Gap(pr)) && u in pr && pr[u] == len + 1 && len < 0x1_0000
    ensures |Echoers(pr, Narrow(len + 1))| < |Echoers(pr, len)|
  {
    var now, next := Echoers(pr, len), Echoers(pr, Narrow(len + 1));
    assert ToGap(Gap(pr), Narrow(len + 1)) == ToGap(Gap(pr), len) - 1;
    assert u in now && next <= now - {u};
    Smaller(next, now - {u});
    assert |now - {u}| == |now| - 1;
  }

  // ------------------------------------------------------------------- the weights

  ghost function Pow(b: nat, e: nat): nat {
    if e == 0 then 1 else Sums.Times(b, Pow(b, e - 1))
  }

  /** The weight of an advertisement: a node can multiply it by less than the number of links, and each
      time one node fewer can. */
  ghost function Weight(g: Graph, pr: map<Addr, nat>, p: Packet): nat {
    if p.Stp? then Pow(|Darts(g)| + 1, |Echoers(pr, p.adv.len)|) else 0
  }

  ghost function ChanWeight(g: Graph, pr: map<Addr, nat>, c: seq<Packet>): nat {
    if c == [] then 0 else Weight(g, pr, c[0]) + ChanWeight(g, pr, c[1..])
  }

  ghost function ChanWeights(g: Graph, pr: map<Addr, nat>, s: Net): map<Dart, nat> {
    map d | d in s.chan :: ChanWeight(g, pr, s.chan[d])
  }

  lemma {:induction false} PowMono(b: nat, e: nat, f: nat)
    requires b > 0 && e <= f
    ensures 0 < Pow(b, e) <= Pow(b, f)
    decreases f
  {
    if f > 0 {
      PowMono(b, if e < f then e else e - 1, f - 1);
      Sums.TimesMono(1, b, Pow(b, f - 1));
    }
  }

  lemma {:induction false} ChanWeightAppend(g: Graph, pr: map<Addr, nat>, c: seq<Packet>, p: Packet)
    ensures ChanWeight(g, pr, c + [p]) == ChanWeight(g, pr, c) + Weight(g, pr, p)
  {
    if c == [] {
      assert c + [p] == [p];
    } else {
      ChanWeightAppend(g, pr, c[1..], p);
      assert (c + [p])[1..] == c[1..] + [p];
    }
  }

  ghost function Outgoing(g: Graph, u: Addr): set<Dart> {
    set d | d in Darts(g) && d.0 == u
  }

  lemma OutgoingFew(g: Graph, u: Addr)
    ensures |Outgoing(g, u)| <= |Darts(g)|
  {
    var rest := Darts(g) - Outgoing(g, u);
    assert Darts(g) == Outgoing(g, u) + rest;
  }

  /** The weight a step removes by taking a packet. */
  ghost function TakenWeight(g: Graph, pr: map<Addr, nat>, s: Net, a: Action): nat
    requires Enabled(s, a)
  {
    if a.Deliver? then Weight(g, pr, Head(s, a)) else 0
  }

  /** The weight of each copy of the advertisement that a step sends. */
  ghost function SentWeight(g: Graph, pr: map<Addr, nat>, s: Net, a: Action): nat
    requires Enabled(s, a)
  {
    if Advertises(s, a) then Weight(g, pr, Stp(Advert(Actor(a), NodeAfter(s, a)))) else 0
  }

  lemma WeightAt(g: Graph, pr: map<Addr, nat>, s: Net, a: Action, s': Net, d: Dart)
    requires Step(s, a, s') && d in s.chan
    ensures d in s'.chan
    ensures ChanWeight(g, pr, s'.chan[d])
         == ChanWeight(g, pr, Rest(s, a, d)) + (if d.0 == Actor(a) then SentWeight(g, pr, s, a) else 0)
  {
    var sent := Sent(s, a, d);
    assert s'.chan[d] == Rest(s, a, d) + sent;
    if sent == [] {
      assert Rest(s, a, d) + sent == Rest(s, a, d);
    } else {
      ChanWeightAppend(g, pr, Rest(s, a, d), sent[0]);
    }
  }

  ghost function RestWeights(g: Graph, pr: map<Addr, nat>, s: Net, a: Action): map<Dart, nat>
    requires Enabled(s, a)
  {
    map d | d in s.chan :: ChanWeight(g, pr, Rest(s, a, d))
  }

  lemma TakeWeights(g: Graph, pr: map<Addr, nat>, s: Net, a: Action)
    requires Enabled(s, a)
    ensures Sums.Sum(RestWeights(g, pr, s, a)) + TakenWeight(g, pr, s, a) == Sums.Sum(ChanWeights(g, pr, s))
  {
    if a.Deliver? {
      Sums.Update(ChanWeights(g, pr, s), RestWeights(g, pr, s, a), (a.from, a.to));
    } else {
      assert RestWeights(g, pr, s, a) == ChanWeights(g, pr, s);
    }
  }

  /** How a step changes the total weight: it loses the packet taken and gains one copy per port. */
  lemma StepWeights(g: Graph, pr: map<Addr, nat>, s: Net, a: Action, s': Net)
    requires WellFormed(g, s) && Step(s, a, s')
    ensures Sums.Sum(ChanWeights(g, pr, s')) + TakenWeight(g, pr, s, a)
         == Sums.Sum(ChanWeights(g, pr, s)) + Sums.Times(|Outgoing(g, Actor(a))|, SentWeight(g, pr, s, a))
  {
    TakeWeights(g, pr, s, a);
    var mid, after, out := RestWeights(g, pr, s, a), ChanWeights(g, pr, s'), Outgoing(g, Actor(a));
    forall d | d in mid ensures after[d] == mid[d] + (if d in out then SentWeight(g, pr, s, a) else 0) {
      WeightAt(g, pr, s, a, s', d);
    }
    Sums.AddOn(mid, after, out, SentWeight(g, pr, s, a));
  }

  /** All copies of an echo together weigh less than the advertisement that caused it. */
  lemma EchoLighter(b: nat, e: nat, e': nat, out: nat)
    requires e' < e && out < b
    ensures Sums.Times(out, Pow(b, e')) < Pow(b, e)
  {
    PowMono(b, 0, e');
    PowMono(b, e' + 1, e);
    Sums.TimesMono(out, b, Pow(b, e'));
  }

  // --------------------------------------------------------------------- the ranks

  /** The triple as one number: the length needs 17 bits, the parent 16. */
  ghost function NodeRank(nodes: map<Addr, NodeState>, u: Addr): nat
    requires u in nodes
  {
    (nodes[u].root * 0x2_0000 + nodes[u].dist) * 0x1_0000 + nodes[u].next
  }

  ghost function NodeRanks(nodes: map<Addr, NodeState>): map<Addr, nat> {
    map u | u in nodes :: NodeRank(nodes, u)
  }

  lemma StepRanks(s: Net, a: Action, s': Net)
    requires Step(s, a, s')
    ensures Actor(a) in s'.nodes
    ensures Sums.Sum(NodeRanks(s'.nodes)) + NodeRank(s.nodes, Actor(a)) == Sums.Sum(NodeRanks(s.nodes)) + NodeRank(s'.nodes, Actor(a))
  {
    Sums.Update(NodeRanks(s.nodes), NodeRanks(s'.nodes), Actor(a));
  }

  lemma RankOrder(n: NodeState, n': NodeState)
    requires Le3(n', n.root, n.dist, n.next) && !SameTriple(n, n')
    requires n'.dist < 0x2_0000 && n'.next < 0x1_0000
    ensures (n'.root * 0x2_0000 + n'.dist) * 0x1_0000 + n'.next < (n.root * 0x2_0000 + n.dist) * 0x1_0000 + n.next
  {
  }

  // ------------------------------------------------------------------- the measure

  /** A bound on the deliveries left: with rank `r` and weight `w`, at most `w` that change no triple, then
      an adoption, after which the rank is lower and each packet weighs at most `k`. */
  ghost function Bound(r: nat, w: nat, links: nat, k: nat): nat
    decreases r
  {
    if r == 0 then w else w + 1 + Bound(r - 1, Sums.Times(w + links, k), links, k)
  }

  lemma {:induction false} BoundGrows(r: nat, w: nat, w': nat, links: nat, k: nat)
    requires w <= w'
    ensures Bound(r, w, links, k) + (w' - w) <= Bound(r, w', links, k)
    decreases r
  {
    if r > 0 {
      Sums.TimesMono(w + links, w' + links, k);
      BoundGrows(r - 1, Sums.Times(w + links, k), Sums.Times(w' + links, k), links, k);
    }
  }

  lemma {:induction false} BoundByRank(r: nat, r': nat, w: nat, links: nat, k: nat)
    requires r <= r' && k > 0
    ensures Bound(r, w, links, k) <= Bound(r', w, links, k)
    decreases r'
  {
    if r < r' {
      BoundByRank(r, r' - 1, w, links, k);
      Sums.TimesMonoRight(w + links, 1, k);
      Sums.TimesOne(w + links);
      BoundGrows(r' - 1, w, Sums.Times(w + links, k), links, k);
    }
  }

  /** An adoption uses up at least one. */
  lemma BoundDrops(r: nat, w: nat, r': nat, w': nat, links: nat, k: nat)
    requires r' < r && Sums.AtMost(w', w, links, k) && k > 0
    ensures Bound(r', w', links, k) < Bound(r, w, links, k)
  {
    var more := Sums.Times(w + links, k);
    assert Bound(r, w, links, k) == w + 1 + Bound(r - 1, more, links, k);
    assert Bound(r', w', links, k) <= Bound(r - 1, w', links, k) by { BoundByRank(r', r - 1, w', links, k); }
    assert Bound(r - 1, w', links, k) <= Bound(r - 1, more, links, k) by { BoundGrows(r - 1, w', more, links, k); }
  }

  ghost function MaxWeight(g: Graph): nat {
    Pow(|Darts(g)| + 1, |g.nbrs|)
  }

  ghost function TotalWeight(g: Graph, s: Net): nat {
    Sums.Sum(ChanWeights(g, Profile(s), s))
  }

  ghost function TotalRank(s: Net): nat {
    Sums.Sum(NodeRanks(s.nodes))
  }

  ghost function StpMeasure(g: Graph, s: Net): nat {
    Bound(TotalRank(s), TotalWeight(g, s), |Darts(g)|, MaxWeight(g))
  }

  // ------------------------------------------------- deliveries that change no triple

  lemma SameProfile(s: Net, a: Action, s': Net)
    requires Step(s, a, s') && SameTriple(s.nodes[Actor(a)], s'.nodes[Actor(a)])
    ensures Profile(s') == Profile(s) && TotalRank(s') == TotalRank(s)
  {
    StepRanks(s, a, s');
  }

  /** A delivery that changes no triple takes more weight than it adds. */
  lemma DeliveryLightens(g: Graph, s: Net, a: Action, s': Net)
    requires Valid(g) && DrainInv(g, s) && Step(s, a, s') && TakesStp(s, a)
    requires SameTriple(s.nodes[a.to], s'.nodes[a.to])
    ensures Sums.Sum(ChanWeights(g, Profile(s), s')) < TotalWeight(g, s)
  {
    var pr, adv, out := Profile(s), Head(s, a).adv, |Outgoing(g, a.to)|;
    StepWeights(g, pr, s, a, s');
    PowMono(|Darts(g)| + 1, 0, |Echoers(pr, adv.len)|);
    if Advertises(s, a) {
      EchoIs(s, a, s');
      OutgoingFew(g, a.to);
      assert |Echoers(pr, Narrow(adv.len + 1))| < |Echoers(pr, adv.len)| by {
        GapExists(g, s);
        EchoLosesOne(pr, a.to, adv.len);
      }
      EchoLighter(|Darts(g)| + 1, |Echoers(pr, adv.len)|, |Echoers(pr, Narrow(adv.len + 1))|, out);
    } else {
      Sums.TimesZero(out);
    }
  }

  /** An advertisement that makes a node advertise without changing its triple is its parent's, and the echo
      is one longer. */
  lemma EchoIs(s: Net, a: Action, s': Net)
    requires Step(s, a, s') && TakesStp(s, a) && LengthsOk(s)
    requires SameTriple(s.nodes[a.to], s'.nodes[a.to]) && Advertises(s, a)
    ensures var adv := Head(s, a).adv;
            && adv.len < 0x1_0000 && Profile(s)[a.to] == adv.len + 1
            && Advert(a.to, NodeAfter(s, a)).len == Narrow(adv.len + 1)
  {
    assert Stp(Head(s, a).adv) in s.chan[(a.from, a.to)];
  }

  // ------------------------------------------------------------------- adoptions

  ghost predicate FewEchoers(g: Graph, pr: map<Addr, nat>) {
    forall len {:trigger Echoers(pr, len)} :: |Echoers(pr, len)| <= |g.nbrs|
  }

  /** A packet weighs at most `k`, and nothing if it weighed nothing. */
  ghost predicate Capped(g: Graph, pr: map<Addr, nat>, pr': map<Addr, nat>, k: nat, p: Packet) {
    Weight(g, pr', p) <= k && (Weight(g, pr, p) == 0 ==> Weight(g, pr', p) == 0)
  }

  lemma PacketBound(g: Graph, pr: map<Addr, nat>, pr': map<Addr, nat>, p: Packet)
    requires FewEchoers(g, pr')
    ensures Capped(g, pr, pr', MaxWeight(g), p)
  {
    if p.Stp? {
      PowMono(|Darts(g)| + 1, |Echoers(pr', p.adv.len)|, |g.nbrs|);
      PowMono(|Darts(g)| + 1, 0, |Echoers(pr, p.adv.len)|);
    }
  }

  lemma UnitBound(w: nat, w': nat, rest: nat, rest': nat, k: nat)
    requires w' <= k && (w == 0 ==> w' == 0) && Sums.AtMost(rest', rest, 0, k)
    ensures Sums.AtMost(w' + rest', w + rest, 0, k)
  {
    if w > 0 {
      Sums.TimesMono(rest + 1, w + rest, k);
    }
  }

  lemma {:induction false} ChanWeightBound(g: Graph, pr: map<Addr, nat>, pr': map<Addr, nat>, k: nat, c: seq<Packet>)
    requires forall p {:trigger Capped(g, pr, pr', k, p)} :: Capped(g, pr, pr', k, p)
    ensures Sums.AtMost(ChanWeight(g, pr', c), ChanWeight(g, pr, c), 0, k)
  {
    if c != [] {
      ChanWeightBound(g, pr, pr', k, c[1..]);
      assert Capped(g, pr, pr', k, c[0]);
      UnitBound(Weight(g, pr, c[0]), Weight(g, pr', c[0]), ChanWeight(g, pr, c[1..]), ChanWeight(g, pr', c[1..]), k);
    }
  }

  lemma AppendedBound(g: Graph, pr: map<Addr, nat>, c: seq<Packet>, sent: seq<Packet>)
    requires FewEchoers(g, pr) && |sent| <= 1
    ensures ChanWeight(g, pr, c + sent) <= ChanWeight(g, pr, c) + MaxWeight(g)
  {
    if sent == [] {
      assert c + sent == c;
    } else {
      PacketBound(g, pr, pr, sent[0]);
      ChanWeightAppend(g, pr, c, sent[0]);
      assert sent == [sent[0]];
    }
  }

  lemma RestLighter(g: Graph, pr: map<Addr, nat>, s: Net, a: Action, d: Dart)
    requires Enabled(s, a) && d in s.chan
    ensures ChanWeight(g, pr, Rest(s, a, d)) <= ChanWeight(g, pr, s.chan[d])
  {
  }

  lemma FewInProfile(g: Graph, s: Net)
    requires WellFormed(g, s)
    ensures FewEchoers(g, Profile(s))
  {
    forall len: nat ensures |Echoers(Profile(s), len)| <= |g.nbrs| {
      EchoersFew(g, s, len);
    }
  }

  lemma OneMorePacket(w': nat, rest': nat, rest: nat, w: nat, k: nat)
    requires w' <= rest' + k && Sums.AtMost(rest', rest, 0, k) && rest <= w
    ensures Sums.AtMost(w', w, 1, k)
  {
    Sums.TimesMono(rest, w, k);
  }

  /** After a step each channel weighs at most as if every old unit and one new packet weighed the most. */
  lemma ChannelBound(g: Graph, pr: map<Addr, nat>, pr': map<Addr, nat>, s: Net, a: Action, s': Net, d: Dart)
    requires FewEchoers(g, pr') && Step(s, a, s') && d in s.chan
    ensures d in s'.chan && Sums.AtMost(ChanWeight(g, pr', s'.chan[d]), ChanWeight(g, pr, s.chan[d]), 1, MaxWeight(g))
  {
    assert s'.chan[d] == Rest(s, a, d) + Sent(s, a, d);
    AppendedBound(g, pr', Rest(s, a, d), Sent(s, a, d));
    forall p ensures Capped(g, pr, pr', MaxWeight(g), p) {
      PacketBound(g, pr, pr', p);
    }
    ChanWeightBound(g, pr, pr', MaxWeight(g), Rest(s, a, d));
    RestLighter(g, pr, s, a, d);
    OneMorePacket(ChanWeight(g, pr', s'.chan[d]), ChanWeight(g, pr', Rest(s, a, d)), ChanWeight(g, pr, Rest(s, a, d)),
                  ChanWeight(g, pr, s.chan[d]), MaxWeight(g));
  }

  lemma WeightsScaled(g: Graph, s: Net, a: Action, s': Net)
    requires WellFormed(g, s) && WellFormed(g, s') && Step(s, a, s')
    ensures forall d {:trigger Sums.ScaledAt(ChanWeights(g, Profile(s), s), ChanWeights(g, Profile(s'), s'), MaxWeight(g), d)} ::
              Sums.ScaledAt(ChanWeights(g, Profile(s), s), ChanWeights(g, Profile(s'), s'), MaxWeight(g), d)
  {
    forall d ensures Sums.ScaledAt(ChanWeights(g, Profile(s), s), ChanWeights(g, Profile(s'), s'), MaxWeight(g), d) {
      FewInProfile(g, s');
      DartScaled(g, Profile(s), Profile(s'), s, a, s', d);
    }
  }

  lemma DartScaled(g: Graph, pr: map<Addr, nat>, pr': map<Addr, nat>, s: Net, a: Action, s': Net, d: Dart)
    requires FewEchoers(g, pr') && Step(s, a, s')
    ensures Sums.ScaledAt(ChanWeights(g, pr, s), ChanWeights(g, pr', s'), MaxWeight(g), d)
  {
    if d in s.chan {
      ChannelBound(g, pr, pr', s, a, s', d);
    }
  }

  lemma SumScaled(before: map<Dart, nat>, after: map<Dart, nat>, darts: set<Dart>, k: nat)
    requires before.Keys == after.Keys == darts
    requires forall d {:trigger Sums.ScaledAt(before, after, k, d)} :: Sums.ScaledAt(before, after, k, d)
    ensures Sums.AtMost(Sums.Sum(after), Sums.Sum(before), |darts|, k)
  {
    assert |before| == |before.Keys|;
    Sums.ScaledSum(before, after, k, |darts|);
  }

  lemma WeightBound(g: Graph, s: Net, a: Action, s': Net)
    requires WellFormed(g, s) && WellFormed(g, s') && Step(s, a, s')
    ensures Sums.AtMost(TotalWeight(g, s'), TotalWeight(g, s), |Darts(g)|, MaxWeight(g))
  {
    WeightsScaled(g, s, a, s');
    SumScaled(ChanWeights(g, Profile(s), s), ChanWeights(g, Profile(s'), s'), Darts(g), MaxWeight(g));
  }

  lemma AdoptionDrops(g: Graph, s: Net, a: Action, s': Net)
    requires Valid(g) && DrainInv(g, s) && DrainInv(g, s') && Step(s, a, s') && TakesStp(s, a)
    requires !SameTriple(s.nodes[a.to], s'.nodes[a.to])
    ensures TotalRank(s') < TotalRank(s)
  {
    HandleStpOrder(s.nodes[a.to], a.from, Head(s, a).adv);
    assert a.to in g.nbrs && NodeOk(g, a.to, s'.nodes[a.to]);
    RankOrder(s.nodes[a.to], s'.nodes[a.to]);
    StepRanks(s, a, s');
  }

  // ------------------------------------------------------------------- the results

  lemma KeptTripleDrops(g: Graph, s: Net, a: Action, s': Net)
    requires Valid(g) && DrainInv(g, s) && Step(s, a, s') && TakesStp(s, a) && SameTriple(s.nodes[a.to], s'.nodes[a.to])
    ensures StpMeasure(g, s') < StpMeasure(g, s)
  {
    assert Profile(s') == Profile(s) && TotalRank(s') == TotalRank(s) by { SameProfile(s, a, s'); }
    assert TotalWeight(g, s') < TotalWeight(g, s) by { DeliveryLightens(g, s, a, s'); }
    BoundGrows(TotalRank(s), TotalWeight(g, s'), TotalWeight(g, s), |Darts(g)|, MaxWeight(g));
  }

  lemma NewTripleDrops(g: Graph, s: Net, a: Action, s': Net)
    requires Valid(g) && DrainInv(g, s) && DrainInv(g, s') && Step(s, a, s') && TakesStp(s, a)
    requires !SameTriple(s.nodes[a.to], s'.nodes[a.to])
    ensures StpMeasure(g, s') < StpMeasure(g, s)
  {
    assert TotalRank(s') < TotalRank(s) by { AdoptionDrops(g, s, a, s'); }
    assert Sums.AtMost(TotalWeight(g, s'), TotalWeight(g, s), |Darts(g)|, MaxWeight(g)) by { WeightBound(g, s, a, s'); }
    assert MaxWeight(g) > 0 by { PowMono(|Darts(g)| + 1, 0, |g.nbrs|); }
    BoundDrops(TotalRank(s), TotalWeight(g, s), TotalRank(s'), TotalWeight(g, s'), |Darts(g)|, MaxWeight(g));
  }

  /** Every delivery of an advertisement lowers the measure. */
  lemma TakeStpDrops(g: Graph, s: Net, a: Action, s': Net)
    requires Valid(g) && DrainInv(g, s) && Step(s, a, s') && TakesStp(s, a)
    ensures DrainInv(g, s') && StpMeasure(g, s') < StpMeasure(g, s)
  {
    StepDrainInv(g, s, a, s');
    if SameTriple(s.nodes[a.to], s'.nodes[a.to]) {
      KeptTripleDrops(g, s, a, s');
    } else {
      NewTripleDrops(g, s, a, s');
    }
  }

  lemma OtherKeepsWeights(g: Graph, pr: map<Addr, nat>, s: Net, a: Action, s': Net)
    requires WellFormed(g, s) && Step(s, a, s') && !TakesStp(s, a) && (a.Deliver? || a.UserFlood?)
    ensures Sums.Sum(ChanWeights(g, pr, s')) == Sums.Sum(ChanWeights(g, pr, s))
  {
    StepWeights(g, pr, s, a, s');
    Sums.TimesZero(|Outgoing(g, Actor(a))|);
  }

  /** FLOODs leave it alone. */
  lemma OtherKeepsMeasure(g: Graph, s: Net, a: Action, s': Net)
    requires WellFormed(g, s) && Step(s, a, s')
    requires !TakesStp(s, a) && (a.Deliver? || a.UserFlood?)
    ensures StpMeasure(g, s') == StpMeasure(g, s)
  {
    assert s'.nodes == s.nodes;
    SameProfile(s, a, s');
    OtherKeepsWeights(g, Profile(s), s, a, s');
  }

  ghost predicate NoTimers(acts: seq<Action>) {
    forall i | 0 <= i < |acts| :: acts[i].Deliver? || acts[i].UserFlood?
  }

  /** The number of advertisements delivered in a run. */
  ghost function StpDeliveries(ss: seq<Net>, acts: seq<Action>): nat
    requires |ss| == |acts| + 1
  {
    Sums.Hits(StpHits(ss, acts), |acts|)
  }

  ghost function StpHits(ss: seq<Net>, acts: seq<Action>): seq<bool>
    requires |ss| == |acts| + 1
  {
    seq(|acts|, i requires 0 <= i < |acts| => TakesStp(ss[i], acts[i]))
  }

  lemma MeasureStep(g: Graph, s: Net, a: Action, s': Net)
    requires Valid(g) && DrainInv(g, s) && Step(s, a, s') && (a.Deliver? || a.UserFlood?)
    ensures StpMeasure(g, s') + (if TakesStp(s, a) then 1 else 0) <= StpMeasure(g, s)
  {
    if TakesStp(s, a) {
      TakeStpDrops(g, s, a, s');
    } else {
      OtherKeepsMeasure(g, s, a, s');
    }
  }

  ghost function StpMeasures(g: Graph, ss: seq<Net>): seq<nat> {
    seq(|ss|, i requires 0 <= i < |ss| => StpMeasure(g, ss[i]))
  }

  /** From every reachable state, re-elections included, the number of advertisements delivered before the
      next timer event is bounded by the measure of the state, however FLOODs are interleaved. */
  lemma StpExchangeDrains(g: Graph, ss: seq<Net>, acts: seq<Action>)
    requires Valid(g) && IsRun(ss, acts) && NoTimers(acts) && Reachable(g, ss[0])
    ensures StpDeliveries(ss, acts) <= StpMeasure(g, ss[0])
  {
    assert DrainInv(g, ss[0]) by { ReachableDrainInv(g, ss[0]); }
    forall i: nat ensures Sums.DropAt(StpMeasures(g, ss), StpHits(ss, acts), i) {
      if i < |acts| {
        DropInRun(g, ss, acts, i);
      }
    }
    CountDeliveries(g, ss, acts);
  }

  lemma CountDeliveries(g: Graph, ss: seq<Net>, acts: seq<Action>)
    requires |ss| == |acts| + 1
    requires forall i: nat {:trigger Sums.DropAt(StpMeasures(g, ss), StpHits(ss, acts), i)} ::
               Sums.DropAt(StpMeasures(g, ss), StpHits(ss, acts), i)
    ensures StpDeliveries(ss, acts) <= StpMeasure(g, ss[0])
  {
    Sums.CountDrops(StpMeasures(g, ss), StpHits(ss, acts), |acts|);
  }

  lemma DropInRun(g: Graph, ss: seq<Net>, acts: seq<Action>, i: nat)
    requires Valid(g) && IsRun(ss, acts) && NoTimers(acts) && DrainInv(g, ss[0]) && i < |acts|
    ensures Sums.DropAt(StpMeasures(g, ss), StpHits(ss, acts), i)
  {
    assert DrainInv(g, ss[i]) by { RunDrainInv(g, ss, acts, i); }
    assert Step(ss[i], acts[i], ss[i + 1]) by { assert StepAt(ss, acts, i); }
    MeasureStep(g, ss[i], acts[i], ss[i + 1]);
  }
}
