/** What FLOODs cost in a settled network: each makes exactly as many deliveries as there are open port
    ends, less one for every node but its source; that is, one per tree link and one per half-open link. */
module FloodCost {
  import opened Overlay
  import opened NodeModel
  import opened Network
  import opened StpInvariants
  import opened StpStable
  import opened StpConverge
  import opened StpSettled
  import opened Flood
  import Sums

  /** The number of open ports of each node. */
  ghost function OpenPorts(s: Net): map<Addr, nat> {
    map u | u in s.nodes :: |s.nodes[u].open|
  }

  /** How often each node has sent a FLOOD on: once per FLOOD its user received or sent. */
  ghost function Passes(s: Net): map<Addr, nat>
    requires s.user.Keys == s.injected.Keys == s.nodes.Keys
  {
    map u | u in s.nodes :: s.user[u] + s.injected[u]
  }

  /** The FLOODs that all nodes have put on ports, counting for each the one that came in. */
  ghost function Work(s: Net): map<Addr, nat>
    requires s.user.Keys == s.injected.Keys == s.nodes.Keys
  {
    map u | u in s.nodes :: Sums.Times(s.user[u] + s.injected[u], |s.nodes[u].open|)
  }

  // -------------------------------------------------------------------- one step

  /** The links from `u` to `to`. */
  ghost function Fan(u: Addr, to: set<Addr>): set<Dart> {
    set v | v in to :: (u, v)
  }

  lemma {:induction false} AsManyDarts(u: Addr, to: set<Addr>)
    ensures |Fan(u, to)| == |to|
    decreases |to|
  {
    if to == {} {
      assert Fan(u, to) == {};
    } else {
      var x :| x in to;
      AsManyDarts(u, to - {x});
      assert (u, x) !in Fan(u, to - {x});
      assert Fan(u, to) == Fan(u, to - {x}) + {(u, x)};
    }
  }

  /** A node that forwards a FLOOD puts it on every open port, except the one it came from. */
  lemma TargetCount(g: Graph, s: Net, a: Action)
    requires LocalInv(g, s) && Enabled(s, a) && Actor(a) in g.nbrs
    ensures |FloodTargets(s, a)| + (if AcceptsFlood(s, a) then 1 else 0)
         == if a.UserFlood? || AcceptsFlood(s, a) then |s.nodes[Actor(a)].open| else 0
  {
    var u, to := Actor(a), FloodsTo(s, a);
    assert NodeOk(g, u, s.nodes[u]);
    assert FloodTargets(s, a) == Fan(u, to) by {
      forall v | v in to ensures (u, v) in s.chan {
        assert (u, v) in Darts(g);
      }
    }
    AsManyDarts(u, to);
    if AcceptsFlood(s, a) {
      assert |to| == |s.nodes[u].open| - 1;
    }
  }

  lemma PassesAt(g: Graph, s: Net, a: Action, s': Net, u: Addr)
    requires WellFormed(g, s) && WellFormed(g, s') && Step(s, a, s') && u in s.nodes
    ensures s'.user[u] + s'.injected[u] == s.user[u] + s.injected[u] + if u == Actor(a) && (a.UserFlood? || AcceptsFlood(s, a)) then 1 else 0
  {
  }

  lemma OneMoreTurn(n: nat, n': nat, ports: nat, more: bool)
    requires n' == n + if more then 1 else 0
    ensures Sums.Times(n', ports) == Sums.Times(n, ports) + if more then ports else 0
  {
  }

  lemma WorkFrom(g: Graph, s: Net, s': Net, u: Addr, more: bool)
    requires WellFormed(g, s) && WellFormed(g, s') && s'.nodes == s.nodes && u in s.nodes
    requires s'.user[u] + s'.injected[u] == s.user[u] + s.injected[u] + if more then 1 else 0
    ensures Work(s')[u] == Work(s)[u] + if more then |s.nodes[u].open| else 0
  {
    OneMoreTurn(s.user[u] + s.injected[u], s'.user[u] + s'.injected[u], |s.nodes[u].open|, more);
  }

  lemma WorkAt(g: Graph, s: Net, a: Action, s': Net, u: Addr)
    requires WellFormed(g, s) && WellFormed(g, s') && Step(s, a, s') && s'.nodes == s.nodes && u in s.nodes
    ensures Work(s')[u] == Work(s)[u] + if u == Actor(a) && (a.UserFlood? || AcceptsFlood(s, a)) then |s.nodes[u].open| else 0
  {
    PassesAt(g, s, a, s', u);
    WorkFrom(g, s, s', u, u == Actor(a) && (a.UserFlood? || AcceptsFlood(s, a)));
  }

  /** Passing a FLOOD on adds the node's open ports to its work. */
  lemma WorkStep(g: Graph, s: Net, a: Action, s': Net)
    requires WellFormed(g, s) && WellFormed(g, s') && Step(s, a, s') && s'.nodes == s.nodes
    ensures Sums.Sum(Work(s')) == Sums.Sum(Work(s)) + if a.UserFlood? || AcceptsFlood(s, a) then |s.nodes[Actor(a)].open| else 0
  {
    var u, before, after := Actor(a), Work(s), Work(s');
    var more := if a.UserFlood? || AcceptsFlood(s, a) then |s.nodes[u].open| else 0;
    assert after[u] == before[u] + more by { WorkAt(g, s, a, s', u); }
    forall x | x in before && x != u ensures after[x] == before[x] {
      WorkAt(g, s, a, s', x);
    }
    Sums.Raise(before, after, u, more);
  }

  lemma UserSumStep(g: Graph, s: Net, a: Action, s': Net)
    requires WellFormed(g, s) && Step(s, a, s')
    ensures Sums.Sum(s'.user) == Sums.Sum(s.user) + if AcceptsFlood(s, a) then 1 else 0
  {
    Sums.Update(s.user, s'.user, Actor(a));
  }

  /** FLOODs in flight, delivered and received, against the work done. */
  ghost function Sheet(s: Net): int
    requires s.user.Keys == s.injected.Keys == s.nodes.Keys
  {
    Sums.Sum(Work(s)) - FloodTotal(s) - Sums.Sum(s.user)
  }

  /** Each delivery of a FLOOD raises the balance by one; nothing else changes it. */
  lemma SheetStep(g: Graph, s: Net, a: Action, s': Net)
    requires LocalInv(g, s) && WellFormed(g, s') && Step(s, a, s') && s'.nodes == s.nodes
    ensures Sheet(s') == Sheet(s) + if TakesFlood(s, a) then 1 else 0
  {
    WorkStep(g, s, a, s');
    UserSumStep(g, s, a, s');
    FloodCountsStep(s, a, s');
    TargetCount(g, s, a);
  }

  // -------------------------------------------------------------------- one run

  /** The balance in state `s`, where it makes sense. */
  ghost function SheetOr0(s: Net): int {
    if s.user.Keys == s.injected.Keys == s.nodes.Keys then Sheet(s) else 0
  }

  ghost function Sheets(ss: seq<Net>): seq<int> {
    seq(|ss|, i requires 0 <= i < |ss| => SheetOr0(ss[i]))
  }

  lemma SettledAt(g: Graph, ss: seq<Net>, acts: seq<Action>, i: nat)
    requires IsRun(ss, acts) && Calm(acts) && Settled(g, ss[0]) && i <= |acts|
    ensures LocalInv(g, ss[i]) && ss[i].nodes == ss[0].nodes
  {
    SettledRun(g, ss, acts, i);
  }

  lemma SheetBetween(g: Graph, ss: seq<Net>, acts: seq<Action>, i: nat)
    requires IsRun(ss, acts) && i < |acts| && LocalInv(g, ss[i]) && WellFormed(g, ss[i + 1]) && ss[i + 1].nodes == ss[i].nodes
    ensures Sums.RiseAt(Sheets(ss), FloodHits(ss, acts), i)
  {
    assert Step(ss[i], acts[i], ss[i + 1]) by { assert StepAt(ss, acts, i); }
    SheetStep(g, ss[i], acts[i], ss[i + 1]);
  }

  lemma SheetInRun(g: Graph, ss: seq<Net>, acts: seq<Action>, i: nat)
    requires IsRun(ss, acts) && Calm(acts) && Settled(g, ss[0])
    ensures Sums.RiseAt(Sheets(ss), FloodHits(ss, acts), i)
  {
    if i < |acts| {
      SettledAt(g, ss, acts, i);
      SettledAt(g, ss, acts, i + 1);
      SheetBetween(g, ss, acts, i);
    }
  }

  lemma NoneInFlight(s: Net)
    requires NoFloods(s)
    ensures FloodTotal(s) == 0
  {
    forall d | d in s.chan ensures FloodCount(s.chan[d]) == 0 {
      AllStp(s.chan[d]);
    }
    Sums.AllZero(FloodCounts(s));
  }

  // ------------------------------------------------------------- every node's share

  /** In a complete run every node passes on every FLOOD exactly once: as the source, or on receipt. */
  lemma EveryonePasses(g: Graph, m: Addr, k: nat, ss: seq<Net>, acts: seq<Action>, x: Addr)
    requires IsRun(ss, acts) && Calm(acts) && Settled(g, ss[0]) && Centre(g, m, k) && x in g.nbrs
    requires NoFloods(ss[0]) && NoFloods(ss[|acts|]) && WellFormed(g, ss[|acts|])
    ensures ss[|acts|].user[x] + ss[|acts|].injected[x] + Sums.Sum(ss[0].injected)
         == ss[0].user[x] + ss[0].injected[x] + Sums.Sum(ss[|acts|].injected)
  {
    FloodsDelivered(g, m, k, ss, acts, x);
    Sums.SplitOff(ss[0].injected, x);
    Sums.SplitOff(ss[|acts|].injected, x);
  }

  /** If every node has passed on `floods` FLOODs more, what that means for the sums. */
  lemma Shares(g: Graph, s: Net, s': Net, floods: nat)
    requires WellFormed(g, s) && WellFormed(g, s') && s'.nodes == s.nodes
    requires Sums.Sum(s'.injected) == Sums.Sum(s.injected) + floods
    requires forall x | x in g.nbrs :: s'.user[x] + s'.injected[x] == s.user[x] + s.injected[x] + floods
    ensures Sums.Sum(s'.user) + floods == Sums.Sum(s.user) + Sums.Times(|g.nbrs|, floods)
    ensures Sums.Sum(Work(s')) == Sums.Sum(Work(s)) + Sums.Times(floods, Sums.Sum(OpenPorts(s)))
  {
    UserShares(g, s, s', floods);
    WorkShares(g, s, s', floods);
  }

  lemma UserShares(g: Graph, s: Net, s': Net, floods: nat)
    requires WellFormed(g, s) && WellFormed(g, s') && s'.nodes == s.nodes
    requires Sums.Sum(s'.injected) == Sums.Sum(s.injected) + floods
    requires forall x | x in g.nbrs :: s'.user[x] + s'.injected[x] == s.user[x] + s.injected[x] + floods
    ensures Sums.Sum(s'.user) + floods == Sums.Sum(s.user) + Sums.Times(|g.nbrs|, floods)
  {
    assert Sums.Sum(Passes(s)) == Sums.Sum(s.user) + Sums.Sum(s.injected) by { Sums.SumPlus(s.user, Passes(s), s.injected); }
    assert Sums.Sum(Passes(s')) == Sums.Sum(s'.user) + Sums.Sum(s'.injected) by { Sums.SumPlus(s'.user, Passes(s'), s'.injected); }
    assert Sums.Sum(Passes(s')) == Sums.Sum(Passes(s)) + Sums.Times(|g.nbrs.Keys|, floods) by {
      Sums.AddOn(Passes(s), Passes(s'), g.nbrs.Keys, floods);
    }
    assert |g.nbrs.Keys| == |g.nbrs|;
  }

  lemma WorkShareAt(g: Graph, s: Net, s': Net, floods: nat, x: Addr)
    requires WellFormed(g, s) && WellFormed(g, s') && s'.nodes == s.nodes && x in g.nbrs
    requires s'.user[x] + s'.injected[x] == s.user[x] + s.injected[x] + floods
    ensures Work(s')[x] == Work(s)[x] + Sums.Times(floods, OpenPorts(s)[x])
  {
    Sums.TimesAdd(s.user[x] + s.injected[x], floods, |s.nodes[x].open|);
  }

  lemma WorkShares(g: Graph, s: Net, s': Net, floods: nat)
    requires WellFormed(g, s) && WellFormed(g, s') && s'.nodes == s.nodes
    requires forall x | x in g.nbrs :: s'.user[x] + s'.injected[x] == s.user[x] + s.injected[x] + floods
    ensures Sums.Sum(Work(s')) == Sums.Sum(Work(s)) + Sums.Times(floods, Sums.Sum(OpenPorts(s)))
  {
    forall x ensures Sums.MoreAt(Work(s), Work(s'), OpenPorts(s), floods, x) {
      if x in g.nbrs {
        WorkShareAt(g, s, s', floods, x);
      }
    }
    Sums.AddScaled(Work(s), Work(s'), OpenPorts(s), floods);
  }

  /** The exact cost of the FLOODs of any calm run of a settled network between flood-free states: with
      `floods` of them sent, by whatever users and however overlapping, `floods` times the number of open
      port ends deliveries, less `floods` for every node but one. */
  lemma FloodDeliveries(g: Graph, m: Addr, k: nat, ss: seq<Net>, acts: seq<Action>, floods: nat)
    requires IsRun(ss, acts) && Calm(acts) && Settled(g, ss[0]) && Centre(g, m, k)
    requires NoFloods(ss[0]) && NoFloods(ss[|acts|])
    requires Sums.Sum(ss[|acts|].injected) == Sums.Sum(ss[0].injected) + floods
    ensures Sums.Hits(FloodHits(ss, acts), |acts|) + Sums.Times(|g.nbrs|, floods)
         == Sums.Times(floods, Sums.Sum(OpenPorts(ss[0]))) + floods
  {
    var s, s' := ss[0], ss[|acts|];
    assert WellFormed(g, s') && s'.nodes == s.nodes by { SettledRun(g, ss, acts, |acts|); }
    forall x | x in g.nbrs ensures s'.user[x] + s'.injected[x] == s.user[x] + s.injected[x] + floods {
      EveryonePasses(g, m, k, ss, acts, x);
    }
    Shares(g, s, s', floods);
    RunSheet(g, ss, acts);
    NoneInFlight(s);
    NoneInFlight(s');
  }

  lemma RunSheet(g: Graph, ss: seq<Net>, acts: seq<Action>)
    requires IsRun(ss, acts) && Calm(acts) && Settled(g, ss[0])
    ensures SheetOr0(ss[|acts|]) == SheetOr0(ss[0]) + Sums.Hits(FloodHits(ss, acts), |acts|)
  {
    forall i: nat ensures Sums.RiseAt(Sheets(ss), FloodHits(ss, acts), i) {
      SheetInRun(g, ss, acts, i);
    }
    Sums.CountRises(Sheets(ss), FloodHits(ss, acts), |acts|);
  }

  // --------------------------------------------------------------- the open port ends

  ghost function OpenDarts(s: Net): set<Dart> {
    set u, v | u in s.nodes && v in s.nodes[u].open :: (u, v)
  }

  /** Ports open towards a node whose own port back is blocked. */
  ghost function HalfOpen(s: Net): set<Dart> {
    set d | d in OpenDarts(s) && !(d.1 in s.nodes && d.0 in s.nodes[d.1].open)
  }

  ghost function FullyOpen(s: Net): set<Dart> {
    set d | d in OpenDarts(s) && d.1 in s.nodes && d.0 in s.nodes[d.1].open
  }

  ghost function DartsOf(open: map<Addr, set<Addr>>): set<Dart> {
    set u, v | u in open && v in open[u] :: (u, v)
  }

  ghost function Sizes(open: map<Addr, set<Addr>>): map<Addr, nat> {
    map u | u in open :: |open[u]|
  }

  lemma DartsWithout(open: map<Addr, set<Addr>>, x: Addr)
    requires x in open
    ensures |DartsOf(open)| == |DartsOf(open - {x})| + |open[x]|
  {
    var rest := DartsOf(open - {x});
    assert DartsOf(open) == rest + Fan(x, open[x]) by {
      forall d ensures d in DartsOf(open) <==> d in rest + Fan(x, open[x]) {
        assert d.0 != x ==> (d in DartsOf(open) <==> d in rest);
      }
    }
    assert rest !! Fan(x, open[x]);
    AsManyDarts(x, open[x]);
  }

  lemma {:induction false} SumOfSizes(open: map<Addr, set<Addr>>)
    ensures Sums.Sum(Sizes(open)) == |DartsOf(open)|
    decreases |open.Keys|
  {
    if open == map[] {
      assert DartsOf(open) == {} && Sizes(open) == map[];
    } else {
      var x :| x in open;
      assert (open - {x}).Keys == open.Keys - {x};
      SumOfSizes(open - {x});
      DartsWithout(open, x);
      assert Sizes(open) - {x} == Sizes(open - {x});
      Sums.SplitOff(Sizes(open), x);
    }
  }

  ghost function OpenSets(s: Net): map<Addr, set<Addr>> {
    map u | u in s.nodes :: s.nodes[u].open
  }

  lemma OpenDartsAre(s: Net)
    ensures OpenPorts(s) == Sizes(OpenSets(s)) && OpenDarts(s) == DartsOf(OpenSets(s))
  {
  }

  lemma TwoKinds(s: Net)
    ensures |OpenDarts(s)| == |HalfOpen(s)| + |FullyOpen(s)|
  {
    assert OpenDarts(s) == HalfOpen(s) + FullyOpen(s) && HalfOpen(s) !! FullyOpen(s);
  }

  /** The open port ends are the two of every fully open link and one of every half-open link. */
  lemma OpenEnds(s: Net)
    ensures Sums.Sum(OpenPorts(s)) == |HalfOpen(s)| + |FullyOpen(s)|
  {
    OpenDartsAre(s);
    SumOfSizes(OpenSets(s));
    TwoKinds(s);
  }

  ghost function Uplinks(t: map<Addr, NodeState>, nodes: set<Addr>): set<Dart>
    requires nodes <= t.Keys
  {
    set u | u in nodes :: (u, t[u].next)
  }

  ghost function Downlinks(t: map<Addr, NodeState>, nodes: set<Addr>): set<Dart>
    requires nodes <= t.Keys
  {
    set u | u in nodes :: (t[u].next, u)
  }

  lemma {:induction false} OneEach(t: map<Addr, NodeState>, nodes: set<Addr>)
    requires nodes <= t.Keys
    ensures |Uplinks(t, nodes)| == |nodes| == |Downlinks(t, nodes)|
    decreases |nodes|
  {
    if nodes == {} {
      assert Uplinks(t, nodes) == {} && Downlinks(t, nodes) == {};
    } else {
      var u :| u in nodes;
      var rest := nodes - {u};
      OneEach(t, rest);
      assert Uplinks(t, nodes) == Uplinks(t, rest) + {(u, t[u].next)};
      assert Downlinks(t, nodes) == Downlinks(t, rest) + {(t[u].next, u)};
    }
  }

  lemma UpIsNotDown(t: map<Addr, NodeState>, m: Addr, nodes: set<Addr>)
    requires IsTree(t, m) && nodes <= t.Keys && m !in nodes
    ensures Uplinks(t, nodes) !! Downlinks(t, nodes)
  {
    forall d | d in Uplinks(t, nodes) ensures d !in Downlinks(t, nodes) {
      assert TreeAt(t, m, d.0);
      assert d in Downlinks(t, nodes) ==> TreeAt(t, m, d.1);
    }
  }

  /** A fully open port end is an end of a link to a parent. */
  lemma FullyOpenIsLink(g: Graph, m: Addr, s: Net, d: Dart)
    requires Settled(g, s) && IsTree(s.nodes, m) && d in FullyOpen(s)
    ensures d.0 in s.nodes && d.1 in s.nodes && (s.nodes[d.0].next == d.1 || s.nodes[d.1].next == d.0) && d.0 != d.1
  {
    assert NodeOk(g, d.0, s.nodes[d.0]) && Linked(g, d.0, d.1);
    OpenLinksAreTheTree(g, s, d.0, d.1);
  }

  /** Both ends of the link to a parent are fully open. */
  lemma ParentIsOpen(g: Graph, m: Addr, s: Net, u: Addr)
    requires Settled(g, s) && IsTree(s.nodes, m) && u in s.nodes && u != m
    ensures (u, s.nodes[u].next) in FullyOpen(s) && (s.nodes[u].next, u) in FullyOpen(s)
  {
    assert TreeAt(s.nodes, m, u) && NodeOk(g, u, s.nodes[u]);
    assert Linked(g, u, s.nodes[u].next);
    OpenLinksAreTheTree(g, s, u, s.nodes[u].next);
  }

  lemma FullyOpenAre(g: Graph, m: Addr, s: Net)
    requires Settled(g, s) && IsTree(s.nodes, m)
    ensures var others := s.nodes.Keys - {m};
            FullyOpen(s) == Uplinks(s.nodes, others) + Downlinks(s.nodes, others)
  {
    var others := s.nodes.Keys - {m};
    var up, down := Uplinks(s.nodes, others), Downlinks(s.nodes, others);
    forall d | d in FullyOpen(s) ensures d in up + down {
      FullyOpenIsLink(g, m, s, d);
      assert TreeAt(s.nodes, m, d.0) && TreeAt(s.nodes, m, d.1);
    }
    forall d | d in up + down ensures d in FullyOpen(s) {
      ParentIsOpen(g, m, s, if d in up then d.0 else d.1);
    }
  }

  lemma BothEnds(t: map<Addr, NodeState>, m: Addr)
    requires IsTree(t, m)
    ensures |Uplinks(t, t.Keys - {m}) + Downlinks(t, t.Keys - {m})| == 2 * (|t.Keys| - 1)
  {
    var others := t.Keys - {m};
    OneEach(t, others);
    UpIsNotDown(t, m, others);
    assert |others| == |t.Keys| - 1;
  }

  /** In a settled network the fully open port ends are the two ends of every node's link to its parent. */
  lemma FullyOpenIsTree(g: Graph, m: Addr, k: nat, s: Net)
    requires Settled(g, s) && Centre(g, m, k)
    ensures |FullyOpen(s)| == 2 * (|g.nbrs| - 1)
  {
    SettledTree(g, m, k, s);
    FullyOpenAre(g, m, s);
    BothEnds(s.nodes, m);
    assert |s.nodes.Keys| == |g.nbrs| by { assert |g.nbrs.Keys| == |g.nbrs|; }
  }

  /** One FLOOD in a settled network makes exactly one delivery per tree link and one per half-open link. */
  lemma FloodCost(g: Graph, m: Addr, k: nat, ss: seq<Net>, acts: seq<Action>, src: Addr)
    requires IsRun(ss, acts) && Calm(acts) && Settled(g, ss[0]) && Centre(g, m, k)
    requires |acts| > 0 && acts[0] == UserFlood(src) && forall i | 1 <= i < |acts| :: !acts[i].UserFlood?
    requires NoFloods(ss[0]) && NoFloods(ss[|acts|])
    ensures Sums.Hits(FloodHits(ss, acts), |acts|) + (|g.nbrs| - 1) == Sums.Sum(OpenPorts(ss[0]))
    ensures Sums.Hits(FloodHits(ss, acts), |acts|) == |g.nbrs| - 1 + |HalfOpen(ss[0])|
  {
    assert Sums.Sum(ss[|acts|].injected) == Sums.Sum(ss[0].injected) + 1 by { OneInjected(ss, acts, src); }
    FloodDeliveries(g, m, k, ss, acts, 1);
    Sums.TimesOne(|g.nbrs|);
    OpenEnds(ss[0]);
    FullyOpenIsTree(g, m, k, ss[0]);
  }

  lemma OneInjected(ss: seq<Net>, acts: seq<Action>, src: Addr)
    requires IsRun(ss, acts) && |acts| > 0 && acts[0] == UserFlood(src) && forall i | 1 <= i < |acts| :: !acts[i].UserFlood?
    ensures Sums.Sum(ss[|acts|].injected) == Sums.Sum(ss[0].injected) + 1
  {
    assert StepAt(ss, acts, 0);
    Sums.Update(ss[0].injected, ss[1].injected, src);
    InjectionsFixed(ss, acts, |acts|);
  }
}
