/** In a settled network every user FLOOD reaches every other user exactly once. */
module Flood {
  import opened Overlay
  import opened NodeModel
  import opened Network
  import opened StpInvariants
  import opened StpStable
  import opened StpConverge
  import opened StpSettled
  import opened Runs
  import Sums

  // ------------------------------------------------------------------- the tree

  ghost predicate TreeAt(t: map<Addr, NodeState>, m: Addr, u: Addr) {
    u in t ==>
      && (t[u].dist == 0 <==> u == m)
      && (u == m <==> t[u].next == u)
      && (t[u].dist > 0 ==> t[u].next in t && t[t[u].next].dist + 1 == t[u].dist)
  }

  /** Parent pointers lead from every node to `m`, one level at a time. */
  ghost predicate IsTree(t: map<Addr, NodeState>, m: Addr) {
    m in t && forall u {:trigger TreeAt(t, m, u)} :: TreeAt(t, m, u)
  }

  /** The ancestor `j` levels above `x`. */
  ghost function Up(t: map<Addr, NodeState>, m: Addr, x: Addr, j: nat): (r: Addr)
    requires IsTree(t, m) && x in t && j <= t[x].dist
    ensures r in t && t[r].dist + j == t[x].dist
  {
    if j == 0 then x
    else
      var p := Up(t, m, x, j - 1);
      assert TreeAt(t, m, p);
      t[p].next
  }

  /** `u` lies on the way from `x` to the root (and is not `x`). */
  ghost predicate Above(t: map<Addr, NodeState>, m: Addr, u: Addr, x: Addr)
    requires IsTree(t, m) && u in t && x in t
  {
    t[u].dist < t[x].dist && Up(t, m, x, t[x].dist - t[u].dist) == u
  }

  /** The first hop on the tree path from `u` to `x`. */
  ghost function Hop(t: map<Addr, NodeState>, m: Addr, u: Addr, x: Addr): Addr
    requires IsTree(t, m) && u in t && x in t
  {
    if Above(t, m, u, x) then Up(t, m, x, t[x].dist - t[u].dist - 1) else t[u].next
  }

  ghost predicate TreeLink(t: map<Addr, NodeState>, u: Addr, v: Addr) {
    u in t && v in t && u != v && (t[u].next == v || t[v].next == u)
  }

  lemma RootIsAbove(t: map<Addr, NodeState>, m: Addr, x: Addr)
    requires IsTree(t, m) && x in t && x != m
    ensures Above(t, m, m, x)
  {
    assert TreeAt(t, m, x) && TreeAt(t, m, m) && TreeAt(t, m, Up(t, m, x, t[x].dist));
  }

  /** The first hop is a tree neighbour. */
  lemma HopIsLink(t: map<Addr, NodeState>, m: Addr, u: Addr, x: Addr)
    requires IsTree(t, m) && u in t && x in t && u != x
    ensures TreeLink(t, u, Hop(t, m, u, x))
  {
    assert TreeAt(t, m, u) && TreeAt(t, m, Hop(t, m, u, x));
    if u == m {
      RootIsAbove(t, m, x);
    }
  }

  /** A hop towards `x` is never undone by the next one. */
  lemma HopMovesOn(t: map<Addr, NodeState>, m: Addr, u: Addr, x: Addr)
    requires IsTree(t, m) && u in t && x in t && u != x && Hop(t, m, u, x) in t
    requires Hop(t, m, u, x) != x
    ensures Hop(t, m, Hop(t, m, u, x), x) != u
  {
    var v := Hop(t, m, u, x);
    assert TreeAt(t, m, u) && TreeAt(t, m, v);
    if u == m {
      RootIsAbove(t, m, x);
    }
  }

  /** Across a tree link, if `x` is not beyond `v` then it is beyond `u`. */
  lemma HopSides(t: map<Addr, NodeState>, m: Addr, u: Addr, v: Addr, x: Addr)
    requires IsTree(t, m) && x in t && u != x && TreeLink(t, u, v) && Hop(t, m, u, x) != v
    ensures v != x && Hop(t, m, v, x) == u
  {
    assert TreeAt(t, m, u) && TreeAt(t, m, v);
    if t[v].next == u && t[v].dist <= t[x].dist {
      var j := t[x].dist - t[v].dist;
      assert Up(t, m, x, j + 1) == t[Up(t, m, x, j)].next;
    }
  }

  /** The hop to a tree neighbour is that neighbour. */
  lemma HopToNeighbour(t: map<Addr, NodeState>, m: Addr, u: Addr, v: Addr)
    requires IsTree(t, m) && TreeLink(t, u, v)
    ensures Hop(t, m, u, v) == v
  {
    assert TreeAt(t, m, u) && TreeAt(t, m, v);
    assert t[v].next == u ==> Up(t, m, v, 1) == u;
  }

  lemma SettledTree(g: Graph, m: Addr, k: nat, s: Net)
    requires Settled(g, s) && Centre(g, m, k)
    ensures IsTree(s.nodes, m)
  {
    forall u ensures TreeAt(s.nodes, m, u) {
      if u in s.nodes {
        assert NodeOk(g, u, s.nodes[u]);
        QuietIsCorrect(g, m, k, s, u);
        if s.nodes[u].dist > 0 {
          QuietParent(g, s, u);
        }
      }
    }
  }

  // ------------------------------------------------------------------ the tokens

  ghost function FloodCount(c: seq<Packet>): nat {
    |c| - StpCount(c)
  }

  /** A FLOOD in flight from `w` on its first hop towards `x` is a token for `x`. */
  ghost function TokensFrom(s: Net, m: Addr, x: Addr, w: Addr): nat
    requires IsTree(s.nodes, m) && x in s.nodes && w in s.nodes
  {
    var d := (w, Hop(s.nodes, m, w, x));
    if w != x && d in s.chan then FloodCount(s.chan[d]) else 0
  }

  ghost function TokenMap(s: Net, m: Addr, x: Addr): map<Addr, nat>
    requires IsTree(s.nodes, m) && x in s.nodes
  {
    map w | w in s.nodes :: TokensFrom(s, m, x, w)
  }

  ghost function Tokens(s: Net, m: Addr, x: Addr): nat
    requires IsTree(s.nodes, m) && x in s.nodes
  {
    Sums.Sum(TokenMap(s, m, x))
  }

  /** A settled network in which every FLOOD in flight left through an unblocked port. */
  ghost predicate FloodInv(g: Graph, m: Addr, s: Net) {
    && Settled(g, s) && IsTree(s.nodes, m)
    && (forall d | d in s.chan && Flood in s.chan[d] :: d.0 in s.nodes && d.1 in s.nodes[d.0].open)
  }

  ghost predicate TakesFlood(s: Net, a: Action) {
    a.Deliver? && Enabled(s, a) && Head(s, a).Flood?
  }

  lemma FloodCountStep(s: Net, a: Action, s': Net, d: Dart)
    requires Step(s, a, s') && d in s.chan
    ensures d in s'.chan
    ensures FloodCount(s'.chan[d]) + (if TakesFlood(s, a) && a == Deliver(d.0, d.1) then 1 else 0)
         == FloodCount(s.chan[d]) + (if Actor(a) == d.0 && d.1 in FloodsTo(s, a) then 1 else 0)
  {
    CountStep(s, a, s', d);
    assert s'.chan[d] == Rest(s, a, d) + Sent(s, a, d);
  }

  /** The step takes a token for `x` out of flight. */
  ghost predicate Loses(s: Net, m: Addr, a: Action, x: Addr)
    requires IsTree(s.nodes, m) && x in s.nodes
  {
    TakesFlood(s, a) && a.from in s.nodes && a.from != x && Hop(s.nodes, m, a.from, x) == a.to
  }

  /** The step sends a token for `x`. */
  ghost predicate Gains(s: Net, m: Addr, a: Action, x: Addr)
    requires IsTree(s.nodes, m) && x in s.nodes && Enabled(s, a)
  {
    Actor(a) != x && (Actor(a), Hop(s.nodes, m, Actor(a), x)) in s.chan && Hop(s.nodes, m, Actor(a), x) in FloodsTo(s, a)
  }

  lemma TokensFromStep(s: Net, m: Addr, a: Action, s': Net, x: Addr, w: Addr)
    requires IsTree(s.nodes, m) && x in s.nodes && w in s.nodes && Step(s, a, s') && s'.nodes == s.nodes
    ensures TokensFrom(s', m, x, w) + (if Loses(s, m, a, x) && w == a.from then 1 else 0)
         == TokensFrom(s, m, x, w) + (if Gains(s, m, a, x) && w == Actor(a) then 1 else 0)
  {
    var d := (w, Hop(s.nodes, m, w, x));
    if w != x && d in s.chan {
      FloodCountStep(s, a, s', d);
    }
  }

  lemma TokenStep(s: Net, m: Addr, a: Action, s': Net, x: Addr)
    requires IsTree(s.nodes, m) && x in s.nodes && Step(s, a, s') && s'.nodes == s.nodes
    requires a.Deliver? ==> a.from != a.to
    ensures Tokens(s', m, x) + (if Loses(s, m, a, x) then 1 else 0)
         == Tokens(s, m, x) + (if Gains(s, m, a, x) then 1 else 0)
  {
    var before, after, u := TokenMap(s, m, x), TokenMap(s', m, x), Actor(a);
    forall w | w in s.nodes
      ensures after[w] + (if Loses(s, m, a, x) && w == a.from then 1 else 0)
           == before[w] + (if Gains(s, m, a, x) && w == u then 1 else 0)
    {
      TokensFromStep(s, m, a, s', x, w);
    }
    TwoUpdates(before, after, u, if a.Deliver? && a.from in s.nodes then a.from else u);
  }

  /** If two maps differ at two keys only, so do their sums. */
  lemma TwoUpdates(m: map<Addr, nat>, m': map<Addr, nat>, u: Addr, v: Addr)
    requires u in m && v in m && m'.Keys == m.Keys
    requires forall w | w in m && w != u && w != v :: m'[w] == m[w]
    ensures Sums.Sum(m') + m[u] + (if v != u then m[v] else 0) == Sums.Sum(m) + m'[u] + (if v != u then m'[v] else 0)
  {
    var mid := m[u := m'[u]];
    Sums.Update(m, mid, u);
    Sums.Update(mid, m', v);
  }

  // ------------------------------------------------------------- the balance sheet

  lemma TreeLinkOpen(g: Graph, m: Addr, s: Net, u: Addr, v: Addr)
    requires FloodInv(g, m, s) && TreeLink(s.nodes, u, v)
    ensures Linked(g, u, v) && Linked(g, v, u) && (u, v) in s.chan
    ensures v in s.nodes[u].open && u in s.nodes[v].open
  {
    assert NodeOk(g, u, s.nodes[u]) && NodeOk(g, v, s.nodes[v]);
    assert Linked(g, u, v) && Linked(g, v, u);
    assert (u, v) in Darts(g);
    OpenLinksAreTheTree(g, s, u, v);
  }

  /** A FLOOD is accepted exactly when it came over a tree link. */
  lemma AcceptedOnTree(g: Graph, m: Addr, s: Net, a: Action)
    requires FloodInv(g, m, s) && TakesFlood(s, a)
    ensures a.from in s.nodes && a.from != a.to
    ensures AcceptsFlood(s, a) <==> TreeLink(s.nodes, a.from, a.to)
  {
    assert (a.from, a.to) in Darts(g) && Linked(g, a.from, a.to);
    assert Flood in s.chan[(a.from, a.to)];
    OpenLinksAreTheTree(g, s, a.from, a.to);
  }

  lemma UserFloodGains(g: Graph, m: Addr, s: Net, a: Action, x: Addr)
    requires FloodInv(g, m, s) && Enabled(s, a) && a.UserFlood? && x in s.nodes
    ensures Gains(s, m, a, x) <==> a.node != x
  {
    if a.node != x {
      HopIsLink(s.nodes, m, a.node, x);
      TreeLinkOpen(g, m, s, a.node, Hop(s.nodes, m, a.node, x));
    }
  }

  /** An accepted FLOOD passes each token on, except the token for the node itself. */
  lemma AcceptPassesOn(g: Graph, m: Addr, s: Net, a: Action, x: Addr)
    requires FloodInv(g, m, s) && AcceptsFlood(s, a) && x in s.nodes
    ensures x == a.to ==> Loses(s, m, a, x) && !Gains(s, m, a, x)
    ensures x != a.to ==> (Loses(s, m, a, x) <==> Gains(s, m, a, x))
  {
    var v, u := a.from, a.to;
    AcceptedOnTree(g, m, s, a);
    HopToNeighbour(s.nodes, m, v, u);
    HopToNeighbour(s.nodes, m, u, v);
    if x != u {
      HopIsLink(s.nodes, m, u, x);
      TreeLinkOpen(g, m, s, u, Hop(s.nodes, m, u, x));
      if Loses(s, m, a, x) {
        HopMovesOn(s.nodes, m, v, x);
      } else if v != x {
        HopSides(s.nodes, m, v, u, x);
      }
    }
  }

  lemma RefusedHasNoToken(g: Graph, m: Addr, s: Net, a: Action, x: Addr)
    requires FloodInv(g, m, s) && TakesFlood(s, a) && !AcceptsFlood(s, a) && x in s.nodes
    ensures !Loses(s, m, a, x)
  {
    AcceptedOnTree(g, m, s, a);
    if a.from != x {
      HopIsLink(s.nodes, m, a.from, x);
    }
  }

  /** FLOODs that users other than x's have sent so far. */
  ghost function SentByOthers(s: Net, x: Addr): nat {
    Sums.Sum(s.injected - {x})
  }

  lemma SentByOthersStep(s: Net, a: Action, s': Net, x: Addr)
    requires Step(s, a, s')
    ensures SentByOthers(s', x) == SentByOthers(s, x) + (if a.UserFlood? && a.node != x then 1 else 0)
  {
    if a.UserFlood? && a.node != x {
      Sums.Update(s.injected - {x}, s'.injected - {x}, a.node);
    } else {
      assert s'.injected - {x} == s.injected - {x};
    }
  }

  /** Delivered to x's user, plus still on the way to x, equals sent by the others, from a common start. */
  ghost predicate Balanced(s: Net, m: Addr, x: Addr, base: int) {
    IsTree(s.nodes, m) && x in s.nodes && x in s.user ==>
      s.user[x] + Tokens(s, m, x) == base + SentByOthers(s, x)
  }

  lemma FloodInvStep(g: Graph, m: Addr, s: Net, a: Action, s': Net)
    requires FloodInv(g, m, s) && Step(s, a, s') && !a.Reelect?
    ensures FloodInv(g, m, s') && s'.nodes == s.nodes
  {
    SettledStep(g, s, a, s');
    forall d | d in s'.chan && Flood in s'.chan[d] ensures d.0 in s'.nodes && d.1 in s'.nodes[d.0].open {
      FloodOnOpenLink(s, a, s', d);
    }
  }

  /** A FLOOD in flight was in flight before, or has just left through an open port. */
  lemma FloodOnOpenLink(s: Net, a: Action, s': Net, d: Dart)
    requires Step(s, a, s') && s'.nodes == s.nodes && d in s'.chan && Flood in s'.chan[d]
    requires d in s.chan && Flood in s.chan[d] ==> d.0 in s.nodes && d.1 in s.nodes[d.0].open
    ensures d.0 in s'.nodes && d.1 in s'.nodes[d.0].open
  {
    assert s'.chan[d] == Rest(s, a, d) + Sent(s, a, d);
  }

  lemma BalanceStep(g: Graph, m: Addr, s: Net, a: Action, s': Net, x: Addr, base: int)
    requires FloodInv(g, m, s) && Step(s, a, s') && s'.nodes == s.nodes && x in s.nodes && x in s.user
    requires Balanced(s, m, x, base)
    ensures Balanced(s', m, x, base)
  {
    if TakesFlood(s, a) {
      AcceptedOnTree(g, m, s, a);
    }
    assert a.Deliver? ==> a.from != a.to by {
      assert a.Deliver? ==> (a.from, a.to) in Darts(g);
    }
    TokenStep(s, m, a, s', x);
    SentByOthersStep(s, a, s', x);
    if a.UserFlood? {
      UserFloodGains(g, m, s, a, x);
    } else if AcceptsFlood(s, a) {
      AcceptPassesOn(g, m, s, a, x);
    } else if TakesFlood(s, a) {
      RefusedHasNoToken(g, m, s, a, x);
    }
  }

  lemma FloodInvAt(g: Graph, m: Addr, ss: seq<Net>, acts: seq<Action>, j: nat)
    requires IsRun(ss, acts) && Calm(acts) && j < |acts| && FloodInv(g, m, ss[j])
    ensures FloodInv(g, m, ss[j + 1]) && ss[j + 1].nodes == ss[j].nodes
  {
    assert Step(ss[j], acts[j], ss[j + 1]) by { assert StepAt(ss, acts, j); }
    FloodInvStep(g, m, ss[j], acts[j], ss[j + 1]);
  }

  lemma FloodInvRun(g: Graph, m: Addr, ss: seq<Net>, acts: seq<Action>, i: nat)
    requires IsRun(ss, acts) && Calm(acts) && FloodInv(g, m, ss[0]) && i <= |acts|
    ensures FloodInv(g, m, ss[i]) && ss[i].nodes == ss[0].nodes && WellFormed(g, ss[i])
  {
    var p := t => FloodInv(g, m, t) && t.nodes == ss[0].nodes;
    forall j: nat ensures KeptAt(p, ss, j) {
      if j + 1 < |ss| && p(ss[j]) {
        FloodInvAt(g, m, ss, acts, j);
      }
    }
    Along(p, ss, i);
  }

  lemma BalanceAt(g: Graph, m: Addr, ss: seq<Net>, acts: seq<Action>, i: nat, x: Addr, base: int)
    requires IsRun(ss, acts) && Calm(acts) && FloodInv(g, m, ss[0]) && i < |acts|
    requires x in g.nbrs && Balanced(ss[i], m, x, base)
    ensures Balanced(ss[i + 1], m, x, base)
  {
    var s, s' := ss[i], ss[i + 1];
    assert FloodInv(g, m, s) && s'.nodes == s.nodes && x in s.nodes && x in s.user by {
      FloodInvRun(g, m, ss, acts, i);
      FloodInvRun(g, m, ss, acts, i + 1);
    }
    assert Step(s, acts[i], s') by { assert StepAt(ss, acts, i); }
    BalanceStep(g, m, s, acts[i], s', x, base);
  }

  ghost predicate BalanceKeptAt(m: Addr, ss: seq<Net>, i: nat, x: Addr, base: int) {
    i + 1 < |ss| && Balanced(ss[i], m, x, base) ==> Balanced(ss[i + 1], m, x, base)
  }

  lemma {:induction false} BalanceKept(m: Addr, ss: seq<Net>, i: nat, x: Addr, base: int)
    requires i < |ss| && Balanced(ss[0], m, x, base)
    requires forall j: nat {:trigger BalanceKeptAt(m, ss, j, x, base)} :: BalanceKeptAt(m, ss, j, x, base)
    ensures Balanced(ss[i], m, x, base)
  {
    if i > 0 {
      BalanceKept(m, ss, i - 1, x, base);
      assert BalanceKeptAt(m, ss, i - 1, x, base);
    }
  }

  lemma BalanceRun(g: Graph, m: Addr, ss: seq<Net>, acts: seq<Action>, x: Addr, base: int)
    requires IsRun(ss, acts) && Calm(acts) && FloodInv(g, m, ss[0])
    requires x in g.nbrs && Balanced(ss[0], m, x, base)
    ensures Balanced(ss[|acts|], m, x, base)
  {
    forall j: nat ensures BalanceKeptAt(m, ss, j, x, base) {
      if j + 1 < |ss| && Balanced(ss[j], m, x, base) {
        BalanceAt(g, m, ss, acts, j, x, base);
      }
    }
    BalanceKept(m, ss, |acts|, x, base);
  }

  // --------------------------------------------------------------- exactly once

  ghost predicate NoFloods(s: Net) {
    forall d | d in s.chan :: Flood !in s.chan[d]
  }

  lemma {:induction false} AllStp(c: seq<Packet>)
    requires Flood !in c
    ensures FloodCount(c) == 0
  {
    if c != [] {
      assert c[0] in c;
      AllStp(c[1..]);
    }
  }

  lemma NoTokens(s: Net, m: Addr, x: Addr)
    requires IsTree(s.nodes, m) && x in s.nodes && NoFloods(s)
    ensures Tokens(s, m, x) == 0
  {
    forall w | w in s.nodes ensures TokensFrom(s, m, x, w) == 0 {
      var d := (w, Hop(s.nodes, m, w, x));
      if d in s.chan {
        AllStp(s.chan[d]);
      }
    }
    Sums.AllZero(TokenMap(s, m, x));
  }

  /** In any calm run of a settled network from a state without FLOODs to one without FLOODs, each user
      receives exactly as many FLOODs as the other users sent, whatever else is interleaved. */
  lemma FloodsDelivered(g: Graph, m: Addr, k: nat, ss: seq<Net>, acts: seq<Action>, x: Addr)
    requires IsRun(ss, acts) && Calm(acts) && Settled(g, ss[0]) && Centre(g, m, k) && x in g.nbrs
    requires NoFloods(ss[0]) && NoFloods(ss[|acts|])
    ensures x in ss[0].user && x in ss[|acts|].user
    ensures ss[|acts|].user[x] + SentByOthers(ss[0], x) == ss[0].user[x] + SentByOthers(ss[|acts|], x)
  {
    var s0, s := ss[0], ss[|acts|];
    SettledTree(g, m, k, s0);
    NoTokens(s0, m, x);
    assert s.nodes == s0.nodes && x in s.user by { FloodInvRun(g, m, ss, acts, |acts|); }
    BalanceRun(g, m, ss, acts, x, s0.user[x] - SentByOthers(s0, x));
    NoTokens(s, m, x);
  }

  /** One FLOOD of the user of `src`: every other user receives it exactly once, and `src`'s own never. */
  lemma FloodExactlyOnce(g: Graph, m: Addr, k: nat, ss: seq<Net>, acts: seq<Action>, src: Addr, x: Addr)
    requires IsRun(ss, acts) && Calm(acts) && Settled(g, ss[0]) && Centre(g, m, k) && x in g.nbrs
    requires |acts| > 0 && acts[0] == UserFlood(src) && forall i | 1 <= i < |acts| :: !acts[i].UserFlood?
    requires NoFloods(ss[0]) && NoFloods(ss[|acts|])
    ensures x in ss[0].user && x in ss[|acts|].user
    ensures ss[|acts|].user[x] == ss[0].user[x] + (if x == src then 0 else 1)
  {
    FloodsDelivered(g, m, k, ss, acts, x);
    assert StepAt(ss, acts, 0);
    SentByOthersStep(ss[0], acts[0], ss[1], x);
    InjectionsFixed(ss, acts, |acts|);
  }

  /** The whole story: start up, drain, `k + 2` rounds of hellos; then any user FLOOD, sent while no other
      is in flight, reaches every other user exactly once. */
  lemma StartToFlood(g: Graph, m: Addr, k: nat, s0: Net, s1: Net, s2: Net, s3: Net,
                     ss: seq<Net>, acts: seq<Action>, src: Addr, x: Addr)
    requires Valid(g) && Centre(g, m, k) && x in g.nbrs
    requires CalmReachable(g, s0) && Drained(s0)
    requires Rounds(m, s0, s1, k) && OneRound(m, s1, s2) && OneRound(m, s2, s3)
    requires IsRun(ss, acts) && Calm(acts) && ss[0] == s3
    requires |acts| > 0 && acts[0] == UserFlood(src) && forall i | 1 <= i < |acts| :: !acts[i].UserFlood?
    requires NoFloods(s3) && NoFloods(ss[|acts|])
    ensures x in s3.user && x in ss[|acts|].user
    ensures ss[|acts|].user[x] == s3.user[x] + (if x == src then 0 else 1)
  {
    NetworkSettles(g, m, k, s0, s1, s2, s3);
    FloodExactlyOnce(g, m, k, ss, acts, src, x);
  }

  lemma {:induction false} InjectionsFixed(ss: seq<Net>, acts: seq<Action>, i: nat)
    requires IsRun(ss, acts) && 1 <= i <= |acts| && forall i | 1 <= i < |acts| :: !acts[i].UserFlood?
    ensures ss[i].injected == ss[1].injected
  {
    if i > 1 {
      InjectionsFixed(ss, acts, i - 1);
      assert StepAt(ss, acts, i - 1);
    }
  }

  // --------------------------------------------------------------- floods die out

  ghost function PendingMap(s: Net, m: Addr): map<Addr, nat>
    requires IsTree(s.nodes, m)
  {
    map x | x in s.nodes :: Tokens(s, m, x)
  }

  ghost function FloodCounts(s: Net): map<Dart, nat> {
    map d | d in s.chan :: FloodCount(s.chan[d])
  }

  /** Tokens still on their way. */
  ghost function PendingTotal(s: Net, m: Addr): nat
    requires IsTree(s.nodes, m)
  {
    Sums.Sum(PendingMap(s, m))
  }

  /** FLOODs in flight. */
  ghost function FloodTotal(s: Net): nat {
    Sums.Sum(FloodCounts(s))
  }

  ghost function Weigh(pending: nat, floods: nat, links: nat): nat {
    Sums.Times(pending, links + 1) + floods
  }

  /** Tokens still on their way, scaled by the number of links, plus FLOODs in flight. */
  ghost function FloodMeasure(s: Net, m: Addr): nat
    requires IsTree(s.nodes, m)
  {
    Weigh(PendingTotal(s, m), FloodTotal(s), |s.chan|)
  }

  ghost function FloodTargets(s: Net, a: Action): set<Dart>
    requires Enabled(s, a)
  {
    set d | d in s.chan && d.0 == Actor(a) && d.1 in FloodsTo(s, a)
  }

  ghost function CountsWithSent(s: Net, a: Action): map<Dart, nat>
    requires Enabled(s, a)
  {
    map d | d in s.chan :: FloodCount(s.chan[d]) + (if d in FloodTargets(s, a) then 1 else 0)
  }

  lemma SentCounts(s: Net, a: Action)
    requires Enabled(s, a)
    ensures Sums.Sum(CountsWithSent(s, a)) == Sums.Sum(FloodCounts(s)) + |FloodTargets(s, a)|
  {
    Sums.AddOn(FloodCounts(s), CountsWithSent(s, a), FloodTargets(s, a), 1);
    Sums.TimesOne(|FloodTargets(s, a)|);
  }

  lemma FloodCountsStep(s: Net, a: Action, s': Net)
    requires Step(s, a, s')
    ensures FloodTotal(s') + (if TakesFlood(s, a) then 1 else 0) == FloodTotal(s) + |FloodTargets(s, a)|
  {
    SentCounts(s, a);
    TakenCounts(s, a, s');
  }

  lemma TakenCounts(s: Net, a: Action, s': Net)
    requires Step(s, a, s')
    ensures Sums.Sum(FloodCounts(s')) + (if TakesFlood(s, a) then 1 else 0) == Sums.Sum(CountsWithSent(s, a))
  {
    var mid, after, key := CountsWithSent(s, a), FloodCounts(s'), if a.Deliver? then (a.from, a.to) else (0, 0);
    forall d | d in s.chan ensures after[d] + (if TakesFlood(s, a) && d == key then 1 else 0) == mid[d] {
      FloodCountStep(s, a, s', d);
    }
    Sums.LowerIf(mid, after, key, TakesFlood(s, a));
  }

  lemma FewTargets(s: Net, a: Action)
    requires Enabled(s, a)
    ensures |FloodTargets(s, a)| <= |s.chan|
    ensures !a.UserFlood? && !AcceptsFlood(s, a) ==> |FloodTargets(s, a)| == 0
  {
    var on := FloodTargets(s, a);
    assert s.chan.Keys == on + (s.chan.Keys - on);
    assert |s.chan| == |s.chan.Keys|;
    assert !a.UserFlood? && !AcceptsFlood(s, a) ==> on == {};
  }

  ghost predicate PendingOk(before: map<Addr, nat>, after: map<Addr, nat>, u: Addr, hit: bool, x: Addr) {
    x in before && x in after ==> after[x] + (if hit && x == u then 1 else 0) == before[x]
  }

  lemma PendingSum(before: map<Addr, nat>, after: map<Addr, nat>, u: Addr, hit: bool)
    requires after.Keys == before.Keys && u in before
    requires forall x {:trigger PendingOk(before, after, u, hit, x)} :: PendingOk(before, after, u, hit, x)
    ensures Sums.Sum(after) + (if hit then 1 else 0) == Sums.Sum(before)
  {
    forall x | x in before ensures after[x] + (if hit && x == u then 1 else 0) == before[x] {
      assert PendingOk(before, after, u, hit, x);
    }
    Sums.LowerIf(before, after, u, hit);
  }

  /** An accepted FLOOD uses up exactly one token; other steps short of a new FLOOD use none. */
  lemma PendingStep(g: Graph, m: Addr, s: Net, a: Action, s': Net)
    requires FloodInv(g, m, s) && Step(s, a, s') && s'.nodes == s.nodes && !a.UserFlood?
    ensures PendingTotal(s', m) + (if AcceptsFlood(s, a) then 1 else 0) == PendingTotal(s, m)
  {
    var before, after, hit := PendingMap(s, m), PendingMap(s', m), AcceptsFlood(s, a);
    forall x: Addr ensures PendingOk(before, after, Actor(a), hit, x) {
      if x in s.nodes {
        PendingAt(g, m, s, a, s', x);
      }
    }
    PendingSum(before, after, Actor(a), hit);
  }

  lemma PendingAt(g: Graph, m: Addr, s: Net, a: Action, s': Net, x: Addr)
    requires FloodInv(g, m, s) && Step(s, a, s') && s'.nodes == s.nodes && !a.UserFlood? && x in s.nodes
    ensures Tokens(s', m, x) + (if AcceptsFlood(s, a) && x == a.to then 1 else 0) == Tokens(s, m, x)
  {
    assert a.Deliver? ==> a.from != a.to by {
      assert a.Deliver? ==> (a.from, a.to) in Darts(g);
    }
    TokenStep(s, m, a, s', x);
    if AcceptsFlood(s, a) {
      AcceptPassesOn(g, m, s, a, x);
    } else if TakesFlood(s, a) {
      RefusedHasNoToken(g, m, s, a, x);
    }
  }

  lemma MeasureArithmetic(p: nat, p': nat, t: nat, t': nat, sent: nat, links: nat, accepted: bool, taken: bool)
    requires p' + (if accepted then 1 else 0) == p && t' + (if taken then 1 else 0) == t + sent
    requires sent <= links && (!accepted ==> sent == 0)
    ensures Weigh(p', t', links) + (if taken then 1 else 0) <= Weigh(p, t, links)
  {
    Sums.TimesMono(p', p, links + 1);
  }

  lemma FloodMeasureStep(g: Graph, m: Addr, s: Net, a: Action, s': Net)
    requires FloodInv(g, m, s) && Step(s, a, s') && s'.nodes == s.nodes && !a.UserFlood?
    ensures FloodMeasure(s', m) + (if TakesFlood(s, a) then 1 else 0) <= FloodMeasure(s, m)
  {
    PendingStep(g, m, s, a, s');
    var sent := FloodTotalStep(s, a, s');
    MeasureFalls(s, m, s', sent, AcceptsFlood(s, a), TakesFlood(s, a));
  }

  /** A step short of a new FLOOD takes at most one FLOOD and, if it accepts one, sends at most one per link. */
  lemma FloodTotalStep(s: Net, a: Action, s': Net) returns (sent: nat)
    requires Step(s, a, s') && !a.UserFlood?
    ensures FloodTotal(s') + (if TakesFlood(s, a) then 1 else 0) == FloodTotal(s) + sent
    ensures sent <= |s.chan| == |s'.chan| && (!AcceptsFlood(s, a) ==> sent == 0)
  {
    sent := |FloodTargets(s, a)|;
    FloodCountsStep(s, a, s');
    FewTargets(s, a);
    SameSize(s.chan, s'.chan);
  }

  lemma MeasureFalls(s: Net, m: Addr, s': Net, sent: nat, accepted: bool, taken: bool)
    requires IsTree(s.nodes, m) && IsTree(s'.nodes, m) && |s'.chan| == |s.chan|
    requires PendingTotal(s', m) + (if accepted then 1 else 0) == PendingTotal(s, m)
    requires FloodTotal(s') + (if taken then 1 else 0) == FloodTotal(s) + sent && sent <= |s.chan| && (!accepted ==> sent == 0)
    ensures FloodMeasure(s', m) + (if taken then 1 else 0) <= FloodMeasure(s, m)
  {
    MeasureArithmetic(PendingTotal(s, m), PendingTotal(s', m), FloodTotal(s), FloodTotal(s'), sent, |s.chan|, accepted, taken);
  }

  lemma SameSize(c: map<Dart, seq<Packet>>, c': map<Dart, seq<Packet>>)
    requires c.Keys == c'.Keys
    ensures |c| == |c'|
  {
    assert |c| == |c.Keys| && |c'| == |c'.Keys|;
  }

  ghost function FloodHits(ss: seq<Net>, acts: seq<Action>): seq<bool>
    requires |ss| == |acts| + 1
  {
    seq(|acts|, i requires 0 <= i < |acts| => TakesFlood(ss[i], acts[i]))
  }

  ghost function FloodMeasureOr0(s: Net, m: Addr): nat {
    if IsTree(s.nodes, m) then FloodMeasure(s, m) else 0
  }

  ghost function FloodMeasures(ss: seq<Net>, m: Addr): seq<nat> {
    seq(|ss|, i requires 0 <= i < |ss| => FloodMeasureOr0(ss[i], m))
  }

  /** Without further user FLOODs, the number of FLOOD deliveries in any calm run of a settled network
      is bounded, however hellos and advertisements are interleaved. */
  lemma FloodsDieOut(g: Graph, m: Addr, ss: seq<Net>, acts: seq<Action>)
    requires IsRun(ss, acts) && Calm(acts) && FloodInv(g, m, ss[0])
    requires forall i | 0 <= i < |acts| :: !acts[i].UserFlood?
    ensures Sums.Hits(FloodHits(ss, acts), |acts|) <= FloodMeasure(ss[0], m)
  {
    forall i: nat ensures Sums.DropAt(FloodMeasures(ss, m), FloodHits(ss, acts), i) {
      if i < |acts| {
        FloodDropAt(g, m, ss, acts, i);
      }
    }
    CountFloods(m, ss, acts);
  }

  lemma CountFloods(m: Addr, ss: seq<Net>, acts: seq<Action>)
    requires |ss| == |acts| + 1 && IsTree(ss[0].nodes, m)
    requires forall i: nat {:trigger Sums.DropAt(FloodMeasures(ss, m), FloodHits(ss, acts), i)} ::
               Sums.DropAt(FloodMeasures(ss, m), FloodHits(ss, acts), i)
    ensures Sums.Hits(FloodHits(ss, acts), |acts|) <= FloodMeasure(ss[0], m)
  {
    Sums.CountDrops(FloodMeasures(ss, m), FloodHits(ss, acts), |acts|);
  }

  lemma FloodDropAt(g: Graph, m: Addr, ss: seq<Net>, acts: seq<Action>, i: nat)
    requires IsRun(ss, acts) && Calm(acts) && FloodInv(g, m, ss[0]) && i < |acts| && !acts[i].UserFlood?
    ensures Sums.DropAt(FloodMeasures(ss, m), FloodHits(ss, acts), i)
  {
    var s, s' := ss[i], ss[i + 1];
    assert FloodInv(g, m, s) && s'.nodes == s.nodes by {
      FloodInvRun(g, m, ss, acts, i);
      FloodInvRun(g, m, ss, acts, i + 1);
    }
    assert Step(s, acts[i], s') by { assert StepAt(ss, acts, i); }
    FloodMeasureStep(g, m, s, acts[i], s');
  }
}
