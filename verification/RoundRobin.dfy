/** The receive call of a node: polling the ports and the user queue round-robin. */
module RoundRobin {

  /** What polling a port would give in this call: nothing pending, a packet, or an error. */
  datatype Poll = Empty | Ready | Failing

  /** What the call comes to: no packet, one packet from a port, or an error that ends the node. */
  datatype Outcome = Nothing | Got(port: nat) | Exit(port: nat)

  function After(n: nat, i: nat): (j: nat)
    requires i <= n
    ensures j <= n
  {
    if i == n then 0 else i + 1
  }

  /** How many ports are polled before `q` when polling starts at `i`; ports are 0..n. */
  function Ahead(n: nat, i: nat, q: nat): (d: nat)
    requires i <= n && q <= n
    ensures d <= n
  {
    if i <= q then q - i else q + n + 1 - i
  }

  /** A port whose link is down is passed over; port n, the user's queue, is either empty or ready. */
  function Answer(up: seq<bool>, polls: seq<Poll>, q: nat): Poll
    requires q <= |up| && |polls| == |up| + 1
  {
    if q == |up| then (if polls[q] == Ready then Ready else Empty)
    else if up[q] then polls[q]
    else Empty
  }

  ghost predicate EmptyBefore(i: nat, up: seq<bool>, polls: seq<Poll>, d: nat)
    requires i <= |up| && |polls| == |up| + 1
  {
    forall q {:trigger Answer(up, polls, q)} | 0 <= q <= |up| && Ahead(|up|, i, q) < d :: Answer(up, polls, q) == Empty
  }

  /** A call that starts at port `i` takes the first answer in cyclic order, and the next call starts behind it. */
  ghost predicate Serves(i: nat, up: seq<bool>, polls: seq<Poll>, r: Outcome, i': nat) {
    && i <= |up| && |polls| == |up| + 1
    && match r
       case Nothing => EmptyBefore(i, up, polls, |up| + 1) && i' == i
       case Got(q) => q <= |up| && Answer(up, polls, q) == Ready && EmptyBefore(i, up, polls, Ahead(|up|, i, q)) && i' == After(|up|, q)
       case Exit(q) => q <= |up| && Answer(up, polls, q) == Failing && EmptyBefore(i, up, polls, Ahead(|up|, i, q)) && i' == q
  }

  method NextIndex(n: nat, i: nat) returns (j: nat)
    requires i <= n
    ensures j == After(n, i)
  {
    j := (i + 1) % (n + 1);
    if i == n {
      assert (n + 1) % (n + 1) == 0;
    }
  }

  lemma AheadNext(n: nat, i: nat, q: nat)
    requires i <= n && q <= n
    ensures After(n, q) != i ==> Ahead(n, i, After(n, q)) == Ahead(n, i, q) + 1
    ensures After(n, q) == i ==> Ahead(n, i, q) == n
  {
  }

  lemma EmptyNext(i: nat, up: seq<bool>, polls: seq<Poll>, q: nat)
    requires i <= |up| && q <= |up| && |polls| == |up| + 1
    requires EmptyBefore(i, up, polls, Ahead(|up|, i, q)) && Answer(up, polls, q) == Empty
    ensures EmptyBefore(i, up, polls, Ahead(|up|, i, q) + 1)
  {
  }

  /** One port after another from `i`. */
  ghost predicate InTurn(n: nat, i: nat, polled: seq<nat>)
    requires i <= n
  {
    forall k | 0 <= k < |polled| :: polled[k] <= n && Ahead(n, i, polled[k]) == k
  }

  /** Port `q` has a packet, or its link has an error, and the port is not passed over. */
  ghost predicate Responds(up: seq<bool>, polls: seq<Poll>, q: nat) {
    |polls| == |up| + 1 && ((q < |up| && up[q] && polls[q] != Empty) || (q == |up| && polls[q] == Ready))
  }

  lemma InTurnMore(n: nat, i: nat, polled: seq<nat>, port: nat)
    requires i <= n && port <= n && InTurn(n, i, polled) && Ahead(n, i, port) == |polled|
    ensures InTurn(n, i, polled + [port])
  {
  }

  /** One port after the other, around, and none of the first `quiet` responds. */
  ghost predicate Sweep(up: seq<bool>, polls: seq<Poll>, i: nat, polled: seq<nat>, quiet: nat) {
    && polled != [] && polled[0] == i && quiet <= |polled|
    && (forall k | 0 < k < |polled| :: polled[k] == if polled[k - 1] == |up| then 0 else polled[k - 1] + 1)
    && (forall k | 0 <= k < quiet :: !Responds(up, polls, polled[k]))
  }

  lemma SweepIs(up: seq<bool>, polls: seq<Poll>, i: nat, polled: seq<nat>, quiet: nat)
    requires i <= |up| && |polls| == |up| + 1 && InTurn(|up|, i, polled) && EmptyBefore(i, up, polls, quiet)
    requires polled != [] && quiet <= |polled| <= |up| + 1
    ensures Sweep(up, polls, i, polled, quiet)
  {
    forall k | 0 <= k < quiet ensures !Responds(up, polls, polled[k]) {
      assert Answer(up, polls, polled[k]) == Empty;
    }
  }

  class NodeContext {
    var linkStates: array<bool>
    var rxPortIdx: nat

    ghost predicate Valid()
      reads this
    {
      rxPortIdx <= linkStates.Length <= 255
    }

    constructor (numNeighbors: nat)
      requires numNeighbors <= 255
      ensures Valid() && fresh(linkStates) && linkStates.Length == numNeighbors && rxPortIdx == 0
      ensures forall k | 0 <= k < numNeighbors :: linkStates[k]
    {
      linkStates := new bool[numNeighbors](_ => true);
      rxPortIdx := 0;
    }

    /** Looks at the user's queue, or at a port if its link is up. */
    method Poll(polls: seq<Poll>, port: nat) returns (a: Poll)
      requires Valid() && |polls| == linkStates.Length + 1 && port <= linkStates.Length
      ensures a == Answer(linkStates[..], polls, port)
    {
      a := Empty;
      if port == linkStates.Length {
        if polls[port] == Ready {
          a := Ready;
        }
      } else if linkStates[port] {
        a := polls[port];
      }
    }

    /** `polled` lists the ports in the order in which the call looked at them. */
    method NodeRecv(polls: seq<Poll>) returns (r: Outcome, polled: seq<nat>)
      requires Valid() && |polls| == linkStates.Length + 1
      modifies this`rxPortIdx
      ensures Valid()
      ensures Serves(old(rxPortIdx), linkStates[..], polls, r, rxPortIdx)
      ensures 1 <= |polled| <= linkStates.Length + 1
      ensures InTurn(linkStates.Length, old(rxPortIdx), polled)
      ensures Sweep(linkStates[..], polls, old(rxPortIdx), polled, |polled| - (if r == Nothing then 0 else 1))
      ensures r.Got? ==>
                && r.port == polled[|polled| - 1] <= linkStates.Length && polls[r.port] == Ready
                && (r.port < linkStates.Length ==> linkStates[r.port])
                && rxPortIdx == if r.port == linkStates.Length then 0 else r.port + 1
      ensures r.Exit? ==>
                && r.port == polled[|polled| - 1] < linkStates.Length && polls[r.port] == Failing && linkStates[r.port]
                && rxPortIdx == r.port
      ensures r == Nothing ==> |polled| == linkStates.Length + 1 && rxPortIdx == old(rxPortIdx)
    {
      var n, stop := linkStates.Length, rxPortIdx;
      ghost var up := linkStates[..];
      r, polled := Nothing, [];
      while true
        invariant Valid() && r == Nothing && |polled| <= n && Ahead(n, stop, rxPortIdx) == |polled|
        invariant EmptyBefore(stop, up, polls, |polled|)
        invariant InTurn(n, stop, polled)
        decreases n - |polled|
      {
        var port := rxPortIdx;
        InTurnMore(n, stop, polled, port);
        polled := polled + [port];
        var a := Poll(polls, port);
        if a == Failing {
          r := Exit(port);
          break;
        }
        if a == Ready {
          r := Got(port);
        } else {
          EmptyNext(stop, up, polls, port);
        }
        rxPortIdx := NextIndex(n, port);
        AheadNext(n, stop, port);
        if r != Nothing || rxPortIdx == stop {
          break;
        }
      }
      SweepIs(up, polls, stop, polled, |polled| - (if r == Nothing then 0 else 1));
    }
  }

  // ----------------------------------------------------------------- bounded bypass

  /** A series of calls: where each started, the links and answers it met, what it returned. */
  datatype CallRecord = CallRecord(start: nat, polls: seq<Poll>, up: seq<bool>, result: Outcome)

  ghost predicate CallOk(n: nat, calls: seq<CallRecord>, k: int) {
    0 <= k < |calls| ==>
      && |calls[k].up| == n && calls[k].start <= n && !calls[k].result.Exit?
      && (k + 1 < |calls| ==> Serves(calls[k].start, calls[k].up, calls[k].polls, calls[k].result, calls[k + 1].start))
      && exists next :: Serves(calls[k].start, calls[k].up, calls[k].polls, calls[k].result, next)
  }

  ghost predicate IsSeries(n: nat, calls: seq<CallRecord>) {
    forall k {:trigger CallOk(n, calls, k)} :: CallOk(n, calls, k)
  }

  ghost predicate StaysReady(n: nat, calls: seq<CallRecord>, q: nat) {
    q <= n && forall k {:trigger calls[k]} | 0 <= k < |calls| :: |calls[k].up| == n && |calls[k].polls| == n + 1 && Answer(calls[k].up, calls[k].polls, q) == Ready
  }

  /** A call that passes over the ready port `q` serves a port ahead of it, and comes nearer to `q`. */
  lemma Nearer(n: nat, c: CallRecord, q: nat, i': nat)
    requires Serves(c.start, c.up, c.polls, c.result, i') && |c.up| == n && q <= n && Answer(c.up, c.polls, q) == Ready
    requires !c.result.Exit? && c.result != Got(q)
    ensures c.result.Got? && i' <= n && Ahead(n, i', q) < Ahead(n, c.start, q)
    ensures Ahead(n, c.start, c.result.port) < Ahead(n, c.start, q)
    ensures Ahead(n, i', q) == Ahead(n, c.start, q) - Ahead(n, c.start, c.result.port) - 1
  {
    assert c.result.Got? ==> Ahead(n, c.start, c.result.port) != Ahead(n, c.start, q);
  }

  /** While `q` stays ready and is not served, each call leaves fewer ports ahead of it. */
  lemma {:induction false} Approach(n: nat, calls: seq<CallRecord>, q: nat, k: nat)
    requires IsSeries(n, calls) && StaysReady(n, calls, q) && k < |calls|
    requires forall j | 0 <= j < k :: calls[j].result != Got(q)
    ensures calls[k].start <= n && calls[0].start <= n
    ensures Ahead(n, calls[k].start, q) + k <= Ahead(n, calls[0].start, q)
  {
    assert CallOk(n, calls, 0) && CallOk(n, calls, k);
    if k > 0 {
      Approach(n, calls, q, k - 1);
      assert CallOk(n, calls, k - 1);
      Nearer(n, calls[k - 1], q, calls[k].start);
    }
  }

  /** A port that stays ready is served within `n + 1` calls, wherever polling starts. */
  lemma BoundedBypass(n: nat, calls: seq<CallRecord>, q: nat)
    requires IsSeries(n, calls) && StaysReady(n, calls, q) && |calls| >= n + 1
    ensures exists k :: 0 <= k <= n && calls[k].result == Got(q)
  {
    if forall k | 0 <= k <= n :: calls[k].result != Got(q) {
      Approach(n, calls, q, n);
      assert CallOk(n, calls, n);
      var next :| Serves(calls[n].start, calls[n].up, calls[n].polls, calls[n].result, next);
      Nearer(n, calls[n], q, next);
    }
  }

  /** Two calls in a row that pass over `q` serve ports in order of their distance to `q`. */
  lemma NextServed(n: nat, calls: seq<CallRecord>, q: nat, k: nat)
    requires IsSeries(n, calls) && StaysReady(n, calls, q) && k + 1 < |calls|
    requires calls[k].result != Got(q) && calls[k + 1].result != Got(q)
    ensures calls[k].result.Got? && calls[k + 1].result.Got? && calls[k].result.port <= n && calls[k + 1].result.port <= n
    ensures Ahead(n, calls[k + 1].result.port, q) < Ahead(n, calls[k].result.port, q)
  {
    assert CallOk(n, calls, k) && CallOk(n, calls, k + 1);
    Nearer(n, calls[k], q, calls[k + 1].start);
    var next :| Serves(calls[k + 1].start, calls[k + 1].up, calls[k + 1].polls, calls[k + 1].result, next);
    Nearer(n, calls[k + 1], q, next);
  }

  lemma {:induction false} ServedInOrder(n: nat, calls: seq<CallRecord>, q: nat, j: nat, k: nat)
    requires IsSeries(n, calls) && StaysReady(n, calls, q) && j < k < |calls|
    requires forall i | j <= i <= k :: calls[i].result != Got(q)
    ensures calls[j].result.Got? && calls[k].result.Got? && calls[j].result.port <= n && calls[k].result.port <= n
    ensures Ahead(n, calls[k].result.port, q) < Ahead(n, calls[j].result.port, q)
    decreases k
  {
    NextServed(n, calls, q, k - 1);
    if j < k - 1 {
      ServedInOrder(n, calls, q, j, k - 1);
    }
  }

  /** While `q` waits, no other port is served twice. */
  lemma NoPortTwice(n: nat, calls: seq<CallRecord>, q: nat, j: nat, k: nat)
    requires IsSeries(n, calls) && StaysReady(n, calls, q) && j < k < |calls|
    requires forall i | j <= i <= k :: calls[i].result != Got(q)
    ensures calls[j].result != calls[k].result
  {
    ServedInOrder(n, calls, q, j, k);
  }
}
