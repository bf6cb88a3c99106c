/** What the queue guarantees in every reachable state. */
module QueueTheorems {
  import opened MessageQueue
  import opened QueueCounters
  import opened QueueRings
  import opened QueueBlocks
  import Sums

  // -------------------------------------------------------------- one owner per block

  /** Where a block can be seen: a slot of either array, or a thread between two slots. */
  datatype Spot = FreeSlot(j: nat) | QueueSlot(j: nat) | AtProducer(i: Tid) | AtConsumer

  ghost predicate SeenAt(r: Ring, s: State, spot: Spot, b: Block) {
    match spot
    case FreeSlot(j) => j < |s.freelist| && s.freelist[j] == Ptr(b)
    case QueueSlot(j) => j < |s.queue| && s.queue[j] == Ptr(b)
    case AtProducer(i) => i in s.producers && ProducerHolds(s.producers[i], b)
    case AtConsumer => ConsumerHolds(s.consumer, b)
  }

  ghost function SpotOf(r: Ring, pl: Place): Spot {
    match pl
    case InFreelist(p) => FreeSlot(r.slot(p))
    case WithProducer(i) => AtProducer(i)
    case InQueue(t) => QueueSlot(r.slot(t))
    case WithConsumer => AtConsumer
  }

  /** Any `depth` consecutive tickets use every slot. */
  lemma {:induction false} Covers(r: Ring, base: nat, j: nat) returns (t: nat)
    requires FreshRing(r) && j < r.depth
    ensures base <= t < base + r.depth && r.slot(t) == j
  {
    if base == 0 {
      t := j;
    } else {
      t := Covers(r, base - 1, j);
      if t == base - 1 {
        assert Period(r, t);
        t := t + r.depth;
      }
    }
  }

  lemma PlaceIsSeen(r: Ring, s: State, pl: Place, b: Block)
    requires RingInv(r, s) && HoldsAt(r, s, pl, b)
    ensures SeenAt(r, s, SpotOf(r, pl), b)
  {
    match pl
    case InFreelist(p) =>
      assert FreeCell(r, s, p);
      if p < |s.allocators| {
        assert ThreadOk(r, s, s.allocators[p]);
      }
    case InQueue(t) => assert QueueCell(r, s, t);
    case _ =>
  }

  lemma SeenIsPlace(r: Ring, s: State, spot: Spot, b: Block) returns (pl: Place)
    requires FreshRing(r) && RingInv(r, s) && SeenAt(r, s, spot, b)
    ensures HoldsAt(r, s, pl, b) && SpotOf(r, pl) == spot
  {
    match spot
    case FreeSlot(j) =>
      var p := Covers(r, FreesStored(s), j);
      assert FreeCell(r, s, p);
      pl := InFreelist(p);
    case QueueSlot(j) =>
      var t := Covers(r, |s.received|, j);
      assert QueueCell(r, s, t);
      pl := InQueue(t);
    case AtProducer(i) => pl := WithProducer(i);
    case AtConsumer => pl := WithConsumer;
  }

  /** In every reachable state each block is in exactly one spot. */
  lemma OneOwnerPerBlock(r: Ring, s: State, b: Block)
    requires FreshRing(r) && Reachable(r, s) && b < r.depth
    ensures exists spot :: SeenAt(r, s, spot, b) && forall other | SeenAt(r, s, other, b) :: other == spot
  {
    var own := ReachableInv(r, s);
    var spot := SpotOf(r, own[b]);
    PlaceIsSeen(r, s, own[b], b);
    forall other | SeenAt(r, s, other, b) ensures other == spot {
      var pl := SeenIsPlace(r, s, other, b);
    }
  }

  /** In particular no two producers, and no producer and the consumer, hold the same block. */
  lemma HoldersDiffer(r: Ring, s: State, i: Tid, j: Tid, b: Block)
    requires FreshRing(r) && Reachable(r, s)
    requires i in s.producers && ProducerHolds(s.producers[i], b)
    ensures j in s.producers && ProducerHolds(s.producers[j], b) ==> j == i
    ensures !ConsumerHolds(s.consumer, b)
  {
    var own := ReachableInv(r, s);
    assert HoldsAt(r, s, WithProducer(i), b);
    assert j in s.producers && ProducerHolds(s.producers[j], b) ==> HoldsAt(r, s, WithProducer(j), b);
    assert ConsumerHolds(s.consumer, b) ==> HoldsAt(r, s, WithConsumer, b);
  }

  /** While the consumer holds a block the freelist cannot be full, so its free ticket has been allocated. */
  lemma FreerBehindAllocators(r: Ring, s: State, own: map<Block, Place>, b: Block)
    requires RingInv(r, s) && OwnInv(r, s, own) && ConsumerHolds(s.consumer, b)
    ensures FreesStored(s) < |s.allocators|
  {
    if FreesStored(s) == |s.allocators| {
      var f, n := FreesStored(s), r.depth;
      var blocks := s.freeLog[f..f + n] + [b];
      assert HoldsAt(r, s, WithConsumer, b);
      forall k | 0 <= k < n ensures blocks[k] in own && blocks[k] < n && own[blocks[k]] == InFreelist(f + k) {
        assert HoldsAt(r, s, InFreelist(f + k), s.freeLog[f + k]);
      }
      var all := set c | c in own && c < n;
      Sums.BoundedCard(all, n);
      Sums.DistinctLength(blocks, all);
    }
  }

  /** A freer that finds its slot full waits for the allocator that holds the ticket. */
  lemma FreerWaitsForAllocator(r: Ring, s: State, own: map<Block, Place>)
    requires RingInv(r, s) && OwnInv(r, s, own) && s.consumer.FreeLoad? && s.freelist[r.slot(s.consumer.t)] != Null
    ensures Uncleared(s, s.consumer.t)
  {
    FullSlot(r, s);
    FreerBehindAllocators(r, s, own, s.consumer.b);
  }

  /** The spin loops of alloc and write never wait; those of read and free wait only for a
      producer that holds the ticket, whose own remaining loads never wait. */
  lemma SpinsEnd(r: Ring, s: State, i: Tid)
    requires FreshRing(r) && Reachable(r, s)
    ensures RingInv(r, s)
    ensures i in s.producers && s.producers[i].AllocLoad? ==> s.freelist[r.slot(s.producers[i].t)].Ptr?
    ensures i in s.producers && s.producers[i].WriteLoad? ==> s.queue[r.slot(s.producers[i].t)] == Null
    ensures s.consumer.TryLoad? && s.queue[r.slot(s.consumer.t)] == Null ==> Unstored(s, s.consumer.t)
    ensures s.consumer.FreeLoad? && s.freelist[r.slot(s.consumer.t)].Ptr? ==> Uncleared(s, s.consumer.t)
  {
    var own := ReachableInv(r, s);
    if i in s.producers && s.producers[i].AllocLoad? {
      AllocNeverWaits(r, s, i);
    }
    if i in s.producers && s.producers[i].WriteLoad? {
      WriteNeverWaits(r, s, i);
    }
    if s.consumer.TryLoad? && s.queue[r.slot(s.consumer.t)] == Null {
      ReaderWaitsForWriter(r, s);
    }
    if s.consumer.FreeLoad? && s.freelist[r.slot(s.consumer.t)].Ptr? {
      FreerWaitsForAllocator(r, s, own);
    }
  }

  // ------------------------------------------------------- what a NULL read tells

  /** The write with ticket `t` has incremented `entries`. */
  ghost predicate Completed(s: State, t: nat) {
    t < |s.writeLog| && var i := s.writeLog[t].tid;
    i in s.producers ==> !(IsUncounted(s.producers[i]) && s.producers[i].t == t)
  }

  ghost predicate AllCompletedRead(s: State) {
    forall t: nat {:trigger Completed(s, t)} | Completed(s, t) :: t < |s.received|
  }

  /** Producer `i` is still between storing its message and counting it, although it has been read. */
  ghost predicate ReadBeforeCounted(s: State, i: Tid) {
    i in s.producers && s.producers[i].WriteCount? && s.producers[i].t < |s.received|
  }

  ghost function UncountedTickets(s: State): set<nat> {
    set i | i in s.producers && IsUncounted(s.producers[i]) :: s.producers[i].t
  }

  ghost predicate TicketOwner(s: State, i: Tid) {
    i in s.producers && IsUncounted(s.producers[i]) ==>
      s.producers[i].t < |s.writeLog| && s.writeLog[s.producers[i].t].tid == i
  }

  /** Distinct producers hold distinct tickets, so there are as many tickets as producers. */
  lemma {:induction false} AsManyTickets(s: State, tids: set<Tid>)
    requires forall i | i in tids :: i in s.producers && IsUncounted(s.producers[i]) && TicketOwner(s, i)
    ensures |set i | i in tids && i in s.producers && IsUncounted(s.producers[i]) :: s.producers[i].t| == |tids|
    decreases |tids|
  {
    var image := set i | i in tids && i in s.producers && IsUncounted(s.producers[i]) :: s.producers[i].t;
    if tids == {} {
      assert image == {};
    } else {
      var k :| k in tids;
      var rest := tids - {k};
      AsManyTickets(s, rest);
      var image' := set i | i in rest && i in s.producers && IsUncounted(s.producers[i]) :: s.producers[i].t;
      assert image == image' + {s.producers[k].t};
      assert s.producers[k].t !in image';
    }
  }

  /** The tickets from `lo` to `hi`. */
  ghost function Interval(lo: nat, hi: nat): (r: set<nat>)
    requires lo <= hi
    ensures |r| == hi - lo
    ensures forall t: nat :: t in r <==> lo <= t < hi
    decreases hi
  {
    if lo == hi then {} else Interval(lo, hi - 1) + {hi - 1}
  }

  lemma SameSizeSubset(a: set<nat>, b: set<nat>)
    requires a <= b && |a| == |b|
    ensures a == b
  {
    assert |b - a| == |b| - |a|;
  }

  /** With `entries` at 0 there are exactly as many uncounted tickets as unread ones. */
  lemma UncountedIsUnread(r: Ring, s: State)
    requires RingInv(r, s) && EntriesInv(s) && s.entries == 0 && (s.consumer.TryDec? || s.consumer.Wait?)
    ensures |UncountedTickets(s)| == |s.writeLog| - |s.received|
    ensures forall i :: TicketOwner(s, i)
  {
    forall i ensures TicketOwner(s, i) {
      assert ThreadOk(r, s, i);
    }
    var tids := Uncounted(s.producers);
    AsManyTickets(s, tids);
    assert UncountedTickets(s) == set i | i in tids && i in s.producers && IsUncounted(s.producers[i]) :: s.producers[i].t;
  }

  lemma CompletedIff(s: State, t: nat)
    requires (forall i :: TicketOwner(s, i)) && t < |s.writeLog|
    ensures Completed(s, t) <==> t !in UncountedTickets(s)
  {
    if t in UncountedTickets(s) {
      var i :| i in s.producers && IsUncounted(s.producers[i]) && s.producers[i].t == t;
      assert TicketOwner(s, i);
    }
  }

  /** When the queue looks empty to the consumer, "every completed write has been read" holds exactly
      if no producer has had its message read before counting it. */
  lemma LooksEmptyExact(r: Ring, s: State)
    requires RingInv(r, s) && EntriesInv(s) && s.entries == 0 && (s.consumer.TryDec? || s.consumer.Wait?)
    ensures AllCompletedRead(s) <==> forall i :: !ReadBeforeCounted(s, i)
  {
    UncountedIsUnread(r, s);
    var u, unread := UncountedTickets(s), Interval(|s.received|, |s.writeLog|);
    if AllCompletedRead(s) {
      forall t | t in unread ensures t in u {
        CompletedIff(s, t);
      }
      SameSizeSubset(unread, u);
      forall i ensures !ReadBeforeCounted(s, i) {
        assert i in s.producers && s.producers[i].WriteCount? ==> s.producers[i].t in u;
      }
    }
    if forall i :: !ReadBeforeCounted(s, i) {
      forall t | t in u ensures t in unread {
        var i :| i in s.producers && IsUncounted(s.producers[i]) && s.producers[i].t == t;
        assert TicketOwner(s, i) && ThreadOk(r, s, i) && !ReadBeforeCounted(s, i);
      }
      SameSizeSubset(u, unread);
      forall t: nat | Completed(s, t) ensures t < |s.received| {
        CompletedIff(s, t);
      }
    }
  }

  /** A tryread that is about to return NULL: exactly when every completed write has been read. */
  lemma NullReadExact(r: Ring, s: State)
    requires FreshRing(r) && Reachable(r, s) && s.consumer.TryDec? && s.entries <= 0
    ensures AllCompletedRead(s) <==> forall i :: !ReadBeforeCounted(s, i)
  {
    var own := ReachableInv(r, s);
    LooksEmptyExact(r, s);
  }

  /** With no write between its slot store and its count, NULL means empty. */
  lemma NullReadQuiet(r: Ring, s: State)
    requires FreshRing(r) && Reachable(r, s) && s.consumer.TryDec? && s.entries <= 0
    requires forall i | i in s.producers :: !s.producers[i].WriteCount?
    ensures AllCompletedRead(s)
  {
    NullReadExact(r, s);
    assert forall i :: !ReadBeforeCounted(s, i);
  }

  // ---------------------------------------------------------------- no lost wake-up

  lemma SleeperHasWaker(s: State)
    requires EntriesInv(s) && WakeInv(s) && s.readTicket == |s.received|
    requires s.consumer.Wait? && s.sem == 0 && |s.received| < |s.writeLog|
    ensures exists i :: i in s.producers && (IsUncounted(s.producers[i]) || WillPost(s.producers[i]))
  {
    if Uncounted(s.producers) != {} {
      var i :| i in Uncounted(s.producers);
    }
  }

  /** Blocked readers (as a signed number), the semaphore and the writers about to post add up to the
      number of registered readers; a consumer that sleeps on a zero semaphore with no writer
      between its count and its post has nothing counted to read; and while any written message is
      unread, some writer has still to count or to post. */
  lemma NoLostWakeUp(r: Ring, s: State)
    requires FreshRing(r) && Reachable(r, s)
    ensures s.blockedReaders + s.sem + |Posting(s.producers)| == if IsRegistered(s.consumer) then 1 else 0
    ensures s.consumer.Wait? && s.sem == 0 && (forall i | i in s.producers :: !WillPost(s.producers[i])) ==>
              && s.entries == 0
              && (AllCompletedRead(s) <==> forall i :: !ReadBeforeCounted(s, i))
    ensures s.consumer.Wait? && s.sem == 0 && |s.received| < |s.writeLog| ==>
              exists i :: i in s.producers && (IsUncounted(s.producers[i]) || WillPost(s.producers[i]))
  {
    var own := ReachableInv(r, s);
    if s.consumer.Wait? && s.sem == 0 && |s.received| < |s.writeLog| {
      SleeperHasWaker(s);
    }
    if s.consumer.Wait? && s.sem == 0 && (forall i | i in s.producers :: !WillPost(s.producers[i])) {
      LooksEmptyExact(r, s);
    }
  }
}
