/** The two rings: what every slot of the freelist and of the queue holds in every reachable state. */
module QueueRings {
  import opened MessageQueue
  import opened QueueCounters

  ghost predicate HasWriteTicket(p: Producer, t: nat, b: Block) {
    p == WriteLoad(t, b) || p == WriteStore(t, b)
  }

  /** Ticket `t` has been taken by a writer that has not stored its block yet. */
  ghost predicate Unstored(s: State, t: nat) {
    t < |s.writeLog| && s.writeLog[t].tid in s.producers && HasWriteTicket(s.producers[s.writeLog[t].tid], t, s.writeLog[t].block)
  }

  ghost predicate HasAllocTicket(p: Producer, t: nat) {
    (p.AllocLoad? || p.AllocClear?) && p.t == t
  }

  /** Alloc ticket `t` has been taken by a producer that has not emptied its slot yet. */
  ghost predicate Uncleared(s: State, t: nat) {
    t < |s.allocators| && s.allocators[t] in s.producers && HasAllocTicket(s.producers[s.allocators[t]], t)
  }

  /** Frees that have stored their block. */
  ghost function FreesStored(s: State): int {
    s.freeTicket - (if s.consumer.FreeLoad? || s.consumer.FreeStore? then 1 else 0)
  }

  ghost predicate ThreadOk(r: Ring, s: State, i: Tid) {
    i in s.producers ==>
      match s.producers[i]
      case AllocLoad(t) => t < |s.allocators| && s.allocators[t] == i && FreesStored(s) <= t
      case AllocClear(t, b) =>
        t < |s.allocators| && s.allocators[t] == i && FreesStored(s) <= t < |s.freeLog| && s.freeLog[t] == b
      case WriteLoad(t, b) =>
        |s.received| <= t < |s.writeLog| && s.writeLog[t].tid == i && s.writeLog[t].block == b
      case WriteStore(t, b) =>
        |s.received| <= t < |s.writeLog| && s.writeLog[t].tid == i && s.writeLog[t].block == b
      case WriteCount(t) => t < |s.writeLog| && s.writeLog[t].tid == i
      case _ => true
  }

  ghost predicate ConsumerOk(r: Ring, s: State)
    requires GoodRing(r) && Shape(r, s)
  {
    && |s.freeLog| == r.depth + s.freeTicket
    && s.readTicket == |s.received| + (if s.consumer.TryLoad? || s.consumer.TryClear? then 1 else 0)
    && match s.consumer
       case TryLoad(_, t) => t == |s.received| < |s.writeLog|
       case TryClear(_, t, b) => t == |s.received| < |s.writeLog| && !Unstored(s, t) && b == s.writeLog[t].block
       case FreeLoad(t, b) => s.freeTicket == t + 1 && s.freeLog[r.depth + t] == b
       case FreeStore(t, b) => s.freeTicket == t + 1 && s.freeLog[r.depth + t] == b && s.freelist[r.slot(t)] == Null
       case FreeCount => s.freeTicket > 0
       case _ => true
  }

  /** The slot of write ticket `t`, for the `depth` tickets from the next one to be read. */
  ghost predicate QueueCell(r: Ring, s: State, t: nat)
    requires GoodRing(r) && Shape(r, s)
  {
    |s.received| <= t < |s.received| + r.depth ==>
      s.queue[r.slot(t)] == if t < |s.writeLog| && !Unstored(s, t) then Ptr(s.writeLog[t].block) else Null
  }

  /** The slot of the `p`-th block to enter the freelist, for the last `depth` of them. */
  ghost predicate FreeCell(r: Ring, s: State, p: nat)
    requires GoodRing(r) && Shape(r, s)
  {
    FreesStored(s) <= p < FreesStored(s) + r.depth && p < |s.freeLog| ==>
      s.freelist[r.slot(p)] == if p < |s.allocators| && !Uncleared(s, p) then Null else Ptr(s.freeLog[p])
  }

  ghost predicate ThreadsOk(r: Ring, s: State) {
    forall i {:trigger ThreadOk(r, s, i)} :: ThreadOk(r, s, i)
  }

  ghost predicate QueueCells(r: Ring, s: State)
    requires GoodRing(r) && Shape(r, s)
  {
    forall t: nat {:trigger QueueCell(r, s, t)} :: QueueCell(r, s, t)
  }

  ghost predicate FreeCells(r: Ring, s: State)
    requires GoodRing(r) && Shape(r, s)
  {
    forall p: nat {:trigger FreeCell(r, s, p)} :: FreeCell(r, s, p)
  }

  ghost predicate RingInv(r: Ring, s: State) {
    && GoodRing(r) && Shape(r, s) && ConsumerOk(r, s)
    && ThreadsOk(r, s) && QueueCells(r, s) && FreeCells(r, s)
    && 0 <= FreesStored(s) <= |s.allocators| <= r.depth + FreesCounted(s)
    && |s.received| <= |s.writeLog| <= |s.received| + r.depth
  }

  lemma InitRings(r: Ring, tids: set<Tid>, mem: map<Block, Value>)
    requires GoodRing(r) && forall j | 0 <= j < r.depth :: r.slot(j) == j
    ensures RingInv(r, Init(r, tids, mem))
  {
  }

  // -------------------------------------------------------------------- frames

  ghost predicate SameUnstored(s: State, s': State) {
    forall t: nat {:trigger Unstored(s', t)} :: Unstored(s', t) <==> Unstored(s, t)
  }

  ghost predicate SameUncleared(s: State, s': State) {
    forall t: nat {:trigger Uncleared(s', t)} :: Uncleared(s', t) <==> Uncleared(s, t)
  }

  /** Of the threads only producer `i` has moved, to `p`. */
  ghost predicate Moves(s: State, s': State, i: Tid, p: Producer) {
    i in s.producers && s'.producers == s.producers[i := p] && s'.consumer == s.consumer
  }

  /** A producer that moves from one place without a write ticket to another, or keeps its ticket. */
  lemma MoveKeepsUnstored(s: State, s': State, i: Tid, p: Producer)
    requires Moves(s, s', i, p) && s'.writeLog == s.writeLog
    requires forall t: nat, b: Block :: HasWriteTicket(p, t, b) <==> HasWriteTicket(s.producers[i], t, b)
    ensures SameUnstored(s, s')
  {
  }

  lemma MoveKeepsUncleared(s: State, s': State, i: Tid, p: Producer)
    requires Moves(s, s', i, p) && s'.allocators == s.allocators
    requires forall t: nat :: HasAllocTicket(p, t) <==> HasAllocTicket(s.producers[i], t)
    ensures SameUncleared(s, s')
  {
  }

  lemma KeepQueue(r: Ring, s: State, s': State)
    requires GoodRing(r) && Shape(r, s) && QueueCells(r, s) && SameUnstored(s, s')
    requires s'.queue == s.queue && s'.writeLog == s.writeLog && s'.received == s.received && Shape(r, s')
    ensures QueueCells(r, s')
  {
    forall t: nat ensures QueueCell(r, s', t) {
      assert QueueCell(r, s, t) && (Unstored(s', t) <==> Unstored(s, t));
    }
  }

  lemma KeepFree(r: Ring, s: State, s': State)
    requires GoodRing(r) && Shape(r, s) && FreeCells(r, s) && SameUncleared(s, s') && FreesStored(s') == FreesStored(s)
    requires s'.freelist == s.freelist && s'.allocators == s.allocators && s'.freeLog == s.freeLog && Shape(r, s')
    ensures FreeCells(r, s')
  {
    forall p: nat ensures FreeCell(r, s', p) {
      assert FreeCell(r, s, p) && (Uncleared(s', p) <==> Uncleared(s, p));
    }
  }

  /** The logs have at most grown. */
  ghost predicate LogsGrow(s: State, s': State) {
    s.writeLog <= s'.writeLog && s.allocators <= s'.allocators && s'.freeLog == s.freeLog && s'.received == s.received
  }

  lemma KeepThreads(r: Ring, s: State, s': State, i: Tid, p: Producer)
    requires ThreadsOk(r, s) && Moves(s, s', i, p) && LogsGrow(s, s') && FreesStored(s') == FreesStored(s) && ThreadOk(r, s', i)
    ensures ThreadsOk(r, s')
  {
    forall j ensures ThreadOk(r, s', j) {
      assert ThreadOk(r, s, j);
    }
  }

  /** A producer's step leaves the consumer's facts alone, provided the block it has read stays stored. */
  lemma KeepConsumer(r: Ring, s: State, s': State)
    requires GoodRing(r) && Shape(r, s) && Shape(r, s') && ConsumerOk(r, s) && LogsGrow(s, s')
    requires s'.consumer == s.consumer && s'.freeTicket == s.freeTicket && s'.readTicket == s.readTicket
    requires s.consumer.FreeStore? ==> s'.freelist[r.slot(s.consumer.t)] == Null
    requires s.consumer.TryClear? ==> !Unstored(s', s.consumer.t)
    ensures ConsumerOk(r, s')
  {
  }

  // ------------------------------------------------------------------- producers

  /** Nothing that the ring invariant speaks about has changed except a producer's place. */
  ghost predicate OnlyMoved(s: State, s': State, i: Tid, p: Producer) {
    && Moves(s, s', i, p)
    && s'.freelist == s.freelist && s'.queue == s.queue && s'.readTicket == s.readTicket && s'.freeTicket == s.freeTicket
    && s'.allocators == s.allocators && s'.writeLog == s.writeLog && s'.freeLog == s.freeLog && s'.received == s.received
  }

  lemma Unaffected(r: Ring, s: State, s': State, i: Tid, p: Producer)
    requires RingInv(r, s) && OnlyMoved(s, s', i, p) && ThreadOk(r, s', i)
    requires forall t: nat, b: Block :: HasWriteTicket(p, t, b) <==> HasWriteTicket(s.producers[i], t, b)
    requires forall t: nat :: HasAllocTicket(p, t) <==> HasAllocTicket(s.producers[i], t)
    ensures RingInv(r, s')
  {
    MoveKeepsUnstored(s, s', i, p);
    MoveKeepsUncleared(s, s', i, p);
    KeepQueue(r, s, s');
    KeepFree(r, s, s');
    KeepThreads(r, s, s', i, p);
    assert s.consumer.TryClear? ==> (Unstored(s', s.consumer.t) <==> Unstored(s, s.consumer.t));
    KeepConsumer(r, s, s');
  }

  lemma TakenCell(r: Ring, s: State, i: Tid, s': State, p: nat)
    requires GoodRing(r) && Shape(r, s) && Step(r, s, Produce(i), s') && s.producers[i].AllocTake? && FreeCell(r, s, p)
    ensures FreeCell(r, s', p)
  {
    assert Uncleared(s', p) <==> Uncleared(s, p) || p == |s.allocators|;
  }

  lemma StepAllocTake(r: Ring, s: State, i: Tid, s': State)
    requires RingInv(r, s) && Step(r, s, Produce(i), s') && s.producers[i].AllocTake?
    requires BlocksInv(r, s)
    ensures RingInv(r, s')
  {
    var p := AllocLoad(|s.allocators|);
    assert |s.allocators| < r.depth + FreesCounted(s) by { assert i in Taking(s.producers); }
    MoveKeepsUnstored(s, s', i, p);
    KeepQueue(r, s, s');
    forall t: nat ensures FreeCell(r, s', t) {
      assert FreeCell(r, s, t);
      TakenCell(r, s, i, s', t);
    }
    KeepThreads(r, s, s', i, p);
    assert s.consumer.TryClear? ==> (Unstored(s', s.consumer.t) <==> Unstored(s, s.consumer.t));
    KeepConsumer(r, s, s');
  }

  /** An allocator never waits: the slot of its ticket is full. */
  lemma AllocNeverWaits(r: Ring, s: State, i: Tid)
    requires RingInv(r, s) && i in s.producers && s.producers[i].AllocLoad?
    ensures var t := s.producers[i].t;
            t < |s.freeLog| && s.freelist[r.slot(t)] == Ptr(s.freeLog[t])
  {
    var t := s.producers[i].t;
    assert ThreadOk(r, s, i) && FreeCell(r, s, t);
    assert Uncleared(s, t);
  }

  lemma StepAllocLoad(r: Ring, s: State, i: Tid, s': State)
    requires RingInv(r, s) && Step(r, s, Produce(i), s') && s.producers[i].AllocLoad?
    ensures RingInv(r, s')
  {
    AllocNeverWaits(r, s, i);
    assert ThreadOk(r, s, i);
    var t := s.producers[i].t;
    Unaffected(r, s, s', i, AllocClear(t, s.freeLog[t]));
  }

  lemma ClearedCell(r: Ring, s: State, i: Tid, s': State, t: nat)
    requires GoodRing(r) && Shape(r, s) && Step(r, s, Produce(i), s') && s.producers[i].AllocClear? && FreeCell(r, s, t)
    requires ThreadOk(r, s, i) && 0 <= FreesStored(s) <= |s.allocators| <= r.depth + FreesCounted(s)
    ensures FreeCell(r, s', t)
  {
    var t0 := s.producers[i].t;
    assert Uncleared(s, t0) && !Uncleared(s', t0);
    assert Uncleared(s', t) <==> Uncleared(s, t) && t != t0;
  }

  /** The slot that a freer has found empty stays empty when an allocator empties its own. */
  lemma StepAllocClear(r: Ring, s: State, i: Tid, s': State)
    requires RingInv(r, s) && Step(r, s, Produce(i), s') && s.producers[i].AllocClear?
    ensures RingInv(r, s')
  {
    var p := Filled(s.producers[i].b);
    assert ThreadOk(r, s, i);
    MoveKeepsUnstored(s, s', i, p);
    KeepQueue(r, s, s');
    forall t: nat ensures FreeCell(r, s', t) {
      assert FreeCell(r, s, t);
      ClearedCell(r, s, i, s', t);
    }
    KeepThreads(r, s, s', i, p);
    assert s.consumer.TryClear? ==> (Unstored(s', s.consumer.t) <==> Unstored(s, s.consumer.t));
    KeepConsumer(r, s, s');
  }

  lemma TicketCell(r: Ring, s: State, i: Tid, s': State, t: nat)
    requires GoodRing(r) && Shape(r, s) && Step(r, s, Produce(i), s') && s.producers[i].Filled? && QueueCell(r, s, t)
    requires |s.writeLog| < |s.received| + r.depth
    ensures QueueCell(r, s', t) && (Unstored(s', t) <==> Unstored(s, t) || t == |s.writeLog|)
  {
  }

  lemma StepFilled(r: Ring, s: State, i: Tid, s': State)
    requires RingInv(r, s) && Step(r, s, Produce(i), s') && s.producers[i].Filled?
    requires |s.writeLog| < |s.received| + r.depth
    ensures RingInv(r, s')
  {
    var p := WriteLoad(|s.writeLog|, s.producers[i].b);
    MoveKeepsUncleared(s, s', i, p);
    KeepFree(r, s, s');
    forall t: nat ensures QueueCell(r, s', t) {
      assert QueueCell(r, s, t);
      TicketCell(r, s, i, s', t);
    }
    KeepThreads(r, s, s', i, p);
    if s.consumer.TryClear? {
      assert QueueCell(r, s, s.consumer.t);
      TicketCell(r, s, i, s', s.consumer.t);
    }
    KeepConsumer(r, s, s');
  }

  /** A writer never waits: the slot of its ticket is empty. */
  lemma WriteNeverWaits(r: Ring, s: State, i: Tid)
    requires RingInv(r, s) && i in s.producers && (s.producers[i].WriteLoad? || s.producers[i].WriteStore?)
    ensures s.queue[r.slot(s.producers[i].t)] == Null
  {
    var t := s.producers[i].t;
    assert ThreadOk(r, s, i) && QueueCell(r, s, t);
    assert Unstored(s, t);
  }

  lemma StepWriteLoad(r: Ring, s: State, i: Tid, s': State)
    requires RingInv(r, s) && Step(r, s, Produce(i), s') && s.producers[i].WriteLoad?
    ensures RingInv(r, s')
  {
    WriteNeverWaits(r, s, i);
    assert ThreadOk(r, s, i);
    Unaffected(r, s, s', i, WriteStore(s.producers[i].t, s.producers[i].b));
  }

  lemma StoredCell(r: Ring, s: State, i: Tid, s': State, t: nat)
    requires GoodRing(r) && Shape(r, s) && Step(r, s, Produce(i), s') && s.producers[i].WriteStore? && QueueCell(r, s, t)
    requires ThreadOk(r, s, i) && |s.received| <= |s.writeLog| <= |s.received| + r.depth
    ensures QueueCell(r, s', t) && (Unstored(s', t) <==> Unstored(s, t) && t != s.producers[i].t)
  {
    assert Unstored(s, s.producers[i].t) && !Unstored(s', s.producers[i].t);
  }

  lemma StepWriteStore(r: Ring, s: State, i: Tid, s': State)
    requires RingInv(r, s) && Step(r, s, Produce(i), s') && s.producers[i].WriteStore?
    ensures RingInv(r, s')
  {
    var p := WriteCount(s.producers[i].t);
    assert ThreadOk(r, s, i);
    MoveKeepsUncleared(s, s', i, p);
    KeepFree(r, s, s');
    forall t: nat ensures QueueCell(r, s', t) {
      assert QueueCell(r, s, t);
      StoredCell(r, s, i, s', t);
    }
    KeepThreads(r, s, s', i, p);
    if s.consumer.TryClear? {
      assert QueueCell(r, s, s.consumer.t);
      StoredCell(r, s, i, s', s.consumer.t);
    }
    KeepConsumer(r, s, s');
  }

  /** Every step of a producer keeps the rings, given the counters and room for one more ticket. */
  lemma ProducerRings(r: Ring, s: State, i: Tid, s': State)
    requires RingInv(r, s) && Step(r, s, Produce(i), s') && BlocksInv(r, s)
    requires s.producers[i].Filled? ==> |s.writeLog| < |s.received| + r.depth
    ensures RingInv(r, s')
  {
    match s.producers[i]
    case AllocTake => StepAllocTake(r, s, i, s');
    case AllocLoad(_) => StepAllocLoad(r, s, i, s');
    case AllocClear(_, _) => StepAllocClear(r, s, i, s');
    case Filled(_) => StepFilled(r, s, i, s');
    case WriteLoad(_, _) => StepWriteLoad(r, s, i, s');
    case WriteStore(_, _) => StepWriteStore(r, s, i, s');
    case _ => Unaffected(r, s, s', i, s'.producers[i]);
  }

  // ------------------------------------------------------------------ the consumer

  lemma SameThreads(s: State, s': State)
    requires s'.producers == s.producers && s'.writeLog == s.writeLog && s'.allocators == s.allocators
    ensures SameUnstored(s, s') && SameUncleared(s, s')
  {
  }

  /** Steps that touch neither ring nor log. */
  lemma ConsumerElsewhere(r: Ring, s: State, s': State)
    requires RingInv(r, s)
    requires s'.producers == s.producers && s'.freelist == s.freelist && s'.queue == s.queue
    requires s'.freeTicket == s.freeTicket
    requires s'.allocators == s.allocators && s'.writeLog == s.writeLog && s'.freeLog == s.freeLog && s'.received == s.received
    requires FreesStored(s') == FreesStored(s) && FreesCounted(s') >= FreesCounted(s) && ConsumerOk(r, s')
    ensures RingInv(r, s')
  {
    SameThreads(s, s');
    KeepQueue(r, s, s');
    KeepFree(r, s, s');
    forall j ensures ThreadOk(r, s', j) {
      assert ThreadOk(r, s, j);
    }
  }

  lemma StepTryTake(r: Ring, s: State, s': State)
    requires RingInv(r, s) && Step(r, s, Consume, s') && s.consumer.TryTake? && EntriesInv(s)
    ensures RingInv(r, s')
  {
    ConsumerElsewhere(r, s, s');
  }

  lemma StepTryLoad(r: Ring, s: State, s': State)
    requires RingInv(r, s) && Step(r, s, Consume, s') && s.consumer.TryLoad?
    ensures RingInv(r, s')
  {
    assert QueueCell(r, s, s.consumer.t);
    assert forall t: nat :: Unstored(s', t) <==> Unstored(s, t);
    ConsumerElsewhere(r, s, s');
  }

  /** A reader waits only for a writer that holds the ticket and never waits itself. */
  lemma ReaderWaitsForWriter(r: Ring, s: State)
    requires RingInv(r, s) && s.consumer.TryLoad? && s.queue[r.slot(s.consumer.t)] == Null
    ensures Unstored(s, s.consumer.t)
  {
    assert QueueCell(r, s, s.consumer.t);
  }

  /** A freer finds its slot full only before the ticket is allocated, or before its allocator has emptied the slot. */
  lemma FullSlot(r: Ring, s: State)
    requires RingInv(r, s) && s.consumer.FreeLoad? && s.freelist[r.slot(s.consumer.t)] != Null
    ensures Uncleared(s, s.consumer.t) || s.consumer.t >= |s.allocators|
  {
    assert FreeCell(r, s, s.consumer.t);
  }

  /** The slot that the reader empties is the one of the ticket `depth` later. */
  lemma ReadCell(r: Ring, s: State, s': State, t: nat)
    requires GoodRing(r) && Shape(r, s) && ConsumerOk(r, s) && Step(r, s, Consume, s') && s.consumer.TryClear? && QueueCell(r, s, t)
    requires |s.received| <= |s.writeLog| <= |s.received| + r.depth && SameUnstored(s, s')
    ensures QueueCell(r, s', t)
  {
    assert Period(r, s.consumer.t);
    assert Unstored(s', t) <==> Unstored(s, t);
  }

  lemma StepTryClear(r: Ring, s: State, s': State)
    requires RingInv(r, s) && Step(r, s, Consume, s') && s.consumer.TryClear?
    ensures RingInv(r, s')
  {
    SameThreads(s, s');
    forall t: nat ensures QueueCell(r, s', t) {
      assert QueueCell(r, s, t);
      ReadCell(r, s, s', t);
    }
    KeepFree(r, s, s');
    forall j ensures ThreadOk(r, s', j) {
      assert ThreadOk(r, s, j);
      assert j in s.producers && (s.producers[j].WriteLoad? || s.producers[j].WriteStore?) ==> Unstored(s, s.producers[j].t);
    }
  }

  lemma StepHolding(r: Ring, s: State, s': State)
    requires RingInv(r, s) && Step(r, s, Consume, s') && s.consumer.Holding?
    ensures RingInv(r, s')
  {
    SameThreads(s, s');
    KeepQueue(r, s, s');
    forall p: nat ensures FreeCell(r, s', p) {
      assert FreeCell(r, s, p) && (Uncleared(s', p) <==> Uncleared(s, p));
    }
    forall j ensures ThreadOk(r, s', j) {
      assert ThreadOk(r, s, j);
    }
  }

  lemma FreedCell(r: Ring, s: State, s': State, p: nat)
    requires GoodRing(r) && Shape(r, s) && ConsumerOk(r, s) && Step(r, s, Consume, s') && s.consumer.FreeStore? && FreeCell(r, s, p)
    requires 0 <= FreesStored(s) <= |s.allocators| <= r.depth + FreesCounted(s) && SameUncleared(s, s')
    ensures FreeCell(r, s', p)
  {
    assert Period(r, s.consumer.t);
    assert Uncleared(s', p) <==> Uncleared(s, p);
  }

  lemma StepFreeStore(r: Ring, s: State, s': State)
    requires RingInv(r, s) && Step(r, s, Consume, s') && s.consumer.FreeStore?
    ensures RingInv(r, s')
  {
    var t0 := s.consumer.t;
    assert FreeCell(r, s, t0);
    assert t0 < |s.allocators| && !Uncleared(s, t0);
    SameThreads(s, s');
    KeepQueue(r, s, s');
    forall p: nat ensures FreeCell(r, s', p) {
      assert FreeCell(r, s, p);
      FreedCell(r, s, s', p);
    }
    forall j ensures ThreadOk(r, s', j) {
      assert ThreadOk(r, s, j);
      assert j in s.producers && (s.producers[j].AllocLoad? || s.producers[j].AllocClear?) ==> Uncleared(s, s.producers[j].t);
    }
  }

  lemma StepFreeLoad(r: Ring, s: State, s': State)
    requires RingInv(r, s) && Step(r, s, Consume, s') && (s.consumer.FreeLoad? || s.consumer.FreeCount?)
    ensures RingInv(r, s')
  {
    ConsumerElsewhere(r, s, s');
  }

  predicate OnlyCounts(c: Consumer) {
    c.TryDec? || c.TryUndo? || c.Register? || c.Wait? || c.Unregister?
  }

  lemma StepOnlyCounts(r: Ring, s: State, s': State)
    requires RingInv(r, s) && Step(r, s, Consume, s') && OnlyCounts(s.consumer)
    ensures RingInv(r, s')
  {
    ConsumerElsewhere(r, s, s');
  }

  lemma StepCall(r: Ring, s: State, a: Action, s': State)
    requires RingInv(r, s) && Step(r, s, a, s') && (a.Fill? || a.CallTryRead? || a.CallRead?)
    ensures RingInv(r, s')
  {
    assert s.consumer.TryClear? ==> (Unstored(s', s.consumer.t) <==> Unstored(s, s.consumer.t));
    ConsumerElsewhere(r, s, s');
  }

  lemma ConsumerRings(r: Ring, s: State, a: Action, s': State)
    requires RingInv(r, s) && Step(r, s, a, s') && !a.Produce? && EntriesInv(s)
    ensures RingInv(r, s')
  {
    if !a.Consume? {
      StepCall(r, s, a, s');
    } else if OnlyCounts(s.consumer) {
      StepOnlyCounts(r, s, s');
    } else if s.consumer.TryTake? {
      StepTryTake(r, s, s');
    } else if s.consumer.TryLoad? {
      StepTryLoad(r, s, s');
    } else if s.consumer.TryClear? {
      StepTryClear(r, s, s');
    } else if s.consumer.Holding? {
      StepHolding(r, s, s');
    } else if s.consumer.FreeStore? {
      StepFreeStore(r, s, s');
    } else {
      StepFreeLoad(r, s, s');
    }
  }
}
