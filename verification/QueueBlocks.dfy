/** Every block has exactly one owner, and so the queue delivers exactly what was written, in ticket order. */
module QueueBlocks {
  import opened MessageQueue
  import opened QueueCounters
  import opened QueueRings
  import Sums

  /** Who owns a block: an entry of the freelist, a producer, a written ticket, or the consumer. */
  datatype Place = InFreelist(p: nat) | WithProducer(i: Tid) | InQueue(t: nat) | WithConsumer

  ghost predicate ProducerHolds(p: Producer, b: Block) {
    match p
    case Filled(c) => c == b
    case WriteLoad(_, c) => c == b
    case WriteStore(_, c) => c == b
    case _ => false
  }

  ghost predicate ConsumerHolds(c: Consumer, b: Block) {
    match c
    case Unregister(d) => d == b
    case Holding(d) => d == b
    case FreeLoad(_, d) => d == b
    case FreeStore(_, d) => d == b
    case _ => false
  }

  ghost predicate HoldsAt(r: Ring, s: State, pl: Place, b: Block) {
    match pl
    case InFreelist(p) =>
      p < r.depth + FreesStored(s) && p < |s.freeLog| && s.freeLog[p] == b && (p >= |s.allocators| || Uncleared(s, p))
    case WithProducer(i) => i in s.producers && ProducerHolds(s.producers[i], b)
    case InQueue(t) => |s.received| <= t < |s.writeLog| && !Unstored(s, t) && s.writeLog[t].block == b
    case WithConsumer => ConsumerHolds(s.consumer, b)
  }

  ghost predicate OwnInv(r: Ring, s: State, own: map<Block, Place>) {
    && (forall b | 0 <= b < r.depth :: b in own && HoldsAt(r, s, own[b], b))
    && (forall pl, b: Block {:trigger HoldsAt(r, s, pl, b)} | HoldsAt(r, s, pl, b) :: b < r.depth && b in own && own[b] == pl)
  }

  lemma InitOwn(r: Ring, tids: set<Tid>, mem: map<Block, Value>) returns (own: map<Block, Place>)
    requires GoodRing(r)
    ensures OwnInv(r, Init(r, tids, mem), own)
  {
    own := map b | 0 <= b < r.depth :: InFreelist(b);
  }

  /** The block that a step hands over, and to whom. */
  ghost function OwnAfter(r: Ring, s: State, a: Action, own: map<Block, Place>): map<Block, Place> {
    if a.Produce? && a.i in s.producers && s.producers[a.i].AllocClear? then own[s.producers[a.i].b := WithProducer(a.i)]
    else if a.Produce? && a.i in s.producers && s.producers[a.i].WriteStore? then own[s.producers[a.i].b := InQueue(s.producers[a.i].t)]
    else if a.Consume? && s.consumer.TryClear? then own[s.consumer.b := WithConsumer]
    else if a.Consume? && s.consumer.FreeStore? then own[s.consumer.b := InFreelist(r.depth + s.consumer.t)]
    else own
  }

  /** The step moves no block. */
  lemma OwnSame(r: Ring, s: State, s': State, own: map<Block, Place>)
    requires OwnInv(r, s, own)
    requires forall pl, b :: HoldsAt(r, s', pl, b) <==> HoldsAt(r, s, pl, b)
    ensures OwnInv(r, s', own)
  {
  }

  /** The step takes block `b` from place `from` to place `to`, and nothing else. */
  lemma OwnMoved(r: Ring, s: State, s': State, own: map<Block, Place>, b: Block, from: Place, to: Place)
    requires OwnInv(r, s, own) && HoldsAt(r, s, from, b) && HoldsAt(r, s', to, b)
    requires forall pl, c :: HoldsAt(r, s', pl, c) <==> (if c == b then pl == to else HoldsAt(r, s, pl, c))
    ensures OwnInv(r, s', own[b := to])
  {
  }

  lemma OwnAllocClear(r: Ring, s: State, i: Tid, s': State, own: map<Block, Place>)
    requires RingInv(r, s) && Step(r, s, Produce(i), s') && OwnInv(r, s, own) && s.producers[i].AllocClear?
    ensures OwnInv(r, s', OwnAfter(r, s, Produce(i), own))
  {
    var t0, b := s.producers[i].t, s.producers[i].b;
    assert ThreadOk(r, s, i) && Uncleared(s, t0) && HoldsAt(r, s, InFreelist(t0), b);
    forall pl, c ensures HoldsAt(r, s', pl, c) <==> (if c == b then pl == WithProducer(i) else HoldsAt(r, s, pl, c)) {
      assert HoldsAt(r, s, pl, c) ==> own[c] == pl;
      if pl.InFreelist? {
        assert Uncleared(s', pl.p) <==> Uncleared(s, pl.p) && pl.p != t0;
      } else if pl.InQueue? {
        assert Unstored(s', pl.t) <==> Unstored(s, pl.t);
      }
    }
    OwnMoved(r, s, s', own, b, InFreelist(t0), WithProducer(i));
  }

  lemma OwnWriteStore(r: Ring, s: State, i: Tid, s': State, own: map<Block, Place>)
    requires RingInv(r, s) && Step(r, s, Produce(i), s') && OwnInv(r, s, own) && s.producers[i].WriteStore?
    ensures OwnInv(r, s', OwnAfter(r, s, Produce(i), own))
  {
    var t0, b := s.producers[i].t, s.producers[i].b;
    assert ThreadOk(r, s, i) && Unstored(s, t0) && HoldsAt(r, s, WithProducer(i), b);
    forall pl, c ensures HoldsAt(r, s', pl, c) <==> (if c == b then pl == InQueue(t0) else HoldsAt(r, s, pl, c)) {
      assert HoldsAt(r, s, pl, c) ==> own[c] == pl;
      if pl.InFreelist? {
        assert Uncleared(s', pl.p) <==> Uncleared(s, pl.p);
      } else if pl.InQueue? {
        assert Unstored(s', pl.t) <==> Unstored(s, pl.t) && pl.t != t0;
      }
    }
    OwnMoved(r, s, s', own, b, WithProducer(i), InQueue(t0));
  }

  lemma OwnTryClear(r: Ring, s: State, s': State, own: map<Block, Place>)
    requires RingInv(r, s) && Step(r, s, Consume, s') && OwnInv(r, s, own) && s.consumer.TryClear?
    ensures OwnInv(r, s', OwnAfter(r, s, Consume, own))
  {
    var t0, b := s.consumer.t, s.consumer.b;
    assert HoldsAt(r, s, InQueue(t0), b);
    forall pl, c ensures HoldsAt(r, s', pl, c) <==> (if c == b then pl == WithConsumer else HoldsAt(r, s, pl, c)) {
      assert HoldsAt(r, s, pl, c) ==> own[c] == pl;
      if pl.InFreelist? {
        assert Uncleared(s', pl.p) <==> Uncleared(s, pl.p);
      } else if pl.InQueue? {
        assert Unstored(s', pl.t) <==> Unstored(s, pl.t);
      }
    }
    OwnMoved(r, s, s', own, b, InQueue(t0), WithConsumer);
  }

  lemma OwnFreeStore(r: Ring, s: State, s': State, own: map<Block, Place>)
    requires RingInv(r, s) && Step(r, s, Consume, s') && OwnInv(r, s, own) && s.consumer.FreeStore?
    ensures OwnInv(r, s', OwnAfter(r, s, Consume, own))
  {
    var p0, b := r.depth + s.consumer.t, s.consumer.b;
    assert HoldsAt(r, s, WithConsumer, b);
    forall pl, c ensures HoldsAt(r, s', pl, c) <==> (if c == b then pl == InFreelist(p0) else HoldsAt(r, s, pl, c)) {
      assert HoldsAt(r, s, pl, c) ==> own[c] == pl;
      if pl.InFreelist? {
        assert Uncleared(s', pl.p) <==> Uncleared(s, pl.p);
      } else if pl.InQueue? {
        assert Unstored(s', pl.t) <==> Unstored(s, pl.t);
      }
    }
    OwnMoved(r, s, s', own, b, WithConsumer, InFreelist(p0));
  }

  /** The step hands no block over. */
  ghost predicate MovesNothing(s: State, a: Action) {
    && (a.Produce? && a.i in s.producers ==> !s.producers[a.i].AllocClear? && !s.producers[a.i].WriteStore?)
    && (a.Consume? ==> !s.consumer.TryClear? && !s.consumer.FreeStore?)
  }

  lemma UnclearedStays(r: Ring, s: State, a: Action, s': State, p: nat)
    requires Step(r, s, a, s') && MovesNothing(s, a)
    ensures Uncleared(s', p) <==> Uncleared(s, p) || (a.Produce? && s.producers[a.i].AllocTake? && p == |s.allocators|)
  {
    if a.Produce? {
      match s.producers[a.i]
      case AllocTake =>
      case AllocLoad(_) =>
      case _ =>
    }
  }

  lemma FreelistStays(r: Ring, s: State, a: Action, s': State, p: nat, c: Block)
    requires RingInv(r, s) && Step(r, s, a, s') && MovesNothing(s, a)
    ensures HoldsAt(r, s', InFreelist(p), c) <==> HoldsAt(r, s, InFreelist(p), c)
  {
    UnclearedStays(r, s, a, s', p);
    FreelistFrame(r, s, a, s');
  }

  lemma FreelistFrame(r: Ring, s: State, a: Action, s': State)
    requires Step(r, s, a, s') && MovesNothing(s, a)
    ensures FreesStored(s') == FreesStored(s) && s.freeLog <= s'.freeLog
    ensures |s'.allocators| == |s.allocators| + if a.Produce? && s.producers[a.i].AllocTake? then 1 else 0
  {
    if a.Produce? {
      ProducerFrame(r, s, a.i, s');
    } else {
      ConsumerFrame(r, s, a, s');
    }
  }

  /** A producer's step leaves the consumer's side alone, and takes an alloc ticket only in AllocTake. */
  lemma ProducerFrame(r: Ring, s: State, i: Tid, s': State)
    requires Step(r, s, Produce(i), s')
    ensures s'.consumer == s.consumer && s'.freeTicket == s.freeTicket && s'.freeLog == s.freeLog
    ensures |s'.allocators| == |s.allocators| + if s.producers[i].AllocTake? then 1 else 0
  {
    match s.producers[i]
    case AllocTake =>
    case _ =>
  }

  lemma ConsumerFrame(r: Ring, s: State, a: Action, s': State)
    requires Step(r, s, a, s') && !a.Produce? && MovesNothing(s, a)
    ensures s'.allocators == s.allocators && FreesStored(s') == FreesStored(s) && s.freeLog <= s'.freeLog
  {
    if a.Consume? {
      match s.consumer
      case Holding(_) =>
      case FreeLoad(_, _) =>
      case _ =>
    }
  }

  lemma UnstoredStays(r: Ring, s: State, a: Action, s': State, t: nat)
    requires Step(r, s, a, s') && MovesNothing(s, a)
    ensures Unstored(s', t) <==> Unstored(s, t) || (a.Produce? && s.producers[a.i].Filled? && t == |s.writeLog|)
  {
    if a.Produce? {
      match s.producers[a.i]
      case Filled(_) =>
      case WriteLoad(_, _) =>
      case _ =>
    }
  }

  lemma QueueStays(r: Ring, s: State, a: Action, s': State, t: nat, c: Block)
    requires RingInv(r, s) && Step(r, s, a, s') && MovesNothing(s, a)
    ensures HoldsAt(r, s', InQueue(t), c) <==> HoldsAt(r, s, InQueue(t), c)
  {
    UnstoredStays(r, s, a, s', t);
  }

  lemma ProducersStay(r: Ring, s: State, a: Action, s': State, i: Tid, c: Block)
    requires Step(r, s, a, s') && MovesNothing(s, a)
    ensures HoldsAt(r, s', WithProducer(i), c) <==> HoldsAt(r, s, WithProducer(i), c)
  {
    if a.Produce? {
      match s.producers[a.i]
      case AllocLoad(_) =>
      case Filled(_) =>
      case WriteLoad(_, _) =>
      case _ =>
    } else {
      assert s'.producers == s.producers;
    }
  }

  lemma ConsumerStays(r: Ring, s: State, a: Action, s': State, c: Block)
    requires Step(r, s, a, s') && MovesNothing(s, a)
    ensures HoldsAt(r, s', WithConsumer, c) <==> HoldsAt(r, s, WithConsumer, c)
  {
    if a.Produce? {
      assert s'.consumer == s.consumer;
    } else if a.Consume? {
      match s.consumer
      case Unregister(_) =>
      case Holding(_) =>
      case FreeLoad(_, _) =>
      case TryLoad(_, _) =>
      case _ =>
    }
  }

  lemma OwnElsewhere(r: Ring, s: State, a: Action, s': State, own: map<Block, Place>)
    requires RingInv(r, s) && Step(r, s, a, s') && OwnInv(r, s, own) && MovesNothing(s, a)
    ensures OwnInv(r, s', own)
  {
    forall pl, c ensures HoldsAt(r, s', pl, c) <==> HoldsAt(r, s, pl, c) {
      if pl.InFreelist? {
        FreelistStays(r, s, a, s', pl.p, c);
      } else if pl.InQueue? {
        QueueStays(r, s, a, s', pl.t, c);
      } else if pl.WithProducer? {
        ProducersStay(r, s, a, s', pl.i, c);
      } else {
        ConsumerStays(r, s, a, s', c);
      }
    }
    OwnSame(r, s, s', own);
  }

  lemma StepOwn(r: Ring, s: State, a: Action, s': State, own: map<Block, Place>)
    requires RingInv(r, s) && Step(r, s, a, s') && OwnInv(r, s, own)
    ensures OwnInv(r, s', OwnAfter(r, s, a, own))
  {
    if MovesNothing(s, a) {
      OwnElsewhere(r, s, a, s', own);
    } else if a.Produce? && s.producers[a.i].AllocClear? {
      OwnAllocClear(r, s, a.i, s', own);
    } else if a.Produce? {
      OwnWriteStore(r, s, a.i, s', own);
    } else if s.consumer.TryClear? {
      OwnTryClear(r, s, s', own);
    } else {
      OwnFreeStore(r, s, s', own);
    }
  }

  // -------------------------------------------------------------- room in the queue

  /** The place of ticket `t`'s block while the ticket is outstanding. */
  ghost function TicketPlace(s: State, t: nat): Place
    requires t < |s.writeLog|
  {
    if Unstored(s, t) then WithProducer(s.writeLog[t].tid) else InQueue(t)
  }

  lemma TicketHolds(r: Ring, s: State, own: map<Block, Place>, t: nat)
    requires RingInv(r, s) && OwnInv(r, s, own) && |s.received| <= t < |s.writeLog|
    ensures var b := s.writeLog[t].block; b < r.depth && b in own && own[b] == TicketPlace(s, t)
  {
    assert HoldsAt(r, s, TicketPlace(s, t), s.writeLog[t].block);
  }

  ghost function OutstandingBlocks(s: State): (bs: seq<Block>)
    requires |s.received| <= |s.writeLog|
    ensures |bs| == |s.writeLog| - |s.received|
    ensures forall k | 0 <= k < |bs| :: bs[k] == s.writeLog[|s.received| + k].block
  {
    seq<Block>(|s.writeLog| - |s.received|, k requires 0 <= k < |s.writeLog| - |s.received| => s.writeLog[|s.received| + k].block)
  }

  /** A producer that owns a block finds room for one more ticket. */
  lemma RoomForTicket(r: Ring, s: State, own: map<Block, Place>, i: Tid)
    requires RingInv(r, s) && OwnInv(r, s, own) && i in s.producers && s.producers[i].Filled?
    ensures |s.writeLog| < |s.received| + r.depth
  {
    var c, n := |s.received|, |s.writeLog| - |s.received|;
    var blocks: seq<Block> := OutstandingBlocks(s) + [s.producers[i].b];
    assert HoldsAt(r, s, WithProducer(i), s.producers[i].b);
    forall k | 0 <= k < n ensures blocks[k] < r.depth && blocks[k] in own && own[blocks[k]] == TicketPlace(s, c + k) {
      TicketHolds(r, s, own, c + k);
    }
    var all := set b | b in own && b < r.depth;
    Sums.BoundedCard(all, r.depth);
    Sums.DistinctLength(blocks, all);
  }

  // ----------------------------------------------------------------------- values

  /** The values of outstanding tickets are still in their blocks. */
  ghost predicate ValueAt(s: State, t: nat) {
    |s.received| <= t < |s.writeLog| ==>
      s.writeLog[t].value == if s.writeLog[t].block in s.mem then s.mem[s.writeLog[t].block] else 0
  }

  ghost predicate ReceivedAt(s: State, k: nat) {
    k < |s.received| ==> k < |s.writeLog| && s.received[k] == s.writeLog[k].value
  }

  ghost predicate ValueInv(s: State) {
    && (forall t: nat {:trigger ValueAt(s, t)} :: ValueAt(s, t))
    && (forall k: nat {:trigger ReceivedAt(s, k)} :: ReceivedAt(s, k))
  }

  /** Filling a block that a producer owns touches no outstanding ticket. */
  lemma FillKeepsValue(r: Ring, s: State, a: Action, s': State, own: map<Block, Place>, t: nat)
    requires RingInv(r, s) && Step(r, s, a, s') && a.Fill? && OwnInv(r, s, own) && ValueAt(s, t)
    ensures ValueAt(s', t)
  {
    if |s.received| <= t < |s.writeLog| {
      TicketHolds(r, s, own, t);
      assert HoldsAt(r, s, WithProducer(a.i), s.producers[a.i].b);
    }
  }

  /** No other step writes to a block. */
  lemma OtherKeepsValue(r: Ring, s: State, a: Action, s': State, t: nat)
    requires Step(r, s, a, s') && !a.Fill? && ValueAt(s, t)
    ensures ValueAt(s', t)
  {
    if a.Produce? {
      match s.producers[a.i]
      case Filled(_) =>
      case _ => assert s'.mem == s.mem && s'.received == s.received && s'.writeLog == s.writeLog;
    } else {
      assert s'.mem == s.mem && s'.writeLog == s.writeLog && |s.received| <= |s'.received|;
    }
  }

  /** A read returns the value of its ticket. */
  lemma ReadsNext(r: Ring, s: State, s': State, k: nat)
    requires RingInv(r, s) && Step(r, s, Consume, s') && s.consumer.TryClear? && ReceivedAt(s, k) && ValueAt(s, k)
    ensures ReceivedAt(s', k)
  {
  }

  lemma ReadsNothing(r: Ring, s: State, a: Action, s': State, k: nat)
    requires Step(r, s, a, s') && !(a.Consume? && s.consumer.TryClear?) && ReceivedAt(s, k)
    ensures ReceivedAt(s', k)
  {
    if a.Produce? {
      match s.producers[a.i]
      case Filled(_) =>
      case _ => assert s'.received == s.received && s'.writeLog == s.writeLog;
    } else {
      assert s'.writeLog == s.writeLog && s'.received == s.received;
    }
  }

  lemma StepValues(r: Ring, s: State, a: Action, s': State, own: map<Block, Place>)
    requires RingInv(r, s) && Step(r, s, a, s') && OwnInv(r, s, own) && ValueInv(s)
    ensures ValueInv(s')
  {
    forall t: nat ensures ValueAt(s', t) {
      assert ValueAt(s, t);
      if a.Fill? {
        FillKeepsValue(r, s, a, s', own, t);
      } else {
        OtherKeepsValue(r, s, a, s', t);
      }
    }
    forall k: nat ensures ReceivedAt(s', k) {
      assert ReceivedAt(s, k) && ValueAt(s, k);
      if a.Consume? && s.consumer.TryClear? {
        ReadsNext(r, s, s', k);
      } else {
        ReadsNothing(r, s, a, s', k);
      }
    }
  }

  // ------------------------------------------------------------------ the invariant

  ghost predicate QueueInv(r: Ring, s: State, own: map<Block, Place>) {
    RingInv(r, s) && CounterInv(r, s) && OwnInv(r, s, own) && ValueInv(s)
  }

  lemma StepQueue(r: Ring, s: State, a: Action, s': State, own: map<Block, Place>)
    requires QueueInv(r, s, own) && Step(r, s, a, s')
    ensures QueueInv(r, s', OwnAfter(r, s, a, own))
  {
    if a.Produce? {
      if s.producers[a.i].Filled? {
        RoomForTicket(r, s, own, a.i);
      }
      ProducerRings(r, s, a.i, s');
    } else {
      ConsumerRings(r, s, a, s');
    }
    StepCounters(r, s, a, s');
    StepOwn(r, s, a, s', own);
    StepValues(r, s, a, s', own);
  }

  /** A ring whose first `depth` tickets use the slots in order, as after initialisation. */
  ghost predicate FreshRing(r: Ring) {
    GoodRing(r) && forall j | 0 <= j < r.depth :: r.slot(j) == j
  }

  lemma {:induction false} RunQueue(r: Ring, tids: set<Tid>, mem: map<Block, Value>, ss: seq<State>, acts: seq<Action>, i: nat)
    returns (own: map<Block, Place>)
    requires FreshRing(r) && IsRun(r, ss, acts) && ss[0] == Init(r, tids, mem) && i <= |acts|
    ensures QueueInv(r, ss[i], own)
  {
    if i == 0 {
      InitRings(r, tids, mem);
      InitCounters(r, tids, mem);
      own := InitOwn(r, tids, mem);
    } else {
      own := RunQueue(r, tids, mem, ss, acts, i - 1);
      assert StepAt(r, ss, acts, i - 1);
      StepQueue(r, ss[i - 1], acts[i - 1], ss[i], own);
      own := OwnAfter(r, ss[i - 1], acts[i - 1], own);
    }
  }

  /** `s` ends some interleaving of the producers `tids` and the consumer. */
  ghost predicate ReachableWith(r: Ring, tids: set<Tid>, s: State) {
    exists mem, ss, acts :: IsRun(r, ss, acts) && ss[0] == Init(r, tids, mem) && ss[|acts|] == s
  }

  ghost predicate Reachable(r: Ring, s: State) {
    exists tids :: ReachableWith(r, tids, s)
  }

  lemma ReachableInv(r: Ring, s: State) returns (own: map<Block, Place>)
    requires FreshRing(r) && Reachable(r, s)
    ensures QueueInv(r, s, own)
  {
    var tids :| ReachableWith(r, tids, s);
    var mem, ss, acts :| IsRun(r, ss, acts) && ss[0] == Init(r, tids, mem) && ss[|acts|] == s;
    own := RunQueue(r, tids, mem, ss, acts, |acts|);
  }

  // -------------------------------------------------------------------- what it means

  ghost function Written(s: State): seq<Value> {
    seq(|s.writeLog|, k requires 0 <= k < |s.writeLog| => s.writeLog[k].value)
  }

  /** The values read are a prefix of the values written, in write-ticket order. */
  lemma QueueIsFifo(r: Ring, s: State)
    requires FreshRing(r) && Reachable(r, s)
    ensures s.received <= Written(s)
  {
    var own := ReachableInv(r, s);
    forall k | 0 <= k < |s.received| ensures k < |s.writeLog| && s.received[k] == Written(s)[k] {
      assert ReceivedAt(s, k);
    }
  }
}
