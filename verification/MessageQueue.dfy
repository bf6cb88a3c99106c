/** The lock-free message queue as a step system: every atomic counter operation and every
    load or store of a slot is one step. Any number of producers allocate, fill and write
    blocks; one consumer reads them and frees them. */
module MessageQueue {

  type Block = nat
  type Value = nat
  type Tid = nat

  datatype Cell = Null | Ptr(block: Block)

  /** A ring of `depth` slots; `slot(t)` is the slot of ticket `t`. */
  datatype Ring = Ring(depth: nat, slot: nat -> nat)

  ghost predicate Period(r: Ring, t: nat) {
    r.slot(t + r.depth) == r.slot(t)
  }

  /** Tickets less than `depth` apart have different slots, and the slots repeat with period `depth`. */
  ghost predicate GoodRing(r: Ring) {
    && r.depth > 0
    && (forall t: nat {:trigger r.slot(t)} :: r.slot(t) < r.depth)
    && (forall t: nat, u: nat {:trigger r.slot(t), r.slot(u)} :: t < u < t + r.depth ==> r.slot(t) != r.slot(u))
    && (forall t: nat {:trigger Period(r, t)} :: Period(r, t))
  }

  /** Where a producer stands in alloc, fill, write. Tickets are the values of the fetch-and-add. */
  datatype Producer =
    | Idle
    | AllocTake                           // passed the free_blocks test
    | AllocUndo                           // failed it, will restore the counter and return NULL
    | AllocLoad(t: nat)                   // has its ticket, loads the freelist slot
    | AllocClear(t: nat, b: Block)        // saw block b there, will store NULL
    | Filled(b: Block)                    // owns b
    | WriteLoad(t: nat, b: Block)         // has its ticket, waits for an empty queue slot
    | WriteStore(t: nat, b: Block)        // saw NULL, will store b
    | WriteCount(t: nat)                  // stored, will increment entries
    | WriteCheck                          // will look at blocked_readers
    | WriteDec                            // saw it nonzero, will decrement it
    | WritePost                           // will post the semaphore

  /** From which call a tryread is made. */
  datatype Call = Try | First | Registered | AfterWait

  datatype Consumer =
    | Resting
    | TryDec(call: Call)
    | TryUndo(call: Call)
    | TryTake(call: Call)
    | TryLoad(call: Call, t: nat)
    | TryClear(call: Call, t: nat, b: Block)
    | Register
    | Wait
    | Unregister(b: Block)
    | Holding(b: Block)
    | FreeLoad(t: nat, b: Block)
    | FreeStore(t: nat, b: Block)
    | FreeCount

  datatype WriteRecord = WriteRecord(tid: Tid, block: Block, value: Value)

  /** The shared memory, the threads, and the history: `allocators` and `writeLog` list who took
      each ticket, `freeLog` lists the blocks in the order in which they entered the freelist,
      `received` the values read. The position counters are the lengths of the logs. */
  datatype State = State(
    freelist: seq<Cell>, queue: seq<Cell>,
    freeBlocks: int, entries: int, readTicket: nat, freeTicket: nat,
    blockedReaders: int, sem: nat,
    mem: map<Block, Value>,
    producers: map<Tid, Producer>, consumer: Consumer,
    allocators: seq<Tid>, writeLog: seq<WriteRecord>, freeLog: seq<Block>, received: seq<Value>)

  ghost function Init(r: Ring, tids: set<Tid>, mem: map<Block, Value>): State {
    State(seq(r.depth, i requires 0 <= i < r.depth => Ptr(i)), seq(r.depth, i => Null), r.depth, 0, 0, 0, 0, 0, mem,
          map i | i in tids :: Idle, Resting, [], [], seq(r.depth, i requires 0 <= i < r.depth => i), [])
  }

  datatype Action =
    | Produce(i: Tid)
    | Fill(i: Tid, v: Value)
    | Consume
    | CallTryRead
    | CallRead

  ghost predicate Enabled(s: State, a: Action) {
    match a
    case Produce(i) => i in s.producers
    case Fill(i, _) => i in s.producers && s.producers[i].Filled?
    case Consume => !s.consumer.Resting? && (s.consumer.Wait? ==> s.sem > 0)
    case CallTryRead => s.consumer.Resting?
    case CallRead => s.consumer.Resting?
  }

  ghost predicate Shape(r: Ring, s: State) {
    |s.freelist| == |s.queue| == r.depth
  }

  /** One atomic step of producer `i`. */
  ghost function ProducerStep(r: Ring, s: State, i: Tid): State
    requires GoodRing(r) && Shape(r, s) && i in s.producers
  {
    match s.producers[i]
    case Idle =>
      s.(freeBlocks := s.freeBlocks - 1,
         producers := s.producers[i := if s.freeBlocks > 0 then AllocTake else AllocUndo])
    case AllocTake =>
      s.(allocators := s.allocators + [i], producers := s.producers[i := AllocLoad(|s.allocators|)])
    case AllocUndo =>
      s.(freeBlocks := s.freeBlocks + 1, producers := s.producers[i := Idle])
    case AllocLoad(t) =>
      var c := s.freelist[r.slot(t)];
      if c.Null? then s else s.(producers := s.producers[i := AllocClear(t, c.block)])
    case AllocClear(t, b) =>
      s.(freelist := s.freelist[r.slot(t) := Null], producers := s.producers[i := Filled(b)])
    case Filled(b) =>
      var v := if b in s.mem then s.mem[b] else 0;
      s.(writeLog := s.writeLog + [WriteRecord(i, b, v)], producers := s.producers[i := WriteLoad(|s.writeLog|, b)])
    case WriteLoad(t, b) =>
      if s.queue[r.slot(t)].Ptr? then s else s.(producers := s.producers[i := WriteStore(t, b)])
    case WriteStore(t, b) =>
      s.(queue := s.queue[r.slot(t) := Ptr(b)], producers := s.producers[i := WriteCount(t)])
    case WriteCount(t) =>
      s.(entries := s.entries + 1, producers := s.producers[i := WriteCheck])
    case WriteCheck =>
      s.(producers := s.producers[i := if s.blockedReaders != 0 then WriteDec else Idle])
    case WriteDec =>
      s.(blockedReaders := s.blockedReaders - 1, producers := s.producers[i := WritePost])
    case WritePost =>
      s.(sem := s.sem + 1, producers := s.producers[i := Idle])
  }

  /** One atomic step of the consumer. */
  ghost function ConsumerStep(r: Ring, s: State): State
    requires GoodRing(r) && Shape(r, s) && Enabled(s, Consume)
  {
    match s.consumer
    case TryDec(call) =>
      s.(entries := s.entries - 1, consumer := if s.entries > 0 then TryTake(call) else TryUndo(call))
    case TryUndo(call) =>
      s.(entries := s.entries + 1,
         consumer := if call == Try then Resting else if call == Registered then Wait else Register)
    case TryTake(call) =>
      s.(readTicket := s.readTicket + 1, consumer := TryLoad(call, s.readTicket))
    case TryLoad(call, t) =>
      var c := s.queue[r.slot(t)];
      if c.Null? then s else s.(consumer := TryClear(call, t, c.block))
    case TryClear(call, t, b) =>
      var v := if b in s.mem then s.mem[b] else 0;
      s.(queue := s.queue[r.slot(t) := Null], received := s.received + [v],
         consumer := if call == Registered then Unregister(b) else Holding(b))
    case Register =>
      s.(blockedReaders := s.blockedReaders + 1, consumer := TryDec(Registered))
    case Wait =>
      s.(sem := s.sem - 1, consumer := TryDec(AfterWait))
    case Unregister(b) =>
      s.(blockedReaders := s.blockedReaders - 1, consumer := Holding(b))
    case Holding(b) =>
      s.(freeTicket := s.freeTicket + 1, freeLog := s.freeLog + [b], consumer := FreeLoad(s.freeTicket, b))
    case FreeLoad(t, b) =>
      if s.freelist[r.slot(t)].Ptr? then s else s.(consumer := FreeStore(t, b))
    case FreeStore(t, b) =>
      s.(freelist := s.freelist[r.slot(t) := Ptr(b)], consumer := FreeCount)
    case FreeCount =>
      s.(freeBlocks := s.freeBlocks + 1, consumer := Resting)
  }

  ghost function Next(r: Ring, s: State, a: Action): State
    requires GoodRing(r) && Shape(r, s) && Enabled(s, a)
  {
    match a
    case Produce(i) => ProducerStep(r, s, i)
    case Fill(i, v) => s.(mem := s.mem[s.producers[i].b := v])
    case Consume => ConsumerStep(r, s)
    case CallTryRead => s.(consumer := TryDec(Try))
    case CallRead => s.(consumer := TryDec(First))
  }

  ghost predicate Step(r: Ring, s: State, a: Action, s': State) {
    GoodRing(r) && Shape(r, s) && Enabled(s, a) && s' == Next(r, s, a)
  }

  ghost predicate StepAt(r: Ring, ss: seq<State>, acts: seq<Action>, i: int)
    requires |ss| == |acts| + 1
  {
    0 <= i < |acts| ==> Step(r, ss[i], acts[i], ss[i + 1])
  }

  ghost predicate IsRun(r: Ring, ss: seq<State>, acts: seq<Action>) {
    |ss| == |acts| + 1 && forall i {:trigger StepAt(r, ss, acts, i)} :: StepAt(r, ss, acts, i)
  }
}
