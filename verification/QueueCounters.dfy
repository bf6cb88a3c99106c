/** The counters of the queue: what `entries`, `free_blocks` and `blocked_readers` always add up to,
    and why a sleeping consumer is not forgotten. */
module QueueCounters {
  import opened MessageQueue

  /** Producers that hold a write ticket and have not yet incremented `entries`. */
  predicate IsUncounted(p: Producer) {
    p.WriteLoad? || p.WriteStore? || p.WriteCount?
  }

  function Uncounted(ps: map<Tid, Producer>): set<Tid> {
    set i | i in ps && IsUncounted(ps[i])
  }

  function Taking(ps: map<Tid, Producer>): set<Tid> {
    set i | i in ps && ps[i].AllocTake?
  }

  function Undoing(ps: map<Tid, Producer>): set<Tid> {
    set i | i in ps && ps[i].AllocUndo?
  }

  function Posting(ps: map<Tid, Producer>): set<Tid> {
    set i | i in ps && ps[i].WritePost?
  }

  /** Producers past their increment of `entries` that may still post the semaphore. */
  predicate WillPost(p: Producer) {
    p.WriteCheck? || p.WriteDec? || p.WritePost?
  }

  predicate IsRegistered(c: Consumer) {
    match c
    case TryDec(call) => call == Registered
    case TryUndo(call) => call == Registered
    case TryTake(call) => call == Registered
    case TryLoad(call, _) => call == Registered
    case TryClear(call, _, _) => call == Registered
    case Unregister(_) => true
    case Wait => true
    case _ => false
  }

  /** Frees that have incremented `free_blocks`. */
  ghost function FreesCounted(s: State): int {
    s.freeTicket - (if s.consumer.FreeLoad? || s.consumer.FreeStore? || s.consumer.FreeCount? then 1 else 0)
  }

  ghost predicate EntriesInv(s: State) {
    && s.entries + |Uncounted(s.producers)| + s.readTicket
       + (if s.consumer.TryTake? || s.consumer.TryUndo? then 1 else 0) == |s.writeLog|
    && s.entries >= (if s.consumer.TryUndo? then -1 else 0)
  }

  ghost predicate BlocksInv(r: Ring, s: State) {
    && s.freeBlocks + |s.allocators| + |Taking(s.producers)| + |Undoing(s.producers)| == r.depth + FreesCounted(s)
    && |s.allocators| + |Taking(s.producers)| <= r.depth + FreesCounted(s)
  }

  ghost predicate SemInv(s: State) {
    s.blockedReaders + s.sem + |Posting(s.producers)| == if IsRegistered(s.consumer) then 1 else 0
  }

  /** The registered consumer that found nothing: if there is something now, someone will wake it. */
  ghost predicate WakeInv(s: State) {
    (s.consumer == TryUndo(Registered) && s.entries >= 0) || (s.consumer.Wait? && s.entries >= 1) ==>
      s.sem >= 1 || exists i :: i in s.producers && WillPost(s.producers[i])
  }

  lemma ChangeOne(ps: map<Tid, Producer>, i: Tid, p: Producer)
    requires i in ps
    ensures var qs := ps[i := p];
            && |Uncounted(qs)| + (if IsUncounted(ps[i]) then 1 else 0) == |Uncounted(ps)| + (if IsUncounted(p) then 1 else 0)
            && |Taking(qs)| + (if ps[i].AllocTake? then 1 else 0) == |Taking(ps)| + (if p.AllocTake? then 1 else 0)
            && |Undoing(qs)| + (if ps[i].AllocUndo? then 1 else 0) == |Undoing(ps)| + (if p.AllocUndo? then 1 else 0)
            && |Posting(qs)| + (if ps[i].WritePost? then 1 else 0) == |Posting(ps)| + (if p.WritePost? then 1 else 0)
  {
    var qs := ps[i := p];
    SetsDiffer(Uncounted(ps), Uncounted(qs), i);
    SetsDiffer(Taking(ps), Taking(qs), i);
    SetsDiffer(Undoing(ps), Undoing(qs), i);
    SetsDiffer(Posting(ps), Posting(qs), i);
  }

  lemma SetsDiffer(a: set<Tid>, b: set<Tid>, i: Tid)
    requires a - {i} == b - {i}
    ensures |b| + (if i in a then 1 else 0) == |a| + (if i in b then 1 else 0)
  {
    assert a == (a - {i}) + (a * {i}) && b == (b - {i}) + (b * {i});
    assert i in a ==> a * {i} == {i};
    assert i in b ==> b * {i} == {i};
    assert i !in a ==> a * {i} == {};
    assert i !in b ==> b * {i} == {};
  }

  ghost predicate CounterInv(r: Ring, s: State) {
    EntriesInv(s) && BlocksInv(r, s) && SemInv(s) && WakeInv(s)
  }

  lemma InitCounters(r: Ring, tids: set<Tid>, mem: map<Block, Value>)
    ensures CounterInv(r, Init(r, tids, mem))
  {
    var ps := Init(r, tids, mem).producers;
    assert Uncounted(ps) == {} && Taking(ps) == {} && Undoing(ps) == {} && Posting(ps) == {};
  }

  /** How a producer's step changes the four sets. */
  lemma ProducerCounts(r: Ring, s: State, i: Tid, s': State)
    requires Step(r, s, Produce(i), s')
    ensures i in s'.producers
    ensures var p, p' := s.producers[i], s'.producers[i];
            && |Uncounted(s'.producers)| + (if IsUncounted(p) then 1 else 0)
               == |Uncounted(s.producers)| + (if IsUncounted(p') then 1 else 0)
            && |Taking(s'.producers)| + (if p.AllocTake? then 1 else 0)
               == |Taking(s.producers)| + (if p'.AllocTake? then 1 else 0)
            && |Undoing(s'.producers)| + (if p.AllocUndo? then 1 else 0)
               == |Undoing(s.producers)| + (if p'.AllocUndo? then 1 else 0)
            && |Posting(s'.producers)| + (if p.WritePost? then 1 else 0)
               == |Posting(s.producers)| + (if p'.WritePost? then 1 else 0)
  {
    var p' := ProducerStep(r, s, i).producers[i];
    assert s'.producers == s.producers[i := p'];
    ChangeOne(s.producers, i, p');
  }

  lemma ProducerEntries(r: Ring, s: State, i: Tid, s': State)
    requires Step(r, s, Produce(i), s') && EntriesInv(s)
    ensures EntriesInv(s')
  {
    ProducerCounts(r, s, i, s');
  }

  lemma ProducerBlocks(r: Ring, s: State, i: Tid, s': State)
    requires Step(r, s, Produce(i), s') && BlocksInv(r, s)
    ensures BlocksInv(r, s')
  {
    assert FreesCounted(s') == FreesCounted(s);
    assert |Taking(s'.producers)| + (if s.producers[i].AllocTake? then 1 else 0)
        == |Taking(s.producers)| + (if s'.producers[i].AllocTake? then 1 else 0)
        && |Undoing(s'.producers)| + (if s.producers[i].AllocUndo? then 1 else 0)
        == |Undoing(s.producers)| + (if s'.producers[i].AllocUndo? then 1 else 0) by { ProducerCounts(r, s, i, s'); }
    match s.producers[i]
    case Idle =>
    case AllocTake =>
    case AllocUndo =>
    case _ => assert s'.freeBlocks == s.freeBlocks && s'.allocators == s.allocators;
  }

  lemma ProducerSem(r: Ring, s: State, i: Tid, s': State)
    requires Step(r, s, Produce(i), s') && SemInv(s)
    ensures SemInv(s')
  {
    ProducerCounts(r, s, i, s');
  }

  /** Some producer may still post. */
  ghost predicate PostComing(s: State) {
    exists i :: i in s.producers && WillPost(s.producers[i])
  }

  lemma ProducerWake(r: Ring, s: State, i: Tid, s': State)
    requires Step(r, s, Produce(i), s') && SemInv(s) && WakeInv(s)
    ensures WakeInv(s')
  {
    var p := s.producers[i];
    if p.WriteCheck? && s.blockedReaders == 0 {
      LeaverIsReplaced(s, i, s');
    } else if p.WriteCount? || p.WriteCheck? || p.WriteDec? {
      assert WillPost(s'.producers[i]);
    } else if p.WritePost? {
      assert s'.sem >= 1;
    } else if PostComing(s) {
      var j :| j in s.producers && WillPost(s.producers[j]);
      assert WillPost(s'.producers[j]);
    }
  }

  /** A writer that sees no blocked reader leaves only if a post is already there or on its way. */
  lemma LeaverIsReplaced(s: State, i: Tid, s': State)
    requires i in s.producers && s.producers[i].WriteCheck? && s.blockedReaders == 0 && SemInv(s)
    requires s' == s.(producers := s.producers[i := Idle])
    ensures WakeInv(s')
  {
    if IsRegistered(s.consumer) && s.sem == 0 {
      assert Posting(s.producers) != {};
      var j :| j in Posting(s.producers);
      assert WillPost(s'.producers[j]);
    }
  }

  lemma ConsumerEntries(r: Ring, s: State, a: Action, s': State)
    requires Step(r, s, a, s') && !a.Produce? && EntriesInv(s)
    ensures EntriesInv(s')
  {
    assert s'.producers == s.producers && s'.writeLog == s.writeLog;
    if a.Consume? {
      match s.consumer
      case TryDec(_) =>
      case TryUndo(_) =>
      case TryTake(_) =>
      case TryLoad(_, _) =>
      case _ =>
    }
  }

  lemma ConsumerBlocks(r: Ring, s: State, a: Action, s': State)
    requires Step(r, s, a, s') && !a.Produce? && BlocksInv(r, s)
    ensures BlocksInv(r, s')
  {
    assert s'.producers == s.producers && s'.allocators == s.allocators;
    if a.Consume? {
      match s.consumer
      case Holding(_) =>
      case FreeLoad(_, _) =>
      case FreeStore(_, _) =>
      case FreeCount =>
      case _ =>
    }
  }

  lemma ConsumerSem(r: Ring, s: State, a: Action, s': State)
    requires Step(r, s, a, s') && !a.Produce? && SemInv(s)
    ensures SemInv(s')
  {
    assert s'.producers == s.producers;
    if a.Consume? {
      match s.consumer
      case TryUndo(_) =>
      case TryClear(_, _, _) =>
      case Register =>
      case Wait =>
      case Unregister(_) =>
      case _ =>
    }
  }

  lemma ConsumerWake(r: Ring, s: State, a: Action, s': State)
    requires Step(r, s, a, s') && !a.Produce? && WakeInv(s)
    ensures WakeInv(s')
  {
    assert s'.producers == s.producers;
    assert s'.consumer.Wait? || s'.consumer == TryUndo(Registered) ==> s'.sem == s.sem;
  }

  lemma StepCounters(r: Ring, s: State, a: Action, s': State)
    requires Step(r, s, a, s') && CounterInv(r, s)
    ensures CounterInv(r, s')
  {
    if a.Produce? {
      ProducerEntries(r, s, a.i, s');
      ProducerBlocks(r, s, a.i, s');
      ProducerSem(r, s, a.i, s');
      ProducerWake(r, s, a.i, s');
    } else {
      ConsumerEntries(r, s, a, s');
      ConsumerBlocks(r, s, a, s');
      ConsumerSem(r, s, a, s');
      ConsumerWake(r, s, a, s');
    }
  }
}
