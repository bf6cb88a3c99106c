/** What one call comes to, from its first step to its return, whatever the other threads do meanwhile. */
module QueueCalls {
  import opened MessageQueue

  ghost predicate Trying(c: Consumer) {
    c.TryDec? || c.TryUndo? || c.TryTake? || c.TryLoad? || c.TryClear?
  }

  /** Inside a tryread that the consumer called itself. */
  ghost predicate InTryRead(c: Consumer) {
    Trying(c) && c.call == Try
  }

  /** Inside a read, and no message taken yet. */
  ghost predicate InRead(c: Consumer) {
    c.Register? || c.Wait? || (Trying(c) && c.call != Try)
  }

  /** One message more has been read. */
  ghost predicate OneMore(before: State, after: State) {
    |after.received| == |before.received| + 1 && after.received[..|before.received|] == before.received
  }

  /** After state `i` and before state `j` the consumer is inside one call. */
  ghost predicate StillInCall(ss: seq<State>, i: nat, j: nat)
    requires j < |ss|
  {
    forall k | i < k < j :: !ss[k].consumer.Resting? && !ss[k].consumer.Holding?
  }

  /** Only the consumer moves the consumer. */
  lemma OthersLeaveConsumer(r: Ring, s: State, a: Action, s': State)
    requires Step(r, s, a, s') && (a.Produce? || a.Fill?)
    ensures s'.consumer == s.consumer && s'.received == s.received
  {
    if a.Produce? {
      match s.producers[a.i]
      case AllocLoad(_) =>
      case WriteLoad(_, _) =>
      case _ =>
    }
  }

  lemma TryReadStep(r: Ring, s: State, a: Action, s': State)
    requires Step(r, s, a, s') && InTryRead(s.consumer)
    ensures s'.consumer.Holding? ==> OneMore(s, s')
    ensures !s'.consumer.Holding? ==> (InTryRead(s'.consumer) || s'.consumer.Resting?) && s'.received == s.received
  {
    if a.Produce? || a.Fill? {
      OthersLeaveConsumer(r, s, a, s');
    }
  }

  /** A tryread neither registers nor sleeps: until it returns it is at one of its own steps. It returns
      with one message more read, or with none. */
  lemma {:induction false} TryReadNeverSleeps(r: Ring, ss: seq<State>, acts: seq<Action>, i: nat, j: nat)
    requires IsRun(r, ss, acts) && i < j <= |acts| && acts[i] == CallTryRead && StillInCall(ss, i, j)
    ensures !ss[j].consumer.Register? && !ss[j].consumer.Wait? && !ss[j].consumer.Unregister?
    ensures ss[j].consumer.Holding? ==> OneMore(ss[i], ss[j])
    ensures !ss[j].consumer.Holding? ==> (InTryRead(ss[j].consumer) || ss[j].consumer.Resting?) && ss[j].received == ss[i].received
  {
    assert StepAt(r, ss, acts, j - 1);
    if i < j - 1 {
      TryReadNeverSleeps(r, ss, acts, i, j - 1);
      TryReadStep(r, ss[j - 1], acts[j - 1], ss[j]);
    }
  }

  lemma ReadStep(r: Ring, s: State, a: Action, s': State)
    requires Step(r, s, a, s') && (InRead(s.consumer) || s.consumer.Unregister?)
    ensures !s'.consumer.Resting?
    ensures if s.consumer.Unregister? then (s'.consumer.Unregister? || s'.consumer.Holding?) && s'.received == s.received
            else if s'.consumer.Unregister? || s'.consumer.Holding? then OneMore(s, s')
            else InRead(s'.consumer) && s'.received == s.received
  {
    if a.Produce? || a.Fill? {
      OthersLeaveConsumer(r, s, a, s');
    }
  }

  /** A read does not return without a message: the consumer is not at rest again before it has held one,
      and when it first holds one it has read exactly one more. */
  lemma {:induction false} ReadReturnsMessage(r: Ring, ss: seq<State>, acts: seq<Action>, i: nat, j: nat)
    requires IsRun(r, ss, acts) && i < j <= |acts| && acts[i] == CallRead
    requires forall k | i < k < j :: !ss[k].consumer.Holding?
    ensures !ss[j].consumer.Resting?
    ensures if ss[j].consumer.Holding? || ss[j].consumer.Unregister? then OneMore(ss[i], ss[j])
            else InRead(ss[j].consumer) && ss[j].received == ss[i].received
  {
    assert StepAt(r, ss, acts, j - 1);
    if i < j - 1 {
      ReadReturnsMessage(r, ss, acts, i, j - 1);
      ReadStep(r, ss[j - 1], acts[j - 1], ss[j]);
    }
  }

  /** No step of the consumer from state `i` up to state `j`. */
  ghost predicate ConsumerWaits(acts: seq<Action>, i: nat, j: nat)
    requires j <= |acts|
  {
    forall k | i <= k < j :: acts[k].Produce? || acts[k].Fill?
  }

  lemma {:induction false} ConsumerStays(r: Ring, ss: seq<State>, acts: seq<Action>, i: nat, j: nat)
    requires IsRun(r, ss, acts) && i <= j <= |acts| && ConsumerWaits(acts, i, j)
    ensures ss[j].consumer == ss[i].consumer && ss[j].received == ss[i].received
  {
    if i < j {
      ConsumerStays(r, ss, acts, i, j - 1);
      assert StepAt(r, ss, acts, j - 1);
      OthersLeaveConsumer(r, ss[j - 1], acts[j - 1], ss[j]);
    }
  }

  /** The call at `i` and the consumer's next two steps, at `j` and `k`: the counter at the first decides.
      If it is not positive a tryread has returned without a message, and a read goes on to register; if it
      is positive either holds the next ticket. */
  lemma FirstTwoSteps(r: Ring, ss: seq<State>, acts: seq<Action>, i: nat, j: nat, k: nat)
    requires IsRun(r, ss, acts) && i < j < k < |acts| && (acts[i] == CallTryRead || acts[i] == CallRead)
    requires acts[j] == Consume && acts[k] == Consume && ConsumerWaits(acts, i + 1, j) && ConsumerWaits(acts, j + 1, k)
    ensures ss[k + 1].received == ss[i].received
    ensures ss[j].entries <= 0 ==> ss[k + 1].consumer == if acts[i] == CallTryRead then Resting else Register
    ensures ss[j].entries > 0 ==> ss[k + 1].consumer == TryLoad(if acts[i] == CallTryRead then Try else First, ss[k].readTicket)
  {
    assert StepAt(r, ss, acts, i) && StepAt(r, ss, acts, j) && StepAt(r, ss, acts, k);
    ConsumerStays(r, ss, acts, i + 1, j);
    ConsumerStays(r, ss, acts, j + 1, k);
  }

  /** With no other step between, a tryread on an empty queue leaves no trace at all. */
  lemma TryReadOnEmpty(r: Ring, ss: seq<State>, acts: seq<Action>)
    requires IsRun(r, ss, acts) && acts == [CallTryRead, Consume, Consume] && ss[0].entries <= 0
    ensures ss[3] == ss[0]
  {
    assert StepAt(r, ss, acts, 0) && StepAt(r, ss, acts, 1) && StepAt(r, ss, acts, 2);
  }

  // ------------------------------------------------------------------- allocating

  /** Producer `p` takes no step from state `i` up to state `j`. */
  ghost predicate ProducerWaits(acts: seq<Action>, p: Tid, i: nat, j: nat)
    requires j <= |acts|
  {
    forall k | i <= k < j :: acts[k] != Produce(p)
  }

  lemma OthersLeaveProducer(r: Ring, s: State, a: Action, s': State, p: Tid)
    requires Step(r, s, a, s') && a != Produce(p) && p in s.producers
    ensures p in s'.producers && s'.producers[p] == s.producers[p]
  {
    match a
    case Produce(i) =>
    case _ =>
  }

  lemma {:induction false} ProducerStays(r: Ring, ss: seq<State>, acts: seq<Action>, p: Tid, i: nat, j: nat)
    requires IsRun(r, ss, acts) && i <= j <= |acts| && ProducerWaits(acts, p, i, j) && p in ss[i].producers
    ensures p in ss[j].producers && ss[j].producers[p] == ss[i].producers[p]
  {
    if i < j {
      ProducerStays(r, ss, acts, p, i, j - 1);
      assert StepAt(r, ss, acts, j - 1);
      OthersLeaveProducer(r, ss[j - 1], acts[j - 1], ss[j], p);
    }
  }

  /** The first two steps of an alloc: with no free block counted it returns NULL and the producer is idle
      again; otherwise it holds the next ticket of the freelist. */
  lemma AllocFirstTwoSteps(r: Ring, ss: seq<State>, acts: seq<Action>, p: Tid, i: nat, j: nat)
    requires IsRun(r, ss, acts) && i < j < |acts| && acts[i] == acts[j] == Produce(p) && ProducerWaits(acts, p, i + 1, j)
    requires p in ss[i].producers && ss[i].producers[p] == Idle
    ensures p in ss[j + 1].producers
    ensures ss[i].freeBlocks <= 0 ==> ss[j + 1].producers[p] == Idle && ss[j + 1].freeBlocks == ss[j].freeBlocks + 1
    ensures ss[i].freeBlocks > 0 ==> ss[j + 1].producers[p] == AllocLoad(|ss[j].allocators|) && ss[j + 1].freeBlocks == ss[j].freeBlocks
    ensures ss[i + 1].freeBlocks == ss[i].freeBlocks - 1
  {
    assert StepAt(r, ss, acts, i) && StepAt(r, ss, acts, j);
    ProducerStays(r, ss, acts, p, i + 1, j);
  }
}
