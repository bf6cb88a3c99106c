/** For which queues an empty-looking queue is empty: those with one producer, or with one block. */
module QueueConfigurations {
  import opened MessageQueue
  import opened QueueCounters
  import opened QueueRings
  import opened QueueBlocks
  import opened QueueTheorems
  import opened QueueCounterexample

  /** What a caller can see of a queue before using it. */
  ghost predicate Orderly(r: Ring, tids: set<Tid>) {
    |tids| <= 1 || r.depth == 1
  }

  /** In every run of these producers, tryread returns NULL only if every completed write has been read. */
  ghost predicate NullMeansRead(r: Ring, tids: set<Tid>) {
    forall s | ReachableWith(r, tids, s) && s.consumer.TryDec? && s.entries <= 0 :: AllCompletedRead(s)
  }

  /** The consumer waits on a zero semaphore and nobody is about to post it. */
  ghost predicate SleepsUnattended(s: State) {
    s.consumer.Wait? && s.sem == 0 && forall i | i in s.producers :: !WillPost(s.producers[i])
  }

  /** In every run of these producers, the consumer sleeps so only if every completed write has been read. */
  ghost predicate SleepMeansRead(r: Ring, tids: set<Tid>) {
    forall s | ReachableWith(r, tids, s) && SleepsUnattended(s) :: AllCompletedRead(s)
  }

  // ------------------------------------------------- one producer, or one block

  /** An uncounted producer's ticket is the latest one. */
  ghost predicate LatestTicket(s: State, i: Tid) {
    i in s.producers && IsUncounted(s.producers[i]) ==> s.producers[i].t == |s.writeLog| - 1
  }

  ghost predicate OrderlyInv(r: Ring, tids: set<Tid>, s: State) {
    && s.producers.Keys == tids
    && (forall i {:trigger ReadBeforeCounted(s, i)} :: !ReadBeforeCounted(s, i))
    && (r.depth == 1 || forall i {:trigger LatestTicket(s, i)} :: LatestTicket(s, i))
  }

  lemma OnlyOne(tids: set<Tid>, i: Tid, j: Tid)
    requires |tids| <= 1 && i in tids && j in tids
    ensures i == j
  {
    assert |tids - {i}| == |tids| - 1;
    assert tids - {i} == {};
  }

  lemma StepLatest(r: Ring, tids: set<Tid>, s: State, a: Action, s': State, i: Tid)
    requires |tids| <= 1 && s.producers.Keys == tids && Step(r, s, a, s') && LatestTicket(s, i)
    ensures LatestTicket(s', i)
  {
    if a.Produce? {
      if i in s.producers {
        OnlyOne(tids, i, a.i);
        match s.producers[i]
        case Filled(_) =>
        case WriteLoad(_, _) =>
        case WriteStore(_, _) =>
        case _ => assert !IsUncounted(s'.producers[i]);
      }
    } else {
      assert s'.producers == s.producers && s'.writeLog == s.writeLog;
    }
  }

  /** While the consumer is reading, fewer tickets are uncounted than unread. */
  lemma ReaderHasCounted(r: Ring, s: State, i: Tid)
    requires RingInv(r, s) && EntriesInv(s) && s.consumer.TryClear? && i in s.producers && IsUncounted(s.producers[i])
    ensures |s.received| + 2 <= |s.writeLog|
  {
    assert i in Uncounted(s.producers);
    assert |Uncounted(s.producers)| > 0;
  }

  /** A read that clears a slot reads no uncounted message. */
  lemma ReadIsCounted(r: Ring, s: State, s': State, i: Tid)
    requires RingInv(r, s) && EntriesInv(s) && Step(r, s, Consume, s') && s.consumer.TryClear? && !ReadBeforeCounted(s, i)
    requires r.depth == 1 || LatestTicket(s, i)
    ensures !ReadBeforeCounted(s', i)
  {
    if i in s.producers && s.producers[i].WriteCount? {
      ReaderHasCounted(r, s, i);
    }
  }

  /** A producer's own step does not make its message an early read. */
  lemma OwnStepNoEarlyRead(r: Ring, s: State, s': State, i: Tid)
    requires ThreadOk(r, s, i) && Step(r, s, Produce(i), s') && !ReadBeforeCounted(s, i)
    ensures !ReadBeforeCounted(s', i)
  {
    match s.producers[i]
    case WriteStore(t, _) => assert s'.producers[i] == WriteCount(t) && s'.received == s.received;
    case _ => assert !s'.producers[i].WriteCount?;
  }

  lemma StepNoEarlyRead(r: Ring, s: State, a: Action, s': State, i: Tid)
    requires Step(r, s, a, s') && !ReadBeforeCounted(s, i) && a != Produce(i)
    requires !(a.Consume? && s.consumer.TryClear?)
    ensures !ReadBeforeCounted(s', i)
  {
    if a.Produce? {
      OthersStay(r, s, a.i, s');
    } else {
      assert s'.producers == s.producers && s'.received == s.received;
    }
  }

  lemma OthersStay(r: Ring, s: State, j: Tid, s': State)
    requires Step(r, s, Produce(j), s')
    ensures s'.received == s.received && j in s'.producers && s'.producers == s.producers[j := s'.producers[j]]
  {
    match s.producers[j]
    case AllocLoad(_) =>
    case WriteLoad(_, _) =>
    case _ =>
  }

  lemma StepOrderly(r: Ring, tids: set<Tid>, s: State, a: Action, s': State)
    requires Orderly(r, tids) && RingInv(r, s) && EntriesInv(s) && OrderlyInv(r, tids, s) && Step(r, s, a, s')
    ensures OrderlyInv(r, tids, s')
  {
    forall i ensures !ReadBeforeCounted(s', i) {
      assert !ReadBeforeCounted(s, i) && (r.depth == 1 || LatestTicket(s, i));
      if a.Consume? && s.consumer.TryClear? {
        ReadIsCounted(r, s, s', i);
      } else if a == Produce(i) {
        assert ThreadOk(r, s, i);
        OwnStepNoEarlyRead(r, s, s', i);
      } else {
        StepNoEarlyRead(r, s, a, s', i);
      }
    }
    if r.depth != 1 {
      forall i ensures LatestTicket(s', i) {
        assert LatestTicket(s, i);
        StepLatest(r, tids, s, a, s', i);
      }
    }
    assert s'.producers.Keys == tids by {
      if a.Produce? {
        OthersStay(r, s, a.i, s');
      }
    }
  }

  lemma {:induction false} RunOrderly(r: Ring, tids: set<Tid>, mem: map<Block, Value>, ss: seq<State>, acts: seq<Action>, k: nat)
    requires FreshRing(r) && Orderly(r, tids) && IsRun(r, ss, acts) && ss[0] == Init(r, tids, mem) && k <= |acts|
    ensures OrderlyInv(r, tids, ss[k])
  {
    if k == 0 {
      assert Init(r, tids, mem).producers.Keys == tids;
    } else {
      RunOrderly(r, tids, mem, ss, acts, k - 1);
      assert RingInv(r, ss[k - 1]) && EntriesInv(ss[k - 1]) by {
        var own := RunQueue(r, tids, mem, ss, acts, k - 1);
      }
      assert StepAt(r, ss, acts, k - 1);
      StepOrderly(r, tids, ss[k - 1], acts[k - 1], ss[k]);
    }
  }

  /** In an orderly queue no message is ever read before it is counted. */
  lemma NeverReadEarly(r: Ring, tids: set<Tid>, s: State, i: Tid)
    requires FreshRing(r) && Orderly(r, tids) && ReachableWith(r, tids, s)
    ensures !ReadBeforeCounted(s, i)
  {
    var mem, ss, acts :| IsRun(r, ss, acts) && ss[0] == Init(r, tids, mem) && ss[|acts|] == s;
    RunOrderly(r, tids, mem, ss, acts, |acts|);
  }

  // ------------------------------------------------------------------ both halves

  lemma TwoOf(tids: set<Tid>) returns (i: Tid, j: Tid)
    requires |tids| > 1
    ensures i in tids && j in tids && i != j
  {
    i :| i in tids;
    assert |tids - {i}| == |tids| - 1;
    j :| j in tids - {i};
  }

  /** NULL means "everything completed has been read" exactly for queues with one producer or one block. */
  lemma NullMeansReadIff(r: Ring, tids: set<Tid>)
    requires FreshRing(r)
    ensures NullMeansRead(r, tids) <==> Orderly(r, tids)
  {
    if Orderly(r, tids) {
      forall s | ReachableWith(r, tids, s) && s.consumer.TryDec? && s.entries <= 0 ensures AllCompletedRead(s) {
        NullReadExact(r, s);
        forall i ensures !ReadBeforeCounted(s, i) {
          NeverReadEarly(r, tids, s, i);
        }
      }
    } else {
      var i, j := TwoOf(tids);
      var s := NullWithUnreadMessage(r, tids, i, j);
    }
  }

  /** And so for a consumer that sleeps with nobody about to wake it. */
  lemma SleepMeansReadIff(r: Ring, tids: set<Tid>)
    requires FreshRing(r)
    ensures SleepMeansRead(r, tids) <==> Orderly(r, tids)
  {
    if Orderly(r, tids) {
      forall s | ReachableWith(r, tids, s) && SleepsUnattended(s) ensures AllCompletedRead(s) {
        NoLostWakeUp(r, s);
        forall i ensures !ReadBeforeCounted(s, i) {
          NeverReadEarly(r, tids, s, i);
        }
      }
    } else {
      var i, j := TwoOf(tids);
      var s := SleepsOnUnreadMessage(r, tids, i, j);
    }
  }
}
