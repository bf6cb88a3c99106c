/** A writer that saw a reader register posts even if that reader has since found its message. From then
    on every write posts, so that the semaphore grows without bound until the consumer next sleeps, and
    then lets it through that many times for nothing. */
module QueueDrift {
  import opened MessageQueue
  import opened QueueCounters
  import opened QueueBlocks
  import opened QueueTheorems
  import opened QueueCounterexample

  /** Nobody is at work, every block is free, and `t` messages have passed. */
  ghost predicate Quiescent(r: Ring, s: State, i: Tid, t: nat) {
    && Shape(r, s) && |s.allocators| == |s.writeLog| == s.readTicket == s.freeTicket == t
    && s.freeBlocks == r.depth && s.entries == 0 && s.mem == map[] && s.consumer.Resting?
    && i in s.producers && s.producers[i].Idle?
    && (forall j | 0 <= j < r.depth :: s.freelist[j].Ptr? && s.queue[j] == Null)
  }

  /** Producer `i` has stored a message in a quiescent queue, and is about to count it. */
  ghost function Stored(r: Ring, s: State, i: Tid, t: nat): State
    requires GoodRing(r) && Quiescent(r, s, i, t)
  {
    var b := s.freelist[r.slot(t)].block;
    s.(freeBlocks := r.depth - 1, allocators := s.allocators + [i], freelist := s.freelist[r.slot(t) := Null],
       writeLog := s.writeLog + [WriteRecord(i, b, 0)], queue := s.queue[r.slot(t) := Ptr(b)],
       producers := s.producers[i := WriteCount(t)])
  }

  lemma StoredHolds(r: Ring, p: State -> bool, s: State, i: Tid, t: nat)
    requires GoodRing(r) && Closed(r, p) && Quiescent(r, s, i, t) && p(s)
    ensures p(Stored(r, s, i, t))
  {
    var b := s.freelist[r.slot(t)].block;
    var s1 := Allocates(r, p, s, i, b);
    var s2 := Stores(r, p, s1, i, b);
    assert s2.producers == s.producers[i := WriteCount(t)];
    assert s2 == Stored(r, s, i, t);
  }

  /** The consumer, past its test of `entries`, takes the message in its slot. */
  lemma Takes(r: Ring, p: State -> bool, s: State, call: Call, b: Block) returns (s': State)
    requires GoodRing(r) && Closed(r, p) && Shape(r, s) && p(s) && s.consumer == TryDec(call) && s.entries > 0 && s.mem == map[]
    requires s.queue[r.slot(s.readTicket)] == Ptr(b)
    ensures p(s') && s' == s.(entries := s.entries - 1, readTicket := s.readTicket + 1, received := s.received + [0],
                              queue := s.queue[r.slot(s.readTicket) := Null],
                              consumer := if call == Registered then Unregister(b) else Holding(b))
  {
    var t := s.readTicket;
    var s1 := s.(entries := s.entries - 1, consumer := TryTake(call));
    assert Step(r, s, Consume, s1);
    var s2 := s1.(readTicket := t + 1, consumer := TryLoad(call, t));
    assert Step(r, s1, Consume, s2);
    var s3 := s2.(consumer := TryClear(call, t, b));
    assert Step(r, s2, Consume, s3);
    s' := s3.(received := s.received + [0], queue := s.queue[r.slot(t) := Null],
              consumer := if call == Registered then Unregister(b) else Holding(b));
    assert Step(r, s3, Consume, s');
  }

  /** And frees it. */
  lemma Frees(r: Ring, p: State -> bool, s: State, b: Block) returns (s': State)
    requires GoodRing(r) && Closed(r, p) && Shape(r, s) && p(s) && s.consumer == Holding(b) && s.freelist[r.slot(s.freeTicket)] == Null
    ensures p(s') && s' == s.(freeTicket := s.freeTicket + 1, freeLog := s.freeLog + [b], freeBlocks := s.freeBlocks + 1,
                              freelist := s.freelist[r.slot(s.freeTicket) := Ptr(b)], consumer := Resting)
  {
    var t := s.freeTicket;
    var s1 := s.(freeTicket := t + 1, freeLog := s.freeLog + [b], consumer := FreeLoad(t, b));
    assert Step(r, s, Consume, s1);
    var s2 := s1.(consumer := FreeStore(t, b));
    assert Step(r, s1, Consume, s2);
    var s3 := s2.(freelist := s.freelist[r.slot(t) := Ptr(b)], consumer := FreeCount);
    assert Step(r, s2, Consume, s3);
    s' := s3.(freeBlocks := s.freeBlocks + 1, consumer := Resting);
    assert Step(r, s3, Consume, s');
  }

  /** The state after one message has passed, with the given account of readers. */
  ghost function Passed(r: Ring, s: State, i: Tid, t: nat, blocked: int, sem: nat): State
    requires GoodRing(r) && Quiescent(r, s, i, t)
  {
    var b := s.freelist[r.slot(t)].block;
    s.(allocators := s.allocators + [i], writeLog := s.writeLog + [WriteRecord(i, b, 0)], readTicket := t + 1, freeTicket := t + 1,
       received := s.received + [0], freeLog := s.freeLog + [b], blockedReaders := blocked, sem := sem)
  }

  lemma PassedIsQuiescent(r: Ring, s: State, i: Tid, t: nat, blocked: int, sem: nat)
    requires GoodRing(r) && Quiescent(r, s, i, t)
    ensures Quiescent(r, Passed(r, s, i, t, blocked, sem), i, t + 1)
  {
  }

  /** The first drift: the reader registers, the writer counts and sees it, the reader finds the message
      and unregisters, and the writer decrements and posts all the same. */
  lemma FirstDrift(r: Ring, p: State -> bool, s: State, i: Tid, t: nat)
    requires GoodRing(r) && Closed(r, p) && Quiescent(r, s, i, t) && p(s) && s.blockedReaders == 0
    ensures p(Passed(r, s, i, t, -1, s.sem + 1))
  {
    var b := s.freelist[r.slot(t)].block;
    StoredHolds(r, p, s, i, t);
    var a0 := Stored(r, s, i, t);
    var a1 := Registers(r, p, a0);
    var a2 := Sees(r, p, a1, i, t);
    var a3 := Takes(r, p, a2, Registered, b);
    var a4 := a3.(blockedReaders := 0, consumer := Holding(b));
    assert Step(r, a3, Consume, a4);
    var a5 := Posts(r, p, a4, i);
    var a6 := Frees(r, p, a5, b);
    assert a6.producers == s.producers && a6.freelist == s.freelist && a6.queue == s.queue;
    assert a6 == Passed(r, s, i, t, -1, s.sem + 1);
  }

  /** A blocking read that finds nothing registers and looks again. */
  lemma Registers(r: Ring, p: State -> bool, s: State) returns (s': State)
    requires GoodRing(r) && Closed(r, p) && Shape(r, s) && p(s) && s.consumer.Resting? && s.entries == 0
    ensures p(s') && s' == s.(blockedReaders := s.blockedReaders + 1, consumer := TryDec(Registered))
  {
    var s1 := s.(consumer := TryDec(First));
    assert Step(r, s, CallRead, s1);
    var s2 := s.(entries := -1, consumer := TryUndo(First));
    assert Step(r, s1, Consume, s2);
    var s3 := s.(consumer := Register);
    assert Step(r, s2, Consume, s3);
    s' := s.(blockedReaders := s.blockedReaders + 1, consumer := TryDec(Registered));
    assert Step(r, s3, Consume, s');
  }

  /** The writer counts its message and sees that `blocked_readers` is not zero. */
  lemma Sees(r: Ring, p: State -> bool, s: State, i: Tid, t: nat) returns (s': State)
    requires GoodRing(r) && Closed(r, p) && Shape(r, s) && p(s) && i in s.producers && s.producers[i] == WriteCount(t)
    requires s.blockedReaders != 0
    ensures p(s') && s' == s.(entries := s.entries + 1, producers := s.producers[i := WriteDec])
  {
    var s1 := s.(entries := s.entries + 1, producers := s.producers[i := WriteCheck]);
    assert Step(r, s, Produce(i), s1);
    s' := s1.(producers := s.producers[i := WriteDec]);
    assert s'.producers == s1.producers[i := WriteDec];
    assert Step(r, s1, Produce(i), s');
  }

  /** It decrements and posts, whatever has happened in between. */
  lemma Posts(r: Ring, p: State -> bool, s: State, i: Tid) returns (s': State)
    requires GoodRing(r) && Closed(r, p) && Shape(r, s) && p(s) && i in s.producers && s.producers[i].WriteDec?
    ensures p(s') && s' == s.(blockedReaders := s.blockedReaders - 1, sem := s.sem + 1, producers := s.producers[i := Idle])
  {
    var s1 := s.(blockedReaders := s.blockedReaders - 1, producers := s.producers[i := WritePost]);
    assert Step(r, s, Produce(i), s1);
    s' := s1.(sem := s.sem + 1, producers := s.producers[i := Idle]);
    assert s'.producers == s1.producers[i := Idle];
    assert Step(r, s1, Produce(i), s');
  }

  /** Every further message: the writer sees a nonzero count, decrements it and posts, though nobody waits. */
  lemma NextDrift(r: Ring, p: State -> bool, s: State, i: Tid, t: nat)
    requires GoodRing(r) && Closed(r, p) && Quiescent(r, s, i, t) && p(s) && s.blockedReaders < 0
    ensures p(Passed(r, s, i, t, s.blockedReaders - 1, s.sem + 1))
  {
    var b := s.freelist[r.slot(t)].block;
    StoredHolds(r, p, s, i, t);
    var a1 := Sees(r, p, Stored(r, s, i, t), i, t);
    var a2 := Posts(r, p, a1, i);
    var a3 := a2.(consumer := TryDec(Try));
    assert Step(r, a2, CallTryRead, a3);
    var a4 := Takes(r, p, a3, Try, b);
    var a5 := Frees(r, p, a4, b);
    assert a5.producers == s.producers && a5.freelist == s.freelist && a5.queue == s.queue;
    assert a5 == Passed(r, s, i, t, s.blockedReaders - 1, s.sem + 1);
  }

  lemma {:induction false} DriftHolds(r: Ring, p: State -> bool, s: State, i: Tid, k: nat) returns (s': State)
    requires GoodRing(r) && Closed(r, p) && Quiescent(r, s, i, 0) && p(s) && s.blockedReaders == 0 && s.sem == 0
    ensures p(s') && Quiescent(r, s', i, k) && s'.blockedReaders == 0 - k && s'.sem == k
  {
    if k == 0 {
      s' := s;
    } else {
      var q := DriftHolds(r, p, s, i, k - 1);
      s' := Passed(r, q, i, k - 1, 0 - k, k);
      PassedIsQuiescent(r, q, i, k - 1, 0 - k, k);
      if k == 1 {
        FirstDrift(r, p, q, i, 0);
      } else {
        NextDrift(r, p, q, i, k - 1);
      }
    }
  }

  /** For every `k`, even with a single producer and a single block, the queue can be at rest with the
      semaphore at `k` and `blocked_readers` at `-k`. */
  lemma SemaphoreDrifts(r: Ring, tids: set<Tid>, i: Tid, k: nat) returns (s: State)
    requires FreshRing(r) && i in tids
    ensures ReachableWith(r, tids, s) && s.consumer.Resting? && s.entries == 0 && s.sem == k && s.blockedReaders == 0 - k
    ensures |s.received| == |s.writeLog| && forall j | j in s.producers && j == i :: s.producers[j].Idle?
  {
    var p := s => ReachableWith(r, tids, s);
    StartReachable(r, tids);
    ReachableIsClosed(r, tids);
    var s0 := Start(r, tids);
    assert p(s0) && Quiescent(r, s0, i, 0);
    s := DriftHolds(r, p, s0, i, k);
    assert p(s);
    var own := ReachableInv(r, s);
  }

  /** The drift is all there is to the semaphore: in every reachable state its value is the registered reader,
      less `blocked_readers`, less the posts under way. */
  lemma DriftIs(r: Ring, s: State)
    requires FreshRing(r) && Reachable(r, s)
    ensures s.sem == (if IsRegistered(s.consumer) then 1 else 0) - s.blockedReaders - |Posting(s.producers)|
  {
    var own := ReachableInv(r, s);
  }

  // --------------------------------------------------------------- spurious wake-ups

  ghost predicate ConsumesAt(r: Ring, ss: seq<State>, i: int) {
    0 <= i < |ss| - 1 ==> Step(r, ss[i], Consume, ss[i + 1])
  }

  /** Steps of the consumer alone. */
  ghost predicate ConsumerRun(r: Ring, ss: seq<State>) {
    |ss| > 0 && forall i {:trigger ConsumesAt(r, ss, i)} :: ConsumesAt(r, ss, i)
  }

  /** How often the consumer passes the semaphore. */
  ghost function WakeUps(ss: seq<State>): nat {
    if |ss| <= 1 then 0 else (if ss[0].consumer.Wait? then 1 else 0) + WakeUps(ss[1..])
  }

  lemma Before(r: Ring, s: State, ss: seq<State>) returns (more: seq<State>)
    requires ConsumerRun(r, ss) && Step(r, s, Consume, ss[0])
    ensures ConsumerRun(r, more) && more[0] == s && more[|more| - 1] == ss[|ss| - 1]
    ensures WakeUps(more) == WakeUps(ss) + if s.consumer.Wait? then 1 else 0
  {
    more := [s] + ss;
    forall i ensures ConsumesAt(r, more, i) {
      assert ConsumesAt(r, ss, i - 1);
    }
    assert more[1..] == ss;
  }

  /** A registered reader that finds nothing comes to the semaphore. */
  lemma RegisteredToWait(r: Ring, s: State, ss: seq<State>) returns (more: seq<State>)
    requires GoodRing(r) && Shape(r, s) && s.entries == 0 && s.consumer == TryDec(Registered)
    requires ConsumerRun(r, ss) && ss[0] == s.(consumer := Wait)
    ensures ConsumerRun(r, more) && more[0] == s && more[|more| - 1] == ss[|ss| - 1] && WakeUps(more) == WakeUps(ss)
  {
    var s1 := s.(entries := -1, consumer := TryUndo(Registered));
    assert Step(r, s, Consume, s1) && Step(r, s1, Consume, ss[0]);
    more := Before(r, s1, ss);
    more := Before(r, s, more);
  }

  /** A reader that finds nothing registers and looks again. */
  lemma ToWait(r: Ring, s: State, ss: seq<State>) returns (more: seq<State>)
    requires GoodRing(r) && Shape(r, s) && s.entries == 0 && (s.consumer == TryDec(First) || s.consumer == TryDec(AfterWait))
    requires ConsumerRun(r, ss) && ss[0] == s.(blockedReaders := s.blockedReaders + 1, consumer := Wait)
    ensures ConsumerRun(r, more) && more[0] == s && more[|more| - 1] == ss[|ss| - 1] && WakeUps(more) == WakeUps(ss)
  {
    var s1 := s.(entries := -1, consumer := TryUndo(s.consumer.call));
    var s2 := s.(consumer := Register);
    var s3 := s.(blockedReaders := s.blockedReaders + 1, consumer := TryDec(Registered));
    assert Step(r, s, Consume, s1) && Step(r, s1, Consume, s2) && Step(r, s2, Consume, s3);
    more := RegisteredToWait(r, s3, ss);
    more := Before(r, s2, more);
    more := Before(r, s1, more);
    more := Before(r, s, more);
  }

  /** A blocking read on an empty queue with the semaphore at `k` is let through exactly `k` times, for
      nothing, before it sleeps on a zero semaphore. */
  lemma {:induction false} SpuriousWakeUps(r: Ring, s: State, k: nat) returns (ss: seq<State>)
    requires GoodRing(r) && Shape(r, s) && s.entries == 0 && s.sem == k && (s.consumer == TryDec(First) || s.consumer == TryDec(AfterWait))
    ensures ConsumerRun(r, ss) && ss[0] == s && WakeUps(ss) == k
    ensures ss[|ss| - 1] == s.(blockedReaders := s.blockedReaders + k + 1, sem := 0, consumer := Wait)
    decreases k
  {
    var w := s.(blockedReaders := s.blockedReaders + 1, consumer := Wait);
    if k == 0 {
      ss := ToWait(r, s, [w]);
    } else {
      var again := w.(sem := k - 1, consumer := TryDec(AfterWait));
      var rest := SpuriousWakeUps(r, again, k - 1);
      assert Step(r, w, Consume, again);
      rest := Before(r, w, rest);
      ss := ToWait(r, s, rest);
    }
  }
}
