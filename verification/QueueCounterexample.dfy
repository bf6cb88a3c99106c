/** With two producers and two blocks, a consumer can find the queue empty, and even go to sleep,
    although a completed write has not been read. */
module QueueCounterexample {
  import opened MessageQueue
  import opened QueueCounters
  import opened QueueBlocks
  import opened QueueTheorems

  /** A property that no step leaves. */
  ghost predicate Closed(r: Ring, p: State -> bool) {
    forall s, a, s' {:trigger Step(r, s, a, s')} | p(s) && Step(r, s, a, s') :: p(s')
  }

  lemma LongerRun(r: Ring, ss: seq<State>, acts: seq<Action>, a: Action, s': State)
    requires IsRun(r, ss, acts) && Step(r, ss[|acts|], a, s')
    ensures IsRun(r, ss + [s'], acts + [a])
  {
    var ss', acts' := ss + [s'], acts + [a];
    forall i ensures StepAt(r, ss', acts', i) {
      if 0 <= i < |acts| {
        assert StepAt(r, ss, acts, i);
        assert ss'[i] == ss[i] && ss'[i + 1] == ss[i + 1] && acts'[i] == acts[i];
      }
    }
  }

  lemma OneStepMore(r: Ring, tids: set<Tid>, s: State, a: Action, s': State)
    requires ReachableWith(r, tids, s) && Step(r, s, a, s')
    ensures ReachableWith(r, tids, s')
  {
    var mem, ss, acts :| IsRun(r, ss, acts) && ss[0] == Init(r, tids, mem) && ss[|acts|] == s;
    LongerRun(r, ss, acts, a, s');
    var ss', acts' := ss + [s'], acts + [a];
    assert ss'[0] == Init(r, tids, mem) && ss'[|acts'|] == s';
  }

  lemma ReachableIsClosed(r: Ring, tids: set<Tid>)
    ensures Closed(r, s => ReachableWith(r, tids, s))
  {
    forall s, a, s' | ReachableWith(r, tids, s) && Step(r, s, a, s') ensures ReachableWith(r, tids, s') {
      OneStepMore(r, tids, s, a, s');
    }
  }

  /** What the scenario needs: two blocks, and two producers `i` and `j`. */
  ghost predicate Crowded(r: Ring, tids: set<Tid>, i: Tid, j: Tid) {
    FreshRing(r) && r.depth >= 2 && i in tids && j in tids && i != j
  }

  ghost function Start(r: Ring, tids: set<Tid>): State {
    Init(r, tids, map[])
  }

  /** Producer `i` has stored its message and not counted it. */
  ghost function FirstStored(r: Ring, tids: set<Tid>, i: Tid, j: Tid): State
    requires Crowded(r, tids, i, j)
  {
    var s := Start(r, tids);
    s.(freelist := s.freelist[0 := Null], queue := s.queue[0 := Ptr(0)], freeBlocks := r.depth - 1, allocators := [i],
       writeLog := [WriteRecord(i, 0, 0)], producers := s.producers[i := WriteCount(0)])
  }

  /** So has producer `j`. */
  ghost function SecondStored(r: Ring, tids: set<Tid>, i: Tid, j: Tid): State
    requires Crowded(r, tids, i, j)
  {
    var s := FirstStored(r, tids, i, j);
    s.(freelist := s.freelist[1 := Null], queue := s.queue[1 := Ptr(1)], freeBlocks := r.depth - 2, allocators := [i, j],
       writeLog := [WriteRecord(i, 0, 0), WriteRecord(j, 1, 0)], producers := s.producers[j := WriteCount(1)])
  }

  /** Producer `j` has completed its write. */
  ghost function SecondDone(r: Ring, tids: set<Tid>, i: Tid, j: Tid): State
    requires Crowded(r, tids, i, j)
  {
    var s := SecondStored(r, tids, i, j);
    s.(entries := 1, producers := s.producers[j := Idle])
  }

  /** The consumer has read the first message on the strength of the second one's count. */
  ghost function FirstRead(r: Ring, tids: set<Tid>, i: Tid, j: Tid): State
    requires Crowded(r, tids, i, j)
  {
    var s := SecondDone(r, tids, i, j);
    s.(entries := 0, readTicket := 1, queue := s.queue[0 := Null], received := [0], consumer := Holding(0))
  }

  /** It has freed that block and called tryread again. */
  ghost function SecondCall(r: Ring, tids: set<Tid>, i: Tid, j: Tid, call: Call): State
    requires Crowded(r, tids, i, j)
  {
    var s := FirstRead(r, tids, i, j);
    s.(freelist := s.freelist[0 := Ptr(0)], freeBlocks := r.depth - 1, freeTicket := 1, freeLog := s.freeLog + [0],
       consumer := TryDec(call))
  }

  /** Had it called read instead, it would have gone to sleep. */
  ghost function Asleep(r: Ring, tids: set<Tid>, i: Tid, j: Tid): State
    requires Crowded(r, tids, i, j)
  {
    SecondCall(r, tids, i, j, First).(blockedReaders := 1, consumer := Wait)
  }

  lemma StartReachable(r: Ring, tids: set<Tid>)
    ensures ReachableWith(r, tids, Start(r, tids))
  {
    var ss, acts: seq<Action> := [Start(r, tids)], [];
    assert IsRun(r, ss, acts) && ss[0] == Init(r, tids, map[]) && ss[|acts|] == Start(r, tids);
  }

  /** An idle producer takes the block in the slot of the next ticket. */
  lemma Allocates(r: Ring, p: State -> bool, s: State, i: Tid, b: Block) returns (s': State)
    requires GoodRing(r) && Closed(r, p) && Shape(r, s) && p(s) && i in s.producers && s.producers[i].Idle?
    requires s.freeBlocks > 0 && s.freelist[r.slot(|s.allocators|)] == Ptr(b)
    ensures p(s') && s' == s.(freeBlocks := s.freeBlocks - 1, allocators := s.allocators + [i],
                              freelist := s.freelist[r.slot(|s.allocators|) := Null], producers := s.producers[i := Filled(b)])
  {
    var t := |s.allocators|;
    var s1 := s.(freeBlocks := s.freeBlocks - 1, producers := s.producers[i := AllocTake]);
    assert Step(r, s, Produce(i), s1);
    var s2 := s1.(allocators := s.allocators + [i], producers := s.producers[i := AllocLoad(t)]);
    assert s2.producers == s1.producers[i := AllocLoad(t)];
    assert Step(r, s1, Produce(i), s2);
    var s3 := s2.(producers := s.producers[i := AllocClear(t, b)]);
    assert s3.producers == s2.producers[i := AllocClear(t, b)];
    assert Step(r, s2, Produce(i), s3);
    s' := s3.(freelist := s.freelist[r.slot(t) := Null], producers := s.producers[i := Filled(b)]);
    assert s'.producers == s3.producers[i := Filled(b)];
    assert Step(r, s3, Produce(i), s');
  }

  /** It then stores the block under the next write ticket. */
  lemma Stores(r: Ring, p: State -> bool, s: State, i: Tid, b: Block) returns (s': State)
    requires GoodRing(r) && Closed(r, p) && Shape(r, s) && p(s) && i in s.producers && s.producers[i] == Filled(b)
    requires s.queue[r.slot(|s.writeLog|)] == Null && s.mem == map[]
    ensures p(s') && s' == s.(writeLog := s.writeLog + [WriteRecord(i, b, 0)], queue := s.queue[r.slot(|s.writeLog|) := Ptr(b)],
                              producers := s.producers[i := WriteCount(|s.writeLog|)])
  {
    var t := |s.writeLog|;
    var s1 := s.(writeLog := s.writeLog + [WriteRecord(i, b, 0)], producers := s.producers[i := WriteLoad(t, b)]);
    assert Step(r, s, Produce(i), s1);
    var s2 := s1.(producers := s.producers[i := WriteStore(t, b)]);
    assert s2.producers == s1.producers[i := WriteStore(t, b)];
    assert Step(r, s1, Produce(i), s2);
    s' := s2.(queue := s.queue[r.slot(t) := Ptr(b)], producers := s.producers[i := WriteCount(t)]);
    assert s'.producers == s2.producers[i := WriteCount(t)];
    assert Step(r, s2, Produce(i), s');
  }

  lemma FirstStoredHolds(r: Ring, tids: set<Tid>, i: Tid, j: Tid, p: State -> bool)
    requires Crowded(r, tids, i, j) && Closed(r, p) && p(Start(r, tids))
    ensures p(FirstStored(r, tids, i, j))
  {
    var s0 := Allocates(r, p, Start(r, tids), i, 0);
    var s1 := Stores(r, p, s0, i, 0);
    assert s1.producers == Start(r, tids).producers[i := WriteCount(0)];
    assert s1 == FirstStored(r, tids, i, j);
  }

  lemma SecondStoredHolds(r: Ring, tids: set<Tid>, i: Tid, j: Tid, p: State -> bool)
    requires Crowded(r, tids, i, j) && Closed(r, p) && p(FirstStored(r, tids, i, j))
    ensures p(SecondStored(r, tids, i, j))
  {
    var s := FirstStored(r, tids, i, j);
    var s0 := Allocates(r, p, s, j, 1);
    var s1 := Stores(r, p, s0, j, 1);
    assert s1.producers == s.producers[j := WriteCount(1)];
    assert s1 == SecondStored(r, tids, i, j);
  }

  lemma SecondDoneHolds(r: Ring, tids: set<Tid>, i: Tid, j: Tid, p: State -> bool)
    requires Crowded(r, tids, i, j) && Closed(r, p) && p(SecondStored(r, tids, i, j))
    ensures p(SecondDone(r, tids, i, j))
  {
    var s, s2 := SecondStored(r, tids, i, j), SecondDone(r, tids, i, j);
    var s1 := s.(entries := 1, producers := s.producers[j := WriteCheck]);
    assert Step(r, s, Produce(j), s1);
    assert s2.producers == s1.producers[j := Idle];
    assert Step(r, s1, Produce(j), s2);
  }

  lemma FirstReadHolds(r: Ring, tids: set<Tid>, i: Tid, j: Tid, p: State -> bool)
    requires Crowded(r, tids, i, j) && Closed(r, p) && p(SecondDone(r, tids, i, j))
    ensures p(FirstRead(r, tids, i, j))
  {
    assert r.slot(0) == 0;
    var s := SecondDone(r, tids, i, j);
    var s1 := s.(consumer := TryDec(Try));
    assert Step(r, s, CallTryRead, s1);
    var s2 := s.(entries := 0, consumer := TryTake(Try));
    assert Step(r, s1, Consume, s2);
    var s3 := s2.(readTicket := 1, consumer := TryLoad(Try, 0));
    assert Step(r, s2, Consume, s3);
    var s4 := s3.(consumer := TryClear(Try, 0, 0));
    assert Step(r, s3, Consume, s4);
    assert Step(r, s4, Consume, FirstRead(r, tids, i, j));
  }

  lemma SecondCallHolds(r: Ring, tids: set<Tid>, i: Tid, j: Tid, p: State -> bool)
    requires Crowded(r, tids, i, j) && Closed(r, p) && p(FirstRead(r, tids, i, j))
    ensures p(SecondCall(r, tids, i, j, Try)) && p(SecondCall(r, tids, i, j, First))
  {
    assert r.slot(0) == 0;
    var s := FirstRead(r, tids, i, j);
    var s1 := s.(freeTicket := 1, freeLog := s.freeLog + [0], consumer := FreeLoad(0, 0));
    assert Step(r, s, Consume, s1);
    var s2 := s1.(consumer := FreeStore(0, 0));
    assert Step(r, s1, Consume, s2);
    var s3 := s2.(freelist := s.freelist[0 := Ptr(0)], consumer := FreeCount);
    assert Step(r, s2, Consume, s3);
    var s4 := s3.(freeBlocks := r.depth - 1, consumer := Resting);
    assert Step(r, s3, Consume, s4);
    assert Step(r, s4, CallTryRead, SecondCall(r, tids, i, j, Try));
    assert Step(r, s4, CallRead, SecondCall(r, tids, i, j, First));
  }

  lemma AsleepHolds(r: Ring, tids: set<Tid>, i: Tid, j: Tid, p: State -> bool)
    requires Crowded(r, tids, i, j) && Closed(r, p) && p(SecondCall(r, tids, i, j, First))
    ensures p(Asleep(r, tids, i, j))
  {
    var s := SecondCall(r, tids, i, j, First);
    var s1 := s.(entries := -1, consumer := TryUndo(First));
    assert Step(r, s, Consume, s1);
    var s2 := s.(consumer := Register);
    assert Step(r, s1, Consume, s2);
    var s3 := s.(blockedReaders := 1, consumer := TryDec(Registered));
    assert Step(r, s2, Consume, s3);
    var s4 := s3.(entries := -1, consumer := TryUndo(Registered));
    assert Step(r, s3, Consume, s4);
    assert Step(r, s4, Consume, Asleep(r, tids, i, j));
  }

  lemma ScenarioReachable(r: Ring, tids: set<Tid>, i: Tid, j: Tid)
    requires Crowded(r, tids, i, j)
    ensures ReachableWith(r, tids, SecondCall(r, tids, i, j, Try)) && ReachableWith(r, tids, Asleep(r, tids, i, j))
  {
    var p := s => ReachableWith(r, tids, s);
    StartReachable(r, tids);
    ReachableIsClosed(r, tids);
    FirstStoredHolds(r, tids, i, j, p);
    SecondStoredHolds(r, tids, i, j, p);
    SecondDoneHolds(r, tids, i, j, p);
    FirstReadHolds(r, tids, i, j, p);
    SecondCallHolds(r, tids, i, j, p);
    AsleepHolds(r, tids, i, j, p);
    assert p(SecondCall(r, tids, i, j, Try)) && p(Asleep(r, tids, i, j));
  }

  /** A tryread can return NULL although a write has completed and is unread. */
  lemma NullWithUnreadMessage(r: Ring, tids: set<Tid>, i: Tid, j: Tid) returns (s: State)
    requires Crowded(r, tids, i, j)
    ensures ReachableWith(r, tids, s) && s.consumer == TryDec(Try) && s.entries <= 0 && !AllCompletedRead(s)
  {
    ScenarioReachable(r, tids, i, j);
    s := SecondCall(r, tids, i, j, Try);
    assert Completed(s, 1);
  }

  /** And a blocking read can sleep on a zero semaphore, with nobody about to post, although a write
      has completed and is unread. */
  lemma SleepsOnUnreadMessage(r: Ring, tids: set<Tid>, i: Tid, j: Tid) returns (s: State)
    requires Crowded(r, tids, i, j)
    ensures ReachableWith(r, tids, s) && s.consumer.Wait? && s.sem == 0 && !AllCompletedRead(s)
    ensures forall k | k in s.producers :: !WillPost(s.producers[k])
  {
    ScenarioReachable(r, tids, i, j);
    s := Asleep(r, tids, i, j);
    assert Completed(s, 1);
  }
}
