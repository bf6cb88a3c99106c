/** A consumer that sleeps while a message is unread is woken by a writer's own next steps. */
module QueueWakeUp {
  import opened MessageQueue
  import opened QueueCounters
  import opened QueueRings
  import opened QueueBlocks
  import opened QueueTheorems

  /** Producer `i` is about to post, or will be: it sees the blocked reader once it has counted. */
  ghost predicate Waker(s: State, i: Tid) {
    i in s.producers && (s.producers[i].WritePost? ||
                         (s.blockedReaders == 1 && (IsUncounted(s.producers[i]) || WillPost(s.producers[i]))))
  }

  /** How many of its own steps it is away from having posted. */
  ghost function StepsToPost(p: Producer): nat {
    match p
    case WriteLoad(_, _) => 6
    case WriteStore(_, _) => 5
    case WriteCount(_) => 4
    case WriteCheck => 3
    case WriteDec => 2
    case WritePost => 1
    case _ => 0
  }

  lemma SomeWaker(r: Ring, s: State) returns (i: Tid)
    requires RingInv(r, s) && CounterInv(r, s) && s.consumer.Wait? && s.sem == 0 && |s.received| < |s.writeLog|
    ensures Waker(s, i)
  {
    if Posting(s.producers) != {} {
      i :| i in Posting(s.producers);
    } else {
      SleeperHasWaker(s);
      i :| i in s.producers && (IsUncounted(s.producers[i]) || WillPost(s.producers[i]));
      assert |Posting(s.producers)| == 0;
    }
  }

  lemma WakerStep(r: Ring, s: State, i: Tid, s': State)
    requires RingInv(r, s) && s.consumer.Wait? && s.sem == 0 && Waker(s, i) && Step(r, s, Produce(i), s')
    ensures s'.consumer.Wait?
    ensures s.producers[i].WritePost? ==> s'.sem == 1
    ensures !s.producers[i].WritePost? ==>
              s'.sem == 0 && Waker(s', i) && StepsToPost(s'.producers[i]) + 1 == StepsToPost(s.producers[i])
  {
    if s.producers[i].WriteLoad? {
      WriteNeverWaits(r, s, i);
    }
  }

  lemma {:induction false} WakerRuns(r: Ring, s: State, own: map<Block, Place>, i: Tid) returns (ss: seq<State>, acts: seq<Action>)
    requires QueueInv(r, s, own) && s.consumer.Wait? && s.sem == 0 && Waker(s, i)
    ensures IsRun(r, ss, acts) && ss[0] == s && ss[|acts|].sem == 1 && ss[|acts|].consumer.Wait?
    ensures |acts| == StepsToPost(s.producers[i]) && forall k | 0 <= k < |acts| :: acts[k] == Produce(i)
    decreases StepsToPost(s.producers[i])
  {
    var a := Produce(i);
    var s1 := Next(r, s, a);
    WakerStep(r, s, i, s1);
    if s.producers[i].WritePost? {
      ss, acts := [s, s1], [a];
    } else {
      StepQueue(r, s, a, s1, own);
      var ss1, acts1 := WakerRuns(r, s1, OwnAfter(r, s, a, own), i);
      ss, acts := [s] + ss1, [a] + acts1;
      forall k ensures StepAt(r, ss, acts, k) {
        assert StepAt(r, ss1, acts1, k - 1);
      }
    }
  }

  /** Whenever the consumer sleeps on a zero semaphore with a message unread, some writer's own next steps,
      at most six and without anybody else's help, post the semaphore. */
  lemma SleeperIsWoken(r: Ring, s: State) returns (i: Tid, ss: seq<State>, acts: seq<Action>)
    requires FreshRing(r) && Reachable(r, s) && s.consumer.Wait? && s.sem == 0 && |s.received| < |s.writeLog|
    ensures IsRun(r, ss, acts) && ss[0] == s && ss[|acts|].sem == 1 && ss[|acts|].consumer.Wait?
    ensures |acts| <= 6 && forall k | 0 <= k < |acts| :: acts[k] == Produce(i)
  {
    var own := ReachableInv(r, s);
    i := SomeWaker(r, s);
    ss, acts := WakerRuns(r, s, own, i);
  }
}
