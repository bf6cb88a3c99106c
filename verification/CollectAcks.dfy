/** The collect loop of one phase: one reply from every fragment, in whatever order they come. */
module CollectAcks {
  import Sums

  /** What receiving, checking and processing one reply came to. */
  datatype Result = Ok | Bad(error: nat)

  /** One turn of the poll loop: the call timed out, was interrupted, or found some replies; `timer` is
      what remains of the deadline afterwards, and `results[i]` what the reply of `i` would come to. */
  datatype Round = TimedOut | Interrupted(timer: int) | Ready(who: set<nat>, results: seq<Result>, timer: int)

  /** The value of the whole loop; None while it still runs. */
  datatype Verdict = Running | AllAcked | Failed(error: nat) | WaitTimeout

  /** One handled reply. */
  datatype Entry = Entry(index: nat, result: Result)

  /** Every index at most once. */
  ghost predicate OnceEach(n: nat, log: seq<Entry>) {
    && (forall k | 0 <= k < |log| :: log[k].index < n)
    && (forall j, k | 0 <= j < k < |log| :: log[j].index != log[k].index)
  }

  ghost predicate AllOk(log: seq<Entry>) {
    forall k | 0 <= k < |log| :: log[k].result.Ok?
  }

  function ErrorOf(r: Result): nat {
    if r.Bad? then r.error else 0
  }

  ghost predicate FirstError(log: seq<Entry>, error: nat) {
    exists k :: 0 <= k < |log| && log[k].result == Bad(error) && forall j | 0 <= j < k :: log[j].result.Ok?
  }

  /** Fragment `i` answers in round `q`. */
  ghost predicate Answers(rounds: seq<Round>, q: int, i: nat) {
    0 <= q < |rounds| && rounds[q].Ready? && i in rounds[q].who
  }

  ghost predicate FirstAnswer(rounds: seq<Round>, q: int, e: Entry) {
    && Answers(rounds, q, e.index) && e.index < |rounds[q].results| && rounds[q].results[e.index] == e.result
    && forall q' | 0 <= q' < q :: !Answers(rounds, q', e.index)
  }

  /** Every entry is the first answer of its index, within the first `turns` rounds. */
  ghost predicate FromRounds(rounds: seq<Round>, turns: nat, log: seq<Entry>) {
    forall k | 0 <= k < |log| :: EntryOk(rounds, turns, log[k])
  }

  ghost predicate EntryOk(rounds: seq<Round>, turns: nat, e: Entry) {
    exists q :: q < turns && FirstAnswer(rounds, q, e)
  }

  lemma MoreTurns(rounds: seq<Round>, turns: nat, log: seq<Entry>)
    requires FromRounds(rounds, turns, log)
    ensures FromRounds(rounds, turns + 1, log)
  {
    forall k | 0 <= k < |log| ensures EntryOk(rounds, turns + 1, log[k]) {
      assert EntryOk(rounds, turns, log[k]);
    }
  }

  /** Every index that answers within the first `turns` rounds has an entry. */
  ghost predicate Complete(rounds: seq<Round>, turns: nat, n: nat, log: seq<Entry>) {
    forall q, i: nat {:trigger Answers(rounds, q, i)} | q < turns && i < n && Answers(rounds, q, i) :: i in Indices(log)
  }

  /** The loop ends after `turns` rounds because time is up. */
  ghost predicate TimeUp(deadline: int, rounds: seq<Round>, turns: nat) {
    if turns == 0 then deadline <= 0
    else turns <= |rounds| && (rounds[turns - 1].TimedOut? || rounds[turns - 1].timer <= 0)
  }

  lemma EntryFrom(rounds: seq<Round>, turns: nat, log: seq<Entry>, e: Entry, n: nat)
    requires FromRounds(rounds, turns + 1, log) && Complete(rounds, turns, n, log)
    requires e.index < n && e.index !in Indices(log) && Answers(rounds, turns, e.index)
    requires e.index < |rounds[turns].results| && rounds[turns].results[e.index] == e.result
    ensures FromRounds(rounds, turns + 1, log + [e])
  {
    assert FirstAnswer(rounds, turns, e) && EntryOk(rounds, turns + 1, e);
  }

  ghost function Indices(log: seq<Entry>): set<nat> {
    set k | 0 <= k < |log| :: log[k].index
  }

  lemma IndexAdded(log: seq<Entry>, e: Entry)
    ensures Indices(log + [e]) == Indices(log) + {e.index}
  {
    var more := log + [e];
    assert more[|log|] == e && forall k | 0 <= k < |log| :: more[k] == log[k];
    forall i ensures i in Indices(more) <==> i in Indices(log) + {e.index} {
      if i in Indices(log) {
        var k :| 0 <= k < |log| && log[k].index == i;
        assert more[k].index == i;
      }
    }
  }

  lemma ErrorStays(log: seq<Entry>, e: Entry, error: nat)
    ensures FirstError(log, error) ==> FirstError(log + [e], error)
    ensures AllOk(log) && e.result == Bad(error) ==> FirstError(log + [e], error)
  {
    var more := log + [e];
    assert more[|log|] == e && forall k | 0 <= k < |log| :: more[k] == log[k];
    if FirstError(log, error) {
      var k :| 0 <= k < |log| && log[k].result == Bad(error) && forall j | 0 <= j < k :: log[j].result.Ok?;
      assert more[k].result == Bad(error);
    }
  }

  lemma {:induction false} IndexCount(n: nat, log: seq<Entry>)
    requires OnceEach(n, log)
    ensures |Indices(log)| == |log| <= n
  {
    if log != [] {
      var rest, last := log[..|log| - 1], log[|log| - 1];
      IndexCount(n, rest);
      IndexAdded(rest, last);
      assert rest + [last] == log;
    }
    assert forall i | i in Indices(log) :: i < n;
    Sums.BoundedCard(Indices(log), n);
  }

  lemma {:induction false} FullSet(n: nat, s: set<nat>)
    requires |s| == n && forall i | i in s :: i < n
    ensures forall i: nat | i < n :: i in s
  {
    forall i: nat | i < n ensures i in s {
      if i !in s {
        var bigger := s + {i};
        Sums.BoundedCard(bigger, n);
      }
    }
  }

  /** The loop's variables agree with the log. */
  ghost predicate Tally(n: nat, pending: seq<bool>, error: Result, log: seq<Entry>) {
    && |pending| == n && OnceEach(n, log)
    && (forall i: nat | i < n :: pending[i] <==> i !in Indices(log))
    && (if error == Ok then AllOk(log) else FirstError(log, error.error))
  }

  lemma TallyEntry(n: nat, pending: seq<bool>, error: Result, log: seq<Entry>, e: Entry)
    requires Tally(n, pending, error, log) && e.index < n && pending[e.index]
    ensures Tally(n, pending[e.index := false], if error == Ok then e.result else error, log + [e])
  {
    IndexAdded(log, e);
    ErrorStays(log, e, if error == Ok then ErrorOf(e.result) else error.error);
  }

  /** One round of replies: those that are still awaited are handled, in order of index. */
  method HandleRound(n: nat, rounds: seq<Round>, q: nat, pending0: seq<bool>, error0: Result, log0: seq<Entry>)
    returns (pending: seq<bool>, error: Result, log: seq<Entry>)
    requires q < |rounds| && rounds[q].Ready? && |rounds[q].results| == n && Tally(n, pending0, error0, log0)
    requires FromRounds(rounds, q, log0) && Complete(rounds, q, n, log0)
    ensures Tally(n, pending, error, log) && FromRounds(rounds, q + 1, log) && Complete(rounds, q + 1, n, log)
  {
    pending, error, log := pending0, error0, log0;
    MoreTurns(rounds, q, log);
    for i := 0 to n
      invariant Tally(n, pending, error, log) && FromRounds(rounds, q + 1, log) && Complete(rounds, q, n, log)
      invariant forall j: nat | j < i && j in rounds[q].who :: j in Indices(log)
    {
      if i in rounds[q].who && pending[i] {
        var e := Entry(i, rounds[q].results[i]);
        EntryFrom(rounds, q, log, e, n);
        TallyEntry(n, pending, error, log, e);
        IndexAdded(log, e);
        pending, error, log := pending[i := false], if error == Ok then e.result else error, log + [e];
      }
    }
  }

  /** Polls until every fragment has answered, an answer could not be had in time, or the deadline passes. */
  method Collect(n: nat, deadline: int, rounds: seq<Round>) returns (v: Verdict, log: seq<Entry>, turns: nat)
    requires forall r | r in rounds :: r.Ready? ==> |r.results| == n
    ensures OnceEach(n, log)
    ensures v == AllAcked <==> |log| == n && AllOk(log)
    ensures v == AllAcked ==> forall i: nat | i < n :: i in Indices(log)
    ensures v.Failed? ==> FirstError(log, v.error) && (|log| == n || TimeUp(deadline, rounds, turns))
    ensures v == WaitTimeout ==> |log| < n && AllOk(log) && TimeUp(deadline, rounds, turns)
    ensures v == Running ==> turns == |rounds| && |log| < n
    ensures forall t | 0 <= t < turns :: !TimeUp(deadline, rounds, t)
    ensures turns <= |rounds| && FromRounds(rounds, turns, log) && Complete(rounds, turns, n, log)
  {
    var error: Result, pending, timer := Ok, seq(n, i => true), deadline;
    log, turns := [], 0;
    while |log| != n && timer > 0
      invariant turns <= |rounds| && Tally(n, pending, error, log)
      invariant FromRounds(rounds, turns, log) && Complete(rounds, turns, n, log)
      invariant timer <= 0 <==> TimeUp(deadline, rounds, turns)
      invariant forall t | 0 <= t < turns :: !TimeUp(deadline, rounds, t)
      invariant |log| <= n
      decreases |rounds| - turns
    {
      if turns == |rounds| {
        return Running, log, turns;
      }
      var round := rounds[turns];
      if round.Ready? {
        pending, error, log := HandleRound(n, rounds, turns, pending, error, log);
      } else {
        MoreTurns(rounds, turns, log);
      }
      IndexCount(n, log);
      timer := if round.TimedOut? then 0 else round.timer;
      turns := turns + 1;
    }
    IndexCount(n, log);
    if error == Ok && |log| != n {
      return WaitTimeout, log, turns;
    }
    if error == Ok {
      FullSet(n, Indices(log));
      v := AllAcked;
    } else {
      v := Failed(error.error);
    }
  }
}
