/** Bring-up without failures: whatever the interleaving, it runs through all phases and is done. */
module BringupCompletes {
  import opened Bringup

  ghost predicate AllHandled(n: nat, handled: set<nat>) {
    forall f: nat | f < n :: f in handled
  }

  /** A step at which nothing fails: no error, no crash, and no deadline passes. */
  ghost predicate Smooth(n: nat, s: State, a: Action) {
    match a
    case SendRequest(ok) => ok
    case SendsOver(inTime) => inTime
    case CollectFrom(_, ok) => ok
    case CollectFails(_) => false
    case CollectOver => s.orch.Collecting? && AllHandled(n, s.orch.handled)
    case Receive(_, ok) => ok
    case Acknowledge(_, ok) => ok
    case Crash(_) => false
  }

  ghost predicate SmoothAt(n: nat, ss: seq<State>, acts: seq<Action>, i: int)
    requires |ss| == |acts| + 1
  {
    0 <= i < |acts| ==> Smooth(n, ss[i], acts[i])
  }

  ghost predicate IsSmoothRun(n: nat, ss: seq<State>, acts: seq<Action>) {
    IsRun(n, ss, acts) && forall i {:trigger SmoothAt(n, ss, acts, i)} :: SmoothAt(n, ss, acts, i)
  }

  // --------------------------------------------------------- how far bring-up has come

  /** The requests received and the acknowledgements sent by the first `k` fragments. */
  ghost function Events(frags: seq<Fragment>, k: nat): nat
    requires k <= |frags|
  {
    if k == 0 then 0 else Events(frags, k - 1) + frags[k - 1].got + frags[k - 1].acked
  }

  /** The orchestrator's steps in the phases before `p`. */
  ghost function Before(n: nat, p: nat): nat {
    if p == 0 then 0 else Before(n, p - 1) + n + 1 + n + 1
  }

  /** The orchestrator's steps so far. */
  ghost function Steps(n: nat, o: Orchestrator): nat {
    match o
    case Sending(p, idx, _) => Before(n, p) + idx
    case Collecting(p, handled, _) => Before(n, p) + n + 1 + |handled|
    case Stopped(_) => 0
    case Done(p) => Before(n, p + 1)
  }

  ghost function Work(n: nat, s: State): nat
    requires Shape(n, s)
  {
    Steps(n, s.orch) + Events(s.frags, n)
  }

  lemma BeforeEnd(n: nat)
    ensures Before(n, PHASES) == 6 * (2 * n + 2)
  {
    assert Before(n, 0) == 0;
    assert Before(n, 1) == Before(n, 0) + 2 * n + 2;
    assert Before(n, 2) == Before(n, 1) + 2 * n + 2;
    assert Before(n, 3) == Before(n, 2) + 2 * n + 2;
    assert Before(n, 4) == Before(n, 3) + 2 * n + 2;
    assert Before(n, 5) == Before(n, 4) + 2 * n + 2;
  }

  lemma {:induction false} EventsAt(frags: seq<Fragment>, f: nat, fr: Fragment, k: nat)
    requires f < |frags| && k <= |frags|
    ensures Events(frags[f := fr], k)
         == Events(frags, k) + (if f < k then fr.got + fr.acked - frags[f].got - frags[f].acked else 0)
  {
    if k > 0 {
      EventsAt(frags, f, fr, k - 1);
    }
  }

  lemma {:induction false} EventsOf(frags: seq<Fragment>, p: nat, k: nat)
    requires k <= |frags| && forall f | 0 <= f < k :: frags[f].got == frags[f].acked == p
    ensures Events(frags, k) == k * (p + p)
  {
    if k > 0 {
      EventsOf(frags, p, k - 1);
    }
  }

  /** All below `n` are handled exactly when `n` are. */
  lemma {:induction false} HandledCount(n: nat, handled: set<nat>)
    requires forall f | f in handled :: f < n
    ensures |handled| <= n && (AllHandled(n, handled) ==> |handled| == n)
    decreases n
  {
    if n == 0 {
      assert forall f | f in handled :: false;
      assert handled == {};
    } else {
      HandledCount(n - 1, handled - {n - 1});
      if AllHandled(n, handled) {
        assert AllHandled(n - 1, handled - {n - 1});
      }
    }
  }

  // ---------------------------------------------------------------------- invariant

  ghost predicate SmoothInv(n: nat, s: State) {
    && Inv(n, s) && Faultless(s.orch)
    && (forall f | 0 <= f < n :: !s.frags[f].dead)
    && (s.orch.Sending? ==> s.orch.idx <= n)
    && (s.orch.Collecting? ==> forall f | f in s.orch.handled :: f < n)
  }

  /** A smooth step keeps the invariant and is one step of the work. */
  lemma OrchestratorAdvances(n: nat, s: State, a: Action, s': State)
    requires SmoothInv(n, s) && Step(n, s, a, s') && Smooth(n, s, a) && !a.Receive? && !a.Acknowledge?
    ensures SmoothInv(n, s') && Work(n, s') == Work(n, s) + 1
  {
    OrchestratorStep(n, s, a, s');
    if a.CollectFrom? {
      assert FragOk(s, a.f);
    }
    if a.CollectOver? {
      HandledCount(n, s.orch.handled);
    }
  }

  lemma FragmentAdvances(n: nat, s: State, a: Action, s': State)
    requires SmoothInv(n, s) && Step(n, s, a, s') && Smooth(n, s, a) && (a.Receive? || a.Acknowledge?)
    ensures SmoothInv(n, s') && Work(n, s') == Work(n, s) + 1
  {
    FragmentStep(n, s, a, s');
    assert FragOk(s, a.f);
    EventsAt(s.frags, a.f, s'.frags[a.f], n);
    assert s'.frags == s.frags[a.f := s'.frags[a.f]];
  }

  lemma {:induction false} RunAdvances(n: nat, ss: seq<State>, acts: seq<Action>, i: nat)
    requires IsSmoothRun(n, ss, acts) && i <= |acts|
    ensures SmoothInv(n, ss[i]) && Work(n, ss[i]) == i
  {
    if i == 0 {
      InitInv(n);
      EventsOf(ss[0].frags, 0, n);
    } else {
      RunAdvances(n, ss, acts, i - 1);
      assert StepAt(n, ss, acts, i - 1) && SmoothAt(n, ss, acts, i - 1);
      if acts[i - 1].Receive? || acts[i - 1].Acknowledge? {
        FragmentAdvances(n, ss[i - 1], acts[i - 1], ss[i]);
      } else {
        OrchestratorAdvances(n, ss[i - 1], acts[i - 1], ss[i]);
      }
    }
  }

  // ----------------------------------------------------------------------- progress

  /** Until bring-up is done there is always a smooth step to take. */
  lemma Progress(n: nat, s: State) returns (a: Action)
    requires SmoothInv(n, s) && !s.orch.Done?
    ensures Enabled(n, s, a) && Smooth(n, s, a)
  {
    if s.orch.Sending? {
      a := if s.orch.idx < n then SendRequest(true) else SendsOver(true);
    } else if AllHandled(n, s.orch.handled) {
      a := CollectOver;
    } else {
      var f: nat :| f < n && f !in s.orch.handled;
      assert FragOk(s, f);
      a := if s.up[f] != [] then CollectFrom(f, true)
           else if s.frags[f].got == s.frags[f].acked then Receive(f, true)
           else Acknowledge(f, true);
    }
  }

  /** The steps of a whole bring-up: in each of six phases a request, a receipt, an acknowledgement and
      its collection for every fragment, and the end of the sends and of the collection. */
  lemma DoneIsAll(n: nat, s: State)
    requires SmoothInv(n, s) && s.orch.Done?
    ensures Work(n, s) == 6 * (4 * n + 2)
    ensures s.orch == Done(5) && forall f | 0 <= f < n :: s.frags[f].got == s.frags[f].acked == PHASES
  {
    forall f: nat | f < n ensures s.frags[f].got == s.frags[f].acked == PHASES {
      assert FragOk(s, f);
    }
    EventsOf(s.frags, PHASES, n);
    BeforeEnd(n);
  }

  lemma {:induction false} BeforeMono(n: nat, p: nat, q: nat)
    requires p <= q
    ensures Before(n, p) <= Before(n, q)
    decreases q
  {
    if p < q {
      BeforeMono(n, p, q - 1);
    }
  }

  lemma {:induction false} EventsBound(frags: seq<Fragment>, k: nat)
    requires k <= |frags| && forall f | 0 <= f < k :: frags[f].acked <= frags[f].got <= PHASES
    ensures Events(frags, k) <= 12 * k
  {
    if k > 0 {
      EventsBound(frags, k - 1);
    }
  }

  lemma WorkBound(n: nat, s: State)
    requires SmoothInv(n, s)
    ensures Work(n, s) <= 6 * (4 * n + 2)
  {
    forall f: nat | f < n ensures s.frags[f].acked <= s.frags[f].got <= PHASES {
      assert FragOk(s, f);
    }
    EventsBound(s.frags, n);
    if s.orch.Collecting? {
      HandledCount(n, s.orch.handled);
    }
    assert Steps(n, s.orch) <= Before(n, s.orch.p + 1);
    BeforeMono(n, s.orch.p + 1, PHASES);
    BeforeEnd(n);
  }

  /** Without failures bring-up cannot get stuck and cannot go on for ever: a run is done exactly after
      6(4n + 2) steps, and as long as it is not, it goes on with a step that `next` names. When it is done,
      every fragment has received and acknowledged every phase. */
  lemma SmoothRunEnds(n: nat, ss: seq<State>, acts: seq<Action>) returns (next: Action)
    requires IsSmoothRun(n, ss, acts)
    ensures var s := ss[|acts|];
            && |acts| <= 6 * (4 * n + 2)
            && Shape(n, s)
            && (s.orch == Done(5) <==> |acts| == 6 * (4 * n + 2))
            && (s.orch == Done(5) ==> forall f | 0 <= f < n :: s.frags[f].got == s.frags[f].acked == 6)
            && (s.orch != Done(5) ==> Enabled(n, s, next) && Smooth(n, s, next))
  {
    var s := ss[|acts|];
    RunAdvances(n, ss, acts, |acts|);
    WorkBound(n, s);
    if s.orch.Done? {
      DoneIsAll(n, s);
      next := Crash(0);
    } else {
      next := Progress(n, s);
      var s' := Next(n, s, next);
      assert Step(n, s, next, s');
      if next.Receive? || next.Acknowledge? {
        FragmentAdvances(n, s, next, s');
      } else {
        OrchestratorAdvances(n, s, next, s');
      }
      WorkBound(n, s');
    }
  }

  lemma ExtendRun(n: nat, ss: seq<State>, acts: seq<Action>, a: Action, s': State)
    requires IsSmoothRun(n, ss, acts) && Step(n, ss[|acts|], a, s') && Smooth(n, ss[|acts|], a)
    ensures IsSmoothRun(n, ss + [s'], acts + [a])
  {
    var ss', acts' := ss + [s'], acts + [a];
    forall i ensures StepAt(n, ss', acts', i) && SmoothAt(n, ss', acts', i) {
      assert StepAt(n, ss, acts, i) && SmoothAt(n, ss, acts, i);
    }
  }

  /** Every failure-free beginning can be completed. */
  lemma {:induction false} CompleteRun(n: nat, ss: seq<State>, acts: seq<Action>) returns (ss': seq<State>, acts': seq<Action>)
    requires IsSmoothRun(n, ss, acts)
    ensures IsSmoothRun(n, ss', acts') && acts <= acts' && ss <= ss' && ss'[|acts'|].orch == Done(5)
    decreases 6 * (4 * n + 2) - |acts|
  {
    ss', acts' := ss, acts;
    var next := SmoothRunEnds(n, ss, acts);
    var s := ss[|acts|];
    if s.orch != Done(5) {
      ExtendRun(n, ss, acts, next, Next(n, s, next));
      ss', acts' := CompleteRun(n, ss + [Next(n, s, next)], acts + [next]);
    }
  }

  /** For every number of fragments the overlay can come up. */
  lemma BringupCompletes(n: nat) returns (ss: seq<State>, acts: seq<Action>)
    ensures IsSmoothRun(n, ss, acts) && ss[|acts|].orch == Done(5)
    ensures Shape(n, ss[|acts|]) && forall f | 0 <= f < n :: ss[|acts|].frags[f].got == ss[|acts|].frags[f].acked == 6
  {
    ss, acts := [Init(n)], [];
    assert IsSmoothRun(n, ss, acts);
    ss, acts := CompleteRun(n, ss, acts);
    var _ := SmoothRunEnds(n, ss, acts);
  }
}
