/** Bringing up the overlay: the orchestrator drives n fragments through numbered phases, each a request
    to every fragment and an acknowledgement from every fragment. */
module Bringup {

  /** The request/acknowledge phases in the order in which both sides run them. */
  datatype Phase = SetupPcap | CreateTopology | StartServer | StartClients | ResolveConnections | StartTestcase

  function Number(ph: Phase): nat {
    match ph
    case SetupPcap => 0
    case CreateTopology => 1
    case StartServer => 2
    case StartClients => 3
    case ResolveConnections => 4
    case StartTestcase => 5
  }

  const PHASES: nat := 6

  /** The orchestrator is sending the requests of phase `p`, or collecting the acknowledgements; `bad`
      once an error has been recorded. `Stopped` is every way of giving up; `Done` has run all phases. */
  datatype Orchestrator =
    | Sending(p: nat, idx: nat, bad: bool)
    | Collecting(p: nat, handled: set<nat>, bad: bool)
    | Stopped(p: nat)
    | Done(p: nat)

  /** A fragment has received `got` requests and acknowledged `acked` of them. */
  datatype Fragment = Fragment(got: nat, acked: nat, dead: bool)

  /** `down[f]` and `up[f]` are the messages under way to and from fragment `f`: phase numbers. */
  datatype State = State(orch: Orchestrator, frags: seq<Fragment>, down: seq<seq<nat>>, up: seq<seq<nat>>)

  datatype Action =
    | SendRequest(ok: bool)
    | SendsOver(inTime: bool)
    | CollectFrom(f: nat, ok: bool)
    | CollectFails(f: nat)
    | CollectOver
    | Receive(f: nat, ok: bool)
    | Acknowledge(f: nat, ok: bool)
    | Crash(f: nat)

  ghost predicate Shape(n: nat, s: State) {
    |s.frags| == |s.down| == |s.up| == n
  }

  ghost function Init(n: nat): State {
    State(Sending(0, 0, false), seq(n, i => Fragment(0, 0, false)), seq(n, i => []), seq(n, i => []))
  }

  /** `ok` is false where a system call fails, a payload is refused, or a header does not check. */
  ghost predicate Enabled(n: nat, s: State, a: Action) {
    && Shape(n, s)
    && match a
       case SendRequest(_) => s.orch.Sending? && s.orch.idx < n
       case SendsOver(inTime) => s.orch.Sending? && (inTime ==> s.orch.idx == n)
       case CollectFrom(f, _) => s.orch.Collecting? && f < n && f !in s.orch.handled && s.up[f] != []
       case CollectFails(f) => s.orch.Collecting? && f < n && f !in s.orch.handled
       case CollectOver => s.orch.Collecting?
       case Receive(f, _) => f < n && !s.frags[f].dead && s.frags[f].got == s.frags[f].acked < PHASES && s.down[f] != []
       case Acknowledge(f, _) => f < n && !s.frags[f].dead && s.frags[f].got == s.frags[f].acked + 1
       case Crash(f) => f < n
  }

  ghost function Next(n: nat, s: State, a: Action): State
    requires Enabled(n, s, a)
  {
    match a
    case SendRequest(ok) =>
      var i := s.orch.idx;
      s.(orch := s.orch.(idx := i + 1, bad := s.orch.bad || !ok),
         down := if ok then s.down[i := s.down[i] + [s.orch.p]] else s.down)
    case SendsOver(inTime) =>
      s.(orch := if inTime && !s.orch.bad then Collecting(s.orch.p, {}, false) else Stopped(s.orch.p))
    case CollectFrom(f, ok) =>
      var good := ok && s.up[f][0] == s.orch.p;
      s.(orch := s.orch.(handled := s.orch.handled + {f}, bad := s.orch.bad || !good), up := s.up[f := s.up[f][1..]])
    case CollectFails(f) =>
      s.(orch := s.orch.(handled := s.orch.handled + {f}, bad := true))
    case CollectOver =>
      var p := s.orch.p;
      s.(orch := if s.orch.bad || exists f: nat :: f < n && f !in s.orch.handled then Stopped(p)
                 else if p + 1 < PHASES then Sending(p + 1, 0, false)
                 else Done(p))
    case Receive(f, ok) =>
      var fr := s.frags[f];
      var fr' := if s.down[f][0] == fr.got then fr.(got := fr.got + 1, dead := !ok) else fr.(dead := true);
      s.(frags := s.frags[f := fr'], down := s.down[f := s.down[f][1..]])
    case Acknowledge(f, ok) =>
      var fr := s.frags[f];
      if ok then s.(frags := s.frags[f := fr.(acked := fr.acked + 1)], up := s.up[f := s.up[f] + [fr.acked]])
      else s.(frags := s.frags[f := fr.(dead := true)])
    case Crash(f) => s.(frags := s.frags[f := s.frags[f].(dead := true)])
  }

  ghost predicate Step(n: nat, s: State, a: Action, s': State) {
    Enabled(n, s, a) && s' == Next(n, s, a)
  }

  ghost predicate StepAt(n: nat, ss: seq<State>, acts: seq<Action>, i: int)
    requires |ss| == |acts| + 1
  {
    0 <= i < |acts| ==> Step(n, ss[i], acts[i], ss[i + 1])
  }

  ghost predicate IsRun(n: nat, ss: seq<State>, acts: seq<Action>) {
    |ss| == |acts| + 1 && ss[0] == Init(n) && forall i {:trigger StepAt(n, ss, acts, i)} :: StepAt(n, ss, acts, i)
  }

  // -------------------------------------------------------------------- invariant

  /** In phase `p` at most one message is under way in each direction. */
  ghost function Pending(lo: nat, hi: nat): seq<nat> {
    if hi == lo + 1 then [lo] else []
  }

  /** How many requests have gone to fragment `f`, and how many acknowledgements of it have been handled. */
  ghost function SentTo(o: Orchestrator, f: nat): nat {
    if o.Sending? && o.idx <= f then o.p else o.p + 1
  }

  ghost function HandledOf(o: Orchestrator, f: nat): nat {
    if o.Done? || (o.Collecting? && f in o.handled) then o.p + 1 else o.p
  }

  ghost predicate Faultless(o: Orchestrator) {
    o.Done? || (o.Sending? && !o.bad) || (o.Collecting? && !o.bad)
  }

  /** No fragment is more than one phase ahead of any other; and while no error is recorded, what is under
      way is exactly what has been sent and not received. */
  ghost predicate FragOk(s: State, f: nat)
    requires f < |s.frags| == |s.down| == |s.up|
  {
    var fr, o := s.frags[f], s.orch;
    && o.p <= fr.acked <= fr.got <= fr.acked + 1
    && fr.got <= o.p + 1
    && (forall k | 0 <= k < |s.down[f]| :: s.down[f][k] <= o.p)
    && (forall k | 0 <= k < |s.up[f]| :: s.up[f][k] < fr.acked)
    && (Faultless(o) ==>
          && HandledOf(o, f) <= fr.acked && fr.got <= SentTo(o, f)
          && s.down[f] == Pending(fr.got, SentTo(o, f))
          && s.up[f] == Pending(HandledOf(o, f), fr.acked))
  }

  ghost predicate Inv(n: nat, s: State) {
    && Shape(n, s)
    && (s.orch.p < PHASES)
    && (s.orch.Done? ==> s.orch.p + 1 == PHASES)
    && forall f: nat {:trigger FragOk(s, f)} | f < n :: FragOk(s, f)
  }

  lemma InitInv(n: nat)
    ensures Inv(n, Init(n))
  {
  }

  lemma OrchestratorStep(n: nat, s: State, a: Action, s': State)
    requires Inv(n, s) && Step(n, s, a, s') && (a.SendRequest? || a.SendsOver? || a.CollectFrom? || a.CollectFails? || a.CollectOver?)
    ensures Inv(n, s')
  {
    forall f: nat | f < n ensures FragOk(s', f) {
      assert FragOk(s, f);
    }
  }

  lemma FragmentStep(n: nat, s: State, a: Action, s': State)
    requires Inv(n, s) && Step(n, s, a, s') && (a.Receive? || a.Acknowledge? || a.Crash?)
    ensures Inv(n, s')
  {
    forall f: nat | f < n ensures FragOk(s', f) {
      assert FragOk(s, f);
    }
  }

  lemma {:induction false} RunInv(n: nat, ss: seq<State>, acts: seq<Action>, i: nat)
    requires IsRun(n, ss, acts) && i <= |acts|
    ensures Inv(n, ss[i])
  {
    if i == 0 {
      InitInv(n);
    } else {
      RunInv(n, ss, acts, i - 1);
      assert StepAt(n, ss, acts, i - 1);
      if acts[i - 1].Receive? || acts[i - 1].Acknowledge? || acts[i - 1].Crash? {
        FragmentStep(n, ss[i - 1], acts[i - 1], ss[i]);
      } else {
        OrchestratorStep(n, ss[i - 1], acts[i - 1], ss[i]);
      }
    }
  }

  /** In every interleaving: once a fragment has received the request of a phase, every fragment has
      acknowledged all the phases before it. */
  lemma PhaseBarrier(n: nat, ss: seq<State>, acts: seq<Action>, i: nat, f: nat, g: nat, ph: Phase)
    requires IsRun(n, ss, acts) && i <= |acts| && f < n && g < n
    ensures Shape(n, ss[i])
    ensures ss[i].frags[f].got > Number(ph) ==> ss[i].frags[g].acked >= Number(ph)
  {
    RunInv(n, ss, acts, i);
    assert FragOk(ss[i], f) && FragOk(ss[i], g);
  }

  /** What the barrier means for the overlay: no fragment is told to create its topology before every one
      has set up its capture, to listen before every one knows its neighbours, to connect before every one
      listens, to match connections before every one has connected, to start before every one has matched. */
  lemma ServersBeforeClients(n: nat, ss: seq<State>, acts: seq<Action>, i: nat, f: nat, g: nat)
    requires IsRun(n, ss, acts) && i <= |acts| && f < n && g < n
    ensures Shape(n, ss[i])
    ensures var got, acked := ss[i].frags[f].got, ss[i].frags[g].acked;
            && (got > Number(CreateTopology) ==> acked > Number(SetupPcap))
            && (got > Number(StartServer) ==> acked > Number(CreateTopology))
            && (got > Number(StartClients) ==> acked > Number(StartServer))
            && (got > Number(ResolveConnections) ==> acked > Number(StartClients))
            && (got > Number(StartTestcase) ==> acked > Number(ResolveConnections))
  {
    PhaseBarrier(n, ss, acts, i, f, g, CreateTopology);
    PhaseBarrier(n, ss, acts, i, f, g, StartServer);
    PhaseBarrier(n, ss, acts, i, f, g, StartClients);
    PhaseBarrier(n, ss, acts, i, f, g, ResolveConnections);
    PhaseBarrier(n, ss, acts, i, f, g, StartTestcase);
  }

  /** The phases run in lock-step: when the orchestrator begins one, every fragment has received and
      acknowledged exactly the phases before it, and nothing is under way. */
  lemma LockStep(n: nat, ss: seq<State>, acts: seq<Action>, i: nat, f: nat)
    requires IsRun(n, ss, acts) && i <= |acts| && f < n
    requires ss[i].orch.Done? || (ss[i].orch.Sending? && ss[i].orch.idx == 0 && !ss[i].orch.bad)
    ensures Shape(n, ss[i])
    ensures var p := if ss[i].orch.Done? then PHASES else ss[i].orch.p;
            ss[i].frags[f].got == ss[i].frags[f].acked == p && ss[i].down[f] == [] && ss[i].up[f] == []
  {
    RunInv(n, ss, acts, i);
    assert FragOk(ss[i], f);
  }

  /** No fragment ever refuses a request as being of the wrong phase, nor the orchestrator a reply, as long
      as no other error has occurred. */
  lemma NoMismatch(n: nat, ss: seq<State>, acts: seq<Action>, i: nat, f: nat)
    requires IsRun(n, ss, acts) && i <= |acts| && f < n && Faultless(ss[i].orch)
    ensures Shape(n, ss[i])
    ensures ss[i].down[f] != [] ==> ss[i].down[f] == [ss[i].frags[f].got]
    ensures ss[i].orch.Collecting? && f !in ss[i].orch.handled && ss[i].up[f] != [] ==> ss[i].up[f] == [ss[i].orch.p]
  {
    RunInv(n, ss, acts, i);
    assert FragOk(ss[i], f);
  }
}
