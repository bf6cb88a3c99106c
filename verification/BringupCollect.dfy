/** The collect loop of the orchestrator within the whole protocol: it ends a phase exactly when its
    verdict is that all have acknowledged. */
module BringupCollect {
  import opened Bringup
  import opened CollectAcks

  /** What may happen while the orchestrator collects: its own receives, and anything the fragments do. */
  predicate WhileCollecting(a: Action) {
    a.CollectFrom? || a.CollectFails? || a.Receive? || a.Acknowledge? || a.Crash?
  }

  ghost predicate IsCollect(n: nat, p: nat, ss: seq<State>, acts: seq<Action>) {
    && |ss| == |acts| + 1 && ss[0].orch == Collecting(p, {}, false)
    && (forall i {:trigger StepAt(n, ss, acts, i)} :: StepAt(n, ss, acts, i))
    && (forall i | 0 <= i < |acts| :: WhileCollecting(acts[i]))
  }

  /** The reply that a step handles, if any; it is good when the receive succeeds and it is of phase `p`.
      Which error a bad one reports is of no matter here. */
  ghost function Handled(p: nat, s: State, a: Action): seq<Entry> {
    match a
    case CollectFrom(f, ok) => [Entry(f, if ok && f < |s.up| && s.up[f] != [] && s.up[f][0] == p then Ok else Bad(0))]
    case CollectFails(f) => [Entry(f, Bad(0))]
    case _ => []
  }

  /** The replies handled by the first `k` steps, in order. */
  ghost function LogOf(p: nat, ss: seq<State>, acts: seq<Action>, k: nat): seq<Entry>
    requires k <= |acts| < |ss|
  {
    if k == 0 then [] else LogOf(p, ss, acts, k - 1) + Handled(p, ss[k - 1], acts[k - 1])
  }

  lemma AppendOne(n: nat, log: seq<Entry>, e: Entry)
    requires OnceEach(n, log) && e.index < n && e.index !in Indices(log)
    ensures OnceEach(n, log + [e]) && Indices(log + [e]) == Indices(log) + {e.index}
    ensures AllOk(log + [e]) <==> AllOk(log) && e.result.Ok?
  {
    IndexAdded(log, e);
    var more := log + [e];
    assert more[|log|] == e && forall k | 0 <= k < |log| :: more[k] == log[k];
  }

  /** In every interleaving the orchestrator's set of handled indices and its error flag are those of the
      log: each index once, and an error exactly if some reply was bad. */
  lemma {:induction false} CollectRun(n: nat, p: nat, ss: seq<State>, acts: seq<Action>, k: nat)
    requires IsCollect(n, p, ss, acts) && k <= |acts|
    ensures var log := LogOf(p, ss, acts, k);
            OnceEach(n, log) && ss[k].orch == Collecting(p, Indices(log), !AllOk(log))
  {
    if k == 0 {
      assert Indices([]) == {};
    } else {
      CollectRun(n, p, ss, acts, k - 1);
      assert StepAt(n, ss, acts, k - 1) && WhileCollecting(acts[k - 1]);
      CollectStep(n, p, ss[k - 1], acts[k - 1], ss[k], LogOf(p, ss, acts, k - 1));
    }
  }

  lemma CollectStep(n: nat, p: nat, s: State, a: Action, s': State, log: seq<Entry>)
    requires Step(n, s, a, s') && WhileCollecting(a) && OnceEach(n, log) && s.orch == Collecting(p, Indices(log), !AllOk(log))
    ensures var log' := log + Handled(p, s, a);
            OnceEach(n, log') && s'.orch == Collecting(p, Indices(log'), !AllOk(log'))
  {
    var e := Handled(p, s, a);
    if e == [] {
      assert log + e == log;
    } else {
      AppendOne(n, log, e[0]);
      assert e == [e[0]];
    }
  }

  /** The phase ends well, and the next begins, exactly when the log has the verdict "all acknowledged":
      one good reply of every index. */
  lemma VerdictDecides(n: nat, p: nat, ss: seq<State>, acts: seq<Action>, s': State)
    requires IsCollect(n, p, ss, acts) && Step(n, ss[|acts|], CollectOver, s')
    ensures var log := LogOf(p, ss, acts, |acts|);
            && (|log| == n && AllOk(log) <==> s'.orch == if p + 1 < PHASES then Sending(p + 1, 0, false) else Done(p))
            && (!(|log| == n && AllOk(log)) <==> s'.orch == Stopped(p))
  {
    var log := LogOf(p, ss, acts, |acts|);
    CollectRun(n, p, ss, acts, |acts|);
    IndexCount(n, log);
    if |log| == n {
      FullSet(n, Indices(log));
    } else {
      Missing(n, Indices(log));
    }
  }

  lemma {:induction false} Missing(n: nat, s: set<nat>)
    requires |s| < n
    ensures exists f: nat :: f < n && f !in s
    decreases n
  {
    if n - 1 in s {
      assert |s - {n - 1}| == |s| - 1;
      Missing(n - 1, s - {n - 1});
      var f: nat :| f < n - 1 && f !in s - {n - 1};
      assert f !in s;
    }
  }
}
