/** The calls that do not succeed: streams that hold no whole message, failures, and time limits. */
module FramingCodes {
  import opened Basics
  import opened Framing
  import opened FramingStreams

  // -------------------------------------------------------------- no whole message

  ghost predicate BadLength(b: Bounds, s: seq<Byte>) {
    |s| >= 2 && (Length(s) < b.min || Length(s) > b.max)
  }

  ghost predicate Peeked(script: seq<Tick>) {
    exists i :: OfferAt(script, i, 2)
  }

  lemma PeekedFirst(script: seq<Tick>)
    requires script != []
    ensures Peeked(script) <==> Offer(script[0].event) >= 2 || Peeked(script[1..])
  {
    if Peeked(script) {
      var i :| OfferAt(script, i, 2);
      if i > 0 {
        assert OfferAt(script[1..], i - 1, 2);
      }
    }
    if Offer(script[0].event) >= 2 {
      assert OfferAt(script, 0, 2);
    } else if Peeked(script[1..]) {
      var i :| OfferAt(script[1..], i, 2);
      assert OfferAt(script, i + 1, 2);
    }
  }

  /** Without failure, a turn finds a bad length when it sees two bytes, and otherwise the loop goes on. */
  lemma TurnNotWhole(m: Mode, b: Bounds, s: seq<Byte>, p: Phase, shown: nat, e: Event)
    requires Proper(b) && !Whole(b, s) && PhaseOk(m, b, s, p) && !m.TryOnce? && !e.Fail? && !e.Closed?
    ensures var t := RecvTurn(m, b, s, p, shown, e);
            if BadLength(b, s) then
              p.Sizing? && (if Offer(e) >= 2 then t.Stop? && t.end.code == Some(Malformed) else t.Go? && t.phase.Sizing?)
            else t.Go? && PhaseOk(m, b, s, t.phase)
  {
    match p
    case Sizing =>
    case Peeking(_) =>
    case Reading(_, _) =>
  }

  lemma {:induction false} LoopNotWhole(m: Mode, b: Bounds, s: seq<Byte>, p: Phase, shown: nat, elapsed: nat, script: seq<Tick>)
    requires Proper(b) && !Whole(b, s) && PhaseOk(m, b, s, p) && !m.TryOnce?
    requires Clean(script) && InTime(m, script) && !Expired(m, elapsed)
    ensures RecvLoop(m, b, s, p, shown, elapsed, script).code
         == if BadLength(b, s) && Peeked(script) then Some(Malformed) else None
    decreases |script|
  {
    if script != [] {
      assert script[0] in script;
      TurnNotWhole(m, b, s, p, shown, script[0].event);
      PeekedFirst(script);
      LoopTurn(m, b, s, p, shown, elapsed, script);
      var t := RecvTurn(m, b, s, p, shown, script[0].event);
      if t.Go? {
        LoopNotWhole(m, b, s, t.phase, t.shown, script[0].elapsed, script[1..]);
      }
    }
  }

  /** Without a whole message ahead, and without failure, a blocking or timed receive does not return
      before its limit, except that it reports a bad length once it has seen two bytes. */
  lemma RecvNotWhole(flags: Flags, m: Mode, b: Bounds, s: seq<Byte>, script: seq<Tick>)
    requires Proper(b) && !Whole(b, s) && !m.TryOnce? && (flags == NonblockingFd || (flags == BlockingFd && m.Blocking?))
    requires Clean(script) && InTime(m, script)
    ensures Recv(flags, m, b, s, script).code
         == if |s| >= 2 && (Length(s) < b.min || Length(s) > b.max) && (exists i :: OfferAt(script, i, 2)) then Some(Malformed) else None
  {
    LoopNotWhole(m, b, s, Sizing, 0, 0, script);
  }

  // ---------------------------------------------------------------------- failures

  /** A loop that has returned takes no notice of later answers; one still running ends at a failure. */
  lemma {:induction false} LoopDecided(m: Mode, b: Bounds, s: seq<Byte>, p: Phase, shown: nat, elapsed: nat, script: seq<Tick>, k: nat)
    requires k <= |script|
    ensures var whole, part := RecvLoop(m, b, s, p, shown, elapsed, script), RecvLoop(m, b, s, p, shown, elapsed, script[..k]);
            && (part.code.Some? ==> whole == part)
            && (part.code == None && k < |script| && (script[k].event.Fail? || script[k].event.Closed?) ==> whole == part.(code := Some(Broken)))
    decreases k
  {
    if !Expired(m, elapsed) && k > 0 {
      assert script[..k][1..] == script[1..][..k - 1];
      LoopTurn(m, b, s, p, shown, elapsed, script);
      LoopTurn(m, b, s, p, shown, elapsed, script[..k]);
      var t := RecvTurn(m, b, s, p, shown, script[0].event);
      if t.Go? {
        LoopDecided(m, b, s, t.phase, t.shown, script[0].elapsed, script[1..], k - 1);
      }
    }
  }

  /** The first error or shutdown that a receive meets ends it as a broken connection, with what was taken
      before; answers after its return do not matter. */
  lemma RecvBreaks(flags: Flags, m: Mode, b: Bounds, s: seq<Byte>, script: seq<Tick>, k: nat)
    requires k < |script|
    ensures var whole, part := Recv(flags, m, b, s, script), Recv(flags, m, b, s, script[..k]);
            && (part.code.Some? ==> whole == part)
            && (part.code == None && (script[k].event.Fail? || script[k].event.Closed?) ==> whole == part.(code := Some(Broken)))
  {
    LoopDecided(m, b, s, Sizing, 0, 0, script, k);
  }

  lemma {:induction false} SendLoopDecided(m: Mode, len: nat, off: nat, elapsed: nat, script: seq<Tick>, i: nat, k: nat)
    requires off <= len && i <= k < |script|
    ensures var whole, part := SendLoop(m, len, off, elapsed, script, i), SendLoop(m, len, off, elapsed, script[..k], i);
            && (part.0.Some? ==> whole == part)
            && (part.0 == None && script[k].event.Fail? ==> whole == (Some(Broken), part.1))
    decreases k - i
  {
    if off < len && !Expired(m, elapsed) && i < k && !script[i].event.Fail? {
      SendLoopDecided(m, len, off + Min(Offer(script[i].event), len - off), script[i].elapsed, script, i + 1, k);
    }
  }

  /** The first error that a send meets ends it as a broken connection, with what was sent before. */
  lemma SendBreaks(flags: Flags, m: Mode, b: Bounds, buffer: seq<Byte>, script: seq<Tick>, k: nat)
    requires Holds(b, buffer) && k < |script|
    ensures var whole, part := Send(flags, m, b, buffer, script), Send(flags, m, b, buffer, script[..k]);
            && (part.code.Some? ==> whole == part)
            && (part.code == None && script[k].event.Fail? ==> whole == part.(code := Some(Broken)))
  {
    if b.min <= Length(buffer) <= b.max {
      SendLoopDecided(m, Length(buffer), 0, 0, script, 0, k);
    }
  }

  // ------------------------------------------------------------------- time limits

  ghost predicate LateAt(script: seq<Tick>, i: int, ms: nat) {
    0 <= i < |script| && script[i].elapsed >= ms
  }

  /** The clock was read at or after the limit. */
  ghost predicate Late(script: seq<Tick>, ms: nat) {
    exists i :: LateAt(script, i, ms)
  }

  lemma LateFirst(script: seq<Tick>, ms: nat)
    requires script != []
    ensures Late(script, ms) <==> script[0].elapsed >= ms || Late(script[1..], ms)
  {
    if Late(script, ms) {
      var i :| LateAt(script, i, ms);
      if i > 0 {
        assert LateAt(script[1..], i - 1, ms);
      }
    }
    if script[0].elapsed >= ms {
      assert LateAt(script, 0, ms);
    } else if Late(script[1..], ms) {
      var i :| LateAt(script[1..], i, ms);
      assert LateAt(script, i + 1, ms);
    }
  }

  lemma {:induction false} LoopTimesOut(ms: nat, b: Bounds, s: seq<Byte>, p: Phase, shown: nat, elapsed: nat, script: seq<Tick>)
    ensures var r := RecvLoop(Timeout(ms), b, s, p, shown, elapsed, script);
            && (elapsed >= ms || Late(script, ms) ==> r.code.Some?)
            && (r.code == Some(WaitTimeout) || r.code == Some(ZeroPending) ==> elapsed >= ms || Late(script, ms))
    decreases |script|
  {
    if elapsed < ms && script != [] {
      LateFirst(script, ms);
      LoopTurn(Timeout(ms), b, s, p, shown, elapsed, script);
      var t := RecvTurn(Timeout(ms), b, s, p, shown, script[0].event);
      if t.Go? {
        LoopTimesOut(ms, b, s, t.phase, t.shown, script[0].elapsed, script[1..]);
      }
    }
  }

  /** A timed receive has returned once the clock shows its limit, reports a time-out never before, and
      with the limit 0 makes no system call. */
  lemma RecvTimesOut(ms: nat, b: Bounds, s: seq<Byte>, script: seq<Tick>)
    ensures var r := Recv(NonblockingFd, Timeout(ms), b, s, script);
            && (ms == 0 ==> r == Received(Some(ZeroPending), 0, 0))
            && ((exists i :: 0 <= i < |script| && script[i].elapsed >= ms) ==> r.code.Some?)
            && (r.code == Some(WaitTimeout) || r.code == Some(ZeroPending) ==>
                  ms == 0 || exists i :: 0 <= i < |script| && script[i].elapsed >= ms)
  {
    LoopTimesOut(ms, b, s, Sizing, 0, 0, script);
    if i :| 0 <= i < |script| && script[i].elapsed >= ms {
      assert LateAt(script, i, ms);
    }
  }

  lemma {:induction false} SendLoopTimesOut(ms: nat, len: nat, off: nat, elapsed: nat, script: seq<Tick>, i: nat)
    requires off <= len && i <= |script|
    ensures var r := SendLoop(Timeout(ms), len, off, elapsed, script, i);
            && (elapsed >= ms || (exists k :: i <= k && LateAt(script, k, ms)) ==> r.0.Some?)
            && (r.0 == Some(SendTimeout) ==> elapsed >= ms || exists k :: i <= k && LateAt(script, k, ms))
    decreases |script| - i
  {
    if off < len && elapsed < ms && i < |script| && !script[i].event.Fail? {
      SendLoopTimesOut(ms, len, off + Min(Offer(script[i].event), len - off), script[i].elapsed, script, i + 1);
      assert script[i].elapsed >= ms ==> LateAt(script, i, ms);
    }
  }

  /** A timed send has returned once the clock shows its limit, and reports a time-out never before. */
  lemma SendTimesOut(ms: nat, b: Bounds, buffer: seq<Byte>, script: seq<Tick>)
    requires Proper(b) && Whole(b, buffer)
    ensures var r := Send(NonblockingFd, Timeout(ms), b, buffer, script);
            && (ms == 0 ==> r == Sent(Some(SendTimeout), []))
            && ((exists i :: 0 <= i < |script| && script[i].elapsed >= ms) ==> r.code.Some?)
            && (r.code == Some(SendTimeout) ==> ms == 0 || exists i :: 0 <= i < |script| && script[i].elapsed >= ms)
  {
    SendLoopTimesOut(ms, Length(buffer), 0, 0, script, 0);
    if i :| 0 <= i < |script| && script[i].elapsed >= ms {
      assert LateAt(script, i, ms);
    }
  }
}
