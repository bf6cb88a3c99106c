/** What sessions and drains must take when the system supplies it. */
module FramingDelivery {
  import opened Basics
  import opened Framing
  import opened FramingStreams

  /** The three calls of a try-once receive of `msg` are answered in full. */
  ghost predicate InFull(script: seq<Tick>, msg: seq<Byte>) {
    && |script| >= 3
    && Offer(script[0].event) >= 2 && Offer(script[1].event) >= |msg| && Offer(script[2].event) >= |msg|
  }

  /** The descriptor allows the call, and the system supplies `msg` within its time limit. */
  ghost predicate Supplied(flags: Flags, c: RecvCall, msg: seq<Byte>) {
    && (flags == NonblockingFd || (flags == BlockingFd && c.mode.Blocking?))
    && match c.mode
       case TryOnce => InFull(c.script, msg)
       case Blocking => Clean(c.script) && Supplies(c.script, [2], |msg|)
       case Timeout(_) => Clean(c.script) && InTime(c.mode, c.script) && Supplies(c.script, [2, |msg|], |msg|)
  }

  /** A receive that is supplied with the next message returns it. */
  lemma SuppliedReturns(flags: Flags, c: RecvCall, b: Bounds, s: seq<Byte>, msgs: seq<seq<Byte>>, tail: seq<Byte>)
    requires Proper(b) && OnBoundary(b, s, msgs, tail) && msgs != [] && Supplied(flags, c, msgs[0])
    ensures var r := Recv(flags, c.mode, b, s, c.script);
            && r.code == Some(Success) && r.used == |msgs[0]| <= |s| && s[..r.used] == msgs[0]
            && OnBoundary(b, s[r.used..], msgs[1..], tail)
  {
    FrontOfStream(b, s, msgs, tail);
    if c.mode.TryOnce? {
      TryOnceExact(b, s, c.script);
    } else {
      RecvExact(flags, c.mode, b, s, c.script);
    }
    RecvOnBoundary(flags, c.mode, b, s, c.script, msgs, tail);
  }

  // ---------------------------------------------------------------------- sessions

  /** Each call is supplied with the message of its number. */
  ghost predicate EachSupplied(flags: Flags, calls: seq<RecvCall>, msgs: seq<seq<Byte>>) {
    |calls| <= |msgs| && forall i | 0 <= i < |calls| :: Supplied(flags, calls[i], msgs[i])
  }

  lemma RestSupplied(flags: Flags, calls: seq<RecvCall>, msgs: seq<seq<Byte>>)
    requires EachSupplied(flags, calls, msgs) && calls != []
    ensures Supplied(flags, calls[0], msgs[0]) && EachSupplied(flags, calls[1..], msgs[1..])
    ensures msgs[..|calls|] == [msgs[0]] + msgs[1..][..|calls| - 1]
  {
  }

  /** A series of receives, each supplied with its message, returns those messages and stops behind them. */
  lemma {:induction false} SessionDelivers(flags: Flags, b: Bounds, s: seq<Byte>, calls: seq<RecvCall>, msgs: seq<seq<Byte>>, tail: seq<Byte>)
    requires Proper(b) && OnBoundary(b, s, msgs, tail) && EachSupplied(flags, calls, msgs)
    ensures var o := RecvAll(flags, b, s, calls);
            o.messages == msgs[..|calls|] && GoesOn(o.last) && o.used == |Concat(o.messages)|
    decreases |calls|
  {
    if calls != [] {
      RestSupplied(flags, calls, msgs);
      SuppliedReturns(flags, calls[0], b, s, msgs, tail);
      var left := s[|msgs[0]|..];
      SessionDelivers(flags, b, left, calls[1..], msgs[1..], tail);
      SessionTakes(flags, b, s, calls, msgs[0]);
      ConcatCons(msgs[0], RecvAll(flags, b, left, calls[1..]).messages);
    }
  }

  /** The descriptor allows the send, and the system takes the whole message within its time limit. */
  ghost predicate Taken(flags: Flags, b: Bounds, c: SendCall) {
    && Framed(b, c.buffer) && !c.mode.TryOnce? && (flags == NonblockingFd || (flags == BlockingFd && c.mode.Blocking?))
    && Clean(c.script) && InTime(c.mode, c.script) && Offered(c.script) >= |c.buffer|
  }

  ghost predicate AllTaken(flags: Flags, b: Bounds, calls: seq<SendCall>) {
    forall i | 0 <= i < |calls| :: Taken(flags, b, calls[i])
  }

  ghost function Buffers(calls: seq<SendCall>): seq<seq<Byte>> {
    seq(|calls|, i requires 0 <= i < |calls| => calls[i].buffer)
  }

  lemma {:induction false} SendsAccepted(flags: Flags, b: Bounds, calls: seq<SendCall>)
    requires Proper(b) && AllTaken(flags, b, calls)
    ensures CallsHold(b, calls) && Accepted(flags, b, calls) == Buffers(calls) && SendAll(flags, b, calls) == Concat(Buffers(calls))
    decreases |calls|
  {
    assert CallsHold(b, calls) by {
      forall i | 0 <= i < |calls| ensures Holds(b, calls[i].buffer) {
        assert Taken(flags, b, calls[i]);
      }
    }
    if calls != [] {
      var c := calls[0];
      assert Taken(flags, b, c);
      SendExact(flags, c.mode, b, c.buffer, c.script);
      SendMeaning(flags, c.mode, b, c.buffer, c.script);
      assert c.buffer[..Length(c.buffer)] == c.buffer;
      SendsAccepted(flags, b, calls[1..]);
      assert Buffers(calls) == [c.buffer] + Buffers(calls[1..]);
      ConcatCons(c.buffer, Buffers(calls[1..]));
    }
  }

  /** Where the system takes every message and supplies every receive, as many receives as sends return
      exactly the messages sent, in any modes. */
  lemma EverythingArrives(txFlags: Flags, rxFlags: Flags, b: Bounds, sends: seq<SendCall>, recvs: seq<RecvCall>)
    requires Proper(b) && AllTaken(txFlags, b, sends) && |recvs| == |sends|
    requires EachSupplied(rxFlags, recvs, Buffers(sends))
    ensures CallsHold(b, sends)
    ensures RecvAll(rxFlags, b, SendAll(txFlags, b, sends), recvs).messages == Buffers(sends)
  {
    var msgs := Buffers(sends);
    SendsAccepted(txFlags, b, sends);
    forall i | 0 <= i < |msgs| ensures Framed(b, msgs[i]) {
      assert Taken(txFlags, b, sends[i]);
    }
    assert Concat(msgs) == Concat(msgs) + [];
    SessionDelivers(rxFlags, b, Concat(msgs), recvs, msgs, []);
    assert msgs[..|recvs|] == msgs;
  }

  // ------------------------------------------------------------------------ drains

  lemma {:induction false} DrainForward(flags: Flags, b: Bounds, s: seq<Byte>, pos: nat, scripts: seq<seq<Tick>>, i: nat)
    requires pos <= |s| && i <= |scripts|
    ensures Drain(flags, b, s, pos, scripts, i).1 >= pos
    decreases |scripts| - i
  {
    if i < |scripts| {
      var one := Recv(flags, TryOnce, b, s[pos..], scripts[i]);
      if one.code == Some(Success) && pos + one.used <= |s| {
        DrainForward(flags, b, s, pos + one.used, scripts, i + 1);
      }
    }
  }

  /** Each of the `k` receives from the `i`-th on is answered in full for the message of its number. */
  ghost predicate EachInFull(scripts: seq<seq<Tick>>, i: nat, msgs: seq<seq<Byte>>, k: nat) {
    k <= |msgs| && i + k <= |scripts| && forall j {:trigger msgs[j]} | 0 <= j < k :: InFull(scripts[i + j], msgs[j])
  }

  lemma RestInFull(scripts: seq<seq<Tick>>, i: nat, msgs: seq<seq<Byte>>, k: nat)
    requires EachInFull(scripts, i, msgs, k) && k > 0
    ensures InFull(scripts[i], msgs[0]) && EachInFull(scripts, i + 1, msgs[1..], k - 1)
    ensures |Concat(msgs[..k])| == |msgs[0]| + |Concat(msgs[1..][..k - 1])|
  {
    assert InFull(scripts[i + 0], msgs[0]);
    forall j | 0 <= j < k - 1 ensures InFull(scripts[i + 1 + j], msgs[1..][j]) {
      assert msgs[1..][j] == msgs[j + 1] && InFull(scripts[i + (j + 1)], msgs[j + 1]);
    }
    assert msgs[..k] == [msgs[0]] + msgs[1..][..k - 1];
    ConcatCons(msgs[0], msgs[1..][..k - 1]);
  }

  /** One message of a drain. */
  lemma DrainOne(b: Bounds, s: seq<Byte>, pos: nat, scripts: seq<seq<Tick>>, i: nat, msgs: seq<seq<Byte>>, tail: seq<Byte>)
    requires Proper(b) && pos <= |s| && OnBoundary(b, s[pos..], msgs, tail) && msgs != [] && i < |scripts| && InFull(scripts[i], msgs[0])
    ensures var next := pos + |msgs[0]|;
            && next <= |s| && OnBoundary(b, s[next..], msgs[1..], tail)
            && Drain(NonblockingFd, b, s, pos, scripts, i) == Drain(NonblockingFd, b, s, next, scripts, i + 1)
  {
    SuppliedReturns(NonblockingFd, RecvCall(TryOnce, scripts[i]), b, s[pos..], msgs, tail);
    SliceOfSlice(s, pos, |msgs[0]|);
  }

  /** The same, message by message, with the number of bytes of the `k` messages. */
  ghost predicate InFullFrom(scripts: seq<seq<Tick>>, i: nat, msgs: seq<seq<Byte>>, k: nat, bytes: nat)
    decreases k
  {
    if k == 0 then i <= |scripts| && bytes == 0
    else
      && msgs != [] && i < |scripts| && InFull(scripts[i], msgs[0]) && |msgs[0]| <= bytes
      && InFullFrom(scripts, i + 1, msgs[1..], k - 1, bytes - |msgs[0]|)
  }

  lemma {:induction false} OneByOne(scripts: seq<seq<Tick>>, i: nat, msgs: seq<seq<Byte>>, k: nat)
    requires EachInFull(scripts, i, msgs, k)
    ensures InFullFrom(scripts, i, msgs, k, |Concat(msgs[..k])|)
    decreases k
  {
    if k > 0 {
      RestInFull(scripts, i, msgs, k);
      OneByOne(scripts, i + 1, msgs[1..], k - 1);
    } else {
      assert msgs[..0] == [];
    }
  }

  lemma {:induction false} DrainTakesOn(b: Bounds, s: seq<Byte>, pos: nat, scripts: seq<seq<Tick>>, i: nat, msgs: seq<seq<Byte>>, tail: seq<Byte>, k: nat, bytes: nat)
    requires Proper(b) && pos <= |s| && OnBoundary(b, s[pos..], msgs, tail) && InFullFrom(scripts, i, msgs, k, bytes)
    ensures Drain(NonblockingFd, b, s, pos, scripts, i).1 >= pos + bytes
    decreases k
  {
    if k > 0 {
      DrainOne(b, s, pos, scripts, i, msgs, tail);
      DrainTakesOn(b, s, pos + |msgs[0]|, scripts, i + 1, msgs[1..], tail, k - 1, bytes - |msgs[0]|);
    } else {
      DrainForward(NonblockingFd, b, s, pos, scripts, i);
    }
  }

  /** A drain takes every message for which its calls are answered in full. */
  lemma DrainTakes(b: Bounds, s: seq<Byte>, pos: nat, scripts: seq<seq<Tick>>, i: nat, msgs: seq<seq<Byte>>, tail: seq<Byte>, k: nat)
    requires Proper(b) && pos <= |s| && OnBoundary(b, s[pos..], msgs, tail) && EachInFull(scripts, i, msgs, k)
    ensures Drain(NonblockingFd, b, s, pos, scripts, i).1 >= pos + |Concat(msgs[..k])|
  {
    OneByOne(scripts, i, msgs, k);
    DrainTakesOn(b, s, pos, scripts, i, msgs, tail, k, |Concat(msgs[..k])|);
  }

  /** A drain that ends in zero-pending ended because a receive at its last position found nothing. */
  lemma {:induction false} DrainEndsEmpty(flags: Flags, b: Bounds, s: seq<Byte>, pos: nat, scripts: seq<seq<Tick>>, i: nat) returns (j: nat)
    requires Proper(b) && pos <= |s| && i <= |scripts|
    ensures var d := Drain(flags, b, s, pos, scripts, i);
            d.0 == Some(ZeroPending) ==>
              d.1 <= |s| && i <= j < |scripts| && Recv(flags, TryOnce, b, s[d.1..], scripts[j]).code == Some(ZeroPending)
    decreases |scripts| - i
  {
    j := i;
    if i < |scripts| {
      var one := Recv(flags, TryOnce, b, s[pos..], scripts[i]);
      RecvMeaning(flags, TryOnce, b, s[pos..], scripts[i]);
      if one.code == Some(Success) {
        j := DrainEndsEmpty(flags, b, s, pos + one.used, scripts, i + 1);
      }
    }
  }

  /** A try-once receive whose first call would block takes nothing. */
  lemma NothingPending(b: Bounds, s: seq<Byte>, script: seq<Tick>)
    requires BlocksAtOnce(script)
    ensures Recv(NonblockingFd, TryOnce, b, s, script) == Received(Some(ZeroPending), 0, 0)
  {
  }

  ghost predicate BlocksAtOnce(script: seq<Tick>) {
    script != [] && script[0].event.WouldBlock?
  }

  lemma {:induction false} DrainEmptiesOn(b: Bounds, s: seq<Byte>, pos: nat, scripts: seq<seq<Tick>>, i: nat, msgs: seq<seq<Byte>>, tail: seq<Byte>, k: nat, bytes: nat)
    requires Proper(b) && pos <= |s| && OnBoundary(b, s[pos..], msgs, tail) && InFullFrom(scripts, i, msgs, k, bytes)
    requires i + k < |scripts| && BlocksAtOnce(scripts[i + k])
    ensures Drain(NonblockingFd, b, s, pos, scripts, i) == (Some(ZeroPending), pos + bytes)
    decreases k
  {
    if k > 0 {
      DrainOne(b, s, pos, scripts, i, msgs, tail);
      DrainEmptiesOn(b, s, pos + |msgs[0]|, scripts, i + 1, msgs[1..], tail, k - 1, bytes - |msgs[0]|);
    } else {
      NothingPending(b, s[pos..], scripts[i]);
    }
  }

  /** A link goes down with `k` whole messages pending and then nothing: all are dropped, and no more. */
  lemma DrainEmpties(b: Bounds, s: seq<Byte>, pos: nat, scripts: seq<seq<Tick>>, msgs: seq<seq<Byte>>, tail: seq<Byte>, k: nat)
    requires Proper(b) && pos <= |s| && OnBoundary(b, s[pos..], msgs, tail) && EachInFull(scripts, 0, msgs, k)
    requires k < |scripts| && BlocksAtOnce(scripts[k])
    ensures Drain(NonblockingFd, b, s, pos, scripts, 0) == (Some(ZeroPending), pos + |Concat(msgs[..k])|)
  {
    var bytes := |Concat(msgs[..k])|;
    assert InFullFrom(scripts, 0, msgs, k, bytes) by { OneByOne(scripts, 0, msgs, k); }
    assert BlocksAtOnce(scripts[0 + k]);
    DrainEmptiesOn(b, s, pos, scripts, 0, msgs, tail, k, bytes);
  }
}
