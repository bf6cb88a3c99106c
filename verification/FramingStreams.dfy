/** Sequences of sends and receives over one connection: the messages that come out are the messages
    that went in. */
module FramingStreams {
  import opened Basics
  import opened Framing

  // ----------------------------------------------------------------------- sending

  /** What a send came to: its code (None while the loop still runs) and the bytes it put on the stream. */
  datatype Sent = Sent(code: Option<Code>, out: seq<Byte>)

  /** The loop from turn `i` on, with `off` of `len` bytes out: its code, and how many are out at its end. */
  function SendLoop(m: Mode, len: nat, off: nat, elapsed: nat, script: seq<Tick>, i: nat): (r: (Option<Code>, nat))
    requires off <= len && i <= |script|
    decreases |script| - i
  {
    if off == len then (Some(Success), off)
    else if Expired(m, elapsed) then (Some(SendTimeout), off)
    else if i == |script| then (None, off)
    else if script[i].event.Fail? then (Some(Broken), off)
    else SendLoop(m, len, off + Min(Offer(script[i].event), len - off), script[i].elapsed, script, i + 1)
  }

  /** A buffer that holds at least the message its length field announces. */
  ghost predicate Holds(b: Bounds, buffer: seq<Byte>) {
    |buffer| >= 2 && (b.min <= Length(buffer) <= b.max ==> Length(buffer) <= |buffer|)
  }

  function Send(flags: Flags, m: Mode, b: Bounds, buffer: seq<Byte>, script: seq<Tick>): (r: Sent)
    requires Holds(b, buffer)
  {
    if Validate(flags, m, true) != Success then Sent(Some(Validate(flags, m, true)), [])
    else if Length(buffer) < b.min || Length(buffer) > b.max then Sent(Some(Malformed), [])
    else
      var r := SendLoop(m, Length(buffer), 0, 0, script, 0);
      if r.1 <= |buffer| then Sent(r.0, buffer[..r.1]) else Sent(r.0, buffer)
  }

  lemma {:induction false} SendLoopMeaning(m: Mode, len: nat, off: nat, elapsed: nat, script: seq<Tick>, i: nat)
    requires off <= len && i <= |script|
    ensures var r := SendLoop(m, len, off, elapsed, script, i);
            && off <= r.1 <= len
            && (r.0 == Some(Success) <==> r.1 == len)
            && (r.0 == Some(SendTimeout) ==> m.Timeout?)
            && (r.0.Some? ==> r.0.value in {Success, SendTimeout, Broken})
    decreases |script| - i
  {
    if off < len && !Expired(m, elapsed) && i < |script| && !script[i].event.Fail? {
      SendLoopMeaning(m, len, off + Min(Offer(script[i].event), len - off), script[i].elapsed, script, i + 1);
    }
  }

  /** A send puts a prefix of its message on the stream, and the whole of it exactly when it succeeds. */
  lemma SendMeaning(flags: Flags, m: Mode, b: Bounds, buffer: seq<Byte>, script: seq<Tick>)
    requires Proper(b) && Holds(b, buffer)
    ensures var r := Send(flags, m, b, buffer, script);
            && r.out <= buffer
            && (r.code == Some(Success) <==> Whole(b, buffer) && r.out == buffer[..Length(buffer)])
            && (Whole(b, buffer) ==> r.out <= buffer[..Length(buffer)])
            && (r.code == Some(SendTimeout) ==> m.Timeout?)
            && (r.code == Some(Malformed) <==>
                  && ((flags == NonblockingFd && !m.TryOnce?) || (flags == BlockingFd && m.Blocking?))
                  && (Length(buffer) < b.min || Length(buffer) > b.max))
            && (r.code == Some(Malformed) ==> r.out == [])
  {
    if Whole(b, buffer) {
      SendLoopMeaning(m, Length(buffer), 0, 0, script, 0);
    }
  }

  /** Which sends a socket refuses, and with which code. */
  lemma SendRefused(flags: Flags, m: Mode, b: Bounds, buffer: seq<Byte>, script: seq<Tick>)
    requires Proper(b) && Holds(b, buffer)
    ensures var r := Send(flags, m, b, buffer, script);
            && (r.code == Some(BadOperation) <==> (flags == BlockingFd && !m.Blocking?) || (flags != Unreadable && m.TryOnce?))
            && (r.code == Some(OptionsFailed) <==> flags == Unreadable)
            && (r.code == Some(BadOperation) || r.code == Some(OptionsFailed) ==> r.out == [])
  {
    if b.min <= Length(buffer) <= b.max {
      SendLoopMeaning(m, Length(buffer), 0, 0, script, 0);
    }
  }

  lemma {:induction false} SendLoopExact(m: Mode, len: nat, off: nat, elapsed: nat, script: seq<Tick>, i: nat)
    requires off <= len && i <= |script| && Clean(script) && InTime(m, script) && !Expired(m, elapsed)
    ensures SendLoop(m, len, off, elapsed, script, i).0 == if Offered(script[i..]) >= len - off then Some(Success) else None
    decreases |script| - i
  {
    if off < len && i < |script| {
      assert script[i] in script && script[i..][1..] == script[i + 1..];
      SendLoopExact(m, len, off + Min(Offer(script[i].event), len - off), script[i].elapsed, script, i + 1);
    }
  }

  /** Without failure and within its time limit a send succeeds exactly when the system has offered to
      take as many bytes as the message has. */
  lemma SendExact(flags: Flags, m: Mode, b: Bounds, buffer: seq<Byte>, script: seq<Tick>)
    requires Whole(b, buffer) && !m.TryOnce? && (flags == NonblockingFd || (flags == BlockingFd && m.Blocking?))
    requires Clean(script) && InTime(m, script)
    ensures Send(flags, m, b, buffer, script).code == if Offered(script) >= Length(buffer) then Some(Success) else None
  {
    SendLoopExact(m, Length(buffer), 0, 0, script, 0);
    assert script[0..] == script;
  }

  // --------------------------------------------------------------------- the stream

  /** A message of legal length, and nothing after it. */
  ghost predicate Framed(b: Bounds, msg: seq<Byte>) {
    Whole(b, msg) && |msg| == Length(msg)
  }

  ghost function Concat(msgs: seq<seq<Byte>>): seq<Byte> {
    if msgs == [] then [] else msgs[0] + Concat(msgs[1..])
  }

  /** What a send that did not succeed may leave behind. */
  ghost predicate Partial(b: Bounds, tail: seq<Byte>) {
    |tail| >= 2 ==> b.min <= Length(tail) <= b.max && |tail| < Length(tail)
  }

  /** Whole messages and then at most part of one. */
  ghost predicate OnBoundary(b: Bounds, s: seq<Byte>, msgs: seq<seq<Byte>>, tail: seq<Byte>) {
    (forall i | 0 <= i < |msgs| :: Framed(b, msgs[i])) && Partial(b, tail) && s == Concat(msgs) + tail
  }

  // ------------------------------------------------------------- many sends, in order

  datatype SendCall = SendCall(mode: Mode, buffer: seq<Byte>, script: seq<Tick>)

  ghost predicate CallsHold(b: Bounds, calls: seq<SendCall>) {
    forall i | 0 <= i < |calls| :: Holds(b, calls[i].buffer)
  }

  /** The bytes that a series of sends puts on the stream; a send that ends after putting out part of a
      message, or that does not end, is the last. */
  ghost function SendAll(flags: Flags, b: Bounds, calls: seq<SendCall>): seq<Byte>
    requires CallsHold(b, calls)
  {
    if calls == [] then []
    else
      var r := Send(flags, calls[0].mode, b, calls[0].buffer, calls[0].script);
      if r.code == Some(Success) || r.out == [] then r.out + SendAll(flags, b, calls[1..]) else r.out
  }

  /** The messages whose sends succeeded before the first that got stuck part-way. */
  ghost function Accepted(flags: Flags, b: Bounds, calls: seq<SendCall>): seq<seq<Byte>>
    requires CallsHold(b, calls)
  {
    if calls == [] then []
    else
      var r := Send(flags, calls[0].mode, b, calls[0].buffer, calls[0].script);
      if r.code == Some(Success) then [calls[0].buffer[..Length(calls[0].buffer)]] + Accepted(flags, b, calls[1..])
      else if r.out == [] then Accepted(flags, b, calls[1..])
      else []
  }

  lemma PrefixIsPartial(b: Bounds, msg: seq<Byte>, out: seq<Byte>)
    requires Framed(b, msg) && out <= msg && out != msg
    ensures Partial(b, out)
  {
  }

  lemma Prepend(b: Bounds, msg: seq<Byte>, s: seq<Byte>, msgs: seq<seq<Byte>>, tail: seq<Byte>)
    requires Framed(b, msg) && OnBoundary(b, s, msgs, tail)
    ensures OnBoundary(b, msg + s, [msg] + msgs, tail)
  {
    assert ([msg] + msgs)[1..] == msgs;
    assert msg + (Concat(msgs) + tail) == msg + Concat(msgs) + tail;
  }

  /** Any series of sends leaves the accepted messages on the stream, whole and in order, and then at
      most part of one message. */
  lemma {:induction false} SendsFrame(flags: Flags, b: Bounds, calls: seq<SendCall>) returns (tail: seq<Byte>)
    requires Proper(b) && CallsHold(b, calls)
    ensures OnBoundary(b, SendAll(flags, b, calls), Accepted(flags, b, calls), tail)
  {
    if calls == [] {
      tail := [];
    } else {
      var r := Send(flags, calls[0].mode, b, calls[0].buffer, calls[0].script);
      SendMeaning(flags, calls[0].mode, b, calls[0].buffer, calls[0].script);
      if r.code == Some(Success) {
        var msg := calls[0].buffer[..Length(calls[0].buffer)];
        tail := SendsFrame(flags, b, calls[1..]);
        var rest := Accepted(flags, b, calls[1..]);
        Prepend(b, msg, SendAll(flags, b, calls[1..]), rest, tail);
      } else if r.out == [] {
        tail := SendsFrame(flags, b, calls[1..]);
        assert r.out + SendAll(flags, b, calls[1..]) == SendAll(flags, b, calls[1..]);
      } else {
        tail := r.out;
        PrefixIsPartial(b, calls[0].buffer[..Length(calls[0].buffer)], tail);
      }
    }
  }

  // ---------------------------------------------------------- many receives, in order

  datatype RecvCall = RecvCall(mode: Mode, script: seq<Tick>)

  /** What a series of receives returned: the messages, the code of the last call, the bytes taken. */
  datatype Session = Session(messages: seq<seq<Byte>>, last: Option<Code>, used: nat)

  /** Codes after which a caller goes on using the connection. */
  ghost predicate GoesOn(code: Option<Code>) {
    code.Some? && code.value in {Success, ZeroPending, BadOperation, OptionsFailed}
  }

  /** One call after another, in any modes, until one breaks off. */
  ghost function RecvAll(flags: Flags, b: Bounds, s: seq<Byte>, calls: seq<RecvCall>): Session {
    if calls == [] then Session([], Some(ZeroPending), 0)
    else
      var r := Recv(flags, calls[0].mode, b, s, calls[0].script);
      if !GoesOn(r.code) || r.used > |s| then Session([], r.code, r.used)
      else
        var rest := RecvAll(flags, b, s[r.used..], calls[1..]);
        Session((if r.code == Some(Success) then [s[..r.used]] else []) + rest.messages, rest.last, r.used + rest.used)
  }

  /** On a boundary the length field is that of the next message, or of the part of one at the end. */
  lemma FrontOfStream(b: Bounds, s: seq<Byte>, msgs: seq<seq<Byte>>, tail: seq<Byte>)
    requires Proper(b) && OnBoundary(b, s, msgs, tail)
    ensures msgs != [] ==> Whole(b, s) && Length(s) == |msgs[0]| && s[..Length(s)] == msgs[0]
    ensures msgs != [] ==> OnBoundary(b, s[|msgs[0]|..], msgs[1..], tail)
    ensures msgs == [] ==> s == tail && !Whole(b, s)
  {
    if msgs != [] {
      assert Framed(b, msgs[0]);
      assert s == msgs[0] + (Concat(msgs[1..]) + tail);
    } else {
      assert s == tail;
    }
  }

  /** One receive on a boundary: success returns the next message; no call finds it malformed; and unless
      the call breaks off part-way the stream is on a boundary again. */
  lemma RecvOnBoundary(flags: Flags, m: Mode, b: Bounds, s: seq<Byte>, script: seq<Tick>, msgs: seq<seq<Byte>>, tail: seq<Byte>)
    requires Proper(b) && OnBoundary(b, s, msgs, tail)
    ensures var r := Recv(flags, m, b, s, script);
            && r.code != Some(Malformed)
            && (r.code == Some(Success) ==>
                  msgs != [] && r.used == |msgs[0]| <= |s| && s[..r.used] == msgs[0] && OnBoundary(b, s[r.used..], msgs[1..], tail))
            && (GoesOn(r.code) && r.code != Some(Success) ==> r.used == 0)
            && (r.used <= if msgs == [] then |tail| else |msgs[0]|)
  {
    RecvMeaning(flags, m, b, s, script);
    FrontOfStream(b, s, msgs, tail);
  }

  lemma SliceOfSlice<T>(s: seq<T>, i: nat, j: nat)
    requires i + j <= |s|
    ensures s[i..][j..] == s[i + j..]
  {
  }

  lemma LongerPrefix<T>(all: seq<T>, more: seq<T>)
    requires all != [] && more <= all[1..]
    ensures [all[0]] + more <= all
  {
    assert all == [all[0]] + all[1..];
  }

  lemma ConcatCons(msg: seq<Byte>, more: seq<seq<Byte>>)
    ensures Concat([msg] + more) == msg + Concat(more)
  {
    assert ([msg] + more)[1..] == more;
  }

  /** Taking one message and then `more` is taking them all. */
  lemma AfterFirst(s: seq<Byte>, msgs: seq<seq<Byte>>, used: nat, more: seq<seq<Byte>>, usedMore: nat)
    requires msgs != [] && more <= msgs[1..] && used + usedMore <= |s|
    ensures [msgs[0]] + more <= msgs
    ensures Concat([msgs[0]] + more) == msgs[0] + Concat(more)
    ensures msgs[1..][|more|..] == msgs[1 + |more|..]
    ensures s[used..][usedMore..] == s[used + usedMore..]
  {
    assert [msgs[0]] + more <= msgs by { LongerPrefix(msgs, more); }
    assert Concat([msgs[0]] + more) == msgs[0] + Concat(more) by { ConcatCons(msgs[0], more); }
    assert msgs[1..][|more|..] == msgs[1 + |more|..] by { SliceOfSlice(msgs, 1, |more|); }
    assert s[used..][usedMore..] == s[used + usedMore..] by { SliceOfSlice(s, used, usedMore); }
  }

  /** The messages received are the first of those sent, in order; the bytes taken are theirs; and the
      stream is left on a message boundary unless the last call broke off. */
  ghost predicate Faithful(b: Bounds, s: seq<Byte>, o: Session, msgs: seq<seq<Byte>>, tail: seq<Byte>) {
    && o.messages <= msgs
    && o.last != Some(Malformed)
    && o.used <= |s|
    && (GoesOn(o.last) ==> o.used == |Concat(o.messages)| && OnBoundary(b, s[o.used..], msgs[|o.messages|..], tail))
  }

  lemma OneMore(b: Bounds, s: seq<Byte>, rest: Session, msgs: seq<seq<Byte>>, tail: seq<Byte>)
    requires msgs != [] && |msgs[0]| <= |s| && Faithful(b, s[|msgs[0]|..], rest, msgs[1..], tail)
    ensures Faithful(b, s, Session([msgs[0]] + rest.messages, rest.last, |msgs[0]| + rest.used), msgs, tail)
  {
    AfterFirst(s, msgs, |msgs[0]|, rest.messages, rest.used);
  }

  /** A call that breaks off ends the session, part-way into a message. */
  lemma SessionBreaksOff(flags: Flags, b: Bounds, s: seq<Byte>, calls: seq<RecvCall>, msgs: seq<seq<Byte>>, tail: seq<Byte>)
    requires Proper(b) && OnBoundary(b, s, msgs, tail) && calls != []
    requires !GoesOn(Recv(flags, calls[0].mode, b, s, calls[0].script).code)
    ensures Faithful(b, s, RecvAll(flags, b, s, calls), msgs, tail)
  {
    var r := Recv(flags, calls[0].mode, b, s, calls[0].script);
    assert r.code != Some(Malformed) && r.used <= |s| by {
      RecvOnBoundary(flags, calls[0].mode, b, s, calls[0].script, msgs, tail);
      FrontOfStream(b, s, msgs, tail);
    }
    assert RecvAll(flags, b, s, calls) == Session([], r.code, r.used);
  }

  /** A call that takes nothing leaves the rest of the session to do it all. */
  lemma SessionIdles(flags: Flags, b: Bounds, s: seq<Byte>, calls: seq<RecvCall>)
    requires calls != []
    requires var r := Recv(flags, calls[0].mode, b, s, calls[0].script); GoesOn(r.code) && r.code != Some(Success) && r.used == 0
    ensures RecvAll(flags, b, s, calls) == RecvAll(flags, b, s, calls[1..])
  {
    assert s[0..] == s;
    var rest := RecvAll(flags, b, s, calls[1..]);
    assert [] + rest.messages == rest.messages;
  }

  /** A call that succeeds puts its message before those of the rest. */
  lemma SessionTakes(flags: Flags, b: Bounds, s: seq<Byte>, calls: seq<RecvCall>, msg: seq<Byte>)
    requires calls != []
    requires var r := Recv(flags, calls[0].mode, b, s, calls[0].script);
             r.code == Some(Success) && r.used == |msg| <= |s| && s[..r.used] == msg
    ensures var rest := RecvAll(flags, b, s[|msg|..], calls[1..]);
            RecvAll(flags, b, s, calls) == Session([msg] + rest.messages, rest.last, |msg| + rest.used)
  {
  }

  /** Any series of receives on a stream of whole messages. */
  lemma {:induction false} SessionRoundTrip(flags: Flags, b: Bounds, s: seq<Byte>, calls: seq<RecvCall>, msgs: seq<seq<Byte>>, tail: seq<Byte>)
    requires Proper(b) && OnBoundary(b, s, msgs, tail)
    ensures Faithful(b, s, RecvAll(flags, b, s, calls), msgs, tail)
    decreases |calls|
  {
    if calls == [] {
      assert RecvAll(flags, b, s, calls) == Session([], Some(ZeroPending), 0);
      assert s[0..] == s && msgs[0..] == msgs;
    } else {
      var r := Recv(flags, calls[0].mode, b, s, calls[0].script);
      RecvOnBoundary(flags, calls[0].mode, b, s, calls[0].script, msgs, tail);
      if !GoesOn(r.code) {
        SessionBreaksOff(flags, b, s, calls, msgs, tail);
      } else if r.code == Some(Success) {
        SessionRoundTrip(flags, b, s[r.used..], calls[1..], msgs[1..], tail);
        SessionTakes(flags, b, s, calls, msgs[0]);
        OneMore(b, s, RecvAll(flags, b, s[r.used..], calls[1..]), msgs, tail);
      } else {
        SessionRoundTrip(flags, b, s, calls[1..], msgs, tail);
        SessionIdles(flags, b, s, calls);
      }
    }
  }

  /** Send any series of buffers over a connection, in any modes, and receive from it, in any modes: what
      comes out is, in order, the first of what was accepted; and if every byte was taken without a call
      breaking off, it is all of it. */
  lemma EndToEnd(txFlags: Flags, rxFlags: Flags, b: Bounds, sends: seq<SendCall>, recvs: seq<RecvCall>)
    requires Proper(b) && CallsHold(b, sends)
    ensures var s, sent := SendAll(txFlags, b, sends), Accepted(txFlags, b, sends);
            var o := RecvAll(rxFlags, b, s, recvs);
            && o.messages <= sent
            && o.last != Some(Malformed)
            && (GoesOn(o.last) && o.used == |s| ==> o.messages == sent)
  {
    var s, sent := SendAll(txFlags, b, sends), Accepted(txFlags, b, sends);
    var tail := SendsFrame(txFlags, b, sends);
    SessionRoundTrip(rxFlags, b, s, recvs, sent, tail);
    var o := RecvAll(rxFlags, b, s, recvs);
    if GoesOn(o.last) && o.used == |s| && |o.messages| < |sent| {
      FrontOfStream(b, s[o.used..], sent[|o.messages|..], tail);
    }
  }

  // ------------------------------------------------------------------ draining a link

  /** Try-once receives, the `i`-th and those after it, from position `pos` until one does not succeed:
      the last code (None when the scripts give out first) and the position reached. */
  function Drain(flags: Flags, b: Bounds, s: seq<Byte>, pos: nat, scripts: seq<seq<Tick>>, i: nat): (r: (Option<Code>, nat))
    requires pos <= |s| && i <= |scripts|
    decreases |scripts| - i
  {
    if i == |scripts| then (None, pos)
    else
      var one := Recv(flags, TryOnce, b, s[pos..], scripts[i]);
      if one.code != Some(Success) || pos + one.used > |s| then (one.code, pos + one.used)
      else Drain(flags, b, s, pos + one.used, scripts, i + 1)
  }

  /** The drain has taken `lost` whole, from `pos`; if it ended in zero-pending, nothing more. */
  ghost predicate DrainOk(b: Bounds, s: seq<Byte>, pos: nat, d: (Option<Code>, nat), msgs: seq<seq<Byte>>, tail: seq<Byte>, lost: seq<seq<Byte>>) {
    && d.0 != Some(Malformed)
    && lost <= msgs && pos + |Concat(lost)| <= d.1 <= |s|
    && (d.0 == Some(ZeroPending) ==> d.1 == pos + |Concat(lost)| && OnBoundary(b, s[d.1..], msgs[|lost|..], tail))
  }

  lemma DrainOneMore(b: Bounds, s: seq<Byte>, pos: nat, d: (Option<Code>, nat), msgs: seq<seq<Byte>>, tail: seq<Byte>, more: seq<seq<Byte>>)
    requires msgs != [] && DrainOk(b, s, pos + |msgs[0]|, d, msgs[1..], tail, more)
    ensures DrainOk(b, s, pos, d, msgs, tail, [msgs[0]] + more)
  {
    AfterFirst(s, msgs, 0, more, 0);
  }

  /** The first receive of a drain does not succeed. */
  lemma DrainEnds(flags: Flags, b: Bounds, s: seq<Byte>, pos: nat, scripts: seq<seq<Tick>>, i: nat, msgs: seq<seq<Byte>>, tail: seq<Byte>)
    requires Proper(b) && pos <= |s| && i < |scripts| && OnBoundary(b, s[pos..], msgs, tail)
    requires Recv(flags, TryOnce, b, s[pos..], scripts[i]).code != Some(Success)
    ensures DrainOk(b, s, pos, Drain(flags, b, s, pos, scripts, i), msgs, tail, [])
  {
    var one := Recv(flags, TryOnce, b, s[pos..], scripts[i]);
    RecvOnBoundary(flags, TryOnce, b, s[pos..], scripts[i], msgs, tail);
    assert one.used <= |s[pos..]| by { FrontOfStream(b, s[pos..], msgs, tail); }
    assert Drain(flags, b, s, pos, scripts, i) == (one.code, pos + one.used);
    assert msgs[0..] == msgs;
  }

  /** A drain that ends in zero-pending has removed whole messages only, so that a later session on the
      same stream starts with the first message that was left. */
  lemma {:induction false} DrainKeepsBoundary(flags: Flags, b: Bounds, s: seq<Byte>, pos: nat, scripts: seq<seq<Tick>>, i: nat,
                                              msgs: seq<seq<Byte>>, tail: seq<Byte>) returns (lost: seq<seq<Byte>>)
    requires Proper(b) && pos <= |s| && i <= |scripts| && OnBoundary(b, s[pos..], msgs, tail)
    ensures DrainOk(b, s, pos, Drain(flags, b, s, pos, scripts, i), msgs, tail, lost)
    decreases |scripts| - i
  {
    lost := [];
    if i < |scripts| {
      var one := Recv(flags, TryOnce, b, s[pos..], scripts[i]);
      if one.code != Some(Success) {
        DrainEnds(flags, b, s, pos, scripts, i, msgs, tail);
      } else {
        RecvOnBoundary(flags, TryOnce, b, s[pos..], scripts[i], msgs, tail);
        assert s[pos..][one.used..] == s[pos + one.used..] by { SliceOfSlice(s, pos, one.used); }
        var more := DrainKeepsBoundary(flags, b, s, pos + one.used, scripts, i + 1, msgs[1..], tail);
        assert Drain(flags, b, s, pos, scripts, i) == Drain(flags, b, s, pos + one.used, scripts, i + 1);
        DrainOneMore(b, s, pos, Drain(flags, b, s, pos, scripts, i), msgs, tail, more);
        lost := [msgs[0]] + more;
      }
    }
  }

  /** Link down, drain, link up: the sessions before and after together return the sent messages in order,
      with exactly the drained ones missing. */
  lemma DrainThenSession(flags: Flags, b: Bounds, s: seq<Byte>, before: seq<RecvCall>, scripts: seq<seq<Tick>>, after: seq<RecvCall>,
                         msgs: seq<seq<Byte>>, tail: seq<Byte>) returns (lost: seq<seq<Byte>>)
    requires Proper(b) && OnBoundary(b, s, msgs, tail)
    ensures var o1 := RecvAll(flags, b, s, before);
            o1.used <= |s| &&
            var d := Drain(flags, b, s, o1.used, scripts, 0);
            GoesOn(o1.last) && d.0 == Some(ZeroPending) ==>
              d.1 <= |s| && var o2 := RecvAll(flags, b, s[d.1..], after);
              o1.messages + lost + o2.messages <= msgs && d.1 == o1.used + |Concat(lost)|
  {
    lost := [];
    var o1 := RecvAll(flags, b, s, before);
    SessionRoundTrip(flags, b, s, before, msgs, tail);
    var d := Drain(flags, b, s, o1.used, scripts, 0);
    if GoesOn(o1.last) {
      var left := msgs[|o1.messages|..];
      lost := DrainKeepsBoundary(flags, b, s, o1.used, scripts, 0, left, tail);
      if d.0 == Some(ZeroPending) {
        SessionRoundTrip(flags, b, s[d.1..], after, left[|lost|..], tail);
        ThreeParts(msgs, o1.messages, lost, RecvAll(flags, b, s[d.1..], after).messages);
      }
    }
  }

  lemma ThreeParts<T>(all: seq<T>, first: seq<T>, second: seq<T>, third: seq<T>)
    requires first <= all && second <= all[|first|..] && third <= all[|first|..][|second|..]
    ensures first + second + third <= all
  {
    assert all == first + (second + all[|first|..][|second|..]);
  }
}
