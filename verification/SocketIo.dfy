/** The send and receive loops as they run, on a socket and the caller's buffer. */
module SocketIo {
  import opened Basics
  import opened Framing
  import opened FramingStreams

  /** Turn `i` is next in the given phase, and the call will come to `whole`. */
  ghost predicate RecvAgrees(m: Mode, b: Bounds, s: seq<Byte>, p: Phase, shown: nat, elapsed: nat, script: seq<Tick>, i: nat, whole: Received) {
    && i <= |script| && PhaseOk(m, b, s, p) && ShownOk(b, s, p, shown)
    && RecvLoop(m, b, s, p, shown, elapsed, script[i..]) == whole
  }

  lemma RecvAdvance(m: Mode, b: Bounds, s: seq<Byte>, p: Phase, shown: nat, elapsed: nat, script: seq<Tick>, i: nat, whole: Received)
    requires Proper(b) && RecvAgrees(m, b, s, p, shown, elapsed, script, i, whole)
    requires !Expired(m, elapsed) && i < |script|
    ensures match RecvTurn(m, b, s, p, shown, script[i].event)
            case Stop(end) => whole == end
            case Go(p', shown') => RecvAgrees(m, b, s, p', shown', script[i].elapsed, script, i + 1, whole)
  {
    assert script[i..][1..] == script[i + 1..];
    TurnMeaning(m, b, s, p, shown, script[i].event);
  }

  lemma RecvEnds(m: Mode, b: Bounds, s: seq<Byte>, p: Phase, shown: nat, elapsed: nat, script: seq<Tick>, i: nat, whole: Received)
    requires RecvAgrees(m, b, s, p, shown, elapsed, script, i, whole)
    requires Expired(m, elapsed) || i == |script|
    ensures whole == Received(if !Expired(m, elapsed) then None else Some(if p.Reading? then WaitTimeout else ZeroPending), Used(p), shown)
  {
  }

  /** The receive loop's variables: whether the next call peeks, whether consuming has begun, how many
      bytes to ask for, the decoded length (0 while unknown), and how far the buffer has advanced. */
  datatype Vars = Vars(peek: bool, started: bool, expected: nat, len: nat, off: nat)

  ghost predicate Tracks(m: Mode, p: Phase, v: Vars) {
    && (p == if v.len == 0 then Sizing else if v.peek then Peeking(v.len) else Reading(v.len, v.off))
    && v.expected == Want(p)
    && v.off == Used(p)
    && (v.len == 0 ==> v.peek)
    && (p.Reading? ==> v.off < v.len)
    && (v.started == if m.Blocking? then v.off > 0 else p.Reading?)
    && (m.Blocking? ==> !p.Peeking?)
    && (m.TryOnce? ==> v.off == 0)
  }

  /** The turn ended with `stop`, or went on with variables `v`; `used` bytes are taken and `shown` overwritten. */
  ghost predicate TurnIs(m: Mode, t: Turn, stop: Option<Code>, v: Vars, used: nat, shown: nat) {
    match t
    case Stop(end) => stop == end.code && stop.Some? && end.used == used && end.shown == shown
    case Go(p, shown') => stop == None && Tracks(m, p, v) && v.off == used && shown' == shown
  }

  /** What the loop does after a system call that moved `n` bytes, the first two bytes of the buffer reading `field`. */
  method Digest(m: Mode, b: Bounds, e: Event, field: nat, n: nat, v0: Vars, ghost s: seq<Byte>, ghost p: Phase, ghost shown: nat)
    returns (stop: Option<Code>, v: Vars)
    requires Proper(b) && PhaseOk(m, b, s, p) && Tracks(m, p, v0) && v0.off <= shown <= |s|
    requires !e.Fail? && !e.Closed? && n == Clip(s, p, Offer(e)) && (p.Sizing? && n == 2 ==> field == Length(s))
    ensures var used, seen := v0.off + (if v0.peek then 0 else n), Max(shown, v0.off + n);
            TurnIs(m, RecvTurn(m, b, s, p, shown, e), stop, v, used, seen)
  {
    stop, v := None, v0;
    if n == 0 {
      if m.TryOnce? {
        stop := Some(ZeroPending);
      }
    } else if v.len == 0 {
      if n == v.expected {
        if field < b.min || field > b.max {
          stop := Some(Malformed);
          return;
        }
        v := v.(len := field, expected := field);
        if m.Blocking? {
          v := v.(peek := false);
        }
      } else if m.TryOnce? {
        stop := Some(ZeroPending);
      }
    } else if m.TryOnce? || (m.Timeout? && !v.started) {
      if n == v.expected {
        if !v.started {
          v := v.(peek := false);
        } else {
          stop := Some(Success);
          return;
        }
        v := v.(started := true);
      } else if m.TryOnce? {
        stop := Some(if v.started then Broken else ZeroPending);
      }
    } else {
      v := v.(started := true, expected := v.expected - n, off := v.off + n);
      if v.expected == 0 {
        stop := Some(Success);
      }
    }
  }

  /** One end of a connection: `incoming` is all the peer will ever send, of which `pos` bytes have been
      taken; `outgoing` is what has been put on the other direction. */
  class Socket {
    const flags: Flags
    const incoming: seq<Byte>
    var pos: nat
    var outgoing: seq<Byte>

    constructor (flags: Flags, incoming: seq<Byte>)
      ensures this.flags == flags && this.incoming == incoming && pos == 0 && outgoing == []
    {
      this.flags, this.incoming := flags, incoming;
      pos, outgoing := 0, [];
    }

    ghost predicate Valid()
      reads this
    {
      pos <= |incoming|
    }

    /** What is still to be received. */
    function Ahead(): seq<Byte>
      requires Valid()
      reads this
    {
      incoming[pos..]
    }

    /** Sends the message at the front of `buffer`. */
    method SendGeneric(m: Mode, buffer: array<Byte>, b: Bounds, script: seq<Tick>) returns (code: Option<Code>)
      requires Proper(b) && Holds(b, buffer[..])
      modifies this`outgoing
      ensures var r := Send(flags, m, b, buffer[..], script);
              code == r.code && outgoing == old(outgoing) + r.out
    {
      var bad := Validate(flags, m, true);
      if bad != Success {
        return Some(bad);
      }
      var len := buffer[0] as int + 256 * buffer[1] as int;
      if len < b.min || len > b.max {
        return Some(Malformed);
      }
      ghost var whole := SendLoop(m, len, 0, 0, script, 0);
      SendLoopMeaning(m, len, 0, 0, script, 0);
      var off: nat, left: nat, elapsed: nat, i: nat := 0, len, 0, 0;
      while left != 0 && !(m.Timeout? && elapsed >= m.ms)
        invariant off <= len && left == len - off && i <= |script|
        invariant outgoing == old(outgoing) + buffer[..off]
        invariant whole == SendLoop(m, len, off, elapsed, script, i)
        decreases |script| - i
      {
        if i == |script| {
          return None;
        }
        if script[i].event.Fail? {
          return Some(Broken);
        }
        var n := Min(Offer(script[i].event), left);
        outgoing := outgoing + buffer[off..off + n];
        left, off := left - n, off + n;
        elapsed, i := script[i].elapsed, i + 1;
      }
      code := if left == 0 then Some(Success) else Some(SendTimeout);
    }

    /** The bytes a receive leaves in the buffer: `shown` new ones, then what was there. */
    static ghost function Shown(s: seq<Byte>, before: seq<Byte>, shown: nat): seq<Byte>
      requires shown <= |s| && shown <= |before|
    {
      s[..shown] + before[shown..]
    }

    static lemma ShownMore(s: seq<Byte>, before: seq<Byte>, shown: nat, off: nat, n: nat)
      requires off <= shown <= |s| && shown <= |before| && off + n <= |s| && off + n <= |before|
      ensures var now := Shown(s, before, shown);
              now[..off] + s[off..off + n] + now[off + n..] == Shown(s, before, Max(shown, off + n))
    {
      var now := Shown(s, before, shown);
      var got, want := now[..off] + s[off..off + n] + now[off + n..], Shown(s, before, Max(shown, off + n));
      assert |got| == |want|;
      forall i | 0 <= i < |got| ensures got[i] == want[i] {
        if i < off {
          assert got[i] == now[i];
        } else if i < off + n {
          assert got[i] == s[i];
        } else {
          assert got[i] == now[i];
        }
      }
    }

    /** A call that began at `start`, with `s` ahead and `before` in the buffer, has taken `off` bytes and
        overwritten `shown` bytes of the buffer. */
    ghost predicate During(buffer: array<Byte>, start: nat, s: seq<Byte>, before: seq<Byte>, off: nat, shown: nat)
      reads this, buffer
    {
      && Valid() && start <= |incoming| && s == incoming[start..] && pos == start + off
      && off <= shown <= |s| && shown <= |before| && buffer[..] == Shown(s, before, shown)
    }

    /** The system call: copies at most `want` of the `k` bytes on offer to the buffer, and takes them
        from the stream unless it only peeks. */
    method RecvBytes(buffer: array<Byte>, off: nat, want: nat, k: nat, peek: bool,
                     ghost start: nat, ghost s: seq<Byte>, ghost before: seq<Byte>, ghost shown: nat)
      returns (n: nat)
      requires During(buffer, start, s, before, off, shown) && off + want <= buffer.Length
      modifies this`pos, buffer
      ensures n == Min(k, Min(want, |s| - off))
      ensures pos == start + off + (if peek then 0 else n) && Max(shown, off + n) <= |s| && |before| == buffer.Length
      ensures Valid() && buffer[..] == Shown(s, before, Max(shown, off + n))
    {
      n := Min(k, Min(want, |incoming| - pos));
      ghost var now := buffer[..];
      ShownMore(s, before, shown, off, n);
      forall j | 0 <= j < n {
        buffer[off + j] := incoming[pos + j];
      }
      assert incoming[pos..pos + n] == s[off..off + n];
      assert buffer[..] == now[..off] + s[off..off + n] + now[off + n..];
      if !peek {
        pos := pos + n;
      }
    }

    /** What the buffer reads as a length. */
    method LengthField(buffer: array<Byte>, ghost s: seq<Byte>, ghost before: seq<Byte>, ghost shown: nat) returns (field: nat)
      requires buffer.Length >= 2 && shown <= |s| && shown <= |before| && buffer[..] == Shown(s, before, shown)
      ensures shown >= 2 ==> field == Length(s)
    {
      field := buffer[0] as int + 256 * buffer[1] as int;
      assert buffer[..][0] == buffer[0] && buffer[..][1] == buffer[1];
    }

    /** One turn of the receive loop. */
    method RecvOnce(m: Mode, buffer: array<Byte>, b: Bounds, e: Event, v0: Vars,
                    ghost start: nat, ghost s: seq<Byte>, ghost before: seq<Byte>, ghost p: Phase, ghost shown: nat)
      returns (stop: Option<Code>, v: Vars, ghost used: nat, ghost seen: nat)
      requires Proper(b) && b.max <= buffer.Length && PhaseOk(m, b, s, p) && Tracks(m, p, v0)
      requires During(buffer, start, s, before, v0.off, shown)
      modifies this`pos, buffer
      ensures TurnIs(m, RecvTurn(m, b, s, p, shown, e), stop, v, used, seen)
      ensures During(buffer, start, s, before, used, seen)
    {
      stop, v, used, seen := None, v0, v0.off, shown;
      if e.Fail? || e.Closed? {
        stop := Some(Broken);
        return;
      }
      var n := RecvBytes(buffer, v.off, v.expected, Offer(e), v.peek, start, s, before, shown);
      used, seen := v.off + (if v.peek then 0 else n), Max(shown, v.off + n);
      var field := LengthField(buffer, s, before, seen);
      stop, v := Digest(m, b, e, field, n, v, s, p, shown);
    }

    /** The receive loop. */
    method RecvTurns(m: Mode, buffer: array<Byte>, b: Bounds, script: seq<Tick>) returns (code: Option<Code>)
      requires Valid() && Proper(b) && b.max <= buffer.Length
      modifies this`pos, buffer
      ensures Valid()
      ensures var s, r := old(Ahead()), RecvLoop(m, b, old(Ahead()), Sizing, 0, 0, script);
              && code == r.code
              && pos == old(pos) + r.used
              && r.shown <= |s| && r.shown <= buffer.Length
              && buffer[..] == Shown(s, old(buffer[..]), r.shown)
    {
      ghost var start, s, before, whole := pos, Ahead(), buffer[..], RecvLoop(m, b, Ahead(), Sizing, 0, 0, script);
      var v := Vars(true, false, 2, 0, 0);
      var elapsed: nat, i: nat := 0, 0;
      ghost var p: Phase, shown: nat := Sizing, 0;
      assert script[0..] == script;
      while !(m.Timeout? && elapsed >= m.ms)
        invariant RecvAgrees(m, b, s, p, shown, elapsed, script, i, whole) && Tracks(m, p, v)
        invariant During(buffer, start, s, before, v.off, shown)
        decreases |script| - i
      {
        if i == |script| {
          RecvEnds(m, b, s, p, shown, elapsed, script, i, whole);
          return None;
        }
        RecvAdvance(m, b, s, p, shown, elapsed, script, i, whole);
        ghost var turn := RecvTurn(m, b, s, p, shown, script[i].event);
        var stop;
        ghost var used, seen;
        stop, v, used, seen := RecvOnce(m, buffer, b, script[i].event, v, start, s, before, p, shown);
        if stop.Some? {
          return stop;
        }
        p, shown := turn.phase, turn.shown;
        elapsed, i := script[i].elapsed, i + 1;
      }
      RecvEnds(m, b, s, p, shown, elapsed, script, i, whole);
      code := Some(if v.started then WaitTimeout else ZeroPending);
    }

    /** On success the buffer begins with the message. */
    static lemma ShownMessage(b: Bounds, s: seq<Byte>, before: seq<Byte>, now: seq<Byte>)
      requires Whole(b, s) && Length(s) <= |before| && now == Shown(s, before, Length(s))
      ensures |now| == |before| && now[..Length(s)] == s[..Length(s)] && now[Length(s)..] == before[Length(s)..]
    {
    }

    /** Receives one message into `buffer`. */
    method RecvGeneric(m: Mode, buffer: array<Byte>, b: Bounds, script: seq<Tick>) returns (code: Option<Code>)
      requires Valid() && Proper(b) && b.max <= buffer.Length
      modifies this`pos, buffer
      ensures Valid()
      ensures var s, r := old(Ahead()), Recv(flags, m, b, old(Ahead()), script);
              && code == r.code
              && pos == old(pos) + r.used
              && r.shown <= |s| && r.shown <= buffer.Length
              && buffer[..] == Shown(s, old(buffer[..]), r.shown)
      ensures code == Some(Success) ==>
                var s := old(Ahead());
                && Whole(b, s) && Length(s) <= buffer.Length && pos == old(pos) + Length(s)
                && buffer[..Length(s)] == s[..Length(s)]
                && buffer[Length(s)..] == old(buffer[..])[Length(s)..]
      ensures code == Some(ZeroPending) || code == Some(Malformed) ==> pos == old(pos)
    {
      RecvMeaning(flags, m, b, Ahead(), script);
      var bad := Validate(flags, m, false);
      if bad != Success {
        return Some(bad);
      }
      ghost var s, before := Ahead(), buffer[..];
      code := RecvTurns(m, buffer, b, script);
      if code == Some(Success) {
        ShownMessage(b, s, before, buffer[..]);
        assert buffer[..][..Length(s)] == buffer[..Length(s)] && buffer[..][Length(s)..] == buffer[Length(s)..];
      }
    }
  }
}
