/** Messages over a byte stream: what one send or receive call does for every way in which the
    socket splits, delays or fails it. */
module Framing {
  import opened Basics

  newtype Byte = x: int | 0 <= x < 256

  datatype Mode = Blocking | Timeout(ms: nat) | TryOnce

  /** What `fcntl` reports about the descriptor. */
  datatype Flags = Unreadable | BlockingFd | NonblockingFd

  datatype Code = Success | ZeroPending | WaitTimeout | SendTimeout | Malformed | Broken | BadOperation | OptionsFailed

  /** What the operating system answers to one `send` or `recv`: EAGAIN and its like, any other
      error, an orderly shutdown, or up to `k` bytes. */
  datatype Event = WouldBlock | Fail | Closed | Bytes(k: nat)

  /** One turn of a loop: the answer, and the time since the call began as read afterwards. */
  datatype Tick = Tick(event: Event, elapsed: nat)

  /** The bounds a caller passes; the source asserts both. */
  datatype Bounds = Bounds(min: nat, max: nat)

  ghost predicate Proper(b: Bounds) {
    2 <= b.min <= b.max < 0x1_0000
  }

  function Validate(flags: Flags, m: Mode, tx: bool): Code {
    if flags == Unreadable then OptionsFailed
    else if flags == BlockingFd && !m.Blocking? then BadOperation
    else if tx && m.TryOnce? then BadOperation
    else Success
  }

  /** The length field: the first two bytes, low byte first. */
  function Length(s: seq<Byte>): (n: nat)
    requires |s| >= 2
    ensures n < 0x1_0000
  {
    s[0] as int + 256 * s[1] as int
  }

  function Min(a: nat, b: nat): nat {
    if a <= b then a else b
  }

  function Max(a: nat, b: nat): nat {
    if a <= b then b else a
  }

  predicate Expired(m: Mode, elapsed: nat) {
    m.Timeout? && m.ms <= elapsed
  }

  // --------------------------------------------------------------------- receiving

  /** Peeking at the length, peeking at a message of `len` bytes, or consuming it with `got` bytes done. */
  datatype Phase = Sizing | Peeking(len: nat) | Reading(len: nat, got: nat)

  /** What a call came to: its code (None while the loop still runs), how many bytes it took from the
      stream, and how many bytes at the front of the caller's buffer it has overwritten. */
  datatype Received = Received(code: Option<Code>, used: nat, shown: nat)

  datatype Turn = Stop(end: Received) | Go(phase: Phase, shown: nat)

  function Used(p: Phase): nat {
    if p.Reading? then p.got else 0
  }

  function Want(p: Phase): nat {
    match p
    case Sizing => 2
    case Peeking(len) => len
    case Reading(len, got) => if got <= len then len - got else 0
  }

  ghost predicate PhaseOk(m: Mode, b: Bounds, s: seq<Byte>, p: Phase) {
    p.Sizing? ||
    (&& |s| >= 2 && p.len == Length(s) && b.min <= p.len <= b.max
     && (p.Peeking? ==> !m.Blocking?)
     && (p.Reading? ==> p.got < p.len && p.got <= |s| && (m.TryOnce? ==> p.got == 0)))
  }

  /** `n` bytes arrive in phase `p`; `s` is the stream from where the call began. */
  function Arrival(m: Mode, b: Bounds, s: seq<Byte>, p: Phase, shown: nat, n: nat): (t: Turn)
    requires 0 < n <= Want(p) && Used(p) + n <= |s|
  {
    match p
    case Sizing =>
      var seen := Max(shown, n);
      if n < 2 then (if m.TryOnce? then Stop(Received(Some(ZeroPending), 0, seen)) else Go(Sizing, seen))
      else if Length(s) < b.min || Length(s) > b.max then Stop(Received(Some(Malformed), 0, seen))
      else Go(if m.Blocking? then Reading(Length(s), 0) else Peeking(Length(s)), seen)
    case Peeking(len) =>
      var seen := Max(shown, n);
      if n == len then Go(Reading(len, 0), seen)
      else if m.TryOnce? then Stop(Received(Some(ZeroPending), 0, seen))
      else Go(p, seen)
    case Reading(len, got) =>
      var seen := Max(shown, got + n);
      if got + n == len then Stop(Received(Some(Success), len, seen))
      else if m.TryOnce? then Stop(Received(Some(Broken), n, seen))
      else Go(Reading(len, got + n), seen)
  }

  /** Up to `k` bytes: never more than asked for, nor more than the peer sends. */
  function Clip(s: seq<Byte>, p: Phase, k: nat): nat {
    Min(k, Min(Want(p), if Used(p) <= |s| then |s| - Used(p) else 0))
  }

  function RecvTurn(m: Mode, b: Bounds, s: seq<Byte>, p: Phase, shown: nat, e: Event): (t: Turn) {
    if e.Fail? || e.Closed? then Stop(Received(Some(Broken), Used(p), shown))
    else if e.Bytes? && Clip(s, p, e.k) > 0 then Arrival(m, b, s, p, shown, Clip(s, p, e.k))
    else if m.TryOnce? then Stop(Received(Some(ZeroPending), Used(p), shown))
    else Go(p, shown)
  }

  /** The whole loop, over every answer the system gives. */
  function RecvLoop(m: Mode, b: Bounds, s: seq<Byte>, p: Phase, shown: nat, elapsed: nat, script: seq<Tick>): (r: Received)
    decreases |script|
  {
    if Expired(m, elapsed) then Received(Some(if p.Reading? then WaitTimeout else ZeroPending), Used(p), shown)
    else if script == [] then Received(None, Used(p), shown)
    else
      match RecvTurn(m, b, s, p, shown, script[0].event)
      case Stop(end) => end
      case Go(p', shown') => RecvLoop(m, b, s, p', shown', script[0].elapsed, script[1..])
  }

  lemma LoopTurn(m: Mode, b: Bounds, s: seq<Byte>, p: Phase, shown: nat, elapsed: nat, script: seq<Tick>)
    requires script != [] && !Expired(m, elapsed)
    ensures var r, t := RecvLoop(m, b, s, p, shown, elapsed, script), RecvTurn(m, b, s, p, shown, script[0].event);
            r == if t.Go? then RecvLoop(m, b, s, t.phase, t.shown, script[0].elapsed, script[1..]) else t.end
  {
  }

  function Recv(flags: Flags, m: Mode, b: Bounds, s: seq<Byte>, script: seq<Tick>): (r: Received) {
    if Validate(flags, m, false) != Success then Received(Some(Validate(flags, m, false)), 0, 0)
    else RecvLoop(m, b, s, Sizing, 0, 0, script)
  }

  /** A complete message of legal length lies at the front of `s`. */
  ghost predicate Whole(b: Bounds, s: seq<Byte>) {
    |s| >= 2 && b.min <= Length(s) <= b.max && Length(s) <= |s|
  }

  /** What each code means: success takes exactly one whole message and shows exactly it; zero-pending
      and malformed take nothing; the other failures take less than a message. */
  ghost predicate Meaning(m: Mode, b: Bounds, s: seq<Byte>, r: Received) {
    && r.shown <= |s| && (r.shown <= 2 || (|s| >= 2 && b.min <= Length(s) <= b.max && r.shown <= Length(s)))
    && r.used <= r.shown
    && (r.code != Some(Success) && r.used > 0 ==> |s| >= 2 && r.used < Length(s))
    && match r.code
       case None => !m.TryOnce? || r.used == 0
       case Some(Success) => Whole(b, s) && r.used == r.shown == Length(s)
       case Some(ZeroPending) => r.used == 0 && !m.Blocking?
       case Some(Malformed) => r.used == 0 && r.shown == 2 && (Length(s) < b.min || Length(s) > b.max)
       case Some(WaitTimeout) => m.Timeout? && |s| >= 2 && b.min <= Length(s) <= b.max
       case Some(Broken) => true
       case Some(_) => false
  }

  ghost predicate ShownOk(b: Bounds, s: seq<Byte>, p: Phase, shown: nat) {
    && Used(p) <= shown <= |s|
    && (if p.Sizing? then shown <= 2 else |s| >= 2 && 2 <= shown <= Max(2, p.len))
  }

  ghost predicate TurnOk(m: Mode, b: Bounds, s: seq<Byte>, t: Turn) {
    match t
    case Stop(end) => Meaning(m, b, s, end) && end.code.Some?
    case Go(p, shown) => PhaseOk(m, b, s, p) && ShownOk(b, s, p, shown)
  }

  lemma ArrivalMeaning(m: Mode, b: Bounds, s: seq<Byte>, p: Phase, shown: nat, n: nat)
    requires Proper(b) && PhaseOk(m, b, s, p) && ShownOk(b, s, p, shown)
    requires 0 < n <= Want(p) && Used(p) + n <= |s|
    ensures TurnOk(m, b, s, Arrival(m, b, s, p, shown, n))
  {
    match p
    case Sizing =>
    case Peeking(_) =>
    case Reading(_, _) =>
  }

  lemma TurnMeaning(m: Mode, b: Bounds, s: seq<Byte>, p: Phase, shown: nat, e: Event)
    requires Proper(b) && PhaseOk(m, b, s, p) && ShownOk(b, s, p, shown)
    ensures TurnOk(m, b, s, RecvTurn(m, b, s, p, shown, e))
  {
    if e.Bytes? && Clip(s, p, e.k) > 0 {
      ArrivalMeaning(m, b, s, p, shown, Clip(s, p, e.k));
    } else if e.Fail? || e.Closed? || m.TryOnce? {
      assert Meaning(m, b, s, Received(Some(Broken), Used(p), shown));
    }
  }

  lemma {:induction false} LoopMeaning(m: Mode, b: Bounds, s: seq<Byte>, p: Phase, shown: nat, elapsed: nat, script: seq<Tick>)
    requires Proper(b) && PhaseOk(m, b, s, p) && ShownOk(b, s, p, shown)
    ensures Meaning(m, b, s, RecvLoop(m, b, s, p, shown, elapsed, script))
    decreases |script|
  {
    if !Expired(m, elapsed) && script != [] {
      TurnMeaning(m, b, s, p, shown, script[0].event);
      var t := RecvTurn(m, b, s, p, shown, script[0].event);
      if t.Go? {
        LoopMeaning(m, b, s, t.phase, t.shown, script[0].elapsed, script[1..]);
      }
    }
  }

  /** Every receive, in every mode and however the system answers: refused without effect where the
      descriptor does not allow the mode, and nowhere else. */
  lemma RecvMeaning(flags: Flags, m: Mode, b: Bounds, s: seq<Byte>, script: seq<Tick>)
    requires Proper(b)
    ensures var r := Recv(flags, m, b, s, script);
            match flags
            case Unreadable => r == Received(Some(OptionsFailed), 0, 0)
            case BlockingFd => if m.Blocking? then Meaning(m, b, s, r) else r == Received(Some(BadOperation), 0, 0)
            case NonblockingFd => Meaning(m, b, s, r)
  {
    LoopMeaning(m, b, s, Sizing, 0, 0, script);
  }

  /** Which receives a socket refuses, and with which code. */
  lemma RecvRefused(flags: Flags, m: Mode, b: Bounds, s: seq<Byte>, script: seq<Tick>)
    requires Proper(b)
    ensures var r := Recv(flags, m, b, s, script);
            && (r.code == Some(BadOperation) <==> flags == BlockingFd && !m.Blocking?)
            && (r.code == Some(OptionsFailed) <==> flags == Unreadable)
            && (r.code == Some(BadOperation) || r.code == Some(OptionsFailed) ==> r.used == r.shown == 0)
  {
    RecvMeaning(flags, m, b, s, script);
  }

  // ------------------------------------------------- when a receive succeeds

  function Offer(e: Event): nat {
    if e.Bytes? then e.k else 0
  }

  /** The bytes that the system is ready to move over the whole script. */
  function Offered(script: seq<Tick>): nat {
    if script == [] then 0 else Offer(script[0].event) + Offered(script[1..])
  }

  /** No error and no shutdown. */
  predicate Clean(script: seq<Tick>) {
    forall t | t in script :: !t.event.Fail? && !t.event.Closed?
  }

  /** The time limit is not reached. */
  predicate InTime(m: Mode, script: seq<Tick>) {
    m.Timeout? ==> m.ms > 0 && forall t | t in script :: t.elapsed < m.ms
  }

  ghost predicate OfferAt(script: seq<Tick>, i: int, n: nat) {
    0 <= i < |script| && Offer(script[i].event) >= n
  }

  /** The script offers each of `needs` in one piece, in this order, and then `len` bytes in any pieces. */
  ghost predicate Supplies(script: seq<Tick>, needs: seq<nat>, len: nat)
    decreases |needs|
  {
    if needs == [] then Offered(script) >= len
    else exists i {:trigger OfferAt(script, i, needs[0])} ::
           OfferAt(script, i, needs[0]) && Supplies(script[i + 1..], needs[1..], len)
  }

  /** The peeks still to come: two bytes for the length and, except in blocking mode, the message in one piece. */
  ghost function Needs(m: Mode, s: seq<Byte>, p: Phase): seq<nat>
    requires |s| >= 2
  {
    match p
    case Sizing => if m.Blocking? then [2] else [2, Length(s)]
    case Peeking(len) => [len]
    case Reading(_, _) => []
  }

  lemma {:induction false} SuppliesLater(script: seq<Tick>, needs: seq<nat>, len: nat)
    requires script != [] && Supplies(script[1..], needs, len)
    ensures Supplies(script, needs, len)
  {
    if needs != [] {
      var i :| OfferAt(script[1..], i, needs[0]) && Supplies(script[1..][i + 1..], needs[1..], len);
      assert script[1..][i + 1..] == script[i + 2..];
      assert OfferAt(script, i + 1, needs[0]);
    }
  }

  /** One turn that does not satisfy the first need changes nothing; one that does leaves the rest. */
  lemma {:induction false} SuppliesFirst(script: seq<Tick>, needs: seq<nat>, len: nat)
    requires script != [] && needs != []
    ensures Offer(script[0].event) < needs[0] ==> (Supplies(script, needs, len) <==> Supplies(script[1..], needs, len))
    ensures Offer(script[0].event) >= needs[0] ==> (Supplies(script, needs, len) <==> Supplies(script[1..], needs[1..], len))
  {
    if Supplies(script, needs, len) {
      var i :| OfferAt(script, i, needs[0]) && Supplies(script[i + 1..], needs[1..], len);
      if Offer(script[0].event) < needs[0] {
        assert script[1..][i - 1 + 1..] == script[i + 1..];
        assert OfferAt(script[1..], i - 1, needs[0]);
      } else {
        SuppliesFrom(script[1..], i, needs[1..], len);
      }
    }
    if Offer(script[0].event) < needs[0] && Supplies(script[1..], needs, len) {
      SuppliesLater(script, needs, len);
    }
    if Offer(script[0].event) >= needs[0] && Supplies(script[1..], needs[1..], len) {
      assert OfferAt(script, 0, needs[0]);
    }
  }

  lemma {:induction false} SuppliesFrom(script: seq<Tick>, i: nat, needs: seq<nat>, len: nat)
    requires i <= |script| && Supplies(script[i..], needs, len)
    ensures Supplies(script, needs, len)
    decreases |script|
  {
    if i == 0 {
      assert script[0..] == script;
    } else {
      assert script[i..] == script[1..][i - 1..];
      SuppliesFrom(script[1..], i - 1, needs, len);
      SuppliesLater(script, needs, len);
    }
  }

  /** A turn without failure meets the next need or leaves the phase as it is; once consuming, it adds
      what is offered. */
  lemma TurnExact(m: Mode, b: Bounds, s: seq<Byte>, p: Phase, shown: nat, e: Event)
    requires Proper(b) && Whole(b, s) && PhaseOk(m, b, s, p)
    requires !m.TryOnce? && !e.Fail? && !e.Closed?
    ensures var t := RecvTurn(m, b, s, p, shown, e);
            if p.Reading? then
              if Offer(e) >= p.len - p.got then t.Stop? && t.end.code == Some(Success)
              else t.Go? && t.phase == p.(got := p.got + Offer(e))
            else
              && t.Go? && PhaseOk(m, b, s, t.phase) && (t.phase.Reading? ==> t.phase == Reading(Length(s), 0))
              && (if Offer(e) >= Needs(m, s, p)[0] then Needs(m, s, t.phase) == Needs(m, s, p)[1..] else t.phase == p)
  {
    match p
    case Sizing =>
    case Peeking(_) =>
    case Reading(_, _) =>
  }

  /** Once consuming, the loop ends well exactly when what is missing is offered. */
  lemma {:induction false} ReadingExact(m: Mode, b: Bounds, s: seq<Byte>, got: nat, shown: nat, elapsed: nat, script: seq<Tick>)
    requires Proper(b) && Whole(b, s) && got < Length(s)
    requires !m.TryOnce? && Clean(script) && InTime(m, script) && !Expired(m, elapsed)
    ensures RecvLoop(m, b, s, Reading(Length(s), got), shown, elapsed, script).code
         == if Offered(script) >= Length(s) - got then Some(Success) else None
    decreases |script|
  {
    if script != [] {
      var p, e := Reading(Length(s), got), script[0].event;
      assert script[0] in script;
      TurnExact(m, b, s, p, shown, e);
      var t := RecvTurn(m, b, s, p, shown, e);
      if t.Go? {
        ReadingExact(m, b, s, got + Offer(e), t.shown, script[0].elapsed, script[1..]);
      }
    }
  }

  /** Before that, turns meet the needs one after the other. */
  lemma {:induction false} LoopExact(m: Mode, b: Bounds, s: seq<Byte>, p: Phase, shown: nat, elapsed: nat, script: seq<Tick>)
    requires Proper(b) && Whole(b, s) && PhaseOk(m, b, s, p) && !p.Reading?
    requires !m.TryOnce? && Clean(script) && InTime(m, script) && !Expired(m, elapsed)
    ensures RecvLoop(m, b, s, p, shown, elapsed, script).code
         == if Supplies(script, Needs(m, s, p), Length(s)) then Some(Success) else None
    decreases |script|
  {
    if script != [] {
      var e := script[0].event;
      assert script[0] in script;
      TurnExact(m, b, s, p, shown, e);
      SuppliesFirst(script, Needs(m, s, p), Length(s));
      var t := RecvTurn(m, b, s, p, shown, e);
      assert RecvLoop(m, b, s, p, shown, elapsed, script) == RecvLoop(m, b, s, t.phase, t.shown, script[0].elapsed, script[1..]);
      if t.phase.Reading? {
        assert t.phase == Reading(Length(s), 0) && Needs(m, s, t.phase) == [];
        ReadingExact(m, b, s, 0, t.shown, script[0].elapsed, script[1..]);
      } else {
        LoopExact(m, b, s, t.phase, t.shown, script[0].elapsed, script[1..]);
      }
    }
  }

  /** With a whole message ahead and no failure, a blocking receive returns it exactly when the system
      has offered two bytes at once and then the message in any pieces; a timed one, within its limit,
      exactly when it has also offered the message in one piece. */
  lemma RecvExact(flags: Flags, m: Mode, b: Bounds, s: seq<Byte>, script: seq<Tick>)
    requires Proper(b) && Whole(b, s) && (flags == NonblockingFd || (flags == BlockingFd && m.Blocking?))
    requires !m.TryOnce? && Clean(script) && InTime(m, script)
    ensures var needs := if m.Blocking? then [2] else [2, Length(s)];
            Recv(flags, m, b, s, script).code == if Supplies(script, needs, Length(s)) then Some(Success) else None
  {
    LoopExact(m, b, s, Sizing, 0, 0, script);
  }

  /** What a try-once receive comes to on the answers to its three calls: the peek at the length, the peek
      at the message, the read. `have` is what a call moves, at most what the peer has sent. */
  ghost predicate TryOnceCode(b: Bounds, s: seq<Byte>, e0: Event, e1: Event, e2: Event, r: Received) {
    var have1, have2 := Min(Offer(e1), |s|), Min(Offer(e2), |s|);
    if e0.Fail? || e0.Closed? then r.code == Some(Broken) && r.used == 0
    else if Offer(e0) < 2 || |s| < 2 then r.code == Some(ZeroPending) && r.used == 0
    else if Length(s) < b.min || Length(s) > b.max then r.code == Some(Malformed) && r.used == 0
    else if e1.Fail? || e1.Closed? then r.code == Some(Broken) && r.used == 0
    else if have1 < Length(s) then r.code == Some(ZeroPending) && r.used == 0
    else if e2.Fail? || e2.Closed? then r.code == Some(Broken) && r.used == 0
    else if have2 == 0 then r.code == Some(ZeroPending) && r.used == 0
    else if have2 < Length(s) then r.code == Some(Broken) && r.used == have2
    else r.code == Some(Success) && r.used == Length(s)
  }

  /** A try-once receive ends within three system calls, with the code that the three answers call for; it
      succeeds exactly when a whole message is ahead and all three are answered in full. */
  lemma TryOnceExact(b: Bounds, s: seq<Byte>, script: seq<Tick>)
    requires Proper(b) && |script| >= 3
    ensures var r := Recv(NonblockingFd, TryOnce, b, s, script);
            && TryOnceCode(b, s, script[0].event, script[1].event, script[2].event, r)
            && (r.code == Some(Success) <==>
                  && Whole(b, s)
                  && Offer(script[0].event) >= 2
                  && Offer(script[1].event) >= Length(s)
                  && Offer(script[2].event) >= Length(s))
  {
    var t := RecvTurn(TryOnce, b, s, Sizing, 0, script[0].event);
    if t.Go? {
      assert t.phase == Peeking(Length(s));
      var t1 := RecvTurn(TryOnce, b, s, t.phase, t.shown, script[1].event);
      LoopTurn(TryOnce, b, s, t.phase, t.shown, script[0].elapsed, script[1..]);
      if t1.Go? {
        assert t1.phase == Reading(Length(s), 0);
        LoopTurn(TryOnce, b, s, t1.phase, t1.shown, script[1].elapsed, script[1..][1..]);
      }
    }
  }
}
