/** Taking a link down or up: the flag, and the drain of what is already in the receive queue. */
module LinkState {
  import opened Basics
  import opened Framing
  import opened FramingStreams
  import opened SocketIo

  /** One try-once receive whose message is dropped. */
  method DropOne(socket: Socket, buffer: array<Byte>, b: Bounds, script: seq<Tick>) returns (code: Option<Code>)
    requires socket.Valid() && Proper(b) && b.max <= buffer.Length
    modifies socket`pos, buffer
    ensures socket.Valid()
    ensures var r := Recv(socket.flags, TryOnce, b, socket.incoming[old(socket.pos)..], script);
            code == r.code && socket.pos == old(socket.pos) + r.used
  {
    code := socket.RecvGeneric(TryOnce, buffer, b, script);
  }

  /** Receives and drops until a receive does not succeed. */
  method DrainSocket(socket: Socket, buffer: array<Byte>, b: Bounds, scripts: seq<seq<Tick>>) returns (code: Option<Code>)
    requires socket.Valid() && Proper(b) && b.max <= buffer.Length
    modifies socket`pos, buffer
    ensures socket.Valid()
    ensures (code, socket.pos) == Drain(socket.flags, b, socket.incoming, old(socket.pos), scripts, 0)
  {
    ghost var whole := Drain(socket.flags, b, socket.incoming, socket.pos, scripts, 0);
    code := Some(Success);
    var i: nat := 0;
    while code == Some(Success)
      invariant socket.Valid() && i <= |scripts|
      invariant whole == if code == Some(Success) then Drain(socket.flags, b, socket.incoming, socket.pos, scripts, i)
                         else (code, socket.pos)
      decreases |scripts| - i, code == Some(Success)
    {
      if i == |scripts| {
        code := None;
      } else {
        code := DropOne(socket, buffer, b, scripts[i]);
        i := i + 1;
      }
    }
  }

  /** Sets the state of port `nid`, and drains its socket when the link goes down. */
  method UpdateLinkState(linkStates: array<bool>, sockets: seq<Socket>, nid: nat, state: bool, buffer: array<Byte>, b: Bounds,
                         scripts: seq<seq<Tick>>) returns (code: Option<Code>)
    requires nid < linkStates.Length == |sockets| && sockets[nid].Valid()
    requires Proper(b) && b.max <= buffer.Length
    modifies linkStates, sockets[nid], buffer
    ensures linkStates[..] == old(linkStates[..])[nid := state]
    ensures sockets[nid].Valid() && sockets[nid].outgoing == old(sockets[nid].outgoing)
    ensures state ==> code == Some(Success) && sockets[nid].pos == old(sockets[nid].pos)
    ensures !state ==> var d := Drain(sockets[nid].flags, b, sockets[nid].incoming, old(sockets[nid].pos), scripts, 0);
                       && sockets[nid].pos == d.1
                       && code == if d.0 == Some(ZeroPending) then Some(Success) else d.0
  {
    linkStates[nid] := state;
    code := Some(Success);
    if !state {
      code := DrainSocket(sockets[nid], buffer, b, scripts);
      if code == Some(ZeroPending) {
        code := Some(Success);
      }
    }
  }
}
