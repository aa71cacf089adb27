/** One relay session of the host's loop (`handle_persistent_tunnel` after
    the success reply): read the first chunk from the tunnel, then relay; and
    what the next handshake is decoded from once the session is over. */
module Session {
  import opened Wire
  import opened Handshake
  import opened Relay

  /** The session as a value: a failed first read closes the destination and
      ends the session without relaying; otherwise the relay starts from the
      chunk read, whatever it is. */
  function SessionOf(proxy: Peer, destination: Peer): Relayed {
    var (p, first) := proxy.Recv();
    if first.Raised? then Relayed(p, destination.Close(), None)
    else Forward(p, destination, first.data)
  }

  /** The session on the two sockets; the relay's result (the signal, if it
      stopped on one) is returned. */
  method RunSession(proxy: Socket, destination: Socket) returns (signal: Option<seq<Byte>>)
    requires proxy != destination
    modifies proxy, destination
    ensures SessionOf(old(proxy.State()), old(destination.State())) ==
            Relayed(proxy.State(), destination.State(), signal)
  {
    var first := proxy.Recv();
    if first.Raised? {
      destination.Close();
      return None;
    }
    signal := ForwardTraffic(proxy, destination, first.data);
  }

  /** A session closes its destination and never the tunnel, and the only
      signal it reports is the greeting. */
  lemma SessionCloses(proxy: Peer, destination: Peer)
    ensures var r := SessionOf(proxy, destination);
      r.destination.closed && r.proxy.closed == proxy.closed &&
      (r.signal.Some? ==> r.signal.value == Greeting)
  {
    var (p, first) := proxy.Recv();
    if first.Received? {
      ForwardCloses(p, destination, first.data);
    }
  }

  /** The first chunk of a session is forwarded to the destination as it is,
      even when it is the greeting: only later chunks can be the signal. */
  lemma FirstChunkForwarded(proxy: Peer, destination: Peer)
    requires proxy.incoming != [] && proxy.incoming[0].Received? && proxy.incoming[0].data != []
    requires destination.outcomes == [] || destination.outcomes[0]
    ensures var r := SessionOf(proxy, destination);
      var toDestination := NewlySent(destination, r.destination);
      toDestination != [] && toDestination[0] == proxy.incoming[0].data &&
      r.destination.sent == destination.sent + toDestination
  {
    var (p, first) := proxy.Recv();
    var r := Forward(p, destination, first.data);
    ForwardTurns(p, destination, first.data);
    ForwardOrder(p, destination, first.data);
    match RoundOf(p, destination, first.data)
    case Stopped(_) =>
    case Continued(p2, d2, next) =>
      ForwardTurns(p2, d2, next);
      SentAfter(destination, d2, r.destination, first.data);
  }

  /** What the next handshake is decoded from, as the loop does it: the
      signal the relay returned is dropped, so decoding starts at the bytes
      that follow it. */
  function NextInputAsWritten(signal: Option<seq<Byte>>, following: seq<Byte>): seq<Byte> {
    following
  }

  /** What the next handshake is decoded from when the signal, the greeting
      of the next client, is kept as the start of the next handshake. */
  function NextInput(signal: Option<seq<Byte>>, following: seq<Byte>): (s: seq<Byte>)
    ensures signal.None? ==> s == following
    ensures signal.Some? ==> |s| == |signal.value| + |following| && s[..|signal.value|] == signal.value
    ensures signal.Some? ==> s == signal.value + following
  {
    match signal
    case None => following
    case Some(greeting) => greeting + following
  }

  /** As written, a client whose greeting was the signal gets no method
      selection while it waits for one, and the request it sends after its
      greeting is rejected: on its own it is not a handshake. With a zero
      reserved byte its first three bytes pass for a greeting and draw a stray
      method selection first. */
  lemma {:induction false} SignalLost(a: Address, port: Port, reserved: Byte, rest: seq<Byte>)
    requires Encodable(a)
    ensures ExtractAddressPort(NextInputAsWritten(Some(Greeting), [])).written == []
    ensures var request := EncodeHandshake(a, port, reserved)[3..];
      var d := ExtractAddressPort(NextInputAsWritten(Some(Greeting), request + rest));
      d.outcome.Rejected? && (reserved == 0 ==> d.written == MethodSelection)
  {
    var s := EncodeHandshake(a, port, reserved);
    var t := s[3..] + rest;
    assert t[3] == s[6] == AddressField(a)[0];
  }

  /** Keeping the signal, that client gets the method selection at once, and
      the handshake it completes is decoded to its destination. */
  lemma {:induction false} SignalResumed(a: Address, port: Port, reserved: Byte, rest: seq<Byte>)
    requires Encodable(a)
    ensures ExtractAddressPort(NextInput(Some(Greeting), [])).written == MethodSelection
    ensures var s := EncodeHandshake(a, port, reserved);
      ExtractAddressPort(NextInput(Some(Greeting), s[3..] + rest)) ==
        Decoded(Accepted(Destination(HostOf(a), port)), |s|, MethodSelection)
  {
    var s := EncodeHandshake(a, port, reserved);
    assert Greeting + (s[3..] + rest) == s + rest by {
      assert s[..3] == Greeting;
    }
    RoundTrip(a, port, reserved, rest);
  }
}
