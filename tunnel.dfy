/** One pass of the host's loop over the persistent tunnel
    (`handle_persistent_tunnel`): decode a handshake, try the destination,
    answer on the tunnel, and decide what comes next. The tunnel is never
    closed here; every pass ends by going round the loop again. */
module Tunnel {
  import opened Wire
  import DottedQuad
  import opened Handshake

  /** The bound address and port reported in every success reply. */
  const BoundAddress: string := "127.0.0.1"
  const BoundPort: Port := 1080

  const Loopback: seq<Byte> := [0x7F, 0x00, 0x00, 0x01]

  /** The reply of section 6 of RFC 1928 with reply code `code`: version 5,
      the code, a reserved zero, address type 01, then the bound address and
      port. */
  function Reply(code: Byte): seq<Byte> {
    [0x05, code, 0x00, 0x01] + Loopback + PortBytes(BoundPort)
  }

  /** The rejection sent when the destination cannot be reached: only the
      version and reply code 01 ("general failure") of the ten-byte reply of
      section 6 of RFC 1928. */
  function FailureReply(): (r: seq<Byte>)
    ensures r == Reply(0x01)[..2] && |r| < |Reply(0x01)|
    ensures r[1] != 0x00
  {
    [0x05, 0x01]
  }

  lemma LoopbackText()
    ensures DottedQuad.Format(Loopback) == BoundAddress
  {
    assert DottedQuad.Decimal(127) == "127" by {
      assert DottedQuad.Decimal(12) == "12";
    }
    assert DottedQuad.Decimal(0) == "0" && DottedQuad.Decimal(1) == "1";
  }

  /** inet_aton of the bound address is the loopback address. */
  lemma BoundAddressBytes()
    ensures DottedQuad.Parse(BoundAddress) == Some(Loopback)
  {
    LoopbackText();
    DottedQuad.ParseFormat(Loopback);
  }

  /** The success reply: version 5, reply 00, reserved 00, address type 01,
      then inet_aton of the bound address and the bound port in network order. */
  function SuccessReply(): (r: seq<Byte>)
    ensures r == [0x05, 0x00, 0x00, 0x01, 0x7F, 0x00, 0x00, 0x01, 0x04, 0x38]
    ensures DottedQuad.Parse(BoundAddress) == Some(r[4..8]) && PortOf(r[8], r[9]) == BoundPort
  {
    var reply := Reply(0x00);
    assert reply == [0x05, 0x00, 0x00, 0x01, 0x7F, 0x00, 0x00, 0x01, 0x04, 0x38];
    assert DottedQuad.Parse(BoundAddress) == Some(reply[4..8]) by {
      assert reply[4..8] == Loopback;
      BoundAddressBytes();
    }
    reply
  }

  /** What the loop does after a pass. */
  datatype Next =
    | RetryAfterPause                  // no destination: sleep, then read the next handshake
    | NextHandshake                    // destination unreachable: read the next handshake at once
    | StartRelay(dest: Destination)    // connected and answered: relay this session

  /** One pass: what went out on the tunnel, how much of the tunnel's input
      it read, and what comes next. */
  datatype Pass = Pass(written: seq<Byte>, consumed: nat, next: Next)

  /** One pass of the loop over the tunnel input `stream`; `connected` is the
      outcome of connecting to the decoded destination. */
  function LoopBody(stream: seq<Byte>, connected: bool): (p: Pass)
    ensures p.consumed == ExtractAddressPort(stream).consumed <= |stream|
    // The tunnel sees one of four answers, each starting with the method selection.
    ensures p.written == [] || p.written == MethodSelection ||
            p.written == MethodSelection + FailureReply() ||
            p.written == MethodSelection + SuccessReply()
    // After a decode failure nothing follows the method selection.
    ensures p.next == RetryAfterPause <==> !ExtractAddressPort(stream).outcome.Accepted?
    ensures p.next == RetryAfterPause ==> p.written == ExtractAddressPort(stream).written && |p.written| <= 2
    // A reachable destination gets the success reply and the relay starts;
    // an unreachable one gets the two-byte rejection.
    ensures p.next.StartRelay? <==> connected && ExtractAddressPort(stream).outcome.Accepted?
    ensures p.next.StartRelay? ==> p.next.dest == ExtractAddressPort(stream).outcome.dest
    ensures p.next.StartRelay? <==> p.written == MethodSelection + SuccessReply()
    ensures p.next == NextHandshake <==> p.written == MethodSelection + FailureReply()
  {
    var d := ExtractAddressPort(stream);
    match d.outcome
    case Rejected(_) => Pass(d.written, d.consumed, RetryAfterPause)
    case Accepted(dest) =>
      if connected then Pass(d.written + SuccessReply(), d.consumed, StartRelay(dest))
      else Pass(d.written + FailureReply(), d.consumed, NextHandshake)
  }

  /** A well-formed handshake opens a relay to its destination when that is
      reachable, and is rejected with `05 01` otherwise; either way exactly the
      handshake's bytes are read. */
  lemma HandshakeAnswered(a: Address, port: Port, reserved: Byte, rest: seq<Byte>, connected: bool)
    requires Encodable(a)
    ensures var s := EncodeHandshake(a, port, reserved);
      LoopBody(s + rest, connected) ==
        if connected then Pass(MethodSelection + SuccessReply(), |s|, StartRelay(Destination(HostOf(a), port)))
        else Pass(MethodSelection + FailureReply(), |s|, NextHandshake)
  {
    RoundTrip(a, port, reserved, rest);
  }

  /** Input that does not start with the greeting is dropped three bytes at a
      time without an answer. */
  lemma NoGreetingNoAnswer(stream: seq<Byte>, connected: bool)
    requires !(|stream| >= 3 && stream[..3] == Greeting)
    ensures LoopBody(stream, connected) == Pass([], if |stream| < 3 then |stream| else 3, RetryAfterPause)
  {
  }
}
