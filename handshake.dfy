/** The host side of the handshake that opens each session on the tunnel
    (`extract_address_port`): the method negotiation of section 3 of RFC 1928,
    a CONNECT-only request (section 4) and the IPv4 and domain-name address
    types (section 5). The tunnel is a byte stream read from a cursor; a read
    of `n` bytes takes up to `n`, fewer only at the end of the stream. */
module Handshake {
  import opened Wire
  import DottedQuad
  import Utf8

  /** The destination host as the decoder hands it to `connect`: the text
      inet_ntoa gives for an IPv4 address, or the UTF-8 bytes of a name. */
  datatype Host = IPv4Host(text: string) | DomainHost(name: seq<Byte>)

  datatype Destination = Destination(host: Host, port: Port)

  /** Why a handshake was abandoned. The source logs a message and returns
      no destination in each case. */
  datatype DecodeError =
    | BadGreeting             // the first read is not 05 01 00
    | BadRequest              // fewer than 4 header bytes, version not 5, or command not 1
    | ShortIPv4               // fewer than 4 address bytes: inet_ntoa raises
    | MissingDomainLength     // the length byte is missing: indexing the empty read raises
    | InvalidDomain           // the name is not UTF-8: decode raises
    | UnsupportedAddressType  // neither 0x01 nor 0x03
    | ShortPort               // fewer than 2 port bytes: struct.unpack raises

  datatype Outcome = Accepted(dest: Destination) | Rejected(error: DecodeError)

  /** The effect of one handshake on the tunnel: its outcome, how far the
      read cursor moved, and what was sent back. */
  datatype Decoded = Decoded(outcome: Outcome, consumed: nat, written: seq<Byte>)

  /** A field read from the stream, with the cursor after it. */
  datatype Field<T> = Read(value: T, next: nat) | Failed(error: DecodeError, next: nat)

  /** `recv(n)` at cursor `pos`: up to `n` bytes, fewer only at the end. */
  function Recv(s: seq<Byte>, pos: nat, n: nat): (chunk: seq<Byte>)
    requires pos <= |s|
    ensures |chunk| <= n && pos + |chunk| <= |s|
    ensures chunk == s[pos..pos + |chunk|]
    ensures |chunk| < n ==> pos + |chunk| == |s|
  {
    if pos + n <= |s| then s[pos..pos + n] else s[pos..]
  }

  /** The address field, read at `pos` for address type `addressType`. */
  function ReadHost(s: seq<Byte>, pos: nat, addressType: Byte): (r: Field<Host>)
    requires pos <= |s|
    ensures pos <= r.next <= |s|
  {
    if addressType == 0x01 then
      var octets := Recv(s, pos, 4);
      if |octets| != 4 then Failed(ShortIPv4, pos + |octets|)
      else Read(IPv4Host(DottedQuad.Format(octets)), pos + 4)
    else if addressType == 0x03 then
      var lengthByte := Recv(s, pos, 1);
      if |lengthByte| == 0 then Failed(MissingDomainLength, pos)
      else
        var name := Recv(s, pos + 1, lengthByte[0]);
        if !Utf8.Valid(name) then Failed(InvalidDomain, pos + 1 + |name|)
        else Read(DomainHost(name), pos + 1 + |name|)
    else Failed(UnsupportedAddressType, pos)
  }

  /** The greeting and the version and command bytes are what the decoder demands. */
  predicate HeaderOk(s: seq<Byte>) {
    |s| >= 7 && s[..3] == Greeting && s[3] == 0x05 && s[4] == 0x01
  }

  /** extract_address_port: decode one handshake from the start of `s`. */
  function ExtractAddressPort(s: seq<Byte>): (d: Decoded)
    ensures d.consumed <= |s|
    // The greeting gate: `05 00` is sent exactly when the first read is `05 01 00`.
    ensures d.written == if |s| >= 3 && s[..3] == Greeting then MethodSelection else []
    ensures d.outcome == Rejected(BadGreeting) <==> !(|s| >= 3 && s[..3] == Greeting)
    // The request header: version and command are checked, the reserved byte is not.
    ensures |s| >= 3 && s[..3] == Greeting ==>
      (d.outcome == Rejected(BadRequest) <==> |s| < 7 || s[3] != 0x05 || s[4] != 0x01)
    ensures HeaderOk(s) && s[6] != 0x01 && s[6] != 0x03 ==>
      d.outcome == Rejected(UnsupportedAddressType) && d.consumed == 7
    ensures HeaderOk(s) && s[6] == 0x01 && |s| < 11 ==> d.outcome == Rejected(ShortIPv4)
    ensures HeaderOk(s) && s[6] == 0x03 && |s| == 7 ==> d.outcome == Rejected(MissingDomainLength)
    // What an accepted handshake consumed and yielded.
    ensures d.outcome.Accepted? ==>
      HeaderOk(s) && d.consumed >= 9 && d.written == MethodSelection &&
      d.outcome.dest.port == PortOf(s[d.consumed - 2], s[d.consumed - 1])
    ensures d.outcome.Accepted? && s[6] == 0x01 ==>
      d.consumed == 13 && d.outcome.dest.host == IPv4Host(DottedQuad.Format(s[7..11]))
    ensures d.outcome.Accepted? && s[6] == 0x03 ==>
      d.consumed == s[7] as int + 10 && d.outcome.dest.host == DomainHost(s[8..8 + s[7] as int]) &&
      Utf8.Valid(s[8..8 + s[7] as int])
    ensures d.outcome.Accepted? ==> s[6] == 0x01 || s[6] == 0x03
  {
    var greeting := Recv(s, 0, 3);
    if greeting != Greeting then Decoded(Rejected(BadGreeting), |greeting|, [])
    else
      var request := Recv(s, 3, 4);
      if |request| < 4 || request[0] != 0x05 || request[1] != 0x01 then
        Decoded(Rejected(BadRequest), 3 + |request|, MethodSelection)
      else
        match ReadHost(s, 7, request[3])
        case Failed(e, next) => Decoded(Rejected(e), next, MethodSelection)
        case Read(host, next) =>
          var portBytes := Recv(s, next, 2);
          if |portBytes| != 2 then Decoded(Rejected(ShortPort), next + |portBytes|, MethodSelection)
          else Decoded(Accepted(Destination(host, PortOf(portBytes[0], portBytes[1]))), next + 2, MethodSelection)
  }

  // The relay side's half: the handshake bytes it sends for a destination.

  /** An address as the relay side puts it on the wire. */
  datatype Address = IPv4(octets: seq<Byte>) | DomainName(name: seq<Byte>)

  /** Four octets, or a UTF-8 name whose length fits the length byte. */
  predicate Encodable(a: Address) {
    match a
    case IPv4(octets) => |octets| == 4
    case DomainName(name) => |name| <= 255 && Utf8.Valid(name)
  }

  /** Address type, then the address bytes. */
  function AddressField(a: Address): seq<Byte>
    requires Encodable(a)
  {
    match a
    case IPv4(octets) => [0x01] + octets
    case DomainName(name) => [0x03, |name|] + name
  }

  /** Greeting, then the CONNECT request `05 01 RSV AT addr PP PP`. */
  function EncodeHandshake(a: Address, port: Port, reserved: Byte): seq<Byte>
    requires Encodable(a)
  {
    Greeting + [0x05, 0x01, reserved] + AddressField(a) + PortBytes(port)
  }

  /** The host the decoder reports for an address. */
  function HostOf(a: Address): Host
    requires Encodable(a)
  {
    match a
    case IPv4(octets) => IPv4Host(DottedQuad.Format(octets))
    case DomainName(name) => DomainHost(name)
  }

  /** The address a reported host stands for (inet_aton of the text). */
  function AddressOf(h: Host): Address {
    match h
    case IPv4Host(text) =>
      (match DottedQuad.Parse(text)
       case Some(octets) => IPv4(octets)
       case None => IPv4([]))
    case DomainHost(name) => DomainName(name)
  }

  /** Round trip: a handshake for any address and port decodes to that
      destination, consuming exactly its 3 + 4 + (4 or 1 + n) + 2 bytes and
      nothing of what follows, and answers `05 00` once. */
  lemma RoundTrip(a: Address, port: Port, reserved: Byte, rest: seq<Byte>)
    requires Encodable(a)
    ensures var s := EncodeHandshake(a, port, reserved);
      |s| == 3 + 4 + (if a.IPv4? then 4 else 1 + |a.name|) + 2 &&
      ExtractAddressPort(s + rest) == Decoded(Accepted(Destination(HostOf(a), port)), |s|, MethodSelection)
  {
    var s := EncodeHandshake(a, port, reserved);
    var t := s + rest;
    var field := AddressField(a);
    var n := |field|;
    assert t[..3] == Greeting;
    assert t[3..7] == [0x05, 0x01, reserved, field[0]];
    assert t[7..6 + n] == field[1..];
    assert t[6 + n..8 + n] == PortBytes(port);
    match a
    case IPv4(octets) =>
      assert field[1..] == octets;
    case DomainName(name) =>
      assert t[7] == |name|;
      assert t[8..8 + |name|] == name;
  }

  /** What the decoder's contract says of an accepted handshake of `k`
      bytes, stated over the bytes alone. */
  predicate AcceptedShape(s: seq<Byte>, host: Host, port: Port, k: nat) {
    && k <= |s| && HeaderOk(s) && k >= 9
    && port == PortOf(s[k - 2], s[k - 1])
    && (s[6] == 0x01 || s[6] == 0x03)
    && (s[6] == 0x01 ==> k == 13 && host == IPv4Host(DottedQuad.Format(s[7..11])))
    && (s[6] == 0x03 ==> k == s[7] as int + 10 && host == DomainHost(s[8..k - 2]) && Utf8.Valid(s[8..k - 2]))
  }

  lemma ShapeIPv4Field(s: seq<Byte>, host: Host, port: Port, k: nat)
    requires AcceptedShape(s, host, port, k) && s[6] == 0x01
    ensures var a := AddressOf(host);
      Encodable(a) && HostOf(a) == host && AddressField(a) == s[6..k - 2]
  {
    DottedQuad.ParseFormat(s[7..11]);
    assert s[6..k - 2] == [0x01] + s[7..11];
  }

  lemma ShapeDomainField(s: seq<Byte>, host: Host, port: Port, k: nat)
    requires AcceptedShape(s, host, port, k) && s[6] == 0x03
    ensures var a := AddressOf(host);
      Encodable(a) && HostOf(a) == host && AddressField(a) == s[6..k - 2]
  {
    assert s[6..k - 2] == [0x03, s[7]] + s[8..k - 2];
  }

  lemma ShapePortField(s: seq<Byte>, host: Host, port: Port, k: nat)
    requires AcceptedShape(s, host, port, k)
    ensures PortBytes(port) == s[k - 2..k]
  {
    var hi, lo := s[k - 2], s[k - 1];
    PortBytesOf(hi, lo);
    assert s[k - 2..k] == [hi, lo];
  }

  lemma ShapeAddressField(s: seq<Byte>, host: Host, port: Port, k: nat)
    requires AcceptedShape(s, host, port, k)
    ensures var a := AddressOf(host);
      Encodable(a) && HostOf(a) == host && AddressField(a) == s[6..k - 2]
  {
    if s[6] == 0x01 {
      ShapeIPv4Field(s, host, port, k);
    } else {
      ShapeDomainField(s, host, port, k);
    }
  }

  /** Greeting, header, address field and port field laid end to end. */
  lemma EncodingOfParts(s: seq<Byte>, a: Address, port: Port, k: nat)
    requires Encodable(a) && 6 <= k - 2 && k <= |s|
    requires s[..3] == Greeting && s[3] == 0x05 && s[4] == 0x01
    requires AddressField(a) == s[6..k - 2] && PortBytes(port) == s[k - 2..k]
    ensures s[..k] == EncodeHandshake(a, port, s[5])
  {
    assert s[3..6] == [0x05, 0x01, s[5]];
    assert s[..k] == s[..3] + s[3..6] + s[6..k - 2] + s[k - 2..k];
  }

  lemma ShapeIsEncoding(s: seq<Byte>, host: Host, port: Port, k: nat)
    requires AcceptedShape(s, host, port, k)
    ensures var a := AddressOf(host);
      Encodable(a) && HostOf(a) == host && s[..k] == EncodeHandshake(a, port, s[5])
  {
    ShapeAddressField(s, host, port, k);
    ShapePortField(s, host, port, k);
    EncodingOfParts(s, AddressOf(host), port, k);
  }

  /** Conversely, whatever the decoder accepts is exactly such a handshake:
      the consumed bytes re-encode the destination, with the reserved byte
      as received. With RoundTrip, the decoder accepts `s` exactly when `s`
      starts with the encoding of some address and port. */
  lemma AcceptedIsEncoding(s: seq<Byte>)
    requires ExtractAddressPort(s).outcome.Accepted?
    ensures var d := ExtractAddressPort(s);
      var a := AddressOf(d.outcome.dest.host);
      Encodable(a) && HostOf(a) == d.outcome.dest.host &&
      s[..d.consumed] == EncodeHandshake(a, d.outcome.dest.port, s[5])
  {
    var d := ExtractAddressPort(s);
    ShapeIsEncoding(s, d.outcome.dest.host, d.outcome.dest.port, d.consumed);
  }

  /** The reserved byte of the request (index 2 of the header) is never
      looked at: any value there decodes the same. */
  lemma ReservedIgnored(s: seq<Byte>, b: Byte)
    requires |s| > 5
    ensures ExtractAddressPort(s[5 := b]) == ExtractAddressPort(s)
  {
    var u := s[5 := b];
    assert u[..3] == s[..3];
    assert u[6..] == s[6..];
  }
}
