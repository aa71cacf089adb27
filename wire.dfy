/** Bytes, ports and the fixed byte strings of the tunnel's SOCKS5 subset. */
module Wire {

  /** An octet as it travels on a socket. */
  type Byte = b: int | 0 <= b < 256

  /** A TCP port: the value of an unsigned 16-bit field. */
  type Port = p: int | 0 <= p < 65536

  datatype Option<+T> = None | Some(value: T)

  /** Version 5, one method offered, method 0 ("no authentication").
      The same three bytes, read mid-relay, are the reconnection signal. */
  const Greeting: seq<Byte> := [0x05, 0x01, 0x00]

  /** Version 5, method 0 chosen. */
  const MethodSelection: seq<Byte> := [0x05, 0x00]

  /** The port carried by two bytes in network (big-endian) order, as
      `struct.unpack('!H', ...)` reads them. */
  function PortOf(hi: Byte, lo: Byte): (p: Port)
    ensures p / 256 == hi && p % 256 == lo
  {
    256 * hi + lo
  }

  /** The two bytes of a port in network order, as `struct.pack('!H', ...)`
      writes them. */
  function PortBytes(p: Port): (b: seq<Byte>)
    ensures |b| == 2 && PortOf(b[0], b[1]) == p
  {
    [p / 256, p % 256]
  }

  /** Packing the port read from two bytes gives those two bytes back. */
  lemma PortBytesOf(hi: Byte, lo: Byte)
    ensures PortBytes(PortOf(hi, lo)) == [hi, lo]
  {
  }
}
