# Reverse SOCKS5 tunnel: the host side, modelled in Dafny

The host (`client.py`) keeps one persistent TCP connection, the tunnel, to a
relay server. Over that tunnel it answers SOCKS5 handshakes and connects to
the requested destinations. It then relays traffic turn by turn: a chunk
from the tunnel goes to the destination, and the destination's reply comes
back. It leaves the relay when a tunnel chunk equals the three bytes
`05 01 00`. This value is both the SOCKS5 greeting and the reconnection
signal.

The model covers:

- **`Wire`**: bytes, ports, and the fixed byte strings.
- **`DottedQuad`**: `inet_ntoa`, plus the dotted-decimal part of `inet_aton`.
- **`Utf8`**: strict UTF-8 well-formedness, which is what `decode('utf-8')` accepts.
- **`Handshake`**: `extract_address_port`, as a pure decoder over the tunnel's byte stream and a read cursor.
  - `recv(n)` takes up to `n` bytes, and fewer only at the end of the stream.
  - The decoder reports a destination or the reason for failure, the bytes it consumed, and what it sent back.
  - Beside it is the encoder a SOCKS client uses, which gives round trips in both directions.
- **`Tunnel`**: the reply byte strings and one pass of `handle_persistent_tunnel`'s loop. A pass means decode, try the destination, answer, and decide what comes next.
- **`Relay`**: `forward_traffic`, as an imperative method on two scripted sockets (`Socket`, a class).
  - Each socket holds the results its future `recv` calls return and whether each `sendall` succeeds.
  - It records the chunks it delivered and whether it was closed.
  - The method is proved against the function `Forward`. The lemmas about `Forward` give:
    - the order of both output streams;
    - how many chunks each side was sent, and how many reads each side consumed;
    - when the signal is returned, and why the relay stopped when it is not;
    - closing.
- **`Session`**: the session that follows a success reply (read the first chunk, then relay), and what the next handshake is decoded from afterwards.

## Model

| member | source | states |
|---|---|---|
| Wire.PortOf | client.py:144-146 | `struct.unpack('!H')` of two bytes: the port is `256*hi + lo`, whose high and low bytes are `hi` and `lo` again. |
| Wire.PortBytes | client.py:187 | `struct.pack("!H", p)`: two bytes in network order that read back as `p`. |
| Wire.PortBytesOf | client.py:144-146 | Packing the port unpacked from two bytes gives those bytes back. |
| DottedQuad.Decimal | client.py:129 | A number's decimal text is non-empty and made only of digits. |
| DottedQuad.DecimalValue | client.py:129 | The decimal text of `n` denotes `n`. |
| DottedQuad.DecimalNoLeadingZero | client.py:129 | The decimal text starts with `0` exactly when the number is 0. |
| DottedQuad.DecimalOctetLength | client.py:129 | An octet's decimal text has one to three digits. |
| DottedQuad.Format | client.py:129 | `inet_ntoa` of four bytes: their decimal texts joined by dots, seven to fifteen characters long. |
| DottedQuad.JoinLength | client.py:129 | `k` octets joined by dots take between `2k - 1` and `4k - 1` characters. |
| DottedQuad.LeadingDigits | client.py:187 | Returns the longest prefix made only of digits. |
| DottedQuad.LeadingDigitsOf | client.py:187 | A run of digits followed by a non-digit is split exactly at that non-digit. |
| DottedQuad.Parse | client.py:187 | A successful parse yields exactly four bytes. |
| DottedQuad.ParseFormat | client.py:129 | Parsing the inet_ntoa text of four bytes gives those bytes back. |
| DottedQuad.FormatInjective | client.py:129 | Distinct addresses have distinct inet_ntoa texts. |
| Utf8.SequenceLength | client.py:136 | A well-formed sequence is at most 4 bytes and fits in the input. It is 1 byte exactly when the lead byte is ASCII. |
| Utf8.Valid | client.py:136 | What `decode('utf-8')` accepts: a concatenation of well-formed sequences, each as SequenceLength measures it. |
| Utf8.AsciiValid | client.py:136 | Every ASCII name decodes as UTF-8. |
| Utf8.InvalidBytes | client.py:136 | A decodable name contains no C0, C1 or F5..FF byte, and does not start with a continuation byte. |
| Handshake.Recv | client.py:91 | A read returns at most `n` bytes, namely the next ones at the cursor. It returns fewer only at the end of the stream. |
| Handshake.ReadHost | client.py:126-142 | Reading the address field moves the cursor forward and stays within the stream. |
| Handshake.ExtractAddressPort | client.py:81-152 | The handshake decoder. `05 00` is sent exactly when the first 3 bytes are `05 01 00`, and the greeting fails exactly when they are not. The request fails exactly when it has fewer than 4 bytes, or its version is not 5, or its command is not 1. An unknown address type fails after 7 bytes. A short IPv4 address or a missing domain length fails. An accepted handshake has address type 1 (13 bytes, host = inet_ntoa of bytes 7..11) or 3 (length + 10 bytes, host = the UTF-8 name). Its port is `256*hi + lo` of its last two bytes. |
| Handshake.RoundTrip | client.py:81-152 | The handshake for any IPv4 address or domain name (at most 255 bytes), port and reserved byte decodes to that host and port. It consumes exactly 3 + 4 + (4 or 1+n) + 2 bytes and nothing of what follows, and answers `05 00`. |
| Handshake.AcceptedIsEncoding | client.py:81-152 | Conversely, the bytes an accepted handshake consumed are exactly the encoding of the decoded destination, with the reserved byte as received. |
| Handshake.ReservedIgnored | client.py:116 | The reserved byte of the request is never checked: any value there gives the same result. |
| Tunnel.LoopbackText | client.py:187 | The text of `7F 00 00 01` is "127.0.0.1". |
| Tunnel.BoundAddressBytes | client.py:187 | inet_aton("127.0.0.1") is `7F 00 00 01`. |
| Tunnel.FailureReply | client.py:180 | The failure reply `05 01` is the first two bytes of the ten-byte reply with code 01, and is shorter than that reply. Its code is not success. |
| Tunnel.SuccessReply | client.py:187 | The success reply is `05 00 00 01 7F 00 00 01 04 38`. Its address bytes are inet_aton("127.0.0.1") and its port bytes read back as 1080. |
| Tunnel.LoopBody | client.py:162-193 | What one pass of the loop writes to the tunnel: nothing or `05 00` after a decode failure, which leads to a pause and a retry; `05 00` + `05 01` after a connect failure, which leads to the next handshake; `05 00` + the success reply after a connect, which starts the relay. Each answer occurs exactly in its case. A pass reads exactly what the decoder consumed, and after a decode failure it writes exactly what the decoder wrote. The relay starts to the destination the decoder returned. |
| Tunnel.HandshakeAnswered | client.py:164-193 | A well-formed handshake gets the success reply and a relay to its destination when that can be reached. Otherwise it gets `05 00 05 01`. Either way exactly the handshake's bytes are read. |
| Tunnel.NoGreetingNoAnswer | client.py:98-100 | Input that does not start with the greeting gets no answer and loses up to 3 bytes. |
| Relay.Socket.constructor | client.py:172-173 | A new socket has its scripts, has sent nothing, and is open. |
| Relay.Socket.Recv | client.py:33 | A read takes the next scripted result; an empty script reads as closed. |
| Relay.Socket.SendAll | client.py:25 | A send takes the next scripted outcome and, if it succeeds, appends the whole chunk. |
| Relay.Socket.Close | client.py:75 | Closing marks the socket closed and changes nothing else. |
| Relay.RoundOf | client.py:19-71 | A round that stops closes the destination and leaves the proxy open if it was open. A round that continues sent the chunk, then one non-empty response, and read one result from each side. The next chunk is not the greeting. |
| Relay.Forward | client.py:11-78 | The relay as a value: rounds until one stops it, an empty chunk stopping it at once. Its properties are the Forward lemmas below. |
| Relay.ForwardTraffic | client.py:11-78 | The loop on two sockets ends in exactly the states and the signal that `Forward` gives. |
| Relay.ForwardTurns | client.py:17-56 | Each side's sent log only grows. The destination was sent as many chunks as the proxy, or one more. Each side consumed one read per chunk it was sent. |
| Relay.ForwardOrder | client.py:17-56 | The destination receives the initial chunk and then the proxy's chunks, in the order read. The proxy receives the destination's responses, in the order read. Nothing empty is sent. No forwarded proxy chunk is the greeting. |
| Relay.ForwardCloses | client.py:65-78 | The destination is closed on every exit. The proxy is never closed. The only signal returned is `05 01 00`. |
| Relay.ForwardStops | client.py:17-62 | A relay that returns no signal stopped for a reason the loop has. Either the chunk it started from was empty, or the last read ended (an exception, or an empty read from either side), or the next send failed. So the relay never stops while both sides keep delivering and accepting data. |
| Relay.ForwardSignal | client.py:56-71 | The signal is returned exactly when the proxy chunk read right after the last response is `05 01 00`. Otherwise the result is `None`. |
| Session.SessionOf | client.py:195-211 | The session as a value: a failed first read closes the destination; otherwise the relay starts from the chunk read. |
| Session.RunSession | client.py:195-211 | The session on two sockets ends in exactly the states and the signal that `SessionOf` gives: a failed first read closes the destination, and otherwise the relay starts. |
| Session.SessionCloses | client.py:195-211 | A session closes its destination and never the tunnel. |
| Session.FirstChunkForwarded | client.py:195-211 | The first chunk of a session is sent to the destination first, even when it equals the greeting. |
| Session.NextInputAsWritten | client.py:206-211 | As written, the next handshake is decoded from the bytes after the signal; the signal is dropped. |
| Session.NextInput | client.py:206-211 | The corrected definition: the signal followed by the later bytes, or the later bytes alone when there is no signal. Its property is stated by `Session.SignalResumed`. |
| Session.SignalLost | client.py:206-211 | As written, a client whose greeting ended the relay gets no `05 00`. The request it sends next is rejected, after a stray `05 00` when its reserved byte is 00. |
| Session.SignalResumed | client.py:206-211 | If the signal is kept, that client gets `05 00`, and its handshake decodes to its destination. |

## Left out

- `server.py` is not part of this model. It does no data transformation beyond verbatim forwarding.
- The model leaves out:
  - Threads: the relay thread is started and joined at once, so it is modelled as a direct call.
  - `time.sleep`.
  - The connect-with-retry loop and keep-alive in `start_client`.
  - `sys.argv` configuration.
  - All logging.
- `connect` to the destination is not modelled. Its outcome is an input (`connected`) of `Tunnel.LoopBody`.
- Failures of `sendall` on the tunnel during the handshake and replies (client.py:103-107, 179-182, 186-193) are not modelled. The model assumes those sends succeed. The source handles each differently:
  - A failed `05 00` (client.py:105-107) ends the decode with no destination, so the request is never read and the loop pauses for 2 s (client.py:165-168).
  - A failed `05 01` (client.py:181-182) is ignored without a message, and the loop goes on to the next handshake.
  - A failed success reply (client.py:190-193) closes the destination socket, and the loop goes on to the next handshake.
  - In the relay, send failures are modelled, by the sockets' scripts.
- Handshake.ExtractAddressPort: the `05 00` send always succeeds, so the decoder always goes on to read the request after a good greeting. In the source a failed send ends the decode there.
- `Handshake.Recv`: on a real TCP stream, `recv(n)` may return fewer than `n` bytes before the end of the stream. The model shortens a read only at the end.
  - A read error in `extract_address_port` has the same outcome as a short read, so it is not a separate case.
  - The relay sockets' scripts do model errors and timeouts (`Raised`).
- Relay.Socket.SendAll: a failed `sendall` records no delivery at all. Python's `sendall` (client.py:25, 47) can deliver part of the chunk before it raises. ForwardOrder's "the outputs are the inputs in order" covers only the chunks delivered whole; a partial chunk before a failure is not recorded.
- Relay.Peer.SendAll: the same, for the value form of the socket.
- The 4096-byte bound of the relay's reads is not modelled. A scripted chunk stands for whatever one read returned.
- Handshake.ExtractAddressPort: a domain name is kept as its UTF-8 bytes, gated by strict well-formedness. It is not decoded to text.
- DottedQuad.Parse: only the canonical form "a.b.c.d" of `inet_aton` is modelled. The shorter, octal and hexadecimal forms are not. The only text the source parses is the constant "127.0.0.1".
- The loop is not modelled as a whole over many passes. `Tunnel.LoopBody` is one pass, and `Session.RunSession` is the relay that follows a success reply.
  - The tunnel has two separate models: a byte stream with a cursor for the handshake (`Handshake.Recv`), and a script of whole chunks for the relay (`Relay.Peer.Recv`). Nothing connects the two.
  - In `Session.NextInput` and `Session.NextInputAsWritten`, the bytes that follow the signal (`following`) are a parameter. They are not derived from what is left of the tunnel's script after the relay.
- An unrecoverable tunnel error does not make the host reconnect. The source never leaves `handle_persistent_tunnel`'s loop: a closed tunnel just fails every handshake and pauses. The model follows the code.

## Findings

| source | as written | input that shows it | evidently intended | confidence | as-written member | corrected member |
|---|---|---|---|---|---|---|
| client.py:206-211 | `forward_traffic` returns the reconnection signal (client.py:71), but the relay thread's return value is discarded. The next `extract_address_port` then waits for another greeting, although the signal was the next SOCKS client's greeting. | The next client sends `05 01 00`, which ends the relay, and then waits for `05 00`. The host reads nothing more, and that client never gets an answer. If the client sends its request `05 01 00 01 a b c d p p` anyway, the request is rejected. With reserved byte 00, the request's first three bytes even pass as a greeting and draw a stray `05 00` before the rejection. | The signal is the start of the next handshake (the function's docstring says it returns so that a new target connection can be established). Decoding should resume with it, so the client gets `05 00` and its request is accepted. | medium, not executed | Session.SignalLost | Session.SignalResumed |
