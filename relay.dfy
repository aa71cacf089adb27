/** The turn-taking relay between the tunnel and one destination
    (`forward_traffic`).
    Sockets are scripted: each holds the results its future `recv` calls will
    return and whether its future `sendall` calls succeed, and records what it
    delivered and whether it was closed. */
module Relay {
  import opened Wire

  /** What one `recv(4096)` gives: bytes (none once the peer has closed), or
      an exception such as a timeout or a reset. */
  datatype ReadResult = Received(data: seq<Byte>) | Raised

  /** The state of one socket as the relay sees it. */
  datatype Peer = Peer(incoming: seq<ReadResult>, outcomes: seq<bool>, sent: seq<seq<Byte>>, closed: bool)
  {
    /** `recv`: the next scripted result; once the script is used up the
        peer has closed and every read is empty. */
    function Recv(): (Peer, ReadResult) {
      if incoming == [] then (this, Received([])) else (this.(incoming := incoming[1..]), incoming[0])
    }

    /** `sendall`: the next scripted outcome (success once the script is used
        up); a successful call delivers `data` whole. */
    function SendAll(data: seq<Byte>): (Peer, bool) {
      var ok := outcomes == [] || outcomes[0];
      (this.(outcomes := if outcomes == [] then [] else outcomes[1..], sent := if ok then sent + [data] else sent), ok)
    }

    function Close(): Peer {
      this.(closed := true)
    }
  }

  /** A scripted socket; `State` is its abstract value. */
  class Socket {
    var incoming: seq<ReadResult>
    var outcomes: seq<bool>
    var sent: seq<seq<Byte>>
    var closed: bool

    function State(): Peer
      reads this
    {
      Peer(incoming, outcomes, sent, closed)
    }

    constructor (incoming: seq<ReadResult>, outcomes: seq<bool>)
      ensures State() == Peer(incoming, outcomes, [], false)
    {
      this.incoming, this.outcomes, this.sent, this.closed := incoming, outcomes, [], false;
    }

    method Recv() returns (r: ReadResult)
      modifies this
      ensures (State(), r) == old(State()).Recv()
    {
      if incoming == [] {
        r := Received([]);
      } else {
        r := incoming[0];
        incoming := incoming[1..];
      }
    }

    method SendAll(data: seq<Byte>) returns (ok: bool)
      modifies this
      ensures (State(), ok) == old(State()).SendAll(data)
    {
      ok := outcomes == [] || outcomes[0];
      if outcomes != [] {
        outcomes := outcomes[1..];
      }
      if ok {
        sent := sent + [data];
      }
    }

    method Close()
      modifies this
      ensures State() == old(State()).Close()
    {
      closed := true;
    }
  }

  /** How a relay ended: the sockets afterwards, and the reconnection signal
      if that is what stopped it. */
  datatype Relayed = Relayed(proxy: Peer, destination: Peer, signal: Option<seq<Byte>>)

  /** Where one round of the relay leads: it stops with its outcome, or it
      goes round again with the proxy's next chunk. */
  datatype Round = Stopped(result: Relayed) | Continued(proxy: Peer, destination: Peer, data: seq<Byte>)

  /** One round for a non-empty chunk `data`: send it to the destination,
      read the response, send that to the proxy, read the proxy's next chunk.
      An exception, an empty response or a failed send stops the relay, and so
      does a proxy chunk equal to the greeting, which is then the signal. The
      destination is closed whenever the relay stops. */
  function RoundOf(proxy: Peer, destination: Peer, data: seq<Byte>): (r: Round)
    requires data != []
    ensures r.Stopped? ==> r.result.destination.closed && r.result.proxy.closed == proxy.closed
    ensures r.Stopped? && r.result.signal.Some? ==> r.result.signal.value == Greeting
    // A completed round delivered `data`, then one non-empty response, and
    // consumed one read on each side.
    ensures r.Continued? ==>
      && destination.incoming != [] && destination.incoming[0].Received?
      && destination.incoming[0].data != []
      && r.destination.sent == destination.sent + [data]
      && r.destination.incoming == destination.incoming[1..]
      && r.proxy.sent == proxy.sent + [destination.incoming[0].data]
      && r.proxy.incoming == Drop(proxy.incoming, 1)
      && r.destination.outcomes == Drop(destination.outcomes, 1)
      && r.proxy.outcomes == Drop(proxy.outcomes, 1)
      && (proxy.incoming == [] ==> r.data == [])
      && (proxy.incoming != [] ==> proxy.incoming[0] == Received(r.data))
      && r.data != Greeting
      && r.proxy.closed == proxy.closed && r.destination.closed == destination.closed
  {
    var (d1, delivered) := destination.SendAll(data);
    if !delivered then Stopped(Relayed(proxy, d1.Close(), None))
    else
      var (d2, response) := d1.Recv();
      if response.Raised? || response.data == [] then Stopped(Relayed(proxy, d2.Close(), None))
      else
        var (p1, answered) := proxy.SendAll(response.data);
        if !answered then Stopped(Relayed(p1, d2.Close(), None))
        else
          var (p2, next) := p1.Recv();
          if next.Raised? then Stopped(Relayed(p2, d2.Close(), None))
          else if next.data == Greeting then Stopped(Relayed(p2, d2.Close(), Some(next.data)))
          else Continued(p2, d2, next.data)
  }

  /** The relay: rounds until one stops it; an empty chunk stops it at once. */
  function Forward(proxy: Peer, destination: Peer, data: seq<Byte>): Relayed
    decreases 2 * |proxy.incoming| + (if data == [] then 0 else 1)
  {
    if data == [] then Relayed(proxy, destination.Close(), None)
    else
      match RoundOf(proxy, destination, data)
      case Stopped(result) => result
      case Continued(p, d, next) => Forward(p, d, next)
  }

  /** forward_traffic: relay between the tunnel (`proxy`) and `destination`,
      starting from `initial`, the chunk already read from the tunnel.
      Returns the signal when the relay stopped on it, `None` otherwise. */
  method ForwardTraffic(proxy: Socket, destination: Socket, initial: seq<Byte>)
    returns (signal: Option<seq<Byte>>)
    requires proxy != destination
    modifies proxy, destination
    ensures Forward(old(proxy.State()), old(destination.State()), initial) ==
            Relayed(proxy.State(), destination.State(), signal)
  {
    ghost var outcome := Forward(proxy.State(), destination.State(), initial);
    var data := initial;
    while true
      invariant Forward(proxy.State(), destination.State(), data) == outcome
      decreases 2 * |proxy.incoming| + (if data == [] then 0 else 1)
    {
      if data == [] {
        break;
      }
      var delivered := destination.SendAll(data);
      if !delivered {
        break;
      }
      var response := destination.Recv();
      if response.Raised? || response.data == [] {
        break;
      }
      var answered := proxy.SendAll(response.data);
      if !answered {
        break;
      }
      var next := proxy.Recv();
      if next.Raised? {
        break;
      }
      data := next.data;
      if data == Greeting {
        destination.Close();
        return Some(data);
      }
    }
    destination.Close();
    return None;
  }

  /** The chunks `after` delivered that `before` had not. */
  function NewlySent(before: Peer, after: Peer): seq<seq<Byte>> {
    if |before.sent| <= |after.sent| then after.sent[|before.sent|..] else []
  }

  /** The script left after `k` reads. */
  function Drop<T>(s: seq<T>, k: nat): seq<T> {
    if k <= |s| then s[k..] else []
  }

  /** Appending `x` and then some chunks is appending `x` followed by them. */
  lemma SentAfter(before: Peer, middle: Peer, after: Peer, x: seq<Byte>)
    requires middle.sent == before.sent + [x]
    requires after.sent == middle.sent + NewlySent(middle, after)
    ensures after.sent == before.sent + NewlySent(before, after)
    ensures NewlySent(before, after) == [x] + NewlySent(middle, after)
  {
    assert after.sent == before.sent + ([x] + NewlySent(middle, after));
  }

  /** One read and then `k` more is `k + 1` reads. */
  lemma DropAfter<T>(before: seq<T>, middle: seq<T>, after: seq<T>, k: nat)
    requires middle == Drop(before, 1) && after == Drop(middle, k)
    ensures after == Drop(before, k + 1)
  {
    if before != [] && k <= |middle| {
      assert before[1..][k..] == before[k + 1..];
    }
  }

  /** What a round that stops sent and read: nothing, `data` alone with one
      destination read, or `data` and the response with one read on each side. */
  lemma StoppedSends(proxy: Peer, destination: Peer, data: seq<Byte>)
    requires data != [] && RoundOf(proxy, destination, data).Stopped?
    ensures var r := RoundOf(proxy, destination, data).result;
      || (r.destination.sent == destination.sent && r.proxy.sent == proxy.sent &&
          r.destination.incoming == destination.incoming && r.proxy.incoming == proxy.incoming)
      || (r.destination.sent == destination.sent + [data] && r.proxy.sent == proxy.sent &&
          r.destination.incoming == Drop(destination.incoming, 1) &&
          r.proxy.incoming == proxy.incoming)
      || (r.destination.sent == destination.sent + [data] &&
          destination.incoming != [] && destination.incoming[0].Received? &&
          destination.incoming[0].data != [] &&
          r.proxy.sent == proxy.sent + [destination.incoming[0].data] &&
          r.destination.incoming == destination.incoming[1..] &&
          r.proxy.incoming == Drop(proxy.incoming, 1) &&
          proxy.incoming != [] &&
          (proxy.incoming[0].Raised? || proxy.incoming[0] == Received(Greeting)))
  {
  }

  /** A round that stops sends `data` at most once and the response at most
      once, reads each side once after each send, and the response only
      after `data` went through. */
  lemma StoppedTurns(proxy: Peer, destination: Peer, data: seq<Byte>)
    requires data != [] && RoundOf(proxy, destination, data).Stopped?
    ensures var r := RoundOf(proxy, destination, data).result;
      var toDestination, toProxy := NewlySent(destination, r.destination), NewlySent(proxy, r.proxy);
      && r.destination.sent == destination.sent + toDestination
      && r.proxy.sent == proxy.sent + toProxy
      && |toProxy| <= |toDestination| <= |toProxy| + 1
      && r.destination.incoming == Drop(destination.incoming, |toDestination|)
      && r.proxy.incoming == Drop(proxy.incoming, |toProxy|)
  {
    StoppedSends(proxy, destination, data);
  }

  /** The relay only appends to what each socket delivered, and the
      destination was sent as many chunks as the proxy, or one more. Each side
      consumed exactly one read per chunk it was sent. */
  lemma {:induction false} ForwardTurns(proxy: Peer, destination: Peer, data: seq<Byte>)
    ensures var r := Forward(proxy, destination, data);
      var toDestination, toProxy := NewlySent(destination, r.destination), NewlySent(proxy, r.proxy);
      && r.destination.sent == destination.sent + toDestination
      && r.proxy.sent == proxy.sent + toProxy
      && |toProxy| <= |toDestination| <= |toProxy| + 1
      && r.destination.incoming == Drop(destination.incoming, |toDestination|)
      && r.proxy.incoming == Drop(proxy.incoming, |toProxy|)
    decreases 2 * |proxy.incoming| + (if data == [] then 0 else 1)
  {
    if data != [] {
      match RoundOf(proxy, destination, data)
      case Stopped(result) =>
        StoppedTurns(proxy, destination, data);
      case Continued(p, d, next) =>
        var r := Forward(p, d, next);
        ForwardTurns(p, d, next);
        SentAfter(destination, d, r.destination, data);
        SentAfter(proxy, p, r.proxy, destination.incoming[0].data);
        DropAfter(destination.incoming, d.incoming, r.destination.incoming, |NewlySent(d, r.destination)|);
        DropAfter(proxy.incoming, p.incoming, r.proxy.incoming, |NewlySent(p, r.proxy)|);
    }
  }

  /** The relay closes the destination however it ends and never closes
      the proxy; the only signal it returns is the greeting. */
  lemma {:induction false} ForwardCloses(proxy: Peer, destination: Peer, data: seq<Byte>)
    ensures var r := Forward(proxy, destination, data);
      r.destination.closed && r.proxy.closed == proxy.closed &&
      (r.signal.Some? ==> r.signal.value == Greeting)
    decreases 2 * |proxy.incoming| + (if data == [] then 0 else 1)
  {
    if data != [] {
      match RoundOf(proxy, destination, data)
      case Stopped(_) =>
      case Continued(p, d, next) =>
        ForwardCloses(p, d, next);
    }
  }

  /** Both output streams are the inputs in order: the destination was sent
      `data` and then the proxy's chunks as read (`proxyIn`), the proxy the
      destination's responses as read (`destinationIn`). Nothing empty was
      sent, and no chunk read from the proxy and forwarded is the greeting. */
  predicate InOrder(data: seq<Byte>, proxyIn: seq<ReadResult>, destinationIn: seq<ReadResult>,
                    toDestination: seq<seq<Byte>>, toProxy: seq<seq<Byte>>)
  {
    && |toDestination| <= |proxyIn| + 1 && |toProxy| <= |destinationIn|
    && (toDestination != [] ==> toDestination[0] == data)
    && (forall i :: 0 < i < |toDestination| ==>
          proxyIn[i - 1] == Received(toDestination[i]) && toDestination[i] != Greeting)
    && (forall i :: 0 <= i < |toProxy| ==> destinationIn[i] == Received(toProxy[i]))
    && (forall i :: 0 <= i < |toDestination| ==> toDestination[i] != [])
    && (forall i :: 0 <= i < |toProxy| ==> toProxy[i] != [])
  }

  /** A completed round in front of an ordered rest gives an ordered whole. */
  lemma InOrderRound(data: seq<Byte>, proxyIn: seq<ReadResult>, destinationIn: seq<ReadResult>,
                     response: seq<Byte>, next: seq<Byte>, toDestination: seq<seq<Byte>>, toProxy: seq<seq<Byte>>)
    requires InOrder(next, Drop(proxyIn, 1), Drop(destinationIn, 1), toDestination, toProxy)
    requires data != [] && response != [] && next != Greeting
    requires destinationIn != [] && destinationIn[0] == Received(response)
    requires proxyIn == [] ==> next == []
    requires proxyIn != [] ==> proxyIn[0] == Received(next)
    ensures InOrder(data, proxyIn, destinationIn, [data] + toDestination, [response] + toProxy)
  {
    var toD, toP := [data] + toDestination, [response] + toProxy;
    var restIn := Drop(destinationIn, 1);
    assert restIn == destinationIn[1..];
    forall i | 0 < i < |toD|
      ensures proxyIn[i - 1] == Received(toD[i]) && toD[i] != Greeting
    {
      assert toD[i] == toDestination[i - 1];
      if i > 1 {
        assert Drop(proxyIn, 1) == proxyIn[1..];
        assert proxyIn[i - 1] == Drop(proxyIn, 1)[i - 2];
      }
    }
    forall i | 0 < i < |toP|
      ensures destinationIn[i] == Received(toP[i])
    {
      assert toP[i] == toProxy[i - 1];
      assert restIn[i - 1] == Received(toProxy[i - 1]);
    }
    assert forall i :: 0 <= i < |toD| ==> toD[i] != [] by {
      assert forall i :: 0 < i < |toD| ==> toD[i] == toDestination[i - 1];
    }
    assert forall i :: 0 <= i < |toP| ==> toP[i] != [] by {
      assert forall i :: 0 < i < |toP| ==> toP[i] == toProxy[i - 1];
    }
  }

  /** A round that stops leaves ordered output. */
  lemma StoppedOrder(proxy: Peer, destination: Peer, data: seq<Byte>)
    requires data != [] && RoundOf(proxy, destination, data).Stopped?
    ensures var r := RoundOf(proxy, destination, data).result;
      InOrder(data, proxy.incoming, destination.incoming,
              NewlySent(destination, r.destination), NewlySent(proxy, r.proxy))
  {
    StoppedSends(proxy, destination, data);
  }

  /** What the relay sent each side is that side's input in order. */
  lemma {:induction false} ForwardOrder(proxy: Peer, destination: Peer, data: seq<Byte>)
    ensures var r := Forward(proxy, destination, data);
      InOrder(data, proxy.incoming, destination.incoming,
              NewlySent(destination, r.destination), NewlySent(proxy, r.proxy))
    decreases 2 * |proxy.incoming| + (if data == [] then 0 else 1)
  {
    if data != [] {
      match RoundOf(proxy, destination, data)
      case Stopped(_) =>
        StoppedOrder(proxy, destination, data);
      case Continued(p, d, next) =>
        var r := Forward(p, d, next);
        ForwardOrder(p, d, next);
        ForwardTurns(p, d, next);
        SentAfter(destination, d, r.destination, data);
        SentAfter(proxy, p, r.proxy, destination.incoming[0].data);
        InOrderRound(data, proxy.incoming, destination.incoming, destination.incoming[0].data, next,
                     NewlySent(d, r.destination), NewlySent(p, r.proxy));
    }
  }

  /** The relay stopped on the signal: the proxy chunk read right after the
      last response went through is the greeting. */
  predicate ResyncedAt(proxyIn: seq<ReadResult>, toDestination: seq<seq<Byte>>, toProxy: seq<seq<Byte>>) {
    var m := |toProxy|;
    m >= 1 && |toDestination| == m && m - 1 < |proxyIn| && proxyIn[m - 1] == Received(Greeting)
  }

  /** A completed round in front of the rest keeps the signal's position. */
  lemma ResyncedRound(proxyIn: seq<ReadResult>, next: seq<Byte>, data: seq<Byte>, response: seq<Byte>,
                      toDestination: seq<seq<Byte>>, toProxy: seq<seq<Byte>>)
    requires next != Greeting
    requires proxyIn != [] ==> proxyIn[0] == Received(next)
    requires proxyIn == [] ==> toDestination == [] && toProxy == []
    ensures ResyncedAt(proxyIn, [data] + toDestination, [response] + toProxy) <==>
            ResyncedAt(Drop(proxyIn, 1), toDestination, toProxy)
  {
    if proxyIn != [] && toProxy != [] && |toProxy| < |proxyIn| {
      assert proxyIn[|toProxy|] == Drop(proxyIn, 1)[|toProxy| - 1];
    }
  }

  /** A round that stops returns the signal exactly when its proxy read was
      the greeting. */
  lemma StoppedSignal(proxy: Peer, destination: Peer, data: seq<Byte>)
    requires data != [] && RoundOf(proxy, destination, data).Stopped?
    ensures var r := RoundOf(proxy, destination, data).result;
      r.signal.Some? <==>
      ResyncedAt(proxy.incoming, NewlySent(destination, r.destination), NewlySent(proxy, r.proxy))
  {
  }

  /** The relay returns the signal exactly when a proxy chunk read after a
      response, never the initial chunk, is the greeting; every other ending
      returns `None`. */
  lemma {:induction false} ForwardSignal(proxy: Peer, destination: Peer, data: seq<Byte>)
    ensures var r := Forward(proxy, destination, data);
      r.signal.Some? <==>
      ResyncedAt(proxy.incoming, NewlySent(destination, r.destination), NewlySent(proxy, r.proxy))
    decreases 2 * |proxy.incoming| + (if data == [] then 0 else 1)
  {
    if data != [] {
      match RoundOf(proxy, destination, data)
      case Stopped(_) =>
        StoppedSignal(proxy, destination, data);
      case Continued(p, d, next) =>
        var r := Forward(p, d, next);
        ForwardSignal(p, d, next);
        ForwardTurns(p, d, next);
        ForwardOrder(p, d, next);
        SentAfter(destination, d, r.destination, data);
        SentAfter(proxy, p, r.proxy, destination.incoming[0].data);
        ResyncedRound(proxy.incoming, next, data, destination.incoming[0].data,
                      NewlySent(d, r.destination), NewlySent(p, r.proxy));
    }
  }

  /** The `i`th read of a script; past its end the peer has closed. */
  function ReadAt(s: seq<ReadResult>, i: nat): ReadResult {
    if i < |s| then s[i] else Received([])
  }

  /** A read that ends the relay: an exception, or nothing (the peer closed). */
  predicate Ends(x: ReadResult) {
    x.Raised? || x.data == []
  }

  /** The `i`th `sendall` of a script fails. */
  predicate FailsAt(outcomes: seq<bool>, i: nat) {
    i < |outcomes| && !outcomes[i]
  }

  /** Why a relay that sent `sentToDestination` and `sentToProxy` chunks
      stopped without the signal: the chunk it started with was empty, or the
      last read ended (destination response or proxy chunk), or the next send
      failed. */
  predicate StopReason(data: seq<Byte>, proxyIn: seq<ReadResult>, proxyOutcomes: seq<bool>,
                       destinationIn: seq<ReadResult>, destinationOutcomes: seq<bool>,
                       sentToDestination: nat, sentToProxy: nat)
  {
    if sentToDestination == sentToProxy then
      if sentToProxy == 0 then data == [] || FailsAt(destinationOutcomes, 0)
      else Ends(ReadAt(proxyIn, sentToProxy - 1)) || FailsAt(destinationOutcomes, sentToDestination)
    else
      Ends(ReadAt(destinationIn, sentToProxy)) || FailsAt(proxyOutcomes, sentToProxy)
  }

  lemma ReadAtDrop(s: seq<ReadResult>, i: nat)
    ensures ReadAt(Drop(s, 1), i) == ReadAt(s, i + 1)
  {
  }

  lemma FailsAtDrop(outcomes: seq<bool>, i: nat)
    ensures FailsAt(Drop(outcomes, 1), i) == FailsAt(outcomes, i + 1)
  {
  }

  /** A completed round in front of the rest moves the stop reason on by one
      send and one read on each side. */
  lemma StopReasonRound(data: seq<Byte>, next: seq<Byte>, proxyIn: seq<ReadResult>, proxyOutcomes: seq<bool>,
                        destinationIn: seq<ReadResult>, destinationOutcomes: seq<bool>, m: nat, n: nat)
    requires StopReason(next, Drop(proxyIn, 1), Drop(proxyOutcomes, 1), Drop(destinationIn, 1),
                        Drop(destinationOutcomes, 1), m, n)
    requires n <= m <= n + 1
    requires proxyIn == [] ==> next == []
    requires proxyIn != [] ==> proxyIn[0] == Received(next)
    ensures StopReason(data, proxyIn, proxyOutcomes, destinationIn, destinationOutcomes, m + 1, n + 1)
  {
    FailsAtDrop(destinationOutcomes, m);
    FailsAtDrop(proxyOutcomes, n);
    ReadAtDrop(destinationIn, n);
    if n > 0 {
      ReadAtDrop(proxyIn, n - 1);
    }
  }

  /** A round that stops without the signal stops for one of the reasons. */
  lemma StoppedReason(proxy: Peer, destination: Peer, data: seq<Byte>)
    requires data != [] && RoundOf(proxy, destination, data).Stopped?
    ensures var r := RoundOf(proxy, destination, data).result;
      r.signal.None? ==>
      StopReason(data, proxy.incoming, proxy.outcomes, destination.incoming, destination.outcomes,
                 |NewlySent(destination, r.destination)|, |NewlySent(proxy, r.proxy)|)
  {
    StoppedSends(proxy, destination, data);
  }

  /** The relay returns `None` only for a reason the loop has: the chunk it
      started from was empty, a read ended (an exception, or an empty read
      from either side), or a send failed. So every chunk read before that
      point was forwarded. */
  lemma {:induction false} ForwardStops(proxy: Peer, destination: Peer, data: seq<Byte>)
    ensures var r := Forward(proxy, destination, data);
      r.signal.None? ==>
      StopReason(data, proxy.incoming, proxy.outcomes, destination.incoming, destination.outcomes,
                 |NewlySent(destination, r.destination)|, |NewlySent(proxy, r.proxy)|)
    decreases 2 * |proxy.incoming| + (if data == [] then 0 else 1)
  {
    if data != [] {
      match RoundOf(proxy, destination, data)
      case Stopped(_) =>
        StoppedReason(proxy, destination, data);
      case Continued(p, d, next) =>
        var r := Forward(p, d, next);
        ForwardStops(p, d, next);
        ForwardTurns(p, d, next);
        SentAfter(destination, d, r.destination, data);
        SentAfter(proxy, p, r.proxy, destination.incoming[0].data);
        assert d.incoming == Drop(destination.incoming, 1);
        if r.signal.None? {
          StopReasonRound(data, next, proxy.incoming, proxy.outcomes, destination.incoming, destination.outcomes,
                          |NewlySent(d, r.destination)|, |NewlySent(p, r.proxy)|);
        }
    }
  }
}
