/** Handling of the SOCKS5 CONNECT command (section 4 of RFC 1928) by the client
    side of the proxy (Socks5CommandRequestHandler), and the relay pair its two
    inner handlers form: Dest2ClientHandler on the upstream channel copies what
    the upstream sends to the client, Client2DestHandler on the client channel
    copies what the client sends to the upstream, and each closes the other
    channel when its own goes inactive.

    A channel is an object with an open flag, the messages written to it (in
    order) and its handler pipeline. Whether the dial succeeds is a parameter.
    The replies have the form of section 6 of RFC 1928 reduced to its REP and
    ATYP fields. The callbacks are methods on channel objects, each proved to
    act as one step of the value-level relay below; what the relay promises over
    a whole run of events is proved on those values. */
module CommandHandler {

  /** Socks5CommandType, compared (as its equals() does) by its byte value. */
  datatype CommandType = CommandType(code: bv8)

  /** CONNECT is command code X'01' (section 4 of RFC 1928). */
  const CONNECT: CommandType := CommandType(0x01)

  /** The ATYP values of RFC 1928: X'01' IPv4, X'03' domain name, X'04' IPv6. */
  datatype AddressType = IPv4 | Domain | IPv6

  /** The REP values the handler uses: X'00' succeeded, X'01' general SOCKS server failure. */
  datatype Status = Success | Failure

  type Port = p: int | 0 <= p < 0x1_0000

  /** A decoded command request: CMD, ATYP, DST.ADDR and DST.PORT. */
  datatype CommandRequest = CommandRequest(kind: CommandType, dstAddrType: AddressType, dstAddr: string, dstPort: Port)

  /** The destination the client asked for, as handed to the upstream hop. */
  datatype DestVisitAddress = DestVisitAddress(host: string, port: Port)

  datatype Endpoint = Endpoint(host: string, port: Port)

  /** Every CONNECT is dialled to this local hop, whatever the request's destination. */
  const UpstreamHop: Endpoint := Endpoint("127.0.0.1", 11080)

  /** The suffix of the handshake line sent to the upstream hop. */
  const HandshakeTag: string := "zjp"

  /** What is written to a channel. */
  datatype Msg =
    | Response(status: Status, addrType: AddressType)  // a command response (REP, ATYP)
    | Handshake(dest: DestVisitAddress, tag: string)  // the text of dest followed by tag
    | Data(bytes: seq<bv8>)                           // anything else read from a peer

  /** The handlers a channel pipeline can hold. */
  datatype Handler =
    | Other(name: string)                                   // codecs and the command handler itself
    | Client2Dest(upstream: Channel)                        // on the client channel
    | Dest2Client(client: Channel, dest: DestVisitAddress)  // on the upstream channel

  /** A channel as a value. */
  datatype ChannelState = ChannelState(open: bool, outbound: seq<Msg>, pipeline: seq<Handler>)

  /** writeAndFlush(m): an open channel sends m after what it has already sent; a
      write to a closed channel fails and sends nothing. */
  function Written(c: ChannelState, m: Msg): ChannelState {
    if c.open then c.(outbound := c.outbound + [m]) else c
  }

  /** close(): closing is idempotent. */
  function Closed(c: ChannelState): ChannelState {
    c.(open := false)
  }

  function Appended(c: ChannelState, h: Handler): ChannelState {
    c.(pipeline := c.pipeline + [h])
  }

  class Channel {
    var open: bool
    var outbound: seq<Msg>
    var pipeline: seq<Handler>

    function State(): ChannelState
      reads this
    {
      ChannelState(open, outbound, pipeline)
    }

    /** A new channel with its initializer's handlers in place. */
    constructor (pipeline: seq<Handler>)
      ensures State() == ChannelState(true, [], pipeline)
    {
      open := true;
      outbound := [];
      this.pipeline := pipeline;
    }

    method WriteAndFlush(m: Msg)
      modifies this
      ensures State() == Written(old(State()), m)
    {
      if open {
        outbound := outbound + [m];
      }
    }

    method Close()
      modifies this
      ensures State() == Closed(old(State()))
    {
      open := false;
    }

    method AddLast(h: Handler)
      modifies this
      ensures State() == Appended(old(State()), h)
    {
      pipeline := pipeline + [h];
    }
  }

  /** What channelRead0 does with a request: pass it unchanged to the next
      handler, or dial. */
  datatype Route = FiredNext(request: CommandRequest) | Dialed(remote: Endpoint)

  /** Only CONNECT is handled, and it is always dialled to the fixed hop; every
      other command is passed on untouched. */
  function RouteOf(request: CommandRequest): (r: Route)
    ensures r.Dialed? <==> request.kind.code == 0x01
    ensures r.Dialed? ==> r.remote == UpstreamHop
    ensures r.FiredNext? ==> r.request == request
  {
    if request.kind == CONNECT then Dialed(UpstreamHop) else FiredNext(request)
  }

  function DestOf(request: CommandRequest): DestVisitAddress {
    DestVisitAddress(request.dstAddr, request.dstPort)
  }

  /** The reply to a CONNECT: SUCCESS or FAILURE, always with ATYP IPv4. */
  function Reply(dialOk: bool): Msg {
    Response(if dialOk then Success else Failure, IPv4)
  }

  /** The client channel after the dial completes: on success a Client2Dest
      handler for the upstream is appended and then SUCCESS is written; on
      failure FAILURE is written and nothing else changes. Either way exactly
      one reply is written and the client channel is left open. */
  function AfterDial(client: ChannelState, dialOk: bool, upstream: Channel): (r: ChannelState)
    ensures r.open == client.open
    ensures dialOk ==> r.pipeline == client.pipeline + [Client2Dest(upstream)]
    ensures !dialOk ==> r.pipeline == client.pipeline
    ensures client.open ==> r.outbound == client.outbound + [Response(if dialOk then Success else Failure, IPv4)]
    ensures !client.open ==> r.outbound == client.outbound
  {
    if dialOk then Written(Appended(client, Client2Dest(upstream)), Reply(true))
    else Written(client, Reply(false))
  }

  /** The upstream channel the dial creates: its initializer installs a
      Dest2Client handler for the client and the requested destination; it is
      open after a successful connect and closed after a failed one. */
  function DialedUpstream(client: Channel, dest: DestVisitAddress, dialOk: bool): ChannelState {
    ChannelState(dialOk, [], [Dest2Client(client, dest)])
  }

  /** channelRead0 together with the dial's completion listener. */
  method ChannelRead0(client: Channel, msg: CommandRequest, dialOk: bool) returns (route: Route, upstream: Channel?)
    modifies client
    ensures route == RouteOf(msg)
    ensures route.FiredNext? ==> upstream == null && client.State() == old(client.State())
    ensures route.Dialed? ==>
      && upstream != null && fresh(upstream)
      && upstream.State() == DialedUpstream(client, DestOf(msg), dialOk)
      && client.State() == AfterDial(old(client.State()), dialOk, upstream)
  {
    if msg.kind == CONNECT {
      upstream := new Channel([Dest2Client(client, DestOf(msg))]);
      route := Dialed(UpstreamHop);
      if dialOk {
        client.AddLast(Client2Dest(upstream));
        client.WriteAndFlush(Reply(true));
      } else {
        upstream.Close();
        client.WriteAndFlush(Reply(false));
      }
    } else {
      route := FiredNext(msg);
      upstream := null;
    }
  }

  /** The two channels of a relay pair, as values. */
  datatype Relay = Relay(client: ChannelState, upstream: ChannelState)

  /** The events a relay pair reacts to. */
  datatype RelayEvent =
    | UpstreamActive(dest: DestVisitAddress)  // the upstream connects: Dest2ClientHandler.channelActive
    | UpstreamRead(msg: Msg)                  // Dest2ClientHandler.channelRead
    | UpstreamInactive                        // the upstream closes: Dest2ClientHandler.channelInactive
    | ClientRead(msg: Msg)                    // Client2DestHandler.channelRead
    | ClientInactive                          // the client closes: Client2DestHandler.channelInactive

  predicate IsClose(e: RelayEvent) {
    e.UpstreamInactive? || e.ClientInactive?
  }

  /** One event: the handshake or a read message is written to the other side,
      and a side that closes takes the other with it. Pipelines never change. */
  function Step(p: Relay, e: RelayEvent): (r: Relay)
    ensures r.client.pipeline == p.client.pipeline && r.upstream.pipeline == p.upstream.pipeline
    ensures IsClose(e) ==> !r.client.open && !r.upstream.open
    ensures !IsClose(e) ==> r.client.open == p.client.open && r.upstream.open == p.upstream.open
    ensures e.UpstreamRead? ==> r.upstream == p.upstream
    ensures e.ClientRead? || e.UpstreamActive? ==> r.client == p.client
  {
    match e
    case UpstreamActive(dest) => p.(upstream := Written(p.upstream, Handshake(dest, HandshakeTag)))
    case UpstreamRead(m) => p.(client := Written(p.client, m))
    case UpstreamInactive => Relay(Closed(p.client), Closed(p.upstream))
    case ClientRead(m) => p.(upstream := Written(p.upstream, m))
    case ClientInactive => Relay(Closed(p.client), Closed(p.upstream))
  }

  /** The pair after a sequence of events. */
  function Run(p: Relay, events: seq<RelayEvent>): Relay
    decreases |events|
  {
    if events == [] then p else Run(Step(p, events[0]), events[1..])
  }

  /** What should reach the upstream: the handshake and every message the client
      sent, in order, up to the first close. */
  function SentUpstream(events: seq<RelayEvent>): seq<Msg>
    decreases |events|
  {
    if events == [] then []
    else match events[0]
      case UpstreamActive(dest) => [Handshake(dest, HandshakeTag)] + SentUpstream(events[1..])
      case ClientRead(m) => [m] + SentUpstream(events[1..])
      case UpstreamRead(_) => SentUpstream(events[1..])
      case UpstreamInactive => []
      case ClientInactive => []
  }

  /** What should reach the client: every message the upstream sent, in order,
      up to the first close. */
  function SentToClient(events: seq<RelayEvent>): seq<Msg>
    decreases |events|
  {
    if events == [] then []
    else match events[0]
      case UpstreamRead(m) => [m] + SentToClient(events[1..])
      case UpstreamActive(_) => SentToClient(events[1..])
      case ClientRead(_) => SentToClient(events[1..])
      case UpstreamInactive => []
      case ClientInactive => []
  }

  /** The channel objects of a pair, as values. */
  function RelayOf(client: Channel, upstream: Channel): Relay
    reads client, upstream
  {
    Relay(client.State(), upstream.State())
  }

  /** Dest2ClientHandler.channelActive: write the handshake for the requested
      destination to the upstream, then let activation propagate. */
  method Dest2ClientChannelActive(upstream: Channel, h: Handler)
    requires h.Dest2Client? && h in upstream.pipeline && h.client != upstream
    modifies upstream
    ensures RelayOf(h.client, upstream) == Step(old(RelayOf(h.client, upstream)), UpstreamActive(h.dest))
  {
    upstream.WriteAndFlush(Handshake(h.dest, HandshakeTag));
  }

  /** Dest2ClientHandler.channelRead: write what the upstream sent to the client. */
  method Dest2ClientChannelRead(upstream: Channel, h: Handler, msg: Msg)
    requires h.Dest2Client? && h in upstream.pipeline && h.client != upstream
    modifies h.client
    ensures RelayOf(h.client, upstream) == Step(old(RelayOf(h.client, upstream)), UpstreamRead(msg))
  {
    h.client.WriteAndFlush(msg);
  }

  /** Dest2ClientHandler.channelInactive: the upstream has closed; close the client. */
  method Dest2ClientChannelInactive(upstream: Channel, h: Handler)
    requires h.Dest2Client? && h in upstream.pipeline && h.client != upstream
    requires !upstream.open
    modifies h.client
    ensures RelayOf(h.client, upstream) == Step(old(RelayOf(h.client, upstream)), UpstreamInactive)
  {
    h.client.Close();
  }

  /** Client2DestHandler.channelRead: write what the client sent to the upstream. */
  method Client2DestChannelRead(client: Channel, h: Handler, msg: Msg)
    requires h.Client2Dest? && h in client.pipeline && h.upstream != client
    modifies h.upstream
    ensures RelayOf(client, h.upstream) == Step(old(RelayOf(client, h.upstream)), ClientRead(msg))
  {
    h.upstream.WriteAndFlush(msg);
  }

  /** Client2DestHandler.channelInactive: the client has closed; close the upstream. */
  method Client2DestChannelInactive(client: Channel, h: Handler)
    requires h.Client2Dest? && h in client.pipeline && h.upstream != client
    requires !client.open
    modifies h.upstream
    ensures RelayOf(client, h.upstream) == Step(old(RelayOf(client, h.upstream)), ClientInactive)
  {
    h.upstream.Close();
  }

  /** Once both channels are closed nothing is written any more and nothing changes. */
  lemma {:induction false} ClosedRelayIsInert(p: Relay, events: seq<RelayEvent>)
    requires !p.client.open && !p.upstream.open
    ensures Run(p, events) == p
    decreases |events|
  {
    if events != [] {
      assert Step(p, events[0]) == p;
      ClosedRelayIsInert(p, events[1..]);
    }
  }

  /** Cascading close: once either side closes, both sides are closed for good. */
  lemma {:induction false} CloseCascades(p: Relay, events: seq<RelayEvent>, i: nat)
    requires i < |events| && IsClose(events[i])
    ensures !Run(p, events).client.open && !Run(p, events).upstream.open
    decreases i
  {
    if i == 0 {
      ClosedRelayIsInert(Step(p, events[0]), events[1..]);
    } else {
      CloseCascades(Step(p, events[0]), events[1..], i - 1);
    }
  }

  /** Forwarding copies every message unchanged and in arrival order, in each
      direction, until the first close; the handshake goes where the upstream
      connects. */
  lemma {:induction false} RelayForwardsInOrder(p: Relay, events: seq<RelayEvent>)
    requires p.client.open && p.upstream.open
    ensures Run(p, events).upstream.outbound == p.upstream.outbound + SentUpstream(events)
    ensures Run(p, events).client.outbound == p.client.outbound + SentToClient(events)
    decreases |events|
  {
    if events != [] {
      var q := Step(p, events[0]);
      if IsClose(events[0]) {
        ClosedRelayIsInert(q, events[1..]);
      } else {
        RelayForwardsInOrder(q, events[1..]);
      }
    }
  }

  /** A successful CONNECT on an open client followed by the relay: the client
      receives exactly one reply, SUCCESS with ATYP IPv4, then exactly what the
      upstream sends; the upstream receives first the handshake for the
      requested destination, then exactly what the client sends. */
  lemma ConnectThenRelay(client: Channel, before: ChannelState, upstream: Channel,
                         request: CommandRequest, events: seq<RelayEvent>)
    requires before.open && RouteOf(request).Dialed?
    ensures var p := Relay(AfterDial(before, true, upstream), DialedUpstream(client, DestOf(request), true));
      var q := Run(p, [UpstreamActive(DestOf(request))] + events);
      && q.client.outbound == before.outbound + [Response(Success, IPv4)] + SentToClient(events)
      && q.upstream.outbound == [Handshake(DestOf(request), HandshakeTag)] + SentUpstream(events)
  {
    var p := Relay(AfterDial(before, true, upstream), DialedUpstream(client, DestOf(request), true));
    var all := [UpstreamActive(DestOf(request))] + events;
    RelayForwardsInOrder(p, all);
    assert all[1..] == events;
  }

  /** A failed CONNECT: one FAILURE reply, no relay handler installed, and the
      client channel neither closed nor given anything else. */
  lemma FailedConnect(before: ChannelState, upstream: Channel)
    requires before.open
    ensures AfterDial(before, false, upstream) == before.(outbound := before.outbound + [Response(Failure, IPv4)])
    ensures forall h :: h in AfterDial(before, false, upstream).pipeline ==> h in before.pipeline
  {
  }
}
