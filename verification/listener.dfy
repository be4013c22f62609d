/** The listener component `RadioPlayer`: it holds one socket, one
    mediasoup-client device, one receive transport and one consumer in refs,
    and a play stream in React state. Every socket message, acknowledgement
    and engine callback is one atomic step; handles are numbers chosen by the
    engine or the server. */
module Listener {

  import opened Wrappers

  /** A device and whether `device.load` succeeded. */
  datatype Device = Device(loaded: bool)

  /** The requests the listener emits with an acknowledgement callback. */
  datatype Request = CreateWebRtcTransport | Consume | ConnectWebRtcTransport

  /** Something the listener closes or disconnects. */
  datatype Handle = SocketHandle(id: nat) | TransportHandle(id: nat) | ConsumerHandle(id: nat)

  /** The acknowledgement of `createWebRtcTransport`: an `error` field (the
      empty string is falsy, like an absent one) and the transport id. */
  datatype TransportReply = TransportReply(error: string, id: nat)

  /** The acknowledgement of `consume`: its `error` and `producerId` fields,
      the empty string standing for a falsy or absent value. */
  datatype ConsumeReply = ConsumeReply(error: string, producerId: string)

  /** The acknowledgement of `connectWebRtcTransport`: nothing, or an object
      whose `error` field may be empty. */
  datatype ConnectReply = NoResponse | ConnectResponse(error: string)

  /** Which of the transport `connect` event's two continuations is called. */
  datatype ConnectOutcome = Callback | Errback(message: string)

  /** The `connect` handler's acknowledgement: `errback` exactly when the reply
      carries a truthy `error`, with that text as the message. */
  function ConnectOutcomeOf(reply: ConnectReply): (o: ConnectOutcome)
    ensures o.Errback? <==> reply.ConnectResponse? && reply.error != ""
    ensures o.Errback? ==> o.message == reply.error
  {
    match reply
    case NoResponse => Callback
    case ConnectResponse(error) => if error != "" then Errback(error) else Callback
  }

  /** Why `createConsumer` rejects a reply, if it does: its `error`, or
      "No producerId" when there is no error but no producer id either. */
  function ConsumeRejection(reply: ConsumeReply): (e: Option<string>)
    ensures e.None? <==> reply.error == "" && reply.producerId != ""
    ensures reply.error != "" ==> e == Some(reply.error)
    ensures reply.error == "" && reply.producerId == "" ==> e == Some("No producerId")
  {
    if reply.error != "" then Some(reply.error)
    else if reply.producerId == "" then Some("No producerId")
    else None
  }

  /** The component's state: `mounted` is `isComponentMounted`; the next
      four are the refs; `consumed` are the consumers created so far (each
      has its `transportclose`/`trackended` handlers); `sent` and `closed`
      are what went out; the counters are acknowledgements still awaited, and
      `localConsumes` holds, for each engine `consume` still running, the
      transport it runs on. Of the transports, `connectFired` are those whose
      `connect` event has fired at least once, `connecting` those whose
      `connectWebRtcTransport` acknowledgement is awaited, and `connected`
      those whose `connect` was settled with `callback`. */
  datatype ListenerState = ListenerState(
    mounted: bool,
    socket: Option<nat>,
    device: Option<Device>,
    recvTransport: Option<nat>,
    consumer: Option<nat>,
    playStream: Option<nat>,
    consumed: set<nat>,
    sent: seq<Request>,
    closed: seq<Handle>,
    connectOutcomes: seq<ConnectOutcome>,
    awaitingTransport: nat,
    awaitingConsume: nat,
    localConsumes: multiset<nat>,
    connectFired: set<nat>,
    connecting: set<nat>,
    connected: set<nat>)

  /** The socket is open exactly while mounted; once unmounted there is no
      transport, no stream and no acknowledgement to come; a transport is
      being connected or connected only after its `connect` fired, and never
      both at once; a stream always carries the track
      of a consumer that was created. */
  ghost predicate Inv(s: ListenerState) {
    && (s.mounted <==> s.socket.Some?)
    && (!s.mounted ==>
          s.recvTransport.None? && s.playStream.None? &&
          s.awaitingTransport == 0 && s.awaitingConsume == 0 && s.connecting == {})
    && s.connecting <= s.connectFired && s.connected <= s.connectFired
    && s.connecting !! s.connected
    && (s.playStream.Some? ==> s.playStream.value in s.consumed)
    && (s.consumer.Some? ==> s.consumer.value in s.consumed)
  }

  /** What the cleanup closes, in order: the consumer, the receive
      transport, the socket, each only if held. */
  function Closing(consumer: Option<nat>, transport: Option<nat>, socket: Option<nat>): (r: seq<Handle>)
    ensures |r| <= 3
    ensures forall h :: h in r <==>
      (h.ConsumerHandle? && consumer == Some(h.id)) ||
      (h.TransportHandle? && transport == Some(h.id)) ||
      (h.SocketHandle? && socket == Some(h.id))
    ensures consumer.Some? ==> r[0] == ConsumerHandle(consumer.value)
    ensures socket.Some? ==> r[|r| - 1] == SocketHandle(socket.value)
  {
    (if consumer.Some? then [ConsumerHandle(consumer.value)] else [])
    + (if transport.Some? then [TransportHandle(transport.value)] else [])
    + (if socket.Some? then [SocketHandle(socket.value)] else [])
  }

  /** The state the cleanup leaves keeps the invariant, whatever it closed. */
  lemma UnmountedKeepsInv(s: ListenerState, closing: seq<Handle>)
    requires Inv(s)
    ensures Inv(s.(mounted := false, consumer := None, recvTransport := None, socket := None,
                   playStream := None, closed := s.closed + closing,
                   awaitingTransport := 0, awaitingConsume := 0, connecting := {}))
  {
  }

  class RadioPlayer {
    var mounted: bool
    var socket: Option<nat>
    var device: Option<Device>
    var recvTransport: Option<nat>
    var consumer: Option<nat>
    var playStream: Option<nat>
    var consumed: set<nat>
    var sent: seq<Request>
    var closed: seq<Handle>
    var connectOutcomes: seq<ConnectOutcome>
    var awaitingTransport: nat
    var awaitingConsume: nat
    var localConsumes: multiset<nat>
    var connectFired: set<nat>
    var connecting: set<nat>
    var connected: set<nat>

    function State(): ListenerState
      reads this
    {
      ListenerState(mounted, socket, device, recvTransport, consumer, playStream, consumed,
                    sent, closed, connectOutcomes,
                    awaitingTransport, awaitingConsume, localConsumes,
                    connectFired, connecting, connected)
    }

    ghost predicate Valid()
      reads this
    {
      Inv(State())
    }

    /** The effect runs: `run` opens the socket and registers the handlers. */
    constructor (socketId: nat)
      ensures State() == ListenerState(true, Some(socketId), None, None, None, None, {},
                                       [], [], [], 0, 0, multiset{}, {}, {}, {})
      ensures Valid()
    {
      mounted := true;
      socket := Some(socketId);
      device, recvTransport, consumer, playStream := None, None, None, None;
      consumed := {};
      sent, closed, connectOutcomes := [], [], [];
      awaitingTransport, awaitingConsume := 0, 0;
      localConsumes := multiset{};
      connectFired, connecting, connected := {}, {}, {};
    }

    /** `router-rtp-capabilities`: while mounted, a new device replaces the
        ref; once it has loaded, `createWebRtcTransport` is requested. A load
        failure is swallowed. */
    method OnRouterRtpCapabilities(loadOk: bool)
      requires Valid()
      modifies this
      ensures !old(mounted) ==> State() == old(State())
      ensures old(mounted) ==> State() == old(State()).(
        device := Some(Device(loadOk)),
        sent := old(sent) + (if loadOk then [CreateWebRtcTransport] else []),
        awaitingTransport := old(awaitingTransport) + (if loadOk then 1 else 0))
      ensures Valid()
    {
      if !mounted {
        return;
      }
      device := Some(Device(loadOk));
      if !loadOk {
        return;
      }
      sent := sent + [CreateWebRtcTransport];
      awaitingTransport := awaitingTransport + 1;
    }

    /** `producer-available`: a consume request goes out only with a device,
        a receive transport and no consumer; reading the capabilities of a
        device that has not loaded throws, and then nothing goes out. */
    method OnProducerAvailable()
      requires Valid()
      modifies this
      ensures var asks := old(device).Some? && old(device).value.loaded &&
                          old(recvTransport).Some? && old(consumer).None?;
        State() == old(State()).(
          sent := old(sent) + (if asks then [Consume] else []),
          awaitingConsume := old(awaitingConsume) + (if asks then 1 else 0))
      ensures Valid()
    {
      if device.Some? && recvTransport.Some? && consumer.None? {
        if device.value.loaded {
          sent := sent + [Consume];
          awaitingConsume := awaitingConsume + 1;
        }
      }
    }

    /** `producer-unavailable`: the stream is cleared, and a held consumer is
        closed and dropped. */
    method OnProducerUnavailable()
      requires Valid()
      modifies this
      ensures State() == old(State()).(
        playStream := None,
        consumer := None,
        closed := old(closed) + (if old(consumer).Some? then [ConsumerHandle(old(consumer).value)] else []))
      ensures Valid()
    {
      playStream := None;
      if consumer.Some? {
        closed := closed + [ConsumerHandle(consumer.value)];
        consumer := None;
      }
    }

    /** The `createWebRtcTransport` acknowledgement: a truthy `error`, or a
        `createRecvTransport` that throws, rejects with no transport made;
        otherwise the transport becomes the ref (an earlier one is not closed)
        and a consume request follows. */
    method OnTransportReply(reply: TransportReply, createOk: bool)
      requires Valid() && awaitingTransport > 0
      modifies this
      ensures reply.error != "" || !createOk ==>
        State() == old(State()).(awaitingTransport := old(awaitingTransport) - 1)
      ensures reply.error == "" && createOk ==>
        State() == old(State()).(
          awaitingTransport := old(awaitingTransport) - 1,
          recvTransport := Some(reply.id),
          sent := old(sent) + [Consume],
          awaitingConsume := old(awaitingConsume) + 1)
      ensures Valid()
    {
      awaitingTransport := awaitingTransport - 1;
      if reply.error != "" {
        return;
      }
      if !createOk {
        return;
      }
      recvTransport := Some(reply.id);
      sent := sent + [Consume];
      awaitingConsume := awaitingConsume + 1;
    }

    /** The `connect` event of `transport`: the engine fires it when a
        `consume` runs on a transport that is neither connected nor being
        connected (the first one, and again the next one after an `errback`),
        and waits for it to be settled before it creates the consumer. The
        handler asks the server to
        connect the transport; on a socket the cleanup disconnected the
        request never goes out and no acknowledgement comes. */
    method OnTransportConnect(transport: nat)
      requires Valid() && transport in localConsumes
      requires transport !in connected && transport !in connecting
      requires TransportHandle(transport) !in closed
      modifies this
      ensures !old(mounted) ==> State() == old(State()).(connectFired := old(connectFired) + {transport})
      ensures old(mounted) ==> State() == old(State()).(
        connectFired := old(connectFired) + {transport},
        sent := old(sent) + [ConnectWebRtcTransport],
        connecting := old(connecting) + {transport})
      ensures Valid()
    {
      connectFired := connectFired + {transport};
      if mounted {
        sent := sent + [ConnectWebRtcTransport];
        connecting := connecting + {transport};
      }
    }

    /** The `connectWebRtcTransport` acknowledgement settles the `connect`
        event of `transport`: `callback` marks the transport connected,
        `errback` leaves it unconnected, so that the next `consume` on it
        fires `connect` again. */
    method OnConnectReply(transport: nat, reply: ConnectReply)
      requires Valid() && transport in connecting
      modifies this
      ensures State() == old(State()).(
        connecting := old(connecting) - {transport},
        connected := old(connected) + (if ConnectOutcomeOf(reply).Callback? then {transport} else {}),
        connectOutcomes := old(connectOutcomes) + [ConnectOutcomeOf(reply)])
      ensures Valid()
    {
      connecting := connecting - {transport};
      if reply.ConnectResponse? && reply.error != "" {
        connectOutcomes := connectOutcomes + [Errback(reply.error)];
      } else {
        connectOutcomes := connectOutcomes + [Callback];
        connected := connected + {transport};
      }
    }

    /** The `consume` acknowledgement: a rejected reply leaves the consumer
        ref alone; with no receive transport the call throws; otherwise the
        engine starts creating the consumer on the receive transport. */
    method OnConsumeReply(reply: ConsumeReply)
      requires Valid() && awaitingConsume > 0
      modifies this
      ensures var starts := ConsumeRejection(reply).None? && old(recvTransport).Some?;
        State() == old(State()).(
          awaitingConsume := old(awaitingConsume) - 1,
          localConsumes := old(localConsumes) +
            (if starts then multiset{old(recvTransport).value} else multiset{}))
      ensures Valid()
    {
      awaitingConsume := awaitingConsume - 1;
      if reply.error != "" || reply.producerId == "" {
        return;
      }
      if recvTransport.None? {
        return;
      }
      localConsumes := localConsumes + multiset{recvTransport.value};
    }

    /** The engine's `consume` on `transport` settles. It rejects when the
        engine refuses it, when the transport's `connect` was not settled
        with `callback` (an `errback` rejects it), and when the transport was
        closed meanwhile (closing a transport stops its queue of pending
        calls); on success the consumer becomes the ref, and the stream is set
        to its track only if still mounted. */
    method OnLocalConsumeDone(transport: nat, ok: bool, consumerId: nat)
      requires Valid() && transport in localConsumes
      modifies this
      ensures var succeeds := ok && transport in old(connected) && TransportHandle(transport) !in old(closed);
        && (!succeeds ==> State() == old(State()).(localConsumes := old(localConsumes) - multiset{transport}))
        && (succeeds ==> State() == old(State()).(
              localConsumes := old(localConsumes) - multiset{transport},
              consumer := Some(consumerId),
              consumed := old(consumed) + {consumerId},
              playStream := if old(mounted) then Some(consumerId) else old(playStream)))
      ensures Valid()
    {
      localConsumes := localConsumes - multiset{transport};
      if !ok || transport !in connected || TransportHandle(transport) in closed {
        return;
      }
      consumer := Some(consumerId);
      consumed := consumed + {consumerId};
      if mounted {
        playStream := Some(consumerId);
      }
    }

    /** A consumer's `transportclose` or `trackended`: the stream is cleared
        and the consumer ref is left as it is. */
    method OnConsumerTrackGone(consumerId: nat)
      requires Valid() && consumerId in consumed
      modifies this
      ensures State() == old(State()).(playStream := None)
      ensures Valid()
    {
      playStream := None;
    }

    /** The effect's cleanup: consumer, then transport, then socket are
        closed and dropped, the stream is cleared, and the acknowledgements
        still awaited never arrive. */
    method Cleanup()
      requires Valid()
      modifies this
      ensures State() == old(State()).(
        mounted := false,
        consumer := None,
        recvTransport := None,
        socket := None,
        playStream := None,
        closed := old(closed) + Closing(old(consumer), old(recvTransport), old(socket)),
        awaitingTransport := 0,
        awaitingConsume := 0,
        connecting := {})
      ensures Valid()
    {
      UnmountedKeepsInv(State(), Closing(consumer, recvTransport, socket));
      mounted := false;
      closed := closed + Closing(consumer, recvTransport, socket);
      consumer, recvTransport, socket := None, None, None;
      playStream := None;
      awaitingTransport, awaitingConsume := 0, 0;
      connecting := {};
    }
  }

  // ---------------------------------------------------------------------
  // Runs of the handshake

  /** The whole handshake: capabilities, transport, consume reply, the
      transport's `connect` and its acknowledgement, engine consumer. The
      listener asks for a transport, a consumer and the connection of the
      transport, and plays the consumer's track. */
  method Handshake() returns (stream: Option<nat>, held: Option<nat>, requests: seq<Request>)
    ensures stream == Some(7) && held == Some(7)
    ensures requests == [CreateWebRtcTransport, Consume, ConnectWebRtcTransport]
  {
    var player := new RadioPlayer(1);
    player.OnRouterRtpCapabilities(true);
    player.OnTransportReply(TransportReply("", 3), true);
    player.OnConsumeReply(ConsumeReply("", "p"));
    player.OnTransportConnect(3);
    player.OnConnectReply(3, ConnectResponse(""));
    player.OnLocalConsumeDone(3, true, 7);
    stream, held, requests := player.playStream, player.consumer, player.sent;
  }

  /** Unmounting while the engine is still creating the consumer: the
      cleanup closes the transport the consume runs on, so the consume
      rejects, and no stream and no consumer are left behind. */
  method UnmountDuringConsume() returns (stream: Option<nat>, held: Option<nat>, closedHandles: seq<Handle>)
    ensures stream.None? && held.None?
    ensures closedHandles == [TransportHandle(3), SocketHandle(1)]
  {
    var player := new RadioPlayer(1);
    player.OnRouterRtpCapabilities(true);
    player.OnTransportReply(TransportReply("", 3), true);
    player.OnConsumeReply(ConsumeReply("", "p"));
    player.Cleanup();
    player.OnLocalConsumeDone(3, true, 7);
    stream, held, closedHandles := player.playStream, player.consumer, player.closed;
  }

  /** A listener whose first connect the server refused with "dtls": the
      consume on transport 3 has rejected, the transport stays open and
      unconnected, and nothing is held or played. */
  method RefusedOnce() returns (player: RadioPlayer)
    ensures fresh(player)
    ensures player.State() == ListenerState(true, Some(1), Some(Device(true)), Some(3), None, None, {},
                                            [CreateWebRtcTransport, Consume, ConnectWebRtcTransport], [],
                                            [Errback("dtls")], 0, 0, multiset{}, {3}, {}, {})
    ensures player.Valid()
  {
    player := new RadioPlayer(1);
    player.OnRouterRtpCapabilities(true);
    player.OnTransportReply(TransportReply("", 3), true);
    player.OnConsumeReply(ConsumeReply("", "p"));
    player.OnTransportConnect(3);
    player.OnConnectReply(3, ConnectResponse("dtls"));
    player.OnLocalConsumeDone(3, true, 7);
  }

  /** The server refuses to connect the transport: the `errback` makes the
      consume reject, so nothing is held and nothing plays. */
  method ConnectRefused() returns (stream: Option<nat>, held: Option<nat>, outcomes: seq<ConnectOutcome>)
    ensures stream.None? && held.None?
    ensures outcomes == [Errback("dtls")]
  {
    var player := RefusedOnce();
    stream, held, outcomes := player.playStream, player.consumer, player.connectOutcomes;
  }

  /** A refused connect is not final: after the `errback` the consume
      rejects, the next `producer-available` asks for a consumer again, the
      consume on the same transport fires `connect` again, and this time the
      server accepts and the track plays. */
  method ConnectRetried() returns (stream: Option<nat>, outcomes: seq<ConnectOutcome>, requests: seq<Request>)
    ensures stream == Some(8)
    ensures outcomes == [Errback("dtls"), Callback]
    ensures requests == [CreateWebRtcTransport, Consume, ConnectWebRtcTransport, Consume, ConnectWebRtcTransport]
  {
    var player := RefusedOnce();
    player.OnProducerAvailable();
    player.OnConsumeReply(ConsumeReply("", "p"));
    player.OnTransportConnect(3);
    player.OnConnectReply(3, ConnectResponse(""));
    player.OnLocalConsumeDone(3, true, 8);
    stream, outcomes, requests := player.playStream, player.connectOutcomes, player.sent;
  }

  /** A transport made before any producer: the first consume is refused
      ("Producer not available"), and the later `producer-available` asks
      again. */
  method ProducerArrivesLater() returns (held: Option<nat>, requests: seq<Request>)
    ensures held.None?
    ensures requests == [CreateWebRtcTransport, Consume, Consume]
  {
    var player := new RadioPlayer(1);
    player.OnRouterRtpCapabilities(true);
    player.OnTransportReply(TransportReply("", 3), true);
    player.OnConsumeReply(ConsumeReply("Producer not available", ""));
    player.OnProducerAvailable();
    held, requests := player.consumer, player.sent;
  }

  /** A transport reply with an error creates nothing and asks for nothing
      more. */
  method TransportRefused() returns (transport: Option<nat>, requests: seq<Request>)
    ensures transport.None? && requests == [CreateWebRtcTransport]
  {
    var player := new RadioPlayer(1);
    player.OnRouterRtpCapabilities(true);
    player.OnTransportReply(TransportReply("boom", 3), true);
    player.OnProducerAvailable();
    transport, requests := player.recvTransport, player.sent;
  }
}
