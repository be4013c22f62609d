/** The signalling side of the mediasoup server: one ingest transport fed by
    the GStreamer sender, at most one live producer on it, a stats timer for
    that producer, and per listener socket a WebRTC transport and a consumer.
    Engine objects are handles (numbers drawn from `nextId`) with a closed
    flag; every handler is one atomic step; engine results and socket ids are
    parameters. Messages to listeners, broadcasts and acknowledgements alike,
    go to `outbox` with their recipients. */
module MediaServer {

  import opened Wrappers

  const ProducerNotAvailable := "Producer not available"
  const IncompatibleCapabilities := "Cannot consume - incompatible RTP capabilities"
  /** The messages of the TypeError raised when a socket that never created a
      WebRTC transport asks to connect it or to consume through it. */
  const NoTransportToConnect := "Cannot read properties of undefined (reading 'connect')"
  const NoTransportToConsume := "Cannot read properties of undefined (reading 'consume')"

  /** The per-socket fields `webRtcTransport` and `consumer`, and whether the
      socket is still connected. */
  datatype Session = Session(connected: bool, transport: Option<nat>, consumer: Option<nat>)

  datatype Body =
    | RouterRtpCapabilities
    | ProducerAvailable(producerId: nat)
    | ProducerUnavailable
    | TransportParams(transportId: nat)
    | TransportConnected
    | ConsumerParams(consumerId: nat, producerId: nat)
    | PlainTransportRecreated
    | ErrorReply(message: string)

  datatype Message = Message(to: set<nat>, body: Body)

  /** The module-level variables `plainTransport`, `producer` and
      `producerStatsInterval`, with what the engine knows: every producer
      created, the intervals not yet cleared, the handles closed; the sockets;
      what was sent; and the 1000 ms recreations scheduled and not yet run. */
  datatype ServerState = ServerState(
    plainTransport: Option<nat>,
    producer: Option<nat>,
    producers: set<nat>,
    statsTimer: Option<nat>,
    activeTimers: set<nat>,
    closed: set<nat>,
    nextId: nat,
    sessions: map<nat, Session>,
    outbox: seq<Message>,
    pendingRecreations: nat)

  predicate LiveProducer(s: ServerState) {
    s.producer.Some? && s.producer.value !in s.closed
  }

  predicate LivePlainTransport(s: ServerState) {
    s.plainTransport.Some? && s.plainTransport.value !in s.closed
  }

  /** The sockets `io.emit` reaches. */
  function Connected(sessions: map<nat, Session>): (r: set<nat>)
    ensures forall sid :: sid in r <==> sid in sessions && sessions[sid].connected
  {
    set sid | sid in sessions && sessions[sid].connected
  }

  predicate Open(s: ServerState, sid: nat) {
    sid in s.sessions && s.sessions[sid].connected
  }

  predicate Below(h: Option<nat>, n: nat) {
    h.Some? ==> h.value < n
  }

  /** A socket's handle is neither the ingest transport nor a producer. */
  predicate Apart(h: Option<nat>, s: ServerState) {
    h.Some? ==> s.plainTransport != Some(h.value) && h.value !in s.producers
  }

  /** Every handle was drawn before `nextId`; at most one producer is live
      and it is the one in `producer`, on the live ingest transport; the only
      stats interval running is the one in `producerStatsInterval`; messages
      go to known sockets; a disconnected socket holds nothing. */
  ghost predicate Inv(s: ServerState) {
    && (forall h :: h in s.closed ==> h < s.nextId)
    && (forall p :: p in s.producers ==> p < s.nextId)
    && Below(s.plainTransport, s.nextId)
    && (forall sid :: sid in s.sessions ==>
          Below(s.sessions[sid].transport, s.nextId) && Below(s.sessions[sid].consumer, s.nextId) &&
          Apart(s.sessions[sid].transport, s) && Apart(s.sessions[sid].consumer, s))
    && (s.producer.Some? ==> s.producer.value in s.producers)
    && (forall p :: p in s.producers && p !in s.closed ==> s.producer == Some(p))
    && (LiveProducer(s) ==> LivePlainTransport(s))
    && (forall t :: t in s.activeTimers ==> s.statsTimer == Some(t))
    && (forall i :: 0 <= i < |s.outbox| ==> s.outbox[i].to <= s.sessions.Keys)
    && (forall sid :: sid in s.sessions && !s.sessions[sid].connected ==>
          s.sessions[sid].transport.None? && s.sessions[sid].consumer.None?)
  }

  /** The state once the worker, the router and the first ingest transport
      exist. */
  function Started(): (s: ServerState)
    ensures Inv(s) && LivePlainTransport(s) && !LiveProducer(s)
  {
    ServerState(Some(0), None, {}, None, {}, {}, 1, map[], [], 0)
  }

  // ---------------------------------------------------------------------
  // Ingest side

  /** `handleProducerDisconnection`: clear the stats interval, close the
      producer unless already closed, forget it, tell every connected socket,
      schedule one recreation. */
  function Disconnection(s: ServerState): (t: ServerState)
    requires Inv(s)
    ensures Inv(t)
    ensures t.producer.None? && t.statsTimer.None? && t.activeTimers == {}
    ensures forall p :: p in t.producers ==> p in t.closed
    ensures t.closed == s.closed + (if LiveProducer(s) then {s.producer.value} else {})
    ensures t.outbox == s.outbox + [Message(Connected(s.sessions), ProducerUnavailable)]
    ensures t.pendingRecreations == s.pendingRecreations + 1
    ensures t.plainTransport == s.plainTransport && t.sessions == s.sessions
    ensures t.nextId == s.nextId && t.producers == s.producers
  {
    var cleared := s.(statsTimer := None,
                      activeTimers := if s.statsTimer.Some? then s.activeTimers - {s.statsTimer.value} else s.activeTimers);
    var closedNow := if LiveProducer(s) then cleared.(closed := s.closed + {s.producer.value}) else cleared;
    closedNow.(producer := None,
               outbox := s.outbox + [Message(Connected(s.sessions), ProducerUnavailable)],
               pendingRecreations := s.pendingRecreations + 1)
  }

  /** Closing the old ingest transport: the engine closes its live producer
      too, whose `transportclose` handler runs the disconnection. */
  function CloseIngest(s: ServerState): (t: ServerState)
    requires Inv(s)
    ensures Inv(t) && !LiveProducer(t)
    ensures s.plainTransport.Some? ==> t.closed >= s.closed + {s.plainTransport.value}
    ensures LiveProducer(s) ==> t == Disconnection(s.(closed := s.closed + {s.plainTransport.value, s.producer.value}))
    ensures !LiveProducer(s) ==>
      t == s.(closed := s.closed + (if s.plainTransport.Some? then {s.plainTransport.value} else {}))
  {
    if s.plainTransport.None? then s
    else if LiveProducer(s) then Disconnection(s.(closed := s.closed + {s.plainTransport.value, s.producer.value}))
    else s.(closed := s.closed + {s.plainTransport.value})
  }

  /** `createPlainTransport`: the old transport is closed first; on success
      a new live one takes its place, on failure the closed one stays. */
  function RecreateIngest(s: ServerState, ok: bool): (t: ServerState)
    requires Inv(s)
    ensures Inv(t) && !LiveProducer(t)
    ensures s.plainTransport.Some? ==> s.plainTransport.value in t.closed
    ensures ok ==> LivePlainTransport(t) && t.plainTransport.value !in s.closed && Below(s.plainTransport, t.plainTransport.value)
    ensures !ok ==> t.plainTransport == s.plainTransport
    ensures LiveProducer(s) ==>
      t.outbox == s.outbox + [Message(Connected(s.sessions), ProducerUnavailable)] &&
      t.pendingRecreations == s.pendingRecreations + 1
    ensures !LiveProducer(s) ==> t.outbox == s.outbox && t.pendingRecreations == s.pendingRecreations
    ensures t.sessions == s.sessions
  {
    var closedOld := CloseIngest(s);
    if ok then closedOld.(plainTransport := Some(closedOld.nextId), nextId := closedOld.nextId + 1)
    else closedOld
  }

  /** The ingest transport's `tuple` event: a producer is created only when
      none is live; a new one is announced to every connected socket with its
      id, and its stats interval replaces the previous one. */
  function ProducerConnected(s: ServerState, ok: bool): (t: ServerState)
    requires Inv(s) && LivePlainTransport(s)
    ensures Inv(t)
    ensures LiveProducer(s) || !ok ==> t == s
    ensures !LiveProducer(s) && ok ==>
      && LiveProducer(t) && t.producer.value !in s.producers && t.producer.value !in s.closed
      && t.outbox == s.outbox + [Message(Connected(s.sessions), ProducerAvailable(t.producer.value))]
      && t.statsTimer.Some? && t.activeTimers == {t.statsTimer.value}
      && t.plainTransport == s.plainTransport && t.sessions == s.sessions && t.closed == s.closed
  {
    if LiveProducer(s) || !ok then s
    else
      var p := s.nextId;
      var announced := s.(producer := Some(p), producers := s.producers + {p}, nextId := p + 1,
                          outbox := s.outbox + [Message(Connected(s.sessions), ProducerAvailable(p))]);
      var cleared := if s.statsTimer.Some? then announced.(activeTimers := s.activeTimers - {s.statsTimer.value}) else announced;
      var timer := p + 1;
      cleared.(statsTimer := Some(timer), activeTimers := cleared.activeTimers + {timer}, nextId := timer + 1)
  }

  /** A tick of the producer stats interval: while the producer is live it
      only logs; otherwise the interval clears itself. */
  function StatsTick(s: ServerState): (t: ServerState)
    requires Inv(s) && s.statsTimer.Some? && s.statsTimer.value in s.activeTimers
    ensures Inv(t)
    ensures LiveProducer(s) ==> t == s
    ensures !LiveProducer(s) ==> t == s.(statsTimer := None, activeTimers := {})
  {
    if LiveProducer(s) then s
    else s.(activeTimers := s.activeTimers - {s.statsTimer.value}, statsTimer := None)
  }

  /** The 1000 ms timeout scheduled by a disconnection; a failure is logged. */
  function RecreationDue(s: ServerState, ok: bool): (t: ServerState)
    requires Inv(s) && s.pendingRecreations > 0
    ensures Inv(t)
  {
    RecreateIngest(s.(pendingRecreations := s.pendingRecreations - 1), ok)
  }

  // ---------------------------------------------------------------------
  // Listener sockets

  function Reply(s: ServerState, sid: nat, body: Body): ServerState {
    s.(outbox := s.outbox + [Message({sid}, body)])
  }

  /** `connection`: the socket gets the router capabilities, then
      `producer-available` if a producer is live at that moment. */
  function Connection(s: ServerState, sid: nat): (t: ServerState)
    requires Inv(s) && sid !in s.sessions
    ensures Inv(t) && Open(t, sid)
    ensures t.sessions == s.sessions[sid := Session(true, None, None)]
    ensures t.outbox == s.outbox + [Message({sid}, RouterRtpCapabilities)] +
      (if LiveProducer(s) then [Message({sid}, ProducerAvailable(s.producer.value))] else [])
  {
    var greeted := s.(sessions := s.sessions[sid := Session(true, None, None)],
                      outbox := s.outbox + [Message({sid}, RouterRtpCapabilities)]);
    if LiveProducer(s) then Reply(greeted, sid, ProducerAvailable(s.producer.value)) else greeted
  }

  /** `createWebRtcTransport`: the parameters of a new transport, which then
      replaces the socket's field (an earlier one is not closed); an engine
      failure only answers with its message. */
  function CreateWebRtcTransport(s: ServerState, sid: nat, ok: bool, error: string): (t: ServerState)
    requires Inv(s) && Open(s, sid)
    ensures Inv(t) && Open(t, sid)
    ensures ok ==>
      && t.sessions == s.sessions[sid := s.sessions[sid].(transport := Some(s.nextId))]
      && t.outbox == s.outbox + [Message({sid}, TransportParams(s.nextId))]
      && s.nextId !in s.closed
    ensures !ok ==> t == Reply(s, sid, ErrorReply(error))
  {
    if ok then
      var transport := s.nextId;
      Reply(s, sid, TransportParams(transport)).(
        sessions := s.sessions[sid := s.sessions[sid].(transport := Some(transport))],
        nextId := transport + 1)
    else Reply(s, sid, ErrorReply(error))
  }

  /** `connectWebRtcTransport`: only the requester is answered, and nothing
      else changes. */
  function ConnectWebRtcTransport(s: ServerState, sid: nat, ok: bool, error: string): (t: ServerState)
    requires Inv(s) && Open(s, sid)
    ensures Inv(t)
    ensures s.sessions[sid].transport.None? ==> t == Reply(s, sid, ErrorReply(NoTransportToConnect))
    ensures s.sessions[sid].transport.Some? ==>
      t == Reply(s, sid, if ok then TransportConnected else ErrorReply(error))
  {
    if s.sessions[sid].transport.None? then Reply(s, sid, ErrorReply(NoTransportToConnect))
    else if ok then Reply(s, sid, TransportConnected)
    else Reply(s, sid, ErrorReply(error))
  }

  /** `consume`: no live producer is refused first, then incompatible
      capabilities; a consumer that is made is stored on the socket and
      described to it together with the live producer's id. */
  function Consume(s: ServerState, sid: nat, compatible: bool, ok: bool, error: string): (t: ServerState)
    requires Inv(s) && Open(s, sid)
    ensures Inv(t)
    ensures !LiveProducer(s) ==> t == Reply(s, sid, ErrorReply(ProducerNotAvailable))
    ensures LiveProducer(s) && !compatible ==> t == Reply(s, sid, ErrorReply(IncompatibleCapabilities))
    ensures LiveProducer(s) && compatible && s.sessions[sid].transport.None? ==>
      t == Reply(s, sid, ErrorReply(NoTransportToConsume))
    ensures LiveProducer(s) && compatible && s.sessions[sid].transport.Some? && !ok ==>
      t == Reply(s, sid, ErrorReply(error))
    ensures LiveProducer(s) && compatible && s.sessions[sid].transport.Some? && ok ==>
      && t.outbox == s.outbox + [Message({sid}, ConsumerParams(s.nextId, s.producer.value))]
      && t.sessions == s.sessions[sid := s.sessions[sid].(consumer := Some(s.nextId))]
      && s.nextId !in s.closed
  {
    if !LiveProducer(s) then Reply(s, sid, ErrorReply(ProducerNotAvailable))
    else if !compatible then Reply(s, sid, ErrorReply(IncompatibleCapabilities))
    else if s.sessions[sid].transport.None? then Reply(s, sid, ErrorReply(NoTransportToConsume))
    else if !ok then Reply(s, sid, ErrorReply(error))
    else
      var consumer := s.nextId;
      Reply(s, sid, ConsumerParams(consumer, s.producer.value)).(
        sessions := s.sessions[sid := s.sessions[sid].(consumer := Some(consumer))],
        nextId := consumer + 1)
  }

  /** `recreate-plain-transport`: rebuild the ingest transport, then answer
      success or the engine's error. */
  function RecreatePlainTransport(s: ServerState, sid: nat, ok: bool, error: string): (t: ServerState)
    requires Inv(s) && Open(s, sid)
    ensures Inv(t)
    ensures t == Reply(RecreateIngest(s, ok), sid, if ok then PlainTransportRecreated else ErrorReply(error))
    ensures t.outbox[|t.outbox| - 1] == Message({sid}, if ok then PlainTransportRecreated else ErrorReply(error))
  {
    Reply(RecreateIngest(s, ok), sid, if ok then PlainTransportRecreated else ErrorReply(error))
  }

  /** `disconnect`: the socket's transport and consumer are closed and
      forgotten, if it has them. */
  function SocketDisconnect(s: ServerState, sid: nat): (t: ServerState)
    requires Inv(s) && sid in s.sessions
    ensures Inv(t)
    ensures t.sessions == s.sessions[sid := Session(false, None, None)]
    ensures t.closed == s.closed + OptionSet(s.sessions[sid].transport) + OptionSet(s.sessions[sid].consumer)
    ensures t.outbox == s.outbox && t.producer == s.producer && t.plainTransport == s.plainTransport
  {
    var session := s.sessions[sid];
    s.(sessions := s.sessions[sid := Session(false, None, None)],
       closed := s.closed + OptionSet(session.transport) + OptionSet(session.consumer))
  }

  // ---------------------------------------------------------------------
  // What each socket receives

  /** The bodies addressed to `sid`, in order. */
  function Inbox(outbox: seq<Message>, sid: nat): seq<Body> {
    if outbox == [] then []
    else
      var last := outbox[|outbox| - 1];
      Inbox(outbox[..|outbox| - 1], sid) + (if sid in last.to then [last.body] else [])
  }

  lemma {:induction false} InboxAppend(a: seq<Message>, b: seq<Message>, sid: nat)
    ensures Inbox(a + b, sid) == Inbox(a, sid) + Inbox(b, sid)
    decreases |b|
  {
    if b != [] {
      var front := b[..|b| - 1];
      assert (a + b)[..|a + b| - 1] == a + front;
      InboxAppend(a, front, sid);
    } else {
      assert a + b == a;
    }
  }

  lemma {:induction false} InboxOfStranger(outbox: seq<Message>, sid: nat)
    requires forall i :: 0 <= i < |outbox| ==> sid !in outbox[i].to
    ensures Inbox(outbox, sid) == []
    decreases |outbox|
  {
    if outbox != [] {
      InboxOfStranger(outbox[..|outbox| - 1], sid);
    }
  }

  lemma InboxOfOne(m: Message, sid: nat)
    ensures Inbox([m], sid) == if sid in m.to then [m.body] else []
  {
    assert [m][..0] == [];
  }

  /** A new socket's first messages are the router capabilities and then,
      only if a producer is live, `producer-available` with its id. */
  lemma ConnectionGreeting(s: ServerState, sid: nat)
    requires Inv(s) && sid !in s.sessions
    ensures Inbox(Connection(s, sid).outbox, sid) ==
      [RouterRtpCapabilities] + (if LiveProducer(s) then [ProducerAvailable(s.producer.value)] else [])
  {
    InboxOfStranger(s.outbox, sid);
    var greeting := [Message({sid}, RouterRtpCapabilities)];
    InboxAppend(s.outbox, greeting, sid);
    InboxOfOne(greeting[0], sid);
    if LiveProducer(s) {
      var available := [Message({sid}, ProducerAvailable(s.producer.value))];
      InboxAppend(s.outbox + greeting, available, sid);
      InboxOfOne(available[0], sid);
    }
  }

  /** A new producer is announced, with its id, to exactly the sockets
      connected at that moment. */
  lemma ProducerAnnouncedToListeners(s: ServerState, ok: bool, sid: nat)
    requires Inv(s) && LivePlainTransport(s) && !LiveProducer(s) && ok
    ensures var t := ProducerConnected(s, ok);
      Inbox(t.outbox, sid) == Inbox(s.outbox, sid) +
        (if Open(s, sid) then [ProducerAvailable(t.producer.value)] else [])
  {
    var t := ProducerConnected(s, ok);
    var m := Message(Connected(s.sessions), ProducerAvailable(t.producer.value));
    InboxAppend(s.outbox, [m], sid);
    InboxOfOne(m, sid);
  }

  /** A disconnection of the producer reaches exactly the connected
      sockets. */
  lemma UnavailableAnnouncedToListeners(s: ServerState, sid: nat)
    requires Inv(s)
    ensures Inbox(Disconnection(s).outbox, sid) == Inbox(s.outbox, sid) +
      (if Open(s, sid) then [ProducerUnavailable] else [])
  {
    var m := Message(Connected(s.sessions), ProducerUnavailable);
    InboxAppend(s.outbox, [m], sid);
    InboxOfOne(m, sid);
  }

  /** A `consume` answers the requester alone, whatever the outcome. */
  lemma ConsumeAnswersOnlyRequester(s: ServerState, sid: nat, compatible: bool, ok: bool, error: string, other: nat)
    requires Inv(s) && Open(s, sid) && other != sid
    ensures Inbox(Consume(s, sid, compatible, ok, error).outbox, other) == Inbox(s.outbox, other)
    ensures |Inbox(Consume(s, sid, compatible, ok, error).outbox, sid)| == |Inbox(s.outbox, sid)| + 1
  {
    var t := Consume(s, sid, compatible, ok, error);
    var m := t.outbox[|t.outbox| - 1];
    assert t.outbox == s.outbox + [m] && m.to == {sid};
    InboxAppend(s.outbox, [m], other);
    InboxOfOne(m, other);
    InboxAppend(s.outbox, [m], sid);
    InboxOfOne(m, sid);
  }

  /** A second `disconnect` of the same socket changes nothing. */
  lemma DisconnectIsIdempotent(s: ServerState, sid: nat)
    requires Inv(s) && sid in s.sessions
    ensures SocketDisconnect(SocketDisconnect(s, sid), sid) == SocketDisconnect(s, sid)
  {
    var t := SocketDisconnect(s, sid);
    assert t.sessions[sid := Session(false, None, None)] == t.sessions;
    assert t.closed + OptionSet(t.sessions[sid].transport) + OptionSet(t.sessions[sid].consumer) == t.closed;
  }

  /** A second `createWebRtcTransport` on one socket replaces the first
      transport without closing it, and `disconnect` then closes only the
      second: the first stays open. */
  lemma SecondTransportOrphansFirst(s: ServerState, sid: nat, e1: string, e2: string)
    requires Inv(s) && Open(s, sid) && s.sessions[sid].consumer.None?
    ensures var t := CreateWebRtcTransport(CreateWebRtcTransport(s, sid, true, e1), sid, true, e2);
      var first := s.nextId;
      && t.sessions[sid].transport == Some(first + 1)
      && first !in SocketDisconnect(t, sid).closed
      && first + 1 in SocketDisconnect(t, sid).closed
  {
    var t1 := CreateWebRtcTransport(s, sid, true, e1);
    var t := CreateWebRtcTransport(t1, sid, true, e2);
    assert OptionSet(t.sessions[sid].transport) == {s.nextId + 1};
    assert OptionSet(t.sessions[sid].consumer) == {};
  }

  /** After a producer disconnection and the recreation it schedules, the
      ingest is ready for a new sender: a fresh live transport, no live
      producer, and the next `tuple` makes a new producer. */
  lemma DisconnectionThenRecreation(s: ServerState)
    requires Inv(s)
    ensures var t := RecreationDue(Disconnection(s), true);
      LivePlainTransport(t) && !LiveProducer(t) && t.pendingRecreations == s.pendingRecreations &&
      LiveProducer(ProducerConnected(t, true))
  {
  }

  // ---------------------------------------------------------------------
  // The server object

  class Server {
    var plainTransport: Option<nat>
    var producer: Option<nat>
    var producers: set<nat>
    var statsTimer: Option<nat>
    var activeTimers: set<nat>
    var closed: set<nat>
    var nextId: nat
    var sessions: map<nat, Session>
    var outbox: seq<Message>
    var pendingRecreations: nat

    function State(): ServerState
      reads this
    {
      ServerState(plainTransport, producer, producers, statsTimer, activeTimers, closed,
                  nextId, sessions, outbox, pendingRecreations)
    }

    ghost predicate Valid()
      reads this
    {
      Inv(State())
    }

    /** The start-up sequence once worker, router and ingest transport were
        created (a failure there ends the process). */
    constructor ()
      ensures State() == Started()
      ensures Valid()
    {
      plainTransport := Some(0);
      producer := None;
      producers := {};
      statsTimer := None;
      activeTimers := {};
      closed := {};
      nextId := 1;
      sessions := map[];
      outbox := [];
      pendingRecreations := 0;
    }

    /** Run by the producer's `trackended` and `transportclose` events and by
        the ingest transport's `close` event. */
    method HandleProducerDisconnection()
      requires Valid()
      modifies this
      ensures State() == Disconnection(old(State()))
      ensures Valid()
    {
      if statsTimer.Some? {
        activeTimers := activeTimers - {statsTimer.value};
        statsTimer := None;
      }
      if producer.Some? && producer.value !in closed {
        closed := closed + {producer.value};
      }
      producer := None;
      outbox := outbox + [Message(Connected(sessions), ProducerUnavailable)];
      pendingRecreations := pendingRecreations + 1;
    }

    method CreatePlainTransport(ok: bool)
      requires Valid()
      modifies this
      ensures State() == RecreateIngest(old(State()), ok)
      ensures Valid()
    {
      if plainTransport.Some? {
        var cascade := producer.Some? && producer.value !in closed;
        if cascade {
          closed := closed + {plainTransport.value, producer.value};
          HandleProducerDisconnection();
        } else {
          closed := closed + {plainTransport.value};
        }
      }
      if ok {
        plainTransport := Some(nextId);
        nextId := nextId + 1;
      }
    }

    method OnTuple(ok: bool)
      requires Valid() && LivePlainTransport(State())
      modifies this
      ensures State() == ProducerConnected(old(State()), ok)
      ensures Valid()
    {
      if producer.Some? && producer.value !in closed {
        return;
      }
      if !ok {
        return;
      }
      var p := nextId;
      producer := Some(p);
      producers := producers + {p};
      nextId := p + 1;
      outbox := outbox + [Message(Connected(sessions), ProducerAvailable(p))];
      if statsTimer.Some? {
        activeTimers := activeTimers - {statsTimer.value};
      }
      var timer := nextId;
      statsTimer := Some(timer);
      activeTimers := activeTimers + {timer};
      nextId := timer + 1;
    }

    method OnStatsTick()
      requires Valid() && statsTimer.Some? && statsTimer.value in activeTimers
      modifies this
      ensures State() == StatsTick(old(State()))
      ensures Valid()
    {
      if producer.Some? && producer.value !in closed {
        return;
      }
      activeTimers := activeTimers - {statsTimer.value};
      statsTimer := None;
    }

    method OnRecreationTimer(ok: bool)
      requires Valid() && pendingRecreations > 0
      modifies this
      ensures State() == RecreationDue(old(State()), ok)
      ensures Valid()
    {
      pendingRecreations := pendingRecreations - 1;
      CreatePlainTransport(ok);
    }

    method OnConnection(sid: nat)
      requires Valid() && sid !in sessions
      modifies this
      ensures State() == Connection(old(State()), sid)
      ensures Valid()
    {
      sessions := sessions[sid := Session(true, None, None)];
      outbox := outbox + [Message({sid}, RouterRtpCapabilities)];
      if producer.Some? && producer.value !in closed {
        outbox := outbox + [Message({sid}, ProducerAvailable(producer.value))];
      }
    }

    method OnCreateWebRtcTransport(sid: nat, ok: bool, error: string)
      requires Valid() && Open(State(), sid)
      modifies this
      ensures State() == CreateWebRtcTransport(old(State()), sid, ok, error)
      ensures Valid()
    {
      if !ok {
        outbox := outbox + [Message({sid}, ErrorReply(error))];
        return;
      }
      var transport := nextId;
      nextId := nextId + 1;
      outbox := outbox + [Message({sid}, TransportParams(transport))];
      sessions := sessions[sid := sessions[sid].(transport := Some(transport))];
    }

    method OnConnectWebRtcTransport(sid: nat, ok: bool, error: string)
      requires Valid() && Open(State(), sid)
      modifies this
      ensures State() == ConnectWebRtcTransport(old(State()), sid, ok, error)
      ensures Valid()
    {
      var body;
      if sessions[sid].transport.None? {
        body := ErrorReply(NoTransportToConnect);
      } else if ok {
        body := TransportConnected;
      } else {
        body := ErrorReply(error);
      }
      outbox := outbox + [Message({sid}, body)];
    }

    method OnConsume(sid: nat, compatible: bool, ok: bool, error: string)
      requires Valid() && Open(State(), sid)
      modifies this
      ensures State() == Consume(old(State()), sid, compatible, ok, error)
      ensures Valid()
    {
      if producer.None? || producer.value in closed {
        outbox := outbox + [Message({sid}, ErrorReply(ProducerNotAvailable))];
        return;
      }
      if !compatible {
        outbox := outbox + [Message({sid}, ErrorReply(IncompatibleCapabilities))];
        return;
      }
      if sessions[sid].transport.None? {
        outbox := outbox + [Message({sid}, ErrorReply(NoTransportToConsume))];
        return;
      }
      if !ok {
        outbox := outbox + [Message({sid}, ErrorReply(error))];
        return;
      }
      var consumer := nextId;
      nextId := nextId + 1;
      outbox := outbox + [Message({sid}, ConsumerParams(consumer, producer.value))];
      sessions := sessions[sid := sessions[sid].(consumer := Some(consumer))];
    }

    method OnRecreatePlainTransport(sid: nat, ok: bool, error: string)
      requires Valid() && Open(State(), sid)
      modifies this
      ensures State() == RecreatePlainTransport(old(State()), sid, ok, error)
      ensures Valid()
    {
      CreatePlainTransport(ok);
      if ok {
        outbox := outbox + [Message({sid}, PlainTransportRecreated)];
      } else {
        outbox := outbox + [Message({sid}, ErrorReply(error))];
      }
    }

    method OnDisconnect(sid: nat)
      requires Valid() && sid in sessions
      modifies this
      ensures State() == SocketDisconnect(old(State()), sid)
      ensures Valid()
    {
      var session := sessions[sid];
      if session.transport.Some? {
        closed := closed + {session.transport.value};
      }
      if session.consumer.Some? {
        closed := closed + {session.consumer.value};
      }
      sessions := sessions[sid := Session(false, None, None)];
    }
  }
}
