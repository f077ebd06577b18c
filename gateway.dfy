/**
 * The listener's state as a value, and each of its operations as a function
 * from the state before to the state after. The class in module WsServer
 * updates its fields in place and is proved to follow these functions; the
 * properties of the listener are proved here, about the functions.
 *
 * Besides the listener's own fields the state holds, as plain values, the
 * parts of socket.io and of the collaborators that the listener drives: the
 * per-socket `sbAuthenticated` flag and the channel the socket came in on,
 * the members of the `'authenticated'` room, the filter store's current
 * configuration, and logs of what was sent to single sockets, what was
 * broadcast to the room on each channel, what was handed to `hub.emit`,
 * the snapshot of the buffer taken by each flush, and every record given
 * to `process`.
 */
module Gateway {
  import opened Protocol
  import opened Settings

  /** A connected socket, by identity. */
  type SocketId = nat

  /** The two ways a client reaches the listener. */
  datatype Channel = StandaloneChannel | AdaptorChannel

  /** Where the adaptor namespace came from: the host's socket.io server, or a fresh one on its http server. */
  datatype Adaptor = OfSocketServer(host: Host) | OfHttpServer(host: Host)

  /** What the listener keeps on a socket: the namespace it connected through, and `socket.sbAuthenticated`. */
  datatype Conn = Conn(channel: Channel, sbAuthenticated: bool)

  /** `socket.emit('MSG', msg)` to one socket. */
  datatype Outgoing = Outgoing(socket: SocketId, msg: Envelope)

  /** `namespace.to(room).emit('MSG', msg)` on one channel, with the sockets it reached. */
  datatype Delivery = Delivery(channel: Channel, room: string, recipients: set<SocketId>, msg: Envelope)

  /**
   * `initialised` records that `init` has run; the socket.io handles and the
   * `connection` handlers it registers outlive `tearDown`.
   */
  datatype State = State(
    config: Config,
    initialised: bool,
    standaloneServer: bool,
    standaloneNamespace: bool,
    serverAdaptor: Option<Adaptor>,
    conns: map<SocketId, Conn>,
    room: set<SocketId>,
    buf: seq<Record>,
    filter: Data,
    sent: seq<Outgoing>,
    deliveries: seq<Delivery>,
    flushes: seq<seq<Record>>,
    hubEmitted: seq<Record>,
    processed: seq<Record>)

  /** A channel whose handle is not null: broadcasts go out on it. */
  predicate ChannelActive(st: State, ch: Channel)
  {
    match ch
    case StandaloneChannel => st.standaloneNamespace
    case AdaptorChannel => st.serverAdaptor.Some?
  }

  /** The sockets a broadcast to the room on `ch` reaches. */
  function Recipients(st: State, ch: Channel): set<SocketId>
  {
    set s | s in st.room && s in st.conns && st.conns[s].channel == ch
  }

  /** All records flushed so far, in flush order. */
  function Concat(xss: seq<seq<Record>>): seq<Record>
  {
    if xss == [] then [] else Concat(xss[..|xss| - 1]) + xss[|xss| - 1]
  }

  /** How many of `ds` went out on `ch`. */
  function CountOn(ds: seq<Delivery>, ch: Channel): nat
  {
    if ds == [] then 0 else (if ds[0].channel == ch then 1 else 0) + CountOn(ds[1..], ch)
  }

  /**
   * What the listener keeps true between operations: the room holds exactly
   * the authenticated sockets; without an `authenticate` predicate every
   * socket is authenticated; the standalone server and its namespace come and
   * go together; and no record given to `process` is lost or reordered: the
   * flushed records followed by the buffer are exactly the records processed.
   */
  predicate Inv(st: State)
  {
    && st.room <= st.conns.Keys
    && (forall s :: s in st.conns ==> (s in st.room <==> st.conns[s].sbAuthenticated))
    && (!AuthConfigured(st.config) ==> forall s :: s in st.conns ==> st.conns[s].sbAuthenticated)
    && st.standaloneServer == st.standaloneNamespace
    && Concat(st.flushes) + st.buf == st.processed
  }

  // ---------------------------------------------------------------------
  // Construction and channel bookkeeping
  // ---------------------------------------------------------------------

  /** The `WsServerListener` constructor: no channel, an empty buffer, no sockets. */
  function NewListener(config: Config, filter: Data): (r: State)
    ensures Inv(r)
    ensures !ChannelActive(r, StandaloneChannel) && !ChannelActive(r, AdaptorChannel)
    ensures r.config == config && r.buf == [] && r.conns == map[] && r.filter == filter && !r.initialised
  {
    State(config, false, false, false, None, map[], {}, [], filter, [], [], [], [], [])
  }

  /**
   * `init`, channel decisions only: a standalone server when `port != null`;
   * an adaptor from `config.socketServer` when given, else from
   * `config.httpServer` when given. A handle `init` does not set keeps its value.
   * Only a listener that was never initialised is modelled: a second `init`
   * would replace the standalone namespace and register a second adaptor
   * `connection` handler.
   */
  function Init(st: State): (r: State)
    requires !st.initialised
    ensures r.initialised
    ensures !IsNullish(st.config.port) ==> r.standaloneServer && r.standaloneNamespace
    ensures IsNullish(st.config.port) ==>
      r.standaloneServer == st.standaloneServer && r.standaloneNamespace == st.standaloneNamespace
    ensures st.config.socketServer.Defined? ==> r.serverAdaptor == Some(OfSocketServer(st.config.socketServer.value))
    ensures !st.config.socketServer.Defined? && st.config.httpServer.Defined? ==>
      r.serverAdaptor == Some(OfHttpServer(st.config.httpServer.value))
    ensures !st.config.socketServer.Defined? && !st.config.httpServer.Defined? ==> r.serverAdaptor == st.serverAdaptor
    ensures r.(initialised := st.initialised, standaloneServer := st.standaloneServer,
               standaloneNamespace := st.standaloneNamespace, serverAdaptor := st.serverAdaptor) == st
  {
    var st0 := st.(initialised := true);
    var st1 := if !IsNullish(st.config.port) then st0.(standaloneServer := true, standaloneNamespace := true) else st0;
    if st.config.socketServer.Defined? then st1.(serverAdaptor := Some(OfSocketServer(st.config.socketServer.value)))
    else if st.config.httpServer.Defined? then st1.(serverAdaptor := Some(OfHttpServer(st.config.httpServer.value)))
    else st1
  }

  /** `tearDown`: every channel handle becomes null; nothing else changes. */
  function TearDown(st: State): (r: State)
    ensures !ChannelActive(r, StandaloneChannel) && !ChannelActive(r, AdaptorChannel) && !r.standaloneServer
    ensures r.(standaloneServer := st.standaloneServer, standaloneNamespace := st.standaloneNamespace,
               serverAdaptor := st.serverAdaptor) == st
  {
    st.(standaloneServer := false, standaloneNamespace := false, serverAdaptor := None)
  }

  // ---------------------------------------------------------------------
  // Connection gate
  // ---------------------------------------------------------------------

  /** `socketConnect`: a new socket is authenticated, and joins the room, exactly when no predicate is configured. */
  function Connect(st: State, s: SocketId, ch: Channel): (r: State)
    requires s !in st.conns && s !in st.room
    ensures s in r.conns && r.conns[s].channel == ch
    ensures r.conns[s].sbAuthenticated <==> !AuthConfigured(st.config)
    ensures s in r.room <==> !AuthConfigured(st.config)
    ensures r.conns.Keys == st.conns.Keys + {s} && r.room - {s} == st.room - {s}
    ensures forall t :: t in st.conns ==> t in r.conns && r.conns[t] == st.conns[t]
    ensures r.(conns := st.conns, room := st.room) == st
  {
    var authed := !AuthConfigured(st.config);
    st.(conns := st.conns[s := Conn(ch, authed)], room := if authed then st.room + {s} else st.room)
  }

  /** `fPreAuthenticated || authenticate(credentials)`, with the predicate's answer given as `authOk`. */
  predicate LoginSucceeds(st: State, s: SocketId, authOk: bool)
    requires s in st.conns
  {
    st.conns[s].sbAuthenticated || !AuthConfigured(st.config) || authOk
  }

  /** `socketTx`: one envelope to one socket. */
  function Tx(st: State, s: SocketId, msg: Envelope): (r: State)
    ensures r.sent == st.sent + [Outgoing(s, msg)] && |r.sent| == |st.sent| + 1
    ensures r.(sent := st.sent) == st
  {
    st.(sent := st.sent + [Outgoing(s, msg)])
  }

  /**
   * `socketLogin`: exactly one `LOGIN_RESPONSE` to the socket. On success the
   * socket is authenticated, joins the room and receives its login and the
   * hub's backlog; on failure it receives an `ERROR` and nothing else changes.
   */
  function Login(st: State, s: SocketId, credentials: Data, authOk: bool, backlog: seq<Record>): (r: State)
    requires s in st.conns && !credentials.Undefined?
    ensures |r.sent| == |st.sent| + 1 && r.sent[..|st.sent|] == st.sent
    ensures r.sent[|st.sent|].socket == s && r.sent[|st.sent|].msg.msgType == LoginResponseType
    ensures LoginSucceeds(st, s, authOk) <==> r.sent[|st.sent|].msg.result == Some(Success)
    ensures LoginSucceeds(st, s, authOk) ==>
      && r.sent[|st.sent|].msg.data == LoginData(LoginOf(credentials), backlog)
      && s in r.conns && r.conns[s].sbAuthenticated && s in r.room
      && r.conns == st.conns[s := Conn(st.conns[s].channel, true)] && r.room == st.room + {s}
    ensures !LoginSucceeds(st, s, authOk) ==>
      && r.sent[|st.sent|].msg == Envelope(LoginResponseType, Some(Error), NoPayload)
      && r.conns == st.conns && r.room == st.room
    ensures r.(conns := st.conns, room := st.room, sent := st.sent) == st
  {
    if LoginSucceeds(st, s, authOk) then
      var st1 := st.(conns := st.conns[s := st.conns[s].(sbAuthenticated := true)], room := st.room + {s});
      Tx(st1, s, Envelope(LoginResponseType, Some(Success), LoginData(LoginOf(credentials), backlog)))
    else
      Tx(st, s, Envelope(LoginResponseType, Some(Error), NoPayload))
  }

  /** `socketLogout`: with a predicate configured the socket is demoted and leaves the room; otherwise nothing happens. */
  function Logout(st: State, s: SocketId): (r: State)
    requires s in st.conns
    ensures AuthConfigured(st.config) ==>
      && s in r.conns && !r.conns[s].sbAuthenticated && s !in r.room
      && r.conns == st.conns[s := Conn(st.conns[s].channel, false)] && r.room == st.room - {s}
    ensures !AuthConfigured(st.config) ==> r == st
    ensures r.(conns := st.conns, room := st.room) == st
  {
    if AuthConfigured(st.config) then
      st.(conns := st.conns[s := st.conns[s].(sbAuthenticated := false)], room := st.room - {s})
    else
      st
  }

  // ---------------------------------------------------------------------
  // Message router
  // ---------------------------------------------------------------------

  /** The reply to a filter request: the store's configuration after the request. */
  function FilterReply(filter: Data): Envelope
  {
    Envelope(ServerFilterType, Some(Success), FilterData(filter))
  }

  /**
   * `socketRx`: dispatch on the message type. At most one reply, always to the
   * sender; no broadcast, no change to the buffer or the channels.
   */
  function Rx(st: State, s: SocketId, m: Msg, authOk: bool, backlog: seq<Record>): (r: State)
    requires s in st.conns && WellFormed(m)
    ensures r.sent == st.sent || (|r.sent| == |st.sent| + 1 && r.sent[..|st.sent|] == st.sent && r.sent[|st.sent|].socket == s)
    ensures r.buf == st.buf && r.flushes == st.flushes && r.deliveries == st.deliveries && r.processed == st.processed
    ensures r.config == st.config && r.standaloneNamespace == st.standaloneNamespace && r.serverAdaptor == st.serverAdaptor
    ensures r.conns.Keys == st.conns.Keys
    ensures m.msgType == LoginRequestType ==> r == Login(st, s, m.data, authOk, backlog)
    ensures m.msgType == LogOutType ==> r == Logout(st, s)
    ensures m.msgType == LoginRequiredQuestionType ==>
      r == st.(sent := st.sent + [Outgoing(s, Envelope(LoginRequiredResponseType, Some(Success),
                                                        LoginRequiredData(AuthConfigured(st.config))))])
    ensures m.msgType == SetServerFilterType ==>
      r == st.(filter := m.data, sent := st.sent + [Outgoing(s, FilterReply(m.data))])
    ensures m.msgType == GetServerFilterType ==> r == st.(sent := st.sent + [Outgoing(s, FilterReply(st.filter))])
    ensures m.msgType == UploadRecordsType ==> r == st.(hubEmitted := st.hubEmitted + m.data.records)
    ensures !IsKnownType(m.msgType) ==> r == st
  {
    if m.msgType == LoginRequestType then
      Login(st, s, m.data, authOk, backlog)
    else if m.msgType == LogOutType then
      Logout(st, s)
    else if m.msgType == LoginRequiredQuestionType then
      Tx(st, s, Envelope(LoginRequiredResponseType, Some(Success), LoginRequiredData(AuthConfigured(st.config))))
    else if m.msgType == GetServerFilterType || m.msgType == SetServerFilterType then
      var st1 := if m.msgType == SetServerFilterType then st.(filter := m.data) else st;
      Tx(st1, s, FilterReply(st1.filter))
    else if m.msgType == UploadRecordsType then
      st.(hubEmitted := st.hubEmitted + m.data.records)
    else
      st
  }

  // ---------------------------------------------------------------------
  // Broadcast buffer
  // ---------------------------------------------------------------------

  /** The `RECORDS` envelope carrying `rs`. */
  function RecordsEnvelope(rs: seq<Record>): Envelope
  {
    Envelope(RecordsType, None, RecordsData(rs))
  }

  /** `addToBroadcastBuffer`: the record goes to the end of the buffer. */
  function AddToBuffer(st: State, rec: Record): (r: State)
    ensures r.buf == st.buf + [rec] && r.buf[|st.buf|] == rec && r.processed == st.processed + [rec]
    ensures r.(buf := st.buf, processed := st.processed) == st
  {
    st.(buf := st.buf + [rec], processed := st.processed + [rec])
  }

  /**
   * The deliveries of one broadcast of `msg` to the room: one on each active
   * channel, standalone first, and none on an inactive one.
   */
  function FanOut(st: State, msg: Envelope): (ds: seq<Delivery>)
    ensures forall d :: d in ds ==>
      && d.msg == msg && d.room == SocketRoom
      && ChannelActive(st, d.channel) && d.recipients == Recipients(st, d.channel)
    ensures forall ch :: ChannelActive(st, ch) ==> CountOn(ds, ch) == 1
  {
    var viaStandalone :=
      if st.standaloneNamespace then [Delivery(StandaloneChannel, SocketRoom, Recipients(st, StandaloneChannel), msg)] else [];
    var viaAdaptor :=
      if st.serverAdaptor.Some? then [Delivery(AdaptorChannel, SocketRoom, Recipients(st, AdaptorChannel), msg)] else [];
    assert CountOn(viaAdaptor, StandaloneChannel) == 0;
    assert CountOn(viaAdaptor, AdaptorChannel) == (if st.serverAdaptor.Some? then 1 else 0);
    assert viaStandalone != [] ==> (viaStandalone + viaAdaptor)[1..] == viaAdaptor;
    assert viaStandalone == [] ==> viaStandalone + viaAdaptor == viaAdaptor;
    viaStandalone + viaAdaptor
  }

  /**
   * `socketBroadcast`: one `RECORDS` envelope holding the whole buffer, in
   * order, to the room on every active channel and on no other, exactly once
   * each; then the buffer is empty. The envelope is a snapshot of the buffer
   * taken before it is cleared.
   */
  function Broadcast(st: State): (r: State)
    ensures r.buf == [] && r.flushes == st.flushes + [st.buf]
    ensures |st.deliveries| <= |r.deliveries| && r.deliveries[..|st.deliveries|] == st.deliveries
    ensures forall d :: d in r.deliveries[|st.deliveries|..] ==>
      && d.msg == RecordsEnvelope(st.buf) && d.room == SocketRoom
      && ChannelActive(st, d.channel) && d.recipients == Recipients(st, d.channel)
    ensures forall ch :: ChannelActive(st, ch) ==> CountOn(r.deliveries[|st.deliveries|..], ch) == 1
    ensures r.(buf := st.buf, flushes := st.flushes, deliveries := st.deliveries) == st
  {
    var ds := FanOut(st, RecordsEnvelope(st.buf));
    assert (st.deliveries + ds)[|st.deliveries|..] == ds;
    assert (st.deliveries + ds)[..|st.deliveries|] == st.deliveries;
    st.(deliveries := st.deliveries + ds, flushes := st.flushes + [st.buf], buf := [])
  }

  /**
   * `process`: append, then broadcast. When the configuration throttles
   * broadcasts, `throttleFires` is the throttle's decision for this call
   * (true on a leading edge); a broadcast it holds back runs later as a
   * separate `Broadcast`.
   */
  function Process(st: State, rec: Record, throttleFires: bool): (r: State)
    ensures r.processed == st.processed + [rec]
    ensures Throttled(st.config) && !throttleFires ==> r == AddToBuffer(st, rec)
    ensures !Throttled(st.config) || throttleFires ==>
      r.buf == [] && r.flushes == st.flushes + [st.buf + [rec]]
    ensures !Throttled(st.config) || throttleFires ==> r == Broadcast(AddToBuffer(st, rec))
  {
    var st1 := AddToBuffer(st, rec);
    if !Throttled(st.config) || throttleFires then Broadcast(st1) else st1
  }
}
