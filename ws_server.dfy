/**
 * `WsServerListener` as an object whose methods update its fields in place.
 * Each method is proved to move the object's abstract view along the
 * corresponding function of module Gateway, and the public operations to
 * keep Gateway.Inv.
 *
 * The socket-side state that socket.io keeps (each socket's
 * `sbAuthenticated` flag and namespace, the `'authenticated'` room) and the
 * filter module's configuration are fields here; what the listener sends,
 * broadcasts and hands to the hub is recorded in ghost logs.
 */
module WsServer {
  import opened Protocol
  import opened Settings
  import opened Gateway
  import GatewayProps

  class WsServerListener {
    const config: Config
    /** The constructor wraps `socketBroadcast` in a throttle when `config.throttle` is truthy. */
    const throttled: bool

    var ioStandaloneServer: bool
    var ioStandaloneNamespace: bool
    var ioServerAdaptor: Option<Adaptor>
    var bufBroadcast: seq<Record>
    /** `socket.sbAuthenticated`, and the namespace each socket connected through. */
    var sockets: map<SocketId, Conn>
    /** The sockets that have joined `'authenticated'`. */
    var room: set<SocketId>
    /** The filter module's current configuration (`filters.config` / `filters.getConfig`). */
    var filterConfig: Data

    /** Whether `init` has run. */
    ghost var initialised: bool
    ghost var sent: seq<Outgoing>
    ghost var deliveries: seq<Delivery>
    ghost var flushes: seq<seq<Record>>
    ghost var hubEmitted: seq<Record>
    ghost var processed: seq<Record>

    ghost function View(): State
      reads this
    {
      State(config, initialised, ioStandaloneServer, ioStandaloneNamespace, ioServerAdaptor, sockets, room,
            bufBroadcast, filterConfig, sent, deliveries, flushes, hubEmitted, processed)
    }

    ghost predicate Valid()
      reads this
    {
      Inv(View()) && throttled == Throttled(config)
    }

    constructor (config: Config, filter: Data)
      ensures Valid() && View() == NewListener(config, filter)
    {
      this.config := config;
      throttled := Throttled(config);
      initialised := false;
      ioStandaloneServer, ioStandaloneNamespace, ioServerAdaptor := false, false, None;
      bufBroadcast := [];
      sockets, room := map[], {};
      filterConfig := filter;
      sent, deliveries, flushes, hubEmitted, processed := [], [], [], [], [];
    }

    /** `init`, on a listener never initialised: which channel handles exist afterwards. */
    method Init()
      requires Valid() && !initialised
      modifies this
      ensures Valid() && View() == Gateway.Init(old(View()))
    {
      initialised := true;
      if !IsNullish(config.port) {
        ioStandaloneServer := true;
        ioStandaloneNamespace := true;
      }
      if config.socketServer.Defined? {
        ioServerAdaptor := Some(OfSocketServer(config.socketServer.value));
      } else if config.httpServer.Defined? {
        ioServerAdaptor := Some(OfHttpServer(config.httpServer.value));
      }
    }

    /** `tearDown`: null every channel handle. */
    method TearDown()
      requires Valid()
      modifies this
      ensures Valid() && View() == Gateway.TearDown(old(View()))
    {
      if ioStandaloneServer {
        ioStandaloneServer := false;
      }
      ioStandaloneNamespace := false;
      if ioServerAdaptor.Some? {
        ioServerAdaptor := None;
      }
    }

    /** `socketConnect`: a socket arriving through channel `ch`. */
    method SocketConnect(s: SocketId, ch: Channel)
      requires Valid() && s !in sockets
      modifies this
      ensures Valid() && View() == Connect(old(View()), s, ch)
    {
      ghost var before := View();
      GatewayProps.ConnectKeepsInv(before, s, ch);
      var sbAuthenticated := IsNullish(config.authenticate);
      sockets := sockets[s := Conn(ch, sbAuthenticated)];
      if sbAuthenticated {
        room := room + {s};
      }
    }

    /**
     * `socketRx`: route one message. `authOk` is what the `authenticate`
     * predicate answers for a login, `backlog` what `hub.getBufferedRecords()`
     * returns at that moment.
     */
    method SocketRx(s: SocketId, msg: Msg, authOk: bool, backlog: seq<Record>)
      requires Valid() && s in sockets && WellFormed(msg)
      modifies this
      ensures Valid() && View() == Rx(old(View()), s, msg, authOk, backlog)
    {
      GatewayProps.RxKeepsInv(View(), s, msg, authOk, backlog);
      if msg.msgType == LoginRequestType {
        SocketLogin(s, msg, authOk, backlog);
      } else if msg.msgType == LogOutType {
        SocketLogout(s);
      } else if msg.msgType == LoginRequiredQuestionType {
        SocketTx(s, Envelope(LoginRequiredResponseType, Some(Success), LoginRequiredData(!IsNullish(config.authenticate))));
      } else if msg.msgType == GetServerFilterType || msg.msgType == SetServerFilterType {
        if msg.msgType == SetServerFilterType {
          filterConfig := msg.data;
        }
        SocketTx(s, Envelope(ServerFilterType, Some(Success), FilterData(filterConfig)));
      } else if msg.msgType == UploadRecordsType {
        var records := msg.data.records;
        for i := 0 to |records|
          invariant View() == old(View()).(hubEmitted := old(hubEmitted) + records[..i])
        {
          HubEmit(records[i]);
        }
      }
    }

    /** `socketLogin`: answer a `LOGIN_REQUEST` that carries some data. */
    method SocketLogin(s: SocketId, msg: Msg, authOk: bool, backlog: seq<Record>)
      requires Valid() && s in sockets && !msg.data.Undefined?
      modifies this
      ensures Valid() && View() == Login(old(View()), s, msg.data, authOk, backlog)
    {
      GatewayProps.LoginKeepsInv(View(), s, msg.data, authOk, backlog);
      var credentials := msg.data;
      var login := LoginOf(credentials);
      var fPreAuthenticated := sockets[s].sbAuthenticated || IsNullish(config.authenticate);
      var fAuthValid := fPreAuthenticated || authOk;
      var rsp;
      if fAuthValid {
        sockets := sockets[s := sockets[s].(sbAuthenticated := true)];
        room := room + {s};
        rsp := Envelope(LoginResponseType, Some(Success), LoginData(login, backlog));
      } else {
        rsp := Envelope(LoginResponseType, Some(Error), NoPayload);
      }
      SocketTx(s, rsp);
    }

    /** `socketLogout`. */
    method SocketLogout(s: SocketId)
      requires Valid() && s in sockets
      modifies this
      ensures Valid() && View() == Logout(old(View()), s)
    {
      GatewayProps.LogoutKeepsInv(View(), s);
      if !IsNullish(config.authenticate) {
        sockets := sockets[s := sockets[s].(sbAuthenticated := false)];
        room := room - {s};
      }
    }

    /** `socketTx`: `socket.emit('MSG', msg)`. */
    method SocketTx(s: SocketId, msg: Envelope)
      requires Valid()
      modifies this`sent
      ensures Valid() && View() == Tx(old(View()), s, msg)
    {
      sent := sent + [Outgoing(s, msg)];
    }

    /** `hub.emit(record)`, recorded. */
    method HubEmit(rec: Record)
      modifies this`hubEmitted
      ensures hubEmitted == old(hubEmitted) + [rec]
    {
      hubEmitted := hubEmitted + [rec];
    }

    /** `addToBroadcastBuffer`: `bufBroadcast.push(record)`. */
    method AddToBroadcastBuffer(rec: Record)
      requires Valid()
      modifies this
      ensures Valid() && View() == AddToBuffer(old(View()), rec)
    {
      bufBroadcast := bufBroadcast + [rec];
      processed := processed + [rec];
    }

    /** `ns.to('authenticated').emit('MSG', msg)` on the namespace of `ch`. */
    method EmitToRoom(ch: Channel, msg: Envelope)
      modifies this`deliveries
      ensures deliveries == old(deliveries) + [Delivery(ch, SocketRoom, Recipients(View(), ch), msg)]
    {
      deliveries := deliveries + [Delivery(ch, SocketRoom, Recipients(View(), ch), msg)];
    }

    /**
     * `socketBroadcast`: the `RECORDS` envelope holds the buffer's contents as
     * they are when it is built; then the buffer is emptied in place.
     */
    method SocketBroadcast()
      requires Valid()
      modifies this
      ensures Valid() && View() == Broadcast(old(View()))
    {
      GatewayProps.BroadcastKeepsInv(View());
      var msg := Envelope(RecordsType, None, RecordsData(bufBroadcast));
      if ioStandaloneNamespace {
        EmitToRoom(StandaloneChannel, msg);
      }
      if ioServerAdaptor.Some? {
        EmitToRoom(AdaptorChannel, msg);
      }
      flushes := flushes + [bufBroadcast];
      bufBroadcast := [];
    }

    /**
     * `process`: append, then broadcast unless the throttle holds the
     * broadcast back (`throttleFires` is the throttle's decision).
     */
    method Process(rec: Record, throttleFires: bool)
      requires Valid()
      modifies this
      ensures Valid() && View() == Gateway.Process(old(View()), rec, throttleFires)
    {
      GatewayProps.ProcessKeepsInv(View(), rec, throttleFires);
      AddToBroadcastBuffer(rec);
      if !throttled || throttleFires {
        SocketBroadcast();
      }
    }
  }

  /** `create`: a listener over the user's configuration merged with the defaults. */
  method CreateListener(userConfig: Config, filter: Data) returns (l: WsServerListener)
    ensures fresh(l) && l.Valid() && l.View() == NewListener(Create(userConfig), filter)
  {
    l := new WsServerListener(Create(userConfig), filter);
  }
}
