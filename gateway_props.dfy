/**
 * Properties of the listener: its invariant is kept by every operation and
 * along any run of events, no record is lost or reordered between `process`
 * and the broadcasts, a throttle window coalesces its records into one
 * flush, and the request/response behaviour of the connection gate and the
 * router.
 */
module GatewayProps {
  import opened Protocol
  import opened Settings
  import opened Gateway

  // ---------------------------------------------------------------------
  // The invariant, operation by operation
  // ---------------------------------------------------------------------

  lemma {:induction false} ConcatSnoc(xss: seq<seq<Record>>, xs: seq<Record>)
    ensures Concat(xss + [xs]) == Concat(xss) + xs
  {
    assert (xss + [xs])[..|xss|] == xss;
  }

  lemma ConnectKeepsInv(st: State, s: SocketId, ch: Channel)
    requires Inv(st) && s !in st.conns
    ensures s !in st.room && Inv(Connect(st, s, ch))
  {
  }

  lemma LoginKeepsInv(st: State, s: SocketId, credentials: Data, authOk: bool, backlog: seq<Record>)
    requires Inv(st) && s in st.conns && !credentials.Undefined?
    ensures Inv(Login(st, s, credentials, authOk, backlog))
  {
    var r := Login(st, s, credentials, authOk, backlog);
    forall t | t in r.conns ensures t in r.room <==> r.conns[t].sbAuthenticated {
      if t != s { assert r.conns[t] == st.conns[t]; }
    }
  }

  lemma LogoutKeepsInv(st: State, s: SocketId)
    requires Inv(st) && s in st.conns
    ensures Inv(Logout(st, s))
  {
    var r := Logout(st, s);
    forall t | t in r.conns ensures t in r.room <==> r.conns[t].sbAuthenticated {
      if t != s { assert r.conns[t] == st.conns[t]; }
    }
  }

  lemma RxKeepsInv(st: State, s: SocketId, m: Msg, authOk: bool, backlog: seq<Record>)
    requires Inv(st) && s in st.conns && WellFormed(m)
    ensures Inv(Rx(st, s, m, authOk, backlog))
  {
    if m.msgType == LoginRequestType {
      LoginKeepsInv(st, s, m.data, authOk, backlog);
    } else if m.msgType == LogOutType {
      LogoutKeepsInv(st, s);
    }
  }

  lemma BroadcastKeepsInv(st: State)
    requires Inv(st)
    ensures Inv(Broadcast(st))
  {
    ConcatSnoc(st.flushes, st.buf);
  }

  lemma ProcessKeepsInv(st: State, rec: Record, throttleFires: bool)
    requires Inv(st)
    ensures Inv(Process(st, rec, throttleFires))
  {
    var st1 := AddToBuffer(st, rec);
    assert Concat(st1.flushes) + st1.buf == (Concat(st.flushes) + st.buf) + [rec];
    if !Throttled(st.config) || throttleFires {
      BroadcastKeepsInv(st1);
    }
  }

  // ---------------------------------------------------------------------
  // Runs of events
  // ---------------------------------------------------------------------

  /**
   * What can happen to a listener: the two lifecycle calls, a socket
   * connecting on a channel, a message from a connected socket (with the
   * `authenticate` predicate's answer and the hub's backlog at that moment),
   * a call of `process` (with the throttle's decision), and a broadcast run
   * by the throttle's trailing-edge timer.
   */
  datatype Event =
    | InitEv
    | TearDownEv
    | ConnectEv(socket: SocketId, channel: Channel)
    | MessageEv(socket: SocketId, msg: Msg, authOk: bool, backlog: seq<Record>)
    | ProcessEv(record: Record, throttleFires: bool)
    | FlushEv

  /**
   * `init` runs once, on a listener never initialised; socket.io hands the
   * listener only new sockets on connect, and messages only from connected ones.
   */
  predicate Enabled(st: State, ev: Event)
  {
    match ev
    case InitEv => !st.initialised
    case ConnectEv(s, _) => s !in st.conns && s !in st.room
    case MessageEv(s, m, _, _) => s in st.conns && WellFormed(m)
    case _ => true
  }

  function Step(st: State, ev: Event): State
    requires Enabled(st, ev)
  {
    match ev
    case InitEv => Init(st)
    case TearDownEv => TearDown(st)
    case ConnectEv(s, ch) => Connect(st, s, ch)
    case MessageEv(s, m, ok, backlog) => Rx(st, s, m, ok, backlog)
    case ProcessEv(rec, fires) => Process(st, rec, fires)
    case FlushEv => Broadcast(st)
  }

  /** Every event of `evs` can happen in the state the previous ones lead to. */
  predicate Admissible(st: State, evs: seq<Event>)
    decreases |evs|
  {
    evs == [] || (Enabled(st, evs[0]) && Admissible(Step(st, evs[0]), evs[1..]))
  }

  function Run(st: State, evs: seq<Event>): State
    requires Admissible(st, evs)
    decreases |evs|
  {
    if evs == [] then st else Run(Step(st, evs[0]), evs[1..])
  }

  lemma StepKeepsInv(st: State, ev: Event)
    requires Inv(st) && Enabled(st, ev)
    ensures Inv(Step(st, ev))
  {
    match ev
    case InitEv =>
    case TearDownEv =>
    case ConnectEv(s, ch) => ConnectKeepsInv(st, s, ch);
    case MessageEv(s, m, ok, backlog) => RxKeepsInv(st, s, m, ok, backlog);
    case ProcessEv(rec, fires) => ProcessKeepsInv(st, rec, fires);
    case FlushEv => BroadcastKeepsInv(st);
  }

  /** The invariant holds after any run of events that starts where it holds. */
  lemma {:induction false} RunKeepsInv(st: State, evs: seq<Event>)
    requires Inv(st) && Admissible(st, evs)
    ensures Inv(Run(st, evs))
    decreases |evs|
  {
    if evs != [] {
      StepKeepsInv(st, evs[0]);
      RunKeepsInv(Step(st, evs[0]), evs[1..]);
    }
  }

  /**
   * Whatever happens to a listener, every record given to `process` is
   * either still in the buffer or was broadcast, and the broadcasts carry
   * the records in the order they were processed.
   */
  lemma NoRecordLost(config: Config, filter: Data, evs: seq<Event>)
    requires Admissible(NewListener(config, filter), evs)
    ensures var st := Run(NewListener(config, filter), evs); Concat(st.flushes) + st.buf == st.processed
  {
    RunKeepsInv(NewListener(config, filter), evs);
  }

  /** Running two lists of events one after the other is running their concatenation. */
  lemma {:induction false} RunAppend(st: State, evs1: seq<Event>, evs2: seq<Event>)
    requires Admissible(st, evs1) && Admissible(Run(st, evs1), evs2)
    ensures Admissible(st, evs1 + evs2) && Run(st, evs1 + evs2) == Run(Run(st, evs1), evs2)
    decreases |evs1|
  {
    if evs1 != [] {
      assert (evs1 + evs2)[0] == evs1[0] && (evs1 + evs2)[1..] == evs1[1..] + evs2;
      RunAppend(Step(st, evs1[0]), evs1[1..], evs2);
    } else {
      assert evs1 + evs2 == evs2;
    }
  }

  // ---------------------------------------------------------------------
  // Throttling
  // ---------------------------------------------------------------------

  /** Calls of `process` inside one throttle window: the throttle fires for none of them. */
  function QuietProcessing(rs: seq<Record>): seq<Event>
  {
    if rs == [] then [] else [ProcessEv(rs[0], false)] + QuietProcessing(rs[1..])
  }

  /** Inside a throttle window, `process` only appends: nothing is broadcast. */
  lemma {:induction false} QuietProcessingAppends(st: State, rs: seq<Record>)
    requires Throttled(st.config)
    ensures Admissible(st, QuietProcessing(rs))
    ensures Run(st, QuietProcessing(rs)) == st.(buf := st.buf + rs, processed := st.processed + rs)
    decreases |rs|
  {
    if rs != [] {
      var evs := QuietProcessing(rs);
      assert evs[0] == ProcessEv(rs[0], false) && evs[1..] == QuietProcessing(rs[1..]);
      var st1 := Step(st, evs[0]);
      assert st1 == st.(buf := st.buf + [rs[0]], processed := st.processed + [rs[0]]);
      QuietProcessingAppends(st1, rs[1..]);
      assert st1.buf + rs[1..] == st.buf + rs;
      assert st1.processed + rs[1..] == st.processed + rs;
    }
  }

  /**
   * A throttle window: any number of `process` calls that the throttle holds
   * back, then the trailing-edge broadcast. Exactly one flush happens, it
   * carries what was buffered before followed by every record of the window
   * in call order, and the buffer is empty afterwards.
   */
  lemma ThrottleWindowCoalesces(st: State, rs: seq<Record>)
    requires Throttled(st.config)
    ensures Admissible(st, QuietProcessing(rs) + [FlushEv])
    ensures var r := Run(st, QuietProcessing(rs) + [FlushEv]);
      r.flushes == st.flushes + [st.buf + rs] && r.buf == [] && r.processed == st.processed + rs
  {
    QuietProcessingAppends(st, rs);
    var mid := Run(st, QuietProcessing(rs));
    assert Run(mid, [FlushEv]) == Broadcast(mid);
    RunAppend(st, QuietProcessing(rs), [FlushEv]);
  }

  /** Without throttling, `process` on an empty buffer broadcasts exactly that record and leaves the buffer empty. */
  lemma UnthrottledProcessFlushesRecord(st: State, rec: Record, throttleFires: bool)
    requires !Throttled(st.config) && st.buf == []
    ensures var r := Process(st, rec, throttleFires);
      r.buf == [] && r.flushes == st.flushes + [[rec]]
      && (forall d :: d in r.deliveries[|st.deliveries|..] ==> d.msg == RecordsEnvelope([rec]))
      && (forall ch :: ChannelActive(st, ch) ==> CountOn(r.deliveries[|st.deliveries|..], ch) == 1)
  {
    assert st.buf + [rec] == [rec];
  }

  // ---------------------------------------------------------------------
  // Channels
  // ---------------------------------------------------------------------

  /** `tearDown` twice is `tearDown` once. */
  lemma TearDownIdempotent(st: State)
    ensures TearDown(TearDown(st)) == TearDown(st)
  {
  }

  /** A broadcast after `tearDown` reaches no channel but still empties the buffer. */
  lemma BroadcastAfterTearDown(st: State)
    ensures var r := Broadcast(TearDown(st));
      r.deliveries == st.deliveries && r.buf == [] && r.flushes == st.flushes + [st.buf]
  {
  }

  /**
   * With both channels active and no throttling, one `process` call yields one
   * `RECORDS` envelope on each channel, with the same contents.
   */
  lemma DualFanOut(st: State, rec: Record, throttleFires: bool)
    requires !Throttled(st.config) && st.standaloneNamespace && st.serverAdaptor.Some?
    ensures var r := Process(st, rec, throttleFires);
      var added := r.deliveries[|st.deliveries|..];
      && CountOn(added, StandaloneChannel) == 1 && CountOn(added, AdaptorChannel) == 1
      && forall d :: d in added ==> d.msg == RecordsEnvelope(st.buf + [rec])
  {
    var st1 := AddToBuffer(st, rec);
    assert ChannelActive(st1, StandaloneChannel) && ChannelActive(st1, AdaptorChannel);
  }

  /** Under the invariant, a broadcast on a channel reaches exactly its authenticated sockets. */
  lemma RecipientsAreAuthenticated(st: State, ch: Channel, s: SocketId)
    requires Inv(st)
    ensures s in Recipients(st, ch) <==> s in st.conns && st.conns[s].channel == ch && st.conns[s].sbAuthenticated
  {
  }

  /**
   * Without an `authenticate` predicate a socket that has just connected on an
   * active channel is reached by the next broadcast, with no login exchange.
   */
  lemma NoAuthConnectionReceivesBroadcasts(st: State, s: SocketId, ch: Channel)
    requires Inv(st) && s !in st.conns && !AuthConfigured(st.config) && ChannelActive(st, ch)
    ensures var r := Broadcast(Connect(st, s, ch));
      exists d :: d in r.deliveries[|st.deliveries|..] && d.channel == ch && s in d.recipients
  {
    ConnectKeepsInv(st, s, ch);
    var c := Connect(st, s, ch);
    var r := Broadcast(c);
    var added := r.deliveries[|c.deliveries|..];
    assert c.deliveries == st.deliveries;
    assert CountOn(added, ch) == 1;
    var i := FindOn(added, ch);
    assert added[i] in added;
    assert s in Recipients(c, ch);
  }

  /** An index of a delivery on `ch`, when there is one. */
  lemma {:induction false} FindOn(ds: seq<Delivery>, ch: Channel) returns (i: nat)
    requires CountOn(ds, ch) > 0
    ensures i < |ds| && ds[i].channel == ch
  {
    if ds[0].channel == ch {
      i := 0;
    } else {
      var j := FindOn(ds[1..], ch);
      i := j + 1;
    }
  }

  // ---------------------------------------------------------------------
  // Connection gate and router
  // ---------------------------------------------------------------------

  /** The answer to `LOGIN_REQUIRED_QUESTION` is whether a predicate is configured, and nothing changes. */
  lemma LoginRequiredAnswer(st: State, s: SocketId, data: Data, ok: bool, backlog: seq<Record>)
    requires s in st.conns
    ensures var r := Rx(st, s, Msg(LoginRequiredQuestionType, data), ok, backlog);
      && r.sent == st.sent + [Outgoing(s, Envelope(LoginRequiredResponseType, Some(Success),
                                                  LoginRequiredData(st.config.authenticate.Defined?)))]
      && r.(sent := st.sent) == st
  {
  }

  /**
   * A rejected login leaves the socket outside the room, and a later login
   * whose credentials the predicate accepts still succeeds.
   */
  lemma RetryAfterFailedLogin(st: State, s: SocketId, credentials: Data, backlog: seq<Record>)
    requires Inv(st) && s in st.conns && AuthConfigured(st.config) && !st.conns[s].sbAuthenticated
    requires !credentials.Undefined?
    ensures var r1 := Rx(st, s, Msg(LoginRequestType, credentials), false, backlog);
      && r1.conns == st.conns && s !in r1.room
      && r1.sent == st.sent + [Outgoing(s, Envelope(LoginResponseType, Some(Error), NoPayload))]
      && var r2 := Rx(r1, s, Msg(LoginRequestType, credentials), true, backlog);
      && r2.conns[s].sbAuthenticated && s in r2.room
      && r2.sent == r1.sent + [Outgoing(s, Envelope(LoginResponseType, Some(Success), LoginData(LoginOf(credentials), backlog)))]
  {
  }

  /** With a predicate configured, logging out undoes a successful login of an unauthenticated socket. */
  lemma LogoutUndoesLogin(st: State, s: SocketId, credentials: Data, backlog: seq<Record>)
    requires Inv(st) && s in st.conns && AuthConfigured(st.config) && !st.conns[s].sbAuthenticated
    requires !credentials.Undefined?
    ensures var r := Logout(Login(st, s, credentials, true, backlog), s);
      r.conns == st.conns && r.room == st.room
  {
    var r := Logout(Login(st, s, credentials, true, backlog), s);
    assert r.conns == st.conns[s := st.conns[s]];
    assert s !in st.room;
  }

  /** Without a predicate, logging out changes nothing: the socket stays authenticated and in the room. */
  lemma LogoutWithoutAuthIsInert(st: State, s: SocketId, data: Data, ok: bool, backlog: seq<Record>)
    requires s in st.conns && !AuthConfigured(st.config)
    ensures Rx(st, s, Msg(LogOutType, data), ok, backlog) == st
  {
  }

  /** `SET_SERVER_FILTER` with `f` followed by `GET_SERVER_FILTER` from any socket replies `f`. */
  lemma FilterRoundTrip(st: State, s1: SocketId, s2: SocketId, f: Data, data: Data, ok: bool, backlog: seq<Record>)
    requires s1 in st.conns && s2 in st.conns
    ensures var r1 := Rx(st, s1, Msg(SetServerFilterType, f), ok, backlog);
      var r2 := Rx(r1, s2, Msg(GetServerFilterType, data), ok, backlog);
      && r1.sent[|st.sent|].msg.data == FilterData(f)
      && r2.sent[|r1.sent|] == Outgoing(s2, FilterReply(f))
      && r2.filter == f
  {
  }

  /** A message of an unknown type changes nothing and sends nothing. */
  lemma UnknownTypeIsInert(st: State, s: SocketId, m: Msg, ok: bool, backlog: seq<Record>)
    requires s in st.conns && !IsKnownType(m.msgType)
    ensures WellFormed(m) && Rx(st, s, m, ok, backlog) == st
  {
  }

  /** `UPLOAD_RECORDS` hands each record to the hub in order and replies nothing. */
  lemma UploadForwardsInOrder(st: State, s: SocketId, rs: seq<Record>, ok: bool, backlog: seq<Record>)
    requires s in st.conns
    ensures var r := Rx(st, s, Msg(UploadRecordsType, RecordList(rs)), ok, backlog);
      && r.hubEmitted[..|st.hubEmitted|] == st.hubEmitted && r.hubEmitted[|st.hubEmitted|..] == rs
      && r.sent == st.sent && r.conns == st.conns && r.room == st.room && r.filter == st.filter
  {
  }
}
