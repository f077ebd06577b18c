# storyboard WebSocket log listener — a Dafny model

This project models the per-connection state and the broadcast buffer of
storyboard's WebSocket server listener (`WsServerListener` in
`src/listeners/wsServer.js`). The listener relays log records from the hub
to viewer clients over socket.io. It can serve on two channels: a standalone
server of its own, and a namespace attached to the host application's
server. Each socket carries an `sbAuthenticated` flag. Only the members of
the room `'authenticated'` receive broadcasts. Records given to `process`
are buffered and sent as one `RECORDS` envelope per broadcast, possibly
behind a throttle.

The model has four modules:

- `Protocol` (`protocol.dfy`): records, inbound messages `{type, data}`,
  outbound envelopes `{type, result, data}` and the protocol's type tags.
- `Settings` (`config.dfy`): the configuration and `create`'s merge of the
  user's options over `{port: 8090, throttle: 200, authenticate: null}`.
  The merge follows timm's `addDefaults`: only keys that are `undefined` take
  the default. So an omitted `port` starts a standalone server on 8090, and
  only an explicit `port: null` disables it.
- `Gateway` (`gateway.dfy`): the listener's state as a value, and every
  operation as a function from the old state to the new one. Each function's
  contract states what the operation promises. `Inv` is the invariant every
  operation keeps:
  - the room holds exactly the authenticated sockets;
  - with no `authenticate` predicate, every socket is authenticated;
  - the records flushed so far, followed by the buffer, are exactly the
    records processed, in order.
- `GatewayProps` (`gateway_props.dfy`): the invariant along any run of
  events, the no-loss property, throttle-window coalescing, and the
  request/response properties of login, logout and the router.
- `WsServer` (`ws_server.dfy`): the class `WsServerListener`. Its fields are
  the source's fields, plus the socket-side state (flags, room) and the filter
  store's value. Its methods update the fields in place. Each method is proved
  to move the object's view exactly as the matching `Gateway` function does.
  Every method that changes the listener's state is proved to keep `Inv`.

Inputs from code outside the listener become parameters:
- `authOk` is what the `authenticate` predicate answers for a login.
- `backlog` is what `hub.getBufferedRecords()` returns.
- `throttleFires` is the throttle's decision for one `process` call. A
  broadcast that the throttle holds back runs later as a separate
  `SocketBroadcast`.

What the listener sends is recorded in ghost logs:
- replies to single sockets;
- room broadcasts, per channel, with the sockets they reach;
- the value snapshot each broadcast took of the buffer;
- the records handed to `hub.emit`.

## Model

| member | source | states |
|---|---|---|
| `Settings.Create` | src/listeners/wsServer.js:235-236 | the merged configuration takes each of `port`, `throttle`, `authenticate` from the user unless it is `undefined`, where it takes 8090, 200, `null`; `socketServer`/`httpServer` are passed through; none of the three defaulted keys is left `undefined` |
| `Settings.CreateIdempotent` | src/listeners/wsServer.js:12-16 | merging the defaults into a merged configuration changes nothing |
| `Settings.ExplicitNullPortKept` | src/listeners/wsServer.js:46 | an explicit `port: null` survives the merge, so no standalone server is started |
| `Gateway.NewListener` | src/listeners/wsServer.js:24-39 | a new listener has no channel, an empty buffer, no sockets, and satisfies the invariant |
| `Gateway.Init` | src/listeners/wsServer.js:41-85 | on a listener never initialised: standalone server and namespace exist iff `port != null` (otherwise unchanged); the adaptor comes from `socketServer` when given, else from `httpServer` when given, else is unchanged; the listener is marked initialised; nothing else changes |
| `Gateway.TearDown` | src/listeners/wsServer.js:87-97 | afterwards no channel handle is set; nothing else changes |
| `Gateway.Connect` | src/listeners/wsServer.js:99-103 | a new socket is authenticated, and in the room, iff no `authenticate` predicate is configured; other sockets are untouched |
| `Gateway.Login` | src/listeners/wsServer.js:161-188 | exactly one `LOGIN_RESPONSE` goes to the socket; `SUCCESS` iff the socket was authenticated, no predicate is configured, or the predicate accepts; on success the flag is set, the room joined and the data is `{login, bufferedRecords}`, where `login` is absent unless the data is a credentials object; on `ERROR` flag and room are unchanged |
| `Gateway.Logout` | src/listeners/wsServer.js:190-196 | with a predicate configured the socket is unauthenticated and out of the room; without one the state is unchanged |
| `Gateway.Tx` | src/listeners/wsServer.js:198-200 | one envelope is appended to what was sent to the socket, and nothing else changes |
| `Gateway.Rx` | src/listeners/wsServer.js:105-159 | at most one reply, to the sender; no broadcast and no change to buffer or channels; per type: login, logout, `LOGIN_REQUIRED_RESPONSE` with `fLoginRequired == (authenticate != null)`, `SET_SERVER_FILTER` stores and echoes the value, `GET_SERVER_FILTER` replies the store's value, `UPLOAD_RECORDS` hands the records to the hub in order with no reply, unknown types change nothing |
| `Gateway.AddToBuffer` | src/listeners/wsServer.js:203-205 | the record is appended at the end of the buffer |
| `Gateway.FanOut` | src/listeners/wsServer.js:212-213 | one delivery of the envelope to the room on each active channel, exactly once each, and none on an inactive channel |
| `Gateway.Broadcast` | src/listeners/wsServer.js:209-215 | one `RECORDS` envelope carrying the buffer as it was, in order, to the room on every active channel exactly once and on no other; the buffer is then empty |
| `Gateway.Process` | src/listeners/wsServer.js:220-223 | the record is appended; when the throttle holds it back nothing else changes; otherwise the result is a full `Broadcast` of the old buffer plus the record (one `RECORDS` envelope per active channel, nothing else changed), leaving the buffer empty |
| `GatewayProps.ConnectKeepsInv` | src/listeners/wsServer.js:99-103 | connecting a new socket keeps the invariant |
| `Protocol.LoginOf` | src/listeners/wsServer.js:165 | the login read from the request's data is present exactly when the data is a credentials object, and is then its `login` |
| `GatewayProps.LoginKeepsInv` | src/listeners/wsServer.js:161-188 | a login, accepted or rejected, keeps the invariant |
| `GatewayProps.LogoutKeepsInv` | src/listeners/wsServer.js:190-196 | a logout keeps the invariant |
| `GatewayProps.RxKeepsInv` | src/listeners/wsServer.js:105-159 | every message keeps the invariant (room = authenticated sockets) |
| `GatewayProps.BroadcastKeepsInv` | src/listeners/wsServer.js:209-215 | a broadcast keeps the invariant: flushed records followed by the buffer are still the processed records |
| `GatewayProps.ProcessKeepsInv` | src/listeners/wsServer.js:220-223 | `process` keeps the invariant, throttled or not |
| `GatewayProps.RunKeepsInv` | src/listeners/wsServer.js:24-223 | the invariant holds after any admissible run of lifecycle calls (`init` at most once), connects, messages, `process` calls and timer flushes |
| `GatewayProps.NoRecordLost` | src/listeners/wsServer.js:203-223 | from a new listener, after any run, every processed record has been broadcast or is still buffered, in processing order |
| `GatewayProps.QuietProcessingAppends` | src/listeners/wsServer.js:35-38 | `process` calls that the throttle holds back only append to the buffer |
| `GatewayProps.ThrottleWindowCoalesces` | src/listeners/wsServer.js:35-38 | a throttle window (held-back `process` calls, then the trailing flush) makes exactly one flush, carrying the earlier buffer and all the window's records in call order, and empties the buffer |
| `GatewayProps.UnthrottledProcessFlushesRecord` | src/listeners/wsServer.js:220-223 | without throttling, `process(r)` on an empty buffer broadcasts exactly `[r]`, once on each active channel, and leaves the buffer empty |
| `GatewayProps.TearDownIdempotent` | src/listeners/wsServer.js:87-97 | `tearDown` twice equals `tearDown` once |
| `GatewayProps.BroadcastAfterTearDown` | src/listeners/wsServer.js:209-214 | a broadcast after `tearDown` delivers on no channel but still empties the buffer |
| `GatewayProps.DualFanOut` | src/listeners/wsServer.js:211-213 | with both channels active and no throttle, one `process` call sends one `RECORDS` envelope on each channel, both with the same contents |
| `GatewayProps.RecipientsAreAuthenticated` | src/listeners/wsServer.js:100-101 | under the invariant, a broadcast on a channel reaches exactly that channel's authenticated sockets |
| `GatewayProps.NoAuthConnectionReceivesBroadcasts` | src/listeners/wsServer.js:99-101 | without a predicate, a socket that has just connected on an active channel is reached by the next broadcast, with no login |
| `GatewayProps.LoginRequiredAnswer` | src/listeners/wsServer.js:117-122 | `LOGIN_REQUIRED_QUESTION` gets one `SUCCESS` reply saying whether a predicate is configured, and changes nothing else |
| `GatewayProps.RetryAfterFailedLogin` | src/listeners/wsServer.js:161-188 | a rejected login sends `ERROR` and leaves the socket unauthenticated and out of the room; a later accepted login succeeds and joins the room |
| `GatewayProps.LogoutUndoesLogin` | src/listeners/wsServer.js:190-196 | with a predicate configured, logout after a successful login of an unauthenticated socket restores its flag and room membership |
| `GatewayProps.LogoutWithoutAuthIsInert` | src/listeners/wsServer.js:192 | without a predicate, `LOG_OUT` changes nothing |
| `GatewayProps.FilterRoundTrip` | src/listeners/wsServer.js:134-148 | `SET_SERVER_FILTER` with `f` replies `f`, and a following `GET_SERVER_FILTER` from any socket replies `f` |
| `GatewayProps.UnknownTypeIsInert` | src/listeners/wsServer.js:154-157 | a message of an unknown type sends nothing and changes nothing |
| `GatewayProps.UploadForwardsInOrder` | src/listeners/wsServer.js:149-153 | `UPLOAD_RECORDS` appends its records to the hub's input in order and sends nothing |
| `WsServer.WsServerListener.constructor` | src/listeners/wsServer.js:24-39 | fields as in `NewListener`; the throttle is on iff `config.throttle` is truthy |
| `WsServer.WsServerListener.Init` | src/listeners/wsServer.js:41-85 | on a listener never initialised, the channel handles change as `Gateway.Init` says; the invariant is kept |
| `WsServer.WsServerListener.TearDown` | src/listeners/wsServer.js:87-97 | the handles are nulled as `Gateway.TearDown` says |
| `WsServer.WsServerListener.SocketConnect` | src/listeners/wsServer.js:99-103 | the fields change as `Gateway.Connect` says; the invariant is kept |
| `WsServer.WsServerListener.SocketRx` | src/listeners/wsServer.js:105-159 | the fields change as `Gateway.Rx` says (the upload loop hands records to the hub one by one); the invariant is kept |
| `WsServer.WsServerListener.SocketLogin` | src/listeners/wsServer.js:161-188 | the fields change as `Gateway.Login` says; the invariant is kept |
| `WsServer.WsServerListener.SocketLogout` | src/listeners/wsServer.js:190-196 | the fields change as `Gateway.Logout` says; the invariant is kept |
| `WsServer.WsServerListener.SocketTx` | src/listeners/wsServer.js:198-200 | one envelope is recorded as sent to the socket; the invariant is kept |
| `WsServer.WsServerListener.AddToBroadcastBuffer` | src/listeners/wsServer.js:203-205 | the buffer grows by the record at its end; the invariant is kept |
| `WsServer.WsServerListener.SocketBroadcast` | src/listeners/wsServer.js:209-215 | sends a value snapshot of the buffer on each non-null channel, then truncates the buffer, as `Gateway.Broadcast` says; the invariant is kept |
| `WsServer.WsServerListener.Process` | src/listeners/wsServer.js:220-223 | append, then broadcast unless throttled, as `Gateway.Process` says; the invariant is kept |
| `WsServer.CreateListener` | src/listeners/wsServer.js:235-236 | a fresh listener over the user's configuration merged with the defaults |

## Left out

- The express static app, `http.createServer`, `listen`, and the socket.io server and namespace objects are not modelled. A channel is a present or absent handle. A send is an entry in a log, and a room broadcast on a channel reaches that channel's sockets in the room.
- If constructing the standalone server throws inside the `try` at lines 49-62, `ioStandaloneServer` can be set while `ioStandaloneNamespace` stays null. This path is not modelled: `init` is taken to set the handles it decides on.
- The adaptor is built at lines 67-71, outside any `try`. If `config.socketServer.of(...)` or `socketio(config.httpServer)` throws, the exception propagates out of `init`: the standalone handles are set and the adaptor stays null. This path is not modelled.
- `Init` is modelled only on a listener never initialised, and a run admits at most one `init`. A second `init` in the source creates a fresh standalone server and namespace, so later broadcasts miss the sockets of the first one. It also registers a second `connection` handler on the adaptor namespace, which `socketServer.of(...)` returns again, so each later adaptor socket gets two `MSG` handlers and every request is handled twice.
- Bind errors, `listening` handlers, `logError`, `chalk` formatting and all `mainStory` logging are not modelled. This includes the messages deferred with `process.nextTick`. All of these are logging side effects.
- The `close()` calls in `tearDown` are not modelled, beyond the handles becoming null.
- The adaptor namespace's `connection` handler stays registered after `tearDown`. So `SocketConnect` does not require an active channel.
- The throttle's timing is not modelled: neither lodash's leading and trailing edges nor "at most one flush per interval". The throttle's decision is the `throttleFires` parameter, and the trailing edge is a `SocketBroadcast` call.
- Login is modelled as one atomic step. In the source, the `authenticate` predicate's answer arrives later, through a bluebird promise. Other events in between (for example a logout) and a predicate that rejects or throws are not modelled.
- `UPLOAD_RECORDS` hands its records to the hub immediately. In the source this happens on the next tick.
- The hub's internals are not modelled. Its backlog is a parameter and `hub.emit` is a log entry.
- The filter module's parsing is not modelled. The store is one value that `getConfig` returns as it was set.
- The filter store is a module shared by the whole program, but here it is a field of the listener that only `SET_SERVER_FILTER` writes. So the `GET_SERVER_FILTER` reply and `FilterRoundTrip` assume that nothing else writes the filter between the two messages.
- Malformed messages are excluded by `WellFormed`: a `LOGIN_REQUEST` with no `data` at all, and an `UPLOAD_RECORDS` whose data is not a list. In the source these throw: the first when line 165 destructures `undefined`, the second at `forEach`. A `LOGIN_REQUEST` whose data is present but is not a credentials object is modelled, with an absent login.
- Disconnection is not modelled. The listener installs no disconnect handler, and socket.io's own removal of a closed socket from its rooms is not part of the listener. The model's socket map only grows.
- The commented-out `BUFFERED_RECORDS_REQUEST` case is dead code and is not modelled.
- The listener always emits a `RECORDS` envelope on a broadcast, even when the buffer is empty. The model keeps this behaviour.
