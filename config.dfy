/**
 * The listener's configuration and `create`'s merge of the user's options
 * over the defaults `{port: 8090, throttle: 200, authenticate: null}`.
 */
module Settings {

  /**
   * A configuration key as JavaScript sees it: not set at all, set to `null`,
   * or set to a value. The merge treats `undefined` (`Unset`) and `null` differently.
   */
  datatype JsOpt<+T> = Unset | Null | Defined(value: T)

  /** `v == null` in JavaScript's loose equality: true of `undefined` and `null`. */
  predicate IsNullish<T>(v: JsOpt<T>)
  {
    !v.Defined?
  }

  /** The user's `authenticate` predicate, known here only by identity. */
  datatype Authenticator = Authenticator(id: nat)

  /** A host-supplied http server or socket.io server, known only by identity. */
  datatype Host = Host(id: nat)

  datatype Config = Config(
    port: JsOpt<int>,
    throttle: JsOpt<int>,
    authenticate: JsOpt<Authenticator>,
    socketServer: JsOpt<Host>,
    httpServer: JsOpt<Host>)

  const DefaultPort := 8090
  const DefaultThrottle := 200

  /** `DEFAULT_CONFIG`. */
  const Defaults := Config(Defined(DefaultPort), Defined(DefaultThrottle), Null, Unset, Unset)

  /** One key of `addDefaults`: the default fills a key only when it is `undefined`. */
  function AddDefault<T>(v: JsOpt<T>, d: JsOpt<T>): JsOpt<T>
  {
    if v.Unset? then d else v
  }

  /** `create`'s configuration: `addDefaults(userConfig, DEFAULT_CONFIG)`. */
  function Create(user: Config): (c: Config)
    ensures user.port.Unset? ==> c.port == Defined(DefaultPort)
    ensures user.throttle.Unset? ==> c.throttle == Defined(DefaultThrottle)
    ensures user.authenticate.Unset? ==> c.authenticate == Null
    ensures !user.port.Unset? ==> c.port == user.port
    ensures !user.throttle.Unset? ==> c.throttle == user.throttle
    ensures !user.authenticate.Unset? ==> c.authenticate == user.authenticate
    ensures c.socketServer == user.socketServer && c.httpServer == user.httpServer
    ensures !c.port.Unset? && !c.throttle.Unset? && !c.authenticate.Unset?
  {
    Config(
      AddDefault(user.port, Defaults.port),
      AddDefault(user.throttle, Defaults.throttle),
      AddDefault(user.authenticate, Defaults.authenticate),
      AddDefault(user.socketServer, Defaults.socketServer),
      AddDefault(user.httpServer, Defaults.httpServer))
  }

  /** Merging the defaults into an already merged configuration changes nothing. */
  lemma CreateIdempotent(user: Config)
    ensures Create(Create(user)) == Create(user)
  {
  }

  /** An explicit `port: null` survives the merge and so disables the standalone server. */
  lemma ExplicitNullPortKept(user: Config)
    requires user.port == Null
    ensures IsNullish(Create(user).port)
  {
  }

  /** `if (throttlePeriod)`: a number is truthy when it is not zero. */
  predicate Throttled(c: Config)
  {
    c.throttle.Defined? && c.throttle.value != 0
  }

  /** `authenticate != null`. */
  predicate AuthConfigured(c: Config)
  {
    !IsNullish(c.authenticate)
  }
}
