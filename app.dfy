/** index.js: the `Fastify` wrapper class. Its constructor normalises the
    Fastify options in place (forced `trustProxy` and `disableRequestLogging`,
    the logger choice, the request-id generator), `setupLogging` fills in
    Elasticsearch defaults and validates the credentials, and `route` /
    `routeMultiple` rewrite route urls under `/<version>/<service>/` and attach
    the auth pre-handler. */
module App {

  import opened Values
  import opened Text
  import opened Http
  import opened RequestId

  /** `elasticConfig.auth`: either field may be null or undefined. */
  datatype Credentials = Credentials(username: Option<string>, password: Option<string>)

  /** The errors the constructor and `setupLogging` throw. */
  datatype ConfigError = AuthMissing | UsernameInvalid | PasswordTooWeak | NoFastifyConfig

  function ErrorMessage(e: ConfigError): string
  {
    match e
    case AuthMissing => "The elastic authentication isn't configurd correctly, please provide a username and a password"
    case UsernameInvalid => "The elastic username is invalid"
    case PasswordTooWeak => "The elastic password isn't secure enough, no can do!"
    case NoFastifyConfig => "No fastify configuration is specified, if desired set fastify to {}"
  }

  /** The Elasticsearch transport options `setupLogging` receives. */
  class ElasticConfig {
    var esVersion: JsValue
    var opType: JsValue
    var consistency: JsValue
    var auth: Option<Credentials>

    constructor (esVersion: JsValue, opType: JsValue, consistency: JsValue, auth: Option<Credentials>)
      ensures this.esVersion == esVersion && this.opType == opType
      ensures this.consistency == consistency && this.auth == auth
    {
      this.esVersion := esVersion;
      this.opType := opType;
      this.consistency := consistency;
      this.auth := auth;
    }
  }

  /** A logger options object (`fastify.logger` when it is an object). */
  class LoggingConfig {
    var level: JsValue

    constructor (level: JsValue)
      ensures this.level == level
    {
      this.level := level;
    }
  }

  /** `fastify.logger`: null/undefined, a boolean, an options object, or the
      pino logger `setupLogging` built from the given options (none when the
      option was `false` or already a logger). */
  datatype LoggerOption =
    | Nullish
    | Flag(on: bool)
    | Options(config: LoggingConfig)
    | Pino(options: Option<LoggingConfig>)

  /** The object whose `level` `setupLogging` defaults: an options object.
      `false` is skipped, and a pino logger always has a level already. */
  function LevelTarget(logger: LoggerOption): Option<LoggingConfig>
  {
    if logger.Options? then Some(logger.config) else None
  }

  /** The Fastify options object, changed in place by the constructor. */
  class FastifyConfig {
    var trustProxy: JsValue
    var disableRequestLogging: JsValue
    var logger: LoggerOption
    /** Whether `genReqId` has been set to the wrapper's id generator. */
    var genReqId: bool

    constructor (trustProxy: JsValue, disableRequestLogging: JsValue, logger: LoggerOption)
      ensures this.trustProxy == trustProxy && this.disableRequestLogging == disableRequestLogging
      ensures this.logger == logger && !genReqId
    {
      this.trustProxy := trustProxy;
      this.disableRequestLogging := disableRequestLogging;
      this.logger := logger;
      genReqId := false;
    }
  }

  /** The constructor's argument. `fastify` and `elastic` are None when falsy. */
  datatype AppConfig = AppConfig(
    serviceName: Option<string>,
    fastify: Option<FastifyConfig>,
    elastic: Option<ElasticConfig>)

  /** The credential checks of `setupLogging`, in the order the code makes them. */
  function CheckCredentials(auth: Option<Credentials>): (r: Option<ConfigError>)
    ensures r == None <==>
      auth.Some? && auth.value.username.Some? && auth.value.password.Some? &&
      |auth.value.username.value| >= 2 && |auth.value.password.value| >= 5
    ensures r == Some(AuthMissing) <==>
      auth.None? || auth.value.username.None? || auth.value.password.None?
    ensures r == Some(UsernameInvalid) <==>
      auth.Some? && auth.value.username.Some? && auth.value.password.Some? &&
      |auth.value.username.value| < 2
    ensures r == Some(PasswordTooWeak) <==>
      auth.Some? && auth.value.username.Some? && auth.value.password.Some? &&
      |auth.value.username.value| >= 2 && |auth.value.password.value| < 5
  {
    if auth.None? || auth.value.username.None? || auth.value.password.None? then Some(AuthMissing)
    else if |auth.value.username.value| < 2 then Some(UsernameInvalid)
    else if |auth.value.password.value| < 5 then Some(PasswordTooWeak)
    else None
  }

  /** An empty username or password is not "missing": it fails the length
      checks instead, username first. */
  lemma EmptyCredentials(password: string)
    ensures CheckCredentials(Some(Credentials(Some(""), Some(password)))) == Some(UsernameInvalid)
    ensures CheckCredentials(Some(Credentials(Some("ab"), Some("")))) == Some(PasswordTooWeak)
    ensures CheckCredentials(Some(Credentials(Some(""), None))) == Some(AuthMissing)
  {
  }

  /** `setupLogging(elasticConfig, loggingConfig)`: the three defaults are
      written first, so they stay even when the credential check throws;
      then the level defaults to `info`, and a pino logger is returned. */
  method SetupLogging(elastic: ElasticConfig, target: Option<LoggingConfig>) returns (r: Result<LoggerOption, ConfigError>)
    modifies elastic, if target.Some? then {target.value} else {}
    ensures elastic.esVersion == Or(old(elastic.esVersion), Number(8))
    ensures elastic.opType == Or(old(elastic.opType), Str("create"))
    ensures elastic.consistency == Or(old(elastic.consistency), Str("one"))
    ensures elastic.auth == old(elastic.auth)
    ensures CheckCredentials(elastic.auth).Some? ==> r == Err(CheckCredentials(elastic.auth).value)
    ensures CheckCredentials(elastic.auth).None? ==> r == Ok(Pino(target))
    ensures target.Some? ==>
      target.value.level == if r.Ok? then Or(old(target.value.level), Str("info")) else old(target.value.level)
  {
    elastic.esVersion := Or(elastic.esVersion, Number(8));
    elastic.opType := Or(elastic.opType, Str("create"));
    elastic.consistency := Or(elastic.consistency, Str("one"));
    var failure := CheckCredentials(elastic.auth);
    if failure.Some? {
      return Err(failure.value);
    }
    if target.Some? {
      target.value.level := Or(target.value.level, Str("info"));
    }
    r := Ok(Pino(target));
  }

  /** The logger option after the constructor: null/undefined becomes `true`;
      anything but `true` is replaced by the pino logger when Elasticsearch is
      configured; otherwise it is kept. */
  function NormalizedLogger(logger: LoggerOption, elasticConfigured: bool): (r: LoggerOption)
    ensures logger == Nullish ==> r == Flag(true)
    ensures logger == Flag(true) || (logger != Nullish && !elasticConfigured) ==> r == logger
    ensures logger != Nullish && logger != Flag(true) && elasticConfigured ==> r == Pino(LevelTarget(logger))
  {
    if logger == Nullish then Flag(true)
    else if logger != Flag(true) && elasticConfigured then Pino(LevelTarget(logger))
    else logger
  }

  /** `process.env.APP_VERSION ?? 'test'`: only an unset variable defaults;
      an empty one is kept. */
  function Version(appVersion: Option<string>): (v: string)
    ensures appVersion.None? ==> v == "test"
    ensures appVersion.Some? ==> v == appVersion.value
  {
    if appVersion.Some? then appVersion.value else "test"
  }

  /** The prefix `route` puts before a url. */
  function RoutePrefix(appVersion: Option<string>, serviceName: Option<string>): string
  {
    "/" + Version(appVersion) + "/" + Show(serviceName) + "/"
  }

  /** The url after `n` calls of `route` on the same route object. */
  function Prefixed(url: string, prefix: string, n: nat): string
  {
    if n == 0 then url else prefix + Prefixed(url, prefix, n - 1)
  }

  /** Each rewrite adds the whole prefix and keeps the url as its tail. */
  lemma {:induction false} PrefixedShape(url: string, prefix: string, n: nat)
    ensures |Prefixed(url, prefix, n)| == |url| + n * |prefix|
    ensures Prefixed(url, prefix, n)[n * |prefix|..] == url
  {
    if n > 0 {
      PrefixedShape(url, prefix, n - 1);
      assert n * |prefix| == |prefix| + (n - 1) * |prefix|;
    }
  }

  /** A url rewritten once splits into an empty segment, the version, the
      service name and then the url's own segments. */
  lemma PrefixedSegments(url: string, appVersion: Option<string>, serviceName: Option<string>)
    requires '/' !in Version(appVersion) && '/' !in Show(serviceName)
    ensures Split(Prefixed(url, RoutePrefix(appVersion, serviceName), 1), '/') ==
      ["", Version(appVersion), Show(serviceName)] + Split(url, '/')
  {
    var v, s := Version(appVersion), Show(serviceName);
    var tail := s + ['/'] + url;
    var middle := v + ['/'] + tail;
    var empty: string := [];
    var whole := empty + ['/'] + middle;
    assert Prefixed(url, RoutePrefix(appVersion, serviceName), 1) == whole;
    SplitAround(s, '/', url);
    SplitAround(v, '/', tail);
    SplitAround(empty, '/', middle);
    assert Split(whole, '/') == [empty] + ([v] + ([s] + Split(url, '/')));
    PrependThree(empty, v, s, Split(url, '/'));
  }

  lemma PrependThree<T>(a: T, b: T, c: T, rest: seq<T>)
    ensures [a] + ([b] + ([c] + rest)) == [a, b, c] + rest
  {
    assert ([a] + ([b] + ([c] + rest)))[..3] == [a, b, c];
  }

  /** The fields of a route object, as a value. */
  datatype RouteFields = RouteFields(verb: string, url: string, requiredPermission: JsValue, preHandler: RoutePreHandler)

  function FieldsOf(r: Route): RouteFields
    reads r
  {
    RouteFields(r.verb, r.url, r.requiredPermission, r.preHandler)
  }

  /** What `n` calls of `route` make of a route's fields. */
  function Rewritten(f: RouteFields, prefix: string, wrap: bool, n: nat): RouteFields
  {
    f.(url := Prefixed(f.url, prefix, n), preHandler := if wrap && n > 0 then CallsAuth else f.preHandler)
  }

  /** One more call of `route` rewrites once more. */
  lemma RewrittenStep(f: RouteFields, prefix: string, wrap: bool, n: nat)
    ensures Rewritten(Rewritten(f, prefix, wrap, n), prefix, wrap, 1) == Rewritten(f, prefix, wrap, n + 1)
  {
    assert Prefixed(Prefixed(f.url, prefix, n), prefix, 1) == prefix + Prefixed(f.url, prefix, n);
  }

  /** How many times `x` occurs among the first `n` elements of `xs`. */
  function Occurrences<T(==)>(xs: seq<T>, n: nat, x: T): nat
    requires n <= |xs|
  {
    if n == 0 then 0 else Occurrences(xs, n - 1, x) + if xs[n - 1] == x then 1 else 0
  }

  /** An element among the first `n` occurs there at least once. */
  lemma {:induction false} OccurrencesPositive<T>(xs: seq<T>, n: nat, x: T)
    requires n <= |xs| && x in xs[..n]
    ensures Occurrences(xs, n, x) > 0
  {
    if xs[n - 1] != x {
      assert x in xs[..n - 1] by {
        var k :| 0 <= k < n && xs[..n][k] == x;
        assert xs[..n - 1][k] == x;
      }
      OccurrencesPositive(xs, n - 1, x);
    }
  }

  /** The wrapper class. `ids` is the module-level request-id counter. */
  class Fastify {
    var authPreHandler: Option<nat>
    const serviceName: Option<string>
    const server: Server
    const options: FastifyConfig
    const ids: IdCounter

    constructor (serviceName: Option<string>, server: Server, options: FastifyConfig, ids: IdCounter)
      ensures this.serviceName == serviceName && this.server == server
      ensures this.options == options && this.ids == ids && authPreHandler == None
    {
      this.serviceName := serviceName;
      this.server := server;
      this.options := options;
      this.ids := ids;
      authPreHandler := None;
    }

    /** `addAuthPreHandler(preHandler)`; None stands for a falsy argument. */
    method AddAuthPreHandler(preHandler: Option<nat>)
      modifies this
      ensures authPreHandler == preHandler
    {
      authPreHandler := preHandler;
    }

    /** `generateRequestId`, installed as `genReqId`: no header check here.
        At the ceiling it logs through `this.server.log` before exiting, but
        the function is handed to Fastify unbound in a strict-mode module, so
        `this` is never the wrapper: reading `server.log` (or `server` of
        `undefined`) raises a TypeError and the exit is never reached. */
    method GenerateRequestId() returns (r: Generated)
      requires ids.Valid()
      modifies ids
      ensures ids.Valid()
      ensures old(ids.issued) >= MaxRequestId ==> r == RaisedTypeError && ids.issued == old(ids.issued)
      ensures old(ids.issued) < MaxRequestId ==>
        ids.issued == old(ids.issued) + 1 && r == Id(IdFor(ids.hostname, ids.issued))
    {
      if ids.issued >= MaxRequestId {
        return RaisedTypeError;
      }
      r := ids.Next();
    }

    /** `route(route)`: rewrites the url, wraps the auth pre-handler when one
        is set, and registers the route with the server. */
    method Route(route: Route, appVersion: Option<string>)
      modifies route, server
      ensures route.url == RoutePrefix(appVersion, serviceName) + old(route.url)
      ensures route.url == Prefixed(old(route.url), RoutePrefix(appVersion, serviceName), 1)
      ensures route.preHandler == if authPreHandler.Some? then CallsAuth else old(route.preHandler)
      ensures route.verb == old(route.verb) && route.requiredPermission == old(route.requiredPermission)
      ensures server.routes == old(server.routes) + [route]
      ensures server.hooks == old(server.hooks)
      ensures server.requestDecorators == old(server.requestDecorators)
      ensures server.replyDecorators == old(server.replyDecorators)
    {
      route.url := RoutePrefix(appVersion, serviceName) + route.url;
      if authPreHandler.Some? {
        route.preHandler := CallsAuth;
      }
      server.AddRoute(route);
    }

    /** `routeMultiple(routes)`: `route` on each element in order. A route
        object listed several times is rewritten once per occurrence. */
    method RouteMultiple(routes: seq<Route>, appVersion: Option<string>)
      modifies server, set r | r in routes
      ensures server.routes == old(server.routes) + routes
      ensures forall r :: r in routes ==>
        r.url == Prefixed(old(r.url), RoutePrefix(appVersion, serviceName), Occurrences(routes, |routes|, r))
      ensures forall r :: r in routes ==>
        r.preHandler == if authPreHandler.Some? then CallsAuth else old(r.preHandler)
      ensures forall r :: r in routes ==> r.requiredPermission == old(r.requiredPermission) && r.verb == old(r.verb)
      ensures server.hooks == old(server.hooks)
      ensures server.requestDecorators == old(server.requestDecorators)
      ensures server.replyDecorators == old(server.replyDecorators)
    {
      var prefix := RoutePrefix(appVersion, serviceName);
      var i := 0;
      while i < |routes|
        invariant 0 <= i <= |routes|
        invariant server.routes == old(server.routes) + routes[..i]
        invariant forall r :: r in routes ==>
          FieldsOf(r) == Rewritten(old(FieldsOf(r)), prefix, authPreHandler.Some?, Occurrences(routes, i, r))
        invariant server.hooks == old(server.hooks)
        invariant server.requestDecorators == old(server.requestDecorators)
        invariant server.replyDecorators == old(server.replyDecorators)
      {
        RewrittenStep(old(FieldsOf(routes[i])), prefix, authPreHandler.Some?, Occurrences(routes, i, routes[i]));
        Route(routes[i], appVersion);
        i := i + 1;
      }
      assert forall r :: r in routes ==> Occurrences(routes, |routes|, r) > 0 by {
        forall r | r in routes ensures Occurrences(routes, |routes|, r) > 0 {
          assert routes[..|routes|] == routes;
          OccurrencesPositive(routes, |routes|, r);
        }
      }
    }

    /** What the installed pre-handler does when a request arrives: it calls
        the class's auth pre-handler as it is at that time, with the route's
        `requiredPermission` as it is at that time. */
    function PreHandlerCall(route: Route): (r: AuthCall)
      reads this, route
      ensures r.CallAuth? <==> route.preHandler == CallsAuth && authPreHandler.Some?
      ensures r.CallAuth? ==> r.handler == authPreHandler.value && r.permission == route.requiredPermission
    {
      if route.preHandler != CallsAuth then NotAuth
      else if authPreHandler.None? then AuthNotAFunction
      else CallAuth(authPreHandler.value, route.requiredPermission)
    }
  }

  /** The effect of a route's pre-handler: not the auth wrapper, a call of the
      auth pre-handler, or a TypeError because it was unset afterwards. */
  datatype AuthCall = NotAuth | CallAuth(handler: nat, permission: JsValue) | AuthNotAFunction

  /** Whether the constructor calls `setupLogging`: the logger option is set,
      is not `true`, and Elasticsearch is configured. */
  predicate SetupRuns(logger: LoggerOption, elasticConfigured: bool)
  {
    logger != Nullish && logger != Flag(true) && elasticConfigured
  }

  /** The constructor. The options object is changed in place before the
      logging setup can throw, so a failed construction leaves it changed. */
  method Create(config: AppConfig, ids: IdCounter) returns (r: Result<Fastify, ConfigError>)
    modifies if config.fastify.Some? then {config.fastify.value} else {}
    modifies if config.elastic.Some? then {config.elastic.value} else {}
    modifies if config.fastify.Some? && config.fastify.value.logger.Options? then {config.fastify.value.logger.config} else {}
    ensures config.fastify.None? ==> r == Err(NoFastifyConfig)
    ensures config.fastify.Some? ==>
      var fc := config.fastify.value;
      fc.trustProxy == Or(old(fc.trustProxy), Bool(true)) && Truthy(fc.trustProxy) &&
      fc.disableRequestLogging == Or(old(fc.disableRequestLogging), Bool(true)) && Truthy(fc.disableRequestLogging)
    ensures r.Ok? <==>
      config.fastify.Some? &&
      (SetupRuns(old(config.fastify.value.logger), config.elastic.Some?) ==>
         CheckCredentials(old(config.elastic.value.auth)).None?)
    ensures r.Ok? ==>
      config.fastify.Some? && fresh(r.value) && fresh(r.value.server) &&
      r.value.serviceName == config.serviceName && r.value.options == config.fastify.value &&
      r.value.ids == ids && r.value.authPreHandler == None && r.value.server.routes == [] &&
      config.fastify.value.genReqId &&
      config.fastify.value.logger == NormalizedLogger(old(config.fastify.value.logger), config.elastic.Some?)
    ensures r.Err? && config.fastify.Some? ==>
      r.error != NoFastifyConfig && SetupRuns(old(config.fastify.value.logger), config.elastic.Some?) &&
      CheckCredentials(old(config.elastic.value.auth)) == Some(r.error) &&
      config.fastify.value.logger == old(config.fastify.value.logger) &&
      config.fastify.value.genReqId == old(config.fastify.value.genReqId)
    ensures config.elastic.Some? ==>
      var ec := config.elastic.value;
      ec.auth == old(ec.auth) &&
      if config.fastify.Some? && SetupRuns(old(config.fastify.value.logger), true) then
        ec.esVersion == Or(old(ec.esVersion), Number(8)) && ec.opType == Or(old(ec.opType), Str("create")) &&
        ec.consistency == Or(old(ec.consistency), Str("one"))
      else
        ec.esVersion == old(ec.esVersion) && ec.opType == old(ec.opType) && ec.consistency == old(ec.consistency)
    ensures config.fastify.Some? && old(config.fastify.value.logger).Options? ==>
      var lc := old(config.fastify.value.logger).config;
      lc.level == if r.Ok? && config.elastic.Some? then Or(old(lc.level), Str("info")) else old(lc.level)
  {
    if config.fastify.None? {
      return Err(NoFastifyConfig);
    }
    var fc := config.fastify.value;
    fc.trustProxy := Or(fc.trustProxy, Bool(true));
    fc.disableRequestLogging := Or(fc.disableRequestLogging, Bool(true));
    if fc.logger == Nullish {
      fc.logger := Flag(true);
    } else if fc.logger != Flag(true) && config.elastic.Some? {
      var logger := SetupLogging(config.elastic.value, LevelTarget(fc.logger));
      if logger.Err? {
        return Err(logger.error);
      }
      fc.logger := logger.value;
    }
    fc.genReqId := true;
    var server := new Server();
    var app := new Fastify(config.serviceName, server, fc, ids);
    r := Ok(app);
  }
}
