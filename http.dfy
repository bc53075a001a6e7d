/** The parts of Fastify's request, reply and server objects that the modelled
    plugins and the wrapper class read or change in place. */
module Http {

  import opened Values
  import opened Permissions

  /** The lifecycle events a hook can be registered for. */
  datatype HookEvent = OnRequest | PreHandler | OnSend | OnResponse

  /** The hook functions of the modelled plugins. */
  datatype HookHandler =
    | SetRequestIdHeader     // plugins/request-id.js `setHeader`
    | AttachReplyHelpers     // the onRequest hook of plugins/reply-decorator.js
    | VerifyJwt              // plugins/jwt.js `handler`

  datatype Hook = Hook(event: HookEvent, handler: HookHandler)

  /** What a route runs before its handler: nothing, a function the caller
      supplied (identified by a number), or the wrapper installed by the
      Fastify class that calls the class's current auth pre-handler with the
      route's own `requiredPermission`. */
  datatype RoutePreHandler = NoPreHandler | Supplied(id: nat) | CallsAuth

  /** A route definition object; the wrapper class rewrites it in place. */
  class Route {
    var verb: string
    var url: string
    var requiredPermission: JsValue
    var preHandler: RoutePreHandler

    constructor (verb: string, url: string, requiredPermission: JsValue, preHandler: RoutePreHandler)
      ensures this.verb == verb && this.url == url
      ensures this.requiredPermission == requiredPermission && this.preHandler == preHandler
    {
      this.verb := verb;
      this.url := url;
      this.requiredPermission := requiredPermission;
      this.preHandler := preHandler;
    }
  }

  /** The reply helpers the reply decorator attaches. */
  datatype Helper = SuccessHelper | FailHelper | ErrorHelper

  /** The envelope body: `data` for success and fail, `message` for error. */
  datatype Content = Data(data: JsValue) | Message(message: string)

  datatype Envelope = Envelope(status: string, code: JsValue, content: Content, executionTime: JsValue)

  /** What has been sent: nothing yet, an envelope (`send(undefined)` sends
      none), or a text document. */
  datatype Payload = NotSent | Sent(body: Option<Envelope>) | SentText(text: string)

  class Request {
    const id: string
    const headers: map<string, string>
    /** The verified token payload, once the JWT pre-handler accepted a token. */
    var jwt: Option<Claims>
    /** The `hasRole` closure, represented by the `roles` claim it captured. */
    var hasRole: Option<RolesClaim>

    constructor (id: string, headers: map<string, string>)
      ensures this.id == id && this.headers == headers
      ensures jwt == None && hasRole == None
    {
      this.id := id;
      this.headers := headers;
      jwt := None;
      hasRole := None;
    }
  }

  class Reply {
    var statusCode: JsValue
    var headers: map<string, string>
    var payload: Payload
    var helpers: set<Helper>

    constructor ()
      ensures statusCode == Number(200) && headers == map[] && payload == NotSent && helpers == {}
    {
      statusCode := Number(200);
      headers := map[];
      payload := NotSent;
      helpers := {};
    }

    /** `reply.code(c)`. */
    method Code(c: JsValue)
      modifies this
      ensures statusCode == c
      ensures headers == old(headers) && payload == old(payload) && helpers == old(helpers)
    {
      statusCode := c;
    }

    /** `reply.send(body)`. */
    method Send(body: Option<Envelope>)
      modifies this
      ensures payload == Sent(body)
      ensures statusCode == old(statusCode) && headers == old(headers) && helpers == old(helpers)
    {
      payload := Sent(body);
    }

    /** `reply.send(text)` with a string. */
    method SendText(text: string)
      modifies this
      ensures payload == SentText(text)
      ensures statusCode == old(statusCode) && headers == old(headers) && helpers == old(helpers)
    {
      payload := SentText(text);
    }

    /** `reply.header(name, value)`. */
    method Header(name: string, value: string)
      modifies this
      ensures headers == old(headers)[name := value]
      ensures statusCode == old(statusCode) && payload == old(payload) && helpers == old(helpers)
    {
      headers := headers[name := value];
    }
  }

  /** The Fastify instance as the plugins use it: hooks, decorator names and
      registered routes, each kept in registration order. */
  class Server {
    var hooks: seq<Hook>
    var requestDecorators: seq<string>
    var replyDecorators: seq<string>
    var routes: seq<Route>

    constructor ()
      ensures hooks == [] && requestDecorators == [] && replyDecorators == [] && routes == []
    {
      hooks := [];
      requestDecorators := [];
      replyDecorators := [];
      routes := [];
    }

    /** `fastify.addHook(event, handler)`. */
    method AddHook(event: HookEvent, handler: HookHandler)
      modifies this
      ensures hooks == old(hooks) + [Hook(event, handler)]
      ensures requestDecorators == old(requestDecorators) && replyDecorators == old(replyDecorators)
      ensures routes == old(routes)
    {
      hooks := hooks + [Hook(event, handler)];
    }

    /** `fastify.decorateRequest(name)`. */
    method DecorateRequest(name: string)
      modifies this
      ensures requestDecorators == old(requestDecorators) + [name]
      ensures hooks == old(hooks) && replyDecorators == old(replyDecorators) && routes == old(routes)
    {
      requestDecorators := requestDecorators + [name];
    }

    /** `fastify.decorateReply(name)`. */
    method DecorateReply(name: string)
      modifies this
      ensures replyDecorators == old(replyDecorators) + [name]
      ensures hooks == old(hooks) && requestDecorators == old(requestDecorators) && routes == old(routes)
    {
      replyDecorators := replyDecorators + [name];
    }

    /** `fastify.route(route)`. */
    method AddRoute(route: Route)
      modifies this
      ensures routes == old(routes) + [route]
      ensures hooks == old(hooks) && requestDecorators == old(requestDecorators)
      ensures replyDecorators == old(replyDecorators)
    {
      routes := routes + [route];
    }
  }
}
