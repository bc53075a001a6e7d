/** plugins/jwt.js: the preHandler hook that reads a bearer token, demands a
    `jku` in its protected header, verifies it against that key set, and then
    decorates the request with the payload and a `hasRole` closure. Decoding
    the header and verifying the signature are library calls; they appear
    here as functions given to the handler. */
module Jwt {

  import opened Values
  import opened Permissions
  import opened Http
  import opened ReplyDecorator

  /** The token's protected header as far as the handler reads it. */
  datatype TokenHeader = TokenHeader(jku: Option<string>)

  /** The error text sent with status 401 when the header has no `jku`. */
  const MissingJku: string := "missing required jku in token header"

  /** What the handler does with a request's headers. */
  datatype Step =
    | Skip                     // no authorization header, or nothing after its first 7 characters
    | RejectMissingJku         // `reply.error(MissingJku, 401)`
    | Threw(reason: string)    // decoding or verification raised
    | Accept(payload: Claims)  // the verified payload

  /** `authorization.substring(7)`: what follows `Bearer `. */
  function BearerToken(authorization: string): (token: string)
    ensures |authorization| <= 7 ==> token == ""
    ensures |authorization| > 7 ==> authorization == authorization[..7] + token
  {
    if |authorization| <= 7 then "" else authorization[7..]
  }

  /** The token is whatever follows the seven-character scheme prefix. */
  lemma BearerRoundTrip(scheme: string, token: string)
    requires |scheme| == 7
    ensures BearerToken(scheme + token) == token
  {
    if token != "" {
      assert (scheme + token)[7..] == token;
    }
  }

  /** The handler's decision for the given headers, with the header decoder
      and the verifier (given the token and the `jku` URL) as parameters. */
  function Authenticate(headers: map<string, string>,
                        decode: string -> Result<TokenHeader, string>,
                        verify: (string, string) -> Result<Claims, string>): (s: Step)
    ensures s.Accept? ==>
      ("authorization" in headers &&
       var token := BearerToken(headers["authorization"]);
       token != "" && decode(token).Ok? && Present(decode(token).value.jku) &&
       verify(token, decode(token).value.jku.value) == Ok(s.payload))
    ensures s == Skip <==>
      !("authorization" in headers && BearerToken(headers["authorization"]) != "")
    ensures s == RejectMissingJku <==>
      "authorization" in headers && BearerToken(headers["authorization"]) != "" &&
      decode(BearerToken(headers["authorization"])).Ok? &&
      !Present(decode(BearerToken(headers["authorization"])).value.jku)
    ensures "authorization" in headers ==>
      var token := BearerToken(headers["authorization"]);
      token != "" && decode(token).Ok? && Present(decode(token).value.jku) &&
      verify(token, decode(token).value.jku.value).Ok? ==>
        s == Accept(verify(token, decode(token).value.jku.value).value)
    ensures s.Threw? <==>
      ("authorization" in headers &&
       var token := BearerToken(headers["authorization"]);
       token != "" &&
       (decode(token).Err? ||
        (Present(decode(token).value.jku) && verify(token, decode(token).value.jku.value).Err?)))
    ensures s.Threw? ==>
      var token := BearerToken(headers["authorization"]);
      s.reason == if decode(token).Err? then decode(token).error else verify(token, decode(token).value.jku.value).error
  {
    if !("authorization" in headers && headers["authorization"] != "") then Skip
    else
      var token := BearerToken(headers["authorization"]);
      if token == "" then Skip
      else
        match decode(token)
        case Err(e) => Threw(e)
        case Ok(header) =>
          if !Present(header.jku) then RejectMissingJku
          else
            match verify(token, header.jku.value)
            case Err(e) => Threw(e)
            case Ok(payload) => Accept(payload)
  }

  /** The `hasRole` closure over the payload's `roles`: false unless `roles`
      is an array, then membership of the whole entry. */
  function HasRole(roles: RolesClaim, role: string): (r: bool)
    ensures r ==> roles.Grants?
    ensures roles.Grants? ==> (r <==> exists i :: 0 <= i < |roles.entries| && roles.entries[i] == role)
  {
    match roles
    case Grants(entries) => role in entries
    case _ => false
  }

  /** Entries are compared whole: when every entry is a `role:scope` grant,
      asking for a bare role name (no `:`) is always false. */
  lemma BareRoleNeverMatches(entries: seq<string>, role: string)
    requires forall i :: 0 <= i < |entries| ==> ':' in entries[i]
    requires ':' !in role
    ensures !HasRole(Grants(entries), role)
  {
  }

  /** The preHandler hook. On acceptance the request gets the payload and a
      `hasRole` over its roles; a missing `jku` answers 401 through
      `reply.error` (which raises when the reply decorator did not attach it);
      otherwise nothing is changed. */
  method Handler(request: Request, reply: Reply,
                 decode: string -> Result<TokenHeader, string>,
                 verify: (string, string) -> Result<Claims, string>) returns (threw: Option<string>)
    modifies request, reply
    ensures var s := Authenticate(request.headers, decode, verify);
      match s
      case Skip =>
        threw == None && request.jwt == old(request.jwt) && request.hasRole == old(request.hasRole) &&
        reply.statusCode == old(reply.statusCode) && reply.payload == old(reply.payload)
      case Threw(e) =>
        threw == Some(e) && request.jwt == old(request.jwt) && request.hasRole == old(request.hasRole) &&
        reply.statusCode == old(reply.statusCode) && reply.payload == old(reply.payload)
      case RejectMissingJku =>
        request.jwt == old(request.jwt) && request.hasRole == old(request.hasRole) &&
        if ErrorHelper in old(reply.helpers) then
          threw == None && reply.statusCode == Number(401) &&
          reply.payload == Sent(ErrorResponse(MissingJku, Number(401), Undefined).body)
        else
          threw.Some? && reply.statusCode == old(reply.statusCode) && reply.payload == old(reply.payload)
      case Accept(payload) =>
        threw == None && request.jwt == Some(payload) && request.hasRole == Some(payload.roles) &&
        reply.statusCode == old(reply.statusCode) && reply.payload == old(reply.payload)
    ensures reply.headers == old(reply.headers) && reply.helpers == old(reply.helpers)
  {
    threw := None;
    if !("authorization" in request.headers && request.headers["authorization"] != "") {
      return;
    }
    var token := BearerToken(request.headers["authorization"]);
    if token == "" {
      return;
    }
    var decoded := decode(token);
    if decoded.Err? {
      return Some(decoded.error);
    }
    var header := decoded.value;
    if !Present(header.jku) {
      if ErrorHelper !in reply.helpers {
        return Some("reply.error is not a function");
      }
      Error(reply, MissingJku, Number(401), Undefined);
      return;
    }
    var verified := verify(token, header.jku.value);
    if verified.Err? {
      return Some(verified.error);
    }
    request.jwt := Some(verified.value);
    request.hasRole := Some(verified.value.roles);
  }

  /** The plugin: declares the `hasRole` and `jwt` request decorators and
      registers the handler as a preHandler hook. */
  method Register(server: Server)
    modifies server
    ensures server.requestDecorators == old(server.requestDecorators) + ["hasRole", "jwt"]
    ensures server.hooks == old(server.hooks) + [Hook(PreHandler, VerifyJwt)]
    ensures server.replyDecorators == old(server.replyDecorators) && server.routes == old(server.routes)
  {
    server.DecorateRequest("hasRole");
    server.DecorateRequest("jwt");
    server.AddHook(PreHandler, VerifyJwt);
  }
}
