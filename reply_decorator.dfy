/** plugins/reply-decorator.js: the `success`, `fail` and `error` helpers that
    set a status code and send a `{status, code, data|message, executionTime}`
    envelope, and the plugin that attaches them to every reply. */
module ReplyDecorator {

  import opened Values
  import opened Http

  /** The status and body a helper produces. */
  datatype Response = Response(status: JsValue, body: Option<Envelope>)

  /** A default parameter: it applies only when the argument is `undefined`. */
  function Defaulted(code: JsValue, fallback: int): JsValue
  {
    if code == Undefined then Number(fallback) else code
  }

  /** `success(data, code = 200, executionTime)`. */
  function SuccessResponse(data: JsValue, code: JsValue, executionTime: JsValue): Response
  {
    if !Truthy(data) then Response(Number(204), None)
    else
      var c := Defaulted(code, 200);
      Response(c, Some(Envelope("success", c, Data(data), executionTime)))
  }

  /** `fail(data, code = 400, executionTime)`. */
  function FailResponse(data: JsValue, code: JsValue, executionTime: JsValue): Response
  {
    var c := Defaulted(code, 400);
    Response(c, Some(Envelope("fail", c, Data(data), executionTime)))
  }

  /** `error(message, code = 500, executionTime)`. */
  function ErrorResponse(message: string, code: JsValue, executionTime: JsValue): Response
  {
    var c := Defaulted(code, 500);
    Response(c, Some(Envelope("error", c, Message(message), executionTime)))
  }

  /** Whenever a body is sent, its `code` is the status that was set, and only
      `error` carries a message instead of data. */
  lemma EnvelopeCodeIsStatus(data: JsValue, message: string, code: JsValue, executionTime: JsValue)
    ensures var r := SuccessResponse(data, code, executionTime);
      r.body.Some? ==> r.body.value.code == r.status && r.body.value.content.Data?
    ensures var r := FailResponse(data, code, executionTime);
      r.body.Some? && r.body.value.code == r.status && r.body.value.content.Data?
    ensures var r := ErrorResponse(message, code, executionTime);
      r.body.Some? && r.body.value.code == r.status && r.body.value.content.Message?
  {
  }

  /** `success` sends no body exactly when the data is falsy, and then the
      status is 204 whatever code was asked for; otherwise the status is the
      code, 200 when none is given. */
  lemma SuccessNoContent(data: JsValue, code: JsValue, executionTime: JsValue)
    ensures SuccessResponse(data, code, executionTime).body.None? <==> !Truthy(data)
    ensures !Truthy(data) ==> SuccessResponse(data, code, executionTime).status == Number(204)
    ensures Truthy(data) && code == Undefined ==> SuccessResponse(data, code, executionTime).status == Number(200)
    ensures Truthy(data) && code != Undefined ==> SuccessResponse(data, code, executionTime).status == code
  {
  }

  /** The bodies carry the helper's status word, the data or the message
      unchanged, and the execution time as given. */
  lemma EnvelopeContents(data: JsValue, message: string, code: JsValue, executionTime: JsValue)
    ensures Truthy(data) ==>
      SuccessResponse(data, code, executionTime).body ==
        Some(Envelope("success", Defaulted(code, 200), Data(data), executionTime))
    ensures FailResponse(data, code, executionTime).body ==
      Some(Envelope("fail", Defaulted(code, 400), Data(data), executionTime))
    ensures ErrorResponse(message, code, executionTime).body ==
      Some(Envelope("error", Defaulted(code, 500), Message(message), executionTime))
  {
  }

  /** The three statuses used when no code is given. */
  lemma DefaultCodes(data: JsValue, message: string, executionTime: JsValue)
    requires Truthy(data)
    ensures SuccessResponse(data, Undefined, executionTime).status == Number(200)
    ensures FailResponse(data, Undefined, executionTime).status == Number(400)
    ensures ErrorResponse(message, Undefined, executionTime).status == Number(500)
  {
  }

  /** `reply.code(...).send(...)` with the response a helper computed. */
  method Respond(reply: Reply, r: Response)
    modifies reply
    ensures reply.statusCode == r.status && reply.payload == Sent(r.body)
    ensures reply.headers == old(reply.headers) && reply.helpers == old(reply.helpers)
  {
    reply.Code(r.status);
    reply.Send(r.body);
  }

  /** `reply.success(data, code, executionTime)`. */
  method Success(reply: Reply, data: JsValue, code: JsValue, executionTime: JsValue)
    modifies reply
    ensures reply.statusCode == SuccessResponse(data, code, executionTime).status
    ensures reply.payload == Sent(SuccessResponse(data, code, executionTime).body)
    ensures reply.headers == old(reply.headers) && reply.helpers == old(reply.helpers)
  {
    if !Truthy(data) {
      reply.Code(Number(204));
      reply.Send(None);
      return;
    }
    var c := if code == Undefined then Number(200) else code;
    reply.Code(c);
    reply.Send(Some(Envelope("success", c, Data(data), executionTime)));
  }

  /** `reply.fail(data, code, executionTime)`. */
  method Fail(reply: Reply, data: JsValue, code: JsValue, executionTime: JsValue)
    modifies reply
    ensures reply.statusCode == FailResponse(data, code, executionTime).status
    ensures reply.payload == Sent(FailResponse(data, code, executionTime).body)
    ensures reply.headers == old(reply.headers) && reply.helpers == old(reply.helpers)
  {
    Respond(reply, FailResponse(data, code, executionTime));
  }

  /** `reply.error(message, code, executionTime)`. */
  method Error(reply: Reply, message: string, code: JsValue, executionTime: JsValue)
    modifies reply
    ensures reply.statusCode == ErrorResponse(message, code, executionTime).status
    ensures reply.payload == Sent(ErrorResponse(message, code, executionTime).body)
    ensures reply.headers == old(reply.headers) && reply.helpers == old(reply.helpers)
  {
    Respond(reply, ErrorResponse(message, code, executionTime));
  }

  /** The onRequest hook: assigns the three helpers to the reply. */
  method AttachHelpers(reply: Reply)
    modifies reply
    ensures reply.helpers == old(reply.helpers) + {SuccessHelper, FailHelper, ErrorHelper}
    ensures reply.statusCode == old(reply.statusCode) && reply.payload == old(reply.payload)
    ensures reply.headers == old(reply.headers)
  {
    reply.helpers := reply.helpers + {SuccessHelper};
    reply.helpers := reply.helpers + {FailHelper};
    reply.helpers := reply.helpers + {ErrorHelper};
  }

  /** The plugin: declares the three reply decorators, then registers the
      onRequest hook that attaches them. */
  method Register(server: Server)
    modifies server
    ensures server.replyDecorators == old(server.replyDecorators) + ["success", "fail", "error"]
    ensures server.hooks == old(server.hooks) + [Hook(OnRequest, AttachReplyHelpers)]
    ensures server.requestDecorators == old(server.requestDecorators) && server.routes == old(server.routes)
  {
    server.DecorateReply("success");
    server.DecorateReply("fail");
    server.DecorateReply("error");
    server.AddHook(OnRequest, AttachReplyHelpers);
  }
}
