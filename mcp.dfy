/**
 * The `/mcp` endpoint of the PushPlus WeChat MCP server: the JSON-RPC 2.0
 * dispatch over the HTTP method and the request envelope, as a pure function
 * from one request (and the outcome of the push call it may make) to the
 * response, the session it opens and the push request it sends.
 */
module Mcp {
  import opened Wrappers
  import opened PyJson

  // ---------------------------------------------------------------- requests

  /** The HTTP methods that reach the handler: the four the route lists, and HEAD, which Flask adds to every route that lists GET. */
  datatype HttpMethod = Options | Post | Get | Head | Delete

  /**
   * What `request.get_json()` gives: the decoded body (None for an absent
   * body where Flask returns None), or the text of the exception it raises
   * (a body that is not JSON, a Content-Type it refuses).
   */
  datatype Body = Parsed(json: Json) | Unreadable(text: string)

  datatype Request = Request(verb: HttpMethod, body: Body)

  // --------------------------------------------------------------- responses

  /** One entry of the tool's input schema: `name: {"type": kind, "description": description}`. */
  datatype Property = Property(name: string, kind: string, description: string)

  /** A tool as `tools/list` describes it; `schemaType` is the input schema's "type". */
  datatype ToolDescriptor = ToolDescriptor(
    name: string,
    description: string,
    schemaType: string,
    properties: seq<Property>,
    required: seq<string>)

  /** `{"type": kind, "text": text}` in a tool's result content. */
  datatype ContentBlock = ContentBlock(kind: string, text: string)

  /** The `result` member of a successful JSON-RPC response. */
  datatype RpcResult =
    | Initialized(protocolVersion: string, toolCapabilities: seq<(string, Json)>,
                  serverName: string, serverVersion: string)
    | ToolList(tools: seq<ToolDescriptor>)
    | ToolOutput(content: seq<ContentBlock>)

  /**
   * The JSON body of a response. Both JSON-RPC shapes also carry
   * `"jsonrpc": "2.0"`, which is constant and not kept here.
   */
  datatype Payload =
    | StatusOk                                       // {"status": "ok"}
    | Success(result: RpcResult, id: Json)           // {"result": ..., "id": id}
    | Failure(code: int, message: string, id: Json)  // {"error": {"code", "message"}, "id": id}

  /** The HTTP status, the JSON body and the headers the handler sets itself. */
  datatype Response = Response(status: int, payload: Payload, headers: map<string, string>)

  /** The GET request made to the PushPlus delivery endpoint. */
  datatype PushRequest = PushRequest(
    url: string, token: string, title: Json, content: Json, template: string, timeout: int)

  /**
   * What the push call produced: the decoded JSON reply of the delivery
   * endpoint, or the text of the exception raised by the request or by
   * decoding its reply.
   */
  datatype PushOutcome = Answered(reply: Json) | Failed(text: string)

  /** Everything one request does: the response, the session it opens, the push it sends. */
  datatype Handled = Handled(response: Response, created: Option<string>, push: Option<PushRequest>)

  // --------------------------------------------------------------- constants

  const InvalidRequest := -32600
  const MethodNotFound := -32601
  const InternalError := -32603

  const ProtocolVersion := "2024-11-05"
  const ServerName := "pushplus-wechat"
  const ServerVersion := "1.0.0"

  const ToolName := "send_wechat_message"
  const ToolDescription := "给猫猫发送微信推送消息"
  const DefaultTitle := "来自知厌的消息"

  const PushUrl := "http://www.pushplus.plus/send"
  const PushTemplate := "html"
  const PushTimeout := 10
  const DeliveredCode := 200

  const SentPrefix := "发送成功: "
  const RefusedPrefix := "发送失败: "
  const ErrorPrefix := "发送出错: "

  const SessionHeader := "Mcp-Session-Id"
  const AllowOrigin := "Access-Control-Allow-Origin"
  const AllowMethods := "Access-Control-Allow-Methods"
  const AllowHeaders := "Access-Control-Allow-Headers"

  // ------------------------------------------------------- fixed responses

  /** The headers of the CORS preflight answer. */
  function PreflightHeaders(): (h: map<string, string>)
    ensures h.Keys == {AllowOrigin, AllowMethods, AllowHeaders}
    ensures h[AllowOrigin] == "*"
    ensures h[AllowMethods] == "GET, POST, DELETE, OPTIONS"
    ensures h[AllowHeaders] == "Content-Type, Accept, " + SessionHeader
  {
    map[AllowOrigin := "*",
        AllowMethods := "GET, POST, DELETE, OPTIONS",
        AllowHeaders := "Content-Type, Accept, Mcp-Session-Id"]
  }

  /** The result of `initialize`: protocol version, an empty tools capability, the server's identity. */
  function InitializeResult(): RpcResult {
    Initialized(ProtocolVersion, [], ServerName, ServerVersion)
  }

  /** The result of `tools/list`: the one tool this server offers. */
  function ToolsListResult(): (r: RpcResult)
    ensures r.ToolList? && |r.tools| == 1
    ensures r.tools[0].name == ToolName && r.tools[0].schemaType == "object"
    ensures r.tools[0].description == ToolDescription
    ensures r.tools[0].required == ["content"]
    ensures |r.tools[0].properties| == 2
    ensures r.tools[0].properties[0].name == "title" && r.tools[0].properties[1].name == "content"
    ensures r.tools[0].properties[0].description == "标题" && r.tools[0].properties[1].description == "内容"
    ensures forall p | p in r.tools[0].properties :: p.kind == "string"
  {
    ToolList([ToolDescriptor(
      ToolName, ToolDescription, "object",
      [Property("title", "string", "标题"), Property("content", "string", "内容")],
      ["content"])])
  }

  // ------------------------------------------------------------ tools/call

  /** The field of a dict the handler reads, None when it is missing. */
  function Field(members: seq<(string, Json)>, key: string): Json {
    Find(members, key).GetOr(JNull)
  }

  /**
   * The `title` and `content` arguments of a `send_wechat_message` call:
   * a missing title becomes the default greeting, a missing content the
   * empty string; present values pass through as they are, whatever their
   * type. Arguments that are not a dict make `args.get` raise.
   */
  function Arguments(args: Json): (r: Eval<(Json, Json)>)
    ensures r.Threw? <==> !args.JObj?
    ensures r.Threw? ==> r.error == NoAttributeGet(TypeName(args))
    ensures args.JObj? && "title" in Keys(args.members) ==> r.Value? && ("title", r.value.0) in args.members
    ensures args.JObj? && "title" !in Keys(args.members) ==> r.Value? && r.value.0 == JStr(DefaultTitle)
    ensures args.JObj? && "content" in Keys(args.members) ==> r.Value? && ("content", r.value.1) in args.members
    ensures args.JObj? && "content" !in Keys(args.members) ==> r.Value? && r.value.1 == JStr("")
  {
    match DictGet(args, "title", JStr(DefaultTitle))
    case Threw(e) => Threw(e)
    case Value(title) =>
      match DictGet(args, "content", JStr(""))
      case Threw(e) => Threw(e)
      case Value(content) => Value((title, content))
  }

  /** The three ways a push can end. */
  datatype Delivery = Delivered | Refused | Errored

  /**
   * How a push ended, read off its outcome: a dict reply whose "code" is
   * 200 was delivered, any other dict reply was refused, and a reply that is
   * not a dict or an exception is an error.
   */
  function Kind(outcome: PushOutcome): Delivery {
    match outcome
    case Failed(_) => Errored
    case Answered(JObj(members)) =>
      if Field(members, "code") == JInt(DeliveredCode) then Delivered else Refused
    case Answered(_) => Errored
  }

  /**
   * The text reported back for a push: "发送成功: " and the content sent,
   * "发送失败: " and the reply's "msg", or "发送出错: " and the exception text
   * (including the AttributeError of calling `get` on a reply that is not a dict).
   */
  function Report(content: Json, outcome: PushOutcome): (text: string)
    ensures Kind(outcome) == Delivered ==> text == SentPrefix + PyStr(content)
    ensures Kind(outcome) == Refused ==> text == RefusedPrefix + PyStr(Field(outcome.reply.members, "msg"))
    ensures outcome.Failed? ==> text == ErrorPrefix + outcome.text
    ensures outcome.Answered? && !outcome.reply.JObj? ==>
      text == ErrorPrefix + Message(NoAttributeGet(TypeName(outcome.reply)))
  {
    match outcome
    case Failed(t) => ErrorPrefix + t
    case Answered(reply) =>
      match DictGet(reply, "code", JNull)
      case Threw(e) => ErrorPrefix + Message(e)
      case Value(code) =>
        if code == JInt(DeliveredCode) then SentPrefix + PyStr(content)
        else
          match DictGet(reply, "msg", JNull)
          case Threw(e) => ErrorPrefix + Message(e)
          case Value(msg) => RefusedPrefix + PyStr(msg)
  }

  /** Which of the three reports a text is, told by its prefix. */
  function ReadKind(text: string): Option<Delivery> {
    if SentPrefix <= text then Some(Delivered)
    else if RefusedPrefix <= text then Some(Refused)
    else if ErrorPrefix <= text then Some(Errored)
    else None
  }

  /**
   * The three reports are told apart by their prefix: reading the kind back
   * from the report of any outcome gives the kind of that outcome.
   */
  lemma ReportRoundTrip(content: Json, outcome: PushOutcome)
    ensures ReadKind(Report(content, outcome)) == Some(Kind(outcome))
  {
    var text := Report(content, outcome);
    match Kind(outcome)
    case Delivered =>
    case Refused =>
      assert text[2] == RefusedPrefix[2] != SentPrefix[2];
    case Errored =>
      assert text[2] == ErrorPrefix[2];
      assert text[2] != SentPrefix[2] && text[2] != RefusedPrefix[2];
  }

  /**
   * `tools/call`: a call of `send_wechat_message` with well-formed
   * arguments sends one push and always answers with a result holding one
   * text block; another tool name is "Method not found"; params or
   * arguments that are not dicts raise.
   */
  function CallTool(params: Json, id: Json, token: string, outcome: PushOutcome): (r: Eval<Handled>)
    ensures r.Threw? <==> !params.JObj? || (Field(params.members, "name") == JStr(ToolName) &&
                                           !DictGet(params, "arguments", JObj([])).value.JObj?)
    ensures r.Value? ==> r.value.created.None?
    ensures r.Value? ==> (r.value.push.Some? <==> Field(params.members, "name") == JStr(ToolName))
    ensures r.Value? && r.value.push.Some? ==>
      var args := Arguments(DictGet(params, "arguments", JObj([])).value).value;
      r.value.push.value == PushRequest(PushUrl, token, args.0, args.1, PushTemplate, PushTimeout)
    ensures r.Value? && r.value.push.None? ==>
      r.value.response == Response(404, Failure(MethodNotFound, "Method not found", id), map[])
    ensures r.Value? && r.value.push.Some? ==>
      && r.value.response.status == 200
      && r.value.response.payload == Success(ToolOutput([ContentBlock("text", Report(r.value.push.value.content, outcome))]), id)
      && r.value.push.value.token == token
      && r.value.response.headers == map[AllowOrigin := "*"]
  {
    match DictGet(params, "name", JNull)
    case Threw(e) => Threw(e)
    case Value(name) =>
      match DictGet(params, "arguments", JObj([]))
      case Threw(e) => Threw(e)
      case Value(args) =>
        if name == JStr(ToolName) then
          match Arguments(args)
          case Threw(e) => Threw(e)
          case Value((title, content)) =>
            var push := PushRequest(PushUrl, token, title, content, PushTemplate, PushTimeout);
            var text := Report(content, outcome);
            Value(Handled(
              Response(200, Success(ToolOutput([ContentBlock("text", text)]), id), map[AllowOrigin := "*"]),
              None, Some(push)))
        else
          Value(Handled(Response(404, Failure(MethodNotFound, "Method not found", id), map[]), None, None))
  }

  // ------------------------------------------------------------------ POST

  /** The answer to a POST whose body is not a JSON-RPC envelope. */
  function Rejected(): Handled {
    Handled(Response(400, Failure(InvalidRequest, "Invalid Request", JNull), map[]), None, None)
  }

  /**
   * The body of the `try` block for a POST: the envelope check, then the
   * dispatch on "method". Only `initialize` opens a session, and it opens
   * the fresh identifier it is given.
   */
  function Dispatch(body: Body, freshId: string, token: string, outcome: PushOutcome): Eval<Handled> {
    match body
    case Unreadable(text) => Threw(Raised(text))
    case Parsed(data) =>
      if !Truthy(data) then Value(Rejected())
      else
        match Contains(data, "jsonrpc")
        case Threw(e) => Threw(e)
        case Value(present) =>
          if !present then Value(Rejected())
          else
            match DictGet(data, "method", JNull)
            case Threw(e) => Threw(e)
            case Value(rpcMethod) =>
              var params := DictGet(data, "params", JObj([])).value;
              var id := DictGet(data, "id", JNull).value;
              if rpcMethod == JStr("initialize") then
                Value(Handled(
                  Response(200, Success(InitializeResult(), id),
                           map[SessionHeader := freshId, AllowOrigin := "*"]),
                  Some(freshId), None))
              else if rpcMethod == JStr("tools/list") then
                Value(Handled(Response(200, Success(ToolsListResult(), id), map[AllowOrigin := "*"]),
                              None, None))
              else if rpcMethod == JStr("tools/call") then
                CallTool(params, id, token, outcome)
              else
                Value(Handled(Response(404, Failure(MethodNotFound, "Method not found", id), map[]),
                              None, None))
  }

  // -------------------------------------------------------------- endpoint

  /** The request carries a dict envelope with a "jsonrpc" member. */
  ghost predicate IsEnvelope(req: Request) {
    req.verb == Post && req.body.Parsed? && req.body.json.JObj? &&
    "jsonrpc" in Keys(req.body.json.members)
  }

  /** The request's envelope (a POST whose body decoded to a dict). */
  ghost function Envelope(req: Request): seq<(string, Json)>
    requires IsEnvelope(req)
  {
    req.body.json.members
  }

  /** The JSON-RPC method of an envelope, None when it is missing. */
  ghost function RpcMethod(req: Request): Json
    requires IsEnvelope(req)
  {
    Field(Envelope(req), "method")
  }

  /** The `id` of an envelope, None when it is missing. */
  ghost function RequestId(req: Request): Json
    requires IsEnvelope(req)
  {
    Field(Envelope(req), "id")
  }

  /** The `params` of an envelope, an empty dict when it is missing. */
  ghost function Params(req: Request): Json
    requires IsEnvelope(req)
  {
    Find(Envelope(req), "params").GetOr(JObj([]))
  }

  ghost predicate Initializes(req: Request) {
    IsEnvelope(req) && RpcMethod(req) == JStr("initialize")
  }

  /**
   * A decoded body the envelope check turns away with -32600: a falsy value,
   * or a dict, list or str in which "jsonrpc" is not found.
   */
  ghost predicate Malformed(data: Json) {
    || !Truthy(data)
    || (data.JObj? && "jsonrpc" !in Keys(data.members))
    || (data.JArr? && JStr("jsonrpc") !in data.items)
    || (data.JStr? && !exists i :: 0 <= i <= |data.s| && "jsonrpc" <= data.s[i..])
  }

  /**
   * A POST whose handling raises: a body `get_json()` cannot read; a truthy
   * bool or int body (`in` on a scalar); a list holding "jsonrpc" or a str
   * containing it (`get` on a non-dict); a `tools/call` whose params are not
   * a dict, or that names the known tool with arguments that are not a dict.
   */
  ghost predicate Raises(req: Request) {
    req.verb == Post &&
    match req.body
    case Unreadable(_) => true
    case Parsed(data) =>
      || ((data.JBool? || data.JInt?) && Truthy(data))
      || (data.JArr? && JStr("jsonrpc") in data.items)
      || (data.JStr? && exists i :: 0 <= i <= |data.s| && "jsonrpc" <= data.s[i..])
      || (IsEnvelope(req) && RpcMethod(req) == JStr("tools/call") &&
          (!Params(req).JObj? ||
           (Field(Params(req).members, "name") == JStr(ToolName) &&
            !Find(Params(req).members, "arguments").GetOr(JObj([])).JObj?)))
  }

  /** A `tools/call` naming an unknown tool, or a method the server does not know. */
  ghost predicate Unknown(req: Request) {
    IsEnvelope(req) &&
    var m := RpcMethod(req);
    if m == JStr("tools/call") then
      Params(req).JObj? && Field(Params(req).members, "name") != JStr(ToolName)
    else
      m != JStr("initialize") && m != JStr("tools/list")
  }

  /**
   * `mcp_endpoint`: OPTIONS answers the CORS preflight; POST runs the
   * JSON-RPC dispatch, and any exception it raises becomes -32603 with
   * HTTP 500 and a null id; every other method answers {"status": "ok"}.
   * No request other than `initialize` opens a session, and none closes one.
   */
  function Respond(req: Request, freshId: string, token: string, outcome: PushOutcome): (h: Handled)
    // Outside POST: a constant answer, no session, no push.
    ensures req.verb != Post ==>
      h == Handled(Response(200, StatusOk, if req.verb == Options then PreflightHeaders() else map[]),
                   None, None)
    // Sessions: exactly the initialize requests open one, the fresh one, and report it.
    ensures h.created.Some? <==> Initializes(req)
    ensures Initializes(req) ==>
      && h.created == Some(freshId)
      && h.push.None?
      && h.response == Response(200, Success(InitializeResult(), RequestId(req)),
                                map[SessionHeader := freshId, AllowOrigin := "*"])
    // tools/list: the one tool descriptor, the request id echoed.
    ensures IsEnvelope(req) && RpcMethod(req) == JStr("tools/list") ==>
      h == Handled(Response(200, Success(ToolsListResult(), RequestId(req)), map[AllowOrigin := "*"]),
                   None, None)
    // Invalid envelope: -32600, HTTP 400, null id.
    ensures h.response.status == 400 <==> req.verb == Post && req.body.Parsed? && Malformed(req.body.json)
    ensures h.response.status == 400 ==> h == Rejected()
    // Unknown method or tool: -32601, HTTP 404, the request id echoed.
    ensures h.response.status == 404 <==> Unknown(req)
    ensures Unknown(req) ==>
      h == Handled(Response(404, Failure(MethodNotFound, "Method not found", RequestId(req)), map[]),
                   None, None)
    // An exception: -32603, HTTP 500, null id, nothing opened or sent.
    ensures h.response.status == 500 <==> Raises(req)
    ensures h.response.status == 500 ==>
      && req.verb == Post
      && h.response.payload.Failure? && h.response.payload.code == InternalError
      && h.response.payload.id == JNull && h.created.None? && h.push.None?
      && h.response.headers == map[]
    ensures req.verb == Post && req.body.Unreadable? ==>
      h.response == Response(500, Failure(InternalError, req.body.text, JNull), map[])
    ensures req.verb == Post && req.body.Parsed? && (req.body.json.JBool? || req.body.json.JInt?) &&
            Truthy(req.body.json) ==>
      h.response.payload.message == Message(NotIterable(TypeName(req.body.json)))
    ensures req.verb == Post && req.body.Parsed? && (req.body.json.JArr? || req.body.json.JStr?) &&
            Raises(req) ==>
      h.response.payload.message == Message(NoAttributeGet(TypeName(req.body.json)))
    ensures IsEnvelope(req) && RpcMethod(req) == JStr("tools/call") && !Params(req).JObj? ==>
      h.response.payload.message == Message(NoAttributeGet(TypeName(Params(req))))
    ensures IsEnvelope(req) && RpcMethod(req) != JStr("tools/call") ==> h.response.status != 500
    // A push is sent only by tools/call of the known tool, whose answer is always a result.
    ensures h.push.Some? ==>
      && IsEnvelope(req) && RpcMethod(req) == JStr("tools/call")
      && Params(req).JObj? && Field(Params(req).members, "name") == JStr(ToolName)
      && h.response.status == 200
      && h.response.payload == Success(ToolOutput([ContentBlock("text", Report(h.push.value.content, outcome))]),
                                       RequestId(req))
      && h.response.headers == map[AllowOrigin := "*"]
    ensures h.response.status in {200, 400, 404, 500}
  {
    match req.verb
    case Options => Handled(Response(200, StatusOk, PreflightHeaders()), None, None)
    case Post =>
      (match Dispatch(req.body, freshId, token, outcome)
       case Value(h) => h
       case Threw(e) => Handled(Response(500, Failure(InternalError, Message(e), JNull), map[]), None, None))
    case Get => Handled(Response(200, StatusOk, map[]), None, None)
    case Head => Handled(Response(200, StatusOk, map[]), None, None)
    case Delete => Handled(Response(200, StatusOk, map[]), None, None)
  }

  /**
   * A call of `send_wechat_message` whose params and arguments are dicts
   * always sends exactly one push, built from the defaulted arguments, and
   * always answers HTTP 200 with a result of one text block, whatever the
   * push's outcome.
   */
  lemma CallAlwaysAnswers(req: Request, freshId: string, token: string, outcome: PushOutcome)
    requires IsEnvelope(req) && RpcMethod(req) == JStr("tools/call")
    requires Params(req).JObj? && Field(Params(req).members, "name") == JStr(ToolName)
    requires Find(Params(req).members, "arguments").GetOr(JObj([])).JObj?
    ensures var h := Respond(req, freshId, token, outcome);
      var args := Find(Params(req).members, "arguments").GetOr(JObj([]));
      && h.push.Some?
      && h.push.value == PushRequest(PushUrl, token, Arguments(args).value.0, Arguments(args).value.1,
                                     PushTemplate, PushTimeout)
      && h.response.status == 200
      && h.response.payload.Success?
      && h.response.payload.result.ToolOutput?
      && |h.response.payload.result.content| == 1
      && h.response.payload.result.content[0].kind == "text"
  {
  }
}
