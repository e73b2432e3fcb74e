/** The server side of intent parsing: the `POST` handler of
    SimpleDemo/app/api/llm/route.ts, from the request body to the HTTP
    response. The outbound call to the language model, `JSON.parse` and
    `JSON.stringify` are parameters: the handler receives what they return. */
module Route {
  import opened Common
  import opened Js
  import opened Numerals
  import Extract

  const EmptyInputMessage := "用户输入不能为空"
  const MissingKeyMessage := "未配置 LLM API Key。请检查 SimpleDemo/.env 文件中的 QWEN_API_KEY"
  const BadReplyMessage := "Qwen API 返回格式异常"
  const UnsupportedTokenMessage := "仅支持 ZETA 代币，不支持其他代币"
  const UnsupportedSourceMessage := "仅支持从 ZetaChain 发起操作"
  const UnsupportedDestinationMessage := "仅支持 ZetaChain 和 BSC 链"
  const InvalidKeyMessage := "API Key 无效或已过期。请检查 SimpleDemo/.env 文件中的 QWEN_API_KEY"
  const FallbackMessage := "LLM API 调用失败"
  const DefaultModel := "qwen-max"

  /** The whitelist the handler enforces. */
  const SupportedToken := "ZETA"
  const HomeChain := "zetachain"
  const RemoteChain := "bsc"

  /** `process.env.QWEN_API_KEY` and `process.env.QWEN_MODEL`. */
  datatype Env = Env(apiKey: Option<string>, model: Option<string>)

  /** What `await request.json()` yields, or the message it throws. */
  datatype RequestBody = Unreadable(message: string) | Json(value: JsValue)

  /** What the axios call yields: a 2xx reply's `data`, an error carrying
      the upstream response, or an error without one (timeout, network). */
  datatype Upstream =
    | Answered(data: JsValue)
    | HttpFailure(status: nat, data: JsValue)
    | NoResponse(message: string)

  /** What `JSON.parse` returns or throws. */
  datatype JsonParse = Parsed(value: JsValue) | SyntaxError(message: string)

  /** The request the handler sends to the language model (prompt text omitted). */
  datatype Outbound = Outbound(model: string, apiKey: string, userInput: JsValue, currentChain: JsValue)

  datatype Body = IntentBody(intent: JsValue) | ErrorBody(error: string)
  datatype Response = Response(status: nat, body: Body)

  /** The response and, when one was made, the upstream request. */
  datatype Handled = Handled(response: Response, sent: Option<Outbound>)

  /** An exception that reaches the handler's `catch`: a plain error, or an
      axios error that carries `error.response`. */
  datatype Failure = Raised(message: string) | HttpError(status: nat, data: JsValue)

  /** An environment variable set to something other than the empty string. */
  predicate Configured(v: Option<string>) {
    v.Some? && v.value != ""
  }

  /** A field may be absent or falsy, and otherwise must be one of the allowed strings. */
  predicate Allowed(field: JsValue, whitelist: set<string>) {
    !Truthy(field) || (field.Str? && field.s in whitelist)
  }

  /** The three whitelist checks, in the order the handler applies them: the
      first that fails alone decides the message; an intent that passes all
      three is accepted. */
  function Validate(intent: JsValue): (r: Option<string>)
    ensures r == None <==>
      && Allowed(Get(intent, "fromToken"), {SupportedToken})
      && Allowed(Get(intent, "fromChain"), {HomeChain})
      && Allowed(Get(intent, "toChain"), {HomeChain, RemoteChain})
    ensures r == Some(UnsupportedTokenMessage) <==>
      !Allowed(Get(intent, "fromToken"), {SupportedToken})
    ensures r == Some(UnsupportedSourceMessage) <==>
      && Allowed(Get(intent, "fromToken"), {SupportedToken})
      && !Allowed(Get(intent, "fromChain"), {HomeChain})
    ensures r == Some(UnsupportedDestinationMessage) <==>
      && Allowed(Get(intent, "fromToken"), {SupportedToken})
      && Allowed(Get(intent, "fromChain"), {HomeChain})
      && !Allowed(Get(intent, "toChain"), {HomeChain, RemoteChain})
  {
    var fromToken := Get(intent, "fromToken");
    var fromChain := Get(intent, "fromChain");
    var toChain := Get(intent, "toChain");
    if Truthy(fromToken) && fromToken != Str(SupportedToken) then Some(UnsupportedTokenMessage)
    else if Truthy(fromChain) && fromChain != Str(HomeChain) then Some(UnsupportedSourceMessage)
    else if Truthy(toChain) && toChain != Str(HomeChain) && toChain != Str(RemoteChain) then
      Some(UnsupportedDestinationMessage)
    else None
  }

  /** A parsed intent is returned as it is when it passes the whitelist and
      answered with status 400 and the first failing check's message otherwise. */
  function Verdict(intent: JsValue): (r: Response)
    ensures r.status == 200 <==> Validate(intent) == None
    ensures r.status == 200 ==> r.body == IntentBody(intent)
    ensures r.status != 200 ==> r.status == 400 && r.body == ErrorBody(Validate(intent).value)
  {
    match Validate(intent)
    case None => Response(200, IntentBody(intent))
    case Some(m) => Response(400, ErrorBody(m))
  }

  /** `response.data?.output?.choices?.[0]?.message?.content` */
  function Content(data: JsValue): JsValue {
    Get(Get(First(Get(Get(data, "output"), "choices")), "message"), "content")
  }

  /** `JSON.parse` applied to the JSON text found in the reply. */
  function ParseContent(content: string, parse: string -> JsonParse): JsonParse {
    parse(Extract.JsonText(content))
  }

  /** The part of the `try` block after the upstream reply: extract, parse,
      validate. `Err` carries the message of the error it throws. */
  function Interpret(data: JsValue, parse: string -> JsonParse): (r: Result<Response>)
    ensures !Truthy(Content(data)) ==> r == Err(BadReplyMessage)
    ensures Truthy(Content(data)) && !Content(data).Str? ==> r == Err(NotAFunction("content.match"))
    ensures Truthy(Content(data)) && Content(data).Str? ==>
      match ParseContent(Content(data).s, parse)
      case SyntaxError(m) => r == Err(m)
      case Parsed(intent) => r == if Nullish(intent) then Err(ReadError(intent, "fromToken")) else Ok(Verdict(intent))
    ensures r.Ok? ==> && Truthy(Content(data)) && Content(data).Str?
                      && ParseContent(Content(data).s, parse).Parsed?
                      && var intent := ParseContent(Content(data).s, parse).value;
                      && !Nullish(intent)
                      && r.value == Verdict(intent)
  {
    var content := Content(data);
    if !Truthy(content) then Err(BadReplyMessage)
    else if !content.Str? then Err(NotAFunction("content.match"))
    else
      match ParseContent(content.s, parse)
      case SyntaxError(m) => Err(m)
      case Parsed(intent) =>
        if Nullish(intent) then Err(ReadError(intent, "fromToken"))
        else Ok(Verdict(intent))
  }

  /** The `catch` block: the status a failure is reported with. */
  function Classify(f: Failure, stringify: JsValue -> string): (r: Response)
    ensures r.body.ErrorBody? && r.body.error != ""
    ensures f.HttpError? && f.status == 401 ==> r == Response(401, ErrorBody(InvalidKeyMessage))
    ensures f.HttpError? && f.status != 401 ==>
      && r.status == f.status
      && var head := "LLM API 错误 (" + ToDecimal(f.status) + "): ";
      && var detail := Get(f.data, "message");
      && (Truthy(detail) ==> r.body.error == head + ToJsString(detail))
      && (!Truthy(detail) ==> r.body.error == head + stringify(f.data))
    ensures f.Raised? && f.message != "" ==> r == Response(500, ErrorBody(f.message))
    ensures f.Raised? && f.message == "" ==> r == Response(500, ErrorBody(FallbackMessage))
  {
    match f
    case HttpError(status, data) =>
      if status == 401 then Response(401, ErrorBody(InvalidKeyMessage))
      else
        var detail := Get(data, "message");
        var shown := if Truthy(detail) then ToJsString(detail) else stringify(data);
        Response(status, ErrorBody("LLM API 错误 (" + ToDecimal(status) + "): " + shown))
    case Raised(m) =>
      Response(500, ErrorBody(if m != "" then m else FallbackMessage))
  }

  /** The model name sent upstream: `QWEN_MODEL || 'qwen-max'`. */
  function ModelName(env: Env): (name: string)
    ensures name != ""
    ensures Configured(env.model) ==> name == env.model.value
    ensures !Configured(env.model) ==> name == DefaultModel
  {
    if Configured(env.model) then env.model.value else DefaultModel
  }

  /** Everything after the outbound request: the reply, or the failure,
      turned into the handler's response. */
  function Respond(upstream: Upstream, parse: string -> JsonParse, stringify: JsValue -> string): (r: Response)
    ensures r.body.ErrorBody? ==> r.body.error != ""
    ensures r.body.IntentBody? ==>
      && r.status == 200
      && upstream.Answered?
      && Content(upstream.data).Str?
      && ParseContent(Content(upstream.data).s, parse) == Parsed(r.body.intent)
      && !Nullish(r.body.intent)
      && Validate(r.body.intent) == None
    ensures upstream.Answered? && Content(upstream.data).Str? && Content(upstream.data).s != "" ==>
      var parsed := ParseContent(Content(upstream.data).s, parse);
      parsed.Parsed? && !Nullish(parsed.value) ==>
        r == Verdict(parsed.value)
    ensures upstream.HttpFailure? && upstream.status == 401 ==> r == Response(401, ErrorBody(InvalidKeyMessage))
    ensures upstream.HttpFailure? ==> r.status == upstream.status
    ensures upstream.NoResponse? ==> r.status == 500
    ensures upstream.Answered? && !Truthy(Content(upstream.data)) ==>
      r == Response(500, ErrorBody(BadReplyMessage))
    ensures upstream.Answered? && Truthy(Content(upstream.data)) && !Content(upstream.data).Str? ==>
      r == Response(500, ErrorBody(NotAFunction("content.match")))
    ensures upstream.Answered? && Content(upstream.data).Str? && Content(upstream.data).s != "" ==>
      var parsed := ParseContent(Content(upstream.data).s, parse);
      && (parsed.SyntaxError? ==> r.status == 500)
      && (parsed.SyntaxError? && parsed.message != "" ==> r == Response(500, ErrorBody(parsed.message)))
      && (parsed.Parsed? && Nullish(parsed.value) ==>
            r == Response(500, ErrorBody(ReadError(parsed.value, "fromToken"))))
    ensures upstream.NoResponse? && upstream.message != "" ==> r == Response(500, ErrorBody(upstream.message))
    // failures of the upstream call itself are classified as in the `catch` block
    ensures upstream.HttpFailure? ==> r == Classify(HttpError(upstream.status, upstream.data), stringify)
    ensures upstream.NoResponse? ==> r == Classify(Raised(upstream.message), stringify)
    ensures upstream.NoResponse? && upstream.message == "" ==> r == Response(500, ErrorBody(FallbackMessage))
  {
    match upstream
    case HttpFailure(status, data) => Classify(HttpError(status, data), stringify)
    case NoResponse(m) => Classify(Raised(m), stringify)
    case Answered(data) =>
      match Interpret(data, parse)
      case Ok(response) => response
      case Err(m) => Classify(Raised(m), stringify)
  }

  /** The request carries a non-empty `userInput`. */
  predicate HasInput(body: RequestBody) {
    body.Json? && !Nullish(body.value) && Truthy(Get(body.value, "userInput"))
  }

  /** The whole handler: the two guards, then the upstream call. */
  function Post(body: RequestBody, env: Env, upstream: Upstream,
                parse: string -> JsonParse, stringify: JsValue -> string): (h: Handled)
    ensures h.sent.Some? <==> HasInput(body) && Configured(env.apiKey)
    ensures !(body.Json? && !Nullish(body.value)) ==> h.response.status == 500
    ensures body.Unreadable? && body.message != "" ==> h.response == Response(500, ErrorBody(body.message))
    ensures body.Json? && !Nullish(body.value) && !Truthy(Get(body.value, "userInput")) ==>
      h.response == Response(400, ErrorBody(EmptyInputMessage))
    ensures HasInput(body) && !Configured(env.apiKey) ==>
      h.response == Response(500, ErrorBody(MissingKeyMessage))
    ensures h.sent.Some? ==>
      && h.sent.value == Outbound(ModelName(env), env.apiKey.value,
                                  Get(body.value, "userInput"), Get(body.value, "currentChain"))
      && h.response == Respond(upstream, parse, stringify)
    ensures h.response.body.ErrorBody? ==> h.response.body.error != ""
    ensures h.response.body.IntentBody? ==> h.sent.Some?
  {
    match body
    case Unreadable(m) => Handled(Classify(Raised(m), stringify), None)
    case Json(request) =>
      if Nullish(request) then Handled(Classify(Raised(DestructureError(request, "userInput")), stringify), None)
      else
        var userInput := Get(request, "userInput");
        var currentChain := Get(request, "currentChain");
        if !Truthy(userInput) then Handled(Response(400, ErrorBody(EmptyInputMessage)), None)
        else if !Configured(env.apiKey) then Handled(Response(500, ErrorBody(MissingKeyMessage)), None)
        else
          var sent := Outbound(ModelName(env), env.apiKey.value, userInput, currentChain);
          Handled(Respond(upstream, parse, stringify), Some(sent))
  }
}
