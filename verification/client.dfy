/** The page side of intent parsing: `parseIntent` in SimpleDemo/lib/llm.ts,
    a classifier from the HTTP exchange with the route to either the intent
    or one error whose message carries a fixed prefix. `fetch` and
    `response.json()` are represented by what they yield. */
module Client {
  import opened Common
  import opened Js
  import opened Numerals
  import Route

  const Prefix := "LLM 调用失败: "
  const UnknownError := "未知错误"
  const MissingIntentMessage := "API 返回格式异常：缺少 intent 字段"

  /** What `await response.json()` yields, or the message it throws. */
  datatype BodyRead = NotJson(message: string) | JsonBody(value: JsValue)

  /** What `fetch('/api/llm', …)` yields, or the message it throws. */
  datatype Fetched =
    | NetworkError(message: string)
    | Received(ok: bool, status: nat, body: BodyRead)

  function RequestFailedMessage(status: nat): string {
    "API 请求失败: " + ToDecimal(status)
  }

  /** The `try` block of `parseIntent`: the intent it returns, or the message
      of the error it throws. */
  function Attempt(f: Fetched): Result<JsValue> {
    match f
    case NetworkError(m) => Err(m)
    case Received(ok, status, body) =>
      if !ok then
        // `response.json().catch(() => ({}))`
        var errorData := if body.JsonBody? then body.value else Obj(map[]);
        if Nullish(errorData) then Err(ReadError(errorData, "error"))
        else
          var e := Get(errorData, "error");
          Err(if Truthy(e) then ToJsString(e) else RequestFailedMessage(status))
      else
        match body
        case NotJson(m) => Err(m)
        case JsonBody(data) =>
          if Nullish(data) then Err(ReadError(data, "intent"))
          else if !Truthy(Get(data, "intent")) then Err(MissingIntentMessage)
          else Ok(Get(data, "intent"))
  }

  /** A body that parsed to a non-null value, and that value. */
  predicate Readable(f: Fetched) {
    f.Received? && f.body.JsonBody? && !Nullish(f.body.value)
  }

  /** `parseIntent`: the intent the route returned, or exactly one error
      whose message is the prefix followed by a non-empty reason. */
  function ParseIntent(f: Fetched): (r: Result<JsValue>)
    ensures r.Ok? <==> f.Received? && f.ok && Readable(f) && Truthy(Get(f.body.value, "intent"))
    ensures r.Ok? ==> r.value == Get(f.body.value, "intent") && Truthy(r.value)
    ensures r.Err? ==> |Prefix| < |r.error| && r.error[..|Prefix|] == Prefix
    // a failed request: the route's own message when it gave one
    ensures f.Received? && !f.ok && Readable(f) ==>
      var e := Get(f.body.value, "error");
      Truthy(e) ==> r == Err(Prefix + (if ToJsString(e) != "" then ToJsString(e) else UnknownError))
    ensures f.Received? && !f.ok && (f.body.NotJson? || (Readable(f) && !Truthy(Get(f.body.value, "error")))) ==>
      r == Err(Prefix + RequestFailedMessage(f.status))
    // a successful request without an intent
    ensures f.Received? && f.ok && Readable(f) && !Truthy(Get(f.body.value, "intent")) ==>
      r == Err(Prefix + MissingIntentMessage)
    // errors thrown by `fetch` or `response.json()` pass through once prefixed
    ensures f.NetworkError? && f.message != "" ==> r == Err(Prefix + f.message)
    ensures f.Received? && f.ok && f.body.NotJson? && f.body.message != "" ==>
      r == Err(Prefix + f.body.message)
    // an empty thrown message falls back to "未知错误"
    ensures f.NetworkError? && f.message == "" ==> r == Err(Prefix + UnknownError)
    ensures f.Received? && f.ok && f.body.NotJson? && f.body.message == "" ==>
      r == Err(Prefix + UnknownError)
    // a body that is JSON `null` fails on the first property read
    ensures f.Received? && f.ok && f.body.JsonBody? && Nullish(f.body.value) ==>
      r == Err(Prefix + ReadError(f.body.value, "intent"))
    ensures f.Received? && !f.ok && f.body.JsonBody? && Nullish(f.body.value) ==>
      r == Err(Prefix + ReadError(f.body.value, "error"))
  {
    match Attempt(f)
    case Ok(intent) => Ok(intent)
    case Err(m) => Err(Prefix + (if m != "" then m else UnknownError))
  }

  /** The route's response as the page receives it: `NextResponse.json`
      serialises the body and `response.json()` reads the same value back. */
  function Delivered(resp: Route.Response): Fetched {
    var body := match resp.body
      case IntentBody(intent) => Obj(map["intent" := intent])
      case ErrorBody(message) => Obj(map["error" := Str(message)]);
    Received(200 <= resp.status < 300, resp.status, JsonBody(body))
  }

  /** End to end: the page returns exactly the intent the route accepted when
      it is truthy, and otherwise reports the route's own message (or, for an
      accepted but falsy value such as `0`, the missing-intent message). */
  lemma RouteToPage(body: Route.RequestBody, env: Route.Env, upstream: Route.Upstream,
                    parse: string -> Route.JsonParse, stringify: JsValue -> string)
    ensures var resp := Route.Post(body, env, upstream, parse, stringify).response;
            var r := ParseIntent(Delivered(resp));
            && (resp.body.IntentBody? && Truthy(resp.body.intent) ==> r == Ok(resp.body.intent))
            && (resp.body.IntentBody? && !Truthy(resp.body.intent) ==> r == Err(Prefix + MissingIntentMessage))
            && (resp.body.ErrorBody? && !(200 <= resp.status < 300) ==> r == Err(Prefix + resp.body.error))
  {
    var resp := Route.Post(body, env, upstream, parse, stringify).response;
    var f := Delivered(resp);
    match resp.body
    case IntentBody(intent) =>
      assert Get(f.body.value, "intent") == intent;
    case ErrorBody(m) =>
      assert Get(f.body.value, "error") == Str(m);
  }
}
