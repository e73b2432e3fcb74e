/** The conversation orchestrator: the handlers of
    SimpleDemo/components/SimpleChat.tsx as transitions over the component's
    state. Each handler runs to completion as one step; the outcome of every
    call it awaits (`parseIntent` over the network, the wallet's
    `executeIntent`) is a parameter of the step. */
module Chat {
  import opened Common
  import opened Js
  import opened Text
  import Wallet
  import Chains
  import Client
  import Route

  datatype Role = User | Assistant

  /** A chat message without its clock-based `id` and `timestamp`. */
  datatype Message = Message(role: Role, content: string, txHash: Option<string>,
                             error: Option<string>, intent: Option<JsValue>)

  datatype ExecutionStatus = Idle | WaitingWallet | Success | Error

  datatype State = State(
    messages: seq<Message>,
    input: string,
    isLoading: bool,
    isExecuting: bool,
    pendingIntent: Option<JsValue>,
    status: ExecutionStatus,
    executionError: Option<string>)

  const Initial := State([], "", false, false, None, Idle, None)

  const NotConnectedText := "❌ 请先连接 MetaMask 钱包"
  const WalletNotConnected := "Wallet not connected"
  const NoProviderText := "❌ 钱包未连接"
  const ConfirmedText := "✅ 已确认，正在执行..."
  const CancelledText := "❌ 操作已取消"
  const ParseFailedText := "解析意图失败"
  const UnknownErrorTag := "Unknown error"
  const UnknownErrorText := "未知错误"
  const TransferDoneText := "✅ 转账成功！\n\n交易哈希: "
  const CrossChainDoneText := "✅ 跨链转账成功！\n\n第一步（源链锁定）已完成。\n第二步（目标链铸造）将由 ZetaChain 验证器自动执行，通常需要几分钟。\n\n交易哈希: "

  /** `addMessage`: the log only grows at its end. */
  function AddMessage(s: State, m: Message): (r: State)
    ensures r.messages == s.messages + [m]
    ensures r.(messages := s.messages) == s
  {
    s.(messages := s.messages + [m])
  }

  function Min(a: nat, b: nat): nat {
    if a < b then a else b
  }

  /** `${txHash.slice(0, 10)}...${txHash.slice(-8)}`: the first ten and last
      eight characters, each clamped to the hash's length. */
  function Abbreviate(hash: string): (r: string)
    ensures |r| == Min(10, |hash|) + 3 + Min(8, |hash|)
    ensures r[..Min(10, |hash|)] == hash[..Min(10, |hash|)]
    ensures r[Min(10, |hash|)..Min(10, |hash|) + 3] == "..."
    ensures r[|r| - Min(8, |hash|)..] == hash[|hash| - Min(8, |hash|)..]
    ensures |hash| >= 18 ==> |r| == 21 && r == hash[..10] + "..." + hash[|hash| - 8..]
  {
    var head := hash[..Min(10, |hash|)];
    var tail := hash[|hash| - Min(8, |hash|)..];
    assert (head + "..." + tail)[..|head|] == head;
    assert (head + "..." + tail)[|head|..|head| + 3] == "...";
    assert (head + "..." + tail)[|head| + 3..] == tail;
    head + "..." + tail
  }

  /** What `parseIntent` was asked. */
  datatype ParseRequest = ParseRequest(userInput: string, currentChain: Option<string>)

  datatype SendResult = SendResult(state: State, request: Option<ParseRequest>)

  /** The text of the message announcing a recognised intent. */
  function RecognisedText(intent: JsValue): string {
    "已识别意图: " + ToJsString(Get(intent, "action")) + "。请确认操作详情。"
  }

  /** The `try`/`catch`/`finally` around `parseIntent`, after the user's
      message is in the log. */
  function Recognise(s: State, fetched: Client.Fetched): (r: State)
    ensures |r.messages| == |s.messages| + 1 && r.messages[..|s.messages|] == s.messages
    ensures !r.isLoading && r.input == s.input
    ensures Client.ParseIntent(fetched).Ok? ==>
      var intent := Client.ParseIntent(fetched).value;
      && r.pendingIntent == Some(intent) && Truthy(intent)
      && r.status == Idle && r.executionError == None && !r.isExecuting
      && r.messages[|s.messages|].role == Assistant
      && r.messages[|s.messages|].intent == Some(intent)
      && r.messages[|s.messages|].error == None
    ensures Client.ParseIntent(fetched).Err? ==>
      && r.pendingIntent == s.pendingIntent && r.status == s.status
      && r.executionError == s.executionError && r.isExecuting == s.isExecuting
      && r.messages[|s.messages|].role == Assistant
      && r.messages[|s.messages|].error == Some(Client.ParseIntent(fetched).error)
      && r.messages[|s.messages|].txHash == None
  {
    match Client.ParseIntent(fetched)
    case Ok(intent) =>
      var said := AddMessage(s, Message(Assistant, RecognisedText(intent), None, None, Some(intent)));
      said.(pendingIntent := Some(intent), status := Idle, executionError := None,
            isExecuting := false, isLoading := false)
    case Err(m) =>
      var shown := if m != "" then m else ParseFailedText;
      var tag := if m != "" then m else UnknownErrorTag;
      AddMessage(s, Message(Assistant, "❌ " + shown, None, Some(tag), None)).(isLoading := false)
  }

  /** `handleSend`: ignore blank input and re-entry; otherwise log the
      trimmed input, then either report the missing wallet without calling
      the parser, or parse and record the outcome. */
  function Send(s: State, wallet: Wallet.State, currentChain: Option<string>,
                fetched: Client.Fetched): (r: SendResult)
    ensures AllSpaces(s.input) || s.isLoading ==> r == SendResult(s, None)
    ensures !AllSpaces(s.input) && !s.isLoading ==>
      && |r.state.messages| == |s.messages| + 2
      && r.state.messages[..|s.messages|] == s.messages
      && r.state.messages[|s.messages|] == Message(User, Trim(s.input), None, None, None)
      && r.state.input == "" && !r.state.isLoading
    ensures !AllSpaces(s.input) && !s.isLoading && !(wallet.isConnected && wallet.hasProvider) ==>
      && r.request == None
      && r.state.messages[|s.messages| + 1] == Message(Assistant, NotConnectedText, None, Some(WalletNotConnected), None)
      && r.state.pendingIntent == s.pendingIntent && r.state.status == s.status
      && r.state.isExecuting == s.isExecuting && r.state.executionError == s.executionError
    ensures !AllSpaces(s.input) && !s.isLoading && wallet.isConnected && wallet.hasProvider ==>
      r.request == Some(ParseRequest(Trim(s.input), currentChain))
    // with a wallet, the state records what `parseIntent` returned
    ensures !AllSpaces(s.input) && !s.isLoading && wallet.isConnected && wallet.hasProvider ==>
      var p := Client.ParseIntent(fetched);
      var answer := r.state.messages[|s.messages| + 1];
      && answer.role == Assistant
      && (p.Ok? ==>
            && r.state.pendingIntent == Some(p.value) && r.state.status == Idle
            && r.state.executionError == None && !r.state.isExecuting
            && answer.intent == Some(p.value) && answer.error == None)
      && (p.Err? ==>
            && r.state.pendingIntent == s.pendingIntent && r.state.status == s.status
            && r.state.executionError == s.executionError && r.state.isExecuting == s.isExecuting
            && answer.error == Some(p.error) && answer.txHash == None)
  {
    if AllSpaces(s.input) || s.isLoading then SendResult(s, None)
    else
      var text := Trim(s.input);
      var started := AddMessage(s.(input := "", isLoading := true), Message(User, text, None, None, None));
      if !wallet.isConnected || !wallet.hasProvider then
        var refused := AddMessage(started, Message(Assistant, NotConnectedText, None, Some(WalletNotConnected), None));
        SendResult(refused.(isLoading := false), None)
      else
        SendResult(Recognise(started, fetched), Some(ParseRequest(text, currentChain)))
  }

  /** How the wallet side of a confirmed intent ends: a transaction hash, or
      the message of whatever `getSigner` or `executeIntent` threw. */
  datatype Execution = Submitted(txHash: string) | Rejected(message: string)

  datatype ConfirmResult = ConfirmResult(state: State, executed: bool)

  function ConfigKeys(configs: seq<Chains.ChainConfig>): set<string> {
    set i | 0 <= i < |configs| :: configs[i].key
  }

  /** Building the explorer link reads
      `CHAIN_CONFIGS[intent.toChain || intent.fromChain].blockExplorerUrls`,
      which throws when that chain is set but has no configuration. */
  predicate ExplorerLookupThrows(intent: JsValue, configs: seq<Chains.ChainConfig>) {
    var target := Or(Get(intent, "toChain"), Get(intent, "fromChain"));
    Truthy(target) && ToJsString(target) !in ConfigKeys(configs)
  }

  /** The `catch` branch of `handleConfirmIntent`. */
  function RecordFailure(s: State, message: string): (r: State)
    ensures |r.messages| == |s.messages| + 1 && r.messages[..|s.messages|] == s.messages
    ensures r.status == Error && r.executionError == Some(message) && !r.isExecuting
    ensures r.messages[|s.messages|].txHash == None && r.messages[|s.messages|].error.Some?
    ensures message != "" ==> r.messages[|s.messages|].error == Some(message)
    ensures r.pendingIntent == s.pendingIntent && r.isLoading == s.isLoading && r.input == s.input
  {
    var shown := if message != "" then message else UnknownErrorText;
    var tag := if message != "" then message else UnknownErrorTag;
    var said := AddMessage(s, Message(Assistant, "❌ 操作失败: " + shown, None, Some(tag), None));
    said.(status := Error, executionError := Some(message), isExecuting := false)
  }

  /** `handleConfirmIntent`: without a provider, report it and drop the
      intent; otherwise announce execution, run it, and record the outcome. */
  function Confirm(s: State, intent: JsValue, wallet: Wallet.State,
                   configs: seq<Chains.ChainConfig>, execution: Execution): (r: ConfirmResult)
    requires !Nullish(intent)
    ensures |s.messages| < |r.state.messages| && r.state.messages[..|s.messages|] == s.messages
    ensures r.state.pendingIntent == None
    ensures r.state.input == s.input && r.state.isLoading == s.isLoading
    ensures !wallet.hasProvider ==>
      && !r.executed
      && r.state.messages == s.messages + [Message(Assistant, NoProviderText, None, Some(WalletNotConnected), None)]
      && r.state.status == s.status && r.state.isExecuting == s.isExecuting
      && r.state.executionError == s.executionError
    ensures wallet.hasProvider ==>
      && r.executed && !r.state.isExecuting
      && |r.state.messages| == |s.messages| + 2
      && r.state.messages[|s.messages|].content == ConfirmedText
    ensures wallet.hasProvider && execution.Submitted? && !ExplorerLookupThrows(intent, configs) ==>
      && r.state.status == Success
      && r.state.executionError == None
      && r.state.messages[|s.messages| + 1].txHash == Some(execution.txHash)
      && r.state.messages[|s.messages| + 1].error == None
      && var content := r.state.messages[|s.messages| + 1].content;
      && var shown := Abbreviate(execution.txHash);
      && |shown| <= |content| && content[|content| - |shown|..] == shown
    ensures wallet.hasProvider && execution.Rejected? ==>
      && r.state.status == Error
      && r.state.executionError == Some(execution.message)
      && r.state.messages[|s.messages| + 1].txHash == None
      && r.state.messages[|s.messages| + 1].error.Some?
    // a submitted transaction whose explorer lookup throws still lands in the `catch`
    ensures wallet.hasProvider && execution.Submitted? && ExplorerLookupThrows(intent, configs) ==>
      && r.state.status == Error
      && r.state.executionError == Some(ReadError(Undefined, "blockExplorerUrls"))
      && r.state.messages[|s.messages| + 1].txHash == None
      && r.state.messages[|s.messages| + 1].error == Some(ReadError(Undefined, "blockExplorerUrls"))
  {
    if !wallet.hasProvider then
      var said := AddMessage(s, Message(Assistant, NoProviderText, None, Some(WalletNotConnected), None));
      ConfirmResult(said.(pendingIntent := None), false)
    else
      var started := AddMessage(s.(pendingIntent := None, isExecuting := true, status := Idle,
                                   executionError := None),
                                Message(Assistant, ConfirmedText, None, None, None));
      var finished :=
        match execution
        case Rejected(m) => RecordFailure(started, m)
        case Submitted(hash) =>
          if ExplorerLookupThrows(intent, configs) then
            RecordFailure(started, ReadError(Undefined, "blockExplorerUrls"))
          else
            var crossChain := Get(intent, "action") == Str("cross_chain_transfer");
            var text := (if crossChain then CrossChainDoneText else TransferDoneText) + Abbreviate(hash);
            var said := AddMessage(started.(status := Success), Message(Assistant, text, Some(hash), None, None));
            said.(isExecuting := false);
      ConfirmResult(finished, true)
  }

  /** `handleCancelIntent`: drop the intent, reset the execution state and
      say so. */
  function Cancel(s: State): (r: State)
    ensures r.messages == s.messages + [Message(Assistant, CancelledText, None, None, None)]
    ensures r.pendingIntent == None && r.status == Idle && r.executionError == None && !r.isExecuting
    ensures r.input == s.input && r.isLoading == s.isLoading
  {
    AddMessage(s.(pendingIntent := None, status := Idle, executionError := None, isExecuting := false),
               Message(Assistant, CancelledText, None, None, None))
  }

  /** What the user can do: type, send, and confirm or cancel the intent the
      confirmation dialog shows (the dialog exists only while one is pending). */
  datatype Event =
    | Typed(text: string)
    | Submit(wallet: Wallet.State, currentChain: Option<string>, fetched: Client.Fetched)
    | ConfirmPending(wallet: Wallet.State, configs: seq<Chains.ChainConfig>, execution: Execution)
    | CancelPending

  /** Between steps: nothing in flight, and a pending intent is a real value. */
  predicate Settled(s: State) {
    && !s.isLoading && !s.isExecuting
    && (s.pendingIntent.Some? ==> Truthy(s.pendingIntent.value))
  }

  function Step(s: State, e: Event): (r: State)
    requires Settled(s)
    ensures Settled(r)
    ensures |s.messages| <= |r.messages| && r.messages[..|s.messages|] == s.messages
  {
    match e
    case Typed(text) => s.(input := text)
    case Submit(wallet, chain, fetched) => Send(s, wallet, chain, fetched).state
    case ConfirmPending(wallet, configs, execution) =>
      if s.pendingIntent.Some? then Confirm(s, s.pendingIntent.value, wallet, configs, execution).state else s
    case CancelPending => if s.pendingIntent.Some? then Cancel(s) else s
  }

  function Run(s: State, events: seq<Event>): State
    requires Settled(s)
    decreases |events|
  {
    if events == [] then s else Run(Step(s, events[0]), events[1..])
  }

  /** Over any session the log is append-only: every earlier message keeps
      its place and content, and the state stays settled. */
  lemma {:induction false} RunAppendOnly(s: State, events: seq<Event>)
    requires Settled(s)
    ensures Settled(Run(s, events))
    ensures |s.messages| <= |Run(s, events).messages|
    ensures Run(s, events).messages[..|s.messages|] == s.messages
    decreases |events|
  {
    if events != [] {
      var next := Step(s, events[0]);
      RunAppendOnly(next, events[1..]);
      var last := Run(next, events[1..]);
      assert last.messages[..|s.messages|] == last.messages[..|next.messages|][..|s.messages|];
    }
  }

  /** End to end: when the page's request reaches the route handler, a
      valid intent the route answers with becomes the pending intent, and
      an error the route answers with is shown with the client's prefix. */
  lemma SendRecordsRouteOutcome(s: State, wallet: Wallet.State, chain: Option<string>,
                                body: Route.RequestBody, env: Route.Env, upstream: Route.Upstream,
                                parse: string -> Route.JsonParse, stringify: JsValue -> string)
    requires !AllSpaces(s.input) && !s.isLoading && wallet.isConnected && wallet.hasProvider
    ensures var resp := Route.Post(body, env, upstream, parse, stringify).response;
            var r := Send(s, wallet, chain, Client.Delivered(resp)).state;
            && (resp.body.IntentBody? && Truthy(resp.body.intent) ==>
                  r.pendingIntent == Some(resp.body.intent) && r.status == Idle)
            && (resp.body.ErrorBody? && !(200 <= resp.status < 300) ==>
                  r.pendingIntent == s.pendingIntent
                  && r.messages[|s.messages| + 1].error == Some(Client.Prefix + resp.body.error))
  {
    Client.RouteToPage(body, env, upstream, parse, stringify);
  }
}
