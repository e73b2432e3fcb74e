# SimpleDemo intent pipeline, modelled in Dafny

SimpleDemo is a chat front end for on-chain transfers. The user types a request in natural language, for example "send 1 ZETA to 0x… on BSC". The page sends it to a Next.js API route. The route asks the Qwen language model for a JSON intent, pulls the JSON text out of the model's reply, checks the intent against a whitelist (token ZETA; source chain zetachain; destination zetachain or bsc), and answers with the intent or an error and an HTTP status. The page turns that answer into a pending intent or an error message. The user then confirms or cancels the intent, and a confirmation runs the transfer through MetaMask.

The project models the decision logic of that pipeline as pure functions over immutable datatypes:

| file | module | models |
|---|---|---|
| `common.dfy` | `Common` | `Option` and `Result` |
| `text.dfy` | `Text` | JavaScript whitespace, `trim`, `trimEnd`, `indexOf`, and `replace` with a string pattern |
| `numerals.dfy` | `Numerals` | decimal and lower-case hexadecimal numerals, and `BigInt("0x…")` digit parsing |
| `js.dfy` | `Js` | JSON-like values, truthiness, optional chaining (`?.`), `String()` coercion, and V8's `TypeError` texts |
| `extract.dfy` | `Extract` | the fenced and bare regular expressions that locate the JSON text in the model's reply |
| `route.dfy` | `Route` | the `POST` handler: the guards, interpretation of the reply, validation, and the error-to-status mapping |
| `client.dfy` | `Client` | `parseIntent`, which classifies the route's response into an intent or one prefixed error |
| `wallet.dfy` | `Wallet` | the `useWeb3` hook as a three-field state machine |
| `chains.dfy` | `Chains` | the lookup that names the configured chain the wallet is on |
| `chat.dfy` | `Chat` | the `SimpleChat` handlers (`addMessage`, send, confirm, cancel) as transitions |

Nothing outside the code is called. Values that come from outside become parameters or outcome datatypes:

- the language model's HTTP call (`Route.Upstream`);
- `JSON.parse` and `JSON.stringify` (function parameters);
- `fetch` together with `response.json()` (`Client.Fetched`);
- the wallet's replies (`Wallet.Reply`, `Wallet.Attempt`);
- `executeIntent` (`Chat.Execution`);
- the chain configuration table (a sequence of `Chains.ChainConfig` in key order).

Each React handler is one atomic step.

Behaviour of the code worth noting:

- The bare pattern `/(\{[\s\S]*\})/` captures from the first `{` to the last `}` of the reply. This is not necessarily one balanced object: `Extract.GreedySpansBothObjects` shows two objects and the text between them coming out as one span.
- A missing `QWEN_API_KEY` is answered with status 500, not as an authentication error.
- Sending appends two messages: the user's text, then the assistant's answer.
- Confirming with a provider also appends two messages: the "executing" notice, then the outcome.
- The `waiting-wallet` execution status exists, but no handler ever sets it.

## Model

| member | source | states |
|---|---|---|
| Route.Post | SimpleDemo/app/api/llm/route.ts:11-32 | An upstream request is made exactly when `userInput` is truthy and the API key is set. A body that is not JSON, or is JSON `null`, gets 500, with the parser's own message when it has one. A falsy `userInput` gets 400 with the empty-input message, before the key is looked at. A missing key gets 500. The request that is sent carries the configured model, the key, `userInput` and `currentChain`. An accepted intent implies that the request was sent. Every error body is non-empty. |
| Route.ModelName | SimpleDemo/app/api/llm/route.ts:24 | The model is `QWEN_MODEL` when it is set to a non-empty string, and "qwen-max" when it is unset or empty. |
| Route.Validate | SimpleDemo/app/api/llm/route.ts:119-138 | The checks are ordered and short-circuit. The token message is returned exactly when `fromToken` is truthy and not "ZETA". The source message is returned exactly when the token passes and `fromChain` is truthy and not "zetachain". The destination message is returned exactly when both earlier checks pass and `toChain` is truthy and outside {zetachain, bsc}. The intent is accepted exactly when none of these fire, so falsy fields are never rejected. |
| Route.Verdict | SimpleDemo/app/api/llm/route.ts:119-140 | An intent that passes every check is answered with status 200 and the intent itself, unchanged. Any other intent gets 400 with the message of the first check it fails. |
| Route.Interpret | SimpleDemo/app/api/llm/route.ts:101-116 | Missing or falsy content (the empty string included) throws "Qwen API 返回格式异常". Truthy content that is not a string throws "content.match is not a function". For string content, the extracted JSON text is parsed: a syntax error throws the parser's message, a `null` parse throws V8's message for reading `fromToken` of null, and any other value leads to `Route.Verdict` of it. A verdict is reached only along that last path. |
| Route.Classify | SimpleDemo/app/api/llm/route.ts:144-164 | An upstream 401 becomes 401 with the invalid-key message. Any other upstream status `s` is passed through with the message "LLM API 错误 (s): " followed by the upstream body's `message` when that is truthy, and by the serialised body otherwise. Any other failure becomes 500 and carries its own message, or "LLM API 调用失败" when that is empty. The message is never empty. |
| Route.Respond | SimpleDemo/app/api/llm/route.ts:101-164 | An intent body has status 200 and is exactly the non-null parse of the extracted content, and it passes validation. A well-formed reply yields exactly `Route.Verdict` of its parse, meaning 200 with the unchanged intent or 400 with the first failing check's message. Falsy content gives 500 with "Qwen API 返回格式异常". Truthy non-string content gives 500 with the not-a-function message. Non-empty string content whose extracted text fails to parse gives 500 with the parser's message. Content whose text parses to `null` gives 500 with the read-of-null message. A failure without an upstream response gives 500 with its message, or with "LLM API 调用失败" when that message is empty. An upstream error status, and a failure without a response, give exactly the `Route.Classify` answer for them: 401 with the invalid-key message, or the status passed through with "LLM API 错误 (s): " and the upstream detail. |
| Extract.FirstFence | SimpleDemo/app/api/llm/route.ts:108 | Finds the leftmost fence at which the fenced pattern matches, together with the last closing brace that spaces and a closing fence can still follow. When it finds nothing, no fence matches anywhere. |
| Extract.FencedCapture | SimpleDemo/app/api/llm/route.ts:108 | There is no capture exactly when the fenced pattern matches nowhere. Otherwise the capture is the text from the opening `{` to the brace of the engine's match (leftmost start, longest capture). |
| Extract.BareCapture | SimpleDemo/app/api/llm/route.ts:109 | There is no capture exactly when no `{` is followed by a `}`. Otherwise the capture is the text from the first `{` to the last `}`. |
| Extract.JsonText | SimpleDemo/app/api/llm/route.ts:108-116 | The text handed to `JSON.parse` is the fenced capture when the fenced pattern matches. Otherwise it is the greedy first-`{`-to-last-`}` span. When neither pattern matches, it is the whole content. |
| Extract.FencedBlockRoundTrip | SimpleDemo/app/api/llm/route.ts:108 | A reply made of one fenced block (tagged `json` or not) around an object yields exactly that object's text, whatever braces and fences the object contains. This holds when the text before the block has no backtick or no `{`, and the text after it has no `}`. |
| Extract.NoBacktickNoFence | SimpleDemo/app/api/llm/route.ts:108 | A reply without a backtick never matches the fenced pattern. |
| Extract.GreedySpansBothObjects | SimpleDemo/app/api/llm/route.ts:109 | With two objects and text between them, and no fence, the extracted text is all three parts together, not the first object. |
| Client.ParseIntent | SimpleDemo/lib/llm.ts:11-42 | The intent is returned unchanged exactly when the response is ok, its body parses to a non-null value, and that value's `intent` is truthy. Every other outcome is one error whose message is "LLM 调用失败: " followed by a non-empty reason. For a non-ok response, the reason is the body's `error` when it is truthy, and "API 请求失败: <status>" when the body is unreadable or has no `error`. An ok body without `intent` gives the missing-intent reason. Errors from `fetch` and `response.json()` pass through, prefixed once, and an empty thrown message is replaced by "未知错误". A body that is JSON `null` gives V8's message for reading `intent` (ok response) or `error` (non-ok response) of null. |
| Client.RouteToPage | SimpleDemo/lib/llm.ts:22-33 | Over the route's actual responses: a truthy accepted intent reaches the page unchanged. A falsy one is reported as missing. A non-2xx error body is reported as "LLM 调用失败: " followed by the route's own message. |
| Wallet.ConnectedTo | SimpleDemo/hooks/useWeb3.ts:49-51 | Every branch that adopts an account sets connected, that account, and a provider together. |
| Wallet.CheckConnection | SimpleDemo/hooks/useWeb3.ts:24-38 | A thrown request or an empty account list leaves the state unchanged. Otherwise the state is connected to the first account. The invariant is preserved. |
| Wallet.AccountsChanged | SimpleDemo/hooks/useWeb3.ts:43-53 | From any state, the result is connected exactly when the list is non-empty, its account is the list's first, and the invariant holds. |
| Wallet.Connect | SimpleDemo/hooks/useWeb3.ts:69-95 | With no MetaMask, a refused access request, a thrown or empty account query, the state is unchanged. Otherwise the state is connected to the first account. The invariant is preserved. |
| Wallet.Disconnect | SimpleDemo/hooks/useWeb3.ts:97-101 | Clears the account, the connected flag and the provider. |
| Wallet.RunConsistent | SimpleDemo/hooks/useWeb3.ts:13-101 | Any sequence of checks, account changes, connects and disconnects preserves: connected ⇔ account present ⇔ provider present. |
| Wallet.InitialSession | SimpleDemo/hooks/useWeb3.ts:13-15 | The hook starts with no account, not connected and no provider, and every session from there keeps the invariant. |
| Chains.Compare | SimpleDemo/components/SimpleChat.tsx:85-90 | Three outcomes, each stated as an if-and-only-if. An entry matches when one of three things holds: the id equals "0x" plus the lower-case hex of the network id; the id equals the network id's decimal form; or the id with its first "0x" removed and trailing spaces dropped is a non-empty hex run whose value is the network id. The comparison throws when neither string is equal and the stripped id is non-empty but not such a run. Otherwise there is no match. |
| Chains.Find | SimpleDemo/components/SimpleChat.tsx:84-91 | A found key belongs to the first entry that matches, with every earlier entry compared and not matching. An abandoned lookup stops at the first entry whose comparison throws. Nothing is found exactly when every entry fails to match. |
| Chains.CurrentChain | SimpleDemo/components/SimpleChat.tsx:92 | The current chain is the key `Chains.Find` found, unless that key is empty. A lookup that finds nothing or is abandoned yields no chain. |
| Chains.CanonicalHexCompare | SimpleDemo/components/SimpleChat.tsx:86-90 | A configuration id written as "0x" plus canonical hex digits of `m` matches network `n` exactly when `m == n`. |
| Chains.HexSpellingMatches | SimpleDemo/components/SimpleChat.tsx:90 | Any "0x" spelling of the network id matches, including leading zeros and upper case. |
| Chains.FindCanonical | SimpleDemo/components/SimpleChat.tsx:84-91 | When every configuration id is written canonically, the lookup returns the key of the first configuration whose id is the network's, and nothing otherwise. |
| Numerals.ToHex | SimpleDemo/components/SimpleChat.tsx:87 | `toString(16)` writes lower-case hex digits with no leading zero. |
| Numerals.ToDecimal | SimpleDemo/components/SimpleChat.tsx:83 | `toString()` of a chain id writes decimal digits with no leading zero. |
| Numerals.DecimalRoundTrip | SimpleDemo/components/SimpleChat.tsx:83 | Reading back the decimal numeral of `n` by positional value gives `n`, so it spells that number and no other. |
| Numerals.HexValue | SimpleDemo/components/SimpleChat.tsx:90 | Digits after "0x" have a value exactly when they form a non-empty run of hex digits. |
| Chains.BigIntHex | SimpleDemo/components/SimpleChat.tsx:90 | `BigInt("0x" + digits)` has a value exactly when the digits, with trailing spaces dropped, are a non-empty hex run. The value is that run's positional value. Otherwise it throws. |
| Numerals.HexRoundTrip | SimpleDemo/components/SimpleChat.tsx:87-90 | Reading back the hex numeral of `n` gives `n`. |
| Text.Trim | SimpleDemo/components/SimpleChat.tsx:118-120 | The trimmed input is empty exactly when the input is all whitespace. Otherwise it is the slice between leading and trailing whitespace, and it neither starts nor ends with whitespace. |
| Text.ReplaceFirst | SimpleDemo/components/SimpleChat.tsx:86 | `replace('0x', '')` changes only the first occurrence, and leaves the text unchanged when there is none. |
| Js.Get | SimpleDemo/app/api/llm/route.ts:101 | An optional-chained property read yields the field's value exactly when the value is an object holding that key, and `undefined` otherwise. |
| Chat.AddMessage | SimpleDemo/components/SimpleChat.tsx:107-115 | Appends exactly the given message at the end of the log and changes nothing else. |
| Chat.Send | SimpleDemo/components/SimpleChat.tsx:117-139 | Blank input, or a send already in flight, changes nothing and calls nothing. Otherwise exactly two messages are appended: the trimmed input, then the answer. The input is then cleared and loading has ended. Without a connected wallet, the answer is the assistant's "请先连接 MetaMask 钱包" message tagged with the wallet error, `parseIntent` is not called, and the intent and execution state are untouched. With a wallet, `parseIntent` is asked about the trimmed input and the current chain, and the answer is the assistant's. When it returns an intent, that intent becomes pending and is carried by the answer, the status is idle, and there is no execution error. When it fails, the intent and execution state are untouched and the answer carries its error. |
| Chat.Recognise | SimpleDemo/components/SimpleChat.tsx:142-165 | Appends exactly one message, and loading always ends. On success, the intent becomes pending, the status is idle, the execution error is cleared, execution is off, and the message carries the intent. On failure, the message carries the parser's error, and the pending intent and execution state are untouched. |
| Chat.Confirm | SimpleDemo/components/SimpleChat.tsx:168-230 | Without a provider: one wallet error is appended, the intent is dropped, and nothing is executed. Otherwise: the intent is executed and exactly two messages are appended (the "executing" notice, then the outcome), and execution ends off. When the transaction was submitted and the explorer lookup succeeds, the status is success, there is no error, and the outcome carries the hash and ends with its abbreviation. When execution failed, the status is error, the execution error is the thrown message, and the outcome has an error and no hash. When the transaction was submitted but the target chain (`toChain`, else `fromChain`) has no configuration, building the explorer link throws. That is reported the same way, with V8's message for reading `blockExplorerUrls` of undefined. |
| Chat.RecordFailure | SimpleDemo/components/SimpleChat.tsx:217-229 | Appends one message that has an error and no hash. It sets the status to error and the execution error to the thrown message, and execution ends off. |
| Chat.Abbreviate | SimpleDemo/components/SimpleChat.tsx:203-204 | The shown hash is the first ten characters, "...", and the last eight, each clamped to the hash's length. For a hash of at least 18 characters the result is 21 characters long. |
| Chat.Cancel | SimpleDemo/components/SimpleChat.tsx:232-241 | Drops the pending intent, resets the status to idle, clears the error, turns execution off, and appends exactly the cancellation message. |
| Chat.Step | SimpleDemo/components/SimpleChat.tsx:420-427 | Typing, sending, and confirming or cancelling the pending intent through the dialog (the dialog only exists while an intent is pending) keep the log's earlier messages. They also keep the state settled: nothing in flight, and any pending intent truthy. |
| Chat.RunAppendOnly | SimpleDemo/components/SimpleChat.tsx:107-115 | Over any session, every earlier message keeps its place and content, and the state stays settled. |
| Chat.SendRecordsRouteOutcome | SimpleDemo/components/SimpleChat.tsx:142-162 | End to end from the route: an accepted truthy intent becomes the pending intent with status idle. A route error with a non-2xx status leaves the pending intent alone, and its message is recorded as the error prefixed with "LLM 调用失败: ". |

## Left out

- The prompt text, the axios call to Qwen and its 30 s timeout, `fetch`, `JSON.parse` and `JSON.stringify` are not modelled. Their outcomes are parameters.
- The transport of the route's response to the page is taken as identity: `NextResponse.json` serialises the body and `response.json()` reads back the same value (`Client.Delivered`).
- The serialisation of the page's request body (`{ userInput, currentChain }`) into the route's `request.json()` is not modelled. `Chat.Send` records what it asked `parseIntent`, and `Route.Post` starts from the parsed body.
- JavaScript numbers are modelled as integers. Fractions, `NaN` and infinities are out of the model, and so are objects that override `toString`.
- `Js.First` models `?.[0]` on arrays and on objects (their field `"0"`). Indexing a string, which yields its first character, reads as `undefined`. The only thing read next, `.message`, is `undefined` either way.
- `Route.Post`: a status outside 200-599 passed back from upstream would make `NextResponse.json` itself throw. The model passes every status through.
- Message ids and timestamps depend on the clock (`Date.now()`) and are not modelled, so nothing about their uniqueness is claimed.
- The rendering is not modelled: the JSX, scrolling, `handleCopyAddress`, `handleConnect`, `switchToChain`, `alert`, `window.location.reload` and `page.tsx`/`layout.tsx`.
- The `setTimeout` three seconds after a success is not modelled (SimpleChat.tsx:213-216). When it fires, it turns execution off and clears the pending intent. That clears any intent recognised in those three seconds, and turns off any execution started in that window. The model's steps never see that late reset.
- React's asynchronous interleaving is not modelled. Each handler is one atomic step, so the "already loading" guard of `Chat.Send` can only fire on a state built by hand.
- `Chat.Confirm`: the thrown explorer-lookup error is modelled with the message for an unknown chain key. For a key that names an `Object.prototype` member, such as `toString`, the real message reads `'0'` instead of `'blockExplorerUrls'`.
- `Chat.Confirm`: a value thrown by `executeIntent` without a `message` is not modelled. `Chat.Execution` always carries a message string. `executeIntent` itself lives in lib/blockchain, which is not part of this model.
- `Chains.Find` takes the chain configuration as a parameter. `CHAIN_CONFIGS` and lib/chains are not part of this model.
- `provider.getNetwork()` failing, which sets the chain to null, is not modelled. `Chains.CurrentChain` starts from the numeric network id.
- `Chains.ChainConfig` keeps only the key and the chain id. Each configured chain is assumed to have a `blockExplorerUrls` list, so the explorer lookup of `Chat.Confirm` throws only for a chain without a configuration. The link text is not modelled beyond its final hash abbreviation.
- `Chat.Abbreviate`: JavaScript's `slice` counts UTF-16 code units, while a Dafny `char` is a Unicode scalar value. The two differ only for a hash containing characters outside the Basic Multilingual Plane. The same holds for the indices of the regular expressions in `Extract`, which have no `u` flag.
- The `console.error` logging in each `catch` block is not modelled. It has no effect on the result.
- The provider object is reduced to whether one is held. `getSigner` and `BrowserProvider` are not modelled, and a failing `getSigner` is a `Chat.Execution` failure.
