# Chat relay function, modelled in Dafny

This project models the serverless chat relay `netlify/functions/chat.js`.
It is a Netlify function that stores a browser session's chat history in
memory and forwards the recent part of that history to the OpenAI chat
completions endpoint. Each reply, or an error text in its place, is
appended to the history. The model covers:

- `json`, the response envelope: a status, four fixed CORS and content-type headers, and a JSON body, modelled as a datatype.
- `getSession`: the session id is the `x-session-id` header, else the `X-Session-Id` header, else `"demo-session"`.
- `generateReply`, in two parts:
  - The context window: a fixed system prompt, then those of the last eight history items that are user or assistant turns with text, in their order. This is a loop-based method, `BuildChatMessages`, proved equal to a pure function, `ChatWindow`.
  - The mapping of the upstream outcome to exactly one of a reply or an error text. The outcomes are: no key, a non-2xx answer with its body, a 2xx answer with its content, or an exception.
- `exports.handler`: a class `ChatFunction` whose field `conversations` is the module-level `Map` from session ids to histories. Its method `Handle` routes on the HTTP method, validates the body and the message, and pushes the user and assistant entries. Each of `Handle`, `Post` and `Turn` is proved equal to a pure specification of the whole call (`HandleSpec`, `PostSpec`, `TurnSpec`). That specification gives the response and the new store as functions of the old store.

The modules are:

- `Wrappers`: `Option`.
- `JsText`: the JavaScript built-ins the code relies on. These are `String.prototype.trim`, `slice(0, n)`, `slice(-n)` and the decimal rendering of a status code.
- `ReplyGenerator`: `generateReply`.
- `ChatHandler`: `json`, `getSession` and the handler.

The lemmas in `ChatHandler` come in two kinds. Most hold for any `generateReply`, passed in as a `Generator`. The others use the actual one (`GeneratorFor`). A generic generator may resolve to an empty error text, which the actual one never does (`ResultTextNonEmpty`). For such a result, the `if (ai.error)` test at line 112 is false, so the handler answers `{}`, because `ai.reply` is undefined. `Answer` models that case.

Inputs the code reads from its environment are parameters:

- The completion endpoint is a function `Api` from the chat messages sent to an `Upstream` outcome.
- `JSON.parse(event.body || "{}")` is a `ParsedBody`, one of three cases:
  - A parse failure.
  - The value `null`. Destructuring `const { message }` of `null` throws at line 101, and the outer `catch` answers 500.
  - Any other value, whose `message` property is a string or absent, as for `{}`, a number, a string or a boolean.
- `process.env.OPENAI_API_KEY` is `Env.apiKey`, with `""` when unset.
- The `REQUIRE_LOGIN` constant is `Env.requireLogin`. Its deployed value is false, which makes the 401 branch unreachable in the deployed code.
- The presence of `event.clientContext.user` is `Event.user`.

Three points of behaviour follow the code exactly:

- A history that already exists receives the user entry in place before `generateReply` runs (line 107). So when `generateReply` throws, an existing session keeps that entry, while a new session is never stored. The model writes the extended history back into the map at that point.
- A 2xx content made only of padding is not an error. `content.trim()` is empty, so the `|| content` fallback at line 65 returns the content untrimmed as the reply (`OkAnswer`).
- Slicing happens before filtering. Fewer than eight items may be sent even when older qualifying items exist (`SliceBeforeFilter`, `WindowIgnoresOlder`).

## Model

The specification functions `Keep`, `ChatWindow`, `UpstreamError`, `Interpret`, `ReplyFor`, `Trim`, `Json`, `IsBlank`, `HistoryOf`, `Settle`, `TurnSpec`, `PostSpec` and `HandleSpec` have no rows of their own. Each is the subject of the lemma and method rows that name it: `ChatWindow` and `Keep` of `WindowShape`, `KeepSelects` and `BuildChatMessages`; `UpstreamError` of `UpstreamErrorShape`; `Interpret` and `ReplyFor` of `OkAnswer`, `ResultTextNonEmpty` and `GenerateReply`; `Trim` of the `JsText` trim lemmas; `Json` of `JsonEnvelope`; and the rest of the `ChatHandler` lemmas and the `ChatFunction` methods.

| member | source | states |
|---|---|---|
| JsText.TrimStartDropsPadding | netlify/functions/chat.js:102 | Removing leading padding keeps a suffix. The suffix does not start with padding, and everything dropped is padding. |
| JsText.TrimEndDropsPadding | netlify/functions/chat.js:102 | Removing trailing padding keeps a prefix. The prefix does not end with padding, and everything dropped is padding. |
| JsText.TrimIsInfix | netlify/functions/chat.js:102 | `trim()` keeps a single contiguous infix of the string and drops only padding on either side of it. |
| JsText.TrimEnds | netlify/functions/chat.js:64 | A trimmed string is empty, or it neither starts nor ends with padding. |
| JsText.TrimEmptyIffBlank | netlify/functions/chat.js:102 | `trim()` gives the empty string exactly when every character is padding, in both directions. |
| JsText.Take | netlify/functions/chat.js:59 | `slice(0, n)` has length `min(n, len)` and is a prefix of its input. |
| JsText.TakeLast | netlify/functions/chat.js:34 | `slice(-n)` has length `min(n, len)` and is a suffix of its input; as in JavaScript, `n == 0` is `slice(-0)`, which is the whole input. |
| JsText.Decimal | netlify/functions/chat.js:59 | The rendered status is non-empty, all digits, and has no leading zero unless it is 0. |
| JsText.DecimalRoundTrip | netlify/functions/chat.js:59 | Reading back the decimal rendering of a status gives the status. |
| JsText.DecimalInjective | netlify/functions/chat.js:59 | Distinct statuses render differently. |
| ReplyGenerator.KeepQualifies | netlify/functions/chat.js:35-38 | The filter keeps only user or assistant items with non-empty content, and never more items than it is given. |
| ReplyGenerator.KeepSelects | netlify/functions/chat.js:34-38 | The filter is an order-preserving selection of exactly the qualifying items. Each kept item is the item at a strictly increasing source position, and every qualifying position is kept. |
| ReplyGenerator.KeepAppend | netlify/functions/chat.js:34-38 | The filter judges each item on its own: filtering a concatenation concatenates the filtered parts. |
| ReplyGenerator.KeepAllQualifying | netlify/functions/chat.js:35-38 | A history whose items all qualify passes the filter whole. |
| ReplyGenerator.WindowShape | netlify/functions/chat.js:30-39 | The window starts with exactly one system message holding the fixed prompt, and has at most nine messages. Every later message is a user or assistant message with text. Together those messages are the qualifying items of the last eight history items, in order, with none dropped. |
| ReplyGenerator.WindowIgnoresOlder | netlify/functions/chat.js:34 | Items before the last eight never influence the window. |
| ReplyGenerator.SliceBeforeFilter | netlify/functions/chat.js:34-38 | Slicing comes before filtering. One qualifying item followed by eight empty items leaves only the system prompt. |
| ReplyGenerator.BuildChatMessages | netlify/functions/chat.js:30-39 | The pushing loop over `messages.slice(-8)`, with its `continue` on empty content, builds exactly `ChatWindow(messages)`. |
| ReplyGenerator.UpstreamErrorShape | netlify/functions/chat.js:55-60 | A non-2xx error text is `"OpenAI error "`, then the status in decimal, then `": "`, then exactly the first `min(500, length)` characters of the body. Nothing else is in it. |
| ReplyGenerator.UpstreamErrorInjective | netlify/functions/chat.js:59 | Two non-2xx error texts are equal only when the statuses are equal and the first 500 body characters are equal. |
| ReplyGenerator.ContentText | netlify/functions/chat.js:62-66 | The reply text is empty exactly when the content is absent or empty. Otherwise it is the trimmed content, or the content itself when trimming leaves nothing. |
| ReplyGenerator.MissingKeyIgnoresUpstream | netlify/functions/chat.js:25-27 | Without a key, the result is the fixed configuration error, whatever the endpoint would have answered. |
| ReplyGenerator.ResultTextNonEmpty | netlify/functions/chat.js:23-73 | Every resolved result, reply or error, carries a non-empty text. So the truthiness test on `ai.error` separates errors from replies exactly. |
| ReplyGenerator.OkAnswer | netlify/functions/chat.js:62-72 | A 2xx answer always resolves. It is a reply exactly when the content is present and non-empty. The reply is the trimmed content when that is non-empty, and the untrimmed content when it is padding only. An absent or empty content gives the empty-message error. |
| ReplyGenerator.GenerateReply | netlify/functions/chat.js:23-73 | No request is made exactly when the key is missing. When a request is made, it carries the context window of the history. The result is the mapping of the endpoint's answer, or the configuration error without a key. |
| ChatHandler.JsonEnvelope | netlify/functions/chat.js:4-15 | The envelope carries the given body and status, 200 when none is given. It always has the same four headers, each named once. The content type is JSON and the allowed methods are GET, POST and OPTIONS. |
| ChatHandler.Answer | netlify/functions/chat.js:112-121 | The `if (ai.error)` test applied to a resolved result. The body is `{}` exactly when the result is an empty error text, for which `ai.reply` is undefined. Otherwise the body is the reply carrying the result's text. |
| ChatHandler.SessionId | netlify/functions/chat.js:19-21 | The session id is never empty. A non-empty `x-session-id` header wins, a non-empty `X-Session-Id` header comes next, and otherwise the id is `"demo-session"`. |
| ChatHandler.TurnAnswered | netlify/functions/chat.js:109-127 | A turn with a non-blank message is always answered 200 or 500. |
| ChatHandler.TurnAppendsTwoEntries | netlify/functions/chat.js:106-121 | A POST with a non-blank message that resolves is answered 200 with the body `Answer` gives, which is the returned text whenever that text is non-empty. It appends exactly two entries to that session: the untrimmed user message, then an assistant entry holding exactly that text. The session is created if it is new, and no other session changes. |
| ChatHandler.InvalidJsonRejected | netlify/functions/chat.js:94-99 | A POST whose body cannot be parsed is answered 400 `"Invalid JSON body"` and leaves the store unchanged. |
| ChatHandler.NullBodyServerError | netlify/functions/chat.js:101 | A POST whose body parses to `null` fails the destructuring and is answered 500 `"Server error"` by the catch at lines 125-127. The store is unchanged. |
| ChatHandler.BlankMessageRejected | netlify/functions/chat.js:101-104 | A parsed POST is answered 400 `"Message is required"` with the store unchanged exactly when the message is absent or all padding. |
| ChatHandler.HealthCheck | netlify/functions/chat.js:86-91 | A GET is answered 200 with the resolved session id and leaves the store unchanged. |
| ChatHandler.Preflight | netlify/functions/chat.js:76 | OPTIONS is answered 200 with `{}` before any other check, and the store is unchanged. |
| ChatHandler.LoginRequired | netlify/functions/chat.js:80-84 | With login enforced, a caller without a user is refused with 401 before anything else except OPTIONS. |
| ChatHandler.OtherMethodsRejected | netlify/functions/chat.js:124 | Any admitted method other than OPTIONS, GET or POST is answered 405 `"Method not allowed"`, and the store is unchanged. |
| ChatHandler.ServerErrorKeepsUserEntry | netlify/functions/chat.js:106-127 | When `generateReply` throws, the answer is 500 `"Server error"`. An existing session keeps the user entry pushed in place, and a new session is not stored. |
| ChatHandler.EveryResponse | netlify/functions/chat.js:75-129 | Every response carries the four fixed headers and one of the statuses 200, 400, 401, 405 or 500. Answers 400, 401 and 405 never change the store. The store changes only for an admitted POST with a non-blank message, and then only in that request's session, whose old history stays a prefix. |
| ChatHandler.StoredReplyNonEmpty | netlify/functions/chat.js:109-121 | With the actual `generateReply`, every reply the handler sends is non-empty. The last entry of that session's stored history is the assistant message carrying the reply, and it qualifies for later windows. |
| ChatHandler.RunIsAppendOnly | netlify/functions/chat.js:17 | Over any sequence of invocations, no session is ever removed and every history is append-only: each earlier history is a prefix of the later one. Each invocation has its own `generateReply` (`gens[i]` for the `i`-th event), so the upstream may answer every call differently. |
| ChatHandler.MissingKeyTurnThenHealthCheck | netlify/functions/chat.js:75-129 | Without a key, a POST of a non-blank message to a fresh store is answered with the configuration error as its reply, and stores the user and assistant entries under `"demo-session"`. A following GET is answered with that session id and changes nothing. |
| ChatHandler.ChatFunction.constructor | netlify/functions/chat.js:17 | The store starts empty. |
| ChatHandler.ChatFunction.Handle | netlify/functions/chat.js:75-129 | The response and the new `conversations` are exactly those of `HandleSpec` on the old `conversations`. |
| ChatHandler.ChatFunction.Post | netlify/functions/chat.js:93-122 | The POST branch's response and new `conversations` are exactly those of `PostSpec`. |
| ChatHandler.ChatFunction.Record | netlify/functions/chat.js:112-121 | After a resolved `generateReply`, the response is `json` of the answer (`{ reply }`, or `{}` for an empty error text), and the session's history is set to the pushed history plus the assistant entry. |
| ChatHandler.ChatFunction.Turn | netlify/functions/chat.js:106-121 | The in-place push, the call, the second push and the `set` give exactly the response and store of `TurnSpec`. That includes the existing session keeping the user entry when the call throws. |

## Left out

- `frontend/src/App.jsx`, the user interface, is not part of this model.
- The HTTP request to the completion endpoint is the `Api` parameter. This covers `fetch`, `resp.text()` and `resp.json()`, and the request's model name, temperature and authorization header. A rejected promise or an unparsable 2xx body is the `Throws` outcome.
- `JSON.parse` and `JSON.stringify` are not modelled. The parsed request body is a `ParsedBody` input, and the response body is the `Body` datatype.
- `Date.now()` timestamps on history entries are left out, because nothing reads them.
- `console.error` logging is left out, because it has no effect on results.
- Concurrent invocations sharing one `Map` are left out. The model is the sequential, per-call semantics, and several calls are composed with `Run`.
- Strings are sequences of Unicode scalar values. JavaScript counts UTF-16 code units in `slice(0, 500)`, so a body holding characters outside the Basic Multilingual Plane can be cut at a different place. `trim()` is unaffected, because every character it strips lies in that plane.
- A request `message` that is a truthy non-string JSON value whose `String()` is not blank is not represented. Examples are `5`, `true`, `[1]` and `{}`. The code stores such a value raw, and sends it on as content. The other non-string values already behave as an absent message (`Parsed(None)`): `0`, `false` and `null` fail `!message`, and values such as `[]` have a blank `String()`. Either way the answer is 400.
- A 2xx `content` that is a truthy non-string JSON value is not represented. Examples are a non-zero number, `true`, an object and an array (even an empty one). It has no `trim` method, so the `|| content` fallback returns it raw as the reply. A falsy one (`0`, `false` or `null`) falls through to `""` and gives "OpenAI returned an empty message.", exactly as an absent content (`Ok(None)`) does.
- The `!m` test for null history items is not modelled, because the handler only ever stores objects.
- Answer: when a resolved result is an empty error text, the source pushes an assistant entry whose `content` is `undefined`. The model stores `""` in its place. Both fail the `!m.content` test, so later windows are the same. The actual `generateReply` never produces such a result (`ResultTextNonEmpty`).
- The in-place `history.push` into the array held by the map is modelled by writing the extended history back into the map. The model holds no aliased array.
