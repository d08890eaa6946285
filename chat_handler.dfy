/**
 * `json`, `getSession` and `exports.handler` of
 * netlify/functions/chat.js: method routing, request validation and the
 * in-memory store of per-session histories.
 */
module ChatHandler {
  import opened Wrappers
  import opened JsText
  import opened ReplyGenerator

  /** The JSON object a response carries. `HealthBody(id)` is
      `{ok: true, sessionId: id}`; `EmptyObject` is `{}`. */
  datatype Body =
    | EmptyObject
    | ReplyBody(reply: string)
    | ErrorBody(error: string)
    | HealthBody(sessionId: string)

  datatype Response = Response(statusCode: nat, headers: seq<(string, string)>, body: Body)

  /** The content type and permissive CORS headers every response has. */
  const CorsHeaders: seq<(string, string)> := [
    ("Content-Type", "application/json"),
    ("Access-Control-Allow-Origin", "*"),
    ("Access-Control-Allow-Headers", "Content-Type,Authorization,X-Session-Id"),
    ("Access-Control-Allow-Methods", "GET,POST,OPTIONS")
  ]

  /** `json(res, status)`: the response envelope. */
  function Json(body: Body, status: nat := 200): (r: Response)
  {
    Response(status, CorsHeaders, body)
  }

  /** Every envelope carries the given body and status (200 unless one is
      given) and the same four headers, each named once, the content type
      being JSON and the allowed methods being the three the handler routes. */
  lemma JsonEnvelope(body: Body, status: nat)
    ensures Json(body).statusCode == 200 && Json(body).body == body
    ensures Json(body, status).statusCode == status && Json(body, status).body == body
    ensures Json(body, status).headers == Json(body).headers == CorsHeaders
    ensures forall i, j :: 0 <= i < j < |CorsHeaders| ==> CorsHeaders[i].0 != CorsHeaders[j].0
    ensures ("Content-Type", "application/json") in CorsHeaders
    ensures ("Access-Control-Allow-Methods", "GET,POST,OPTIONS") in CorsHeaders
  {
  }

  const DefaultSessionId := "demo-session"
  const LowerHeader := "x-session-id"
  const MixedHeader := "X-Session-Id"

  /** A header value is usable when present and non-empty (an empty string
      is falsy in `||`). */
  predicate HasHeader(headers: map<string, string>, name: string)
  {
    name in headers && headers[name] != ""
  }

  /** `getSession(headers)`: the `x-session-id` header, else the
      `X-Session-Id` header, else "demo-session"; never empty. */
  function SessionId(headers: map<string, string>): (id: string)
    ensures id != ""
    ensures HasHeader(headers, LowerHeader) ==> id == headers[LowerHeader]
    ensures !HasHeader(headers, LowerHeader) && HasHeader(headers, MixedHeader) ==> id == headers[MixedHeader]
    ensures id == DefaultSessionId || (LowerHeader in headers && id == headers[LowerHeader])
                                   || (MixedHeader in headers && id == headers[MixedHeader])
    ensures id == DefaultSessionId <== !HasHeader(headers, LowerHeader) && !HasHeader(headers, MixedHeader)
  {
    if HasHeader(headers, LowerHeader) then headers[LowerHeader]
    else if HasHeader(headers, MixedHeader) then headers[MixedHeader]
    else DefaultSessionId
  }

  /** The result of `JSON.parse(event.body || "{}")`: a parse failure;
      the value `null`, which destructuring `const { message }` cannot
      read; or any other value, whose `message` property is a string or
      absent. A missing or empty body reads as `{}`, and a number, string
      or boolean has no `message`; each is `Parsed(None)`. */
  datatype ParsedBody = InvalidJson | ParsedNull | Parsed(message: Option<string>)

  /** One invocation: the HTTP method, the request headers, the parsed body
      and whether the caller's client context names a user. */
  datatype Event = Event(httpMethod: string, headers: map<string, string>, body: ParsedBody, user: bool)

  /** The environment: the completion API key ("" when unset) and the
      login-enforcement switch, whose deployed value is false. */
  datatype Env = Env(apiKey: string, requireLogin: bool)

  /** `generateReply` as the handler sees it: the outcome for the history
      it is given. */
  type Generator = seq<Message> -> Generated

  /** `generateReply` for a given key and completion endpoint. */
  function GeneratorFor(apiKey: string, upstream: Api): (generate: Generator)
  {
    history => ReplyFor(apiKey, history, upstream)
  }

  /** The session store: each session id with its history. */
  type Store = map<string, seq<Message>>

  const UnauthorizedError := "Unauthorized. Please log in."
  const InvalidJsonError := "Invalid JSON body"
  const MessageRequiredError := "Message is required"
  const MethodNotAllowedError := "Method not allowed"
  const ServerError := "Server error"

  /** `!message || !String(message).trim()`. */
  predicate IsBlank(message: Option<string>)
  {
    message.None? || Trim(message.value) == ""
  }

  /** The stored history of `sid`, or a fresh empty one. */
  function HistoryOf(store: Store, sid: string): (history: seq<Message>)
  {
    if sid in store then store[sid] else []
  }

  datatype Handled = Handled(response: Response, store: Store)

  /** The body answered for a resolved `ai` (lines 112-121). The test
      `if (ai.error)` takes the error branch for a non-empty error text;
      otherwise the reply branch answers `{reply: ai.reply}`, which
      `JSON.stringify` writes as `{}` when `ai.reply` is undefined, as it is
      for an empty error text. The assistant entry then holds `undefined`,
      which the model stores as "": the only reader of a history item's
      content, the `!m.content` test, treats the two alike. */
  function Answer(r: ReplyResult): (b: Body)
    ensures b == EmptyObject <==> r.Error? && r.text == ""
    ensures b != EmptyObject ==> b == ReplyBody(r.text)
  {
    if r.Error? && r.text != "" then ReplyBody(r.text)
    else if r.Reply? then ReplyBody(r.text)
    else EmptyObject
  }

  /** The end of a turn (lines 109-121 and 125-127) once `generateReply`
      has been given `pushed`, the history with the user entry on it, and
      has come to `ai`: a reply or an error text is pushed as the assistant
      entry and the history is stored. When `generateReply` throws, the
      user entry is already in the stored array if the session existed,
      while a history created for this call is never stored. */
  function Settle(store: Store, sid: string, pushed: seq<Message>, ai: Generated): (h: Handled)
  {
    match ai
    case Threw =>
      Handled(Json(ErrorBody(ServerError), 500), if sid in store then store[sid := pushed] else store)
    case Returned(r) =>
      Handled(Json(Answer(r)), store[sid := pushed + [Message(Assistant, r.text)]])
  }

  /** The turn of lines 106-121 for a non-blank message: push the user
      entry, call `generateReply` on the history and settle the outcome. */
  function TurnSpec(store: Store, sid: string, message: string, generate: Generator): (h: Handled)
  {
    var pushed := HistoryOf(store, sid) + [Message(User, message)];
    Settle(store, sid, pushed, generate(pushed))
  }

  /** A turn is answered 200 or 500. */
  lemma TurnAnswered(store: Store, sid: string, message: string, generate: Generator)
    ensures TurnSpec(store, sid, message, generate).response.statusCode in {200, 500}
  {
  }

  /** A POST after routing (lines 93-122): the body must parse and carry a
      non-blank message. Destructuring a `null` payload throws a TypeError
      at line 101, which the outer `catch` answers 500 (lines 125-127). */
  function PostSpec(store: Store, sid: string, body: ParsedBody, generate: Generator): (h: Handled)
  {
    match body
    case InvalidJson => Handled(Json(ErrorBody(InvalidJsonError), 400), store)
    case ParsedNull => Handled(Json(ErrorBody(ServerError), 500), store)
    case Parsed(message) =>
      if IsBlank(message) then Handled(Json(ErrorBody(MessageRequiredError), 400), store)
      else TurnSpec(store, sid, message.value, generate)
  }

  /** `exports.handler(event)` as a function of the store before the call:
      the response and the store after it. */
  function HandleSpec(store: Store, event: Event, requireLogin: bool, generate: Generator): (h: Handled)
  {
    if event.httpMethod == "OPTIONS" then Handled(Json(EmptyObject), store)
    else if requireLogin && !event.user then Handled(Json(ErrorBody(UnauthorizedError), 401), store)
    else
      var sid := SessionId(event.headers);
      if event.httpMethod == "GET" then Handled(Json(HealthBody(sid)), store)
      else if event.httpMethod == "POST" then PostSpec(store, sid, event.body, generate)
      else Handled(Json(ErrorBody(MethodNotAllowedError), 405), store)
  }

  /** The module-level `conversations` map and the handler that updates it. */
  class ChatFunction {
    var conversations: Store

    constructor ()
      ensures conversations == map[]
    {
      conversations := map[];
    }

    /** `exports.handler(event)`. */
    method Handle(event: Event, env: Env, upstream: Api) returns (resp: Response)
      modifies this
      ensures Handled(resp, conversations)
              == HandleSpec(old(conversations), event, env.requireLogin, GeneratorFor(env.apiKey, upstream))
    {
      if event.httpMethod == "OPTIONS" {
        return Json(EmptyObject);
      }
      if env.requireLogin && !event.user {
        return Json(ErrorBody(UnauthorizedError), 401);
      }
      var sessionId := SessionId(event.headers);
      if event.httpMethod == "GET" {
        return Json(HealthBody(sessionId));
      }
      if event.httpMethod == "POST" {
        resp := Post(sessionId, event.body, env.apiKey, upstream);
        return;
      }
      return Json(ErrorBody(MethodNotAllowedError), 405);
    }

    /** The POST branch of the handler. */
    method Post(sessionId: string, body: ParsedBody, apiKey: string, upstream: Api) returns (resp: Response)
      modifies this
      ensures Handled(resp, conversations)
              == PostSpec(old(conversations), sessionId, body, GeneratorFor(apiKey, upstream))
    {
      if body.InvalidJson? {
        return Json(ErrorBody(InvalidJsonError), 400);
      }
      if body.ParsedNull? {
        // `const { message } = null` throws; the outer catch answers 500
        return Json(ErrorBody(ServerError), 500);
      }
      var message := body.message;
      if message.None? || Trim(message.value) == "" {
        return Json(ErrorBody(MessageRequiredError), 400);
      }
      resp := Turn(sessionId, message.value, apiKey, upstream);
    }

    /** Lines 112-121: the assistant entry pushed onto `history` and the
        history stored, for a resolved `ai`. `if (ai.error)` takes the error
        branch for a non-empty error text; otherwise `ai.reply` is pushed
        and answered, and it is undefined for an empty error text. */
    method Record(sessionId: string, history: seq<Message>, ai: ReplyResult) returns (resp: Response)
      modifies this
      ensures resp == Json(Answer(ai))
      ensures conversations == old(conversations)[sessionId := history + [Message(Assistant, ai.text)]]
    {
      if ai.Error? && ai.text != "" {
        var h := history + [Message(Assistant, ai.text)];
        conversations := conversations[sessionId := h];
        return Json(ReplyBody(ai.text));
      }
      // `ai.reply` is undefined for an empty error text
      var reply := if ai.Reply? then Some(ai.text) else None;
      var h := history + [Message(Assistant, if reply.Some? then reply.value else "")];
      conversations := conversations[sessionId := h];
      return Json(if reply.Some? then ReplyBody(reply.value) else EmptyObject);
    }

    /** One chat turn on the history of `sessionId`. */
    method Turn(sessionId: string, message: string, apiKey: string, upstream: Api) returns (resp: Response)
      modifies this
      ensures Handled(resp, conversations)
              == TurnSpec(old(conversations), sessionId, message, GeneratorFor(apiKey, upstream))
    {
      var stored := sessionId in conversations;
      var history := if stored then conversations[sessionId] else [];
      history := history + [Message(User, message)];
      ghost var before := old(conversations);
      assert history == HistoryOf(before, sessionId) + [Message(User, message)];
      if stored {
        // the pushed array is the one the map holds
        conversations := conversations[sessionId := history];
      }
      var _, ai := GenerateReply(apiKey, history, upstream);
      ghost var pushed := history;
      assert TurnSpec(before, sessionId, message, GeneratorFor(apiKey, upstream))
             == Settle(before, sessionId, pushed, ai);
      if ai.Threw? {
        return Json(ErrorBody(ServerError), 500);
      }
      ghost var mid := conversations;
      resp := Record(sessionId, history, ai.result);
      assert conversations == before[sessionId := pushed + [Message(Assistant, ai.result.text)]] by {
        assert mid == before || mid == before[sessionId := pushed];
      }
    }
  }

  // ---------------------------------------------------------------------
  // Properties of one invocation, for any `generateReply`

  /** The method and login checks pass for a non-OPTIONS request. */
  predicate Admitted(event: Event, requireLogin: bool, httpMethod: string)
  {
    event.httpMethod == httpMethod && !(requireLogin && !event.user)
  }

  /** The history `generateReply` is given for a POST: the stored one (or
      a fresh one) with the user's message pushed. */
  function PushedHistory(store: Store, event: Event): (pushed: seq<Message>)
    requires event.body.Parsed? && event.body.message.Some?
  {
    HistoryOf(store, SessionId(event.headers)) + [Message(User, event.body.message.value)]
  }

  /** A POST with a non-blank message whose reply resolves is answered 200
      with that reply (or `{}` for an empty error text) and appends exactly
      two entries to its session: the untrimmed user message and then an
      assistant entry holding exactly the text returned. No other session
      changes. */
  lemma TurnAppendsTwoEntries(store: Store, event: Event, requireLogin: bool, generate: Generator)
    requires Admitted(event, requireLogin, "POST")
    requires event.body.Parsed? && !IsBlank(event.body.message)
    requires generate(PushedHistory(store, event)).Returned?
    ensures var h, sid := HandleSpec(store, event, requireLogin, generate), SessionId(event.headers);
            var text := generate(PushedHistory(store, event)).result.text;
            && h.response == Json(Answer(generate(PushedHistory(store, event)).result))
            && (text != "" ==> h.response == Json(ReplyBody(text)))
            && h.store == store[sid := PushedHistory(store, event) + [Message(Assistant, text)]]
            && h.store.Keys == store.Keys + {sid}
            && |h.store[sid]| == |HistoryOf(store, sid)| + 2
            && h.store[sid] == HistoryOf(store, sid)
                               + [Message(User, event.body.message.value), Message(Assistant, text)]
            && (forall k :: k in store && k != sid ==> h.store[k] == store[k])
  {
    var sid, pushed := SessionId(event.headers), PushedHistory(store, event);
    var text := generate(pushed).result.text;
    assert HandleSpec(store, event, requireLogin, generate) == Settle(store, sid, pushed, generate(pushed));
    assert pushed + [Message(Assistant, text)]
           == HistoryOf(store, sid) + [Message(User, event.body.message.value), Message(Assistant, text)];
  }

  /** A POST whose body does not parse is answered 400 and changes nothing. */
  lemma InvalidJsonRejected(store: Store, event: Event, requireLogin: bool, generate: Generator)
    requires Admitted(event, requireLogin, "POST") && event.body.InvalidJson?
    ensures HandleSpec(store, event, requireLogin, generate)
            == Handled(Json(ErrorBody(InvalidJsonError), 400), store)
  {
  }

  /** A POST whose body is `null` fails destructuring and is answered 500
      "Server error" by the outer catch; nothing is stored. */
  lemma NullBodyServerError(store: Store, event: Event, requireLogin: bool, generate: Generator)
    requires Admitted(event, requireLogin, "POST") && event.body.ParsedNull?
    ensures HandleSpec(store, event, requireLogin, generate)
            == Handled(Json(ErrorBody(ServerError), 500), store)
  {
  }

  /** A POST with a missing, empty or padding-only message is answered 400
      and changes nothing; any other message is accepted. */
  lemma BlankMessageRejected(store: Store, event: Event, requireLogin: bool, generate: Generator)
    requires Admitted(event, requireLogin, "POST") && event.body.Parsed?
    ensures var message := event.body.message;
            (HandleSpec(store, event, requireLogin, generate)
               == Handled(Json(ErrorBody(MessageRequiredError), 400), store))
            <==> (message.None? || forall k :: 0 <= k < |message.value| ==> IsTrimmable(message.value[k]))
  {
    var sid, message := SessionId(event.headers), event.body.message;
    if message.Some? {
      TrimEmptyIffBlank(message.value);
    }
    if !IsBlank(message) {
      assert HandleSpec(store, event, requireLogin, generate) == TurnSpec(store, sid, message.value, generate);
      TurnAnswered(store, sid, message.value, generate);
    }
  }

  /** GET is the health check: 200 with the resolved session id, and the
      store is left alone. */
  lemma HealthCheck(store: Store, event: Event, requireLogin: bool, generate: Generator)
    requires Admitted(event, requireLogin, "GET")
    ensures HandleSpec(store, event, requireLogin, generate)
            == Handled(Json(HealthBody(SessionId(event.headers))), store)
  {
  }

  /** OPTIONS is answered 200 with `{}` before any other check. */
  lemma Preflight(store: Store, event: Event, requireLogin: bool, generate: Generator)
    requires event.httpMethod == "OPTIONS"
    ensures HandleSpec(store, event, requireLogin, generate) == Handled(Json(EmptyObject), store)
  {
  }

  /** With login enforced, a caller without a user is refused with 401
      before anything else but OPTIONS. */
  lemma LoginRequired(store: Store, event: Event, generate: Generator)
    requires event.httpMethod != "OPTIONS" && !event.user
    ensures HandleSpec(store, event, true, generate)
            == Handled(Json(ErrorBody(UnauthorizedError), 401), store)
  {
  }

  /** Any method but OPTIONS, GET and POST is answered 405. */
  lemma OtherMethodsRejected(store: Store, event: Event, requireLogin: bool, generate: Generator)
    requires event.httpMethod !in {"OPTIONS", "GET", "POST"}
    requires !(requireLogin && !event.user)
    ensures HandleSpec(store, event, requireLogin, generate)
            == Handled(Json(ErrorBody(MethodNotAllowedError), 405), store)
  {
  }

  /** When `generateReply` throws, the answer is 500; an existing session
      keeps the user entry pushed before the call, and a new session is not
      stored. */
  lemma ServerErrorKeepsUserEntry(store: Store, event: Event, requireLogin: bool, generate: Generator)
    requires Admitted(event, requireLogin, "POST")
    requires event.body.Parsed? && !IsBlank(event.body.message)
    requires generate(PushedHistory(store, event)).Threw?
    ensures var h, sid := HandleSpec(store, event, requireLogin, generate), SessionId(event.headers);
            && h.response == Json(ErrorBody(ServerError), 500)
            && (sid in store ==> h.store == store[sid := PushedHistory(store, event)])
            && (sid !in store ==> h.store == store)
  {
    var sid, pushed := SessionId(event.headers), PushedHistory(store, event);
    assert HandleSpec(store, event, requireLogin, generate) == Settle(store, sid, pushed, generate(pushed));
  }

  /** Every response carries the CORS headers and one of five statuses; an
      answer 400, 401 or 405 never changes the store, and the store changes
      only for an admitted POST with a non-blank message, and then only by
      appending to that request's session. */
  lemma EveryResponse(store: Store, event: Event, requireLogin: bool, generate: Generator)
    ensures var h, sid := HandleSpec(store, event, requireLogin, generate), SessionId(event.headers);
            && h.response.headers == CorsHeaders
            && h.response.statusCode in {200, 400, 401, 405, 500}
            && (h.response.statusCode in {400, 401, 405} ==> h.store == store)
            && (h.store != store ==> Admitted(event, requireLogin, "POST") && event.body.Parsed?
                                     && !IsBlank(event.body.message))
            && store.Keys <= h.store.Keys <= store.Keys + {sid}
            && (forall k :: k in store && k != sid ==> h.store[k] == store[k])
            && (sid in h.store ==> HistoryOf(store, sid) <= h.store[sid])
  {
    if Admitted(event, requireLogin, "POST") && event.body.Parsed? && !IsBlank(event.body.message) {
      var sid := SessionId(event.headers);
      var pushed := PushedHistory(store, event);
      assert HistoryOf(store, sid) <= pushed;
      match generate(pushed)
      case Threw =>
        ServerErrorKeepsUserEntry(store, event, requireLogin, generate);
      case Returned(ai) =>
        TurnAppendsTwoEntries(store, event, requireLogin, generate);
        assert HistoryOf(store, sid) <= pushed + [Message(Assistant, ai.text)];
    } else if Admitted(event, requireLogin, "POST") && event.body.Parsed? {
      BlankMessageRejected(store, event, requireLogin, generate);
    }
  }

  // ---------------------------------------------------------------------
  // With the actual `generateReply`

  /** Every reply the handler sends is non-empty, so the assistant entry it
      stores qualifies for later context windows. */
  lemma StoredReplyNonEmpty(store: Store, event: Event, env: Env, upstream: Api)
    ensures var h := HandleSpec(store, event, env.requireLogin, GeneratorFor(env.apiKey, upstream));
            h.response.body.ReplyBody? ==> h.response.body.reply != ""
    ensures var h, sid := HandleSpec(store, event, env.requireLogin, GeneratorFor(env.apiKey, upstream)),
                          SessionId(event.headers);
            h.response.body.ReplyBody? ==>
              && sid in h.store && |h.store[sid]| > 0
              && h.store[sid][|h.store[sid]| - 1] == Message(Assistant, h.response.body.reply)
              && Qualifies(h.store[sid][|h.store[sid]| - 1])
  {
    var generate := GeneratorFor(env.apiKey, upstream);
    var h := HandleSpec(store, event, env.requireLogin, generate);
    if Admitted(event, env.requireLogin, "POST") && event.body.Parsed? && !IsBlank(event.body.message) {
      var pushed := PushedHistory(store, event);
      ResultTextNonEmpty(env.apiKey, pushed, upstream);
      assert h == Settle(store, SessionId(event.headers), pushed, ReplyFor(env.apiKey, pushed, upstream));
      if generate(pushed).Returned? {
        TurnAppendsTwoEntries(store, event, env.requireLogin, generate);
      }
    } else {
      EveryResponse(store, event, env.requireLogin, generate);
      assert !h.response.body.ReplyBody?;
    }
  }

  // ---------------------------------------------------------------------
  // Properties of a sequence of invocations

  /** The store after handling `events` in order, the `i`-th invocation's
      `generateReply` being `gens[i]`: each call to the endpoint may answer
      differently, even for the same window. */
  function Run(store: Store, events: seq<Event>, requireLogin: bool, gens: seq<Generator>): (after: Store)
    requires |gens| == |events|
    decreases |events|
  {
    if |events| == 0 then store
    else Run(HandleSpec(store, events[0], requireLogin, gens[0]).store, events[1..], requireLogin, gens[1..])
  }

  /** Sessions are never removed and histories are append-only: whatever a
      session held before a run is a prefix of what it holds after. */
  lemma {:induction false} RunIsAppendOnly(store: Store, events: seq<Event>, requireLogin: bool, gens: seq<Generator>)
    requires |gens| == |events|
    ensures var after := Run(store, events, requireLogin, gens);
            && store.Keys <= after.Keys
            && forall k :: k in store ==> store[k] <= after[k]
    decreases |events|
  {
    if events != [] {
      var next := HandleSpec(store, events[0], requireLogin, gens[0]).store;
      EveryResponse(store, events[0], requireLogin, gens[0]);
      RunIsAppendOnly(next, events[1..], requireLogin, gens[1..]);
    }
  }

  /** Without a key, a POST of any non-blank message (say "hello") to a
      fresh store is answered with the configuration error as its reply
      and stores the two entries under the default session, and a GET for
      that session that follows is answered as if nothing had happened. */
  lemma MissingKeyTurnThenHealthCheck(message: string, upstream: Api)
    requires Trim(message) != ""
    ensures var generate := GeneratorFor("", upstream);
            var post := Event("POST", map[], Parsed(Some(message)), false);
            var get := Event("GET", map[], Parsed(None), false);
            var first := HandleSpec(map[], post, false, generate);
            && first.response == Json(ReplyBody(MissingKeyError))
            && first.store == map[DefaultSessionId := [Message(User, message), Message(Assistant, MissingKeyError)]]
            && HandleSpec(first.store, get, false, generate)
               == Handled(Json(HealthBody(DefaultSessionId)), first.store)
  {
    var generate := GeneratorFor("", upstream);
    var post := Event("POST", map[], Parsed(Some(message)), false);
    var get := Event("GET", map[], Parsed(None), false);
    var store: Store := map[];
    var pushed := [Message(User, message)];
    assert SessionId(map[]) == DefaultSessionId;
    assert HistoryOf(store, DefaultSessionId) + [Message(User, message)] == pushed;
    assert generate(pushed) == Returned(Error(MissingKeyError));
    var first := HandleSpec(store, post, false, generate);
    assert first == TurnSpec(store, DefaultSessionId, message, generate);
    assert pushed + [Message(Assistant, MissingKeyError)]
           == [Message(User, message), Message(Assistant, MissingKeyError)];
    HealthCheck(first.store, get, false, generate);
  }
}
