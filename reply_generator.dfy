/**
 * `generateReply` of netlify/functions/chat.js: the context window sent
 * upstream (a fixed system prompt, then the qualifying entries among the
 * last eight history items) and the mapping of the upstream outcome to a
 * reply or an error text.
 */
module ReplyGenerator {
  import opened Wrappers
  import opened JsText

  datatype Role = System | User | Assistant

  /** A history item or a chat message: a role and its text. (History
      items also carry a timestamp, which nothing reads.) */
  datatype Message = Message(role: Role, content: string)

  const SystemPrompt := "You are a concise, helpful assistant."

  /** How many of the most recent history items are considered. */
  const WindowSize: nat := 8

  const SystemMessage := Message(System, SystemPrompt)

  /** An item is sent upstream when it has text and is a user or an
      assistant turn. */
  predicate Qualifies(m: Message)
  {
    m.content != "" && (m.role == User || m.role == Assistant)
  }

  /** The qualifying items of `s`, in their order. */
  function Keep(s: seq<Message>): (kept: seq<Message>)
  {
    if |s| == 0 then []
    else Keep(s[..|s| - 1]) + (if Qualifies(s[|s| - 1]) then [s[|s| - 1]] else [])
  }

  /** The chat messages sent upstream for `history`. The slice comes first
      and the filter second, so fewer than eight items may be sent even
      when older qualifying items exist. */
  function ChatWindow(history: seq<Message>): (window: seq<Message>)
  {
    [SystemMessage] + Keep(TakeLast(history, WindowSize))
  }

  ghost predicate StrictlyIncreasing(idx: seq<nat>)
  {
    forall i, j :: 0 <= i < j < |idx| ==> idx[i] < idx[j]
  }

  /** `kept` is an order-preserving selection of exactly the qualifying
      items of `s`: `idx` gives, for each kept message, the position it
      came from, and every qualifying position of `s` appears in `idx`. */
  ghost predicate SelectsQualifying(idx: seq<nat>, kept: seq<Message>, s: seq<Message>)
  {
    && |idx| == |kept|
    && StrictlyIncreasing(idx)
    && (forall i :: 0 <= i < |idx| ==> idx[i] < |s| && kept[i] == s[idx[i]])
    && (forall j :: 0 <= j < |s| && Qualifies(s[j]) ==> j in idx)
  }

  /** Keep retains only qualifying items and never more than it is given. */
  lemma {:induction false} KeepQualifies(s: seq<Message>)
    ensures |Keep(s)| <= |s|
    ensures forall i :: 0 <= i < |Keep(s)| ==> Qualifies(Keep(s)[i])
  {
    if s != [] {
      KeepQualifies(s[..|s| - 1]);
    }
  }

  /** Keep is the order-preserving selection of the qualifying items. */
  lemma {:induction false} KeepSelects(s: seq<Message>) returns (idx: seq<nat>)
    ensures SelectsQualifying(idx, Keep(s), s)
  {
    if |s| == 0 {
      return [];
    }
    var init, m := s[..|s| - 1], s[|s| - 1];
    var prev := KeepSelects(init);
    assert s == init + [m];
    idx := SelectsSnoc(prev, Keep(init), init, m);
    assert Keep(s) == Keep(init) + if Qualifies(m) then [m] else [];
  }

  /** Appending one item to the selected sequence extends a selection by
      its position exactly when it qualifies. */
  lemma SelectsSnoc(prev: seq<nat>, kept: seq<Message>, init: seq<Message>, m: Message) returns (idx: seq<nat>)
    requires SelectsQualifying(prev, kept, init)
    ensures SelectsQualifying(idx, kept + if Qualifies(m) then [m] else [], init + [m])
  {
    if Qualifies(m) {
      idx := prev + [|init|];
      SelectsTake(prev, kept, init, m);
    } else {
      idx := prev;
      SelectsSkip(prev, kept, init, m);
    }
  }

  lemma SelectsTake(prev: seq<nat>, kept: seq<Message>, init: seq<Message>, m: Message)
    requires SelectsQualifying(prev, kept, init)
    ensures SelectsQualifying(prev + [|init|], kept + [m], init + [m])
  {
    var s, idx, kept' := init + [m], prev + [|init|], kept + [m];
    assert forall i :: 0 <= i < |prev| ==> idx[i] == prev[i] && kept'[i] == kept[i] && s[prev[i]] == init[prev[i]];
    assert StrictlyIncreasing(idx);
    forall j | 0 <= j < |s| && Qualifies(s[j]) ensures j in idx {
      if j < |init| {
        assert init[j] == s[j];
      } else {
        assert idx[|prev|] == j;
      }
    }
  }

  lemma SelectsSkip(prev: seq<nat>, kept: seq<Message>, init: seq<Message>, m: Message)
    requires SelectsQualifying(prev, kept, init) && !Qualifies(m)
    ensures SelectsQualifying(prev, kept, init + [m])
  {
    var s := init + [m];
    assert forall i :: 0 <= i < |prev| ==> s[prev[i]] == init[prev[i]];
    forall j | 0 <= j < |s| && Qualifies(s[j]) ensures j in prev {
      assert j < |init| && init[j] == s[j];
    }
  }

  /** Keep distributes over concatenation: it looks at each item alone. */
  lemma {:induction false} KeepAppend(a: seq<Message>, b: seq<Message>)
    ensures Keep(a + b) == Keep(a) + Keep(b)
  {
    if b == [] {
      assert a + b == a;
    } else {
      var b' := b[..|b| - 1];
      KeepAppend(a, b');
      assert (a + b)[..|a + b| - 1] == a + b';
    }
  }

  /** A history whose items all qualify is kept whole. */
  lemma {:induction false} KeepAllQualifying(s: seq<Message>)
    requires forall i :: 0 <= i < |s| ==> Qualifies(s[i])
    ensures Keep(s) == s
  {
    if s != [] {
      KeepAllQualifying(s[..|s| - 1]);
    }
  }

  /** The window opens with the one system message and holds at most
      nine messages; every later message is a user or assistant message
      with text, and together they are the qualifying items among the last
      eight of `history`, in their order, none of them dropped. */
  lemma WindowShape(history: seq<Message>) returns (idx: seq<nat>)
    ensures var w := ChatWindow(history);
            && 1 <= |w| <= WindowSize + 1
            && w[0] == SystemMessage
            && (forall i :: 1 <= i < |w| ==> w[i].role != System && Qualifies(w[i]))
            && SelectsQualifying(idx, w[1..], TakeLast(history, WindowSize))
  {
    var recent := TakeLast(history, WindowSize);
    KeepQualifies(recent);
    idx := KeepSelects(recent);
    assert ChatWindow(history)[1..] == Keep(recent);
  }

  /** Items older than the last eight are never resent. */
  lemma WindowIgnoresOlder(older: seq<Message>, recent: seq<Message>)
    requires |recent| >= WindowSize
    ensures ChatWindow(older + recent) == ChatWindow(recent)
  {
    assert TakeLast(older + recent, WindowSize) == TakeLast(recent, WindowSize);
  }

  /** Filtering after slicing: one qualifying item followed by eight empty
      ones leaves only the system prompt, though the old item qualifies. */
  lemma SliceBeforeFilter()
    ensures var blank := Message(User, "");
            var h := [Message(User, "hello")] + [blank, blank, blank, blank, blank, blank, blank, blank];
            Qualifies(h[0]) && ChatWindow(h) == [SystemMessage]
  {
    var blank := Message(User, "");
    var h := [Message(User, "hello")] + [blank, blank, blank, blank, blank, blank, blank, blank];
    var recent := [blank, blank, blank, blank, blank, blank, blank, blank];
    assert TakeLast(h, WindowSize) == recent;
    KeepAppend([blank, blank, blank, blank], [blank, blank, blank, blank]);
    assert Keep([blank]) == [] by {
      assert [blank][..0] == [];
    }
    assert Keep([blank, blank]) == [] by {
      KeepAppend([blank], [blank]);
      assert [blank] + [blank] == [blank, blank];
    }
    assert Keep([blank, blank, blank, blank]) == [] by {
      KeepAppend([blank, blank], [blank, blank]);
      assert [blank, blank] + [blank, blank] == [blank, blank, blank, blank];
    }
    assert recent == [blank, blank, blank, blank] + [blank, blank, blank, blank];
  }

  /** Extending a prefix by one item extends its selection by that item
      exactly when the item qualifies. */
  lemma KeepStep(s: seq<Message>, i: nat)
    requires i < |s|
    ensures Keep(s[..i + 1]) == Keep(s[..i]) + if Qualifies(s[i]) then [s[i]] else []
  {
    assert s[..i + 1][..i] == s[..i];
  }

  /** The loop of `generateReply` that fills `chatMsgs`: the system prompt
      first, then each qualifying item of `messages.slice(-8)`. */
  method BuildChatMessages(messages: seq<Message>) returns (chatMsgs: seq<Message>)
    ensures chatMsgs == ChatWindow(messages)
  {
    chatMsgs := [SystemMessage];
    var recent := TakeLast(messages, WindowSize);
    for i := 0 to |recent|
      invariant chatMsgs == [SystemMessage] + Keep(recent[..i])
    {
      var m := recent[i];
      KeepStep(recent, i);
      if m.content == "" {
        continue;
      }
      if m.role == User || m.role == Assistant {
        chatMsgs := chatMsgs + [Message(m.role, m.content)];
      }
    }
    assert recent[..|recent|] == recent;
    assert ChatWindow(messages) == [SystemMessage] + Keep(recent);
  }

  // ---------------------------------------------------------------------
  // Mapping the upstream outcome

  const MissingKeyError := "Missing OPENAI_API_KEY on server (Netlify \U{2192} Environment variables)."
  const EmptyMessageError := "OpenAI returned an empty message."

  /** How many characters of a failing response body are quoted. */
  const ErrorBodyLimit: nat := 500

  /** What `generateReply` resolves to: exactly one of a reply or an error. */
  datatype ReplyResult = Reply(text: string) | Error(text: string)

  /** What the completion endpoint does with one request: answers with a
      non-2xx status and a body text, answers 2xx with a parsed first-choice
      message content (absent when the path `choices[0].message.content`
      is missing), or fails so that an exception escapes (`fetch` rejects,
      or a body cannot be read or parsed). */
  datatype Upstream = NotOk(status: nat, body: string) | Ok(content: Option<string>) | Throws

  /** `generateReply` either resolves or rejects. */
  datatype Generated = Returned(result: ReplyResult) | Threw

  /** The completion endpoint, as a function of the chat messages sent. */
  type Api = seq<Message> -> Upstream

  /** The error text for a non-2xx answer. */
  function UpstreamError(status: nat, body: string): (e: string)
  {
    "OpenAI error " + Decimal(status) + ": " + Take(body, ErrorBodyLimit)
  }

  /** The error text holds the status in decimal and exactly the first
      `min(500, |body|)` characters of the body, and nothing else. */
  lemma UpstreamErrorShape(status: nat, body: string)
    ensures var e, d := UpstreamError(status, body), Decimal(status);
            && e[..13] == "OpenAI error "
            && e[13..13 + |d|] == d && DecimalValue(d) == status
            && e[13 + |d|..15 + |d|] == ": "
            && |e| - 15 - |d| <= ErrorBodyLimit
            && |e| - 15 - |d| <= |body|
            && |e| - 15 - |d| == (if |body| < ErrorBodyLimit then |body| else ErrorBodyLimit)
            && e[15 + |d|..] == body[..|e| - 15 - |d|]
  {
    var e, d, t := UpstreamError(status, body), Decimal(status), Take(body, ErrorBodyLimit);
    var prefix, sep := "OpenAI error ", ": ";
    assert e == prefix + d + sep + t;
    assert |prefix| == 13 && |sep| == 2;
    assert e[..13] == prefix;
    assert e[13..13 + |d|] == d;
    assert e[13 + |d|..15 + |d|] == sep;
    assert e[15 + |d|..] == t;
    DecimalRoundTrip(status);
  }

  /** Distinct statuses, or bodies that differ within their first 500
      characters, give distinct error texts. */
  lemma {:induction false} UpstreamErrorInjective(s1: nat, b1: string, s2: nat, b2: string)
    requires UpstreamError(s1, b1) == UpstreamError(s2, b2)
    ensures s1 == s2 && Take(b1, ErrorBodyLimit) == Take(b2, ErrorBodyLimit)
  {
    var d1, d2 := Decimal(s1), Decimal(s2);
    var e := UpstreamError(s1, b1);
    assert e == "OpenAI error " + d1 + ": " + Take(b1, ErrorBodyLimit);
    assert e == "OpenAI error " + d2 + ": " + Take(b2, ErrorBodyLimit);
    assert e[13 + |d1|] == ':' && e[13 + |d2|] == ':';
    assert d1 == e[13..13 + |d1|] == d2;
    DecimalInjective(s1, s2);
    assert Take(b1, ErrorBodyLimit) == e[15 + |d1|..] == Take(b2, ErrorBodyLimit);
  }

  /** The reply text of a 2xx answer: the trimmed content, else the content
      as it is, else nothing. A content of padding alone is therefore
      returned untrimmed. */
  function ContentText(content: Option<string>): (text: string)
    ensures text == "" <==> content.None? || content.value == ""
    ensures content.Some? ==> text == Trim(content.value) || text == content.value
    ensures content.Some? && Trim(content.value) != "" ==> text == Trim(content.value)
  {
    match content
    case None => ""
    case Some(c) => if Trim(c) != "" then Trim(c) else c
  }

  /** Lines 55-72 of `generateReply`: the answer of the completion endpoint
      mapped to a result, a non-2xx answer to its error text, a 2xx answer
      to its reply or the empty-message error, and an exception escaping. */
  function Interpret(u: Upstream): (ai: Generated)
  {
    match u
    case NotOk(status, body) => Returned(Error(UpstreamError(status, body)))
    case Ok(content) =>
      var text := ContentText(content);
      if text == "" then Returned(Error(EmptyMessageError)) else Returned(Reply(text))
    case Throws => Threw
  }

  /** What `generateReply(history)` resolves to, given the key and the
      endpoint. */
  function ReplyFor(apiKey: string, history: seq<Message>, upstream: Api): (ai: Generated)
  {
    if apiKey == "" then Returned(Error(MissingKeyError))
    else Interpret(upstream(ChatWindow(history)))
  }

  /** Without a key the result is the fixed configuration error, whatever
      the endpoint would have answered. */
  lemma MissingKeyIgnoresUpstream(history: seq<Message>, u1: Api, u2: Api)
    ensures ReplyFor("", history, u1) == ReplyFor("", history, u2) == Returned(Error(MissingKeyError))
  {
  }

  /** Every result carries a non-empty text, so the truthiness test on
      `ai.error` picks out the error results exactly, and the assistant
      entry made from it qualifies for later windows. */
  lemma ResultTextNonEmpty(apiKey: string, history: seq<Message>, upstream: Api)
    ensures ReplyFor(apiKey, history, upstream).Returned? ==>
              ReplyFor(apiKey, history, upstream).result.text != ""
  {
    if apiKey != "" {
      var u := upstream(ChatWindow(history));
      assert ReplyFor(apiKey, history, upstream) == Interpret(u);
      if u.NotOk? {
        assert |UpstreamError(u.status, u.body)| >= 13;
      }
    }
  }

  /** A 2xx answer is a reply exactly when its content is non-empty, and
      the reply is then the trimmed content unless that is empty, in which
      case a content of padding alone is the reply as it came. */
  lemma OkAnswer(content: Option<string>)
    ensures Interpret(Ok(content)).Returned?
    ensures Interpret(Ok(content)).result.Reply? <==> content.Some? && content.value != ""
    ensures content.Some? && Trim(content.value) != "" ==>
              Interpret(Ok(content)) == Returned(Reply(Trim(content.value)))
    ensures (content.None? || content.value == "") ==>
              Interpret(Ok(content)) == Returned(Error(EmptyMessageError))
    ensures content.Some? && content.value != "" && Trim(content.value) == "" ==>
              Interpret(Ok(content)) == Returned(Reply(content.value))
  {
  }

  /** `generateReply(messages)`: `sent` is the request made upstream, none
      when the key is missing. */
  method GenerateReply(apiKey: string, messages: seq<Message>, upstream: Api)
    returns (sent: Option<seq<Message>>, ai: Generated)
    ensures sent.None? <==> apiKey == ""
    ensures sent.Some? ==> sent.value == ChatWindow(messages)
    ensures ai == ReplyFor(apiKey, messages, upstream)
  {
    if apiKey == "" {
      return None, Returned(Error(MissingKeyError));
    }
    var chatMsgs := BuildChatMessages(messages);
    sent := Some(chatMsgs);
    ai := Interpret(upstream(chatMsgs));
  }
}
