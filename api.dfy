/** The provider adapter (src/services/api.ts): one function per provider call,
    selected by the model's provider tag. The `fetch` itself is not modelled: a
    request is built as a value, and what comes back is an abstract `Outcome`. */
module Api {
  import opened Types

  const OpenAI := "openai"
  const Anthropic := "anthropic"
  const DeepSeek := "deepseek"
  const Moonshot := "moonshot"

  /** The provider tags `chatWithAI` routes; every other tag is rejected. */
  const SupportedProviders: set<string> := {OpenAI, Anthropic, DeepSeek, Moonshot}

  /** The output-token cap every request carries. */
  const MaxTokens: nat := 2000

  /** The sampling temperature of the chat-completions requests, kept as an exact decimal. */
  const Temperature: real := 0.7

  /** The value of the `anthropic-version` header. */
  const AnthropicVersion := "2023-06-01"

  /** The prefix of the error raised for an unknown provider tag. */
  const UnsupportedPrefix := "不支持的模型: "

  datatype Header = Header(name: string, value: string)

  /** One entry of the request's `messages` array. */
  datatype WireMessage = WireMessage(role: string, content: string)

  /** The JSON body of a request: the chat-completions shape shared by OpenAI,
      DeepSeek and Moonshot, or the Anthropic messages shape. */
  datatype Body =
    | ChatBody(model: string, messages: seq<WireMessage>, maxTokens: nat, temperature: real)
    | AnthropicBody(model: string, maxTokens: nat, messages: seq<WireMessage>, system: Option<string>)

  /** A POST request: endpoint, headers and body. */
  datatype Request = Request(url: string, headers: seq<Header>, body: Body)

  /** The parts of a 2xx reply that the handlers read: `choices[0].message.content`
      for the chat-completions shape and `content[0].text` for Anthropic. */
  datatype ChoiceMessage = ChoiceMessage(content: Option<string>)
  datatype Choice = Choice(message: Option<ChoiceMessage>)
  datatype ContentBlock = ContentBlock(text: Option<string>)
  datatype ReplyBody = ReplyBody(choices: seq<Choice>, content: seq<ContentBlock>)

  /** The part of a non-2xx reply that the handlers read: `error.message`. */
  datatype ErrorDetail = ErrorDetail(message: Option<string>)
  datatype ErrorBody = ErrorBody(error: Option<ErrorDetail>)

  /** What the network gives back for a request: a 2xx reply, a non-2xx reply,
      or a runtime error raised before a body could be used (the 30-second
      timeout, a network failure, a body that is not JSON or lacks the array
      the handler indexes), carrying that error's message. */
  datatype Outcome =
    | OkReply(reply: ReplyBody)
    | ErrorReply(failure: ErrorBody)
    | Aborted(reason: string)

  /** The errors a call can end with. */
  datatype ProviderError =
    | Unsupported(provider: string)
    | ApiError(message: string)
    | TransportError(reason: string)

  /** The `message` of the error the source throws. */
  function ErrorMessage(e: ProviderError): string
  {
    match e
    case Unsupported(p) => UnsupportedPrefix + p
    case ApiError(m) => m
    case TransportError(r) => r
  }

  predicate UsesBearer(provider: string)
  {
    provider == OpenAI || provider == DeepSeek || provider == Moonshot
  }

  function Endpoint(provider: string): string
    requires provider in SupportedProviders
  {
    if provider == OpenAI then "https://api.openai.com/v1/chat/completions"
    else if provider == Anthropic then "https://api.anthropic.com/v1/messages"
    else if provider == DeepSeek then "https://api.deepseek.com/v1/chat/completions"
    else "https://api.moonshot.cn/v1/chat/completions"
  }

  function AuthHeaders(provider: string, apiKey: string): seq<Header>
    requires provider in SupportedProviders
  {
    if provider == Anthropic then
      [Header("x-api-key", apiKey), Header("anthropic-version", AnthropicVersion),
       Header("Content-Type", "application/json")]
    else
      [Header("Authorization", "Bearer " + apiKey), Header("Content-Type", "application/json")]
  }

  /** The value of the first header called `name`, if any. */
  function HeaderValue(hs: seq<Header>, name: string): (v: Option<string>)
    ensures v.None? <==> forall i :: 0 <= i < |hs| ==> hs[i].name != name
    ensures v.Some? ==> exists i :: 0 <= i < |hs| && hs[i].name == name && hs[i].value == v.value
                                   && forall j :: 0 <= j < i ==> hs[j].name != name
  {
    if hs == [] then None
    else if hs[0].name == name then Some(hs[0].value)
    else
      var v := HeaderValue(hs[1..], name);
      assert forall i :: 1 <= i < |hs| ==> hs[i] == hs[1..][i - 1];
      v
  }

  /** The chat-completions `messages`: each message as `{role, content}`, timestamp dropped. */
  function ChatMessages(ms: seq<Message>): (ws: seq<WireMessage>)
    ensures |ws| == |ms|
    ensures forall i :: 0 <= i < |ms| ==>
      ws[i].role == RoleName(ms[i].role) && ws[i].content == ms[i].content
  {
    if ms == [] then []
    else [WireMessage(RoleName(ms[0].role), ms[0].content)] + ChatMessages(ms[1..])
  }

  /** The content of the first `system` message, if there is one. */
  function SystemPrompt(ms: seq<Message>): (s: Option<string>)
    ensures s.None? <==> forall i :: 0 <= i < |ms| ==> ms[i].role != System
    ensures s.Some? ==> exists i :: 0 <= i < |ms| && ms[i].role == System && ms[i].content == s.value
                                    && forall j :: 0 <= j < i ==> ms[j].role != System
  {
    if ms == [] then None
    else if ms[0].role == System then Some(ms[0].content)
    else
      var s := SystemPrompt(ms[1..]);
      assert forall i :: 1 <= i < |ms| ==> ms[i] == ms[1..][i - 1];
      s
  }

  /** Anthropic knows only `user` and `assistant` turns. */
  function AnthropicRole(r: Role): string
  {
    if r == Assistant then "assistant" else "user"
  }

  /** The Anthropic `messages`: the non-system messages in order, roles collapsed. */
  function AnthropicMessages(ms: seq<Message>): (ws: seq<WireMessage>)
    ensures |ws| <= |ms|
    ensures forall k :: 0 <= k < |ws| ==> ws[k].role == "user" || ws[k].role == "assistant"
    ensures (forall i :: 0 <= i < |ms| ==> ms[i].role != System) ==> ws == ChatMessages(ms)
  {
    if ms == [] then []
    else if ms[0].role == System then AnthropicMessages(ms[1..])
    else [WireMessage(AnthropicRole(ms[0].role), ms[0].content)] + AnthropicMessages(ms[1..])
  }

  /** The request the handler for `model.provider` sends, or the error for an unknown tag. */
  function BuildRequest(model: Model, apiKey: string, ms: seq<Message>): (r: Result<Request, ProviderError>)
    ensures r.Ok? <==> model.provider in SupportedProviders
    ensures r.Err? ==> r.error == Unsupported(model.provider)
    ensures r.Ok? ==> r.value.url == Endpoint(model.provider) && r.value.headers == AuthHeaders(model.provider, apiKey)
  {
    var p := model.provider;
    if p !in SupportedProviders then Err(Unsupported(p))
    else if p == Anthropic then
      Ok(Request(Endpoint(p), AuthHeaders(p, apiKey),
                 AnthropicBody(model.id, MaxTokens, AnthropicMessages(ms), SystemPrompt(ms))))
    else
      Ok(Request(Endpoint(p), AuthHeaders(p, apiKey),
                 ChatBody(model.id, ChatMessages(ms), MaxTokens, Temperature)))
  }

  /** The message thrown for a non-2xx reply that carries no usable `error.message`. */
  function Fallback(provider: string): (f: string)
    requires provider in SupportedProviders
    ensures |f| > |"API错误"| && f[|f| - |"API错误"|..] == "API错误"
  {
    if provider == OpenAI then "OpenAI API错误"
    else if provider == Anthropic then "Anthropic API错误"
    else if provider == DeepSeek then "DeepSeek API错误"
    else "Moonshot API错误"
  }

  /** `error.error?.message || fallback`. */
  function ErrorText(provider: string, body: ErrorBody): (m: string)
    requires provider in SupportedProviders
    ensures m != ""
    ensures m == Fallback(provider) || (body.error.Some? && body.error.value.message == Some(m))
    ensures body.error.Some? && body.error.value.message.Some? && body.error.value.message.value != "" ==>
      m == body.error.value.message.value
  {
    match body.error
    case Some(ErrorDetail(Some(m))) => if m != "" then m else Fallback(provider)
    case _ => Fallback(provider)
  }

  /** `choices[0]?.message?.content || ''`, or `content[0]?.text || ''` for Anthropic. */
  function ReplyText(provider: string, body: ReplyBody): (t: string)
    ensures t != "" ==>
      if provider == Anthropic then |body.content| > 0 && body.content[0].text == Some(t)
      else |body.choices| > 0 && body.choices[0].message == Some(ChoiceMessage(Some(t)))
    ensures provider == Anthropic && (body.content == [] || body.content[0].text.None?) ==> t == ""
    ensures provider != Anthropic && (body.choices == [] || body.choices[0].message.None?) ==> t == ""
  {
    if provider == Anthropic then
      if |body.content| > 0 && body.content[0].text.Some? then body.content[0].text.value else ""
    else if |body.choices| > 0 && body.choices[0].message.Some? && body.choices[0].message.value.content.Some?
    then body.choices[0].message.value.content.value
    else ""
  }

  /** `chatWithAI`: route on the provider tag, send the handler's request over
      `network`, read the reply. */
  function ChatWithAI(model: Model, apiKey: string, ms: seq<Message>, network: Request -> Outcome): (r: Result<string, ProviderError>)
    ensures model.provider !in SupportedProviders ==> r == Err(Unsupported(model.provider))
    ensures model.provider in SupportedProviders ==>
      var outcome := network(BuildRequest(model, apiKey, ms).value);
      && (outcome.Aborted? ==> r == Err(TransportError(outcome.reason)))
      && (outcome.ErrorReply? ==>
            r.Err? && r.error.ApiError? && r.error.message != "" &&
            (r.error.message == Fallback(model.provider) ||
             (outcome.failure.error.Some? && outcome.failure.error.value.message == Some(r.error.message))))
      && (outcome.OkReply? ==> r.Ok?)
  {
    match BuildRequest(model, apiKey, ms)
    case Err(e) => Err(e)
    case Ok(request) =>
      match network(request)
      case OkReply(body) => Ok(ReplyText(model.provider, body))
      case ErrorReply(body) => Err(ApiError(ErrorText(model.provider, body)))
      case Aborted(reason) => Err(TransportError(reason))
  }

  // ---------------------------------------------------------------------------
  // Properties of the adapter

  /** Any tag but the four fails with `不支持的模型: <tag>` before a request
      exists: the network is never consulted, so every network gives the same result. */
  lemma RoutingIsExact(model: Model, apiKey: string, ms: seq<Message>, n1: Request -> Outcome, n2: Request -> Outcome)
    requires model.provider !in SupportedProviders
    ensures ChatWithAI(model, apiKey, ms, n1) == ChatWithAI(model, apiKey, ms, n2)
    ensures ChatWithAI(model, apiKey, ms, n1).Err? &&
      ErrorMessage(ChatWithAI(model, apiKey, ms, n1).error) == UnsupportedPrefix + model.provider
  {
  }

  /** Each supported tag goes to its own endpoint. */
  lemma EndpointsAreDistinct(p: string, q: string)
    requires p in SupportedProviders && q in SupportedProviders && p != q
    ensures Endpoint(p) != Endpoint(q) && Fallback(p) != Fallback(q)
  {
    EndpointsDiffer(p, q);
    FallbacksDiffer(p, q);
  }

  lemma EndpointsDiffer(p: string, q: string)
    requires p in SupportedProviders && q in SupportedProviders && p != q
    ensures Endpoint(p) != Endpoint(q)
  {
    TagsDistinct();
  }

  lemma FallbacksDiffer(p: string, q: string)
    requires p in SupportedProviders && q in SupportedProviders && p != q
    ensures Fallback(p) != Fallback(q)
  {
    TagsDistinct();
  }

  /** The four provider tags are four different strings. */
  lemma TagsDistinct()
    ensures OpenAI != Anthropic && OpenAI != DeepSeek && OpenAI != Moonshot
    ensures Anthropic != DeepSeek && Anthropic != Moonshot && DeepSeek != Moonshot
  {
    assert DeepSeek[0] != Moonshot[0];
  }

  /** OpenAI, DeepSeek and Moonshot send the chat-completions body: the model id,
      the history as `{role, content}` in the same order, 2000 tokens, temperature 0.7. */
  lemma ChatRequestShape(model: Model, apiKey: string, ms: seq<Message>)
    requires UsesBearer(model.provider)
    ensures var r := BuildRequest(model, apiKey, ms);
      r.Ok? && r.value.body.ChatBody? &&
      r.value.body.model == model.id &&
      r.value.body.maxTokens == 2000 && r.value.body.temperature == 0.7 &&
      |r.value.body.messages| == |ms| &&
      forall i :: 0 <= i < |ms| ==>
        r.value.body.messages[i] == WireMessage(RoleName(ms[i].role), ms[i].content)
  {
  }

  /** Anthropic sends the first system message's content as `system`, and only
      the non-system messages, none of them tagged `system`. */
  lemma AnthropicRequestShape(model: Model, apiKey: string, ms: seq<Message>)
    requires model.provider == Anthropic
    ensures var r := BuildRequest(model, apiKey, ms);
      r.Ok? && r.value.body.AnthropicBody? &&
      r.value.body.model == model.id && r.value.body.maxTokens == 2000 &&
      r.value.body.system == SystemPrompt(ms) &&
      r.value.body.messages == AnthropicMessages(ms) &&
      forall k :: 0 <= k < |r.value.body.messages| ==> r.value.body.messages[k].role != "system"
  {
  }

  /** Anthropic's message list is computed message by message: it distributes
      over concatenation, a system message contributes nothing and any other
      message contributes itself with its role collapsed. Together these say it
      is exactly the non-system messages in their original order. */
  lemma {:induction false} AnthropicMessagesAppend(a: seq<Message>, b: seq<Message>)
    ensures AnthropicMessages(a + b) == AnthropicMessages(a) + AnthropicMessages(b)
  {
    if a == [] {
      assert a + b == b;
    } else {
      assert (a + b)[1..] == a[1..] + b;
      AnthropicMessagesAppend(a[1..], b);
    }
  }

  lemma AnthropicMessagesSingle(m: Message)
    ensures AnthropicMessages([m]) ==
      if m.role == System then [] else [WireMessage(if m.role == Assistant then "assistant" else "user", m.content)]
  {
    assert [m][1..] == [];
  }

  /** The number of system messages in a history. */
  function SystemCount(ms: seq<Message>): nat
  {
    if ms == [] then 0 else (if ms[0].role == System then 1 else 0) + SystemCount(ms[1..])
  }

  /** Anthropic's list drops exactly the system messages. */
  lemma {:induction false} AnthropicMessagesLength(ms: seq<Message>)
    ensures |AnthropicMessages(ms)| == |ms| - SystemCount(ms)
  {
    if ms != [] {
      AnthropicMessagesLength(ms[1..]);
    }
  }

  /** A history of one system prompt and two turns gives `system` and two messages. */
  lemma AnthropicExample(model: Model, key: string, s: Message, u: Message, a: Message)
    requires model.provider == Anthropic
    requires s.role == System && u.role == User && a.role == Assistant
    ensures var r := BuildRequest(model, key, [s, u, a]);
      r.Ok? && r.value.body.system == Some(s.content) &&
      r.value.body.messages == [WireMessage("user", u.content), WireMessage("assistant", a.content)]
  {
    assert [s, u, a][1..] == [u, a];
    assert [u, a][1..] == [a];
    assert [a][1..] == [];
  }

  /** OpenAI, DeepSeek and Moonshot authenticate with `Authorization: Bearer <key>`;
      Anthropic with `x-api-key: <key>` and `anthropic-version: 2023-06-01`. */
  lemma AuthenticationHeaders(provider: string, apiKey: string)
    requires provider in SupportedProviders
    ensures var hs := AuthHeaders(provider, apiKey);
      if provider == Anthropic then
        HeaderValue(hs, "x-api-key") == Some(apiKey) &&
        HeaderValue(hs, "anthropic-version") == Some("2023-06-01") &&
        HeaderValue(hs, "Authorization").None?
      else
        HeaderValue(hs, "Authorization") == Some("Bearer " + apiKey) &&
        HeaderValue(hs, "x-api-key").None?
  {
  }

  /** A non-2xx reply fails with `error.message` when it is present and non-empty,
      and otherwise with the provider's own fallback text. */
  lemma ErrorExtraction(model: Model, apiKey: string, ms: seq<Message>, network: Request -> Outcome, body: ErrorBody)
    requires model.provider in SupportedProviders
    requires network(BuildRequest(model, apiKey, ms).value) == ErrorReply(body)
    ensures var r := ChatWithAI(model, apiKey, ms, network);
      if body.error.Some? && body.error.value.message.Some? && body.error.value.message.value != ""
      then r == Err(ApiError(body.error.value.message.value))
      else r == Err(ApiError(Fallback(model.provider)))
  {
  }

  /** Each provider reads only its own array: the other one never changes the text. */
  lemma ReplyTextReadsOwnArray(provider: string, body: ReplyBody, choices: seq<Choice>, content: seq<ContentBlock>)
    ensures provider == Anthropic ==> ReplyText(provider, body.(choices := choices)) == ReplyText(provider, body)
    ensures provider != Anthropic ==> ReplyText(provider, body.(content := content)) == ReplyText(provider, body)
  {
  }

  /** A 2xx reply always succeeds: with the first choice's content (Anthropic:
      the first block's text), and with `''` exactly when that text is missing or empty. */
  lemma ReplyExtraction(model: Model, apiKey: string, ms: seq<Message>, network: Request -> Outcome, body: ReplyBody)
    requires model.provider in SupportedProviders
    requires network(BuildRequest(model, apiKey, ms).value) == OkReply(body)
    ensures var r := ChatWithAI(model, apiKey, ms, network);
      r.Ok? &&
      if model.provider == Anthropic then
        r.value == (if |body.content| > 0 && body.content[0].text.Some? then body.content[0].text.value else "")
      else
        r.value == (if |body.choices| > 0 && body.choices[0].message.Some? && body.choices[0].message.value.content.Some?
                    then body.choices[0].message.value.content.value else "")
    ensures var r := ChatWithAI(model, apiKey, ms, network);
      r.Ok? && r.value != "" ==>
        if model.provider == Anthropic then |body.content| > 0 && body.content[0].text == Some(r.value)
        else |body.choices| > 0 && body.choices[0].message == Some(ChoiceMessage(Some(r.value)))
  {
  }
}
