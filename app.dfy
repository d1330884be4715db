/** The chat panel's own logic (src/App.tsx): the model table, sending a turn,
    saving settings, loading saved data and replaying a past conversation. The
    React state hooks are the fields of `ChatApp`; rendering is not modelled. */
module App {
  import opened Types
  import Api
  import Storage

  /** The model table, by model id. */
  const Models: map<string, Model> := map[
    "gpt-4" := Model("gpt-4", "GPT-4", "openai", 8192),
    "gpt-3.5-turbo" := Model("gpt-3.5-turbo", "GPT-3.5", "openai", 4096),
    "claude-3-sonnet" := Model("claude-3-sonnet", "Claude-3-Sonnet", "anthropic", 200000),
    "deepseek-chat" := Model("deepseek-chat", "DeepSeek", "deepseek", 16384),
    "moonshot-v1-8k" := Model("moonshot-v1-8k", "Kimi", "moonshot", 8192)
  ]

  /** The model selected before any settings are loaded. */
  const InitialModel := "gpt-3.5-turbo"

  /** How many conversations the in-memory history keeps after a send. */
  const RecentLimit: nat := 10

  const ErrorPrefix := "错误: "
  const UnknownError := "未知错误"

  /** Every entry is filed under its own id and names a provider the adapter routes. */
  lemma ModelsWellFormed()
    ensures forall id :: id in Models ==> Models[id].id == id && Models[id].provider in Api.SupportedProviders
  {
  }

  /** So a model taken from the table never meets the unsupported-provider error,
      and every adapter error the app sees is an `Error` with a message. */
  lemma ModelsAlwaysRoute(id: string, apiKey: string, history: seq<Message>, network: Api.Request -> Api.Outcome)
    requires id in Models
    ensures Api.BuildRequest(Models[id], apiKey, history).Ok?
    ensures var r := Api.ChatWithAI(Models[id], apiKey, history, network);
      r.Err? ==> !r.error.Unsupported? && Settle(r) == Threw(Some(Api.ErrorMessage(r.error)))
  {
    ModelsWellFormed();
  }

  // ---------------------------------------------------------------------------
  // `String.prototype.trim`

  /** The characters `trim` removes: ECMAScript WhiteSpace and LineTerminator. */
  predicate IsJsSpace(c: char)
  {
    || c == '\t' || c == '\n' || c == '\U{000B}' || c == '\U{000C}' || c == '\r' || c == ' '
    || c == '\U{00A0}' || c == '\U{1680}' || ('\U{2000}' <= c <= '\U{200A}')
    || c == '\U{2028}' || c == '\U{2029}' || c == '\U{202F}' || c == '\U{205F}'
    || c == '\U{3000}' || c == '\U{FEFF}'
  }

  /** `s` without its leading white space. */
  function TrimStart(s: string): (r: string)
    ensures |r| <= |s| && r == s[|s| - |r|..]
    ensures r == [] || !IsJsSpace(r[0])
  {
    if s != [] && IsJsSpace(s[0]) then TrimStart(s[1..]) else s
  }

  /** Everything `TrimStart` drops is white space. */
  lemma {:induction false} TrimStartDropsSpace(s: string)
    ensures forall i :: 0 <= i < |s| - |TrimStart(s)| ==> IsJsSpace(s[i])
  {
    if s != [] && IsJsSpace(s[0]) {
      TrimStartDropsSpace(s[1..]);
      assert forall i :: 1 <= i < |s| ==> s[i] == s[1..][i - 1];
    }
  }

  /** `s` without its trailing white space. */
  function TrimEnd(s: string): (r: string)
    ensures |r| <= |s| && r == s[..|r|]
    ensures r == [] || !IsJsSpace(r[|r| - 1])
  {
    if s != [] && IsJsSpace(s[|s| - 1]) then TrimEnd(s[..|s| - 1]) else s
  }

  /** Everything `TrimEnd` drops is white space. */
  lemma {:induction false} TrimEndDropsSpace(s: string)
    ensures forall i :: |TrimEnd(s)| <= i < |s| ==> IsJsSpace(s[i])
  {
    if s != [] && IsJsSpace(s[|s| - 1]) {
      TrimEndDropsSpace(s[..|s| - 1]);
    }
  }

  function Trim(s: string): string
  {
    TrimEnd(TrimStart(s))
  }

  /** `!input.trim()`: the input is empty once trimmed. */
  predicate IsBlank(s: string)
  {
    Trim(s) == ""
  }

  /** A string is blank exactly when every character of it is white space. */
  lemma BlankIffAllSpace(s: string)
    ensures IsBlank(s) <==> forall i :: 0 <= i < |s| ==> IsJsSpace(s[i])
  {
    TrimStartDropsSpace(s);
    var t := TrimStart(s);
    if t != [] {
      TrimEndDropsSpace(t);
      assert t[0] == s[|s| - |t|];
    }
  }

  // ---------------------------------------------------------------------------
  // `Date.now().toString()`

  function DigitChar(d: nat): char
    requires d < 10
  {
    (48 + d) as char
  }

  /** The decimal representation of `n`, as `Number.prototype.toString` writes it. */
  function Decimal(n: nat): (s: string)
    ensures |s| >= 1 && (n >= 10 ==> |s| >= 2)
    ensures forall i :: 0 <= i < |s| ==> '0' <= s[i] <= '9'
  {
    if n < 10 then [DigitChar(n)] else Decimal(n / 10) + [DigitChar(n % 10)]
  }

  /** Conversations created at different milliseconds get different ids, so a
      new conversation never overwrites an older one in the store. */
  lemma {:induction false} DecimalInjective(a: nat, b: nat)
    requires Decimal(a) == Decimal(b)
    ensures a == b
  {
    var s := Decimal(a);
    if a < 10 && b < 10 {
      assert s[0] == DigitChar(a) && s[0] == DigitChar(b);
    } else if a >= 10 && b >= 10 {
      assert s[|s| - 1] == DigitChar(a % 10) && s[|s| - 1] == DigitChar(b % 10);
      assert s[..|s| - 1] == Decimal(a / 10) && s[..|s| - 1] == Decimal(b / 10);
      DecimalInjective(a / 10, b / 10);
    }
  }

  // ---------------------------------------------------------------------------
  // A turn

  /** How the awaited `chatWithAI` call settled: with the reply text, or by
      throwing — an `Error` carries its message, anything else does not. */
  datatype SendOutcome = Replied(text: string) | Threw(message: Option<string>)

  /** The outcome the adapter's result gives the app. */
  function Settle(r: Result<string, Api.ProviderError>): (o: SendOutcome)
    ensures o.Threw? ==> o.message.Some?
  {
    match r
    case Ok(text) => Replied(text)
    case Err(e) => Threw(Some(Api.ErrorMessage(e)))
  }

  /** The synthetic assistant text shown for a failed turn. */
  function ErrorNotice(message: Option<string>): (s: string)
    ensures |s| >= |ErrorPrefix| && s[..|ErrorPrefix|] == ErrorPrefix
    ensures s[|ErrorPrefix|..] == if message.Some? then message.value else UnknownError
  {
    ErrorPrefix + (if message.Some? then message.value else UnknownError)
  }

  /** What the suspended send still holds while the adapter works: the selected
      model id, its table entry, the key and the history that was sent. */
  datatype Turn = Turn(modelId: string, model: Model, apiKey: string, history: seq<Message>)

  /** `[c, ...cs.slice(0, 9)]`: the new conversation first, at most ten in all. */
  function Recent(c: Conversation, cs: seq<Conversation>): (r: seq<Conversation>)
    ensures 1 <= |r| <= RecentLimit && r[0] == c
    ensures |r| == if |cs| < RecentLimit then |cs| + 1 else RecentLimit
    ensures forall i :: 1 <= i < |r| ==> r[i] == cs[i - 1]
  {
    [c] + (if |cs| <= 9 then cs else cs[..9])
  }

  /** `apiKeys[provider]` is a non-empty string. */
  predicate HasKey(keys: map<string, string>, provider: string)
  {
    provider in keys && keys[provider] != ""
  }

  class ChatApp {
    var input: string
    var messages: seq<Message>
    var conversations: seq<Conversation>
    var currentModel: string
    var apiKeys: map<string, string>
    var isLoading: bool
    var showSettings: bool
    /** The persistence store the panel reads and writes. */
    const store: Storage.Store

    /** A send goes past the guard: the trimmed input is non-empty and no request is in flight. */
    predicate CanSend()
      reads this
    {
      !IsBlank(input) && !isLoading
    }

    /** The initial state of the hooks. */
    constructor (store: Storage.Store)
      ensures this.store == store
      ensures input == "" && messages == [] && conversations == [] && currentModel == InitialModel
      ensures apiKeys == map[] && !isLoading && !showSettings
    {
      this.store := store;
      input := "";
      messages := [];
      conversations := [];
      currentModel := InitialModel;
      apiKeys := map[];
      isLoading := false;
      showSettings := false;
    }

    /** `loadData`: the saved history newest first, the saved keys, and the saved
        default model when it is non-empty. */
    method LoadData()
      requires store.Valid()
      modifies this
      ensures Storage.IsListing(conversations, store.conversations)
      ensures apiKeys == Storage.SettingsOrDefault(store.settings).apiKeys
      ensures var saved := Storage.SettingsOrDefault(store.settings).defaultModel;
        currentModel == if saved != "" then saved else old(currentModel)
      ensures unchanged(this`input, this`messages, this`isLoading, this`showSettings)
    {
      var savedConvs := store.GetConversations();
      var savedSettings := store.GetSettings();
      conversations := savedConvs;
      apiKeys := savedSettings.apiKeys;
      if savedSettings.defaultModel != "" {
        currentModel := savedSettings.defaultModel;
      }
    }

    /** `handleSend` up to the awaited adapter call. Returns the call it makes, if any.
        A model id missing from the table makes `model.provider` throw before any
        state is touched; that send makes no call and changes nothing. */
    method HandleSend(userTime: int) returns (turn: Option<Turn>)
      modifies this
      ensures unchanged(this`conversations, this`currentModel, this`apiKeys)
      ensures !old(CanSend()) || currentModel !in Models ==> turn == None && unchanged(this)
      ensures old(CanSend()) && currentModel in Models && !HasKey(apiKeys, Models[currentModel].provider) ==>
        turn == None && showSettings &&
        unchanged(this`input, this`messages, this`isLoading)
      ensures old(CanSend()) && currentModel in Models && HasKey(apiKeys, Models[currentModel].provider) ==>
        var model := Models[currentModel];
        var user := Message(User, old(input), userTime);
        && turn == Some(Turn(currentModel, model, apiKeys[model.provider], old(messages) + [user]))
        && messages == old(messages) + [user]
        && input == "" && isLoading
        && unchanged(this`showSettings)
    {
      if !CanSend() || currentModel !in Models {
        return None;
      }
      var model := Models[currentModel];
      if !HasKey(apiKeys, model.provider) {
        showSettings := true;
        return None;
      }
      var apiKey := apiKeys[model.provider];
      var user := Message(User, input, userTime);
      turn := Some(Turn(currentModel, model, apiKey, messages + [user]));
      messages := messages + [user];
      input := "";
      isLoading := true;
    }

    /** `handleSend` after the adapter call settled: append the reply and save the
        conversation, or append the error notice; then clear the loading flag. */
    method ReceiveReply(turn: Turn, outcome: SendOutcome, replyTime: int, idTime: nat, createdAt: int)
      requires store.Valid()
      modifies this, store
      ensures store.Valid()
      ensures !isLoading
      ensures unchanged(this`input, this`currentModel, this`apiKeys, this`showSettings)
      ensures store.settings == old(store.settings)
      ensures outcome.Replied? ==>
        var reply := Message(Assistant, outcome.text, replyTime);
        var conv := Conversation(Decimal(idTime), turn.modelId, turn.history + [reply], createdAt);
        && messages == old(messages) + [reply]
        && conversations == Recent(conv, old(conversations))
        && store.conversations == old(store.conversations)[conv.id := conv]
      ensures outcome.Threw? ==>
        && messages == old(messages) + [Message(Assistant, ErrorNotice(outcome.message), replyTime)]
        && conversations == old(conversations)
        && store.conversations == old(store.conversations)
    {
      match outcome {
        case Replied(text) =>
          var reply := Message(Assistant, text, replyTime);
          messages := messages + [reply];
          var conv := Conversation(Decimal(idTime), turn.modelId, turn.history + [reply], createdAt);
          conversations := Recent(conv, conversations);
          store.SaveConversation(conv);
        case Threw(message) =>
          messages := messages + [Message(Assistant, ErrorNotice(message), replyTime)];
      }
      isLoading := false;
    }

    /** A whole turn with nothing else happening while the adapter works. */
    method SendTurn(userTime: int, outcome: SendOutcome, replyTime: int, idTime: nat, createdAt: int)
      returns (turn: Option<Turn>)
      requires store.Valid()
      modifies this, store
      ensures store.Valid()
      ensures unchanged(this`currentModel, this`apiKeys)
      ensures store.settings == old(store.settings)
      ensures turn.Some? <==> old(CanSend()) && currentModel in Models && HasKey(apiKeys, Models[currentModel].provider)
      ensures turn.None? ==>
        unchanged(this`input, this`messages, this`conversations, this`isLoading) &&
        store.conversations == old(store.conversations)
      ensures old(CanSend()) && currentModel in Models && !HasKey(apiKeys, Models[currentModel].provider) ==>
        showSettings
      ensures turn.Some? || !old(CanSend()) || currentModel !in Models ==> unchanged(this`showSettings)
      ensures turn.Some? ==>
        var user := Message(User, old(input), userTime);
        var last := Message(Assistant, if outcome.Replied? then outcome.text else ErrorNotice(outcome.message), replyTime);
        var conv := Conversation(Decimal(idTime), currentModel, old(messages) + [user, last], createdAt);
        && turn.value.history == old(messages) + [user]
        && turn.value.model == Models[currentModel]
        && messages == old(messages) + [user, last]
        && input == "" && !isLoading
        && conversations == (if outcome.Replied? then Recent(conv, old(conversations)) else old(conversations))
        && store.conversations == (if outcome.Replied? then old(store.conversations)[conv.id := conv] else old(store.conversations))
    {
      turn := HandleSend(userTime);
      if turn.Some? {
        ghost var mid := messages;
        ReceiveReply(turn.value, outcome, replyTime, idTime, createdAt);
        assert messages == mid + [messages[|messages| - 1]];
        assert old(messages) + [mid[|mid| - 1]] + [messages[|messages| - 1]]
            == old(messages) + [mid[|mid| - 1], messages[|messages| - 1]];
      }
    }

    /** `handleSaveSettings`: adopt the new keys and model, save both, close the panel. */
    method HandleSaveSettings(newKeys: map<string, string>, defaultModel: string)
      requires store.Valid()
      modifies this, store
      ensures store.Valid()
      ensures apiKeys == newKeys && currentModel == defaultModel && !showSettings
      ensures unchanged(this`input, this`messages, this`conversations, this`isLoading)
      ensures store.settings ==
        map[Storage.SettingsKey := Storage.SettingsOrDefault(old(store.settings)).(apiKeys := newKeys, defaultModel := defaultModel)]
      ensures store.conversations == old(store.conversations)
    {
      apiKeys := newKeys;
      currentModel := defaultModel;
      store.SaveSettings(Storage.SettingsPatch(Some(newKeys), Some(defaultModel), None));
      showSettings := false;
    }

    /** Clicking one of the five history entries shown: show its messages and
        select its model. */
    method ReplayConversation(i: nat)
      requires i < |conversations| && i < 5
      modifies this
      ensures unchanged(this`input, this`conversations, this`apiKeys, this`isLoading, this`showSettings)
      ensures messages == conversations[i].messages && currentModel == conversations[i].model
    {
      messages := conversations[i].messages;
      currentModel := conversations[i].model;
    }
  }
}
