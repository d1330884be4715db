# ai-fusion: provider adapter, persistence store and send-turn logic

ai-fusion is a browser-extension chat client. It sends a chat history to one of
four model providers (OpenAI, Anthropic, DeepSeek, Moonshot) and shows the reply.
It keeps past conversations and the user's settings in IndexedDB. This project
models the three pieces of its own logic and proves what they promise.

- `types.dfy` (module `Types`): the records of `src/types.ts`, i.e. messages,
  conversations, models and settings. It also holds `Option` and `Result`.
- `api.dfy` (module `Api`, pure): `chatWithAI` and its four handlers.
  - Routing on the provider tag.
  - The request each handler builds: URL, authentication headers and body.
  - How a reply or an error reply becomes the returned text or the thrown message.
  - The network is a parameter, `Request -> Outcome`. It returns an ok body, an
    error body, or a runtime error: timeout, network failure, or an unusable body.
- `storage.dfy` (module `Storage`, imperative): the class `Store`.
  - Its two map fields are the two object stores. `conversations` is keyed by
    `id`. `settings` holds one row under `user-settings`.
  - Its methods are the seven exported operations.
  - `GetConversations` builds the newest-first listing by a loop that inserts by
    date. It is proved to list every stored conversation once, in by-date index
    order reversed.
- `app.dfy` (module `App`, mixed):
  - Pure parts: the `MODELS` table, `String.prototype.trim`, the
    `Date.now().toString()` id and the error notice.
  - The class `ChatApp`: its fields are the panel's state hooks. Its methods are
    `loadData`, `handleSend`, `handleSaveSettings` and the history-replay click.
  - `handleSend` awaits the adapter, so it is split at the `await` into two
    methods. `HandleSend` runs up to the call and returns the call it makes.
    `ReceiveReply` runs after the call settles. `SendTurn` composes the two for a
    turn with nothing interleaved.

Points where the code behaves in ways a reader might not expect, and how the
model follows it:

- The `Model` interface (src/types.ts:15-19) has no `id`, but the adapter sends
  `model.id` and the `MODELS` table supplies one. The Dafny `Model` carries `id`.
- The in-memory conversation list is capped at ten only after a send
  (src/App.tsx:82). `loadData` installs every stored conversation
  (src/App.tsx:33), and `ChatApp.LoadData` does the same.
- Conversation ids come from the millisecond clock (src/App.tsx:76).
  `DecimalInjective` shows that ids from distinct milliseconds differ. Two turns
  finishing in the same millisecond would share an id, and the second save would
  overwrite the first (the upsert of `Store.SaveConversation`).
- `MODELS[currentModel]` is not checked (src/App.tsx:44-45). For an id that is
  neither a table key nor an inherited `Object.prototype` property,
  `model.provider` throws before any state changes. `ChatApp.HandleSend` models
  every id outside the table as a send that makes no call and changes nothing.
  Both selects write table ids only (src/App.tsx:113-115, 245-251), so other ids
  come only from a hand-edited store.

## Model

| member | source | states |
|---|---|---|
| Api.ChatWithAI | src/services/api.ts:6-23 | An unknown tag fails with `Unsupported`. For a known tag the handler's request goes to the network: a timeout or other runtime error fails with its reason; an error reply fails with a non-empty API message that is either the body's `error.message` or the provider's fallback; an ok reply succeeds |
| Api.RoutingIsExact | src/services/api.ts:11-22 | Any tag other than the four fails with `不支持的模型: <tag>` and never consults the network: every network gives the same result |
| Api.BuildRequest | src/services/api.ts:11-19 | A request exists exactly for the four tags; otherwise the error is `Unsupported(tag)`. The request goes to that provider's endpoint with its authentication headers |
| Api.EndpointsAreDistinct | src/services/api.ts:30-142 | Distinct supported tags have distinct endpoints and distinct fallback error texts, so each tag reaches its own handler |
| Api.ChatMessages | src/services/api.ts:38 | The chat-completions message list has the input's length and order; entry i is exactly `{role, content}` of message i, with the timestamp dropped |
| Api.ChatRequestShape | src/services/api.ts:36-41 | openai, deepseek and moonshot send the chat-completions body: the model id, the mapped history in order, `max_tokens` 2000 and `temperature` 0.7 |
| Api.SystemPrompt | src/services/api.ts:60 | Absent exactly when no message has role `system`; otherwise the content of the first `system` message |
| Api.AnthropicMessages | src/services/api.ts:61-76 | At most as many entries as the input, each with role `user` or `assistant`; with no system message it equals the chat-completions list |
| Api.AnthropicMessagesAppend | src/services/api.ts:61-76 | The Anthropic list distributes over concatenation, so it is the non-system messages in their original order |
| Api.AnthropicMessagesSingle | src/services/api.ts:73-76 | A single system message contributes nothing; any other message contributes itself, with role `assistant` if it was `assistant` and `user` otherwise |
| Api.AnthropicMessagesLength | src/services/api.ts:61 | The Anthropic list drops exactly the system messages: its length is the input's minus the number of system messages |
| Api.AnthropicRequestShape | src/services/api.ts:59-78 | Anthropic sends the model id, `max_tokens` 2000, `system` = the first system message's content or absent, and the filtered messages, none of them tagged `system` |
| Api.AnthropicExample | src/services/api.ts:59-77 | The history [system, user, assistant] gives `system` = the system content and messages [user, assistant] |
| Api.AuthenticationHeaders | src/services/api.ts:32-69 | openai, deepseek and moonshot send `Authorization: Bearer <key>` and no `x-api-key`; anthropic sends `x-api-key: <key>` and `anthropic-version: 2023-06-01` and no `Authorization` |
| Api.Fallback | src/services/api.ts:47 | Each provider's fallback error text is a non-empty `<Provider> API错误`; `Api.EndpointsAreDistinct` shows the four differ |
| Api.ErrorText | src/services/api.ts:47 | `error.error?.message \|\| fallback`: never empty; the body's `error.message` when present and non-empty, otherwise the provider's fallback |
| Api.ErrorExtraction | src/services/api.ts:45-48 | A non-ok reply fails with `error.message` when it is present and non-empty, and otherwise with the provider's fallback text |
| Api.ReplyText | src/services/api.ts:51 | A non-empty reply text is exactly the provider's own field: `content[0].text` for Anthropic (line 88), `choices[0].message.content` otherwise; a missing first element or field gives `''`, never an error |
| Api.ReplyTextReadsOwnArray | src/services/api.ts:51 | Each provider reads only its own array: replacing `choices` in an Anthropic reply, or `content` in any other reply, leaves the text unchanged |
| Api.ReplyExtraction | src/services/api.ts:50-51 | An ok reply always succeeds: with `choices[0].message.content` (Anthropic: `content[0].text`), or `''` when that is missing. A non-empty result is that field's value |
| Storage.Store.constructor | src/services/storage.ts:37-50 | A new database has both stores empty |
| Storage.Store.GetConversations | src/services/storage.ts:56-69 | Changes nothing. Returns every stored conversation exactly once, each equal to the stored record, ordered newest first by (`createdAt`, id) as the by-date index reversed gives them; as many entries as stored conversations |
| Storage.InsertByDateSound | src/services/storage.ts:67-68 | Inserting a conversation with a new id into a newest-first list with distinct ids keeps it newest-first with distinct ids, and adds exactly that id |
| Storage.IdBeforeTotal | src/services/storage.ts:67 | Two different keys are ordered one way or the other, so the by-date index places every entry |
| Storage.IdBeforeAsymmetric | src/services/storage.ts:67 | No two keys are ordered both ways; in particular no key comes before itself |
| Storage.IdBeforeTransitive | src/services/storage.ts:67 | The key order is transitive |
| Storage.NewerIsStrictTotalOrder | src/services/storage.ts:67-68 | The listing order (`createdAt` descending, then key descending, the by-date index reversed) is irreflexive, transitive, and relates any two conversations with distinct ids exactly one way |
| Storage.ListingOrder | src/services/storage.ts:67-68 | In a listing, each entry is newer than every later one; `createdAt` never increases along the list |
| Storage.ListingContents | src/services/storage.ts:67-68 | A conversation is in a listing exactly when the table holds it under its id: a saved conversation is listed, a deleted id is not |
| Storage.DistinctIdsCount | src/services/storage.ts:41 | Entries with distinct ids have as many ids as entries, so the listing's length is the number of stored keys |
| Storage.Store.SaveConversation | src/services/storage.ts:71-83 | An upsert: afterwards `c.id` maps to `c`, every other conversation is unchanged, and settings are unchanged |
| Storage.Store.DeleteConversation | src/services/storage.ts:85-88 | Removes only that key; an absent id leaves the table as it was, so deleting twice is deleting once; settings are unchanged |
| Storage.Store.ClearConversations | src/services/storage.ts:90-93 | Empties the conversations table; settings are unchanged |
| Storage.Store.GetSettings | src/services/storage.ts:102-112 | Changes nothing. Returns the row under `user-settings`, or `{apiKeys: {}, defaultModel: 'gpt-3.5-turbo', theme: 'dark'}` when there is none |
| Storage.Store.SaveSettings | src/services/storage.ts:114-119 | The settings table becomes exactly one row, under `user-settings`, holding the patch merged over the current settings (the defaults when there was no row); conversations are unchanged |
| Storage.Merge | src/services/storage.ts:117 | The shallow spread: a field the patch does not mention keeps its current value; a mentioned field takes the patch's value, `apiKeys` replaced wholesale so a provider missing from the new keys loses its key |
| Storage.SettingsOrDefault | src/services/storage.ts:108-112 | Definition: the row under `user-settings` when there is one, `DEFAULT_SETTINGS` otherwise; `Storage.Store.GetSettings` states it as the read's contract |
| Storage.MergeAlgebra | src/services/storage.ts:114-119 | The empty patch changes nothing; saving a patch twice equals saving it once; two saves equal one save of the combined patch |
| Storage.SaveSettingsOnEmptyTable | src/services/storage.ts:102-119 | Saving only `defaultModel` on an empty table and reading back gives that model with the default keys and theme |
| Storage.Store.ClearAllData | src/services/storage.ts:122-128 | Empties both tables, after which the settings read back as the defaults |
| App.ModelsWellFormed | src/App.tsx:7-13 | Every table entry is filed under its own id and names one of the four supported providers |
| App.ModelsAlwaysRoute | src/App.tsx:44-64 | A model from the table always yields a request. No adapter call the app makes with a table model fails with the unsupported-provider error, and every failure reaches the app as an error carrying its message |
| App.TrimStart | src/App.tsx:42 | The leading trim is a suffix of the input that is empty or starts with a non-space |
| App.TrimStartDropsSpace | src/App.tsx:42 | Everything the leading trim removes is white space |
| App.TrimEnd | src/App.tsx:42 | The trailing trim is a prefix of the input that is empty or ends with a non-space |
| App.TrimEndDropsSpace | src/App.tsx:42 | Everything the trailing trim removes is white space |
| App.BlankIffAllSpace | src/App.tsx:42 | `!input.trim()` holds exactly when every character of the input is ECMAScript white space or a line terminator |
| App.Decimal | src/App.tsx:76 | The id is a non-empty string of decimal digits, with at least two digits from 10 on |
| App.DecimalInjective | src/App.tsx:76 | Ids from different milliseconds are different strings |
| App.Settle | src/App.tsx:63-64 | The adapter's result as the app receives it. A failure always carries a message, so a failed turn never takes the `未知错误` branch at line 89; `App.ModelsAlwaysRoute` gives that message |
| App.HasKey | src/App.tsx:45-47 | `!apiKey` fails both for a provider with no entry and for an empty key, so a key counts only when present and non-empty |
| App.ErrorNotice | src/App.tsx:89 | The failure text is `错误: ` followed by the error's message, or by `未知错误` for a thrown value that is not an `Error` |
| App.Recent | src/App.tsx:82 | The new conversation comes first, followed by the first nine of the previous list in order; the length is the old length plus one, capped at 10 |
| App.ChatApp.constructor | src/App.tsx:16-22 | The initial state: empty input, messages and history, `gpt-3.5-turbo` selected, no keys, not loading, settings closed |
| App.ChatApp.LoadData | src/App.tsx:28-39 | The history becomes the store's full newest-first listing and the keys the saved keys. The saved default model is adopted when non-empty. Input, messages and flags are unchanged |
| App.ChatApp.HandleSend | src/App.tsx:41-61 | Blank input, a send in flight or an unknown model: no call and no state change. No key for the provider: no call, settings open, nothing else changes. Otherwise one user message with the input text is appended, the input is cleared, loading is set, and the call carries the table's model, the key and the prior messages plus that message |
| App.ChatApp.ReceiveReply | src/App.tsx:63-94 | On success: the assistant reply is appended, the conversation (prior history plus reply, current model, the millisecond id) is put first in a history capped at 10, and it is upserted in the store. On failure: one `错误: ...` message is appended and neither the history nor the store changes. Loading ends either way |
| App.ChatApp.SendTurn | src/App.tsx:41-95 | A whole turn: a call is made exactly when the guard passes, the model is known and it has a key. A missing key opens the settings panel and changes nothing else; in every other case the panel stays as it was. After a call, messages end with [user, reply-or-notice], input is cleared and loading is off. On success the saved conversation is prior ++ [user, assistant] under the current model, first in the history and upserted in the store |
| App.ChatApp.HandleSaveSettings | src/App.tsx:97-102 | Adopts the new keys and model, closes the panel, and stores the saved settings with keys and default model replaced and the theme kept |
| App.ChatApp.ReplayConversation | src/App.tsx:168-172 | Clicking history entry i (one of the first five shown) shows its messages and selects its model; nothing else changes |

## Left out

- The network, `AbortSignal.timeout(30000)` and `response.json()` are not modelled as I/O or JSON parsing. The network is a function from the request to an outcome. The outcome is an ok body, an error body, or a runtime error with its message. That error covers a timeout, a network failure, a body that is not JSON, and an ok body without the array the handler indexes.
- Non-string JSON values are not modelled: an `error.message` or reply text that is a number or an object, for example.
- `temperature` is the exact decimal 0.7, not an IEEE double.
- The `role` of a message is the three-valued `Role` of `src/types.ts`; the adapter's looser `role: string` parameter is only ever given such messages.
- `Date.now()` is not modelled. Timestamps, the id's millisecond and `createdAt` are parameters. The source reads the clock separately for each.
- Interleaving during the awaited call is modelled only through the split into `HandleSend` and `ReceiveReply`. Another send or a replay between the two is possible but not explored. The source's call uses the `messages` captured at render, and the composed `SendTurn` assumes nothing changed in between.
- Store failures are not modelled. In the source, a rejected `saveConversation` lands in the same `catch`. That would append a `错误: ...` message after the assistant reply.
- A patch field set explicitly to `undefined` is not modelled. It would overwrite the stored value in the spread.
- The `idb` library is not modelled: opening the database, the upgrade callback, the lazily created `dbInstance` singleton and the `Promise.all` in `clearAllData`. The model starts from an opened database.
- `getConversations`' `Array.isArray` check in `loadData` always holds for the store's answer, so it is not modelled.
- `App.ChatApp.HandleSend`: for an id missing from the model table, the source throws a `TypeError` out of `handleSend`. The model returns no call and keeps the state, which is what that throw leaves behind.
- `App.ChatApp.HandleSend`: the table is a plain JavaScript object, and inherited names such as `constructor`, `toString` or `__proto__` are not modelled. Such an id reads a value with no `provider`. The source then looks up the key under `"undefined"`, normally finds none, and opens the settings panel, where the model changes nothing. If a key were stored under `"undefined"`, the source would call the adapter and fail with `不支持的模型: undefined`.
- `Storage.IdBefore` compares characters as code points, where IndexedDB compares UTF-16 code units. The two orders differ only for characters above U+FFFF; the ids the app writes are decimal digits.
- The model `<select>` handler, `alert`, `console.error`, React rendering and `SettingsPanel` are not modelled.
- `src/content.js` and `src/background.js` (Chrome messaging, DOM construction) and `vite.config.ts` are not part of this model.
