/** Value types shared by the provider adapter, the store and the app
    (the interfaces of src/types.ts, plus the two wrappers the model needs). */
module Types {

  datatype Option<T> = None | Some(value: T)

  /** The outcome of an operation that the source either returns from or throws out of. */
  datatype Result<T, E> = Ok(value: T) | Err(error: E)

  /** Who wrote a message. */
  datatype Role = User | Assistant | System

  /** The role as it is written on the wire. */
  function RoleName(r: Role): string
  {
    match r
    case User => "user"
    case Assistant => "assistant"
    case System => "system"
  }

  /** A chat message; `timestamp` is epoch milliseconds. */
  datatype Message = Message(role: Role, content: string, timestamp: int)

  /** One completed exchange, as kept in the history. */
  datatype Conversation = Conversation(id: string, model: string, messages: seq<Message>, createdAt: int)

  /** An entry of the model table. Unlike the `Model` interface it carries the
      `id` that the adapter sends and that the model table supplies. */
  datatype Model = Model(id: string, name: string, provider: string, maxTokens: nat)

  /** The user's settings: API keys by provider tag, the default model id and the theme. */
  datatype Settings = Settings(apiKeys: map<string, string>, defaultModel: string, theme: string)
}
