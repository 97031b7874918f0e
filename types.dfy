/** The shared record types of the chat client: messages, conversations and
    the classified form of a message's text. Timestamps are ISO-8601 strings
    as in the application; numbers that the application never computes with
    (temperature, cost) are kept as exact reals. */
module Types {
  import opened Wrappers

  datatype Role = User | Assistant | System

  datatype MessageMetadata = MessageMetadata(
    model: Option<string>,
    tokens: Option<int>,
    cost: Option<real>)

  datatype Message = Message(
    id: string,
    conversationId: string,
    role: Role,
    content: string,
    timestamp: string,
    metadata: Option<MessageMetadata>)

  datatype GenerationSettings = GenerationSettings(
    temperature: Option<real>,
    maxTokens: Option<int>,
    systemPrompt: Option<string>)

  datatype Conversation = Conversation(
    id: string,
    userId: string,
    title: string,
    messages: seq<Message>,
    createdAt: string,
    updatedAt: string,
    model: string,
    settings: Option<GenerationSettings>)

  /** A message as the caller of `addMessage` supplies it: everything but
      the id and the timestamp, which the store assigns. */
  datatype MessageDraft = MessageDraft(
    conversationId: string,
    role: Role,
    content: string,
    metadata: Option<MessageMetadata>)

  /** `Partial<Message>`: a field that is `None` is absent from the update. */
  datatype MessagePatch = MessagePatch(
    id: Option<string>,
    conversationId: Option<string>,
    role: Option<Role>,
    content: Option<string>,
    timestamp: Option<string>,
    metadata: Option<MessageMetadata>)

  /** `Partial<Conversation>`: a field that is `None` is absent. */
  datatype ConversationPatch = ConversationPatch(
    id: Option<string>,
    userId: Option<string>,
    title: Option<string>,
    messages: Option<seq<Message>>,
    createdAt: Option<string>,
    updatedAt: Option<string>,
    model: Option<string>,
    settings: Option<GenerationSettings>)

  /** `{ ...msg, ...updates }`: every field present in the update replaces
      the message's own. */
  function MergeMessage(m: Message, u: MessagePatch): Message
  {
    Message(
      u.id.GetOr(m.id),
      u.conversationId.GetOr(m.conversationId),
      u.role.GetOr(m.role),
      u.content.GetOr(m.content),
      u.timestamp.GetOr(m.timestamp),
      if u.metadata.Some? then u.metadata else m.metadata)
  }

  /** `{ ...conv, ...updates }`. */
  function MergeConversation(c: Conversation, u: ConversationPatch): Conversation
  {
    Conversation(
      u.id.GetOr(c.id),
      u.userId.GetOr(c.userId),
      u.title.GetOr(c.title),
      u.messages.GetOr(c.messages),
      u.createdAt.GetOr(c.createdAt),
      u.updatedAt.GetOr(c.updatedAt),
      u.model.GetOr(c.model),
      if u.settings.Some? then u.settings else c.settings)
  }

  /** `{ ...message, id, timestamp }`: the message `addMessage` appends. */
  function StampMessage(d: MessageDraft, id: string, timestamp: string): Message
  {
    Message(id, d.conversationId, d.role, d.content, timestamp, d.metadata)
  }

  /** The tag of a `RenderableContent`. */
  datatype ContentKind = Text | Markdown | Mermaid | Code | Html

  datatype RenderableContent = RenderableContent(
    kind: ContentKind,
    content: string,
    language: Option<string>)

  /** The patch with no field present. */
  const EmptyConversationPatch := ConversationPatch(None, None, None, None, None, None, None, None)
  const EmptyMessagePatch := MessagePatch(None, None, None, None, None, None)

  /** Merging an empty update changes nothing. */
  lemma MergeEmpty(c: Conversation, m: Message)
    ensures MergeConversation(c, EmptyConversationPatch) == c
    ensures MergeMessage(m, EmptyMessagePatch) == m
  {
  }
}
