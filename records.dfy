/** The chat and message records: the ORM models under db/models and the
    DTOs in the web API schemas carry the same fields and are one
    datatype here. */
module Records {
  import opened Wrappers

  /** `MessageBy`: who wrote a message. */
  datatype MessageBy = Human | Ai | System

  /** The string a `MessageBy` is stored as. */
  function Tag(o: MessageBy): string
  {
    match o
    case Human => "human"
    case Ai => "ai"
    case System => "system"
  }

  /** Reads a stored tag back; only the three known tags parse. */
  function ParseTag(s: string): (r: Option<MessageBy>)
    ensures r.Some? <==> s == "human" || s == "ai" || s == "system"
    ensures r.Some? ==> Tag(r.value) == s
  {
    if s == "human" then Some(Human)
    else if s == "ai" then Some(Ai)
    else if s == "system" then Some(System)
    else None
  }

  /** Tags are a bijection with the three origins. */
  lemma TagRoundTrip(o: MessageBy)
    ensures ParseTag(Tag(o)) == Some(o)
  {
  }

  /** A message row / `MessageDTO`. `messageBy` is the stored tag;
      `createdAt` is the creation time as a number. */
  datatype Message = Message(
    messageId: string,
    chatId: string,
    messageText: string,
    messageBy: string,
    createdAt: real)

  /** A chat row / `ChatDTO`. */
  datatype Chat = Chat(chatId: string, offTopicResponseCount: int, createdAt: real)

  function MessageKey(m: Message): string
  {
    m.messageId
  }

  function MessageTime(m: Message): real
  {
    m.createdAt
  }

  function ChatKey(c: Chat): string
  {
    c.chatId
  }

  function ChatTime(c: Chat): real
  {
    c.createdAt
  }
}
