/** The chat endpoints (web/api/chat/views.py): creating a chat with its
    seed transcript, and reading a chat. */
module ChatViews {
  import opened Wrappers
  import opened Errors
  import opened Sorting
  import opened Records
  import opened ChatConfig
  import opened BaseDao
  import opened MessageViews

  /** The seed system text: the prompt with the general context. */
  function SeedSystemText(): (s: string)
    ensures s == PromptHead + GeneralContext
  {
    PromptFormat(GeneralContext);
    Format(Prompt, "context", GeneralContext)
  }

  /** The transcript a new chat starts with: the system prompt, then the AI
      greeting. */
  function Seed(chatId: string, ids: NewIds): (s: seq<Message>)
    ensures |s| == 2
    ensures s[0] == Message(ids.systemId, chatId, PromptHead + GeneralContext, "system", ids.now)
    ensures s[1] == Message(ids.aiId, chatId, AiFirstMessage, "ai", ids.now)
  {
    [Message(ids.systemId, chatId, SeedSystemText(), Tag(System), ids.now),
     Message(ids.aiId, chatId, AiFirstMessage, Tag(Ai), ids.now)]
  }

  /** `create_chat`, with the seed rows given their ids and creation time:
      the chat is inserted unless its id exists, the two seed rows are
      inserted, and the chat built from the request is returned. */
  method CreateChat(chat: Chat, chatDao: Table<string, Chat>, messageDao: Table<string, Message>, ids: NewIds)
    returns (r: Chat)
    requires chatDao.keyOf == ChatKey && chatDao.Valid()
    requires messageDao.keyOf == MessageKey && messageDao.Valid()
    modifies chatDao, messageDao
    ensures chatDao.rows == InsertIfAbsent(old(chatDao.rows), ChatKey, chat)
    ensures messageDao.rows == InsertAllIfAbsent(old(messageDao.rows), MessageKey, Seed(chat.chatId, ids))
    ensures chatDao.Valid() && messageDao.Valid()
    ensures r == chat
  {
    chatDao.AddSingleOnConflictDoNothing(chat);
    messageDao.AddManyOnConflictDoNothing(Seed(chat.chatId, ids));
    return chat;
  }

  /** A new chat with new seed ids: the chat row is added, and exactly the
      two seed rows follow the existing messages, system first. An existing
      chat id leaves the chat table as it was. */
  lemma {:induction false} CreateChatEffect(chat: Chat, chats: seq<Chat>, messages: seq<Message>, ids: NewIds)
    requires ids.systemId != ids.aiId
    requires !HasRowKey(messages, MessageKey, ids.systemId) && !HasRowKey(messages, MessageKey, ids.aiId)
    ensures InsertAllIfAbsent(messages, MessageKey, Seed(chat.chatId, ids)) == messages + Seed(chat.chatId, ids)
    ensures HasRowKey(chats, ChatKey, chat.chatId) ==> InsertIfAbsent(chats, ChatKey, chat) == chats
    ensures !HasRowKey(chats, ChatKey, chat.chatId) ==> InsertIfAbsent(chats, ChatKey, chat) == chats + [chat]
  {
    InsertAllFresh(messages, MessageKey, Seed(chat.chatId, ids));
  }

  /** `create_chat` as written: the chat is inserted, then the seed DTO
      fails validation for want of `message_id` and `created_at`, so no
      seed row is written. */
  function CreateChatAsWritten(chat: Chat, chats: seq<Chat>, messages: seq<Message>)
    : (o: (Result<Chat, Exception>, seq<Chat>, seq<Message>))
    ensures o.2 == messages
    ensures o.0.Failure?
  {
    match MessageDtoAsWritten(chat.chatId, SeedSystemText(), System)
    case Failure(e) => (Failure(e), InsertIfAbsent(chats, ChatKey, chat), messages)
    case Success(_) => (Success(chat), InsertIfAbsent(chats, ChatKey, chat), messages)
  }

  /** As written, a new chat is stored without its seed transcript, where
      the intended endpoint stores both seed rows. */
  lemma CreateChatAsWrittenLosesSeed(chat: Chat, ids: NewIds)
    requires ids.systemId != ids.aiId
    ensures CreateChatAsWritten(chat, [], []) ==
      (Failure(ValidationError({"message_id", "created_at"})), [chat], [])
    ensures InsertAllIfAbsent([], MessageKey, Seed(chat.chatId, ids)) == Seed(chat.chatId, ids)
  {
    assert MessageDtoAsWritten(chat.chatId, SeedSystemText(), System) == Failure(ValidationError({"message_id", "created_at"}));
    assert InsertIfAbsent([], ChatKey, chat) == [chat];
    CreateChatEffect(chat, [], [], ids);
  }

  /** `get_chat`, with the stored row read into the DTO: the chat with that
      id, or 404. */
  method GetChat(chatId: string, chatDao: Table<string, Chat>) returns (r: Result<Chat, Exception>)
    requires chatDao.keyOf == ChatKey
    ensures r.Failure? <==> !HasRowKey(chatDao.rows, ChatKey, chatId)
    ensures r.Failure? ==> r.error == HttpError(404, "Chat not found")
    ensures r.Success? ==> r.value in chatDao.rows && r.value.chatId == chatId
    ensures r.Success? ==> FirstWhere(chatDao.rows, KeyIs(ChatKey, chatId)) == Some(r.value)
  {
    var chat := chatDao.GetSingleRow(KeyIs(ChatKey, chatId));
    if chat.None? {
      return Failure(HttpError(404, "Chat not found"));
    }
    return Success(chat.value);
  }

  /** `get_chat` as written: `ChatDTO.model_validate` of the stored row. The
      DTO does not read attributes, so every chat that exists is rejected;
      only a missing chat gets an answer, the 404. */
  function GetChatAsWritten(chatId: string, chats: seq<Chat>): (r: Result<Chat, Exception>)
    ensures r.Failure?
    ensures r.error == HttpError(404, "Chat not found") <==> !HasRowKey(chats, ChatKey, chatId)
    ensures HasRowKey(chats, ChatKey, chatId) ==> r.error == ModelTypeError("ChatDTO")
  {
    match FirstWhere(chats, KeyIs(ChatKey, chatId))
    case None =>
      assert !HasRowKey(chats, ChatKey, chatId) by {
        forall i | 0 <= i < |chats|
          ensures chats[i].chatId != chatId
        {
          FilterCount(chats, KeyIs(ChatKey, chatId), chats[i]);
          assert chats[i] in multiset(chats);
        }
      }
      Failure(HttpError(404, "Chat not found"))
    case Some(_) => Failure(ModelTypeError("ChatDTO"))
  }

  /** As written, reading a stored chat fails, where the intended endpoint
      returns that chat. */
  lemma GetChatAsWrittenFails(chats: seq<Chat>, i: nat)
    requires UniqueKeys(chats, ChatKey) && i < |chats|
    ensures GetChatAsWritten(chats[i].chatId, chats) == Failure(ModelTypeError("ChatDTO"))
    ensures FirstWhere(chats, KeyIs(ChatKey, chats[i].chatId)) == Some(chats[i])
  {
    FirstWhereUniqueKey(chats, ChatKey, i);
  }
}
