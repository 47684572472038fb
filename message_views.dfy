/** The message endpoints (web/api/message/views.py): one chat turn end to
    end (`create_message`), and the two reads. The database tables are
    `Table`s; the identifiers and the time the database assigns to new rows
    are given as `NewIds`. */
module MessageViews {
  import opened Wrappers
  import opened Errors
  import opened Sorting
  import opened Records
  import opened ChatConfig
  import opened BaseDao
  import MessageDao
  import opened ChatHandler

  /** The keyword filter `chat_id=...` on messages. */
  function InChat(chatId: string): Message -> bool
  {
    (m: Message) => m.chatId == chatId
  }

  /** The origins of the history handed to the handler. */
  const HistoryOrigins: seq<string> := [Tag(Human), Tag(Ai)]

  /** The messages of the history: this chat's human and AI messages. */
  function HistoryOf(chatId: string): Message -> bool
  {
    (m: Message) => m.chatId == chatId && (m.messageBy == "human" || m.messageBy == "ai")
  }

  /** The history `create_message` reads: this chat's human and AI messages,
      and every one of them, by ascending creation time. */
  function History(rows: seq<Message>, chatId: string): (h: seq<Message>)
    ensures forall i :: 0 <= i < |h| ==> h[i].chatId == chatId
    ensures forall i :: 0 <= i < |h| ==> h[i].messageBy == "human" || h[i].messageBy == "ai"
    ensures forall m :: m in rows && m.chatId == chatId && (m.messageBy == "human" || m.messageBy == "ai") ==> m in h
    ensures SortedBy(h, MessageTime)
    // a permutation of those messages: none is repeated or invented
    ensures multiset(h) == multiset(Filter(rows, HistoryOf(chatId)))
  {
    var h := MessageDao.GetManyRows(rows, InChat(chatId), Some(HistoryOrigins));
    assert forall i :: 0 <= i < |h| ==> h[i].messageBy in HistoryOrigins;
    FilterAgree(rows, MessageDao.Both(InChat(chatId), MessageDao.OriginIn(Some(HistoryOrigins))), HistoryOf(chatId));
    h
  }

  /** Stored system messages never reach the handler. */
  lemma HistoryExcludesSystem(rows: seq<Message>, chatId: string, m: Message)
    requires m in History(rows, chatId)
    ensures ParseTag(m.messageBy) != Some(System)
  {
    var h := History(rows, chatId);
    var i :| 0 <= i < |h| && h[i] == m;
  }

  /** The identifiers and the creation time of the rows a turn adds. */
  datatype NewIds = NewIds(systemId: string, aiId: string, now: real)

  /** `if ai_response.system_message:` — present and non-empty. */
  predicate HasSystemMessage(reply: Reply)
  {
    reply.systemMessage.Some? && reply.systemMessage.value != ""
  }

  /** The AI row of a turn: the handler's text, stored as an AI message of
      the chat. */
  function AiRow(chatId: string, reply: Reply, ids: NewIds): Message
  {
    Message(ids.aiId, chatId, reply.aiMessage, Tag(Ai), ids.now)
  }

  /** The rows a turn persists: the human message, then the system message
      if there is one, then the AI message. */
  function Batch(human: Message, reply: Reply, chatId: string, ids: NewIds): (b: seq<Message>)
    ensures |b| == (if HasSystemMessage(reply) then 3 else 2)
    ensures b[0] == human
    ensures b[|b| - 1] == AiRow(chatId, reply, ids)
    ensures HasSystemMessage(reply) ==>
      b[1] == Message(ids.systemId, chatId, reply.systemMessage.value, Tag(System), ids.now)
    ensures forall i :: 1 <= i < |b| ==> b[i].chatId == chatId && b[i].createdAt == ids.now
  {
    var messages := [human];
    var messages := if HasSystemMessage(reply)
      then messages + [Message(ids.systemId, chatId, reply.systemMessage.value, Tag(System), ids.now)]
      else messages;
    messages + [AiRow(chatId, reply, ids)]
  }

  /** The batch has three rows exactly on the retrieval path, two on either
      limit path. */
  lemma BatchFollowsPath(history: seq<Message>, human: Message, count: int, services: Services, chatId: string, ids: NewIds)
    requires ChatTurn(history, human, count, services).result.Success?
    ensures |Batch(human, ChatTurn(history, human, count, services).result.value, chatId, ids)| ==
      if Retrieves(history, count) then 3 else 2
  {
    LimitsEndTheChat(history, human, count, services);
    if Retrieves(history, count) {
      RetrievalCalls(history, human, count, services);
      RetrievalTurn(history, human, count, services);
      assert |PromptHead| > 0;
    }
  }

  /** What a `create_message` call returns, the calls it makes, and the two
      tables after it. */
  datatype Outcome = Outcome(
    result: Result<Message, Exception>,
    calls: seq<Call>,
    chats: seq<Chat>,
    messages: seq<Message>)

  /** `create_message`: a missing chat is a 404; otherwise the handler runs
      on the chat's history and counter, its batch is inserted, the counter
      is written back only when it changed, and the AI row is returned. An
      error of the handler writes nothing. */
  function CreateMessageSpec(human: Message, chats: seq<Chat>, messages: seq<Message>, services: Services, ids: NewIds)
    : Outcome
  {
    match FirstWhere(chats, KeyIs(ChatKey, human.chatId))
    case None => Outcome(Failure(HttpError(404, "Chat not found")), [], chats, messages)
    case Some(chat) =>
      var turn := ChatTurn(History(messages, human.chatId), human, chat.offTopicResponseCount, services);
      match turn.result
      case Failure(e) => Outcome(Failure(e), turn.calls, chats, messages)
      case Success(reply) =>
        var stored := InsertAllIfAbsent(messages, MessageKey, Batch(human, reply, chat.chatId, ids));
        var counted :=
          if reply.offTopicResponseCount != chat.offTopicResponseCount
          then Upsert(chats, ChatKey, chat.(offTopicResponseCount := reply.offTopicResponseCount))
          else chats;
        Outcome(Success(AiRow(chat.chatId, reply, ids)), turn.calls, counted, stored)
  }

  /** A message for a chat that does not exist is answered with 404 and
      changes nothing. */
  lemma MissingChatIs404(human: Message, chats: seq<Chat>, messages: seq<Message>, services: Services, ids: NewIds)
    requires forall i :: 0 <= i < |chats| ==> chats[i].chatId != human.chatId
    ensures CreateMessageSpec(human, chats, messages, services, ids) ==
      Outcome(Failure(HttpError(404, "Chat not found")), [], chats, messages)
  {
    FilterNone(chats, KeyIs(ChatKey, human.chatId));
  }

  /** A completed turn: the returned row is the AI message of the chat with
      the handler's text; the existing messages are kept, every id of the
      batch is stored and no id is stored twice (`FreshTurnAppends` gives the
      exact table when the ids are new); the chat row then holds the
      handler's counter, and is untouched when the counter did not change. */
  lemma TurnPersisted(human: Message, chats: seq<Chat>, messages: seq<Message>, services: Services, ids: NewIds, chat: Chat)
    requires UniqueKeys(chats, ChatKey) && UniqueKeys(messages, MessageKey)
    requires FirstWhere(chats, KeyIs(ChatKey, human.chatId)) == Some(chat)
    requires ChatTurn(History(messages, human.chatId), human, chat.offTopicResponseCount, services).result.Success?
    ensures
      var reply := ChatTurn(History(messages, human.chatId), human, chat.offTopicResponseCount, services).result.value;
      var o := CreateMessageSpec(human, chats, messages, services, ids);
      o.result == Success(Message(ids.aiId, human.chatId, reply.aiMessage, "ai", ids.now)) &&
      messages <= o.messages &&
      UniqueKeys(o.messages, MessageKey) &&
      (forall i :: 0 <= i < |Batch(human, reply, chat.chatId, ids)| ==>
        HasRowKey(o.messages, MessageKey, Batch(human, reply, chat.chatId, ids)[i].messageId)) &&
      FirstWhere(o.chats, KeyIs(ChatKey, human.chatId)) == Some(chat.(offTopicResponseCount := reply.offTopicResponseCount)) &&
      (reply.offTopicResponseCount == chat.offTopicResponseCount ==> o.chats == chats)
  {
    var reply := ChatTurn(History(messages, human.chatId), human, chat.offTopicResponseCount, services).result.value;
    InsertAllUnique(messages, MessageKey, Batch(human, reply, chat.chatId, ids));
    InsertAllCovers(messages, MessageKey, Batch(human, reply, chat.chatId, ids));
    if reply.offTopicResponseCount != chat.offTopicResponseCount {
      UpsertThenRead(chats, ChatKey, chat.(offTopicResponseCount := reply.offTopicResponseCount));
    }
  }

  /** When the ids the database assigns are new and distinct, a completed
      turn appends its whole batch after the existing messages, in order. */
  lemma FreshTurnAppends(human: Message, chats: seq<Chat>, messages: seq<Message>, services: Services, ids: NewIds, chat: Chat)
    requires FirstWhere(chats, KeyIs(ChatKey, human.chatId)) == Some(chat)
    requires ChatTurn(History(messages, human.chatId), human, chat.offTopicResponseCount, services).result.Success?
    requires human.messageId != ids.systemId && human.messageId != ids.aiId && ids.systemId != ids.aiId
    requires !HasRowKey(messages, MessageKey, human.messageId)
    requires !HasRowKey(messages, MessageKey, ids.systemId) && !HasRowKey(messages, MessageKey, ids.aiId)
    ensures
      var reply := ChatTurn(History(messages, human.chatId), human, chat.offTopicResponseCount, services).result.value;
      CreateMessageSpec(human, chats, messages, services, ids).messages == messages + Batch(human, reply, chat.chatId, ids)
  {
    var reply := ChatTurn(History(messages, human.chatId), human, chat.offTopicResponseCount, services).result.value;
    BatchFresh(human, reply, chat.chatId, ids, messages);
  }

  lemma BatchFresh(human: Message, reply: Reply, chatId: string, ids: NewIds, messages: seq<Message>)
    requires human.messageId != ids.systemId && human.messageId != ids.aiId && ids.systemId != ids.aiId
    requires !HasRowKey(messages, MessageKey, human.messageId)
    requires !HasRowKey(messages, MessageKey, ids.systemId) && !HasRowKey(messages, MessageKey, ids.aiId)
    ensures InsertAllIfAbsent(messages, MessageKey, Batch(human, reply, chatId, ids)) == messages + Batch(human, reply, chatId, ids)
  {
    var b := Batch(human, reply, chatId, ids);
    assert forall i :: 0 <= i < |b| ==>
      MessageKey(b[i]) == if i == 0 then human.messageId else if i == |b| - 1 then ids.aiId else ids.systemId;
    InsertAllFresh(messages, MessageKey, b);
  }

  /** An error of the handler (an empty search answer, a stored message of
      unknown origin) reaches the caller and writes nothing. */
  lemma HandlerErrorWritesNothing(human: Message, chats: seq<Chat>, messages: seq<Message>, services: Services, ids: NewIds, chat: Chat)
    requires FirstWhere(chats, KeyIs(ChatKey, human.chatId)) == Some(chat)
    ensures
      var turn := ChatTurn(History(messages, human.chatId), human, chat.offTopicResponseCount, services);
      var o := CreateMessageSpec(human, chats, messages, services, ids);
      turn.result.Failure? ==>
        o == Outcome(Failure(turn.result.error), turn.calls, chats, messages)
  {
  }

  /** `create_message`, with the corrections: a missing chat is answered
      with 404, the handler's reply is read as a record, and the new rows
      get their ids and creation time. */
  method CreateMessage(
    humanMessage: Message, messageDao: Table<string, Message>, chatDao: Table<string, Chat>,
    services: Services, ids: NewIds)
    returns (r: Result<Message, Exception>, calls: seq<Call>)
    requires messageDao.keyOf == MessageKey && messageDao.createdAt == MessageTime && messageDao.Valid()
    requires chatDao.keyOf == ChatKey && chatDao.Valid()
    modifies messageDao, chatDao
    ensures messageDao.Valid() && chatDao.Valid()
    ensures Outcome(r, calls, chatDao.rows, messageDao.rows) ==
      CreateMessageSpec(humanMessage, old(chatDao.rows), old(messageDao.rows), services, ids)
  {
    var chat := chatDao.GetSingleRow(KeyIs(ChatKey, humanMessage.chatId));
    if chat.None? {
      return Failure(HttpError(404, "Chat not found")), [];
    }
    var conversation := MessageDao.GetManyRows(messageDao.rows, InChat(humanMessage.chatId), Some(HistoryOrigins));
    var conversationDto := new MessageList(conversation);
    var aiResponse;
    aiResponse, calls := HandleChat(conversationDto, humanMessage, chat.value.offTopicResponseCount, services);
    if aiResponse.Failure? {
      return Failure(aiResponse.error), calls;
    }
    var reply := aiResponse.value;
    var chatId := chat.value.chatId;
    var aiMessage := AiRow(chatId, reply, ids);
    messageDao.AddManyOnConflictDoNothing(Batch(humanMessage, reply, chatId, ids));
    if reply.offTopicResponseCount != chat.value.offTopicResponseCount {
      chatDao.AddSingleOnConflictDoUpdate(chat.value.(offTopicResponseCount := reply.offTopicResponseCount));
    }
    return Success(aiMessage), calls;
  }

  /** `MessageDTO.model_validate` of a stored row as written: the DTO does not
      read attributes (`from_attributes` is not set), so an ORM row is
      rejected as not a dictionary. */
  function MessageDtoOfRowAsWritten(m: Message): (r: Result<Message, Exception>)
    ensures r == Failure(ModelTypeError("MessageDTO"))
  {
    Failure(ModelTypeError("MessageDTO"))
  }

  /** `create_message` as written, in the source's order: the chat and the
      history are read; converting the history to DTOs fails on its first
      row; only with an empty history is the chat's counter read, which
      fails on a missing chat; and the handler's dictionary is read through
      attributes, so every completed turn fails on
      `ai_response.system_message` before anything is written. */
  function CreateMessageAsWritten(human: Message, chats: seq<Chat>, messages: seq<Message>, services: Services)
    : (o: Outcome)
    ensures o.chats == chats && o.messages == messages
    ensures o.result.Failure?
    // a chat with any stored human or AI message fails before the handler runs
    ensures History(messages, human.chatId) != [] ==>
      o.result == Failure(ModelTypeError("MessageDTO")) && o.calls == []
  {
    var history := History(messages, human.chatId);
    if history != [] then
      Outcome(MessageDtoOfRowAsWritten(history[0]), [], chats, messages)
    else
      match FirstWhere(chats, KeyIs(ChatKey, human.chatId))
      case None => Outcome(Failure(AttributeError("off_topic_response_count")), [], chats, messages)
      case Some(chat) =>
        var turn := ChatTurn(history, human, chat.offTopicResponseCount, services);
        match turn.result
        case Failure(e) => Outcome(Failure(e), turn.calls, chats, messages)
        case Success(_) => Outcome(Failure(AttributeError("system_message")), turn.calls, chats, messages)
  }

  /** As written, the second message of a chat already fails: the stored
      first message cannot be converted, and no service is called, where the
      intended endpoint hands that message to the handler as history. */
  lemma HistoryConversionFails(human: Message, services: Services, first: Message)
    requires first.chatId == human.chatId && first.messageBy == "human"
    ensures CreateMessageAsWritten(human, [Chat(human.chatId, 0, 0.0)], [first], services) ==
      Outcome(Failure(ModelTypeError("MessageDTO")), [], [Chat(human.chatId, 0, 0.0)], [first])
    ensures History([first], human.chatId) == [first]
  {
    var h := History([first], human.chatId);
    assert first in [first];
    assert first in h;
    assert |h| <= 1 by {
      assert |Filter([first], HistoryOf(human.chatId))| <= 1;
      assert |multiset(h)| == |multiset(Filter([first], HistoryOf(human.chatId)))|;
    }
  }

  /** As written, a turn in a chat that has hit the off-topic limit fails
      with `AttributeError` and stores nothing, where the intended endpoint
      stores the human and AI rows and answers with the limit message. */
  lemma ReplyReadAsAttributesFails(human: Message, services: Services, ids: NewIds)
    requires human.chatId == "c" && human.messageId != ids.aiId
    ensures
      var chats := [Chat("c", OffTopicCountLimit, 0.0)];
      CreateMessageAsWritten(human, chats, [], services) ==
        Outcome(Failure(AttributeError("system_message")), [], chats, []) &&
      CreateMessageSpec(human, chats, [], services, ids) ==
        Outcome(
          Success(Message(ids.aiId, "c", LimitOutOfTopicMessage, "ai", ids.now)), [], chats,
          [human, Message(ids.aiId, "c", LimitOutOfTopicMessage, "ai", ids.now)])
  {
    var chats := [Chat("c", OffTopicCountLimit, 0.0)];
    assert FirstWhere(chats, KeyIs(ChatKey, human.chatId)) == Some(chats[0]);
    var h := History([], "c");
    assert |h| == 0;
    LimitsEndTheChat(h, human, OffTopicCountLimit, services);
    var reply := Reply(None, LimitOutOfTopicMessage, OffTopicCountLimit);
    var batch := Batch(human, reply, "c", ids);
    assert batch == [human, AiRow("c", reply, ids)];
    InsertAllFresh([], MessageKey, batch);
  }

  /** As written, a message for a missing chat fails with `AttributeError`
      instead of the 404 the intended endpoint gives. */
  lemma MissingChatAsWritten(human: Message, services: Services, ids: NewIds)
    ensures CreateMessageAsWritten(human, [], [], services).result == Failure(AttributeError("off_topic_response_count"))
    ensures CreateMessageSpec(human, [], [], services, ids).result == Failure(HttpError(404, "Chat not found"))
  {
  }

  /** `MessageDTO(chat_id=..., message_text=..., message_by=...)` as written:
      the two required fields `message_id` and `created_at` are missing, so
      the DTO fails validation whatever the arguments. */
  function MessageDtoAsWritten(chatId: string, messageText: string, messageBy: MessageBy): (r: Result<Message, Exception>)
    ensures r.Failure? && r.error.ValidationError?
  {
    Failure(ValidationError({"message_id", "created_at"}))
  }

  /** As written the system and AI rows of a turn can never be built; the
      intended batch gives each of them an id and a creation time. */
  lemma MessageDtoAsWrittenFails(human: Message, reply: Reply, chatId: string, ids: NewIds)
    ensures MessageDtoAsWritten(chatId, reply.aiMessage, Ai) == Failure(ValidationError({"message_id", "created_at"}))
    ensures Batch(human, reply, chatId, ids)[|Batch(human, reply, chatId, ids)| - 1] ==
      Message(ids.aiId, chatId, reply.aiMessage, Tag(Ai), ids.now)
  {
  }

  /** `get_message`: the message with that id, or 404. */
  method GetMessage(messageId: string, messageDao: Table<string, Message>) returns (r: Result<Message, Exception>)
    requires messageDao.keyOf == MessageKey
    ensures r.Failure? <==> !HasRowKey(messageDao.rows, MessageKey, messageId)
    ensures r.Failure? ==> r.error == HttpError(404, "Message not found")
    ensures r.Success? ==> r.value in messageDao.rows && r.value.messageId == messageId
  {
    var message := messageDao.GetSingleRow(KeyIs(MessageKey, messageId));
    if message.None? {
      return Failure(HttpError(404, "Message not found"));
    }
    return Success(message.value);
  }

  /** `get_all_chat_messages`: every message of the chat, of any origin, by
      ascending creation time. */
  method GetAllChatMessages(chatId: string, messageDao: Table<string, Message>) returns (r: seq<Message>)
    ensures forall i :: 0 <= i < |r| ==> r[i].chatId == chatId && r[i] in messageDao.rows
    ensures forall m :: m in messageDao.rows && m.chatId == chatId ==> m in r
    ensures SortedBy(r, MessageTime)
    ensures multiset(r) == multiset(Filter(messageDao.rows, InChat(chatId)))
  {
    var rows := messageDao.rows;
    r := MessageDao.GetManyRows(rows, InChat(chatId), None);
    FilterAgree(rows, MessageDao.Both(InChat(chatId), MessageDao.OriginIn(None)), InChat(chatId));
    assert forall i :: 0 <= i < |r| ==> InChat(chatId)(r[i]);
  }

  /** `get_all_chat_messages` as written: `MessageDTO.model_validate` of each
      stored row, which fails on the first one, so only a chat without
      messages gets an answer, the empty list. */
  function GetAllChatMessagesAsWritten(chatId: string, rows: seq<Message>): (r: Result<seq<Message>, Exception>)
    ensures r.Success? <==> forall i :: 0 <= i < |rows| ==> rows[i].chatId != chatId
    ensures r.Success? ==> r.value == []
    ensures r.Failure? ==> r.error == ModelTypeError("MessageDTO")
  {
    var messages := MessageDao.GetManyRows(rows, InChat(chatId), None);
    if messages == [] then
      assert forall i :: 0 <= i < |rows| ==> InChat(chatId)(rows[i]) ==> !MessageDao.OriginIn(None)(rows[i]);
      Success([])
    else
      assert messages[0] in rows && messages[0].chatId == chatId;
      Failure(MessageDtoOfRowAsWritten(messages[0]).error)
  }

  /** As written, reading the messages of a chat that has one fails, where
      the intended endpoint returns it. */
  lemma ChatMessagesAsWrittenFail(rows: seq<Message>, i: nat)
    requires i < |rows|
    ensures GetAllChatMessagesAsWritten(rows[i].chatId, rows) == Failure(ModelTypeError("MessageDTO"))
    ensures rows[i] in MessageDao.GetManyRows(rows, InChat(rows[i].chatId), None)
  {
    assert rows[i] in rows && InChat(rows[i].chatId)(rows[i]) && MessageDao.OriginIn(None)(rows[i]);
  }
}
