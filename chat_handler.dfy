/** The chat policy (services/chat/chat_handler.py): the length and off-topic
    limits, retrieval of context from the vector store, the conversation sent
    to the language model, and the off-topic counter.

    The embedding model, the vector store client and the language model are
    function values; every call the handler makes to them is recorded in a
    trace so that the contracts can say which services a turn consults. */
module ChatHandler {
  import opened Wrappers
  import opened Errors
  import opened Text
  import opened Records
  import opened ChatConfig
  import opened Embeddings
  import opened MilvusConnector
  import VdbConfig

  /** The language model's message kinds (`HumanMessage`, `AIMessage`,
      `SystemMessage`). */
  datatype BaseMessage =
    | HumanMessage(content: string)
    | AIMessage(content: string)
    | SystemMessage(content: string)

  function Role(b: BaseMessage): MessageBy
  {
    match b
    case HumanMessage(_) => Human
    case AIMessage(_) => Ai
    case SystemMessage(_) => System
  }

  /** `_format_message`: a stored message becomes the model message of its
      origin with the same text; an unknown origin raises `ValueError`. */
  function FormatMessage(m: Message): (r: Result<BaseMessage, Exception>)
    ensures r.Success? <==> ParseTag(m.messageBy).Some?
    ensures r.Success? ==> r.value.content == m.messageText && Role(r.value) == ParseTag(m.messageBy).value
    ensures r.Failure? ==> r.error == ValueError("Unexpected message_by value: " + m.messageBy)
  {
    match ParseTag(m.messageBy)
    case Some(Human) => Success(HumanMessage(m.messageText))
    case Some(Ai) => Success(AIMessage(m.messageText))
    case Some(System) => Success(SystemMessage(m.messageText))
    case None => Failure(ValueError("Unexpected message_by value: " + m.messageBy))
  }

  /** A message written under a known origin formats back to that origin and
      text. */
  lemma FormatKnownOrigin(m: Message, o: MessageBy)
    requires m.messageBy == Tag(o)
    ensures FormatMessage(m).Success?
    ensures Role(FormatMessage(m).value) == o && FormatMessage(m).value.content == m.messageText
  {
    TagRoundTrip(o);
  }

  /** Formats every message in order; an unknown origin anywhere makes the
      whole conversation fail. */
  function FormatAll(ms: seq<Message>): (r: Result<seq<BaseMessage>, Exception>)
    ensures r.Success? <==> forall i :: 0 <= i < |ms| ==> FormatMessage(ms[i]).Success?
    ensures r.Success? ==> |r.value| == |ms|
    ensures r.Success? ==> forall i :: 0 <= i < |ms| ==> FormatMessage(ms[i]) == Success(r.value[i])
  {
    if ms == [] then Success([])
    else
      match FormatMessage(ms[0])
      case Failure(e) => Failure(e)
      case Success(first) =>
        match FormatAll(ms[1..])
        case Failure(e) => Failure(e)
        case Success(rest) => Success([first] + rest)
  }

  /** The first message that fails to format decides the error. */
  lemma {:induction false} FormatAllFailsAtFirst(ms: seq<Message>, i: nat)
    requires i < |ms| && FormatMessage(ms[i]).Failure?
    requires forall j :: 0 <= j < i ==> FormatMessage(ms[j]).Success?
    ensures FormatAll(ms) == Failure(FormatMessage(ms[i]).error)
  {
    if i > 0 {
      assert forall j :: 0 <= j < i - 1 ==> ms[1..][j] == ms[j + 1];
      FormatAllFailsAtFirst(ms[1..], i - 1);
    }
  }

  /** The input `_update_conversation` builds: the history with the human
      query appended, each formatted, then the system message last. */
  function FormattedConversation(history: seq<Message>, human: Message, system: string)
    : Result<seq<BaseMessage>, Exception>
  {
    match FormatAll(history + [human])
    case Failure(e) => Failure(e)
    case Success(formatted) => Success(formatted + [SystemMessage(system)])
  }

  /** The conversation keeps the history's order, puts the human query right
      after it, and ends with the system message; any unknown origin in the
      history or the query makes it fail. */
  lemma ConversationShape(history: seq<Message>, human: Message, system: string)
    ensures FormattedConversation(history, human, system).Success? <==>
      ParseTag(human.messageBy).Some? && forall i :: 0 <= i < |history| ==> ParseTag(history[i].messageBy).Some?
    ensures FormattedConversation(history, human, system).Success? ==>
      var c := FormattedConversation(history, human, system).value;
      |c| == |history| + 2 &&
      (forall i :: 0 <= i < |history| ==> FormatMessage(history[i]) == Success(c[i])) &&
      FormatMessage(human) == Success(c[|history|]) &&
      c[|history| + 1] == SystemMessage(system)
  {
    var all := history + [human];
    assert all[|history|] == human;
    assert forall i :: 0 <= i < |history| ==> all[i] == history[i];
  }

  /** A list of messages that `_update_conversation` appends to. */
  class MessageList {
    var items: seq<Message>

    constructor(items: seq<Message>)
      ensures this.items == items
    {
      this.items := items;
    }
  }

  /** `_update_conversation`: appends the human query to the caller's list
      and returns the formatted conversation followed by the system message. */
  method UpdateConversation(oldConversation: MessageList, humanQuery: Message, systemMessage: string)
    returns (r: Result<seq<BaseMessage>, Exception>)
    modifies oldConversation
    ensures oldConversation.items == old(oldConversation.items) + [humanQuery]
    ensures r == FormattedConversation(old(oldConversation.items), humanQuery, systemMessage)
  {
    oldConversation.items := oldConversation.items + [humanQuery];
    var messages := oldConversation.items;
    var formatted: seq<BaseMessage> := [];
    for i := 0 to |messages|
      invariant |formatted| == i
      invariant forall j :: 0 <= j < i ==> FormatMessage(messages[j]) == Success(formatted[j])
    {
      var f := FormatMessage(messages[i]);
      if f.Failure? {
        FormatAllFailsAtFirst(messages, i);
        return Failure(f.error);
      }
      formatted := formatted + [f.value];
    }
    assert FormatAll(messages).Success?;
    assert FormatAll(messages).value == formatted;
    return Success(formatted + [SystemMessage(systemMessage)]);
  }

  /** The services the handler consults. */
  datatype Services = Services(
    embedQuery: string -> Vector,
    client: Client,
    invoke: seq<BaseMessage> -> string)

  /** One call to a service. */
  datatype Call =
    | EmbedCall(text: string)
    | SearchCall(data: seq<Vector>, limit: nat)
    | InvokeCall(input: seq<BaseMessage>)

  /** The dictionary `handle_chat` returns. */
  datatype Reply = Reply(systemMessage: Option<string>, aiMessage: string, offTopicResponseCount: int)

  /** A turn's outcome and the service calls made on the way. */
  datatype Turn = Turn(result: Result<Reply, Exception>, calls: seq<Call>)

  /** The model's answer counts as a refusal when "null" occurs in it in any
      letter case. */
  predicate IsRefusal(answer: string)
  {
    Contains(Lower(answer), Sentinel)
  }

  /** Any spelling of "null" inside the answer, in any letter case, is
      a refusal. */
  lemma {:induction false} RefusalAnyCase(answer: string, i: nat)
    requires i + |Sentinel| <= |answer| && Lower(answer[i..i + |Sentinel|]) == Sentinel
    ensures IsRefusal(answer)
  {
    var l := Lower(answer);
    assert l[i..i + |Sentinel|] == Lower(answer[i..i + |Sentinel|]);
    assert OccursAt(l, Sentinel, i);
  }

  /** The reply the prompt instructs the model to give is recognised. */
  lemma InstructedReplyIsRefusal()
    ensures IsRefusal(RefusalReply)
  {
    PromptAsksForSentinel();
    RefusalAnyCase(RefusalReply, 0);
  }

  /** The text sent back after the `count`-th refusal. */
  function OffTopicWarning(count: int): (r: string)
    ensures r == OffTopicHead + IntToString(count) + OffTopicTail
  {
    OffTopicFormat(IntToString(count));
    Format(OffTopicResponse, "off_topic_count", IntToString(count))
  }

  /** The refusal check of `handle_chat`: a refusal becomes the off-topic
      warning and bumps the counter; any other answer passes through with the
      counter unchanged. */
  function ScreenAnswer(answer: string, count: int): (r: (string, int))
    ensures IsRefusal(answer) ==> r == (OffTopicHead + IntToString(count + 1) + OffTopicTail, count + 1)
    ensures !IsRefusal(answer) ==> r == (answer, count)
  {
    if IsRefusal(answer) then (OffTopicWarning(count + 1), count + 1) else (answer, count)
  }

  /** The retrieval path is taken: the history is within the length limit and
      the counter is below the off-topic limit. */
  predicate Retrieves(history: seq<Message>, count: int)
  {
    |history| <= MessagesLimit && count < OffTopicCountLimit
  }

  /** The vector that the human message is searched with. */
  function QueryVector(human: Message, services: Services): Vector
  {
    services.embedQuery(Normalize(human.messageText))
  }

  /** The search answers: the vector store returned a result list. */
  predicate SearchAnswers(human: Message, services: Services)
  {
    |services.client([QueryVector(human, services)], VdbConfig.TopK)| > 0
  }

  /** `handle_chat`, as a function of the history, the human message, the
      chat's off-topic counter and the services. */
  function ChatTurn(history: seq<Message>, human: Message, count: int, services: Services): (t: Turn)
    // the counter grows by at most one, and never past the limit
    ensures t.result.Success? ==>
      var n := t.result.value.offTopicResponseCount;
      (n == count || n == count + 1) && (count <= OffTopicCountLimit ==> n <= OffTopicCountLimit)
  {
    if |history| > MessagesLimit then
      Turn(Success(Reply(None, LimitLengthMessage, count)), [])
    else if count < OffTopicCountLimit then
      var query := NewEmbedding(human.messageText, services.embedQuery);
      var vector := query.TextEmbedding();
      var searched := [EmbedCall(query.text), SearchCall([vector], VdbConfig.TopK)];
      match SearchResult(services.client([vector], VdbConfig.TopK), VdbConfig.Threshold)
      case Failure(e) => Turn(Failure(e), searched)
      case Success(context) =>
        PromptFormat(context);
        var system := Format(Prompt, "context", context);
        match FormattedConversation(history, human, system)
        case Failure(e) => Turn(Failure(e), searched)
        case Success(input) =>
          var (ai, n) := ScreenAnswer(services.invoke(input), count);
          Turn(Success(Reply(Some(system), ai, n)), searched + [InvokeCall(input)])
    else
      Turn(Success(Reply(None, LimitOutOfTopicMessage, count)), [])
  }

  /** The limits are checked before anything else, length first, and end the
      chat without consulting any service; only the retrieval path makes
      calls. */
  lemma LimitsEndTheChat(history: seq<Message>, human: Message, count: int, services: Services)
    ensures |history| > MessagesLimit ==>
      ChatTurn(history, human, count, services) == Turn(Success(Reply(None, LimitLengthMessage, count)), [])
    ensures |history| <= MessagesLimit && count >= OffTopicCountLimit ==>
      ChatTurn(history, human, count, services) == Turn(Success(Reply(None, LimitOutOfTopicMessage, count)), [])
    ensures ChatTurn(history, human, count, services).calls != [] <==> Retrieves(history, count)
    ensures ChatTurn(history, human, count, services).result.Failure? ==> Retrieves(history, count)
  {
  }

  /** The retrieval path first embeds the normalised text, then searches
      the vector store with that vector and top-k; an empty search answer
      raises `IndexError`. */
  lemma RetrievalCalls(history: seq<Message>, human: Message, count: int, services: Services)
    requires Retrieves(history, count)
    ensures
      var t := ChatTurn(history, human, count, services);
      2 <= |t.calls| <= 3 &&
      t.calls[0] == EmbedCall(Normalize(human.messageText)) &&
      t.calls[1] == SearchCall([QueryVector(human, services)], VdbConfig.TopK)
    ensures !SearchAnswers(human, services) ==>
      ChatTurn(history, human, count, services).result == Failure(IndexError)
  {
    var query := NewEmbedding(human.messageText, services.embedQuery);
    assert query.TextEmbedding() == QueryVector(human, services);
  }

  /** When the search answers, the conversation ending in the system prompt
      with the context goes to the model once, unless a stored origin is
      unknown; the system message is that prompt, and the model's answer is
      screened for a refusal. */
  lemma RetrievalTurn(history: seq<Message>, human: Message, count: int, services: Services)
    requires Retrieves(history, count) && SearchAnswers(human, services)
    ensures
      var t := ChatTurn(history, human, count, services);
      var context := Context(services.client([QueryVector(human, services)], VdbConfig.TopK)[0], VdbConfig.Threshold);
      var input := FormattedConversation(history, human, PromptHead + context);
      (input.Failure? ==> t.result == Failure(input.error) && |t.calls| == 2) &&
      (input.Success? ==>
        |t.calls| == 3 && t.calls[2] == InvokeCall(input.value) &&
        t.result.Success? &&
        t.result.value.systemMessage == Some(PromptHead + context) &&
        (t.result.value.aiMessage, t.result.value.offTopicResponseCount) == ScreenAnswer(services.invoke(input.value), count))
  {
    var query := NewEmbedding(human.messageText, services.embedQuery);
    assert query.TextEmbedding() == QueryVector(human, services);
    var context := Context(services.client([QueryVector(human, services)], VdbConfig.TopK)[0], VdbConfig.Threshold);
    PromptFormat(context);
  }

  /** A refusal on the last allowed turn brings the counter to the limit, so
      the next turn ends the chat without consulting any service. */
  lemma ThirdRefusalTerminates(
    history: seq<Message>, human: Message, services: Services, next: seq<Message>, nextHuman: Message)
    requires Retrieves(history, OffTopicCountLimit - 1) && SearchAnswers(human, services)
    requires
      var context := Context(services.client([QueryVector(human, services)], VdbConfig.TopK)[0], VdbConfig.Threshold);
      var input := FormattedConversation(history, human, PromptHead + context);
      input.Success? && IsRefusal(services.invoke(input.value))
    requires |next| <= MessagesLimit
    ensures ChatTurn(history, human, OffTopicCountLimit - 1, services).result.Success?
    ensures
      var n := ChatTurn(history, human, OffTopicCountLimit - 1, services).result.value.offTopicResponseCount;
      n == OffTopicCountLimit &&
      ChatTurn(next, nextHuman, n, services) == Turn(Success(Reply(None, LimitOutOfTopicMessage, n)), [])
  {
    RetrievalTurn(history, human, OffTopicCountLimit - 1, services);
    LimitsEndTheChat(next, nextHuman, OffTopicCountLimit, services);
  }

  /** Whether `handle_chat` gets as far as `_update_conversation`. */
  predicate UpdatesConversation(history: seq<Message>, human: Message, count: int, services: Services)
  {
    Retrieves(history, count) && SearchAnswers(human, services)
  }

  /** The retrieval branch of `handle_chat`: embed, search, build the
      conversation, invoke the model and screen its answer. */
  method Retrieve(conversation: MessageList, humanMessage: Message, offTopicResponseCount: int, services: Services)
    returns (r: Result<Reply, Exception>, calls: seq<Call>)
    requires Retrieves(conversation.items, offTopicResponseCount)
    modifies conversation
    ensures Turn(r, calls) == ChatTurn(old(conversation.items), humanMessage, offTopicResponseCount, services)
    ensures conversation.items == old(conversation.items) +
      (if SearchAnswers(humanMessage, services) then [humanMessage] else [])
  {
    var count := offTopicResponseCount;
    var queryEmbedding := NewEmbedding(humanMessage.messageText, services.embedQuery);
    var vector := queryEmbedding.TextEmbedding();
    assert vector == QueryVector(humanMessage, services);
    calls := [EmbedCall(queryEmbedding.text), SearchCall([vector], VdbConfig.TopK)];
    var queryResult := Search(services.client, [vector], VdbConfig.TopK, VdbConfig.Threshold);
    if queryResult.Failure? {
      return Failure(queryResult.error), calls;
    }
    PromptFormat(queryResult.value);
    var systemMessage := Format(Prompt, "context", queryResult.value);
    var formatted := UpdateConversation(conversation, humanMessage, systemMessage);
    if formatted.Failure? {
      return Failure(formatted.error), calls;
    }
    var aiMessage := services.invoke(formatted.value);
    calls := calls + [InvokeCall(formatted.value)];
    if IsRefusal(aiMessage) {
      count := count + 1;
      aiMessage := OffTopicWarning(count);
    }
    return Success(Reply(Some(systemMessage), aiMessage, count)), calls;
  }

  /** `handle_chat`: decides the reply and, on the retrieval path, appends the
      human message to the caller's conversation list. */
  method HandleChat(conversation: MessageList, humanMessage: Message, offTopicResponseCount: int, services: Services)
    returns (r: Result<Reply, Exception>, calls: seq<Call>)
    modifies conversation
    ensures Turn(r, calls) == ChatTurn(old(conversation.items), humanMessage, offTopicResponseCount, services)
    ensures conversation.items == old(conversation.items) +
      (if UpdatesConversation(old(conversation.items), humanMessage, offTopicResponseCount, services) then [humanMessage] else [])
  {
    if |conversation.items| > MessagesLimit {
      return Success(Reply(None, LimitLengthMessage, offTopicResponseCount)), [];
    } else if offTopicResponseCount < OffTopicCountLimit {
      r, calls := Retrieve(conversation, humanMessage, offTopicResponseCount, services);
    } else {
      return Success(Reply(None, LimitOutOfTopicMessage, offTopicResponseCount)), [];
    }
  }
}
