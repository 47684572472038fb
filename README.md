# portfolio_backend chat core, modelled in Dafny

This project models the decision logic of the portfolio chat backend and proves
properties about it. The core is the per-turn chat policy (`ChatHandler.handle_chat`).
Given the stored history, the new human message and the chat's off-topic counter, it
chooses one of three outcomes:

- it ends the chat at the length limit;
- it ends the chat at the off-topic limit;
- or it retrieves context from the vector store, asks the language model, and screens
  the answer for the `"null"` refusal.

Around the policy sit the pieces it depends on:

- the search post-processing of `MilvusDB.search`: sort by distance, keep hits strictly
  below the threshold, one text per line;
- the prompt templates and limits;
- the newline normalisation of `Embedding`;
- the message and chat endpoints: a turn end to end, the chat seed transcript, and the
  reads;
- `BaseDAO` as an in-memory keyed table, and `MessageDAO.get_many_rows`;
- the corpus loader `create_text_df`.

Modules, one per source file:

| module | file |
|---|---|
| `ChatHandler` | `chat_handler.dfy` |
| `ChatConfig` | `chat_config.dfy` |
| `MilvusConnector` | `milvus_connector.dfy` |
| `VdbConfig` | `vdb_config.dfy` |
| `Embeddings` | `embeddings.dfy` |
| `MessageViews` | `message_views.dfy` |
| `ChatViews` | `chat_views.dfy` |
| `BaseDao` | `base_dao.dfy` |
| `MessageDao` | `message_dao.dfy` |
| `Utils` | `utils.dfy` |
| `Records` | `records.dfy`: the message and chat rows; ORM model and DTO share one datatype |

Shared helpers:

- `Wrappers` (`Option`, `Result`);
- `Errors` (the exceptions the source raises);
- `Text` (`str.lower`, `in` and `str(int)`);
- `Sorting`: a filter and a stable sort by a real key. The sort models Python's `sorted`
  and SQL `ORDER BY`.

External services are function values: the embedding model, the vector store client and
the language model. `ChatHandler.ChatTurn` records every call the handler makes to them,
so the contracts can say which services a turn consults. Database tables are
`BaseDao.Table` objects whose rows are a sequence with unique primary keys.

Two kinds of value are parameters instead of being generated: the identifiers and the
creation time the database assigns to new rows (`MessageViews.NewIds`), and the
directory listing with the files' contents (`Utils.DirEntry`).

## Model

| member | source | states |
|---|---|---|
| ChatHandler.FormatMessage | portfolio_backend/services/chat/chat_handler.py:35-42 | human, ai and system tags become the model message of that role with the same text; any other tag is `ValueError("Unexpected message_by value: …")` |
| ChatHandler.FormatKnownOrigin | portfolio_backend/services/chat/chat_handler.py:35-41 | a message stored under a known origin formats to that role and text |
| ChatHandler.FormatAll | portfolio_backend/services/chat/chat_handler.py:52-54 | formatting succeeds exactly when every message has a known origin, and then message i becomes element i |
| ChatHandler.FormatAllFailsAtFirst | portfolio_backend/services/chat/chat_handler.py:53-54 | the first message with an unknown origin decides the error |
| ChatHandler.ConversationShape | portfolio_backend/services/chat/chat_handler.py:44-56 | the model input has len(history)+2 messages: the history in order, the human query, then the system prompt last; it fails exactly when some origin is unknown |
| ChatHandler.UpdateConversation | portfolio_backend/services/chat/chat_handler.py:44-56 | appends the human query to the caller's list in place and returns the formatted conversation |
| ChatHandler.RefusalAnyCase | portfolio_backend/services/chat/chat_handler.py:89 | "null" in any letter case anywhere in the answer is a refusal |
| ChatHandler.InstructedReplyIsRefusal | portfolio_backend/services/chat/config.py:19 | the reply `"Null"` that the prompt asks for is detected as a refusal |
| ChatHandler.OffTopicWarning | portfolio_backend/services/chat/chat_handler.py:91 | the warning is the off-topic template with the counter in its one placeholder |
| ChatHandler.ScreenAnswer | portfolio_backend/services/chat/chat_handler.py:87-91 | a refusal becomes the warning with counter+1; any other answer passes verbatim with the counter unchanged |
| ChatHandler.ChatTurn | portfolio_backend/services/chat/chat_handler.py:58-101 | the returned counter is the input or the input+1, and never exceeds 3 when it started at most 3 |
| ChatHandler.LimitsEndTheChat | portfolio_backend/services/chat/chat_handler.py:64-69 | more than 30 messages gives the length reply even at counter ≥ 3; then counter ≥ 3 gives the off-topic-limit reply; both keep the counter, set no system message and make no call; calls and errors happen only on the retrieval path |
| ChatHandler.RetrievalCalls | portfolio_backend/services/chat/chat_handler.py:69-79 | the retrieval path embeds the normalised text first, then searches with that vector and top-k 5; an empty search answer is `IndexError` |
| ChatHandler.RetrievalTurn | portfolio_backend/services/chat/chat_handler.py:79-91 | when the search answers, the model is invoked once on the conversation ending in prompt+context (an unknown stored origin fails before the call); the system message is prompt+context and the answer is screened |
| ChatHandler.ThirdRefusalTerminates | portfolio_backend/services/chat/chat_handler.py:69-95 | a refusal at counter 2 raises the counter to 3, and the next turn ends the chat without a call |
| ChatHandler.Retrieve | portfolio_backend/services/chat/chat_handler.py:69-91 | the retrieval branch returns what `ChatTurn` specifies when the chat is under both limits, and appends the human message to the caller's list exactly when the search answered |
| ChatHandler.HandleChat | portfolio_backend/services/chat/chat_handler.py:58-101 | the method returns what `ChatTurn` specifies, and appends the human message to the caller's list exactly when the search answered |
| ChatConfig.Format | portfolio_backend/services/chat/config.py:17-29 | `str.format` on a template whose placeholders all have the given name: literal length plus one copy of the value per placeholder |
| ChatConfig.PromptFormat | portfolio_backend/services/chat/config.py:17-21 | `prompt` has exactly one placeholder, `{context}`, at its end |
| ChatConfig.OffTopicFormat | portfolio_backend/services/chat/config.py:27-29 | `off_topic_response` has exactly one placeholder, `{off_topic_count}`, followed by " out of 3" |
| ChatConfig.PromptAsksForSentinel | portfolio_backend/services/chat/config.py:19 | the prompt asks for `"Null"`, which lower-cases to the sentinel `"null"` |
| Embeddings.Normalize | portfolio_backend/services/embeddor/embeddings.py:37 | same length; each newline becomes a space, and every other character (including `\r`) stays in place; no newline remains |
| Embeddings.NormalizeIdempotent | portfolio_backend/services/embeddor/embeddings.py:37 | normalising twice is normalising once |
| Embeddings.NormalizeFixesNewlineFree | portfolio_backend/services/embeddor/embeddings.py:37 | a text without newlines is unchanged |
| Embeddings.NewEmbedding | portfolio_backend/services/embeddor/embeddings.py:37-72 | the stored text is normalised, and `text_embedding` embeds the normalised text, not the raw input |
| MilvusConnector.Kept | portfolio_backend/vdb/milvus_connector.py:95-99 | the contributing hits are exactly the hits strictly below the threshold, as a permutation, in ascending distance; there are no more of them than hits |
| MilvusConnector.Search | portfolio_backend/vdb/milvus_connector.py:63-100 | only the first query's hits are used; the result is one line per kept hit (`text` then `\n`) in order; an empty answer list is `IndexError`; the threshold defaults to 1.5 |
| MilvusConnector.LinesConcat | portfolio_backend/vdb/milvus_connector.py:97-99 | the result is the plain concatenation of the per-hit lines |
| MilvusConnector.LinesAt | portfolio_backend/vdb/milvus_connector.py:97-99 | each hit's text and newline appear at their place in the result |
| MilvusConnector.EmptyContext | portfolio_backend/vdb/milvus_connector.py:96-100 | no hits, or all at or above the threshold, give the empty string |
| MilvusConnector.KeptStable | portfolio_backend/vdb/milvus_connector.py:95 | hits at equal distance keep the client's order (`sorted` is stable) |
| MilvusConnector.SearchExample | portfolio_backend/vdb/milvus_connector.py:95-100 | hits c 0.9, a 0.2, b 1.6 at threshold 1.7 give "a\nc\nb\n" |
| MilvusConnector.ThresholdExample | portfolio_backend/vdb/milvus_connector.py:98 | a hit at exactly the threshold is excluded |
| Sorting.SortBy | portfolio_backend/vdb/milvus_connector.py:95 | sorted by the key and a permutation of the input |
| Sorting.SortByStable | portfolio_backend/vdb/milvus_connector.py:95 | elements with equal keys keep their relative order |
| Records.ParseTag | portfolio_backend/web/api/message/schema.py:7-10 | exactly "human", "ai" and "system" are origins, each the tag of the origin it parses to |
| BaseDao.ModelData | portfolio_backend/db/dao/base_dao.py:53-54 | the keys are exactly the column names, each mapped to the instance's value |
| BaseDao.InsertIfAbsent | portfolio_backend/db/dao/base_dao.py:56-65 | existing rows never change; the row is appended exactly when its key is absent; the key is present afterwards |
| BaseDao.InsertIfAbsentUnique | portfolio_backend/db/dao/base_dao.py:56-65 | insert-if-absent keeps primary keys unique |
| BaseDao.Upsert | portfolio_backend/db/dao/base_dao.py:67-83 | the conflicting row takes every new value in place, other rows are untouched, and without a conflict the row is appended |
| BaseDao.UpsertUnique | portfolio_backend/db/dao/base_dao.py:67-83 | upsert keeps primary keys unique |
| BaseDao.UpsertThenRead | portfolio_backend/db/dao/base_dao.py:67-83 | a read by key after an upsert returns the upserted row |
| BaseDao.InsertAllIfAbsent | portfolio_backend/db/dao/base_dao.py:85-97 | a batch insert never changes existing rows and adds at most one row per batch row |
| BaseDao.InsertAllCovers | portfolio_backend/db/dao/base_dao.py:85-97 | after the batch every batch key is present, and only batch rows were added |
| BaseDao.InsertAllUnique | portfolio_backend/db/dao/base_dao.py:85-97 | a batch insert keeps primary keys unique |
| BaseDao.InsertAllFresh | portfolio_backend/db/dao/base_dao.py:85-97 | a batch of new, distinct keys is appended whole and in order |
| BaseDao.InsertAllPresent | portfolio_backend/db/dao/base_dao.py:85-97 | a batch whose keys all exist changes nothing, so a re-sent row is not duplicated |
| BaseDao.UpsertAll | portfolio_backend/db/dao/base_dao.py:99-115 | a batch upsert keeps every row whose key is not in the batch, and adds at most one row per batch row |
| BaseDao.UpsertOtherKey | portfolio_backend/db/dao/base_dao.py:67-83 | an upsert of one key leaves what a read of any other key finds unchanged |
| BaseDao.UpsertAllOtherKey | portfolio_backend/db/dao/base_dao.py:99-115 | a batch upsert leaves what a read of a key outside the batch finds unchanged |
| BaseDao.UpsertAllWrites | portfolio_backend/db/dao/base_dao.py:99-115 | with unique keys, after a batch upsert a read of any batch key finds the last batch row with that key: the batch values are written, existing rows included |
| BaseDao.UpsertAllRowsFrom | portfolio_backend/db/dao/base_dao.py:99-115 | a batch upsert stores nothing but old rows and batch rows |
| BaseDao.UpsertAllUnique | portfolio_backend/db/dao/base_dao.py:99-115 | a batch upsert keeps primary keys unique |
| BaseDao.FirstWhere | portfolio_backend/db/dao/base_dao.py:127-129 | the first row matching the filter, or None exactly when no row matches |
| BaseDao.FirstWhereUniqueKey | portfolio_backend/db/dao/base_dao.py:127-129 | with unique keys, reading by a row's key finds that row |
| BaseDao.SelectOrdered | portfolio_backend/db/dao/base_dao.py:141-143 | the result is exactly the matching rows, as a permutation, in ascending `created_at` |
| BaseDao.SelectComplete | portfolio_backend/db/dao/base_dao.py:141-143 | every matching row is read |
| BaseDao.DeleteWhere | portfolio_backend/db/dao/base_dao.py:173 | no matching row remains |
| BaseDao.DeleteWhereCounts | portfolio_backend/db/dao/base_dao.py:173 | each non-matching row keeps all its copies, and each matching row loses all of them |
| BaseDao.DeleteFirst | portfolio_backend/db/dao/base_dao.py:157-164 | deleting a single row removes exactly the first matching row, and nothing when none matches |
| BaseDao.FilterUnique | portfolio_backend/db/dao/base_dao.py:173 | deleting keeps primary keys unique |
| BaseDao.DeleteFirstUnique | portfolio_backend/db/dao/base_dao.py:157-164 | deleting one row keeps primary keys unique |
| BaseDao.AddManyDoUpdateAsWritten | portfolio_backend/db/dao/base_dao.py:108-115 | as written, every non-empty batch fails with `ArgumentError` |
| BaseDao.AddManyDoUpdateAsWrittenFails | portfolio_backend/db/dao/base_dao.py:110 | as written, a one-row batch fails, while the intended upsert stores the row |
| BaseDao.DeleteSingleAsWrittenRemovesAll | portfolio_backend/db/dao/base_dao.py:164 | as written, two matching rows are both deleted, while the intended single delete leaves one |
| BaseDao.Table.GetSingleRow | portfolio_backend/db/dao/base_dao.py:127-129 | None exactly when no row matches; otherwise a matching stored row |
| BaseDao.Table.GetManyRows | portfolio_backend/db/dao/base_dao.py:141-143 | returns the ordered selection without changing the table |
| BaseDao.Table.GetAllRows | portfolio_backend/db/dao/base_dao.py:154-155 | returns every row |
| BaseDao.Table.AddSingleOnConflictDoNothing | portfolio_backend/db/dao/base_dao.py:56-65 | the table becomes the insert-if-absent result, and keys stay unique |
| BaseDao.Table.AddSingleOnConflictDoUpdate | portfolio_backend/db/dao/base_dao.py:67-83 | the table becomes the upsert result, and keys stay unique |
| BaseDao.Table.AddManyOnConflictDoNothing | portfolio_backend/db/dao/base_dao.py:85-97 | the table becomes the batch insert-if-absent result (an empty batch is a no-op), and keys stay unique |
| BaseDao.Table.AddManyOnConflictDoUpdate | portfolio_backend/db/dao/base_dao.py:99-115 | the table becomes the batch upsert result, and keys stay unique |
| BaseDao.Table.DeleteSingleRow | portfolio_backend/db/dao/base_dao.py:157-164 | the first matching row is removed, and keys stay unique |
| BaseDao.Table.DeleteManyRows | portfolio_backend/db/dao/base_dao.py:166-173 | every matching row is removed, and keys stay unique |
| MessageDao.GetManyRows | portfolio_backend/db/dao/message_dao.py:60-69 | every matching row, and only matching rows, whose origin is in a non-empty `message_by` list, in ascending `created_at`; the result is a permutation of the matching rows, so none is repeated or invented |
| MessageDao.NoOriginRestriction | portfolio_backend/db/dao/message_dao.py:63 | a missing or empty `message_by` restricts nothing |
| MessageViews.History | portfolio_backend/web/api/message/views.py:111-118 | the handler's history is every human and AI message of this chat, and only those, in ascending `created_at`; it is a permutation of those stored messages, so its length counts each stored message once |
| MessageViews.HistoryExcludesSystem | portfolio_backend/web/api/message/views.py:114 | stored system messages never reach the handler |
| MessageViews.Batch | portfolio_backend/web/api/message/views.py:126-141 | the persisted batch is the human message, a system row only when the system text is non-empty, then one AI row. The new rows carry the chat id, the ids given for them and the creation time |
| MessageViews.BatchFollowsPath | portfolio_backend/web/api/message/views.py:127-141 | the batch has 3 rows on the retrieval path and 2 on either limit path |
| MessageViews.MissingChatIs404 | portfolio_backend/web/api/message/views.py:108-122 | a message for a missing chat gets 404 and changes nothing |
| MessageViews.TurnPersisted | portfolio_backend/web/api/message/views.py:126-161 | after a completed turn:<br>- the AI row is returned;<br>- existing messages are kept, and every batch id is present afterwards (stored now or already there);<br>- keys stay unique;<br>- the chat row holds the new counter;<br>- the chat table is untouched when the counter did not change |
| MessageViews.FreshTurnAppends | portfolio_backend/web/api/message/views.py:126-141 | when the new ids are distinct and not yet stored, a completed turn appends exactly its batch (human, optional system, AI) after the existing messages |
| MessageViews.BatchFresh | portfolio_backend/web/api/message/views.py:141 | inserting a batch whose ids are distinct and not yet stored appends it whole, in order |
| MessageViews.HandlerErrorWritesNothing | portfolio_backend/web/api/message/views.py:119-123 | an exception from the handler reaches the caller, and no table changes |
| MessageViews.CreateMessage | portfolio_backend/web/api/message/views.py:108-161 | the endpoint's result, service calls and both new tables are those of the turn specification |
| MessageViews.MessageDtoOfRowAsWritten | portfolio_backend/web/api/message/views.py:118 | as written, converting a stored message row to `MessageDTO` fails, because the DTO does not read attributes |
| MessageViews.CreateMessageAsWritten | portfolio_backend/web/api/message/views.py:108-147 | as written, every call fails and no table changes. A chat with any stored human or AI message fails converting its history, before any service is called |
| MessageViews.HistoryConversionFails | portfolio_backend/web/api/message/views.py:111-118 | as written, a message to a chat with one stored human message fails with no service call, while the intended history holds that message |
| MessageViews.ReplyReadAsAttributesFails | portfolio_backend/web/api/message/views.py:127 | as written, a turn at the off-topic limit fails with `AttributeError`, while the intended endpoint stores two rows and answers |
| MessageViews.MissingChatAsWritten | portfolio_backend/web/api/message/views.py:108-122 | as written, a message to a missing chat with no stored messages is an `AttributeError`; intended, it is 404 |
| MessageViews.MessageDtoAsWritten | portfolio_backend/web/api/message/views.py:128-140 | as written, a DTO without `message_id` and `created_at` always fails validation |
| MessageViews.MessageDtoAsWrittenFails | portfolio_backend/web/api/message/views.py:136-141 | as written, the AI DTO fails, while the intended AI row has its id and time |
| MessageViews.GetMessage | portfolio_backend/web/api/message/views.py:57-62 | 404 exactly when no message has the id; otherwise the stored message with that id |
| MessageViews.GetAllChatMessages | portfolio_backend/web/api/message/views.py:77-80 | every message of the chat, of any origin, and only those, in ascending `created_at`, as a permutation of the chat's stored messages |
| MessageViews.GetAllChatMessagesAsWritten | portfolio_backend/web/api/message/views.py:78-80 | as written, the read succeeds only for a chat without messages, with the empty list; otherwise the DTO conversion fails |
| MessageViews.ChatMessagesAsWrittenFail | portfolio_backend/web/api/message/views.py:78-80 | as written, reading a chat that has a message fails, while the intended read returns that message |
| ChatViews.SeedSystemText | portfolio_backend/web/api/chat/views.py:92 | the seed system text is the prompt with the general context |
| ChatViews.Seed | portfolio_backend/web/api/chat/views.py:90-100 | exactly two seed rows: the system prompt first, then the AI greeting, both for the chat |
| ChatViews.CreateChat | portfolio_backend/web/api/chat/views.py:86-105 | the chat is inserted if its id is absent, the seed rows are inserted, and the request's chat is returned |
| ChatViews.CreateChatEffect | portfolio_backend/web/api/chat/views.py:86-102 | an existing chat id leaves the chat table unchanged; a new one is appended; new seed ids append exactly the two seed rows |
| ChatViews.CreateChatAsWritten | portfolio_backend/web/api/chat/views.py:86-99 | as written, the call fails and writes no message |
| ChatViews.CreateChatAsWrittenLosesSeed | portfolio_backend/web/api/chat/views.py:87-99 | as written, a new chat is stored without its seed transcript; intended, both seed rows are stored |
| ChatViews.GetChat | portfolio_backend/web/api/chat/views.py:56-61 | 404 exactly when no chat has the id; otherwise the stored chat with that id, the one a read by key finds |
| ChatViews.GetChatAsWritten | portfolio_backend/web/api/chat/views.py:56-61 | as written, the read never succeeds: 404 exactly when the chat is missing, and the DTO conversion fails for every stored chat |
| ChatViews.GetChatAsWrittenFails | portfolio_backend/web/api/chat/views.py:61 | as written, reading a stored chat fails, while the intended read returns it |
| Utils.BeforeFirstDot | portfolio_backend/utils/utils.py:76 | the topic is the longest dot-free prefix of the name |
| Utils.NoDotWholeName | portfolio_backend/utils/utils.py:76 | a name without a dot is its own topic |
| Utils.TopicIsStem | portfolio_backend/utils/utils.py:76 | the topic of `stem.rest` is `stem`, so a dot-file has the empty topic |
| Utils.TextRows | portfolio_backend/utils/utils.py:70-80 | one row per regular file, in listing order: row k has id k, the topic of the k-th file, and its full contents |
| Utils.CreateTextDf | portfolio_backend/utils/utils.py:70-80 | the loop builds exactly those rows |

## Left out

- I/O and services:
  - The embedding model, the vector store client and the language model are function values.
  - The database is two in-memory tables.
  - The directory listing and file contents are a parameter.
  - The identifiers and timestamps the database generates are parameters. Nothing makes them fresh: a turn whose new id is already stored keeps the stored row (`ON CONFLICT DO NOTHING`). `MessageViews.FreshTurnAppends` states the result when the ids are fresh.
  - Service failures: `embed_query`, the vector store's `search` and the language model's `invoke` always answer in the model. In the source, an exception from any of them propagates out of `handle_chat` and `create_message` before any row is written. Only the handler's own errors are modelled: an empty search answer, and a stored message of unknown origin (`MessageViews.HandlerErrorWritesNothing`).
  - Logging, settings, the rate limiter and server bootstrap are not part of this model.
- Concurrency: each turn runs alone. The unguarded read-modify-write of the off-topic counter across concurrent requests is not modelled.
- Floating point: distances and timestamps are `real`. Vectors are sequences of `real` that are never inspected. Token counting and cost estimation are not part of this model.
- Text.Lower: only ASCII letters are lowered, whereas Python's `str.lower` follows Unicode. The sentinel is ASCII, so detection of "null" in ASCII letters is exact.
- ChatConfig.Format: the templates are stored already split into literal pieces and placeholders. The `KeyError` that `str.format` raises for an unknown placeholder cannot happen with these templates and is not modelled. The long template texts are kept only as far as the properties need them.
- MilvusConnector.Search: a hit always has a distance. The source's `hit.get("distance", 0)` default does not arise, because `sorted` would already have failed on a missing key. The client's own `limit` and filter are the client's business.
- BaseDao: a `filter_by` keyword filter is any predicate on rows, and the conflict column of the upserts is the primary key.
- BaseDao.UpsertAll: a batch that repeats a key is applied row by row, last value winning, whereas PostgreSQL rejects such a batch.
- BaseDao.SelectOrdered: rows with equal `created_at` come back in storage order. This is one of the orders the database may return.
- BaseDao.Table.GetAllRows: returns storage order.
- Records: the ORM and DTO classes are one datatype per entity. The message origin is kept as its stored string so that the `ValueError` path of `_format_message` can be represented. Converting a stored row to its DTO always succeeds in the corrected endpoints (`History`, `GetAllChatMessages`, `GetChat`). The as-written members fail it, as the Findings say. The ORM's `uuid.UUID` ids are strings. `GetMessage` returns the stored row, and the framework's conversion of that row into the response model is not modelled. Pydantic validation of DTOs built from arguments appears only where a finding needs it.
- The text-data endpoints and DAO, and `read_from_csv` and `file_exists`, are not part of this model.

## Findings

| source | as written | input that shows it | evidently intended | confidence | as-written member | corrected member |
|---|---|---|---|---|---|---|
| portfolio_backend/web/api/message/views.py:127 | `handle_chat` returns a dict, but the view reads `ai_response.system_message`, `.ai_message` and `.off_topic_response_count` as attributes. The first access raises `AttributeError` | any chat that exists, e.g. one with counter 3, so that the handler returns the limit reply | read the three fields of the reply and persist the turn | high (not executed) | MessageViews.ReplyReadAsAttributesFails | MessageViews.TurnPersisted |
| portfolio_backend/web/api/message/views.py:128-140 | `MessageDTO(chat_id=…, message_text=…, message_by=…)` omits the required `message_id` and `created_at`, so Pydantic validation fails. The seed messages of `create_chat` (portfolio_backend/web/api/chat/views.py:90-99) have the same defect | any completed turn; any chat creation | give new rows an id and the creation time | high (not executed) | MessageViews.MessageDtoAsWrittenFails | MessageViews.Batch |
| portfolio_backend/web/api/message/views.py:118 | `MessageDTO.model_validate(message)` on ORM rows. `MessageDTO` does not set `from_attributes`, so Pydantic rejects a row that is not a dictionary (the row's ids are also `uuid.UUID` against `str` fields). `create_message` fails here before the handler runs | a chat with one stored human message, and a new message to it | hand the stored human and AI messages to the handler as history | high (not executed) | MessageViews.HistoryConversionFails | MessageViews.History |
| portfolio_backend/web/api/message/views.py:80 | the same conversion in `get_all_chat_messages` | a chat with one stored message | return the chat's messages | high (not executed) | MessageViews.ChatMessagesAsWrittenFail | MessageViews.GetAllChatMessages |
| portfolio_backend/web/api/chat/views.py:61 | `ChatDTO.model_validate(chat)` on the ORM row fails the same way, so `get_chat` answers only 404. The same call ends `create_chat` at line 105 | any stored chat | return the stored chat | high (not executed) | ChatViews.GetChatAsWrittenFails | ChatViews.GetChat |
| portfolio_backend/web/api/message/views.py:108-122 | a missing chat is not checked; `chat.off_topic_response_count` on `None` raises `AttributeError` | a message whose chat id is not in the chat table | answer 404, as `get_chat` does | high (not executed) | MessageViews.MissingChatAsWritten | MessageViews.MissingChatIs404 |
| portfolio_backend/db/dao/base_dao.py:110 | `pg_insert(models_data[0].__class__)` builds the insert on `dict` instead of the model's table; SQLAlchemy raises `ArgumentError` | any non-empty batch | insert into the model's table and upsert on the conflict column | high (not executed) | BaseDao.AddManyDoUpdateAsWrittenFails | BaseDao.UpsertAllWrites |
| portfolio_backend/db/dao/base_dao.py:164 | `delete_single_row` runs the same statement as `delete_many_rows` and removes every matching row | a filter that matches two rows | remove one matching row | medium (not executed) | BaseDao.DeleteSingleAsWrittenRemovesAll | BaseDao.DeleteFirst |

The endpoints in `MessageViews` and `ChatViews` are modelled with these corrections:

- a missing chat is answered with 404;
- the handler's reply is read as a record;
- stored rows convert to DTOs: the DTOs read attributes, and ids are strings;
- new rows get an id and a creation time;
- `delete_single_row` removes only the first match;
- the batch upsert targets the model's table.
