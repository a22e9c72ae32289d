# my-llm-project chat core, modelled in Dafny

This project models the conversation memory and the streaming chat turn of
my-llm-project, a Go web service that relays a chat with a locally hosted
language model (Ollama) over server-sent events and keeps the conversation in
PostgreSQL with pgvector embeddings.

The model covers:

- **The message store** (`ChatStore`, `ChatQueries`): a class `Store` holding
  the set of conversation ids and the `chat_messages` table as a sequence of
  rows with ascending ids. Its methods model the SQL wrappers of
  `internal/repositories/chat_repository.go` and `internal/db/db.go`, which are
  the same queries. Each method takes an explicit fault parameter for the
  query, scan or write to fail. `GetLastMessages` keeps its descending fetch
  and its in-place two-index reversal (`ReverseInPlace`, on an `array`).
- **Prompt rendering** (`Prompts`, `Retrieval`): `buildPrompt` /
  `BuildFullPrompt`, `buildPromptFromMessages`, the context loops of
  `RetrieveRelevantContext`, `BuildRAGPrompt` and the `BuildCombinedPrompt`
  template. Each accumulator loop is a method proved against a left fold,
  `Render`.
- **Embeddings** (`Embedding`): `FormatVector`, with float formatting as a
  parameter, and the post-request logic of `ComputeEmbedding`. That logic
  covers the default model, the status check, an empty list of embeddings,
  and the 768-zero fallback the handlers use.
- **The NDJSON reader** (`OllamaStream`): `StreamOllamaChunks` (both copies).
  The response body is a sequence of read outcomes, and the goroutine becomes
  the sequence of channel operations it performs, ending with the two closes
  in the order the defers run.
- **The relay loop** (`SseRelay`): the labelled `for`/`select` loop. It
  consumes the events the select observes: fragments, the closed result
  channel, the closed error channel, a received error, ticks. It appends
  frames and accumulates `assistantBuf`. `ChannelTrace` builds the trace a
  producer's operations give under a `Schedule`, which says where the ticks
  fall and which closing case the select takes when both are ready.
- **The browser side** (`EventStream`): the event-stream interpretation of
  section 9.2.6 of the WHATWG HTML Living Standard. It is used to state what
  a client sees for the text the relay writes.
- **The turn handlers** (`ChatTurns`): the two full variants of `ChatStream`
  (`internal/controllers/sse_controller.go` and
  `internal/web/chat/chat_stream.go`). Each runs validation, conversation
  lookup or creation, the user-turn insert, prompt selection with its
  fallback, streaming, and the assistant insert iff the reply is non-empty.
  The third variant is `internal/web/handlers.go`, whose inserts are recorded
  as requests.
- **Configuration** (`Config`, `StrConv`): `defaultString`, the `LoadConfig`
  default table, and `strconv.Atoi` over the 64-bit range.

The network, JSON, URL decoding, SQL and the clock are parameters: oracles
for replies (`generate`, `Backends.embed` for the row inserts, and
`Faults.retrievalEmbed` for the retrieval's own embedding call), `Decoders`,
`ReadFault` and boolean fault flags, and a `Schedule`.

Three behaviours of the Go code worth noting:

- The controller and web handlers accept an empty transcript `[]`. They then
  look up or create the conversation and index the transcript's last element,
  which panics. See Findings: the handler models refuse `[]` with a 400
  instead.
- The combined prompt for an empty conversation is still the full template,
  not the bare query: its short-term section is `"\nAssistant:"` and its
  context is empty.
- A stream that fails may end with `event: done` instead of the error
  (`SseRelay.ErrorMayBeHidden`), because the closed result channel can win
  the select.

## Model

| member | source | states |
|---|---|---|
| Config.DefaultString | internal/config/config.go:33-38 | the fallback is returned exactly when the value is empty (or already equals it); a non-empty value is returned unchanged |
| Config.DefaultStringIdempotent | internal/config/config.go:33-38 | applying defaultString twice with the same fallback equals applying it once |
| Config.LoadConfig | internal/config/config.go:19-31 | port, host, db port and both models are never empty; DB_USER, DB_PASSWORD, DB_NAME pass through unchanged; each of the five defaulted settings takes its default exactly when its variable is empty and the variable otherwise; there is no error case |
| Config.LoadConfigDefaults | internal/config/config.go:21-30 | with no environment the configuration is exactly 4000, localhost, 5432, three empty credentials, deepseek-r1:14b, deekseek-r1:7b |
| StrConv.Atoi | internal/controllers/sse_controller.go:45-55 | a parsed id lies in the int64 range and starts with a digit or sign |
| StrConv.AtoiOfItoa | internal/controllers/sse_controller.go:47-50 | every int64 written in decimal parses back to itself |
| StrConv.AtoiRejectsNonDigit | internal/controllers/sse_controller.go:48-53 | a string with a non-digit after its first character is refused |
| ChatQueries.ConvRows | internal/repositories/chat_repository.go:49-54 | the rows selected are exactly the rows of the conversation, no others |
| ChatQueries.ConvRowsAscending | internal/repositories/chat_repository.go:49-54 | with ids ascending in the table, the conversation's rows are in ascending id order |
| ChatQueries.SortBySorted | internal/repositories/chat_repository.go:73-78 | ordering by distance yields a sequence sorted by distance that is a permutation of its input |
| ChatQueries.TakeOfSorted | internal/repositories/chat_repository.go:77-78 | LIMIT keeps a sorted prefix, and every row it drops is at least as far as every row it keeps |
| ChatQueries.LastDescReversed | internal/repositories/chat_repository.go:99-105 | reversing the descending LIMIT n fetch gives the conversation's last min(n, total) rows in ascending order |
| ChatQueries.RelevantQueryIsTopN | internal/repositories/chat_repository.go:72-79 | the relevance query returns min(topN, total) rows, all of that conversation, in non-decreasing distance, and no omitted row is closer than a returned one |
| ChatStore.ScanOutcome | internal/repositories/chat_repository.go:60-68 | without a fault the scan returns every fetched row as a message; a query or scan error returns no messages; a cursor error after k rows returns the first k messages (all of them when fewer were fetched) together with the error |
| ChatStore.Store.InsertConversation | internal/repositories/chat_repository.go:11-19 | on success a fresh id (not previously present, at least 1) is added and nothing else changes; on failure id 0, an error, and no change |
| ChatStore.Store.ConversationExists | internal/repositories/chat_repository.go:22-30 | without an error the answer is membership of the id; with one, false |
| ChatStore.Store.InsertChatMessage | internal/repositories/chat_repository.go:33-45 | on success exactly one row with the given conversation, role, content and embedding is appended, under an id above every existing one; on failure id 0 and no change |
| ChatStore.Store.GetChatMessages | internal/repositories/chat_repository.go:48-69 | the result is the conversation's rows, in table order, under the given fault |
| ChatStore.Store.GetRelevantMessages | internal/repositories/chat_repository.go:72-95 | the result is the scan of the relevance query under the given fault |
| ChatStore.Store.GetLastMessages | internal/repositories/chat_repository.go:98-127 | the descending fetch, scanned and reversed in place, under the given fault |
| ChatStore.ScanRows | internal/repositories/chat_repository.go:112-119 | the `for rows.Next()` loop returns every fetched row; a failing scan returns no messages, and a cursor error returns the rows read so far together with the error |
| ChatStore.ReverseInPlace | internal/repositories/chat_repository.go:121-124 | the swap loop leaves element i equal to the old element n-1-i, for every i |
| ChatStore.FailedReadReturnsNothing | internal/repositories/chat_repository.go:55-65 | a query error or a scan error yields that error and no messages; the read succeeds exactly when no fault strikes a fetched row |
| ChatStore.ChatMessagesAreTheConversation | internal/db/db.go:40-62 | a successful read returns every message of the conversation and only those, in ascending id order |
| ChatStore.LastOutcomeIsRecentHistory | internal/repositories/chat_repository.go:98-127 | a successful read is the conversation's messages, in ascending order, from the last min(limit, total) rows onward |
| ChatStore.LastMessagesAreTheTail | internal/repositories/chat_repository.go:98-127 | a successful read returns exactly the last min(limit, total) messages of the conversation, ascending, and every older message has a smaller id |
| ChatStore.RelevantMessagesAreBounded | internal/db/db.go:78-102 | a successful read returns at most topN messages, all of the conversation, as ranked by the query; a query or scan error returns none |
| ChatStore.AppendedMessageIsReadBack | internal/db/db.go:25-37 | a message appended under the largest id is the last message of both the full read and the last-n window of its conversation |
| Prompts.AppendLines | internal/services/chat_service.go:45-48 | the `prompt +=` loop computes the left fold of the line renderer over the messages |
| Prompts.BuildFullPrompt | internal/services/chat_service.go:44-50 | result is the fold of `role: content\n` lines followed by the cue |
| Prompts.BuildPromptFromMessages | internal/web/handlers.go:48-59 | result is the fold of `User:`/`Assistant:` lines followed by the cue |
| Prompts.FullPromptShape | internal/web/chat/chat_utils.go:10-16 | the prompt ends with "\nAssistant:", is exactly that for no messages, has length Σ(\|role\|+\|content\|+3)+11, and holds message i's line at the position after lines 0..i-1 |
| Prompts.ChatPromptShape | internal/web/handlers.go:48-59 | never empty; ends with the cue; "user" messages render as `User: c\n` and all others as `Assistant: c\n`, each at its position in order |
| Prompts.RagPromptShape | internal/services/chat_service.go:40 | the context starts at offset 9, the prompt ends with "\nUser: " + query + "\nAssistant:", and its length is \|context\|+\|query\|+27 |
| Prompts.CombinedPromptShape | internal/services/chat_service.go:78-97 | the short-term section sits right after the fixed introduction, the context after the fixed middle text, and the prompt ends with "User: " + query + "\nAssistant:" |
| Embedding.Zeros | internal/controllers/sse_controller.go:79 | the fallback vector has the given length and only zero elements |
| Embedding.FormatVector | internal/engines/rag.go:59-69 | the loop computes "[" + the element strings joined by "," + "]" |
| Embedding.FormatVectorRoundTrip | internal/services/embedding.go:54-64 | splitting the literal at its commas gives back each element's string, in vector order, when the formatter yields non-empty, comma-free text |
| Embedding.VectorLiteralShape | internal/engines/rag.go:59-69 | the literal is bracketed, the empty vector gives "[]", and n ≥ 1 elements give exactly n-1 commas |
| Embedding.ZeroFallbackLiteral | internal/services/embedding.go:57-62 | the 768-zero fallback formats to 768 copies of the zero's string with 767 commas |
| Embedding.EmbedRequestFor | internal/services/embedding.go:14-23 | the request carries the text, truncate=true, and model deekseek-r1:7b exactly when EMBEDDING_MODEL is empty |
| Embedding.SelectEmbedding | internal/services/embedding.go:36-50 | success exactly for a 200 reply with a non-empty list, returning its first vector; unreachable, other status and empty list are their own errors |
| Embedding.EmbeddingModelIsConfigured | internal/engines/rag.go:17-20 | the embedding model chosen is the one LoadConfig reports |
| Embedding.EmbeddingOrZeros | internal/controllers/sse_controller.go:76-80 | the computed vector on success, 768 zeros on any error |
| Retrieval.RetrieveRelevantContext | internal/services/chat_service.go:11-31 | succeeds exactly when the specification does, returning its context; on failure "" and the same error |
| Retrieval.BuildRAGPrompt | internal/services/chat_service.go:34-41 | the same for the RAG prompt; errors propagate unchanged |
| Retrieval.BuildCombinedPrompt | internal/services/chat_service.go:56-100 | the same for the combined prompt, checking the short-term fetch first |
| Retrieval.RelevantContextFailures | internal/services/chat_service.go:13-23 | an embedding failure is reported as such (no zero fallback here), and a lookup failure as such; otherwise it succeeds |
| Retrieval.RelevantContextRendersLookup | internal/engines/rag.go:73-95 | a retrieved context is the rendering of exactly the query's hits: at most topN, all of the conversation, closest first |
| Retrieval.RelevantContextLineOrder | internal/services/chat_service.go:26-29 | hit i's `role: content\n` line sits right after the lines of hits 0..i-1, with no re-sorting |
| Retrieval.RagOutcomeShape | internal/engines/rag.go:98-107 | a retrieval error propagates; otherwise the prompt is "Context:\n" + ctx + "\nUser: " + q + "\nAssistant:" |
| Retrieval.CombinedOutcomeFailures | internal/services/chat_service.go:60-69 | the combined prompt succeeds iff both the short-term fetch and the retrieval do, and reports whichever failed first |
| Retrieval.CombinedOutcomeIsTemplate | internal/services/chat_service.go:71-97 | a combined prompt is the template over BuildFullPrompt of the last recentLimit messages, the context, and the query |
| Retrieval.CombinedOutcomeSections | internal/services/chat_service.go:78-97 | in the combined prompt the history, the context and the query sit at their template positions, in that order |
| OllamaStream.ErrorText | internal/services/ai.go:33-53 | the three error messages, with the status code in decimal |
| OllamaStream.StreamOllamaChunks | internal/services/ai.go:19-71 | the producer's channel operations are those of the decoded outcome of the reply |
| OllamaStream.RequestFailureSendsOneError | internal/ai/ai.go:38-48 | an unreachable service or a non-200 status sends exactly one error, no fragment, then closes both channels |
| OllamaStream.ProducerOpsShape | internal/services/ai.go:21-25 | fragments are sent in order, at most one error is sent and only just before the closes, and the error channel is closed before the result channel on every path |
| OllamaStream.DecodedLinesInOrder | internal/services/ai.go:56-62 | every decoded line up to a done record emits its response, empty or not, in line order |
| OllamaStream.MalformedLinesSkipped | internal/ai/ai.go:64-68 | undecodable lines are skipped: the outcome equals that of the body without them |
| OllamaStream.StopEndsDecoding | internal/ai/ai.go:52-77 | nothing after a done record, the end of the body or a read error is read |
| OllamaStream.DoneRecordIsLast | internal/ai/ai.go:71-76 | a done record's own response is emitted and then the stream ends without error |
| OllamaStream.EndOfBodyDropsRest | internal/services/ai.go:46-51 | the end of the body is a normal end, and a final line without its newline is dropped |
| OllamaStream.ReadErrorIsReported | internal/ai/ai.go:59-60 | a read error is reported, after the fragments read before it |
| SseRelay.StreamLoop | internal/controllers/sse_controller.go:124-154 | the loop writes the frames of the events up to and including the first that ends it, and `assistantBuf` is the concatenation of the fragments before it |
| SseRelay.LoopStopsAtFirstEnd | internal/controllers/sse_controller.go:127-148 | the first closed channel or received error is the last frame written; nothing after it is read, and pings add nothing to the buffer |
| SseRelay.TraceIsRelayedWhole | internal/web/chat/chat_stream.go:131-162 | for any producer and any schedule, `assistantBuf` is every fragment sent, in order, and the whole trace is written |
| SseRelay.ErrorMayBeHidden | internal/controllers/sse_controller.go:126-148 | when the closed result channel wins the select, a failed stream is relayed exactly as one that ended cleanly |
| SseRelay.DataFrameParsed | internal/controllers/sse_controller.go:133 | a browser dispatches a line-free fragment's frame as one message with that text |
| SseRelay.ErrorFrameParsed | internal/controllers/sse_controller.go:145 | the error frame is one message "[Error: …]" |
| SseRelay.PingFrameParsed | internal/controllers/sse_controller.go:151 | the ping is a comment and dispatches nothing |
| SseRelay.DoneFrameParsed | internal/controllers/sse_controller.go:129 | the done frame dispatches one "done" event with empty data |
| SseRelay.TraceParsedByBrowser | internal/web/handlers.go:131-167 | with line-free fragments, the browser receives one message per fragment, in order, then the closing event |
| SseRelay.OneFragmentRelayed | internal/web/handlers.go:134-145 | one fragment then the closed channel writes its data frame and the done frame, and buffers the fragment |
| SseRelay.DataFrameCutAtLineFeed | internal/controllers/sse_controller.go:133 | a fragment "a\nb" written as one data line is dispatched as "a" alone |
| SseRelay.LineFeedInFragmentIsCut | internal/controllers/sse_controller.go:133-135 | as written, "a\nb" is stored whole but the browser receives "a" |
| SseRelay.CorrectedTraceParsedByBrowser | internal/controllers/sse_controller.go:124-154 | with the corrected framing the browser receives every fragment whole, line feeds included, in order, then the closing event |
| SseRelay.CorrectedRelayAgreesOnPlainText | internal/controllers/sse_controller.go:124-154 | for events without line feeds the corrected framing writes exactly what the handlers write now |
| ChatTurns.ParseTurn | internal/controllers/sse_controller.go:26-55 | every refusal is a 400; a request passes iff conv is present, unescapes, decodes and the id parses; a missing conv gives "Missing conversation data"; the values passed on are the decoded ones |
| ChatTurns.ConversationIdIsRead | internal/web/chat/chat_stream.go:50-59 | an absent id selects 1, any decimal int64 selects itself, a non-numeric one is refused |
| ChatTurns.EmptyTranscriptIsAccepted | internal/controllers/sse_controller.go:39-75 | as written, "[]" passes validation with conversation 1, and the checked validation refuses it with 400 |
| ChatTurns.ParseTurnChecked | internal/controllers/sse_controller.go:39-43 | accepts exactly the requests ParseTurn accepts with a non-empty transcript, with the same values; every refusal is a 400 |
| ChatTurns.ResolveConversation | internal/controllers/sse_controller.go:57-72 | an existing conversation is kept, an unknown one replaced by a freshly created id; a check error or create error gives its 500 and no change; rows untouched |
| ChatTurns.StoreTurn | internal/controllers/sse_controller.go:76-85 | on success exactly one row with the text and its embedding literal (or 768 zeros') is appended; on failure nothing changes |
| ChatTurns.BeginTurn | internal/web/chat/chat_stream.go:27-96 | a refused request stops with its 400 before any store access; a failed check, a failed creation and a failed user insert each stop with their own 500 and no rows; the conversation is created exactly when the check succeeds and the conversation exists or its creation succeeds, and stays created after a failed user insert; otherwise the resolved conversation holds the user's row, the transcript's last content |
| ChatTurns.ChatModelIsConfigured | internal/controllers/sse_controller.go:111-114 | the model used is CHAT_MODEL, or deepseek-r1:14b when empty, as LoadConfig reports |
| ChatTurns.ControllerTurnPrompt | internal/controllers/sse_controller.go:87-97 | the prompt is the combined prompt over 10 recent and 3 relevant messages, or the bare query when that fails |
| ChatTurns.PromptIgnoresRowEmbedder | internal/services/chat_service.go:11-16 | the prompt depends only on the retrieval's own embedding call, not on the reply to the user row's embedding request |
| ChatTurns.WebTurnPrompt | internal/web/chat/chat_stream.go:98-108 | the prompt is BuildRAGPrompt(…, 3) when it succeeds, otherwise buildPrompt of the transcript |
| ChatTurns.WebPromptIsCued | internal/web/chat/chat_stream.go:98-108 | either prompt ends with the cue; the RAG one ends with the user's turn; on failure it is exactly the transcript's prompt |
| ChatTurns.ControllerPromptFallsBackToQuery | internal/controllers/sse_controller.go:93-97 | on failure the prompt is exactly the query; on success it ends with "User: " + query + "\nAssistant:" |
| ChatTurns.PromptEndsWithNewest | internal/web/chat/chat_utils.go:12-15 | a transcript's prompt ends with its newest message's line and the cue |
| ChatTurns.QueryIsInItsOwnHistory | internal/controllers/sse_controller.go:82-92 | the user's row, stored first, is a relevance candidate and the newest message of the recent window and of its prompt |
| ChatTurns.ControllerPromptRepeatsQuery | internal/controllers/sse_controller.go:82-97 | a successful combined prompt carries the query twice: as the history's last line and as the main query |
| ChatTurns.StreamTurn | internal/controllers/sse_controller.go:118-154 | the client receives the relayed stream of the model's reply, in the corrected framing, and the buffer is every fragment the producer read, whatever the schedule |
| ChatTurns.FinishTurn | internal/controllers/sse_controller.go:156-167 | the assistant row is appended iff the reply is non-empty and its insert succeeds; an insert error changes nothing else |
| ChatTurns.RelayTurn | internal/web/chat/chat_stream.go:125-176 | the stream written and the rows afterwards: the old rows plus the assistant row when there is one |
| ChatTurns.CompleteTurn | internal/controllers/sse_controller.go:87-167 | after the user's row is stored: the written stream is the relay of the model's reply to the variant's prompt, conversations stay as they were, and the rows gain exactly the assistant row when there is one |
| ChatTurns.StreamBegunTurn | internal/web/chat/chat_stream.go:98-176 | given the store as BeginTurn left it, the turn completes as StreamedTurn describes: the body relays the reply to the prompt built over the stored rows, the conversation is the resolved one, and the rows are the old ones, the user's row and the assistant's row when there is one |
| ChatTurns.ChatStream | internal/web/chat/chat_stream.go:27-176 | for either variant: a refusal is its 400 with the store unchanged; a failed check, creation or user insert answers its own 500 with rows unchanged and the conversation created exactly when it was resolved; a stream happens iff every store step succeeds, and then it is the completed turn |
| ChatTurns.ControllerChatStream | internal/controllers/sse_controller.go:18-168 | no store gives 500; a refused request gives its 400 with the store unchanged; a failed check, creation or user insert gives its own 500 with rows unchanged and the conversation created exactly when it was resolved; a stream happens iff every store step succeeds, and then conversations, rows and body are those of the completed turn |
| ChatTurns.WebChatStream | internal/web/chat/chat_stream.go:19-177 | the same for the web variant, with its messages and its prompt |
| ChatTurns.HandlerPrompt | internal/web/handlers.go:78-91 | a decodable conv gives its non-empty prompt; an absent or undecodable one falls back to the prompt parameter |
| ChatTurns.HandlerRequest | internal/web/handlers.go:64-96 | the id is checked first, then an empty prompt is refused; both refusals are 400 |
| ChatTurns.HandlerTranscriptAlwaysPrompts | internal/web/handlers.go:81-96 | a decodable transcript with a valid id is never refused and its prompt ends with the cue |
| ChatTurns.HandlerChatStream | internal/web/handlers.go:63-176 | refusals insert nothing; the user's prompt is inserted only without conv, and a failure there gives 500; otherwise the reply is relayed and inserted iff non-empty, with the fixed model |

## Left out

- HTTP plumbing is not modelled: headers, `http.Error`'s trailing newline, and status writing. The `http.Flusher` check (500 "Streaming unsupported") is also left out; the model assumes the writer can flush.
- Concurrent requests are not modelled. Each handler model has sole use of the store from the conversation check to the assistant insert, but in the source every request runs on its own goroutine against the one shared database, without a lock or a transaction (internal/controllers/sse_controller.go:57-167, internal/web/chat/chat_stream.go:62-176). Another request on the same conversation may insert rows after this request's user insert and before its prompt reads, so the newest row of the recent window need not be this request's query. It may also insert rows while the reply streams, before the assistant insert. And two requests with the same unknown `conversation_id` may both see `ConversationExists` false and both create a conversation. `ChatTurns.StreamedTurn`, `ChatTurns.QueryIsInItsOwnHistory` and `ChatTurns.ControllerPromptRepeatsQuery` therefore hold for a request that runs alone.
- Goroutines, channels, `time.Ticker` and `time.Sleep` are not modelled as such. The select sees a trace built from the producer's operations and a `Schedule`, which says where the ticks fall and which closing case wins when both are ready.
- Network calls are replaced by oracles. The generate and embed endpoints are functions from request to reply; a reply is a status plus a sequence of read outcomes, or unreachable.
- JSON encoding and decoding, `url.QueryUnescape` and the SQL engine are replaced by `Decoders` and fault parameters. A marshal failure of a string map cannot occur and is not modelled.
- Floating point is abstract. Vectors hold reals, `%f` is a formatter parameter, and pgvector's `<->` is a distance parameter.
- Logging is not modelled.
- `CreatedAt` is not modelled; the row scan keeps id, role and content.
- The global connection handles are replaced by an explicit `Store?` argument.
- `internal/web/handlers.go` calls `InsertChatMessage` with four arguments while the store takes five, so it does not compile. Its inserts are modelled as `InsertRequest`s without a store, and an assistant insert failure is not modelled there.
- The browser script `internal/views/static/chat.js` is not part of this model. The client is modelled by the event-stream parser alone.
- OllamaStream.ErrorText: the wrapped cause of `%w` is modelled as an opaque string, so its wording is not modelled.
- SseRelay.CorrectedFrame: it handles line feeds inside a fragment but not carriage returns. `CorrectedTraceParsedByBrowser` therefore requires CR-free fragments and error text.
- ChatTurns.BeginTurn: it validates with the corrected `ParseTurnChecked`. For `conv=[]` it stops with 400 "Invalid conversation format" before any store access. The source instead passes validation, checks or creates the conversation, and panics when it indexes the empty transcript (internal/controllers/sse_controller.go:58-75, internal/web/chat/chat_stream.go:62-81). The as-written validation is `ParseTurn`, and `EmptyTranscriptIsAccepted` shows it accepting `[]`; the conversation created before the panic is not modelled.
- ChatTurns.StreamTurn: the stream it writes uses the corrected framing (`CorrectedFrame`, through `Relayed`). A fragment with a line feed is written as several `data:` lines, where the source writes one `data: %s` line (internal/controllers/sse_controller.go:133). On fragments and errors without line feeds both framings write the same bytes (`SseRelay.CorrectedRelayAgreesOnPlainText`). The as-written framing is `SseRelay.Written`.
- ChatTurns.RelayTurn: the same corrected framing as StreamTurn, where internal/web/chat/chat_stream.go:140 writes `data: %s`.
- ChatTurns.CompleteTurn: the same corrected framing as StreamTurn.
- ChatTurns.StreamBegunTurn: the same corrected framing as StreamTurn.
- ChatTurns.ChatStream: both deviations, the corrected validation of BeginTurn and the corrected framing of StreamTurn.
- ChatTurns.ControllerChatStream: both deviations, as ChatStream.
- ChatTurns.WebChatStream: both deviations, as ChatStream.
- ChatTurns.HandlerChatStream: the corrected framing of StreamTurn, where internal/web/handlers.go:142 writes `data: %s`.
- ChatQueries.SortBy: the sort is stable, so rows at equal distance come back in table order and the LIMIT keeps the earliest. `ORDER BY embedding <-> $2` leaves the order among ties to the database, including which tied rows survive the LIMIT. Ties are common, because every row stored with the zero fallback is at the same distance from a query. `ChatStore.Store.GetRelevantMessages`, `Retrieval.RelevantContextRendersLookup` and `Retrieval.CombinedOutcomeIsTemplate` therefore state one of the results the database may return.
- ChatStore.Store.InsertConversation: a failed insert leaves the id counter unchanged. A failed PostgreSQL insert may consume its serial value, and the model does not capture the gap this leaves.
- ChatStore.Store.InsertChatMessage: likewise, a failed insert consumes no message id.

## Findings

| source | as written | input that shows it | evidently intended | confidence | as-written member | corrected member |
|---|---|---|---|---|---|---|
| internal/controllers/sse_controller.go:133 | a fragment is written as `data: %s\n\n` whatever it contains (also internal/web/chat/chat_stream.go:140, internal/web/handlers.go:142) | the fragment "a\nb" then the closed channel: "a\nb" is stored as the reply, but the browser receives "a", because it reads "b" as an unknown field | each line of a fragment goes on its own `data:` line, which the browser joins back with a line feed (`SseRelay.CorrectedFrame`) | not executed | SseRelay.LineFeedInFragmentIsCut | SseRelay.CorrectedTraceParsedByBrowser |
| internal/controllers/sse_controller.go:75 | the last transcript element is indexed after validation that accepts `[]` (also internal/web/chat/chat_stream.go:81) | conv=`[]` with no conversation_id: validation passes with conversation 1, and may create a conversation, before the index panics | an empty transcript is refused as an invalid conversation with 400, before any store access | not executed | ChatTurns.EmptyTranscriptIsAccepted | ChatTurns.ParseTurnChecked |

The turn handlers (`BeginTurn`, `StreamTurn` and the three `ChatStream` models) use the corrected members. The empty transcript is therefore refused at validation, and fragments are framed so they reach the client whole.
