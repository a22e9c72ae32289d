/** The chat-stream handlers, one turn each: the request is validated, the
    conversation is looked up (and created when unknown), the user's message
    is stored with its embedding, a prompt is assembled, the model's reply is
    relayed to the client as server-sent events, and the reply, when there is
    one, is stored as the assistant's message. Query parameters are a map with
    Go's `Get` semantics (absent reads as ""); URL unescaping and JSON decoding
    are decoders supplied by the environment; which store call fails is given. */
module ChatTurns {
  import opened Base
  import opened StrConv
  import opened Config
  import opened Models
  import opened ChatQueries
  import opened ChatStore
  import opened Embedding
  import opened Prompts
  import opened Retrieval
  import opened OllamaStream
  import opened SseRelay

  /** The two handlers that share the validation and persistence code:
      internal/controllers/sse_controller.go and internal/web/chat/chat_stream.go. */
  datatype Variant = Controller | Web

  /** How a request ends: an `http.Error` reply or a 200 event stream with the
      text written to it. */
  datatype Response = Failed(status: int, text: string) | Streamed(body: string)

  /** A validated request: the decoded transcript and the conversation id. */
  datatype TurnRequest = TurnRequest(transcript: seq<Message>, conversationId: int)

  /** `url.QueryUnescape`, `json.Unmarshal` into `[]Message`, and `json.Unmarshal`
      into the web handler's `[]ChatMessage`; None is a decoding error. */
  datatype Decoders = Decoders(unescape: string -> Option<string>,
                               transcript: string -> Option<seq<Message>>,
                               chat: string -> Option<seq<ChatMessage>>)

  /** Which store calls fail during the turn, and how the embedding service
      answers the retrieval's own request for the query's embedding, which is
      a separate call from the one that embeds the stored user row. */
  datatype Faults = Faults(existsFails: bool, createFails: bool, userInsertFails: bool,
                           lastFault: ReadFault, relevantFault: ReadFault, assistantInsertFails: bool,
                           retrievalEmbed: EmbedRequest -> EmbedReply)

  /** The backends the prompt builders see: the retrieval's embedding call
      answered independently of the row inserts' calls. */
  function RetrievalBackends(b: Backends, faults: Faults): (rb: Backends)
    ensures rb.embed == faults.retrievalEmbed && rb.ff == b.ff && rb.dist == b.dist
  {
    b.(embed := faults.retrievalEmbed)
  }

  const BadRequest := 400
  const InternalServerError := 500

  function NoStoreText(v: Variant): string
  {
    if v.Controller? then "DB not initialized" else "Database connection is not initialized"
  }

  function UnescapeFailedText(v: Variant): string
  {
    if v.Controller? then "Failed to decode conv" else "Failed to decode conversation"
  }

  function CheckFailedText(v: Variant): string
  {
    if v.Controller? then "Conversation check error" else "Error checking conversation"
  }

  /** `conversation_id`: absent means conversation 1, otherwise strconv.Atoi. */
  function ConversationIdParam(s: string): Option<int>
  {
    if s == "" then Some(1) else Atoi(s)
  }

  // ---------------------------------------------------------------------------
  // Validation

  /** The checks both handlers make before touching the store, in their order:
      `conv` present, unescaped, decoded; then `conversation_id`. */
  function ParseTurn(v: Variant, params: Env, d: Decoders): (r: Result<TurnRequest, Response>)
    ensures r.Err? ==> r.error.Failed? && r.error.status == BadRequest
    ensures var conv := Getenv(params, "conv");
            r.Ok? <==> conv != "" && d.unescape(conv).Some? && d.transcript(d.unescape(conv).value).Some? &&
                       ConversationIdParam(Getenv(params, "conversation_id")).Some?
    ensures var conv := Getenv(params, "conv");
            r.Ok? ==> r.value.transcript == d.transcript(d.unescape(conv).value).value &&
                      Some(r.value.conversationId) == ConversationIdParam(Getenv(params, "conversation_id"))
    ensures Getenv(params, "conv") == "" ==> r == Err(Failed(BadRequest, "Missing conversation data"))
  {
    var conv := Getenv(params, "conv");
    if conv == "" then Err(Failed(BadRequest, "Missing conversation data"))
    else
      match d.unescape(conv)
      case None => Err(Failed(BadRequest, UnescapeFailedText(v)))
      case Some(text) =>
        match d.transcript(text)
        case None => Err(Failed(BadRequest, "Invalid conversation format"))
        case Some(transcript) =>
          match ConversationIdParam(Getenv(params, "conversation_id"))
          case None => Err(Failed(BadRequest, "Invalid conversation_id"))
          case Some(cid) => Ok(TurnRequest(transcript, cid))
  }

  /** An absent conversation_id selects conversation 1; any 64-bit id written
      in decimal selects that id; a non-numeric one is refused. */
  lemma ConversationIdIsRead(n: int, s: string, i: nat)
    requires MinInt64 <= n <= MaxInt64
    ensures ConversationIdParam("") == Some(1)
    ensures ConversationIdParam(Itoa(n)) == Some(n)
    ensures 0 < i < |s| && !IsDigit(s[i]) ==> ConversationIdParam(s) == None
  {
    AtoiOfItoa(n);
    if 0 < i < |s| && !IsDigit(s[i]) {
      AtoiRejectsNonDigit(s, i);
    }
  }

  /** The empty JSON array passes every check as written, so the handlers go on
      to index the last element of an empty transcript; the checked validation
      refuses it. */
  lemma EmptyTranscriptIsAccepted(v: Variant, d: Decoders)
    requires d.unescape("[]") == Some("[]") && d.transcript("[]") == Some([])
    ensures ParseTurn(v, map["conv" := "[]"], d) == Ok(TurnRequest([], 1))
    ensures ParseTurnChecked(v, map["conv" := "[]"], d) == Err(Failed(BadRequest, "Invalid conversation format"))
  {
    var params := map["conv" := "[]"];
    assert Getenv(params, "conv") == "[]";
    assert Getenv(params, "conversation_id") == "";
  }

  /** The intended validation: an empty transcript is an invalid conversation. */
  function ParseTurnChecked(v: Variant, params: Env, d: Decoders): (r: Result<TurnRequest, Response>)
    ensures r.Ok? ==> |r.value.transcript| > 0
    ensures r.Ok? <==> ParseTurn(v, params, d).Ok? && |ParseTurn(v, params, d).value.transcript| > 0
    ensures r.Ok? ==> r == ParseTurn(v, params, d)
    ensures r.Err? ==> r.error.Failed? && r.error.status == BadRequest
  {
    match ParseTurn(v, params, d)
    case Err(e) => Err(e)
    case Ok(req) => if |req.transcript| == 0 then Err(Failed(BadRequest, "Invalid conversation format")) else Ok(req)
  }

  // ---------------------------------------------------------------------------
  // The store-side phases

  /** The conversation a turn is recorded in: the requested one when it exists,
      otherwise the one created for it. */
  function Resolved(conversations: set<int>, next: int, requested: int): int
  {
    if requested in conversations then requested else next
  }

  /** ConversationExists, and InsertConversation when it is not found. */
  method ResolveConversation(store: Store, v: Variant, requested: int, existsFails: bool, createFails: bool)
    returns (cid: int, failure: Option<Response>)
    requires store.Valid()
    modifies store
    ensures store.Valid()
    ensures store.rows == old(store.rows) && store.nextMessageId == old(store.nextMessageId)
    ensures failure.None? <==> !existsFails && (requested in old(store.conversations) || !createFails)
    ensures failure.None? ==> cid == Resolved(old(store.conversations), old(store.nextConversationId), requested)
    ensures failure.None? ==> store.conversations == old(store.conversations) + {cid}
    ensures existsFails ==> failure == Some(Failed(InternalServerError, CheckFailedText(v)))
    ensures !existsFails && requested !in old(store.conversations) && createFails ==>
              failure == Some(Failed(InternalServerError, "Failed to create conversation"))
    ensures failure.Some? ==> store.conversations == old(store.conversations)
  {
    var found, err := store.ConversationExists(requested, existsFails);
    if err.Some? {
      return 0, Some(Failed(InternalServerError, CheckFailedText(v)));
    }
    if found {
      return requested, None;
    }
    var created, createErr := store.InsertConversation(createFails);
    if createErr.Some? {
      return 0, Some(Failed(InternalServerError, "Failed to create conversation"));
    }
    cid, failure := created, None;
  }

  /** The embedding literal a message is stored with: its embedding, or 768
      zeros when that cannot be computed, in pgvector's text format. */
  function EmbeddingText(env: Env, b: Backends, text: string): string
  {
    VectorLiteral(EmbeddingOrZeros(ComputeEmbedding(env, text, b.embed)), b.ff)
  }

  function TurnRow(id: int, cid: int, role: string, text: string, env: Env, b: Backends): Row
  {
    Row(id, cid, role, text, EmbeddingText(env, b, text))
  }

  /** Compute the embedding (falling back to zeros), format it, insert the message. */
  method StoreTurn(store: Store, env: Env, b: Backends, cid: int, role: string, text: string, fails: bool)
    returns (err: Option<StoreError>)
    requires store.Valid()
    modifies store
    ensures store.Valid()
    ensures store.conversations == old(store.conversations) && store.nextConversationId == old(store.nextConversationId)
    ensures err.None? <==> !fails
    ensures err.None? ==> store.rows == old(store.rows) + [TurnRow(old(store.nextMessageId), cid, role, text, env, b)]
    ensures err.None? ==> store.nextMessageId == old(store.nextMessageId) + 1
    ensures err.Some? ==> store.rows == old(store.rows) && store.nextMessageId == old(store.nextMessageId)
  {
    var embedded := ComputeEmbedding(env, text, b.embed);
    var vector := EmbeddingOrZeros(embedded);
    var literal := FormatVector(vector, b.ff);
    var id;
    id, err := store.InsertChatMessage(cid, role, text, literal, fails);
  }

  /** The 500 a failed store step of a validated turn answers with, and the
      conversations afterwards. The check of the conversation, its creation and
      the user's insert are tried in that order; a conversation once resolved
      stays created, even when the user's insert then fails. */
  predicate TurnFailures(v: Variant, req: TurnRequest, conversations0: set<int>, nextConversation0: int,
                         faults: Faults, resp: Response, conversations: set<int>)
  {
    var resolvable := !faults.existsFails && (req.conversationId in conversations0 || !faults.createFails);
    (faults.existsFails ==> resp == Failed(InternalServerError, CheckFailedText(v))) &&
    (!faults.existsFails && !resolvable ==> resp == Failed(InternalServerError, "Failed to create conversation")) &&
    (resolvable && faults.userInsertFails ==> resp == Failed(InternalServerError, "Failed to store user message")) &&
    (!resolvable ==> conversations == conversations0) &&
    (resolvable ==> conversations == conversations0 + {Resolved(conversations0, nextConversation0, req.conversationId)})
  }

  /** What a turn does before its prompt: validation, the conversation, the
      user's message (the transcript's last element). */
  datatype Begun = Begun(cid: int, query: string, transcript: seq<Message>) | Stopped(response: Response)

  method BeginTurn(store: Store, v: Variant, params: Env, env: Env, d: Decoders, b: Backends, faults: Faults)
    returns (r: Begun)
    requires store.Valid()
    modifies store
    ensures store.Valid()
    ensures r.Stopped? ==> !r.response.Streamed?
    ensures ParseTurnChecked(v, params, d).Err? ==>
              r == Stopped(ParseTurnChecked(v, params, d).error) &&
              store.rows == old(store.rows) && store.conversations == old(store.conversations)
    ensures ParseTurnChecked(v, params, d).Ok? ==>
              var req := ParseTurnChecked(v, params, d).value;
              var resolvable := !faults.existsFails && (req.conversationId in old(store.conversations) || !faults.createFails);
              (r.Begun? <==> resolvable && !faults.userInsertFails) &&
              (r.Stopped? ==> store.rows == old(store.rows))
    ensures ParseTurnChecked(v, params, d).Ok? && r.Stopped? ==>
              TurnFailures(v, ParseTurnChecked(v, params, d).value, old(store.conversations), old(store.nextConversationId),
                           faults, r.response, store.conversations)
    ensures r.Begun? ==>
              var req := ParseTurnChecked(v, params, d).value;
              r.transcript == req.transcript &&
              r.query == req.transcript[|req.transcript| - 1].content &&
              r.cid == Resolved(old(store.conversations), old(store.nextConversationId), req.conversationId) &&
              store.conversations == old(store.conversations) + {r.cid} &&
              store.rows == old(store.rows) + [TurnRow(old(store.nextMessageId), r.cid, UserRole, r.query, env, b)] &&
              store.nextMessageId == old(store.nextMessageId) + 1
  {
    var parsed := ParseTurnChecked(v, params, d);
    if parsed.Err? {
      return Stopped(parsed.error);
    }
    var req := parsed.value;
    var cid, failure := ResolveConversation(store, v, req.conversationId, faults.existsFails, faults.createFails);
    if failure.Some? {
      return Stopped(failure.value);
    }
    var query := req.transcript[|req.transcript| - 1].content;
    var err := StoreTurn(store, env, b, cid, UserRole, query, faults.userInsertFails);
    if err.Some? {
      return Stopped(Failed(InternalServerError, "Failed to store user message"));
    }
    r := Begun(cid, query, req.transcript);
  }

  // ---------------------------------------------------------------------------
  // Prompt, stream, reply

  /** CHAT_MODEL, or "deepseek-r1:14b" when it is empty. */
  function ChatModel(env: Env): string
  {
    DefaultString(Getenv(env, "CHAT_MODEL"), DefaultChatModel)
  }

  /** The handlers pick the model exactly as the configuration loader does. */
  lemma ChatModelIsConfigured(env: Env)
    ensures ChatModel(env) == LoadConfig(env).chatModel
    ensures ChatModel(env) != ""
    ensures Getenv(env, "CHAT_MODEL") == "" ==> ChatModel(env) == "deepseek-r1:14b"
  {
  }

  /** The controller's prompt: the combined template over the last 10 messages
      and the 3 most relevant ones, or the bare query when that fails. */
  function ControllerPrompt(rows: seq<Row>, env: Env, cid: int, query: string, b: Backends, faults: Faults): string
  {
    var r := CombinedOutcome(rows, env, cid, query, 10, 3, RetrievalBackends(b, faults), faults.lastFault, faults.relevantFault);
    if r.Ok? then r.value else query
  }

  /** The web handler's prompt: the RAG template over the 3 most relevant
      messages, or the client's transcript when that fails. */
  function WebPrompt(rows: seq<Row>, env: Env, cid: int, transcript: seq<Message>, query: string, b: Backends, faults: Faults): string
  {
    var r := RagOutcome(rows, env, cid, query, 3, RetrievalBackends(b, faults), faults.relevantFault);
    if r.Ok? then r.value else FullPrompt(transcript)
  }

  /** The prompt does not depend on how the embedding service answers the
      row inserts: the user row may be stored with the zero fallback while the
      retrieval's own call succeeds, and the other way round. */
  lemma PromptIgnoresRowEmbedder(rows: seq<Row>, env: Env, cid: int, transcript: seq<Message>, query: string,
                                 b: Backends, b': Backends, faults: Faults)
    requires b.ff == b'.ff && b.dist == b'.dist
    ensures ControllerPrompt(rows, env, cid, query, b, faults) == ControllerPrompt(rows, env, cid, query, b', faults)
    ensures WebPrompt(rows, env, cid, transcript, query, b, faults) == WebPrompt(rows, env, cid, transcript, query, b', faults)
  {
    assert RetrievalBackends(b, faults) == RetrievalBackends(b', faults);
  }

  /** The prompt each handler sends to the model. */
  function TurnPrompt(v: Variant, rows: seq<Row>, env: Env, cid: int, transcript: seq<Message>, query: string, b: Backends, faults: Faults): string
  {
    if v.Controller? then ControllerPrompt(rows, env, cid, query, b, faults)
    else WebPrompt(rows, env, cid, transcript, query, b, faults)
  }

  /** BuildCombinedPrompt(conversationID, userQuery, 10, 3), falling back to the query. */
  method ControllerTurnPrompt(store: Store, env: Env, cid: int, query: string, b: Backends, faults: Faults)
    returns (prompt: string)
    requires store.Valid()
    ensures prompt == ControllerPrompt(store.rows, env, cid, query, b, faults)
  {
    var err;
    prompt, err := BuildCombinedPrompt(store, env, cid, query, 10, 3, RetrievalBackends(b, faults), faults.lastFault, faults.relevantFault);
    if err.Some? {
      prompt := query;
    }
  }

  /** buildPrompt(conversation), replaced by BuildRAGPrompt(conversationID, userQuery, 3) when that succeeds. */
  method WebTurnPrompt(store: Store, env: Env, cid: int, transcript: seq<Message>, query: string, b: Backends, faults: Faults)
    returns (prompt: string)
    requires store.Valid()
    ensures prompt == WebPrompt(store.rows, env, cid, transcript, query, b, faults)
  {
    prompt := BuildFullPrompt(transcript);
    var ragPrompt, err := BuildRAGPrompt(store, env, cid, query, 3, RetrievalBackends(b, faults), faults.relevantFault);
    if err.None? {
      prompt := ragPrompt;
    }
  }

  /** The web handler always cues the model: both its prompts end with "\nAssistant:",
      and the RAG one ends with the user's query turn. */
  lemma WebPromptIsCued(rows: seq<Row>, env: Env, cid: int, transcript: seq<Message>, query: string, b: Backends, faults: Faults)
    ensures EndsWith(WebPrompt(rows, env, cid, transcript, query, b, faults), AssistantCue)
    ensures RagOutcome(rows, env, cid, query, 3, RetrievalBackends(b, faults), faults.relevantFault).Ok? ==>
              EndsWith(WebPrompt(rows, env, cid, transcript, query, b, faults), "\nUser: " + query + AssistantCue)
    ensures RagOutcome(rows, env, cid, query, 3, RetrievalBackends(b, faults), faults.relevantFault).Err? ==>
              WebPrompt(rows, env, cid, transcript, query, b, faults) == FullPrompt(transcript)
  {
    var r := RagOutcome(rows, env, cid, query, 3, RetrievalBackends(b, faults), faults.relevantFault);
    if r.Ok? {
      RagOutcomeShape(rows, env, cid, query, 3, RetrievalBackends(b, faults), faults.relevantFault);
      var p := r.value;
      assert EndsWith(p, "\nUser: " + query + AssistantCue);
      assert p[|p| - |AssistantCue|..] == (p[|p| - |"\nUser: " + query + AssistantCue|..])[|"\nUser: " + query|..];
    } else {
      FullPromptShape(transcript);
    }
  }

  /** The controller's prompt is either the bare query (when the combined
      prompt fails) or a combined prompt ending with the query's turn. */
  lemma ControllerPromptFallsBackToQuery(rows: seq<Row>, env: Env, cid: int, query: string, b: Backends, faults: Faults)
    ensures var r := CombinedOutcome(rows, env, cid, query, 10, 3, RetrievalBackends(b, faults), faults.lastFault, faults.relevantFault);
            (r.Err? ==> ControllerPrompt(rows, env, cid, query, b, faults) == query) &&
            (r.Ok? ==> EndsWith(ControllerPrompt(rows, env, cid, query, b, faults), "User: " + query + AssistantCue))
  {
    var rb := RetrievalBackends(b, faults);
    var r := CombinedOutcome(rows, env, cid, query, 10, 3, rb, faults.lastFault, faults.relevantFault);
    assert ControllerPrompt(rows, env, cid, query, b, faults) == if r.Ok? then r.value else query;
    if r.Ok? {
      CombinedOutcomeParts(rows, env, cid, query, 10, 3, rb, faults.lastFault, faults.relevantFault);
      var last := LastOutcome(rows, cid, 10, faults.lastFault);
      var ctx := RelevantContext(rows, env, cid, query, 3, rb, faults.relevantFault);
      CombinedPromptShape(FullPrompt(last.0), ctx.value, query);
    }
  }

  /** A transcript's prompt ends with its newest message's line and the cue. */
  lemma PromptEndsWithNewest(msgs: seq<Message>)
    requires |msgs| > 0
    ensures EndsWith(FullPrompt(msgs), Line(msgs[|msgs| - 1]) + AssistantCue)
  {
    var last := Line(msgs[|msgs| - 1]) + AssistantCue;
    var p := FullPrompt(msgs);
    assert p == Render(msgs[..|msgs| - 1], Line) + last;
    assert p[|p| - |last|..] == last;
  }

  /** The user's message is stored before the prompt is built, so it is a
      candidate of the relevance lookup and the newest message of the
      recent-history window the combined prompt puts first. */
  lemma QueryIsInItsOwnHistory(rows: seq<Row>, user: Row, n: int)
    requires IdsAscending(rows + [user])
    requires n >= 1
    ensures user in ConvRows(rows + [user], user.conversationId)
    ensures var window := LastOutcome(rows + [user], user.conversationId, n, NoFault).0;
            |window| > 0 && window[|window| - 1] == Message(user.id, user.role, user.content) &&
            EndsWith(FullPrompt(window), Line(Message(user.id, user.role, user.content)) + AssistantCue)
  {
    ConvRowsAppend(rows, user, user.conversationId);
    AppendedMessageIsReadBack(rows, user, n);
    PromptEndsWithNewest(LastOutcome(rows + [user], user.conversationId, n, NoFault).0);
  }

  /** The model's reply as the producer reads it: the fragments, concatenated. */
  function Reply(model: string, prompt: string, generate: GenerateRequest -> GenerateReply): string
  {
    Render(StreamOutcome(generate(GenerateRequest(model, prompt))).0, AsText)
  }

  /** The event stream the client receives for that reply, in the corrected
      framing that carries line feeds inside a fragment (see `CorrectedFrame`). */
  function Relayed(model: string, prompt: string, generate: GenerateRequest -> GenerateReply, sched: Schedule): string
  {
    Render(Handled(ChannelTrace(ProducerOps(StreamOutcome(generate(GenerateRequest(model, prompt)))), sched)), CorrectedFrame)
  }

  /** The newest row of a conversation is the last message of its recent history. */
  lemma NewestEndsRecentHistory(rows0: seq<Row>, row: Row, limit: nat)
    requires limit >= 1
    ensures var h := RecentHistory(rows0 + [row], row.conversationId, limit);
            |h| > 0 && h[|h| - 1] == Message(row.id, row.role, row.content)
  {
    ConvRowsAppend(rows0, row, row.conversationId);
    var conv := ConvRows(rows0 + [row], row.conversationId);
    assert conv[|conv| - 1] == row;
  }

  lemma UserLine(m: Message)
    requires m.role == UserRole
    ensures Line(m) == "user: " + m.content + "\n"
  {
  }

  /** Because the user's row is stored before BuildCombinedPrompt runs, a
      combined prompt carries the query twice: in the last line of the
      recent-history section, and as the main query at the end. */
  lemma ControllerPromptRepeatsQuery(rows0: seq<Row>, user: Row, env: Env, b: Backends, faults: Faults)
    requires user.role == UserRole
    ensures var rows := rows0 + [user];
            var history := FullPrompt(RecentHistory(rows, user.conversationId, 10));
            var p := ControllerPrompt(rows, env, user.conversationId, user.content, b, faults);
            CombinedOutcome(rows, env, user.conversationId, user.content, 10, 3, RetrievalBackends(b, faults), faults.lastFault, faults.relevantFault).Ok? ==>
              EndsWith(history, "user: " + user.content + "\n" + AssistantCue) &&
              OccursAt(history, p, |CombinedIntro|) &&
              EndsWith(p, "User: " + user.content + AssistantCue)
  {
    var rows := rows0 + [user];
    var cid, query := user.conversationId, user.content;
    var rb := RetrievalBackends(b, faults);
    var r := CombinedOutcome(rows, env, cid, query, 10, 3, rb, faults.lastFault, faults.relevantFault);
    if r.Ok? {
      HistoryEndsWithQuery(rows0, user);
      var ctx := RelevantContext(rows, env, cid, query, 3, rb, faults.relevantFault);
      CombinedOutcomeParts(rows, env, cid, query, 10, 3, rb, faults.lastFault, faults.relevantFault);
      CombinedOutcomeSections(rows, env, cid, query, 10, 3, rb, faults.lastFault, faults.relevantFault,
                              FullPrompt(RecentHistory(rows, cid, 10)), ctx.value, r.value);
    }
  }

  /** The recent history's prompt ends with the newly stored user's line and the cue. */
  lemma HistoryEndsWithQuery(rows0: seq<Row>, user: Row)
    requires user.role == UserRole
    ensures EndsWith(FullPrompt(RecentHistory(rows0 + [user], user.conversationId, 10)), "user: " + user.content + "\n" + AssistantCue)
  {
    NewestEndsRecentHistory(rows0, user, 10);
    var recent := RecentHistory(rows0 + [user], user.conversationId, 10);
    PromptEndsWithNewest(recent);
    UserLine(recent[|recent| - 1]);
  }

  /** StreamOllamaChunks, the channels, the select loop: what is written to the
      client and what ends up in `assistantBuf`, which is every fragment the
      producer read, in order, whatever the schedule. */
  method StreamTurn(model: string, prompt: string, generate: GenerateRequest -> GenerateReply, sched: Schedule)
    returns (written: string, reply: string)
    ensures written == Relayed(model, prompt, generate, sched)
    ensures reply == Render(StreamOutcome(generate(GenerateRequest(model, prompt))).0, AsText)
  {
    var ops := StreamOllamaChunks(model, prompt, generate);
    var events := ChannelTrace(ops, sched);
    written, reply := StreamLoop(events, CorrectedFrame);
    TraceIsRelayedWhole(ops, sched);
    ProducerOpsShape(StreamOutcome(generate(GenerateRequest(model, prompt))));
  }

  /** The rows the assistant's turn adds: one when there is a reply and the insert succeeds. */
  function AssistantRows(id: int, cid: int, reply: string, env: Env, b: Backends, fails: bool): seq<Row>
  {
    if reply != "" && !fails then [TurnRow(id, cid, AssistantRole, reply, env, b)] else []
  }

  /** `if assistantBuf != "" { ... InsertChatMessage ... }`; an insert error is only logged. */
  method FinishTurn(store: Store, env: Env, b: Backends, cid: int, reply: string, fails: bool)
    requires store.Valid()
    modifies store
    ensures store.Valid()
    ensures store.conversations == old(store.conversations)
    ensures store.rows == old(store.rows) + AssistantRows(old(store.nextMessageId), cid, reply, env, b, fails)
  {
    if reply != "" {
      var err := StoreTurn(store, env, b, cid, AssistantRole, reply, fails);
    }
  }

  /** Stream the reply to the prompt and store it. */
  method RelayTurn(store: Store, env: Env, b: Backends, cid: int, prompt: string,
                   generate: GenerateRequest -> GenerateReply, sched: Schedule, fails: bool)
    returns (written: string)
    requires store.Valid()
    modifies store
    ensures store.Valid()
    ensures written == Relayed(ChatModel(env), prompt, generate, sched)
    ensures store.conversations == old(store.conversations)
    ensures store.rows == old(store.rows) +
              AssistantRows(old(store.nextMessageId), cid, Reply(ChatModel(env), prompt, generate), env, b, fails)
  {
    var reply;
    written, reply := StreamTurn(ChatModel(env), prompt, generate, sched);
    FinishTurn(store, env, b, cid, reply, fails);
  }

  /** The turn a streamed response completes, given the store as it was before
      the request: the conversation it was recorded in, the user's row, and the
      assistant's row when there is one. */
  predicate StreamedTurn(v: Variant, req: TurnRequest, conversations0: set<int>, nextConversation0: int,
                         rows0: seq<Row>, nextMessage0: int, env: Env, b: Backends,
                         generate: GenerateRequest -> GenerateReply, sched: Schedule, faults: Faults,
                         body: string, conversations: set<int>, rows: seq<Row>)
  {
    |req.transcript| > 0 &&
    var query := req.transcript[|req.transcript| - 1].content;
    var cid := Resolved(conversations0, nextConversation0, req.conversationId);
    var user := TurnRow(nextMessage0, cid, UserRole, query, env, b);
    var prompt := TurnPrompt(v, rows0 + [user], env, cid, req.transcript, query, b, faults);
    body == Relayed(ChatModel(env), prompt, generate, sched) &&
    conversations == conversations0 + {cid} &&
    rows == rows0 + [user] + AssistantRows(nextMessage0 + 1, cid, Reply(ChatModel(env), prompt, generate), env, b, faults.assistantInsertFails)
  }

  /** The phases of a turn compose into StreamedTurn. */
  lemma TurnStreamed(v: Variant, req: TurnRequest, conversations0: set<int>, nextConversation0: int,
                     rows0: seq<Row>, nextMessage0: int, env: Env, b: Backends,
                     generate: GenerateRequest -> GenerateReply, sched: Schedule, faults: Faults,
                     cid: int, prompt: string, rows1: seq<Row>, nextMessage1: int,
                     body: string, conversations: set<int>, rows: seq<Row>)
    requires |req.transcript| > 0
    requires cid == Resolved(conversations0, nextConversation0, req.conversationId)
    requires conversations == conversations0 + {cid}
    requires rows1 == rows0 + [TurnRow(nextMessage0, cid, UserRole, req.transcript[|req.transcript| - 1].content, env, b)]
    requires nextMessage1 == nextMessage0 + 1
    requires prompt == TurnPrompt(v, rows1, env, cid, req.transcript, req.transcript[|req.transcript| - 1].content, b, faults)
    requires body == Relayed(ChatModel(env), prompt, generate, sched)
    requires rows == rows1 + AssistantRows(nextMessage1, cid, Reply(ChatModel(env), prompt, generate), env, b, faults.assistantInsertFails)
    ensures StreamedTurn(v, req, conversations0, nextConversation0, rows0, nextMessage0, env, b, generate, sched, faults,
                         body, conversations, rows)
  {
  }

  // ---------------------------------------------------------------------------
  // The handlers

  /** Build the prompt the handler uses, stream the reply and store it. */
  method CompleteTurn(store: Store, v: Variant, env: Env, b: Backends, cid: int, transcript: seq<Message>, query: string,
                      generate: GenerateRequest -> GenerateReply, sched: Schedule, faults: Faults)
    returns (written: string)
    requires store.Valid()
    modifies store
    ensures store.Valid()
    ensures written == Relayed(ChatModel(env), TurnPrompt(v, old(store.rows), env, cid, transcript, query, b, faults), generate, sched)
    ensures store.conversations == old(store.conversations)
    ensures store.rows == old(store.rows) +
              AssistantRows(old(store.nextMessageId), cid,
                            Reply(ChatModel(env), TurnPrompt(v, old(store.rows), env, cid, transcript, query, b, faults), generate),
                            env, b, faults.assistantInsertFails)
  {
    var prompt;
    if v.Controller? {
      prompt := ControllerTurnPrompt(store, env, cid, query, b, faults);
    } else {
      prompt := WebTurnPrompt(store, env, cid, transcript, query, b, faults);
    }
    written := RelayTurn(store, env, b, cid, prompt, generate, sched, faults.assistantInsertFails);
  }

  /** The rest of a turn once BeginTurn has stored the user's message in the
      resolved conversation: the prompt, the relayed stream and the reply's row. */
  method StreamBegunTurn(store: Store, v: Variant, ghost req: TurnRequest, env: Env, b: Backends, begun: Begun,
                    generate: GenerateRequest -> GenerateReply, sched: Schedule, faults: Faults,
                    ghost conversations0: set<int>, ghost nextConversation0: int, ghost rows0: seq<Row>, ghost nextMessage0: int)
    returns (written: string)
    requires store.Valid()
    requires begun.Begun? && |req.transcript| > 0
    requires begun.transcript == req.transcript && begun.query == req.transcript[|req.transcript| - 1].content
    requires begun.cid == Resolved(conversations0, nextConversation0, req.conversationId)
    requires store.conversations == conversations0 + {begun.cid}
    requires store.rows == rows0 + [TurnRow(nextMessage0, begun.cid, UserRole, begun.query, env, b)]
    requires store.nextMessageId == nextMessage0 + 1
    modifies store
    ensures store.Valid()
    ensures StreamedTurn(v, req, conversations0, nextConversation0, rows0, nextMessage0, env, b, generate, sched, faults,
                         written, store.conversations, store.rows)
  {
    ghost var rows1, next1 := store.rows, store.nextMessageId;
    written := CompleteTurn(store, v, env, b, begun.cid, begun.transcript, begun.query, generate, sched, faults);
    TurnStreamed(v, req, conversations0, nextConversation0, rows0, nextMessage0, env, b, generate, sched, faults, begun.cid,
                 TurnPrompt(v, rows1, env, begun.cid, begun.transcript, begun.query, b, faults), rows1, next1,
                 written, store.conversations, store.rows);
  }

  /** The body both ChatStream handlers share, once the store handle is known
      to be set. */
  method ChatStream(store: Store, v: Variant, params: Env, env: Env, d: Decoders, b: Backends,
                    generate: GenerateRequest -> GenerateReply, sched: Schedule, faults: Faults)
    returns (resp: Response)
    requires store.Valid()
    modifies store
    ensures store.Valid()
    ensures ParseTurnChecked(v, params, d).Err? ==>
              resp == ParseTurnChecked(v, params, d).error &&
              store.rows == old(store.rows) && store.conversations == old(store.conversations)
    ensures resp.Failed? ==> store.rows == old(store.rows)
    ensures resp.Streamed? ==>
              ParseTurnChecked(v, params, d).Ok? &&
              StreamedTurn(v, ParseTurnChecked(v, params, d).value,
                           old(store.conversations), old(store.nextConversationId), old(store.rows), old(store.nextMessageId),
                           env, b, generate, sched, faults, resp.body, store.conversations, store.rows)
    ensures ParseTurnChecked(v, params, d).Ok? ==>
              var req := ParseTurnChecked(v, params, d).value;
              (resp.Streamed? <==> !faults.existsFails && (req.conversationId in old(store.conversations) || !faults.createFails) &&
                                   !faults.userInsertFails)
    ensures ParseTurnChecked(v, params, d).Ok? && !resp.Streamed? ==>
              TurnFailures(v, ParseTurnChecked(v, params, d).value, old(store.conversations), old(store.nextConversationId),
                           faults, resp, store.conversations)
  {
    var begun := BeginTurn(store, v, params, env, d, b, faults);
    if begun.Stopped? {
      return begun.response;
    }
    ghost var req := ParseTurnChecked(v, params, d).value;
    var written := StreamBegunTurn(store, v, req, env, b, begun, generate, sched, faults,
                                   old(store.conversations), old(store.nextConversationId), old(store.rows), old(store.nextMessageId));
    resp := Streamed(written);
  }

  /** internal/controllers/sse_controller.go ChatStream. `store` is the global
      handle, null when it was never set. */
  method ControllerChatStream(store: Store?, params: Env, env: Env, d: Decoders, b: Backends,
                              generate: GenerateRequest -> GenerateReply, sched: Schedule, faults: Faults)
    returns (resp: Response)
    requires store != null ==> store.Valid()
    modifies store
    ensures store != null ==> store.Valid()
    ensures store == null ==> resp == Failed(InternalServerError, NoStoreText(Controller))
    ensures store != null && ParseTurnChecked(Controller, params, d).Err? ==>
              resp == ParseTurnChecked(Controller, params, d).error &&
              store.rows == old(store.rows) && store.conversations == old(store.conversations)
    ensures resp.Failed? && store != null ==> store.rows == old(store.rows)
    ensures resp.Streamed? ==>
              store != null && ParseTurnChecked(Controller, params, d).Ok? &&
              StreamedTurn(Controller, ParseTurnChecked(Controller, params, d).value,
                           old(store.conversations), old(store.nextConversationId), old(store.rows), old(store.nextMessageId),
                           env, b, generate, sched, faults, resp.body, store.conversations, store.rows)
    ensures store != null && ParseTurnChecked(Controller, params, d).Ok? ==>
              var req := ParseTurnChecked(Controller, params, d).value;
              (resp.Streamed? <==> !faults.existsFails && (req.conversationId in old(store.conversations) || !faults.createFails) &&
                                   !faults.userInsertFails)
    ensures store != null && ParseTurnChecked(Controller, params, d).Ok? && !resp.Streamed? ==>
              TurnFailures(Controller, ParseTurnChecked(Controller, params, d).value, old(store.conversations), old(store.nextConversationId),
                           faults, resp, store.conversations)
  {
    if store == null {
      return Failed(InternalServerError, NoStoreText(Controller));
    }
    resp := ChatStream(store, Controller, params, env, d, b, generate, sched, faults);
  }

  /** internal/web/chat/chat_stream.go ChatStream. */
  method WebChatStream(store: Store?, params: Env, env: Env, d: Decoders, b: Backends,
                       generate: GenerateRequest -> GenerateReply, sched: Schedule, faults: Faults)
    returns (resp: Response)
    requires store != null ==> store.Valid()
    modifies store
    ensures store != null ==> store.Valid()
    ensures store == null ==> resp == Failed(InternalServerError, NoStoreText(Web))
    ensures store != null && ParseTurnChecked(Web, params, d).Err? ==>
              resp == ParseTurnChecked(Web, params, d).error &&
              store.rows == old(store.rows) && store.conversations == old(store.conversations)
    ensures resp.Failed? && store != null ==> store.rows == old(store.rows)
    ensures resp.Streamed? ==>
              store != null && ParseTurnChecked(Web, params, d).Ok? &&
              StreamedTurn(Web, ParseTurnChecked(Web, params, d).value,
                           old(store.conversations), old(store.nextConversationId), old(store.rows), old(store.nextMessageId),
                           env, b, generate, sched, faults, resp.body, store.conversations, store.rows)
    ensures store != null && ParseTurnChecked(Web, params, d).Ok? ==>
              var req := ParseTurnChecked(Web, params, d).value;
              (resp.Streamed? <==> !faults.existsFails && (req.conversationId in old(store.conversations) || !faults.createFails) &&
                                   !faults.userInsertFails)
    ensures store != null && ParseTurnChecked(Web, params, d).Ok? && !resp.Streamed? ==>
              TurnFailures(Web, ParseTurnChecked(Web, params, d).value, old(store.conversations), old(store.nextConversationId),
                           faults, resp, store.conversations)
  {
    if store == null {
      return Failed(InternalServerError, NoStoreText(Web));
    }
    resp := ChatStream(store, Web, params, env, d, b, generate, sched, faults);
  }

  // ---------------------------------------------------------------------------
  // internal/web/handlers.go

  /** A message the handler asks the store to insert. The handler calls the
      store's insert with four arguments where the store takes five (the
      embedding is missing), so it is kept at the level of the request. */
  datatype InsertRequest = InsertRequest(conversationId: int, role: string, content: string)

  /** The handler's prompt: from the `conv` transcript when it decodes, from
      the `prompt` parameter otherwise. */
  function HandlerPrompt(params: Env, d: Decoders): (prompt: string)
    ensures var conv := Getenv(params, "conv");
            conv != "" && d.chat(conv).Some? ==> prompt == ChatPrompt(d.chat(conv).value) && prompt != ""
    ensures var conv := Getenv(params, "conv");
            conv == "" || d.chat(conv).None? ==> prompt == Getenv(params, "prompt")
  {
    var conv := Getenv(params, "conv");
    if conv != "" && d.chat(conv).Some? then
      var p := ChatPrompt(d.chat(conv).value);
      assert |p| >= |AssistantCue|;
      p
    else Getenv(params, "prompt")
  }

  /** The handler's checks: conversation_id first, then an empty prompt. */
  function HandlerRequest(params: Env, d: Decoders): (r: Result<(int, string), Response>)
    ensures r.Err? ==> r.error.Failed? && r.error.status == BadRequest
    ensures r.Ok? <==> ConversationIdParam(Getenv(params, "conversation_id")).Some? && HandlerPrompt(params, d) != ""
    ensures r.Ok? ==> Some(r.value.0) == ConversationIdParam(Getenv(params, "conversation_id")) &&
                      r.value.1 == HandlerPrompt(params, d)
  {
    match ConversationIdParam(Getenv(params, "conversation_id"))
    case None => Err(Failed(BadRequest, "Invalid conversation_id"))
    case Some(cid) =>
      var prompt := HandlerPrompt(params, d);
      if prompt == "" then Err(Failed(BadRequest, "No prompt provided")) else Ok((cid, prompt))
  }

  /** A decodable transcript is never refused for want of a prompt, and its
      prompt always ends with the cue. */
  lemma HandlerTranscriptAlwaysPrompts(params: Env, d: Decoders)
    requires Getenv(params, "conv") != "" && d.chat(Getenv(params, "conv")).Some?
    requires ConversationIdParam(Getenv(params, "conversation_id")).Some?
    ensures HandlerRequest(params, d).Ok?
    ensures EndsWith(HandlerRequest(params, d).value.1, AssistantCue)
  {
    ChatPromptShape(d.chat(Getenv(params, "conv")).value);
  }

  /** internal/web/handlers.go ChatStream, with the inserts it asks for. The
      model name is fixed, not read from CHAT_MODEL. */
  method HandlerChatStream(params: Env, d: Decoders, generate: GenerateRequest -> GenerateReply,
                           sched: Schedule, userInsertFails: bool)
    returns (resp: Response, inserts: seq<InsertRequest>)
    ensures HandlerRequest(params, d).Err? ==> resp == HandlerRequest(params, d).error && inserts == []
    ensures HandlerRequest(params, d).Ok? ==>
              var (cid, prompt) := HandlerRequest(params, d).value;
              var userTurn := if Getenv(params, "conv") == "" then [InsertRequest(cid, UserRole, prompt)] else [];
              var reply := Reply(DefaultChatModel, prompt, generate);
              (Getenv(params, "conv") == "" && userInsertFails ==>
                 resp == Failed(InternalServerError, "Failed to store user message") && inserts == userTurn) &&
              (Getenv(params, "conv") != "" || !userInsertFails ==>
                 resp == Streamed(Relayed(DefaultChatModel, prompt, generate, sched)) &&
                 inserts == userTurn + (if reply != "" then [InsertRequest(cid, AssistantRole, reply)] else []))
  {
    var conversationId := ConversationIdParam(Getenv(params, "conversation_id"));
    if conversationId.None? {
      return Failed(BadRequest, "Invalid conversation_id"), [];
    }
    var cid := conversationId.value;
    var convJson := Getenv(params, "conv");
    var prompt;
    if convJson != "" {
      var conversation := d.chat(convJson);
      if conversation.None? {
        prompt := Getenv(params, "prompt");
      } else {
        prompt := BuildPromptFromMessages(conversation.value);
      }
    } else {
      prompt := Getenv(params, "prompt");
    }
    if prompt == "" {
      return Failed(BadRequest, "No prompt provided"), [];
    }
    inserts := [];
    if convJson == "" {
      inserts := [InsertRequest(cid, UserRole, prompt)];
      if userInsertFails {
        return Failed(InternalServerError, "Failed to store user message"), inserts;
      }
    }
    var written, reply := StreamTurn(DefaultChatModel, prompt, generate, sched);
    assert reply == Reply(DefaultChatModel, prompt, generate);
    if reply != "" {
      inserts := inserts + [InsertRequest(cid, AssistantRole, reply)];
    }
    resp := Streamed(written);
  }
}
