/** Retrieval-augmented prompts: the query is embedded, the conversation's
    closest stored messages are rendered as context, and the context (and, for
    the combined prompt, the recent history) is placed in a template around the
    query. Every failure is passed up; none is papered over here. */
module Retrieval {
  import opened Base
  import opened Models
  import opened ChatQueries
  import opened ChatStore
  import opened Embedding
  import opened Prompts

  /** What the environment supplies: the embedding backend, the `%f` element
      formatter and the `<->` distance of the database. */
  datatype Backends = Backends(embed: EmbedRequest -> EmbedReply, ff: real -> string, dist: (string, string) -> real)

  datatype RetrievalError = EmbeddingFailed(embedError: EmbedError) | LookupFailed(storeError: StoreError)

  datatype CombinedError = ShortTermFailed(historyError: StoreError) | ContextFailed(contextError: RetrievalError)

  /** RetrieveRelevantContext over table `rows`. */
  function RelevantContext(rows: seq<Row>, env: Env, c: int, query: string, topN: int, b: Backends, fault: ReadFault)
    : Result<string, RetrievalError>
  {
    match ComputeEmbedding(env, query, b.embed)
    case Err(e) => Err(EmbeddingFailed(e))
    case Ok(v) =>
      var (msgs, err) := RelevantOutcome(rows, c, VectorLiteral(v, b.ff), topN, b.dist, fault);
      if err.Some? then Err(LookupFailed(err.value)) else Ok(Render(msgs, Line))
  }

  /** BuildRAGPrompt over table `rows`. */
  function RagOutcome(rows: seq<Row>, env: Env, c: int, query: string, topN: int, b: Backends, fault: ReadFault)
    : Result<string, RetrievalError>
  {
    match RelevantContext(rows, env, c, query, topN, b, fault)
    case Err(e) => Err(e)
    case Ok(context) => Ok(RagPrompt(context, query))
  }

  /** BuildCombinedPrompt over table `rows`; the two reads may fail independently. */
  function CombinedOutcome(rows: seq<Row>, env: Env, c: int, query: string, recentLimit: int, ragLimit: int,
                           b: Backends, lastFault: ReadFault, relevantFault: ReadFault): Result<string, CombinedError>
  {
    var (shortTerm, err) := LastOutcome(rows, c, recentLimit, lastFault);
    if err.Some? then Err(ShortTermFailed(err.value))
    else
      match RelevantContext(rows, env, c, query, ragLimit, b, relevantFault)
      case Err(e) => Err(ContextFailed(e))
      case Ok(context) => Ok(CombinedPrompt(FullPrompt(shortTerm), context, query))
  }

  // ---------------------------------------------------------------------------
  // The operations

  /** RetrieveRelevantContext: embed the query, format the vector, look up the
      closest messages, and render them with the `+=` loop. */
  method RetrieveRelevantContext(store: Store, env: Env, c: int, query: string, topN: int, b: Backends, fault: ReadFault)
    returns (context: string, err: Option<RetrievalError>)
    requires store.Valid()
    ensures err.None? <==> RelevantContext(store.rows, env, c, query, topN, b, fault).Ok?
    ensures err.None? ==> context == RelevantContext(store.rows, env, c, query, topN, b, fault).value
    ensures err.Some? ==> context == "" && err.value == RelevantContext(store.rows, env, c, query, topN, b, fault).error
  {
    var embedded := ComputeEmbedding(env, query, b.embed);
    if embedded.Err? {
      return "", Some(EmbeddingFailed(embedded.error));
    }
    var literal := FormatVector(embedded.value, b.ff);
    var msgs, lookupErr := store.GetRelevantMessages(c, literal, topN, b.dist, fault);
    if lookupErr.Some? {
      return "", Some(LookupFailed(lookupErr.value));
    }
    context := AppendLines(msgs, Line);
    err := None;
  }

  /** BuildRAGPrompt: the retrieved context and the query in the RAG template. */
  method BuildRAGPrompt(store: Store, env: Env, c: int, query: string, topN: int, b: Backends, fault: ReadFault)
    returns (prompt: string, err: Option<RetrievalError>)
    requires store.Valid()
    ensures err.None? <==> RagOutcome(store.rows, env, c, query, topN, b, fault).Ok?
    ensures err.None? ==> prompt == RagOutcome(store.rows, env, c, query, topN, b, fault).value
    ensures err.Some? ==> prompt == "" && err.value == RagOutcome(store.rows, env, c, query, topN, b, fault).error
  {
    var context;
    context, err := RetrieveRelevantContext(store, env, c, query, topN, b, fault);
    if err.Some? {
      return "", err;
    }
    prompt := RagPrompt(context, query);
  }

  /** BuildCombinedPrompt: the last recentLimit messages, then the retrieved
      context, then the query, in the combined template. */
  method BuildCombinedPrompt(store: Store, env: Env, c: int, query: string, recentLimit: int, ragLimit: int,
                             b: Backends, lastFault: ReadFault, relevantFault: ReadFault)
    returns (prompt: string, err: Option<CombinedError>)
    requires store.Valid()
    ensures var r := CombinedOutcome(store.rows, env, c, query, recentLimit, ragLimit, b, lastFault, relevantFault);
            (err.None? <==> r.Ok?) &&
            (err.None? ==> prompt == r.value) &&
            (err.Some? ==> prompt == "" && err.value == r.error)
  {
    var shortTerm, lastErr := store.GetLastMessages(c, recentLimit, lastFault);
    if lastErr.Some? {
      return "", Some(ShortTermFailed(lastErr.value));
    }
    var context, ragErr := RetrieveRelevantContext(store, env, c, query, ragLimit, b, relevantFault);
    if ragErr.Some? {
      return "", Some(ContextFailed(ragErr.value));
    }
    var shortTermPrompt := BuildFullPrompt(shortTerm);
    prompt := CombinedPrompt(shortTermPrompt, context, query);
    err := None;
  }

  // ---------------------------------------------------------------------------
  // What they promise

  /** RetrieveRelevantContext succeeds exactly when both the embedding and the
      lookup do; an embedding failure is reported as such, with no zero-vector
      fallback, and a lookup failure likewise. */
  lemma RelevantContextFailures(rows: seq<Row>, env: Env, c: int, query: string, topN: int, b: Backends, fault: ReadFault)
    ensures var e := ComputeEmbedding(env, query, b.embed);
            var r := RelevantContext(rows, env, c, query, topN, b, fault);
            (e.Err? ==> r == Err(EmbeddingFailed(e.error))) &&
            (e.Ok? ==> var lookup := RelevantOutcome(rows, c, VectorLiteral(e.value, b.ff), topN, b.dist, fault);
                       (r.Ok? <==> lookup.1.None?) &&
                       (lookup.1.Some? ==> r == Err(LookupFailed(lookup.1.value))))
  {
  }

  /** A successful retrieval renders exactly the messages the relevance query
      returns for the query's embedding, one `role: content` line each, in the
      store's order: at most topN of them, all of conversation c, closest first. */
  lemma {:induction false} RelevantContextRendersLookup(rows: seq<Row>, env: Env, c: int, query: string, topN: int,
                                                      b: Backends, fault: ReadFault)
    requires RelevantContext(rows, env, c, query, topN, b, fault).Ok?
    ensures var v := ComputeEmbedding(env, query, b.embed).value;
            var hits := RelevantQuery(rows, c, VectorLiteral(v, b.ff), topN, b.dist);
            0 <= topN && |hits| <= topN &&
            RelevantContext(rows, env, c, query, topN, b, fault).value == Render(ToMessages(hits), Line) &&
            SortedBy(hits, DistanceKey(VectorLiteral(v, b.ff), b.dist)) &&
            (forall r :: r in hits ==> r in rows && r.conversationId == c)
  {
    var v := ComputeEmbedding(env, query, b.embed).value;
    var q := VectorLiteral(v, b.ff);
    RelevantMessagesAreBounded(rows, c, q, topN, b.dist, fault);
    RelevantQueryIsTopN(rows, c, q, topN, b.dist);
  }

  /** The i-th retrieved message appears as its own line, after the lines of the
      messages before it: the rendering keeps the retrieval order. */
  lemma RelevantContextLineOrder(rows: seq<Row>, env: Env, c: int, query: string, topN: int, b: Backends, fault: ReadFault)
    requires RelevantContext(rows, env, c, query, topN, b, fault).Ok?
    ensures var v := ComputeEmbedding(env, query, b.embed).value;
            var msgs := ToMessages(RelevantQuery(rows, c, VectorLiteral(v, b.ff), topN, b.dist));
            forall i :: 0 <= i < |msgs| ==>
              OccursAt(msgs[i].role + ": " + msgs[i].content + "\n",
                       RelevantContext(rows, env, c, query, topN, b, fault).value + AssistantCue,
                       |Render(msgs[..i], Line)|)
  {
    var v := ComputeEmbedding(env, query, b.embed).value;
    var msgs := ToMessages(RelevantQuery(rows, c, VectorLiteral(v, b.ff), topN, b.dist));
    RelevantContextRendersLookup(rows, env, c, query, topN, b, fault);
    FullPromptShape(msgs);
  }

  /** BuildRAGPrompt is the RAG template around the retrieved context, or the
      retrieval's own error, unchanged. */
  lemma RagOutcomeShape(rows: seq<Row>, env: Env, c: int, query: string, topN: int, b: Backends, fault: ReadFault)
    ensures var ctx := RelevantContext(rows, env, c, query, topN, b, fault);
            var r := RagOutcome(rows, env, c, query, topN, b, fault);
            (ctx.Err? ==> r == Err(ctx.error)) &&
            (ctx.Ok? ==> r.Ok? && r.value == "Context:\n" + ctx.value + "\nUser: " + query + "\nAssistant:" &&
                         OccursAt(ctx.value, r.value, 9) && EndsWith(r.value, "\nUser: " + query + "\nAssistant:"))
  {
    var ctx := RelevantContext(rows, env, c, query, topN, b, fault);
    if ctx.Ok? {
      RagPromptShape(ctx.value, query);
    }
  }

  /** BuildCombinedPrompt fails exactly when one of its two reads fails, the
      recent-history read being checked first. */
  lemma CombinedOutcomeFailures(rows: seq<Row>, env: Env, c: int, query: string, recentLimit: int, ragLimit: int,
                                b: Backends, lastFault: ReadFault, relevantFault: ReadFault)
    ensures var last := LastOutcome(rows, c, recentLimit, lastFault);
            var ctx := RelevantContext(rows, env, c, query, ragLimit, b, relevantFault);
            var r := CombinedOutcome(rows, env, c, query, recentLimit, ragLimit, b, lastFault, relevantFault);
            (r.Ok? <==> last.1.None? && ctx.Ok?) &&
            (last.1.Some? ==> r == Err(ShortTermFailed(last.1.value))) &&
            (last.1.None? && ctx.Err? ==> r == Err(ContextFailed(ctx.error)))
  {
  }

  /** A successful combined prompt is the combined template filled with the
      transcript of the newest min(recentLimit, total) messages of the
      conversation (oldest first), the retrieved context and the query. */
  lemma CombinedOutcomeIsTemplate(rows: seq<Row>, env: Env, c: int, query: string, recentLimit: int, ragLimit: int,
                                  b: Backends, lastFault: ReadFault, relevantFault: ReadFault)
    requires CombinedOutcome(rows, env, c, query, recentLimit, ragLimit, b, lastFault, relevantFault).Ok?
    ensures 0 <= recentLimit
    ensures RelevantContext(rows, env, c, query, ragLimit, b, relevantFault).Ok?
    ensures CombinedOutcome(rows, env, c, query, recentLimit, ragLimit, b, lastFault, relevantFault).value
              == CombinedPrompt(FullPrompt(RecentHistory(rows, c, recentLimit)),
                                RelevantContext(rows, env, c, query, ragLimit, b, relevantFault).value, query)
  {
    CombinedOutcomeParts(rows, env, c, query, recentLimit, ragLimit, b, lastFault, relevantFault);
    LastOutcomeIsRecentHistory(rows, c, recentLimit, lastFault);
  }

  /** A combined prompt is built from an error-free history read and a context. */
  lemma CombinedOutcomeParts(rows: seq<Row>, env: Env, c: int, query: string, recentLimit: int, ragLimit: int,
                             b: Backends, lastFault: ReadFault, relevantFault: ReadFault)
    requires CombinedOutcome(rows, env, c, query, recentLimit, ragLimit, b, lastFault, relevantFault).Ok?
    ensures 0 <= recentLimit
    ensures LastOutcome(rows, c, recentLimit, lastFault).1.None?
    ensures RelevantContext(rows, env, c, query, ragLimit, b, relevantFault).Ok?
    ensures CombinedOutcome(rows, env, c, query, recentLimit, ragLimit, b, lastFault, relevantFault).value
              == CombinedPrompt(FullPrompt(LastOutcome(rows, c, recentLimit, lastFault).0),
                                RelevantContext(rows, env, c, query, ragLimit, b, relevantFault).value, query)
  {
  }

  /** In a combined prompt the recent transcript, the retrieved context and the
      final user turn sit at the template's fixed places, in this order. */
  lemma CombinedOutcomeSections(rows: seq<Row>, env: Env, c: int, query: string, recentLimit: int, ragLimit: int,
                                b: Backends, lastFault: ReadFault, relevantFault: ReadFault,
                                shortTerm: string, context: string, p: string)
    requires CombinedOutcome(rows, env, c, query, recentLimit, ragLimit, b, lastFault, relevantFault) == Ok(p)
    requires 0 <= recentLimit && shortTerm == FullPrompt(RecentHistory(rows, c, recentLimit))
    requires RelevantContext(rows, env, c, query, ragLimit, b, relevantFault) == Ok(context)
    ensures OccursAt(shortTerm, p, |CombinedIntro|)
    ensures OccursAt(context, p, |CombinedIntro| + |shortTerm| + |CombinedMiddle|)
    ensures EndsWith(p, "User: " + query + "\nAssistant:")
  {
    CombinedOutcomeIsTemplate(rows, env, c, query, recentLimit, ragLimit, b, lastFault, relevantFault);
    CombinedPromptShape(shortTerm, context, query);
  }
}
