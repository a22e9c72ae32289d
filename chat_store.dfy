/** The message store: the `conversations` and `chat_messages` tables as the
    state of one object, with the six operations the chat core performs on it.
    Each SQL call may fail; which one fails, and where a row scan breaks off, is
    given to each operation as a fault parameter. */
module ChatStore {
  import opened Base
  import opened Models
  import opened ChatQueries

  /** How a SELECT goes wrong, if it does: the query itself is refused, the
      scan of one row fails, or the cursor stops early and reports an error. */
  datatype ReadFault = NoFault | QueryFails | ScanFailsAt(row: nat) | IterationFailsAfter(rows: nat)

  datatype StoreError = QueryError | ScanError | IterationError | WriteError

  /** What a `for rows.Next() { rows.Scan(...); append }` loop followed by
      `return msgs, rows.Err()` hands back for the rows a query produced. A
      failed query or a failed scan returns no messages; a cursor error returns
      the messages read so far together with the error, as Go does. */
  function ScanOutcome(fetched: seq<Row>, fault: ReadFault): (r: (seq<Message>, Option<StoreError>))
    ensures r.1.None? ==> r.0 == ToMessages(fetched)
    ensures r.1 == Some(QueryError) || r.1 == Some(ScanError) ==> r.0 == []
    ensures fault.IterationFailsAfter? ==>
              r.1 == Some(IterationError) &&
              |r.0| == (if fault.rows < |fetched| then fault.rows else |fetched|) &&
              r.0 == ToMessages(fetched)[..|r.0|]
  {
    match fault
    case NoFault => (ToMessages(fetched), None)
    case QueryFails => ([], Some(QueryError))
    case ScanFailsAt(k) => if k < |fetched| then ([], Some(ScanError)) else (ToMessages(fetched), None)
    case IterationFailsAfter(k) => (ToMessages(Take(fetched, k)), Some(IterationError))
  }

  /** GetChatMessages's result for table `rows`. */
  function ChatMessagesOutcome(rows: seq<Row>, c: int, fault: ReadFault): (seq<Message>, Option<StoreError>)
  {
    ScanOutcome(ConversationQuery(rows, c), fault)
  }

  /** GetRelevantMessages's result for table `rows`; a negative LIMIT is refused by the database. */
  function RelevantOutcome(rows: seq<Row>, c: int, q: string, topN: int, dist: (string, string) -> real, fault: ReadFault)
    : (seq<Message>, Option<StoreError>)
  {
    if topN < 0 then ([], Some(QueryError)) else ScanOutcome(RelevantQuery(rows, c, q, topN, dist), fault)
  }

  /** GetLastMessages's result for table `rows`: the descending fetch, reversed. */
  function LastOutcome(rows: seq<Row>, c: int, limit: int, fault: ReadFault): (seq<Message>, Option<StoreError>)
  {
    if limit < 0 then ([], Some(QueryError))
    else
      var fetched := ScanOutcome(LastDescQuery(rows, c, limit), fault);
      (Reverse(fetched.0), fetched.1)
  }

  class Store {
    var conversations: set<int>
    var rows: seq<Row>
    var nextConversationId: int
    var nextMessageId: int

    /** Both tables draw ids from increasing serial sequences starting at 1. */
    ghost predicate Valid()
      reads this
    {
      1 <= nextConversationId && 1 <= nextMessageId &&
      (forall c :: c in conversations ==> 1 <= c < nextConversationId) &&
      IdsAscending(rows) &&
      (forall i :: 0 <= i < |rows| ==> 1 <= rows[i].id < nextMessageId)
    }

    constructor ()
      ensures Valid()
      ensures conversations == {} && rows == []
    {
      conversations := {};
      rows := [];
      nextConversationId := 1;
      nextMessageId := 1;
    }

    /** INSERT INTO conversations ... RETURNING id. The owner column is always NULL. */
    method InsertConversation(fails: bool) returns (id: int, err: Option<StoreError>)
      requires Valid()
      modifies this
      ensures Valid()
      ensures rows == old(rows)
      ensures err.None? <==> !fails
      ensures err.None? ==> id >= 1 && id !in old(conversations) && conversations == old(conversations) + {id}
      ensures err.None? ==> id == old(nextConversationId) && nextConversationId == id + 1
      ensures err.Some? ==> err == Some(WriteError) && id == 0 && conversations == old(conversations)
      ensures err.Some? ==> nextConversationId == old(nextConversationId)
      ensures nextMessageId == old(nextMessageId)
    {
      if fails {
        return 0, Some(WriteError);
      }
      id := nextConversationId;
      conversations := conversations + {id};
      nextConversationId := nextConversationId + 1;
      err := None;
    }

    /** SELECT EXISTS(SELECT 1 FROM conversations WHERE id = $1). */
    method ConversationExists(c: int, fails: bool) returns (found: bool, err: Option<StoreError>)
      requires Valid()
      ensures err.None? <==> !fails
      ensures err.None? ==> (found <==> c in conversations)
      ensures err.Some? ==> !found && err == Some(QueryError)
    {
      if fails {
        return false, Some(QueryError);
      }
      found := c in conversations;
      err := None;
    }

    /** INSERT INTO chat_messages (conversation_id, role, content, embedding) ... RETURNING id. */
    method InsertChatMessage(c: int, role: string, content: string, embedding: string, fails: bool)
      returns (id: int, err: Option<StoreError>)
      requires Valid()
      modifies this
      ensures Valid()
      ensures conversations == old(conversations)
      ensures err.None? <==> !fails
      ensures err.None? ==> rows == old(rows) + [Row(id, c, role, content, embedding)]
      ensures err.None? ==> forall i :: 0 <= i < |old(rows)| ==> old(rows)[i].id < id
      ensures err.None? ==> id == old(nextMessageId) && nextMessageId == id + 1
      ensures err.Some? ==> err == Some(WriteError) && id == 0 && rows == old(rows)
      ensures err.Some? ==> nextMessageId == old(nextMessageId)
      ensures nextConversationId == old(nextConversationId)
    {
      if fails {
        return 0, Some(WriteError);
      }
      id := nextMessageId;
      rows := rows + [Row(id, c, role, content, embedding)];
      nextMessageId := nextMessageId + 1;
      err := None;
    }

    /** SELECT ... WHERE conversation_id = $1 ORDER BY id. */
    method GetChatMessages(c: int, fault: ReadFault) returns (msgs: seq<Message>, err: Option<StoreError>)
      requires Valid()
      ensures (msgs, err) == ChatMessagesOutcome(rows, c, fault)
    {
      if fault == QueryFails {
        return [], Some(QueryError);
      }
      msgs, err := ScanRows(ConversationQuery(rows, c), fault);
    }

    /** SELECT ... WHERE conversation_id = $1 ORDER BY embedding <-> $2 LIMIT $3. */
    method GetRelevantMessages(c: int, queryEmbedding: string, topN: int, dist: (string, string) -> real, fault: ReadFault)
      returns (msgs: seq<Message>, err: Option<StoreError>)
      requires Valid()
      ensures (msgs, err) == RelevantOutcome(rows, c, queryEmbedding, topN, dist, fault)
    {
      if fault == QueryFails || topN < 0 {
        return [], Some(QueryError);
      }
      msgs, err := ScanRows(RelevantQuery(rows, c, queryEmbedding, topN, dist), fault);
    }

    /** SELECT ... WHERE conversation_id = $1 ORDER BY id DESC LIMIT $2, then the
        slice is reversed in place so that it is ascending again. */
    method GetLastMessages(c: int, limit: int, fault: ReadFault) returns (msgs: seq<Message>, err: Option<StoreError>)
      requires Valid()
      ensures (msgs, err) == LastOutcome(rows, c, limit, fault)
    {
      if fault == QueryFails || limit < 0 {
        return [], Some(QueryError);
      }
      var fetched;
      fetched, err := ScanRows(LastDescQuery(rows, c, limit), fault);
      if err == Some(ScanError) {
        assert Reverse(fetched) == [];
        return [], err;
      }
      var a := new Message[|fetched|](k requires 0 <= k < |fetched| => fetched[k]);
      assert a[..] == fetched;
      ReverseInPlace(a);
      msgs := a[..];
    }
  }

  /** The `for rows.Next()` scan loop and the final `rows.Err()`, over the rows
      a query that did not fail produced. */
  method ScanRows(fetched: seq<Row>, fault: ReadFault) returns (msgs: seq<Message>, err: Option<StoreError>)
    requires fault != QueryFails
    ensures (msgs, err) == ScanOutcome(fetched, fault)
  {
    msgs := [];
    var i := 0;
    while i < |fetched|
      invariant 0 <= i <= |fetched|
      invariant msgs == ToMessages(fetched[..i])
      invariant fault.ScanFailsAt? ==> i <= fault.row
      invariant fault.IterationFailsAfter? ==> i <= fault.rows
    {
      if fault == IterationFailsAfter(i) {
        break;
      }
      if fault == ScanFailsAt(i) {
        return [], Some(ScanError);
      }
      msgs := msgs + [ToMessage(fetched[i])];
      i := i + 1;
    }
    assert fault.IterationFailsAfter? ==> fetched[..i] == Take(fetched, fault.rows);
    assert fetched[..|fetched|] == fetched;
    err := if fault.IterationFailsAfter? then Some(IterationError) else None;
  }

  /** The two-index swap loop: afterwards a[k] is the old a[n-1-k]. */
  method ReverseInPlace(a: array<Message>)
    modifies a
    ensures a[..] == Reverse(old(a[..]))
  {
    var i, j := 0, a.Length - 1;
    while i < j
      invariant 0 <= i <= j + 1 <= a.Length
      invariant i + j == a.Length - 1
      invariant forall k :: 0 <= k < i ==> a[k] == old(a[a.Length - 1 - k]) && a[a.Length - 1 - k] == old(a[k])
      invariant forall k :: i <= k <= j ==> a[k] == old(a[k])
    {
      a[i], a[j] := a[j], a[i];
      i, j := i + 1, j - 1;
    }
  }

  // ---------------------------------------------------------------------------
  // What the read operations promise

  /** A failed query or a failed row scan hands back an error and no rows at all. */
  lemma {:induction false} FailedReadReturnsNothing(fetched: seq<Row>, fault: ReadFault)
    ensures fault == QueryFails ==> ScanOutcome(fetched, fault) == ([], Some(QueryError))
    ensures fault.ScanFailsAt? && fault.row < |fetched| ==> ScanOutcome(fetched, fault) == ([], Some(ScanError))
    ensures ScanOutcome(fetched, fault).1.None? <==> (fault == NoFault || (fault.ScanFailsAt? && fault.row >= |fetched|))
  {
  }

  /** Without an error, GetChatMessages returns the messages of conversation c
      and only those, each once, in ascending id order. */
  lemma ChatMessagesAreTheConversation(rows: seq<Row>, c: int, fault: ReadFault)
    requires IdsAscending(rows)
    ensures var (msgs, err) := ChatMessagesOutcome(rows, c, fault);
            err.None? ==>
              MessageIdsAscending(msgs) &&
              (forall m :: m in msgs ==> exists r :: r in rows && r.conversationId == c && m == ToMessage(r)) &&
              (forall r :: r in rows && r.conversationId == c ==> ToMessage(r) in msgs)
  {
    var conv := ConvRows(rows, c);
    ConvRowsAscending(rows, c);
    var msgs := ToMessages(conv);
    forall r | r in rows && r.conversationId == c ensures ToMessage(r) in msgs {
      var k :| 0 <= k < |conv| && conv[k] == r;
      assert msgs[k] == ToMessage(r);
    }
    forall m | m in msgs ensures exists r :: r in rows && r.conversationId == c && m == ToMessage(r) {
      var k :| 0 <= k < |msgs| && msgs[k] == m;
      assert conv[k] in conv;
    }
  }

  lemma ReverseToMessages(rs: seq<Row>)
    ensures Reverse(ToMessages(rs)) == ToMessages(Reverse(rs))
  {
  }

  /** Without an error, GetLastMessages returns the newest min(limit, total)
      messages of conversation c, oldest first: a suffix of the conversation,
      so everything it leaves out is older than everything it returns. */
  lemma LastMessagesAreTheTail(rows: seq<Row>, c: int, limit: int, fault: ReadFault)
    requires IdsAscending(rows)
    ensures var out := LastOutcome(rows, c, limit, fault);
            var msgs := out.0;
            var conv := ConvRows(rows, c);
            var k := if limit < |conv| then limit else |conv|;
            out.1.None? ==>
              limit >= 0 &&
              msgs == ToMessages(conv[|conv| - k..]) &&
              |msgs| == k &&
              MessageIdsAscending(msgs) &&
              (forall i, j :: 0 <= i < |conv| - k && 0 <= j < |msgs| ==> conv[i].id < msgs[j].id)
  {
    if limit >= 0 {
      LastOutcomeIsRecentHistory(rows, c, limit, fault);
      RecentHistoryIsTail(rows, c, limit);
    }
  }

  /** The recent history is the last k rows' messages: k of them, ascending,
      and newer than every row of the conversation left out. */
  lemma RecentHistoryIsTail(rows: seq<Row>, c: int, limit: nat)
    requires IdsAscending(rows)
    ensures var msgs := RecentHistory(rows, c, limit);
            var conv := ConvRows(rows, c);
            var k := if limit < |conv| then limit else |conv|;
            msgs == ToMessages(conv[|conv| - k..]) &&
            |msgs| == k &&
            MessageIdsAscending(msgs) &&
            (forall i, j :: 0 <= i < |conv| - k && 0 <= j < |msgs| ==> conv[i].id < msgs[j].id)
  {
    var conv := ConvRows(rows, c);
    var k := if limit < |conv| then limit else |conv|;
    ConvRowsAscending(rows, c);
    TailMessages(conv, k, conv[|conv| - k..]);
  }

  /** The messages of the last k rows of an ascending sequence: k of them,
      ascending, and newer than every row left out. */
  lemma TailMessages(conv: seq<Row>, k: nat, tail: seq<Row>)
    requires IdsAscending(conv) && k <= |conv| && tail == conv[|conv| - k..]
    ensures var msgs := ToMessages(tail);
            |msgs| == k &&
            MessageIdsAscending(msgs) &&
            (forall i, j :: 0 <= i < |conv| - k && 0 <= j < |msgs| ==> conv[i].id < msgs[j].id)
  {
    TailOfAscending(conv, k, tail);
    ToMessagesAscending(tail);
    var msgs := ToMessages(tail);
    forall i, j | 0 <= i < |conv| - k && 0 <= j < |msgs| ensures conv[i].id < msgs[j].id {
      assert msgs[j].id == tail[j].id;
    }
  }

  /** The newest min(limit, total) messages of conversation c, oldest first. */
  function RecentHistory(rows: seq<Row>, c: int, limit: nat): seq<Message>
  {
    var conv := ConvRows(rows, c);
    var k := if limit < |conv| then limit else |conv|;
    ToMessages(conv[|conv| - k..])
  }

  /** Without an error, GetLastMessages returns the recent history. */
  lemma LastOutcomeIsRecentHistory(rows: seq<Row>, c: int, limit: nat, fault: ReadFault)
    ensures LastOutcome(rows, c, limit, fault).1.None? ==> LastOutcome(rows, c, limit, fault).0 == RecentHistory(rows, c, limit)
  {
    var fetched := LastDescQuery(rows, c, limit);
    ReverseToMessages(fetched);
    LastDescReversed(rows, c, limit);
  }

  /** The last k rows of an ascending sequence are ascending, and newer than the rest. */
  lemma TailOfAscending(conv: seq<Row>, k: nat, tail: seq<Row>)
    requires IdsAscending(conv) && k <= |conv| && tail == conv[|conv| - k..]
    ensures IdsAscending(tail)
    ensures forall i, j :: 0 <= i < |conv| - k && 0 <= j < k ==> conv[i].id < tail[j].id
  {
    forall i, j | 0 <= i < |conv| - k && 0 <= j < k ensures conv[i].id < tail[j].id {
      assert tail[j] == conv[|conv| - k + j];
    }
    forall i, j | 0 <= i < j < |tail| ensures tail[i].id < tail[j].id {
      assert tail[i] == conv[|conv| - k + i] && tail[j] == conv[|conv| - k + j];
    }
  }

  /** Converting rows to messages keeps the ids, hence their order. */
  lemma ToMessagesAscending(rs: seq<Row>)
    requires IdsAscending(rs)
    ensures MessageIdsAscending(ToMessages(rs))
  {
  }

  /** Without an error, GetRelevantMessages returns at most topN messages, each
      taken from a row of conversation c, in the order of the relevance query. */
  lemma RelevantMessagesAreBounded(rows: seq<Row>, c: int, q: string, topN: int, dist: (string, string) -> real, fault: ReadFault)
    ensures var (msgs, err) := RelevantOutcome(rows, c, q, topN, dist, fault);
            err.None? ==>
              0 <= topN && |msgs| <= topN &&
              msgs == ToMessages(RelevantQuery(rows, c, q, topN, dist)) &&
              forall m :: m in msgs ==> exists r :: r in rows && r.conversationId == c && m == ToMessage(r)
    ensures var (msgs, err) := RelevantOutcome(rows, c, q, topN, dist, fault);
            err == Some(QueryError) || err == Some(ScanError) ==> msgs == []
  {
    if topN >= 0 {
      RelevantQueryIsTopN(rows, c, q, topN, dist);
      var rel := RelevantQuery(rows, c, q, topN, dist);
      var msgs := ToMessages(rel);
      forall m | m in msgs ensures exists r :: r in rows && r.conversationId == c && m == ToMessage(r) {
        var k :| 0 <= k < |msgs| && msgs[k] == m;
        assert rel[k] in rel;
      }
    }
  }

  /** A message appended to a conversation is read back with exactly the role
      and content it was stored with: it is the newest message of the
      conversation, so it is the last one of the full history and of every
      non-empty tail window. */
  lemma AppendedMessageIsReadBack(rows: seq<Row>, row: Row, n: int)
    requires IdsAscending(rows + [row])
    requires n >= 1
    ensures var full := ChatMessagesOutcome(rows + [row], row.conversationId, NoFault).0;
            |full| > 0 && full[|full| - 1] == Message(row.id, row.role, row.content)
    ensures var window := LastOutcome(rows + [row], row.conversationId, n, NoFault).0;
            |window| > 0 && window[|window| - 1] == Message(row.id, row.role, row.content)
  {
    var c := row.conversationId;
    ConvRowsAppend(rows, row, c);
    var conv := ConvRows(rows + [row], c);
    assert conv[|conv| - 1] == row;
    LastMessagesAreTheTail(rows + [row], c, n, NoFault);
  }
}
