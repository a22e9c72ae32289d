/** What the three SELECT statements of the message store return, as functions
    of the `chat_messages` table: a filter on the conversation, an ordering and
    a LIMIT. The table is a sequence of rows in insertion (and id) order. */
module ChatQueries {
  import opened Models

  /** One `chat_messages` row. The embedding is the text literal the caller
      passed (for example "[0.1,0.2]"); the store never interprets it apart
      from the distance operator. */
  datatype Row = Row(id: int, conversationId: int, role: string, content: string, embedding: string)

  /** The columns a SELECT scans into a Message. */
  function ToMessage(r: Row): Message
  {
    Message(r.id, r.role, r.content)
  }

  function ToMessages(rs: seq<Row>): (ms: seq<Message>)
    ensures |ms| == |rs|
    ensures forall i :: 0 <= i < |rs| ==> ms[i] == ToMessage(rs[i])
  {
    seq(|rs|, i requires 0 <= i < |rs| => ToMessage(rs[i]))
  }

  predicate IdsAscending(rs: seq<Row>)
  {
    forall i, j :: 0 <= i < j < |rs| ==> rs[i].id < rs[j].id
  }

  predicate MessageIdsAscending(ms: seq<Message>)
  {
    forall i, j :: 0 <= i < j < |ms| ==> ms[i].id < ms[j].id
  }

  /** WHERE conversation_id = c, keeping the order of the table. */
  function ConvRows(rows: seq<Row>, c: int): (rs: seq<Row>)
    ensures |rs| <= |rows|
    ensures forall r :: r in rs ==> r in rows && r.conversationId == c
    ensures forall r :: r in rows && r.conversationId == c ==> r in rs
  {
    if |rows| == 0 then []
    else
      var last := rows[|rows| - 1];
      ConvRows(rows[..|rows| - 1], c) + (if last.conversationId == c then [last] else [])
  }

  /** LIMIT n. */
  function Take<T>(s: seq<T>, n: nat): (r: seq<T>)
    ensures |r| == if n < |s| then n else |s|
    ensures r == s[..|r|]
  {
    if n < |s| then s[..n] else s
  }

  function Reverse<T>(s: seq<T>): (r: seq<T>)
    ensures |r| == |s|
    ensures forall i :: 0 <= i < |s| ==> r[i] == s[|s| - 1 - i]
  {
    seq(|s|, i requires 0 <= i < |s| => s[|s| - 1 - i])
  }

  /** ORDER BY key ASC. Rows with equal keys keep their relative order. */
  function SortBy(s: seq<Row>, key: Row -> real): seq<Row>
  {
    if |s| == 0 then [] else InsertBy(s[0], SortBy(s[1..], key), key)
  }

  function InsertBy(x: Row, s: seq<Row>, key: Row -> real): seq<Row>
  {
    if |s| == 0 then [x]
    else if key(x) <= key(s[0]) then [x] + s
    else [s[0]] + InsertBy(x, s[1..], key)
  }

  predicate SortedBy(s: seq<Row>, key: Row -> real)
  {
    forall i, j :: 0 <= i < j < |s| ==> key(s[i]) <= key(s[j])
  }

  /** The ordering key of `ORDER BY embedding <-> q`. */
  function DistanceKey(q: string, dist: (string, string) -> real): Row -> real
  {
    (r: Row) => dist(r.embedding, q)
  }

  /** SELECT ... WHERE conversation_id = c ORDER BY id: rows of the table in id order. */
  function ConversationQuery(rows: seq<Row>, c: int): seq<Row>
  {
    ConvRows(rows, c)
  }

  /** SELECT ... WHERE conversation_id = c ORDER BY embedding <-> q LIMIT topN. */
  function RelevantQuery(rows: seq<Row>, c: int, q: string, topN: nat, dist: (string, string) -> real): seq<Row>
  {
    Take(SortBy(ConvRows(rows, c), DistanceKey(q, dist)), topN)
  }

  /** SELECT ... WHERE conversation_id = c ORDER BY id DESC LIMIT n. */
  function LastDescQuery(rows: seq<Row>, c: int, n: nat): seq<Row>
  {
    Take(Reverse(ConvRows(rows, c)), n)
  }

  // ---------------------------------------------------------------------------
  // Properties of the queries

  lemma {:induction false} ConvRowsAscending(rows: seq<Row>, c: int)
    requires IdsAscending(rows)
    ensures IdsAscending(ConvRows(rows, c))
    decreases |rows|
  {
    if |rows| > 0 {
      var init := rows[..|rows| - 1];
      var last := rows[|rows| - 1];
      assert IdsAscending(init);
      ConvRowsAscending(init, c);
      var front := ConvRows(init, c);
      forall r | r in front ensures r.id < last.id {
        var k :| 0 <= k < |init| && init[k] == r;
        assert rows[k] == r;
      }
    }
  }

  /** The rows added after the last id do not change a conversation's earlier rows. */
  lemma ConvRowsAppend(rows: seq<Row>, r: Row, c: int)
    ensures ConvRows(rows + [r], c) == ConvRows(rows, c) + (if r.conversationId == c then [r] else [])
  {
    assert (rows + [r])[..|rows + [r]| - 1] == rows;
  }

  lemma {:induction false} InsertBySorted(x: Row, s: seq<Row>, key: Row -> real)
    requires SortedBy(s, key)
    ensures SortedBy(InsertBy(x, s, key), key)
    ensures multiset(InsertBy(x, s, key)) == multiset(s) + multiset{x}
    ensures |InsertBy(x, s, key)| == |s| + 1
    ensures forall y :: y in InsertBy(x, s, key) ==> y == x || y in s
  {
    InsertByContents(x, s, key);
    InsertByMembers(x, s, key);
    InsertByOrdered(x, s, key);
  }

  lemma {:induction false} InsertByContents(x: Row, s: seq<Row>, key: Row -> real)
    ensures multiset(InsertBy(x, s, key)) == multiset(s) + multiset{x}
    ensures |InsertBy(x, s, key)| == |s| + 1
    decreases |s|
  {
    if |s| > 0 {
      assert s == [s[0]] + s[1..];
      if key(x) > key(s[0]) {
        InsertByContents(x, s[1..], key);
      }
    }
  }

  lemma InsertByMembers(x: Row, s: seq<Row>, key: Row -> real)
    ensures forall y :: y in InsertBy(x, s, key) ==> y == x || y in s
  {
    InsertByContents(x, s, key);
    forall y | y in InsertBy(x, s, key) ensures y == x || y in s {
      assert y in multiset(InsertBy(x, s, key));
    }
  }

  /** Every element of a sorted sequence's tail is at least its head. */
  lemma HeadIsLeast(s: seq<Row>, key: Row -> real)
    requires SortedBy(s, key) && |s| > 0
    ensures forall y :: y in s[1..] ==> key(s[0]) <= key(y)
  {
    forall y | y in s[1..] ensures key(s[0]) <= key(y) {
      var k :| 0 <= k < |s[1..]| && s[1..][k] == y;
      assert s[k + 1] == y;
    }
  }

  lemma {:induction false} InsertByOrdered(x: Row, s: seq<Row>, key: Row -> real)
    requires SortedBy(s, key)
    ensures SortedBy(InsertBy(x, s, key), key)
    decreases |s|
  {
    if |s| > 0 {
      HeadIsLeast(s, key);
      if key(x) > key(s[0]) {
        assert SortedBy(s[1..], key);
        InsertByOrdered(x, s[1..], key);
        InsertByMembers(x, s[1..], key);
        ConsSorted(s[0], InsertBy(x, s[1..], key), key);
      } else {
        assert s == [s[0]] + s[1..];
        ConsSorted(x, s, key);
      }
    }
  }

  /** An element no greater than any element of a sorted sequence can go in front. */
  lemma ConsSorted(h: Row, rest: seq<Row>, key: Row -> real)
    requires SortedBy(rest, key) && forall y :: y in rest ==> key(h) <= key(y)
    ensures SortedBy([h] + rest, key)
  {
    var r := [h] + rest;
    forall i, j | 0 <= i < j < |r| ensures key(r[i]) <= key(r[j]) {
      assert r[j] == rest[j - 1];
      if i > 0 {
        assert r[i] == rest[i - 1];
      } else {
        assert r[j] in rest;
      }
    }
  }

  lemma {:induction false} SortBySorted(s: seq<Row>, key: Row -> real)
    ensures SortedBy(SortBy(s, key), key)
    ensures multiset(SortBy(s, key)) == multiset(s)
    ensures |SortBy(s, key)| == |s|
    decreases |s|
  {
    if |s| > 0 {
      var rest := SortBy(s[1..], key);
      SortBySorted(s[1..], key);
      InsertBySorted(s[0], rest, key);
      assert SortBy(s, key) == InsertBy(s[0], rest, key);
      assert s == [s[0]] + s[1..];
      assert multiset(s) == multiset{s[0]} + multiset(s[1..]);
    }
  }

  /** ORDER BY id DESC LIMIT n, read back in reverse, is the last min(n, total)
      rows of the conversation in id order. */
  lemma LastDescReversed(rows: seq<Row>, c: int, n: nat)
    ensures var conv := ConvRows(rows, c);
            var k := if n < |conv| then n else |conv|;
            Reverse(LastDescQuery(rows, c, n)) == conv[|conv| - k..]
  {
    ReversedTake(ConvRows(rows, c), n);
  }

  /** The first n of the reversed sequence, reversed back, are its last n. */
  lemma ReversedTake<T>(s: seq<T>, n: nat)
    ensures var k := if n < |s| then n else |s|;
            Reverse(Take(Reverse(s), n)) == s[|s| - k..]
  {
    var k := if n < |s| then n else |s|;
    var rs := Reverse(s);
    var d := Take(rs, n);
    var back := Reverse(d);
    var tail := s[|s| - k..];
    assert |d| == k && d == rs[..k];
    assert |back| == k && |tail| == k;
    forall i | 0 <= i < k ensures back[i] == tail[i] {
      var j := k - 1 - i;
      assert back[i] == d[j];
      assert d[j] == rs[j];
      assert rs[j] == s[|s| - 1 - j];
      assert tail[i] == s[|s| - k + i];
    }
    assert back == tail;
  }


  /** A prefix of a sorted sequence is sorted, and nothing after it is smaller. */
  lemma TakeOfSorted(sorted: seq<Row>, n: nat, key: Row -> real)
    requires SortedBy(sorted, key)
    ensures SortedBy(Take(sorted, n), key)
    ensures forall x, y :: x in sorted && x !in Take(sorted, n) && y in Take(sorted, n) ==> key(y) <= key(x)
  {
    var r := Take(sorted, n);
    forall x, y | x in sorted && x !in r && y in r ensures key(y) <= key(x) {
      var jx :| 0 <= jx < |sorted| && sorted[jx] == x;
      var iy :| 0 <= iy < |r| && r[iy] == y;
      assert sorted[iy] == y;
      assert jx >= |r|;
    }
  }

  /** The relevance query keeps at most topN rows, all of conversation c, in
      non-decreasing distance, and no row it leaves out is closer than a row it
      keeps. */
  lemma RelevantQueryIsTopN(rows: seq<Row>, c: int, q: string, topN: nat, dist: (string, string) -> real)
    ensures |RelevantQuery(rows, c, q, topN, dist)| == |Take(ConvRows(rows, c), topN)|
    ensures forall x :: x in RelevantQuery(rows, c, q, topN, dist) ==> x in rows && x.conversationId == c
    ensures SortedBy(RelevantQuery(rows, c, q, topN, dist), DistanceKey(q, dist))
    ensures forall x, y ::
              x in ConvRows(rows, c) && x !in RelevantQuery(rows, c, q, topN, dist) && y in RelevantQuery(rows, c, q, topN, dist)
              ==> dist(y.embedding, q) <= dist(x.embedding, q)
  {
    var key := DistanceKey(q, dist);
    var conv := ConvRows(rows, c);
    var sorted := SortBy(conv, key);
    SortBySorted(conv, key);
    TakeOfSorted(sorted, topN, key);
    var r := Take(sorted, topN);
    forall x | x in r ensures x in rows && x.conversationId == c {
      assert x in multiset(sorted);
    }
    forall x, y | x in conv && x !in r && y in r ensures dist(y.embedding, q) <= dist(x.embedding, q) {
      assert x in multiset(sorted);
      assert key(y) <= key(x);
    }
  }
}
