/** The receiving side of the chat stream: the event-stream interpretation of
    section 9.2.6 of the WHATWG HTML Living Standard, as a browser's
    EventSource applies it to the response body. Lines end at LF, CR or CRLF;
    a line starting with ":" is a comment; "event" sets the event type,
    "data" appends its value and a LF to the data buffer, other fields are
    ignored; a blank line dispatches the event unless the data buffer is
    empty. Text after the last line end is never dispatched. */
module EventStream {

  datatype Dispatched = Dispatched(eventType: string, data: string)

  /** The parser state: the two buffers, the line read so far, whether the last
      character was a CR (so that a following LF is part of the same line end),
      and the events dispatched so far. */
  datatype Parser = Parser(eventType: string, data: string, line: string, afterCR: bool, events: seq<Dispatched>)

  /** A parser between events, with `events` already dispatched. */
  function Idle(events: seq<Dispatched>): Parser
  {
    Parser("", "", "", false, events)
  }

  predicate NoLineBreak(s: string)
  {
    '\n' !in s && '\r' !in s
  }

  /** Index of the first ':' in s, or |s| when there is none. */
  function ColonIndex(s: string): (k: nat)
    ensures k <= |s|
    ensures k < |s| ==> s[k] == ':'
    ensures forall j :: 0 <= j < k ==> s[j] != ':'
  {
    if |s| == 0 then 0 else if s[0] == ':' then 0 else 1 + ColonIndex(s[1..])
  }

  /** The field name: the line up to its first colon, or the whole line. */
  function FieldName(line: string): string
  {
    line[..ColonIndex(line)]
  }

  /** The field value: the text after the first colon with one leading space
      removed, or "" when the line has no colon. */
  function FieldValue(line: string): string
  {
    var k := ColonIndex(line);
    if k == |line| then ""
    else
      var v := line[k + 1..];
      if |v| > 0 && v[0] == ' ' then v[1..] else v
  }

  function Dispatch(p: Parser): Parser
  {
    if p.data == "" then p.(eventType := "", data := "")
    else
      var data := if p.data[|p.data| - 1] == '\n' then p.data[..|p.data| - 1] else p.data;
      var kind := if p.eventType == "" then "message" else p.eventType;
      p.(eventType := "", data := "", events := p.events + [Dispatched(kind, data)])
  }

  function ProcessLine(p: Parser, line: string): Parser
  {
    if line == "" then Dispatch(p)
    else if line[0] == ':' then p
    else if FieldName(line) == "event" then p.(eventType := FieldValue(line))
    else if FieldName(line) == "data" then p.(data := p.data + FieldValue(line) + "\n")
    else p
  }

  function Step(p: Parser, c: char): Parser
  {
    if c == '\n' && p.afterCR then p.(afterCR := false)
    else if c == '\n' || c == '\r' then ProcessLine(p.(line := "", afterCR := c == '\r'), p.line)
    else p.(line := p.line + [c], afterCR := false)
  }

  /** The parser after reading s. */
  function Feed(p: Parser, s: string): Parser
  {
    if |s| == 0 then p else Step(Feed(p, s[..|s| - 1]), s[|s| - 1])
  }

  /** The events a complete response body dispatches. */
  function Parse(body: string): seq<Dispatched>
  {
    Feed(Idle([]), body).events
  }

  // ---------------------------------------------------------------------------
  // Reading text piece by piece

  lemma {:induction false} FeedAppend(p: Parser, a: string, b: string)
    ensures Feed(p, a + b) == Feed(Feed(p, a), b)
    decreases |b|
  {
    if |b| == 0 {
      assert a + b == a;
    } else {
      assert (a + b)[..|a + b| - 1] == a + b[..|b| - 1];
      FeedAppend(p, a, b[..|b| - 1]);
    }
  }

  /** Text without line ends only extends the current line. */
  lemma {:induction false} FeedText(p: Parser, t: string)
    requires NoLineBreak(t) && !p.afterCR
    ensures Feed(p, t) == p.(line := p.line + t)
    decreases |t|
  {
    if |t| == 0 {
      assert p.line + t == p.line;
    } else {
      var init := t[..|t| - 1];
      assert forall k :: 0 <= k < |init| ==> init[k] == t[k];
      FeedText(p, init);
      assert init + [t[|t| - 1]] == t;
      assert p.line + init + [t[|t| - 1]] == p.line + t;
    }
  }

  /** One whole LF-terminated line, read from a state with no partial line. */
  lemma FeedLine(p: Parser, line: string)
    requires NoLineBreak(line) && !p.afterCR && p.line == ""
    ensures Feed(p, line + "\n") == ProcessLine(p, line)
  {
    FeedAppend(p, line, "\n");
    FeedText(p, line);
    var q := p.(line := line);
    assert p.line + line == line;
    assert "\n"[..0] == "";
    assert Feed(q, "\n") == Step(Feed(q, ""), '\n') == Step(q, '\n');
    assert q.(line := "", afterCR := false) == p;
  }

  /** In `name + ":" + rest` with a colon-free name, the field is `name`. */
  lemma {:induction false} ColonAfterName(name: string, rest: string)
    requires ':' !in name
    ensures ColonIndex(name + ":" + rest) == |name|
    decreases |name|
  {
    if |name| > 0 {
      assert (name + ":" + rest)[1..] == name[1..] + ":" + rest;
      assert forall x :: x in name[1..] ==> x in name;
      ColonAfterName(name[1..], rest);
    }
  }

  /** `name: value` carries field `name` and value `value`. */
  lemma FieldOf(name: string, value: string)
    requires ':' !in name
    ensures FieldName(name + ": " + value) == name
    ensures FieldValue(name + ": " + value) == value
  {
    var line := name + ": " + value;
    assert line == name + ":" + (" " + value);
    ColonAfterName(name, " " + value);
    assert line[..|name|] == name;
    assert line[|name| + 1..] == " " + value;
  }

  /** `name:` carries field `name` and the empty value. */
  lemma EmptyFieldOf(name: string)
    requires ':' !in name
    ensures FieldName(name + ":") == name
    ensures FieldValue(name + ":") == ""
  {
    assert name + ":" == name + ":" + "";
    ColonAfterName(name, "");
    assert (name + ":")[..|name|] == name;
  }

  /** Reading a + b in two steps whose results are known. */
  lemma FeedThrough(p: Parser, a: string, q: Parser, b: string, r: Parser)
    requires Feed(p, a) == q && Feed(q, b) == r
    ensures Feed(p, a + b) == r
  {
    FeedAppend(p, a, b);
  }

  // ---------------------------------------------------------------------------
  // The lines a server writes, read from a state with no partial line

  predicate AtLineStart(p: Parser)
  {
    p.line == "" && !p.afterCR
  }

  lemma PrefixedNoLineBreak(prefix: string, v: string)
    requires NoLineBreak(prefix) && NoLineBreak(v)
    ensures NoLineBreak(prefix + v)
  {
    assert forall x :: x in prefix + v ==> x in prefix || x in v;
  }

  lemma ProcessEventLine(p: Parser, v: string)
    ensures ProcessLine(p, "event: " + v) == p.(eventType := v)
  {
    var line := "event: " + v;
    FieldOf("event", v);
    assert line == "event" + ": " + v;
    assert line[0] == 'e';
  }

  /** `event: v` sets the event type. */
  lemma FeedEventLine(p: Parser, v: string)
    requires AtLineStart(p) && NoLineBreak(v)
    ensures Feed(p, "event: " + v + "\n") == p.(eventType := v)
  {
    PrefixedNoLineBreak("event: ", v);
    FeedLine(p, "event: " + v);
    ProcessEventLine(p, v);
  }

  /** The LF that ends the line in progress processes that line. */
  lemma FinishLine(r: Parser)
    requires !r.afterCR
    ensures Feed(r, "\n") == ProcessLine(r.(line := ""), r.line)
  {
    assert "\n"[..0] == "";
    assert Feed(r, "\n") == Step(Feed(r, ""), '\n') == Step(r, '\n');
  }

  lemma ProcessDataLine(p: Parser, v: string)
    ensures ProcessLine(p, "data: " + v) == p.(data := p.data + v + "\n")
  {
    var line := "data: " + v;
    FieldOf("data", v);
    assert line == "data" + ": " + v;
    assert line[0] == 'd';
  }

  /** `data: v` appends v and a LF to the data buffer. */
  lemma FeedDataLine(p: Parser, v: string)
    requires AtLineStart(p) && NoLineBreak(v)
    ensures Feed(p, "data: " + v + "\n") == p.(data := p.data + v + "\n")
  {
    PrefixedNoLineBreak("data: ", v);
    FeedLine(p, "data: " + v);
    ProcessDataLine(p, v);
  }

  lemma ProcessEmptyDataLine(p: Parser)
    ensures ProcessLine(p, "data:") == p.(data := p.data + "\n")
  {
    EmptyFieldOf("data");
    assert "data:" == "data" + ":";
    assert p.data + "" + "\n" == p.data + "\n";
  }

  /** `data:` appends a bare LF to the data buffer. */
  lemma FeedEmptyDataLine(p: Parser)
    requires AtLineStart(p)
    ensures Feed(p, "data:\n") == p.(data := p.data + "\n")
  {
    FeedLine(p, "data:");
    ProcessEmptyDataLine(p);
    assert "data:\n" == "data:" + "\n";
  }

  /** A comment line changes nothing. */
  lemma FeedCommentLine(p: Parser, v: string)
    requires AtLineStart(p) && NoLineBreak(v)
    ensures Feed(p, ":" + v + "\n") == p
  {
    PrefixedNoLineBreak(":", v);
    FeedLine(p, ":" + v);
    assert (":" + v)[0] == ':';
  }

  /** A line of a field other than "event" and "data" changes nothing. */
  lemma FeedIgnoredLine(p: Parser, name: string)
    requires AtLineStart(p) && NoLineBreak(name) && ':' !in name
    requires name != "" && name != "event" && name != "data"
    ensures Feed(p, name + "\n") == p
  {
    FeedLine(p, name);
    assert FieldName(name) == name;
    assert name[0] != ':' by {
      assert name[0] in name;
    }
  }

  /** A `data:` line, then a line of a field the browser ignores. */
  lemma FeedDataThenIgnoredLine(p: Parser, a: string, b: string)
    requires AtLineStart(p) && NoLineBreak(a)
    requires NoLineBreak(b) && ':' !in b && b != "" && b != "event" && b != "data"
    ensures Feed(p, "data: " + a + "\n" + (b + "\n")) == p.(data := p.data + a + "\n")
  {
    var q := p.(data := p.data + a + "\n");
    FeedDataLine(p, a);
    FeedIgnoredLine(q, b);
    FeedThrough(p, "data: " + a + "\n", q, b + "\n", q);
  }

  /** A `data:` line, an ignored line and a blank line dispatch the first line's value. */
  lemma FeedDataCutAtLineFeed(events: seq<Dispatched>, a: string, b: string)
    requires NoLineBreak(a) && NoLineBreak(b) && ':' !in b && b != "" && b != "event" && b != "data"
    ensures Feed(Idle(events), "data: " + a + "\n" + (b + "\n") + "\n") == Idle(events + [Dispatched("message", a)])
  {
    var p0 := Idle(events);
    var p1 := p0.(data := a + "\n");
    var p2 := Idle(events + [Dispatched("message", a)]);
    FeedDataThenIgnoredLine(p0, a, b);
    assert p0.data + a + "\n" == a + "\n";
    assert Feed(p1, "\n") == p2 by {
      FeedBlankLine(p1);
      DispatchData(p1, a);
    }
    FeedThrough(p0, "data: " + a + "\n" + (b + "\n"), p1, "\n", p2);
  }

  /** A blank line dispatches. */
  lemma FeedBlankLine(p: Parser)
    requires AtLineStart(p)
    ensures Feed(p, "\n") == Dispatch(p)
  {
    FeedLine(p, "");
    assert "" + "\n" == "\n";
  }

  /** A data buffer of `s` plus its LF dispatches `s`. */
  lemma DispatchData(p: Parser, s: string)
    requires p.data == s + "\n"
    ensures Dispatch(p).events == p.events + [Dispatched(if p.eventType == "" then "message" else p.eventType, s)]
    ensures Dispatch(p) == p.(eventType := "", data := "", events := Dispatch(p).events)
  {
    assert p.data[..|p.data| - 1] == s;
  }
}
