/** The prompt texts handed to the generation backend: line-per-message
    transcripts and the two fixed templates around them. */
module Prompts {
  import opened Base
  import opened Models

  /** `fmt.Sprintf("%s: %s\n", m.Role, m.Content)`: one stored message as a transcript line. */
  function Line(m: Message): string
  {
    m.role + ": " + m.content + "\n"
  }

  /** The payload record of the web handler's transcript ({role, content}). */
  datatype ChatMessage = ChatMessage(role: string, content: string)

  /** The web handler's line: role "user" is shown as "User", every other role as "Assistant". */
  function ChatLine(m: ChatMessage): string
  {
    (if m.role == UserRole then "User: " else "Assistant: ") + m.content + "\n"
  }

  /** `s := ""; for _, x := range xs { s += line(x) }`: the lines of xs, in order. */
  function Render<T>(xs: seq<T>, line: T -> string): string
  {
    if |xs| == 0 then "" else Render(xs[..|xs| - 1], line) + line(xs[|xs| - 1])
  }

  /** Sum of the lengths of the lines of xs. */
  function RenderedLength<T>(xs: seq<T>, line: T -> string): nat
  {
    if |xs| == 0 then 0 else RenderedLength(xs[1..], line) + |line(xs[0])|
  }

  const AssistantCue := "\nAssistant:"

  /** buildPrompt and BuildFullPrompt: every message as a line, then the cue. */
  function FullPrompt(msgs: seq<Message>): string
  {
    Render(msgs, Line) + AssistantCue
  }

  /** buildPromptFromMessages: every payload message as a User/Assistant line, then the cue. */
  function ChatPrompt(msgs: seq<ChatMessage>): string
  {
    Render(msgs, ChatLine) + AssistantCue
  }

  /** BuildRAGPrompt's template. */
  function RagPrompt(context: string, query: string): string
  {
    "Context:\n" + context + "\nUser: " + query + AssistantCue
  }

  const CombinedIntro :=
    "You are a chat bot that answers questions based on the conversation history and relevant context.\n"
    + "Short-Term Memory (This is your memory the previous chats we have had):\n"
  const CombinedMiddle := "\n\n---\n\nRelevant Context (This is the relevant context found from embeddings):\n"
  const QueryHeading := "\n\n---\n\nMain Query (This what you need to respond to):\n\n"

  /** BuildCombinedPrompt's template: short-term transcript, relevant context, query. */
  function CombinedPrompt(shortTerm: string, relevant: string, query: string): string
  {
    CombinedIntro + shortTerm + CombinedMiddle + relevant + QueryHeading + "User: " + query + AssistantCue
  }

  // ---------------------------------------------------------------------------
  // The loops

  /** The `+=` loop shared by buildPrompt, BuildFullPrompt, buildPromptFromMessages
      and the context rendering of RetrieveRelevantContext. */
  method AppendLines<T>(xs: seq<T>, line: T -> string) returns (s: string)
    ensures s == Render(xs, line)
  {
    s := "";
    for i := 0 to |xs|
      invariant s == Render(xs[..i], line)
    {
      assert xs[..i + 1][..i] == xs[..i];
      s := s + line(xs[i]);
    }
    assert xs[..|xs|] == xs;
  }

  /** buildPrompt (web chat) and BuildFullPrompt (services): the same loop. */
  method BuildFullPrompt(msgs: seq<Message>) returns (prompt: string)
    ensures prompt == FullPrompt(msgs)
  {
    prompt := AppendLines(msgs, Line);
    prompt := prompt + AssistantCue;
  }

  /** buildPromptFromMessages. */
  method BuildPromptFromMessages(msgs: seq<ChatMessage>) returns (prompt: string)
    ensures prompt == ChatPrompt(msgs)
  {
    prompt := AppendLines(msgs, ChatLine);
    prompt := prompt + AssistantCue;
  }

  // ---------------------------------------------------------------------------
  // Shape of a rendered transcript

  /** Rendering distributes over concatenation. */
  lemma {:induction false} RenderAppend<T>(a: seq<T>, b: seq<T>, line: T -> string)
    ensures Render(a + b, line) == Render(a, line) + Render(b, line)
    decreases |b|
  {
    if |b| == 0 {
      assert a + b == a;
    } else {
      var b' := b[..|b| - 1];
      assert (a + b)[..|a + b| - 1] == a + b';
      RenderAppend(a, b', line);
    }
  }

  lemma {:induction false} RenderLength<T>(xs: seq<T>, line: T -> string)
    ensures |Render(xs, line)| == RenderedLength(xs, line)
    decreases |xs|
  {
    if |xs| > 0 {
      RenderAppend([xs[0]], xs[1..], line);
      assert [xs[0]] + xs[1..] == xs;
      assert Render([xs[0]], line) == Render([], line) + line(xs[0]);
      RenderLength(xs[1..], line);
    }
  }

  /** The rendering of xs[..i] is a prefix, and line(xs[i]) follows it directly:
      one line per element, in input order. */
  lemma RenderLineAt<T>(xs: seq<T>, i: nat, line: T -> string)
    requires i < |xs|
    ensures OccursAt(Render(xs[..i], line) + line(xs[i]), Render(xs, line), 0)
  {
    RenderSnoc(xs, i, line);
    RenderSplit(xs, i + 1, line);
    PrefixAt(Render(xs[..i + 1], line), Render(xs[i + 1..], line));
  }

  /** The rendering of xs[..i + 1] is that of xs[..i] followed by xs[i]'s line. */
  lemma RenderSnoc<T>(xs: seq<T>, i: nat, line: T -> string)
    requires i < |xs|
    ensures Render(xs[..i + 1], line) == Render(xs[..i], line) + line(xs[i])
  {
    var head := xs[..i + 1];
    assert head[..|head| - 1] == xs[..i] && head[|head| - 1] == xs[i];
  }

  /** Rendering xs is rendering its first k elements, then the rest. */
  lemma RenderSplit<T>(xs: seq<T>, k: nat, line: T -> string)
    requires k <= |xs|
    ensures Render(xs, line) == Render(xs[..k], line) + Render(xs[k..], line)
  {
    var a, b := xs[..k], xs[k..];
    assert xs == a + b;
    RenderAppend(a, b, line);
  }

  lemma PrefixAt(a: string, b: string)
    ensures OccursAt(a, a + b, 0)
  {
    assert (a + b)[..|a|] == a;
  }

  /** In a + x + b + y + c, x sits right after a, y right after b, and c ends it. */
  lemma SectionsAt(a: string, x: string, b: string, y: string, c: string)
    ensures OccursAt(x, a + x + b + y + c, |a|)
    ensures OccursAt(y, a + x + b + y + c, |a| + |x| + |b|)
    ensures EndsWith(a + x + b + y + c, c)
  {
    var p := a + x + b + y + c;
    assert p[|a|..|a| + |x|] == x;
    assert p[|a| + |x| + |b|..|a| + |x| + |b| + |y|] == y;
    assert p[|p| - |c|..] == c;
  }

  /** line(xs[i]) occurs in Render(xs) + cue right after the lines before it. */
  lemma LineOccurs<T>(xs: seq<T>, i: nat, line: T -> string)
    requires i < |xs|
    ensures OccursAt(line(xs[i]), Render(xs, line) + AssistantCue, |Render(xs[..i], line)|)
  {
    RenderLineAt(xs, i, line);
    var pre := Render(xs[..i], line);
    var l := line(xs[i]);
    var full := Render(xs, line) + AssistantCue;
    assert full[..|pre| + |l|] == pre + l;
    assert full[|pre|..|pre| + |l|] == (pre + l)[|pre|..];
  }

  /** buildPrompt / BuildFullPrompt: each message's line, role copied verbatim,
      at its place in input order; the cue ends the prompt; an empty history
      gives the cue alone; the length is the sum of role + content + 3 per
      message, plus 11. */
  lemma FullPromptShape(msgs: seq<Message>)
    ensures EndsWith(FullPrompt(msgs), "\nAssistant:")
    ensures msgs == [] ==> FullPrompt(msgs) == "\nAssistant:"
    ensures |FullPrompt(msgs)| == MessageLengths(msgs) + 11
    ensures forall i :: 0 <= i < |msgs| ==>
              OccursAt(msgs[i].role + ": " + msgs[i].content + "\n", FullPrompt(msgs), |Render(msgs[..i], Line)|)
  {
    RenderLength(msgs, Line);
    LineLengths(msgs);
    forall i | 0 <= i < |msgs|
      ensures OccursAt(msgs[i].role + ": " + msgs[i].content + "\n", FullPrompt(msgs), |Render(msgs[..i], Line)|)
    {
      LineOccurs(msgs, i, Line);
    }
  }

  function MessageLengths(msgs: seq<Message>): nat
  {
    if |msgs| == 0 then 0 else |msgs[0].role| + |msgs[0].content| + 3 + MessageLengths(msgs[1..])
  }

  lemma {:induction false} LineLengths(msgs: seq<Message>)
    ensures RenderedLength(msgs, Line) == MessageLengths(msgs)
    decreases |msgs|
  {
    if |msgs| > 0 {
      LineLengths(msgs[1..]);
    }
  }

  /** buildPromptFromMessages: "User: c" exactly for role "user", "Assistant: c"
      for any other role, in order; the cue ends the prompt and an empty list
      gives the cue alone; the prompt is never empty. */
  lemma ChatPromptShape(msgs: seq<ChatMessage>)
    ensures EndsWith(ChatPrompt(msgs), "\nAssistant:")
    ensures msgs == [] ==> ChatPrompt(msgs) == "\nAssistant:"
    ensures ChatPrompt(msgs) != ""
    ensures forall i :: 0 <= i < |msgs| && msgs[i].role == "user" ==>
              OccursAt("User: " + msgs[i].content + "\n", ChatPrompt(msgs), |Render(msgs[..i], ChatLine)|)
    ensures forall i :: 0 <= i < |msgs| && msgs[i].role != "user" ==>
              OccursAt("Assistant: " + msgs[i].content + "\n", ChatPrompt(msgs), |Render(msgs[..i], ChatLine)|)
  {
    forall i | 0 <= i < |msgs|
      ensures OccursAt(ChatLine(msgs[i]), ChatPrompt(msgs), |Render(msgs[..i], ChatLine)|)
    {
      LineOccurs(msgs, i, ChatLine);
    }
  }

  /** BuildRAGPrompt: the context right after "Context:\n", the query framed as
      the user's turn at the end. */
  lemma RagPromptShape(context: string, query: string)
    ensures OccursAt(context, RagPrompt(context, query), 9)
    ensures EndsWith(RagPrompt(context, query), "\nUser: " + query + "\nAssistant:")
    ensures |RagPrompt(context, query)| == |context| + |query| + 27
  {
    SectionsAt("Context:\n", context, "", "", "\nUser: " + query + AssistantCue);
    assert RagPrompt(context, query) == "Context:\n" + context + "" + "" + ("\nUser: " + query + AssistantCue);
  }

  /** In the left-nested concatenation a + x + b + y + h + u + q + c, x and y sit
      at their offsets and u + q + c ends it. */
  lemma TemplateSections(a: string, x: string, b: string, y: string, h: string, u: string, q: string, c: string)
    ensures OccursAt(x, a + x + b + y + h + u + q + c, |a|)
    ensures OccursAt(y, a + x + b + y + h + u + q + c, |a| + |x| + |b|)
    ensures EndsWith(a + x + b + y + h + u + q + c, u + q + c)
  {
    var p := a + x + b + y + h + u + q + c;
    assert p == a + x + b + y + (h + u + q + c);
    SectionsAt(a, x, b, y, h + u + q + c);
    assert p == (a + x + b + y + h) + (u + q + c);
    assert p[|p| - |u + q + c|..] == u + q + c;
  }

  /** BuildCombinedPrompt: the short-term transcript, then the relevant context,
      then the query, at fixed offsets; the prompt always ends with the user turn
      and the cue. */
  lemma CombinedPromptShape(shortTerm: string, relevant: string, query: string)
    ensures OccursAt(shortTerm, CombinedPrompt(shortTerm, relevant, query), |CombinedIntro|)
    ensures OccursAt(relevant, CombinedPrompt(shortTerm, relevant, query), |CombinedIntro| + |shortTerm| + |CombinedMiddle|)
    ensures EndsWith(CombinedPrompt(shortTerm, relevant, query), "User: " + query + "\nAssistant:")
  {
    TemplateSections(CombinedIntro, shortTerm, CombinedMiddle, relevant, QueryHeading, "User: ", query, AssistantCue);
  }
}
