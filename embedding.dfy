/** Embeddings: the request sent to the embedding backend, the selection of
    the vector from its reply, and the pgvector text literal a vector is stored
    and queried as. Components are reals; how one is printed (`%f`) is given as
    an element formatter. */
module Embedding {
  import opened Base
  import opened Config

  type Vector = seq<real>

  /** Dimension of the zero vector the chat handlers store when embedding fails. */
  const FallbackDimension := 768

  function Zeros(n: nat): (v: Vector)
    ensures |v| == n && forall i :: 0 <= i < n ==> v[i] == 0.0
  {
    seq(n, i => 0.0)
  }

  // ---------------------------------------------------------------------------
  // FormatVector

  /** The element strings of v joined by ",". */
  function Joined(v: Vector, ff: real -> string): string
  {
    if |v| == 0 then ""
    else if |v| == 1 then ff(v[0])
    else Joined(v[..|v| - 1], ff) + "," + ff(v[|v| - 1])
  }

  /** The literal FormatVector builds: "[" + elements joined by "," + "]". */
  function VectorLiteral(v: Vector, ff: real -> string): string
  {
    "[" + Joined(v, ff) + "]"
  }

  /** FormatVector: `s := "["`, a "," before every element but the first, then "]". */
  method FormatVector(v: Vector, ff: real -> string) returns (s: string)
    ensures s == VectorLiteral(v, ff)
  {
    s := "[";
    for i := 0 to |v|
      invariant s == "[" + Joined(v[..i], ff)
    {
      assert v[..i + 1][..i] == v[..i];
      if i > 0 {
        s := s + ",";
      }
      s := s + ff(v[i]);
    }
    assert v[..|v|] == v;
    s := s + "]";
  }

  // ---------------------------------------------------------------------------
  // Reading a literal back: pgvector's side of the format

  /** The comma-separated fields of s; a string without commas is one field. */
  function Fields(s: string): (fs: seq<string>)
    ensures |fs| >= 1
  {
    if |s| == 0 then [""]
    else
      var init := Fields(s[..|s| - 1]);
      var c := s[|s| - 1];
      if c == ',' then init + [""]
      else init[..|init| - 1] + [init[|init| - 1] + [c]]
  }

  /** A bracketed list: "[]" is the empty list, otherwise the fields inside the brackets. */
  function ParseLiteral(s: string): Option<seq<string>>
  {
    if |s| < 2 || s[0] != '[' || s[|s| - 1] != ']' then None
    else if |s| == 2 then Some([])
    else Some(Fields(s[1..|s| - 1]))
  }

  /** What the element formatter is assumed to produce for %f: a non-empty text without commas. */
  ghost predicate PlainElements(ff: real -> string)
  {
    forall x :: PlainText(ff(x))
  }

  predicate PlainText(t: string)
  {
    t != "" && NoComma(t)
  }

  predicate NoComma(t: string)
  {
    ',' !in t
  }

  lemma PlainAt(ff: real -> string, x: real)
    requires PlainElements(ff)
    ensures PlainText(ff(x))
  {
  }

  lemma {:induction false} FieldsOfPlain(s: string)
    requires ',' !in s
    ensures Fields(s) == [s]
    decreases |s|
  {
    if |s| > 0 {
      assert forall k :: 0 <= k < |s| - 1 ==> s[..|s| - 1][k] == s[k];
      FieldsOfPlain(s[..|s| - 1]);
      assert s[..|s| - 1] + [s[|s| - 1]] == s;
    }
  }

  lemma {:induction false} FieldsAfterComma(a: string, b: string)
    requires ',' !in b
    ensures Fields(a + "," + b) == Fields(a) + [b]
    decreases |b|
  {
    if |b| == 0 {
      assert a + "," + b == a + ",";
      assert (a + ",")[..|a + ","| - 1] == a;
    } else {
      var b' := b[..|b| - 1];
      assert (a + "," + b)[..|a + "," + b| - 1] == a + "," + b';
      assert forall k :: 0 <= k < |b'| ==> b'[k] == b[k];
      FieldsAfterComma(a, b');
      assert b' + [b[|b| - 1]] == b;
    }
  }

  /** The fields of the joined elements are the element strings, in vector order. */
  lemma {:induction false} FieldsOfJoined(v: Vector, ff: real -> string)
    requires PlainElements(ff)
    requires |v| >= 1
    ensures Fields(Joined(v, ff)) == seq(|v|, i requires 0 <= i < |v| => ff(v[i]))
    decreases |v|
  {
    if |v| == 1 {
      PlainAt(ff, v[0]);
      FieldsOfPlain(ff(v[0]));
    } else {
      var init := v[..|v| - 1];
      FieldsOfJoined(init, ff);
      PlainAt(ff, v[|v| - 1]);
      FieldsAfterComma(Joined(init, ff), ff(v[|v| - 1]));
    }
  }

  /** Round trip: reading the literal back gives one field per component, the
      component's own text, in order; so no component is lost, merged or moved. */
  lemma FormatVectorRoundTrip(v: Vector, ff: real -> string)
    requires PlainElements(ff)
    ensures ParseLiteral(VectorLiteral(v, ff)) == Some(seq(|v|, i requires 0 <= i < |v| => ff(v[i])))
  {
    var lit := VectorLiteral(v, ff);
    if |v| == 0 {
      assert lit == "[]";
      assert seq(|v|, i requires 0 <= i < |v| => ff(v[i])) == [];
    } else {
      FieldsOfJoined(v, ff);
      assert |Joined(v, ff)| >= 1 by {
        JoinedNonEmpty(v, ff);
      }
      assert lit[1..|lit| - 1] == Joined(v, ff);
    }
  }

  lemma {:induction false} JoinedNonEmpty(v: Vector, ff: real -> string)
    requires PlainElements(ff)
    requires |v| >= 1
    ensures |Joined(v, ff)| >= 1
    decreases |v|
  {
    if |v| > 1 {
      JoinedNonEmpty(v[..|v| - 1], ff);
    } else {
      PlainAt(ff, v[0]);
    }
  }

  /** n >= 1 comma-free elements are joined by exactly n - 1 separators. */
  ghost predicate CommaFreeElements(ff: real -> string)
  {
    forall x :: NoComma(ff(x))
  }

  lemma NoCommaAt(ff: real -> string, x: real)
    requires CommaFreeElements(ff)
    ensures NoComma(ff(x))
  {
  }

  lemma {:induction false} JoinedSeparators(v: Vector, ff: real -> string)
    requires CommaFreeElements(ff)
    requires |v| >= 1
    ensures CountChar(Joined(v, ff), ',') == |v| - 1
    decreases |v|
  {
    if |v| == 1 {
      NoCommaAt(ff, v[0]);
      CountCharAbsent(ff(v[0]), ',');
    } else {
      var init := v[..|v| - 1];
      JoinedSeparators(init, ff);
      CountCharAppend(Joined(init, ff) + ",", ff(v[|v| - 1]), ',');
      CountCharAppend(Joined(init, ff), ",", ',');
      NoCommaAt(ff, v[|v| - 1]);
      CountCharAbsent(ff(v[|v| - 1]), ',');
    }
  }

  /** The literal is bracketed, an empty vector gives "[]", and the commas in it are
      exactly the n - 1 separators. */
  lemma VectorLiteralShape(v: Vector, ff: real -> string)
    requires CommaFreeElements(ff)
    ensures StartsWith(VectorLiteral(v, ff), "[") && EndsWith(VectorLiteral(v, ff), "]")
    ensures v == [] ==> VectorLiteral(v, ff) == "[]"
    ensures |v| >= 1 ==> CountChar(VectorLiteral(v, ff), ',') == |v| - 1
  {
    var lit := VectorLiteral(v, ff);
    assert lit[..1] == "[";
    assert lit[|lit| - 1..] == "]";
    if |v| >= 1 {
      JoinedSeparators(v, ff);
      CountCharAppend("[" + Joined(v, ff), "]", ',');
      CountCharAppend("[", Joined(v, ff), ',');
    }
  }

  /** The 768-zero fallback reads back as 768 copies of the text of 0.0, with 767 commas. */
  lemma ZeroFallbackLiteral(ff: real -> string)
    requires PlainElements(ff)
    ensures ParseLiteral(VectorLiteral(Zeros(FallbackDimension), ff)) == Some(seq(768, i => ff(0.0)))
    ensures CountChar(VectorLiteral(Zeros(FallbackDimension), ff), ',') == 767
  {
    var z := Zeros(FallbackDimension);
    FormatVectorRoundTrip(z, ff);
    assert CommaFreeElements(ff) by {
      forall x ensures NoComma(ff(x)) {
        PlainAt(ff, x);
      }
    }
    assert seq(|z|, i requires 0 <= i < |z| => ff(z[i])) == seq(768, i => ff(0.0));
    VectorLiteralShape(z, ff);
  }

  // ---------------------------------------------------------------------------
  // ComputeEmbedding

  /** The JSON body posted to the embedding endpoint. */
  datatype EmbedRequest = EmbedRequest(model: string, input: string, truncate: bool)

  /** What the embedding endpoint hands back: no response at all, or a status
      code and the body as decoded into `{model, embeddings}` (None when it does
      not decode). */
  datatype EmbedReply = EmbedUnreachable | EmbedResponse(status: int, embeddings: Option<seq<Vector>>)

  datatype EmbedError = EmbedRequestFailed | EmbedStatus(code: int) | EmbedDecodeFailed | NoEmbeddings

  /** The request ComputeEmbedding sends for `text`: EMBEDDING_MODEL, or
      "deekseek-r1:7b" when that is empty, with truncation on. */
  function EmbedRequestFor(env: Env, text: string): (req: EmbedRequest)
    ensures req.input == text && req.truncate
    ensures Getenv(env, "EMBEDDING_MODEL") == "" ==> req.model == "deekseek-r1:7b"
    ensures Getenv(env, "EMBEDDING_MODEL") != "" ==> req.model == Getenv(env, "EMBEDDING_MODEL")
  {
    var model := Getenv(env, "EMBEDDING_MODEL");
    EmbedRequest(if model == "" then DefaultEmbeddingModel else model, text, true)
  }

  /** The steps after the POST: a non-200 status, an undecodable body and an empty
      list are errors; otherwise the first vector is the embedding. */
  function SelectEmbedding(reply: EmbedReply): (r: Result<Vector, EmbedError>)
    ensures r.Ok? <==> reply.EmbedResponse? && reply.status == 200 && reply.embeddings.Some? && |reply.embeddings.value| > 0
    ensures r.Ok? ==> r.value == reply.embeddings.value[0]
    ensures reply.EmbedUnreachable? ==> r == Err(EmbedRequestFailed)
    ensures reply.EmbedResponse? && reply.status != 200 ==> r == Err(EmbedStatus(reply.status))
    ensures reply.EmbedResponse? && reply.status == 200 && reply.embeddings == Some([]) ==> r == Err(NoEmbeddings)
  {
    match reply
    case EmbedUnreachable => Err(EmbedRequestFailed)
    case EmbedResponse(status, embeddings) =>
      if status != 200 then Err(EmbedStatus(status))
      else if embeddings.None? then Err(EmbedDecodeFailed)
      else if |embeddings.value| == 0 then Err(NoEmbeddings)
      else Ok(embeddings.value[0])
  }

  /** ComputeEmbedding against an embedding backend `embed`. */
  function ComputeEmbedding(env: Env, text: string, embed: EmbedRequest -> EmbedReply): Result<Vector, EmbedError>
  {
    SelectEmbedding(embed(EmbedRequestFor(env, text)))
  }

  /** The embedding's model is the one the configuration loader settles on. */
  lemma EmbeddingModelIsConfigured(env: Env, text: string)
    ensures EmbedRequestFor(env, text).model == LoadConfig(env).embeddingModel
  {
  }

  /** The chat handlers' fallback: the embedding, or 768 zeros when it cannot be computed. */
  function EmbeddingOrZeros(r: Result<Vector, EmbedError>): (v: Vector)
    ensures r.Ok? ==> v == r.value
    ensures r.Err? ==> v == Zeros(FallbackDimension)
  {
    if r.Ok? then r.value else Zeros(FallbackDimension)
  }
}
