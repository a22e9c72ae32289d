/** The generation stream: the producer that posts a prompt to the generation
    backend and turns its newline-delimited JSON body into text fragments. The
    HTTP exchange is an oracle; the body is the sequence of results the reader's
    `ReadBytes('\n')` calls return, each line already put through the JSON
    decoder. The goroutine and its two channels are recorded as the sequence of
    channel operations it performs. */
module OllamaStream {
  import opened Base
  import opened StrConv

  /** One NDJSON record; absent fields decode as "" and false. */
  datatype Chunk = Chunk(model: string, response: string, done: bool)

  /** What one `ReadBytes('\n')` call yields: a complete line (decoded to a
      record, or None when it is not valid JSON for one), the end of the body
      together with whatever unterminated text preceded it, or another read
      error. A body that runs out of steps ends as at EOF. */
  datatype ReadStep = LineRead(record: Option<Chunk>) | EndOfBody(rest: string) | ReadFailed(cause: string)

  datatype GenerateRequest = GenerateRequest(model: string, prompt: string)

  datatype GenerateReply = GenerateUnreachable(cause: string) | GenerateResponse(status: int, body: seq<ReadStep>)

  datatype StreamError = RequestFailed(cause: string) | BadStatus(code: int) | ReadError(cause: string)

  /** The text of each error, as `%v` prints the wrapped error. */
  function ErrorText(e: StreamError): (t: string)
    ensures e.BadStatus? ==> t == "ollama returned status code " + Itoa(e.code)
    ensures e.RequestFailed? ==> t == "ollama request failed: " + e.cause
    ensures e.ReadError? ==> t == "error reading Ollama stream: " + e.cause
  {
    match e
    case RequestFailed(cause) => "ollama request failed: " + cause
    case BadStatus(code) => "ollama returned status code " + Itoa(code)
    case ReadError(cause) => "error reading Ollama stream: " + cause
  }

  /** The producer's channel operations: a send on `out`, a send on the
      one-slot `errs`, and the two deferred closes. */
  datatype ChannelOp = SendChunk(text: string) | SendError(err: StreamError) | CloseErrs | CloseOut

  // ---------------------------------------------------------------------------
  // What the producer sends

  /** Which steps end the read loop: EOF, a read error, or a record marked done. */
  predicate Stops(step: ReadStep)
  {
    step.EndOfBody? || step.ReadFailed? || (step.LineRead? && step.record.Some? && step.record.value.done)
  }

  /** The fragments the read loop sends and the error it reports, if any. */
  function Decode(body: seq<ReadStep>): (seq<string>, Option<StreamError>)
    decreases |body|
  {
    if |body| == 0 then ([], None)
    else
      match body[0]
      case EndOfBody(_) => ([], None)
      case ReadFailed(cause) => ([], Some(ReadError(cause)))
      case LineRead(record) =>
        if record.None? then Decode(body[1..])
        else if record.value.done then ([record.value.response], None)
        else
          var rest := Decode(body[1..]);
          ([record.value.response] + rest.0, rest.1)
  }

  /** The whole exchange: a failed POST or a status other than 200 reports one
      error and no fragments; otherwise the body is decoded. */
  function StreamOutcome(reply: GenerateReply): (seq<string>, Option<StreamError>)
  {
    match reply
    case GenerateUnreachable(cause) => ([], Some(RequestFailed(cause)))
    case GenerateResponse(status, body) =>
      if status != 200 then ([], Some(BadStatus(status))) else Decode(body)
  }

  function SendAll(fragments: seq<string>): (ops: seq<ChannelOp>)
    ensures |ops| == |fragments|
    ensures forall i :: 0 <= i < |fragments| ==> ops[i] == SendChunk(fragments[i])
  {
    seq(|fragments|, i requires 0 <= i < |fragments| => SendChunk(fragments[i]))
  }

  /** The fragments sent in order, then the error if there is one, then
      `close(errs)` and `close(out)`: the deferred calls run last-in first-out. */
  function ProducerOps(outcome: (seq<string>, Option<StreamError>)): seq<ChannelOp>
  {
    SendAll(outcome.0) + (if outcome.1.Some? then [SendError(outcome.1.value)] else []) + [CloseErrs, CloseOut]
  }

  /** StreamOllamaChunks against the generation backend `generate`. */
  method StreamOllamaChunks(model: string, prompt: string, generate: GenerateRequest -> GenerateReply)
    returns (ops: seq<ChannelOp>)
    ensures ops == ProducerOps(StreamOutcome(generate(GenerateRequest(model, prompt))))
  {
    var reply := generate(GenerateRequest(model, prompt));
    if reply.GenerateUnreachable? {
      return [SendError(RequestFailed(reply.cause)), CloseErrs, CloseOut];
    }
    if reply.status != 200 {
      return [SendError(BadStatus(reply.status)), CloseErrs, CloseOut];
    }
    var body := reply.body;
    var sent: seq<string> := [];
    ops := [];
    var i := 0;
    assert body[0..] == body && sent + Decode(body).0 == Decode(body).0;
    while i < |body|
      invariant 0 <= i <= |body|
      invariant ops == SendAll(sent)
      invariant Decode(body).0 == sent + Decode(body[i..]).0
      invariant Decode(body).1 == Decode(body[i..]).1
    {
      var step := body[i];
      assert body[i..][0] == step && body[i..][1..] == body[i + 1..];
      if step.EndOfBody? {
        break;
      }
      if step.ReadFailed? {
        return ops + [SendError(ReadError(step.cause)), CloseErrs, CloseOut];
      }
      if step.record.Some? {
        assert sent + Decode(body[i..]).0 == (sent + [step.record.value.response]) + Decode(body[i + 1..]).0
          || step.record.value.done;
        ops := ops + [SendChunk(step.record.value.response)];
        sent := sent + [step.record.value.response];
        if step.record.value.done {
          break;
        }
      }
      i := i + 1;
    }
    ops := ops + [CloseErrs, CloseOut];
  }

  // ---------------------------------------------------------------------------
  // What the producer promises

  /** A failed POST or a non-200 status: exactly one error, no fragment, both channels closed. */
  lemma RequestFailureSendsOneError(reply: GenerateReply)
    requires reply.GenerateUnreachable? || reply.status != 200
    ensures var e := if reply.GenerateUnreachable? then RequestFailed(reply.cause) else BadStatus(reply.status);
            ProducerOps(StreamOutcome(reply)) == [SendError(e), CloseErrs, CloseOut]
  {
  }

  /** The texts of the SendChunk operations, in order. */
  function SentChunks(ops: seq<ChannelOp>): seq<string>
  {
    if |ops| == 0 then []
    else (if ops[0].SendChunk? then [ops[0].text] else []) + SentChunks(ops[1..])
  }

  /** The first error sent, if any. */
  function SentError(ops: seq<ChannelOp>): Option<StreamError>
  {
    if |ops| == 0 then None
    else if ops[0].SendError? then Some(ops[0].err)
    else SentError(ops[1..])
  }

  function CountErrors(ops: seq<ChannelOp>): nat
  {
    if |ops| == 0 then 0 else (if ops[0].SendError? then 1 else 0) + CountErrors(ops[1..])
  }

  lemma {:induction false} SendAllRead(fragments: seq<string>, tail: seq<ChannelOp>)
    ensures SentChunks(SendAll(fragments) + tail) == fragments + SentChunks(tail)
    ensures SentError(SendAll(fragments) + tail) == SentError(tail)
    ensures CountErrors(SendAll(fragments) + tail) == CountErrors(tail)
    decreases |fragments|
  {
    var ops := SendAll(fragments) + tail;
    if |fragments| == 0 {
      assert ops == tail;
    } else {
      assert ops[0] == SendChunk(fragments[0]);
      assert ops[1..] == SendAll(fragments[1..]) + tail;
      SendAllRead(fragments[1..], tail);
      assert fragments == [fragments[0]] + fragments[1..];
    }
  }

  /** Every exit path: the operations hand the consumer exactly the decoded
      fragments and error; at most one error is sent, always just before the
      closes; `errs` is closed and then `out`, and nothing follows. */
  lemma ProducerOpsShape(outcome: (seq<string>, Option<StreamError>))
    ensures var ops := ProducerOps(outcome);
            SentChunks(ops) == outcome.0 && SentError(ops) == outcome.1 &&
            CountErrors(ops) <= 1 &&
            |ops| >= 2 && ops[|ops| - 2] == CloseErrs && ops[|ops| - 1] == CloseOut &&
            (forall i :: 0 <= i < |ops| - 2 ==> ops[i] != CloseErrs && ops[i] != CloseOut) &&
            (forall i :: 0 <= i < |ops| && ops[i].SendError? ==> i == |ops| - 3)
  {
    var tail := (if outcome.1.Some? then [SendError(outcome.1.value)] else []) + [CloseErrs, CloseOut];
    SendAllRead(outcome.0, tail);
    ClosesCarryNothing();
    assert ProducerOps(outcome) == SendAll(outcome.0) + tail;
    if outcome.1.Some? {
      assert tail[1..] == [CloseErrs, CloseOut];
      assert tail[1..][1..] == [CloseOut];
    } else {
      assert tail == [CloseErrs, CloseOut];
    }
  }

  lemma ClosesCarryNothing()
    ensures SentChunks([CloseErrs, CloseOut]) == [] && SentError([CloseErrs, CloseOut]) == None
    ensures CountErrors([CloseErrs, CloseOut]) == 0
  {
    var closes := [CloseErrs, CloseOut];
    assert closes[1..] == [CloseOut] && closes[1..][1..] == [];
    assert SentChunks([CloseOut]) == [] + SentChunks([]);
  }

  /** The response of every decoded record, even "", in line order. */
  function Responses(records: seq<Chunk>): (rs: seq<string>)
    ensures |rs| == |records| && forall i :: 0 <= i < |records| ==> rs[i] == records[i].response
  {
    seq(|records|, i requires 0 <= i < |records| => records[i].response)
  }

  function Lines(records: seq<Chunk>): (s: seq<ReadStep>)
    ensures |s| == |records| && forall i :: 0 <= i < |records| ==> s[i] == LineRead(Some(records[i]))
  {
    seq(|records|, i requires 0 <= i < |records| => LineRead(Some(records[i])))
  }

  /** Records that do not end the stream are each forwarded, in order, and
      decoding carries on with what follows them. */
  lemma {:induction false} DecodedLinesInOrder(records: seq<Chunk>, rest: seq<ReadStep>)
    requires forall i :: 0 <= i < |records| ==> !records[i].done
    ensures Decode(Lines(records) + rest) == (Responses(records) + Decode(rest).0, Decode(rest).1)
    decreases |records|
  {
    var body := Lines(records) + rest;
    if |records| == 0 {
      assert body == rest;
      var r := Decode(rest);
      assert Responses(records) + r.0 == r.0;
      assert r == (r.0, r.1);
    } else {
      assert body[0] == LineRead(Some(records[0]));
      assert body[1..] == Lines(records[1..]) + rest;
      DecodedLinesInOrder(records[1..], rest);
      var r := Decode(rest);
      assert Decode(body) == ([records[0].response] + Decode(body[1..]).0, Decode(body[1..]).1);
      assert Responses(records) == [records[0].response] + Responses(records[1..]);
      assert [records[0].response] + (Responses(records[1..]) + r.0) == Responses(records) + r.0;
    }
  }

  /** The body with its undecodable lines removed. */
  function WellFormed(body: seq<ReadStep>): seq<ReadStep>
  {
    if |body| == 0 then []
    else (if body[0] == LineRead(None) then [] else [body[0]]) + WellFormed(body[1..])
  }

  /** Undecodable lines are skipped: decoding the body is decoding it without them. */
  lemma {:induction false} MalformedLinesSkipped(body: seq<ReadStep>)
    ensures Decode(body) == Decode(WellFormed(body))
    decreases |body|
  {
    if |body| > 0 {
      MalformedLinesSkipped(body[1..]);
      var w := WellFormed(body);
      if body[0] != LineRead(None) {
        assert w == [body[0]] + WellFormed(body[1..]);
        assert w[0] == body[0] && w[1..] == WellFormed(body[1..]);
      } else {
        assert w == WellFormed(body[1..]);
      }
    }
  }

  /** Nothing after a stopping step is read: a done record, EOF or a read error
      ends the loop. */
  lemma {:induction false} StopEndsDecoding(pre: seq<ReadStep>, step: ReadStep, post: seq<ReadStep>)
    requires Stops(step)
    ensures Decode(pre + [step] + post) == Decode(pre + [step])
    decreases |pre|
  {
    if |pre| == 0 {
      assert (pre + [step] + post)[1..] == post;
    } else {
      assert (pre + [step] + post)[1..] == pre[1..] + [step] + post;
      assert (pre + [step])[1..] == pre[1..] + [step];
      StopEndsDecoding(pre[1..], step, post);
    }
  }

  /** A record marked done is forwarded itself and then ends the stream without an error. */
  lemma DoneRecordIsLast(records: seq<Chunk>, last: Chunk, post: seq<ReadStep>)
    requires forall i :: 0 <= i < |records| ==> !records[i].done
    requires last.done
    ensures Decode(Lines(records) + [LineRead(Some(last))] + post) == (Responses(records) + [last.response], None)
  {
    StopEndsDecoding(Lines(records), LineRead(Some(last)), post);
    DecodedLinesInOrder(records, [LineRead(Some(last))]);
  }

  /** EOF is a normal end: no error, and the unterminated text read with it is
      dropped, never decoded. */
  lemma EndOfBodyDropsRest(records: seq<Chunk>, rest: string, post: seq<ReadStep>)
    requires forall i :: 0 <= i < |records| ==> !records[i].done
    ensures Decode(Lines(records) + [EndOfBody(rest)] + post) == (Responses(records), None)
  {
    StopEndsDecoding(Lines(records), EndOfBody(rest), post);
    DecodedLinesInOrder(records, [EndOfBody(rest)]);
    assert Decode([EndOfBody(rest)]) == ([], None);
    assert Responses(records) + [] == Responses(records);
  }

  /** A read error other than EOF is sent, once, after the fragments read before it. */
  lemma ReadErrorIsReported(records: seq<Chunk>, cause: string, post: seq<ReadStep>)
    requires forall i :: 0 <= i < |records| ==> !records[i].done
    ensures Decode(Lines(records) + [ReadFailed(cause)] + post) == (Responses(records), Some(ReadError(cause)))
  {
    StopEndsDecoding(Lines(records), ReadFailed(cause), post);
    DecodedLinesInOrder(records, [ReadFailed(cause)]);
    assert Decode([ReadFailed(cause)]) == ([], Some(ReadError(cause)));
    assert Responses(records) + [] == Responses(records);
  }
}
