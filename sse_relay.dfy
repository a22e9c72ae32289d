/** The relay loop shared by the three chat-stream handlers: a `select` over
    the result channel, the error channel and a keep-alive ticker, writing one
    server-sent-events frame per event it observes and keeping the assistant's
    text in `assistantBuf`. The channels and the ticker are replaced by the
    sequence of events the select observes. */
module SseRelay {
  import opened Base
  import opened OllamaStream
  import opened EventStream
  import opened Prompts

  /** What one pass of the select observes: a fragment on the result channel, a
      closed result channel, a closed error channel, a value on the error
      channel (nil or not), or a tick of the ticker. */
  datatype Event = Fragment(text: string) | ResultClosed | ErrClosed | ErrReceived(err: Option<string>) | Tick

  const DoneFrame := "event: done\ndata:\n\n"
  const PingFrame := ": ping\n\n"

  /** `fmt.Fprintf(w, "data: %s\n\n", partial)`. */
  function DataFrame(s: string): string
  {
    "data: " + s + "\n\n"
  }

  /** `fmt.Fprintf(w, "data: [Error: %v]\n\n", err)`. */
  function ErrorFrame(e: string): string
  {
    "data: [Error: " + e + "]\n\n"
  }

  /** Events after which the loop breaks. */
  predicate Ends(e: Event)
  {
    !e.Fragment? && !e.Tick?
  }

  /** What the loop writes for one event; a nil error writes nothing. */
  function Frame(e: Event): string
  {
    match e
    case Fragment(s) => DataFrame(s)
    case Tick => PingFrame
    case ResultClosed => DoneFrame
    case ErrClosed => DoneFrame
    case ErrReceived(err) => if err.Some? then ErrorFrame(err.value) else ""
  }

  /** What `assistantBuf += partial` adds for one event. */
  function FragmentText(e: Event): string
  {
    if e.Fragment? then e.text else ""
  }

  /** The position of the first event that ends the loop, or |events|. */
  function FirstEnd(events: seq<Event>): (k: nat)
    ensures k <= |events|
    ensures forall j :: 0 <= j < k ==> !Ends(events[j])
    ensures k < |events| ==> Ends(events[k])
  {
    if |events| == 0 then 0 else if Ends(events[0]) then 0 else 1 + FirstEnd(events[1..])
  }

  /** The events the loop handles: all of them up to and including the first that ends it. */
  function Handled(events: seq<Event>): seq<Event>
  {
    var k := FirstEnd(events);
    if k < |events| then events[..k + 1] else events
  }

  /** The response text the loop writes. */
  function Written(events: seq<Event>): string
  {
    Render(Handled(events), Frame)
  }

  /** The assistant text the loop accumulates. */
  function Buffered(events: seq<Event>): string
  {
    Render(events[..FirstEnd(events)], FragmentText)
  }

  /** The labelled `for { select { ... } }` loop, writing each event's frame
      with `frame`: `Frame` is the framing the handlers write, `CorrectedFrame`
      the one that keeps line feeds inside a fragment (see `CorrectedFrame`). */
  method StreamLoop(events: seq<Event>, frame: Event -> string) returns (written: string, assistantBuf: string)
    ensures written == Render(Handled(events), frame)
    ensures assistantBuf == Buffered(events)
  {
    written, assistantBuf := "", "";
    var i := 0;
    while i < |events|
      invariant 0 <= i <= FirstEnd(events)
      invariant written == Render(events[..i], frame)
      invariant assistantBuf == Render(events[..i], FragmentText)
    {
      var e := events[i];
      assert events[..i + 1][..i] == events[..i] && events[..i + 1][i] == e;
      if Ends(e) {
        written := written + frame(e);
        break;
      }
      written := written + frame(e);
      if e.Fragment? {
        assistantBuf := assistantBuf + e.text;
      }
      i := i + 1;
    }
    assert events[..|events|] == events;
  }

  // ---------------------------------------------------------------------------
  // The loop on its own

  /** The loop stops at the first closed channel or received error: the last
      thing written is that event's frame, and nothing after it is read. A
      ping adds its comment frame and leaves the assistant text as it is. */
  lemma LoopStopsAtFirstEnd(pre: seq<Event>, e: Event, post: seq<Event>)
    requires forall j :: 0 <= j < |pre| ==> !Ends(pre[j])
    requires Ends(e)
    ensures Written(pre + [e] + post) == Render(pre, Frame) + Frame(e)
    ensures Buffered(pre + [e] + post) == Render(pre, FragmentText)
    ensures Written(pre + [e] + post) == Written(pre + [e])
  {
    HandledAt(pre, e, post);
    HandledAt(pre, e, []);
    var handled := pre + [e];
    assert handled + [] == handled;
    assert handled[..|pre|] == pre && handled[|pre|] == e;
    RenderSnoc(handled, |pre|, Frame);
  }

  /** The loop handles pre + [e] and buffers the fragments of pre. */
  lemma HandledAt(pre: seq<Event>, e: Event, post: seq<Event>)
    requires forall j :: 0 <= j < |pre| ==> !Ends(pre[j])
    requires Ends(e)
    ensures Handled(pre + [e] + post) == pre + [e]
    ensures (pre + [e] + post)[..FirstEnd(pre + [e] + post)] == pre
  {
    var events := pre + [e] + post;
    FirstEndAt(pre, e, post);
    assert events[..|pre| + 1] == pre + [e];
    assert events[..|pre|] == pre;
  }

  lemma {:induction false} FirstEndAt(pre: seq<Event>, e: Event, post: seq<Event>)
    requires forall j :: 0 <= j < |pre| ==> !Ends(pre[j])
    requires Ends(e)
    ensures FirstEnd(pre + [e] + post) == |pre|
    decreases |pre|
  {
    if |pre| > 0 {
      assert (pre + [e] + post)[1..] == pre[1..] + [e] + post;
      FirstEndAt(pre[1..], e, post);
    }
  }

  // ---------------------------------------------------------------------------
  // What the select observes of the producer

  /** How the select interleaves: pings[i] ticks arrive before the i-th
      fragment (and pings[n] before the end), and, once the producer has
      finished, whether the error channel or the closed result channel is read
      first. After the deferred `close(errs)` and `close(out)` both cases are
      ready at once, and Go picks one at random. */
  datatype Schedule = Schedule(pings: seq<nat>, errorFirst: bool)

  function PingsBefore(sched: Schedule, i: nat): nat
  {
    if i < |sched.pings| then sched.pings[i] else 0
  }

  function Ticks(n: nat): (t: seq<Event>)
    ensures |t| == n && forall i :: 0 <= i < n ==> t[i] == Tick
  {
    seq(n, i => Tick)
  }

  /** The fragments, in the order the unbuffered result channel hands them over, with the pings between. */
  function Delivered(fragments: seq<string>, sched: Schedule): seq<Event>
  {
    if |fragments| == 0 then []
    else
      var n := |fragments| - 1;
      Delivered(fragments[..n], sched) + Ticks(PingsBefore(sched, n)) + [Fragment(fragments[n])]
  }

  /** The event that ends the loop: the buffered error (or, without one, the
      closed error channel) when the error case is chosen, the closed result
      channel otherwise. */
  function Closing(err: Option<StreamError>, errorFirst: bool): Event
  {
    if !errorFirst then ResultClosed
    else if err.Some? then ErrReceived(Some(ErrorText(err.value)))
    else ErrClosed
  }

  /** The events the select observes while the producer performs `ops`. */
  function ChannelTrace(ops: seq<ChannelOp>, sched: Schedule): seq<Event>
  {
    var fragments := SentChunks(ops);
    Delivered(fragments, sched) + Ticks(PingsBefore(sched, |fragments|)) + [Closing(SentError(ops), sched.errorFirst)]
  }

  /** A text fragment rendered as itself, for `Render` over plain strings. */
  function AsText(s: string): string
  {
    s
  }

  lemma {:induction false} DeliveredHasNoEnd(fragments: seq<string>, sched: Schedule)
    ensures forall j :: 0 <= j < |Delivered(fragments, sched)| ==> !Ends(Delivered(fragments, sched)[j])
    decreases |fragments|
  {
    if |fragments| > 0 {
      DeliveredHasNoEnd(fragments[..|fragments| - 1], sched);
    }
  }

  lemma {:induction false} DeliveredTexts(fragments: seq<string>, sched: Schedule)
    ensures Render(Delivered(fragments, sched), FragmentText) == Render(fragments, AsText)
    decreases |fragments|
  {
    if |fragments| > 0 {
      var n := |fragments| - 1;
      var init := Delivered(fragments[..n], sched);
      var ticks := Ticks(PingsBefore(sched, n));
      DeliveredTexts(fragments[..n], sched);
      RenderAppend(init + ticks, [Fragment(fragments[n])], FragmentText);
      RenderAppend(init, ticks, FragmentText);
      TicksCarryNoText(PingsBefore(sched, n));
      assert Render([Fragment(fragments[n])], FragmentText) == Render([], FragmentText) + fragments[n];
    }
  }

  lemma {:induction false} TicksCarryNoText(n: nat)
    ensures Render(Ticks(n), FragmentText) == ""
    decreases n
  {
    if n > 0 {
      assert Ticks(n)[..n - 1] == Ticks(n - 1);
      TicksCarryNoText(n - 1);
    }
  }

  /** The loop handles the whole trace: only its last event ends the loop. */
  lemma HandledTrace(ops: seq<ChannelOp>, sched: Schedule)
    ensures Handled(ChannelTrace(ops, sched)) == ChannelTrace(ops, sched)
  {
    var fragments := SentChunks(ops);
    var pre := Delivered(fragments, sched) + Ticks(PingsBefore(sched, |fragments|));
    var e := Closing(SentError(ops), sched.errorFirst);
    DeliveredHasNoEnd(fragments, sched);
    assert forall j :: 0 <= j < |pre| ==> !Ends(pre[j]);
    FirstEndAt(pre, e, []);
    assert pre + [e] + [] == ChannelTrace(ops, sched);
  }

  /** The loop's invariant, over a whole exchange: `assistantBuf` ends up as the
      in-order concatenation of every fragment the producer sent, however many
      pings came between them and whichever closing case the select took; the
      loop handles every event up to the closing one. */
  lemma TraceIsRelayedWhole(ops: seq<ChannelOp>, sched: Schedule)
    ensures Buffered(ChannelTrace(ops, sched)) == Render(SentChunks(ops), AsText)
    ensures Written(ChannelTrace(ops, sched)) == Render(ChannelTrace(ops, sched), Frame)
  {
    var fragments := SentChunks(ops);
    var pre := Delivered(fragments, sched) + Ticks(PingsBefore(sched, |fragments|));
    var e := Closing(SentError(ops), sched.errorFirst);
    DeliveredHasNoEnd(fragments, sched);
    assert forall j :: 0 <= j < |pre| ==> !Ends(pre[j]);
    LoopStopsAtFirstEnd(pre, e, []);
    assert pre + [e] + [] == ChannelTrace(ops, sched);
    RenderAppend(Delivered(fragments, sched), Ticks(PingsBefore(sched, |fragments|)), FragmentText);
    TicksCarryNoText(PingsBefore(sched, |fragments|));
    DeliveredTexts(fragments, sched);
    RenderAppend(pre, [e], Frame);
    assert Render([e], Frame) == Render([], Frame) + Frame(e);
  }

  /** When the select takes the closed result channel first, a buffered error
      is never shown: the client sees exactly what it sees for a stream that
      ended without error. */
  lemma ErrorMayBeHidden(fragments: seq<string>, e: StreamError, pings: seq<nat>)
    ensures var sched := Schedule(pings, false);
            ChannelTrace(ProducerOps((fragments, Some(e))), sched) == ChannelTrace(ProducerOps((fragments, None)), sched)
  {
    ProducerOpsShape((fragments, Some(e)));
    ProducerOpsShape((fragments, None));
  }

  // ---------------------------------------------------------------------------
  // What the browser makes of the written text

  /** The events a browser dispatches for one frame. */
  function Shown(e: Event): seq<Dispatched>
  {
    match e
    case Fragment(s) => [Dispatched("message", s)]
    case Tick => []
    case ResultClosed => [Dispatched("done", "")]
    case ErrClosed => [Dispatched("done", "")]
    case ErrReceived(err) => if err.Some? then [Dispatched("message", "[Error: " + err.value + "]")] else []
  }

  function ShownAll(events: seq<Event>): seq<Dispatched>
  {
    Concat(events, Shown)
  }

  /** The texts an event carries contain no line end. */
  predicate PlainEvent(e: Event)
  {
    (e.Fragment? ==> NoLineBreak(e.text)) && (e.ErrReceived? && e.err.Some? ==> NoLineBreak(e.err.value))
  }

  // The frames as the lines they consist of.

  lemma DataFrameLines(s: string)
    ensures DataFrame(s) == ("data: " + s + "\n") + "\n"
  {
  }

  lemma ErrorFrameIsDataFrame(t: string)
    ensures ErrorFrame(t) == DataFrame("[Error: " + t + "]")
  {
  }

  lemma PingFrameLines()
    ensures PingFrame == (":" + " ping" + "\n") + "\n"
  {
  }

  lemma DoneFrameLines()
    ensures DoneFrame == ("event: " + "done" + "\n") + "data:\n" + "\n"
  {
  }

  lemma DataFrameParsed(events: seq<Dispatched>, s: string)
    requires NoLineBreak(s)
    ensures Feed(Idle(events), DataFrame(s)) == Idle(events + [Dispatched("message", s)])
  {
    var p0 := Idle(events);
    var p1 := p0.(data := s + "\n");
    FeedDataLine(p0, s);
    assert p0.data + s + "\n" == s + "\n";
    DataThenBlankLine(events, "data: " + s + "\n", s);
    DataFrameLines(s);
  }

  lemma ErrorFrameParsed(events: seq<Dispatched>, t: string)
    requires NoLineBreak(t)
    ensures Feed(Idle(events), ErrorFrame(t)) == Idle(events + [Dispatched("message", "[Error: " + t + "]")])
  {
    var s := "[Error: " + t + "]";
    PrefixedNoLineBreak("[Error: ", t);
    PrefixedNoLineBreak("[Error: " + t, "]");
    ErrorFrameIsDataFrame(t);
    DataFrameParsed(events, s);
  }

  lemma PingFrameParsed(events: seq<Dispatched>)
    ensures Feed(Idle(events), PingFrame) == Idle(events)
  {
    var p0 := Idle(events);
    FeedCommentLine(p0, " ping");
    FeedBlankLine(p0);
    FeedThrough(p0, ":" + " ping" + "\n", p0, "\n", p0);
    PingFrameLines();
  }

  lemma DoneFrameParsed(events: seq<Dispatched>)
    ensures Feed(Idle(events), DoneFrame) == Idle(events + [Dispatched("done", "")])
  {
    var p0 := Idle(events);
    var p1 := p0.(eventType := "done");
    var p2 := p1.(data := "\n");
    var p3 := Idle(events + [Dispatched("done", "")]);
    var eventLine := "event: " + "done" + "\n";
    FeedEventLine(p0, "done");
    FeedEmptyDataLine(p1);
    assert p1.data + "\n" == "\n";
    FeedBlankLine(p2);
    assert p2.data == "" + "\n";
    DispatchData(p2, "");
    FeedThrough(p0, eventLine, p1, "data:\n", p2);
    FeedThrough(p0, eventLine + "data:\n", p2, "\n", p3);
    DoneFrameLines();
  }

  /** From a parser between events, each frame dispatches exactly what Shown says. */
  lemma FrameParsed(events: seq<Dispatched>, e: Event)
    requires PlainEvent(e)
    ensures Feed(Idle(events), Frame(e)) == Idle(events + Shown(e))
  {
    match e
    case Fragment(s) => DataFrameParsed(events, s);
    case Tick => PingFrameParsed(events); assert events + [] == events;
    case ResultClosed => DoneFrameParsed(events);
    case ErrClosed => DoneFrameParsed(events);
    case ErrReceived(err) =>
      if err.Some? {
        ErrorFrameParsed(events, err.value);
      } else {
        assert Feed(Idle(events), "") == Idle(events);
        assert events + [] == events;
      }
  }

  lemma {:induction false} FramesParsed(events: seq<Event>)
    requires forall j :: 0 <= j < |events| ==> PlainEvent(events[j])
    ensures Feed(Idle([]), Render(events, Frame)) == Idle(ShownAll(events))
    decreases |events|
  {
    if |events| > 0 {
      var n := |events| - 1;
      FramesParsed(events[..n]);
      FeedAppend(Idle([]), Render(events[..n], Frame), Frame(events[n]));
      FrameParsed(ShownAll(events[..n]), events[n]);
    }
  }

  function Messages(fragments: seq<string>): (ds: seq<Dispatched>)
    ensures |ds| == |fragments| && forall i :: 0 <= i < |fragments| ==> ds[i] == Dispatched("message", fragments[i])
  {
    seq(|fragments|, i requires 0 <= i < |fragments| => Dispatched("message", fragments[i]))
  }

  lemma ShownAllAppend(a: seq<Event>, b: seq<Event>)
    ensures ShownAll(a + b) == ShownAll(a) + ShownAll(b)
  {
    ConcatAppend(a, b, Shown);
  }

  lemma {:induction false} TicksShowNothing(n: nat)
    ensures ShownAll(Ticks(n)) == []
    decreases n
  {
    if n > 0 {
      assert Ticks(n)[..n - 1] == Ticks(n - 1);
      TicksShowNothing(n - 1);
    }
  }

  /** Pings between two frames show nothing. */
  lemma ShownAfterTicks(init: seq<Event>, n: nat, e: Event)
    ensures ShownAll(init + Ticks(n) + [e]) == ShownAll(init) + Shown(e)
  {
    ShownAllAppend(init + Ticks(n), [e]);
    ShownAllAppend(init, Ticks(n));
    TicksShowNothing(n);
    assert [e][..0] == [];
    assert ShownAll(init) + [] == ShownAll(init);
  }

  lemma MessagesSnoc(fragments: seq<string>)
    requires |fragments| > 0
    ensures var n := |fragments| - 1;
            Messages(fragments) == Messages(fragments[..n]) + [Dispatched("message", fragments[n])]
  {
  }

  lemma {:induction false} DeliveredShown(fragments: seq<string>, sched: Schedule)
    ensures ShownAll(Delivered(fragments, sched)) == Messages(fragments)
    decreases |fragments|
  {
    if |fragments| > 0 {
      var n := |fragments| - 1;
      var init := Delivered(fragments[..n], sched);
      DeliveredShown(fragments[..n], sched);
      ShownAfterTicks(init, PingsBefore(sched, n), Fragment(fragments[n]));
      MessagesSnoc(fragments);
    }
  }

  /** What the browser shows for the closing event. */
  function ClosingShown(err: Option<StreamError>, errorFirst: bool): Dispatched
  {
    if errorFirst && err.Some? then Dispatched("message", "[Error: " + ErrorText(err.value) + "]")
    else Dispatched("done", "")
  }

  lemma DeliveredPlain(fragments: seq<string>, sched: Schedule)
    requires forall i :: 0 <= i < |fragments| ==> NoLineBreak(fragments[i])
    ensures forall j :: 0 <= j < |Delivered(fragments, sched)| ==> PlainEvent(Delivered(fragments, sched)[j])
    decreases |fragments|
  {
    if |fragments| > 0 {
      DeliveredPlain(fragments[..|fragments| - 1], sched);
    }
  }

  /** What the browser dispatches for a whole trace, frame by frame. */
  lemma TraceShown(ops: seq<ChannelOp>, sched: Schedule)
    ensures ShownAll(ChannelTrace(ops, sched)) == Messages(SentChunks(ops)) + [ClosingShown(SentError(ops), sched.errorFirst)]
  {
    var fragments := SentChunks(ops);
    var delivered := Delivered(fragments, sched);
    var e := Closing(SentError(ops), sched.errorFirst);
    ShownAfterTicks(delivered, PingsBefore(sched, |fragments|), e);
    DeliveredShown(fragments, sched);
    ClosingIsShown(SentError(ops), sched.errorFirst);
  }

  lemma ClosingIsShown(err: Option<StreamError>, errorFirst: bool)
    ensures Shown(Closing(err, errorFirst)) == [ClosingShown(err, errorFirst)]
  {
  }

  /** Round trip through the browser: when neither the fragments nor the error
      text contain a line end, the browser dispatches one "message" event per
      fragment, with the fragment as its data, in order, then either the
      "done" event or one "message" carrying the error text. */
  lemma TraceParsedByBrowser(ops: seq<ChannelOp>, sched: Schedule)
    requires forall i :: 0 <= i < |SentChunks(ops)| ==> NoLineBreak(SentChunks(ops)[i])
    requires SentError(ops).Some? ==> NoLineBreak(ErrorText(SentError(ops).value))
    ensures Parse(Written(ChannelTrace(ops, sched)))
            == Messages(SentChunks(ops)) + [ClosingShown(SentError(ops), sched.errorFirst)]
  {
    var trace := ChannelTrace(ops, sched);
    TraceIsRelayedWhole(ops, sched);
    TracePlain(ops, sched);
    FramesParsed(trace);
    TraceShown(ops, sched);
  }

  lemma TracePlain(ops: seq<ChannelOp>, sched: Schedule)
    requires forall i :: 0 <= i < |SentChunks(ops)| ==> NoLineBreak(SentChunks(ops)[i])
    requires SentError(ops).Some? ==> NoLineBreak(ErrorText(SentError(ops).value))
    ensures forall j :: 0 <= j < |ChannelTrace(ops, sched)| ==> PlainEvent(ChannelTrace(ops, sched)[j])
  {
    var fragments := SentChunks(ops);
    var trace := ChannelTrace(ops, sched);
    var delivered := Delivered(fragments, sched);
    var ticks := Ticks(PingsBefore(sched, |fragments|));
    var e := Closing(SentError(ops), sched.errorFirst);
    assert trace == delivered + ticks + [e];
    DeliveredPlain(fragments, sched);
    forall j | 0 <= j < |trace| ensures PlainEvent(trace[j]) {
      if j < |delivered| {
        assert trace[j] == delivered[j];
      }
    }
  }

  // ---------------------------------------------------------------------------
  // A fragment with a line feed in it

  /** A reply of one fragment: its frame and then the done frame are written. */
  lemma OneFragmentRelayed(s: string)
    ensures Written([Fragment(s), ResultClosed]) == DataFrame(s) + DoneFrame
    ensures Buffered([Fragment(s), ResultClosed]) == s
  {
    var events := [Fragment(s), ResultClosed];
    assert events[1..] == [ResultClosed];
    assert FirstEnd(events) == 1;
    assert events[..2] == events;
    assert Handled(events) == events;
    var first := events[..1];
    assert first == [Fragment(s)];
    assert first[..0] == [];
    assert Render(first, Frame) == Render(first[..0], Frame) + DataFrame(s);
    assert Render(first, FragmentText) == Render(first[..0], FragmentText) + s;
    assert Render(events, Frame) == Render(first, Frame) + Frame(ResultClosed);
  }

  /** As written, a fragment is framed as one `data:` line. A line feed inside
      it ends that line: the browser keeps the text before it and reads the
      rest as a line of a field it ignores. */
  lemma DataFrameCutAtLineFeed(events: seq<Dispatched>, a: string, b: string)
    requires NoLineBreak(a) && NoLineBreak(b) && ':' !in b && b != "" && b != "event" && b != "data"
    ensures Feed(Idle(events), DataFrame(a + "\n" + b)) == Idle(events + [Dispatched("message", a)])
  {
    var frame := "data: " + a + "\n" + (b + "\n") + "\n";
    assert DataFrame(a + "\n" + b) == frame;
    FeedDataCutAtLineFeed(events, a, b);
  }

  /** The fragment "a\nb" is stored whole but shown as "a". */
  lemma LineFeedInFragmentIsCut()
    ensures Buffered([Fragment("a\nb"), ResultClosed]) == "a\nb"
    ensures Parse(Written([Fragment("a\nb"), ResultClosed])) == [Dispatched("message", "a"), Dispatched("done", "")]
  {
    var s := "a" + "\n" + "b";
    var m := Dispatched("message", "a");
    assert s == "a\nb";
    OneFragmentRelayed(s);
    DataFrameCutAtLineFeed([], "a", "b");
    assert [] + [m] == [m];
    DoneFrameParsed([m]);
    FeedThrough(Idle([]), DataFrame(s), Idle([m]), DoneFrame, Idle([m] + [Dispatched("done", "")]));
  }

  /** The intended framing: a line feed inside the text continues the event on
      a further `data:` line, which the browser joins back with a line feed. */
  function MultilineDataFrame(s: string): string
  {
    "data: " + Escaped(s) + "\n\n"
  }

  function Escaped(s: string): string
  {
    if |s| == 0 then ""
    else Escaped(s[..|s| - 1]) + (if s[|s| - 1] == '\n' then "\ndata: " else [s[|s| - 1]])
  }

  /** The text up to and including its last line feed, and the text after it. */
  function Head(s: string): string
  {
    if |s| == 0 then "" else if s[|s| - 1] == '\n' then s else Head(s[..|s| - 1])
  }

  function Tail(s: string): string
  {
    if |s| == 0 then "" else if s[|s| - 1] == '\n' then "" else Tail(s[..|s| - 1]) + [s[|s| - 1]]
  }

  lemma {:induction false} HeadTail(s: string)
    ensures Head(s) + Tail(s) == s
    ensures '\r' !in s ==> NoLineBreak(Tail(s))
    decreases |s|
  {
    if |s| > 0 {
      var init, c := s[..|s| - 1], s[|s| - 1];
      assert s == init + [c];
      HeadTail(init);
      if c == '\n' {
        assert Head(s) == s && Tail(s) == "";
      } else {
        assert Head(s) == Head(init) && Tail(s) == Tail(init) + [c];
        if '\r' !in s {
          assert '\r' !in init && c != '\r' by {
            assert forall x :: x in init ==> x in s;
          }
          PrefixedNoLineBreak(Tail(init), [c]);
        }
      }
    }
  }

  /** The LF ending a `data: t` line in progress appends t to the data buffer. */
  lemma FinishDataLine(r: Parser, t: string)
    requires r.line == "data: " + t && !r.afterCR && NoLineBreak(t)
    ensures Feed(r, "\n") == r.(line := "", data := r.data + t + "\n")
  {
    FinishLine(r);
    ProcessDataLine(r.(line := ""), t);
  }

  lemma LineFeedThenDataPrefix()
    ensures "\ndata: " == "\n" + "data: "
    ensures NoLineBreak("data: ")
  {
  }

  /** An escaped line feed: the line in progress goes to the data buffer and a new `data: ` line starts. */
  lemma FeedEscapedLineFeed(r: Parser, t: string)
    requires r.line == "data: " + t && !r.afterCR && NoLineBreak(t)
    ensures Feed(r, "\ndata: ") == r.(data := r.data + t + "\n", line := "data: ")
  {
    var r1 := r.(line := "", data := r.data + t + "\n");
    LineFeedThenDataPrefix();
    FinishDataLine(r, t);
    FeedText(r1, "data: ");
    assert r1.line + "data: " == "data: ";
    FeedThrough(r, "\n", r1, "data: ", r.(data := r.data + t + "\n", line := "data: "));
  }

  lemma FeedPlainChar(r: Parser, c: char)
    requires !r.afterCR && c != '\n' && c != '\r'
    ensures Feed(r, [c]) == r.(line := r.line + [c])
  {
    assert [c][..0] == "";
    assert Feed(r, [c]) == Step(Feed(r, ""), c) == Step(r, c);
  }

  lemma {:induction false} FeedEscaped(q: Parser, s: string)
    requires q.line == "data: " && !q.afterCR && '\r' !in s
    ensures Feed(q, Escaped(s)) == q.(data := q.data + Head(s), line := "data: " + Tail(s))
    decreases |s|
  {
    if |s| == 0 {
      assert q.data + "" == q.data && "data: " + "" == "data: ";
    } else {
      var init := s[..|s| - 1];
      var c := s[|s| - 1];
      assert '\r' !in init by {
        assert forall x :: x in init ==> x in s;
      }
      assert init + [c] == s;
      FeedEscaped(q, init);
      HeadTail(init);
      if c == '\n' {
        EscapedLineFeedStep(q, init, s);
      } else {
        EscapedPlainStep(q, init, c, s);
      }
    }
  }

  lemma JoinThroughLineFeed(d: string, h: string, t: string, init: string, s: string)
    requires h + t == init && s == init + ['\n']
    ensures d + h + t + "\n" == d + s
  {
    assert d + h + t + "\n" == d + (h + t) + "\n";
  }

  /** One more character after the escaped text of init, when it is a line feed. */
  lemma EscapedLineFeedStep(q: Parser, init: string, s: string)
    requires s == init + ['\n'] && !q.afterCR && NoLineBreak(Tail(init)) && Head(init) + Tail(init) == init
    requires Feed(q, Escaped(init)) == q.(data := q.data + Head(init), line := "data: " + Tail(init))
    ensures Feed(q, Escaped(s)) == q.(data := q.data + Head(s), line := "data: " + Tail(s))
  {
    assert s[..|s| - 1] == init && s[|s| - 1] == '\n';
    assert Escaped(s) == Escaped(init) + "\ndata: ";
    assert Head(s) == s && Tail(s) == "";
    var r := q.(data := q.data + Head(init), line := "data: " + Tail(init));
    var r2 := q.(data := q.data + Head(s), line := "data: " + Tail(s));
    FeedEscapedLineFeed(r, Tail(init));
    JoinThroughLineFeed(q.data, Head(init), Tail(init), init, s);
    assert "data: " + Tail(s) == "data: ";
    assert r.(data := r.data + Tail(init) + "\n", line := "data: ") == r2;
    FeedThrough(q, Escaped(init), r, "\ndata: ", r2);
  }

  lemma SnocAssoc(a: string, t: string, c: char)
    ensures a + t + [c] == a + (t + [c])
  {
  }

  /** One more character after the escaped text of init, when it is no line end. */
  lemma EscapedPlainStep(q: Parser, init: string, c: char, s: string)
    requires s == init + [c] && c != '\n' && c != '\r' && !q.afterCR
    requires Feed(q, Escaped(init)) == q.(data := q.data + Head(init), line := "data: " + Tail(init))
    ensures Feed(q, Escaped(s)) == q.(data := q.data + Head(s), line := "data: " + Tail(s))
  {
    assert s[..|s| - 1] == init && s[|s| - 1] == c;
    assert Escaped(s) == Escaped(init) + [c];
    assert Head(s) == Head(init) && Tail(s) == Tail(init) + [c];
    var r := q.(data := q.data + Head(init), line := "data: " + Tail(init));
    var r2 := q.(data := q.data + Head(s), line := "data: " + Tail(s));
    FeedPlainChar(r, c);
    assert r.line + [c] == "data: " + Tail(s) by {
      SnocAssoc("data: ", Tail(init), c);
    }
    assert r.(line := r.line + [c]) == r2;
    FeedThrough(q, Escaped(init), r, [c], r2);
  }

  /** The corrected frame dispatches the whole text, line feeds included. */
  lemma MultilineDataLines(p0: Parser, s: string)
    requires AtLineStart(p0) && '\r' !in s
    ensures Feed(p0, "data: " + Escaped(s) + "\n") == p0.(data := p0.data + s + "\n")
  {
    var r := p0.(data := p0.data + Head(s), line := "data: " + Tail(s));
    EscapedLines(p0, s);
    HeadTail(s);
    FinishSplitData(p0, Head(s), Tail(s), s);
    FeedThrough(p0, "data: " + Escaped(s), r, "\n", p0.(data := p0.data + s + "\n"));
  }

  /** With the data so far split as h + t, t still on its line, the LF completes s. */
  lemma FinishSplitData(p0: Parser, h: string, t: string, s: string)
    requires AtLineStart(p0) && h + t == s && NoLineBreak(t)
    ensures Feed(p0.(data := p0.data + h, line := "data: " + t), "\n") == p0.(data := p0.data + s + "\n")
  {
    var r := p0.(data := p0.data + h, line := "data: " + t);
    FinishDataLine(r, t);
    assert p0.data + h + t == p0.data + s;
  }

  lemma EscapedLines(p0: Parser, s: string)
    requires AtLineStart(p0) && '\r' !in s
    ensures Feed(p0, "data: " + Escaped(s)) == p0.(data := p0.data + Head(s), line := "data: " + Tail(s))
  {
    var q := FeedDataPrefix(p0, Escaped(s));
    FeedEscaped(q, s);
  }

  lemma MultilineDataFrameParsed(events: seq<Dispatched>, s: string)
    requires '\r' !in s
    ensures Feed(Idle(events), MultilineDataFrame(s)) == Idle(events + [Dispatched("message", s)])
  {
    MultilineDataLines(Idle(events), s);
    assert Idle(events).data + s + "\n" == s + "\n";
    DataThenBlankLine(events, "data: " + Escaped(s) + "\n", s);
    assert MultilineDataFrame(s) == "data: " + Escaped(s) + "\n" + "\n";
  }

  /** Text that leaves `s` and its LF in the data buffer, then a blank line, dispatches s. */
  lemma DataThenBlankLine(events: seq<Dispatched>, x: string, s: string)
    requires Feed(Idle(events), x) == Idle(events).(data := s + "\n")
    ensures Feed(Idle(events), x + "\n") == Idle(events + [Dispatched("message", s)])
  {
    var r1 := Idle(events).(data := s + "\n");
    FeedBlankLine(r1);
    DispatchData(r1, s);
    FeedThrough(Idle(events), x, r1, "\n", Idle(events + [Dispatched("message", s)]));
  }

  /** Reading `data: ` from a parser between events starts that line. */
  lemma FeedDataPrefix(p0: Parser, rest: string) returns (q: Parser)
    requires AtLineStart(p0)
    ensures q == p0.(line := "data: ")
    ensures Feed(p0, "data: " + rest) == Feed(q, rest)
  {
    FeedAppend(p0, "data: ", rest);
    FeedText(p0, "data: ");
    q := p0.(line := "data: ");
    assert p0.line + "data: " == "data: ";
  }

  lemma {:induction false} EscapedPlain(s: string)
    requires '\n' !in s
    ensures Escaped(s) == s
    decreases |s|
  {
    if |s| > 0 {
      var init, c := s[..|s| - 1], s[|s| - 1];
      assert s == init + [c];
      assert '\n' !in init && c != '\n' by {
        assert forall x :: x in init ==> x in s;
      }
      assert Escaped(s) == Escaped(init) + [c];
      EscapedPlain(init);
    }
  }

  /** For text without line feeds the corrected frame is the one written now. */
  lemma MultilineAgreesOnPlainText(s: string)
    requires '\n' !in s
    ensures MultilineDataFrame(s) == DataFrame(s)
  {
    EscapedPlain(s);
  }

  /** The relay with the corrected framing, for fragments and error texts alike. */
  function CorrectedFrame(e: Event): string
  {
    match e
    case Fragment(s) => MultilineDataFrame(s)
    case ErrReceived(err) => if err.Some? then MultilineDataFrame("[Error: " + err.value + "]") else ""
    case _ => Frame(e)
  }

  predicate CarriageReturnFree(e: Event)
  {
    (e.Fragment? ==> '\r' !in e.text) && (e.ErrReceived? && e.err.Some? ==> '\r' !in e.err.value)
  }

  lemma CorrectedFrameParsed(events: seq<Dispatched>, e: Event)
    requires CarriageReturnFree(e)
    ensures Feed(Idle(events), CorrectedFrame(e)) == Idle(events + Shown(e))
  {
    match e
    case Fragment(s) => MultilineDataFrameParsed(events, s);
    case ErrReceived(err) =>
      if err.Some? {
        var s := "[Error: " + err.value + "]";
        assert '\r' !in s by {
          assert forall x :: x in s ==> x in "[Error: " || x in err.value || x in "]";
        }
        MultilineDataFrameParsed(events, s);
      } else {
        assert Feed(Idle(events), "") == Idle(events);
        assert events + [] == events;
      }
    case _ => FrameParsed(events, e);
  }

  lemma {:induction false} CorrectedFramesParsed(events: seq<Event>)
    requires forall j :: 0 <= j < |events| ==> CarriageReturnFree(events[j])
    ensures Feed(Idle([]), Render(events, CorrectedFrame)) == Idle(ShownAll(events))
    decreases |events|
  {
    if |events| > 0 {
      var n := |events| - 1;
      CorrectedFramesParsed(events[..n]);
      FeedAppend(Idle([]), Render(events[..n], CorrectedFrame), CorrectedFrame(events[n]));
      CorrectedFrameParsed(ShownAll(events[..n]), events[n]);
    }
  }

  lemma DeliveredCarriageReturnFree(fragments: seq<string>, sched: Schedule)
    requires forall i :: 0 <= i < |fragments| ==> '\r' !in fragments[i]
    ensures forall j :: 0 <= j < |Delivered(fragments, sched)| ==> CarriageReturnFree(Delivered(fragments, sched)[j])
    decreases |fragments|
  {
    if |fragments| > 0 {
      DeliveredCarriageReturnFree(fragments[..|fragments| - 1], sched);
    }
  }

  /** With the corrected framing the browser receives every fragment whole,
      line feeds included, so what it shows is what `assistantBuf` stores. */
  lemma CorrectedTraceParsedByBrowser(ops: seq<ChannelOp>, sched: Schedule)
    requires forall i :: 0 <= i < |SentChunks(ops)| ==> '\r' !in SentChunks(ops)[i]
    requires SentError(ops).Some? ==> '\r' !in ErrorText(SentError(ops).value)
    ensures Parse(Render(Handled(ChannelTrace(ops, sched)), CorrectedFrame))
            == Messages(SentChunks(ops)) + [ClosingShown(SentError(ops), sched.errorFirst)]
  {
    var trace := ChannelTrace(ops, sched);
    HandledTrace(ops, sched);
    TraceCarriageReturnFree(ops, sched);
    CorrectedFramesParsed(trace);
    TraceShown(ops, sched);
  }

  lemma TraceCarriageReturnFree(ops: seq<ChannelOp>, sched: Schedule)
    requires forall i :: 0 <= i < |SentChunks(ops)| ==> '\r' !in SentChunks(ops)[i]
    requires SentError(ops).Some? ==> '\r' !in ErrorText(SentError(ops).value)
    ensures forall j :: 0 <= j < |ChannelTrace(ops, sched)| ==> CarriageReturnFree(ChannelTrace(ops, sched)[j])
  {
    var fragments := SentChunks(ops);
    var trace := ChannelTrace(ops, sched);
    var delivered := Delivered(fragments, sched);
    var ticks := Ticks(PingsBefore(sched, |fragments|));
    var e := Closing(SentError(ops), sched.errorFirst);
    assert trace == delivered + ticks + [e];
    DeliveredCarriageReturnFree(fragments, sched);
    forall j | 0 <= j < |trace| ensures CarriageReturnFree(trace[j]) {
      if j < |delivered| {
        assert trace[j] == delivered[j];
      }
    }
  }

  predicate LineFeedFree(e: Event)
  {
    (e.Fragment? ==> '\n' !in e.text) && (e.ErrReceived? && e.err.Some? ==> '\n' !in e.err.value)
  }

  /** The correction changes nothing for events whose text has no line feed. */
  lemma CorrectedFrameAgrees(e: Event)
    requires LineFeedFree(e)
    ensures CorrectedFrame(e) == Frame(e)
  {
    match e
    case Fragment(s) => MultilineAgreesOnPlainText(s);
    case ErrReceived(err) =>
      if err.Some? {
        var s := "[Error: " + err.value + "]";
        ErrorTextLineFeedFree(err.value);
        MultilineAgreesOnPlainText(s);
        ErrorFrameIsDataFrame(err.value);
      }
    case _ =>
  }

  lemma ErrorTextLineFeedFree(t: string)
    requires '\n' !in t
    ensures '\n' !in "[Error: " + t + "]"
  {
    assert forall x :: x in "[Error: " + t + "]" ==> x in "[Error: " || x in t || x in "]";
  }

  /** Over a sequence of line-feed-free events the two framings write the same text. */
  lemma {:induction false} CorrectedRenderAgrees(events: seq<Event>)
    requires forall j :: 0 <= j < |events| ==> LineFeedFree(events[j])
    ensures Render(events, CorrectedFrame) == Render(events, Frame)
    decreases |events|
  {
    if |events| > 0 {
      CorrectedRenderAgrees(events[..|events| - 1]);
      CorrectedFrameAgrees(events[|events| - 1]);
    }
  }

  /** A stream whose events carry no line feed is relayed byte for byte as the
      handlers write it now: the correction only touches the broken case. */
  lemma CorrectedRelayAgreesOnPlainText(events: seq<Event>)
    requires forall j :: 0 <= j < |events| ==> LineFeedFree(events[j])
    ensures Render(Handled(events), CorrectedFrame) == Written(events)
  {
    var h := Handled(events);
    forall j | 0 <= j < |h| ensures LineFeedFree(h[j]) {
      assert h[j] == events[j];
    }
    CorrectedRenderAgrees(h);
  }
}
