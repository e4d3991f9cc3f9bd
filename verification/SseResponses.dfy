/** What the receiver of a response gets, read off the text and the parser alone. */
module SseResponses {
  import opened Text
  import opened Utf8
  import opened Streaming
  import opened StreamingRuns
  import opened StreamingOutput
  import opened SsePipeline

  function DataOf(item: Item): seq<EventData> {
    if item.Event? then [item.event.data] else []
  }

  function EventDataOf(e: StreamEvent): seq<EventData> {
    [e.data]
  }

  /** The data of all events of a response, in order. */
  function ResponseData(parse: Parser, provider: Provider, chunks: seq<Chunk>): seq<EventData> {
    Joined(Response(parse, provider, chunks), DataOf)
  }

  /** The parsed events of a response's lines. */
  function ParsedOps(parse: Parser, chunks: seq<Chunk>): seq<Op> {
    OpsOf(parse, Lines(Decoded(chunks)))
  }

  lemma {:induction false} DataOfEvents(items: seq<Item>)
    ensures Joined(items, DataOf) == Joined(Joined(items, EventOf), EventDataOf)
  {
    if items != [] {
      var p, last := items[..|items| - 1], items[|items| - 1];
      DataOfEvents(p);
      JoinedConcat(Joined(p, EventOf), EventOf(last), EventDataOf);
      if last.Event? {
        JoinedOne(last.event, EventDataOf);
      }
    }
  }

  lemma {:induction false} DataOfNumbered(n: nat, data: seq<EventData>)
    ensures Joined(Numbered(n, data), EventDataOf) == data
  {
    if data != [] {
      var p := data[..|data| - 1];
      DataOfNumbered(n, p);
      assert Numbered(n, data)[..|data| - 1] == Numbered(n, p);
    }
  }

  lemma {:induction false} OpsAreEvents(parse: Parser, lines: seq<seq<byte>>)
    ensures NeverFinalized(OpsOf(parse, lines))
    decreases |lines|
  {
    if lines != [] {
      OpsAreEvents(parse, lines[1..]);
    }
  }

  lemma ResponseDataIs(parse: Parser, provider: Provider, chunks: seq<Chunk>)
    ensures ResponseData(parse, provider, chunks) == AllOutput(ParsedOps(parse, chunks) + Closing(provider))
    ensures NeverFinalized(ParsedOps(parse, chunks))
  {
    hide Joined, Response, AllEvents, AllOutput, OpsOf, Numbered;
    var ops := ParsedOps(parse, chunks) + Closing(provider);
    ResponseIsSessionRun(parse, provider, chunks);
    DataOfEvents(Response(parse, provider, chunks));
    IdsAreConsecutive(ops);
    DataOfNumbered(0, AllOutput(ops));
    OpsAreEvents(parse, Lines(Decoded(chunks)));
  }

  /** What closing a stream lets out after `ops`. */
  function ClosingOutput(provider: Provider, s: State): seq<EventData> {
    if provider.OpenAi?
    then Output(s, Apply(ContentBlockStop)) + Output(After(s, Apply(ContentBlockStop)), Finalize)
    else Output(s, Finalize)
  }

  lemma OutputAfterOps(provider: Provider, ops: seq<Op>)
    ensures AllOutput(ops + Closing(provider)) == AllOutput(ops) + ClosingOutput(provider, StateAfter(ops))
  {
    hide Output, After;
    var stop := Apply(ContentBlockStop);
    if provider.OpenAi? {
      OneMore(ops, stop);
      OneMore(ops + [stop], Finalize);
      assert ops + Closing(provider) == ops + [stop] + [Finalize];
    } else {
      OneMore(ops, Finalize);
    }
  }

  lemma ClosingParts(provider: Provider, s: State)
    ensures var out := ClosingOutput(provider, s);
            && Joined(out, ContentDone) == IfAny(s.content) && Joined(out, ThinkingDone) == IfAny(s.thinking)
            && Joined(out, PlainOut) == []
            && Joined(out, Calls) == if provider.OpenAi? then Joined(Output(s, Apply(ContentBlockStop)), Calls) else []
  {
    hide Output, After, Joined, PlainOut;
    var stop := Apply(ContentBlockStop);
    EndStep(s);
    PlainFlush(s, Finalize);
    NoCallAtEnd(s);
    if provider.OpenAi? {
      var s' := After(s, stop);
      DoneStep(s, stop);
      PlainFlush(s, stop);
      EndStep(s');
      PlainFlush(s', Finalize);
      NoCallAtEnd(s');
      JoinedConcat(Output(s, stop), Output(s', Finalize), ContentDone);
      JoinedConcat(Output(s, stop), Output(s', Finalize), ThinkingDone);
      JoinedConcat(Output(s, stop), Output(s', Finalize), PlainOut);
      JoinedConcat(Output(s, stop), Output(s', Finalize), Calls);
      assert s.content + "" == s.content;
    }
  }

  lemma NoCallAtEnd(s: State)
    ensures Joined(Output(s, Finalize), Calls) == []
  {
    hide Output, Joined;
    FlushParts(s, Finalize, Calls);
  }

  /** From either provider, whatever chunks arrive, a response completes all content and all thinking its lines
      carry, each text once; nothing stays in a buffer. */
  lemma ResponseTextIsComplete(parse: Parser, provider: Provider, chunks: seq<Chunk>)
    ensures var data, ops := ResponseData(parse, provider, chunks), ParsedOps(parse, chunks);
            && Joined(data, ContentDone) == Joined(ops, ContentCompleteIn) + IfAny(Joined(ops, ContentIn))
            && Joined(data, ThinkingDone) == ThinkingShown(ops) + IfAny(PendingThinking(ops))
  {
    hide AllOutput, StateAfter, Joined, ThinkingShown, PendingThinking, ResponseData, ParsedOps, ClosingOutput;
    var ops := ParsedOps(parse, chunks);
    ResponseDataIs(parse, provider, chunks);
    OutputAfterOps(provider, ops);
    TextsSoFar(ops);
    ClosingParts(provider, StateAfter(ops));
    JoinedConcat(AllOutput(ops), ClosingOutput(provider, StateAfter(ops)), ContentDone);
    JoinedConcat(AllOutput(ops), ClosingOutput(provider, StateAfter(ops)), ThinkingDone);
  }

  /** A response lets out the deltas, usages, starts and ends of its lines, in order, and nothing else of the kind. */
  lemma ResponsePassesNews(parse: Parser, provider: Provider, chunks: seq<Chunk>)
    ensures Joined(ResponseData(parse, provider, chunks), PlainOut) == Joined(ParsedOps(parse, chunks), PlainIn)
  {
    hide AllOutput, StateAfter, Joined, ResponseData, ParsedOps, ClosingOutput;
    var ops := ParsedOps(parse, chunks);
    ResponseDataIs(parse, provider, chunks);
    OutputAfterOps(provider, ops);
    PlainNewsIsPassedOn(ops);
    ClosingParts(provider, StateAfter(ops));
    JoinedConcat(AllOutput(ops), ClosingOutput(provider, StateAfter(ops)), PlainOut);
  }

  /** A response completes the calls its lines complete; and at its end OpenAI's open call, if it has id and name,
      with all deltas since its start, but Anthropic's never. */
  lemma ResponseCalls(parse: Parser, provider: Provider, chunks: seq<Chunk>)
    ensures var ops := ParsedOps(parse, chunks);
            var calls, before := Joined(ResponseData(parse, provider, chunks), Calls), Joined(AllOutput(ops), Calls);
            && (provider.Anthropic? ==> calls == before)
            && (provider.OpenAi? ==>
                  && (forall i: nat :: OpenSince(ops, i) ==>
                        calls == before + if Named(ops[i]) then [CallOf(ops, i, |ops|)] else [])
                  && ((forall i: nat :: !OpenSince(ops, i)) ==> calls == before))
  {
    hide AllOutput, StateAfter, Joined, ResponseData, ParsedOps, ClosingOutput, OpenSince, Output, After, CallOf;
    var ops := ParsedOps(parse, chunks);
    ResponseDataIs(parse, provider, chunks);
    OutputAfterOps(provider, ops);
    StopAtEnd(ops);
    ClosingParts(provider, StateAfter(ops));
    JoinedConcat(AllOutput(ops), ClosingOutput(provider, StateAfter(ops)), Calls);
    forall i: nat | OpenSince(ops, i) ensures i < |ops| && IsStart(ops[i]) {
      OpenIsStart(ops, i);
    }
    assert Joined(AllOutput(ops), Calls) + [] == Joined(AllOutput(ops), Calls);
  }

  // ----- errors -----

  function ErrorOf(item: Item): seq<Item> {
    if item.Event? then [] else [item]
  }

  function ParseErrorIn(parse: Parser): seq<byte> -> seq<Item> {
    (line: seq<byte>) =>
      match parse(line)
      case Some(Err(message)) => [ParserError(message)]
      case _ => []
  }

  lemma {:induction false} NoErrorsInEvents(events: seq<StreamEvent>)
    ensures Joined(AsItems(events), ErrorOf) == []
  {
    if events != [] {
      var p := events[..|events| - 1];
      NoErrorsInEvents(p);
      assert AsItems(events)[..|events| - 1] == AsItems(p);
    }
  }

  lemma OperateErrors(x: Pipe, op: Op)
    ensures Joined(Operate(x, op).out, ErrorOf) == Joined(x.out, ErrorOf)
  {
    hide Output, After, Numbered;
    var events := Numbered(x.session.eventId, Output(x.session, op));
    NoErrorsInEvents(events);
    JoinedConcat(x.out, AsItems(events), ErrorOf);
  }

  lemma OneLineErrors(parse: Parser, x: Pipe, line: seq<byte>)
    ensures Joined(OneLine(parse, x, line).out, ErrorOf) == Joined(x.out, ErrorOf) + ParseErrorIn(parse)(line)
  {
    hide Operate;
    match parse(line)
    case None =>
    case Some(Err(e)) =>
      JoinedConcat(x.out, [ParserError(e)], ErrorOf);
      JoinedOne(ParserError(e), ErrorOf);
    case Some(Ok(event)) => OperateErrors(x, Apply(event));
  }

  lemma {:induction false} LinesErrors(parse: Parser, x: Pipe, lines: seq<seq<byte>>)
    ensures Joined(AllLines(parse, x, lines).out, ErrorOf)
         == Joined(x.out, ErrorOf) + Joined(lines, ParseErrorIn(parse))
    decreases |lines|
  {
    hide OneLine, ParseErrorIn, Joined;
    var pick := ParseErrorIn(parse);
    if lines == [] {
      NoLineErrors(pick);
      assert Joined(x.out, ErrorOf) + [] == Joined(x.out, ErrorOf);
    } else {
      var first, more := lines[0], lines[1..];
      OneLineErrors(parse, x, first);
      LinesErrors(parse, OneLine(parse, x, first), more);
      JoinedOne(first, pick);
      JoinedConcat([first], more, pick);
      assert lines == [first] + more;
      Regroup(Joined(x.out, ErrorOf), pick(first), Joined(more, pick));
    }
  }

  lemma NoLineErrors(pick: seq<byte> -> seq<Item>)
    ensures Joined([], pick) == []
  {
  }

  lemma Regroup(a: seq<Item>, b: seq<Item>, c: seq<Item>)
    ensures a + b + c == a + (b + c)
  {
  }

  lemma {:induction false} OperationsErrors(x: Pipe, ops: seq<Op>)
    ensures Joined(Operations(x, ops).out, ErrorOf) == Joined(x.out, ErrorOf)
    decreases |ops|
  {
    hide Operate;
    if ops != [] {
      OperateErrors(x, ops[0]);
      OperationsErrors(Operate(x, ops[0]), ops[1..]);
    }
  }

  /** The errors a response reports are its lines' parser errors, in order, and then what its first bad chunk
      complains of. */
  lemma ResponseErrors(parse: Parser, provider: Provider, chunks: seq<Chunk>)
    ensures Joined(Response(parse, provider, chunks), ErrorOf)
         == Joined(Lines(Decoded(chunks)), ParseErrorIn(parse)) + Complaint(chunks)
  {
    hide Joined, Lines, AllLines, Operations, Response, Decoded, ParseErrorIn, Complaint;
    var lines := Lines(Decoded(chunks));
    var read := AllLines(parse, OPENED, lines);
    ResponseUpToBadChunk(parse, provider, chunks);
    OperationsErrors(read.(out := read.out + Complaint(chunks)), Closing(provider));
    JoinedConcat(read.out, Complaint(chunks), ErrorOf);
    LinesErrors(parse, OPENED, lines);
    ComplaintIsError(chunks);
    NothingJoined();
  }

  lemma NothingJoined()
    ensures Joined([], ErrorOf) == []
  {
  }

  lemma ComplaintIsError(chunks: seq<Chunk>)
    ensures Joined(Complaint(chunks), ErrorOf) == Complaint(chunks)
  {
    if Complaint(chunks) != [] {
      JoinedOne(Complaint(chunks)[0], ErrorOf);
      assert Complaint(chunks) == [Complaint(chunks)[0]];
    }
  }
}
