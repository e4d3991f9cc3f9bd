/**
 The streaming task of both providers: byte chunks into a line buffer, complete lines into the protocol
 parser, parsed events into the session, numbered events to the receiver.
 */
module SsePipeline {
  import opened Text
  import opened Utf8
  import opened Streaming
  import opened StreamingRuns

  const NEWLINE: byte := 10

  /** What the receiver gets. */
  datatype Item = Event(event: StreamEvent) | ParserError(message: string) | InvalidUtf8 | NetworkError(message: string)

  /** What the network yields. */
  datatype Chunk = Data(bytes: seq<byte>) | Broken(message: string)

  datatype Provider = Anthropic | OpenAi

  /** A protocol parser, white-space trimming included: a line gives an event, an error or nothing. */
  type Parser = seq<byte> -> Option<Result<ParsedEvent, string>>

  // ----- lines -----

  /** Index of the first newline, or the length. */
  function LineEnd(t: seq<byte>): (k: nat)
    ensures k <= |t| && (k < |t| ==> t[k] == NEWLINE)
    ensures forall i :: 0 <= i < k ==> t[i] != NEWLINE
  {
    if t == [] || t[0] == NEWLINE then 0 else 1 + LineEnd(t[1..])
  }

  /** The complete lines of a text, without their newlines. */
  function Lines(t: seq<byte>): seq<seq<byte>> {
    var k := LineEnd(t);
    if k == |t| then [] else [t[..k]] + Lines(t[k + 1..])
  }

  /** What follows the last newline. */
  function Rest(t: seq<byte>): seq<byte> {
    var k := LineEnd(t);
    if k == |t| then t else Rest(t[k + 1..])
  }

  function Terminated(line: seq<byte>): seq<byte> {
    line + [NEWLINE]
  }

  predicate OneLineOnly(t: seq<byte>) {
    NEWLINE !in t
  }

  lemma {:induction false} NewlinesEndLines(t: seq<byte>)
    ensures OneLineOnly(Rest(t)) && forall l :: l in Lines(t) ==> OneLineOnly(l)
    decreases |t|
  {
    var k := LineEnd(t);
    if k < |t| {
      NewlinesEndLines(t[k + 1..]);
    }
  }

  predicate Rebuild(lines: seq<seq<byte>>, rest: seq<byte>, t: seq<byte>) {
    Joined(lines, Terminated) + rest == t
  }

  lemma NothingToRebuild(t: seq<byte>)
    ensures Rebuild([], t, t)
  {
  }

  lemma RebuildStep(line: seq<byte>, lines: seq<seq<byte>>, rest: seq<byte>, more: seq<byte>)
    requires Rebuild(lines, rest, more)
    ensures Rebuild([line] + lines, rest, Terminated(line) + more)
  {
    JoinedConcat([line], lines, Terminated);
    JoinedOne(line, Terminated);
  }

  /** The lines and the remainder rebuild the text. */
  lemma {:induction false} LinesRebuild(t: seq<byte>)
    ensures Rebuild(Lines(t), Rest(t), t)
    decreases |t|
  {
    hide Rebuild;
    var k := LineEnd(t);
    if k == |t| {
      NothingToRebuild(t);
    } else {
      LinesRebuild(t[k + 1..]);
      RebuildStep(t[..k], Lines(t[k + 1..]), Rest(t[k + 1..]), t[k + 1..]);
      assert Terminated(t[..k]) + t[k + 1..] == t;
    }
  }

  lemma UnterminatedLine(t: seq<byte>)
    requires OneLineOnly(t)
    ensures Lines(t) == [] && Rest(t) == t
  {
    var k := LineEnd(t);
  }

  lemma LineEndOfConcat(a: seq<byte>, b: seq<byte>)
    requires LineEnd(a) < |a|
    ensures LineEnd(a + b) == LineEnd(a)
  {
    var k, e := LineEnd(a), LineEnd(a + b);
    assert (a + b)[k] == NEWLINE;
    if e < k {
      assert (a + b)[e] == a[e];
    }
  }

  lemma {:induction false} FirstLine(t: seq<byte>)
    ensures var k := LineEnd(t);
            if k == |t| then Lines(t) == [] && Rest(t) == t
            else Lines(t) == [t[..k]] + Lines(t[k + 1..]) && Rest(t) == Rest(t[k + 1..])
  {
    hide LineEnd;
  }

  /** Cutting a text anywhere and carrying the remainder over gives the same lines. */
  lemma {:induction false} LinesOfConcat(a: seq<byte>, b: seq<byte>)
    ensures Lines(a + b) == Lines(a) + Lines(Rest(a) + b)
    ensures Rest(a + b) == Rest(Rest(a) + b)
    decreases |a|
  {
    hide Lines, Rest;
    var k := LineEnd(a);
    FirstLine(a);
    if k < |a| {
      LineEndOfConcat(a, b);
      FirstLine(a + b);
      assert (a + b)[..k] == a[..k];
      assert (a + b)[k + 1..] == a[k + 1..] + b;
      LinesOfConcat(a[k + 1..], b);
    }
  }

  // ----- what the receiver should get -----

  /** A session and everything it has put out. */
  datatype Pipe = Pipe(session: State, out: seq<Item>)

  const OPENED := Pipe(INITIAL, [])

  function AsItems(events: seq<StreamEvent>): seq<Item> {
    seq(|events|, i requires 0 <= i < |events| => Event(events[i]))
  }

  function Operate(x: Pipe, op: Op): Pipe {
    Pipe(After(x.session, op), x.out + AsItems(Numbered(x.session.eventId, Output(x.session, op))))
  }

  function OneLine(parse: Parser, x: Pipe, line: seq<byte>): Pipe {
    match parse(line)
    case None => x
    case Some(Err(e)) => x.(out := x.out + [ParserError(e)])
    case Some(Ok(event)) => Operate(x, Apply(event))
  }

  function AllLines(parse: Parser, x: Pipe, lines: seq<seq<byte>>): Pipe
    decreases |lines|
  {
    if lines == [] then x else AllLines(parse, OneLine(parse, x, lines[0]), lines[1..])
  }

  /** The chunk loop: it stops at the first chunk that is not text by itself, and at a network error. */
  function Feed(parse: Parser, buffer: seq<byte>, x: Pipe, chunks: seq<Chunk>): Pipe
    decreases |chunks|
  {
    if chunks == [] then x
    else
      match chunks[0]
      case Broken(e) => x.(out := x.out + [NetworkError(e)])
      case Data(b) =>
        if !WellFormed(b) then x.(out := x.out + [InvalidUtf8])
        else Feed(parse, Rest(buffer + b), AllLines(parse, x, Lines(buffer + b)), chunks[1..])
  }

  /** OpenAI streams carry no block stop, so one is applied at the end of the stream. */
  function Closing(provider: Provider): seq<Op> {
    if provider.OpenAi? then [Apply(ContentBlockStop), Finalize] else [Finalize]
  }

  function Operations(x: Pipe, ops: seq<Op>): Pipe
    decreases |ops|
  {
    if ops == [] then x else Operations(Operate(x, ops[0]), ops[1..])
  }

  /** Everything a response puts out. */
  function Response(parse: Parser, provider: Provider, chunks: seq<Chunk>): seq<Item> {
    Operations(Feed(parse, [], OPENED, chunks), Closing(provider)).out
  }

  lemma {:induction false} AllLinesConcat(parse: Parser, x: Pipe, a: seq<seq<byte>>, b: seq<seq<byte>>)
    ensures AllLines(parse, x, a + b) == AllLines(parse, AllLines(parse, x, a), b)
    decreases |a|
  {
    if a == [] {
      assert a + b == b;
    } else {
      AllLinesConcat(parse, OneLine(parse, x, a[0]), a[1..], b);
      assert (a + b)[1..] == a[1..] + b;
    }
  }

  // ----- chunk invariance -----

  function Bytes(c: Chunk): seq<byte> {
    if c.Data? then c.bytes else []
  }

  predicate IsText(c: Chunk) {
    c.Data? && WellFormed(c.bytes)
  }

  lemma {:induction false} JoinedFirst(chunks: seq<Chunk>)
    requires chunks != []
    ensures Joined(chunks, Bytes) == Bytes(chunks[0]) + Joined(chunks[1..], Bytes)
  {
    JoinedConcat([chunks[0]], chunks[1..], Bytes);
    JoinedOne(chunks[0], Bytes);
    assert chunks == [chunks[0]] + chunks[1..];
  }

  predicate AllText(chunks: seq<Chunk>) {
    forall i :: 0 <= i < |chunks| ==> IsText(chunks[i])
  }

  /** Feeding text chunks handles exactly the complete lines of the whole text, in order. */
  lemma {:induction false} FeedIsAllLines(parse: Parser, buffer: seq<byte>, x: Pipe, chunks: seq<Chunk>)
    requires AllText(chunks) && OneLineOnly(buffer)
    ensures Feed(parse, buffer, x, chunks) == AllLines(parse, x, Lines(buffer + Joined(chunks, Bytes)))
    decreases |chunks|
  {
    hide OneLine, Lines, Rest, WellFormed;
    if chunks == [] {
      assert buffer + Joined(chunks, Bytes) == buffer;
      UnterminatedLine(buffer);
    } else {
      assert IsText(chunks[0]);
      var text := buffer + chunks[0].bytes;
      var more := Joined(chunks[1..], Bytes);
      NewlinesEndLines(text);
      var x' := AllLines(parse, x, Lines(text));
      assert Feed(parse, buffer, x, chunks) == Feed(parse, Rest(text), x', chunks[1..]);
      FeedIsAllLines(parse, Rest(text), x', chunks[1..]);
      AllLinesConcat(parse, x, Lines(text), Lines(Rest(text) + more));
      LinesOfConcat(text, more);
      JoinedFirst(chunks);
      assert text + more == buffer + Joined(chunks, Bytes);
    }
  }

  lemma {:induction false} JoinedTextIsText(chunks: seq<Chunk>)
    requires AllText(chunks)
    ensures WellFormed(Joined(chunks, Bytes))
  {
    if chunks != [] {
      var last := chunks[|chunks| - 1];
      JoinedTextIsText(chunks[..|chunks| - 1]);
      assert IsText(last);
      WellFormedConcat(Joined(chunks[..|chunks| - 1], Bytes), Bytes(last));
    }
  }

  /** The batch form of a response: all complete lines of the text, then the closing operations. */
  function WholeText(parse: Parser, provider: Provider, text: seq<byte>): seq<Item> {
    Operations(AllLines(parse, OPENED, Lines(text)), Closing(provider)).out
  }

  lemma ResponseIsWholeText(parse: Parser, provider: Provider, chunks: seq<Chunk>)
    requires AllText(chunks)
    ensures Response(parse, provider, chunks) == WholeText(parse, provider, Joined(chunks, Bytes))
  {
    FeedIsAllLines(parse, [], OPENED, chunks);
    assert [] + Joined(chunks, Bytes) == Joined(chunks, Bytes);
  }

  lemma OneChunk(parse: Parser, provider: Provider, text: seq<byte>)
    requires WellFormed(text)
    ensures Response(parse, provider, [Data(text)]) == WholeText(parse, provider, text)
  {
    ResponseIsWholeText(parse, provider, [Data(text)]);
    JoinedOne(Data(text), Bytes);
  }

  /** However a text is cut into chunks of text, the receiver gets what it gets for one chunk. */
  lemma ChunkInvariance(parse: Parser, provider: Provider, chunks: seq<Chunk>)
    requires AllText(chunks)
    ensures Response(parse, provider, chunks) == Response(parse, provider, [Data(Joined(chunks, Bytes))])
  {
    JoinedTextIsText(chunks);
    ResponseIsWholeText(parse, provider, chunks);
    OneChunk(parse, provider, Joined(chunks, Bytes));
  }

  /** A last line without a newline is never looked at. */
  lemma UnterminatedTailIsIgnored(parse: Parser, provider: Provider, text: seq<byte>, tail: seq<byte>)
    requires WellFormed(text) && WellFormed(tail) && OneLineOnly(tail)
    ensures Response(parse, provider, [Data(text + tail)]) == Response(parse, provider, [Data(text)])
  {
    hide Lines, Rest, AllLines, Operations, WellFormed, Response;
    WellFormedConcat(text, tail);
    OneChunk(parse, provider, text + tail);
    OneChunk(parse, provider, text);
    LinesOfConcat(text, tail);
    NewlinesEndLines(text);
    UnterminatedLine(Rest(text) + tail);
    assert Lines(text + tail) == Lines(text);
  }

  // ----- output only grows, and a bad cut shows -----

  predicate NoUtf8Error(out: seq<Item>) {
    InvalidUtf8 !in out
  }

  lemma {:induction false} AllLinesGrows(parse: Parser, x: Pipe, lines: seq<seq<byte>>)
    ensures x.out <= AllLines(parse, x, lines).out
    ensures NoUtf8Error(x.out) ==> NoUtf8Error(AllLines(parse, x, lines).out)
    decreases |lines|
  {
    if lines != [] {
      AllLinesGrows(parse, OneLine(parse, x, lines[0]), lines[1..]);
    }
  }

  lemma {:induction false} OperationsGrow(x: Pipe, ops: seq<Op>)
    ensures x.out <= Operations(x, ops).out
    ensures NoUtf8Error(x.out) ==> NoUtf8Error(Operations(x, ops).out)
    decreases |ops|
  {
    if ops != [] {
      OperationsGrow(Operate(x, ops[0]), ops[1..]);
    }
  }

  lemma {:induction false} FeedGrows(parse: Parser, buffer: seq<byte>, x: Pipe, chunks: seq<Chunk>)
    ensures x.out <= Feed(parse, buffer, x, chunks).out
    ensures !AllText(chunks) && (forall i :: 0 <= i < |chunks| ==> chunks[i].Data?)
            ==> InvalidUtf8 in Feed(parse, buffer, x, chunks).out
    decreases |chunks|
  {
    if chunks != [] && IsText(chunks[0]) {
      var b := chunks[0].bytes;
      AllLinesGrows(parse, x, Lines(buffer + b));
      FeedGrows(parse, Rest(buffer + b), AllLines(parse, x, Lines(buffer + b)), chunks[1..]);
      if !AllText(chunks) {
        var i :| 0 <= i < |chunks| && !IsText(chunks[i]);
        assert !IsText(chunks[1..][i - 1]);
      }
    }
  }

  lemma BadChunkShows(parse: Parser, provider: Provider, chunks: seq<Chunk>)
    requires !AllText(chunks) && forall i :: 0 <= i < |chunks| ==> chunks[i].Data?
    ensures InvalidUtf8 in Response(parse, provider, chunks)
  {
    FeedGrows(parse, [], OPENED, chunks);
    OperationsGrow(Feed(parse, [], OPENED, chunks), Closing(provider));
  }

  function AsChunks(parts: seq<seq<byte>>): seq<Chunk> {
    seq(|parts|, i requires 0 <= i < |parts| => Data(parts[i]))
  }

  /** Where the `k`-th cut falls in the whole body. */
  function CutAt(parts: seq<seq<byte>>, k: nat): nat
    requires k <= |parts|
  {
    |Joined(AsChunks(parts)[..k], Bytes)|
  }

  predicate CutsAtBoundaries(body: seq<byte>, parts: seq<seq<byte>>) {
    forall k :: 0 <= k <= |parts| ==> IsCharBoundary(body, CutAt(parts, k))
  }

  lemma PrefixOfBody(chunks: seq<Chunk>, k: nat)
    requires k <= |chunks|
    ensures Joined(chunks[..k], Bytes) <= Joined(chunks, Bytes)
  {
    JoinedConcat(chunks[..k], chunks[k..], Bytes);
    assert chunks == chunks[..k] + chunks[k..];
  }

  lemma SliceIsText(body: seq<byte>, from: nat, to: nat)
    requires WellFormed(body) && from <= to <= |body| && IsCharBoundary(body, from) && IsCharBoundary(body, to)
    ensures WellFormed(body[from..to])
  {
    PrefixIff(body, to);
    PrefixIff(body[..to], from);
    assert body[..to][from..] == body[from..to];
  }

  lemma PartIsSlice(body: seq<byte>, parts: seq<seq<byte>>, k: nat)
    requires body == Joined(AsChunks(parts), Bytes) && k < |parts|
    ensures CutAt(parts, k) <= CutAt(parts, k + 1) <= |body|
    ensures body[CutAt(parts, k)..CutAt(parts, k + 1)] == parts[k]
  {
    var chunks := AsChunks(parts);
    PrefixOfBody(chunks, k + 1);
    var upTo := chunks[..k + 1];
    assert upTo[..|upTo| - 1] == chunks[..k];
    assert Joined(upTo, Bytes) == Joined(chunks[..k], Bytes) + parts[k];
  }

  lemma TextPartsCutAtBoundaries(body: seq<byte>, parts: seq<seq<byte>>)
    requires WellFormed(body) && body == Joined(AsChunks(parts), Bytes)
    requires AllText(AsChunks(parts))
    ensures CutsAtBoundaries(body, parts)
  {
    var chunks := AsChunks(parts);
    forall k | 0 <= k <= |parts| ensures IsCharBoundary(body, CutAt(parts, k)) {
      JoinedTextIsText(chunks[..k]);
      PrefixOfBody(chunks, k);
      assert body[..CutAt(parts, k)] == Joined(chunks[..k], Bytes);
      PrefixIff(body, CutAt(parts, k));
    }
  }

  /** Cutting a text body anywhere is harmless exactly when every cut falls between two characters. */
  lemma ChunkingIsHarmlessIff(parse: Parser, provider: Provider, body: seq<byte>, parts: seq<seq<byte>>)
    requires WellFormed(body) && body == Joined(AsChunks(parts), Bytes)
    ensures Response(parse, provider, AsChunks(parts)) == Response(parse, provider, [Data(body)])
       <==> CutsAtBoundaries(body, parts)
  {
    var chunks := AsChunks(parts);
    if CutsAtBoundaries(body, parts) {
      forall k | 0 <= k < |chunks| ensures IsText(chunks[k]) {
        PartIsSlice(body, parts, k);
        SliceIsText(body, CutAt(parts, k), CutAt(parts, k + 1));
      }
      ChunkInvariance(parse, provider, chunks);
    } else {
      assert !AllText(chunks) by {
        if AllText(chunks) {
          TextPartsCutAtBoundaries(body, parts);
        }
      }
      BadChunkShows(parse, provider, chunks);
      OneChunk(parse, provider, body);
      AllLinesGrows(parse, OPENED, Lines(body));
      OperationsGrow(AllLines(parse, OPENED, Lines(body)), Closing(provider));
    }
  }

  const ACCENTED: seq<byte> := [0xC3, 0xA9]
  const HALVES: seq<seq<byte>> := [[0xC3], [0xA9]]

  lemma AccentedLetter()
    ensures WellFormed(ACCENTED) && !IsCharBoundary(ACCENTED, 1)
  {
    assert CharLength(ACCENTED) == 2 && ACCENTED[2..] == [];
  }

  lemma HalvesJoin()
    ensures ACCENTED == Joined(AsChunks(HALVES), Bytes) && CutAt(HALVES, 1) == 1
  {
    var chunks := AsChunks(HALVES);
    assert chunks[..1] == [Data([0xC3])] && chunks == chunks[..1] + [Data([0xA9])];
    JoinedOne(Data([0xC3]), Bytes);
  }

  /** A chunk border inside the letter `é` shows under every parser. */
  lemma SplitLetterBreaks(parse: Parser, provider: Provider)
    ensures Response(parse, provider, AsChunks(HALVES)) != Response(parse, provider, [Data(ACCENTED)])
  {
    hide Response, WellFormed, IsCharBoundary, Joined, CutAt;
    AccentedLetter();
    HalvesJoin();
    ChunkingIsHarmlessIff(parse, provider, ACCENTED, HALVES);
  }

  // ----- a response is a session run -----

  function OpOf(parse: Parser, line: seq<byte>): seq<Op> {
    match parse(line)
    case Some(Ok(event)) => [Apply(event)]
    case _ => []
  }

  function OpsOf(parse: Parser, lines: seq<seq<byte>>): seq<Op>
    decreases |lines|
  {
    if lines == [] then [] else OpOf(parse, lines[0]) + OpsOf(parse, lines[1..])
  }

  function EventOf(item: Item): seq<StreamEvent> {
    if item.Event? then [item.event] else []
  }

  /** `x` is a pipe whose session has performed exactly `ops`. */
  predicate HasRun(x: Pipe, ops: seq<Op>) {
    x.session == StateAfter(ops) && Joined(x.out, EventOf) == AllEvents(ops)
  }

  lemma {:induction false} EventsOfItems(events: seq<StreamEvent>)
    ensures Joined(AsItems(events), EventOf) == events
  {
    if events != [] {
      var p := events[..|events| - 1];
      EventsOfItems(p);
      assert AsItems(events)[..|events| - 1] == AsItems(p);
    }
  }

  lemma OperateRuns(x: Pipe, ops: seq<Op>, op: Op)
    requires HasRun(x, ops)
    ensures HasRun(Operate(x, op), ops + [op])
  {
    var events := Numbered(x.session.eventId, Output(x.session, op));
    OneMore(ops, op);
    EventsOfItems(events);
    JoinedConcat(x.out, AsItems(events), EventOf);
  }

  lemma {:induction false} OperationsRun(x: Pipe, ops: seq<Op>, more: seq<Op>)
    requires HasRun(x, ops)
    ensures HasRun(Operations(x, more), ops + more)
    decreases |more|
  {
    hide Operate, HasRun;
    if more == [] {
      assert ops + more == ops;
    } else {
      var ops' := ops + [more[0]];
      assert ops' + more[1..] == ops + more;
      OperateRuns(x, ops, more[0]);
      OperationsRun(Operate(x, more[0]), ops', more[1..]);
    }
  }

  lemma OneLineRuns(parse: Parser, x: Pipe, ops: seq<Op>, line: seq<byte>)
    requires HasRun(x, ops)
    ensures HasRun(OneLine(parse, x, line), ops + OpOf(parse, line))
  {
    match parse(line)
    case None =>
      assert ops + [] == ops;
    case Some(Err(e)) =>
      assert ops + [] == ops;
      JoinedConcat(x.out, [ParserError(e)], EventOf);
      JoinedOne(ParserError(e), EventOf);
    case Some(Ok(event)) =>
      OperateRuns(x, ops, Apply(event));
  }

  lemma {:induction false} LinesRun(parse: Parser, x: Pipe, ops: seq<Op>, lines: seq<seq<byte>>)
    requires HasRun(x, ops)
    ensures HasRun(AllLines(parse, x, lines), ops + OpsOf(parse, lines))
    decreases |lines|
  {
    hide OneLine, OpOf, HasRun;
    if lines == [] {
      assert ops + [] == ops;
    } else {
      var ops' := ops + OpOf(parse, lines[0]);
      assert ops' + OpsOf(parse, lines[1..]) == ops + OpsOf(parse, lines);
      OneLineRuns(parse, x, ops, lines[0]);
      LinesRun(parse, OneLine(parse, x, lines[0]), ops', lines[1..]);
    }
  }

  /** How many chunks are text before the first that is not. */
  function GoodChunks(chunks: seq<Chunk>): (n: nat)
    ensures n <= |chunks| && AllText(chunks[..n]) && (n < |chunks| ==> !IsText(chunks[n]))
  {
    if chunks == [] || !IsText(chunks[0]) then 0
    else
      var n := GoodChunks(chunks[1..]);
      assert chunks[..n + 1] == [chunks[0]] + chunks[1..][..n];
      n + 1
  }

  /** The text a response is read from: all up to the first broken or undecodable chunk. */
  function Decoded(chunks: seq<Chunk>): seq<byte> {
    Joined(chunks[..GoodChunks(chunks)], Bytes)
  }

  /** What the first chunk that is not text puts out. */
  function Complaint(chunks: seq<Chunk>): seq<Item> {
    var n := GoodChunks(chunks);
    if n == |chunks| then []
    else if chunks[n].Broken? then [NetworkError(chunks[n].message)]
    else [InvalidUtf8]
  }

  lemma {:induction false} FeedStopsAtBadChunk(parse: Parser, buffer: seq<byte>, x: Pipe, chunks: seq<Chunk>)
    ensures var fed := Feed(parse, buffer, x, chunks[..GoodChunks(chunks)]);
            Feed(parse, buffer, x, chunks) == fed.(out := fed.out + Complaint(chunks))
    decreases |chunks|
  {
    hide WellFormed, Lines, Rest, AllLines;
    var n := GoodChunks(chunks);
    if n == 0 {
      assert chunks[..0] == [];
      assert chunks == [] ==> x.out + [] == x.out;
    } else {
      var text := buffer + chunks[0].bytes;
      var good := chunks[..n];
      assert good[0] == chunks[0] && good[1..] == chunks[1..][..n - 1];
      FeedStopsAtBadChunk(parse, Rest(text), AllLines(parse, x, Lines(text)), chunks[1..]);
    }
  }

  /** A response, whatever chunks arrive, is read from the text before the first bad one; what that one complains of
      comes between the lines' items and the closing ones. */
  lemma ResponseUpToBadChunk(parse: Parser, provider: Provider, chunks: seq<Chunk>)
    ensures var read := AllLines(parse, OPENED, Lines(Decoded(chunks)));
            Response(parse, provider, chunks)
            == Operations(read.(out := read.out + Complaint(chunks)), Closing(provider)).out
  {
    hide Lines, AllLines, Operations;
    var good := chunks[..GoodChunks(chunks)];
    FeedStopsAtBadChunk(parse, [], OPENED, chunks);
    FeedIsAllLines(parse, [], OPENED, good);
    assert [] + Joined(good, Bytes) == Joined(good, Bytes);
  }

  lemma ComplaintRuns(x: Pipe, ops: seq<Op>, chunks: seq<Chunk>)
    requires HasRun(x, ops)
    ensures HasRun(x.(out := x.out + Complaint(chunks)), ops)
  {
    JoinedConcat(x.out, Complaint(chunks), EventOf);
    if Complaint(chunks) != [] {
      JoinedOne(Complaint(chunks)[0], EventOf);
    }
  }

  /** The events of any response, also of one that breaks off, are those of one session run over the lines read
      before the first bad chunk and the closing operations. */
  lemma ResponseIsSessionRun(parse: Parser, provider: Provider, chunks: seq<Chunk>)
    ensures Joined(Response(parse, provider, chunks), EventOf)
         == AllEvents(OpsOf(parse, Lines(Decoded(chunks))) + Closing(provider))
  {
    hide Lines, AllLines, OpsOf, Operations, Complaint, Decoded, Response, AllEvents;
    var lines := Lines(Decoded(chunks));
    var read, ops := AllLines(parse, OPENED, lines), OpsOf(parse, lines);
    ResponseUpToBadChunk(parse, provider, chunks);
    NothingRun();
    LinesRun(parse, OPENED, [], lines);
    assert [] + ops == ops;
    ComplaintRuns(read, ops, chunks);
    OperationsRun(read.(out := read.out + Complaint(chunks)), ops, Closing(provider));
  }

  lemma NothingRun()
    ensures HasRun(OPENED, [])
  {
  }

  lemma SpansAtEnd(provider: Provider, ops: seq<Op>, i: nat)
    requires i < |ops| && IsStart(ops[i]) && forall k :: 0 <= k < |ops| ==> !IsStop(ops[k])
    ensures (exists j: nat :: Spans(ops + Closing(provider), i, j))
       <==> provider.OpenAi? && forall k :: i < k < |ops| ==> !IsStart(ops[k])
    ensures forall j: nat :: Spans(ops + Closing(provider), i, j) ==> j == |ops|
  {
    var done := ops + Closing(provider);
    assert forall k :: 0 <= k < |ops| ==> done[k] == ops[k];
    if j: nat :| Spans(done, i, j) {
      assert j == |ops|;
      forall k | i < k < |ops| ensures !IsStart(ops[k]) {
        assert done[..j][k] == ops[k];
      }
    }
    if provider.OpenAi? && forall k :: i < k < |ops| ==> !IsStart(ops[k]) {
      assert done[..|ops|] == ops;
      assert Spans(done, i, |ops|);
    }
  }

  /** The call started at `i` is what some block stop of the run emits. */
  ghost predicate IsCompleted(ops: seq<Op>, i: nat)
    requires i < |ops|
  {
    Named(ops[i])
    && exists j: nat :: Spans(ops, i, j) && Joined(OutputAt(ops, j), Calls) == [CallOf(ops, i, j)]
  }

  /** Without block stops in the stream, a started call is completed exactly when it has id and name, the provider
      is OpenAI, whose closing stop then emits it with all deltas since, and no call was started after it. */
  lemma OnlyLastCallIsClosed(provider: Provider, ops: seq<Op>, i: nat)
    requires i < |ops| && IsStart(ops[i]) && forall k :: 0 <= k < |ops| ==> !IsStop(ops[k])
    ensures var done := ops + Closing(provider);
            && (IsCompleted(done, i)
                <==> Named(ops[i]) && provider.OpenAi? && forall k :: i < k < |ops| ==> !IsStart(ops[k]))
            && (IsCompleted(done, i) ==> Joined(OutputAt(done, |ops|), Calls) == [CallOf(done, i, |ops|)])
  {
    hide OutputAt, CallOf, Joined;
    var done := ops + Closing(provider);
    SpansAtEnd(provider, ops, i);
    assert done[i] == ops[i];
    if j: nat :| Spans(done, i, j) {
      StopCompletesCall(done, i, j);
    }
  }

  /** Of two calls streamed one after the other the first is never completed. */
  lemma FirstOfTwoCallsIsLost(provider: Provider, a: string, b: string)
    ensures var ops := [Apply(ToolCallStart(0, Some(a), Some(a))), Apply(ToolCallStart(1, Some(b), Some(b)))];
            !IsCompleted(ops + Closing(provider), 0)
  {
    var ops := [Apply(ToolCallStart(0, Some(a), Some(a))), Apply(ToolCallStart(1, Some(b), Some(b)))];
    assert IsStart(ops[1]);
    OnlyLastCallIsClosed(provider, ops, 0);
  }

  // ----- the task itself -----

  function Take(s: seq<Item>, n: nat): seq<Item> {
    if |s| <= n then s else s[..n]
  }

  lemma FullStaysFull(a: seq<Item>, b: seq<Item>, n: nat)
    requires a <= b && |Take(a, n)| == n
    ensures Take(a, n) == Take(b, n)
  {
  }

  /** The receiver takes every event of a batch that comes after `before` items. */
  predicate AllDelivered(items: seq<Item>, before: nat, patience: nat) {
    forall k :: 0 <= k < |items| && items[k].Event? ==> before + k < patience
  }

  /** The channel to a receiver that takes `patience` items and then goes away. */
  class Sender {
    const patience: nat
    var sent: seq<Item>

    constructor (patience: nat)
      ensures this.patience == patience && sent == []
    {
      this.patience := patience;
      sent := [];
    }

    method Send(item: Item) returns (ok: bool)
      requires |sent| <= patience
      modifies this`sent
      ensures sent == Take(old(sent) + [item], patience)
      ensures ok <==> |old(sent)| < patience
    {
      ok := |sent| < patience;
      if ok {
        sent := sent + [item];
      }
    }

    /** Sends a batch; gives up exactly when an event cannot be delivered, but ignores lost errors. */
    method SendAll(items: seq<Item>) returns (open: bool)
      requires |sent| <= patience
      modifies this`sent
      ensures sent == Take(old(sent) + items, patience)
      ensures open <==> AllDelivered(items, |old(sent)|, patience)
      ensures !open ==> |sent| == patience
    {
      for i := 0 to |items|
        invariant sent == Take(old(sent) + items[..i], patience)
        invariant forall k :: 0 <= k < i && items[k].Event? ==> |old(sent)| + k < patience
      {
        assert items[..i + 1] == items[..i] + [items[i]];
        var before := sent;
        var ok := Send(items[i]);
        assert sent == Take(old(sent) + items[..i + 1], patience);
        if items[i].Event? && !ok {
          FullStaysFull(old(sent) + items[..i + 1], old(sent) + items, patience);
          return false;
        }
      }
      assert items[..|items|] == items;
      open := true;
    }
  }

  method ProcessSse(session: StreamingSession, parse: Parser, line: seq<byte>) returns (items: seq<Item>)
    modifies session
    ensures var x := Pipe(old(session.Value()), []); Pipe(session.Value(), items) == OneLine(parse, x, line)
  {
    match parse(line)
    case None =>
      items := [];
    case Some(Err(e)) =>
      items := [ParserError(e)];
    case Some(Ok(event)) =>
      var events := session.ApplyEvent(event);
      items := AsItems(events);
  }

  lemma OneLineAppends(parse: Parser, x: Pipe, line: seq<byte>)
    ensures var y := OneLine(parse, Pipe(x.session, []), line);
            OneLine(parse, x, line) == Pipe(y.session, x.out + y.out)
  {
  }

  /** The inner loop: every complete line in the buffer, until the receiver is gone. */
  method DrainLines(session: StreamingSession, parse: Parser, text: seq<byte>, tx: Sender, ghost x: Pipe)
    returns (buffer: seq<byte>, open: bool)
    requires session.Value() == x.session && tx.sent == Take(x.out, tx.patience)
    modifies session, tx`sent
    ensures var x' := AllLines(parse, x, Lines(text));
            tx.sent == Take(x'.out, tx.patience) && (open ==> session.Value() == x'.session)
    ensures open ==> buffer == Rest(text)
    ensures !open ==> |tx.sent| == tx.patience
  {
    hide Operate, Output, Numbered, After, Lines, Rest, OneLine;
    buffer := text;
    ghost var y := x;
    while LineEnd(buffer) < |buffer|
      invariant AllLines(parse, y, Lines(buffer)) == AllLines(parse, x, Lines(text))
      invariant Rest(buffer) == Rest(text)
      invariant session.Value() == y.session && tx.sent == Take(y.out, tx.patience)
      decreases |buffer|
    {
      FirstLine(buffer);
      var newlinePos := LineEnd(buffer);
      var line := buffer[..newlinePos];
      assert Lines(buffer)[0] == line && Lines(buffer)[1..] == Lines(buffer[newlinePos + 1..]);
      buffer := buffer[newlinePos + 1..];
      var items := ProcessSse(session, parse, line);
      OneLineAppends(parse, y, line);
      ghost var before := y.out;
      y := OneLine(parse, y, line);
      TakeAppends(before, items, tx.patience);
      open := tx.SendAll(items);
      if !open {
        AllLinesGrows(parse, y, Lines(buffer));
        FullStaysFull(y.out, AllLines(parse, y, Lines(buffer)).out, tx.patience);
        return;
      }
    }
    FirstLine(buffer);
    open := true;
  }

  /** The streaming task: the receiver gets the response, cut off where the receiver went away. */
  method Converse(parse: Parser, provider: Provider, chunks: seq<Chunk>, tx: Sender)
    requires tx.sent == []
    modifies tx`sent
    ensures tx.sent == Take(Response(parse, provider, chunks), tx.patience)
  {
    hide Output, Numbered, After, OneLine, Lines, Rest, AllLines, WellFormed, Operate, Feed;
    var session := new StreamingSession();
    var buffer: seq<byte> := [];
    ghost var x := OPENED;
    ghost var fed := Feed(parse, [], OPENED, chunks);
    OperationsGrow(fed, Closing(provider));
    var i := 0;
    var broken := false;
    assert chunks[0..] == chunks;
    while i < |chunks| && !broken
      invariant 0 <= i <= |chunks|
      invariant if broken then x == fed else Feed(parse, buffer, x, chunks[i..]) == fed
      invariant session.Value() == x.session && tx.sent == Take(x.out, tx.patience)
      decreases |chunks| - i, !broken
    {
      FeedOne(parse, buffer, x, chunks[i..]);
      assert chunks[i..][0] == chunks[i] && chunks[i..][1..] == chunks[i + 1..];
      match chunks[i]
      case Broken(e) =>
        var ok := tx.Send(NetworkError(e));
        TakeAppends(x.out, [NetworkError(e)], tx.patience);
        x := x.(out := x.out + [NetworkError(e)]);
        broken := true;
      case Data(bytes) =>
        if !WellFormed(bytes) {
          var ok := tx.Send(InvalidUtf8);
          TakeAppends(x.out, [InvalidUtf8], tx.patience);
          x := x.(out := x.out + [InvalidUtf8]);
          broken := true;
        } else {
          var text := buffer + bytes;
          var open;
          buffer, open := DrainLines(session, parse, text, tx, x);
          x := AllLines(parse, x, Lines(text));
          if !open {
            FeedGrows(parse, Rest(text), x, chunks[i + 1..]);
            FullStaysFull(x.out, Response(parse, provider, chunks), tx.patience);
            return;
          }
          i := i + 1;
        }
    }
    assert x == fed by {
      if !broken {
        assert chunks[i..] == [];
        FeedNone(parse, buffer, x);
      }
    }
    Close(session, provider, tx, x);
  }

  lemma FeedNone(parse: Parser, buffer: seq<byte>, x: Pipe)
    ensures Feed(parse, buffer, x, []) == x
  {
  }

  lemma FeedOne(parse: Parser, buffer: seq<byte>, x: Pipe, chunks: seq<Chunk>)
    requires chunks != []
    ensures chunks[0].Broken? ==>
              Feed(parse, buffer, x, chunks) == x.(out := x.out + [NetworkError(chunks[0].message)])
    ensures chunks[0].Data? && !WellFormed(chunks[0].bytes) ==>
              Feed(parse, buffer, x, chunks) == x.(out := x.out + [InvalidUtf8])
    ensures chunks[0].Data? && WellFormed(chunks[0].bytes) ==>
              var text := buffer + chunks[0].bytes;
              Feed(parse, buffer, x, chunks)
              == Feed(parse, Rest(text), AllLines(parse, x, Lines(text)), chunks[1..])
  {
  }

  lemma TakeAppends(a: seq<Item>, b: seq<Item>, n: nat)
    ensures Take(Take(a, n) + b, n) == Take(a + b, n)
  {
  }

  /** The end of the stream: OpenAI's pending call first, then what the session still holds. */
  method Close(session: StreamingSession, provider: Provider, tx: Sender, ghost x: Pipe)
    requires session.Value() == x.session && tx.sent == Take(x.out, tx.patience)
    modifies session, tx`sent
    ensures tx.sent == Take(Operations(x, Closing(provider)).out, tx.patience)
  {
    hide Output, Numbered, After;
    ghost var y := x;
    if provider.OpenAi? {
      var pending := session.ApplyEvent(ContentBlockStop);
      var sending := tx.SendAll(AsItems(pending));
      TakeAppends(x.out, AsItems(pending), tx.patience);
      y := Operate(x, Apply(ContentBlockStop));
      assert [Apply(ContentBlockStop), Finalize][1..] == [Finalize];
      assert Operations(x, Closing(provider)) == Operations(y, [Finalize]);
    }
    var events := session.FinalizeSession();
    var open := tx.SendAll(AsItems(events));
    TakeAppends(y.out, AsItems(events), tx.patience);
    assert Operations(y, [Finalize]) == Operate(y, Finalize);
  }
}
