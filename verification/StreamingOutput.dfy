/** What a streaming session lets out, read off the operations alone: every event in, and every flush. */
module StreamingOutput {
  import opened Text
  import opened Streaming
  import opened StreamingRuns

  // ----- events are passed on -----

  /** The news a run carries, whether it comes in as a parsed event or goes out as a stream event. */
  datatype News =
    | Said(text: string)
    | SaidAll(text: string)
    | Thought(text: string)
    | ThoughtAll(text: string)
    | Called(call: ToolCall)
    | Used(usage: TokenUsage)
    | Began(model: string)
    | Ended(reason: FinishReason)

  /** The news in a parsed event; the pieces of tool calls are not news by themselves. */
  function NewsIn(op: Op): seq<News> {
    if op.Finalize? then []
    else
      match op.event
      case ContentDelta(text) => [Said(text)]
      case ContentComplete(text) => [SaidAll(text)]
      case ThinkingDelta(text) => [Thought(text)]
      case ThinkingComplete(text) => [ThoughtAll(text)]
      case ToolCallComplete(call) => [Called(call)]
      case Usage(usage) => [Used(usage)]
      case ResponseStart(model) => [Began(model)]
      case ResponseComplete(reason) => [Ended(reason)]
      case _ => []
  }

  function NewsOut(d: EventData): seq<News> {
    match d
    case ContentDeltaData(delta) => [Said(delta)]
    case ContentCompleteData(content) => [SaidAll(content)]
    case ThinkingDeltaData(thinking) => [Thought(thinking)]
    case ThinkingCompleteData(thinking) => [ThoughtAll(thinking)]
    case ToolCallCompleteData(call) => [Called(call)]
    case UsageData(usage) => [Used(usage)]
    case ResponseStartData(model) => [Began(model)]
    case ResponseCompleteData(reason) => [Ended(reason)]
    case ArgumentDeltaData(_, _, _) => []
  }

  /** What a run lets out between its flushes. */
  function Direct(ops: seq<Op>): seq<EventData> {
    if ops == [] then []
    else Direct(ops[..|ops| - 1]) + if IsFlush(ops[|ops| - 1]) then [] else OutputAt(ops, |ops| - 1)
  }

  lemma NewsStep(s: State, op: Op)
    ensures !IsFlush(op) ==> Joined(Output(s, op), NewsOut) == NewsIn(op)
    ensures IsFlush(op) ==> NewsIn(op) == []
  {
    hide Joined;
    if !IsFlush(op) {
      JoinedAtMostOne(Output(s, op), NewsOut);
    }
  }

  /** Between the flushes, everything that arrives leaves exactly once, in order and as what it is. */
  lemma {:induction false} NewsIsPassedOn(ops: seq<Op>)
    ensures Joined(Direct(ops), NewsOut) == Joined(ops, NewsIn)
  {
    hide Output, After, NewsIn, NewsOut, IsFlush, StateAfter;
    if ops != [] {
      var p, op := ops[..|ops| - 1], ops[|ops| - 1];
      var out := OutputAt(ops, |p|);
      NewsIsPassedOn(p);
      NewsStep(StateAfter(p), op);
      assert Joined(ops, NewsIn) == Joined(p, NewsIn) + NewsIn(op);
      if IsFlush(op) {
        assert Direct(ops) == Direct(p);
        assert Joined(p, NewsIn) + [] == Joined(p, NewsIn);
      } else {
        assert Direct(ops) == Direct(p) + out;
        JoinedConcat(Direct(p), out, NewsOut);
      }
    }
  }

  /** News that no flush can carry. */
  predicate IsPlain(n: News) {
    n.Said? || n.Thought? || n.Used? || n.Began? || n.Ended?
  }

  function Plain(news: seq<News>): seq<News> {
    if |news| == 1 && IsPlain(news[0]) then news else []
  }

  function PlainIn(op: Op): seq<News> {
    Plain(NewsIn(op))
  }

  function PlainOut(d: EventData): seq<News> {
    Plain(NewsOut(d))
  }

  lemma PlainFlush(s: State, op: Op)
    requires IsFlush(op)
    ensures Joined(Output(s, op), PlainOut) == [] == PlainIn(op)
  {
    hide Output, Joined;
    FlushParts(s, op, PlainOut);
  }

  lemma PlainStep(s: State, op: Op)
    ensures Joined(Output(s, op), PlainOut) == PlainIn(op)
  {
    hide Joined;
    if IsFlush(op) {
      hide Output;
      PlainFlush(s, op);
    } else {
      JoinedAtMostOne(Output(s, op), PlainOut);
    }
  }

  /** Over the whole run, flushes included, the deltas, usages, starts and ends that leave are exactly those that
      arrived, in order. */
  lemma {:induction false} PlainNewsIsPassedOn(ops: seq<Op>)
    ensures Joined(AllOutput(ops), PlainOut) == Joined(ops, PlainIn)
  {
    hide Output, After, PlainIn, PlainOut;
    if ops != [] {
      var p, op := ops[..|ops| - 1], ops[|ops| - 1];
      PlainNewsIsPassedOn(p);
      PlainStep(StateAfter(p), op);
      JoinedConcat(AllOutput(p), OutputAt(ops, |p|), PlainOut);
    }
  }

  // ----- what flushes are made of -----

  predicate IsText(d: EventData) {
    d.ContentCompleteData? || d.ThinkingCompleteData?
  }

  /** A flush lets out at most two events, thinking last: at a stop a completed call before it, at the end the
      content before it. */
  lemma FlushShape(s: State, op: Op)
    requires IsFlush(op)
    ensures var out := Output(s, op);
            && |out| <= 2
            && (forall k :: 0 <= k < |out| ==> out[k].ThinkingCompleteData? || if op.Finalize? then
                  out[k].ContentCompleteData? else out[k].ToolCallCompleteData?)
            && (|out| == 2 ==> !out[0].ThinkingCompleteData? && out[1].ThinkingCompleteData?)
  {
  }

  lemma CallsStep(s: State, op: Op)
    requires !IsStop(op)
    ensures Joined(Output(s, op), Calls) == if op.Apply? && op.event.ToolCallComplete? then [op.event.call] else []
  {
    hide Joined;
    if op.Finalize? {
      hide Output;
      FlushParts(s, op, Calls);
    } else {
      JoinedAtMostOne(Output(s, op), Calls);
    }
  }

  /** Calls are completed by stops, or pass through complete; nothing else completes one. */
  lemma CallsComeFromStops(ops: seq<Op>, j: nat)
    requires j < |ops| && !IsStop(ops[j])
    ensures Joined(OutputAt(ops, j), Calls)
         == if ops[j].Apply? && ops[j].event.ToolCallComplete? then [ops[j].event.call] else []
  {
    hide Joined, StateAfter, Output, IsStop;
    CallsStep(StateAfter(ops[..j]), ops[j]);
  }

  // ----- completed texts over a run -----

  function IfAny(text: string): seq<string> {
    if text == "" then [] else [text]
  }

  function ContentDone(d: EventData): seq<string> {
    if d.ContentCompleteData? then [d.content] else []
  }

  function ThinkingDone(d: EventData): seq<string> {
    if d.ThinkingCompleteData? then [d.thinking] else []
  }

  function ContentCompleteIn(op: Op): seq<string> {
    if op.Apply? && op.event.ContentComplete? then [op.event.text] else []
  }

  predicate NeverFinalized(ops: seq<Op>) {
    forall k :: 0 <= k < |ops| ==> ops[k].Apply?
  }

  /** The thinking received since the latest stop. */
  function PendingThinking(ops: seq<Op>): string {
    if ops == [] || IsStop(ops[|ops| - 1]) then ""
    else PendingThinking(ops[..|ops| - 1]) + ThinkingIn(ops[|ops| - 1])
  }

  /** The thinking texts completed so far: those that arrive complete, and at each stop what was pending. */
  function ThinkingShown(ops: seq<Op>): seq<string> {
    if ops == [] then []
    else
      var p, op := ops[..|ops| - 1], ops[|ops| - 1];
      ThinkingShown(p)
      + if IsStop(op) then IfAny(PendingThinking(p))
        else if op.Apply? && op.event.ThinkingComplete? then [op.event.text]
        else []
  }

  lemma DoneStep(s: State, op: Op)
    requires op.Apply?
    ensures Joined(Output(s, op), ContentDone) == ContentCompleteIn(op)
    ensures Joined(Output(s, op), ThinkingDone)
         == if IsStop(op) then IfAny(s.thinking) else if op.event.ThinkingComplete? then [op.event.text] else []
    ensures After(s, op).content == s.content + ContentIn(op)
    ensures After(s, op).thinking == if IsStop(op) then "" else s.thinking + ThinkingIn(op)
  {
    hide Joined;
    if IsStop(op) {
      FlushParts(s, op, ContentDone);
      FlushParts(s, op, ThinkingDone);
    } else {
      JoinedAtMostOne(Output(s, op), ContentDone);
      JoinedAtMostOne(Output(s, op), ThinkingDone);
    }
    assert s.content + "" == s.content && s.thinking + "" == s.thinking;
  }

  lemma EndStep(s: State)
    ensures Joined(Output(s, Finalize), ContentDone) == IfAny(s.content)
    ensures Joined(Output(s, Finalize), ThinkingDone) == IfAny(s.thinking)
    ensures After(s, Finalize).content == "" && After(s, Finalize).thinking == ""
  {
    hide Joined, Output;
    FlushParts(s, Finalize, ContentDone);
    FlushParts(s, Finalize, ThinkingDone);
  }

  /** While the session is not finalised it has completed exactly these texts, and buffers the rest. */
  lemma {:induction false} TextsSoFar(ops: seq<Op>)
    requires NeverFinalized(ops)
    ensures Joined(AllOutput(ops), ContentDone) == Joined(ops, ContentCompleteIn)
    ensures Joined(AllOutput(ops), ThinkingDone) == ThinkingShown(ops)
    ensures StateAfter(ops).content == Joined(ops, ContentIn) && StateAfter(ops).thinking == PendingThinking(ops)
  {
    hide Output, After;
    if ops != [] {
      var p, op := ops[..|ops| - 1], ops[|ops| - 1];
      TextsSoFar(p);
      DoneStep(StateAfter(p), op);
      JoinedConcat(AllOutput(p), OutputAt(ops, |p|), ContentDone);
      JoinedConcat(AllOutput(p), OutputAt(ops, |p|), ThinkingDone);
    } else {
      assert StateAfter(ops) == INITIAL;
    }
  }

  // ----- tool calls completed over a run -----

  /** A stop after `ops` completes the open call, if it has id and name, with everything since its start. */
  lemma StopAtEnd(ops: seq<Op>)
    ensures var calls := Joined(Output(StateAfter(ops), Apply(ContentBlockStop)), Calls);
            && (forall i: nat :: OpenSince(ops, i) ==> calls == if Named(ops[i]) then [CallOf(ops, i, |ops|)] else [])
            && ((forall i: nat :: !OpenSince(ops, i)) ==> calls == [])
  {
    hide Output, After, OpenSince, Joined;
    StopEmitsCall(StateAfter(ops));
    forall i: nat | OpenSince(ops, i)
      ensures i < |ops| && IsStart(ops[i]) && StateAfter(ops).call == Some(Collected(ops, i))
      ensures ops[i + 1..|ops|] == ops[i + 1..]
    {
      OpenCallCollects(ops, i);
      OpenIsStart(ops, i);
    }
    if StateAfter(ops).call.Some? {
      var i := CallIsOpen(ops);
    }
  }

  lemma OpenIsStart(ops: seq<Op>, i: nat)
    requires OpenSince(ops, i)
    ensures i < |ops| && IsStart(ops[i])
  {
  }
}
