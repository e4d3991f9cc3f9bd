/** The accumulator of a streaming session: parsed protocol events in, numbered stream events out. */
module Streaming {
  import opened Text

  datatype ToolCall = ToolCall(id: string, name: string, arguments: string, kind: string)
  datatype TokenUsage = TokenUsage(promptTokens: nat, completionTokens: nat, totalTokens: nat)
  datatype FinishReason = Stopped | Length | ToolCalls | ContentFilter | Other

  datatype ParsedEvent =
    | ContentDelta(text: string)
    | ContentComplete(text: string)
    | ThinkingDelta(text: string)
    | ThinkingComplete(text: string)
    | ToolCallStart(index: nat, id: Option<string>, name: Option<string>)
    | ToolCallDelta(index: nat, delta: string)
    | ToolCallComplete(call: ToolCall)
    | Usage(usage: TokenUsage)
    | ResponseStart(model: string)
    | ResponseComplete(reason: FinishReason)
    | ContentBlockStop

  datatype EventData =
    | ContentDeltaData(delta: string)
    | ContentCompleteData(content: string)
    | ThinkingDeltaData(thinking: string)
    | ThinkingCompleteData(thinking: string)
    | ArgumentDeltaData(id: string, name: string, delta: string)
    | ToolCallCompleteData(call: ToolCall)
    | UsageData(usage: TokenUsage)
    | ResponseStartData(model: string)
    | ResponseCompleteData(reason: FinishReason)

  datatype StreamEvent = StreamEvent(id: string, data: EventData)

  datatype Builder = Builder(index: nat, id: Option<string>, name: Option<string>, arguments: string)

  function Build(b: Builder): Option<ToolCall> {
    if b.id.None? then None
    else if b.name.None? then None
    else Some(ToolCall(b.id.value, b.name.value, b.arguments, "function"))
  }

  function OrEmpty(o: Option<string>): string {
    if o.Some? then o.value else ""
  }

  datatype State = State(content: string, thinking: string, call: Option<Builder>, callIndex: nat, eventId: nat)

  const INITIAL := State("", "", None, 0, 0)

  /** The two ways a session is driven. */
  datatype Op = Apply(event: ParsedEvent) | Finalize

  function FlushedThinking(s: State): seq<EventData> {
    if s.thinking != "" then [ThinkingCompleteData(s.thinking)] else []
  }

  function FlushedContent(s: State): seq<EventData> {
    if s.content != "" then [ContentCompleteData(s.content)] else []
  }

  function FinishedCall(s: State): seq<EventData> {
    if s.call.Some? && Build(s.call.value).Some? then [ToolCallCompleteData(Build(s.call.value).value)] else []
  }

  /** What an operation emits. */
  function Output(s: State, op: Op): seq<EventData> {
    match op
    case Finalize => FlushedContent(s) + FlushedThinking(s)
    case Apply(e) =>
      match e
      case ContentDelta(text) => [ContentDeltaData(text)]
      case ContentComplete(text) => [ContentCompleteData(text)]
      case ThinkingDelta(text) => [ThinkingDeltaData(text)]
      case ThinkingComplete(text) => [ThinkingCompleteData(text)]
      case ToolCallStart(_, _, _) => []
      case ToolCallDelta(_, delta) =>
        if s.call.Some? then [ArgumentDeltaData(OrEmpty(s.call.value.id), OrEmpty(s.call.value.name), delta)] else []
      case ToolCallComplete(call) => [ToolCallCompleteData(call)]
      case Usage(usage) => [UsageData(usage)]
      case ResponseStart(model) => [ResponseStartData(model)]
      case ResponseComplete(reason) => [ResponseCompleteData(reason)]
      case ContentBlockStop => FinishedCall(s) + FlushedThinking(s)
  }

  function Buffered(s: State, op: Op): State {
    match op
    case Finalize => s.(content := "", thinking := "")
    case Apply(e) =>
      match e
      case ContentDelta(text) => s.(content := s.content + text)
      case ThinkingDelta(text) => s.(thinking := s.thinking + text)
      case ToolCallStart(_, id, name) =>
        s.(call := Some(Builder(s.callIndex, id, name, "")), callIndex := s.callIndex + 1)
      case ToolCallDelta(_, delta) =>
        if s.call.Some? then s.(call := Some(s.call.value.(arguments := s.call.value.arguments + delta))) else s
      case ContentBlockStop => s.(call := None, thinking := "")
      case _ => s
  }

  /** What an operation leaves behind. */
  function After(s: State, op: Op): State {
    Buffered(s, op).(eventId := s.eventId + |Output(s, op)|)
  }

  function EventName(n: nat): string {
    "evt_" + Decimal(n)
  }

  /** The data numbered from `n + 1` on. */
  function Numbered(n: nat, data: seq<EventData>): seq<StreamEvent> {
    seq(|data|, i requires 0 <= i < |data| => StreamEvent(EventName(n + 1 + i), data[i]))
  }

  class StreamingSession {
    var contentBuffer: string
    var thinkingBuffer: string
    var currentToolCall: Option<Builder>
    var toolCallIndex: nat
    var eventId: nat

    ghost function Value(): State
      reads this
    {
      State(contentBuffer, thinkingBuffer, currentToolCall, toolCallIndex, eventId)
    }

    constructor ()
      ensures Value() == INITIAL
    {
      contentBuffer := "";
      thinkingBuffer := "";
      currentToolCall := None;
      toolCallIndex := 0;
      eventId := 0;
    }

    method NextId() returns (id: string)
      modifies this`eventId
      ensures eventId == old(eventId) + 1 && id == EventName(eventId)
    {
      eventId := eventId + 1;
      id := EventName(eventId);
    }

    method Emit(data: EventData) returns (event: StreamEvent)
      modifies this`eventId
      ensures eventId == old(eventId) + 1
      ensures [event] == Numbered(old(eventId), [data])
    {
      var id := NextId();
      event := StreamEvent(id, data);
    }

    method ApplyEvent(event: ParsedEvent) returns (events: seq<StreamEvent>)
      modifies this
      ensures Value() == After(old(Value()), Apply(event))
      ensures events == Numbered(old(eventId), Output(old(Value()), Apply(event)))
    {
      events := [];
      match event
      case ContentDelta(text) =>
        contentBuffer := contentBuffer + text;
        var e := Emit(ContentDeltaData(text));
        events := [e];
      case ContentComplete(text) =>
        var e := Emit(ContentCompleteData(text));
        events := [e];
      case ThinkingDelta(text) =>
        thinkingBuffer := thinkingBuffer + text;
        var e := Emit(ThinkingDeltaData(text));
        events := [e];
      case ThinkingComplete(text) =>
        var e := Emit(ThinkingCompleteData(text));
        events := [e];
      case ToolCallStart(_, id, name) =>
        currentToolCall := Some(Builder(toolCallIndex, id, name, ""));
        toolCallIndex := toolCallIndex + 1;
      case ToolCallDelta(_, delta) =>
        if currentToolCall.Some? {
          var builder := currentToolCall.value;
          currentToolCall := Some(builder.(arguments := builder.arguments + delta));
          var e := Emit(ArgumentDeltaData(OrEmpty(builder.id), OrEmpty(builder.name), delta));
          events := [e];
        }
      case ToolCallComplete(call) =>
        var e := Emit(ToolCallCompleteData(call));
        events := [e];
      case Usage(usage) =>
        var e := Emit(UsageData(usage));
        events := [e];
      case ResponseStart(model) =>
        var e := Emit(ResponseStartData(model));
        events := [e];
      case ResponseComplete(reason) =>
        var e := Emit(ResponseCompleteData(reason));
        events := [e];
      case ContentBlockStop =>
        events := StopBlock();
    }

    method StopBlock() returns (events: seq<StreamEvent>)
      modifies this
      ensures Value() == After(old(Value()), Apply(ContentBlockStop))
      ensures events == Numbered(old(eventId), Output(old(Value()), Apply(ContentBlockStop)))
    {
      events := [];
      var pending := currentToolCall;
      currentToolCall := None;
      if pending.Some? {
        var call := Build(pending.value);
        if call.Some? {
          var e := Emit(ToolCallCompleteData(call.value));
          events := events + [e];
        }
      }
      if thinkingBuffer != "" {
        var thinking := thinkingBuffer;
        thinkingBuffer := "";
        var e := Emit(ThinkingCompleteData(thinking));
        events := events + [e];
      }
    }

    method FinalizeSession() returns (events: seq<StreamEvent>)
      modifies this
      ensures Value() == After(old(Value()), Finalize)
      ensures events == Numbered(old(eventId), Output(old(Value()), Finalize))
    {
      events := [];
      if contentBuffer != "" {
        var content := contentBuffer;
        contentBuffer := "";
        var e := Emit(ContentCompleteData(content));
        events := events + [e];
      }
      if thinkingBuffer != "" {
        var thinking := thinkingBuffer;
        thinkingBuffer := "";
        var e := Emit(ThinkingCompleteData(thinking));
        events := events + [e];
      }
    }
  }
}
