/** Conservation and completion over whole runs of a streaming session. */
module StreamingRuns {
  import opened Text
  import opened Streaming

  function StateAfter(ops: seq<Op>): State {
    if ops == [] then INITIAL else After(StateAfter(ops[..|ops| - 1]), ops[|ops| - 1])
  }

  function OutputAt(ops: seq<Op>, j: nat): seq<EventData>
    requires j < |ops|
  {
    Output(StateAfter(ops[..j]), ops[j])
  }

  lemma OneMore(p: seq<Op>, op: Op)
    ensures (p + [op])[..|p|] == p && StateAfter(p + [op]) == After(StateAfter(p), op)
    ensures OutputAt(p + [op], |p|) == Output(StateAfter(p), op)
  {
    assert (p + [op])[..|p|] == p;
  }

  // ----- event ids -----

  function AllOutput(ops: seq<Op>): seq<EventData> {
    if ops == [] then [] else AllOutput(ops[..|ops| - 1]) + OutputAt(ops, |ops| - 1)
  }

  /** The events as the session numbers them, operation by operation. */
  function AllEvents(ops: seq<Op>): seq<StreamEvent> {
    if ops == [] then []
    else AllEvents(ops[..|ops| - 1]) + Numbered(StateAfter(ops[..|ops| - 1]).eventId, OutputAt(ops, |ops| - 1))
  }

  lemma NumberedConcat(a: seq<EventData>, b: seq<EventData>)
    ensures Numbered(0, a) + Numbered(|a|, b) == Numbered(0, a + b)
  {
  }

  /** Over any run the ids are exactly evt_1, evt_2, ... in order. */
  lemma {:induction false} IdsAreConsecutive(ops: seq<Op>)
    ensures StateAfter(ops).eventId == |AllOutput(ops)|
    ensures AllEvents(ops) == Numbered(0, AllOutput(ops))
  {
    if ops != [] {
      var p := ops[..|ops| - 1];
      IdsAreConsecutive(p);
      NumberedConcat(AllOutput(p), OutputAt(ops, |ops| - 1));
    }
  }

  lemma EventNamesDiffer(m: nat, n: nat)
    requires m != n
    ensures EventName(m) != EventName(n)
  {
    if EventName(m) == EventName(n) {
      assert EventName(m)[4..] == Decimal(m) && EventName(n)[4..] == Decimal(n);
      DecimalInjective(m, n);
    }
  }

  /** So the i-th event, counted from zero, is named `evt_` and i + 1 in decimal, and carries the i-th output. */
  lemma IdsAreNumbers(ops: seq<Op>, i: nat)
    requires i < |AllEvents(ops)|
    ensures |AllEvents(ops)| == |AllOutput(ops)|
    ensures AllEvents(ops)[i] == StreamEvent("evt_" + Decimal(i + 1), AllOutput(ops)[i])
    ensures Value(Decimal(i + 1)) == i + 1
  {
    IdsAreConsecutive(ops);
    DecimalRoundTrip(i + 1);
  }

  lemma NumberedIds(data: seq<EventData>, i: nat)
    requires i < |Numbered(0, data)|
    ensures Numbered(0, data)[i].id == EventName(i + 1)
  {
  }

  lemma IdsAreDistinct(ops: seq<Op>, i: nat, j: nat)
    requires i < j < |AllEvents(ops)|
    ensures AllEvents(ops)[i].id != AllEvents(ops)[j].id
  {
    hide AllEvents, AllOutput, EventName, Numbered, StateAfter;
    IdsAreConsecutive(ops);
    NumberedIds(AllOutput(ops), i);
    NumberedIds(AllOutput(ops), j);
    EventNamesDiffer(i + 1, j + 1);
  }

  // ----- conservation of text -----

  function ContentIn(op: Op): string {
    if op.Apply? && op.event.ContentDelta? then op.event.text else ""
  }

  function ThinkingIn(op: Op): string {
    if op.Apply? && op.event.ThinkingDelta? then op.event.text else ""
  }

  predicate IsStop(op: Op) {
    op == Apply(ContentBlockStop)
  }

  /** Aggregates are flushed by block stops and by finalisation. */
  predicate IsFlush(op: Op) {
    op.Finalize? || IsStop(op)
  }

  function Contents(d: EventData): string {
    if d.ContentCompleteData? then d.content else ""
  }

  function Thoughts(d: EventData): string {
    if d.ThinkingCompleteData? then d.thinking else ""
  }

  function Calls(d: EventData): seq<ToolCall> {
    if d.ToolCallCompleteData? then [d.call] else []
  }

  function Arguments(d: EventData): string {
    if d.ArgumentDeltaData? then d.delta else ""
  }

  /** What the flushes of a run carried, joined in order. */
  function Flushed(ops: seq<Op>, pick: EventData -> string): string {
    if ops == [] then ""
    else Flushed(ops[..|ops| - 1], pick)
         + if IsFlush(ops[|ops| - 1]) then Joined(OutputAt(ops, |ops| - 1), pick) else ""
  }

  lemma JoinedTwo<T>(a: seq<EventData>, b: seq<EventData>, pick: EventData -> seq<T>)
    requires |a| <= 1 && |b| <= 1
    ensures Joined(a + b, pick) == (if a == [] then [] else pick(a[0])) + (if b == [] then [] else pick(b[0]))
  {
    JoinedConcat(a, b, pick);
    if a != [] {
      JoinedOne(a[0], pick);
      assert a == [a[0]];
    }
    if b != [] {
      JoinedOne(b[0], pick);
      assert b == [b[0]];
    }
  }

  lemma JoinedAtMostOne<T>(a: seq<EventData>, pick: EventData -> seq<T>)
    requires |a| <= 1
    ensures Joined(a, pick) == if a == [] then [] else pick(a[0])
  {
    if a != [] {
      JoinedOne(a[0], pick);
      assert a == [a[0]];
    }
  }

  lemma FlushParts<T>(s: State, op: Op, pick: EventData -> seq<T>)
    requires IsFlush(op)
    ensures var head := if op.Finalize? then FlushedContent(s) else FinishedCall(s);
            var tail := FlushedThinking(s);
            Joined(Output(s, op), pick)
            == (if head == [] then [] else pick(head[0])) + (if tail == [] then [] else pick(tail[0]))
  {
    JoinedTwo(if op.Finalize? then FlushedContent(s) else FinishedCall(s), FlushedThinking(s), pick);
  }

  /** A flush carries the whole buffer. */
  lemma FlushCarriesBuffer(s: State, op: Op)
    requires IsFlush(op)
    ensures Joined(Output(s, op), Contents) == (if op.Finalize? then s.content else "")
    ensures Joined(Output(s, op), Thoughts) == s.thinking
    ensures Joined(Output(s, op), Arguments) == ""
  {
    hide Joined, Output;
    FlushParts(s, op, Contents);
    FlushParts(s, op, Thoughts);
    FlushParts(s, op, Arguments);
  }

  /** No flush is empty. */
  lemma FlushesAreNotEmpty(s: State, op: Op, d: EventData)
    requires IsFlush(op) && d in Output(s, op)
    ensures d.ContentCompleteData? ==> d.content != ""
    ensures d.ThinkingCompleteData? ==> d.thinking != ""
  {
    assert d in FlushedContent(s) || d in FlushedThinking(s) || d in FinishedCall(s);
  }

  lemma TextStep(s: State, op: Op)
    ensures (if IsFlush(op) then Joined(Output(s, op), Contents) else "") + After(s, op).content
         == s.content + ContentIn(op)
    ensures (if IsFlush(op) then Joined(Output(s, op), Thoughts) else "") + After(s, op).thinking
         == s.thinking + ThinkingIn(op)
  {
    if IsFlush(op) {
      FlushCarriesBuffer(s, op);
    }
  }

  lemma Rebracket(a: string, f: string, after: string, before: string, x: string)
    requires f + after == before + x
    ensures (a + f) + after == (a + before) + x
  {
    assert (a + f) + after == a + (f + after);
  }

  /** At every moment, what was flushed plus what is buffered is every delta received so far. */
  lemma {:induction false} TextIsConserved(ops: seq<Op>)
    ensures Flushed(ops, Contents) + StateAfter(ops).content == Joined(ops, ContentIn)
    ensures Flushed(ops, Thoughts) + StateAfter(ops).thinking == Joined(ops, ThinkingIn)
  {
    if ops != [] {
      var p, op := ops[..|ops| - 1], ops[|ops| - 1];
      TextIsConserved(p);
      var s, out := StateAfter(p), OutputAt(ops, |ops| - 1);
      TextStep(s, op);
      Rebracket(Flushed(p, Contents), if IsFlush(op) then Joined(out, Contents) else "",
                StateAfter(ops).content, s.content, ContentIn(op));
      Rebracket(Flushed(p, Thoughts), if IsFlush(op) then Joined(out, Thoughts) else "",
                StateAfter(ops).thinking, s.thinking, ThinkingIn(op));
    }
  }

  /** After a finalisation the flushes are exactly the deltas, and another one emits nothing. */
  lemma FinalizeFlushesEverything(ops: seq<Op>)
    ensures var done := ops + [Finalize];
            && Flushed(done, Contents) == Joined(ops, ContentIn) && Flushed(done, Thoughts) == Joined(ops, ThinkingIn)
            && Output(StateAfter(done), Finalize) == []
  {
    OneMore(ops, Finalize);
    TextIsConserved(ops);
    FlushCarriesBuffer(StateAfter(ops), Finalize);
  }

  // ----- tool calls -----

  predicate IsStart(op: Op) {
    op.Apply? && op.event.ToolCallStart?
  }

  predicate IsBoundary(op: Op) {
    IsStart(op) || IsStop(op)
  }

  predicate Named(op: Op) {
    IsStart(op) && op.event.id.Some? && op.event.name.Some?
  }

  /** The call started at `i` is still open after all of `ops`. */
  predicate OpenSince(ops: seq<Op>, i: nat) {
    i < |ops| && IsStart(ops[i]) && forall k :: i < k < |ops| ==> !IsBoundary(ops[k])
  }

  /** The stop at `j` is the first boundary after the start at `i`. */
  predicate Spans(ops: seq<Op>, i: nat, j: nat) {
    j < |ops| && IsStop(ops[j]) && OpenSince(ops[..j], i)
  }

  function Starts(op: Op): seq<Op> {
    if IsStart(op) then [op] else []
  }

  function ArgumentsIn(op: Op): string {
    if op.Apply? && op.event.ToolCallDelta? then op.event.delta else ""
  }

  lemma {:induction false} IndexCountsStarts(ops: seq<Op>)
    ensures StateAfter(ops).callIndex == |Joined(ops, Starts)|
  {
    if ops != [] {
      IndexCountsStarts(ops[..|ops| - 1]);
    }
  }

  /** The builder of the call started at `i`: its index, its names and the argument deltas since. */
  function Collected(ops: seq<Op>, i: nat): Builder
    requires i < |ops| && IsStart(ops[i])
  {
    Builder(|Joined(ops[..i], Starts)|, ops[i].event.id, ops[i].event.name, Joined(ops[i + 1..], ArgumentsIn))
  }

  lemma CollectedStep(ops: seq<Op>, i: nat)
    requires i < |ops| - 1 && IsStart(ops[i])
    ensures var b := Collected(ops[..|ops| - 1], i);
            Collected(ops, i) == b.(arguments := b.arguments + ArgumentsIn(ops[|ops| - 1]))
  {
    var p := ops[..|ops| - 1];
    assert p[..i] == ops[..i];
    assert ops[i + 1..][..|ops| - i - 2] == p[i + 1..];
  }

  lemma OpenCallStep(s: State, op: Op)
    requires s.call.Some? && !IsBoundary(op)
    ensures After(s, op).call == Some(s.call.value.(arguments := s.call.value.arguments + ArgumentsIn(op)))
    ensures Joined(Output(s, op), Arguments) == ArgumentsIn(op)
  {
    assert s.call.value.arguments + "" == s.call.value.arguments;
    if op.Finalize? {
      FlushCarriesBuffer(s, op);
    } else if |Output(s, op)| == 1 {
      assert Output(s, op) == [Output(s, op)[0]];
      JoinedOne(Output(s, op)[0], Arguments);
    }
  }

  /** An open call has collected exactly the argument deltas since its start. */
  lemma {:induction false} OpenCallCollects(ops: seq<Op>, i: nat)
    requires OpenSince(ops, i)
    ensures StateAfter(ops).call == Some(Collected(ops, i))
  {
    var p, op := ops[..|ops| - 1], ops[|ops| - 1];
    if i == |ops| - 1 {
      IndexCountsStarts(p);
      assert ops[i + 1..] == [];
    } else {
      OpenCallCollects(p, i);
      OpenCallStep(StateAfter(p), op);
      CollectedStep(ops, i);
    }
  }

  lemma OpenStays(s: State, op: Op)
    requires After(s, op).call.Some?
    ensures IsStart(op) || (s.call.Some? && !IsBoundary(op))
  {
    hide Output;
  }

  lemma {:induction false} CallIsOpen(ops: seq<Op>) returns (i: nat)
    requires StateAfter(ops).call.Some?
    ensures OpenSince(ops, i)
  {
    hide After;
    var p, op := ops[..|ops| - 1], ops[|ops| - 1];
    OpenStays(StateAfter(p), op);
    if IsStart(op) {
      i := |ops| - 1;
    } else {
      i := CallIsOpen(p);
    }
  }

  function CallOf(ops: seq<Op>, i: nat, j: nat): ToolCall
    requires i < j <= |ops| && Named(ops[i])
  {
    ToolCall(ops[i].event.id.value, ops[i].event.name.value, Joined(ops[i + 1..j], ArgumentsIn), "function")
  }

  lemma StopEmitsCall(s: State)
    ensures Joined(Output(s, Apply(ContentBlockStop)), Calls) ==
            if s.call.Some? && Build(s.call.value).Some? then [Build(s.call.value).value] else []
  {
    JoinedTwo(FinishedCall(s), FlushedThinking(s), Calls);
  }

  /** A block stop completes the call whose first boundary it is, with its id, its name and the deltas between. */
  lemma StopCompletesCall(ops: seq<Op>, i: nat, j: nat)
    requires Spans(ops, i, j)
    ensures Joined(OutputAt(ops, j), Calls) == if Named(ops[i]) then [CallOf(ops, i, j)] else []
  {
    var p := ops[..j];
    StopEmitsCall(StateAfter(p));
    OpenCallCollects(p, i);
    assert p[i + 1..] == ops[i + 1..j];
  }

  /** A block stop with no open call before it completes nothing. */
  lemma StopWithoutCall(ops: seq<Op>, j: nat)
    requires j < |ops| && IsStop(ops[j]) && forall i: nat :: !Spans(ops, i, j)
    ensures Joined(OutputAt(ops, j), Calls) == []
  {
    var p := ops[..j];
    StopEmitsCall(StateAfter(p));
    if StateAfter(p).call.Some? {
      var i := CallIsOpen(p);
      assert Spans(ops, i, j);
    }
  }

  /** A started call is completed at most once, and a stop completes at most one call. */
  lemma SpansAreUnique(ops: seq<Op>, i: nat, j: nat, i': nat, j': nat)
    requires Spans(ops, i, j) && Spans(ops, i', j')
    ensures i == i' <==> j == j'
  {
    assert ops[..j][i] == ops[i] && ops[..j'][i'] == ops[i'];
    if i == i' && j < j' {
      assert IsBoundary(ops[..j'][j]);
    } else if i == i' && j' < j {
      assert IsBoundary(ops[..j][j']);
    } else if j == j' && i < i' {
      assert IsBoundary(ops[..j][i']);
    } else if j == j' && i' < i {
      assert IsBoundary(ops[..j][i]);
    }
  }

  /** An argument delta is passed on, under the open call's id and name, exactly while a call is open. */
  lemma DeltaEmittedWhileOpen(ops: seq<Op>, delta: string, index: nat)
    ensures var out := Output(StateAfter(ops), Apply(ToolCallDelta(index, delta)));
            && (forall i: nat :: OpenSince(ops, i) ==>
                  var id, name := ops[i].event.id, ops[i].event.name;
                  out == [ArgumentDeltaData(if id.Some? then id.value else "",
                                            if name.Some? then name.value else "", delta)])
            && ((forall i: nat :: !OpenSince(ops, i)) ==> out == [])
  {
    forall i: nat | OpenSince(ops, i)
      ensures StateAfter(ops).call == Some(Collected(ops, i))
    {
      OpenCallCollects(ops, i);
    }
    if StateAfter(ops).call.Some? {
      var i := CallIsOpen(ops);
    }
  }

  /** The argument deltas emitted after position `i`, joined. */
  function ArgumentsEmitted(ops: seq<Op>, i: nat): string {
    if |ops| <= i + 1 then ""
    else ArgumentsEmitted(ops[..|ops| - 1], i) + Joined(OutputAt(ops, |ops| - 1), Arguments)
  }

  /** What a completed call reports as arguments is what was emitted as deltas since its start. */
  lemma {:induction false} EmittedArgumentsAgree(ops: seq<Op>, i: nat)
    requires OpenSince(ops, i)
    ensures ArgumentsEmitted(ops, i) == Collected(ops, i).arguments
  {
    if i < |ops| - 1 {
      var p, op := ops[..|ops| - 1], ops[|ops| - 1];
      EmittedArgumentsAgree(p, i);
      OpenCallCollects(p, i);
      OpenCallStep(StateAfter(p), op);
      CollectedStep(ops, i);
    } else {
      assert ops[i + 1..] == [];
    }
  }

  // ----- deltas meant for another call -----

  /** The deltas of one index only. */
  function ArgumentsFor(index: nat): Op -> string {
    (op: Op) => if op.Apply? && op.event.ToolCallDelta? && op.event.index == index then op.event.delta else ""
  }

  /** A delta with text, of another index. */
  predicate IsForeign(op: Op, index: nat) {
    op.Apply? && op.event.ToolCallDelta? && op.event.index != index && op.event.delta != ""
  }

  predicate NoForeign(ops: seq<Op>, index: nat) {
    forall k :: 0 <= k < |ops| ==> !IsForeign(ops[k], index)
  }

  lemma NoForeignAppend(p: seq<Op>, op: Op, index: nat)
    ensures NoForeign(p + [op], index) <==> NoForeign(p, index) && !IsForeign(op, index)
  {
    var ops := p + [op];
    assert ops[|p|] == op && forall k :: 0 <= k < |p| ==> ops[k] == p[k];
    if NoForeign(ops, index) {
      forall k | 0 <= k < |p| ensures !IsForeign(p[k], index) {
        assert !IsForeign(ops[k], index);
      }
    }
  }

  lemma {:induction false} OwnDeltasIff(ops: seq<Op>, index: nat)
    ensures |Joined(ops, ArgumentsFor(index))| <= |Joined(ops, ArgumentsIn)|
    ensures Joined(ops, ArgumentsIn) == Joined(ops, ArgumentsFor(index)) <==> NoForeign(ops, index)
    ensures !NoForeign(ops, index) ==> |Joined(ops, ArgumentsFor(index))| < |Joined(ops, ArgumentsIn)|
  {
    hide NoForeign, IsForeign;
    if ops == [] {
      NothingForeign(index);
    } else {
      var p, op := ops[..|ops| - 1], ops[|ops| - 1];
      OwnDeltasIff(p, index);
      assert ops == p + [op];
      NoForeignAppend(p, op, index);
      LastDelta(op, index);
    }
  }

  lemma NothingForeign(index: nat)
    ensures NoForeign([], index)
  {
  }

  lemma LastDelta(op: Op, index: nat)
    ensures |ArgumentsFor(index)(op)| <= |ArgumentsIn(op)|
    ensures !IsForeign(op, index) ==> ArgumentsFor(index)(op) == ArgumentsIn(op)
    ensures IsForeign(op, index) ==> |ArgumentsFor(index)(op)| < |ArgumentsIn(op)|
  {
  }

  /** The index of a delta is ignored: a completed call's arguments are those of its own index exactly when no
      text of another index comes between its start and its stop. */
  lemma OwnArgumentsIff(ops: seq<Op>, i: nat, j: nat)
    requires Spans(ops, i, j) && Named(ops[i])
    ensures var index := ops[i].event.index;
            && Joined(OutputAt(ops, j), Calls) == [CallOf(ops, i, j)]
            && (CallOf(ops, i, j).arguments == Joined(ops[i + 1..j], ArgumentsFor(index))
                <==> NoForeign(ops[i + 1..j], index))
  {
    StopCompletesCall(ops, i, j);
    OwnDeltasIff(ops[i + 1..j], ops[i].event.index);
  }

  /** A delta of index 1 joins the open call of index 0. */
  lemma ForeignDeltaJoins(a: string)
    ensures var ops := [Apply(ToolCallStart(0, Some(a), Some(a))), Apply(ToolCallDelta(1, "x")),
                        Apply(ContentBlockStop)];
            Joined(OutputAt(ops, 2), Calls) == [ToolCall(a, a, "x", "function")]
  {
    var ops := [Apply(ToolCallStart(0, Some(a), Some(a))), Apply(ToolCallDelta(1, "x")), Apply(ContentBlockStop)];
    assert ops[..2][0] == ops[0] && ops[..2][1] == ops[1];
    assert Spans(ops, 0, 2);
    StopCompletesCall(ops, 0, 2);
    assert ops[1..2] == [ops[1]];
    JoinedOne(ops[1], ArgumentsIn);
  }
}
