/** The metrics plugin: timing correlations over interleaved runs, one lock region at a time. */
module Metrics {
  import opened Text

  /** Who and what a record is about: agent name and type ("unknown" without a definition) and model. */
  datatype Labels = Labels(agent: string, agentType: string, model: string)

  datatype CallKey = CallKey(agent: string, run: string, iteration: nat)
  datatype RunKey = RunKey(agent: string, run: string)

  /** Something started and not yet finished. */
  datatype Open<K> = Open(key: K, since: nat)

  datatype Outcome = Succeeded | Failed | Skipped

  datatype RunStatus = Completed | Aborted

  datatype TokenKind = Input | Output | Total

  datatype Usage = Usage(prompt: nat, completion: nat, total: nat)

  /** What is reported to the instruments, with its labels. */
  datatype Record =
    | RunCounted(agent: string, agentType: string, status: RunStatus)
    | RunDuration(agent: string, agentType: string, since: nat, now: nat)
    | FirstTokenTime(model: string, agent: string, since: nat, now: nat)
    | ToolCounted(agent: string, agentType: string, tool: string, outcome: Outcome)
    | ToolDuration(agent: string, agentType: string, tool: string, ms: nat)
    | TokensUsed(model: string, kind: TokenKind, agent: string, count: nat)
    | CallErrorCounted(model: string, agent: string)

  datatype State = State(
    calls: seq<Open<CallKey>>, tools: seq<Open<string>>, measured: set<CallKey>, runs: seq<Open<RunKey>>)

  const EMPTY := State([], [], {}, [])

  /** One locked region each; completing a run takes two, so other events may come in between. */
  datatype Step =
    | RunStart(run: RunKey, now: nat)
    | CallStart(call: CallKey, now: nat)
    | FirstToken(call: CallKey, model: string, now: nat)
    | CallComplete(call: CallKey, model: string, usage: Option<Usage>)
    | CallError(call: CallKey, model: string)
    | ToolBegin(tool: string, now: nat)
    | ToolEnd(tool: string, name: string, outcome: Outcome, duration: Option<nat>, labels: Labels)
    | RunRecord(run: RunKey, agentType: string, status: RunStatus, now: nat)
    | Cleanup

  /** `rposition`: the last index with the key. */
  function LastIndex<K(==)>(s: seq<Open<K>>, key: K): (r: Option<nat>)
    ensures r.Some? ==> r.value < |s| && s[r.value].key == key && forall i :: r.value < i < |s| ==> s[i].key != key
    ensures r.None? ==> forall i :: 0 <= i < |s| ==> s[i].key != key
  {
    if s == [] then None
    else if s[|s| - 1].key == key then Some(|s| - 1)
    else LastIndex(s[..|s| - 1], key)
  }

  function RemoveAt<K>(s: seq<Open<K>>, i: nat): seq<Open<K>>
    requires i < |s|
  {
    s[..i] + s[i + 1..]
  }

  function RemoveLatest<K(==)>(s: seq<Open<K>>, key: K): seq<Open<K>> {
    match LastIndex(s, key)
    case None => s
    case Some(i) => RemoveAt(s, i)
  }

  function Without<K(==)>(s: seq<Open<K>>, key: K): seq<Open<K>> {
    if s == [] then []
    else Without(s[..|s| - 1], key) + if s[|s| - 1].key == key then [] else [s[|s| - 1]]
  }

  function Next(st: State, step: Step): State {
    match step
    case RunStart(run, now) => st.(runs := st.runs + [Open(run, now)])
    case CallStart(call, now) => st.(calls := st.calls + [Open(call, now)])
    case FirstToken(call, _, _) =>
      if call in st.measured || LastIndex(st.calls, call).None? then st
      else st.(calls := RemoveLatest(st.calls, call), measured := st.measured + {call})
    case CallComplete(call, _, _) => st.(calls := Without(st.calls, call))
    case CallError(call, _) => st.(calls := Without(st.calls, call))
    case ToolBegin(tool, now) => st.(tools := st.tools + [Open(tool, now)])
    case ToolEnd(tool, _, _, _, _) => st.(tools := RemoveLatest(st.tools, tool))
    case RunRecord(run, _, _, _) => st.(runs := RemoveLatest(st.runs, run))
    case Cleanup => EMPTY
  }

  function Recorded(st: State, step: Step): seq<Record> {
    match step
    case FirstToken(call, model, now) =>
      var i := LastIndex(st.calls, call);
      if call in st.measured || i.None? then []
      else [FirstTokenTime(model, call.agent, st.calls[i.value].since, now)]
    case CallComplete(call, model, Some(usage)) =>
      [TokensUsed(model, Input, call.agent, usage.prompt), TokensUsed(model, Output, call.agent, usage.completion),
       TokensUsed(model, Total, call.agent, usage.total)]
    case CallError(call, model) => [CallErrorCounted(model, call.agent)]
    case ToolEnd(_, name, outcome, duration, labels) =>
      [ToolCounted(labels.agent, labels.agentType, name, outcome),
       ToolDuration(labels.agent, labels.agentType, name, if duration.Some? then duration.value else 0)]
    case RunRecord(run, agentType, status, now) =>
      var i := LastIndex(st.runs, run);
      [RunCounted(run.agent, agentType, status)]
      + if i.None? then [] else [RunDuration(run.agent, agentType, st.runs[i.value].since, now)]
    case _ => []
  }

  datatype Event =
    | AgentStart | LlmCallStart(iteration: nat) | ThinkingStart | ContentStart
    | LlmCallComplete(model: string, usage: Option<Usage>) | LlmCallError | ToolCallBegin(tool: string)
    | ToolCallEnded(tool: string, name: string, outcome: Outcome, duration: Option<nat>)
    | AgentComplete | AgentAborted | OtherEvent

  /** The run an event belongs to. */
  datatype Context = Context(labels: Labels, run: string, iteration: nat)

  function StepsOf(e: Event, ctx: Context, now: nat): seq<Step> {
    var agent := ctx.labels.agent;
    var run, current := RunKey(agent, ctx.run), CallKey(agent, ctx.run, ctx.iteration);
    match e
    case AgentStart => [RunStart(run, now)]
    case LlmCallStart(iteration) => [CallStart(CallKey(agent, ctx.run, iteration), now)]
    case ThinkingStart => [FirstToken(current, ctx.labels.model, now)]
    case ContentStart => [FirstToken(current, ctx.labels.model, now)]
    case LlmCallComplete(model, usage) => [CallComplete(current, model, usage)]
    case LlmCallError => [CallError(current, ctx.labels.model)]
    case ToolCallBegin(tool) => [ToolBegin(tool, now)]
    case ToolCallEnded(tool, name, outcome, duration) => [ToolEnd(tool, name, outcome, duration, ctx.labels)]
    case AgentComplete => [RunRecord(run, ctx.labels.agentType, Completed, now), Cleanup]
    case AgentAborted => [RunRecord(run, ctx.labels.agentType, Aborted, now), Cleanup]
    case OtherEvent => []
  }

  // ----- traces -----

  /** A trace is the list of its steps, latest last. */
  datatype Trace = Begin | Then(prev: Trace, step: Step)

  function Reached(t: Trace): State {
    match t
    case Begin => EMPTY
    case Then(p, s) => Next(Reached(p), s)
  }

  /** Everything a trace reports. */
  function Reported(t: Trace): seq<Record> {
    match t
    case Begin => []
    case Then(p, s) => Reported(p) + Recorded(Reached(p), s)
  }

  function Continued(t: Trace, steps: seq<Step>): Trace {
    if steps == [] then t else Then(Continued(t, steps[..|steps| - 1]), steps[|steps| - 1])
  }

  /** The plugin's lists, behind their lock. Each method but `Listen` is one locked region; regions of different
      events come in any order, and `trace` records them. */
  class MetricsState {
    var llmCallStarts: seq<Open<CallKey>>
    var toolCallStarts: seq<Open<string>>
    var ttftMeasured: set<CallKey>
    var runStarts: seq<Open<RunKey>>
    var records: seq<Record>
    ghost var trace: Trace

    ghost function Value(): State
      reads this
    {
      State(llmCallStarts, toolCallStarts, ttftMeasured, runStarts)
    }

    /** The lists are where the trace leads, and the instruments were told what it reports. */
    ghost predicate Valid()
      reads this
    {
      Value() == Reached(trace) && records == Reported(trace)
    }

    constructor ()
      ensures Valid() && trace == Begin
    {
      llmCallStarts, toolCallStarts, ttftMeasured, runStarts := [], [], {}, [];
      records, trace := [], Begin;
    }

    method StartRun(run: RunKey, now: nat)
      requires Valid()
      modifies this
      ensures Valid() && trace == Then(old(trace), RunStart(run, now))
    {
      trace := Then(trace, RunStart(run, now));
      runStarts := runStarts + [Open(run, now)];
    }

    method StartCall(call: CallKey, now: nat)
      requires Valid()
      modifies this
      ensures Valid() && trace == Then(old(trace), CallStart(call, now))
    {
      trace := Then(trace, CallStart(call, now));
      llmCallStarts := llmCallStarts + [Open(call, now)];
    }

    method HandleFirstToken(key: CallKey, model: string, now: nat)
      requires Valid()
      modifies this
      ensures Valid() && trace == Then(old(trace), FirstToken(key, model, now))
    {
      trace := Then(trace, FirstToken(key, model, now));
      if key in ttftMeasured {
        return;
      }
      var pos := LastIndex(llmCallStarts, key);
      if pos.Some? {
        var start := llmCallStarts[pos.value].since;
        llmCallStarts := RemoveAt(llmCallStarts, pos.value);
        ttftMeasured := ttftMeasured + {key};
        records := records + [FirstTokenTime(model, key.agent, start, now)];
      }
    }

    /** `retain`: drops every start with the key. */
    method RetainOthers(key: CallKey)
      modifies this`llmCallStarts
      ensures llmCallStarts == Without(old(llmCallStarts), key)
    {
      var kept: seq<Open<CallKey>> := [];
      for i := 0 to |llmCallStarts|
        invariant llmCallStarts == old(llmCallStarts)
        invariant kept == Without(llmCallStarts[..i], key)
      {
        assert llmCallStarts[..i + 1][..i] == llmCallStarts[..i];
        if llmCallStarts[i].key != key {
          kept := kept + [llmCallStarts[i]];
        }
      }
      assert llmCallStarts[..|llmCallStarts|] == llmCallStarts;
      llmCallStarts := kept;
    }

    method HandleCallComplete(key: CallKey, model: string, usage: Option<Usage>)
      requires Valid()
      modifies this
      ensures Valid() && trace == Then(old(trace), CallComplete(key, model, usage))
    {
      trace := Then(trace, CallComplete(key, model, usage));
      RetainOthers(key);
      if usage.Some? {
        var used := usage.value;
        records := records + [TokensUsed(model, Input, key.agent, used.prompt),
                              TokensUsed(model, Output, key.agent, used.completion),
                              TokensUsed(model, Total, key.agent, used.total)];
      }
    }

    method HandleCallError(key: CallKey, model: string)
      requires Valid()
      modifies this
      ensures Valid() && trace == Then(old(trace), CallError(key, model))
    {
      trace := Then(trace, CallError(key, model));
      RetainOthers(key);
      records := records + [CallErrorCounted(model, key.agent)];
    }

    method BeginTool(tool: string, now: nat)
      requires Valid()
      modifies this
      ensures Valid() && trace == Then(old(trace), ToolBegin(tool, now))
    {
      trace := Then(trace, ToolBegin(tool, now));
      toolCallStarts := toolCallStarts + [Open(tool, now)];
    }

    method HandleToolEnd(tool: string, name: string, outcome: Outcome, duration: Option<nat>, labels: Labels)
      requires Valid()
      modifies this
      ensures Valid() && trace == Then(old(trace), ToolEnd(tool, name, outcome, duration, labels))
    {
      trace := Then(trace, ToolEnd(tool, name, outcome, duration, labels));
      var ms := if duration.Some? then duration.value else 0;
      records := records + [ToolCounted(labels.agent, labels.agentType, name, outcome),
                            ToolDuration(labels.agent, labels.agentType, name, ms)];
      var pos := LastIndex(toolCallStarts, tool);
      if pos.Some? {
        toolCallStarts := RemoveAt(toolCallStarts, pos.value);
      }
    }

    method RecordRun(run: RunKey, agentType: string, status: RunStatus, now: nat)
      requires Valid()
      modifies this
      ensures Valid() && trace == Then(old(trace), RunRecord(run, agentType, status, now))
    {
      trace := Then(trace, RunRecord(run, agentType, status, now));
      ghost var reported := records;
      records := records + [RunCounted(run.agent, agentType, status)];
      var pos := LastIndex(runStarts, run);
      if pos.Some? {
        var start := runStarts[pos.value].since;
        runStarts := RemoveAt(runStarts, pos.value);
        records := records + [RunDuration(run.agent, agentType, start, now)];
      }
      assert records == reported + Recorded(Reached(old(trace)), RunRecord(run, agentType, status, now));
    }

    method CleanUp()
      requires Valid()
      modifies this
      ensures Valid() && trace == Then(old(trace), Cleanup)
    {
      trace := Then(trace, Cleanup);
      llmCallStarts := [];
      toolCallStarts := [];
      ttftMeasured := {};
      runStarts := [];
    }

    /** One event, when no other comes in between: its locked regions in order. */
    method Listen(e: Event, ctx: Context, now: nat)
      requires Valid()
      modifies this
      ensures Valid() && trace == Continued(old(trace), StepsOf(e, ctx, now))
    {
      hide Valid, Reached, Reported, Next, Recorded;
      var run := RunKey(ctx.labels.agent, ctx.run);
      var current := CallKey(ctx.labels.agent, ctx.run, ctx.iteration);
      ContinuedShort(trace, StepsOf(e, ctx, now));
      match e
      case AgentStart => StartRun(run, now);
      case LlmCallStart(iteration) => StartCall(CallKey(ctx.labels.agent, ctx.run, iteration), now);
      case ThinkingStart => HandleFirstToken(current, ctx.labels.model, now);
      case ContentStart => HandleFirstToken(current, ctx.labels.model, now);
      case LlmCallComplete(model, usage) => HandleCallComplete(current, model, usage);
      case LlmCallError => HandleCallError(current, ctx.labels.model);
      case ToolCallBegin(tool) => BeginTool(tool, now);
      case ToolCallEnded(tool, name, outcome, duration) => HandleToolEnd(tool, name, outcome, duration, ctx.labels);
      case AgentComplete =>
        RecordRun(run, ctx.labels.agentType, Completed, now);
        CleanUp();
      case AgentAborted =>
        RecordRun(run, ctx.labels.agentType, Aborted, now);
        CleanUp();
      case OtherEvent =>
    }
  }

  lemma ContinuedShort(t: Trace, steps: seq<Step>)
    ensures |steps| == 0 ==> Continued(t, steps) == t
    ensures |steps| == 1 ==> Continued(t, steps) == Then(t, steps[0])
    ensures |steps| == 2 ==> Continued(t, steps) == Then(Then(t, steps[0]), steps[1])
  {
    if |steps| == 2 {
      var first := steps[..1];
      assert first[..0] == [];
      assert Continued(t, first) == Then(t, steps[0]);
    }
  }
}
