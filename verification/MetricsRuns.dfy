/** What the metrics plugin reports over any interleaving of runs, read off the steps alone. */
module MetricsRuns {
  import opened Text
  import opened Metrics

  function DropLast<T>(s: seq<T>): seq<T> {
    if s == [] then [] else s[..|s| - 1]
  }

  /** The start times of the runs of one key still open: starts push, records pop, a cleanup forgets all. */
  function OpenRuns(t: Trace, run: RunKey): seq<nat> {
    match t
    case Begin => []
    case Then(p, s) =>
      var open := OpenRuns(p, run);
      match s
      case RunStart(r, now) => if r == run then open + [now] else open
      case RunRecord(r, _, _, _) => if r == run then DropLast(open) else open
      case Cleanup => []
      case _ => open
  }

  function OpenTools(t: Trace, tool: string): seq<nat> {
    match t
    case Begin => []
    case Then(p, s) =>
      var open := OpenTools(p, tool);
      match s
      case ToolBegin(x, now) => if x == tool then open + [now] else open
      case ToolEnd(x, _, _, _, _) => if x == tool then DropLast(open) else open
      case Cleanup => []
      case _ => open
  }

  /** The key's first token was already reported since the last cleanup. */
  predicate Measured(t: Trace, call: CallKey) {
    match t
    case Begin => false
    case Then(p, s) =>
      !s.Cleanup? && (Measured(p, call) || (s.FirstToken? && s.call == call && PendingCalls(p, call) != []))
  }

  /** The start times of calls of one key that neither ended nor produced a first token. */
  function PendingCalls(t: Trace, call: CallKey): seq<nat> {
    match t
    case Begin => []
    case Then(p, s) =>
      var open := PendingCalls(p, call);
      match s
      case CallStart(c, now) => if c == call then open + [now] else open
      case FirstToken(c, _, _) => if c == call && !Measured(p, call) then DropLast(open) else open
      case CallComplete(c, _, _) => if c == call then [] else open
      case CallError(c, _) => if c == call then [] else open
      case Cleanup => []
      case _ => open
  }

  // ----- the plugin's lists are these stacks -----

  function SinceIf<K(==)>(key: K): Open<K> -> seq<nat> {
    (o: Open<K>) => if o.key == key then [o.since] else []
  }

  /** The start times filed under one key, in order. */
  function Filed<K(==)>(s: seq<Open<K>>, key: K): seq<nat> {
    Joined(s, SinceIf(key))
  }

  lemma FiledAppend<K>(s: seq<Open<K>>, o: Open<K>, key: K)
    ensures Filed(s + [o], key) == Filed(s, key) + if o.key == key then [o.since] else []
  {
    assert (s + [o])[..|s|] == s;
  }

  lemma {:induction false} FiledNone<K>(s: seq<Open<K>>, key: K)
    requires forall i :: 0 <= i < |s| ==> s[i].key != key
    ensures Filed(s, key) == []
  {
    if s != [] {
      FiledNone(s[..|s| - 1], key);
    }
  }

  lemma {:induction false} FiledWithout<K>(s: seq<Open<K>>, gone: K, key: K)
    ensures Filed(Without(s, gone), key) == if key == gone then [] else Filed(s, key)
    decreases |s|
  {
    hide Filed;
    if s == [] {
      FiledNone(s, key);
    } else {
      var p, last := s[..|s| - 1], s[|s| - 1];
      FiledWithout(p, gone, key);
      assert s == p + [last];
      FiledAppend(p, last, key);
      FiledAppend(Without(p, gone), last, key);
      assert Without(p, gone) + [] == Without(p, gone);
    }
  }

  lemma FiledParts<K>(before: seq<Open<K>>, o: Open<K>, after: seq<Open<K>>, key: K)
    ensures Filed(before + [o] + after, key)
         == Filed(before, key) + (if o.key == key then [o.since] else []) + Filed(after, key)
    ensures Filed(before + after, key) == Filed(before, key) + Filed(after, key)
  {
    FiledAppend(before, o, key);
    JoinedConcat(before + [o], after, SinceIf(key));
    JoinedConcat(before, after, SinceIf(key));
  }

  lemma PopLatest<K>(before: seq<Open<K>>, o: Open<K>, after: seq<Open<K>>)
    requires forall i :: 0 <= i < |after| ==> after[i].key != o.key
    ensures Filed(before + [o] + after, o.key) == Filed(before, o.key) + [o.since]
    ensures Filed(before + after, o.key) == Filed(before, o.key)
  {
    hide Filed;
    FiledParts(before, o, after, o.key);
    FiledNone(after, o.key);
  }

  lemma SkipOther<K>(before: seq<Open<K>>, o: Open<K>, after: seq<Open<K>>, key: K)
    requires o.key != key
    ensures Filed(before + after, key) == Filed(before + [o] + after, key)
  {
    hide Filed;
    FiledParts(before, o, after, key);
    assert Filed(before, key) + [] == Filed(before, key);
  }

  /** Removing the latest entry of one key pops that key's stack and leaves the others alone. */
  lemma FiledRemove<K>(s: seq<Open<K>>, i: nat, key: K)
    requires i < |s| && LastIndex(s, s[i].key) == Some(i)
    ensures s[i].key == key ==> Filed(s, key) != [] && Filed(s, key)[|Filed(s, key)| - 1] == s[i].since
    ensures Filed(RemoveAt(s, i), key) == if s[i].key == key then DropLast(Filed(s, key)) else Filed(s, key)
  {
    hide Filed, LastIndex;
    assert s == s[..i] + [s[i]] + s[i + 1..];
    if s[i].key == key {
      PopLatest(s[..i], s[i], s[i + 1..]);
    } else {
      SkipOther(s[..i], s[i], s[i + 1..], key);
    }
  }

  /** Looking for the latest entry finds the top of the key's stack. */
  lemma LatestIsTop<K>(s: seq<Open<K>>, key: K)
    ensures LastIndex(s, key).None? <==> Filed(s, key) == []
    ensures LastIndex(s, key).Some? ==>
              s[LastIndex(s, key).value].since == Filed(s, key)[|Filed(s, key)| - 1]
    ensures Filed(RemoveLatest(s, key), key) == DropLast(Filed(s, key))
  {
    match LastIndex(s, key)
    case None => FiledNone(s, key);
    case Some(i) => FiledRemove(s, i, key);
  }

  lemma RemoveLeavesOthers<K>(s: seq<Open<K>>, gone: K, key: K)
    requires key != gone
    ensures Filed(RemoveLatest(s, gone), key) == Filed(s, key)
  {
    match LastIndex(s, gone)
    case None =>
    case Some(i) => FiledRemove(s, i, key);
  }

  lemma RunsStep(st: State, s: Step, run: RunKey)
    ensures Filed(Next(st, s).runs, run) ==
            match s
            case RunStart(r, now) => if r == run then Filed(st.runs, run) + [now] else Filed(st.runs, run)
            case RunRecord(r, _, _, _) => if r == run then DropLast(Filed(st.runs, run)) else Filed(st.runs, run)
            case Cleanup => []
            case _ => Filed(st.runs, run)
  {
    match s
    case RunStart(r, now) => FiledAppend(st.runs, Open(r, now), run);
    case RunRecord(r, _, _, _) =>
      if r == run {
        LatestIsTop(st.runs, run);
      } else {
        RemoveLeavesOthers(st.runs, r, run);
      }
    case _ =>
  }

  lemma {:induction false} RunsAreStacks(t: Trace, run: RunKey)
    ensures Filed(Reached(t).runs, run) == OpenRuns(t, run)
  {
    match t
    case Begin =>
    case Then(p, s) =>
      RunsAreStacks(p, run);
      RunsStep(Reached(p), s, run);
  }

  lemma ToolsStep(st: State, s: Step, tool: string)
    ensures Filed(Next(st, s).tools, tool) ==
            match s
            case ToolBegin(x, now) => if x == tool then Filed(st.tools, tool) + [now] else Filed(st.tools, tool)
            case ToolEnd(x, _, _, _, _) => if x == tool then DropLast(Filed(st.tools, tool)) else Filed(st.tools, tool)
            case Cleanup => []
            case _ => Filed(st.tools, tool)
  {
    match s
    case ToolBegin(x, now) => FiledAppend(st.tools, Open(x, now), tool);
    case ToolEnd(x, _, _, _, _) =>
      if x == tool {
        LatestIsTop(st.tools, tool);
      } else {
        RemoveLeavesOthers(st.tools, x, tool);
      }
    case _ =>
  }

  /** The open tool starts are, tool by tool, the begins minus the matched ends since the last cleanup. */
  lemma {:induction false} ToolsAreStacks(t: Trace, tool: string)
    ensures Filed(Reached(t).tools, tool) == OpenTools(t, tool)
  {
    match t
    case Begin =>
    case Then(p, s) =>
      ToolsAreStacks(p, tool);
      ToolsStep(Reached(p), s, tool);
  }

  lemma CallsStep(st: State, s: Step, call: CallKey)
    ensures Filed(Next(st, s).calls, call) ==
            match s
            case CallStart(c, now) => if c == call then Filed(st.calls, call) + [now] else Filed(st.calls, call)
            case FirstToken(c, _, _) =>
              if c == call && call !in st.measured then DropLast(Filed(st.calls, call)) else Filed(st.calls, call)
            case CallComplete(c, _, _) => if c == call then [] else Filed(st.calls, call)
            case CallError(c, _) => if c == call then [] else Filed(st.calls, call)
            case Cleanup => []
            case _ => Filed(st.calls, call)
    ensures call in Next(st, s).measured <==>
              !s.Cleanup? && (call in st.measured || (s.FirstToken? && s.call == call && Filed(st.calls, call) != []))
  {
    match s
    case CallStart(c, now) => FiledAppend(st.calls, Open(c, now), call);
    case FirstToken(c, _, _) =>
      LatestIsTop(st.calls, call);
      if c != call {
        RemoveLeavesOthers(st.calls, c, call);
      }
    case CallComplete(c, _, _) => FiledWithout(st.calls, c, call);
    case CallError(c, _) => FiledWithout(st.calls, c, call);
    case _ =>
  }

  lemma {:induction false} CallsAreStacks(t: Trace, call: CallKey)
    ensures Filed(Reached(t).calls, call) == PendingCalls(t, call)
    ensures call in Reached(t).measured <==> Measured(t, call)
  {
    match t
    case Begin =>
    case Then(p, s) =>
      CallsAreStacks(p, call);
      CallsStep(Reached(p), s, call);
  }

  // ----- first-token times -----

  /** A first token is reported exactly when the key is unmeasured and a call is pending; it times the latest one. */
  lemma FirstTokenReported(t: Trace, call: CallKey, model: string, now: nat)
    ensures var pending := PendingCalls(t, call);
            Recorded(Reached(t), FirstToken(call, model, now)) ==
            if Measured(t, call) || pending == [] then []
            else [FirstTokenTime(model, call.agent, pending[|pending| - 1], now)]
  {
    CallsAreStacks(t, call);
    LatestIsTop(Reached(t).calls, call);
  }

  function CallStarts(t: Trace, call: CallKey): nat {
    match t
    case Begin => 0
    case Then(p, s) => CallStarts(p, call) + if s.CallStart? && s.call == call then 1 else 0
  }

  /** First-token reports for the key over the whole trace. */
  function Reports(t: Trace, call: CallKey): nat {
    match t
    case Begin => 0
    case Then(p, s) =>
      Reports(p, call) + if s.FirstToken? && s.call == call then |Recorded(Reached(p), s)| else 0
  }

  function ReportsSinceCleanup(t: Trace, call: CallKey): nat {
    match t
    case Begin => 0
    case Then(p, s) =>
      if s.Cleanup? then 0
      else ReportsSinceCleanup(p, call) + if s.FirstToken? && s.call == call then |Recorded(Reached(p), s)| else 0
  }

  /** Reports never exceed the key's call starts, pending calls included, and there is at most one between cleanups. */
  lemma {:induction false} ReportsAreBounded(t: Trace, call: CallKey)
    ensures Reports(t, call) + |PendingCalls(t, call)| <= CallStarts(t, call)
    ensures ReportsSinceCleanup(t, call) == if Measured(t, call) then 1 else 0
  {
    match t
    case Begin =>
    case Then(p, s) =>
      ReportsAreBounded(p, call);
      if s.FirstToken? && s.call == call {
        FirstTokenReported(p, call, s.model, s.now);
      }
  }

  // ----- run durations -----

  /** A run's end is always counted, and its duration reported exactly when the run is open; it times the latest
      start. */
  lemma RunRecorded(t: Trace, run: RunKey, agentType: string, status: RunStatus, now: nat)
    ensures var open := OpenRuns(t, run);
            Recorded(Reached(t), RunRecord(run, agentType, status, now)) ==
            [RunCounted(run.agent, agentType, status)]
            + if open == [] then [] else [RunDuration(run.agent, agentType, open[|open| - 1], now)]
  {
    RunsAreStacks(t, run);
    LatestIsTop(Reached(t).runs, run);
  }

  /** `t` extends `p` by steps that neither start nor record this run. */
  predicate Undisturbed(p: Trace, t: Trace, run: RunKey) {
    t == p
    || (t.Then? && Undisturbed(p, t.prev, run)
        && !(t.step.RunStart? && t.step.run == run) && !(t.step.RunRecord? && t.step.run == run))
  }

  /** A cleanup, the end of some run, came after `p`. */
  predicate CleanedSince(p: Trace, t: Trace) {
    t != p && t.Then? && (t.step.Cleanup? || CleanedSince(p, t.prev))
  }

  lemma {:induction false} OpenWhileUncleaned(p: Trace, t: Trace, run: RunKey)
    requires Undisturbed(p, t, run)
    ensures OpenRuns(t, run) == if CleanedSince(p, t) then [] else OpenRuns(p, run)
  {
    if t != p {
      OpenWhileUncleaned(p, t.prev, run);
    }
  }

  /** A run started and ended once yields its duration exactly when no cleanup came in between;
      then it is timed from its own start. */
  lemma DurationReportedIff(p: Trace, run: RunKey, start: nat, t: Trace, agentType: string, status: RunStatus, now: nat)
    requires Undisturbed(Then(p, RunStart(run, start)), t, run)
    ensures Recorded(Reached(t), RunRecord(run, agentType, status, now)) ==
            [RunCounted(run.agent, agentType, status)]
            + if CleanedSince(Then(p, RunStart(run, start)), t) then []
              else [RunDuration(run.agent, agentType, start, now)]
  {
    RunRecorded(t, run, agentType, status, now);
    OpenWhileUncleaned(Then(p, RunStart(run, start)), t, run);
  }

  /** Two runs at once: when the second one ends first, the duration of the first is lost. */
  lemma OverlappingRunLosesDuration(a: RunKey, b: RunKey, agentType: string, status: RunStatus)
    requires a != b
    ensures var t := Then(Then(Then(Then(Begin, RunStart(a, 1)), RunStart(b, 2)),
                               RunRecord(b, agentType, status, 3)), Cleanup);
            Recorded(Reached(t), RunRecord(a, agentType, status, 4)) == [RunCounted(a.agent, agentType, status)]
  {
    var p := Then(Begin, RunStart(a, 1));
    var t1 := Then(p, RunStart(b, 2));
    var t2 := Then(t1, RunRecord(b, agentType, status, 3));
    assert Undisturbed(p, t1, a) && Undisturbed(p, t2, a);
    DurationReportedIff(Begin, a, 1, Then(t2, Cleanup), agentType, status, 4);
  }

  // ----- the plugin -----

  /** In every state of the plugin: its lists are the stacks of its trace, a measured key was reported once since
      the last cleanup, and first-token reports never exceed the calls started. */
  lemma PluginAlways(m: MetricsState, call: CallKey, tool: string, run: RunKey)
    requires m.Valid()
    ensures Filed(m.toolCallStarts, tool) == OpenTools(m.trace, tool)
    ensures Filed(m.runStarts, run) == OpenRuns(m.trace, run)
    ensures Reports(m.trace, call) + |Filed(m.llmCallStarts, call)| <= CallStarts(m.trace, call)
    ensures ReportsSinceCleanup(m.trace, call) == if call in m.ttftMeasured then 1 else 0
  {
    hide Reached, Reported, OpenTools, OpenRuns, CallStarts, Reports, ReportsSinceCleanup;
    ToolsAreStacks(m.trace, tool);
    RunsAreStacks(m.trace, run);
    CallsAreStacks(m.trace, call);
    ReportsAreBounded(m.trace, call);
  }

  /** What the plugin has reported when a run just ended that started once and ended only now. */
  lemma PluginTimesRun(m: MetricsState, p: Trace, run: RunKey, start: nat, t: Trace,
                       agentType: string, status: RunStatus, now: nat)
    requires m.Valid() && m.trace == Then(t, RunRecord(run, agentType, status, now))
    requires Undisturbed(Then(p, RunStart(run, start)), t, run)
    ensures m.records == Reported(t) + [RunCounted(run.agent, agentType, status)]
                         + if CleanedSince(Then(p, RunStart(run, start)), t) then []
                           else [RunDuration(run.agent, agentType, start, now)]
  {
    hide Reached, Recorded;
    DurationReportedIff(p, run, start, t, agentType, status, now);
  }

  // ----- events -----

  /** What an event does, told by what is open and what was reported before it and after it. */
  predicate Happened(t: Trace, t': Trace, e: Event, ctx: Context, now: nat) {
    var agent, kind, model := ctx.labels.agent, ctx.labels.agentType, ctx.labels.model;
    var run, call := RunKey(agent, ctx.run), CallKey(agent, ctx.run, ctx.iteration);
    match e
    case AgentStart => OpenRuns(t', run) == OpenRuns(t, run) + [now] && Reported(t') == Reported(t)
    case LlmCallStart(iteration) =>
      && PendingCalls(t', call.(iteration := iteration)) == PendingCalls(t, call.(iteration := iteration)) + [now]
      && Reported(t') == Reported(t)
    case ThinkingStart => TimesFirstToken(t, t', call, model, now)
    case ContentStart => TimesFirstToken(t, t', call, model, now)
    case LlmCallComplete(used, usage) =>
      && PendingCalls(t', call) == []
      && (usage.None? ==> Reported(t') == Reported(t))
      && (usage.Some? ==>
            Reported(t') == Reported(t) + [TokensUsed(used, Input, agent, usage.value.prompt),
                                           TokensUsed(used, Output, agent, usage.value.completion),
                                           TokensUsed(used, Total, agent, usage.value.total)])
    case LlmCallError =>
      PendingCalls(t', call) == [] && Reported(t') == Reported(t) + [CallErrorCounted(model, agent)]
    case ToolCallBegin(tool) => OpenTools(t', tool) == OpenTools(t, tool) + [now] && Reported(t') == Reported(t)
    case ToolCallEnded(tool, name, outcome, duration) =>
      && OpenTools(t', tool) == DropLast(OpenTools(t, tool))
      && Reported(t') == Reported(t)
           + [ToolCounted(agent, kind, name, outcome),
              ToolDuration(agent, kind, name, if duration.Some? then duration.value else 0)]
    case AgentComplete => EndsRun(t, t', run, kind, Completed, now)
    case AgentAborted => EndsRun(t, t', run, kind, Aborted, now)
    case OtherEvent => t' == t
  }

  /** Every event has its effect when none comes in between. */
  lemma EventsDo(t: Trace, e: Event, ctx: Context, now: nat)
    ensures Happened(t, Continued(t, StepsOf(e, ctx, now)), e, ctx, now)
  {
    var steps := StepsOf(e, ctx, now);
    var call := CallKey(ctx.labels.agent, ctx.run, ctx.iteration);
    ContinuedShort(t, steps);
    assert Reported(t) + [] == Reported(t);
    match e
    case ThinkingStart => FirstTokenReported(t, call, ctx.labels.model, now);
    case ContentStart => FirstTokenReported(t, call, ctx.labels.model, now);
    case AgentComplete => EndReports(t, RunKey(ctx.labels.agent, ctx.run), ctx.labels.agentType, Completed, now);
    case AgentAborted => EndReports(t, RunKey(ctx.labels.agent, ctx.run), ctx.labels.agentType, Aborted, now);
    case _ =>
  }

  /** A first token of an unmeasured key ends its latest pending call and reports the time since then. */
  predicate TimesFirstToken(t: Trace, t': Trace, call: CallKey, model: string, now: nat) {
    var pending := PendingCalls(t, call);
    if Measured(t, call) || pending == [] then Reported(t') == Reported(t)
    else
      && Measured(t', call) && PendingCalls(t', call) == DropLast(pending)
      && Reported(t') == Reported(t) + [FirstTokenTime(model, call.agent, pending[|pending| - 1], now)]
  }

  /** The end of a run is counted and timed from its latest start, if there is one; then everything is forgotten. */
  predicate EndsRun(t: Trace, t': Trace, run: RunKey, agentType: string, status: RunStatus, now: nat) {
    var open := OpenRuns(t, run);
    && Reached(t') == EMPTY
    && Reported(t') == Reported(t) + [RunCounted(run.agent, agentType, status)]
                       + if open == [] then [] else [RunDuration(run.agent, agentType, open[|open| - 1], now)]
  }

  lemma EndReports(t: Trace, run: RunKey, agentType: string, status: RunStatus, now: nat)
    ensures EndsRun(t, Then(Then(t, RunRecord(run, agentType, status, now)), Cleanup), run, agentType, status, now)
  {
    RunRecorded(t, run, agentType, status, now);
    var ended := Then(t, RunRecord(run, agentType, status, now));
    assert Reported(Then(ended, Cleanup)) == Reported(ended) + [];
  }
}
