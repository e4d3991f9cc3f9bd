# Verified model of the vol agent runtime

This project models, in Dafny 4.11, the parts of the `vol` repository that keep state, scan text or run a
protocol, and proves what they keep over every input and every run. `dafny verify dfyconfig.toml` checks all of it.

| files | component |
|---|---|
| `ServerNames`, `McpServer`, `McpRuns`, `McpHistory`, `McpWorkers`, `McpManager` | MCP connection lifecycle: name canonicalisation, the locked regions on one server, every interleaving of foreground connects and reconnect workers, what one worker may do, the whole manager |
| `Streaming`, `StreamingRuns`, `StreamingOutput`, `SsePipeline`, `SseResponses` | streaming session, its conservation laws, the byte-chunk pipeline of both providers, and what a receiver gets |
| `ContextBuilder` | zones, stable order and budget-driven dropping |
| `Interpolation`, `InterpolationLaws` | `{{env.VAR}}` substitution |
| `CommandText` | shell quoting and output truncation |
| `Connector`, `ConnectorLaws` | data-plane connector over any network behaviour |
| `Metrics`, `MetricsRuns` | timing correlations of the metrics plugin |
| `Frontmatter` | frontmatter splitting and printing |
| `Dispatch` | sub-agent depth guard |
| `Text`, `Utf8` | leftmost search, decimal numbers, white space; well-formed UTF-8 (section 4 of RFC 3629) |

How it is modelled. Code that updates fields or runs loops is a class method or a method with loop invariants, each
tied by its `ensures` to a specification function; the laws are lemmas about those functions. Concurrent code is a
step machine: one write-locked region is one atomic step, what the network answers is part of the step, and a run is
any list of enabled steps. The classes `McpManager.Manager` and `Metrics.MetricsState` carry their run as a ghost
field which every method extends by exactly its steps, so that the theorems about runs hold of every object. A caller
may give up `disconnect_server` or `reconnect` while it closes the service; that is a step of its own. Network,
clocks, processes, JSON and YAML are parameters: a parser is any function from a line to an optional event, a YAML
codec any pair of functions, `char::is_alphanumeric` any predicate that agrees with ASCII on ASCII, the connector's
network any script of answers.

What the proofs say about the code that a reader may not expect:

- A service runs until the token its connect was given is cancelled. A connected server may have no live service,
  exactly when a manual reconnect, or a closing that its caller gave up, took it since the latest discovery, or when
  after the connect or worker's turn that led to it another turn, a disconnect or a manual reconnect cancelled the
  token before a later connect or turn replaced it (`McpRuns.ConnectedWithoutServiceIff`). So a retry worker cuts off
  a connection that succeeded while it waited for its turn (`McpWorkers.TurnCutsService`), and a disconnect one that
  is still being set up, which is listed all the same (`McpRuns.LateConnectIsCut`).
- `disconnect_server` does not stop every worker. Provided that a cancelled worker looks before its delay runs out, it
  silences one for good exactly when that worker has ended, or sleeps and either was cancelled before or saw no
  connect begin since its latest turn. A worker at the top of its loop, past its delay or in an attempt goes on.
  Without the proviso only an ended worker is sure to be silent, since the timer and the cancellation are waited for
  without priority (`McpWorkers.DisconnectStopsIff`). An orphaned sleeper can connect the server again in any case
  (`McpWorkers.OrphanReconnects`).
- With `max_retries` above one a worker makes at most `(max_retries - 1) * (1 + resets)` attempts, because the failure
  that spawned it, and the first failure after each reset, use one up. The bound is attained for every number of resets.
- `sanitize_name` keeps every Unicode letter, while its comment promises `[a-zA-Z0-9_-]`; the comment holds exactly when
  the kept characters are ASCII (`ServerNames.AsciiOutputIff`), so not for a server named `é`. The code is followed.
- A filtered manager finds a server by its configured name only if that name is already canonical: not one configured
  as `my server` (`McpManager.SpacedNameIsNotFound`).
- A chunk border inside a character ends the stream with an error; all other borders are harmless
  (`SsePipeline.ChunkingIsHarmlessIff`). A last line without a newline is dropped.
- With no block stops in an OpenAI stream only the last started tool call is ever completed, and only if it has id and
  name (`SsePipeline.OnlyLastCallIsClosed`).
- The index of an argument delta is ignored: text of another call joins the open one
  (`StreamingRuns.OwnArgumentsIff`).
- Interpolation leaves an input alone for every environment exactly when it has no escape and no `env` placeholder.
- Printing and parsing a document again adds one newline before the body each time, exactly when the YAML is free of
  fence lines (`Frontmatter.PrintThenSplitIff`).
- A run's duration is lost exactly when some other run's end cleaned up in between (`MetricsRuns.DurationReportedIff`).

## Model

| member | source | states |
|---|---|---|
| ServerNames.SanitizeName | crates/vol-llm-mcp/src/session.rs:16-43 | the one-pass scan with its underscore flag computes the canonical form: runs of other characters collapse to one underscore, a trailing one is stripped, nothing left becomes "unknown" |
| ServerNames.SanitizedIsCanonical | crates/vol-llm-mcp/src/session.rs:15-43 | every output is non-empty, uses only allowed characters, has no double and no trailing underscore; the canonical names are exactly the fixed points; the function is idempotent |
| ServerNames.SanitizedKeepsLetters | crates/vol-llm-mcp/src/session.rs:19-41 | letters, digits and dashes survive in order; "unknown" comes out exactly of names without any |
| ServerNames.PlainNamesStay | crates/vol-llm-mcp/src/session.rs:19-41 | names of letters, digits and dashes stay as they are; only these and underscores come out |
| ServerNames.AsciiOutputIff | crates/vol-llm-mcp/src/session.rs:15-20 | the documented alphabet is met exactly when every kept character of the input is ASCII |
| ServerNames.AccentedNameIsNotAscii | crates/vol-llm-mcp/src/session.rs:15-20 | a server named `é` keeps a character outside the documented alphabet |
| McpServer.BackoffMonotone | crates/vol-llm-mcp/src/manager.rs:993-997 | delays grow with the retry count, never exceed the maximum and never fall below the capped minimum |
| McpServer.BackoffDoubles | crates/vol-llm-mcp/src/manager.rs:993-997 | the first delay is the minimum and each doubles the one before, up to the maximum |
| McpServer.MissingFileIsDisplayed | crates/vol-llm-mcp/src/error.rs:14-18 | a connection failure whose detail says that a file is missing says so in its text |
| McpServer.ServerNameIsDisplayed | crates/vol-llm-mcp/src/error.rs:14-18 | so does every failure of a server whose name contains the phrase, and is never retried |
| McpServer.FilterListsRestriction | crates/vol-llm-mcp/src/manager.rs:125-156 | a filtered view lists exactly the restriction to the named servers; no filter lists all; a held lock lists nothing |
| McpServer.FilteredViewLifecycle | crates/vol-llm-mcp/src/manager.rs:45-63 | a filtered copy keeps the lifecycle invariant, and has cached capabilities without a live service exactly when the server had cached any |
| McpServer.DisplayIsNotExhaustion | crates/vol-llm-mcp/src/error.rs:14-18 | no connection error reads like the retries-exhausted status |
| McpRuns.LifecycleAlways | crates/vol-llm-mcp/src/manager.rs:260-451 | in every interleaving: connected implies a zero retry count, disconnected implies no service and empty caches, retries exhausted implies empty caches; cached capabilities have no live service exactly when since their discovery a caller gave up closing it, or its token was cut |
| McpRuns.ListingIsLatestDiscovery | crates/vol-llm-mcp/src/manager.rs:281-302 | at every moment a server lists exactly its latest discovery, or nothing if any connect, failure, disconnect or reconnect came since |
| McpRuns.NothingListedAfterDisconnect | crates/vol-llm-mcp/src/manager.rs:786-805 | after a disconnect nothing is listed until a later successful discovery |
| McpHistory.ServerByHistory | crates/vol-llm-mcp/src/manager.rs:260-451 | in every run a server's status, retry counter, service and caches are read off its steps: the counter is the failures since the latest reset, where a missing file does not count |
| McpHistory.TurnSleepsByFailures | crates/vol-llm-mcp/src/manager.rs:354-370 | a worker's turn lets it sleep on the token it installs, for the delay of the failures counted so far |
| McpRuns.ConnectedWithoutServiceIff | crates/vol-llm-mcp/src/manager.rs:828-847 | a connected server has no live service exactly when a manual reconnect or a dropped closing took it since the latest success, or its token was cut |
| McpRuns.ServiceTraced | crates/vol-llm-mcp/src/manager.rs:271-280 | the service in the slot runs on the token that the connect, or the worker's turn, of the latest discovery installed |
| McpRuns.ServiceCutIff | crates/vol-llm-mcp/src/manager.rs:362-366 | that token is cancelled exactly when, after the connect or turn that installed it, a turn, a disconnect or a manual reconnect came before any later connect or turn |
| McpRuns.LateConnectIsCut | crates/vol-llm-mcp/src/manager.rs:786-792 | a concrete run in which a disconnect cuts off a service that a connect in flight then stores and lists |
| McpWorkers.TurnCutsService | crates/vol-llm-mcp/src/manager.rs:362-366 | a concrete run in which a worker's turn cuts off the service that a connect found meanwhile |
| McpRuns.ConnectedNeedNotBeLive | crates/vol-llm-mcp/src/manager.rs:837-847 | a concrete run in which a connected server has no service |
| McpRuns.DroppedDisconnectIsStale | crates/vol-llm-mcp/src/manager.rs:794-801 | a concrete run in which a disconnect given up half-way leaves a connected server that lists what it cannot serve |
| McpWorkers.AttemptsBounded | crates/vol-llm-mcp/src/manager.rs:352-441 | a worker starts at most (max_retries - 1) * (1 + R) attempts, R counting the resets of the counter during its life, whatever else uses the counter; at most one, and only after a reset, when max_retries is one; none when it is zero |
| McpWorkers.AttemptsBoundTight | crates/vol-llm-mcp/src/manager.rs:318-334 | for every limit, every number R of resets and every retryable error a run with R resets attains that bound |
| McpWorkers.SleepIsBounded | crates/vol-llm-mcp/src/manager.rs:359-374 | every delay slept belongs to a retry count below the limit and lies between the first and the largest backoff |
| McpWorkers.LiveSleeperToken | crates/vol-llm-mcp/src/manager.rs:364-367 | an uncancelled sleeping worker holds the server's current token unless a foreground connect replaced it |
| McpWorkers.DisconnectStopsIff | crates/vol-llm-mcp/src/manager.rs:371-374 | whatever happens after a disconnect, a worker in any phase never acts again exactly when it had ended, or slept and was cancelled before or saw no connect begin since its latest turn, if its delay does not run out once it is cancelled; over all runs, exactly when it had ended |
| McpWorkers.SilencedSleeperEnds | crates/vol-llm-mcp/src/manager.rs:371-374 | a sleeper that the disconnect silences can end by its cancelled token |
| McpWorkers.DisconnectEndsAttemptsIff | crates/vol-llm-mcp/src/manager.rs:371-381 | with or without that proviso, it starts no further attempt exactly when it is silenced, or when the retry limit leaves it none |
| McpWorkers.OrphanReconnects | crates/vol-llm-mcp/src/manager.rs:270-272 | after a disconnect any orphaned sleeping worker can connect the server again, live, and have it list what it found |
| McpWorkers.OrphansExist | crates/vol-llm-mcp/src/manager.rs:270-272 | a concrete run with such a worker |
| McpManager.Manager.constructor | crates/vol-llm-mcp/src/manager.rs:99-110 | the table holds one fresh state for each canonical name, at the start of its history |
| McpManager.Manager.StartConnect | crates/vol-llm-mcp/src/manager.rs:260-278 | takes exactly the step that marks the server connecting under a new token; an unknown name changes nothing |
| McpManager.Manager.StoreConnectError | crates/vol-llm-mcp/src/manager.rs:304-336 | a text that says a file is missing, as every connection failure with such a detail does, spawns no worker and changes the status alone; any other text counts one failure and spawns exactly one worker, at the top of its loop |
| McpManager.Manager.WorkerTurn | crates/vol-llm-mcp/src/manager.rs:354-368 | gives up at the limit, else puts the worker to sleep on the new token |
| McpManager.Manager.StoreAttemptFailure | crates/vol-llm-mcp/src/manager.rs:406-438 | takes exactly the failure step of the worker, which ends or returns to the top as reported |
| McpManager.Manager.RunRound | crates/vol-llm-mcp/src/manager.rs:353-441 | one uninterrupted round of the worker loop: turn, sleep, attempt, and whether the worker ends |
| McpManager.Manager.ConnectServer | crates/vol-llm-mcp/src/manager.rs:260-340 | without interruption a success is stored whole, on the token of this connect; a refusal keeps the service and counts, unless a file is missing, up to the limit |
| McpManager.Manager.RunWorker | crates/vol-llm-mcp/src/manager.rs:352-441 | uninterrupted, the worker tries until the first success, which the server then lists, or until exactly the attempts the counter left are used up, and then exhausts the server; other servers are untouched |
| McpManager.Manager.DisconnectServer | crates/vol-llm-mcp/src/manager.rs:786-805 | takes exactly the disconnect step, or the dropped one; an unknown name is an error and changes nothing |
| McpManager.Manager.StartReconnect | crates/vol-llm-mcp/src/manager.rs:828-845 | takes exactly the step that cancels, takes the service of a connected server and resets the counter |
| McpManager.Manager.ReconnectAll | crates/vol-llm-mcp/src/manager.rs:238-258 | retries exactly the servers that are not connected, each with a fresh counter |
| McpManager.RetriedConnects | crates/vol-llm-mcp/src/manager.rs:238-258 | afterwards a server is connected exactly when it was or its connect found something; connected ones are untouched, the others answered with a fresh counter |
| McpManager.Manager.Reconnect | crates/vol-llm-mcp/src/manager.rs:828-863 | without interruption succeeds exactly when the connect does, and otherwise reports the display text, or the exhausted one when a single failure reaches the limit |
| McpManager.Manager.ReadReconnect | crates/vol-llm-mcp/src/manager.rs:849-863 | reports the status found, whoever stored it: success exactly when connected, each other status with its text |
| McpManager.Manager.ListAllTools | crates/vol-llm-mcp/src/manager.rs:453-465 | lists exactly the tools of each server's latest discovery in the manager's history |
| McpManager.ServersAreIndependent | crates/vol-llm-mcp/src/manager.rs:229-258 | in any run of the manager each server is where its own steps alone would take it |
| McpManager.ManagerAlways | crates/vol-llm-mcp/src/manager.rs:96-110 | in every state of a manager object: canonical keys, every server's lifecycle, listings equal to the latest discoveries, every worker within its attempts |
| McpManager.FilterByConfiguredNameIff | crates/vol-llm-mcp/src/manager.rs:132-136 | filtering by a configured name finds the server, in any state of the manager, exactly when the name is canonical |
| McpManager.SpacedNameIsNotFound | crates/vol-llm-mcp/src/manager.rs:132-136 | a server configured as `my server` is not found by that name |
| Streaming.StreamingSession.ApplyEvent | crates/vol-llm-core/src/streaming.rs:82-199 | the emitted events with their ids and the whole new session state, for every parsed event; `StreamingOutput` says over runs what these are |
| Streaming.StreamingSession.StopBlock | crates/vol-llm-core/src/streaming.rs:169-189 | a block stop emits the pending call if it can be built, then the buffered thinking, and clears both |
| Streaming.StreamingSession.FinalizeSession | crates/vol-llm-core/src/streaming.rs:220-240 | emits buffered content, then buffered thinking, and clears both |
| StreamingRuns.IdsAreConsecutive | crates/vol-llm-core/src/streaming.rs:76-79 | over any run the ids are exactly evt_1 to evt_n in order |
| StreamingRuns.IdsAreNumbers | crates/vol-llm-core/src/streaming.rs:76-79 | the i-th event is named `evt_` and its number in decimal, and carries the i-th output |
| StreamingRuns.IdsAreDistinct | crates/vol-llm-core/src/streaming.rs:76-79 | no two events of a run share an id |
| StreamingRuns.TextIsConserved | crates/vol-llm-core/src/streaming.rs:84-117 | at every moment content and thinking flushed so far, followed by what is buffered, are exactly the deltas received |
| StreamingRuns.FinalizeFlushesEverything | crates/vol-llm-core/src/streaming.rs:220-240 | after finalisation the flushes equal all deltas, and a second finalisation emits nothing |
| StreamingRuns.FlushesAreNotEmpty | crates/vol-llm-core/src/streaming.rs:181-187 | no flush is empty |
| StreamingOutput.NewsIsPassedOn | crates/vol-llm-core/src/streaming.rs:84-117 | between the flushes every delta, completed text, completed call, usage, start and end that arrives leaves exactly once, in order and as what it is |
| StreamingOutput.PlainNewsIsPassedOn | crates/vol-llm-core/src/streaming.rs:84-117 | over the whole run, flushes included, the deltas, usages, starts and ends that leave are exactly those that arrived, in order |
| StreamingOutput.FlushShape | crates/vol-llm-core/src/streaming.rs:169-240 | a flush lets out at most two events: at a stop the completed call before the thinking, at the end the content before the thinking |
| StreamingOutput.CallsComeFromStops | crates/vol-llm-core/src/streaming.rs:169-179 | only a block stop completes a call; one that arrives complete passes through |
| StreamingOutput.TextsSoFar | crates/vol-llm-core/src/streaming.rs:181-187 | before finalisation the completed contents are those that arrived complete, the completed thinkings those and, at each stop, what was pending; the rest is buffered |
| StreamingOutput.StopAtEnd | crates/vol-llm-core/src/streaming.rs:169-179 | a stop completes the open call, if it has id and name, with everything since its start |
| StreamingRuns.OpenCallCollects | crates/vol-llm-core/src/streaming.rs:118-144 | an open call has its start's id and name, the number of earlier starts as index, and the argument deltas since its start |
| StreamingRuns.StopCompletesCall | crates/vol-llm-core/src/streaming.rs:169-179 | a stop completes the call whose next boundary it is, with the deltas in between, iff that call has id and name |
| StreamingRuns.StopWithoutCall | crates/vol-llm-core/src/streaming.rs:172-179 | a stop with no open call completes none |
| StreamingRuns.SpansAreUnique | crates/vol-llm-core/src/streaming.rs:118-127 | a call is completed at most once and a stop completes at most one call |
| StreamingRuns.DeltaEmittedWhileOpen | crates/vol-llm-core/src/streaming.rs:128-144 | an argument delta is emitted, under the open call's id and name, exactly while a call is open |
| StreamingRuns.EmittedArgumentsAgree | crates/vol-llm-core/src/streaming.rs:251-258 | a call's arguments are the concatenation of the deltas emitted since its start |
| StreamingRuns.OwnArgumentsIff | crates/vol-llm-core/src/streaming.rs:128-130 | a completed call's arguments are the deltas of its own index exactly when no text of another index comes between its start and its stop |
| StreamingRuns.ForeignDeltaJoins | crates/vol-llm-core/src/streaming.rs:128-130 | a concrete run in which a delta of index 1 becomes the arguments of the call with index 0 |
| SsePipeline.LinesRebuild | crates/vol-llm-provider/src/anthropic.rs:605-608 | consumed lines and buffer rebuild the input |
| SsePipeline.NewlinesEndLines | crates/vol-llm-provider/src/anthropic.rs:606-608 | neither a line nor the remaining buffer contains a newline |
| SsePipeline.LinesOfConcat | crates/vol-llm-provider/src/anthropic.rs:603-608 | carrying the buffer over a cut gives the lines of the uncut text |
| SsePipeline.ResponseIsWholeText | crates/vol-llm-provider/src/openai.rs:601-673 | the incremental loop on text chunks puts out what batch processing of all complete lines does |
| SsePipeline.ChunkInvariance | crates/vol-llm-provider/src/anthropic.rs:587-645 | any split into text chunks puts out what the single chunk does |
| SsePipeline.ChunkingIsHarmlessIff | crates/vol-llm-provider/src/anthropic.rs:594-601 | splitting the bytes of a text anywhere is harmless exactly when every cut is at a character boundary |
| SsePipeline.SplitLetterBreaks | crates/vol-llm-provider/src/anthropic.rs:594-601 | two chunks that split the letter `é` change the response under every parser |
| SsePipeline.UnterminatedTailIsIgnored | crates/vol-llm-provider/src/anthropic.rs:606-633 | a last line without a newline never has an effect |
| SsePipeline.ResponseIsSessionRun | crates/vol-llm-core/src/streaming.rs:202-212 | the events of any response, also one that breaks off, are one session run over the lines before the first bad chunk and the closing operations |
| SsePipeline.ResponseUpToBadChunk | crates/vol-llm-provider/src/openai.rs:601-673 | a response is read from the text before the first broken or undecodable chunk, whose error comes between the lines' items and the closing ones |
| SsePipeline.OnlyLastCallIsClosed | crates/vol-llm-provider/src/openai.rs:643-658 | without stops in the stream a started call is completed exactly when it has id and name, the provider is OpenAI and no call started after it; the closing stop then emits it with all deltas since |
| SsePipeline.FirstOfTwoCallsIsLost | crates/vol-llm-provider/src/openai.rs:643-658 | of two streamed calls without stops the first is never completed |
| SsePipeline.Sender.SendAll | crates/vol-llm-provider/src/openai.rs:622-633 | a batch is delivered up to the receiver's departure; the task goes on exactly when no event of it was lost |
| SsePipeline.ProcessSse | crates/vol-llm-core/src/streaming.rs:202-212 | a line gives nothing, one parser error, or the events of one session step |
| SsePipeline.DrainLines | crates/vol-llm-provider/src/anthropic.rs:605-623 | the inner loop handles every complete line and leaves the newline-free remainder |
| SsePipeline.Close | crates/vol-llm-provider/src/openai.rs:643-672 | the end of the stream, with OpenAI's extra block stop before the finalisation of both |
| SsePipeline.Converse | crates/vol-llm-provider/src/openai.rs:601-673 | the whole task delivers the response, cut off exactly where the receiver went away |
| SseResponses.ResponseTextIsComplete | crates/vol-llm-provider/src/openai.rs:601-673 | from either provider, whatever chunks arrive, the completed contents of a response are those that arrived complete and then all content deltas joined; likewise for thinking, between stops; nothing stays buffered |
| SseResponses.ResponsePassesNews | crates/vol-llm-provider/src/openai.rs:622-633 | a response lets out the deltas, usages, starts and ends of its lines, in order |
| SseResponses.ResponseCalls | crates/vol-llm-provider/src/openai.rs:643-658 | a response completes the calls its lines complete, and at its end OpenAI's open named call, never Anthropic's |
| SseResponses.ResponseErrors | crates/vol-llm-provider/src/openai.rs:594-641 | the errors a response reports are its lines' parser errors, in order, and then that of the first bad chunk |
| Utf8.PrefixIff | crates/vol-llm-cli-tool/src/exec.rs:103-108 | a prefix of well-formed text is whole characters exactly when it ends at a character boundary |
| Utf8.WellFormedIff | crates/vol-llm-cli-tool/src/exec.rs:97-111 | the well-formed texts are exactly the encodings of sequences of Unicode scalar values |
| Utf8.BoundaryNearby | crates/vol-llm-cli-tool/src/exec.rs:103-107 | within four positions of any index there is a character boundary |
| CommandText.ShellQuoteIsOneWord | crates/vol-llm-cli-tool/src/exec.rs:113-116 | read by sections 2.2.1 and 2.2.2 of the POSIX.1-2017 Shell Command Language, any quoted string, the empty one included, is exactly one word equal to it |
| CommandText.ShellBodyReads | crates/vol-llm-cli-tool/src/exec.rs:40-46 | without a directory the body is the command; otherwise it reads as `cd`, the directory as one word, and the untouched command |
| CommandText.AppendTruncated | crates/vol-llm-cli-tool/src/exec.rs:97-111 | short text is kept whole; long text is cut at the largest boundary within the limit and followed by the notice |
| CommandText.NoticeReads | crates/vol-llm-cli-tool/src/exec.rs:109 | the notice in characters |
| CommandText.TruncationKeepsWholeCharacters | crates/vol-llm-cli-tool/src/exec.rs:101-109 | the kept prefix is the longest whole-character one, falls short by at most 3 bytes, and the notice undercounts by as much |
| ContextBuilder.AnchorOrderIsTotal | crates/vol-llm-context/src/context_block.rs:31-46 | the anchor comparison is a total order that agrees with equality and ranks heads over middles over tails |
| ContextBuilder.StableSortIsStable | crates/vol-llm-context/src/builder.rs:173-175 | the result is sorted by position and keeps the blocks of each position in collection order |
| ContextBuilder.StableOrderIsUnique | crates/vol-llm-context/src/builder.rs:173-175 | only one result is sorted and stable, so it does not matter how the sort works |
| ContextBuilder.CollectAll | crates/vol-llm-context/src/builder.rs:131-136 | collects all blocks in contributor order, or the first error |
| ContextBuilder.Partition | crates/vol-llm-context/src/builder.rs:161-171 | one pass separates the zones, each in collection order |
| ContextBuilder.DropToFit | crates/vol-llm-context/src/builder.rs:184-193 | the drop loop leaves a prefix whose length is the fitting count |
| ContextBuilder.Build | crates/vol-llm-context/src/builder.rs:130-208 | every contributor is compressed exactly when all contributed and the estimate exceeds what the reserves leave; the result is then that of the compressed contributions, otherwise of the current ones: the first error, or their only assembly, which is a permutation of all messages when these fit |
| ContextBuilder.CollectMeans | crates/vol-llm-context/src/builder.rs:131-136 | collecting gives all blocks in order, or the first error |
| ContextBuilder.AssembleIsAssembly | crates/vol-llm-context/src/builder.rs:161-207 | the output is the head blocks stably ordered, the longest fitting prefix of the stably ordered middle blocks, and the tail blocks as collected |
| ContextBuilder.AssemblyIsUnique | crates/vol-llm-context/src/builder.rs:161-207 | and this leaves only one output |
| ContextBuilder.MiddleBudgetIsRoom | crates/vol-llm-context/src/context_block.rs:86-90 | the saturating subtractions leave what the reserves leave of the total, or nothing |
| ContextBuilder.EstimateBounds | crates/vol-llm-context/src/context_block.rs:103-126 | a message counts a token for each four bytes of text of each part, and a fixed number for each image |
| ContextBuilder.FitCountIsLongest | crates/vol-llm-context/src/builder.rs:184-193 | the kept middle blocks are the longest prefix whose token sum fits the middle budget |
| ContextBuilder.KeptOutrankDropped | crates/vol-llm-context/src/builder.rs:177-193 | every kept middle block ranks at or above every dropped one |
| ContextBuilder.DroppedIff | crates/vol-llm-context/src/builder.rs:178-193 | middle blocks are dropped exactly when their tokens exceed the middle budget |
| ContextBuilder.NothingLostWithinBudget | crates/vol-llm-context/src/builder.rs:138-148 | unless compression was triggered the output is a permutation of all collected messages |
| ContextBuilder.HeadAndTailSurvive | crates/vol-llm-context/src/builder.rs:195-205 | head and tail messages are never lost, open and close the output, and tails stay in collection order |
| ContextBuilder.OutputWithinTotal | crates/vol-llm-context/src/builder.rs:177-193 | the output's estimate is at most heads, tails and middle budget, hence at most the total when the reserves hold and fit |
| Interpolation.InterpolateWith | crates/vol-llm-cli-tool/src/interpolate.rs:12-87 | the character scanner renders the lossless token decomposition of its input |
| Interpolation.ReadTag | crates/vol-llm-cli-tool/src/interpolate.rs:36-51 | the inner loop stops right after the first closing braces, or at the end |
| InterpolationLaws.EscapeRoundTrip | crates/vol-llm-cli-tool/src/interpolate.rs:3-6 | escaping each leftmost `{{` and interpolating returns every string |
| InterpolationLaws.TokensAreLossless | crates/vol-llm-cli-tool/src/interpolate.rs:19-85 | the tokens spell the input back |
| InterpolationLaws.UnchangedIff | crates/vol-llm-cli-tool/src/interpolate.rs:22-81 | an input is left alone under every environment exactly when no escape and no env placeholder is read in it |
| InterpolationLaws.PlainTextUnchanged | crates/vol-llm-cli-tool/src/interpolate.rs:47-81 | input without `\{{` and without `{{env.` is unchanged, malformed tails included |
| InterpolationLaws.ValuesAreNeverRescanned | crates/vol-llm-cli-tool/src/interpolate.rs:53-63 | a value is inserted verbatim, and the text around it is interpolated as if it stood alone |
| Connector.RunConnector | crates/vol-agent-server/src/app.rs:31-301 | the nested loops of the task follow the step machine on every script of network answers |
| Connector.Handshake | crates/vol-agent-server/src/app.rs:72-210 | register, ack, snapshot and its ack: online, back to the top, or stopped by an encoding error |
| Connector.HeartbeatLoop | crates/vol-agent-server/src/app.rs:212-299 | ticks and reads until the connection is given up |
| Connector.ProtocolOrder | crates/vol-agent-server/src/app.rs:95-137 | over any network behaviour the wire shows only the protocol's successions |
| Connector.SnapshotNeedsAck | crates/vol-agent-server/src/app.rs:103-187 | a snapshot directly follows an accepted registration on a newly opened connection |
| Connector.HeartbeatNeedsSnapshot | crates/vol-agent-server/src/app.rs:212-292 | after its snapshot a connection carries only heartbeats |
| Connector.RevisionsCountAttempts | crates/vol-agent-server/src/app.rs:34-37 | a snapshot's revision is the number of connection attempts so far |
| Connector.RevisionsIncrease | crates/vol-agent-server/src/app.rs:154-171 | each snapshot's revision strictly exceeds every earlier one |
| Connector.BackoffIsExact | crates/vol-agent-server/src/app.rs:55-68 | after k connect failures in a row the backoff is exactly min(2^k, 60), as was every sleep |
| ConnectorLaws.ConnectAnswered | crates/vol-agent-server/src/app.rs:38-68 | a connect is tried exactly at the start, after a sleep, a failed send, a closed connection or an unaccepted registration; its answer opens a connection or leads to a sleep |
| ConnectorLaws.RegisterAfterOpened | crates/vol-agent-server/src/app.rs:72-101 | a registration is sent exactly on a connection just opened, unless it cannot be encoded |
| ConnectorLaws.AckMeansAccepted | crates/vol-agent-server/src/app.rs:103-137 | an acknowledgement is exactly an answer `Accepted` read directly after a registration that was sent; any other answer there leaves the wire as it is and leads back to connecting |
| ConnectorLaws.SnapshotAfterAck | crates/vol-agent-server/src/app.rs:139-187 | a snapshot is sent exactly after an acknowledgement, unless it cannot be encoded |
| ConnectorLaws.SnapshotMeansAccepted | crates/vol-agent-server/src/app.rs:103-187 | so before every snapshot the network answered the registration of that connection by `Accepted` |
| ConnectorLaws.EncodeFailureStops | crates/vol-agent-server/src/app.rs:74-93 | a registration or a snapshot that cannot be encoded stops the task for good |
| ConnectorLaws.OnlineAnswered | crates/vol-agent-server/src/app.rs:212-299 | online, a message changes nothing and an error closes the connection |
| ConnectorLaws.HeartbeatAfterTick | crates/vol-agent-server/src/app.rs:219-255 | a heartbeat is sent exactly after a tick; one that cannot be encoded is skipped, one that cannot be sent closes the connection |
| ConnectorLaws.HeartbeatAnswered | crates/vol-agent-server/src/app.rs:257-281 | a heartbeat is answered by text of whatever kind, or the connection is closed |
| Metrics.MetricsState.HandleFirstToken | crates/vol-llm-observability/src/metrics_plugin.rs:152-190 | extends the trace by exactly its step: reports and removes the latest pending start of an unmeasured key |
| Metrics.MetricsState.RetainOthers | crates/vol-llm-observability/src/metrics_plugin.rs:192-222 | drops exactly the starts of the key |
| Metrics.MetricsState.RecordRun | crates/vol-llm-observability/src/metrics_plugin.rs:224-266 | extends the trace by exactly its step: counts the run and times it from its latest start, if any |
| Metrics.MetricsState.HandleToolEnd | crates/vol-llm-observability/src/metrics_plugin.rs:305-340 | extends the trace by exactly its step: counts the call, reports its given duration or zero, and removes its latest start |
| Metrics.MetricsState.Listen | crates/vol-llm-observability/src/metrics_plugin.rs:357-460 | without interruption, extends the trace by exactly the event's steps, in order |
| MetricsRuns.ToolsAreStacks | crates/vol-llm-observability/src/metrics_plugin.rs:268-340 | open tool starts are, tool by tool, the begins minus the matched ends since the last cleanup |
| MetricsRuns.RunsAreStacks | crates/vol-llm-observability/src/metrics_plugin.rs:247-256 | open run starts are, run by run, the starts minus the records since the last cleanup |
| MetricsRuns.CallsAreStacks | crates/vol-llm-observability/src/metrics_plugin.rs:134-222 | pending calls and measured keys are what the trace of steps says |
| MetricsRuns.FirstTokenReported | crates/vol-llm-observability/src/metrics_plugin.rs:166-189 | a first token is reported exactly when the key is unmeasured and a call is pending, timed from the latest one |
| MetricsRuns.ReportsAreBounded | crates/vol-llm-observability/src/metrics_plugin.rs:152-190 | per key, reports never exceed the call starts and number at most one between cleanups |
| MetricsRuns.RunRecorded | crates/vol-llm-observability/src/metrics_plugin.rs:224-266 | an ending run is counted once and timed exactly when it is open |
| MetricsRuns.DurationReportedIff | crates/vol-llm-observability/src/metrics_plugin.rs:444-457 | a run started and ended once yields its duration exactly when no cleanup came in between |
| MetricsRuns.OverlappingRunLosesDuration | crates/vol-llm-observability/src/metrics_plugin.rs:444-457 | of two overlapping runs the one that ends second loses its duration |
| MetricsRuns.PluginAlways | crates/vol-llm-observability/src/metrics_plugin.rs:41-46 | in every state of the plugin object its lists are the stacks of its trace, and reports are bounded by the calls started and by one between cleanups |
| MetricsRuns.PluginTimesRun | crates/vol-llm-observability/src/metrics_plugin.rs:224-266 | what the plugin object has reported when a run ends, with or without its duration |
| MetricsRuns.EventsDo | crates/vol-llm-observability/src/metrics_plugin.rs:357-460 | what every event starts, ends and reports, with its labels, token kinds, outcome, duration and status |
| Frontmatter.SplitIsLeftmost | crates/md-frontmatter/src/parser.rs:17-34 | the parser finds exactly the split at the first closing fence, whose pieces rebuild the trimmed text; no such split, no result |
| Frontmatter.ParseIff | crates/md-frontmatter/src/parser.rs:17-48 | parsing gives the decoded frontmatter and the body of the only split, or the codec's error; without a split, a missing frontmatter |
| Frontmatter.PrintMeans | crates/md-frontmatter/src/parser.rs:53-59 | printing puts the encoded frontmatter between fence lines and the body behind, or fails as the codec does |
| Frontmatter.PrintThenSplitIff | crates/md-frontmatter/src/parser.rs:53-59 | printing then splitting returns YAML and body, a newline put in front of each, exactly when the YAML ends in a newline and no line starts with a fence |
| Frontmatter.CyclesAddNewlines | crates/md-frontmatter/src/parser.rs:173-176 | k print-then-parse cycles keep the frontmatter and put exactly k newlines before the body |
| Dispatch.Execute | crates/vol-llm-agent-tool/src/agent_tool.rs:145-200 | arguments, guard, lookup, registry and configuration in this order, each with its error; success exactly when all pass |
| Dispatch.ConfiguredLimitIff | crates/vol-llm-agent-tool/src/agent_tool.rs:72-81 | a limit other than one is in force exactly when the caller's configuration holds that number as a u32 |
| Dispatch.DepthsCount | crates/vol-llm-agent-tool/src/agent_tool.rs:84-89 | in a chain from a root, with or without a definition, every agent is one deeper than its dispatcher, within u32, and records it as parent |
| Dispatch.DispatchersOutrankDepth | crates/vol-llm-agent-tool/src/agent_tool.rs:153-162 | the i-th dispatcher's limit exceeds i |
| Dispatch.ChainsAreBounded | crates/vol-llm-agent-tool/src/agent_tool.rs:157-174 | no chain has more dispatches than the largest limit among its dispatchers, and the rest of that bound falls by one with each dispatch |
| Dispatch.LoaderBoundsChains | crates/vol-llm-agent-tool/src/agent_tool.rs:157-174 | so the limits of the root and the loadable agents bound every chain |
| Dispatch.RootlessChain | crates/vol-llm-agent-tool/src/agent_tool.rs:72-81 | a caller without a definition dispatches by the default limit, and its agents go on only by their own |
| Dispatch.ChainLengthIff | crates/vol-llm-agent-tool/src/agent_tool.rs:72-81 | for a self-dispatching agent a chain of n dispatches exists exactly when n is within its limit |

## Left out

- McpManager.Manager.ReconnectAll: only the sequence that nothing interrupts; its regions are also single methods, and the traces interleave them.
- McpManager.Manager.Reconnect: likewise; what it reports of a status that others stored is in `ReadReconnect`.
- McpManager.Manager.RunWorker: likewise; interrupted workers are in `McpWorkers`.
- Join handles, logging and how a service closes are not modelled; a service is a number and its token, a cancel token its position in the order of creation.
- McpServer.BackoffMonotone: over exact naturals; floating point, `i32` narrowing of the retry count and `Duration` overflow are not modelled.
- HTTP, process and websocket traffic, timeouts and channel back-pressure appear only as answers; wall-clock time as a number.
- JSON and YAML decoding, and with them both protocol line parsers: any function from a line to an optional event or error, trimming included.
- Counter overflow of `usize` and `u64` fields (event ids, retry counts, revisions, token sums).
- ContextBuilder.Build: a contributor is what it contributes before and after compression; its own code is foreign.
- `String::from_utf8_lossy`: truncation starts from decoded text; `format_output` around it only concatenates headers.
- `interpolate_map_with` and `interpolate` apply the modelled function to each value and to the process environment.
- CommandText.ShellQuoteIsOneWord: expansions, double quotes and patterns are not read; quoting never produces them unquoted.
- Metrics.MetricsState.Listen: handles one event without interruption; interruptions are in the traces, which its regions extend in any order.
- Dispatch.Execute: ends where the sub-agent starts; the sub-agent's run and its errors are not modelled.
- Dispatch.ChainsAreBounded: assumes that the tool context of a dispatched agent carries its prepared definition; the context is built elsewhere.
- `update_frontmatter` is a codec round trip on one field.
- Config merging, provider message conversion, the agent loader cache, the control plane, the task scheduler and the user interface: separate components, mostly easy members.
