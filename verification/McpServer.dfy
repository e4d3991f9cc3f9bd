/**
 The critical sections of `McpManager` on one server's state: each function below is what one
 write-locked region does to the `ServerState` it found.
 */
module McpServer {
  import opened Text

  datatype ToolInfo = ToolInfo(name: string, description: Option<string>, inputSchema: Option<string>)

  /** What one successful connection discovers; also the content of the four caches. */
  datatype Discovery = Discovery(
    tools: seq<ToolInfo>, resources: seq<string>, resourceTemplates: seq<string>, prompts: seq<string>)

  const NOTHING := Discovery([], [], [], [])

  datatype Status = Connected | Disconnected | Connecting | Error(message: string)

  /** A live service; it runs until the token its connect was given is cancelled. */
  datatype Running = Running(id: nat, token: nat)

  /**
   `token` is the number of the current cancel token; a new token always gets the next number.
   `cancelled` holds the numbers of the cancelled tokens, current or replaced.
   */
  datatype Server = Server(
    status: Status, retryCount: nat, service: Option<Running>, token: nat, cancelled: set<nat>, caches: Discovery)

  const FRESH := Server(Disconnected, 0, None, 0, {}, NOTHING)

  datatype Config = Config(maxRetries: nat, backoffMin: nat, backoffMax: nat)

  /** The errors `connect_single` can return, with their display text. */
  datatype ConnectError = ConnectionFailed(server: string, detail: string) | InitializeTimeout(server: string)

  const MAX_RETRIES := "max retries exceeded"
  const MAX_RETRIES_DELAYED := "max retries exceeded, retrying with delay"
  const CONNECTION_TIMEOUT := "connection timeout"
  const NO_SUCH_FILE := "No such file or directory"

  function Display(e: ConnectError): string {
    match e
    case ConnectionFailed(server, detail) => "failed to connect to MCP server '" + server + "': " + detail
    case InitializeTimeout(server) => "MCP server '" + server + "' initialization timed out"
  }

  function Renewed(st: Server): Server {
    st.(token := st.token + 1)
  }

  function CancelledNow(st: Server): Server {
    st.(cancelled := st.cancelled + {st.token})
  }

  /** `connect_server`, first region: the old token is replaced but not cancelled. */
  function BeginConnect(st: Server): Server {
    Renewed(st.(status := Connecting))
  }

  /** A successful discovery, foreground or background. */
  function Discovered(st: Server, service: Running, d: Discovery): Server {
    st.(service := Some(service), caches := d, status := Connected, retryCount := 0)
  }

  /** A missing binary ends a foreground connect without a retry worker. */
  predicate Retryable(e: ConnectError) {
    !Contains(Display(e), NO_SUCH_FILE)
  }

  /** `connect_server`, failure region. */
  function ConnectFailed(cfg: Config, st: Server, e: ConnectError): Server {
    if !Retryable(e) then st.(status := Error(Display(e)))
    else if st.retryCount + 1 >= cfg.maxRetries then
      st.(retryCount := st.retryCount + 1, caches := NOTHING, status := Error(MAX_RETRIES_DELAYED))
    else st.(retryCount := st.retryCount + 1, status := Error(Display(e)))
  }

  /** Worker, top of the loop: out of retries. */
  function Exhausted(st: Server): Server {
    st.(caches := NOTHING, status := Error(MAX_RETRIES))
  }

  /** Worker, top of the loop: cancel the current token and install a new one. */
  function TakeTurn(st: Server): Server {
    Renewed(CancelledNow(st))
  }

  /** Worker, failed or timed-out attempt. */
  function AttemptFailed(cfg: Config, st: Server, message: string): Server {
    var st' := st.(retryCount := st.retryCount + 1, status := Error(message));
    if st'.retryCount >= cfg.maxRetries then Exhausted(st') else st'
  }

  function ResetRetries(st: Server): Server {
    st.(retryCount := 0)
  }

  /** `disconnect_server`. */
  function DisconnectedNow(st: Server): Server {
    CancelledNow(st).(service := None, caches := NOTHING, status := Disconnected)
  }

  /** `disconnect_server` or `reconnect` given up by its caller while it closes the service it took. */
  function DroppedClosing(st: Server): Server {
    CancelledNow(st).(service := None)
  }

  /** `reconnect`, first region: the status is left as it was. */
  function PreparedReconnect(st: Server): Server {
    ResetRetries(if st.status.Connected? then CancelledNow(st).(service := None, caches := NOTHING)
                 else CancelledNow(st))
  }

  /** `exponential_backoff`, over exact naturals. */
  function Backoff(cfg: Config, retry: nat): nat {
    Min(cfg.backoffMin * Pow2(retry), cfg.backoffMax)
  }

  lemma MulMono(a: nat, b: nat, c: nat)
    requires a <= b
    ensures c * a <= c * b
  {
  }

  /** Delays never exceed the maximum, never fall below the (capped) minimum, and grow with the retry count. */
  lemma {:induction false} BackoffMonotone(cfg: Config, r: nat, r': nat)
    requires r <= r'
    ensures Min(cfg.backoffMin, cfg.backoffMax) <= Backoff(cfg, r) <= Backoff(cfg, r') <= cfg.backoffMax
    decreases r'
  {
    MulMono(1, Pow2(r), cfg.backoffMin);
    if r < r' {
      BackoffMonotone(cfg, r, r' - 1);
      MulMono(Pow2(r' - 1), Pow2(r'), cfg.backoffMin);
    }
  }

  /** A connection that fails for a missing file says so in its text. */
  lemma MissingFileIsDisplayed(server: string, detail: string)
    requires Contains(detail, "No such file or directory")
    ensures Contains(Display(ConnectionFailed(server, detail)), "No such file or directory")
  {
    hide Contains;
    ContainsBehind("failed to connect to MCP server '" + server + "': ", detail, "No such file or directory");
  }

  /** So does every failure of a server whose name contains the phrase. */
  lemma ServerNameIsDisplayed(e: ConnectError)
    requires Contains(e.server, "No such file or directory")
    ensures Contains(Display(e), "No such file or directory")
  {
    hide Contains;
    var phrase := "No such file or directory";
    var front := if e.ConnectionFailed? then "failed to connect to MCP server '" else "MCP server '";
    var back := if e.ConnectionFailed? then "': " + e.detail else "' initialization timed out";
    ContainsBehind(front, e.server, phrase);
    ContainsBefore(front + e.server, back, phrase);
    assert Display(e) == front + e.server + back;
  }

  /** Each delay doubles the one before, up to the maximum; the first is the minimum, if that is allowed. */
  lemma BackoffDoubles(cfg: Config, retry: nat)
    ensures Backoff(cfg, 0) == if cfg.backoffMin < cfg.backoffMax then cfg.backoffMin else cfg.backoffMax
    ensures Backoff(cfg, retry + 1)
         == if 2 * Backoff(cfg, retry) < cfg.backoffMax then 2 * Backoff(cfg, retry) else cfg.backoffMax
  {
    assert cfg.backoffMin * Pow2(0) == cfg.backoffMin;
    assert cfg.backoffMin * Pow2(retry + 1) == 2 * (cfg.backoffMin * Pow2(retry));
  }

  // ----- what a manager shows of its servers -----

  /** What the four listing calls show of one server: its caches, while it is connected. */
  function Listed(st: Server): Discovery {
    if st.status.Connected? then st.caches else NOTHING
  }

  type Table = map<string, Server>

  /** The listings of a whole manager, by server; `list_all_tools` and its siblings read one field of each. */
  function Listings(t: Table): map<string, Discovery> {
    map s | s in t && t[s].status.Connected? :: t[s].caches
  }

  /** `filter`: a snapshot of the named servers without their live services; empty while a writer holds the lock. */
  function Filter(t: Table, names: Option<seq<string>>, lockFree: bool): Table {
    match names
    case None => t
    case Some(ns) =>
      if lockFree then map s | s in t && s in ns :: t[s].(service := None) else map[]
  }

  /** A filtered view lists exactly the restriction of the manager's listings to the given names. */
  lemma FilterListsRestriction(t: Table, ns: seq<string>)
    ensures Listings(Filter(t, Some(ns), true)) == map s | s in Listings(t) && s in ns :: Listings(t)[s]
    ensures Listings(Filter(t, None, true)) == Listings(t)
    ensures Listings(Filter(t, Some(ns), false)) == map[]
  {
    var v := Filter(t, Some(ns), true);
    assert forall s :: s in v && v[s].status.Connected? <==> s in Listings(t) && s in ns;
  }

  // ----- the lifecycle invariant -----

  predicate RetriesExhausted(s: Status) {
    s.Error? && (s.message == MAX_RETRIES || s.message == MAX_RETRIES_DELAYED)
  }

  predicate Lifecycle(st: Server) {
    && (st.status.Connected? ==> st.retryCount == 0)
    && (st.status.Disconnected? ==> st.service.None? && st.caches == NOTHING)
    && (RetriesExhausted(st.status) ==> st.caches == NOTHING)
  }

  /** There is a service, and its token is not cancelled. */
  predicate IsLive(st: Server) {
    st.service.Some? && st.service.value.token !in st.cancelled
  }

  /** Capabilities are cached, but there is no live service to use them on. */
  predicate Stale(st: Server) {
    st.caches != NOTHING && !IsLive(st)
  }

  /** No connection error can be mistaken for an exhausted server. */
  lemma DisplayIsNotExhaustion(e: ConnectError)
    ensures !RetriesExhausted(Error(Display(e)))
  {
    assert Display(e)[0] == 'f' || Display(e)[0] == 'M';
    assert MAX_RETRIES[0] == 'm' && MAX_RETRIES_DELAYED[0] == 'm';
  }

  /** A filtered view keeps the lifecycle, but is stale wherever something was cached: the service stays behind. */
  lemma FilteredViewLifecycle(t: Table, ns: seq<string>, s: string)
    requires s in t && s in ns && Lifecycle(t[s])
    ensures Lifecycle(Filter(t, Some(ns), true)[s])
    ensures Stale(Filter(t, Some(ns), true)[s]) <==> t[s].caches != NOTHING
  {
  }
}
