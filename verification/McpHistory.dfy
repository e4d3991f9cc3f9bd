/** What a server holds, read off the steps of its run alone. */
module McpHistory {
  import opened Text
  import opened McpServer
  import opened McpRuns

  /** Steps that count a failure: all but those of a connect whose text says that a file is missing. */
  predicate CountsFailure(s: Step) {
    || (s.ConnectErr? && !Contains(Display(s.error), "No such file or directory"))
    || s.WorkerErr? || s.WorkerTimeout?
  }

  /** Failures since the counter was last reset, by a success or on request. */
  function Failures(r: Run): nat {
    match r
    case Start => 0
    case Then(p, s) =>
      if IsSuccess(s) || s.ResetRetry? || s.PrepareReconnect? then 0
      else Failures(p) + if CountsFailure(s) then 1 else 0
  }

  /** The failure just counted reached the limit, or a worker found it reached. */
  predicate GivesUp(cfg: Config, r: Run) {
    r.Then? && (r.step.GiveUp? || (CountsFailure(r.step) && Failures(r) >= cfg.maxRetries))
  }

  /** The status set by the latest step that sets one. */
  function ShownStatus(cfg: Config, r: Run): Status {
    match r
    case Start => Disconnected
    case Then(p, s) =>
      match s
      case Begin(_) => Connecting
      case ConnectOk(_, _, _) => Connected
      case WorkerOk(_, _, _) => Connected
      case Disconnect => Disconnected
      case GiveUp(_) => Error("max retries exceeded")
      case ConnectErr(_, e, _) =>
        if GivesUp(cfg, r) then Error("max retries exceeded, retrying with delay") else Error(Display(e))
      case WorkerErr(_, e) => Error(if GivesUp(cfg, r) then "max retries exceeded" else Display(e))
      case WorkerTimeout(_) => Error(if GivesUp(cfg, r) then "max retries exceeded" else "connection timeout")
      case _ => ShownStatus(cfg, p)
  }

  predicate ReconnectsConnected(cfg: Config, r: Run) {
    r.Then? && r.step.PrepareReconnect? && ShownStatus(cfg, r.prev).Connected?
  }

  /** The service of the latest discovery, unless a disconnect, finished or not, or the reconnect of a connected
      server took it. */
  function HeldService(cfg: Config, r: Run): Option<nat> {
    match r
    case Start => None
    case Then(p, s) =>
      if IsSuccess(s) then Some(s.service)
      else if s.Disconnect? || s.DropClosing? || ReconnectsConnected(cfg, r) then None
      else HeldService(cfg, p)
  }

  /** What the latest discovery found, unless it was given up: by a disconnect, by the reconnect of a connected
      server, or when the retries were exhausted. */
  function HeldCaches(cfg: Config, r: Run): Discovery {
    match r
    case Start => NOTHING
    case Then(p, s) =>
      if IsSuccess(s) then s.found
      else if s.Disconnect? || ReconnectsConnected(cfg, r) || GivesUp(cfg, r) then NOTHING
      else HeldCaches(cfg, p)
  }

  predicate Holds(st: Server, status: Status, failures: nat, service: Option<nat>, caches: Discovery) {
    && st.status == status && st.retryCount == failures && st.caches == caches
    && (st.service.Some? <==> service.Some?) && (service.Some? ==> st.service.value.id == service.value)
  }

  lemma HoldsStep(cfg: Config, p: Run, x: World, s: Step)
    requires Holds(x.st, ShownStatus(cfg, p), Failures(p), HeldService(cfg, p), HeldCaches(cfg, p))
    ensures var r := Then(p, s);
            Holds(Next(cfg, x, s).st, ShownStatus(cfg, r), Failures(r), HeldService(cfg, r), HeldCaches(cfg, r))
  {
    hide Display, Contains;
  }

  /** In every run a server's status, retry counter, service and caches are what its steps say. */
  lemma {:induction false} ServerByHistory(cfg: Config, r: Run)
    ensures Holds(Reached(cfg, r).st, ShownStatus(cfg, r), Failures(r), HeldService(cfg, r), HeldCaches(cfg, r))
  {
    hide Next, Holds;
    match r
    case Start => FreshHolds(cfg);
    case Then(p, s) =>
      ServerByHistory(cfg, p);
      HoldsStep(cfg, p, Reached(cfg, p), s);
  }

  lemma FreshHolds(cfg: Config)
    ensures Holds(FRESH, ShownStatus(cfg, Start), Failures(Start), HeldService(cfg, Start), HeldCaches(cfg, Start))
  {
  }

  /** A worker's turn lets it sleep on the token it installs, for the delay of the failures counted so far. */
  lemma TurnSleepsByFailures(cfg: Config, p: Run, w: nat)
    ensures InPhase(Reached(cfg, Then(p, Turn(w))), w, Sleeping(Issued(p) + 1, Failures(p)))
  {
    TokensCount(cfg, p);
    ServerByHistory(cfg, p);
  }
}
