/**
 Every interleaving of the foreground connects and background reconnect workers of one server.
 Each write-locked region is one atomic step; what the network answers is part of the step.
 */
module McpRuns {
  import opened Text
  import opened McpServer

  /** Where a reconnect worker stands in its loop; `Elapsed` when its delay is over and it has not moved on yet. */
  datatype Worker =
    | AtTop
    | Sleeping(token: nat, retry: nat)
    | Elapsed(token: nat)
    | Attempting(token: nat)
    | Finished

  /** One server with its foreground connects in flight, by the token each was given, and all workers ever
      spawned for it. */
  datatype World = World(st: Server, connects: map<nat, nat>, workers: map<nat, Worker>)

  const INITIAL := World(FRESH, map[], map[])

  datatype Step =
    | ResetRetry
    | Begin(c: nat)
    | ConnectOk(c: nat, service: nat, found: Discovery)
    | ConnectErr(c: nat, error: ConnectError, spawned: nat)
    | Turn(w: nat)
    | GiveUp(w: nat)
    | Elapse(w: nat)
    | Wake(w: nat)
    | Stop(w: nat)
    | WorkerOk(w: nat, service: nat, found: Discovery)
    | WorkerErr(w: nat, error: ConnectError)
    | WorkerTimeout(w: nat)
    | Disconnect
    | PrepareReconnect
    | DropClosing

  predicate InPhase(x: World, w: nat, phase: Worker) {
    w in x.workers && x.workers[w] == phase
  }

  predicate IsSleeping(x: World, w: nat) {
    w in x.workers && x.workers[w].Sleeping?
  }

  predicate HasElapsed(x: World, w: nat) {
    w in x.workers && x.workers[w].Elapsed?
  }

  predicate IsAttempting(x: World, w: nat) {
    w in x.workers && x.workers[w].Attempting?
  }

  /** The token a sleeping worker listens to is cancelled. */
  predicate IsCancelled(x: World, w: nat) {
    (IsSleeping(x, w) || HasElapsed(x, w)) && x.workers[w].token in x.st.cancelled
  }

  /**
   Which steps can be taken. A sleeping worker that is cancelled may stop, but its delay goes on running; when
   that is over too before the worker looks, it may do either.
   */
  predicate Enabled(cfg: Config, x: World, s: Step) {
    match s
    case Begin(c) => c !in x.connects
    case ConnectOk(c, _, _) => c in x.connects
    case ConnectErr(c, e, w) => c in x.connects && w !in x.workers
    case Turn(w) => InPhase(x, w, AtTop) && x.st.retryCount < cfg.maxRetries
    case GiveUp(w) => InPhase(x, w, AtTop) && x.st.retryCount >= cfg.maxRetries
    case Elapse(w) => IsSleeping(x, w)
    case Wake(w) => HasElapsed(x, w)
    case Stop(w) => IsCancelled(x, w)
    case WorkerOk(w, _, _) => IsAttempting(x, w)
    case WorkerErr(w, _) => IsAttempting(x, w)
    case WorkerTimeout(w) => IsAttempting(x, w)
    case DropClosing => x.st.service.Some?
    case _ => true
  }

  function Moved(x: World, st: Server, w: nat, phase: Worker): World {
    x.(st := st, workers := x.workers[w := phase])
  }

  /** After a failed attempt the worker ends when the counter has reached the limit. */
  function AfterFailure(cfg: Config, st: Server): Worker {
    if st.retryCount >= cfg.maxRetries then Finished else AtTop
  }

  function Failed(cfg: Config, x: World, w: nat, message: string): World {
    var st := AttemptFailed(cfg, x.st, message);
    Moved(x, st, w, AfterFailure(cfg, st))
  }

  function ConnectToken(x: World, c: nat): nat {
    if c in x.connects then x.connects[c] else 0
  }

  function WorkerToken(x: World, w: nat): nat {
    if w in x.workers && (x.workers[w].Sleeping? || x.workers[w].Elapsed? || x.workers[w].Attempting?)
    then x.workers[w].token
    else 0
  }

  function Next(cfg: Config, x: World, s: Step): World {
    match s
    case ResetRetry => x.(st := ResetRetries(x.st))
    case Begin(c) =>
      var st := BeginConnect(x.st);
      x.(st := st, connects := x.connects[c := st.token])
    case ConnectOk(c, id, d) =>
      x.(st := Discovered(x.st, Running(id, ConnectToken(x, c)), d), connects := x.connects - {c})
    case ConnectErr(c, e, w) =>
      var x' := x.(st := ConnectFailed(cfg, x.st, e), connects := x.connects - {c});
      if Retryable(e) then x'.(workers := x.workers[w := AtTop]) else x'
    case Turn(w) =>
      var st := TakeTurn(x.st);
      Moved(x, st, w, Sleeping(st.token, st.retryCount))
    case GiveUp(w) => Moved(x, Exhausted(x.st), w, Finished)
    case Elapse(w) => Moved(x, x.st, w, Elapsed(WorkerToken(x, w)))
    case Wake(w) => Moved(x, x.st, w, Attempting(WorkerToken(x, w)))
    case Stop(w) => Moved(x, x.st, w, Finished)
    case WorkerOk(w, id, d) => Moved(x, Discovered(x.st, Running(id, WorkerToken(x, w)), d), w, Finished)
    case WorkerErr(w, e) => Failed(cfg, x, w, Display(e))
    case WorkerTimeout(w) => Failed(cfg, x, w, CONNECTION_TIMEOUT)
    case Disconnect => x.(st := DisconnectedNow(x.st))
    case PrepareReconnect => x.(st := PreparedReconnect(x.st))
    case DropClosing => x.(st := DroppedClosing(x.st))
  }

  /** A run is the list of its steps, latest last. */
  datatype Run = Start | Then(prev: Run, step: Step)

  function Reached(cfg: Config, r: Run): World {
    match r
    case Start => INITIAL
    case Then(p, s) => Next(cfg, Reached(cfg, p), s)
  }

  predicate Valid(cfg: Config, r: Run) {
    match r
    case Start => true
    case Then(p, s) => Valid(cfg, p) && Enabled(cfg, Reached(cfg, p), s)
  }

  predicate IsSuccess(s: Step) {
    s.ConnectOk? || s.WorkerOk?
  }

  /** Since the latest successful discovery a caller gave up closing the service it had taken. */
  predicate DroppedSinceSuccess(r: Run) {
    r.Then? && !IsSuccess(r.step) && (r.step.DropClosing? || DroppedSinceSuccess(r.prev))
  }

  lemma LifecycleStep(cfg: Config, x: World, s: Step)
    requires Lifecycle(x.st) && Enabled(cfg, x, s)
    ensures Lifecycle(Next(cfg, x, s).st)
  {
    if s.ConnectErr? || s.WorkerErr? {
      DisplayIsNotExhaustion(s.error);
    }
    assert CONNECTION_TIMEOUT[0] == 'c' && MAX_RETRIES[0] == 'm' && MAX_RETRIES_DELAYED[0] == 'm';
  }

  lemma CachesStep(cfg: Config, x: World, s: Step)
    requires Next(cfg, x, s).st.caches != NOTHING && !IsSuccess(s)
    ensures x.st.caches != NOTHING
    ensures Next(cfg, x, s).st.service == if s.DropClosing? then None else x.st.service
  {
  }

  /** Cached capabilities have a service in their slot exactly when no caller gave up closing it. */
  lemma {:induction false} CachedSlot(cfg: Config, r: Run)
    requires Valid(cfg, r) && Reached(cfg, r).st.caches != NOTHING
    ensures Reached(cfg, r).st.service.None? <==> DroppedSinceSuccess(r)
  {
    hide Enabled;
    match r
    case Start =>
    case Then(p, s) =>
      if !IsSuccess(s) {
        CachesStep(cfg, Reached(cfg, p), s);
        CachedSlot(cfg, p);
      }
  }

  lemma {:induction false} LifecycleKept(cfg: Config, r: Run)
    requires Valid(cfg, r)
    ensures Lifecycle(Reached(cfg, r).st)
  {
    hide Enabled, Next, Lifecycle;
    match r
    case Start => FreshLifecycle();
    case Then(p, s) =>
      LifecycleKept(cfg, p);
      LifecycleStep(cfg, Reached(cfg, p), s);
  }

  lemma FreshLifecycle()
    ensures Lifecycle(FRESH)
  {
  }

  /** The lifecycle invariant holds in every state of every interleaving; cached capabilities have no live service
      exactly when, since they were discovered, a caller gave up closing it, or when its token was cut. */
  lemma LifecycleAlways(cfg: Config, r: Run)
    requires Valid(cfg, r)
    ensures var st := Reached(cfg, r).st;
            Lifecycle(st) && (st.caches != NOTHING ==> (Stale(st) <==> DroppedSinceSuccess(r) || ServiceCut(r)))
  {
    hide Reached, Valid, Lifecycle, ServiceCut, DroppedSinceSuccess;
    LifecycleKept(cfg, r);
    if Reached(cfg, r).st.caches != NOTHING {
      CachedSlot(cfg, r);
      if Reached(cfg, r).st.service.Some? {
        ServiceCutIff(cfg, r);
      }
    }
  }

  // ----- which token a service runs on, and when it is cut -----

  /** Steps that install a new token. */
  predicate Issues(s: Step) {
    s.Begin? || s.Turn?
  }

  /** Steps that cancel the current token; a turn does so before it installs its own. */
  predicate Cancels(s: Step) {
    s.Turn? || s.Disconnect? || s.PrepareReconnect? || s.DropClosing?
  }

  /** The tokens installed so far, and so the number of the current one. */
  function Issued(r: Run): nat {
    match r
    case Start => 0
    case Then(p, s) => Issued(p) + if Issues(s) then 1 else 0
  }

  /** `r` goes on from `p`. */
  predicate Extends(p: Run, r: Run) {
    r == p || (r.Then? && Extends(p, r.prev))
  }

  /** Since `p` no connect began and no worker took its turn. */
  predicate NotReplaced(p: Run, r: Run) {
    r == p || (r.Then? && !Issues(r.step) && NotReplaced(p, r.prev))
  }

  /** The token installed last at `p` was cancelled before another one replaced it. */
  predicate CutBeforeReplaced(p: Run, r: Run) {
    r != p && r.Then? && (CutBeforeReplaced(p, r.prev) || (Cancels(r.step) && NotReplaced(p, r.prev)))
  }

  /** The run up to the latest step `s`. */
  function UpTo(r: Run, s: Step): Run {
    match r
    case Start => Start
    case Then(p, s') => if s' == s then r else UpTo(p, s)
  }

  /** The run up to the connect, or the worker's turn, that led to the latest successful discovery. */
  function ServiceOrigin(r: Run): Run {
    match r
    case Start => Start
    case Then(p, s) =>
      match s
      case ConnectOk(c, _, _) => UpTo(p, Begin(c))
      case WorkerOk(w, _, _) => UpTo(p, Turn(w))
      case _ => ServiceOrigin(p)
  }

  /** The token of the latest discovery's connect, or turn, was cancelled before another one replaced it. */
  predicate ServiceCut(r: Run) {
    CutBeforeReplaced(ServiceOrigin(r), r)
  }

  lemma TokenCountStep(cfg: Config, x: World, s: Step)
    ensures Next(cfg, x, s).st.token == x.st.token + if Issues(s) then 1 else 0
    ensures Next(cfg, x, s).st.cancelled == x.st.cancelled + if Cancels(s) then {x.st.token} else {}
  {
  }

  /** Only tokens that were installed are cancelled. */
  predicate TokensIssued(st: Server) {
    forall t :: t in st.cancelled ==> t <= st.token
  }

  lemma {:induction false} TokensCount(cfg: Config, r: Run)
    ensures Reached(cfg, r).st.token == Issued(r) && TokensIssued(Reached(cfg, r).st)
  {
    hide Next;
    match r
    case Start =>
    case Then(p, s) =>
      TokensCount(cfg, p);
      TokenCountStep(cfg, Reached(cfg, p), s);
  }

  lemma {:induction false} IssuedGrows(p: Run, r: Run)
    requires Extends(p, r)
    ensures Issued(p) <= Issued(r) && (Issued(p) == Issued(r) <==> NotReplaced(p, r))
  {
    if r != p {
      IssuedGrows(p, r.prev);
    }
  }

  /** The token installed at the end of `p` is cancelled exactly when it was cut before another replaced it. */
  lemma {:induction false} CancelledIff(cfg: Config, p: Run, r: Run)
    requires Extends(p, r) && p.Then? && Issues(p.step)
    ensures Issued(p) in Reached(cfg, r).st.cancelled <==> CutBeforeReplaced(p, r)
  {
    hide Next;
    TokensCount(cfg, r.prev);
    TokenCountStep(cfg, Reached(cfg, r.prev), r.step);
    if r != p {
      CancelledIff(cfg, p, r.prev);
      IssuedGrows(p, r.prev);
    }
  }

  lemma {:induction false} UpToIsPrefix(r: Run, s: Step)
    ensures Extends(UpTo(r, s), r) && (UpTo(r, s).Then? ==> UpTo(r, s).step == s)
  {
    if r.Then? && r.step != s {
      UpToIsPrefix(r.prev, s);
    }
  }

  lemma ConnectTokenStep(cfg: Config, x: World, s: Step, c: nat)
    requires c in Next(cfg, x, s).connects
    ensures s != Begin(c) ==> c in x.connects && Next(cfg, x, s).connects[c] == x.connects[c]
    ensures s == Begin(c) ==> Next(cfg, x, s).connects[c] == Next(cfg, x, s).st.token
  {
  }

  /** A connect in flight was given the token its beginning installed. */
  lemma {:induction false} ConnectTraced(cfg: Config, r: Run, c: nat)
    requires c in Reached(cfg, r).connects
    ensures UpTo(r, Begin(c)).Then? && Reached(cfg, r).connects[c] == Issued(UpTo(r, Begin(c)))
  {
    hide Next;
    match r
    case Start =>
    case Then(p, s) =>
      ConnectTokenStep(cfg, Reached(cfg, p), s, c);
      TokensCount(cfg, r);
      if s != Begin(c) {
        ConnectTraced(cfg, p, c);
      }
  }

  /** The worker holds a token: it sleeps, has slept, or tries. */
  predicate HoldsToken(x: World, w: nat) {
    IsSleeping(x, w) || HasElapsed(x, w) || IsAttempting(x, w)
  }

  lemma WorkerTokenStep(cfg: Config, x: World, s: Step, w: nat)
    requires HoldsToken(Next(cfg, x, s), w) && Enabled(cfg, x, s)
    ensures s != Turn(w) ==> HoldsToken(x, w) && WorkerToken(Next(cfg, x, s), w) == WorkerToken(x, w)
    ensures s == Turn(w) ==> WorkerToken(Next(cfg, x, s), w) == Next(cfg, x, s).st.token
  {
  }

  /** A worker holds the token its latest turn installed. */
  lemma {:induction false} WorkerTraced(cfg: Config, r: Run, w: nat)
    requires Valid(cfg, r) && HoldsToken(Reached(cfg, r), w)
    ensures UpTo(r, Turn(w)).Then? && WorkerToken(Reached(cfg, r), w) == Issued(UpTo(r, Turn(w)))
  {
    hide Next, Enabled, WorkerToken;
    match r
    case Start =>
    case Then(p, s) =>
      WorkerTokenStep(cfg, Reached(cfg, p), s, w);
      TokensCount(cfg, r);
      if s != Turn(w) {
        WorkerTraced(cfg, p, w);
      }
  }

  lemma ServiceStep(cfg: Config, x: World, s: Step)
    requires Next(cfg, x, s).st.service.Some? && Enabled(cfg, x, s)
    ensures !IsSuccess(s) ==> Next(cfg, x, s).st.service == x.st.service
    ensures s.ConnectOk? ==> s.c in x.connects && Next(cfg, x, s).st.service.value.token == x.connects[s.c]
    ensures s.WorkerOk? ==> HoldsToken(x, s.w) && Next(cfg, x, s).st.service.value.token == WorkerToken(x, s.w)
  {
  }

  lemma {:induction false} Extended(p: Run, r: Run, s: Step)
    requires Extends(p, r)
    ensures Extends(p, Then(r, s))
  {
  }

  /** The service runs on the token of the connect, or the worker's turn, that led to it. */
  lemma {:induction false} ServiceTraced(cfg: Config, r: Run)
    requires Valid(cfg, r) && Reached(cfg, r).st.service.Some?
    ensures var p := ServiceOrigin(r);
            && p.Then? && Issues(p.step) && Extends(p, r)
            && Reached(cfg, r).st.service.value.token == Issued(p)
  {
    hide Next, Enabled, HoldsToken, WorkerToken, Issued;
    match r
    case Start =>
    case Then(p, s) =>
      ServiceStep(cfg, Reached(cfg, p), s);
      match s {
        case ConnectOk(c, _, _) =>
          ConnectTraced(cfg, p, c);
          UpToIsPrefix(p, Begin(c));
        case WorkerOk(w, _, _) =>
          WorkerTraced(cfg, p, w);
          UpToIsPrefix(p, Turn(w));
        case _ => ServiceTraced(cfg, p);
      }
      Extended(ServiceOrigin(r), p, s);
  }

  /** A service in its slot was cut off exactly when, after the connect or the worker's turn that led to it, a
      worker's turn, a disconnect or a manual reconnect came before any other connect or turn. */
  lemma ServiceCutIff(cfg: Config, r: Run)
    requires Valid(cfg, r) && Reached(cfg, r).st.service.Some?
    ensures Reached(cfg, r).st.service.value.token in Reached(cfg, r).st.cancelled <==> ServiceCut(r)
  {
    hide Reached, Valid, Issued;
    ServiceTraced(cfg, r);
    CancelledIff(cfg, ServiceOrigin(r), r);
  }

  // ----- listings -----

  /** Steps that leave what a server lists as it was. */
  predicate IsNeutral(s: Step) {
    s.ResetRetry? || s.Turn? || s.Elapse? || s.Wake? || s.Stop? || s.DropClosing?
  }

  /** Read off the steps alone: the latest successful discovery, with only neutral steps since. */
  function LatestDiscovery(r: Run): Discovery {
    match r
    case Start => NOTHING
    case Then(p, s) =>
      if IsSuccess(s) then s.found else if IsNeutral(s) then LatestDiscovery(p) else NOTHING
  }

  lemma ListingStep(cfg: Config, x: World, s: Step)
    ensures Listed(Next(cfg, x, s).st) ==
            if IsSuccess(s) then s.found else if IsNeutral(s) then Listed(x.st) else NOTHING
  {
  }

  /** Listings are never stale: at every moment a server lists exactly its latest discovery. */
  lemma {:induction false} ListingIsLatestDiscovery(cfg: Config, r: Run)
    requires Valid(cfg, r)
    ensures Listed(Reached(cfg, r).st) == LatestDiscovery(r)
  {
    match r
    case Start =>
    case Then(p, s) =>
      ListingIsLatestDiscovery(cfg, p);
      ListingStep(cfg, Reached(cfg, p), s);
  }

  /** `r` extends `p` by steps none of which is a success. */
  predicate NoSuccessSince(p: Run, r: Run) {
    r == p || (r.Then? && !IsSuccess(r.step) && NoSuccessSince(p, r.prev))
  }

  /** After a disconnect nothing is listed until a later success. */
  lemma {:induction false} NothingListedAfterDisconnect(cfg: Config, p: Run, r: Run)
    requires Valid(cfg, r) && NoSuccessSince(Then(p, Disconnect), r)
    ensures Listed(Reached(cfg, r).st) == NOTHING
  {
    if r != Then(p, Disconnect) {
      NothingListedAfterDisconnect(cfg, p, r.prev);
      ListingIsLatestDiscovery(cfg, r);
      ListingIsLatestDiscovery(cfg, r.prev);
    }
  }

  /** A manual reconnect began, or a closing was dropped, since the latest successful discovery. */
  predicate TakenSinceSuccess(r: Run) {
    r.Then? && !IsSuccess(r.step) && (r.step.PrepareReconnect? || r.step.DropClosing? || TakenSinceSuccess(r.prev))
  }

  lemma ConnectedServiceStep(cfg: Config, x: World, s: Step)
    requires Next(cfg, x, s).st.status.Connected? && !IsSuccess(s)
    ensures x.st.status.Connected?
    ensures Next(cfg, x, s).st.service == if s.PrepareReconnect? || s.DropClosing? then None else x.st.service
  {
  }

  lemma {:induction false} ConnectedSlot(cfg: Config, r: Run)
    requires Valid(cfg, r) && Reached(cfg, r).st.status.Connected?
    ensures Reached(cfg, r).st.service.None? <==> TakenSinceSuccess(r)
  {
    hide Enabled;
    match r
    case Start =>
    case Then(p, s) =>
      if !IsSuccess(s) {
        ConnectedServiceStep(cfg, Reached(cfg, p), s);
        ConnectedSlot(cfg, p);
      }
  }

  /** A connected server has no live service exactly when it was taken since the latest discovery, by a manual
      reconnect or by a closing that was dropped, or when its token was cut. */
  lemma ConnectedWithoutServiceIff(cfg: Config, r: Run)
    requires Valid(cfg, r) && Reached(cfg, r).st.status.Connected?
    ensures !IsLive(Reached(cfg, r).st) <==> TakenSinceSuccess(r) || ServiceCut(r)
  {
    hide Reached, Valid, ServiceCut, TakenSinceSuccess;
    ConnectedSlot(cfg, r);
    if Reached(cfg, r).st.service.Some? {
      ServiceCutIff(cfg, r);
    }
  }

  /** One foreground connect, successful. */
  function ConnectedRun(d: Discovery): Run {
    Then(Then(Start, Begin(0)), ConnectOk(0, 7, d))
  }

  lemma ConnectedRunIsValid(cfg: Config, d: Discovery)
    ensures Valid(cfg, ConnectedRun(d))
    ensures Reached(cfg, ConnectedRun(d)).st == Server(Connected, 0, Some(Running(7, 1)), 1, {}, d)
  {
    BegunOnce(cfg);
  }

  lemma BegunOnce(cfg: Config)
    ensures var r := Then(Start, Begin(0));
            Valid(cfg, r) && Reached(cfg, r) == World(Server(Connecting, 0, None, 1, {}, NOTHING), map[0 := 1], map[])
  {
    assert Reached(cfg, Start) == INITIAL;
  }

  /** The concrete run: connect, then begin a manual reconnect. */
  lemma ConnectedNeedNotBeLive(cfg: Config)
    ensures var r := Then(ConnectedRun(NOTHING), PrepareReconnect);
            Valid(cfg, r) && Reached(cfg, r).st.status.Connected? && Reached(cfg, r).st.service.None?
  {
    ConnectedRunIsValid(cfg, NOTHING);
  }

  /** Connect, then drop a disconnect while it closes the service: the server stays connected and lists
      capabilities nothing serves any more. */
  lemma DroppedDisconnectIsStale(cfg: Config, d: Discovery)
    requires d != NOTHING
    ensures var r := Then(ConnectedRun(d), DropClosing);
            Valid(cfg, r) && Stale(Reached(cfg, r).st) && Listed(Reached(cfg, r).st) == d
  {
    ConnectedRunIsValid(cfg, d);
  }

  /** Disconnect while a connect is in flight: the connect still succeeds, and leaves a connected server whose
      service is cut off from the start. */
  lemma LateConnectIsCut(cfg: Config, d: Discovery)
    ensures var r := Then(Then(Then(Start, Begin(0)), Disconnect), ConnectOk(0, 7, d));
            var st := Reached(cfg, r).st;
            && Valid(cfg, r) && st.status.Connected? && Listed(st) == d && st.service.Some? && !IsLive(st)
            && !TakenSinceSuccess(r)
  {
    BegunOnce(cfg);
    var r2 := Then(Then(Start, Begin(0)), Disconnect);
    assert Valid(cfg, r2) && Reached(cfg, r2).connects == map[0 := 1] && Reached(cfg, r2).st.cancelled == {1};
  }
}
