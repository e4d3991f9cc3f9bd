/** The background reconnect workers of one server: how often one may try, and which a disconnect stops. */
module McpWorkers {
  import opened Text
  import opened McpServer
  import opened McpRuns

  // ----- how often a worker may try -----

  /** Connection attempts worker `w` has started. */
  function Attempts(r: Run, w: nat): nat {
    match r
    case Start => 0
    case Then(p, s) => Attempts(p, w) + if s == Wake(w) then 1 else 0
  }

  predicate Alive(x: World, w: nat) {
    w in x.workers && !x.workers[w].Finished?
  }

  /** Steps that put the retry counter back to zero. */
  predicate Resets(s: Step) {
    s.ResetRetry? || s.PrepareReconnect? || IsSuccess(s)
  }

  predicate ResetsFor(cfg: Config, x: World, s: Step, w: nat) {
    Resets(s) && Alive(x, w) && Alive(Next(cfg, x, s), w)
  }

  /** Resets of the counter during the life of worker `w`, by anyone. */
  function ResetsDuring(cfg: Config, r: Run, w: nat): nat {
    match r
    case Start => 0
    case Then(p, s) => ResetsDuring(cfg, p, w) + if ResetsFor(cfg, Reached(cfg, p), s, w) then 1 else 0
  }

  /** The most attempts a worker can start when the counter is reset `resets` times during its life: the failure
      that spawned it is one of the `maxRetries`, and so is the failure after each reset. */
  function MostAttempts(cfg: Config, resets: nat): nat {
    if cfg.maxRetries == 0 then 0
    else if cfg.maxRetries == 1 then Min(1, resets)
    else (cfg.maxRetries - 1) * (1 + resets)
  }

  /** What bounds the attempts of `w` in each phase; each reset is worth max_retries - 1 further ones. */
  predicate WithinBudget(cfg: Config, x: World, w: nat, attempts: nat, credit: nat) {
    var used := Min(x.st.retryCount, cfg.maxRetries);
    w in x.workers ==>
      && attempts + 1 <= credit + cfg.maxRetries
      && match x.workers[w]
         case AtTop => attempts + 1 <= credit + used && attempts + 2 <= credit + cfg.maxRetries
         case Sleeping(_, _) => attempts + 1 <= credit + used && attempts + 2 <= credit + cfg.maxRetries
         case Elapsed(_) => attempts + 1 <= credit + used && attempts + 2 <= credit + cfg.maxRetries
         case Attempting(_) => attempts <= credit + used
         case Finished => true
  }

  /** With at most one retry the spawning failure already uses it up: a worker gets one attempt if it is reset. */
  predicate AtMostOnce(cfg: Config, x: World, w: nat, attempts: nat, resets: nat) {
    w in x.workers ==>
      && attempts <= Min(cfg.maxRetries, Min(1, resets))
      && match x.workers[w]
         case AtTop => attempts == 0 && (x.st.retryCount >= cfg.maxRetries || resets > 0)
         case Sleeping(_, _) => attempts == 0 && resets > 0 && cfg.maxRetries == 1
         case Elapsed(_) => attempts == 0 && resets > 0 && cfg.maxRetries == 1
         case _ => true
  }

  predicate Bounded(cfg: Config, x: World, w: nat, attempts: nat, resets: nat) {
    if cfg.maxRetries <= 1 then AtMostOnce(cfg, x, w, attempts, resets)
    else WithinBudget(cfg, x, w, attempts, (cfg.maxRetries - 1) * resets)
  }

  lemma SpawnStep(cfg: Config, x: World, s: Step, w: nat)
    requires Enabled(cfg, x, s) && w !in x.workers
    ensures Bounded(cfg, Next(cfg, x, s), w, 0, 0) && !ResetsFor(cfg, x, s, w) && s != Wake(w)
  {
  }

  lemma BudgetStep(cfg: Config, x: World, s: Step, w: nat, attempts: nat, credit: nat)
    requires Enabled(cfg, x, s) && w in x.workers && cfg.maxRetries > 1 && WithinBudget(cfg, x, w, attempts, credit)
    ensures WithinBudget(cfg, Next(cfg, x, s), w, attempts + (if s == Wake(w) then 1 else 0),
                         credit + if ResetsFor(cfg, x, s, w) then cfg.maxRetries - 1 else 0)
  {
  }

  lemma OnceStep(cfg: Config, x: World, s: Step, w: nat, attempts: nat, resets: nat)
    requires Enabled(cfg, x, s) && w in x.workers && cfg.maxRetries <= 1 && AtMostOnce(cfg, x, w, attempts, resets)
    ensures AtMostOnce(cfg, Next(cfg, x, s), w, attempts + (if s == Wake(w) then 1 else 0),
                       resets + if ResetsFor(cfg, x, s, w) then 1 else 0)
  {
  }

  lemma BoundedStep(cfg: Config, x: World, s: Step, w: nat, attempts: nat, resets: nat)
    requires Enabled(cfg, x, s) && w in x.workers && Bounded(cfg, x, w, attempts, resets)
    ensures Bounded(cfg, Next(cfg, x, s), w, attempts + (if s == Wake(w) then 1 else 0),
                    resets + if ResetsFor(cfg, x, s, w) then 1 else 0)
  {
    hide Next, Enabled, WithinBudget, AtMostOnce, ResetsFor;
    if cfg.maxRetries <= 1 {
      OnceStep(cfg, x, s, w, attempts, resets);
    } else {
      var each := cfg.maxRetries - 1;
      assert each * (resets + 1) == each * resets + each;
      BudgetStep(cfg, x, s, w, attempts, each * resets);
    }
  }

  lemma WorkersStay(cfg: Config, x: World, s: Step, w: nat)
    requires Enabled(cfg, x, s)
    ensures w in x.workers || s == Wake(w) ==> w in Next(cfg, x, s).workers
  {
  }

  lemma {:induction false} NothingBeforeSpawn(cfg: Config, r: Run, w: nat)
    requires Valid(cfg, r) && w !in Reached(cfg, r).workers
    ensures Attempts(r, w) == 0 && ResetsDuring(cfg, r, w) == 0
  {
    hide Next, Enabled;
    match r
    case Start =>
    case Then(p, s) =>
      WorkersStay(cfg, Reached(cfg, p), s, w);
      NothingBeforeSpawn(cfg, p, w);
  }

  lemma {:induction false} BoundedAlways(cfg: Config, r: Run, w: nat)
    requires Valid(cfg, r)
    ensures Bounded(cfg, Reached(cfg, r), w, Attempts(r, w), ResetsDuring(cfg, r, w))
  {
    hide Next, Enabled, ResetsFor;
    match r
    case Start =>
    case Then(p, s) =>
      BoundedAlways(cfg, p, w);
      var x := Reached(cfg, p);
      if w in x.workers {
        BoundedStep(cfg, x, s, w, Attempts(p, w), ResetsDuring(cfg, p, w));
      } else {
        NothingBeforeSpawn(cfg, p, w);
        SpawnStep(cfg, x, s, w);
      }
  }

  lemma BoundedMeaning(cfg: Config, x: World, w: nat, attempts: nat, resets: nat)
    requires w in x.workers && Bounded(cfg, x, w, attempts, resets)
    ensures attempts <= MostAttempts(cfg, resets)
  {
    if cfg.maxRetries > 1 {
      var each := cfg.maxRetries - 1;
      assert each * (1 + resets) == each + each * resets;
    }
  }

  /** However many other workers and connects use the same counter, a worker starts at most as many attempts
      as `MostAttempts` of the resets during its life. */
  lemma AttemptsBounded(cfg: Config, r: Run, w: nat)
    requires Valid(cfg, r) && w in Reached(cfg, r).workers
    ensures Attempts(r, w) <= MostAttempts(cfg, ResetsDuring(cfg, r, w))
  {
    hide *;
    BoundedAlways(cfg, r, w);
    BoundedMeaning(cfg, Reached(cfg, r), w, Attempts(r, w), ResetsDuring(cfg, r, w));
  }

  // ----- the bound is attained -----

  /** Worker `w` is at the top of its loop after so many attempts and resets, with the counter at `retry`. */
  predicate Stage(cfg: Config, r: Run, w: nat, attempts: nat, resets: nat, retry: nat) {
    && Valid(cfg, r) && InPhase(Reached(cfg, r), w, AtTop) && Reached(cfg, r).st.retryCount == retry
    && Attempts(r, w) == attempts && ResetsDuring(cfg, r, w) == resets
  }

  /** A foreground connect fails and spawns worker 0. */
  function Spawned(e: ConnectError): Run {
    Then(Then(Start, Begin(0)), ConnectErr(0, e, 0))
  }

  lemma SpawnedStage(cfg: Config, e: ConnectError)
    requires Retryable(e)
    ensures Stage(cfg, Spawned(e), 0, 0, 0, 1)
  {
    var r1 := Then(Start, Begin(0));
    assert Reached(cfg, Start) == INITIAL;
    assert Reached(cfg, r1).connects == map[0 := 1] && Valid(cfg, r1);
    assert Reached(cfg, r1).st == Server(Connecting, 0, None, 1, {}, NOTHING) && Reached(cfg, r1).workers == map[];
    NothingBeforeSpawn(cfg, r1, 0);
    SpawnStep(cfg, Reached(cfg, r1), ConnectErr(0, e, 0), 0);
  }

  lemma SpawnedIdle(cfg: Config, e: ConnectError)
    requires Retryable(e)
    ensures var x := Reached(cfg, Spawned(e));
            x.connects == map[] && x.workers == map[0 := AtTop] && x.st.token == 1 && x.st.cancelled == {}
  {
    var r1 := Then(Start, Begin(0));
    assert Reached(cfg, Start) == INITIAL;
    assert Reached(cfg, r1).connects == map[0 := 1] && Reached(cfg, r1).workers == map[];
    assert Reached(cfg, r1).st == Server(Connecting, 0, None, 1, {}, NOTHING);
  }

  /** The worker takes its turn, sleeps its delay out and starts an attempt. */
  function Try(r: Run, w: nat): Run {
    Then(Then(Then(r, Turn(w)), Elapse(w)), Wake(w))
  }

  lemma TurnFrom(cfg: Config, x: World, w: nat)
    requires InPhase(x, w, AtTop) && x.st.retryCount < cfg.maxRetries
    ensures Enabled(cfg, x, Turn(w))
    ensures var x1 := Next(cfg, x, Turn(w));
            && Enabled(cfg, x1, Elapse(w)) && x1.st.retryCount == x.st.retryCount
  {
  }

  lemma ElapseFrom(cfg: Config, x: World, w: nat)
    requires Enabled(cfg, x, Elapse(w))
    ensures var x1 := Next(cfg, x, Elapse(w));
            && Enabled(cfg, x1, Wake(w)) && x1.st == x.st
            && IsAttempting(Next(cfg, x1, Wake(w)), w) && Next(cfg, x1, Wake(w)).st == x.st
  {
  }

  /** An attempt of worker `w` is under way. */
  predicate Trying(cfg: Config, r: Run, w: nat, attempts: nat, resets: nat, retry: nat) {
    && Valid(cfg, r) && IsAttempting(Reached(cfg, r), w) && Reached(cfg, r).st.retryCount == retry
    && Attempts(r, w) == attempts && ResetsDuring(cfg, r, w) == resets
  }

  lemma TryOnce(cfg: Config, r: Run, w: nat, attempts: nat, resets: nat, retry: nat)
    requires Stage(cfg, r, w, attempts, resets, retry) && retry < cfg.maxRetries
    ensures Trying(cfg, Try(r, w), w, attempts + 1, resets, retry)
  {
    hide Next, Enabled;
    TurnFrom(cfg, Reached(cfg, r), w);
    var r1 := Then(r, Turn(w));
    assert Valid(cfg, r1) && Attempts(r1, w) == attempts && ResetsDuring(cfg, r1, w) == resets;
    ElapseFrom(cfg, Reached(cfg, r1), w);
    var r2 := Then(r1, Elapse(w));
    assert Valid(cfg, r2) && Attempts(r2, w) == attempts && ResetsDuring(cfg, r2, w) == resets;
    var r3 := Then(r2, Wake(w));
    assert Valid(cfg, r3) && Attempts(r3, w) == attempts + 1 && ResetsDuring(cfg, r3, w) == resets;
  }

  lemma FailOnce(cfg: Config, r: Run, w: nat, attempts: nat, resets: nat, retry: nat)
    requires Trying(cfg, r, w, attempts, resets, retry) && retry + 1 < cfg.maxRetries
    ensures Stage(cfg, Then(r, WorkerTimeout(w)), w, attempts, resets, retry + 1)
  {
    hide Valid, Reached, Attempts;
    assert Enabled(cfg, Reached(cfg, r), WorkerTimeout(w));
    RunStep(cfg, r, w, WorkerTimeout(w));
  }

  lemma RunStep(cfg: Config, r: Run, w: nat, s: Step)
    requires Valid(cfg, r) && Enabled(cfg, Reached(cfg, r), s)
    ensures Valid(cfg, Then(r, s)) && Reached(cfg, Then(r, s)) == Next(cfg, Reached(cfg, r), s)
    ensures s != Wake(w) ==> Attempts(Then(r, s), w) == Attempts(r, w)
  {
    hide Next, Enabled;
  }

  lemma ResetWhileTrying(cfg: Config, r: Run, w: nat, attempts: nat, resets: nat, retry: nat)
    requires Trying(cfg, r, w, attempts, resets, retry)
    ensures Trying(cfg, Then(r, ResetRetry), w, attempts, resets + 1, 0)
  {
    hide Valid, Reached, Attempts;
    RunStep(cfg, r, w, ResetRetry);
    assert ResetsFor(cfg, Reached(cfg, r), ResetRetry, w);
  }

  lemma ResetAtTop(cfg: Config, r: Run, w: nat, attempts: nat, resets: nat, retry: nat)
    requires Stage(cfg, r, w, attempts, resets, retry)
    ensures Stage(cfg, Then(r, ResetRetry), w, attempts, resets + 1, 0)
  {
    hide Valid, Reached, Attempts;
    RunStep(cfg, r, w, ResetRetry);
    assert ResetsFor(cfg, Reached(cfg, r), ResetRetry, w);
  }

  /** `k` attempts that time out. */
  function Failures(r: Run, k: nat): Run {
    if k == 0 then r else Then(Try(Failures(r, k - 1), 0), WorkerTimeout(0))
  }

  lemma {:induction false} FailRepeatedly(cfg: Config, r: Run, k: nat, attempts: nat, resets: nat, retry: nat)
    requires Stage(cfg, r, 0, attempts, resets, retry) && retry + k < cfg.maxRetries
    ensures Stage(cfg, Failures(r, k), 0, attempts + k, resets, retry + k)
    decreases k
  {
    hide Stage, Trying;
    if k > 0 {
      FailRepeatedly(cfg, r, k - 1, attempts, resets, retry);
      TryOnce(cfg, Failures(r, k - 1), 0, attempts + k - 1, resets, retry + k - 1);
      FailOnce(cfg, Try(Failures(r, k - 1), 0), 0, attempts + k, resets, retry + k - 1);
    }
  }

  /** All attempts up to the last one the limit allows, which is then under way. */
  function LastTry(cfg: Config, r: Run): Run
    requires cfg.maxRetries > 1
  {
    Try(Failures(r, cfg.maxRetries - 2), 0)
  }

  lemma LastTryStarts(cfg: Config, r: Run, attempts: nat, resets: nat)
    requires Stage(cfg, r, 0, attempts, resets, 1) && cfg.maxRetries > 1
    ensures Trying(cfg, LastTry(cfg, r), 0, attempts + cfg.maxRetries - 1, resets, cfg.maxRetries - 1)
  {
    hide Stage, Trying;
    FailRepeatedly(cfg, r, cfg.maxRetries - 2, attempts, resets, 1);
    TryOnce(cfg, Failures(r, cfg.maxRetries - 2), 0, attempts + cfg.maxRetries - 2, resets, cfg.maxRetries - 1);
  }

  /** `n` times over, a reset comes during the last attempt, which then fails. */
  function Rounds(cfg: Config, r: Run, n: nat): Run
    requires cfg.maxRetries > 1
  {
    if n == 0 then r
    else Then(Then(LastTry(cfg, Rounds(cfg, r, n - 1)), ResetRetry), WorkerTimeout(0))
  }

  lemma {:induction false} RoundsAddUp(cfg: Config, r: Run, n: nat)
    requires Stage(cfg, r, 0, 0, 0, 1) && cfg.maxRetries > 1
    ensures Stage(cfg, Rounds(cfg, r, n), 0, (cfg.maxRetries - 1) * n, n, 1)
  {
    hide Stage, Trying;
    var each := cfg.maxRetries - 1;
    if n == 0 {
      assert each * 0 == 0;
    } else {
      RoundsAddUp(cfg, r, n - 1);
      assert each * n == each * (n - 1) + each;
      var p := Rounds(cfg, r, n - 1);
      LastTryStarts(cfg, p, each * (n - 1), n - 1);
      ResetWhileTrying(cfg, LastTry(cfg, p), 0, each * n, n - 1, each);
      FailOnce(cfg, Then(LastTry(cfg, p), ResetRetry), 0, each * n, n, 0);
    }
  }

  function ResetRepeatedly(r: Run, n: nat): Run {
    if n == 0 then r else Then(ResetRepeatedly(r, n - 1), ResetRetry)
  }

  lemma {:induction false} ResetsAddUp(cfg: Config, r: Run, n: nat)
    requires Stage(cfg, r, 0, 0, 0, 1)
    ensures Stage(cfg, ResetRepeatedly(r, n), 0, 0, n, if n == 0 then 1 else 0)
  {
    hide Stage;
    if n > 0 {
      ResetsAddUp(cfg, r, n - 1);
      ResetAtTop(cfg, ResetRepeatedly(r, n - 1), 0, 0, n - 1, if n == 1 then 1 else 0);
    }
  }

  function BusiestRun(cfg: Config, e: ConnectError, resets: nat): Run {
    if cfg.maxRetries > 1 then LastTry(cfg, Rounds(cfg, Spawned(e), resets))
    else if cfg.maxRetries == 1 && resets > 0 then Try(ResetRepeatedly(Spawned(e), resets), 0)
    else ResetRepeatedly(Spawned(e), resets)
  }

  /** The bound is exact: for every limit and every number of resets a run attains it. */
  lemma AttemptsBoundTight(cfg: Config, e: ConnectError, resets: nat)
    requires Retryable(e)
    ensures var r := BusiestRun(cfg, e, resets);
            && Valid(cfg, r) && 0 in Reached(cfg, r).workers && ResetsDuring(cfg, r, 0) == resets
            && Attempts(r, 0) == MostAttempts(cfg, resets)
  {
    hide Valid, Reached, Attempts, ResetsDuring;
    SpawnedStage(cfg, e);
    if cfg.maxRetries > 1 {
      var each := cfg.maxRetries - 1;
      RoundsAddUp(cfg, Spawned(e), resets);
      LastTryStarts(cfg, Rounds(cfg, Spawned(e), resets), each * resets, resets);
      assert each * (1 + resets) == each * resets + each;
    } else {
      ResetsAddUp(cfg, Spawned(e), resets);
      if cfg.maxRetries == 1 && resets > 0 {
        TryOnce(cfg, ResetRepeatedly(Spawned(e), resets), 0, 0, resets, 0);
      }
    }
  }

  // ----- how long a worker sleeps -----

  lemma SleepStep(cfg: Config, x: World, s: Step, w: nat)
    requires Enabled(cfg, x, s) && IsSleeping(Next(cfg, x, s), w)
    ensures var retry := Next(cfg, x, s).workers[w].retry;
            if s == Turn(w) then retry < cfg.maxRetries else IsSleeping(x, w) && x.workers[w].retry == retry
  {
  }

  /** Every delay a worker sleeps belongs to a retry count below the limit, and stays within the bounds. */
  lemma {:induction false} SleepIsBounded(cfg: Config, r: Run, w: nat)
    requires Valid(cfg, r) && IsSleeping(Reached(cfg, r), w)
    ensures var retry := Reached(cfg, r).workers[w].retry;
            && retry < cfg.maxRetries
            && Backoff(cfg, 0) <= Backoff(cfg, retry) <= Backoff(cfg, cfg.maxRetries) <= cfg.backoffMax
  {
    hide Next, Enabled;
    match r
    case Start =>
    case Then(p, s) =>
      SleepStep(cfg, Reached(cfg, p), s, w);
      if s == Turn(w) {
        BackoffMonotone(cfg, 0, Reached(cfg, r).workers[w].retry);
        BackoffMonotone(cfg, Reached(cfg, r).workers[w].retry, cfg.maxRetries);
      } else {
        SleepIsBounded(cfg, p, w);
      }
  }

  // ----- which workers a disconnect stops -----

  /** A foreground connect began after the latest turn of `w`: it replaced the token `w` sleeps on. */
  predicate Orphaned(r: Run, w: nat) {
    r.Then? && r.step != Turn(w) && (r.step.Begin? || Orphaned(r.prev, w))
  }

  predicate TokenTracked(x: World, w: nat, orphaned: bool) {
    IsSleeping(x, w) ==>
      var t := x.workers[w].token;
      && t <= x.st.token
      && (orphaned ==> t < x.st.token)
      && (t !in x.st.cancelled ==> (t == x.st.token <==> !orphaned))
  }

  lemma TokenStep(cfg: Config, x: World, s: Step, w: nat, orphaned: bool)
    requires TokenTracked(x, w, orphaned) && TokensIssued(x.st)
    ensures TokenTracked(Next(cfg, x, s), w, s != Turn(w) && (s.Begin? || orphaned))
    ensures TokensIssued(Next(cfg, x, s).st)
  {
  }

  /** A sleeping worker nobody cancelled holds the current token unless a connect orphaned it. */
  lemma {:induction false} LiveSleeperToken(cfg: Config, r: Run, w: nat)
    ensures TokenTracked(Reached(cfg, r), w, Orphaned(r, w))
    ensures TokensIssued(Reached(cfg, r).st)
  {
    hide Next;
    match r
    case Start =>
    case Then(p, s) =>
      LiveSleeperToken(cfg, p, w);
      TokenStep(cfg, Reached(cfg, p), s, w, Orphaned(p, w));
  }

  /** Steps by which `w` starts an attempt or writes to the server. */
  predicate Acts(s: Step, w: nat) {
    s == Turn(w) || s == GiveUp(w) || s == Wake(w)
    || (s.WorkerOk? && s.w == w) || (s.WorkerErr? && s.w == w) || s == WorkerTimeout(w)
  }

  predicate ActsSince(p: Run, r: Run, w: nat) {
    r != p && r.Then? && (Acts(r.step, w) || ActsSince(p, r.prev, w))
  }

  /** After `p` the delay of `w` never runs out once its token is cancelled: the worker looks in time. */
  predicate LooksInTime(cfg: Config, p: Run, r: Run, w: nat) {
    r == p
    || (r.Then? && LooksInTime(cfg, p, r.prev, w) && !(r.step == Elapse(w) && IsCancelled(Reached(cfg, r.prev), w)))
  }

  /** A run that goes on from `p`; if `inTime`, only one in which `w` looks in time. */
  predicate GoesOn(cfg: Config, p: Run, r: Run, w: nat, inTime: bool) {
    Valid(cfg, r) && Extends(p, r) && (inTime ==> LooksInTime(cfg, p, r, w))
  }

  /** Whatever happens after `p`, the worker does nothing more. */
  ghost predicate IsSilencedAt(cfg: Config, p: Run, w: nat, inTime: bool) {
    forall r :: GoesOn(cfg, p, r, w, inTime) ==> !ActsSince(p, r, w)
  }

  /** The worker has ended, or, if it looks in time, can only end. */
  predicate IsDone(x: World, w: nat, inTime: bool) {
    w in x.workers && (x.workers[w].Finished? || (inTime && IsSleeping(x, w) && IsCancelled(x, w)))
  }

  lemma DoneStep(cfg: Config, x: World, s: Step, w: nat, inTime: bool)
    requires Enabled(cfg, x, s) && IsDone(x, w, inTime) && (inTime ==> !(s == Elapse(w) && IsCancelled(x, w)))
    ensures IsDone(Next(cfg, x, s), w, inTime) && !Acts(s, w)
  {
  }

  lemma {:induction false} DoneStays(cfg: Config, p: Run, r: Run, w: nat, inTime: bool)
    requires GoesOn(cfg, p, r, w, inTime) && IsDone(Reached(cfg, p), w, inTime)
    ensures IsDone(Reached(cfg, r), w, inTime) && !ActsSince(p, r, w)
  {
    hide IsDone, Next, Enabled, IsCancelled;
    if r != p {
      DoneStays(cfg, p, r.prev, w, inTime);
      DoneStep(cfg, Reached(cfg, r.prev), r.step, w, inTime);
    }
  }

  /** The next thing a worker that is not done can do. */
  function NextMove(cfg: Config, x: World, w: nat): Step
    requires w in x.workers
  {
    match x.workers[w]
    case AtTop => if x.st.retryCount < cfg.maxRetries then Turn(w) else GiveUp(w)
    case Sleeping(_, _) => Elapse(w)
    case Elapsed(_) => Wake(w)
    case _ => WorkerTimeout(w)
  }

  lemma ReadyMoves(cfg: Config, x: World, w: nat, inTime: bool)
    requires w in x.workers && !IsDone(x, w, inTime)
    ensures Enabled(cfg, x, NextMove(cfg, x, w))
    ensures inTime ==> !(NextMove(cfg, x, w) == Elapse(w) && IsCancelled(x, w))
    ensures IsSleeping(x, w) ==> HasElapsed(Next(cfg, x, Elapse(w)), w)
    ensures !IsSleeping(x, w) ==> Acts(NextMove(cfg, x, w), w)
  {
  }

  lemma {:induction false} Longer(cfg: Config, p: Run, r: Run, s: Step, w: nat, inTime: bool)
    requires GoesOn(cfg, p, r, w, inTime) && Enabled(cfg, Reached(cfg, r), s)
    requires inTime ==> !(s == Elapse(w) && IsCancelled(Reached(cfg, r), w))
    ensures GoesOn(cfg, p, Then(r, s), w, inTime) && Then(r, s) != p
  {
    hide Enabled, Next, IsCancelled;
    ExtensionsAreLonger(p, r);
  }

  function Length(r: Run): nat {
    if r.Start? then 0 else 1 + Length(r.prev)
  }

  lemma {:induction false} ExtensionsAreLonger(p: Run, r: Run)
    requires Extends(p, r)
    ensures Length(p) <= Length(r)
  {
    if r != p {
      ExtensionsAreLonger(p, r.prev);
    }
  }

  lemma ReadyWorkerActs(cfg: Config, p: Run, w: nat, inTime: bool)
    requires Valid(cfg, p) && w in Reached(cfg, p).workers && !IsDone(Reached(cfg, p), w, inTime)
    ensures !IsSilencedAt(cfg, p, w, inTime)
  {
    hide Next, Enabled, IsDone, IsCancelled;
    var x := Reached(cfg, p);
    ReadyMoves(cfg, x, w, inTime);
    var r := Then(p, NextMove(cfg, x, w));
    assert GoesOn(cfg, p, p, w, inTime);
    Longer(cfg, p, p, r.step, w, inTime);
    if IsSleeping(x, w) {
      ElapsedWakes(cfg, Reached(cfg, r), w);
      Longer(cfg, p, r, Wake(w), w, inTime);
      assert ActsSince(p, Then(r, Wake(w)), w);
    } else {
      assert ActsSince(p, r, w);
    }
  }

  lemma ElapsedWakes(cfg: Config, x: World, w: nat)
    requires HasElapsed(x, w)
    ensures Enabled(cfg, x, Wake(w))
  {
  }

  lemma SilencedIsDone(cfg: Config, p: Run, w: nat, inTime: bool)
    requires Valid(cfg, p) && w in Reached(cfg, p).workers
    ensures IsSilencedAt(cfg, p, w, inTime) <==> IsDone(Reached(cfg, p), w, inTime)
  {
    hide IsDone, Next, Enabled, GoesOn;
    if IsDone(Reached(cfg, p), w, inTime) {
      forall r | GoesOn(cfg, p, r, w, inTime) ensures !ActsSince(p, r, w) {
        DoneStays(cfg, p, r, w, inTime);
      }
    } else {
      ReadyWorkerActs(cfg, p, w, inTime);
    }
  }

  /** A disconnect silences a worker that looks in time exactly when it has ended, or sleeps and either was
      cancelled before or saw no connect begin since its latest turn. A worker at the top of its loop, past its
      delay or in an attempt goes on; and if the delay may run out before the worker looks, so may any sleeper. */
  lemma DisconnectStopsIff(cfg: Config, r: Run, w: nat)
    requires Valid(cfg, r) && w in Reached(cfg, r).workers
    ensures var x, p := Reached(cfg, r), Then(r, Disconnect);
            && (IsSilencedAt(cfg, p, w, true)
                <==> x.workers[w].Finished? || (IsSleeping(x, w) && (IsCancelled(x, w) || !Orphaned(r, w))))
            && (IsSilencedAt(cfg, p, w, false) <==> x.workers[w].Finished?)
  {
    var x, p := Reached(cfg, r), Then(r, Disconnect);
    LiveSleeperToken(cfg, r, w);
    assert Valid(cfg, p);
    SilencedIsDone(cfg, p, w, true);
    SilencedIsDone(cfg, p, w, false);
  }

  /** A sleeper that a disconnect silences has a way to end: it sees its token cancelled. */
  lemma SilencedSleeperEnds(cfg: Config, r: Run, w: nat)
    requires Valid(cfg, r) && IsSleeping(Reached(cfg, r), w) && (IsCancelled(Reached(cfg, r), w) || !Orphaned(r, w))
    ensures var stopped := Then(Then(r, Disconnect), Stop(w));
            Valid(cfg, stopped) && InPhase(Reached(cfg, stopped), w, Finished)
  {
    LiveSleeperToken(cfg, r, w);
    assert Valid(cfg, Then(r, Disconnect));
  }

  /** Whatever happens after `p`, the worker starts no further attempt. */
  ghost predicate NoMoreAttempts(cfg: Config, p: Run, w: nat, inTime: bool) {
    forall r :: GoesOn(cfg, p, r, w, inTime) ==> Attempts(r, w) == Attempts(p, w)
  }

  /** The worker has ended, can only end, or may not try again after the attempt it is in. */
  predicate IsSpent(cfg: Config, x: World, w: nat, inTime: bool) {
    || IsDone(x, w, inTime)
    || (InPhase(x, w, AtTop) && cfg.maxRetries == 0)
    || (IsAttempting(x, w) && cfg.maxRetries <= 1)
  }

  lemma SpentStep(cfg: Config, x: World, s: Step, w: nat, inTime: bool)
    requires Enabled(cfg, x, s) && IsSpent(cfg, x, w, inTime)
    requires inTime ==> !(s == Elapse(w) && IsCancelled(x, w))
    ensures IsSpent(cfg, Next(cfg, x, s), w, inTime) && s != Wake(w)
  {
    if IsDone(x, w, inTime) {
      hide Next, Enabled;
      DoneStep(cfg, x, s, w, inTime);
    }
  }

  lemma {:induction false} SpentStays(cfg: Config, p: Run, r: Run, w: nat, inTime: bool)
    requires GoesOn(cfg, p, r, w, inTime) && IsSpent(cfg, Reached(cfg, p), w, inTime)
    ensures IsSpent(cfg, Reached(cfg, r), w, inTime) && Attempts(r, w) == Attempts(p, w)
  {
    hide IsSpent, Next, Enabled, IsCancelled;
    if r != p {
      SpentStays(cfg, p, r.prev, w, inTime);
      SpentStep(cfg, Reached(cfg, r.prev), r.step, w, inTime);
    }
  }

  /** A run in which the worker tries again. */
  function TryAgain(cfg: Config, p: Run, w: nat): Run {
    var x := Reached(cfg, p);
    if IsSleeping(x, w) then Then(Then(p, Elapse(w)), Wake(w))
    else if HasElapsed(x, w) then Then(p, Wake(w))
    else if InPhase(x, w, AtTop) then Try(Then(p, ResetRetry), w)
    else Try(Then(Then(p, ResetRetry), WorkerTimeout(w)), w)
  }

  lemma TryAgainTries(cfg: Config, p: Run, w: nat, inTime: bool)
    requires Valid(cfg, p) && w in Reached(cfg, p).workers && !IsSpent(cfg, Reached(cfg, p), w, inTime)
    ensures var r := TryAgain(cfg, p, w);
            Valid(cfg, r) && Attempts(r, w) == Attempts(p, w) + 1
  {
    var x, a, n := Reached(cfg, p), Attempts(p, w), ResetsDuring(cfg, p, w);
    hide Next, Enabled;
    if IsSleeping(x, w) {
      ReadyMoves(cfg, x, w, inTime);
      ElapsedWakes(cfg, Reached(cfg, Then(p, Elapse(w))), w);
    } else if HasElapsed(x, w) {
      ElapsedWakes(cfg, x, w);
    } else if InPhase(x, w, AtTop) {
      ResetAtTop(cfg, p, w, a, n, x.st.retryCount);
      TryOnce(cfg, Then(p, ResetRetry), w, a, n + 1, 0);
    } else {
      ResetWhileTrying(cfg, p, w, a, n, x.st.retryCount);
      FailOnce(cfg, Then(p, ResetRetry), w, a, n + 1, 0);
      TryOnce(cfg, Then(Then(p, ResetRetry), WorkerTimeout(w)), w, a, n + 1, 1);
    }
  }

  /** Right after its turn a worker holds a token that nobody has cancelled. */
  lemma FreshTurnIsInTime(cfg: Config, p: Run, q: Run, w: nat)
    requires LooksInTime(cfg, p, q, w)
    ensures LooksInTime(cfg, p, Try(q, w), w)
  {
    hide Next, IsCancelled;
    var t := Then(q, Turn(w));
    TokensCount(cfg, q);
    TurnGivesFreshToken(cfg, Reached(cfg, q), w);
    assert !IsCancelled(Reached(cfg, t), w);
    assert LooksInTime(cfg, p, t, w);
    assert LooksInTime(cfg, p, Then(t, Elapse(w)), w);
  }

  lemma TurnGivesFreshToken(cfg: Config, x: World, w: nat)
    requires TokensIssued(x.st)
    ensures !IsCancelled(Next(cfg, x, Turn(w)), w)
  {
  }

  lemma TryAgainInTime(cfg: Config, p: Run, w: nat, inTime: bool)
    requires w in Reached(cfg, p).workers && !IsSpent(cfg, Reached(cfg, p), w, inTime)
    ensures Extends(p, TryAgain(cfg, p, w))
    ensures inTime ==> LooksInTime(cfg, p, TryAgain(cfg, p, w), w)
  {
    hide Next, IsCancelled;
    assert forall q, s :: Extends(p, q) ==> Extends(p, Then(q, s));
    var x := Reached(cfg, p);
    assert LooksInTime(cfg, p, p, w);
    var again := Then(p, ResetRetry);
    assert LooksInTime(cfg, p, again, w);
    assert LooksInTime(cfg, p, Then(again, WorkerTimeout(w)), w);
    if IsSleeping(x, w) {
      assert inTime ==> !IsCancelled(x, w);
      assert inTime ==> LooksInTime(cfg, p, Then(p, Elapse(w)), w);
    } else if InPhase(x, w, AtTop) {
      FreshTurnIsInTime(cfg, p, again, w);
    } else if !HasElapsed(x, w) {
      FreshTurnIsInTime(cfg, p, Then(again, WorkerTimeout(w)), w);
    }
  }

  lemma AttemptsEndIffSpent(cfg: Config, p: Run, w: nat, inTime: bool)
    requires Valid(cfg, p) && w in Reached(cfg, p).workers
    ensures NoMoreAttempts(cfg, p, w, inTime) <==> IsSpent(cfg, Reached(cfg, p), w, inTime)
  {
    hide IsSpent, Next, Enabled, IsCancelled;
    if IsSpent(cfg, Reached(cfg, p), w, inTime) {
      forall r | GoesOn(cfg, p, r, w, inTime) ensures Attempts(r, w) == Attempts(p, w) {
        SpentStays(cfg, p, r, w, inTime);
      }
    } else {
      TryAgainTries(cfg, p, w, inTime);
      TryAgainInTime(cfg, p, w, inTime);
      assert GoesOn(cfg, p, TryAgain(cfg, p, w), w, inTime);
    }
  }

  /** The same for attempts alone: after a disconnect the worker starts no further one exactly when it was
      silenced, or the limit leaves it none. */
  lemma DisconnectEndsAttemptsIff(cfg: Config, r: Run, w: nat, inTime: bool)
    requires Valid(cfg, r) && w in Reached(cfg, r).workers
    ensures var x, p := Reached(cfg, r), Then(r, Disconnect);
            NoMoreAttempts(cfg, p, w, inTime)
            <==> IsSilencedAt(cfg, p, w, inTime) || (InPhase(x, w, AtTop) && cfg.maxRetries == 0)
                 || (IsAttempting(x, w) && cfg.maxRetries <= 1)
  {
    var p := Then(r, Disconnect);
    assert Valid(cfg, p);
    SilencedIsDone(cfg, p, w, inTime);
    AttemptsEndIffSpent(cfg, p, w, inTime);
  }

  // ----- and the worker connects the server again -----

  /** After a disconnect any orphaned sleeper, even one that looks in time, can still connect its server; its
      service is live. */
  lemma OrphanReconnects(cfg: Config, r: Run, w: nat, service: nat, d: Discovery)
    requires Valid(cfg, r) && IsSleeping(Reached(cfg, r), w) && !IsCancelled(Reached(cfg, r), w) && Orphaned(r, w)
    ensures var again := Then(Then(Then(Then(r, Disconnect), Elapse(w)), Wake(w)), WorkerOk(w, service, d));
            && GoesOn(cfg, Then(r, Disconnect), again, w, true)
            && Listed(Reached(cfg, again).st) == d && IsLive(Reached(cfg, again).st)
  {
    hide Next, Enabled, Orphaned, IsCancelled;
    LiveSleeperToken(cfg, r, w);
    var x := Reached(cfg, r);
    NotTheCurrentToken(x, w, Orphaned(r, w));
    SleepsOn(cfg, x, w);
    var x1 := Next(cfg, x, Disconnect);
    ElapseFrom(cfg, x1, w);
    ListsFound(cfg, x1, w, service, d);
    var p := Then(r, Disconnect);
    var r1 := Then(p, Elapse(w));
    var r2 := Then(r1, Wake(w));
    assert GoesOn(cfg, p, p, w, true);
    Longer(cfg, p, p, Elapse(w), w, true);
    Longer(cfg, p, r1, Wake(w), w, true);
    Longer(cfg, p, r2, WorkerOk(w, service, d), w, true);
  }

  lemma NotTheCurrentToken(x: World, w: nat, orphaned: bool)
    requires IsSleeping(x, w) && orphaned && TokenTracked(x, w, orphaned)
    ensures x.workers[w].token != x.st.token
  {
  }

  lemma SleepsOn(cfg: Config, x: World, w: nat)
    requires IsSleeping(x, w) && !IsCancelled(x, w) && x.workers[w].token != x.st.token
    ensures Enabled(cfg, x, Disconnect) && Enabled(cfg, Next(cfg, x, Disconnect), Elapse(w))
    ensures IsSleeping(Next(cfg, x, Disconnect), w) && !IsCancelled(Next(cfg, x, Disconnect), w)
  {
  }

  lemma ListsFound(cfg: Config, x: World, w: nat, service: nat, d: Discovery)
    requires IsSleeping(x, w) && !IsCancelled(x, w)
    ensures var awake := Next(cfg, Next(cfg, x, Elapse(w)), Wake(w));
            var st := Next(cfg, awake, WorkerOk(w, service, d)).st;
            Enabled(cfg, awake, WorkerOk(w, service, d)) && Listed(st) == d && IsLive(st)
  {
  }

  /** Such orphans exist: a worker falls asleep, then a connect begins. */
  lemma OrphansExist(cfg: Config, e: ConnectError)
    requires Retryable(e) && cfg.maxRetries > 1
    ensures var r := Then(Then(Spawned(e), Turn(0)), Begin(0));
            Valid(cfg, r) && IsSleeping(Reached(cfg, r), 0) && !IsCancelled(Reached(cfg, r), 0) && Orphaned(r, 0)
  {
    SpawnedStage(cfg, e);
    SpawnedIdle(cfg, e);
    var r1 := Then(Spawned(e), Turn(0));
    assert Valid(cfg, r1) && Reached(cfg, r1).connects == map[] && InPhase(Reached(cfg, r1), 0, Sleeping(2, 1));
    assert Reached(cfg, r1).st.cancelled == {1};
  }

  /** A connect succeeds while a worker is waiting for its turn: the turn cuts off the service just found. */
  lemma TurnCutsService(cfg: Config, e: ConnectError, d: Discovery)
    requires Retryable(e) && cfg.maxRetries > 0
    ensures var r := Then(Then(Then(Spawned(e), Begin(1)), ConnectOk(1, 7, d)), Turn(0));
            var st := Reached(cfg, r).st;
            && Valid(cfg, r) && st.status.Connected? && Listed(st) == d && st.service.Some? && !IsLive(st)
            && !TakenSinceSuccess(r)
  {
    SpawnedStage(cfg, e);
    SpawnedIdle(cfg, e);
    var r1 := Then(Spawned(e), Begin(1));
    assert Valid(cfg, r1) && Reached(cfg, r1).connects == map[1 := 2] && InPhase(Reached(cfg, r1), 0, AtTop);
    assert Reached(cfg, r1).st.token == 2;
    var r2 := Then(r1, ConnectOk(1, 7, d));
    assert Valid(cfg, r2) && InPhase(Reached(cfg, r2), 0, AtTop);
    assert Reached(cfg, r2).st.service == Some(Running(7, 2)) && Reached(cfg, r2).st.token == 2;
  }
}
