/** `McpManager`: the runs of all its servers together, and the locked server table that goes through them. */
module McpManager {
  import opened Text
  import opened McpServer
  import opened McpRuns
  import opened McpWorkers
  import opened ServerNames

  datatype McpError = ServerNotFound(name: string) | Refused(name: string, detail: string)

  function Keys(alnum: char -> bool, names: seq<string>): set<string> {
    set n | n in names :: Sanitized(alnum, n)
  }

  // ----- runs of the whole manager -----

  /** A run of the manager: steps of its servers in any order, latest last. */
  datatype ManagerRun = Fresh | Also(prev: ManagerRun, server: string, step: Step)

  function Worlds(cfg: Config, keys: set<string>, r: ManagerRun): (m: map<string, World>)
    ensures m.Keys == keys
  {
    match r
    case Fresh => map k | k in keys :: INITIAL
    case Also(p, s, step) =>
      var m := Worlds(cfg, keys, p);
      if s in m then m[s := Next(cfg, m[s], step)] else m
  }

  predicate ValidManagerRun(cfg: Config, keys: set<string>, r: ManagerRun) {
    match r
    case Fresh => true
    case Also(p, s, step) =>
      ValidManagerRun(cfg, keys, p) && s in keys && Enabled(cfg, Worlds(cfg, keys, p)[s], step)
  }

  /** The steps of one server. */
  function StepsOf(r: ManagerRun, s: string): Run {
    match r
    case Fresh => Start
    case Also(p, s', step) => if s == s' then Then(StepsOf(p, s), step) else StepsOf(p, s)
  }

  /** Servers do not disturb one another: each is where its own steps alone would take it. */
  lemma {:induction false} ServersAreIndependent(cfg: Config, keys: set<string>, r: ManagerRun, s: string)
    requires ValidManagerRun(cfg, keys, r) && s in keys
    ensures Worlds(cfg, keys, r)[s] == Reached(cfg, StepsOf(r, s))
    ensures Valid(cfg, StepsOf(r, s))
  {
    hide Next, Enabled;
    match r
    case Fresh =>
    case Also(p, s', step) => ServersAreIndependent(cfg, keys, p, s);
  }

  function TableOf(m: map<string, World>): (t: Table)
    ensures t.Keys == m.Keys && forall s :: s in m ==> t[s] == m[s].st
  {
    map s | s in m :: m[s].st
  }

  lemma OneStepMore(cfg: Config, keys: set<string>, r: ManagerRun, s: string, step: Step)
    requires ValidManagerRun(cfg, keys, r) && s in keys && Enabled(cfg, Worlds(cfg, keys, r)[s], step)
    ensures var x := Next(cfg, Worlds(cfg, keys, r)[s], step);
            && ValidManagerRun(cfg, keys, Also(r, s, step))
            && Worlds(cfg, keys, Also(r, s, step))[s] == x
            && TableOf(Worlds(cfg, keys, Also(r, s, step))) == TableOf(Worlds(cfg, keys, r))[s := x.st]
  {
    hide Next, Enabled, TableOf;
    var m := Worlds(cfg, keys, r);
    var x := Next(cfg, m[s], step);
    assert Worlds(cfg, keys, Also(r, s, step)) == m[s := x];
    TableUpdate(m, s, x);
  }

  lemma TableUpdate(m: map<string, World>, s: string, x: World)
    requires s in m
    ensures TableOf(m[s := x]) == TableOf(m)[s := x.st]
  {
  }

  /** A number above all in the set. */
  ghost function Unused(s: set<nat>): (b: nat)
    ensures b !in s && forall n :: n in s ==> n < b
  {
    if s == {} then 0
    else
      var n :| n in s;
      var b := Unused(s - {n});
      assert s == s - {n} + {n};
      if n < b then b else n + 1
  }

  /** What connecting one server comes to. */
  datatype Answer = Found(id: nat, found: Discovery) | Refusal(error: ConnectError)

  /** A connect that nothing interrupts. */
  function ConnectedBy(cfg: Config, st: Server, answer: Answer): Server {
    match answer
    case Found(id, d) =>
      var begun := BeginConnect(st);
      Discovered(begun, Running(id, begun.token), d)
    case Refusal(e) => ConnectFailed(cfg, BeginConnect(st), e)
  }

  lemma AnswersAreEnabled(cfg: Config, x: World, c: nat, id: nat, d: Discovery)
    requires c in x.connects
    ensures Enabled(cfg, x, ConnectOk(c, id, d)) && TokenFor(x, ConnectOk(c, id, d)) == x.connects[c]
  {
  }

  /** The token a successful step's service runs on. */
  function TokenFor(x: World, step: Step): nat {
    match step
    case ConnectOk(c, _, _) => ConnectToken(x, c)
    case WorkerOk(w, _, _) => WorkerToken(x, w)
    case _ => 0
  }

  predicate IsFound(answer: Option<Answer>) {
    answer.Some? && answer.value.Found?
  }

  /** The attempts the counter leaves. */
  function AttemptsLeft(cfg: Config, st: Server): nat {
    if st.retryCount < cfg.maxRetries then cfg.maxRetries - st.retryCount else 0
  }

  /** What an attempt's answer leaves behind. */
  function AttemptStored(cfg: Config, st: Server, answer: Option<Answer>, token: nat): Server {
    match answer
    case Some(Found(id, d)) => Discovered(st, Running(id, token), d)
    case Some(Refusal(e)) => AttemptFailed(cfg, st, Display(e))
    case None => AttemptFailed(cfg, st, CONNECTION_TIMEOUT)
  }

  predicate Recovered(st: Server, found: Discovery) {
    st.status == Connected && st.retryCount == 0 && Listed(st) == found
  }

  predicate UsedUp(st: Server) {
    st.status == Error(MAX_RETRIES) && st.caches == NOTHING
  }

  /** What one round of the worker loop leaves behind. */
  function RoundStored(cfg: Config, st: Server, answer: Option<Answer>): Server {
    if AttemptsLeft(cfg, st) == 0 then Exhausted(st)
    else AttemptStored(cfg, TakeTurn(st), answer, TakeTurn(st).token)
  }

  lemma RoundOutcome(cfg: Config, st: Server, answer: Option<Answer>)
    ensures var left, st' := AttemptsLeft(cfg, st), RoundStored(cfg, st, answer);
            && (left > 0 && IsFound(answer) ==> Recovered(st', answer.value.found))
            && (left > 0 && !IsFound(answer) ==> AttemptsLeft(cfg, st') == left - 1)
            && (left == 0 || (left == 1 && !IsFound(answer)) ==> UsedUp(st'))
  {
    hide Display;
  }

  lemma SleepIsEnabled(cfg: Config, x: World, w: nat)
    requires IsSleeping(x, w)
    ensures Enabled(cfg, x, Elapse(w)) && HasElapsed(Next(cfg, x, Elapse(w)), w)
    ensures Next(cfg, x, Elapse(w)).workers[w].token == x.workers[w].token
  {
  }

  lemma WakeIsEnabled(cfg: Config, x: World, w: nat)
    requires HasElapsed(x, w)
    ensures Enabled(cfg, x, Wake(w)) && IsAttempting(Next(cfg, x, Wake(w)), w)
    ensures WorkerToken(Next(cfg, x, Wake(w)), w) == x.workers[w].token
  {
  }

  lemma AttemptIsEnabled(cfg: Config, x: World, w: nat, id: nat, d: Discovery)
    requires IsAttempting(x, w)
    ensures var step := WorkerOk(w, id, d);
            && Enabled(cfg, x, step) && TokenFor(x, step) == WorkerToken(x, w)
            && InPhase(Next(cfg, x, step), w, Finished)
  {
  }

  /** The table after the servers in `done` were retried. */
  function Retried(cfg: Config, t: Table, done: set<string>, answers: string -> Answer): Table {
    map s | s in t :: if s in done then ConnectedBy(cfg, ResetRetries(t[s]), answers(s)) else t[s]
  }

  lemma RetryOneMore(cfg: Config, t: Table, done: set<string>, answers: string -> Answer, s: string)
    requires s in t && s !in done
    ensures s in Retried(cfg, t, done, answers) && Retried(cfg, t, done, answers)[s] == t[s]
    ensures Retried(cfg, t, done + {s}, answers)
         == Retried(cfg, t, done, answers)[s := ConnectedBy(cfg, ResetRetries(t[s]), answers(s))]
  {
    hide ConnectedBy, ResetRetries;
  }

  /** Afterwards a server is connected exactly if it was, or its connect found something. */
  lemma RetriedConnects(cfg: Config, t: Table, answers: string -> Answer, s: string)
    requires s in t
    ensures Retried(cfg, t, NotConnected(t), answers)[s].status.Connected?
       <==> t[s].status.Connected? || answers(s).Found?
    ensures t[s].status.Connected? ==> Retried(cfg, t, NotConnected(t), answers)[s] == t[s]
    ensures !t[s].status.Connected? ==>
              Answered(cfg, t[s].(retryCount := 0), Retried(cfg, t, NotConnected(t), answers)[s], answers(s))
  {
    hide Display, Contains;
    ConnectedIsAnswered(cfg, ResetRetries(t[s]), answers(s));
  }

  lemma NothingToRetry(cfg: Config, t: Table, answers: string -> Answer)
    ensures Retried(cfg, t, {}, answers) == t
  {
  }

  function NotConnected(t: Table): set<string> {
    set s | s in t && !t[s].status.Connected?
  }

  function Tagged(s: string, tools: seq<ToolInfo>): (r: seq<(string, ToolInfo)>)
    ensures forall p :: p in r <==> p.0 == s && p.1 in tools
  {
    if tools == [] then [] else
      assert tools == [tools[0]] + tools[1..];
      [(s, tools[0])] + Tagged(s, tools[1..])
  }

  /** What a connect that nothing interrupts leaves behind, told without its regions: a success is stored whole; a
      refusal keeps the service, and counts unless a file is missing. */
  predicate Answered(cfg: Config, before: Server, st: Server, answer: Answer) {
    match answer
    case Found(id, d) =>
      && st.status.Connected? && st.retryCount == 0 && st.caches == d
      && st.service == Some(Running(id, before.token + 1))
    case Refusal(e) =>
      && st.service == before.service
      && if Contains(Display(e), "No such file or directory")
         then st.status == Error(Display(e)) && st.retryCount == before.retryCount && st.caches == before.caches
         else
           var last := before.retryCount + 1 >= cfg.maxRetries;
           && st.status == Error(if last then "max retries exceeded, retrying with delay" else Display(e))
           && st.retryCount == before.retryCount + 1 && st.caches == if last then NOTHING else before.caches
  }

  lemma ConnectedIsAnswered(cfg: Config, st: Server, answer: Answer)
    ensures Answered(cfg, st, ConnectedBy(cfg, st, answer), answer)
  {
    hide Display, FindFrom;
  }

  /** The lock on the server table. Each method below that changes `servers` is one write-locked region, or a
      sequence of them that nothing interrupts; `history` records the steps taken. */
  class Manager {
    const cfg: Config
    var servers: Table
    ghost const keys: set<string>
    ghost var history: ManagerRun

    ghost predicate Valid()
      reads this
    {
      ValidManagerRun(cfg, keys, history) && servers == TableOf(Worlds(cfg, keys, history))
    }

    ghost function WorldOf(name: string): World
      requires Valid() && name in servers
      reads this
    {
      Worlds(cfg, keys, history)[name]
    }

    constructor (alnum: char -> bool, names: seq<string>, cfg: Config)
      requires ExtendsAscii(alnum)
      ensures Valid() && this.cfg == cfg && keys == Keys(alnum, names) && history == Fresh
    {
      this.cfg, keys, history := cfg, Keys(alnum, names), Fresh;
      var t: Table := map[];
      for i := 0 to |names|
        invariant t == map k | k in Keys(alnum, names[..i]) :: FRESH
      {
        var key := SanitizeName(alnum, names[i]);
        assert names[..i + 1] == names[..i] + [names[i]];
        assert Keys(alnum, names[..i + 1]) == Keys(alnum, names[..i]) + {key};
        t := t[key := FRESH];
      }
      assert names[..|names|] == names;
      servers := t;
    }

    method ResetRetryCount(name: string)
      requires Valid()
      modifies this`servers, this`history
      ensures Valid()
      ensures history == if name in old(servers) then Also(old(history), name, ResetRetry) else old(history)
      ensures servers == if name in old(servers) then old(servers)[name := ResetRetries(old(servers)[name])]
                         else old(servers)
    {
      hide Worlds, ValidManagerRun, TableOf, StepsOf;
      if name in servers {
        OneStepMore(cfg, keys, history, name, ResetRetry);
        var state := servers[name];
        servers := servers[name := state.(retryCount := 0)];
        history := Also(history, name, ResetRetry);
      }
    }

    /** `connect_server`, first region; `c` names the connect until it has its answer. */
    method StartConnect(name: string) returns (token: Option<nat>, ghost c: nat)
      requires Valid()
      modifies this`servers, this`history
      ensures Valid()
      ensures history == if name in old(servers) then Also(old(history), name, Begin(c)) else old(history)
      ensures token.Some? <==> name in old(servers)
      ensures token.Some? ==> servers == old(servers)[name := BeginConnect(old(servers)[name])]
      ensures token.Some? ==> token.value == servers[name].token
      ensures token.Some? ==> c in WorldOf(name).connects && WorldOf(name).connects[c] == token.value
      ensures token.None? ==> servers == old(servers)
    {
      hide Worlds, ValidManagerRun, TableOf, StepsOf;
      if name !in servers {
        return None, 0;
      }
      c := Unused(WorldOf(name).connects.Keys);
      OneStepMore(cfg, keys, history, name, Begin(c));
      var state := servers[name];
      state := state.(status := Connecting);
      state := state.(token := state.token + 1);
      servers := servers[name := state];
      history := Also(history, name, Begin(c));
      token := Some(state.token);
    }

    /** The success region of a connect or of a worker's attempt. */
    method StoreDiscovery(name: string, service: Running, found: Discovery, ghost step: Step)
      requires Valid() && name in servers && Enabled(cfg, WorldOf(name), step)
      requires IsSuccess(step) && step.service == service.id && step.found == found
      requires service.token == TokenFor(WorldOf(name), step)
      modifies this`servers, this`history
      ensures Valid() && history == Also(old(history), name, step)
      ensures servers == old(servers)[name := Discovered(old(servers)[name], service, found)]
      ensures WorldOf(name) == Next(cfg, old(WorldOf(name)), step)
    {
      hide Worlds, ValidManagerRun, TableOf, StepsOf;
      OneStepMore(cfg, keys, history, name, step);
      var state := servers[name];
      state := state.(service := Some(service));
      state := state.(caches := found);
      state := state.(status := Connected);
      state := state.(retryCount := 0);
      servers := servers[name := state];
      history := Also(history, name, step);
    }

    /** The failure region of `connect_server`; true when worker `w` is spawned. */
    method StoreConnectError(name: string, e: ConnectError, ghost c: nat) returns (spawn: bool, ghost w: nat)
      requires Valid() && name in servers && c in WorldOf(name).connects
      modifies this`servers, this`history
      ensures Valid() && history == Also(old(history), name, ConnectErr(c, e, w))
      ensures servers == old(servers)[name := ConnectFailed(cfg, old(servers)[name], e)]
      ensures spawn <==> InPhase(WorldOf(name), w, AtTop)
      ensures e.ConnectionFailed? && Contains(e.detail, "No such file or directory") ==> !spawn
      ensures Contains(Display(e), "No such file or directory") ==>
                && !spawn && WorldOf(name).workers == old(WorldOf(name)).workers
                && servers[name] == old(servers)[name].(status := Error(Display(e)))
      ensures !Contains(Display(e), "No such file or directory") ==>
                && spawn && w !in old(WorldOf(name)).workers
                && WorldOf(name).workers == old(WorldOf(name)).workers[w := AtTop]
                && servers[name].retryCount == old(servers)[name].retryCount + 1
    {
      hide Contains, Display, Worlds, ValidManagerRun, TableOf, StepsOf;
      spawn, w := false, Unused(WorldOf(name).workers.Keys);
      OneStepMore(cfg, keys, history, name, ConnectErr(c, e, w));
      history := Also(history, name, ConnectErr(c, e, w));
      var message := Display(e);
      if e.ConnectionFailed? && Contains(e.detail, "No such file or directory") {
        MissingFileIsDisplayed(e.server, e.detail);
      }
      var state := servers[name];
      if Contains(message, NO_SUCH_FILE) {
        servers := servers[name := state.(status := Error(message))];
        return;
      }
      state := state.(retryCount := state.retryCount + 1);
      if state.retryCount >= cfg.maxRetries {
        state := state.(caches := NOTHING);
        state := state.(status := Error(MAX_RETRIES_DELAYED));
      } else {
        state := state.(status := Error(message));
      }
      servers := servers[name := state];
      spawn := true;
    }

    /** Top of the worker loop: the token and retry count to sleep on, or none when the worker ends. */
    method WorkerTurn(name: string, ghost w: nat) returns (turn: Option<(nat, nat)>)
      requires Valid() && name in servers && InPhase(WorldOf(name), w, AtTop)
      modifies this`servers, this`history
      ensures Valid() && history == Also(old(history), name, if turn.Some? then Turn(w) else GiveUp(w))
      ensures InPhase(WorldOf(name), w,
                      if turn.Some? then Sleeping(turn.value.0, turn.value.1) else Finished)
      ensures turn.Some? <==> AttemptsLeft(cfg, old(servers)[name]) > 0
      ensures turn.Some? ==> turn.value == (servers[name].token, servers[name].retryCount)
      ensures var st := old(servers)[name];
              servers == old(servers)[name := if turn.Some? then TakeTurn(st) else Exhausted(st)]
    {
      hide Worlds, ValidManagerRun, TableOf, StepsOf;
      var state := servers[name];
      if state.retryCount >= cfg.maxRetries {
        OneStepMore(cfg, keys, history, name, GiveUp(w));
        history := Also(history, name, GiveUp(w));
        state := state.(caches := NOTHING);
        state := state.(status := Error(MAX_RETRIES));
        servers := servers[name := state];
        return None;
      }
      OneStepMore(cfg, keys, history, name, Turn(w));
      history := Also(history, name, Turn(w));
      state := state.(cancelled := state.cancelled + {state.token});
      state := state.(token := state.token + 1);
      servers := servers[name := state];
      turn := Some((state.token, state.retryCount));
    }

    /** The worker's sleep: it looks at its token and its timer, not at the table. */
    ghost method NoteSleep(name: string, step: Step)
      requires Valid() && name in servers && (step.Elapse? || step.Wake? || step.Stop?)
      requires Enabled(cfg, WorldOf(name), step)
      modifies this`history
      ensures Valid() && history == Also(old(history), name, step)
      ensures WorldOf(name) == Next(cfg, old(WorldOf(name)), step)
    {
      hide Worlds, ValidManagerRun, TableOf, StepsOf;
      OneStepMore(cfg, keys, history, name, step);
      history := Also(history, name, step);
    }

    /** A worker's failed attempt, or its timed-out one; true when the worker ends. */
    method StoreAttemptFailure(name: string, failure: Option<ConnectError>, ghost w: nat) returns (done: bool)
      requires Valid() && name in servers && IsAttempting(WorldOf(name), w)
      modifies this`servers, this`history
      ensures Valid()
      ensures history == Also(old(history), name,
                              if failure.Some? then WorkerErr(w, failure.value) else WorkerTimeout(w))
      ensures InPhase(WorldOf(name), w, if done then Finished else AtTop)
      ensures var message := if failure.Some? then Display(failure.value) else CONNECTION_TIMEOUT;
              servers == old(servers)[name := AttemptFailed(cfg, old(servers)[name], message)]
      ensures done <==> old(servers)[name].retryCount + 1 >= cfg.maxRetries
    {
      hide Contains, Display, Worlds, ValidManagerRun, TableOf, StepsOf;
      ghost var step := if failure.Some? then WorkerErr(w, failure.value) else WorkerTimeout(w);
      OneStepMore(cfg, keys, history, name, step);
      history := Also(history, name, step);
      done := false;
      var state := servers[name];
      state := state.(retryCount := state.retryCount + 1);
      state := state.(status := Error(if failure.Some? then Display(failure.value) else CONNECTION_TIMEOUT));
      if state.retryCount >= cfg.maxRetries {
        state := state.(caches := NOTHING);
        state := state.(status := Error(MAX_RETRIES));
        done := true;
      }
      servers := servers[name := state];
    }

    /** `finished` is false when the caller gives up while the service that was taken is being closed. */
    method DisconnectServer(name: string, finished: bool) returns (r: Result<(), McpError>)
      requires Valid()
      requires name in servers && !finished ==> servers[name].service.Some?
      modifies this`servers, this`history
      ensures Valid()
      ensures history == if name !in old(servers) then old(history)
                         else if finished then Also(old(history), name, Disconnect)
                         else Also(old(history), name, DropClosing)
      ensures r.Err? <==> name !in old(servers)
    {
      hide Worlds, ValidManagerRun, TableOf, StepsOf;
      if name !in servers {
        return Err(ServerNotFound(name));
      }
      ghost var step := if finished then Disconnect else DropClosing;
      OneStepMore(cfg, keys, history, name, step);
      history := Also(history, name, step);
      var state := servers[name];
      state := state.(cancelled := state.cancelled + {state.token});
      if state.service.Some? {
        state := state.(service := None);
      }
      if finished {
        state := state.(caches := NOTHING);
        state := state.(status := Disconnected);
      }
      servers := servers[name := state];
      r := Ok(());
    }

    /** `reconnect`, first region, when its caller does not give up. */
    method StartReconnect(name: string) returns (r: Result<(), McpError>)
      requires Valid()
      modifies this`servers, this`history
      ensures Valid()
      ensures history == if name in old(servers) then Also(old(history), name, PrepareReconnect) else old(history)
      ensures servers == if name in old(servers) then old(servers)[name := PreparedReconnect(old(servers)[name])]
                         else old(servers)
      ensures r == if name in old(servers) then Ok(()) else Err(ServerNotFound(name))
    {
      hide Worlds, ValidManagerRun, TableOf, StepsOf;
      if name !in servers {
        return Err(ServerNotFound(name));
      }
      OneStepMore(cfg, keys, history, name, PrepareReconnect);
      history := Also(history, name, PrepareReconnect);
      var state := servers[name];
      state := state.(cancelled := state.cancelled + {state.token});
      if state.status == Connected {
        if state.service.Some? {
          state := state.(service := None);
        }
        state := state.(caches := NOTHING);
      }
      state := state.(retryCount := 0);
      servers := servers[name := state];
      r := Ok(());
    }

    // ----- whole operations -----

    /** `connect_server`, when nothing comes in between; an unknown name is ignored. */
    method ConnectServer(name: string, answer: Answer)
      requires Valid()
      modifies this`servers, this`history
      ensures Valid()
      ensures servers == if name in old(servers) then old(servers)[name := ConnectedBy(cfg, old(servers)[name], answer)]
                         else old(servers)
      ensures name in old(servers) ==> Answered(cfg, old(servers)[name], servers[name], answer)
    {
      hide Valid, WorldOf, Worlds, ValidManagerRun, TableOf, StepsOf, Next, Enabled, Discovered, BeginConnect,
           ConnectFailed, Answered, Display, Contains;
      if name in servers {
        ConnectedIsAnswered(cfg, servers[name], answer);
      }
      var token, c := StartConnect(name);
      if token.Some? {
        match answer
        case Found(id, d) =>
          AnswersAreEnabled(cfg, WorldOf(name), c, id, d);
          StoreDiscovery(name, Running(id, token.value), d, ConnectOk(c, id, d));
        case Refusal(e) =>
          var spawn, w := StoreConnectError(name, e, c);
      }
    }

    /** The worker sleeps its delay out and starts an attempt. */
    ghost method SleepOut(name: string, w: nat)
      requires Valid() && name in servers && IsSleeping(WorldOf(name), w)
      modifies this`history
      ensures Valid() && IsAttempting(WorldOf(name), w)
      ensures WorkerToken(WorldOf(name), w) == old(WorldOf(name)).workers[w].token
    {
      hide Worlds, ValidManagerRun, TableOf, StepsOf, Next, Enabled, Valid, WorldOf;
      SleepIsEnabled(cfg, WorldOf(name), w);
      NoteSleep(name, Elapse(w));
      WakeIsEnabled(cfg, WorldOf(name), w);
      NoteSleep(name, Wake(w));
    }

    /** One attempt of a worker comes back; no answer stands for one that timed out. */
    method StoreAttempt(name: string, answer: Option<Answer>, token: nat, ghost w: nat) returns (done: bool)
      requires Valid() && name in servers
      requires IsAttempting(WorldOf(name), w) && token == WorkerToken(WorldOf(name), w)
      modifies this`servers, this`history
      ensures Valid() && InPhase(WorldOf(name), w, if done then Finished else AtTop)
      ensures servers == old(servers)[name := AttemptStored(cfg, old(servers)[name], answer, token)]
      ensures done <==> IsFound(answer) || old(servers)[name].retryCount + 1 >= cfg.maxRetries
      ensures history == Also(old(history), name,
                              if answer.None? then WorkerTimeout(w)
                              else if answer.value.Found? then WorkerOk(w, answer.value.id, answer.value.found)
                              else WorkerErr(w, answer.value.error))
    {
      hide Worlds, ValidManagerRun, TableOf, StepsOf, Next, Enabled, Valid, WorldOf, WorkerToken, Display;
      match answer
      case Some(Found(id, d)) =>
        AttemptIsEnabled(cfg, WorldOf(name), w, id, d);
        StoreDiscovery(name, Running(id, token), d, WorkerOk(w, id, d));
        done := true;
      case Some(Refusal(e)) => done := StoreAttemptFailure(name, Some(e), w);
      case None => done := StoreAttemptFailure(name, None, w);
    }

    /** One round of the worker loop, when nothing comes in between. */
    method RunRound(name: string, answer: Option<Answer>, ghost w: nat) returns (turned: bool, done: bool)
      requires Valid() && name in servers && InPhase(WorldOf(name), w, AtTop)
      modifies this`servers, this`history
      ensures Valid() && InPhase(WorldOf(name), w, if done then Finished else AtTop)
      ensures turned <==> AttemptsLeft(cfg, old(servers)[name]) > 0
      ensures servers == old(servers)[name := RoundStored(cfg, old(servers)[name], answer)]
      ensures done <==> IsFound(answer) || AttemptsLeft(cfg, old(servers)[name]) <= 1 || !turned
    {
      hide Worlds, ValidManagerRun, TableOf, StepsOf, Next, Enabled, Valid, WorldOf, AttemptStored, Exhausted, IsFound,
           IsAttempting;
      var turn := WorkerTurn(name, w);
      if turn.None? {
        return false, true;
      }
      SleepOut(name, w);
      done := StoreAttempt(name, answer, turn.value.0, w);
      turned := true;
    }

    /** The loop of `spawn_reconnect`, when nothing comes in between: it tries until an attempt succeeds or the
        attempts are used up. */
    method RunWorker(name: string, answers: nat -> Option<Answer>, ghost w: nat) returns (tries: nat)
      requires Valid() && name in servers && InPhase(WorldOf(name), w, AtTop)
      modifies this`servers, this`history
      ensures Valid() && servers.Keys == old(servers).Keys && InPhase(WorldOf(name), w, Finished)
      ensures forall s :: s in servers && s != name ==> servers[s] == old(servers)[s]
      ensures forall k :: 0 <= k < tries - 1 ==> !IsFound(answers(k))
      ensures var st := servers[name];
              if tries > 0 && IsFound(answers(tries - 1))
              then Recovered(st, answers(tries - 1).value.found) && tries <= AttemptsLeft(cfg, old(servers)[name])
              else UsedUp(st) && tries == AttemptsLeft(cfg, old(servers)[name])
    {
      hide Worlds, Valid, WorldOf, RoundStored, Recovered, UsedUp, IsFound, InPhase;
      tries := 0;
      while true
        invariant Valid() && servers.Keys == old(servers).Keys && InPhase(WorldOf(name), w, AtTop)
        invariant forall s :: s in servers && s != name ==> servers[s] == old(servers)[s]
        invariant forall k :: 0 <= k < tries ==> !IsFound(answers(k))
        invariant tries + AttemptsLeft(cfg, servers[name]) == AttemptsLeft(cfg, old(servers)[name])
        invariant tries == 0 || AttemptsLeft(cfg, servers[name]) > 0
        decreases AttemptsLeft(cfg, servers[name])
      {
        RoundOutcome(cfg, servers[name], answers(tries));
        var turned, done := RunRound(name, answers(tries), w);
        if turned {
          tries := tries + 1;
        }
        if done {
          return;
        }
      }
    }

    /** `reconnect_all`: every server that is not connected gets a fresh retry counter and one connect. */
    method ReconnectAll(answers: string -> Answer)
      requires Valid()
      modifies this`servers, this`history
      ensures Valid() && servers == Retried(cfg, old(servers), NotConnected(old(servers)), answers)
    {
      hide Valid, WorldOf, Worlds, ValidManagerRun, TableOf, Retried, ConnectedBy, ResetRetries;
      var rest := NotConnected(servers);
      ghost var all, done := rest, {};
      NothingToRetry(cfg, servers, answers);
      while rest != {}
        invariant Valid() && rest !! done && rest + done == all
        invariant servers == Retried(cfg, old(servers), done, answers)
      {
        var name :| name in rest;
        RetryOneMore(cfg, old(servers), done, answers, name);
        ResetRetryCount(name);
        ConnectServer(name, answers(name));
        rest, done := rest - {name}, done + {name};
      }
      assert done == all;
    }

    /** The end of `reconnect`: it reports the status it finds, whoever stored it. */
    method ReadReconnect(name: string) returns (r: Result<(), McpError>)
      ensures r.Ok? <==> name in servers && servers[name].status.Connected?
      ensures r == Err(ServerNotFound(name)) <==> name !in servers
      ensures name in servers && servers[name].status.Error? ==> r == Err(Refused(name, servers[name].status.message))
      ensures name in servers && (servers[name].status.Disconnected? || servers[name].status.Connecting?) ==>
                r == Err(Refused(name, "reconnect did not complete"))
    {
      if name !in servers {
        return Err(ServerNotFound(name));
      }
      match servers[name].status
      case Connected => r := Ok(());
      case Error(e) => r := Err(Refused(name, e));
      case _ => r := Err(Refused(name, "reconnect did not complete"));
    }

    /** `reconnect`, when nothing comes in between: it succeeds exactly when the connect does. */
    method Reconnect(name: string, answer: Answer) returns (r: Result<(), McpError>)
      requires Valid()
      modifies this`servers, this`history
      ensures Valid()
      ensures r.Ok? <==> name in old(servers) && answer.Found?
      ensures name !in old(servers) ==> r == Err(ServerNotFound(name)) && servers == old(servers)
      ensures name in old(servers) && answer.Refusal? ==>
                r == Err(Refused(name, if Retryable(answer.error) && cfg.maxRetries <= 1 then MAX_RETRIES_DELAYED
                                       else Display(answer.error)))
    {
      hide Valid, WorldOf, Worlds, ValidManagerRun, TableOf, StepsOf, Next;
      r := StartReconnect(name);
      if r.Err? {
        return;
      }
      ConnectServer(name, answer);
      r := ReadReconnect(name);
    }

    /** `list_all_tools`: exactly the tools of each server's latest discovery. */
    method ListAllTools() returns (tools: seq<(string, ToolInfo)>)
      requires Valid()
      ensures forall s, t :: (s, t) in tools
                        <==> s in servers && t in LatestDiscovery(StepsOf(history, s)).tools
    {
      hide Worlds, ValidManagerRun, TableOf, StepsOf, LatestDiscovery, Lifecycle, Stale;
      tools := [];
      var rest := servers.Keys;
      while rest != {}
        invariant rest <= servers.Keys
        invariant forall s, t :: (s, t) in tools
                            <==> s in servers && s !in rest && t in LatestDiscovery(StepsOf(history, s)).tools
      {
        var s :| s in rest;
        AlwaysAt(cfg, keys, history, s);
        if servers[s].status == Connected {
          tools := tools + Tagged(s, servers[s].caches.tools);
        }
        rest := rest - {s};
      }
    }
  }

  lemma AlwaysAt(cfg: Config, keys: set<string>, r: ManagerRun, s: string)
    requires ValidManagerRun(cfg, keys, r) && s in keys
    ensures var st := TableOf(Worlds(cfg, keys, r))[s];
            && Lifecycle(st) && Listed(st) == LatestDiscovery(StepsOf(r, s))
            && (st.caches != NOTHING ==>
                (Stale(st) <==> DroppedSinceSuccess(StepsOf(r, s)) || ServiceCut(StepsOf(r, s))))
  {
    hide Reached, Valid, ValidManagerRun, Worlds, TableOf, Lifecycle, LatestDiscovery, DroppedSinceSuccess,
         ServiceCut, Stale;
    ServersAreIndependent(cfg, keys, r, s);
    LifecycleAlways(cfg, StepsOf(r, s));
    ListingIsLatestDiscovery(cfg, StepsOf(r, s));
  }

  /** In every state of a manager: the keys are canonical, each server keeps its lifecycle, the listings are
      exactly the latest discoveries, and every worker stays within its attempts. */
  lemma ManagerAlways(m: Manager, alnum: char -> bool, names: seq<string>, s: string, w: nat)
    requires ExtendsAscii(alnum) && m.keys == Keys(alnum, names) && m.Valid() && s in m.servers
    ensures var steps := StepsOf(m.history, s);
            && m.servers.Keys == Keys(alnum, names) && Sanitized(alnum, s) == s
            && Lifecycle(m.servers[s])
            && (m.servers[s].caches != NOTHING ==>
                  (Stale(m.servers[s]) <==> DroppedSinceSuccess(steps) || ServiceCut(steps)))
            && (if s in Listings(m.servers) then Listings(m.servers)[s] else NOTHING) == LatestDiscovery(steps)
            && (w in m.WorldOf(s).workers ==> Attempts(steps, w) <= MostAttempts(m.cfg, ResetsDuring(m.cfg, steps, w)))
  {
    var n :| n in names && Sanitized(alnum, n) == s;
    SanitizedIsCanonical(alnum, n);
    AlwaysAt(m.cfg, m.keys, m.history, s);
    ServersAreIndependent(m.cfg, m.keys, m.history, s);
    if w in m.WorldOf(s).workers {
      AttemptsBounded(m.cfg, StepsOf(m.history, s), w);
    }
  }

  /** Filtering by a configured name finds that server exactly when the name is already canonical. */
  lemma FilterByConfiguredNameIff(m: Manager, alnum: char -> bool, names: seq<string>, n: string)
    requires ExtendsAscii(alnum) && m.keys == Keys(alnum, names) && m.Valid() && n in names
    ensures n in Filter(m.servers, Some([n]), true) <==> Canonical(alnum, n)
  {
    SanitizedIsCanonical(alnum, n);
    if n in m.keys {
      var n' :| n' in names && Sanitized(alnum, n') == n;
      SanitizedIsCanonical(alnum, n');
    }
  }

  /** A server configured as `my server` cannot be filtered for by that name. */
  lemma SpacedNameIsNotFound(m: Manager, alnum: char -> bool)
    requires ExtendsAscii(alnum) && m.keys == Keys(alnum, ["my server"]) && m.Valid()
    ensures "my server" !in Filter(m.servers, Some(["my server"]), true)
  {
    var name := "my server";
    hide Sanitized;
    FilterByConfiguredNameIff(m, alnum, ["my server"], name);
    assert name[2] == ' ' && !Kept(alnum, name[2]);
  }
}
