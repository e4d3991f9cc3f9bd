/** The data-plane connector: register, snapshot and heartbeat over any network behaviour. */
module Connector {
  import opened Text

  datatype Sending = EncodeFailed | SendFailed | Sent

  /** What a read with a timeout gives: a text reply of some kind, a socket error, or nothing usable in time. */
  datatype Reply = Accepted | Rejected | Unreadable | SocketError | NoReply

  datatype LoopEvent = Tick | MessageRead | ReadError | SocketClosed

  /** The network's answer to one await; each await looks at the part that concerns it. */
  datatype Answer = Answer(connects: bool, sending: Sending, reply: Reply, event: LoopEvent)

  /** The await the connector stands at. */
  datatype Phase =
    | Connecting | Registering | AwaitingAck | Snapshotting | AwaitingSnapshotAck
    | Online | Beating | AwaitingBeat | Halted

  /** What happened on the wire, a send being logged when it is attempted. */
  datatype Entry = Slept(seconds: nat) | Opened | Register | Ack | Snapshot(revision: nat) | Heartbeat | Closed

  datatype Conn = Conn(phase: Phase, backoff: nat, revision: nat, log: seq<Entry>)

  const MAX_BACKOFF := 60

  const START := Conn(Connecting, 1, 1, [])

  function Capped(n: nat): nat {
    Min(n, MAX_BACKOFF)
  }

  function Logged(c: Conn, e: Entry): Conn {
    c.(log := c.log + [e])
  }

  /** Back to the top of the loop, which counts the revision up. */
  function Again(c: Conn): Conn {
    c.(phase := Connecting, revision := c.revision + 1)
  }

  function AfterSend(c: Conn, sending: Sending, next: Phase): Conn {
    if sending.Sent? then c.(phase := next) else Again(c)
  }

  predicate IsTextReply(r: Reply) {
    r.Accepted? || r.Rejected? || r.Unreadable?
  }

  function Step(c: Conn, a: Answer): Conn {
    match c.phase
    case Connecting =>
      if a.connects then Logged(c, Opened).(backoff := 1, phase := Registering)
      else Again(Logged(c, Slept(c.backoff)).(backoff := Capped(2 * c.backoff)))
    case Registering =>
      if a.sending.EncodeFailed? then c.(phase := Halted)
      else AfterSend(Logged(c, Register), a.sending, AwaitingAck)
    case AwaitingAck =>
      if a.reply.Accepted? then Logged(c, Ack).(phase := Snapshotting) else Again(c)
    case Snapshotting =>
      if a.sending.EncodeFailed? then c.(phase := Halted)
      else AfterSend(Logged(c, Snapshot(c.revision)), a.sending, AwaitingSnapshotAck)
    case AwaitingSnapshotAck => c.(phase := Online)
    case Online =>
      if a.event.Tick? then c.(phase := Beating)
      else if a.event.MessageRead? then c
      else Again(Logged(c, Closed))
    case Beating =>
      if a.sending.EncodeFailed? then c.(phase := Online)
      else if a.sending.SendFailed? then Again(Logged(Logged(c, Heartbeat), Closed))
      else Logged(c, Heartbeat).(phase := AwaitingBeat)
    case AwaitingBeat =>
      if IsTextReply(a.reply) then c.(phase := Online) else Again(Logged(c, Closed))
    case Halted => c
  }

  function Run(script: seq<Answer>): Conn {
    if script == [] then START else Step(Run(script[..|script| - 1]), script[|script| - 1])
  }

  lemma OneMore(script: seq<Answer>, i: nat)
    requires i < |script|
    ensures Run(script[..i + 1]) == Step(Run(script[..i]), script[i])
  {
    assert script[..i + 1][..i] == script[..i];
  }

  lemma {:induction false} HaltedStays(script: seq<Answer>, i: nat)
    requires i <= |script| && Run(script[..i]).phase == Halted
    ensures Run(script) == Run(script[..i])
  {
    if i < |script| {
      assert script[..|script| - 1][..i] == script[..i];
      HaltedStays(script[..|script| - 1], i);
    } else {
      assert script[..i] == script;
    }
  }

  /** The answer to the await at `i`, or the end of the script. */
  lemma NextAwait(script: seq<Answer>, i: nat, c: Conn)
    requires i <= |script| && Run(script[..i]) == c
    ensures i == |script| ==> c == Run(script)
    ensures i < |script| ==> Run(script[..i + 1]) == Step(c, script[i])
  {
    if i == |script| {
      assert script[..i] == script;
    } else {
      OneMore(script, i);
    }
  }

  /** Register, ack, snapshot, ack: ends online, back at the top, or where the script or the task stopped. */
  method Handshake(script: seq<Answer>, start: nat, backoff: nat, revision: nat, openedLog: seq<Entry>)
    returns (i: nat, c: Conn)
    requires start <= |script| && Run(script[..start]) == Conn(Registering, backoff, revision, openedLog)
    ensures start <= i <= |script| && Run(script[..i]) == c
    ensures c.phase.Online? || (c.phase.Connecting? && start < i) || c == Run(script)
    ensures c.phase.Online? ==> c.backoff == backoff && c.revision == revision
  {
    hide Run;
    i, c := start, Conn(Registering, backoff, revision, openedLog);
    NextAwait(script, i, c);
    if i == |script| {
      return;
    }
    if script[i].sending.EncodeFailed? {
      c := c.(phase := Halted);
      i := i + 1;
      HaltedStays(script, i);
      return;
    }
    c := c.(log := c.log + [Register]);
    i := i + 1;
    if script[i - 1].sending.SendFailed? {
      c := Again(c);
      return;
    }
    c := c.(phase := AwaitingAck);

    NextAwait(script, i, c);
    if i == |script| {
      return;
    }
    i := i + 1;
    if !script[i - 1].reply.Accepted? {
      c := Again(c);
      return;
    }
    c := c.(phase := Snapshotting, log := c.log + [Ack]);

    NextAwait(script, i, c);
    if i == |script| {
      return;
    }
    if script[i].sending.EncodeFailed? {
      c := c.(phase := Halted);
      i := i + 1;
      HaltedStays(script, i);
      return;
    }
    c := c.(log := c.log + [Snapshot(revision)]);
    i := i + 1;
    if script[i - 1].sending.SendFailed? {
      c := Again(c);
      return;
    }
    c := c.(phase := AwaitingSnapshotAck);

    NextAwait(script, i, c);
    if i == |script| {
      return;
    }
    i := i + 1;
    c := c.(phase := Online);
  }

  /** The heartbeat and read loop: ends back at the top, or where the script ended. */
  method HeartbeatLoop(script: seq<Answer>, start: nat, online: Conn) returns (i: nat, c: Conn)
    requires start <= |script| && Run(script[..start]) == online && online.phase.Online?
    ensures start <= i <= |script| && Run(script[..i]) == c
    ensures (c.phase.Connecting? && start < i) || c == Run(script)
  {
    hide Run;
    i := start;
    var log := online.log;
    var connected := true;
    while connected
      invariant start <= i <= |script| && (!connected ==> start < i)
      invariant Run(script[..i])
             == if connected then online.(log := log) else Again(online.(log := log))
      decreases |script| - i, connected
    {
      NextAwait(script, i, online.(log := log));
      if i == |script| {
        return i, online.(log := log);
      }
      i := i + 1;
      match script[i - 1].event
      case MessageRead =>
      case ReadError =>
        log := log + [Closed];
        connected := false;
      case SocketClosed =>
        log := log + [Closed];
        connected := false;
      case Tick =>
        NextAwait(script, i, Conn(Beating, online.backoff, online.revision, log));
        if i == |script| {
          return i, Conn(Beating, online.backoff, online.revision, log);
        }
        i := i + 1;
        if script[i - 1].sending.EncodeFailed? {
          continue;
        }
        log := log + [Heartbeat];
        if script[i - 1].sending.SendFailed? {
          log := log + [Closed];
          connected := false;
          continue;
        }
        NextAwait(script, i, Conn(AwaitingBeat, online.backoff, online.revision, log));
        if i == |script| {
          return i, Conn(AwaitingBeat, online.backoff, online.revision, log);
        }
        i := i + 1;
        if !IsTextReply(script[i - 1].reply) {
          log := log + [Closed];
          connected := false;
        }
    }
    c := Again(online.(log := log));
  }

  /** The connector task, reading the network's answers from a script. */
  method RunConnector(script: seq<Answer>) returns (c: Conn)
    ensures c == Run(script)
  {
    var i := 0;
    var backoff, revision, log := 1, 1, [];
    c := Conn(Connecting, backoff, revision, log);
    while i < |script|
      invariant 0 <= i <= |script|
      invariant c == Conn(Connecting, backoff, revision, log) && Run(script[..i]) == c
    {
      NextAwait(script, i, c);
      i := i + 1;
      if !script[i - 1].connects {
        log := log + [Slept(backoff)];
        backoff := Capped(backoff * 2);
        revision := revision + 1;
        c := Conn(Connecting, backoff, revision, log);
        continue;
      }
      backoff := 1;
      log := log + [Opened];
      i, c := Handshake(script, i, backoff, revision, log);
      if c.phase.Online? {
        i, c := HeartbeatLoop(script, i, c);
      }
      if !c.phase.Connecting? {
        return;
      }
      backoff, revision, log := c.backoff, c.revision, c.log;
    }
    assert script[..i] == script;
  }

  // ----- the protocol on the wire -----

  function Last(log: seq<Entry>): Option<Entry> {
    if log == [] then None else Some(log[|log| - 1])
  }

  /** What may come directly after what. */
  predicate MayFollow(before: Option<Entry>, e: Entry) {
    match e
    case Register => before == Some(Opened)
    case Ack => before == Some(Register)
    case Snapshot(_) => before == Some(Ack)
    case Heartbeat => before.Some? && (before.value.Snapshot? || before.value.Heartbeat?)
    case Closed => before.Some? && (before.value.Snapshot? || before.value.Heartbeat?)
    case _ => before.Some? ==> !before.value.Opened? && !before.value.Ack? && !before.value.Heartbeat?
  }

  function Before(log: seq<Entry>, i: nat): Option<Entry>
    requires i <= |log|
  {
    if i == 0 then None else Some(log[i - 1])
  }

  predicate InOrder(log: seq<Entry>) {
    forall i :: 0 <= i < |log| ==> MayFollow(Before(log, i), log[i])
  }

  /** What the log ends in, by phase. */
  predicate EndsFor(phase: Phase, last: Option<Entry>) {
    match phase
    case Connecting => MayFollow(last, Opened)
    case Registering => last == Some(Opened)
    case AwaitingAck => last == Some(Register)
    case Snapshotting => last == Some(Ack)
    case AwaitingSnapshotAck => last.Some? && last.value.Snapshot?
    case AwaitingBeat => last == Some(Heartbeat)
    case Halted => true
    case _ => last.Some? && (last.value.Snapshot? || last.value.Heartbeat?)
  }

  lemma OrderAppend(log: seq<Entry>, e: Entry)
    requires InOrder(log) && MayFollow(Last(log), e)
    ensures InOrder(log + [e]) && Last(log + [e]) == Some(e)
  {
    var all := log + [e];
    forall i | 0 <= i < |all| ensures MayFollow(Before(all, i), all[i]) {
      assert i < |log| ==> Before(all, i) == Before(log, i);
    }
  }

  lemma OrderStep(c: Conn, a: Answer)
    requires InOrder(c.log) && EndsFor(c.phase, Last(c.log))
    ensures InOrder(Step(c, a).log) && EndsFor(Step(c, a).phase, Last(Step(c, a).log))
  {
    hide InOrder, Last;
    match c.phase
    case Connecting =>
      OrderAppend(c.log, Opened);
      OrderAppend(c.log, Slept(c.backoff));
    case Registering =>
      OrderAppend(c.log, Register);
    case AwaitingAck =>
      OrderAppend(c.log, Ack);
    case Snapshotting =>
      OrderAppend(c.log, Snapshot(c.revision));
    case Online =>
      OrderAppend(c.log, Closed);
    case Beating =>
      OrderAppend(c.log, Heartbeat);
      OrderAppend(c.log + [Heartbeat], Closed);
    case AwaitingBeat =>
      OrderAppend(c.log, Closed);
    case _ =>
  }

  /** Over any network behaviour the wire shows nothing but the protocol. */
  lemma {:induction false} ProtocolOrder(script: seq<Answer>)
    ensures InOrder(Run(script).log)
    ensures EndsFor(Run(script).phase, Last(Run(script).log))
  {
    if script != [] {
      ProtocolOrder(script[..|script| - 1]);
      OrderStep(Run(script[..|script| - 1]), script[|script| - 1]);
    }
  }

  lemma SnapshotContext(log: seq<Entry>, k: nat)
    requires InOrder(log) && k < |log| && log[k].Snapshot?
    ensures k >= 3 && log[k - 3] == Opened && log[k - 2] == Register && log[k - 1] == Ack
  {
    assert MayFollow(Before(log, k), log[k]);
    assert MayFollow(Before(log, k - 1), log[k - 1]);
    assert MayFollow(Before(log, k - 2), log[k - 2]);
  }

  /** A snapshot comes right after an accepted registration on the connection just opened. */
  lemma SnapshotNeedsAck(script: seq<Answer>, k: nat)
    requires k < |Run(script).log| && Run(script).log[k].Snapshot?
    ensures k >= 3 && Run(script).log[k - 3..k] == [Opened, Register, Ack]
  {
    hide Run, InOrder, EndsFor;
    ProtocolOrder(script);
    SnapshotContext(Run(script).log, k);
  }

  lemma BeforeHeartbeat(before: Option<Entry>)
    requires MayFollow(before, Heartbeat)
    ensures before.Some? && (before.value.Snapshot? || before.value.Heartbeat?)
  {
  }

  lemma {:induction false} HeartbeatContext(log: seq<Entry>, k: nat) returns (j: nat)
    requires InOrder(log) && k < |log| && log[k].Heartbeat?
    ensures j < k && log[j].Snapshot? && forall i :: j < i <= k ==> log[i] == Heartbeat
  {
    hide MayFollow;
    assert MayFollow(Before(log, k), log[k]);
    BeforeHeartbeat(Before(log, k));
    if log[k - 1].Snapshot? {
      j := k - 1;
    } else {
      j := HeartbeatContext(log, k - 1);
    }
  }

  /** After its snapshot a connection carries heartbeats only. */
  lemma HeartbeatNeedsSnapshot(script: seq<Answer>, k: nat) returns (j: nat)
    requires k < |Run(script).log| && Run(script).log[k].Heartbeat?
    ensures j < k && Run(script).log[j].Snapshot?
    ensures forall i :: j < i <= k ==> Run(script).log[i] == Heartbeat
  {
    ProtocolOrder(script);
    j := HeartbeatContext(Run(script).log, k);
  }

  // ----- revisions -----

  function Attempt(e: Entry): seq<Entry> {
    if e.Slept? || e.Opened? then [e] else []
  }

  /** Connection attempts that ended in a connection or in a sleep. */
  function Attempts(log: seq<Entry>): nat {
    |Joined(log, Attempt)|
  }

  lemma AttemptsAppend(log: seq<Entry>, e: Entry)
    ensures Attempts(log + [e]) == Attempts(log) + |Attempt(e)|
  {
    assert (log + [e])[..|log|] == log;
  }

  predicate RevisionsCount(log: seq<Entry>) {
    forall k :: 0 <= k < |log| && log[k].Snapshot? ==> log[k].revision == Attempts(log[..k])
  }

  lemma CountAppend(log: seq<Entry>, e: Entry)
    requires RevisionsCount(log) && (e.Snapshot? ==> e.revision == Attempts(log))
    ensures RevisionsCount(log + [e])
    ensures Attempts(log + [e]) == Attempts(log) + |Attempt(e)|
  {
    AttemptsAppend(log, e);
    var all := log + [e];
    forall k | 0 <= k < |all| && all[k].Snapshot? ensures all[k].revision == Attempts(all[..k]) {
      assert all[..k] == log[..k];
      assert log[..|log|] == log;
    }
  }

  predicate RevisionFits(c: Conn) {
    RevisionsCount(c.log) && c.revision == Attempts(c.log) + if c.phase.Connecting? then 1 else 0
  }

  lemma RevisionStep(c: Conn, a: Answer)
    requires RevisionFits(c)
    ensures RevisionFits(Step(c, a))
  {
    hide Attempts, RevisionsCount;
    CountAppend(c.log, Slept(c.backoff));
    CountAppend(c.log, Opened);
    CountAppend(c.log, Register);
    CountAppend(c.log, Ack);
    CountAppend(c.log, Closed);
    CountAppend(c.log, Heartbeat);
    CountAppend(c.log + [Heartbeat], Closed);
    if !c.phase.Connecting? {
      CountAppend(c.log, Snapshot(c.revision));
    }
  }

  /** A snapshot carries the number of connection attempts made so far. */
  lemma {:induction false} RevisionsCountAttempts(script: seq<Answer>)
    ensures RevisionFits(Run(script))
  {
    if script != [] {
      RevisionsCountAttempts(script[..|script| - 1]);
      RevisionStep(Run(script[..|script| - 1]), script[|script| - 1]);
    }
  }

  lemma AttemptsGrow(log: seq<Entry>, i: nat, j: nat)
    requires i < j <= |log|
    ensures Attempts(log[..i]) + |Attempt(log[i])| <= Attempts(log[..j])
  {
    assert log[..j] == log[..i] + [log[i]] + log[i + 1..j];
    AttemptsAppend(log[..i], log[i]);
    JoinedConcat(log[..i] + [log[i]], log[i + 1..j], Attempt);
  }

  lemma CountsIncrease(log: seq<Entry>, i: nat, j: nat)
    requires InOrder(log) && RevisionsCount(log)
    requires i < j < |log| && log[i].Snapshot? && log[j].Snapshot?
    ensures log[i].revision < log[j].revision
  {
    hide InOrder, Attempts;
    SnapshotContext(log, j);
    AttemptsGrow(log, i, j - 3);
    AttemptsGrow(log, j - 3, j);
  }

  /** Each snapshot's revision strictly exceeds every earlier one. */
  lemma RevisionsIncrease(script: seq<Answer>, i: nat, j: nat)
    requires i < j < |Run(script).log| && Run(script).log[i].Snapshot? && Run(script).log[j].Snapshot?
    ensures Run(script).log[i].revision < Run(script).log[j].revision
  {
    hide Run;
    RevisionsCountAttempts(script);
    ProtocolOrder(script);
    CountsIncrease(Run(script).log, i, j);
  }

  // ----- backoff -----

  /** Connect failures since the last successful connect. */
  function FailuresInARow(log: seq<Entry>): nat {
    if log == [] || !log[|log| - 1].Slept? then 0 else 1 + FailuresInARow(log[..|log| - 1])
  }

  predicate SleepsAreExact(log: seq<Entry>) {
    forall k :: 0 <= k < |log| && log[k].Slept? ==> log[k].seconds == Min(60, Pow2(FailuresInARow(log[..k])))
  }

  lemma SleepsAppend(log: seq<Entry>, e: Entry)
    requires SleepsAreExact(log) && (e.Slept? ==> e.seconds == Min(60, Pow2(FailuresInARow(log))))
    ensures SleepsAreExact(log + [e])
    ensures FailuresInARow(log + [e]) == if e.Slept? then 1 + FailuresInARow(log) else 0
  {
    var all := log + [e];
    assert all[..|log|] == log;
    forall k | 0 <= k < |all| && all[k].Slept? ensures all[k].seconds == Min(60, Pow2(FailuresInARow(all[..k]))) {
      assert all[..k] == log[..k];
      assert log[..|log|] == log;
    }
  }

  predicate BackoffFits(c: Conn) {
    SleepsAreExact(c.log) && c.backoff == Min(60, Pow2(FailuresInARow(c.log)))
  }

  lemma BackoffStep(c: Conn, a: Answer)
    requires BackoffFits(c) && EndsFor(c.phase, Last(c.log)) && (!c.phase.Connecting? ==> c.backoff == 1)
    ensures BackoffFits(Step(c, a)) && (!Step(c, a).phase.Connecting? ==> Step(c, a).backoff == 1)
  {
    hide FailuresInARow, SleepsAreExact;
    SleepsAppend(c.log, Slept(c.backoff));
    SleepsAppend(c.log, Opened);
    SleepsAppend(c.log, Register);
    SleepsAppend(c.log, Ack);
    SleepsAppend(c.log, Snapshot(c.revision));
    SleepsAppend(c.log, Closed);
    SleepsAppend(c.log, Heartbeat);
    SleepsAppend(c.log + [Heartbeat], Closed);
    assert Pow2(0) == 1;
  }

  /** After k connect failures in a row the backoff is exactly min(2^k, 60) seconds, and so was every sleep. */
  lemma {:induction false} BackoffIsExact(script: seq<Answer>)
    ensures BackoffFits(Run(script)) && (!Run(script).phase.Connecting? ==> Run(script).backoff == 1)
  {
    if script == [] {
      assert Pow2(0) == 1;
    } else {
      BackoffIsExact(script[..|script| - 1]);
      ProtocolOrder(script[..|script| - 1]);
      BackoffStep(Run(script[..|script| - 1]), script[|script| - 1]);
    }
  }
}
