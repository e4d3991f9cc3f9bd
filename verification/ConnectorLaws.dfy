/** What each answer of the network puts on the wire, told by the answers and the wire before it. */
module ConnectorLaws {
  import opened Text
  import opened Connector

  /** What is on the wire when the first `k` answers are in. */
  function Wire(script: seq<Answer>, k: nat): seq<Entry>
    requires k <= |script|
  {
    Run(script[..k]).log
  }

  /** The `k`-th answer adds exactly this to the wire. */
  predicate Adds(script: seq<Answer>, k: int, entries: seq<Entry>) {
    0 <= k < |script| && Wire(script, k + 1) == Wire(script, k) + entries
  }

  predicate Says(script: seq<Answer>, k: int, e: Entry) {
    Adds(script, k, [e])
  }

  ghost predicate SaysSnapshot(script: seq<Answer>, k: int) {
    exists n: nat :: Says(script, k, Snapshot(n))
  }

  predicate IsSilent(script: seq<Answer>, k: int) {
    Adds(script, k, [])
  }

  predicate WasSent(script: seq<Answer>, k: int) {
    0 <= k < |script| && script[k].sending.Sent?
  }

  predicate SendFailedAt(script: seq<Answer>, k: int) {
    0 <= k < |script| && script[k].sending.SendFailed?
  }

  predicate EncodeFailedAt(script: seq<Answer>, k: int) {
    0 <= k < |script| && script[k].sending.EncodeFailed?
  }

  /** After `k` answers the connector tries to connect: at first, after a sleep, a failed send or a closed
      connection, and when the answer to a registration that was sent is not an acceptance. */
  ghost predicate TriesToConnect(script: seq<Answer>, k: nat)
    requires k <= |script|
  {
    || k == 0
    || (exists n: nat :: n <= MAX_BACKOFF && Says(script, k - 1, Slept(n)))
    || (Says(script, k - 1, Register) && SendFailedAt(script, k - 1))
    || (SaysSnapshot(script, k - 1) && SendFailedAt(script, k - 1))
    || (Says(script, k - 2, Register) && WasSent(script, k - 2) && !script[k - 1].reply.Accepted?)
    || Says(script, k - 1, Closed)
    || Adds(script, k - 1, [Heartbeat, Closed])
  }

  /** After `k` answers the connector waits for its timer or the socket: after the answer to a snapshot, whatever
      that is, after a message, after a heartbeat that could not be encoded, and after one that was answered by text. */
  ghost predicate IsOnline(script: seq<Answer>, k: nat)
    requires k <= |script|
    decreases k
  {
    || (SaysSnapshot(script, k - 2) && WasSent(script, k - 2))
    || (k >= 1 && IsOnline(script, k - 1) && script[k - 1].event.MessageRead?)
    || (k >= 2 && IsOnline(script, k - 2) && script[k - 2].event.Tick? && EncodeFailedAt(script, k - 1))
    || (k >= 3 && IsOnline(script, k - 3) && script[k - 3].event.Tick? && WasSent(script, k - 2)
        && (script[k - 1].reply.Accepted? || script[k - 1].reply.Rejected? || script[k - 1].reply.Unreadable?))
  }

  // ----- one step -----

  predicate Grows(c: Conn, a: Answer, entries: seq<Entry>) {
    Step(c, a).log == c.log + entries
  }

  lemma GrowsOnce(log: seq<Entry>, a: seq<Entry>, b: seq<Entry>)
    ensures log + a == log + b <==> a == b
    ensures log + [] == log
  {
    assert (log + a)[|log|..] == a && (log + b)[|log|..] == b;
  }

  /** What a step adds, as a list. */
  function Added(c: Conn, a: Answer): seq<Entry> {
    if |c.log| <= |Step(c, a).log| then Step(c, a).log[|c.log|..] else []
  }

  lemma AddedIs(c: Conn, a: Answer, entries: seq<Entry>)
    ensures Grows(c, a, entries) <==> Added(c, a) == entries
    ensures Grows(c, a, Added(c, a))
  {
    var log := c.log;
    assert (log + entries)[|log|..] == entries;
    StepAppends(c, a);
  }

  lemma StepAppends(c: Conn, a: Answer)
    ensures c.log <= Step(c, a).log
  {
  }

  lemma AddedByPhase(c: Conn, a: Answer)
    ensures var added := Added(c, a);
            && (added == [Opened] <==> c.phase.Connecting? && a.connects)
            && (added == [Slept(c.backoff)] <==> c.phase.Connecting? && !a.connects)
            && (added != [] && added[0].Slept? ==> c.phase.Connecting? && !a.connects)
            && (added == [Register] <==> c.phase.Registering? && !a.sending.EncodeFailed?)
            && (added == [Ack] <==> c.phase.AwaitingAck? && a.reply.Accepted?)
            && (added == [Snapshot(c.revision)] <==> c.phase.Snapshotting? && !a.sending.EncodeFailed?)
            && (added != [] && added[0].Snapshot? ==> c.phase.Snapshotting? && !a.sending.EncodeFailed?)
            && (added == [Heartbeat] <==> c.phase.Beating? && a.sending.Sent?)
            && (added == [Heartbeat, Closed] <==> c.phase.Beating? && a.sending.SendFailed?)
            && (added == [Closed] <==> (c.phase.Online? && !a.event.Tick? && !a.event.MessageRead?)
                                       || (c.phase.AwaitingBeat? && !IsTextReply(a.reply)))
  {
    var log := c.log;
    assert (log + [Heartbeat] + [Closed])[|log|..] == [Heartbeat, Closed];
    assert forall e :: (log + [e])[|log|..] == [e];
  }

  lemma PhaseAfter(c: Conn, a: Answer)
    ensures var added, next := Added(c, a), Step(c, a).phase;
            && (next.Registering? <==> added == [Opened])
            && (next.AwaitingAck? <==> added == [Register] && a.sending.Sent?)
            && (next.Snapshotting? <==> added == [Ack])
            && (next.AwaitingSnapshotAck? <==> added == [Snapshot(c.revision)] && a.sending.Sent?)
            && (next.Beating? <==> c.phase.Online? && a.event.Tick?)
            && (next.AwaitingBeat? <==> added == [Heartbeat])
            && (next.Online? <==> c.phase.AwaitingSnapshotAck? || (c.phase.Online? && a.event.MessageRead?)
                                  || (c.phase.Beating? && a.sending.EncodeFailed?)
                                  || (c.phase.AwaitingBeat? && IsTextReply(a.reply)))
            && (next.Halted? <==> c.phase.Halted?
                                  || ((c.phase.Registering? || c.phase.Snapshotting?) && a.sending.EncodeFailed?))
            && (next.Connecting? <==> added == [Slept(c.backoff)]
                                      || (added == [Register] && a.sending.SendFailed?)
                                      || (added == [Snapshot(c.revision)] && a.sending.SendFailed?)
                                      || (c.phase.AwaitingAck? && !a.reply.Accepted?)
                                      || added == [Closed] || added == [Heartbeat, Closed])
  {
    hide Added;
    AddedByPhase(c, a);
  }

  // ----- positions of a script -----

  lemma StepAt(script: seq<Answer>, k: nat)
    requires k < |script|
    ensures var c := Run(script[..k]);
            && Run(script[..k + 1]) == Step(c, script[k])
            && (forall entries :: Adds(script, k, entries) <==> Added(c, script[k]) == entries)
            && (SaysSnapshot(script, k) <==> Added(c, script[k]) == [Snapshot(c.revision)])
            && c.backoff <= MAX_BACKOFF
  {
    hide Step, Added;
    var c := Run(script[..k]);
    OneMore(script, k);
    forall entries ensures Adds(script, k, entries) <==> Added(c, script[k]) == entries {
      AddedIs(c, script[k], entries);
    }
    BackoffIsExact(script[..k]);
    AddedByPhase(c, script[k]);
    if Added(c, script[k]) == [Snapshot(c.revision)] {
      assert Says(script, k, Snapshot(c.revision));
    }
    if n: nat :| Says(script, k, Snapshot(n)) {
      assert Added(c, script[k])[0].Snapshot?;
    }
  }

  lemma {:induction false} OnlineAt(script: seq<Answer>, k: nat)
    requires k <= |script|
    ensures Run(script[..k]).phase.Online? <==> IsOnline(script, k)
    decreases k
  {
    hide Run, Step, Added, Adds, SaysSnapshot;
    StartsConnecting(script);
    if k >= 1 {
      StepAt(script, k - 1);
      OnlineAt(script, k - 1);
      PhaseAfter(Run(script[..k - 1]), script[k - 1]);
      if k >= 2 {
        StepAt(script, k - 2);
        OnlineAt(script, k - 2);
        PhaseAfter(Run(script[..k - 2]), script[k - 2]);
        AddedByPhase(Run(script[..k - 2]), script[k - 2]);
        if k >= 3 {
          OnlineAt(script, k - 3);
          StepAt(script, k - 3);
          PhaseAfter(Run(script[..k - 3]), script[k - 3]);
        }
      }
    }
  }

  lemma StartsConnecting(script: seq<Answer>)
    ensures Run(script[..0]) == START
  {
  }

  lemma ConnectingAt(script: seq<Answer>, k: nat)
    requires k <= |script|
    ensures Run(script[..k]).phase.Connecting? <==> TriesToConnect(script, k)
  {
    hide Run, Step, Added, Adds, SaysSnapshot;
    StartsConnecting(script);
    if k >= 1 {
      var c := Run(script[..k - 1]);
      StepAt(script, k - 1);
      PhaseAfter(c, script[k - 1]);
      AddedByPhase(c, script[k - 1]);
      if Added(c, script[k - 1]) == [Slept(c.backoff)] {
        assert Says(script, k - 1, Slept(c.backoff));
      }
      if n: nat :| n <= MAX_BACKOFF && Says(script, k - 1, Slept(n)) {
        assert Added(c, script[k - 1])[0].Slept?;
      }
      if k >= 2 {
        StepAt(script, k - 2);
        PhaseAfter(Run(script[..k - 2]), script[k - 2]);
      }
    }
  }

  // ----- the laws -----

  /** A connect is tried exactly at the top of the loop; its answer opens a connection or leads to a sleep. */
  lemma ConnectAnswered(script: seq<Answer>, k: nat)
    requires k < |script|
    ensures Says(script, k, Opened) <==> TriesToConnect(script, k) && script[k].connects
    ensures (exists n: nat :: n <= MAX_BACKOFF && Says(script, k, Slept(n)))
       <==> TriesToConnect(script, k) && !script[k].connects
  {
    hide Run, Step, Added, Adds, TriesToConnect, SaysSnapshot;
    var c := Run(script[..k]);
    StepAt(script, k);
    ConnectingAt(script, k);
    AddedByPhase(c, script[k]);
    if n: nat :| n <= MAX_BACKOFF && Says(script, k, Slept(n)) {
      assert Added(c, script[k])[0].Slept?;
    }
    if Added(c, script[k]) == [Slept(c.backoff)] {
      assert Says(script, k, Slept(c.backoff));
    }
  }

  /** A registration is sent exactly on a connection just opened, unless it cannot be encoded. */
  lemma RegisterAfterOpened(script: seq<Answer>, k: nat)
    requires k < |script|
    ensures Says(script, k, Register) <==> Says(script, k - 1, Opened) && !EncodeFailedAt(script, k)
  {
    hide Run, Step, Added, Adds, SaysSnapshot;
    AwaitAt(script, k);
    AddedByPhase(Run(script[..k]), script[k]);
  }

  /** An acknowledgement is an answer `Accepted` read directly after a registration that was sent; any other answer
      there puts nothing on the wire and leads back to connecting. */
  lemma AckMeansAccepted(script: seq<Answer>, k: nat)
    requires k < |script|
    ensures Says(script, k, Ack)
       <==> Says(script, k - 1, Register) && WasSent(script, k - 1) && script[k].reply.Accepted?
    ensures Says(script, k - 1, Register) && WasSent(script, k - 1) && !script[k].reply.Accepted? ==>
              IsSilent(script, k) && TriesToConnect(script, k + 1)
  {
    hide Run, Step, Added, Adds, SaysSnapshot;
    var c := Run(script[..k]);
    AwaitAt(script, k);
    AddedByPhase(c, script[k]);
    PhaseAfter(c, script[k]);
    SilentUnlessAdded(c, script[k]);
  }

  /** A snapshot is sent exactly after an acknowledgement, unless it cannot be encoded. */
  lemma SnapshotAfterAck(script: seq<Answer>, k: nat)
    requires k < |script|
    ensures SaysSnapshot(script, k) <==> Says(script, k - 1, Ack) && !EncodeFailedAt(script, k)
  {
    hide Run, Step, Added, Adds, SaysSnapshot;
    AwaitAt(script, k);
    AddedByPhase(Run(script[..k]), script[k]);
  }

  /** So a snapshot means an accepted registration two answers before. */
  lemma SnapshotMeansAccepted(script: seq<Answer>, k: nat)
    requires k < |script| && SaysSnapshot(script, k)
    ensures k >= 3 && Says(script, k - 3, Opened) && Says(script, k - 2, Register) && WasSent(script, k - 2)
            && script[k - 1].reply.Accepted?
  {
    hide Run, Step, Added, SaysSnapshot, Wire;
    SnapshotAfterAck(script, k);
    AckMeansAccepted(script, k - 1);
    RegisterAfterOpened(script, k - 2);
  }

  /** A registration or a snapshot that cannot be encoded stops the task: nothing is put on the wire any more. */
  lemma EncodeFailureStops(script: seq<Answer>, k: nat)
    requires k < |script| && EncodeFailedAt(script, k)
    requires Says(script, k - 1, Opened) || Says(script, k - 1, Ack)
    ensures Run(script).log == Wire(script, k)
  {
    hide Run, Step, Added, Adds;
    var c := Run(script[..k]);
    AwaitAt(script, k);
    PhaseAfter(c, script[k]);
    AddedByPhase(c, script[k]);
    SilentUnlessAdded(c, script[k]);
    HaltedStays(script, k + 1);
    AddedIs(c, script[k], []);
    GrowsOnce(c.log, [], []);
  }

  /** While the connector is online a message changes nothing, an error closes the connection, and a tick is
      followed by a heartbeat. */
  lemma OnlineAnswered(script: seq<Answer>, k: nat)
    requires k < |script| && IsOnline(script, k)
    ensures script[k].event.Tick? || script[k].event.MessageRead? ==> IsSilent(script, k)
    ensures script[k].event.ReadError? || script[k].event.SocketClosed? ==> Says(script, k, Closed)
  {
    hide Run, Step, Added, Adds, SaysSnapshot, IsOnline;
    StepAt(script, k);
    OnlineAt(script, k);
    AddedByPhase(Run(script[..k]), script[k]);
    SilentUnlessAdded(Run(script[..k]), script[k]);
  }

  /** A heartbeat is sent exactly after a tick; if it cannot be encoded nothing happens, if it cannot be sent the
      connection is closed. */
  lemma HeartbeatAfterTick(script: seq<Answer>, k: nat)
    requires k < |script|
    ensures var ticked := k >= 1 && IsOnline(script, k - 1) && script[k - 1].event.Tick?;
            && (Says(script, k, Heartbeat) <==> ticked && WasSent(script, k))
            && (Adds(script, k, [Heartbeat, Closed]) <==> ticked && SendFailedAt(script, k))
            && (ticked && EncodeFailedAt(script, k) ==> IsSilent(script, k))
  {
    hide Run, Step, Added, Adds, SaysSnapshot, IsOnline;
    var c := Run(script[..k]);
    StepAt(script, k);
    AddedByPhase(c, script[k]);
    SilentUnlessAdded(c, script[k]);
    StartsConnecting(script);
    if k >= 1 {
      StepAt(script, k - 1);
      OnlineAt(script, k - 1);
      PhaseAfter(Run(script[..k - 1]), script[k - 1]);
    }
  }

  /** A heartbeat is answered by text, of whatever kind, or the connection is closed. */
  lemma HeartbeatAnswered(script: seq<Answer>, k: nat)
    requires k < |script| && Says(script, k - 1, Heartbeat)
    ensures var text := script[k].reply.Accepted? || script[k].reply.Rejected? || script[k].reply.Unreadable?;
            if text then IsSilent(script, k) && IsOnline(script, k + 1) else Says(script, k, Closed)
  {
    hide Run, Step, Added, Adds, SaysSnapshot, IsOnline;
    var c := Run(script[..k]);
    AwaitAt(script, k);
    PhaseAfter(c, script[k]);
    AddedByPhase(c, script[k]);
    SilentUnlessAdded(c, script[k]);
    OnlineAt(script, k + 1);
  }

  lemma SilentUnlessAdded(c: Conn, a: Answer)
    ensures c.phase.AwaitingAck? && !a.reply.Accepted? ==> Added(c, a) == []
    ensures (c.phase.Registering? || c.phase.Snapshotting?) && a.sending.EncodeFailed? ==> Added(c, a) == []
    ensures c.phase.Online? && (a.event.Tick? || a.event.MessageRead?) ==> Added(c, a) == []
    ensures c.phase.Beating? && a.sending.EncodeFailed? ==> Added(c, a) == []
    ensures c.phase.AwaitingBeat? && IsTextReply(a.reply) ==> Added(c, a) == []
  {
  }

  /** The await after `k` answers, told by what the last of them put on the wire. */
  lemma AwaitAt(script: seq<Answer>, k: nat)
    requires k < |script|
    ensures var c := Run(script[..k]);
            && (forall entries :: Adds(script, k, entries) <==> Added(c, script[k]) == entries)
            && (SaysSnapshot(script, k) <==> Added(c, script[k]) == [Snapshot(c.revision)])
            && (c.phase.Registering? <==> Says(script, k - 1, Opened))
            && (c.phase.AwaitingAck? <==> Says(script, k - 1, Register) && WasSent(script, k - 1))
            && (c.phase.Snapshotting? <==> Says(script, k - 1, Ack))
            && (c.phase.AwaitingBeat? <==> Says(script, k - 1, Heartbeat))
            && Run(script[..k + 1]) == Step(c, script[k])
  {
    hide Step, Added, SaysSnapshot;
    StepAt(script, k);
    StartsConnecting(script);
    if k >= 1 {
      StepAt(script, k - 1);
      PhaseAfter(Run(script[..k - 1]), script[k - 1]);
    }
  }
}
