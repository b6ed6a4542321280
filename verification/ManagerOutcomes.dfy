/** What each handler achieves when the outside plays along, and what it does when it does not. */
module ManagerOutcomes {
  import opened Wrappers
  import opened JkBmsTypes
  import opened ManagerSpec
  import opened ManagerLink
  import opened ManagerRuns
  import opened ManagerPolls
  import Wakeup = ManagerWakeups
  import Escalate = ManagerEscalation

  // ---- Commands ----

  /** The command was answered with an error at once, and changed nothing else. */
  predicate IsRefused(m: Manager, m': Manager, n: nat, cause: Cause) {
    m' == m.(received := m.received + [n], events := m.events + [Stamped(m.now, WriteError(n, cause))])
  }

  /** The command waits at the end of the queue, and a retry is coming if the link is up. */
  predicate IsQueued(m: Manager, m': Manager, command: WriteCommand, n: nat) {
    && m'.pendingWrites == m.pendingWrites + [PendingWrite(command, n, m.now)]
    && m'.events == m.events && m'.talks == m.talks && m'.wire == m.wire
    && (m.transport ==> m'.retryWritesScheduled)
  }

  /** The command was handed to the protocol at once. */
  predicate IsTried(m: Manager, m': Manager, command: WriteCommand, n: nat, a: WriteAnswers) {
    && m'.wire == m.wire + [WireWrite(m.now, command, n, m.now)]
    && |m'.talks| > |m.talks| && m'.talks[..|m.talks|] == m.talks
    && m'.talks[|m.talks|] == Switching(n, command, a.write)
  }

  lemma TriedAtOnce(m: Manager, command: WriteCommand, n: nat, a: WriteAnswers)
    requires m.transport && m.pendingWrites == []
    ensures IsTried(m, OnWriteCommand(m, command, n, a), command, n, a)
  {
    hide HandleWriteError;
    var m0 := m.(received := m.received + [n]);
    var w := PendingWrite(command, n, m.now);
    var (m1, e) := DoWrite(m0, w, a);
    TalksOfWrite(m0, w, a);
    if e.Some? {
      ErrorKeepsTalks(m1.(pendingWrites := m1.pendingWrites + [PendingWrite(command, n, m1.now)]), e.value);
    }
  }

  lemma TalksOfWrite(m: Manager, w: PendingWrite, a: WriteAnswers)
    requires m.transport
    ensures var m' := DoWrite(m, w, a).0; var sent := Switching(w.seqNo, w.command, a.write);
      && m'.wire == m.wire + [WireWrite(m.now, w.command, w.seqNo, w.queuedAt)]
      && m'.talks == m.talks + (if a.write.Err? then [sent] else [sent, Asking(ConfigAnswer(a.config))])
  {
    hide OnReadback;
    var m' := DoWrite(m, w, a).0;
    ReadbackKeepsTalks(Talked(Wait(Wait(Sent(m, w, a.write), a.write.took), POST_WRITE_SETTLE + a.config.took),
      Asking(ConfigAnswer(a.config))), w.seqNo, a.config);
    assert m.talks + [Switching(w.seqNo, w.command, a.write)] + [Asking(ConfigAnswer(a.config))] ==
      m.talks + [Switching(w.seqNo, w.command, a.write), Asking(ConfigAnswer(a.config))];
  }

  lemma ReadbackKeepsTalks(m: Manager, n: nat, a: Answer<ConfigOptions>)
    ensures a.Ok? ==> OnReadback(m, n, a.value).talks == m.talks && OnReadback(m, n, a.value).wire == m.wire
  {
  }

  lemma ErrorKeepsTalks(m: Manager, e: JkBmsError)
    ensures HandleWriteError(m, e).talks == m.talks && HandleWriteError(m, e).wire == m.wire
  {
  }

  /**
   * In any run: with the link up and nothing waiting a command is tried at once.  Otherwise it is
   * refused if the outage has had more than five link-down events or five writes already wait, and
   * waits its turn in every other case.
   */
  lemma CommandsAreTaken(boot: ConnectAnswers, inputs: seq<Input>, command: WriteCommand, n: nat, a: WriteAnswers)
    ensures var m := Run(boot, inputs); var m' := Step(m, Command(command, n, a));
      if m.transport && m.pendingWrites == [] then IsTried(m, m', command, n, a)
      else if Attempts(m.events) > 5 then IsRefused(m, m', n, Capped)
      else if |m.pendingWrites| == 5 then IsRefused(m, m', n, QueueFull)
      else IsQueued(m, m', command, n)
  {
    hide Run, Attempts, IsTried;
    var m := Run(boot, inputs);
    AttemptCounter(boot, inputs);
    WireDiscipline(boot, inputs);
    if m.transport && m.pendingWrites == [] {
      TriedAtOnce(m, command, n, a);
    }
  }

  // ---- Connecting ----

  /** The polls of a resync, up to the first that fails. */
  function Resyncing(a: ConnectAnswers): seq<Talk> {
    [Opening, Asking(InfoAnswer(a.info))]
      + (if a.info.Err? then [] else [Asking(ConfigAnswer(a.config))])
      + (if a.info.Err? || a.config.Err? then [] else [Asking(OperationalAnswer(a.operational))])
  }

  predicate AllAnswer(a: ConnectAnswers) {
    a.open.Ok? && a.info.Ok? && a.config.Ok? && a.operational.Ok?
  }

  /** What one attempt to connect does. */
  predicate Attempted(m: Manager, m': Manager, a: ConnectAnswers) {
    && (m'.transport <==> AllAnswer(a))
    && m'.talks == m.talks + (if a.open.Ok? then Resyncing(a) else [])
    && |m'.events| > |m.events| && m'.events[..|m.events|] == m.events
    && (if AllAnswer(a)
        then
          && |m'.events| == |m.events| + 4
          && m'.events[|m.events|].event == Data(Info(a.info.value))
          && m'.events[|m.events| + 1].event == Data(Config(a.config.value))
          && m'.events[|m.events| + 2].event == Data(Operational(a.operational.value))
          && m'.events[|m.events| + 3].event == Connection(Connected)
        else
          Attempts(m'.events) == Attempts(m.events) + 1)
  }

  lemma ResyncOutcome(m: Manager, a: ConnectAnswers)
    requires m.transport
    ensures var (m', e) := Resync(m, a);
      && (e.None? <==> a.info.Ok? && a.config.Ok? && a.operational.Ok?)
      && m'.transport && [Opening] + m'.talks[|m.talks|..] == Resyncing(a) && m.talks <= m'.talks
      && m.events <= m'.events
      && Attempts(m'.events) == Attempts(m.events) && m'.reconnectAttempt == m.reconnectAttempt
      && (e.None? ==>
        && |m'.events| == |m.events| + 3
        && m'.events[|m.events|].event == Data(Info(a.info.value))
        && m'.events[|m.events| + 1].event == Data(Config(a.config.value))
        && m'.events[|m.events| + 2].event == Data(Operational(a.operational.value)))
  {
    hide PollData, Attempts, Grammar, FirstDown, EverConnected;
    ResyncLink(m, a);
    var (m1, e1) := PollData(m, InfoAnswer(a.info));
    PollDataEffect(m, InfoAnswer(a.info));
    var (m2, e2) := PollData(m1, ConfigAnswer(a.config));
    PollDataEffect(m1, ConfigAnswer(a.config));
    PollDataEffect(m2, OperationalAnswer(a.operational));
  }

  lemma DownOnce(m: Manager)
    ensures var m' := ScheduleReconnect(m);
      && m'.talks == m.talks && m'.transport == m.transport && Attempts(m'.events) == Attempts(m.events) + 1
      && |m'.events| == |m.events| + 1 && m'.events[..|m.events|] == m.events
  {
  }

  lemma ConnectOutcome(m: Manager, a: ConnectAnswers)
    requires !m.transport
    ensures Attempted(m, OnConnect(m, a), a)
  {
    hide Resync, ScheduleReconnect, Attempts, Resyncing;
    if a.open.Err? {
      DownOnce(Wait(m, a.open.took));
      assert m.talks + [] == m.talks;
    } else {
      var m1 := OnOpened(m, a.open.took);
      ResyncOutcome(m1, a);
      var (m2, e) := Resync(m1, a);
      assert m2.talks == m.talks + ([Opening] + m2.talks[|m1.talks|..]);
      DownOnce(Note(m2.(transport := false, consecutiveFailures := 0), Dropped));
    }
  }

  /**
   * In any run an attempt to connect brings the link up exactly if the port opens and all three polls
   * of the resync answer; then it emits exactly what they said and the connection, and otherwise one
   * more link-down event.  It asks in this order and stops at the first failure.
   */
  lemma ConnectsExactlyIfAllAnswer(boot: ConnectAnswers, inputs: seq<Input>, input: Input)
    requires Handles(Run(boot, inputs), input, Connect)
    ensures Attempted(Run(boot, inputs), Step(Run(boot, inputs), input), input.answers.connect)
  {
    hide Run, OnConnect, Attempted, Wakeup.Queued;
    var m := Run(boot, inputs);
    NoLostWakeups(boot, inputs);
    var popped := if input.Internal? then m.(internalQueue := m.internalQueue[1..])
      else m.(delayQueue := RemoveAt(m.delayQueue, input.index));
    WaitingConnectIsDown(m, input);
    ConnectOutcome(popped, input.answers.connect);
    SameAttempt(m, popped, Step(m, input), input.answers.connect);
  }

  lemma WaitingConnectIsDown(m: Manager, input: Input)
    requires Handles(m, input, Connect) && Wakeup.Queued(m, Connect) == (if m.transport then 0 else 1)
    ensures !m.transport
  {
    if input.Internal? {
      Wakeup.CountInDropFirst(m.internalQueue, Connect);
    } else {
      Wakeup.CountDelayedRemove(m.delayQueue, input.index, Connect);
    }
  }

  lemma SameAttempt(m: Manager, popped: Manager, m': Manager, a: ConnectAnswers)
    requires Attempted(popped, m', a) && m.talks == popped.talks && m.events == popped.events
    ensures Attempted(m, m', a)
  {
  }

  // ---- Retries ----

  /** A retry waits, immediately or for exactly so long. */
  predicate RetryWaits(m: Manager, later: nat) {
    if later == 0 then RetryWrites in m.internalQueue else Delayed(RetryWrites, m.now + later) in m.delayQueue
  }

  lemma ErrorRetriesLater(m: Manager, e: JkBmsError)
    requires !m.retryWritesScheduled && HandleWriteError(m, e).transport
    ensures m.transport ==> RetryWaits(HandleWriteError(m, e), 250 * MILLISECOND)
  {
    hide HandleDisconnect;
    DisconnectIsDown(Note(m, Hard));
    DisconnectIsDown(CountSoftFailure(m));
    var m' := HandleWriteError(m, e);
    if m.transport {
      assert m'.delayQueue[|m'.delayQueue| - 1] == Delayed(RetryWrites, m'.now + RETRY_WRITE_SOFT_DELAY);
    }
  }

  lemma DisconnectIsDown(m: Manager)
    ensures !HandleDisconnect(m).transport
  {
  }

  /**
   * A retry that keeps the link and leaves writes waiting is followed by the next one: at once after
   * a success, 250 ms later after a failure.
   */
  lemma RetriesFollow(m: Manager, a: WriteAnswers)
    requires EvictExpired(m.(retryWritesScheduled := false)).pendingWrites != []
    ensures var m' := OnRetryWrites(m, a);
      m.transport && m'.transport && m'.pendingWrites != [] ==>
        RetryWaits(m', if a.write.Ok? && a.config.Ok? then 0 else 250 * MILLISECOND)
  {
    hide DoWrite, HandleWriteError, EvictExpired, RetryWaits;
    var m0 := m.(retryWritesScheduled := false);
    EvictionKeepsFlag(m0);
    var m1 := EvictExpired(m0);
    if m.transport {
      var (m2, e) := DoWrite(m1, m1.pendingWrites[0], a);
      WriteKeepsFlag(m1, m1.pendingWrites[0], a);
      if e.Some? {
        if HandleWriteError(m2, e.value).transport {
          ErrorRetriesLater(m2, e.value);
        }
      } else {
        NowIsWaiting(m2.(pendingWrites := if m2.pendingWrites == [] then [] else m2.pendingWrites[1..]));
      }
    }
  }

  lemma NowIsWaiting(m: Manager)
    requires !m.retryWritesScheduled
    ensures RetryWaits(ScheduleRetryNow(m), 0)
  {
    var q := ScheduleRetryNow(m).internalQueue;
    assert q[|q| - 1] == RetryWrites;
  }

  lemma {:induction false} EvictionKeepsFlag(m: Manager)
    ensures EvictExpired(m).retryWritesScheduled == m.retryWritesScheduled && EvictExpired(m).transport == m.transport
    decreases |m.pendingWrites|
  {
    hide EvictExpired;
    if m.pendingWrites != [] && ExpiredAt(m.pendingWrites[0], m.now) {
      EvictStep(m);
      EvictionKeepsFlag(Emit(m.(pendingWrites := m.pendingWrites[1..]), WriteError(m.pendingWrites[0].seqNo, Expired)));
    } else {
      EvictDone(m);
    }
  }

  lemma WriteKeepsFlag(m: Manager, w: PendingWrite, a: WriteAnswers)
    requires m.transport
    ensures var (m', e) := DoWrite(m, w, a);
      && m'.retryWritesScheduled == m.retryWritesScheduled && m'.transport
      && (e.None? <==> a.write.Ok? && a.config.Ok?)
  {
  }

  /** The same after a write on an idle link that failed. */
  lemma FailedWritesAreRetried(m: Manager, command: WriteCommand, n: nat, a: WriteAnswers)
    requires m.transport && m.pendingWrites == [] && !m.retryWritesScheduled
    ensures var m' := OnWriteCommand(m, command, n, a);
      m'.transport && m'.pendingWrites != [] ==> RetryWaits(m', 250 * MILLISECOND)
  {
    hide DoWrite, HandleWriteError, RetryWaits;
    var m0 := m.(received := m.received + [n]);
    var w := PendingWrite(command, n, m.now);
    var (m1, e) := DoWrite(m0, w, a);
    WriteKeepsFlag(m0, w, a);
    Escalate.WritesStay(m0, w, a);
    if e.Some? {
      var m2 := m1.(pendingWrites := m1.pendingWrites + [PendingWrite(command, n, m1.now)]);
      if HandleWriteError(m2, e.value).transport {
        ErrorRetriesLater(m2, e.value);
      }
    }
  }
}
