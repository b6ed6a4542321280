/**
 * No wake-up is lost and none is duplicated: what waits in the two internal queues is determined
 * by the transport and the two de-duplication flags.
 */
module ManagerWakeups {
  import opened Wrappers
  import opened JkBmsTypes
  import opened ManagerSpec

  function CountIn(q: seq<InternalCommand>, c: InternalCommand): nat {
    if q == [] then 0 else CountIn(q[..|q| - 1], c) + if q[|q| - 1] == c then 1 else 0
  }

  function CountDelayed(q: seq<Delayed>, c: InternalCommand): nat {
    if q == [] then 0 else CountDelayed(q[..|q| - 1], c) + if q[|q| - 1].command == c then 1 else 0
  }

  /** How many `c` wait, immediate and delayed together. */
  function Queued(m: Manager, c: InternalCommand): nat {
    CountIn(m.internalQueue, c) + CountDelayed(m.delayQueue, c)
  }

  predicate FlagsCount(m: Manager) {
    && Queued(m, RunDataPolling) == (if m.dataPollingScheduled then 1 else 0)
    && Queued(m, RetryWrites) == (if m.retryWritesScheduled then 1 else 0)
  }

  predicate Counted(m: Manager) {
    FlagsCount(m) && Queued(m, Connect) == if m.transport then 0 else 1
  }

  predicate Armed(m: Manager) {
    m.transport ==> m.dataPollingScheduled && (m.pendingWrites != [] ==> m.retryWritesScheduled)
  }

  predicate Wakeups(m: Manager) {
    Counted(m) && Armed(m)
  }

  lemma {:induction false} CountInDropFirst(q: seq<InternalCommand>, c: InternalCommand)
    requires q != []
    ensures CountIn(q, c) == CountIn(q[1..], c) + if q[0] == c then 1 else 0
  {
    if |q| > 1 {
      CountInDropFirst(q[..|q| - 1], c);
      assert q[1..][..|q[1..]| - 1] == q[..|q| - 1][1..];
    }
  }

  lemma {:induction false} CountDelayedRemove(q: seq<Delayed>, i: nat, c: InternalCommand)
    requires i < |q|
    ensures CountDelayed(q, c) == CountDelayed(RemoveAt(q, i), c) + if q[i].command == c then 1 else 0
  {
    if i == |q| - 1 {
      assert RemoveAt(q, i) == q[..|q| - 1];
    } else {
      CountDelayedRemove(q[..|q| - 1], i, c);
      assert RemoveAt(q, i)[..|q| - 2] == RemoveAt(q[..|q| - 1], i);
    }
  }

  /** The part of the state that wake-ups depend on. */
  datatype View = View(
    transport: bool, polling: bool, retry: bool, pending: seq<PendingWrite>,
    internalQueue: seq<InternalCommand>, delayQueue: seq<Delayed>)

  function ViewOf(m: Manager): View {
    View(m.transport, m.dataPollingScheduled, m.retryWritesScheduled, m.pendingWrites, m.internalQueue, m.delayQueue)
  }

  lemma CountedView(m: Manager, m': Manager)
    requires m.transport == m'.transport && m.dataPollingScheduled == m'.dataPollingScheduled
    requires m.retryWritesScheduled == m'.retryWritesScheduled
    requires m.internalQueue == m'.internalQueue && m.delayQueue == m'.delayQueue
    ensures Counted(m) == Counted(m')
  {
  }

  lemma ReconnectCounts(m: Manager)
    requires FlagsCount(m) && Queued(m, Connect) == 0 && !m.transport
    ensures var m' := ScheduleReconnect(m);
      Counted(m') && ViewOf(m') == ViewOf(m).(delayQueue := m'.delayQueue)
  {
  }

  lemma DisconnectCounts(m: Manager)
    requires Counted(m) && m.transport
    ensures var m' := HandleDisconnect(m);
      Counted(m') && ViewOf(m') == ViewOf(m).(transport := false, delayQueue := m'.delayQueue)
  {
    var m0 := Note(m.(transport := false, consecutiveFailures := 0), Dropped);
    assert forall c :: Queued(m0, c) == Queued(m, c);
    ReconnectCounts(m0);
  }

  lemma PollDataView(m: Manager, a: Polled)
    ensures ViewOf(PollData(m, a).0) == ViewOf(m)
  {
    hide PollData;
    PollDataEffect(m, a);
  }

  lemma ResyncView(m: Manager, a: ConnectAnswers)
    ensures ViewOf(Resync(m, a).0) == ViewOf(m)
  {
    var (m1, e1) := PollData(m, InfoAnswer(a.info));
    PollDataView(m, InfoAnswer(a.info));
    var (m2, e2) := PollData(m1, ConfigAnswer(a.config));
    PollDataView(m1, ConfigAnswer(a.config));
    PollDataView(m2, OperationalAnswer(a.operational));
  }

  lemma PollingNowCounts(m: Manager)
    requires Counted(m)
    ensures var m' := SchedulePollingNow(m);
      Counted(m') && ViewOf(m') == ViewOf(m).(polling := true, internalQueue := m'.internalQueue)
  {
  }

  lemma PollingLaterCounts(m: Manager, d: nat)
    requires Counted(m)
    ensures var m' := SchedulePollingDelayed(m, d);
      Counted(m') && ViewOf(m') == ViewOf(m).(polling := true, delayQueue := m'.delayQueue)
  {
  }

  lemma RetryNowCounts(m: Manager)
    requires Counted(m)
    ensures var m' := ScheduleRetryNow(m);
      Counted(m') && ViewOf(m') == ViewOf(m).(retry := true, internalQueue := m'.internalQueue)
  {
  }

  lemma RetryLaterCounts(m: Manager, d: nat)
    requires Counted(m)
    ensures var m' := ScheduleRetryDelayed(m, d);
      Counted(m') && ViewOf(m') == ViewOf(m).(retry := true, delayQueue := m'.delayQueue)
  {
  }

  lemma ConnectWakes(m: Manager, a: ConnectAnswers)
    requires FlagsCount(m) && Queued(m, Connect) == 0 && !m.transport
    ensures Wakeups(OnConnect(m, a))
  {
    hide HandleDisconnect, ScheduleReconnect, Resync;
    if a.open.Err? {
      ReconnectCounts(Wait(m, a.open.took));
    } else {
      var m1 := OnOpened(m, a.open.took);
      var (m2, e) := Resync(m1, a);
      ResyncView(m1, a);
      if e.Some? {
        DisconnectCounts(m2);
      } else {
        var m3 := Note(Emit(m2.(reconnectAttempt := 0), Connection(Connected)), Established);
        PollingNowCounts(m3);
        RetryNowCounts(SchedulePollingNow(m3));
      }
    }
  }

  lemma PollKeepsCounts(m: Manager, due: bool, a: Polled)
    requires Counted(m) && m.transport
    ensures var (m', ok) := PollIfDue(m, due, a);
      && Counted(m') && ok == m'.transport
      && ViewOf(m') == ViewOf(m).(transport := ok, delayQueue := m'.delayQueue)
  {
    hide PollData, HandleDisconnect;
    if due {
      PollDataView(m, a);
      var (m1, e) := PollData(m, a);
      if e.Some? && e.value.IsHardIo() {
        DisconnectCounts(Note(m1, Hard));
      } else if e.Some? && CountSoftFailure(m1).consecutiveFailures >= RECONNECT_THRESHOLD {
        DisconnectCounts(CountSoftFailure(m1));
      }
    }
  }

  lemma PollingWakes(m: Manager, a: PollAnswers)
    requires Counted(m.(dataPollingScheduled := false))
    requires m.transport && m.pendingWrites != [] ==> m.retryWritesScheduled
    ensures Wakeups(OnRunDataPolling(m, a))
  {
    hide PollIfDue, Queued;
    var m0 := m.(dataPollingScheduled := false);
    if m0.transport {
      var d1 := Due(m0.lastDeviceInfo, DEVICE_INFO_POLL_INTERVAL, m0.now);
      var (m1, ok1) := PollIfDue(m0, d1, InfoAnswer(a.info));
      PollKeepsCounts(m0, d1, InfoAnswer(a.info));
      if !ok1 { return; }
      var d2 := Due(m1.lastConfig, CONFIG_POLL_INTERVAL, m0.now);
      var (m2, ok2) := PollIfDue(m1, d2, ConfigAnswer(a.config));
      PollKeepsCounts(m1, d2, ConfigAnswer(a.config));
      if !ok2 { return; }
      var d3 := Due(m2.lastOperational, OPERATIONAL_POLL_INTERVAL, m0.now);
      var (m3, ok3) := PollIfDue(m2, d3, OperationalAnswer(a.operational));
      PollKeepsCounts(m2, d3, OperationalAnswer(a.operational));
      if !ok3 { return; }
      var d4 := Due(m3.lastAlarms, ALARM_POLL_INTERVAL, m0.now);
      var (m4, ok4) := PollIfDue(m3, d4, AlarmsAnswer(a.alarms));
      PollKeepsCounts(m3, d4, AlarmsAnswer(a.alarms));
      if !ok4 { return; }
      PollingLaterCounts(m4, MIN_POLL_INTERVAL);
    }
  }

  lemma WriteErrorWakes(m: Manager, e: JkBmsError)
    requires Counted(m) && m.transport && m.dataPollingScheduled
    ensures Wakeups(HandleWriteError(m, e))
  {
    hide Queued, HandleDisconnect;
    if e.IsHardIo() {
      DisconnectCounts(Note(m, Hard)) by { CountedView(m, Note(m, Hard)); }
    } else {
      var m1 := CountSoftFailure(m);
      CountedView(m, m1);
      if m1.consecutiveFailures >= RECONNECT_THRESHOLD {
        DisconnectCounts(m1);
      } else {
        RetryLaterCounts(m1, RETRY_WRITE_SOFT_DELAY);
      }
    }
  }

  lemma WriteWakes(m: Manager, command: WriteCommand, seqNo: nat, a: WriteAnswers)
    requires Wakeups(m)
    ensures Wakeups(OnWriteCommand(m, command, seqNo, a))
  {
    hide Counted, HandleWriteError;
    var m0 := m.(received := m.received + [seqNo]);
    if m.transport && m.pendingWrites == [] {
      var (m1, e) := DoWrite(m0, PendingWrite(command, seqNo, m.now), a);
      CountedView(m, m1);
      if e.Some? {
        var m2 := m1.(pendingWrites := m1.pendingWrites + [PendingWrite(command, seqNo, m1.now)]);
        CountedView(m, m2);
        WriteErrorWakes(m2, e.value);
      }
    } else if ReconnectCapped(m0) {
      CountedView(m, Emit(m0, WriteError(seqNo, Capped)));
    } else if |m0.pendingWrites| >= PENDING_WRITES_CAP {
      CountedView(m, Emit(m0, WriteError(seqNo, QueueFull)));
    } else {
      var m1 := m0.(pendingWrites := m0.pendingWrites + [PendingWrite(command, seqNo, m0.now)]);
      CountedView(m, m1);
      RetryNowCounts(m1);
    }
  }

  lemma {:induction false} EvictKeepsQueues(m: Manager)
    ensures var m' := EvictExpired(m);
      && m'.internalQueue == m.internalQueue && m'.delayQueue == m.delayQueue && m'.transport == m.transport
      && m'.dataPollingScheduled == m.dataPollingScheduled && m'.retryWritesScheduled == m.retryWritesScheduled
    decreases |m.pendingWrites|
  {
    if m.pendingWrites != [] && ExpiredAt(m.pendingWrites[0], m.now) {
      EvictKeepsQueues(Emit(m.(pendingWrites := m.pendingWrites[1..]), WriteError(m.pendingWrites[0].seqNo, Expired)));
    }
  }

  lemma RetryWakes(m: Manager, a: WriteAnswers)
    requires Counted(m.(retryWritesScheduled := false))
    requires m.transport ==> m.dataPollingScheduled
    ensures Wakeups(OnRetryWrites(m, a))
  {
    var m0 := m.(retryWritesScheduled := false);
    EvictKeepsQueues(m0);
    var m1 := EvictExpired(m0);
    if m0.transport && m1.pendingWrites != [] {
      var (m2, e) := DoWrite(m1, m1.pendingWrites[0], a);
      if e.Some? {
        WriteErrorWakes(m2, e.value);
      }
    }
  }

  lemma InternalWakes(m: Manager, popped: Manager, c: InternalCommand, a: Answers)
    requires Wakeups(m)
    requires popped == m.(internalQueue := popped.internalQueue, delayQueue := popped.delayQueue)
    requires forall k :: Queued(popped, k) == Queued(m, k) - if k == c then 1 else 0
    ensures Wakeups(HandleInternal(popped, c, a))
  {
    match c
    case Connect => ConnectWakes(popped, a.connect);
    case RunDataPolling =>
      var p := popped.(dataPollingScheduled := false);
      assert forall k :: Queued(p, k) == Queued(popped, k);
      PollingWakes(popped, a.poll);
    case RetryWrites =>
      var p := popped.(retryWritesScheduled := false);
      assert forall k :: Queued(p, k) == Queued(popped, k);
      RetryWakes(popped, a.write);
  }

  /** Every turn of the actor keeps the wake-up discipline. */
  lemma StepWakes(m: Manager, input: Input)
    requires Wakeups(m)
    ensures Wakeups(Step(m, input))
  {
    match input
    case Tick(_) =>
    case Command(command, seqNo, write) => WriteWakes(m, command, seqNo, write);
    case Internal(answers) =>
      if m.internalQueue != [] {
        var popped := m.(internalQueue := m.internalQueue[1..]);
        forall k ensures Queued(popped, k) == Queued(m, k) - if k == m.internalQueue[0] then 1 else 0 {
          CountInDropFirst(m.internalQueue, k);
        }
        InternalWakes(m, popped, m.internalQueue[0], answers);
      }
    case Timer(i, answers) =>
      if i < |m.delayQueue| && m.delayQueue[i].due <= m.now {
        var popped := m.(delayQueue := RemoveAt(m.delayQueue, i));
        forall k ensures Queued(popped, k) == Queued(m, k) - if k == m.delayQueue[i].command then 1 else 0 {
          CountDelayedRemove(m.delayQueue, i, k);
        }
        InternalWakes(m, popped, m.delayQueue[i].command, answers);
      }
  }

  lemma BootWakes(m: Manager, boot: ConnectAnswers)
    requires m.internalQueue == [] && m.delayQueue == []
    requires !m.transport && !m.dataPollingScheduled && !m.retryWritesScheduled
    ensures Wakeups(OnConnect(m, boot))
  {
    hide OnConnect;
    ConnectWakes(m, boot);
  }
}
