/**
 * The link events: their grammar, how they relate to the attempt counter, and how long an outage
 * has lasted by the time it is reported or a write is refused because of it.
 */
module ManagerLink {
  import opened Wrappers
  import opened JkBmsTypes
  import opened ManagerSpec
  import opened ManagerWakeups

  /** Link-down events since the last `Connected`. */
  function Attempts(ev: seq<Stamped>): nat {
    if ev == [] then 0 else
    match ev[|ev| - 1].event
    case Connection(state) => if state == Connected then 0 else Attempts(ev[..|ev| - 1]) + 1
    case _ => Attempts(ev[..|ev| - 1])
  }

  /** When the current outage began: the time of its first link-down event. */
  function FirstDown(ev: seq<Stamped>): Instant {
    if ev == [] then 0 else
    var prev := ev[..|ev| - 1];
    match ev[|ev| - 1].event
    case Connection(state) =>
      if state == Connected then 0 else if Attempts(prev) == 0 then ev[|ev| - 1].at else FirstDown(prev)
    case _ => FirstDown(prev)
  }

  predicate EverConnected(ev: seq<Stamped>) {
    ev != [] && (ev[|ev| - 1].event == Connection(Connected) || EverConnected(ev[..|ev| - 1]))
  }

  /** Device info, configuration and operational data are the last three events. */
  predicate JustResynced(ev: seq<Stamped>) {
    && |ev| >= 3
    && ev[|ev| - 3].event.Data? && ev[|ev| - 3].event.data.Info?
    && ev[|ev| - 2].event.Data? && ev[|ev| - 2].event.data.Config?
    && ev[|ev| - 1].event.Data? && ev[|ev| - 1].event.data.Operational?
  }

  /** Whether `e` may follow `prev`. */
  predicate Legal(prev: seq<Stamped>, e: Stamped) {
    match e.event
    case Connection(Connected) => JustResynced(prev) && (EverConnected(prev) ==> Attempts(prev) >= 1)
    case Connection(Reconnecting) => Attempts(prev) < 5
    case Connection(Disconnected) => Attempts(prev) >= 5 && e.at >= FirstDown(prev) + 10 * SECOND
    case WriteError(_, cause) => cause == Capped ==> Attempts(prev) > 5 && e.at >= FirstDown(prev) + 10 * SECOND
    case _ => true
  }

  predicate Grammar(ev: seq<Stamped>) {
    ev == [] || (Grammar(ev[..|ev| - 1]) && Legal(ev[..|ev| - 1], ev[|ev| - 1]))
  }

  /** The backoff served by the first `n` attempts of an outage; five of them take ten seconds. */
  function Served(n: nat): nat {
    if n == 0 then 0 else Served(n - 1) + if n <= 5 then BackoffDelay(n) else 0
  }

  lemma FiveDelays()
    ensures Served(5) == WRITE_TTL
  {
    assert Served(1) == 250 * MILLISECOND;
    assert Served(2) == 1250 * MILLISECOND;
    assert Served(3) == 3000 * MILLISECOND;
    assert Served(4) == 5500 * MILLISECOND;
  }

  predicate NoConnect(q: seq<Delayed>) {
    forall i | 0 <= i < |q| :: q[i].command != Connect
  }

  predicate ConnectNotBefore(q: seq<Delayed>, t: Instant) {
    forall i | 0 <= i < |q| && q[i].command == Connect :: q[i].due >= t
  }

  /** The log is lawful and every backoff of the current outage has been served. */
  predicate LinkReady(m: Manager) {
    && Grammar(m.events) && m.reconnectAttempt == Attempts(m.events)
    && (m.reconnectAttempt >= 1 ==> m.now >= FirstDown(m.events) + Served(m.reconnectAttempt))
  }

  predicate LinkUp(m: Manager) {
    m.transport && LinkReady(m) && m.reconnectAttempt == 0 && EverConnected(m.events) && NoConnect(m.delayQueue)
  }

  predicate LinkDown(m: Manager) {
    && !m.transport && Grammar(m.events) && m.reconnectAttempt == Attempts(m.events) && m.reconnectAttempt >= 1
    && (m.reconnectAttempt > 5 ==> m.now >= FirstDown(m.events) + WRITE_TTL)
    && ConnectNotBefore(m.delayQueue, FirstDown(m.events) + Served(m.reconnectAttempt))
  }

  predicate Link(m: Manager) {
    (LinkUp(m) || LinkDown(m)) && forall i | 0 <= i < |m.internalQueue| :: m.internalQueue[i] != Connect
  }

  // ---- Events that do not concern the link ----

  predicate Neutral(e: JkBmsEvent) {
    !e.Connection? && !(e.WriteError? && e.cause == Capped)
  }

  /** `m'` came from `m` without a link event. */
  predicate SameLink(m: Manager, m': Manager) {
    && m'.reconnectAttempt == m.reconnectAttempt && m'.transport == m.transport && m'.now >= m.now
    && m'.internalQueue == m.internalQueue && m'.delayQueue == m.delayQueue
    && Attempts(m'.events) == Attempts(m.events) && FirstDown(m'.events) == FirstDown(m.events)
    && EverConnected(m'.events) == EverConnected(m.events) && (Grammar(m.events) ==> Grammar(m'.events))
  }

  lemma NeutralEmit(m: Manager, e: JkBmsEvent)
    requires Neutral(e)
    ensures SameLink(m, Emit(m, e))
  {
  }

  lemma PollDataLink(m: Manager, a: Polled)
    ensures SameLink(m, PollData(m, a).0)
  {
    hide PollData;
    var (m', e) := PollData(m, a);
    PollDataEffect(m, a);
    if e.None? {
      var data := Data(a.Result().value);
      NeutralEmit(m, data);
      EmittedElsewhen(m.events, Stamped(m.now, data), Stamped(m'.now, data));
    }
  }

  lemma EmittedElsewhen(ev: seq<Stamped>, x: Stamped, y: Stamped)
    requires x.event == y.event && Neutral(x.event)
    ensures Attempts(ev + [x]) == Attempts(ev + [y]) && FirstDown(ev + [x]) == FirstDown(ev + [y])
    ensures EverConnected(ev + [x]) == EverConnected(ev + [y]) && Grammar(ev + [x]) == Grammar(ev + [y])
  {
  }

  // ---- Going down ----

  lemma ServedSteps(n: nat)
    ensures Served(n + 1) <= Served(n) + BackoffDelay(n + 1)
    ensures n >= 5 ==> Served(n) == WRITE_TTL
  {
    if n <= 5 {
      FiveDelays();
    } else {
      ServedSteps(n - 1);
    }
  }

  lemma ReconnectGoesDown(m: Manager)
    requires LinkReady(m) && !m.transport && NoConnect(m.delayQueue)
    ensures var m' := ScheduleReconnect(m); LinkDown(m') && m'.internalQueue == m.internalQueue
  {
    hide BackoffDelay;
    var n := m.reconnectAttempt;
    ServedSteps(n);
    ServedSteps(n + 1);
    FiveDelays();
  }

  lemma DisconnectGoesDown(m: Manager)
    requires LinkReady(m) && m.transport && NoConnect(m.delayQueue)
    ensures var m' := HandleDisconnect(m); LinkDown(m') && m'.internalQueue == m.internalQueue
  {
    hide ScheduleReconnect, Grammar, Attempts, FirstDown, EverConnected, Served;
    ReconnectGoesDown(Note(m.(transport := false, consecutiveFailures := 0), Dropped));
  }

  // ---- Handlers ----

  /** Scheduling anything but a connect leaves the link as it is. */
  lemma SchedulesKeep(m: Manager, d: nat)
    requires Link(m)
    ensures Link(SchedulePollingNow(m)) && Link(SchedulePollingDelayed(m, d))
    ensures Link(ScheduleRetryNow(m)) && Link(ScheduleRetryDelayed(m, d))
  {
    hide Grammar, Attempts, FirstDown, EverConnected, Served;
  }

  lemma ResyncLink(m: Manager, a: ConnectAnswers)
    ensures var (m', e) := Resync(m, a);
      SameLink(m, m') && (e.None? ==> JustResynced(m'.events))
  {
    hide PollData, Grammar, Attempts, FirstDown, EverConnected;
    var (m1, e1) := PollData(m, InfoAnswer(a.info));
    PollDataLink(m, InfoAnswer(a.info));
    PollDataEffect(m, InfoAnswer(a.info));
    var (m2, e2) := PollData(m1, ConfigAnswer(a.config));
    PollDataLink(m1, ConfigAnswer(a.config));
    PollDataEffect(m1, ConfigAnswer(a.config));
    PollDataLink(m2, OperationalAnswer(a.operational));
    PollDataEffect(m2, OperationalAnswer(a.operational));
  }

  lemma ConnectedIsLegal(m: Manager)
    requires Grammar(m.events) && JustResynced(m.events) && m.transport && NoConnect(m.delayQueue)
    requires EverConnected(m.events) ==> Attempts(m.events) >= 1
    ensures LinkUp(Note(Emit(m.(reconnectAttempt := 0), Connection(Connected)), Established))
  {
  }

  lemma ConnectKeepsLink(m: Manager, a: ConnectAnswers)
    requires LinkReady(m) && !m.transport && NoConnect(m.delayQueue)
    requires EverConnected(m.events) ==> m.reconnectAttempt >= 1
    requires forall i | 0 <= i < |m.internalQueue| :: m.internalQueue[i] != Connect
    ensures Link(OnConnect(m, a))
  {
    hide Grammar, Attempts, FirstDown, EverConnected, Served, HandleDisconnect, ScheduleReconnect, Resync, JustResynced;
    if a.open.Err? {
      ReconnectGoesDown(Wait(m, a.open.took));
    } else {
      var m1 := OnOpened(m, a.open.took);
      var (m2, e) := Resync(m1, a);
      ResyncLink(m1, a);
      if e.Some? {
        DisconnectGoesDown(m2);
      } else {
        ConnectedIsLegal(m2);
        var m3 := Note(Emit(m2.(reconnectAttempt := 0), Connection(Connected)), Established);
        SchedulesKeep(m3, 0);
        SchedulesKeep(SchedulePollingNow(m3), 0);
      }
    }
  }

  lemma PollLink(m: Manager, due: bool, a: Polled)
    requires LinkUp(m)
    ensures var (m', ok) := PollIfDue(m, due, a);
      (if ok then LinkUp(m') else LinkDown(m')) && m'.internalQueue == m.internalQueue
  {
    hide Grammar, Attempts, FirstDown, EverConnected, HandleDisconnect, PollData;
    PollDataLink(m, a);
    PollDataEffect(m, a);
    var (m1, e) := PollData(m, a);
    if e.Some? && e.value.IsHardIo() {
      DisconnectGoesDown(Note(m1, Hard));
    } else {
      DisconnectGoesDown(CountSoftFailure(m1));
    }
  }

  lemma PollingKeepsLink(m: Manager, a: PollAnswers)
    requires Link(m)
    ensures Link(OnRunDataPolling(m, a))
  {
    hide Grammar, Attempts, FirstDown, EverConnected, Served, PollIfDue;
    var m0 := m.(dataPollingScheduled := false);
    if m.transport {
      var d1 := Due(m0.lastDeviceInfo, DEVICE_INFO_POLL_INTERVAL, m0.now);
      var (m1, ok1) := PollIfDue(m0, d1, InfoAnswer(a.info));
      PollLink(m0, d1, InfoAnswer(a.info));
      if !ok1 { return; }
      var d2 := Due(m1.lastConfig, CONFIG_POLL_INTERVAL, m0.now);
      var (m2, ok2) := PollIfDue(m1, d2, ConfigAnswer(a.config));
      PollLink(m1, d2, ConfigAnswer(a.config));
      if !ok2 { return; }
      var d3 := Due(m2.lastOperational, OPERATIONAL_POLL_INTERVAL, m0.now);
      var (m3, ok3) := PollIfDue(m2, d3, OperationalAnswer(a.operational));
      PollLink(m2, d3, OperationalAnswer(a.operational));
      if !ok3 { return; }
      var d4 := Due(m3.lastAlarms, ALARM_POLL_INTERVAL, m0.now);
      var (m4, ok4) := PollIfDue(m3, d4, AlarmsAnswer(a.alarms));
      PollLink(m3, d4, AlarmsAnswer(a.alarms));
      if !ok4 { return; }
      SchedulesKeep(m4, MIN_POLL_INTERVAL);
    }
  }

  lemma DoWriteLink(m: Manager, w: PendingWrite, a: WriteAnswers)
    requires LinkUp(m)
    ensures LinkUp(DoWrite(m, w, a).0) && DoWrite(m, w, a).0.internalQueue == m.internalQueue
  {
    hide Grammar, Attempts, FirstDown, EverConnected;
    var m1 := Wait(Sent(m, w, a.write), a.write.took);
    var m2 := Talked(Wait(m1, POST_WRITE_SETTLE + a.config.took), Asking(ConfigAnswer(a.config)));
    if a.config.Ok? {
      var m3 := Note(m2.(lastConfig := Some(m2.now), consecutiveFailures := 0), Good);
      NeutralEmit(m3, WriteConfirmation(w.seqNo, a.config.value));
    }
  }

  lemma WriteErrorLink(m: Manager, e: JkBmsError)
    requires Link(m) && LinkUp(m)
    ensures Link(HandleWriteError(m, e))
  {
    hide Grammar, Attempts, FirstDown, EverConnected, Served, HandleDisconnect;
    if e.IsHardIo() {
      DisconnectGoesDown(Note(m, Hard));
    } else {
      var m1 := CountSoftFailure(m);
      if m1.consecutiveFailures >= RECONNECT_THRESHOLD {
        DisconnectGoesDown(m1);
      } else {
        SchedulesKeep(m1, RETRY_WRITE_SOFT_DELAY);
      }
    }
  }

  lemma RejectionKeeps(m: Manager, n: nat, cause: Cause)
    requires Link(m) && (cause == Capped ==> ReconnectCapped(m))
    ensures Link(Emit(m, WriteError(n, cause)))
  {
    hide Served;
  }

  lemma CommandKeepsLink(m: Manager, command: WriteCommand, n: nat, a: WriteAnswers)
    requires Link(m)
    ensures Link(OnWriteCommand(m, command, n, a))
  {
    hide Grammar, Attempts, FirstDown, EverConnected, Served, DoWrite, HandleWriteError;
    var m0 := m.(received := m.received + [n]);
    if m.transport && m.pendingWrites == [] {
      var w := PendingWrite(command, n, m.now);
      DoWriteLink(m0, w, a);
      var (m1, e) := DoWrite(m0, w, a);
      if e.Some? {
        WriteErrorLink(m1.(pendingWrites := m1.pendingWrites + [PendingWrite(command, n, m1.now)]), e.value);
      }
    } else if ReconnectCapped(m0) {
      RejectionKeeps(m0, n, Capped);
    } else {
      RejectionKeeps(m0, n, QueueFull);
      SchedulesKeep(m0.(pendingWrites := m0.pendingWrites + [PendingWrite(command, n, m0.now)]), 0);
    }
  }

  lemma {:induction false} EvictLink(m: Manager)
    requires LinkUp(m)
    ensures LinkUp(EvictExpired(m)) && EvictExpired(m).internalQueue == m.internalQueue
    decreases |m.pendingWrites|
  {
    hide Grammar, Attempts, FirstDown, EverConnected, Served;
    if m.pendingWrites != [] && ExpiredAt(m.pendingWrites[0], m.now) {
      var m0 := m.(pendingWrites := m.pendingWrites[1..]);
      NeutralEmit(m0, WriteError(m.pendingWrites[0].seqNo, Expired));
      EvictLink(Emit(m0, WriteError(m.pendingWrites[0].seqNo, Expired)));
    }
  }

  lemma RetryKeepsLink(m: Manager, a: WriteAnswers)
    requires Link(m)
    ensures Link(OnRetryWrites(m, a))
  {
    hide Grammar, Attempts, FirstDown, EverConnected, Served, DoWrite, HandleWriteError, EvictExpired;
    var m0 := m.(retryWritesScheduled := false);
    if m.transport {
      var m1 := EvictExpired(m0);
      EvictLink(m0);
      if m1.pendingWrites != [] {
        DoWriteLink(m1, m1.pendingWrites[0], a);
        var (m2, e) := DoWrite(m1, m1.pendingWrites[0], a);
        if e.Some? {
          WriteErrorLink(m2, e.value);
        } else {
          SchedulesKeep(m2.(pendingWrites := if m2.pendingWrites == [] then [] else m2.pendingWrites[1..]), 0);
        }
      }
    }
  }

  // ---- Steps ----

  lemma {:induction false} NoneCounted(q: seq<Delayed>)
    requires CountDelayed(q, Connect) == 0
    ensures NoConnect(q)
  {
    if q != [] {
      NoneCounted(q[..|q| - 1]);
    }
  }

  lemma TimerConnects(m: Manager, i: nat, a: Answers)
    requires Link(m) && Wakeups(m) && i < |m.delayQueue|
    requires m.delayQueue[i].due <= m.now && m.delayQueue[i].command == Connect
    ensures Link(Step(m, Timer(i, a)))
  {
    hide Grammar, Attempts, FirstDown, EverConnected, Served, OnConnect, CountDelayed, CountIn;
    var popped := m.(delayQueue := RemoveAt(m.delayQueue, i));
    CountDelayedRemove(m.delayQueue, i, Connect);
    NoneCounted(popped.delayQueue);
    ConnectKeepsLink(popped, a.connect);
  }

  lemma InternalLink(m: Manager, c: InternalCommand, a: Answers)
    requires Link(m) && c != Connect
    ensures Link(HandleInternal(m, c, a))
  {
    hide Link, OnRetryWrites, OnRunDataPolling;
    if c == RunDataPolling {
      PollingKeepsLink(m, a.poll);
    } else {
      RetryKeepsLink(m, a.write);
    }
  }

  /** Every turn of the actor keeps the link's grammar and its timing. */
  lemma StepLink(m: Manager, input: Input)
    requires Link(m) && Wakeups(m)
    ensures Link(Step(m, input))
  {
    hide Grammar, Attempts, FirstDown, EverConnected, Served, Wakeups, OnWriteCommand, HandleInternal;
    match input
    case Tick(_) =>
    case Command(command, n, write) => CommandKeepsLink(m, command, n, write);
    case Internal(answers) =>
      if m.internalQueue != [] {
        InternalLink(m.(internalQueue := m.internalQueue[1..]), m.internalQueue[0], answers);
      }
    case Timer(i, answers) =>
      if i < |m.delayQueue| && m.delayQueue[i].due <= m.now {
        if m.delayQueue[i].command == Connect {
          TimerConnects(m, i, answers);
        } else {
          InternalLink(m.(delayQueue := RemoveAt(m.delayQueue, i)), m.delayQueue[i].command, answers);
        }
      }
  }

  lemma BootLink(m: Manager, boot: ConnectAnswers)
    requires m.events == [] && m.internalQueue == [] && m.delayQueue == [] && m.reconnectAttempt == 0 && !m.transport
    ensures Link(OnConnect(m, boot))
  {
    hide OnConnect;
    ConnectKeepsLink(m, boot);
  }

  // ---- Reading the grammar ----

  /** Every event of a lawful log was legal when it was emitted. */
  lemma {:induction false} LegalAt(ev: seq<Stamped>, i: nat)
    requires Grammar(ev) && i < |ev|
    ensures Grammar(ev[..i]) && Legal(ev[..i], ev[i])
    decreases |ev|
  {
    if i < |ev| - 1 {
      LegalAt(ev[..|ev| - 1], i);
      assert ev[..|ev| - 1][..i] == ev[..i];
    }
  }

  /** The outage that `ev` ends in began at some link-down event with no `Connected` since. */
  lemma {:induction false} OutageBegan(ev: seq<Stamped>) returns (j: nat)
    requires Attempts(ev) >= 1
    ensures j < |ev| && ev[j].event.Connection? && ev[j].event.state != Connected
    ensures Attempts(ev[..j]) == 0 && ev[j].at == FirstDown(ev)
    ensures forall k | j <= k < |ev| :: ev[k].event != Connection(Connected)
    decreases |ev|
  {
    var n := |ev| - 1;
    if ev[n].event.Connection? && Attempts(ev[..n]) == 0 {
      j := n;
    } else {
      j := OutageBegan(ev[..n]);
      assert ev[..n][..j] == ev[..j];
    }
  }
}
