/** How long each wake-up is put off: reconnects by the outage's schedule, polls and retries briefly. */
module ManagerTimes {
  import opened Wrappers
  import opened JkBmsTypes
  import opened ManagerSpec
  import opened ManagerLink
  import opened ManagerRuns
  import Wakeup = ManagerWakeups
  import ManagerWrites
  import ManagerEscalation

  /** The delay after the `n`-th link-down event of an outage. */
  function Backoff(n: nat): nat {
    match n
    case 1 => 250 * MILLISECOND
    case 2 => 1000 * MILLISECOND
    case 3 => 1750 * MILLISECOND
    case 4 => 2500 * MILLISECOND
    case 5 => 4500 * MILLISECOND
    case _ => 5 * SECOND
  }

  /** When the link was last reported down. */
  function LastDown(ev: seq<Stamped>): Instant {
    if ev == [] then 0
    else
      match ev[|ev| - 1].event
      case Connection(state) => if state == Connected then LastDown(ev[..|ev| - 1]) else ev[|ev| - 1].at
      case _ => LastDown(ev[..|ev| - 1])
  }

  predicate OnTime(e: Delayed, ev: seq<Stamped>, now: Instant) {
    match e.command
    case Connect => e.due == LastDown(ev) + Backoff(Attempts(ev))
    case RunDataPolling => e.due <= now + 5 * SECOND
    case RetryWrites => e.due <= now + 250 * MILLISECOND
  }

  predicate AllOnTime(q: seq<Delayed>, ev: seq<Stamped>, now: Instant) {
    forall i | 0 <= i < |q| :: OnTime(q[i], ev, now)
  }

  predicate Timely(m: Manager) {
    AllOnTime(m.delayQueue, m.events, m.now)
  }

  /** No link-down event, no new wake-up. */
  predicate Calm(m: Manager, m': Manager) {
    && m'.now >= m.now && m'.delayQueue == m.delayQueue && m'.transport == m.transport
    && (m.transport || (LastDown(m'.events) == LastDown(m.events) && Attempts(m'.events) == Attempts(m.events)))
  }

  /** With the link up no reconnect waits, so only the clock matters. */
  predicate UpOrTimely(m: Manager) {
    Timely(m) && (m.transport ==> NoConnect(m.delayQueue))
  }

  lemma CalmKeeps(m: Manager, m': Manager)
    requires UpOrTimely(m) && Calm(m, m')
    ensures UpOrTimely(m')
  {
    hide LastDown, Attempts, Backoff;
  }

  lemma BackoffIsSchedule(n: nat)
    requires n >= 1
    ensures BackoffDelay(n) == Backoff(n)
  {
  }

  /** Going down puts the reconnect off by the schedule. */
  lemma ReconnectOnTime(m: Manager)
    requires Timely(m) && NoConnect(m.delayQueue) && !m.transport && m.reconnectAttempt == Attempts(m.events)
    ensures var m' := ScheduleReconnect(m); UpOrTimely(m') && m'.reconnectAttempt == Attempts(m'.events)
  {
    hide BackoffDelay, Backoff;
    BackoffIsSchedule(m.reconnectAttempt + 1);
  }

  lemma DropOnTime(m: Manager)
    requires UpOrTimely(m) && m.transport && m.reconnectAttempt == Attempts(m.events)
    ensures UpOrTimely(HandleDisconnect(m))
  {
    hide ScheduleReconnect, LastDown, Attempts;
    ReconnectOnTime(Note(m.(transport := false, consecutiveFailures := 0), Dropped));
  }

  lemma SchedulingOnTime(m: Manager)
    requires UpOrTimely(m)
    ensures UpOrTimely(SchedulePollingNow(m)) && UpOrTimely(SchedulePollingDelayed(m, MIN_POLL_INTERVAL))
    ensures UpOrTimely(ScheduleRetryNow(m)) && UpOrTimely(ScheduleRetryDelayed(m, RETRY_WRITE_SOFT_DELAY))
  {
    hide LastDown, Attempts, Backoff;
  }

  // ---- Handlers ----

  lemma ConnectOnTime(m: Manager, a: ConnectAnswers)
    requires UpOrTimely(m) && LinkReady(m) && !m.transport && NoConnect(m.delayQueue)
    ensures UpOrTimely(OnConnect(m, a))
  {
    hide Resync, HandleDisconnect, ScheduleReconnect, LastDown, Attempts, FirstDown, Grammar, Served;
    if a.open.Err? {
      ReconnectOnTime(Wait(m, a.open.took));
    } else {
      var m1 := OnOpened(m, a.open.took);
      ResyncLink(m1, a);
      var (m2, e) := Resync(m1, a);
      CalmKeeps(m1, m2);
      if e.Some? {
        DropOnTime(m2);
      } else {
        var m3 := Note(Emit(m2.(reconnectAttempt := 0), Connection(Connected)), Established);
        CalmKeeps(m2, m3);
        SchedulingOnTime(m3);
        SchedulingOnTime(SchedulePollingNow(m3));
      }
    }
  }

  lemma PartOnTime(m: Manager, due: bool, a: Polled)
    requires UpOrTimely(m) && LinkUp(m)
    ensures var (m', ok) := PollIfDue(m, due, a);
      UpOrTimely(m') && (ok ==> LinkUp(m'))
  {
    hide PollData, HandleDisconnect, LastDown, Attempts, FirstDown, Grammar, EverConnected;
    if due {
      PollLink(m, due, a);
      PollDataLink(m, a);
      var m1 := PollData(m, a).0;
      CalmKeeps(m, m1);
      CalmKeeps(m1, Note(m1, Hard));
      DropOnTime(Note(m1, Hard));
      CalmKeeps(m1, CountSoftFailure(m1));
      DropOnTime(CountSoftFailure(m1));
    }
  }

  lemma PollingOnTime(m: Manager, a: PollAnswers)
    requires UpOrTimely(m) && Link(m)
    ensures UpOrTimely(OnRunDataPolling(m, a))
  {
    hide PollIfDue, LinkReady, LastDown, Attempts, FirstDown, Grammar, EverConnected, Served;
    var m0 := m.(dataPollingScheduled := false);
    if m.transport {
      SameUp(m, m0);
      var d1 := Due(m0.lastDeviceInfo, DEVICE_INFO_POLL_INTERVAL, m0.now);
      var (m1, ok1) := PollIfDue(m0, d1, InfoAnswer(a.info));
      PartOnTime(m0, d1, InfoAnswer(a.info));
      if !ok1 { return; }
      var d2 := Due(m1.lastConfig, CONFIG_POLL_INTERVAL, m0.now);
      var (m2, ok2) := PollIfDue(m1, d2, ConfigAnswer(a.config));
      PartOnTime(m1, d2, ConfigAnswer(a.config));
      if !ok2 { return; }
      var d3 := Due(m2.lastOperational, OPERATIONAL_POLL_INTERVAL, m0.now);
      var (m3, ok3) := PollIfDue(m2, d3, OperationalAnswer(a.operational));
      PartOnTime(m2, d3, OperationalAnswer(a.operational));
      if !ok3 { return; }
      var d4 := Due(m3.lastAlarms, ALARM_POLL_INTERVAL, m0.now);
      var (m4, ok4) := PollIfDue(m3, d4, AlarmsAnswer(a.alarms));
      PartOnTime(m3, d4, AlarmsAnswer(a.alarms));
      if !ok4 { return; }
      SchedulingOnTime(m4);
    }
  }

  lemma SameUp(m: Manager, m0: Manager)
    requires Link(m) && m.transport && m0 == m.(dataPollingScheduled := m0.dataPollingScheduled)
    ensures LinkUp(m0)
  {
  }

  lemma AttemptOnTime(m: Manager, w: PendingWrite, pending: seq<PendingWrite>, a: WriteAnswers)
    requires UpOrTimely(m) && LinkUp(m)
    ensures var (m1, e) := DoWrite(m, w, a);
      && UpOrTimely(m1)
      && (e.Some? ==> UpOrTimely(HandleWriteError(m1.(pendingWrites := pending), e.value)))
  {
    hide DoWrite, HandleDisconnect, ScheduleRetryDelayed, LastDown, Attempts, FirstDown, Grammar, EverConnected, Served;
    DoWriteLink(m, w, a);
    var (m1, e) := DoWrite(m, w, a);
    DoWriteLater(m, w, a);
    CalmKeeps(m, m1);
    var m2 := m1.(pendingWrites := pending);
    CalmKeeps(m1, Note(m2, Hard));
    DropOnTime(Note(m2, Hard));
    CalmKeeps(m1, CountSoftFailure(m2));
    DropOnTime(CountSoftFailure(m2));
    SchedulingOnTime(CountSoftFailure(m2));
  }

  lemma DoWriteLater(m: Manager, w: PendingWrite, a: WriteAnswers)
    ensures var m' := DoWrite(m, w, a).0;
      m'.now >= m.now && m'.delayQueue == m.delayQueue && m'.transport == m.transport
  {
  }

  lemma RejectionIsCalm(m: Manager, n: nat, cause: Cause)
    ensures Calm(m, Emit(m, WriteError(n, cause)))
  {
  }

  lemma CommandOnTime(m: Manager, command: WriteCommand, n: nat, a: WriteAnswers)
    requires UpOrTimely(m) && Link(m)
    ensures UpOrTimely(OnWriteCommand(m, command, n, a))
  {
    hide DoWrite, HandleWriteError, ScheduleRetryNow, LastDown, Attempts, FirstDown, Grammar, EverConnected, Served;
    var m0 := m.(received := m.received + [n]);
    if m.transport && m.pendingWrites == [] {
      var w := PendingWrite(command, n, m.now);
      var m1 := DoWrite(m0, w, a).0;
      AttemptOnTime(m0, w, m1.pendingWrites + [PendingWrite(command, n, m1.now)], a);
    } else {
      RejectionIsCalm(m0, n, Capped);
      CalmKeeps(m0, Emit(m0, WriteError(n, Capped)));
      RejectionIsCalm(m0, n, QueueFull);
      CalmKeeps(m0, Emit(m0, WriteError(n, QueueFull)));
      SchedulingOnTime(m0.(pendingWrites := m0.pendingWrites + [PendingWrite(command, n, m0.now)]));
    }
  }

  lemma {:induction false} EvictionOnTime(m: Manager)
    requires UpOrTimely(m)
    ensures UpOrTimely(EvictExpired(m))
    decreases |m.pendingWrites|
  {
    hide UpOrTimely, EvictExpired, Calm;
    if m.pendingWrites != [] && ExpiredAt(m.pendingWrites[0], m.now) {
      EvictStep(m);
      var rest := m.(pendingWrites := m.pendingWrites[1..]);
      var n := m.pendingWrites[0].seqNo;
      RejectionIsCalm(rest, n, Expired);
      CalmKeeps(rest, Emit(rest, WriteError(n, Expired))) by { SameQueues(m, rest); }
      EvictionOnTime(Emit(rest, WriteError(n, Expired)));
    } else {
      EvictDone(m);
    }
  }

  lemma SameQueues(m: Manager, m': Manager)
    requires m' == m.(pendingWrites := m'.pendingWrites, internalQueue := m'.internalQueue)
    ensures UpOrTimely(m') <==> UpOrTimely(m)
  {
  }

  lemma RetryOnTime(m: Manager, a: WriteAnswers)
    requires UpOrTimely(m) && Link(m)
    ensures UpOrTimely(OnRetryWrites(m, a))
  {
    hide DoWrite, HandleWriteError, ScheduleRetryNow, EvictExpired, LastDown, Attempts, FirstDown, Grammar,
      EverConnected, Served;
    var m0 := m.(retryWritesScheduled := false);
    if m.transport {
      EvictionOnTime(m0);
      EvictLink(m0);
      var m1 := EvictExpired(m0);
      if m1.pendingWrites != [] {
        var m2 := DoWrite(m1, m1.pendingWrites[0], a).0;
        AttemptOnTime(m1, m1.pendingWrites[0], m2.pendingWrites, a);
        assert m2.(pendingWrites := m2.pendingWrites) == m2;
        SchedulingOnTime(m2.(pendingWrites := if m2.pendingWrites == [] then [] else m2.pendingWrites[1..]));
      }
    }
  }

  lemma InternalOnTime(m: Manager, c: InternalCommand, a: Answers)
    requires UpOrTimely(m) && Link(m) && c != Connect
    ensures UpOrTimely(HandleInternal(m, c, a))
  {
    hide OnRunDataPolling, OnRetryWrites, UpOrTimely, Link;
    if c == RunDataPolling {
      PollingOnTime(m, a.poll);
    } else {
      RetryOnTime(m, a.write);
    }
  }

  lemma RemovedOnTime(m: Manager, i: nat)
    requires UpOrTimely(m) && i < |m.delayQueue|
    ensures UpOrTimely(m.(delayQueue := RemoveAt(m.delayQueue, i)))
  {
    hide OnTime;
  }

  lemma TimerOnTime(m: Manager, i: nat, a: Answers)
    requires UpOrTimely(m) && Link(m) && Wakeup.Wakeups(m) && i < |m.delayQueue|
    requires m.delayQueue[i].due <= m.now && m.delayQueue[i].command == Connect
    ensures UpOrTimely(Step(m, Timer(i, a)))
  {
    hide UpOrTimely, Grammar, Attempts, FirstDown, EverConnected, Served, OnConnect, Wakeup.CountDelayed,
      Wakeup.CountIn;
    var popped := m.(delayQueue := RemoveAt(m.delayQueue, i));
    RemovedOnTime(m, i);
    Wakeup.CountDelayedRemove(m.delayQueue, i, Connect);
    NoneCounted(popped.delayQueue);
    ConnectOnTime(popped, a.connect);
  }

  lemma StepOnTime(m: Manager, input: Input)
    requires UpOrTimely(m) && Link(m) && Wakeup.Wakeups(m)
    ensures UpOrTimely(Step(m, input))
  {
    hide UpOrTimely, Grammar, Attempts, FirstDown, EverConnected, Served, Wakeup.Wakeups, OnWriteCommand,
      HandleInternal, Calm;
    match input
    case Tick(d) => TickIsCalm(m, d); CalmKeeps(m, Wait(m, d));
    case Command(command, n, write) => CommandOnTime(m, command, n, write);
    case Internal(answers) =>
      if m.internalQueue != [] {
        var popped := m.(internalQueue := m.internalQueue[1..]);
        SameQueues(m, popped);
        InternalOnTime(popped, m.internalQueue[0], answers);
      }
    case Timer(i, answers) =>
      if i < |m.delayQueue| && m.delayQueue[i].due <= m.now {
        if m.delayQueue[i].command == Connect {
          TimerOnTime(m, i, answers);
        } else {
          RemovedOnTime(m, i);
          InternalOnTime(m.(delayQueue := RemoveAt(m.delayQueue, i)), m.delayQueue[i].command, answers);
        }
      }
  }

  lemma TickIsCalm(m: Manager, d: nat)
    ensures Calm(m, Wait(m, d))
  {
  }

  lemma BootOnTime(m: Manager, boot: ConnectAnswers)
    requires m.events == [] && m.delayQueue == [] && m.reconnectAttempt == 0 && !m.transport
    ensures UpOrTimely(OnConnect(m, boot))
  {
    hide OnConnect;
    ConnectOnTime(m, boot);
  }

  lemma {:induction false} RunOnTime(boot: ConnectAnswers, inputs: seq<Input>)
    ensures UpOrTimely(Run(boot, inputs))
    decreases |inputs|
  {
    hide OnConnect, Step, UpOrTimely, Wakeup.Wakeups, Link, ManagerWrites.Writes, ManagerEscalation.Escalation;
    if inputs == [] {
      BootOnTime(NEW_MANAGER, boot);
    } else {
      RunKeeps(boot, inputs[..|inputs| - 1]);
      RunOnTime(boot, inputs[..|inputs| - 1]);
      StepOnTime(Run(boot, inputs[..|inputs| - 1]), inputs[|inputs| - 1]);
    }
  }

  /**
   * In any run, a waiting reconnect is due exactly its delay after the last link-down event: 0.25, 1,
   * 1.75, 2.5, 4.5 and from then on 5 seconds; polls are put off by at most 5 s, retries by 250 ms.
   */
  lemma WakeupsAreOnTime(boot: ConnectAnswers, inputs: seq<Input>, i: nat)
    requires i < |Run(boot, inputs).delayQueue|
    ensures var m := Run(boot, inputs); OnTime(m.delayQueue[i], m.events, m.now)
  {
    hide Run, OnTime;
    RunOnTime(boot, inputs);
  }
}
