/**
 * The BMS connection manager as a state machine: one function per handler of
 * src/jkbms/connection_manager.rs, over a value that holds the actor's fields, its queues, the
 * clock, the channel of emitted events and three histories the proofs speak about.
 */
module ManagerSpec {
  import opened Wrappers
  import opened JkBmsTypes

  const PENDING_WRITES_CAP: nat := 5
  const WRITE_TTL: nat := 10 * SECOND
  const POST_WRITE_SETTLE: nat := 300 * MILLISECOND
  const RETRY_WRITE_SOFT_DELAY: nat := 250 * MILLISECOND
  const OPERATIONAL_POLL_INTERVAL: nat := 5 * SECOND
  const CONFIG_POLL_INTERVAL: nat := 20 * SECOND
  const DEVICE_INFO_POLL_INTERVAL: nat := 30 * SECOND
  const ALARM_POLL_INTERVAL: nat := 5 * SECOND
  const MIN_POLL_INTERVAL: nat := OPERATIONAL_POLL_INTERVAL
  const RECONNECT_BACKOFF_MAX: nat := 5000 * MILLISECOND
  const RECONNECT_THRESHOLD: nat := 5
  const RECONNECT_BACKOFF: seq<nat> :=
    [250 * MILLISECOND, 1000 * MILLISECOND, 1750 * MILLISECOND, 2500 * MILLISECOND, 4500 * MILLISECOND]

  datatype InternalCommand = Connect | RunDataPolling | RetryWrites

  /** An entry of the delay queue. */
  datatype Delayed = Delayed(command: InternalCommand, due: Instant)

  datatype PendingWrite = PendingWrite(command: WriteCommand, seqNo: nat, queuedAt: Instant)

  /** An emitted event and the time it was emitted. */
  datatype Stamped = Stamped(at: Instant, event: JkBmsEvent)

  /** A write handed to the protocol. */
  datatype WireWrite = WireWrite(at: Instant, command: WriteCommand, seqNo: nat, queuedAt: Instant)

  /** What the link went through, as the failure counter sees it. */
  datatype Mark = Opened | Established | Good | Soft | Hard | Dropped

  /** What the manager did with the line: opened the port, asked for data, sent a switch command. */
  datatype Talk = Opening | Asking(poll: Polled) | Switching(seqNo: nat, command: WriteCommand, answer: Answer<()>)

  datatype Manager = Manager(
    now: Instant,
    transport: bool,
    reconnectAttempt: nat,
    dataPollingScheduled: bool,
    retryWritesScheduled: bool,
    consecutiveFailures: nat,
    pendingWrites: seq<PendingWrite>,
    lastDeviceInfo: Option<Instant>,
    lastConfig: Option<Instant>,
    lastOperational: Option<Instant>,
    lastAlarms: Option<Instant>,
    internalQueue: seq<InternalCommand>,
    delayQueue: seq<Delayed>,
    events: seq<Stamped>,
    // Histories; no transition reads them.
    received: seq<nat>,
    wire: seq<WireWrite>,
    marks: seq<Mark>,
    talks: seq<Talk>)

  const NEW_MANAGER := Manager(0, false, 0, false, false, 0, [], None, None, None, None, [], [], [], [], [], [], [])

  // ---- What the outside answers ----

  datatype ConnectAnswers = ConnectAnswers(
    open: Answer<()>, info: Answer<DeviceInfo>, config: Answer<ConfigOptions>, operational: Answer<OperationalData>)

  datatype PollAnswers = PollAnswers(
    info: Answer<DeviceInfo>, config: Answer<ConfigOptions>, operational: Answer<OperationalData>, alarms: Answer<nat>)

  datatype WriteAnswers = WriteAnswers(write: Answer<()>, config: Answer<ConfigOptions>)

  datatype Answers = Answers(connect: ConnectAnswers, poll: PollAnswers, write: WriteAnswers)

  /** A poll of one kind of data, and what came of it. */
  datatype Polled =
    | InfoAnswer(info: Answer<DeviceInfo>)
    | ConfigAnswer(config: Answer<ConfigOptions>)
    | OperationalAnswer(operational: Answer<OperationalData>)
    | AlarmsAnswer(alarms: Answer<nat>)
  {
    function Result(): Answer<JkBmsData> {
      match this
      case InfoAnswer(Ok(v, t)) => Ok(Info(v), t)
      case ConfigAnswer(Ok(v, t)) => Ok(Config(v), t)
      case OperationalAnswer(Ok(v, t)) => Ok(Operational(v), t)
      case AlarmsAnswer(Ok(v, t)) => Ok(Alarms(v), t)
      case InfoAnswer(Err(e, t)) => Err(e, t)
      case ConfigAnswer(Err(e, t)) => Err(e, t)
      case OperationalAnswer(Err(e, t)) => Err(e, t)
      case AlarmsAnswer(Err(e, t)) => Err(e, t)
    }
  }

  // ---- Helpers ----

  function Wait(m: Manager, d: nat): Manager {
    m.(now := m.now + d)
  }

  function Emit(m: Manager, e: JkBmsEvent): Manager {
    m.(events := m.events + [Stamped(m.now, e)])
  }

  function Note(m: Manager, mark: Mark): Manager {
    m.(marks := m.marks + [mark])
  }

  function Talked(m: Manager, talk: Talk): Manager {
    m.(talks := m.talks + [talk])
  }

  function Delay(m: Manager, c: InternalCommand, d: nat): Manager {
    m.(delayQueue := m.delayQueue + [Delayed(c, m.now + d)])
  }

  function SchedulePollingNow(m: Manager): Manager {
    if m.dataPollingScheduled then m
    else m.(dataPollingScheduled := true, internalQueue := m.internalQueue + [RunDataPolling])
  }

  function SchedulePollingDelayed(m: Manager, d: nat): Manager {
    if m.dataPollingScheduled then m
    else Delay(m.(dataPollingScheduled := true), RunDataPolling, d)
  }

  function ScheduleRetryNow(m: Manager): Manager {
    if m.retryWritesScheduled then m
    else m.(retryWritesScheduled := true, internalQueue := m.internalQueue + [RetryWrites])
  }

  function ScheduleRetryDelayed(m: Manager, d: nat): Manager {
    if m.retryWritesScheduled then m
    else Delay(m.(retryWritesScheduled := true), RetryWrites, d)
  }

  // ---- Connection lifecycle ----

  /** The schedule is indexed by attempt; attempts past its end use the cap. */
  function BackoffDelay(attempt: nat): nat
    requires attempt >= 1
  {
    if attempt - 1 < |RECONNECT_BACKOFF| then RECONNECT_BACKOFF[attempt - 1] else RECONNECT_BACKOFF_MAX
  }

  predicate ReconnectCapped(m: Manager) {
    m.reconnectAttempt > |RECONNECT_BACKOFF|
  }

  function ScheduleReconnect(m: Manager): Manager {
    var m1 := m.(reconnectAttempt := m.reconnectAttempt + 1);
    var m2 := Emit(m1, Connection(if ReconnectCapped(m1) then Disconnected else Reconnecting));
    Delay(m2, Connect, BackoffDelay(m2.reconnectAttempt))
  }

  function HandleDisconnect(m: Manager): Manager {
    if !m.transport then m
    else ScheduleReconnect(Note(m.(transport := false, consecutiveFailures := 0), Dropped))
  }

  function MarkPolled(m: Manager, d: JkBmsData): Manager {
    match d
    case Info(_) => m.(lastDeviceInfo := Some(m.now))
    case Config(_) => m.(lastConfig := Some(m.now))
    case Operational(_) => m.(lastOperational := Some(m.now))
    case Alarms(_) => m.(lastAlarms := Some(m.now))
  }

  function PollData(m: Manager, a: Polled): (Manager, Option<JkBmsError>) {
    if !m.transport then (m, Some(NotConnected))
    else
      var m1 := Talked(m, Asking(a));
      match a.Result()
      case Ok(d, took) => (MarkPolled(Emit(Wait(m1, took), Data(d)), d), None)
      case Err(e, took) => (Wait(m1, took), Some(e))
  }

  /** Device info, then config, then operational data; the first error ends it. */
  function Resync(m: Manager, a: ConnectAnswers): (Manager, Option<JkBmsError>) {
    var (m1, e1) := PollData(m, InfoAnswer(a.info));
    if e1.Some? then (m1, e1) else
    var (m2, e2) := PollData(m1, ConfigAnswer(a.config));
    if e2.Some? then (m2, e2) else
    PollData(m2, OperationalAnswer(a.operational))
  }

  function OnConnect(m: Manager, a: ConnectAnswers): Manager {
    if m.transport then m
    else if a.open.Err? then ScheduleReconnect(Wait(m, a.open.took))
    else
      var (m2, e) := Resync(OnOpened(m, a.open.took), a);
      if e.Some? then HandleDisconnect(m2) else
      OnResynced(m2)
  }

  function OnOpened(m: Manager, took: nat): Manager {
    Talked(Note(Wait(m, took).(transport := true, consecutiveFailures := 0), Opened), Opening)
  }

  /** Only a full connect and resync clears the backoff schedule. */
  function OnResynced(m: Manager): Manager {
    var m1 := Note(Emit(m.(reconnectAttempt := 0), Connection(Connected)), Established);
    var m2 := SchedulePollingNow(m1);
    if m2.pendingWrites != [] then ScheduleRetryNow(m2) else m2
  }

  // ---- Polling ----

  predicate Due(last: Option<Instant>, interval: nat, now: Instant) {
    last.None? || now - last.value >= interval
  }

  /** One soft failure; the threshold forces a synthetic disconnect. */
  function CountSoftFailure(m: Manager): Manager {
    Note(m.(consecutiveFailures := m.consecutiveFailures + 1), Soft)
  }

  function PollWithEscalation(m: Manager, a: Polled): (Manager, bool) {
    var (m1, e) := PollData(m, a);
    if e.None? then (Note(m1.(consecutiveFailures := 0), Good), true)
    else if e.value.IsHardIo() then (HandleDisconnect(Note(m1, Hard)), false)
    else
      var m2 := CountSoftFailure(m1);
      if m2.consecutiveFailures >= RECONNECT_THRESHOLD then (HandleDisconnect(m2), false) else (m2, true)
  }

  function PollIfDue(m: Manager, due: bool, a: Polled): (Manager, bool) {
    if due then PollWithEscalation(m, a) else (m, true)
  }

  function OnRunDataPolling(m: Manager, a: PollAnswers): Manager {
    var m0 := m.(dataPollingScheduled := false);
    if !m0.transport then m0 else
    var (m1, ok1) := PollIfDue(m0, Due(m0.lastDeviceInfo, DEVICE_INFO_POLL_INTERVAL, m0.now), InfoAnswer(a.info));
    if !ok1 then m1 else
    var (m2, ok2) := PollIfDue(m1, Due(m1.lastConfig, CONFIG_POLL_INTERVAL, m0.now), ConfigAnswer(a.config));
    if !ok2 then m2 else
    var due3 := Due(m2.lastOperational, OPERATIONAL_POLL_INTERVAL, m0.now);
    var (m3, ok3) := PollIfDue(m2, due3, OperationalAnswer(a.operational));
    if !ok3 then m3 else
    var (m4, ok4) := PollIfDue(m3, Due(m3.lastAlarms, ALARM_POLL_INTERVAL, m0.now), AlarmsAnswer(a.alarms));
    if !ok4 then m4 else
    SchedulePollingDelayed(m4, MIN_POLL_INTERVAL)
  }

  // ---- Writes ----

  /** The switch write, the settle time and the config readback, as one uninterrupted handler. */
  function DoWrite(m: Manager, w: PendingWrite, a: WriteAnswers): (Manager, Option<JkBmsError>) {
    if !m.transport then (m, Some(NotConnected)) else
    var m1 := Wait(Sent(m, w, a.write), a.write.took);
    if a.write.Err? then (m1, Some(a.write.error)) else
    var m2 := Talked(Wait(m1, POST_WRITE_SETTLE + a.config.took), Asking(ConfigAnswer(a.config)));
    if a.config.Err? then (m2, Some(a.config.error)) else
    (OnReadback(m2, w.seqNo, a.config.value), None)
  }

  function Sent(m: Manager, w: PendingWrite, answer: Answer<()>): Manager {
    Talked(m, Switching(w.seqNo, w.command, answer))
      .(wire := m.wire + [WireWrite(m.now, w.command, w.seqNo, w.queuedAt)])
  }

  function OnReadback(m: Manager, seqNo: nat, readback: ConfigOptions): Manager {
    Emit(Note(m.(lastConfig := Some(m.now), consecutiveFailures := 0), Good), WriteConfirmation(seqNo, readback))
  }

  function HandleWriteError(m: Manager, e: JkBmsError): Manager {
    if e.IsHardIo() then HandleDisconnect(Note(m, Hard))
    else
      var m1 := CountSoftFailure(m);
      if m1.consecutiveFailures >= RECONNECT_THRESHOLD then HandleDisconnect(m1)
      else ScheduleRetryDelayed(m1, RETRY_WRITE_SOFT_DELAY)
  }

  function OnWriteCommand(m: Manager, command: WriteCommand, seqNo: nat, a: WriteAnswers): Manager {
    var m0 := m.(received := m.received + [seqNo]);
    if !m0.transport || m0.pendingWrites != [] then
      if ReconnectCapped(m0) then Emit(m0, WriteError(seqNo, Capped))
      else if |m0.pendingWrites| >= PENDING_WRITES_CAP then Emit(m0, WriteError(seqNo, QueueFull))
      else
        var m1 := m0.(pendingWrites := m0.pendingWrites + [PendingWrite(command, seqNo, m0.now)]);
        if m1.transport then ScheduleRetryNow(m1) else m1
    else
      var (m1, e) := DoWrite(m0, PendingWrite(command, seqNo, m0.now), a);
      if e.None? then m1
      else HandleWriteError(m1.(pendingWrites := m1.pendingWrites + [PendingWrite(command, seqNo, m1.now)]), e.value)
  }

  predicate ExpiredAt(w: PendingWrite, now: Instant) {
    now - w.queuedAt > WRITE_TTL
  }

  /** Evicts expired writes from the head only, answering each with an error. */
  function EvictExpired(m: Manager): Manager
    decreases |m.pendingWrites|
  {
    if m.pendingWrites != [] && ExpiredAt(m.pendingWrites[0], m.now) then
      EvictExpired(Emit(m.(pendingWrites := m.pendingWrites[1..]), WriteError(m.pendingWrites[0].seqNo, Expired)))
    else m
  }

  lemma EvictStep(m: Manager)
    requires m.pendingWrites != [] && ExpiredAt(m.pendingWrites[0], m.now)
    ensures EvictExpired(m) ==
      EvictExpired(Emit(m.(pendingWrites := m.pendingWrites[1..]), WriteError(m.pendingWrites[0].seqNo, Expired)))
  {
  }

  lemma EvictDone(m: Manager)
    requires m.pendingWrites == [] || !ExpiredAt(m.pendingWrites[0], m.now)
    ensures EvictExpired(m) == m
  {
  }

  function OnRetryWrites(m: Manager, a: WriteAnswers): Manager {
    var m0 := m.(retryWritesScheduled := false);
    if !m0.transport then m0 else
    var m1 := EvictExpired(m0);
    if m1.pendingWrites == [] then m1 else
    var (m2, e) := DoWrite(m1, m1.pendingWrites[0], a);
    if e.Some? then HandleWriteError(m2, e.value) else
    var m3 := m2.(pendingWrites := if m2.pendingWrites == [] then [] else m2.pendingWrites[1..]);
    if m3.pendingWrites != [] then ScheduleRetryNow(m3) else m3
  }

  // ---- Runs ----

  /**
   * One turn of the actor: time passes, or one ready source is handled to completion.  `Timer`
   * names an entry of the delay queue.
   */
  datatype Input =
    | Tick(d: nat)
    | Command(command: WriteCommand, seqNo: nat, write: WriteAnswers)
    | Internal(answers: Answers)
    | Timer(index: nat, answers: Answers)

  function HandleInternal(m: Manager, c: InternalCommand, a: Answers): Manager {
    match c
    case Connect => OnConnect(m, a.connect)
    case RunDataPolling => OnRunDataPolling(m, a.poll)
    case RetryWrites => OnRetryWrites(m, a.write)
  }

  function RemoveAt<T>(s: seq<T>, i: nat): seq<T>
    requires i < |s|
  {
    s[..i] + s[i + 1..]
  }

  /** A source that is not ready is never picked, so naming one changes nothing. */
  function Step(m: Manager, input: Input): Manager {
    match input
    case Tick(d) => Wait(m, d)
    case Command(command, seqNo, write) => OnWriteCommand(m, command, seqNo, write)
    case Internal(answers) =>
      if m.internalQueue == [] then m
      else HandleInternal(m.(internalQueue := m.internalQueue[1..]), m.internalQueue[0], answers)
    case Timer(i, answers) =>
      if i < |m.delayQueue| && m.delayQueue[i].due <= m.now then
        HandleInternal(m.(delayQueue := RemoveAt(m.delayQueue, i)), m.delayQueue[i].command, answers)
      else m
  }

  function Exec(m: Manager, inputs: seq<Input>): Manager {
    if inputs == [] then m else Step(Exec(m, inputs[..|inputs| - 1]), inputs[|inputs| - 1])
  }

  /** The state after the initial connect and any inputs. */
  function Run(boot: ConnectAnswers, inputs: seq<Input>): Manager {
    Exec(OnConnect(NEW_MANAGER, boot), inputs)
  }

  // ---- What one protocol call changes ----

  lemma MarkPolledEffect(m: Manager, d: JkBmsData)
    ensures var m' := MarkPolled(m, d);
      m' == m.(lastDeviceInfo := m'.lastDeviceInfo, lastConfig := m'.lastConfig,
        lastOperational := m'.lastOperational, lastAlarms := m'.lastAlarms)
  {
  }

  /** A poll takes time, emits its data if it succeeds, and changes nothing but poll times besides. */
  lemma PollDataEffect(m: Manager, a: Polled)
    ensures var (m', e) := PollData(m, a);
      && m' == m.(now := m'.now, events := m'.events, talks := m'.talks, lastDeviceInfo := m'.lastDeviceInfo,
          lastConfig := m'.lastConfig, lastOperational := m'.lastOperational, lastAlarms := m'.lastAlarms)
      && m'.now >= m.now
      && e == (if !m.transport then Some(NotConnected) else if a.Result().Ok? then None else Some(a.Result().error))
      && m'.talks == (if m.transport then m.talks + [Asking(a)] else m.talks)
      && (e.None? ==> m'.events == m.events + [Stamped(m'.now, Data(a.Result().value))])
      && (e.Some? ==> m'.events == m.events)
  {
    hide MarkPolled;
    if m.transport && a.Result().Ok? {
      MarkPolledEffect(Emit(Wait(Talked(m, Asking(a)), a.Result().took), Data(a.Result().value)), a.Result().value);
    }
  }
}
