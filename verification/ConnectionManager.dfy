/**
 * The actor itself: the fields of src/jkbms/connection_manager.rs and one method per function,
 * each proved to do what the state machine of `ManagerSpec` says.  Answers of the opener and of
 * the protocol are parameters.
 */
module ConnectionManager {
  import opened Wrappers
  import opened JkBmsTypes
  import opened ManagerSpec

  class JkBmsConnectionManager {
    // The runtime clock, and the channel the actor emits on.
    var now: Instant
    var events: seq<Stamped>

    var transport: bool
    var reconnectAttempt: nat
    var dataPollingScheduled: bool
    var retryWritesScheduled: bool
    var consecutiveFailures: nat
    var pendingWrites: seq<PendingWrite>
    var lastDeviceInfo: Option<Instant>
    var lastConfig: Option<Instant>
    var lastOperational: Option<Instant>
    var lastAlarms: Option<Instant>
    var internalQueue: seq<InternalCommand>
    var delayQueue: seq<Delayed>

    ghost var received: seq<nat>
    ghost var wire: seq<WireWrite>
    ghost var marks: seq<Mark>
    ghost var talks: seq<Talk>

    /** The state this object stands for. */
    ghost function Model(): Manager
      reads this
    {
      Manager(now, transport, reconnectAttempt, dataPollingScheduled, retryWritesScheduled, consecutiveFailures,
        pendingWrites, lastDeviceInfo, lastConfig, lastOperational, lastAlarms, internalQueue, delayQueue, events,
        received, wire, marks, talks)
    }

    constructor ()
      ensures Model() == NEW_MANAGER
    {
      now, events := 0, [];
      transport, reconnectAttempt, dataPollingScheduled, retryWritesScheduled := false, 0, false, false;
      consecutiveFailures, pendingWrites := 0, [];
      lastDeviceInfo, lastConfig, lastOperational, lastAlarms := None, None, None, None;
      internalQueue, delayQueue := [], [];
      received, wire, marks, talks := [], [], [], [];
    }

    // ---- Channel helpers ----

    method Emit(e: JkBmsEvent)
      modifies this`events
      ensures Model() == ManagerSpec.Emit(old(Model()), e)
    {
      events := events + [Stamped(now, e)];
    }

    ghost method Record(talk: Talk)
      modifies this`talks
      ensures Model() == Talked(old(Model()), talk)
    {
      talks := talks + [talk];
    }

    ghost method Note(mark: Mark)
      modifies this`marks
      ensures Model() == ManagerSpec.Note(old(Model()), mark)
    {
      marks := marks + [mark];
    }

    method ScheduleDataPollingNow()
      modifies this`dataPollingScheduled, this`internalQueue
      ensures Model() == SchedulePollingNow(old(Model()))
    {
      if !dataPollingScheduled {
        dataPollingScheduled := true;
        internalQueue := internalQueue + [InternalCommand.RunDataPolling];
      }
    }

    method ScheduleDataPollingDelayed(delay: nat)
      modifies this`dataPollingScheduled, this`delayQueue
      ensures Model() == SchedulePollingDelayed(old(Model()), delay)
    {
      if !dataPollingScheduled {
        dataPollingScheduled := true;
        delayQueue := delayQueue + [Delayed(InternalCommand.RunDataPolling, now + delay)];
      }
    }

    method ScheduleRetryWritesNow()
      modifies this`retryWritesScheduled, this`internalQueue
      ensures Model() == ScheduleRetryNow(old(Model()))
    {
      if !retryWritesScheduled {
        retryWritesScheduled := true;
        internalQueue := internalQueue + [InternalCommand.RetryWrites];
      }
    }

    method ScheduleRetryWritesDelayed(delay: nat)
      modifies this`retryWritesScheduled, this`delayQueue
      ensures Model() == ScheduleRetryDelayed(old(Model()), delay)
    {
      if !retryWritesScheduled {
        retryWritesScheduled := true;
        delayQueue := delayQueue + [Delayed(InternalCommand.RetryWrites, now + delay)];
      }
    }

    // ---- Connection lifecycle ----

    method Connect(a: ConnectAnswers)
      modifies this
      ensures Model() == OnConnect(old(Model()), a)
    {
      hide ManagerSpec.Resync, ManagerSpec.HandleDisconnect, ManagerSpec.ScheduleReconnect, ManagerSpec.OnResynced,
        ManagerSpec.OnOpened;
      if transport {
        return;
      }
      match a.open {
        case Ok(_, _) =>
          OnOpened(a.open.took);
          var e := Resync(a);
          if e.Some? {
            HandleDisconnect(e.value);
            return;
          }
          OnResynced();
        case Err(_, _) =>
          now := now + a.open.took;
          ScheduleReconnect();
      }
    }

    /** What follows a successful open. */
    method OnOpened(took: nat)
      modifies this`now, this`transport, this`consecutiveFailures, this`marks, this`talks
      ensures Model() == ManagerSpec.OnOpened(old(Model()), took)
    {
      now, transport, consecutiveFailures := now + took, true, 0;
      Note(Opened);
      Record(Opening);
    }

    /** What follows a full resync. */
    method OnResynced()
      modifies this`reconnectAttempt, this`events, this`marks, this`dataPollingScheduled,
        this`retryWritesScheduled, this`internalQueue
      ensures Model() == ManagerSpec.OnResynced(old(Model()))
    {
      reconnectAttempt := 0;
      Emit(Connection(Connected));
      Note(Established);
      ScheduleDataPollingNow();
      if pendingWrites != [] {
        ScheduleRetryWritesNow();
      }
    }

    method Resync(a: ConnectAnswers) returns (e: Option<JkBmsError>)
      modifies this
      ensures (Model(), e) == ManagerSpec.Resync(old(Model()), a)
    {
      hide ManagerSpec.PollData;
      e := PollData(InfoAnswer(a.info));
      if e.Some? {
        return;
      }
      e := PollData(ConfigAnswer(a.config));
      if e.Some? {
        return;
      }
      e := PollData(OperationalAnswer(a.operational));
    }

    method HandleDisconnect(e: JkBmsError)
      modifies this
      ensures Model() == ManagerSpec.HandleDisconnect(old(Model()))
    {
      hide ManagerSpec.ScheduleReconnect;
      if !transport {
        return;
      }
      transport, consecutiveFailures := false, 0;
      Note(Dropped);
      ScheduleReconnect();
    }

    method ScheduleReconnect()
      modifies this`reconnectAttempt, this`events, this`delayQueue
      ensures Model() == ManagerSpec.ScheduleReconnect(old(Model()))
    {
      reconnectAttempt := reconnectAttempt + 1;
      if reconnectAttempt > |RECONNECT_BACKOFF| {
        Emit(Connection(Disconnected));
      } else {
        Emit(Connection(Reconnecting));
      }
      var delay := if reconnectAttempt - 1 < |RECONNECT_BACKOFF| then RECONNECT_BACKOFF[reconnectAttempt - 1]
        else RECONNECT_BACKOFF_MAX;
      delayQueue := delayQueue + [Delayed(InternalCommand.Connect, now + delay)];
    }

    // ---- Polling ----

    method RunDataPolling(a: PollAnswers)
      modifies this
      ensures Model() == OnRunDataPolling(old(Model()), a)
    {
      hide ManagerSpec.PollWithEscalation;
      dataPollingScheduled := false;
      if !transport {
        return;
      }
      var start := now;
      var ok := true;
      if Due(lastDeviceInfo, DEVICE_INFO_POLL_INTERVAL, start) {
        ok := PollWithEscalation(InfoAnswer(a.info));
        if !ok {
          return;
        }
      }
      if Due(lastConfig, CONFIG_POLL_INTERVAL, start) {
        ok := PollWithEscalation(ConfigAnswer(a.config));
        if !ok {
          return;
        }
      }
      if Due(lastOperational, OPERATIONAL_POLL_INTERVAL, start) {
        ok := PollWithEscalation(OperationalAnswer(a.operational));
        if !ok {
          return;
        }
      }
      if Due(lastAlarms, ALARM_POLL_INTERVAL, start) {
        ok := PollWithEscalation(AlarmsAnswer(a.alarms));
        if !ok {
          return;
        }
      }
      ScheduleDataPollingDelayed(MIN_POLL_INTERVAL);
    }

    method PollWithEscalation(a: Polled) returns (ok: bool)
      modifies this
      ensures (Model(), ok) == ManagerSpec.PollWithEscalation(old(Model()), a)
    {
      hide ManagerSpec.PollData, ManagerSpec.HandleDisconnect;
      var e := PollData(a);
      match e {
        case None =>
          consecutiveFailures := 0;
          Note(Good);
          return true;
        case Some(error) =>
          if error.IsHardIo() {
            Note(Hard);
            HandleDisconnect(error);
            return false;
          }
          consecutiveFailures := consecutiveFailures + 1;
          Note(Soft);
          if consecutiveFailures >= RECONNECT_THRESHOLD {
            HandleDisconnect(NotConnected);
            return false;
          }
          return true;
      }
    }

    method PollData(a: Polled) returns (e: Option<JkBmsError>)
      modifies this`now, this`events, this`talks, this`lastDeviceInfo, this`lastConfig, this`lastOperational,
        this`lastAlarms
      ensures (Model(), e) == ManagerSpec.PollData(old(Model()), a)
    {
      hide ManagerSpec.MarkPolled;
      if !transport {
        return Some(NotConnected);
      }
      Record(Asking(a));
      var answer := a.Result();
      now := now + answer.took;
      match answer {
        case Err(error, _) =>
          return Some(error);
        case Ok(value, _) =>
          Emit(Data(value));
          MarkPolled(value);
          return None;
      }
    }

    method MarkPolled(d: JkBmsData)
      modifies this`lastDeviceInfo, this`lastConfig, this`lastOperational, this`lastAlarms
      ensures Model() == ManagerSpec.MarkPolled(old(Model()), d)
    {
      match d {
        case Info(_) => lastDeviceInfo := Some(now);
        case Config(_) => lastConfig := Some(now);
        case Operational(_) => lastOperational := Some(now);
        case Alarms(_) => lastAlarms := Some(now);
      }
    }

    // ---- Writes ----

    method WriteCommand(command: WriteCommand, seqNo: nat, a: WriteAnswers)
      modifies this
      ensures Model() == OnWriteCommand(old(Model()), command, seqNo, a)
    {
      hide ManagerSpec.DoWrite, ManagerSpec.HandleWriteError;
      received := received + [seqNo];
      if !transport || pendingWrites != [] {
        if reconnectAttempt > |RECONNECT_BACKOFF| {
          Emit(WriteError(seqNo, Capped));
          return;
        }
        if |pendingWrites| >= PENDING_WRITES_CAP {
          Emit(WriteError(seqNo, QueueFull));
          return;
        }
        pendingWrites := pendingWrites + [PendingWrite(command, seqNo, now)];
        if transport {
          ScheduleRetryWritesNow();
        }
        return;
      }
      var e := DoWrite(PendingWrite(command, seqNo, now), a);
      if e.Some? {
        pendingWrites := pendingWrites + [PendingWrite(command, seqNo, now)];
        HandleWriteError(e.value);
      }
    }

    method RetryWrites(a: WriteAnswers)
      modifies this
      ensures Model() == OnRetryWrites(old(Model()), a)
    {
      hide ManagerSpec.DoWrite, ManagerSpec.HandleWriteError;
      retryWritesScheduled := false;
      if !transport {
        return;
      }
      EvictHead();
      if pendingWrites == [] {
        return;
      }
      var e := DoWrite(pendingWrites[0], a);
      match e {
        case None =>
          if pendingWrites != [] {
            pendingWrites := pendingWrites[1..];
          }
          if pendingWrites != [] {
            ScheduleRetryWritesNow();
          }
        case Some(error) =>
          HandleWriteError(error);
      }
    }

    /** The eviction loop at the top of the retry handler. */
    method EvictHead()
      modifies this`pendingWrites, this`events
      ensures Model() == EvictExpired(old(Model()))
    {
      while pendingWrites != []
        invariant EvictExpired(Model()) == EvictExpired(old(Model()))
        decreases |pendingWrites|
      {
        var head := pendingWrites[0];
        if now - head.queuedAt > WRITE_TTL {
          pendingWrites := pendingWrites[1..];
          Emit(WriteError(head.seqNo, Expired));
        } else {
          break;
        }
      }
    }

    method DoWrite(w: PendingWrite, a: WriteAnswers) returns (e: Option<JkBmsError>)
      modifies this
      ensures (Model(), e) == ManagerSpec.DoWrite(old(Model()), w, a)
    {
      hide ManagerSpec.OnReadback, Sent, Talked;
      if !transport {
        return Some(NotConnected);
      }
      Send(w, a.write);
      now := now + a.write.took;
      if a.write.Err? {
        return Some(a.write.error);
      }
      now := now + POST_WRITE_SETTLE + a.config.took;
      Record(Asking(ConfigAnswer(a.config)));
      if a.config.Err? {
        return Some(a.config.error);
      }
      OnReadback(w.seqNo, a.config.value);
      return None;
    }

    ghost method Send(w: PendingWrite, answer: Answer<()>)
      modifies this`wire, this`talks
      ensures Model() == Sent(old(Model()), w, answer)
    {
      Record(Switching(w.seqNo, w.command, answer));
      wire := wire + [WireWrite(now, w.command, w.seqNo, w.queuedAt)];
    }

    /** What follows a successful readback. */
    method OnReadback(seqNo: nat, readback: ConfigOptions)
      modifies this`lastConfig, this`consecutiveFailures, this`marks, this`events
      ensures Model() == ManagerSpec.OnReadback(old(Model()), seqNo, readback)
    {
      lastConfig := Some(now);
      consecutiveFailures := 0;
      Note(Good);
      Emit(WriteConfirmation(seqNo, readback));
    }

    method HandleWriteError(e: JkBmsError)
      modifies this
      ensures Model() == ManagerSpec.HandleWriteError(old(Model()), e)
    {
      hide ManagerSpec.HandleDisconnect;
      if e.IsHardIo() {
        Note(Hard);
        HandleDisconnect(e);
        return;
      }
      consecutiveFailures := consecutiveFailures + 1;
      Note(Soft);
      if consecutiveFailures >= RECONNECT_THRESHOLD {
        HandleDisconnect(NotConnected);
      } else {
        ScheduleRetryWritesDelayed(RETRY_WRITE_SOFT_DELAY);
      }
    }

    // ---- The run loop ----

    method HandleInternal(c: InternalCommand, a: Answers)
      modifies this
      ensures Model() == ManagerSpec.HandleInternal(old(Model()), c, a)
    {
      hide OnConnect, OnRunDataPolling, OnRetryWrites;
      match c {
        case Connect => Connect(a.connect);
        case RunDataPolling => RunDataPolling(a.poll);
        case RetryWrites => RetryWrites(a.write);
      }
    }

    /** One turn of the `select!` loop; a source that is not ready is not picked. */
    method Turn(input: Input)
      modifies this
      ensures Model() == Step(old(Model()), input)
    {
      hide OnWriteCommand, ManagerSpec.HandleInternal;
      match input {
        case Tick(d) =>
          now := now + d;
        case Command(command, seqNo, write) =>
          WriteCommand(command, seqNo, write);
        case Internal(answers) =>
          if internalQueue != [] {
            var c := internalQueue[0];
            internalQueue := internalQueue[1..];
            HandleInternal(c, answers);
          }
        case Timer(i, answers) =>
          if i < |delayQueue| && delayQueue[i].due <= now {
            var c := delayQueue[i].command;
            delayQueue := RemoveAt(delayQueue, i);
            HandleInternal(c, answers);
          }
      }
    }

    /** The initial connect, then turn after turn. */
    method RunLoop(boot: ConnectAnswers, inputs: seq<Input>)
      modifies this
      ensures Model() == Exec(OnConnect(old(Model()), boot), inputs)
    {
      hide OnConnect, Step;
      Connect(boot);
      for i := 0 to |inputs|
        invariant Model() == Exec(OnConnect(old(Model()), boot), inputs[..i])
      {
        assert inputs[..i + 1][..i] == inputs[..i];
        Turn(inputs[i]);
      }
      assert inputs[..|inputs|] == inputs;
    }
  }
}
