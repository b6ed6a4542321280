/**
 * What a polling turn asks for.  When something was last heard of is read off the emitted events, so
 * what is due does not depend on the fields the manager keeps.
 */
module ManagerPolls {
  import opened Wrappers
  import opened JkBmsTypes
  import opened ManagerSpec

  datatype Kind = DeviceInfos | Configs | Operationals | AlarmWords

  function KindOf(p: Polled): Kind {
    match p
    case InfoAnswer(_) => DeviceInfos
    case ConfigAnswer(_) => Configs
    case OperationalAnswer(_) => Operationals
    case AlarmsAnswer(_) => AlarmWords
  }

  /** The configuration is also heard of in the readback of a write. */
  predicate Tells(e: JkBmsEvent, k: Kind) {
    match e
    case Data(Info(_)) => k == DeviceInfos
    case Data(Config(_)) => k == Configs
    case Data(Operational(_)) => k == Operationals
    case Data(Alarms(_)) => k == AlarmWords
    case WriteConfirmation(_, _) => k == Configs
    case _ => false
  }

  function LastAt(ev: seq<Stamped>, k: Kind): Option<Instant> {
    if ev == [] then None
    else if Tells(ev[|ev| - 1].event, k) then Some(ev[|ev| - 1].at)
    else LastAt(ev[..|ev| - 1], k)
  }

  function Interval(k: Kind): nat {
    match k
    case DeviceInfos => 30 * SECOND
    case Configs => 20 * SECOND
    case Operationals => 5 * SECOND
    case AlarmWords => 5 * SECOND
  }

  /** Never heard of, or not for its whole interval. */
  predicate IsDue(ev: seq<Stamped>, k: Kind, now: Instant) {
    LastAt(ev, k).None? || now >= LastAt(ev, k).value + Interval(k)
  }

  function IfDue(ev: seq<Stamped>, k: Kind, now: Instant): seq<Kind> {
    if IsDue(ev, k, now) then [k] else []
  }

  /** Everything that is due, in the order in which it is asked for. */
  function DueKinds(ev: seq<Stamped>, now: Instant): seq<Kind> {
    IfDue(ev, DeviceInfos, now) + IfDue(ev, Configs, now) + IfDue(ev, Operationals, now) + IfDue(ev, AlarmWords, now)
  }

  function KindsOf(asked: seq<Polled>): seq<Kind> {
    seq(|asked|, i requires 0 <= i < |asked| => KindOf(asked[i]))
  }

  function Asks(asked: seq<Polled>): seq<Talk> {
    seq(|asked|, i requires 0 <= i < |asked| => Asking(asked[i]))
  }

  // ---- The manager's fields are these times ----

  function Field(m: Manager, k: Kind): Option<Instant> {
    match k
    case DeviceInfos => m.lastDeviceInfo
    case Configs => m.lastConfig
    case Operationals => m.lastOperational
    case AlarmWords => m.lastAlarms
  }

  ghost predicate PollTimes(m: Manager) {
    forall k :: Field(m, k) == LastAt(m.events, k)
  }

  /** Nothing was heard of on the way from `m` to `m'`. */
  ghost predicate Unheard(m: Manager, m': Manager) {
    forall k :: Field(m', k) == Field(m, k) && LastAt(m'.events, k) == LastAt(m.events, k)
  }

  lemma UnheardKeeps(m: Manager, m': Manager)
    requires PollTimes(m) && Unheard(m, m')
    ensures PollTimes(m')
  {
  }

  lemma LastAtAppend(ev: seq<Stamped>, e: Stamped, k: Kind)
    ensures LastAt(ev + [e], k) == if Tells(e.event, k) then Some(e.at) else LastAt(ev, k)
  {
  }

  lemma EmitUnheard(m: Manager, e: JkBmsEvent)
    requires e.Connection? || e.WriteError?
    ensures Unheard(m, Emit(m, e))
  {
    hide LastAt;
    forall k ensures LastAt(Emit(m, e).events, k) == LastAt(m.events, k) {
      LastAtAppend(m.events, Stamped(m.now, e), k);
    }
  }

  lemma DropUnheard(m: Manager)
    ensures Unheard(m, ScheduleReconnect(m)) && Unheard(m, HandleDisconnect(m))
  {
    hide LastAt;
    var m1 := m.(reconnectAttempt := m.reconnectAttempt + 1);
    EmitUnheard(m1, Connection(Disconnected));
    EmitUnheard(m1, Connection(Reconnecting));
    var m2 := Note(m.(transport := false, consecutiveFailures := 0), Dropped);
    var m3 := m2.(reconnectAttempt := m2.reconnectAttempt + 1);
    EmitUnheard(m3, Connection(Disconnected));
    EmitUnheard(m3, Connection(Reconnecting));
  }

  function Heard(ev: seq<Stamped>, a: Polled, at: Instant, k: Kind): Option<Instant> {
    if k == KindOf(a) && a.Result().Ok? then Some(at) else LastAt(ev, k)
  }

  /** One poll of an open link is heard of exactly if it succeeds. */
  lemma PollDataTimes(m: Manager, a: Polled)
    requires PollTimes(m) && m.transport
    ensures var m' := PollData(m, a).0;
      && PollTimes(m') && m'.now >= m.now
      && (forall k :: LastAt(m'.events, k) == Heard(m.events, a, m'.now, k))
  {
    hide LastAt;
    var m' := PollData(m, a).0;
    PollDataEffect(m, a);
    forall k ensures LastAt(m'.events, k) == Heard(m.events, a, m'.now, k) {
      if a.Result().Ok? {
        LastAtAppend(m.events, Stamped(m'.now, Data(a.Result().value)), k);
      }
    }
  }

  // ---- One polling turn ----

  /** One part of a polling turn. */
  lemma TurnTimes(m: Manager, due: bool, a: Polled)
    requires PollTimes(m) && m.transport
    ensures var (m', ok) := PollIfDue(m, due, a);
      && PollTimes(m') && m'.now >= m.now && ok == m'.transport && m'.dataPollingScheduled == m.dataPollingScheduled
      && m'.talks == (if due then m.talks + [Asking(a)] else m.talks)
      && (forall k | k != KindOf(a) || !due :: LastAt(m'.events, k) == LastAt(m.events, k))
      && (due && a.Result().Ok? ==> LastAt(m'.events, KindOf(a)).Some? && LastAt(m'.events, KindOf(a)).value >= m.now)
      && (due && a.Result().Err? ==> LastAt(m'.events, KindOf(a)) == LastAt(m.events, KindOf(a)))
  {
    hide PollData, HandleDisconnect, LastAt;
    if due {
      PollDataTimes(m, a);
      PollDataEffect(m, a);
      var (m1, e) := PollData(m, a);
      UnheardKeeps(m1, Note(m1, Hard));
      DropUnheard(Note(m1, Hard));
      DropEffect(Note(m1, Hard));
      DropUnheard(CountSoftFailure(m1));
      DropEffect(CountSoftFailure(m1));
    }
  }

  lemma DropEffect(m: Manager)
    requires m.transport
    ensures var m' := HandleDisconnect(m);
      && !m'.transport && m'.talks == m.talks && m'.now == m.now && m'.dataPollingScheduled == m.dataPollingScheduled
  {
  }

  /** Kind `k` was asked for, and failed. */
  predicate AskedInVain(asked: seq<Polled>, k: Kind) {
    exists i | 0 <= i < |asked| :: KindOf(asked[i]) == k && asked[i].Result().Err?
  }

  /** What a polling turn that starts with the link up asks for, and leaves. */
  ghost predicate AsksWhatIsDue(m: Manager, m': Manager, asked: seq<Polled>) {
    && m'.talks == m.talks + Asks(asked)
    && KindsOf(asked) <= DueKinds(m.events, m.now)
    && (m'.transport ==>
      && KindsOf(asked) == DueKinds(m.events, m.now)
      && (forall k :: AskedInVain(asked, k) || !IsDue(m'.events, k, m.now))
      && m'.delayQueue != [] && m'.delayQueue[|m'.delayQueue| - 1] == Delayed(RunDataPolling, m'.now + 5 * SECOND))
  }

  /** How far a turn has come: what it asked for so far, and what it left fresh. */
  ghost predicate SoFar(m: Manager, m1: Manager, asked: seq<Polled>, done: seq<Kind>, kinds: seq<Kind>) {
    && PollTimes(m1) && m1.now >= m.now && m1.dataPollingScheduled == false
    && m1.talks == m.talks + Asks(asked) && KindsOf(asked) == kinds
    && (forall k | k !in done :: LastAt(m1.events, k) == LastAt(m.events, k))
    && (m1.transport ==> forall k | k in done :: AskedInVain(asked, k) || !IsDue(m1.events, k, m.now))
  }

  lemma OnePart(m: Manager, m1: Manager, asked: seq<Polled>, done: seq<Kind>, kinds: seq<Kind>, due: bool, a: Polled)
    returns (asked': seq<Polled>)
    requires SoFar(m, m1, asked, done, kinds) && m1.transport && KindOf(a) !in done
    requires due == IsDue(m.events, KindOf(a), m.now)
    ensures var (m2, ok) := PollIfDue(m1, due, a);
      && SoFar(m, m2, asked', done + [KindOf(a)], kinds + IfDue(m.events, KindOf(a), m.now)) && ok == m2.transport
  {
    hide LastAt, PollIfDue, PollTimes;
    TurnTimes(m1, due, a);
    var m2 := PollIfDue(m1, due, a).0;
    if due {
      asked' := asked + [a];
      assert Asks(asked') == Asks(asked) + [Asking(a)];
      assert KindsOf(asked') == KindsOf(asked) + [KindOf(a)];
      assert asked'[|asked|] == a;
      forall k | m2.transport && k in done + [KindOf(a)]
        ensures AskedInVain(asked', k) || !IsDue(m2.events, k, m.now)
      {
        if k in done && AskedInVain(asked, k) {
          var i :| 0 <= i < |asked| && KindOf(asked[i]) == k && asked[i].Result().Err?;
          assert asked'[i] == asked[i];
        }
      }
    } else {
      asked' := asked;
      assert kinds + [] == kinds;
    }
  }

  /** `SoFar` when a turn stops because the link dropped. */
  lemma StoppedShort(m: Manager, m1: Manager, asked: seq<Polled>, done: seq<Kind>, kinds: seq<Kind>)
    requires SoFar(m, m1, asked, done, kinds) && !m1.transport && kinds <= DueKinds(m.events, m.now)
    ensures AsksWhatIsDue(m, m1, asked)
  {
  }

  /** The second half of a polling turn. */
  function SecondHalf(m2: Manager, now: Instant, a: PollAnswers): Manager {
    var d3 := Due(m2.lastOperational, OPERATIONAL_POLL_INTERVAL, now);
    var (m3, ok3) := PollIfDue(m2, d3, OperationalAnswer(a.operational));
    if !ok3 then m3 else
    var d4 := Due(m3.lastAlarms, ALARM_POLL_INTERVAL, now);
    var (m4, ok4) := PollIfDue(m3, d4, AlarmsAnswer(a.alarms));
    if !ok4 then m4 else SchedulePollingDelayed(m4, MIN_POLL_INTERVAL)
  }

  function Early(ev: seq<Stamped>, now: Instant): seq<Kind> {
    IfDue(ev, DeviceInfos, now) + IfDue(ev, Configs, now)
  }

  lemma LateTurn(m: Manager, m2: Manager, a: PollAnswers, early: seq<Polled>) returns (asked: seq<Polled>)
    requires SoFar(m, m2, early, [DeviceInfos, Configs], Early(m.events, m.now)) && m2.transport
    ensures AsksWhatIsDue(m, SecondHalf(m2, m.now, a), asked)
  {
    hide PollIfDue, IfDue, IsDue, SoFar, AsksWhatIsDue;
    var ev, now := m.events, m.now;
    var s2, k2 := [DeviceInfos, Configs], Early(ev, now);
    FieldsAreDue(m, m2, early, s2, k2);
    var d3 := Due(m2.lastOperational, OPERATIONAL_POLL_INTERVAL, now);
    var (m3, ok3) := PollIfDue(m2, d3, OperationalAnswer(a.operational));
    asked := OnePart(m, m2, early, s2, k2, d3, OperationalAnswer(a.operational));
    var k3 := k2 + IfDue(ev, Operationals, now);
    var s3 := s2 + [Operationals];
    if !ok3 { StoppedShort(m, m3, asked, s3, k3); return; }
    FieldsAreDue(m, m3, asked, s3, k3);
    var d4 := Due(m3.lastAlarms, ALARM_POLL_INTERVAL, now);
    var (m4, ok4) := PollIfDue(m3, d4, AlarmsAnswer(a.alarms));
    asked := OnePart(m, m3, asked, s3, k3, d4, AlarmsAnswer(a.alarms));
    var k4 := k3 + IfDue(ev, AlarmWords, now);
    assert k4 == DueKinds(ev, now);
    if !ok4 { StoppedShort(m, m4, asked, s3 + [AlarmWords], k4); return; }
    Finished(m, m4, asked, s3 + [AlarmWords], k4);
  }

  lemma PollingTurn(m: Manager, a: PollAnswers) returns (asked: seq<Polled>)
    requires PollTimes(m) && m.transport
    ensures AsksWhatIsDue(m, OnRunDataPolling(m, a), asked)
  {
    hide PollIfDue, IfDue, IsDue, SoFar, AsksWhatIsDue;
    var m0 := m.(dataPollingScheduled := false);
    var ev, now := m.events, m.now;
    asked := [];
    Begins(m);
    FieldsAreDue(m, m0, asked, [], []);
    var d1 := Due(m0.lastDeviceInfo, DEVICE_INFO_POLL_INTERVAL, now);
    var (m1, ok1) := PollIfDue(m0, d1, InfoAnswer(a.info));
    asked := OnePart(m, m0, asked, [], [], d1, InfoAnswer(a.info));
    var k1 := [] + IfDue(ev, DeviceInfos, now);
    var s1 := [] + [DeviceInfos];
    if !ok1 { StoppedShort(m, m1, asked, s1, k1); return; }
    FieldsAreDue(m, m1, asked, s1, k1);
    var d2 := Due(m1.lastConfig, CONFIG_POLL_INTERVAL, now);
    var (m2, ok2) := PollIfDue(m1, d2, ConfigAnswer(a.config));
    asked := OnePart(m, m1, asked, s1, k1, d2, ConfigAnswer(a.config));
    var k2 := k1 + IfDue(ev, Configs, now);
    var s2 := s1 + [Configs];
    if !ok2 { StoppedShort(m, m2, asked, s2, k2); return; }
    assert k2 == Early(ev, now) && s2 == [DeviceInfos, Configs];
    TwoHalves(m, m2, a);
    asked := LateTurn(m, m2, a, asked);
  }

  lemma TwoHalves(m: Manager, m2: Manager, a: PollAnswers)
    requires m.transport
    requires
      var m0 := m.(dataPollingScheduled := false);
      var (m1, ok1) := PollIfDue(m0, Due(m0.lastDeviceInfo, DEVICE_INFO_POLL_INTERVAL, m.now), InfoAnswer(a.info));
      ok1 && PollIfDue(m1, Due(m1.lastConfig, CONFIG_POLL_INTERVAL, m.now), ConfigAnswer(a.config)) == (m2, true)
    ensures OnRunDataPolling(m, a) == SecondHalf(m2, m.now, a)
  {
    hide PollIfDue, Due, SchedulePollingDelayed;
  }

  lemma Begins(m: Manager)
    requires PollTimes(m)
    ensures SoFar(m, m.(dataPollingScheduled := false), [], [], [])
  {
    assert m.talks + Asks([]) == m.talks;
  }

  /** What the code reads off its fields is what is due by the events, for kinds not yet asked for. */
  lemma FieldsAreDue(m: Manager, m1: Manager, asked: seq<Polled>, done: seq<Kind>, kinds: seq<Kind>)
    requires SoFar(m, m1, asked, done, kinds)
    ensures forall k | k !in done :: Due(Field(m1, k), Interval(k), m.now) == IsDue(m.events, k, m.now)
  {
    hide LastAt;
  }

  lemma Finished(m: Manager, m4: Manager, asked: seq<Polled>, done: seq<Kind>, kinds: seq<Kind>)
    requires SoFar(m, m4, asked, done, kinds) && m4.transport && kinds == DueKinds(m.events, m.now)
    requires forall k :: k in done
    ensures AsksWhatIsDue(m, SchedulePollingDelayed(m4, MIN_POLL_INTERVAL), asked)
  {
    hide LastAt, DueKinds;
  }

  // ---- Every handler keeps the times ----

  lemma ResyncTimes(m: Manager, a: ConnectAnswers)
    requires PollTimes(m) && m.transport
    ensures PollTimes(Resync(m, a).0)
  {
    hide PollData, PollTimes;
    var (m1, e1) := PollData(m, InfoAnswer(a.info));
    PollDataTimes(m, InfoAnswer(a.info));
    PollDataEffect(m, InfoAnswer(a.info));
    var (m2, e2) := PollData(m1, ConfigAnswer(a.config));
    PollDataTimes(m1, ConfigAnswer(a.config));
    PollDataEffect(m1, ConfigAnswer(a.config));
    PollDataTimes(m2, OperationalAnswer(a.operational));
  }

  lemma ConnectTimes(m: Manager, a: ConnectAnswers)
    requires PollTimes(m) && !m.transport
    ensures PollTimes(OnConnect(m, a))
  {
    hide Resync, HandleDisconnect, ScheduleReconnect, LastAt;
    if a.open.Err? {
      DropUnheard(Wait(m, a.open.took));
    } else {
      var m1 := OnOpened(m, a.open.took);
      ResyncTimes(m1, a);
      var m2 := Resync(m1, a).0;
      DropUnheard(m2);
      EmitUnheard(m2.(reconnectAttempt := 0), Connection(Connected));
    }
  }

  lemma DoWriteTimes(m: Manager, w: PendingWrite, a: WriteAnswers)
    requires PollTimes(m) && m.transport
    ensures PollTimes(DoWrite(m, w, a).0)
  {
    hide LastAt;
    var (m', e) := DoWrite(m, w, a);
    if e.None? {
      forall k ensures Field(m', k) == LastAt(m'.events, k) {
        LastAtAppend(m.events, Stamped(m'.now, WriteConfirmation(w.seqNo, a.config.value)), k);
      }
    }
  }

  lemma WriteErrorTimes(m: Manager, e: JkBmsError)
    requires PollTimes(m)
    ensures PollTimes(HandleWriteError(m, e))
  {
    hide HandleDisconnect, LastAt;
    DropUnheard(Note(m, Hard));
    DropUnheard(CountSoftFailure(m));
  }

  lemma CommandTimes(m: Manager, command: WriteCommand, n: nat, a: WriteAnswers)
    requires PollTimes(m)
    ensures PollTimes(OnWriteCommand(m, command, n, a))
  {
    hide DoWrite, HandleWriteError, LastAt;
    var m0 := m.(received := m.received + [n]);
    EmitUnheard(m0, WriteError(n, Capped));
    EmitUnheard(m0, WriteError(n, QueueFull));
    if m.transport && m.pendingWrites == [] {
      var w := PendingWrite(command, n, m.now);
      DoWriteTimes(m0, w, a);
      var (m1, e) := DoWrite(m0, w, a);
      if e.Some? {
        WriteErrorTimes(m1.(pendingWrites := m1.pendingWrites + [PendingWrite(command, n, m1.now)]), e.value);
      }
    }
  }

  lemma {:induction false} EvictTimes(m: Manager)
    requires PollTimes(m)
    ensures PollTimes(EvictExpired(m)) && EvictExpired(m).transport == m.transport
    decreases |m.pendingWrites|
  {
    hide LastAt, EvictExpired;
    if m.pendingWrites != [] && ExpiredAt(m.pendingWrites[0], m.now) {
      EvictStep(m);
      var rest := m.(pendingWrites := m.pendingWrites[1..]);
      EmitUnheard(rest, WriteError(m.pendingWrites[0].seqNo, Expired));
      EvictTimes(Emit(rest, WriteError(m.pendingWrites[0].seqNo, Expired)));
    } else {
      EvictDone(m);
    }
  }

  lemma RetryTimes(m: Manager, a: WriteAnswers)
    requires PollTimes(m)
    ensures PollTimes(OnRetryWrites(m, a))
  {
    hide DoWrite, HandleWriteError, EvictExpired, LastAt;
    var m0 := m.(retryWritesScheduled := false);
    if m.transport {
      EvictTimes(m0);
      var m1 := EvictExpired(m0);
      if m1.pendingWrites != [] {
        DoWriteTimes(m1, m1.pendingWrites[0], a);
        var (m2, e) := DoWrite(m1, m1.pendingWrites[0], a);
        if e.Some? {
          WriteErrorTimes(m2, e.value);
        }
      }
    }
  }

  lemma SilentTurn(m: Manager, a: PollAnswers)
    requires !m.transport
    ensures OnRunDataPolling(m, a) == m.(dataPollingScheduled := false)
  {
  }

  lemma PollingTimes(m: Manager, a: PollAnswers)
    requires PollTimes(m)
    ensures PollTimes(OnRunDataPolling(m, a))
  {
    hide PollIfDue, PollTimes;
    var m0 := m.(dataPollingScheduled := false);
    SameTimes(m, m0);
    if m.transport {
      var d1 := Due(m0.lastDeviceInfo, DEVICE_INFO_POLL_INTERVAL, m0.now);
      var (m1, ok1) := PollIfDue(m0, d1, InfoAnswer(a.info));
      TurnTimes(m0, d1, InfoAnswer(a.info));
      if !ok1 { return; }
      var d2 := Due(m1.lastConfig, CONFIG_POLL_INTERVAL, m0.now);
      var (m2, ok2) := PollIfDue(m1, d2, ConfigAnswer(a.config));
      TurnTimes(m1, d2, ConfigAnswer(a.config));
      if !ok2 { return; }
      var d3 := Due(m2.lastOperational, OPERATIONAL_POLL_INTERVAL, m0.now);
      var (m3, ok3) := PollIfDue(m2, d3, OperationalAnswer(a.operational));
      TurnTimes(m2, d3, OperationalAnswer(a.operational));
      if !ok3 { return; }
      var d4 := Due(m3.lastAlarms, ALARM_POLL_INTERVAL, m0.now);
      var (m4, ok4) := PollIfDue(m3, d4, AlarmsAnswer(a.alarms));
      TurnTimes(m3, d4, AlarmsAnswer(a.alarms));
      if !ok4 { return; }
      SameTimes(m4, SchedulePollingDelayed(m4, MIN_POLL_INTERVAL));
    }
  }

  lemma SameTimes(m: Manager, m': Manager)
    requires m'.events == m.events && m'.lastDeviceInfo == m.lastDeviceInfo && m'.lastConfig == m.lastConfig
    requires m'.lastOperational == m.lastOperational && m'.lastAlarms == m.lastAlarms
    ensures PollTimes(m') <==> PollTimes(m)
  {
    assert forall k :: Field(m', k) == Field(m, k);
  }

  lemma InternalTimes(m: Manager, c: InternalCommand, a: Answers)
    requires PollTimes(m)
    ensures PollTimes(HandleInternal(m, c, a))
  {
    hide OnConnect, OnRunDataPolling, OnRetryWrites, PollTimes;
    match c
    case Connect =>
      if m.transport {
        NoSecondConnect(m, a.connect);
      } else {
        ConnectTimes(m, a.connect);
      }
    case RunDataPolling => PollingTimes(m, a.poll);
    case RetryWrites => RetryTimes(m, a.write);
  }

  lemma NoSecondConnect(m: Manager, a: ConnectAnswers)
    requires m.transport
    ensures OnConnect(m, a) == m
  {
  }

  lemma StepTimes(m: Manager, input: Input)
    requires PollTimes(m)
    ensures PollTimes(Step(m, input))
  {
    hide OnWriteCommand, HandleInternal, PollTimes;
    match input
    case Tick(d) => SameTimes(m, Wait(m, d));
    case Command(command, n, write) => CommandTimes(m, command, n, write);
    case Internal(answers) =>
      if m.internalQueue != [] {
        var popped := m.(internalQueue := m.internalQueue[1..]);
        SameTimes(m, popped);
        InternalTimes(popped, m.internalQueue[0], answers);
      }
    case Timer(i, answers) =>
      if i < |m.delayQueue| && m.delayQueue[i].due <= m.now {
        var popped := m.(delayQueue := RemoveAt(m.delayQueue, i));
        SameTimes(m, popped);
        InternalTimes(popped, m.delayQueue[i].command, answers);
      }
  }

  lemma {:induction false} RunTimes(boot: ConnectAnswers, inputs: seq<Input>)
    ensures PollTimes(Run(boot, inputs))
    decreases |inputs|
  {
    hide OnConnect, Step, PollTimes;
    if inputs == [] {
      FreshTimes(NEW_MANAGER);
      ConnectTimes(NEW_MANAGER, boot);
    } else {
      RunTimes(boot, inputs[..|inputs| - 1]);
      StepTimes(Run(boot, inputs[..|inputs| - 1]), inputs[|inputs| - 1]);
    }
  }

  lemma FreshTimes(m: Manager)
    requires m.events == [] && m.lastDeviceInfo == None && m.lastConfig == None
    requires m.lastOperational == None && m.lastAlarms == None
    ensures PollTimes(m)
  {
  }

  // ---- Turns of a run ----

  /** The turn that handles `c`, waiting or at its deadline. */
  predicate Handles(m: Manager, input: Input, c: InternalCommand) {
    match input
    case Internal(_) => m.internalQueue != [] && m.internalQueue[0] == c
    case Timer(i, _) => i < |m.delayQueue| && m.delayQueue[i].due <= m.now && m.delayQueue[i].command == c
    case _ => false
  }

  /**
   * In any run, a polling turn that finds the link up asks, in this order, for exactly what is due of
   * device info (30 s), configuration (20 s), operational data (5 s) and alarms (5 s), stopping short
   * only if the link drops.  If it does not drop, nothing is left that was due and did not fail, and
   * the next turn waits for five seconds.  With the link down it asks for nothing.
   */
  lemma PollingTurnsAskForWhatIsDue(boot: ConnectAnswers, inputs: seq<Input>, input: Input) returns (asked: seq<Polled>)
    requires Handles(Run(boot, inputs), input, RunDataPolling)
    ensures var m := Run(boot, inputs); var m' := Step(m, input);
      if m.transport then AsksWhatIsDue(m, m', asked) else m'.talks == m.talks && m'.events == m.events
  {
    hide Run, OnRunDataPolling, AsksWhatIsDue, PollTimes;
    var m := Run(boot, inputs);
    RunTimes(boot, inputs);
    var popped := if input.Internal? then m.(internalQueue := m.internalQueue[1..])
      else m.(delayQueue := RemoveAt(m.delayQueue, input.index));
    SameTimes(m, popped);
    if m.transport {
      asked := PollingTurn(popped, input.answers.poll);
      SameTurn(m, popped, Step(m, input), asked);
    } else {
      asked := [];
      SilentTurn(popped, input.answers.poll);
    }
  }

  lemma SameTurn(m: Manager, popped: Manager, m': Manager, asked: seq<Polled>)
    requires AsksWhatIsDue(popped, m', asked)
    requires m.talks == popped.talks && m.events == popped.events && m.now == popped.now
    ensures AsksWhatIsDue(m, m', asked)
  {
  }
}
