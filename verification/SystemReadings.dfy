/** What is published, field by field, against what the coordinator has read from the serial side. */
module SystemReadings {
  import opened Wrappers
  import opened JkBmsTypes
  import opened ManagerSpec
  import opened ManagerRuns
  import opened CoordinatorSpec
  import opened System
  import opened SystemSteps
  import opened SystemRequests

  // ---- What a snapshot should say ----

  function Total(v: seq<real>): real {
    if v == [] then 0.0 else v[0] + Total(v[1..])
  }

  /** Cell `cell`, counted from one, is the first to have the least voltage, which is `low`. */
  predicate IsFirstLeast(v: seq<real>, low: real, cell: nat) {
    && 1 <= cell <= |v| && v[cell - 1] == low
    && (forall j | 0 <= j < |v| :: low <= v[j]) && (forall j | 0 <= j < cell - 1 :: low < v[j])
  }

  predicate IsFirstGreatest(v: seq<real>, high: real, cell: nat) {
    && 1 <= cell <= |v| && v[cell - 1] == high
    && (forall j | 0 <= j < |v| :: v[j] <= high) && (forall j | 0 <= j < cell - 1 :: v[j] < high)
  }

  predicate Summarises(v: seq<real>, a: Option<CellAggregates>) {
    && (a.None? <==> v == [])
    && (a.Some? ==>
      && IsFirstLeast(v, a.value.minV, a.value.minCell)
      && IsFirstGreatest(v, a.value.maxV, a.value.maxCell)
      && a.value.deltaV == a.value.maxV - a.value.minV
      && a.value.averageV * |v| as real == Total(v))
  }

  /** As many slots as cells are configured, sixteen at most, each with its own reading. */
  predicate ShowsCells(shown: seq<real>, slots: seq<real>, cells: nat) {
    && |slots| == 16 && |shown| == (if cells < 16 then cells else 16)
    && forall k | 0 <= k < |shown| :: shown[k] == slots[k]
  }

  predicate ShowsOperational(s: Snapshot, op: OperationalData) {
    && s.totalVoltage == op.totalVoltage && s.totalCurrent == op.totalCurrent
    && s.totalPower == op.totalVoltage * op.totalCurrent
    && s.soc == op.soc && s.soh == op.soh
    && s.capacityRemaining == op.capacityRemaining && s.totalCycleCapacity == op.totalCycleCapacity
    && s.chargingCycles == op.chargingCycles && s.totalRuntime == op.totalRuntime
    && s.mosTemperature == op.mosTemperature
    && s.temperature1 == op.temperature1 && s.temperature2 == op.temperature2
    && s.temperature4 == op.temperature4 && s.temperature5 == op.temperature5
    && s.balancingCurrent == op.balancingCurrent && s.balancingActive == op.balancingActive
  }

  /** Every reading is that of the latest data: operational, configuration, device info and alarms. */
  predicate ShowsReadings(s: Snapshot, seen: seq<Stamped>) {
    LatestConfig(seen).Some? && LatestOperational(seen).Some? &&
    var config, op := LatestConfig(seen).value, LatestOperational(seen).value;
    && ShowsOperational(s, op)
    && ShowsCells(s.cellVoltages, op.cellVoltages, config.cellCount)
    && ShowsCells(s.cellResistances, op.cellResistances, config.cellCount)
    && Summarises(s.cellVoltages, s.cellAggregates)
    && s.batteryCapacity == config.batteryCapacity
    && s.alarmRaw == (if LatestAlarms(seen).Some? then LatestAlarms(seen).value else 0)
    && s.powerCycleCount == (if LatestInfo(seen).Some? then LatestInfo(seen).value.powerCycleCount else 0)
  }

  /** A switch shows the value requested while its write is outstanding, and the one read back otherwise. */
  predicate ShowsSwitch(shown: bool, frozen: Option<Frozen>, readback: bool) {
    shown == if frozen.Some? then frozen.value.value else readback
  }

  /** Whole seconds since the data was read. */
  predicate IsAge(age: nat, at: Instant, now: Instant) {
    if now < at then age == 0 else age * 1_000_000_000 <= now - at < (age + 1) * 1_000_000_000
  }

  // ---- What happened, told from the actions ----

  predicate ReadsData(s: State, a: Action) {
    a.ReadEvent? && s.read < |s.manager.events| &&
    (s.manager.events[s.read].event.Data? || s.manager.events[s.read].event.WriteConfirmation?)
  }

  /** When the coordinator last read data. */
  function DataReadAt(boot: ConnectAnswers, actions: seq<Action>): Option<Instant> {
    if actions == [] then None else
    var n := |actions| - 1;
    if ReadsData(Reach(boot, actions[..n]), actions[n]) then Some(actions[n].now) else DataReadAt(boot, actions[..n])
  }

  function BrokerUps(actions: seq<Action>): nat {
    if actions == [] then 0 else BrokerUps(actions[..|actions| - 1]) + if actions[|actions| - 1].BrokerUp? then 1 else 0
  }

  /** Whether the broker was last reported connected. */
  predicate BrokerIsUp(actions: seq<Action>) {
    actions != [] &&
    match actions[|actions| - 1]
    case BrokerUp(_, _) => true
    case BrokerDown => false
    case _ => BrokerIsUp(actions[..|actions| - 1])
  }

  /** Everything the snapshot that can be built at `now` says. */
  ghost predicate IsCurrent(x: Snapshot, boot: ConnectAnswers, actions: seq<Action>, now: Instant) {
    var s := Reach(boot, actions);
    && s.read <= |s.manager.events| && ShowsReadings(x, Seen(s))
    && ShowsSwitch(x.chargingSwitch, s.coordinator.freeze.charging, LatestConfig(Seen(s)).value.chargingSwitch)
    && ShowsSwitch(x.balanceSwitch, s.coordinator.freeze.balancing, LatestConfig(Seen(s)).value.balanceSwitch)
    && DataReadAt(boot, actions).Some? && IsAge(x.lastUpdateAge, DataReadAt(boot, actions).value, now)
    && x.jkbmsReconnectCount == Reconnects(ConnectedCount(Seen(s)))
    && x.mqttReconnectCount == Reconnects(BrokerUps(actions))
  }

  // ---- One snapshot ----

  lemma {:induction false} TotalAppend(v: seq<real>, x: real)
    ensures Total(v + [x]) == Total(v) + x
  {
    if v == [] {
      assert v + [x] == [x] && [x][1..] == [];
    } else {
      assert (v + [x])[1..] == v[1..] + [x];
      TotalAppend(v[1..], x);
    }
  }

  lemma {:induction false} SumIsTotal(v: seq<real>)
    ensures Sum(v) == Total(v)
  {
    if v != [] {
      SumIsTotal(v[..|v| - 1]);
      TotalAppend(v[..|v| - 1], v[|v| - 1]);
      assert v[..|v| - 1] + [v[|v| - 1]] == v;
    }
  }

  lemma AggregateSummarises(v: seq<real>)
    requires v != []
    ensures Summarises(v, Some(Aggregate(v)))
  {
    hide MinCell, MaxCell, Sum, Total;
    MinCellIsFirstLeast(v);
    MaxCellIsFirstGreatest(v);
    SumIsTotal(v);
    AverageTimesCount(Sum(v), |v| as real);
  }

  lemma AverageTimesCount(sum: real, n: real)
    requires n != 0.0
    ensures sum / n * n == sum
  {
  }

  lemma SecondsElapsed(now: Instant, at: Instant)
    ensures IsAge(Age(now, at), at, now)
  {
  }

  lemma PowerIsProduct(v: real, i: real)
    ensures TotalPower(v, i) == v * i
  {
  }

  lemma CellsAreShown(slots: seq<real>, cells: nat)
    requires |slots| == 16
    ensures ShowsCells(slots[..Min(cells, TOTAL_CELL_SLOTS)], slots, cells)
  {
  }

  lemma MergedShows(seen: seq<Stamped>, f: Fragments, now: Instant)
    requires Cached(seen, f)
    ensures MergeFragments(f, now).Some? <==> LatestConfig(seen).Some? && LatestOperational(seen).Some?
    ensures MergeFragments(f, now).Some? ==> ShowsReadings(MergeFragments(f, now).value, seen)
  {
    hide LatestConfig, LatestOperational, LatestInfo, LatestAlarms, Aggregate, TotalPower, Age, ShowsCells, Summarises,
      Min;
    if MergeFragments(f, now).Some? {
      var op, cells := f.operational.value, f.configOptions.value.cellCount;
      CellsAreShown(op.cellVoltages, cells);
      CellsAreShown(op.cellResistances, cells);
      PowerIsProduct(op.totalVoltage, op.totalCurrent);
      var v := MergeFragments(f, now).value.cellVoltages;
      if v == [] {
        NothingToSummarise();
      } else {
        AggregateSummarises(v);
      }
    }
  }

  lemma NothingToSummarise()
    ensures Summarises([], None)
  {
  }

  /** Switches, counters and age leave the readings alone. */
  lemma OtherFields(x: Snapshot, y: Snapshot, seen: seq<Stamped>)
    requires ShowsReadings(x, seen)
    requires y == x.(chargingSwitch := y.chargingSwitch, balanceSwitch := y.balanceSwitch,
      jkbmsReconnectCount := y.jkbmsReconnectCount, mqttReconnectCount := y.mqttReconnectCount)
    ensures ShowsReadings(y, seen)
  {
    hide ShowsCells, Summarises, LatestConfig, LatestOperational, LatestInfo, LatestAlarms;
  }

  lemma MergedMisc(f: Fragments, now: Instant)
    ensures MergeFragments(f, now).Some? ==>
      && f.lastUpdateAt.Some? && f.configOptions.Some?
      && MergeFragments(f, now).value.lastUpdateAge == Age(now, f.lastUpdateAt.value)
      && MergeFragments(f, now).value.chargingSwitch == f.configOptions.value.chargingSwitch
      && MergeFragments(f, now).value.balanceSwitch == f.configOptions.value.balanceSwitch
  {
    hide Aggregate, TotalPower, Age, Min;
  }

  // ---- The counters and the time of the last data ----

  ghost predicate Dated(boot: ConnectAnswers, actions: seq<Action>) {
    var c := Reach(boot, actions).coordinator;
    && c.fragments.lastUpdateAt == DataReadAt(boot, actions)
    && (c.hadFirstBrokerConnection <==> BrokerUps(actions) > 0)
    && c.mqttReconnectCount == Reconnects(BrokerUps(actions))
    && c.brokerConnected == BrokerIsUp(actions)
  }

  /** What one turn does to them. */
  predicate DatedTurn(s: State, a: Action, c': Coordinator) {
    var c := s.coordinator;
    && c'.fragments.lastUpdateAt == (if ReadsData(s, a) then Some(a.now) else c.fragments.lastUpdateAt)
    && c'.hadFirstBrokerConnection == (c.hadFirstBrokerConnection || a.BrokerUp?)
    && c'.mqttReconnectCount ==
      (if a.BrokerUp? && c.hadFirstBrokerConnection then SaturatingIncrement(c.mqttReconnectCount)
       else c.mqttReconnectCount)
    && c'.brokerConnected == (a.BrokerUp? || (c.brokerConnected && !a.BrokerDown?))
  }

  lemma ReadDates(s: State, now: Instant)
    requires s.read < |s.manager.events|
    ensures DatedTurn(s, ReadEvent(now), HandleEvent(s.coordinator, s.manager.events[s.read].event, now))
  {
    var c, e := s.coordinator, s.manager.events[s.read].event;
    if !e.Connection? {
      HandleEventFrame(c, e, now);
      AbsorbDates(c, e, now);
      hide HandleEvent, Absorb;
    }
  }

  lemma AbsorbDates(c: Coordinator, e: JkBmsEvent, now: Instant)
    requires !e.Connection?
    ensures Absorb(c, e, now).fragments.lastUpdateAt ==
      if e.Data? || e.WriteConfirmation? then Some(now) else c.fragments.lastUpdateAt
  {
    hide Apply, Clear;
  }

  lemma BrokerDates(s: State, subscribed: bool, now: Instant)
    ensures DatedTurn(s, BrokerUp(subscribed, now), HandleBrokerConnected(s.coordinator, subscribed, now))
  {
    hide PublishIfBuildable, DiscoverIfKnown;
    var c := s.coordinator;
    var c1 := c.(brokerConnected := true);
    var c2 := if c.hadFirstBrokerConnection
      then c1.(mqttReconnectCount := SaturatingIncrement(c1.mqttReconnectCount))
      else c1.(hadFirstBrokerConnection := true);
    var c4 := Called(Called(c2, SubscribeToCommands), PublishAvailability(c2.jkbmsOnline));
    DiscoverEffect(c4);
    PublishEffect(DiscoverIfKnown(c4), now);
  }

  lemma ActDates(s: State, a: Action)
    ensures DatedTurn(s, a, Act(s, a).coordinator)
  {
    hide Step, HandleEvent, HandleBrokerConnected;
    match a
    case ReadEvent(now) =>
      if s.read < |s.manager.events| {
        ReadDates(s, now);
      }
    case BrokerUp(subscribed, now) => BrokerDates(s, subscribed, now);
    case _ =>
  }

  lemma {:induction false} AlwaysDated(boot: ConnectAnswers, actions: seq<Action>)
    ensures Dated(boot, actions)
    decreases |actions|
  {
    hide Act, OnConnect, ReadsData;
    if actions != [] {
      var n := |actions| - 1;
      AlwaysDated(boot, actions[..n]);
      ActDates(Reach(boot, actions[..n]), actions[n]);
    }
  }

  // ---- Every reachable state ----

  /**
   * In every reachable state a snapshot can be built exactly if configuration and operational data have
   * been read, and then each field is that of the latest data read: voltages and resistances slot by
   * slot, power as voltage times current, the age in whole seconds, the switches with what is
   * outstanding.
   */
  lemma SnapshotsAreCurrent(boot: ConnectAnswers, actions: seq<Action>, now: Instant)
    ensures var s := Reach(boot, actions); var b := BuildSnapshot(s.coordinator, now);
      && s.read <= |s.manager.events|
      && (b.Some? <==> LatestConfig(Seen(s)).Some? && LatestOperational(Seen(s)).Some?)
      && (b.Some? ==> IsCurrent(b.value, boot, actions, now))
  {
    hide Reach, Inv, Numbered, FrozenIsOutstanding, Announced, AllAnswered, ShowsReadback, MergeFragments,
      ShowsReadings, LatestConfig, LatestOperational, LatestInfo, LatestAlarms, ConnectedCount, DataReadAt, BrokerUps,
      BrokerIsUp, Age, IsAge, Reconnects;
    var s := Reach(boot, actions);
    var c := s.coordinator;
    ReachKeeps(boot, actions);
    AlwaysDated(boot, actions);
    MergedShows(Seen(s), c.fragments, now);
    MergedMisc(c.fragments, now);
    var b := BuildSnapshot(c, now);
    if b.Some? {
      OtherFields(MergeFragments(c.fragments, now).value, b.value, Seen(s));
      SecondsElapsed(now, c.fragments.lastUpdateAt.value);
    }
  }

  // ---- Every event is followed by its publication ----

  /** An event that is no link event ends in the snapshot that can be built then, if one can. */
  lemma EventEndsInSnapshot(c: Coordinator, e: JkBmsEvent, now: Instant)
    requires !e.Connection?
    ensures var c' := HandleEvent(c, e, now); var b := BuildSnapshot(c', now);
      && |c'.calls| >= |c.calls|
      && (b.Some? ==> |c'.calls| > |c.calls| && c'.calls[|c'.calls| - 1] == PublishSnapshot(b.value))
      && (b.None? ==> LastSnapshot(c'.calls) == LastSnapshot(c.calls))
  {
    hide Absorb, PublishIfBuildable, DiscoverIfKnown, BuildSnapshot, AllKnown, LastSnapshot;
    var c1 := Absorb(c, e, now);
    AbsorbFrame(c, e, now);
    DiscoverEffect(c1);
    DiscoveryIsNoSnapshot(c1);
    var c2 := DiscoverIfKnown(c1).(discoveryPublished := true);
    PublishesBuilt(c1, now);
    PublishesBuilt(c2, now);
  }

  lemma DiscoveryIsNoSnapshot(c: Coordinator)
    ensures LastSnapshot(DiscoverIfKnown(c).calls) == LastSnapshot(c.calls)
  {
  }

  /**
   * After the coordinator has read data, a confirmation or a write error, the last thing it published
   * is a new and current snapshot, as soon as configuration and operational data are known.
   */
  lemma EventsArePublished(boot: ConnectAnswers, actions: seq<Action>, now: Instant)
    requires var s := Reach(boot, actions); s.read < |s.manager.events| && !s.manager.events[s.read].event.Connection?
    ensures var s := Reach(boot, actions); var s' := Reach(boot, actions + [ReadEvent(now)]);
      var calls := s'.coordinator.calls;
      && s'.read == s.read + 1 <= |s'.manager.events|
      && (LatestConfig(Seen(s')).Some? && LatestOperational(Seen(s')).Some? ==>
        && |calls| > |s.coordinator.calls| && calls[|calls| - 1].PublishSnapshot?
        && IsCurrent(calls[|calls| - 1].snapshot, boot, actions + [ReadEvent(now)], now))
  {
    hide HandleEvent, BuildSnapshot, IsCurrent, LatestConfig, LatestOperational, OnConnect;
    var more := actions + [ReadEvent(now)];
    assert more[..|more| - 1] == actions;
    var s := Reach(boot, actions);
    EventEndsInSnapshot(s.coordinator, s.manager.events[s.read].event, now);
    SnapshotsAreCurrent(boot, more, now);
  }

  /** Reading a link event publishes nothing but the availability it changes or confirms. */
  lemma LinkEventsAnnounce(boot: ConnectAnswers, actions: seq<Action>, now: Instant)
    requires var s := Reach(boot, actions); s.read < |s.manager.events| && s.manager.events[s.read].event.Connection?
    ensures var s := Reach(boot, actions); var calls := s.coordinator.calls;
      && s.read <= |s.manager.events|
      && Act(s, ReadEvent(now)).coordinator.calls ==
        match s.manager.events[s.read].event.state
        case Connected => calls + [PublishAvailability(true)]
        case Reconnecting => calls
        case Disconnected => if Online(Seen(s)) then calls + [PublishAvailability(false)] else calls
  {
    hide Reach, LastAvailability, Online;
    AvailabilityIsTruthful(boot, actions);
  }

  // ---- The last snapshot stays true ----

  ghost predicate LastIsTrue(s: State) {
    s.read <= |s.manager.events| &&
    (LatestConfig(Seen(s)).Some? && LatestOperational(Seen(s)).Some? ==>
      LastSnapshot(s.coordinator.calls).Some? && ShowsReadings(LastSnapshot(s.coordinator.calls).value, Seen(s)))
  }

  lemma LastSnapshotAppend(calls: seq<Call>, call: Call)
    ensures LastSnapshot(calls + [call]) == if call.PublishSnapshot? then Some(call.snapshot) else LastSnapshot(calls)
  {
  }

  lemma LinkEventSaysNothing(seen: seq<Stamped>, e: Stamped)
    requires e.event.Connection?
    ensures LatestConfig(seen + [e]) == LatestConfig(seen) && LatestOperational(seen + [e]) == LatestOperational(seen)
    ensures LatestInfo(seen + [e]) == LatestInfo(seen) && LatestAlarms(seen + [e]) == LatestAlarms(seen)
  {
  }

  lemma SameReadings(x: Snapshot, seen: seq<Stamped>, seen': seq<Stamped>)
    requires LatestConfig(seen') == LatestConfig(seen) && LatestOperational(seen') == LatestOperational(seen)
    requires LatestInfo(seen') == LatestInfo(seen) && LatestAlarms(seen') == LatestAlarms(seen)
    ensures ShowsReadings(x, seen') <==> ShowsReadings(x, seen)
  {
    hide LatestConfig, LatestOperational, LatestInfo, LatestAlarms;
  }

  lemma ReadLinkKeeps(boot: ConnectAnswers, actions: seq<Action>, now: Instant)
    requires var s := Reach(boot, actions);
      LastIsTrue(s) && s.read < |s.manager.events| && s.manager.events[s.read].event.Connection?
    ensures LastIsTrue(Act(Reach(boot, actions), ReadEvent(now)))
  {
    hide Reach, LatestConfig, LatestOperational, LatestInfo, LatestAlarms, ShowsReadings, LastSnapshot, Online,
      HandleEvent;
    var s := Reach(boot, actions);
    var s' := Act(s, ReadEvent(now));
    var e := s.manager.events[s.read];
    LinkEventsAnnounce(boot, actions, now);
    LinkEventSaysNothing(Seen(s), e);
    assert Seen(s') == Seen(s) + [e];
    LastSnapshotAppend(s.coordinator.calls, PublishAvailability(true));
    LastSnapshotAppend(s.coordinator.calls, PublishAvailability(false));
    var last := LastSnapshot(s.coordinator.calls);
    if last.Some? {
      SameReadings(last.value, Seen(s), Seen(s'));
    }
  }

  /** A broker connection publishes no snapshot, or the current one as the last call. */
  lemma BrokerSnapshot(c: Coordinator, subscribed: bool, now: Instant)
    ensures var c' := HandleBrokerConnected(c, subscribed, now); var b := BuildSnapshot(c', now);
      LastSnapshot(c'.calls) == if subscribed && b.Some? then b else LastSnapshot(c.calls)
  {
    hide MergeFragments, ApplyTo, LastSnapshot;
    var c1 := c.(brokerConnected := true);
    var c2 := if c.hadFirstBrokerConnection
      then c1.(mqttReconnectCount := SaturatingIncrement(c1.mqttReconnectCount))
      else c1.(hadFirstBrokerConnection := true);
    var c3 := Called(c2, SubscribeToCommands);
    var c4 := Called(c3, PublishAvailability(c3.jkbmsOnline));
    LastSnapshotAppend(c2.calls, SubscribeToCommands);
    LastSnapshotAppend(c3.calls, PublishAvailability(c3.jkbmsOnline));
    var f := c.fragments;
    if f.deviceInfo.Some? && f.configOptions.Some? {
      LastSnapshotAppend(c4.calls, PublishDiscovery(f.deviceInfo.value, f.configOptions.value.cellCount));
    }
    var c5 := DiscoverIfKnown(c4);
    var b := BuildSnapshot(c5, now);
    if b.Some? {
      LastSnapshotAppend(c5.calls, PublishSnapshot(b.value));
    }
  }

  lemma BrokerUpKeepsLast(boot: ConnectAnswers, actions: seq<Action>, subscribed: bool, now: Instant)
    requires LastIsTrue(Reach(boot, actions))
    ensures LastIsTrue(Reach(boot, actions + [BrokerUp(subscribed, now)]))
  {
    hide HandleBrokerConnected, BuildSnapshot, LatestConfig, LatestOperational, ShowsReadings, LastSnapshot, OnConnect,
      ShowsSwitch, IsAge, DataReadAt;
    var more := actions + [BrokerUp(subscribed, now)];
    assert more[..|more| - 1] == actions;
    var s, s' := Reach(boot, actions), Reach(boot, more);
    assert Seen(s') == Seen(s);
    BrokerSnapshot(s.coordinator, subscribed, now);
    SnapshotsAreCurrent(boot, more, now);
  }

  lemma ReadKeepsLast(boot: ConnectAnswers, actions: seq<Action>, now: Instant)
    requires LastIsTrue(Reach(boot, actions))
    ensures LastIsTrue(Reach(boot, actions + [ReadEvent(now)]))
  {
    hide HandleEvent, BuildSnapshot, LatestConfig, LatestOperational, ShowsReadings, LastSnapshot, OnConnect,
      ShowsSwitch, IsAge, DataReadAt;
    var more := actions + [ReadEvent(now)];
    assert more[..|more| - 1] == actions;
    var s := Reach(boot, actions);
    if s.read < |s.manager.events| {
      if s.manager.events[s.read].event.Connection? {
        ReadLinkKeeps(boot, actions, now);
      } else {
        EventsArePublished(boot, actions, now);
        var calls := Reach(boot, more).coordinator.calls;
        if calls != [] {
          LastSnapshotAppend(calls[..|calls| - 1], calls[|calls| - 1]);
          assert calls[..|calls| - 1] + [calls[|calls| - 1]] == calls;
        }
      }
    }
  }

  lemma OtherTurns(s: State, a: Action)
    requires LastIsTrue(s) && !a.ReadEvent? && !a.BrokerUp?
    ensures LastIsTrue(Act(s, a))
  {
    hide Step, LatestConfig, LatestOperational, ShowsReadings, LastSnapshot;
    var s' := Act(s, a);
    match a {
      case Serial(input) => StepGrows(s.manager, input);
      case Deliver(write) =>
        if s.channel != [] {
          StepGrows(s.manager, Command(s.channel[0].command, s.channel[0].seqNo, write));
        }
      case Request(_, _) =>
      case BrokerDown =>
    }
    assert s'.read <= |s'.manager.events| && Seen(s') == Seen(s);
  }

  /**
   * In every reachable state in which configuration and operational data have been read, the snapshot
   * last published carries the latest of each, and the latest alarms and device info.
   */
  lemma {:induction false} LatestReadingsAreShown(boot: ConnectAnswers, actions: seq<Action>)
    ensures LastIsTrue(Reach(boot, actions))
    decreases |actions|
  {
    hide Act, LastIsTrue, OnConnect;
    if actions == [] {
      NothingSeen(Start(boot));
    } else {
      var before, a := actions[..|actions| - 1], actions[|actions| - 1];
      LatestReadingsAreShown(boot, before);
      assert before + [a] == actions;
      match a
      case ReadEvent(now) => ReadKeepsLast(boot, before, now);
      case BrokerUp(subscribed, now) => BrokerUpKeepsLast(boot, before, subscribed, now);
      case _ => OtherTurns(Reach(boot, before), a);
    }
  }

  lemma NothingSeen(s: State)
    requires s.read == 0
    ensures LastIsTrue(s)
  {
    assert Seen(s) == [];
  }

  /** Healthy means that the broker is connected and that the last settled link event read was up. */
  lemma HealthIsTold(boot: ConnectAnswers, actions: seq<Action>)
    ensures var s := Reach(boot, actions);
      && s.read <= |s.manager.events|
      && (IsHealthy(s.coordinator) <==> BrokerIsUp(actions) && Online(Seen(s)))
  {
    hide Reach, LastAvailability, Online, BrokerUps, DataReadAt, BrokerIsUp;
    AvailabilityIsTruthful(boot, actions);
    AlwaysDated(boot, actions);
  }

  // ---- Discovery ----

  /** Whatever is announced in a turn names the device info and the cell count last read. */
  lemma DiscoveriesAreCurrent(boot: ConnectAnswers, actions: seq<Action>, a: Action, i: nat)
    requires var before := Reach(boot, actions).coordinator.calls;
      var calls := Reach(boot, actions + [a]).coordinator.calls;
      |before| <= i < |calls| && calls[i].PublishDiscovery?
    ensures var s' := Reach(boot, actions + [a]); var call := s'.coordinator.calls[i];
      && s'.read <= |s'.manager.events|
      && LatestInfo(Seen(s')) == Some(call.info)
      && LatestConfig(Seen(s')).Some? && LatestConfig(Seen(s')).value.cellCount == call.cellCount
  {
    hide Act, OnConnect, Inv, Numbered, FrozenIsOutstanding, Announced, AllAnswered, ShowsReadback, Counts, LatestInfo,
      LatestConfig, LatestOperational, LatestAlarms;
    var more := actions + [a];
    assert more[..|more| - 1] == actions;
    ReachKeeps(boot, more);
    ActDiscoversCurrent(Reach(boot, actions), a, i);
  }

  predicate NamesCurrent(c': Coordinator, call: Call) {
    call.PublishDiscovery? ==>
      && c'.fragments.deviceInfo == Some(call.info) && c'.fragments.configOptions.Some?
      && c'.fragments.configOptions.value.cellCount == call.cellCount
  }

  lemma ActDiscoversCurrent(s: State, a: Action, i: nat)
    requires |s.coordinator.calls| <= i < |Act(s, a).coordinator.calls|
    ensures NamesCurrent(Act(s, a).coordinator, Act(s, a).coordinator.calls[i])
  {
    hide Step, HandleEvent, HandleBrokerConnected;
    match a
    case ReadEvent(now) =>
      if s.read < |s.manager.events| {
        EventDiscoversCurrent(s.coordinator, s.manager.events[s.read].event, now, i);
      }
    case BrokerUp(subscribed, now) => BrokerDiscoversCurrent(s.coordinator, subscribed, now, i);
    case _ =>
  }

  lemma EventDiscoversCurrent(c: Coordinator, e: JkBmsEvent, now: Instant, i: nat)
    requires |c.calls| <= i < |HandleEvent(c, e, now).calls|
    ensures NamesCurrent(HandleEvent(c, e, now), HandleEvent(c, e, now).calls[i])
  {
    if !e.Connection? {
      hide Absorb, PublishIfBuildable, DiscoverIfKnown, AllKnown;
      var c1 := Absorb(c, e, now);
      AbsorbFrame(c, e, now);
      DiscoverEffect(c1);
      PublishEffect(c1, now);
      PublishEffect(DiscoverIfKnown(c1).(discoveryPublished := true), now);
    }
  }

  lemma BrokerDiscoversCurrent(c: Coordinator, subscribed: bool, now: Instant, i: nat)
    requires |c.calls| <= i < |HandleBrokerConnected(c, subscribed, now).calls|
    ensures var c' := HandleBrokerConnected(c, subscribed, now); NamesCurrent(c', c'.calls[i])
  {
    hide PublishIfBuildable, DiscoverIfKnown;
    var c1 := c.(brokerConnected := true);
    var c2 := if c.hadFirstBrokerConnection
      then c1.(mqttReconnectCount := SaturatingIncrement(c1.mqttReconnectCount))
      else c1.(hadFirstBrokerConnection := true);
    var c4 := Called(Called(c2, SubscribeToCommands), PublishAvailability(c2.jkbmsOnline));
    DiscoverEffect(c4);
    PublishEffect(DiscoverIfKnown(c4), now);
  }
}
