/** The three objects of src/coordinator, each proved to do what `CoordinatorSpec` says. */
module CoordinatorObjects {
  import opened Wrappers
  import opened JkBmsTypes
  import opened CoordinatorSpec

  class SwitchFreeze {
    var charging: Option<Frozen>
    var balancing: Option<Frozen>

    ghost function Model(): Freeze
      reads this
    {
      Freeze(charging, balancing)
    }

    constructor ()
      ensures Model() == Freeze(None, None)
    {
      charging, balancing := None, None;
    }

    method FreezeField(seqNo: nat, switch: SwitchField, value: bool)
      modifies this
      ensures Model() == FreezeSwitch(old(Model()), seqNo, switch, value)
    {
      match switch {
        case Charging => charging := Some(Frozen(seqNo, value));
        case Balancing => balancing := Some(Frozen(seqNo, value));
      }
    }

    method ApplyTo(snapshot: Snapshot) returns (s: Snapshot)
      ensures s == CoordinatorSpec.ApplyTo(Model(), snapshot)
    {
      s := snapshot;
      if charging.Some? {
        s := s.(chargingSwitch := charging.value.value);
      }
      if balancing.Some? {
        s := s.(balanceSwitch := balancing.value.value);
      }
    }

    method Apply(seqNo: nat)
      modifies this
      ensures Model() == CoordinatorSpec.Apply(old(Model()), seqNo)
    {
      if charging.Some? && seqNo >= charging.value.seqNo {
        charging := None;
      }
      if balancing.Some? && seqNo >= balancing.value.seqNo {
        balancing := None;
      }
    }

    method Clear(seqNo: nat)
      modifies this
      ensures Model() == CoordinatorSpec.Clear(old(Model()), seqNo)
    {
      if charging.Some? && seqNo == charging.value.seqNo {
        charging := None;
      }
      if balancing.Some? && seqNo == balancing.value.seqNo {
        balancing := None;
      }
    }
  }

  /** The source starts from the two infinities; here they are the absent values. */
  method ComputeCellAggregates(voltages: seq<real>) returns (a: CellAggregates)
    requires voltages != []
    ensures a == Aggregate(voltages)
  {
    var minV: Option<real>, maxV: Option<real> := None, None;
    var minCell, maxCell := 1, 1;
    var sum := 0.0;
    for i := 0 to |voltages|
      invariant sum == Sum(voltages[..i])
      invariant i == 0 ==> minV == None && maxV == None
      invariant i > 0 ==>
        && minCell == MinCell(voltages[..i]) + 1 && minV == Some(voltages[minCell - 1])
        && maxCell == MaxCell(voltages[..i]) + 1 && maxV == Some(voltages[maxCell - 1])
    {
      var v := voltages[i];
      assert voltages[..i + 1][..i] == voltages[..i];
      sum := sum + v;
      if minV.None? || v < minV.value {
        minV := Some(v);
        minCell := i + 1;
      }
      if maxV.None? || v > maxV.value {
        maxV := Some(v);
        maxCell := i + 1;
      }
    }
    assert voltages[..|voltages|] == voltages;
    MinCellIsFirstLeast(voltages);
    MaxCellIsFirstGreatest(voltages);
    a := CellAggregates(sum / |voltages| as real, minV.value, maxV.value, maxV.value - minV.value, minCell, maxCell);
  }

  class StateAggregator {
    var deviceInfo: Option<DeviceInfo>
    var configOptions: Option<ConfigOptions>
    var operational: Option<OperationalData>
    var alarmsRaw: Option<nat>
    var lastUpdateAt: Option<Instant>

    ghost function Model(): Fragments
      reads this
    {
      Fragments(deviceInfo, configOptions, operational, alarmsRaw, lastUpdateAt)
    }

    constructor ()
      ensures Model() == NO_FRAGMENTS
    {
      deviceInfo, configOptions, operational, alarmsRaw, lastUpdateAt := None, None, None, None, None;
    }

    method Set(d: JkBmsData, now: Instant)
      modifies this
      ensures Model() == SetData(old(Model()), d, now)
    {
      lastUpdateAt := Some(now);
      match d {
        case Info(info) => deviceInfo := Some(info);
        case Config(config) => configOptions := Some(config);
        case Operational(op) => operational := Some(op);
        case Alarms(raw) => alarmsRaw := Some(raw);
      }
    }

    /** Whether the snapshot can be built, and the snapshot. */
    method BuildSnapshot(now: Instant) returns (s: Option<Snapshot>)
      ensures s == MergeFragments(Model(), now)
    {
      if configOptions.None? || operational.None? || lastUpdateAt.None? {
        return None;
      }
      var config, op := configOptions.value, operational.value;
      var n := Min(config.cellCount, TOTAL_CELL_SLOTS);
      var voltages := op.cellVoltages[..n];
      var aggregates: Option<CellAggregates> := None;
      if voltages != [] {
        var a := ComputeCellAggregates(voltages);
        aggregates := Some(a);
      }
      return Some(Snapshot(
        totalVoltage := op.totalVoltage,
        totalCurrent := op.totalCurrent,
        totalPower := TotalPower(op.totalVoltage, op.totalCurrent),
        soc := op.soc,
        soh := op.soh,
        capacityRemaining := op.capacityRemaining,
        totalCycleCapacity := op.totalCycleCapacity,
        batteryCapacity := config.batteryCapacity,
        chargingCycles := op.chargingCycles,
        totalRuntime := op.totalRuntime,
        cellVoltages := voltages,
        cellResistances := op.cellResistances[..n],
        cellAggregates := aggregates,
        mosTemperature := op.mosTemperature,
        temperature1 := op.temperature1,
        temperature2 := op.temperature2,
        temperature4 := op.temperature4,
        temperature5 := op.temperature5,
        balancingCurrent := op.balancingCurrent,
        balancingActive := op.balancingActive,
        chargingSwitch := config.chargingSwitch,
        balanceSwitch := config.balanceSwitch,
        alarmRaw := if alarmsRaw.Some? then alarmsRaw.value else 0,
        powerCycleCount := if deviceInfo.Some? then deviceInfo.value.powerCycleCount else 0,
        lastUpdateAge := Age(now, lastUpdateAt.value),
        jkbmsReconnectCount := 0,
        mqttReconnectCount := 0));
    }
  }

  class Coordinator {
    const aggregator: StateAggregator
    const freeze: SwitchFreeze
    var nextSeq: nat
    var jkbmsReconnectCount: nat
    var hadFirstConnection: bool
    var mqttReconnectCount: nat
    var hadFirstBrokerConnection: bool
    var discoveryPublished: bool
    var brokerConnected: bool
    var jkbmsOnline: bool

    // Calls on the MQTT handle and on the serial handle, in order.
    var calls: seq<Call>
    var writes: seq<WriteCall>

    ghost function Model(): CoordinatorSpec.Coordinator
      reads this, aggregator, freeze
    {
      CoordinatorSpec.Coordinator(aggregator.Model(), freeze.Model(), nextSeq, jkbmsReconnectCount, hadFirstConnection,
        mqttReconnectCount, hadFirstBrokerConnection, discoveryPublished, brokerConnected, jkbmsOnline, calls, writes)
    }

    constructor ()
      ensures Model() == NEW_COORDINATOR && fresh(aggregator) && fresh(freeze)
    {
      aggregator := new StateAggregator();
      freeze := new SwitchFreeze();
      nextSeq, jkbmsReconnectCount, mqttReconnectCount := 0, 0, 0;
      hadFirstConnection, hadFirstBrokerConnection, discoveryPublished := false, false, false;
      brokerConnected, jkbmsOnline := false, false;
      calls, writes := [], [];
    }

    method NextSeq() returns (n: nat)
      modifies this`nextSeq
      ensures n == nextSeq == old(nextSeq) + 1
    {
      nextSeq := nextSeq + 1;
      n := nextSeq;
    }

    /** `accepted` is the answer of the serial side's bounded channel. */
    method HandleIncoming(req: IncomingRequest, accepted: bool)
      modifies this`nextSeq, this`writes, freeze
      ensures Model() == CoordinatorSpec.HandleIncoming(old(Model()), req, accepted)
    {
      match req {
        case RequestCharging(value) =>
          var seqNo := NextSeq();
          freeze.FreezeField(seqNo, Charging, value);
          writes := writes + [WriteCall(SetCharging(value), seqNo, accepted)];
          if !accepted {
            freeze.Clear(seqNo);
          }
        case RequestBalancing(value) =>
          var seqNo := NextSeq();
          freeze.FreezeField(seqNo, Balancing, value);
          writes := writes + [WriteCall(SetBalancing(value), seqNo, accepted)];
          if !accepted {
            freeze.Clear(seqNo);
          }
      }
    }

    method HandleJkbmsEvent(e: JkBmsEvent, now: Instant)
      modifies this, aggregator, freeze
      ensures Model() == HandleEvent(old(Model()), e, now)
    {
      hide PublishIfBuildable;
      var hadDeviceInfo := aggregator.deviceInfo.Some?;
      var hadConfig := aggregator.configOptions.Some?;
      var hadOperational := aggregator.operational.Some?;
      match e {
        case Connection(state) =>
          HandleConnection(state);
          return;
        case Data(d) =>
          aggregator.Set(d, now);
        case WriteConfirmation(seqNo, readback) =>
          freeze.Apply(seqNo);
          aggregator.Set(Config(readback), now);
        case WriteError(seqNo, _) =>
          freeze.Clear(seqNo);
      }
      if !discoveryPublished && aggregator.deviceInfo.Some? && aggregator.configOptions.Some? &&
         aggregator.operational.Some? && (!hadDeviceInfo || !hadConfig || !hadOperational) {
        DoPublishDiscovery();
        discoveryPublished := true;
      }
      PublishCurrent(now);
    }

    method HandleConnection(state: ConnectionState)
      modifies this
      ensures Model() == OnConnection(old(Model()), state)
    {
      match state {
        case Connected =>
          if hadFirstConnection {
            jkbmsReconnectCount := SaturatingIncrement(jkbmsReconnectCount);
          } else {
            hadFirstConnection := true;
          }
          jkbmsOnline := true;
          calls := calls + [PublishAvailability(true)];
        case Reconnecting =>
        case Disconnected =>
          if jkbmsOnline {
            jkbmsOnline := false;
            calls := calls + [PublishAvailability(false)];
          }
      }
    }

    /** `subscribed` is whether the MQTT channel took the subscription. */
    method HandleBrokerConnected(subscribed: bool, now: Instant)
      modifies this
      ensures Model() == CoordinatorSpec.HandleBrokerConnected(old(Model()), subscribed, now)
    {
      hide PublishIfBuildable;
      brokerConnected := true;
      if hadFirstBrokerConnection {
        mqttReconnectCount := SaturatingIncrement(mqttReconnectCount);
      } else {
        hadFirstBrokerConnection := true;
      }
      calls := calls + [SubscribeToCommands];
      if !subscribed {
        return;
      }
      calls := calls + [PublishAvailability(jkbmsOnline)];
      DoPublishDiscovery();
      PublishCurrent(now);
    }

    method HealthStatus() returns (healthy: bool)
      ensures healthy <==> IsHealthy(Model())
    {
      healthy := brokerConnected && jkbmsOnline;
    }

    method HandleBrokerDisconnected()
      modifies this`brokerConnected
      ensures Model() == CoordinatorSpec.HandleBrokerDisconnected(old(Model()))
    {
      brokerConnected := false;
    }

    /** Overlays the frozen switches and the reconnect counts on the merged fragments. */
    method BuildSnapshot(now: Instant) returns (s: Option<Snapshot>)
      ensures s == CoordinatorSpec.BuildSnapshot(Model(), now)
    {
      s := aggregator.BuildSnapshot(now);
      if s.Some? {
        var snap := freeze.ApplyTo(s.value);
        s := Some(snap.(jkbmsReconnectCount := jkbmsReconnectCount, mqttReconnectCount := mqttReconnectCount));
      }
    }

    method PublishCurrent(now: Instant)
      modifies this`calls
      ensures Model() == PublishIfBuildable(old(Model()), now)
    {
      hide CoordinatorSpec.BuildSnapshot;
      var s := BuildSnapshot(now);
      if s.Some? {
        calls := calls + [PublishSnapshot(s.value)];
      }
    }

    method DoPublishDiscovery()
      modifies this`calls
      ensures Model() == DiscoverIfKnown(old(Model()))
    {
      if aggregator.deviceInfo.None? || aggregator.configOptions.None? {
        return;
      }
      calls := calls + [PublishDiscovery(aggregator.deviceInfo.value, aggregator.configOptions.value.cellCount)];
    }
  }
}
