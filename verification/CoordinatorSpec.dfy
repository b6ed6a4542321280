/**
 * The coordinator as a state machine (src/coordinator): the switch freeze, the fragment cache and
 * the policy that decides what is published.  Calls on the MQTT handle are a log; whether its
 * channel had room matters to the code for the subscription only.
 */
module CoordinatorSpec {
  import opened Wrappers
  import opened JkBmsTypes

  const U32_MAX: nat := 0xFFFF_FFFF

  // ---- Switch freeze ----

  datatype SwitchField = Charging | Balancing

  datatype Frozen = Frozen(seqNo: nat, value: bool)

  datatype Freeze = Freeze(charging: Option<Frozen>, balancing: Option<Frozen>)

  function FreezeSwitch(f: Freeze, seqNo: nat, switch: SwitchField, value: bool): Freeze {
    match switch
    case Charging => f.(charging := Some(Frozen(seqNo, value)))
    case Balancing => f.(balancing := Some(Frozen(seqNo, value)))
  }

  /** A confirmation clears every freeze that is not newer. */
  function Apply(f: Freeze, seqNo: nat): Freeze {
    Freeze(
      if f.charging.Some? && seqNo >= f.charging.value.seqNo then None else f.charging,
      if f.balancing.Some? && seqNo >= f.balancing.value.seqNo then None else f.balancing)
  }

  /** An error clears the freeze of that very write. */
  function Clear(f: Freeze, seqNo: nat): Freeze {
    Freeze(
      if f.charging.Some? && seqNo == f.charging.value.seqNo then None else f.charging,
      if f.balancing.Some? && seqNo == f.balancing.value.seqNo then None else f.balancing)
  }

  predicate IsFrozen(f: Freeze, seqNo: nat) {
    (f.charging.Some? && f.charging.value.seqNo == seqNo) || (f.balancing.Some? && f.balancing.value.seqNo == seqNo)
  }

  // ---- Fragments and snapshots ----

  datatype CellAggregates = CellAggregates(
    averageV: real, minV: real, maxV: real, deltaV: real, minCell: nat, maxCell: nat)

  datatype Snapshot = Snapshot(
    totalVoltage: real,
    totalCurrent: real,
    totalPower: real,
    soc: nat,
    soh: nat,
    capacityRemaining: real,
    totalCycleCapacity: real,
    batteryCapacity: real,
    chargingCycles: int,
    totalRuntime: nat,
    cellVoltages: seq<real>,
    cellResistances: seq<real>,
    cellAggregates: Option<CellAggregates>,
    mosTemperature: real,
    temperature1: real,
    temperature2: real,
    temperature4: real,
    temperature5: real,
    balancingCurrent: real,
    balancingActive: bool,
    chargingSwitch: bool,
    balanceSwitch: bool,
    alarmRaw: nat,
    powerCycleCount: nat,
    lastUpdateAge: nat,
    jkbmsReconnectCount: nat,
    mqttReconnectCount: nat)

  datatype Fragments = Fragments(
    deviceInfo: Option<DeviceInfo>,
    configOptions: Option<ConfigOptions>,
    operational: Option<OperationalData>,
    alarmsRaw: Option<nat>,
    lastUpdateAt: Option<Instant>)

  const NO_FRAGMENTS := Fragments(None, None, None, None, None)

  function SetData(f: Fragments, d: JkBmsData, at: Instant): Fragments {
    match d
    case Info(info) => f.(deviceInfo := Some(info), lastUpdateAt := Some(at))
    case Config(config) => f.(configOptions := Some(config), lastUpdateAt := Some(at))
    case Operational(op) => f.(operational := Some(op), lastUpdateAt := Some(at))
    case Alarms(raw) => f.(alarmsRaw := Some(raw), lastUpdateAt := Some(at))
  }

  function Sum(v: seq<real>): real {
    if v == [] then 0.0 else Sum(v[..|v| - 1]) + v[|v| - 1]
  }

  /** The first cell with the least voltage, counted from zero. */
  function MinCell(v: seq<real>): (i: nat)
    requires v != []
    ensures i < |v|
  {
    if |v| == 1 then 0 else
    var best := MinCell(v[..|v| - 1]);
    if v[|v| - 1] < v[best] then |v| - 1 else best
  }

  /** The first cell with the greatest voltage, counted from zero. */
  function MaxCell(v: seq<real>): (i: nat)
    requires v != []
    ensures i < |v|
  {
    if |v| == 1 then 0 else
    var best := MaxCell(v[..|v| - 1]);
    if v[|v| - 1] > v[best] then |v| - 1 else best
  }

  lemma {:induction false} MinCellIsFirstLeast(v: seq<real>)
    requires v != []
    ensures var i := MinCell(v);
      && (forall j | 0 <= j < |v| :: v[i] <= v[j]) && (forall j | 0 <= j < i :: v[i] < v[j])
  {
    if |v| > 1 {
      var front := v[..|v| - 1];
      MinCellIsFirstLeast(front);
      assert forall j | 0 <= j < |front| :: front[j] == v[j];
      hide MinCell;
      MinCellStep(v);
    }
  }

  lemma MinCellStep(v: seq<real>)
    requires |v| > 1
    ensures var best := MinCell(v[..|v| - 1]); MinCell(v) == if v[|v| - 1] < v[best] then |v| - 1 else best
  {
  }

  lemma {:induction false} MaxCellIsFirstGreatest(v: seq<real>)
    requires v != []
    ensures var i := MaxCell(v);
      && (forall j | 0 <= j < |v| :: v[j] <= v[i]) && (forall j | 0 <= j < i :: v[j] < v[i])
  {
    if |v| > 1 {
      var front := v[..|v| - 1];
      MaxCellIsFirstGreatest(front);
      assert forall j | 0 <= j < |front| :: front[j] == v[j];
      hide MaxCell;
      MaxCellStep(v);
    }
  }

  lemma MaxCellStep(v: seq<real>)
    requires |v| > 1
    ensures var best := MaxCell(v[..|v| - 1]); MaxCell(v) == if v[|v| - 1] > v[best] then |v| - 1 else best
  {
  }

  /** Cells are numbered from one in what is published. */
  function Aggregate(v: seq<real>): CellAggregates
    requires v != []
  {
    MinCellIsFirstLeast(v);
    MaxCellIsFirstGreatest(v);
    var lo := MinCell(v);
    var hi := MaxCell(v);
    CellAggregates(Sum(v) / |v| as real, v[lo], v[hi], v[hi] - v[lo], lo + 1, hi + 1)
  }

  function TotalPower(voltage: real, current: real): real {
    voltage * current
  }

  function Age(now: Instant, at: Instant): nat {
    if now < at then 0 else (now - at) / SECOND
  }

  /** Nothing until the configuration and some operational data are known. */
  function MergeFragments(f: Fragments, now: Instant): Option<Snapshot> {
    if f.configOptions.None? || f.operational.None? || f.lastUpdateAt.None? then None else
    var config := f.configOptions.value;
    var op := f.operational.value;
    var n := Min(config.cellCount, TOTAL_CELL_SLOTS);
    var voltages := op.cellVoltages[..n];
    Some(Snapshot(
      totalVoltage := op.totalVoltage,
      totalCurrent := op.totalCurrent,
      totalPower := TotalPower(op.totalVoltage, op.totalCurrent),
      soc := op.soc,
      soh := op.soh,
      capacityRemaining := op.capacityRemaining,
      totalCycleCapacity := op.totalCycleCapacity,
      batteryCapacity := config.batteryCapacity,
      chargingCycles := op.chargingCycles,
      totalRuntime := op.totalRuntime,
      cellVoltages := voltages,
      cellResistances := op.cellResistances[..n],
      cellAggregates := if voltages != [] then Some(Aggregate(voltages)) else None,
      mosTemperature := op.mosTemperature,
      temperature1 := op.temperature1,
      temperature2 := op.temperature2,
      temperature4 := op.temperature4,
      temperature5 := op.temperature5,
      balancingCurrent := op.balancingCurrent,
      balancingActive := op.balancingActive,
      chargingSwitch := config.chargingSwitch,
      balanceSwitch := config.balanceSwitch,
      alarmRaw := if f.alarmsRaw.Some? then f.alarmsRaw.value else 0,
      powerCycleCount := if f.deviceInfo.Some? then f.deviceInfo.value.powerCycleCount else 0,
      lastUpdateAge := Age(now, f.lastUpdateAt.value),
      jkbmsReconnectCount := 0,
      mqttReconnectCount := 0))
  }

  /** The frozen switches show the requested value, not the one read back. */
  function ApplyTo(f: Freeze, s: Snapshot): Snapshot {
    s.(chargingSwitch := if f.charging.Some? then f.charging.value.value else s.chargingSwitch,
       balanceSwitch := if f.balancing.Some? then f.balancing.value.value else s.balanceSwitch)
  }

  predicate AllKnown(f: Fragments) {
    f.deviceInfo.Some? && f.configOptions.Some? && f.operational.Some?
  }

  // ---- Coordinator ----

  datatype Call =
    | PublishSnapshot(snapshot: Snapshot)
    | PublishDiscovery(info: DeviceInfo, cellCount: nat)
    | PublishAvailability(online: bool)
    | SubscribeToCommands

  /** A write offered to the serial side, and whether its channel took it. */
  datatype WriteCall = WriteCall(command: WriteCommand, seqNo: nat, accepted: bool)

  datatype IncomingRequest = RequestCharging(on: bool) | RequestBalancing(on: bool)

  datatype Coordinator = Coordinator(
    fragments: Fragments,
    freeze: Freeze,
    nextSeq: nat,
    jkbmsReconnectCount: nat,
    hadFirstConnection: bool,
    mqttReconnectCount: nat,
    hadFirstBrokerConnection: bool,
    discoveryPublished: bool,
    brokerConnected: bool,
    jkbmsOnline: bool,
    calls: seq<Call>,
    writes: seq<WriteCall>)

  const NEW_COORDINATOR :=
    Coordinator(NO_FRAGMENTS, Freeze(None, None), 0, 0, false, 0, false, false, false, false, [], [])

  function SaturatingIncrement(n: nat): nat {
    if n >= U32_MAX then U32_MAX else n + 1
  }

  /** Connections after the first, as a saturating 32-bit counter. */
  function Reconnects(connections: nat): nat {
    if connections == 0 then 0 else Min(connections - 1, 4_294_967_295)
  }

  function Called(c: Coordinator, call: Call): Coordinator {
    c.(calls := c.calls + [call])
  }

  function CommandOf(req: IncomingRequest): WriteCommand {
    match req case RequestCharging(on) => SetCharging(on) case RequestBalancing(on) => SetBalancing(on)
  }

  function FieldOf(req: IncomingRequest): SwitchField {
    match req case RequestCharging(_) => Charging case RequestBalancing(_) => Balancing
  }

  /** Freeze first, then offer the write; a refused write is unfrozen at once. */
  function HandleIncoming(c: Coordinator, req: IncomingRequest, accepted: bool): Coordinator {
    var seqNo := c.nextSeq + 1;
    var frozen := FreezeSwitch(c.freeze, seqNo, FieldOf(req), req.on);
    c.(nextSeq := seqNo,
       writes := c.writes + [WriteCall(CommandOf(req), seqNo, accepted)],
       freeze := if accepted then frozen else Clear(frozen, seqNo))
  }

  function BuildSnapshot(c: Coordinator, now: Instant): Option<Snapshot> {
    match MergeFragments(c.fragments, now)
    case None => None
    case Some(s) =>
      Some(ApplyTo(c.freeze, s).(
        jkbmsReconnectCount := c.jkbmsReconnectCount, mqttReconnectCount := c.mqttReconnectCount))
  }

  function PublishIfBuildable(c: Coordinator, now: Instant): Coordinator {
    match BuildSnapshot(c, now)
    case None => c
    case Some(s) => Called(c, PublishSnapshot(s))
  }

  function DiscoverIfKnown(c: Coordinator): Coordinator {
    if c.fragments.deviceInfo.Some? && c.fragments.configOptions.Some? then
      Called(c, PublishDiscovery(c.fragments.deviceInfo.value, c.fragments.configOptions.value.cellCount))
    else c
  }

  function OnConnection(c: Coordinator, state: ConnectionState): Coordinator {
    match state
    case Connected =>
      var c1 := if c.hadFirstConnection
        then c.(jkbmsReconnectCount := SaturatingIncrement(c.jkbmsReconnectCount))
        else c.(hadFirstConnection := true);
      Called(c1.(jkbmsOnline := true), PublishAvailability(true))
    case Reconnecting => c
    case Disconnected =>
      if c.jkbmsOnline then Called(c.(jkbmsOnline := false), PublishAvailability(false)) else c
  }

  /** What a data or write event changes before anything is published. */
  function Absorb(c: Coordinator, e: JkBmsEvent, now: Instant): Coordinator {
    match e
    case Connection(_) => c
    case Data(d) => c.(fragments := SetData(c.fragments, d, now))
    case WriteConfirmation(n, readback) =>
      c.(freeze := Apply(c.freeze, n), fragments := SetData(c.fragments, Config(readback), now))
    case WriteError(n, _) => c.(freeze := Clear(c.freeze, n))
  }

  function HandleEvent(c: Coordinator, e: JkBmsEvent, now: Instant): Coordinator {
    if e.Connection? then OnConnection(c, e.state) else
    var c1 := Absorb(c, e, now);
    var c2 :=
      if !c1.discoveryPublished && AllKnown(c1.fragments) && !AllKnown(c.fragments)
      then DiscoverIfKnown(c1).(discoveryPublished := true) else c1;
    PublishIfBuildable(c2, now)
  }

  function HandleBrokerConnected(c: Coordinator, subscribed: bool, now: Instant): Coordinator {
    var c1 := c.(brokerConnected := true);
    var c2 := if c.hadFirstBrokerConnection
      then c1.(mqttReconnectCount := SaturatingIncrement(c1.mqttReconnectCount))
      else c1.(hadFirstBrokerConnection := true);
    var c3 := Called(c2, SubscribeToCommands);
    if !subscribed then c3
    else PublishIfBuildable(DiscoverIfKnown(Called(c3, PublishAvailability(c3.jkbmsOnline))), now)
  }

  predicate IsHealthy(c: Coordinator) {
    c.brokerConnected && c.jkbmsOnline
  }

  function HandleBrokerDisconnected(c: Coordinator): Coordinator {
    c.(brokerConnected := false)
  }

  // ---- What one publication changes ----

  lemma PublishEffect(c: Coordinator, now: Instant)
    ensures var c' := PublishIfBuildable(c, now); var f := c.fragments;
      && c' == c.(calls := c'.calls)
      && (if f.configOptions.Some? && f.operational.Some? && f.lastUpdateAt.Some?
          then exists s :: c'.calls == c.calls + [PublishSnapshot(s)]
          else c'.calls == c.calls)
  {
    hide Aggregate, ApplyTo, TotalPower, Age;
    var b := BuildSnapshot(c, now);
    if b.Some? {
      assert PublishIfBuildable(c, now).calls == c.calls + [PublishSnapshot(b.value)];
    }
  }

  lemma DiscoverEffect(c: Coordinator)
    ensures var c' := DiscoverIfKnown(c); var f := c.fragments;
      && c' == c.(calls := c'.calls)
      && (if f.deviceInfo.Some? && f.configOptions.Some?
          then c'.calls == c.calls + [PublishDiscovery(f.deviceInfo.value, f.configOptions.value.cellCount)]
          else c'.calls == c.calls)
  {
  }

  lemma AbsorbFrame(c: Coordinator, e: JkBmsEvent, now: Instant)
    ensures var c1 := Absorb(c, e, now); c1 == c.(fragments := c1.fragments, freeze := c1.freeze)
  {
    hide SetData, Apply, Clear;
  }

  /** An event that is no link event touches the cache, the freezes, the flag and the calls. */
  lemma HandleEventFrame(c: Coordinator, e: JkBmsEvent, now: Instant)
    requires !e.Connection?
    ensures var c1 := Absorb(c, e, now); var c' := HandleEvent(c, e, now);
      c' == c.(fragments := c1.fragments, freeze := c1.freeze,
        discoveryPublished := c'.discoveryPublished, calls := c'.calls)
  {
    hide Absorb, PublishIfBuildable, DiscoverIfKnown, AllKnown;
    var c1 := Absorb(c, e, now);
    AbsorbFrame(c, e, now);
    DiscoverEffect(c1);
    PublishEffect(c1, now);
    PublishEffect(DiscoverIfKnown(c1).(discoveryPublished := true), now);
  }

  /** What is published by `PublishIfBuildable` is the snapshot that can be built then and afterwards. */
  lemma PublishesBuilt(c: Coordinator, now: Instant)
    ensures var c' := PublishIfBuildable(c, now); var b := BuildSnapshot(c, now);
      && BuildSnapshot(c', now) == b
      && c'.calls == (if b.Some? then c.calls + [PublishSnapshot(b.value)] else c.calls)
  {
    hide MergeFragments, ApplyTo;
  }

  /** Calls and the discovery flag have no part in what can be built. */
  lemma BuiltFromElsewhere(c: Coordinator, c': Coordinator, now: Instant)
    requires c' == c.(calls := c'.calls, discoveryPublished := c'.discoveryPublished)
    ensures BuildSnapshot(c', now) == BuildSnapshot(c, now)
  {
    hide MergeFragments, ApplyTo;
  }
}
