/**
 * Three listings of entity ids, each spelt out as its builder spells it: discovery
 * (src/mqtt/discovery.rs:22-488), the per-entity topics (src/mqtt/formatter.rs:14-106) and the JSON
 * state object (src/mqtt/formatter.rs:118-256).  None refers to another.
 */
module Listings {
  import opened Wrappers
  import opened CoordinatorSpec
  import opened Decimals

  /** What a topic or a key carries: a number with so many decimals, or what a text is made from. */
  datatype Reading =
    | Fixed(v: real, decimals: nat)
    | Whole(n: int)
    | OnOff(on: bool)
    | Duration(seconds: nat)
    | AlarmTexts(raw: nat)

  datatype Publication = Publication(id: string, value: Reading)

  // ---- Discovery ----

  function DiscoveryPack(): seq<string> {
    [
      "total_voltage",
      "total_current",
      "total_power",
      "state_of_charge",
      "state_of_health",
      "capacity_remaining",
      "power_cycle_count"
    ]
  }

  function DiscoveryLifetime(): seq<string> {
    [
      "total_cycle_capacity",
      "battery_capacity_ah",
      "charging_cycles",
      "total_runtime_seconds",
      "total_runtime"
    ]
  }

  function DiscoveryAggregates(): seq<string> {
    [
      "cell_voltage_average",
      "cell_voltage_min",
      "cell_voltage_max",
      "cell_voltage_delta",
      "cell_voltage_min_cell",
      "cell_voltage_max_cell"
    ]
  }

  function DiscoverySensors(): seq<string> {
    [
      "mos_temperature",
      "temperature_sensor_1",
      "temperature_sensor_2",
      "temperature_sensor_4",
      "temperature_sensor_5",
      "balancing_current",
      "balancing_active"
    ]
  }

  function DiscoveryStatus(): seq<string> {
    [
      "alarm_list",
      "last_update_age",
      "jkbms_reconnect_count",
      "mqtt_reconnect_count",
      "charging",
      "balancing"
    ]
  }

  function DiscoveryCells(n: nat): seq<string> {
    if n == 0 then []
    else DiscoveryCells(n - 1) + ["cell_" + Decimal(n) + "_voltage", "cell_" + Decimal(n) + "_resistance"]
  }

  function DiscoveryIds(n: nat): seq<string> {
    DiscoveryPack() + DiscoveryLifetime() + DiscoveryCells(n) + DiscoveryAggregates() + DiscoverySensors()
      + DiscoveryStatus()
  }

  // ---- Topics ----

  function TopicPack(s: Snapshot): seq<Publication> {
    [
      Publication("total_voltage", Fixed(s.totalVoltage, 2)),
      Publication("total_current", Fixed(s.totalCurrent, 3)),
      Publication("total_power", Fixed(s.totalPower, 2)),
      Publication("state_of_charge", Whole(s.soc)),
      Publication("state_of_health", Whole(s.soh)),
      Publication("capacity_remaining", Fixed(s.capacityRemaining, 1))
    ]
  }

  function TopicLifetime(s: Snapshot): seq<Publication> {
    [
      Publication("total_cycle_capacity", Fixed(s.totalCycleCapacity, 1)),
      Publication("battery_capacity_ah", Fixed(s.batteryCapacity, 1)),
      Publication("charging_cycles", Whole(s.chargingCycles)),
      Publication("total_runtime_seconds", Whole(s.totalRuntime)),
      Publication("total_runtime", Duration(s.totalRuntime))
    ]
  }

  function TopicAggregates(a: CellAggregates): seq<Publication> {
    [
      Publication("cell_voltage_average", Fixed(a.averageV, 3)),
      Publication("cell_voltage_min", Fixed(a.minV, 3)),
      Publication("cell_voltage_max", Fixed(a.maxV, 3)),
      Publication("cell_voltage_delta", Fixed(a.deltaV, 3)),
      Publication("cell_voltage_min_cell", Whole(a.minCell)),
      Publication("cell_voltage_max_cell", Whole(a.maxCell))
    ]
  }

  function TopicSensors(s: Snapshot): seq<Publication> {
    [
      Publication("mos_temperature", Fixed(s.mosTemperature, 1)),
      Publication("temperature_sensor_1", Fixed(s.temperature1, 1)),
      Publication("temperature_sensor_2", Fixed(s.temperature2, 1)),
      Publication("temperature_sensor_4", Fixed(s.temperature4, 1)),
      Publication("temperature_sensor_5", Fixed(s.temperature5, 1)),
      Publication("balancing_current", Fixed(s.balancingCurrent, 3)),
      Publication("balancing_active", OnOff(s.balancingActive))
    ]
  }

  function TopicStatus(s: Snapshot): seq<Publication> {
    [
      Publication("charging", OnOff(s.chargingSwitch)),
      Publication("balancing", OnOff(s.balanceSwitch)),
      Publication("alarm_list", AlarmTexts(s.alarmRaw)),
      Publication("power_cycle_count", Whole(s.powerCycleCount)),
      Publication("last_update_age", Whole(s.lastUpdateAge)),
      Publication("jkbms_reconnect_count", Whole(s.jkbmsReconnectCount)),
      Publication("mqtt_reconnect_count", Whole(s.mqttReconnectCount))
    ]
  }

  function TopicVoltages(s: Snapshot, k: nat): seq<Publication>
    requires k <= |s.cellVoltages|
  {
    if k == 0 then []
    else TopicVoltages(s, k - 1) + [Publication("cell_" + Decimal(k) + "_voltage", Fixed(s.cellVoltages[k - 1], 3))]
  }

  function TopicResistances(s: Snapshot, k: nat): seq<Publication>
    requires k <= |s.cellResistances|
  {
    if k == 0 then []
    else
      TopicResistances(s, k - 1)
        + [Publication("cell_" + Decimal(k) + "_resistance", Fixed(s.cellResistances[k - 1], 3))]
  }

  function PerEntity(s: Snapshot): seq<Publication> {
    TopicPack(s) + TopicLifetime(s) + TopicVoltages(s, |s.cellVoltages|) + TopicResistances(s, |s.cellResistances|)
      + (if s.cellAggregates.Some? then TopicAggregates(s.cellAggregates.value) else []) + TopicSensors(s)
      + TopicStatus(s)
  }

  function Ids(ps: seq<Publication>): seq<string> {
    seq(|ps|, i requires 0 <= i < |ps| => ps[i].id)
  }

  // ---- JSON ----

  function KeyPack(s: Snapshot): seq<Publication> {
    [
      Publication("total_voltage", Fixed(s.totalVoltage, 2)),
      Publication("total_current", Fixed(s.totalCurrent, 3)),
      Publication("total_power", Fixed(s.totalPower, 2)),
      Publication("state_of_charge", Whole(s.soc)),
      Publication("state_of_health", Whole(s.soh)),
      Publication("capacity_remaining", Fixed(s.capacityRemaining, 1))
    ]
  }

  function KeyLifetime(s: Snapshot): seq<Publication> {
    [
      Publication("total_cycle_capacity", Fixed(s.totalCycleCapacity, 1)),
      Publication("battery_capacity_ah", Fixed(s.batteryCapacity, 1)),
      Publication("charging_cycles", Whole(s.chargingCycles)),
      Publication("total_runtime_seconds", Whole(s.totalRuntime)),
      Publication("total_runtime", Duration(s.totalRuntime))
    ]
  }

  function KeyAggregates(a: CellAggregates): seq<Publication> {
    [
      Publication("cell_voltage_average", Fixed(a.averageV, 3)),
      Publication("cell_voltage_min", Fixed(a.minV, 3)),
      Publication("cell_voltage_max", Fixed(a.maxV, 3)),
      Publication("cell_voltage_delta", Fixed(a.deltaV, 3)),
      Publication("cell_voltage_min_cell", Whole(a.minCell)),
      Publication("cell_voltage_max_cell", Whole(a.maxCell))
    ]
  }

  function KeySensors(s: Snapshot): seq<Publication> {
    [
      Publication("mos_temperature", Fixed(s.mosTemperature, 1)),
      Publication("temperature_sensor_1", Fixed(s.temperature1, 1)),
      Publication("temperature_sensor_2", Fixed(s.temperature2, 1)),
      Publication("temperature_sensor_4", Fixed(s.temperature4, 1)),
      Publication("temperature_sensor_5", Fixed(s.temperature5, 1)),
      Publication("balancing_current", Fixed(s.balancingCurrent, 3)),
      Publication("balancing_active", OnOff(s.balancingActive))
    ]
  }

  function KeyStatus(s: Snapshot): seq<Publication> {
    [
      Publication("charging", OnOff(s.chargingSwitch)),
      Publication("balancing", OnOff(s.balanceSwitch)),
      Publication("alarm_list", AlarmTexts(s.alarmRaw)),
      Publication("power_cycle_count", Whole(s.powerCycleCount)),
      Publication("last_update_age", Whole(s.lastUpdateAge)),
      Publication("jkbms_reconnect_count", Whole(s.jkbmsReconnectCount)),
      Publication("mqtt_reconnect_count", Whole(s.mqttReconnectCount))
    ]
  }

  function KeyVoltages(s: Snapshot, k: nat): seq<Publication>
    requires k <= |s.cellVoltages|
  {
    if k == 0 then []
    else KeyVoltages(s, k - 1) + [Publication("cell_" + Decimal(k) + "_voltage", Fixed(s.cellVoltages[k - 1], 3))]
  }

  function KeyResistances(s: Snapshot, k: nat): seq<Publication>
    requires k <= |s.cellResistances|
  {
    if k == 0 then []
    else
      KeyResistances(s, k - 1)
        + [Publication("cell_" + Decimal(k) + "_resistance", Fixed(s.cellResistances[k - 1], 3))]
  }

  /** The keys in the order of their insertion, with what each is set to. */
  function Keys(s: Snapshot): seq<Publication> {
    KeyPack(s) + KeyLifetime(s) + KeyVoltages(s, |s.cellVoltages|) + KeyResistances(s, |s.cellResistances|)
      + (if s.cellAggregates.Some? then KeyAggregates(s.cellAggregates.value) else []) + KeySensors(s)
      + KeyStatus(s)
  }

  /** Later insertions under the same key replace earlier ones. */
  function Inserted(ps: seq<Publication>): map<string, Reading> {
    if ps == [] then map[] else Inserted(ps[..|ps| - 1])[ps[|ps| - 1].id := ps[|ps| - 1].value]
  }

  function Json(s: Snapshot): map<string, Reading> {
    Inserted(Keys(s))
  }
}
