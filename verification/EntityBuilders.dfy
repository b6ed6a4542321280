/** The three builders of src/mqtt/discovery.rs and src/mqtt/formatter.rs. */
module Entities {
  import opened Wrappers
  import opened CoordinatorSpec
  import opened Decimals
  import opened Listings

  method AnnouncePack(was: seq<string>) returns (out: seq<string>)
    ensures out == was + DiscoveryPack()
  {
    out := was;
    out := out + ["total_voltage"];
    out := out + ["total_current"];
    out := out + ["total_power"];
    out := out + ["state_of_charge"];
    out := out + ["state_of_health"];
    out := out + ["capacity_remaining"];
    out := out + ["power_cycle_count"];
  }

  method AnnounceLifetime(was: seq<string>) returns (out: seq<string>)
    ensures out == was + DiscoveryLifetime()
  {
    out := was;
    out := out + ["total_cycle_capacity"];
    out := out + ["battery_capacity_ah"];
    out := out + ["charging_cycles"];
    out := out + ["total_runtime_seconds"];
    out := out + ["total_runtime"];
  }

  method AnnounceAggregates(was: seq<string>) returns (out: seq<string>)
    ensures out == was + DiscoveryAggregates()
  {
    out := was;
    out := out + ["cell_voltage_average"];
    out := out + ["cell_voltage_min"];
    out := out + ["cell_voltage_max"];
    out := out + ["cell_voltage_delta"];
    out := out + ["cell_voltage_min_cell"];
    out := out + ["cell_voltage_max_cell"];
  }

  method AnnounceSensors(was: seq<string>) returns (out: seq<string>)
    ensures out == was + DiscoverySensors()
  {
    out := was;
    var temperatures := [
      "mos_temperature", "temperature_sensor_1", "temperature_sensor_2", "temperature_sensor_4",
      "temperature_sensor_5"];
    for i := 0 to |temperatures|
      invariant out == was + temperatures[..i]
    {
      out := out + [temperatures[i]];
    }
    out := out + ["balancing_current"];
    out := out + ["balancing_active"];
  }

  method AnnounceStatus(was: seq<string>) returns (out: seq<string>)
    ensures out == was + DiscoveryStatus()
  {
    out := was;
    out := out + ["alarm_list"];
    out := out + ["last_update_age"];
    out := out + ["jkbms_reconnect_count"];
    out := out + ["mqtt_reconnect_count"];
    out := out + ["charging"];
    out := out + ["balancing"];
  }

  /** Discovery announces each cell's voltage and resistance together. */
  method BuildPayloads(cellCount: nat) returns (out: seq<string>)
    ensures out == DiscoveryIds(cellCount)
  {
    hide DiscoveryPack, DiscoveryLifetime, DiscoveryAggregates, DiscoverySensors, DiscoveryStatus, Decimal;
    out := AnnouncePack([]);
    out := AnnounceLifetime(out);
    ghost var before := out;
    for n := 1 to cellCount + 1
      invariant out == before + DiscoveryCells(n - 1)
    {
      out := out + ["cell_" + Decimal(n) + "_voltage"];
      out := out + ["cell_" + Decimal(n) + "_resistance"];
    }
    out := AnnounceAggregates(out);
    out := AnnounceSensors(out);
    out := AnnounceStatus(out);
  }

  method PublishPack(was: seq<Publication>, s: Snapshot) returns (out: seq<Publication>)
    ensures out == was + TopicPack(s)
  {
    out := was;
    out := out + [Publication("total_voltage", Fixed(s.totalVoltage, 2))];
    out := out + [Publication("total_current", Fixed(s.totalCurrent, 3))];
    out := out + [Publication("total_power", Fixed(s.totalPower, 2))];
    out := out + [Publication("state_of_charge", Whole(s.soc))];
    out := out + [Publication("state_of_health", Whole(s.soh))];
    out := out + [Publication("capacity_remaining", Fixed(s.capacityRemaining, 1))];
  }

  method PublishLifetime(was: seq<Publication>, s: Snapshot) returns (out: seq<Publication>)
    ensures out == was + TopicLifetime(s)
  {
    out := was;
    out := out + [Publication("total_cycle_capacity", Fixed(s.totalCycleCapacity, 1))];
    out := out + [Publication("battery_capacity_ah", Fixed(s.batteryCapacity, 1))];
    out := out + [Publication("charging_cycles", Whole(s.chargingCycles))];
    out := out + [Publication("total_runtime_seconds", Whole(s.totalRuntime))];
    out := out + [Publication("total_runtime", Duration(s.totalRuntime))];
  }

  method PublishAggregates(was: seq<Publication>, a: CellAggregates) returns (out: seq<Publication>)
    ensures out == was + TopicAggregates(a)
  {
    out := was;
    out := out + [Publication("cell_voltage_average", Fixed(a.averageV, 3))];
    out := out + [Publication("cell_voltage_min", Fixed(a.minV, 3))];
    out := out + [Publication("cell_voltage_max", Fixed(a.maxV, 3))];
    out := out + [Publication("cell_voltage_delta", Fixed(a.deltaV, 3))];
    out := out + [Publication("cell_voltage_min_cell", Whole(a.minCell))];
    out := out + [Publication("cell_voltage_max_cell", Whole(a.maxCell))];
  }

  method PublishSensors(was: seq<Publication>, s: Snapshot) returns (out: seq<Publication>)
    ensures out == was + TopicSensors(s)
  {
    out := was;
    out := out + [Publication("mos_temperature", Fixed(s.mosTemperature, 1))];
    out := out + [Publication("temperature_sensor_1", Fixed(s.temperature1, 1))];
    out := out + [Publication("temperature_sensor_2", Fixed(s.temperature2, 1))];
    out := out + [Publication("temperature_sensor_4", Fixed(s.temperature4, 1))];
    out := out + [Publication("temperature_sensor_5", Fixed(s.temperature5, 1))];
    out := out + [Publication("balancing_current", Fixed(s.balancingCurrent, 3))];
    out := out + [Publication("balancing_active", OnOff(s.balancingActive))];
  }

  method PublishStatus(was: seq<Publication>, s: Snapshot) returns (out: seq<Publication>)
    ensures out == was + TopicStatus(s)
  {
    out := was;
    out := out + [Publication("charging", OnOff(s.chargingSwitch))];
    out := out + [Publication("balancing", OnOff(s.balanceSwitch))];
    out := out + [Publication("alarm_list", AlarmTexts(s.alarmRaw))];
    out := out + [Publication("power_cycle_count", Whole(s.powerCycleCount))];
    out := out + [Publication("last_update_age", Whole(s.lastUpdateAge))];
    out := out + [Publication("jkbms_reconnect_count", Whole(s.jkbmsReconnectCount))];
    out := out + [Publication("mqtt_reconnect_count", Whole(s.mqttReconnectCount))];
  }

  /** The topics list all voltages before all resistances. */
  method PerEntityPublications(s: Snapshot) returns (out: seq<Publication>)
    ensures out == PerEntity(s)
  {
    hide TopicPack, TopicLifetime, TopicAggregates, TopicSensors, TopicStatus, Decimal;
    out := PublishPack([], s);
    out := PublishLifetime(out, s);
    ghost var before := out;
    for i := 0 to |s.cellVoltages|
      invariant out == before + TopicVoltages(s, i)
    {
      out := out + [Publication("cell_" + Decimal(i + 1) + "_voltage", Fixed(s.cellVoltages[i], 3))];
    }
    before := out;
    for i := 0 to |s.cellResistances|
      invariant out == before + TopicResistances(s, i)
    {
      out := out + [Publication("cell_" + Decimal(i + 1) + "_resistance", Fixed(s.cellResistances[i], 3))];
    }
    if s.cellAggregates.Some? {
      out := PublishAggregates(out, s.cellAggregates.value);
    }
    out := PublishSensors(out, s);
    out := PublishStatus(out, s);
  }

  /** The object under construction, and the insertions that made it. */
  class Builder {
    var built: map<string, Reading>
    ghost var inserted: seq<Publication>

    ghost predicate Valid()
      reads this
    {
      built == Inserted(inserted)
    }

    constructor ()
      ensures Valid() && inserted == []
    {
      built, inserted := map[], [];
    }

    method Ins(id: string, value: Reading)
      requires Valid()
      modifies this
      ensures Valid() && inserted == old(inserted) + [Publication(id, value)]
    {
      ghost var more := inserted + [Publication(id, value)];
      assert more[..|more| - 1] == inserted;
      built := built[id := value];
      inserted := more;
    }

    method InsertPack(s: Snapshot)
      requires Valid()
      modifies this
      ensures Valid() && inserted == old(inserted) + KeyPack(s)
    {
      hide Inserted;
      Ins("total_voltage", Fixed(s.totalVoltage, 2));
      Ins("total_current", Fixed(s.totalCurrent, 3));
      Ins("total_power", Fixed(s.totalPower, 2));
      Ins("state_of_charge", Whole(s.soc));
      Ins("state_of_health", Whole(s.soh));
      Ins("capacity_remaining", Fixed(s.capacityRemaining, 1));
    }

    method InsertLifetime(s: Snapshot)
      requires Valid()
      modifies this
      ensures Valid() && inserted == old(inserted) + KeyLifetime(s)
    {
      hide Inserted;
      Ins("total_cycle_capacity", Fixed(s.totalCycleCapacity, 1));
      Ins("battery_capacity_ah", Fixed(s.batteryCapacity, 1));
      Ins("charging_cycles", Whole(s.chargingCycles));
      Ins("total_runtime_seconds", Whole(s.totalRuntime));
      Ins("total_runtime", Duration(s.totalRuntime));
    }

    method InsertAggregates(a: CellAggregates)
      requires Valid()
      modifies this
      ensures Valid() && inserted == old(inserted) + KeyAggregates(a)
    {
      hide Inserted;
      Ins("cell_voltage_average", Fixed(a.averageV, 3));
      Ins("cell_voltage_min", Fixed(a.minV, 3));
      Ins("cell_voltage_max", Fixed(a.maxV, 3));
      Ins("cell_voltage_delta", Fixed(a.deltaV, 3));
      Ins("cell_voltage_min_cell", Whole(a.minCell));
      Ins("cell_voltage_max_cell", Whole(a.maxCell));
    }

    method InsertSensors(s: Snapshot)
      requires Valid()
      modifies this
      ensures Valid() && inserted == old(inserted) + KeySensors(s)
    {
      hide Inserted;
      Ins("mos_temperature", Fixed(s.mosTemperature, 1));
      Ins("temperature_sensor_1", Fixed(s.temperature1, 1));
      Ins("temperature_sensor_2", Fixed(s.temperature2, 1));
      Ins("temperature_sensor_4", Fixed(s.temperature4, 1));
      Ins("temperature_sensor_5", Fixed(s.temperature5, 1));
      Ins("balancing_current", Fixed(s.balancingCurrent, 3));
      Ins("balancing_active", OnOff(s.balancingActive));
    }

    method InsertStatus(s: Snapshot)
      requires Valid()
      modifies this
      ensures Valid() && inserted == old(inserted) + KeyStatus(s)
    {
      hide Inserted;
      Ins("charging", OnOff(s.chargingSwitch));
      Ins("balancing", OnOff(s.balanceSwitch));
      Ins("alarm_list", AlarmTexts(s.alarmRaw));
      Ins("power_cycle_count", Whole(s.powerCycleCount));
      Ins("last_update_age", Whole(s.lastUpdateAge));
      Ins("jkbms_reconnect_count", Whole(s.jkbmsReconnectCount));
      Ins("mqtt_reconnect_count", Whole(s.mqttReconnectCount));
    }
  }

  /** The same readings, inserted one by one into an object. */
  method SnapshotJson(s: Snapshot) returns (m: map<string, Reading>)
    ensures m == Json(s)
  {
    hide KeyPack, KeyLifetime, KeyAggregates, KeySensors, KeyStatus, Decimal, Inserted;
    var b := new Builder();
    b.InsertPack(s);
    b.InsertLifetime(s);
    ghost var before := b.inserted;
    for i := 0 to |s.cellVoltages|
      invariant fresh(b) && b.Valid() && b.inserted == before + KeyVoltages(s, i)
    {
      b.Ins("cell_" + Decimal(i + 1) + "_voltage", Fixed(s.cellVoltages[i], 3));
    }
    before := b.inserted;
    for i := 0 to |s.cellResistances|
      invariant fresh(b) && b.Valid() && b.inserted == before + KeyResistances(s, i)
    {
      b.Ins("cell_" + Decimal(i + 1) + "_resistance", Fixed(s.cellResistances[i], 3));
    }
    if s.cellAggregates.Some? {
      b.InsertAggregates(s.cellAggregates.value);
    }
    b.InsertSensors(s);
    b.InsertStatus(s);
    assert b.inserted == Keys(s);
    m := b.built;
  }
}
