/** Decimal printing, as `format!` does it for unsigned numbers. */
module Decimals {
  function Digit(d: nat): char
    requires d < 10
  {
    '0' + d as char
  }

  predicate IsDigit(c: char) {
    '0' <= c <= '9'
  }

  function Decimal(n: nat): string {
    if n < 10 then [Digit(n)] else Decimal(n / 10) + [Digit(n % 10)]
  }

  function DigitValue(c: char): nat {
    if IsDigit(c) then c as int - '0' as int else 0
  }

  function ValueOf(s: string): nat {
    if s == [] then 0 else 10 * ValueOf(s[..|s| - 1]) + DigitValue(s[|s| - 1])
  }

  lemma {:induction false} DecimalReadsBack(n: nat)
    ensures ValueOf(Decimal(n)) == n && Decimal(n) != [] && IsDigit(Decimal(n)[0])
  {
    if n >= 10 {
      DecimalReadsBack(n / 10);
      assert Decimal(n)[..|Decimal(n)| - 1] == Decimal(n / 10);
    }
  }
}

/**
 * The entities behind the ids.  Every id names one of them, so listings that were spelt out separately
 * can be compared as listings of entities.
 */
module EntitiesSpec {
  import opened Wrappers
  import opened CoordinatorSpec
  import opened Decimals
  import opened Listings

  datatype Entity =
    | TotalVoltage
    | TotalCurrent
    | TotalPower
    | StateOfCharge
    | StateOfHealth
    | CapacityRemaining
    | PowerCycleCount
    | TotalCycleCapacity
    | BatteryCapacityAh
    | ChargingCycles
    | TotalRuntimeSeconds
    | TotalRuntime
    | CellVoltageAverage
    | CellVoltageMin
    | CellVoltageMax
    | CellVoltageDelta
    | CellVoltageMinCell
    | CellVoltageMaxCell
    | MosTemperature
    | TemperatureSensor1
    | TemperatureSensor2
    | TemperatureSensor4
    | TemperatureSensor5
    | BalancingCurrent
    | BalancingActive
    | AlarmList
    | LastUpdateAge
    | JkbmsReconnectCount
    | MqttReconnectCount
    | ChargingSwitch
    | BalancingSwitch
    | CellVoltage(n: nat)
    | CellResistance(n: nat)

  function PackName(e: Entity): string {
    match e
    case TotalVoltage => "total_voltage"
    case TotalCurrent => "total_current"
    case TotalPower => "total_power"
    case StateOfCharge => "state_of_charge"
    case StateOfHealth => "state_of_health"
    case CapacityRemaining => "capacity_remaining"
    case _ => ""
  }

  function LifetimeName(e: Entity): string {
    match e
    case TotalCycleCapacity => "total_cycle_capacity"
    case BatteryCapacityAh => "battery_capacity_ah"
    case ChargingCycles => "charging_cycles"
    case TotalRuntimeSeconds => "total_runtime_seconds"
    case TotalRuntime => "total_runtime"
    case _ => ""
  }

  function AggregateName(e: Entity): string {
    match e
    case CellVoltageAverage => "cell_voltage_average"
    case CellVoltageMin => "cell_voltage_min"
    case CellVoltageMax => "cell_voltage_max"
    case CellVoltageDelta => "cell_voltage_delta"
    case CellVoltageMinCell => "cell_voltage_min_cell"
    case CellVoltageMaxCell => "cell_voltage_max_cell"
    case _ => ""
  }

  function SensorName(e: Entity): string {
    match e
    case MosTemperature => "mos_temperature"
    case TemperatureSensor1 => "temperature_sensor_1"
    case TemperatureSensor2 => "temperature_sensor_2"
    case TemperatureSensor4 => "temperature_sensor_4"
    case TemperatureSensor5 => "temperature_sensor_5"
    case BalancingCurrent => "balancing_current"
    case BalancingActive => "balancing_active"
    case _ => ""
  }

  function StatusName(e: Entity): string {
    match e
    case PowerCycleCount => "power_cycle_count"
    case AlarmList => "alarm_list"
    case LastUpdateAge => "last_update_age"
    case JkbmsReconnectCount => "jkbms_reconnect_count"
    case MqttReconnectCount => "mqtt_reconnect_count"
    case ChargingSwitch => "charging"
    case BalancingSwitch => "balancing"
    case _ => ""
  }

  predicate IsPack(e: Entity) {
    match e
    case TotalVoltage | TotalCurrent | TotalPower | StateOfCharge | StateOfHealth | CapacityRemaining => true
    case _ => false
  }

  predicate IsLifetime(e: Entity) {
    match e
    case TotalCycleCapacity | BatteryCapacityAh | ChargingCycles | TotalRuntimeSeconds | TotalRuntime => true
    case _ => false
  }

  predicate IsAggregate(e: Entity) {
    match e
    case CellVoltageAverage | CellVoltageMin | CellVoltageMax | CellVoltageDelta | CellVoltageMinCell |
      CellVoltageMaxCell => true
    case _ => false
  }

  predicate IsSensor(e: Entity) {
    match e
    case MosTemperature | TemperatureSensor1 | TemperatureSensor2 | TemperatureSensor4 | TemperatureSensor5 |
      BalancingCurrent | BalancingActive => true
    case _ => false
  }

  predicate IsStatus(e: Entity) {
    match e
    case PowerCycleCount | AlarmList | LastUpdateAge | JkbmsReconnectCount | MqttReconnectCount | ChargingSwitch |
      BalancingSwitch => true
    case _ => false
  }

  function Name(e: Entity): string {
    match e
    case CellVoltage(n) => "cell_" + Decimal(n) + "_voltage"
    case CellResistance(n) => "cell_" + Decimal(n) + "_resistance"
    case _ =>
      if IsPack(e) then PackName(e)
      else if IsLifetime(e) then LifetimeName(e)
      else if IsAggregate(e) then AggregateName(e)
      else if IsSensor(e) then SensorName(e)
      else StatusName(e)
  }

  // ---- Every id belongs to one entity ----

  /** The entity a fixed id names, told by its length, its last character and its sixth from last. */
  function FixedOf(s: string): Entity
    requires |s| >= 6
  {
    var a := s[|s| - 6];
    var z := s[|s| - 1];
    match |s|
    case 8 => ChargingSwitch
    case 9 => BalancingSwitch
    case 10 => AlarmList
    case 11 => TotalPower
    case 13 =>
      if a == 'o' then TotalVoltage else
      if z == 't' then TotalCurrent else TotalRuntime
    case 15 =>
      if z == 'e' && a == 'c' then StateOfCharge else
      if z == 'h' then StateOfHealth else
      if z == 's' then ChargingCycles else
      if a == 'r' then MosTemperature else LastUpdateAge
    case 16 =>
      if z == 'n' then CellVoltageMin else
      if z == 'x' then CellVoltageMax else BalancingActive
    case 17 =>
      if a == '_' then PowerCycleCount else BalancingCurrent
    case 18 =>
      if z == 'g' then CapacityRemaining else CellVoltageDelta
    case 19 => BatteryCapacityAh
    case 20 =>
      if z == 'y' then TotalCycleCapacity else
      if z == 'e' then CellVoltageAverage else
      if z == '1' then TemperatureSensor1 else
      if z == '2' then TemperatureSensor2 else
      if z == '4' then TemperatureSensor4 else
      if z == '5' then TemperatureSensor5 else MqttReconnectCount
    case 21 =>
      if z == 's' then TotalRuntimeSeconds else
      if a == 'n' then CellVoltageMinCell else
      if z == 'l' then CellVoltageMaxCell else JkbmsReconnectCount
    case _ => ChargingSwitch
  }

  function EntityOf(s: string): Entity {
    if |s| > 13 && IsDigit(s[5]) then
      if s[|s| - 8] == '_' then CellVoltage(ValueOf(s[5..|s| - 8]))
      else if |s| > 16 then CellResistance(ValueOf(s[5..|s| - 11]))
      else ChargingSwitch
    else if |s| >= 6 then FixedOf(s)
    else ChargingSwitch
  }

  lemma PackNameReadsBack(e: Entity)
    requires IsPack(e)
    ensures EntityOf(PackName(e)) == e
  {
    hide ValueOf;
  }

  lemma LifetimeNameReadsBack(e: Entity)
    requires IsLifetime(e)
    ensures EntityOf(LifetimeName(e)) == e
  {
    hide ValueOf;
  }

  lemma AggregateNameReadsBack(e: Entity)
    requires IsAggregate(e)
    ensures EntityOf(AggregateName(e)) == e
  {
    hide ValueOf;
  }

  lemma SensorNameReadsBack(e: Entity)
    requires IsSensor(e)
    ensures EntityOf(SensorName(e)) == e
  {
    hide ValueOf;
  }

  lemma StatusNameReadsBack(e: Entity)
    requires IsStatus(e)
    ensures EntityOf(StatusName(e)) == e
  {
    hide ValueOf;
  }

  lemma CellNameReadsBack(n: nat)
    ensures EntityOf(Name(CellVoltage(n))) == CellVoltage(n) && EntityOf(Name(CellResistance(n))) == CellResistance(n)
  {
    hide Decimal, ValueOf, FixedOf;
    DecimalReadsBack(n);
    var v, r := Name(CellVoltage(n)), Name(CellResistance(n));
    assert v[5..|v| - 8] == Decimal(n) && v[5] == Decimal(n)[0];
    assert r[5..|r| - 11] == Decimal(n) && r[5] == Decimal(n)[0];
  }

  lemma NameReadsBack(e: Entity)
    ensures EntityOf(Name(e)) == e
  {
    hide EntityOf, PackName, LifetimeName, AggregateName, SensorName, StatusName, Decimal;
    if e.CellVoltage? || e.CellResistance? {
      CellNameReadsBack(e.n);
    } else if IsPack(e) {
      PackNameReadsBack(e);
    } else if IsLifetime(e) {
      LifetimeNameReadsBack(e);
    } else if IsAggregate(e) {
      AggregateNameReadsBack(e);
    } else if IsSensor(e) {
      SensorNameReadsBack(e);
    } else {
      StatusNameReadsBack(e);
    }
  }

  // ---- The listings as listings of entities ----

  const PACK := [TotalVoltage, TotalCurrent, TotalPower, StateOfCharge, StateOfHealth, CapacityRemaining]

  const LIFETIME := [TotalCycleCapacity, BatteryCapacityAh, ChargingCycles, TotalRuntimeSeconds, TotalRuntime]

  const AGGREGATES := [
    CellVoltageAverage, CellVoltageMin, CellVoltageMax, CellVoltageDelta, CellVoltageMinCell, CellVoltageMaxCell]

  const TEMPERATURES := [
    MosTemperature, TemperatureSensor1, TemperatureSensor2, TemperatureSensor4, TemperatureSensor5]

  const BALANCER := [BalancingCurrent, BalancingActive]

  const SENSORS := TEMPERATURES + BALANCER

  const DIAGNOSTICS := [LastUpdateAge, JkbmsReconnectCount, MqttReconnectCount]

  const SWITCHES := [ChargingSwitch, BalancingSwitch]

  function CellPairs(n: nat): seq<Entity> {
    if n == 0 then [] else CellPairs(n - 1) + [CellVoltage(n), CellResistance(n)]
  }

  function Voltages(n: nat): seq<Entity> {
    if n == 0 then [] else Voltages(n - 1) + [CellVoltage(n)]
  }

  function Resistances(n: nat): seq<Entity> {
    if n == 0 then [] else Resistances(n - 1) + [CellResistance(n)]
  }

  function DiscoveryHead(): seq<Entity> {
    PACK + [PowerCycleCount] + LIFETIME
  }

  function DiscoveryTail(): seq<Entity> {
    AGGREGATES + SENSORS + [AlarmList] + DIAGNOSTICS + SWITCHES
  }

  function Discovered(n: nat): seq<Entity> {
    DiscoveryHead() + CellPairs(n) + DiscoveryTail()
  }

  function Head(): seq<Entity> {
    PACK + LIFETIME
  }

  function Tail(): seq<Entity> {
    SENSORS + SWITCHES + [AlarmList, PowerCycleCount] + DIAGNOSTICS
  }

  function AggregatesOf(s: Snapshot): seq<Entity> {
    if s.cellAggregates.Some? then AGGREGATES else []
  }

  function Published(s: Snapshot): seq<Entity> {
    Head() + Voltages(|s.cellVoltages|) + Resistances(|s.cellResistances|) + AggregatesOf(s) + Tail()
  }

  /** What each entity shows. */
  function ReadingOf(s: Snapshot, e: Entity): Reading {
    match e
    case CellVoltage(k) => if 1 <= k <= |s.cellVoltages| then Fixed(s.cellVoltages[k - 1], 3) else Whole(0)
    case CellResistance(k) => if 1 <= k <= |s.cellResistances| then Fixed(s.cellResistances[k - 1], 3) else Whole(0)
    case _ =>
      if IsPack(e) then PackReading(s, e)
      else if IsLifetime(e) then LifetimeReading(s, e)
      else if IsAggregate(e) then
        if s.cellAggregates.Some? then AggregateReading(s.cellAggregates.value, e) else Whole(0)
      else if IsSensor(e) then SensorReading(s, e)
      else StatusReading(s, e)
  }

  function PackReading(s: Snapshot, e: Entity): Reading {
    match e
    case TotalVoltage => Fixed(s.totalVoltage, 2)
    case TotalCurrent => Fixed(s.totalCurrent, 3)
    case TotalPower => Fixed(s.totalPower, 2)
    case StateOfCharge => Whole(s.soc)
    case StateOfHealth => Whole(s.soh)
    case _ => Fixed(s.capacityRemaining, 1)
  }

  function LifetimeReading(s: Snapshot, e: Entity): Reading {
    match e
    case TotalCycleCapacity => Fixed(s.totalCycleCapacity, 1)
    case BatteryCapacityAh => Fixed(s.batteryCapacity, 1)
    case ChargingCycles => Whole(s.chargingCycles)
    case TotalRuntimeSeconds => Whole(s.totalRuntime)
    case _ => Duration(s.totalRuntime)
  }

  function AggregateReading(a: CellAggregates, e: Entity): Reading {
    match e
    case CellVoltageAverage => Fixed(a.averageV, 3)
    case CellVoltageMin => Fixed(a.minV, 3)
    case CellVoltageMax => Fixed(a.maxV, 3)
    case CellVoltageDelta => Fixed(a.deltaV, 3)
    case CellVoltageMinCell => Whole(a.minCell)
    case _ => Whole(a.maxCell)
  }

  function SensorReading(s: Snapshot, e: Entity): Reading {
    match e
    case MosTemperature => Fixed(s.mosTemperature, 1)
    case TemperatureSensor1 => Fixed(s.temperature1, 1)
    case TemperatureSensor2 => Fixed(s.temperature2, 1)
    case TemperatureSensor4 => Fixed(s.temperature4, 1)
    case TemperatureSensor5 => Fixed(s.temperature5, 1)
    case BalancingCurrent => Fixed(s.balancingCurrent, 3)
    case _ => OnOff(s.balancingActive)
  }

  function StatusReading(s: Snapshot, e: Entity): Reading {
    match e
    case ChargingSwitch => OnOff(s.chargingSwitch)
    case BalancingSwitch => OnOff(s.balanceSwitch)
    case AlarmList => AlarmTexts(s.alarmRaw)
    case PowerCycleCount => Whole(s.powerCycleCount)
    case LastUpdateAge => Whole(s.lastUpdateAge)
    case JkbmsReconnectCount => Whole(s.jkbmsReconnectCount)
    case _ => Whole(s.mqttReconnectCount)
  }

  function Names(es: seq<Entity>): seq<string> {
    seq(|es|, i requires 0 <= i < |es| => Name(es[i]))
  }

  function Publications(s: Snapshot, es: seq<Entity>): seq<Publication> {
    seq(|es|, i requires 0 <= i < |es| => Publication(Name(es[i]), ReadingOf(s, es[i])))
  }

  lemma NamesJoin(a: seq<Entity>, b: seq<Entity>)
    ensures Names(a + b) == Names(a) + Names(b)
  {
  }

  lemma PublicationsJoin(s: Snapshot, a: seq<Entity>, b: seq<Entity>)
    ensures Publications(s, a + b) == Publications(s, a) + Publications(s, b)
  {
  }

  // Discovery, block by block.

  lemma DiscoveryPackNames()
    ensures DiscoveryPack() == Names(PACK + [PowerCycleCount])
  {
  }

  lemma DiscoveryLifetimeNames()
    ensures DiscoveryLifetime() == Names(LIFETIME)
  {
  }

  lemma DiscoveryAggregateNames()
    ensures DiscoveryAggregates() == Names(AGGREGATES)
  {
  }

  lemma DiscoverySensorNames()
    ensures DiscoverySensors() == Names(SENSORS)
  {
  }

  lemma DiscoveryStatusNames()
    ensures DiscoveryStatus() == Names([AlarmList] + DIAGNOSTICS + SWITCHES)
  {
  }

  lemma {:induction false} DiscoveryCellNames(n: nat)
    ensures DiscoveryCells(n) == Names(CellPairs(n))
  {
    hide Decimal;
    if n > 0 {
      DiscoveryCellNames(n - 1);
    }
  }

  /** What discovery spells out is the names of the entities it announces. */
  lemma DiscoveryNames(n: nat)
    ensures DiscoveryIds(n) == Names(Discovered(n))
  {
    DiscoveryPackNames();
    DiscoveryLifetimeNames();
    DiscoveryCellNames(n);
    DiscoveryAggregateNames();
    DiscoverySensorNames();
    DiscoveryStatusNames();
    hide Names, Name, CellPairs, DiscoveryPack, DiscoveryLifetime, DiscoveryCells, DiscoveryAggregates,
      DiscoverySensors, DiscoveryStatus, PACK, LIFETIME, AGGREGATES, SENSORS, DIAGNOSTICS, SWITCHES;
    var status := [AlarmList] + DIAGNOSTICS + SWITCHES;
    NamesJoin(PACK + [PowerCycleCount], LIFETIME);
    NamesJoin(DiscoveryHead(), CellPairs(n));
    NamesJoin(DiscoveryHead() + CellPairs(n), AGGREGATES);
    NamesJoin(DiscoveryHead() + CellPairs(n) + AGGREGATES, SENSORS);
    NamesJoin(DiscoveryHead() + CellPairs(n) + AGGREGATES + SENSORS, status);
    assert Discovered(n) == DiscoveryHead() + CellPairs(n) + AGGREGATES + SENSORS + status;
  }

  // Topics, block by block.

  lemma TopicPackPublishes(s: Snapshot)
    ensures TopicPack(s) == Publications(s, PACK)
  {
  }

  lemma TopicLifetimePublishes(s: Snapshot)
    ensures TopicLifetime(s) == Publications(s, LIFETIME)
  {
  }

  lemma TopicAggregatesPublish(s: Snapshot)
    requires s.cellAggregates.Some?
    ensures TopicAggregates(s.cellAggregates.value) == Publications(s, AGGREGATES)
  {
  }

  lemma TopicSensorsPublish(s: Snapshot)
    ensures TopicSensors(s) == Publications(s, SENSORS)
  {
  }

  lemma TopicStatusPublishes(s: Snapshot)
    ensures TopicStatus(s) == Publications(s, SWITCHES + [AlarmList, PowerCycleCount] + DIAGNOSTICS)
  {
  }

  lemma {:induction false} TopicCellsPublish(s: Snapshot, k: nat)
    ensures k <= |s.cellVoltages| ==> TopicVoltages(s, k) == Publications(s, Voltages(k))
    ensures k <= |s.cellResistances| ==> TopicResistances(s, k) == Publications(s, Resistances(k))
  {
    hide Decimal;
    if k > 0 {
      TopicCellsPublish(s, k - 1);
    }
  }

  lemma PublishedJoins(s: Snapshot)
    ensures Publications(s, Published(s)) ==
      Publications(s, PACK) + Publications(s, LIFETIME) + Publications(s, Voltages(|s.cellVoltages|))
        + Publications(s, Resistances(|s.cellResistances|)) + Publications(s, AggregatesOf(s))
        + Publications(s, SENSORS) + Publications(s, SWITCHES + [AlarmList, PowerCycleCount] + DIAGNOSTICS)
  {
    hide Publications, Voltages, Resistances, AggregatesOf, PACK, LIFETIME, SENSORS, DIAGNOSTICS, SWITCHES;
    var v, r := Voltages(|s.cellVoltages|), Resistances(|s.cellResistances|);
    var status := SWITCHES + [AlarmList, PowerCycleCount] + DIAGNOSTICS;
    var head := Head() + v + r + AggregatesOf(s);
    PublicationsJoin(s, PACK, LIFETIME);
    PublicationsJoin(s, Head(), v);
    PublicationsJoin(s, Head() + v, r);
    PublicationsJoin(s, Head() + v + r, AggregatesOf(s));
    PublicationsJoin(s, head, SENSORS);
    PublicationsJoin(s, head + SENSORS, status);
    assert Published(s) == head + SENSORS + status;
  }

  /** The topics are what the published entities show, under their names. */
  lemma TopicPublications(s: Snapshot)
    ensures PerEntity(s) == Publications(s, Published(s))
  {
    TopicPackPublishes(s);
    TopicLifetimePublishes(s);
    TopicCellsPublish(s, |s.cellVoltages|);
    TopicCellsPublish(s, |s.cellResistances|);
    if s.cellAggregates.Some? {
      TopicAggregatesPublish(s);
    }
    TopicSensorsPublish(s);
    TopicStatusPublishes(s);
    assert Publications(s, []) == [];
    hide Publications, Voltages, Resistances, TopicPack, TopicLifetime, TopicVoltages, TopicResistances,
      TopicAggregates, TopicSensors, TopicStatus, PACK, LIFETIME, AGGREGATES, SENSORS, DIAGNOSTICS, SWITCHES;
    PublishedJoins(s);
  }

  // Keys, block by block.

  lemma KeyPackPublishes(s: Snapshot)
    ensures KeyPack(s) == Publications(s, PACK)
  {
  }

  lemma KeyLifetimePublishes(s: Snapshot)
    ensures KeyLifetime(s) == Publications(s, LIFETIME)
  {
  }

  lemma KeyAggregatesPublish(s: Snapshot)
    requires s.cellAggregates.Some?
    ensures KeyAggregates(s.cellAggregates.value) == Publications(s, AGGREGATES)
  {
  }

  lemma KeySensorsPublish(s: Snapshot)
    ensures KeySensors(s) == Publications(s, SENSORS)
  {
  }

  lemma KeyStatusPublishes(s: Snapshot)
    ensures KeyStatus(s) == Publications(s, SWITCHES + [AlarmList, PowerCycleCount] + DIAGNOSTICS)
  {
  }

  lemma {:induction false} KeyCellsPublish(s: Snapshot, k: nat)
    ensures k <= |s.cellVoltages| ==> KeyVoltages(s, k) == Publications(s, Voltages(k))
    ensures k <= |s.cellResistances| ==> KeyResistances(s, k) == Publications(s, Resistances(k))
  {
    hide Decimal;
    if k > 0 {
      KeyCellsPublish(s, k - 1);
    }
  }

  /** And so are the keys of the JSON object. */
  lemma KeyPublications(s: Snapshot)
    ensures Keys(s) == Publications(s, Published(s))
  {
    KeyPackPublishes(s);
    KeyLifetimePublishes(s);
    KeyCellsPublish(s, |s.cellVoltages|);
    KeyCellsPublish(s, |s.cellResistances|);
    if s.cellAggregates.Some? {
      KeyAggregatesPublish(s);
    }
    KeySensorsPublish(s);
    KeyStatusPublishes(s);
    assert Publications(s, []) == [];
    hide Publications, Voltages, Resistances, KeyPack, KeyLifetime, KeyVoltages, KeyResistances,
      KeyAggregates, KeySensors, KeyStatus, PACK, LIFETIME, AGGREGATES, SENSORS, DIAGNOSTICS, SWITCHES;
    PublishedJoins(s);
  }
}

/** What the three listings have in common. */
module EntityAgreement {
  import opened Wrappers
  import opened JkBmsTypes
  import opened CoordinatorSpec
  import opened Decimals
  import opened Listings
  import opened EntitiesSpec

  /** Which entities a listing with so many voltages and resistances, and aggregates or not, names. */
  predicate Belongs(e: Entity, voltages: nat, resistances: nat, aggregates: bool) {
    if e.CellVoltage? then 1 <= e.n <= voltages
    else if e.CellResistance? then 1 <= e.n <= resistances
    else IsAggregate(e) ==> aggregates
  }

  function One(b: bool): nat {
    if b then 1 else 0
  }

  /** How often a listing names an entity. */
  function Times(es: seq<Entity>, e: Entity): nat {
    multiset(es)[e]
  }

  lemma TimesJoin(a: seq<Entity>, b: seq<Entity>, e: Entity)
    ensures Times(a + b, e) == Times(a, e) + Times(b, e)
  {
  }

  lemma TimesOne(x: Entity, e: Entity)
    ensures Times([x], e) == One(x == e)
  {
  }

  lemma NoTimes(e: Entity)
    ensures Times([], e) == 0
  {
  }

  lemma OneMorePair(n: nat, e: Entity)
    requires n > 0
    ensures Times(CellPairs(n), e) ==
      Times(CellPairs(n - 1), e) + One(CellVoltage(n) == e) + One(CellResistance(n) == e)
  {
  }

  lemma {:induction false} CellPairsHold(e: Entity, n: nat)
    ensures Times(CellPairs(n), e) == One((e.CellVoltage? || e.CellResistance?) && 1 <= e.n <= n)
  {
    hide Times;
    if n == 0 {
      NoTimes(e);
    } else {
      hide CellPairs;
      OneMorePair(n, e);
      CellPairsHold(e, n - 1);
    }
  }

  lemma {:induction false} VoltagesHold(e: Entity, n: nat)
    ensures Times(Voltages(n), e) == One(e.CellVoltage? && 1 <= e.n <= n)
  {
    hide Times;
    if n == 0 {
      NoTimes(e);
    } else {
      VoltagesHold(e, n - 1);
      TimesOne(CellVoltage(n), e);
      TimesJoin(Voltages(n - 1), [CellVoltage(n)], e);
    }
  }

  lemma {:induction false} ResistancesHold(e: Entity, n: nat)
    ensures Times(Resistances(n), e) == One(e.CellResistance? && 1 <= e.n <= n)
  {
    hide Times;
    if n == 0 {
      NoTimes(e);
    } else {
      ResistancesHold(e, n - 1);
      TimesOne(CellResistance(n), e);
      TimesJoin(Resistances(n - 1), [CellResistance(n)], e);
    }
  }

  lemma PackHolds(e: Entity)
    ensures Times(PACK, e) == One(IsPack(e))
  {
  }

  lemma LifetimeHolds(e: Entity)
    ensures Times(LIFETIME, e) == One(IsLifetime(e))
  {
  }

  lemma AggregatesHold(e: Entity)
    ensures Times(AGGREGATES, e) == One(IsAggregate(e))
  {
  }

  predicate IsTemperature(e: Entity) {
    e.MosTemperature? || e.TemperatureSensor1? || e.TemperatureSensor2? || e.TemperatureSensor4?
      || e.TemperatureSensor5?
  }

  lemma TemperaturesHold(e: Entity)
    ensures Times(TEMPERATURES, e) == One(IsTemperature(e))
  {
  }

  lemma BalancerHolds(e: Entity)
    ensures Times(BALANCER, e) == One(e.BalancingCurrent? || e.BalancingActive?)
  {
  }

  lemma SensorsHold(e: Entity)
    ensures Times(SENSORS, e) == One(IsSensor(e))
  {
    hide Times, TEMPERATURES, BALANCER;
    TemperaturesHold(e);
    BalancerHolds(e);
    TimesJoin(TEMPERATURES, BALANCER, e);
  }

  lemma StatusHolds(e: Entity)
    ensures Times(DIAGNOSTICS, e) + Times(SWITCHES, e) + One(e == AlarmList) + One(e == PowerCycleCount) ==
      One(IsStatus(e))
  {
  }

  lemma FixedHold(e: Entity)
    ensures Times(DiscoveryHead(), e) + Times(DiscoveryTail(), e) == One(!e.CellVoltage? && !e.CellResistance?)
    ensures Times(Head(), e) + Times(Tail(), e) == One(!e.CellVoltage? && !e.CellResistance? && !IsAggregate(e))
  {
    hide Times, PACK, LIFETIME, AGGREGATES, SENSORS, DIAGNOSTICS, SWITCHES;
    PackHolds(e);
    LifetimeHolds(e);
    AggregatesHold(e);
    SensorsHold(e);
    StatusHolds(e);
    TimesOne(AlarmList, e);
    TimesOne(PowerCycleCount, e);
    TimesJoin([AlarmList], [PowerCycleCount], e);
    assert [AlarmList] + [PowerCycleCount] == [AlarmList, PowerCycleCount];
    TimesJoin(PACK, [PowerCycleCount], e);
    TimesJoin(PACK + [PowerCycleCount], LIFETIME, e);
    TimesJoin(PACK, LIFETIME, e);
    TimesJoin(AGGREGATES, SENSORS, e);
    TimesJoin(AGGREGATES + SENSORS, [AlarmList], e);
    TimesJoin(AGGREGATES + SENSORS + [AlarmList], DIAGNOSTICS, e);
    TimesJoin(AGGREGATES + SENSORS + [AlarmList] + DIAGNOSTICS, SWITCHES, e);
    TimesJoin(SENSORS, SWITCHES, e);
    TimesJoin(SENSORS + SWITCHES, [AlarmList, PowerCycleCount], e);
    TimesJoin(SENSORS + SWITCHES + [AlarmList, PowerCycleCount], DIAGNOSTICS, e);
  }

  /** Discovery names each entity that belongs, once. */
  lemma DiscoveredHolds(e: Entity, n: nat)
    ensures Times(Discovered(n), e) == One(Belongs(e, n, n, true))
  {
    hide Times, CellPairs, DiscoveryHead, DiscoveryTail, IsAggregate;
    CellPairsHold(e, n);
    FixedHold(e);
    TimesJoin(DiscoveryHead(), CellPairs(n), e);
    TimesJoin(DiscoveryHead() + CellPairs(n), DiscoveryTail(), e);
  }

  lemma AggregatesOfHold(e: Entity, s: Snapshot)
    ensures Times(AggregatesOf(s), e) == One(IsAggregate(e) && s.cellAggregates.Some?)
  {
    hide IsAggregate, AGGREGATES;
    AggregatesHold(e);
    NoTimes(e);
  }

  /** And so do the topics. */
  lemma PublishedHolds(e: Entity, s: Snapshot)
    ensures Times(Published(s), e) == One(Belongs(e, |s.cellVoltages|, |s.cellResistances|, s.cellAggregates.Some?))
  {
    assert IsAggregate(e) ==> !e.CellVoltage? && !e.CellResistance?;
    hide Times, AggregatesOf, IsAggregate, Voltages, Resistances, Head, Tail;
    VoltagesHold(e, |s.cellVoltages|);
    ResistancesHold(e, |s.cellResistances|);
    AggregatesOfHold(e, s);
    FixedHold(e);
    TimesJoin5(Head(), Voltages(|s.cellVoltages|), Resistances(|s.cellResistances|), AggregatesOf(s), Tail(), e);
  }

  lemma TimesJoin5(a: seq<Entity>, b: seq<Entity>, c: seq<Entity>, d: seq<Entity>, f: seq<Entity>, e: Entity)
    ensures Times(a + b + c + d + f, e) == Times(a, e) + Times(b, e) + Times(c, e) + Times(d, e) + Times(f, e)
  {
    hide Times;
    TimesJoin(a, b, e);
    TimesJoin(a + b, c, e);
    TimesJoin(a + b + c, d, e);
    TimesJoin(a + b + c + d, f, e);
  }

  predicate Distinct<T(==)>(s: seq<T>) {
    forall i, j | 0 <= i < j < |s| :: s[i] != s[j]
  }

  lemma OnceEachIsDistinct(es: seq<Entity>)
    requires forall e :: Times(es, e) <= 1
    ensures Distinct(es)
  {
    forall i, j | 0 <= i < j < |es| ensures es[i] != es[j] {
      assert es == es[..j] + es[j..];
      TimesJoin(es[..j], es[j..], es[i]);
      assert es[..j][i] == es[i] && es[i] in multiset(es[..j]);
      assert es[j..][0] == es[j] && es[j] in multiset(es[j..]);
    }
  }

  lemma DistinctNames(es: seq<Entity>)
    requires Distinct(es)
    ensures Distinct(Names(es))
  {
    forall i, j | 0 <= i < j < |es| ensures Name(es[i]) != Name(es[j]) {
      NameReadsBack(es[i]);
      NameReadsBack(es[j]);
    }
  }

  /** No id is announced twice, for any cell count. */
  lemma DiscoveryIsDistinct(n: nat)
    ensures Distinct(DiscoveryIds(n)) && Distinct(Discovered(n))
  {
    hide Discovered, DiscoveryIds;
    forall e ensures Times(Discovered(n), e) <= 1 {
      DiscoveredHolds(e, n);
    }
    OnceEachIsDistinct(Discovered(n));
    DistinctNames(Discovered(n));
    DiscoveryNames(n);
  }

  lemma TopicIds(s: Snapshot)
    ensures Ids(PerEntity(s)) == Names(Published(s)) == Ids(Keys(s))
  {
    hide PerEntity, Keys, Published, Name, ReadingOf;
    TopicPublications(s);
    KeyPublications(s);
  }

  /** No topic is published twice, for any snapshot. */
  lemma PublicationsAreDistinct(s: Snapshot)
    ensures Distinct(Ids(PerEntity(s))) && Distinct(Published(s))
  {
    hide Published, PerEntity;
    forall e ensures Times(Published(s), e) <= 1 {
      PublishedHolds(e, s);
    }
    OnceEachIsDistinct(Published(s));
    DistinctNames(Published(s));
    TopicIds(s);
  }

  /** Insertions under distinct keys all stay. */
  lemma {:induction false} InsertedHolds(ps: seq<Publication>)
    requires Distinct(Ids(ps))
    ensures forall id :: id in Inserted(ps).Keys <==> id in Ids(ps)
    ensures forall i | 0 <= i < |ps| :: ps[i].id in Inserted(ps) && Inserted(ps)[ps[i].id] == ps[i].value
  {
    if ps != [] {
      var front, last := ps[..|ps| - 1], ps[|ps| - 1];
      assert Ids(ps) == Ids(front) + [last.id];
      assert Distinct(Ids(front)) by {
        assert forall i | 0 <= i < |front| :: Ids(front)[i] == Ids(ps)[i];
      }
      InsertedHolds(front);
      forall i | 0 <= i < |ps|
        ensures ps[i].id in Inserted(ps) && Inserted(ps)[ps[i].id] == ps[i].value
      {
        if i < |front| {
          assert Ids(ps)[i] != Ids(ps)[|ps| - 1];
          assert front[i] == ps[i];
        }
      }
    }
  }

  /** The JSON object has exactly the per-entity ids as keys, each with the value its topic carries. */
  lemma JsonMatchesTopics(s: Snapshot)
    ensures forall id :: id in Json(s).Keys <==> id in Ids(PerEntity(s))
    ensures forall p | p in PerEntity(s) :: p.id in Json(s) && Json(s)[p.id] == p.value
  {
    hide PerEntity, Keys, Published, Inserted, Name, ReadingOf;
    PublicationsAreDistinct(s);
    TopicIds(s);
    TopicPublications(s);
    KeyPublications(s);
    InsertedHolds(Keys(s));
  }

  /** The topic of `id` and the key `id` both carry `value`. */
  predicate Says(s: Snapshot, id: string, value: Reading) {
    Publication(id, value) in PerEntity(s) && id in Json(s) && Json(s)[id] == value
  }

  lemma PublishedIsSaid(s: Snapshot, p: Publication)
    requires p in PerEntity(s)
    ensures Says(s, p.id, p.value)
  {
    hide PerEntity, Json;
    JsonMatchesTopics(s);
  }

  lemma BlocksArePublished(s: Snapshot)
    ensures forall p | p in TopicPack(s) || p in TopicLifetime(s) || p in TopicSensors(s) || p in TopicStatus(s) ::
      p in PerEntity(s)
    ensures s.cellAggregates.Some? ==> forall p | p in TopicAggregates(s.cellAggregates.value) :: p in PerEntity(s)
  {
    hide TopicPack, TopicLifetime, TopicVoltages, TopicResistances, TopicAggregates, TopicSensors, TopicStatus;
  }

  lemma PackSays(s: Snapshot)
    ensures Says(s, "total_voltage", Fixed(s.totalVoltage, 2))
    ensures Says(s, "total_current", Fixed(s.totalCurrent, 3))
    ensures Says(s, "total_power", Fixed(s.totalPower, 2))
    ensures Says(s, "state_of_charge", Whole(s.soc))
    ensures Says(s, "state_of_health", Whole(s.soh))
    ensures Says(s, "capacity_remaining", Fixed(s.capacityRemaining, 1))
  {
    hide Says, PerEntity;
    BlocksArePublished(s);
    var b := TopicPack(s);
    assert b[0] in b && b[1] in b && b[2] in b && b[3] in b && b[4] in b && b[5] in b;
    forall p | p in b ensures Says(s, p.id, p.value) { PublishedIsSaid(s, p); }
  }

  lemma LifetimeSays(s: Snapshot)
    ensures Says(s, "total_cycle_capacity", Fixed(s.totalCycleCapacity, 1))
    ensures Says(s, "battery_capacity_ah", Fixed(s.batteryCapacity, 1))
    ensures Says(s, "charging_cycles", Whole(s.chargingCycles))
    ensures Says(s, "total_runtime_seconds", Whole(s.totalRuntime))
    ensures Says(s, "total_runtime", Duration(s.totalRuntime))
  {
    hide Says, PerEntity;
    BlocksArePublished(s);
    var b := TopicLifetime(s);
    assert b[0] in b && b[1] in b && b[2] in b && b[3] in b && b[4] in b;
    forall p | p in b ensures Says(s, p.id, p.value) { PublishedIsSaid(s, p); }
  }

  lemma AggregatesSay(s: Snapshot)
    requires s.cellAggregates.Some?
    ensures var a := s.cellAggregates.value;
      && Says(s, "cell_voltage_average", Fixed(a.averageV, 3))
      && Says(s, "cell_voltage_min", Fixed(a.minV, 3)) && Says(s, "cell_voltage_max", Fixed(a.maxV, 3))
      && Says(s, "cell_voltage_delta", Fixed(a.deltaV, 3))
      && Says(s, "cell_voltage_min_cell", Whole(a.minCell)) && Says(s, "cell_voltage_max_cell", Whole(a.maxCell))
  {
    hide Says, PerEntity;
    BlocksArePublished(s);
    var b := TopicAggregates(s.cellAggregates.value);
    assert b[0] in b && b[1] in b && b[2] in b && b[3] in b && b[4] in b && b[5] in b;
    forall p | p in b ensures Says(s, p.id, p.value) { PublishedIsSaid(s, p); }
  }

  lemma SensorsSay(s: Snapshot)
    ensures Says(s, "mos_temperature", Fixed(s.mosTemperature, 1))
    ensures Says(s, "temperature_sensor_1", Fixed(s.temperature1, 1))
    ensures Says(s, "temperature_sensor_2", Fixed(s.temperature2, 1))
    ensures Says(s, "temperature_sensor_4", Fixed(s.temperature4, 1))
    ensures Says(s, "temperature_sensor_5", Fixed(s.temperature5, 1))
    ensures Says(s, "balancing_current", Fixed(s.balancingCurrent, 3))
    ensures Says(s, "balancing_active", OnOff(s.balancingActive))
  {
    hide Says, PerEntity;
    BlocksArePublished(s);
    var b := TopicSensors(s);
    assert b[0] in b && b[1] in b && b[2] in b && b[3] in b && b[4] in b && b[5] in b && b[6] in b;
    forall p | p in b ensures Says(s, p.id, p.value) { PublishedIsSaid(s, p); }
  }

  lemma StatusSays(s: Snapshot)
    ensures Says(s, "charging", OnOff(s.chargingSwitch)) && Says(s, "balancing", OnOff(s.balanceSwitch))
    ensures Says(s, "alarm_list", AlarmTexts(s.alarmRaw))
    ensures Says(s, "power_cycle_count", Whole(s.powerCycleCount))
    ensures Says(s, "last_update_age", Whole(s.lastUpdateAge))
    ensures Says(s, "jkbms_reconnect_count", Whole(s.jkbmsReconnectCount))
    ensures Says(s, "mqtt_reconnect_count", Whole(s.mqttReconnectCount))
  {
    hide Says, PerEntity;
    BlocksArePublished(s);
    var b := TopicStatus(s);
    assert b[0] in b && b[1] in b && b[2] in b && b[3] in b && b[4] in b && b[5] in b && b[6] in b;
    forall p | p in b ensures Says(s, p.id, p.value) { PublishedIsSaid(s, p); }
  }

  /** A cell's topic carries the reading of that cell, numbered from one. */
  lemma CellTopicsCarryTheirCells(s: Snapshot, k: nat)
    requires 1 <= k <= |s.cellVoltages| && k <= |s.cellResistances|
    ensures Publication("cell_" + Decimal(k) + "_voltage", Fixed(s.cellVoltages[k - 1], 3)) in PerEntity(s)
    ensures Publication("cell_" + Decimal(k) + "_resistance", Fixed(s.cellResistances[k - 1], 3)) in PerEntity(s)
  {
    CellNames(k);
    TopicPublications(s);
    hide Published, Name, Decimal, PerEntity;
    PublishedHolds(CellVoltage(k), s);
    PublishedHolds(CellResistance(k), s);
    assert CellVoltage(k) in multiset(Published(s)) && CellResistance(k) in multiset(Published(s));
    var i :| 0 <= i < |Published(s)| && Published(s)[i] == CellVoltage(k);
    var j :| 0 <= j < |Published(s)| && Published(s)[j] == CellResistance(k);
    assert PerEntity(s)[i].id == Name(CellVoltage(k)) && PerEntity(s)[j].id == Name(CellResistance(k));
  }

  lemma CellNames(k: nat)
    ensures Name(CellVoltage(k)) == "cell_" + Decimal(k) + "_voltage"
    ensures Name(CellResistance(k)) == "cell_" + Decimal(k) + "_resistance"
  {
  }

  ghost predicate Agree(n: nat, s: Snapshot) {
    && (forall id :: id in DiscoveryIds(n) <==> id in Ids(PerEntity(s)))
    && (forall id :: id in DiscoveryIds(n) <==> id in Json(s).Keys)
  }

  lemma NamesHold(e: Entity, es: seq<Entity>)
    ensures Name(e) in Names(es) <==> Times(es, e) > 0
  {
    if Name(e) in Names(es) {
      var i :| 0 <= i < |es| && Names(es)[i] == Name(e);
      NameReadsBack(e);
      NameReadsBack(es[i]);
      assert es[i] in multiset(es);
    }
    if Times(es, e) > 0 {
      assert e in es;
      var i :| 0 <= i < |es| && es[i] == e;
      assert Names(es)[i] == Name(e);
    }
  }

  /**
   * The three listings name the same entities exactly when the snapshot has as many voltages and
   * resistances as discovery announced, and carries aggregates.
   */
  lemma ListingsAgree(n: nat, s: Snapshot)
    ensures Agree(n, s) <==> |s.cellVoltages| == n && |s.cellResistances| == n && s.cellAggregates.Some?
  {
    hide Published, Discovered, Name, Json, Belongs, PerEntity, Keys, DiscoveryIds;
    JsonMatchesTopics(s);
    TopicIds(s);
    DiscoveryNames(n);
    if |s.cellVoltages| == n && |s.cellResistances| == n && s.cellAggregates.Some? {
      SameEntities(n, s);
    } else {
      Differ(n, s);
    }
  }

  lemma SameEntities(n: nat, s: Snapshot)
    requires |s.cellVoltages| == n && |s.cellResistances| == n && s.cellAggregates.Some?
    ensures forall id :: id in Names(Discovered(n)) <==> id in Names(Published(s))
  {
    hide Published, Discovered, Name, Belongs;
    forall e ensures e in Discovered(n) <==> e in Published(s) {
      DiscoveredHolds(e, n);
      PublishedHolds(e, s);
      assert e in multiset(Discovered(n)) <==> e in multiset(Published(s));
    }
    SameNames(Discovered(n), Published(s));
    SameNames(Published(s), Discovered(n));
  }

  lemma SameNames(a: seq<Entity>, b: seq<Entity>)
    requires forall e | e in a :: e in b
    ensures forall id | id in Names(a) :: id in Names(b)
  {
    hide Name;
    forall id | id in Names(a) ensures id in Names(b) {
      var i :| 0 <= i < |a| && Names(a)[i] == id;
      assert a[i] in b;
      var j :| 0 <= j < |b| && b[j] == a[i];
      assert Names(b)[j] == id;
    }
  }

  /** Otherwise some entity is named by one of them only. */
  lemma Differ(n: nat, s: Snapshot)
    requires !(|s.cellVoltages| == n && |s.cellResistances| == n && s.cellAggregates.Some?)
    ensures exists id :: (id in Names(Discovered(n))) != (id in Names(Published(s)))
  {
    hide Published, Discovered, Name, Names;
    var v, r := |s.cellVoltages|, |s.cellResistances|;
    var e :=
      if v != n then CellVoltage(1 + if v < n then v else n)
      else if r != n then CellResistance(1 + if r < n then r else n)
      else CellVoltageMin;
    DiscoveredHolds(e, n);
    PublishedHolds(e, s);
    NamesHold(e, Discovered(n));
    NamesHold(e, Published(s));
    assert (Name(e) in Names(Discovered(n))) != (Name(e) in Names(Published(s)));
  }

  /**
   * What the coordinator discovers and what it publishes agree exactly when the configured cell
   * count fits the slots of a frame: discovery does not clamp it, the snapshot does.
   */
  lemma CoordinatorListingsAgree(c: Coordinator, now: Instant)
    requires BuildSnapshot(c, now).Some?
    ensures var n := c.fragments.configOptions.value.cellCount;
      Agree(n, BuildSnapshot(c, now).value) <==> 1 <= n <= TOTAL_CELL_SLOTS
  {
    hide Agree, Aggregate;
    var s := BuildSnapshot(c, now).value;
    ListingsAgree(c.fragments.configOptions.value.cellCount, s);
  }
}
