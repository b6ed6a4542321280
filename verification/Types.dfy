/** Optional values, used where the source uses `Option`. */
module Wrappers {
  datatype Option<+T> = None | Some(value: T)
}

/** Values that cross the boundary between the serial side and the coordinator. */
module JkBmsTypes {
  import opened Wrappers

  /** A point on the runtime clock, in nanoseconds. */
  type Instant = nat

  const MILLISECOND: nat := 1_000_000
  const SECOND: nat := 1_000_000_000

  function Min(a: nat, b: nat): (m: nat)
    ensures m <= a && m <= b && (m == a || m == b)
  {
    if a < b then a else b
  }

  /** Cells a BMS frame has room for, whatever the pack's own cell count. */
  const TOTAL_CELL_SLOTS: nat := 16

  datatype WriteCommand = SetCharging(on: bool) | SetBalancing(on: bool)

  datatype ConnectionState = Connected | Reconnecting | Disconnected

  datatype DeviceInfo = DeviceInfo(model: string, powerCycleCount: nat)

  datatype ConfigOptions = ConfigOptions(
    cellCount: nat, batteryCapacity: real, chargingSwitch: bool, balanceSwitch: bool)

  /** Readings are exact numbers in volts, amperes, ohms and degrees; cells have one per slot. */
  datatype OperationalReadings = OperationalReadings(
    cellVoltages: seq<real>,
    cellResistances: seq<real>,
    totalVoltage: real,
    totalCurrent: real,
    soc: nat,
    soh: nat,
    capacityRemaining: real,
    totalCycleCapacity: real,
    chargingCycles: int,
    totalRuntime: nat,
    mosTemperature: real,
    temperature1: real,
    temperature2: real,
    temperature4: real,
    temperature5: real,
    balancingCurrent: real,
    balancingActive: bool,
    chargingSwitch: bool)

  type OperationalData = op: OperationalReadings |
      |op.cellVoltages| == TOTAL_CELL_SLOTS && |op.cellResistances| == TOTAL_CELL_SLOTS
    witness OperationalReadings(
      seq(TOTAL_CELL_SLOTS, _ => 0.0), seq(TOTAL_CELL_SLOTS, _ => 0.0),
      0.0, 0.0, 0, 0, 0.0, 0.0, 0, 0, 0.0, 0.0, 0.0, 0.0, 0.0, 0.0, false, false)

  datatype JkBmsData =
    | Info(info: DeviceInfo)
    | Config(config: ConfigOptions)
    | Operational(operational: OperationalData)
    | Alarms(raw: nat)

  /**
   * Why a write was answered with an error.  The source's event carries the sequence number
   * alone; the cause is an annotation of the model that no transition reads.
   */
  datatype Cause = Expired | Capped | QueueFull

  datatype JkBmsEvent =
    | Connection(state: ConnectionState)
    | Data(data: JkBmsData)
    | WriteConfirmation(seqNo: nat, readback: ConfigOptions)
    | WriteError(seqNo: nat, cause: Cause)

  /** Only I/O errors other than a timeout are hard. */
  datatype JkBmsError = Io(timedOut: bool) | Parse | NotConnected
  {
    predicate IsHardIo() {
      Io? && !timedOut
    }
  }

  /** The answer of one call to the opener or the protocol, and how long the call took. */
  datatype Answer<+T> = Ok(value: T, took: nat) | Err(error: JkBmsError, took: nat)
}
