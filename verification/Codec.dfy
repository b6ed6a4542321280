/** The encoders and decoders of src/jkbms/protocol.rs, against a reader taken from the standard. */
module Codec {
  import opened Wrappers
  import opened JkBmsTypes
  import opened ModbusCrc

  const FRAME_LEN: nat := 300
  const ACK_LEN: nat := 8
  const ALARM_RSP_LEN: nat := 9
  const MAGIC: seq<byte> := [0x55, 0xAA, 0xEB, 0x90]

  datatype ParserError = Length(got: nat) | Magic | Checksum

  // ---- Requests ----

  function Byte0(v: bv32): byte { ((v >> 24) & 0xFF) as byte }
  function Byte1(v: bv32): byte { ((v >> 16) & 0xFF) as byte }
  function Byte2(v: bv32): byte { ((v >> 8) & 0xFF) as byte }
  function Byte3(v: bv32): byte { (v & 0xFF) as byte }

  /** A 32-bit value, most significant byte first. */
  function BigEndian(v: bv32): seq<byte> {
    [Byte0(v), Byte1(v), Byte2(v), Byte3(v)]
  }

  function FromBigEndian(a: byte, b: byte, c: byte, d: byte): bv32 {
    ((a as bv32) << 24) | ((b as bv32) << 16) | ((c as bv32) << 8) | (d as bv32)
  }

  function TriggerBody(slave: byte, reg: bv16): seq<byte> {
    [slave, 0x10, High(reg), Low(reg), 0x00, 0x01, 0x02, 0x00, 0x00]
  }

  function WriteBody(slave: byte, reg: bv16, value: bv32): seq<byte> {
    [slave, 0x10, High(reg), Low(reg), 0x00, 0x02, 0x04] + BigEndian(value)
  }

  method BuildTrigger(slave: byte, reg: bv16) returns (r: seq<byte>)
    ensures r == WithCrc(TriggerBody(slave, reg)) && |r| == 11
  {
    var rh, rl := (reg >> 8) as byte, (reg & 0xFF) as byte;
    r := AppendCrc([slave, 0x10, rh, rl, 0x00, 0x01, 0x02, 0x00, 0x00]);
  }

  method BuildWrite(slave: byte, reg: bv16, value: bv32) returns (r: seq<byte>)
    ensures r == WithCrc(WriteBody(slave, reg, value)) && |r| == 13
  {
    var rh, rl := (reg >> 8) as byte, (reg & 0xFF) as byte;
    var b := BigEndian(value);
    r := [slave, 0x10, rh, rl, 0x00, 0x02, 0x04, b[0], b[1], b[2], b[3]];
    assert r == WriteBody(slave, reg, value);
    r := AppendCrc(r);
  }

  const TRIGGER_DEVICE_INFO: bv16 := 0x161C
  const TRIGGER_CONFIG: bv16 := 0x161E
  const TRIGGER_OPERATIONAL: bv16 := 0x1620
  const CHARGE_SWITCH: bv16 := 0x1070
  const BALANCE_SWITCH: bv16 := 0x1078
  const ALARM_REGISTER: bv16 := 0x12A0

  /** The request a switch command puts on the wire. */
  method EncodeCommand(slave: byte, command: WriteCommand) returns (r: seq<byte>)
    ensures r == WithCrc(CommandBody(slave, command))
  {
    match command {
      case SetCharging(on) => r := BuildWrite(slave, CHARGE_SWITCH, if on then 1 else 0);
      case SetBalancing(on) => r := BuildWrite(slave, BALANCE_SWITCH, if on then 1 else 0);
    }
  }

  function CommandBody(slave: byte, command: WriteCommand): seq<byte> {
    match command
    case SetCharging(on) => WriteBody(slave, CHARGE_SWITCH, if on then 1 else 0)
    case SetBalancing(on) => WriteBody(slave, BALANCE_SWITCH, if on then 1 else 0)
  }

  method EncodeAlarmRead(slave: byte) returns (r: seq<byte>)
    ensures r == WithCrc(AlarmReadBody(slave)) && |r| == 8
  {
    r := AppendCrc([slave, 0x03, 0x12, 0xA0, 0x00, 0x02]);
  }

  function AlarmReadBody(slave: byte): seq<byte> {
    [slave, 0x03, High(ALARM_REGISTER), Low(ALARM_REGISTER), 0x00, 0x02]
  }

  // ---- A reader from the standard ----

  function Word(hi: byte, lo: byte): bv16 {
    ((hi as bv16) << 8) | (lo as bv16)
  }

  function Words(data: seq<byte>): seq<bv16>
  {
    if |data| < 2 then [] else [Word(data[0], data[1])] + Words(data[2..])
  }

  datatype WriteRequest = WriteRequest(slave: byte, start: bv16, values: seq<bv16>)

  /**
   * Function code 0x10 as section 6.12 of the MODBUS Application Protocol V1.1b3 lays it out: start
   * address, quantity of 1 to 123 registers, byte count, registers; then the CRC of the RTU frame.
   */
  function ReadWriteRequest(buf: seq<byte>): Option<WriteRequest> {
    if |buf| < 11 || buf[1] != 0x10 || Crc(buf) != 0 then None else
    var quantity := Word(buf[4], buf[5]) as nat;
    if quantity < 1 || quantity > 123 || buf[6] as nat != 2 * quantity || |buf| != 9 + 2 * quantity then None else
    Some(WriteRequest(buf[0], Word(buf[2], buf[3]), Words(buf[7..7 + 2 * quantity])))
  }

  datatype ReadRequest = ReadRequest(slave: byte, start: bv16, quantity: bv16)

  /** Function code 0x03, section 6.3 of the same document. */
  function ReadReadRequest(buf: seq<byte>): Option<ReadRequest> {
    if |buf| != 8 || buf[1] != 0x03 || Crc(buf) != 0 then None
    else Some(ReadRequest(buf[0], Word(buf[2], buf[3]), Word(buf[4], buf[5])))
  }

  lemma WordOfBytes(w: bv16)
    ensures Word(High(w), Low(w)) == w
  {
  }

  lemma BytesOfWord(hi: byte, lo: byte)
    ensures High(Word(hi, lo)) == hi && Low(Word(hi, lo)) == lo
  {
  }

  lemma BigEndianRoundTrip(v: bv32)
    ensures FromBigEndian(Byte0(v), Byte1(v), Byte2(v), Byte3(v)) == v
  {
  }

  lemma BigEndianBytes(a: byte, b: byte, c: byte, d: byte)
    ensures BigEndian(FromBigEndian(a, b, c, d)) == [a, b, c, d]
  {
  }

  /** The standard's reader recovers slave and register from every trigger, and the value zero. */
  lemma TriggerReadsBack(slave: byte, reg: bv16)
    ensures ReadWriteRequest(WithCrc(TriggerBody(slave, reg))) == Some(WriteRequest(slave, reg, [0]))
  {
    var buf := WithCrc(TriggerBody(slave, reg));
    Residue(TriggerBody(slave, reg));
    WordOfBytes(reg);
    hide Crc, High, Low;
    assert Word(0, 1) == 1 && Word(0, 0) == 0;
    assert Words(buf[7..9]) == [Word(0, 0)];
  }

  /** The three polls address the registers of device info, configuration and operational data. */
  lemma PollsReadBack(slave: byte)
    ensures ReadWriteRequest(WithCrc(TriggerBody(slave, TRIGGER_DEVICE_INFO))) == Some(WriteRequest(slave, 0x161C, [0]))
    ensures ReadWriteRequest(WithCrc(TriggerBody(slave, TRIGGER_CONFIG))) == Some(WriteRequest(slave, 0x161E, [0]))
    ensures ReadWriteRequest(WithCrc(TriggerBody(slave, TRIGGER_OPERATIONAL))) == Some(WriteRequest(slave, 0x1620, [0]))
  {
    hide ReadWriteRequest, WithCrc, TriggerBody;
    TriggerReadsBack(slave, TRIGGER_DEVICE_INFO);
    TriggerReadsBack(slave, TRIGGER_CONFIG);
    TriggerReadsBack(slave, TRIGGER_OPERATIONAL);
  }

  /** And from every write, with the value split over two registers, high word first. */
  lemma WriteReadsBack(slave: byte, reg: bv16, v: bv32)
    ensures var r := ReadWriteRequest(WithCrc(WriteBody(slave, reg, v)));
      && r == Some(WriteRequest(slave, reg, [Word(Byte0(v), Byte1(v)), Word(Byte2(v), Byte3(v))]))
      && FromBigEndian(Byte0(v), Byte1(v), Byte2(v), Byte3(v)) == v
  {
    var buf := WithCrc(WriteBody(slave, reg, v));
    Residue(WriteBody(slave, reg, v));
    WordOfBytes(reg);
    BigEndianRoundTrip(v);
    hide Crc, High, Low, Byte0, Byte1, Byte2, Byte3, FromBigEndian;
    assert Word(0, 2) == 2;
    var data := buf[7..11];
    assert data == [Byte0(v), Byte1(v), Byte2(v), Byte3(v)];
    assert Words(data) == [Word(data[0], data[1])] + Words(data[2..]);
    assert Words(data[2..]) == [Word(data[2], data[3])] + Words(data[2..][2..]);
    assert Words(data) == [Word(data[0], data[1]), Word(data[2], data[3])];
  }

  /** The switch command a write request means to a BMS: one of two registers, set to 0 or 1. */
  function CommandIn(buf: seq<byte>): Option<(byte, WriteCommand)> {
    match ReadWriteRequest(buf)
    case None => None
    case Some(WriteRequest(slave, start, values)) =>
      if values != [0, 0] && values != [0, 1] then None
      else if start == 0x1070 then Some((slave, SetCharging(values[1] == 1)))
      else if start == 0x1078 then Some((slave, SetBalancing(values[1] == 1)))
      else None
  }

  /** So the BMS is told exactly the command that was asked for. */
  lemma CommandReadsBack(slave: byte, command: WriteCommand)
    ensures CommandIn(WithCrc(CommandBody(slave, command))) == Some((slave, command))
  {
    var v: bv32 := if command.on then 1 else 0;
    WriteReadsBack(slave, if command.SetCharging? then CHARGE_SWITCH else BALANCE_SWITCH, v);
    SwitchWords(command.on);
    hide ReadWriteRequest, WithCrc, WriteBody, Word, Byte0, Byte1, Byte2, Byte3, FromBigEndian;
  }

  lemma SwitchWords(on: bool)
    ensures var v: bv32 := if on then 1 else 0;
      Word(Byte0(v), Byte1(v)) == 0 && Word(Byte2(v), Byte3(v)) == if on then 1 else 0
  {
  }

  lemma AlarmReadsBack(slave: byte)
    ensures ReadReadRequest(WithCrc(AlarmReadBody(slave))) == Some(ReadRequest(slave, 0x12A0, 2))
  {
    Residue(AlarmReadBody(slave));
    WordOfBytes(ALARM_REGISTER);
    hide Crc, High, Low;
    assert Word(0, 2) == 2;
  }

  /** The CRC bytes are the only ones that make a buffer valid. */
  lemma CrcIsUnique(data: seq<byte>, lo: byte, hi: byte)
    requires Crc(data + [lo, hi]) == 0
    ensures data + [lo, hi] == WithCrc(data)
  {
    hide Crc, Low, High;
    Residue(data);
    var c := Crc(data);
    assert data + [lo, hi] + [] == data + [lo, hi];
    assert data + [Low(c), High(c)] + [] == WithCrc(data);
    if [lo, hi] != [Low(c), High(c)] {
      AdjacentBytesDetected(data, [lo, hi], [Low(c), High(c)], []);
    }
  }

  // ---- Responses ----

  predicate DecodeWriteAck(slave: byte, buf: seq<byte>)
    requires |buf| == ACK_LEN
  {
    buf[0] == slave && buf[1] == 0x10
  }

  /** The response to an alarm read, section 6.3: byte count 4 and the value, then the CRC. */
  function AlarmResponse(slave: byte, v: bv32): seq<byte> {
    WithCrc([slave, 0x03, 0x04] + BigEndian(v))
  }

  method DecodeAlarmResponse(slave: byte, buf: seq<byte>) returns (r: Option<bv32>)
    requires |buf| == ALARM_RSP_LEN
    ensures r == DecodedAlarm(slave, buf)
    ensures forall v :: r == Some(v) <==> buf == AlarmResponse(slave, v)
  {
    forall v ensures DecodedAlarm(slave, buf) == Some(v) <==> buf == AlarmResponse(slave, v) {
      AlarmDecodesItsEncoding(slave, buf, v);
    }
    hide Crc, AlarmResponse;
    if buf[0] != slave || buf[1] != 0x03 || buf[2] != 0x04 {
      return None;
    }
    var expected := Crc16(buf[..7]);
    var got := LittleEndian(buf[7], buf[8]);
    if expected != got {
      return None;
    }
    return Some(FromBigEndian(buf[3], buf[4], buf[5], buf[6]));
  }

  function LittleEndian(lo: byte, hi: byte): bv16 {
    (lo as bv16) | ((hi as bv16) << 8)
  }

  function DecodedAlarm(slave: byte, buf: seq<byte>): Option<bv32>
    requires |buf| == ALARM_RSP_LEN
  {
    if buf[0] != slave || buf[1] != 0x03 || buf[2] != 0x04 then None
    else if Crc(buf[..7]) != LittleEndian(buf[7], buf[8]) then None
    else Some(FromBigEndian(buf[3], buf[4], buf[5], buf[6]))
  }

  lemma LittleEndianIsWord(lo: byte, hi: byte)
    ensures LittleEndian(lo, hi) == Word(hi, lo)
  {
  }

  lemma LittleEndianCrc(c: bv16, lo: byte, hi: byte)
    ensures c == LittleEndian(lo, hi) <==> lo == Low(c) && hi == High(c)
  {
    hide LittleEndian, Word, Low, High;
    LittleEndianIsWord(lo, hi);
    WordOfBytes(c);
    BytesOfWord(hi, lo);
  }

  lemma AlarmEncodes(slave: byte, v: bv32)
    ensures DecodedAlarm(slave, AlarmResponse(slave, v)) == Some(v)
  {
    var body := [slave, 0x03, 0x04] + BigEndian(v);
    BigEndianRoundTrip(v);
    LittleEndianCrc(Crc(body), Low(Crc(body)), High(Crc(body)));
    hide Crc, Low, High, Byte0, Byte1, Byte2, Byte3, FromBigEndian, LittleEndian;
    assert AlarmResponse(slave, v)[..7] == body;
  }

  lemma AlarmEncodesOnly(slave: byte, buf: seq<byte>, v: bv32)
    requires |buf| == ALARM_RSP_LEN && DecodedAlarm(slave, buf) == Some(v)
    ensures buf == AlarmResponse(slave, v)
  {
    BigEndianBytes(buf[3], buf[4], buf[5], buf[6]);
    LittleEndianCrc(Crc(buf[..7]), buf[7], buf[8]);
    hide Crc, Low, High, BigEndian, FromBigEndian, LittleEndian;
    assert [buf[0], buf[1], buf[2]] + [buf[3], buf[4], buf[5], buf[6]] == buf[..7];
    assert buf == buf[..7] + [buf[7], buf[8]];
  }

  /** The decoder accepts exactly one buffer for each value and slave. */
  lemma AlarmDecodesItsEncoding(slave: byte, buf: seq<byte>, v: bv32)
    requires |buf| == ALARM_RSP_LEN
    ensures DecodedAlarm(slave, buf) == Some(v) <==> buf == AlarmResponse(slave, v)
  {
    hide DecodedAlarm, AlarmResponse;
    AlarmEncodes(slave, v);
    if DecodedAlarm(slave, buf) == Some(v) {
      AlarmEncodesOnly(slave, buf, v);
    }
  }

  // ---- JK frames ----

  function Sum8(data: seq<byte>): byte {
    if data == [] then 0 else Sum8(data[..|data| - 1]) + data[|data| - 1]
  }

  predicate IsFrame(frame: seq<byte>) {
    |frame| == FRAME_LEN && frame[..4] == MAGIC && frame[299] == Sum8(frame[..299])
  }

  method Validate(frame: seq<byte>) returns (e: Option<ParserError>)
    ensures e == None <==> IsFrame(frame)
    ensures e == None <==>
      |frame| == 300 && frame[..4] == [0x55, 0xAA, 0xEB, 0x90] && frame[299] == Sum8(frame[..299])
    ensures |frame| != FRAME_LEN ==> e == Some(Length(|frame|))
    ensures |frame| == FRAME_LEN && frame[..4] != MAGIC ==> e == Some(Magic)
    ensures |frame| == FRAME_LEN && frame[..4] == MAGIC && !IsFrame(frame) ==> e == Some(Checksum)
  {
    if |frame| != FRAME_LEN {
      return Some(Length(|frame|));
    }
    if frame[..4] != MAGIC {
      return Some(Magic);
    }
    var sum: byte := 0;
    for i := 0 to 299
      invariant sum == Sum8(frame[..i])
    {
      assert frame[..i + 1][..i] == frame[..i];
      sum := sum + frame[i];
    }
    if frame[299] != sum {
      return Some(Checksum);
    }
    return None;
  }

  lemma AddCancels(a: byte, b: byte, c: byte)
    ensures a + c == b + c ==> a == b
    ensures c + a == c + b ==> a == b
  {
  }

  lemma {:induction false} SumSeesEveryByte(data: seq<byte>, i: nat, b: byte)
    requires i < |data| && b != data[i]
    ensures Sum8(data[i := b]) != Sum8(data)
    decreases |data|
  {
    var n := |data| - 1;
    if i == n {
      assert data[i := b][..n] == data[..n];
      AddCancels(b, data[n], Sum8(data[..n]));
    } else {
      assert data[i := b][..n] == data[..n][i := b];
      SumSeesEveryByte(data[..n], i, b);
      AddCancels(Sum8(data[..n][i := b]), Sum8(data[..n]), data[n]);
    }
  }

  /** Changing any one byte of an accepted frame makes it rejected. */
  lemma OneByteIsNoticed(frame: seq<byte>, i: nat, b: byte)
    requires IsFrame(frame) && i < FRAME_LEN && b != frame[i]
    ensures !IsFrame(frame[i := b])
  {
    var damaged := frame[i := b];
    if i < 299 {
      SumSeesEveryByte(frame[..299], i, b);
      assert damaged[..299] == frame[..299][i := b];
    } else {
      assert damaged[..299] == frame[..299];
    }
  }
}
