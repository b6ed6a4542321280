/**
 * The CRC-16 of Modbus RTU (src/jkbms/protocol.rs): the loop that computes it, and what it
 * detects.  Bits are taken least significant first, as the register consumes them.
 */
module ModbusCrc {
  type byte = bv8

  const POLYNOMIAL: bv16 := 0xA001
  const INIT: bv16 := 0xFFFF

  // ---- The register ----

  function Xor(a: bv16, b: bv16): bv16 {
    a ^ b
  }

  predicate Odd(c: bv16) {
    c & 1 != 0
  }

  function Half(c: bv16): bv16 {
    c >> 1
  }

  function Shift(c: bv16): bv16 {
    if Odd(c) then Xor(Half(c), POLYNOMIAL) else Half(c)
  }

  function Shifts(c: bv16, n: nat): bv16
    decreases n
  {
    if n == 0 then c else Shifts(Shift(c), n - 1)
  }

  function CrcFrom(c: bv16, data: seq<byte>): bv16
    decreases data
  {
    if data == [] then c else CrcFrom(Shifts(Xor(c, data[0] as bv16), 8), data[1..])
  }

  function Crc(data: seq<byte>): bv16 {
    CrcFrom(INIT, data)
  }

  method Crc16(data: seq<byte>) returns (crc: bv16)
    ensures crc == Crc(data)
  {
    hide Xor, Odd, Half;
    crc := INIT;
    for i := 0 to |data|
      invariant CrcFrom(crc, data[i..]) == Crc(data)
    {
      var entry := crc;
      crc := Xor(crc, data[i] as bv16);
      for k := 0 to 8
        invariant Shifts(crc, 8 - k) == Shifts(Xor(entry, data[i] as bv16), 8)
      {
        if Odd(crc) {
          crc := Xor(Half(crc), POLYNOMIAL);
        } else {
          crc := Half(crc);
        }
      }
      assert data[i..][1..] == data[i + 1..];
    }
  }

  function Low(c: bv16): byte {
    (c & 0xFF) as byte
  }

  function High(c: bv16): byte {
    (c >> 8) as byte
  }

  /** A message followed by its CRC, low byte first. */
  function WithCrc(data: seq<byte>): seq<byte> {
    data + [Low(Crc(data)), High(Crc(data))]
  }

  method AppendCrc(buf: seq<byte>) returns (r: seq<byte>)
    ensures r == WithCrc(buf)
  {
    var crc := Crc16(buf);
    r := buf + [(crc & 0xFF) as byte];
    r := r + [(crc >> 8) as byte];
  }

  // ---- Residue ----

  lemma {:induction false} CrcConcat(c: bv16, a: seq<byte>, b: seq<byte>)
    ensures CrcFrom(c, a + b) == CrcFrom(CrcFrom(c, a), b)
    decreases a
  {
    if a == [] {
      assert a + b == b;
    } else {
      assert (a + b)[1..] == a[1..] + b;
      CrcConcat(Shifts(Xor(c, a[0] as bv16), 8), a[1..], b);
    }
  }

  function Halves(c: bv16, n: nat): bv16
    decreases n
  {
    if n == 0 then c else Halves(Half(c), n - 1)
  }

  /** The `n` lowest bits are clear. */
  predicate LowClear(c: bv16, n: nat)
    decreases n
  {
    n == 0 || (!Odd(c) && LowClear(Half(c), n - 1))
  }

  /** Clear bits shift out without feedback. */
  lemma {:induction false} ShiftsOfClear(c: bv16, n: nat)
    requires LowClear(c, n)
    ensures Shifts(c, n) == Halves(c, n)
    decreases n
  {
    hide Odd, Half, Xor;
    if n > 0 {
      ShiftsOfClear(Half(c), n - 1);
    }
  }

  lemma HalvesBy(c: bv16)
    ensures Half(c) == c >> 1 && Half(c >> 1) == c >> 2 && Half(c >> 2) == c >> 3 && Half(c >> 3) == c >> 4
    ensures Half(c >> 4) == c >> 5 && Half(c >> 5) == c >> 6 && Half(c >> 6) == c >> 7 && Half(c >> 7) == c >> 8
  {
  }

  lemma EightHalves(c: bv16)
    ensures Halves(c, 8) == c >> 8
  {
    HalvesBy(c);
    hide Half;
    assert Halves(c, 8) == Halves(c >> 1, 7) == Halves(c >> 2, 6) == Halves(c >> 3, 5) == Halves(c >> 4, 4);
    assert Halves(c >> 4, 4) == Halves(c >> 5, 3) == Halves(c >> 6, 2) == Halves(c >> 7, 1) == Halves(c >> 8, 0);
  }

  lemma EvenBits(c: bv16)
    requires c & 0xFF00 == c
    ensures !Odd(c) && !Odd(c >> 1) && !Odd(c >> 2) && !Odd(c >> 3)
    ensures !Odd(c >> 4) && !Odd(c >> 5) && !Odd(c >> 6) && !Odd(c >> 7)
  {
  }

  lemma HighByteOnly(c: bv16)
    requires c & 0xFF00 == c
    ensures Shifts(c, 8) == c >> 8
  {
    HalvesBy(c);
    EvenBits(c);
    EightHalves(c);
    assert LowClear(c, 8) by {
      hide Half, Odd;
      assert LowClear(c >> 8, 0);
      assert LowClear(c >> 6, 2) == (!Odd(c >> 6) && LowClear(c >> 7, 1));
      assert LowClear(c >> 4, 4) == (!Odd(c >> 4) && LowClear(c >> 5, 3));
      assert LowClear(c >> 2, 6) == (!Odd(c >> 2) && LowClear(c >> 3, 5));
    }
    ShiftsOfClear(c, 8);
  }

  lemma CancelLow(c: bv16)
    ensures Xor(c, Low(c) as bv16) & 0xFF00 == Xor(c, Low(c) as bv16)
    ensures Xor(c, Low(c) as bv16) >> 8 == High(c) as bv16
  {
  }

  function ByteStep(c: bv16, b: byte): bv16 {
    Shifts(Xor(c, b as bv16), 8)
  }

  lemma TwoBytes(c: bv16, x: byte, y: byte)
    ensures CrcFrom(c, [x, y]) == ByteStep(ByteStep(c, x), y)
  {
    hide Shifts, Xor;
    assert [x, y][1..] == [y];
    assert CrcFrom(c, [x, y]) == CrcFrom(ByteStep(c, x), [y]);
    assert CrcFrom(ByteStep(c, x), [y]) == CrcFrom(ByteStep(ByteStep(c, x), y), []);
  }

  lemma OwnLowByte(c: bv16)
    ensures ByteStep(c, Low(c)) == High(c) as bv16
  {
    hide Shifts, Xor, Low, High;
    CancelLow(c);
    HighByteOnly(Xor(c, Low(c) as bv16));
  }

  lemma OwnHighByte(b: byte)
    ensures ByteStep(b as bv16, b) == 0
  {
    XorSelf(b as bv16);
    hide Shifts, Xor;
    HighByteOnly(0);
  }

  lemma XorSelf(c: bv16)
    ensures Xor(c, c) == 0
  {
  }

  /** A message followed by its own CRC has CRC zero, whatever the message and its length. */
  lemma Residue(data: seq<byte>)
    ensures Crc(WithCrc(data)) == 0
  {
    hide ByteStep, Low, High;
    var c := Crc(data);
    CrcConcat(INIT, data, [Low(c), High(c)]);
    TwoBytes(c, Low(c), High(c));
    OwnLowByte(c);
    OwnHighByte(High(c));
  }

  // ---- Bit by bit ----

  /** One bit into the register. */
  function BitStep(c: bv16, bit: bool): bv16 {
    Shift(if bit then Xor(c, 1) else c)
  }

  function BitCrc(c: bv16, bits: seq<bool>): bv16
    decreases bits
  {
    if bits == [] then c else BitCrc(BitStep(c, bits[0]), bits[1..])
  }

  /** The `n` lowest bits of `b`, lowest first. */
  function LowBits(b: bv16, n: nat): (bits: seq<bool>)
    ensures |bits| == n
    decreases n
  {
    if n == 0 then [] else [Odd(b)] + LowBits(Half(b), n - 1)
  }

  function Bits(data: seq<byte>): (bits: seq<bool>)
    ensures |bits| == 8 * |data|
  {
    if data == [] then [] else LowBits(data[0] as bv16, 8) + Bits(data[1..])
  }

  lemma XorCancel(p: bv16, q: bv16, k: bv16)
    ensures Xor(Xor(p, k), Xor(q, k)) == Xor(p, q)
  {
    assert (p ^ k) ^ (q ^ k) == p ^ q;
  }

  lemma XorLeft(p: bv16, q: bv16, k: bv16)
    ensures Xor(Xor(p, k), q) == Xor(Xor(p, q), k)
  {
    assert (p ^ k) ^ q == (p ^ q) ^ k;
  }

  lemma XorRight(p: bv16, q: bv16, k: bv16)
    ensures Xor(p, Xor(q, k)) == Xor(Xor(p, q), k)
  {
    assert p ^ (q ^ k) == (p ^ q) ^ k;
  }

  lemma HalfLinear(p: bv16, q: bv16)
    ensures Half(Xor(p, q)) == Xor(Half(p), Half(q))
  {
  }

  lemma OddLinear(p: bv16, q: bv16)
    ensures Odd(Xor(p, q)) == (Odd(p) != Odd(q))
  {
    assert (p ^ q) & 1 == (p & 1) ^ (q & 1);
    assert p & 1 == 0 || p & 1 == 1;
    assert q & 1 == 0 || q & 1 == 1;
  }

  /** The register is linear over exclusive or. */
  lemma ShiftLinear(a: bv16, b: bv16)
    ensures Shift(Xor(a, b)) == Xor(Shift(a), Shift(b))
  {
    hide Xor, Odd, Half;
    HalfLinear(a, b);
    OddLinear(a, b);
    XorCancel(Half(a), Half(b), POLYNOMIAL);
    XorLeft(Half(a), Half(b), POLYNOMIAL);
    XorRight(Half(a), Half(b), POLYNOMIAL);
  }

  lemma BitLinear(a: bv16, b: bv16, x: bool, y: bool)
    ensures Xor(BitStep(a, x), BitStep(b, y)) == BitStep(Xor(a, b), x != y)
  {
    hide Xor, Shift;
    ShiftLinear(if x then Xor(a, 1) else a, if y then Xor(b, 1) else b);
    XorCancel(a, b, 1);
    XorLeft(a, b, 1);
    XorRight(a, b, 1);
  }

  lemma SplitLowBit(b: bv16)
    ensures b == if Odd(b) then Xor(b & 0xFFFE, 1) else b & 0xFFFE
    ensures !Odd(b & 0xFFFE) && Half(b & 0xFFFE) == Half(b)
  {
  }

  /** Feeding a word at once is feeding its lowest bit and keeping the rest for later. */
  lemma OneBit(c: bv16, b: bv16)
    ensures Shift(Xor(c, b)) == Xor(BitStep(c, Odd(b)), Half(b))
  {
    hide Xor, Odd, Half, Shift;
    var even := b & 0xFFFE;
    SplitLowBit(b);
    assert Shift(even) == Half(b) by { ShiftOfEven(even); }
    if Odd(b) {
      XorRight(c, even, 1);
      XorLeft(c, even, 1);
      ShiftLinear(Xor(c, 1), even);
    } else {
      ShiftLinear(c, even);
    }
  }

  lemma ShiftOfEven(c: bv16)
    ensures !Odd(c) ==> Shift(c) == Half(c)
  {
  }

  lemma {:induction false} WordByBits(c: bv16, b: bv16, n: nat)
    ensures Shifts(Xor(c, b), n) == Xor(BitCrc(c, LowBits(b, n)), Halves(b, n))
    decreases n
  {
    hide Xor, Odd, Half, Shift, BitStep;
    if n > 0 {
      OneBit(c, b);
      WordByBits(BitStep(c, Odd(b)), Half(b), n - 1);
      assert LowBits(b, n)[1..] == LowBits(Half(b), n - 1);
    }
  }

  lemma ByteVanishes(b: byte)
    ensures Halves(b as bv16, 8) == 0
  {
    hide Halves;
    EightHalves(b as bv16);
  }

  lemma XorZero(c: bv16)
    ensures Xor(c, 0) == c
  {
  }

  lemma {:induction false} BitConcat(c: bv16, a: seq<bool>, b: seq<bool>)
    ensures BitCrc(c, a + b) == BitCrc(BitCrc(c, a), b)
    decreases a
  {
    hide BitStep;
    if a == [] {
      assert a + b == b;
    } else {
      assert (a + b)[1..] == a[1..] + b;
      BitConcat(BitStep(c, a[0]), a[1..], b);
    }
  }

  /** The byte-wise loop computes the bit-serial CRC. */
  lemma {:induction false} BytesAreBits(c: bv16, data: seq<byte>)
    ensures CrcFrom(c, data) == BitCrc(c, Bits(data))
    decreases data
  {
    hide Xor, Shifts, LowBits, Halves;
    if data != [] {
      var b := data[0] as bv16;
      WordByBits(c, b, 8);
      ByteVanishes(data[0]);
      XorZero(BitCrc(c, LowBits(b, 8)));
      BitConcat(c, LowBits(b, 8), Bits(data[1..]));
      BytesAreBits(BitCrc(c, LowBits(b, 8)), data[1..]);
    }
  }

  // ---- What the CRC is ----

  /** What the powers x^15, x^2 and 1 contribute at place `i` of a remainder, highest power first. */
  predicate Generator(i: nat) {
    i == 0 || i == 13 || i == 15
  }

  /**
   * One step of the long division by x^16 + x^15 + x^2 + 1 that section 6.2.2 of MODBUS over Serial
   * Line V1.02 prescribes, on the sixteen coefficients of the remainder, highest power first.
   */
  function DivisionStep(r: seq<bool>, bit: bool): (r': seq<bool>)
    requires |r| == 16
    ensures |r'| == 16
  {
    var up := r[1..] + [false];
    if r[0] != bit then seq(16, i requires 0 <= i < 16 => up[i] != Generator(i)) else up
  }

  function Remainder(r: seq<bool>, bits: seq<bool>): (r': seq<bool>)
    requires |r| == 16
    ensures |r'| == 16
    decreases bits
  {
    if bits == [] then r else Remainder(DivisionStep(r, bits[0]), bits[1..])
  }

  function BitAt(c: bv16, i: nat): bool {
    Odd(Halves(c, i))
  }

  lemma {:induction false} LowBitsAt(c: bv16, n: nat, i: nat)
    requires i < n
    ensures LowBits(c, n)[i] == BitAt(c, i)
    decreases n
  {
    hide Odd, Half;
    if i > 0 {
      LowBitsAt(Half(c), n - 1, i - 1);
    }
  }

  lemma {:induction false} HalvesLinear(a: bv16, b: bv16, i: nat)
    ensures Halves(Xor(a, b), i) == Xor(Halves(a, i), Halves(b, i))
    decreases i
  {
    hide Xor, Half;
    if i > 0 {
      HalfLinear(a, b);
      HalvesLinear(Half(a), Half(b), i - 1);
    }
  }

  lemma BitLinearAt(a: bv16, b: bv16, i: nat)
    ensures BitAt(Xor(a, b), i) == (BitAt(a, i) != BitAt(b, i))
  {
    hide Xor, Odd, Halves;
    HalvesLinear(a, b, i);
    OddLinear(Halves(a, i), Halves(b, i));
  }

  /** The feedback constant holds the generator's powers below x^16. */
  lemma PolynomialBits(i: nat)
    requires i < 16
    ensures BitAt(POLYNOMIAL, i) == Generator(i)
  {
    HalvesShift(POLYNOMIAL, i);
    ConstantBits(i as bv16);
  }

  lemma ConstantBits(k: bv16)
    requires k < 16
    ensures ((POLYNOMIAL >> k) & 1 != 0) == (k == 0 || k == 13 || k == 15)
    ensures (INIT >> k) & 1 != 0
    ensures ((1 >> k) & 1 != (0 as bv16)) == (k == 0)
  {
  }

  lemma {:induction false} HalvesShift(c: bv16, n: nat)
    requires n < 16
    ensures Halves(c, n) == c >> (n as bv16)
    decreases n
  {
    if n > 0 {
      HalvesShift(Half(c), n - 1);
      ShiftOnce(c, n as bv16);
    }
  }

  lemma ShiftOnce(c: bv16, n: bv16)
    requires 0 < n < 16
    ensures (c >> 1) >> (n - 1) == c >> n
  {
  }

  lemma HalfMovesUp(c: bv16, i: nat)
    requires i < 16
    ensures BitAt(Half(c), i) == (i < 15 && BitAt(c, i + 1))
  {
    if i == 15 {
      HalvesShift(Half(c), 15);
      assert ((c >> 1) >> 15) & 1 == 0;
    }
  }

  lemma ShiftDivides(c: bv16)
    ensures LowBits(Shift(c), 16) == DivisionStep(LowBits(c, 16), false)
  {
    hide Xor, Odd, Half, Halves, LowBits, BitAt, Generator;
    LowBitsAt(c, 16, 0);
    FirstBit(c);
    forall i: nat | i < 16 ensures LowBits(Shift(c), 16)[i] == DivisionStep(LowBits(c, 16), false)[i] {
      LowBitsAt(Shift(c), 16, i);
      HalfMovesUp(c, i);
      PolynomialBits(i);
      BitLinearAt(Half(c), POLYNOMIAL, i);
      if i < 15 {
        LowBitsAt(c, 16, i + 1);
      }
    }
  }

  lemma FirstBit(c: bv16)
    ensures BitAt(c, 0) == Odd(c)
  {
  }

  lemma OneFlipsTheFirst(c: bv16, i: nat)
    requires i < 16
    ensures BitAt(Xor(c, 1), i) == (if i == 0 then !BitAt(c, 0) else BitAt(c, i))
  {
    BitLinearAt(c, 1, i);
    HalvesShift(1, i);
    ConstantBits(i as bv16);
  }

  /** A message bit that meets the highest coefficient decides with it whether to subtract. */
  lemma StepDivides(c: bv16, bit: bool)
    ensures LowBits(BitStep(c, bit), 16) == DivisionStep(LowBits(c, 16), bit)
  {
    hide Xor, Shift, LowBits, BitAt, Generator;
    ShiftDivides(c);
    if bit {
      ShiftDivides(Xor(c, 1));
      var r, r' := LowBits(c, 16), LowBits(Xor(c, 1), 16);
      forall i: nat | i < 16 ensures r'[i] == if i == 0 then !r[0] else r[i] {
        LowBitsAt(c, 16, i);
        LowBitsAt(Xor(c, 1), 16, i);
        OneFlipsTheFirst(c, i);
      }
      assert r'[1..] == r[1..];
    }
  }

  lemma {:induction false} BitsDivide(c: bv16, bits: seq<bool>)
    ensures LowBits(BitCrc(c, bits), 16) == Remainder(LowBits(c, 16), bits)
    decreases bits
  {
    hide LowBits, BitStep, DivisionStep;
    if bits != [] {
      StepDivides(c, bits[0]);
      BitsDivide(BitStep(c, bits[0]), bits[1..]);
    }
  }

  lemma OnesAreSet()
    ensures LowBits(INIT, 16) == seq(16, _ => true)
  {
    forall i: nat | i < 16 ensures LowBits(INIT, 16)[i] {
      LowBitsAt(INIT, 16, i);
      HalvesShift(INIT, i);
      ConstantBits(i as bv16);
    }
  }

  /** The register, lowest bit first, is the remainder of the message started from sixteen ones. */
  lemma CrcIsRemainder(data: seq<byte>)
    ensures LowBits(Crc(data), 16) == Remainder(seq(16, _ => true), Bits(data))
  {
    hide LowBits, CrcFrom, BitCrc, Bits;
    OnesAreSet();
    BytesAreBits(INIT, data);
    BitsDivide(INIT, Bits(data));
  }

  // ---- What the CRC detects ----

  function Diff(x: seq<bool>, y: seq<bool>): (d: seq<bool>)
    requires |x| == |y|
    ensures |d| == |x| && forall i | 0 <= i < |d| :: d[i] == (x[i] != y[i])
  {
    if x == [] then [] else [x[0] != y[0]] + Diff(x[1..], y[1..])
  }

  /** The difference of two registers is the register of the difference. */
  lemma {:induction false} DifferenceLinear(a: bv16, b: bv16, x: seq<bool>, y: seq<bool>)
    requires |x| == |y|
    ensures Xor(BitCrc(a, x), BitCrc(b, y)) == BitCrc(Xor(a, b), Diff(x, y))
    decreases x
  {
    hide Xor, BitStep;
    if x != [] {
      BitLinear(a, b, x[0], y[0]);
      DifferenceLinear(BitStep(a, x[0]), BitStep(b, y[0]), x[1..], y[1..]);
      assert Diff(x, y)[1..] == Diff(x[1..], y[1..]);
    }
  }

  lemma ShiftNonzero(c: bv16)
    ensures c != 0 ==> Shift(c) != 0
  {
  }

  /** A difference, once there, never shifts away. */
  lemma {:induction false} DifferenceStays(d: bv16, e: seq<bool>)
    requires forall i | 0 <= i < |e| :: !e[i]
    ensures d != 0 ==> BitCrc(d, e) != 0
    ensures d == 0 ==> BitCrc(d, e) == 0
    decreases e
  {
    hide Shift;
    if e != [] {
      ShiftNonzero(d);
      assert Shift(0) == 0 by { ShiftOfZero(0); }
      DifferenceStays(BitStep(d, e[0]), e[1..]);
    }
  }

  lemma ShiftOfZero(c: bv16)
    ensures c == 0 ==> Shift(c) == 0
  {
  }

  /** The register fits in its `n` lowest bits. */
  predicate Fits(c: bv16, n: nat) {
    Halves(c, n) == 0
  }

  lemma {:induction false} HalvesOfZero(c: bv16, n: nat)
    ensures c == 0 ==> Halves(c, n) == 0
    decreases n
  {
    if n > 0 {
      HalvesOfZero(Half(c), n - 1);
    }
  }

  lemma {:induction false} FitsMore(c: bv16, n: nat, k: nat)
    requires Fits(c, n) && n <= k
    ensures Fits(c, k)
    decreases n
  {
    hide Half;
    if n == 0 {
      HalvesOfZero(c, k);
    } else {
      FitsMore(Half(c), n - 1, k - 1);
    }
  }

  lemma SevenHalves(c: bv16)
    ensures Halves(c, 7) == c >> 7
  {
    HalvesBy(c);
    hide Half;
    assert Halves(c, 7) == Halves(c >> 1, 6) == Halves(c >> 2, 5) == Halves(c >> 3, 4) == Halves(c >> 4, 3);
    assert Halves(c >> 4, 3) == Halves(c >> 5, 2) == Halves(c >> 6, 1) == Halves(c >> 7, 0);
  }

  lemma {:induction false} HalvesCompose(c: bv16, n: nat, k: nat)
    ensures Halves(c, n + k) == Halves(Halves(c, n), k)
    decreases n
  {
    hide Half;
    if n > 0 {
      HalvesCompose(Half(c), n - 1, k);
    }
  }

  lemma TopBit(c: bv16)
    requires c & 0x8000 != 0
    ensures !Fits(c, 15)
  {
    HalvesCompose(c, 8, 7);
    EightHalves(c);
    SevenHalves(c >> 8);
    assert (c >> 8) >> 7 != 0;
  }

  lemma OddSetsTop(c: bv16)
    requires Odd(c)
    ensures Shift(c) & 0x8000 != 0
  {
  }

  /** Feedback sets the top bit, so a short register was shifted without it. */
  lemma ShiftedFits(c: bv16, n: nat)
    requires Fits(Shift(c), n) && n <= 15
    ensures !Odd(c) && Fits(c, n + 1)
  {
    hide Half, Odd;
    if Odd(c) {
      OddSetsTop(c);
      TopBit(Shift(c));
      FitsMore(Shift(c), n, 15);
    }
  }

  lemma LowBitAside(c: bv16)
    ensures Half(Xor(c, 1)) == Half(c)
  {
  }

  /** Reading a difference backwards: each earlier register was at most one bit longer. */
  lemma {:induction false} BackFits(d: bv16, e: seq<bool>, n: nat)
    requires Fits(BitCrc(d, e), n) && n + |e| <= 16
    ensures Fits(d, n + |e|)
    decreases e
  {
    hide Half, Odd, Shift, Xor;
    if e != [] {
      BackFits(BitStep(d, e[0]), e[1..], n);
      ShiftedFits(if e[0] then Xor(d, 1) else d, n + |e| - 1);
      LowBitAside(d);
    }
  }

  lemma FirstDifference(c: bv16)
    requires c == 0
    ensures BitStep(c, true) & 0x8000 != 0
  {
  }

  /** Sixteen bits of difference, the first of them set, cannot cancel. */
  lemma BurstLeavesDifference(e: seq<bool>)
    requires 0 < |e| <= 16 && e[0]
    ensures BitCrc(0, e) != 0
  {
    hide BitStep;
    var d := BitStep(0, true);
    assert BitCrc(0, e) == BitCrc(d, e[1..]);
    if BitCrc(0, e) == 0 {
      BackFits(d, e[1..], 0);
      FitsMore(d, |e| - 1, 15);
      FirstDifference(0);
      TopBit(d);
    }
  }

  lemma XorZeroIff(a: bv16, b: bv16)
    ensures Xor(a, b) == 0 <==> a == b
  {
  }

  /** A difference that is one burst of at most sixteen bits never cancels, whatever surrounds it. */
  lemma BurstStays(before: seq<bool>, burst: seq<bool>, after: seq<bool>)
    requires 0 < |burst| <= 16 && burst[0]
    requires (forall i | 0 <= i < |before| :: !before[i]) && (forall i | 0 <= i < |after| :: !after[i])
    ensures BitCrc(0, before + burst + after) != 0
  {
    hide BitCrc;
    BitConcat(0, before, burst);
    BitConcat(0, before + burst, after);
    DifferenceStays(0, before);
    BurstLeavesDifference(burst);
    DifferenceStays(BitCrc(0, burst), after);
  }

  /** Two bit strings that differ first at `p` and agree from sixteen bits on have different CRCs. */
  lemma BurstDetected(c: bv16, x: seq<bool>, y: seq<bool>, p: nat)
    requires |x| == |y| && p < |x| && x[p] != y[p]
    requires forall i | 0 <= i < |x| && (i < p || i >= p + 16) :: x[i] == y[i]
    ensures BitCrc(c, x) != BitCrc(c, y)
  {
    hide Xor, BitCrc, Diff;
    var e := Diff(x, y);
    var q := if p + 16 < |x| then p + 16 else |x|;
    DifferenceLinear(c, c, x, y);
    XorZeroIff(c, c);
    XorZeroIff(BitCrc(c, x), BitCrc(c, y));
    assert e[..p] + e[p..q] + e[q..] == e;
    BurstStays(e[..p], e[p..q], e[q..]);
  }

  // ---- In bytes ----

  lemma SameHalfAndLow(x: bv16, y: bv16)
    requires Odd(x) == Odd(y) && Half(x) == Half(y)
    ensures x == y
  {
    assert x & 1 == 0 || x & 1 == 1;
    assert y & 1 == 0 || y & 1 == 1;
    assert x == ((x >> 1) << 1) | (x & 1);
    assert y == ((y >> 1) << 1) | (y & 1);
  }

  lemma {:induction false} LowBitsInjective(x: bv16, y: bv16, n: nat)
    requires LowBits(x, n) == LowBits(y, n) && Halves(x, n) == Halves(y, n)
    ensures x == y
    decreases n
  {
    hide Half, Odd;
    if n > 0 {
      assert LowBits(x, n)[0] == Odd(x) && LowBits(y, n)[0] == Odd(y);
      assert LowBits(x, n)[1..] == LowBits(Half(x), n - 1) && LowBits(y, n)[1..] == LowBits(Half(y), n - 1);
      LowBitsInjective(Half(x), Half(y), n - 1);
      SameHalfAndLow(x, y);
    }
  }

  lemma ByteFromBits(x: byte, y: byte)
    requires LowBits(x as bv16, 8) == LowBits(y as bv16, 8)
    ensures x == y
  {
    hide LowBits, Halves;
    ByteVanishes(x);
    ByteVanishes(y);
    LowBitsInjective(x as bv16, y as bv16, 8);
  }

  lemma {:induction false} BitsConcat(a: seq<byte>, b: seq<byte>)
    ensures Bits(a + b) == Bits(a) + Bits(b)
    decreases a
  {
    hide LowBits;
    if a == [] {
      assert a + b == b;
    } else {
      assert (a + b)[1..] == a[1..] + b;
      BitsConcat(a[1..], b);
    }
  }

  lemma {:induction false} BitsInjective(a: seq<byte>, b: seq<byte>)
    requires |a| == |b| && a != b
    ensures Bits(a) != Bits(b)
    decreases a
  {
    hide LowBits;
    assert a == [a[0]] + a[1..] && b == [b[0]] + b[1..];
    if Bits(a) == Bits(b) {
      assert LowBits(a[0] as bv16, 8) == Bits(a)[..8] && LowBits(b[0] as bv16, 8) == Bits(b)[..8];
      ByteFromBits(a[0], b[0]);
      assert Bits(a[1..]) == Bits(a)[8..] && Bits(b[1..]) == Bits(b)[8..];
      if a[1..] != b[1..] {
        BitsInjective(a[1..], b[1..]);
      }
    }
  }

  /** The first place where two bit strings differ. */
  lemma {:induction false} FirstMismatch(x: seq<bool>, y: seq<bool>) returns (p: nat)
    requires |x| == |y| && x != y
    ensures p < |x| && x[p] != y[p] && x[..p] == y[..p]
    decreases x
  {
    if x[0] != y[0] {
      p := 0;
    } else {
      assert x == [x[0]] + x[1..] && y == [y[0]] + y[1..];
      var q := FirstMismatch(x[1..], y[1..]);
      p := q + 1;
      assert x[..p] == [x[0]] + x[1..][..q] && y[..p] == [y[0]] + y[1..][..q];
    }
  }

  /** Any change confined to sixteen consecutive bits, wherever they start, changes the CRC. */
  lemma BurstChangesCrc(a: seq<byte>, b: seq<byte>, start: nat)
    requires |a| == |b| && a != b
    requires forall i | 0 <= i < 8 * |a| && (i < start || i >= start + 16) :: Bits(a)[i] == Bits(b)[i]
    ensures Crc(a) != Crc(b)
  {
    hide Bits, BitCrc, CrcFrom;
    BitsInjective(a, b);
    var p := FirstMismatch(Bits(a), Bits(b));
    BytesAreBits(INIT, a);
    BytesAreBits(INIT, b);
    BurstDetected(INIT, Bits(a), Bits(b), p);
  }

  /** In particular two adjacent bytes, so a valid buffer damaged there is never accepted. */
  lemma AdjacentBytesDetected(before: seq<byte>, x: seq<byte>, y: seq<byte>, after: seq<byte>)
    requires |x| == |y| <= 2 && x != y
    ensures Crc(before + x + after) != Crc(before + y + after)
  {
    hide Bits, Crc;
    var a, b := before + x + after, before + y + after;
    BitsConcat(before, x);
    BitsConcat(before + x, after);
    BitsConcat(before, y);
    BitsConcat(before + y, after);
    assert a[|before|..|before| + |x|] == x && b[|before|..|before| + |x|] == y;
    BurstChangesCrc(a, b, 8 * |before|);
  }
}
