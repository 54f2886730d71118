/** A register that takes in one bit at a time, over any set of register states. */
module ShiftRegister {

  function Run<R>(step: (R, bool) -> R, r: R, bits: seq<bool>): R
    decreases bits
  {
    if bits == [] then r else Run(step, step(r, bits[0]), bits[1..])
  }

  function XorBits(a: seq<bool>, b: seq<bool>): (c: seq<bool>)
    requires |a| == |b|
    ensures |c| == |a| && forall k | 0 <= k < |a| :: c[k] == (a[k] != b[k])
  {
    seq(|a|, k requires 0 <= k < |a| => a[k] != b[k])
  }

  lemma {:induction false} RunAppend<R>(step: (R, bool) -> R, r: R, a: seq<bool>, b: seq<bool>)
    ensures Run(step, r, a + b) == Run(step, Run(step, r, a), b)
    decreases a
  {
    if a == [] {
      assert a + b == b;
    } else {
      assert (a + b)[1..] == a[1..] + b && (a + b)[0] == a[0];
      RunAppend(step, step(r, a[0]), a[1..], b);
    }
  }

  lemma RunFour<R>(step: (R, bool) -> R, r: R, bits: seq<bool>)
    requires |bits| == 4
    ensures Run(step, r, bits) == step(step(step(step(r, bits[0]), bits[1]), bits[2]), bits[3])
  {
    var r1 := step(r, bits[0]);
    var r2 := step(r1, bits[1]);
    var r3 := step(r2, bits[2]);
    assert bits[1..][1..] == bits[2..] && bits[2..][1..] == bits[3..] && bits[3..][1..] == [];
    assert Run(step, r3, bits[3..]) == step(r3, bits[3]);
    assert Run(step, r2, bits[2..]) == Run(step, r3, bits[3..]);
  }

  /** A linear step makes a linear register. */
  lemma {:induction false} RunLinear<R(!new)>(
      step: (R, bool) -> R, xor: (R, R) -> R, s: R, t: R, a: seq<bool>, b: seq<bool>)
    requires |a| == |b|
    requires forall s, t, x, y :: step(xor(s, t), x != y) == xor(step(s, x), step(t, y))
    ensures Run(step, xor(s, t), XorBits(a, b)) == xor(Run(step, s, a), Run(step, t, b))
    decreases a
  {
    if a != [] {
      assert step(xor(s, t), a[0] != b[0]) == xor(step(s, a[0]), step(t, b[0]));
      assert XorBits(a, b)[1..] == XorBits(a[1..], b[1..]);
      RunLinear(step, xor, step(s, a[0]), step(t, b[0]), a[1..], b[1..]);
    }
  }

  lemma {:induction false} ZeroBits<R(!new)>(step: (R, bool) -> R, zero: R, r: R, bits: seq<bool>)
    requires forall r :: step(r, false) == zero <==> r == zero
    requires forall k | 0 <= k < |bits| :: !bits[k]
    ensures Run(step, r, bits) == zero <==> r == zero
    decreases bits
  {
    if bits != [] {
      ZeroBits(step, zero, step(r, false), bits[1..]);
    }
  }

  /** The low `n` bits of a word, given its lowest bit and its right shift. */
  function LowBits<R>(odd: R -> bool, half: R -> R, x: R, n: nat): (bits: seq<bool>)
    ensures |bits| == n
    decreases n
  {
    if n == 0 then [] else [odd(x)] + LowBits(odd, half, half(x), n - 1)
  }

  function ShiftRight<R>(half: R -> R, x: R, n: nat): R
    decreases n
  {
    if n == 0 then x else ShiftRight(half, half(x), n - 1)
  }

  lemma ShiftFour<R>(half: R -> R, x: R, n: nat)
    requires n >= 4
    ensures ShiftRight(half, x, n) == ShiftRight(half, half(half(half(half(x)))), n - 4)
  {
    assert ShiftRight(half, half(half(x)), n - 2) == ShiftRight(half, half(half(half(half(x)))), n - 4);
  }

  function Zeros(n: nat): seq<bool> {
    seq(n, _ => false)
  }

  /** Feeding the bits of a word one by one does what XORing the word in at once and clocking does. */
  lemma {:induction false} RunWord<R(!new)>(
      step: (R, bool) -> R, xor: (R, R) -> R, odd: R -> bool, half: R -> R, r: R, x: R, n: nat)
    requires forall r, x :: xor(step(r, odd(x)), half(x)) == step(xor(r, x), false)
    ensures xor(Run(step, r, LowBits(odd, half, x, n)), ShiftRight(half, x, n)) == Run(step, xor(r, x), Zeros(n))
    decreases n
  {
    if n > 0 {
      var bits := LowBits(odd, half, x, n);
      assert bits[1..] == LowBits(odd, half, half(x), n - 1);
      assert Zeros(n)[1..] == Zeros(n - 1);
      RunWord(step, xor, odd, half, step(r, odd(x)), half(x), n - 1);
    }
  }

  lemma {:induction false} LowBitsLinear<R(!new)>(
      xor: (R, R) -> R, odd: R -> bool, half: R -> R, x: R, y: R, n: nat)
    requires forall x, y :: odd(xor(x, y)) == (odd(x) != odd(y)) && half(xor(x, y)) == xor(half(x), half(y))
    ensures LowBits(odd, half, xor(x, y), n) == XorBits(LowBits(odd, half, x, n), LowBits(odd, half, y, n))
    decreases n
  {
    if n > 0 {
      LowBitsLinear(xor, odd, half, half(x), half(y), n - 1);
    }
  }

  /** If a step takes at most one off the life of a state, then n steps take at most n off it. */
  lemma {:induction false} RunSurvives<R(!new)>(step: (R, bool) -> R, life: R -> nat, r: R, bits: seq<bool>)
    requires forall r, bit :: life(r) <= life(step(r, bit)) + 1
    ensures life(r) <= life(Run(step, r, bits)) + |bits|
    decreases bits
  {
    if bits != [] { RunSurvives(step, life, step(r, bits[0]), bits[1..]); }
  }

  /** A string with a set bit leaves a trace if only a set bit moves the register from 0, and then to a
      state that outlives the string. */
  lemma {:induction false} LeavesTrace<R(!new)>(
      step: (R, bool) -> R, life: R -> nat, zero: R, bits: seq<bool>, k: nat)
    requires forall r, bit :: life(r) <= life(step(r, bit)) + 1
    requires life(zero) == 0 && step(zero, false) == zero && |bits| <= life(step(zero, true))
    requires k < |bits| && bits[k]
    ensures Run(step, zero, bits) != zero
    decreases bits
  {
    if bits[0] {
      RunSurvives(step, life, step(zero, true), bits[1..]);
    } else {
      LeavesTrace(step, life, zero, bits[1..], k - 1);
    }
  }
}

/** The CRC-8 of the 1-Wire family (firmware/ti/onewire/crc.cpp). The DS18B20 data sheet defines it
    under "CRC Generation" by a shift register: polynomial x^8 + x^5 + x^4 + 1, least significant
    bit first, initial value 0. */
module Crc {
  import opened Sequences
  import opened ShiftRegister

  type Byte = bv8

  // --- The table, in rows of 16 ---

  const ROW_0: seq<Byte> := [0, 94, 188, 226, 97, 63, 221, 131, 194, 156, 126, 32, 163, 253, 31, 65]
  const ROW_1: seq<Byte> := [157, 195, 33, 127, 252, 162, 64, 30, 95, 1, 227, 189, 62, 96, 130, 220]
  const ROW_2: seq<Byte> := [35, 125, 159, 193, 66, 28, 254, 160, 225, 191, 93, 3, 128, 222, 60, 98]
  const ROW_3: seq<Byte> := [190, 224, 2, 92, 223, 129, 99, 61, 124, 34, 192, 158, 29, 67, 161, 255]
  const ROW_4: seq<Byte> := [70, 24, 250, 164, 39, 121, 155, 197, 132, 218, 56, 102, 229, 187, 89, 7]
  const ROW_5: seq<Byte> := [219, 133, 103, 57, 186, 228, 6, 88, 25, 71, 165, 251, 120, 38, 196, 154]
  const ROW_6: seq<Byte> := [101, 59, 217, 135, 4, 90, 184, 230, 167, 249, 27, 69, 198, 152, 122, 36]
  const ROW_7: seq<Byte> := [248, 166, 68, 26, 153, 199, 37, 123, 58, 100, 134, 216, 91, 5, 231, 185]
  const ROW_8: seq<Byte> := [140, 210, 48, 110, 237, 179, 81, 15, 78, 16, 242, 172, 47, 113, 147, 205]
  const ROW_9: seq<Byte> := [17, 79, 173, 243, 112, 46, 204, 146, 211, 141, 111, 49, 178, 236, 14, 80]
  const ROW_A: seq<Byte> := [175, 241, 19, 77, 206, 144, 114, 44, 109, 51, 209, 143, 12, 82, 176, 238]
  const ROW_B: seq<Byte> := [50, 108, 142, 208, 83, 13, 239, 177, 240, 174, 76, 18, 145, 207, 45, 115]
  const ROW_C: seq<Byte> := [202, 148, 118, 40, 171, 245, 23, 73, 8, 86, 180, 234, 105, 55, 213, 139]
  const ROW_D: seq<Byte> := [87, 9, 235, 181, 54, 104, 138, 212, 149, 203, 41, 119, 244, 170, 72, 22]
  const ROW_E: seq<Byte> := [233, 183, 85, 11, 136, 214, 52, 106, 43, 117, 151, 201, 74, 20, 246, 168]
  const ROW_F: seq<Byte> := [116, 42, 200, 150, 21, 75, 169, 247, 182, 232, 10, 84, 215, 137, 107, 53]

  function Row(high: Byte): (row: seq<Byte>)
    ensures |row| == 16
  {
    if high == 0x0 then ROW_0 else if high == 0x1 then ROW_1
    else if high == 0x2 then ROW_2 else if high == 0x3 then ROW_3
    else if high == 0x4 then ROW_4 else if high == 0x5 then ROW_5
    else if high == 0x6 then ROW_6 else if high == 0x7 then ROW_7
    else if high == 0x8 then ROW_8 else if high == 0x9 then ROW_9
    else if high == 0xA then ROW_A else if high == 0xB then ROW_B
    else if high == 0xC then ROW_C else if high == 0xD then ROW_D else if high == 0xE then ROW_E else ROW_F
  }

  function Table(index: Byte): Byte {
    Row(index >> 4)[Low(index)]
  }

  function Low(index: Byte): (low: nat)
    ensures low < 16
  {
    (index & 0xF) as nat
  }

  method Crc(data: array<Byte>, count: nat) returns (result: Byte)
    requires count <= data.Length
    ensures result == Serial(data[..count])
  {
    result := 0;
    for i := 0 to count
      invariant result == Serial(data[..i])
    {
      assert data[..i + 1] == data[..i] + [data[i]];
      result := Lookup(data[..i], data[i], result);
    }
  }

  method Lookup(ghost done: seq<Byte>, x: Byte, crc: Byte) returns (next: Byte)
    requires crc == Serial(done)
    ensures next == Serial(done + [x])
  {
    SerialAppend(done, x);
    next := Table(XorByte(crc, x));
    TableIsByteStep(XorByte(crc, x));
  }

  // --- The shift register of the data sheet ---

  function Odd(x: Byte): bool {
    x & 1 == 1
  }

  function Half(x: Byte): Byte {
    x >> 1
  }

  function XorByte(x: Byte, y: Byte): Byte {
    x ^ y
  }

  /** One clock: the bit taken in is XORed with the stage shifted out and fed back at the terms of
      the polynomial; 0x8C is x^5 + x^4 + 1 with the bits reversed. */
  function Input(r: Byte, bit: bool): Byte {
    XorByte(Half(r), Feedback(Odd(r) != bit))
  }

  function Feedback(bit: bool): Byte {
    if bit then 0x8C else 0
  }

  /** The bits of a byte in the order they go over the wire. */
  function BitsOf(x: Byte): (bits: seq<bool>)
    ensures |bits| == 8
  {
    LowBits(Odd, Half, x, 8)
  }

  function Bits(data: seq<Byte>): (bits: seq<bool>)
    ensures |bits| == 8 * |data|
    decreases data
  {
    if data == [] then [] else
      assert |Bits(data[1..])| == 8 * |data| - 8;
      FlatMap(BitsOf, data)
  }

  /** The bit-serial CRC: the register after every bit of the message, in wire order. */
  function Serial(data: seq<Byte>): Byte {
    Run(Input, 0, Bits(data))
  }

  function BitStep(r: Byte): Byte {
    if r & 1 == 1 then (r >> 1) ^ 0x8C else r >> 1
  }

  lemma BitStepIsInput(r: Byte)
    ensures BitStep(r) == Input(r, false)
  {
  }

  function FourSteps(r: Byte): Byte {
    BitStep(BitStep(BitStep(BitStep(r))))
  }

  /** Eight clocks with no input. */
  function ByteStep(r: Byte): Byte {
    FourSteps(FourSteps(r))
  }

  lemma ClockWord(r: Byte, x: Byte)
    ensures XorByte(Input(r, Odd(x)), Half(x)) == Input(XorByte(r, x), false)
  {
  }

  lemma RunFourZeros(r: Byte)
    ensures Run(Input, r, Zeros(4)) == FourSteps(r)
  {
    RunFour(Input, r, Zeros(4));
    BitStepIsInput(r);
    BitStepIsInput(BitStep(r));
    BitStepIsInput(BitStep(BitStep(r)));
    BitStepIsInput(BitStep(BitStep(BitStep(r))));
  }

  lemma RunZeros(r: Byte)
    ensures Run(Input, r, Zeros(8)) == ByteStep(r)
  {
    RunFourZeros(r);
    RunFourZeros(FourSteps(r));
    assert Zeros(8) == Zeros(4) + Zeros(4);
    RunAppend(Input, r, Zeros(4), Zeros(4));
  }

  lemma ShiftedOut(x: Byte)
    ensures Half(Half(Half(Half(Half(Half(Half(Half(x)))))))) == 0
  {
  }

  lemma ShiftEight(x: Byte)
    ensures ShiftRight(Half, x, 8) == 0
  {
    ShiftFour(Half, x, 8);
    ShiftFour(Half, Half(Half(Half(Half(x)))), 4);
    ShiftedOut(x);
  }

  lemma XorNothing(x: Byte)
    ensures XorByte(x, 0) == x && XorByte(0, x) == x
  {
  }

  lemma RegisterFedByte(r: Byte, x: Byte)
    ensures Run(Input, r, BitsOf(x)) == ByteStep(XorByte(r, x))
  {
    forall r, x
      ensures XorByte(Input(r, Odd(x)), Half(x)) == Input(XorByte(r, x), false)
    {
      ClockWord(r, x);
    }
    RunWord(Input, XorByte, Odd, Half, r, x, 8);
    ShiftEight(x);
    XorNothing(Run(Input, r, BitsOf(x)));
    RunZeros(XorByte(r, x));
  }

  lemma SerialAppend(data: seq<Byte>, x: Byte)
    ensures Serial(data + [x]) == ByteStep(XorByte(Serial(data), x))
  {
    FlatMapAppend(BitsOf, data, [x]);
    FlatMapOne(BitsOf, x);
    RunAppend(Input, 0, Bits(data), BitsOf(x));
    RegisterFedByte(Serial(data), x);
  }

  // --- Algebra ---

  lemma XorRegroup(a: Byte, b: Byte, c: Byte, d: Byte)
    ensures XorByte(XorByte(a, b), XorByte(c, d)) == XorByte(XorByte(a, c), XorByte(b, d))
  {
    assert (a ^ b) ^ (c ^ d) == (a ^ c) ^ (b ^ d);
  }

  lemma InputLinear(s: Byte, t: Byte, x: bool, y: bool)
    ensures Input(XorByte(s, t), x != y) == XorByte(Input(s, x), Input(t, y))
  {
    WordLinear(s, t);
    XorRegroup(Half(s), Half(t), Feedback(Odd(s) != x), Feedback(Odd(t) != y));
    XorNothing(0);
  }

  lemma InputInjective(r: Byte)
    ensures Input(r, false) == 0 <==> r == 0
  {
  }

  lemma WordLinear(x: Byte, y: Byte)
    ensures Odd(XorByte(x, y)) == (Odd(x) != Odd(y)) && Half(XorByte(x, y)) == XorByte(Half(x), Half(y))
  {
  }

  function XorAll(a: seq<Byte>, b: seq<Byte>): (c: seq<Byte>)
    requires |a| == |b|
    ensures |c| == |a|
    decreases a
  {
    if a == [] then [] else [XorByte(a[0], b[0])] + XorAll(a[1..], b[1..])
  }

  lemma BitsOfXorByte(x: Byte, y: Byte)
    ensures BitsOf(XorByte(x, y)) == XorBits(BitsOf(x), BitsOf(y))
  {
    forall x, y
      ensures Odd(XorByte(x, y)) == (Odd(x) != Odd(y)) && Half(XorByte(x, y)) == XorByte(Half(x), Half(y))
    {
      WordLinear(x, y);
    }
    LowBitsLinear(XorByte, Odd, Half, x, y, 8);
  }

  lemma {:induction false} BitsOfXor(a: seq<Byte>, b: seq<Byte>)
    requires |a| == |b|
    ensures Bits(XorAll(a, b)) == XorBits(Bits(a), Bits(b))
    decreases a
  {
    if a != [] {
      BitsOfXor(a[1..], b[1..]);
      assert XorAll(a, b)[1..] == XorAll(a[1..], b[1..]);
      BitsOfXorByte(a[0], b[0]);
      XorBitsAppend(BitsOf(a[0]), BitsOf(b[0]), Bits(a[1..]), Bits(b[1..]));
    }
  }

  lemma XorBitsAppend(a: seq<bool>, b: seq<bool>, c: seq<bool>, d: seq<bool>)
    requires |a| == |b| && |c| == |d|
    ensures XorBits(a + c, b + d) == XorBits(a, b) + XorBits(c, d)
  {
  }

  lemma RegisterLinear(a: seq<bool>, b: seq<bool>)
    requires |a| == |b|
    ensures Run(Input, 0, XorBits(a, b)) == XorByte(Run(Input, 0, a), Run(Input, 0, b))
  {
    forall s, t, x, y
      ensures Input(XorByte(s, t), x != y) == XorByte(Input(s, x), Input(t, y))
    {
      InputLinear(s, t, x, y);
    }
    RunLinear(Input, XorByte, 0, 0, a, b);
  }

  /** The CRC is XOR-linear on messages of equal length. */
  lemma CrcLinear(a: seq<Byte>, b: seq<Byte>)
    requires |a| == |b|
    ensures Serial(XorAll(a, b)) == XorByte(Serial(a), Serial(b))
  {
    BitsOfXor(a, b);
    RegisterLinear(Bits(a), Bits(b));
  }

  lemma ByteStepInjective(r: Byte)
    ensures ByteStep(r) == 0 <==> r == 0
  {
    RunZeros(r);
    ZerosKeep(r, Zeros(8));
  }

  lemma XorByteZero(x: Byte, y: Byte)
    ensures XorByte(x, y) == 0 <==> x == y
  {
  }

  /** A message followed by one byte has CRC 0 exactly when that byte is the CRC of the message. */
  lemma ResidueZeroIffCrc(message: seq<Byte>, c: Byte)
    ensures Serial(message + [c]) == 0 <==> c == Serial(message)
  {
    SerialAppend(message, c);
    XorByteZero(Serial(message), c);
    ByteStepInjective(XorByte(Serial(message), c));
  }

  // --- Burst errors ---

  lemma ZerosKeep(r: Byte, bits: seq<bool>)
    requires forall k | 0 <= k < |bits| :: !bits[k]
    ensures Run(Input, r, bits) == 0 <==> r == 0
  {
    forall r
      ensures Input(r, false) == 0 <==> r == 0
    {
      InputInjective(r);
    }
    ZeroBits(Input, 0, r, bits);
  }

  /** `r` cannot become zero in fewer clocks than this, whatever comes in. */
  function Life(r: Byte): nat {
    if r >= 128 then 8 else if r >= 64 then 7 else if r >= 32 then 6 else if r >= 16 then 5
    else if r >= 8 then 4 else if r >= 4 then 3 else if r >= 2 then 2 else if r >= 1 then 1 else 0
  }

  lemma ClockTakesOne(r: Byte, bit: bool)
    ensures Life(r) <= Life(Input(r, bit)) + 1
  {
  }

  lemma FeedbackRevives(r: Byte, bit: bool)
    requires Odd(r) != bit
    ensures Life(Input(r, bit)) == 8
  {
  }

  lemma NoLife()
    ensures Life(0) == 0 && !Odd(0)
  {
  }

  /** A nonzero string of at most 8 bits leaves a nonzero register. */
  lemma ShortBurstLeavesTrace(bits: seq<bool>, k: nat)
    requires k < |bits| <= 8 && bits[k]
    ensures Run(Input, 0, bits) != 0
  {
    forall r, bit
      ensures Life(r) <= Life(Input(r, bit)) + 1
    {
      ClockTakesOne(r, bit);
    }
    NoLife();
    InputInjective(0);
    FeedbackRevives(0, true);
    LeavesTrace(Input, Life, 0, bits, k);
  }

  /** Two messages of equal length whose bits, in wire order, differ only within 8 consecutive
      positions, and do differ, have different CRCs. */
  lemma BurstDetected(a: seq<Byte>, b: seq<Byte>, start: nat, k: nat)
    requires |a| == |b| && k < 8 * |a| && Bits(a)[k] != Bits(b)[k]
    requires forall j | 0 <= j < 8 * |a| && Bits(a)[j] != Bits(b)[j] :: start <= j < start + 8
    ensures Serial(a) != Serial(b)
  {
    var bits := XorBits(Bits(a), Bits(b));
    BurstLeavesTrace(bits, start, k);
    RegisterLinear(Bits(a), Bits(b));
    XorByteZero(Serial(a), Serial(b));
  }

  /** A burst between zeros comes to zero exactly if it does so by itself. */
  lemma BurstAlone(before: seq<bool>, burst: seq<bool>, after: seq<bool>)
    requires (forall k | 0 <= k < |before| :: !before[k]) && (forall k | 0 <= k < |after| :: !after[k])
    ensures Run(Input, 0, before + burst + after) == 0 <==> Run(Input, 0, burst) == 0
  {
    RunAppend(Input, 0, before + burst, after);
    RunAppend(Input, 0, before, burst);
    ZerosKeep(0, before);
    ZerosKeep(Run(Input, 0, burst), after);
  }

  lemma CutBurst(bits: seq<bool>, start: nat, k: nat) returns (before: seq<bool>, burst: seq<bool>, after: seq<bool>)
    requires k < |bits| && bits[k]
    requires forall j | 0 <= j < |bits| && bits[j] :: start <= j < start + 8
    ensures bits == before + burst + after && |burst| <= 8
    ensures (forall j | 0 <= j < |before| :: !before[j]) && (forall j | 0 <= j < |after| :: !after[j])
    ensures start <= k < start + |burst| && burst[k - start]
  {
    var end := if start + 8 <= |bits| then start + 8 else |bits|;
    before, burst, after := bits[..start], bits[start..end], bits[end..];
    assert burst[k - start] == bits[k];
  }

  lemma BurstLeavesTrace(bits: seq<bool>, start: nat, k: nat)
    requires k < |bits| && bits[k]
    requires forall j | 0 <= j < |bits| && bits[j] :: start <= j < start + 8
    ensures Run(Input, 0, bits) != 0
  {
    var before, burst, after := CutBurst(bits, start, k);
    ShortBurstLeavesTrace(burst, k - start);
    BurstAlone(before, burst, after);
  }

  // --- Every table entry is eight steps of the register ---

  /** Sixteen entries of the table of a function. */
  function Sixteen(f: Byte -> Byte, base: Byte): (row: seq<Byte>)
    ensures |row| == 16
  {
    [f(base), f(base + 1), f(base + 2), f(base + 3), f(base + 4), f(base + 5), f(base + 6), f(base + 7),
     f(base + 8), f(base + 9), f(base + 10), f(base + 11), f(base + 12), f(base + 13), f(base + 14), f(base + 15)]
  }

  predicate RowsAreOf(f: Byte -> Byte) {
    && ROW_0 == Sixteen(f, 0x00) && ROW_1 == Sixteen(f, 0x10) && ROW_2 == Sixteen(f, 0x20) && ROW_3 == Sixteen(f, 0x30)
    && ROW_4 == Sixteen(f, 0x40) && ROW_5 == Sixteen(f, 0x50) && ROW_6 == Sixteen(f, 0x60) && ROW_7 == Sixteen(f, 0x70)
    && ROW_8 == Sixteen(f, 0x80) && ROW_9 == Sixteen(f, 0x90) && ROW_A == Sixteen(f, 0xA0) && ROW_B == Sixteen(f, 0xB0)
    && ROW_C == Sixteen(f, 0xC0) && ROW_D == Sixteen(f, 0xD0) && ROW_E == Sixteen(f, 0xE0) && ROW_F == Sixteen(f, 0xF0)
  }

  lemma RowsTo3()
    ensures ROW_0 == Sixteen(ByteStep, 0x00) && ROW_1 == Sixteen(ByteStep, 0x10) &&
            ROW_2 == Sixteen(ByteStep, 0x20) && ROW_3 == Sixteen(ByteStep, 0x30)
  {
  }

  lemma RowsTo5()
    ensures ROW_4 == Sixteen(ByteStep, 0x40) && ROW_5 == Sixteen(ByteStep, 0x50)
  {
  }

  lemma RowsTo7()
    ensures ROW_6 == Sixteen(ByteStep, 0x60) && ROW_7 == Sixteen(ByteStep, 0x70)
  {
  }

  lemma RowsTo8()
    ensures ROW_8 == Sixteen(ByteStep, 0x80)
  {
  }

  lemma RowsTo9()
    ensures ROW_9 == Sixteen(ByteStep, 0x90)
  {
  }

  lemma RowsToA()
    ensures ROW_A == Sixteen(ByteStep, 0xA0)
  {
  }

  lemma RowsToB()
    ensures ROW_B == Sixteen(ByteStep, 0xB0)
  {
  }

  lemma RowsToD()
    ensures ROW_C == Sixteen(ByteStep, 0xC0) && ROW_D == Sixteen(ByteStep, 0xD0)
  {
  }

  lemma RowsToF()
    ensures ROW_E == Sixteen(ByteStep, 0xE0) && ROW_F == Sixteen(ByteStep, 0xF0)
  {
  }

  lemma LowRowsAreOf(f: Byte -> Byte, high: Byte)
    requires high < 8 && RowsAreOf(f)
    ensures Row(high) == Sixteen(f, high << 4)
  {
  }

  lemma ThirdRowsAreOf(f: Byte -> Byte, high: Byte)
    requires 8 <= high < 12 && RowsAreOf(f)
    ensures Row(high) == Sixteen(f, high << 4)
  {
  }

  lemma LastRowsAreOf(f: Byte -> Byte, high: Byte)
    requires 12 <= high < 16 && RowsAreOf(f)
    ensures Row(high) == Sixteen(f, high << 4)
  {
  }

  lemma RowIsOf(f: Byte -> Byte, high: Byte)
    requires high < 16 && RowsAreOf(f)
    ensures Row(high) == Sixteen(f, high << 4)
  {
    if high < 8 {
      LowRowsAreOf(f, high);
    } else if high < 12 {
      ThirdRowsAreOf(f, high);
    } else {
      LastRowsAreOf(f, high);
    }
  }

  lemma EntryIsOf(f: Byte -> Byte, index: Byte)
    ensures Sixteen(f, (index >> 4) << 4)[Low(index)] == f(index)
  {
    assert ((index >> 4) << 4) + (index & 0xF) == index;
  }

  lemma TableIsOf(f: Byte -> Byte, index: Byte)
    requires RowsAreOf(f)
    ensures Table(index) == f(index)
  {
    RowIsOf(f, index >> 4);
    EntryIsOf(f, index);
  }

  lemma RowsAreSteps()
    ensures RowsAreOf(ByteStep)
  {
    RowsTo3();
    RowsTo5();
    RowsTo7();
    RowsTo8();
    RowsTo9();
    RowsToA();
    RowsToB();
    RowsToD();
    RowsToF();
  }

  lemma TableIsByteStep(index: Byte)
    ensures Table(index) == ByteStep(index)
  {
    RowsAreSteps();
    TableIsOf(ByteStep, index);
  }
}
