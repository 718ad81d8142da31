/**
 * CRC-16/XMODEM as computed by `crc16` in scripts/calculate_slots.py:
 * initial value 0, polynomial 0x1021, most significant bit first, no
 * reflection and no final xor.
 *
 * The script keeps the checksum in a Python integer and masks it to 16
 * bits after every bit step, so before a mask it never needs more than
 * 17 bits; a 32-bit vector holds every value it takes. Bytes are 8-bit
 * vectors.
 */
module Crc {

  type byte = bv8

  /** One bit step: shift left, xor the polynomial 0x1021 in when bit 15
      was set, and mask to 16 bits. The test of bit 15 is written as a mask
      (all ones or all zeros) over the polynomial; BitStepCases shows it is
      the branch the script takes. */
  function BitStep(reg: bv32): bv32 {
    ((reg << 1) ^ (0x1021 & (0 - ((reg >> 15) & 1)))) & 0xFFFF
  }

  /** `n` bit steps in a row. */
  function BitSteps(reg: bv32, n: nat): bv32
    decreases n
  {
    if n == 0 then reg else BitStep(BitSteps(reg, n - 1))
  }

  /** The register after one byte: the byte is xored into bits 8..15, then
      eight bit steps follow. */
  function ByteStep(reg: bv32, b: byte): bv32 {
    BitSteps(reg ^ ((b as bv32) << 8), 8)
  }

  /** The register after feeding `data`, first byte first, into `reg`. */
  function CrcFrom(reg: bv32, data: seq<byte>): bv32
    decreases |data|
  {
    if data == [] then reg else CrcFrom(ByteStep(reg, data[0]), data[1..])
  }

  /** The number held in the low 16 bits of a register, high byte first. */
  function Low16(reg: bv32): (n: nat)
    ensures n <= 0xFFFF
  {
    ((reg >> 8) & 0xFF) as nat * 0x100 + (reg & 0xFF) as nat
  }

  /** The CRC-16/XMODEM checksum of `data`, as a number. */
  function XmodemCrc(data: seq<byte>): (crc: nat)
    ensures crc <= 0xFFFF
  {
    Low16(CrcFrom(0, data))
  }

  /** The two bytes of a checksum, high byte first, as XMODEM transmits
      them after the message. */
  function CrcBytes(reg: bv32): seq<byte> {
    [((reg >> 8) & 0xFF) as byte, (reg & 0xFF) as byte]
  }

  // ---------------------------------------------------------------------
  // The loop of crc16.
  // ---------------------------------------------------------------------

  lemma BitStepCases(reg: bv32)
    ensures reg & 0x8000 != 0 ==> ((reg << 1) ^ 0x1021) & 0xFFFF == BitStep(reg)
    ensures reg & 0x8000 == 0 ==> (reg << 1) & 0xFFFF == BitStep(reg)
  {
  }

  /** The body of the script's inner loop, on the register as the script
      writes it: branch on bit 15, shift (and xor), then mask. */
  method ShiftBit(crc: bv32) returns (reg: bv32)
    ensures reg == BitStep(crc)
  {
    BitStepCases(crc);
    reg := crc;
    if reg & 0x8000 != 0 {
      reg := (reg << 1) ^ 0x1021;
    } else {
      reg := reg << 1;
    }
    reg := reg & 0xFFFF;
  }

  lemma CrcFromNext(reg: bv32, data: seq<byte>, i: nat)
    requires i < |data|
    ensures CrcFrom(reg, data[i..]) == CrcFrom(ByteStep(reg, data[i]), data[i + 1..])
  {
    assert data[i..][1..] == data[i + 1..];
  }

  /** crc16: for each byte, xor it into the high half of the register, then
      eight bit steps; the result is the number in the register. */
  method Crc16(data: seq<byte>) returns (crc: nat)
    ensures crc == XmodemCrc(data)
    ensures crc <= 0xFFFF
  {
    var reg: bv32 := 0;
    for i := 0 to |data|
      invariant CrcFrom(reg, data[i..]) == CrcFrom(0, data)
    {
      ghost var before := reg;
      CrcFromNext(before, data, i);
      reg := reg ^ ((data[i] as bv32) << 8);
      for k := 0 to 8
        invariant reg == BitSteps(before ^ ((data[i] as bv32) << 8), k)
      {
        reg := ShiftBit(reg);
      }
    }
    crc := Low16(reg);
  }

  // ---------------------------------------------------------------------
  // Properties of the checksum.
  // ---------------------------------------------------------------------

  /** The checksum of the empty message is the initial register, 0. */
  lemma EmptyCrc()
    ensures XmodemCrc([]) == 0
  {
  }

  /** Feeding a message in two parts is feeding it whole: the checksum
      can be computed on a stream. */
  lemma {:induction false} CrcFromAppend(reg: bv32, a: seq<byte>, b: seq<byte>)
    ensures CrcFrom(reg, a + b) == CrcFrom(CrcFrom(reg, a), b)
    decreases |a|
  {
    if a == [] {
      assert a + b == b;
    } else {
      assert (a + b)[1..] == a[1..] + b;
      CrcFromAppend(ByteStep(reg, a[0]), a[1..], b);
    }
  }

  lemma BitStepsBounded(reg: bv32, n: nat)
    requires n > 0
    ensures BitSteps(reg, n) <= 0xFFFF
  {
  }

  /** The register stays within 16 bits whatever is fed into it. */
  lemma {:induction false} CrcFromBounded(reg: bv32, data: seq<byte>)
    requires reg <= 0xFFFF
    ensures CrcFrom(reg, data) <= 0xFFFF
    decreases |data|
  {
    if data != [] {
      BitStepsBounded(reg ^ ((data[0] as bv32) << 8), 8);
      CrcFromBounded(ByteStep(reg, data[0]), data[1..]);
    }
  }

  lemma ShiftsClear(lo: bv32)
    requires lo <= 0x7FFF
    ensures BitStep(lo) == lo << 1
  {
  }

  /** A value of at most eight bits only moves left during eight bit steps:
      bit 15 stays clear, so the polynomial is never xored in. */
  lemma LowByteOnlyShifts(reg: bv32)
    ensures BitSteps(reg & 0xFF, 8) == (reg << 8) & 0xFFFF
  {
    var lo := reg & 0xFF;
    ShiftsClear(lo);
    ShiftsClear(lo << 1);
    ShiftsClear(lo << 2);
    ShiftsClear(lo << 3);
    ShiftsClear(lo << 4);
    ShiftsClear(lo << 5);
    ShiftsClear(lo << 6);
    ShiftsClear(lo << 7);
  }

  lemma HighByteIn(reg: bv32)
    requires reg <= 0xFFFF
    ensures ByteStep(reg, ((reg >> 8) & 0xFF) as byte) == (reg << 8) & 0xFFFF
  {
    assert reg ^ ((((reg >> 8) & 0xFF) as byte) as bv32 << 8) == reg & 0xFF;
    LowByteOnlyShifts(reg);
  }

  lemma LowByteIn(reg: bv32)
    ensures ByteStep((reg << 8) & 0xFFFF, (reg & 0xFF) as byte) == 0
  {
    assert ((reg << 8) & 0xFFFF) ^ (((reg & 0xFF) as byte) as bv32 << 8) == 0;
  }

  lemma FeedOne(reg: bv32, b: byte, rest: seq<byte>)
    ensures CrcFrom(reg, [b] + rest) == CrcFrom(ByteStep(reg, b), rest)
  {
    assert ([b] + rest)[1..] == rest;
  }

  /** Feeding a 16-bit register its own two bytes, high byte first, clears
      it. */
  lemma OwnBytesClear(reg: bv32)
    requires reg <= 0xFFFF
    ensures CrcFrom(reg, CrcBytes(reg)) == 0
  {
    HighByteIn(reg);
    LowByteIn(reg);
    FeedOne(reg, ((reg >> 8) & 0xFF) as byte, [(reg & 0xFF) as byte]);
    FeedOne((reg << 8) & 0xFFFF, (reg & 0xFF) as byte, []);
    assert CrcBytes(reg) == [((reg >> 8) & 0xFF) as byte] + [(reg & 0xFF) as byte];
  }

  /** The CRC residue property: a message followed by its own checksum,
      high byte first, has checksum 0. */
  lemma AppendedCrcIsZero(data: seq<byte>)
    ensures XmodemCrc(data + CrcBytes(CrcFrom(0, data))) == 0
  {
    var reg := CrcFrom(0, data);
    CrcFromAppend(0, data, CrcBytes(reg));
    CrcFromBounded(0, data);
    OwnBytesClear(reg);
  }

  // ---------------------------------------------------------------------
  // Concrete checksums.
  // ---------------------------------------------------------------------

  lemma CheckStepsA()
    ensures ByteStep(0x0000, 0x31) == 0x2672
    ensures ByteStep(0x2672, 0x32) == 0x20b5
    ensures ByteStep(0x20b5, 0x33) == 0x9752
  {
  }

  lemma CheckStepsB()
    ensures ByteStep(0x9752, 0x34) == 0xd789
    ensures ByteStep(0xd789, 0x35) == 0x546c
    ensures ByteStep(0x546c, 0x36) == 0x20e4
  {
  }

  lemma CheckStepsC()
    ensures ByteStep(0x20e4, 0x37) == 0x86d6
    ensures ByteStep(0x86d6, 0x38) == 0x9015
    ensures ByteStep(0x9015, 0x39) == 0x31c3
  {
  }

  /** The check value of CRC-16/XMODEM: the ASCII digits "123456789" give
      0x31C3, which is also the value the Redis Cluster specification
      gives for its CRC16. */
  lemma XmodemCheckValue()
    ensures XmodemCrc([0x31, 0x32, 0x33, 0x34, 0x35, 0x36, 0x37, 0x38, 0x39]) == 0x31C3
  {
    CheckStepsA();
    CheckStepsB();
    CheckStepsC();
    FeedOne(0x0000, 0x31, [0x32, 0x33, 0x34, 0x35, 0x36, 0x37, 0x38, 0x39]);
    FeedOne(0x2672, 0x32, [0x33, 0x34, 0x35, 0x36, 0x37, 0x38, 0x39]);
    FeedOne(0x20b5, 0x33, [0x34, 0x35, 0x36, 0x37, 0x38, 0x39]);
    FeedOne(0x9752, 0x34, [0x35, 0x36, 0x37, 0x38, 0x39]);
    FeedOne(0xd789, 0x35, [0x36, 0x37, 0x38, 0x39]);
    FeedOne(0x546c, 0x36, [0x37, 0x38, 0x39]);
    FeedOne(0x20e4, 0x37, [0x38, 0x39]);
    FeedOne(0x86d6, 0x38, [0x39]);
    FeedOne(0x9015, 0x39, []);
  }
}
