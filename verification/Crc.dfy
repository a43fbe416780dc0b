/** The table-driven CRC of src/crc16_1021.c and its refinement of division one bit at a time. */
module Crc {
  import opened Gf2
  import opened WordBits

  /** `crc16_tab`, in the rows in which it is written down. */
  const CRC16_TAB: seq<seq<bv16>> := [
    [0x0000, 0x1021, 0x2042, 0x3063, 0x4084, 0x50a5, 0x60c6, 0x70e7],
    [0x8108, 0x9129, 0xa14a, 0xb16b, 0xc18c, 0xd1ad, 0xe1ce, 0xf1ef],
    [0x1231, 0x0210, 0x3273, 0x2252, 0x52b5, 0x4294, 0x72f7, 0x62d6],
    [0x9339, 0x8318, 0xb37b, 0xa35a, 0xd3bd, 0xc39c, 0xf3ff, 0xe3de],
    [0x2462, 0x3443, 0x0420, 0x1401, 0x64e6, 0x74c7, 0x44a4, 0x5485],
    [0xa56a, 0xb54b, 0x8528, 0x9509, 0xe5ee, 0xf5cf, 0xc5ac, 0xd58d],
    [0x3653, 0x2672, 0x1611, 0x0630, 0x76d7, 0x66f6, 0x5695, 0x46b4],
    [0xb75b, 0xa77a, 0x9719, 0x8738, 0xf7df, 0xe7fe, 0xd79d, 0xc7bc],
    [0x48c4, 0x58e5, 0x6886, 0x78a7, 0x0840, 0x1861, 0x2802, 0x3823],
    [0xc9cc, 0xd9ed, 0xe98e, 0xf9af, 0x8948, 0x9969, 0xa90a, 0xb92b],
    [0x5af5, 0x4ad4, 0x7ab7, 0x6a96, 0x1a71, 0x0a50, 0x3a33, 0x2a12],
    [0xdbfd, 0xcbdc, 0xfbbf, 0xeb9e, 0x9b79, 0x8b58, 0xbb3b, 0xab1a],
    [0x6ca6, 0x7c87, 0x4ce4, 0x5cc5, 0x2c22, 0x3c03, 0x0c60, 0x1c41],
    [0xedae, 0xfd8f, 0xcdec, 0xddcd, 0xad2a, 0xbd0b, 0x8d68, 0x9d49],
    [0x7e97, 0x6eb6, 0x5ed5, 0x4ef4, 0x3e13, 0x2e32, 0x1e51, 0x0e70],
    [0xff9f, 0xefbe, 0xdfdd, 0xcffc, 0xbf1b, 0xaf3a, 0x9f59, 0x8f78],
    [0x9188, 0x81a9, 0xb1ca, 0xa1eb, 0xd10c, 0xc12d, 0xf14e, 0xe16f],
    [0x1080, 0x00a1, 0x30c2, 0x20e3, 0x5004, 0x4025, 0x7046, 0x6067],
    [0x83b9, 0x9398, 0xa3fb, 0xb3da, 0xc33d, 0xd31c, 0xe37f, 0xf35e],
    [0x02b1, 0x1290, 0x22f3, 0x32d2, 0x4235, 0x5214, 0x6277, 0x7256],
    [0xb5ea, 0xa5cb, 0x95a8, 0x8589, 0xf56e, 0xe54f, 0xd52c, 0xc50d],
    [0x34e2, 0x24c3, 0x14a0, 0x0481, 0x7466, 0x6447, 0x5424, 0x4405],
    [0xa7db, 0xb7fa, 0x8799, 0x97b8, 0xe75f, 0xf77e, 0xc71d, 0xd73c],
    [0x26d3, 0x36f2, 0x0691, 0x16b0, 0x6657, 0x7676, 0x4615, 0x5634],
    [0xd94c, 0xc96d, 0xf90e, 0xe92f, 0x99c8, 0x89e9, 0xb98a, 0xa9ab],
    [0x5844, 0x4865, 0x7806, 0x6827, 0x18c0, 0x08e1, 0x3882, 0x28a3],
    [0xcb7d, 0xdb5c, 0xeb3f, 0xfb1e, 0x8bf9, 0x9bd8, 0xabbb, 0xbb9a],
    [0x4a75, 0x5a54, 0x6a37, 0x7a16, 0x0af1, 0x1ad0, 0x2ab3, 0x3a92],
    [0xfd2e, 0xed0f, 0xdd6c, 0xcd4d, 0xbdaa, 0xad8b, 0x9de8, 0x8dc9],
    [0x7c26, 0x6c07, 0x5c64, 0x4c45, 0x3ca2, 0x2c83, 0x1ce0, 0x0cc1],
    [0xef1f, 0xff3e, 0xcf5d, 0xdf7c, 0xaf9b, 0xbfba, 0x8fd9, 0x9ff8],
    [0x6e17, 0x7e36, 0x4e55, 0x5e74, 0x2e93, 0x3eb2, 0x0ed1, 0x1ef0]
  ]

  lemma TableShape()
    ensures |CRC16_TAB| == 32 && forall r :: 0 <= r < 32 ==> |CRC16_TAB[r]| == 8
  {
  }

  // ----- what the table holds -----

  /** One step of the division on a machine word. */
  function Step(c: bv16): bv16 {
    if c & 0x8000 != 0 then (c << 1) ^ 0x1021 else c << 1
  }

  function Step8(c: bv16): bv16 {
    Step(Step(Step(Step(Step(Step(Step(Step(c))))))))
  }

  lemma GeneratorBits()
    ensures Word(0x1021) == seq(16, i => Tap(i))
  {
    var w := Word(0x1021);
    forall i | 0 <= i < 4
      ensures w[4 + i] == Bit(0x0210, i) && w[8 + i] == Bit(0x2100, i) && w[12 + i] == Bit(0x1000, i)
    {
      BitSkip(0x1021, i);
      BitSkip(0x1021, 4 + i);
      BitSkip(0x1021, 8 + i);
      BitSkip(0x0210, i);
      BitSkip(0x0210, 4 + i);
      BitSkip(0x2100, i);
    }
    FirstBits(0x1021);
    FirstBits(0x0210);
    FirstBits(0x2100);
    FirstBits(0x1000);
    assert !w[0] && !w[1] && !w[2] && w[3];
    assert !w[4 + 0] && !w[4 + 1] && !w[4 + 2] && !w[4 + 3];
    assert !w[8 + 0] && !w[8 + 1] && w[8 + 2] && !w[8 + 3];
    assert !w[12 + 0] && !w[12 + 1] && !w[12 + 2] && w[12 + 3];
  }

  lemma StepBits(c: bv16)
    ensures Word(Step(c)) == Shift(Word(c))
  {
    var w := Word(c);
    WordDouble(c);
    assert w[0] == (c & 0x8000 != 0);
    if w[0] {
      WordXor(c << 1, 0x1021);
      GeneratorBits();
      assert Shift(w) == Xor(w[1..] + [false], seq(16, i => Tap(i)));
    } else {
      assert Shift(w) == w[1..] + [false];
    }
  }

  lemma Step8Bits(c: bv16)
    ensures Word(Step8(c)) == ShiftTimes(Word(c), 8)
  {
    var c1 := Step(c);
    var c2 := Step(c1);
    var c3 := Step(c2);
    var c4 := Step(c3);
    var c5 := Step(c4);
    var c6 := Step(c5);
    var c7 := Step(c6);
    StepBits(c);
    StepBits(c1);
    StepBits(c2);
    StepBits(c3);
    StepBits(c4);
    StepBits(c5);
    StepBits(c6);
    StepBits(c7);
    assert ShiftTimes(Word(c), 8) == ShiftTimes(Word(c4), 4);
  }

  /** A row of the table is the first row with the row's first entry added. */
  function Row(h: bv16): seq<bv16> {
    [h, h ^ 0x1021, h ^ 0x2042, h ^ 0x3063, h ^ 0x4084, h ^ 0x50a5, h ^ 0x60c6, h ^ 0x70e7]
  }

  /** The column of the first row, before the eight steps. */
  lemma Column(h: bv16, j: bv8)
    requires j < 8
    ensures Row(h)[j as int] == h ^ Step8(High(j))
  {
    if {
      case j == 0 => assert j as int == 0 && Step8(0x0) == 0x0000;
      case j == 1 => assert j as int == 1 && Step8(0x100) == 0x1021;
      case j == 2 => assert j as int == 2 && Step8(0x200) == 0x2042;
      case j == 3 => assert j as int == 3 && Step8(0x300) == 0x3063;
      case j == 4 => assert j as int == 4 && Step8(0x400) == 0x4084;
      case j == 5 => assert j as int == 5 && Step8(0x500) == 0x50a5;
      case j == 6 => assert j as int == 6 && Step8(0x600) == 0x60c6;
      case j == 7 => assert j as int == 7 && Step8(0x700) == 0x70e7;
    }
  }

  lemma IndexParts(i: bv8)
    ensures i >> 3 < 32 && i & 7 < 8
    ensures High((i >> 3) << 3) ^ High(i & 7) == High(i)
  {
  }

  /** The table entry for an index byte. */
  function Entry(i: bv8): bv16
  {
    TableShape();
    CRC16_TAB[(i >> 3) as int][(i & 7) as int]
  }

  lemma RowOf(r: bv8)
    requires r < 32
    ensures |CRC16_TAB| == 32 && CRC16_TAB[r as int] == Row(Step8(High(r << 3)))
  {
  }

  /** Every table entry is the remainder of its index byte after eight steps. */
  lemma EntryBits(i: bv8)
    ensures Word(Entry(i)) == ShiftTimes(Word(High(i)), 8)
  {
    var r, j := i >> 3, i & 7;
    var hr, hj := High(r << 3), High(j);
    IndexParts(i);
    RowOf(r);
    Column(Step8(hr), j);
    EntrySum(hr, hj);
  }

  lemma EntrySum(hr: bv16, hj: bv16)
    ensures Word(Step8(hr) ^ Step8(hj)) == ShiftTimes(Word(hr ^ hj), 8)
  {
    WordXor(Step8(hr), Step8(hj));
    Step8Bits(hr);
    Step8Bits(hj);
    ShiftTimesLinear(Word(hr), Word(hj), 8);
    WordXor(hr, hj);
  }

  // ----- one byte -----

  /** The index of the table entry for the next byte. */
  function Index(c: bv16, b: bv8): bv8 {
    (((c >> 8) ^ (b as bv16)) & 0xff) as bv8
  }

  lemma IndexHigh(c: bv16, b: bv8)
    ensures High(Index(c, b)) == (c & 0xff00) ^ High(b)
  {
  }

  lemma IndexBits(c: bv16, b: bv8)
    ensures Word(High(Index(c, b))) == Xor(Word(c & 0xff00), Word(High(b)))
  {
    IndexHigh(c, b);
    WordXor(c & 0xff00, High(b));
  }

  lemma Halves(c: bv16, top: bv16, low: bv16)
    requires top == c & 0xff00 && low == c & 0xff
    ensures top ^ low == c
  {
  }

  lemma HalvesBits(c: bv16)
    ensures Word(c) == Xor(Word(c & 0xff00), Word(c & 0xff))
  {
    Halves(c, c & 0xff00, c & 0xff);
    WordXor(c & 0xff00, c & 0xff);
  }

  lemma StepPlain(c: bv16)
    requires c & 0x8000 == 0
    ensures Word(c << 1) == Shift(Word(c))
  {
    StepBits(c);
  }

  lemma LowByteSteps(c: bv16, d: bv16)
    requires d == c & 0xff
    ensures d & 0x8000 == 0 && (d << 1) & 0x8000 == 0 && ((d << 1) << 1) & 0x8000 == 0
    ensures (((d << 1) << 1) << 1) & 0x8000 == 0 && ((((d << 1) << 1) << 1) << 1) & 0x8000 == 0
    ensures (((((d << 1) << 1) << 1) << 1) << 1) & 0x8000 == 0
    ensures ((((((d << 1) << 1) << 1) << 1) << 1) << 1) & 0x8000 == 0
    ensures (((((((d << 1) << 1) << 1) << 1) << 1) << 1) << 1) & 0x8000 == 0
    ensures (((((((d << 1) << 1) << 1) << 1) << 1) << 1) << 1) << 1 == c << 8
  {
  }

  /** Moving the low byte up needs no reduction. */
  lemma LowByte(c: bv16)
    ensures Word(c << 8) == ShiftTimes(Word(c & 0xff), 8)
  {
    var d := c & 0xff;
    LowByteSteps(c, d);
    var d1 := d << 1;
    var d2 := d1 << 1;
    var d3 := d2 << 1;
    var d4 := d3 << 1;
    var d5 := d4 << 1;
    var d6 := d5 << 1;
    var d7 := d6 << 1;
    StepPlain(d);
    StepPlain(d1);
    StepPlain(d2);
    StepPlain(d3);
    StepPlain(d4);
    StepPlain(d5);
    StepPlain(d6);
    StepPlain(d7);
    assert ShiftTimes(Word(d), 8) == ShiftTimes(Word(d4), 4);
  }

  lemma XorSwap(a: Bits, b: Bits, c: Bits)
    requires |a| == |b| == |c|
    ensures Xor(Xor(a, b), c) == Xor(Xor(a, c), b)
  {
  }

  lemma ByteSum(top: Bits, low: Bits, byte: Bits)
    requires |top| == |low| == 16 && |byte| == 8
    ensures Xor(ShiftTimes(Xor(top, Padded(byte)), 8), ShiftTimes(low, 8)) == FeedBits(Xor(top, low), byte)
  {
    ShiftTimesLinear(Xor(top, Padded(byte)), low, 8);
    XorSwap(top, Padded(byte), low);
    Absorb(Xor(top, low), byte);
  }

  lemma EntryPlus(i: bv8, entry: bv16, c: bv16)
    requires Word(entry) == ShiftTimes(Word(High(i)), 8)
    ensures Word(Plus(entry, c)) == Xor(ShiftTimes(Word(High(i)), 8), ShiftTimes(Word(c & 0xff), 8))
  {
    WordXor(entry, c << 8);
    LowByte(c);
  }

  lemma LookedUp(i: bv8, entry: bv16, c: bv16, b: bv8)
    requires Word(entry) == ShiftTimes(Word(High(i)), 8)
    requires Word(High(i)) == Xor(Word(c & 0xff00), Word(High(b)))
    ensures Word(Plus(entry, c)) == FeedBits(Word(c), ByteBits(b))
  {
    EntryPlus(i, entry, c);
    HalvesBits(c);
    HighWord(b);
    ByteSum(Word(c & 0xff00), Word(c & 0xff), ByteBits(b));
  }

  /** The body of the table loop. */
  function NextSum(c: bv16, b: bv8): bv16 {
    Plus(Entry(Index(c, b)), c)
  }

  /** A table entry added to the sum moved up by one byte. */
  function Plus(entry: bv16, c: bv16): bv16 {
    entry ^ (c << 8)
  }

  /** One step of the table loop feeds the eight bits of one byte. */
  lemma ByteStep(c: bv16, b: bv8)
    ensures Word(NextSum(c, b)) == FeedBits(Word(c), ByteBits(b))
  {
    var i := Index(c, b);
    EntryBits(i);
    IndexBits(c, b);
    LookedUp(i, Entry(i), c, b);
  }

  // ----- the loop -----

  function MessageBits(m: seq<bv8>): (bits: Bits)
    ensures |bits| == 8 * |m|
  {
    if m == [] then [] else MessageBits(m[..|m| - 1]) + ByteBits(m[|m| - 1])
  }

  /** The checksum of a message: the remainder of its bits. */
  function Checksum(m: seq<bv8>): (r: Bits)
    ensures |r| == 16
  {
    Remainder(MessageBits(m))
  }

  lemma WordZero()
    ensures Word(0) == Zeros(16)
  {
    forall i | 0 <= i < 16 ensures !Word(0)[i] {
      BitZero(i);
    }
  }

  /** `crc16_1021`: the table loop computes the bit-by-bit remainder of the first `len` bytes. */
  method Crc16(buf: array<bv8>, len: int) returns (cksum: bv16)
    requires len <= buf.Length
    ensures Word(cksum) == Checksum(buf[..if len < 0 then 0 else len])
  {
    WordZero();
    cksum := 0;
    var i := 0;
    while i < len
      invariant 0 <= i <= if len < 0 then 0 else len
      invariant Word(cksum) == Checksum(buf[..i])
    {
      assert buf[..i + 1][..i] == buf[..i];
      ByteStep(cksum, buf[i]);
      FeedBitsConcat(Zeros(16), MessageBits(buf[..i]), ByteBits(buf[i]));
      cksum := NextSum(cksum, buf[i]);
      i := i + 1;
    }
  }
}
