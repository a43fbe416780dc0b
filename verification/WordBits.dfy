/** The bits of machine words: how the shifts and exclusive-ors of `uint16_t` act on them. */
module WordBits {
  import opened Gf2

  /** Bit `i` of a 16-bit word, counted from the most significant. */
  function Bit(c: bv16, i: nat): bool
    decreases i
  {
    if i == 0 then c & 0x8000 != 0 else Bit(c << 1, i - 1)
  }

  function Word(c: bv16): (w: Bits)
    ensures |w| == 16
  {
    seq(16, i requires 0 <= i < 16 => Bit(c, i))
  }

  /** A byte as the high half of a word. */
  function High(b: bv8): bv16 {
    (b as bv16) << 8
  }

  function ByteBits(b: bv8): (w: Bits)
    ensures |w| == 8
  {
    Word(High(b))[..8]
  }

  lemma TopXor(c: bv16, d: bv16, e: bv16)
    requires e == c ^ d
    ensures (e & 0x8000 != 0) == ((c & 0x8000 != 0) != (d & 0x8000 != 0))
  {
  }

  lemma ShiftXor(c: bv16, d: bv16, e: bv16)
    requires e == c ^ d
    ensures e << 1 == (c << 1) ^ (d << 1)
  {
  }

  lemma BitXorTop(c: bv16, d: bv16, e: bv16)
    requires (e & 0x8000 != 0) == ((c & 0x8000 != 0) != (d & 0x8000 != 0))
    ensures Bit(e, 0) == (Bit(c, 0) != Bit(d, 0))
  {
  }

  lemma BitXorNext(c: bv16, d: bv16, e: bv16, i: nat)
    requires i > 0 && Bit(e << 1, i - 1) == (Bit(c << 1, i - 1) != Bit(d << 1, i - 1))
    ensures Bit(e, i) == (Bit(c, i) != Bit(d, i))
  {
  }

  lemma BitXorZero(c: bv16, d: bv16, e: bv16)
    requires e == c ^ d
    ensures Bit(e, 0) == (Bit(c, 0) != Bit(d, 0))
  {
    TopXor(c, d, e);
    BitXorTop(c, d, e);
  }

  lemma {:induction false} BitXorPositive(c: bv16, d: bv16, e: bv16, i: nat)
    requires e == c ^ d && i > 0
    ensures Bit(e, i) == (Bit(c, i) != Bit(d, i))
    decreases i, 0
  {
    ShiftXor(c, d, e);
    var c', d', e' := c << 1, d << 1, e << 1;
    BitXor(c', d', e', i - 1);
    BitXorNext(c, d, e, i);
  }

  lemma {:induction false} BitXor(c: bv16, d: bv16, e: bv16, i: nat)
    requires e == c ^ d
    ensures Bit(e, i) == (Bit(c, i) != Bit(d, i))
    decreases i
  {
    if i == 0 {
      BitXorZero(c, d, e);
    } else {
      BitXorPositive(c, d, e, i);
    }
  }

  lemma WordXor(c: bv16, d: bv16)
    ensures Word(c ^ d) == Xor(Word(c), Word(d))
  {
    forall i | 0 <= i < 16 ensures Word(c ^ d)[i] == Xor(Word(c), Word(d))[i] {
      BitXor(c, d, c ^ d, i);
    }
  }

  lemma FirstBits(c: bv16)
    ensures Bit(c, 0) == (c & 0x8000 != 0) && Bit(c, 1) == ((c << 1) & 0x8000 != 0)
    ensures Bit(c, 2) == (((c << 1) << 1) & 0x8000 != 0) && Bit(c, 3) == ((((c << 1) << 1) << 1) & 0x8000 != 0)
  {
    assert Bit(c, 3) == Bit(c << 1, 2);
    assert Bit(c << 1, 2) == Bit((c << 1) << 1, 1);
  }

  lemma BitSkip(c: bv16, i: nat)
    ensures Bit(c, i + 4) == Bit((((c << 1) << 1) << 1) << 1, i)
  {
    assert Bit(c, i + 4) == Bit(c << 1, i + 3);
    assert Bit(c << 1, i + 3) == Bit((c << 1) << 1, i + 2);
    assert Bit((c << 1) << 1, i + 2) == Bit(((c << 1) << 1) << 1, i + 1);
  }

  /** After sixteen shifts nothing is left. */
  lemma ShiftedOut(c: bv16)
    ensures (((((((((((((((c << 1) << 1) << 1) << 1) << 1) << 1) << 1) << 1)
              << 1) << 1) << 1) << 1) << 1) << 1) << 1) << 1 == 0
  {
  }

  lemma LowBit(c: bv16)
    ensures !Bit(c << 1, 15)
  {
    var c1 := c << 1;
    var c5 := (((c1 << 1) << 1) << 1) << 1;
    var c9 := (((c5 << 1) << 1) << 1) << 1;
    var c13 := (((c9 << 1) << 1) << 1) << 1;
    var c16 := ((c13 << 1) << 1) << 1;
    ShiftedOut(c);
    BitSkip(c1, 11);
    BitSkip(c5, 7);
    BitSkip(c9, 3);
    assert Bit(c13, 3) == Bit(c16, 0);
  }

  lemma WordDouble(c: bv16)
    ensures Word(c << 1) == Word(c)[1..] + [false]
  {
    LowBit(c);
  }

  lemma {:induction false} BitZero(i: nat)
    ensures !Bit(0, i)
    decreases i
  {
    if i > 0 {
      BitZero(i - 1);
    }
  }

  lemma HighShifted(b: bv8)
    ensures (((((((High(b) << 1) << 1) << 1) << 1) << 1) << 1) << 1) << 1 == 0
  {
  }

  /** The low half of a byte's word is zero. */
  lemma HighWord(b: bv8)
    ensures Word(High(b)) == ByteBits(b) + Zeros(8)
  {
    var h := High(b);
    forall i | 8 <= i < 16 ensures !Word(h)[i] {
      BitSkip(h, i - 4);
      BitSkip((((h << 1) << 1) << 1) << 1, i - 8);
      HighShifted(b);
      BitZero(i - 8);
    }
    assert Word(h) == Word(h)[..8] + Word(h)[8..];
  }

  // ----- bytes by mask -----

  lemma HighMasks(b: bv8, h: bv16)
    requires h == (b as bv16) << 8
    ensures (h & 0x8000 != 0) == (b & 0x80 != 0)
    ensures ((h << 1) & 0x8000 != 0) == (b & 0x40 != 0)
    ensures (((h << 1) << 1) & 0x8000 != 0) == (b & 0x20 != 0)
    ensures ((((h << 1) << 1) << 1) & 0x8000 != 0) == (b & 0x10 != 0)
    ensures (((((h << 1) << 1) << 1) << 1) & 0x8000 != 0) == (b & 8 != 0)
    ensures ((((((h << 1) << 1) << 1) << 1) << 1) & 0x8000 != 0) == (b & 4 != 0)
    ensures (((((((h << 1) << 1) << 1) << 1) << 1) << 1) & 0x8000 != 0) == (b & 2 != 0)
    ensures ((((((((h << 1) << 1) << 1) << 1) << 1) << 1) << 1) & 0x8000 != 0) == (b & 1 != 0)
  {
  }

  lemma ByteTopMasks(b: bv8)
    ensures Bit(High(b), 0) == (b & 0x80 != 0) && Bit(High(b), 1) == (b & 0x40 != 0)
    ensures Bit(High(b), 2) == (b & 0x20 != 0) && Bit(High(b), 3) == (b & 0x10 != 0)
  {
    HighMasks(b, High(b));
  }

  lemma ByteLowMasks(b: bv8)
    ensures Bit(High(b), 4) == (b & 8 != 0) && Bit(High(b), 5) == (b & 4 != 0)
    ensures Bit(High(b), 6) == (b & 2 != 0) && Bit(High(b), 7) == (b & 1 != 0)
  {
    var h := High(b);
    HighMasks(b, h);
    BitSkip(h, 0);
    BitSkip(h, 1);
    BitSkip(h, 2);
    BitSkip(h, 3);
  }

  lemma SameMasks(a: bv8, b: bv8)
    requires (a & 0x80 != 0) == (b & 0x80 != 0) && (a & 0x40 != 0) == (b & 0x40 != 0)
    requires (a & 0x20 != 0) == (b & 0x20 != 0) && (a & 0x10 != 0) == (b & 0x10 != 0)
    requires (a & 8 != 0) == (b & 8 != 0) && (a & 4 != 0) == (b & 4 != 0)
    requires (a & 2 != 0) == (b & 2 != 0) && (a & 1 != 0) == (b & 1 != 0)
    ensures a == b
  {
  }

  lemma ByteBitsInjective(a: bv8, b: bv8)
    requires ByteBits(a) == ByteBits(b)
    ensures a == b
  {
    forall i | 0 <= i < 8 ensures Bit(High(a), i) == Bit(High(b), i) {
      assert ByteBits(a)[i] == ByteBits(b)[i];
    }
    ByteTopMasks(a);
    ByteTopMasks(b);
    ByteLowMasks(a);
    ByteLowMasks(b);
    SameMasks(a, b);
  }

  // ----- a word as two bytes -----

  lemma TopMasks(c: bv16, d: bv16)
    requires d == c & 0xff00
    ensures (d & 0x8000 != 0) == (c & 0x8000 != 0)
    ensures ((d << 1) & 0x8000 != 0) == ((c << 1) & 0x8000 != 0)
    ensures (((d << 1) << 1) & 0x8000 != 0) == (((c << 1) << 1) & 0x8000 != 0)
    ensures ((((d << 1) << 1) << 1) & 0x8000 != 0) == ((((c << 1) << 1) << 1) & 0x8000 != 0)
    ensures (((((d << 1) << 1) << 1) << 1) & 0x8000 != 0) == (((((c << 1) << 1) << 1) << 1) & 0x8000 != 0)
    ensures ((((((d << 1) << 1) << 1) << 1) << 1) & 0x8000 != 0) == ((((((c << 1) << 1) << 1) << 1) << 1) & 0x8000 != 0)
    ensures (((((((d << 1) << 1) << 1) << 1) << 1) << 1) & 0x8000 != 0)
         == (((((((c << 1) << 1) << 1) << 1) << 1) << 1) & 0x8000 != 0)
    ensures ((((((((d << 1) << 1) << 1) << 1) << 1) << 1) << 1) & 0x8000 != 0)
         == ((((((((c << 1) << 1) << 1) << 1) << 1) << 1) << 1) & 0x8000 != 0)
  {
  }

  lemma FourTopBits(c: bv16, d: bv16, i: nat)
    requires (d & 0x8000 != 0) == (c & 0x8000 != 0)
    requires ((d << 1) & 0x8000 != 0) == ((c << 1) & 0x8000 != 0)
    requires (((d << 1) << 1) & 0x8000 != 0) == (((c << 1) << 1) & 0x8000 != 0)
    requires ((((d << 1) << 1) << 1) & 0x8000 != 0) == ((((c << 1) << 1) << 1) & 0x8000 != 0)
    requires i < 4
    ensures Bit(d, i) == Bit(c, i)
  {
    FirstBits(c);
    FirstBits(d);
  }

  lemma TopBits(c: bv16, i: nat)
    requires i < 8
    ensures Bit(c & 0xff00, i) == Bit(c, i)
  {
    var d := c & 0xff00;
    TopMasks(c, d);
    if i < 4 {
      FourTopBits(c, d, i);
    } else {
      BitSkip(c, i - 4);
      BitSkip(d, i - 4);
      FourTopBits((((c << 1) << 1) << 1) << 1, (((d << 1) << 1) << 1) << 1, i - 4);
    }
  }

  lemma EightShifts(c: bv16)
    ensures ((((((((c << 1) << 1) << 1) << 1) << 1) << 1) << 1) << 1) == c << 8
  {
  }

  lemma LowBits(c: bv16, i: nat)
    ensures Bit(c, i + 8) == Bit(c << 8, i)
  {
    BitSkip(c, i + 4);
    BitSkip(((((c << 1) << 1) << 1) << 1), i);
    EightShifts(c);
  }

  lemma ByteWords(c: bv16)
    ensures High((c >> 8) as bv8) == c & 0xff00
    ensures High((c & 0xff) as bv8) == c << 8
  {
  }

  lemma WordBytes(c: bv16)
    ensures ByteBits((c >> 8) as bv8) + ByteBits((c & 0xff) as bv8) == Word(c)
  {
    ByteWords(c);
    forall i | 0 <= i < 8 ensures Word(c & 0xff00)[i] == Word(c)[i] {
      TopBits(c, i);
    }
    forall i | 8 <= i < 16 ensures Word(c << 8)[i - 8] == Word(c)[i] {
      LowBits(c, i - 8);
    }
  }
}
