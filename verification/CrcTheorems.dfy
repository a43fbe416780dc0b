/** What the checksum is worth: it is the remainder of polynomial division, and which errors it detects. */
module CrcTheorems {
  import opened Gf2
  import opened WordBits
  import opened Crc

  // ----- polynomial division -----

  /** Coefficient `i` of a polynomial, zero outside its range. */
  predicate Coefficient(p: Bits, i: int) {
    0 <= i < |p| && p[i]
  }

  /** Coefficient `i` of the product of `q` and x^16 + x^12 + x^5 + 1, counted from the highest of |q| + 16. */
  predicate TimesGenerator(q: Bits, i: int) {
    ((Coefficient(q, i) != Coefficient(q, i - 4)) != Coefficient(q, i - 11)) != Coefficient(q, i - 16)
  }

  /** bits * x^16 == q * generator + r over GF(2), with r of degree below 16. */
  ghost predicate Divides(bits: Bits, q: Bits, r: Bits) {
    && |q| == |bits| && |r| == 16
    && forall i :: 0 <= i < |bits| + 16 ==> Coefficient(bits, i) == (TimesGenerator(q, i) != Coefficient(r, i - |bits|))
  }

  lemma DivisionStep(bits: Bits, bit: bool, q: Bits, r: Bits)
    requires Divides(bits, q, r)
    ensures Divides(bits + [bit], q + [r[0] != bit], Feed(r, bit))
  {
    var n, t := |bits|, r[0] != bit;
    var bits', q', r' := bits + [bit], q + [t], Feed(r, bit);
    forall i | 0 <= i < n + 17
      ensures Coefficient(bits', i) == (TimesGenerator(q', i) != Coefficient(r', i - (n + 1)))
    {
      assert forall j :: j != n ==> Coefficient(q', j) == Coefficient(q, j);
      if i < n + 16 {
        assert Coefficient(bits, i) == (TimesGenerator(q, i) != Coefficient(r, i - n));
      }
    }
  }

  /** The remainder fed bit by bit is a remainder of the division of bits * x^16. */
  lemma {:induction false} RemainderDivides(bits: Bits) returns (q: Bits)
    ensures Divides(bits, q, Remainder(bits))
  {
    if bits == [] {
      q := [];
    } else {
      var front, last := bits[..|bits| - 1], bits[|bits| - 1];
      var p := RemainderDivides(front);
      FeedBitsConcat(Zeros(16), front, [last]);
      assert front + [last] == bits;
      DivisionStep(front, last, p, Remainder(front));
      q := p + [Remainder(front)[0] != last];
    }
  }

  lemma {:induction false} QuotientUnique(bits: Bits, q: Bits, r: Bits, p: Bits, s: Bits, n: nat)
    requires Divides(bits, q, r) && Divides(bits, p, s) && n <= |bits|
    ensures q[..n] == p[..n]
  {
    if n > 0 {
      var i := n - 1;
      QuotientUnique(bits, q, r, p, s, i);
      assert forall j :: j < i ==> Coefficient(q, j) == Coefficient(p, j) by {
        assert forall j :: 0 <= j < i ==> q[j] == q[..i][j] && p[j] == p[..i][j];
      }
      assert Coefficient(bits, i) == (TimesGenerator(q, i) != Coefficient(r, i - |bits|));
      assert Coefficient(bits, i) == (TimesGenerator(p, i) != Coefficient(s, i - |bits|));
    }
  }

  /** `r` is the remainder of a division of bits * x^16 by the generator. */
  ghost predicate IsRemainder(bits: Bits, r: Bits) {
    exists q :: Divides(bits, q, r)
  }

  lemma SameRemainder(bits: Bits, q: Bits, r: Bits, p: Bits, s: Bits)
    requires Divides(bits, q, r) && Divides(bits, p, s)
    ensures r == s
  {
    QuotientUnique(bits, q, r, p, s, |bits|);
    assert q == q[..|bits|] && p == p[..|bits|];
    forall j | 0 <= j < 16 ensures r[j] == s[j] {
      var i := |bits| + j;
      assert Coefficient(bits, i) == (TimesGenerator(q, i) != Coefficient(r, j));
      assert Coefficient(bits, i) == (TimesGenerator(p, i) != Coefficient(s, j));
    }
  }

  /** Feeding bits one at a time gives a remainder of the division, and there is no other. */
  lemma OnlyRemainder(bits: Bits, r: Bits)
    ensures IsRemainder(bits, r) <==> r == Remainder(bits)
  {
    var p := RemainderDivides(bits);
    if IsRemainder(bits, r) {
      var q :| Divides(bits, q, r);
      SameRemainder(bits, q, r, p, Remainder(bits));
    }
  }

  /** `crc16_1021` computes the remainder of M(x) * x^16. */
  lemma ChecksumIsRemainder(m: seq<bv8>, r: Bits)
    ensures IsRemainder(MessageBits(m), r) <==> r == Checksum(m)
  {
    OnlyRemainder(MessageBits(m), r);
  }

  // ----- which errors go undetected -----

  lemma RemainderLinear(a: Bits, b: Bits)
    requires |a| == |b|
    ensures Remainder(Xor(a, b)) == Xor(Remainder(a), Remainder(b))
  {
    assert Xor(Zeros(16), Zeros(16)) == Zeros(16);
    FeedBitsLinear(Zeros(16), Zeros(16), a, b);
  }

  /** Two messages collide exactly when their difference has remainder zero. */
  lemma Undetected(a: seq<bv8>, b: seq<bv8>)
    requires |a| == |b|
    ensures Checksum(a) == Checksum(b) <==> Remainder(Xor(MessageBits(a), MessageBits(b))) == Zeros(16)
  {
    RemainderLinear(MessageBits(a), MessageBits(b));
    XorCancel(Checksum(a), Checksum(b));
  }

  /** A remainder is zero only if it was zero before any run of zero bits. */
  lemma ZeroTail(w: Bits, n: nat)
    requires |w| == 16 && FeedBits(w, Zeros(n)) == Zeros(16)
    ensures w == Zeros(16)
  {
    FeedZeros(w, n);
    ShiftZeros(n);
    ShiftTimesInjective(w, Zeros(16), n);
  }

  /** At most 16 bits fed into zero give zero only if all of them are zero. */
  lemma ShortRemainder(w: Bits)
    requires |w| <= 16 && Remainder(w) == Zeros(16)
    ensures w == Zeros(|w|)
  {
    Absorb(Zeros(16), w);
    XorCancel(Padded(w), Zeros(16));
    ShiftZeros(|w|);
    ShiftTimesInjective(Padded(w), Zeros(16), |w|);
    assert w == Padded(w)[..|w|];
    assert Zeros(|w|) == Zeros(16)[..|w|];
  }

  lemma BurstRemainder(e: Bits, lo: nat, hi: nat)
    requires lo <= hi <= |e| && hi - lo <= 16
    requires forall i :: 0 <= i < |e| && e[i] ==> lo <= i < hi
    requires Remainder(e) == Zeros(16)
    ensures e == Zeros(|e|)
  {
    var w := e[lo..hi];
    assert e == Zeros(lo) + (w + Zeros(|e| - hi));
    FeedBitsConcat(Zeros(16), Zeros(lo), w + Zeros(|e| - hi));
    FeedZeros(Zeros(16), lo);
    ShiftZeros(lo);
    FeedBitsConcat(Zeros(16), w, Zeros(|e| - hi));
    ZeroTail(Remainder(w), |e| - hi);
    ShortRemainder(w);
  }

  lemma {:induction false} MessageBitsInjective(a: seq<bv8>, b: seq<bv8>)
    requires |a| == |b| && MessageBits(a) == MessageBits(b)
    ensures a == b
  {
    if a != [] {
      var n := |a| - 1;
      var fa, fb := MessageBits(a[..n]), MessageBits(b[..n]);
      assert fa == MessageBits(a)[..8 * n] && fb == MessageBits(b)[..8 * n];
      assert ByteBits(a[n]) == MessageBits(a)[8 * n..] && ByteBits(b[n]) == MessageBits(b)[8 * n..];
      MessageBitsInjective(a[..n], b[..n]);
      ByteBitsInjective(a[n], b[n]);
      assert a == a[..n] + [a[n]] && b == b[..n] + [b[n]];
    }
  }

  /** Byte `i` of a message takes bits 8i to 8i + 7. */
  lemma {:induction false} MessageBitsAt(m: seq<bv8>, i: nat)
    requires i < |m|
    ensures MessageBits(m)[8 * i..8 * (i + 1)] == ByteBits(m[i])
  {
    var n := |m| - 1;
    if i < n {
      MessageBitsAt(m[..n], i);
      assert MessageBits(m)[8 * i..8 * (i + 1)] == MessageBits(m[..n])[8 * i..8 * (i + 1)];
    }
  }

  /** The most significant bit of a byte comes first. */
  lemma ByteOrder(b: bv8)
    ensures ByteBits(b) == [b & 0x80 != 0, b & 0x40 != 0, b & 0x20 != 0, b & 0x10 != 0,
                            b & 8 != 0, b & 4 != 0, b & 2 != 0, b & 1 != 0]
  {
    ByteTopMasks(b);
    ByteLowMasks(b);
  }

  /** Every burst error is detected: messages of one length that differ only within 16 consecutive bits,
      wherever they start, have different checksums. */
  lemma BurstDetected(a: seq<bv8>, b: seq<bv8>, k: int)
    requires |a| == |b| && a != b
    requires forall i :: 0 <= i < 8 * |a| && MessageBits(a)[i] != MessageBits(b)[i] ==> k <= i < k + 16
    ensures Checksum(a) != Checksum(b)
  {
    var e, n := Xor(MessageBits(a), MessageBits(b)), 8 * |a|;
    if Checksum(a) == Checksum(b) {
      Undetected(a, b);
      var lo := if k < 0 then 0 else if k > n then n else k;
      var hi := if k + 16 > n then n else if k + 16 < lo then lo else k + 16;
      BurstRemainder(e, lo, hi);
      XorCancel(MessageBits(a), MessageBits(b));
      MessageBitsInjective(a, b);
    }
  }

  // ----- parity -----

  /** Whether the number of one-bits is odd. */
  function Odd(bits: Bits): bool {
    if bits == [] then false else bits[0] != Odd(bits[1..])
  }

  lemma {:induction false} OddXor(a: Bits, b: Bits)
    requires |a| == |b|
    ensures Odd(Xor(a, b)) == (Odd(a) != Odd(b))
  {
    if a != [] {
      assert Xor(a, b)[1..] == Xor(a[1..], b[1..]);
      OddXor(a[1..], b[1..]);
    }
  }

  lemma {:induction false} OddConcat(a: Bits, b: Bits)
    ensures Odd(a + b) == (Odd(a) != Odd(b))
  {
    if a == [] {
      assert a + b == b;
    } else {
      assert (a + b)[1..] == a[1..] + b;
      OddConcat(a[1..], b);
    }
  }

  lemma {:induction false} OddZeros(n: nat)
    ensures !Odd(Zeros(n))
  {
    if n > 0 {
      assert Zeros(n)[1..] == Zeros(n - 1);
      OddZeros(n - 1);
    }
  }

  lemma OddTaps()
    ensures Odd(seq(16, i => Tap(i)))
  {
    var g := seq(16, i => Tap(i));
    assert g == Zeros(3) + ([true] + (Zeros(6) + ([true] + (Zeros(4) + [true]))));
    OddZeros(3);
    OddZeros(6);
    OddZeros(4);
    OddConcat(Zeros(4), [true]);
    OddConcat([true], Zeros(4) + [true]);
    OddConcat(Zeros(6), [true] + (Zeros(4) + [true]));
    OddConcat([true], Zeros(6) + ([true] + (Zeros(4) + [true])));
    OddConcat(Zeros(3), [true] + (Zeros(6) + ([true] + (Zeros(4) + [true]))));
  }

  lemma OddShift(w: Bits)
    requires |w| == 16
    ensures Odd(Shift(w)) == Odd(w)
  {
    var plain := w[1..] + [false];
    OddConcat(w[1..], [false]);
    if w[0] {
      var g := seq(16, i => Tap(i));
      assert Shift(w) == Xor(plain, g);
      OddXor(plain, g);
      OddTaps();
    } else {
      assert Shift(w) == plain;
    }
  }

  lemma {:induction false} OddFeedBits(w: Bits, bits: Bits)
    requires |w| == 16
    ensures Odd(FeedBits(w, bits)) == (Odd(w) != Odd(bits))
    decreases |bits|
  {
    if bits != [] {
      var v := w[0 := w[0] != bits[0]];
      assert v[1..] == w[1..];
      OddShift(v);
      OddFeedBits(Feed(w, bits[0]), bits[1..]);
    }
  }

  /** The checksum has the parity of the message. */
  lemma ChecksumParity(m: seq<bv8>)
    ensures Odd(Checksum(m)) == Odd(MessageBits(m))
  {
    OddZeros(16);
    OddFeedBits(Zeros(16), MessageBits(m));
  }

  /** Every error that flips an odd number of bits is detected. */
  lemma OddErrorDetected(a: seq<bv8>, b: seq<bv8>)
    requires |a| == |b| && Odd(Xor(MessageBits(a), MessageBits(b)))
    ensures Checksum(a) != Checksum(b)
  {
    OddXor(MessageBits(a), MessageBits(b));
    ChecksumParity(a);
    ChecksumParity(b);
  }

  // ----- appending -----

  lemma {:induction false} MessageBitsConcat(a: seq<bv8>, b: seq<bv8>)
    ensures MessageBits(a + b) == MessageBits(a) + MessageBits(b)
  {
    if b == [] {
      assert a + b == a;
    } else {
      var n := |b| - 1;
      assert (a + b)[..|a| + n] == a + b[..n];
      MessageBitsConcat(a, b[..n]);
    }
  }

  function ZeroBytes(n: nat): (z: seq<bv8>)
    ensures |z| == n
  {
    seq(n, _ => 0 as bv8)
  }

  lemma {:induction false} MessageBitsZeros(n: nat)
    ensures MessageBits(ZeroBytes(n)) == Zeros(8 * n)
  {
    if n > 0 {
      assert ZeroBytes(n)[..n - 1] == ZeroBytes(n - 1);
      MessageBitsZeros(n - 1);
      ByteZero();
    }
  }

  lemma ByteZero()
    ensures ByteBits(0) == Zeros(8)
  {
    forall i | 0 <= i < 8 ensures !ByteBits(0)[i] {
      BitZero(i);
    }
  }

  /** crc(a ++ b) == crc(a ++ zeros) xor crc(b). */
  lemma ChecksumConcat(a: seq<bv8>, b: seq<bv8>)
    ensures Checksum(a + b) == Xor(Checksum(a + ZeroBytes(|b|)), Checksum(b))
  {
    var z := ZeroBytes(|b|);
    var fa, mb := Checksum(a), MessageBits(b);
    MessageBitsConcat(a, b);
    MessageBitsConcat(a, z);
    MessageBitsZeros(|b|);
    FeedBitsConcat(Zeros(16), MessageBits(a), mb);
    FeedBitsConcat(Zeros(16), MessageBits(a), Zeros(8 * |b|));
    XorCancel(fa, fa);
    XorCancel(mb, mb);
    FeedBitsLinear(fa, Zeros(16), Zeros(8 * |b|), mb);
  }

  /** A message followed by two bytes has residue zero exactly when the bytes spell its checksum, high byte first. */
  lemma ResidueZero(m: seq<bv8>, hi: bv8, lo: bv8)
    ensures Checksum(m + [hi, lo]) == Zeros(16) <==> ByteBits(hi) + ByteBits(lo) == Checksum(m)
  {
    var w, x := Checksum(m), ByteBits(hi) + ByteBits(lo);
    MessageBitsConcat(m, [hi, lo]);
    assert MessageBits([hi, lo]) == x by {
      assert [hi, lo][..1] == [hi] && [hi][..0] == [];
    }
    FeedBitsConcat(Zeros(16), MessageBits(m), x);
    Absorb(w, x);
    assert Padded(x) == x;
    ShiftZeros(16);
    XorCancel(w, x);
    XorCancel(x, w);
    if Checksum(m + [hi, lo]) == Zeros(16) {
      ShiftTimesInjective(Xor(w, x), Zeros(16), 16);
    }
  }

  /** The two bytes of the word that the table loop returns are those two bytes. */
  lemma AppendedChecksum(m: seq<bv8>, cksum: bv16)
    requires Word(cksum) == Checksum(m)
    ensures Checksum(m + [(cksum >> 8) as bv8, (cksum & 0xff) as bv8]) == Zeros(16)
  {
    WordBytes(cksum);
    ResidueZero(m, (cksum >> 8) as bv8, (cksum & 0xff) as bv8);
  }
}
