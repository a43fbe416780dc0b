/** Bit strings, most significant first, and division by x^16 + x^12 + x^5 + 1 one bit at a time
    (the encoding and checking process of ITU-T Recommendation V.41, section 2). */
module Gf2 {

  type Bits = seq<bool>

  function Zeros(n: nat): Bits {
    seq(n, _ => false)
  }

  function Xor(a: Bits, b: Bits): (r: Bits)
    requires |a| == |b|
    ensures |r| == |a|
  {
    seq(|a|, i requires 0 <= i < |a| => a[i] != b[i])
  }

  /** Positions in a 16-bit remainder of the terms x^12, x^5 and 1 of the generator. */
  predicate Tap(i: int) {
    i == 3 || i == 10 || i == 15
  }

  /** Multiplies a remainder by x and reduces it. */
  function Shift(w: Bits): (r: Bits)
    requires |w| == 16
    ensures |r| == 16
  {
    seq(16, i requires 0 <= i < 16 => (i < 15 && w[i + 1]) != (w[0] && Tap(i)))
  }

  /** Takes in the next message bit. */
  function Feed(w: Bits, bit: bool): (r: Bits)
    requires |w| == 16
    ensures |r| == 16
  {
    Shift(w[0 := w[0] != bit])
  }

  function FeedBits(w: Bits, bits: Bits): (r: Bits)
    requires |w| == 16
    ensures |r| == 16
    decreases |bits|
  {
    if bits == [] then w else FeedBits(Feed(w, bits[0]), bits[1..])
  }

  function ShiftTimes(w: Bits, n: nat): (r: Bits)
    requires |w| == 16
    ensures |r| == 16
    decreases n
  {
    if n == 0 then w else ShiftTimes(Shift(w), n - 1)
  }

  /** The remainder that the sender appends. */
  function Remainder(bits: Bits): (r: Bits)
    ensures |r| == 16
  {
    FeedBits(Zeros(16), bits)
  }

  // ----- linearity and injectivity -----

  lemma XorCancel(a: Bits, b: Bits)
    requires |a| == |b|
    ensures Xor(a, a) == Zeros(|a|) && Xor(a, Zeros(|a|)) == a && Xor(Zeros(|a|), a) == a
    ensures Xor(a, b) == Zeros(|a|) ==> a == b
  {
    if Xor(a, b) == Zeros(|a|) {
      forall i | 0 <= i < |a| ensures a[i] == b[i] {
        assert Xor(a, b)[i] == Zeros(|a|)[i];
      }
    }
  }

  lemma ShiftLinear(v: Bits, w: Bits)
    requires |v| == |w| == 16
    ensures Shift(Xor(v, w)) == Xor(Shift(v), Shift(w))
  {
  }

  lemma ShiftInjective(v: Bits, w: Bits)
    requires |v| == |w| == 16 && Shift(v) == Shift(w)
    ensures v == w
  {
    assert Shift(v)[15] == v[0] && Shift(w)[15] == w[0];
    forall i | 0 < i < 16 ensures v[i] == w[i] {
      assert Shift(v)[i - 1] == Shift(w)[i - 1];
    }
  }

  lemma {:induction false} ShiftTimesLinear(v: Bits, w: Bits, n: nat)
    requires |v| == |w| == 16
    ensures ShiftTimes(Xor(v, w), n) == Xor(ShiftTimes(v, n), ShiftTimes(w, n))
    decreases n
  {
    if n > 0 {
      ShiftLinear(v, w);
      ShiftTimesLinear(Shift(v), Shift(w), n - 1);
    }
  }

  lemma {:induction false} ShiftTimesInjective(v: Bits, w: Bits, n: nat)
    requires |v| == |w| == 16 && ShiftTimes(v, n) == ShiftTimes(w, n)
    ensures v == w
    decreases n
  {
    if n > 0 {
      ShiftTimesInjective(Shift(v), Shift(w), n - 1);
      ShiftInjective(v, w);
    }
  }

  lemma ShiftZeros(n: nat)
    ensures ShiftTimes(Zeros(16), n) == Zeros(16)
    decreases n
  {
    if n > 0 {
      assert Shift(Zeros(16)) == Zeros(16);
      ShiftZeros(n - 1);
    }
  }

  lemma FeedLinear(v: Bits, w: Bits, b: bool, d: bool)
    requires |v| == |w| == 16
    ensures Feed(Xor(v, w), b != d) == Xor(Feed(v, b), Feed(w, d))
  {
    var v', w' := v[0 := v[0] != b], w[0 := w[0] != d];
    assert Xor(v, w)[0 := Xor(v, w)[0] != (b != d)] == Xor(v', w');
    ShiftLinear(v', w');
  }

  lemma {:induction false} FeedBitsLinear(v: Bits, w: Bits, a: Bits, b: Bits)
    requires |v| == |w| == 16 && |a| == |b|
    ensures FeedBits(Xor(v, w), Xor(a, b)) == Xor(FeedBits(v, a), FeedBits(w, b))
    decreases |a|
  {
    if a != [] {
      FeedLinear(v, w, a[0], b[0]);
      assert Xor(a, b)[1..] == Xor(a[1..], b[1..]);
      FeedBitsLinear(Feed(v, a[0]), Feed(w, b[0]), a[1..], b[1..]);
    }
  }

  lemma {:induction false} FeedBitsConcat(w: Bits, a: Bits, b: Bits)
    requires |w| == 16
    ensures FeedBits(w, a + b) == FeedBits(FeedBits(w, a), b)
    decreases |a|
  {
    if a == [] {
      assert a + b == b;
    } else {
      assert (a + b)[1..] == a[1..] + b;
      FeedBitsConcat(Feed(w, a[0]), a[1..], b);
    }
  }

  /** `a` in front of zeros, as a remainder. */
  function Padded(a: Bits): (r: Bits)
    requires |a| <= 16
    ensures |r| == 16
  {
    a + Zeros(16 - |a|)
  }

  /** Up to 16 bits can be added to the remainder first and shifted through afterwards. */
  lemma {:induction false} Absorb(w: Bits, a: Bits)
    requires |w| == 16 && |a| <= 16
    ensures FeedBits(w, a) == ShiftTimes(Xor(w, Padded(a)), |a|)
    decreases |a|
  {
    if a == [] {
      XorCancel(w, w);
    } else {
      var v, rest := w[0 := w[0] != a[0]], [false] + a[1..];
      assert Xor(w, Padded(a)) == Xor(v, Padded(rest));
      assert Shift(Padded(rest)) == Padded(a[1..]);
      ShiftLinear(v, Padded(rest));
      Absorb(Feed(w, a[0]), a[1..]);
    }
  }

  lemma FeedZeros(w: Bits, n: nat)
    requires |w| == 16
    ensures FeedBits(w, Zeros(n)) == ShiftTimes(w, n)
    decreases n
  {
    if n > 0 {
      assert Zeros(n)[1..] == Zeros(n - 1);
      assert w[0 := w[0] != false] == w;
      FeedZeros(Shift(w), n - 1);
    }
  }
}
