/** Errors of few bits: the powers of x modulo x^16 + x^12 + x^5 + 1 repeat with period 32767 and no sooner, so two
    flipped bits go undetected exactly when their distance is a multiple of 32767. */
module CrcOrder {
  import opened Gf2
  import opened WordBits
  import opened Crc
  import opened CrcTheorems

  // ----- powers of x -----

  function One(): (r: Bits)
    ensures |r| == 16
  {
    Zeros(15) + [true]
  }

  /** x^n as a remainder. */
  function Power(n: nat): (r: Bits)
    ensures |r| == 16
  {
    ShiftTimes(One(), n)
  }

  lemma {:induction false} ShiftTimesAdd(w: Bits, a: nat, b: nat)
    requires |w| == 16
    ensures ShiftTimes(w, a + b) == ShiftTimes(ShiftTimes(w, a), b)
    decreases a
  {
    if a > 0 {
      ShiftTimesAdd(Shift(w), a - 1, b);
    }
  }

  /** The remainder with the single term x^k. */
  function Unit(k: nat): (r: Bits)
    requires k < 16
    ensures |r| == 16
  {
    Zeros(15 - k) + [true] + Zeros(k)
  }

  lemma {:induction false} PowerUnit(k: nat)
    requires k < 16
    ensures Power(k) == Unit(k)
  {
    if k > 0 {
      PowerUnit(k - 1);
      ShiftTimesAdd(One(), k - 1, 1);
      assert ShiftTimes(Unit(k - 1), 1) == Shift(Unit(k - 1));
      assert Shift(Unit(k - 1)) == Unit(k);
    }
  }

  lemma PowerSixteen()
    ensures Power(16) == Xor(Xor(Unit(12), Unit(5)), Unit(0))
  {
    PowerUnit(15);
    ShiftTimesAdd(One(), 15, 1);
    assert ShiftTimes(Unit(15), 1) == Shift(Unit(15));
  }

  /** x^16 is x^12 + x^5 + 1, at every power. */
  lemma Recurrence(n: nat)
    ensures Power(16 + n) == Xor(Xor(Power(12 + n), Power(5 + n)), Power(n))
  {
    PowerSixteen();
    PowerUnit(12);
    PowerUnit(5);
    PowerUnit(0);
    ShiftTimesAdd(One(), 16, n);
    ShiftTimesAdd(One(), 12, n);
    ShiftTimesAdd(One(), 5, n);
    ShiftTimesLinear(Xor(Power(12), Power(5)), Power(0), n);
    ShiftTimesLinear(Power(12), Power(5), n);
  }

  lemma PowerThirtyTwo()
    ensures Power(32) == Xor(Xor(Power(24), Power(10)), Power(0))
  {
    Recurrence(16);
    Recurrence(12);
    Recurrence(5);
    Recurrence(0);
    Cancel(Power(24), Power(17), Power(12), Power(10), Power(5), Power(0));
  }

  lemma Cancel(a: Bits, b: Bits, c: Bits, d: Bits, e: Bits, f: Bits)
    requires |a| == |b| == |c| == |d| == |e| == |f|
    ensures Xor(Xor(Xor(Xor(a, b), c), Xor(Xor(b, d), e)), Xor(Xor(c, e), f)) == Xor(Xor(a, d), f)
  {
  }

  // ----- squaring -----

  /** The term x^2n of a square, if there is a term x^n. */
  function SquareTerm(bit: bool, n: nat): (r: Bits)
    ensures |r| == 16
  {
    if bit then Power(2 * n) else Zeros(16)
  }

  /** The square of a polynomial over GF(2): every term x^k becomes x^2k. */
  function Square(bits: Bits): (r: Bits)
    ensures |r| == 16
  {
    if bits == [] then Zeros(16)
    else Xor(Square(bits[1..]), SquareTerm(bits[0], |bits| - 1))
  }

  lemma {:induction false} SquareLinear(a: Bits, b: Bits)
    requires |a| == |b|
    ensures Square(Xor(a, b)) == Xor(Square(a), Square(b))
  {
    if a != [] {
      assert Xor(a, b)[1..] == Xor(a[1..], b[1..]);
      SquareLinear(a[1..], b[1..]);
    }
  }

  lemma {:induction false} SquareAppend(bits: Bits)
    ensures Square(bits + [false]) == ShiftTimes(Square(bits), 2)
  {
    if bits == [] {
      assert bits + [false] == [false];
      ShiftZeros(2);
    } else {
      var t := SquareTerm(bits[0], |bits| - 1);
      assert (bits + [false])[1..] == bits[1..] + [false];
      SquareAppend(bits[1..]);
      ShiftTimesLinear(Square(bits[1..]), t, 2);
      ShiftTimesAdd(One(), 2 * (|bits| - 1), 2);
      ShiftZeros(2);
    }
  }

  lemma {:induction false} SquareLeading(n: nat, bits: Bits)
    ensures Square(Zeros(n) + bits) == Square(bits)
  {
    if n == 0 {
      assert Zeros(0) + bits == bits;
    } else {
      assert (Zeros(n) + bits)[1..] == Zeros(n - 1) + bits;
      SquareLeading(n - 1, bits);
      XorCancel(Square(bits), Square(bits));
    }
  }

  lemma SquareUnit(k: nat)
    requires k < 16
    ensures Square(Unit(k)) == Power(2 * k)
  {
    var one := [true] + Zeros(k);
    assert Unit(k) == Zeros(15 - k) + one;
    SquareLeading(15 - k, one);
    assert one[1..] == Zeros(k) == Zeros(k) + [];
    SquareLeading(k, []);
    XorCancel(Power(2 * k), Power(2 * k));
  }

  lemma SquareGenerator(g: Bits)
    requires g == Xor(Xor(Unit(12), Unit(5)), Unit(0))
    ensures Square(g) == Power(32)
  {
    SquareLinear(Xor(Unit(12), Unit(5)), Unit(0));
    SquareLinear(Unit(12), Unit(5));
    SquareUnit(12);
    SquareUnit(5);
    SquareUnit(0);
    PowerThirtyTwo();
  }

  lemma ShiftParts(u: Bits, plain: Bits)
    requires |u| == 16 && plain == u[1..] + [false]
    ensures Shift(u) == if u[0] then Xor(plain, Xor(Xor(Unit(12), Unit(5)), Unit(0))) else plain
  {
  }

  /** Squaring turns a multiplication by x into one by x^2. */
  lemma SquareShift(u: Bits)
    requires |u| == 16
    ensures Square(Shift(u)) == ShiftTimes(Square(u), 2)
  {
    var rest, top := u[1..], if u[0] then Power(30) else Zeros(16);
    var plain := rest + [false];
    SquareAppend(rest);
    ShiftTimesLinear(Square(rest), top, 2);
    ShiftParts(u, plain);
    if u[0] {
      var g := Xor(Xor(Unit(12), Unit(5)), Unit(0));
      SquareLinear(plain, g);
      SquareGenerator(g);
      ShiftTimesAdd(One(), 30, 2);
    } else {
      ShiftZeros(2);
      XorCancel(Square(plain), Square(plain));
    }
  }

  /** x^2n is the square of x^n. */
  lemma {:induction false} SquareLaw(n: nat)
    ensures Power(2 * n) == Square(Power(n))
  {
    if n == 0 {
      PowerUnit(0);
      SquareUnit(0);
    } else {
      SquareLaw(n - 1);
      SquareShift(Power(n - 1));
      ShiftTimesAdd(One(), n - 1, 1);
      assert ShiftTimes(Power(n - 1), 1) == Shift(Power(n - 1));
      ShiftTimesAdd(One(), 2 * n - 2, 2);
    }
  }

  // ----- squaring machine words -----

  function HornerNext(acc: Bits, bit: bool): (r: Bits)
    requires |acc| == 16
    ensures |r| == 16
  {
    Xor(ShiftTimes(acc, 2), if bit then One() else Zeros(16))
  }

  /** Squaring from the top: multiply by x^2 and add the next bit. */
  function Horner(acc: Bits, bits: Bits): (r: Bits)
    requires |acc| == 16
    ensures |r| == 16
    decreases |bits|
  {
    if bits == [] then acc
    else Horner(HornerNext(acc, bits[0]), bits[1..])
  }

  lemma Regroup(a: Bits, b: Bits, c: Bits)
    requires |a| == |b| == |c|
    ensures Xor(Xor(a, b), c) == Xor(a, Xor(c, b))
  {
  }

  lemma HornerSplit(acc: Bits, b: Bits, n: nat, rest: Bits)
    requires |acc| == |b| == |rest| == 16
    ensures Xor(ShiftTimes(Xor(ShiftTimes(acc, 2), b), n), rest)
         == Xor(ShiftTimes(acc, 2 + n), Xor(rest, ShiftTimes(b, n)))
  {
    ShiftTimesLinear(ShiftTimes(acc, 2), b, n);
    ShiftTimesAdd(acc, 2, n);
    Regroup(ShiftTimes(acc, 2 + n), ShiftTimes(b, n), rest);
  }

  lemma HornerStep(acc: Bits, bit: bool, n: nat, rest: Bits)
    requires |acc| == |rest| == 16
    ensures Xor(ShiftTimes(HornerNext(acc, bit), 2 * n), rest)
         == Xor(ShiftTimes(acc, 2 + 2 * n), Xor(rest, SquareTerm(bit, n)))
  {
    HornerSplit(acc, if bit then One() else Zeros(16), 2 * n, rest);
    ShiftZeros(2 * n);
  }

  lemma {:induction false} HornerIsSquare(acc: Bits, bits: Bits)
    requires |acc| == 16
    ensures Horner(acc, bits) == Xor(ShiftTimes(acc, 2 * |bits|), Square(bits))
    decreases |bits|
  {
    if bits == [] {
      XorCancel(acc, acc);
    } else {
      HornerIsSquare(HornerNext(acc, bits[0]), bits[1..]);
      HornerStep(acc, bits[0], |bits| - 1, Square(bits[1..]));
    }
  }

  lemma HornerFromZero(bits: Bits)
    ensures Horner(Zeros(16), bits) == Square(bits)
  {
    HornerIsSquare(Zeros(16), bits);
    ShiftZeros(2 * |bits|);
    XorCancel(Square(bits), Square(bits));
  }

  function AddBit(t: bv16, bit: bool): bv16 {
    if bit then t ^ 1 else t
  }

  lemma AddBitBits(t: bv16, bit: bool)
    ensures Word(AddBit(t, bit)) == Xor(Word(t), if bit then One() else Zeros(16))
  {
    if bit {
      WordXor(t, 1);
      WordOne();
    } else {
      XorCancel(Word(t), One());
    }
  }

  lemma TwoSteps(acc: bv16)
    ensures Word(Step(Step(acc))) == ShiftTimes(Word(acc), 2)
  {
    StepBits(acc);
    StepBits(Step(acc));
    assert ShiftTimes(Word(acc), 2) == ShiftTimes(Shift(Word(acc)), 1);
  }

  function SquareStep(acc: bv16, bit: bool): bv16 {
    AddBit(Step(Step(acc)), bit)
  }

  lemma SquareStepBits(acc: bv16, bit: bool)
    ensures Word(SquareStep(acc, bit)) == HornerNext(Word(acc), bit)
  {
    TwoSteps(acc);
    AddBitBits(Step(Step(acc)), bit);
  }

  lemma WordOne()
    ensures Word(1) == One()
  {
    BitSkip(1, 0);
    forall i | 0 <= i < 4
      ensures Word(1)[i] == Bit(1, i) && Word(1)[4 + i] == Bit(0x10, i)
      ensures Word(1)[8 + i] == Bit(0x100, i) && Word(1)[12 + i] == Bit(0x1000, i)
    {
      BitSkip(1, i);
      BitSkip(1, 4 + i);
      BitSkip(1, 8 + i);
      BitSkip(0x10, i);
      BitSkip(0x10, 4 + i);
      BitSkip(0x100, i);
    }
    var w := Word(1);
    FirstBits(1);
    FirstBits(0x10);
    FirstBits(0x100);
    FirstBits(0x1000);
    assert !w[0] && !w[1] && !w[2] && !w[3];
    assert !w[4 + 0] && !w[4 + 1] && !w[4 + 2] && !w[4 + 3];
    assert !w[8 + 0] && !w[8 + 1] && !w[8 + 2] && !w[8 + 3];
    assert !w[12 + 0] && !w[12 + 1] && !w[12 + 2] && w[12 + 3];
  }

  function SquareFrom(acc: bv16, c: bv16, n: nat): bv16
    decreases n
  {
    if n == 0 then acc else SquareFrom(SquareStep(acc, Bit(c, 0)), c << 1, n - 1)
  }

  lemma {:induction false} SquareFromBits(acc: bv16, c: bv16, n: nat)
    requires n <= 16
    ensures Word(SquareFrom(acc, c, n)) == Horner(Word(acc), Word(c)[..n])
    decreases n
  {
    if n > 0 {
      SquareStepBits(acc, Bit(c, 0));
      WordDouble(c);
      assert Word(c << 1)[..n - 1] == Word(c)[..n][1..];
      SquareFromBits(SquareStep(acc, Bit(c, 0)), c << 1, n - 1);
    }
  }

  function SquareFour(acc: bv16, c: bv16): bv16 {
    var a1 := SquareStep(acc, Bit(c, 0));
    var a2 := SquareStep(a1, Bit(c << 1, 0));
    var a3 := SquareStep(a2, Bit((c << 1) << 1, 0));
    SquareStep(a3, Bit(((c << 1) << 1) << 1, 0))
  }

  function FourUp(c: bv16): bv16 {
    (((c << 1) << 1) << 1) << 1
  }

  lemma FourSteps(acc: bv16, c: bv16, n: nat)
    ensures SquareFrom(acc, c, n + 4) == SquareFrom(SquareFour(acc, c), FourUp(c), n)
  {
    var a1 := SquareStep(acc, Bit(c, 0));
    var a2 := SquareStep(a1, Bit(c << 1, 0));
    var a3 := SquareStep(a2, Bit((c << 1) << 1, 0));
    assert SquareFrom(acc, c, n + 4) == SquareFrom(a1, c << 1, n + 3);
    assert SquareFrom(a1, c << 1, n + 3) == SquareFrom(a2, (c << 1) << 1, n + 2);
    assert SquareFrom(a2, (c << 1) << 1, n + 2) == SquareFrom(a3, ((c << 1) << 1) << 1, n + 1);
  }

  function SquareWord(c: bv16): bv16 {
    SquareFour(SquareFour(SquareFour(SquareFour(0, c), FourUp(c)), FourUp(FourUp(c))), FourUp(FourUp(FourUp(c))))
  }

  lemma SquareWordIsFrom(c: bv16)
    ensures SquareWord(c) == SquareFrom(0, c, 16)
  {
    var c4, c8 := FourUp(c), FourUp(FourUp(c));
    var a4 := SquareFour(0, c);
    var a8 := SquareFour(a4, c4);
    FourSteps(0, c, 12);
    FourSteps(a4, c4, 8);
    FourSteps(a8, c8, 4);
    FourSteps(SquareFour(a8, c8), FourUp(c8), 0);
  }

  lemma SquareWordBits(c: bv16)
    ensures Word(SquareWord(c)) == Square(Word(c))
  {
    SquareWordIsFrom(c);
    SquareFromBits(0, c, 16);
    assert Word(c)[..16] == Word(c);
    WordZero();
    HornerFromZero(Word(c));
  }

  lemma Doubled(n: nat, c: bv16, d: bv16)
    requires Power(n) == Word(c) && SquareWord(c) == d
    ensures Power(2 * n) == Word(d)
  {
    SquareLaw(n);
    SquareWordBits(c);
  }

  lemma Next(n: nat, c: bv16, d: bv16)
    requires Power(n) == Word(c) && Step(c) == d
    ensures Power(n + 1) == Word(d)
  {
    StepBits(c);
    ShiftTimesAdd(One(), n, 1);
    assert ShiftTimes(Power(n), 1) == Shift(Power(n));
  }

  // ----- four particular powers -----

  lemma Power217()
    ensures Power(217) == Word(0x48e3)
  {
    WordOne();
    Next(0, 0x1, 0x2);
    Doubled(1, 0x2, 0x4);
    Next(2, 0x4, 0x8);
    Doubled(3, 0x8, 0x40);
    Doubled(6, 0x40, 0x1000);
    Next(12, 0x1000, 0x2000);
    Doubled(13, 0x2000, 0xccc4);
    Next(26, 0xccc4, 0x89a9);
    Doubled(27, 0x89a9, 0x1168);
    Doubled(54, 0x1168, 0x3750);
    Doubled(108, 0x3750, 0xac61);
    Next(216, 0xac61, 0x48e3);
  }

  lemma Power1057()
    ensures Power(1057) == Word(0xf2af)
  {
    WordOne();
    Next(0, 0x1, 0x2);
    Doubled(1, 0x2, 0x4);
    Doubled(2, 0x4, 0x10);
    Doubled(4, 0x10, 0x100);
    Doubled(8, 0x100, 0x1021);
    Doubled(16, 0x1021, 0x3730);
    Next(32, 0x3730, 0x6e60);
    Doubled(33, 0x6e60, 0xc1c6);
    Doubled(66, 0xc1c6, 0x4e8a);
    Doubled(132, 0x4e8a, 0x5946);
    Doubled(264, 0x5946, 0x78b3);
    Doubled(528, 0x78b3, 0xf147);
    Next(1056, 0xf147, 0xf2af);
  }

  lemma Power4681()
    ensures Power(4681) == Word(0x2c42)
  {
    WordOne();
    Next(0, 0x1, 0x2);
    Doubled(1, 0x2, 0x4);
    Doubled(2, 0x4, 0x10);
    Doubled(4, 0x10, 0x100);
    Next(8, 0x100, 0x200);
    Doubled(9, 0x200, 0x4084);
    Doubled(18, 0x4084, 0x4363);
    Doubled(36, 0x4363, 0x47d3);
    Next(72, 0x47d3, 0x8fa6);
    Doubled(73, 0x8fa6, 0x4388);
    Doubled(146, 0x4388, 0x1396);
    Doubled(292, 0x1396, 0x2280);
    Next(584, 0x2280, 0x4500);
    Doubled(585, 0x4500, 0x163);
    Doubled(1170, 0x163, 0x424);
    Doubled(2340, 0x424, 0x1621);
    Next(4680, 0x1621, 0x2c42);
  }

  lemma Power256()
    ensures Power(256) == Word(0x8e29)
  {
    WordOne();
    Next(0, 0x1, 0x2);
    Doubled(1, 0x2, 0x4);
    Doubled(2, 0x4, 0x10);
    Doubled(4, 0x10, 0x100);
    Doubled(8, 0x100, 0x1021);
    Doubled(16, 0x1021, 0x3730);
    Doubled(32, 0x3730, 0xb861);
    Doubled(64, 0xb861, 0xaefc);
    Doubled(128, 0xaefc, 0x8e29);
  }

  lemma Power32768()
    ensures Power(32768) == Word(0x2)
  {
    Power256();
    Doubled(256, 0x8e29, 0x13fc);
    Doubled(512, 0x13fc, 0x36c4);
    Doubled(1024, 0x36c4, 0xfd50);
    Doubled(2048, 0xfd50, 0xaa9e);
    Doubled(4096, 0xaa9e, 0x881c);
    Doubled(8192, 0x881c, 0x4458);
    Doubled(16384, 0x4458, 0x2);
  }

  // ----- the period -----

  ghost predicate Period(n: nat) {
    Power(n) == One()
  }

  /** A period can be taken away any number of times. */
  lemma {:induction false} PeriodTimes(b: nat, q: nat, r: nat)
    requires Period(b)
    ensures q * b >= 0 && Power(q * b + r) == Power(r)
    decreases q
  {
    if q > 0 {
      assert q * b == b + (q - 1) * b;
      PeriodTimes(b, q - 1, r);
      ShiftTimesAdd(One(), b, (q - 1) * b + r);
    }
  }

  lemma PeriodLong()
    ensures Period(32767)
  {
    Power32768();
    WordOne();
    Next(0, 1, 2);
    ShiftTimesAdd(One(), 32767, 1);
    assert ShiftTimes(Power(32767), 1) == Shift(Power(32767)) && Power(1) == Shift(One());
    ShiftInjective(Power(32767), One());
  }

  lemma NotPeriods()
    ensures !Period(217) && !Period(1057) && !Period(4681)
  {
    Power217();
    Power1057();
    Power4681();
    FirstBits(0x48e3);
    FirstBits(0xf2af);
    FirstBits(0x2c42);
    assert Word(0x48e3)[1] && Word(0xf2af)[0] && Word(0x2c42)[2];
  }

  lemma Distribute(u: int, q: int, b: int, r: int)
    ensures u * (q * b + r) == q * (u * b) + u * r
  {
    assert u * (q * b) == q * (u * b);
  }

  /** Of two periods with a common factor `u`, u times the greatest common divisor of the rest is a period. */
  lemma {:induction false} CommonPeriod(u: nat, a: nat, b: nat) returns (g: nat, k: nat, l: nat)
    requires Period(u * a) && Period(u * b)
    ensures Period(u * g) && a == g * k && b == g * l
    decreases b
  {
    if b == 0 {
      g, k, l := a, 1, 0;
    } else {
      var q, r := Divide(a, b);
      PeriodRest(u, q, b, r);
      var m;
      g, l, m := CommonPeriod(u, b, r);
      Distribute(g, q, l, m);
      k := q * l + m;
    }
  }

  lemma Divide(a: nat, b: nat) returns (q: nat, r: nat)
    requires b > 0
    ensures a == q * b + r && r < b
  {
    q, r := a / b, a % b;
  }

  lemma PeriodRest(u: nat, q: nat, b: nat, r: nat)
    requires Period(u * (q * b + r)) && Period(u * b)
    ensures Period(u * r)
  {
    Distribute(u, q, b, r);
    PeriodTimes(u * b, q, u * r);
  }

  lemma PrimeFactor(p: nat, n: nat, m: nat)
    requires (p == 7 || p == 31 || p == 151) && n * m == p
    ensures n == 1 || m == 1
  {
  }

  /** A period is a multiple of every prime factor `p` of 32767 == u * p for which u is not a period. */
  lemma MultipleOf(u: nat, p: nat, d: nat) returns (k: nat)
    requires (p == 7 || p == 31 || p == 151) && u * p == 32767 && Period(d) && !Period(u)
    ensures d == p * k
  {
    PeriodLong();
    PeriodTimes(d, u, 0);
    var g, l;
    g, k, l := CommonPeriod(u, d, p);
    PrimeFactor(p, g, l);
  }

  lemma MultipleOfAll(d: int, a: int, b: int, c: int)
    requires d == 7 * a == 31 * b == 151 * c
    ensures d % 32767 == 0
  {
    assert d == 32767 * (3 * a - 10 * b - 16 * c);
  }

  lemma PeriodIsMultiple(d: nat)
    requires Period(d)
    ensures d % 32767 == 0
  {
    NotPeriods();
    var a := MultipleOf(4681, 7, d);
    var b := MultipleOf(1057, 31, d);
    var c := MultipleOf(217, 151, d);
    MultipleOfAll(d, a, b, c);
  }

  lemma MultipleIsPeriod(d: nat)
    requires d % 32767 == 0
    ensures Period(d)
  {
    PeriodLong();
    PeriodTimes(32767, d / 32767, 0);
  }

  /** x^d is 1 exactly when d is a multiple of 32767. */
  lemma Order(d: nat)
    ensures Power(d) == One() <==> d % 32767 == 0
  {
    if Period(d) {
      PeriodIsMultiple(d);
    }
    if d % 32767 == 0 {
      MultipleIsPeriod(d);
    }
  }

  // ----- two flipped bits -----

  /** Feeding a one-bit clears the remainder x^15 only. */
  lemma ClearedByOne(w: Bits)
    requires |w| == 16
    ensures Feed(w, true) == Zeros(16) <==> w == Unit(15)
  {
    var v := w[0 := w[0] != true];
    assert Shift(Zeros(16)) == Zeros(16);
    if Feed(w, true) == Zeros(16) {
      ShiftInjective(v, Zeros(16));
      SameTop(w, Unit(15));
    }
    if w == Unit(15) {
      assert v == Zeros(16);
    }
  }

  /** A second one-bit `d` places after the first clears the remainder exactly when x^d is 1. */
  lemma SecondBit(d: nat)
    requires d > 0
    ensures Feed(ShiftTimes(Shift(Unit(15)), d - 1), true) == Zeros(16) <==> Period(d)
  {
    var w := ShiftTimes(Shift(Unit(15)), d - 1);
    PowerUnit(15);
    assert w == ShiftTimes(Unit(15), d);
    ShiftTimesAdd(One(), 15, d);
    ShiftTimesAdd(One(), d, 15);
    ClearedByOne(w);
    if w == Unit(15) {
      ShiftTimesInjective(Power(d), One(), 15);
    }
  }

  lemma SameTop(w: Bits, top: Bits)
    requires |w| == 16 && top == Unit(15) && w[0 := w[0] != true] == Zeros(16)
    ensures w == top
  {
    forall i | 0 <= i < 16 ensures w[i] == top[i] {
      assert w[0 := w[0] != true][i] == Zeros(16)[i];
    }
  }

  lemma TwoBitRemainder(d: nat)
    requires d > 0
    ensures Remainder([true] + Zeros(d - 1) + [true]) == Feed(ShiftTimes(Shift(Unit(15)), d - 1), true)
  {
    var head := [true] + Zeros(d - 1);
    var w := FeedBits(Zeros(16), [true]);
    assert Zeros(16)[0 := Zeros(16)[0] != true] == Unit(15);
    FeedBitsConcat(Zeros(16), head, [true]);
    FeedBitsConcat(Zeros(16), [true], Zeros(d - 1));
    FeedZeros(w, d - 1);
  }

  /** Bits that are set at positions `i` and `j` only. */
  ghost predicate SetAt(e: Bits, i: nat, j: nat) {
    i < j < |e| && forall k :: 0 <= k < |e| ==> (e[k] <==> k == i || k == j)
  }

  lemma TwoBits(e: Bits, i: nat, j: nat)
    requires SetAt(e, i, j)
    ensures Remainder(e) == Zeros(16) <==> (j - i) % 32767 == 0
  {
    var d, t := j - i, |e| - j - 1;
    var two := [true] + Zeros(d - 1) + [true];
    assert e == Zeros(i) + (two + Zeros(t));
    FeedBitsConcat(Zeros(16), Zeros(i), two + Zeros(t));
    FeedZeros(Zeros(16), i);
    ShiftZeros(i);
    FeedBitsConcat(Zeros(16), two, Zeros(t));
    ZeroTailIff(Remainder(two), t);
    TwoBitRemainder(d);
    SecondBit(d);
    Order(d);
  }

  lemma ZeroTailIff(w: Bits, n: nat)
    requires |w| == 16
    ensures FeedBits(w, Zeros(n)) == Zeros(16) <==> w == Zeros(16)
  {
    if FeedBits(w, Zeros(n)) == Zeros(16) {
      ZeroTail(w, n);
    }
    FeedZeros(Zeros(16), n);
    ShiftZeros(n);
  }

  /** Two flipped bits go undetected exactly when their distance is a multiple of 32767. */
  lemma TwoBitError(a: seq<bv8>, b: seq<bv8>, i: nat, j: nat)
    requires |a| == |b| && i < j < 8 * |a|
    requires forall k :: 0 <= k < 8 * |a| ==> (MessageBits(a)[k] != MessageBits(b)[k] <==> k == i || k == j)
    ensures Checksum(a) == Checksum(b) <==> (j - i) % 32767 == 0
  {
    Undetected(a, b);
    TwoBits(Xor(MessageBits(a), MessageBits(b)), i, j);
  }

  // ----- up to three flipped bits -----

  /** The number of one-bits. */
  function Ones(bits: Bits): nat {
    if bits == [] then 0 else (if bits[0] then 1 else 0) + Ones(bits[1..])
  }

  lemma {:induction false} OddOnes(bits: Bits)
    ensures Odd(bits) <==> Ones(bits) % 2 == 1
  {
    if bits != [] {
      OddOnes(bits[1..]);
    }
  }

  lemma {:induction false} NoOnes(bits: Bits)
    requires Ones(bits) == 0
    ensures forall k :: 0 <= k < |bits| ==> !bits[k]
  {
    if bits != [] {
      NoOnes(bits[1..]);
      assert forall k :: 0 < k < |bits| ==> bits[k] == bits[1..][k - 1];
    }
  }

  lemma {:induction false} OneOne(bits: Bits) returns (i: nat)
    requires Ones(bits) == 1
    ensures i < |bits| && forall k :: 0 <= k < |bits| ==> (bits[k] <==> k == i)
  {
    assert forall k :: 0 < k < |bits| ==> bits[k] == bits[1..][k - 1];
    if bits[0] {
      NoOnes(bits[1..]);
      i := 0;
    } else {
      var r := OneOne(bits[1..]);
      i := r + 1;
    }
  }

  lemma {:induction false} TwoOnes(bits: Bits) returns (i: nat, j: nat)
    requires Ones(bits) == 2
    ensures SetAt(bits, i, j)
  {
    assert forall k :: 0 < k < |bits| ==> bits[k] == bits[1..][k - 1];
    if bits[0] {
      var r := OneOne(bits[1..]);
      i, j := 0, r + 1;
    } else {
      var q, r := TwoOnes(bits[1..]);
      i, j := q + 1, r + 1;
    }
  }

  lemma {:induction false} OnesConcat(a: Bits, b: Bits)
    ensures Ones(a + b) == Ones(a) + Ones(b)
  {
    if a == [] {
      assert a + b == b;
    } else {
      assert (a + b)[1..] == a[1..] + b;
      OnesConcat(a[1..], b);
    }
  }

  lemma {:induction false} OnesZeros(n: nat)
    ensures Ones(Zeros(n)) == 0
  {
    if n > 0 {
      assert Zeros(n)[1..] == Zeros(n - 1);
      OnesZeros(n - 1);
    }
  }

  /** How many bits of two messages of one length differ. */
  function Flipped(a: seq<bv8>, b: seq<bv8>): nat
    requires |a| == |b|
  {
    Ones(Xor(MessageBits(a), MessageBits(b)))
  }

  /** In a message of at most 4095 bytes every error of one, two or three bits is detected. */
  lemma FewBitsDetected(a: seq<bv8>, b: seq<bv8>)
    requires |a| == |b| <= 4095 && 1 <= Flipped(a, b) <= 3
    ensures Checksum(a) != Checksum(b)
  {
    var e := Xor(MessageBits(a), MessageBits(b));
    OddOnes(e);
    if Odd(e) {
      OddErrorDetected(a, b);
    } else {
      var i, j := TwoOnes(e);
      TwoBits(e, i, j);
      Undetected(a, b);
    }
  }

  lemma TopAndBottom()
    ensures ByteBits(0x80) == [true] + Zeros(7) && ByteBits(1) == Zeros(7) + [true]
  {
    ByteTopMasks(0x80);
    ByteLowMasks(0x80);
    ByteTopMasks(1);
    ByteLowMasks(1);
  }

  /** The first bit and the one 32767 places after it: the message of zeros and this one collide. */
  lemma FarApart(n: nat) returns (b: seq<bv8>)
    requires n >= 4096
    ensures |b| == n && Flipped(ZeroBytes(n), b) == 2 && Checksum(ZeroBytes(n)) == Checksum(b)
  {
    b := [0x80 as bv8] + ZeroBytes(4094) + [1 as bv8] + ZeroBytes(n - 4096);
    var e := FarBits(n, b);
    MessageBitsZeros(n);
    XorCancel(e, e);
    TwoBits(e, 0, 32767);
    Undetected(ZeroBytes(n), b);
  }

  lemma FarBits(n: nat, b: seq<bv8>) returns (e: Bits)
    requires n >= 4096 && b == [0x80 as bv8] + ZeroBytes(4094) + [1 as bv8] + ZeroBytes(n - 4096)
    ensures e == MessageBits(b) && SetAt(e, 0, 32767) && Ones(e) == 2
  {
    var front := [0x80 as bv8] + ZeroBytes(4094);
    MessageBitsConcat([0x80 as bv8], ZeroBytes(4094));
    MessageBitsConcat(front, [1 as bv8]);
    MessageBitsConcat(front + [1 as bv8], ZeroBytes(n - 4096));
    MessageBitsZeros(4094);
    MessageBitsZeros(n - 4096);
    OneByte(0x80);
    OneByte(1);
    TopAndBottom();
    e := FarSum(n);
  }

  lemma OneByte(x: bv8)
    ensures MessageBits([x]) == ByteBits(x)
  {
    assert [x][..0] == [];
  }

  lemma FarSum(n: nat) returns (e: Bits)
    requires n >= 4096
    ensures e == [true] + Zeros(7) + Zeros(32752) + (Zeros(7) + [true]) + Zeros(8 * (n - 4096))
    ensures SetAt(e, 0, 32767) && Ones(e) == 2
  {
    e := [true] + Zeros(7) + Zeros(32752) + (Zeros(7) + [true]) + Zeros(8 * (n - 4096));
    var x, y, z := [true] + Zeros(7), Zeros(32752), Zeros(7) + [true];
    OnesConcat([true], Zeros(7));
    OnesConcat(x, y);
    OnesConcat(Zeros(7), [true]);
    OnesConcat(x + y, z);
    OnesConcat(x + y + z, Zeros(8 * (n - 4096)));
    OnesZeros(7);
    OnesZeros(32752);
    OnesZeros(8 * (n - 4096));
  }

  /** All errors of up to three bits in messages of `n` bytes are detected exactly when `n` is at most 4095. */
  lemma ThreeBitsIff(n: nat)
    ensures (forall a: seq<bv8>, b: seq<bv8> :: |a| == |b| == n && 1 <= Flipped(a, b) <= 3 ==>
              Checksum(a) != Checksum(b)) <==> n <= 4095
  {
    if n <= 4095 {
      forall a: seq<bv8>, b: seq<bv8> | |a| == |b| == n && 1 <= Flipped(a, b) <= 3
        ensures Checksum(a) != Checksum(b)
      {
        FewBitsDetected(a, b);
      }
    } else {
      var b := FarApart(n);
      assert |ZeroBytes(n)| == |b| == n && Flipped(ZeroBytes(n), b) == 2;
    }
  }
}
