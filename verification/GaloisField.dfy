// The field of 256 elements in which Reed-Solomon codes over bytes compute: polynomials over the
// two-element field modulo x^8 + x^4 + x^3 + x^2 + 1.
module GaloisField {
  import opened Basics

  type Elem = bv8

  const ZERO: Elem := 0
  const ONE: Elem := 1

  // ---- addition

  function Add(a: Elem, b: Elem): Elem {
    a ^ b
  }

  lemma AddLaws(a: Elem, b: Elem, c: Elem)
    ensures Add(Add(a, b), c) == Add(a, Add(b, c))
    ensures Add(a, b) == Add(b, a)
    ensures Add(a, ZERO) == a && Add(ZERO, a) == a && Add(a, a) == ZERO
    ensures Add(a, b) == ZERO <==> a == b
  {
  }

  // (a + b) + (c + d) == (a + c) + (b + d)
  lemma AddSwap(a: Elem, b: Elem, c: Elem, d: Elem)
    ensures Add(Add(a, b), Add(c, d)) == Add(Add(a, c), Add(b, d))
  {
    hide Add;
    AddLaws(a, b, Add(c, d));
    AddLaws(b, c, d);
    AddLaws(c, b, d);
    AddLaws(a, c, Add(b, d));
  }

  // ---- multiplication

  // Multiplication by x: a shift, reduced by the modulus if a bit falls out.
  function TimesX(a: Elem): Elem {
    (a << 1) ^ (if a & 0x80 == 0 then 0 else 0x1D)
  }

  function Pick(bit: bool, a: Elem): Elem {
    if bit then a else ZERO
  }

  // bits[0] * a + bits[1] * x * a + bits[2] * x^2 * a + ...
  function Comb(a: Elem, bits: seq<bool>): Elem
    decreases |bits|
  {
    if bits == [] then ZERO else Add(Pick(bits[0], a), Comb(TimesX(a), bits[1..]))
  }

  function Bits(a: Elem): (r: seq<bool>)
    ensures |r| == 8
  {
    [a & 1 != 0, a & 2 != 0, a & 4 != 0, a & 8 != 0, a & 16 != 0, a & 32 != 0, a & 64 != 0, a & 128 != 0]
  }

  function Mul(a: Elem, b: Elem): Elem {
    Comb(a, Bits(b))
  }

  lemma TimesXAdd(a: Elem, b: Elem)
    ensures TimesX(Add(a, b)) == Add(TimesX(a), TimesX(b))
  {
    assert (a ^ b) << 1 == (a << 1) ^ (b << 1);
    assert (a ^ b) & 0x80 == (a & 0x80) ^ (b & 0x80);
    assert a & 0x80 == 0 || a & 0x80 == 0x80;
    assert b & 0x80 == 0 || b & 0x80 == 0x80;
  }

  lemma TimesXZero()
    ensures TimesX(ZERO) == ZERO
  {
  }

  lemma {:induction false} CombZero(bits: seq<bool>)
    ensures Comb(ZERO, bits) == ZERO
    decreases |bits|
  {
    if bits != [] {
      CombZero(bits[1..]);
    }
  }

  lemma {:induction false} CombAdd(a: Elem, b: Elem, bits: seq<bool>)
    ensures Comb(Add(a, b), bits) == Add(Comb(a, bits), Comb(b, bits))
    decreases |bits|
  {
    hide TimesX, Add;
    AddLaws(ZERO, ZERO, ZERO);
    if bits != [] {
      TimesXAdd(a, b);
      CombAdd(TimesX(a), TimesX(b), bits[1..]);
      AddSwap(Pick(bits[0], a), Pick(bits[0], b), Comb(TimesX(a), bits[1..]), Comb(TimesX(b), bits[1..]));
    }
  }

  lemma {:induction false} CombTimesX(a: Elem, bits: seq<bool>)
    ensures Comb(TimesX(a), bits) == TimesX(Comb(a, bits))
    decreases |bits|
  {
    hide TimesX, Add;
    if bits == [] {
      TimesXZero();
    } else {
      CombTimesX(TimesX(a), bits[1..]);
      TimesXAdd(Pick(bits[0], a), Comb(TimesX(a), bits[1..]));
      TimesXZero();
    }
  }

  // Polynomials in x commute.
  lemma {:induction false} CombComb(a: Elem, bits: seq<bool>, more: seq<bool>)
    ensures Comb(Comb(a, bits), more) == Comb(Comb(a, more), bits)
    decreases |bits|
  {
    hide TimesX, Add;
    CombZero(more);
    if bits != [] {
      CombAdd(Pick(bits[0], a), Comb(TimesX(a), bits[1..]), more);
      CombComb(TimesX(a), bits[1..], more);
      CombTimesX(a, more);
    }
  }

  lemma CombOne(a: Elem)
    ensures Comb(ONE, Bits(a)) == a
  {
    hide Comb;
    Unrolled(ONE, Bits(a));
    Doublings();
  }

  // The sum written out.
  lemma Unrolled(a: Elem, bits: seq<bool>)
    requires |bits| == 8
    ensures var a1 := TimesX(a); var a2 := TimesX(a1); var a3 := TimesX(a2); var a4 := TimesX(a3);
            var a5 := TimesX(a4); var a6 := TimesX(a5); var a7 := TimesX(a6);
            Comb(a, bits) == Add(Pick(bits[0], a), Add(Pick(bits[1], a1), Add(Pick(bits[2], a2), Add(Pick(bits[3], a3),
                             Add(Pick(bits[4], a4), Add(Pick(bits[5], a5), Add(Pick(bits[6], a6),
                             Add(Pick(bits[7], a7), ZERO))))))))
  {
    hide TimesX, Add, Pick;
    var a1 := TimesX(a); var a2 := TimesX(a1); var a3 := TimesX(a2); var a4 := TimesX(a3);
    var a5 := TimesX(a4); var a6 := TimesX(a5); var a7 := TimesX(a6);
    assert Comb(a7, bits[7..]) == Add(Pick(bits[7], a7), ZERO) by { assert bits[7..][1..] == []; }
    assert bits[6..][1..] == bits[7..] && bits[5..][1..] == bits[6..] && bits[4..][1..] == bits[5..];
    assert bits[3..][1..] == bits[4..] && bits[2..][1..] == bits[3..] && bits[1..][1..] == bits[2..];
    assert Comb(a6, bits[6..]) == Add(Pick(bits[6], a6), Comb(a7, bits[7..]));
    assert Comb(a5, bits[5..]) == Add(Pick(bits[5], a5), Comb(a6, bits[6..]));
    assert Comb(a4, bits[4..]) == Add(Pick(bits[4], a4), Comb(a5, bits[5..]));
    assert Comb(a3, bits[3..]) == Add(Pick(bits[3], a3), Comb(a4, bits[4..]));
    assert Comb(a2, bits[2..]) == Add(Pick(bits[2], a2), Comb(a3, bits[3..]));
    assert Comb(a1, bits[1..]) == Add(Pick(bits[1], a1), Comb(a2, bits[2..]));
  }

  lemma MulComm(a: Elem, b: Elem)
    ensures Mul(a, b) == Mul(b, a)
  {
    hide Comb, Bits;
    CombOne(a);
    CombOne(b);
    CombComb(ONE, Bits(a), Bits(b));
  }

  lemma MulOne(a: Elem)
    ensures Mul(ONE, a) == a && Mul(a, ONE) == a
    ensures Mul(ZERO, a) == ZERO && Mul(a, ZERO) == ZERO
  {
    hide Comb, Bits;
    CombOne(a);
    CombZero(Bits(a));
    MulComm(ONE, a);
    MulComm(ZERO, a);
  }

  lemma MulAssoc(a: Elem, b: Elem, c: Elem)
    ensures Mul(Mul(a, b), c) == Mul(a, Mul(b, c))
  {
    hide Comb, Bits;
    MulComm(a, Mul(b, c));
    CombComb(b, Bits(c), Bits(a));
    MulComm(b, a);
  }

  lemma Distribute(a: Elem, b: Elem, c: Elem)
    ensures Mul(Add(a, b), c) == Add(Mul(a, c), Mul(b, c))
    ensures Mul(c, Add(a, b)) == Add(Mul(c, a), Mul(c, b))
  {
    hide Comb, Add, Bits;
    CombAdd(a, b, Bits(c));
    MulComm(c, Add(a, b));
    MulComm(c, a);
    MulComm(c, b);
  }

  // ---- squaring

  function Square(a: Elem): Elem {
    Mul(a, a)
  }

  lemma SquareMul(a: Elem, b: Elem)
    ensures Square(Mul(a, b)) == Mul(Square(a), Square(b))
  {
    hide Mul;
    MulAssoc(a, b, Mul(a, b));
    MulAssoc(b, a, b);
    MulComm(b, a);
    MulAssoc(a, b, b);
    MulAssoc(a, a, Mul(b, b));
  }

  // ---- Frobenius and inverses

  // a^256
  function Frobenius(a: Elem): Elem {
    Square(Square(Square(Square(Square(Square(Square(Square(a))))))))
  }

  // Squaring moves bit i to x^(2i): it is linear in the bits.
  function Spread(a: Elem): Elem {
    Pick(a & 1 != 0, 1) ^ Pick(a & 2 != 0, 4) ^ Pick(a & 4 != 0, 16) ^ Pick(a & 8 != 0, 64) ^
    Pick(a & 16 != 0, 29) ^ Pick(a & 32 != 0, 116) ^ Pick(a & 64 != 0, 205) ^ Pick(a & 128 != 0, 19)
  }

  function Spread2(a: Elem): Elem {
    Pick(a & 1 != 0, 1) ^ Pick(a & 2 != 0, 16) ^ Pick(a & 4 != 0, 29) ^ Pick(a & 8 != 0, 205) ^
    Pick(a & 16 != 0, 76) ^ Pick(a & 32 != 0, 180) ^ Pick(a & 64 != 0, 143) ^ Pick(a & 128 != 0, 24)
  }

  function Spread4(a: Elem): Elem {
    Pick(a & 1 != 0, 1) ^ Pick(a & 2 != 0, 76) ^ Pick(a & 4 != 0, 157) ^ Pick(a & 8 != 0, 70) ^
    Pick(a & 16 != 0, 95) ^ Pick(a & 32 != 0, 253) ^ Pick(a & 64 != 0, 217) ^ Pick(a & 128 != 0, 129)
  }

  lemma SquareIs(a: Elem)
    ensures Square(a) == Spread(a)
  {
    hide Comb;
    Unrolled(a, Bits(a));
  }

  // The modulus is irreducible: only 0 and 1 are their own squares.
  lemma Idempotents(a: Elem)
    requires Square(a) == a
    ensures a == ZERO || a == ONE
  {
    hide Square;
    SquareIs(a);
  }

  // Every element comes back after eight squarings: a^256 == a.
  lemma FrobeniusFixes(a: Elem)
    ensures Frobenius(a) == a
  {
    hide Square, Spread4;
    FourthPower(a);
    FourthPower(Square(Square(Square(Square(a)))));
    SpreadTwice(a);
  }

  lemma FourthPower(a: Elem)
    ensures Square(Square(Square(Square(a)))) == Spread4(a)
  {
    hide Square, Spread, Spread2, Spread4;
    var a1 := Square(a);
    var a2 := Square(a1);
    var a3 := Square(a2);
    SquareIs(a); SquareIs(a1); SquareIs(a2); SquareIs(a3);
    SpreadOnce(a);
    SpreadOnce(a2);
    SpreadAgain(a);
  }

  lemma SpreadOnce(a: Elem)
    ensures Spread(Spread(a)) == Spread2(a)
  {
  }

  lemma SpreadAgain(a: Elem)
    ensures Spread2(Spread2(a)) == Spread4(a)
  {
  }

  lemma SpreadTwice(a: Elem)
    ensures Spread4(Spread4(a)) == a
  {
  }

  // a^254 = a^2 * a^4 * ... * a^128
  function Inverse(a: Elem): Elem {
    var a2 := Square(a);
    var a4 := Square(a2);
    var a8 := Square(a4);
    var a16 := Square(a8);
    var a32 := Square(a16);
    var a64 := Square(a32);
    Mul(a2, Mul(a4, Mul(a8, Mul(a16, Mul(a32, Mul(a64, Square(a64)))))))
  }

  // The square of a product of squares, each factor moved up by one.
  lemma SquareOfProduct(a2: Elem, a4: Elem, a8: Elem, a16: Elem, a32: Elem, a64: Elem, a128: Elem)
    ensures Square(Mul(a2, Mul(a4, Mul(a8, Mul(a16, Mul(a32, Mul(a64, a128))))))) ==
            Mul(Square(a2), Mul(Square(a4), Mul(Square(a8), Mul(Square(a16), Mul(Square(a32),
            Mul(Square(a64), Square(a128)))))))
  {
    hide Square, Mul;
    SquareMul(a64, a128);
    SquareMul(a32, Mul(a64, a128));
    SquareMul(a16, Mul(a32, Mul(a64, a128)));
    SquareMul(a8, Mul(a16, Mul(a32, Mul(a64, a128))));
    SquareMul(a4, Mul(a8, Mul(a16, Mul(a32, Mul(a64, a128)))));
    SquareMul(a2, Mul(a4, Mul(a8, Mul(a16, Mul(a32, Mul(a64, a128))))));
  }

  // a^255 is its own square.
  lemma NormIdempotent(a: Elem)
    ensures Square(Mul(a, Inverse(a))) == Mul(a, Inverse(a))
  {
    hide Square, Mul;
    var a2 := Square(a);
    var a4 := Square(a2);
    var a8 := Square(a4);
    var a16 := Square(a8);
    var a32 := Square(a16);
    var a64 := Square(a32);
    var a128 := Square(a64);
    FrobeniusFixes(a);
    SquareMul(a, Inverse(a));
    SquareOfProduct(a2, a4, a8, a16, a32, a64, a128);
    // a2 * (a4 * (... * (a128 * a))) against a * (a2 * (... * a128))
    var tail := Mul(a4, Mul(a8, Mul(a16, Mul(a32, Mul(a64, a128)))));
    Rotate(a4, a8, a16, a32, a64, a128, a);
    MulAssoc(a2, tail, a);
    MulComm(a, Mul(a2, tail));
  }

  lemma Rotate(p: Elem, q: Elem, r: Elem, s: Elem, t: Elem, u: Elem, a: Elem)
    ensures Mul(p, Mul(q, Mul(r, Mul(s, Mul(t, Mul(u, a)))))) == Mul(Mul(p, Mul(q, Mul(r, Mul(s, Mul(t, u))))), a)
  {
    hide Mul;
    MulAssoc(t, u, a);
    MulAssoc(s, Mul(t, u), a);
    MulAssoc(r, Mul(s, Mul(t, u)), a);
    MulAssoc(q, Mul(r, Mul(s, Mul(t, u))), a);
    MulAssoc(p, Mul(q, Mul(r, Mul(s, Mul(t, u)))), a);
  }

  // Every element but zero has an inverse.
  lemma InverseOk(a: Elem)
    requires a != ZERO
    ensures Mul(a, Inverse(a)) == ONE
  {
    hide Mul, Square, Inverse;
    NormIdempotent(a);
    Idempotents(Mul(a, Inverse(a)));
    if Mul(a, Inverse(a)) == ZERO {
      NormZero(a);
    }
  }

  // a * a^255 == a^256 == a
  lemma NormZero(a: Elem)
    ensures Mul(a, Mul(a, Inverse(a))) == a
    ensures Mul(a, Inverse(a)) == ZERO ==> a == ZERO
  {
    hide Mul, Square;
    var a2 := Square(a);
    var a4 := Square(a2);
    var a8 := Square(a4);
    var a16 := Square(a8);
    var a32 := Square(a16);
    var a64 := Square(a32);
    var a128 := Square(a64);
    FrobeniusFixes(a);
    SquareDef(a, a2); SquareDef(a2, a4); SquareDef(a4, a8); SquareDef(a8, a16);
    SquareDef(a16, a32); SquareDef(a32, a64); SquareDef(a64, a128); SquareDef(a128, a);
    var i := Inverse(a);
    MulAssoc(a, a, i);
    MulAssoc(a2, a2, Mul(a4, Mul(a8, Mul(a16, Mul(a32, Mul(a64, a128))))));
    MulAssoc(a4, a4, Mul(a8, Mul(a16, Mul(a32, Mul(a64, a128)))));
    MulAssoc(a8, a8, Mul(a16, Mul(a32, Mul(a64, a128))));
    MulAssoc(a16, a16, Mul(a32, Mul(a64, a128)));
    MulAssoc(a32, a32, Mul(a64, a128));
    MulAssoc(a64, a64, a128);
    MulOne(a);
  }

  lemma SquareDef(a: Elem, b: Elem)
    requires b == Square(a)
    ensures Mul(a, a) == b
  {
    hide Mul;
  }

  lemma NoZeroDivisors(a: Elem, b: Elem)
    requires Mul(a, b) == ZERO && a != ZERO
    ensures b == ZERO
  {
    hide Mul, Inverse;
    InverseOk(a);
    MulComm(Inverse(a), a);
    MulAssoc(Inverse(a), a, b);
    MulOne(b);
    MulOne(Inverse(a));
  }

  // ---- bytes

  // The low `count` bits of n, the lowest first, and back.
  function Digits(n: nat, count: nat): (r: seq<bool>)
    ensures |r| == count
    decreases count
  {
    if count == 0 then [] else [n % 2 == 1] + Digits(n / 2, count - 1)
  }

  function Value(bits: seq<bool>): (r: nat)
    ensures r < Pow2(|bits|)
    decreases |bits|
  {
    if bits == [] then 0 else (if bits[0] then 1 else 0) + 2 * Value(bits[1..])
  }

  function Pow2(n: nat): nat {
    if n == 0 then 1 else 2 * Pow2(n - 1)
  }

  lemma {:induction false} ValueDigits(n: nat, count: nat)
    requires n < Pow2(count)
    ensures Value(Digits(n, count)) == n
    decreases count
  {
    if count > 0 {
      ValueDigits(n / 2, count - 1);
      assert Digits(n, count)[1..] == Digits(n / 2, count - 1);
    }
  }

  lemma {:induction false} DigitsValue(bits: seq<bool>)
    ensures Digits(Value(bits), |bits|) == bits
    decreases |bits|
  {
    if bits != [] {
      DigitsValue(bits[1..]);
      assert Value(bits) / 2 == Value(bits[1..]);
      assert bits == [bits[0]] + bits[1..];
    }
  }

  lemma Pow2Of8()
    ensures Pow2(8) == 256
  {
    assert Pow2(4) == 16;
  }

  lemma EightLong<T>(s: seq<T>)
    requires |s| == 8
    ensures s == [s[0], s[1], s[2], s[3], s[4], s[5], s[6], s[7]]
  {
  }

  lemma BitsComb(bits: seq<bool>)
    requires |bits| == 8
    ensures Bits(Comb(ONE, bits)) == bits
  {
    hide Comb, Bits, FromBits;
    BitsOf(bits[0], bits[1], bits[2], bits[3], bits[4], bits[5], bits[6], bits[7]);
    EightLong(bits);
    CombOne(FromBits(bits[0], bits[1], bits[2], bits[3], bits[4], bits[5], bits[6], bits[7]));
  }

  lemma Doublings()
    ensures TimesX(1) == 2 && TimesX(2) == 4 && TimesX(4) == 8 && TimesX(8) == 16
    ensures TimesX(16) == 32 && TimesX(32) == 64 && TimesX(64) == 128
  {
  }

  function FromBits(p0: bool, p1: bool, p2: bool, p3: bool, p4: bool, p5: bool, p6: bool, p7: bool): Elem {
    Pick(p0, 1) ^ Pick(p1, 2) ^ Pick(p2, 4) ^ Pick(p3, 8) ^ Pick(p4, 16) ^ Pick(p5, 32) ^ Pick(p6, 64) ^ Pick(p7, 128)
  }

  lemma BitsOf(p0: bool, p1: bool, p2: bool, p3: bool, p4: bool, p5: bool, p6: bool, p7: bool)
    ensures Bits(FromBits(p0, p1, p2, p3, p4, p5, p6, p7)) == [p0, p1, p2, p3, p4, p5, p6, p7]
  {
    var a := FromBits(p0, p1, p2, p3, p4, p5, p6, p7);
    assert (a & 1 != 0) == p0 && (a & 2 != 0) == p1 && (a & 4 != 0) == p2 && (a & 8 != 0) == p3;
    assert (a & 16 != 0) == p4 && (a & 32 != 0) == p5 && (a & 64 != 0) == p6 && (a & 128 != 0) == p7;
  }

  function FromByte(n: Byte): Elem {
    Comb(ONE, Digits(n, 8))
  }

  function ToByte(a: Elem): Byte {
    Pow2Of8();
    Value(Bits(a))
  }

  lemma ByteRoundTrip(n: Byte)
    ensures ToByte(FromByte(n)) == n
  {
    hide Comb, Bits, Digits, Value;
    Pow2Of8();
    BitsComb(Digits(n, 8));
    ValueDigits(n, 8);
  }

  lemma ElemRoundTrip(a: Elem)
    ensures FromByte(ToByte(a)) == a
  {
    hide Comb, Bits, Digits, Value;
    DigitsValue(Bits(a));
    CombOne(a);
  }
}
