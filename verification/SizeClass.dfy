/** Size classes: the power-of-two rounding and the base-two logarithm of src/misc.hpp.

    A `size_t` is a `nat` below 2^64; decrement, increment and doubling wrap explicitly. */
module SizeClass {

  const TWO_62: nat := 0x4000_0000_0000_0000
  const TWO_63: nat := 0x8000_0000_0000_0000
  const TWO_64: nat := 0x1_0000_0000_0000_0000
  const TWO_32: nat := 0x1_0000_0000

  /** Number of classes, `MemorySizeManager::Size`. */
  const CLASSES: nat := 65

  // ---------------------------------------------------------------- powers and bits

  function Pow2(n: nat): (p: nat)
    ensures p >= 1
  {
    if n == 0 then 1 else 2 * Pow2(n - 1)
  }

  /** Bit `i` of `x`. */
  predicate Bit(x: nat, i: nat) {
    if i == 0 then x % 2 == 1 else Bit(x / 2, i - 1)
  }

  /** `x >> k`. */
  function Shr(x: nat, k: nat): nat {
    if k == 0 then x else Shr(x / 2, k - 1)
  }

  /** `x | y`. */
  function Or(x: nat, y: nat): nat
    decreases x + y
  {
    if x == 0 && y == 0 then 0
    else 2 * Or(x / 2, y / 2) + (if x % 2 == 1 || y % 2 == 1 then 1 else 0)
  }

  /** Number of significant bits of `x`. */
  function BitLength(x: nat): nat {
    if x == 0 then 0 else 1 + BitLength(x / 2)
  }

  lemma OrHalves(x: nat, y: nat)
    ensures Or(x, y) / 2 == Or(x / 2, y / 2)
    ensures Or(x, y) % 2 == 1 <==> x % 2 == 1 || y % 2 == 1
  {}

  lemma {:induction false} OrBit(x: nat, y: nat, i: nat)
    ensures Bit(Or(x, y), i) <==> Bit(x, i) || Bit(y, i)
    decreases i
  {
    hide Or;
    OrHalves(x, y);
    if i > 0 { OrBit(x / 2, y / 2, i - 1); }
  }

  lemma {:induction false} ZeroBit(i: nat)
    ensures !Bit(0, i)
  {
    if i > 0 { ZeroBit(i - 1); }
  }

  lemma {:induction false} ShrBit(x: nat, k: nat, i: nat)
    ensures Bit(Shr(x, k), i) <==> Bit(x, i + k)
    decreases k
  {
    if k > 0 { ShrBit(x / 2, k - 1, i); }
  }

  lemma {:induction false} Pow2Monotone(a: nat, b: nat)
    requires a <= b
    ensures Pow2(a) <= Pow2(b)
    ensures a < b ==> 2 * Pow2(a) <= Pow2(b)
    decreases b
  {
    if a < b { Pow2Monotone(a, b - 1); }
  }

  lemma Pow2Zero()
    ensures Pow2(0) == 1
  {}

  lemma Pow2Double(n: nat)
    ensures Pow2(n + 1) == 2 * Pow2(n)
  {}

  lemma Pow2Constants()
    ensures Pow2(3) == 8 && Pow2(31) == 0x8000_0000 && Pow2(32) == TWO_32
    ensures Pow2(62) == TWO_62 && Pow2(63) == TWO_63 && Pow2(64) == TWO_64
  {
    assert Pow2(8) == 256;
    assert Pow2(16) == 0x1_0000;
    assert Pow2(24) == 0x100_0000;
    assert Pow2(32) == TWO_32;
    assert Pow2(40) == 0x100_0000_0000;
    assert Pow2(48) == 0x1_0000_0000_0000;
    assert Pow2(56) == 0x100_0000_0000_0000;
    assert Pow2(62) == TWO_62;
  }

  lemma {:induction false} BitLengthBounds(x: nat)
    ensures x < Pow2(BitLength(x))
    ensures x > 0 ==> BitLength(x) > 0 && Pow2(BitLength(x) - 1) <= x
  {
    if x > 0 { BitLengthBounds(x / 2); }
  }

  lemma {:induction false} BitLengthBits(x: nat, i: nat)
    ensures i >= BitLength(x) ==> !Bit(x, i)
    ensures i + 1 == BitLength(x) ==> Bit(x, i)
    decreases i
  {
    if x == 0 {
      ZeroBit(i);
    } else if i > 0 {
      BitLengthBits(x / 2, i - 1);
    } else {
      BitLengthBounds(x / 2);
    }
  }

  /** A number whose set bits are exactly the low `h` ones is 2^h - 1. */
  lemma {:induction false} OnesValue(x: nat, h: nat)
    requires forall i: nat :: Bit(x, i) <==> i < h
    ensures x == Pow2(h) - 1
    decreases x, h
  {
    assert Bit(x, 0) <==> 0 < h;
    if h == 0 {
      if x != 0 {
        BitLengthBounds(x);
        BitLengthBits(x, BitLength(x) - 1);
        assert false;
      }
    } else {
      forall i: nat ensures Bit(x / 2, i) <==> i < h - 1 {
        assert Bit(x, i + 1) <==> i + 1 < h;
      }
      OnesValue(x / 2, h - 1);
    }
  }

  // ---------------------------------------------------------------- roundup_powerof2

  /** The least `k` with `x <= 2^k`. */
  function CeilLog2(x: nat): (k: nat)
    ensures x <= Pow2(k)
    ensures k > 0 ==> Pow2(k - 1) < x
  {
    if x <= 1 then 0 else 1 + CeilLog2((x + 1) / 2)
  }

  /** `CeilLog2` is the only exponent that meets its contract. */
  lemma CeilLog2Unique(x: nat, k: nat)
    requires x <= Pow2(k)
    requires k > 0 ==> Pow2(k - 1) < x
    ensures k == CeilLog2(x)
  {
    hide Pow2, CeilLog2;
    var c := CeilLog2(x);
    if k < c { Pow2Monotone(k, c - 1); }
    if c < k { Pow2Monotone(c, k - 1); }
  }

  lemma CeilLog2Monotone(x: nat, k: nat)
    ensures x <= Pow2(k) <==> CeilLog2(x) <= k
  {
    hide Pow2, CeilLog2;
    var c := CeilLog2(x);
    if c <= k { Pow2Monotone(c, k); } else { Pow2Monotone(k, c - 1); }
  }

  lemma CeilLog2OfBits(x: nat)
    requires x >= 1
    ensures CeilLog2(x) == BitLength(x - 1)
  {
    BitLengthBounds(x - 1);
    CeilLog2Unique(x, BitLength(x - 1));
  }

  /** The result of rounding: the least power of two at or above `x` when there is one below 2^64, else 0. */
  function RoundUp(x: nat): nat {
    if 1 <= x <= TWO_63 then Pow2(CeilLog2(x)) else 0
  }

  /** The top `w` bits below position `h` of `x` are set, and none at or above `h`. */
  ghost predicate Smeared(x: nat, h: nat, w: nat) {
    && (forall i: nat :: i >= h ==> !Bit(x, i))
    && (forall i: nat :: h <= i + w && i < h ==> Bit(x, i))
  }

  lemma SmearStep(x: nat, h: nat, w: nat)
    requires Smeared(x, h, w)
    ensures Smeared(Or(x, Shr(x, w)), h, 2 * w)
  {
    forall i: nat
      ensures i >= h ==> !Bit(Or(x, Shr(x, w)), i)
      ensures h <= i + 2 * w && i < h ==> Bit(Or(x, Shr(x, w)), i)
    {
      OrBit(x, Shr(x, w), i);
      ShrBit(x, w, i);
    }
  }

  lemma SmearStart(x: nat)
    ensures Smeared(x, BitLength(x), 1)
  {
    forall i: nat
      ensures i >= BitLength(x) ==> !Bit(x, i)
      ensures i + 1 == BitLength(x) ==> Bit(x, i)
    {
      BitLengthBits(x, i);
    }
  }

  lemma SmearEnd(x: nat, h: nat)
    requires h <= 64 && Smeared(x, h, 64)
    ensures x == Pow2(h) - 1
  {
    OnesValue(x, h);
  }

  lemma {:induction false} BitLengthAtMost(x: nat, h: nat)
    requires x < Pow2(h)
    ensures BitLength(x) <= h
  {
    BitLengthBounds(x);
    var b := BitLength(x);
    if b > h { Pow2Monotone(h, b - 1); }
  }

  /** The bit-smearing round-up. */
  method RoundupPowerOf2(x0: nat) returns (r: nat)
    requires x0 < TWO_64
    ensures r == RoundUp(x0)
  {
    var x := (x0 + TWO_64 - 1) % TWO_64;
    ghost var h := BitLength(x);
    Pow2Constants();
    BitLengthAtMost(x, 64);
    SmearStart(x);
    SmearStep(x, h, 1);
    x := Or(x, Shr(x, 1));
    SmearStep(x, h, 2);
    x := Or(x, Shr(x, 2));
    SmearStep(x, h, 4);
    x := Or(x, Shr(x, 4));
    SmearStep(x, h, 8);
    x := Or(x, Shr(x, 8));
    SmearStep(x, h, 16);
    x := Or(x, Shr(x, 16));
    SmearStep(x, h, 32);
    x := Or(x, Shr(x, 32));
    SmearEnd(x, h);
    r := (x + 1) % TWO_64;
    RoundupValue(x0, h);
  }

  lemma RoundupValue(x: nat, h: nat)
    requires x < TWO_64
    requires h == BitLength((x + TWO_64 - 1) % TWO_64)
    ensures Pow2(h) % TWO_64 == RoundUp(x)
  {
    hide Pow2, CeilLog2, BitLength;
    if x == 0 {
      BitLengthOfLast(TWO_64 - 1);
    } else {
      assert (x + TWO_64 - 1) % TWO_64 == x - 1;
      CeilLog2OfBits(x);
      RoundupExponent(x, h);
    }
  }

  lemma BitLengthOfLast(v: nat)
    requires v == TWO_64 - 1
    ensures Pow2(BitLength(v)) == TWO_64
  {
    hide Pow2, BitLength;
    Pow2Constants();
    BitLengthUnique(v, 64);
  }

  lemma RoundupExponent(x: nat, h: nat)
    requires 1 <= x < TWO_64 && h == CeilLog2(x)
    ensures x <= TWO_63 ==> Pow2(h) <= TWO_63
    ensures x > TWO_63 ==> Pow2(h) == TWO_64
  {
    hide Pow2, CeilLog2;
    Pow2Constants();
    CeilLog2Monotone(x, 63);
    CeilLog2Monotone(x, 64);
    if h <= 63 { Pow2Monotone(h, 63); }
  }

  // ---------------------------------------------------------------- logarithm2

  /** `__builtin_clz` of g++: the argument is truncated to 32 bits, and clz(0) is 32. */
  function Clz32(v: nat): (z: nat)
    ensures z <= 32
  {
    BitLength32(v % TWO_32);
    32 - BitLength(v % TWO_32)
  }

  lemma BitLength32(v: nat)
    requires v < TWO_32
    ensures BitLength(v) <= 32
  {
    Pow2Constants();
    BitLengthAtMost(v, 32);
  }

  /** The class index of a request, computed from leading-zero counts. */
  function Logarithm2(x: nat): (i: nat)
    requires x < TWO_64
    ensures 3 <= i < CLASSES
  {
    if x <= 8 then 3
    else if x >= TWO_63 then 64
    else
      LogarithmBounds(x);
      var v := x - 1;
      if x < TWO_32 then LogarithmLow(x); 32 - Clz32(v)
      else assert 32 + (32 - Clz32(v / TWO_32)) == CeilLog2(x) by {
             if x == TWO_32 { LogarithmAtWord(x); } else { LogarithmHigh(x); }
           }
           32 + (32 - Clz32(v / TWO_32))
  }

  lemma {:induction false} Pow2Sum(a: nat, b: nat)
    ensures Pow2(a + b) == Pow2(a) * Pow2(b)
    decreases b
  {
    if b > 0 { Pow2Sum(a, b - 1); }
  }

  lemma Pow2Plus32(b: nat)
    ensures Pow2(b + 32) == Pow2(b) * TWO_32
  {
    hide Pow2;
    Pow2Constants();
    Pow2Sum(b, 32);
  }

  lemma BitLengthHighHalf(v: nat)
    requires v >= TWO_32
    ensures BitLength(v) == 32 + BitLength(v / TWO_32)
  {
    hide Pow2, BitLength;
    var q := v / TWO_32;
    var b := BitLength(q);
    BitLengthBounds(q);
    Pow2Plus32(b);
    Pow2Plus32(b - 1);
    BitLengthUnique(v, b + 32);
  }

  lemma BitLengthUnique(v: nat, h: nat)
    requires h > 0 && Pow2(h - 1) <= v < Pow2(h)
    ensures BitLength(v) == h
  {
    hide Pow2, BitLength;
    BitLengthAtMost(v, h);
    BitLengthBounds(v);
    if BitLength(v) < h { Pow2Monotone(BitLength(v), h - 1); }
  }

  lemma LogarithmLow(x: nat)
    requires 8 < x < TWO_32
    ensures 32 - Clz32(x - 1) == CeilLog2(x)
  {
    hide Pow2, CeilLog2, BitLength;
    CeilLog2OfBits(x);
  }

  lemma LogarithmHigh(x: nat)
    requires TWO_32 < x < TWO_63
    ensures 32 + (32 - Clz32((x - 1) / TWO_32)) == CeilLog2(x)
  {
    hide Pow2, CeilLog2, BitLength;
    var v := x - 1;
    HighHalfBits(v);
    assert BitLength(v) == CeilLog2(x) by { CeilLog2OfBits(x); }
  }

  lemma HighHalfBits(v: nat)
    requires TWO_32 <= v < TWO_64
    ensures 32 + (32 - Clz32(v / TWO_32)) == BitLength(v)
  {
    BitLengthHighHalf(v);
    HighHalfSmall(v);
  }

  lemma HighHalfSmall(v: nat)
    requires v < TWO_64
    ensures v / TWO_32 % TWO_32 == v / TWO_32
  {}

  /** The one input whose high half is zero although the high branch is taken. */
  lemma LogarithmAtWord(x: nat)
    requires x == TWO_32
    ensures CeilLog2(x) == 32 && Clz32((x - 1) / TWO_32) == 32
  {
    hide Pow2, CeilLog2;
    Pow2Constants();
    CeilLog2Unique(x, 32);
    assert (x - 1) / TWO_32 == 0;
  }

  lemma LogarithmBounds(x: nat)
    requires 8 < x < TWO_63
    ensures 3 < CeilLog2(x) <= 63
  {
    hide Pow2, CeilLog2;
    Pow2Constants();
    CeilLog2Monotone(x, 3);
    CeilLog2Monotone(x, 63);
  }

  function Max(a: nat, b: nat): nat { if a >= b then a else b }

  /** The clz form computes the ceiling logarithm, at least 3, on every input below 2^63. */
  lemma LogarithmMeaning(x: nat)
    requires x < TWO_63
    ensures Logarithm2(x) == Max(3, CeilLog2(x))
  {
    hide Pow2, CeilLog2;
    if x <= 8 {
      Pow2Constants();
      CeilLog2Monotone(x, 3);
    } else {
      LogarithmBounds(x);
      if x < TWO_32 { LogarithmLow(x); }
      else if x == TWO_32 { LogarithmAtWord(x); }
      else { LogarithmHigh(x); }
    }
  }

  lemma DoublingStep(x: nat, i: nat)
    requires Pow2(i) < x < TWO_63
    ensures i < 63 && Pow2(i + 1) == 2 * Pow2(i) < TWO_64
  {
    hide Pow2;
    Pow2Constants();
    Pow2Double(i);
    if i >= 63 { Pow2Monotone(63, i); }
  }

  lemma DoublingExit(x: nat, i: nat)
    requires 8 < x < TWO_63 && x <= Pow2(i) && (i > 0 ==> Pow2(i - 1) < x)
    ensures i == Logarithm2(x)
  {
    hide Pow2, Logarithm2;
    CeilLog2Unique(x, i);
    LogarithmMeaning(x);
    LogarithmBounds(x);
  }

  /** The doubling loop that the preprocessor disables: it terminates below 2^63 and agrees with the clz form. */
  method DoublingLogarithm2(x: nat) returns (r: nat)
    requires x < TWO_64
    ensures r == Logarithm2(x)
  {
    if x <= 8 {
      return 3;
    } else if x >= TWO_63 {
      return 64;
    }
    hide Pow2, Logarithm2;
    var v, i := 1, 0;
    Pow2Zero();
    while v < x
      invariant v == Pow2(i)
      invariant i > 0 ==> Pow2(i - 1) < x
      decreases 63 - i
    {
      DoublingStep(x, i);
      v := v * 2 % TWO_64;
      i := i + 1;
    }
    DoublingExit(x, i);
    if i < 3 {
      i := 3;
    }
    r := i;
  }

  /** `RoundUp` yields the least power of two at or above its argument. */
  lemma RoundUpIsLeast(x: nat, k: nat)
    requires 1 <= x <= TWO_63
    ensures x <= RoundUp(x) && (exists j :: RoundUp(x) == Pow2(j))
    ensures x <= Pow2(k) <==> RoundUp(x) <= Pow2(k)
  {
    hide Pow2, CeilLog2;
    CeilLog2Monotone(x, k);
    if CeilLog2(x) <= k { Pow2Monotone(CeilLog2(x), k); }
  }

  // ---------------------------------------------------------------- bodies and their classes

  /** Body size carved for a request (the rounding, with the floor of 8). */
  function BodySize(size: nat): (b: nat)
    ensures b >= 8
  {
    Max(8, RoundUp(size))
  }

  lemma RoundUpBounds(size: nat)
    requires 1 <= size <= TWO_63
    ensures CeilLog2(size) <= 63 && RoundUp(size) == Pow2(CeilLog2(size)) <= TWO_63
    ensures size <= 8 <==> CeilLog2(size) <= 3
    ensures size <= TWO_62 <==> CeilLog2(size) <= 62
  {
    hide Pow2, CeilLog2;
    Pow2Constants();
    CeilLog2Monotone(size, 3);
    CeilLog2Monotone(size, 62);
    CeilLog2Monotone(size, 63);
    Pow2Monotone(CeilLog2(size), 63);
  }

  lemma BodyBounds(size: nat)
    requires size < TWO_64
    ensures 8 <= BodySize(size) <= TWO_63
  {
    if 1 <= size <= TWO_63 { RoundUpBounds(size); }
  }

  lemma BodyBelowTop(size: nat)
    requires size < TWO_63
    ensures BodySize(size) == Pow2(Logarithm2(size))
  {
    hide Pow2, CeilLog2;
    Pow2Constants();
    LogarithmMeaning(size);
    if size > 0 {
      RoundUpBounds(size);
      if CeilLog2(size) <= 3 { Pow2Monotone(CeilLog2(size), 3); } else { Pow2Monotone(3, CeilLog2(size)); }
    }
  }

  /** A class holds bodies of exactly its own power of two, for the requests below 2^63 and for no others. */
  lemma BodyIsClassPower(size: nat)
    requires size < TWO_64
    ensures size < TWO_63 <==> BodySize(size) == Pow2(Logarithm2(size))
  {
    hide Pow2, CeilLog2;
    Pow2Constants();
    BodyBounds(size);
    if size < TWO_63 { BodyBelowTop(size); }
  }

  lemma ClassOfPower(k: nat)
    requires 3 <= k <= 62
    ensures Pow2(k) < TWO_63 && Logarithm2(Pow2(k)) == k
  {
    hide Pow2, CeilLog2;
    Pow2Constants();
    Pow2Monotone(k, 62);
    Pow2Monotone(k - 1, k);
    CeilLog2Unique(Pow2(k), k);
    LogarithmMeaning(Pow2(k));
  }

  /** A freed chunk goes back to the class that served the request exactly for these sizes. */
  lemma ClassRoundTrip(size: nat)
    requires size < TWO_64
    ensures BodySize(size) < TWO_64
    ensures Logarithm2(BodySize(size)) == Logarithm2(size) <==> (size <= TWO_62 || size == TWO_63)
  {
    hide Pow2, CeilLog2;
    Pow2Constants();
    BodyBounds(size);
    if size < TWO_63 {
      BodyBelowTop(size);
      LogarithmMeaning(size);
      if size > 0 { RoundUpBounds(size); }
      if Logarithm2(size) <= 62 { ClassOfPower(Logarithm2(size)); }
    } else if size == TWO_63 {
      RoundUpIsLeast(size, 63);
    }
  }

  /** The carved body has room for the request exactly up to 2^63; beyond it the rounding wraps to 0. */
  lemma BodyFits(size: nat)
    requires size < TWO_64
    ensures size <= BodySize(size) <==> size <= TWO_63
  {
    hide Pow2, CeilLog2;
    if 1 <= size <= TWO_63 { RoundUpIsLeast(size, 0); }
  }
}
