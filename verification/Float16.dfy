/** The two 16-bit narrowings of fp32, the widenings back, and the buffer loops around them. */
module Float16 {
  import opened Float

  const SIGN := 0x8000_0000
  const INFINITY := 0x7F80_0000
  const U16 := 0x1_0000
  const U32 := 0x1_0000_0000

  // ── bfloat16 ─────────────────────────────────────────────────────

  /** Set bit 6: the quiet bit, which keeps a NaN from collapsing into infinity. */
  function Quieted(top: nat): nat {
    if top / 64 % 2 == 1 then top else top + 64
  }

  function NarrowBf16(bits: nat): nat
    requires bits < U32
  {
    if bits % SIGN > INFINITY then Quieted(bits / U16)
    else (bits + (bits / U16 % 2 + 0x7FFF)) % U32 / U16
  }

  function WidenBf16(bits: nat): nat {
    bits * U16
  }

  lemma Bf16Split(bits: nat)
    requires bits < U32 && bits % SIGN <= INFINITY
    ensures bits + (bits / U16 % 2 + 0x7FFF) < U32
    ensures NarrowBf16(bits) == bits / SIGN * 0x8000 + NarrowBf16(bits % SIGN)
    ensures NarrowBf16(bits % SIGN) <= 0x7F80
  {
    var abs := bits % SIGN;
    if bits < SIGN {
      assert bits == abs && bits / SIGN == 0;
    } else {
      assert bits == SIGN + abs && bits / SIGN == 1 && abs % SIGN == abs;
      assert bits / U16 == 0x8000 + abs / U16;
      var bias := abs / U16 % 2 + 0x7FFF;
      assert (bits + bias) / U16 == 0x8000 + (abs + bias) / U16;
    }
  }

  /** The rounding bias is round-to-nearest-even on the pattern itself. */
  lemma BiasRoundsEven(abs: nat)
    requires abs <= INFINITY
    ensures RoundsEven(abs, Pow2(16), NarrowBf16(abs))
  {
    Pow2Values();
    var keep, rem := abs / U16, abs % U16;
    assert keep == Quotient(abs, U16) && rem == Remainder(abs, U16);
    Euclid(abs, U16);
    RoundEvenStep(abs, U16, keep, rem);
    assert NarrowBf16(abs) == if 2 * rem > U16 || (2 * rem == U16 && keep % 2 == 1) then keep + 1 else keep;
    hide *;
  }

  /** The fraction of a pattern, read with its implicit bit, and how often its binade starts over. */
  lemma PatternFields(mb: nat, abs: nat) returns (e: nat, sig: nat)
    ensures e >= 1 && sig < 2 * Pow2(mb) && (e == 1 || Pow2(mb) <= sig)
    ensures abs == Product(e - 1, Pow2(mb)) + sig
    ensures Magnitude(mb, abs) == Product(sig, Pow2(e - 1))
  {
    e, sig := PatternOf(mb, abs);
  }

  lemma Bf16OfBinade(abs: nat, e: nat, sig: nat, c: nat)
    requires e >= 1 && sig < 2 * Pow2(23) && (e == 1 || Pow2(23) <= sig)
    requires abs == Product(e - 1, Pow2(23)) + sig && RoundsEven(abs, Pow2(16), c)
    ensures Product(e - 1, Pow2(7)) <= c
    ensures RoundsEven(sig, Pow2(16), c - Product(e - 1, Pow2(7)))
  {
    var t := Product(e - 1, Pow2(7));
    ProductAssociates(e - 1, Pow2(7), Pow2(16));
    Pow2Add(7, 16);
    assert Product(t, Pow2(16)) == Product(e - 1, Pow2(23));
    ProductAssociates(e - 1, Pow2(6), 2);
    assert t == 2 * Product(e - 1, Pow2(6)) by { Pow2Succ(6); }
    ProductDistributes(c, 1, Pow2(16));
    ProductSmall(Pow2(16));
    hide *;
    if c < t {
      ProductMonotone(c + 1, t, Pow2(16));
    }
    RoundsEvenOffset(sig, Pow2(16), c, t);
  }

  lemma Bf16OfMagnitude(abs: nat)
    requires abs <= INFINITY
    ensures abs < U32 && NarrowBf16(abs) <= 0x7F80
  {
    Bf16Split(abs);
  }

  /** One bf16 step, in units of fp32's smallest subnormal. */
  function Bf16Step(): (s: nat)
    ensures s == Pow2(16) > 0
  {
    Pow2(16)
  }

  lemma Bf16MagnitudeIsNearest(abs: nat)
    requires abs <= INFINITY
    ensures Closest(7, Bf16Step(), Magnitude(23, abs), NarrowBf16(abs), 0x7F81, true)
  {
    hide *;
    BiasRoundsEven(abs);
    Bf16OfMagnitude(abs);
    var c := NarrowBf16(abs);
    var e, sig := PatternFields(23, abs);
    Bf16OfBinade(abs, e, sig, c);
    var r, k := c - Product(e - 1, Pow2(7)), Pow2(e - 1);
    RoundsEvenScales(sig, Pow2(16), r, k);
    Pow2Succ(23);
    SignificandInBinade(7, e, sig, 16, k);
    ProductCommutes(k, Pow2(16));
    RoundedIsClosest(7, Bf16Step(), e, Product(Pow2(16), k), Product(sig, k), r, 0x7F81, true) by {
      PatternAt(7, e, c);
    }
    PatternAt(7, e, c);
  }

  lemma PatternAt(mb: nat, e: nat, c: nat)
    requires e >= 1 && Product(e - 1, Pow2(mb)) <= c
    ensures Pattern(mb, e, c - Product(e - 1, Pow2(mb))) == c
  {
  }

  lemma ProductCommutes(a: nat, b: nat)
    ensures Product(a, b) == Product(b, a)
  {
  }

  /**
   bf16 rounds every fp32 that is not a NaN to the nearest bf16 of its sign, ties to even,
   without the addition wrapping. Infinity counts as the next value after the largest finite.
   */
  lemma Bf16IsNearest(bits: nat)
    requires bits < U32 && bits % SIGN <= INFINITY
    ensures bits + (bits / U16 % 2 + 0x7FFF) < U32
    ensures NarrowBf16(bits) < U16 && NarrowBf16(bits) / 0x8000 == bits / SIGN
    ensures Closest(7, Bf16Step(), Magnitude(23, bits % SIGN), NarrowBf16(bits) % 0x8000, 0x7F81, true)
  {
    Bf16Split(bits);
    var c := NarrowBf16(bits % SIGN);
    assert NarrowBf16(bits) % 0x8000 == c;
    hide *;
    Bf16MagnitudeIsNearest(bits % SIGN);
  }

  /** A NaN keeps its sign and stays a NaN. */
  lemma Bf16KeepsNaN(bits: nat)
    requires bits < U32 && bits % SIGN > INFINITY
    ensures NarrowBf16(bits) < U16 && NarrowBf16(bits) / 0x8000 == bits / SIGN
    ensures NarrowBf16(bits) % 0x8000 > 0x7F80
  {
    var top := bits / U16;
    assert top / 0x8000 == bits / SIGN && top % 0x8000 >= 0x7F80;
    QuietedFields(top);
  }

  lemma QuietedFields(top: nat)
    requires top < U16 && top % 0x8000 >= 0x7F80
    ensures Quieted(top) < U16 && Quieted(top) / 0x8000 == top / 0x8000
    ensures Quieted(top) % 0x8000 > 0x7F80
  {
    var low := top % 0x8000 - 0x7F80;
    assert top == top / 0x8000 * 0x8000 + 0x7F80 + low;
    assert top / 64 % 2 == low / 64 % 2;
  }

  /** Widening and narrowing back gives every bf16 but the NaNs without a quiet bit. */
  lemma Bf16RoundTrip(b: nat)
    requires b < U16
    ensures WidenBf16(b) < U32
    ensures NarrowBf16(WidenBf16(b)) == b <==> !(b % 0x8000 > 0x7F80 && b / 64 % 2 == 0)
  {
    var bits := WidenBf16(b);
    assert bits / U16 == b;
    assert bits % SIGN == b % 0x8000 * U16;
  }

  // ── fp16 ─────────────────────────────────────────────────────────

  function NarrowFp16(bits: nat): nat
    requires bits < U32
  {
    var sign := if bits >= SIGN then 0x8000 else 0;
    sign + NarrowFp16Magnitude(bits % SIGN)
  }

  function NarrowFp16Magnitude(abs: nat): nat
    requires abs < SIGN
  {
    var exp, mantissa := Quotient(abs, Pow2(23)), Remainder(abs, Pow2(23));
    if exp == 255 then
      if mantissa != 0 then 0x7E00 else 0x7C00
    else
      var newExp := exp - 127 + 15;
      if newExp >= 31 then 0x7C00
      else if newExp <= 0 then
        if newExp < -10 then 0
        else
          var m := Quotient(Pow2(23) + mantissa, Pow2(1 - newExp));
          Quotient(m, Pow2(13)) + Remainder(Quotient(m, Pow2(12)), 2)
      else
        Product(newExp, Pow2(10)) + Quotient(mantissa, Pow2(13)) + Remainder(Quotient(mantissa, Pow2(12)), 2)
  }

  /** One fp16 step, in units of fp32's smallest subnormal. */
  function Fp16Step(): (s: nat)
    ensures s > 0
  {
    Pow2(125)
  }

  lemma RoundedUpSignificand(sig: nat, shift: nat, e: nat, k: nat)
    requires shift >= 13 && 1 <= e <= 2 && k > 0 && sig < 2 * Pow2(23)
    requires e == 2 ==> shift == 13 && Pow2(23) <= sig
    ensures
      var r, v, g := RoundHalfUp(sig, shift), Product(sig, k), Product(Pow2(shift), k);
      RoundsAway(v, g, r) && InBinade(10, e, g, v) && g > 0
  {
    Pow2Succ(23);
    ProductMonotone(1, Pow2(shift), k);
    ProductSmall(k);
    hide *;
    RoundHalfUpRoundsAway(sig, shift);
    RoundsAwayScales(sig, Pow2(shift), RoundHalfUp(sig, shift), k);
    SignificandInBinade(10, e, sig, shift, k);
  }

  lemma Fp16StepsAgree(e: nat, exp: nat, shift: nat)
    requires e >= 1 && exp >= 1 && e - 1 + 125 == shift + exp - 1
    ensures Product(Pow2(e - 1), Fp16Step()) == Product(Pow2(shift), Pow2(exp - 1))
  {
    assert Fp16Step() == Pow2(125);
    hide Pow2, Fp16Step;
    Pow2Add(e - 1, 125);
    Pow2Add(shift, exp - 1);
  }

  lemma Fp16NormalCode(sig: nat, newExp: nat)
    requires newExp >= 1 && Pow2(23) <= sig < 2 * Pow2(23)
    ensures
      var mantissa := sig - Pow2(23);
      Product(newExp, Pow2(10)) + Quotient(mantissa, Pow2(13)) + Remainder(Quotient(mantissa, Pow2(12)), 2)
        == Pattern(10, newExp, RoundHalfUp(sig, 13))
  {
    hide Product, Quotient, Remainder, Pow2;
    var m := sig - Pow2(23);
    var q := Quotient(m, Pow2(12));
    Pow2Add(10, 13);
    Pow2Add(11, 12);
    Pow2Succ(10);
    OffsetEven(q, Pow2(10));
    ProductDistributes(newExp - 1, 1, Pow2(10));
    ProductSmall(Pow2(10));
    OffsetQuotient(m, Pow2(13), Pow2(10));
    OffsetQuotient(m, Pow2(12), Pow2(11));
  }

  lemma OffsetEven(q: nat, h: nat)
    ensures Remainder(q + 2 * h, 2) == Remainder(q, 2)
  {
  }

  lemma OffsetQuotient(m: nat, d: nat, q: nat)
    requires d > 0
    ensures Quotient(Product(q, d) + m, d) == q + Quotient(m, d)
  {
    Euclid(m, d);
    ProductDistributes(q, Quotient(m, d), d);
    QuotientUnique(Product(q, d) + m, d, q + Quotient(m, d), Remainder(m, d));
    hide *;
  }

  lemma RoundHalfUpTop(sig: nat)
    requires Pow2(23) <= sig < 2 * Pow2(23)
    ensures RoundHalfUp(sig, 13) <= 2 * Pow2(10)
  {
    RoundHalfUpRoundsAway(sig, 13);
    Pow2Add(10, 13);
    ProductDistributes(Pow2(10), Pow2(10), Pow2(13));
    hide *;
    QuotientRange(sig, Pow2(13), RoundHalfUp(sig, 13), Pow2(10), true);
  }

  lemma Fp16NormalIsNearest(exp: nat, sig: nat)
    requires 113 <= exp <= 142 && Pow2(23) <= sig < 2 * Pow2(23)
    ensures Closest(10, Fp16Step(), Product(sig, Pow2(exp - 1)), Pattern(10, exp - 112, RoundHalfUp(sig, 13)), 0x7C01,
                    false)
  {
    var k, e := Pow2(exp - 1), exp - 112;
    Pow2Values();
    ProductMonotone(e - 1, 29, Pow2(10));
    assert Product(29, Pow2(10)) + 2 * Pow2(10) == 0x7C00;
    assert Pattern(10, e, RoundHalfUp(sig, 13)) == Product(e - 1, Pow2(10)) + RoundHalfUp(sig, 13);
    hide *;
    RoundHalfUpTop(sig);
    RoundedUpSignificand(sig, 13, 2, k);
    Fp16StepsAgree(e, exp, 13);
    BinadeAbove(10, e, Product(Pow2(13), k), Product(sig, k));
    RoundedIsClosest(10, Fp16Step(), e, Product(Pow2(13), k), Product(sig, k), RoundHalfUp(sig, 13), 0x7C01, false);
  }

  lemma BinadeAbove(mb: nat, e: nat, g: nat, v: nat)
    requires e >= 1 && InBinade(mb, 2, g, v)
    ensures InBinade(mb, e, g, v)
  {
  }

  lemma Fp16SubnormalIsNearest(exp: nat, sig: nat, shift: nat)
    requires exp >= 1 && shift == 126 - exp && shift >= 14 && sig < 2 * Pow2(23)
    ensures Closest(10, Fp16Step(), Product(sig, Pow2(exp - 1)), RoundHalfUp(sig, shift), 0x7C01, false)
  {
    var k, r := Pow2(exp - 1), RoundHalfUp(sig, shift);
    Pow2Values();
    ProductSmall(Pow2(10));
    assert Pattern(10, 1, r) == r && Pow2(0) == 1;
    ProductSmall(Fp16Step());
    hide *;
    RoundedUpSignificand(sig, shift, 1, k);
    Fp16StepsAgree(1, exp, shift);
    QuotientRange(Product(sig, k), Fp16Step(), r, Pow2(10), true);
    RoundedIsClosest(10, Fp16Step(), 1, Fp16Step(), Product(sig, k), r, 0x7C01, false);
  }

  /** Below half the smallest subnormal everything is zero, fp32's own subnormals included. */
  lemma Fp16TinyIsNearest(v: nat)
    requires 2 * v < Fp16Step()
    ensures Closest(10, Fp16Step(), v, 0, 0x7C01, false)
  {
    ProductSmall(Pow2(10));
    ProductSmall(Fp16Step());
    assert Pattern(10, 1, 0) == 0 && Pow2(0) == 1;
    ProductMonotone(1, 2 * Pow2(10), Fp16Step());
    hide Pow2, Fp16Step, Product, Closest;
    RoundedIsClosest(10, Fp16Step(), 1, Fp16Step(), v, 0, 0x7C01, false);
  }

  lemma TinyMagnitude(exp: nat, sig: nat, v: nat)
    requires sig < 2 * Pow2(23) && exp <= 101
    requires if exp == 0 then v < Pow2(23) else v == Product(sig, Pow2(exp - 1))
    ensures 2 * v < Fp16Step()
  {
    assert Fp16Step() == Pow2(125);
    Pow2Succ(23);
    Pow2Succ(24);
    if exp == 0 {
      hide Pow2, Fp16Step;
      Pow2Monotone(25, 125);
    } else {
      hide Pow2, Fp16Step;
      Pow2Add(24, exp - 1);
      Pow2Succ(23 + exp);
      Pow2Monotone(24 + exp, 125);
      ProductMonotone(sig, Pow2(24), Pow2(exp - 1));
    }
  }

  lemma Fp16InfinityIs()
    ensures Pattern(10, 31, Pow2(10)) == 0x7C00 && Fp16Step() == Pow2(125)
  {
    Pow2Values();
  }

  lemma Fp16OverflowIsNearest(exp: nat, sig: nat)
    requires exp >= 143 && Pow2(23) <= sig
    ensures Closest(10, Fp16Step(), Product(sig, Pow2(exp - 1)), 0x7C00, 0x7C01, false)
  {
    hide *;
    Fp16InfinityIs();
    ProductMonotone(Pow2(23), sig, Pow2(exp - 1));
    PatternWorth(10, 31, Pow2(10), Fp16Step());
    Pow2Add(30, 125);
    Pow2Add(10, 155);
    Pow2Add(23, exp - 1);
    Pow2Monotone(165, 22 + exp);
    SaturatedIsClosest(10, Fp16Step(), Product(sig, Pow2(exp - 1)), 0x7C00, false);
  }

  /** How the magnitude's branches read in terms of its exponent field and significand. */
  lemma Fp16Branches(abs: nat) returns (exp: nat, sig: nat)
    requires abs <= INFINITY
    ensures exp == Quotient(abs, Pow2(23)) <= 255 && Pow2(23) <= sig < 2 * Pow2(23)
    ensures exp >= 1 ==> Magnitude(23, abs) == Product(sig, Pow2(exp - 1))
    ensures exp == 0 ==> Magnitude(23, abs) < Pow2(23)
    ensures NarrowFp16Magnitude(abs) ==
              if exp >= 143 then 0x7C00
              else if exp <= 101 then 0
              else if exp <= 112 then RoundHalfUp(sig, 126 - exp)
              else Pattern(10, exp - 112, RoundHalfUp(sig, 13))
  {
    hide Quotient, Remainder, Pow2, Product, Pattern;
    exp := Quotient(abs, Pow2(23));
    var mantissa := Remainder(abs, Pow2(23));
    sig := Pow2(23) + mantissa;
    ExponentBelow256(abs);
    if 101 < exp <= 112 {
      QuotientTwice(sig, 113 - exp, 13);
      QuotientTwice(sig, 113 - exp, 12);
    } else if 113 <= exp <= 142 {
      Fp16NormalCode(sig, exp - 112);
    }
  }

  lemma ExponentBelow256(abs: nat)
    requires abs <= INFINITY
    ensures Quotient(abs, Pow2(23)) <= 255
    ensures Quotient(abs, Pow2(23)) == 255 ==> Remainder(abs, Pow2(23)) == 0
  {
    Pow2Values();
  }

  /**
   fp16 rounds every fp32 that is not a NaN to the nearest fp16 of its sign, a tie going to the
   larger magnitude; infinity counts as the next value after the largest finite.
   */
  lemma Fp16IsNearest(bits: nat)
    requires bits < U32 && bits % SIGN <= INFINITY
    ensures NarrowFp16(bits) < U16 && NarrowFp16(bits) / 0x8000 == bits / SIGN
    ensures Closest(10, Fp16Step(), Magnitude(23, bits % SIGN), NarrowFp16(bits) % 0x8000, 0x7C01, false)
  {
    NarrowSplits(bits);
    Fp16MagnitudeIsNearest(bits % SIGN);
    assert NarrowFp16Magnitude(bits % SIGN) < 0x7C01;
    hide *;
  }

  lemma Fp16MagnitudeIsNearest(abs: nat)
    requires abs <= INFINITY
    ensures Closest(10, Fp16Step(), Magnitude(23, abs), NarrowFp16Magnitude(abs), 0x7C01, false)
  {
    var exp, sig := Fp16Branches(abs);
    hide *;
    if exp >= 143 {
      Fp16OverflowIsNearest(exp, sig);
    } else if exp <= 101 {
      TinyMagnitude(exp, sig, Magnitude(23, abs));
      Fp16TinyIsNearest(Magnitude(23, abs));
    } else if exp <= 112 {
      Fp16SubnormalIsNearest(exp, sig, 126 - exp);
    } else {
      Fp16NormalIsNearest(exp, sig);
    }
  }

  /** Double an 11-bit fraction until its bit 10 is set: how often, and the result. */
  function Normalised(m: nat): (r: (nat, nat))
    requires 0 < m < 0x800
    ensures 0x400 <= r.1 < 0x800
    decreases 0x800 - m
  {
    if m >= 0x400 then (0, m)
    else
      var (e, top) := Normalised(2 * m);
      (e + 1, top)
  }

  lemma {:induction false} NormalisedValue(m: nat, width: nat)
    requires 0 < m < 0x800 && width <= 10 && Pow2(10 - width) <= m
    ensures Normalised(m).0 <= width && Normalised(m).1 == Product(m, Pow2(Normalised(m).0))
    ensures m < 0x400 ==> Normalised(m).0 >= 1
    decreases width
  {
    Pow2Values();
    if m >= 0x400 {
      assert Product(m, Pow2(0)) == m;
      hide Product, Pow2;
    } else {
      Pow2Succ(10 - width);
      NormalisedValue(2 * m, width - 1);
      var e := Normalised(2 * m).0;
      Pow2Succ(e);
      ProductDistributes(m, m, Pow2(e));
      DoubleProduct(m, Pow2(e));
      assert Normalised(m) == (e + 1, Normalised(2 * m).1);
      hide Product, Pow2, Normalised;
    }
  }

  /** The exponent of a normalised subnormal as the code computes it. */
  function WidenFp16(bits: nat): nat
    requires bits < U16
  {
    var sign := if bits >= 0x8000 then SIGN else 0;
    var exp, mantissa := bits % 0x8000 / 0x400, bits % 0x400;
    if exp == 0 then
      if mantissa == 0 then sign
      else
        var (e, m) := Normalised(mantissa);
        assert e <= 10 by { NormalisedValue(mantissa, 10); }
        sign + (Product(127 - 15 - e, Pow2(23)) + Product(m % 0x400, Pow2(13)))
    else if exp == 31 then sign + (INFINITY + Product(mantissa, Pow2(13)))
    else sign + (Product(exp + 127 - 15, Pow2(23)) + Product(mantissa, Pow2(13)))
  }

  method WidenFp16Bits(bits: nat) returns (r: nat)
    requires bits < U16
    ensures r == WidenFp16(bits)
  {
    var sign := if bits >= 0x8000 then SIGN else 0;
    var exp, mantissa := bits % 0x8000 / 0x400, bits % 0x400;
    if exp == 0 {
      if mantissa == 0 {
        return sign;
      }
      NormalisedValue(mantissa, 10);
      var e, m := 0, mantissa;
      while m < 0x400
        invariant 0 <= e && 0 < m < 0x800
        invariant Normalised(mantissa) == (e + Normalised(m).0, Normalised(m).1)
        decreases 0x800 - m
      {
        m := 2 * m;
        e := e + 1;
      }
      return sign + (Product(127 - 15 - e, Pow2(23)) + Product(m % 0x400, Pow2(13)));
    }
    if exp == 31 {
      return sign + (INFINITY + Product(mantissa, Pow2(13)));
    }
    return sign + (Product(exp + 127 - 15, Pow2(23)) + Product(mantissa, Pow2(13)));
  }

  /** A widened normal is the pattern whose significand is the old one, 13 places up. */
  lemma WidenedPattern(exp: nat, sig: nat)
    requires 1 <= exp <= 254 && Pow2(10) <= sig < 2 * Pow2(10)
    ensures
      var abs := Product(exp, Pow2(23)) + Product(sig - Pow2(10), Pow2(13));
      && abs < INFINITY && Magnitude(23, abs) == Product(Product(sig, Pow2(13)), Pow2(exp - 1))
      && Quotient(abs, Pow2(23)) == exp && Pow2(23) + Remainder(abs, Pow2(23)) == Product(sig, Pow2(13))
  {
    hide Product, Quotient, Remainder, Pow2, Magnitude;
    var m := sig - Pow2(10);
    TopPattern();
    Pow2Succ(10);
    Pow2Add(10, 13);
    ProductDistributes(m, Pow2(10), Pow2(13));
    ProductDistributes(exp - 1, 1, Pow2(23));
    ProductSmall(Pow2(23));
    ProductMonotone(m, Pow2(10), Pow2(13));
    ProductMonotone(exp, 254, Pow2(23));
    PatternMagnitude(23, exp, Product(sig, Pow2(13))) by {
      ProductMonotone(sig, 2 * Pow2(10), Pow2(13));
      ProductDistributes(Pow2(10), Pow2(10), Pow2(13));
    }
    QuotientUnique(Product(exp, Pow2(23)) + Product(m, Pow2(13)), Pow2(23), exp, Product(m, Pow2(13)));
  }

  lemma TopPattern()
    ensures Product(254, Pow2(23)) + Pow2(23) == INFINITY
  {
    Pow2Values();
  }

  lemma Fp16Fields(bits: nat)
    requires bits < U16
    ensures
      var abs := bits % 0x8000;
      && Quotient(abs, Pow2(10)) == abs / 0x400 && Remainder(abs, Pow2(10)) == bits % 0x400
      && abs == Product(abs / 0x400, Pow2(10)) + bits % 0x400
  {
    Pow2Values();
    var abs := bits % 0x8000;
    Euclid(abs, 0x400);
  }

  lemma WidenFp16NormalIs(bits: nat, exp: nat, mantissa: nat)
    requires bits < U16 && exp == bits % 0x8000 / 0x400 && mantissa == bits % 0x400 && 1 <= exp <= 30
    ensures mantissa < Pow2(10) && bits / 0x8000 <= 1
    ensures WidenFp16(bits) == bits / 0x8000 * SIGN + (Product(exp + 112, Pow2(23)) + Product(mantissa, Pow2(13)))
    ensures Magnitude(10, bits % 0x8000) == Product(Pow2(10) + mantissa, Pow2(exp - 1)) && Fp16Step() == Pow2(125)
  {
    Pow2Values();
    Fp16Fields(bits);
    hide Product;
  }

  lemma NormalIsExact(exp: nat, mantissa: nat)
    requires 1 <= exp <= 30 && mantissa < Pow2(10)
    ensures
      var abs := Product(exp + 112, Pow2(23)) + Product(mantissa, Pow2(13));
      && abs < INFINITY
      && Magnitude(23, abs) == Product(Product(Pow2(10) + mantissa, Pow2(exp - 1)), Pow2(125))
  {
    hide *;
    var sig := Pow2(10) + mantissa;
    WidenedPattern(exp + 112, sig);
    Pow2Add(13, exp + 111);
    Pow2Add(exp - 1, 125);
    ProductAssociates(sig, Pow2(13), Pow2(exp + 111));
    ProductAssociates(sig, Pow2(exp - 1), Pow2(125));
  }

  /** Widening is exact on normals. */
  lemma WidenFp16Normal(bits: nat)
    requires bits < U16 && 1 <= bits % 0x8000 / 0x400 <= 30
    ensures WidenFp16(bits) < U32 && WidenFp16(bits) / SIGN == bits / 0x8000 && WidenFp16(bits) % SIGN < INFINITY
    ensures Magnitude(23, WidenFp16(bits) % SIGN) == Product(Magnitude(10, bits % 0x8000), Fp16Step())
  {
    hide *;
    var exp, mantissa := bits % 0x8000 / 0x400, bits % 0x400;
    WidenFp16NormalIs(bits, exp, mantissa);
    NormalIsExact(exp, mantissa);
    SplitSign(bits / 0x8000, Product(exp + 112, Pow2(23)) + Product(mantissa, Pow2(13)));
  }

  lemma SplitSign(high: nat, abs: nat)
    requires abs < INFINITY
    ensures (high * SIGN + abs) / SIGN == high && (high * SIGN + abs) % SIGN == abs
    ensures high <= 1 ==> high * SIGN + abs < U32
  {
  }

  lemma WidenFp16SubnormalIs(bits: nat)
    requires bits < U16 && 0 < bits % 0x8000 < 0x400
    ensures
      var (e, m) := Normalised(bits % 0x8000);
      && e <= 112 && 0x400 <= m < 0x800
      && WidenFp16(bits) == bits / 0x8000 * SIGN + (Product(112 - e, Pow2(23)) + Product(m - 0x400, Pow2(13)))
  {
    hide Product, Pow2, Normalised;
    SubnormalFields(bits);
    NormalisedSubnormal(bits % 0x8000);
  }

  lemma NormalisedSubnormal(m: nat)
    requires 0 < m < 0x400
    ensures 1 <= Normalised(m).0 <= 10 && Normalised(m).1 == Product(m, Pow2(Normalised(m).0))
  {
    assert Pow2(0) == 1;
    hide Product, Normalised;
    NormalisedValue(m, 10);
  }

  lemma SubnormalFields(bits: nat)
    requires bits < U16 && 0 < bits % 0x8000 < 0x400
    ensures bits % 0x8000 / 0x400 == 0 && bits % 0x400 == bits % 0x8000
    ensures bits / 0x8000 == if bits >= 0x8000 then 1 else 0
  {
  }

  lemma WidenedSubnormalBits(bits: nat) returns (e: nat, m: nat)
    requires bits < U16 && 0 < bits % 0x8000 < 0x400
    ensures 1 <= e <= 10 && m == Product(bits % 0x8000, Pow2(e)) && Pow2(10) <= m < 2 * Pow2(10)
    ensures WidenFp16(bits) == bits / 0x8000 * SIGN + (Product(112 - e, Pow2(23)) + Product(m - Pow2(10), Pow2(13)))
  {
    hide *;
    Pow2Values();
    WidenFp16SubnormalIs(bits);
    NormalisedSubnormal(bits % 0x8000);
    e, m := Normalised(bits % 0x8000).0, Normalised(bits % 0x8000).1;
  }

  /** On subnormals the code's exponent is one too small: the widened value is half the real one. */
  lemma WidenFp16Subnormal(bits: nat) returns (exp: nat)
    requires bits < U16 && 0 < bits % 0x8000 < 0x400
    ensures WidenFp16(bits) < U32 && WidenFp16(bits) / SIGN == bits / 0x8000 && WidenFp16(bits) % SIGN < INFINITY
    ensures 2 * Magnitude(23, WidenFp16(bits) % SIGN) == Product(Magnitude(10, bits % 0x8000), Fp16Step())
    ensures 102 <= exp <= 111 && Quotient(WidenFp16(bits) % SIGN, Pow2(23)) == exp
    ensures Pow2(23) + Remainder(WidenFp16(bits) % SIGN, Pow2(23)) == Product(bits % 0x8000, Pow2(125 - exp))
  {
    Pow2Values();
    Fp16Fields(bits);
    assert Magnitude(10, bits % 0x8000) == bits % 0x8000;
    assert Fp16Step() == 2 * Pow2(124);
    hide *;
    var e, m := WidenedSubnormalBits(bits);
    exp := 112 - e;
    WidenedPattern(exp, m);
    SplitSign(bits / 0x8000, Product(exp, Pow2(23)) + Product(m - Pow2(10), Pow2(13)));
    SubnormalScale(bits % 0x8000, e);
    DoubleProduct(bits % 0x8000, Pow2(124));
  }

  /** A finite pattern widens to its own worth exactly when it is zero or a normal. */
  lemma WidenFp16ExactIff(bits: nat)
    requires bits < U16 && bits % 0x8000 < 0x7C00
    ensures WidenFp16(bits) < U32 && WidenFp16(bits) / SIGN == bits / 0x8000 && WidenFp16(bits) % SIGN < INFINITY
    ensures Magnitude(23, WidenFp16(bits) % SIGN) == Worth(10, bits % 0x8000, Fp16Step())
            <==> bits % 0x8000 == 0 || bits % 0x8000 >= 0x400
  {
    var abs := bits % 0x8000;
    if abs == 0 {
      WidenZero(bits);
    } else if abs < 0x400 {
      var exp := WidenFp16Subnormal(bits);
      SubnormalWorth(abs);
    } else {
      FieldsOfNormal(bits);
      WidenFp16Normal(bits);
    }
    hide WidenFp16, Magnitude, Fp16Step;
  }

  lemma WidenZero(bits: nat)
    requires bits == 0 || bits == 0x8000
    ensures WidenFp16(bits) == bits / 0x8000 * SIGN && Magnitude(23, 0) == 0 && Magnitude(10, 0) == 0
  {
    Pow2Values();
  }

  lemma SubnormalWorth(abs: nat)
    requires 0 < abs < 0x400
    ensures Product(Magnitude(10, abs), Fp16Step()) > 0
  {
    Pow2Values();
    assert Magnitude(10, abs) == abs;
    hide *;
    ProductMonotone(0, abs, Fp16Step());
  }

  lemma FieldsOfNormal(bits: nat)
    requires bits < U16 && 0x400 <= bits % 0x8000 < 0x7C00
    ensures 1 <= bits % 0x8000 / 0x400 <= 30
  {
  }

  lemma SubnormalScale(mantissa: nat, e: nat)
    requires 1 <= e <= 10
    ensures Product(Product(mantissa, Pow2(e)), Pow2(13)) == Product(mantissa, Pow2(e + 13))
    ensures Product(Product(mantissa, Pow2(e + 13)), Pow2(111 - e)) == Product(mantissa, Pow2(124))
  {
    ProductAssociates(mantissa, Pow2(e), Pow2(13));
    Pow2Add(e, 13);
    Pow2Add(e + 13, 111 - e);
    ProductAssociates(mantissa, Pow2(e + 13), Pow2(111 - e));
    hide *;
  }

  lemma DoubleProduct(a: nat, b: nat)
    ensures Product(a, 2 * b) == 2 * Product(a, b)
  {
  }

  lemma HalvedCode(m: nat, n: nat)
    ensures RoundHalfUp(Product(m, Pow2(n)), n + 1) == m / 2 + m % 2
  {
    var x := Product(m, Pow2(n));
    QuotientUnique(x, Pow2(n), m, 0);
    QuotientTwice(x, n, 1);
    assert Pow2(1) == 2;
    assert Quotient(m, 2) == m / 2 && Remainder(m, 2) == m % 2;
    hide Product, Quotient, Remainder;
  }

  lemma NarrowSplits(bits: nat)
    requires bits < U32
    ensures NarrowFp16(bits) == bits / SIGN * 0x8000 + NarrowFp16Magnitude(bits % SIGN)
  {
    hide NarrowFp16Magnitude;
  }

  lemma HalvedMagnitude(abs: nat, exp: nat, mantissa: nat)
    requires abs < INFINITY && 102 <= exp <= 111 && Quotient(abs, Pow2(23)) == exp
    requires Pow2(23) + Remainder(abs, Pow2(23)) == Product(mantissa, Pow2(125 - exp))
    ensures NarrowFp16Magnitude(abs) == (mantissa + 1) / 2
  {
    hide *;
    var exp', sig := Fp16Branches(abs);
    SignificandOf(abs, exp', sig);
    HalvedCode(mantissa, 125 - exp);
  }

  /** So narrowing it again halves the subnormal once more, rounding up. */
  lemma SubnormalHalves(bits: nat)
    requires bits < U16 && 0 < bits % 0x8000 < 0x400
    ensures WidenFp16(bits) < U32
    ensures NarrowFp16(WidenFp16(bits)) == bits / 0x8000 * 0x8000 + (bits % 0x8000 + 1) / 2
  {
    hide WidenFp16, NarrowFp16, NarrowFp16Magnitude, Pow2, Product, Quotient, Remainder, Magnitude;
    var exp := WidenFp16Subnormal(bits);
    NarrowSplits(WidenFp16(bits));
    HalvedMagnitude(WidenFp16(bits) % SIGN, exp, bits % 0x8000);
  }

  lemma SignificandOf(abs: nat, exp: nat, sig: nat)
    requires exp == Quotient(abs, Pow2(23)) && exp >= 1
    requires Pow2(23) <= sig < 2 * Pow2(23) && Magnitude(23, abs) == Product(sig, Pow2(exp - 1))
    ensures sig == Pow2(23) + Remainder(abs, Pow2(23))
  {
    var other := Pow2(23) + Remainder(abs, Pow2(23));
    assert Magnitude(23, abs) == Product(other, Pow2(exp - 1));
    hide *;
    if sig < other {
      ProductMonotone(sig, other, Pow2(exp - 1));
    } else if other < sig {
      ProductMonotone(other, sig, Pow2(exp - 1));
    }
  }

  lemma Fp16NormalRoundTrip(bits: nat)
    requires bits < U16 && 1 <= bits % 0x8000 / 0x400 <= 30
    ensures WidenFp16(bits) < U32 && NarrowFp16(WidenFp16(bits)) == bits
  {
    WidenFp16Normal(bits);
    var wide := WidenFp16(bits);
    Fp16IsNearest(wide);
    assert Worth(10, bits % 0x8000, Fp16Step()) == Magnitude(23, wide % SIGN);
    assert bits % 0x8000 < 0x7C01;
    hide *;
    ExactIsKept(10, Fp16Step(), Magnitude(23, wide % SIGN), NarrowFp16(wide) % 0x8000, bits % 0x8000, 0x7C01, false);
  }

  lemma Fp16SpecialRoundTrip(bits: nat)
    requires bits < U16 && bits % 0x8000 / 0x400 == 31
    ensures WidenFp16(bits) < U32
    ensures NarrowFp16(WidenFp16(bits)) == bits / 0x8000 * 0x8000 + if bits % 0x400 == 0 then 0x7C00 else 0x7E00
  {
    Pow2Values();
    var mantissa := bits % 0x400;
    var abs := INFINITY + Product(mantissa, Pow2(13));
    assert abs == Product(255, Pow2(23)) + Product(mantissa, Pow2(13));
    assert Product(mantissa, Pow2(13)) < Pow2(23);
    QuotientUnique(abs, Pow2(23), 255, Product(mantissa, Pow2(13)));
    assert WidenFp16(bits) == bits / 0x8000 * SIGN + abs;
    assert mantissa == 0 <==> Product(mantissa, Pow2(13)) == 0;
    assert NarrowFp16Magnitude(abs) == if mantissa == 0 then 0x7C00 else 0x7E00;
    hide Product, Pow2, Quotient, Remainder, NarrowFp16Magnitude, WidenFp16;
  }

  /**
   Widening and narrowing back is the identity on zeros, normals, infinities and the canonical
   NaN, on the smallest subnormal, and on nothing else.
   */
  lemma Fp16RoundTrip(bits: nat)
    requires bits < U16
    ensures WidenFp16(bits) < U32
    ensures
      var abs := bits % 0x8000;
      NarrowFp16(WidenFp16(bits)) == bits <==> abs <= 1 || 0x400 <= abs <= 0x7C00 || abs == 0x7E00
  {
    var abs := bits % 0x8000;
    assert bits % 0x400 == abs % 0x400;
    hide WidenFp16, NarrowFp16;
    if abs == 0 {
      ZeroRoundTrip(bits);
    } else if abs < 0x400 {
      SubnormalHalves(bits);
    } else if abs < 0x7C00 {
      Fp16NormalRoundTrip(bits);
    } else {
      Fp16SpecialRoundTrip(bits);
    }
  }

  lemma ZeroRoundTrip(bits: nat)
    requires bits == 0 || bits == 0x8000
    ensures WidenFp16(bits) < U32 && NarrowFp16(WidenFp16(bits)) == bits
  {
    ProductSmall(Pow2(23));
    QuotientUnique(0, Pow2(23), 0, 0);
  }

  // ── Buffers ──────────────────────────────────────────────────────

  datatype Half = Bf16 | Fp16

  function Narrow(h: Half, bits: nat): (r: nat)
    requires bits < U32
    ensures r < U16
  {
    NarrowInRange(bits);
    match h
    case Bf16 => NarrowBf16(bits)
    case Fp16 => NarrowFp16(bits)
  }

  lemma NarrowInRange(bits: nat)
    requires bits < U32
    ensures NarrowBf16(bits) < U16 && NarrowFp16(bits) < U16
  {
    NarrowSplits(bits);
    if bits % SIGN > INFINITY {
      Bf16KeepsNaN(bits);
      Fp16KeepsNaN(bits);
      hide NarrowBf16, NarrowFp16, NarrowFp16Magnitude;
    } else {
      Bf16IsNearest(bits);
      Fp16IsNearest(bits);
      hide NarrowBf16, NarrowFp16, NarrowFp16Magnitude, Closest;
    }
  }

  /** A NaN stays a NaN of its sign in fp16 too. */
  lemma Fp16KeepsNaN(bits: nat)
    requires bits < U32 && bits % SIGN > INFINITY
    ensures NarrowFp16(bits) == bits / SIGN * 0x8000 + 0x7E00
  {
    NarrowSplits(bits);
    Pow2Values();
    var abs := bits % SIGN;
    var rest := abs - INFINITY;
    assert INFINITY == Product(255, Pow2(23));
    QuotientUnique(abs, Pow2(23), 255, rest);
    assert NarrowFp16Magnitude(abs) == 0x7E00;
    hide NarrowFp16, NarrowFp16Magnitude, Quotient, Remainder, Pow2, Product;
  }

  function Widen(h: Half, bits: nat): (r: nat)
    requires bits < U16
    ensures r < U32
  {
    match h
    case Bf16 => WidenBf16(bits)
    case Fp16 => Fp16RoundTrip(bits); WidenFp16(bits)
  }
}
