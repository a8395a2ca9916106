/** Narrowing fp32 patterns to float8 and reading float8 patterns back, at scale 1. */
module Float8 {
  import opened Float

  datatype Format = Format(
    expBits: nat,
    mantBits: nat,
    bias: nat,
    hasInf: bool,
    nanBits: nat,
    infBits: nat,
    maxFiniteBits: nat,
    maxNormalExp: nat,
    maxNormalMant: nat
  )

  const E4M3FN := Format(4, 3, 7, false, 0x7F, 0x7F, 0x7E, 15, 6)
  const E5M2 := Format(5, 2, 15, true, 0x7E, 0x7C, 0x7B, 30, 3)

  /** The fields of a record describe one 8-bit layout. */
  predicate Consistent(f: Format) {
    && f.mantBits >= 1 && f.expBits >= 2 && f.expBits + f.mantBits == 7
    && f.bias == Pow2(f.expBits - 1) - 1
    && f.maxFiniteBits == Product(f.maxNormalExp, Pow2(f.mantBits)) + f.maxNormalMant
    && f.nanBits < 128 && f.infBits < 128
    && (if f.hasInf then
          && f.maxNormalExp == Pow2(f.expBits) - 2 && f.maxNormalMant == Pow2(f.mantBits) - 1
          && f.infBits == f.maxFiniteBits + 1 && f.nanBits > f.infBits
        else
          && f.maxNormalExp == Pow2(f.expBits) - 1 && f.maxNormalMant == Pow2(f.mantBits) - 2
          && f.nanBits == f.infBits == f.maxFiniteBits + 1)
  }

  lemma KnownFormatsConsistent()
    ensures Consistent(E4M3FN) && Consistent(E5M2)
  {
    assert Pow2(3) == 8 && Pow2(4) == 16 && Pow2(5) == 32 && Pow2(2) == 4;
  }

  const SIGN := 0x8000_0000
  const INFINITY := 0x7F80_0000

  /** Shift right by `n`, rounding what falls off to nearest with ties to even. */
  function ShiftRoundEven(value: nat, n: nat): nat {
    if n == 0 then value
    else if n > 31 then 0
    else
      var keep, rem := Quotient(value, Pow2(n)), Remainder(value, Pow2(n));
      var half := Pow2(n - 1);
      if rem > half || (rem == half && keep % 2 == 1) then keep + 1 else keep
  }

  function EncodeFinite(abs: nat, f: Format): nat
    requires Consistent(f) && 0 < abs < INFINITY
  {
    var exp := Quotient(abs, Pow2(23)) - 127;
    var mant := Remainder(abs, Pow2(23));
    var newExp := exp + f.bias;
    var drop := 23 - f.mantBits;
    var significand := Pow2(23) + mant;
    if newExp >= 1 then
      EncodeNormal(ShiftRoundEven(significand, drop), newExp, f)
    else
      ShiftRoundEven(significand, drop + (1 - newExp))
  }

  /** The rounded significand may carry out of the fraction; past the top it saturates. */
  function EncodeNormal(rounded: nat, newExp: nat, f: Format): nat {
    var carried := Quotient(rounded, Pow2(f.mantBits + 1)) != 0;
    var e := if carried then newExp + 1 else newExp;
    var m := if carried then 0 else Remainder(rounded, Pow2(f.mantBits));
    if e > f.maxNormalExp || (e == f.maxNormalExp && m > f.maxNormalMant) then f.maxFiniteBits
    else Product(e, Pow2(f.mantBits)) + m
  }

  /** The float8 pattern an fp32 pattern narrows to. */
  function Encode(bits: nat, f: Format): nat
    requires Consistent(f) && bits < 2 * SIGN
  {
    var sign := if bits >= SIGN then 128 else 0;
    var abs := if bits >= SIGN then bits - SIGN else bits;
    if abs > INFINITY then sign + f.nanBits
    else if abs == INFINITY then sign + (if f.hasInf then f.infBits else f.nanBits)
    else if abs == 0 then sign
    else sign + EncodeFinite(abs, f)
  }

  /** One float8 step, in units of fp32's smallest subnormal. */
  function Step(f: Format): (s: nat)
    requires Consistent(f)
    ensures s > 0
  {
    FormatBounds(f);
    Pow2(150 - f.bias - f.mantBits)
  }

  lemma FormatBounds(f: Format)
    requires Consistent(f)
    ensures 1 <= f.mantBits <= 5 && 1 <= f.bias <= 31 && f.bias + f.mantBits <= 32
    ensures f.maxNormalExp <= 2 * f.bias + 1
    ensures f.maxFiniteBits < 127
  {
    assert Pow2(1) == 2 && Pow2(2) == 4 && Pow2(3) == 8 && Pow2(4) == 16 && Pow2(5) == 32 && Pow2(6) == 64;
    assert f.mantBits == 1 || f.mantBits == 2 || f.mantBits == 3 || f.mantBits == 4 || f.mantBits == 5;
  }

  // ── Rounding ─────────────────────────────────────────────────────

  lemma SmallShiftRoundsEven(value: nat, n: nat)
    requires 0 < n <= 31
    ensures RoundsEven(value, Pow2(n), ShiftRoundEven(value, n))
  {
    hide Product, Quotient, Remainder, Pow2, RoundsEven;
    var d := Pow2(n);
    Euclid(value, d);
    Pow2Succ(n - 1);
    RoundEvenStep(value, d, Quotient(value, d), Remainder(value, d));
  }

  lemma ShiftRoundsEven(value: nat, n: nat)
    requires n <= 31 || 2 * value < Pow2(n)
    ensures RoundsEven(value, Pow2(n), ShiftRoundEven(value, n))
  {
    if n == 0 {
      assert Product(value, 1) == value;
    } else if n <= 31 {
      SmallShiftRoundsEven(value, n);
    } else {
      ProductSmall(Pow2(n));
      hide Product, Pow2;
    }
  }

  /**
   The shortcut for large shifts is exact rounding for every 32-bit value but one family:
   at a shift of exactly 32, values above the midpoint should have rounded up to 1.
   */
  lemma ShiftRoundEvenExactly(value: nat, n: nat)
    requires value < 0x1_0000_0000
    ensures RoundsEven(value, Pow2(n), ShiftRoundEven(value, n)) <==> !(n == 32 && value > 0x8000_0000)
  {
    Pow2Values();
    if n >= 32 {
      Pow2Monotone(32, n);
      if n > 32 {
        Pow2Monotone(33, n);
        assert Pow2(33) == 2 * Pow2(32);
      }
    } else {
      ShiftRoundsEven(value, n);
    }
  }

  lemma StepsAgree(f: Format, e: nat, exp: nat, shift: nat)
    requires Consistent(f) && e >= 1 && exp >= 1
    requires e - 1 + 150 - f.bias - f.mantBits == shift + exp - 1
    ensures Product(Pow2(e - 1), Step(f)) == Product(Pow2(shift), Pow2(exp - 1))
  {
    FormatBounds(f);
    Pow2Add(e - 1, 150 - f.bias - f.mantBits);
    Pow2Add(shift, exp - 1);
  }

  lemma CarryNeedsNoCase(mb: nat, e: nat, r: nat)
    requires e >= 1 && Pow2(mb) <= r <= 2 * Pow2(mb)
    ensures
      var carried := Quotient(r, Pow2(mb + 1)) != 0;
      var (e', m) := if carried then (e + 1, 0) else (e, Remainder(r, Pow2(mb)));
      && Product(e', Pow2(mb)) + m == Pattern(mb, e, r) && m < Pow2(mb)
  {
    var p := Pow2(mb);
    Pow2Succ(mb);
    ProductDistributes(e - 1, 1, p);
    ProductDistributes(e, 1, p);
    ProductSmall(p);
    ProductSmall(2 * p);
    hide Product, Pow2;
    if r == 2 * p {
      QuotientUnique(r, 2 * p, 1, 0);
    } else {
      QuotientUnique(r, 2 * p, 0, r);
      QuotientUnique(r, p, 1, r - p);
    }
  }

  lemma PatternCompare(mb: nat, e: nat, m: nat, e2: nat, m2: nat)
    requires m < Pow2(mb) && m2 < Pow2(mb)
    ensures Product(e, Pow2(mb)) + m <= Product(e2, Pow2(mb)) + m2 <==> e < e2 || (e == e2 && m <= m2)
  {
    var p := Pow2(mb);
    ProductDistributes(e, 1, p);
    ProductDistributes(e2, 1, p);
    ProductSmall(p);
    if e < e2 {
      ProductMonotone(e + 1, e2, p);
    } else if e2 < e {
      ProductMonotone(e2 + 1, e, p);
    }
    hide Product, Pow2;
  }

  /** A 24-bit significand rounded where its binade's steps end. */
  lemma RoundedSignificand(sig: nat, shift: nat, mb: nat, e: nat, k: nat)
    requires 1 <= e <= 2 && k > 0 && sig < 2 * Pow2(23)
    requires if e == 1 then mb + shift >= 23 else mb + shift == 23 && Pow2(23) <= sig
    ensures
      var r, v, g := ShiftRoundEven(sig, shift), Product(sig, k), Product(Pow2(shift), k);
      RoundsEven(v, g, r) && InBinade(mb, e, g, v) && g > 0
  {
    if shift > 31 {
      Pow2Monotone(32, shift);
      Pow2Values();
    }
    Pow2Succ(23);
    ProductMonotone(1, Pow2(shift), k);
    ProductSmall(k);
    hide *;
    ShiftRoundsEven(sig, shift);
    RoundsEvenScales(sig, Pow2(shift), ShiftRoundEven(sig, shift), k);
    SignificandInBinade(mb, e, sig, shift, k);
  }

  lemma TopFields(f: Format)
    requires Consistent(f)
    ensures f.maxNormalMant < Pow2(f.mantBits)
    ensures f.maxFiniteBits == Product(f.maxNormalExp, Pow2(f.mantBits)) + f.maxNormalMant
  {
    hide Product;
  }

  /** The rounded pattern, or the largest finite one when it lies above that. */
  lemma NearestOrSaturated(f: Format, e: nat, g: nat, v: nat, r: nat)
    requires Consistent(f) && e >= 1 && g == Product(Pow2(e - 1), Step(f))
    requires RoundsEven(v, g, r) && InBinade(f.mantBits, e, g, v)
    ensures
      var c := Pattern(f.mantBits, e, r);
      Closest(f.mantBits, Step(f), v, if c > f.maxFiniteBits then f.maxFiniteBits else c, f.maxFiniteBits + 1, true)
  {
    FormatBounds(f);
    hide Product, Pow2, Consistent, RoundsEven, InBinade, Pattern, Magnitude, Step;
    var mb, top, c := f.mantBits, f.maxFiniteBits, Pattern(f.mantBits, e, r);
    if c <= top {
      RoundedIsClosest(mb, Step(f), e, g, v, r, top + 1, true);
    } else {
      RoundedIsClosest(mb, Step(f), e, g, v, r, c + 1, true);
      WorthOrder(mb, top, c, Step(f));
      hide Worth;
      assert Distance(mb, c, Step(f), v) <= Distance(mb, top, Step(f), v);
      SaturatedIsClosest(mb, Step(f), v, top, true);
    }
  }

  lemma EncodeNormalIsClosest(f: Format, e: nat, g: nat, v: nat, r: nat)
    requires Consistent(f) && e >= 1 && g > 0 && g == Product(Pow2(e - 1), Step(f))
    requires RoundsEven(v, g, r) && InBinade(f.mantBits, 2, g, v)
    ensures Closest(f.mantBits, Step(f), v, EncodeNormal(r, e, f), f.maxFiniteBits + 1, true)
  {
    var mb := f.mantBits;
    assert InBinade(mb, e, g, v);
    QuotientRange(v, g, r, Pow2(mb), false);
    CarryNeedsNoCase(mb, e, r);
    TopFields(f);
    var carried := Quotient(r, Pow2(mb + 1)) != 0;
    var e', m := if carried then e + 1 else e, if carried then 0 else Remainder(r, Pow2(mb));
    PatternCompare(mb, e', m, f.maxNormalExp, f.maxNormalMant);
    NearestOrSaturated(f, e, g, v, r);
    hide Product, Quotient, Remainder, Pow2, Consistent, Closest, Pattern, RoundsEven, InBinade, Step;
  }

  lemma NormalFields(abs: nat, f: Format, exp: nat, sig: nat)
    requires Consistent(f) && 0 < abs < INFINITY
    requires exp == Quotient(abs, Pow2(23)) && sig == Pow2(23) + Remainder(abs, Pow2(23)) && exp - 127 + f.bias >= 1
    ensures 1 <= f.mantBits <= 5 && 1 <= f.bias <= 31 && exp >= 1 && sig < 2 * Pow2(23)
    ensures EncodeFinite(abs, f) == EncodeNormal(ShiftRoundEven(sig, 23 - f.mantBits), exp - 127 + f.bias, f)
    ensures Magnitude(23, abs) == Product(sig, Pow2(exp - 1))
  {
    hide Quotient, Remainder, Pow2, Product, ShiftRoundEven, EncodeNormal, Consistent;
    FormatBounds(f);
  }

  lemma NormalIsClosest(abs: nat, f: Format)
    requires Consistent(f) && 0 < abs < INFINITY
    requires Quotient(abs, Pow2(23)) - 127 + f.bias >= 1
    ensures Closest(f.mantBits, Step(f), Magnitude(23, abs), EncodeFinite(abs, f), f.maxFiniteBits + 1, true)
  {
    hide *;
    var mb, exp, sig := f.mantBits, Quotient(abs, Pow2(23)), Pow2(23) + Remainder(abs, Pow2(23));
    NormalFields(abs, f, exp, sig);
    var e, drop, k := exp - 127 + f.bias, 23 - mb, Pow2(exp - 1);
    var r := ShiftRoundEven(sig, drop);
    RoundedSignificand(sig, drop, mb, 2, k);
    StepsAgree(f, e, exp, drop);
    EncodeNormalIsClosest(f, e, Product(Pow2(drop), k), Product(sig, k), r);
  }

  lemma SubnormalIsClosest(abs: nat, f: Format)
    requires Consistent(f) && 0 < abs < INFINITY
    requires Quotient(abs, Pow2(23)) - 127 + f.bias < 1
    ensures Closest(f.mantBits, Step(f), Magnitude(23, abs), EncodeFinite(abs, f), f.maxFiniteBits + 1, true)
  {
    FormatBounds(f);
    var exp := Quotient(abs, Pow2(23));
    if exp == 0 {
      ProductSmall(Pow2(23));
      assert Magnitude(23, abs) < Pow2(23);
      assert EncodeFinite(abs, f) == 0;
      hide *;
      FarBelowAStep(f, Magnitude(23, abs));
    } else {
      var sig := Pow2(23) + Remainder(abs, Pow2(23));
      var shift := 151 - f.mantBits - f.bias - exp;
      assert EncodeFinite(abs, f) == ShiftRoundEven(sig, shift);
      assert Magnitude(23, abs) == Product(sig, Pow2(exp - 1));
      hide *;
      BelowNormalIsClosest(f, exp, sig, shift);
    }
  }

  lemma BelowNormalIsClosest(f: Format, exp: nat, sig: nat, shift: nat)
    requires Consistent(f) && exp >= 1 && Pow2(23) <= sig < 2 * Pow2(23)
    requires shift + exp + f.bias + f.mantBits == 151 && f.mantBits + shift >= 24
    ensures Closest(f.mantBits, Step(f), Product(sig, Pow2(exp - 1)), ShiftRoundEven(sig, shift), f.maxFiniteBits + 1,
                    true)
  {
    hide *;
    FormatBounds(f);
    var mb, k, r := f.mantBits, Pow2(exp - 1), ShiftRoundEven(sig, shift);
    var v, g := Product(sig, k), Product(Pow2(shift), k);
    Pow2Positive(exp - 1);
    Pow2Succ(23);
    RoundedSignificand(sig, shift, mb, 1, k);
    StepsAgree(f, 1, exp, shift);
    RoundsEvenIsNearest(v, g, r);
    SubnormalStaysLow(mb, v, g, r, sig, shift, k);
    SmallestNormalIsFinite(f);
    FirstBinade(mb, r);
    RoundedIsClosest(mb, Step(f), 1, g, v, r, f.maxFiniteBits + 1, true);
  }

  lemma FirstBinade(mb: nat, r: nat)
    ensures Pattern(mb, 1, r) == r
  {
    ProductSmall(Pow2(mb));
  }

  lemma Pow2Positive(n: nat)
    ensures Pow2(n) > 0
  {
  }

  lemma RoundsEvenIsNearest(v: nat, d: nat, r: nat)
    requires RoundsEven(v, d, r)
    ensures NearestQuotient(v, d, r)
  {
  }

  /** An fp32 subnormal is far below half a step of any such format. */
  lemma FarBelowAStep(f: Format, v: nat)
    requires Consistent(f) && v < Pow2(23)
    ensures Closest(f.mantBits, Step(f), v, 0, f.maxFiniteBits + 1, true)
  {
    FormatBounds(f);
    var mb := f.mantBits;
    Pow2Monotone(24, 150 - f.bias - mb);
    Pow2Succ(23);
    ProductSmall(Step(f));
    ProductSmall(Pow2(mb));
    ProductMonotone(1, 2 * Pow2(mb), Step(f));
    assert Pow2(0) == 1 && Pattern(mb, 1, 0) == 0;
    hide Product, Magnitude, Pow2, Consistent;
    NearestOrSaturated(f, 1, Step(f), v, 0);
  }

  lemma SmallestNormalIsFinite(f: Format)
    requires Consistent(f)
    ensures Pow2(f.mantBits) <= f.maxFiniteBits
  {
    FormatBounds(f);
    Pow2Monotone(2, f.expBits);
    assert Pow2(2) == 4;
    ProductMonotone(1, f.maxNormalExp, Pow2(f.mantBits));
    ProductSmall(Pow2(f.mantBits));
  }

  /** Below the normal range the rounded step count stays at or under the smallest normal. */
  lemma SubnormalStaysLow(mb: nat, v: nat, g: nat, r: nat, sig: nat, shift: nat, k: nat)
    requires k > 0 && sig < Pow2(24) && mb + shift >= 24
    requires g == Product(Pow2(shift), k) && v == Product(sig, k) && NearestQuotient(v, g, r)
    ensures r <= Pow2(mb)
  {
    var p := Pow2(mb);
    Pow2Add(mb, shift);
    Pow2Monotone(24, mb + shift);
    ProductAssociates(p, Pow2(shift), k);
    ProductMonotone(sig, Pow2(mb + shift), k);
    ProductMonotone(1, Pow2(shift), k);
    ProductSmall(k);
    ProductSmall(g);
    ProductDistributes(p, 1, g);
    hide Product, Pow2;
    if r > p {
      ProductMonotone(p + 1, r, g);
    }
  }

  lemma EncodeSplits(bits: nat, f: Format)
    requires Consistent(f) && bits < 2 * SIGN && bits % SIGN < INFINITY
    ensures Encode(bits, f) == bits / SIGN * 128 + if bits % SIGN == 0 then 0 else EncodeFinite(bits % SIGN, f)
    ensures bits / SIGN <= 1
  {
    assert bits % SIGN == if bits >= SIGN then bits - SIGN else bits;
    hide EncodeFinite, Consistent;
  }

  lemma FiniteIsClosest(abs: nat, f: Format)
    requires Consistent(f) && 0 < abs < INFINITY
    ensures EncodeFinite(abs, f) <= f.maxFiniteBits
    ensures Closest(f.mantBits, Step(f), Magnitude(23, abs), EncodeFinite(abs, f), f.maxFiniteBits + 1, true)
  {
    hide Quotient, Magnitude, Step, Pow2, EncodeFinite, Consistent, Distance;
    if Quotient(abs, Pow2(23)) - 127 + f.bias >= 1 {
      NormalIsClosest(abs, f);
    } else {
      SubnormalIsClosest(abs, f);
    }
  }

  lemma ZeroIsClosest(f: Format)
    requires Consistent(f)
    ensures Closest(f.mantBits, Step(f), Magnitude(23, 0), 0, f.maxFiniteBits + 1, true)
  {
    ProductSmall(Pow2(23));
    QuotientUnique(0, Pow2(23), 0, 0);
    hide Product, Pow2, Consistent;
    FarBelowAStep(f, 0);
  }

  lemma SignAbove(sign: nat, magnitude: nat)
    requires sign <= 1 && magnitude < 128
    ensures sign * 128 + magnitude < 256
    ensures (sign * 128 + magnitude) / 128 == sign && (sign * 128 + magnitude) % 128 == magnitude
  {
  }

  /**
   Every finite fp32 pattern narrows to the nearest finite float8 of its sign, ties to even,
   saturating at the largest; it never becomes a NaN or an infinity.
   */
  lemma EncodeIsNearest(bits: nat, f: Format)
    requires Consistent(f) && bits < 2 * SIGN && bits % SIGN < INFINITY
    ensures
      var r := Encode(bits, f);
      && r / 128 == bits / SIGN && r < 256 && r % 128 <= f.maxFiniteBits
      && Closest(f.mantBits, Step(f), Magnitude(23, bits % SIGN), r % 128, f.maxFiniteBits + 1, true)
  {
    hide *;
    FormatBounds(f);
    EncodeSplits(bits, f);
    var sign, abs := bits / SIGN, bits % SIGN;
    if abs == 0 {
      ZeroIsClosest(f);
      SignAbove(sign, 0);
    } else {
      FiniteIsClosest(abs, f);
      SignAbove(sign, EncodeFinite(abs, f));
    }
  }

  /** A NaN stays a NaN and an infinity never turns into a number. */
  lemma EncodeSpecials(bits: nat, f: Format)
    requires Consistent(f) && bits < 2 * SIGN && bits % SIGN >= INFINITY
    ensures Encode(bits, f) < 256
    ensures Decode(Encode(bits, f), f) ==
              if bits % SIGN == INFINITY && f.hasInf then Infinite(bits >= SIGN) else NaN
  {
    hide *;
    var sign, magnitude := SpecialSplits(bits, f);
    SpecialDecodes(sign, magnitude, f);
  }

  lemma SpecialSplits(bits: nat, f: Format) returns (sign: nat, magnitude: nat)
    requires Consistent(f) && bits < 2 * SIGN && bits % SIGN >= INFINITY
    ensures Encode(bits, f) == sign + magnitude && sign == (if bits >= SIGN then 128 else 0)
    ensures magnitude == if bits % SIGN == INFINITY && f.hasInf then f.infBits else f.nanBits
    ensures magnitude == f.infBits && f.hasInf <==> bits % SIGN == INFINITY && f.hasInf
  {
    assert bits % SIGN == if bits >= SIGN then bits - SIGN else bits;
    sign := if bits >= SIGN then 128 else 0;
    magnitude := if bits % SIGN == INFINITY && f.hasInf then f.infBits else f.nanBits;
    hide EncodeFinite, Product, Pow2;
  }

  lemma SpecialDecodes(sign: nat, magnitude: nat, f: Format)
    requires Consistent(f) && (sign == 0 || sign == 128)
    requires magnitude == f.nanBits || (f.hasInf && magnitude == f.infBits)
    ensures magnitude < 128
    ensures Decode(sign + magnitude, f) == if f.hasInf && magnitude == f.infBits then Infinite(sign == 128) else NaN
  {
    SpecialFields(f);
    assert (sign + magnitude) % 128 == magnitude;
    hide Quotient, Remainder, Product, Pow2;
  }

  /** A larger magnitude never narrows to a smaller one, across every binade boundary. */
  lemma EncodeMonotone(a: nat, b: nat, f: Format)
    requires Consistent(f) && a <= b < INFINITY
    ensures Encode(a, f) <= Encode(b, f)
  {
    hide Consistent, Closest, Encode, Magnitude;
    EncodeIsNearest(a, f);
    EncodeIsNearest(b, f);
    FormatBounds(f);
    if a < b {
      MagnitudeOrder(23, a, b);
      ClosestMonotone(f.mantBits, Step(f), Magnitude(23, a), Magnitude(23, b), Encode(a, f), Encode(b, f),
                      f.maxFiniteBits + 1, true);
    }
  }

  // ── Decoding ─────────────────────────────────────────────────────

  datatype Decoded = NaN | Infinite(negative: bool) | Finite(negative: bool, units: nat)

  /** What the decode table holds for pattern `b`, as a count of the format's steps. */
  function Decode(b: nat, f: Format): Decoded
    requires Consistent(f) && b < 256
  {
    var negative, abs := b >= 128, b % 128;
    var maxE, mantMask := Pow2(f.expBits) - 1, Pow2(f.mantBits) - 1;
    var e, m := Quotient(abs, Pow2(f.mantBits)), Remainder(abs, Pow2(f.mantBits));
    if e == maxE && f.hasInf then
      if m == 0 then Infinite(negative) else NaN
    else if e == maxE && !f.hasInf && m == mantMask then NaN
    else if e == 0 then Finite(negative, m)
    else Finite(negative, Product(Pow2(f.mantBits) + m, Pow2(e - 1)))
  }

  lemma SpecialFields(f: Format)
    requires Consistent(f)
    ensures
      var p, maxE := Pow2(f.mantBits), Pow2(f.expBits) - 1;
      if f.hasInf then
        && Quotient(f.infBits, p) == maxE && Remainder(f.infBits, p) == 0
        && Quotient(f.nanBits, p) == maxE && Remainder(f.nanBits, p) != 0
      else
        && Quotient(f.nanBits, p) == maxE && Remainder(f.nanBits, p) == p - 1
  {
    assert Pow2(1) == 2 && Pow2(2) == 4 && Pow2(3) == 8 && Pow2(4) == 16 && Pow2(5) == 32 && Pow2(6) == 64;
    assert f.mantBits == 1 || f.mantBits == 2 || f.mantBits == 3 || f.mantBits == 4 || f.mantBits == 5;
  }

  /** The finite patterns are exactly those up to `maxFiniteBits`, each worth its magnitude. */
  lemma FinitePatterns(b: nat, f: Format)
    requires Consistent(f) && b < 256
    ensures Decode(b, f).Finite? <==> b % 128 <= f.maxFiniteBits
    ensures Decode(b, f).Finite? ==> Decode(b, f) == Finite(b >= 128, Magnitude(f.mantBits, b % 128))
  {
    var p := Pow2(f.mantBits);
    var abs := b % 128;
    var e, m := Quotient(abs, p), Remainder(abs, p);
    Euclid(abs, p);
    SpecialFields(f);
    TopFields(f);
    ExponentField(abs, f);
    Pow2Succ(f.mantBits - 1);
    hide Product, Quotient, Remainder, Pow2;
    PatternCompare(f.mantBits, e, m, f.maxNormalExp, f.maxNormalMant);
  }

  lemma ExponentField(abs: nat, f: Format)
    requires Consistent(f) && abs < 128
    ensures Quotient(abs, Pow2(f.mantBits)) <= Pow2(f.expBits) - 1
  {
    Pow2Add(f.expBits, f.mantBits);
    assert Pow2(7) == 128;
    var q := Quotient(abs, Pow2(f.mantBits));
    Euclid(abs, Pow2(f.mantBits));
    if q >= Pow2(f.expBits) {
      ProductMonotone(Pow2(f.expBits), q, Pow2(f.mantBits));
    }
  }

  /** `bits` is an fp32 pattern of exactly the decoded value. */
  ghost predicate Represents(bits: nat, d: Decoded, f: Format)
    requires Consistent(f)
  {
    bits < 2 * SIGN
    && match d
       case NaN => bits % SIGN > INFINITY
       case Infinite(negative) => bits == INFINITY + (if negative then SIGN else 0)
       case Finite(negative, units) =>
         && (bits >= SIGN <==> negative) && bits % SIGN < INFINITY
         && Magnitude(23, bits % SIGN) == Product(units, Step(f))
  }

  /** Every float8 value is an fp32 value: decoding is exact. */
  lemma DecodedIsRepresentable(b: nat, f: Format) returns (bits: nat)
    requires Consistent(f) && b < 256
    ensures Represents(bits, Decode(b, f), f)
  {
    FinitePatterns(b, f);
    var d := Decode(b, f);
    hide Decode, Consistent, Magnitude, Pow2;
    if d.Finite? {
      var abs := WidenedMagnitude(b % 128, f);
      bits := abs + if b >= 128 then SIGN else 0;
      SignedRepresents(abs, d.negative, d.units, f);
    } else if d.NaN? {
      bits := INFINITY + 1;
    } else {
      bits := INFINITY + if d.negative then SIGN else 0;
    }
  }

  lemma ZeroMagnitude()
    ensures Magnitude(23, 0) == 0
  {
    ProductSmall(Pow2(23));
    QuotientUnique(0, Pow2(23), 0, 0);
  }

  lemma SignedRepresents(abs: nat, negative: bool, units: nat, f: Format)
    requires Consistent(f) && abs < INFINITY && Magnitude(23, abs) == Product(units, Step(f))
    ensures Represents(abs + if negative then SIGN else 0, Finite(negative, units), f)
  {
    assert (abs + if negative then SIGN else 0) % SIGN == abs;
    hide Consistent, Magnitude, Product, Step;
  }

  lemma WidenedMagnitude(c: nat, f: Format) returns (abs: nat)
    requires Consistent(f) && c <= f.maxFiniteBits
    ensures abs < INFINITY && Magnitude(23, abs) == Product(Magnitude(f.mantBits, c), Step(f))
  {
    var e, r := PatternOf(f.mantBits, c);
    if r == 0 {
      ProductSmall(Pow2(e - 1));
      ProductSmall(Step(f));
      ZeroMagnitude();
      abs := 0;
      hide *;
    } else {
      abs := Widened(c, f, e, r);
    }
  }

  lemma Widened(c: nat, f: Format, e: nat, r: nat) returns (abs: nat)
    requires Consistent(f) && c <= f.maxFiniteBits
    requires e >= 1 && 0 < r < 2 * Pow2(f.mantBits) && (e == 1 || Pow2(f.mantBits) <= r)
    requires c == Pattern(f.mantBits, e, r) && Magnitude(f.mantBits, c) == Product(r, Pow2(e - 1))
    ensures abs < INFINITY && Magnitude(23, abs) == Product(Magnitude(f.mantBits, c), Step(f))
  {
    FormatBounds(f);
    var mb := f.mantBits;
    Pow2Succ(mb);
    hide *;
    ExponentOf(c, f, e, r);
    var p := LeadingBit(r, mb + 1);
    abs := WidenedFrom(f, e, r, p);
  }

  /** The leading bit of `r` becomes fp32's implicit one. */
  lemma WidenedFrom(f: Format, e: nat, r: nat, p: nat) returns (abs: nat)
    requires Consistent(f) && 1 <= e <= 2 * f.bias + 1 && p <= f.mantBits && Pow2(p) <= r < Pow2(p + 1)
    ensures abs < INFINITY && Magnitude(23, abs) == Product(Product(r, Pow2(e - 1)), Step(f))
  {
    FormatBounds(f);
    var rest := 150 - f.bias - f.mantBits;
    assert Step(f) == Pow2(rest);
    hide *;
    var exp := p + e - 1 + 128 - f.bias - f.mantBits;
    var sig := Normalised(r, p);
    abs := Pattern(23, exp, sig);
    PatternMagnitude(23, exp, sig);
    PatternBelowInfinity(exp, sig);
    SameScale(r, 23 - p, exp - 1, e - 1, rest);
    ProductAssociates(r, Pow2(e - 1), Step(f));
  }

  lemma Normalised(r: nat, p: nat) returns (sig: nat)
    requires p <= 23 && Pow2(p) <= r < Pow2(p + 1)
    ensures sig == Product(r, Pow2(23 - p)) && Pow2(23) <= sig < 2 * Pow2(23)
  {
    sig := Product(r, Pow2(23 - p));
    Pow2Add(p, 23 - p);
    Pow2Add(p + 1, 23 - p);
    Pow2Succ(23);
    ProductMonotone(Pow2(p), r, Pow2(23 - p));
    ProductMonotone(r, Pow2(p + 1), Pow2(23 - p));
    hide *;
  }

  lemma SameScale(r: nat, a: nat, b: nat, c: nat, d: nat)
    requires a + b == c + d
    ensures Product(Product(r, Pow2(a)), Pow2(b)) == Product(r, Product(Pow2(c), Pow2(d)))
  {
    Pow2Add(a, b);
    Pow2Add(c, d);
    ProductAssociates(r, Pow2(a), Pow2(b));
    hide *;
  }

  lemma PatternBelowInfinity(exp: nat, sig: nat)
    requires 1 <= exp <= 254 && sig < 2 * Pow2(23)
    ensures Pattern(23, exp, sig) < INFINITY
  {
    Pow2Values();
    ProductMonotone(exp - 1, 253, Pow2(23));
  }

  lemma ExponentOf(c: nat, f: Format, e: nat, r: nat)
    requires Consistent(f) && c <= f.maxFiniteBits && e >= 1 && c == Pattern(f.mantBits, e, r)
    requires e == 1 || Pow2(f.mantBits) <= r
    ensures e <= 2 * f.bias + 1
  {
    FormatBounds(f);
    TopFields(f);
    var p := Pow2(f.mantBits);
    ProductDistributes(f.maxNormalExp, 1, p);
    ProductSmall(p);
    hide Product, Pow2, Consistent;
    if e > 2 * f.bias + 1 {
      ProductMonotone(2 * f.bias + 1, e - 1, p);
      ProductMonotone(f.maxNormalExp, 2 * f.bias + 1, p);
    }
  }

  lemma {:induction false} LeadingBit(r: nat, width: nat) returns (p: nat)
    requires 0 < r < Pow2(width)
    ensures p < width && Pow2(p) <= r < Pow2(p + 1)
  {
    if Pow2(width - 1) <= r {
      p := width - 1;
    } else {
      p := LeadingBit(r, width - 1);
    }
  }

  lemma InfinityPattern(b: nat, f: Format)
    requires Consistent(f) && b < 256 && Decode(b, f).Infinite?
    ensures f.hasInf && b % 128 == f.infBits && Decode(b, f) == Infinite(b >= 128)
  {
    var p := Pow2(f.mantBits);
    Euclid(b % 128, p);
    Euclid(f.infBits, p);
    SpecialFields(f);
  }

  lemma FiniteIsKept(b: nat, bits: nat, f: Format)
    requires Consistent(f) && b < 256 && b % 128 <= f.maxFiniteBits
    requires Represents(bits, Finite(b >= 128, Magnitude(f.mantBits, b % 128)), f)
    ensures Encode(bits, f) == b
  {
    hide Consistent, Encode, Magnitude, Step, Product, Closest;
    EncodeIsNearest(bits, f);
    ExactIsKept(f.mantBits, Step(f), Magnitude(23, bits % SIGN), Encode(bits, f) % 128, b % 128, f.maxFiniteBits + 1,
                true);
  }

  /** Encoding what decoding produced gives the pattern back, for every pattern that is not a NaN. */
  lemma EncodeUndoesDecode(b: nat, bits: nat, f: Format)
    requires Consistent(f) && b < 256 && Decode(b, f) != NaN
    requires Represents(bits, Decode(b, f), f)
    ensures Encode(bits, f) == b
  {
    var d := Decode(b, f);
    if d.Infinite? {
      InfinityPattern(b, f);
      FormatBounds(f);
      hide Consistent, Decode, Quotient, Remainder, Product;
    } else {
      FinitePatterns(b, f);
      hide Consistent, Decode, Encode, Magnitude, Step, Pow2;
      FiniteIsKept(b, bits, f);
    }
  }
}
