/**
 Binary floating-point patterns read as integers.

 A magnitude pattern with `mb` fraction bits is worth `Magnitude(mb, c)` times its format's
 smallest step, so two formats are compared by scaling one of them with a power of two, and
 "nearest" (section 4.3.1 of IEEE 754-2019) is a statement about integers.
 */
module Float {
  function Product(a: nat, b: nat): nat {
    a * b
  }

  lemma ProductMonotone(a: nat, b: nat, c: nat)
    requires a <= b
    ensures Product(a, c) <= Product(b, c)
    ensures a < b && c > 0 ==> Product(a, c) < Product(b, c)
  {
  }

  lemma ProductAssociates(a: nat, b: nat, c: nat)
    ensures Product(Product(a, b), c) == Product(a, Product(b, c))
  {
  }

  lemma ProductDistributes(a: nat, b: nat, c: nat)
    ensures Product(a + b, c) == Product(a, c) + Product(b, c)
  {
  }

  lemma ProductSmall(c: nat)
    ensures Product(0, c) == 0 && Product(1, c) == c && Product(2, c) == 2 * c
  {
  }

  function Quotient(x: nat, d: nat): nat
    requires d > 0
  {
    x / d
  }

  function Remainder(x: nat, d: nat): (r: nat)
    requires d > 0
    ensures r < d
  {
    x % d
  }

  lemma Euclid(x: nat, d: nat)
    requires d > 0
    ensures x == Product(Quotient(x, d), d) + Remainder(x, d)
  {
  }

  lemma QuotientUnique(x: nat, d: nat, q: nat, r: nat)
    requires r < d && x == Product(q, d) + r
    ensures Quotient(x, d) == q && Remainder(x, d) == r
  {
    Euclid(x, d);
    var q' := Quotient(x, d);
    ProductDistributes(q', 1, d);
    ProductDistributes(q, 1, d);
    ProductSmall(d);
    if q' < q {
      ProductMonotone(q' + 1, q, d);
    } else if q < q' {
      ProductMonotone(q + 1, q', d);
    }
  }

  function Pow2(n: nat): (p: nat)
    ensures p > 0
  {
    if n == 0 then 1 else 2 * Pow2(n - 1)
  }

  lemma Pow2Succ(n: nat)
    ensures Pow2(n + 1) == 2 * Pow2(n)
  {
  }

  lemma {:induction false} Pow2Add(a: nat, b: nat)
    ensures Pow2(a + b) == Product(Pow2(a), Pow2(b))
  {
    if a == 0 {
      ProductSmall(Pow2(b));
    } else {
      Pow2Add(a - 1, b);
      ProductDistributes(Pow2(a - 1), Pow2(a - 1), Pow2(b));
    }
  }

  lemma {:induction false} Pow2Monotone(a: nat, b: nat)
    requires a <= b
    ensures Pow2(a) <= Pow2(b)
  {
    if a < b {
      Pow2Monotone(a, b - 1);
    }
  }

  lemma Pow2Values()
    ensures Pow2(7) == 128 && Pow2(10) == 1024 && Pow2(13) == 8192 && Pow2(16) == 65536
    ensures Pow2(23) == 8388608 && Pow2(24) == 16777216 && Pow2(31) == 2147483648 && Pow2(32) == 4294967296
  {
    assert Pow2(4) == 16;
    assert Pow2(7) == 128;
    assert Pow2(10) == 1024;
    assert Pow2(13) == 8192;
    assert Pow2(16) == 65536;
    assert Pow2(20) == 1048576;
    assert Pow2(23) == 8388608;
    assert Pow2(24) == 16777216;
    assert Pow2(27) == 134217728;
    assert Pow2(30) == 1073741824;
    assert Pow2(32) == 4294967296;
  }

  function Abs(x: int): nat {
    if x < 0 then -x else x
  }

  /** The value of pattern `c`, in units of the format's subnormal step. */
  function Magnitude(mb: nat, c: nat): nat {
    var e, m := Quotient(c, Pow2(mb)), Remainder(c, Pow2(mb));
    if e == 0 then m else Product(Pow2(mb) + m, Pow2(e - 1))
  }

  /** The pattern `r` steps into the binade `e`, counting from zero. */
  function Pattern(mb: nat, e: nat, r: nat): nat
    requires e >= 1
  {
    Product(e - 1, Pow2(mb)) + r
  }

  /** The carry into the next binade needs no special case: its patterns just go on counting. */
  lemma PatternMagnitude(mb: nat, e: nat, r: nat)
    requires e >= 1 && r <= 2 * Pow2(mb) && (e == 1 || Pow2(mb) <= r)
    ensures Magnitude(mb, Pattern(mb, e, r)) == Product(r, Pow2(e - 1))
  {
    var p := Pow2(mb);
    var c := Pattern(mb, e, r);
    ProductDistributes(e - 1, 1, p);
    ProductDistributes(e, 1, p);
    ProductDistributes(p, p, Pow2(e - 1));
    ProductSmall(p);
    assert Pow2(0) == 1 && Product(r, 1) == r;
    assert Product(p, Pow2(e)) == Product(2 * p, Pow2(e - 1)) by {
      assert Pow2(e) == 2 * Pow2(e - 1);
      assert p * (2 * Pow2(e - 1)) == 2 * p * Pow2(e - 1);
    }
    hide Product, Pow2;
    if r < p {
      QuotientUnique(c, p, 0, r);
    } else if r < 2 * p {
      QuotientUnique(c, p, e, r - p);
    } else {
      QuotientUnique(c, p, e + 1, 0);
    }
  }

  lemma PatternOf(mb: nat, c: nat) returns (e: nat, r: nat)
    ensures e >= 1 && r < 2 * Pow2(mb) && (e == 1 || Pow2(mb) <= r)
    ensures c == Pattern(mb, e, r) && Magnitude(mb, c) == Product(r, Pow2(e - 1))
  {
    var p := Pow2(mb);
    var q, m := Quotient(c, p), Remainder(c, p);
    Euclid(c, p);
    ProductSmall(p);
    if q == 0 {
      e, r := 1, m;
    } else {
      ProductDistributes(q - 1, 1, p);
      e, r := q, p + m;
    }
    PatternMagnitude(mb, e, r);
  }

  lemma MagnitudeStep(mb: nat, c: nat)
    ensures Magnitude(mb, c) < Magnitude(mb, c + 1)
  {
    var e, r := PatternOf(mb, c);
    PatternMagnitude(mb, e, r + 1);
    ProductMonotone(r, r + 1, Pow2(e - 1));
  }

  lemma {:induction false} MagnitudeMonotone(mb: nat, a: nat, b: nat)
    requires a < b
    ensures Magnitude(mb, a) < Magnitude(mb, b)
  {
    MagnitudeStep(mb, b - 1);
    if a < b - 1 {
      MagnitudeMonotone(mb, a, b - 1);
    }
  }

  lemma MagnitudeOrder(mb: nat, a: nat, b: nat)
    ensures a < b <==> Magnitude(mb, a) < Magnitude(mb, b)
    ensures a == b <==> Magnitude(mb, a) == Magnitude(mb, b)
  {
    if a < b {
      MagnitudeMonotone(mb, a, b);
    } else if b < a {
      MagnitudeMonotone(mb, b, a);
    }
  }

  /** The value of pattern `c` when one unit is worth `step`. */
  function Worth(mb: nat, c: nat, step: nat): nat {
    Product(Magnitude(mb, c), step)
  }

  lemma WorthOrder(mb: nat, a: nat, b: nat, step: nat)
    requires step > 0
    ensures a < b <==> Worth(mb, a, step) < Worth(mb, b, step)
    ensures a == b <==> Worth(mb, a, step) == Worth(mb, b, step)
  {
    MagnitudeOrder(mb, a, b);
    var x, y := Magnitude(mb, a), Magnitude(mb, b);
    if x < y {
      ProductMonotone(x, y, step);
    } else if y < x {
      ProductMonotone(y, x, step);
    }
  }

  /** In a binade with steps worth `g`, the pattern `r` steps up is worth `r * g`. */
  lemma PatternWorth(mb: nat, e: nat, r: nat, step: nat)
    requires e >= 1 && r <= 2 * Pow2(mb) && (e == 1 || Pow2(mb) <= r)
    ensures Worth(mb, Pattern(mb, e, r), step) == Product(r, Product(Pow2(e - 1), step))
  {
    PatternMagnitude(mb, e, r);
    ProductAssociates(r, Pow2(e - 1), step);
  }

  /** How far pattern `c`, worth `step` per unit, is from the value `v`. */
  function Distance(mb: nat, c: nat, step: nat, v: nat): nat {
    Abs(Worth(mb, c, step) - v)
  }

  ghost predicate NearestQuotient(v: nat, d: nat, r: nat) {
    2 * Abs(v - Product(r, d)) <= d
  }

  ghost predicate RoundsEven(v: nat, d: nat, r: nat) {
    NearestQuotient(v, d, r) && (2 * Abs(v - Product(r, d)) == d ==> r % 2 == 0)
  }

  ghost predicate RoundsAway(v: nat, d: nat, r: nat) {
    NearestQuotient(v, d, r) && (2 * Abs(v - Product(r, d)) == d ==> v < Product(r, d))
  }

  /** `c` is the closest of the patterns below `limit`, and a tie is settled as `even` or upwards. */
  ghost predicate Closest(mb: nat, step: nat, v: nat, c: nat, limit: nat, even: bool) {
    && c < limit
    && forall c' :: 0 <= c' < limit ==>
         && Distance(mb, c, step, v) <= Distance(mb, c', step, v)
         && (Distance(mb, c, step, v) == Distance(mb, c', step, v) && c != c' ==> if even then c % 2 == 0 else c' < c)
  }

  /** The value lies in the binade `e`, whose steps are worth `g`. */
  ghost predicate InBinade(mb: nat, e: nat, g: nat, v: nat) {
    && e >= 1
    && v <= Product(2 * Pow2(mb), g)
    && (e == 1 || Product(Pow2(mb), g) <= v)
  }

  /** The rounding every narrowing here comes down to: a quotient in one binade. */
  lemma QuotientIsClosest(mb: nat, step: nat, e: nat, g: nat, v: nat, r: nat, other: nat)
    requires mb >= 1 && step > 0 && e >= 1 && g == Product(Pow2(e - 1), step)
    requires NearestQuotient(v, g, r) && InBinade(mb, e, g, v)
    ensures r <= 2 * Pow2(mb) && (e == 1 || Pow2(mb) <= r)
    ensures
      var c := Pattern(mb, e, r);
      && Worth(mb, c, step) == Product(r, g)
      && Distance(mb, c, step, v) <= Distance(mb, other, step, v)
      && (Distance(mb, c, step, v) == Distance(mb, other, step, v) && c != other ==>
            2 * Abs(v - Product(r, g)) == g && (other < c <==> v < Product(r, g)))
  {
    ProductMonotone(1, Pow2(e - 1), step);
    ProductSmall(step);
    QuotientRange(v, g, r, Pow2(mb), e == 1);
    PatternWorth(mb, e, r, step);
    var c := Pattern(mb, e, r);
    if other < c {
      BelowIsFarther(mb, step, e, g, v, r, other);
    } else if c < other {
      AboveIsFarther(mb, step, e, g, v, r, other);
    }
  }

  lemma QuotientRange(v: nat, g: nat, r: nat, p: nat, bottom: bool)
    requires g > 0 && NearestQuotient(v, g, r) && v <= Product(2 * p, g)
    requires bottom || Product(p, g) <= v
    ensures r <= 2 * p && (bottom || p <= r)
  {
    ProductDistributes(2 * p, 1, g);
    ProductDistributes(r, 1, g);
    ProductSmall(g);
    hide Product;
    if r > 2 * p {
      ProductMonotone(2 * p + 1, r, g);
    }
    if !bottom && r < p {
      ProductMonotone(r + 1, p, g);
    }
  }

  lemma StepBelow(v: nat, x: nat, g: nat, y: nat)
    requires y < x && y + g <= x && (x <= v || 2 * Abs(v - x) <= g)
    ensures Abs(x - v) <= Abs(y - v)
    ensures Abs(x - v) == Abs(y - v) ==> 2 * Abs(v - x) == g && v < x
  {
  }

  lemma StepAbove(v: nat, x: nat, g: nat, y: nat)
    requires x < y && x + g <= y && (v <= x || 2 * Abs(v - x) <= g)
    ensures Abs(x - v) <= Abs(y - v)
    ensures Abs(x - v) == Abs(y - v) ==> 2 * Abs(v - x) == g && x < v
  {
  }

  lemma BelowIsFarther(mb: nat, step: nat, e: nat, g: nat, v: nat, r: nat, other: nat)
    requires mb >= 1 && step > 0 && e >= 1 && g == Product(Pow2(e - 1), step)
    requires r <= 2 * Pow2(mb) && (e == 1 || Pow2(mb) <= r)
    requires NearestQuotient(v, g, r) && InBinade(mb, e, g, v)
    requires other < Pattern(mb, e, r)
    ensures Distance(mb, Pattern(mb, e, r), step, v) <= Distance(mb, other, step, v)
    ensures Distance(mb, Pattern(mb, e, r), step, v) == Distance(mb, other, step, v) ==>
              2 * Abs(v - Product(r, g)) == g && v < Product(r, g)
  {
    var c := Pattern(mb, e, r);
    ProductSmall(Pow2(mb));
    PatternWorth(mb, e, r, step);
    WorthOrder(mb, other, c, step);
    assert r == 0 ==> c == 0;
    assert r > 0 ==> Pattern(mb, e, r - 1) == c - 1;
    hide Product, Magnitude, Pattern, Worth;
    if e == 1 || Pow2(mb) < r {
      // The pattern just below is r - 1 steps of the same binade.
      PatternWorth(mb, e, r - 1, step);
      ProductDistributes(r - 1, 1, g);
      ProductSmall(g);
      WorthOrder(mb, other, c - 1, step);
      StepBelow(v, Product(r, g), g, Worth(mb, other, step));
    } else {
      // At the bottom of the binade the value cannot lie below the pattern.
      StepBelow(v, Product(r, g), 0, Worth(mb, other, step));
    }
  }

  lemma AboveIsFarther(mb: nat, step: nat, e: nat, g: nat, v: nat, r: nat, other: nat)
    requires mb >= 1 && step > 0 && e >= 1 && g == Product(Pow2(e - 1), step)
    requires r <= 2 * Pow2(mb) && (e == 1 || Pow2(mb) <= r)
    requires NearestQuotient(v, g, r) && InBinade(mb, e, g, v)
    requires other > Pattern(mb, e, r)
    ensures Distance(mb, Pattern(mb, e, r), step, v) <= Distance(mb, other, step, v)
    ensures Distance(mb, Pattern(mb, e, r), step, v) == Distance(mb, other, step, v) ==>
              2 * Abs(v - Product(r, g)) == g && v > Product(r, g)
  {
    var c := Pattern(mb, e, r);
    PatternWorth(mb, e, r, step);
    WorthOrder(mb, c, other, step);
    assert Pattern(mb, e, r + 1) == c + 1;
    hide Product, Magnitude, Pattern, Worth;
    if r < 2 * Pow2(mb) {
      PatternWorth(mb, e, r + 1, step);
      ProductDistributes(r, 1, g);
      ProductSmall(g);
      WorthOrder(mb, c + 1, other, step);
      StepAbove(v, Product(r, g), g, Worth(mb, other, step));
    } else {
      StepAbove(v, Product(r, g), 0, Worth(mb, other, step));
    }
  }

  lemma PatternParity(mb: nat, e: nat, r: nat)
    requires mb >= 1 && e >= 1
    ensures Pattern(mb, e, r) % 2 == r % 2
  {
    var half := Product(e - 1, Pow2(mb - 1));
    assert Product(e - 1, Pow2(mb)) == 2 * half by { assert Pow2(mb) == 2 * Pow2(mb - 1); }
  }

  /** Round to even in the binade, or upwards: the pattern is the closest one there is. */
  lemma RoundedIsClosest(mb: nat, step: nat, e: nat, g: nat, v: nat, r: nat, limit: nat, even: bool)
    requires mb >= 1 && step > 0 && e >= 1 && g == Product(Pow2(e - 1), step)
    requires if even then RoundsEven(v, g, r) else RoundsAway(v, g, r)
    requires InBinade(mb, e, g, v)
    requires Pattern(mb, e, r) < limit
    ensures Closest(mb, step, v, Pattern(mb, e, r), limit, even)
  {
    var c := Pattern(mb, e, r);
    PatternParity(mb, e, r);
    forall other | 0 <= other < limit
      ensures Distance(mb, c, step, v) <= Distance(mb, other, step, v)
      ensures Distance(mb, c, step, v) == Distance(mb, other, step, v) && c != other ==>
                if even then c % 2 == 0 else other < c
    {
      QuotientIsClosest(mb, step, e, g, v, r, other);
    }
  }

  /** Past the last finite pattern, that pattern is the closest. */
  lemma SaturatedIsClosest(mb: nat, step: nat, v: nat, top: nat, even: bool)
    requires step > 0 && Worth(mb, top, step) <= v
    ensures Closest(mb, step, v, top, top + 1, even)
  {
    forall other | 0 <= other <= top && other != top
      ensures Distance(mb, top, step, v) < Distance(mb, other, step, v)
    {
      WorthOrder(mb, other, top, step);
    }
  }

  /** A value one of the patterns has exactly is rounded to that pattern. */
  lemma ExactIsKept(mb: nat, step: nat, v: nat, c: nat, exact: nat, limit: nat, even: bool)
    requires step > 0 && exact < limit && Closest(mb, step, v, c, limit, even)
    requires Worth(mb, exact, step) == v
    ensures c == exact
  {
    assert Distance(mb, exact, step, v) == 0;
    WorthOrder(mb, c, exact, step);
  }

  /** Closest rounding keeps order, across binades and between subnormals and normals alike. */
  lemma ClosestMonotone(mb: nat, step: nat, v1: nat, v2: nat, c1: nat, c2: nat, limit: nat, even: bool)
    requires step > 0 && v1 < v2
    requires Closest(mb, step, v1, c1, limit, even) && Closest(mb, step, v2, c2, limit, even)
    ensures c1 <= c2
  {
    assert Distance(mb, c1, step, v1) <= Distance(mb, c2, step, v1);
    assert Distance(mb, c2, step, v2) <= Distance(mb, c1, step, v2);
    WorthOrder(mb, c2, c1, step);
  }

  lemma RoundEvenStep(value: nat, d: nat, keep: nat, rem: nat)
    requires value == Product(keep, d) + rem && rem < d
    ensures RoundsEven(value, d, if 2 * rem > d || (2 * rem == d && keep % 2 == 1) then keep + 1 else keep)
  {
    ProductDistributes(keep, 1, d);
    ProductSmall(d);
    hide Product;
  }

  lemma RoundsEvenScales(v: nat, d: nat, r: nat, k: nat)
    requires k > 0 && RoundsEven(v, d, r)
    ensures RoundsEven(Product(v, k), Product(d, k), r)
  {
    var gap := Abs(v - Product(r, d));
    ScaledGap(v, Product(r, d), k);
    ProductAssociates(r, d, k);
    ProductAssociates(2, gap, k);
    ProductSmall(Product(gap, k));
    ProductMonotone(2 * gap, d, k);
    assert Product(2, gap) == 2 * gap;
    hide Product;
  }

  lemma ScaledGap(v: nat, x: nat, k: nat)
    ensures Abs(Product(v, k) - Product(x, k)) == Product(Abs(v - x), k)
  {
    assert Product(v, k) - Product(x, k) == (v - x) * k;
  }

  /** A significand of 24 bits lies in the binade its exponent names. */
  lemma SignificandInBinade(mb: nat, e: nat, sig: nat, shift: nat, k: nat)
    requires e >= 1 && k > 0 && sig < Pow2(24)
    requires if e == 1 then mb + shift >= 23 else mb + shift == 23 && Pow2(23) <= sig
    ensures InBinade(mb, e, Product(Pow2(shift), k), Product(sig, k))
  {
    var p := Pow2(mb);
    Pow2Add(mb, shift);
    Pow2Monotone(23, mb + shift);
    Pow2Succ(23);
    ProductAssociates(p, Pow2(shift), k);
    ProductAssociates(2 * p, Pow2(shift), k);
    ProductDistributes(p, p, Pow2(shift));
    ProductMonotone(sig, 2 * Pow2(mb + shift), k);
    if e > 1 {
      ProductMonotone(Pow2(mb + shift), sig, k);
    }
    hide Product, Pow2;
  }

  lemma RoundsAwayScales(v: nat, d: nat, r: nat, k: nat)
    requires k > 0 && RoundsAway(v, d, r)
    ensures RoundsAway(Product(v, k), Product(d, k), r)
  {
    var x := Product(r, d);
    var gap := Abs(v - x);
    ScaledGap(v, x, k);
    ProductAssociates(r, d, k);
    ProductAssociates(2, gap, k);
    ProductSmall(Product(gap, k));
    ProductMonotone(2 * gap, d, k);
    assert v < x ==> Product(v, k) < Product(x, k) by {
      if v < x {
        ProductMonotone(v, x, k);
      }
    }
    assert Product(2, gap) == 2 * gap;
    hide Product;
  }

  /** Truncate, then add the first bit that fell off. */
  function RoundHalfUp(x: nat, n: nat): nat
    requires n >= 1
  {
    Quotient(x, Pow2(n)) + Remainder(Quotient(x, Pow2(n - 1)), 2)
  }

  lemma RoundHalfUpRoundsAway(x: nat, n: nat)
    requires n >= 1
    ensures RoundsAway(x, Pow2(n), RoundHalfUp(x, n))
  {
    var h := Pow2(n - 1);
    Pow2Succ(n - 1);
    var q1 := Quotient(x, h);
    var q, b := Quotient(q1, 2), Remainder(q1, 2);
    Euclid(x, h);
    Euclid(q1, 2);
    var rho := Remainder(x, h);
    HalfSteps(x, q1, q, b, h, rho);
    hide *;
  }

  lemma HalfSteps(x: nat, q1: nat, q: nat, b: nat, h: nat, rho: nat)
    requires h > 0 && b < 2 && rho < h && x == Product(q1, h) + rho && q1 == Product(q, 2) + b
    ensures Quotient(x, 2 * h) == q
    ensures RoundsAway(x, 2 * h, q + b)
  {
    ProductDistributes(Product(q, 2), b, h);
    ProductAssociates(q, 2, h);
    ProductSmall(h);
    ProductSmall(2 * h);
    ProductDistributes(q, b, 2 * h);
    var rest := Product(b, h) + rho;
    assert rest < 2 * h && x == Product(q, 2 * h) + rest;
    QuotientUnique(x, 2 * h, q, rest);
    hide Product, Quotient;
  }

  /** Shifting twice is shifting once by the sum. */
  lemma QuotientTwice(x: nat, a: nat, b: nat)
    ensures Quotient(Quotient(x, Pow2(a)), Pow2(b)) == Quotient(x, Pow2(a + b))
  {
    var p, q := Pow2(a), Pow2(b);
    var y := Quotient(x, p);
    var z, s, t := Quotient(y, q), Remainder(y, q), Remainder(x, p);
    Euclid(x, p);
    Euclid(y, q);
    Pow2Add(b, a);
    ProductDistributes(Product(z, q), s, p);
    ProductAssociates(z, q, p);
    ProductDistributes(s, 1, p);
    ProductMonotone(s + 1, q, p);
    ProductSmall(p);
    QuotientUnique(x, Pow2(a + b), z, Product(s, p) + t);
    hide *;
  }

  /** An even number of whole steps can be put under a rounded value. */
  lemma RoundsEvenOffset(v: nat, d: nat, r: nat, t: nat)
    requires t % 2 == 0 && t <= r && RoundsEven(v + Product(t, d), d, r)
    ensures RoundsEven(v, d, r - t)
  {
    ProductDistributes(r - t, t, d);
    hide Product;
  }
}
