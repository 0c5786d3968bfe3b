/**
  Binary floating point with 53 significant bits, rounding to nearest with ties to even
  (section 4.3.1 of IEEE 754-2019), on the non-negative reals. The exponent is unbounded: the
  sizing arithmetic stays far away from both ends of the exponent range of float64, which
  `SizingLaws.ValuesStayNormal` proves.
*/
module Float64 {

  const Low: real := 4503599627370496.0    // 2^52
  const High: real := 9007199254740992.0   // 2^53

  function RoundHalfEven(x: real): (r: int)
    requires x >= 0.0
    ensures -0.5 <= r as real - x <= 0.5
  {
    var f := x.Floor;
    if x - f as real < 0.5 || (x - f as real == 0.5 && f % 2 == 0) then f else f + 1
  }

  /** Rounding never passes an integer. */
  lemma RoundBetween(x: real, k: int)
    requires x >= 0.0
    ensures x <= k as real ==> RoundHalfEven(x) <= k
    ensures k as real <= x ==> k <= RoundHalfEven(x)
  {
  }

  /** The value float64 keeps of the real number x. */
  function Fl(x: real): (r: real)
    requires x >= 0.0
    ensures r >= 0.0
    decreases if x >= High then x else if 0.0 < x < Low then 2.0 * Low / x else 0.0
  {
    if x == 0.0 then
      0.0
    else if x >= High then
      2.0 * Fl(x / 2.0)
    else if x < Low then
      HalvesMeasure(x);
      Fl(2.0 * x) / 2.0
    else
      RoundHalfEven(x) as real
  }

  lemma HalvesMeasure(x: real)
    requires 0.0 < x < Low
    ensures 2.0 * Low / x >= 2.0
    ensures 2.0 * Low / (2.0 * x) == 2.0 * Low / x / 2.0
  {
    var m := 2.0 * Low / x;
    assert m * x == 2.0 * Low;
    AtLeastTwo(m, x);
    assert m / 2.0 * (2.0 * x) == 2.0 * Low;
  }

  lemma AtLeastTwo(m: real, x: real)
    requires 0.0 < x && m * x >= 2.0 * x
    ensures m >= 2.0
  {
  }

  /** The numbers that float64 can hold: at most 53 significant bits. */
  predicate Representable(x: real)
    requires x >= 0.0
    decreases if x >= High then x else if 0.0 < x < Low then 2.0 * Low / x else 0.0
  {
    if x == 0.0 then
      true
    else if x >= High then
      Representable(x / 2.0)
    else if x < Low then
      HalvesMeasure(x);
      Representable(2.0 * x)
    else
      x == x.Floor as real
  }

  lemma {:induction false} FlRepresentable(x: real)
    requires x >= 0.0
    ensures Representable(Fl(x))
    decreases if x >= High then x else if 0.0 < x < Low then 2.0 * Low / x else 0.0
  {
    if x >= High {
      FlRepresentable(x / 2.0);
      RepresentableDoubles(Fl(x / 2.0));
    } else if 0.0 < x < Low {
      HalvesMeasure(x);
      FlRepresentable(2.0 * x);
      RepresentableDoubles(Fl(2.0 * x) / 2.0);
    }
  }

  lemma RepresentableDoubles(x: real)
    requires x >= 0.0
    ensures Representable(x) <==> Representable(2.0 * x)
  {
    if x >= Low {
      assert 2.0 * x / 2.0 == x;
    }
  }

  /** Fl picks a representable number that no other representable number beats. */
  lemma {:induction false} FlNearest(x: real, z: real)
    requires x >= 0.0 && z >= 0.0 && Representable(z)
    ensures Distance(Fl(x), x) <= Distance(z, x)
    decreases if x >= High then x else if 0.0 < x < Low then 2.0 * Low / x else 0.0
  {
    if x >= High {
      RepresentableDoubles(z / 2.0);
      FlNearest(x / 2.0, z / 2.0);
    } else if 0.0 < x < Low {
      HalvesMeasure(x);
      RepresentableDoubles(z);
      FlNearest(2.0 * x, 2.0 * z);
    } else if x != 0.0 {
      var r := RoundHalfEven(x);
      if Low <= z < High {
        RoundBetween(x, z.Floor);
      } else {
        RoundBetween(x, 4503599627370496);
        RoundBetween(x, 9007199254740992);
      }
    }
  }

  function Distance(a: real, b: real): real { if a <= b then b - a else a - b }

  lemma FlExact(x: real)
    requires x >= 0.0 && Representable(x)
    ensures Fl(x) == x
  {
    FlNearest(x, x);
  }

  /** One rounding moves a number by at most one part in 2^53. */
  lemma {:induction false} FlError(x: real)
    requires x >= 0.0
    ensures Distance(Fl(x), x) <= x / High
    decreases if x >= High then x else if 0.0 < x < Low then 2.0 * Low / x else 0.0
  {
    if x >= High {
      FlError(x / 2.0);
    } else if 0.0 < x < Low {
      HalvesMeasure(x);
      FlError(2.0 * x);
    }
  }

  lemma {:induction false} FlMonotone(x: real, y: real)
    requires 0.0 <= x <= y
    ensures Fl(x) <= Fl(y)
    decreases if y >= High then y else if 0.0 < y < Low then 2.0 * Low / y else 0.0
  {
    if x == 0.0 {
    } else if y >= High && x >= High {
      FlMonotone(x / 2.0, y / 2.0);
    } else if y < Low {
      HalvesMeasure(y);
      FlMonotone(2.0 * x, 2.0 * y);
    } else if x < Low {
      FlBelow(x);
      FlAbove(y);
    } else if y < High {
      RoundMonotone(x, y);
    } else {
      FlAbove(y / 2.0);
      RoundBetween(x, 9007199254740992);
    }
  }

  lemma RoundMonotone(x: real, y: real)
    requires 0.0 <= x <= y
    ensures RoundHalfEven(x) <= RoundHalfEven(y)
  {
  }

  lemma {:induction false} FlBelow(x: real)
    requires 0.0 <= x < High
    ensures Fl(x) <= High
    ensures x < Low ==> Fl(x) <= Low
    decreases if 0.0 < x < Low then 2.0 * Low / x else 0.0
  {
    if 0.0 < x < Low {
      HalvesMeasure(x);
      FlBelow(2.0 * x);
    } else if x != 0.0 {
      RoundBetween(x, 9007199254740992);
    }
  }

  lemma {:induction false} FlAbove(x: real)
    requires x >= Low
    ensures Fl(x) >= Low
  {
    if x >= High {
      FlAbove(x / 2.0);
    } else {
      RoundBetween(x, 4503599627370496);
    }
  }

  /** x times 2^k. */
  function Scale(k: nat, x: real): (r: real)
    requires x >= 0.0
    ensures r >= x
    decreases k
  {
    if k == 0 then x else 2.0 * Scale(k - 1, x)
  }

  /** Scaling by a power of two commutes with rounding. */
  lemma {:induction false} FlScaled(k: nat, x: real)
    requires x > 0.0
    ensures Fl(Scale(k, x)) == Scale(k, Fl(x))
  {
    if k > 0 {
      FlScaled(k - 1, x);
      FlDoubles(Scale(k - 1, x));
    }
  }

  lemma FlDoubles(y: real)
    requires y > 0.0
    ensures Fl(2.0 * y) == 2.0 * Fl(y)
  {
    assert 2.0 * y / 2.0 == y;
  }

  function FromInt(i: nat): real { Fl(i as real) }

  function Add(a: real, b: real): real
    requires a >= 0.0 && b >= 0.0
  {
    Fl(a + b)
  }

  function Mul(a: real, b: real): real
    requires a >= 0.0 && b >= 0.0
  {
    ProductNonNegative(a, b);
    Fl(a * b)
  }

  function Div(a: real, b: real): real
    requires a >= 0.0 && b > 0.0
  {
    QuotientNonNegative(a, b);
    Fl(a / b)
  }

  lemma ProductNonNegative(a: real, b: real)
    requires a >= 0.0 && b >= 0.0
    ensures a * b >= 0.0
  {
  }

  lemma QuotientNonNegative(a: real, b: real)
    requires a >= 0.0 && b > 0.0
    ensures a / b >= 0.0
  {
  }

  /** Every integer up to 2^53 is held exactly. */
  lemma {:induction false} IntegersExact(i: nat)
    requires i <= 9007199254740992
    ensures FromInt(i) == i as real
    decreases if 0 < i < 4503599627370496 then 4503599627370496 - i else 0
  {
    if 0 < i < 4503599627370496 {
      IntegersExact(2 * i);
      assert (2 * i) as real == 2.0 * i as real;
    } else if 0 < i < 9007199254740992 {
      RoundBetween(i as real, i);
    } else if i != 0 {
      RoundBetween(Low, 4503599627370496);
      assert High / 2.0 == Low;
    }
  }
}
