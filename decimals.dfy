/**
  Rates as the artist handlers accept them: a number validated as
  `number().required().precision(6).min(0)`, that is non-negative and with at
  most six fractional digits (src/controllers/artist.js:19, 51 and 123).

  A request carries the number as a decimal literal `mantissa × 10^exponent`;
  the store keeps an accepted rate as a whole number of millionths, so the
  exact equality test of `changeRate` is integer equality.
*/
module Decimals {

  /** The number `mantissa × 10^exponent`. */
  datatype Decimal = Decimal(mantissa: int, exponent: int)

  /** Number of fractional digits a rate may carry. */
  const Scale := 6

  function Pow10(n: nat): (r: nat)
    ensures r >= 1
  {
    if n == 0 then 1 else 10 * Pow10(n - 1)
  }

  lemma {:induction false} Pow10Add(a: nat, b: nat)
    ensures Pow10(a + b) == Pow10(a) * Pow10(b)
  {
    if a > 0 {
      Pow10Add(a - 1, b);
      calc {
        Pow10(a + b);
        10 * Pow10(a - 1 + b);
        10 * (Pow10(a - 1) * Pow10(b));
        (10 * Pow10(a - 1)) * Pow10(b);
      }
    }
  }

  /**
    `micros` millionths are the same number as `d`:
    micros / 10^6 == mantissa × 10^exponent, with both sides multiplied out.
  */
  ghost predicate Denotes(d: Decimal, micros: int)
  {
    if d.exponent >= 0 then micros == d.mantissa * Pow10(d.exponent) * Pow10(Scale)
    else micros * Pow10(-d.exponent) == d.mantissa * Pow10(Scale)
  }

  /** `d` has at most `Scale` fractional digits once trailing zeros are dropped. */
  predicate FitsScale(d: Decimal)
  {
    d.exponent >= -Scale || d.mantissa % Pow10(-Scale - d.exponent) == 0
  }

  /** The numeric rule for `rate` and `newRate`: non-negative, at most six fractional digits. */
  predicate IsValidRate(d: Decimal)
  {
    d.mantissa >= 0 && FitsScale(d)
  }

  /** The whole number of millionths that `d` stands for. */
  function Millionths(d: Decimal): (r: int)
    requires FitsScale(d)
    ensures r >= 0 <==> d.mantissa >= 0
  {
    if d.exponent >= -Scale then d.mantissa * Pow10(d.exponent + Scale)
    else d.mantissa / Pow10(-Scale - d.exponent)
  }

  lemma CancelRight(a: int, b: int, c: int)
    requires c >= 1 && a * c == b * c
    ensures a == b
  {
    assert (a - b) * c == 0;
  }

  lemma MulAtLeast(x: int, p: int)
    requires x >= 1 && p >= 1
    ensures x * p >= p
  {
    assert x * p == (x - 1) * p + p;
  }

  lemma MultipleHasNoRemainder(q: int, p: int)
    requires p >= 1
    ensures (q * p) % p == 0
  {
    var d, r := (q * p) / p, (q * p) % p;
    assert (q - d) * p == r;
    if q - d >= 1 {
      MulAtLeast(q - d, p);
    } else if d - q >= 1 {
      MulAtLeast(d - q, p);
    }
  }

  /** Millionths is exact: it denotes the same number as the decimal it came from. */
  lemma MillionthsDenotes(d: Decimal)
    requires FitsScale(d)
    ensures Denotes(d, Millionths(d))
  {
    var m, e := d.mantissa, d.exponent;
    if e >= 0 {
      Pow10Add(e, Scale);
    } else if e >= -Scale {
      Pow10Add(e + Scale, -e);
      assert Millionths(d) * Pow10(-e) == m * (Pow10(e + Scale) * Pow10(-e));
    } else {
      var k: nat := -Scale - e;
      Pow10Add(k, Scale);
      var q := m / Pow10(k);
      assert m == q * Pow10(k);
      calc {
        Millionths(d) * Pow10(-e);
        q * (Pow10(k) * Pow10(Scale));
        (q * Pow10(k)) * Pow10(Scale);
        m * Pow10(Scale);
      }
    }
  }

  /** A decimal with more than six fractional digits is no whole number of millionths. */
  lemma BeyondScaleDenotesNothing(d: Decimal, micros: int)
    requires !FitsScale(d)
    ensures !Denotes(d, micros)
  {
    var k: nat := -Scale - d.exponent;
    Pow10Add(k, Scale);
    if Denotes(d, micros) {
      assert micros * Pow10(k) * Pow10(Scale) == d.mantissa * Pow10(Scale);
      CancelRight(micros * Pow10(k), d.mantissa, Pow10(Scale));
      MultipleHasNoRemainder(micros, Pow10(k));
      assert false;
    }
  }

  /** The precision rule holds exactly of the decimals that are a whole number of millionths. */
  lemma FitsScaleIff(d: Decimal)
    ensures FitsScale(d) <==> exists micros :: Denotes(d, micros)
  {
    if FitsScale(d) {
      MillionthsDenotes(d);
    } else {
      forall micros | true
        ensures !Denotes(d, micros)
      {
        BeyondScaleDenotesNothing(d, micros);
      }
    }
  }

  /** A decimal denotes at most one count of millionths, so comparing millionths is comparing values. */
  lemma DenotesUnique(d: Decimal, a: int, b: int)
    requires Denotes(d, a) && Denotes(d, b)
    ensures a == b
  {
    if d.exponent < 0 {
      CancelRight(a, b, Pow10(-d.exponent));
    }
  }

  /** The boundary cases of the rule: 0.000001 is accepted, -0.000001 is not, seven digits are refused. */
  lemma RateBoundaries()
    ensures IsValidRate(Decimal(1, -6)) && Millionths(Decimal(1, -6)) == 1
    ensures !IsValidRate(Decimal(-1, -6))
    ensures IsValidRate(Decimal(1234567, -6)) && Millionths(Decimal(1234567, -6)) == 1234567
    ensures !IsValidRate(Decimal(12345678, -7))
    ensures IsValidRate(Decimal(10, -7)) && Millionths(Decimal(10, -7)) == 1
    ensures IsValidRate(Decimal(5, -3)) && Millionths(Decimal(5, -3)) == 5000
  {
    assert Pow10(3) == 1000;
  }
}
