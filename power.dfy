/**
 * Exact integer powers over the reals, standing for Kotlin's `Double.pow`
 * applied to an integral exponent (the loan term in months).
 */
module Power {

  /** `b` raised to the natural exponent `n`. */
  function Pow(b: real, n: nat): real
    decreases n
  {
    if n == 0 then 1.0 else b * Pow(b, n - 1)
  }

  /** A base above one raises to a value above one for every positive exponent. */
  lemma {:induction false} PowAboveOne(b: real, n: nat)
    requires b > 1.0 && n >= 1
    ensures Pow(b, n) > 1.0
    decreases n
  {
    if n > 1 {
      PowAboveOne(b, n - 1);
      var p := Pow(b, n - 1);
      assert b * p > 1.0 * p by {
        assert (b - 1.0) * p > 0.0;
      }
    }
  }

  /** A non-zero base never raises to zero. */
  lemma {:induction false} PowNonZero(b: real, n: nat)
    requires b != 0.0
    ensures Pow(b, n) != 0.0
    decreases n
  {
    if n > 0 {
      PowNonZero(b, n - 1);
    }
  }

  /** A positive base raises to a positive value. */
  lemma {:induction false} PowPositive(b: real, n: nat)
    requires b > 0.0
    ensures Pow(b, n) > 0.0
    decreases n
  {
    if n > 0 {
      PowPositive(b, n - 1);
    }
  }

  /** Powers of a base above one grow strictly with the exponent. */
  lemma {:induction false} PowStrictlyIncreasing(b: real, k: nat, n: nat)
    requires b > 1.0 && k < n
    ensures Pow(b, k) < Pow(b, n)
    decreases n
  {
    if k < n - 1 {
      PowStrictlyIncreasing(b, k, n - 1);
    }
    PowPositive(b, n - 1);
    var p := Pow(b, n - 1);
    assert Pow(b, k) <= p;
    assert Pow(b, n) == b * p;
    GrowsByFactor(b, p);
  }

  /** Multiplying a positive value by a factor above one makes it larger. */
  lemma GrowsByFactor(b: real, p: real)
    requires b > 1.0 && p > 0.0
    ensures b * p > p
  {
    assert (b - 1.0) * p > 0.0;
    assert b * p == (b - 1.0) * p + p;
  }

  /**
   * `b` raised to an integer exponent, as `(b).pow(n.toDouble())` computes it:
   * a negative exponent gives the reciprocal of the positive power.
   */
  function IntPow(b: real, n: int): (r: real)
    requires b != 0.0
    ensures r != 0.0
    ensures n >= 0 ==> r == Pow(b, n)
    ensures b > 1.0 ==> (r > 1.0 <==> n > 0) && (r == 1.0 <==> n == 0)
    ensures b > 0.0 ==> r > 0.0
  {
    PowNonZero(b, if n >= 0 then n else -n);
    assert b > 0.0 ==> Pow(b, if n >= 0 then n else -n) > 0.0 by {
      if b > 0.0 {
        PowPositive(b, if n >= 0 then n else -n);
      }
    }
    if n >= 0 then
      PowBoundsFromExponent(b, n);
      Pow(b, n)
    else
      ReciprocalPowBelowOne(b, -n);
      1.0 / Pow(b, -n)
  }

  lemma PowBoundsFromExponent(b: real, n: nat)
    ensures b > 1.0 ==> (Pow(b, n) > 1.0 <==> n > 0) && (Pow(b, n) == 1.0 <==> n == 0)
  {
    if b > 1.0 && n > 0 {
      PowAboveOne(b, n);
    }
  }

  lemma ReciprocalPowBelowOne(b: real, n: nat)
    requires b != 0.0
    ensures Pow(b, n) != 0.0
    ensures b > 1.0 && n >= 1 ==> 1.0 / Pow(b, n) < 1.0
  {
    PowNonZero(b, n);
    if b > 1.0 && n >= 1 {
      PowAboveOne(b, n);
      var p := Pow(b, n);
      assert (1.0 / p) * p == 1.0;
    }
  }
}
