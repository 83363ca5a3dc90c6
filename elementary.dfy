/** The few facts of Go's `math` package that the engine relies on.
    Exp, Log and Sqrt are left uninterpreted: each is an arbitrary function whose result type
    carries exactly the property the proofs use. Pow is only ever called with a whole-number
    exponent (float64 of the Adam step counter), so it is defined exactly. */
module Elementary {

  type PositiveReal = x: real | x > 0.0 witness 1.0

  type NonNegativeReal = x: real | x >= 0.0

  /** math.Exp: all that is known is that it is positive. */
  const Exp: real -> PositiveReal

  /** math.Log: nothing is known about it. */
  const Log: real -> real

  /** math.Sqrt: non-negative. Go's result on a negative argument (NaN) is never needed:
      the engine only takes square roots of bias-corrected second moments, which are
      averages of squares. */
  const Sqrt: real -> NonNegativeReal

  /** math.Pow(b, float64(n)) for a whole number n. */
  function Pow(b: real, n: nat): real {
    if n == 0 then 1.0 else b * Pow(b, n - 1)
  }

  /** A power of a rate strictly between 0 and 1 stays strictly between 0 and 1. */
  lemma {:induction false} PowInUnitInterval(b: real, n: nat)
    requires 0.0 < b < 1.0 && n >= 1
    ensures 0.0 < Pow(b, n) < 1.0
  {
    if n > 1 {
      PowInUnitInterval(b, n - 1);
      assert b * Pow(b, n - 1) < Pow(b, n - 1);
    }
  }

  /** math.Max on reals (no NaN). */
  function Max(a: real, b: real): (r: real)
    ensures r >= a && r >= b && (r == a || r == b)
  {
    if a >= b then a else b
  }

  /** math.Min on reals (no NaN). */
  function Min(a: real, b: real): (r: real)
    ensures r <= a && r <= b && (r == a || r == b)
  {
    if a <= b then a else b
  }
}
