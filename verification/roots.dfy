/** Square roots. Dafny's reals have no square root and the source takes its
    `sqrt` from libm, so the model receives the root function as a parameter
    and relies only on what makes a function a square root. */
module Roots {

  /** `sqrt` maps every non-negative real to its non-negative square root.
      The quantifier fires only on `Root` terms, which `SqrtSpec` alone
      introduces, so proofs ask for the roots they use. */
  ghost predicate IsSqrt(sqrt: real -> real) {
    forall x: real {:trigger Root(sqrt, x)} :: 0.0 <= x ==> 0.0 <= Root(sqrt, x) && Root(sqrt, x) * Root(sqrt, x) == x
  }

  ghost function Root(sqrt: real -> real, x: real): real {
    Sqrt(sqrt, x)
  }

  /** The root `sqrt` gives for `x`. Every use goes through this function, so
      that code and proofs speak of the same term. */
  function Sqrt(sqrt: real -> real, x: real): real {
    sqrt(x)
  }

  /** What `IsSqrt` promises about one argument. */
  lemma SqrtSpec(sqrt: real -> real, x: real)
    requires IsSqrt(sqrt)
    requires 0.0 <= x
    ensures 0.0 <= Sqrt(sqrt, x) && Sqrt(sqrt, x) * Sqrt(sqrt, x) == x
  {
    assert 0.0 <= Root(sqrt, x) && Root(sqrt, x) * Root(sqrt, x) == x;
  }

  /** Squaring is strictly increasing on the non-negative reals. */
  lemma SquareIncreasing(x: real, y: real)
    requires 0.0 <= x < y
    ensures x * x < y * y
  {
    var xx, xy, yy := x * x, x * y, y * y;
    assert xx <= xy;
    assert xy < yy;
  }

  /** Two non-negative reals with the same square are equal. */
  lemma RootUnique(x: real, y: real)
    requires 0.0 <= x && 0.0 <= y
    requires x * x == y * y
    ensures x == y
  {
    if x < y {
      SquareIncreasing(x, y);
    } else if y < x {
      SquareIncreasing(y, x);
    }
  }

  /** The root of a positive real is positive. */
  lemma SqrtPositive(sqrt: real -> real, x: real)
    requires IsSqrt(sqrt)
    requires 0.0 < x
    ensures 0.0 < Sqrt(sqrt, x) && Sqrt(sqrt, x) * Sqrt(sqrt, x) == x
  {
    SqrtSpec(sqrt, x);
  }

  /** The root of a product is the product of the roots. */
  lemma SqrtProduct(sqrt: real -> real, p: real, q: real)
    requires IsSqrt(sqrt)
    requires 0.0 <= p && 0.0 <= q
    ensures Sqrt(sqrt, p) * Sqrt(sqrt, q) == Sqrt(sqrt, p * q)
  {
    var a, b := Sqrt(sqrt, p), Sqrt(sqrt, q);
    SqrtSpec(sqrt, p);
    SqrtSpec(sqrt, q);
    SqrtSpec(sqrt, p * q);
    assert (a * b) * (a * b) == (a * a) * (b * b);
    RootUnique(a * b, Sqrt(sqrt, p * q));
  }
}
