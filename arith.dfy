/** Facts about products of reals that the solver does not find unaided. */
module Arith {

  lemma MulNonneg(a: real, b: real)
    requires a >= 0.0 && b >= 0.0
    ensures a * b >= 0.0
  {}

  lemma MulPos(a: real, b: real)
    requires a > 0.0 && b > 0.0
    ensures a * b > 0.0
  {}

  /** lo + u*(hi - lo) stays in [lo, hi], and below hi when the range is not empty. */
  lemma RangeBounds(lo: real, hi: real, u: real)
    requires 0.0 <= u < 1.0 && lo <= hi
    ensures lo <= lo + u * (hi - lo) <= hi
    ensures lo < hi ==> lo + u * (hi - lo) < hi
  {
    MulNonneg(u, hi - lo);
    MulNonneg(1.0 - u, hi - lo);
    assert (1.0 - u) * (hi - lo) == (hi - lo) - u * (hi - lo);
    if lo < hi {
      MulPos(1.0 - u, hi - lo);
    }
  }

  /** A positive quantity scaled by a factor in (0,1) shrinks and stays positive. */
  lemma ShrinkPositive(w: real, f: real)
    requires w > 0.0 && 0.0 < f < 1.0
    ensures 0.0 < w * f < w
  {
    MulPos(w, f);
    MulPos(w, 1.0 - f);
    assert w * (1.0 - f) == w - w * f;
  }
}
