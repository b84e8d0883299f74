/** Small facts about real arithmetic that the solver does not find by itself. */
module Reals {
  /** x is within d of zero. */
  predicate Within(x: real, d: real) {
    -d <= x <= d
  }

  /** The point that divides the way from y to x in the proportion alpha. */
  function Lerp(y: real, x: real, alpha: real): real {
    y + alpha * (x - y)
  }

  lemma MulNonneg(a: real, b: real)
    requires a >= 0.0 && b >= 0.0
    ensures a * b >= 0.0
  {
  }

  lemma MulPositive(a: real, b: real)
    requires a > 0.0 && b > 0.0
    ensures a * b > 0.0
  {
  }

  lemma MulMono(k: real, a: real, b: real)
    requires k >= 0.0 && a <= b
    ensures k * a <= k * b
  {
    MulNonneg(k, b - a);
  }

  lemma MulStrict(k: real, a: real, b: real)
    requires k > 0.0 && a < b
    ensures k * a < k * b
  {
    MulPositive(k, b - a);
  }

  /** p is x times y.  Lemmas that take their products by name let their callers reason with
      linear facts alone. */
  predicate Product(p: real, x: real, y: real) {
    p == x * y
  }

  lemma MulWithin(k: real, e: real, r: real, ke: real, kr: real)
    requires k >= 0.0 && -r <= e <= r && Product(ke, k, e) && Product(kr, k, r)
    ensures -kr <= ke <= kr
  {
    MulNonneg(k, r - e);
    MulNonneg(k, r + e);
  }

  /** Scaling by 1 - k, spelled out. */
  lemma RestWithin(k: real, e: real, r: real, ke: real, kr: real)
    requires k <= 1.0 && -r <= e <= r && Product(ke, k, e) && Product(kr, k, r)
    ensures -(r - kr) <= e - ke <= r - kr
  {
    MulNonneg(1.0 - k, r - e);
    MulNonneg(1.0 - k, r + e);
  }

  lemma ProductMono(a: real, b: real, r: real, ar: real, br: real)
    requires a <= b && r >= 0.0 && Product(ar, a, r) && Product(br, b, r)
    ensures ar <= br
  {
    MulNonneg(b - a, r);
  }

  lemma LerpStep(y: real, x: real, alpha: real, e: real, ae: real)
    requires e == x - y && Product(ae, alpha, e)
    ensures Lerp(y, x, alpha) == y + ae
  {
  }

  lemma LerpInside(lo: real, hi: real, y: real, x: real, alpha: real)
    requires lo <= y <= hi && lo <= x <= hi && 0.0 <= alpha <= 1.0
    ensures lo <= Lerp(y, x, alpha) <= hi
  {
    MulMono(alpha, lo, x);
    MulMono(alpha, x, hi);
    MulNonneg(1.0 - alpha, y - lo);
    MulNonneg(1.0 - alpha, hi - y);
  }

  lemma SquareStrict(a: real, b: real)
    requires 0.0 <= a < b
    ensures a * a < b * b
  {
    var c := b - a;
    assert b * b == a * a + 2.0 * a * c + c * c;
    assert a * c >= 0.0;
    assert c * c > 0.0;
  }

  /** A number whose square is at most that of b lies in [-b, b]. */
  lemma WithinFromSquare(a: real, b: real)
    requires b >= 0.0 && a * a <= b * b
    ensures Within(a, b)
  {
    if a > b {
      SquareStrict(b, a);
    } else if a < -b {
      var n := -a;
      SquareStrict(b, n);
    }
  }
}
