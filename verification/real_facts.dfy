/** Facts about real multiplication, division and rounding that the solver needs
    spelled out once. */
module RealFacts {

  lemma MultiplyMonotone(a: real, b: real, n: real)
    requires a <= b && n >= 0.0
    ensures a * n <= b * n
  {
  }

  lemma DivideMultiply(x: real, n: real)
    requires n != 0.0
    ensures x / n * n == x && x * n / n == x
  {
  }

  lemma CancelEqual(a: real, b: real, n: real)
    requires n != 0.0 && a * n == b * n
    ensures a == b
  {
    DivideMultiply(a, n);
    DivideMultiply(b, n);
  }

  lemma CancelLess(a: real, b: real, n: real)
    requires n > 0.0 && a * n <= b * n
    ensures a <= b
  {
    if a > b {
      MultiplyMonotone(b, a, n);
      CancelEqual(a, b, n);
    }
  }

  lemma ScaleOrder(a: real, b: real, n: real)
    requires n > 0.0
    ensures a <= b <==> a * n <= b * n
  {
    if a <= b {
      MultiplyMonotone(a, b, n);
    } else {
      ProductPositive(a - b, n);
      assert (a - b) * n == a * n - b * n;
    }
  }

  lemma DivideWithin(x: real, n: real, lo: real, hi: real)
    requires n > 0.0 && lo * n <= x <= hi * n
    ensures lo <= x / n <= hi
  {
    DivideMultiply(x, n);
    CancelLess(lo, x / n, n);
    CancelLess(x / n, hi, n);
  }

  lemma DivideDifference(a: real, b: real, n: real)
    requires n != 0.0
    ensures (a - b) / n == a / n - b / n
  {
  }

  lemma ProductSign(a: real, b: real)
    requires a >= 0.0 && b >= 0.0
    ensures a * b >= 0.0
  {
  }

  lemma ProductPositive(a: real, b: real)
    requires a > 0.0 && b > 0.0
    ensures a * b > 0.0
  {
  }

  lemma NegateProduct(a: real, b: real)
    ensures (-a) * b == -(a * b)
  {
  }

  lemma QuotientSign(x: real, n: real)
    requires x >= 0.0 && n > 0.0
    ensures x / n >= 0.0
  {
    DivideMultiply(x, n);
    CancelLess(0.0, x / n, n);
  }

  lemma QuotientPositive(x: real, n: real)
    requires x > 0.0 && n > 0.0
    ensures x / n > 0.0
  {
    QuotientSign(x, n);
    DivideMultiply(x, n);
  }

  lemma NegateQuotient(x: real, n: real)
    requires n != 0.0
    ensures -x / n == -(x / n)
  {
  }

  lemma Associate(a: real, b: real, c: real)
    ensures a * b * c == a * (b * c)
  {
  }

  /** A convex step from e towards v stays between the bounds of both. */
  lemma StepWithin(v: real, e: real, k: real, lo: real, hi: real)
    requires lo <= v <= hi && lo <= e <= hi && 0.0 <= k <= 1.0
    ensures lo <= (v - e) * k + e <= hi
  {
    StepAbove(v, e, k, lo);
    StepBelow(v, e, k, hi);
  }

  lemma StepAbove(v: real, e: real, k: real, lo: real)
    requires lo <= v && lo <= e && 0.0 <= k <= 1.0
    ensures lo <= (v - e) * k + e
  {
    ProductSign(v - lo, k);
    ProductSign(e - lo, 1.0 - k);
    assert (v - e) * k + e - lo == (v - lo) * k + (e - lo) * (1.0 - k);
  }

  lemma StepBelow(v: real, e: real, k: real, hi: real)
    requires v <= hi && e <= hi && 0.0 <= k <= 1.0
    ensures (v - e) * k + e <= hi
  {
    ProductSign(hi - v, k);
    ProductSign(hi - e, 1.0 - k);
    assert hi - ((v - e) * k + e) == (hi - v) * k + (hi - e) * (1.0 - k);
  }
}
