/** Facts about integer division that the solver needs spelled out once. */
module IntFacts {

  lemma ProductSize(k: int, n: int)
    requires n > 0
    ensures k >= 1 ==> k * n >= n
    ensures k <= -1 ==> k * n <= -n
  {
    if k >= 1 {
      assert k * n == n + (k - 1) * n;
    } else if k <= -1 {
      assert k * n == -n + (k + 1) * n;
    }
  }

  lemma ProductGrows(j: int, k: int, n: int)
    requires j <= k && n >= 0
    ensures j * n <= k * n
  {
    assert k * n - j * n == (k - j) * n;
  }

  /** Quotient and remainder are the only ones that fit. */
  lemma DivModUnique(y: int, q: int, r: int, n: int)
    requires n > 0 && y == q * n + r && 0 <= r < n
    ensures y / n == q && y % n == r
  {
    var d := y / n;
    assert (d - q) * n == d * n - q * n;
    ProductSize(d - q, n);
  }

  lemma ModShift(x: int, q: int, n: int)
    requires n > 0
    ensures (x + q * n) % n == x % n
  {
    assert (x / n + q) * n == x / n * n + q * n;
    DivModUnique(x + q * n, x / n + q, x % n, n);
  }

  lemma ModAdd(a: int, b: int, n: int)
    requires n > 0
    ensures (a % n + b) % n == (a + b) % n
  {
    ModShift(a % n + b, a / n, n);
  }

  /** Within two turns the remainder is at most one subtraction away. */
  lemma ModOnce(a: int, n: int)
    requires n > 0 && 0 <= a < 2 * n
    ensures a % n == if a < n then a else a - n
  {
    if a < n {
      DivModUnique(a, 0, a, n);
    } else {
      DivModUnique(a, 1, a - n, n);
    }
  }

  lemma QuotientBelow(t: int, size: int, k: int)
    requires size > 0 && 0 <= t < k * size
    ensures 0 <= t / size < k
  {
    ProductSize(t / size, size);
    ProductSize(t / size - k + 1, size);
    assert (t / size - k + 1) * size == t / size * size - k * size + size;
  }
}
