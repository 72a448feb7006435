/** Exchange increments: quantities floored to a step, prices rounded to a tick,
    stops rounded away from the entry. */
module Rounding {
  import opened Common
  import opened RealFacts

  /** k increments. */
  function Multiple(k: int, step: real): real {
    k as real * step
  }

  function RoundQtyDown(qty: real, step: real): real {
    if step <= 0.0 then qty else Multiple(Truncate(qty / step), step)
  }

  function RoundPriceToTick(price: real, tick: real): real {
    if tick <= 0.0 then price else Multiple(HalfUp(price / tick), tick)
  }

  /** Down for a LONG stop, up for a SHORT stop. */
  function RoundStopToTick(price: real, side: Side, tick: real): real {
    if tick <= 0.0 then price
    else Multiple(if side == Long then (price / tick).Floor else Ceil(price / tick), tick)
  }

  ghost predicate OnGrid(x: real, step: real) {
    step <= 0.0 || exists k: int :: x == Multiple(k, step)
  }

  lemma MultipleBelow(k: int, y: real, step: real)
    requires step > 0.0 && k as real <= y
    ensures Multiple(k, step) <= y * step
  {
    MultiplyMonotone(k as real, y, step);
  }

  lemma MultipleAbove(k: int, y: real, step: real)
    requires step > 0.0 && y < k as real + 1.0
    ensures y * step < Multiple(k, step) + step
  {
    ProductPositive(k as real + 1.0 - y, step);
    assert (k as real + 1.0 - y) * step == k as real * step + step - y * step;
  }

  lemma Negated(k: int, step: real)
    ensures Multiple(-k, step) == -Multiple(k, step)
  {
    NegateProduct(k as real, step);
  }

  /** Flooring to a multiple of the step loses less than one step. */
  lemma FloorMultiple(x: real, step: real)
    requires step > 0.0
    ensures var r := Multiple((x / step).Floor, step);
            r <= x < r + step
  {
    DivideMultiply(x, step);
    MultipleBelow((x / step).Floor, x / step, step);
    MultipleAbove((x / step).Floor, x / step, step);
  }

  lemma CeilMultiple(x: real, step: real)
    requires step > 0.0
    ensures var r := Multiple(Ceil(x / step), step);
            r - step < x <= r
  {
    FloorMultiple(-x, step);
    NegateQuotient(x, step);
    Negated((-x / step).Floor, step);
  }

  /** No multiple of the step lies above its floor and at or below x. */
  lemma FloorLargest(x: real, step: real, k: int)
    requires step > 0.0 && Multiple(k, step) <= x
    ensures Multiple(k, step) <= Multiple((x / step).Floor, step)
  {
    QuotientAtLeast(x, step, k);
    MultiplyMonotone(k as real, (x / step).Floor as real, step);
  }

  lemma QuotientAtLeast(x: real, step: real, k: int)
    requires step > 0.0 && Multiple(k, step) <= x
    ensures k <= (x / step).Floor
  {
    DivideMultiply(x, step);
    CancelLess(k as real, x / step, step);
  }

  /** A quantity floored to the step is the largest multiple of it that fits. */
  lemma QtyIsLargestMultiple(qty: real, step: real)
    requires qty >= 0.0 && step > 0.0
    ensures var r := RoundQtyDown(qty, step);
            && OnGrid(r, step)
            && 0.0 <= r <= qty < r + step
            && forall k: int :: Multiple(k, step) <= qty ==> Multiple(k, step) <= r
  {
    QuotientSign(qty, step);
    FloorMultiple(qty, step);
    ProductSign((qty / step).Floor as real, step);
    forall k: int | Multiple(k, step) <= qty
      ensures Multiple(k, step) <= RoundQtyDown(qty, step)
    {
      FloorLargest(qty, step, k);
    }
  }

  /** Rounding down never adds to a quantity and never turns it negative. */
  lemma RoundDownShrinks(qty: real, step: real)
    ensures qty >= 0.0 ==> 0.0 <= RoundQtyDown(qty, step) <= qty
    ensures qty <= 0.0 ==> qty <= RoundQtyDown(qty, step) <= 0.0
  {
    if step > 0.0 {
      if qty >= 0.0 {
        QtyIsLargestMultiple(qty, step);
      } else {
        QtyIsLargestMultiple(-qty, step);
        NegateQuotient(qty, step);
        QuotientSign(-qty, step);
        assert Truncate(qty / step) == -Truncate(-qty / step);
        Negated(Truncate(-qty / step), step);
      }
    }
  }

  /** A negative quantity is rounded as its size is. */
  lemma QtyRoundingIsOdd(qty: real, step: real)
    ensures RoundQtyDown(-qty, step) == -RoundQtyDown(qty, step)
  {
    if step > 0.0 {
      NegateQuotient(qty, step);
      TruncateIsOdd(qty / step);
      Negated(Truncate(qty / step), step);
    }
  }

  lemma TruncateIsOdd(x: real)
    ensures Truncate(-x) == -Truncate(x)
  {
  }

  lemma WholeIsWhole(k: int)
    ensures Truncate(k as real) == k
  {
    assert -(k as real) == (-k) as real;
  }

  /** Rounding a quantity again changes nothing, for any sign and any step. */
  lemma QtyRoundingIsStable(qty: real, step: real)
    ensures RoundQtyDown(RoundQtyDown(qty, step), step) == RoundQtyDown(qty, step)
  {
    hide Truncate;
    if step > 0.0 {
      var k := Truncate(qty / step);
      DivideMultiply(k as real, step);
      assert Multiple(k, step) / step == k as real;
      WholeIsWhole(k);
    }
  }

  /** A rounded stop is on the tick grid and has moved away from the entry by less
      than one tick. */
  lemma StopRoundsOutward(price: real, side: Side, tick: real)
    ensures var r := RoundStopToTick(price, side, tick);
            && OnGrid(r, tick)
            && if tick <= 0.0 then r == price
               else if side == Long then r <= price < r + tick
               else r - tick < price <= r
  {
    if tick > 0.0 {
      FloorMultiple(price, tick);
      CeilMultiple(price, tick);
    }
  }

  lemma HalfUpNear(y: real)
    ensures -0.5 <= HalfUp(y) as real - y <= 0.5
    ensures HalfUp(y) as real - y == 0.5 ==> y >= 0.0
    ensures HalfUp(y) as real - y == -0.5 ==> y < 0.0
  {
  }

  /** Nearest-tick rounding is off by at most half a tick, and a tie goes away from zero. */
  lemma PriceRoundsNearest(price: real, tick: real)
    requires tick > 0.0
    ensures var p := RoundPriceToTick(price, tick);
            && OnGrid(p, tick) && Abs(p - price) <= tick / 2.0
            && (Abs(p - price) == tick / 2.0 ==> Abs(p) > Abs(price))
  {
    var y := price / tick;
    DivideMultiply(price, tick);
    HalfUpNear(y);
    hide HalfUp, Abs;
    var n := HalfUp(y) as real;
    WithinHalf(price, y, n, tick);
    TieAway(price, y, n, tick);
    NearTie(price, n * tick, tick);
  }

  lemma WithinHalf(price: real, y: real, n: real, tick: real)
    requires tick > 0.0 && price == y * tick && -0.5 <= n - y <= 0.5
    ensures price - tick / 2.0 <= n * tick <= price + tick / 2.0
  {
    MultiplyMonotone(n, y + 0.5, tick);
    MultiplyMonotone(y - 0.5, n, tick);
    Distribute(y, 0.5, tick);
    Distribute(y, -0.5, tick);
  }

  lemma Distribute(a: real, b: real, c: real)
    ensures (a + b) * c == a * c + b * c
  {
  }

  lemma TieAway(price: real, y: real, n: real, tick: real)
    requires tick > 0.0 && price == y * tick
    requires n - y == 0.5 ==> y >= 0.0
    requires n - y == -0.5 ==> y < 0.0
    ensures n * tick - price == tick / 2.0 ==> price >= 0.0
    ensures n * tick - price == -(tick / 2.0) ==> price < 0.0
  {
    assert (n - y) * tick == n * tick - price;
    if n * tick - price == tick / 2.0 {
      CancelEqual(n - y, 0.5, tick);
      ProductSign(y, tick);
    }
    if n * tick - price == -(tick / 2.0) {
      CancelEqual(n - y, -0.5, tick);
      ProductPositive(-y, tick);
      NegateProduct(y, tick);
    }
  }

  lemma NearTie(price: real, p: real, tick: real)
    requires tick > 0.0 && price - tick / 2.0 <= p <= price + tick / 2.0
    requires p - price == tick / 2.0 ==> price >= 0.0
    requires p - price == -(tick / 2.0) ==> price < 0.0
    ensures Abs(p - price) <= tick / 2.0 && (Abs(p - price) == tick / 2.0 ==> Abs(p) > Abs(price))
  {
  }
}
