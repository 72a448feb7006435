/** What a snapshot says about its candles, without the definitions that compute it, and the
    weights an exponential average gives its inputs. */
module IndicatorLaws {
  import opened Common
  import opened Market
  import opened RealFacts
  import opened IndicatorEngine

  // ---- the weights of an EMA ----

  function Power(x: real, n: nat): real {
    if n == 0 then 1.0 else x * Power(x, n - 1)
  }

  function Times(x: real, y: real): real {
    x * y
  }

  /** What a value contributes after `age` newer ones: the newest counts 1 - ratio, and each
      older one `ratio` times the next. */
  function Contribution(ratio: real, age: nat, v: real): real {
    (1.0 - ratio) * Power(ratio, age) * v
  }

  /** The contributions of the i values after the first n. */
  function Weighted(values: seq<real>, n: nat, i: nat, ratio: real): seq<real>
    requires n + i <= |values|
  {
    seq(i, j requires 0 <= j < i => Contribution(ratio, i - 1 - j, values[n + j]))
  }

  function Scaled(s: seq<real>, x: real): seq<real> {
    seq(|s|, j requires 0 <= j < |s| => Times(x, s[j]))
  }

  lemma {:induction false} SumScaled(s: seq<real>, x: real)
    ensures Sum(Scaled(s, x)) == Times(x, Sum(s))
  {
    if s != [] {
      SumScaled(s[1..], x);
      TimesSum(x, s[0], Sum(s[1..]));
      hide Times;
      assert Scaled(s, x)[1..] == Scaled(s[1..], x);
    }
  }

  lemma TimesSum(x: real, a: real, b: real)
    ensures Times(x, a + b) == Times(x, a) + Times(x, b)
  {
  }

  lemma WeightedGrows(values: seq<real>, n: nat, i: nat, ratio: real)
    requires n + i < |values|
    ensures Weighted(values, n, i + 1, ratio)
            == Scaled(Weighted(values, n, i, ratio), ratio) + [Contribution(ratio, 0, values[n + i])]
  {
    var a, b := Weighted(values, n, i + 1, ratio), Weighted(values, n, i, ratio);
    hide Times, Contribution;
    forall j | 0 <= j < i ensures a[j] == Times(ratio, b[j]) {
      OneOlder(ratio, i - 1 - j, values[n + j]);
    }
    assert a[i] == Contribution(ratio, 0, values[n + i]);
    assert a == Scaled(b, ratio) + [Contribution(ratio, 0, values[n + i])];
  }

  lemma OneOlder(ratio: real, age: nat, v: real)
    ensures Contribution(ratio, age + 1, v) == Times(ratio, Contribution(ratio, age, v))
  {
    var k, p := 1.0 - ratio, Power(ratio, age);
    Associate(ratio, k * p, v);
    Associate(ratio, k, p);
    Associate(k, ratio, p);
    assert k * (ratio * p) == ratio * (k * p);
  }

  predicate IsRatio(n: nat, ratio: real) {
    ratio * (n + 1) as real == n as real - 1.0
  }

  lemma MoveIsBlend(n: nat, prev: real, v: real, next: real, ratio: real)
    requires EmaMoves(n, prev, v, next) && IsRatio(n, ratio)
    ensures next == Times(ratio, prev) + Contribution(ratio, 0, v)
  {
    var d := (n + 1) as real;
    assert next * d == d * prev + 2.0 * (v - prev);
    BlendTimes(d, prev, v, next, ratio);
    CancelEqual(next, ratio * prev + (1.0 - ratio) * v, d);
    assert Contribution(ratio, 0, v) == (1.0 - ratio) * v;
  }

  lemma BlendTimes(d: real, prev: real, v: real, next: real, ratio: real)
    requires ratio * d == d - 2.0
    requires next * d == d * prev + 2.0 * (v - prev)
    ensures next * d == (ratio * prev + (1.0 - ratio) * v) * d
  {
    assert ratio * prev * d == (d - 2.0) * prev;
    assert ratio * v * d == (d - 2.0) * v;
  }

  /** An EMA of period n is the weighted sum of the mean of its first n values, with weight
      ratio^i, and of the i values after them, with geometrically falling weights, for the
      ratio (n - 1) / (n + 1). */
  lemma {:induction false} EmaIsWeightedSum(values: seq<real>, n: nat, out: seq<real>, i: nat, ratio: real)
    requires IsEma(values, n, out) && i < |out| && IsRatio(n, ratio)
    ensures out[i] == Times(Power(ratio, i), out[0]) + Sum(Weighted(values, n, i, ratio))
    decreases i
  {
    hide EmaMoves, Times, Contribution, IsRatio;
    if i == 0 {
      assert Weighted(values, n, 0, ratio) == [];
      assert Times(1.0, out[0]) == out[0] by { OneTimes(out[0]); }
    } else {
      var before, v := Weighted(values, n, i - 1, ratio), values[n + i - 1];
      EmaIsWeightedSum(values, n, out, i - 1, ratio);
      assert EmaMoves(n, out[i - 1], v, out[i]);
      MoveIsBlend(n, out[i - 1], v, out[i], ratio);
      hide Power, Weighted;
      TimesSum(ratio, Times(Power(ratio, i - 1), out[0]), Sum(before));
      PowerTimes(ratio, i - 1, out[0]);
      WeightedGrows(values, n, i - 1, ratio);
      SumSnoc(Scaled(before, ratio), Contribution(ratio, 0, v));
      SumScaled(before, ratio);
    }
  }

  lemma OneTimes(x: real)
    ensures Times(1.0, x) == x
  {
  }

  lemma PowerTimes(ratio: real, i: nat, x: real)
    ensures Times(ratio, Times(Power(ratio, i), x)) == Times(Power(ratio, i + 1), x)
  {
    Associate(ratio, Power(ratio, i), x);
  }

  // ---- a whole snapshot ----

  /** The newest EMA of the closes, if there are enough of them. */
  ghost predicate IsLastEma(closes: seq<real>, n: nat, x: Option<real>) {
    && (x.Some? <==> |closes| >= n)
    && (x.Some? ==> exists out :: IsEma(closes, n, out) && x.value == out[|out| - 1])
  }

  /** How far the fast EMA has moved over the last candles, in ATRs. */
  ghost predicate IsSlope(s: Settings, closes: seq<real>, atr: Option<real>, x: Option<real>) {
    && (x.Some? <==> |closes| >= s.emaFast + s.slopeCandles && atr.Some? && atr.value > 0.0)
    && (x.Some? ==>
          exists out ::
            && IsEma(closes, s.emaFast, out)
            && x.value * atr.value == out[|out| - 1] - out[|out| - 1 - s.slopeCandles])
  }

  /** The last volume against the mean of the k before it; nothing without volume there. */
  predicate IsVolumeRatio(candles: seq<Candle>, k: nat, x: Option<real>) {
    var n := |candles|;
    if n <= k then x == None
    else
      var total := Sum(seq(k, i requires 0 <= i < k => candles[n - 1 - k + i].volume));
      if total == 0.0 then x == None else x.Some? && x.value * total == k as real * candles[n - 1].volume
  }

  /** x is the largest high, or the smallest low, of the last k candles. */
  ghost predicate IsSwing(candles: seq<Candle>, k: nat, high: Option<real>, low: Option<real>) {
    && (high.Some? <==> candles != []) && (low.Some? <==> candles != [])
    && (candles != [] ==>
          var recent := set i | 0 <= i < |candles| && |candles| - k <= i :: candles[i];
          && (exists a :: a in recent && a.high == high.value) && (forall a :: a in recent ==> a.high <= high.value)
          && (exists a :: a in recent && a.low == low.value) && (forall a :: a in recent ==> low.value <= a.low))
  }

  /** The ATR in percent of a positive close. */
  predicate IsAtrPercent(atr: Option<real>, close: real, x: Option<real>) {
    (x.Some? <==> atr.Some? && close > 0.0) && (x.Some? ==> x.value * close == atr.value * 100.0)
  }

  function CloseSeries(candles: seq<Candle>): (closes: seq<real>)
    ensures |closes| == |candles|
  {
    seq(|candles|, i requires 0 <= i < |candles| => candles[i].close)
  }

  ghost predicate IsSnapshot(s: Settings, candles: seq<Candle>, x: Snapshot) {
    var closes := CloseSeries(candles);
    && x.close == (if candles == [] then 0.0 else closes[|closes| - 1])
    && x.tsMs == (if candles == [] then 0 else candles[|candles| - 1].openTime)
    && IsLastEma(closes, s.emaFast, x.ema20) && IsLastEma(closes, s.emaSlow, x.ema50)
    && IsSlope(s, closes, x.atr14, x.ema20SlopeAtr)
    && IsRsi(closes, s.rsiPeriod, x.rsi14) && IsAtr(candles, s.atrPeriod, x.atr14)
    && IsAtrPercent(x.atr14, x.close, x.atrPercent)
    && IsVolumeRatio(candles, s.volumeLookback, x.volumeRatio)
    && IsSwing(candles, s.swingLookback, x.swingHigh, x.swingLow)
    && (x.valid <==> x.ema20.Some? && x.ema50.Some? && x.rsi14.Some? && x.atr14.Some? && x.atr14.value > 0.0
                     && x.volumeRatio.Some?)
  }

  lemma LastEmaLaw(closes: seq<real>, n: nat)
    requires n >= 1
    ensures IsLastEma(closes, n, LastOf(EmaSeriesOf(closes, n)))
  {
    if |closes| >= n {
      EmaLaw(closes, n, EmaSeriesOf(closes, n).value);
      hide IsEma, Ema;
    }
  }

  lemma SlopeLaw(s: Settings, closes: seq<real>, atr: Option<real>)
    requires s.Valid()
    ensures IsSlope(s, closes, atr, SlopeOf(s, EmaSeriesOf(closes, s.emaFast), atr))
  {
    if |closes| >= s.emaFast + s.slopeCandles && atr.Some? && atr.value > 0.0 {
      var out := EmaSeriesOf(closes, s.emaFast).value;
      EmaLaw(closes, s.emaFast, out);
      DivideMultiply(out[|out| - 1] - out[|out| - 1 - s.slopeCandles], atr.value);
      hide IsEma, Ema;
    }
  }

  lemma VolumeLaw(candles: seq<Candle>, k: nat)
    requires k >= 1
    ensures IsVolumeRatio(candles, k, VolumeRatioOf(candles, k))
  {
    var n := |candles|;
    if n > k {
      var vols := seq(k, i requires 0 <= i < k => candles[n - 1 - k + i].volume);
      assert Volumes(candles[n - k - 1..n - 1]) == vols;
      RatioTimes(candles[n - 1].volume, Sum(vols), k as real);
      hide Sum;
    }
  }

  lemma RatioTimes(x: real, total: real, k: real)
    requires k > 0.0
    ensures total / k == 0.0 <==> total == 0.0
    ensures total != 0.0 ==> total / k != 0.0 && x / (total / k) * total == k * x
  {
    var avg := total / k;
    DivideMultiply(total, k);
    if total != 0.0 {
      DivideMultiply(x, avg);
      Associate(x / avg, avg, k);
    }
  }

  lemma {:induction false} HighestLaw(w: seq<Candle>)
    requires w != []
    ensures forall a :: a in w ==> LowestLow(w) <= a.low && a.high <= HighestHigh(w)
    ensures (exists a :: a in w && a.high == HighestHigh(w)) && (exists a :: a in w && a.low == LowestLow(w))
  {
    if |w| == 1 {
      assert w[0] in w;
    } else {
      HighestLaw(w[1..]);
      var h :| h in w[1..] && h.high == HighestHigh(w[1..]);
      var l :| l in w[1..] && l.low == LowestLow(w[1..]);
      assert w[0] in w && h in w && l in w;
      forall a | a in w ensures LowestLow(w) <= a.low && a.high <= HighestHigh(w) {
        assert a == w[0] || a in w[1..];
      }
    }
  }

  lemma SwingLaw(candles: seq<Candle>, k: nat)
    requires k >= 1
    ensures IsSwing(candles, k, SwingHighOf(candles, k), SwingLowOf(candles, k))
  {
    if candles != [] {
      var w := Window(candles, k);
      HighestLaw(w);
      var recent := set i | 0 <= i < |candles| && |candles| - k <= i :: candles[i];
      forall a ensures a in recent <==> a in w {
        if a in w {
          var j :| 0 <= j < |w| && w[j] == a;
          assert candles[|candles| - |w| + j] == a;
        }
        if a in recent {
          var i :| 0 <= i < |candles| && |candles| - k <= i && candles[i] == a;
          assert w[i - (|candles| - |w|)] == a;
        }
      }
      hide HighestHigh, LowestLow;
    }
  }

  /** A snapshot is described by its candles: each figure satisfies the equations above, is
      absent exactly without enough data for it, and the snapshot is valid exactly when the
      figures that entries need are there and the ATR is positive. */
  lemma SnapshotLaw(s: Settings, candles: seq<Candle>)
    requires s.Valid()
    ensures IsSnapshot(s, candles, SnapshotOf(s, candles))
  {
    var x, closes := SnapshotOf(s, candles), Closes(candles);
    assert closes == CloseSeries(candles);
    hide EmaSeriesOf, RsiOf, AtrOf, VolumeRatioOf, SwingHighOf, SwingLowOf, SlopeOf, IsLastEma, IsSlope, IsRsi, IsAtr,
         IsVolumeRatio, IsSwing, IsAtrPercent, AtrPercentOf, CloseSeries;
    LastEmaLaw(closes, s.emaFast);
    LastEmaLaw(closes, s.emaSlow);
    SlopeLaw(s, closes, x.atr14);
    RsiLaw(closes, s.rsiPeriod);
    AtrLaw(candles, s.atrPeriod);
    VolumeLaw(candles, s.volumeLookback);
    SwingLaw(candles, s.swingLookback);
    PercentLaw(x.atr14, x.close);
  }

  lemma PercentLaw(atr: Option<real>, close: real)
    ensures IsAtrPercent(atr, close, AtrPercentOf(atr, close))
  {
    if atr.Some? && close > 0.0 {
      DivideMultiply(atr.value, close);
    }
  }
}
