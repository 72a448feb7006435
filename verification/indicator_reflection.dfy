/** How the indicators and a whole snapshot behave when the candle series is reflected. */
module IndicatorReflection {
  import opened Common
  import opened Market
  import opened RealFacts
  import opened IndicatorEngine

  function ReflectAll(c: real, values: seq<real>): seq<real> {
    seq(|values|, i requires 0 <= i < |values| => c - values[i])
  }

  function ReflectCandles(c: real, candles: seq<Candle>): seq<Candle> {
    seq(|candles|, i requires 0 <= i < |candles| => ReflectCandle(c, candles[i]))
  }

  lemma {:induction false} SumReflect(c: real, s: seq<real>)
    ensures Sum(ReflectAll(c, s)) == c * |s| as real - Sum(s)
  {
    if s == [] {
    } else {
      SumReflect(c, s[1..]);
      assert ReflectAll(c, s)[1..] == ReflectAll(c, s[1..]);
      assert c * |s| as real == c * |s[1..]| as real + c by {
        assert |s| as real == |s[1..]| as real + 1.0;
      }
    }
  }

  lemma MeanReflect(c: real, s: seq<real>)
    requires |s| > 0
    ensures Mean(ReflectAll(c, s)) == c - Mean(s)
  {
    SumReflect(c, s);
    DivideShift(c, Sum(s), |s| as real);
  }

  lemma DivideShift(c: real, x: real, n: real)
    requires n > 0.0
    ensures (c * n - x) / n == c - x / n
  {
    DivideDifference(c * n, x, n);
    DivideMultiply(c, n);
  }

  lemma EmaNextReflect(c: real, prev: real, v: real, period: nat)
    ensures EmaNext(c - prev, c - v, period) == c - EmaNext(prev, v, period)
  {
    var k := 2.0 / (period + 1) as real;
    assert (c - v) - (c - prev) == -(v - prev);
    assert (-(v - prev)) * k == -((v - prev) * k);
  }

  /** EMA' = c - EMA. */
  lemma {:induction false} EmaReflect(c: real, values: seq<real>, period: nat, i: nat)
    requires 1 <= period && period + i <= |values|
    ensures Ema(ReflectAll(c, values), period, i) == c - Ema(values, period, i)
    decreases i
  {
    var r := ReflectAll(c, values);
    if i == 0 {
      assert r[..period] == ReflectAll(c, values[..period]);
      MeanReflect(c, values[..period]);
    } else {
      EmaReflect(c, values, period, i - 1);
      EmaNextReflect(c, Ema(values, period, i - 1), values[period + i - 1], period);
    }
  }

  /** The EMA series of the reflected values is the reflected series, element by element. */
  lemma EmaSeriesReflect(c: real, values: seq<real>, period: int)
    ensures var series := EmaSeriesOf(values, period);
            EmaSeriesOf(ReflectAll(c, values), period) ==
            if series.Some? then Some(ReflectAll(c, series.value)) else None
  {
    if 1 <= period <= |values| {
      var a, b := EmaSeriesOf(values, period).value, EmaSeriesOf(ReflectAll(c, values), period).value;
      forall i | 0 <= i <= |values| - period ensures b[i] == c - a[i] {
        EmaReflect(c, values, period, i);
      }
      assert b == ReflectAll(c, a);
    }
  }

  lemma GainsReflect(c: real, closes: seq<real>)
    requires |closes| >= 1
    ensures Gains(ReflectAll(c, closes)) == Losses(closes)
    ensures Losses(ReflectAll(c, closes)) == Gains(closes)
  {
  }

  lemma RsiFromSwap(g: real, l: real)
    requires g >= 0.0 && l >= 0.0
    ensures RsiFrom(l, g) == 100.0 - RsiFrom(g, l)
  {
    if g > 0.0 && l > 0.0 {
      var t := g + l;
      RsiIsShare(g, l);
      RsiIsShare(l, g);
      DivideDifference(t, g, t);
      assert t / t == 1.0;
    } else if g > 0.0 {
      RsiIsShare(l, g);
      assert g / g == 1.0;
    } else if l > 0.0 {
      RsiIsShare(g, l);
      assert l / l == 1.0;
    }
  }

  /** RSI' = 100 - RSI, also when gains or losses are absent. */
  lemma RsiReflect(c: real, closes: seq<real>, period: nat)
    requires period >= 1
    ensures RsiOf(ReflectAll(c, closes), period) == ReflectRsi(RsiOf(closes, period))
  {
    if |closes| >= period + 1 {
      GainsReflect(c, closes);
      var g, l := Gains(closes), Losses(closes);
      WilderNonNegative(g, period, |g|);
      WilderNonNegative(l, period, |l|);
      RsiFromSwap(Wilder(g, period, |g|), Wilder(l, period, |l|));
    }
  }

  lemma AtrReflect(c: real, candles: seq<Candle>, period: nat)
    requires period >= 1
    ensures AtrOf(ReflectCandles(c, candles), period) == AtrOf(candles, period)
  {
    if |candles| >= period + 1 {
      assert TrueRanges(ReflectCandles(c, candles)) == TrueRanges(candles);
    }
  }

  lemma {:induction false} ExtremesReflect(c: real, w: seq<Candle>)
    requires w != []
    ensures HighestHigh(ReflectCandles(c, w)) == c - LowestLow(w)
    ensures LowestLow(ReflectCandles(c, w)) == c - HighestHigh(w)
  {
    if |w| > 1 {
      ExtremesReflect(c, w[1..]);
      assert ReflectCandles(c, w)[1..] == ReflectCandles(c, w[1..]);
    }
  }

  lemma SwingReflect(c: real, candles: seq<Candle>, lookback: nat)
    requires lookback >= 1
    ensures SwingHighOf(ReflectCandles(c, candles), lookback)
            == ReflectOption(c, SwingLowOf(candles, lookback))
    ensures SwingLowOf(ReflectCandles(c, candles), lookback)
            == ReflectOption(c, SwingHighOf(candles, lookback))
  {
    if candles != [] {
      var w := Window(candles, lookback);
      assert Window(ReflectCandles(c, candles), lookback) == ReflectCandles(c, w);
      ExtremesReflect(c, w);
    }
  }

  lemma VolumeReflect(c: real, candles: seq<Candle>, lookback: nat)
    requires lookback >= 1
    ensures VolumeRatioOf(ReflectCandles(c, candles), lookback)
            == VolumeRatioOf(candles, lookback)
  {
    var n := |candles|;
    if n >= lookback + 1 {
      assert Volumes(ReflectCandles(c, candles)[n - lookback - 1..n - 1])
          == Volumes(candles[n - lookback - 1..n - 1]);
    }
  }

  function Negate(x: Option<real>): Option<real> {
    if x.Some? then Some(-x.value) else None
  }

  lemma SlopeReflect(c: real, s: Settings, closes: seq<real>, atr: Option<real>)
    requires s.Valid()
    ensures SlopeOf(s, EmaSeriesOf(ReflectAll(c, closes), s.emaFast), atr)
            == Negate(SlopeOf(s, EmaSeriesOf(closes, s.emaFast), atr))
  {
    if |closes| >= s.emaFast && |closes| - s.emaFast + 1 > s.slopeCandles {
      var n := |closes| - s.emaFast + 1;
      EmaReflect(c, closes, s.emaFast, n - 1);
      EmaReflect(c, closes, s.emaFast, n - 1 - s.slopeCandles);
      if atr.Some? && atr.value > 0.0 {
        SlopeNegates(c, Ema(closes, s.emaFast, n - 1),
                     Ema(closes, s.emaFast, n - 1 - s.slopeCandles), atr.value);
      }
    }
  }

  lemma SlopeNegates(c: real, a: real, b: real, atr: real)
    requires atr > 0.0
    ensures Slope(c - a, c - b, atr) == -Slope(a, b, atr)
  {
    assert (c - a) - (c - b) == b - a;
    DivideDifference(b, a, atr);
    DivideDifference(a, b, atr);
  }

  /** The snapshot of the reflected series, an empty one included: prices and EMAs reflected, RSI about 50,
      slope negated, swings exchanged, ATR, volume ratio and validity unchanged. The
      ATR percentage alone is relative to the price level and is not preserved. */
  lemma SnapshotReflect(c: real, s: Settings, candles: seq<Candle>)
    requires s.Valid()
    ensures var a := SnapshotOf(s, candles);
            var b := SnapshotOf(s, ReflectCandles(c, candles));
            && b.close == (if candles == [] then a.close else c - a.close)
            && b.ema20 == ReflectOption(c, a.ema20) && b.ema50 == ReflectOption(c, a.ema50)
            && b.ema20SlopeAtr == Negate(a.ema20SlopeAtr)
            && b.rsi14 == ReflectRsi(a.rsi14) && b.atr14 == a.atr14
            && b.volumeRatio == a.volumeRatio
            && b.swingHigh == ReflectOption(c, a.swingLow)
            && b.swingLow == ReflectOption(c, a.swingHigh)
            && b.valid == a.valid && b.tsMs == a.tsMs
  {
    hide EmaSeriesOf, RsiOf, AtrOf, VolumeRatioOf, SwingHighOf, SwingLowOf, SlopeOf;
    if candles == [] {
      assert ReflectCandles(c, candles) == candles;
      EmptySnapshot(s);
      return;
    }
    var closes := Closes(candles);
    assert Closes(ReflectCandles(c, candles)) == ReflectAll(c, closes);
    EmaSeriesReflect(c, closes, s.emaFast);
    EmaSeriesReflect(c, closes, s.emaSlow);
    RsiReflect(c, closes, s.rsiPeriod);
    AtrReflect(c, candles, s.atrPeriod);
    VolumeReflect(c, candles, s.volumeLookback);
    SwingReflect(c, candles, s.swingLookback);
    SlopeReflect(c, s, closes, AtrOf(candles, s.atrPeriod));
  }

  /** Without candles there is nothing to reflect: a zero close and no indicator. */
  lemma EmptySnapshot(s: Settings)
    requires s.Valid()
    ensures SnapshotOf(s, []) == Snapshot(0.0, None, None, None, None, None, None, None, None, None, false, 0)
  {
  }
}
