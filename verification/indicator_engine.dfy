/** EMA, Wilder RSI and ATR, volume ratio and swings: the loops of the indicator engine
    against recursive definitions, the equations their results satisfy, and their bounds. */
module IndicatorEngine {
  import opened Common
  import opened Market
  import opened RealFacts

  // ---- definitions ----

  function Mean(s: seq<real>): real
    requires |s| > 0
  {
    Sum(s) / |s| as real
  }

  function EmaNext(prev: real, v: real, period: nat): real {
    (v - prev) * (2.0 / (period + 1) as real) + prev
  }

  function WilderNext(avg: real, x: real, period: nat): real
    requires period >= 1
  {
    (avg * (period - 1) as real + x) / period as real
  }

  /** The i-th element of the EMA series, seeded with the mean of the first `period`. */
  function Ema(values: seq<real>, period: nat, i: nat): real
    requires 1 <= period && period + i <= |values|
  {
    if i == 0 then Mean(values[..period])
    else EmaNext(Ema(values, period, i - 1), values[period + i - 1], period)
  }

  function EmaSeriesOf(values: seq<real>, period: int): Option<seq<real>> {
    if period <= 0 || |values| < period then None
    else Some(seq(|values| - period + 1,
                  i requires 0 <= i <= |values| - period => Ema(values, period, i)))
  }

  /** Wilder's smoothed average of the first n elements. */
  function Wilder(xs: seq<real>, period: nat, n: nat): real
    requires 1 <= period <= n <= |xs|
  {
    if n == period then Mean(xs[..period])
    else WilderNext(Wilder(xs, period, n - 1), xs[n - 1], period)
  }

  function Gain(prev: real, cur: real): real {
    if cur - prev > 0.0 then cur - prev else 0.0
  }

  function Loss(prev: real, cur: real): real {
    if cur - prev < 0.0 then -(cur - prev) else 0.0
  }

  function Gains(closes: seq<real>): seq<real>
    requires |closes| >= 1
  {
    seq(|closes| - 1, i requires 0 <= i < |closes| - 1 => Gain(closes[i], closes[i + 1]))
  }

  function Losses(closes: seq<real>): seq<real>
    requires |closes| >= 1
  {
    seq(|closes| - 1, i requires 0 <= i < |closes| - 1 => Loss(closes[i], closes[i + 1]))
  }

  function RsiFrom(avgGain: real, avgLoss: real): real
    requires avgGain >= 0.0 && avgLoss >= 0.0
  {
    if avgLoss == 0.0 then (if avgGain > 0.0 then 100.0 else 50.0)
    else 100.0 - 100.0 / (1.0 + avgGain / avgLoss)
  }

  lemma {:induction false} WilderNonNegative(xs: seq<real>, period: nat, n: nat)
    requires 1 <= period <= n <= |xs|
    requires forall i :: 0 <= i < |xs| ==> xs[i] >= 0.0
    ensures Wilder(xs, period, n) >= 0.0
    decreases n
  {
    if n == period {
      SumNonNegative(xs[..period]);
      QuotientNonNegative(Sum(xs[..period]), period as real);
    } else {
      WilderNonNegative(xs, period, n - 1);
      WilderNextNonNegative(Wilder(xs, period, n - 1), xs[n - 1], period);
    }
  }

  lemma QuotientNonNegative(x: real, n: real)
    requires x >= 0.0 && n > 0.0
    ensures x / n >= 0.0
  {
    DivideMultiply(x, n);
    CancelLess(0.0, x / n, n);
  }

  lemma WilderNextNonNegative(avg: real, x: real, period: nat)
    requires avg >= 0.0 && x >= 0.0 && period >= 1
    ensures WilderNext(avg, x, period) >= 0.0
  {
    ProductSign(avg, (period - 1) as real);
    QuotientNonNegative(avg * (period - 1) as real + x, period as real);
  }

  lemma {:induction false} SumNonNegative(s: seq<real>)
    requires forall i :: 0 <= i < |s| ==> s[i] >= 0.0
    ensures Sum(s) >= 0.0
  {
    if s != [] {
      SumNonNegative(s[1..]);
    }
  }

  function RsiOf(closes: seq<real>, period: nat): Option<real>
    requires period >= 1
  {
    if |closes| < period + 1 then None
    else
      var g, l := Gains(closes), Losses(closes);
      WilderNonNegative(g, period, |g|);
      WilderNonNegative(l, period, |l|);
      Some(RsiFrom(Wilder(g, period, |g|), Wilder(l, period, |l|)))
  }

  function TrueRange(prev: Candle, cur: Candle): real {
    Max(Max(cur.high - cur.low, Abs(cur.high - prev.close)), Abs(cur.low - prev.close))
  }

  function TrueRanges(candles: seq<Candle>): seq<real>
    requires |candles| >= 1
  {
    seq(|candles| - 1, i requires 0 <= i < |candles| - 1 => TrueRange(candles[i], candles[i + 1]))
  }

  function AtrOf(candles: seq<Candle>, period: nat): Option<real>
    requires period >= 1
  {
    if |candles| < period + 1 then None
    else var trs := TrueRanges(candles); Some(Wilder(trs, period, |trs|))
  }

  function Volumes(candles: seq<Candle>): seq<real> {
    seq(|candles|, i requires 0 <= i < |candles| => candles[i].volume)
  }

  function VolumeRatioOf(candles: seq<Candle>, lookback: nat): Option<real>
    requires lookback >= 1
  {
    var n := |candles|;
    if n < lookback + 1 then None
    else
      var avg := Sum(Volumes(candles[n - lookback - 1..n - 1])) / lookback as real;
      if avg == 0.0 then None else Some(candles[n - 1].volume / avg)
  }

  /** The last `lookback` elements, or all of them. */
  function Window(candles: seq<Candle>, lookback: nat): (w: seq<Candle>)
    requires lookback >= 1
    ensures candles != [] ==> w != []
  {
    if |candles| <= lookback then candles else candles[|candles| - lookback..]
  }

  function HighestHigh(w: seq<Candle>): real
    requires w != []
  {
    if |w| == 1 then w[0].high else Max(w[0].high, HighestHigh(w[1..]))
  }

  function LowestLow(w: seq<Candle>): real
    requires w != []
  {
    if |w| == 1 then w[0].low else Min(w[0].low, LowestLow(w[1..]))
  }

  function SwingHighOf(candles: seq<Candle>, lookback: nat): Option<real>
    requires lookback >= 1
  {
    if candles == [] then None else Some(HighestHigh(Window(candles, lookback)))
  }

  function SwingLowOf(candles: seq<Candle>, lookback: nat): Option<real>
    requires lookback >= 1
  {
    if candles == [] then None else Some(LowestLow(Window(candles, lookback)))
  }

  function Closes(candles: seq<Candle>): seq<real> {
    seq(|candles|, i requires 0 <= i < |candles| => candles[i].close)
  }

  datatype Settings = Settings(emaFast: nat, emaSlow: nat, rsiPeriod: nat, atrPeriod: nat,
                               volumeLookback: nat, swingLookback: nat, slopeCandles: nat)
  {
    predicate Valid() {
      emaFast >= 1 && emaSlow >= 1 && rsiPeriod >= 1 && atrPeriod >= 1
      && volumeLookback >= 1 && swingLookback >= 1
    }
  }

  function LastOf(series: Option<seq<real>>): Option<real> {
    if series.Some? && |series.value| > 0 then Some(series.value[|series.value| - 1]) else None
  }

  function Slope(last: real, earlier: real, atr: real): real
    requires atr > 0.0
  {
    (last - earlier) / atr
  }

  function SlopeOf(s: Settings, fast: Option<seq<real>>, atr: Option<real>): Option<real> {
    if fast.Some? && |fast.value| > s.slopeCandles && atr.Some? && atr.value > 0.0 then
      var n := |fast.value|;
      Some(Slope(fast.value[n - 1], fast.value[n - 1 - s.slopeCandles], atr.value))
    else None
  }

  function AtrPercentOf(atr: Option<real>, close: real): Option<real> {
    if atr.Some? && close > 0.0 then Some(atr.value / close * 100.0) else None
  }

  /** IndicatorEngine.snapshot. */
  function SnapshotOf(s: Settings, candles: seq<Candle>): Snapshot
    requires s.Valid()
  {
    var closes := Closes(candles);
    var close := if candles == [] then 0.0 else candles[|candles| - 1].close;
    var fast := EmaSeriesOf(closes, s.emaFast);
    var slow := EmaSeriesOf(closes, s.emaSlow);
    var atr := AtrOf(candles, s.atrPeriod);
    var rsi := RsiOf(closes, s.rsiPeriod);
    var vr := VolumeRatioOf(candles, s.volumeLookback);
    Snapshot(close, LastOf(fast), LastOf(slow), SlopeOf(s, fast, atr), rsi, atr,
             AtrPercentOf(atr, close), vr, SwingHighOf(candles, s.swingLookback), SwingLowOf(candles, s.swingLookback),
             LastOf(fast).Some? && LastOf(slow).Some? && rsi.Some? && atr.Some?
             && atr.value > 0.0 && vr.Some?,
             if candles == [] then 0 else candles[|candles| - 1].openTime)
  }

  // ---- the equations behind the definitions ----

  /** A step of two (n+1)-ths of the way from prev to v. */
  predicate EmaMoves(n: nat, prev: real, v: real, next: real) {
    (n + 1) as real * (next - prev) == 2.0 * (v - prev)
  }

  /** Wilder's step: n - 1 shares of the average and one of the new value. */
  predicate WilderMoves(n: nat, prev: real, x: real, next: real) {
    n as real * next == (n - 1) as real * prev + x
  }

  /** An EMA: the mean of the first n values, then one step for each further value. */
  predicate IsEma(values: seq<real>, n: int, out: seq<real>) {
    && 1 <= n <= |values| && |out| == |values| - n + 1 && n as real * out[0] == Sum(values[..n])
    && forall i :: 1 <= i < |out| ==> EmaMoves(n, out[i - 1], values[n + i - 1], out[i])
  }

  predicate IsWilder(xs: seq<real>, n: int, out: seq<real>) {
    && 1 <= n <= |xs| && |out| == |xs| - n + 1 && n as real * out[0] == Sum(xs[..n])
    && forall i :: 1 <= i < |out| ==> WilderMoves(n, out[i - 1], xs[n + i - 1], out[i])
  }

  /** The move from a to b split into what it gained and what it lost. */
  predicate IsMove(a: real, b: real, gain: real, loss: real) {
    gain >= 0.0 && loss >= 0.0 && gain - loss == b - a && (gain == 0.0 || loss == 0.0)
  }

  predicate AreMoves(closes: seq<real>, gains: seq<real>, losses: seq<real>) {
    && |gains| == |losses| == |closes| - 1
    && forall i :: 0 <= i < |gains| ==> IsMove(closes[i], closes[i + 1], gains[i], losses[i])
  }

  /** The gains' share of all movement in percent, or the middle without any movement. */
  predicate IsStrength(gain: real, loss: real, x: real) {
    if gain + loss == 0.0 then x == 50.0 else (gain + loss) * x == 100.0 * gain
  }

  ghost predicate IsRsi(closes: seq<real>, n: nat, r: Option<real>) {
    && (r.Some? <==> |closes| > n)
    && (r.Some? ==>
          exists gains, losses, g, l ::
            AreMoves(closes, gains, losses) && IsWilder(gains, n, g) && IsWilder(losses, n, l)
            && IsStrength(g[|g| - 1], l[|l| - 1], r.value))
  }

  /** The farthest the price can have travelled since the last close: the largest of the
      candle's own range and the distances of its ends from that close. */
  predicate IsTrueRange(prev: Candle, cur: Candle, tr: real) {
    var spans := [cur.high - cur.low, cur.high - prev.close, prev.close - cur.high,
                  cur.low - prev.close, prev.close - cur.low];
    tr in spans && forall x :: x in spans ==> x <= tr
  }

  predicate AreTrueRanges(candles: seq<Candle>, trs: seq<real>) {
    && |trs| == |candles| - 1
    && forall i :: 0 <= i < |trs| ==> IsTrueRange(candles[i], candles[i + 1], trs[i])
  }

  ghost predicate IsAtr(candles: seq<Candle>, n: nat, r: Option<real>) {
    && (r.Some? <==> |candles| > n)
    && (r.Some? ==>
          exists trs, avg :: AreTrueRanges(candles, trs) && IsWilder(trs, n, avg) && r.value == avg[|avg| - 1])
  }

  lemma MeanTimes(s: seq<real>)
    requires |s| > 0
    ensures |s| as real * Mean(s) == Sum(s)
  {
    DivideMultiply(Sum(s), |s| as real);
  }

  lemma EmaNextMoves(n: nat, prev: real, v: real)
    ensures EmaMoves(n, prev, v, EmaNext(prev, v, n))
  {
    var d := (n + 1) as real;
    DivideMultiply(2.0, d);
    Associate(v - prev, 2.0 / d, d);
    assert EmaNext(prev, v, n) - prev == (v - prev) * (2.0 / d);
  }

  lemma WilderNextMoves(n: nat, avg: real, x: real)
    requires n >= 1
    ensures WilderMoves(n, avg, x, WilderNext(avg, x, n))
  {
    DivideMultiply(avg * (n - 1) as real + x, n as real);
  }

  lemma EmaLaw(values: seq<real>, n: nat, out: seq<real>)
    requires 1 <= n <= |values| && out == EmaSeriesOf(values, n).value
    ensures IsEma(values, n, out)
  {
    MeanTimes(values[..n]);
    forall i | 1 <= i < |out| ensures EmaMoves(n, out[i - 1], values[n + i - 1], out[i]) {
      EmaNextMoves(n, out[i - 1], values[n + i - 1]);
      hide EmaNext, EmaMoves;
    }
  }

  function WilderSeries(xs: seq<real>, n: nat): seq<real>
    requires 1 <= n <= |xs|
  {
    seq(|xs| - n + 1, i requires 0 <= i <= |xs| - n => Wilder(xs, n, n + i))
  }

  lemma WilderLaw(xs: seq<real>, n: nat)
    requires 1 <= n <= |xs|
    ensures IsWilder(xs, n, WilderSeries(xs, n))
  {
    var out := WilderSeries(xs, n);
    MeanTimes(xs[..n]);
    assert out[0] == Wilder(xs, n, n) == Mean(xs[..n]);
    forall i | 1 <= i < |out| ensures WilderMoves(n, out[i - 1], xs[n + i - 1], out[i]) {
      WilderNextMoves(n, out[i - 1], xs[n + i - 1]);
      assert out[i] == Wilder(xs, n, n + i) && out[i - 1] == Wilder(xs, n, n + i - 1);
      hide WilderNext, WilderMoves;
    }
  }

  /** 100 - 100 / (1 + g/l) is the share of gains in all movement. */
  lemma RsiIsShare(g: real, l: real)
    requires g >= 0.0 && l > 0.0
    ensures RsiFrom(g, l) == 100.0 - 100.0 * (l / (g + l))
  {
    var t := g + l;
    var rs := g / l;
    QuotientNonNegative(g, l);
    DivideMultiply(g, l);
    DivideMultiply(l, t);
    calc {
      100.0 * (l / t) * (1.0 + rs) * l;
      { Associate(100.0 * (l / t), 1.0 + rs, l); }
      100.0 * (l / t) * ((1.0 + rs) * l);
      { assert (1.0 + rs) * l == t; }
      100.0 * (l / t) * t;
      { Associate(100.0, l / t, t); }
      100.0 * l;
    }
    CancelEqual(100.0 * (l / t) * (1.0 + rs), 100.0, l);
    DivideMultiply(100.0, 1.0 + rs);
    CancelEqual(100.0 / (1.0 + rs), 100.0 * (l / t), 1.0 + rs);
  }

  lemma StrengthLaw(g: real, l: real)
    requires g >= 0.0 && l >= 0.0
    ensures IsStrength(g, l, RsiFrom(g, l))
  {
    if l > 0.0 {
      RsiIsShare(g, l);
      DivideMultiply(l, g + l);
      Associate(100.0, l / (g + l), g + l);
      hide RsiFrom;
      assert RsiFrom(g, l) * (g + l) == 100.0 * (g + l) - 100.0 * (l / (g + l)) * (g + l);
    }
  }

  lemma RsiLaw(closes: seq<real>, n: nat)
    requires n >= 1
    ensures IsRsi(closes, n, RsiOf(closes, n))
  {
    if |closes| > n {
      var gains, losses := Gains(closes), Losses(closes);
      var g, l := WilderSeries(gains, n), WilderSeries(losses, n);
      assert AreMoves(closes, gains, losses);
      WilderLaw(gains, n);
      WilderLaw(losses, n);
      WilderNonNegative(gains, n, |gains|);
      WilderNonNegative(losses, n, |losses|);
      StrengthLaw(g[|g| - 1], l[|l| - 1]);
      hide IsWilder, IsStrength, RsiFrom, Wilder, AreMoves;
    }
  }

  lemma TrueRangeLaw(prev: Candle, cur: Candle)
    ensures IsTrueRange(prev, cur, TrueRange(prev, cur))
  {
  }

  lemma AtrLaw(candles: seq<Candle>, n: nat)
    requires n >= 1
    ensures IsAtr(candles, n, AtrOf(candles, n))
  {
    if |candles| > n {
      var trs := TrueRanges(candles);
      forall i | 0 <= i < |trs| ensures IsTrueRange(candles[i], candles[i + 1], trs[i]) {
        TrueRangeLaw(candles[i], candles[i + 1]);
      }
      WilderLaw(trs, n);
      var avg := WilderSeries(trs, n);
      assert AreTrueRanges(candles, trs) && AtrOf(candles, n).value == avg[|avg| - 1];
      hide IsWilder, Wilder;
    }
  }

  // ---- the loops ----

  method EmaSeries(values: seq<real>, period: int) returns (out: Option<seq<real>>)
    ensures out == EmaSeriesOf(values, period)
    ensures (out.Some? <==> 1 <= period <= |values|) && (out.Some? ==> IsEma(values, period, out.value))
  {
    if period <= 0 || |values| < period {
      return None;
    }
    var series := [Mean(values[..period])];
    var i := period;
    while i < |values|
      invariant period <= i <= |values| && |series| == i - period + 1
      invariant forall j :: 0 <= j < |series| ==> series[j] == Ema(values, period, j)
    {
      series := series + [EmaNext(series[|series| - 1], values[i], period)];
      i := i + 1;
    }
    assert series == EmaSeriesOf(values, period).value;
    EmaLaw(values, period, series);
    out := Some(series);
  }

  method Rsi(closes: seq<real>, period: nat) returns (r: Option<real>)
    requires period >= 1
    ensures r == RsiOf(closes, period) && IsRsi(closes, period, r)
  {
    hide IsRsi;
    RsiLaw(closes, period);
    if |closes| < period + 1 {
      return None;
    }
    var gains, losses := [], [];
    var i := 1;
    while i < |closes|
      invariant 1 <= i <= |closes| && |gains| == |losses| == i - 1
      invariant gains == Gains(closes)[..i - 1] && losses == Losses(closes)[..i - 1]
    {
      var delta := closes[i] - closes[i - 1];
      gains := gains + [if delta > 0.0 then delta else 0.0];
      losses := losses + [if delta < 0.0 then -delta else 0.0];
      i := i + 1;
    }
    assert gains == Gains(closes) && losses == Losses(closes);
    var avgGain := Mean(gains[..period]);
    var avgLoss := Mean(losses[..period]);
    i := period;
    while i < |gains|
      invariant period <= i <= |gains|
      invariant avgGain == Wilder(gains, period, i) && avgLoss == Wilder(losses, period, i)
    {
      avgGain := WilderNext(avgGain, gains[i], period);
      avgLoss := WilderNext(avgLoss, losses[i], period);
      i := i + 1;
    }
    WilderNonNegative(gains, period, |gains|);
    WilderNonNegative(losses, period, |losses|);
    r := Some(RsiFrom(avgGain, avgLoss));
  }

  method Atr(candles: seq<Candle>, period: nat) returns (r: Option<real>)
    requires period >= 1
    ensures r == AtrOf(candles, period) && IsAtr(candles, period, r)
  {
    hide IsAtr;
    AtrLaw(candles, period);
    if |candles| < period + 1 {
      return None;
    }
    var trs := TrueRanges(candles);
    var val := Mean(trs[..period]);
    var i := period;
    while i < |trs|
      invariant period <= i <= |trs| && val == Wilder(trs, period, i)
    {
      val := WilderNext(val, trs[i], period);
      i := i + 1;
    }
    r := Some(val);
  }

  // ---- bounds ----

  predicate AllWithin(values: seq<real>, lo: real, hi: real) {
    forall i :: 0 <= i < |values| ==> lo <= values[i] <= hi
  }

  lemma {:induction false} MeanWithin(s: seq<real>, lo: real, hi: real)
    requires AllWithin(s, lo, hi)
    ensures lo * |s| as real <= Sum(s) <= hi * |s| as real
  {
    if s != [] {
      MeanWithin(s[1..], lo, hi);
      assert |s| as real == |s[1..]| as real + 1.0;
      assert lo * |s| as real == lo * |s[1..]| as real + lo;
      assert hi * |s| as real == hi * |s[1..]| as real + hi;
    }
  }

  lemma EmaNextWithin(prev: real, v: real, period: nat, lo: real, hi: real)
    requires period >= 1 && lo <= prev <= hi && lo <= v <= hi
    ensures lo <= EmaNext(prev, v, period) <= hi
  {
    var k := 2.0 / (period + 1) as real;
    DivideWithin(2.0, (period + 1) as real, 0.0, 1.0);
    StepWithin(v, prev, k, lo, hi);
  }

  /** Every element of an EMA lies between the extremes of its inputs. */
  lemma {:induction false} EmaBounded(values: seq<real>, period: nat, i: nat, lo: real, hi: real)
    requires 1 <= period && period + i <= |values| && AllWithin(values, lo, hi)
    ensures lo <= Ema(values, period, i) <= hi
    decreases i
  {
    if i == 0 {
      MeanWithin(values[..period], lo, hi);
      DivideWithin(Sum(values[..period]), period as real, lo, hi);
    } else {
      EmaBounded(values, period, i - 1, lo, hi);
      EmaNextWithin(Ema(values, period, i - 1), values[period + i - 1], period, lo, hi);
    }
  }

  lemma RsiFromBounded(g: real, l: real)
    requires g >= 0.0 && l >= 0.0
    ensures 0.0 <= RsiFrom(g, l) <= 100.0
  {
    if l > 0.0 {
      var rs := g / l;
      QuotientNonNegative(g, l);
      MultiplyMonotone(1.0, 1.0 + rs, 100.0);
      DivideWithin(100.0, 1.0 + rs, 0.0, 100.0);
    }
  }

  lemma RsiBounded(closes: seq<real>, period: nat)
    requires period >= 1
    ensures var r := RsiOf(closes, period); r.Some? ==> 0.0 <= r.value <= 100.0
  {
    if |closes| >= period + 1 {
      var g, l := Gains(closes), Losses(closes);
      WilderNonNegative(g, period, |g|);
      WilderNonNegative(l, period, |l|);
      RsiFromBounded(Wilder(g, period, |g|), Wilder(l, period, |l|));
    }
  }

  lemma AtrNonNegative(candles: seq<Candle>, period: nat)
    requires period >= 1
    ensures AtrOf(candles, period).GetOr(0.0) >= 0.0
  {
    if |candles| >= period + 1 {
      WilderNonNegative(TrueRanges(candles), period, |candles| - 1);
    }
  }
}
