/** Candles, indicator snapshots and per-candle geometry, with the price
    reflection p -> c - p that turns a rising market into a falling one. */
module Market {
  import opened Common
  import opened RealFacts

  datatype Candle = Candle(openTime: int, open: real, high: real, low: real,
                           close: real, volume: real, confirmed: bool)

  /** IndicatorSnapshot without its symbol and timeframe labels. */
  datatype Snapshot = Snapshot(
    close: real, ema20: Option<real>, ema50: Option<real>,
    ema20SlopeAtr: Option<real>, rsi14: Option<real>, atr14: Option<real>,
    atrPercent: Option<real>, volumeRatio: Option<real>,
    swingHigh: Option<real>, swingLow: Option<real>, valid: bool, tsMs: int)

  datatype CandleMetrics = CandleMetrics(
    range: real, body: real, upperWick: real, lowerWick: real,
    bodyRatio: real, upperWickRatio: real, lowerWickRatio: real,
    closePosition: real, valid: bool)

  /** A length as a share of the candle's range. */
  function Share(length: real, range: real): real
    requires range != 0.0
  {
    length / range
  }

  lemma ShareComplement(length: real, range: real)
    requires range != 0.0
    ensures Share(range - length, range) == 1.0 - Share(length, range)
  {
    DivideDifference(range, length, range);
    assert range / range == 1.0;
  }

  function MetricsOf(c: Candle): CandleMetrics {
    var range := c.high - c.low;
    if range <= 0.0 then
      CandleMetrics(range, 0.0, 0.0, 0.0, 0.0, 0.0, 0.0, 0.0, false)
    else
      var body := Abs(c.close - c.open);
      var upper := c.high - Max(c.open, c.close);
      var lower := Min(c.open, c.close) - c.low;
      CandleMetrics(range, body, upper, lower, Share(body, range), Share(upper, range),
                    Share(lower, range), Share(c.close - c.low, range), true)
  }

  // ---- price reflection ----

  function ReflectOption(c: real, p: Option<real>): Option<real> {
    match p
    case Some(v) => Some(c - v)
    case None => None
  }

  function ReflectCandle(c: real, k: Candle): Candle {
    k.(open := c - k.open, high := c - k.low, low := c - k.high, close := c - k.close)
  }

  function ReflectCandleOption(c: real, k: Option<Candle>): Option<Candle> {
    match k
    case Some(v) => Some(ReflectCandle(c, v))
    case None => None
  }

  function ReflectRsi(r: Option<real>): Option<real> {
    match r
    case Some(v) => Some(100.0 - v)
    case None => None
  }

  /** Geometry of a reflected candle: same range and body, wicks exchanged and
      the close measured from the other end of the range. */
  lemma ReflectedMetrics(c: real, k: Candle)
    ensures var m, n := MetricsOf(k), MetricsOf(ReflectCandle(c, k));
            && n.valid == m.valid && n.range == m.range && n.body == m.body
            && n.bodyRatio == m.bodyRatio
            && n.upperWick == m.lowerWick && n.lowerWick == m.upperWick
            && (m.valid ==> n.closePosition == 1.0 - m.closePosition)
  {
    if k.high - k.low > 0.0 {
      ShareComplement(k.close - k.low, k.high - k.low);
      hide Share;
      var r := ReflectCandle(c, k);
      assert r.high - r.low == k.high - k.low;
      assert r.close - r.low == (k.high - k.low) - (k.close - k.low);
    }
  }
}
