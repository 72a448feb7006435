/** The tests management makes on candles and snapshots, in prices: without ratios, and with
    one statement for both sides. */
module MarketTests {
  import opened Common
  import opened Market
  import opened PositionModel
  import opened Management
  import opened RealFacts

  /** How far x lies ahead of y for a side. */
  function Ahead(side: Side, x: real, y: real): real {
    match side
    case Long => x - y
    case Short => y - x
  }

  /** How far a candle closed from the end of its range where the side loses, and wins. */
  function FromLosingEnd(side: Side, k: Candle): real {
    match side
    case Long => k.close - k.low
    case Short => k.high - k.close
  }

  function FromWinningEnd(side: Side, k: Candle): real {
    FromLosingEnd(Flip(side), k)
  }

  function Range(k: Candle): real {
    k.high - k.low
  }

  /** The volume ratio is known and large enough. */
  predicate Heavy(volumeRatio: Option<real>, volume: real) {
    volumeRatio.Some? && volumeRatio.value >= volume
  }

  /** A candle against the side: heavy, its body at least a share of its range, closing below
      its open (above, for a SHORT) and within a share of the range of the losing end. */
  predicate AgainstCandle(side: Side, k: Candle, volumeRatio: Option<real>, body: real, volume: real, end: real) {
    && Range(k) > 0.0 && Heavy(volumeRatio, volume)
    && Ahead(side, k.close, k.open) < 0.0 && -Ahead(side, k.close, k.open) >= body * Range(k)
    && FromLosingEnd(side, k) <= end * Range(k)
  }

  /** The last closes lie on the losing side of their EMA. */
  predicate BelowEma(side: Side, snap: Option<Snapshot>) {
    snap.Some? && snap.value.ema20.Some? && Ahead(side, snap.value.close, snap.value.ema20.value) < 0.0
  }

  predicate AboveEma(side: Side, snap: Option<Snapshot>) {
    snap.Some? && snap.value.ema20.Some? && Ahead(side, snap.value.close, snap.value.ema20.value) > 0.0
  }

  /** The RSI lies at least `margin` beyond its bound, in the side's favour. */
  predicate RsiHolds(side: Side, snap: Option<Snapshot>, long: real, short: real, margin: real) {
    snap.Some? && snap.value.rsi14.Some?
    && match side
       case Long => snap.value.rsi14.value - long >= margin
       case Short => short - snap.value.rsi14.value >= margin
  }

  // ---- the tests meet these readings ----

  lemma ShareAtLeast(x: real, d: real, m: real)
    requires d > 0.0
    ensures Share(x, d) >= m <==> x >= m * d
    ensures Share(x, d) <= m <==> x <= m * d
  {
    DivideMultiply(x, d);
    ScaleOrder(m, x / d, d);
    ScaleOrder(x / d, m, d);
  }

  lemma CandleShares(k: Candle, body: real, end: real)
    requires Range(k) > 0.0
    ensures var m := MetricsOf(k);
            && m.valid && (m.bodyRatio >= body <==> Abs(k.close - k.open) >= body * Range(k))
            && (m.closePosition <= end <==> k.close - k.low <= end * Range(k))
            && (m.closePosition >= 1.0 - end <==> k.high - k.close <= end * Range(k))
  {
    ShareAtLeast(Abs(k.close - k.open), Range(k), body);
    ShareAtLeast(k.close - k.low, Range(k), end);
    ShareAtLeast(k.close - k.low, Range(k), 1.0 - end);
    assert (1.0 - end) * Range(k) == Range(k) - end * Range(k);
    hide Share;
  }

  /** The runner's and the scenario's counter candle. */
  lemma CounterCandleIff(side: Side, k: Candle, volumeRatio: Option<real>)
    ensures StrongCounterCandle(side, k, volumeRatio) <==> AgainstCandle(side, k, volumeRatio, 0.55, 1.5, 0.25)
  {
    if Range(k) > 0.0 {
      CandleShares(k, 0.55, 0.25);
      hide MetricsOf;
    }
  }

  lemma StrongOppositeIff(cfg: Config, side: Side, k: Candle, volumeRatio: Option<real>)
    ensures ScoutStrongOpposite(cfg, side, k, volumeRatio)
            == if AgainstCandle(side, k, volumeRatio, cfg.scout.strongBody, cfg.scout.strongVolume, 0.25)
               then Some(if side == Long then StrongBearishCandle else StrongBullishCandle) else None
  {
    if Range(k) > 0.0 {
      CandleShares(k, cfg.scout.strongBody, 0.25);
      hide MetricsOf;
    }
  }

  /** A catastrophic candle moved at least so many ATRs besides. */
  predicate Catastrophic(cfg: Config, side: Side, k: Candle, volumeRatio: Option<real>, atr: real) {
    && atr > 0.0
    && AgainstCandle(side, k, volumeRatio, cfg.scout.catastrophicBody, cfg.scout.catastrophicVolume, 0.20)
    && -Ahead(side, k.close, k.open) >= cfg.scout.catastrophicMoveAtr * atr
  }

  lemma OppositeMoveAtLeast(side: Side, k: Candle, atr: real, m: real)
    requires atr > 0.0 && Ahead(side, k.close, k.open) < 0.0
    ensures OppositeMoveAtr(side, k, atr) >= m <==> -Ahead(side, k.close, k.open) >= m * atr
  {
    ShareAtLeast(-Ahead(side, k.close, k.open), atr, m);
  }

  lemma CatastrophicIff(cfg: Config, side: Side, k: Candle, volumeRatio: Option<real>, atr: real)
    ensures ScoutCatastrophic(cfg, side, k, volumeRatio, atr)
            == if Catastrophic(cfg, side, k, volumeRatio, atr)
               then Some(if side == Long then CatastrophicBearishCandle else CatastrophicBullishCandle) else None
  {
    if Range(k) > 0.0 && atr > 0.0 {
      CandleShares(k, cfg.scout.catastrophicBody, 0.20);
      if Ahead(side, k.close, k.open) < 0.0 {
        OppositeMoveAtLeast(side, k, atr, cfg.scout.catastrophicMoveAtr);
      }
      hide MetricsOf, OppositeMoveAtr;
    }
  }

  lemma FiveMinuteIff(side: Side, snap5: Option<Snapshot>)
    ensures FiveMinuteBreak(side, snap5) <==> BelowEma(side, snap5)
  {
  }

  lemma AgainstIff(side: Side, close: real, level: real)
    ensures ClosedAgainst(side, close, level) <==> Ahead(side, close, level) < 0.0
  {
  }
}
