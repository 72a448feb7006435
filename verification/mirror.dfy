/** LONG and SHORT are managed alike: reflecting every price p to c - p, every
    RSI to 100 - RSI and the side of the position carries any run of management
    to the run of the reflected market, stop for stop and action for action. */
module Mirror {
  import opened Common
  import opened Market
  import opened PositionModel
  import opened Management
  import opened Trading
  import opened Lifecycle

  // ---- the reflection ----

  /** Reason names that carry a side exchange it; all others are side-neutral. */
  function MirrorWhy(w: Why): Why {
    match w
    case BoxMidReclaimedAgainstLong => BoxMidReclaimedAgainstShort
    case BoxMidReclaimedAgainstShort => BoxMidReclaimedAgainstLong
    case RsiWeakForLongScout => RsiWeakForShortScout
    case RsiWeakForShortScout => RsiWeakForLongScout
    case StrongBearishCandle => StrongBullishCandle
    case StrongBullishCandle => StrongBearishCandle
    case CatastrophicBearishCandle => CatastrophicBullishCandle
    case CatastrophicBullishCandle => CatastrophicBearishCandle
    case _ => w
  }

  function MirrorWhyOption(w: Option<Why>): Option<Why> {
    match w
    case Some(v) => Some(MirrorWhy(v))
    case None => None
  }

  function MirrorAction(c: real, a: Action): Action {
    match a
    case TrailUpdate(stop) => TrailUpdate(c - stop)
    case Event(e, w) => Event(e, MirrorWhyOption(w))
    case _ => a
  }

  function MirrorActionOption(c: real, a: Option<Action>): Option<Action> {
    match a
    case Some(v) => Some(MirrorAction(c, v))
    case None => None
  }

  function MirrorActions(c: real, s: seq<Action>): (r: seq<Action>)
    ensures |r| == |s|
    ensures forall i :: 0 <= i < |s| ==> r[i] == MirrorAction(c, s[i])
  {
    seq(|s|, i requires 0 <= i < |s| => MirrorAction(c, s[i]))
  }

  lemma MirrorShort(c: real, a: Action, b: Action)
    ensures MirrorActions(c, []) == []
    ensures MirrorActions(c, [a]) == [MirrorAction(c, a)]
    ensures MirrorActions(c, [a, b]) == [MirrorAction(c, a), MirrorAction(c, b)]
  {
  }

  lemma MirrorConcat(c: real, a: seq<Action>, b: seq<Action>)
    ensures MirrorActions(c, a + b) == MirrorActions(c, a) + MirrorActions(c, b)
  {
  }

  function MirrorPlan(c: real, p: Plan): Plan {
    p.(side := Flip(p.side), entry := c - p.entry,
       breakoutLevel := ReflectOption(c, p.breakoutLevel),
       boxHigh := ReflectOption(c, p.boxLow), boxLow := ReflectOption(c, p.boxHigh),
       boxMid := ReflectOption(c, p.boxMid))
  }

  function MirrorPosition(c: real, p: PositionState): PositionState {
    p.(plan := MirrorPlan(c, p.plan),
       path := p.path.(highest := ReflectOption(c, p.path.lowest),
                       lowest := ReflectOption(c, p.path.highest)),
       trail := p.trail.(stop := ReflectOption(c, p.trail.stop)),
       runner := p.runner.(lastStop := ReflectOption(c, p.runner.lastStop)),
       scout := p.scout.(warningReason := MirrorWhyOption(p.scout.warningReason)))
  }

  function MirrorLife(c: real, l: Life): Life {
    l.(pos := MirrorPosition(c, l.pos))
  }

  /** The snapshot fields management reads are reflected; it reads the close only
      beside an EMA. */
  predicate SnapshotReflects(c: real, s: Option<Snapshot>, s2: Option<Snapshot>) {
    match (s, s2)
    case (None, None) => true
    case (Some(a), Some(b)) =>
      && (a.ema20.Some? ==> b.close == c - a.close)
      && b.ema20 == ReflectOption(c, a.ema20) && b.rsi14 == ReflectRsi(a.rsi14)
    case _ => false
  }

  predicate TickReflects(c: real, t: Tick, t2: Tick) {
    && t2.price == c - t.price && t2.atr == t.atr && t2.now == t.now
    && t2.volumeRatio == t.volumeRatio
    && t2.candle == ReflectCandleOption(c, t.candle)
    && SnapshotReflects(c, t.snap1, t2.snap1) && SnapshotReflects(c, t.snap5, t2.snap5)
  }

  /** RSI thresholds lie symmetrically about 50. */
  predicate Symmetric(cfg: Config) {
    && cfg.scout.longInvalidRsi + cfg.scout.shortInvalidRsi == 100.0
    && cfg.runner.longMinRsi + cfg.runner.shortMaxRsi == 100.0
  }

  // ---- prices positive on both sides of the reflection ----

  predicate Inside(c: real, p: real) {
    0.0 < p < c
  }

  predicate InsideOption(c: real, p: Option<real>) {
    p.Some? ==> Inside(c, p.value)
  }

  /** A stop may lie anywhere but exactly on zero, which the code takes for no stop, or on
      the reflection of zero. */
  predicate ClearOption(c: real, p: Option<real>) {
    p.Some? ==> p.value != 0.0 && p.value != c
  }

  predicate InsidePath(c: real, p: PositionState) {
    && Inside(c, p.plan.entry) && InsideOption(c, p.path.highest) && InsideOption(c, p.path.lowest)
  }

  predicate ClearStops(c: real, p: PositionState) {
    ClearOption(c, p.trail.stop) && ClearOption(c, p.runner.lastStop)
  }

  predicate InsideLife(c: real, l: Life) {
    InsidePath(c, l.pos) && ClearStops(c, l.pos)
  }

  predicate InsideTick(c: real, t: Tick) {
    && Inside(c, t.price)
    && (t.candle.Some? ==> Inside(c, t.candle.value.high) && Inside(c, t.candle.value.low))
  }

  // ---- tests ----

  lemma CounterCandleMirror(c: real, side: Side, k: Candle, v: Option<real>)
    ensures StrongCounterCandle(Flip(side), ReflectCandle(c, k), v)
            == StrongCounterCandle(side, k, v)
  {
    ReflectedMetrics(c, k);
  }

  lemma TrendMirror(c: real, cfg: Config, side: Side, t: Tick, t2: Tick)
    requires Symmetric(cfg) && TickReflects(c, t, t2)
    ensures FiveMinuteBreak(Flip(side), t2.snap5) == FiveMinuteBreak(side, t.snap5)
    ensures TrendHolds(cfg, Flip(side), t2.snap1, t2.snap5) == TrendHolds(cfg, side, t.snap1, t.snap5)
    ensures VeryStrongRsi(cfg, Flip(side), t2.snap1) == VeryStrongRsi(cfg, side, t.snap1)
  {
  }

  lemma RMultipleMirror(c: real, p: PositionState, price: real)
    ensures RMultiple(MirrorPosition(c, p), c - price) == RMultiple(p, price)
  {
    var m := MirrorPosition(c, p);
    assert (c - price) - m.plan.entry == p.plan.entry - price;
    assert m.plan.entry - (c - price) == price - p.plan.entry;
  }

  lemma ObserveMirror(c: real, l: Life, t: Tick, t2: Tick)
    requires TickReflects(c, t, t2)
    ensures Observe(MirrorLife(c, l), t2) == MirrorLife(c, Observe(l, t))
  {
    var p0 := AdvanceBarCounter(l.pos, t.candle);
    assert AdvanceBarCounter(MirrorPosition(c, l.pos), t2.candle) == MirrorPosition(c, p0);
    ExtremesMirror(c, p0, t, t2);
    RMultipleMirror(c, UpdateExtremes(p0, t.price, t.candle), t.price);
  }

  lemma ExtremesMirror(c: real, p: PositionState, t: Tick, t2: Tick)
    requires TickReflects(c, t, t2)
    ensures UpdateExtremes(MirrorPosition(c, p), t2.price, t2.candle)
            == MirrorPosition(c, UpdateExtremes(p, t.price, t.candle))
  {
    var p1 := UpdateExtremes(p, t.price, t.candle);
    var m1 := UpdateExtremes(MirrorPosition(c, p), t2.price, t2.candle);
    assert m1.path.highest == ReflectOption(c, p1.path.lowest);
    assert m1.path.lowest == ReflectOption(c, p1.path.highest);
  }

  lemma ObserveInside(c: real, l: Life, t: Tick)
    requires InsideLife(c, l) && InsideTick(c, t)
    ensures InsideLife(c, Observe(l, t))
  {
  }

  // ---- runner mode ----

  lemma TrendStrengthMirror(c: real, cfg: Config, l: Life, t: Tick, t2: Tick, maxR: real)
    requires Symmetric(cfg) && TickReflects(c, t, t2)
    ensures TrendStrength(cfg, MirrorLife(c, l), t2, maxR) == TrendStrength(cfg, l, t, maxR)
  {
    TrendMirror(c, cfg, l.pos.plan.side, t, t2);
    assert CountEmaBreak(cfg, MirrorLife(c, l), t2) == CountEmaBreak(cfg, l, t);
    if t.candle.Some? {
      CounterCandleMirror(c, l.pos.plan.side, t.candle.value, t.volumeRatio);
    }
  }

  lemma RunnerStateMirror(c: real, cfg: Config, l: Life, t: Tick, t2: Tick, maxR: real)
    requires Symmetric(cfg) && TickReflects(c, t, t2)
    ensures var (l1, actions) := RunnerState(cfg, l, t, maxR);
            RunnerState(cfg, MirrorLife(c, l), t2, maxR)
            == (MirrorLife(c, l1), MirrorActions(c, actions))
  {
    TrendStrengthMirror(c, cfg, l, t, t2, maxR);
    var (trk, strength, why) := TrendStrength(cfg, l, t, maxR);
    assert MirrorWhy(why) == why;
    MirrorShort(c, Event(RunnerTrendStrengthChangedEvent, Some(why)), Exit(0.0, Stagnation));
    assert WeakDowngradePending(cfg, trk, l.pos.runner.strength, strength, why, t2.candle)
        == WeakDowngradePending(cfg, trk, l.pos.runner.strength, strength, why, t.candle);
  }

  // ---- stops ----

  lemma TrailStopMirror(c: real, cfg: Config, p: PositionState, atr: real, maxR: real)
    requires Inside(c, p.plan.entry)
    requires InsideOption(c, p.path.highest) && InsideOption(c, p.path.lowest)
    ensures TrailStop(cfg, MirrorPosition(c, p), atr, maxR) == c - TrailStop(cfg, p, atr, maxR)
  {
  }

  lemma RatchetStopMirror(c: real, cfg: Config, p: PositionState, t: Tick, t2: Tick, maxR: real)
    requires TickReflects(c, t, t2) && InsideLife(c, Life(p, FRESH))
    ensures var (p1, moved) := RatchetStop(cfg, p, t, maxR);
            RatchetStop(cfg, MirrorPosition(c, p), t2, maxR)
            == (MirrorPosition(c, p1), ReflectOption(c, moved))
  {
    TrailStopMirror(c, cfg, p, t.atr, maxR);
  }

  lemma RatchetStepMirror(c: real, cfg: Config, l: Life, t: Tick, t2: Tick, maxR: real)
    requires TickReflects(c, t, t2) && InsideLife(c, l)
    ensures var (l1, actions) := RatchetStep(cfg, l, t, maxR);
            RatchetStep(cfg, MirrorLife(c, l), t2, maxR)
            == (MirrorLife(c, l1), MirrorActions(c, actions))
  {
    RatchetStopMirror(c, cfg, l.pos, t, t2, maxR);
    var moved := RatchetStop(cfg, l.pos, t, maxR).1.GetOr(0.0);
    MirrorShort(c, Event(RunnerTrailingUpdatedEvent, None), TrailUpdate(moved));
    MirrorShort(c, TrailUpdate(moved), TrailUpdate(moved));
  }

  // ---- scenario and stagnation ----

  lemma ScenarioInvalidMirror(c: real, l: Life, t: Tick, t2: Tick, counter: bool)
    requires TickReflects(c, t, t2)
    ensures IsScenarioInvalid(MirrorPosition(c, l.pos), l.trk, t2, counter)
            == IsScenarioInvalid(l.pos, l.trk, t, counter)
  {
    if t.candle.Some? {
      CounterCandleMirror(c, l.pos.plan.side, t.candle.value, t.volumeRatio);
      assert BreakLevelInvalid(MirrorPosition(c, l.pos), l.trk, t2.candle.value)
          == BreakLevelInvalid(l.pos, l.trk, t.candle.value);
    }
  }

  lemma ScenarioStepMirror(c: real, cfg: Config, l: Life, t: Tick, t2: Tick, r: real)
    requires TickReflects(c, t, t2)
    ensures var (l1, a) := ScenarioStep(cfg, l, t, r);
            ScenarioStep(cfg, MirrorLife(c, l), t2, r)
            == (MirrorLife(c, l1), MirrorActionOption(c, a))
  {
    ScenarioInvalidMirror(c, l, t, t2, true);
    var trk := IsScenarioInvalid(l.pos, l.trk, t, true).0;
    ScenarioInvalidStepMirror(c, cfg, Life(l.pos, trk), t, t2, r);
  }

  lemma MildMirror(c: real, l: Life, t: Tick, t2: Tick, r: real)
    requires TickReflects(c, t, t2)
    ensures MildRetestInvalid(MirrorPosition(c, l.pos), t2, r) == MildRetestInvalid(l.pos, t, r)
  {
    if t.candle.Some? {
      CounterCandleMirror(c, l.pos.plan.side, t.candle.value, t.volumeRatio);
    }
  }

  lemma ConfirmationMirror(c: real, l: Life, t: Tick, t2: Tick)
    requires TickReflects(c, t, t2)
    ensures ScoutInvalidConfirmed(MirrorPosition(c, l.pos), l.trk, t2.candle)
            == ScoutInvalidConfirmed(l.pos, l.trk, t.candle)
  {
  }

  lemma ScenarioInvalidStepMirror(c: real, cfg: Config, l: Life, t: Tick, t2: Tick, r: real)
    requires TickReflects(c, t, t2)
    ensures var (l1, a) := ScenarioInvalidStep(cfg, l, t, r);
            ScenarioInvalidStep(cfg, MirrorLife(c, l), t2, r)
            == (MirrorLife(c, l1), MirrorActionOption(c, a))
  {
    hide MildRetestInvalid, ScoutInvalidConfirmed;
    MildMirror(c, l, t, t2, r);
    ConfirmationMirror(c, l, t, t2);
  }

  lemma StagnationMirror(c: real, cfg: Config, l: Life, maxR: real)
    requires InsideLife(c, l)
    ensures var (l1, a) := StagnationStep(cfg, l, maxR);
            StagnationStep(cfg, MirrorLife(c, l), maxR)
            == (MirrorLife(c, l1), MirrorActionOption(c, a))
  {
    TightenMirror(c, l.pos);
    var m := MirrorLife(c, l);
    forall d: DelayReason ensures DelayOnce(m, d)
      == (MirrorLife(c, DelayOnce(l, d).0), MirrorActionOption(c, DelayOnce(l, d).1)) {}
    assert StagnationExit(m)
        == (MirrorLife(c, StagnationExit(l).0), MirrorActionOption(c, StagnationExit(l).1));
  }

  lemma TightenMirror(c: real, p: PositionState)
    requires ClearOption(c, p.trail.stop)
    ensures TightenStop(MirrorPosition(c, p)) == c - TightenStop(p)
  {
  }

  // ---- scout ----

  /** The edges are real: a stop at exactly zero counts as no stop when it is tightened,
      its reflection at c does not. */
  lemma EdgeBreaksTightening(c: real, p: PositionState)
    requires Inside(c, p.plan.entry) && p.trail.stop == Some(0.0)
    ensures TightenStop(MirrorPosition(c, p)) != c - TightenStop(p)
  {
  }

  lemma ConfirmedMirror(c: real, cfg: Config, p: PositionState, t: Tick, t2: Tick, k: Candle)
    requires TickReflects(c, t, t2)
    ensures ScoutIsConfirmed(cfg, MirrorPosition(c, p), t2, ReflectCandle(c, k))
            == ScoutIsConfirmed(cfg, p, t, k)
  {
    ReflectedMetrics(c, k);
  }

  lemma RecoveredMirror(c: real, p: PositionState, t: Tick, t2: Tick, k: Candle)
    requires TickReflects(c, t, t2)
    ensures ScoutRecovered(MirrorPosition(c, p), ReflectCandle(c, k), t2.snap1)
            == ScoutRecovered(p, k, t.snap1)
  {
    ReflectedMetrics(c, k);
  }

  lemma StrongOppositeMirror(c: real, cfg: Config, side: Side, k: Candle, v: Option<real>)
    ensures ScoutStrongOpposite(cfg, Flip(side), ReflectCandle(c, k), v)
            == MirrorWhyOption(ScoutStrongOpposite(cfg, side, k, v))
  {
    ReflectedMetrics(c, k);
  }

  lemma RsiWeaknessMirror(c: real, cfg: Config, side: Side, t: Tick, t2: Tick)
    requires Symmetric(cfg) && TickReflects(c, t, t2)
    ensures RsiWeakness(cfg, Flip(side), t2.snap1)
            == MirrorWhyOption(RsiWeakness(cfg, side, t.snap1))
  {
  }

  lemma CatastrophicMirror(c: real, cfg: Config, side: Side, k: Candle, v: Option<real>, atr: real)
    ensures ScoutCatastrophic(cfg, Flip(side), ReflectCandle(c, k), v, atr)
            == MirrorWhyOption(ScoutCatastrophic(cfg, side, k, v, atr))
  {
    ReflectedMetrics(c, k);
    var k2 := ReflectCandle(c, k);
    if atr > 0.0 {
      assert k2.close - k2.open == k.open - k.close;
      assert k2.open - k2.close == k.close - k.open;
      assert OppositeMoveAtr(Flip(side), k2, atr) == OppositeMoveAtr(side, k, atr);
    }
  }

  lemma ScoutWeaknessMirror(c: real, cfg: Config, l: Life, t: Tick, t2: Tick, k: Candle)
    requires Symmetric(cfg) && TickReflects(c, t, t2)
    ensures var (trk, why) := ScoutWeakness(cfg, l, t, k);
            ScoutWeakness(cfg, MirrorLife(c, l), t2, ReflectCandle(c, k))
            == (trk, MirrorWhyOption(why))
  {
    hide ScoutStrongOpposite, RsiWeakness, MetricsOf;
    StrongOppositeMirror(c, cfg, l.pos.plan.side, k, t.volumeRatio);
    RsiWeaknessMirror(c, cfg, l.pos.plan.side, t, t2);
    var (trk, why) := EmaReclaim(cfg, l, k, t.snap1);
    assert EmaReclaim(cfg, MirrorLife(c, l), ReflectCandle(c, k), t2.snap1) == (trk, why);
  }

  lemma WeaknessMirror(c: real, cfg: Config, l: Life, t: Tick, t2: Tick, k: Candle)
    requires Symmetric(cfg) && TickReflects(c, t, t2)
    ensures var (trk, why) := WeaknessAfterGrace(cfg, l, t, k);
            WeaknessAfterGrace(cfg, MirrorLife(c, l), t2, ReflectCandle(c, k))
            == (trk, MirrorWhyOption(why))
  {
    hide ScoutWeakness;
    ScoutWeaknessMirror(c, cfg, l, t, t2, k);
  }

  lemma ScoutPendingMirror(c: real, cfg: Config, l: Life, t: Tick, t2: Tick, k: Candle, maxR: real)
    requires Symmetric(cfg) && TickReflects(c, t, t2) && InsideLife(c, l)
    ensures var (l1, actions) := ScoutPendingStep(cfg, l, t, k, maxR);
            ScoutPendingStep(cfg, MirrorLife(c, l), t2, ReflectCandle(c, k), maxR)
            == (MirrorLife(c, l1), MirrorActions(c, actions))
  {
    hide ScoutStrongOpposite, WeaknessAfterGrace, StagnationStep, MirrorActions;
    StrongOppositeMirror(c, cfg, l.pos.plan.side, k, t.volumeRatio);
    WeaknessMirror(c, cfg, l, t, t2, k);
    var strong := ScoutStrongOpposite(cfg, l.pos.plan.side, k, t.volumeRatio);
    MirrorShort(c, Event(ScoutWarningStartedEvent, strong), Exit(0.0, Stagnation));
    var trk := WeaknessAfterGrace(cfg, l, t, k).0;
    var l1 := Life(l.pos, trk);
    var reduce := ScoutReduce(cfg, l1, ScoutDefensiveReduce, ScoutDefensiveReduceEvent).1;
    MirrorShort(c, reduce, reduce);
    StagnationMirror(c, cfg, l1, maxR);
    var stagnation := StagnationStep(cfg, l1, maxR).1;
    MirrorShort(c, Event(ScoutInvalidatedEvent, Some(ExitWhy(Stagnation))),
                stagnation.GetOr(reduce));
    MirrorShort(c, stagnation.GetOr(reduce), reduce);
  }

  lemma ScoutWatchMirror(c: real, cfg: Config, l: Life, t: Tick, t2: Tick, k: Candle, maxR: real)
    requires Symmetric(cfg) && TickReflects(c, t, t2) && InsideLife(c, l)
    ensures var (l1, actions) := ScoutWatch(cfg, l, t, k, maxR);
            ScoutWatch(cfg, MirrorLife(c, l), t2, ReflectCandle(c, k), maxR)
            == (MirrorLife(c, l1), MirrorActions(c, actions))
  {
    hide ScoutPendingStep, ScoutCatastrophic, ScoutRecovered, MirrorActions;
    RecoveredMirror(c, l.pos, t, t2, k);
    CatastrophicMirror(c, cfg, l.pos.plan.side, k, t.volumeRatio, t.atr);
    var cleared := l.(pos := SetScout(ClearWarning(l.pos), ScoutPending));
    assert MirrorLife(c, cleared)
        == MirrorLife(c, l).(pos := SetScout(ClearWarning(MirrorPosition(c, l.pos)), ScoutPending));
    ScoutPendingMirror(c, cfg, l, t, t2, k, maxR);
    ScoutPendingMirror(c, cfg, cleared, t, t2, k, maxR);
    var a := ScoutReduce(cfg, l, ScoutDefensiveReduce, ScoutDefensiveReduceEvent).1;
    var b := ScoutReduce(cfg, l, ScoutCatastrophicReduce, ScoutCatastrophicReduceEvent).1;
    MirrorShort(c, a, b);
    MirrorShort(c, b, a);
    var why := l.pos.scout.warningReason.GetOr(ScoutWarningRecovered);
    MirrorShort(c, Event(ScoutWarningRecoveredEvent, Some(why)), a);
  }

  lemma SetScoutMirror(c: real, p: PositionState, state: ScoutState)
    ensures MirrorPosition(c, SetScout(p, state)) == SetScout(MirrorPosition(c, p), state)
    ensures MirrorPosition(c, SetScout(ClearWarning(p), state))
            == SetScout(ClearWarning(MirrorPosition(c, p)), state)
  {
  }

  lemma ScoutStepMirror(c: real, cfg: Config, l: Life, t: Tick, t2: Tick, maxR: real)
    requires Symmetric(cfg) && TickReflects(c, t, t2) && InsideLife(c, l)
    ensures var (l1, actions, general) := ScoutStep(cfg, l, t, maxR);
            ScoutStep(cfg, MirrorLife(c, l), t2, maxR)
            == (MirrorLife(c, l1), MirrorActions(c, actions), general)
  {
    hide ScoutWatch, ScoutIsConfirmed, MirrorActions, SetScout, ClearWarning,
         ReflectOption, SnapshotReflects;
    MirrorShort(c, TrailUpdate(0.0), TrailUpdate(0.0));
    MirrorShort(c, Event(ScoutConfirmedEvent, None), Event(ScoutActivatedEvent, None));
    MirrorShort(c, Event(ScoutActivatedEvent, None), Event(ScoutActivatedEvent, None));
    SetScoutMirror(c, l.pos, ActiveTrend);
    SetScoutMirror(c, l.pos, ScoutConfirmed);
    if t.candle.Some? {
      ConfirmedMirror(c, cfg, l.pos, t, t2, t.candle.value);
      ScoutWatchMirror(c, cfg, l, t, t2, t.candle.value, maxR);
    }
  }

  // ---- general management ----

  lemma PlainMirror(c: real, cfg: Config, l: Life, t: Tick, t2: Tick, r: real, maxR: real)
    requires TickReflects(c, t, t2) && InsideLife(c, l)
    ensures var (l1, actions) := PlainGeneralStep(cfg, l, t, r, maxR);
            PlainGeneralStep(cfg, MirrorLife(c, l), t2, r, maxR)
            == (MirrorLife(c, l1), MirrorActions(c, actions))
  {
    var (l1, scenario) := ScenarioStep(cfg, l, t, r);
    ScenarioStepMirror(c, cfg, l, t, t2, r);
    ScenarioFrame(cfg, l, t, r);
    var (l2, stagnation) := StagnationStep(cfg, l1, maxR);
    StagnationMirror(c, cfg, l1, maxR);
    StagnationFrame(cfg, l1, maxR);
    RatchetStepMirror(c, cfg, l2, t, t2, maxR);
    MirrorShort(c, scenario.GetOr(TrailUpdate(0.0)), TrailUpdate(0.0));
    MirrorShort(c, stagnation.GetOr(TrailUpdate(0.0)), TrailUpdate(0.0));
  }

  lemma RunnerGeneralMirror(c: real, cfg: Config, l: Life, t: Tick, t2: Tick, maxR: real)
    requires TickReflects(c, t, t2) && InsideLife(c, l)
    ensures var (l1, actions) := RunnerGeneralStep(cfg, l, t, maxR);
            RunnerGeneralStep(cfg, MirrorLife(c, l), t2, maxR)
            == (MirrorLife(c, l1), MirrorActions(c, actions))
  {
    ScenarioInvalidMirror(c, l, t, t2, false);
    var trk := IsScenarioInvalid(l.pos, l.trk, t, false).0;
    RatchetStepMirror(c, cfg, Life(l.pos, trk), t, t2, maxR);
    MirrorShort(c, Event(RunnerScenarioInvalidEvent, Some(ExitWhy(RunnerScenarioInvalid))),
                Exit(l.pos.book.qty, RunnerScenarioInvalid));
  }

  lemma ExitMirror(c: real, l: Life, reason: ExitReason)
    ensures var (l1, a) := ExitPosition(l, reason);
            && ExitPosition(MirrorLife(c, l), reason) == (MirrorLife(c, l1), a)
            && MirrorAction(c, a) == a
  {
  }

  lemma GeneralMirror(c: real, cfg: Config, l: Life, t: Tick, t2: Tick, r: real, maxR: real)
    requires TickReflects(c, t, t2) && InsideLife(c, l)
    ensures var (l1, actions) := GeneralStep(cfg, l, t, r, maxR);
            GeneralStep(cfg, MirrorLife(c, l), t2, r, maxR)
            == (MirrorLife(c, l1), MirrorActions(c, actions))
  {
    hide RunnerGeneralStep, PlainGeneralStep, TrailStop, EffectiveStop, StopBreached,
         ExitPosition, MirrorActions;
    var l1 := if maxR >= cfg.trailingStartR then StartTrailing(l) else l;
    TrailStopMirror(c, cfg, l1.pos, t.atr, maxR);
    BreachMirror(c, l1.pos, t.price, TrailStop(cfg, l1.pos, t.atr, maxR));
    ExitMirror(c, l1, RunnerTrailingStop);
    ExitMirror(c, l1, TrailingStop);
    RunnerGeneralMirror(c, cfg, l1, t, t2, maxR);
    PlainMirror(c, cfg, l1, t, t2, r, maxR);
    MirrorShort(c, PartialTp(Portion(l.pos.book.qty, cfg.partialFraction)), TrailUpdate(0.0));
    MirrorShort(c, Event(RunnerTrailingStopEvent, Some(ExitWhy(RunnerTrailingStop))),
                ExitPosition(l1, RunnerTrailingStop).1);
    MirrorShort(c, ExitPosition(l1, TrailingStop).1, TrailUpdate(0.0));
  }

  lemma BreachMirror(c: real, p: PositionState, price: real, trail: real)
    ensures StopBreached(Flip(p.plan.side), c - price,
                         EffectiveStop(MirrorPosition(c, p), c - trail))
            == StopBreached(p.plan.side, price, EffectiveStop(p, trail))
  {
  }

  lemma ManagedMirror(c: real, cfg: Config, l: Life, t: Tick, t2: Tick, r: real)
    requires Symmetric(cfg) && TickReflects(c, t, t2) && InsideLife(c, l)
    ensures var (l1, actions) := EvaluateObserved(cfg, l, t, r);
            EvaluateObserved(cfg, MirrorLife(c, l), t2, r)
            == (MirrorLife(c, l1), MirrorActions(c, actions))
  {
    var maxR := l.trk.maxR;
    var (l1, prefix, general) := ScoutStep(cfg, l, t, maxR);
    ScoutStepMirror(c, cfg, l, t, t2, maxR);
    ScoutStepFrame(cfg, l, t, maxR);
    if general {
      var (l2, events) := RunnerState(cfg, l1, t, maxR);
      RunnerStateMirror(c, cfg, l1, t, t2, maxR);
      var (l3, actions) := GeneralStep(cfg, l2, t, r, maxR);
      GeneralMirror(c, cfg, l2, t, t2, r, maxR);
      MirrorConcat(c, prefix, events);
      MirrorConcat(c, prefix + events, actions);
    }
  }

  lemma EvaluateMirror(c: real, cfg: Config, l: Life, t: Tick, t2: Tick)
    requires Symmetric(cfg) && TickReflects(c, t, t2) && InsideLife(c, l) && InsideTick(c, t)
    ensures var (l1, actions) := Evaluate(cfg, l, t);
            Evaluate(cfg, MirrorLife(c, l), t2) == (MirrorLife(c, l1), MirrorActions(c, actions))
  {
    hide EvaluateObserved, Observe, RMultiple, MirrorActions;
    MirrorShort(c, TrailUpdate(0.0), TrailUpdate(0.0));
    MirrorShort(c, Exit(l.pos.book.qty, MaxHoldingTime), TrailUpdate(0.0));
    if Managed(l.pos) {
      var l0 := Observe(l, t);
      ObserveMirror(c, l, t, t2);
      ObserveInside(c, l, t);
      ObserveKeepsQty(l, t);
      ManagedMirror(c, cfg, l0, t, t2, RMultiple(l0.pos, t.price));
      RMultipleMirror(c, l0.pos, t.price);
    }
  }

  lemma ObserveKeepsQty(l: Life, t: Tick)
    ensures Observe(l, t).pos.book == l.pos.book
  {
  }

  // ---- executor outcomes and the management cycle ----

  function MirrorOutcome(c: real, o: CloseOutcome): CloseOutcome {
    match o
    case Filled(price, qty, fee, realized) => Filled(c - price, qty, fee, realized)
    case AlreadyFlat => AlreadyFlat
  }

  /** Selling into the bid becomes buying from the ask. */
  function MirrorQuote(c: real, q: Quote): Quote {
    Quote(c - q.ask, c - q.bid)
  }

  predicate CycleReflects(c: real, s: Cycle, s2: Cycle) {
    && TickReflects(c, s.tick, s2.tick)
    && s2.quote == MirrorQuote(c, s.quote)
    && s2.fundingReduce == s.fundingReduce
    && s2.fundingOutcome == MirrorOutcome(c, s.fundingOutcome)
    && s2.outcome == MirrorOutcome(c, s.outcome)
  }

  predicate StepReflects(c: real, s: Step, s2: Step) {
    match (s, s2)
    case (ManageStep(a), ManageStep(b)) => CycleReflects(c, a, b)
    case (CommandStep(a), CommandStep(b)) =>
      b == a.(outcome := MirrorOutcome(c, a.outcome), quote := MirrorQuote(c, a.quote))
    case _ => false
  }

  predicate StepsReflect(c: real, s: seq<Step>, s2: seq<Step>) {
    |s| == |s2| && forall i :: 0 <= i < |s| ==> StepReflects(c, s[i], s2[i])
  }

  /** Profit and loss is the same on both sides. */
  lemma RealizedMirror(c: real, p: PositionState, o: CloseOutcome, q: Quote)
    ensures o.Filled? ==> RealizedBy(MirrorPosition(c, p), MirrorOutcome(c, o)) == RealizedBy(p, o)
    ensures FlatRealized(MirrorPosition(c, p), MirrorQuote(c, q)) == FlatRealized(p, q)
  {
    var m := MirrorPosition(c, p);
    if o.Filled? && o.realized.None? {
      FlipProduct(o.price - p.plan.entry, o.qty, Direction(p.plan.side));
      assert MirrorOutcome(c, o).price - m.plan.entry == -(o.price - p.plan.entry);
    }
    FlipProduct(FlatExitPrice(p, q) - p.plan.entry, p.book.qty, Direction(p.plan.side));
    assert FlatExitPrice(m, MirrorQuote(c, q)) - m.plan.entry
        == -(FlatExitPrice(p, q) - p.plan.entry);
  }

  lemma FlipProduct(a: real, q: real, d: real)
    ensures (-a) * q * (-d) == a * q * d
  {
  }

  lemma CloseMirror(c: real, p: PositionState, o: CloseOutcome, reason: ExitReason, full: bool,
                    q: Quote)
    ensures ApplyClose(MirrorPosition(c, p), MirrorOutcome(c, o), reason, full, MirrorQuote(c, q))
            == MirrorPosition(c, ApplyClose(p, o, reason, full, q))
  {
    hide RealizedBy, FlatRealized;
    RealizedMirror(c, p, o, q);
  }

  lemma ActivateMirror(c: real, cfg: Config, l: Life, t: Tick, t2: Tick)
    requires Symmetric(cfg) && TickReflects(c, t, t2) && InsideLife(c, l) && InsideTick(c, t)
    ensures var (l1, actions) := ActivateRunner(cfg, l, t);
            ActivateRunner(cfg, MirrorLife(c, l), t2)
            == (MirrorLife(c, l1), MirrorActions(c, actions))
  {
    hide EnterRunner, RatchetStop, RMultiple, UpdateExtremes, MirrorActions;
    var p := UpdateExtremes(l.pos, t.price, t.candle);
    ExtremesMirror(c, l.pos, t, t2);
    ExtremesInside(c, l.pos, t);
    RMultipleMirror(c, p, t.price);
    var maxR := Max(l.trk.maxR, RMultiple(p, t.price));
    EnterMirror(c, cfg, Life(p, l.trk), t, t2, maxR);
    var (l1, why) := EnterRunner(cfg, Life(p, l.trk), t, maxR);
    var p1 := l1.pos;
    RatchetStopMirror(c, cfg, p1, t, t2, maxR);
    var moved := RatchetStop(cfg, p1, t, maxR).1.GetOr(0.0);
    var a := Event(RunnerModeActivatedEvent, Some(why));
    var b := Event(RunnerTrailingUpdatedEvent, Some(RunnerActivated));
    MirrorShort(c, a, a);
    MirrorShort(c, b, TrailUpdate(moved));
    MirrorConcat(c, [a], [b, TrailUpdate(moved)]);
    assert [a] + [b, TrailUpdate(moved)] == [a, b, TrailUpdate(moved)];
    assert [a] + [b, TrailUpdate(c - moved)] == [a, b, TrailUpdate(c - moved)];
  }

  lemma EnterMirror(c: real, cfg: Config, l: Life, t: Tick, t2: Tick, maxR: real)
    requires Symmetric(cfg) && TickReflects(c, t, t2)
    ensures var (l1, why) := EnterRunner(cfg, l, t, maxR);
            && EnterRunner(cfg, MirrorLife(c, l), t2, maxR) == (MirrorLife(c, l1), why)
            && MirrorWhy(why) == why
            && l1.pos == l.pos.(runner := l1.pos.runner)
            && l1.pos.runner.lastStop == l.pos.runner.lastStop
  {
    TrendStrengthMirror(c, cfg, l, t, t2, maxR);
  }

  lemma ExtremesInside(c: real, p: PositionState, t: Tick)
    requires InsideLife(c, Life(p, FRESH)) && InsideTick(c, t)
    ensures InsideLife(c, Life(UpdateExtremes(p, t.price, t.candle), FRESH))
  {
  }

  lemma ApplyMirror(c: real, cfg: Config, l: Life, a: Action, s: Cycle, s2: Cycle)
    requires Symmetric(cfg) && CycleReflects(c, s, s2) && InsideTick(c, s.tick)
    requires a.PartialTp? ==> InsideLife(c, l)
    ensures var (l1, extra) := ApplyAction(cfg, l, a, s);
            ApplyAction(cfg, MirrorLife(c, l), MirrorAction(c, a), s2)
            == (MirrorLife(c, l1), MirrorActions(c, extra))
  {
    hide ApplyClose, ActivateRunner, MirrorActions;
    MirrorShort(c, a, a);
    match a
    case Exit(_, reason) => CloseMirror(c, l.pos, s.outcome, reason, true, s.quote);
    case Reduce(_, reason, _) => CloseMirror(c, l.pos, s.outcome, reason, false, s.quote);
    case PartialTp(_) =>
      CloseMirror(c, l.pos, s.outcome, PartialTakeProfit, false, s.quote);
      ApplyCloseFrame(l.pos, s.outcome, PartialTakeProfit, false, s.quote);
      var l1 := l.(pos := ApplyClose(l.pos, s.outcome, PartialTakeProfit, false, s.quote));
      ActivateMirror(c, cfg, l1, s.tick, s2.tick);
    case TrailUpdate(_) =>
    case Event(_, _) =>
    case FundingReduce(_) =>
  }

  // ---- prices stay inside along a run ----

  /** What a run needs to keep every price inside: a stop in place and trailing
      distances that are not negative. */
  predicate MirrorInv(c: real, l: Life) {
    && InsideLife(c, l) && l.pos.trail.stop.Some?
    && InsideOption(c, l.pos.trail.stop) && InsideOption(c, l.pos.runner.lastStop)
    && (l.pos.runner.mult.Some? ==> l.pos.runner.mult.value >= 0.0)
  }

  predicate Distances(cfg: Config) {
    && cfg.trailingMult >= 0.0 && cfg.extendedMult >= 0.0
    && cfg.runner.weakMult >= 0.0 && cfg.runner.strongMult >= 0.0
    && cfg.runner.veryStrongMult >= 0.0
  }

  lemma TrailStopSide(c: real, cfg: Config, p: PositionState, atr: real, maxR: real)
    requires MirrorInv(c, Life(p, FRESH)) && Distances(cfg) && atr >= 0.0
    ensures var trail := TrailStop(cfg, p, atr, maxR);
            if p.plan.side == Long then trail < c else trail > 0.0
  {
    var mult := if p.runner.active && p.runner.mult.Some? then p.runner.mult.value
                else if maxR >= cfg.extendedAfterR then cfg.extendedMult
                else cfg.trailingMult;
    assert atr * mult >= 0.0;
  }

  lemma RatchetInside(c: real, cfg: Config, p: PositionState, t: Tick, maxR: real)
    requires MirrorInv(c, Life(p, FRESH)) && Distances(cfg) && t.atr >= 0.0
    ensures MirrorInv(c, Life(RatchetStop(cfg, p, t, maxR).0, FRESH))
  {
    hide TrailStop;
    TrailStopSide(c, cfg, p, t.atr, maxR);
  }

  lemma GeneralInside(c: real, cfg: Config, l: Life, t: Tick, r: real, maxR: real)
    requires MirrorInv(c, l) && Distances(cfg) && t.atr >= 0.0
    ensures MirrorInv(c, GeneralStep(cfg, l, t, r, maxR).0)
  {
    hide ScenarioStep, StagnationStep, RatchetStop, IsScenarioInvalid, TrailStop;
    var l1 := if maxR >= cfg.trailingStartR then StartTrailing(l) else l;
    ScenarioFrame(cfg, l1, t, r);
    var l2 := ScenarioStep(cfg, l1, t, r).0;
    StagnationFrame(cfg, l2, maxR);
    RatchetInside(c, cfg, StagnationStep(cfg, l2, maxR).0.pos, t, maxR);
    RatchetInside(c, cfg, l1.pos, t, maxR);
  }

  lemma EvaluateInside(c: real, cfg: Config, l: Life, t: Tick)
    requires MirrorInv(c, l) && InsideTick(c, t) && Distances(cfg) && t.atr >= 0.0
    ensures MirrorInv(c, Evaluate(cfg, l, t).0)
  {
    hide ScoutStep, GeneralStep, Observe, TrendStrength, WeakDowngradePending;
    if Managed(l.pos) {
      var l0 := Observe(l, t);
      ObserveInside(c, l, t);
      ObserveKeepsTrail(l, t);
      ScoutStepFrame(cfg, l0, t, l0.trk.maxR);
      var l1 := ScoutStep(cfg, l0, t, l0.trk.maxR).0;
      var l2 := RunnerState(cfg, l1, t, l0.trk.maxR).0;
      GeneralInside(c, cfg, l2, t, RMultiple(l0.pos, t.price), l0.trk.maxR);
    }
  }

  lemma ObserveKeepsTrail(l: Life, t: Tick)
    ensures var p := Observe(l, t).pos;
            p == l.pos.(path := p.path)
  {
  }

  lemma ActivateInside(c: real, cfg: Config, l: Life, t: Tick)
    requires MirrorInv(c, l) && InsideTick(c, t) && Distances(cfg) && t.atr >= 0.0
    ensures MirrorInv(c, ActivateRunner(cfg, l, t).0)
  {
    hide TrendStrength, RatchetStop;
    ExtremesInside(c, l.pos, t);
    var p := UpdateExtremes(l.pos, t.price, t.candle);
    var maxR := Max(l.trk.maxR, RMultiple(p, t.price));
    var strength := TrendStrength(cfg, Life(p, l.trk), t, maxR).1;
    RatchetInside(c, cfg, p.(runner := p.runner.(active := true, strength := Some(strength),
                                                 mult := Some(Multiplier(cfg, strength)))),
                  t, maxR);
  }

  /** The stop an evaluation asks to set lies inside too. */
  lemma LastStopInside(c: real, cfg: Config, l: Life, t: Tick)
    requires MirrorInv(c, l) && InsideTick(c, t) && Distances(cfg) && t.atr >= 0.0
    ensures var actions := Evaluate(cfg, l, t).1;
            actions != [] && actions[|actions| - 1].TrailUpdate?
            ==> Inside(c, actions[|actions| - 1].newStop)
  {
    hide ScoutStep, GeneralStep, Observe, TrendStrength, WeakDowngradePending;
    if Managed(l.pos) {
      var l0 := Observe(l, t);
      ObserveInside(c, l, t);
      ObserveKeepsTrail(l, t);
      ScoutStepFrame(cfg, l0, t, l0.trk.maxR);
      var (l1, prefix, general) := ScoutStep(cfg, l0, t, l0.trk.maxR);
      var (l2, events) := RunnerState(cfg, l1, t, l0.trk.maxR);
      assert AllEvents(events);
      GeneralStopInside(c, cfg, l2, t, RMultiple(l0.pos, t.price), l0.trk.maxR);
    }
  }

  lemma GeneralStopInside(c: real, cfg: Config, l: Life, t: Tick, r: real, maxR: real)
    requires MirrorInv(c, l) && Distances(cfg) && t.atr >= 0.0
    ensures var actions := GeneralStep(cfg, l, t, r, maxR).1;
            actions != [] && actions[|actions| - 1].TrailUpdate?
            ==> Inside(c, actions[|actions| - 1].newStop)
  {
    hide ScenarioStep, StagnationStep, RatchetStop, IsScenarioInvalid, TrailStop;
    var l1 := if maxR >= cfg.trailingStartR then StartTrailing(l) else l;
    ScenarioFrame(cfg, l1, t, r);
    var l2 := ScenarioStep(cfg, l1, t, r).0;
    ScenarioNoStop(cfg, l1, t, r);
    StagnationFrame(cfg, l2, maxR);
    StagnationStop(c, cfg, l2, maxR);
    var l3 := StagnationStep(cfg, l2, maxR).0;
    RatchetInside(c, cfg, l3.pos, t, maxR);
    RatchetMoved(cfg, l3.pos, t, maxR);
    RatchetInside(c, cfg, l1.pos, t, maxR);
    RatchetMoved(cfg, l1.pos, t, maxR);
  }

  lemma RatchetMoved(cfg: Config, p: PositionState, t: Tick, maxR: real)
    ensures var (p1, moved) := RatchetStop(cfg, p, t, maxR);
            moved.Some? ==> p1.trail.stop == moved
  {
  }

  lemma ScenarioNoStop(cfg: Config, l: Life, t: Tick, r: real)
    ensures var a := ScenarioStep(cfg, l, t, r).1; a.Some? ==> !a.value.TrailUpdate?
  {
  }

  lemma StagnationStop(c: real, cfg: Config, l: Life, maxR: real)
    requires MirrorInv(c, l)
    ensures var a := StagnationStep(cfg, l, maxR).1;
            a.Some? && a.value.TrailUpdate? ==> Inside(c, a.value.newStop)
  {
  }
}
