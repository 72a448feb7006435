/** The management rules of PositionManager.evaluate as functions on values:
    each takes the position and its tracking and returns them updated, together
    with the actions emitted. The class PositionManager is proved against them. */
module Management {
  import opened Common
  import opened Market
  import opened PositionModel

  // ---- bars, extremes, R ----

  function AdvanceBarCounter(p: PositionState, candle: Option<Candle>): PositionState {
    if candle.None? || candle.value.openTime <= 0 then
      p.(path := p.path.(bars := p.path.bars + 1))
    else if p.path.lastEvaluatedOpenTime == Some(candle.value.openTime) then p
    else p.(path := p.path.(lastEvaluatedOpenTime := Some(candle.value.openTime),
                             bars := p.path.bars + 1))
  }

  function UpdateExtremes(p: PositionState, price: real, candle: Option<Candle>): PositionState {
    var high := if candle.Some? then candle.value.high else price;
    var low := if candle.Some? then candle.value.low else price;
    p.(path := p.path.(
      highest := Some(if p.path.highest.None? then high else Max(p.path.highest.value, high)),
      lowest := Some(if p.path.lowest.None? then low else Min(p.path.lowest.value, low))))
  }

  function RMultiple(p: PositionState, price: real): real {
    if p.plan.risk.None? || p.plan.risk.value <= 0.0 then 0.0
    else if p.plan.side == Long then (price - p.plan.entry) / p.plan.risk.value
    else (p.plan.entry - price) / p.plan.risk.value
  }

  /** The part of a quantity that a configured fraction closes. */
  function Portion(qty: real, fraction: real): real {
    qty * fraction
  }

  // ---- shared candle and trend tests ----

  /** A wide, heavy candle closing at the extreme against the position. */
  function StrongCounterCandle(side: Side, k: Candle, volumeRatio: Option<real>): bool {
    var m := MetricsOf(k);
    if volumeRatio.None? || !m.valid || m.bodyRatio < 0.55 || volumeRatio.value < 1.5 then false
    else if side == Long then k.close < k.open && m.closePosition <= 0.25
    else k.close > k.open && m.closePosition >= 0.75
  }

  function FiveMinuteBreak(side: Side, snap5: Option<Snapshot>): bool {
    if snap5.None? || snap5.value.ema20.None? then false
    else if side == Long then snap5.value.close < snap5.value.ema20.value
    else snap5.value.close > snap5.value.ema20.value
  }

  function OpenTimeOf(k: Candle): Option<int> {
    if k.openTime > 0 then Some(k.openTime) else None
  }

  // ---- runner mode ----

  function TrendHolds(cfg: Config, side: Side, snap1: Option<Snapshot>,
                      snap5: Option<Snapshot>): bool {
    var c := cfg.runner;
    if c.require5m && (snap5.None? || snap5.value.ema20.None?) then false
    else if c.require5m && side == Long && snap5.value.close <= snap5.value.ema20.value then false
    else if c.require5m && side == Short && snap5.value.close >= snap5.value.ema20.value then false
    else if c.require1m && (snap1.None? || snap1.value.ema20.None?) then false
    else if c.require1m && side == Long && snap1.value.close <= snap1.value.ema20.value then false
    else if c.require1m && side == Short && snap1.value.close >= snap1.value.ema20.value then false
    else if snap1.None? || snap1.value.rsi14.None? then false
    else if side == Long then snap1.value.rsi14.value >= c.longMinRsi
    else snap1.value.rsi14.value <= c.shortMaxRsi
  }

  function WeakeningReason(cfg: Config, l: Life, t: Tick): (r: (Tracking, Option<Why>)) {
    if FiveMinuteBreak(l.pos.plan.side, t.snap5) then (l.trk, Some(FiveMinEma20Break))
    else
      var (trk, broke) := CountEmaBreak(cfg, l, t);
      if broke then (trk, Some(OneMinEma20Break))
      else if cfg.runner.tightenOnOpposite && t.candle.Some?
              && StrongCounterCandle(l.pos.plan.side, t.candle.value, t.volumeRatio) then
        (trk, Some(StrongOppositeCandle))
      else (trk, None)
  }

  function CountEmaBreak(cfg: Config, l: Life, t: Tick): (Tracking, bool) {
    if t.candle.None? || t.snap1.None? || t.snap1.value.ema20.None? then (l.trk, false)
    else if ClosedAgainst(l.pos.plan.side, t.candle.value.close, t.snap1.value.ema20.value) then
      var count := l.trk.runner.emaBreaks + 1;
      (l.trk.(runner := l.trk.runner.(emaBreaks := count)), count >= cfg.runner.tightenEmaBars)
    else (l.trk.(runner := l.trk.runner.(emaBreaks := 0)), false)
  }

  function ClosedAgainst(side: Side, close: real, level: real): bool {
    if side == Long then close < level else close > level
  }

  function TrendStrength(cfg: Config, l: Life, t: Tick, maxR: real)
    : (r: (Tracking, Strength, Why))
  {
    var (trk, weak) := WeakeningReason(cfg, l, t);
    if weak.Some? then (trk, Weak, weak.value)
    else if !(maxR >= cfg.runner.strongMinR && TrendHolds(cfg, l.pos.plan.side, t.snap1, t.snap5)) then
      (trk, Weak, TrendHoldWeak)
    else if maxR >= cfg.runner.veryStrongMinR && VeryStrongRsi(cfg, l.pos.plan.side, t.snap1) then
      (trk, VeryStrong, VeryStrongTrendHold)
    else (trk, Strong, StrongTrendHold)
  }

  function VeryStrongRsi(cfg: Config, side: Side, snap1: Option<Snapshot>): bool {
    if snap1.None? || snap1.value.rsi14.None? then false
    else if side == Long then snap1.value.rsi14.value >= cfg.runner.longMinRsi + 5.0
    else snap1.value.rsi14.value <= cfg.runner.shortMaxRsi - 5.0
  }

  function Multiplier(cfg: Config, s: Strength): real {
    match s
    case VeryStrong => cfg.runner.veryStrongMult
    case Strong => cfg.runner.strongMult
    case Weak => cfg.runner.weakMult
  }

  function ClearWeakSignal(trk: Tracking): Tracking {
    trk.(runner := trk.runner.(weakCount := 0, weakOpenTime := None))
  }

  function NoteWeakSignal(trk: Tracking, candle: Option<Candle>): Tracking {
    var w := trk.runner;
    if candle.Some? && candle.value.openTime > 0 then
      if w.weakOpenTime == Some(candle.value.openTime) then trk
      else trk.(runner := w.(weakOpenTime := Some(candle.value.openTime),
                             weakCount := w.weakCount + 1))
    else trk.(runner := w.(weakCount := w.weakCount + 1))
  }

  /** Whether a downgrade to WEAK must wait for more distinct weak bars. */
  function WeakDowngradePending(cfg: Config, trk: Tracking, prev: Option<Strength>,
                                strength: Strength, why: Why, candle: Option<Candle>)
    : (r: (Tracking, bool))
  {
    if !(prev == Some(Strong) || prev == Some(VeryStrong)) || strength != Weak then (trk, false)
    else if why == FiveMinEma20Break then (ClearWeakSignal(trk), false)
    else
      var required := MaxInt(1, if why == StrongOppositeCandle then cfg.runner.tightenOppositeBars
                                else cfg.runner.tightenEmaBars);
      if required <= 1 then (trk, false)
      else
        var trk1 := NoteWeakSignal(trk, candle);
        if trk1.runner.weakCount < required then (trk1, true) else (ClearWeakSignal(trk1), false)
  }

  function RunnerState(cfg: Config, l: Life, t: Tick, maxR: real): (r: (Life, seq<Action>)) {
    if !l.pos.runner.active then (l, [])
    else
      var (trk1, strength, why) := TrendStrength(cfg, l, t, maxR);
      var prev := l.pos.runner.strength;
      var (trk2, pending) := WeakDowngradePending(cfg, trk1, prev, strength, why, t.candle);
      if pending then (Life(l.pos, trk2), [])
      else
        var trk3 := if strength != Weak then ClearWeakSignal(trk2) else trk2;
        var p := l.pos.(runner := l.pos.runner.(strength := Some(strength),
                                                mult := Some(Multiplier(cfg, strength))));
        (Life(p, trk3),
         if prev.None? || prev == Some(strength) then []
         else [Event(RunnerTrendStrengthChangedEvent, Some(why))])
  }

  // ---- trailing stop ----

  function TrailStop(cfg: Config, p: PositionState, atr: real, maxR: real): real {
    var mult := if p.runner.active && p.runner.mult.Some? then p.runner.mult.value
                else if maxR >= cfg.extendedAfterR then cfg.extendedMult
                else cfg.trailingMult;
    if p.plan.side == Long then OrElse(p.path.highest, p.plan.entry) - atr * mult
    else OrElse(p.path.lowest, p.plan.entry) + atr * mult
  }

  function StopBreached(side: Side, price: real, stop: real): bool {
    if side == Long then price <= stop else price >= stop
  }

  function EffectiveStop(p: PositionState, trail: real): real {
    if p.trail.stop.None? then trail
    else if p.plan.side == Long then Max(p.trail.stop.value, trail)
    else Min(p.trail.stop.value, trail)
  }

  function Ratchet(p: PositionState, trail: real): Option<real> {
    if p.trail.stop.None? then Some(trail)
    else if p.plan.side == Long then (if trail > p.trail.stop.value then Some(trail) else None)
    else if trail < p.trail.stop.value then Some(trail)
    else None
  }

  function RunnerUpdateAllowed(cfg: Config, p: PositionState, newStop: real, atr: real,
                               now: real): bool {
    if !p.runner.active then true
    else if p.runner.lastUpdateAt.Some?
            && now - p.runner.lastUpdateAt.value < cfg.runner.minUpdateInterval then false
    else
      var last := if p.runner.lastStop.Some? && p.runner.lastStop.value != 0.0
                  then p.runner.lastStop else p.trail.stop;
      if last.None? || atr <= 0.0 then true
      else
        var improvement := if p.plan.side == Long then newStop - last.value else last.value - newStop;
        improvement >= atr * cfg.runner.minImprovementAtr
  }

  /** The ratchet step shared by evaluate and runner activation: the position
      with its stop moved, and the new stop when it did move. */
  function RatchetStop(cfg: Config, p: PositionState, t: Tick, maxR: real)
    : (r: (PositionState, Option<real>))
  {
    var newStop := Ratchet(p, TrailStop(cfg, p, t.atr, maxR));
    if newStop.None? || !RunnerUpdateAllowed(cfg, p, newStop.value, t.atr, t.now) then (p, None)
    else
      var moved := p.(trail := p.trail.(stop := newStop));
      (if p.runner.active then 
         moved.(runner := p.runner.(lastUpdateAt := Some(t.now), lastStop := newStop))
       else moved,
       newStop)
  }

  function TightenStop(p: PositionState): real {
    (OrElse(p.trail.stop, p.plan.entry) + p.plan.entry) / 2.0
  }

  function ExitPosition(l: Life, reason: ExitReason): (r: (Life, Action)) {
    (l.(pos := l.pos.(status := Closing, exitReason := Some(reason))), Exit(l.pos.book.qty, reason))
  }

  // ---- scenario invalidation ----

  function BreakLevelInvalid(p: PositionState, trk: Tracking, k: Candle): (r: (Tracking, bool)) {
    if p.plan.breakoutLevel.None? then (trk, false)
    else if ClosedAgainst(p.plan.side, k.close, p.plan.breakoutLevel.value) then
      if OpenTimeOf(k).Some? && OpenTimeOf(k) == trk.scenario.breakFails.lastOpen then
        (trk, trk.scenario.breakFails.count >= 2)
      else
        var count := trk.scenario.breakFails.count + 1;
        (trk.(scenario := trk.scenario.(breakFails := Streak(OpenTimeOf(k), count))), count >= 2)
    else (trk.(scenario := trk.scenario.(breakFails := NO_STREAK)), false)
  }

  function IsScenarioInvalid(p: PositionState, trk: Tracking, t: Tick, counterCandle: bool)
    : (r: (Tracking, bool))
  {
    if FiveMinuteBreak(p.plan.side, t.snap5) then (trk, true)
    else if t.candle.None? then (trk, false)
    else
      var (trk1, broke) := BreakLevelInvalid(p, trk, t.candle.value);
      (trk1, broke || (counterCandle
                       && StrongCounterCandle(p.plan.side, t.candle.value, t.volumeRatio)))
  }

  function HardScenarioInvalid(side: Side, t: Tick): bool {
    || FiveMinuteBreak(side, t.snap5)
    || (t.candle.Some? && StrongCounterCandle(side, t.candle.value, t.volumeRatio))
  }

  function MildRetestInvalid(p: PositionState, t: Tick, r: real): bool {
    p.plan.entryMode == Some(RetestConfirm) && r > -0.5 && !HardScenarioInvalid(p.plan.side, t)
  }

  function GraceBars(cfg: Config, p: PositionState): int {
    if p.plan.entryMode != Some(RetestConfirm) then 0 else MaxInt(0, cfg.stagnation.retestGrace)
  }

  function BreakLevelConfirmed(p: PositionState, trk: Tracking, candle: Option<Candle>): bool {
    p.plan.breakoutLevel.Some? && candle.Some?
    && ClosedAgainst(p.plan.side, candle.value.close, p.plan.breakoutLevel.value)
    && trk.scenario.breakFails.count >= 2
  }

  function ScoutInvalidConfirmed(p: PositionState, trk: Tracking, candle: Option<Candle>)
    : (r: (Tracking, bool))
  {
    if p.plan.entryMode != Some(PreBreakoutScout) then (trk, true)
    else if BreakLevelConfirmed(p, trk, candle) then
      (trk.(scenario := trk.scenario.(scoutInvalid := NO_STREAK)), true)
    else
      var openTime := if candle.Some? then OpenTimeOf(candle.value) else None;
      if openTime.Some? && openTime == trk.scenario.scoutInvalid.lastOpen then
        (trk, trk.scenario.scoutInvalid.count >= 2)
      else
        var count := trk.scenario.scoutInvalid.count + 1;
        (trk.(scenario := trk.scenario.(scoutInvalid := Streak(openTime, count))), count >= 2)
  }

  function Delayed(why: Why): Action {
    Event(DelayedByEntryModeEvent, Some(why))
  }

  function SetRecovery(l: Life, bars: Option<int>): Life {
    l.(trk := l.trk.(scenario := l.trk.scenario.(recovery := bars)))
  }

  function ScenarioStep(cfg: Config, l: Life, t: Tick, r: real): (res: (Life, Option<Action>)) {
    if l.trk.scenario.recovery.Some? then
      var left := l.trk.scenario.recovery.value - 1;
      if r >= 0.5 then (SetRecovery(l, None), None)
      else if left <= 0 then
        var (l1, a) := ExitPosition(SetRecovery(l, None), ScenarioInvalid);
        (l1, Some(a))
      else (SetRecovery(l, Some(left)), None)
    else
      var (trk, invalid) := IsScenarioInvalid(l.pos, l.trk, t, true);
      if invalid then ScenarioInvalidStep(cfg, Life(l.pos, trk), t, r)
      else if l.pos.plan.entryMode == Some(PreBreakoutScout) then
        (Life(l.pos, trk.(scenario := trk.scenario.(scoutInvalid := NO_STREAK))), None)
      else (Life(l.pos, trk), None)
  }

  function ScenarioInvalidStep(cfg: Config, l: Life, t: Tick, r: real)
    : (res: (Life, Option<Action>))
  {
    var p := l.pos;
    if l.trk.scenario.reduced then
      (if r < 0.5 then SetRecovery(l, Some(3)) else l, None)
    else if GraceBars(cfg, p) > 0 && p.path.bars <= GraceBars(cfg, p) then
      (l, Some(Delayed(RetestScenarioInvalidGrace)))
    else if MildRetestInvalid(p, t, r) then
      (l, if p.path.bars < cfg.stagnation.retestTightenAfter
          then Some(Delayed(RetestBreakLevelInvalidDelayed)) else None)
    else
      var (trk, confirmed) := ScoutInvalidConfirmed(p, l.trk, t.candle);
      if !confirmed then (Life(p, trk), Some(Delayed(ScoutScenarioInvalidConfirming)))
      else (Life(p, trk.(scenario := trk.scenario.(recovery := Some(3), reduced := true))),
            Some(Reduce(Portion(p.book.qty, 0.5), ScenarioInvalid, ScenarioInvalidReduceEvent)))
  }

  // ---- stagnation ----

  function DelayOnce(l: Life, d: DelayReason): (r: (Life, Option<Action>)) {
    if d in l.trk.delaysEmitted then (l, None)
    else (l.(trk := l.trk.(delaysEmitted := l.trk.delaysEmitted + {d})),
          Some(Delayed(DelayWhy(d))))
  }

  function StagnationExit(l: Life): (Life, Option<Action>) {
    var (l1, a) := ExitPosition(l, Stagnation);
    (l1, Some(a))
  }

  function StagnationStep(cfg: Config, l: Life, maxR: real): (r: (Life, Option<Action>)) {
    var se := cfg.stagnation;
    var bars := l.pos.path.bars;
    if !se.enabled then (l, None)
    else match l.pos.plan.entryMode
      case None => (l, None)
      case Some(PreBreakoutScout) =>
        if bars >= se.scoutMaxBars && maxR < se.scoutMinProgress then StagnationExit(l)
        else if bars >= 8 && maxR < 0.5 then DelayOnce(l, ScoutStagnationDelayed)
        else (l, None)
      case Some(BreakoutConfirm) =>
        if bars >= se.breakoutMaxBars && maxR < 1.0 then StagnationExit(l)
        else if bars >= se.breakoutReduceAfter && maxR < 0.5 && !l.trk.stagReduced then
          (l.(trk := l.trk.(stagReduced := true)),
           Some(Reduce(Portion(l.pos.book.qty, se.breakoutReduceFraction), Stagnation,
                       StagnationReduceEvent)))
        else if bars >= 10 && maxR < 1.0 then DelayOnce(l, BreakoutExitDelayed)
        else if bars >= 5 && maxR < 0.5 && !l.trk.stagReduced then
          DelayOnce(l, BreakoutReduceDelayed)
        else (l, None)
      case Some(RetestConfirm) =>
        if bars >= se.retestMaxBars && maxR < 1.0 then StagnationExit(l)
        else if bars >= se.retestTightenAfter && maxR < 0.5 then
          (l, Some(TrailUpdate(TightenStop(l.pos))))
        else if bars >= 12 && maxR < 1.0 then DelayOnce(l, RetestExitDelayed)
        else if bars >= 6 && maxR < 0.5 then DelayOnce(l, RetestTightenDelayed)
        else (l, None)
  }

  // ---- pre-breakout scout ----

  function ScoutIsConfirmed(cfg: Config, p: PositionState, t: Tick, k: Candle): bool {
    var c := cfg.scout;
    var m := MetricsOf(k);
    var boundary := t.atr * c.boundaryAtr;
    if t.volumeRatio.None? || t.volumeRatio.value < c.confirmVolume || !m.valid then false
    else if p.plan.side == Long && p.plan.boxHigh.Some? then
      k.close > p.plan.boxHigh.value + boundary && m.closePosition >= 0.65
    else if p.plan.side == Short && p.plan.boxLow.Some? then
      k.close < p.plan.boxLow.value - boundary && m.closePosition <= 0.35
    else false
  }

  function ScoutStrongOpposite(cfg: Config, side: Side, k: Candle, volumeRatio: Option<real>)
    : Option<Why>
  {
    var m := MetricsOf(k);
    if volumeRatio.None? || !m.valid || m.bodyRatio < cfg.scout.strongBody
       || volumeRatio.value < cfg.scout.strongVolume then None
    else if side == Long && k.close < k.open && m.closePosition <= 0.25 then
      Some(StrongBearishCandle)
    else if side == Short && k.close > k.open && m.closePosition >= 0.75 then
      Some(StrongBullishCandle)
    else None
  }

  function OppositeMoveAtr(side: Side, k: Candle, atr: real): real
    requires atr > 0.0
  {
    if side == Long && k.close < k.open then (k.open - k.close) / atr
    else if side == Short && k.close > k.open then (k.close - k.open) / atr
    else 0.0
  }

  function ScoutCatastrophic(cfg: Config, side: Side, k: Candle, volumeRatio: Option<real>,
                             atr: real): Option<Why>
  {
    var m := MetricsOf(k);
    if volumeRatio.None? || atr <= 0.0 || !m.valid then None
    else if m.bodyRatio < cfg.scout.catastrophicBody
            || volumeRatio.value < cfg.scout.catastrophicVolume
            || OppositeMoveAtr(side, k, atr) < cfg.scout.catastrophicMoveAtr then None
    else if side == Long && k.close < k.open && m.closePosition <= 0.20 then
      Some(CatastrophicBearishCandle)
    else if side == Short && k.close > k.open && m.closePosition >= 0.80 then
      Some(CatastrophicBullishCandle)
    else None
  }

  function ScoutRecovered(p: PositionState, k: Candle, snap1: Option<Snapshot>): bool {
    var m := MetricsOf(k);
    var ema := if snap1.Some? then snap1.value.ema20 else None;
    if !m.valid then false
    else if p.plan.side == Long then
      k.close >= p.plan.entry || (ema.Some? && k.close >= ema.value) || m.closePosition >= 0.50
    else
      k.close <= p.plan.entry || (ema.Some? && k.close <= ema.value) || m.closePosition <= 0.50
  }

  function BarsSinceScout(p: PositionState): int {
    if p.plan.scoutEntryBar.None? then p.path.bars else MaxInt(0, p.path.bars - p.plan.scoutEntryBar.value)
  }

  function WarningBars(p: PositionState): int {
    if p.scout.warningBar.None? then 0 else MaxInt(0, BarsSinceScout(p) - p.scout.warningBar.value)
  }

  function ClearWarning(p: PositionState): PositionState {
    p.(scout := p.scout.(warningBar := None, warningReason := None))
  }

  function SetScout(p: PositionState, state: ScoutState): PositionState {
    p.(scout := p.scout.(state := state))
  }

  function EmaReclaim(cfg: Config, l: Life, k: Candle, snap1: Option<Snapshot>)
    : (r: (Tracking, Option<Why>))
  {
    if snap1.None? || snap1.value.ema20.None? then (l.trk, None)
    else if ClosedAgainst(l.pos.plan.side, k.close, snap1.value.ema20.value) then
      var count := l.trk.emaReclaims + 1;
      (l.trk.(emaReclaims := count),
       if count >= cfg.scout.emaReclaimBars then Some(Ema20ReclaimedAgainstScout) else None)
    else (l.trk.(emaReclaims := 0), None)
  }

  function ScoutWeakness(cfg: Config, l: Life, t: Tick, k: Candle): (r: (Tracking, Option<Why>)) {
    var p := l.pos;
    if cfg.scout.invalidateOnMid && p.plan.boxMid.Some? && p.plan.side == Long
       && k.close < p.plan.boxMid.value then (l.trk, Some(BoxMidReclaimedAgainstLong))
    else if cfg.scout.invalidateOnMid && p.plan.boxMid.Some? && p.plan.side == Short
            && k.close > p.plan.boxMid.value then (l.trk, Some(BoxMidReclaimedAgainstShort))
    else
      var (trk, ema) := EmaReclaim(cfg, l, k, t.snap1);
      (trk, if ema.Some? then ema
            else if RsiWeakness(cfg, p.plan.side, t.snap1).Some? then RsiWeakness(cfg, p.plan.side, t.snap1)
            else ScoutStrongOpposite(cfg, p.plan.side, k, t.volumeRatio))
  }

  function WeaknessAfterGrace(cfg: Config, l: Life, t: Tick, k: Candle)
    : (r: (Tracking, Option<Why>))
  {
    if BarsSinceScout(l.pos) < cfg.scout.graceBars then (l.trk, None)
    else ScoutWeakness(cfg, l, t, k)
  }

  function RsiWeakness(cfg: Config, side: Side, snap1: Option<Snapshot>): Option<Why> {
    if snap1.None? || snap1.value.rsi14.None? then None
    else if side == Long && snap1.value.rsi14.value <= cfg.scout.longInvalidRsi then
      Some(RsiWeakForLongScout)
    else if side == Short && snap1.value.rsi14.value >= cfg.scout.shortInvalidRsi then
      Some(RsiWeakForShortScout)
    else None
  }

  function ScoutReduce(cfg: Config, l: Life, reason: ExitReason, event: EventType)
    : (r: (Life, Action))
  {
    var p := l.pos.(scout := Scout(ScoutPending, None, None, l.pos.scout.reductions + 1));
    (l.(pos := p), Reduce(Portion(l.pos.book.qty, cfg.scout.reduceFraction), reason, event))
  }

  /** Scout management: the actions, and whether general management also runs. */
  function ScoutStep(cfg: Config, l: Life, t: Tick, maxR: real): (r: (Life, seq<Action>, bool)) {
    var c := cfg.scout;
    var p := l.pos;
    if !c.enabled || p.plan.entryMode != Some(PreBreakoutScout) || p.scout.state == NoScout
       || p.scout.state == ActiveTrend then (l, [], true)
    else if t.candle.None? || t.atr <= 0.0 then (l, [], false)
    else if p.scout.state == ScoutConfirmed then
      if c.convertOnConfirmation then
        (l.(pos := SetScout(p, ActiveTrend)), [Event(ScoutActivatedEvent, None)], true)
      else (l, [], false)
    else if ScoutIsConfirmed(cfg, p, t, t.candle.value) then
      if c.convertOnConfirmation then
        (l.(pos := SetScout(ClearWarning(p), ActiveTrend)),
         [Event(ScoutConfirmedEvent, None), Event(ScoutActivatedEvent, None)], true)
      else
        (l.(pos := SetScout(ClearWarning(p), ScoutConfirmed)),
         [Event(ScoutConfirmedEvent, None)], false)
    else
      var (l1, actions) := ScoutWatch(cfg, l, t, t.candle.value, maxR);
      (l1, actions, false)
  }

  /** SCOUT_PENDING and SCOUT_WARNING on a bar that does not confirm the scout. */
  function ScoutWatch(cfg: Config, l: Life, t: Tick, k: Candle, maxR: real)
    : (r: (Life, seq<Action>))
  {
    var c := cfg.scout;
    var p := l.pos;
    if ScoutCatastrophic(cfg, p.plan.side, k, t.volumeRatio, t.atr).Some?
       && p.scout.reductions < c.maxReductions then
      var (l1, a) := ScoutReduce(cfg, l, ScoutCatastrophicReduce, ScoutCatastrophicReduceEvent);
      (l1, [a])
    else if p.scout.state == ScoutWarning then
      if ScoutRecovered(p, k, t.snap1) then
        (l.(pos := SetScout(ClearWarning(p), ScoutPending)),
         [Event(ScoutWarningRecoveredEvent, Some(p.scout.warningReason.GetOr(ScoutWarningRecovered)))])
      else if WarningBars(p) < c.warningConfirmBars || BarsSinceScout(p) < c.minHoldBars then
        (l, [])
      else if p.scout.reductions < c.maxReductions then
        var (l1, a) := ScoutReduce(cfg, l, ScoutDefensiveReduce, ScoutDefensiveReduceEvent);
        (l1, [a])
      else
        ScoutPendingStep(cfg, l.(pos := SetScout(ClearWarning(p), ScoutPending)), t, k, maxR)
    else ScoutPendingStep(cfg, l, t, k, maxR)
  }

  function ScoutPendingStep(cfg: Config, l: Life, t: Tick, k: Candle, maxR: real)
    : (r: (Life, seq<Action>))
  {
    var c := cfg.scout;
    var p := l.pos;
    var strong := ScoutStrongOpposite(cfg, p.plan.side, k, t.volumeRatio);
    if strong.Some? && p.scout.reductions < c.maxReductions then
      (l.(pos := p.(scout := p.scout.(state := ScoutWarning, warningBar := Some(BarsSinceScout(p)),
                                      warningReason := strong))),
       [Event(ScoutWarningStartedEvent, strong)])
    else
      var (trk, weakness) := WeaknessAfterGrace(cfg, l, t, k);
      var l1 := Life(p, trk);
      if weakness.Some? && p.scout.reductions < c.maxReductions then
        var (l2, a) := ScoutReduce(cfg, l1, ScoutDefensiveReduce, ScoutDefensiveReduceEvent);
        (l2, [a])
      else
        var (l2, stagnation) := StagnationStep(cfg, l1, maxR);
        (l2, if stagnation.None? then []
             else if stagnation.value.Event? then [stagnation.value]
             else [Event(ScoutInvalidatedEvent, Some(ExitWhy(Stagnation))), stagnation.value])
  }

  // ---- general management ----

  function StartTrailing(l: Life): Life {
    l.(pos := l.pos.(trail := l.pos.trail.(trailingActive := true)))
  }

  /** Take profit, trailing breach, invalidation, stagnation, ratchet, in that order. */
  function GeneralStep(cfg: Config, l: Life, t: Tick, r: real, maxR: real)
    : (res: (Life, seq<Action>))
  {
    if !l.pos.trail.partialTpDone && r >= cfg.partialR then
      (l.(pos := l.pos.(trail := l.pos.trail.(partialTpDone := true))),
       [PartialTp(Portion(l.pos.book.qty, cfg.partialFraction))])
    else
      var trailing := maxR >= cfg.trailingStartR;
      var l1 := if trailing then StartTrailing(l) else l;
      if trailing && StopBreached(l.pos.plan.side, t.price,
                                  EffectiveStop(l1.pos, TrailStop(cfg, l1.pos, t.atr, maxR))) then
        if l1.pos.runner.active then
          var (l2, a) := ExitPosition(l1, RunnerTrailingStop);
          (l2, [Event(RunnerTrailingStopEvent, Some(ExitWhy(RunnerTrailingStop))), a])
        else
          var (l2, a) := ExitPosition(l1, TrailingStop);
          (l2, [a])
      else if l1.pos.runner.active then RunnerGeneralStep(cfg, l1, t, maxR)
      else PlainGeneralStep(cfg, l1, t, r, maxR)
  }

  function RunnerGeneralStep(cfg: Config, l: Life, t: Tick, maxR: real)
    : (res: (Life, seq<Action>))
  {
    var (trk, invalid) := IsScenarioInvalid(l.pos, l.trk, t, false);
    var l1 := Life(l.pos, trk);
    if invalid then
      var (l2, a) := ExitPosition(l1, RunnerScenarioInvalid);
      (l2, [Event(RunnerScenarioInvalidEvent, Some(ExitWhy(RunnerScenarioInvalid))), a])
    else RatchetStep(cfg, l1, t, maxR)
  }

  function PlainGeneralStep(cfg: Config, l: Life, t: Tick, r: real, maxR: real)
    : (res: (Life, seq<Action>))
  {
    var (l1, scenario) := ScenarioStep(cfg, l, t, r);
    if scenario.Some? then (l1, [scenario.value])
    else
      var (l2, stagnation) := StagnationStep(cfg, l1, maxR);
      if stagnation.Some? then (l2, [stagnation.value])
      else RatchetStep(cfg, l2, t, maxR)
  }

  function RatchetStep(cfg: Config, l: Life, t: Tick, maxR: real): (res: (Life, seq<Action>)) {
    if !l.pos.trail.trailingActive then (l, [])
    else
      var (p, moved) := RatchetStop(cfg, l.pos, t, maxR);
      (l.(pos := p),
       if moved.None? then []
       else if p.runner.active then
         [Event(RunnerTrailingUpdatedEvent, None), TrailUpdate(moved.value)]
       else [TrailUpdate(moved.value)])
  }

  // ---- entry points ----

  predicate Managed(p: PositionState) {
    p.plan.botManaged && p.status == Active
  }

  /** The bookkeeping that opens every evaluation. */
  function Observe(l: Life, t: Tick): (r: Life) {
    var p := UpdateExtremes(AdvanceBarCounter(l.pos, t.candle), t.price, t.candle);
    Life(p, l.trk.(maxR := Max(l.trk.maxR, RMultiple(p, t.price))))
  }

  predicate HeldTooLong(cfg: Config, p: PositionState, now: real) {
    (now - p.plan.openedAt) / 60.0 >= cfg.maxHoldingMinutes
  }

  /** Scout, runner and general management of an observed position at r. */
  function EvaluateObserved(cfg: Config, l: Life, t: Tick, r: real): (res: (Life, seq<Action>)) {
    var (l1, prefix, general) := ScoutStep(cfg, l, t, l.trk.maxR);
    if !general then (l1, prefix)
    else
      var (l2, events) := RunnerState(cfg, l1, t, l.trk.maxR);
      var (l3, actions) := GeneralStep(cfg, l2, t, r, l.trk.maxR);
      (l3, prefix + events + actions)
  }

  function Evaluate(cfg: Config, l: Life, t: Tick): (res: (Life, seq<Action>)) {
    if !Managed(l.pos) then (l, [])
    else
      var l0 := Observe(l, t);
      if HeldTooLong(cfg, l0.pos, t.now) then
        var (l1, a) := ExitPosition(l0, MaxHoldingTime);
        (l1, [a])
      else
        EvaluateObserved(cfg, l0, t, RMultiple(l0.pos, t.price))
  }

  /** Runner activation once a partial take-profit has filled. */
  function ActivateRunner(cfg: Config, l: Life, t: Tick): (res: (Life, seq<Action>)) {
    var c := cfg.runner;
    var p := UpdateExtremes(l.pos, t.price, t.candle);
    var maxR := Max(l.trk.maxR, RMultiple(p, t.price));
    if !c.enabled || !c.activateAfterPartialTp || !p.trail.partialTpDone || p.runner.active
       || p.book.qty <= 0.0 || maxR < c.activateMinR then (Life(p, l.trk), [])
    else
      var (l1, why) := EnterRunner(cfg, Life(p, l.trk), t, maxR);
      var (p2, moved) := RatchetStop(cfg, l1.pos, t, maxR);
      (Life(p2, l1.trk),
       if moved.None? then [Event(RunnerModeActivatedEvent, Some(why))]
       else [Event(RunnerModeActivatedEvent, Some(why)),
             Event(RunnerTrailingUpdatedEvent, Some(RunnerActivated)),
             TrailUpdate(moved.value)])
  }

  function EnterRunner(cfg: Config, l: Life, t: Tick, maxR: real): (r: (Life, Why)) {
    var (trk, strength, why) := TrendStrength(cfg, l, t, maxR);
    var p := l.pos.(runner := l.pos.runner.(active := true, strength := Some(strength),
                                            mult := Some(Multiplier(cfg, strength))));
    (Life(p, trk), why)
  }
}
