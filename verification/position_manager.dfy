/** Position and PositionManager as the mutable objects they are. Every method is
    proved equal to the management rules on the position's state and on the
    tracking kept for its symbol, and leaves other symbols' tracking alone. */
module PositionManager {
  import opened Common
  import opened Market
  import opened PositionModel
  import opened Management

  class Position {
    const symbol: string
    const side: Side
    const botManaged: bool
    const entryMode: Option<EntryMode>
    const openedAt: real
    const breakoutLevel: Option<real>
    const scoutEntryBoxHigh: Option<real>
    const scoutEntryBoxLow: Option<real>
    const scoutEntryBoxMid: Option<real>
    const scoutEntryBarIndex: Option<int>
    var status: PositionStatus
    var qty: real
    var avgEntryPrice: real
    var stopLossPrice: Option<real>
    var initialRiskPerUnit: Option<real>
    var realizedPnl: real
    var feesPaid: real
    var highestPrice: Option<real>
    var lowestPrice: Option<real>
    var partialTpDone: bool
    var trailingActive: bool
    var runnerModeActive: bool
    var runnerTrendStrength: Option<Strength>
    var runnerTrailingAtrMultiplier: Option<real>
    var lastRunnerTrailingUpdateAt: Option<real>
    var lastRunnerTrailingStop: Option<real>
    var barsSinceEntry: int
    var lastEvaluatedOpenTime: Option<int>
    var scoutState: ScoutState
    var scoutWarningStartedAtBar: Option<int>
    var scoutWarningReason: Option<Why>
    var scoutDefensiveReductionCount: int
    var exitReason: Option<ExitReason>

    /** A position in any state, as built by the entry path or restored. */
    constructor (s: PositionState)
      ensures State() == s
    {
      symbol, side, botManaged := s.plan.symbol, s.plan.side, s.plan.botManaged;
      entryMode, openedAt := s.plan.entryMode, s.plan.openedAt;
      breakoutLevel, scoutEntryBarIndex := s.plan.breakoutLevel, s.plan.scoutEntryBar;
      scoutEntryBoxHigh, scoutEntryBoxLow := s.plan.boxHigh, s.plan.boxLow;
      scoutEntryBoxMid := s.plan.boxMid;
      status, exitReason := s.status, s.exitReason;
      qty, realizedPnl, feesPaid := s.book.qty, s.book.realizedPnl, s.book.feesPaid;
      avgEntryPrice, initialRiskPerUnit := s.plan.entry, s.plan.risk;
      highestPrice, lowestPrice := s.path.highest, s.path.lowest;
      barsSinceEntry, lastEvaluatedOpenTime := s.path.bars, s.path.lastEvaluatedOpenTime;
      stopLossPrice, partialTpDone := s.trail.stop, s.trail.partialTpDone;
      trailingActive, runnerModeActive := s.trail.trailingActive, s.runner.active;
      runnerTrendStrength, runnerTrailingAtrMultiplier := s.runner.strength, s.runner.mult;
      lastRunnerTrailingUpdateAt := s.runner.lastUpdateAt;
      lastRunnerTrailingStop := s.runner.lastStop;
      scoutState, scoutWarningStartedAtBar := s.scout.state, s.scout.warningBar;
      scoutWarningReason := s.scout.warningReason;
      scoutDefensiveReductionCount := s.scout.reductions;
    }

    function PlanOf(): Plan
      reads this
    {
      Plan(symbol, side, botManaged, avgEntryPrice, initialRiskPerUnit, entryMode, openedAt,
           breakoutLevel, scoutEntryBoxHigh, scoutEntryBoxLow, scoutEntryBoxMid,
           scoutEntryBarIndex)
    }

    /** The value the management rules speak about. */
    function State(): PositionState
      reads this
    {
      PositionState(
        PlanOf(), status, exitReason, Book(qty, realizedPnl, feesPaid),
        Path(highestPrice, lowestPrice, barsSinceEntry, lastEvaluatedOpenTime),
        Trail(stopLossPrice, partialTpDone, trailingActive),
        Runner(runnerModeActive, runnerTrendStrength, runnerTrailingAtrMultiplier,
               lastRunnerTrailingUpdateAt, lastRunnerTrailingStop),
        Scout(scoutState, scoutWarningStartedAtBar, scoutWarningReason,
              scoutDefensiveReductionCount))
    }
  }

  function Get<K, V>(m: map<K, V>, k: K, default: V): V {
    if k in m then m[k] else default
  }

  type Key = (string, real)

  const ALL_DELAYS := {ScoutStagnationDelayed, BreakoutExitDelayed, BreakoutReduceDelayed,
                       RetestExitDelayed, RetestTightenDelayed}

  function DelaysOf(emitted: set<(string, DelayReason, real)>, k: Key): set<DelayReason> {
    set d | d in ALL_DELAYS && (k.0, d, k.1) in emitted
  }

  lemma DelayAdded(emitted: set<(string, DelayReason, real)>, k: Key, d: DelayReason)
    ensures DelaysOf(emitted + {(k.0, d, k.1)}, k) == DelaysOf(emitted, k) + {d}
    ensures d in DelaysOf(emitted, k) <==> (k.0, d, k.1) in emitted
    ensures forall j: Key :: j.0 != k.0 ==>
              DelaysOf(emitted + {(k.0, d, k.1)}, j) == DelaysOf(emitted, j)
  {
    assert d in ALL_DELAYS;
  }

  class PositionManager {
    const cfg: Config
    var maxR: map<string, real>
    var stagReduced: set<string>
    var scenarioRecovery: map<string, int>
    var scenarioReduced: set<Key>
    var breakLevelFailCloses: map<Key, Streak>
    var scoutScenarioInvalidCloses: map<Key, Streak>
    var scoutEmaReclaimCounts: map<string, int>
    var runnerEmaBreakCounts: map<string, int>
    var runnerWeakSignalCounts: map<string, int>
    var runnerWeakSignalOpenTimes: map<string, int>
    var stagnationDelayEmitted: set<(string, DelayReason, real)>

    constructor (config: Config)
      ensures cfg == config
      ensures forall k: Key :: Tracked(k) == FRESH
    {
      cfg := config;
      maxR := map[];
      stagReduced := {};
      scenarioRecovery := map[];
      scenarioReduced := {};
      breakLevelFailCloses := map[];
      scoutScenarioInvalidCloses := map[];
      scoutEmaReclaimCounts := map[];
      runnerEmaBreakCounts := map[];
      runnerWeakSignalCounts := map[];
      runnerWeakSignalOpenTimes := map[];
      stagnationDelayEmitted := {};
    }

    /** What is remembered about one position. */
    function Tracked(k: Key): Tracking
      reads this
    {
      Tracking(
        Get(maxR, k.0, 0.0), k.0 in stagReduced, DelaysOf(stagnationDelayEmitted, k),
        Get(scoutEmaReclaimCounts, k.0, 0),
        ScenarioTracking(if k.0 in scenarioRecovery then Some(scenarioRecovery[k.0]) else None,
                         k in scenarioReduced, Get(breakLevelFailCloses, k, NO_STREAK),
                         Get(scoutScenarioInvalidCloses, k, NO_STREAK)),
        RunnerTracking(Get(runnerEmaBreakCounts, k.0, 0), Get(runnerWeakSignalCounts, k.0, 0),
                       if k.0 in runnerWeakSignalOpenTimes
                       then Some(runnerWeakSignalOpenTimes[k.0]) else None))
    }

    function KeyOf(p: Position): Key {
      (p.symbol, p.openedAt)
    }

    function LifeOf(p: Position): Life
      reads this, p
    {
      Life(p.State(), Tracked(KeyOf(p)))
    }

    /** Only the tracking of one symbol changed. */
    twostate predicate OthersKept(symbol: string)
      reads this
    {
      forall k: Key :: k.0 != symbol ==> Tracked(k) == old(Tracked(k))
    }

    // ---- bookkeeping ----

    method AdvanceBars(p: Position, candle: Option<Candle>)
      modifies p
      ensures p.State() == AdvanceBarCounter(old(p.State()), candle)
    {
      if candle.None? || candle.value.openTime <= 0 {
        p.barsSinceEntry := p.barsSinceEntry + 1;
        return;
      }
      if p.lastEvaluatedOpenTime == Some(candle.value.openTime) {
        return;
      }
      p.lastEvaluatedOpenTime := Some(candle.value.openTime);
      p.barsSinceEntry := p.barsSinceEntry + 1;
    }

    method TrackExtremes(p: Position, price: real, candle: Option<Candle>)
      modifies p
      ensures p.State() == UpdateExtremes(old(p.State()), price, candle)
    {
      var high := if candle.Some? then candle.value.high else price;
      var low := if candle.Some? then candle.value.low else price;
      p.highestPrice := Some(if p.highestPrice.None? then high else Max(p.highestPrice.value, high));
      p.lowestPrice := Some(if p.lowestPrice.None? then low else Min(p.lowestPrice.value, low));
    }

    method ExitWith(p: Position, reason: ExitReason) returns (a: Action)
      modifies p
      ensures (LifeOf(p), a) == ExitPosition(old(LifeOf(p)), reason)
    {
      p.status := Closing;
      p.exitReason := Some(reason);
      a := Exit(p.qty, reason);
    }

    // ---- runner mode ----

    method RunnerWeakening(p: Position, t: Tick) returns (why: Option<Why>)
      modifies this
      ensures (Tracked(KeyOf(p)), why) == WeakeningReason(cfg, old(LifeOf(p)), t)
      ensures OthersKept(p.symbol)
    {
      if FiveMinuteBreak(p.side, t.snap5) {
        return Some(FiveMinEma20Break);
      }
      if t.candle.Some? && t.snap1.Some? && t.snap1.value.ema20.Some? {
        if ClosedAgainst(p.side, t.candle.value.close, t.snap1.value.ema20.value) {
          var count := Get(runnerEmaBreakCounts, p.symbol, 0) + 1;
          runnerEmaBreakCounts := runnerEmaBreakCounts[p.symbol := count];
          if count >= cfg.runner.tightenEmaBars {
            return Some(OneMinEma20Break);
          }
        } else {
          runnerEmaBreakCounts := runnerEmaBreakCounts[p.symbol := 0];
        }
      }
      if cfg.runner.tightenOnOpposite && t.candle.Some?
         && StrongCounterCandle(p.side, t.candle.value, t.volumeRatio) {
        return Some(StrongOppositeCandle);
      }
      why := None;
    }

    method RunnerTrendStrength(p: Position, t: Tick, r: real)
      returns (strength: Strength, why: Why)
      modifies this
      ensures (Tracked(KeyOf(p)), strength, why) == TrendStrength(cfg, old(LifeOf(p)), t, r)
      ensures OthersKept(p.symbol)
    {
      var weak := RunnerWeakening(p, t);
      if weak.Some? {
        return Weak, weak.value;
      }
      var strong := r >= cfg.runner.strongMinR && TrendHolds(cfg, p.side, t.snap1, t.snap5);
      if !strong {
        return Weak, TrendHoldWeak;
      }
      if r >= cfg.runner.veryStrongMinR && VeryStrongRsi(cfg, p.side, t.snap1) {
        return VeryStrong, VeryStrongTrendHold;
      }
      return Strong, StrongTrendHold;
    }

    method ClearRunnerWeakSignal(p: Position)
      modifies this
      ensures Tracked(KeyOf(p)) == ClearWeakSignal(old(Tracked(KeyOf(p))))
      ensures OthersKept(p.symbol)
    {
      runnerWeakSignalCounts := runnerWeakSignalCounts - {p.symbol};
      runnerWeakSignalOpenTimes := runnerWeakSignalOpenTimes - {p.symbol};
    }

    /** Count a weak bar once per candle open time. */
    method CountWeakSignal(p: Position, candle: Option<Candle>) returns (count: int)
      modifies this
      ensures Tracked(KeyOf(p)) == NoteWeakSignal(old(Tracked(KeyOf(p))), candle)
      ensures count == Tracked(KeyOf(p)).runner.weakCount
      ensures OthersKept(p.symbol)
    {
      count := Get(runnerWeakSignalCounts, p.symbol, 0);
      if candle.Some? && candle.value.openTime > 0 {
        if p.symbol in runnerWeakSignalOpenTimes
           && runnerWeakSignalOpenTimes[p.symbol] == candle.value.openTime {
          return;
        }
        runnerWeakSignalOpenTimes := runnerWeakSignalOpenTimes[p.symbol := candle.value.openTime];
      }
      count := count + 1;
      runnerWeakSignalCounts := runnerWeakSignalCounts[p.symbol := count];
    }

    method RunnerWeakDowngradePending(p: Position, prev: Option<Strength>, strength: Strength,
                                      why: Why, candle: Option<Candle>) returns (pending: bool)
      modifies this
      ensures (Tracked(KeyOf(p)), pending)
              == WeakDowngradePending(cfg, old(Tracked(KeyOf(p))), prev, strength, why, candle)
      ensures OthersKept(p.symbol)
    {
      if !(prev == Some(Strong) || prev == Some(VeryStrong)) || strength != Weak {
        return false;
      }
      if why == FiveMinEma20Break {
        ClearRunnerWeakSignal(p);
        return false;
      }
      var required := MaxInt(1, if why == StrongOppositeCandle then cfg.runner.tightenOppositeBars
                                else cfg.runner.tightenEmaBars);
      if required <= 1 {
        return false;
      }
      var count := CountWeakSignal(p, candle);
      if count < required {
        return true;
      }
      ClearRunnerWeakSignal(p);
      pending := false;
    }

    method RunnerStateActions(p: Position, t: Tick, r: real) returns (actions: seq<Action>)
      modifies this, p
      ensures (LifeOf(p), actions) == RunnerState(cfg, old(LifeOf(p)), t, r)
      ensures OthersKept(p.symbol)
    {
      hide TrendStrength, WeakDowngradePending;
      if !p.runnerModeActive {
        return [];
      }
      var strength, why := RunnerTrendStrength(p, t, r);
      var prev := p.runnerTrendStrength;
      var pending := RunnerWeakDowngradePending(p, prev, strength, why, t.candle);
      if pending {
        return [];
      }
      if strength != Weak {
        ClearRunnerWeakSignal(p);
      }
      p.runnerTrendStrength := Some(strength);
      p.runnerTrailingAtrMultiplier := Some(Multiplier(cfg, strength));
      if prev.None? || prev == Some(strength) {
        return [];
      }
      actions := [Event(RunnerTrendStrengthChangedEvent, Some(why))];
    }

    method RatchetTo(p: Position, t: Tick, r: real) returns (moved: Option<real>)
      modifies p
      ensures (p.State(), moved) == RatchetStop(cfg, old(p.State()), t, r)
    {
      var newStop := Ratchet(p.State(), TrailStop(cfg, p.State(), t.atr, r));
      if newStop.None? || !RunnerUpdateAllowed(cfg, p.State(), newStop.value, t.atr, t.now) {
        return None;
      }
      p.stopLossPrice := newStop;
      if p.runnerModeActive {
        p.lastRunnerTrailingUpdateAt := Some(t.now);
        p.lastRunnerTrailingStop := newStop;
      }
      moved := newStop;
    }

    // ---- scenario invalidation ----

    method CheckBreakLevel(p: Position, k: Candle) returns (invalid: bool)
      modifies this
      ensures (Tracked(KeyOf(p)), invalid) == BreakLevelInvalid(p.State(), old(Tracked(KeyOf(p))), k)
      ensures OthersKept(p.symbol)
    {
      if p.breakoutLevel.None? {
        return false;
      }
      var key := KeyOf(p);
      var openTime := OpenTimeOf(k);
      if ClosedAgainst(p.side, k.close, p.breakoutLevel.value) {
        var streak := Get(breakLevelFailCloses, key, NO_STREAK);
        if openTime.Some? && openTime == streak.lastOpen {
          return streak.count >= 2;
        }
        var count := streak.count + 1;
        breakLevelFailCloses := breakLevelFailCloses[key := Streak(openTime, count)];
        return count >= 2;
      }
      breakLevelFailCloses := breakLevelFailCloses - {key};
      invalid := false;
    }

    method CheckScenario(p: Position, t: Tick, counterCandle: bool) returns (invalid: bool)
      modifies this
      ensures (Tracked(KeyOf(p)), invalid)
              == IsScenarioInvalid(p.State(), old(Tracked(KeyOf(p))), t, counterCandle)
      ensures OthersKept(p.symbol)
    {
      if FiveMinuteBreak(p.side, t.snap5) {
        return true;
      }
      if t.candle.Some? {
        var broke := CheckBreakLevel(p, t.candle.value);
        if broke {
          return true;
        }
        if counterCandle && StrongCounterCandle(p.side, t.candle.value, t.volumeRatio) {
          return true;
        }
      }
      invalid := false;
    }

    method ConfirmScoutInvalid(p: Position, candle: Option<Candle>) returns (confirmed: bool)
      modifies this
      ensures (Tracked(KeyOf(p)), confirmed)
              == ScoutInvalidConfirmed(p.State(), old(Tracked(KeyOf(p))), candle)
      ensures OthersKept(p.symbol)
    {
      hide BreakLevelConfirmed;
      if p.entryMode != Some(PreBreakoutScout) {
        return true;
      }
      var key := KeyOf(p);
      if BreakLevelConfirmed(p.State(), Tracked(key), candle) {
        scoutScenarioInvalidCloses := scoutScenarioInvalidCloses - {key};
        return true;
      }
      var openTime := if candle.Some? then OpenTimeOf(candle.value) else None;
      var streak := Get(scoutScenarioInvalidCloses, key, NO_STREAK);
      if openTime.Some? && openTime == streak.lastOpen {
        return streak.count >= 2;
      }
      var count := streak.count + 1;
      scoutScenarioInvalidCloses := scoutScenarioInvalidCloses[key := Streak(openTime, count)];
      confirmed := count >= 2;
    }

    method ScenarioAction(p: Position, t: Tick, r: real) returns (a: Option<Action>)
      modifies this, p
      ensures (LifeOf(p), a) == ScenarioStep(cfg, old(LifeOf(p)), t, r)
      ensures OthersKept(p.symbol)
    {
      if p.symbol in scenarioRecovery {
        var left := scenarioRecovery[p.symbol] - 1;
        if r >= 0.5 {
          scenarioRecovery := scenarioRecovery - {p.symbol};
          return None;
        }
        if left <= 0 {
          scenarioRecovery := scenarioRecovery - {p.symbol};
          var exit := ExitWith(p, ScenarioInvalid);
          return Some(exit);
        }
        scenarioRecovery := scenarioRecovery[p.symbol := left];
        return None;
      }
      var invalid := CheckScenario(p, t, true);
      if invalid {
        a := ScenarioInvalidAction(p, t, r);
        return;
      }
      if p.entryMode == Some(PreBreakoutScout) {
        scoutScenarioInvalidCloses := scoutScenarioInvalidCloses - {KeyOf(p)};
      }
      a := None;
    }

    method ScenarioInvalidAction(p: Position, t: Tick, r: real) returns (a: Option<Action>)
      modifies this
      ensures (LifeOf(p), a) == ScenarioInvalidStep(cfg, old(LifeOf(p)), t, r)
      ensures OthersKept(p.symbol)
    {
      var key := KeyOf(p);
      if key in scenarioReduced {
        if r < 0.5 {
          scenarioRecovery := scenarioRecovery[p.symbol := 3];
        }
        return None;
      }
      var grace := GraceBars(cfg, p.State());
      if grace > 0 && p.barsSinceEntry <= grace {
        return Some(Delayed(RetestScenarioInvalidGrace));
      }
      if MildRetestInvalid(p.State(), t, r) {
        if p.barsSinceEntry < cfg.stagnation.retestTightenAfter {
          return Some(Delayed(RetestBreakLevelInvalidDelayed));
        }
        return None;
      }
      var confirmed := ConfirmScoutInvalid(p, t.candle);
      if !confirmed {
        return Some(Delayed(ScoutScenarioInvalidConfirming));
      }
      scenarioRecovery := scenarioRecovery[p.symbol := 3];
      scenarioReduced := scenarioReduced + {key};
      a := Some(Reduce(Portion(p.qty, 0.5), ScenarioInvalid, ScenarioInvalidReduceEvent));
    }

    // ---- stagnation ----

    method StagnationDelayEvent(p: Position, d: DelayReason) returns (a: Option<Action>)
      modifies this
      ensures (LifeOf(p), a) == DelayOnce(old(LifeOf(p)), d)
      ensures OthersKept(p.symbol)
    {
      DelayAdded(stagnationDelayEmitted, KeyOf(p), d);
      if (p.symbol, d, p.openedAt) in stagnationDelayEmitted {
        return None;
      }
      stagnationDelayEmitted := stagnationDelayEmitted + {(p.symbol, d, p.openedAt)};
      a := Some(Delayed(DelayWhy(d)));
    }

    method StagnationAction(p: Position, r: real) returns (a: Option<Action>)
      modifies this, p
      ensures (LifeOf(p), a) == StagnationStep(cfg, old(LifeOf(p)), r)
      ensures OthersKept(p.symbol)
    {
      var se := cfg.stagnation;
      if !se.enabled {
        return None;
      }
      var bars := p.barsSinceEntry;
      match p.entryMode {
        case None => a := None;
        case Some(mode) =>
          match mode {
            case PreBreakoutScout =>
              if bars >= se.scoutMaxBars && r < se.scoutMinProgress {
                var exit := ExitWith(p, Stagnation);
                return Some(exit);
              }
              if bars >= 8 && r < 0.5 {
                a := StagnationDelayEvent(p, ScoutStagnationDelayed);
                return;
              }
              a := None;
            case BreakoutConfirm =>
              if bars >= se.breakoutMaxBars && r < 1.0 {
                var exit := ExitWith(p, Stagnation);
                return Some(exit);
              }
              if bars >= se.breakoutReduceAfter && r < 0.5 && p.symbol !in stagReduced {
                stagReduced := stagReduced + {p.symbol};
                return Some(Reduce(Portion(p.qty, se.breakoutReduceFraction), Stagnation,
                                   StagnationReduceEvent));
              }
              if bars >= 10 && r < 1.0 {
                a := StagnationDelayEvent(p, BreakoutExitDelayed);
                return;
              }
              if bars >= 5 && r < 0.5 && p.symbol !in stagReduced {
                a := StagnationDelayEvent(p, BreakoutReduceDelayed);
                return;
              }
              a := None;
            case RetestConfirm =>
              if bars >= se.retestMaxBars && r < 1.0 {
                var exit := ExitWith(p, Stagnation);
                return Some(exit);
              }
              if bars >= se.retestTightenAfter && r < 0.5 {
                return Some(TrailUpdate(TightenStop(p.State())));
              }
              if bars >= 12 && r < 1.0 {
                a := StagnationDelayEvent(p, RetestExitDelayed);
                return;
              }
              if bars >= 6 && r < 0.5 {
                a := StagnationDelayEvent(p, RetestTightenDelayed);
                return;
              }
              a := None;
          }
      }
    }

    // ---- pre-breakout scout ----

    method ScoutReduceAction(p: Position, reason: ExitReason, event: EventType)
      returns (a: Action)
      modifies p
      ensures (LifeOf(p), a) == ScoutReduce(cfg, old(LifeOf(p)), reason, event)
    {
      p.scoutDefensiveReductionCount := p.scoutDefensiveReductionCount + 1;
      var qty := Portion(p.qty, cfg.scout.reduceFraction);
      ClearScoutWarning(p);
      p.scoutState := ScoutPending;
      a := Reduce(qty, reason, event);
    }

    method ClearScoutWarning(p: Position)
      modifies p
      ensures p.State() == ClearWarning(old(p.State()))
    {
      p.scoutWarningStartedAtBar := None;
      p.scoutWarningReason := None;
    }

    method ScoutEmaReclaim(p: Position, k: Candle, snap1: Option<Snapshot>)
      returns (why: Option<Why>)
      modifies this
      ensures (Tracked(KeyOf(p)), why) == EmaReclaim(cfg, old(LifeOf(p)), k, snap1)
      ensures OthersKept(p.symbol)
    {
      if snap1.None? || snap1.value.ema20.None? {
        return None;
      }
      if ClosedAgainst(p.side, k.close, snap1.value.ema20.value) {
        var count := Get(scoutEmaReclaimCounts, p.symbol, 0) + 1;
        scoutEmaReclaimCounts := scoutEmaReclaimCounts[p.symbol := count];
        if count >= cfg.scout.emaReclaimBars {
          return Some(Ema20ReclaimedAgainstScout);
        }
      } else {
        scoutEmaReclaimCounts := scoutEmaReclaimCounts[p.symbol := 0];
      }
      why := None;
    }

    method ScoutWeaknessReason(p: Position, t: Tick, k: Candle) returns (why: Option<Why>)
      modifies this
      ensures (Tracked(KeyOf(p)), why) == ScoutWeakness(cfg, old(LifeOf(p)), t, k)
      ensures OthersKept(p.symbol)
    {
      hide EmaReclaim, RsiWeakness, ScoutStrongOpposite;
      if cfg.scout.invalidateOnMid && p.scoutEntryBoxMid.Some? {
        if p.side == Long && k.close < p.scoutEntryBoxMid.value {
          return Some(BoxMidReclaimedAgainstLong);
        }
        if p.side == Short && k.close > p.scoutEntryBoxMid.value {
          return Some(BoxMidReclaimedAgainstShort);
        }
      }
      why := ScoutEmaReclaim(p, k, t.snap1);
      if why.Some? {
        return;
      }
      why := RsiWeakness(cfg, p.side, t.snap1);
      if why.Some? {
        return;
      }
      why := ScoutStrongOpposite(cfg, p.side, k, t.volumeRatio);
    }

    method ScoutWeaknessAfterGrace(p: Position, t: Tick, k: Candle) returns (why: Option<Why>)
      modifies this
      ensures (Tracked(KeyOf(p)), why) == WeaknessAfterGrace(cfg, old(LifeOf(p)), t, k)
      ensures OthersKept(p.symbol)
    {
      hide ScoutWeakness;
      if BarsSinceScout(p.State()) < cfg.scout.graceBars {
        return None;
      }
      why := ScoutWeaknessReason(p, t, k);
    }

    method ScoutManagementAction(p: Position, t: Tick, r: real)
      returns (actions: seq<Action>, general: bool)
      modifies this, p
      ensures (LifeOf(p), actions, general) == ScoutStep(cfg, old(LifeOf(p)), t, r)
      ensures OthersKept(p.symbol)
    {
      hide ScoutWatch, ScoutIsConfirmed;
      if !cfg.scout.enabled || p.entryMode != Some(PreBreakoutScout) || p.scoutState == NoScout {
        return [], true;
      }
      if p.scoutState == ActiveTrend {
        return [], true;
      }
      if t.candle.None? || t.atr <= 0.0 {
        return [], false;
      }
      if p.scoutState == ScoutConfirmed {
        if cfg.scout.convertOnConfirmation {
          p.scoutState := ActiveTrend;
          return [Event(ScoutActivatedEvent, None)], true;
        }
        return [], false;
      }
      if ScoutIsConfirmed(cfg, p.State(), t, t.candle.value) {
        ClearScoutWarning(p);
        p.scoutState := ScoutConfirmed;
        actions := [Event(ScoutConfirmedEvent, None)];
        if cfg.scout.convertOnConfirmation {
          p.scoutState := ActiveTrend;
          actions := actions + [Event(ScoutActivatedEvent, None)];
          assert actions == [Event(ScoutConfirmedEvent, None), Event(ScoutActivatedEvent, None)];
          return actions, true;
        }
        return actions, false;
      }
      actions := ScoutWatchAction(p, t, t.candle.value, r);
      general := false;
    }

    method ScoutWatchAction(p: Position, t: Tick, k: Candle, r: real)
      returns (actions: seq<Action>)
      modifies this, p
      ensures (LifeOf(p), actions) == ScoutWatch(cfg, old(LifeOf(p)), t, k, r)
      ensures OthersKept(p.symbol)
    {
      hide ScoutPendingStep, ScoutCatastrophic, ScoutRecovered;
      var catastrophic := ScoutCatastrophic(cfg, p.side, k, t.volumeRatio, t.atr);
      if catastrophic.Some? && p.scoutDefensiveReductionCount < cfg.scout.maxReductions {
        var a := ScoutReduceAction(p, ScoutCatastrophicReduce, ScoutCatastrophicReduceEvent);
        return [a];
      }
      if p.scoutState == ScoutWarning {
        if ScoutRecovered(p.State(), k, t.snap1) {
          var why := p.scoutWarningReason.GetOr(ScoutWarningRecovered);
          ClearScoutWarning(p);
          p.scoutState := ScoutPending;
          return [Event(ScoutWarningRecoveredEvent, Some(why))];
        }
        if WarningBars(p.State()) < cfg.scout.warningConfirmBars {
          return [];
        }
        if BarsSinceScout(p.State()) < cfg.scout.minHoldBars {
          return [];
        }
        if p.scoutDefensiveReductionCount < cfg.scout.maxReductions {
          var a := ScoutReduceAction(p, ScoutDefensiveReduce, ScoutDefensiveReduceEvent);
          return [a];
        }
        ClearScoutWarning(p);
        p.scoutState := ScoutPending;
      }
      actions := ScoutPendingAction(p, t, k, r);
    }

    method ScoutPendingAction(p: Position, t: Tick, k: Candle, r: real)
      returns (actions: seq<Action>)
      modifies this, p
      ensures (LifeOf(p), actions) == ScoutPendingStep(cfg, old(LifeOf(p)), t, k, r)
      ensures OthersKept(p.symbol)
    {
      hide ScoutStrongOpposite, WeaknessAfterGrace, StagnationStep, ScoutReduce, BarsSinceScout;
      var strong := ScoutStrongOpposite(cfg, p.side, k, t.volumeRatio);
      if strong.Some? && p.scoutDefensiveReductionCount < cfg.scout.maxReductions {
        p.scoutWarningStartedAtBar := Some(BarsSinceScout(p.State()));
        p.scoutWarningReason := strong;
        p.scoutState := ScoutWarning;
        return [Event(ScoutWarningStartedEvent, strong)];
      }
      var weakness := ScoutWeaknessAfterGrace(p, t, k);
      if weakness.Some? && p.scoutDefensiveReductionCount < cfg.scout.maxReductions {
        var a := ScoutReduceAction(p, ScoutDefensiveReduce, ScoutDefensiveReduceEvent);
        return [a];
      }
      var stagnation := StagnationAction(p, r);
      if stagnation.None? {
        return [];
      }
      if stagnation.value.Event? {
        return [stagnation.value];
      }
      actions := [Event(ScoutInvalidatedEvent, Some(ExitWhy(Stagnation))), stagnation.value];
    }

    // ---- general management and the entry points ----

    method RatchetAction(p: Position, t: Tick, r: real) returns (actions: seq<Action>)
      modifies p
      ensures (LifeOf(p), actions) == RatchetStep(cfg, old(LifeOf(p)), t, r)
    {
      hide RatchetStop;
      if !p.trailingActive {
        return [];
      }
      var moved := RatchetTo(p, t, r);
      if moved.None? {
        return [];
      }
      if p.runnerModeActive {
        return [Event(RunnerTrailingUpdatedEvent, None), TrailUpdate(moved.value)];
      }
      actions := [TrailUpdate(moved.value)];
    }

    method GeneralAction(p: Position, t: Tick, r: real, best: real) returns (actions: seq<Action>)
      modifies this, p
      ensures (LifeOf(p), actions) == GeneralStep(cfg, old(LifeOf(p)), t, r, best)
      ensures OthersKept(p.symbol)
    {
      hide RunnerGeneralStep, PlainGeneralStep, TrailStop, EffectiveStop, StopBreached;
      if !p.partialTpDone && r >= cfg.partialR {
        p.partialTpDone := true;
        return [PartialTp(Portion(p.qty, cfg.partialFraction))];
      }
      if best >= cfg.trailingStartR {
        p.trailingActive := true;
        var stop := EffectiveStop(p.State(), TrailStop(cfg, p.State(), t.atr, best));
        if StopBreached(p.side, t.price, stop) {
          if p.runnerModeActive {
            var exit := ExitWith(p, RunnerTrailingStop);
            return [Event(RunnerTrailingStopEvent, Some(ExitWhy(RunnerTrailingStop))), exit];
          }
          var exit := ExitWith(p, TrailingStop);
          return [exit];
        }
      }
      if p.runnerModeActive {
        actions := RunnerGeneralAction(p, t, best);
      } else {
        actions := PlainGeneralAction(p, t, r, best);
      }
    }

    method RunnerGeneralAction(p: Position, t: Tick, best: real) returns (actions: seq<Action>)
      modifies this, p
      ensures (LifeOf(p), actions) == RunnerGeneralStep(cfg, old(LifeOf(p)), t, best)
      ensures OthersKept(p.symbol)
    {
      hide IsScenarioInvalid, RatchetStep;
      var invalid := CheckScenario(p, t, false);
      if invalid {
        var exit := ExitWith(p, RunnerScenarioInvalid);
        return [Event(RunnerScenarioInvalidEvent, Some(ExitWhy(RunnerScenarioInvalid))), exit];
      }
      actions := RatchetAction(p, t, best);
    }

    method PlainGeneralAction(p: Position, t: Tick, r: real, best: real)
      returns (actions: seq<Action>)
      modifies this, p
      ensures (LifeOf(p), actions) == PlainGeneralStep(cfg, old(LifeOf(p)), t, r, best)
      ensures OthersKept(p.symbol)
    {
      hide ScenarioStep, StagnationStep, RatchetStep;
      var scenario := ScenarioAction(p, t, r);
      if scenario.Some? {
        return [scenario.value];
      }
      var stagnation := StagnationAction(p, best);
      if stagnation.Some? {
        return [stagnation.value];
      }
      actions := RatchetAction(p, t, best);
    }

    /** PositionManager.evaluate. */
    method EvaluatePosition(p: Position, t: Tick) returns (actions: seq<Action>)
      modifies this, p
      ensures (LifeOf(p), actions) == Evaluate(cfg, old(LifeOf(p)), t)
      ensures OthersKept(p.symbol)
    {
      hide EvaluateObserved, RMultiple;
      if !p.botManaged || p.status != Active {
        return [];
      }
      AdvanceBars(p, t.candle);
      TrackExtremes(p, t.price, t.candle);
      var r := RMultiple(p.State(), t.price);
      var best := Max(Get(maxR, p.symbol, 0.0), r);
      maxR := maxR[p.symbol := best];
      if HeldTooLong(cfg, p.State(), t.now) {
        var exit := ExitWith(p, MaxHoldingTime);
        return [exit];
      }
      actions := ObservedActions(p, t, r, best);
    }

    method ObservedActions(p: Position, t: Tick, r: real, best: real)
      returns (actions: seq<Action>)
      requires best == Tracked(KeyOf(p)).maxR
      modifies this, p
      ensures (LifeOf(p), actions) == EvaluateObserved(cfg, old(LifeOf(p)), t, r)
      ensures OthersKept(p.symbol)
    {
      hide ScoutStep, RunnerState, GeneralStep;
      var prefix, general := ScoutManagementAction(p, t, best);
      if !general {
        return prefix;
      }
      var events := RunnerStateActions(p, t, best);
      var rest := GeneralAction(p, t, r, best);
      actions := prefix + events + rest;
    }

    method EnterRunnerMode(p: Position, t: Tick, best: real) returns (why: Why)
      modifies this, p
      ensures (LifeOf(p), why) == EnterRunner(cfg, old(LifeOf(p)), t, best)
      ensures OthersKept(p.symbol)
    {
      hide TrendStrength;
      var strength;
      strength, why := RunnerTrendStrength(p, t, best);
      p.runnerModeActive := true;
      p.runnerTrendStrength := Some(strength);
      p.runnerTrailingAtrMultiplier := Some(Multiplier(cfg, strength));
    }

    /** PositionManager.activate_runner_after_partial_tp. */
    method ActivateRunnerAfterPartialTp(p: Position, t: Tick) returns (actions: seq<Action>)
      modifies this, p
      ensures (LifeOf(p), actions) == ActivateRunner(cfg, old(LifeOf(p)), t)
      ensures OthersKept(p.symbol)
    {
      hide EnterRunner, RatchetStop, RMultiple;
      TrackExtremes(p, t.price, t.candle);
      var best := Max(Get(maxR, p.symbol, 0.0), RMultiple(p.State(), t.price));
      if !cfg.runner.enabled || !cfg.runner.activateAfterPartialTp || !p.partialTpDone
         || p.runnerModeActive || p.qty <= 0.0 || best < cfg.runner.activateMinR {
        return [];
      }
      var why := EnterRunnerMode(p, t, best);
      var moved := RatchetTo(p, t, best);
      if moved.None? {
        return [Event(RunnerModeActivatedEvent, Some(why))];
      }
      actions := [Event(RunnerModeActivatedEvent, Some(why)),
                  Event(RunnerTrailingUpdatedEvent, Some(RunnerActivated)),
                  TrailUpdate(moved.value)];
    }
  }
}
