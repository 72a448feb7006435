/** Positions, management actions and the settings the management rules read. */
module PositionModel {
  import opened Common
  import opened Market

  datatype PositionStatus = Pending | Active | Closing | Closed

  datatype EntryMode = PreBreakoutScout | BreakoutConfirm | RetestConfirm

  datatype ScoutState = NoScout | ScoutPending | ScoutWarning | ScoutConfirmed | ActiveTrend

  datatype Strength = Weak | Strong | VeryStrong

  datatype ExitReason =
    | PartialTakeProfit | TrailingStop | RunnerTrailingStop | RunnerScenarioInvalid
    | Stagnation | ScenarioInvalid | ScoutDefensiveReduce | ScoutCatastrophicReduce
    | MaxHoldingTime | ManualClose | FundingGuard | StopLoss

  datatype EventType =
    | ScoutConfirmedEvent | ScoutActivatedEvent | ScoutCatastrophicReduceEvent
    | ScoutWarningRecoveredEvent | ScoutWarningStartedEvent | ScoutDefensiveReduceEvent
    | ScoutInvalidatedEvent | RunnerModeActivatedEvent | RunnerTrendStrengthChangedEvent
    | RunnerTrailingStopEvent | RunnerTrailingUpdatedEvent | RunnerScenarioInvalidEvent
    | ScenarioInvalidReduceEvent | StagnationReduceEvent | DelayedByEntryModeEvent

  /** Stagnation notices that are emitted once per position. */
  datatype DelayReason =
    | ScoutStagnationDelayed | BreakoutExitDelayed | BreakoutReduceDelayed
    | RetestExitDelayed | RetestTightenDelayed

  /** The reason text carried by an event. */
  datatype Why =
    | FiveMinEma20Break | OneMinEma20Break | StrongOppositeCandle
    | TrendHoldWeak | StrongTrendHold | VeryStrongTrendHold
    | BoxMidReclaimedAgainstLong | BoxMidReclaimedAgainstShort | Ema20ReclaimedAgainstScout
    | RsiWeakForLongScout | RsiWeakForShortScout
    | StrongBearishCandle | StrongBullishCandle
    | CatastrophicBearishCandle | CatastrophicBullishCandle
    | ScoutWarningRecovered | ScoutWarningNotRecovered
    | RetestScenarioInvalidGrace | RetestBreakLevelInvalidDelayed
    | ScoutScenarioInvalidConfirming
    | ExitWhy(exit: ExitReason) | DelayWhy(delay: DelayReason)
    | RunnerActivated

  datatype Action =
    | PartialTp(qty: real)
    | Reduce(qty: real, reason: ExitReason, event: EventType)
    | Exit(qty: real, reason: ExitReason)
    | TrailUpdate(newStop: real)
    | Event(event: EventType, why: Option<Why>)
    | FundingReduce(qty: real)
  {
    /** Actions the executor turns into a closing order. */
    predicate ChangesQty() {
      PartialTp? || Reduce? || Exit?
    }
  }

  /** What the entry path fixes: management only reads these. */
  datatype Plan = Plan(
    symbol: string, side: Side, botManaged: bool, entry: real, risk: Option<real>,
    entryMode: Option<EntryMode>, openedAt: real, breakoutLevel: Option<real>,
    boxHigh: Option<real>, boxLow: Option<real>, boxMid: Option<real>,
    scoutEntryBar: Option<int>)

  datatype Book = Book(qty: real, realizedPnl: real, feesPaid: real)

  datatype Path = Path(highest: Option<real>, lowest: Option<real>, bars: int,
                       lastEvaluatedOpenTime: Option<int>)

  datatype Trail = Trail(stop: Option<real>, partialTpDone: bool, trailingActive: bool)

  datatype Runner = Runner(active: bool, strength: Option<Strength>, mult: Option<real>,
                           lastUpdateAt: Option<real>, lastStop: Option<real>)

  datatype Scout = Scout(state: ScoutState, warningBar: Option<int>,
                         warningReason: Option<Why>, reductions: int)

  /** The fields of a Position that management reads or writes. */
  datatype PositionState = PositionState(
    plan: Plan, status: PositionStatus, exitReason: Option<ExitReason>,
    book: Book, path: Path, trail: Trail, runner: Runner, scout: Scout)

  /** Consecutive closes counted once per candle open time. */
  datatype Streak = Streak(lastOpen: Option<int>, count: int)

  const NO_STREAK := Streak(None, 0)

  datatype ScenarioTracking = ScenarioTracking(recovery: Option<int>, reduced: bool,
                                               breakFails: Streak, scoutInvalid: Streak)

  datatype RunnerTracking = RunnerTracking(emaBreaks: int, weakCount: int,
                                           weakOpenTime: Option<int>)

  /** What the manager remembers about one position besides its fields. */
  datatype Tracking = Tracking(
    maxR: real, stagReduced: bool, delaysEmitted: set<DelayReason>, emaReclaims: int,
    scenario: ScenarioTracking, runner: RunnerTracking)

  const FRESH := Tracking(0.0, false, {}, 0,
                          ScenarioTracking(None, false, NO_STREAK, NO_STREAK),
                          RunnerTracking(0, 0, None))

  datatype Life = Life(pos: PositionState, trk: Tracking)

  /** The inputs of one evaluation. */
  datatype Tick = Tick(price: real, atr: real, candle: Option<Candle>,
                       snap1: Option<Snapshot>, snap5: Option<Snapshot>,
                       volumeRatio: Option<real>, now: real)

  datatype ScoutConfig = ScoutConfig(
    enabled: bool, graceBars: int, boundaryAtr: real, confirmVolume: real,
    minHoldBars: int, warningConfirmBars: int, maxReductions: int, reduceFraction: real,
    invalidateOnMid: bool, emaReclaimBars: int, longInvalidRsi: real, shortInvalidRsi: real,
    strongBody: real, strongVolume: real,
    catastrophicBody: real, catastrophicVolume: real, catastrophicMoveAtr: real,
    convertOnConfirmation: bool)

  datatype RunnerConfig = RunnerConfig(
    enabled: bool, activateAfterPartialTp: bool, activateMinR: real,
    weakMult: real, strongMult: real, veryStrongMult: real,
    strongMinR: real, veryStrongMinR: real, require5m: bool, require1m: bool,
    longMinRsi: real, shortMaxRsi: real,
    tightenEmaBars: int, tightenOnOpposite: bool, tightenOppositeBars: int,
    minUpdateInterval: real, minImprovementAtr: real)

  datatype StagnationConfig = StagnationConfig(
    enabled: bool, scoutMaxBars: int, scoutMinProgress: real,
    breakoutReduceAfter: int, breakoutReduceFraction: real, breakoutMaxBars: int,
    retestTightenAfter: int, retestMaxBars: int, retestGrace: int)

  datatype Config = Config(
    partialR: real, partialFraction: real, trailingStartR: real, trailingMult: real,
    extendedAfterR: real, extendedMult: real, maxHoldingMinutes: real,
    scout: ScoutConfig, runner: RunnerConfig, stagnation: StagnationConfig)
}
