# Bot engine: decisions, money and runtime, verified

This project models the decision and accounting core of the trading bot and proves
properties of it with Dafny 4.11. Amounts and prices are exact reals; rounding to
exchange increments is written out as floor, ceiling and nearest-tick. The exchange,
the executor, clocks, Redis and market data are parameters, so each theorem holds for
every answer they can give.

`dafny verify dfyconfig.toml` checks everything.

## Layout

| area | files | what is there |
|---|---|---|
| shared | `common`, `real_facts`, `int_facts`, `market`, `position_model` | options, sides, rounding modes, arithmetic facts, candles, positions, settings |
| management | `management`, `trading` | the rules of `evaluate`, `manage`, `_close` and `close_position` as functions on values, and runs of them |
| management, theorems | `lifecycle`, `stop_discipline`, `scout_automaton`, `quantity`, `requests`, `exits`, `recovery_window`, `mirror`, `mirror_runs` | budgets, stops, the scout automaton, conservation, exits that must come, the recovery window in evaluations and in bars, LONG/SHORT symmetry |
| management, laws | `history`, `trailing`, `bookings`, `market_tests`, `general_rules`, `runner_rules`, `scout_rules` | what a run remembers, where the stop trails, what a lifetime books, and every decision stated on prices, bars and R |
| management, objects | `position_manager`, `runtime_state`, `trading_service` | the mutable classes, each method proved equal to the rules |
| indicators | `indicator_engine`, `indicator_laws`, `indicator_reflection` | the accumulator loops against recursive definitions and the equations their results satisfy, bounds, the weights of an average, whole snapshots, reflection |
| money | `paper_engine`, `pnl`, `paper_books`, `paper_trading`, `paper_cycles`, `paper_sessions` | the average-cost ledger, the PnL summary, and their agreement over whole sessions |
| risk | `rounding`, `sizing`, `risk_manager`, `approval_laws`, `fill_levels`, `order_manager` | stops, sizes, leverage, approval and the order it describes, levels after the fill, partial exits |
| runtime | `bot_state_machine`, `bot_runtime` | the transition table and every coroutine that uses it, as interleaved steps |
| reconciliation | `reconciliation`, `order_reconciliation`, `reconciliation_manager` | one pass per symbol and per order, convergence, and the loops that perform it |
| protocols | `rate_limit`, `runtime_lock`, `candle_store`, `scanner` | token bucket, Redis lease, candle index, round-robin refresh |

A run of the position lifecycle is a sequence of steps, each a management cycle or an
operator close, with arbitrary prices, candles, snapshots and executor answers. The
classes and the functions are two views of the same code: a class method's `ensures`
equates the new object state with the function, and the theorems are about the function.
The laws say what the functions compute without naming them: in prices, volumes, bars, R
and quantities, as relations that fix the result.

## Where the code falls short of a plain reading

Each of these is a lemma with the exact condition or a concrete witness.

- **Early trailing loosens a stop.** `StopDiscipline.HalfRIsTheThreshold`: stops never
  loosen for every configuration with `trailing_start_r >= 0.5`, and for every smaller
  value some fresh position and run loosens one. The retest tightening rule writes the
  entry price over a stop that has already trailed past it.
- **The recovery window counts evaluations, not bars.** The code's comment calls it a 3-bar
  window (`packages/position/position_manager.py:1373`). `RecoveryWindow.GivesUpIff`: the
  scenario exit comes in the third evaluation and in no other. `RecoveryWindow.WindowBars`:
  a used-up window spans three bars if and only if each of its evaluations brought a new
  bar. `RecoveryWindow.OneCandleUsesUpTheWindow`: three evaluations of one candle use it up
  and no bar has passed.
- **An exit that is not filled is final.** The position is CLOSING as soon as the exit is
  decided; when the executor fills nothing it keeps its quantity, and neither the manager
  nor an operator close touches it again: `Exits.ExitSettlesIff`.
- **A new position can inherit an old maximum.** The best R is tracked by symbol and outlives
  a close, so a position can start trailing on gains it never had:
  `Exits.InheritedMaximumTrails` is the exact condition.
- **The PnL summary forgets.** The registry holds one position per symbol, so opening a
  symbol again drops the earlier record from `compute_pnl`. `PaperBooks.EntryForgets`: an
  entry moves the published figure away from the wallet by exactly what the symbol's record
  had realized after fees, so an exact figure stays exact if and only if there is no record
  or it nets to zero; closes and management cycles move nothing.
  `PaperBooks.RegistryForgetsLosses` is a session that lost 10 and reports 0.
- **Locks have no way out.** The transition table lets RISK_LOCKED and ORDER_LOCKED
  return to RUNNING, but no code asks for it. A START or WebSocket recovery whose
  reconciliation raises leaves SYNCING or RECONCILING with nobody to finish it.
  `BotRuntime.ReachesRunningIff` is the exact condition.
- **A fill beyond the stop keeps the stop behind the market.** `FillLevels.ProtectiveIff`:
  the levels are re-derived only for a fill nearer the stop than planned.
- **A mixed partial exit misprices itself.** `OrderManager.PartialExitReport`: the limit
  leg is reported at the market leg's price.
- **A raise after sending leaks a reservation.** `OrderManager.OrderManager.Place` says
  when; `Reconciliation.SettlingBlocks` is what follows: reconciliation skips that symbol
  for as long as the reservation stays.
- **Reconciliation compares sizes, not sides.** `Reconciliation.SideAgreesIff`.
- **A lock owner that acquires again forgets its lock** (`RuntimeLock.AcquireTwiceForgets`),
  and the `held` flag alone is exclusive if and only if no acquire overtakes an instance
  that still believes it holds the lock: `RuntimeLock.BeliefsOverlapIff`,
  `RuntimeLock.BeliefExclusiveIff`. Whoever is overtaken is past its ttl.
- **A candle store of capacity zero counts no gaps**; with room for one candle or more it
  counts all of them: `CandleStore.GapsAgreeIff`. A late in-progress candle is accepted
  behind the history: `CandleStore.StaysAheadIff`.

## Model

| member | source | states |
|---|---|---|
| Lifecycle.EvaluateShape | packages/position/position_manager.py:86-256 | every action list is notices followed by at most one action that is not, so at most one action changes the quantity or the stop and it comes last |
| Lifecycle.RunSpends | packages/position/position_manager.py:141-228 | over any run, the actions of each kind plus what the position can still cause stay within its budget: one PARTIAL_TP, one scenario REDUCE, one stagnation REDUCE, the configured number of scout REDUCEs, one EXIT |
| Lifecycle.NextSpends | apps/bot/workers/trading_pipeline.py:977-1046 | one management cycle or operator close spends from the same budgets, actions issued by the runner activation included |
| Lifecycle.NothingAfterExit | apps/bot/workers/trading_pipeline.py:1096-1128 | a position that is closing or closed emits nothing and never changes again |
| StopDiscipline.StopNeverLoosens | packages/position/position_manager.py:1206-1249 | over any run the stop of a LONG is non-decreasing and of a SHORT non-increasing between any two points, once trailing starts at 0.5 R or later |
| StopDiscipline.EvaluateKept | packages/position/position_manager.py:86-256 | one evaluation, and the stop update it asks for, keep the stop from loosening and keep the invariant that tightening to entry is out of reach once trailing began |
| StopDiscipline.RunKept | apps/bot/workers/trading_pipeline.py:1037-1046 | the invariant survives any sequence of cycles and operator closes |
| StopDiscipline.EarlyTrailingLoosens | packages/position/position_manager.py:1626-1707 | for every start below 0.5 R there is a fresh retest position and a run in which its stop moves back to entry |
| StopDiscipline.HalfRIsTheThreshold | packages/position/position_manager.py:1703-1707 | no fresh position's stop ever loosens under a start of x R if and only if x is at least 0.5 |
| ScoutAutomaton.ScoutRuns | packages/position/position_manager.py:658-872 | over any run SCOUT_WARNING holds exactly when a warning bar is recorded, ACTIVE_TREND and NONE are absorbing, reductions stay within their maximum, and before ACTIVE_TREND nothing but notices, scout reductions, funding reductions and exits is emitted |
| ScoutAutomaton.EvaluateAdvances | packages/position/position_manager.py:113-124 | one evaluation follows an edge of the automaton and respects probation |
| Exits.TrailingExitIff | packages/position/position_manager.py:155-180 | off probation, an evaluation ends in a trailing exit if and only if no partial profit is due, trailing has started, and the price has reached the current stop or the trail; `Trailing.TrailingLaw` says where the trail lies |
| Exits.ReductionArms | packages/position/position_manager.py:1293-1391 | a scenario reduction sets the countdown to three |
| Exits.CountdownEvaluate | packages/position/position_manager.py:1293-1391 | an evaluation below half an R during the countdown exits or uses up one cycle |
| Exits.GivenUpInTime | packages/position/position_manager.py:1293-1391 | a position that stays unrecovered is given up within the cycles left, whatever stagnation, trailing, funding reductions and fills do meanwhile |
| Exits.ExitSettlesIff | apps/bot/workers/trading_pipeline.py:957-1128 | an exit ends in CLOSED if and only if the exchange is flat or more than nothing is filled; otherwise the position keeps what it held in CLOSING for good |
| Exits.InheritedMaximumTrails | packages/position/position_manager.py:59-160 | a position starts trailing at an evaluation if and only if no partial profit comes first and its own R or the maximum it inherited reaches the start |
| History.RunRemembers | packages/position/position_manager.py:78-107 | after any run the position remembers exactly the largest high and the smallest low, and the manager exactly the best R, of the start and the ticks the run has shown them |
| Trailing.TrailingLaw | packages/position/position_manager.py:1206-1249 | over any run, off runner mode, the level lies ATR times the multiplier behind the peak (for a SHORT, the trough) of all ticks shown, with the extended multiplier exactly when their best R calls for it; the evaluation exits exactly when trailing has started, no partial profit is due and the price has reached stop or level, and otherwise leaves the tighter of the two |
| Trailing.RunnerTrailingLaw | packages/position/position_manager.py:571-610 | the same in runner mode with the multiplier of the runner's strength; the stop moves exactly when the level is tighter, the interval has passed and the improvement suffices, and the move is remembered |
| Trailing.ActivationLaw | packages/position/position_manager.py:273-345 | entering runner mode puts the stop by the same rule behind the extreme of everything seen, the tick of the partial fill included |
| RecoveryWindow.BarLaw | packages/position/position_manager.py:259-268 | an evaluation counts one bar if and only if its tick has no candle, a candle without open time, or one with another open time than the last |
| RecoveryWindow.ScenarioExitIff | packages/position/position_manager.py:1304-1316 | while counting down, an evaluation exits as SCENARIO_INVALID if and only if it is the last one left, the position is below half an R, no partial profit is due, and neither holding limit nor trailing stop comes first |
| RecoveryWindow.GivesUpIff | packages/position/position_manager.py:1304-1316 | over any unrecovered cycles the scenario exit comes in the last cycle of the window and in no other, if and only if the position is still evaluated then and nothing comes before it |
| RecoveryWindow.WindowBars | packages/position/position_manager.py:1373-1375 | a used-up window has exactly the cycles that were left, spans at most as many bars, and spans as many if and only if each cycle brought a new bar |
| RecoveryWindow.OneCandleUsesUpTheWindow | packages/position/position_manager.py:1373-1375 | three evaluations of one candle use up the window with the bar count unchanged |
| Requests.EvaluateAsks | packages/position/position_manager.py:86-256 | an evaluation moves no money and leaves the position ACTIVE unless its last action is an exit of all that is held |
| Quantity.QuantityConserved | apps/bot/workers/trading_pipeline.py:1096-1128 | when fills never exceed their requests, quantity stays non-negative over any run and equals the initial quantity minus everything closed |
| Quantity.ClosedEmptyIff | apps/bot/workers/trading_pipeline.py:1111-1128 | a close that ends in CLOSED leaves nothing if and only if the exchange was flat or the fill was everything held |
| Quantity.EvaluateRequests | packages/position/position_manager.py:86-256 | an evaluation never changes the quantity and never requests more than is held |
| Bookings.RunBooks | apps/bot/workers/trading_pipeline.py:1096-1128 | over any run the quantity falls by what the answers to its orders take, and realized result and fees grow by what each answer brings: the value reported, or price against entry for the quantity filled; on a flat exchange stop or quote against entry for the quantity held |
| Bookings.LiveConserves | apps/bot/workers/trading_pipeline.py:1111-1128 | without reported values, realized plus open result at any mark changes over any run by exactly what each closed unit sold above the mark |
| Bookings.CloseSettles | apps/bot/workers/trading_pipeline.py:1111-1128 | an answer settles a position, with its reason, if and only if the exchange is flat or something is filled that was to be all or is all that was held |
| Bookings.FundingAsks | apps/bot/workers/trading_pipeline.py:977-1046 | the funding guard's reduction asks for half of what is held |
| Bookings.CommandAsks | apps/bot/workers/trading_pipeline.py:951-975 | an operator close asks for its percentage of what is held, at most all, and for all exactly from 100 on |
| Bookings.CommandLaw | apps/bot/workers/trading_pipeline.py:951-975 | it runs if and only if the percentage is positive and an open position of the bot holds something, and its fill closes the position exactly when all was asked for or nothing is left |
| GeneralRules.ScenarioTestLaw | packages/position/position_manager.py:1497-1544 | the scenario is broken by a five-minute close beyond the EMA, by closes beyond the breakout level on two candles running, or by a heavy counter candle, and the streak of closes counts each candle once |
| GeneralRules.ScenarioLaw | packages/position/position_manager.py:1293-1391 | what a broken scenario asks and what is remembered: the last cycle of a countdown gives the position up below half an R; otherwise half is sold once, except in a retest's grace, for a mild retest, or for a scout not confirmed by a second candle; the countdown starts at three and starts again when a position sold down before is found broken |
| GeneralRules.StagnationLaw | packages/position/position_manager.py:1546-1707 | a position that stands still gets the first rule of its entry mode's table that applies, notices once, and a tightened stop half way to the entry |
| GeneralRules.PlainDecision | packages/position/position_manager.py:86-256 | an evaluation under ordinary management decides in this order: the partial profit with its fraction, the trailing exit, what the scenario asks, what stagnation asks, at most a move of the stop |
| RunnerRules.HoldingLimitIff | packages/position/position_manager.py:108-111 | every managed position is given up as held too long exactly when it has been open for the maximum number of minutes |
| RunnerRules.JudgedLaw | packages/position/position_manager.py:443-569 | a trend is weak when it weakens, has not come far enough or does not hold, very strong only with more R and five points more of RSI, with the reason of the first test that fails |
| RunnerRules.StrengthLaw | packages/position/position_manager.py:348-437 | a runner takes the judged strength, or keeps its own while a downgrade has not been seen on enough distinct bars, and says so exactly when it changes |
| RunnerRules.RunnerDecision | packages/position/position_manager.py:182-209 | a runner takes a profit still due, exits by its trailing stop or by a broken five-minute trend or level, in this order, and otherwise moves its stop at most |
| RunnerRules.ActivationIff | packages/position/position_manager.py:286-315 | a position enters runner mode exactly when runners are enabled for it, its partial profit is done, something is left and the best R suffices, with the judged strength |
| RunnerRules.EntersIff | apps/bot/workers/trading_pipeline.py:1013-1034 | carrying out an action makes a runner exactly when it is a partial profit filled for something but not for all that was held, under those conditions |
| MarketTests.CounterCandleIff | packages/position/position_manager.py:546-569 | the counter candle in prices: volume 1.5, a body of at least 0.55 of the range against the side, and a close within a quarter of the range of the losing end |
| MarketTests.CatastrophicIff | packages/position/position_manager.py:990-1023 | the same for the catastrophic candle, with its configured measures, a fifth of the range and a move in ATRs |
| ScoutRules.PendingLaw | packages/position/position_manager.py:799-871 | a pending scout: a warning at an opposite candle, a reduction at any weakness after the grace bars, otherwise the stagnation rules; neither once the reductions are used up |
| ScoutRules.WatchLaw | packages/position/position_manager.py:741-871 | a catastrophic candle sells down at once; a warned scout recovers, waits out its warning and holding bars, and is then sold down |
| ScoutRules.ProbationDecision | packages/position/position_manager.py:658-872 | an evaluation on probation is confirmation by a close beyond the box on volume near the winning end, or that watching; ordinary management follows only a conversion |
| Mirror.EvaluateMirror | packages/position/position_manager.py:86-256 | with RSI thresholds symmetric about 50, reflecting prices to c-p and RSI to 100-RSI and flipping the side makes one evaluation emit the reflected actions and reach the reflected position and tracking |
| Mirror.ActivateMirror | packages/position/position_manager.py:273-345 | the same for the runner activation after a partial take-profit |
| Mirror.CloseMirror | apps/bot/workers/trading_pipeline.py:1096-1170 | reflected fills close the reflected position with the same profit, fees and status |
| MirrorRuns.MirrorRun | packages/position/position_manager.py:86-256 | whole runs of cycles and closes are symmetric, with or without a stop in place: reflected position, tracking and action log, as long as no step finds the stop exactly on zero or on its reflection |
| MirrorRuns.StopInPlaceIsEdgeFree | packages/position/position_manager.py:1206-1249 | with a stop in place and non-negative trailing distances no run ever meets those edges |
| MirrorRuns.MarketIsEdgeFree | packages/indicators/indicator_engine.py:121-181 | nor does any market run |
| Mirror.EdgeBreaksTightening | packages/position/position_manager.py:1703-1707 | a stop at exactly zero is tightened asymmetrically |
| MirrorRuns.MirrorMarketRun | packages/indicators/indicator_engine.py:121-181 | the symmetry from raw candles on: indicators computed on a reflected market drive the reflected position through the reflected run |
| Market.ReflectedMetrics | packages/entry/candle_metrics.py:37-55 | a reflected candle has the same range and body, exchanged wicks, and its close measured from the other end |
| IndicatorEngine.EmaSeries | packages/indicators/indicator_engine.py:17-26 | the accumulating loop computes, or nothing for a bad period or too few values, a series that starts at the mean of the first n values and moves two (n+1)-ths of the way to each next one |
| IndicatorEngine.Rsi | packages/indicators/indicator_engine.py:29-47 | the loops split the moves into gains and losses, average both by Wilder's rule n·next = (n-1)·average + new, and return the gains' share of all movement in percent, 50 without any |
| IndicatorEngine.Atr | packages/indicators/indicator_engine.py:63-71 | the loop averages by Wilder's rule the largest of each candle's range and its ends' distances from the last close |
| IndicatorEngine.EmaBounded | packages/indicators/indicator_engine.py:17-26 | every EMA lies between any bounds of its inputs |
| IndicatorEngine.RsiBounded | packages/indicators/indicator_engine.py:29-47 | every RSI lies in [0, 100] |
| IndicatorLaws.EmaIsWeightedSum | packages/indicators/indicator_engine.py:17-26 | the i-th EMA is the mean of the first n values weighted ratio^i plus the later values with geometrically falling weights, for the ratio (n-1)/(n+1) |
| IndicatorLaws.SnapshotLaw | packages/indicators/indicator_engine.py:74-181 | every figure of a snapshot satisfies its equation over the candles and is absent exactly without enough data; the snapshot is valid exactly when what entries need is there |
| IndicatorReflection.EmaSeriesReflect | packages/indicators/indicator_engine.py:17-26 | the EMA series of reflected closes is the reflected series, element by element |
| IndicatorReflection.RsiReflect | packages/indicators/indicator_engine.py:29-47 | the RSI of reflected closes is 100 minus the RSI, the zero-gain and zero-loss cases included |
| IndicatorReflection.AtrReflect | packages/indicators/indicator_engine.py:50-71 | the ATR of reflected candles is the same |
| IndicatorReflection.SwingReflect | packages/indicators/indicator_engine.py:85-96 | swing high and low change places |
| IndicatorReflection.SnapshotReflect | packages/indicators/indicator_engine.py:121-181 | a whole snapshot reflects, an empty one included: levels mirrored, slope negated, RSI complemented, ATR, volume ratio and validity unchanged |
| PositionManager.PositionManager.EvaluatePosition | packages/position/position_manager.py:86-256 | the method on the mutable position and the per-symbol registries does exactly what the rules specify and leaves other symbols' tracking alone; the management laws say what the rules are |
| PositionManager.PositionManager.ActivateRunnerAfterPartialTp | packages/position/position_manager.py:273-345 | the same for the runner activation |
| PositionManager.PositionManager.ScoutManagementAction | packages/position/position_manager.py:658-872 | the same for scout management |
| PositionManager.PositionManager.ScenarioAction | packages/position/position_manager.py:1293-1391 | the same for the scenario recovery countdown |
| PositionManager.PositionManager.StagnationAction | packages/position/position_manager.py:1546-1702 | the same for stagnation, with its once-per-position notices |
| RuntimeState.EndUndoesBegin | apps/bot/runtime/runtime_state.py:77-87 | ending an in-flight update restores the registry exactly |
| RuntimeState.CountsInFlight | apps/bot/runtime/runtime_state.py:77-97 | over any interleaving of bracketed updates of any symbols the registry holds exactly the number still in flight |
| TradingService.TradingService.ManagePosition | apps/bot/workers/trading_pipeline.py:977-1046 | the cycle on the mutable position equals the specified cycle and leaves no in-flight mark behind |
| TradingService.TradingService.ApplyAll | apps/bot/workers/trading_pipeline.py:985-1046 | the loop applies the actions in order, actions caused by a partial fill included |
| TradingService.TradingService.Close | apps/bot/workers/trading_pipeline.py:1096-1170 | a close on the mutable position is the specified one, whose bookings `Bookings.RunBooks` and whose settling `Bookings.CloseSettles` state |
| TradingService.TradingService.CloseByCommand | apps/bot/workers/trading_pipeline.py:951-975 | an operator close runs exactly for a managed open position and a positive clamped percentage |
| PaperEngine.FillConserves | packages/execution/paper_execution_engine.py:65-89 | any fill, adding, reducing or crossing through zero, changes realized plus unrealized profit by its signed quantity times mark minus price |
| PaperEngine.ReduceKeepsAverage | packages/execution/paper_execution_engine.py:65-89 | a reduction keeps the average price, realizes the move on the reduced quantity, and a full one leaves the symbol flat |
| PaperEngine.CrossingRestarts | packages/execution/paper_execution_engine.py:65-89 | opening and adding realize nothing; crossing through zero realizes all that was held and starts again at the fill's price |
| PaperEngine.LedgerTheorem | packages/execution/paper_execution_engine.py:56-111 | for any order sequence on any symbols every order is filled at the book's price plus slippage with the percentage fee, and equity is what every signed quantity earned from its fill price to the mark, minus the fees |
| PaperEngine.LedgerFromStart | packages/execution/paper_execution_engine.py:39-111 | from a fresh engine the same sum is added to the initial balance |
| PaperEngine.PaperExecutionEngine.ExecuteMarket | packages/execution/paper_execution_engine.py:56-63 | the object's market order is the specified ledger step |
| PaperEngine.PaperExecutionEngine.Wallet | packages/execution/paper_execution_engine.py:99-111 | the accumulating loop returns the ledger's equity |
| Pnl.ComputePnl | packages/pnl/calculator.py:27-47 | the loop returns the totals over all positions and their net |
| Pnl.TotalsUpdate | packages/pnl/calculator.py:27-47 | replacing one position changes each total by exactly that position's difference |
| PaperBooks.ThreeBooksAgree | packages/execution/paper_execution_engine.py:65-111 | after any opens, reductions and closes every open position is its symbol's net and equity minus the initial balance is the net PnL over all positions ever opened |
| PaperBooks.OpenAgrees | apps/bot/workers/trading_pipeline.py:101-112 | an entry keeps the three books in agreement |
| PaperBooks.CloseAgrees | apps/bot/workers/trading_pipeline.py:114-128 | a partial or full close keeps them in agreement |
| PaperBooks.EntryAtMarket | apps/bot/workers/trading_pipeline.py:101-112 | an entry buys at the ask or sells at the bid, slippage on top, and is booked with that price and its fee |
| PaperBooks.ExitAtMarket | apps/bot/workers/trading_pipeline.py:114-128 | a close sells at the bid or buys back at the ask, slippage on top |
| PaperBooks.EntryForgets | apps/bot/workers/trading_pipeline.py:818 | an entry moves the published figure away from the wallet by exactly what the symbol's current record has realized after fees; an exact figure stays exact if and only if that is zero |
| PaperBooks.CloseForgetsNothing | apps/bot/workers/trading_pipeline.py:1111-1128 | a close never moves the published figure away from the wallet |
| PaperSessions.ManageForgetsNothing | apps/bot/workers/trading_pipeline.py:977-1046 | nor does a management cycle |
| PaperSessions.FigureMissesForgotten | apps/bot/runtime/bot_runtime.py:487-500 | over any session the published figure misses the wallet's change by exactly what the records overwritten at each entry had realized after fees |
| PaperBooks.RegistryPnlExact | apps/bot/runtime/bot_runtime.py:487-500 | so it equals the wallet's if and only if the overwritten records net to zero altogether |
| PaperBooks.RegistryForgetsLosses | apps/bot/runtime/bot_runtime.py:487-500 | a three-order session loses 10 in the wallet while the registry's figure is 0 |
| PaperTrading.PaperTrading.OpenPosition | apps/bot/workers/trading_pipeline.py:101-112 | the entry on engine and position objects is the specified step of the books |
| PaperTrading.PaperTrading.CloseQty | apps/bot/workers/trading_pipeline.py:114-118 | the close on engine and position objects is the specified step of the books |
| PaperCycles.PaperManageAgrees | apps/bot/workers/trading_pipeline.py:977-1046 | a whole management cycle, every order of it executed by the engine, keeps the three books in agreement |
| PaperSessions.SessionBooksAgree | apps/bot/workers/trading_pipeline.py:951-1128 | after any interleaving of entries, management cycles and operator closes, the engine's nets are the open positions, CLOSED positions hold nothing, and equity minus the initial balance is the net PnL over all positions |
| Rounding.QtyIsLargestMultiple | packages/universe/symbol_meta.py:14-19 | a floored quantity is the largest multiple of the step that fits |
| Rounding.QtyRoundingIsStable | packages/execution/order_manager.py:472-486 | rounding a rounded quantity again changes nothing, for any sign and step |
| Rounding.StopRoundsOutward | packages/risk/risk_manager.py:344-353 | a rounded stop is on the tick grid and moved away from entry by less than a tick |
| Rounding.PriceRoundsNearest | packages/universe/symbol_meta.py:22-27 | nearest-tick rounding is on the grid, off by at most half a tick, and takes a tie away from zero |
| Sizing.SizeIsLargestFit | packages/risk/position_sizing.py:31-65 | the size is the largest step multiple whose notional fits min(max(risk notional, target), cap) |
| Sizing.SizeStaysUnder | packages/risk/position_sizing.py:31-65 | for any step the notional stays under the chosen one, and a non-positive chosen notional never sizes a positive order |
| Sizing.RiskWithinOneStep | packages/risk/position_sizing.py:31-65 | without target and cap the risk taken lies within one step of equity times risk percentage times fraction, and not above it |
| Sizing.SizedIff | packages/risk/position_sizing.py:41-45 | sizing is refused exactly for a non-positive entry or a stop on the entry |
| Sizing.SizeReports | packages/risk/position_sizing.py:31-65 | the reported notional, risk and stop distance are those of the quantity |
| Sizing.MaxLeverage | packages/risk/leverage.py:19-46 | the method returns the least cap that applies, or the floor when that is higher |
| Sizing.LeastFundingLeverage | packages/risk/leverage.py:49-57 | the chosen leverage funds the notional and is the least integer at or above min_leverage that does, whenever the cap funds it |
| RiskManager.MinDistanceStopPrice | packages/risk/risk_manager.py:282-318 | the candidate list and its scan return the widest rounded minimum-distance stop, or none |
| RiskManager.StopsOnlyWiden | packages/risk/risk_manager.py:87-97 | the approved stop is on the grid, no nearer entry than the unrounded ATR stop, the enabled structure stop and both minimum distances, and within a tick of one of them, for both sides |
| RiskManager.ApprovalIsFunded | packages/risk/risk_manager.py:111-231 | an approval has a positive quantity meeting the minimum and stable under re-rounding; its equity is positive if and only if the leverage cap is, as any positive min_leverage makes it, and then its leverage is the least integer at or above min_leverage that funds it |
| RiskManager.ApprovalPrices | packages/risk/risk_manager.py:213-231 | liquidation lies beyond the stop under the guard, the stop is on the losing side of entry if and only if one of its candidates rounds there, and the take-profit is within half a tick of its target; `ApprovalLaws.ApprovalLaw` fixes the three prices |
| RiskManager.LiquidationBeyondStopBeyondEntry | packages/risk/risk_manager.py:492-497 | with a non-negative ATR multiple and the guard on, an approved LONG has liquidation below stop below entry and a SHORT the mirror image, at the liquidation price of `ApprovalLaws.GuardedLoss` |
| RiskManager.ApprovalKeepsLimits | packages/risk/risk_manager.py:120-199 | opening what was approved keeps the position count, the per-side counts and one position per symbol, and keeps the total open risk within its share of a positive equity |
| ApprovalLaws.ApprovalLaw | packages/risk/risk_manager.py:66-254 | for every case there is an order whose stop, leverage cap, size, leverage and liquidation price satisfy the stated relations, and the answer is the first check that order fails, in the order of the checks, or else that order with its take-profit |
| ApprovalLaws.GuardedLoss | packages/risk/levels.py:38-54 | at the liquidation price an approved order loses its margin less half a percent of its notional; under the inside-stop guard its stop loses strictly less, and that is the approved risk |
| FillLevels.FillNeverNarrows | apps/bot/workers/trading_pipeline.py:331-411 | after the fill the risk per unit is the distance to the effective stop and at least the planned one; a re-derived stop exceeds it by less than a tick and the take-profit is within half a tick of r times that risk ahead of the fill |
| FillLevels.StopFromRiskDistance | apps/bot/workers/trading_pipeline.py:412-428 | the re-derived stop is on the grid, on the losing side of the fill, and at the planned distance up to a tick |
| FillLevels.ProtectiveIff | apps/bot/workers/trading_pipeline.py:331-411 | the effective stop is on the losing side of the fill if and only if the fill has not run past the stop by the planned risk or more |
| FillLevels.FilledPastTheStop | apps/bot/workers/trading_pipeline.py:331-411 | a long planned at 100 with a stop at 95 and filled at 90 keeps its stop at 95 |
| FillLevels.ApprovedRiskAfterFill | apps/bot/workers/trading_pipeline.py:773-786 | the money an approved order has at risk once filled is at least what was approved, and less than one tick per unit more when re-derived |
| OrderManager.Resolve | packages/execution/order_manager.py:342-407 | the polling loop polls an order that still works, outside IOC, until its time to live is over, stops at the first poll that shows it done or gone, and returns the last reading; all polls but the last two fit, one interval each, into the time to live |
| OrderManager.OrderManager.Place | packages/execution/order_manager.py:285-329 | an order is sent at most twice, twice exactly when it timed out and is not open; a normal return restores the reservations exactly, a raise after sending leaves one behind; the reported fill stays within the rounded quantity |
| OrderManager.PartialExitReport | packages/execution/order_manager.py:250-282 | the reported fill is the sum of both rounded legs within the request, the status matches it, and the reported price values it correctly if and only if the legs do not mix prices |
| OrderManager.ExitReport | packages/execution/order_manager.py:224-248 | a market exit reports what was filled, as all of it exactly when the order is FILLED or covers the request |
| BotStateMachine.BotStateMachine.Transition | apps/bot/runtime/bot_state_machine.py:140-153 | the state moves exactly when the table permits it or it is already there |
| BotStateMachine.TableReachesRunningIff | apps/bot/runtime/bot_state_machine.py:25-93 | over any number of moves the table leads back to RUNNING from exactly the states short of EMERGENCY_STOP, STOPPING and STOPPED, and to STOPPING from all but STOPPED |
| BotRuntime.LockedForGood | apps/bot/runtime/bot_runtime.py:349-365 | from RISK_LOCKED, ORDER_LOCKED, EMERGENCY_STOP, STOPPING or STOPPED no interleaving, forced moves included, leaves those states |
| BotRuntime.RunsCoherent | apps/bot/runtime/bot_runtime.py:588-609 | over any interleaving transient states are never observed at an await, each suspended coroutine matches the state it left, and at most one recovery may restore RUNNING |
| BotRuntime.RunningNeedsStart | apps/bot/runtime/bot_runtime.py:1131-1147 | over any interleaving from boot, RUNNING, PAUSED and RECONCILING come only after a START handled in STANDBY whose reconciliation then completed in SYNCING |
| BotRuntime.ReachesRunningIff | apps/bot/runtime/bot_runtime.py:1108-1147 | some interleaving reaches RUNNING if and only if the state is STANDBY, PAUSED or RUNNING, or a startup, START or recovery is still there to finish |
| BotRuntime.EntriesNeedStart | apps/bot/runtime/bot_state_machine.py:167-169 | the entry gate is closed in every run before its START was confirmed and ever after a lock |
| BotRuntime.TripLocks | apps/bot/runtime/bot_runtime.py:1308-1325 | a kill switch that trips in RUNNING leads to RISK_LOCKED and no continuation enters again; in any other state it changes nothing |
| BotRuntime.ProtectionLocks | apps/bot/workers/trading_pipeline.py:523-539 | a failed protection leads from every world to its target, and nothing enters again |
| BotRuntime.ShutdownCloses | apps/bot/runtime/bot_runtime.py:349-365 | the first shutdown after startup leads to STOPPING, its end to STOPPED, and nothing enters from its beginning on; a second one while it waits changes nothing |
| BotRuntime.PauseHolds | apps/bot/runtime/bot_runtime.py:1114-1119 | a pause in RUNNING closes the gate until a RESUME, which restores the world exactly; in other states both do nothing |
| BotRuntime.RecoveryDecides | apps/bot/runtime/bot_runtime.py:588-609 | a lost connection closes the gate; the recovery that found RUNNING restores the world exactly, or, when its reconciliation fails, nothing ever enters again |
| BotRuntime.StartupDecides | apps/bot/runtime/bot_runtime.py:299-305 | startup ends in STANDBY, or leaves a bot that never enters |
| BotRuntime.StartDecides | apps/bot/runtime/bot_runtime.py:1131-1147 | a START in STANDBY waits in SYNCING; its reconciliation opens the gate, or, when it fails, nothing ever enters |
| BotRuntime.BotRuntime.FinishStartup | apps/bot/runtime/bot_runtime.py:299-305 | startup reaches STANDBY from BOOTING, or leaves the state when it raised |
| BotRuntime.BotRuntime.PauseTrading | apps/bot/runtime/bot_runtime.py:1114-1116 | a pause takes RUNNING to PAUSED and leaves any other state alone |
| BotRuntime.BotRuntime.ResumeTrading | apps/bot/runtime/bot_runtime.py:1117-1119 | a resume takes PAUSED to RUNNING and leaves any other state alone |
| BotRuntime.BotRuntime.StartTrading | apps/bot/runtime/bot_runtime.py:1131-1147 | the first half of a START takes an idle STANDBY to SYNCING and leaves any other state alone |
| BotRuntime.BotRuntime.FinishStart | apps/bot/runtime/bot_runtime.py:1140-1147 | the second half takes a waiting SYNCING to RUNNING, or leaves the state when the reconciliation raised |
| BotRuntime.BotRuntime.BeginWsRecovery | apps/bot/runtime/bot_runtime.py:588-609 | the recovery up to its await takes RUNNING to RECONCILING and leaves any other state alone |
| BotRuntime.BotRuntime.FinishWsRecovery | apps/bot/runtime/bot_runtime.py:605-609 | the recovery after its await takes RECONCILING to RUNNING exactly when it found RUNNING and did not raise |
| BotRuntime.BotRuntime.ApplyKillSwitchTrip | apps/bot/runtime/bot_runtime.py:1308-1325 | a tripped switch takes the state machine from RUNNING to RISK_LOCKED and leaves it alone in any other state |
| BotRuntime.BotRuntime.TransitionAfterProtectionFailure | apps/bot/workers/trading_pipeline.py:523-539 | a protection failure reaches its lock state from every state, by force where the table refuses |
| BotRuntime.BotRuntime.MayEnter | apps/bot/runtime/bot_state_machine.py:167-169 | the gate on the object is the one the theorem speaks of |
| BotRuntime.BotRuntime.BeginShutdown | apps/bot/runtime/bot_runtime.py:349-358 | once startup is over, the first shutdown takes every state but STOPPED to STOPPING |
| BotRuntime.BotRuntime.FinishShutdown | apps/bot/runtime/bot_runtime.py:358-365 | shutdown ends in STOPPED by force |
| Reconciliation.PassConverges | packages/reconciliation/reconciliation_manager.py:95-135 | one pass brings a symbol in step with the exchange if and only if it is not settling, is adopted when unknown, and is not flattened by its resync, where those apply |
| Reconciliation.ReportsIff | packages/reconciliation/reconciliation_manager.py:95-135 | a pass reports a symbol exactly when it is out of step, not settling and not an adopted position |
| Reconciliation.ReportedIff | packages/reconciliation/reconciliation_manager.py:95-135 | every symbol, known to the bot or to the exchange, is reported under exactly its own kind |
| Reconciliation.InStepIsQuiet | packages/reconciliation/reconciliation_manager.py:113-126 | a symbol in step is never reported and only its live fields are refreshed |
| Reconciliation.ReconciliationConverges | packages/reconciliation/reconciliation_manager.py:95-135 | one pass leaves exactly the exchange's symbols open with equal sizes if and only if every symbol was resolvable |
| Reconciliation.SecondPassIsQuiet | packages/reconciliation/reconciliation_manager.py:95-135 | once in step, a further pass with any settings reports nothing and later passes change nothing at all |
| Reconciliation.SettlingBlocks | packages/reconciliation/reconciliation_manager.py:101-135 | while a symbol is settling no number of passes changes or reports a bot position that is unknown, mismatched or gone from the exchange |
| Reconciliation.SideAgreesIff | packages/reconciliation/reconciliation_manager.py:111-115 | an open symbol ends up on the exchange's side if and only if it was adopted or already agreed |
| Reconciliation.PassWrites | packages/reconciliation/manual_intervention_handler.py:59-308 | what a pass writes, case by case: the adoption, the new size with what was added by hand, and the close of a vanished position booked from its stop or entry with the reason of the protection taken to have closed it; a settling symbol is left alone |
| OrderReconciliation.SecondReconcileIsQuiet | packages/reconciliation/reconciliation_manager.py:160-180 | after one full pass over resolvable positions a second one reports no position, cancels no order and finds no foreign order, and the state is a fixed point from then on |
| OrderReconciliation.ClassifyStable | packages/reconciliation/reconciliation_manager.py:176-240 | an order left open is recognised by every later pass |
| OrderReconciliation.ProtectionUnwindsIff | packages/reconciliation/reconciliation_manager.py:209-228 | among trigger orders on an open position of the bot, protection is exactly the orders whose fill takes the position towards zero and not past it, and without two sizes to compare the side decides |
| OrderReconciliation.BotOrderIff | packages/reconciliation/reconciliation_manager.py:202-207 | the bot's own orders are those whose id begins with one of its four marks |
| OrderReconciliation.TriggerIff | packages/reconciliation/reconciliation_manager.py:230-241 | joining the markers makes no trigger of two that are none: an order looks like one exactly when it has a trigger price or one marker names one by itself |
| OrderReconciliation.LowerIgnoresCase | packages/reconciliation/reconciliation_manager.py:233-237 | markers are compared in lower case: letters are shifted, everything else stays |
| OrderReconciliation.ClassifyLaw | packages/reconciliation/reconciliation_manager.py:160-228 | only the bot's own leftovers are cancelled, and an unknown order without the bot's marks is foreign exactly when it would not protect an open position of the bot |
| ReconciliationManager.ReconciliationManager.ReconcilePositions | packages/reconciliation/reconciliation_manager.py:95-135 | the two loops over the registry do exactly one specified pass and report exactly the specified symbols |
| ReconciliationManager.ReconciliationManager.ReconcileOrders | packages/reconciliation/reconciliation_manager.py:160-174 | the loop cancels, skips or registers each open order as classified, in order |
| ReconciliationManager.ReconciliationManager.ReconcileOnce | packages/reconciliation/reconciliation_manager.py:74-93 | a cycle is the specified pass over positions, then orders |
| ReconciliationManager.ReconciliationManager.ReconcileTwice | packages/reconciliation/reconciliation_manager.py:74-93 | two cycles over one snapshot leave the registry in step and the second result unchanged |
| RateLimit.GrantsArePaid | packages/guards/rate_limit.py:35-50 | grants plus tokens left never exceed the tokens at the start plus the refill, and tokens stay in [0, capacity] |
| RateLimit.WindowBound | packages/guards/rate_limit.py:35-50 | any window of attempts sees at most capacity plus rate times its length grants |
| RateLimit.AttemptExact | packages/guards/rate_limit.py:35-50 | an attempt is granted exactly when the capacity and the tokens with what has accrued hold a whole token, and takes exactly one |
| RateLimit.EveryTokenCounts | packages/guards/rate_limit.py:35-50 | over any attempts, grants plus tokens left plus tokens spilled at a full bucket equal the tokens at the start plus rate times the time |
| RateLimit.OneSleepSuffices | packages/guards/rate_limit.py:41-50 | after sleeping for the deficit the next attempt is granted if and only if the capacity holds a whole token |
| RateLimit.RateLimiter.Acquire | packages/guards/rate_limit.py:41-50 | with room for a whole token the loop is granted within two turns, one sleep apart, at the stated time; without it no number of turns is enough |
| RuntimeLock.MutualExclusion | packages/messaging/runtime_lock.py:52-74 | over any interleaving of any number of instances at most one is within its ttl of its last success while it believes it holds the lock |
| RuntimeLock.NextExclusive | packages/messaging/runtime_lock.py:52-74 | each step keeps a holder's lease the key itself until it runs out |
| RuntimeLock.FreshIsExclusive | packages/messaging/runtime_lock.py:36-46 | instances that have not acquired anything satisfy the invariant |
| RuntimeLock.OthersUntouched | packages/messaging/runtime_lock.py:17-32 | refresh and release never change another token's key, and acquire replaces one only once expired |
| RuntimeLock.AcquireIff | packages/messaging/runtime_lock.py:52-58 | an acquire succeeds exactly when no lease is live |
| RuntimeLock.HolderDecides | packages/messaging/runtime_lock.py:60-74 | a holder's refresh prolongs its lease from now; its release frees the key for whoever acquires next |
| RuntimeLock.StaleLearns | packages/messaging/runtime_lock.py:60-74 | a believer whose lease is gone learns it at its next refresh or release and touches nobody's key |
| RuntimeLock.BeliefsOverlapIff | packages/messaging/runtime_lock.py:48-74 | a step leaves at most one believer if and only if it is not an acquire that finds no live lease while another instance still believes |
| RuntimeLock.BeliefExclusiveIff | packages/messaging/runtime_lock.py:48-74 | a run keeps the belief exclusive throughout if and only if no step overtakes |
| RuntimeLock.OvertakenIsStale | packages/messaging/runtime_lock.py:48-74 | whoever is overtaken is past its ttl |
| RuntimeLock.BeliefsMayOverlap | packages/messaging/runtime_lock.py:48-50 | a stalled instance and its successor both believe they hold the lock |
| RuntimeLock.AcquireTwiceForgets | packages/messaging/runtime_lock.py:52-74 | an owner that acquires again is refused and can neither refresh nor release until expiry |
| RuntimeLock.RuntimeLock.Refresh | packages/messaging/runtime_lock.py:60-68 | the refresh on client and server objects is its specified step |
| RuntimeLock.RuntimeLock.Release | packages/messaging/runtime_lock.py:70-74 | the release on client and server objects is its specified step |
| CandleStore.ReplayIsBatch | packages/market_data/candle_store.py:42-77 | replaying any stream, corrections and stale candles included, onto a seeded history gives the history and gap count of seeding the whole record |
| CandleStore.IncrementalIsBatch | packages/market_data/candle_store.py:42-77 | from empty, the history is strictly increasing and at most max long, and an increasing confirmed stream gives exactly its batch |
| CandleStore.NewestIsLast | packages/market_data/candle_store.py:54-77 | whatever a stream brings, the record ends with the newest candle it confirmed: corrections replace, late candles are ignored |
| CandleStore.PastIsFixed | packages/market_data/candle_store.py:54-77 | no later candle changes what came before the last entry |
| CandleStore.GapFormula | packages/market_data/candle_store.py:30-40 | in a step-aligned record the gap count is (last-first)/step minus (n-1) |
| CandleStore.GapTime | packages/market_data/candle_store.py:30-40 | each gap stands for one interval of minutes between the ends that no candle fills |
| CandleStore.InProgressIs | packages/market_data/candle_store.py:42-52 | seeding keeps the last candle in progress, if there is one |
| CandleStore.GapsAgreeIff | packages/market_data/candle_store.py:42-77 | the incremental and the batch gap counts agree on every increasing confirmed stream if and only if the capacity is at least one |
| CandleStore.ZeroCapacityMissesGaps | packages/market_data/candle_store.py:54-77 | with a capacity of zero the two counts differ, for any step |
| CandleStore.StaysAheadIff | packages/market_data/candle_store.py:54-77 | an update leaves the in-progress candle newer than the history if and only if it is not itself an in-progress candle at or behind the last confirmed one, and a confirmed candle takes away only one that it reaches |
| CandleStore.CandleStore.Seed | packages/market_data/candle_store.py:42-52 | seeding replaces one key's series with the batch and touches no other key |
| CandleStore.CandleStore.Update | packages/market_data/candle_store.py:54-77 | an update is the specified step of one key's series and touches no other key |
| CandleStore.CandleStore.CountGapsOf | packages/market_data/candle_store.py:30-40 | the accumulator loop counts the missing candles |
| Scanner.BatchHasNoRepeats | apps/bot/runtime/bot_runtime.py:889-897 | a refresh batch contains no candidate twice |
| Scanner.RoundRobinCovers | apps/bot/runtime/bot_runtime.py:889-897 | for a stable list, k calls with k times size at least n refresh every candidate from any cursor |
| Scanner.CoversIff | apps/bot/runtime/bot_runtime.py:889-897 | and only then |
| Scanner.Scanner.RefreshBatch | apps/bot/runtime/bot_runtime.py:889-897 | the method returns the candidates from the cursor on, wrapping around, as many as the budget (at least one) and the list allow, and advances the cursor by as many |

## Left out

- StopDiscipline.StopNeverLoosens: starts from a stop on the losing side of entry, or from
  a position that has already gained half an R or is a runner; a restored position
  without its tracking need not satisfy this.
- Trailing.TrailingLaw: where the stop is left is stated for evaluations that ask for nothing
  else; a retest that never gained half an R may be tightened instead, as
  `GeneralRules.StagnationLaw` says.
- Exits.GivenUpInTime: for a position off probation, not a runner, and due no partial profit
  at the cycles counted; a runner leaves the countdown, as in the original.
- Exits.ExitSettlesIff: an executor that raises, other than to say the exchange is flat,
  leaves the cycle; the position is then CLOSING as after an unfilled exit. Reconciliation
  closes it once the exchange no longer reports it.
- Lifecycle.RunSpends: budgets are counted from the tracking the run starts with. Tracking
  is kept by symbol and survives a close (`packages/position/position_manager.py:59-71`);
  fresh tracking gives the full budgets.
- MirrorRuns.MirrorRun: prices and extremes lie strictly between zero and c, and no step finds
  the stop exactly on zero or c, because the code treats a zero price as absent.
  `atr_percent` of a snapshot is not mirrored; management does not read it.
- Quantity.QuantityConserved: assumes fills within requests and configured fractions within
  [0, 1].
- TradingService.TradingService.Close: a LIVE full exit that fills partially is still marked
  CLOSED (`apps/bot/workers/trading_pipeline.py:1125`), so "CLOSED holds nothing" is
  claimed for PAPER sessions only; `Quantity.ClosedEmptyIff` is the exact condition.
- OrderManager.PartialExitReport: the two orders' results are parameters, each within its
  rounded quantity as `OrderManager.OrderManager.Place` guarantees, and FILLED only in full.
- OrderManager.OrderManager.Place: failures while recording an order in the trade log are not
  modelled; entry placement with its reorder attempts is not either.
- RateLimit.RateLimiter.Acquire: the number of turns after which the caller gives up is a
  parameter; the original loops until it is cancelled.
- BotRuntime.ReachesRunningIff: the command loop is taken to handle one command at a time
  and shutdown to cancel it, as `run` and `shutdown` arrange.
- ReconciliationManager.ReconciliationManager.ReconcilePositions: positions are values in the
  registry map, so aliasing with other holders of the same object is not captured; reports
  are sets, not lists in dictionary order; one pass uses one snapshot, and interleavings
  with order placement inside a pass are represented only by the settling set.
- OrderReconciliation.SecondReconcileIsQuiet: cancelling a stale order is assumed to remove it
  from the exchange.
- Management events are kept as their kind and reason; payload dictionaries, log lines and
  stop metadata are not modelled.
- Decimal's 28-digit context rounding and the parsing of float settings: exact reals instead.
- `bybit_gateway.py`: the exchange is an oracle.
- Entry scoring, anti-chase thresholds and candidate ranking: tuning with single-branch facts.
- `with_backoff`: a retry counter around a call.
- Restart: positions restored from the database, and the loss of in-memory tracking.
- The pause window for new entries, the kill switch's counters and the clock guard.
- FastAPI, SQLAlchemy persistence, pub/sub, the WebSocket stream and the React front end.
