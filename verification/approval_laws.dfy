/** approve as a reader would state it: an order is described by the relations its stop,
    leverage cap, size, leverage and liquidation price satisfy, and the decision by the
    first check the order fails. */
module ApprovalLaws {
  import opened Common
  import opened Levels
  import opened PositionModel
  import opened RealFacts
  import opened Rounding
  import opened Sizing
  import opened RiskManager

  /** What one decision asks for under the current account. */
  datatype Case = Case(c: RiskConfig, d: Decision, ctx: Context, meta: SymbolMeta, entry: real, atr: real)
  {
    function Side(): Side {
      match d.direction
      case LongSignal => Long
      case _ => Short
    }

    /** How far a price lies behind the entry for this side. */
    function Below(price: real): real {
      match d.direction
      case LongSignal => entry - price
      case _ => price - entry
    }
  }

  /** The numbers of the order under consideration. */
  datatype Order = Order(stop: real, cap: int, riskNotional: real, notional: real, qty: real, leverage: int, liq: real)

  // ---- the stop ----

  /** The larger of the general and the mode's minimum distance is `percent`. */
  predicate IsMinPercent(c: StopConfig, mode: EntryMode, percent: real) {
    var own := match mode
      case PreBreakoutScout => c.scoutMinPercent
      case BreakoutConfirm => c.breakoutMinPercent
      case RetestConfirm => c.retestMinPercent;
    percent in {c.minPercent, own} && percent >= c.minPercent && percent >= own
  }

  /** The structure stop counts for a mode when it is enabled at all, for that mode, and
      scouts and retests are not opted out. */
  predicate StructureCounts(c: StopConfig, mode: EntryMode) {
    c.structureEnabled && mode in c.structureModes
    && !(mode.PreBreakoutScout? && !c.structureForScout) && !(mode.RetestConfirm? && !c.structureForRetest)
  }

  /** x lies the minimum percentage, if there is one, behind the entry. */
  ghost predicate AtMinPercent(k: Case, x: real) {
    exists p :: IsMinPercent(k.c.stops, k.d.mode, p) && p > 0.0 && k.Below(x) * 100.0 == k.entry * p
  }

  /** The unrounded prices the stop has to respect: stop_atr ATRs behind the entry, a
      structure stop that counts, and the minimum distances in percent and in ATRs. */
  ghost predicate IsBound(k: Case, x: real) {
    var c := k.c.stops;
    || k.Below(x) == k.atr * k.d.stopAtr
    || (StructureCounts(c, k.d.mode) && k.d.structureStop == Some(x))
    || AtMinPercent(k, x)
    || (k.d.mode.PreBreakoutScout? && c.scoutMinAtr > 0.0 && k.Below(x) == k.atr * c.scoutMinAtr)
  }

  /** The nearest price on the tick grid that respects every bound. */
  ghost predicate IsStop(k: Case, stop: real) {
    && OnGrid(stop, k.meta.tick)
    && (forall x :: IsBound(k, x) ==> k.Below(stop) >= k.Below(x))
    && (exists x :: IsBound(k, x)
          && if k.meta.tick > 0.0 then k.Below(stop) < k.Below(x) + k.meta.tick else stop == x)
  }

  // ---- the size ----

  function Value(k: Case, qty: real): real {
    qty * k.entry
  }

  /** What the quantity loses between the entry and the stop. */
  function AtRisk(k: Case, stop: real, qty: real): real {
    qty * Abs(k.entry - stop)
  }

  predicate TopScore(k: Case) {
    k.c.target.enabled && k.d.score >= k.c.target.highQualityScore
  }

  /** The percentage of the equity the order should reach; nothing to reach at zero or less. */
  function WantedPercent(k: Case): real {
    var t := k.c.target;
    if !t.enabled then 0.0
    else
      var own := match (k.d.mode, k.d.compression)
        case (PreBreakoutScout, true) => t.scoutCompression
        case (PreBreakoutScout, false) => t.scout
        case (BreakoutConfirm, _) => t.breakout
        case (RetestConfirm, _) => t.retest;
      if TopScore(k) && own < t.highQuality then t.highQuality else own
  }

  /** A rule caps the leverage at m. */
  predicate CapApplies(k: Case, m: int) {
    var c := k.c.leverage;
    || (TopScore(k) && m == c.highQualityMax)
    || (!TopScore(k) && m == match k.d.mode
                             case PreBreakoutScout => c.scoutMax
                             case BreakoutConfirm => c.breakoutMax
                             case RetestConfirm => c.retestMax)
    || (k.atr * 100.0 > c.highAtrPercent * k.entry && m == c.highAtrMax)
    || (k.ctx.losses >= c.lossCount && m == c.lossMax)
    || (k.ctx.dailyLoss >= c.dailyLossPercent && m == c.dailyLossMax)
  }

  /** A stop close enough for the thin-stop rule, when that rule is set. */
  predicate ThinStop(k: Case, stop: real) {
    k.c.thinPercent > 0.0 && k.c.thinMaxLeverage > 0 && Abs(k.entry - stop) * 100.0 <= k.c.thinPercent * k.entry
  }

  /** The least cap that applies, but no less than the minimum leverage; a thin stop caps
      even below that. */
  ghost predicate IsCap(k: Case, stop: real, cap: int) {
    exists least ::
      && CapApplies(k, least) && (forall m :: CapApplies(k, m) ==> least <= m)
      && var floor := if least < k.c.leverage.minLeverage then k.c.leverage.minLeverage else least;
         cap == if ThinStop(k, stop) && k.c.thinMaxLeverage < floor then k.c.thinMaxLeverage else floor
  }

  /** The notional that loses the decision's share of the risk budget at the stop. */
  predicate IsRiskNotional(k: Case, stop: real, n: real) {
    n * Abs(k.entry - stop) * 100.0 == k.ctx.equity * k.c.account.riskPercent * k.d.fraction * k.entry
  }

  /** n is the larger of the risk notional and, if any, a hundredth of `wanted`, but no more
      than what can be funded. */
  predicate IsLimited(risk: real, wants: bool, wanted: real, funded: real, n: real) {
    && n <= funded && (n <= risk || (wants && n * 100.0 <= wanted))
    && (n == funded || (n >= risk && (wants ==> n * 100.0 >= wanted)))
  }

  predicate IsNotional(k: Case, cap: int, risk: real, n: real) {
    IsLimited(risk, WantedPercent(k) > 0.0, k.ctx.equity * WantedPercent(k), cap as real * k.ctx.equity, n)
  }

  /** The quantity of the largest number of whole steps towards the notional. */
  ghost predicate IsSize(k: Case, n: real, qty: real) {
    && OnGrid(qty, k.meta.step)
    && if k.meta.step <= 0.0 then qty * k.entry == n
       else if n >= 0.0 then 0.0 <= qty * k.entry <= n < (qty + k.meta.step) * k.entry
       else (qty - k.meta.step) * k.entry < n <= qty * k.entry <= 0.0
  }

  // ---- leverage and liquidation ----

  predicate Funded(k: Case, qty: real, leverage: int) {
    Value(k, qty) <= leverage as real * k.ctx.equity
  }

  /** The least leverage from the minimum on that funds the quantity. */
  ghost predicate IsLeverage(k: Case, qty: real, leverage: int) {
    var least := k.c.leverage.minLeverage;
    if k.ctx.equity <= 0.0 then leverage == least
    else
      && leverage >= least && Funded(k, qty, leverage)
      && forall n: int :: n >= least && Funded(k, qty, n) ==> leverage <= n
  }

  /** At the liquidation price the loss has eaten the margin posted, less half a percent of
      the notional; a leverage of zero or less counts as one. */
  predicate IsLiquidation(k: Case, leverage: int, liq: real) {
    var lev := if leverage > 0 then leverage else 1;
    k.Below(liq) * lev as real == k.entry * (1.0 - 0.005 * lev as real)
  }

  ghost predicate IsOrder(k: Case, o: Order) {
    && IsStop(k, o.stop) && IsCap(k, o.stop, o.cap)
    && (o.stop != k.entry ==>
          && IsRiskNotional(k, o.stop, o.riskNotional)
          && IsNotional(k, o.cap, o.riskNotional, o.notional)
          && IsSize(k, o.notional, o.qty)
          && (o.qty > 0.0 ==> IsLeverage(k, o.qty, o.leverage)))
    && IsLiquidation(k, o.leverage, o.liq)
  }

  // ---- the decision ----

  /** The widest stop a mode allows, in ATRs, is exceeded. */
  predicate TooWide(k: Case, distance: real) {
    var c := k.c.stops;
    match k.d.mode
    case PreBreakoutScout => distance > c.scoutMaxAtr * k.atr
    case BreakoutConfirm => distance > c.maxAtr * k.atr
    case RetestConfirm =>
      distance > c.retestMaxAtr * k.atr || (StructureCounts(c, RetestConfirm) && distance > c.structureMaxAtr * k.atr)
  }

  /** The risk is more than a percentage of the equity (with both signs turned for a
      negative equity). */
  predicate Exceeds(k: Case, risk: real, percent: real) {
    if k.ctx.equity > 0.0 then risk * 100.0 > percent * k.ctx.equity else risk * 100.0 < percent * k.ctx.equity
  }

  predicate Fails(k: Case, o: Order, x: Reject) {
    var c, distance, risk := k.c, Abs(k.entry - o.stop), AtRisk(k, o.stop, o.qty);
    match x
    case InvalidMarketData => k.atr <= 0.0 || k.entry <= 0.0
    case StopDistanceTooNarrow => distance < c.stops.minAtr * k.atr
    case StopDistanceTooWide => TooWide(k, distance)
    case DailyLossLimit => k.ctx.dailyLoss >= c.account.dailyMaxLoss
    case IntradayDrawdown => k.ctx.drawdown >= c.account.maxDrawdown
    case MaxPositions => |k.ctx.open| >= c.account.maxPositions
    case SymbolAlreadyOpen => exists p :: p in k.ctx.open && p.symbol == k.d.symbol
    case MaxSameDirection => OnSide(k.ctx.open, k.Side()) >= c.account.maxSameDirection
    case InvalidEntryPrice => false
    case ZeroStopDistance => o.stop == k.entry
    case BelowMinQty => o.qty <= 0.0 || o.qty < k.meta.minQty
    case BelowMinNotional => k.meta.minNotional > 0.0 && Value(k, o.qty) < k.meta.minNotional
    case SymbolRiskExceeded => Exceeds(k, risk, c.account.maxSymbolRisk)
    case TotalRiskExceeded => Exceeds(k, OpenRisk(k.ctx.open) + risk, c.account.maxTotalRisk)
    case LiqTooClosePct => Abs(o.liq - k.entry) * 100.0 < c.minLiqPercent * k.entry
    case LiqTooCloseAtr => Abs(o.liq - k.entry) < c.minLiqAtr * k.atr
    case LiqInsideStop => c.blockLiqInsideStop && k.Below(o.liq) <= k.Below(o.stop)
  }

  /** The order in which the checks are made. */
  function Rank(x: Reject): nat {
    match x
    case InvalidMarketData => 0
    case StopDistanceTooNarrow => 1
    case StopDistanceTooWide => 2
    case DailyLossLimit => 3
    case IntradayDrawdown => 4
    case MaxPositions => 5
    case SymbolAlreadyOpen => 6
    case MaxSameDirection => 7
    case InvalidEntryPrice => 8
    case ZeroStopDistance => 9
    case BelowMinQty => 10
    case BelowMinNotional => 11
    case SymbolRiskExceeded => 12
    case TotalRiskExceeded => 13
    case LiqTooClosePct => 14
    case LiqTooCloseAtr => 15
    case LiqInsideStop => 16
  }

  /** The nearest tick, a tie going away from zero. */
  ghost predicate IsNearest(tick: real, price: real, p: real) {
    && OnGrid(p, tick)
    && if tick <= 0.0 then p == price
       else Abs(p - price) <= tick / 2.0 && (Abs(p - price) == tick / 2.0 ==> Abs(p) > Abs(price))
  }

  /** As many risks ahead of the entry as configured, to the nearest tick. */
  ghost predicate IsTakeProfit(k: Case, stop: real, tp: real) {
    exists x :: -k.Below(x) == k.c.takeProfitR * k.Below(stop) && IsNearest(k.meta.tick, x, tp)
  }

  /** The decision is the first check that fails, and an approval carries the order. */
  ghost predicate Decides(k: Case, o: Order, result: Result<Approval, Reject>) {
    match result
    case Err(x) => Fails(k, o, x) && forall y :: Rank(y) < Rank(x) ==> !Fails(k, o, y)
    case Ok(a) =>
      && (forall y :: !Fails(k, o, y))
      && a == Approval(k.Side(), o.qty, o.leverage, Value(k, o.qty), o.stop, a.takeProfit, o.liq,
                       AtRisk(k, o.stop, o.qty))
      && IsTakeProfit(k, o.stop, a.takeProfit)
  }

  // ---- the model's order satisfies the relations ----

  function ModelCap(k: Case): int
    requires k.entry > 0.0
  {
    LeverageCap(k.c, k.d, k.ctx, k.entry, k.atr, ModelStop(k))
  }

  function ModelStop(k: Case): real {
    ChosenStop(k.c.stops, k.d, k.entry, k.atr, k.meta.tick)
  }

  lemma PercentBound(k: Case, x: real)
    ensures var percent := MinStopPercent(k.c.stops, k.d.mode);
            AtMinPercent(k, x) <==> percent > 0.0 && x == PercentStopPrice(k.entry, percent, SideOf(k.d))
  {
    var percent := MinStopPercent(k.c.stops, k.d.mode);
    assert IsMinPercent(k.c.stops, k.d.mode, percent);
    assert forall p :: IsMinPercent(k.c.stops, k.d.mode, p) ==> p == percent;
    hide IsMinPercent, MinStopPercent;
    PercentPlaces(k, percent, x);
    hide PercentStopPrice;
  }

  lemma PercentPlaces(k: Case, percent: real, x: real)
    ensures x == PercentStopPrice(k.entry, percent, SideOf(k.d)) <==> k.Below(x) * 100.0 == k.entry * percent
  {
  }

  lemma AtrPlaces(k: Case, n: real, x: real)
    ensures x == StopLossPrice(k.entry, k.atr, n, SideOf(k.d)) <==> k.Below(x) == k.atr * n
  {
  }

  lemma BoundIff(k: Case, x: real)
    ensures x in StopRaws(k.c.stops, k.d, k.entry, k.atr) <==> IsBound(k, x)
  {
    PercentBound(k, x);
    AtrPlaces(k, k.d.stopAtr, x);
    AtrPlaces(k, k.c.stops.scoutMinAtr, x);
    hide PercentStopPrice, StopLossPrice, MinStopPercent, AtMinPercent;
  }

  lemma StopLaw(k: Case)
    ensures IsStop(k, ModelStop(k))
  {
    var raws, side, tick := StopRaws(k.c.stops, k.d, k.entry, k.atr), SideOf(k.d), k.meta.tick;
    var stop := ModelStop(k);
    ChosenStopIsWidest(k.c.stops, k.d, k.entry, k.atr, tick);
    hide ChosenStop, StopRaws, RoundStopToTick, OnGrid, IsBound;
    var w :| w in raws && stop == RoundStopToTick(w, side, tick);
    BoundIff(k, w);
    StopRoundsOutward(w, side, tick);
    forall x | IsBound(k, x) ensures k.Below(stop) >= k.Below(x) {
      BoundIff(k, x);
      StopRoundsOutward(x, side, tick);
    }
  }

  /** Comparing a ratio is comparing the products. */
  lemma RatioLess(x: real, d: real, m: real)
    requires d > 0.0
    ensures x / d < m <==> x < m * d
    ensures x / d > m <==> x > m * d
    ensures x / d * 100.0 < m <==> x * 100.0 < m * d
    ensures x / d * 100.0 > m <==> x * 100.0 > m * d
  {
    DivideMultiply(x, d);
    ScaleOrder(x / d, m, d);
    ScaleOrder(m, x / d, d);
    ScaleOrder(x / d * 100.0, m, d);
    ScaleOrder(m, x / d * 100.0, d);
    assert x / d * 100.0 * d == x * 100.0;
  }

  lemma HighAtr(k: Case)
    requires k.entry > 0.0
    ensures k.atr / k.entry * 100.0 > k.c.leverage.highAtrPercent <==>
            k.atr * 100.0 > k.c.leverage.highAtrPercent * k.entry
  {
    RatioLess(k.atr, k.entry, k.c.leverage.highAtrPercent);
  }

  function LeastCap(k: Case): int
    requires k.entry > 0.0
  {
    LowestCap(k.c.leverage, k.d.mode, Some(k.atr / k.entry * 100.0), k.ctx.losses, k.ctx.dailyLoss,
              HighQuality(k.c.target, k.d))
  }

  lemma LeastCapLaw(k: Case)
    requires k.entry > 0.0
    ensures CapApplies(k, LeastCap(k)) && forall m :: CapApplies(k, m) ==> LeastCap(k) <= m
  {
    HighAtr(k);
  }

  lemma ThinLaw(k: Case, stop: real)
    requires k.entry > 0.0
    ensures ThinStopCap(k.c, Abs(k.entry - stop) / k.entry * 100.0)
            == if ThinStop(k, stop) then Some(k.c.thinMaxLeverage) else None
  {
    RatioLess(Abs(k.entry - stop), k.entry, k.c.thinPercent);
  }

  lemma CapLaw(k: Case)
    requires k.entry > 0.0
    ensures IsCap(k, ModelStop(k), ModelCap(k))
  {
    LeastCapLaw(k);
    ThinLaw(k, ModelStop(k));
    var floor := MaxInt(k.c.leverage.minLeverage, LeastCap(k));
    assert ModelCap(k) == if ThinStop(k, ModelStop(k)) && k.c.thinMaxLeverage < floor then k.c.thinMaxLeverage
                          else floor;
    hide ModelStop, CapApplies, LeastCap, ThinStop, ModelCap;
  }

  function ModelRequest(k: Case): SizingRequest
    requires k.entry > 0.0
  {
    Request(k.c, k.d, k.ctx, k.entry, ModelStop(k), k.meta.step, ModelCap(k))
  }

  /** Budget over distance, times the entry. */
  lemma RiskNotionalLaw(k: Case)
    requires k.entry > 0.0 && ModelStop(k) != k.entry
    ensures IsRiskNotional(k, ModelStop(k),
                           NotionalForRisk(Budget(ModelRequest(k)), Abs(k.entry - ModelStop(k)), k.entry))
  {
    hide ModelCap, ModelStop;
    var r, d := ModelRequest(k), Abs(k.entry - ModelStop(k));
    BudgetIs(r);
    NotionalTimes(Budget(r), d, k.entry);
    hide NotionalForRisk, Budget;
    Associate(Budget(r), k.entry, 100.0);
    assert Budget(r) * k.entry * 100.0 == Budget(r) * 100.0 * k.entry;
  }

  lemma NotionalTimes(budget: real, d: real, entry: real)
    requires entry > 0.0 && d > 0.0
    ensures NotionalForRisk(budget, d, entry) * d == budget * entry
  {
    var n := NotionalForRisk(budget, d, entry);
    UnitsForBudget(budget, d, entry);
    DivideMultiply(n, entry);
    hide NotionalForRisk;
    var units := budget / d;
    assert n * d == units * d * entry by { Swapped(units, entry, d); }
  }

  lemma Swapped(a: real, b: real, c: real)
    ensures a * b * c == a * c * b
  {
  }

  lemma WantedLaw(k: Case)
    ensures TargetPercent(k.c.target, k.d) == if WantedPercent(k) > 0.0 then Some(WantedPercent(k)) else None
  {
  }

  lemma NotionalLaw(k: Case)
    requires k.entry > 0.0 && ModelStop(k) != k.entry
    ensures var r := ModelRequest(k);
            IsNotional(k, ModelCap(k), NotionalForRisk(Budget(r), Abs(k.entry - ModelStop(k)), k.entry),
                       ChosenNotional(r))
  {
    hide *;
    RequestLaw(k);
    ChosenUnfolds(ModelRequest(k));
    AbsPositive(k.entry - ModelStop(k));
    LimitLaw(k, ModelCap(k), NotionalForRisk(Budget(ModelRequest(k)), Abs(k.entry - ModelStop(k)), k.entry));
  }

  lemma AbsPositive(x: real)
    requires x != 0.0
    ensures Abs(x) > 0.0
  {
  }

  lemma ChosenUnfolds(r: SizingRequest)
    requires r.entry > 0.0 && r.stop != r.entry
    ensures ChosenNotional(r)
            == LimitNotional(NotionalForRisk(Budget(r), Abs(r.entry - r.stop), r.entry), r.target, r.cap)
  {
    hide LimitNotional, NotionalForRisk, Budget;
  }

  lemma RequestLaw(k: Case)
    requires k.entry > 0.0
    ensures var r := ModelRequest(k);
            && r.entry == k.entry && r.stop == ModelStop(k) && r.cap == Some(Multiple(ModelCap(k), k.ctx.equity))
            && r.target == WantedNotional(k)
  {
    hide ModelCap, ModelStop, WantedPercent, TargetPercent, PercentOf, Multiple;
    WantedLaw(k);
  }

  function WantedNotional(k: Case): Option<real> {
    if WantedPercent(k) > 0.0 then Some(PercentOf(k.ctx.equity, WantedPercent(k))) else None
  }

  lemma LimitLaw(k: Case, cap: int, risk: real)
    ensures IsNotional(k, cap, risk, LimitNotional(risk, WantedNotional(k), Some(Multiple(cap, k.ctx.equity))))
  {
    LimitIs(risk, WantedPercent(k) > 0.0, k.ctx.equity * WantedPercent(k), cap as real * k.ctx.equity);
  }

  lemma LimitIs(risk: real, wants: bool, wanted: real, funded: real)
    ensures IsLimited(risk, wants, wanted, funded,
                      LimitNotional(risk, if wants then Some(wanted / 100.0) else None, Some(funded)))
  {
  }

  lemma SizeLaw(k: Case, n: real)
    requires k.entry > 0.0
    ensures IsSize(k, n, RoundQtyDown(n / k.entry, k.meta.step))
  {
    DivideMultiply(n, k.entry);
    if k.meta.step > 0.0 {
      if n >= 0.0 {
        SizeUp(n, k.entry, k.meta.step);
      } else {
        SizeDown(n, k.entry, k.meta.step);
      }
      hide RoundQtyDown, OnGrid;
    }
  }

  lemma SizeUp(n: real, entry: real, step: real)
    requires entry > 0.0 && step > 0.0 && n >= 0.0
    ensures var qty := RoundQtyDown(n / entry, step);
            OnGrid(qty, step) && 0.0 <= qty * entry <= n < (qty + step) * entry
  {
    hide RoundQtyDown, OnGrid;
    var x := n / entry;
    DivideMultiply(n, entry);
    QuotientSign(n, entry);
    QtyIsLargestMultiple(x, step);
    SizeTimes(RoundQtyDown(x, step), x, step, entry);
  }

  lemma SizeDown(n: real, entry: real, step: real)
    requires entry > 0.0 && step > 0.0 && n < 0.0
    ensures var qty := RoundQtyDown(n / entry, step);
            OnGrid(qty, step) && (qty - step) * entry < n <= qty * entry <= 0.0
  {
    hide RoundQtyDown, OnGrid;
    var qty, up := RoundQtyDown(n / entry, step), RoundQtyDown(-n / entry, step);
    SizeUp(-n, entry, step);
    NegateQuotient(n, entry);
    QtyRoundingIsOdd(n / entry, step);
    assert qty == -up;
    GridNegates(up, step);
    NegateProduct(up, entry);
    assert (qty - step) * entry == -((up + step) * entry);
  }

  lemma SizeTimes(qty: real, x: real, step: real, entry: real)
    requires entry > 0.0 && 0.0 <= qty <= x < qty + step
    ensures 0.0 <= qty * entry <= x * entry < (qty + step) * entry
  {
    ProductSign(qty, entry);
    MultiplyMonotone(qty, x, entry);
    ProductPositive(qty + step - x, entry);
  }

  lemma GridNegates(x: real, step: real)
    requires OnGrid(x, step)
    ensures OnGrid(-x, step)
  {
    if step > 0.0 {
      var n: int :| x == Multiple(n, step);
      Negated(n, step);
    }
  }

  lemma LiquidationLaw(k: Case, leverage: int)
    ensures IsLiquidation(k, leverage, EstimateLiqPrice(k.entry, leverage, SideOf(k.d)))
  {
    var lev := (if leverage <= 0 then 1 else leverage) as real;
    DivideMultiply(1.0, lev);
    LiquidationTimes(k.entry, 1.0 / lev, lev);
  }

  lemma LiquidationTimes(entry: real, inv: real, lev: real)
    requires inv * lev == 1.0
    ensures (entry - entry * (1.0 - inv + 0.005)) * lev == entry * (1.0 - 0.005 * lev)
    ensures (entry * (1.0 + inv - 0.005) - entry) * lev == entry * (1.0 - 0.005 * lev)
  {
    assert entry - entry * (1.0 - inv + 0.005) == entry * (inv - 0.005);
    assert entry * (1.0 + inv - 0.005) - entry == entry * (inv - 0.005);
    Associate(entry, inv - 0.005, lev);
  }

  function ModelSize(k: Case): SizingResult
    requires k.entry > 0.0 && ModelStop(k) != k.entry
  {
    ComputeSize(ModelRequest(k)).value
  }

  /** The order approve works out. */
  function ModelOrder(k: Case): Order
    requires k.entry > 0.0
  {
    var stop, cap, least := ModelStop(k), ModelCap(k), k.c.leverage.minLeverage;
    if stop == k.entry then Order(stop, cap, 0.0, 0.0, 0.0, least, EstimateLiqPrice(k.entry, least, SideOf(k.d)))
    else
      var size, r := ModelSize(k), ModelRequest(k);
      var leverage := ChooseLeverage(size.notional, k.ctx.equity, cap, least);
      Order(stop, cap, NotionalForRisk(Budget(r), Abs(k.entry - stop), k.entry), ChosenNotional(r), size.qty, leverage,
            EstimateLiqPrice(k.entry, leverage, SideOf(k.d)))
  }

  lemma FundedIff(k: Case, qty: real, n: int)
    ensures Funded(k, qty, n) <==> Funds(n, k.ctx.equity, Value(k, qty))
  {
  }

  lemma SizeUnfolds(k: Case, r: SizingRequest)
    requires r.entry > 0.0 && r.stop != r.entry && r.entry == k.entry
    ensures var size := ComputeSize(r);
            size.Ok? && size.value.qty == RoundQtyDown(ChosenNotional(r) / r.entry, r.step)
            && size.value.notional == Value(k, size.value.qty)
            && size.value.riskUsdt == AtRisk(k, r.stop, size.value.qty)
  {
    hide RoundQtyDown, ChosenNotional;
  }

  lemma SizeIsSize(k: Case)
    requires k.entry > 0.0 && ModelStop(k) != k.entry
    ensures IsSize(k, ChosenNotional(ModelRequest(k)), ModelSize(k).qty)
  {
    RequestLaw(k);
    SizeUnfolds(k, ModelRequest(k));
    SizeLaw(k, ChosenNotional(ModelRequest(k)));
    hide RoundQtyDown, ChosenNotional, IsSize, ComputeSize, ModelRequest;
  }

  /** A positive size means an equity that is not zero, and a cap that funds it. */
  lemma SizeIsFunded(k: Case)
    requires k.entry > 0.0 && ModelStop(k) != k.entry && ModelSize(k).qty > 0.0
    ensures k.ctx.equity != 0.0 && Funds(ModelCap(k), k.ctx.equity, ModelSize(k).notional)
  {
    RequestLaw(k);
    hide ModelCap, ModelStop, ModelRequest, ComputeSize, Funds;
    SizedEquity(ModelRequest(k), ModelCap(k));
  }

  lemma LeastFunds(k: Case, qty: real, notional: real, cap: int)
    requires notional == Value(k, qty)
    requires k.ctx.equity > 0.0 ==> Funds(cap, k.ctx.equity, notional)
    ensures IsLeverage(k, qty, ChooseLeverage(notional, k.ctx.equity, cap, k.c.leverage.minLeverage))
  {
    hide Funds, Funded, Value;
    var least, equity := k.c.leverage.minLeverage, k.ctx.equity;
    var leverage := ChooseLeverage(notional, equity, cap, least);
    if equity > 0.0 {
      LeastFundingLeverage(notional, equity, cap, least);
      hide ChooseLeverage;
      FundedIff(k, qty, leverage);
      forall n: int | n >= least && Funded(k, qty, n) ensures leverage <= n {
        FundedIff(k, qty, n);
      }
    }
  }

  lemma LeverageLaw(k: Case)
    requires k.entry > 0.0 && ModelStop(k) != k.entry && ModelSize(k).qty > 0.0
    ensures IsLeverage(k, ModelSize(k).qty,
                       ChooseLeverage(ModelSize(k).notional, k.ctx.equity, ModelCap(k), k.c.leverage.minLeverage))
  {
    SizeIsFunded(k);
    SizeIsWorth(k);
    hide *;
    LeastFunds(k, ModelSize(k).qty, ModelSize(k).notional, ModelCap(k));
  }

  lemma SizeIsWorth(k: Case)
    requires k.entry > 0.0 && ModelStop(k) != k.entry
    ensures ModelSize(k).notional == Value(k, ModelSize(k).qty)
    ensures ModelSize(k).riskUsdt == AtRisk(k, ModelStop(k), ModelSize(k).qty)
  {
    RequestLaw(k);
    SizeUnfolds(k, ModelRequest(k));
    hide RoundQtyDown, ChosenNotional, ComputeSize, ModelRequest, ModelCap, ModelStop, Value, AtRisk;
  }

  lemma OrderLaw(k: Case)
    requires k.entry > 0.0
    ensures IsOrder(k, ModelOrder(k))
  {
    var o := ModelOrder(k);
    StopLaw(k);
    CapLaw(k);
    LiquidationLaw(k, o.leverage);
    if o.stop != k.entry {
      RiskNotionalLaw(k);
      NotionalLaw(k);
      SizeIsSize(k);
      if o.qty > 0.0 {
        LeverageLaw(k);
      }
    }
    hide IsStop, IsCap, IsRiskNotional, IsNotional, IsSize, IsLeverage, IsLiquidation, EstimateLiqPrice, ModelStop,
         ModelCap, ModelRequest, ModelSize, ChosenNotional, ChooseLeverage, NotionalForRisk;
  }

  // ---- the checks in turn ----

  /** `block` is the first of the checks from `lo` up to `hi` that fails, if one does. */
  ghost predicate FirstFailing(k: Case, o: Order, lo: nat, hi: nat, block: Option<Reject>) {
    match block
    case None => forall x :: lo <= Rank(x) < hi ==> !Fails(k, o, x)
    case Some(x) => lo <= Rank(x) < hi && Fails(k, o, x) && forall y :: lo <= Rank(y) < Rank(x) ==> !Fails(k, o, y)
  }

  lemma StopGuardLaw(k: Case, distance: real)
    requires k.entry > 0.0 && k.atr > 0.0
    ensures StopGuard(k.c.stops, k.d.mode, distance, k.atr)
            == if distance < k.c.stops.minAtr * k.atr then Some(StopDistanceTooNarrow)
               else if TooWide(k, distance) then Some(StopDistanceTooWide) else None
  {
    RatioLess(distance, k.atr, k.c.stops.minAtr);
    RatioLess(distance, k.atr, MaxStopAtr(k.c.stops, k.d.mode));
    WideLaw(k, distance);
    hide MaxStopAtr, TooWide;
  }

  lemma StopChecks(k: Case, o: Order)
    requires k.entry > 0.0 && k.atr > 0.0
    ensures FirstFailing(k, o, 0, 3, StopGuard(k.c.stops, k.d.mode, Abs(k.entry - o.stop), k.atr))
  {
    StopGuardLaw(k, Abs(k.entry - o.stop));
    hide StopGuard, TooWide, Abs;
  }

  lemma WideLaw(k: Case, distance: real)
    requires k.atr > 0.0
    ensures distance > MaxStopAtr(k.c.stops, k.d.mode) * k.atr <==> TooWide(k, distance)
  {
    var c := k.c.stops;
    RatioLess(distance, k.atr, c.retestMaxAtr);
    RatioLess(distance, k.atr, c.structureMaxAtr);
  }

  lemma AccountChecks(k: Case, o: Order)
    ensures FirstFailing(k, o, 3, 8, AccountBlock(k.c.account, k.d, k.ctx))
  {
    assert (exists i :: 0 <= i < |k.ctx.open| && k.ctx.open[i].symbol == k.d.symbol)
           <==> (exists p :: p in k.ctx.open && p.symbol == k.d.symbol);
    hide OnSide;
  }

  lemma SizeChecks(k: Case, o: Order)
    ensures FirstFailing(k, o, 10, 12, SizeBlock(k.meta, k.entry, o.qty))
  {
  }

  lemma ExceedsLaw(k: Case, risk: real, percent: real)
    requires k.ctx.equity != 0.0
    ensures risk / k.ctx.equity * 100.0 > percent <==> Exceeds(k, risk, percent)
  {
    var e := k.ctx.equity;
    if e > 0.0 {
      RatioLess(risk, e, percent);
    } else {
      RatioLess(-risk, -e, percent);
      SignsCancel(risk, e);
      NegateProduct(e, percent);
    }
  }

  lemma SignsCancel(x: real, d: real)
    requires d != 0.0
    ensures -x / -d == x / d
  {
    DivideMultiply(x, d);
    NegateProduct(d, x / d);
    DivideMultiply(-x, -d);
    CancelEqual(-x / -d, x / d, -d);
  }

  lemma ExposureChecks(k: Case, o: Order, risk: real)
    requires k.ctx.equity != 0.0 && risk == AtRisk(k, o.stop, o.qty)
    ensures FirstFailing(k, o, 12, 14, ExposureBlock(k.c.account, k.ctx, risk))
  {
    ExceedsLaw(k, risk, k.c.account.maxSymbolRisk);
    ExceedsLaw(k, OpenRisk(k.ctx.open) + risk, k.c.account.maxTotalRisk);
    hide Exceeds, OpenRisk, Abs, AtRisk;
  }

  lemma LiquidationChecks(k: Case, o: Order)
    requires k.entry > 0.0 && k.atr > 0.0
    ensures FirstFailing(k, o, 14, 17, LiqBlock(k.c, SideOf(k.d), k.entry, k.atr, o.liq, o.stop))
  {
    RatioLess(Abs(o.liq - k.entry), k.entry, k.c.minLiqPercent);
    RatioLess(Abs(o.liq - k.entry), k.atr, k.c.minLiqAtr);
    hide Abs;
  }

  lemma TakeProfitLaw(k: Case, stop: real)
    ensures IsTakeProfit(k, stop,
                         RoundPriceToTick(TakeProfitPrice(k.entry, stop, SideOf(k.d), k.c.takeProfitR), k.meta.tick))
  {
    var x := TakeProfitPrice(k.entry, stop, SideOf(k.d), k.c.takeProfitR);
    assert -k.Below(x) == k.c.takeProfitR * k.Below(stop);
    hide TakeProfitPrice;
    if k.meta.tick > 0.0 {
      PriceRoundsNearest(x, k.meta.tick);
    }
    assert IsNearest(k.meta.tick, x, RoundPriceToTick(x, k.meta.tick));
    hide RoundPriceToTick, IsNearest;
  }

  // ---- the decision, proved ----

  /** One check after another. */
  lemma ChecksJoin(k: Case, o: Order, lo: nat, mid: nat, hi: nat, a: Option<Reject>, b: Option<Reject>)
    requires lo <= mid <= hi && FirstFailing(k, o, lo, mid, a) && (a.None? ==> FirstFailing(k, o, mid, hi, b))
    ensures FirstFailing(k, o, lo, hi, if a.Some? then a else b)
  {
    hide Fails;
  }

  lemma FirstDecides(k: Case, o: Order, hi: nat, x: Reject)
    requires FirstFailing(k, o, 0, hi, Some(x))
    ensures Decides(k, o, Err(x))
  {
    hide Fails;
  }

  function StopBlock(k: Case): Option<Reject>
    requires k.entry > 0.0 && k.atr > 0.0
  {
    StopGuard(k.c.stops, k.d.mode, Abs(k.entry - ModelStop(k)), k.atr)
  }

  /** approve up to the sizing. */
  lemma EarlyUnfolds(k: Case)
    requires k.entry > 0.0 && k.atr > 0.0
    ensures var result := Approve(k.c, k.d, k.ctx, k.meta, k.entry, k.atr);
            var stops, account := StopBlock(k), AccountBlock(k.c.account, k.d, k.ctx);
            && (stops.Some? ==> result == Err(stops.value))
            && (stops.None? && account.Some? ==> result == Err(account.value))
            && (stops.None? && account.None? && ModelStop(k) == k.entry ==> result == Err(ZeroStopDistance))
  {
    hide StopGuard, AccountBlock, ChosenStop, LeverageCap, ApproveSized, ChosenNotional, SizeBlock;
  }

  /** approve from the sizing on. */
  lemma SizedUnfolds(k: Case)
    requires k.entry > 0.0 && k.atr > 0.0
    requires StopBlock(k).None? && AccountBlock(k.c.account, k.d, k.ctx).None? && ModelStop(k) != k.entry
    ensures var result := Approve(k.c, k.d, k.ctx, k.meta, k.entry, k.atr);
            var small := SizeBlock(k.meta, k.entry, ModelSize(k).qty);
            && (small.Some? ==> result == Err(small.value))
            && (small.None? ==>
                  && ModelSize(k).qty > 0.0 && k.ctx.equity != 0.0
                  && result == ApproveSized(k.c, k.ctx, k.meta, SideOf(k.d), k.entry, k.atr, ModelStop(k), ModelSize(k),
                                            ModelCap(k)))
  {
    RequestLaw(k);
    SizedIff(ModelRequest(k));
    if ModelSize(k).qty > 0.0 {
      SizeIsFunded(k);
    }
    hide StopGuard, AccountBlock, ChosenStop, LeverageCap, ApproveSized, ChosenNotional, ComputeSize, Request,
         WantedNotional;
  }

  /** The decision on a sized order. */
  lemma SizedDecides(k: Case)
    requires k.entry > 0.0 && k.atr > 0.0 && k.ctx.equity != 0.0 && ModelStop(k) != k.entry
    requires FirstFailing(k, ModelOrder(k), 0, 12, None)
    ensures Decides(k, ModelOrder(k),
                    ApproveSized(k.c, k.ctx, k.meta, SideOf(k.d), k.entry, k.atr, ModelStop(k), ModelSize(k),
                                 ModelCap(k)))
  {
    var o, size := ModelOrder(k), ModelSize(k);
    var exposed := ExposureBlock(k.c.account, k.ctx, size.riskUsdt);
    var close := LiqBlock(k.c, SideOf(k.d), k.entry, k.atr, o.liq, o.stop);
    SizeIsWorth(k);
    ExposureChecks(k, o, size.riskUsdt);
    LiquidationChecks(k, o);
    TakeProfitLaw(k, o.stop);
    hide ExposureBlock, LiqBlock, ModelStop, ModelSize, ModelCap, ModelRequest, ChooseLeverage, EstimateLiqPrice, Fails,
         TakeProfitPrice, RoundPriceToTick, IsTakeProfit, ChosenNotional, NotionalForRisk, Budget, Abs, FirstFailing,
         Value, AtRisk;
    ChecksJoin(k, o, 0, 12, 14, None, exposed);
    if exposed.Some? {
      FirstDecides(k, o, 14, exposed.value);
    } else {
      ChecksJoin(k, o, 0, 14, 17, None, close);
      if close.Some? {
        FirstDecides(k, o, 17, close.value);
      } else {
        NothingFails(k, o);
      }
    }
  }

  lemma NothingFails(k: Case, o: Order)
    requires FirstFailing(k, o, 0, 17, None)
    ensures forall x :: !Fails(k, o, x)
  {
    hide Fails;
    forall x ensures !Fails(k, o, x) {
      assert 0 <= Rank(x) < 17;
    }
  }

  /** approve decides by its order: whatever the market, account and settings, there is an
      order with the stop, the size, the leverage and the liquidation price described above,
      and the answer is the first check that order fails, or else the order itself. */
  lemma ApprovalLaw(k: Case) returns (o: Order)
    ensures k.entry > 0.0 && k.atr > 0.0 ==> IsOrder(k, o)
    ensures Decides(k, o, Approve(k.c, k.d, k.ctx, k.meta, k.entry, k.atr))
  {
    if k.entry <= 0.0 || k.atr <= 0.0 {
      o := Order(0.0, 0, 0.0, 0.0, 0.0, 0, 0.0);
      return;
    }
    o := ModelOrder(k);
    OrderLaw(k);
    OrderFields(k);
    var stops, account := StopBlock(k), AccountBlock(k.c.account, k.d, k.ctx);
    StopChecks(k, o);
    AccountChecks(k, o);
    EarlyUnfolds(k);
    hide *;
    if stops.Some? {
      FirstDecides(k, o, 3, stops.value);
      return;
    }
    ChecksJoin(k, o, 0, 3, 8, None, account);
    if account.Some? {
      FirstDecides(k, o, 8, account.value);
      return;
    }
    var zero := if o.stop == k.entry then Some(ZeroStopDistance) else None;
    ZeroCheck(k, o);
    ChecksJoin(k, o, 0, 8, 10, None, zero);
    if zero.Some? {
      FirstDecides(k, o, 10, ZeroStopDistance);
      return;
    }
    var small := SizeBlock(k.meta, k.entry, o.qty);
    SizedUnfolds(k);
    SizeChecks(k, o);
    ChecksJoin(k, o, 0, 10, 12, None, small);
    if small.Some? {
      FirstDecides(k, o, 12, small.value);
    } else {
      SizedDecides(k);
    }
  }

  lemma OrderFields(k: Case)
    requires k.entry > 0.0
    ensures ModelOrder(k).stop == ModelStop(k)
    ensures ModelStop(k) != k.entry ==> ModelOrder(k).qty == ModelSize(k).qty
  {
    hide ModelStop, ModelCap, ModelSize, ModelRequest, ChosenNotional, NotionalForRisk, Budget, EstimateLiqPrice;
  }

  lemma ZeroCheck(k: Case, o: Order)
    ensures FirstFailing(k, o, 8, 10, if o.stop == k.entry then Some(ZeroStopDistance) else None)
  {
  }

  // ---- what the liquidation guard buys ----

  function Lev(leverage: int): real {
    (if leverage > 0 then leverage else 1) as real
  }

  /** What is left of the margin, times the leverage, once half a percent of the notional is
      set aside. */
  function Spare(notional: real, leverage: int): real {
    notional * (1.0 - 0.005 * Lev(leverage))
  }

  /** What a quantity loses when the market reaches a price. */
  function LossAt(k: Case, qty: real, price: real): real {
    qty * k.Below(price)
  }

  lemma ApprovedFacts(k: Case)
    requires Approve(k.c, k.d, k.ctx, k.meta, k.entry, k.atr).Ok?
    ensures var a := Approve(k.c, k.d, k.ctx, k.meta, k.entry, k.atr).value;
            && k.entry > 0.0 && k.atr > 0.0 && a.qty > 0.0 && a.notional == Value(k, a.qty)
            && a.riskUsdt == AtRisk(k, a.stop, a.qty) && IsLiquidation(k, a.leverage, a.liq)
            && (k.c.blockLiqInsideStop ==> k.Below(a.stop) < k.Below(a.liq))
            && (k.d.stopAtr >= 0.0 ==> k.Below(a.stop) >= 0.0)
  {
    var a := Approve(k.c, k.d, k.ctx, k.meta, k.entry, k.atr).value;
    hide Approve, IsLiquidation, IsStop, IsCap, IsRiskNotional, IsNotional, IsSize, IsLeverage, Value, AtRisk, Abs,
         TooWide, Exceeds, IsTakeProfit;
    var o := ApprovalLaw(k);
    assert !Fails(k, o, BelowMinQty) && !Fails(k, o, LiqInsideStop) && !Fails(k, o, InvalidMarketData);
    if k.d.stopAtr >= 0.0 {
      StopBehind(k, o.stop);
    }
  }

  lemma StopBehind(k: Case, stop: real)
    requires IsStop(k, stop) && k.atr > 0.0 && k.d.stopAtr >= 0.0
    ensures k.Below(stop) >= 0.0
  {
    var x := StopLossPrice(k.entry, k.atr, k.d.stopAtr, SideOf(k.d));
    AtrPlaces(k, k.d.stopAtr, x);
    ProductSign(k.atr, k.d.stopAtr);
    assert IsBound(k, x);
    hide IsBound, StopLossPrice, OnGrid;
  }

  /** Liquidation takes an approved order's margin less half a percent of its notional (both
      times the leverage); under the inside-stop guard its stop loses strictly less, and with
      a non-negative ATR multiple that loss is the approved risk. */
  lemma GuardedLoss(k: Case)
    requires Approve(k.c, k.d, k.ctx, k.meta, k.entry, k.atr).Ok?
    ensures var a := Approve(k.c, k.d, k.ctx, k.meta, k.entry, k.atr).value;
            && LossAt(k, a.qty, a.liq) * Lev(a.leverage) == Spare(a.notional, a.leverage)
            && (k.c.blockLiqInsideStop ==> LossAt(k, a.qty, a.stop) * Lev(a.leverage) < Spare(a.notional, a.leverage))
            && (k.d.stopAtr >= 0.0 ==> a.riskUsdt == LossAt(k, a.qty, a.stop))
  {
    hide *;
    var a := Approve(k.c, k.d, k.ctx, k.meta, k.entry, k.atr).value;
    ApprovedFacts(k);
    LossTimes(k, a.qty, a.leverage, a.liq, a.stop);
    if k.d.stopAtr >= 0.0 {
      RiskIsLoss(k, a.qty, a.stop);
    }
  }

  lemma RiskIsLoss(k: Case, qty: real, stop: real)
    requires k.Below(stop) >= 0.0
    ensures AtRisk(k, stop, qty) == LossAt(k, qty, stop)
  {
  }

  lemma LossTimes(k: Case, qty: real, leverage: int, liq: real, price: real)
    requires qty > 0.0 && IsLiquidation(k, leverage, liq)
    ensures LossAt(k, qty, liq) * Lev(leverage) == Spare(Value(k, qty), leverage)
    ensures k.Below(price) < k.Below(liq) ==> LossAt(k, qty, price) * Lev(leverage) < Spare(Value(k, qty), leverage)
  {
    var lev, distance, stop := Lev(leverage), k.Below(liq), k.Below(price);
    Associate(qty, distance, lev);
    Associate(qty, k.entry, 1.0 - 0.005 * lev);
    if stop < distance {
      ProductPositive(qty, distance - stop);
      ProductPositive(qty * (distance - stop), lev);
      assert qty * (distance - stop) * lev == qty * distance * lev - qty * stop * lev;
    }
  }
}
