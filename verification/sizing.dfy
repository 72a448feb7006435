/** Position sizing and leverage: the largest step multiple that fits the chosen
    notional, and the least leverage that funds it. */
module Sizing {
  import opened Common
  import opened PositionModel
  import opened RealFacts
  import opened Rounding

  /** Why an order is refused (RiskRejection and the risk manager's reasons). */
  datatype Reject =
    | InvalidMarketData | StopDistanceTooNarrow | StopDistanceTooWide
    | DailyLossLimit | IntradayDrawdown | MaxPositions | SymbolAlreadyOpen | MaxSameDirection
    | InvalidEntryPrice | ZeroStopDistance | BelowMinQty | BelowMinNotional
    | SymbolRiskExceeded | TotalRiskExceeded
    | LiqTooClosePct | LiqTooCloseAtr | LiqInsideStop

  datatype SizingRequest = SizingRequest(
    equity: real, riskPercent: real, fraction: real, entry: real, stop: real, step: real,
    cap: Option<real>, target: Option<real>)

  datatype SizingResult = SizingResult(qty: real, notional: real, stopDistancePercent: real,
                                       riskUsdt: real)

  /** The money at risk that the request budgets for. */
  function Budget(r: SizingRequest): real {
    r.equity * r.riskPercent / 100.0 * r.fraction
  }

  /** The notional that loses `budget` over a move of `distance` from `entry`. */
  function NotionalForRisk(budget: real, distance: real, entry: real): real
    requires entry > 0.0 && distance > 0.0
  {
    QuotientPositive(distance, entry);
    budget / (distance / entry)
  }

  /** The larger of the risk notional and the target, held under the cap. */
  function LimitNotional(risk: real, target: Option<real>, cap: Option<real>): real {
    var lifted := if target.Some? && target.value > risk then target.value else risk;
    if cap.Some? && lifted > cap.value then cap.value else lifted
  }

  function ChosenNotional(r: SizingRequest): real
    requires r.entry > 0.0 && r.stop != r.entry
  {
    LimitNotional(NotionalForRisk(Budget(r), Abs(r.entry - r.stop), r.entry), r.target, r.cap)
  }

  /** compute_size. */
  function ComputeSize(r: SizingRequest): Result<SizingResult, Reject> {
    if r.entry <= 0.0 then Err(InvalidEntryPrice)
    else if Abs(r.entry - r.stop) <= 0.0 then Err(ZeroStopDistance)
    else
      var distance := Abs(r.entry - r.stop);
      var qty := RoundQtyDown(ChosenNotional(r) / r.entry, r.step);
      Ok(SizingResult(qty, qty * r.entry, distance / r.entry, qty * distance))
  }

  /** A request is refused exactly when its entry is not positive or its stop sits on it. */
  lemma SizedIff(r: SizingRequest)
    ensures ComputeSize(r).Ok? <==> r.entry > 0.0 && r.stop != r.entry
  {
  }

  /** What a size reports: the distance of its stop as a share of the entry, the notional of
      the quantity and what it loses at the stop. */
  lemma SizeReports(r: SizingRequest)
    requires ComputeSize(r).Ok?
    ensures var size := ComputeSize(r).value;
            && size.stopDistancePercent * r.entry == Abs(r.entry - r.stop)
            && size.notional == size.qty * r.entry && size.riskUsdt == size.qty * Abs(r.entry - r.stop)
  {
    DivideMultiply(Abs(r.entry - r.stop), r.entry);
    hide ChosenNotional, RoundQtyDown;
  }

  lemma NotionalOfQty(n: real, entry: real, q: real)
    requires entry > 0.0
    ensures q * entry <= n <==> q <= n / entry
  {
    DivideMultiply(n, entry);
    if q * entry <= n { CancelLess(q, n / entry, entry); }
    if q <= n / entry { MultiplyMonotone(q, n / entry, entry); }
  }

  ghost predicate Fits(k: int, step: real, entry: real, notional: real) {
    Multiple(k, step) * entry <= notional
  }

  /** The size is the largest multiple of the step whose notional fits
      min(max(risk notional, target), cap). */
  lemma SizeIsLargestFit(r: SizingRequest)
    requires r.step > 0.0 && r.entry > 0.0 && r.stop != r.entry && ChosenNotional(r) >= 0.0
    ensures var qty := ComputeSize(r).value.qty;
            && OnGrid(qty, r.step)
            && qty >= 0.0 && qty * r.entry <= ChosenNotional(r)
            && forall k: int :: Fits(k, r.step, r.entry, ChosenNotional(r)) ==> Multiple(k, r.step) <= qty
  {
    var n, qty := ChosenNotional(r), ComputeSize(r).value.qty;
    hide ChosenNotional, RoundQtyDown, Multiple;
    QuotientSign(n, r.entry);
    QtyIsLargestMultiple(n / r.entry, r.step);
    NotionalOfQty(n, r.entry, qty);
    forall k: int | Fits(k, r.step, r.entry, n) ensures Multiple(k, r.step) <= qty {
      NotionalOfQty(n, r.entry, Multiple(k, r.step));
    }
  }

  /** The notional taken has the chosen notional's sign and never exceeds it in size;
      in particular a cap at or below zero never sizes a positive order. */
  lemma SizeStaysUnder(r: SizingRequest)
    requires r.entry > 0.0 && r.stop != r.entry
    ensures var qty := ComputeSize(r).value.qty;
            && (ChosenNotional(r) >= 0.0 ==> qty >= 0.0 && qty * r.entry <= ChosenNotional(r))
            && (ChosenNotional(r) <= 0.0 ==> qty <= 0.0)
  {
    var n, qty := ChosenNotional(r), ComputeSize(r).value.qty;
    hide ChosenNotional, RoundQtyDown;
    RoundDownShrinks(n / r.entry, r.step);
    if n >= 0.0 {
      QuotientSign(n, r.entry);
      NotionalOfQty(n, r.entry, qty);
    }
    if n <= 0.0 {
      QuotientSign(-n, r.entry);
      NegateQuotient(n, r.entry);
    }
  }

  /** The money a request budgets for, in percent of its equity. */
  function BudgetPercent(r: SizingRequest): real {
    r.equity * r.riskPercent * r.fraction
  }

  lemma BudgetIs(r: SizingRequest)
    ensures Budget(r) * 100.0 == BudgetPercent(r)
  {
  }

  /** Without target and cap the risk taken is within one step of the share of the risk
      percentage that the mode's fraction leaves. */
  lemma RiskWithinOneStep(r: SizingRequest)
    requires r.step > 0.0 && r.cap == None && r.target == None
    requires r.entry > 0.0 && r.stop != r.entry && BudgetPercent(r) >= 0.0
    ensures var d := Abs(r.entry - r.stop);
            var risk := ComputeSize(r).value.riskUsdt;
            risk * 100.0 <= BudgetPercent(r) < (risk + r.step * d) * 100.0
  {
    BudgetIs(r);
    hide Budget, NotionalForRisk, RoundQtyDown, BudgetPercent;
    UnitsWithinOneStep(Budget(r), Abs(r.entry - r.stop), r.entry, r.step);
  }

  lemma UnitsWithinOneStep(budget: real, d: real, entry: real, step: real)
    requires step > 0.0 && d > 0.0 && entry > 0.0 && budget >= 0.0
    ensures budget - step * d < RoundQtyDown(NotionalForRisk(budget, d, entry) / entry, step) * d <= budget
  {
    var units := NotionalForRisk(budget, d, entry) / entry;
    var qty := RoundQtyDown(units, step);
    UnitsForBudget(budget, d, entry);
    QuotientSign(budget, d);
    hide NotionalForRisk, RoundQtyDown;
    QtyIsLargestMultiple(units, step);
    MultiplyMonotone(qty, units, d);
    ProductPositive(qty + step - units, d);
    assert (qty + step - units) * d == qty * d + step * d - units * d;
  }

  /** Risk notional divided by price is the budget divided by the distance. */
  lemma UnitsForBudget(budget: real, d: real, entry: real)
    requires d > 0.0 && entry > 0.0
    ensures NotionalForRisk(budget, d, entry) / entry == budget / d
    ensures budget / d * d == budget
  {
    var f := d / entry;
    QuotientPositive(d, entry);
    DivideMultiply(d, entry);
    DivideMultiply(budget, d);
    DivideMultiply(budget, f);
    var units := budget / f / entry;
    DivideMultiply(budget / f, entry);
    calc {
      units * d;
      units * (entry * f);
      { Associate(units, entry, f); }
      units * entry * f;
      budget / f * f;
      budget;
    }
    CancelEqual(units, budget / d, d);
  }

  // ---- leverage ----

  datatype LeverageConfig = LeverageConfig(
    minLeverage: int, scoutMax: int, breakoutMax: int, retestMax: int, highQualityMax: int,
    highAtrMax: int, highAtrPercent: real, lossCount: int, lossMax: int,
    dailyLossPercent: real, dailyLossMax: int)

  function BaseCap(c: LeverageConfig, mode: EntryMode, highQuality: bool): int {
    if highQuality then c.highQualityMax
    else match mode
      case PreBreakoutScout => c.scoutMax
      case BreakoutConfirm => c.breakoutMax
      case RetestConfirm => c.retestMax
  }

  /** The caps that apply, each with the rule that brings it in. */
  ghost predicate Applies(c: LeverageConfig, mode: EntryMode, atrPercent: Option<real>, losses: int,
                          dailyLoss: real, highQuality: bool, cap: int)
  {
    || cap == BaseCap(c, mode, highQuality)
    || (atrPercent.Some? && atrPercent.value > c.highAtrPercent && cap == c.highAtrMax)
    || (losses >= c.lossCount && cap == c.lossMax)
    || (dailyLoss >= c.dailyLossPercent && cap == c.dailyLossMax)
  }

  /** min(caps) by a scan, as Python's builtin. */
  method Least(caps: seq<int>) returns (m: int)
    requires caps != []
    ensures m in caps && forall c :: c in caps ==> m <= c
  {
    m := caps[0];
    for i := 1 to |caps|
      invariant m in caps && forall j :: 0 <= j < i ==> m <= caps[j]
    {
      if caps[i] < m { m := caps[i]; }
    }
  }

  /** max_leverage: the least cap that applies, or the configured floor when every
      cap that applies lies below it. */
  method MaxLeverage(c: LeverageConfig, mode: EntryMode, atrPercent: Option<real>, losses: int,
                     dailyLoss: real, highQuality: bool) returns (cap: int)
    ensures cap >= c.minLeverage
    ensures cap == c.minLeverage || Applies(c, mode, atrPercent, losses, dailyLoss, highQuality, cap)
    ensures forall k :: Applies(c, mode, atrPercent, losses, dailyLoss, highQuality, k) ==>
                          cap <= k || cap == c.minLeverage
    ensures cap == MaxLeverageOf(c, mode, atrPercent, losses, dailyLoss, highQuality)
  {
    var caps := [BaseCap(c, mode, highQuality)];
    if atrPercent.Some? && atrPercent.value > c.highAtrPercent {
      caps := caps + [c.highAtrMax];
    }
    if losses >= c.lossCount {
      caps := caps + [c.lossMax];
    }
    if dailyLoss >= c.dailyLossPercent {
      caps := caps + [c.dailyLossMax];
    }
    assert forall k :: k in caps <==> Applies(c, mode, atrPercent, losses, dailyLoss, highQuality, k);
    var least := Least(caps);
    cap := MaxInt(c.minLeverage, least);
    LeastUnique(c, mode, atrPercent, losses, dailyLoss, highQuality, least);
  }

  function Lower(cap: int, applies: bool, other: int): int {
    if applies && other < cap then other else cap
  }

  function LowestCap(c: LeverageConfig, mode: EntryMode, atrPercent: Option<real>, losses: int,
                     dailyLoss: real, highQuality: bool): int
  {
    var highAtr := atrPercent.Some? && atrPercent.value > c.highAtrPercent;
    Lower(Lower(Lower(BaseCap(c, mode, highQuality), highAtr, c.highAtrMax),
                losses >= c.lossCount, c.lossMax),
          dailyLoss >= c.dailyLossPercent, c.dailyLossMax)
  }

  function MaxLeverageOf(c: LeverageConfig, mode: EntryMode, atrPercent: Option<real>, losses: int,
                         dailyLoss: real, highQuality: bool): int
  {
    MaxInt(c.minLeverage, LowestCap(c, mode, atrPercent, losses, dailyLoss, highQuality))
  }

  /** The folded minimum is the only cap that applies and is below all that do. */
  lemma LeastUnique(c: LeverageConfig, mode: EntryMode, atrPercent: Option<real>, losses: int,
                    dailyLoss: real, highQuality: bool, least: int)
    requires Applies(c, mode, atrPercent, losses, dailyLoss, highQuality, least)
    requires forall k :: Applies(c, mode, atrPercent, losses, dailyLoss, highQuality, k) ==> least <= k
    ensures least == LowestCap(c, mode, atrPercent, losses, dailyLoss, highQuality)
  {
    var folded := LowestCap(c, mode, atrPercent, losses, dailyLoss, highQuality);
    assert Applies(c, mode, atrPercent, losses, dailyLoss, highQuality, folded);
  }

  /** choose_leverage. */
  function ChooseLeverage(notional: real, equity: real, maxLev: int, minLev: int): int {
    if equity <= 0.0 then minLev
    else
      var needed := Ceil(notional / equity);
      MaxInt(minLev, if needed <= maxLev then needed else maxLev)
  }

  ghost predicate Funds(lev: int, equity: real, notional: real) {
    notional <= Multiple(lev, equity)
  }

  /** A leverage funds a notional exactly when it is at least the rounded-up ratio. */
  lemma FundsIff(notional: real, equity: real, lev: int)
    requires equity > 0.0
    ensures Funds(lev, equity, notional) <==> Ceil(notional / equity) <= lev
  {
    DivideMultiply(notional, equity);
    CeilIsLeast(notional / equity, lev);
    ScaleOrder(notional / equity, lev as real, equity);
    hide Ceil;
  }

  lemma CeilIsLeast(x: real, k: int)
    ensures Ceil(x) <= k <==> x <= k as real
  {
  }

  /** The chosen leverage funds the notional, and it is the least integer at or above
      min_leverage that does, whenever the cap funds the notional at all. */
  lemma LeastFundingLeverage(notional: real, equity: real, maxLev: int, minLev: int)
    requires equity > 0.0 && Funds(maxLev, equity, notional)
    ensures var lev := ChooseLeverage(notional, equity, maxLev, minLev);
            && minLev <= lev && Funds(lev, equity, notional)
            && forall n: int :: n >= minLev && Funds(n, equity, notional) ==> lev <= n
  {
    var lev := ChooseLeverage(notional, equity, maxLev, minLev);
    FundsIff(notional, equity, maxLev);
    FundsIff(notional, equity, lev);
    hide Funds, Ceil;
    forall n: int | n >= minLev && Funds(n, equity, notional) ensures lev <= n {
      FundsIff(notional, equity, n);
    }
  }
}
