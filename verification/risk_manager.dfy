/** Stop, take-profit and liquidation prices. */
module Levels {
  import opened Common

  /** A price `offset` behind the entry: where a stop for that side belongs. */
  function Behind(side: Side, price: real, offset: real): real {
    if side == Long then price - offset else price + offset
  }

  function StopLossPrice(entry: real, atr: real, stopAtr: real, side: Side): real {
    Behind(side, entry, atr * stopAtr)
  }

  /** A stop `percent` of the entry price behind it. */
  function PercentStopPrice(entry: real, percent: real, side: Side): real {
    Behind(side, entry, entry * percent / 100.0)
  }

  function TakeProfitPrice(entry: real, stop: real, side: Side, r: real): real {
    if side == Long then entry + (entry - stop) * r else entry - (stop - entry) * r
  }

  const MAINTENANCE_MARGIN := 0.005

  function EstimateLiqPrice(entry: real, leverage: int, side: Side): real {
    var inv := 1.0 / (if leverage <= 0 then 1 else leverage) as real;
    if side == Long then entry * (1.0 - inv + MAINTENANCE_MARGIN)
    else entry * (1.0 + inv - MAINTENANCE_MARGIN)
  }

  /** Stop a is at least as far on the losing side as b. */
  predicate NotNarrower(side: Side, a: real, b: real) {
    if side == Long then a <= b else a >= b
  }

  /** Strictly on the losing side. */
  predicate Beyond(side: Side, a: real, b: real) {
    if side == Long then a < b else a > b
  }
}

/** The final approver before an order: widest stop, account limits, size, leverage
    and the liquidation guard. */
module RiskManager {
  import opened Common
  import opened Levels
  import opened PositionModel
  import opened RealFacts
  import opened Rounding
  import opened Sizing

  datatype SymbolMeta = SymbolMeta(tick: real, step: real, minQty: real, minNotional: real)

  /** Direction of a signal; anything but LONG is approved as a SHORT. */
  datatype Signal = LongSignal | ShortSignal | ExitSignal

  datatype Decision = Decision(
    symbol: string, direction: Signal, mode: EntryMode, fraction: real, stopAtr: real, score: real,
    structureStop: Option<real>, compression: bool)

  datatype OpenPosition = OpenPosition(symbol: string, side: Side, qty: real, initialRisk: Option<real>)

  datatype Context = Context(equity: real, open: seq<OpenPosition>, dailyLoss: real, drawdown: real,
                             losses: int)

  datatype StopConfig = StopConfig(
    minPercent: real, scoutMinPercent: real, breakoutMinPercent: real, retestMinPercent: real,
    scoutMinAtr: real, minAtr: real, maxAtr: real, scoutMaxAtr: real, retestMaxAtr: real,
    structureEnabled: bool, structureForScout: bool, structureForRetest: bool,
    structureModes: set<EntryMode>, structureMaxAtr: real)

  datatype AccountConfig = AccountConfig(
    riskPercent: real, dailyMaxLoss: real, maxDrawdown: real, maxPositions: int,
    maxSameDirection: int, maxSymbolRisk: real, maxTotalRisk: real)

  datatype TargetConfig = TargetConfig(
    enabled: bool, scout: real, scoutCompression: real, breakout: real, retest: real,
    highQuality: real, highQualityScore: real)

  datatype RiskConfig = RiskConfig(
    stops: StopConfig, account: AccountConfig, leverage: LeverageConfig, target: TargetConfig,
    thinPercent: real, thinMaxLeverage: int,
    minLiqPercent: real, minLiqAtr: real, blockLiqInsideStop: bool, takeProfitR: real)

  datatype Approval = Approval(side: Side, qty: real, leverage: int, notional: real, stop: real,
                               takeProfit: real, liq: real, riskUsdt: real)

  function SideOf(d: Decision): Side {
    if d.direction == LongSignal then Long else Short
  }

  // ---- the stop ----

  predicate StructureStopEnabled(c: StopConfig, mode: EntryMode) {
    && c.structureEnabled
    && (mode == PreBreakoutScout ==> c.structureForScout)
    && (mode == RetestConfirm ==> c.structureForRetest)
    && mode in c.structureModes
  }

  function MinStopPercent(c: StopConfig, mode: EntryMode): real {
    Max(c.minPercent,
        match mode
        case PreBreakoutScout => c.scoutMinPercent
        case BreakoutConfirm => c.breakoutMinPercent
        case RetestConfirm => c.retestMinPercent)
  }

  function MinStopAtr(c: StopConfig, mode: EntryMode): real {
    if mode == PreBreakoutScout then c.scoutMinAtr else 0.0
  }

  function SelectStop(side: Side, a: real, b: Option<real>): real {
    if b.None? then a
    else if side == Long then Min(a, b.value)
    else Max(a, b.value)
  }

  /** Unrounded prices at the configured minimum distances. */
  function MinDistanceRaws(c: StopConfig, mode: EntryMode, entry: real, atr: real, side: Side): seq<real> {
    var percent, minAtr := MinStopPercent(c, mode), MinStopAtr(c, mode);
    (if percent > 0.0 then [PercentStopPrice(entry, percent, side)] else [])
    + (if minAtr > 0.0 then [StopLossPrice(entry, atr, minAtr, side)] else [])
  }

  /** The candidate a scan with SelectStop ends on, each rounded outward first. */
  function WidestRounded(side: Side, raws: seq<real>, tick: real): Option<real> {
    if raws == [] then None
    else
      var last := RoundStopToTick(raws[|raws| - 1], side, tick);
      Some(SelectStop(side, last, WidestRounded(side, raws[..|raws| - 1], tick)))
  }

  /** The scan over the rounded candidates. */
  method ScanWidest(side: Side, tick: real, candidates: seq<real>, ghost raws: seq<real>) returns (stop: real)
    requires |candidates| == |raws| > 0
    requires forall i :: 0 <= i < |raws| ==> candidates[i] == RoundStopToTick(raws[i], side, tick)
    ensures Some(stop) == WidestRounded(side, raws, tick)
  {
    hide RoundStopToTick;
    stop := candidates[0];
    assert raws[..1][..0] == [];
    for i := 1 to |candidates|
      invariant Some(stop) == WidestRounded(side, raws[..i], tick)
    {
      assert raws[..i + 1][..i] == raws[..i];
      stop := SelectStop(side, stop, Some(candidates[i]));
    }
    assert raws[..|raws|] == raws;
  }

  /** _min_distance_stop_price. */
  method MinDistanceStopPrice(c: StopConfig, mode: EntryMode, entry: real, atr: real, side: Side, tick: real)
    returns (stop: Option<real>)
    ensures stop == WidestRounded(side, MinDistanceRaws(c, mode, entry, atr, side), tick)
  {
    hide RoundStopToTick, MinStopPercent, MinStopAtr, PercentStopPrice, StopLossPrice;
    var candidates: seq<real> := [];
    ghost var raws: seq<real> := [];
    var percent := MinStopPercent(c, mode);
    if percent > 0.0 {
      var raw := PercentStopPrice(entry, percent, side);
      candidates := candidates + [RoundStopToTick(raw, side, tick)];
      raws := raws + [raw];
    }
    var minAtr := MinStopAtr(c, mode);
    if minAtr > 0.0 {
      var raw := StopLossPrice(entry, atr, minAtr, side);
      candidates := candidates + [RoundStopToTick(raw, side, tick)];
      raws := raws + [raw];
    }
    assert raws == MinDistanceRaws(c, mode, entry, atr, side);
    if candidates == [] {
      return None;
    }
    var widest := ScanWidest(side, tick, candidates, raws);
    stop := Some(widest);
  }

  function StructureRaw(c: StopConfig, d: Decision): Option<real> {
    if StructureStopEnabled(c, d.mode) then d.structureStop else None
  }

  /** The stop the order goes out with: ATR stop, then structure stop, then the
      minimum distances, each rounded outward. */
  function ChosenStop(c: StopConfig, d: Decision, entry: real, atr: real, tick: real): real {
    var side := SideOf(d);
    var atrStop := RoundStopToTick(StopLossPrice(entry, atr, d.stopAtr, side), side, tick);
    var raw := StructureRaw(c, d);
    var structure := if raw.Some? then Some(RoundStopToTick(raw.value, side, tick)) else None;
    SelectStop(side, SelectStop(side, atrStop, structure),
               WidestRounded(side, MinDistanceRaws(c, d.mode, entry, atr, side), tick))
  }

  /** Every unrounded price the stop has to respect. */
  function StopRaws(c: StopConfig, d: Decision, entry: real, atr: real): seq<real> {
    var side, raw := SideOf(d), StructureRaw(c, d);
    [StopLossPrice(entry, atr, d.stopAtr, side)]
    + (if raw.Some? then [raw.value] else [])
    + MinDistanceRaws(c, d.mode, entry, atr, side)
  }

  /** p is the outward rounding of some raw price, and no raw price rounds further out. */
  ghost predicate IsWidest(side: Side, raws: seq<real>, tick: real, p: real) {
    && (exists x :: x in raws && p == RoundStopToTick(x, side, tick))
    && (forall x :: x in raws ==> NotNarrower(side, p, RoundStopToTick(x, side, tick)))
  }

  lemma {:induction false} WidestRoundedIsWidest(side: Side, raws: seq<real>, tick: real)
    requires raws != []
    ensures IsWidest(side, raws, tick, WidestRounded(side, raws, tick).value)
  {
    hide RoundStopToTick;
    var init, last := raws[..|raws| - 1], raws[|raws| - 1];
    assert raws == init + [last];
    if init != [] {
      WidestRoundedIsWidest(side, init, tick);
    }
  }

  /** Selecting between the widest of two groups gives the widest of both. */
  lemma SelectIsWidest(side: Side, a: seq<real>, b: seq<real>, tick: real, p: real, q: real)
    requires IsWidest(side, a, tick, p) && IsWidest(side, b, tick, q)
    ensures IsWidest(side, a + b, tick, SelectStop(side, p, Some(q)))
  {
    hide RoundStopToTick;
    var x :| x in a && p == RoundStopToTick(x, side, tick);
    var y :| y in b && q == RoundStopToTick(y, side, tick);
    assert x in a + b && y in a + b;
  }

  lemma ChosenStopIsWidest(c: StopConfig, d: Decision, entry: real, atr: real, tick: real)
    ensures IsWidest(SideOf(d), StopRaws(c, d, entry, atr), tick, ChosenStop(c, d, entry, atr, tick))
  {
    hide RoundStopToTick, StopLossPrice, MinDistanceRaws, StructureRaw;
    var side, raw := SideOf(d), StructureRaw(c, d);
    var first := [StopLossPrice(entry, atr, d.stopAtr, side)];
    var atrStop := RoundStopToTick(first[0], side, tick);
    assert IsWidest(side, first, tick, atrStop) by { assert first[0] in first; }
    var stops, selected := first, atrStop;
    if raw.Some? {
      var structure := RoundStopToTick(raw.value, side, tick);
      assert IsWidest(side, [raw.value], tick, structure) by { assert raw.value in [raw.value]; }
      SelectIsWidest(side, first, [raw.value], tick, atrStop, structure);
      stops, selected := first + [raw.value], SelectStop(side, atrStop, Some(structure));
    }
    var mins := MinDistanceRaws(c, d.mode, entry, atr, side);
    assert StopRaws(c, d, entry, atr) == stops + mins;
    if mins == [] {
      assert stops + mins == stops;
    } else {
      WidestRoundedIsWidest(side, mins, tick);
      SelectIsWidest(side, stops, mins, tick, selected, WidestRounded(side, mins, tick).value);
    }
  }

  /** Stops only ever widen: the chosen stop lies on the tick grid, no nearer the entry
      than the unrounded ATR stop, the enabled structure stop and every minimum
      distance, and within one tick of one of them. */
  lemma StopsOnlyWiden(c: StopConfig, d: Decision, entry: real, atr: real, tick: real)
    ensures var stop, side := ChosenStop(c, d, entry, atr, tick), SideOf(d);
            && OnGrid(stop, tick)
            && (forall x :: x in StopRaws(c, d, entry, atr) ==> NotNarrower(side, stop, x))
            && (exists x :: x in StopRaws(c, d, entry, atr) && Abs(stop - x) <= Max(tick, 0.0))
  {
    var stop, side, raws := ChosenStop(c, d, entry, atr, tick), SideOf(d), StopRaws(c, d, entry, atr);
    hide ChosenStop, StopRaws, RoundStopToTick, OnGrid;
    ChosenStopIsWidest(c, d, entry, atr, tick);
    var w :| w in raws && stop == RoundStopToTick(w, side, tick);
    StopRoundsOutward(w, side, tick);
    forall x | x in raws ensures NotNarrower(side, stop, x) {
      StopRoundsOutward(x, side, tick);
    }
  }

  // ---- the approval ----

  function StopGuard(c: StopConfig, mode: EntryMode, distance: real, atr: real): Option<Reject>
    requires atr > 0.0
  {
    if distance / atr < c.minAtr then Some(StopDistanceTooNarrow)
    else if distance / atr > MaxStopAtr(c, mode) then Some(StopDistanceTooWide)
    else None
  }

  function MaxStopAtr(c: StopConfig, mode: EntryMode): real {
    match mode
    case PreBreakoutScout => c.scoutMaxAtr
    case BreakoutConfirm => c.maxAtr
    case RetestConfirm =>
      if StructureStopEnabled(c, mode) then Min(c.retestMaxAtr, c.structureMaxAtr) else c.retestMaxAtr
  }

  function OnSide(open: seq<OpenPosition>, side: Side): nat {
    if open == [] then 0
    else (if open[0].side == side then 1 else 0) + OnSide(open[1..], side)
  }

  function OpenRisk(open: seq<OpenPosition>): real {
    if open == [] then 0.0
    else open[0].initialRisk.GetOr(0.0) * open[0].qty + OpenRisk(open[1..])
  }

  function AccountBlock(c: AccountConfig, d: Decision, ctx: Context): Option<Reject> {
    if ctx.dailyLoss >= c.dailyMaxLoss then Some(DailyLossLimit)
    else if ctx.drawdown >= c.maxDrawdown then Some(IntradayDrawdown)
    else if |ctx.open| >= c.maxPositions then Some(MaxPositions)
    else if exists i :: 0 <= i < |ctx.open| && ctx.open[i].symbol == d.symbol then Some(SymbolAlreadyOpen)
    else if OnSide(ctx.open, SideOf(d)) >= c.maxSameDirection then Some(MaxSameDirection)
    else None
  }

  predicate HighQuality(c: TargetConfig, d: Decision) {
    c.enabled && d.score >= c.highQualityScore
  }

  function ThinStopCap(c: RiskConfig, distancePercent: real): Option<int> {
    if c.thinPercent <= 0.0 || c.thinMaxLeverage <= 0 then None
    else if distancePercent <= c.thinPercent then Some(c.thinMaxLeverage) else None
  }

  function LeverageCap(c: RiskConfig, d: Decision, ctx: Context, entry: real, atr: real, stop: real): int
    requires entry > 0.0
  {
    var cap := MaxLeverageOf(c.leverage, d.mode, Some(atr / entry * 100.0), ctx.losses, ctx.dailyLoss,
                             HighQuality(c.target, d));
    var thin := ThinStopCap(c, Abs(entry - stop) / entry * 100.0);
    if thin.Some? && thin.value < cap then thin.value else cap
  }

  function TargetPercent(c: TargetConfig, d: Decision): Option<real> {
    if !c.enabled then None
    else
      var base := match d.mode
        case PreBreakoutScout => if d.compression then c.scoutCompression else c.scout
        case BreakoutConfirm => c.breakout
        case RetestConfirm => c.retest;
      var percent := if HighQuality(c, d) then Max(base, c.highQuality) else base;
      if percent > 0.0 then Some(percent) else None
  }

  function PercentOf(x: real, percent: real): real {
    x * percent / 100.0
  }

  function Request(c: RiskConfig, d: Decision, ctx: Context, entry: real, stop: real, step: real, levCap: int)
    : SizingRequest
  {
    var percent := TargetPercent(c.target, d);
    SizingRequest(ctx.equity, c.account.riskPercent, d.fraction, entry, stop, step,
                  Some(Multiple(levCap, ctx.equity)),
                  if percent.Some? then Some(PercentOf(ctx.equity, percent.value)) else None)
  }

  function SizeBlock(meta: SymbolMeta, entry: real, qty: real): Option<Reject> {
    if !(qty >= meta.minQty && qty > 0.0) then Some(BelowMinQty)
    else if !(meta.minNotional <= 0.0 || qty * entry >= meta.minNotional) then Some(BelowMinNotional)
    else None
  }

  function ExposureBlock(c: AccountConfig, ctx: Context, risk: real): Option<Reject>
    requires ctx.equity != 0.0
  {
    if risk / ctx.equity * 100.0 > c.maxSymbolRisk then Some(SymbolRiskExceeded)
    else if (OpenRisk(ctx.open) + risk) / ctx.equity * 100.0 > c.maxTotalRisk then Some(TotalRiskExceeded)
    else None
  }

  function LiqBlock(c: RiskConfig, side: Side, entry: real, atr: real, liq: real, stop: real): Option<Reject>
    requires entry > 0.0 && atr > 0.0
  {
    if Abs(liq - entry) / entry * 100.0 < c.minLiqPercent then Some(LiqTooClosePct)
    else if Abs(liq - entry) / atr < c.minLiqAtr then Some(LiqTooCloseAtr)
    else if c.blockLiqInsideStop && NotNarrower(side, stop, liq) then Some(LiqInsideStop)
    else None
  }

  /** A size the exchange minimum accepts was capped by a non-zero equity. */
  lemma SizedEquity(r: SizingRequest, levCap: int)
    requires r.entry > 0.0 && r.stop != r.entry && r.cap == Some(Multiple(levCap, r.equity))
    requires ComputeSize(r).value.qty > 0.0
    ensures r.equity != 0.0
    ensures Funds(levCap, r.equity, ComputeSize(r).value.notional)
    ensures r.equity > 0.0 <==> levCap > 0
  {
    SizeStaysUnder(r);
    assert 0.0 < ChosenNotional(r) <= Multiple(levCap, r.equity) by { hide NotionalForRisk; }
    hide ChosenNotional;
    SameSign(levCap as real, r.equity);
  }

  lemma SameSign(a: real, b: real)
    requires a * b > 0.0
    ensures a > 0.0 <==> b > 0.0
  {
    if a > 0.0 && b <= 0.0 {
      ProductSign(a, -b);
      NegateProduct(b, a);
    } else if a <= 0.0 && b > 0.0 {
      ProductSign(-a, b);
      NegateProduct(a, b);
    }
  }

  /** approve: everything after the market-data check. */
  function ApproveWithStop(c: RiskConfig, d: Decision, ctx: Context, meta: SymbolMeta, entry: real, atr: real,
                           stop: real): Result<Approval, Reject>
    requires entry > 0.0 && atr > 0.0
  {
    var side := SideOf(d);
    var narrow := StopGuard(c.stops, d.mode, Abs(entry - stop), atr);
    if narrow.Some? then Err(narrow.value)
    else
      var blocked := AccountBlock(c.account, d, ctx);
      if blocked.Some? then Err(blocked.value)
      else
        var levCap := LeverageCap(c, d, ctx, entry, atr, stop);
        var request := Request(c, d, ctx, entry, stop, meta.step, levCap);
        var sized := ComputeSize(request);
        if sized.Err? then Err(sized.error)
        else
          var small := SizeBlock(meta, entry, sized.value.qty);
          if small.Some? then Err(small.value)
          else
            SizedEquity(request, levCap);
            ApproveSized(c, ctx, meta, side, entry, atr, stop, sized.value, levCap)
  }

  /** The exposure limits, leverage and liquidation guard of a sized order. */
  function ApproveSized(c: RiskConfig, ctx: Context, meta: SymbolMeta, side: Side, entry: real, atr: real,
                        stop: real, sized: SizingResult, levCap: int): Result<Approval, Reject>
    requires entry > 0.0 && atr > 0.0 && ctx.equity != 0.0
  {
    var exposed := ExposureBlock(c.account, ctx, sized.riskUsdt);
    if exposed.Some? then Err(exposed.value)
    else
      var leverage := ChooseLeverage(sized.notional, ctx.equity, levCap, c.leverage.minLeverage);
      var liq := EstimateLiqPrice(entry, leverage, side);
      var close := LiqBlock(c, side, entry, atr, liq, stop);
      if close.Some? then Err(close.value)
      else
        var tp := RoundPriceToTick(TakeProfitPrice(entry, stop, side, c.takeProfitR), meta.tick);
        Ok(Approval(side, sized.qty, leverage, sized.notional, stop, tp, liq, sized.riskUsdt))
  }

  /** approve. */
  function Approve(c: RiskConfig, d: Decision, ctx: Context, meta: SymbolMeta, entry: real, atr: real)
    : Result<Approval, Reject>
  {
    if atr <= 0.0 || entry <= 0.0 then Err(InvalidMarketData)
    else ApproveWithStop(c, d, ctx, meta, entry, atr, ChosenStop(c.stops, d, entry, atr, meta.tick))
  }

  // ---- what an approval guarantees ----

  /** The stages an approval has passed. */
  lemma ApprovalStages(c: RiskConfig, d: Decision, ctx: Context, meta: SymbolMeta, entry: real, atr: real)
    requires Approve(c, d, ctx, meta, entry, atr).Ok?
    ensures entry > 0.0 && atr > 0.0
    ensures var a := Approve(c, d, ctx, meta, entry, atr).value;
            var levCap := LeverageCap(c, d, ctx, entry, atr, a.stop);
            var r := Request(c, d, ctx, entry, a.stop, meta.step, levCap);
            && a.side == SideOf(d) && a.stop == ChosenStop(c.stops, d, entry, atr, meta.tick)
            && StopGuard(c.stops, d.mode, Abs(entry - a.stop), atr) == None
            && AccountBlock(c.account, d, ctx) == None
            && a.stop != entry && ComputeSize(r).Ok? && SizeBlock(meta, entry, a.qty) == None
            && a.qty == ComputeSize(r).value.qty && a.notional == a.qty * entry
            && a.riskUsdt == a.qty * Abs(entry - a.stop)
            && ctx.equity != 0.0 && ExposureBlock(c.account, ctx, a.riskUsdt) == None
            && a.leverage == ChooseLeverage(a.notional, ctx.equity, levCap, c.leverage.minLeverage)
            && a.liq == EstimateLiqPrice(entry, a.leverage, a.side)
            && LiqBlock(c, a.side, entry, atr, a.liq, a.stop) == None
            && a.takeProfit == RoundPriceToTick(TakeProfitPrice(entry, a.stop, a.side, c.takeProfitR), meta.tick)
  {
    hide LeverageCap, ChosenStop, StopGuard, AccountBlock, ExposureBlock, LiqBlock, EstimateLiqPrice,
         ChooseLeverage, TakeProfitPrice, RoundPriceToTick, RoundQtyDown, ChosenNotional, Funds;
    var stop := ChosenStop(c.stops, d, entry, atr, meta.tick);
    var levCap := LeverageCap(c, d, ctx, entry, atr, stop);
    SizedIff(Request(c, d, ctx, entry, stop, meta.step, levCap));
    SizedEquity(Request(c, d, ctx, entry, stop, meta.step, levCap), levCap);
  }

  lemma LeverageCapPositive(c: RiskConfig, d: Decision, ctx: Context, entry: real, atr: real, stop: real)
    requires entry > 0.0 && c.leverage.minLeverage > 0
    ensures LeverageCap(c, d, ctx, entry, atr, stop) > 0
  {
    hide LowestCap;
  }

  /** Size and leverage of an approval: a positive quantity the exchange accepts and the
      order manager's re-rounding leaves alone; positive equity exactly when the leverage
      cap is positive, as any positive min_leverage makes it; and then the least leverage
      at or above the minimum that funds the quantity. */
  lemma ApprovalIsFunded(c: RiskConfig, d: Decision, ctx: Context, meta: SymbolMeta, entry: real, atr: real)
    requires Approve(c, d, ctx, meta, entry, atr).Ok?
    ensures var a := Approve(c, d, ctx, meta, entry, atr).value;
            && a.qty > 0.0 && a.qty >= meta.minQty && RoundQtyDown(a.qty, meta.step) == a.qty
            && a.notional == a.qty * entry
            && (ctx.equity > 0.0 <==> entry > 0.0 && LeverageCap(c, d, ctx, entry, atr, a.stop) > 0)
            && (c.leverage.minLeverage > 0 ==> ctx.equity > 0.0)
            && (ctx.equity > 0.0 ==>
                && a.leverage >= c.leverage.minLeverage && Funds(a.leverage, ctx.equity, a.notional)
                && forall n: int :: n >= c.leverage.minLeverage && Funds(n, ctx.equity, a.notional) ==>
                     a.leverage <= n)
  {
    ApprovalStages(c, d, ctx, meta, entry, atr);
    var a := Approve(c, d, ctx, meta, entry, atr).value;
    hide Approve, LeverageCap, ChosenNotional, RoundQtyDown, ChooseLeverage, Funds;
    var levCap := LeverageCap(c, d, ctx, entry, atr, a.stop);
    var r := Request(c, d, ctx, entry, a.stop, meta.step, levCap);
    SizedEquity(r, levCap);
    if c.leverage.minLeverage > 0 {
      LeverageCapPositive(c, d, ctx, entry, atr, a.stop);
    }
    if ctx.equity > 0.0 {
      LeastFundingLeverage(a.notional, ctx.equity, levCap, c.leverage.minLeverage);
    }
    QtyRoundingIsStable(ChosenNotional(r) / entry, meta.step);
  }

  /** Where the prices of an approval lie: the stop is on the losing side of the entry
      exactly when one of the prices it must respect rounds to that side, the
      liquidation price lies beyond the stop under the inside-stop guard, and the
      take-profit is within half a tick of its target multiple of the risk. */
  lemma ApprovalPrices(c: RiskConfig, d: Decision, ctx: Context, meta: SymbolMeta, entry: real, atr: real)
    requires Approve(c, d, ctx, meta, entry, atr).Ok?
    ensures var a := Approve(c, d, ctx, meta, entry, atr).value;
            && (c.blockLiqInsideStop ==> Beyond(a.side, a.liq, a.stop))
            && (Beyond(a.side, a.stop, entry) <==>
                exists x :: x in StopRaws(c.stops, d, entry, atr) &&
                            Beyond(a.side, RoundStopToTick(x, a.side, meta.tick), entry))
            && Abs(a.takeProfit - TakeProfitPrice(entry, a.stop, a.side, c.takeProfitR)) <= Max(meta.tick, 0.0) / 2.0
  {
    ApprovalStages(c, d, ctx, meta, entry, atr);
    var a := Approve(c, d, ctx, meta, entry, atr).value;
    hide Approve, ChosenStop, StopRaws, RoundStopToTick, TakeProfitPrice, RoundPriceToTick;
    ChosenStopIsWidest(c.stops, d, entry, atr, meta.tick);
    TargetNearest(TakeProfitPrice(entry, a.stop, a.side, c.takeProfitR), meta.tick);
  }

  lemma TargetNearest(price: real, tick: real)
    ensures Abs(RoundPriceToTick(price, tick) - price) <= Max(tick, 0.0) / 2.0
  {
    if tick > 0.0 {
      PriceRoundsNearest(price, tick);
    }
  }

  /** With a non-negative ATR multiple and the inside-stop guard on, an approved LONG has
      liquidation < stop < entry and an approved SHORT the mirror image. */
  lemma LiquidationBeyondStopBeyondEntry(c: RiskConfig, d: Decision, ctx: Context, meta: SymbolMeta,
                                         entry: real, atr: real)
    requires Approve(c, d, ctx, meta, entry, atr).Ok?
    requires c.blockLiqInsideStop && d.stopAtr >= 0.0
    ensures var a := Approve(c, d, ctx, meta, entry, atr).value;
            Beyond(a.side, a.liq, a.stop) && Beyond(a.side, a.stop, entry)
  {
    ApprovalStages(c, d, ctx, meta, entry, atr);
    ApprovalPrices(c, d, ctx, meta, entry, atr);
    hide Approve, ChosenStop;
    StopNotAhead(c.stops, d, entry, atr, meta.tick);
  }

  lemma StopNotAhead(c: StopConfig, d: Decision, entry: real, atr: real, tick: real)
    requires atr > 0.0 && d.stopAtr >= 0.0
    ensures NotNarrower(SideOf(d), ChosenStop(c, d, entry, atr, tick), entry)
  {
    var raw := StopLossPrice(entry, atr, d.stopAtr, SideOf(d));
    assert raw in StopRaws(c, d, entry, atr);
    ProductSign(atr, d.stopAtr);
    assert NotNarrower(SideOf(d), raw, entry);
    hide StopLossPrice, ChosenStop, StopRaws, OnGrid;
    StopsOnlyWiden(c, d, entry, atr, tick);
    assert NotNarrower(SideOf(d), ChosenStop(c, d, entry, atr, tick), raw);
  }

  // ---- the portfolio an approval joins ----

  /** What the account limits keep true of the open positions. */
  ghost predicate WithinLimits(c: AccountConfig, open: seq<OpenPosition>) {
    && |open| <= c.maxPositions
    && OnSide(open, Long) <= c.maxSameDirection && OnSide(open, Short) <= c.maxSameDirection
    && forall i, j :: 0 <= i < j < |open| ==> open[i].symbol != open[j].symbol
  }

  lemma {:induction false} OnSideSnoc(open: seq<OpenPosition>, p: OpenPosition, side: Side)
    ensures OnSide(open + [p], side) == OnSide(open, side) + if p.side == side then 1 else 0
  {
    if open == [] {
    } else {
      assert (open + [p])[1..] == open[1..] + [p];
      OnSideSnoc(open[1..], p, side);
    }
  }

  lemma {:induction false} OpenRiskSnoc(open: seq<OpenPosition>, p: OpenPosition)
    ensures OpenRisk(open + [p]) == OpenRisk(open) + p.initialRisk.GetOr(0.0) * p.qty
  {
    if open == [] {
    } else {
      assert (open + [p])[1..] == open[1..] + [p];
      OpenRiskSnoc(open[1..], p);
    }
  }

  /** The position an approval opens when it fills as planned. */
  function Opened(d: Decision, a: Approval, entry: real): OpenPosition {
    OpenPosition(d.symbol, a.side, a.qty, Some(Abs(entry - a.stop)))
  }

  /** Opening what was approved keeps every account limit, and the money at risk across
      all open positions within its share of the equity. */
  lemma ApprovalKeepsLimits(c: RiskConfig, d: Decision, ctx: Context, meta: SymbolMeta, entry: real, atr: real)
    requires WithinLimits(c.account, ctx.open)
    requires Approve(c, d, ctx, meta, entry, atr).Ok?
    ensures var open := ctx.open + [Opened(d, Approve(c, d, ctx, meta, entry, atr).value, entry)];
            && WithinLimits(c.account, open)
            && (ctx.equity > 0.0 ==> OpenRisk(open) * 100.0 <= c.account.maxTotalRisk * ctx.equity)
  {
    hide *;
    var a := Approve(c, d, ctx, meta, entry, atr).value;
    ApprovalStages(c, d, ctx, meta, entry, atr);
    JoinKeepsLimits(c.account, d, ctx, a, entry);
    if ctx.equity > 0.0 {
      JoinKeepsRisk(c.account, d, ctx, a, entry);
    }
  }

  lemma JoinKeepsLimits(c: AccountConfig, d: Decision, ctx: Context, a: Approval, entry: real)
    requires WithinLimits(c, ctx.open) && AccountBlock(c, d, ctx) == None && a.side == SideOf(d)
    ensures WithinLimits(c, ctx.open + [Opened(d, a, entry)])
  {
    hide Abs;
    OnSideSnoc(ctx.open, Opened(d, a, entry), Long);
    OnSideSnoc(ctx.open, Opened(d, a, entry), Short);
  }

  lemma JoinKeepsRisk(c: AccountConfig, d: Decision, ctx: Context, a: Approval, entry: real)
    requires ctx.equity > 0.0 && a.riskUsdt == a.qty * Abs(entry - a.stop)
    requires ExposureBlock(c, ctx, a.riskUsdt) == None
    ensures OpenRisk(ctx.open + [Opened(d, a, entry)]) * 100.0 <= c.maxTotalRisk * ctx.equity
  {
    OpenRiskSnoc(ctx.open, Opened(d, a, entry));
    ShareBound(OpenRisk(ctx.open) + a.riskUsdt, ctx.equity, c.maxTotalRisk);
  }

  lemma ShareBound(risk: real, equity: real, percent: real)
    requires equity > 0.0 && risk / equity * 100.0 <= percent
    ensures risk * 100.0 <= percent * equity
  {
    DivideMultiply(risk, equity);
    MultiplyMonotone(risk / equity * 100.0, percent, equity);
  }
}
