/** Levels re-derived from the fill, so that a better fill never narrows the stop. */
module FillLevels {
  import opened Common
  import opened Levels
  import opened RealFacts
  import opened Rounding
  import opened RiskManager

  datatype AdjustedLevels = AdjustedLevels(stop: Option<real>, takeProfit: Option<real>, risk: Option<real>)

  /** _stop_from_risk_distance. */
  function StopFromRisk(fill: real, risk: real, side: Side, tick: real): real {
    RoundStopToTick(Behind(side, fill, risk), side, tick)
  }

  /** The take-profit r times the risk ahead of the fill. */
  function TargetPrice(side: Side, fill: real, risk: real, r: real): real {
    Behind(Flip(side), fill, risk * r)
  }

  /** _fill_adjusted_levels. */
  function FillAdjusted(stop: Option<real>, takeProfit: Option<real>, side: Option<Side>, planned: real,
                        fill: real, tick: real, r: real): AdjustedLevels
  {
    if stop.None? || side.None? then AdjustedLevels(stop, takeProfit, None)
    else
      var plannedRisk, actualRisk := Abs(planned - stop.value), Abs(fill - stop.value);
      if plannedRisk <= 0.0 || actualRisk >= plannedRisk then AdjustedLevels(stop, takeProfit, Some(actualRisk))
      else
        var moved := StopFromRisk(fill, plannedRisk, side.value, tick);
        var risk := Abs(fill - moved);
        var target := TargetPrice(side.value, fill, risk, r);
        AdjustedLevels(Some(moved),
                       if takeProfit.Some? then Some(RoundPriceToTick(target, tick)) else None,
                       Some(risk))
  }

  /** The stop is moved exactly for fills nearer the stop than the plan. */
  predicate Readjusts(stop: real, planned: real, fill: real) {
    Abs(fill - stop) < Abs(planned - stop)
  }

  lemma StopFromRiskDistance(fill: real, risk: real, side: Side, tick: real)
    requires risk > 0.0
    ensures var stop := StopFromRisk(fill, risk, side, tick);
            && OnGrid(stop, tick) && Beyond(side, stop, fill)
            && risk <= Abs(fill - stop)
            && (if tick <= 0.0 then Abs(fill - stop) == risk else Abs(fill - stop) < risk + tick)
  {
    hide RoundStopToTick, OnGrid;
    StopRoundsOutward(Behind(side, fill, risk), side, tick);
  }

  lemma TargetLaw(side: Side, fill: real, risk: real, r: real)
    ensures IsTarget(side, fill, risk, r, TargetPrice(side, fill, risk, r))
  {
  }

  /** x lies r risks ahead of the fill, in the position's favour. */
  predicate IsTarget(side: Side, fill: real, risk: real, r: real, x: real) {
    (x - fill) * Direction(side) == r * risk
  }

  /** After the fill the risk per unit is the distance from the fill to the effective
      stop and never below the planned one; a re-adjusted stop exceeds it by less than a
      tick, and re-derives the take-profit to within half a tick of r times that risk ahead. */
  lemma FillNeverNarrows(stop: real, takeProfit: Option<real>, side: Side, planned: real, fill: real, tick: real,
                         r: real)
    ensures var out := FillAdjusted(Some(stop), takeProfit, Some(side), planned, fill, tick, r);
            && out.stop.Some? && (out.takeProfit.Some? <==> takeProfit.Some?)
            && out.risk == Some(Abs(fill - out.stop.value)) && Abs(planned - stop) <= out.risk.value
            && (!Readjusts(stop, planned, fill) ==> out.stop.value == stop && out.takeProfit == takeProfit)
            && (Readjusts(stop, planned, fill) ==>
                && OnGrid(out.stop.value, tick)
                && out.risk.value <= Abs(planned - stop) + Max(tick, 0.0)
                && (tick > 0.0 ==> out.risk.value < Abs(planned - stop) + tick)
                && (takeProfit.Some? ==>
                    exists x :: IsTarget(side, fill, out.risk.value, r, x)
                                && Abs(out.takeProfit.value - x) <= Max(tick, 0.0) / 2.0))
  {
    hide StopFromRisk, RoundPriceToTick, OnGrid, TargetPrice, IsTarget;
    var plannedRisk := Abs(planned - stop);
    if Readjusts(stop, planned, fill) {
      StopFromRiskDistance(fill, plannedRisk, side, tick);
      var risk := Abs(fill - StopFromRisk(fill, plannedRisk, side, tick));
      TargetNearest(TargetPrice(side, fill, risk, r), tick);
      TargetLaw(side, fill, risk, r);
    }
  }

  /** The effective stop is on the losing side of the fill exactly when the fill has not
      run past the stop by the planned risk or more: such a fill keeps a stop that is
      already behind the market. */
  lemma ProtectiveIff(stop: real, takeProfit: Option<real>, side: Side, planned: real, fill: real, tick: real, r: real)
    requires planned != stop
    ensures Beyond(side, FillAdjusted(Some(stop), takeProfit, Some(side), planned, fill, tick, r).stop.value, fill)
            <==> !NotNarrower(side, fill, Behind(side, stop, Abs(planned - stop)))
  {
    hide StopFromRisk, RoundPriceToTick, TargetPrice;
    if Readjusts(stop, planned, fill) {
      StopFromRiskDistance(fill, Abs(planned - stop), side, tick);
    }
  }

  /** Planned at 100 with a stop at 95, filled at 90: the long keeps its stop above the market. */
  lemma FilledPastTheStop()
    ensures FillAdjusted(Some(95.0), Some(110.0), Some(Long), 100.0, 90.0, 0.1, 2.0).stop == Some(95.0)
  {
  }

  /** The money an approved order has at risk once filled: at least what was approved,
      and for a fill that re-adjusts the stop less than one tick per unit more. */
  lemma ApprovedRiskAfterFill(c: RiskConfig, d: Decision, ctx: Context, meta: SymbolMeta, entry: real, atr: real,
                              fill: real)
    requires Approve(c, d, ctx, meta, entry, atr).Ok?
    ensures var a := Approve(c, d, ctx, meta, entry, atr).value;
            var out := FillAdjusted(Some(a.stop), Some(a.takeProfit), Some(a.side), entry, fill, meta.tick,
                                    c.takeProfitR);
            && out.risk.Some?
            && a.riskUsdt <= a.qty * out.risk.value
            && (Readjusts(a.stop, entry, fill) && meta.tick > 0.0 ==>
                  a.qty * out.risk.value < a.riskUsdt + a.qty * meta.tick)
  {
    hide *;
    var a := Approve(c, d, ctx, meta, entry, atr).value;
    var out := FillAdjusted(Some(a.stop), Some(a.takeProfit), Some(a.side), entry, fill, meta.tick, c.takeProfitR);
    assert a.qty > 0.0 by { ApprovalIsFunded(c, d, ctx, meta, entry, atr); }
    assert a.riskUsdt == a.qty * Abs(entry - a.stop) by { ApprovalStages(c, d, ctx, meta, entry, atr); }
    FillNeverNarrows(a.stop, Some(a.takeProfit), a.side, entry, fill, meta.tick, c.takeProfitR);
    MultiplyMonotone(Abs(entry - a.stop), out.risk.value, a.qty);
    if Readjusts(a.stop, entry, fill) && meta.tick > 0.0 {
      ProductPositive(Abs(entry - a.stop) + meta.tick - out.risk.value, a.qty);
    }
  }
}
