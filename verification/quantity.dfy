/** Quantity is conserved: what a lifetime closes is exactly what it no longer
    holds, and fills no larger than requested never oversell. */
module Quantity {
  import opened Common
  import opened Market
  import opened PositionModel
  import opened Management
  import opened Trading
  import opened Lifecycle

  /** The configured fractions are fractions. */
  predicate Fractions(cfg: Config) {
    && 0.0 <= cfg.partialFraction <= 1.0
    && 0.0 <= cfg.scout.reduceFraction <= 1.0
    && 0.0 <= cfg.stagnation.breakoutReduceFraction <= 1.0
  }

  /** The executor fills between nothing and what was asked. */
  predicate FillWithin(o: CloseOutcome, requested: real) {
    o.Filled? ==> 0.0 <= o.qty <= requested
  }

  function RequestedQty(a: Action): real {
    match a
    case PartialTp(q) => q
    case Reduce(q, _, _) => q
    case Exit(q, _) => q
    case _ => 0.0
  }

  /** Every order of the step is filled between zero and its requested quantity. */
  predicate FillsWithin(cfg: Config, l: Life, s: Step) {
    match s
    case CommandStep(c) => CommandRuns(l.pos, c) ==> FillWithin(c.outcome, CommandQty(l.pos, c))
    case ManageStep(c) =>
      Managed(l.pos) ==>
        && (c.fundingReduce ==> FillWithin(c.fundingOutcome, Portion(l.pos.book.qty, 0.5)))
        && var actions := Evaluate(cfg, AfterFunding(l, c), c.tick).1;
           actions != [] ==> FillWithin(c.outcome, RequestedQty(actions[|actions| - 1]))
  }

  predicate RunFillsWithin(cfg: Config, l: Life, steps: seq<Step>)
    decreases |steps|
  {
    steps != [] ==>
      FillsWithin(cfg, l, steps[0]) && RunFillsWithin(cfg, Next(cfg, l, steps[0]).0, steps[1..])
  }

  /** The quantity one step takes off the position, order by order. */
  function StepClosed(cfg: Config, l: Life, s: Step): real {
    match s
    case CommandStep(c) => if CommandRuns(l.pos, c) then ClosedQty(l.pos, c.outcome) else 0.0
    case ManageStep(c) =>
      if !Managed(l.pos) then 0.0
      else
        var l0 := AfterFunding(l, c);
        var funded := if c.fundingReduce then ClosedQty(l.pos, c.fundingOutcome) else 0.0;
        if c.fundingReduce && l0.pos.book.qty <= 0.0 then funded
        else
          var (l1, actions) := Evaluate(cfg, l0, c.tick);
          if actions != [] && actions[|actions| - 1].ChangesQty()
          then funded + ClosedQty(l1.pos, c.outcome) else funded
  }

  function RunClosed(cfg: Config, l: Life, steps: seq<Step>): real
    decreases |steps|
  {
    if steps == [] then 0.0
    else StepClosed(cfg, l, steps[0]) + RunClosed(cfg, Next(cfg, l, steps[0]).0, steps[1..])
  }

  lemma ScoutRequests(cfg: Config, l: Life, t: Tick, maxR: real)
    requires Fractions(cfg) && l.pos.book.qty >= 0.0
    ensures var (l1, actions, general) := ScoutStep(cfg, l, t, maxR);
            && l1.pos.book.qty == l.pos.book.qty
            && (actions != [] ==> 0.0 <= RequestedQty(actions[|actions| - 1]) <= l.pos.book.qty)
  {
    ScoutStepFrame(cfg, l, t, maxR);
    if t.candle.Some? && l.pos.plan.entryMode == Some(PreBreakoutScout) {
      WatchRequests(cfg, l, t, t.candle.value, maxR);
    }
  }

  lemma WatchRequests(cfg: Config, l: Life, t: Tick, k: Candle, maxR: real)
    requires Fractions(cfg) && l.pos.book.qty >= 0.0
    ensures var (l1, actions) := ScoutWatch(cfg, l, t, k, maxR);
            actions != [] ==> 0.0 <= RequestedQty(actions[|actions| - 1]) <= l.pos.book.qty
  {
    var cleared := l.(pos := SetScout(ClearWarning(l.pos), ScoutPending));
    PendingRequests(cfg, l, t, k, maxR);
    PendingRequests(cfg, cleared, t, k, maxR);
    ScoutReduceRequests(cfg, l, ScoutCatastrophicReduce, ScoutCatastrophicReduceEvent);
    ScoutReduceRequests(cfg, l, ScoutDefensiveReduce, ScoutDefensiveReduceEvent);
  }

  lemma ScoutReduceRequests(cfg: Config, l: Life, reason: ExitReason, event: EventType)
    requires Fractions(cfg) && l.pos.book.qty >= 0.0
    ensures 0.0 <= RequestedQty(ScoutReduce(cfg, l, reason, event).1) <= l.pos.book.qty
  {
    FractionOf(l.pos.book.qty, cfg.scout.reduceFraction);
  }

  lemma PendingRequests(cfg: Config, l: Life, t: Tick, k: Candle, maxR: real)
    requires Fractions(cfg) && l.pos.book.qty >= 0.0
    ensures var (l1, actions) := ScoutPendingStep(cfg, l, t, k, maxR);
            actions != [] ==> 0.0 <= RequestedQty(actions[|actions| - 1]) <= l.pos.book.qty
  {
    var trk := WeaknessAfterGrace(cfg, l, t, k).0;
    var l1 := Life(l.pos, trk);
    ScoutReduceRequests(cfg, l1, ScoutDefensiveReduce, ScoutDefensiveReduceEvent);
    StagnationRequests(cfg, l1, maxR);
  }

  lemma FractionOf(q: real, f: real)
    requires q >= 0.0 && 0.0 <= f <= 1.0
    ensures 0.0 <= Portion(q, f) <= q
  {
    assert q * f <= q * 1.0;
  }

  /** An optional action that asks for no more than q. */
  ghost predicate AsksWithin(a: Option<Action>, q: real) {
    a.Some? ==> 0.0 <= RequestedQty(a.value) <= q
  }

  lemma StagnationRequests(cfg: Config, l: Life, maxR: real)
    requires Fractions(cfg) && l.pos.book.qty >= 0.0
    ensures AsksWithin(StagnationStep(cfg, l, maxR).1, l.pos.book.qty)
  {
    FractionOf(l.pos.book.qty, cfg.stagnation.breakoutReduceFraction);
  }

  lemma ScenarioRequests(cfg: Config, l: Life, t: Tick, r: real)
    requires l.pos.book.qty >= 0.0
    ensures AsksWithin(ScenarioStep(cfg, l, t, r).1, l.pos.book.qty)
  {
  }

  lemma PlainRequests(cfg: Config, l: Life, t: Tick, r: real, maxR: real)
    requires Fractions(cfg) && l.pos.book.qty >= 0.0
    ensures var actions := PlainGeneralStep(cfg, l, t, r, maxR).1;
            actions != [] ==> 0.0 <= RequestedQty(actions[|actions| - 1]) <= l.pos.book.qty
  {
    var (l1, a) := ScenarioStep(cfg, l, t, r);
    ScenarioRequests(cfg, l, t, r);
    ScenarioFrame(cfg, l, t, r);
    StagnationRequests(cfg, l1, maxR);
  }

  lemma GeneralRequests(cfg: Config, l: Life, t: Tick, r: real, maxR: real)
    requires Fractions(cfg) && l.pos.book.qty >= 0.0
    ensures var (l1, actions) := GeneralStep(cfg, l, t, r, maxR);
            && l1.pos.book.qty == l.pos.book.qty
            && (actions != [] ==> 0.0 <= RequestedQty(actions[|actions| - 1]) <= l.pos.book.qty)
  {
    GeneralStepFrame(cfg, l, t, r, maxR);
    if !l.pos.trail.partialTpDone && r >= cfg.partialR {
      FractionOf(l.pos.book.qty, cfg.partialFraction);
      return;
    }
    var l1 := if maxR >= cfg.trailingStartR then StartTrailing(l) else l;
    PlainRequests(cfg, l1, t, r, maxR);
  }

  /** No evaluation asks to close more than is held. */
  lemma EvaluateRequests(cfg: Config, l: Life, t: Tick)
    requires Fractions(cfg) && l.pos.book.qty >= 0.0
    ensures var (l1, actions) := Evaluate(cfg, l, t);
            && l1.pos.book.qty == l.pos.book.qty
            && (actions != [] ==> 0.0 <= RequestedQty(actions[|actions| - 1]) <= l.pos.book.qty)
  {
    hide ScoutStep, RunnerState, GeneralStep, HeldTooLong, RMultiple;
    if Managed(l.pos) {
      var l0 := Observe(l, t);
      if !HeldTooLong(cfg, l0.pos, t.now) {
        var (l1, prefix, general) := ScoutStep(cfg, l0, t, l0.trk.maxR);
        ScoutRequests(cfg, l0, t, l0.trk.maxR);
        if general {
          RunnerKeepsQty(cfg, l1, t, l0.trk.maxR);
          GeneralRequests(cfg, RunnerState(cfg, l1, t, l0.trk.maxR).0, t,
                          RMultiple(l0.pos, t.price), l0.trk.maxR);
        }
      }
    }
  }

  lemma RunnerKeepsQty(cfg: Config, l: Life, t: Tick, maxR: real)
    ensures var (l1, events) := RunnerState(cfg, l, t, maxR);
            l1.pos.book.qty == l.pos.book.qty && AllEvents(events)
  {
  }

  lemma CloseConserves(p: PositionState, o: CloseOutcome, reason: ExitReason, full: bool, q: Quote)
    ensures var p1 := ApplyClose(p, o, reason, full, q);
            && p1.book.qty + ClosedQty(p, o) == p.book.qty
            && (p.book.qty >= 0.0 && FillWithin(o, p.book.qty) ==> p1.book.qty >= 0.0)
            && (p.status == Closed ==> p1.status == Closed)
  {
  }

  /** A close that ends in CLOSED leaves nothing exactly when the exchange was already flat
      or the fill was all that was held: a full exit filled in part is CLOSED all the same. */
  lemma ClosedEmptyIff(p: PositionState, o: CloseOutcome, reason: ExitReason, full: bool, q: Quote)
    requires p.status != Closed && FillWithin(o, p.book.qty)
    ensures var p1 := ApplyClose(p, o, reason, full, q);
            p1.status == Closed ==> (p1.book.qty == 0.0 <==> o.AlreadyFlat? || o.qty == p.book.qty)
  {
  }

  lemma ApplyConserves(cfg: Config, l: Life, a: Action, s: Cycle)
    ensures var p1 := ApplyAction(cfg, l, a, s).0.pos;
            && p1.book.qty + (if a.ChangesQty() then ClosedQty(l.pos, s.outcome) else 0.0) == l.pos.book.qty
            && (l.pos.book.qty >= 0.0 && FillWithin(s.outcome, l.pos.book.qty) ==> p1.book.qty >= 0.0)
  {
    match a
    case Exit(_, reason) => CloseConserves(l.pos, s.outcome, reason, true, s.quote);
    case Reduce(_, reason, _) => CloseConserves(l.pos, s.outcome, reason, false, s.quote);
    case PartialTp(_) => CloseConserves(l.pos, s.outcome, PartialTakeProfit, false, s.quote);
    case _ =>
  }

  /** Evaluation and its last action, on a position after funding. */
  lemma EvaluatedConserves(cfg: Config, l: Life, c: Cycle)
    requires Fractions(cfg) && l.pos.book.qty >= 0.0
    requires var actions := Evaluate(cfg, l, c.tick).1;
             actions != [] ==> FillWithin(c.outcome, RequestedQty(actions[|actions| - 1]))
    ensures var (l1, actions) := Evaluate(cfg, l, c.tick);
            var closed := if actions != [] && actions[|actions| - 1].ChangesQty()
                          then ClosedQty(l1.pos, c.outcome) else 0.0;
            && EvaluateAndApply(cfg, l, c).0.pos.book.qty >= 0.0
            && EvaluateAndApply(cfg, l, c).0.pos.book.qty + closed == l.pos.book.qty
  {
    var (l1, actions) := Evaluate(cfg, l, c.tick);
    EvaluateRequests(cfg, l, c.tick);
    EvaluateShape(cfg, l, c.tick);
    ApplyLast(cfg, l1, actions, c);
    if actions != [] {
      ApplyConserves(cfg, l1, actions[|actions| - 1], c);
    }
  }

  lemma NextConserves(cfg: Config, l: Life, s: Step)
    requires Fractions(cfg) && l.pos.book.qty >= 0.0 && FillsWithin(cfg, l, s)
    ensures Next(cfg, l, s).0.pos.book.qty >= 0.0
    ensures Next(cfg, l, s).0.pos.book.qty + StepClosed(cfg, l, s) == l.pos.book.qty
  {
    hide Evaluate, EvaluateAndApply, ApplyClose;
    match s
    case CommandStep(c) =>
      CloseConserves(l.pos, c.outcome, c.reason, CommandQty(l.pos, c) >= l.pos.book.qty, c.quote);
      CommandWithin(l.pos, c);
    case ManageStep(c) =>
      if Managed(l.pos) {
        CloseConserves(l.pos, c.fundingOutcome, FundingGuard, false, c.quote);
        var l0 := AfterFunding(l, c);
        FractionOf(l.pos.book.qty, 0.5);
        if !(c.fundingReduce && l0.pos.book.qty <= 0.0) {
          EvaluatedConserves(cfg, l0, c);
        }
      }
  }

  lemma CommandWithin(p: PositionState, c: CloseCommand)
    requires p.book.qty >= 0.0
    ensures 0.0 <= CommandQty(p, c) <= p.book.qty
  {
    var pct := Min(100.0, Max(0.0, c.percent));
    FractionOf(p.book.qty, pct / 100.0);
    assert CommandQty(p, c) == Portion(p.book.qty, pct / 100.0);
  }

  /** Over any run whose fills stay within their orders, the quantity held never
      goes negative and held plus closed is the initial quantity. */
  lemma {:induction false} QuantityConserved(cfg: Config, l: Life, steps: seq<Step>)
    requires Fractions(cfg) && l.pos.book.qty >= 0.0 && RunFillsWithin(cfg, l, steps)
    ensures Run(cfg, l, steps).pos.book.qty >= 0.0
    ensures Run(cfg, l, steps).pos.book.qty + RunClosed(cfg, l, steps) == l.pos.book.qty
    decreases |steps|
  {
    if steps != [] {
      NextConserves(cfg, l, steps[0]);
      QuantityConserved(cfg, Next(cfg, l, steps[0]).0, steps[1..]);
    }
  }
}
