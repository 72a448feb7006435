/** The trailing stop, stated from what a run has seen: how far behind which price it
    trails, exactly when it exits, and where it leaves the stop. */
module Trailing {
  import opened Common
  import opened PositionModel
  import opened Management
  import opened Trading
  import opened Lifecycle
  import opened ScoutAutomaton
  import opened Exits
  import opened History

  /** The price is at the level or beyond it on the losing side. */
  predicate Reached(side: Side, price: real, level: real) {
    (price - level) * Direction(side) <= 0.0
  }

  /** Level a protects more than level b. */
  predicate Above(side: Side, a: real, b: real) {
    (a - b) * Direction(side) > 0.0
  }

  /** `level` lies `distance` behind the peak of a LONG or the trough of a SHORT; an extreme
      of exactly zero counts as absent, and the entry stands in for it. */
  predicate IsLevel(plan: Plan, peak: Option<real>, trough: Option<real>, distance: real, level: real) {
    var extreme := if plan.side == Long then peak else trough;
    && extreme.Some?
    && (level - if extreme.value != 0.0 then extreme.value else plan.entry) * Direction(plan.side) == -distance
  }

  /** Whether the last action is at most a move of the stop. */
  predicate OnlyStop(actions: seq<Action>) {
    actions == [] || actions[|actions| - 1].TrailUpdate?
  }

  // ---- what the evaluation after a run has in view ----

  /** The peak, trough and best R of everything seen up to and including t, and the R at t. */
  ghost predicate InView(cfg: Config, l: Life, steps: seq<Step>, t: Tick, peak: Option<real>, trough: Option<real>,
                         best: real, r: real)
  {
    var ticks := Seen(cfg, l, steps) + [t];
    && IsPeak(l.pos.path.highest, ticks, peak) && IsTrough(l.pos.path.lowest, ticks, trough)
    && IsBest(l.pos.plan, l.trk.maxR, ticks, best) && IsR(l.pos.plan, t.price, r)
  }

  lemma ViewIsObserved(cfg: Config, l: Life, steps: seq<Step>, t: Tick, peak: Option<real>, trough: Option<real>,
                       best: real, r: real)
    requires InView(cfg, l, steps, t, peak, trough, best, r)
    ensures var l0 := Observe(Run(cfg, l, steps), t);
            && l0.pos.plan == l.pos.plan && l0.pos.path.highest == peak && l0.pos.path.lowest == trough
            && l0.trk.maxR == best && RMultiple(l0.pos, t.price) == r
  {
    var l1, ticks := Run(cfg, l, steps), Seen(cfg, l, steps);
    var l0 := Observe(l1, t);
    assert l0.pos.plan == l1.pos.plan;
    RLaw(l0.pos, t.price);
    hide Run, Seen, Observe, RMultiple, IsPeak, IsTrough, IsBest, IsR;
    RunRemembers(cfg, l, steps);
    ObserveLaw(l1, t);
    PeakJoins(l.pos.path.highest, ticks, l1.pos.path.highest, [t], l0.pos.path.highest);
    TroughJoins(l.pos.path.lowest, ticks, l1.pos.path.lowest, [t], l0.pos.path.lowest);
    BestJoins(l.pos.plan, l.trk.maxR, ticks, l1.trk.maxR, [t], l0.trk.maxR);
    PeakUnique(l.pos.path.highest, ticks + [t], peak, l0.pos.path.highest);
    PeakUnique(l.pos.path.lowest, ticks + [t], trough, l0.pos.path.lowest);
    BestUnique(l.pos.plan, l.trk.maxR, ticks + [t], best, l0.trk.maxR);
    RUnique(l.pos.plan, t.price, r, RMultiple(l0.pos, t.price));
  }

  // ---- off runner mode ----

  /** Trailing has started and no partial profit comes first. */
  predicate Trails(cfg: Config, p: PositionState, best: real, r: real) {
    best >= cfg.trailingStartR && (p.trail.partialTpDone || r < cfg.partialR)
  }

  /** The price has reached the stop or the level. */
  predicate Hit(p: PositionState, price: real, level: real) {
    || (p.trail.stop.Some? && Reached(p.plan.side, price, p.trail.stop.value))
    || Reached(p.plan.side, price, level)
  }

  lemma BreachIsReach(side: Side, price: real, level: real)
    ensures StopBreached(side, price, level) <==> Reached(side, price, level)
  {
  }

  lemma TrailIsLevel(cfg: Config, p: PositionState, atr: real, maxR: real, m: real, level: real)
    requires IsLevel(p.plan, p.path.highest, p.path.lowest, atr * m, level)
    requires if p.runner.active && p.runner.mult.Some? then p.runner.mult == Some(m)
             else m == if maxR >= cfg.extendedAfterR then cfg.extendedMult else cfg.trailingMult
    ensures TrailStop(cfg, p, atr, maxR) == level
  {
  }

  lemma DueIsHit(cfg: Config, p: PositionState, t: Tick, maxR: real, level: real)
    requires TrailStop(cfg, p, t.atr, maxR) == level
    ensures TrailingDue(cfg, p, t, maxR) <==> maxR >= cfg.trailingStartR && Hit(p, t.price, level)
  {
    hide TrailStop, StopBreached, Reached;
    BreachIsReach(p.plan.side, t.price, level);
    if p.trail.stop.Some? {
      BreachIsReach(p.plan.side, t.price, p.trail.stop.value);
    }
  }

  /** Where the stop is left when the level is offered to it. */
  predicate Ratcheted(p: PositionState, level: real, p1: PositionState) {
    p1.trail.stop == if p.trail.stop.Some? && !Above(p.plan.side, level, p.trail.stop.value) then p.trail.stop
                     else Some(level)
  }

  lemma RatchetLaw(cfg: Config, p: PositionState, t: Tick, maxR: real)
    requires !p.runner.active
    ensures var (p1, moved) := RatchetStop(cfg, p, t, maxR);
            && Ratcheted(p, TrailStop(cfg, p, t.atr, maxR), p1)
            && moved == if p1.trail.stop == p.trail.stop then None else p1.trail.stop
  {
    hide TrailStop;
  }

  lemma PlainStop(cfg: Config, l: Life, t: Tick, r: real, maxR: real)
    requires !l.pos.runner.active && l.pos.trail.trailingActive
    requires l.pos.plan.entryMode != Some(RetestConfirm) || maxR >= 0.5
    ensures var (l1, actions) := PlainGeneralStep(cfg, l, t, r, maxR);
            OnlyStop(actions) ==>
              && Ratcheted(l.pos, TrailStop(cfg, l.pos, t.atr, maxR), l1.pos)
              && actions == if l1.pos.trail.stop == l.pos.trail.stop then [] else [TrailUpdate(l1.pos.trail.stop.value)]
  {
    ScenarioFrame(cfg, l, t, r);
    var l1 := ScenarioStep(cfg, l, t, r).0;
    StagnationFrame(cfg, l1, maxR);
    var l2 := StagnationStep(cfg, l1, maxR).0;
    assert TrailStop(cfg, l2.pos, t.atr, maxR) == TrailStop(cfg, l.pos, t.atr, maxR);
    RatchetLaw(cfg, l2.pos, t, maxR);
    ScenarioAsksNoStop(cfg, l, t, r);
    StagnationAsksNoStop(cfg, l1, maxR);
    hide ScenarioStep, StagnationStep, RatchetStop, TrailStop;
  }

  lemma ScenarioAsksNoStop(cfg: Config, l: Life, t: Tick, r: real)
    ensures var a := ScenarioStep(cfg, l, t, r).1; a.Some? ==> !a.value.TrailUpdate?
  {
    hide IsScenarioInvalid, ScoutInvalidConfirmed, MildRetestInvalid;
  }

  lemma StagnationAsksNoStop(cfg: Config, l: Life, maxR: real)
    requires l.pos.plan.entryMode != Some(RetestConfirm) || maxR >= 0.5
    ensures var a := StagnationStep(cfg, l, maxR).1; a.Some? ==> !a.value.TrailUpdate?
  {
    hide TightenStop;
  }

  lemma GeneralStop(cfg: Config, l: Life, t: Tick, r: real, maxR: real)
    requires !l.pos.runner.active && Trails(cfg, l.pos, maxR, r)
    requires l.pos.plan.entryMode != Some(RetestConfirm) || maxR >= 0.5
    ensures var (l1, actions) := GeneralStep(cfg, l, t, r, maxR);
            OnlyStop(actions) ==>
              && Ratcheted(l.pos, TrailStop(cfg, l.pos, t.atr, maxR), l1.pos)
              && actions == if l1.pos.trail.stop == l.pos.trail.stop then [] else [TrailUpdate(l1.pos.trail.stop.value)]
  {
    var l1 := StartTrailing(l);
    assert TrailStop(cfg, l1.pos, t.atr, maxR) == TrailStop(cfg, l.pos, t.atr, maxR);
    PlainStop(cfg, l1, t, r, maxR);
    hide PlainGeneralStep, TrailStop, EffectiveStop, StopBreached;
  }

  /** What an evaluation off runner mode does with a level: it exits exactly when trailing has
      started, no partial profit comes first and the price has reached the stop or the level;
      one that asks for nothing else leaves the stop at the tighter of the two, and asks for
      a move exactly when that moves it. */
  ghost predicate TrailsAt(cfg: Config, l: Life, t: Tick, best: real, r: real, level: real) {
    var (l1, actions) := Evaluate(cfg, l, t);
    && (TrailingExit(actions) <==> Trails(cfg, l.pos, best, r) && Hit(l.pos, t.price, level))
    && (Trails(cfg, l.pos, best, r) && OnlyStop(actions)
        && (l.pos.plan.entryMode != Some(RetestConfirm) || best >= 0.5) ==>
          && Ratcheted(l.pos, level, l1.pos)
          && actions == if l1.pos.trail.stop == l.pos.trail.stop then [] else [TrailUpdate(l1.pos.trail.stop.value)])
  }

  /** The extended multiplier exactly when the best R reaches extended_after_r. */
  predicate IsPlainMultiplier(cfg: Config, best: real, m: real) {
    if best >= cfg.extendedAfterR then m == cfg.extendedMult else m == cfg.trailingMult
  }

  lemma PlainEvaluation(cfg: Config, l: Life, t: Tick, m: real, level: real)
    requires Managed(l.pos) && !OnProbation(cfg, l.pos) && !l.pos.runner.active
    requires (t.now - l.pos.plan.openedAt) / 60.0 < cfg.maxHoldingMinutes
    requires IsPlainMultiplier(cfg, Observe(l, t).trk.maxR, m)
    requires var l0 := Observe(l, t);
             IsLevel(l0.pos.plan, l0.pos.path.highest, l0.pos.path.lowest, t.atr * m, level)
    ensures TrailsAt(cfg, l, t, Observe(l, t).trk.maxR, RMultiple(Observe(l, t).pos, t.price), level)
  {
    var l0 := Observe(l, t);
    assert l0.pos == l.pos.(path := l0.pos.path);
    assert !HeldTooLong(cfg, l0.pos, t.now);
    var best, r := l0.trk.maxR, RMultiple(l0.pos, t.price);
    assert RunnerState(cfg, l0, t, best) == (l0, []);
    TrailIsLevel(cfg, l0.pos, t.atr, best, m, level);
    TrailingExitIff(cfg, l, t);
    GeneralEvaluation(cfg, l, t);
    DueIsHit(cfg, l0.pos, t, best, level);
    var actions := GeneralStep(cfg, l0, t, r, best).1;
    assert [] + actions == actions;
    if Trails(cfg, l0.pos, best, r) && (l.pos.plan.entryMode != Some(RetestConfirm) || best >= 0.5) {
      GeneralStop(cfg, l0, t, r, best);
    }
    hide Evaluate, GeneralStep, RunnerState, RMultiple, Observe, TrailStop, TrailingDue, HeldTooLong, Reached, Above;
  }

  /** The law of the trailing stop off runner mode, over any run from any position: the level
      lies ATR times the multiplier behind the peak (for a SHORT, the trough) of all ticks the
      run has shown, with the multiplier that the best R of those ticks calls for. */
  lemma TrailingLaw(cfg: Config, l: Life, steps: seq<Step>, t: Tick, peak: Option<real>, trough: Option<real>,
                    best: real, r: real, m: real, level: real)
    requires var p := Run(cfg, l, steps).pos;
             && Managed(p) && !OnProbation(cfg, p) && !p.runner.active
             && (t.now - p.plan.openedAt) / 60.0 < cfg.maxHoldingMinutes
    requires InView(cfg, l, steps, t, peak, trough, best, r) && IsPlainMultiplier(cfg, best, m)
    requires IsLevel(l.pos.plan, peak, trough, t.atr * m, level)
    ensures TrailsAt(cfg, Run(cfg, l, steps), t, best, r, level)
  {
    hide *;
    var l1 := Run(cfg, l, steps);
    ViewIsObserved(cfg, l, steps, t, peak, trough, best, r);
    PlainEvaluation(cfg, l1, t, m, level);
  }

  // ---- in runner mode ----

  /** The multiplier a strength trails with. */
  predicate IsStrengthMultiplier(cfg: Config, strength: Option<Strength>, m: real) {
    || (strength == Some(Weak) && m == cfg.runner.weakMult)
    || (strength == Some(Strong) && m == cfg.runner.strongMult)
    || (strength == Some(VeryStrong) && m == cfg.runner.veryStrongMult)
  }

  /** A runner has a strength and trails with that strength's multiplier. */
  predicate RunnerInv(cfg: Config, p: PositionState) {
    p.runner.active ==> p.runner.mult.Some? && IsStrengthMultiplier(cfg, p.runner.strength, p.runner.mult.value)
  }

  lemma RunnerStateLaw(cfg: Config, l: Life, t: Tick, maxR: real)
    requires RunnerInv(cfg, l.pos)
    ensures var p := RunnerState(cfg, l, t, maxR).0.pos;
            && RunnerInv(cfg, p)
            && p == l.pos.(runner := l.pos.runner.(strength := p.runner.strength, mult := p.runner.mult))
  {
    hide TrendStrength, WeakDowngradePending;
  }

  lemma EvaluateKeepsRunner(cfg: Config, l: Life, t: Tick)
    requires RunnerInv(cfg, l.pos)
    ensures RunnerInv(cfg, Evaluate(cfg, l, t).0.pos)
  {
    if Managed(l.pos) {
      var l0 := Observe(l, t);
      assert l0.pos.runner == l.pos.runner;
      hide Observe, ScoutStep, RunnerState, GeneralStep, RMultiple, HeldTooLong;
      ScoutStepFrame(cfg, l0, t, l0.trk.maxR);
      var l1 := ScoutStep(cfg, l0, t, l0.trk.maxR).0;
      RunnerStateLaw(cfg, l1, t, l0.trk.maxR);
      var l2 := RunnerState(cfg, l1, t, l0.trk.maxR).0;
      GeneralStepFrame(cfg, l2, t, RMultiple(l0.pos, t.price), l0.trk.maxR);
    }
  }

  lemma ActivateKeepsRunner(cfg: Config, l: Life, t: Tick)
    requires RunnerInv(cfg, l.pos)
    ensures RunnerInv(cfg, ActivateRunner(cfg, l, t).0.pos)
  {
    hide TrendStrength, TrailStop, RunnerUpdateAllowed, RMultiple, UpdateExtremes;
    assert UpdateExtremes(l.pos, t.price, t.candle).runner == l.pos.runner by { ExtremesKeepRunner(l.pos, t); }
  }

  lemma ExtremesKeepRunner(p: PositionState, t: Tick)
    ensures UpdateExtremes(p, t.price, t.candle).runner == p.runner
  {
  }

  lemma NextKeepsRunner(cfg: Config, l: Life, s: Step)
    requires RunnerInv(cfg, l.pos)
    ensures RunnerInv(cfg, Next(cfg, l, s).0.pos)
  {
    if SeenIn(l, s) == [] {
      OtherwiseUntouched(cfg, l, s);
    } else {
      var l0 := AfterFunding(l, s.cycle);
      assert l0.pos.runner == l.pos.runner;
      CycleUnfolds(cfg, l, s.cycle);
      hide Next, Evaluate, AfterFunding, ActivateRunner, RunnerInv;
      EvaluateKeepsRunner(cfg, l0, s.cycle.tick) by { SameRunner(cfg, l.pos, l0.pos); }
      EvaluateShape(cfg, l0, s.cycle.tick);
      var (l1, actions) := Evaluate(cfg, l0, s.cycle.tick);
      ApplyLast(cfg, l1, actions, s.cycle);
      if actions != [] {
        ApplyKeepsRunner(cfg, l1, actions[|actions| - 1], s.cycle);
      }
    }
  }

  lemma SameRunner(cfg: Config, p: PositionState, p1: PositionState)
    requires p.runner == p1.runner
    ensures RunnerInv(cfg, p) <==> RunnerInv(cfg, p1)
  {
  }

  lemma ApplyKeepsRunner(cfg: Config, l: Life, a: Action, s: Cycle)
    requires RunnerInv(cfg, l.pos)
    ensures RunnerInv(cfg, ApplyAction(cfg, l, a, s).0.pos)
  {
    hide ActivateRunner;
    if a.PartialTp? {
      ActivateKeepsRunner(cfg, l.(pos := ApplyClose(l.pos, s.outcome, PartialTakeProfit, false, s.quote)), s.tick);
    }
  }

  lemma {:induction false} RunKeepsRunner(cfg: Config, l: Life, steps: seq<Step>)
    requires RunnerInv(cfg, l.pos)
    ensures RunnerInv(cfg, Run(cfg, l, steps).pos)
    decreases |steps|
  {
    if steps != [] {
      hide Next, RunnerInv;
      NextKeepsRunner(cfg, l, steps[0]);
      RunKeepsRunner(cfg, Next(cfg, l, steps[0]).0, steps[1..]);
    }
  }

  /** A runner's stop may move again: the minimum interval has passed, and the new level
      improves on the last one by the minimum share of the ATR. */
  predicate MayMove(cfg: Config, p: PositionState, t: Tick, level: real) {
    var last := if p.runner.lastStop.Some? && p.runner.lastStop.value != 0.0 then p.runner.lastStop else p.trail.stop;
    && (p.runner.lastUpdateAt.Some? ==> t.now - p.runner.lastUpdateAt.value >= cfg.runner.minUpdateInterval)
    && (last.Some? && t.atr > 0.0 ==>
          (level - last.value) * Direction(p.plan.side) >= t.atr * cfg.runner.minImprovementAtr)
  }

  /** The stop moves to the level exactly when that is tighter and the runner may move; a move
      is remembered with its time, and counts as the last one for the next. */
  predicate RunnerRatcheted(cfg: Config, p: PositionState, t: Tick, level: real, p1: PositionState) {
    if (p.trail.stop.None? || Above(p.plan.side, level, p.trail.stop.value)) && MayMove(cfg, p, t, level) then
      p1.trail.stop == Some(level) && p1.runner.lastStop == Some(level) && p1.runner.lastUpdateAt == Some(t.now)
    else
      && p1.trail.stop == p.trail.stop
      && p1.runner.lastStop == p.runner.lastStop && p1.runner.lastUpdateAt == p.runner.lastUpdateAt
  }

  lemma RunnerRatchetLaw(cfg: Config, p: PositionState, t: Tick, maxR: real)
    requires p.runner.active
    ensures RunnerRatcheted(cfg, p, t, TrailStop(cfg, p, t.atr, maxR), RatchetStop(cfg, p, t, maxR).0)
  {
    hide TrailStop;
  }

  lemma RunnerGeneralStop(cfg: Config, l: Life, t: Tick, r: real, maxR: real)
    requires l.pos.runner.active && Trails(cfg, l.pos, maxR, r)
    ensures var (l1, actions) := GeneralStep(cfg, l, t, r, maxR);
            !EndsInExit(actions) ==> RunnerRatcheted(cfg, l.pos, t, TrailStop(cfg, l.pos, t.atr, maxR), l1.pos)
  {
    var l1 := StartTrailing(l);
    assert TrailStop(cfg, l1.pos, t.atr, maxR) == TrailStop(cfg, l.pos, t.atr, maxR);
    RunnerRatchetLaw(cfg, l1.pos, t, maxR);
    hide TrailStop, EffectiveStop, StopBreached, RatchetStop, IsScenarioInvalid, MayMove;
    assert MayMoveSame(cfg, l.pos, l1.pos, t) by { StartKeepsMayMove(cfg, l, t); }
  }

  ghost predicate MayMoveSame(cfg: Config, p: PositionState, p1: PositionState, t: Tick) {
    forall level :: MayMove(cfg, p, t, level) <==> MayMove(cfg, p1, t, level)
  }

  lemma StartKeepsMayMove(cfg: Config, l: Life, t: Tick)
    ensures MayMoveSame(cfg, l.pos, StartTrailing(l).pos, t)
  {
  }

  /** What an evaluation in runner mode does with a level: the exit comes exactly as off
      runner mode, and without any exit the stop moves to the level exactly when that is
      tighter and the runner may move. */
  ghost predicate RunnerTrailsAt(cfg: Config, l: Life, t: Tick, best: real, r: real, level: real) {
    var (l1, actions) := Evaluate(cfg, l, t);
    && (TrailingExit(actions) <==> Trails(cfg, l.pos, best, r) && Hit(l.pos, t.price, level))
    && (Trails(cfg, l.pos, best, r) && !EndsInExit(actions) ==> RunnerRatcheted(cfg, l.pos, t, level, l1.pos))
  }

  lemma RunnerEvaluation(cfg: Config, l: Life, t: Tick, m: real, level: real)
    requires RunnerInv(cfg, l.pos)
    requires Managed(l.pos) && !OnProbation(cfg, l.pos) && l.pos.runner.active
    requires (t.now - l.pos.plan.openedAt) / 60.0 < cfg.maxHoldingMinutes
    requires IsStrengthMultiplier(cfg, Evaluate(cfg, l, t).0.pos.runner.strength, m)
    requires var l0 := Observe(l, t);
             IsLevel(l0.pos.plan, l0.pos.path.highest, l0.pos.path.lowest, t.atr * m, level)
    ensures RunnerTrailsAt(cfg, l, t, Observe(l, t).trk.maxR, RMultiple(Observe(l, t).pos, t.price), level)
  {
    var l0 := Observe(l, t);
    assert l0.pos == l.pos.(path := l0.pos.path);
    assert !HeldTooLong(cfg, l0.pos, t.now);
    var best, r := l0.trk.maxR, RMultiple(l0.pos, t.price);
    RunnerLevel(cfg, l, t, m, level);
    var l2 := RunnerState(cfg, l0, t, best).0;
    assert TrailStop(cfg, l2.pos, t.atr, best) == level;
    RunnerStateLaw(cfg, l0, t, best);
    hide Observe, RMultiple, HeldTooLong, OnProbation, RunnerState, IsLevel, TrailStop, IsStrengthMultiplier;
    RunnerExitPart(cfg, l, t, level);
    RunnerStopPart(cfg, l, t, level);
  }

  /** The strength an evaluation leaves fixes the level it trailed with. */
  lemma RunnerLevel(cfg: Config, l: Life, t: Tick, m: real, level: real)
    requires RunnerInv(cfg, l.pos) && l.pos.runner.active
    requires Managed(l.pos) && !OnProbation(cfg, l.pos) && !HeldTooLong(cfg, Observe(l, t).pos, t.now)
    requires IsStrengthMultiplier(cfg, Evaluate(cfg, l, t).0.pos.runner.strength, m)
    requires var l0 := Observe(l, t);
             IsLevel(l0.pos.plan, l0.pos.path.highest, l0.pos.path.lowest, t.atr * m, level)
    ensures var l0 := Observe(l, t);
            TrailStop(cfg, RunnerState(cfg, l0, t, l0.trk.maxR).0.pos, t.atr, l0.trk.maxR) == level
  {
    var l0 := Observe(l, t);
    assert l0.pos.runner == l.pos.runner;
    var best, r := l0.trk.maxR, RMultiple(l0.pos, t.price);
    GeneralEvaluation(cfg, l, t);
    var l2 := RunnerState(cfg, l0, t, best).0;
    GeneralStepFrame(cfg, l2, t, r, best);
    assert GeneralStep(cfg, l2, t, r, best).0.pos.runner.strength == l2.pos.runner.strength;
    RunnerStateLaw(cfg, l0, t, best);
    hide Evaluate, GeneralStep, RunnerState, RMultiple, Observe, HeldTooLong, OnProbation;
    StrengthFixes(cfg, l2.pos, m);
    TrailIsLevel(cfg, l2.pos, t.atr, best, m, level);
    hide TrailStop, IsLevel, IsStrengthMultiplier;
  }

  lemma RunnerExitPart(cfg: Config, l: Life, t: Tick, level: real)
    requires RunnerInv(cfg, l.pos)
    requires Managed(l.pos) && !OnProbation(cfg, l.pos) && !HeldTooLong(cfg, Observe(l, t).pos, t.now)
    requires var l0 := Observe(l, t);
             TrailStop(cfg, RunnerState(cfg, l0, t, l0.trk.maxR).0.pos, t.atr, l0.trk.maxR) == level
    ensures var best, r := Observe(l, t).trk.maxR, RMultiple(Observe(l, t).pos, t.price);
            TrailingExit(Evaluate(cfg, l, t).1) <==> Trails(cfg, l.pos, best, r) && Hit(l.pos, t.price, level)
  {
    var l0 := Observe(l, t);
    assert l0.pos == l.pos.(path := l0.pos.path);
    var best := l0.trk.maxR;
    RunnerKeepsTrail(cfg, l0, t, best);
    TrailingExitIff(cfg, l, t);
    RunnerStateLaw(cfg, l0, t, best);
    DueIsHit(cfg, RunnerState(cfg, l0, t, best).0.pos, t, best, level);
    hide Evaluate, RunnerState, RMultiple, Observe, TrailStop, TrailingDue, HeldTooLong, Reached, OnProbation;
  }

  lemma RunnerStopPart(cfg: Config, l: Life, t: Tick, level: real)
    requires RunnerInv(cfg, l.pos) && l.pos.runner.active
    requires Managed(l.pos) && !OnProbation(cfg, l.pos) && !HeldTooLong(cfg, Observe(l, t).pos, t.now)
    requires var l0 := Observe(l, t);
             TrailStop(cfg, RunnerState(cfg, l0, t, l0.trk.maxR).0.pos, t.atr, l0.trk.maxR) == level
    ensures var best, r := Observe(l, t).trk.maxR, RMultiple(Observe(l, t).pos, t.price);
            var (l1, actions) := Evaluate(cfg, l, t);
            Trails(cfg, l.pos, best, r) && !EndsInExit(actions) ==> RunnerRatcheted(cfg, l.pos, t, level, l1.pos)
  {
    hide *;
    var l0 := Observe(l, t);
    ObserveFrame(l, t);
    var best, r := l0.trk.maxR, RMultiple(l0.pos, t.price);
    RunnerStateLaw(cfg, l0, t, best) by { SameRunner(cfg, l.pos, l0.pos); }
    RunnerOnlyNotices(cfg, l0, t, best);
    GeneralEvaluation(cfg, l, t);
    var (l2, events) := RunnerState(cfg, l0, t, best);
    var (l3, actions) := GeneralStep(cfg, l2, t, r, best);
    LastIsGeneral(events, actions);
    if Trails(cfg, l.pos, best, r) {
      SameTrails(cfg, l.pos, l2.pos, best, r);
      RunnerGeneralStop(cfg, l2, t, r, best);
      if !EndsInExit(actions) {
        SameMayMove(cfg, l.pos, l2.pos, t, level, l3.pos);
      }
    }
  }

  lemma SameTrails(cfg: Config, p: PositionState, p1: PositionState, best: real, r: real)
    requires p.trail == p1.trail
    ensures Trails(cfg, p, best, r) <==> Trails(cfg, p1, best, r)
  {
  }

  lemma ObserveFrame(l: Life, t: Tick)
    ensures Observe(l, t).pos == l.pos.(path := Observe(l, t).pos.path)
  {
    hide RMultiple;
  }

  /** The law in runner mode: the multiplier is that of the strength the evaluation leaves
      the runner with. */
  lemma RunnerTrailingLaw(cfg: Config, l: Life, steps: seq<Step>, t: Tick, peak: Option<real>, trough: Option<real>,
                          best: real, r: real, m: real, level: real)
    requires RunnerInv(cfg, l.pos)
    requires var p := Run(cfg, l, steps).pos;
             && Managed(p) && !OnProbation(cfg, p) && p.runner.active
             && (t.now - p.plan.openedAt) / 60.0 < cfg.maxHoldingMinutes
    requires InView(cfg, l, steps, t, peak, trough, best, r)
    requires IsStrengthMultiplier(cfg, Evaluate(cfg, Run(cfg, l, steps), t).0.pos.runner.strength, m)
    requires IsLevel(l.pos.plan, peak, trough, t.atr * m, level)
    ensures RunnerTrailsAt(cfg, Run(cfg, l, steps), t, best, r, level)
  {
    hide *;
    var l1 := Run(cfg, l, steps);
    ViewIsObserved(cfg, l, steps, t, peak, trough, best, r);
    RunKeepsRunner(cfg, l, steps);
    RunnerEvaluation(cfg, l1, t, m, level);
  }

  lemma LastIsGeneral(events: seq<Action>, actions: seq<Action>)
    requires !EndsInExit(events)
    ensures EndsInExit(events + actions) <==> EndsInExit(actions)
  {
    if actions == [] {
      assert events + actions == events;
    } else {
      assert (events + actions)[|events + actions| - 1] == actions[|actions| - 1];
    }
  }

  lemma StrengthFixes(cfg: Config, p: PositionState, m: real)
    requires RunnerInv(cfg, p) && p.runner.active && IsStrengthMultiplier(cfg, p.runner.strength, m)
    ensures p.runner.mult == Some(m)
  {
  }

  lemma EnterLaw(cfg: Config, l: Life, t: Tick, maxR: real)
    ensures var p := EnterRunner(cfg, l, t, maxR).0.pos;
            && RunnerInv(cfg, p) && p.runner.active
            && p == l.pos.(runner := l.pos.runner.(active := true, strength := p.runner.strength,
                                                   mult := p.runner.mult))
  {
    hide TrendStrength;
  }

  lemma ExtremesSeen(p: PositionState, t: Tick)
    ensures var p1 := UpdateExtremes(p, t.price, t.candle);
            && p1 == p.(path := p1.path)
            && IsPeak(p.path.highest, [t], p1.path.highest) && IsTrough(p.path.lowest, [t], p1.path.lowest)
  {
    assert HighOf([t][0]) == HighOf(t) && LowOf([t][0]) == LowOf(t);
  }

  /** An activation that takes effect enters runner mode and offers the stop its level. */
  lemma ActivationUnfolds(cfg: Config, l: Life, t: Tick)
    requires !l.pos.runner.active && ActivateRunner(cfg, l, t).0.pos.runner.active
    ensures var p := UpdateExtremes(l.pos, t.price, t.candle);
            var maxR := Max(l.trk.maxR, RMultiple(p, t.price));
            ActivateRunner(cfg, l, t).0.pos
            == RatchetStop(cfg, EnterRunner(cfg, Life(p, l.trk), t, maxR).0.pos, t, maxR).0
  {
    ExtremesSeen(l.pos, t);
    hide RatchetStop, EnterRunner, UpdateExtremes, RMultiple;
  }

  lemma RatchetKeepsStrength(cfg: Config, p: PositionState, t: Tick, maxR: real)
    ensures RatchetStop(cfg, p, t, maxR).0.runner.strength == p.runner.strength
  {
    hide TrailStop, RunnerUpdateAllowed, Ratchet;
  }

  lemma SameMayMove(cfg: Config, p: PositionState, p1: PositionState, t: Tick, level: real, q: PositionState)
    requires p1.plan == p.plan && p1.trail == p.trail
    requires p1.runner.lastStop == p.runner.lastStop && p1.runner.lastUpdateAt == p.runner.lastUpdateAt
    requires RunnerRatcheted(cfg, p1, t, level, q)
    ensures RunnerRatcheted(cfg, p, t, level, q)
  {
    hide Above;
  }

  /** Entering runner mode: the first stop trails the extreme of everything seen, the tick of
      the partial fill included, by the entering strength's multiplier, under the same rule. */
  lemma ActivationLaw(cfg: Config, l: Life, t: Tick, peak: Option<real>, trough: Option<real>, m: real, level: real)
    requires !l.pos.runner.active && ActivateRunner(cfg, l, t).0.pos.runner.active
    requires IsPeak(l.pos.path.highest, [t], peak) && IsTrough(l.pos.path.lowest, [t], trough)
    requires IsStrengthMultiplier(cfg, ActivateRunner(cfg, l, t).0.pos.runner.strength, m)
    requires IsLevel(l.pos.plan, peak, trough, t.atr * m, level)
    ensures RunnerRatcheted(cfg, l.pos, t, level, ActivateRunner(cfg, l, t).0.pos)
  {
    hide *;
    ActivationUnfolds(cfg, l, t);
    ExtremesSeen(l.pos, t);
    var p := UpdateExtremes(l.pos, t.price, t.candle);
    PeakUnique(l.pos.path.highest, [t], peak, p.path.highest);
    PeakUnique(l.pos.path.lowest, [t], trough, p.path.lowest);
    var maxR := Max(l.trk.maxR, RMultiple(p, t.price));
    EnterLaw(cfg, Life(p, l.trk), t, maxR);
    var p1 := EnterRunner(cfg, Life(p, l.trk), t, maxR).0.pos;
    RatchetKeepsStrength(cfg, p1, t, maxR);
    EnteredLaw(cfg, l.pos, p1, t, maxR, peak, trough, m, level);
  }

  lemma EnteredLaw(cfg: Config, p: PositionState, p1: PositionState, t: Tick, maxR: real, peak: Option<real>,
                   trough: Option<real>, m: real, level: real)
    requires p1.plan == p.plan && p1.trail == p.trail && p1.path.highest == peak && p1.path.lowest == trough
    requires p1.runner.lastStop == p.runner.lastStop && p1.runner.lastUpdateAt == p.runner.lastUpdateAt
    requires p1.runner.active && RunnerInv(cfg, p1) && IsStrengthMultiplier(cfg, p1.runner.strength, m)
    requires IsLevel(p.plan, peak, trough, t.atr * m, level)
    ensures RunnerRatcheted(cfg, p, t, level, RatchetStop(cfg, p1, t, maxR).0)
  {
    StrengthFixes(cfg, p1, m);
    TrailIsLevel(cfg, p1, t.atr, maxR, m, level);
    hide IsLevel, TrailStop, RatchetStop, RunnerRatcheted, IsStrengthMultiplier, RunnerInv;
    RunnerRatchetLaw(cfg, p1, t, maxR);
    SameMayMove(cfg, p, p1, t, level, RatchetStop(cfg, p1, t, maxR).0);
  }
}
