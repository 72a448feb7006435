/** Exits that have to happen: a breached stop, and a broken scenario that does not
    recover in time. */
module Exits {
  import opened Common
  import opened PositionModel
  import opened Management
  import opened Trading
  import opened Lifecycle
  import opened Requests
  import opened ScoutAutomaton

  predicate EndsInExit(actions: seq<Action>) {
    actions != [] && actions[|actions| - 1].Exit?
  }

  predicate TrailingExit(actions: seq<Action>) {
    EndsInExit(actions) && actions[|actions| - 1].reason in {TrailingStop, RunnerTrailingStop}
  }

  lemma OffProbationPasses(cfg: Config, l: Life, t: Tick, maxR: real)
    requires !OnProbation(cfg, l.pos)
    ensures ScoutStep(cfg, l, t, maxR) == (l, [], true)
  {
    hide ScoutIsConfirmed, ScoutWatch;
  }

  /** The evaluation of a position off probation is general management of what was
      observed, after the runner's own notices. */
  lemma GeneralEvaluation(cfg: Config, l: Life, t: Tick)
    requires Managed(l.pos) && !OnProbation(cfg, l.pos) && !HeldTooLong(cfg, Observe(l, t).pos, t.now)
    ensures var l0 := Observe(l, t);
            var (l2, events) := RunnerState(cfg, l0, t, l0.trk.maxR);
            var (l3, actions) := GeneralStep(cfg, l2, t, RMultiple(l0.pos, t.price), l0.trk.maxR);
            Evaluate(cfg, l, t) == (l3, events + actions)
  {
    var l0 := Observe(l, t);
    assert !OnProbation(cfg, l0.pos);
    hide GeneralStep, RunnerState, ScoutStep, RMultiple, HeldTooLong, OnProbation, Observe;
    OffProbationPasses(cfg, l0, t, l0.trk.maxR);
    var events := RunnerState(cfg, l0, t, l0.trk.maxR).1;
    assert [] + events == events;
  }

  lemma EffectiveBreach(p: PositionState, price: real, trail: real)
    ensures StopBreached(p.plan.side, price, EffectiveStop(p, trail)) <==>
            (p.trail.stop.Some? && StopBreached(p.plan.side, price, p.trail.stop.value))
            || StopBreached(p.plan.side, price, trail)
  {
  }

  lemma PlainNeverTrails(cfg: Config, l: Life, t: Tick, r: real, maxR: real)
    ensures !TrailingExit(PlainGeneralStep(cfg, l, t, r, maxR).1)
    ensures !TrailingExit(RunnerGeneralStep(cfg, l, t, maxR).1)
  {
    hide IsScenarioInvalid, RatchetStop, TightenStop, ScoutInvalidConfirmed, MildRetestInvalid;
  }

  /** Trailing has started and the price has reached the stop or the trail. */
  predicate TrailingDue(cfg: Config, p: PositionState, t: Tick, maxR: real) {
    && maxR >= cfg.trailingStartR
    && ((p.trail.stop.Some? && StopBreached(p.plan.side, t.price, p.trail.stop.value))
        || StopBreached(p.plan.side, t.price, TrailStop(cfg, p, t.atr, maxR)))
  }

  /** An evaluation off probation ends in a trailing exit exactly when no partial profit is
      due, the best R so far has started the trailing, and the price has reached the
      current stop or the trail behind the extreme. */
  lemma TrailingExitIff(cfg: Config, l: Life, t: Tick)
    requires Managed(l.pos) && !OnProbation(cfg, l.pos) && !HeldTooLong(cfg, Observe(l, t).pos, t.now)
    ensures var l0 := Observe(l, t);
            var p := RunnerState(cfg, l0, t, l0.trk.maxR).0.pos;
            TrailingExit(Evaluate(cfg, l, t).1) <==>
            && (p.trail.partialTpDone || RMultiple(l0.pos, t.price) < cfg.partialR)
            && TrailingDue(cfg, p, t, l0.trk.maxR)
  {
    GeneralEvaluation(cfg, l, t);
    var l0 := Observe(l, t);
    var (l2, events) := RunnerState(cfg, l0, t, l0.trk.maxR);
    var r := RMultiple(l0.pos, t.price);
    RunnerOnlyNotices(cfg, l0, t, l0.trk.maxR);
    hide Evaluate, Observe, RunnerState, RMultiple, TrailingDue;
    TrailingExitFrom(cfg, l2, t, r, l0.trk.maxR);
    var actions := GeneralStep(cfg, l2, t, r, l0.trk.maxR).1;
    hide GeneralStep;
    if actions == [] {
      assert events + actions == events;
    } else {
      assert (events + actions)[|events + actions| - 1] == actions[|actions| - 1];
    }
  }

  lemma RunnerOnlyNotices(cfg: Config, l: Life, t: Tick, maxR: real)
    ensures !EndsInExit(RunnerState(cfg, l, t, maxR).1)
  {
    hide TrendStrength, WeakDowngradePending;
  }

  lemma TrailingExitFrom(cfg: Config, l: Life, t: Tick, r: real, maxR: real)
    ensures TrailingExit(GeneralStep(cfg, l, t, r, maxR).1) <==>
            && (l.pos.trail.partialTpDone || r < cfg.partialR)
            && TrailingDue(cfg, l.pos, t, maxR)
  {
    var l1 := StartTrailing(l);
    assert TrailStop(cfg, l1.pos, t.atr, maxR) == TrailStop(cfg, l.pos, t.atr, maxR);
    EffectiveBreach(l1.pos, t.price, TrailStop(cfg, l.pos, t.atr, maxR));
    var l2 := if maxR >= cfg.trailingStartR then l1 else l;
    PlainNeverTrails(cfg, l2, t, r, maxR);
    hide TrailStop, EffectiveStop, StopBreached, PlainGeneralStep, RunnerGeneralStep;
  }

  // ---- the recovery countdown ----

  /** Under ordinary management: something held, off probation and not a runner. */
  predicate Steady(cfg: Config, p: PositionState) {
    Managed(p) && !OnProbation(cfg, p) && !p.runner.active && p.book.qty > 0.0
  }

  /** A tick at which the position is below half an R and due no partial profit. */
  predicate Unrecovered(cfg: Config, l: Life, t: Tick) {
    var r := RMultiple(Observe(l, t).pos, t.price);
    r < 0.5 && (l.pos.trail.partialTpDone || r < cfg.partialR)
  }

  predicate ScenarioReduce(actions: seq<Action>) {
    actions != [] && actions[|actions| - 1].Reduce? && actions[|actions| - 1].reason == ScenarioInvalid
  }

  lemma PlainArms(cfg: Config, l: Life, t: Tick, r: real, maxR: real)
    ensures var (l1, actions) := PlainGeneralStep(cfg, l, t, r, maxR);
            ScenarioReduce(actions) ==> l1.trk.scenario.recovery == Some(3) && l1.trk.scenario.reduced
  {
    hide RatchetStop, TightenStop, IsScenarioInvalid, ScoutInvalidConfirmed, MildRetestInvalid;
  }

  lemma GeneralArms(cfg: Config, l: Life, t: Tick, r: real, maxR: real)
    ensures var (l1, actions) := GeneralStep(cfg, l, t, r, maxR);
            ScenarioReduce(actions) ==> l1.trk.scenario.recovery == Some(3) && l1.trk.scenario.reduced
  {
    PlainArms(cfg, if maxR >= cfg.trailingStartR then StartTrailing(l) else l, t, r, maxR);
    hide PlainGeneralStep, RatchetStop, TrailStop, EffectiveStop, StopBreached, IsScenarioInvalid;
  }

  /** A scenario reduction sets the countdown to three. */
  lemma ReductionArms(cfg: Config, l: Life, t: Tick)
    requires Managed(l.pos) && !OnProbation(cfg, l.pos) && !HeldTooLong(cfg, Observe(l, t).pos, t.now)
    ensures var (l1, actions) := Evaluate(cfg, l, t);
            ScenarioReduce(actions) ==> l1.trk.scenario.recovery == Some(3) && l1.trk.scenario.reduced
  {
    GeneralEvaluation(cfg, l, t);
    var l0 := Observe(l, t);
    var (l2, events) := RunnerState(cfg, l0, t, l0.trk.maxR);
    RunnerNotices(cfg, l0, t, l0.trk.maxR);
    hide Evaluate, Observe, RunnerState, RMultiple, GeneralStep;
    var r := RMultiple(l0.pos, t.price);
    GeneralArms(cfg, l2, t, r, l0.trk.maxR);
    var actions := GeneralStep(cfg, l2, t, r, l0.trk.maxR).1;
    if actions == [] {
      assert events + actions == events;
    } else {
      assert (events + actions)[|events + actions| - 1] == actions[|actions| - 1];
    }
  }

  lemma RunnerNotices(cfg: Config, l: Life, t: Tick, maxR: real)
    ensures !ScenarioReduce(RunnerState(cfg, l, t, maxR).1)
  {
    hide TrendStrength, WeakDowngradePending;
  }

  /** n cycles are left to recover. */
  predicate Counting(l: Life, n: int) {
    n >= 1 && l.trk.scenario.recovery == Some(n)
  }

  lemma StagnationKeepsCount(cfg: Config, l: Life, maxR: real)
    ensures var (l1, a) := StagnationStep(cfg, l, maxR);
            l1.trk.scenario == l.trk.scenario && (a.Some? ==> !a.value.PartialTp?)
  {
    hide TightenStop;
  }

  lemma RatchetKeepsCount(cfg: Config, l: Life, t: Tick, maxR: real)
    ensures var (l1, actions) := RatchetStep(cfg, l, t, maxR);
            l1.trk == l.trk && (actions != [] ==> !actions[|actions| - 1].PartialTp?)
  {
    hide TrailStop, RunnerUpdateAllowed;
  }

  lemma CountdownPlain(cfg: Config, l: Life, t: Tick, r: real, maxR: real, n: int)
    requires Counting(l, n) && r < 0.5
    ensures var (l1, actions) := PlainGeneralStep(cfg, l, t, r, maxR);
            && (EndsInExit(actions) || Counting(l1, n - 1))
            && (actions != [] ==> !actions[|actions| - 1].PartialTp?)
  {
    var l1 := ScenarioStep(cfg, l, t, r).0;
    StagnationKeepsCount(cfg, l1, maxR);
    RatchetKeepsCount(cfg, StagnationStep(cfg, l1, maxR).0, t, maxR);
    hide StagnationStep, RatchetStep, IsScenarioInvalid;
  }

  lemma CountdownGeneral(cfg: Config, l: Life, t: Tick, r: real, maxR: real, n: int)
    requires Counting(l, n) && r < 0.5 && (l.pos.trail.partialTpDone || r < cfg.partialR) && !l.pos.runner.active
    ensures var (l1, actions) := GeneralStep(cfg, l, t, r, maxR);
            && (EndsInExit(actions) || Counting(l1, n - 1))
            && (actions != [] ==> !actions[|actions| - 1].PartialTp?)
  {
    CountdownPlain(cfg, if maxR >= cfg.trailingStartR then StartTrailing(l) else l, t, r, maxR, n);
    hide PlainGeneralStep, TrailStop, EffectiveStop, StopBreached;
  }

  // ---- what becomes of an exit ----

  /** The cycle reaches the manager: the position is held after any funding reduction. */
  predicate Evaluated(l: Life, s: Cycle) {
    Managed(l.pos) && !(s.fundingReduce && AfterFunding(l, s).pos.book.qty <= 0.0)
  }

  lemma FundingHeld(l: Life, s: Cycle)
    requires Evaluated(l, s)
    ensures Managed(AfterFunding(l, s).pos) && AfterFunding(l, s).pos.path == l.pos.path
  {
  }

  /** An exit decided in a cycle ends in CLOSED exactly when the executor answers that the
      exchange is flat or fills more than nothing. Otherwise the position keeps all it
      held in CLOSING, and no later cycle or operator close changes it again. */
  lemma ExitSettlesIff(cfg: Config, l: Life, s: Cycle, steps: seq<Step>)
    requires Evaluated(l, s) && EndsInExit(Evaluate(cfg, AfterFunding(l, s), s.tick).1)
    ensures var l1 := Next(cfg, l, ManageStep(s)).0;
            && (l1.pos.status == Closed <==> s.outcome.AlreadyFlat? || s.outcome.qty > 0.0)
            && (l1.pos.status != Closed ==>
                && l1.pos.status == Closing && l1.pos.book == AfterFunding(l, s).pos.book
                && Run(cfg, l1, steps) == l1)
  {
    hide Next, Evaluate, AfterFunding, ApplyClose, Asks;
    ExitCycle(cfg, l, s);
    var (l1, actions) := Evaluate(cfg, AfterFunding(l, s), s.tick);
    ExitApplied(l1.pos, s.outcome, actions[|actions| - 1].reason, s.quote);
    var l2 := Next(cfg, l, ManageStep(s)).0;
    if l2.pos.status == Closing {
      NothingAfterExit(cfg, l2, steps);
    }
  }

  lemma ExitApplied(p: PositionState, o: CloseOutcome, reason: ExitReason, q: Quote)
    requires p.status == Closing
    ensures var p1 := ApplyClose(p, o, reason, true, q);
            if o.AlreadyFlat? || o.qty > 0.0 then p1.status == Closed else p1 == p
  {
  }

  lemma ExitCycle(cfg: Config, l: Life, s: Cycle)
    requires Evaluated(l, s) && EndsInExit(Evaluate(cfg, AfterFunding(l, s), s.tick).1)
    ensures var l0 := AfterFunding(l, s);
            var (l1, actions) := Evaluate(cfg, l0, s.tick);
            && l1.pos.status == Closing && l1.pos.book == l0.pos.book
            && Next(cfg, l, ManageStep(s)).0.pos ==
               ApplyClose(l1.pos, s.outcome, actions[|actions| - 1].reason, true, s.quote)
  {
    var l0 := AfterFunding(l, s);
    FundingHeld(l, s);
    CycleUnfolds(cfg, l, s);
    hide Next, Managed, Evaluate, AfterFunding, ActivateRunner, ApplyClose;
    var (l1, actions) := Evaluate(cfg, l0, s.tick);
    EvaluateAsks(cfg, l0, s.tick);
    EvaluateShape(cfg, l0, s.tick);
    ApplyLast(cfg, l1, actions, s);
  }

  lemma CycleUnfolds(cfg: Config, l: Life, s: Cycle)
    requires Evaluated(l, s)
    ensures Next(cfg, l, ManageStep(s)).0 == EvaluateAndApply(cfg, AfterFunding(l, s), s).0
  {
    hide EvaluateAndApply, AfterFunding;
  }

  // ---- tracking inherited from an earlier position ----

  lemma RatchetKeepsTrailing(cfg: Config, l: Life, t: Tick, maxR: real)
    ensures RatchetStep(cfg, l, t, maxR).0.pos.trail.trailingActive == l.pos.trail.trailingActive
  {
    hide TrailStop, RunnerUpdateAllowed;
  }

  lemma PlainKeepsTrailing(cfg: Config, l: Life, t: Tick, r: real, maxR: real)
    ensures PlainGeneralStep(cfg, l, t, r, maxR).0.pos.trail.trailingActive == l.pos.trail.trailingActive
  {
    ScenarioFrame(cfg, l, t, r);
    var l1 := ScenarioStep(cfg, l, t, r).0;
    StagnationFrame(cfg, l1, maxR);
    RatchetKeepsTrailing(cfg, StagnationStep(cfg, l1, maxR).0, t, maxR);
    hide ScenarioStep, StagnationStep, RatchetStep;
  }

  lemma RunnerKeepsTrailing(cfg: Config, l: Life, t: Tick, maxR: real)
    ensures RunnerGeneralStep(cfg, l, t, maxR).0.pos.trail.trailingActive == l.pos.trail.trailingActive
  {
    RatchetKeepsTrailing(cfg, Life(l.pos, IsScenarioInvalid(l.pos, l.trk, t, false).0), t, maxR);
    hide IsScenarioInvalid, RatchetStep;
  }

  lemma GeneralTrails(cfg: Config, l: Life, t: Tick, r: real, maxR: real)
    requires !l.pos.trail.trailingActive
    ensures GeneralStep(cfg, l, t, r, maxR).0.pos.trail.trailingActive <==>
            (l.pos.trail.partialTpDone || r < cfg.partialR) && maxR >= cfg.trailingStartR
  {
    var l1 := if maxR >= cfg.trailingStartR then StartTrailing(l) else l;
    PlainKeepsTrailing(cfg, l1, t, r, maxR);
    RunnerKeepsTrailing(cfg, l1, t, maxR);
    hide PlainGeneralStep, RunnerGeneralStep, TrailStop, EffectiveStop, StopBreached;
  }

  /** The best R is tracked by symbol and outlives a close: a position that is not trailing
      yet starts to at an evaluation exactly when no partial profit comes first and either
      its own R or the maximum it inherited reaches the start, however it has fared itself. */
  lemma InheritedMaximumTrails(cfg: Config, l: Life, t: Tick)
    requires Managed(l.pos) && !OnProbation(cfg, l.pos) && !HeldTooLong(cfg, Observe(l, t).pos, t.now)
    requires !l.pos.trail.trailingActive
    ensures var r := RMultiple(Observe(l, t).pos, t.price);
            Evaluate(cfg, l, t).0.pos.trail.trailingActive <==>
            && (l.pos.trail.partialTpDone || r < cfg.partialR)
            && (l.trk.maxR >= cfg.trailingStartR || r >= cfg.trailingStartR)
  {
    GeneralEvaluation(cfg, l, t);
    var l0 := Observe(l, t);
    RunnerKeepsTrail(cfg, l0, t, l0.trk.maxR);
    var l2 := RunnerState(cfg, l0, t, l0.trk.maxR).0;
    GeneralTrails(cfg, l2, t, RMultiple(l0.pos, t.price), l0.trk.maxR);
    hide Evaluate, RunnerState, GeneralStep, RMultiple, HeldTooLong;
  }

  lemma RunnerKeepsTrail(cfg: Config, l: Life, t: Tick, maxR: real)
    ensures RunnerState(cfg, l, t, maxR).0.pos.trail == l.pos.trail
  {
    hide TrendStrength, WeakDowngradePending;
  }

  // ---- one evaluation of the countdown ----

  /** One evaluation either exits or counts down. */
  lemma CountdownEvaluate(cfg: Config, l: Life, t: Tick, n: int)
    requires Steady(cfg, l.pos) && Counting(l, n) && Unrecovered(cfg, l, t)
    ensures var (l1, actions) := Evaluate(cfg, l, t);
            && (l1.pos.status == Closing || (Steady(cfg, l1.pos) && Counting(l1, n - 1)))
            && (actions != [] ==> !actions[|actions| - 1].PartialTp?)
  {
    var l0 := Observe(l, t);
    assert Steady(cfg, l0.pos) && Counting(l0, n) && l0.pos.trail.partialTpDone == l.pos.trail.partialTpDone;
    var r := RMultiple(l0.pos, t.price);
    if HeldTooLong(cfg, l0.pos, t.now) {
      assert Evaluate(cfg, l, t).0.pos.status == Closing by { hide EvaluateObserved; }
    } else {
      GeneralEvaluation(cfg, l, t);
      assert RunnerState(cfg, l0, t, l0.trk.maxR) == (l0, []);
      CountdownGeneral(cfg, l0, t, r, l0.trk.maxR, n);
      GeneralAsks(cfg, l0, t, r, l0.trk.maxR);
      GeneralStepFrame(cfg, l0, t, r, l0.trk.maxR);
      var actions := GeneralStep(cfg, l0, t, r, l0.trk.maxR).1;
      assert [] + actions == actions;
      hide Evaluate, GeneralStep, RMultiple, Observe, HeldTooLong;
    }
  }

  lemma ApplyKeepsCountdown(cfg: Config, l: Life, a: Action, s: Cycle, n: int)
    requires Steady(cfg, l.pos) && Counting(l, n) && !a.PartialTp?
    ensures var l1 := ApplyAction(cfg, l, a, s).0;
            Counting(l1, n) && (Managed(l1.pos) ==> Steady(cfg, l1.pos))
  {
  }

  lemma ClosingStays(cfg: Config, l: Life, actions: seq<Action>, s: Cycle)
    requires EventsThenOne(actions) && l.pos.status == Closing
    requires actions != [] ==> !actions[|actions| - 1].PartialTp?
    ensures !Managed(ApplyActions(cfg, l, actions, s).0.pos)
  {
    ApplyLast(cfg, l, actions, s);
  }

  /** A management cycle that finds the position unrecovered takes it off the books'
      active side or uses up one of the cycles left. */
  lemma CountdownCycle(cfg: Config, l: Life, s: Cycle, n: int)
    requires Steady(cfg, l.pos) && Counting(l, n) && Unrecovered(cfg, AfterFunding(l, s), s.tick)
    ensures var l1 := Next(cfg, l, ManageStep(s)).0;
            !Managed(l1.pos) || (Steady(cfg, l1.pos) && Counting(l1, n - 1))
  {
    var l0 := AfterFunding(l, s);
    if !(s.fundingReduce && l0.pos.book.qty <= 0.0) {
      assert Steady(cfg, l0.pos) && Counting(l0, n);
      var (l1, actions) := Evaluate(cfg, l0, s.tick);
      CountdownEvaluate(cfg, l0, s.tick, n);
      EvaluateShape(cfg, l0, s.tick);
      hide Evaluate, Unrecovered, ApplyAction, OnProbation;
      if l1.pos.status == Closing {
        ClosingStays(cfg, l1, actions, s);
      } else {
        ApplyLast(cfg, l1, actions, s);
        if actions != [] {
          ApplyKeepsCountdown(cfg, l1, actions[|actions| - 1], s, n - 1);
        }
      }
    }
  }

  predicate AllUnrecovered(cfg: Config, l: Life, cycles: seq<Cycle>)
    decreases |cycles|
  {
    cycles != [] && Managed(l.pos) ==>
      Unrecovered(cfg, AfterFunding(l, cycles[0]), cycles[0].tick)
      && AllUnrecovered(cfg, Next(cfg, l, ManageStep(cycles[0])).0, cycles[1..])
  }

  function Cycles(cfg: Config, l: Life, cycles: seq<Cycle>): Life
    decreases |cycles|
  {
    if cycles == [] then l else Cycles(cfg, Next(cfg, l, ManageStep(cycles[0])).0, cycles[1..])
  }

  /** A position in its recovery countdown that stays unrecovered is given up within the
      cycles that were left, whatever else happens to it. */
  lemma {:induction false} GivenUpInTime(cfg: Config, l: Life, cycles: seq<Cycle>, n: int)
    requires Managed(l.pos) ==> Steady(cfg, l.pos) && Counting(l, n) && n <= |cycles|
    requires AllUnrecovered(cfg, l, cycles)
    ensures !Managed(Cycles(cfg, l, cycles).pos)
    decreases |cycles|
  {
    hide Next, Unrecovered, Steady;
    if cycles == [] {
      assert !Managed(l.pos);
    } else {
      if Managed(l.pos) {
        CountdownCycle(cfg, l, cycles[0], n);
      } else {
        UnmanagedStays(cfg, l, cycles[0]);
      }
      GivenUpInTime(cfg, Next(cfg, l, ManageStep(cycles[0])).0, cycles[1..], n - 1);
    }
  }

  lemma UnmanagedStays(cfg: Config, l: Life, s: Cycle)
    requires !Managed(l.pos)
    ensures Next(cfg, l, ManageStep(s)).0 == l
  {
  }
}
