/** The pre-breakout scout as an automaton over whole runs. */
module ScoutAutomaton {
  import opened Common
  import opened Market
  import opened PositionModel
  import opened Management
  import opened Trading
  import opened Lifecycle

  /** A warning is recorded exactly in SCOUT_WARNING, and the reduction count
      stays within its maximum. */
  predicate ScoutInv(cfg: Config, p: PositionState) {
    && (p.scout.state == ScoutWarning <==> p.scout.warningBar.Some?)
    && (p.scout.warningBar.Some? <==> p.scout.warningReason.Some?)
    && 0 <= p.scout.reductions && (p.scout.reductions == 0 || p.scout.reductions <= cfg.scout.maxReductions)
  }

  /** The edges of the automaton; ACTIVE_TREND and NONE are absorbing. */
  predicate ScoutEdge(from: ScoutState, to: ScoutState) {
    match from
    case NoScout => to == NoScout
    case ScoutPending => to != NoScout
    case ScoutWarning => to != NoScout
    case ScoutConfirmed => to == ScoutConfirmed || to == ActiveTrend
    case ActiveTrend => to == ActiveTrend
  }

  predicate OnProbation(cfg: Config, p: PositionState) {
    cfg.scout.enabled && p.plan.entryMode == Some(PreBreakoutScout)
    && p.scout.state != NoScout && p.scout.state != ActiveTrend
  }

  /** Notices, scout reductions and exits: all a scout on probation may cause. */
  predicate ProbationAction(a: Action) {
    a.Event? || a.Exit? || IsKind(ScoutReduces, a) || a.FundingReduce?
  }

  ghost predicate Advances(cfg: Config, p: PositionState, p1: PositionState) {
    ScoutInv(cfg, p1) && ScoutEdge(p.scout.state, p1.scout.state) && p1.plan.entryMode == p.plan.entryMode
  }

  lemma PendingAdvances(cfg: Config, l: Life, t: Tick, k: Candle, maxR: real)
    requires ScoutInv(cfg, l.pos) && l.pos.scout.state == ScoutPending
    ensures Advances(cfg, l.pos, ScoutPendingStep(cfg, l, t, k, maxR).0.pos)
  {
    var trk := WeaknessAfterGrace(cfg, l, t, k).0;
    StagnationFrame(cfg, Life(l.pos, trk), maxR);
  }

  lemma WatchAdvances(cfg: Config, l: Life, t: Tick, k: Candle, maxR: real)
    requires ScoutInv(cfg, l.pos)
    requires l.pos.scout.state == ScoutPending || l.pos.scout.state == ScoutWarning
    ensures Advances(cfg, l.pos, ScoutWatch(cfg, l, t, k, maxR).0.pos)
  {
    if l.pos.scout.state == ScoutPending {
      PendingAdvances(cfg, l, t, k, maxR);
    } else {
      PendingAdvances(cfg, l.(pos := SetScout(ClearWarning(l.pos), ScoutPending)),
                      t, k, maxR);
    }
  }

  lemma ScoutAdvances(cfg: Config, l: Life, t: Tick, maxR: real)
    requires ScoutInv(cfg, l.pos)
    ensures var (l1, actions, general) := ScoutStep(cfg, l, t, maxR);
            && Advances(cfg, l.pos, l1.pos)
            && (general ==> !OnProbation(cfg, l1.pos))
  {
    if OnProbation(cfg, l.pos) && t.candle.Some? && l.pos.scout.state != ScoutConfirmed {
      WatchAdvances(cfg, l, t, t.candle.value, maxR);
    }
  }

  predicate AllProbation(actions: seq<Action>) {
    forall i :: 0 <= i < |actions| ==> ProbationAction(actions[i])
  }

  lemma ScoutProbation(cfg: Config, l: Life, t: Tick, maxR: real)
    ensures AllProbation(ScoutStep(cfg, l, t, maxR).1)
  {
    var (l1, actions, general) := ScoutStep(cfg, l, t, maxR);
    ScoutShape(cfg, l, t, maxR);
    ScoutStepFrame(cfg, l, t, maxR);
    forall i | 0 <= i < |actions| ensures ProbationAction(actions[i]) {
      assert i < |actions| - 1 ==> actions[i].Event?;
    }
  }

  ghost predicate ProbationStep(cfg: Config, p: PositionState, p1: PositionState,
                                actions: seq<Action>) {
    Advances(cfg, p, p1) && (OnProbation(cfg, p1) ==> AllProbation(actions))
  }

  /** General management after the scout left probation. */
  lemma GeneralAdvances(cfg: Config, l: Life, t: Tick, r: real, maxR: real)
    requires ScoutInv(cfg, l.pos) && !OnProbation(cfg, l.pos)
    ensures var p1 := GeneralStep(cfg, RunnerState(cfg, l, t, maxR).0, t, r, maxR).0.pos;
            Advances(cfg, l.pos, p1) && !OnProbation(cfg, p1)
  {
    var l1 := RunnerState(cfg, l, t, maxR).0;
    assert l1.pos == l.pos.(runner := l1.pos.runner);
    GeneralStepFrame(cfg, l1, t, r, maxR);
  }

  lemma EvaluateAdvances(cfg: Config, l: Life, t: Tick)
    requires ScoutInv(cfg, l.pos)
    ensures var (l1, actions) := Evaluate(cfg, l, t);
            ProbationStep(cfg, l.pos, l1.pos, actions)
  {
    if Managed(l.pos) {
      var l0 := Observe(l, t);
      assert Advances(cfg, l.pos, l0.pos);
      if !HeldTooLong(cfg, l0.pos, t.now) {
        var (l1, prefix, general) := ScoutStep(cfg, l0, t, l0.trk.maxR);
        ScoutAdvances(cfg, l0, t, l0.trk.maxR);
        ScoutProbation(cfg, l0, t, l0.trk.maxR);
        if general {
          GeneralAdvances(cfg, l1, t, RMultiple(l0.pos, t.price), l0.trk.maxR);
        }
      }
    }
  }

  lemma ActivateKeepsScout(cfg: Config, l: Life, t: Tick)
    ensures var p := ActivateRunner(cfg, l, t).0.pos;
            && p.scout.state == l.pos.scout.state && p.scout.warningBar == l.pos.scout.warningBar
            && p.scout.warningReason == l.pos.scout.warningReason && p.scout.reductions == l.pos.scout.reductions
            && p.plan.entryMode == l.pos.plan.entryMode
  {
  }

  lemma ApplyKeepsScout(cfg: Config, l: Life, a: Action, s: Cycle)
    requires ScoutInv(cfg, l.pos)
    ensures var (l1, extra) := ApplyAction(cfg, l, a, s);
            && Advances(cfg, l.pos, l1.pos) && l1.pos.scout.state == l.pos.scout.state
            && (!a.PartialTp? ==> extra == [])
  {
    match a
    case Exit(_, reason) => ApplyCloseFrame(l.pos, s.outcome, reason, true, s.quote);
    case Reduce(_, reason, _) => ApplyCloseFrame(l.pos, s.outcome, reason, false, s.quote);
    case PartialTp(_) =>
      ApplyCloseFrame(l.pos, s.outcome, PartialTakeProfit, false, s.quote);
      ActivateKeepsScout(
        cfg, l.(pos := ApplyClose(l.pos, s.outcome, PartialTakeProfit, false, s.quote)), s.tick);
    case TrailUpdate(_) =>
    case Event(_, _) =>
    case FundingReduce(_) =>
  }

  lemma EvaluatedAdvances(cfg: Config, l: Life, c: Cycle)
    requires ScoutInv(cfg, l.pos)
    ensures var (l1, actions) := EvaluateAndApply(cfg, l, c);
            ProbationStep(cfg, l.pos, l1.pos, actions)
  {
    hide Evaluate;
    var (l1, actions) := Evaluate(cfg, l, c.tick);
    EvaluateAdvances(cfg, l, c.tick);
    EvaluateShape(cfg, l, c.tick);
    ApplyLast(cfg, l1, actions, c);
    if actions != [] {
      var last := actions[|actions| - 1];
      ApplyKeepsScout(cfg, l1, last, c);
      assert OnProbation(cfg, l1.pos) ==> ProbationAction(last);
    }
  }

  lemma NextAdvances(cfg: Config, l: Life, s: Step)
    requires ScoutInv(cfg, l.pos)
    ensures var (l1, actions) := Next(cfg, l, s);
            ProbationStep(cfg, l.pos, l1.pos, actions)
  {
    match s
    case CommandStep(c) =>
      ApplyCloseFrame(l.pos, c.outcome, c.reason, CommandQty(l.pos, c) >= l.pos.book.qty, c.quote);
    case ManageStep(c) =>
      if Managed(l.pos) {
        ApplyCloseFrame(l.pos, c.fundingOutcome, FundingGuard, false, c.quote);
        var l0 := AfterFunding(l, c);
        if !(c.fundingReduce && l0.pos.book.qty <= 0.0) {
          EvaluatedAdvances(cfg, l0, c);
        }
      }
  }

  /** Over every run: the warning fields describe exactly SCOUT_WARNING, the
      reduction count respects its maximum, the state moves along the automaton's
      edges (ACTIVE_TREND is never left), and as long as the scout is still on
      probation at the end, the whole run took no profit and moved no stop. */
  lemma {:induction false} ScoutRuns(cfg: Config, l: Life, steps: seq<Step>)
    requires ScoutInv(cfg, l.pos)
    ensures var l1 := Run(cfg, l, steps);
            && ScoutInv(cfg, l1.pos)
            && ScoutEdge(l.pos.scout.state, l1.pos.scout.state)
            && l1.pos.plan.entryMode == l.pos.plan.entryMode
            && (OnProbation(cfg, l1.pos) ==> AllProbation(Log(cfg, l, steps)))
    decreases |steps|
  {
    if steps != [] {
      NextAdvances(cfg, l, steps[0]);
      ScoutRuns(cfg, Next(cfg, l, steps[0]).0, steps[1..]);
    }
  }
}
