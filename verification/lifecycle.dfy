/** What holds over the whole life of a managed position: the shape of the action
    lists, what each part of an evaluation may touch, and the budgets of each kind of
    action. */
module Lifecycle {
  import opened Common
  import opened Market
  import opened PositionModel
  import opened Management
  import opened Trading

  // ---- shape of an action list ----

  /** Every action but the last is a notice. */
  predicate EventsThenOne(actions: seq<Action>) {
    forall i :: 0 <= i < |actions| - 1 ==> actions[i].Event?
  }

  predicate AllEvents(actions: seq<Action>) {
    forall i :: 0 <= i < |actions| ==> actions[i].Event?
  }

  lemma ScoutShape(cfg: Config, l: Life, t: Tick, maxR: real)
    ensures var (_, actions, general) := ScoutStep(cfg, l, t, maxR);
            EventsThenOne(actions) && (general ==> AllEvents(actions))
  {
  }

  lemma GeneralShape(cfg: Config, l: Life, t: Tick, r: real, maxR: real)
    ensures EventsThenOne(GeneralStep(cfg, l, t, r, maxR).1)
  {
  }

  lemma EvaluateShape(cfg: Config, l: Life, t: Tick)
    ensures EventsThenOne(Evaluate(cfg, l, t).1)
  {
    if Managed(l.pos) {
      var l0 := Observe(l, t);
      if !HeldTooLong(cfg, l0.pos, t.now) {
        var (l1, prefix, general) := ScoutStep(cfg, l0, t, l0.trk.maxR);
        ScoutShape(cfg, l0, t, l0.trk.maxR);
        if general {
          var (l2, events) := RunnerState(cfg, l1, t, l0.trk.maxR);
          assert AllEvents(events);
          GeneralShape(cfg, l2, t, RMultiple(l0.pos, t.price), l0.trk.maxR);
        }
      }
    }
  }

  /** Because only the last action acts, applying a list is applying its last action. */
  lemma {:induction false} ApplyLast(cfg: Config, l: Life, actions: seq<Action>, s: Cycle)
    requires EventsThenOne(actions)
    ensures ApplyActions(cfg, l, actions, s)
            == if actions == [] then (l, []) else ApplyAction(cfg, l, actions[|actions| - 1], s)
    decreases |actions|
  {
    if |actions| == 0 {
    } else if |actions| == 1 {
      var (l1, extra) := ApplyAction(cfg, l, actions[0], s);
      assert ApplyActions(cfg, l1, actions[1..], s) == (l1, []);
      assert extra + [] == extra;
    } else {
      assert actions[0].Event?;
      ApplyLast(cfg, l, actions[1..], s);
      var (l2, more) := ApplyActions(cfg, l, actions[1..], s);
      assert [] + more == more;
    }
  }

  datatype Kind = PartialTps | ScenarioReduces | StagnationReduces | ScoutReduces | Exits

  predicate IsKind(k: Kind, a: Action) {
    match k
    case PartialTps => a.PartialTp?
    case ScenarioReduces => a.Reduce? && a.reason == ScenarioInvalid
    case StagnationReduces => a.Reduce? && a.reason == Stagnation
    case ScoutReduces =>
      a.Reduce? && (a.reason == ScoutDefensiveReduce || a.reason == ScoutCatastrophicReduce)
    case Exits => a.Exit?
  }

  /** What scout management may touch: the scout fields, the status when it exits,
      and its two tracking entries; and the kinds of action it can end with. */
  ghost predicate ScoutFrame(l: Life, l1: Life, actions: seq<Action>) {
    && l1.pos == l.pos.(scout := l1.pos.scout, status := l1.pos.status,
                        exitReason := l1.pos.exitReason)
    && l1.trk == l.trk.(emaReclaims := l1.trk.emaReclaims,
                        delaysEmitted := l1.trk.delaysEmitted)
    && (actions != [] ==>
          var a := actions[|actions| - 1];
          || a.Event?
          || (a.Exit? && a.reason == Stagnation)
          || IsKind(ScoutReduces, a))
  }

  lemma ScoutPendingFrame(cfg: Config, l: Life, t: Tick, k: Candle, maxR: real)
    requires l.pos.plan.entryMode == Some(PreBreakoutScout)
    ensures var (l1, actions) := ScoutPendingStep(cfg, l, t, k, maxR);
            ScoutFrame(l, l1, actions)
  {
    var trk := WeaknessAfterGrace(cfg, l, t, k).0;
    assert trk == l.trk.(emaReclaims := trk.emaReclaims);
  }

  lemma ScoutWatchFrame(cfg: Config, l: Life, t: Tick, k: Candle, maxR: real)
    requires l.pos.plan.entryMode == Some(PreBreakoutScout)
    ensures var (l1, actions) := ScoutWatch(cfg, l, t, k, maxR);
            ScoutFrame(l, l1, actions)
  {
    ScoutPendingFrame(cfg, l, t, k, maxR);
    ScoutPendingFrame(cfg, l.(pos := SetScout(ClearWarning(l.pos), ScoutPending)),
                      t, k, maxR);
  }

  lemma ScoutStepFrame(cfg: Config, l: Life, t: Tick, maxR: real)
    ensures var (l1, actions, general) := ScoutStep(cfg, l, t, maxR);
            ScoutFrame(l, l1, actions)
  {
    if t.candle.Some? && l.pos.plan.entryMode == Some(PreBreakoutScout)
       && (l.pos.scout.state == ScoutPending || l.pos.scout.state == ScoutWarning) {
      ScoutWatchFrame(cfg, l, t, t.candle.value, maxR);
      var (l1, actions) := ScoutWatch(cfg, l, t, t.candle.value, maxR);
      assert ScoutFrame(l, l1, actions);
    }
  }

  /** Only status and exit reason differ. */
  ghost predicate OnlyStatus(p: PositionState, p1: PositionState) {
    p1 == p.(status := p1.status, exitReason := p1.exitReason)
  }

  lemma StagnationFrame(cfg: Config, l: Life, maxR: real)
    ensures OnlyStatus(l.pos, StagnationStep(cfg, l, maxR).0.pos)
  {
  }

  lemma ScenarioFrame(cfg: Config, l: Life, t: Tick, r: real)
    ensures OnlyStatus(l.pos, ScenarioStep(cfg, l, t, r).0.pos)
  {
  }

  /** General management writes the profit flag, the trailing fields and the status. */
  ghost predicate GeneralFrame(p: PositionState, p1: PositionState) {
    p1 == p.(trail := p1.trail, status := p1.status, exitReason := p1.exitReason,
             runner := p.runner.(lastUpdateAt := p1.runner.lastUpdateAt,
                                 lastStop := p1.runner.lastStop))
  }

  lemma RatchetFrame(cfg: Config, l: Life, t: Tick, maxR: real)
    ensures GeneralFrame(l.pos, RatchetStep(cfg, l, t, maxR).0.pos)
  {
  }

  lemma PlainFrame(cfg: Config, l: Life, t: Tick, r: real, maxR: real)
    ensures GeneralFrame(l.pos, PlainGeneralStep(cfg, l, t, r, maxR).0.pos)
  {
    ScenarioFrame(cfg, l, t, r);
    var l1 := ScenarioStep(cfg, l, t, r).0;
    StagnationFrame(cfg, l1, maxR);
    RatchetFrame(cfg, StagnationStep(cfg, l1, maxR).0, t, maxR);
  }

  lemma GeneralStepFrame(cfg: Config, l: Life, t: Tick, r: real, maxR: real)
    ensures GeneralFrame(l.pos, GeneralStep(cfg, l, t, r, maxR).0.pos)
  {
    var l1 := if maxR >= cfg.trailingStartR then StartTrailing(l) else l;
    PlainFrame(cfg, l1, t, r, maxR);
    var trk := IsScenarioInvalid(l1.pos, l1.trk, t, false).0;
    RatchetFrame(cfg, Life(l1.pos, trk), t, maxR);
  }

  /** Beyond what it observes, an evaluation leaves the path alone. */
  lemma EvaluateFrame(cfg: Config, l: Life, t: Tick)
    requires Managed(l.pos)
    ensures Evaluate(cfg, l, t).0.pos.path == Observe(l, t).pos.path
  {
    var l0 := Observe(l, t);
    hide ScoutStep, GeneralStep, Observe, TrendStrength, WeakDowngradePending, RMultiple, HeldTooLong;
    ScoutStepFrame(cfg, l0, t, l0.trk.maxR);
    var l1 := ScoutStep(cfg, l0, t, l0.trk.maxR).0;
    GeneralStepFrame(cfg, RunnerState(cfg, l1, t, l0.trk.maxR).0, t, RMultiple(l0.pos, t.price), l0.trk.maxR);
  }

  /** A close writes the money fields, the quantity and the status. */
  ghost predicate CloseFrame(p: PositionState, p1: PositionState) {
    p1 == p.(book := p1.book, status := p1.status, exitReason := p1.exitReason)
  }

  lemma ApplyCloseFrame(p: PositionState, o: CloseOutcome, reason: ExitReason, full: bool,
                        q: Quote)
    ensures CloseFrame(p, ApplyClose(p, o, reason, full, q))
  {
  }

  // ---- budgets: how often each kind of action can occur in a lifetime ----

  function Count(k: Kind, actions: seq<Action>): nat {
    if actions == [] then 0
    else (if IsKind(k, actions[0]) then 1 else 0) + Count(k, actions[1..])
  }

  /** How many more actions of a kind the position can still cause. */
  function Remaining(cfg: Config, k: Kind, l: Life): nat {
    match k
    case PartialTps => if l.pos.trail.partialTpDone then 0 else 1
    case ScenarioReduces => if l.trk.scenario.reduced then 0 else 1
    case StagnationReduces => if l.trk.stagReduced then 0 else 1
    case ScoutReduces => MaxInt(0, cfg.scout.maxReductions - l.pos.scout.reductions)
    case Exits => if l.pos.status == Active || l.pos.status == Pending then 1 else 0
  }

  lemma {:induction false} CountConcat(k: Kind, a: seq<Action>, b: seq<Action>)
    ensures Count(k, a + b) == Count(k, a) + Count(k, b)
  {
    if a == [] {
      assert a + b == b;
    } else {
      assert (a + b)[1..] == a[1..] + b;
      CountConcat(k, a[1..], b);
    }
  }

  lemma {:induction false} CountLast(k: Kind, actions: seq<Action>)
    requires EventsThenOne(actions)
    ensures Count(k, actions)
            == if actions != [] && IsKind(k, actions[|actions| - 1]) then 1 else 0
  {
    if |actions| > 1 {
      assert actions[0].Event?;
      CountLast(k, actions[1..]);
    }
  }

  /** A step that ends with `actions` stays within the budget of kind k. */
  ghost predicate Within(cfg: Config, k: Kind, l: Life, actions: seq<Action>, l1: Life) {
    Remaining(cfg, k, l1)
    + (if actions != [] && IsKind(k, actions[|actions| - 1]) then 1 else 0)
    <= Remaining(cfg, k, l)
  }

  ghost predicate WithinOption(cfg: Config, k: Kind, l: Life, a: Option<Action>, l1: Life) {
    Remaining(cfg, k, l1) + (if a.Some? && IsKind(k, a.value) then 1 else 0)
    <= Remaining(cfg, k, l)
  }

  lemma StagnationSpends(cfg: Config, l: Life, maxR: real, k: Kind)
    requires l.pos.status == Active
    ensures var (l1, a) := StagnationStep(cfg, l, maxR);
            WithinOption(cfg, k, l, a, l1) && (a.None? ==> l1.pos == l.pos)
  {
  }

  lemma ScenarioSpends(cfg: Config, l: Life, t: Tick, r: real, k: Kind)
    requires l.pos.status == Active
    ensures var (l1, a) := ScenarioStep(cfg, l, t, r);
            WithinOption(cfg, k, l, a, l1) && (a.None? ==> l1.pos == l.pos)
  {
  }

  lemma RatchetSpends(cfg: Config, l: Life, t: Tick, maxR: real, k: Kind)
    ensures var (l1, actions) := RatchetStep(cfg, l, t, maxR);
            Within(cfg, k, l, actions, l1)
  {
  }

  lemma PlainSpends(cfg: Config, l: Life, t: Tick, r: real, maxR: real, k: Kind)
    requires l.pos.status == Active
    ensures var (l1, actions) := PlainGeneralStep(cfg, l, t, r, maxR);
            Within(cfg, k, l, actions, l1)
  {
    var (l1, scenario) := ScenarioStep(cfg, l, t, r);
    ScenarioSpends(cfg, l, t, r, k);
    if scenario.None? {
      var (l2, stagnation) := StagnationStep(cfg, l1, maxR);
      StagnationSpends(cfg, l1, maxR, k);
      RatchetSpends(cfg, l2, t, maxR, k);
    }
  }

  lemma RunnerGeneralSpends(cfg: Config, l: Life, t: Tick, maxR: real, k: Kind)
    requires l.pos.status == Active
    ensures var (l1, actions) := RunnerGeneralStep(cfg, l, t, maxR);
            Within(cfg, k, l, actions, l1)
  {
    var (trk, invalid) := IsScenarioInvalid(l.pos, l.trk, t, false);
    RatchetSpends(cfg, Life(l.pos, trk), t, maxR, k);
  }

  lemma GeneralSpends(cfg: Config, l: Life, t: Tick, r: real, maxR: real, k: Kind)
    requires l.pos.status == Active
    ensures var (l1, actions) := GeneralStep(cfg, l, t, r, maxR);
            Within(cfg, k, l, actions, l1)
  {
    var l1 := if maxR >= cfg.trailingStartR then StartTrailing(l) else l;
    assert Remaining(cfg, k, l1) == Remaining(cfg, k, l);
    RunnerGeneralSpends(cfg, l1, t, maxR, k);
    PlainSpends(cfg, l1, t, r, maxR, k);
  }

  lemma ScoutPendingSpends(cfg: Config, l: Life, t: Tick, candle: Candle, maxR: real, k: Kind)
    requires l.pos.status == Active
    ensures var (l1, actions) := ScoutPendingStep(cfg, l, t, candle, maxR);
            Within(cfg, k, l, actions, l1)
  {
    var trk := WeaknessAfterGrace(cfg, l, t, candle).0;
    var l1 := Life(l.pos, trk);
    assert Remaining(cfg, k, l1) == Remaining(cfg, k, l);
    StagnationSpends(cfg, l1, maxR, k);
  }

  lemma ScoutWatchSpends(cfg: Config, l: Life, t: Tick, candle: Candle, maxR: real, k: Kind)
    requires l.pos.status == Active
    ensures var (l1, actions) := ScoutWatch(cfg, l, t, candle, maxR);
            Within(cfg, k, l, actions, l1)
  {
    var cleared := l.(pos := SetScout(ClearWarning(l.pos), ScoutPending));
    assert Remaining(cfg, k, cleared) == Remaining(cfg, k, l);
    ScoutPendingSpends(cfg, l, t, candle, maxR, k);
    ScoutPendingSpends(cfg, cleared, t, candle, maxR, k);
  }

  lemma ScoutSpends(cfg: Config, l: Life, t: Tick, maxR: real, k: Kind)
    requires l.pos.status == Active
    ensures var (l1, actions, general) := ScoutStep(cfg, l, t, maxR);
            && Within(cfg, k, l, actions, l1)
            && (general ==> l1.pos.status == Active)
  {
    if t.candle.Some? {
      ScoutWatchSpends(cfg, l, t, t.candle.value, maxR, k);
    }
  }

  /** Judging the trend touches the runner's own tracking only. */
  lemma TrendFrame(cfg: Config, l: Life, t: Tick, maxR: real)
    ensures TrendStrength(cfg, l, t, maxR).0 == l.trk.(runner := TrendStrength(cfg, l, t, maxR).0.runner)
  {
    hide FiveMinuteBreak, ClosedAgainst, StrongCounterCandle, TrendHolds, VeryStrongRsi;
  }

  lemma PendingFrame(cfg: Config, trk: Tracking, prev: Option<Strength>, strength: Strength, why: Why,
                     candle: Option<Candle>)
    ensures var next := WeakDowngradePending(cfg, trk, prev, strength, why, candle).0;
            next == trk.(runner := next.runner)
  {
  }

  lemma RunnerSpends(cfg: Config, l: Life, t: Tick, maxR: real, k: Kind)
    ensures var (l1, actions) := RunnerState(cfg, l, t, maxR);
            && Count(k, actions) == 0 && Remaining(cfg, k, l1) == Remaining(cfg, k, l)
            && l1.pos.status == l.pos.status && l1.pos.plan.botManaged == l.pos.plan.botManaged
  {
    hide TrendStrength, WeakDowngradePending, Multiplier;
    TrendFrame(cfg, l, t, maxR);
    var (trk, strength, why) := TrendStrength(cfg, l, t, maxR);
    PendingFrame(cfg, trk, l.pos.runner.strength, strength, why, t.candle);
    CountLast(k, RunnerState(cfg, l, t, maxR).1);
  }

  lemma EvaluateSpends(cfg: Config, l: Life, t: Tick, k: Kind)
    ensures var (l1, actions) := Evaluate(cfg, l, t);
            Count(k, actions) + Remaining(cfg, k, l1) <= Remaining(cfg, k, l)
  {
    if Managed(l.pos) {
      var l0 := Observe(l, t);
      if !HeldTooLong(cfg, l0.pos, t.now) {
        var (l1, prefix, general) := ScoutStep(cfg, l0, t, l0.trk.maxR);
        ScoutSpends(cfg, l0, t, l0.trk.maxR, k);
        ScoutShape(cfg, l0, t, l0.trk.maxR);
        CountLast(k, prefix);
        if general {
          var (l2, events) := RunnerState(cfg, l1, t, l0.trk.maxR);
          RunnerSpends(cfg, l1, t, l0.trk.maxR, k);
          var r := RMultiple(l0.pos, t.price);
          var (l3, actions) := GeneralStep(cfg, l2, t, r, l0.trk.maxR);
          GeneralSpends(cfg, l2, t, r, l0.trk.maxR, k);
          GeneralShape(cfg, l2, t, r, l0.trk.maxR);
          CountLast(k, actions);
          CountConcat(k, prefix, events);
          CountConcat(k, prefix + events, actions);
        }
      } else {
        CountLast(k, Evaluate(cfg, l, t).1);
      }
    }
  }

  lemma ActivateSpends(cfg: Config, l: Life, t: Tick, k: Kind)
    ensures var (l1, actions) := ActivateRunner(cfg, l, t);
            Count(k, actions) == 0 && Remaining(cfg, k, l1) == Remaining(cfg, k, l)
  {
    var actions := ActivateRunner(cfg, l, t).1;
    if actions != [] {
      assert actions == [actions[0]] + actions[1..];
      CountLast(k, [actions[0]]);
      CountLast(k, actions[1..]);
      CountConcat(k, [actions[0]], actions[1..]);
    }
  }

  lemma ApplySpends(cfg: Config, l: Life, a: Action, s: Cycle, k: Kind)
    ensures var (l1, extra) := ApplyAction(cfg, l, a, s);
            Count(k, extra) == 0 && Remaining(cfg, k, l1) <= Remaining(cfg, k, l)
  {
    match a
    case PartialTp(_) =>
      var l1 := l.(pos := ApplyClose(l.pos, s.outcome, PartialTakeProfit, false, s.quote));
      assert Remaining(cfg, k, l1) <= Remaining(cfg, k, l);
      ActivateSpends(cfg, l1, s.tick, k);
    case _ =>
      assert ApplyAction(cfg, l, a, s).1 == [];
  }

  lemma NextSpends(cfg: Config, l: Life, s: Step, k: Kind)
    ensures var (l1, actions) := Next(cfg, l, s);
            Count(k, actions) + Remaining(cfg, k, l1) <= Remaining(cfg, k, l)
  {
    if s.ManageStep? && Managed(l.pos) {
      var c := s.cycle;
      var l0 := AfterFunding(l, c);
      CountLast(k, FundingActions(l, c));
      if !(c.fundingReduce && l0.pos.book.qty <= 0.0) {
        var (l1, actions) := Evaluate(cfg, l0, c.tick);
        EvaluateSpends(cfg, l0, c.tick, k);
        EvaluateShape(cfg, l0, c.tick);
        ApplyLast(cfg, l1, actions, c);
        var (l2, extra) := ApplyActions(cfg, l1, actions, c);
        if actions != [] {
          ApplySpends(cfg, l1, actions[|actions| - 1], c, k);
        }
        CountConcat(k, actions, extra);
        CountConcat(k, FundingActions(l, c), actions + extra);
      }
    }
  }

  /** Over any run, the actions of one kind never exceed its budget: one partial
      take-profit, one scenario and one stagnation reduction, one exit, and the
      configured number of scout reductions. */
  lemma {:induction false} RunSpends(cfg: Config, l: Life, steps: seq<Step>, k: Kind)
    ensures Count(k, Log(cfg, l, steps)) + Remaining(cfg, k, Run(cfg, l, steps))
            <= Remaining(cfg, k, l)
    decreases |steps|
  {
    if steps != [] {
      var (l1, actions) := Next(cfg, l, steps[0]);
      NextSpends(cfg, l, steps[0], k);
      RunSpends(cfg, l1, steps[1..], k);
      CountConcat(k, actions, Log(cfg, l1, steps[1..]));
    }
  }

  /** The last action of a lifetime is its exit: nothing is emitted afterwards. */
  lemma {:induction false} NothingAfterExit(cfg: Config, l: Life, steps: seq<Step>)
    requires l.pos.status == Closing || l.pos.status == Closed
    ensures Log(cfg, l, steps) == [] && Run(cfg, l, steps) == l
    decreases |steps|
  {
    if steps != [] {
      assert Next(cfg, l, steps[0]) == (l, []);
      NothingAfterExit(cfg, l, steps[1..]);
    }
  }
}
