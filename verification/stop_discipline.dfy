/** The stop only ever moves towards protection: the trailing ratchet, runner
    activation and the retest tightening together, over any run. */
module StopDiscipline {
  import opened Common
  import opened PositionModel
  import opened Management
  import opened Trading
  import opened Lifecycle

  /** `next` protects at least as much as `prev`; a stop once set stays set. */
  predicate Tighter(side: Side, next: Option<real>, prev: Option<real>) {
    prev.Some? ==>
      next.Some? && if side == Long then next.value >= prev.value else next.value <= prev.value
  }

  /** The stop has not crossed the entry price. */
  predicate OnLossSide(p: PositionState) {
    p.trail.stop.Some? ==>
      if p.plan.side == Long then p.trail.stop.value <= p.plan.entry else p.trail.stop.value >= p.plan.entry
  }

  /** A position as it leaves the entry path: not yet trailing, stop on the loss side. */
  predicate Fresh(l: Life) {
    && l.pos.plan.entry > 0.0 && OnLossSide(l.pos)
    && !l.pos.trail.trailingActive && !l.pos.runner.active && l.trk == FRESH
  }

  /** Once the stop may lie beyond entry, retest tightening is out of reach. */
  predicate StopInv(l: Life) {
    && l.pos.plan.entry > 0.0
    && (OnLossSide(l.pos) || l.trk.maxR >= 0.5 || l.pos.runner.active)
    && (l.pos.trail.trailingActive ==> l.trk.maxR >= 0.5)
  }

  /** From l to l1 the stop did not loosen, and the invariant survived. */
  ghost predicate Kept(l: Life, l1: Life) {
    && l1.pos.plan.side == l.pos.plan.side && l1.pos.plan.entry == l.pos.plan.entry
    && Tighter(l.pos.plan.side, l1.pos.trail.stop, l.pos.trail.stop)
    && StopInv(l1)
  }

  /** Applying the last action's stop, if it carries one, keeps the discipline too. */
  ghost predicate KeptByLast(l: Life, l1: Life, actions: seq<Action>) {
    && Kept(l, l1)
    && (actions != [] && actions[|actions| - 1].TrailUpdate? ==>
          Kept(l1, SetStop(l1, actions[|actions| - 1].newStop)))
  }

  lemma RatchetKept(cfg: Config, l: Life, t: Tick, maxR: real)
    requires StopInv(l) && cfg.trailingStartR >= 0.5
    ensures var (l1, actions) := RatchetStep(cfg, l, t, maxR);
            KeptByLast(l, l1, actions)
  {
  }

  lemma ScenarioKept(cfg: Config, l: Life, t: Tick, r: real)
    requires StopInv(l)
    ensures var (l1, a) := ScenarioStep(cfg, l, t, r);
            Kept(l, l1) && l1.trk.maxR == l.trk.maxR && (a.Some? ==> !a.value.TrailUpdate?)
  {
  }

  /** Moving halfway to entry tightens unless the stop already lies beyond entry. */
  lemma StagnationKept(cfg: Config, l: Life)
    requires StopInv(l) && !l.pos.runner.active
    ensures var (l1, a) := StagnationStep(cfg, l, l.trk.maxR);
            && Kept(l, l1) && l1.trk.maxR == l.trk.maxR
            && (a.Some? && a.value.TrailUpdate? ==>
                  Kept(l1, SetStop(l1, a.value.newStop)))
  {
  }

  lemma GeneralKept(cfg: Config, l: Life, t: Tick, r: real)
    requires StopInv(l) && cfg.trailingStartR >= 0.5
    ensures var (l1, actions) := GeneralStep(cfg, l, t, r, l.trk.maxR);
            KeptByLast(l, l1, actions)
  {
    var maxR := l.trk.maxR;
    var l1 := if maxR >= cfg.trailingStartR then StartTrailing(l) else l;
    assert Kept(l, l1);
    if l1.pos.runner.active {
      var trk := IsScenarioInvalid(l1.pos, l1.trk, t, false).0;
      assert trk.maxR == maxR;
      RatchetKept(cfg, Life(l1.pos, trk), t, maxR);
    } else {
      PlainKept(cfg, l1, t, r);
    }
  }

  lemma PlainKept(cfg: Config, l: Life, t: Tick, r: real)
    requires StopInv(l) && !l.pos.runner.active && cfg.trailingStartR >= 0.5
    ensures var (l1, actions) := PlainGeneralStep(cfg, l, t, r, l.trk.maxR);
            KeptByLast(l, l1, actions)
  {
    var (l1, scenario) := ScenarioStep(cfg, l, t, r);
    ScenarioKept(cfg, l, t, r);
    if scenario.None? {
      assert l1.pos == l.pos;
      var (l2, stagnation) := StagnationStep(cfg, l1, l.trk.maxR);
      StagnationKept(cfg, l1);
      if stagnation.None? {
        RatchetKept(cfg, l2, t, l.trk.maxR);
      }
    }
  }

  lemma ScoutKept(cfg: Config, l: Life, t: Tick, maxR: real)
    requires StopInv(l)
    ensures var (l1, actions, general) := ScoutStep(cfg, l, t, maxR);
            && Kept(l, l1) && l1.trk.maxR == l.trk.maxR
            && (actions != [] ==> !actions[|actions| - 1].TrailUpdate?)
  {
    ScoutStepFrame(cfg, l, t, maxR);
  }

  lemma ManagedKept(cfg: Config, l: Life, t: Tick, r: real)
    requires StopInv(l) && cfg.trailingStartR >= 0.5
    ensures var (l1, prefix, general) := ScoutStep(cfg, l, t, l.trk.maxR);
            if !general then KeptByLast(l, l1, prefix)
            else
              var (l2, events) := RunnerState(cfg, l1, t, l.trk.maxR);
              var (l3, actions) := GeneralStep(cfg, l2, t, r, l.trk.maxR);
              KeptByLast(l, l3, prefix + events + actions)
  {
    var (l1, prefix, general) := ScoutStep(cfg, l, t, l.trk.maxR);
    ScoutKept(cfg, l, t, l.trk.maxR);
    if general {
      RunnerKept(cfg, l1, t, l.trk.maxR);
      var (l2, events) := RunnerState(cfg, l1, t, l.trk.maxR);
      GeneralKept(cfg, l2, t, r);
    }
  }

  lemma RunnerKept(cfg: Config, l: Life, t: Tick, maxR: real)
    requires StopInv(l)
    ensures var (l1, events) := RunnerState(cfg, l, t, maxR);
            Kept(l, l1) && l1.trk.maxR == l.trk.maxR && AllEvents(events)
  {
  }

  lemma EvaluateKept(cfg: Config, l: Life, t: Tick)
    requires StopInv(l) && cfg.trailingStartR >= 0.5
    ensures var (l1, actions) := Evaluate(cfg, l, t);
            KeptByLast(l, l1, actions)
  {
    if Managed(l.pos) {
      var l0 := Observe(l, t);
      assert Kept(l, l0);
      ManagedKept(cfg, l0, t, RMultiple(l0.pos, t.price));
    }
  }

  lemma ActivateKept(cfg: Config, l: Life, t: Tick)
    requires StopInv(l)
    ensures Kept(l, ActivateRunner(cfg, l, t).0)
  {
  }

  lemma CloseKept(l: Life, o: CloseOutcome, reason: ExitReason, full: bool, q: Quote)
    requires StopInv(l)
    ensures Kept(l, l.(pos := ApplyClose(l.pos, o, reason, full, q)))
  {
  }

  lemma NextKept(cfg: Config, l: Life, s: Step)
    requires StopInv(l) && cfg.trailingStartR >= 0.5
    ensures Kept(l, Next(cfg, l, s).0)
  {
    match s
    case CommandStep(c) =>
      CloseKept(l, c.outcome, c.reason, CommandQty(l.pos, c) >= l.pos.book.qty, c.quote);
    case ManageStep(c) =>
      if Managed(l.pos) {
        var l0 := AfterFunding(l, c);
        CloseKept(l, c.fundingOutcome, FundingGuard, false, c.quote);
        if !(c.fundingReduce && l0.pos.book.qty <= 0.0) {
          var (l1, actions) := Evaluate(cfg, l0, c.tick);
          EvaluateKept(cfg, l0, c.tick);
          EvaluateShape(cfg, l0, c.tick);
          ApplyLast(cfg, l1, actions, c);
          if actions != [] {
            ApplyKept(cfg, l1, actions, c);
          }
        }
      }
  }

  lemma ApplyKept(cfg: Config, l: Life, actions: seq<Action>, s: Cycle)
    requires actions != [] && KeptByLast(l, l, actions)
    ensures Kept(l, ApplyAction(cfg, l, actions[|actions| - 1], s).0)
  {
    match actions[|actions| - 1]
    case Exit(_, reason) => CloseKept(l, s.outcome, reason, true, s.quote);
    case Reduce(_, reason, _) => CloseKept(l, s.outcome, reason, false, s.quote);
    case PartialTp(_) =>
      CloseKept(l, s.outcome, PartialTakeProfit, false, s.quote);
      ActivateKept(cfg, l.(pos := ApplyClose(l.pos, s.outcome, PartialTakeProfit, false, s.quote)),
                   s.tick);
    case TrailUpdate(_) =>
    case Event(_, _) =>
    case FundingReduce(_) =>
  }

  lemma {:induction false} RunKept(cfg: Config, l: Life, steps: seq<Step>)
    requires StopInv(l) && cfg.trailingStartR >= 0.5
    ensures Kept(l, Run(cfg, l, steps))
    decreases |steps|
  {
    if steps != [] {
      NextKept(cfg, l, steps[0]);
      RunKept(cfg, Next(cfg, l, steps[0]).0, steps[1..]);
    }
  }

  /** Somewhere along the run a later stop protects less than an earlier one. */
  ghost predicate LoosensSomewhere(cfg: Config, l: Life, steps: seq<Step>) {
    exists i, j :: 0 <= i <= j <= |steps|
      && !Tighter(l.pos.plan.side, Run(cfg, l, steps[..j]).pos.trail.stop, Run(cfg, l, steps[..i]).pos.trail.stop)
  }

  /** A LONG stop never falls and a SHORT stop never rises, whatever the market,
      the executor and the operator do, when trailing starts at half an R or later. */
  lemma StopNeverLoosens(cfg: Config, l: Life, steps: seq<Step>)
    requires StopInv(l) && cfg.trailingStartR >= 0.5
    ensures !LoosensSomewhere(cfg, l, steps)
  {
    forall i, j | 0 <= i <= j <= |steps|
      ensures Tighter(l.pos.plan.side, Run(cfg, l, steps[..j]).pos.trail.stop,
                      Run(cfg, l, steps[..i]).pos.trail.stop)
    {
      RunKept(cfg, l, steps[..i]);
      RunKept(cfg, Run(cfg, l, steps[..i]), steps[i..j]);
      RunSplit(cfg, l, steps[..i], steps[i..j]);
      assert steps[..i] + steps[i..j] == steps[..j];
    }
  }

  // ---- the condition on trailing_start_r is exact ----

  /** Settings that trail from x on and tighten retest positions from the second bar. */
  function EarlyTrailing(x: real): Config {
    Config(10.0, 0.5, x, 1.0, 100.0, 1.0, 1000.0,
           ScoutConfig(false, 0, 0.0, 0.0, 0, 0, 0, 0.5, false, 0, 0.0, 100.0,
                       1.0, 1.0, 1.0, 1.0, 1.0, false),
           RunnerConfig(false, false, 0.0, 1.0, 1.0, 1.0, 0.0, 0.0, false, false,
                        50.0, 50.0, 1, false, 1, 0.0, 0.0),
           StagnationConfig(true, 100, 0.0, 100, 0.5, 100, 2, 100, 0))
  }

  const RETEST_LONG := Life(
    PositionState(Plan("S", Long, true, 100.0, Some(10.0), Some(RetestConfirm), 0.0,
                       None, None, None, None, None),
                  Active, None, Book(1.0, 0.0, 0.0), Path(None, None, 0, None),
                  Trail(Some(90.0), false, false), Runner(false, None, None, None, None),
                  Scout(NoScout, None, None, 0)),
    FRESH)

  function RisingCycle(price: real): Cycle {
    Cycle(Tick(price, 1.0, None, None, None, None, 0.0), Quote(price, price), false,
          AlreadyFlat, AlreadyFlat)
  }

  /** Two bars at 0.4R or more: the first ratchets the stop beyond entry, the
      second tightens it back towards entry, a loosening. */
  lemma EarlyTrailingLoosens(x: real)
    requires x < 0.5
    ensures Fresh(RETEST_LONG)
    ensures exists steps :: LoosensSomewhere(EarlyTrailing(x), RETEST_LONG, steps)
  {
    var cfg := EarlyTrailing(x);
    var y := Max(x, 0.4);
    var step := ManageStep(RisingCycle(100.0 + 10.0 * y));
    var l1 := Next(cfg, RETEST_LONG, step).0;
    FirstBar(cfg, x, y);
    var l2 := Next(cfg, l1, step).0;
    SecondBar(cfg, x, y, l1);
    assert Run(cfg, RETEST_LONG, [step]) == l1 by {
      assert Run(cfg, l1, [step][1..]) == l1;
    }
    assert LoosensSomewhere(cfg, RETEST_LONG, [step, step]) by {
      assert [step, step][..1] == [step];
      assert [step, step][..2] == [step, step];
      assert Run(cfg, RETEST_LONG, [step, step]) == l2 by {
        assert [step, step][1..] == [step];
        assert Run(cfg, l2, [step][1..]) == l2;
      }
    }
  }

  lemma FirstBar(cfg: Config, x: real, y: real)
    requires cfg == EarlyTrailing(x) && x <= y && 0.4 <= y < 0.5
    ensures var l1 := Next(cfg, RETEST_LONG, ManageStep(RisingCycle(100.0 + 10.0 * y))).0;
            && l1.pos == RETEST_LONG.pos.(
                 path := Path(Some(100.0 + 10.0 * y), Some(100.0 + 10.0 * y), 1, None),
                 trail := Trail(Some(99.0 + 10.0 * y), false, true))
            && l1.trk == FRESH.(maxR := y)
  {
    var c := RisingCycle(100.0 + 10.0 * y);
    EvaluateShape(cfg, RETEST_LONG, c.tick);
    var (l1, actions) := Evaluate(cfg, RETEST_LONG, c.tick);
    assert Observe(RETEST_LONG, c.tick).trk.maxR == y;
    ApplyLast(cfg, l1, actions, c);
  }

  lemma SecondBar(cfg: Config, x: real, y: real, l: Life)
    requires cfg == EarlyTrailing(x) && x <= y && 0.4 <= y < 0.5
    requires l.pos == RETEST_LONG.pos.(
                 path := Path(Some(100.0 + 10.0 * y), Some(100.0 + 10.0 * y), 1, None),
                 trail := Trail(Some(99.0 + 10.0 * y), false, true))
    requires l.trk == FRESH.(maxR := y)
    ensures Next(cfg, l, ManageStep(RisingCycle(100.0 + 10.0 * y))).0.pos.trail.stop
            == Some(99.5 + 5.0 * y)
  {
    var c := RisingCycle(100.0 + 10.0 * y);
    EvaluateShape(cfg, l, c.tick);
    var (l1, actions) := Evaluate(cfg, l, c.tick);
    assert Observe(l, c.tick).trk.maxR == y;
    ApplyLast(cfg, l1, actions, c);
  }

  /** Half an R is the exact threshold: with trailing_start_r at x, no fresh position
      can ever see its stop loosened if and only if x is at least one half. */
  lemma HalfRIsTheThreshold(x: real)
    ensures (forall cfg: Config, l: Life, steps: seq<Step> ::
               cfg.trailingStartR == x && Fresh(l) ==> !LoosensSomewhere(cfg, l, steps))
            <==> x >= 0.5
  {
    if x >= 0.5 {
      forall cfg: Config, l: Life, steps: seq<Step> | cfg.trailingStartR == x && Fresh(l)
        ensures !LoosensSomewhere(cfg, l, steps)
      {
        StopNeverLoosens(cfg, l, steps);
      }
    } else {
      EarlyTrailingLoosens(x);
      assert EarlyTrailing(x).trailingStartR == x;
    }
  }
}
