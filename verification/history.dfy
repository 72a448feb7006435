/** What a run has seen of the market, read off its steps: the peak, the trough and the best
    R, and that the position and its tracking remember exactly these. */
module History {
  import opened Common
  import opened PositionModel
  import opened Management
  import opened Trading
  import opened Lifecycle
  import opened Requests
  import opened Exits
  import opened RealFacts

  // ---- what a run sees ----

  /** The tick a step shows the manager, if it reaches it. */
  function SeenIn(l: Life, s: Step): seq<Tick> {
    if s.ManageStep? && Evaluated(l, s.cycle) then [s.cycle.tick] else []
  }

  function Seen(cfg: Config, l: Life, steps: seq<Step>): seq<Tick>
    decreases |steps|
  {
    if steps == [] then [] else SeenIn(l, steps[0]) + Seen(cfg, Next(cfg, l, steps[0]).0, steps[1..])
  }

  /** The highest and the lowest price of a tick: its candle's, or the traded price. */
  function HighOf(t: Tick): real {
    if t.candle.Some? then t.candle.value.high else t.price
  }

  function LowOf(t: Tick): real {
    if t.candle.Some? then t.candle.value.low else t.price
  }

  /** h is the largest of the start and the highs; absent when there is neither. */
  predicate IsPeak(start: Option<real>, ticks: seq<Tick>, h: Option<real>) {
    && (h.Some? <==> start.Some? || ticks != [])
    && (start.Some? ==> start.value <= h.value)
    && (forall i :: 0 <= i < |ticks| ==> HighOf(ticks[i]) <= h.value)
    && (h.Some? ==> h == start || exists i :: 0 <= i < |ticks| && HighOf(ticks[i]) == h.value)
  }

  predicate IsTrough(start: Option<real>, ticks: seq<Tick>, h: Option<real>) {
    && (h.Some? <==> start.Some? || ticks != [])
    && (start.Some? ==> h.value <= start.value)
    && (forall i :: 0 <= i < |ticks| ==> h.value <= LowOf(ticks[i]))
    && (h.Some? ==> h == start || exists i :: 0 <= i < |ticks| && LowOf(ticks[i]) == h.value)
  }

  lemma PeakUnique(start: Option<real>, ticks: seq<Tick>, a: Option<real>, b: Option<real>)
    ensures IsPeak(start, ticks, a) && IsPeak(start, ticks, b) ==> a == b
    ensures IsTrough(start, ticks, a) && IsTrough(start, ticks, b) ==> a == b
  {
  }

  lemma PeakJoins(start: Option<real>, a: seq<Tick>, mid: Option<real>, b: seq<Tick>, h: Option<real>)
    requires IsPeak(start, a, mid) && IsPeak(mid, b, h)
    ensures IsPeak(start, a + b, h)
  {
    var all := a + b;
    forall i | 0 <= i < |all| ensures HighOf(all[i]) <= h.value {
      if i < |a| {
        assert HighOf(a[i]) <= mid.value;
      } else {
        assert HighOf(b[i - |a|]) <= h.value;
      }
    }
    if h.Some? && h != start {
      if h == mid {
        var i :| 0 <= i < |a| && HighOf(a[i]) == h.value;
        assert HighOf(all[i]) == h.value;
      } else {
        var i :| 0 <= i < |b| && HighOf(b[i]) == h.value;
        assert HighOf(all[|a| + i]) == h.value;
      }
    }
  }

  lemma TroughJoins(start: Option<real>, a: seq<Tick>, mid: Option<real>, b: seq<Tick>, h: Option<real>)
    requires IsTrough(start, a, mid) && IsTrough(mid, b, h)
    ensures IsTrough(start, a + b, h)
  {
    var all := a + b;
    forall i | 0 <= i < |all| ensures h.value <= LowOf(all[i]) {
      if i < |a| {
        assert mid.value <= LowOf(a[i]);
      } else {
        assert h.value <= LowOf(b[i - |a|]);
      }
    }
    if h.Some? && h != start {
      if h == mid {
        var i :| 0 <= i < |a| && LowOf(a[i]) == h.value;
        assert LowOf(all[i]) == h.value;
      } else {
        var i :| 0 <= i < |b| && LowOf(b[i]) == h.value;
        assert LowOf(all[|a| + i]) == h.value;
      }
    }
  }

  // ---- R, and the best R ----

  /** r times the risk per unit is the move in the position's favour; zero without a risk. */
  predicate IsR(plan: Plan, price: real, r: real) {
    if plan.risk.None? || plan.risk.value <= 0.0 then r == 0.0
    else r * plan.risk.value == (price - plan.entry) * Direction(plan.side)
  }

  lemma RLaw(p: PositionState, price: real)
    ensures IsR(p.plan, price, RMultiple(p, price))
  {
    if p.plan.risk.Some? && p.plan.risk.value > 0.0 {
      DivideMultiply(price - p.plan.entry, p.plan.risk.value);
      DivideMultiply(p.plan.entry - price, p.plan.risk.value);
    }
  }

  lemma RUnique(plan: Plan, price: real, a: real, b: real)
    requires IsR(plan, price, a) && IsR(plan, price, b)
    ensures a == b
  {
    if plan.risk.Some? && plan.risk.value > 0.0 {
      CancelEqual(a, b, plan.risk.value);
    }
  }

  /** m is the largest of the start and the R at each tick's price. */
  ghost predicate IsBest(plan: Plan, start: real, ticks: seq<Tick>, m: real) {
    && start <= m
    && (forall i, r :: 0 <= i < |ticks| && IsR(plan, ticks[i].price, r) ==> r <= m)
    && (m == start || exists i :: 0 <= i < |ticks| && IsR(plan, ticks[i].price, m))
  }

  lemma BestUnique(plan: Plan, start: real, ticks: seq<Tick>, a: real, b: real)
    requires IsBest(plan, start, ticks, a) && IsBest(plan, start, ticks, b)
    ensures a == b
  {
    hide IsR;
  }

  lemma BestJoins(plan: Plan, start: real, a: seq<Tick>, mid: real, b: seq<Tick>, m: real)
    requires IsBest(plan, start, a, mid) && IsBest(plan, mid, b, m)
    ensures IsBest(plan, start, a + b, m)
  {
    hide IsR;
    var all := a + b;
    forall i, r | 0 <= i < |all| && IsR(plan, all[i].price, r) ensures r <= m {
      if i < |a| {
        assert IsR(plan, a[i].price, r);
      } else {
        assert IsR(plan, b[i - |a|].price, r);
      }
    }
    if m != start {
      if m == mid {
        var i :| 0 <= i < |a| && IsR(plan, a[i].price, m);
        assert IsR(plan, all[i].price, m);
      } else {
        var i :| 0 <= i < |b| && IsR(plan, b[i].price, m);
        assert IsR(plan, all[|a| + i].price, m);
      }
    }
  }

  // ---- one step ----

  lemma ScenarioKeepsBest(cfg: Config, l: Life, t: Tick, r: real)
    ensures ScenarioStep(cfg, l, t, r).0.trk.maxR == l.trk.maxR
    ensures IsScenarioInvalid(l.pos, l.trk, t, false).0.maxR == l.trk.maxR
  {
    hide MildRetestInvalid, StrongCounterCandle, FiveMinuteBreak;
  }

  lemma StagnationKeepsBest(cfg: Config, l: Life, maxR: real)
    ensures StagnationStep(cfg, l, maxR).0.trk.maxR == l.trk.maxR
  {
    hide TightenStop;
  }

  lemma GeneralKeepsBest(cfg: Config, l: Life, t: Tick, r: real, maxR: real)
    ensures GeneralStep(cfg, l, t, r, maxR).0.trk.maxR == l.trk.maxR
  {
    var l1 := if maxR >= cfg.trailingStartR then StartTrailing(l) else l;
    ScenarioKeepsBest(cfg, l1, t, r);
    StagnationKeepsBest(cfg, ScenarioStep(cfg, l1, t, r).0, maxR);
    hide ScenarioStep, StagnationStep, IsScenarioInvalid, RatchetStop, TrailStop, EffectiveStop, StopBreached;
  }

  lemma EvaluateKeepsBest(cfg: Config, l: Life, t: Tick)
    requires Managed(l.pos)
    ensures Evaluate(cfg, l, t).0.trk.maxR == Observe(l, t).trk.maxR
  {
    var l0 := Observe(l, t);
    hide Observe, ScoutStep, TrendStrength, WeakDowngradePending, GeneralStep, RMultiple, HeldTooLong;
    ScoutStepFrame(cfg, l0, t, l0.trk.maxR);
    var l1 := ScoutStep(cfg, l0, t, l0.trk.maxR).0;
    RunnerKeepsBest(cfg, l1, t, l0.trk.maxR);
    GeneralKeepsBest(cfg, RunnerState(cfg, l1, t, l0.trk.maxR).0, t, RMultiple(l0.pos, t.price), l0.trk.maxR);
  }

  lemma RunnerKeepsBest(cfg: Config, l: Life, t: Tick, maxR: real)
    ensures RunnerState(cfg, l, t, maxR).0.trk.maxR == l.trk.maxR
  {
    hide TrendStrength, WeakDowngradePending;
    TrendFrame(cfg, l, t, maxR);
    var (trk, strength, why) := TrendStrength(cfg, l, t, maxR);
    PendingFrame(cfg, trk, l.pos.runner.strength, strength, why, t.candle);
  }

  /** An evaluation observes its tick: the extremes and the best R take it in. */
  lemma ObserveLaw(l: Life, t: Tick)
    ensures var l0 := Observe(l, t);
            && IsPeak(l.pos.path.highest, [t], l0.pos.path.highest)
            && IsTrough(l.pos.path.lowest, [t], l0.pos.path.lowest)
            && IsBest(l.pos.plan, l.trk.maxR, [t], l0.trk.maxR)
  {
    assert [t][0] == t;
    assert HighOf([t][0]) == HighOf(t) && LowOf([t][0]) == LowOf(t);
    var p := Observe(l, t).pos;
    assert p.plan == l.pos.plan;
    RLaw(p, t.price);
    var r := RMultiple(p, t.price);
    hide RMultiple;
    forall x | IsR(l.pos.plan, t.price, x) ensures x == r {
      RUnique(l.pos.plan, t.price, x, r);
    }
    assert IsR(l.pos.plan, [t][0].price, r);
    hide IsR;
  }

  lemma CycleKeepsPlan(cfg: Config, l: Life, s: Cycle)
    ensures Manage(cfg, l, s).0.pos.plan == l.pos.plan
  {
    hide Evaluate, ApplyClose, ActivateRunner;
    if Managed(l.pos) {
      var l0 := AfterFunding(l, s);
      ApplyCloseFrame(l.pos, s.fundingOutcome, FundingGuard, false, s.quote);
      if !(s.fundingReduce && l0.pos.book.qty <= 0.0) {
        assert Managed(l0.pos) by { FundingHeld(l, s); }
        var (l1, actions) := Evaluate(cfg, l0, s.tick);
        EvaluateAsks(cfg, l0, s.tick);
        EvaluateShape(cfg, l0, s.tick);
        ApplyLast(cfg, l1, actions, s);
        if actions != [] {
          ApplyKeepsPlan(cfg, l1, actions[|actions| - 1], s);
        }
      }
    }
  }

  lemma ApplyKeepsPlan(cfg: Config, l: Life, a: Action, s: Cycle)
    ensures ApplyAction(cfg, l, a, s).0.pos.plan == l.pos.plan
  {
    hide ActivateRunner;
    if a.PartialTp? {
      ActivateKeepsMoney(cfg, l.(pos := ApplyClose(l.pos, s.outcome, PartialTakeProfit, false, s.quote)), s.tick);
    }
  }

  /** Seeing the same tick twice adds nothing. */
  lemma ApplyKeepsHistory(cfg: Config, l: Life, a: Action, s: Cycle, start: Option<real>, low: Option<real>)
    requires IsPeak(start, [s.tick], l.pos.path.highest) && IsTrough(low, [s.tick], l.pos.path.lowest)
    ensures var l1 := ApplyAction(cfg, l, a, s).0;
            && l1.trk.maxR == l.trk.maxR
            && l1.pos.path.highest == l.pos.path.highest && l1.pos.path.lowest == l.pos.path.lowest
  {
    assert HighOf([s.tick][0]) <= l.pos.path.highest.value && l.pos.path.lowest.value <= LowOf([s.tick][0]);
    if a.PartialTp? {
      ActivateKeepsHistory(cfg, l.(pos := ApplyClose(l.pos, s.outcome, PartialTakeProfit, false, s.quote)), s.tick);
    }
    hide ActivateRunner;
  }

  lemma ActivateKeepsHistory(cfg: Config, l: Life, t: Tick)
    requires l.pos.path.highest.Some? && HighOf(t) <= l.pos.path.highest.value
    requires l.pos.path.lowest.Some? && l.pos.path.lowest.value <= LowOf(t)
    ensures ActivateRunner(cfg, l, t).0.pos.path == l.pos.path
    ensures ActivateRunner(cfg, l, t).0.trk.maxR == l.trk.maxR
  {
    var p := UpdateExtremes(l.pos, t.price, t.candle);
    assert p == l.pos;
    TrendFrame(cfg, Life(p, l.trk), t, Max(l.trk.maxR, RMultiple(p, t.price)));
    hide TrendStrength, TrailStop, RunnerUpdateAllowed, RMultiple;
  }

  lemma CycleHistory(cfg: Config, l: Life, s: Cycle)
    requires Evaluated(l, s)
    ensures var l1 := Next(cfg, l, ManageStep(s)).0;
            && IsPeak(l.pos.path.highest, [s.tick], l1.pos.path.highest)
            && IsTrough(l.pos.path.lowest, [s.tick], l1.pos.path.lowest)
            && IsBest(l.pos.plan, l.trk.maxR, [s.tick], l1.trk.maxR)
  {
    var l0 := AfterFunding(l, s);
    assert l0.trk == l.trk && l0.pos.plan == l.pos.plan && l0.pos.path == l.pos.path && Managed(l0.pos) by {
      FundingHeld(l, s);
    }
    CycleUnfolds(cfg, l, s);
    hide Next, Managed, Evaluate, AfterFunding, ApplyAction, IsBest, IsPeak, IsTrough, Observe;
    var (l1, actions) := Evaluate(cfg, l0, s.tick);
    ObserveLaw(l0, s.tick);
    EvaluateFrame(cfg, l0, s.tick);
    EvaluateKeepsBest(cfg, l0, s.tick);
    EvaluateShape(cfg, l0, s.tick);
    ApplyLast(cfg, l1, actions, s);
    if actions != [] {
      ApplyKeepsHistory(cfg, l1, actions[|actions| - 1], s, l0.pos.path.highest, l0.pos.path.lowest);
    }
  }

  lemma OtherwiseUntouched(cfg: Config, l: Life, s: Step)
    requires SeenIn(l, s) == []
    ensures var l1 := Next(cfg, l, s).0;
            l1.pos.path == l.pos.path && l1.trk == l.trk && l1.pos.plan == l.pos.plan && l1.pos.runner == l.pos.runner
            && l1.pos.scout == l.pos.scout && l1.pos.trail == l.pos.trail
  {
    hide Evaluate;
  }

  /** After any run the position remembers exactly the peak and the trough, and the manager
      exactly the best R, of the ticks the run has shown it. */
  lemma {:induction false} RunRemembers(cfg: Config, l: Life, steps: seq<Step>)
    ensures var l1, ticks := Run(cfg, l, steps), Seen(cfg, l, steps);
            && l1.pos.plan == l.pos.plan
            && IsPeak(l.pos.path.highest, ticks, l1.pos.path.highest)
            && IsTrough(l.pos.path.lowest, ticks, l1.pos.path.lowest)
            && IsBest(l.pos.plan, l.trk.maxR, ticks, l1.trk.maxR)
    decreases |steps|
  {
    if steps != [] {
      var l1 := Next(cfg, l, steps[0]).0;
      var rest := Seen(cfg, l1, steps[1..]);
      RunRemembers(cfg, l1, steps[1..]);
      var end := Run(cfg, l1, steps[1..]);
      if SeenIn(l, steps[0]) == [] {
        OtherwiseUntouched(cfg, l, steps[0]);
        assert Seen(cfg, l, steps) == rest;
      } else {
        CycleHistory(cfg, l, steps[0].cycle);
        CycleKeepsPlan(cfg, l, steps[0].cycle);
        var t := steps[0].cycle.tick;
        hide Next, IsPeak, IsTrough, IsBest;
        PeakJoins(l.pos.path.highest, [t], l1.pos.path.highest, rest, end.pos.path.highest);
        TroughJoins(l.pos.path.lowest, [t], l1.pos.path.lowest, rest, end.pos.path.lowest);
        BestJoins(l.pos.plan, l.trk.maxR, [t], l1.trk.maxR, rest, end.trk.maxR);
      }
    }
  }
}
