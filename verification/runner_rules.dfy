/** Runner mode: how strong the trend of a runner is judged to be, when a weaker judgement has
    to wait, and what ends a runner; and the holding limit, which comes before everything. */
module RunnerRules {
  import opened Common
  import opened PositionModel
  import opened Management
  import opened Trading
  import opened Lifecycle
  import opened ScoutAutomaton
  import opened Exits
  import opened MarketTests
  import opened GeneralRules
  import opened History

  // ---- the holding limit ----

  predicate TooLongExit(actions: seq<Action>) {
    EndsInExit(actions) && actions[|actions| - 1].reason == MaxHoldingTime
  }

  lemma GeneralNeverTooLong(cfg: Config, l: Life, t: Tick, r: real, maxR: real)
    ensures !TooLongExit(GeneralStep(cfg, l, t, r, maxR).1)
  {
    var l1 := if maxR >= cfg.trailingStartR then StartTrailing(l) else l;
    PlainNeverTooLong(cfg, l1, t, r, maxR);
    hide PlainGeneralStep, TrailStop, EffectiveStop, StopBreached, RatchetStop, IsScenarioInvalid;
  }

  lemma PlainNeverTooLong(cfg: Config, l: Life, t: Tick, r: real, maxR: real)
    ensures !TooLongExit(PlainGeneralStep(cfg, l, t, r, maxR).1)
  {
    ScenarioLaw(cfg, l, t, r);
    var l1 := ScenarioStep(cfg, l, t, r).0;
    StagnationLaw(cfg, l1, maxR);
    hide ScenarioStep, StagnationStep, RatchetStop, Broken, InGrace, Mild, Unconfirmed, Verdict, Noted;
  }

  /** Every managed position, a scout or a runner too, is given up as held too long exactly
      when it has been open for the maximum number of minutes. */
  lemma HoldingLimitIff(cfg: Config, l: Life, t: Tick)
    requires Managed(l.pos)
    ensures var actions := Evaluate(cfg, l, t).1;
            && (TooLongExit(actions) <==> t.now - l.pos.plan.openedAt >= cfg.maxHoldingMinutes * 60.0)
            && (TooLongExit(actions) ==> actions == [Exit(l.pos.book.qty, MaxHoldingTime)])
  {
    var l0 := Observe(l, t);
    assert l0.pos.plan == l.pos.plan && l0.pos.book == l.pos.book;
    MinutesHeld(t.now - l.pos.plan.openedAt, cfg.maxHoldingMinutes);
    if !HeldTooLong(cfg, l0.pos, t.now) {
      var (l1, prefix, general) := ScoutStep(cfg, l0, t, l0.trk.maxR);
      ScoutStepFrame(cfg, l0, t, l0.trk.maxR);
      ScoutShape(cfg, l0, t, l0.trk.maxR);
      if general {
        var (l2, events) := RunnerState(cfg, l1, t, l0.trk.maxR);
        var r := RMultiple(l0.pos, t.price);
        GeneralNeverTooLong(cfg, l2, t, r, l0.trk.maxR);
        RunnerOnlyNotices(cfg, l1, t, l0.trk.maxR);
        LastOfThree(prefix, events, GeneralStep(cfg, l2, t, r, l0.trk.maxR).1);
      }
    }
    hide Observe, ScoutStep, RunnerState, GeneralStep, RMultiple;
  }

  lemma MinutesHeld(seconds: real, limit: real)
    ensures seconds / 60.0 >= limit <==> seconds >= limit * 60.0
  {
  }

  lemma LastOfThree(a: seq<Action>, b: seq<Action>, c: seq<Action>)
    requires AllEvents(a) && !EndsInExit(b) && !TooLongExit(c)
    ensures !TooLongExit(a + b + c)
  {
    var all := a + b + c;
    if c != [] {
      assert all[|all| - 1] == c[|c| - 1];
    } else if b != [] {
      assert all[|all| - 1] == b[|b| - 1];
    } else if a != [] {
      assert all[|all| - 1] == a[|a| - 1];
    }
  }

  // ---- the strength of the trend ----

  /** Closes below the one-minute EMA, counted over evaluations; without a candle or an EMA the
      count stands, and a five-minute break comes first. */
  function BreakCount(l: Life, t: Tick): int {
    var n := l.trk.runner.emaBreaks;
    if BelowEma(l.pos.plan.side, t.snap5) || t.candle.None? || t.snap1.None? || t.snap1.value.ema20.None? then n
    else if Ahead(l.pos.plan.side, t.candle.value.close, t.snap1.value.ema20.value) < 0.0 then n + 1
    else 0
  }

  /** The candle closed below the one-minute EMA, and often enough by now. */
  predicate EmaBroken(cfg: Config, l: Life, t: Tick) {
    && t.candle.Some? && t.snap1.Some? && t.snap1.value.ema20.Some?
    && Ahead(l.pos.plan.side, t.candle.value.close, t.snap1.value.ema20.value) < 0.0
    && l.trk.runner.emaBreaks + 1 >= cfg.runner.tightenEmaBars
  }

  /** Why the trend weakens, in the order of the tests. */
  function Weakening(cfg: Config, l: Life, t: Tick): Option<Why> {
    if BelowEma(l.pos.plan.side, t.snap5) then Some(FiveMinEma20Break)
    else if EmaBroken(cfg, l, t) then Some(OneMinEma20Break)
    else if cfg.runner.tightenOnOpposite && CounterCandle(l.pos.plan.side, t) then Some(StrongOppositeCandle)
    else None
  }

  /** The trend holds: closes above the EMAs that are required, and an RSI beyond its bound. */
  predicate Holds(cfg: Config, side: Side, t: Tick) {
    && (cfg.runner.require5m ==> AboveEma(side, t.snap5)) && (cfg.runner.require1m ==> AboveEma(side, t.snap1))
    && RsiHolds(side, t.snap1, cfg.runner.longMinRsi, cfg.runner.shortMaxRsi, 0.0)
  }

  /** A trend is weak when it weakens, has not come far enough or does not hold; among the
      others it is very strong when it has come farther still with five points of RSI more. */
  function Judged(cfg: Config, l: Life, t: Tick, best: real): (Strength, Why) {
    var side := l.pos.plan.side;
    if Weakening(cfg, l, t).Some? then (Weak, Weakening(cfg, l, t).value)
    else if best < cfg.runner.strongMinR || !Holds(cfg, side, t) then (Weak, TrendHoldWeak)
    else if best >= cfg.runner.veryStrongMinR
            && RsiHolds(side, t.snap1, cfg.runner.longMinRsi, cfg.runner.shortMaxRsi, 5.0) then
      (VeryStrong, VeryStrongTrendHold)
    else (Strong, StrongTrendHold)
  }

  lemma WeakeningLaw(cfg: Config, l: Life, t: Tick)
    ensures WeakeningReason(cfg, l, t)
            == (l.trk.(runner := l.trk.runner.(emaBreaks := BreakCount(l, t))), Weakening(cfg, l, t))
  {
    FiveMinuteIff(l.pos.plan.side, t.snap5);
    if t.candle.Some? {
      CounterCandleIff(l.pos.plan.side, t.candle.value, t.volumeRatio);
      if t.snap1.Some? && t.snap1.value.ema20.Some? {
        AgainstIff(l.pos.plan.side, t.candle.value.close, t.snap1.value.ema20.value);
      }
    }
    hide FiveMinuteBreak, BelowEma, StrongCounterCandle, AgainstCandle, ClosedAgainst, Ahead;
  }

  lemma HoldsIff(cfg: Config, side: Side, t: Tick)
    ensures TrendHolds(cfg, side, t.snap1, t.snap5) <==> Holds(cfg, side, t)
    ensures VeryStrongRsi(cfg, side, t.snap1) <==>
            RsiHolds(side, t.snap1, cfg.runner.longMinRsi, cfg.runner.shortMaxRsi, 5.0)
  {
  }

  lemma JudgedLaw(cfg: Config, l: Life, t: Tick, best: real)
    ensures var (strength, why) := Judged(cfg, l, t, best);
            TrendStrength(cfg, l, t, best)
            == (l.trk.(runner := l.trk.runner.(emaBreaks := BreakCount(l, t))), strength, why)
  {
    WeakeningLaw(cfg, l, t);
    HoldsIff(cfg, l.pos.plan.side, t);
    hide WeakeningReason, Weakening, TrendHolds, VeryStrongRsi, Holds, RsiHolds, BreakCount;
  }

  // ---- when a weaker judgement waits ----

  /** The bars a downgrade has to be seen on: those of the opposite candle or of the EMA. */
  function BarsNeeded(cfg: Config, why: Why): int {
    if why == StrongOppositeCandle then cfg.runner.tightenOppositeBars else cfg.runner.tightenEmaBars
  }

  /** The weak bars seen with this one; each open time counts once. */
  function WeakBars(trk: Tracking, t: Tick): int {
    var w := trk.runner;
    if t.candle.Some? && t.candle.value.openTime > 0 && w.weakOpenTime == Some(t.candle.value.openTime) then w.weakCount
    else w.weakCount + 1
  }

  /** A runner judged strong before and weak now keeps its strength until the weakness has
      been seen on enough bars; a five-minute break does not wait. */
  predicate Waits(cfg: Config, l: Life, t: Tick, best: real) {
    var (strength, why) := Judged(cfg, l, t, best);
    && l.pos.runner.strength in {Some(Strong), Some(VeryStrong)} && strength == Weak && why != FiveMinEma20Break
    && BarsNeeded(cfg, why) > 1 && WeakBars(l.trk, t) < BarsNeeded(cfg, why)
  }

  lemma WaitsIff(cfg: Config, l: Life, trk: Tracking, t: Tick, best: real)
    requires trk == l.trk.(runner := l.trk.runner.(emaBreaks := BreakCount(l, t)))
    ensures var (strength, why) := Judged(cfg, l, t, best);
            WeakDowngradePending(cfg, trk, l.pos.runner.strength, strength, why, t.candle).1 <==> Waits(cfg, l, t, best)
  {
    hide Judged, BreakCount;
  }

  /** An evaluation leaves a runner with the strength the trend is judged to have, or with its
      own while the judgement waits; it says so exactly when the strength changes. */
  lemma StrengthLaw(cfg: Config, l: Life, t: Tick, best: real)
    requires l.pos.runner.active
    ensures var (l1, events) := RunnerState(cfg, l, t, best);
            var (strength, why) := Judged(cfg, l, t, best);
            && (Waits(cfg, l, t, best) ==> l1.pos == l.pos && events == [])
            && (!Waits(cfg, l, t, best) ==>
                  && l1.pos.runner.strength == Some(strength)
                  && events == if l.pos.runner.strength.Some? && l.pos.runner.strength != Some(strength)
                               then [Event(RunnerTrendStrengthChangedEvent, Some(why))] else [])
            && (Waits(cfg, l, t, best) ==> l1.trk.runner.weakCount == WeakBars(l.trk, t))
            && (strength != Weak ==> l1.trk.runner.weakCount == 0)
  {
    JudgedLaw(cfg, l, t, best);
    WaitsIff(cfg, l, TrendStrength(cfg, l, t, best).0, t, best);
    PendingCounts(cfg, TrendStrength(cfg, l, t, best).0, l, t, best);
    hide TrendStrength, Judged, Waits, WeakDowngradePending, BreakCount;
  }

  lemma PendingCounts(cfg: Config, trk: Tracking, l: Life, t: Tick, best: real)
    requires trk == l.trk.(runner := l.trk.runner.(emaBreaks := BreakCount(l, t)))
    ensures var (strength, why) := Judged(cfg, l, t, best);
            var (trk1, pending) := WeakDowngradePending(cfg, trk, l.pos.runner.strength, strength, why, t.candle);
            pending ==> trk1.runner.weakCount == WeakBars(l.trk, t)
  {
    hide Judged, BreakCount;
  }

  // ---- what ends a runner ----

  /** What follows the notices. */
  predicate EndsWith(actions: seq<Action>, a: Action) {
    actions != [] && actions[|actions| - 1] == a
  }

  /** A runner takes a profit still due, exits by its trailing stop, exits when the five-minute
      trend or its level is broken, in this order, and otherwise moves its stop at most: a
      counter candle alone does not end it, and it never stagnates. */
  predicate RunnerDecides(cfg: Config, l: Life, t: Tick, r: real, actions: seq<Action>) {
    if ProfitDue(cfg, l.pos, r) then TakesProfit(cfg, l.pos, actions)
    else if TrailingExit(actions) then EndsWith(actions, Exit(l.pos.book.qty, RunnerTrailingStop))
    else if BelowEma(l.pos.plan.side, t.snap5) || LevelBroken(l.pos, l.trk, t) then
      EndsWith(actions, Exit(l.pos.book.qty, RunnerScenarioInvalid))
    else actions == [] || actions[|actions| - 1].Event? || actions[|actions| - 1].TrailUpdate?
  }

  lemma RunnerGeneralLaw(cfg: Config, l: Life, t: Tick, r: real, maxR: real)
    requires l.pos.runner.active
    ensures RunnerDecides(cfg, l, t, r, GeneralStep(cfg, l, t, r, maxR).1)
  {
    var l1 := if maxR >= cfg.trailingStartR then StartTrailing(l) else l;
    ScenarioTestLaw(l1.pos, l1.trk, t, false);
    SameLevel(l, t);
    PlainNeverTrails(cfg, l1, t, r, maxR);
    hide IsScenarioInvalid, RatchetStop, TrailStop, EffectiveStop, StopBreached, BelowEma, LevelBroken;
  }

  lemma SameLevel(l: Life, t: Tick)
    ensures LevelBroken(StartTrailing(l).pos, l.trk, t) <==> LevelBroken(l.pos, l.trk, t)
  {
  }

  lemma RunnerDecision(cfg: Config, l: Life, t: Tick)
    requires Managed(l.pos) && !OnProbation(cfg, l.pos) && l.pos.runner.active
    requires !HeldTooLong(cfg, Observe(l, t).pos, t.now)
    ensures var l0 := Observe(l, t);
            RunnerDecides(cfg, l0, t, RMultiple(l0.pos, t.price), Evaluate(cfg, l, t).1)
  {
    var l0 := Observe(l, t);
    var r := RMultiple(l0.pos, t.price);
    assert l0.pos.runner == l.pos.runner;
    GeneralEvaluation(cfg, l, t);
    var (l2, events) := RunnerState(cfg, l0, t, l0.trk.maxR);
    RunnerKeeps(cfg, l0, t, l0.trk.maxR);
    var actions := GeneralStep(cfg, l2, t, r, l0.trk.maxR).1;
    RunnerGeneralLaw(cfg, l2, t, r, l0.trk.maxR);
    hide Observe, Evaluate, RMultiple, HeldTooLong, OnProbation, GeneralStep, RunnerState;
    SameRunnerDecision(cfg, l0, l2, t, r, actions);
    hide RunnerDecides;
    EventsFirst(cfg, l0, t, r, events, actions);
  }

  lemma RunnerKeeps(cfg: Config, l: Life, t: Tick, maxR: real)
    requires l.pos.runner.active
    ensures var (l1, events) := RunnerState(cfg, l, t, maxR);
            && AllEvents(events) && l1.pos == l.pos.(runner := l1.pos.runner) && l1.pos.runner.active
            && l1.trk == l.trk.(runner := l1.trk.runner)
  {
    hide TrendStrength, WeakDowngradePending;
    TrendFrame(cfg, l, t, maxR);
    var (trk, strength, why) := TrendStrength(cfg, l, t, maxR);
    PendingFrame(cfg, trk, l.pos.runner.strength, strength, why, t.candle);
  }

  lemma SameRunnerDecision(cfg: Config, l: Life, l1: Life, t: Tick, r: real, actions: seq<Action>)
    requires l1.pos == l.pos.(runner := l1.pos.runner) && l1.trk == l.trk.(runner := l1.trk.runner)
    ensures RunnerDecides(cfg, l1, t, r, actions) <==> RunnerDecides(cfg, l, t, r, actions)
  {
  }

  lemma EventsFirst(cfg: Config, l: Life, t: Tick, r: real, events: seq<Action>, actions: seq<Action>)
    requires AllEvents(events) && RunnerDecides(cfg, l, t, r, actions)
    ensures RunnerDecides(cfg, l, t, r, events + actions)
  {
    if actions == [] {
      assert events + actions == events;
    } else {
      assert (events + actions)[|events + actions| - 1] == actions[|actions| - 1];
    }
  }

  // ---- entering runner mode ----

  /** A position enters runner mode exactly when runners are enabled for it, its partial profit
      is done, something is left and the best R, this price's included, suffices; its
      strength is then the one the trend is judged to have. */
  lemma ActivationIff(cfg: Config, l: Life, t: Tick, r: real)
    requires !l.pos.runner.active && IsR(l.pos.plan, t.price, r)
    ensures var best := if r > l.trk.maxR then r else l.trk.maxR;
            var p1 := ActivateRunner(cfg, l, t).0.pos;
            && (p1.runner.active <==>
                && cfg.runner.enabled && cfg.runner.activateAfterPartialTp && l.pos.trail.partialTpDone
                && l.pos.book.qty > 0.0 && best >= cfg.runner.activateMinR)
            && (p1.runner.active ==> p1.runner.strength == Some(Judged(cfg, l, t, best).0))
  {
    var p := UpdateExtremes(l.pos, t.price, t.candle);
    assert p == l.pos.(path := p.path);
    RLaw(p, t.price);
    RUnique(l.pos.plan, t.price, r, RMultiple(p, t.price));
    var best := if r > l.trk.maxR then r else l.trk.maxR;
    JudgedLaw(cfg, Life(p, l.trk), t, best);
    SameJudged(cfg, Life(p, l.trk), l, t, best);
    hide TrendStrength, RMultiple, UpdateExtremes, TrailStop, RunnerUpdateAllowed, Judged, BreakCount, IsR;
  }

  lemma SameJudged(cfg: Config, l: Life, l1: Life, t: Tick, best: real)
    requires l.pos.plan == l1.pos.plan && l.trk == l1.trk
    ensures Judged(cfg, l, t, best) == Judged(cfg, l1, t, best)
  {
  }

  /** Carrying out an action makes a runner exactly when it is a partial profit that is filled
      for something, but not for all that was held, under the conditions of ActivationIff. */
  lemma EntersIff(cfg: Config, l: Life, a: Action, s: Cycle, r: real)
    requires !l.pos.runner.active && l.pos.status != Closed && IsR(l.pos.plan, s.tick.price, r)
    ensures var best := if r > l.trk.maxR then r else l.trk.maxR;
            ApplyAction(cfg, l, a, s).0.pos.runner.active <==>
            && a.PartialTp? && s.outcome.Filled? && 0.0 < s.outcome.qty < l.pos.book.qty
            && cfg.runner.enabled && cfg.runner.activateAfterPartialTp && l.pos.trail.partialTpDone
            && best >= cfg.runner.activateMinR
  {
    if a.PartialTp? {
      var l1 := l.(pos := ApplyClose(l.pos, s.outcome, PartialTakeProfit, false, s.quote));
      ApplyCloseFrame(l.pos, s.outcome, PartialTakeProfit, false, s.quote);
      ActivationIff(cfg, l1, s.tick, r);
    }
    hide ActivateRunner, RealizedBy, FlatRealized, IsR;
  }
}
