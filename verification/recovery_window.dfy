/** The recovery window after a broken scenario, measured in evaluations and in bars:
    exactly when it runs out, and exactly when running out takes as many bars. */
module RecoveryWindow {
  import opened Common
  import opened Market
  import opened PositionModel
  import opened Management
  import opened Trading
  import opened Lifecycle
  import opened ScoutAutomaton
  import opened Exits

  // ---- the bar counter ----

  /** A tick brings a new bar when it has no candle, or one without an open time, or one
      with another open time than the last evaluated. */
  predicate NewBar(path: Path, candle: Option<Candle>) {
    || candle.None? || candle.value.openTime <= 0
    || path.lastEvaluatedOpenTime != Some(candle.value.openTime)
  }

  /** Every evaluation of a managed position counts a bar exactly when its tick brings a
      new one, and remembers the last open time it has seen. */
  lemma BarLaw(cfg: Config, l: Life, t: Tick)
    requires Managed(l.pos)
    ensures var path, path1 := l.pos.path, Evaluate(cfg, l, t).0.pos.path;
            && (path1.bars == path.bars + 1 <==> NewBar(path, t.candle))
            && (path1.bars == path.bars <==> !NewBar(path, t.candle))
            && path1.lastEvaluatedOpenTime ==
               if t.candle.Some? && t.candle.value.openTime > 0 then Some(t.candle.value.openTime)
               else path.lastEvaluatedOpenTime
  {
    EvaluateFrame(cfg, l, t);
    hide Evaluate;
  }

  // ---- when the countdown exits ----

  predicate ScenarioExit(actions: seq<Action>) {
    EndsInExit(actions) && actions[|actions| - 1].reason == ScenarioInvalid
  }

  /** Nothing that comes before the scenario in an evaluation takes it over. */
  predicate Undisturbed(cfg: Config, l: Life, t: Tick) {
    var l0 := Observe(l, t);
    !HeldTooLong(cfg, l0.pos, t.now) && !TrailingDue(cfg, l0.pos, t, l0.trk.maxR)
  }

  lemma StagnationNeverScenario(cfg: Config, l: Life, maxR: real)
    ensures var a := StagnationStep(cfg, l, maxR).1; a.Some? ==> !ScenarioExit([a.value])
  {
    hide TightenStop;
  }

  lemma CountdownScenario(cfg: Config, l: Life, t: Tick, r: real, n: int)
    requires Counting(l, n)
    ensures var a := ScenarioStep(cfg, l, t, r).1;
            a.Some? <==> r < 0.5 && n == 1
    ensures var a := ScenarioStep(cfg, l, t, r).1;
            a.Some? ==> ScenarioExit([a.value])
  {
  }

  lemma PlainScenarioExit(cfg: Config, l: Life, t: Tick, r: real, maxR: real, n: int)
    requires Counting(l, n)
    ensures ScenarioExit(PlainGeneralStep(cfg, l, t, r, maxR).1) <==> r < 0.5 && n == 1
  {
    CountdownScenario(cfg, l, t, r, n);
    var l1 := ScenarioStep(cfg, l, t, r).0;
    StagnationNeverScenario(cfg, l1, maxR);
    hide ScenarioStep, StagnationStep, RatchetStop;
  }

  lemma GeneralScenarioExit(cfg: Config, l: Life, t: Tick, r: real, maxR: real, n: int)
    requires Counting(l, n) && !l.pos.runner.active
    ensures ScenarioExit(GeneralStep(cfg, l, t, r, maxR).1) <==>
            && r < 0.5 && n == 1
            && (l.pos.trail.partialTpDone || r < cfg.partialR) && !TrailingDue(cfg, l.pos, t, maxR)
  {
    var l1 := StartTrailing(l);
    assert TrailStop(cfg, l1.pos, t.atr, maxR) == TrailStop(cfg, l.pos, t.atr, maxR);
    EffectiveBreach(l1.pos, t.price, TrailStop(cfg, l.pos, t.atr, maxR));
    PlainScenarioExit(cfg, if maxR >= cfg.trailingStartR then l1 else l, t, r, maxR, n);
    hide TrailStop, EffectiveStop, StopBreached, PlainGeneralStep;
  }

  /** While counting down, an evaluation gives the position up as SCENARIO_INVALID exactly
      when it is the last one left, the position is below half an R and due no partial
      profit, and neither the holding limit nor the trailing stop comes first. */
  lemma ScenarioExitIff(cfg: Config, l: Life, t: Tick, n: int)
    requires Steady(cfg, l.pos) && Counting(l, n)
    ensures ScenarioExit(Evaluate(cfg, l, t).1) <==> n == 1 && Unrecovered(cfg, l, t) && Undisturbed(cfg, l, t)
  {
    var l0 := Observe(l, t);
    assert Counting(l0, n) && !l0.pos.runner.active && l0.pos.trail.partialTpDone == l.pos.trail.partialTpDone;
    if HeldTooLong(cfg, l0.pos, t.now) {
      assert Evaluate(cfg, l, t).1 == [Exit(l0.pos.book.qty, MaxHoldingTime)] by { hide EvaluateObserved; }
    } else {
      GeneralEvaluation(cfg, l, t);
      assert RunnerState(cfg, l0, t, l0.trk.maxR) == (l0, []);
      var actions := GeneralStep(cfg, l0, t, RMultiple(l0.pos, t.price), l0.trk.maxR).1;
      assert [] + actions == actions;
      GeneralScenarioExit(cfg, l0, t, RMultiple(l0.pos, t.price), l0.trk.maxR, n);
    }
    hide Evaluate, GeneralStep, RMultiple, Observe, HeldTooLong, TrailingDue;
  }

  // ---- whole windows ----

  /** Cycle k evaluates the position and gives it up as SCENARIO_INVALID. */
  predicate GivesUpAt(cfg: Config, l: Life, cycles: seq<Cycle>, k: nat)
    requires k < |cycles|
  {
    var lk := Cycles(cfg, l, cycles[..k]);
    Evaluated(lk, cycles[k]) && ScenarioExit(Evaluate(cfg, AfterFunding(lk, cycles[k]), cycles[k].tick).1)
  }

  lemma FundingKeeps(cfg: Config, l: Life, s: Cycle, n: int)
    requires Steady(cfg, l.pos) && Counting(l, n)
    ensures var l0 := AfterFunding(l, s);
            Counting(l0, n) && (Evaluated(l, s) ==> Steady(cfg, l0.pos))
  {
  }

  /** Whatever else happens, the scenario gives the position up in the last cycle of the
      window and in no other, and does so exactly when the position is still evaluated then
      and nothing comes before it. */
  lemma {:induction false} GivesUpIff(cfg: Config, l: Life, cycles: seq<Cycle>, n: int, k: nat)
    requires Steady(cfg, l.pos) && Counting(l, n) && AllUnrecovered(cfg, l, cycles) && k < |cycles|
    ensures var lk := Cycles(cfg, l, cycles[..k]);
            GivesUpAt(cfg, l, cycles, k) <==>
            && k == n - 1 && Evaluated(lk, cycles[k])
            && Undisturbed(cfg, AfterFunding(lk, cycles[k]), cycles[k].tick)
    decreases k
  {
    hide Evaluate, Next, Unrecovered, Undisturbed, AfterFunding, OnProbation, Evaluated, ScenarioExit;
    if k == 0 {
      assert cycles[..0] == [];
      FundingKeeps(cfg, l, cycles[0], n);
      if Evaluated(l, cycles[0]) {
        ScenarioExitIff(cfg, AfterFunding(l, cycles[0]), cycles[0].tick, n);
      }
    } else {
      var l1 := Next(cfg, l, ManageStep(cycles[0])).0;
      CountdownCycle(cfg, l, cycles[0], n);
      assert cycles[..k][1..] == cycles[1..][..k - 1];
      if Managed(l1.pos) {
        GivesUpIff(cfg, l1, cycles[1..], n - 1, k - 1);
      } else {
        GoneStays(cfg, l1, cycles[1..], k - 1);
        NotEvaluated(cfg, l, cycles, k);
      }
    }
  }

  lemma {:induction false} GoneStays(cfg: Config, l: Life, cycles: seq<Cycle>, k: nat)
    requires !Managed(l.pos) && k <= |cycles|
    ensures !Managed(Cycles(cfg, l, cycles[..k]).pos)
    decreases k
  {
    hide Next;
    if k > 0 {
      UnmanagedStays(cfg, l, cycles[0]);
      assert cycles[..k][1..] == cycles[1..][..k - 1];
      GoneStays(cfg, l, cycles[1..], k - 1);
    }
  }

  lemma NotEvaluated(cfg: Config, l: Life, cycles: seq<Cycle>, k: nat)
    requires k < |cycles| && !Managed(Cycles(cfg, l, cycles[..k]).pos)
    ensures !Evaluated(Cycles(cfg, l, cycles[..k]), cycles[k])
  {
  }

  // ---- the bars a window spans ----

  /** Cycle k brings the position a new bar. */
  predicate NewBarAt(cfg: Config, l: Life, cycles: seq<Cycle>, k: nat)
    requires k < |cycles|
  {
    NewBar(Cycles(cfg, l, cycles[..k]).pos.path, cycles[k].tick.candle)
  }

  /** A cycle that evaluates the position counts at most the one bar its tick brings. */
  lemma CycleBars(cfg: Config, l: Life, s: Cycle)
    requires Evaluated(l, s)
    ensures Next(cfg, l, ManageStep(s)).0.pos.path.bars ==
            l.pos.path.bars + if NewBar(l.pos.path, s.tick.candle) then 1 else 0
  {
    var l0 := AfterFunding(l, s);
    assert Managed(l0.pos) && l0.pos.path == l.pos.path by { FundingHeld(l, s); }
    BarLaw(cfg, l0, s.tick);
    EvaluateShape(cfg, l0, s.tick);
    var (l1, actions) := Evaluate(cfg, l0, s.tick);
    hide Evaluate, AfterFunding, ApplyAction;
    ApplyLast(cfg, l1, actions, s);
    if actions != [] {
      ApplyKeepsBars(cfg, l1, actions[|actions| - 1], s);
    }
  }

  lemma ApplyKeepsBars(cfg: Config, l: Life, a: Action, s: Cycle)
    ensures ApplyAction(cfg, l, a, s).0.pos.path.bars == l.pos.path.bars
  {
    hide TrendStrength, TrailStop, RunnerUpdateAllowed;
  }

  /** A window that the countdown uses up has exactly as many cycles as were left, spans at
      most that many bars, and spans that many exactly when every cycle brought a new bar. */
  lemma {:induction false} WindowBars(cfg: Config, l: Life, cycles: seq<Cycle>, n: int)
    requires Steady(cfg, l.pos) && Counting(l, n) && AllUnrecovered(cfg, l, cycles)
    requires cycles != [] && GivesUpAt(cfg, l, cycles, |cycles| - 1)
    ensures var spanned := Cycles(cfg, l, cycles).pos.path.bars - l.pos.path.bars;
            && |cycles| == n && 0 <= spanned <= n
            && (spanned == n <==> forall k :: 0 <= k < n ==> NewBarAt(cfg, l, cycles, k))
    decreases |cycles|
  {
    hide Next, Unrecovered, OnProbation, NewBar, Undisturbed, Evaluate, ScenarioExit, Steady;
    GivesUpIff(cfg, l, cycles, n, |cycles| - 1);
    var l1 := Next(cfg, l, ManageStep(cycles[0])).0;
    assert cycles[..0] == [];
    if |cycles| == 1 {
      assert cycles[1..] == [] && Cycles(cfg, l, cycles) == l1;
      CycleBars(cfg, l, cycles[0]);
      assert NewBarAt(cfg, l, cycles, 0) <==> NewBar(l.pos.path, cycles[0].tick.candle);
    } else {
      StillHeld(cfg, l, cycles, n);
      CycleBars(cfg, l, cycles[0]);
      RestGivesUp(cfg, l, cycles);
      WindowBars(cfg, l1, cycles[1..], n - 1);
      forall k | 1 <= k < n
        ensures NewBarAt(cfg, l, cycles, k) <==> NewBarAt(cfg, l1, cycles[1..], k - 1)
      {
        assert cycles[..k][1..] == cycles[1..][..k - 1];
      }
      assert NewBarAt(cfg, l, cycles, 0) <==> NewBar(l.pos.path, cycles[0].tick.candle);
      if forall k :: 0 <= k < n ==> NewBarAt(cfg, l, cycles, k) {
        forall k | 0 <= k < n - 1 ensures NewBarAt(cfg, l1, cycles[1..], k) {
          assert NewBarAt(cfg, l, cycles, k + 1);
        }
      }
    }
  }

  lemma RestGivesUp(cfg: Config, l: Life, cycles: seq<Cycle>)
    requires |cycles| >= 2 && GivesUpAt(cfg, l, cycles, |cycles| - 1)
    ensures GivesUpAt(cfg, Next(cfg, l, ManageStep(cycles[0])).0, cycles[1..], |cycles| - 2)
  {
    hide Next, Evaluate;
    assert cycles[..|cycles| - 1][1..] == cycles[1..][..|cycles| - 2];
  }

  /** A position given up only later was evaluated and kept by the first cycle. */
  lemma StillHeld(cfg: Config, l: Life, cycles: seq<Cycle>, n: int)
    requires Steady(cfg, l.pos) && Counting(l, n) && AllUnrecovered(cfg, l, cycles)
    requires |cycles| >= 2 && GivesUpAt(cfg, l, cycles, |cycles| - 1)
    ensures var l1 := Next(cfg, l, ManageStep(cycles[0])).0;
            Evaluated(l, cycles[0]) && Steady(cfg, l1.pos) && Counting(l1, n - 1)
            && AllUnrecovered(cfg, l1, cycles[1..])
  {
    var l1 := Next(cfg, l, ManageStep(cycles[0])).0;
    SkippedIsGone(cfg, l, cycles[0]);
    hide Next, Unrecovered, Steady, Evaluate;
    CountdownCycle(cfg, l, cycles[0], n);
    assert cycles[..|cycles| - 1][1..] == cycles[1..][..|cycles| - 2];
    HeldBefore(cfg, l1, cycles[1..], |cycles| - 2);
  }

  lemma HeldBefore(cfg: Config, l: Life, cycles: seq<Cycle>, k: nat)
    requires k <= |cycles|
    ensures Managed(Cycles(cfg, l, cycles[..k]).pos) ==> Managed(l.pos)
  {
    if !Managed(l.pos) {
      GoneStays(cfg, l, cycles, k);
    }
  }

  lemma SkippedIsGone(cfg: Config, l: Life, s: Cycle)
    requires Steady(cfg, l.pos)
    ensures !Evaluated(l, s) ==> !Managed(Next(cfg, l, ManageStep(s)).0.pos)
  {
  }

  // ---- three evaluations of one candle ----

  /** Settings under which nothing but the scenario acts. */
  const QUIET := Config(10.0, 0.5, 1.0, 1.0, 100.0, 1.0, 1000.0,
                        ScoutConfig(false, 0, 0.0, 0.0, 0, 0, 0, 0.5, false, 0, 0.0, 100.0,
                                    1.0, 1.0, 1.0, 1.0, 1.0, false),
                        RunnerConfig(false, false, 0.0, 1.0, 1.0, 1.0, 0.0, 0.0, false, false,
                                     50.0, 50.0, 1, false, 1, 0.0, 0.0),
                        StagnationConfig(false, 100, 0.0, 100, 0.5, 100, 2, 100, 0))

  /** A breakout long at its entry price, with `left` evaluations to recover, that has
      already seen the candle of minute one. */
  function Reduced(left: Option<int>): Life {
    Life(PositionState(Plan("S", Long, true, 100.0, Some(10.0), Some(BreakoutConfirm), 0.0,
                            None, None, None, None, None),
                       Active, None, Book(1.0, 0.0, 0.0), Path(Some(100.0), Some(100.0), 1, Some(60000)),
                       Trail(Some(90.0), false, false), Runner(false, None, None, None, None),
                       Scout(NoScout, None, None, 0)),
         FRESH.(scenario := ScenarioTracking(left, true, NO_STREAK, NO_STREAK)))
  }

  const MINUTE_ONE := Tick(100.0, 1.0, Some(Candle(60000, 100.0, 100.0, 100.0, 100.0, 1.0, true)),
                           None, None, None, 0.0)

  lemma SameCandle(n: int)
    requires n >= 1
    ensures var (l1, actions) := Evaluate(QUIET, Reduced(Some(n)), MINUTE_ONE);
            if n == 1 then l1.pos.status == Closing && l1.pos.exitReason == Some(ScenarioInvalid)
                           && l1.pos.path == Reduced(Some(n)).pos.path
            else l1 == Reduced(Some(n - 1)) && actions == []
  {
    var l := Reduced(Some(n));
    var l0 := Observe(l, MINUTE_ONE);
    assert RMultiple(l0.pos, 100.0) == 0.0 && l0 == l;
    assert !HeldTooLong(QUIET, l0.pos, 0.0);
    assert !OnProbation(QUIET, l.pos);
    GeneralEvaluation(QUIET, l, MINUTE_ONE);
    hide Evaluate, Observe, RMultiple, HeldTooLong, TrailStop, EffectiveStop;
  }

  /** Three evaluations of the candle already counted use up the three-cycle window: the
      position is given up as SCENARIO_INVALID and not one bar has passed. */
  lemma OneCandleUsesUpTheWindow()
    ensures var l1 := Evaluate(QUIET, Reduced(Some(3)), MINUTE_ONE).0;
            var l2 := Evaluate(QUIET, l1, MINUTE_ONE).0;
            var l3 := Evaluate(QUIET, l2, MINUTE_ONE).0;
            && l3.pos.status == Closing && l3.pos.exitReason == Some(ScenarioInvalid)
            && l3.pos.path.bars == Reduced(Some(3)).pos.path.bars
  {
    SameCandle(3);
    SameCandle(2);
    SameCandle(1);
    hide Evaluate;
  }
}
