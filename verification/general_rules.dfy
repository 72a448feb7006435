/** The rules of ordinary management, stated on prices, bars and R: when the scenario of a
    position counts as broken and what follows, when it stagnates, and in which order. */
module GeneralRules {
  import opened Common
  import opened Market
  import opened PositionModel
  import opened Management
  import opened ScoutAutomaton
  import opened Exits
  import opened MarketTests

  // ---- a broken scenario ----

  /** The count of a streak once a candle continues it: each open time counts once. */
  function Continued(s: Streak, k: Candle): int {
    if k.openTime > 0 && s.lastOpen == Some(k.openTime) then s.count else s.count + 1
  }

  /** The candle closed on the losing side of the breakout level. */
  predicate LevelLost(p: PositionState, t: Tick) {
    p.plan.breakoutLevel.Some? && t.candle.Some?
    && Ahead(p.plan.side, t.candle.value.close, p.plan.breakoutLevel.value) < 0.0
  }

  /** A heavy candle against the position, with the fixed measures of the scenario test. */
  predicate CounterCandle(side: Side, t: Tick) {
    t.candle.Some? && AgainstCandle(side, t.candle.value, t.volumeRatio, 0.55, 1.5, 0.25)
  }

  /** Closes beyond the breakout level on two candles in a row. */
  predicate LevelBroken(p: PositionState, trk: Tracking, t: Tick) {
    LevelLost(p, t) && Continued(trk.scenario.breakFails, t.candle.value) >= 2
  }

  /** The scenario is broken: by the five-minute trend, by the level, or by a counter candle. */
  predicate Broken(p: PositionState, trk: Tracking, t: Tick) {
    BelowEma(p.plan.side, t.snap5) || LevelBroken(p, trk, t) || CounterCandle(p.plan.side, t)
  }

  /** The streak of closes beyond the level after the test; the five-minute break comes
      first and leaves it alone. */
  function LevelStreak(p: PositionState, trk: Tracking, t: Tick): Streak {
    var s := trk.scenario.breakFails;
    if BelowEma(p.plan.side, t.snap5) || t.candle.None? || p.plan.breakoutLevel.None? then s
    else if !LevelLost(p, t) then NO_STREAK
    else if Continued(s, t.candle.value) == s.count then s
    else Streak(OpenTimeOf(t.candle.value), s.count + 1)
  }

  lemma ScenarioTestLaw(p: PositionState, trk: Tracking, t: Tick, counter: bool)
    ensures var (trk1, invalid) := IsScenarioInvalid(p, trk, t, counter);
            && (invalid <==> BelowEma(p.plan.side, t.snap5) || LevelBroken(p, trk, t)
                             || (counter && CounterCandle(p.plan.side, t)))
            && trk1 == trk.(scenario := trk.scenario.(breakFails := LevelStreak(p, trk, t)))
  {
    FiveMinuteIff(p.plan.side, t.snap5);
    if t.candle.Some? {
      CounterCandleIff(p.plan.side, t.candle.value, t.volumeRatio);
      if p.plan.breakoutLevel.Some? {
        AgainstIff(p.plan.side, t.candle.value.close, p.plan.breakoutLevel.value);
      }
    }
    hide FiveMinuteBreak, BelowEma, StrongCounterCandle, AgainstCandle, ClosedAgainst, Ahead;
  }

  /** A retest is spared in its first bars. */
  predicate InGrace(cfg: Config, p: PositionState) {
    && p.plan.entryMode == Some(RetestConfirm)
    && 0 < cfg.stagnation.retestGrace && p.path.bars <= cfg.stagnation.retestGrace
  }

  /** A retest above minus half an R whose level alone is lost. */
  predicate Mild(p: PositionState, t: Tick, r: real) {
    p.plan.entryMode == Some(RetestConfirm) && r > -0.5
    && !BelowEma(p.plan.side, t.snap5) && !CounterCandle(p.plan.side, t)
  }

  /** A scout waits for a second broken candle, unless its level is lost twice running. */
  predicate Unconfirmed(p: PositionState, trk: Tracking, t: Tick) {
    var s := trk.scenario.scoutInvalid;
    && p.plan.entryMode == Some(PreBreakoutScout)
    && !(LevelLost(p, t) && LevelStreak(p, trk, t).count >= 2)
    && (if t.candle.Some? then Continued(s, t.candle.value) else s.count + 1) < 2
  }

  /** What the scenario asks of a position: while a countdown of n runs, to give it up in the
      last cycle unless it has recovered half an R; otherwise, when broken, to sell half
      of it once, with the exceptions above. */
  predicate ScenarioAsks(cfg: Config, p: PositionState, trk: Tracking, t: Tick, r: real, a: Option<Action>) {
    match trk.scenario.recovery
    case Some(n) => a == if r < 0.5 && n <= 1 then Some(Exit(p.book.qty, ScenarioInvalid)) else None
    case None =>
      if !Broken(p, trk, t) || trk.scenario.reduced then a == None
      else if InGrace(cfg, p) then a == Some(Delayed(RetestScenarioInvalidGrace))
      else if Mild(p, t, r) then
        a == if p.path.bars < cfg.stagnation.retestTightenAfter then Some(Delayed(RetestBreakLevelInvalidDelayed))
             else None
      else if Unconfirmed(p, trk, t) then a == Some(Delayed(ScoutScenarioInvalidConfirming))
      else
        && a.Some? && a.value.Reduce? && a.value.reason == ScenarioInvalid
        && a.value.qty + a.value.qty == p.book.qty
  }

  /** The scout's streak of broken evaluations after one more; a level lost twice ends it. */
  function ScoutStreak(p: PositionState, trk: Tracking, t: Tick): Streak {
    var s := trk.scenario.scoutInvalid;
    if p.plan.entryMode != Some(PreBreakoutScout) then s
    else if LevelLost(p, t) && LevelStreak(p, trk, t).count >= 2 then NO_STREAK
    else if t.candle.None? then Streak(None, s.count + 1)
    else if Continued(s, t.candle.value) == s.count then s
    else Streak(OpenTimeOf(t.candle.value), s.count + 1)
  }

  /** What the scenario remembers afterwards: the countdown runs down, ends with a recovery,
      and starts at three with the reduction and again whenever a position sold down before
      is found broken below half an R; a scout's streak starts over once nothing is broken. */
  predicate ScenarioRemembers(cfg: Config, p: PositionState, trk: Tracking, t: Tick, r: real, after: ScenarioTracking) {
    var before := trk.scenario;
    match before.recovery
    case Some(n) => after == before.(recovery := if r >= 0.5 || n <= 1 then None else Some(n - 1))
    case None =>
      && after.breakFails == LevelStreak(p, trk, t)
      && if !Broken(p, trk, t) then
           && after.recovery == None && after.reduced == before.reduced
           && after.scoutInvalid
              == if p.plan.entryMode == Some(PreBreakoutScout) then NO_STREAK else before.scoutInvalid
         else if before.reduced then
           && after.recovery == (if r < 0.5 then Some(3) else None) && after.reduced
           && after.scoutInvalid == before.scoutInvalid
         else if InGrace(cfg, p) || Mild(p, t, r) then
           after.recovery == None && !after.reduced && after.scoutInvalid == before.scoutInvalid
         else
           && after.scoutInvalid == ScoutStreak(p, trk, t)
           && if Unconfirmed(p, trk, t) then after.recovery == None && !after.reduced
              else after.recovery == Some(3) && after.reduced
  }

  lemma MildIff(p: PositionState, t: Tick, r: real)
    ensures MildRetestInvalid(p, t, r) <==> Mild(p, t, r)
  {
    FiveMinuteIff(p.plan.side, t.snap5);
    if t.candle.Some? {
      CounterCandleIff(p.plan.side, t.candle.value, t.volumeRatio);
    }
    hide FiveMinuteBreak, BelowEma, StrongCounterCandle, AgainstCandle;
  }

  lemma UnconfirmedIff(p: PositionState, trk: Tracking, t: Tick)
    ensures var after := trk.(scenario := trk.scenario.(breakFails := LevelStreak(p, trk, t)));
            var (trk1, confirmed) := ScoutInvalidConfirmed(p, after, t.candle);
            && (confirmed <==> !Unconfirmed(p, trk, t))
            && trk1 == after.(scenario := after.scenario.(scoutInvalid := ScoutStreak(p, trk, t)))
  {
    if t.candle.Some? && p.plan.breakoutLevel.Some? {
      AgainstIff(p.plan.side, t.candle.value.close, p.plan.breakoutLevel.value);
    }
    hide ClosedAgainst, Ahead, LevelStreak;
  }

  /** One evaluation of the scenario: what it asks for and what it remembers. */
  lemma ScenarioLaw(cfg: Config, l: Life, t: Tick, r: real)
    ensures var (l1, a) := ScenarioStep(cfg, l, t, r);
            && ScenarioAsks(cfg, l.pos, l.trk, t, r, a)
            && ScenarioRemembers(cfg, l.pos, l.trk, t, r, l1.trk.scenario)
  {
    ScenarioTestLaw(l.pos, l.trk, t, true);
    MildIff(l.pos, t, r);
    UnconfirmedIff(l.pos, l.trk, t);
    hide IsScenarioInvalid, MildRetestInvalid, ScoutInvalidConfirmed, Mild, Unconfirmed, BelowEma, LevelBroken,
         CounterCandle, LevelStreak, ScoutStreak;
  }

  // ---- stagnation ----

  /** What a rule against standing still does: give the position up, sell a share of it,
      tighten its stop, or only say so. */
  datatype Outcome = GiveUp | Thin(fraction: real) | Tighten | Say(notice: DelayReason)

  /** A rule applies from so many bars on below so much R at best. */
  datatype Rule = Rule(bars: int, progress: real, outcome: Outcome)

  predicate Applies(rule: Rule, bars: int, best: real) {
    bars >= rule.bars && best < rule.progress
  }

  /** The rules of an entry mode, first to last; a position sold down once is not again. */
  function RulesOf(c: StagnationConfig, mode: EntryMode, thinned: bool): seq<Rule> {
    match mode
    case PreBreakoutScout =>
      [Rule(c.scoutMaxBars, c.scoutMinProgress, GiveUp), Rule(8, 0.5, Say(ScoutStagnationDelayed))]
    case BreakoutConfirm =>
      if thinned then [Rule(c.breakoutMaxBars, 1.0, GiveUp), Rule(10, 1.0, Say(BreakoutExitDelayed))]
      else
        [Rule(c.breakoutMaxBars, 1.0, GiveUp), Rule(c.breakoutReduceAfter, 0.5, Thin(c.breakoutReduceFraction)),
         Rule(10, 1.0, Say(BreakoutExitDelayed)), Rule(5, 0.5, Say(BreakoutReduceDelayed))]
    case RetestConfirm =>
      [Rule(c.retestMaxBars, 1.0, GiveUp), Rule(c.retestTightenAfter, 0.5, Tighten),
       Rule(12, 1.0, Say(RetestExitDelayed)), Rule(6, 0.5, Say(RetestTightenDelayed))]
  }

  /** The first rule that applies. */
  function FirstOf(rules: seq<Rule>, bars: int, best: real): Option<Outcome> {
    if rules == [] then None
    else if Applies(rules[0], bars, best) then Some(rules[0].outcome)
    else FirstOf(rules[1..], bars, best)
  }

  function Verdict(cfg: Config, p: PositionState, trk: Tracking, best: real): Option<Outcome> {
    if !cfg.stagnation.enabled || p.plan.entryMode.None? then None
    else FirstOf(RulesOf(cfg.stagnation, p.plan.entryMode.value, trk.stagReduced), p.path.bars, best)
  }

  /** The action an outcome leads to: a notice is given once, and a tightened stop lies half
      way between the stop (or the entry without one) and the entry. */
  predicate Carries(p: PositionState, trk: Tracking, o: Option<Outcome>, a: Option<Action>) {
    match o
    case None => a == None
    case Some(GiveUp) => a == Some(Exit(p.book.qty, Stagnation))
    case Some(Thin(fraction)) =>
      a.Some? && a.value.Reduce? && a.value.reason == Stagnation && a.value.qty == p.book.qty * fraction
    case Some(Tighten) =>
      && a.Some? && a.value.TrailUpdate?
      && var stop := if p.trail.stop.Some? && p.trail.stop.value != 0.0 then p.trail.stop.value else p.plan.entry;
         a.value.newStop - stop == p.plan.entry - a.value.newStop
    case Some(Say(d)) => a == if d in trk.delaysEmitted then None else Some(Delayed(DelayWhy(d)))
  }

  /** What the outcome leaves in the tracking. */
  function Noted(trk: Tracking, o: Option<Outcome>): Tracking {
    match o
    case Some(Thin(_)) => trk.(stagReduced := true)
    case Some(Say(d)) => trk.(delaysEmitted := trk.delaysEmitted + {d})
    case _ => trk
  }

  lemma FirstOfPair(a: Rule, b: Rule, rest: seq<Rule>, bars: int, best: real)
    ensures FirstOf([a, b] + rest, bars, best)
            == if Applies(a, bars, best) then Some(a.outcome)
               else if Applies(b, bars, best) then Some(b.outcome) else FirstOf(rest, bars, best)
  {
    var rules := [a, b] + rest;
    assert rules[1..] == [b] + rest && rules[1..][1..] == rest;
    assert FirstOf(rules[1..], bars, best)
        == if Applies(b, bars, best) then Some(b.outcome) else FirstOf(rest, bars, best);
  }

  lemma RulesSplit(c: StagnationConfig, mode: EntryMode, thinned: bool, bars: int, best: real)
    ensures var rules := RulesOf(c, mode, thinned);
            && |rules| >= 2
            && FirstOf(rules, bars, best)
               == if Applies(rules[0], bars, best) then Some(rules[0].outcome)
                  else if Applies(rules[1], bars, best) then Some(rules[1].outcome)
                  else if |rules| > 2 && Applies(rules[2], bars, best) then Some(rules[2].outcome)
                  else if |rules| > 3 && Applies(rules[3], bars, best) then Some(rules[3].outcome)
                  else None
  {
    var rules := RulesOf(c, mode, thinned);
    var rest := rules[2..];
    assert rules == [rules[0], rules[1]] + rest;
    FirstOfPair(rules[0], rules[1], rest, bars, best);
    if rest != [] {
      assert rest == [rules[2], rules[3]] + [];
      FirstOfPair(rules[2], rules[3], [], bars, best);
    }
  }

  /** A position that stands still gets the first rule of its mode that applies. */
  lemma StagnationLaw(cfg: Config, l: Life, best: real)
    ensures var (l1, a) := StagnationStep(cfg, l, best);
            var o := Verdict(cfg, l.pos, l.trk, best);
            && Carries(l.pos, l.trk, o, a)
            && l1.trk == Noted(l.trk, o)
            && l1.pos == if o == Some(GiveUp) then l.pos.(status := Closing, exitReason := Some(Stagnation)) else l.pos
  {
    if cfg.stagnation.enabled && l.pos.plan.entryMode.Some? {
      RulesSplit(cfg.stagnation, l.pos.plan.entryMode.value, l.trk.stagReduced, l.pos.path.bars, best);
      hide FirstOf;
    }
  }

  // ---- one evaluation ----

  /** The actions move the stop at most. */
  predicate MovesStopAtMost(actions: seq<Action>) {
    actions == [] || (|actions| == 1 && actions[0].TrailUpdate?)
  }

  /** The partial profit is due: not taken yet, and far enough ahead. */
  predicate ProfitDue(cfg: Config, p: PositionState, r: real) {
    !p.trail.partialTpDone && r >= cfg.partialR
  }

  predicate TakesProfit(cfg: Config, p: PositionState, actions: seq<Action>) {
    actions != [] && actions[|actions| - 1].PartialTp? && actions[|actions| - 1].qty == p.book.qty * cfg.partialFraction
  }

  /** What ordinary management decides, in this order: the partial profit, the trailing exit,
      what the scenario asks, what stagnation asks, and at most a move of the stop. */
  ghost predicate DecidedInOrder(cfg: Config, l: Life, t: Tick, r: real, actions: seq<Action>) {
    if ProfitDue(cfg, l.pos, r) then |actions| == 1 && TakesProfit(cfg, l.pos, actions)
    else if TrailingExit(actions) then actions == [Exit(l.pos.book.qty, TrailingStop)]
    else exists a, b ::
      && ScenarioAsks(cfg, l.pos, l.trk, t, r, a) && Carries(l.pos, l.trk, Verdict(cfg, l.pos, l.trk, l.trk.maxR), b)
      && if a.Some? then actions == [a.value] else if b.Some? then actions == [b.value] else MovesStopAtMost(actions)
  }

  lemma ScenarioKeepsStagnation(cfg: Config, l: Life, t: Tick, r: real)
    ensures var (l1, a) := ScenarioStep(cfg, l, t, r);
            && l1.trk == l.trk.(scenario := l1.trk.scenario)
            && (a.None? ==> l1.pos == l.pos)
  {
    hide BreakLevelConfirmed, FiveMinuteBreak, StrongCounterCandle, ClosedAgainst, MildRetestInvalid;
  }

  lemma RatchetMovesStop(cfg: Config, l: Life, t: Tick, best: real)
    requires !l.pos.runner.active
    ensures MovesStopAtMost(RatchetStep(cfg, l, t, best).1)
  {
    hide TrailStop, Ratchet;
  }

  lemma PlainInOrder(cfg: Config, l: Life, t: Tick, r: real)
    requires !l.pos.runner.active && !ProfitDue(cfg, l.pos, r)
    ensures DecidedInOrder(cfg, l, t, r, PlainGeneralStep(cfg, l, t, r, l.trk.maxR).1)
  {
    var best := l.trk.maxR;
    var (l1, a) := ScenarioStep(cfg, l, t, r);
    ScenarioLaw(cfg, l, t, r);
    ScenarioKeepsStagnation(cfg, l, t, r);
    var b := StagnationStep(cfg, l, best).1;
    StagnationLaw(cfg, l, best);
    StagnationLaw(cfg, l1, best);
    PlainNeverTrails(cfg, l, t, r, best);
    if a.None? {
      SameStagnation(cfg, l, l1, best);
      RatchetMovesStop(cfg, StagnationStep(cfg, l1, best).0, t, best);
    }
    hide ScenarioStep, StagnationStep, RatchetStep, ScenarioAsks, Carries, Verdict, Noted;
  }

  /** Stagnation does not look at the scenario's tracking. */
  lemma SameStagnation(cfg: Config, l: Life, l1: Life, best: real)
    requires l1.pos == l.pos && l1.trk == l.trk.(scenario := l1.trk.scenario)
    ensures StagnationStep(cfg, l1, best).1 == StagnationStep(cfg, l, best).1
    ensures StagnationStep(cfg, l1, best).1.None? ==> StagnationStep(cfg, l1, best).0.pos == l1.pos
  {
    hide TightenStop, Portion;
  }

  /** Starting to trail changes none of the decisions but the trailing exit. */
  lemma StartKeepsOrder(cfg: Config, l: Life, t: Tick, r: real, actions: seq<Action>)
    requires DecidedInOrder(cfg, StartTrailing(l), t, r, actions)
    ensures DecidedInOrder(cfg, l, t, r, actions)
  {
    var l1 := StartTrailing(l);
    if !ProfitDue(cfg, l.pos, r) && !TrailingExit(actions) {
      var a, b :| && ScenarioAsks(cfg, l1.pos, l1.trk, t, r, a)
                  && Carries(l1.pos, l1.trk, Verdict(cfg, l1.pos, l1.trk, l1.trk.maxR), b)
                  && if a.Some? then actions == [a.value]
                     else if b.Some? then actions == [b.value] else MovesStopAtMost(actions);
      SameAsks(cfg, l, t, r, a);
      SameCarries(cfg, l, b);
    }
  }

  lemma SameAsks(cfg: Config, l: Life, t: Tick, r: real, a: Option<Action>)
    ensures ScenarioAsks(cfg, StartTrailing(l).pos, l.trk, t, r, a) <==> ScenarioAsks(cfg, l.pos, l.trk, t, r, a)
  {
    hide BelowEma, CounterCandle;
  }

  lemma SameCarries(cfg: Config, l: Life, b: Option<Action>)
    ensures var p := StartTrailing(l).pos;
            Carries(p, l.trk, Verdict(cfg, p, l.trk, l.trk.maxR), b)
            <==> Carries(l.pos, l.trk, Verdict(cfg, l.pos, l.trk, l.trk.maxR), b)
  {
    hide FirstOf;
  }

  lemma GeneralInOrder(cfg: Config, l: Life, t: Tick, r: real)
    requires !l.pos.runner.active
    ensures DecidedInOrder(cfg, l, t, r, GeneralStep(cfg, l, t, r, l.trk.maxR).1)
  {
    var best := l.trk.maxR;
    var l1 := if best >= cfg.trailingStartR then StartTrailing(l) else l;
    if !ProfitDue(cfg, l.pos, r) {
      PlainInOrder(cfg, l1, t, r);
      var actions := PlainGeneralStep(cfg, l1, t, r, best).1;
      if best >= cfg.trailingStartR {
        StartKeepsOrder(cfg, l, t, r, actions);
      }
    }
    hide PlainGeneralStep, TrailStop, EffectiveStop, StopBreached, ScenarioAsks, Carries, Verdict;
  }

  /** An evaluation of a position under ordinary management decides in that order. */
  lemma PlainDecision(cfg: Config, l: Life, t: Tick)
    requires Managed(l.pos) && !OnProbation(cfg, l.pos) && !l.pos.runner.active
    requires !HeldTooLong(cfg, Observe(l, t).pos, t.now)
    ensures var l0 := Observe(l, t);
            DecidedInOrder(cfg, l0, t, RMultiple(l0.pos, t.price), Evaluate(cfg, l, t).1)
  {
    var l0 := Observe(l, t);
    assert l0.pos.runner == l.pos.runner;
    GeneralEvaluation(cfg, l, t);
    assert RunnerState(cfg, l0, t, l0.trk.maxR) == (l0, []);
    hide Observe, Evaluate, RMultiple, HeldTooLong, OnProbation, GeneralStep, DecidedInOrder, RunnerState;
    GeneralInOrder(cfg, l0, t, RMultiple(l0.pos, t.price));
    var actions := GeneralStep(cfg, l0, t, RMultiple(l0.pos, t.price), l0.trk.maxR).1;
    assert [] + actions == actions;
  }
}
