/** The mirror theorem over whole runs of management. */
module MirrorRuns {
  import opened Common
  import opened Market
  import opened PositionModel
  import opened Management
  import opened Trading
  import opened Lifecycle
  import opened Requests
  import opened Exits
  import opened Mirror
  import IE = IndicatorEngine
  import IR = IndicatorReflection

  predicate InsideStep(c: real, s: Step) {
    s.ManageStep? ==> InsideTick(c, s.cycle.tick)
  }

  predicate InsideSteps(c: real, steps: seq<Step>) {
    forall i :: 0 <= i < |steps| ==> InsideStep(c, steps[i])
  }

  predicate WithAtr(steps: seq<Step>) {
    forall i :: 0 <= i < |steps| ==> (steps[i].ManageStep? ==> steps[i].cycle.tick.atr >= 0.0)
  }

  /** No step finds the stop exactly on zero or on its reflection. */
  predicate EdgeFree(c: real, cfg: Config, l: Life, steps: seq<Step>)
    decreases |steps|
  {
    steps != [] ==> ClearStops(c, l.pos) && EdgeFree(c, cfg, Next(cfg, l, steps[0]).0, steps[1..])
  }

  // ---- extremes stay inside ----

  lemma EvaluateInsidePath(c: real, cfg: Config, l: Life, t: Tick)
    requires Managed(l.pos) && InsidePath(c, l.pos) && InsideTick(c, t)
    ensures InsidePath(c, Evaluate(cfg, l, t).0.pos)
  {
    EvaluateFrame(cfg, l, t);
    EvaluateAsks(cfg, l, t);
    hide Evaluate;
  }

  lemma ApplyInsidePath(c: real, cfg: Config, l: Life, a: Action, s: Cycle)
    requires InsidePath(c, l.pos) && InsideTick(c, s.tick)
    ensures InsidePath(c, ApplyAction(cfg, l, a, s).0.pos)
  {
    hide TrendStrength, TrailStop, RunnerUpdateAllowed, RMultiple;
  }

  // ---- a partial profit leaves the stop alone ----

  predicate EndsInPartial(actions: seq<Action>) {
    actions != [] && actions[|actions| - 1].PartialTp?
  }

  predicate SameStops(p: PositionState, p1: PositionState) {
    p1.trail.stop == p.trail.stop && p1.runner.lastStop == p.runner.lastStop
  }

  lemma PlainNoPartial(cfg: Config, l: Life, t: Tick, r: real, maxR: real)
    ensures !EndsInPartial(PlainGeneralStep(cfg, l, t, r, maxR).1)
    ensures !EndsInPartial(RunnerGeneralStep(cfg, l, t, maxR).1)
  {
    hide IsScenarioInvalid, RatchetStop, TightenStop, ScoutInvalidConfirmed, MildRetestInvalid;
  }

  lemma GeneralPartial(cfg: Config, l: Life, t: Tick, r: real, maxR: real)
    ensures var (l1, actions) := GeneralStep(cfg, l, t, r, maxR);
            EndsInPartial(actions) ==> SameStops(l.pos, l1.pos)
  {
    PlainNoPartial(cfg, if maxR >= cfg.trailingStartR then StartTrailing(l) else l, t, r, maxR);
    hide PlainGeneralStep, RunnerGeneralStep, TrailStop, EffectiveStop, StopBreached;
  }

  lemma RunnerStateKeepsStops(cfg: Config, l: Life, t: Tick, maxR: real)
    ensures var (l1, events) := RunnerState(cfg, l, t, maxR);
            SameStops(l.pos, l1.pos) && !EndsInPartial(events)
  {
    hide TrendStrength, WeakDowngradePending;
  }

  lemma EvaluatePartial(cfg: Config, l: Life, t: Tick)
    ensures var (l1, actions) := Evaluate(cfg, l, t);
            EndsInPartial(actions) ==> SameStops(l.pos, l1.pos)
  {
    if Managed(l.pos) {
      var l0 := Observe(l, t);
      assert SameStops(l.pos, l0.pos);
      hide Observe, ScoutStep, RunnerState, GeneralStep, RMultiple, HeldTooLong;
      ScoutStepFrame(cfg, l0, t, l0.trk.maxR);
      var (l1, prefix, general) := ScoutStep(cfg, l0, t, l0.trk.maxR);
      RunnerStateKeepsStops(cfg, l1, t, l0.trk.maxR);
      var (l2, events) := RunnerState(cfg, l1, t, l0.trk.maxR);
      var r := RMultiple(l0.pos, t.price);
      GeneralPartial(cfg, l2, t, r, l0.trk.maxR);
      var actions := GeneralStep(cfg, l2, t, r, l0.trk.maxR).1;
      LastAction(prefix, events, actions);
    }
  }

  lemma LastAction(a: seq<Action>, b: seq<Action>, c: seq<Action>)
    ensures EndsInPartial(a + b + c) ==> EndsInPartial(a) || EndsInPartial(b) || EndsInPartial(c)
  {
    if c != [] {
      assert (a + b + c)[|a + b + c| - 1] == c[|c| - 1];
    } else if b != [] {
      assert a + b + c == a + b && (a + b)[|a + b| - 1] == b[|b| - 1];
    } else {
      assert a + b + c == a;
    }
  }

  // ---- runs ----

  lemma EvaluatedMirror(c: real, cfg: Config, l: Life, s: Cycle, s2: Cycle)
    requires Symmetric(cfg) && CycleReflects(c, s, s2)
    requires Managed(l.pos) && InsideLife(c, l) && InsideTick(c, s.tick)
    ensures var (l1, actions) := EvaluateAndApply(cfg, l, s);
            && EvaluateAndApply(cfg, MirrorLife(c, l), s2)
               == (MirrorLife(c, l1), MirrorActions(c, actions))
            && InsidePath(c, l1.pos)
  {
    hide Evaluate, ApplyAction, MirrorActions;
    var (l1, actions) := Evaluate(cfg, l, s.tick);
    EvaluateMirror(c, cfg, l, s.tick, s2.tick);
    EvaluateInsidePath(c, cfg, l, s.tick);
    EvaluateShape(cfg, l, s.tick);
    EvaluateShape(cfg, MirrorLife(c, l), s2.tick);
    ApplyLast(cfg, l1, actions, s);
    ApplyLast(cfg, MirrorLife(c, l1), MirrorActions(c, actions), s2);
    MirrorShort(c, TrailUpdate(0.0), TrailUpdate(0.0));
    var extra := ApplyActions(cfg, l1, actions, s).1;
    MirrorConcat(c, actions, extra);
    if actions != [] {
      EvaluatePartial(cfg, l, s.tick);
      ApplyMirror(c, cfg, l1, actions[|actions| - 1], s, s2);
      ApplyInsidePath(c, cfg, l1, actions[|actions| - 1], s);
    }
  }

  lemma NextMirror(c: real, cfg: Config, l: Life, s: Step, s2: Step)
    requires Symmetric(cfg) && StepReflects(c, s, s2)
    requires InsideLife(c, l) && InsideStep(c, s)
    ensures var (l1, actions) := Next(cfg, l, s);
            && Next(cfg, MirrorLife(c, l), s2) == (MirrorLife(c, l1), MirrorActions(c, actions))
            && InsidePath(c, l1.pos)
  {
    hide ApplyClose, EvaluateAndApply, MirrorActions, MirrorOutcome;
    MirrorShort(c, FundingReduce(Portion(l.pos.book.qty, 0.5)), TrailUpdate(0.0));
    match s
    case CommandStep(a) =>
      var full := CommandQty(l.pos, a) >= l.pos.book.qty;
      CloseMirror(c, l.pos, a.outcome, a.reason, full, a.quote);
      ApplyCloseFrame(l.pos, a.outcome, a.reason, full, a.quote);
    case ManageStep(a) =>
      if Managed(l.pos) {
        CloseMirror(c, l.pos, a.fundingOutcome, FundingGuard, false, a.quote);
        ApplyCloseFrame(l.pos, a.fundingOutcome, FundingGuard, false, a.quote);
        var l0 := AfterFunding(l, a);
        if !(a.fundingReduce && l0.pos.book.qty <= 0.0) {
          FundingHeld(l, a);
          EvaluatedMirror(c, cfg, l0, a, s2.cycle);
          MirrorConcat(c, FundingActions(l, a), EvaluateAndApply(cfg, l0, a).1);
        }
      }
  }

  /** Managing a LONG through any market is managing a SHORT through the reflected
      one: the final positions are reflections of each other, with equal quantity,
      realized profit and fees, and the logs agree action by action. */
  lemma {:induction false} MirrorRun(c: real, cfg: Config, l: Life, s: seq<Step>, s2: seq<Step>)
    requires Symmetric(cfg) && StepsReflect(c, s, s2)
    requires InsidePath(c, l.pos) && InsideSteps(c, s) && EdgeFree(c, cfg, l, s)
    ensures Run(cfg, MirrorLife(c, l), s2) == MirrorLife(c, Run(cfg, l, s))
    ensures Log(cfg, MirrorLife(c, l), s2) == MirrorActions(c, Log(cfg, l, s))
    decreases |s|
  {
    if s != [] {
      var (l1, actions) := Next(cfg, l, s[0]);
      NextMirror(c, cfg, l, s[0], s2[0]);
      hide Next;
      MirrorRun(c, cfg, l1, s[1..], s2[1..]);
      MirrorConcat(c, actions, Log(cfg, l1, s[1..]));
    }
  }

  // ---- a stop in place never meets the edges ----

  lemma ApplyInside(c: real, cfg: Config, l: Life, a: Action, s: Cycle)
    requires MirrorInv(c, l) && InsideTick(c, s.tick) && s.tick.atr >= 0.0 && Distances(cfg)
    requires a.TrailUpdate? ==> Inside(c, a.newStop)
    ensures MirrorInv(c, ApplyAction(cfg, l, a, s).0)
  {
    hide ApplyClose, ActivateRunner;
    match a
    case Exit(_, reason) => ApplyCloseFrame(l.pos, s.outcome, reason, true, s.quote);
    case Reduce(_, reason, _) => ApplyCloseFrame(l.pos, s.outcome, reason, false, s.quote);
    case PartialTp(_) =>
      ApplyCloseFrame(l.pos, s.outcome, PartialTakeProfit, false, s.quote);
      var l1 := l.(pos := ApplyClose(l.pos, s.outcome, PartialTakeProfit, false, s.quote));
      ActivateInside(c, cfg, l1, s.tick);
    case TrailUpdate(_) =>
    case Event(_, _) =>
    case FundingReduce(_) =>
  }

  lemma EvaluatedInside(c: real, cfg: Config, l: Life, s: Cycle)
    requires MirrorInv(c, l) && InsideTick(c, s.tick) && s.tick.atr >= 0.0 && Distances(cfg)
    ensures MirrorInv(c, EvaluateAndApply(cfg, l, s).0)
  {
    hide Evaluate, ApplyAction, MirrorInv;
    var (l1, actions) := Evaluate(cfg, l, s.tick);
    EvaluateInside(c, cfg, l, s.tick);
    EvaluateShape(cfg, l, s.tick);
    ApplyLast(cfg, l1, actions, s);
    if actions != [] {
      LastStopInside(c, cfg, l, s.tick);
      ApplyInside(c, cfg, l1, actions[|actions| - 1], s);
    }
  }

  lemma NextInside(c: real, cfg: Config, l: Life, s: Step)
    requires MirrorInv(c, l) && InsideStep(c, s) && Distances(cfg)
    requires s.ManageStep? ==> s.cycle.tick.atr >= 0.0
    ensures MirrorInv(c, Next(cfg, l, s).0)
  {
    hide ApplyClose, EvaluateAndApply;
    match s
    case CommandStep(a) =>
      ApplyCloseFrame(l.pos, a.outcome, a.reason, CommandQty(l.pos, a) >= l.pos.book.qty, a.quote);
    case ManageStep(a) =>
      ApplyCloseFrame(l.pos, a.fundingOutcome, FundingGuard, false, a.quote);
      EvaluatedInside(c, cfg, AfterFunding(l, a), a);
  }

  /** Where the stop is set and lies inside, and trailing distances are not negative, every
      later stop lies inside too, so no step ever meets an edge. */
  lemma {:induction false} StopInPlaceIsEdgeFree(c: real, cfg: Config, l: Life, s: seq<Step>)
    requires MirrorInv(c, l) && InsideSteps(c, s) && Distances(cfg) && WithAtr(s)
    ensures EdgeFree(c, cfg, l, s)
    decreases |s|
  {
    if s != [] {
      NextInside(c, cfg, l, s[0]);
      hide Next;
      StopInPlaceIsEdgeFree(c, cfg, Next(cfg, l, s[0]).0, s[1..]);
    }
  }

  // ---- composition with the indicator engine ----

  /** What one bot cycle sees of the market: stored confirmed candles, the last
      traded price, the book, the clock, and the executor's answers. */
  datatype Observation = Observation(
    candles1: seq<Candle>, candles5: seq<Candle>, price: real, now: real, quote: Quote,
    fundingReduce: bool, fundingOutcome: CloseOutcome, outcome: CloseOutcome)

  /** The tick the bot builds from an observation. */
  function TickOf(s: IE.Settings, o: Observation): Tick
    requires s.Valid()
  {
    var snap1 := IE.SnapshotOf(s, o.candles1);
    Tick(o.price, snap1.atr14.GetOr(0.0),
         if o.candles1 == [] then None else Some(o.candles1[|o.candles1| - 1]),
         Some(snap1), Some(IE.SnapshotOf(s, o.candles5)), snap1.volumeRatio, o.now)
  }

  function StepOf(s: IE.Settings, o: Observation): Step
    requires s.Valid()
  {
    ManageStep(Cycle(TickOf(s, o), o.quote, o.fundingReduce, o.fundingOutcome, o.outcome))
  }

  function StepsOf(s: IE.Settings, market: seq<Observation>): seq<Step>
    requires s.Valid()
  {
    seq(|market|, i requires 0 <= i < |market| => StepOf(s, market[i]))
  }

  function MirrorObservation(c: real, o: Observation): Observation {
    o.(candles1 := IR.ReflectCandles(c, o.candles1), candles5 := IR.ReflectCandles(c, o.candles5),
       price := c - o.price, quote := MirrorQuote(c, o.quote),
       fundingOutcome := MirrorOutcome(c, o.fundingOutcome),
       outcome := MirrorOutcome(c, o.outcome))
  }

  function MirrorMarket(c: real, market: seq<Observation>): seq<Observation> {
    seq(|market|, i requires 0 <= i < |market| => MirrorObservation(c, market[i]))
  }

  /** Every traded price lies strictly between zero and c. */
  predicate InsideMarket(c: real, market: seq<Observation>) {
    forall i :: 0 <= i < |market| ==>
      && Inside(c, market[i].price)
      && forall j :: 0 <= j < |market[i].candles1| ==>
           Inside(c, market[i].candles1[j].high) && Inside(c, market[i].candles1[j].low)
  }

  lemma SnapshotsReflect(c: real, s: IE.Settings, candles: seq<Candle>)
    requires s.Valid()
    ensures var a, b := IE.SnapshotOf(s, candles), IE.SnapshotOf(s, IR.ReflectCandles(c, candles));
            && SnapshotReflects(c, Some(a), Some(b))
            && b.atr14 == a.atr14 && b.volumeRatio == a.volumeRatio
  {
    if candles == [] {
      assert IR.ReflectCandles(c, candles) == [];
    } else {
      IR.SnapshotReflect(c, s, candles);
    }
  }

  lemma StepOfReflects(c: real, s: IE.Settings, o: Observation)
    requires s.Valid()
    ensures StepReflects(c, StepOf(s, o), StepOf(s, MirrorObservation(c, o)))
  {
    hide IE.SnapshotOf;
    SnapshotsReflect(c, s, o.candles1);
    SnapshotsReflect(c, s, o.candles5);
  }

  /** The whole chain from candles to stops is symmetric: indicators computed on the
      reflected candles drive the reflected position through the reflected run. */
  lemma MirrorMarketRun(c: real, cfg: Config, s: IE.Settings, l: Life, market: seq<Observation>)
    requires s.Valid() && Symmetric(cfg) && InsidePath(c, l.pos) && InsideMarket(c, market)
    requires EdgeFree(c, cfg, l, StepsOf(s, market))
    ensures var run := Run(cfg, l, StepsOf(s, market));
            var log := Log(cfg, l, StepsOf(s, market));
            && Run(cfg, MirrorLife(c, l), StepsOf(s, MirrorMarket(c, market))) == MirrorLife(c, run)
            && Log(cfg, MirrorLife(c, l), StepsOf(s, MirrorMarket(c, market)))
               == MirrorActions(c, log)
  {
    var a, b := StepsOf(s, market), StepsOf(s, MirrorMarket(c, market));
    forall i | 0 <= i < |market|
      ensures StepReflects(c, a[i], b[i]) && InsideStep(c, a[i])
    {
      StepOfReflects(c, s, market[i]);
    }
    MirrorRun(c, cfg, l, a, b);
  }

  /** With a stop in place and non-negative distances a market run meets no edge: ATRs
      computed from candles are never negative. */
  lemma MarketIsEdgeFree(c: real, cfg: Config, s: IE.Settings, l: Life, market: seq<Observation>)
    requires s.Valid() && Distances(cfg) && MirrorInv(c, l) && InsideMarket(c, market)
    ensures EdgeFree(c, cfg, l, StepsOf(s, market))
  {
    var steps := StepsOf(s, market);
    forall i | 0 <= i < |market|
      ensures InsideStep(c, steps[i]) && steps[i].cycle.tick.atr >= 0.0
    {
      IE.AtrNonNegative(market[i].candles1, s.atrPeriod);
    }
    StopInPlaceIsEdgeFree(c, cfg, l, steps);
  }
}
