/** The rules of a scout on probation, stated on prices and bars: what confirms it, what puts
    it under warning and out of it, what sells it down, and in which order. */
module ScoutRules {
  import opened Common
  import opened Market
  import opened PositionModel
  import opened Management
  import opened ScoutAutomaton
  import opened MarketTests
  import opened GeneralRules

  // ---- the tests ----

  /** A close beyond the box by the boundary, on volume, near the winning end of its candle. */
  predicate Confirms(cfg: Config, p: PositionState, t: Tick, k: Candle) {
    var edge := match p.plan.side
      case Long => p.plan.boxHigh
      case Short => p.plan.boxLow;
    && Heavy(t.volumeRatio, cfg.scout.confirmVolume) && Range(k) > 0.0 && edge.Some?
    && Ahead(p.plan.side, k.close, edge.value) > t.atr * cfg.scout.boundaryAtr
    && FromWinningEnd(p.plan.side, k) <= 0.35 * Range(k)
  }

  /** A close back at the entry, at the EMA or in the better half of its candle. */
  predicate Recovers(p: PositionState, k: Candle, snap1: Option<Snapshot>) {
    var side := p.plan.side;
    && Range(k) > 0.0
    && (|| Ahead(side, k.close, p.plan.entry) >= 0.0
        || (snap1.Some? && snap1.value.ema20.Some? && Ahead(side, k.close, snap1.value.ema20.value) >= 0.0)
        || FromLosingEnd(side, k) >= 0.50 * Range(k))
  }

  predicate OppositeCandle(cfg: Config, p: PositionState, t: Tick, k: Candle) {
    AgainstCandle(p.plan.side, k, t.volumeRatio, cfg.scout.strongBody, cfg.scout.strongVolume, 0.25)
  }

  /** The close is back inside the box, beyond its middle. */
  predicate BackInside(cfg: Config, p: PositionState, k: Candle) {
    cfg.scout.invalidateOnMid && p.plan.boxMid.Some? && Ahead(p.plan.side, k.close, p.plan.boxMid.value) < 0.0
  }

  /** Closes beyond the EMA, counted over evaluations that look at them. */
  function Reclaims(l: Life, t: Tick, k: Candle): int {
    var n := l.trk.emaReclaims;
    if t.snap1.None? || t.snap1.value.ema20.None? then n
    else if Ahead(l.pos.plan.side, k.close, t.snap1.value.ema20.value) < 0.0 then n + 1 else 0
  }

  predicate EmaReclaimed(cfg: Config, l: Life, t: Tick, k: Candle) {
    && t.snap1.Some? && t.snap1.value.ema20.Some?
    && Ahead(l.pos.plan.side, k.close, t.snap1.value.ema20.value) < 0.0
    && l.trk.emaReclaims + 1 >= cfg.scout.emaReclaimBars
  }

  /** The RSI is on the wrong side of its bound or on it. */
  predicate RsiWeak(cfg: Config, side: Side, snap1: Option<Snapshot>) {
    snap1.Some? && snap1.value.rsi14.Some?
    && match side
       case Long => snap1.value.rsi14.value <= cfg.scout.longInvalidRsi
       case Short => snap1.value.rsi14.value >= cfg.scout.shortInvalidRsi
  }

  predicate Weakened(cfg: Config, l: Life, t: Tick, k: Candle) {
    || BackInside(cfg, l.pos, k) || EmaReclaimed(cfg, l, t, k)
    || RsiWeak(cfg, l.pos.plan.side, t.snap1) || OppositeCandle(cfg, l.pos, t, k)
  }

  /** Bars since the scout's entry, and since its warning. */
  function Held(p: PositionState): int {
    if p.plan.scoutEntryBar.None? then p.path.bars
    else if p.path.bars < p.plan.scoutEntryBar.value then 0 else p.path.bars - p.plan.scoutEntryBar.value
  }

  function Warned(p: PositionState): int {
    if p.scout.warningBar.None? || Held(p) < p.scout.warningBar.value then 0
    else Held(p) - p.scout.warningBar.value
  }

  /** The scout may still be sold down. */
  predicate MaySell(cfg: Config, p: PositionState) {
    p.scout.reductions < cfg.scout.maxReductions
  }

  lemma ConfirmsIff(cfg: Config, p: PositionState, t: Tick, k: Candle)
    ensures ScoutIsConfirmed(cfg, p, t, k) <==> Confirms(cfg, p, t, k)
  {
    if Range(k) > 0.0 {
      CandleShares(k, 0.0, 0.35);
      hide MetricsOf;
    }
  }

  lemma RecoversIff(p: PositionState, k: Candle, snap1: Option<Snapshot>)
    ensures ScoutRecovered(p, k, snap1) <==> Recovers(p, k, snap1)
  {
    if Range(k) > 0.0 {
      ShareAtLeast(k.close - k.low, Range(k), 0.50);
      hide Share;
    }
  }

  lemma WeakenedLaw(cfg: Config, l: Life, t: Tick, k: Candle)
    ensures var (trk, why) := ScoutWeakness(cfg, l, t, k);
            && (why.Some? <==> Weakened(cfg, l, t, k))
            && trk == l.trk.(emaReclaims := if BackInside(cfg, l.pos, k) then l.trk.emaReclaims else Reclaims(l, t, k))
  {
    StrongOppositeIff(cfg, l.pos.plan.side, k, t.volumeRatio);
    if t.snap1.Some? && t.snap1.value.ema20.Some? {
      AgainstIff(l.pos.plan.side, k.close, t.snap1.value.ema20.value);
    }
    hide ScoutStrongOpposite, AgainstCandle, ClosedAgainst;
  }

  // ---- what follows ----

  /** The scout is sold down by its fraction, for `reason`, and is pending again. */
  predicate SoldDown(cfg: Config, l: Life, reason: ExitReason, l1: Life, actions: seq<Action>) {
    && |actions| == 1 && actions[0].Reduce? && actions[0].reason == reason
    && actions[0].qty == l.pos.book.qty * cfg.scout.reduceFraction
    && l1.pos == l.pos.(scout := Scout(ScoutPending, None, None, l.pos.scout.reductions + 1))
  }

  predicate OneNotice(actions: seq<Action>, event: EventType) {
    |actions| == 1 && actions[0].Event? && actions[0].event == event
  }

  /** A pending scout: a warning starts at an opposite candle; after the grace bars any
      weakness sells it down; and otherwise it may stagnate. Nothing is sold, and no
      warning starts, once the reductions are used up. */
  ghost predicate PendingDecides(cfg: Config, l: Life, t: Tick, k: Candle, maxR: real, l1: Life, actions: seq<Action>) {
    var p := l.pos;
    if OppositeCandle(cfg, p, t, k) && MaySell(cfg, p) then
      && OneNotice(actions, ScoutWarningStartedEvent)
      && l1.pos.scout.state == ScoutWarning && l1.pos.scout.warningBar == Some(Held(p))
      && l1.pos.scout.reductions == p.scout.reductions
    else if Held(p) >= cfg.scout.graceBars && Weakened(cfg, l, t, k) && MaySell(cfg, p) then
      SoldDown(cfg, l, ScoutDefensiveReduce, l1, actions)
    else exists a ::
      && Carries(p, l.trk, Verdict(cfg, p, l.trk, maxR), a) && l1.pos.scout == p.scout
      && if a.None? then actions == []
         else if a.value.Event? then actions == [a.value]
         else |actions| == 2 && actions[0].Event? && actions[0].event == ScoutInvalidatedEvent && actions[1] == a.value
  }

  /** A scout on probation that is not confirmed: a catastrophic candle sells it down at once;
      a warned one recovers, or waits for its warning and holding bars and is then sold
      down; what is left is decided as for a pending one. */
  ghost predicate WatchDecides(cfg: Config, l: Life, t: Tick, k: Candle, maxR: real, l1: Life, actions: seq<Action>) {
    var p := l.pos;
    if Catastrophic(cfg, p.plan.side, k, t.volumeRatio, t.atr) && MaySell(cfg, p) then
      SoldDown(cfg, l, ScoutCatastrophicReduce, l1, actions)
    else if p.scout.state != ScoutWarning then PendingDecides(cfg, l, t, k, maxR, l1, actions)
    else if Recovers(p, k, t.snap1) then
      && OneNotice(actions, ScoutWarningRecoveredEvent)
      && l1.pos == p.(scout := Scout(ScoutPending, None, None, p.scout.reductions))
    else if Warned(p) < cfg.scout.warningConfirmBars || Held(p) < cfg.scout.minHoldBars then l1 == l && actions == []
    else if MaySell(cfg, p) then SoldDown(cfg, l, ScoutDefensiveReduce, l1, actions)
    else
      PendingDecides(cfg, l.(pos := p.(scout := Scout(ScoutPending, None, None, p.scout.reductions))), t, k, maxR, l1,
                     actions)
  }

  lemma PendingLaw(cfg: Config, l: Life, t: Tick, k: Candle, maxR: real)
    ensures var (l1, actions) := ScoutPendingStep(cfg, l, t, k, maxR);
            PendingDecides(cfg, l, t, k, maxR, l1, actions)
  {
    StrongOppositeIff(cfg, l.pos.plan.side, k, t.volumeRatio);
    WeakenedLaw(cfg, l, t, k);
    var l1 := Life(l.pos, WeaknessAfterGrace(cfg, l, t, k).0);
    assert l1.trk == l.trk.(emaReclaims := l1.trk.emaReclaims);
    StagnationLaw(cfg, l1, maxR);
    var a := StagnationStep(cfg, l1, maxR).1;
    SameVerdict(cfg, l, l1, maxR, a);
    hide ScoutStrongOpposite, AgainstCandle, ScoutWeakness, Weakened, StagnationStep, Carries, Verdict, Noted;
  }

  lemma SameVerdict(cfg: Config, l: Life, l1: Life, maxR: real, a: Option<Action>)
    requires l1.pos == l.pos && l1.trk == l.trk.(emaReclaims := l1.trk.emaReclaims)
    ensures Carries(l1.pos, l1.trk, Verdict(cfg, l1.pos, l1.trk, maxR), a)
            <==> Carries(l.pos, l.trk, Verdict(cfg, l.pos, l.trk, maxR), a)
  {
    hide FirstOf;
  }

  lemma WatchLaw(cfg: Config, l: Life, t: Tick, k: Candle, maxR: real)
    ensures var (l1, actions) := ScoutWatch(cfg, l, t, k, maxR);
            WatchDecides(cfg, l, t, k, maxR, l1, actions)
  {
    CatastrophicIff(cfg, l.pos.plan.side, k, t.volumeRatio, t.atr);
    RecoversIff(l.pos, k, t.snap1);
    PendingLaw(cfg, l, t, k, maxR);
    PendingLaw(cfg, l.(pos := SetScout(ClearWarning(l.pos), ScoutPending)), t, k, maxR);
    hide ScoutCatastrophic, Catastrophic, ScoutRecovered, Recovers, ScoutPendingStep, PendingDecides;
  }

  /** The probation of a scout. Without a candle or an ATR nothing happens. A confirmed scout,
      or one whose candle confirms it, becomes an active trend when conversion is on, and
      rests as confirmed when it is not; everything else is decided by watching it. */
  ghost predicate ProbationDecides(cfg: Config, l: Life, t: Tick, maxR: real, l1: Life, actions: seq<Action>,
                                   general: bool)
  {
    var p := l.pos;
    var confirmed := if cfg.scout.convertOnConfirmation then ActiveTrend else ScoutConfirmed;
    if t.candle.None? || t.atr <= 0.0 then l1 == l && actions == [] && !general
    else if p.scout.state == ScoutConfirmed then
      if cfg.scout.convertOnConfirmation then
        && l1 == l.(pos := p.(scout := p.scout.(state := ActiveTrend)))
        && OneNotice(actions, ScoutActivatedEvent) && general
      else l1 == l && actions == [] && !general
    else if Confirms(cfg, p, t, t.candle.value) then
      && l1 == l.(pos := p.(scout := Scout(confirmed, None, None, p.scout.reductions)))
      && (general <==> cfg.scout.convertOnConfirmation)
      && actions == [Event(ScoutConfirmedEvent, None)]
                    + if cfg.scout.convertOnConfirmation then [Event(ScoutActivatedEvent, None)] else []
    else WatchDecides(cfg, l, t, t.candle.value, maxR, l1, actions) && !general
  }

  lemma ProbationLaw(cfg: Config, l: Life, t: Tick, maxR: real)
    requires OnProbation(cfg, l.pos)
    ensures var (l1, actions, general) := ScoutStep(cfg, l, t, maxR);
            ProbationDecides(cfg, l, t, maxR, l1, actions, general)
  {
    if t.candle.Some? {
      ConfirmsIff(cfg, l.pos, t, t.candle.value);
      WatchLaw(cfg, l, t, t.candle.value, maxR);
    }
    hide ScoutIsConfirmed, Confirms, ScoutWatch, WatchDecides;
  }

  /** An evaluation of a scout on probation is that decision on what was observed, unless the
      holding limit comes first; ordinary management follows only its conversion. */
  lemma ProbationDecision(cfg: Config, l: Life, t: Tick)
    requires Managed(l.pos) && OnProbation(cfg, l.pos) && !HeldTooLong(cfg, Observe(l, t).pos, t.now)
    ensures var l0 := Observe(l, t);
            exists l1, actions, general ::
              && ProbationDecides(cfg, l0, t, l0.trk.maxR, l1, actions, general)
              && (!general ==> Evaluate(cfg, l, t) == (l1, actions))
  {
    var l0 := Observe(l, t);
    assert OnProbation(cfg, l0.pos);
    ProbationLaw(cfg, l0, t, l0.trk.maxR);
    hide Observe, ScoutStep, ProbationDecides, HeldTooLong, RunnerState, GeneralStep, RMultiple;
    var (l1, actions, general) := ScoutStep(cfg, l0, t, l0.trk.maxR);
    assert !general ==> Evaluate(cfg, l, t) == (l1, actions);
  }
}
