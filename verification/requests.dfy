/** What an evaluation asks for: management decides, but moves no money and leaves the
    status alone except for an exit, which comes last and asks for all that is held. */
module Requests {
  import opened Common
  import opened Market
  import opened PositionModel
  import opened Management
  import opened Lifecycle
  import opened Quantity

  /** Same plan, status and money: management may have changed everything else. */
  predicate SameMoney(p: PositionState, p1: PositionState) {
    p1.plan == p.plan && p1.status == p.status && p1.book == p.book
  }

  /** An evaluation leaves the money alone; it leaves the position ACTIVE, or asks
      for a full exit as its last action, whose reason it records. */
  ghost predicate Asks(p: PositionState, p1: PositionState, actions: seq<Action>) {
    && p1.plan == p.plan && p1.book == p.book
    && (p1.status == Active
        || (p1.status == Closing && actions != [] && actions[|actions| - 1].Exit?))
    && (actions != [] && actions[|actions| - 1].Exit? ==>
          && p1.status == Closing && p1.exitReason == Some(actions[|actions| - 1].reason)
          && RequestedQty(actions[|actions| - 1]) == p1.book.qty)
    && (p1.status == Active ==> p1.exitReason == p.exitReason)
  }

  lemma GeneralAsks(cfg: Config, l: Life, t: Tick, r: real, maxR: real)
    requires l.pos.status == Active
    ensures var (l1, actions) := GeneralStep(cfg, l, t, r, maxR);
            Asks(l.pos, l1.pos, actions)
  {
    hide ScenarioStep, StagnationStep, RatchetStop, IsScenarioInvalid, TrailStop;
    var l1 := if maxR >= cfg.trailingStartR then StartTrailing(l) else l;
    ScenarioAsks(cfg, l1, t, r);
    var l2 := ScenarioStep(cfg, l1, t, r).0;
    StagnationAsks(cfg, l2, maxR);
    RatchetKeepsMoney(cfg, l1.pos, t, maxR);
    RatchetKeepsMoney(cfg, StagnationStep(cfg, l2, maxR).0.pos, t, maxR);
  }

  ghost predicate AsksOption(p: PositionState, p1: PositionState, a: Option<Action>) {
    && p1.plan == p.plan && p1.book == p.book
    && (p.status == Active ==>
          p1.status == if a.Some? && a.value.Exit? then Closing else Active)
    && (a.Some? && a.value.Exit? ==> RequestedQty(a.value) == p1.book.qty && p1.exitReason == Some(a.value.reason))
    && (!(a.Some? && a.value.Exit?) ==> p1.exitReason == p.exitReason)
  }

  lemma ScenarioAsks(cfg: Config, l: Life, t: Tick, r: real)
    ensures var (l1, a) := ScenarioStep(cfg, l, t, r); AsksOption(l.pos, l1.pos, a)
  {
  }

  lemma StagnationAsks(cfg: Config, l: Life, maxR: real)
    ensures var (l1, a) := StagnationStep(cfg, l, maxR); AsksOption(l.pos, l1.pos, a)
  {
  }

  lemma RatchetKeepsMoney(cfg: Config, p: PositionState, t: Tick, maxR: real)
    ensures var p1 := RatchetStop(cfg, p, t, maxR).0; SameMoney(p, p1) && p1.exitReason == p.exitReason
  {
  }

  lemma ScoutAsks(cfg: Config, l: Life, t: Tick, maxR: real)
    requires l.pos.status == Active
    ensures var (l1, actions, general) := ScoutStep(cfg, l, t, maxR);
            Asks(l.pos, l1.pos, actions) && (general ==> l1.pos.status == Active)
  {
    hide ScoutWatch, ScoutIsConfirmed;
    if t.candle.Some? {
      WatchAsks(cfg, l, t, t.candle.value, maxR);
    }
  }

  lemma WatchAsks(cfg: Config, l: Life, t: Tick, k: Candle, maxR: real)
    requires l.pos.status == Active
    ensures var (l1, actions) := ScoutWatch(cfg, l, t, k, maxR); Asks(l.pos, l1.pos, actions)
  {
    hide ScoutPendingStep, ScoutCatastrophic, ScoutRecovered;
    PendingAsks(cfg, l, t, k, maxR);
    PendingAsks(cfg, l.(pos := SetScout(ClearWarning(l.pos), ScoutPending)), t, k, maxR);
  }

  lemma PendingAsks(cfg: Config, l: Life, t: Tick, k: Candle, maxR: real)
    requires l.pos.status == Active
    ensures var (l1, actions) := ScoutPendingStep(cfg, l, t, k, maxR);
            Asks(l.pos, l1.pos, actions)
  {
    hide ScoutStrongOpposite, ScoutWeakness, StagnationStep;
    var l1 := Life(l.pos, WeaknessAfterGrace(cfg, l, t, k).0);
    StagnationAsks(cfg, l1, maxR);
    var a := StagnationStep(cfg, l1, maxR).1;
    var (l2, actions) := ScoutPendingStep(cfg, l, t, k, maxR);
    assert a.Some? && !a.value.Exit? ==> StagnationStep(cfg, l1, maxR).0.pos.status == Active;
    assert l2.pos.plan == l.pos.plan && l2.pos.book == l.pos.book;
    assert l2.pos.status == Active
           || (l2.pos.status == Closing && actions != [] && actions[|actions| - 1].Exit?);
  }

  lemma EvaluateAsks(cfg: Config, l: Life, t: Tick)
    requires Managed(l.pos)
    ensures var (l1, actions) := Evaluate(cfg, l, t); Asks(l.pos, l1.pos, actions)
  {
    hide ScoutStep, GeneralStep, TrendStrength, WeakDowngradePending;
    var l0 := Observe(l, t);
    var (l1, prefix, general) := ScoutStep(cfg, l0, t, l0.trk.maxR);
    ScoutAsks(cfg, l0, t, l0.trk.maxR);
    ScoutShape(cfg, l0, t, l0.trk.maxR);
    if general {
      var (l2, events) := RunnerState(cfg, l1, t, l0.trk.maxR);
      assert AllEvents(events) && SameMoney(l1.pos, l2.pos) && l2.pos.exitReason == l1.pos.exitReason;
      GeneralAsks(cfg, l2, t, RMultiple(l0.pos, t.price), l0.trk.maxR);
    }
  }

  lemma ActivateKeepsMoney(cfg: Config, l: Life, t: Tick)
    ensures SameMoney(l.pos, ActivateRunner(cfg, l, t).0.pos)
  {
    hide TrendStrength, RatchetStop, RMultiple;
    var p := UpdateExtremes(l.pos, t.price, t.candle);
    var maxR := Max(l.trk.maxR, RMultiple(p, t.price));
    RatchetKeepsMoney(cfg, EnterRunner(cfg, Life(p, l.trk), t, maxR).0.pos, t, maxR);
  }
}
