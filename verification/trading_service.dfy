/** TradingService as it runs: the management cycle applies the manager's actions
    to the mutable position one by one, each close bracketed by an in-flight mark. */
module TradingService {
  import opened Common
  import opened PositionModel
  import opened Management
  import opened Trading
  import PM = PositionManager
  import RS = RuntimeState

  class TradingService {
    const manager: PM.PositionManager
    const state: RS.RuntimeState

    constructor (manager: PM.PositionManager, state: RS.RuntimeState)
      ensures this.manager == manager && this.state == state
    {
      this.manager := manager;
      this.state := state;
    }

    /** The part of _close after the executor has answered. */
    method ApplyOutcome(p: PM.Position, o: CloseOutcome, reason: ExitReason, full: bool, q: Quote)
      modifies p
      ensures p.State() == ApplyClose(old(p.State()), o, reason, full, q)
    {
      hide RealizedBy, FlatRealized;
      if p.status == Closed {
        return;
      }
      if o.AlreadyFlat? {
        RecordFill(p, FlatRealized(p.State(), q), 0.0, p.qty);
        MarkClosed(p, reason);
        return;
      }
      if o.qty <= 0.0 {
        return;
      }
      RecordFill(p, RealizedBy(p.State(), o), o.fee, o.qty);
      if full || p.qty <= 0.0 {
        MarkClosed(p, reason);
      }
    }

    method RecordFill(p: PM.Position, realized: real, fee: real, qty: real)
      modifies p
      ensures p.State() == old(p.State()).(book := Book(old(p.qty) - qty,
                                                       old(p.realizedPnl) + realized,
                                                       old(p.feesPaid) + fee))
    {
      p.realizedPnl := p.realizedPnl + realized;
      p.feesPaid := p.feesPaid + fee;
      p.qty := p.qty - qty;
    }

    method MarkClosed(p: PM.Position, reason: ExitReason)
      modifies p
      ensures p.State() == old(p.State()).(status := Closed, exitReason := Some(reason))
    {
      p.status := Closed;
      p.exitReason := Some(reason);
    }

    /** _close, marking the position as in flight around the executor's work. */
    method Close(p: PM.Position, o: CloseOutcome, reason: ExitReason, full: bool, q: Quote)
      requires RS.Positive(state.positionUpdates)
      modifies p, state
      ensures p.State() == ApplyClose(old(p.State()), o, reason, full, q)
      ensures state.positionUpdates == old(state.positionUpdates)
    {
      hide ApplyClose;
      RS.EndUndoesBegin(state.positionUpdates, p.symbol);
      state.BeginPositionUpdate(p.symbol);
      ApplyOutcome(p, o, reason, full, q);
      state.EndPositionUpdate(p.symbol);
    }

    method Apply(p: PM.Position, a: Action, s: Cycle) returns (extra: seq<Action>)
      requires RS.Positive(state.positionUpdates)
      modifies manager, p, state
      ensures (manager.LifeOf(p), extra)
              == ApplyAction(manager.cfg, old(manager.LifeOf(p)), a, s)
      ensures state.positionUpdates == old(state.positionUpdates)
      ensures manager.OthersKept(p.symbol)
    {
      hide ApplyClose, ActivateRunner;
      extra := [];
      match a {
        case Event(_, _) =>
        case FundingReduce(_) =>
        case Exit(_, reason) => Close(p, s.outcome, reason, true, s.quote);
        case Reduce(_, reason, _) => Close(p, s.outcome, reason, false, s.quote);
        case TrailUpdate(newStop) => p.stopLossPrice := Some(newStop);
        case PartialTp(_) =>
          var prevQty := p.qty;
          Close(p, s.outcome, PartialTakeProfit, false, s.quote);
          if p.status != Closed && p.qty < prevQty {
            extra := manager.ActivateRunnerAfterPartialTp(p, s.tick);
          }
      }
    }

    /** The loop over the actions of one evaluation. */
    method ApplyAll(p: PM.Position, actions: seq<Action>, s: Cycle) returns (extra: seq<Action>)
      requires RS.Positive(state.positionUpdates)
      modifies manager, p, state
      ensures (manager.LifeOf(p), extra)
              == ApplyActions(manager.cfg, old(manager.LifeOf(p)), actions, s)
      ensures state.positionUpdates == old(state.positionUpdates)
      ensures manager.OthersKept(p.symbol)
    {
      hide ApplyAction;
      extra := [];
      var i := 0;
      ghost var start := manager.LifeOf(p);
      assert actions[0..] == actions;
      assert extra + ApplyActions(manager.cfg, start, actions, s).1
          == ApplyActions(manager.cfg, start, actions, s).1;
      while i < |actions|
        invariant 0 <= i <= |actions|
        invariant state.positionUpdates == old(state.positionUpdates)
        invariant manager.OthersKept(p.symbol)
        invariant var (l, rest) := ApplyActions(manager.cfg, manager.LifeOf(p), actions[i..], s);
                  ApplyActions(manager.cfg, start, actions, s) == (l, extra + rest)
      {
        ghost var rest := actions[i..];
        assert rest[0] == actions[i] && rest[1..] == actions[i + 1..];
        var more := Apply(p, actions[i], s);
        ghost var tail := ApplyActions(manager.cfg, manager.LifeOf(p), actions[i + 1..], s).1;
        assert extra + (more + tail) == extra + more + tail;
        extra := extra + more;
        i := i + 1;
      }
      assert extra + [] == extra;
    }

    /** TradingService.manage on a registered position. */
    method ManagePosition(p: PM.Position, s: Cycle) returns (actions: seq<Action>)
      requires RS.Positive(state.positionUpdates)
      modifies manager, p, state
      ensures (manager.LifeOf(p), actions) == Manage(manager.cfg, old(manager.LifeOf(p)), s)
      ensures state.positionUpdates == old(state.positionUpdates)
      ensures manager.OthersKept(p.symbol)
    {
      hide Evaluate, ApplyActions, ApplyClose;
      if !p.botManaged || p.status != Active {
        return [];
      }
      actions := [];
      if s.fundingReduce {
        var qty := Portion(p.qty, 0.5);
        Close(p, s.fundingOutcome, FundingGuard, false, s.quote);
        actions := [FundingReduce(qty)];
        if p.qty <= 0.0 {
          return;
        }
      }
      var evaluated := manager.EvaluatePosition(p, s.tick);
      var extra := ApplyAll(p, evaluated, s);
      actions := actions + (evaluated + extra);
    }

    /** TradingService.close_position on a registered position. */
    method CloseByCommand(p: PM.Position, c: CloseCommand) returns (ran: bool)
      requires RS.Positive(state.positionUpdates)
      modifies p, state
      ensures p.State() == ClosePosition(old(p.State()), c)
      ensures ran == CommandRuns(old(p.State()), c)
      ensures state.positionUpdates == old(state.positionUpdates)
    {
      hide ApplyClose;
      if !p.botManaged || !(p.status == Active || p.status == Pending) {
        return false;
      }
      var pct := Min(100.0, Max(0.0, c.percent));
      if pct <= 0.0 {
        return false;
      }
      var qty := CommandQty(p.State(), c);
      if qty <= 0.0 {
        return false;
      }
      Close(p, c.outcome, c.reason, qty >= p.qty, c.quote);
      ran := true;
    }
  }
}
