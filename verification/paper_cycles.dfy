/** Whole management cycles in PAPER: every close the manager decides is executed by
    the engine, and the three books still agree afterwards. */
module PaperCycles {
  import opened PositionModel
  import opened Management
  import opened Trading
  import opened Lifecycle
  import opened Quantity
  import opened Requests
  import opened PaperBooks
  import PE = PaperEngine

  /** The engine's answer to closing qty of p, and the engine afterwards. */
  function Answer(f: PE.Fees, e: PE.Engine, p: PositionState, qty: real, q: Quote)
    : (PE.Engine, CloseOutcome)
  {
    var (e1, fill) := PE.Execute(f, e, CloseOrder(p, qty, q));
    (e1, PaperOutcome(fill, qty))
  }

  /** The cycle with its executor answers filled in by the engine. */
  function Answered(f: PE.Fees, cfg: Config, e: PE.Engine, l: Life, s: Cycle): Cycle {
    var (e0, funding) := Answer(f, e, l.pos, Portion(l.pos.book.qty, 0.5), s.quote);
    var s0 := s.(fundingOutcome := funding);
    var engine := if s.fundingReduce then e0 else e;
    var (l1, actions) := Evaluate(cfg, AfterFunding(l, s0), s.tick);
    if actions == [] then s0
    else s0.(outcome := Answer(f, engine, l1.pos, RequestedQty(actions[|actions| - 1]),
                               s.quote).1)
  }

  function FundedEngine(f: PE.Fees, e: PE.Engine, l: Life, s: Cycle): PE.Engine {
    if s.fundingReduce then Answer(f, e, l.pos, Portion(l.pos.book.qty, 0.5), s.quote).0 else e
  }

  function EvaluatedEngine(f: PE.Fees, cfg: Config, e: PE.Engine, l: Life, s: Cycle): PE.Engine {
    var (l1, actions) := Evaluate(cfg, l, s.tick);
    if actions != [] && actions[|actions| - 1].ChangesQty()
    then Answer(f, e, l1.pos, RequestedQty(actions[|actions| - 1]), s.quote).0 else e
  }

  /** The engine after the closes of a cycle whose answers s records. */
  function EngineAfter(f: PE.Fees, cfg: Config, e: PE.Engine, l: Life, s: Cycle): PE.Engine {
    if !Managed(l.pos) then e
    else
      var l0 := AfterFunding(l, s);
      if s.fundingReduce && l0.pos.book.qty <= 0.0 then FundedEngine(f, e, l, s)
      else EvaluatedEngine(f, cfg, FundedEngine(f, e, l, s), l0, s)
  }

  /** One PAPER management cycle of position i. */
  function PaperManage(f: PE.Fees, cfg: Config, b: Books, i: nat, trk: Tracking, s: Cycle)
    : (r: (Books, Tracking))
    requires i < |b.positions|
  {
    var l := Life(b.positions[i], trk);
    var s1 := Answered(f, cfg, b.engine, l, s);
    var l1 := Manage(cfg, l, s1).0;
    (Books(EngineAfter(f, cfg, b.engine, l, s1), b.positions[i := l1.pos]), l1.trk)
  }

  // ---- management fields do not touch the money ----

  lemma SameMoneyAgrees(b: Books, i: nat, p1: PositionState, initial: real, marks: PE.Marks)
    requires AllAgree(b, initial, marks) && i < |b.positions|
    requires b.positions[i].status == Active && SameMoney(b.positions[i], p1)
    ensures AllAgree(Books(b.engine, b.positions[i := p1]), initial, marks)
  {
    var b1 := Books(b.engine, b.positions[i := p1]);
    var n := PE.NetOf(b.engine.net, p1.plan.symbol);
    assert Recorded(b, i);
    Pnl.TotalsUpdate(b.positions, i, p1, marks);
    NetUnchanged(b, p1.plan.symbol);
    OthersRecorded(Books(PE.Engine(b.engine.balance, b.engine.net), b.positions),
                   Books(PE.Engine(b.engine.balance, b.engine.net[p1.plan.symbol := n]),
                         b.positions[i := p1]), i, p1, n);
  }

  lemma NetUnchanged(b: Books, symbol: string)
    requires symbol in b.engine.net
    ensures b.engine.net[symbol := PE.NetOf(b.engine.net, symbol)] == b.engine.net
  {
  }

  // ---- the closes of a cycle, one at a time ----

  /** A full exit erases the intermediate CLOSING status. */
  lemma ExitIgnoresClosing(p: PositionState, o: CloseOutcome, reason: ExitReason, q: Quote)
    requires p.status == Closing && o.Filled? && o.qty > 0.0
    ensures ApplyClose(p, o, reason, true, q)
            == ApplyClose(p.(status := Active), o, reason, true, q)
  {
  }

  /** The last action executed by the engine on agreeing books. */
  lemma LastActionAgrees(f: PE.Fees, cfg: Config, b: Books, i: nat, l: Life, a: Action, s: Cycle,
                         initial: real, marks: PE.Marks)
    requires PE.Distinct(marks) && AllAgree(b, initial, marks) && i < |b.positions|
    requires var p := b.positions[i];
             && p.status == Active && p.book.qty > 0.0
             && l.pos.plan == p.plan && l.pos.book == p.book
             && l.pos.status == (if a.Exit? then Closing else Active)
    requires a.ChangesQty() ==>
               && 0.0 <= RequestedQty(a) <= l.pos.book.qty
               && s.outcome == Answer(f, b.engine, l.pos, RequestedQty(a), s.quote).1
    requires a.Exit? ==> RequestedQty(a) == l.pos.book.qty
    ensures var engine := if a.ChangesQty()
                          then Answer(f, b.engine, l.pos, RequestedQty(a), s.quote).0
                          else b.engine;
            AllAgree(Books(engine, b.positions[i := ApplyAction(cfg, l, a, s).0.pos]),
                     initial, marks)
  {
    hide AllAgree, ApplyClose, PE.Execute, ActivateRunner;
    var pA := l.pos.(status := Active);
    var b1 := Books(b.engine, b.positions[i := pA]);
    SameMoneyAgrees(b, i, pA, initial, marks);
    match a {
      case Exit(qty, reason) =>
        CloseAgrees(f, b1, i, qty, reason, true, s.quote, initial, marks);
        ExitIgnoresClosing(l.pos, s.outcome, reason, s.quote);
        assert b1.positions[i := ApplyClose(pA, s.outcome, reason, true, s.quote)]
            == b.positions[i := ApplyAction(cfg, l, a, s).0.pos];
      case Reduce(qty, reason, _) =>
        CloseAgrees(f, b1, i, qty, reason, false, s.quote, initial, marks);
        assert b1.positions[i := ApplyClose(pA, s.outcome, reason, false, s.quote)]
            == b.positions[i := ApplyAction(cfg, l, a, s).0.pos];
      case PartialTp(qty) =>
        PartialAgrees(f, cfg, b1, i, l, qty, s, initial, marks);
        assert b1.positions[i := ApplyAction(cfg, l, a, s).0.pos]
            == b.positions[i := ApplyAction(cfg, l, a, s).0.pos];
      case TrailUpdate(newStop) =>
        SameMoneyAgrees(b, i, SetStop(l, newStop).pos, initial, marks);
      case Event(_, _) =>
      case FundingReduce(_) =>
    }
  }

  lemma PartialAgrees(f: PE.Fees, cfg: Config, b: Books, i: nat, l: Life, qty: real, s: Cycle,
                      initial: real, marks: PE.Marks)
    requires PE.Distinct(marks) && AllAgree(b, initial, marks) && i < |b.positions|
    requires b.positions[i] == l.pos && l.pos.status == Active && l.pos.book.qty > 0.0
    requires 0.0 <= qty <= l.pos.book.qty
    requires s.outcome == Answer(f, b.engine, l.pos, qty, s.quote).1
    ensures AllAgree(Books(Answer(f, b.engine, l.pos, qty, s.quote).0,
                           b.positions[i := ApplyAction(cfg, l, PartialTp(qty), s).0.pos]),
                     initial, marks)
  {
    hide AllAgree, PE.Execute, ActivateRunner;
    var fill := PE.Execute(f, b.engine, CloseOrder(l.pos, qty, s.quote)).1;
    var p1 := ApplyClose(l.pos, s.outcome, PartialTakeProfit, false, s.quote);
    var b1 := Close(f, b, i, qty, PartialTakeProfit, false, s.quote);
    CloseAgrees(f, b, i, qty, PartialTakeProfit, false, s.quote, initial, marks);
    var l1 := l.(pos := p1);
    if p1.status != Closed && p1.book.qty < l.pos.book.qty {
      ActivateKeepsMoney(cfg, l1, s.tick);
      SameMoneyAgrees(b1, i, ActivateRunner(cfg, l1, s.tick).0.pos, initial, marks);
      assert b1.positions[i := ActivateRunner(cfg, l1, s.tick).0.pos]
          == b.positions[i := ActivateRunner(cfg, l1, s.tick).0.pos];
    }
  }

  /** A PAPER management cycle keeps the three books in agreement, whatever it
      decides: funding reduction, partial profit, reductions, exits, stop moves. */
  lemma PaperManageAgrees(f: PE.Fees, cfg: Config, b: Books, i: nat, trk: Tracking, s: Cycle,
                          initial: real, marks: PE.Marks)
    requires Fractions(cfg) && PE.Distinct(marks)
    requires AllAgree(b, initial, marks) && i < |b.positions|
    ensures AllAgree(PaperManage(f, cfg, b, i, trk, s).0, initial, marks)
  {
    hide Evaluate, ApplyAction, ApplyClose, PE.Execute, AllAgree;
    var p := b.positions[i];
    var l := Life(p, trk);
    assert b.positions[i := p] == b.positions;
    if Managed(p) {
      var s1 := Answered(f, cfg, b.engine, l, s);
      ActiveHolds(b, i, initial, marks);
      FractionOf(p.book.qty, 0.5);
      var b0 := if s.fundingReduce
                then Close(f, b, i, Portion(p.book.qty, 0.5), FundingGuard, false, s.quote) else b;
      if s.fundingReduce {
        CloseAgrees(f, b, i, Portion(p.book.qty, 0.5), FundingGuard, false, s.quote,
                    initial, marks);
        HalfLeft(f, b.engine, p, s.quote);
      }
      var l0 := AfterFunding(l, s1);
      assert b0.positions[i] == l0.pos && b0.engine == FundedEngine(f, b.engine, l, s1);
      assert b0.positions == b.positions[i := l0.pos];
      FundedCycleAgrees(f, cfg, b0, i, l0, s1, initial, marks);
      var final := EvaluateAndApply(cfg, l0, s1).0.pos;
      assert b0.positions[i := final] == b.positions[i := final];
    }
  }

  lemma ActiveHolds(b: Books, i: nat, initial: real, marks: PE.Marks)
    requires AllAgree(b, initial, marks) && i < |b.positions|
    ensures b.positions[i].status == Active ==> b.positions[i].book.qty > 0.0
  {
    assert Recorded(b, i);
  }

  /** Half of an open position stays open after a paper funding reduction. */
  lemma HalfLeft(f: PE.Fees, e: PE.Engine, p: PositionState, q: Quote)
    requires p.status == Active && p.book.qty > 0.0
    ensures var p1 := ApplyClose(p, Answer(f, e, p, Portion(p.book.qty, 0.5), q).1,
                                 FundingGuard, false, q);
            p1.status == Active && p1.book.qty > 0.0 && p1.plan == p.plan
  {
    hide PE.Execute;
  }

  /** Evaluation and its last action on a position that is open after funding. */
  lemma FundedCycleAgrees(f: PE.Fees, cfg: Config, b: Books, i: nat, l: Life, s: Cycle,
                          initial: real, marks: PE.Marks)
    requires Fractions(cfg) && PE.Distinct(marks)
    requires AllAgree(b, initial, marks) && i < |b.positions|
    requires b.positions[i] == l.pos && Managed(l.pos) && l.pos.book.qty > 0.0
    requires var (l1, actions) := Evaluate(cfg, l, s.tick);
             actions != [] ==>
               s.outcome == Answer(f, b.engine, l1.pos, RequestedQty(actions[|actions| - 1]),
                                   s.quote).1
    ensures AllAgree(Books(EvaluatedEngine(f, cfg, b.engine, l, s),
                           b.positions[i := EvaluateAndApply(cfg, l, s).0.pos]),
                     initial, marks)
  {
    hide Evaluate, ApplyAction, PE.Execute, AllAgree, Answer;
    var (l1, actions) := Evaluate(cfg, l, s.tick);
    EvaluateAsks(cfg, l, s.tick);
    EvaluateRequests(cfg, l, s.tick);
    EvaluateShape(cfg, l, s.tick);
    ApplyLast(cfg, l1, actions, s);
    if actions == [] {
      SameMoneyAgrees(b, i, l1.pos, initial, marks);
    } else {
      LastActionAgrees(f, cfg, b, i, l1, actions[|actions| - 1], s, initial, marks);
    }
  }
}
