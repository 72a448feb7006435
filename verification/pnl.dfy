/** compute_pnl: realized, unrealized and fees summed over positions. */
module Pnl {
  import opened Common
  import opened PositionModel
  import PE = PaperEngine

  datatype PnlSnapshot = PnlSnapshot(realized: real, unrealized: real, fees: real,
                                     funding: real, net: real)

  /** Open profit of one position under the marks; only ACTIVE positions have any. */
  function OpenProfit(p: PositionState, marks: PE.Marks): real {
    if p.status != Active then 0.0
    else match PE.MarkOf(marks, p.plan.symbol)
      case Some(mark) => (mark - p.plan.entry) * p.book.qty * Direction(p.plan.side)
      case None => 0.0
  }

  function Unrealized(ps: seq<PositionState>, marks: PE.Marks): real {
    if ps == [] then 0.0 else OpenProfit(ps[0], marks) + Unrealized(ps[1..], marks)
  }

  function Realized(ps: seq<PositionState>): real {
    if ps == [] then 0.0 else ps[0].book.realizedPnl + Realized(ps[1..])
  }

  function Fees(ps: seq<PositionState>): real {
    if ps == [] then 0.0 else ps[0].book.feesPaid + Fees(ps[1..])
  }

  function NetPnl(ps: seq<PositionState>, marks: PE.Marks, funding: real): real {
    Realized(ps) + Unrealized(ps, marks) - Fees(ps) - funding
  }

  method ComputePnl(ps: seq<PositionState>, marks: PE.Marks, funding: real)
    returns (s: PnlSnapshot)
    ensures s == PnlSnapshot(Realized(ps), Unrealized(ps, marks), Fees(ps), funding,
                             NetPnl(ps, marks, funding))
  {
    hide OpenProfit;
    var realized, unrealized, fees := 0.0, 0.0, 0.0;
    var i := 0;
    while i < |ps|
      invariant 0 <= i <= |ps|
      invariant realized + Realized(ps[i..]) == Realized(ps)
      invariant unrealized + Unrealized(ps[i..], marks) == Unrealized(ps, marks)
      invariant fees + Fees(ps[i..]) == Fees(ps)
    {
      realized := realized + ps[i].book.realizedPnl;
      fees := fees + ps[i].book.feesPaid;
      unrealized := unrealized + OpenProfit(ps[i], marks);
      i := i + 1;
    }
    s := PnlSnapshot(realized, unrealized, fees, funding,
                     realized + unrealized - fees - funding);
  }

  /** Opening one more position adds its own terms. */
  lemma {:induction false} TotalsAppend(ps: seq<PositionState>, p: PositionState, marks: PE.Marks)
    ensures Realized(ps + [p]) == Realized(ps) + p.book.realizedPnl
    ensures Fees(ps + [p]) == Fees(ps) + p.book.feesPaid
    ensures Unrealized(ps + [p], marks) == Unrealized(ps, marks) + OpenProfit(p, marks)
  {
    hide OpenProfit;
    if ps != [] {
      assert (ps + [p])[1..] == ps[1..] + [p];
      TotalsAppend(ps[1..], p, marks);
    }
  }

  /** Replacing one position exchanges its terms. */
  lemma {:induction false} TotalsUpdate(ps: seq<PositionState>, i: nat, p: PositionState,
                                        marks: PE.Marks)
    requires i < |ps|
    ensures Realized(ps[i := p]) == Realized(ps) - ps[i].book.realizedPnl + p.book.realizedPnl
    ensures Fees(ps[i := p]) == Fees(ps) - ps[i].book.feesPaid + p.book.feesPaid
    ensures Unrealized(ps[i := p], marks)
            == Unrealized(ps, marks) - OpenProfit(ps[i], marks) + OpenProfit(p, marks)
  {
    hide OpenProfit;
    if i > 0 {
      assert ps[i := p][1..] == ps[1..][i - 1 := p];
      TotalsUpdate(ps[1..], i - 1, p, marks);
    }
  }
}
