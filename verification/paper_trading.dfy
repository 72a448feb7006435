/** TradingService with the paper executor: the objects behind the three books. */
module PaperTrading {
  import opened PositionModel
  import opened Trading
  import PE = PaperEngine
  import PB = PaperBooks
  import PM = PositionManager
  import RS = RuntimeState
  import TS = TradingService

  class PaperTrading {
    const service: TS.TradingService
    const engine: PE.PaperExecutionEngine

    constructor (service: TS.TradingService, engine: PE.PaperExecutionEngine)
      ensures this.service == service && this.engine == engine
    {
      this.service, this.engine := service, engine;
    }

    /** The books an engine and a list of positions stand for. */
    function BooksOf(positions: seq<PM.Position>): PB.Books
      reads engine, positions
    {
      PB.Books(engine.Value(),
               seq(|positions|, i requires 0 <= i < |positions|
                                reads engine, positions => positions[i].State()))
    }

    /** The filled entry: a market order, then a position at the fill price. */
    method OpenPosition(planned: PositionState, q: Quote, ghost positions: seq<PM.Position>)
      returns (p: PM.Position)
      modifies engine
      ensures fresh(p)
      ensures BooksOf(positions + [p])
              == PB.Open(engine.Settings(), old(BooksOf(positions)), planned, q)
      ensures engine.Settings() == old(engine.Settings())
    {
      var order := PB.OrderFor(planned.plan.symbol, PB.EntrySide(planned.plan.side),
                               planned.book.qty, q);
      var fill := engine.ExecuteMarket(order);
      p := new PM.Position(PB.Opened(planned, fill));
    }

    /** A close: a market order on the other side, then its outcome on the position. */
    method CloseQty(i: nat, qty: real, reason: ExitReason, full: bool, q: Quote,
                    positions: seq<PM.Position>)
      requires i < |positions|
      requires forall j, k :: 0 <= j < k < |positions| ==> positions[j] != positions[k]
      requires RS.Positive(service.state.positionUpdates)
      modifies engine, positions[i], service.state
      ensures BooksOf(positions)
              == PB.Close(engine.Settings(), old(BooksOf(positions)), i, qty, reason, full, q)
      ensures engine.Settings() == old(engine.Settings())
      ensures service.state.positionUpdates == old(service.state.positionUpdates)
    {
      hide ApplyClose, PE.Execute;
      var p := positions[i];
      var fill := engine.ExecuteMarket(PB.CloseOrder(p.State(), qty, q));
      service.Close(p, PB.PaperOutcome(fill, qty), reason, full, q);
    }
  }
}
