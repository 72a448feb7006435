/** PAPER trading keeps three books of the same money: the engine's average-cost
    nets and cash, the Position records, and the PnL summary. They always agree. */
module PaperBooks {
  import opened Common
  import opened RealFacts
  import opened PositionModel
  import opened Trading
  import PE = PaperEngine
  import Pnl

  /** The engine and every position ever opened, oldest first. */
  datatype Books = Books(engine: PE.Engine, positions: seq<PositionState>)

  function EntrySide(s: Side): PE.OrderSide {
    if s == Long then PE.Buy else PE.Sell
  }

  function ExitSide(s: Side): PE.OrderSide {
    if s == Long then PE.Sell else PE.Buy
  }

  function OrderFor(symbol: string, side: PE.OrderSide, qty: real, q: Quote): PE.Order {
    PE.Order(symbol, side, qty, q.bid, q.ask)
  }

  /** Opening: the planned position filled at the engine's price and made ACTIVE. */
  function Opened(planned: PositionState, fill: PE.Fill): PositionState {
    planned.(plan := planned.plan.(entry := fill.price), status := Active,
             book := Book(planned.book.qty, 0.0, fill.fee))
  }

  function Open(f: PE.Fees, b: Books, planned: PositionState, q: Quote): Books {
    var order := OrderFor(planned.plan.symbol, EntrySide(planned.plan.side), planned.book.qty, q);
    var (engine, fill) := PE.Execute(f, b.engine, order);
    Books(engine, b.positions + [Opened(planned, fill)])
  }

  /** What the paper executor answers to a close. */
  function PaperOutcome(fill: PE.Fill, qty: real): CloseOutcome {
    Filled(fill.price, qty, fill.fee, Some(fill.realized))
  }

  function CloseOrder(p: PositionState, qty: real, q: Quote): PE.Order {
    OrderFor(p.plan.symbol, ExitSide(p.plan.side), qty, q)
  }

  function Close(f: PE.Fees, b: Books, i: nat, qty: real, reason: ExitReason, full: bool, q: Quote)
    : Books
    requires i < |b.positions|
  {
    var p := b.positions[i];
    var (engine, fill) := PE.Execute(f, b.engine, CloseOrder(p, qty, q));
    Books(engine, b.positions[i := ApplyClose(p, PaperOutcome(fill, qty), reason, full, q)])
  }

  /** An entry buys at the ask or sells at the bid, slippage on top, and is booked with that
      price, its fee and no result. */
  lemma EntryAtMarket(f: PE.Fees, b: Books, planned: PositionState, q: Quote)
    ensures var positions := Open(f, b, planned, q).positions;
            && |positions| == |b.positions| + 1
            && var p := positions[|b.positions|];
               && (match planned.plan.side
                   case Long => (p.plan.entry - q.ask) * 100.0 == q.ask * f.slippage
                   case Short => (q.bid - p.plan.entry) * 100.0 == q.bid * f.slippage)
               && p.book.feesPaid * 100.0 == p.plan.entry * planned.book.qty * f.feePct
               && p.book.qty == planned.book.qty && p.book.realizedPnl == 0.0 && p.status == Active
  {
    PE.FillLaw(f, b.engine, OrderFor(planned.plan.symbol, EntrySide(planned.plan.side), planned.book.qty, q));
    hide PE.Execute;
  }

  /** A close sells at the bid or buys back at the ask, slippage on top. */
  lemma ExitAtMarket(f: PE.Fees, e: PE.Engine, p: PositionState, qty: real, q: Quote)
    ensures var fill := PE.Execute(f, e, CloseOrder(p, qty, q)).1;
            && (match p.plan.side
                case Long => (q.bid - fill.price) * 100.0 == q.bid * f.slippage
                case Short => (fill.price - q.ask) * 100.0 == q.ask * f.slippage)
            && fill.fee * 100.0 == fill.price * qty * f.feePct
  {
    PE.FillLaw(f, e, CloseOrder(p, qty, q));
    hide PE.Execute;
  }

  datatype Op =
    | OpenOp(planned: PositionState, quote: Quote)
    | CloseOp(index: nat, qty: real, reason: ExitReason, full: bool, quote: Quote)

  /** An entry needs a positive size and no open position on its symbol; a close
      asks for no more than is held, and for all of it when it is a full exit. */
  predicate Allowed(b: Books, op: Op) {
    match op
    case OpenOp(planned, _) =>
      && planned.book.qty > 0.0
      && !HasActive(b, planned.plan.symbol)
    case CloseOp(i, qty, _, full, _) =>
      && i < |b.positions| && b.positions[i].status == Active
      && 0.0 <= qty <= b.positions[i].book.qty && (full ==> qty == b.positions[i].book.qty)
  }

  function Step(f: PE.Fees, b: Books, op: Op): Books
    requires Allowed(b, op)
  {
    match op
    case OpenOp(planned, q) => Open(f, b, planned, q)
    case CloseOp(i, qty, reason, full, q) => Close(f, b, i, qty, reason, full, q)
  }

  // ---- agreement of engine and positions ----

  /** The net a position stands for. */
  function Holding(p: PositionState): PE.Net {
    PE.Net(p.book.qty * Direction(p.plan.side), p.plan.entry)
  }

  predicate Recorded(b: Books, i: nat)
    requires i < |b.positions|
  {
    var p := b.positions[i];
    && (p.status == Active || p.status == Closed)
    && (p.status == Active ==>
          p.book.qty > 0.0 && PE.NetOf(b.engine.net, p.plan.symbol) == Holding(p))
    && (p.status == Closed ==> p.book.qty == 0.0)
  }

  predicate HasActive(b: Books, symbol: string) {
    exists i :: 0 <= i < |b.positions|
      && b.positions[i].plan.symbol == symbol && b.positions[i].status == Active
  }

  /** Engine and positions agree: each ACTIVE position is exactly its symbol's net,
      a symbol without one is flat, and only the latest position of a symbol is open. */
  ghost predicate Agree(b: Books) {
    && (forall i :: 0 <= i < |b.positions| ==> Recorded(b, i))
    && (forall s: string :: !HasActive(b, s) ==> PE.NetOf(b.engine.net, s) == PE.FLAT)
    && (forall i, j :: 0 <= i < j < |b.positions|
          && b.positions[i].plan.symbol == b.positions[j].plan.symbol
          ==> b.positions[i].status == Closed)
  }

  /** Cash is the initial balance plus what positions realized minus what they paid. */
  predicate CashAgrees(b: Books, initial: real) {
    b.engine.balance == initial + Pnl.Realized(b.positions) - Pnl.Fees(b.positions)
  }

  /** Open profit is the same in the engine and over the positions. */
  predicate MarksAgree(b: Books, marks: PE.Marks) {
    PE.UnrealizedAt(b.engine.net, marks) == Pnl.Unrealized(b.positions, marks)
  }

  ghost predicate AllAgree(b: Books, initial: real, marks: PE.Marks) {
    Agree(b) && CashAgrees(b, initial) && MarksAgree(b, marks)
  }

  lemma HoldingProfit(p: PositionState, marks: PE.Marks)
    requires p.status == Active
    ensures Pnl.OpenProfit(p, marks)
            == PE.MarkedValue(Holding(p), PE.MarkOf(marks, p.plan.symbol))
  {
    match PE.MarkOf(marks, p.plan.symbol)
    case Some(mark) => Associate(mark - p.plan.entry, p.book.qty, Direction(p.plan.side));
    case None =>
  }

  lemma OpenFill(p: PositionState, price: real)
    requires p.book.qty > 0.0
    ensures PE.ApplyFill(PE.FLAT, EntrySide(p.plan.side), p.book.qty, price)
            == (PE.Net(p.book.qty * Direction(p.plan.side), price), 0.0)
  {
  }

  lemma OpenAgrees(f: PE.Fees, b: Books, planned: PositionState, q: Quote, initial: real,
                   marks: PE.Marks)
    requires PE.Distinct(marks) && AllAgree(b, initial, marks) && Allowed(b, OpenOp(planned, q))
    ensures AllAgree(Open(f, b, planned, q), initial, marks)
  {
    hide PE.ApplyFill, PE.FillPrice, PE.FeeOf, Pnl.OpenProfit, PE.MarkedValue;
    var symbol := planned.plan.symbol;
    var order := OrderFor(symbol, EntrySide(planned.plan.side), planned.book.qty, q);
    var (engine, fill) := PE.Execute(f, b.engine, order);
    var p := Opened(planned, fill);
    var b1 := Open(f, b, planned, q);
    assert !HasActive(b, symbol);
    OpenFill(planned, fill.price);
    assert fill.realized == 0.0 && PE.NetOf(engine.net, symbol) == Holding(p);
    Pnl.TotalsAppend(b.positions, p, marks);
    PE.UnrealizedUpdate(b.engine.net, marks, symbol, Holding(p));
    FlatWorthless(marks, symbol);
    HoldingProfit(p, marks);
    forall i | 0 <= i < |b1.positions| ensures Recorded(b1, i) {
      if i < |b.positions| { assert Recorded(b, i); }
    }
    forall s: string | !HasActive(b1, s) ensures PE.NetOf(b1.engine.net, s) == PE.FLAT {
      assert b1.positions[|b.positions|] == p;
      NotActiveBefore(b, b1, s);
    }
    forall i, j | 0 <= i < j < |b1.positions|
                  && b1.positions[i].plan.symbol == b1.positions[j].plan.symbol
      ensures b1.positions[i].status == Closed
    {
      assert Recorded(b, i);
    }
  }

  lemma FlatWorthless(marks: PE.Marks, symbol: string)
    ensures PE.MarkedValue(PE.FLAT, PE.MarkOf(marks, symbol)) == 0.0
  {
  }

  /** A symbol without an open position after an append had none before. */
  lemma NotActiveBefore(b: Books, b1: Books, s: string)
    requires |b.positions| <= |b1.positions| && !HasActive(b1, s)
    requires forall i :: 0 <= i < |b.positions| ==> b1.positions[i] == b.positions[i]
    ensures !HasActive(b, s)
  {
    forall i | 0 <= i < |b.positions|
      ensures !(b.positions[i].plan.symbol == s && b.positions[i].status == Active)
    {
      assert b1.positions[i] == b.positions[i];
    }
  }

  /** Closing part or all of a position moves its net the same way. */
  lemma CloseFill(p: PositionState, qty: real, price: real)
    requires p.status == Active && 0.0 < qty <= p.book.qty
    ensures var (n, realized) := PE.ApplyFill(Holding(p), ExitSide(p.plan.side), qty, price);
            n == if qty == p.book.qty then PE.FLAT
                 else Holding(p.(book := p.book.(qty := p.book.qty - qty)))
  {
    var cur := Holding(p);
    assert Abs(cur.size) == p.book.qty;
    PE.ReduceKeepsAverage(cur, ExitSide(p.plan.side), qty, price);
    var n := PE.ApplyFill(cur, ExitSide(p.plan.side), qty, price).0;
    assert n.size == cur.size - qty * Direction(p.plan.side);
  }

  lemma ZeroFill(cur: PE.Net, side: PE.OrderSide, price: real)
    requires cur.size != 0.0
    ensures PE.ApplyFill(cur, side, 0.0, price) == (cur, 0.0)
  {
  }

  /** The position after a paper close, and the net that goes with it. */
  lemma ClosedRecord(p: PositionState, fill: PE.Fill, qty: real, reason: ExitReason, full: bool,
                     q: Quote)
    requires p.status == Active && p.book.qty > 0.0
    requires 0.0 <= qty <= p.book.qty && (full ==> qty == p.book.qty)
    requires qty == 0.0 ==> fill.fee == 0.0 && fill.realized == 0.0
    ensures var p1 := ApplyClose(p, PaperOutcome(fill, qty), reason, full, q);
            && p1.plan == p.plan && p1.book.qty == p.book.qty - qty
            && p1.book.realizedPnl == p.book.realizedPnl + fill.realized
            && p1.book.feesPaid == p.book.feesPaid + fill.fee
            && p1.status == if qty == p.book.qty then Closed else Active
  {
  }

  lemma CloseAgrees(f: PE.Fees, b: Books, i: nat, qty: real, reason: ExitReason, full: bool,
                    q: Quote, initial: real, marks: PE.Marks)
    requires PE.Distinct(marks) && AllAgree(b, initial, marks)
    requires Allowed(b, CloseOp(i, qty, reason, full, q))
    ensures AllAgree(Close(f, b, i, qty, reason, full, q), initial, marks)
  {
    hide PE.ApplyFill, PE.FillPrice, PE.FeeOf, Pnl.OpenProfit, PE.MarkedValue, ApplyClose, Holding;
    var p := b.positions[i];
    var symbol := p.plan.symbol;
    assert Recorded(b, i);
    var order := CloseOrder(p, qty, q);
    var (engine, fill) := PE.Execute(f, b.engine, order);
    var p1 := ApplyClose(p, PaperOutcome(fill, qty), reason, full, q);
    var b1 := Close(f, b, i, qty, reason, full, q);
    var n := PE.ApplyFill(Holding(p), order.side, qty, fill.price).0;
    CloseMoves(f, b.engine, p, qty, q);
    ClosedRecord(p, fill, qty, reason, full, q);
    SameHolding(p1, p.(book := p.book.(qty := p.book.qty - qty)));
    assert n == if p1.status == Closed then PE.FLAT else Holding(p1);
    Pnl.TotalsUpdate(b.positions, i, p1, marks);
    PE.UnrealizedUpdate(b.engine.net, marks, symbol, n);
    HoldingProfit(p, marks);
    FlatWorthless(marks, symbol);
    if p1.status == Active { HoldingProfit(p1, marks); } else { ClosedWorthless(p1, marks); }
    OthersRecorded(b, b1, i, p1, n);
  }

  lemma SameHolding(p: PositionState, p2: PositionState)
    requires p.plan == p2.plan && p.book.qty == p2.book.qty
    ensures Holding(p) == Holding(p2)
  {
  }

  lemma ClosedWorthless(p: PositionState, marks: PE.Marks)
    requires p.status != Active
    ensures Pnl.OpenProfit(p, marks) == 0.0
  {
  }

  /** The engine's side of a close, zero quantity included. */
  lemma CloseMoves(f: PE.Fees, e: PE.Engine, p: PositionState, qty: real, q: Quote)
    requires p.status == Active && p.book.qty > 0.0 && 0.0 <= qty <= p.book.qty
    requires PE.NetOf(e.net, p.plan.symbol) == Holding(p)
    ensures var (e1, fill) := PE.Execute(f, e, CloseOrder(p, qty, q));
            var n := PE.ApplyFill(Holding(p), ExitSide(p.plan.side), qty, fill.price).0;
            && n == (if qty == p.book.qty then PE.FLAT
                     else Holding(p.(book := p.book.(qty := p.book.qty - qty))))
            && e1.net == e.net[p.plan.symbol := n]
            && e1.balance == e.balance + fill.realized - fill.fee
            && (qty == 0.0 ==> fill.fee == 0.0 && fill.realized == 0.0)
  {
    var price := PE.FillPrice(f, CloseOrder(p, qty, q));
    if qty == 0.0 {
      ZeroFill(Holding(p), ExitSide(p.plan.side), price);
    } else {
      CloseFill(p, qty, price);
    }
  }

  lemma OthersRecorded(b: Books, b1: Books, i: nat, p1: PositionState, n: PE.Net)
    requires Agree(b) && i < |b.positions| && b.positions[i].status == Active
    requires b1.positions == b.positions[i := p1] && p1.plan == b.positions[i].plan
    requires b1.engine.net == b.engine.net[p1.plan.symbol := n]
    requires p1.status == Closed ==> p1.book.qty == 0.0 && n == PE.FLAT
    requires p1.status != Closed ==> p1.status == Active && p1.book.qty > 0.0 && n == Holding(p1)
    ensures Agree(b1)
  {
    var symbol := p1.plan.symbol;
    forall j | 0 <= j < |b1.positions| ensures Recorded(b1, j) {
      assert Recorded(b, j);
      if j != i && b.positions[j].plan.symbol == symbol {
        assert b.positions[j].status == Closed;
      }
    }
    forall s: string | !HasActive(b1, s) ensures PE.NetOf(b1.engine.net, s) == PE.FLAT {
      if s == symbol {
        assert b1.positions[i] == p1;
      } else {
        forall j | 0 <= j < |b.positions|
          ensures !(b.positions[j].plan.symbol == s && b.positions[j].status == Active)
        {
          if j != i { assert b1.positions[j] == b.positions[j]; }
        }
        assert !HasActive(b, s) && PE.NetOf(b1.engine.net, s) == PE.NetOf(b.engine.net, s);
      }
    }
  }

  // ---- runs ----

  predicate AllAllowed(f: PE.Fees, b: Books, ops: seq<Op>)
    decreases |ops|
  {
    ops != [] ==> Allowed(b, ops[0]) && AllAllowed(f, Step(f, b, ops[0]), ops[1..])
  }

  function Run(f: PE.Fees, b: Books, ops: seq<Op>): Books
    requires AllAllowed(f, b, ops)
    decreases |ops|
  {
    if ops == [] then b else Run(f, Step(f, b, ops[0]), ops[1..])
  }

  lemma {:induction false} RunAgrees(f: PE.Fees, b: Books, ops: seq<Op>, initial: real,
                                     marks: PE.Marks)
    requires AllAllowed(f, b, ops) && PE.Distinct(marks) && AllAgree(b, initial, marks)
    ensures AllAgree(Run(f, b, ops), initial, marks)
    decreases |ops|
  {
    if ops != [] {
      hide AllAgree, Open, Close;
      match ops[0] {
        case OpenOp(planned, q) => OpenAgrees(f, b, planned, q, initial, marks);
        case CloseOp(i, qty, reason, full, q) =>
          CloseAgrees(f, b, i, qty, reason, full, q, initial, marks);
      }
      RunAgrees(f, Step(f, b, ops[0]), ops[1..], initial, marks);
    }
  }

  function Start(initial: real): Books {
    Books(PE.Engine(initial, map[]), [])
  }

  /** After any opens, reductions and closes from a fresh engine, every open position
      is its symbol's net, and wallet equity minus the initial balance equals the net
      PnL over all positions ever opened, under any set of marks. */
  lemma ThreeBooksAgree(f: PE.Fees, initial: real, ops: seq<Op>, marks: PE.Marks)
    requires AllAllowed(f, Start(initial), ops) && PE.Distinct(marks)
    ensures var b := Run(f, Start(initial), ops);
            && Agree(b)
            && PE.Equity(b.engine, marks) - initial == Pnl.NetPnl(b.positions, marks, 0.0)
  {
    PE.NothingUnrealized(marks);
    assert AllAgree(Start(initial), initial, marks);
    RunAgrees(f, Start(initial), ops, initial, marks);
  }

  // ---- the registry keeps one position per symbol ----

  predicate SymbolIn(ps: seq<PositionState>, symbol: string) {
    exists i :: 0 <= i < |ps| && ps[i].plan.symbol == symbol
  }

  /** What the runtime's registry still holds: the latest position of each symbol. */
  function Registry(ps: seq<PositionState>): seq<PositionState> {
    if ps == [] then []
    else if SymbolIn(ps[1..], ps[0].plan.symbol) then Registry(ps[1..])
    else [ps[0]] + Registry(ps[1..])
  }

  /** The positions a later entry on the same symbol has overwritten. */
  function Replaced(ps: seq<PositionState>): seq<PositionState> {
    if ps == [] then []
    else if SymbolIn(ps[1..], ps[0].plan.symbol) then [ps[0]] + Replaced(ps[1..])
    else Replaced(ps[1..])
  }

  predicate ReplacedClosed(ps: seq<PositionState>) {
    forall i, j :: 0 <= i < j < |ps| && ps[i].plan.symbol == ps[j].plan.symbol
                   ==> ps[i].status == Closed
  }

  lemma {:induction false} RegistrySplit(ps: seq<PositionState>, marks: PE.Marks)
    requires ReplacedClosed(ps)
    ensures Pnl.NetPnl(ps, marks, 0.0)
            == Pnl.NetPnl(Registry(ps), marks, 0.0)
               + Pnl.Realized(Replaced(ps)) - Pnl.Fees(Replaced(ps))
  {
    hide Pnl.OpenProfit;
    if ps != [] {
      RegistrySplit(ps[1..], marks);
      if SymbolIn(ps[1..], ps[0].plan.symbol) {
        var i :| 0 <= i < |ps[1..]| && ps[1..][i].plan.symbol == ps[0].plan.symbol;
        assert ps[i + 1].plan.symbol == ps[0].plan.symbol;
        ClosedWorthless(ps[0], marks);
        assert ([ps[0]] + Replaced(ps[1..]))[1..] == Replaced(ps[1..]);
      } else {
        assert ([ps[0]] + Registry(ps[1..]))[1..] == Registry(ps[1..]);
      }
    }
  }

  /** The PnL published from the registry equals the account's change exactly when
      the overwritten positions happened to net to zero. */
  lemma RegistryPnlExact(f: PE.Fees, initial: real, ops: seq<Op>, marks: PE.Marks)
    requires AllAllowed(f, Start(initial), ops) && PE.Distinct(marks)
    ensures var b := Run(f, Start(initial), ops);
            PE.Equity(b.engine, marks) - initial == Pnl.NetPnl(Registry(b.positions), marks, 0.0)
            <==> Pnl.Realized(Replaced(b.positions)) == Pnl.Fees(Replaced(b.positions))
  {
    ThreeBooksAgree(f, initial, ops, marks);
    RegistrySplit(Run(f, Start(initial), ops).positions, marks);
  }

  // ---- when an entry makes the registry forget ----

  /** The record a symbol has in the registry: its latest position. */
  function RecordOf(ps: seq<PositionState>, symbol: string): Option<PositionState> {
    if ps == [] then None
    else if SymbolIn(ps[1..], symbol) then RecordOf(ps[1..], symbol)
    else if ps[0].plan.symbol == symbol then Some(ps[0])
    else None
  }

  /** What a record has realized after fees; nothing without a record. */
  function RecordNet(record: Option<PositionState>): real {
    if record.None? then 0.0 else record.value.book.realizedPnl - record.value.book.feesPaid
  }

  function ReplacedNet(ps: seq<PositionState>): real {
    Pnl.Realized(Replaced(ps)) - Pnl.Fees(Replaced(ps))
  }

  lemma SymbolInSnoc(ps: seq<PositionState>, p: PositionState, symbol: string)
    ensures SymbolIn(ps + [p], symbol) <==> SymbolIn(ps, symbol) || p.plan.symbol == symbol
  {
    if p.plan.symbol == symbol {
      assert (ps + [p])[|ps|] == p;
    }
    if SymbolIn(ps, symbol) {
      var i :| 0 <= i < |ps| && ps[i].plan.symbol == symbol;
      assert (ps + [p])[i] == ps[i];
    }
  }

  /** One more position replaces its symbol's record, if there is one. */
  lemma {:induction false} ReplacedAppend(ps: seq<PositionState>, p: PositionState)
    ensures ReplacedNet(ps + [p]) == ReplacedNet(ps) + RecordNet(RecordOf(ps, p.plan.symbol))
  {
    if ps == [] {
      assert ([] + [p])[1..] == [];
    } else {
      assert (ps + [p])[1..] == ps[1..] + [p];
      SymbolInSnoc(ps[1..], p, ps[0].plan.symbol);
      ReplacedAppend(ps[1..], p);
      assert ([ps[0]] + Replaced(ps[1..]))[1..] == Replaced(ps[1..]);
      assert ([ps[0]] + Replaced(ps[1..] + [p]))[1..] == Replaced(ps[1..] + [p]);
      if SymbolIn(ps[1..], ps[0].plan.symbol) {
      } else if ps[0].plan.symbol == p.plan.symbol {
        NoRecord(ps[1..], p.plan.symbol);
      }
    }
  }

  lemma {:induction false} NoRecord(ps: seq<PositionState>, symbol: string)
    ensures RecordOf(ps, symbol).Some? <==> SymbolIn(ps, symbol)
  {
    if ps != [] {
      NoRecord(ps[1..], symbol);
      if SymbolIn(ps[1..], symbol) {
        var i :| 0 <= i < |ps[1..]| && ps[1..][i].plan.symbol == symbol;
        assert ps[i + 1].plan.symbol == symbol;
      }
    }
  }

  /** Changing a symbol's latest position replaces nothing. */
  lemma {:induction false} ReplacedUpdate(ps: seq<PositionState>, i: nat, p: PositionState)
    requires i < |ps| && p.plan.symbol == ps[i].plan.symbol && !SymbolIn(ps[i + 1..], p.plan.symbol)
    ensures Replaced(ps[i := p]) == Replaced(ps)
  {
    if i == 0 {
      assert ps[0 := p][1..] == ps[1..];
    } else {
      assert ps[i := p][1..] == ps[1..][i - 1 := p];
      assert ps[1..][i..] == ps[i + 1..];
      SymbolInUpdate(ps[1..], i - 1, p, ps[0].plan.symbol);
      ReplacedUpdate(ps[1..], i - 1, p);
    }
  }

  lemma SymbolInUpdate(ps: seq<PositionState>, i: nat, p: PositionState, symbol: string)
    requires i < |ps| && p.plan.symbol == ps[i].plan.symbol
    ensures SymbolIn(ps[i := p], symbol) <==> SymbolIn(ps, symbol)
  {
    forall j | 0 <= j < |ps| ensures ps[i := p][j].plan.symbol == ps[j].plan.symbol {
    }
    if SymbolIn(ps, symbol) {
      var j :| 0 <= j < |ps| && ps[j].plan.symbol == symbol;
      assert ps[i := p][j].plan.symbol == symbol;
    }
  }

  /** How far the published figure is from the account's change. */
  function Gap(b: Books, initial: real, marks: PE.Marks): real {
    PE.Equity(b.engine, marks) - initial - Pnl.NetPnl(Registry(b.positions), marks, 0.0)
  }

  lemma GapIsReplaced(b: Books, initial: real, marks: PE.Marks)
    requires AllAgree(b, initial, marks)
    ensures Gap(b, initial, marks) == ReplacedNet(b.positions)
  {
    RegistrySplit(b.positions, marks);
  }

  /** An entry moves the published figure away from the account by exactly what the
      symbol's current record has realized after fees. So an exact figure stays exact if
      and only if the symbol has no record or its record nets to zero. */
  lemma EntryForgets(f: PE.Fees, b: Books, planned: PositionState, q: Quote, initial: real, marks: PE.Marks)
    requires PE.Distinct(marks) && AllAgree(b, initial, marks) && Allowed(b, OpenOp(planned, q))
    ensures var forgotten := RecordNet(RecordOf(b.positions, planned.plan.symbol));
            && Gap(Open(f, b, planned, q), initial, marks) == Gap(b, initial, marks) + forgotten
            && (Gap(b, initial, marks) == 0.0 ==>
                  (Gap(Open(f, b, planned, q), initial, marks) == 0.0 <==> forgotten == 0.0))
  {
    hide AllAgree, Gap, PE.Execute, ReplacedNet, RecordNet;
    OpenAgrees(f, b, planned, q, initial, marks);
    GapIsReplaced(b, initial, marks);
    GapIsReplaced(Open(f, b, planned, q), initial, marks);
    var fill := PE.Execute(f, b.engine, OrderFor(planned.plan.symbol, EntrySide(planned.plan.side),
                                                 planned.book.qty, q)).1;
    ReplacedAppend(b.positions, Opened(planned, fill));
  }

  /** Only the latest position of a symbol is ever open. */
  lemma ActiveIsLatest(b: Books, i: nat)
    requires Agree(b) && i < |b.positions| && b.positions[i].status == Active
    ensures !SymbolIn(b.positions[i + 1..], b.positions[i].plan.symbol)
  {
    var rest := b.positions[i + 1..];
    forall j | 0 <= j < |rest| ensures rest[j].plan.symbol != b.positions[i].plan.symbol {
      assert rest[j] == b.positions[i + 1 + j];
    }
  }

  /** A close forgets nothing. */
  lemma CloseForgetsNothing(f: PE.Fees, b: Books, i: nat, qty: real, reason: ExitReason, full: bool, q: Quote,
                            initial: real, marks: PE.Marks)
    requires PE.Distinct(marks) && AllAgree(b, initial, marks)
    requires Allowed(b, CloseOp(i, qty, reason, full, q))
    ensures Gap(Close(f, b, i, qty, reason, full, q), initial, marks) == Gap(b, initial, marks)
  {
    ActiveIsLatest(b, i);
    hide AllAgree, Gap, PE.Execute, Replaced;
    CloseAgrees(f, b, i, qty, reason, full, q, initial, marks);
    GapIsReplaced(b, initial, marks);
    var b1 := Close(f, b, i, qty, reason, full, q);
    GapIsReplaced(b1, initial, marks);
    assert b1.positions == b.positions[i := b1.positions[i]];
    assert b1.positions[i].plan == b.positions[i].plan;
    ReplacedUpdate(b.positions, i, b1.positions[i]);
  }

  const LONG_ONE := PositionState(
    Plan("S", Long, true, 0.0, None, None, 0.0, None, None, None, None, None),
    Pending, None, Book(1.0, 0.0, 0.0), Path(None, None, 0, None), Trail(None, false, false),
    Runner(false, None, None, None, None), Scout(NoScout, None, None, 0))

  const NO_COST := PE.Fees(0.0, 0.0)

  function At(price: real): Quote {
    Quote(price, price)
  }

  const BUY_100 := OpenOp(LONG_ONE, At(100.0))
  const SELL_90 := CloseOp(0, 1.0, ManualClose, true, At(90.0))
  const BUY_90 := OpenOp(LONG_ONE, At(90.0))

  const LOST := Opened(LONG_ONE, PE.Fill(100.0, 0.0, 0.0)).(
                  status := Closed, exitReason := Some(ManualClose), book := Book(0.0, -10.0, 0.0))

  const AFTER_BUY := Books(PE.Engine(1000.0, map["S" := PE.Net(1.0, 100.0)]),
                           [Opened(LONG_ONE, PE.Fill(100.0, 0.0, 0.0))])
  const AFTER_SELL := Books(PE.Engine(990.0, map["S" := PE.FLAT]), [LOST])
  const AFTER_AGAIN := Books(PE.Engine(990.0, map["S" := PE.Net(1.0, 90.0)]),
                             [LOST, Opened(LONG_ONE, PE.Fill(90.0, 0.0, 0.0))])

  lemma LosingTrade()
    ensures Open(NO_COST, Start(1000.0), LONG_ONE, At(100.0)) == AFTER_BUY
    ensures Close(NO_COST, AFTER_BUY, 0, 1.0, ManualClose, true, At(90.0)) == AFTER_SELL
    ensures Open(NO_COST, AFTER_SELL, LONG_ONE, At(90.0)) == AFTER_AGAIN
  {
    LosingBuy();
    LosingSell();
    LosingAgain();
  }

  lemma LosingBuy()
    ensures Open(NO_COST, Start(1000.0), LONG_ONE, At(100.0)) == AFTER_BUY
  {
    OpenFill(LONG_ONE, 100.0);
  }

  lemma LosingSell()
    ensures Close(NO_COST, AFTER_BUY, 0, 1.0, ManualClose, true, At(90.0)) == AFTER_SELL
  {
    assert map["S" := PE.Net(1.0, 100.0)]["S" := PE.FLAT] == map["S" := PE.FLAT];
    assert PE.ApplyFill(PE.Net(1.0, 100.0), PE.Sell, 1.0, 90.0) == (PE.FLAT, -10.0);
  }

  lemma LosingAgain()
    ensures Open(NO_COST, AFTER_SELL, LONG_ONE, At(90.0)) == AFTER_AGAIN
  {
    OpenFill(LONG_ONE, 90.0);
    assert map["S" := PE.FLAT]["S" := PE.Net(1.0, 90.0)] == map["S" := PE.Net(1.0, 90.0)];
  }

  /** Buy at 100, sell at 90, buy again: the account is down 10 while the registry,
      which forgot the first trade, reports nothing lost. */
  lemma RegistryForgetsLosses()
    ensures var ops := [BUY_100, SELL_90, BUY_90];
            && AllAllowed(NO_COST, Start(1000.0), ops)
            && var b := Run(NO_COST, Start(1000.0), ops);
               && PE.Equity(b.engine, [("S", 90.0)]) == 990.0
               && Pnl.NetPnl(Registry(b.positions), [("S", 90.0)], 0.0) == 0.0
  {
    hide Open, Close;
    LosingTrade();
    var ops := [BUY_100, SELL_90, BUY_90];
    assert ops[1..] == [SELL_90, BUY_90] && ops[1..][1..] == [BUY_90];
    assert ops[1..][1..][1..] == [];
    assert !HasActive(Start(1000.0), "S") && !HasActive(AFTER_SELL, "S");
    assert Step(NO_COST, Start(1000.0), BUY_100) == AFTER_BUY;
    assert Step(NO_COST, AFTER_BUY, SELL_90) == AFTER_SELL;
    assert Step(NO_COST, AFTER_SELL, BUY_90) == AFTER_AGAIN;
    assert AllAllowed(NO_COST, AFTER_SELL, [BUY_90]);
    assert Run(NO_COST, AFTER_SELL, [BUY_90]) == AFTER_AGAIN;
    assert AllAllowed(NO_COST, AFTER_BUY, [SELL_90, BUY_90]);
    assert Run(NO_COST, AFTER_BUY, [SELL_90, BUY_90]) == AFTER_AGAIN;
    assert AllAllowed(NO_COST, Start(1000.0), ops);
    AgainPnl();
  }

  lemma AgainPnl()
    ensures PE.Equity(AFTER_AGAIN.engine, [("S", 90.0)]) == 990.0
    ensures Pnl.NetPnl(Registry(AFTER_AGAIN.positions), [("S", 90.0)], 0.0) == 0.0
  {
    var p := Opened(LONG_ONE, PE.Fill(90.0, 0.0, 0.0));
    var ps := AFTER_AGAIN.positions;
    assert ps[1..] == [p] && ps[1..][0].plan.symbol == "S";
    assert [p][1..] == [];
    assert Registry([p]) == [p];
    assert Registry(ps) == [p];
    assert [("S", 90.0)][1..] == [];
    assert Pnl.OpenProfit(p, [("S", 90.0)]) == 0.0;
    assert Pnl.Unrealized([p], [("S", 90.0)]) == 0.0;
    assert Pnl.Realized([p]) == 0.0 && Pnl.Fees([p]) == 0.0;
  }
}
