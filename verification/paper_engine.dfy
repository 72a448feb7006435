/** The virtual market-fill engine: average-cost positions per symbol, a cash
    balance, and the identity between them and the fills that produced them. */
module PaperEngine {
  import opened Common
  import opened RealFacts

  datatype OrderSide = Buy | Sell

  /** Signed size and average price; size 0 is flat. */
  datatype Net = Net(size: real, avg: real)

  const FLAT := Net(0.0, 0.0)

  function Sign(x: real): int {
    if x > 0.0 then 1 else if x < 0.0 then -1 else 0
  }

  function Signed(side: OrderSide, qty: real): real {
    if side == Buy then qty else -qty
  }

  function NextAverage(cur: Net, newSize: real, qty: real, price: real): real {
    if newSize == 0.0 then 0.0
    else if cur.size != 0.0 && Sign(newSize) == Sign(cur.size) then
      if Abs(newSize) > Abs(cur.size) then
        (cur.avg * Abs(cur.size) + price * qty) / Abs(newSize)
      else cur.avg
    else price
  }

  function RealizedByFill(cur: Net, signed: real, qty: real, price: real): real {
    if cur.size != 0.0 && Sign(signed) != Sign(cur.size) then
      (price - cur.avg) * Min(qty, Abs(cur.size)) * (if cur.size > 0.0 then 1.0 else -1.0)
    else 0.0
  }

  /** PaperExecutionEngine._apply on one symbol: the new net and the realized profit. */
  function ApplyFill(cur: Net, side: OrderSide, qty: real, price: real): (r: (Net, real)) {
    var signed := Signed(side, qty);
    var newSize := cur.size + signed;
    (Net(newSize, NextAverage(cur, newSize, qty, price)),
     RealizedByFill(cur, signed, qty, price))
  }

  /** Mark-to-market value of a net position. */
  function Unrealized(n: Net, mark: real): real {
    (mark - n.avg) * n.size
  }

  // ---- one fill conserves money at any mark ----

  lemma IncreaseConserves(s: real, a: real, q: real, p: real, m: real, dir: real)
    requires s > 0.0 && q > 0.0
    ensures (m - (a * s + p * q) / (s + q)) * ((s + q) * dir)
            == (m - a) * (s * dir) + q * dir * (m - p)
  {
    var t := s + q;
    var avg := (a * s + p * q) / t;
    DivideMultiply(a * s + p * q, t);
    assert (m - avg) * t == m * t - avg * t;
    assert (m - avg) * t == (m - a) * s + q * (m - p);
    Associate(m - avg, t, dir);
    Distribute((m - a) * s, q * (m - p), dir);
    Associate(m - a, s, dir);
  }

  lemma Distribute(x: real, y: real, d: real)
    ensures (x + y) * d == x * d + y * d
  {
  }

  lemma LinearConserves(size: real, avg: real, signed: real, p: real, m: real)
    ensures (p - avg) * (-signed) + (m - avg) * (size + signed)
            == (m - avg) * size + signed * (m - p)
  {
  }

  lemma CrossConserves(size: real, avg: real, signed: real, p: real, m: real)
    ensures (p - avg) * size + (m - p) * (size + signed)
            == (m - avg) * size + signed * (m - p)
  {
  }

  /** The identity one fill must satisfy at a mark. */
  ghost predicate Conserves(cur: Net, side: OrderSide, qty: real, price: real, mark: real) {
    var (n, realized) := ApplyFill(cur, side, qty, price);
    realized + Unrealized(n, mark) == Unrealized(cur, mark) + Signed(side, qty) * (mark - price)
  }

  lemma SameSideConserves(cur: Net, side: OrderSide, qty: real, price: real, mark: real)
    requires cur.size != 0.0 && qty > 0.0 && Sign(Signed(side, qty)) == Sign(cur.size)
    ensures Conserves(cur, side, qty, price, mark)
  {
    var dir := if cur.size > 0.0 then 1.0 else -1.0;
    IncreaseConserves(Abs(cur.size), cur.avg, qty, price, mark, dir);
    assert Abs(cur.size) * dir == cur.size && qty * dir == Signed(side, qty);
    assert (Abs(cur.size) + qty) * dir == cur.size + Signed(side, qty);
  }

  lemma ReduceConserves(cur: Net, side: OrderSide, qty: real, price: real, mark: real)
    requires cur.size != 0.0 && 0.0 < qty <= Abs(cur.size)
    requires Sign(Signed(side, qty)) != Sign(cur.size)
    ensures Conserves(cur, side, qty, price, mark)
  {
    var signed := Signed(side, qty);
    var dir := if cur.size > 0.0 then 1.0 else -1.0;
    LinearConserves(cur.size, cur.avg, signed, price, mark);
    Associate(price - cur.avg, qty, dir);
    assert qty * dir == -signed;
  }

  lemma CrossingConserves(cur: Net, side: OrderSide, qty: real, price: real, mark: real)
    requires cur.size != 0.0 && qty > Abs(cur.size)
    requires Sign(Signed(side, qty)) != Sign(cur.size)
    ensures Conserves(cur, side, qty, price, mark)
  {
    var dir := if cur.size > 0.0 then 1.0 else -1.0;
    CrossConserves(cur.size, cur.avg, Signed(side, qty), price, mark);
    Associate(price - cur.avg, Abs(cur.size), dir);
    assert Abs(cur.size) * dir == cur.size;
  }

  /** Adding, reducing, flattening and crossing through zero all conserve money. */
  lemma FillConserves(cur: Net, side: OrderSide, qty: real, price: real, mark: real)
    requires qty >= 0.0
    ensures Conserves(cur, side, qty, price, mark)
  {
    if cur.size == 0.0 {
      CrossConserves(0.0, cur.avg, Signed(side, qty), price, mark);
    } else if qty == 0.0 {
      assert RealizedByFill(cur, Signed(side, qty), qty, price) == 0.0;
    } else if Sign(Signed(side, qty)) == Sign(cur.size) {
      SameSideConserves(cur, side, qty, price, mark);
    } else if qty <= Abs(cur.size) {
      ReduceConserves(cur, side, qty, price, mark);
    } else {
      CrossingConserves(cur, side, qty, price, mark);
    }
  }

  /** Reducing towards flat keeps the average and realizes the closed part. */
  lemma ReduceKeepsAverage(cur: Net, side: OrderSide, qty: real, price: real)
    requires cur.size != 0.0 && 0.0 < qty <= Abs(cur.size)
    requires side == (if cur.size > 0.0 then Sell else Buy)
    ensures var (n, realized) := ApplyFill(cur, side, qty, price);
            && Abs(n.size) == Abs(cur.size) - qty
            && n == (if qty == Abs(cur.size) then FLAT else Net(n.size, cur.avg))
            && realized == (price - cur.avg) * qty * (if cur.size > 0.0 then 1.0 else -1.0)
  {
  }

  /** Opening and adding realize nothing; crossing through zero realizes all that was held and
      starts again at the fill's price. */
  lemma CrossingRestarts(cur: Net, side: OrderSide, qty: real, price: real)
    requires qty > 0.0
    ensures var (n, realized) := ApplyFill(cur, side, qty, price);
            && (cur.size == 0.0 ==> n == Net(Signed(side, qty), price))
            && (cur.size * Signed(side, qty) >= 0.0 ==> realized == 0.0)
            && (cur.size * Signed(side, qty) < 0.0 && qty > Abs(cur.size) ==>
                  n.avg == price && realized == (price - cur.avg) * cur.size)
  {
    SameSign(cur.size, Signed(side, qty));
    var dir := if cur.size > 0.0 then 1.0 else -1.0;
    Associate(price - cur.avg, Abs(cur.size), dir);
    assert Abs(cur.size) * dir == cur.size;
  }

  lemma SameSign(a: real, b: real)
    requires b != 0.0
    ensures a * b >= 0.0 <==> a == 0.0 || Sign(a) == Sign(b)
  {
    if a > 0.0 && b > 0.0 {
      ProductPositive(a, b);
    } else if a < 0.0 && b < 0.0 {
      ProductPositive(-a, -b);
    } else if a > 0.0 && b < 0.0 {
      ProductPositive(a, -b);
    } else if a < 0.0 && b > 0.0 {
      ProductPositive(-a, b);
    }
  }

  // ---- the engine ----

  datatype Fees = Fees(slippage: real, feePct: real)

  datatype Engine = Engine(balance: real, net: map<string, Net>)

  datatype Fill = Fill(price: real, fee: real, realized: real)

  datatype Order = Order(symbol: string, side: OrderSide, qty: real, bid: real, ask: real)

  function NetOf(net: map<string, Net>, symbol: string): Net {
    if symbol in net then net[symbol] else FLAT
  }

  function FillPrice(f: Fees, o: Order): real {
    if o.side == Buy then o.ask * (1.0 + f.slippage / 100.0)
    else o.bid * (1.0 - f.slippage / 100.0)
  }

  function FeeOf(f: Fees, o: Order): real {
    FillPrice(f, o) * o.qty * f.feePct / 100.0
  }

  /** PaperExecutionEngine.execute_market. */
  function Execute(f: Fees, e: Engine, o: Order): (r: (Engine, Fill)) {
    var price := FillPrice(f, o);
    var (n, realized) := ApplyFill(NetOf(e.net, o.symbol), o.side, o.qty, price);
    (Engine(e.balance + (realized - FeeOf(f, o)), e.net[o.symbol := n]),
     Fill(price, FeeOf(f, o), realized))
  }

  // ---- marks and the wallet ----

  /** mark_prices.items(): symbols with their marks, each symbol once. */
  type Marks = seq<(string, real)>

  predicate Distinct(marks: Marks) {
    forall i, j :: 0 <= i < j < |marks| ==> marks[i].0 != marks[j].0
  }

  function MarkOf(marks: Marks, symbol: string): Option<real> {
    if marks == [] then None
    else if marks[0].0 == symbol then Some(marks[0].1)
    else MarkOf(marks[1..], symbol)
  }

  function UnrealizedAt(net: map<string, Net>, marks: Marks): real {
    if marks == [] then 0.0
    else Unrealized(NetOf(net, marks[0].0), marks[0].1) + UnrealizedAt(net, marks[1..])
  }

  function Equity(e: Engine, marks: Marks): real {
    e.balance + UnrealizedAt(e.net, marks)
  }

  /** What one net is worth under the marks; nothing when it is not marked. */
  function MarkedValue(n: Net, mark: Option<real>): real {
    match mark
    case Some(m) => Unrealized(n, m)
    case None => 0.0
  }

  lemma {:induction false} MarkMissing(net: map<string, Net>, marks: Marks, symbol: string, n: Net)
    requires forall i :: 0 <= i < |marks| ==> marks[i].0 != symbol
    ensures UnrealizedAt(net[symbol := n], marks) == UnrealizedAt(net, marks)
    ensures MarkOf(marks, symbol) == None
  {
    if marks != [] {
      assert marks[0].0 != symbol;
      MarkMissing(net, marks[1..], symbol, n);
    }
  }

  /** Changing one symbol's net changes the total by that symbol's value. */
  lemma {:induction false} UnrealizedUpdate(net: map<string, Net>, marks: Marks, symbol: string,
                                            n: Net)
    requires Distinct(marks)
    ensures UnrealizedAt(net[symbol := n], marks)
            == UnrealizedAt(net, marks) - MarkedValue(NetOf(net, symbol), MarkOf(marks, symbol))
               + MarkedValue(n, MarkOf(marks, symbol))
  {
    if marks != [] {
      if marks[0].0 == symbol {
        MarkMissing(net, marks[1..], symbol, n);
      } else {
        UnrealizedUpdate(net, marks[1..], symbol, n);
      }
    }
  }

  // ---- the ledger over any sequence of fills ----

  function RunOrders(f: Fees, e: Engine, orders: seq<Order>): Engine
    decreases |orders|
  {
    if orders == [] then e else RunOrders(f, Execute(f, e, orders[0]).0, orders[1..])
  }

  /** The fills the orders get, one each. */
  function FillsOf(f: Fees, e: Engine, orders: seq<Order>): seq<Fill>
    decreases |orders|
  {
    if orders == [] then []
    else [Execute(f, e, orders[0]).1] + FillsOf(f, Execute(f, e, orders[0]).0, orders[1..])
  }

  /** A market fill: the slippage percentage worse than the side of the book it meets, and a
      fee of the fee percentage of its value. */
  predicate IsMarketFill(f: Fees, o: Order, fill: Fill) {
    && (match o.side
        case Buy => (fill.price - o.ask) * 100.0 == o.ask * f.slippage
        case Sell => (o.bid - fill.price) * 100.0 == o.bid * f.slippage)
    && fill.fee * 100.0 == fill.price * o.qty * f.feePct
  }

  lemma FillLaw(f: Fees, e: Engine, o: Order)
    ensures IsMarketFill(f, o, Execute(f, e, o).1)
  {
    hide ApplyFill;
    var price := FillPrice(f, o);
    assert FeeOf(f, o) * 100.0 == price * o.qty * f.feePct;
    assert o.ask * (1.0 + f.slippage / 100.0) == o.ask + o.ask * f.slippage / 100.0;
    assert o.bid * (1.0 - f.slippage / 100.0) == o.bid - o.bid * f.slippage / 100.0;
  }

  /** What a fill earns from its price to its symbol's mark, before fees. */
  function FillProfit(o: Order, fill: Fill, marks: Marks): real {
    Signed(o.side, o.qty) * (MarkOf(marks, o.symbol).GetOr(0.0) - fill.price)
  }

  function TotalProfit(orders: seq<Order>, fills: seq<Fill>, marks: Marks): real
    requires |orders| == |fills|
  {
    if orders == [] then 0.0
    else FillProfit(orders[0], fills[0], marks) + TotalProfit(orders[1..], fills[1..], marks)
  }

  function TotalFees(fills: seq<Fill>): real {
    if fills == [] then 0.0 else fills[0].fee + TotalFees(fills[1..])
  }

  lemma ExecuteConserves(f: Fees, e: Engine, o: Order, marks: Marks)
    requires Distinct(marks) && o.qty >= 0.0 && MarkOf(marks, o.symbol).Some?
    ensures var (e1, fill) := Execute(f, e, o);
            Equity(e1, marks) == Equity(e, marks) + FillProfit(o, fill, marks) - fill.fee
  {
    hide ApplyFill, Unrealized, FillPrice, FeeOf;
    var cur := NetOf(e.net, o.symbol);
    var mark := MarkOf(marks, o.symbol).value;
    var (n, realized) := ApplyFill(cur, o.side, o.qty, FillPrice(f, o));
    FillConserves(cur, o.side, o.qty, FillPrice(f, o), mark);
    UnrealizedUpdate(e.net, marks, o.symbol, n);
  }

  /** Every order gets one fill, at the book and fee percentages. */
  ghost predicate AreMarketFills(f: Fees, orders: seq<Order>, fills: seq<Fill>) {
    |fills| == |orders| && forall i :: 0 <= i < |orders| ==> IsMarketFill(f, orders[i], fills[i])
  }

  /** For any fills that add, reduce or cross through zero, on any symbols, every order is
      filled at its market price and fee, and equity is what every signed quantity earned
      from its fill price to the mark, minus the fees. */
  lemma {:induction false} LedgerTheorem(f: Fees, e: Engine, orders: seq<Order>, marks: Marks)
    requires Distinct(marks)
    requires forall i :: 0 <= i < |orders| ==>
               orders[i].qty >= 0.0 && MarkOf(marks, orders[i].symbol).Some?
    ensures var fills := FillsOf(f, e, orders);
            && AreMarketFills(f, orders, fills)
            && Equity(RunOrders(f, e, orders), marks)
               == Equity(e, marks) + TotalProfit(orders, fills, marks) - TotalFees(fills)
    decreases |orders|
  {
    if orders != [] {
      hide Execute, Equity, FillProfit, IsMarketFill;
      FillLaw(f, e, orders[0]);
      ExecuteConserves(f, e, orders[0], marks);
      LedgerTheorem(f, Execute(f, e, orders[0]).0, orders[1..], marks);
      assert FillsOf(f, e, orders)[1..] == FillsOf(f, Execute(f, e, orders[0]).0, orders[1..]);
    }
  }

  /** From a fresh engine, equity is the initial balance plus that sum minus fees. */
  lemma LedgerFromStart(f: Fees, balance: real, orders: seq<Order>, marks: Marks)
    requires Distinct(marks)
    requires forall i :: 0 <= i < |orders| ==>
               orders[i].qty >= 0.0 && MarkOf(marks, orders[i].symbol).Some?
    ensures var fills := FillsOf(f, Engine(balance, map[]), orders);
            && AreMarketFills(f, orders, fills)
            && Equity(RunOrders(f, Engine(balance, map[]), orders), marks)
               == balance + TotalProfit(orders, fills, marks) - TotalFees(fills)
  {
    LedgerTheorem(f, Engine(balance, map[]), orders, marks);
    NothingUnrealized(marks);
  }

  lemma {:induction false} NothingUnrealized(marks: Marks)
    ensures UnrealizedAt(map[], marks) == 0.0
  {
    if marks != [] {
      NothingUnrealized(marks[1..]);
    }
  }

  // ---- the object ----

  class PaperExecutionEngine {
    var slippage: real
    var feePct: real
    var balance: real
    var net: map<string, Net>

    constructor (slippage: real, feePct: real, initialBalance: real)
      ensures Settings() == Fees(slippage, feePct)
      ensures Value() == Engine(initialBalance, map[])
    {
      this.slippage, this.feePct := slippage, feePct;
      balance, net := initialBalance, map[];
    }

    function Settings(): Fees
      reads this
    {
      Fees(slippage, feePct)
    }

    function Value(): Engine
      reads this
    {
      Engine(balance, net)
    }

    method ApplyTo(symbol: string, side: OrderSide, qty: real, price: real)
      returns (realized: real)
      modifies this`net
      ensures (NetOf(net, symbol), realized)
              == ApplyFill(NetOf(old(net), symbol), side, qty, price)
      ensures net == old(net)[symbol := NetOf(net, symbol)]
    {
      var signed := if side == Buy then qty else -qty;
      var cur := if symbol in net then net[symbol] else FLAT;
      var newSize := cur.size + signed;
      realized := RealizedByFill(cur, signed, qty, price);
      var avg := NextAverage(cur, newSize, qty, price);
      net := net[symbol := Net(newSize, avg)];
    }

    method ExecuteMarket(o: Order) returns (fill: Fill)
      modifies this`net, this`balance
      ensures (Value(), fill) == Execute(Settings(), old(Value()), o)
    {
      hide ApplyFill;
      var price := FillPrice(Settings(), o);
      var fee := FeeOf(Settings(), o);
      var realized := ApplyTo(o.symbol, o.side, o.qty, price);
      balance := balance + (realized - fee);
      fill := Fill(price, fee, realized);
    }

    method Wallet(marks: Marks) returns (equity: real)
      ensures equity == Equity(Value(), marks)
    {
      var upnl := 0.0;
      var i := 0;
      while i < |marks|
        invariant 0 <= i <= |marks|
        invariant upnl + UnrealizedAt(net, marks[i..]) == UnrealizedAt(net, marks)
      {
        upnl := upnl + Unrealized(NetOf(net, marks[i].0), marks[i].1);
        i := i + 1;
      }
      equity := balance + upnl;
    }
  }
}
