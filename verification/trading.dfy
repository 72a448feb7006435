/** TradingService.manage, _close and close_position as functions on values.
    The executor is an oracle: each closing order is answered by an outcome. */
module Trading {
  import opened Common
  import opened PositionModel
  import opened Management

  /** What the executor reports for one closing order. `realized` is set by the
      paper engine only; AlreadyFlat is the exchange's position-is-zero error. */
  datatype CloseOutcome =
    | Filled(price: real, qty: real, fee: real, realized: Option<real>)
    | AlreadyFlat

  datatype Quote = Quote(bid: real, ask: real)

  function RealizedBy(p: PositionState, o: CloseOutcome): real
    requires o.Filled?
  {
    if o.realized.Some? then o.realized.value
    else (o.price - p.plan.entry) * o.qty * Direction(p.plan.side)
  }

  function FlatExitPrice(p: PositionState, q: Quote): real {
    if p.trail.stop.Some? then p.trail.stop.value else if p.plan.side == Long then q.bid else q.ask
  }

  function FlatRealized(p: PositionState, q: Quote): real {
    (FlatExitPrice(p, q) - p.plan.entry) * p.book.qty * Direction(p.plan.side)
  }

  /** The effect of an executor outcome on the position. */
  function ApplyClose(p: PositionState, o: CloseOutcome, reason: ExitReason, full: bool, q: Quote)
    : PositionState
  {
    if p.status == Closed then p
    else match o
      case AlreadyFlat =>
        p.(book := Book(0.0, p.book.realizedPnl + FlatRealized(p, q), p.book.feesPaid),
           status := Closed, exitReason := Some(reason))
      case Filled(_, qty, fee, _) =>
        if qty <= 0.0 then p
        else
          var p1 := p.(book := Book(p.book.qty - qty, p.book.realizedPnl + RealizedBy(p, o),
                                    p.book.feesPaid + fee));
          if full || p1.book.qty <= 0.0 then p1.(status := Closed, exitReason := Some(reason)) else p1
  }

  /** The quantity an outcome takes off the position. */
  function ClosedQty(p: PositionState, o: CloseOutcome): real {
    if p.status == Closed then 0.0
    else match o
      case AlreadyFlat => p.book.qty
      case Filled(_, qty, _, _) => if qty <= 0.0 then 0.0 else qty
  }

  // ---- one management cycle ----

  /** The inputs of one cycle: market data, the funding guard's verdict and the
      executor's answers to the funding reduction and to the closing action. */
  datatype Cycle = Cycle(tick: Tick, quote: Quote, fundingReduce: bool,
                         fundingOutcome: CloseOutcome, outcome: CloseOutcome)

  function SetStop(l: Life, newStop: real): Life {
    l.(pos := l.pos.(trail := l.pos.trail.(stop := Some(newStop))))
  }

  function ApplyAction(cfg: Config, l: Life, a: Action, s: Cycle): (r: (Life, seq<Action>)) {
    match a
    case Exit(_, reason) =>
      (l.(pos := ApplyClose(l.pos, s.outcome, reason, true, s.quote)), [])
    case Reduce(_, reason, _) =>
      (l.(pos := ApplyClose(l.pos, s.outcome, reason, false, s.quote)), [])
    case PartialTp(_) =>
      var l1 := l.(pos := ApplyClose(l.pos, s.outcome, PartialTakeProfit, false, s.quote));
      if l1.pos.status != Closed && l1.pos.book.qty < l.pos.book.qty then ActivateRunner(cfg, l1, s.tick)
      else (l1, [])
    case TrailUpdate(newStop) => (SetStop(l, newStop), [])
    case Event(_, _) => (l, [])
    case FundingReduce(_) => (l, [])
  }

  function ApplyActions(cfg: Config, l: Life, actions: seq<Action>, s: Cycle)
    : (r: (Life, seq<Action>))
    decreases |actions|
  {
    if actions == [] then (l, [])
    else
      var (l1, extra) := ApplyAction(cfg, l, actions[0], s);
      var (l2, more) := ApplyActions(cfg, l1, actions[1..], s);
      (l2, extra + more)
  }

  /** The position after the funding guard's reduction, when it asks for one. */
  function AfterFunding(l: Life, s: Cycle): Life {
    if s.fundingReduce then
      l.(pos := ApplyClose(l.pos, s.fundingOutcome, FundingGuard, false, s.quote))
    else l
  }

  function FundingActions(l: Life, s: Cycle): seq<Action> {
    if s.fundingReduce then [FundingReduce(Portion(l.pos.book.qty, 0.5))] else []
  }

  function Manage(cfg: Config, l: Life, s: Cycle): (r: (Life, seq<Action>)) {
    if !Managed(l.pos) then (l, [])
    else
      var l0 := AfterFunding(l, s);
      if s.fundingReduce && l0.pos.book.qty <= 0.0 then (l0, FundingActions(l, s))
      else
        var (l2, actions) := EvaluateAndApply(cfg, l0, s);
        (l2, FundingActions(l, s) + actions)
  }

  function EvaluateAndApply(cfg: Config, l: Life, s: Cycle): (r: (Life, seq<Action>)) {
    var (l1, actions) := Evaluate(cfg, l, s.tick);
    var (l2, extra) := ApplyActions(cfg, l1, actions, s);
    (l2, actions + extra)
  }

  // ---- operator close ----

  datatype CloseCommand = CloseCommand(percent: real, reason: ExitReason, outcome: CloseOutcome,
                                       quote: Quote)

  function CommandQty(p: PositionState, c: CloseCommand): real {
    p.book.qty * Min(100.0, Max(0.0, c.percent)) / 100.0
  }

  predicate CommandRuns(p: PositionState, c: CloseCommand) {
    p.plan.botManaged && (p.status == Active || p.status == Pending)
    && Min(100.0, Max(0.0, c.percent)) > 0.0 && CommandQty(p, c) > 0.0
  }

  function ClosePosition(p: PositionState, c: CloseCommand): PositionState {
    if CommandRuns(p, c) then
      ApplyClose(p, c.outcome, c.reason, CommandQty(p, c) >= p.book.qty, c.quote)
    else p
  }

  // ---- runs ----

  datatype Step = ManageStep(cycle: Cycle) | CommandStep(command: CloseCommand)

  function Next(cfg: Config, l: Life, s: Step): (r: (Life, seq<Action>)) {
    match s
    case ManageStep(cycle) => Manage(cfg, l, cycle)
    case CommandStep(command) => (l.(pos := ClosePosition(l.pos, command)), [])
  }

  function Run(cfg: Config, l: Life, steps: seq<Step>): Life
    decreases |steps|
  {
    if steps == [] then l else Run(cfg, Next(cfg, l, steps[0]).0, steps[1..])
  }

  /** Every action emitted along a run, in order. */
  function Log(cfg: Config, l: Life, steps: seq<Step>): seq<Action>
    decreases |steps|
  {
    if steps == [] then []
    else Next(cfg, l, steps[0]).1 + Log(cfg, Next(cfg, l, steps[0]).0, steps[1..])
  }

  /** Running a prefix and then the rest is running the whole. */
  lemma {:induction false} RunSplit(cfg: Config, l: Life, a: seq<Step>, b: seq<Step>)
    ensures Run(cfg, l, a + b) == Run(cfg, Run(cfg, l, a), b)
    decreases |a|
  {
    if a == [] {
      assert a + b == b;
    } else {
      assert (a + b)[1..] == a[1..] + b;
      RunSplit(cfg, Next(cfg, l, a[0]).0, a[1..], b);
    }
  }
}
