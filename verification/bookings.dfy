/** What a lifetime books: the money of a position over any run, summed up from the answers
    to its closing orders. */
module Bookings {
  import opened Common
  import opened RealFacts
  import opened PositionModel
  import opened Management
  import opened Trading
  import opened Lifecycle
  import opened Requests
  import opened Exits
  import opened History

  /** One answered closing order: the plan, the stop and the quantity it met, and the answer. */
  datatype Answer = Answer(plan: Plan, stop: Option<real>, held: real, outcome: CloseOutcome, quote: Quote)

  function AnswerFor(p: PositionState, o: CloseOutcome, q: Quote): Answer {
    Answer(p.plan, p.trail.stop, p.book.qty, o, q)
  }

  /** The answers a step brings, in order. */
  function AnswersIn(cfg: Config, l: Life, s: Step): seq<Answer> {
    match s
    case CommandStep(c) => if CommandRuns(l.pos, c) then [AnswerFor(l.pos, c.outcome, c.quote)] else []
    case ManageStep(c) =>
      if !Managed(l.pos) then []
      else
        (if c.fundingReduce then [AnswerFor(l.pos, c.fundingOutcome, c.quote)] else [])
        + if Evaluated(l, c) then ManagedAnswers(cfg, AfterFunding(l, c), c) else []
  }

  function ManagedAnswers(cfg: Config, l: Life, c: Cycle): seq<Answer> {
    var (l1, actions) := Evaluate(cfg, l, c.tick);
    if actions != [] && actions[|actions| - 1].ChangesQty() then [AnswerFor(l1.pos, c.outcome, c.quote)] else []
  }

  function Answers(cfg: Config, l: Life, steps: seq<Step>): seq<Answer>
    decreases |steps|
  {
    if steps == [] then [] else AnswersIn(cfg, l, steps[0]) + Answers(cfg, Next(cfg, l, steps[0]).0, steps[1..])
  }

  // ---- what one answer is worth ----

  /** The quantity an answer takes off: what was held when the exchange is already flat,
      otherwise what was filled, if anything. */
  function Taken(a: Answer): real {
    match a.outcome
    case AlreadyFlat => a.held
    case Filled(_, qty, _, _) => if qty > 0.0 then qty else 0.0
  }

  /** The price it is booked at: the fill's, or on a flat exchange the stop, and without one
      the side of the quote the exit would have met. */
  function PriceOf(a: Answer): real {
    match a.outcome
    case Filled(price, _, _, _) => price
    case AlreadyFlat =>
      match a.stop
      case Some(stop) => stop
      case None => (match a.plan.side case Long => a.quote.bid case Short => a.quote.ask)
  }

  /** The executor says itself what the fill realized. */
  predicate Reported(a: Answer) {
    a.outcome.Filled? && a.outcome.realized.Some?
  }

  /** The money a quantity wins for a side between two prices. */
  function Won(side: Side, from: real, to: real, qty: real): real {
    match side
    case Long => (to - from) * qty
    case Short => (from - to) * qty
  }

  function Income(a: Answer): real {
    match a.outcome
    case AlreadyFlat => Won(a.plan.side, a.plan.entry, PriceOf(a), a.held)
    case Filled(price, qty, _, reported) =>
      if qty <= 0.0 then 0.0 else reported.GetOr(Won(a.plan.side, a.plan.entry, price, qty))
  }

  function FeeOf(a: Answer): real {
    if a.outcome.Filled? && a.outcome.qty > 0.0 then a.outcome.fee else 0.0
  }

  function TotalTaken(answers: seq<Answer>): real {
    if answers == [] then 0.0 else Taken(answers[0]) + TotalTaken(answers[1..])
  }

  function TotalIncome(answers: seq<Answer>): real {
    if answers == [] then 0.0 else Income(answers[0]) + TotalIncome(answers[1..])
  }

  function TotalFees(answers: seq<Answer>): real {
    if answers == [] then 0.0 else FeeOf(answers[0]) + TotalFees(answers[1..])
  }

  /** The book after the answers. */
  function Booked(b: Book, answers: seq<Answer>): Book {
    Book(b.qty - TotalTaken(answers), b.realizedPnl + TotalIncome(answers), b.feesPaid + TotalFees(answers))
  }

  lemma {:induction false} TotalsConcat(a: seq<Answer>, b: seq<Answer>)
    ensures TotalTaken(a + b) == TotalTaken(a) + TotalTaken(b)
    ensures TotalIncome(a + b) == TotalIncome(a) + TotalIncome(b)
    ensures TotalFees(a + b) == TotalFees(a) + TotalFees(b)
  {
    if a == [] {
      assert a + b == b;
    } else {
      assert (a + b)[1..] == a[1..] + b;
      TotalsConcat(a[1..], b);
    }
  }

  lemma BookedConcat(book: Book, a: seq<Answer>, b: seq<Answer>)
    ensures Booked(book, a + b) == Booked(Booked(book, a), b)
  {
    TotalsConcat(a, b);
  }

  // ---- one step ----

  lemma OneBooked(b: Book, a: Answer)
    ensures Booked(b, [a]) == Book(b.qty - Taken(a), b.realizedPnl + Income(a), b.feesPaid + FeeOf(a))
  {
    hide Taken, Income, FeeOf;
    assert [a][1..] == [];
    assert TotalTaken([a]) == Taken(a) + TotalTaken([]);
    assert TotalIncome([a]) == Income(a) + TotalIncome([]);
    assert TotalFees([a]) == FeeOf(a) + TotalFees([]);
  }

  lemma CloseBooks(p: PositionState, o: CloseOutcome, reason: ExitReason, full: bool, q: Quote)
    requires p.status != Closed
    ensures ApplyClose(p, o, reason, full, q).book == Booked(p.book, [AnswerFor(p, o, q)])
  {
    var a := AnswerFor(p, o, q);
    OneBooked(p.book, a);
    if o.AlreadyFlat? {
      SideProduct(p.plan.side, p.plan.entry, PriceOf(a), p.book.qty);
    } else {
      SideProduct(p.plan.side, p.plan.entry, o.price, o.qty);
    }
    hide Booked, Won, Direction;
  }

  /** An answer settles the position exactly when the exchange is flat, or something was filled
      and it was to be all or is all that was held; the reason is recorded then. */
  lemma CloseSettles(p: PositionState, o: CloseOutcome, reason: ExitReason, full: bool, q: Quote)
    requires p.status != Closed
    ensures var p1 := ApplyClose(p, o, reason, full, q);
            if o.AlreadyFlat? || (o.qty > 0.0 && (full || o.qty >= p.book.qty)) then
              p1.status == Closed && p1.exitReason == Some(reason)
            else p1.status == p.status && p1.exitReason == p.exitReason
  {
    hide RealizedBy, FlatRealized;
  }

  lemma SideProduct(side: Side, from: real, to: real, qty: real)
    ensures Won(side, from, to, qty) == (to - from) * qty * Direction(side)
  {
  }

  lemma ActionBooks(cfg: Config, l: Life, a: Action, c: Cycle)
    requires l.pos.status != Closed
    ensures ApplyAction(cfg, l, a, c).0.pos.book
            == Booked(l.pos.book, if a.ChangesQty() then [AnswerFor(l.pos, c.outcome, c.quote)] else [])
  {
    hide ApplyClose, ActivateRunner;
    match a
    case Exit(_, reason) => CloseBooks(l.pos, c.outcome, reason, true, c.quote);
    case Reduce(_, reason, _) => CloseBooks(l.pos, c.outcome, reason, false, c.quote);
    case PartialTp(_) =>
      CloseBooks(l.pos, c.outcome, PartialTakeProfit, false, c.quote);
      ActivateKeepsMoney(cfg, l.(pos := ApplyClose(l.pos, c.outcome, PartialTakeProfit, false, c.quote)), c.tick);
    case _ =>
  }

  lemma EvaluateLeaves(cfg: Config, l: Life, t: Tick)
    requires Managed(l.pos)
    ensures var p := Evaluate(cfg, l, t).0.pos; p.book == l.pos.book && p.status != Closed
  {
    EvaluateAsks(cfg, l, t);
    hide Evaluate;
  }

  lemma ManagedBooks(cfg: Config, l: Life, c: Cycle)
    requires Managed(l.pos)
    ensures EvaluateAndApply(cfg, l, c).0.pos.book == Booked(l.pos.book, ManagedAnswers(cfg, l, c))
  {
    hide Evaluate, ApplyAction, Booked, EventsThenOne;
    var (l1, actions) := Evaluate(cfg, l, c.tick);
    EvaluateLeaves(cfg, l, c.tick);
    EvaluateShape(cfg, l, c.tick);
    ApplyLast(cfg, l1, actions, c);
    NothingBooked(l.pos.book);
    if actions != [] {
      ActionBooks(cfg, l1, actions[|actions| - 1], c);
    }
  }

  lemma StepBooks(cfg: Config, l: Life, s: Step)
    ensures Next(cfg, l, s).0.pos.book == Booked(l.pos.book, AnswersIn(cfg, l, s))
  {
    hide Evaluate, EvaluateAndApply, ApplyClose, ManagedAnswers, Booked;
    assert Booked(l.pos.book, []) == l.pos.book by { NothingBooked(l.pos.book); }
    match s
    case CommandStep(c) =>
      if CommandRuns(l.pos, c) {
        CloseBooks(l.pos, c.outcome, c.reason, CommandQty(l.pos, c) >= l.pos.book.qty, c.quote);
      }
    case ManageStep(c) =>
      if Managed(l.pos) {
        var l0 := AfterFunding(l, c);
        var first := if c.fundingReduce then [AnswerFor(l.pos, c.fundingOutcome, c.quote)] else [];
        CloseBooks(l.pos, c.fundingOutcome, FundingGuard, false, c.quote);
        assert l0.pos.book == Booked(l.pos.book, first);
        if Evaluated(l, c) {
          FundingHeld(l, c);
          ManagedBooks(cfg, l0, c);
          BookedConcat(l.pos.book, first, ManagedAnswers(cfg, l0, c));
        } else {
          assert first + [] == first;
        }
      }
  }

  lemma NothingBooked(b: Book)
    ensures Booked(b, []) == b
  {
  }

  // ---- runs ----

  /** Over any run the quantity falls by what the answers take, and the realized result and
      the fees grow by what each answer brings: the value the executor reports, or else its
      price against the entry for the quantity it takes. */
  lemma {:induction false} RunBooks(cfg: Config, l: Life, steps: seq<Step>)
    ensures Run(cfg, l, steps).pos.book == Booked(l.pos.book, Answers(cfg, l, steps))
    decreases |steps|
  {
    if steps != [] {
      var l1 := Next(cfg, l, steps[0]).0;
      StepBooks(cfg, l, steps[0]);
      RunBooks(cfg, l1, steps[1..]);
      BookedConcat(l.pos.book, AnswersIn(cfg, l, steps[0]), Answers(cfg, l1, steps[1..]));
      hide Next, AnswersIn, Booked;
    } else {
      NothingBooked(l.pos.book);
    }
  }

  lemma StepKeepsPlan(cfg: Config, l: Life, s: Step)
    ensures Next(cfg, l, s).0.pos.plan == l.pos.plan
  {
    match s
    case CommandStep(c) =>
      ApplyCloseFrame(l.pos, c.outcome, c.reason, CommandQty(l.pos, c) >= l.pos.book.qty, c.quote);
    case ManageStep(c) => CycleKeepsPlan(cfg, l, c);
  }

  lemma StepAnswersPlan(cfg: Config, l: Life, s: Step)
    ensures forall i :: 0 <= i < |AnswersIn(cfg, l, s)| ==> AnswersIn(cfg, l, s)[i].plan == l.pos.plan
  {
    hide Evaluate, ApplyClose;
    if s.ManageStep? && Evaluated(l, s.cycle) {
      FundingHeld(l, s.cycle);
      ApplyCloseFrame(l.pos, s.cycle.fundingOutcome, FundingGuard, false, s.cycle.quote);
      EvaluateAsks(cfg, AfterFunding(l, s.cycle), s.cycle.tick);
    }
  }

  /** Every answer of a run meets the same plan. */
  lemma {:induction false} AnswersPlan(cfg: Config, l: Life, steps: seq<Step>)
    ensures forall i :: 0 <= i < |Answers(cfg, l, steps)| ==> Answers(cfg, l, steps)[i].plan == l.pos.plan
    decreases |steps|
  {
    if steps != [] {
      hide Next, AnswersIn;
      StepKeepsPlan(cfg, l, steps[0]);
      StepAnswersPlan(cfg, l, steps[0]);
      AnswersPlan(cfg, Next(cfg, l, steps[0]).0, steps[1..]);
    }
  }

  /** The money the answers bring against a mark instead of the entry. */
  function AgainstMark(answers: seq<Answer>, mark: real): real {
    if answers == [] then 0.0
    else Won(answers[0].plan.side, mark, PriceOf(answers[0]), Taken(answers[0])) + AgainstMark(answers[1..], mark)
  }

  lemma {:induction false} IncomeAgainst(answers: seq<Answer>, plan: Plan, mark: real)
    requires forall i :: 0 <= i < |answers| ==> answers[i].plan == plan && !Reported(answers[i])
    ensures TotalIncome(answers) == AgainstMark(answers, mark) + Won(plan.side, plan.entry, mark, TotalTaken(answers))
  {
    if answers != [] {
      var a, rest := answers[0], answers[1..];
      assert a.plan == plan && !Reported(a);
      IncomeAgainst(rest, plan, mark);
      IncomeIsWon(a);
      WonBetween(plan.side, plan.entry, mark, PriceOf(a), Taken(a));
      WonTogether(plan.side, plan.entry, mark, Taken(a), TotalTaken(rest));
      hide Won, Income, Taken, PriceOf;
    }
  }

  lemma IncomeIsWon(a: Answer)
    requires !Reported(a)
    ensures Income(a) == Won(a.plan.side, a.plan.entry, PriceOf(a), Taken(a))
  {
  }

  lemma WonBetween(side: Side, from: real, mid: real, to: real, qty: real)
    ensures Won(side, from, to, qty) == Won(side, mid, to, qty) + Won(side, from, mid, qty)
  {
  }

  lemma WonTogether(side: Side, from: real, to: real, a: real, b: real)
    ensures Won(side, from, to, a + b) == Won(side, from, to, a) + Won(side, from, to, b)
  {
  }

  /** Value of a position at a mark: what it has realized and what it would still win. */
  function Worth(p: PositionState, mark: real): real {
    p.book.realizedPnl + Won(p.plan.side, p.plan.entry, mark, p.book.qty)
  }

  /** LIVE trading, where the executor reports no result of its own: over any run the worth of
      the position at any mark changes by exactly what each closed unit sold above the mark
      (for a SHORT, bought back below it). The entry price drops out. */
  lemma LiveConserves(cfg: Config, l: Life, steps: seq<Step>, mark: real)
    requires forall i :: 0 <= i < |Answers(cfg, l, steps)| ==> !Reported(Answers(cfg, l, steps)[i])
    ensures Worth(Run(cfg, l, steps).pos, mark) == Worth(l.pos, mark) + AgainstMark(Answers(cfg, l, steps), mark)
  {
    var answers := Answers(cfg, l, steps);
    RunBooks(cfg, l, steps);
    RunRemembers(cfg, l, steps);
    AnswersPlan(cfg, l, steps);
    hide Run, Answers, IsPeak, IsTrough, IsBest, Won;
    IncomeAgainst(answers, l.pos.plan, mark);
    WonTogether(l.pos.plan.side, l.pos.plan.entry, mark, l.pos.book.qty - TotalTaken(answers), TotalTaken(answers));
  }

  // ---- what the orders ask for ----

  /** The funding guard's reduction asks for half of what is held. */
  lemma FundingAsks(l: Life, c: Cycle)
    ensures var actions := FundingActions(l, c);
            if c.fundingReduce then
              |actions| == 1 && actions[0].FundingReduce? && actions[0].qty + actions[0].qty == l.pos.book.qty
            else actions == []
  {
  }

  /** The quantity a close command asks for: its percentage of what is held, at most all. */
  lemma CommandAsks(p: PositionState, c: CloseCommand)
    requires c.percent > 0.0
    ensures CommandQty(p, c) * 100.0 == p.book.qty * (if c.percent > 100.0 then 100.0 else c.percent)
    ensures CommandQty(p, c) > 0.0 <==> p.book.qty > 0.0
    ensures p.book.qty > 0.0 ==> (CommandQty(p, c) >= p.book.qty <==> c.percent >= 100.0)
  {
    var percent := if c.percent > 100.0 then 100.0 else c.percent;
    AllAsked(p.book.qty, percent, CommandQty(p, c));
  }

  lemma AllAsked(qty: real, percent: real, asked: real)
    requires percent > 0.0 && asked * 100.0 == qty * percent
    ensures asked > 0.0 <==> qty > 0.0
    ensures qty > 0.0 ==> (asked >= qty <==> percent >= 100.0)
  {
    var part := qty * percent;
    if qty > 0.0 {
      ProductPositive(qty, percent);
      SignOfRest(qty, percent);
    } else {
      ProductSign(-qty, percent);
      NegateProduct(qty, percent);
    }
    Hundredths(asked, part, qty);
  }

  lemma Hundredths(asked: real, part: real, qty: real)
    requires asked * 100.0 == part
    ensures asked > 0.0 <==> part > 0.0
    ensures asked >= qty <==> part >= 100.0 * qty
  {
  }

  lemma SignOfRest(qty: real, percent: real)
    requires qty > 0.0
    ensures qty * percent >= 100.0 * qty <==> percent >= 100.0
  {
    if percent >= 100.0 {
      MultiplyMonotone(100.0, percent, qty);
    } else {
      ProductPositive(100.0 - percent, qty);
      assert (100.0 - percent) * qty == 100.0 * qty - qty * percent;
    }
  }

  /** An operator's close runs exactly for a percentage above zero of an open position of the
      bot that holds something, and what it fills closes the position exactly when all was
      asked for or nothing is left. */
  lemma CommandLaw(p: PositionState, c: CloseCommand)
    ensures CommandRuns(p, c) <==>
            p.plan.botManaged && p.status in {Active, Pending} && c.percent > 0.0 && p.book.qty > 0.0
    ensures CommandRuns(p, c) && c.outcome.Filled? && c.outcome.qty > 0.0 ==>
              (ClosePosition(p, c).status == Closed <==> c.percent >= 100.0 || c.outcome.qty >= p.book.qty)
  {
    if c.percent > 0.0 {
      CommandAsks(p, c);
    }
    hide RealizedBy, FlatRealized, CommandQty;
  }
}
