/** Placing orders: the reservation around each order, the single retry after a timeout,
    the polling loop, and what is reported for a take-profit placed as a limit order with
    a market fallback. */
module OrderManager {
  import opened Common
  import opened RealFacts
  import opened Rounding

  datatype OrderStatus = New | PartiallyFilled | FullyFilled | Cancelled | Rejected | Expired | Unknown

  datatype OrderResult = OrderResult(status: OrderStatus, filled: real, avgPrice: Option<real>)

  /** What one poll of an order answers, and the clock after it. */
  datatype PollAnswer = Seen(order: OrderResult) | Missing | PollRaised

  datatype Poll = Poll(answer: PollAnswer, now: real)

  // ---- polling ----

  predicate SettledAtOnce(placed: OrderResult) {
    placed.filled > 0.0 || placed.status in {FullyFilled, PartiallyFilled, Cancelled, Rejected}
  }

  predicate Stops(p: Poll, ioc: bool, deadline: real) {
    !p.answer.Seen? || p.answer.order.status in {FullyFilled, Cancelled, Rejected, Expired} || ioc
    || p.now >= deadline
  }

  /** The result after poll k: its reading, or the one before when the order is missing. */
  function Reading(placed: OrderResult, polls: nat -> Poll, k: nat): Option<OrderResult> {
    match polls(k).answer
    case Seen(order) => Some(order)
    case PollRaised => None
    case Missing =>
      if k == 0 then Some(placed)
      else if polls(k - 1).answer.Seen? then Some(polls(k - 1).answer.order)
      else None
  }

  /** Consecutive polls are at least one interval apart. */
  ghost predicate Paced(polls: nat -> Poll, start: real, interval: real) {
    start <= polls(0).now &&
    forall j: nat, k: nat :: j < k ==> polls(j).now + interval <= polls(k).now
  }

  lemma {:induction false} PacedBy(polls: nat -> Poll, start: real, interval: real, k: nat)
    requires Paced(polls, start, interval)
    ensures start + Multiple(k, interval) <= polls(k).now
  {
    if k > 0 {
      PacedBy(polls, start, interval, k - 1);
      assert polls(k - 1).now + interval <= polls(k).now;
      assert Multiple(k, interval) == Multiple(k - 1, interval) + interval;
    } else {
      assert Multiple(0, interval) == 0.0;
    }
  }

  lemma PollsLeft(k: nat, interval: real, ttl: real)
    requires interval > 0.0 && Multiple(k, interval) < ttl
    ensures k <= (ttl / interval).Floor
  {
    QuotientAtLeast(ttl, interval, k);
  }

  /** An order still working: the exchange shows it, and neither done nor gone. */
  predicate Working(answer: PollAnswer) {
    answer.Seen? && answer.order.status in {New, PartiallyFilled, Unknown}
  }

  /** _resolve: the first poll that stops decides. All polls but the last two fit, one
      interval each, into the time to live, so their number is bounded; how late the last
      one answers is up to the exchange. None means that a poll raised. */
  method Resolve(placed: OrderResult, ioc: bool, ttl: real, start: real, interval: real, polls: nat -> Poll)
    returns (r: Option<OrderResult>, n: nat)
    requires interval > 0.0 && Paced(polls, start, interval)
    ensures SettledAtOnce(placed) ==> r == Some(placed) && n == 0
    ensures !SettledAtOnce(placed) ==>
              && n >= 1 && Stops(polls(n - 1), ioc, start + ttl) && r == Reading(placed, polls, n - 1)
              && forall j: nat :: j < n - 1 ==> !Stops(polls(j), ioc, start + ttl)
    ensures n == 0 <==> placed.filled > 0.0 || placed.status in {FullyFilled, PartiallyFilled, Cancelled, Rejected}
    ensures forall j: nat :: j < n - 1 ==> Working(polls(j).answer) && !ioc && polls(j).now < start + ttl
    ensures n > 0 && polls(n - 1).answer.Seen? ==>
              && r == Some(polls(n - 1).answer.order)
              && (Working(polls(n - 1).answer) ==> ioc || polls(n - 1).now >= start + ttl)
    ensures n > 0 && polls(n - 1).answer.Missing? ==>
              if n == 1 then r == Some(placed)
              else polls(n - 2).answer.Seen? && r == Some(polls(n - 2).answer.order)
    ensures n >= 2 ==> Multiple(n - 2, interval) < ttl
  {
    hide Paced, Multiple;
    n := 0;
    if SettledAtOnce(placed) {
      return Some(placed), n;
    }
    var deadline := start + ttl;
    var last := placed;
    while true
      invariant forall j: nat :: j < n ==> Working(polls(j).answer) && !ioc && polls(j).now < deadline
      invariant last == if n == 0 then placed else polls(n - 1).answer.order
      invariant n >= 1 ==> Multiple(n - 1, interval) < ttl
      decreases if n == 0 then MaxInt((ttl / interval).Floor, 0) + 2 else (ttl / interval).Floor + 1 - n
    {
      ghost var k := n;
      var poll := polls(n);
      n := n + 1;
      match poll.answer
      case Missing => return Some(last), n;
      case PollRaised => return None, n;
      case Seen(order) =>
        last := order;
        if order.status in {FullyFilled, Cancelled, Rejected, Expired} || ioc || poll.now >= deadline {
          return Some(last), n;
        }
        assert order.status.New? || order.status.PartiallyFilled? || order.status.Unknown?;
        assert Working(polls(k).answer);
        PacedBy(polls, start, interval, k);
        PollsLeft(k, interval, ttl);
    }
  }

  // ---- placing ----

  /** What the exchange answered to creating an order. On a timeout the order is looked
      for among the open ones, which may itself raise. */
  datatype Answer = Accepted(result: OrderResult) | TimedOut(found: Recovery) | Raised

  datatype Recovery = Found(order: OrderResult) | NotFound | RecoveryRaised

  /** The exchange never reports more than was ordered. */
  predicate Within(r: OrderResult, qty: real) {
    0.0 <= r.filled <= qty
  }

  ghost predicate WithinPolls(polls: nat -> Poll, qty: real) {
    forall k: nat :: polls(k).answer.Seen? ==> Within(polls(k).answer.order, qty)
  }

  predicate WithinAnswer(a: Answer, qty: real) {
    match a
    case Accepted(r) => Within(r, qty)
    case TimedOut(Found(r)) => Within(r, qty)
    case _ => true
  }

  /** _normalize_request_qty; without metadata the quantity is left alone. */
  function NormalizedQty(qty: real, step: Option<real>): real {
    if step.Some? then RoundQtyDown(qty, step.value) else qty
  }

  /** A first attempt is followed by a second exactly when it timed out and is not open. */
  predicate Retries(first: Answer) {
    first.TimedOut? && first.found.NotFound?
  }

  class OrderManager {
    /** Reserved client order ids and their symbols (the runtime's registry). */
    var pending: map<string, string>

    constructor ()
      ensures pending == map[]
    {
      pending := map[];
    }

    /** _place. `result` is None when an exception leaves it; `creates` counts the orders
        sent. A reservation is left behind exactly when something raised after the first
        order was sent, other than that sending itself. */
    method Place(symbol: string, qty: real, step: Option<real>, id: string, retryId: string, ioc: bool, ttl: real,
                 start: real, interval: real, first: Answer, second: Answer, polls: nat -> Poll)
      returns (result: Option<OrderResult>, creates: nat)
      requires id !in pending && retryId !in pending && id != retryId
      requires interval > 0.0 && Paced(polls, start, interval)
      modifies this
      ensures result.Some? ==> pending == old(pending)
      ensures result.None? ==>
                pending == if first.Raised? then old(pending)
                           else old(pending)[(if Retries(first) then retryId else id) := symbol]
      ensures creates == if NormalizedQty(qty, step) <= 0.0 then 0 else if Retries(first) then 2 else 1
      ensures WithinAnswer(first, NormalizedQty(qty, step)) && WithinAnswer(second, NormalizedQty(qty, step))
              && WithinPolls(polls, NormalizedQty(qty, step)) && result.Some? ==>
                Within(result.value, Max(NormalizedQty(qty, step), 0.0))
    {
      hide RoundQtyDown, Paced;
      ghost var was := pending;
      creates := 0;
      var rounded := NormalizedQty(qty, step);
      if rounded <= 0.0 {
        return Some(OrderResult(Rejected, 0.0, None)), creates;
      }
      var used := id;
      pending := pending[used := symbol];
      creates := 1;
      var placed: OrderResult;
      match first {
        case Accepted(r) =>
          placed := r;
        case Raised =>
          pending := pending - {used};
          assert pending == was;
          return None, creates;
        case TimedOut(RecoveryRaised) =>
          return None, creates;
        case TimedOut(Found(order)) =>
          pending := pending - {used};
          assert pending == was;
          return Some(order), creates;
        case TimedOut(NotFound) =>
          pending := pending - {used};
          assert pending == was;
          used := retryId;
          pending := pending[used := symbol];
          creates := 2;
          if !second.Accepted? {
            return None, creates;
          }
          placed := second.result;
      }
      var n;
      result, n := Resolve(placed, ioc, ttl, start, interval, polls);
      if result.Some? {
        pending := pending - {used};
        assert pending == was;
      }
    }
  }

  // ---- partial take-profits ----

  datatype FillStatus = Filled | Partial | NoFill

  datatype Outcome = Outcome(status: FillStatus, filled: real, avgPrice: Option<real>)

  function StatusOf(filled: real, qty: real): FillStatus {
    if filled >= qty then Filled else if filled > 0.0 then Partial else NoFill
  }

  /** place_exit. */
  function PlaceExit(qty: real, market: OrderResult): Outcome {
    Outcome(if market.status == FullyFilled then Filled else StatusOf(market.filled, qty), market.filled,
            market.avgPrice)
  }

  /** place_partial_exit: `limit` is the limit order's result when a limit price is given,
      `market` the result of the market order for whatever is left. */
  function PlacePartialExit(qty: real, limit: Option<OrderResult>, market: OrderResult): Outcome {
    if limit.None? then PlaceExit(qty, market)
    else if limit.value.status == FullyFilled || limit.value.filled >= qty then
      Outcome(Filled, limit.value.filled, limit.value.avgPrice)
    else
      var exit := PlaceExit(qty - limit.value.filled, market);
      var total := limit.value.filled + exit.filled;
      Outcome(StatusOf(total, qty), total,
              if exit.avgPrice.Some? && exit.avgPrice.value != 0.0 then exit.avgPrice else limit.value.avgPrice)
  }

  /** A market exit reports what the order says it filled, as all of it exactly when the order
      is FILLED or covers the request. */
  lemma ExitReport(qty: real, market: OrderResult)
    requires qty > 0.0 && market.filled >= 0.0
    ensures var out := PlacePartialExit(qty, None, market);
            && out.filled == market.filled && out.avgPrice == market.avgPrice
            && (out.status == Filled <==> market.status == FullyFilled || market.filled >= qty)
            && (out.status == NoFill <==> market.status != FullyFilled && market.filled == 0.0)
  {
  }

  /** A fill no larger than its order, FILLED only in full, and priced when there is one. */
  predicate Honest(r: OrderResult, ordered: real) {
    && 0.0 <= r.filled <= ordered
    && (r.status == FullyFilled ==> r.filled == ordered)
    && (r.filled > 0.0 <==> r.avgPrice.Some?) && (r.avgPrice.Some? ==> r.avgPrice.value > 0.0)
  }

  function Turnover(filled: real, avgPrice: Option<real>): real {
    filled * avgPrice.GetOr(0.0)
  }

  /** Each leg is an order for the rounded remainder. The reported fill stays within the
      request; a limit leg that reports FILLED ends the exit at its own size, and otherwise
      the fill is the sum of both legs, FILLED exactly when it is the whole request. Its
      price values it correctly exactly when the legs do not mix prices. */
  lemma PartialExitReport(qty: real, step: real, limit: OrderResult, market: OrderResult)
    requires qty > 0.0
    requires Honest(limit, RoundQtyDown(qty, step)) && Honest(market, RoundQtyDown(qty - limit.filled, step))
    ensures var out := PlacePartialExit(qty, Some(limit), market);
            var mixes := limit.status != FullyFilled && limit.filled < qty;
            && 0.0 <= out.filled <= qty
            && out.filled == limit.filled + (if mixes then market.filled else 0.0)
            && (mixes ==>
                && (out.status == Filled <==> out.filled == qty)
                && (out.status == NoFill <==> out.filled == 0.0))
            && (Turnover(out.filled, out.avgPrice) ==
                  Turnover(limit.filled, limit.avgPrice)
                  + (if mixes then Turnover(market.filled, market.avgPrice) else 0.0) <==>
                !mixes || limit.filled == 0.0 || market.filled == 0.0 || limit.avgPrice == market.avgPrice)
  {
    RoundDownShrinks(qty, step);
    RoundDownShrinks(qty - limit.filled, step);
    NothingTraded(limit.avgPrice);
    NothingTraded(market.avgPrice);
    if limit.filled > 0.0 && market.filled > 0.0 {
      MixedLegs(limit.filled, limit.avgPrice, market.filled, market.avgPrice);
    }
    hide RoundQtyDown, Turnover;
  }

  lemma NothingTraded(avgPrice: Option<real>)
    ensures Turnover(0.0, avgPrice) == 0.0
  {
  }

  /** Pricing both legs at the second leg's price is right only when the prices agree. */
  lemma MixedLegs(a: real, p: Option<real>, b: real, q: Option<real>)
    requires a != 0.0 && p.Some? && q.Some?
    ensures Turnover(a + b, q) == Turnover(a, p) + Turnover(b, q) <==> p == q
  {
    assert (a + b) * q.value == a * q.value + b * q.value;
    if a * q.value == a * p.value {
      CancelEqual(q.value, p.value, a);
    }
  }
}
