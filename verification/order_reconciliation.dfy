/** Which open orders on the exchange are the bot's own, and whole reconciliation passes. */
module OrderReconciliation {
  import opened Common
  import opened Reconciliation

  datatype OrderSide = Buy | Sell

  datatype ExchangeOrder = ExchangeOrder(
    symbol: string, id: string, clientId: Option<string>, side: OrderSide, qty: real, reduceOnly: bool,
    trigger: Option<real>, stopOrderType: Option<string>, orderFilter: Option<string>)

  const BOT_PREFIXES := ["qb-", "retry-", "exit-", "ptp-"]

  const TRIGGER_TOKENS := ["stop", "tpsl", "takeprofit", "take_profit", "trailing", "oco"]

  predicate IsBotClientOrder(clientId: Option<string>) {
    clientId.Some? && exists i :: 0 <= i < |BOT_PREFIXES| && BOT_PREFIXES[i] <= clientId.value
  }

  function Lower(s: string): string {
    seq(|s|, i requires 0 <= i < |s| =>
      if 'A' <= s[i] <= 'Z' then ((s[i] as int) + 32) as char else s[i])
  }

  predicate Contains(s: string, token: string) {
    exists i :: 0 <= i <= |s| - |token| && token <= s[i..]
  }

  /** The non-empty markers, lower-cased and joined by a space. */
  function Markers(o: ExchangeOrder): string {
    var a, b := Lower(o.stopOrderType.GetOr("")), Lower(o.orderFilter.GetOr(""));
    if a == "" then b else if b == "" then a else a + " " + b
  }

  predicate LooksLikeTrigger(o: ExchangeOrder) {
    o.trigger.Some? || exists i :: 0 <= i < |TRIGGER_TOKENS| && Contains(Markers(o), TRIGGER_TOKENS[i])
  }

  predicate IsExitSide(order: OrderSide, position: Side) {
    (position == Long && order == Sell) || (position == Short && order == Buy)
  }

  /** A leftover reduce-only order of the bot whose position is gone. */
  predicate IsStaleBotReduce(o: ExchangeOrder, e: Option<Entry>) {
    o.reduceOnly && IsBotClientOrder(o.clientId) && Gone(e)
  }

  predicate IsBotProtection(o: ExchangeOrder, e: Option<Entry>) {
    && !Gone(e) && e.value.source == BotManaged && IsExitSide(o.side, e.value.side)
    && !(o.qty > 0.0 && e.value.qty > 0.0 && o.qty > e.value.qty)
    && LooksLikeTrigger(o)
  }

  // ---- what recognition means ----

  /** The signed change of the position an order makes when it fills. */
  function Delta(o: ExchangeOrder): real {
    if o.side == Buy then o.qty else -o.qty
  }

  function Holding(e: Entry): real {
    match e.side
    case Long => e.qty
    case Short => -e.qty
  }

  /** Filling the order takes the holding towards zero, and not past it. */
  predicate Unwinds(o: ExchangeOrder, e: Entry) {
    if Holding(e) > 0.0 then 0.0 <= Holding(e) + Delta(o) < Holding(e)
    else Holding(e) < Holding(e) + Delta(o) <= 0.0
  }

  /** Among the trigger orders on an open position of the bot, protection is recognised by
      what it would do: exactly the orders whose fill unwinds the position without turning
      it round. Without two sizes to compare, the side decides. */
  lemma ProtectionUnwindsIff(o: ExchangeOrder, e: Entry)
    requires !Gone(Some(e)) && e.source == BotManaged && LooksLikeTrigger(o)
    ensures o.qty > 0.0 && e.qty > 0.0 ==> (IsBotProtection(o, Some(e)) <==> Unwinds(o, e))
    ensures o.qty <= 0.0 || e.qty <= 0.0 ==>
              (IsBotProtection(o, Some(e)) <==>
               (o.side == Buy && e.side == Short) || (o.side == Sell && e.side == Long))
  {
    hide LooksLikeTrigger;
  }

  /** The bot marks its orders by the beginning of their ids. */
  lemma BotOrderIff(id: string)
    ensures IsBotClientOrder(Some(id)) <==> "qb-" <= id || "retry-" <= id || "exit-" <= id || "ptp-" <= id
    ensures !IsBotClientOrder(None)
  {
    assert BOT_PREFIXES[0] == "qb-" && BOT_PREFIXES[1] == "retry-" && BOT_PREFIXES[2] == "exit-"
           && BOT_PREFIXES[3] == "ptp-";
  }

  lemma ContainsFar(a: string, b: string, token: string)
    requires token != "" && Contains(b, token)
    ensures Contains(a + b, token) && Contains(b + a, token)
  {
    var i :| 0 <= i <= |b| - |token| && token <= b[i..];
    assert (a + b)[|a| + i..] == b[i..];
    assert (b + a)[i..] == b[i..] + a;
  }

  /** A token without a space is found in a joined pair exactly when one part holds it. */
  lemma JoinedContains(a: string, b: string, token: string)
    requires token != "" && ' ' !in token
    ensures Contains(a + " " + b, token) <==> Contains(a, token) || Contains(b, token)
  {
    var joined := a + " " + b;
    if Contains(a, token) {
      ContainsFar(" " + b, a, token);
      assert a + (" " + b) == joined;
    }
    if Contains(b, token) {
      ContainsFar(a + " ", b, token);
    }
    if Contains(joined, token) {
      var i :| 0 <= i <= |joined| - |token| && token <= joined[i..];
      FoundInPart(a, b, token, i);
    }
  }

  lemma FoundInPart(a: string, b: string, token: string, i: nat)
    requires token != "" && ' ' !in token && i + |token| <= |a + " " + b| && token <= (a + " " + b)[i..]
    ensures Contains(a, token) || Contains(b, token)
  {
    var joined := a + " " + b;
    Covers(joined, i, token);
    assert joined[|a|] == ' ';
    if i < |a| {
      assert token == joined[i..i + |token|] == a[i..][..|token|];
    } else {
      assert joined[i..] == b[i - |a| - 1..];
    }
  }

  /** Where a token is found, its characters are. */
  lemma Covers(s: string, i: nat, token: string)
    requires i <= |s| && token <= s[i..]
    ensures forall k :: i <= k < i + |token| ==> s[k] in token
  {
    forall k | i <= k < i + |token| ensures s[k] in token {
      assert token[k - i] == s[i..][k - i];
    }
  }

  predicate NamesTrigger(s: string) {
    exists i :: 0 <= i < |TRIGGER_TOKENS| && Contains(s, TRIGGER_TOKENS[i])
  }

  /** Joining the markers never makes a trigger of two that are none: an order looks like one
      exactly when it has a trigger price or one of its markers names one by itself. */
  lemma TriggerIff(o: ExchangeOrder)
    ensures LooksLikeTrigger(o) <==>
            || o.trigger.Some?
            || (o.stopOrderType.Some? && NamesTrigger(Lower(o.stopOrderType.value)))
            || (o.orderFilter.Some? && NamesTrigger(Lower(o.orderFilter.value)))
  {
    var a, b := Lower(o.stopOrderType.GetOr("")), Lower(o.orderFilter.GetOr(""));
    forall i | 0 <= i < |TRIGGER_TOKENS|
      ensures Contains(Markers(o), TRIGGER_TOKENS[i]) <==>
              Contains(a, TRIGGER_TOKENS[i]) || Contains(b, TRIGGER_TOKENS[i])
    {
      MarkersContain(o, TRIGGER_TOKENS[i]);
    }
    hide Markers, Contains, Lower;
    EmptyNamesNothing();
  }

  lemma MarkersContain(o: ExchangeOrder, token: string)
    requires token != "" && ' ' !in token
    ensures var a, b := Lower(o.stopOrderType.GetOr("")), Lower(o.orderFilter.GetOr(""));
            Contains(Markers(o), token) <==> Contains(a, token) || Contains(b, token)
  {
    JoinedContains(Lower(o.stopOrderType.GetOr("")), Lower(o.orderFilter.GetOr("")), token);
    hide Lower;
  }

  lemma EmptyNamesNothing()
    ensures !NamesTrigger("") && Lower("") == ""
  {
  }

  /** Upper and lower case make no difference to the markers. */
  lemma LowerIgnoresCase(s: string)
    ensures |Lower(s)| == |s| && Lower(Lower(s)) == Lower(s)
    ensures forall i :: 0 <= i < |s| ==> !('A' <= Lower(s)[i] <= 'Z')
    ensures forall i :: 0 <= i < |s| && !('A' <= s[i] <= 'Z') ==> Lower(s)[i] == s[i]
    ensures forall i :: 0 <= i < |s| && 'A' <= s[i] <= 'Z' ==>
              Lower(s)[i] as int - 'a' as int == s[i] as int - 'A' as int
  {
  }

  datatype Handling = Cancel | Ours | Foreign

  function Classify(o: ExchangeOrder, e: Option<Entry>, known: set<string>): Handling {
    if IsStaleBotReduce(o, e) then Cancel
    else if o.id in known || (o.clientId.Some? && o.clientId.value != "" && o.clientId.value in known)
         || IsBotClientOrder(o.clientId) || IsBotProtection(o, e) then Ours
    else Foreign
  }

  /** The bot knows the order, by the exchange's id or by its own. */
  predicate IsKnown(o: ExchangeOrder, known: set<string>) {
    o.id in known || (o.clientId.Some? && o.clientId.value != "" && o.clientId.value in known)
  }

  /** Only the bot's own leftovers are cancelled; and while a position of the bot is open, an
      order nobody knows is foreign exactly when it carries none of the bot's marks and would
      not protect: no trigger, or a fill that would not unwind the position. */
  lemma ClassifyLaw(o: ExchangeOrder, e: Option<Entry>, known: set<string>)
    ensures Classify(o, e, known) == Cancel <==> o.reduceOnly && IsBotClientOrder(o.clientId) && Gone(e)
    ensures IsKnown(o, known) || IsBotClientOrder(o.clientId) ==> Classify(o, e, known) != Foreign
    ensures !IsKnown(o, known) && !IsBotClientOrder(o.clientId) ==>
              (Gone(e) || e.value.source == External ==> Classify(o, e, known) == Foreign)
              && (!Gone(e) && e.value.source == BotManaged && o.qty > 0.0 && e.value.qty > 0.0 ==>
                    (Classify(o, e, known) == Foreign <==> !LooksLikeTrigger(o) || !Unwinds(o, e.value)))
  {
    hide LooksLikeTrigger, IsBotClientOrder;
  }

  /** The open orders handled as h, in order. */
  function Handled(open: seq<ExchangeOrder>, reg: Registry, known: set<string>, h: Handling): seq<ExchangeOrder> {
    if open == [] then []
    else
      var init, o := Handled(open[..|open| - 1], reg, known, h), open[|open| - 1];
      if Classify(o, Lookup(reg, o.symbol), known) == h then init + [o] else init
  }

  /** What stays open on the exchange once the stale orders are cancelled. */
  function Remaining(open: seq<ExchangeOrder>, reg: Registry, known: set<string>): seq<ExchangeOrder> {
    if open == [] then []
    else
      var init, o := Remaining(open[..|open| - 1], reg, known), open[|open| - 1];
      if Classify(o, Lookup(reg, o.symbol), known) == Cancel then init else init + [o]
  }

  type Orders = map<string, ExchangeOrder>

  function Registered(external: Orders, foreign: seq<ExchangeOrder>): Orders {
    if foreign == [] then external
    else
      var o := foreign[|foreign| - 1];
      Registered(external, foreign[..|foreign| - 1])[o.id := o]
  }

  /** Bot state that reconciliation updates, and the orders open on the exchange. */
  datatype State = State(reg: Registry, own: set<string>, external: Orders, open: seq<ExchangeOrder>)

  function Known(s: State): set<string> {
    s.own + s.external.Keys
  }

  /** reconcile_once against one exchange snapshot. */
  function Reconciled(s: State, book: ExchangeBook, env: Env): State {
    var reg := PassAll(s.reg, book, env);
    State(reg, s.own, Registered(s.external, Handled(s.open, reg, Known(s), Foreign)),
          Remaining(s.open, reg, Known(s)))
  }

  function Cancelled(s: State, book: ExchangeBook, env: Env): seq<ExchangeOrder> {
    Handled(s.open, PassAll(s.reg, book, env), Known(s), Cancel)
  }

  function NewForeign(s: State, book: ExchangeBook, env: Env): seq<ExchangeOrder> {
    Handled(s.open, PassAll(s.reg, book, env), Known(s), Foreign)
  }

  // ---- a second pass finds nothing ----

  lemma {:induction false} RemainingIs(open: seq<ExchangeOrder>, reg: Registry, known: set<string>, o: ExchangeOrder)
    ensures o in Remaining(open, reg, known) <==> o in open && Classify(o, Lookup(reg, o.symbol), known) != Cancel
  {
    hide Classify;
    if open != [] {
      assert open == open[..|open| - 1] + [open[|open| - 1]];
      RemainingIs(open[..|open| - 1], reg, known, o);
    }
  }

  lemma {:induction false} HandledIs(open: seq<ExchangeOrder>, reg: Registry, known: set<string>, h: Handling,
                                     o: ExchangeOrder)
    ensures o in Handled(open, reg, known, h) <==> o in open && Classify(o, Lookup(reg, o.symbol), known) == h
  {
    hide Classify;
    if open != [] {
      assert open == open[..|open| - 1] + [open[|open| - 1]];
      HandledIs(open[..|open| - 1], reg, known, h, o);
    }
  }

  lemma {:induction false} RegisteredKnows(external: Orders, foreign: seq<ExchangeOrder>)
    ensures external.Keys <= Registered(external, foreign).Keys
    ensures forall o :: o in foreign ==> o.id in Registered(external, foreign)
  {
    if foreign != [] {
      assert foreign == foreign[..|foreign| - 1] + [foreign[|foreign| - 1]];
      RegisteredKnows(external, foreign[..|foreign| - 1]);
    }
  }

  /** An order left open stays recognised when its position keeps what classification
      reads and its id is known by now if it was foreign. */
  lemma ClassifyStable(o: ExchangeOrder, e: Option<Entry>, e': Option<Entry>, known: set<string>, known': set<string>)
    requires SameToOrders(e, e') && known <= known' && Classify(o, e, known) != Cancel
    requires Classify(o, e, known) == Foreign ==> o.id in known'
    ensures Classify(o, e', known') == Ours
  {
    hide IsBotClientOrder, LooksLikeTrigger;
  }

  lemma {:induction false} AllOurs(open: seq<ExchangeOrder>, reg: Registry, known: set<string>)
    requires forall o :: o in open ==> Classify(o, Lookup(reg, o.symbol), known) == Ours
    ensures Handled(open, reg, known, Cancel) == [] && Handled(open, reg, known, Foreign) == []
    ensures Remaining(open, reg, known) == open
  {
    hide Classify;
    if open != [] {
      var init, o := open[..|open| - 1], open[|open| - 1];
      assert open == init + [o];
      assert Classify(o, Lookup(reg, o.symbol), known) == Ours;
      AllOurs(init, reg, known);
    }
  }

  /** After one pass over resolvable positions, a second pass with any settings reports no
      position, cancels nothing, finds no foreign order, and from then on every pass
      leaves the whole state as it is. */
  lemma SecondReconcileIsQuiet(s: State, book: ExchangeBook, env: Env, later: Env, last: Env)
    requires AllResolvable(s.reg, book, env)
    ensures var once := Reconciled(s, book, env);
            && AllInStep(once.reg, book)
            && (forall kind :: kind != Nothing ==> Reported(once.reg, book, later, kind) == {})
            && Cancelled(once, book, later) == [] && NewForeign(once, book, later) == []
            && Reconciled(once, book, later).open == once.open
            && Reconciled(once, book, later).external == once.external
            && Reconciled(Reconciled(once, book, later), book, last) == Reconciled(once, book, later)
  {
    var once := Reconciled(s, book, env);
    var twice := Reconciled(once, book, later);
    hide PassAll, AllInStep, AllResolvable, Classify, Reported, SameToOrders;
    ReconciliationConverges(s.reg, book, env);
    SecondPassIsQuiet(once.reg, book, later, last);
    OrdersQuiet(s, once.reg, twice.reg);
  }

  /** The orders left open by a pass over `reg` are all recognised under a registry that
      looks the same to classification. */
  lemma OrdersQuiet(s: State, reg: Registry, next: Registry)
    requires forall symbol :: SameToOrders(Lookup(reg, symbol), Lookup(next, symbol))
    ensures var open := Remaining(s.open, reg, Known(s));
            var external := Registered(s.external, Handled(s.open, reg, Known(s), Foreign));
            && Handled(open, next, s.own + external.Keys, Cancel) == []
            && Handled(open, next, s.own + external.Keys, Foreign) == []
            && Remaining(open, next, s.own + external.Keys) == open
  {
    hide Classify, SameToOrders;
    var open := Remaining(s.open, reg, Known(s));
    var foreign := Handled(s.open, reg, Known(s), Foreign);
    var known := s.own + Registered(s.external, foreign).Keys;
    RegisteredKnows(s.external, foreign);
    forall o | o in open ensures Classify(o, Lookup(next, o.symbol), known) == Ours {
      RemainingIs(s.open, reg, Known(s), o);
      HandledIs(s.open, reg, Known(s), Foreign, o);
      ClassifyStable(o, Lookup(reg, o.symbol), Lookup(next, o.symbol), Known(s), known);
    }
    AllOurs(open, next, known);
  }
}
