/** One reconciliation pass: the exchange is the source of truth for which positions
    are open and how large they are, and for which open orders are the bot's own. */
module Reconciliation {
  import opened Common
  import opened PositionModel

  datatype Source = BotManaged | External

  /** The fields of a registered position that reconciliation reads or writes. */
  datatype Entry = Entry(
    side: Side, status: PositionStatus, source: Source, qty: real, avgEntry: real, manualAdded: real,
    liq: Option<real>, unrealized: real, stop: Option<real>, takeProfit: Option<real>,
    realized: real, runnerActive: bool, trailingActive: bool, exitReason: Option<ExitReason>)

  datatype ExchangePosition = ExchangePosition(
    side: Side, size: real, avgPrice: real, liq: Option<real>, unrealized: real,
    stop: Option<real>, takeProfit: Option<real>)

  /** What the protection resync after a quantity change did to the position's status. */
  datatype Resync = Untouched | Activated | Flattened

  /** Symbols with a bot order settling, the adoption setting, and the resync outcomes. */
  datatype Env = Env(settling: set<string>, adopt: bool, resync: map<string, Resync>)

  type Registry = map<string, Entry>
  type ExchangeBook = map<string, ExchangePosition>

  function Lookup<T>(m: map<string, T>, symbol: string): Option<T> {
    if symbol in m then Some(m[symbol]) else None
  }

  // ---- the handlers ----

  /** handle_external_position with adoption on. */
  function Adopted(x: ExchangePosition): Entry {
    Entry(x.side, Active, External, x.size, x.avgPrice, 0.0, x.liq, 0.0, x.stop, x.takeProfit,
          0.0, false, false, None)
  }

  /** handle_qty_mismatch. */
  function Resized(e: Entry, x: ExchangePosition, resync: Resync): Entry {
    e.(qty := x.size, avgEntry := x.avgPrice,
       manualAdded := e.manualAdded + Max(x.size - e.qty, 0.0),
       liq := if x.liq.Some? then x.liq else e.liq,
       status := match resync
         case Untouched => e.status
         case Activated => Active
         case Flattened => Closed)
  }

  /** handle_external_close. */
  function ClosedExternally(e: Entry): Entry {
    e.(status := Closed, qty := 0.0)
  }

  predicate StopProtectsProfit(e: Entry) {
    e.stop.Some? && if e.side == Long then e.stop.value >= e.avgEntry else e.stop.value <= e.avgEntry
  }

  /** handle_bot_exchange_close: realized is estimated at the stop, or the entry without one. */
  function ClosedOnExchange(e: Entry): Entry {
    var exit := OrElse(e.stop, e.avgEntry);
    e.(status := Closed, qty := 0.0,
       realized := e.realized + (exit - e.avgEntry) * e.qty * Direction(e.side),
       exitReason := Some(if e.runnerActive then RunnerTrailingStop
                          else if e.trailingActive && StopProtectsProfit(e) then TrailingStop
                          else StopLoss))
  }

  // ---- positions ----

  datatype Report = Nothing | ExternalPosition | QtyMismatch | ExternalClose | ExchangeClose

  datatype Passed = Passed(entry: Option<Entry>, report: Report)

  /** No entry, or a closed one. */
  predicate Gone(e: Option<Entry>) {
    e.None? || e.value.status == Closed
  }

  /** What one pass does to one symbol. */
  function PassSymbol(e: Option<Entry>, x: Option<ExchangePosition>, settling: bool, adopt: bool, resync: Resync)
    : Passed
  {
    if x.Some? then PassOpen(e, x.value, settling, adopt, resync) else PassAbsent(e, settling)
  }

  /** A symbol the exchange reports. */
  function PassOpen(e: Option<Entry>, x: ExchangePosition, settling: bool, adopt: bool, resync: Resync): Passed {
    if Gone(e) then
      if settling then Passed(e, Nothing)
      else Passed(if adopt then Some(Adopted(x)) else e, ExternalPosition)
    else if e.value.source == External then
      Passed(Some(e.value.(qty := x.size, avgEntry := x.avgPrice, liq := x.liq)), Nothing)
    else if e.value.qty != x.size then
      if settling then Passed(e, Nothing) else Passed(Some(Resized(e.value, x, resync)), QtyMismatch)
    else Passed(Some(e.value.(liq := x.liq, unrealized := x.unrealized)), Nothing)
  }

  /** A symbol the exchange does not report. */
  function PassAbsent(e: Option<Entry>, settling: bool): Passed {
    if Gone(e) || settling then Passed(e, Nothing)
    else if e.value.source == BotManaged then Passed(Some(ClosedOnExchange(e.value)), ExchangeClose)
    else Passed(Some(ClosedExternally(e.value)), ExternalClose)
  }

  function ResyncOf(env: Env, symbol: string): Resync {
    if symbol in env.resync then env.resync[symbol] else Untouched
  }

  function At(reg: Registry, book: ExchangeBook, env: Env, symbol: string): Passed {
    PassSymbol(Lookup(reg, symbol), Lookup(book, symbol), symbol in env.settling, env.adopt, ResyncOf(env, symbol))
  }

  /** The registry after one pass. */
  function PassAll(reg: Registry, book: ExchangeBook, env: Env): Registry {
    map symbol | symbol in reg.Keys + book.Keys && At(reg, book, env, symbol).entry.Some? ::
      At(reg, book, env, symbol).entry.value
  }

  /** The symbols one pass reports as `kind`. */
  function Reported(reg: Registry, book: ExchangeBook, env: Env, kind: Report): set<string> {
    set symbol | symbol in reg.Keys + book.Keys && At(reg, book, env, symbol).report == kind
  }

  lemma PassLookup(reg: Registry, book: ExchangeBook, env: Env, symbol: string)
    ensures Lookup(PassAll(reg, book, env), symbol) == At(reg, book, env, symbol).entry
  {
  }

  /** A pass reports every symbol, known to the bot or to the exchange, under its own kind. */
  lemma ReportedIff(reg: Registry, book: ExchangeBook, env: Env, kind: Report, symbol: string)
    requires kind != Nothing
    ensures symbol in Reported(reg, book, env, kind) <==> At(reg, book, env, symbol).report == kind
  {
  }

  // ---- convergence ----

  /** The registry agrees with the exchange on a symbol: open with the exchange's size,
      or not open at all. */
  predicate InStep(e: Option<Entry>, x: Option<ExchangePosition>) {
    if x.Some? then !Gone(e) && e.value.qty == x.value.size else Gone(e)
  }

  /** What a caller can check beforehand: a symbol out of step is not settling, is adopted
      if unknown, and its resync does not flatten it. */
  predicate Resolvable(e: Option<Entry>, x: Option<ExchangePosition>, settling: bool, adopt: bool, resync: Resync) {
    if x.Some? && Gone(e) then !settling && adopt
    else if x.Some? && e.value.source == BotManaged && e.value.qty != x.value.size then
      !settling && resync != Flattened
    else if x.None? && !Gone(e) then !settling
    else true
  }

  /** One pass brings a symbol in step exactly when it is resolvable. */
  lemma PassConverges(e: Option<Entry>, x: Option<ExchangePosition>, settling: bool, adopt: bool, resync: Resync)
    ensures InStep(PassSymbol(e, x, settling, adopt, resync).entry, x) <==>
            Resolvable(e, x, settling, adopt, resync)
  {
  }

  /** A symbol in step is not reported by any later pass, whatever is settling then, and
      keeps everything but the fields read back from the exchange. */
  lemma InStepIsQuiet(e: Option<Entry>, x: Option<ExchangePosition>, settling: bool, adopt: bool, resync: Resync)
    requires InStep(e, x)
    ensures var p := PassSymbol(e, x, settling, adopt, resync);
            p.report == Nothing && SameToOrders(e, p.entry) && InStep(p.entry, x)
  {
  }

  lemma InStepIsFixed(e: Option<Entry>, x: Option<ExchangePosition>, settling: bool, adopt: bool, resync: Resync,
                      settling': bool, adopt': bool, resync': Resync)
    requires InStep(e, x)
    ensures var p := PassSymbol(e, x, settling, adopt, resync);
            PassSymbol(p.entry, x, settling', adopt', resync').entry == p.entry
  {
  }

  /** A pass reports a symbol exactly when it is out of step, not settling, and not an
      adopted position whose size the pass simply copies. */
  lemma ReportsIff(e: Option<Entry>, x: Option<ExchangePosition>, settling: bool, adopt: bool, resync: Resync)
    ensures PassSymbol(e, x, settling, adopt, resync).report != Nothing <==>
            !InStep(e, x) && !settling && !(x.Some? && !Gone(e) && e.value.source == External)
  {
  }

  /** Sizes are compared, sides are not: an open symbol ends up on the exchange's side only
      when it was adopted or already agreed. */
  lemma SideAgreesIff(e: Option<Entry>, x: ExchangePosition, settling: bool, adopt: bool, resync: Resync)
    requires InStep(PassSymbol(e, Some(x), settling, adopt, resync).entry, Some(x))
    ensures PassSymbol(e, Some(x), settling, adopt, resync).entry.value.side == x.side <==>
            Gone(e) || e.value.side == x.side
  {
  }

  ghost predicate AllInStep(reg: Registry, book: ExchangeBook) {
    forall symbol :: InStep(Lookup(reg, symbol), Lookup(book, symbol))
  }

  ghost predicate AllResolvable(reg: Registry, book: ExchangeBook, env: Env) {
    forall symbol :: Resolvable(Lookup(reg, symbol), Lookup(book, symbol), symbol in env.settling, env.adopt,
                                ResyncOf(env, symbol))
  }

  /** One pass leaves exactly the exchange's symbols open, with equal sizes, if and only
      if every symbol was resolvable; in particular with nothing settling, adoption on
      and no resync that flattens. */
  lemma ReconciliationConverges(reg: Registry, book: ExchangeBook, env: Env)
    ensures AllInStep(PassAll(reg, book, env), book) <==> AllResolvable(reg, book, env)
    ensures env.settling == {} && env.adopt && (forall s :: s in env.resync ==> env.resync[s] != Flattened) ==>
              AllInStep(PassAll(reg, book, env), book)
  {
    forall symbol
      ensures InStep(Lookup(PassAll(reg, book, env), symbol), Lookup(book, symbol)) <==>
              Resolvable(Lookup(reg, symbol), Lookup(book, symbol), symbol in env.settling, env.adopt,
                         ResyncOf(env, symbol))
    {
      hide PassAll, PassSymbol, InStep, Resolvable;
      PassLookup(reg, book, env, symbol);
      PassConverges(Lookup(reg, symbol), Lookup(book, symbol), symbol in env.settling, env.adopt,
                    ResyncOf(env, symbol));
    }
  }

  /** Entries that differ at most in the fields read back from the exchange. */
  predicate SameButLive(a: Entry, b: Entry) {
    b == a.(avgEntry := b.avgEntry, liq := b.liq, unrealized := b.unrealized)
  }

  /** The fields order classification looks at. */
  predicate SameToOrders(a: Option<Entry>, b: Option<Entry>) {
    if a.Some? then b.Some? && SameButLive(a.value, b.value) else b.None?
  }

  /** Once in step, a further pass with any settings reports nothing and refreshes live
      fields only, and from then on changes nothing at all. */
  lemma SecondPassIsQuiet(reg: Registry, book: ExchangeBook, env: Env, later: Env)
    requires AllInStep(reg, book)
    ensures forall kind :: kind != Nothing ==> Reported(reg, book, env, kind) == {}
    ensures forall symbol :: SameToOrders(Lookup(reg, symbol), Lookup(PassAll(reg, book, env), symbol))
    ensures AllInStep(PassAll(reg, book, env), book)
    ensures PassAll(PassAll(reg, book, env), book, later) == PassAll(reg, book, env)
  {
    var next := PassAll(reg, book, env);
    forall symbol
      ensures At(reg, book, env, symbol).report == Nothing
      ensures SameToOrders(Lookup(reg, symbol), Lookup(next, symbol))
      ensures InStep(Lookup(next, symbol), Lookup(book, symbol))
      ensures Lookup(PassAll(next, book, later), symbol) == Lookup(next, symbol)
    {
      hide PassAll, PassSymbol, InStep, SameToOrders;
      PassLookup(reg, book, env, symbol);
      PassLookup(next, book, later, symbol);
      InStepIsQuiet(Lookup(reg, symbol), Lookup(book, symbol), symbol in env.settling, env.adopt,
                    ResyncOf(env, symbol));
      InStepIsFixed(Lookup(reg, symbol), Lookup(book, symbol), symbol in env.settling, env.adopt,
                    ResyncOf(env, symbol), symbol in later.settling, later.adopt, ResyncOf(later, symbol));
    }
    SameRegistry(PassAll(next, book, later), next);
  }

  lemma SameRegistry(a: Registry, b: Registry)
    requires forall symbol :: Lookup(a, symbol) == Lookup(b, symbol)
    ensures a == b
  {
    forall symbol ensures symbol in a <==> symbol in b {
      assert Lookup(a, symbol) == Lookup(b, symbol);
    }
    forall symbol | symbol in a ensures a[symbol] == b[symbol] {
      assert Lookup(a, symbol) == Lookup(b, symbol);
    }
  }

  // ---- a symbol that never stops settling ----

  function Passes(reg: Registry, book: ExchangeBook, envs: seq<Env>): Registry
    decreases |envs|
  {
    if envs == [] then reg else Passes(PassAll(reg, book, envs[0]), book, envs[1..])
  }

  /** A reservation that is never cleared keeps its symbol out of step for good: no number
      of passes changes an unknown, mismatched or vanished position of the bot while its
      symbol is settling, and none reports it. */
  lemma {:induction false} SettlingBlocks(reg: Registry, book: ExchangeBook, envs: seq<Env>, symbol: string)
    requires forall i :: 0 <= i < |envs| ==> symbol in envs[i].settling
    requires !InStep(Lookup(reg, symbol), Lookup(book, symbol))
    requires Gone(Lookup(reg, symbol)) || Lookup(reg, symbol).value.source == BotManaged
    ensures Lookup(Passes(reg, book, envs), symbol) == Lookup(reg, symbol)
    ensures forall kind :: envs != [] && kind != Nothing ==> symbol !in Reported(reg, book, envs[0], kind)
    decreases |envs|
  {
    if envs != [] {
      hide PassAll;
      assert symbol in envs[0].settling;
      PassLookup(reg, book, envs[0], symbol);
      SettlingBlocks(PassAll(reg, book, envs[0]), book, envs[1..], symbol);
    }
  }

  // ---- what a pass writes ----

  /** A position of the bot that the exchange no longer shows is closed with nothing left. It
      is booked as if it had left at its stop, or at its entry when there is no stop (or
      a stop of zero): the move from the entry for the side, times the quantity it held.
      The reason says which protection is taken to have closed it. */
  predicate IsExchangeClose(e: Entry, e1: Entry) {
    var stop := if e.stop.Some? && e.stop.value != 0.0 then e.stop.value else e.avgEntry;
    var inProfit := e.stop.Some? && match e.side
      case Long => e.stop.value >= e.avgEntry
      case Short => e.stop.value <= e.avgEntry;
    && e1 == e.(status := Closed, qty := 0.0, realized := e1.realized, exitReason := e1.exitReason)
    && (match e.side
        case Long => e1.realized - e.realized == (stop - e.avgEntry) * e.qty
        case Short => e1.realized - e.realized == (e.avgEntry - stop) * e.qty)
    && e1.exitReason.Some?
    && (e1.exitReason.value == RunnerTrailingStop <==> e.runnerActive)
    && (e1.exitReason.value == TrailingStop <==> !e.runnerActive && e.trailingActive && inProfit)
    && e1.exitReason.value in {RunnerTrailingStop, TrailingStop, StopLoss}
  }

  /** A position of the bot whose size differs takes the exchange's size and average; what was
      added by hand is remembered, what was taken away is not. */
  predicate IsResized(e: Entry, x: ExchangePosition, resync: Resync, e1: Entry) {
    && e1 == e.(qty := x.size, avgEntry := x.avgPrice, manualAdded := e1.manualAdded, liq := e1.liq,
                status := e1.status)
    && e1.manualAdded - e.manualAdded == (if x.size > e.qty then x.size - e.qty else 0.0)
    && (x.liq.Some? ==> e1.liq == x.liq) && (x.liq.None? ==> e1.liq == e.liq)
    && (resync.Untouched? ==> e1.status == e.status)
    && (resync.Activated? ==> e1.status == Active)
    && (resync.Flattened? ==> e1.status == Closed)
  }

  /** An unknown position is taken over as the exchange shows it, with a clean slate. */
  predicate IsAdoption(x: ExchangePosition, e1: Entry) {
    && e1.side == x.side && e1.qty == x.size && e1.avgEntry == x.avgPrice && e1.liq == x.liq
    && e1.stop == x.stop && e1.takeProfit == x.takeProfit
    && e1.source == External && e1.status == Active && e1.exitReason == None
    && e1.manualAdded == 0.0 && e1.realized == 0.0 && e1.unrealized == 0.0
    && !e1.runnerActive && !e1.trailingActive
  }

  /** What a pass writes to a symbol that is not settling, case by case. */
  predicate Writes(e: Option<Entry>, x: Option<ExchangePosition>, adopt: bool, resync: Resync, p: Passed) {
    match x
    case None =>
      if Gone(e) then p == Passed(e, Nothing)
      else if e.value.source == External then
        p == Passed(Some(e.value.(status := Closed, qty := 0.0)), ExternalClose)
      else p.report == ExchangeClose && p.entry.Some? && IsExchangeClose(e.value, p.entry.value)
    case Some(x) =>
      if Gone(e) then
        && p.report == ExternalPosition
        && if adopt then p.entry.Some? && IsAdoption(x, p.entry.value) else p.entry == e
      else if e.value.source == External then
        p == Passed(Some(e.value.(qty := x.size, avgEntry := x.avgPrice, liq := x.liq)), Nothing)
      else if e.value.qty == x.size then
        p == Passed(Some(e.value.(liq := x.liq, unrealized := x.unrealized)), Nothing)
      else p.report == QtyMismatch && p.entry.Some? && IsResized(e.value, x, resync, p.entry.value)
  }

  /** A symbol that is not settling is written as above; one that is settling is left alone
      unless the two sides already agree that it is open, or it is external. */
  lemma PassWrites(e: Option<Entry>, x: Option<ExchangePosition>, adopt: bool, resync: Resync)
    ensures Writes(e, x, adopt, resync, PassSymbol(e, x, false, adopt, resync))
    ensures var p := PassSymbol(e, x, true, adopt, resync);
            if x.Some? && !Gone(e) && (e.value.source == External || e.value.qty == x.value.size) then
              Writes(e, x, adopt, resync, p)
            else p == Passed(e, Nothing)
  {
    if e.Some? && x.None? && !Gone(e) && e.value.source == BotManaged {
      ExchangeCloseLaw(e.value);
      hide ClosedOnExchange, IsExchangeClose;
    }
  }

  lemma ExchangeCloseLaw(e: Entry)
    ensures IsExchangeClose(e, ClosedOnExchange(e))
  {
  }
}
