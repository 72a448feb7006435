/** The reconciliation loops over the registries, proved to do what one pass specifies. */
module ReconciliationManager {
  import opened Common
  import opened PositionModel
  import opened Reconciliation
  import opened OrderReconciliation

  /** A row of the exchange's position list; flat rows carry no position. */
  datatype Row = Row(symbol: string, position: Option<ExchangePosition>)

  /** The open rows by symbol, the last one winning. */
  function BySymbol(rows: seq<Row>): ExchangeBook {
    if rows == [] then map[]
    else
      var init, row := BySymbol(rows[..|rows| - 1]), rows[|rows| - 1];
      if row.position.Some? then init[row.symbol := row.position.value] else init
  }

  /** The reported symbols by kind. */
  datatype Tally = Tally(externalPositions: set<string>, qtyMismatches: set<string>, externalCloses: set<string>,
                         exchangeCloses: set<string>) {
    function Of(kind: Report): set<string> {
      match kind
      case Nothing => {}
      case ExternalPosition => externalPositions
      case QtyMismatch => qtyMismatches
      case ExternalClose => externalCloses
      case ExchangeClose => exchangeCloses
    }

    function With(kind: Report, symbol: string): Tally {
      match kind
      case Nothing => this
      case ExternalPosition => this.(externalPositions := externalPositions + {symbol})
      case QtyMismatch => this.(qtyMismatches := qtyMismatches + {symbol})
      case ExternalClose => this.(externalCloses := externalCloses + {symbol})
      case ExchangeClose => this.(exchangeCloses := exchangeCloses + {symbol})
    }
  }

  /** What a pass reports. */
  class ReconcileResult {
    var externalPositions: set<string>
    var qtyMismatches: set<string>
    var externalCloses: set<string>
    var exchangeCloses: set<string>
    var externalOrders: seq<ExchangeOrder>
    var staleCancelled: seq<ExchangeOrder>

    constructor ()
      ensures Empty()
    {
      externalPositions, qtyMismatches, externalCloses, exchangeCloses := {}, {}, {}, {};
      externalOrders, staleCancelled := [], [];
    }

    predicate Empty()
      reads this
    {
      && externalPositions == {} && qtyMismatches == {} && externalCloses == {} && exchangeCloses == {}
      && externalOrders == [] && staleCancelled == []
    }

    function Counts(): Tally
      reads this
    {
      Tally(externalPositions, qtyMismatches, externalCloses, exchangeCloses)
    }

    predicate Changed()
      reads this
    {
      !Empty()
    }
  }

  function Placed(reg: Registry, symbol: string, e: Option<Entry>): Registry {
    if e.Some? then reg[symbol := e.value] else reg
  }

  class ReconciliationManager {
    var positions: Registry
    var externalOrders: Orders
    var own: set<string>

    constructor (positions: Registry, own: set<string>)
      ensures this.positions == positions && this.own == own && externalOrders == map[]
    {
      this.positions, this.own, this.externalOrders := positions, own, map[];
    }

    method OpenBySymbol(rows: seq<Row>) returns (book: ExchangeBook)
      ensures book == BySymbol(rows)
    {
      book := map[];
      assert rows[..0] == [];
      for i := 0 to |rows|
        invariant book == BySymbol(rows[..i])
      {
        assert rows[..i + 1][..i] == rows[..i];
        if rows[i].position.Some? {
          book := book[rows[i].symbol := rows[i].position.value];
        }
      }
      assert rows[..|rows|] == rows;
    }

    /** The first loop's body: one symbol the exchange reports. */
    method ReconcileOpen(symbol: string, x: ExchangePosition, env: Env, result: ReconcileResult)
      modifies this, result
      ensures var p := PassSymbol(old(Lookup(positions, symbol)), Some(x), symbol in env.settling, env.adopt,
                                  ResyncOf(env, symbol));
              && positions == Placed(old(positions), symbol, p.entry)
              && result.Counts() == old(result.Counts()).With(p.report, symbol)
      ensures own == old(own) && externalOrders == old(externalOrders)
      ensures result.externalOrders == old(result.externalOrders) && result.staleCancelled == old(result.staleCancelled)
    {
      if symbol !in positions || positions[symbol].status == Closed {
        if symbol !in env.settling {
          if env.adopt {
            positions := positions[symbol := Adopted(x)];
          } else {
            assert symbol in positions ==> positions[symbol := positions[symbol]] == positions;
          }
          result.externalPositions := result.externalPositions + {symbol};
        } else {
          assert symbol in positions ==> positions[symbol := positions[symbol]] == positions;
        }
      } else {
        var internal := positions[symbol];
        assert positions[symbol := internal] == positions;
        if internal.source == External {
          positions := positions[symbol := internal.(qty := x.size, avgEntry := x.avgPrice, liq := x.liq)];
        } else if internal.qty != x.size {
          if symbol !in env.settling {
            positions := positions[symbol := Resized(internal, x, ResyncOf(env, symbol))];
            result.qtyMismatches := result.qtyMismatches + {symbol};
          }
        } else {
          positions := positions[symbol := internal.(liq := x.liq, unrealized := x.unrealized)];
        }
      }
    }

    /** The second loop's body: one registered symbol the exchange does not report. */
    method ReconcileAbsent(symbol: string, env: Env, result: ReconcileResult)
      requires symbol in positions
      modifies this, result
      ensures var p := PassSymbol(old(Lookup(positions, symbol)), None, symbol in env.settling, env.adopt,
                                  ResyncOf(env, symbol));
              && positions == Placed(old(positions), symbol, p.entry) && positions.Keys == old(positions.Keys)
              && result.Counts() == old(result.Counts()).With(p.report, symbol)
      ensures own == old(own) && externalOrders == old(externalOrders)
      ensures result.externalOrders == old(result.externalOrders) && result.staleCancelled == old(result.staleCancelled)
    {
      var internal := positions[symbol];
      assert positions[symbol := internal] == positions;
      if internal.status in {Active, Pending, Closing} && symbol !in env.settling {
        if internal.source == BotManaged {
          positions := positions[symbol := ClosedOnExchange(internal)];
          result.exchangeCloses := result.exchangeCloses + {symbol};
        } else {
          positions := positions[symbol := ClosedExternally(internal)];
          result.externalCloses := result.externalCloses + {symbol};
        }
      }
    }

    /** The first loop of _reconcile_positions. */
    method ReconcileReported(book: ExchangeBook, env: Env, result: ReconcileResult)
      requires result.Empty()
      modifies this, result
      ensures Progress(old(positions), book, env, book.Keys, positions, result.Counts())
      ensures own == old(own) && externalOrders == old(externalOrders)
      ensures result.externalOrders == [] && result.staleCancelled == []
    {
      hide PassSymbol, Progress, Placed, Tally.With, Tally.Of;
      ghost var was := positions;
      ghost var done: set<string> := {};
      ProgressStart(was, book, env, result.Counts());
      var todo := book.Keys;
      while todo != {}
        invariant todo <= book.Keys && done == book.Keys - todo
        invariant Progress(was, book, env, done, positions, result.Counts())
        invariant own == old(own) && externalOrders == old(externalOrders)
        invariant result.externalOrders == [] && result.staleCancelled == []
        decreases todo
      {
        var symbol :| symbol in todo;
        ghost var now, tally := positions, result.Counts();
        ReconcileOpen(symbol, book[symbol], env, result);
        ProgressStep(was, book, env, done, now, tally, symbol, positions);
        todo, done := todo - {symbol}, done + {symbol};
      }
      assert done == book.Keys;
    }

    /** The same, as progress over the whole registry. */
    method ReconcileAbsentNext(symbol: string, book: ExchangeBook, env: Env, result: ReconcileResult,
                               ghost was: Registry, ghost done: set<string>)
      requires symbol in positions && symbol !in book && symbol !in done
      requires Progress(was, book, env, done, positions, result.Counts())
      modifies this, result
      ensures Progress(was, book, env, done + {symbol}, positions, result.Counts())
      ensures positions.Keys == old(positions.Keys) && own == old(own) && externalOrders == old(externalOrders)
      ensures result.externalOrders == old(result.externalOrders) && result.staleCancelled == old(result.staleCancelled)
    {
      hide PassSymbol, Progress, Placed, Tally.With, Tally.Of;
      ReconcileAbsent(symbol, env, result);
      ProgressStep(was, book, env, done, old(positions), old(result.Counts()), symbol, positions);
    }

    /** The second loop of _reconcile_positions. */
    method ReconcileUnreported(book: ExchangeBook, env: Env, result: ReconcileResult, ghost was: Registry)
      requires Progress(was, book, env, book.Keys, positions, result.Counts())
      requires result.externalOrders == [] && result.staleCancelled == []
      modifies this, result
      ensures Progress(was, book, env, was.Keys + book.Keys, positions, result.Counts())
      ensures own == old(own) && externalOrders == old(externalOrders)
      ensures result.externalOrders == [] && result.staleCancelled == []
    {
      hide PassSymbol, Progress, Placed, Tally.With, Tally.Of;
      ProgressKeys(was, book, env, positions, result.Counts());
      var todo := positions.Keys - book.Keys;
      ghost var all, done := was.Keys + book.Keys, book.Keys;
      assert done == all - todo;
      while todo != {}
        invariant todo <= positions.Keys && todo !! book.Keys && todo <= all && done == all - todo
        invariant Progress(was, book, env, done, positions, result.Counts())
        invariant own == old(own) && externalOrders == old(externalOrders)
        invariant result.externalOrders == [] && result.staleCancelled == []
        decreases todo
      {
        var symbol :| symbol in todo;
        ReconcileAbsentNext(symbol, book, env, result, was, done);
        todo, done := todo - {symbol}, done + {symbol};
      }
      assert done == was.Keys + book.Keys;
    }

    /** _reconcile_positions. */
    method ReconcilePositions(book: ExchangeBook, env: Env, result: ReconcileResult)
      requires result.Empty()
      modifies this, result
      ensures positions == PassAll(old(positions), book, env)
      ensures forall kind :: kind != Nothing ==> result.Counts().Of(kind) == Reported(old(positions), book, env, kind)
      ensures own == old(own) && externalOrders == old(externalOrders)
      ensures result.externalOrders == [] && result.staleCancelled == []
    {
      hide Progress, PassAll, Reported;
      ReconcileReported(book, env, result);
      ReconcileUnreported(book, env, result, old(positions));
      ProgressDone(old(positions), book, env, positions, result.Counts());
    }

    /** _reconcile_orders; `rest` is what stays open on the exchange. */
    method ReconcileOrders(open: seq<ExchangeOrder>, result: ReconcileResult) returns (rest: seq<ExchangeOrder>)
      requires result.externalOrders == [] && result.staleCancelled == []
      modifies this, result
      ensures var known := own + old(externalOrders).Keys;
              && rest == Remaining(open, positions, known)
              && result.staleCancelled == Handled(open, positions, known, Cancel)
              && result.externalOrders == Handled(open, positions, known, Foreign)
              && externalOrders == Registered(old(externalOrders), result.externalOrders)
      ensures own == old(own) && positions == old(positions) && result.Counts() == old(result.Counts())
    {
      hide Classify, Lookup;
      var known := own + externalOrders.Keys;
      rest := [];
      assert open[..0] == [];
      for i := 0 to |open|
        invariant rest == Remaining(open[..i], positions, known)
        invariant result.staleCancelled == Handled(open[..i], positions, known, Cancel)
        invariant result.externalOrders == Handled(open[..i], positions, known, Foreign)
        invariant externalOrders == Registered(old(externalOrders), result.externalOrders)
        invariant own == old(own) && positions == old(positions) && result.Counts() == old(result.Counts())
      {
        var o := open[i];
        assert open[..i + 1][..i] == open[..i];
        match Classify(o, Lookup(positions, o.symbol), known)
        case Cancel =>
          result.staleCancelled := result.staleCancelled + [o];
        case Ours =>
          rest := rest + [o];
        case Foreign =>
          rest := rest + [o];
          assert (result.externalOrders + [o])[..|result.externalOrders|] == result.externalOrders;
          externalOrders := externalOrders[o.id := o];
          result.externalOrders := result.externalOrders + [o];
      }
      assert open[..|open|] == open;
    }

    /** The registries, with the orders open on the exchange. */
    function Now(open: seq<ExchangeOrder>): State
      reads this
    {
      State(positions, own, externalOrders, open)
    }

    /** reconcile_once. */
    method ReconcileOnce(rows: seq<Row>, open: seq<ExchangeOrder>, env: Env)
      returns (result: ReconcileResult, rest: seq<ExchangeOrder>)
      modifies this
      ensures fresh(result)
      ensures Now(rest) == Reconciled(old(Now(open)), BySymbol(rows), env)
      ensures forall kind :: kind != Nothing ==>
                result.Counts().Of(kind) == Reported(old(positions), BySymbol(rows), env, kind)
      ensures result.staleCancelled == Cancelled(old(Now(open)), BySymbol(rows), env)
      ensures result.externalOrders == NewForeign(old(Now(open)), BySymbol(rows), env)
    {
      hide PassAll, Reported, Handled, Remaining, Registered, Tally.Of;
      result := new ReconcileResult();
      var book := OpenBySymbol(rows);
      ReconcilePositions(book, env, result);
      rest := ReconcileOrders(open, result);
    }

    /** Two passes over one snapshot: the first converges, the second reports nothing. */
    method ReconcileTwice(rows: seq<Row>, open: seq<ExchangeOrder>, env: Env, later: Env)
      returns (result: ReconcileResult)
      requires AllResolvable(positions, BySymbol(rows), env)
      modifies this
      ensures AllInStep(positions, BySymbol(rows)) && !result.Changed()
    {
      hide AllResolvable, AllInStep, PassAll, Reported, Handled, Remaining, Registered, SameToOrders, BySymbol;
      ghost var before, book := Now(open), BySymbol(rows);
      var _, rest := ReconcileOnce(rows, open, env);
      ghost var once := Now(rest);
      result, rest := ReconcileOnce(rows, rest, later);
      SecondReconcileIsQuiet(before, book, env, later, later);
      ReconciliationConverges(before.reg, book, env);
      SecondPassIsQuiet(once.reg, book, later, later);
      assert result.Counts().Of(ExternalPosition) == {} && result.Counts().Of(QtyMismatch) == {};
      assert result.Counts().Of(ExternalClose) == {} && result.Counts().Of(ExchangeClose) == {};
    }
  }

  /** Everything in `done` has been passed and reported, everything else is untouched. */
  ghost predicate Progress(was: Registry, book: ExchangeBook, env: Env, done: set<string>, now: Registry, tally: Tally)
  {
    && (forall symbol :: Lookup(now, symbol) ==
                         if symbol in done then At(was, book, env, symbol).entry else Lookup(was, symbol))
    && (forall kind, symbol :: kind != Nothing ==>
                                 (symbol in tally.Of(kind) <==>
                                  symbol in done && At(was, book, env, symbol).report == kind))
  }

  lemma ProgressStart(was: Registry, book: ExchangeBook, env: Env, tally: Tally)
    requires tally == Tally({}, {}, {}, {})
    ensures Progress(was, book, env, {}, was, tally)
  {
  }

  /** Passing one more symbol the way one pass specifies. */
  lemma ProgressStep(was: Registry, book: ExchangeBook, env: Env, done: set<string>, now: Registry, tally: Tally,
                     symbol: string, next: Registry)
    requires Progress(was, book, env, done, now, tally) && symbol !in done
    requires var p := PassSymbol(Lookup(now, symbol), Lookup(book, symbol), symbol in env.settling, env.adopt,
                                 ResyncOf(env, symbol));
             next == Placed(now, symbol, p.entry)
    ensures var p := PassSymbol(Lookup(now, symbol), Lookup(book, symbol), symbol in env.settling, env.adopt,
                                ResyncOf(env, symbol));
            Progress(was, book, env, done + {symbol}, next, tally.With(p.report, symbol))
  {
    assert Lookup(now, symbol) == Lookup(was, symbol);
    NeverForgotten(Lookup(was, symbol), Lookup(book, symbol), symbol in env.settling, env.adopt, ResyncOf(env, symbol));
    hide PassSymbol;
    forall s ensures Lookup(next, s) == if s in done + {symbol} then At(was, book, env, s).entry else Lookup(was, s) {
      assert Lookup(now, s) == if s in done then At(was, book, env, s).entry else Lookup(was, s);
    }
    var report := At(was, book, env, symbol).report;
    forall kind, s | kind != Nothing
      ensures s in tally.With(report, symbol).Of(kind) <==>
              s in done + {symbol} && At(was, book, env, s).report == kind
    {
      assert s in tally.Of(kind) <==> s in done && At(was, book, env, s).report == kind;
      assert tally.With(report, symbol).Of(kind) == tally.Of(kind) + if report == kind then {symbol} else {};
    }
  }

  /** A pass removes no entry. */
  lemma NeverForgotten(e: Option<Entry>, x: Option<ExchangePosition>, settling: bool, adopt: bool, resync: Resync)
    ensures e.Some? ==> PassSymbol(e, x, settling, adopt, resync).entry.Some?
  {
  }

  lemma ProgressKeys(was: Registry, book: ExchangeBook, env: Env, now: Registry, tally: Tally)
    requires Progress(was, book, env, book.Keys, now, tally)
    ensures now.Keys - book.Keys == was.Keys - book.Keys
  {
    forall s | s !in book ensures s in now <==> s in was {
      assert Lookup(now, s) == Lookup(was, s);
    }
  }

  lemma ProgressDone(was: Registry, book: ExchangeBook, env: Env, now: Registry, tally: Tally)
    requires Progress(was, book, env, was.Keys + book.Keys, now, tally)
    ensures now == PassAll(was, book, env)
    ensures forall kind :: kind != Nothing ==> tally.Of(kind) == Reported(was, book, env, kind)
  {
    hide PassSymbol;
    forall symbol ensures Lookup(PassAll(was, book, env), symbol) == Lookup(now, symbol) {
      PassLookup(was, book, env, symbol);
    }
    SameRegistry(now, PassAll(was, book, env));
  }
}
