/** Whole PAPER sessions: entries, management cycles and operator closes of any
    symbols, interleaved. */
module PaperSessions {
  import opened PositionModel
  import opened Management
  import opened Trading
  import opened History
  import opened Quantity
  import opened PaperBooks
  import opened PaperCycles

  /** The books and the manager's tracking. All of it is carried over by symbol here; the
      original keeps its scenario and delay entries by symbol and opening time, and what is
      proved below holds for any tracking a cycle starts from. */
  datatype Session = Session(books: Books, tracking: map<string, Tracking>)

  datatype Event =
    | Enter(planned: PositionState, quote: Quote)
    | ManageCycle(index: nat, cycle: Cycle)
    | OperatorClose(index: nat, percent: real, reason: ExitReason, quote: Quote)

  function TrackingOf(s: Session, symbol: string): Tracking {
    if symbol in s.tracking then s.tracking[symbol] else FRESH
  }

  /** One event. The manager's orders and the operator's are executed by the engine;
      an entry is only taken with a positive size on a symbol without a position. */
  function Happens(f: PE.Fees, cfg: Config, s: Session, e: Event): Session {
    match e
    case Enter(planned, quote) =>
      if Allowed(s.books, OpenOp(planned, quote)) then s.(books := Open(f, s.books, planned, quote)) else s
    case ManageCycle(i, cycle) =>
      if i >= |s.books.positions| then s
      else
        var symbol := s.books.positions[i].plan.symbol;
        var (books, trk) := PaperManage(f, cfg, s.books, i, TrackingOf(s, symbol), cycle);
        Session(books, s.tracking[symbol := trk])
    case OperatorClose(i, percent, reason, quote) =>
      if i >= |s.books.positions| then s
      else
        var p := s.books.positions[i];
        var command := CloseCommand(percent, reason, AlreadyFlat, quote);
        if !CommandRuns(p, command) then s
        else
          var qty := CommandQty(p, command);
          s.(books := Close(f, s.books, i, qty, reason, qty >= p.book.qty, quote))
  }

  function Play(f: PE.Fees, cfg: Config, s: Session, events: seq<Event>): Session
    decreases |events|
  {
    if events == [] then s else Play(f, cfg, Happens(f, cfg, s, events[0]), events[1..])
  }

  lemma HappensAgrees(f: PE.Fees, cfg: Config, s: Session, e: Event, initial: real, marks: PE.Marks)
    requires Fractions(cfg) && PE.Distinct(marks) && AllAgree(s.books, initial, marks)
    ensures AllAgree(Happens(f, cfg, s, e).books, initial, marks)
  {
    hide Open, PaperManage, Close, AllAgree, CommandQty;
    match e
    case Enter(planned, quote) =>
      if Allowed(s.books, OpenOp(planned, quote)) {
        OpenAgrees(f, s.books, planned, quote, initial, marks);
      }
    case ManageCycle(i, cycle) =>
      if i < |s.books.positions| {
        PaperManageAgrees(f, cfg, s.books, i, TrackingOf(s, s.books.positions[i].plan.symbol), cycle, initial, marks);
      }
    case OperatorClose(i, percent, reason, quote) =>
      var command := CloseCommand(percent, reason, AlreadyFlat, quote);
      if i < |s.books.positions| && CommandRuns(s.books.positions[i], command) {
        ActiveOrClosed(s.books, i, initial, marks);
        CommandWithin(s.books.positions[i], command);
        var qty := CommandQty(s.books.positions[i], command);
        CloseAgrees(f, s.books, i, qty, reason, qty >= s.books.positions[i].book.qty, quote, initial, marks);
      }
  }

  lemma ActiveOrClosed(b: Books, i: nat, initial: real, marks: PE.Marks)
    requires AllAgree(b, initial, marks) && i < |b.positions|
    ensures b.positions[i].status == Active || b.positions[i].status == Closed
    ensures b.positions[i].book.qty >= 0.0
    ensures b.positions[i].status == Closed ==> b.positions[i].book.qty == 0.0
  {
    assert Recorded(b, i);
  }

  lemma {:induction false} PlayAgrees(f: PE.Fees, cfg: Config, s: Session, events: seq<Event>, initial: real,
                                      marks: PE.Marks)
    requires Fractions(cfg) && PE.Distinct(marks) && AllAgree(s.books, initial, marks)
    ensures AllAgree(Play(f, cfg, s, events).books, initial, marks)
    decreases |events|
  {
    if events != [] {
      hide AllAgree, Happens;
      HappensAgrees(f, cfg, s, events[0], initial, marks);
      PlayAgrees(f, cfg, Happens(f, cfg, s, events[0]), events[1..], initial, marks);
    }
  }

  /** After any session from a fresh engine: the engine's net of every symbol is exactly
      its open position, a CLOSED position holds nothing, and equity minus the initial
      balance is the net PnL over all positions ever opened, under any marks. */
  lemma SessionBooksAgree(f: PE.Fees, cfg: Config, initial: real, events: seq<Event>, marks: PE.Marks)
    requires Fractions(cfg) && PE.Distinct(marks)
    ensures var b := Play(f, cfg, Session(Start(initial), map[]), events).books;
            && Agree(b)
            && (forall i :: 0 <= i < |b.positions| && b.positions[i].status == Closed ==>
                              b.positions[i].book.qty == 0.0)
            && PE.Equity(b.engine, marks) - initial == Pnl.NetPnl(b.positions, marks, 0.0)
  {
    PE.NothingUnrealized(marks);
    assert AllAgree(Start(initial), initial, marks);
    PlayAgrees(f, cfg, Session(Start(initial), map[]), events, initial, marks);
    var b := Play(f, cfg, Session(Start(initial), map[]), events).books;
    forall i | 0 <= i < |b.positions| && b.positions[i].status == Closed ensures b.positions[i].book.qty == 0.0 {
      ActiveOrClosed(b, i, initial, marks);
    }
  }

  // ---- what the published figure loses along a session ----

  lemma ManageKeepsPlan(f: PE.Fees, cfg: Config, b: Books, i: nat, trk: Tracking, s: Cycle)
    requires i < |b.positions|
    ensures var b1 := PaperManage(f, cfg, b, i, trk, s).0;
            && |b1.positions| == |b.positions|
            && b1.positions == b.positions[i := b1.positions[i]]
            && b1.positions[i].plan == b.positions[i].plan
            && (!Managed(b.positions[i]) ==> b1.positions == b.positions)
  {
    var l := Life(b.positions[i], trk);
    var s1 := Answered(f, cfg, b.engine, l, s);
    hide Answered, EngineAfter, Evaluate;
    CycleKeepsPlan(cfg, l, s1);
  }

  /** A management cycle forgets nothing. */
  lemma ManageForgetsNothing(f: PE.Fees, cfg: Config, b: Books, i: nat, trk: Tracking, s: Cycle, initial: real,
                             marks: PE.Marks)
    requires Fractions(cfg) && PE.Distinct(marks) && AllAgree(b, initial, marks) && i < |b.positions|
    ensures Gap(PaperManage(f, cfg, b, i, trk, s).0, initial, marks) == Gap(b, initial, marks)
  {
    var b1 := PaperManage(f, cfg, b, i, trk, s).0;
    ManageKeepsPlan(f, cfg, b, i, trk, s);
    if Managed(b.positions[i]) {
      ActiveIsLatest(b, i);
      ReplacedUpdate(b.positions, i, b1.positions[i]);
    }
    hide PaperManage, AllAgree, Gap, Replaced;
    PaperManageAgrees(f, cfg, b, i, trk, s, initial, marks);
    GapIsReplaced(b, initial, marks);
    GapIsReplaced(b1, initial, marks);
  }

  /** What an event makes the registry forget: only an entry on a symbol with a record. */
  function Forgets(s: Session, e: Event): real {
    match e
    case Enter(planned, quote) =>
      if Allowed(s.books, OpenOp(planned, quote)) then
        RecordNet(RecordOf(s.books.positions, planned.plan.symbol))
      else 0.0
    case _ => 0.0
  }

  function Forgotten(f: PE.Fees, cfg: Config, s: Session, events: seq<Event>): real
    decreases |events|
  {
    if events == [] then 0.0
    else Forgets(s, events[0]) + Forgotten(f, cfg, Happens(f, cfg, s, events[0]), events[1..])
  }

  lemma HappensGap(f: PE.Fees, cfg: Config, s: Session, e: Event, initial: real, marks: PE.Marks)
    requires Fractions(cfg) && PE.Distinct(marks) && AllAgree(s.books, initial, marks)
    ensures Gap(Happens(f, cfg, s, e).books, initial, marks) == Gap(s.books, initial, marks) + Forgets(s, e)
  {
    hide Open, PaperManage, Close, AllAgree, CommandQty, Gap, RecordNet;
    match e
    case Enter(planned, quote) =>
      if Allowed(s.books, OpenOp(planned, quote)) {
        EntryForgets(f, s.books, planned, quote, initial, marks);
      }
    case ManageCycle(i, cycle) =>
      if i < |s.books.positions| {
        ManageForgetsNothing(f, cfg, s.books, i, TrackingOf(s, s.books.positions[i].plan.symbol), cycle, initial,
                             marks);
      }
    case OperatorClose(i, percent, reason, quote) =>
      var command := CloseCommand(percent, reason, AlreadyFlat, quote);
      if i < |s.books.positions| && CommandRuns(s.books.positions[i], command) {
        ActiveOrClosed(s.books, i, initial, marks);
        CommandWithin(s.books.positions[i], command);
        var qty := CommandQty(s.books.positions[i], command);
        CloseForgetsNothing(f, s.books, i, qty, reason, qty >= s.books.positions[i].book.qty, quote, initial, marks);
      }
  }

  lemma {:induction false} PlayGap(f: PE.Fees, cfg: Config, s: Session, events: seq<Event>, initial: real,
                                   marks: PE.Marks)
    requires Fractions(cfg) && PE.Distinct(marks) && AllAgree(s.books, initial, marks)
    ensures Gap(Play(f, cfg, s, events).books, initial, marks) ==
            Gap(s.books, initial, marks) + Forgotten(f, cfg, s, events)
    decreases |events|
  {
    if events != [] {
      hide AllAgree, Happens, Gap, Forgets;
      HappensGap(f, cfg, s, events[0], initial, marks);
      HappensAgrees(f, cfg, s, events[0], initial, marks);
      PlayGap(f, cfg, Happens(f, cfg, s, events[0]), events[1..], initial, marks);
    }
  }

  /** Over any session from a fresh engine, the published figure misses the account's change
      by exactly what the records overwritten at each entry had realized after fees. */
  lemma FigureMissesForgotten(f: PE.Fees, cfg: Config, initial: real, events: seq<Event>, marks: PE.Marks)
    requires Fractions(cfg) && PE.Distinct(marks)
    ensures var start := Session(Start(initial), map[]);
            var b := Play(f, cfg, start, events).books;
            PE.Equity(b.engine, marks) - initial ==
            Pnl.NetPnl(Registry(b.positions), marks, 0.0) + Forgotten(f, cfg, start, events)
  {
    PE.NothingUnrealized(marks);
    assert AllAgree(Start(initial), initial, marks);
    assert Gap(Start(initial), initial, marks) == 0.0;
    hide AllAgree;
    PlayGap(f, cfg, Session(Start(initial), map[]), events, initial, marks);
  }
}
