/** The in-flight position-update counter that keeps reconciliation away from a
    symbol while an order of the bot is being applied. */
module RuntimeState {

  type Updates = map<string, int>

  function InFlight(m: Updates, symbol: string): int {
    if symbol in m then m[symbol] else 0
  }

  function Begun(m: Updates, symbol: string): Updates {
    m[symbol := InFlight(m, symbol) + 1]
  }

  function Ended(m: Updates, symbol: string): Updates {
    if InFlight(m, symbol) <= 1 then m - {symbol} else m[symbol := InFlight(m, symbol) - 1]
  }

  predicate Positive(m: Updates) {
    forall s :: s in m ==> m[s] >= 1
  }

  /** Ending an update restores the registry exactly. */
  lemma EndUndoesBegin(m: Updates, symbol: string)
    requires Positive(m)
    ensures Ended(Begun(m, symbol), symbol) == m && Positive(Begun(m, symbol))
  {
    if symbol in m {
      assert m[symbol := m[symbol]] == m;
    } else {
      assert m[symbol := 1] - {symbol} == m;
    }
  }

  datatype Event = Begin(symbol: string) | End(symbol: string)

  function Replay(m: Updates, events: seq<Event>): Updates
    decreases |events|
  {
    if events == [] then m
    else Replay(match events[0] case Begin(s) => Begun(m, s) case End(s) => Ended(m, s),
                events[1..])
  }

  /** Begins minus ends of one symbol. */
  function Balance(events: seq<Event>, symbol: string): int {
    if events == [] then 0
    else (if events[0] == Begin(symbol) then 1 else if events[0] == End(symbol) then -1 else 0)
         + Balance(events[1..], symbol)
  }

  /** No update ends before it began, counting `open` updates already in flight. */
  predicate Bracketed(events: seq<Event>, symbol: string, open: int) {
    open >= 0 &&
    (events != [] ==>
       Bracketed(events[1..], symbol,
                 open + (if events[0] == Begin(symbol) then 1
                         else if events[0] == End(symbol) then -1 else 0)))
  }

  /** Over any interleaving of updates of any number of symbols, the registry holds
      exactly the number of updates still in flight. */
  lemma {:induction false} CountsInFlight(m: Updates, events: seq<Event>, symbol: string)
    requires Positive(m) && Bracketed(events, symbol, InFlight(m, symbol))
    ensures Positive(Replay(m, events))
    ensures InFlight(Replay(m, events), symbol) == InFlight(m, symbol) + Balance(events, symbol)
    decreases |events|
  {
    if events != [] {
      var m1 := match events[0] case Begin(s) => Begun(m, s) case End(s) => Ended(m, s);
      assert Positive(m1);
      CountsInFlight(m1, events[1..], symbol);
    }
  }

  class RuntimeState {
    var positionUpdates: Updates

    constructor ()
      ensures positionUpdates == map[]
    {
      positionUpdates := map[];
    }

    method BeginPositionUpdate(symbol: string)
      modifies this
      ensures positionUpdates == Begun(old(positionUpdates), symbol)
    {
      var count := if symbol in positionUpdates then positionUpdates[symbol] else 0;
      positionUpdates := positionUpdates[symbol := count + 1];
    }

    method EndPositionUpdate(symbol: string)
      modifies this
      ensures positionUpdates == Ended(old(positionUpdates), symbol)
    {
      var count := if symbol in positionUpdates then positionUpdates[symbol] else 0;
      if count <= 1 {
        positionUpdates := positionUpdates - {symbol};
      } else {
        positionUpdates := positionUpdates[symbol := count - 1];
      }
    }
  }
}
