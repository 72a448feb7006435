/** The bot's execution state and the table of permitted transitions. */
module BotStateMachine {

  datatype BotState =
    | Booting | Standby | StartRequested | Syncing | Ready | Running | Paused | RiskLocked
    | Reconciling | OrderLocked | EmergencyStop | Stopping | Stopped

  /** The targets a state may move to. */
  function Allowed(from: BotState): set<BotState> {
    match from
    case Booting => {Standby, Stopping}
    case Standby => {StartRequested, Stopping}
    case StartRequested => {Syncing, Standby, Stopping}
    case Syncing => {Ready, Standby, Reconciling, EmergencyStop, Stopping}
    case Ready => {Running, Standby, Stopping}
    case Running => {Paused, RiskLocked, Reconciling, OrderLocked, EmergencyStop, Stopping}
    case Paused => {Running, RiskLocked, Reconciling, EmergencyStop, Stopping}
    case RiskLocked => {Running, Paused, EmergencyStop, Stopping}
    case Reconciling => {Running, Paused, Standby, OrderLocked, EmergencyStop, Stopping}
    case OrderLocked => {Reconciling, Running, EmergencyStop, Stopping}
    case EmergencyStop => {Stopping, Stopped}
    case Stopping => {Stopped}
    case Stopped => {}
  }

  /** Whether asking for `to` is accepted; asking for the current state always is. */
  predicate Accepts(from: BotState, to: BotState) {
    to == from || to in Allowed(from)
  }

  /** The states that permit new entries. */
  predicate PermitsEntry(state: BotState) {
    state in {Running}
  }

  // ---- what the table allows over any number of moves ----

  predicate Walk(from: BotState, path: seq<BotState>)
    decreases |path|
  {
    path != [] ==> Accepts(from, path[0]) && Walk(path[0], path[1..])
  }

  function End(from: BotState, path: seq<BotState>): BotState
    decreases |path|
  {
    if path == [] then from else End(path[0], path[1..])
  }

  /** The states on the way out. */
  predicate Halting(state: BotState) {
    state in {EmergencyStop, Stopping, Stopped}
  }

  lemma {:induction false} HaltingStays(from: BotState, path: seq<BotState>)
    requires Halting(from) && Walk(from, path)
    ensures Halting(End(from, path))
    decreases |path|
  {
    if path != [] {
      HaltingStays(path[0], path[1..]);
    }
  }

  lemma Extends(from: BotState, to: BotState, path: seq<BotState>)
    requires Accepts(from, to) && Walk(to, path) && End(to, path) == Running
    ensures Walk(from, [to] + path) && End(from, [to] + path) == Running
  {
    assert ([to] + path)[1..] == path;
  }

  lemma WayBack(from: BotState) returns (path: seq<BotState>)
    requires !Halting(from)
    ensures Walk(from, path) && End(from, path) == Running
  {
    path := [];
    if from != Running {
      Extends(if from in {Booting, Standby, StartRequested, Syncing} then Ready else from, Running, []);
      path := [Running] + [];
      if from in {Booting, Standby, StartRequested, Syncing} {
        Extends(Syncing, Ready, path);
        path := [Ready] + path;
        if from in {Booting, Standby, StartRequested} {
          Extends(StartRequested, Syncing, path);
          path := [Syncing] + path;
          if from in {Booting, Standby} {
            Extends(Standby, StartRequested, path);
            path := [StartRequested] + path;
            if from == Booting {
              Extends(Booting, Standby, path);
              path := [Standby] + path;
            }
          }
        }
      }
    }
  }

  /** The table leads back to RUNNING from exactly the states short of EMERGENCY_STOP: locks
      included, so that it is the runtime, not the table, that makes a lock final. */
  lemma TableReachesRunningIff(from: BotState)
    ensures !Halting(from) <==> exists path :: Walk(from, path) && End(from, path) == Running
    ensures Accepts(from, Stopping) <==> from != Stopped
  {
    if Halting(from) {
      forall path | Walk(from, path) ensures End(from, path) != Running {
        HaltingStays(from, path);
      }
    } else {
      var path := WayBack(from);
    }
  }

  class BotStateMachine {
    var state: BotState

    constructor ()
      ensures state == Booting
    {
      state := Booting;
    }

    predicate CanTransition(to: BotState)
      reads this
    {
      to in Allowed(state)
    }

    /** transition: `ok` is false where the original raises InvalidTransition. */
    method Transition(to: BotState) returns (ok: bool)
      modifies this
      ensures ok == Accepts(old(state), to)
      ensures state == if ok then to else old(state)
    {
      if to == state {
        return true;
      }
      if !CanTransition(to) {
        return false;
      }
      state := to;
      return true;
    }

    method Force(to: BotState)
      modifies this
      ensures state == to
    {
      state := to;
    }

    predicate CanEnterNewPosition()
      reads this
    {
      PermitsEntry(state)
    }

    predicate IsTerminal()
      reads this
    {
      state in {Stopped}
    }
  }
}
