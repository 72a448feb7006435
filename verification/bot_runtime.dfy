/** The runtime's coroutines as interleaved steps: each step is one stretch of code
    between two awaits that touches the state machine. */
module BotRuntime {
  import opened BotStateMachine

  /** The state machine together with the coroutines suspended at an await.
      boot: startup has not finished. sync: a START waits for its reconciliation.
      owners: WebSocket recoveries that found the bot RUNNING and wait to restore it.
      stopping: shutdown waits for its tasks. */
  datatype World = World(bot: BotState, boot: bool, sync: bool, owners: set<nat>, stopping: bool)

  datatype Step =
    | StartupDone | StartupFails
    | Start | SyncDone | SyncFails
    | Pause | Resume
    | WsBegin(task: nat) | WsDone(task: nat) | WsFails(task: nat)
    | KillSwitchTrip
    | ProtectionFailure(target: BotState)
    | ShutdownBegin | ShutdownDone

  const BOOT := World(Booting, true, false, {}, false)

  /** transition where a refusal is an exception that ends the coroutine. */
  function Try(from: BotState, to: BotState): BotState {
    if Accepts(from, to) then to else from
  }

  /** READY then RUNNING; the second is only asked for when the first succeeded. */
  function Confirm(from: BotState): BotState {
    if Accepts(from, Ready) then Try(Ready, Running) else from
  }

  /** What one step does; a step of a coroutine that is not suspended there does nothing. */
  function Next(w: World, s: Step): World {
    match s
    case StartupDone => if w.boot then w.(boot := false, bot := Try(w.bot, Standby)) else w
    case StartupFails => w.(boot := false)
    case Start =>
      if w.boot || w.sync || w.stopping || w.bot != Standby then w
      else w.(bot := Try(Try(Standby, StartRequested), Syncing), sync := true)
    case SyncDone => if w.sync then w.(sync := false, bot := Confirm(w.bot)) else w
    case SyncFails => w.(sync := false)
    case Pause => if w.bot == Running then w.(bot := Try(w.bot, Paused)) else w
    case Resume => if w.bot == Paused then w.(bot := Try(w.bot, Running)) else w
    case WsBegin(task) =>
      if w.bot == Running then w.(bot := Try(w.bot, Reconciling), owners := w.owners + {task}) else w
    case WsDone(task) =>
      if task !in w.owners then w
      else w.(owners := w.owners - {task},
              bot := if w.bot == Reconciling then Try(w.bot, Running) else w.bot)
    case WsFails(task) => w.(owners := w.owners - {task})
    case KillSwitchTrip => if w.bot == Running then w.(bot := Try(w.bot, RiskLocked)) else w
    case ProtectionFailure(target) =>
      if target == OrderLocked || target == EmergencyStop then w.(bot := target) else w
    case ShutdownBegin =>
      if w.boot || w.stopping then w
      else w.(stopping := true, sync := false, bot := if w.bot == Stopped then Stopped else Stopping)
    case ShutdownDone => if w.stopping then w.(stopping := false, bot := Stopped) else w
  }

  function RunFrom(w: World, steps: seq<Step>): World {
    if steps == [] then w else Next(RunFrom(w, steps[..|steps| - 1]), steps[|steps| - 1])
  }

  // ---- locked for good ----

  predicate Locked(b: BotState) {
    b in {RiskLocked, OrderLocked, EmergencyStop, Stopping, Stopped}
  }

  /** From a locked state no interleaving, forced moves included, leaves the locked states. */
  lemma {:induction false} LockedForGood(w: World, steps: seq<Step>)
    requires Locked(w.bot)
    ensures Locked(RunFrom(w, steps).bot)
  {
    if steps == [] {
    } else {
      LockedForGood(w, steps[..|steps| - 1]);
    }
  }

  // ---- reachable worlds ----

  /** Transient states are never observed at an await, each suspended coroutine matches
      the state that it left, and there is at most one recovery to come back from. */
  ghost predicate Coherent(w: World) {
    && w.bot != StartRequested && w.bot != Ready
    && (forall a, b :: a in w.owners && b in w.owners ==> a == b)
    && (w.owners != {} ==> w.bot == Reconciling || Locked(w.bot))
    && (w.boot ==> w.bot == Booting || Locked(w.bot))
    && (w.sync ==> w.bot == Syncing || Locked(w.bot))
    && (w.stopping ==> Locked(w.bot))
    && (w.bot == Booting || w.bot == Standby || w.bot == Syncing ==> w.owners == {})
  }

  lemma NextCoherent(w: World, s: Step)
    requires Coherent(w)
    ensures Coherent(Next(w, s))
  {
  }

  lemma {:induction false} RunsCoherent(w: World, steps: seq<Step>)
    requires Coherent(w)
    ensures Coherent(RunFrom(w, steps))
  {
    if steps == [] {
    } else {
      RunsCoherent(w, steps[..|steps| - 1]);
      NextCoherent(RunFrom(w, steps[..|steps| - 1]), steps[|steps| - 1]);
    }
  }

  // ---- exactly when the bot can still run ----

  /** What an operator could read off: which states still have a coroutine, or a command,
      that leads to RUNNING. */
  ghost predicate CanStillRun(w: World) {
    || w.bot == Running || w.bot == Paused || w.bot == Standby
    || (w.bot == Booting && w.boot)
    || (w.bot == Syncing && w.sync)
    || (w.bot == Reconciling && w.owners != {})
  }

  lemma DeadStep(w: World, s: Step)
    requires Coherent(w) && !CanStillRun(w)
    ensures !CanStillRun(Next(w, s))
  {
  }

  lemma {:induction false} DeadStaysDead(w: World, steps: seq<Step>)
    requires Coherent(w) && !CanStillRun(w)
    ensures Coherent(RunFrom(w, steps)) && !CanStillRun(RunFrom(w, steps))
  {
    hide Coherent, CanStillRun, Next;
    if steps == [] {
    } else {
      DeadStaysDead(w, steps[..|steps| - 1]);
      NextCoherent(RunFrom(w, steps[..|steps| - 1]), steps[|steps| - 1]);
      DeadStep(RunFrom(w, steps[..|steps| - 1]), steps[|steps| - 1]);
    }
  }

  /** A schedule that gets the bot to RUNNING where one exists. */
  ghost function WayToRun(w: World): seq<Step>
    requires CanStillRun(w)
  {
    match w.bot
    case Paused => [Resume]
    case Standby => [Start, SyncDone]
    case Booting => [StartupDone, Start, SyncDone]
    case Syncing => [SyncDone]
    case Reconciling => var task :| task in w.owners; [WsDone(task)]
    case _ => []
  }

  lemma RunOne(w: World, a: Step)
    ensures RunFrom(w, [a]) == Next(w, a)
  {
    assert [a][..0] == [];
  }

  lemma RunTwo(w: World, a: Step, b: Step)
    ensures RunFrom(w, [a, b]) == Next(Next(w, a), b)
  {
    assert [a, b][..1] == [a];
    RunOne(w, a);
  }

  lemma WayRuns(w: World)
    requires Coherent(w) && CanStillRun(w)
    ensures RunFrom(w, WayToRun(w)).bot == Running
  {
    var way := WayToRun(w);
    if |way| == 1 {
      RunOne(w, way[0]);
    } else if |way| == 2 {
      RunTwo(w, Start, SyncDone);
    } else if |way| == 3 {
      assert way[..2] == [StartupDone, Start];
      RunTwo(w, StartupDone, Start);
    }
  }

  /** Some interleaving takes the bot to RUNNING exactly when CanStillRun holds. A START or
      a recovery whose reconciliation raised leaves SYNCING or RECONCILING with nobody to
      finish it, and RISK_LOCKED and ORDER_LOCKED are never left although the table
      permits it. */
  lemma ReachesRunningIff(w: World)
    requires Coherent(w)
    ensures CanStillRun(w) <==> exists steps :: RunFrom(w, steps).bot == Running
  {
    if CanStillRun(w) {
      WayRuns(w);
    } else {
      forall steps ensures RunFrom(w, steps).bot != Running {
        DeadStaysDead(w, steps);
      }
    }
  }

  // ---- RUNNING comes from a START ----

  /** Step i is a START command handled in STANDBY. */
  ghost predicate StartedAt(steps: seq<Step>, i: int) {
    0 <= i < |steps| && steps[i] == Start && RunFrom(BOOT, steps[..i]).bot == Standby
  }

  /** Step j completes the reconciliation of SYNCING and makes the bot RUNNING. */
  ghost predicate ConfirmedAt(steps: seq<Step>, j: int) {
    && 0 <= j < |steps| && steps[j] == SyncDone
    && RunFrom(BOOT, steps[..j]).bot == Syncing && RunFrom(BOOT, steps[..j + 1]).bot == Running
  }

  ghost predicate Started(steps: seq<Step>) {
    exists i :: StartedAt(steps, i)
  }

  ghost predicate Confirmed(steps: seq<Step>) {
    exists i, j :: i < j && StartedAt(steps, i) && ConfirmedAt(steps, j)
  }

  lemma StartedSnoc(steps: seq<Step>, s: Step)
    requires Started(steps)
    ensures exists i :: i < |steps| && StartedAt(steps + [s], i)
  {
    var i :| StartedAt(steps, i);
    assert (steps + [s])[..i] == steps[..i];
    assert StartedAt(steps + [s], i);
  }

  lemma ConfirmedSnoc(steps: seq<Step>, s: Step)
    requires Confirmed(steps)
    ensures Confirmed(steps + [s])
  {
    var i, j :| i < j && StartedAt(steps, i) && ConfirmedAt(steps, j);
    assert (steps + [s])[..i] == steps[..i];
    assert (steps + [s])[..j] == steps[..j] && (steps + [s])[..j + 1] == steps[..j + 1];
    assert StartedAt(steps + [s], i) && ConfirmedAt(steps + [s], j);
  }

  /** Over every interleaving from boot, the bot is SYNCING only after a START handled in
      STANDBY, and RUNNING, PAUSED or RECONCILING only after that START's
      reconciliation completed in SYNCING. */
  lemma {:induction false} RunningNeedsStart(steps: seq<Step>)
    ensures RunFrom(BOOT, steps).bot == Syncing ==> Started(steps)
    ensures RunFrom(BOOT, steps).bot in {Running, Paused, Reconciling} ==> Confirmed(steps)
  {
    if steps == [] {
    } else {
      var init, s := steps[..|steps| - 1], steps[|steps| - 1];
      assert steps == init + [s];
      RunningNeedsStart(init);
      RunsCoherent(BOOT, init);
      StepNeedsStart(init, s);
    }
  }

  /** Where a step into SYNCING or into the started states comes from. */
  lemma StepSource(w: World, s: Step)
    requires Coherent(w)
    ensures Next(w, s).bot == Syncing ==> w.bot == Syncing || (w.bot == Standby && s == Start)
    ensures Next(w, s).bot in {Running, Paused, Reconciling} ==>
              || w.bot in {Running, Paused, Reconciling}
              || (w.bot == Syncing && s == SyncDone && Next(w, s).bot == Running)
  {
  }

  lemma StepNeedsStart(init: seq<Step>, s: Step)
    requires Coherent(RunFrom(BOOT, init))
    requires RunFrom(BOOT, init).bot == Syncing ==> Started(init)
    requires RunFrom(BOOT, init).bot in {Running, Paused, Reconciling} ==> Confirmed(init)
    ensures RunFrom(BOOT, init + [s]).bot == Syncing ==> Started(init + [s])
    ensures RunFrom(BOOT, init + [s]).bot in {Running, Paused, Reconciling} ==> Confirmed(init + [s])
  {
    hide Next, Coherent;
    var steps, w := init + [s], RunFrom(BOOT, init);
    assert steps[..|init|] == init && steps[..|init| + 1] == steps;
    assert RunFrom(BOOT, steps) == Next(w, s);
    StepSource(w, s);
    if w.bot == Standby && s == Start {
      assert StartedAt(steps, |init|);
    } else if w.bot == Syncing {
      StartedSnoc(init, s);
      var i :| StartedAt(steps, i) && i < |init|;
      if s == SyncDone && RunFrom(BOOT, steps).bot == Running {
        assert ConfirmedAt(steps, |init|);
      }
    } else if w.bot in {Running, Paused, Reconciling} {
      ConfirmedSnoc(init, s);
    }
  }

  /** The entry gate opens in no run before its START was confirmed, and once a run has
      locked, no continuation opens it again. */
  lemma EntriesNeedStart(steps: seq<Step>, more: seq<Step>)
    ensures PermitsEntry(RunFrom(BOOT, steps).bot) ==> Confirmed(steps)
    ensures Locked(RunFrom(BOOT, steps).bot) ==> !PermitsEntry(RunFrom(RunFrom(BOOT, steps), more).bot)
  {
    RunningNeedsStart(steps);
    if Locked(RunFrom(BOOT, steps).bot) {
      LockedForGood(RunFrom(BOOT, steps), more);
    }
  }

  // ---- what becomes of the entry gate ----

  /** No continuation of the world permits an entry. */
  ghost predicate ClosedForGood(w: World) {
    forall more :: !PermitsEntry(RunFrom(w, more).bot)
  }

  lemma LockedIsClosed(w: World)
    requires Locked(w.bot)
    ensures ClosedForGood(w)
  {
    forall more ensures !PermitsEntry(RunFrom(w, more).bot) {
      LockedForGood(w, more);
    }
  }

  lemma DeadIsClosed(w: World)
    requires Coherent(w) && !CanStillRun(w)
    ensures ClosedForGood(w)
  {
    forall more ensures !PermitsEntry(RunFrom(w, more).bot) {
      DeadStaysDead(w, more);
    }
  }

  /** A kill switch that trips while the bot is RUNNING locks it, and no continuation ever
      enters again; in any other state it changes nothing. */
  lemma TripLocks(w: World)
    ensures var tripped := Next(w, KillSwitchTrip);
            if w.bot == Running then tripped == w.(bot := RiskLocked) && ClosedForGood(tripped) else tripped == w
  {
    if w.bot == Running {
      LockedIsClosed(Next(w, KillSwitchTrip));
    }
  }

  /** A failed protection takes every world to its target, by force where the table has no
      such move, and for good. */
  lemma ProtectionLocks(w: World, target: BotState)
    requires target in {OrderLocked, EmergencyStop}
    ensures Next(w, ProtectionFailure(target)) == w.(bot := target)
    ensures ClosedForGood(Next(w, ProtectionFailure(target)))
  {
    LockedIsClosed(Next(w, ProtectionFailure(target)));
  }

  /** The first shutdown after startup leads to STOPPING, from STOPPED to STOPPED; its end
      to STOPPED; and from its beginning on nothing enters. A second one while it waits, or
      an end without a beginning, changes nothing. */
  lemma ShutdownCloses(w: World)
    ensures w.boot || w.stopping ==> Next(w, ShutdownBegin) == w
    ensures !w.stopping ==> Next(w, ShutdownDone) == w
    ensures !w.boot && !w.stopping ==>
              var w1 := Next(w, ShutdownBegin);
              && w1 == w.(bot := if w.bot == Stopped then Stopped else Stopping, stopping := true, sync := false)
              && Next(w1, ShutdownDone) == w1.(bot := Stopped, stopping := false)
              && ClosedForGood(w1)
  {
    if !w.boot && !w.stopping {
      LockedIsClosed(Next(w, ShutdownBegin));
    }
  }

  /** PAUSED is left for RUNNING by a RESUME only. */
  lemma {:induction false} PausedUntilResume(w: World, steps: seq<Step>)
    requires Coherent(w) && (w.bot == Paused || Locked(w.bot)) && Resume !in steps
    ensures Coherent(RunFrom(w, steps))
    ensures RunFrom(w, steps).bot == Paused || Locked(RunFrom(w, steps).bot)
  {
    if steps == [] {
    } else {
      var init := steps[..|steps| - 1];
      PausedUntilResume(w, init);
      NextCoherent(RunFrom(w, init), steps[|steps| - 1]);
    }
  }

  /** A pause while RUNNING closes the gate until a RESUME, which restores exactly the world
      before it; in other states neither command changes anything. */
  lemma PauseHolds(w: World, steps: seq<Step>)
    requires Coherent(w)
    ensures w.bot == Running ==>
              var paused := Next(w, Pause);
              && paused == w.(bot := Paused) && Next(paused, Resume) == w
              && (Resume !in steps ==> !PermitsEntry(RunFrom(paused, steps).bot))
    ensures w.bot != Running ==> Next(w, Pause) == w
    ensures w.bot != Paused ==> Next(w, Resume) == w
  {
    if w.bot == Running && Resume !in steps {
      NextCoherent(w, Pause);
      PausedUntilResume(Next(w, Pause), steps);
    }
  }

  /** A lost connection while RUNNING closes the gate; the recovery that found it restores
      exactly the world before, unless its reconciliation fails: then nothing ever enters
      again. */
  lemma RecoveryDecides(w: World, task: nat)
    requires Coherent(w) && w.bot == Running
    ensures var lost := Next(w, WsBegin(task));
            && lost.bot == Reconciling && !PermitsEntry(lost.bot)
            && Next(lost, WsDone(task)) == w
            && ClosedForGood(Next(lost, WsFails(task)))
  {
    var lost := Next(w, WsBegin(task));
    assert w.owners == {} && lost.owners - {task} == w.owners;
    NextCoherent(w, WsBegin(task));
    NextCoherent(lost, WsFails(task));
    DeadIsClosed(Next(lost, WsFails(task)));
  }

  /** Startup ends in STANDBY, or leaves a bot that never enters. */
  lemma StartupDecides()
    ensures Next(BOOT, StartupDone) == World(Standby, false, false, {}, false)
    ensures ClosedForGood(Next(BOOT, StartupFails))
  {
    DeadIsClosed(Next(BOOT, StartupFails));
  }

  /** A START in STANDBY waits in SYNCING; a reconciliation that completes opens the gate,
      and one that fails leaves SYNCING to nobody: nothing ever enters. Without a
      handled START the command changes nothing. */
  lemma StartDecides(w: World)
    requires Coherent(w)
    ensures w.bot == Standby && !w.boot && !w.stopping ==>
              var syncing := Next(w, Start);
              && syncing == w.(bot := Syncing, sync := true)
              && Next(syncing, SyncDone) == w.(bot := Running)
              && ClosedForGood(Next(syncing, SyncFails))
    ensures w.bot != Standby ==> Next(w, Start) == w
  {
    if w.bot == Standby && !w.boot && !w.stopping {
      NextCoherent(w, Start);
      NextCoherent(Next(w, Start), SyncFails);
      DeadIsClosed(Next(Next(w, Start), SyncFails));
    }
  }

  // ---- the coroutines ----

  /** The runtime: its state machine and the local variables its suspended coroutines
      resume with. */
  class BotRuntime {
    const stateMachine: BotStateMachine
    var boot: bool
    var sync: bool
    var owners: set<nat>
    var stopping: bool

    constructor ()
      ensures fresh(stateMachine) && Now() == BOOT
    {
      stateMachine := new BotStateMachine();
      boot, sync, owners, stopping := true, false, {}, false;
    }

    function Now(): World
      reads this, stateMachine
    {
      World(stateMachine.state, boot, sync, owners, stopping)
    }

    /** can_enter_new_position as the entry path asks it. */
    predicate MayEnter()
      reads this, stateMachine
      ensures MayEnter() <==> PermitsEntry(Now().bot)
    {
      stateMachine.CanEnterNewPosition()
    }

    /** startup after its last await. */
    method FinishStartup(failed: bool)
      modifies this, stateMachine
      ensures Now() == Next(old(Now()), if failed then StartupFails else StartupDone)
      ensures old(boot && !failed && stateMachine.state == Booting) ==> stateMachine.state == Standby
      ensures failed || !old(boot) ==> stateMachine.state == old(stateMachine.state)
    {
      if boot && !failed {
        var _ := stateMachine.Transition(Standby);
      }
      boot := false;
    }

    /** _start_trading up to its reconciliation. The command loop handles one command at a
        time, and runs only between startup and shutdown. */
    method StartTrading()
      modifies this, stateMachine
      ensures Now() == Next(old(Now()), Start)
      ensures stateMachine.state == if old(stateMachine.state == Standby && !boot && !sync && !stopping) then Syncing
                                    else old(stateMachine.state)
    {
      if boot || sync || stopping || stateMachine.state != Standby {
        return;
      }
      var requested := stateMachine.Transition(StartRequested);
      var syncing := stateMachine.Transition(Syncing);
      sync := true;
    }

    /** _start_trading after its reconciliation returned or raised. */
    method FinishStart(failed: bool)
      modifies this, stateMachine
      ensures Now() == Next(old(Now()), if failed then SyncFails else SyncDone)
      ensures old(sync && !failed && stateMachine.state == Syncing) ==> stateMachine.state == Running
      ensures failed || !old(sync) ==> stateMachine.state == old(stateMachine.state)
    {
      if sync && !failed {
        var ready := stateMachine.Transition(Ready);
        if ready {
          var running := stateMachine.Transition(Running);
        }
      }
      sync := false;
    }

    /** PAUSE_TRADING and RESUME_TRADING. */
    method PauseTrading()
      modifies this, stateMachine
      ensures Now() == Next(old(Now()), Pause)
      ensures stateMachine.state == if old(stateMachine.state) == Running then Paused else old(stateMachine.state)
    {
      if stateMachine.state == Running {
        var _ := stateMachine.Transition(Paused);
      }
    }

    method ResumeTrading()
      modifies this, stateMachine
      ensures Now() == Next(old(Now()), Resume)
      ensures stateMachine.state == if old(stateMachine.state) == Paused then Running else old(stateMachine.state)
    {
      if stateMachine.state == Paused {
        var _ := stateMachine.Transition(Running);
      }
    }

    /** _handle_ws_disconnect from its test of the state to its next await. */
    method BeginWsRecovery(task: nat)
      modifies this, stateMachine
      ensures Now() == Next(old(Now()), WsBegin(task))
      ensures stateMachine.state == if old(stateMachine.state) == Running then Reconciling else old(stateMachine.state)
    {
      var wasRunning := stateMachine.state == Running;
      if wasRunning {
        var _ := stateMachine.Transition(Reconciling);
        owners := owners + {task};
      }
    }

    /** _handle_ws_disconnect after its reconciliation returned or raised. */
    method FinishWsRecovery(task: nat, failed: bool)
      modifies this, stateMachine
      ensures Now() == Next(old(Now()), if failed then WsFails(task) else WsDone(task))
      ensures stateMachine.state == if old(!failed && task in owners && stateMachine.state == Reconciling) then Running
                                    else old(stateMachine.state)
    {
      var wasRunning := task in owners;
      if !failed && wasRunning && stateMachine.state == Reconciling {
        var _ := stateMachine.Transition(Running);
      }
      owners := owners - {task};
    }

    /** _apply_kill_switch_trip once the switch has a reason. */
    method ApplyKillSwitchTrip()
      modifies this, stateMachine
      ensures Now() == Next(old(Now()), KillSwitchTrip)
      ensures stateMachine.state == if old(stateMachine.state) == Running then RiskLocked else old(stateMachine.state)
    {
      if stateMachine.state == Running {
        var _ := stateMachine.Transition(RiskLocked);
      }
    }

    /** _transition_after_protection_failure: transition, or force when refused. */
    method TransitionAfterProtectionFailure(target: BotState)
      modifies this, stateMachine
      ensures Now() == Next(old(Now()), ProtectionFailure(target))
      ensures stateMachine.state == if target in {OrderLocked, EmergencyStop} then target else old(stateMachine.state)
    {
      if target == OrderLocked || target == EmergencyStop {
        var ok := stateMachine.Transition(target);
        if !ok {
          stateMachine.Force(target);
        }
      }
    }

    /** shutdown up to the wait for its tasks, and after it. */
    method BeginShutdown()
      modifies this, stateMachine
      ensures Now() == Next(old(Now()), ShutdownBegin)
      ensures stateMachine.state ==
              if old(boot || stopping || stateMachine.state == Stopped) then old(stateMachine.state) else Stopping
    {
      if boot || stopping {
        return;
      }
      if !stateMachine.IsTerminal() {
        var ok := stateMachine.Transition(Stopping);
        if !ok {
          stateMachine.Force(Stopping);
        }
      }
      sync := false;
      stopping := true;
    }

    method FinishShutdown()
      modifies this, stateMachine
      ensures Now() == Next(old(Now()), ShutdownDone)
      ensures stateMachine.state == if old(stopping) then Stopped else old(stateMachine.state)
    {
      if stopping {
        stateMachine.Force(Stopped);
        stopping := false;
      }
    }
  }
}
