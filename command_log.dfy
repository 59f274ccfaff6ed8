/** `createCommandManager`: the append-only, capped log of render commands.
    The array itself is module-level state, shared by every manager. */
module CommandLog {
  import opened Commands
  import opened EventEmitter
  import opened Broadcaster

  const MaxItems := 200
  const MaxReachedAlert := "Maximum of 200 commands is reached."

  /** The module-level `commands` array. */
  class Log {
    var commands: seq<Command>

    constructor ()
      ensures commands == []
    {
      commands := [];
    }
  }

  class CommandManager {
    /** `commands`: every manager built on the same `Log` sees the same array. */
    const log: Log
    const broadcaster: Emitter<Message>
    var isMaxReachedWarningShown: bool
    var isDisposed: bool
    /** The texts passed to `alert`, oldest first. */
    var alerts: seq<string>
    /** How many alerts were raised since the manager was built or last cleared. */
    ghost var alertsSinceClear: nat

    ghost predicate Valid()
      reads this, log, broadcaster
    {
      broadcaster.Valid() &&
      |log.commands| <= MaxItems &&
      alertsSinceClear == (if isMaxReachedWarningShown then 1 else 0)
    }

    constructor (log: Log, broadcaster: Emitter<Message>)
      requires broadcaster.Valid() && |log.commands| <= MaxItems
      ensures Valid()
      ensures this.log == log && this.broadcaster == broadcaster
      ensures !isMaxReachedWarningShown && !isDisposed && alerts == []
    {
      this.log := log;
      this.broadcaster := broadcaster;
      isMaxReachedWarningShown := false;
      isDisposed := false;
      alerts := [];
      alertsSinceClear := 0;
    }

    /** `add(command)`: after `dispose`, nothing. At capacity, nothing is
        appended and nothing is emitted; the first time this happens an alert
        is raised. Otherwise the command is appended and one
        "RenderCommandAdded" message carrying it is emitted. */
    method Add(command: Command)
      requires Valid()
      modifies this, log, broadcaster
      ensures Valid()
      ensures isDisposed == old(isDisposed)
      ensures old(isDisposed) ==>
        log.commands == old(log.commands) && alerts == old(alerts) &&
        isMaxReachedWarningShown == old(isMaxReachedWarningShown) &&
        broadcaster.handlers == old(broadcaster.handlers) && broadcaster.history == old(broadcaster.history)
      ensures !old(isDisposed) && |old(log.commands)| >= MaxItems ==>
        log.commands == old(log.commands) && isMaxReachedWarningShown &&
        alerts == old(alerts) + (if old(isMaxReachedWarningShown) then [] else [MaxReachedAlert]) &&
        broadcaster.handlers == old(broadcaster.handlers) && broadcaster.history == old(broadcaster.history)
      ensures !old(isDisposed) && |old(log.commands)| < MaxItems ==>
        log.commands == old(log.commands) + [command] && alerts == old(alerts) &&
        isMaxReachedWarningShown == old(isMaxReachedWarningShown) &&
        broadcaster.history == old(broadcaster.history) + [Message(RenderCommandAdded, CommandPayload(command))] &&
        broadcaster.handlers == Survivors(old(broadcaster.handlers), Message(RenderCommandAdded, CommandPayload(command)))
      ensures alertsSinceClear <= 1
    {
      if isDisposed {
        return;
      }
      if |log.commands| >= MaxItems {
        if !isMaxReachedWarningShown {
          alerts := alerts + [MaxReachedAlert];
          alertsSinceClear := alertsSinceClear + 1;
          isMaxReachedWarningShown := true;
        }
        return;
      }
      log.commands := log.commands + [command];
      var _ := broadcaster.Emit(Message(RenderCommandAdded, CommandPayload(command)));
    }

    /** `clear()`: after `dispose`, nothing. Otherwise the log is emptied,
        "RenderCommandsCleared" is emitted and the alert may be raised again. */
    method Clear()
      requires Valid()
      modifies this, log, broadcaster
      ensures Valid()
      ensures isDisposed == old(isDisposed) && alerts == old(alerts)
      ensures old(isDisposed) ==>
        log.commands == old(log.commands) && isMaxReachedWarningShown == old(isMaxReachedWarningShown) &&
        broadcaster.handlers == old(broadcaster.handlers) && broadcaster.history == old(broadcaster.history)
      ensures !old(isDisposed) ==>
        log.commands == [] && !isMaxReachedWarningShown && alertsSinceClear == 0 &&
        broadcaster.history == old(broadcaster.history) + [Message(RenderCommandsCleared, NoPayload)] &&
        broadcaster.handlers == Survivors(old(broadcaster.handlers), Message(RenderCommandsCleared, NoPayload))
    {
      if isDisposed {
        return;
      }
      log.commands := [];
      var _ := broadcaster.Emit(Message(RenderCommandsCleared, NoPayload));
      isMaxReachedWarningShown := false;
      alertsSinceClear := 0;
    }

    /** `dispose()`: empties the shared log without emitting anything; every
        later `add` and `clear` does nothing. */
    method Dispose()
      requires Valid()
      modifies this, log
      ensures Valid()
      ensures isDisposed && log.commands == []
      ensures alerts == old(alerts) && isMaxReachedWarningShown == old(isMaxReachedWarningShown)
    {
      isDisposed := true;
      log.commands := [];
    }
  }

  /** Two managers over one log: what one adds the other sees, and disposing
      one empties the log the other reads; the second manager stays usable. */
  method SharedLogScenario(c1: Command, c2: Command)
    returns (seenByOther: seq<Command>, afterDispose: seq<Command>, afterReAdd: seq<Command>)
    ensures seenByOther == [c1]
    ensures afterDispose == []
    ensures afterReAdd == [c2]
  {
    var log := new Log();
    var broadcaster := new Emitter<Message>();
    var m1 := new CommandManager(log, broadcaster);
    var m2 := new CommandManager(log, broadcaster);
    m1.Add(c1);
    seenByOther := m2.log.commands;
    m1.Dispose();
    afterDispose := m2.log.commands;
    m2.Add(c2);
    afterReAdd := m2.log.commands;
  }

  /** At capacity, two further adds raise the alert once and leave the log
      as it was. */
  method CapacityScenario(m: CommandManager, c: Command)
    returns (alertsRaised: nat, grew: bool)
    requires m.Valid() && !m.isDisposed && !m.isMaxReachedWarningShown && |m.log.commands| == MaxItems
    modifies m, m.log, m.broadcaster
    ensures alertsRaised == 1 && !grew
  {
    var before := |m.alerts|;
    var logBefore := m.log.commands;
    m.Add(c);
    m.Add(c);
    alertsRaised := |m.alerts| - before;
    grew := m.log.commands != logBefore;
  }
}
