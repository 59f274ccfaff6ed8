/** The step controller (`addStepper`). In auto mode every new or cleared
    command is rendered at once; in step mode each click of the step button
    renders one render group, a maximal run of pending commands with the
    same `stepId`.

    `requestRender` is the renderer's `render` behind an animation-frame
    throttle; here the frame is taken to fire right after the message
    handler (or the click handler) returns, so each request is one call of
    `Renderer.Render`. When the render throws, the promise it returns never
    resolves, so the code chained after it does not run. */
module Stepper {
  import opened Wrappers
  import opened Commands
  import opened EventEmitter
  import opened Broadcaster
  import opened Renderer

  // ---------------------------------------------------------------------
  // The predicates handed to the renderer
  // ---------------------------------------------------------------------

  /** What the `step` predicate closes over: how many commands it has been
      asked about, the `stepId` of the last one (0 before the first), and
      the controller's `lastRendered`, which it writes. */
  datatype StepEnv = StepEnv(count: nat, lastStepId: Option<int>, lastRendered: Option<Command>)

  /** The closure state at the start of one `step()`. */
  function StepStart(lastRendered: Option<Command>): StepEnv
  {
    StepEnv(0, Some(0), lastRendered)
  }

  /** The `step` predicate: it stops at the first command whose `stepId`
      differs from the previous one, except for the very first command. */
  function StepPredicate(e: StepEnv, c: Command): (r: (bool, StepEnv))
    ensures r.0 <==> e.count == 0 || e.lastStepId == StepId(c)
    ensures r.1.count == e.count + 1 && r.1.lastStepId == StepId(c)
    ensures r.1.lastRendered == if r.0 then Some(c) else e.lastRendered
  {
    var stop := e.lastStepId != StepId(c) && e.count > 0;
    (!stop, StepEnv(e.count + 1, StepId(c), if !stop then Some(c) else e.lastRendered))
  }

  /** The predicate of `toggleStep` when it leaves step mode: it accepts
      every command and records it as the last rendered one. */
  function RecordAll(lastRendered: Option<Command>, c: Command): (bool, Option<Command>)
  {
    (true, Some(c))
  }

  /** A render group: the length of the longest prefix of `ws` whose
      commands all carry `stepId` `s`. */
  function RunLength(ws: seq<Command>, s: Option<int>): (n: nat)
    ensures n <= |ws|
    ensures forall i :: 0 <= i < n ==> StepId(ws[i]) == s
    ensures n < |ws| ==> StepId(ws[n]) != s
  {
    if ws == [] || StepId(ws[0]) != s then 0 else 1 + RunLength(ws[1..], s)
  }

  /** Once it has seen a command, the `step` predicate accepts exactly the
      rest of the current render group, and leaves `lastRendered` on the
      last command it accepted. */
  lemma {:induction false} StepScanInGroup(ws: seq<Command>, e: StepEnv)
    requires e.count > 0
    ensures var r := Scan(ws, StepPredicate, e);
      var n := RunLength(ws, e.lastStepId);
      r.0 == n && r.1.lastRendered == (if n == 0 then e.lastRendered else Some(ws[n - 1]))
  {
    if ws != [] && StepId(ws[0]) == e.lastStepId {
      var e1 := StepPredicate(e, ws[0]).1;
      assert e1 == StepEnv(e.count + 1, e.lastStepId, Some(ws[0]));
      StepScanInGroup(ws[1..], e1);
      var m := RunLength(ws[1..], e.lastStepId);
      assert Scan(ws, StepPredicate, e).0 == m + 1 && RunLength(ws, e.lastStepId) == m + 1;
      if m > 0 {
        assert ws[1..][m - 1] == ws[m];
      }
    }
  }

  /** One `step()` over the pending commands: the first is always
      accepted, and the accepted commands are exactly the first render
      group; `lastRendered` ends on its last command. With nothing pending
      the predicate is never called. */
  lemma StepAcceptsOneGroup(ws: seq<Command>, lastRendered: Option<Command>)
    ensures var r := Scan(ws, StepPredicate, StepStart(lastRendered));
      (ws == [] ==> r.0 == 0 && r.1.lastRendered == lastRendered) &&
      (ws != [] ==> r.0 >= 1 && r.0 == RunLength(ws, StepId(ws[0])) && r.1.lastRendered == Some(ws[r.0 - 1]))
  {
    if ws != [] {
      var e1 := StepPredicate(StepStart(lastRendered), ws[0]).1;
      StepScanInGroup(ws[1..], e1);
      var m := RunLength(ws[1..], StepId(ws[0]));
      if m > 0 {
        assert ws[1..][m - 1] == ws[m];
      }
    }
  }

  /** The predicate used when leaving step mode accepts every pending
      command and records the last one. */
  lemma {:induction false} RecordAllScan(ws: seq<Command>, lastRendered: Option<Command>)
    ensures Scan(ws, RecordAll, lastRendered) == (|ws|, if ws == [] then lastRendered else Some(ws[|ws| - 1]))
  {
    if ws != [] {
      RecordAllScan(ws[1..], Some(ws[0]));
      if |ws| > 1 {
        assert ws[1..][|ws| - 2] == ws[|ws| - 1];
      }
    }
  }

  /** The render one `step()` asks for. */
  function StepRender(items: map<string, Item>, lastRenderedIndex: int, cmds: seq<Command>, lastRendered: Option<Command>): RenderResult<StepEnv>
    requires ItemsValid(items) && lastRenderedIndex >= -1
  {
    RenderStep(items, lastRenderedIndex, cmds, Some(StepPredicate), StepStart(lastRendered))
  }

  /** With commands pending, one `step()` that does not throw moves the
      pointer over exactly the next render group, and `lastRendered` is the
      group's last command (whether or not the render throws). */
  lemma StepRendersOneGroup(items: map<string, Item>, lastRenderedIndex: int, cmds: seq<Command>, lastRendered: Option<Command>)
    requires ItemsValid(items) && -1 <= lastRenderedIndex < |cmds| - 1
    ensures var r := StepRender(items, lastRenderedIndex, cmds, lastRendered);
      var n := RunLength(cmds[lastRenderedIndex + 1..], StepId(cmds[lastRenderedIndex + 1]));
      n >= 1 && r.env.lastRendered == Some(cmds[lastRenderedIndex + n]) &&
      (r.error.None? ==> r.rendered && r.lastRenderedIndex == lastRenderedIndex + n)
  {
    var pending := cmds[lastRenderedIndex + 1..];
    assert Pending(cmds, lastRenderedIndex) == pending;
    StepAcceptsOneGroup(pending, lastRendered);
    RenderStepReach(items, lastRenderedIndex, cmds, Some(StepPredicate), StepStart(lastRendered));
  }

  /** Stepping through a log whose `stepId`s are 1, 1, 2, 2, 3 renders it
      in batches of two, two and one command. */
  lemma StepBatches(items: map<string, Item>, cmds: seq<Command>, lastRendered: Option<Command>)
    requires ItemsValid(items) && |cmds| == 5
    requires StepId(cmds[0]) == Some(1) && StepId(cmds[1]) == Some(1)
    requires StepId(cmds[2]) == Some(2) && StepId(cmds[3]) == Some(2)
    requires StepId(cmds[4]) == Some(3)
    ensures StepRender(items, -1, cmds, lastRendered).error.None? ==> StepRender(items, -1, cmds, lastRendered).lastRenderedIndex == 1
    ensures StepRender(items, 1, cmds, lastRendered).error.None? ==> StepRender(items, 1, cmds, lastRendered).lastRenderedIndex == 3
    ensures StepRender(items, 3, cmds, lastRendered).error.None? ==> StepRender(items, 3, cmds, lastRendered).lastRenderedIndex == 4
  {
    assert RunLength(cmds[0..], Some(1)) == 2 by {
      assert cmds[0..][1..] == cmds[1..] && cmds[1..][1..] == cmds[2..];
    }
    assert RunLength(cmds[2..], Some(2)) == 2 by {
      assert cmds[2..][1..] == cmds[3..] && cmds[3..][1..] == cmds[4..];
    }
    assert RunLength(cmds[4..], Some(3)) == 1 by {
      assert cmds[4..][1..] == [];
    }
    StepRendersOneGroup(items, -1, cmds, lastRendered);
    StepRendersOneGroup(items, 1, cmds, lastRendered);
    StepRendersOneGroup(items, 3, cmds, lastRendered);
  }

  /** The render asked for when leaving step mode. */
  function LeaveRender(items: map<string, Item>, lastRenderedIndex: int, cmds: seq<Command>, lastRendered: Option<Command>): RenderResult<Option<Command>>
    requires ItemsValid(items) && lastRenderedIndex >= -1
  {
    RenderStep(items, lastRenderedIndex, cmds, Some(RecordAll), lastRendered)
  }

  /** Leaving step mode renders to the end of the log and records its last
      command as rendered. */
  lemma LeaveRendersToEnd(items: map<string, Item>, lastRenderedIndex: int, cmds: seq<Command>, lastRendered: Option<Command>)
    requires ItemsValid(items) && -1 <= lastRenderedIndex < |cmds| - 1
    ensures var r := LeaveRender(items, lastRenderedIndex, cmds, lastRendered);
      r.env == Some(cmds[|cmds| - 1]) && (r.error.None? ==> r.rendered && r.lastRenderedIndex == |cmds| - 1)
  {
    var pending := cmds[lastRenderedIndex + 1..];
    assert Pending(cmds, lastRenderedIndex) == pending;
    RecordAllScan(pending, lastRendered);
    RenderStepReach(items, lastRenderedIndex, cmds, Some(RecordAll), lastRendered);
  }

  // ---------------------------------------------------------------------
  // The controller
  // ---------------------------------------------------------------------

  /** `stepStepEl.disabled` as `updateButtons` sets it. */
  predicate Disabled(isStepMode: bool, lastCommand: Option<Command>, lastRendered: Option<Command>)
  {
    !isStepMode || lastCommand == lastRendered
  }

  /** The command a broadcast message carries (`undefined` for a clear). */
  function PayloadCommand(p: Payload): Option<Command>
  {
    if p.CommandPayload? then Some(p.command) else None
  }

  /** The messages the controller reacts to. */
  predicate Handled(m: Message)
  {
    m.name == RenderCommandAdded || m.name == RenderCommandsCleared
  }

  class Stepper {
    const renderer: Renderer
    var isStepMode: bool
    var lastCommand: Option<Command>
    var lastRendered: Option<Command>
    /** Whether the step button is disabled. */
    var stepDisabled: bool
    /** Whether the mode button shows the `active` class. */
    var stepActive: bool

    ghost predicate Valid()
      reads this, renderer, renderer.manager, renderer.manager.log, renderer.manager.broadcaster
    {
      renderer.Valid() && stepActive == isStepMode
    }

    /** What a render call leaves in the renderer's trace and on the
        broadcaster: its events, and the "Rendered" message (with the
        handlers it unsubscribes) exactly when it rendered. */
    twostate predicate RenderEffects(events: seq<Event>, rendered: bool)
      reads renderer, renderer.manager.broadcaster
    {
      renderer.trace == old(renderer.trace) + events &&
      (rendered ==>
        renderer.manager.broadcaster.history == old(renderer.manager.broadcaster.history) + [Message(Broadcaster.Rendered, NoPayload)] &&
        renderer.manager.broadcaster.handlers == Survivors(old(renderer.manager.broadcaster.handlers), Message(Broadcaster.Rendered, NoPayload))) &&
      (!rendered ==>
        renderer.manager.broadcaster.history == old(renderer.manager.broadcaster.history) &&
        renderer.manager.broadcaster.handlers == old(renderer.manager.broadcaster.handlers))
    }

    /** `addStepper`: auto mode, nothing seen or rendered, and (after the
        initial `updateButtons`) the step button disabled. */
    constructor (renderer: Renderer)
      requires renderer.Valid()
      ensures Valid() && this.renderer == renderer
      ensures !isStepMode && lastCommand.None? && lastRendered.None? && stepDisabled
    {
      this.renderer := renderer;
      isStepMode := false;
      lastCommand := None;
      lastRendered := None;
      stepActive := false;
      stepDisabled := true;
    }

    /** `updateButtons`. */
    method UpdateButtons()
      modifies this
      ensures stepDisabled == Disabled(isStepMode, lastCommand, lastRendered)
      ensures isStepMode == old(isStepMode) && lastCommand == old(lastCommand) && lastRendered == old(lastRendered)
      ensures stepActive == old(stepActive)
    {
      stepDisabled := !isStepMode || lastCommand == lastRendered;
    }

    /** `step()`: one render with the `step` predicate, whose record of the
        last accepted command becomes `lastRendered`; the buttons are
        updated once the render has resolved. */
    method Step()
      requires Valid()
      modifies this, renderer, renderer.manager.broadcaster
      ensures Valid()
      ensures isStepMode == old(isStepMode) && lastCommand == old(lastCommand) && renderer.isDisposed == old(renderer.isDisposed)
      ensures old(renderer.isDisposed) ==>
        lastRendered == old(lastRendered) && renderer.items == old(renderer.items) &&
        renderer.lastRenderedIndex == old(renderer.lastRenderedIndex) &&
        stepDisabled == Disabled(isStepMode, lastCommand, lastRendered) && RenderEffects([], false)
      ensures !old(renderer.isDisposed) ==>
        var r := StepRender(old(renderer.items), old(renderer.lastRenderedIndex), old(renderer.manager.log.commands), old(lastRendered));
        renderer.items == r.items && renderer.lastRenderedIndex == r.lastRenderedIndex && lastRendered == r.env.lastRendered &&
        stepDisabled == (if r.error.None? then Disabled(isStepMode, lastCommand, lastRendered) else old(stepDisabled)) &&
        RenderEffects(r.events, r.rendered)
    {
      var envOut, error := renderer.Render(Some(StepPredicate), StepStart(lastRendered));
      lastRendered := envOut.lastRendered;
      if error.None? {
        UpdateButtons();
      }
    }

    /** `toggleStep()`: flips the mode. Entering step mode changes nothing
        else, not even the step button. Leaving it renders to the end of
        the log, recording each rendered command, and then updates the
        buttons. */
    method ToggleStep()
      requires Valid()
      modifies this, renderer, renderer.manager.broadcaster
      ensures Valid()
      ensures isStepMode == !old(isStepMode) && lastCommand == old(lastCommand)
      ensures renderer.isDisposed == old(renderer.isDisposed)
      ensures !old(isStepMode) ==>
        lastRendered == old(lastRendered) && stepDisabled == old(stepDisabled) &&
        renderer.items == old(renderer.items) && renderer.lastRenderedIndex == old(renderer.lastRenderedIndex) &&
        RenderEffects([], false)
      ensures old(isStepMode) && old(renderer.isDisposed) ==>
        lastRendered == old(lastRendered) && renderer.items == old(renderer.items) &&
        renderer.lastRenderedIndex == old(renderer.lastRenderedIndex) && stepDisabled && RenderEffects([], false)
      ensures old(isStepMode) && !old(renderer.isDisposed) ==>
        var r := LeaveRender(old(renderer.items), old(renderer.lastRenderedIndex), old(renderer.manager.log.commands), old(lastRendered));
        renderer.items == r.items && renderer.lastRenderedIndex == r.lastRenderedIndex && lastRendered == r.env &&
        stepDisabled == (if r.error.None? then true else old(stepDisabled)) && RenderEffects(r.events, r.rendered)
    {
      isStepMode := !isStepMode;
      stepActive := isStepMode;
      if !isStepMode {
        RenderToEnd();
      }
    }

    /** The render of `toggleStep` when it leaves step mode, and the
        `updateButtons` chained after it. */
    method RenderToEnd()
      requires Valid() && !isStepMode
      modifies this, renderer, renderer.manager.broadcaster
      ensures Valid() && !isStepMode && lastCommand == old(lastCommand)
      ensures renderer.isDisposed == old(renderer.isDisposed)
      ensures old(renderer.isDisposed) ==>
        lastRendered == old(lastRendered) && renderer.items == old(renderer.items) &&
        renderer.lastRenderedIndex == old(renderer.lastRenderedIndex) && stepDisabled && RenderEffects([], false)
      ensures !old(renderer.isDisposed) ==>
        var r := LeaveRender(old(renderer.items), old(renderer.lastRenderedIndex), old(renderer.manager.log.commands), old(lastRendered));
        renderer.items == r.items && renderer.lastRenderedIndex == r.lastRenderedIndex && lastRendered == r.env &&
        stepDisabled == (if r.error.None? then true else old(stepDisabled)) && RenderEffects(r.events, r.rendered)
    {
      var envOut, error := renderer.Render(Some(RecordAll), lastRendered);
      lastRendered := envOut;
      if error.None? {
        UpdateButtons();
      }
    }

    /** The broadcaster handler. Only "RenderCommandAdded" and
        "RenderCommandsCleared" matter: the carried command becomes
        `lastCommand` and the buttons are updated; in auto mode the whole
        log is rendered and the command becomes `lastRendered` once that
        resolves; in step mode the first message seen triggers a step. */
    method OnMessage(m: Message)
      requires Valid()
      modifies this, renderer, renderer.manager.broadcaster
      ensures Valid()
      ensures isStepMode == old(isStepMode) && renderer.isDisposed == old(renderer.isDisposed)
      ensures !Handled(m) ==>
        lastCommand == old(lastCommand) && lastRendered == old(lastRendered) && stepDisabled == old(stepDisabled) &&
        renderer.items == old(renderer.items) && renderer.lastRenderedIndex == old(renderer.lastRenderedIndex) &&
        RenderEffects([], false)
      ensures Handled(m) ==>
        lastCommand == PayloadCommand(m.payload)
      ensures Handled(m) && !isStepMode ==>
        stepDisabled &&
        (old(renderer.isDisposed) ==>
          lastRendered == PayloadCommand(m.payload) && renderer.items == old(renderer.items) &&
          renderer.lastRenderedIndex == old(renderer.lastRenderedIndex) && RenderEffects([], false)) &&
        (!old(renderer.isDisposed) ==>
          var r := RenderStep(old(renderer.items), old(renderer.lastRenderedIndex), old(renderer.manager.log.commands), None, ());
          renderer.items == r.items && renderer.lastRenderedIndex == r.lastRenderedIndex &&
          lastRendered == (if r.error.None? then PayloadCommand(m.payload) else old(lastRendered)) &&
          RenderEffects(r.events, r.rendered))
      ensures Handled(m) && isStepMode && old(lastCommand).Some? ==>
        lastRendered == old(lastRendered) && stepDisabled == Disabled(true, lastCommand, lastRendered) &&
        renderer.items == old(renderer.items) && renderer.lastRenderedIndex == old(renderer.lastRenderedIndex) &&
        RenderEffects([], false)
      ensures Handled(m) && isStepMode && old(lastCommand).None? && old(renderer.isDisposed) ==>
        lastRendered == old(lastRendered) && stepDisabled == Disabled(true, lastCommand, lastRendered) &&
        renderer.items == old(renderer.items) && renderer.lastRenderedIndex == old(renderer.lastRenderedIndex) &&
        RenderEffects([], false)
      ensures Handled(m) && isStepMode && old(lastCommand).None? && !old(renderer.isDisposed) ==>
        var r := StepRender(old(renderer.items), old(renderer.lastRenderedIndex), old(renderer.manager.log.commands), old(lastRendered));
        renderer.items == r.items && renderer.lastRenderedIndex == r.lastRenderedIndex && lastRendered == r.env.lastRendered &&
        stepDisabled == Disabled(true, lastCommand, if r.error.None? then lastRendered else old(lastRendered)) &&
        RenderEffects(r.events, r.rendered)
    {
      if Handled(m) {
        var command := PayloadCommand(m.payload);
        var first := lastCommand.None?;
        lastCommand := command;
        UpdateButtons();
        if !isStepMode {
          var _, error := renderer.Render<()>(None, ());
          if error.None? {
            lastRendered := command;
          }
        } else if first {
          Step();
        }
      }
    }
  }
}
