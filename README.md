# promise-playground: the command log, the renderer and the promise tracker

promise-playground draws the promises a snippet of JavaScript creates as a
tree of boxes. An interception layer wraps the global `Promise`. Every `new
Promise`, `.then`/`.catch`/`.finally` and `Promise.resolve`/`reject`/`all`/`race`
is reported to a tracker. The tracker turns each promise into render
commands: one command draws the promise's block, and later commands restyle
the block as the promise and its inputs settle. The commands go into a
capped, shared command log. A renderer consumes the log incrementally:

- it draws each new item once;
- it runs every layout measurement before any layout update;
- it applies only the last replaceable command of each (id, name).

A step controller lets the user render the log one render group (one run of
equal `stepId`s) at a time.

This project models that core in Dafny, one module per source file:

| module | source |
|---|---|
| `Utils` | `src/utils.ts`: `pipe`, `isDefined`, `assert` and the once-per-frame throttle |
| `EventEmitter` | `src/eventEmitter.ts` |
| `Broadcaster` | `src/broadcaster.ts` |
| `CommandLog` | `src/renderer/commands/Command.ts` |
| `Commands` | the `IRenderCommand` record, `withStepId` and `withDescription` |
| `Connector` | `src/connector.ts`: `mergeCommands`, `createOutputCommand`, `useConnector` |
| `PromiseBlock` | `src/trackers/PromiseBlock.ts` |
| `PromiseInnerBlocks` | `src/trackers/PromiseInnerBlocks.ts` |
| `Renderer` | `src/renderer/renderer.ts` |
| `Stepper` | `src/stepper.ts` |
| `Interception` | `src/promiseTracker.ts` |
| `Titles` and `PromiseTracking` | `src/trackers/Promise.ts` |

`Wrappers` (Option and Result) and `Js` (the JavaScript values the code
inspects: truthiness, property reads, function names and arities) are shared
helpers.

The model follows the code's form:

- **Mutable objects are classes.** The emitter, the command manager and its
  shared log, the renderer, the step controller, the throttle slot and the
  tracker are classes whose methods update their fields.
- **Hooks are data.** The DOM work inside a command's hooks
  (`updateDom`, `updateLayout`, `updateSvg`) is a sequence of labelled
  effects on named elements, so the merge of two hooks is concatenation.
- **Closures are data.** A `createStyleCommand` closure is the datatype
  `StyleMaker`, interpreted by `Connector.CreateStyleCommand`. The render
  predicate is a pure function that threads its captured state.
- **The tracker's closures are explicit state.** Its closure flags
  (`isSuccesIn`, `resultCount`, `hasError`, `hasResult`, `successBoxIndex`)
  are an `ItemState` per item. Each settlement observer is a function from
  that state to the commands it asks for and the new state.
- **Loops become methods.** The renderer's loops are methods with loop
  invariants, proved against the specification functions `Group`, `Pass`,
  `DomFold`, `SvgFold`, `Scan` and `RenderStep`.

## Model

| member | source | states |
|---|---|---|
| `Utils.Pipe` | src/utils.ts:8-11 | with no functions the start value comes back unchanged; one function is applied to it |
| `Utils.PipeSnoc` | src/utils.ts:10 | the functions run left to right: appending `f` applies `f` to the result of the rest |
| `Utils.PipeConcat` | src/utils.ts:10 | a pipe over `fs + gs` is the pipe of `gs` over the result of `fs` |
| `Utils.MessageOr` | src/utils.ts:17 | `errorMessage \|\| default`: an absent or empty custom message falls back to the default |
| `Utils.IsDefined` | src/utils.ts:16-19 | throws exactly on `undefined` (`null` passes), with the custom or default message; otherwise true |
| `Utils.Assert` | src/utils.ts:23-26 | returns its argument unchanged unless it is `null` or `undefined`, when it throws |
| `Utils.RafThrottle.constructor` | src/utils.ts:46-47 | a throttled function starts with an empty pending slot |
| `Utils.RafThrottle.Call` | src/utils.ts:48-58 | while a run is pending, a call returns the pending handle and schedules nothing; otherwise it schedules a fresh run with this call's arguments |
| `Utils.RafThrottle.Frame` | src/utils.ts:54-57 | the frame clears the slot before running `fn`, and resolves the pending handle with `fn` of the scheduling call's arguments |
| `Utils.CoalescingScenario` | src/utils.ts:48-58 | two calls in one frame share one handle and one run with the first call's arguments; the next call after the frame gets a new handle |
| `EventEmitter.IdsBelowMembers` | src/eventEmitter.ts:32 | the ids an emit walks are exactly the registered ids |
| `EventEmitter.IdsBelowIncreasing` | src/eventEmitter.ts:32 | the ids an emit walks are in strictly increasing order |
| `EventEmitter.SurvivorsSpec` | src/eventEmitter.ts:35-37 | after an emit, a handler stays registered exactly when it returned falsy, and it is unchanged |
| `EventEmitter.Emitter.constructor` | src/eventEmitter.ts:19-20 | the counter starts at 0 with no handlers |
| `EventEmitter.Emitter.Subscribe` | src/eventEmitter.ts:23-25 | the new id is the pre-incremented counter, was not in use, and maps to exactly the new handler; nothing else changes |
| `EventEmitter.Emitter.Unsubscribe` | src/eventEmitter.ts:26-28 | removes exactly that id; a second call (or an unknown id) changes nothing |
| `EventEmitter.Emitter.Emit` | src/eventEmitter.ts:31-39 | calls every handler registered when the emit starts, once each, in increasing id order; the handlers left are those that returned falsy |
| `EventEmitter.EmitOrder` | src/eventEmitter.ts:32 | the ids an emit calls are the registered ids, each once, in increasing order |
| `Broadcaster.NameFilter` | src/broadcaster.ts:30-34 | the registered filter returns false for every message of another name, and the handler's result on the payload for a message of the subscribed name |
| `Broadcaster.SubscribeToMessage` | src/broadcaster.ts:29-35 | subscribes the name filter through the emitter's own `subscribe`, under a fresh id |
| `Broadcaster.FilteredSubscriptionSurvives` | src/broadcaster.ts:30-34 | a message of another name never removes the subscription; a matching one removes it exactly when the handler returns truthy |
| `CommandLog.Log.constructor` | src/renderer/commands/Command.ts:44 | the module-level command array starts empty |
| `CommandLog.CommandManager.constructor` | src/renderer/commands/Command.ts:47-55 | a manager over the shared log, not disposed, with no warning shown |
| `CommandLog.CommandManager.Add` | src/renderer/commands/Command.ts:57-78 | after dispose, nothing; at 200 entries nothing is appended or emitted and the alert is raised only the first time; otherwise the command is appended at the end and exactly one "RenderCommandAdded" carrying it is emitted |
| `CommandLog.CommandManager.Clear` | src/renderer/commands/Command.ts:80-92 | after dispose, nothing; otherwise the log is emptied, one "RenderCommandsCleared" is emitted and the warning flag is reset |
| `CommandLog.CommandManager.Dispose` | src/renderer/commands/Command.ts:94-97 | empties the shared log and emits nothing; later `add` and `clear` do nothing |
| `CommandLog.SharedLogScenario` | src/renderer/commands/Command.ts:44-55 | two managers over one log: what one adds the other sees, and disposing one empties the log the other sees |
| `CommandLog.CapacityScenario` | src/renderer/commands/Command.ts:62-68 | at capacity, two further adds raise one alert and the log does not grow |
| `Commands.WithStepId` | src/trackers/Promise.ts:42-47 | sets `stepId` and changes no other field or key |
| `Commands.WithDescription` | src/trackers/Promise.ts:49-54 | sets the description `#<id>: <text> (Render group: <stepId>)`, keeping every other field and the step |
| `PromiseBlock.FillFor` | src/trackers/PromiseBlock.ts:9-11 | the fill is "busy" exactly for the style "busy", and "normal" otherwise |
| `PromiseBlock.CreatePromiseBlock` | src/trackers/PromiseBlock.ts:13-107 | name "CreatePromiseBlock", the item's id, no parent, replaceable; its DOM and SVG hooks use the title and style options; its style closure is the block's; its only extra key is `insertSvgItemInside` |
| `PromiseBlock.BlockStyleCommand` | src/trackers/PromiseBlock.ts:84-103 | "SetPromiseBlockStyle", same id, replaceable, no `updateDom` (so only the SVG pass runs it), a layout that measures nothing and returns nothing, and an SVG hook that only sets the background fill |
| `PromiseBlock.BlockDefaults` | src/trackers/PromiseBlock.ts:13 | without options the title is "" and the style is "normal" |
| `PromiseInnerBlocks.IsSuccessIn` | src/trackers/PromiseInnerBlocks.ts:109 | the style name is exactly "success-in" |
| `PromiseInnerBlocks.HasSuccessIn` | src/trackers/PromiseInnerBlocks.ts:110 | the style name starts with "success-in" or is "success" |
| `PromiseInnerBlocks.HasSuccessOut` | src/trackers/PromiseInnerBlocks.ts:111 | the style name ends with "success-out" or is "success" |
| `PromiseInnerBlocks.IsErrorIn` | src/trackers/PromiseInnerBlocks.ts:113 | the style name is exactly "error-in" |
| `PromiseInnerBlocks.HasErrorIn` | src/trackers/PromiseInnerBlocks.ts:114 | the style name starts with "error-in" or is "error" |
| `PromiseInnerBlocks.HasErrorOut` | src/trackers/PromiseInnerBlocks.ts:115 | the style name ends with "error-out" or is "error" |
| `PromiseInnerBlocks.StyleReadersConsistent` | src/trackers/PromiseInnerBlocks.ts:105-118 | no style name is read as both success and error, on either side, and each exact "in" name is also read by its `has` reader |
| `PromiseInnerBlocks.OutcomeStyleNameDecodes` | src/trackers/PromiseInnerBlocks.ts:105-118 | the `<in>-in_<out>-out` names decode back: has-success-in iff the in half is success, has-error-in iff not, and likewise for out; none is exactly success-in or error-in |
| `PromiseInnerBlocks.BoxColour` | src/trackers/PromiseInnerBlocks.ts:126-130 | "normal" for busy, normal, success-in, error-in; else "error" if has-error-out; else "success" if has-success-out; "disabled" iff none applies |
| `PromiseInnerBlocks.BoxFill` | src/trackers/PromiseInnerBlocks.ts:134 | "busy" exactly for busy, success-in and error-in, and "normal" otherwise |
| `PromiseInnerBlocks.OutArrowColour` | src/trackers/PromiseInnerBlocks.ts:159-164 | an output arrow takes its colour only when the output is shown and the style has that output; otherwise "disabled" |
| `PromiseInnerBlocks.DontShowOutputDisables` | src/trackers/PromiseInnerBlocks.ts:158-166 | with `dontShowOutput`, restyling a block colours both output arrows "disabled" and never moves them to the top |
| `PromiseInnerBlocks.TrackerStyleColours` | src/trackers/PromiseInnerBlocks.ts:126-134 | the colours and fills of the style names the trackers use |
| `PromiseInnerBlocks.InnerBlockStyleStaysInBlock` | src/trackers/PromiseInnerBlocks.ts:120-168 | every effect of restyling inner block `k` is on an element of block `k` |
| `PromiseInnerBlocks.TargetedStylesOnlyTargets` | src/trackers/PromiseInnerBlocks.ts:251-258 | a derived style command restyles only the block at `boxIndex`, or every block for -1, and none without a `boxIndex` |
| `PromiseInnerBlocks.WithInnerBlocks` | src/trackers/PromiseInnerBlocks.ts:171-266 | name, id, parent and extra keys are kept; `canReplacePrevious` is cleared exactly when it was set and there is more than one inner block; the DOM and SVG hooks keep the command's own effects first and append only effects on the inner blocks' elements (`InnerBlocksDomOnBlocks`, `InitialStylesOnBlocks`); the style closure is wrapped by the inner blocks' restyler |
| `PromiseInnerBlocks.RestyleInner` | src/trackers/PromiseInnerBlocks.ts:236-263 | the derived style command is the base one except for its SVG hook, which keeps the base effects first and appends only effects on the targeted inner block (every block for -1), and nothing when no `boxIndex` is given |
| `PromiseInnerBlocks.InnerBlockDomStaysInBlock` | src/trackers/PromiseInnerBlocks.ts:6-93 | every element `addInnerBlock` builds for block k belongs to block k |
| `PromiseInnerBlocks.InnerBlocksDomOnBlocks` | src/trackers/PromiseInnerBlocks.ts:180-203 | building the inner blocks from `from` on touches only elements of those blocks |
| `PromiseInnerBlocks.InitialStylesOnBlocks` | src/trackers/PromiseInnerBlocks.ts:219-229 | the initial styling touches only elements of the blocks it styles |

| `Connector.CreateOutputCommand` | src/connector.ts:5-268 | "CreateOutput" with the item's id and parent, no `canReplacePrevious`, DOM and SVG hooks, the connector's style closure and the single extra key `getOutputPosition` |
| `Connector.OutputStyleCommand` | src/connector.ts:170-242 | "UpdateOutputStyle", same id and parent, replaceable; without a value its DOM hook does nothing, with one it first writes the value's box title |
| `Connector.FirstShared` | src/connector.ts:321-331 | no key is reported iff the two key lists share none; a reported key is in both |
| `Connector.Merge` | src/connector.ts:270-335 | two absent operands fail with "Cannot merge 2 empty commands."; when exactly one is absent the other is returned itself |
| `Connector.MergeSpec` | src/connector.ts:277-333 | a merge fails exactly when the operands share an extra key, naming that key. Otherwise: the name is `<name1> & <name2>`; id and parent come from the first operand when set; `canReplacePrevious` is the conjunction; a hook exists iff either has one, and runs the first's then the second's; the extras are the disjoint union |
| `Connector.FirstSharedIsFirst` | src/connector.ts:321-325 | the key reported is the first key of the first operand that the second also has |
| `Connector.UseConnectorNotReplaceable` | src/connector.ts:337-343 | a command with a connector is never replaceable |
| `Connector.UseConnectorConflicts` | src/connector.ts:337-343 | adding a connector fails exactly when the command already has a `getOutputPosition` key, naming it; otherwise the keys are the command's followed by `getOutputPosition`, the name is `<name> & CreateOutput`, and the item's id and parent are taken where the command has none |
| `Connector.UseConnector` | src/connector.ts:337-343 | `useConnector(item)(command)` is the merge of the command with a fresh output connector for the item; its properties are in `UseConnectorConflicts` and `UseConnectorNotReplaceable` |
| `Connector.CreateStyleCommand` | src/connector.ts:310-316 | the interpretation of a `createStyleCommand` closure: the block's, the connector's, the inner-block wrapper (failing like `assert` without a base closure) and the merge of two closures; its results are in `TrackedStyleCommand` and `TargetedStylesOnlyTargets` |
| `Connector.TrackedStyleCommand` | src/connector.ts:310-316 | deriving the style command of a block merged with its connector never fails, keeps id and parent, and is a replaceable "SetPromiseBlockStyle & UpdateOutputStyle" with DOM and SVG hooks |
| `Renderer.Logs` | src/renderer/renderer.ts:169-180 | each command covered is logged once, in order, as its description or else its name |
| `Renderer.Plain` | src/renderer/renderer.ts:190-199 | the reference for the collected commands: those with the hook that are not replaceable |
| `Renderer.LastWith` | src/renderer/renderer.ts:193-196 | the reference for the stored command: none iff no replaceable command of that id and name has the hook; otherwise one that does |
| `Renderer.LastWithIsLast` | src/renderer/renderer.ts:193-196 | the stored command is the last of its kind in the window |
| `Renderer.Group` | src/renderer/renderer.ts:184-200 | the specification of the scan of one pass: every command added in log order keeps the groups well formed (ids and names listed once, stored commands keyed by them); `GroupSpec` states what it holds |
| `Renderer.Pass` | src/renderer/renderer.ts:182-242 | `getCommandsForDom`/`getCommandsForSvg` run only commands of the window that have the pass's hook (lines 191 and 222); `PassSpec` and `PassCoversIds` state the order and the coverage |
| `Renderer.GroupSpec` | src/renderer/renderer.ts:184-200 | the scan collects the non-replaceable commands in log order, lists each id and each name once, and stores exactly the last replaceable command of every (id, name) |
| `Renderer.PassSpec` | src/renderer/renderer.ts:182-242 | a pass runs the non-replaceable commands with its hook in log order, then, after them, the last replaceable command of each (id, name), each once |
| `Renderer.PassCoversIds` | src/renderer/renderer.ts:187-208 | every id with a hooked command in the window gets a command of the pass |
| `Renderer.DomStep` | src/renderer/renderer.ts:249-284 | one DOM command: its item exists afterwards; `updateDom` runs last, on that item, and is handed a parent command exactly when the command has a parent id that is drawn (its own new item included); `DomStepSpec` states what happens to `itemMap` |
| `Renderer.DomFold` | src/renderer/renderer.ts:249-284 | the specification of the DOM pass: `DomStep` over the commands in order, keeping `itemMap` well formed |
| `Renderer.DomStepSpec` | src/renderer/renderer.ts:249-284 | after one DOM command its item exists, no other item appears, a new item stores this command, an existing item keeps its command, and children only grow without duplicates |
| `Renderer.DomFoldDrawsAll` | src/renderer/renderer.ts:249-284 | after the DOM pass every command's item is drawn |
| `Renderer.DomFoldDrawsOnly` | src/renderer/renderer.ts:249-284 | the DOM pass draws no item other than those of its commands |
| `Renderer.DomFoldKeeps` | src/renderer/renderer.ts:259-266 | an item drawn before the pass keeps the command that created it, and its children only grow |
| `Renderer.DomFoldFirstCreates` | src/renderer/renderer.ts:259-266 | a new item stores the first command of the pass with its id, never a later one |
| `Renderer.Measures` | src/renderer/renderer.ts:288-296 | every DOM command measures once, in order |
| `Renderer.Applies` | src/renderer/renderer.ts:299-303 | the layout updates run afterwards, at most one per command |
| `Renderer.SvgFold` | src/renderer/renderer.ts:306-312 | the SVG pass runs at most one `updateSvg` per command, each on a drawn item; `SvgFoldOk` and `SvgFoldFirstError` state when and where it throws |
| `Renderer.SvgFoldOk` | src/renderer/renderer.ts:307-312 | the SVG pass throws exactly when some command's item is not drawn; otherwise it runs every command once |
| `Renderer.SvgFoldFirstError` | src/renderer/renderer.ts:309-310 | it throws on the first such command, with the "RenderItem not found" message |
| `Renderer.SvgPassSucceeds` | src/renderer/renderer.ts:247-312 | when every command with an SVG hook also has a DOM hook, the SVG pass after the DOM pass never throws |
| `Renderer.Scan` | src/renderer/renderer.ts:168-174 | the specification of the predicate loop: how many commands are accepted, never more than are pending, and the predicate's state after them; `ScanSpec` states its properties |
| `Renderer.ScanSpec` | src/renderer/renderer.ts:168-174 | the predicate loop accepts exactly the longest accepted prefix, consulting the predicate in order |
| `Renderer.RejectingFirstRendersAll` | src/renderer/renderer.ts:165-174 | a predicate that rejects the first pending command leaves `renderToIndex` at the last index |
| `Renderer.Accepted` | src/renderer/renderer.ts:164-180 | without a predicate every pending command is covered; with one, at most the pending commands |
| `Renderer.WindowRender` | src/renderer/renderer.ts:244-312 | the passes keep `itemMap` well formed: children are drawn items listed once |
| `Renderer.RenderStep` | src/renderer/renderer.ts:154-328 | one render of a live renderer keeps `itemMap` well formed; it renders exactly when there are commands after the pointer and the SVG pass does not throw, and only then moves the pointer forward, within the log; `RenderStepReach` and `RenderStepSucceeds` state how far |
| `Renderer.RenderStepReach` | src/renderer/renderer.ts:164-175 | a render that does not throw moves the pointer to the last index without a predicate, and past exactly the accepted commands with one (to the last index when it rejects the first) (also at line 323 of that file) |
| `Renderer.RenderStepSucceeds` | src/renderer/renderer.ts:244-328 | when every SVG command has a DOM hook, a render with pending commands never throws, moves the pointer and emits "Rendered" |
| `Renderer.GroupWindow` | src/renderer/renderer.ts:184-200 | the indexed scan loop computes `Group` of the window |
| `Renderer.NameEntries` | src/renderer/renderer.ts:204-207 | the inner `Object.keys` loop yields the stored commands of one id in name order |
| `Renderer.FlattenGroups` | src/renderer/renderer.ts:203-210 | the collected commands first, then the stored ones id by id, name by name |
| `Renderer.DrawCommand` | src/renderer/renderer.ts:249-284 | one DOM command as the specification `DomStep` gives it |
| `Renderer.DrawCommands` | src/renderer/renderer.ts:249-284 | the DOM pass loop as `DomFold` |
| `Renderer.ScanWithPredicate` | src/renderer/renderer.ts:168-174 | the predicate loop as `Scan`, logging each accepted command |
| `Renderer.LogAll` | src/renderer/renderer.ts:175-179 | without a predicate every pending command is logged |
| `Renderer.MeasureAll` | src/renderer/renderer.ts:288-296 | the measuring loop as `Measures`, keeping each command's returned update |
| `Renderer.ApplyLayouts` | src/renderer/renderer.ts:299-303 | the update loop as `Applies` |
| `Renderer.CommandsForPass` | src/renderer/renderer.ts:182-242 | `getCommandsForDom`/`getCommandsForSvg` compute `Pass` of the window |
| `Renderer.ChooseRange` | src/renderer/renderer.ts:164-180 | the range loop covers `Accepted` of the pending commands, logs them and sets `renderToIndex` |
| `Renderer.Relayout` | src/renderer/renderer.ts:286-303 | all measurements, then all updates |
| `Renderer.ApplyStyles` | src/renderer/renderer.ts:306-312 | the SVG loop as `SvgFold` |
| `Renderer.RenderPasses` | src/renderer/renderer.ts:244-312 | the three passes as `WindowRender`, leaving a well-formed `itemMap` |
| `Renderer.RenderWindow` | src/renderer/renderer.ts:164-312 | with entries after the pointer, the range loop and the passes give exactly `RenderStep`'s items, events, predicate state and error, and a pointer to move to exactly when `RenderStep` renders; `RenderTo` is the `renderToIndex` it computes |
| `Renderer.Renderer.constructor` | src/renderer/renderer.ts:96-113 | not disposed, pointer -1, no items, over a manager of the shared log |
| `Renderer.Renderer.AddCommand` | src/renderer/renderer.ts:145-147 | hands the command to the manager: appended and announced unless disposed or full, the handlers that answer the message truthy unsubscribed; when full, nothing is emitted and the first attempt since the last clear raises the alert; when disposed, nothing changes |
| `Renderer.Renderer.Render` | src/renderer/renderer.ts:154-335 | when disposed nothing changes: no items, trace, pointer, message or handler; otherwise the new state is `RenderStep`: nothing but the predicate's run when up to date, else the passes, the pointer at `renderToIndex` and one "Rendered" (unsubscribing the handlers that answer it truthy) unless the SVG pass throws, in which case the broadcaster is untouched |
| `Renderer.Renderer.Clear` | src/renderer/renderer.ts:361-366 | clears the log through the manager, which announces it (unsubscribing the handlers that answer truthy) unless disposed, when the log and the broadcaster are untouched; resets the pointer to -1 and empties the page; `itemMap` is kept |
| `Renderer.Renderer.RenderLive` | src/renderer/renderer.ts:164-334 | the render of a live renderer: the new items, trace, pointer and predicate state are `RenderStep`'s, and "Rendered" is emitted (unsubscribing the handlers that answer truthy) exactly when it rendered; up to date, only the predicate's log lines are added |
| `Renderer.Renderer.RenderNew` | src/renderer/renderer.ts:244-329 | the same for a render with entries after the pointer |
| `Renderer.Renderer.Commit` | src/renderer/renderer.ts:322-328 | `itemMap` and the page take the passes' results; without an SVG error the pointer moves and "Rendered" is emitted with its survivors, otherwise the pointer and the broadcaster are untouched; the log is kept |
| `Renderer.Renderer.Dispose` | src/renderer/renderer.ts:372-378 | every later render does nothing; the log is emptied, the pointer reset and the page removed |
| `Stepper.RunLength` | src/stepper.ts:139-148 | the length of the longest prefix whose commands all carry one `stepId` |
| `Stepper.StepScanInGroup` | src/stepper.ts:139-148 | after its first command the step predicate accepts exactly the rest of the render group and records the last accepted command |
| `Stepper.StepAcceptsOneGroup` | src/stepper.ts:135-148 | one `step()` accepts the first pending command unconditionally and then exactly its render group |
| `Stepper.RecordAllScan` | src/stepper.ts:122-125 | the predicate of leaving step mode accepts every pending command and records the last one |
| `Stepper.StepRendersOneGroup` | src/stepper.ts:135-152 | with commands pending, a `step()` that does not throw moves the pointer over exactly the next render group, and `lastRendered` is the group's last command |
| `Stepper.StepPredicate` | src/stepper.ts:139-148 | the first command is always accepted, and a later one exactly when its `stepId` equals the previous command's; an accepted command is recorded as `lastRendered` |
| `Stepper.StepBatches` | src/stepper.ts:139-148 | stepIds 1, 1, 2, 2, 3 render in batches of two, two and one |
| `Stepper.LeaveRendersToEnd` | src/stepper.ts:119-130 | leaving step mode renders to the end of the log and records its last command |
| `Stepper.Stepper.constructor` | src/stepper.ts:77-79 | auto mode, nothing seen or rendered, and the step button disabled (also at lines 154-156 of that file) |
| `Stepper.Stepper.UpdateButtons` | src/stepper.ts:111-113 | the step button is disabled iff not in step mode or the last command is the last rendered one |
| `Stepper.Stepper.Step` | src/stepper.ts:135-152 | one render with the step predicate; `lastRendered` becomes the predicate's record and the buttons are updated; the render's events go to the trace and its "Rendered" message to the broadcaster (`RenderEffects`), and a disposed renderer emits nothing; the render is `StepRender`, `RenderStep` with the step predicate from `StepStart` (no command seen yet) |
| `Stepper.Stepper.ToggleStep` | src/stepper.ts:115-133 | flips the mode; entering step mode changes nothing else, not the trace nor the broadcaster; leaving it renders to the end, with that render's events and message, and updates the buttons |
| `Stepper.Stepper.RenderToEnd` | src/stepper.ts:119-130 | the render of leaving step mode (`LeaveRender`), with every command accepted and recorded, its events traced and its "Rendered" message emitted |
| `Stepper.Stepper.OnMessage` | src/stepper.ts:81-109 | only "RenderCommandAdded"/"RenderCommandsCleared" matter, and the carried command becomes `lastCommand`. In auto mode the log is rendered to the end, the command becomes `lastRendered` unless the render throws, and the step button is disabled. In step mode `step()` runs only while no command has been seen, and the step button is disabled iff the command is the last rendered one after that step (or before it, when the render throws). A disposed renderer keeps its items and pointer. Each case states the trace and the broadcaster: the events and "Rendered" message of the render it runs, and nothing when it runs none |
| `Interception.GetUntrackedPromise` | src/promiseTracker.ts:26-28 | the hidden untracked target when it is truthy, otherwise the argument |
| `Interception.UntrackRoundTrip` | src/promiseTracker.ts:26-28 | a tracked promise hands out exactly the promise it wraps; a plain promise comes back as itself (also at lines 69-71 of that file) |
| `Interception.Notify` | src/promiseTracker.ts:36-43 | a promise parent goes to `methods`, anything else to `statics`; a missing handler or a falsy result leaves the promise unchanged |
| `Interception.NotifyRouting` | src/promiseTracker.ts:36-43 | for a promise parent the `statics` handler is never consulted, and for any other parent `methods` never is |
| `Interception.WatchArguments` | src/promiseTracker.ts:45-62 | the argument count is kept; a function becomes its wrapper and every other argument is unchanged |
| `Interception.WatchArgumentsReports` | src/promiseTracker.ts:49 | `onPromise` is called for exactly the promise arguments, in argument order |
| `Interception.CallWatched` | src/promiseTracker.ts:53-57 | a wrapper returns exactly what the callback returned, and reports its index iff that result is a promise |
| `Interception.WrappedCallbackTransparent` | src/promiseTracker.ts:52-57 | the wrapper of a function argument wraps that very function and returns the callback's result unchanged |
| `Interception.GetTrap` | src/promiseTracker.ts:64-113 | the hidden key yields the target; a promise property is notified and tracked; a function property becomes an intercepting wrapper; anything else is returned as is |
| `Interception.CallIntercepted` | src/promiseTracker.ts:85-109 | arguments are watched only with a `lazyPromiseArgument` handler, and the promise-argument indices reported are exactly `watchArguments`'; the function runs on the watched arguments; an untracked call returns its result untouched; a promise result is passed to `notify` with the watched arguments and the handler's answer is tracked; any other result is returned |
| `Interception.Passed` | src/promiseTracker.ts:88-95 | the arguments the function and the handlers see: same count, every function argument replaced by its wrapper when there is a `lazyPromiseArgument` handler, all others unchanged |
| `Interception.MethodsSeeWrappedCallbacks` | src/promiseTracker.ts:97-103 | with a `lazyPromiseArgument` handler, `methods` receives a callback argument as its wrapper, and its truthy answer is what the caller gets back, tracked |
| `Interception.IsPromise` | src/promiseTracker.ts:22-24 | `isPromise`: truthy, with truthy `then` and `catch`; the definition the routing and tracking lemmas use |
| `Interception.ShouldTrack` | src/promiseTracker.ts:140-151 | `shouldTrack`: false exactly when the stack has at most three lines; the definition the trap contracts branch on |
| `Interception.Construct` | src/promiseTracker.ts:125-136 | an untracked construction returns the new promise as is; otherwise the `ctor` handler's truthy result, or the promise, is tracked |
| `Interception.TrackPromise` | src/promiseTracker.ts:161-168 | the `result` handler's truthy result, or else the promise, is tracked |
| `Interception.RunExecuter` | src/promiseTracker.ts:156-173 | the executer runs on locals with `Promise` and `trackPromise` installed, and its result is returned |
| `Js.Get` | src/promiseTracker.ts:69-71 | a tracked promise answers the hidden key with its target |
| `Titles.FunctionName` | src/trackers/Promise.ts:31-36 | "" for anything that is not a function |
| `Titles.Shorten` | src/trackers/Promise.ts:57-97 | a title that fits is kept; a longer one becomes its first `maxLength - 3` characters plus "...", exactly `maxLength` long; an empty one becomes "..." |
| `Titles.ShortenIdempotent` | src/trackers/Promise.ts:71 | shortening a shortened title changes nothing |
| `Titles.BoxTitle` | src/trackers/Promise.ts:58-102 | "<Promise>" for a promise; every title is non-empty and at most 22 characters |
| `Titles.EscapeChar` | src/trackers/Promise.ts:83 | the escape `JSON.stringify` writes for one character: the character itself exactly when it is not a control character, `"` or `\`, else an escape of two to six characters starting with a backslash |
| `Titles.JsonEscape` | src/trackers/Promise.ts:83 | the escaped text is at least as long as the string, and a string without control characters, quotes or backslashes is its own escaped text |
| `Titles.JsonQuote` | src/trackers/Promise.ts:83 | `JSON.stringify` of a string: the escaped text between double quotes |
| `Titles.UnescapeEscape` | src/trackers/Promise.ts:83 | the escaping loses nothing: reading the escapes back gives the original string |
| `Titles.JsonTitle` | src/trackers/Promise.ts:74-86 | the stringify branch's text: the constructor-name prefix and the compact or indented JSON text; "undefined" for functions and `undefined`, "null" for `null`; both forms agree on primitives |
| `Titles.Tooltip` | src/trackers/Promise.ts:104-153 | a function shows its shortened source, even when it is also a promise; other promises show "<Promise>"; every tooltip is non-empty and at most 400 characters; the stringify branch uses the JSON text indented by two spaces |
| `Titles.BoxTitleOfString` | src/trackers/Promise.ts:83-84 | a string whose escaped JSON text fits is shown as that text in full, and one without quotes, backslashes or control characters as itself in quotes; a longer one is exactly 22 characters ending in "..." |
| `PromiseTracking.CallbackName` | src/trackers/Promise.ts:373-374 | the name of the callback the program passed, seen through the interception wrapper (the corrected reading; `CallbackNameAsWritten` is the code's) |
| `PromiseTracking.CallbackTitle` | src/trackers/Promise.ts:373-374 | "" iff there is no callback; otherwise the callback's name, or the fallback when it has none (also at lines 448, 508 of that file); corrected as in "## Findings", `CallbackTitleAsWritten` is the code's |
| `PromiseTracking.WrappedCallbackNameLost` | src/trackers/Promise.ts:373 | as written, a named `.then` callback that reached the tracker wrapped shows the fallback "success" instead of its name |
| `PromiseTracking.CallbackNameSeesThroughWrapper` | src/promiseTracker.ts:52-57 | after wrapping, the corrected name is the name of the argument the program passed |
| `PromiseTracking.ShapedBlock` | src/trackers/Promise.ts:306-309 | the block before its connector: the block command, the inner blocks when given, and the step when it comes first |
| `PromiseTracking.ConnectorMerges` | src/trackers/Promise.ts:310 | `withConnector` on a tracked block succeeds, takes the connector's parent, is not replaceable and keeps the block's keys ahead of the connector's |
| `PromiseTracking.ConnectorStyle` | src/trackers/Promise.ts:310 | the merged style closure runs the block's and then the connector's |
| `PromiseTracking.Connected` | src/trackers/Promise.ts:310 | the merge's name joins the block's name and "CreateOutput" |
| `PromiseTracking.LinkedBlock` | src/trackers/Promise.ts:306-311 | the pipeline up to `withDescription`, with the step before or after the connector (also at lines 377-382 of that file) |
| `PromiseTracking.StepThenConnect` | src/trackers/Promise.ts:306-311 | `withStepId` before `withConnector`: the step survives the merge |
| `PromiseTracking.ConnectThenStep` | src/trackers/Promise.ts:377-382 | `withConnector` before `withStepId`: the step key comes last |
| `PromiseTracking.BlockCommand` | src/trackers/Promise.ts:247-252 | the full pipeline never throws and yields "CreatePromiseBlock & CreateOutput", not replaceable, with the item's id and parent, a DOM hook, the merged style closure, the step, and the description built from id and step, in the key order the pipeline gives |
| `PromiseTracking.StyleCommand` | src/trackers/Promise.ts:258-264 | deriving an item's style command never fails: a replaceable "SetPromiseBlockStyle & UpdateOutputStyle" with a DOM hook and the requested step and description |
| `PromiseTracking.Build` | src/trackers/Promise.ts:253 | every command the tracker hands over carries its step and a DOM hook |
| `PromiseTracking.BuildAll` | src/trackers/Promise.ts:253 | the same, command by command |
| `PromiseTracking.CtorInnerBlocks` | src/trackers/Promise.ts:299-304 | zero, one ("resolve") or two ("resolve", "reject") inner blocks for an executor of arity 0, 1 or at least 2, its `length` read by `Arity` |
| `PromiseTracking.ThenInnerBlocks` | src/trackers/Promise.ts:373-374 | two disabled blocks, the first reached from success and the second from error; each is untitled exactly when its callback is absent |
| `PromiseTracking.CatchInnerBlocks` | src/trackers/Promise.ts:447-448 | an untitled pass-through block from success, then a block from error that is untitled exactly when the callback is absent |
| `PromiseTracking.FinallyInnerBlocks` | src/trackers/Promise.ts:508 | one titled block reached from both outcomes when there is a callback, none otherwise |
| `PromiseTracking.ResultCommand` | src/trackers/Promise.ts:246-252 | a busy block for the item, without parent or inner blocks, with its step added before its connector; titled `name(${args[0]})` through `TemplateText` |
| `PromiseTracking.TemplateText` | src/trackers/Promise.ts:246 | `${o}`: an object without its own `toString` shows `[object <tag>]` ("Object" without a `Symbol.toStringTag`), an empty array shows nothing, and an array joins its elements' texts with commas (`JoinedText`) |
| `PromiseTracking.ArrayTemplateText` | src/trackers/Promise.ts:246 | `${[x]}` is the text of `x`, `${[x, y]}` the two texts with one comma between, `null` and `undefined` elements giving the empty text (`ElementText`) |
| `PromiseTracking.ResultTitleOfObject` | src/trackers/Promise.ts:246 | a block for `fetch(new URL(..))` is titled with the URL's own text (its href), one for a tagged built-in such as a `Request` with `[object Request]`, and one for a plain object with `[object Object]` |
| `PromiseTracking.ResultTitleOfArray` | src/trackers/Promise.ts:246 | `f(["a", null, 7])` is titled "f(a,,7)" |

| `PromiseTracking.CtorCommand` | src/trackers/Promise.ts:299-312 | a busy block for the item with at most two inner blocks by executor arity, with its step added before its connector |
| `PromiseTracking.ChainCommand` | src/trackers/Promise.ts:376-383 | a block in the "normal" style under the given parent, titled `ChainTitle` (".then()", ".catch()", ".finally()"), with two inner blocks for `.then`/`.catch` and at most one for `.finally` (`ChainInnerBlocks`), with its step added after its connector |
| `PromiseTracking.StaticCommand` | src/trackers/Promise.ts:599-606 | a block in the default style without parent, titled `StaticTitle` ("Promise.resolve()", ..., "Promise.race([])"), with one inner block per listed promise for `all`/`race` and one otherwise (`StaticInnerBlocks`), with its step added after its connector; `StaticKind` maps the four names to their kinds |
| `PromiseTracking.ListInnerBlocks` | src/trackers/Promise.ts:693-697 | one busy "promise" block per promise in the list |
| `PromiseTracking.Promises` | src/trackers/Promise.ts:689 | `filter(isPromise)`: an element is kept exactly when it is a promise, and never more than the list holds; `PromisesConcat` states the order |
| `PromiseTracking.PromisesConcat` | src/trackers/Promise.ts:689 | filtering keeps the order: the promises of a concatenation are those of the first part, then those of the second |
| `PromiseTracking.OwnReaction` | src/trackers/Promise.ts:256-279 | the observer of an item's own promise changes only the item's flags, asks for at most one command and never moves the step counter back (also at lines 315-346, 413-436, 611-636, 742-755, 811-835 of that file) |
| `PromiseTracking.ResultSettlesInStep` | src/trackers/Promise.ts:256-279 | a `trackPromise` result reports "success" or "error" at the current step, with its value and no box, and the step then moves on by one |
| `PromiseTracking.StaticSettlesInOwnStep` | src/trackers/Promise.ts:611-636 | `Promise.resolve`/`reject` report their outcome in a step of their own (the step is advanced before and after), on every inner block (box -1), with the value |
| `PromiseTracking.ListOwnOutcome` | src/trackers/Promise.ts:742-755 | `Promise.all` reports "success" on every inner block at the current step when fulfilled and nothing when rejected; a rejected `Promise.race` reports "error" without a box (lines 823-835) |
| `PromiseTracking.ParentReaction` | src/trackers/Promise.ts:388-411 | the observers of a chained item's parent keep the step counter and hand nothing on (also at lines 462-473, 522-546 of that file); the `.finally` error side uses the corrected test, see "## Left out" |
| `PromiseTracking.InputReaction` | src/trackers/Promise.ts:705-740 | the observers of a list input keep the item's identity and step order (also at lines 779-809 of that file) |
| `PromiseTracking.React` | src/trackers/Promise.ts:256-279 | any observer run changes only the closure flags, asks for at most one command, and puts it at a step between the counter before and after |
| `PromiseTracking.Replay` | src/trackers/Promise.ts:705-740 | several runs of one item's observers keep its identity, ask for at most one command per run, and never move the step back |
| `PromiseTracking.IssueShort` | src/trackers/Promise.ts:258-264 | at most one request becomes at most one command |
| `PromiseTracking.OwnObserverTransparent` | src/trackers/Promise.ts:256-279 | the observers of an item's own promise return the fulfilled value or rethrow the rejection reason unchanged (also at lines 315-346 of that file) |
| `PromiseTracking.CtorSettlesInOwnStep` | src/trackers/Promise.ts:315-346 | a `new Promise` settles in its own step (the counter moves before and after its command); a fulfilled one targets box 0; a rejected one targets box 1 exactly when there are two inner blocks |
| `PromiseTracking.ChainInFlag` | src/trackers/Promise.ts:387-411 | the "in" flag ends up false exactly when the parent rejected |
| `PromiseTracking.ChainParentMarks` | src/trackers/Promise.ts:388-411 | which parent outcomes mark which box of a `.then`, `.catch` or `.finally` block, given its callbacks (also at lines 462-473, 522-546 of that file) |
| `PromiseTracking.ChainOutcome` | src/trackers/Promise.ts:413-436 | a chained block settles with `<in>-in_<out>-out`: the in half is the parent's outcome, the out half its own, box 0 for a fulfilled parent and 1 for a rejected one (0 for `.finally`), and the value passes through |
| `PromiseTracking.AllFulfilmentsReport` | src/trackers/Promise.ts:705-724 | with no rejection, a `Promise.all` reports every fulfilment but the last of all inputs |
| `PromiseTracking.AllFirstRejectionShown` | src/trackers/Promise.ts:725-738 | only the first rejection of a `Promise.all` shows its output; every later report hides it |
| `PromiseTracking.ListAfterFlagHidden` | src/trackers/Promise.ts:712-737 | once an all has a rejection or a race has a result, every later input report hides its output, and a race keeps its winner's box (also at lines 785-806 of that file) |
| `PromiseTracking.RaceWinnerShown` | src/trackers/Promise.ts:783-797 | the first input of a race to fulfil adds no command and becomes the winner, and the race's own fulfilment targets its box (also at lines 811-822 of that file) |
| `PromiseTracking.TaggedOrdered` | src/trackers/Promise.ts:38-40 | commands tagged with the steps of ordered orders are in step order |
| `PromiseTracking.BuildOrdered` | src/trackers/Promise.ts:38-40 | the tracker's log has render groups that never go back, and every command has a DOM hook (also at line 253 of that file) |
| `PromiseTracking.PromiseTracker.constructor` | src/trackers/Promise.ts:224-226 | step 0, nothing added, no items (also at line 38 of that file) |
| `PromiseTracking.PromiseTracker.NextStepId` | src/trackers/Promise.ts:40 | pre-increments the counter and returns the new value; nothing else changes |
| `PromiseTracking.PromiseTracker.AddCommand` | src/trackers/Promise.ts:253 | appends one command of the current step, keeping the step order |
| `PromiseTracking.PromiseTracker.LazyPromiseArgument` | src/trackers/Promise.ts:230-234 | moves the step on and changes nothing else |
| `PromiseTracking.PromiseTracker.Register` | src/trackers/Promise.ts:247-253 | adds the item's state and the command that draws it |
| `PromiseTracking.PromiseTracker.OnResult` | src/trackers/Promise.ts:235-284 | adds a busy block titled `name(${args[0]})` (`TemplateText`) at the current step and maps the returned promise to the new item |
| `PromiseTracking.PromiseTracker.OnCtor` | src/trackers/Promise.ts:286-352 | adds the `new Promise` block with its executor-arity inner blocks at the current step; both promises map to the item |
| `PromiseTracking.PromiseTracker.OnMethod` | src/trackers/Promise.ts:354-581 | `then`/`catch`/`finally` always add a block at the current step and register the chained promise; the block's `parentId` is the parent's item when the parent promise is tracked, and none otherwise; any other name adds nothing; the block carries the corrected callback titles |
| `PromiseTracking.PromiseTracker.OnStatic` | src/trackers/Promise.ts:583-848 | `resolve`/`reject`/`all`/`race` add their block, `all`/`race` with one inner block per promise of `args[0]` when it is truthy; a truthy non-array `args[0]` of `all`/`race` makes the handler throw the `TypeError` of `args[0].filter` with nothing added; any other name adds nothing and is reported with "Unknown static item to render: " (also at lines 689 and 763 of that file) |
| `PromiseTracking.ListArgument` | src/trackers/Promise.ts:689 | `args && args[0] ? args[0].filter(isPromise) : []`: it fails exactly when `args[0]` is truthy and not an array, with the `TypeError`'s message; a falsy `args[0]` gives no promises, and an array exactly its promise elements (also at line 763 of that file) |
| `PromiseTracking.ListArgumentThrows` | src/trackers/Promise.ts:689 | `Promise.all(new Set([p]))` and `Promise.race("ab")` throw out of the handler (also at line 763 of that file) |
| `PromiseTracking.ListArgumentFilters` | src/trackers/Promise.ts:689 | an array of a promise and a number lists just the promise |

| `PromiseTracking.PromiseTracker.Emit` | src/trackers/Promise.ts:317-325 | the optional step before, one command at the current step, then the step after |
| `PromiseTracking.PromiseTracker.Note` | src/trackers/Promise.ts:390-398 | one command at the current step, without moving the step |
| `PromiseTracking.PromiseTracker.SettleOwn` | src/trackers/Promise.ts:256-279 | the own-promise observer as `OwnReaction`: its commands, flags and step, and the settlement handed on (also at lines 315-346 of that file) |
| `PromiseTracking.PromiseTracker.SettleChainOwn` | src/trackers/Promise.ts:413-436 | the chained own-promise observer as `OwnReaction` |
| `PromiseTracking.PromiseTracker.SettleBlockOwn` | src/trackers/Promise.ts:315-346 | the block own-promise observer as `OwnReaction` (also at lines 611-636 of that file) |
| `PromiseTracking.PromiseTracker.SettleListOwn` | src/trackers/Promise.ts:742-755 | the all/race own-promise observer as `OwnReaction` (also at lines 811-835 of that file) |
| `PromiseTracking.PromiseTracker.SettleParent` | src/trackers/Promise.ts:388-411 | the parent observers as `ParentReaction`, with its corrected `.finally` test |
| `PromiseTracking.PromiseTracker.SettleInput` | src/trackers/Promise.ts:707-740 | the input observers as `InputReaction` (also at lines 781-809 of that file) |
| `PromiseTracking.PromiseTracker.Settle` | src/trackers/Promise.ts:256-279 | any observer run as `React`, keeping the step order of the log |
| `PromiseTracking.FinallyErrorInLost` | src/trackers/Promise.ts:534-545 | as written, `.finally(cb)`'s observer of a rejected parent never marks the block, although the block exists and is reached from the error side; the corrected test marks it |
| `PromiseTracking.TrackedLogNeverThrows` | src/renderer/renderer.ts:307-312 | a log made only of the tracker's commands never makes a render throw |

## Left out

- DOM, SVG and geometry: element creation, attribute writes, positions, `getOutputPosition`'s coordinates and `svg-utils.ts` are labelled effects on named elements, not real elements or numbers.
- The `insertSvgItemInside` assert (`src/trackers/PromiseBlock.ts:33`): elements are labels, so the model does not track whether the border box was created before an arrow is moved to the top.
- `useThrottling` (`src/utils.ts:29-40`) depends on `setTimeout`/`clearTimeout`; `addEventListener` (`src/utils.ts:63-70`) is DOM glue.
- Animation-frame and microtask timing: the step controller calls `render` directly, as though each frame fired at once. The once-per-frame coalescing of `requestRender` is modelled on its own in `Utils.RafThrottle`. The `.then(...)` chained after a render runs at once.
- Stepper.Stepper.OnMessage: in auto mode the `lastRendered = command` that runs after the render is applied at once, not after the frame.
- Re-entrant handlers: a handler that subscribes or unsubscribes during an emit is not modelled. Handlers are pure functions of the payload.
- `Object.keys` order: ids and names are assumed not to be integer-like strings, so insertion order is the key order.
- `===` on commands and promises is value equality; WeakMap identity and garbage collection are a finite map keyed by value.
- `Proxy` traps are functions of the handlers and the target. `new Error().stack` is an input line count. `getOid` is an input id for each handler call.
- `console.log`/`console.error` are trace events or an `errors` list; `alert` is a recorded text.
- PromiseTracking.PromiseTracker: commands are recorded as `Order` values; `Build` turns them into the commands the renderer sees. The tracker is not wired to a live `Renderer` object.
- The settlement order of promises is not modelled: observers run when the caller says a promise settled (`Settle`).
- PromiseTracking.CallbackTitle: titles a callback by the name of the function behind the interception layer's wrapper, not by the wrapper's empty name as the code does; the as-written title is `PromiseTracking.CallbackTitleAsWritten` (over `CallbackNameAsWritten`), see the first row of "## Findings".
- PromiseTracking.ThenInnerBlocks, PromiseTracking.CatchInnerBlocks, PromiseTracking.FinallyInnerBlocks and PromiseTracking.ChainCommand: use the corrected callback title and name, so a named callback's block shows that name; as written it shows "success", "error" or "finally".
- PromiseTracking.ParentReaction: a `.finally` block is marked "error-in" when its callback `args[0]` exists, the corrected test; as written (`PromiseTracking.FinallyMarksErrorAsWritten`, testing `args[1]`) that command is never added, see the second row of "## Findings".
- PromiseTracking.PromiseTracker.OnMethod: the block it adds carries the corrected callback titles of `ChainCommand`, not the as-written ones.
- PromiseTracking.PromiseTracker.SettleParent: reacts through `ParentReaction`, so it follows the corrected `.finally` test, not the as-written one.
- Titles.JsonTitle: `title.length` counts UTF-16 code units in the source; the model counts characters, so a title with characters outside the Basic Multilingual Plane is cut at a different place.
- Titles.JsonTitle: numbers are integers; `NaN`, `Infinity` (stringified as `null`) and fractions are not modelled.
- Titles.JsonTitle: the JSON text of a plain object or array, compact and indented, is part of the value (`Js.Plain`, `Js.ArrayObj`) rather than computed from its fields; strings are escaped as `JSON.stringify` does (`Titles.JsonQuote`), except that lone surrogates are not told apart.
- PromiseTracking.TemplateText: the text an object's own `toString` (or `Symbol.toPrimitive`) gives, such as a `URL`'s href or a `Date`'s date text, and its `Symbol.toStringTag` are part of the value (`Js.Plain`'s `ownText` and `toStringTag`) rather than computed by running that code; arrays, plain objects and tagged built-ins follow the rules of `Object.prototype.toString` and `Array.prototype.join`. PromiseTracking.PromiseTracker.OnResult titles its block with this text.
- PromiseTracking.ListArgument: only arrays have a `filter` method in the model; an object whose own `filter` property is a function would be called by the source (running user code), while the model throws the `TypeError`. The message text "args[0].filter is not a function" is the engine's wording for the unminified code and may differ in a build.
- PromiseTracking.PromiseTracker.OnStatic: the `TypeError` thrown out of the handler is returned as `Err`; how the interception layer passes it on to the caller of `Promise.all`/`Promise.race` (after the native call already made its promise) is not modelled.
- Titles.FunctionSource: the text of an interception wrapper (`Js.Watched`) is the fixed "(...args) => {...}"; the program shows the wrapper's real source text, which depends on how the build compiles `src/promiseTracker.ts:52-57`.
- The `if (!innerBlockResults) return` guards (`src/trackers/PromiseInnerBlocks.ts:206`, also lines 220 and 248) are not modelled: in the model the inner-block results always exist, because the DOM update that creates them runs before any style command of the block.
- Connector.CreateOutputCommand: the input panel and the arrows to the parent are drawn when the command has a truthy `parentId`; the source keys them on the parent command the renderer hands over (`src/connector.ts:26-32`), so a parent that was never drawn gets no input panel there but gets one in the model. Connector.OutputStyleCommand colours the input arrows on the same test.
- Interception.RunExecuter: builds a new map of locals instead of writing `Promise` and `trackPromise` into the caller's `locals` object (`src/promiseTracker.ts:160-170`), so the caller does not see the change through aliasing.
- `src/trackers/Fetch.ts`, `src/index.ts`, the editor, zoom, divider, samples, download, autosave and link files are UI or browser I/O and are not part of this model.

## Findings

| source | as written | input that shows it | evidently intended | confidence | as-written member | corrected member |
|---|---|---|---|---|---|---|
| src/trackers/Promise.ts:373 | the inner block title reads `getFunctionName(args[0])`, but the tracker always asks for lazy promise arguments, so every function argument arrives as the interception layer's anonymous wrapper (src/promiseTracker.ts:52-57) | `p.then(function onDone() {})`: the block is titled "success" | the title is the callback's own name, "onDone" | not executed | `PromiseTracking.WrappedCallbackNameLost` | `PromiseTracking.CallbackNameSeesThroughWrapper` |
| src/trackers/Promise.ts:535 | `.finally`'s observer of a rejected parent marks the block only when `args[1]` is truthy, and `.finally` takes one argument | `Promise.reject(1).finally(() => {})`: the "error-in" command is never added | the block is marked when the callback `args[0]` exists, as on the fulfilled side (line 524) | not executed | `PromiseTracking.FinallyErrorInLost` | `PromiseTracking.ChainParentMarks` |
