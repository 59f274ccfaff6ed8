/** The promise tracker of `trackers/Promise.ts` (`addToRenderer`): the
    handlers the interception layer calls when a promise is created, and the
    observers they attach to it, which hand render commands to the renderer.

    A handler builds the command that draws the new promise and registers
    observers on the promises involved. An observer runs when its promise
    settles: it adds a style command for the item and may move the module's
    render step counter on. Here a handler is a method of the tracker, an
    observer's run is an `Event` delivered to `Settle`, and the observers'
    shared closure variables are the item's `ItemState`. */
module PromiseTracking {
  import opened Wrappers
  import opened Js
  import opened Commands
  import opened Titles
  import opened Interception
  import opened PromiseBlock
  import opened PromiseInnerBlocks
  import opened Connector
  import Renderer

  // ---------------------------------------------------------------------
  // Reading the handlers' arguments
  // ---------------------------------------------------------------------

  /** `args[i]` of an argument list that may be missing: `undefined` when
      it is missing or too short. `args && args[i]` is truthy exactly when
      this is. */
  function Arg(args: Option<seq<JsValue>>, i: nat): JsValue
  {
    if args.Some? && i < |args.value| then args.value[i] else Undefined
  }

  /** `${o}`: the text a template literal makes of a value. An object
      without a `toString` of its own shows `[object <tag>]`, its
      `Symbol.toStringTag` or else "Object"; an array joins its elements'
      texts with commas. */
  function TemplateText(o: JsValue): (t: string)
    ensures o.Obj? && o.kind.Plain? && o.kind.ownText.None? ==>
      t == "[object " + (if o.kind.toStringTag == "" then "Object" else o.kind.toStringTag) + "]"
    ensures o.Obj? && o.kind.ArrayObj? && o.kind.elems == [] ==> t == ""
    decreases o, 1
  {
    match o
    case Undefined => "undefined"
    case Null => "null"
    case Bool(b) => if b then "true" else "false"
    case Num(n) => IntToString(n)
    case Str(s) => s
    case Obj(_, _, kind) =>
      (match kind
       case Plain(_, _, tag, ownText) =>
         if ownText.Some? then ownText.value else "[object " + (if tag == "" then "Object" else tag) + "]"
       case ArrayObj(elems, _, _) => JoinedText(o, 0)
       case Function(_, _, source) => source
       case ErrorObj(name, message) =>
         if name == "" then message else if message == "" then name else name + ": " + message)
    case Tracked(_) => "[object Promise]"
    case Watched(_, _) => FunctionSource(o)
  }

  /** `Array.prototype.join(",")` over the elements of array `a` from
      `from` on. */
  function JoinedText(a: JsValue, from: nat): string
    requires a.Obj? && a.kind.ArrayObj?
    decreases a, 0, |a.kind.elems| - from
  {
    var elems := a.kind.elems;
    if from >= |elems| then ""
    else (if from > 0 then "," else "") + ElementText(elems[from]) + JoinedText(a, from + 1)
  }

  /** The text `join` gives an element: empty for `null` and `undefined`. */
  function ElementText(e: JsValue): string
    decreases e, 2
  {
    if e.Undefined? || e.Null? then "" else TemplateText(e)
  }

  /** `${[x]}` is the text of `x` itself, and `${[x, y]}` puts one comma
      between the two texts; `undefined` and `null` elements vanish. */
  lemma ArrayTemplateText(x: JsValue, y: JsValue, props: map<string, JsValue>, json: string, prettyJson: string)
    ensures TemplateText(Obj(props, "Array", ArrayObj([x], json, prettyJson))) == ElementText(x)
    ensures TemplateText(Obj(props, "Array", ArrayObj([x, y], json, prettyJson))) == ElementText(x) + "," + ElementText(y)
  {
    var tx, ty := ElementText(x), ElementText(y);
    var a1 := Obj(props, "Array", ArrayObj([x], json, prettyJson));
    assert JoinedText(a1, 1) == "";
    assert JoinedText(a1, 0) == "" + tx + "" == tx;
    var a2 := Obj(props, "Array", ArrayObj([x, y], json, prettyJson));
    assert JoinedText(a2, 2) == "";
    assert JoinedText(a2, 1) == "," + ty + "" == "," + ty;
    assert JoinedText(a2, 0) == "" + tx + ("," + ty) == tx + "," + ty;
  }

  /** `o.length`: a function's arity, a string's length, or a numeric
      `length` property; 0 stands for `undefined`, which compares false. */
  function Arity(o: JsValue): int
  {
    match o
    case Obj(_, _, Function(_, arity, _)) => arity
    case Str(s) => |s|
    case Tracked(t) => Arity(t)
    case _ => if Get(o, "length").Num? then Get(o, "length").n else 0
  }

  /** `name || fallback`. */
  function NameOr(name: string, fallback: string): string
  {
    if name != "" then name else fallback
  }

  // ---------------------------------------------------------------------
  // The callback names shown in chained blocks
  // ---------------------------------------------------------------------

  /** The name the tracker reads for a callback argument, as written: the
      name of the value the `methods` handler receives. */
  function CallbackNameAsWritten(arg: JsValue): string
  {
    FunctionName(arg)
  }

  /** The name of the callback the program passed: when the interception
      layer has replaced it by its wrapper, the wrapped callback's name. */
  function CallbackName(arg: JsValue): (name: string)
    ensures !arg.Watched? ==> name == FunctionName(arg)
    ensures arg.Watched? ==> name == FunctionName(arg.callback)
  {
    FunctionName(if arg.Watched? then arg.callback else arg)
  }

  /** `args[i] ? getFunctionName(args[i]) || fallback : ""`, as written. */
  function CallbackTitleAsWritten(arg: JsValue, fallback: string): string
  {
    if Truthy(arg) then NameOr(CallbackNameAsWritten(arg), fallback) else ""
  }

  /** The inner block title of a callback argument: its name, the fallback
      when it has none, and "" when there is no callback. */
  function CallbackTitle(arg: JsValue, fallback: string): (title: string)
    ensures !Truthy(arg) ==> title == ""
    ensures Truthy(arg) && CallbackName(arg) != "" ==> title == CallbackName(arg)
    ensures Truthy(arg) && CallbackName(arg) == "" ==> title == fallback
  {
    if Truthy(arg) then NameOr(CallbackName(arg), fallback) else ""
  }

  /** The tracker always asks for lazy promise arguments, so a `.then`
      callback reaches it wrapped. As written, a named callback then shows
      the fallback title instead of its name. */
  lemma WrappedCallbackNameLost(name: string, arity: nat, source: string)
    requires name != ""
    ensures var f := Obj(map[], "Function", Function(name, arity, source));
      var received := WatchArguments([f], 1).0[0];
      CallbackTitleAsWritten(received, "success") == "success" && CallbackTitle(received, "success") == name
  {
    var f := Obj(map[], "Function", Function(name, arity, source));
    assert WatchArguments([f], 1).0[0] == Watched(f, 0);
  }

  /** Whether or not the arguments were wrapped, the name read is the name
      of the callback the program passed. */
  lemma CallbackNameSeesThroughWrapper(args: seq<JsValue>, i: nat)
    requires i < |args|
    ensures CallbackName(WatchArguments(args, |args|).0[i]) == FunctionName(args[i])
  {
    var received := WatchArguments(args, |args|).0[i];
    if IsFunction(args[i]) {
      assert received == Watched(args[i], i);
    } else {
      assert received == args[i];
      assert !received.Watched?;
    }
  }

  // ---------------------------------------------------------------------
  // The commands
  // ---------------------------------------------------------------------

  /** `withDescription`'s text for an item, a description and a step. */
  function DescriptionText(id: string, description: string, stepId: int): string
  {
    "#" + id + ": " + description + " (Render group: " + IntToString(stepId) + ")"
  }

  /** The style closure of a promise block, wrapped by its inner blocks
      when it has them. */
  function BlockMaker(id: string, inner: Option<seq<InnerBlock>>): StyleMaker
  {
    if inner.Some? then InnerStyle(Some(BlockStyle(id)), inner.value) else BlockStyle(id)
  }

  /** The block before its connector: `createPromiseBlock`, then
      `withInnerBlocks` when it has inner blocks, then `withStepId` when the
      step comes first. */
  function ShapedBlock(id: string, options: BlockOptions, inner: Option<seq<InnerBlock>>,
                       stepFirst: bool, stepId: int): (c: Command)
    ensures c.name == "CreatePromiseBlock" && c.id == id && c.parentId.None? && c.updateDom.Some?
    ensures c.createStyleCommand == Some(BlockMaker(id, inner))
    ensures Keys(c.extras) == if stepFirst then [InsertSvgItemInsideKey, StepIdKey] else [InsertSvgItemInsideKey]
    ensures stepFirst ==> StepId(c) == Some(stepId)
  {
    var block := CreatePromiseBlock(id, options);
    var shaped := if inner.Some? then WithInnerBlocks(block, inner.value) else block;
    if stepFirst then WithStepId(shaped, stepId) else shaped
  }

  /** `withConnector` on a block without a parent and without a connector:
      the merge succeeds, takes the connector's parent, is not replaceable,
      and keeps the block's extras ahead of the connector's. */
  lemma ConnectorMerges(pre: Command, parentId: Option<string>)
    requires GetOutputPositionKey !in Keys(pre.extras) && !pre.HasParent() && pre.updateDom.Some?
    ensures UseConnector(pre, pre.id, parentId).Ok?
    ensures var c := UseConnector(pre, pre.id, parentId).value;
      c.name == pre.name + " & " + "CreateOutput" && c.id == pre.id && c.parentId == parentId &&
      !c.CanReplace() && c.updateDom.Some? &&
      Keys(c.extras) == Keys(pre.extras) + [GetOutputPositionKey] &&
      forall k :: k in Keys(pre.extras) ==> Lookup(c.extras, k) == Lookup(pre.extras, k)
  {
    UseConnectorConflicts(pre, pre.id, parentId);
    MergeSpec(pre, CreateOutputCommand(pre.id, parentId));
  }

  /** The merged command's style closure runs the block's and then the
      connector's. */
  lemma ConnectorStyle(pre: Command, parentId: Option<string>)
    requires UseConnector(pre, pre.id, parentId).Ok?
    ensures UseConnector(pre, pre.id, parentId).value.createStyleCommand ==
      Some(MergedStyle(pre.createStyleCommand, Some(OutputStyle(pre.id, parentId))))
  {
    var o := CreateOutputCommand(pre.id, parentId);
    assert o.createStyleCommand.Some?;
  }

  function Connected(pre: Command, parentId: Option<string>): (c: Command)
    requires GetOutputPositionKey !in Keys(pre.extras) && !pre.HasParent() && pre.updateDom.Some?
    ensures c.name == pre.name + " & " + "CreateOutput" && c.id == pre.id && c.parentId == parentId
    ensures !c.CanReplace() && c.updateDom.Some?
    ensures c.createStyleCommand == Some(MergedStyle(pre.createStyleCommand, Some(OutputStyle(pre.id, parentId))))
    ensures Keys(c.extras) == Keys(pre.extras) + [GetOutputPositionKey]
    ensures forall k :: k in Keys(pre.extras) ==> Lookup(c.extras, k) == Lookup(pre.extras, k)
  {
    ConnectorMerges(pre, parentId);
    ConnectorStyle(pre, parentId);
    UseConnector(pre, pre.id, parentId).value
  }

  /** The extras keys the pipeline sets are distinct. */
  lemma PipelineKeysDistinct()
    ensures InsertSvgItemInsideKey != StepIdKey && InsertSvgItemInsideKey != GetOutputPositionKey
    ensures InsertSvgItemInsideKey != DescriptionKey && StepIdKey != GetOutputPositionKey
    ensures StepIdKey != DescriptionKey && GetOutputPositionKey != DescriptionKey
  {
    assert InsertSvgItemInsideKey[0] == 'i' && StepIdKey[0] == 's' && GetOutputPositionKey[0] == 'g' && DescriptionKey[0] == 'd';
  }

  /** The name of a block merged with its connector. */
  lemma LinkedName()
    ensures "CreatePromiseBlock" + " & " + "CreateOutput" == "CreatePromiseBlock & CreateOutput"
  {
  }

  /** The pipeline up to `withDescription`: the block, its connector and
      its step, in the order `stepFirst` gives. */
  function LinkedBlock(id: string, parentId: Option<string>, options: BlockOptions, inner: Option<seq<InnerBlock>>,
                       stepFirst: bool, stepId: int): (c: Command)
    ensures c.name == "CreatePromiseBlock & CreateOutput" && c.id == id && c.parentId == parentId
    ensures !c.CanReplace() && c.updateDom.Some?
    ensures c.createStyleCommand == Some(MergedStyle(Some(BlockMaker(id, inner)), Some(OutputStyle(id, parentId))))
    ensures StepId(c) == Some(stepId)
    ensures Keys(c.extras) ==
      if stepFirst then [InsertSvgItemInsideKey, StepIdKey, GetOutputPositionKey]
      else [InsertSvgItemInsideKey, GetOutputPositionKey, StepIdKey]
  {
    var pre := ShapedBlock(id, options, inner, stepFirst, stepId);
    LinkedName();
    if stepFirst then StepThenConnect(pre, parentId, stepId) else ConnectThenStep(pre, parentId, stepId)
  }

  /** `withStepId` before `withConnector`: the step survives the merge. */
  function StepThenConnect(pre: Command, parentId: Option<string>, stepId: int): (c: Command)
    requires Keys(pre.extras) == [InsertSvgItemInsideKey, StepIdKey] && StepId(pre) == Some(stepId)
    requires !pre.HasParent() && pre.updateDom.Some?
    ensures c.name == pre.name + " & " + "CreateOutput" && c.id == pre.id && c.parentId == parentId
    ensures !c.CanReplace() && c.updateDom.Some?
    ensures c.createStyleCommand == Some(MergedStyle(pre.createStyleCommand, Some(OutputStyle(pre.id, parentId))))
    ensures StepId(c) == Some(stepId)
    ensures Keys(c.extras) == [InsertSvgItemInsideKey, StepIdKey, GetOutputPositionKey]
  {
    PipelineKeysDistinct();
    var c := Connected(pre, parentId);
    assert Lookup(c.extras, StepIdKey) == Lookup(pre.extras, StepIdKey);
    c
  }

  /** `withConnector` before `withStepId`: the step key comes last. */
  function ConnectThenStep(pre: Command, parentId: Option<string>, stepId: int): (c: Command)
    requires Keys(pre.extras) == [InsertSvgItemInsideKey]
    requires !pre.HasParent() && pre.updateDom.Some?
    ensures c.name == pre.name + " & " + "CreateOutput" && c.id == pre.id && c.parentId == parentId
    ensures !c.CanReplace() && c.updateDom.Some?
    ensures c.createStyleCommand == Some(MergedStyle(pre.createStyleCommand, Some(OutputStyle(pre.id, parentId))))
    ensures StepId(c) == Some(stepId)
    ensures Keys(c.extras) == [InsertSvgItemInsideKey, GetOutputPositionKey, StepIdKey]
  {
    PipelineKeysDistinct();
    var connected := Connected(pre, parentId);
    assert StepIdKey !in Keys(connected.extras);
    WithStepId(connected, stepId)
  }

  /** The command a handler adds for a new promise: `createPromiseBlock`,
      `withInnerBlocks` when the block has inner blocks, `withStepId` and
      `withConnector` (in the order `stepFirst` gives), and
      `withDescription`. The connector never conflicts, so the pipeline never
      throws; the result is not replaceable, carries the step and the
      description, and derives its style commands from the block's closure
      merged with the connector's. */
  function BlockCommand(id: string, parentId: Option<string>, options: BlockOptions, inner: Option<seq<InnerBlock>>,
                        stepFirst: bool, stepId: int, description: string): (c: Command)
    ensures c.name == "CreatePromiseBlock & CreateOutput" && c.id == id && c.parentId == parentId
    ensures !c.CanReplace() && c.updateDom.Some?
    ensures c.createStyleCommand == Some(MergedStyle(Some(BlockMaker(id, inner)), Some(OutputStyle(id, parentId))))
    ensures StepId(c) == Some(stepId)
    ensures Lookup(c.extras, DescriptionKey) == Some(TextExtra(DescriptionText(id, description, stepId)))
    ensures Keys(c.extras) ==
      (if stepFirst then [InsertSvgItemInsideKey, StepIdKey, GetOutputPositionKey]
       else [InsertSvgItemInsideKey, GetOutputPositionKey, StepIdKey]) + [DescriptionKey]
  {
    PipelineKeysDistinct();
    var linked := LinkedBlock(id, parentId, options, inner, stepFirst, stepId);
    assert StepIdText(linked) == IntToString(stepId);
    WithDescription(linked, description)
  }

  /** What an observer asks of the item's style closure: a style name and
      payload, and the step and description of the resulting command. */
  datatype StyleRequest = StyleRequest(styleName: string, payload: StylePayload, stepId: nat, description: string)

  /** `pipe(command.createStyleCommand!(styleName, payload), withStepId(..),
      withDescription(..))`: deriving never fails; the result is the
      replaceable block-and-connector style command of the item, with the
      requested step and description. */
  function StyleCommand(id: string, parentId: Option<string>, inner: Option<seq<InnerBlock>>, q: StyleRequest): (c: Command)
    ensures c.name == "SetPromiseBlockStyle & UpdateOutputStyle" && c.id == id && c.parentId == parentId
    ensures c.CanReplace() && c.updateDom.Some?
    ensures StepId(c) == Some(q.stepId)
    ensures Lookup(c.extras, DescriptionKey) == Some(TextExtra(DescriptionText(id, q.description, q.stepId)))
  {
    TrackedStyleCommand(id, parentId, inner, q.styleName, q.payload);
    var derived := CreateStyleCommand(MergedStyle(Some(BlockMaker(id, inner)), Some(OutputStyle(id, parentId))),
                                      q.styleName, q.payload).value;
    WithDescription(WithStepId(derived, q.stepId), q.description)
  }

  /** A command the tracker hands to the renderer, by what it is built
      from: a new block (`BlockCommand`) or a restyle of an item's block
      (`StyleCommand`). */
  datatype Order =
    | Draw(id: string, parentId: Option<string>, options: BlockOptions, inner: Option<seq<InnerBlock>>,
           stepFirst: bool, step: nat, description: string)
    | Restyle(id: string, parentId: Option<string>, inner: Option<seq<InnerBlock>>, request: StyleRequest)
  {
    /** The render step the command is tagged with. */
    function Step(): nat
    {
      if Draw? then step else request.stepId
    }
  }

  /** The command an order stands for: tagged with the order's step, and
      with a DOM hook. */
  function Build(o: Order): (c: Command)
    ensures StepId(c) == Some(o.Step()) && c.updateDom.Some?
  {
    match o
    case Draw(id, parentId, options, inner, stepFirst, step, description) =>
      BlockCommand(id, parentId, options, inner, stepFirst, step, description)
    case Restyle(id, parentId, inner, q) => StyleCommand(id, parentId, inner, q)
  }

  /** The commands a sequence of orders stands for. */
  function BuildAll(os: seq<Order>): (cs: seq<Command>)
    ensures |cs| == |os|
    ensures forall k :: 0 <= k < |os| ==> StepId(cs[k]) == Some(os[k].Step()) && cs[k].updateDom.Some?
  {
    if os == [] then [] else [Build(os[0])] + BuildAll(os[1..])
  }

  /** The inner blocks of a `new Promise(executor)` block: "resolve" when
      the executor takes an argument, and "reject" as well when it takes
      two or more. */
  function CtorInnerBlocks(args: Option<seq<JsValue>>): (blocks: seq<InnerBlock>)
    ensures var n := if Truthy(Arg(args, 0)) then Arity(Arg(args, 0)) else 0;
      |blocks| == (if n <= 0 then 0 else if n == 1 then 1 else 2)
    ensures |blocks| > 0 ==> blocks[0] == InnerBlock("resolve", "", "disabled", false, false)
    ensures |blocks| > 1 ==> blocks[1] == InnerBlock("reject", "", "disabled", false, false)
  {
    var executor := Arg(args, 0);
    var n := if Truthy(executor) then Arity(executor) else 0;
    (if n > 0 then [InnerBlock("resolve", "", "disabled", false, false)] else []) +
    (if n > 1 then [InnerBlock("reject", "", "disabled", false, false)] else [])
  }

  /** The two inner blocks of a `.then(onFulfilled, onRejected)` block. */
  function ThenInnerBlocks(args: Option<seq<JsValue>>): (blocks: seq<InnerBlock>)
    ensures |blocks| == 2 && blocks[0].style == "disabled" && blocks[1].style == "disabled"
    ensures blocks[0].fromSuccess && !blocks[0].fromError && blocks[1].fromError && !blocks[1].fromSuccess
    ensures blocks[0].title == "" <==> !Truthy(Arg(args, 0))
    ensures blocks[1].title == "" <==> !Truthy(Arg(args, 1))
  {
    [InnerBlock(CallbackTitle(Arg(args, 0), "success"), "", "disabled", true, false),
     InnerBlock(CallbackTitle(Arg(args, 1), "error"), "", "disabled", false, true)]
  }

  /** The two inner blocks of a `.catch(onRejected)` block; the first is an
      untitled pass-through for a fulfilled parent. */
  function CatchInnerBlocks(args: Option<seq<JsValue>>): (blocks: seq<InnerBlock>)
    ensures |blocks| == 2 && blocks[0].title == "" && blocks[0].fromSuccess && !blocks[0].fromError
    ensures blocks[1].fromError && !blocks[1].fromSuccess
    ensures blocks[1].title == "" <==> !Truthy(Arg(args, 0))
  {
    [InnerBlock("", "", "disabled", true, false),
     InnerBlock(CallbackTitle(Arg(args, 0), "error"), "", "disabled", false, true)]
  }

  /** The inner block of a `.finally(onFinally)` block, reached from both
      outcomes; none without a callback. */
  function FinallyInnerBlocks(args: Option<seq<JsValue>>): (blocks: seq<InnerBlock>)
    ensures |blocks| == if Truthy(Arg(args, 0)) then 1 else 0
    ensures |blocks| == 1 ==> blocks[0].title != "" && blocks[0].fromSuccess && blocks[0].fromError
  {
    if Truthy(Arg(args, 0)) then [InnerBlock(NameOr(CallbackName(Arg(args, 0)), "finally"), "", "disabled", true, true)]
    else []
  }

  /** The inner blocks of `Promise.all`/`Promise.race`: one busy "promise"
      block per promise in the list. */
  function ListInnerBlocks(n: nat): (blocks: seq<InnerBlock>)
    ensures |blocks| == n
    ensures forall k :: 0 <= k < n ==> blocks[k] == InnerBlock("promise", "", "busy", false, false)
  {
    seq(n, k => InnerBlock("promise", "", "busy", false, false))
  }

  /** `args[0].filter(isPromise)`. */
  function Promises(list: seq<JsValue>): (ps: seq<JsValue>)
    ensures |ps| <= |list|
    ensures forall p :: p in ps ==> p in list && IsPromise(p)
    ensures forall p :: p in list && IsPromise(p) ==> p in ps
  {
    if list == [] then []
    else
      var rest := Promises(list[1..]);
      assert forall p :: p in list ==> p == list[0] || p in list[1..];
      (if IsPromise(list[0]) then [list[0]] else []) + rest
  }

  /** Filtering keeps the order: the promises of a concatenation are those
      of the first part followed by those of the second. */
  lemma {:induction false} PromisesConcat(a: seq<JsValue>, b: seq<JsValue>)
    ensures Promises(a + b) == Promises(a) + Promises(b)
  {
    if a == [] {
      assert a + b == b;
    } else {
      assert (a + b)[1..] == a[1..] + b;
      PromisesConcat(a[1..], b);
      var head, x, y := if IsPromise(a[0]) then [a[0]] else [], Promises(a[1..]), Promises(b);
      assert Promises(a + b) == head + (x + y);
      assert Promises(a) == head + x;
      assert head + (x + y) == (head + x) + y;
    }
  }

  // ---------------------------------------------------------------------
  // Items and their observers
  // ---------------------------------------------------------------------

  /** Which handler created an item. */
  datatype Kind = ResultKind | CtorKind | ThenKind | CatchKind | FinallyKind | ResolveKind | RejectKind | AllKind | RaceKind

  predicate IsChain(k: Kind) { k.ThenKind? || k.CatchKind? || k.FinallyKind? }

  predicate IsList(k: Kind) { k.AllKind? || k.RaceKind? }

  /** What an item's observers share: the item's id, parent id, inner
      blocks and arguments, the number of promises in a `Promise.all`/`race`
      list, and the closure flags `isSuccesIn`, `resultCount`, `hasError`,
      `hasResult` and `successBoxIndex`. */
  datatype ItemState = ItemState(kind: Kind, id: string, parentId: Option<string>, inner: Option<seq<InnerBlock>>,
                                 args: Option<seq<JsValue>>, total: nat,
                                 isSuccessIn: bool, resultCount: nat, hasError: bool, hasResult: bool, successBoxIndex: int)

  /** An item as its handler leaves it, before any observer has run. */
  function NewItem(kind: Kind, id: string, parentId: Option<string>, inner: Option<seq<InnerBlock>>,
                   args: Option<seq<JsValue>>, total: nat): ItemState
  {
    ItemState(kind, id, parentId, inner, args, total, true, 0, false, false, -1)
  }

  datatype Settlement = Fulfilled(value: JsValue) | Rejected(reason: JsValue)
  {
    function Value(): JsValue
    {
      if Fulfilled? then value else reason
    }
  }

  /** An observer's run: the item's own promise settled, the parent of a
      chained item settled, or promise `index` of a `Promise.all`/`race`
      list settled. */
  datatype Event = OwnSettled(s: Settlement) | ParentSettled(s: Settlement) | InputSettled(index: nat, s: Settlement)

  /** The events an item has an observer for. */
  predicate Observed(st: ItemState, e: Event)
  {
    match e
    case OwnSettled(_) => true
    case ParentSettled(_) => IsChain(st.kind)
    case InputSettled(i, _) => IsList(st.kind) && i < st.total
  }

  /** What one observer run does: the style commands it asks for, in order,
      the item's flags afterwards, the step counter afterwards, and what the
      observer hands on (the settlement itself, for the observers that
      replace the item's promise; nothing for the others). */
  datatype Reaction = Reaction(requests: seq<StyleRequest>, state: ItemState, stepId: nat, out: Option<Settlement>)

  function Verb(ok: bool): string { if ok then "succeeded" else "failed" }

  function Outcome(ok: bool): string { if ok then "success" else "error" }

  /** The inner block a rejected `new Promise` targets: "reject" when there
      is one, otherwise the first. */
  function CtorErrorBox(innerCount: nat): int { if innerCount < 2 then 0 else 1 }

  /** The box a chained block's outcome targets: the block of the parent's
      outcome for `.then`/`.catch`, the only block for `.finally`. */
  function ChainBox(st: ItemState): int
  {
    if st.kind.FinallyKind? || st.isSuccessIn then 0 else 1
  }

  /** The description prefix of a chained block's observers; `.catch`
      blocks reuse the `.then` texts. */
  function ChainPrefix(k: Kind): string
  {
    if k.FinallyKind? then ".finally(): " else ".then(): "
  }

  /** An observer run changes only the item's closure flags, asks for at
      most one style command, and never moves the step counter back; the
      command's step lies between the counter before and after. */
  predicate Keeps(st: ItemState, r: Reaction, stepId: nat)
  {
    r.state.kind == st.kind && r.state.id == st.id && r.state.parentId == st.parentId &&
    r.state.inner == st.inner && r.state.args == st.args && r.state.total == st.total &&
    r.stepId >= stepId && |r.requests| <= 1 &&
    forall k :: 0 <= k < |r.requests| ==> stepId <= r.requests[k].stepId <= r.stepId
  }

  /** One style command, at the next step when `stepBefore` (the handler
      calls `nextStepId` first) and at the current one otherwise; the step
      moves on afterwards. */
  function Report(st: ItemState, styleName: string, payload: StylePayload, description: string,
                  stepBefore: bool, stepId: nat, s: Settlement): (r: Reaction)
    ensures Keeps(st, r, stepId) && r.out == Some(s)
  {
    var at := if stepBefore then stepId + 1 else stepId;
    Reaction([StyleRequest(styleName, payload, at, description)], st, at + 1, Some(s))
  }

  /** The observer of the item's own promise. */
  function OwnReaction(st: ItemState, s: Settlement, stepId: nat): (r: Reaction)
    ensures Keeps(st, r, stepId)
  {
    var ok := s.Fulfilled?;
    var v := Some(s.Value());
    match st.kind
    case ResultKind =>
      Report(st, Outcome(ok), StylePayload(v, None, None), "Function that returns a Promise: " + Verb(ok), false, stepId, s)
    case CtorKind =>
      var box := if ok then 0 else CtorErrorBox(|st.inner.GetOr([])|);
      Report(st, Outcome(ok), StylePayload(v, Some(box), None), "new Promise(): " + Verb(ok), true, stepId, s)
    case ThenKind | CatchKind | FinallyKind =>
      Report(st, OutcomeStyleName(st.isSuccessIn, ok), StylePayload(v, Some(ChainBox(st)), None),
             ChainPrefix(st.kind) + (if ok then "to success" else "to error"), false, stepId, s)
    case ResolveKind =>
      Report(st, Outcome(ok), StylePayload(v, Some(-1), None), "Promise.resolve(): " + Verb(ok), true, stepId, s)
    case RejectKind =>
      Report(st, Outcome(ok), StylePayload(v, Some(-1), None), "Promise.reject(): " + Verb(ok), true, stepId, s)
    case AllKind =>
      if ok then Report(st, "success", StylePayload(v, Some(-1), None), "Promise.all(): all succeeded", false, stepId, s)
      else Reaction([], st, stepId, Some(s))
    case RaceKind =>
      if ok then
        Report(st, "success", StylePayload(v, Some(st.successBoxIndex), None),
               "Promise.race(): succeeded with promise " + IntToString(st.successBoxIndex + 1) + "/" + NatToString(st.total),
               false, stepId, s)
      else Report(st, "error", StylePayload(v, None, None), "Promise.race(): failed", false, stepId, s)
  }

  /** A style command on the block `box` of a chained item at the current
      step, when `show`. */
  function Mark(show: bool, st: ItemState, styleName: string, box: int, description: string, stepId: nat): Reaction
  {
    Reaction(if show then [StyleRequest(styleName, StylePayload(None, Some(box), None), stepId, description)] else [],
             st, stepId, None)
  }

  /** Whether `.finally`'s observer of a rejected parent marks the block,
      as written: it tests the second argument, which `.finally` is never
      given. */
  predicate FinallyMarksErrorAsWritten(args: Option<seq<JsValue>>)
  {
    Truthy(Arg(args, 1))
  }

  /** Whether `.finally`'s observer of a rejected parent marks the block:
      when there is a callback, that is, when the block exists. */
  predicate FinallyMarksError(args: Option<seq<JsValue>>)
  {
    Truthy(Arg(args, 0))
  }

  /** The observers of a chained item's parent. Fulfilment marks the
      success side, rejection the error side and clears the "in" flag;
      `.catch` does not observe a fulfilled parent. */
  function ParentReaction(st: ItemState, s: Settlement, stepId: nat): (r: Reaction)
    ensures Keeps(st, r, stepId) && r.stepId == stepId && r.out.None?
  {
    var failed := st.(isSuccessIn := false);
    var fromSuccess := ChainPrefix(st.kind) + "from success";
    var fromError := ChainPrefix(st.kind) + "from error";
    match st.kind
    case ThenKind =>
      if s.Fulfilled? then Mark(Truthy(Arg(st.args, 0)), st, "success-in", 0, fromSuccess, stepId)
      else Mark(Truthy(Arg(st.args, 1)), failed, "error-in", 1, fromError, stepId)
    case CatchKind =>
      if s.Fulfilled? then Reaction([], st, stepId, None)
      else Mark(Truthy(Arg(st.args, 0)), failed, "error-in", 1, fromError, stepId)
    case FinallyKind =>
      if s.Fulfilled? then Mark(Truthy(Arg(st.args, 0)), st, "success-in", 0, fromSuccess, stepId)
      else Mark(FinallyMarksError(st.args), failed, "error-in", 0, fromError, stepId)
    case _ => Reaction([], st, stepId, None)
  }

  /** `Promise.all(): promise 2/3 succeeded` and the like. */
  function InputText(caption: string, index: nat, total: nat, verb: string): string
  {
    caption + ": promise " + NatToString(index + 1) + "/" + NatToString(total) + " " + verb
  }

  /** The observers of promise `i` of a `Promise.all`/`race` list. */
  function InputReaction(st: ItemState, i: nat, s: Settlement, stepId: nat): (r: Reaction)
    ensures Keeps(st, r, stepId) && r.stepId == stepId && r.out.None?
  {
    match st.kind
    case AllKind =>
      if s.Fulfilled? then
        var count := st.resultCount + 1;
        Reaction(if st.hasError || count != st.total
                 then [StyleRequest("success", StylePayload(None, Some(i), Some(true)), stepId, InputText("Promise.all()", i, st.total, "succeeded"))]
                 else [],
                 st.(resultCount := count), stepId, None)
      else
        Reaction([StyleRequest("error", StylePayload(Some(s.reason), Some(i), Some(st.hasError)), stepId, InputText("Promise.all()", i, st.total, "failed"))],
                 st.(hasError := true), stepId, None)
    case RaceKind =>
      if s.Fulfilled? then
        if st.hasResult then
          Reaction([StyleRequest("success", StylePayload(None, Some(i), Some(true)), stepId, InputText("Promise.race()", i, st.total, "succeeded"))],
                   st, stepId, None)
        else Reaction([], st.(successBoxIndex := i, hasResult := true), stepId, None)
      else
        Reaction([StyleRequest("error", StylePayload(None, Some(i), Some(st.hasResult)), stepId, InputText("Promise.race()", i, st.total, "failed"))],
                 st.(hasResult := true), stepId, None)
    case _ => Reaction([], st, stepId, None)
  }

  /** One observer run. It changes only the item's closure flags, asks for
      at most one style command, and never moves the step counter back; the
      command's step lies between the counter before and after. */
  function React(st: ItemState, e: Event, stepId: nat): (r: Reaction)
    ensures r.state.kind == st.kind && r.state.id == st.id && r.state.parentId == st.parentId
    ensures r.state.inner == st.inner && r.state.args == st.args && r.state.total == st.total
    ensures r.stepId >= stepId && |r.requests| <= 1
    ensures forall k :: 0 <= k < |r.requests| ==> stepId <= r.requests[k].stepId <= r.stepId
  {
    match e
    case OwnSettled(s) => OwnReaction(st, s, stepId)
    case ParentSettled(s) => ParentReaction(st, s, stepId)
    case InputSettled(i, s) => InputReaction(st, i, s, stepId)
  }

  /** Several observer runs of one item, in order. */
  function Replay(st: ItemState, es: seq<Event>, stepId: nat): (r: Reaction)
    ensures r.state.kind == st.kind && r.state.id == st.id && r.state.parentId == st.parentId
    ensures r.state.inner == st.inner && r.state.args == st.args && r.state.total == st.total
    ensures r.stepId >= stepId && |r.requests| <= |es|
    ensures forall q :: q in r.requests ==> stepId <= q.stepId <= r.stepId
    decreases |es|
  {
    if es == [] then Reaction([], st, stepId, None)
    else
      var r := React(st, es[0], stepId);
      var rest := Replay(r.state, es[1..], r.stepId);
      Reaction(r.requests + rest.requests, rest.state, rest.stepId, if |es| == 1 then r.out else rest.out)
  }

  /** The commands an item's style requests become. */
  function Issue(st: ItemState, qs: seq<StyleRequest>): (os: seq<Order>)
    ensures |os| == |qs|
  {
    if qs == [] then [] else [Restyle(st.id, st.parentId, st.inner, qs[0])] + Issue(st, qs[1..])
  }

  /** At most one request becomes at most one command. */
  lemma IssueShort(st: ItemState, qs: seq<StyleRequest>)
    requires |qs| <= 1
    ensures Issue(st, qs) == if qs == [] then [] else [Restyle(st.id, st.parentId, st.inner, qs[0])]
  {
    if qs != [] {
      assert Issue(st, qs[1..]) == [];
    }
  }

  // ---------------------------------------------------------------------
  // What the observers promise
  // ---------------------------------------------------------------------

  /** The observers of an item's own promise hand on exactly the value it
      fulfilled with or the reason it rejected with. */
  lemma OwnObserverTransparent(st: ItemState, s: Settlement, stepId: nat)
    ensures React(st, OwnSettled(s), stepId).out == Some(s)
    ensures React(st, OwnSettled(s), stepId).state == st
  {
  }

  /** A `new Promise` settles in a render step of its own: the step moves
      on before its style command and again after it. The fulfilled block
      targets "resolve"; a rejected one targets "reject" exactly when the
      executor declared two parameters. */
  lemma CtorSettlesInOwnStep(st: ItemState, s: Settlement, stepId: nat)
    requires st.kind.CtorKind? && st.inner == Some(CtorInnerBlocks(st.args))
    ensures var r := React(st, OwnSettled(s), stepId);
      |r.requests| == 1 && r.requests[0].stepId == stepId + 1 && r.stepId == stepId + 2 &&
      r.requests[0].styleName == (if s.Fulfilled? then "success" else "error") &&
      r.requests[0].payload.value == Some(s.Value()) &&
      (s.Fulfilled? ==> r.requests[0].payload.boxIndex == Some(0)) &&
      (s.Rejected? ==> (r.requests[0].payload.boxIndex == Some(1) <==> Truthy(Arg(st.args, 0)) && Arity(Arg(st.args, 0)) >= 2))
  {
    var n := |CtorInnerBlocks(st.args)|;
    assert CtorErrorBox(n) == 1 <==> n == 2;
  }

  /** A `trackPromise` result reports its outcome at the current step, with
      the value and no box, and the step moves on by one. */
  lemma ResultSettlesInStep(st: ItemState, s: Settlement, stepId: nat)
    requires st.kind.ResultKind?
    ensures var r := OwnReaction(st, s, stepId);
      |r.requests| == 1 && r.requests[0].stepId == stepId && r.stepId == stepId + 1 &&
      r.requests[0].styleName == (if s.Fulfilled? then "success" else "error") &&
      r.requests[0].payload == StylePayload(Some(s.Value()), None, None) &&
      r.state == st && r.out == Some(s)
  {
  }

  /** `Promise.resolve`/`reject` report their outcome in a step of their
      own, on every inner block (box -1), with the value. */
  lemma StaticSettlesInOwnStep(st: ItemState, s: Settlement, stepId: nat)
    requires st.kind.ResolveKind? || st.kind.RejectKind?
    ensures var r := OwnReaction(st, s, stepId);
      |r.requests| == 1 && r.requests[0].stepId == stepId + 1 && r.stepId == stepId + 2 &&
      r.requests[0].styleName == (if s.Fulfilled? then "success" else "error") &&
      r.requests[0].payload == StylePayload(Some(s.Value()), Some(-1), None) &&
      r.state == st && r.out == Some(s)
  {
  }

  /** `Promise.all`'s own observer reports only a fulfilment, as "success"
      on every inner block at the current step; a rejection adds nothing and
      leaves the step where it is. A rejected `Promise.race` reports "error"
      without a box. */
  lemma ListOwnOutcome(st: ItemState, s: Settlement, stepId: nat)
    requires st.kind.AllKind? || st.kind.RaceKind?
    ensures var r := OwnReaction(st, s, stepId);
      r.state == st && r.out == Some(s) &&
      (st.kind.AllKind? && s.Fulfilled? ==>
        |r.requests| == 1 && r.requests[0].styleName == "success" &&
        r.requests[0].payload == StylePayload(Some(s.value), Some(-1), None) &&
        r.requests[0].stepId == stepId && r.stepId == stepId + 1) &&
      (st.kind.AllKind? && s.Rejected? ==> r.requests == [] && r.stepId == stepId) &&
      (st.kind.RaceKind? && s.Rejected? ==>
        |r.requests| == 1 && r.requests[0].styleName == "error" &&
        r.requests[0].payload == StylePayload(Some(s.reason), None, None) &&
        r.requests[0].stepId == stepId && r.stepId == stepId + 1)
  {
  }

  /** The "in" flag of a chained item ends up false exactly when its parent
      rejected. */
  lemma ChainInFlag(st: ItemState, p: Settlement, stepId: nat)
    requires IsChain(st.kind)
    ensures React(st, ParentSettled(p), stepId).state.isSuccessIn == (st.isSuccessIn && p.Fulfilled?)
    ensures React(st, ParentSettled(p), stepId).stepId == stepId
  {
  }

  /** Which parent outcomes mark a chained block: `.then` marks box 0 for a
      fulfilled parent when it has a fulfilment callback and box 1 for a
      rejected one when it has a rejection callback; `.catch` marks box 1
      for a rejected parent when it has a callback; `.finally` marks its one
      block for either outcome exactly when the block exists. */
  lemma ChainParentMarks(st: ItemState, p: Settlement, stepId: nat)
    requires IsChain(st.kind)
    requires st.kind.FinallyKind? ==> st.inner == Some(FinallyInnerBlocks(st.args))
    ensures var r := React(st, ParentSettled(p), stepId);
      var callback := if st.kind.ThenKind? && p.Rejected? then Arg(st.args, 1) else Arg(st.args, 0);
      var marks := Truthy(callback) && !(st.kind.CatchKind? && p.Fulfilled?);
      (|r.requests| == 1 <==> marks) && (|r.requests| == 0 <==> !marks) &&
      (marks ==> r.requests[0].styleName == (if p.Fulfilled? then "success-in" else "error-in") &&
                 r.requests[0].payload.boxIndex == Some(if p.Fulfilled? || st.kind.FinallyKind? then 0 else 1))
    ensures st.kind.FinallyKind? ==> (|React(st, ParentSettled(p), stepId).requests| == 1 <==> |st.inner.value| == 1)
  {
  }

  /** A chained block settles with the style that records both the
      parent's outcome and its own: the "in" half is the parent's, the "out"
      half its own, and the box is the one the parent's outcome reached. */
  lemma ChainOutcome(st: ItemState, p: Settlement, s: Settlement, stepId: nat)
    requires IsChain(st.kind) && st.isSuccessIn
    ensures var r1 := React(st, ParentSettled(p), stepId);
      var r2 := React(r1.state, OwnSettled(s), r1.stepId);
      |r2.requests| == 1 &&
      r2.requests[0].styleName == OutcomeStyleName(p.Fulfilled?, s.Fulfilled?) &&
      (HasSuccessIn(r2.requests[0].styleName) <==> p.Fulfilled?) &&
      (HasErrorIn(r2.requests[0].styleName) <==> p.Rejected?) &&
      (HasSuccessOut(r2.requests[0].styleName) <==> s.Fulfilled?) &&
      (HasErrorOut(r2.requests[0].styleName) <==> s.Rejected?) &&
      r2.requests[0].payload.boxIndex == Some(if p.Fulfilled? || st.kind.FinallyKind? then 0 else 1) &&
      r2.requests[0].payload.value == Some(s.Value()) &&
      r2.stepId == stepId + 1 && r2.out == Some(s)
  {
    ChainInFlag(st, p, stepId);
    OutcomeStyleNameDecodes(p.Fulfilled?, s.Fulfilled?);
  }

  /** A `Promise.all` whose inputs fulfil without any rejection reports
      every fulfilment except the last one, which its own "all succeeded"
      command covers; each report hides the output arrow. */
  lemma {:induction false} AllFulfilmentsReport(st: ItemState, es: seq<Event>, stepId: nat)
    requires st.kind.AllKind? && !st.hasError && st.resultCount + |es| <= st.total
    requires forall k :: 0 <= k < |es| ==> es[k].InputSettled? && es[k].s.Fulfilled?
    decreases |es|
    ensures var r := Replay(st, es, stepId);
      |r.requests| == (if |es| > 0 && st.resultCount + |es| == st.total then |es| - 1 else |es|) &&
      r.state.resultCount == st.resultCount + |es| && !r.state.hasError && r.stepId == stepId &&
      forall q :: q in r.requests ==> q.styleName == "success" && q.payload.dontShowOutput == Some(true)
  {
    if es != [] {
      var r1 := React(st, es[0], stepId);
      assert r1.state == st.(resultCount := st.resultCount + 1);
      AllFulfilmentsReport(r1.state, es[1..], r1.stepId);
    }
  }

  /** In a `Promise.all`, only the first rejection shows its output arrow:
      it carries the reason, and every later report of an input hides it. */
  lemma AllFirstRejectionShown(st: ItemState, i: nat, v: JsValue, es: seq<Event>, stepId: nat)
    requires st.kind.AllKind?
    requires forall k :: 0 <= k < |es| ==> es[k].InputSettled?
    ensures var r1 := React(st, InputSettled(i, Rejected(v)), stepId);
      |r1.requests| == 1 && r1.requests[0].styleName == "error" &&
      r1.requests[0].payload == StylePayload(Some(v), Some(i), Some(st.hasError)) &&
      forall q :: q in Replay(r1.state, es, r1.stepId).requests ==> q.payload.dontShowOutput == Some(true)
  {
    var r1 := React(st, InputSettled(i, Rejected(v)), stepId);
    ListAfterFlagHidden(r1.state, es, r1.stepId);
  }

  /** Once a `Promise.all` has seen a rejection, or a `Promise.race` a
      result, every later input report hides the output arrow, and a race
      keeps the box of its first success. */
  lemma {:induction false} ListAfterFlagHidden(st: ItemState, es: seq<Event>, stepId: nat)
    requires (st.kind.AllKind? && st.hasError) || (st.kind.RaceKind? && st.hasResult)
    requires forall k :: 0 <= k < |es| ==> es[k].InputSettled?
    decreases |es|
    ensures var r := Replay(st, es, stepId);
      (forall q :: q in r.requests ==> q.payload.dontShowOutput == Some(true)) &&
      r.state.successBoxIndex == st.successBoxIndex && r.stepId == stepId &&
      (st.kind.AllKind? ==> r.state.hasError) && (st.kind.RaceKind? ==> r.state.hasResult)
  {
    if es != [] {
      var r1 := React(st, es[0], stepId);
      assert r1.state.successBoxIndex == st.successBoxIndex;
      ListAfterFlagHidden(r1.state, es[1..], r1.stepId);
    }
  }

  /** The first input of a `Promise.race` to fulfil adds no command and
      becomes the winner: whatever other inputs settle afterwards, the
      race's own fulfilment targets the winner's box. */
  lemma RaceWinnerShown(st: ItemState, i: nat, v: JsValue, es: seq<Event>, w: JsValue, stepId: nat)
    requires st.kind.RaceKind? && !st.hasResult
    requires forall k :: 0 <= k < |es| ==> es[k].InputSettled?
    ensures var r1 := React(st, InputSettled(i, Fulfilled(v)), stepId);
      var r2 := Replay(r1.state, es, r1.stepId);
      var r3 := React(r2.state, OwnSettled(Fulfilled(w)), r2.stepId);
      r1.requests == [] && |r3.requests| == 1 &&
      r3.requests[0].payload == StylePayload(Some(w), Some(i), None) &&
      r3.requests[0].styleName == "success"
  {
    var r1 := React(st, InputSettled(i, Fulfilled(v)), stepId);
    assert r1 == Reaction([], st.(successBoxIndex := i, hasResult := true), stepId, None);
    ListAfterFlagHidden(r1.state, es, r1.stepId);
    var r2 := Replay(r1.state, es, r1.stepId);
    assert r2.state.kind.RaceKind? && r2.state.successBoxIndex == i;
    var r3 := React(r2.state, OwnSettled(Fulfilled(w)), r2.stepId);
    assert r3.requests[0].payload == StylePayload(Some(w), Some(i), None);
  }

  // ---------------------------------------------------------------------
  // The tracker
  // ---------------------------------------------------------------------

  /** Every command carries a step no later than `bound`, and the steps
      never decrease along the sequence. */
  predicate StepsOrdered(cs: seq<Command>, bound: int)
  {
    (forall k :: 0 <= k < |cs| ==> StepId(cs[k]).Some? && StepId(cs[k]).value <= bound) &&
    (forall j, k :: 0 <= j < k < |cs| ==> StepId(cs[j]).GetOr(0) <= StepId(cs[k]).GetOr(0))
  }

  /** Every order is for a step no later than `bound`, and the steps never
      decrease along the sequence. */
  predicate OrdersOrdered(os: seq<Order>, bound: int)
  {
    (forall k :: 0 <= k < |os| ==> os[k].Step() <= bound) &&
    (forall j, k :: 0 <= j < k < |os| ==> os[j].Step() <= os[k].Step())
  }

  /** Commands tagged with the steps of ordered orders are ordered. */
  lemma TaggedOrdered(os: seq<Order>, cs: seq<Command>, bound: int)
    requires OrdersOrdered(os, bound) && |cs| == |os|
    requires forall k :: 0 <= k < |os| ==> StepId(cs[k]) == Some(os[k].Step())
    ensures StepsOrdered(cs, bound)
  {
    forall j, k | 0 <= j < k < |cs|
      ensures StepId(cs[j]).GetOr(0) <= StepId(cs[k]).GetOr(0)
    {
      assert os[j].Step() <= os[k].Step();
    }
  }

  /** Ordered orders build a log whose render groups never go back and
      whose every command has a DOM hook. */
  lemma BuildOrdered(os: seq<Order>, bound: int)
    requires OrdersOrdered(os, bound)
    ensures StepsOrdered(BuildAll(os), bound)
    ensures forall k :: 0 <= k < |os| ==> BuildAll(os)[k].updateDom.Some?
  {
    TaggedOrdered(os, BuildAll(os), bound);
  }

  class PromiseTracker {
    /** The module's render step counter `stepId`. */
    var stepId: nat
    /** Every command handed to `renderer.addCommand`, oldest first. */
    var added: seq<Order>
    /** `itemMap`: the item of each promise the tracker has handed out, by
        the item's id. */
    var itemIds: map<JsValue, string>
    /** The observers' shared state of each item, by id. */
    var states: map<string, ItemState>
    /** What was written to `console.error`. */
    var errors: seq<string>

    /** The commands fall into render groups that never go back
        (`BuildOrdered`). */
    ghost predicate Valid()
      reads this`added, this`stepId
    {
      OrdersOrdered(added, stepId)
    }

    constructor ()
      ensures Valid()
      ensures stepId == 0 && added == [] && itemIds == map[] && states == map[] && errors == []
    {
      stepId := 0;
      added := [];
      itemIds := map[];
      states := map[];
      errors := [];
    }

    /** `nextStepId()`: moves the counter on and returns its new value. */
    method NextStepId() returns (n: nat)
      requires Valid()
      modifies this
      ensures Valid()
      ensures stepId == old(stepId) + 1 && n == stepId
      ensures added == old(added) && itemIds == old(itemIds) && states == old(states) && errors == old(errors)
    {
      stepId := stepId + 1;
      n := stepId;
    }

    /** `renderer.addCommand` for a command of the current step. */
    method AddCommand(c: Order)
      requires Valid() && c.Step() == stepId
      modifies this
      ensures Valid()
      ensures added == old(added) + [c]
      ensures stepId == old(stepId) && itemIds == old(itemIds) && states == old(states) && errors == old(errors)
    {
      added := added + [c];
    }

    /** The `lazyPromiseArgument` handler: a callback returned a promise, so
        the render step moves on. */
    method LazyPromiseArgument()
      requires Valid()
      modifies this
      ensures Valid()
      ensures stepId == old(stepId) + 1
      ensures added == old(added) && itemIds == old(itemIds) && states == old(states) && errors == old(errors)
    {
      var _ := NextStepId();
    }

    /** Adds an item and the command that draws it. */
    method Register(st: ItemState, c: Order)
      requires Valid() && c.Step() == stepId
      modifies this
      ensures Valid()
      ensures added == old(added) + [c] && states == old(states)[st.id := st]
      ensures stepId == old(stepId) && itemIds == old(itemIds) && errors == old(errors)
    {
      AddCommand(c);
      states := states[st.id := st];
    }

    /** The `result` handler (`trackPromise(promise, functionName, args)`):
        a busy block titled `functionName(args[0])`. `chained` is the
        promise its observers return, which replaces the tracked one. */
    method OnResult(functionName: string, args: seq<JsValue>, id: string, chained: JsValue) returns (r: JsValue)
      requires Valid() && id !in states
      modifies this
      ensures Valid()
      ensures added == old(added) + [ResultCommand(functionName, args, id, old(stepId))]
      ensures states == old(states)[id := NewItem(ResultKind, id, None, None, Some(args), 0)]
      ensures itemIds == old(itemIds)[chained := id]
      ensures stepId == old(stepId) && errors == old(errors) && r == chained
    {
      Register(NewItem(ResultKind, id, None, None, Some(args), 0), ResultCommand(functionName, args, id, stepId));
      itemIds := itemIds[chained := id];
      r := chained;
    }

    /** The `ctor` handler (`new Promise(executor)`): a busy block titled
        with the executor's name, with "resolve"/"reject" inner blocks
        after its arity. Both the new promise and the one its observers
        return map to the item. */
    method OnCtor(promise: JsValue, args: seq<JsValue>, id: string, chained: JsValue) returns (r: JsValue)
      requires Valid() && id !in states
      modifies this
      ensures Valid()
      ensures added == old(added) + [CtorCommand(Some(args), id, old(stepId))]
      ensures states == old(states)[id := NewItem(CtorKind, id, None, Some(CtorInnerBlocks(Some(args))), Some(args), 0)]
      ensures itemIds == old(itemIds)[promise := id][chained := id]
      ensures stepId == old(stepId) && errors == old(errors) && r == chained
    {
      Register(NewItem(CtorKind, id, None, Some(CtorInnerBlocks(Some(args))), Some(args), 0),
               CtorCommand(Some(args), id, stepId));
      itemIds := itemIds[promise := id];
      itemIds := itemIds[chained := id];
      r := chained;
    }

    /** The `methods` handler (`parent.then(..)`, `.catch(..)`,
        `.finally(..)`): a block linked to the parent's item, when the
        parent is tracked; other method names add nothing. */
    method OnMethod(functionName: string, outPromise: JsValue, args: Option<seq<JsValue>>, inPromise: JsValue,
                    id: string, chained: JsValue) returns (r: JsValue)
      requires Valid() && id !in states
      modifies this
      ensures Valid()
      ensures var parentId := ParentOf(old(itemIds), inPromise);
        match ChainKind(functionName)
        case None =>
          r == outPromise && added == old(added) && states == old(states) && itemIds == old(itemIds)
        case Some(k) =>
          r == chained && added == old(added) + [ChainCommand(k, args, id, parentId, old(stepId))] &&
          states == old(states)[id := NewItem(k, id, parentId, Some(ChainInnerBlocks(k, args)), args, 0)] &&
          itemIds == old(itemIds)[chained := id]
      ensures stepId == old(stepId) && errors == old(errors)
    {
      var parentId := ParentOf(itemIds, inPromise);
      var kind := ChainKind(functionName);
      if kind.Some? {
        var k := kind.value;
        Register(NewItem(k, id, parentId, Some(ChainInnerBlocks(k, args)), args, 0),
                 ChainCommand(k, args, id, parentId, stepId));
        itemIds := itemIds[chained := id];
        r := chained;
      } else {
        r := outPromise;
      }
    }

    /** The `statics` handler (`Promise.resolve(..)`, `Promise.reject(..)`,
        `Promise.all(..)`, `Promise.race(..)`). `all`/`race` filter the
        promises out of their first argument when it is truthy
        (`ListArgument`); when it is a truthy non-array that call throws,
        and the `TypeError` leaves the handler before anything is added.
        Any other name is reported on the console and adds nothing. */
    method OnStatic(functionName: string, promise: JsValue, args: Option<seq<JsValue>>,
                    id: string, chained: JsValue) returns (r: Result<JsValue>)
      requires Valid() && id !in states
      modifies this
      ensures Valid()
      ensures match StaticKind(functionName)
        case None =>
          r == Ok(promise) && added == old(added) && states == old(states) && itemIds == old(itemIds) &&
          errors == old(errors) + ["Unknown static item to render: " + functionName]
        case Some(k) =>
          var listed := if IsList(k) then ListArgument(args) else Ok([]);
          (listed.Err? ==>
            r == Err(listed.message) && added == old(added) && states == old(states) &&
            itemIds == old(itemIds) && errors == old(errors)) &&
          (listed.Ok? ==>
            r == Ok(chained) && errors == old(errors) &&
            added == old(added) + [StaticCommand(k, args, listed.value, id, old(stepId))] &&
            states == old(states)[id := NewItem(k, id, None, Some(StaticInnerBlocks(k, args, listed.value)), args,
                                                StaticTotal(k, listed.value))] &&
            itemIds == old(itemIds)[chained := id])
      ensures stepId == old(stepId)
    {
      var kind := StaticKind(functionName);
      if kind.None? {
        errors := errors + ["Unknown static item to render: " + functionName];
        return Ok(promise);
      }
      var k := kind.value;
      var listed := if IsList(k) then ListArgument(args) else Ok([]);
      if listed.Err? {
        return Err(listed.message);
      }
      var promises := listed.value;
      Register(NewItem(k, id, None, Some(StaticInnerBlocks(k, args, promises)), args, StaticTotal(k, promises)),
               StaticCommand(k, args, promises, id, stepId));
      itemIds := itemIds[chained := id];
      r := Ok(chained);
    }

    /** The body every reporting observer shares: `nextStepId()` first when
        `stepBefore`, then the style command at the current step, then
        `nextStepId()`. */
    method Emit(st: ItemState, styleName: string, payload: StylePayload, description: string, stepBefore: bool)
      requires Valid()
      modifies this
      ensures Valid()
      ensures var at := if stepBefore then old(stepId) + 1 else old(stepId);
        added == old(added) + [Restyle(st.id, st.parentId, st.inner, StyleRequest(styleName, payload, at, description))] &&
        stepId == at + 1
      ensures itemIds == old(itemIds) && states == old(states) && errors == old(errors)
    {
      if stepBefore {
        var _ := NextStepId();
      }
      AddCommand(Restyle(st.id, st.parentId, st.inner, StyleRequest(styleName, payload, stepId, description)));
      var _ := NextStepId();
    }

    /** A style command at the current step, without moving the step on. */
    method Note(st: ItemState, styleName: string, payload: StylePayload, description: string)
      requires Valid()
      modifies this
      ensures Valid()
      ensures added == old(added) + [Restyle(st.id, st.parentId, st.inner, StyleRequest(styleName, payload, old(stepId), description))]
      ensures stepId == old(stepId) && itemIds == old(itemIds) && states == old(states) && errors == old(errors)
    {
      AddCommand(Restyle(st.id, st.parentId, st.inner, StyleRequest(styleName, payload, stepId, description)));
    }

    /** The observer of an item's own promise. */
    method SettleOwn(id: string, s: Settlement) returns (out: Option<Settlement>)
      requires Valid() && id in states
      modifies this
      ensures Valid()
      ensures var r := OwnReaction(old(states[id]), s, old(stepId));
        added == old(added) + Issue(old(states[id]), r.requests) && stepId == r.stepId && out == r.out
      ensures states == old(states) && itemIds == old(itemIds) && errors == old(errors)
    {
      var st := states[id];
      IssueShort(st, OwnReaction(st, s, stepId).requests);
      if IsList(st.kind) {
        SettleListOwn(st, s);
      } else if IsChain(st.kind) {
        SettleChainOwn(st, s);
      } else {
        SettleBlockOwn(st, s);
      }
      out := Some(s);
    }

    /** The observer of the own promise of a chained item: the style that
        records the parent's outcome and its own. */
    method SettleChainOwn(st: ItemState, s: Settlement)
      requires Valid() && IsChain(st.kind)
      modifies this
      ensures Valid()
      ensures var r := OwnReaction(st, s, old(stepId));
        |r.requests| == 1 && added == old(added) + [Restyle(st.id, st.parentId, st.inner, r.requests[0])] && stepId == r.stepId
      ensures states == old(states) && itemIds == old(itemIds) && errors == old(errors)
    {
      var ok := s.Fulfilled?;
      Emit(st, OutcomeStyleName(st.isSuccessIn, ok), StylePayload(Some(s.Value()), Some(ChainBox(st)), None),
           ChainPrefix(st.kind) + (if ok then "to success" else "to error"), false);
    }

    /** The observer of the own promise of a `trackPromise` item, a
        `new Promise` or a `Promise.resolve`/`reject` block: one style
        command, in a step of its own for all but the first. */
    method SettleBlockOwn(st: ItemState, s: Settlement)
      requires Valid() && !IsList(st.kind) && !IsChain(st.kind)
      modifies this
      ensures Valid()
      ensures var r := OwnReaction(st, s, old(stepId));
        |r.requests| == 1 && added == old(added) + [Restyle(st.id, st.parentId, st.inner, r.requests[0])] && stepId == r.stepId
      ensures states == old(states) && itemIds == old(itemIds) && errors == old(errors)
    {
      var ok := s.Fulfilled?;
      var v := Some(s.Value());
      match st.kind {
        case ResultKind =>
          Emit(st, Outcome(ok), StylePayload(v, None, None), "Function that returns a Promise: " + Verb(ok), false);
        case CtorKind =>
          var box := if ok then 0 else CtorErrorBox(|st.inner.GetOr([])|);
          Emit(st, Outcome(ok), StylePayload(v, Some(box), None), "new Promise(): " + Verb(ok), true);
        case ResolveKind =>
          Emit(st, Outcome(ok), StylePayload(v, Some(-1), None), "Promise.resolve(): " + Verb(ok), true);
        case RejectKind =>
          Emit(st, Outcome(ok), StylePayload(v, Some(-1), None), "Promise.reject(): " + Verb(ok), true);
      }
    }

    /** The observer of the own promise of a `Promise.all`/`race` item. */
    method SettleListOwn(st: ItemState, s: Settlement)
      requires Valid() && IsList(st.kind)
      modifies this
      ensures Valid()
      ensures var r := OwnReaction(st, s, old(stepId));
        added == old(added) + (if r.requests == [] then [] else [Restyle(st.id, st.parentId, st.inner, r.requests[0])]) &&
        stepId == r.stepId
      ensures states == old(states) && itemIds == old(itemIds) && errors == old(errors)
    {
      var v := Some(s.Value());
      ghost var r := OwnReaction(st, s, stepId);
      if st.kind.AllKind? {
        assert r == if s.Fulfilled? then Report(st, "success", StylePayload(v, Some(-1), None), "Promise.all(): all succeeded", false, stepId, s)
                    else Reaction([], st, stepId, Some(s));
        if s.Fulfilled? {
          Emit(st, "success", StylePayload(v, Some(-1), None), "Promise.all(): all succeeded", false);
        }
      } else if s.Fulfilled? {
        Emit(st, "success", StylePayload(v, Some(st.successBoxIndex), None),
             "Promise.race(): succeeded with promise " + IntToString(st.successBoxIndex + 1) + "/" + NatToString(st.total), false);
      } else {
        Emit(st, "error", StylePayload(v, None, None), "Promise.race(): failed", false);
      }
    }

    /** The observers of a chained item's parent. */
    method SettleParent(id: string, s: Settlement)
      requires Valid() && id in states && IsChain(states[id].kind)
      modifies this
      ensures Valid()
      ensures var r := ParentReaction(old(states[id]), s, old(stepId));
        added == old(added) + Issue(old(states[id]), r.requests) && states == old(states)[id := r.state] &&
        stepId == old(stepId)
      ensures itemIds == old(itemIds) && errors == old(errors)
    {
      var st := states[id];
      IssueShort(st, ParentReaction(st, s, stepId).requests);
      if s.Fulfilled? {
        if !st.kind.CatchKind? && Truthy(Arg(st.args, 0)) {
          Note(st, "success-in", StylePayload(None, Some(0), None), ChainPrefix(st.kind) + "from success");
        }
        assert states == old(states)[id := st];
      } else {
        var show := if st.kind.ThenKind? then Truthy(Arg(st.args, 1))
                    else if st.kind.CatchKind? then Truthy(Arg(st.args, 0))
                    else FinallyMarksError(st.args);
        if show {
          Note(st, "error-in", StylePayload(None, Some(if st.kind.FinallyKind? then 0 else 1), None), ChainPrefix(st.kind) + "from error");
        }
        states := states[id := st.(isSuccessIn := false)];
      }
    }

    /** The observers of promise `index` of a `Promise.all`/`race` list. */
    method SettleInput(id: string, index: nat, s: Settlement)
      requires Valid() && id in states && IsList(states[id].kind) && index < states[id].total
      modifies this
      ensures Valid()
      ensures var r := InputReaction(old(states[id]), index, s, old(stepId));
        added == old(added) + Issue(old(states[id]), r.requests) && states == old(states)[id := r.state] &&
        stepId == old(stepId)
      ensures itemIds == old(itemIds) && errors == old(errors)
    {
      var st := states[id];
      IssueShort(st, InputReaction(st, index, s, stepId).requests);
      if st.kind.AllKind? {
        if s.Fulfilled? {
          var count := st.resultCount + 1;
          if st.hasError || count != st.total {
            Note(st, "success", StylePayload(None, Some(index), Some(true)), InputText("Promise.all()", index, st.total, "succeeded"));
          }
          states := states[id := st.(resultCount := count)];
        } else {
          Note(st, "error", StylePayload(Some(s.reason), Some(index), Some(st.hasError)), InputText("Promise.all()", index, st.total, "failed"));
          states := states[id := st.(hasError := true)];
        }
      } else {
        if s.Fulfilled? {
          if st.hasResult {
            Note(st, "success", StylePayload(None, Some(index), Some(true)), InputText("Promise.race()", index, st.total, "succeeded"));
          } else {
            states := states[id := st.(successBoxIndex := index, hasResult := true)];
          }
        } else {
          Note(st, "error", StylePayload(None, Some(index), Some(st.hasResult)), InputText("Promise.race()", index, st.total, "failed"));
          states := states[id := st.(hasResult := true)];
        }
      }
    }

    /** One observer run, for an event the item has an observer for. */
    method Settle(id: string, e: Event) returns (out: Option<Settlement>)
      requires Valid() && id in states && Observed(states[id], e)
      modifies this
      ensures Valid()
      ensures var r := React(old(states[id]), e, old(stepId));
        added == old(added) + Issue(old(states[id]), r.requests) && states == old(states)[id := r.state] &&
        stepId == r.stepId && out == r.out
      ensures itemIds == old(itemIds) && errors == old(errors)
    {
      match e {
        case OwnSettled(s) =>
          out := SettleOwn(id, s);
          assert states == old(states)[id := old(states[id])];
        case ParentSettled(s) =>
          SettleParent(id, s);
          out := None;
        case InputSettled(i, s) =>
          SettleInput(id, i, s);
          out := None;
      }
    }
  }

  /** The id of the parent's item, when the parent promise is tracked. */
  function ParentOf(itemIds: map<JsValue, string>, inPromise: JsValue): Option<string>
  {
    if Truthy(inPromise) && inPromise in itemIds then Some(itemIds[inPromise]) else None
  }

  function ChainKind(functionName: string): Option<Kind>
  {
    if functionName == "then" then Some(ThenKind)
    else if functionName == "catch" then Some(CatchKind)
    else if functionName == "finally" then Some(FinallyKind)
    else None
  }

  function StaticKind(functionName: string): Option<Kind>
  {
    if functionName == "resolve" then Some(ResolveKind)
    else if functionName == "reject" then Some(RejectKind)
    else if functionName == "all" then Some(AllKind)
    else if functionName == "race" then Some(RaceKind)
    else None
  }

  /** The command of the `result` handler. */
  function ResultCommand(functionName: string, args: seq<JsValue>, id: string, stepId: nat): (o: Order)
    ensures o.Draw? && o.id == id && o.parentId.None? && o.inner.None? && o.options.style == Some("busy")
    ensures o.stepFirst && o.Step() == stepId
  {
    var title := functionName + "(" + TemplateText(Arg(Some(args), 0)) + ")";
    Draw(id, None, BlockOptions(Some(title), Some("busy")), None, true, stepId, "Function that returns a Promise: added")
  }

  /** The block title `${functionName}(${args[0]})` of an object argument,
      as `fetch(new URL(..))` or `fetch(new Request(..))` give it: the text
      of the object's own `toString` when its class has one (a `URL`'s
      href), and otherwise `[object <tag>]`, "Object" standing for a
      missing tag. */
  lemma ResultTitleOfObject(functionName: string, o: JsValue)
    requires o.Obj? && o.kind.Plain?
    ensures o.kind.ownText.Some? ==>
      ResultCommand(functionName, [o], "1", 0).options.title == Some(functionName + "(" + o.kind.ownText.value + ")")
    ensures o.kind.ownText.None? && o.kind.toStringTag != "" ==>
      ResultCommand(functionName, [o], "1", 0).options.title ==
      Some(functionName + "(" + ("[object " + o.kind.toStringTag + "]") + ")")
    ensures o.kind.ownText.None? && o.kind.toStringTag == "" ==>
      ResultCommand(functionName, [o], "1", 0).options.title == Some(functionName + "(" + "[object Object]" + ")")
  {
    assert Arg(Some([o]), 0) == o;
    assert "[object " + "Object" + "]" == "[object Object]";
  }

  /** An array argument is titled by its elements' texts, a `null` one
      leaving an empty place. */
  lemma ResultTitleOfArray(json: string, prettyJson: string)
    ensures var list := Obj(map[], "Array", ArrayObj([Str("a"), Null, Num(7)], json, prettyJson));
      ResultCommand("f", [list], "1", 0).options.title == Some("f(a,,7)")
  {
    var list := Obj(map[], "Array", ArrayObj([Str("a"), Null, Num(7)], json, prettyJson));
    assert Arg(Some([list]), 0) == list;
    assert IntToString(7) == "7";
    assert JoinedText(list, 2) == "," + "7" + "";
    assert JoinedText(list, 1) == "," + "" + ",7";
    assert JoinedText(list, 0) == "" + "a" + ",,7";
    assert TemplateText(list) == "a,,7";
    assert "f" + "(" + "a,,7" + ")" == "f(a,,7)";
  }

  /** The command of the `ctor` handler. */
  function CtorCommand(args: Option<seq<JsValue>>, id: string, stepId: nat): (o: Order)
    ensures o.Draw? && o.id == id && o.parentId.None? && o.options.style == Some("busy")
    ensures o.inner == Some(CtorInnerBlocks(args)) && |o.inner.value| <= 2
    ensures o.stepFirst && o.Step() == stepId
  {
    var title := "new Promise(" + FunctionName(Arg(args, 0)) + ")";
    Draw(id, None, BlockOptions(Some(title), Some("busy")), Some(CtorInnerBlocks(args)), true, stepId, "new Promise(): added")
  }

  function ChainInnerBlocks(k: Kind, args: Option<seq<JsValue>>): seq<InnerBlock>
  {
    if k.ThenKind? then ThenInnerBlocks(args)
    else if k.CatchKind? then CatchInnerBlocks(args)
    else FinallyInnerBlocks(args)
  }

  function ChainTitle(k: Kind): string
  {
    if k.ThenKind? then ".then()" else if k.CatchKind? then ".catch()" else ".finally()"
  }

  /** The command of the `methods` handler. */
  function ChainCommand(k: Kind, args: Option<seq<JsValue>>, id: string, parentId: Option<string>, stepId: nat): (o: Order)
    ensures o.Draw? && o.id == id && o.parentId == parentId && o.options.style == Some("normal")
    ensures o.inner.Some? && (k.ThenKind? || k.CatchKind? ==> |o.inner.value| == 2) && |o.inner.value| <= 2
    ensures !o.stepFirst && o.Step() == stepId
  {
    Draw(id, parentId, BlockOptions(Some(ChainTitle(k)), Some("normal")), Some(ChainInnerBlocks(k, args)),
                 false, stepId, ChainTitle(k) + ": added")
  }

  /** The message of the `TypeError` that `args[0].filter` throws when
      `args[0]` has no `filter`. */
  const FilterNotAFunction := "args[0].filter is not a function"

  /** `args && args[0] ? args[0].filter(isPromise) : []`: no promises for a
      missing or falsy first argument, the promises of an array, and the
      `TypeError` for anything else truthy, which has no `filter` here. */
  function ListArgument(args: Option<seq<JsValue>>): (r: Result<seq<JsValue>>)
    ensures r.Err? <==> Truthy(Arg(args, 0)) && !IsArray(Arg(args, 0))
    ensures r.Err? ==> r.message == FilterNotAFunction
    ensures !Truthy(Arg(args, 0)) ==> r == Ok([])
    ensures r.Ok? ==> forall p :: p in r.value <==> IsArray(Arg(args, 0)) && p in Arg(args, 0).kind.elems && IsPromise(p)
  {
    var first := Arg(args, 0);
    if !Truthy(first) then Ok([])
    else if IsArray(first) then Ok(Promises(first.kind.elems))
    else Err(FilterNotAFunction)
  }

  /** `Promise.all(new Set([p]))` and `Promise.race("ab")` throw out of the
      handler, since a set and a string have no `filter`. */
  lemma ListArgumentThrows(json: string, prettyJson: string)
    ensures ListArgument(Some([Obj(map[], "Set", Plain(json, prettyJson, "Set", None))])).Err?
    ensures ListArgument(Some([Str("ab")])).Err?
  {
    assert Arg(Some([Str("ab")]), 0) == Str("ab");
  }

  /** An array of a promise and a number lists just the promise. */
  lemma {:induction false} ListArgumentFilters(p: JsValue, json: string, prettyJson: string)
    requires IsPromise(p)
    ensures ListArgument(Some([Obj(map[], "Array", ArrayObj([p, Num(1)], json, prettyJson))])) == Ok([p])
  {
    var list := Obj(map[], "Array", ArrayObj([p, Num(1)], json, prettyJson));
    assert Arg(Some([list]), 0) == list;
    assert [p, Num(1)][1..] == [Num(1)];
    assert Promises([Num(1)]) == [];
    assert Promises([p, Num(1)]) == [p] + [] == [p];
  }

  /** The number of promises a `Promise.all`/`race` block lists; 0 for the
      other statics. */
  function StaticTotal(k: Kind, promises: seq<JsValue>): nat
  {
    if IsList(k) then |promises| else 0
  }

  function StaticInnerBlocks(k: Kind, args: Option<seq<JsValue>>, promises: seq<JsValue>): seq<InnerBlock>
  {
    if IsList(k) then ListInnerBlocks(StaticTotal(k, promises))
    else [InnerBlock(BoxTitle(Arg(args, 0)), "", "busy", false, false)]
  }

  function StaticTitle(k: Kind): string
  {
    if k.ResolveKind? then "Promise.resolve()"
    else if k.RejectKind? then "Promise.reject()"
    else if k.AllKind? then "Promise.all([])"
    else "Promise.race([])"
  }

  function StaticLabel(k: Kind): string
  {
    if k.ResolveKind? then "Promise.resolve()"
    else if k.RejectKind? then "Promise.reject()"
    else if k.AllKind? then "Promise.all()"
    else "Promise.race()"
  }

  /** The command of the `statics` handler: a block in the default style. */
  function StaticCommand(k: Kind, args: Option<seq<JsValue>>, promises: seq<JsValue>, id: string, stepId: nat): (o: Order)
    ensures o.Draw? && o.id == id && o.parentId.None? && o.options.style.None?
    ensures o.inner.Some? && |o.inner.value| == if IsList(k) then |promises| else 1
    ensures !o.stepFirst && o.Step() == stepId
  {
    Draw(id, None, BlockOptions(Some(StaticTitle(k)), None), Some(StaticInnerBlocks(k, args, promises)),
                 false, stepId, StaticLabel(k) + ": added")
  }

  /** `.finally(cb)` passes one argument, so as written the observer of a
      rejected parent never marks the block, even though the block exists
      and is reached from the error side. */
  lemma FinallyErrorInLost(cb: JsValue)
    requires Truthy(cb)
    ensures |FinallyInnerBlocks(Some([cb]))| == 1 && FinallyInnerBlocks(Some([cb]))[0].fromError
    ensures !FinallyMarksErrorAsWritten(Some([cb])) && FinallyMarksError(Some([cb]))
  {
  }

  /** A log made only of the tracker's commands never makes a render
      throw: every such command has a DOM hook. */
  lemma TrackedLogNeverThrows<E>(items: map<string, Renderer.Item>, lastRenderedIndex: int, os: seq<Order>,
                                 shouldRender: Option<(E, Command) -> (bool, E)>, env: E)
    requires Renderer.ItemsValid(items) && -1 <= lastRenderedIndex < |os| - 1
    ensures Renderer.RenderStep(items, lastRenderedIndex, BuildAll(os), shouldRender, env).error.None?
    ensures Renderer.RenderStep(items, lastRenderedIndex, BuildAll(os), shouldRender, env).rendered
  {
    var cmds := BuildAll(os);
    assert forall c :: c in cmds ==> c.updateDom.Some?;
    Renderer.RenderStepSucceeds(items, lastRenderedIndex, cmds, shouldRender, env);
  }
}
