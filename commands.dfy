/** The render command record (`IRenderCommand`) and the data its hooks are
    modelled by. A hook is the list of effects it has on the item's elements,
    in order; a closure that builds a style command is named by a
    `StyleMaker`, which the connector interprets. */
module Commands {
  import opened Wrappers
  import opened Js

  /** The elements of one rendered item that the hooks touch: those of the
      promise block, those of inner block `k`, and those of the output
      connector. */
  datatype Element =
    | Background | BlockTitle | BorderBox
    | InnerBox(k: nat) | InnerTitle(k: nat) | InArrow1(k: nat) | InArrow2(k: nat)
    | InnerSuccessOut(k: nat) | InnerErrorOut(k: nat)
    | InputPanel | SuccessIn | ErrorIn | OutputPanel | ValueLabel | SuccessOut | ErrorOut | ValueBox | ValueText

  /** What a hook does to an element: create it, set its text, tooltip,
      fill, colour, visibility or horizontal offset, raise it above its
      siblings, copy the text of the HTML element into the SVG text, measure
      it, or move it to its measured place. */
  datatype Action =
    | Build
    | SetText(text: string)
    | SetTooltip(tip: string)
    | SetFill(fill: string)
    | SetColour(colour: string)
    | SetVisible(visible: bool)
    | SetLeft(left: string)
    | MoveToTop
    | SyncText
    | Measure
    | Place

  datatype Effect = Effect(element: Element, action: Action)

  /** `updateLayout`: the measurements it takes when called, and the effects
      of the function it returns (`None` when it returns `undefined`). */
  datatype Layout = Layout(measure: seq<Effect>, apply: Option<seq<Effect>>)

  /** The layout of a list of SVG helpers: each measures its element, and the
      returned function moves each element into place. */
  function ElementsLayout(es: seq<Element>): (l: Layout)
    ensures |l.measure| == |es| && l.apply.Some? && |l.apply.value| == |es|
    ensures forall i :: 0 <= i < |es| ==> l.measure[i] == Effect(es[i], Measure) && l.apply.value[i] == Effect(es[i], Place)
  {
    Layout(seq(|es|, i requires 0 <= i < |es| => Effect(es[i], Measure)),
           Some(seq(|es|, i requires 0 <= i < |es| => Effect(es[i], Place))))
  }

  /** `svg.mergeUpdateLayout` over two layouts: both measure, and the
      returned function (always present) runs both applies. */
  function MergeLayouts(a: Layout, b: Layout): Layout
  {
    Layout(a.measure + b.measure, Some(a.apply.GetOr([]) + b.apply.GetOr([])))
  }

  /** A value stored under a key the merge does not treat specially. */
  datatype Extra = IntExtra(n: int) | TextExtra(text: string) | FnExtra(fnName: string)

  /** The `payload` argument of `createStyleCommand`: `value` is `Some`
      exactly when the key is present. */
  datatype StylePayload = StylePayload(value: Option<JsValue>, boxIndex: Option<int>, dontShowOutput: Option<bool>)

  /** `IInnerBlock`, with the defaults of its destructuring filled in. */
  datatype InnerBlock = InnerBlock(title: string, tooltip: string, style: string, fromSuccess: bool, fromError: bool)

  /** The `createStyleCommand` closures: of a promise block, of an output
      connector, of a block with inner blocks (wrapping the block's own), and
      of a merged command (merging the two operands' style commands). */
  datatype StyleMaker =
    | BlockStyle(blockId: string)
    | OutputStyle(outputId: string, outputParentId: Option<string>)
    | InnerStyle(base: Option<StyleMaker>, blocks: seq<InnerBlock>)
    | MergedStyle(first: Option<StyleMaker>, second: Option<StyleMaker>)

  /** `IRenderCommand`. `extras` holds every other key, in insertion order. */
  datatype Command = Command(
    name: string,
    id: string,
    parentId: Option<string>,
    canReplacePrevious: Option<bool>,
    updateDom: Option<seq<Effect>>,
    updateLayout: Layout,
    updateSvg: Option<seq<Effect>>,
    createStyleCommand: Option<StyleMaker>,
    extras: seq<(string, Extra)>)
  {
    /** `!!command.canReplacePrevious`. */
    predicate CanReplace()
    {
      canReplacePrevious == Some(true)
    }

    /** `command.parentId` when it is a non-empty string. */
    predicate HasParent()
    {
      parentId.Some? && parentId.value != ""
    }
  }

  /** The keys of an association list, in order. */
  function Keys(extras: seq<(string, Extra)>): (ks: seq<string>)
    ensures |ks| == |extras|
    ensures forall i :: 0 <= i < |extras| ==> ks[i] == extras[i].0
  {
    if extras == [] then [] else [extras[0].0] + Keys(extras[1..])
  }

  /** `command[key]` for a key outside the record's named fields. */
  function Lookup(extras: seq<(string, Extra)>, key: string): (v: Option<Extra>)
    ensures v.Some? <==> key in Keys(extras)
  {
    if extras == [] then None
    else if extras[0].0 == key then Some(extras[0].1)
    else Lookup(extras[1..], key)
  }

  /** `command[key] = v`: an existing key keeps its place, a new one is
      added at the end. */
  function SetExtra(extras: seq<(string, Extra)>, key: string, v: Extra): (r: seq<(string, Extra)>)
    ensures Keys(r) == if key in Keys(extras) then Keys(extras) else Keys(extras) + [key]
    ensures Lookup(r, key) == Some(v)
    ensures forall k :: k != key ==> Lookup(r, k) == Lookup(extras, k)
  {
    if extras == [] then [(key, v)]
    else if extras[0].0 == key then [(key, v)] + extras[1..]
    else [extras[0]] + SetExtra(extras[1..], key, v)
  }

  const StepIdKey := "stepId"
  const DescriptionKey := "description"

  /** `command.stepId`. */
  function StepId(c: Command): Option<int>
  {
    match Lookup(c.extras, StepIdKey)
    case Some(IntExtra(n)) => Some(n)
    case _ => None
  }

  /** `withStepId(stepId)`: sets `command.stepId`, nothing else. */
  function WithStepId(c: Command, stepId: int): (r: Command)
    ensures StepId(r) == Some(stepId)
    ensures r.(extras := c.extras) == c
    ensures forall k :: k != StepIdKey ==> Lookup(r.extras, k) == Lookup(c.extras, k)
  {
    c.(extras := SetExtra(c.extras, StepIdKey, IntExtra(stepId)))
  }

  /** `${command.stepId}`. */
  function StepIdText(c: Command): string
  {
    match StepId(c)
    case Some(n) => IntToString(n)
    case None => "undefined"
  }

  /** `withDescription(description)`: `#<id>: <description> (Render group:
      <stepId>)`. */
  function WithDescription(c: Command, description: string): (r: Command)
    ensures Lookup(r.extras, DescriptionKey) ==
      Some(TextExtra("#" + c.id + ": " + description + " (Render group: " + StepIdText(c) + ")"))
    ensures r.(extras := c.extras) == c
    ensures StepId(r) == StepId(c)
  {
    c.(extras := SetExtra(c.extras, DescriptionKey, TextExtra("#" + c.id + ": " + description + " (Render group: " + StepIdText(c) + ")")))
  }
}
