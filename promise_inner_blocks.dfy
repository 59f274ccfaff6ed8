/** `useInnerBlocks`: the inner boxes drawn inside a promise block (the
    callbacks of `.then`, the inputs of `Promise.all`, ...), the style names
    they understand and the colours those names select. */
module PromiseInnerBlocks {
  import opened Wrappers
  import opened Commands

  predicate StartsWith(s: string, prefix: string)
  {
    |prefix| <= |s| && s[..|prefix|] == prefix
  }

  predicate EndsWith(s: string, suffix: string)
  {
    |suffix| <= |s| && s[|s| - |suffix|..] == suffix
  }

  /** `getPromiseStyle(styleName)`. */
  predicate IsSuccessIn(styleName: string) { styleName == "success-in" }
  predicate HasSuccessIn(styleName: string) { StartsWith(styleName, "success-in") || styleName == "success" }
  predicate HasSuccessOut(styleName: string) { EndsWith(styleName, "success-out") || styleName == "success" }
  predicate IsErrorIn(styleName: string) { styleName == "error-in" }
  predicate HasErrorIn(styleName: string) { StartsWith(styleName, "error-in") || styleName == "error" }
  predicate HasErrorOut(styleName: string) { EndsWith(styleName, "error-out") || styleName == "error" }

  /** The style name a settled `.then`/`.catch`/`.finally` block gets:
      `<success|error>-in_<success|error>-out`. */
  function OutcomeStyleName(successIn: bool, successOut: bool): string
  {
    InHalfName(successIn) + ("_" + OutHalfName(successOut))
  }

  function InHalfName(success: bool): string { if success then "success-in" else "error-in" }
  function OutHalfName(success: bool): string { if success then "success-out" else "error-out" }

  /** The outcome names decode back to their two halves: the "in" half is
      read by `hasSuccessIn`/`hasErrorIn`, the "out" half by
      `hasSuccessOut`/`hasErrorOut`, and the exact "in" names never match. */
  lemma OutcomeStyleNameDecodes(successIn: bool, successOut: bool)
    ensures HasSuccessIn(OutcomeStyleName(successIn, successOut)) <==> successIn
    ensures HasErrorIn(OutcomeStyleName(successIn, successOut)) <==> !successIn
    ensures HasSuccessOut(OutcomeStyleName(successIn, successOut)) <==> successOut
    ensures HasErrorOut(OutcomeStyleName(successIn, successOut)) <==> !successOut
    ensures !IsSuccessIn(OutcomeStyleName(successIn, successOut)) && !IsErrorIn(OutcomeStyleName(successIn, successOut))
  {
    var name := OutcomeStyleName(successIn, successOut);
    var inHalf := InHalfName(successIn);
    var outHalf := OutHalfName(successOut);
    StartsWithAppend(inHalf, "_" + outHalf);
    ConcatAssoc(inHalf, "_", outHalf);
    EndsWithAppend(inHalf + "_", outHalf);
    HalvesDiffer();
    if StartsWith(name, "success-in") && StartsWith(name, "error-in") {
      PrefixesAgree(name, "success-in", "error-in");
    }
    if EndsWith(name, "success-out") && EndsWith(name, "error-out") {
      SuffixesAgree(name, "success-out", "error-out");
    }
  }

  /** The readers of `getPromiseStyle` never read one name as both
      outcomes, and an exact "in" name is also read by its `has` reader. */
  lemma StyleReadersConsistent(styleName: string)
    ensures IsSuccessIn(styleName) ==> HasSuccessIn(styleName) && !HasErrorIn(styleName)
    ensures IsErrorIn(styleName) ==> HasErrorIn(styleName) && !HasSuccessIn(styleName)
    ensures !(HasSuccessIn(styleName) && HasErrorIn(styleName))
    ensures !(HasSuccessOut(styleName) && HasErrorOut(styleName))
  {
    HalvesDiffer();
    if StartsWith(styleName, "success-in") && StartsWith(styleName, "error-in") {
      PrefixesAgree(styleName, "success-in", "error-in");
    }
    if StartsWith(styleName, "error-in") {
      assert styleName[0] == 'e';
    }
    if StartsWith(styleName, "success-in") {
      assert styleName[0] == 's';
    }
    if EndsWith(styleName, "success-out") && EndsWith(styleName, "error-out") {
      SuffixesAgree(styleName, "success-out", "error-out");
    }
  }

  lemma HalvesDiffer()
    ensures "success-in"[..8] != "error-in" && "success-out"[2..] != "error-out"
  {
    assert "success-in"[..8][0] == 's';
    assert "success-out"[2..][0] == 'c';
  }

  lemma ConcatAssoc(a: string, b: string, c: string)
    ensures a + (b + c) == (a + b) + c
  {
  }

  lemma StartsWithAppend(a: string, b: string)
    ensures StartsWith(a + b, a)
  {
    assert (a + b)[..|a|] == a;
  }

  lemma EndsWithAppend(a: string, b: string)
    ensures EndsWith(a + b, b)
  {
    assert (a + b)[|a + b| - |b|..] == b;
  }

  lemma PrefixesAgree(s: string, a: string, b: string)
    requires StartsWith(s, a) && StartsWith(s, b) && |b| <= |a|
    ensures a[..|b|] == b
  {
    assert a[..|b|] == s[..|a|][..|b|] == s[..|b|];
  }

  lemma SuffixesAgree(s: string, a: string, b: string)
    requires EndsWith(s, a) && EndsWith(s, b) && |b| <= |a|
    ensures a[|a| - |b|..] == b
  {
    assert a[|a| - |b|..] == s[|s| - |a|..][|a| - |b|..] == s[|s| - |b|..];
  }

  /** The colour of an inner box and of its title, first match wins:
      "normal" while busy or only entered, then "error", "success",
      "disabled". */
  function BoxColour(styleName: string): (colour: string)
    ensures styleName in {"busy", "normal", "success-in", "error-in"} ==> colour == "normal"
    ensures styleName !in {"busy", "normal", "success-in", "error-in"} && HasErrorOut(styleName) ==> colour == "error"
    ensures styleName !in {"busy", "normal", "success-in", "error-in"} && !HasErrorOut(styleName) && HasSuccessOut(styleName) ==>
      colour == "success"
    ensures colour == "disabled" <==>
      styleName !in {"busy", "normal", "success-in", "error-in"} && !HasErrorOut(styleName) && !HasSuccessOut(styleName)
  {
    if styleName == "busy" || styleName == "normal" || IsSuccessIn(styleName) || IsErrorIn(styleName) then "normal"
    else if HasErrorOut(styleName) then "error"
    else if HasSuccessOut(styleName) then "success"
    else "disabled"
  }

  /** The fill of an inner box: busy while running or only entered. */
  function BoxFill(styleName: string): (fill: string)
    ensures fill == "busy" <==> styleName in {"busy", "success-in", "error-in"}
    ensures fill != "busy" ==> fill == "normal"
  {
    if styleName == "busy" || IsSuccessIn(styleName) || IsErrorIn(styleName) then "busy" else "normal"
  }

  /** The colour of an output arrow: coloured only when the output is shown
      and the style has that outcome. */
  function OutArrowColour(show: bool, hasOut: bool, colour: string): (c: string)
    ensures show && hasOut ==> c == colour
    ensures !(show && hasOut) ==> c == "disabled"
  {
    if show && hasOut then colour else "disabled"
  }

  /** With `dontShowOutput` the out-arrows of a block are greyed out and not
      raised, whatever the style. */
  lemma DontShowOutputDisables(k: nat, b: InnerBlock, styleName: string, moveToTop: bool)
    ensures forall e :: e in InnerBlockStyle(k, b, styleName, true, moveToTop) &&
                        (e.element == InnerSuccessOut(k) || e.element == InnerErrorOut(k)) ==>
                        e.action == SetColour("disabled")
  {
    PartElements(k, b, styleName, true, moveToTop);
    OutArrowsHidden(k, b, styleName, moveToTop);
  }

  /** The elements each part of a block's restyling touches. */
  lemma PartElements(k: nat, b: InnerBlock, styleName: string, dontShowOutput: bool, moveToTop: bool)
    ensures forall e :: e in BoxStyle(k, b, styleName) ==> e.element == InnerBox(k) || e.element == InnerTitle(k)
    ensures forall e :: e in InArrow1Style(k, b, styleName, moveToTop) ==> e.element == InArrow1(k)
    ensures forall e :: e in InArrow2Style(k, b, styleName, moveToTop) ==> e.element == InArrow2(k)
    ensures forall e :: e in OutArrowsStyle(k, b, styleName, dontShowOutput, moveToTop) ==>
      e.element == InnerSuccessOut(k) || e.element == InnerErrorOut(k)
  {
    InArrowElements(k, b, styleName, moveToTop);
    OutArrowElements(k, b, styleName, dontShowOutput, moveToTop);
  }

  lemma InArrowElements(k: nat, b: InnerBlock, styleName: string, moveToTop: bool)
    ensures forall e :: e in InArrow1Style(k, b, styleName, moveToTop) ==> e.element == InArrow1(k)
    ensures forall e :: e in InArrow2Style(k, b, styleName, moveToTop) ==> e.element == InArrow2(k)
  {
  }

  lemma OutArrowElements(k: nat, b: InnerBlock, styleName: string, dontShowOutput: bool, moveToTop: bool)
    ensures forall e :: e in OutArrowsStyle(k, b, styleName, dontShowOutput, moveToTop) ==>
      e.element == InnerSuccessOut(k) || e.element == InnerErrorOut(k)
  {
  }

  lemma OutArrowsHidden(k: nat, b: InnerBlock, styleName: string, moveToTop: bool)
    ensures forall e :: e in OutArrowsStyle(k, b, styleName, true, moveToTop) ==> e.action == SetColour("disabled")
  {
  }

  /** The colours of the named styles the trackers use. */
  lemma TrackerStyleColours(successIn: bool)
    ensures BoxColour("busy") == "normal" && BoxColour("disabled") == "disabled"
    ensures BoxColour("success") == "success" && BoxColour("error") == "error"
    ensures BoxColour("success-in") == "normal" && BoxColour("error-in") == "normal"
    ensures BoxColour(OutcomeStyleName(successIn, true)) == "success"
    ensures BoxColour(OutcomeStyleName(successIn, false)) == "error"
    ensures BoxFill(OutcomeStyleName(successIn, true)) == "normal"
  {
    PlainStyleColours();
    OutcomeStyleColours(successIn, true);
    OutcomeStyleColours(successIn, false);
  }

  lemma PlainStyleColours()
    ensures BoxColour("busy") == "normal" && BoxColour("disabled") == "disabled"
    ensures BoxColour("success") == "success" && BoxColour("error") == "error"
    ensures BoxColour("success-in") == "normal" && BoxColour("error-in") == "normal"
  {
    assert !EndsWith("success", "error-out");
  }

  lemma OutcomeStyleColours(successIn: bool, successOut: bool)
    ensures BoxColour(OutcomeStyleName(successIn, successOut)) == if successOut then "success" else "error"
    ensures BoxFill(OutcomeStyleName(successIn, successOut)) == "normal"
  {
    OutcomeStyleNameDecodes(successIn, successOut);
    assert |OutcomeStyleName(successIn, successOut)| >= 18;
  }

  /** The first arrow into an inner box exists for an untitled block (a line
      passing through) and for a block entered from success or error; the
      second exists for a titled block entered from both. */
  predicate HasInArrow1(b: InnerBlock) { b.title == "" || b.fromSuccess || b.fromError }
  predicate HasInArrow2(b: InnerBlock) { b.title != "" && b.fromSuccess && b.fromError }

  /** `addInnerBlock` for block `k`: its HTML title, its in-arrows, and when
      titled its out-arrows, box, SVG title and tooltip. */
  function InnerBlockDom(k: nat, b: InnerBlock): seq<Effect>
  {
    (if b.title != "" then [Effect(InnerTitle(k), SetText(b.title))] else []) +
    (if HasInArrow1(b) then [Effect(InArrow1(k), Build)] else []) +
    (if HasInArrow2(b) then [Effect(InArrow2(k), Build)] else []) +
    (if b.title != "" then
       [Effect(InnerSuccessOut(k), Build), Effect(InnerErrorOut(k), Build), Effect(InnerBox(k), Build)] +
       (if b.tooltip != "" then [Effect(InnerTitle(k), SetTooltip(b.tooltip))] else []) +
       [Effect(InnerTitle(k), Build)]
     else [])
  }

  /** `updateInnerBlockStyle(innerBlock k, styleName, dontShowOutput,
      insertSvgItemInside)`; `moveToTop` says whether `insertSvgItemInside`
      was given. */
  function InnerBlockStyle(k: nat, b: InnerBlock, styleName: string, dontShowOutput: bool, moveToTop: bool): seq<Effect>
  {
    BoxStyle(k, b, styleName) + InArrow1Style(k, b, styleName, moveToTop) + InArrow2Style(k, b, styleName, moveToTop) +
    OutArrowsStyle(k, b, styleName, dontShowOutput, moveToTop)
  }

  /** The box and its title take the style's fill and colour. */
  function BoxStyle(k: nat, b: InnerBlock, styleName: string): seq<Effect>
  {
    var colour := BoxColour(styleName);
    if b.title != "" then
      [Effect(InnerBox(k), SetFill(BoxFill(styleName))), Effect(InnerBox(k), SetColour(colour)), Effect(InnerTitle(k), SetColour(colour))]
    else []
  }

  function InArrow1Style(k: nat, b: InnerBlock, styleName: string, moveToTop: bool): seq<Effect>
  {
    if HasInArrow1(b) then
      [Effect(InArrow1(k), SetColour(if HasSuccessIn(styleName) then "success"
                                     else if HasErrorIn(styleName) && !HasInArrow2(b) then "error"
                                     else "disabled"))] +
      (if HasSuccessIn(styleName) && moveToTop then [Effect(InArrow1(k), MoveToTop)] else [])
    else []
  }

  function InArrow2Style(k: nat, b: InnerBlock, styleName: string, moveToTop: bool): seq<Effect>
  {
    if HasInArrow2(b) then
      [Effect(InArrow2(k), SetColour(if HasErrorIn(styleName) then "error" else "disabled"))] +
      (if HasErrorIn(styleName) && moveToTop then [Effect(InArrow2(k), MoveToTop)] else [])
    else []
  }

  function OutArrowsStyle(k: nat, b: InnerBlock, styleName: string, dontShowOutput: bool, moveToTop: bool): seq<Effect>
  {
    if b.title != "" then
      [Effect(InnerSuccessOut(k), SetColour(OutArrowColour(!dontShowOutput, HasSuccessOut(styleName), "success")))] +
      (if !dontShowOutput && HasSuccessOut(styleName) && moveToTop then [Effect(InnerSuccessOut(k), MoveToTop)] else []) +
      [Effect(InnerErrorOut(k), SetColour(OutArrowColour(!dontShowOutput, HasErrorOut(styleName), "error")))] +
      (if !dontShowOutput && HasErrorOut(styleName) && moveToTop then [Effect(InnerErrorOut(k), MoveToTop)] else [])
    else []
  }

  /** The inner block an element belongs to. */
  function BlockOf(e: Element): Option<nat>
  {
    match e
    case InnerBox(k) => Some(k)
    case InnerTitle(k) => Some(k)
    case InArrow1(k) => Some(k)
    case InArrow2(k) => Some(k)
    case InnerSuccessOut(k) => Some(k)
    case InnerErrorOut(k) => Some(k)
    case _ => None
  }

  /** Every effect of restyling block `k` is on an element of block `k`. */
  lemma InnerBlockStyleStaysInBlock(k: nat, b: InnerBlock, styleName: string, dontShowOutput: bool, moveToTop: bool)
    ensures forall e :: e in InnerBlockStyle(k, b, styleName, dontShowOutput, moveToTop) ==> BlockOf(e.element) == Some(k)
  {
    PartElements(k, b, styleName, dontShowOutput, moveToTop);
  }

  /** `innerBlocks.map(addInnerBlock)` from block `from` on. */
  function InnerBlocksDom(blocks: seq<InnerBlock>, from: nat): seq<Effect>
    decreases |blocks| - from
  {
    if from >= |blocks| then [] else InnerBlockDom(from, blocks[from]) + InnerBlocksDom(blocks, from + 1)
  }

  /** The initial styling in the block's `updateSvg`: every block in its own
      style, outputs shown, nothing raised. */
  function InitialStyles(blocks: seq<InnerBlock>, from: nat): seq<Effect>
    decreases |blocks| - from
  {
    if from >= |blocks| then [] else InnerBlockStyle(from, blocks[from], blocks[from].style, false, false) + InitialStyles(blocks, from + 1)
  }

  /** Building the inner blocks from block `from` on touches only their
      elements. */
  lemma {:induction false} InnerBlocksDomOnBlocks(blocks: seq<InnerBlock>, from: nat)
    ensures forall e :: e in InnerBlocksDom(blocks, from) ==>
      BlockOf(e.element).Some? && from <= BlockOf(e.element).value < |blocks|
    decreases |blocks| - from
  {
    if from < |blocks| {
      InnerBlocksDomOnBlocks(blocks, from + 1);
      InnerBlockDomStaysInBlock(from, blocks[from]);
    }
  }

  /** Every element `addInnerBlock` builds for block `k` belongs to it. */
  lemma InnerBlockDomStaysInBlock(k: nat, b: InnerBlock)
    ensures forall e :: e in InnerBlockDom(k, b) ==> BlockOf(e.element) == Some(k)
  {
  }

  /** The initial styling from block `from` on touches only their elements. */
  lemma {:induction false} InitialStylesOnBlocks(blocks: seq<InnerBlock>, from: nat)
    ensures forall e :: e in InitialStyles(blocks, from) ==>
      BlockOf(e.element).Some? && from <= BlockOf(e.element).value < |blocks|
    decreases |blocks| - from
  {
    if from < |blocks| {
      InitialStylesOnBlocks(blocks, from + 1);
      InnerBlockStyleStaysInBlock(from, blocks[from], blocks[from].style, false, false);
    }
  }

  /** `boxIndex === -1 || currentBoxIndex === boxIndex`. */
  predicate Targeted(k: nat, boxIndex: Option<int>)
  {
    boxIndex == Some(-1) || boxIndex == Some(k)
  }

  /** The restyling a derived style command adds, from block `from` on. */
  function TargetedStyles(blocks: seq<InnerBlock>, from: nat, styleName: string, boxIndex: Option<int>,
                          dontShowOutput: bool, moveToTop: bool): seq<Effect>
    decreases |blocks| - from
  {
    if from >= |blocks| then []
    else
      (if Targeted(from, boxIndex) then InnerBlockStyle(from, blocks[from], styleName, dontShowOutput, moveToTop) else []) +
      TargetedStyles(blocks, from + 1, styleName, boxIndex, dontShowOutput, moveToTop)
  }

  /** A derived style command restyles only the block at `boxIndex`, or
      every block when `boxIndex` is -1, and nothing when it is missing. */
  lemma {:induction false} TargetedStylesOnlyTargets(blocks: seq<InnerBlock>, from: nat, styleName: string,
                                                     boxIndex: Option<int>, dontShowOutput: bool, moveToTop: bool)
    ensures forall e :: e in TargetedStyles(blocks, from, styleName, boxIndex, dontShowOutput, moveToTop) ==>
      BlockOf(e.element).Some? && from <= BlockOf(e.element).value < |blocks| &&
      Targeted(BlockOf(e.element).value, boxIndex)
    ensures boxIndex.None? ==> TargetedStyles(blocks, from, styleName, boxIndex, dontShowOutput, moveToTop) == []
    decreases |blocks| - from
  {
    if from < |blocks| {
      TargetedStylesOnlyTargets(blocks, from + 1, styleName, boxIndex, dontShowOutput, moveToTop);
      InnerBlockStyleStaysInBlock(from, blocks[from], styleName, dontShowOutput, moveToTop);
    }
  }

  /** The SVG helpers of the inner blocks, in the order their layouts are
      merged: first arrows in, second arrows in, success outs, error outs,
      boxes, titles. Blocks without a title have no out-arrows, box or title
      on screen. */
  function InnerLayoutElements(blocks: seq<InnerBlock>): seq<Element>
  {
    Pick(blocks, 0, (b: InnerBlock) => HasInArrow1(b), (k: nat) => InArrow1(k)) +
    Pick(blocks, 0, (b: InnerBlock) => HasInArrow2(b), (k: nat) => InArrow2(k)) +
    Pick(blocks, 0, (b: InnerBlock) => b.title != "", (k: nat) => InnerSuccessOut(k)) +
    Pick(blocks, 0, (b: InnerBlock) => b.title != "", (k: nat) => InnerErrorOut(k)) +
    Pick(blocks, 0, (b: InnerBlock) => b.title != "", (k: nat) => InnerBox(k)) +
    Pick(blocks, 0, (b: InnerBlock) => b.title != "", (k: nat) => InnerTitle(k))
  }

  /** `mk(k)` for every block `k` from `from` on that satisfies `keep`. */
  function Pick(blocks: seq<InnerBlock>, from: nat, keep: InnerBlock -> bool, mk: nat -> Element): seq<Element>
    decreases |blocks| - from
  {
    if from >= |blocks| then []
    else (if keep(blocks[from]) then [mk(from)] else []) + Pick(blocks, from + 1, keep, mk)
  }

  /** `useInnerBlocks(innerBlocks)(command)`: the command's hooks are
      extended with the inner blocks, its style commands restyle them, and a
      block with several inner blocks stops being replaceable. */
  function WithInnerBlocks(c: Command, blocks: seq<InnerBlock>): (r: Command)
    ensures r.name == c.name && r.id == c.id && r.parentId == c.parentId && r.extras == c.extras
    ensures c.CanReplace() && |blocks| > 1 ==> r.canReplacePrevious == Some(false)
    ensures !(c.CanReplace() && |blocks| > 1) ==> r.canReplacePrevious == c.canReplacePrevious
    ensures r.updateDom.Some? && c.updateDom.GetOr([]) <= r.updateDom.value
    ensures forall e :: e in r.updateDom.value[|c.updateDom.GetOr([])|..] ==>
      BlockOf(e.element).Some? && BlockOf(e.element).value < |blocks|
    ensures r.updateSvg.Some? && c.updateSvg.GetOr([]) <= r.updateSvg.value
    ensures forall e :: e in r.updateSvg.value[|c.updateSvg.GetOr([])|..] ==>
      BlockOf(e.element).Some? && BlockOf(e.element).value < |blocks|
    ensures r.createStyleCommand == Some(InnerStyle(c.createStyleCommand, blocks))
  {
    InnerBlocksDomOnBlocks(blocks, 0);
    InitialStylesOnBlocks(blocks, 0);
    assert (c.updateDom.GetOr([]) + InnerBlocksDom(blocks, 0))[|c.updateDom.GetOr([])|..] == InnerBlocksDom(blocks, 0);
    assert (c.updateSvg.GetOr([]) + InitialStyles(blocks, 0))[|c.updateSvg.GetOr([])|..] == InitialStyles(blocks, 0);
    c.(updateDom := Some(c.updateDom.GetOr([]) + InnerBlocksDom(blocks, 0)),
       updateLayout := MergeLayouts(c.updateLayout, ElementsLayout(InnerLayoutElements(blocks))),
       updateSvg := Some(c.updateSvg.GetOr([]) + InitialStyles(blocks, 0)),
       canReplacePrevious := if c.CanReplace() && |blocks| > 1 then Some(false) else c.canReplacePrevious,
       createStyleCommand := Some(InnerStyle(c.createStyleCommand, blocks)))
  }

  /** The style command derived through `useInnerBlocks`: the base style
      command, whose SVG hook afterwards restyles the targeted inner blocks;
      with several blocks the restyled arrows are raised. */
  function RestyleInner(base: Command, blocks: seq<InnerBlock>, styleName: string, payload: StylePayload): (r: Command)
    ensures r.(updateSvg := base.updateSvg) == base
    ensures r.updateSvg.Some? && base.updateSvg.GetOr([]) <= r.updateSvg.value
    ensures forall e :: e in r.updateSvg.value[|base.updateSvg.GetOr([])|..] ==>
      BlockOf(e.element).Some? && BlockOf(e.element).value < |blocks| &&
      Targeted(BlockOf(e.element).value, payload.boxIndex)
    ensures payload.boxIndex.None? ==> r.updateSvg == Some(base.updateSvg.GetOr([]))
  {
    var restyle := TargetedStyles(blocks, 0, styleName, payload.boxIndex, payload.dontShowOutput.GetOr(false), |blocks| > 1);
    TargetedStylesOnlyTargets(blocks, 0, styleName, payload.boxIndex, payload.dontShowOutput.GetOr(false), |blocks| > 1);
    assert (base.updateSvg.GetOr([]) + restyle)[|base.updateSvg.GetOr([])|..] == restyle;
    assert payload.boxIndex.None? ==> base.updateSvg.GetOr([]) + restyle == base.updateSvg.GetOr([]);
    base.(updateSvg := Some(base.updateSvg.GetOr([]) +
      TargetedStyles(blocks, 0, styleName, payload.boxIndex, payload.dontShowOutput.GetOr(false), |blocks| > 1)))
  }
}
