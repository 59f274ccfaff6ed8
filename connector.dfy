/** `connector.ts`: the output connector drawn under every promise block,
    `mergeCommands`, `useConnector`, and the interpretation of the style
    command closures. */
module Connector {
  import opened Wrappers
  import opened Js
  import opened Commands
  import Utils
  import opened Titles
  import opened PromiseBlock
  import opened PromiseInnerBlocks

  const GetOutputPositionKey := "getOutputPosition"

  /** The connector's HTML and SVG parts. The input panel and arrows exist
      only when the item is linked to a parent. */
  function OutputDom(linked: bool): seq<Effect>
  {
    (if linked then [Effect(InputPanel, Build), Effect(SuccessIn, Build), Effect(ErrorIn, Build)] else []) +
    [Effect(OutputPanel, Build), Effect(ValueLabel, Build), Effect(SuccessOut, Build), Effect(ErrorOut, Build),
     Effect(ValueBox, Build), Effect(ValueText, Build)]
  }

  function OutputLayoutElements(linked: bool): seq<Element>
  {
    (if linked then [SuccessIn, ErrorIn] else []) + [SuccessOut, ErrorOut, ValueBox, ValueText]
  }

  /** The connector's initial `updateSvg`: every arrow disabled, the value
      box hidden, the value text light. */
  function OutputSvg(linked: bool): seq<Effect>
  {
    (if linked then [Effect(SuccessIn, SetColour("disabled")), Effect(ErrorIn, SetColour("disabled"))] else []) +
    [Effect(SuccessOut, SetColour("disabled")), Effect(ErrorOut, SetColour("disabled")),
     Effect(ValueBox, SetVisible(false)), Effect(ValueText, SetColour("light"))]
  }

  /** `createOutputCommand(itemInfo)`: "CreateOutput", with the item's id
      and parent id and no `canReplacePrevious`. */
  function CreateOutputCommand(id: string, parentId: Option<string>): (c: Command)
    ensures c.name == "CreateOutput" && c.id == id && c.parentId == parentId
    ensures c.canReplacePrevious.None? && c.updateDom.Some? && c.updateSvg.Some?
    ensures c.createStyleCommand == Some(OutputStyle(id, parentId))
    ensures Keys(c.extras) == [GetOutputPositionKey]
  {
    var linked := parentId.Some? && parentId.value != "";
    Command("CreateOutput", id, parentId, None,
      Some(OutputDom(linked)), ElementsLayout(OutputLayoutElements(linked)), Some(OutputSvg(linked)),
      Some(OutputStyle(id, parentId)),
      [(GetOutputPositionKey, FnExtra(GetOutputPositionKey))])
  }

  /** The value box, its arrows and its place for an outcome style. */
  function OutcomeSvg(styleName: string): seq<Effect>
  {
    if HasSuccessOut(styleName) then
      [Effect(ValueBox, SetFill("success")), Effect(ValueBox, SetVisible(true)),
       Effect(SuccessOut, SetColour("success")), Effect(ErrorOut, SetColour("disabled"))]
    else if HasErrorOut(styleName) then
      [Effect(ValueBox, SetFill("error")), Effect(ValueBox, SetVisible(true)),
       Effect(SuccessOut, SetColour("disabled")), Effect(ErrorOut, SetColour("error"))]
    else
      [Effect(ValueBox, SetVisible(false)), Effect(SuccessOut, SetColour("disabled")), Effect(ErrorOut, SetColour("disabled"))]
  }

  /** The connector's `createStyleCommand(style, payload)`:
      "UpdateOutputStyle", replaceable, always with a DOM hook. With a value
      in the payload, the value's title and tooltip are shown and the value
      box moves under the outcome's arrow. */
  function OutputStyleCommand(id: string, parentId: Option<string>, styleName: string, payload: StylePayload): (c: Command)
    ensures c.name == "UpdateOutputStyle" && c.id == id && c.parentId == parentId && c.CanReplace()
    ensures c.updateDom.Some? && c.updateSvg.Some? && c.createStyleCommand.None? && c.extras == []
    ensures payload.value.None? ==> c.updateDom == Some([])
    ensures payload.value.Some? ==> |c.updateDom.value| > 0 && c.updateDom.value[0] == Effect(ValueLabel, SetText(BoxTitle(payload.value.value)))
  {
    var linked := parentId.Some? && parentId.value != "";
    var dom :=
      if payload.value.None? then []
      else
        [Effect(ValueLabel, SetText(BoxTitle(payload.value.value)))] +
        (if HasSuccessOut(styleName) then [Effect(OutputPanel, SetLeft("25%"))]
         else if HasErrorOut(styleName) then [Effect(OutputPanel, SetLeft("75%"))]
         else []);
    var svg :=
      (if linked then
         [Effect(SuccessIn, SetColour(if HasSuccessIn(styleName) then "success" else "disabled")),
          Effect(ErrorIn, SetColour(if HasErrorIn(styleName) then "error" else "disabled"))]
       else []) +
      (if payload.value.None? then []
       else [Effect(ValueText, SyncText), Effect(ValueText, SetTooltip(Tooltip(payload.value.value)))] + OutcomeSvg(styleName));
    Command("UpdateOutputStyle", id, parentId, Some(true),
      Some(dom),
      MergeLayouts(ElementsLayout([ValueBox, ValueText]), ElementsLayout(OutputLayoutElements(linked))),
      Some(svg), None, [])
  }

  /** The first key of `ks1` that also occurs in `ks2`. */
  function FirstShared(ks1: seq<string>, ks2: seq<string>): (k: Option<string>)
    ensures k.None? <==> forall x :: x in ks1 ==> x !in ks2
    ensures k.Some? ==> k.value in ks1 && k.value in ks2
  {
    if ks1 == [] then None
    else if ks1[0] in ks2 then Some(ks1[0])
    else FirstShared(ks1[1..], ks2)
  }

  function MergeConflict(key: string): string
  {
    "Cannot merge '" + key + "' of commands"
  }

  const EmptyMergeMessage := "Cannot merge 2 empty commands."

  /** `mergeCommands(command1, command2)`. */
  function Merge(c1: Option<Command>, c2: Option<Command>): (r: Result<Command>)
    ensures c1.None? && c2.None? ==> r == Err(EmptyMergeMessage)
    ensures c1.None? && c2.Some? ==> r == Ok(c2.value)
    ensures c1.Some? && c2.None? ==> r == Ok(c1.value)
  {
    if c1.None? && c2.None? then Err(EmptyMergeMessage)
    else if c1.None? then Ok(c2.value)
    else if c2.None? then Ok(c1.value)
    else
      var a := c1.value;
      var b := c2.value;
      match FirstShared(Keys(a.extras), Keys(b.extras))
      case Some(key) => Err(MergeConflict(key))
      case None =>
        Ok(Command(
          a.name + " & " + b.name,
          if a.id != "" then a.id else b.id,
          if a.HasParent() then a.parentId else b.parentId,
          Some(a.CanReplace() && b.CanReplace()),
          if a.updateDom.Some? || b.updateDom.Some? then Some(a.updateDom.GetOr([]) + b.updateDom.GetOr([])) else None,
          MergeLayouts(a.updateLayout, b.updateLayout),
          if a.updateSvg.Some? || b.updateSvg.Some? then Some(a.updateSvg.GetOr([]) + b.updateSvg.GetOr([])) else None,
          if a.createStyleCommand.Some? || b.createStyleCommand.Some? then
            Some(MergedStyle(a.createStyleCommand, b.createStyleCommand))
          else None,
          a.extras + b.extras))
  }

  /** What a merge of two commands promises: it fails exactly on a shared
      extra key, reporting the first such key of the first command; otherwise
      the merged command combines the names, takes id and parent id from the
      first command when truthy, is replaceable only when both are, has a DOM
      or SVG hook exactly when one of them has, running the first command's
      effects before the second's, and carries the keys of both. */
  lemma MergeSpec(a: Command, b: Command)
    ensures Merge(Some(a), Some(b)).Err? <==> exists k :: k in Keys(a.extras) && k in Keys(b.extras)
    ensures Merge(Some(a), Some(b)).Err? ==>
      exists i :: 0 <= i < |a.extras| && a.extras[i].0 in Keys(b.extras) &&
        (forall j :: 0 <= j < i ==> a.extras[j].0 !in Keys(b.extras)) &&
        Merge(Some(a), Some(b)).message == MergeConflict(a.extras[i].0)
    ensures Merge(Some(a), Some(b)).Ok? ==>
      var m := Merge(Some(a), Some(b)).value;
      m.name == a.name + " & " + b.name &&
      m.id == (if a.id != "" then a.id else b.id) &&
      m.parentId == (if a.HasParent() then a.parentId else b.parentId) &&
      (m.CanReplace() <==> a.CanReplace() && b.CanReplace()) &&
      (m.updateDom.Some? <==> a.updateDom.Some? || b.updateDom.Some?) &&
      (m.updateDom.Some? ==> m.updateDom.value == a.updateDom.GetOr([]) + b.updateDom.GetOr([])) &&
      (m.updateSvg.Some? <==> a.updateSvg.Some? || b.updateSvg.Some?) &&
      (m.updateSvg.Some? ==> m.updateSvg.value == a.updateSvg.GetOr([]) + b.updateSvg.GetOr([])) &&
      m.updateLayout.measure == a.updateLayout.measure + b.updateLayout.measure &&
      Keys(m.extras) == Keys(a.extras) + Keys(b.extras) &&
      (forall k :: Lookup(m.extras, k) == if k in Keys(a.extras) then Lookup(a.extras, k) else Lookup(b.extras, k))
  {
    FirstSharedIsFirst(Keys(a.extras), Keys(b.extras));
    var shared := FirstShared(Keys(a.extras), Keys(b.extras));
    if shared.Some? {
      assert shared.value in Keys(a.extras) && shared.value in Keys(b.extras);
    }
    if Merge(Some(a), Some(b)).Ok? {
      var m := Merge(Some(a), Some(b)).value;
      KeysConcat(a.extras, b.extras);
      forall k
        ensures Lookup(m.extras, k) == if k in Keys(a.extras) then Lookup(a.extras, k) else Lookup(b.extras, k)
      {
        LookupConcat(a.extras, b.extras, k);
      }
    }
  }

  /** The key `FirstShared` reports is the first shared one. */
  lemma {:induction false} FirstSharedIsFirst(ks1: seq<string>, ks2: seq<string>)
    ensures FirstShared(ks1, ks2).Some? ==>
      exists i :: 0 <= i < |ks1| && ks1[i] == FirstShared(ks1, ks2).value &&
        forall j :: 0 <= j < i ==> ks1[j] !in ks2
  {
    if ks1 != [] && ks1[0] !in ks2 {
      FirstSharedIsFirst(ks1[1..], ks2);
      if FirstShared(ks1, ks2).Some? {
        var i :| 0 <= i < |ks1[1..]| && ks1[1..][i] == FirstShared(ks1, ks2).value &&
          forall j :: 0 <= j < i ==> ks1[1..][j] !in ks2;
        assert ks1[i + 1] == FirstShared(ks1, ks2).value;
      }
    }
  }

  lemma {:induction false} KeysConcat(e1: seq<(string, Extra)>, e2: seq<(string, Extra)>)
    ensures Keys(e1 + e2) == Keys(e1) + Keys(e2)
  {
  }

  lemma {:induction false} LookupConcat(e1: seq<(string, Extra)>, e2: seq<(string, Extra)>, k: string)
    ensures Lookup(e1 + e2, k) == if k in Keys(e1) then Lookup(e1, k) else Lookup(e2, k)
  {
    if e1 != [] {
      assert (e1 + e2)[1..] == e1[1..] + e2;
      assert Keys(e1) == [e1[0].0] + Keys(e1[1..]);
      LookupConcat(e1[1..], e2, k);
    } else {
      assert e1 + e2 == e2;
    }
  }

  /** `useConnector(itemInfo)(command)`: the command merged with a fresh
      output connector for the same item. */
  function UseConnector(c: Command, id: string, parentId: Option<string>): Result<Command>
  {
    Merge(Some(c), Some(CreateOutputCommand(id, parentId)))
  }

  /** A command with a connector is never replaceable, because the
      connector sets no `canReplacePrevious`. */
  lemma UseConnectorNotReplaceable(c: Command, id: string, parentId: Option<string>)
    ensures UseConnector(c, id, parentId).Ok? ==> !UseConnector(c, id, parentId).value.CanReplace()
  {
  }

  /** Adding a connector fails exactly when the command already has a
      `getOutputPosition` key; otherwise the result keeps the command's keys
      and appends the connector's, joins the names, and takes the item's id
      and parent where the command has none. */
  lemma UseConnectorConflicts(c: Command, id: string, parentId: Option<string>)
    ensures UseConnector(c, id, parentId).Err? <==> GetOutputPositionKey in Keys(c.extras)
    ensures UseConnector(c, id, parentId).Err? ==>
      UseConnector(c, id, parentId).message == MergeConflict(GetOutputPositionKey)
    ensures UseConnector(c, id, parentId).Ok? ==>
      Keys(UseConnector(c, id, parentId).value.extras) == Keys(c.extras) + [GetOutputPositionKey]
    ensures UseConnector(c, id, parentId).Ok? ==>
      var m := UseConnector(c, id, parentId).value;
      m.name == c.name + " & " + "CreateOutput" && m.id == (if c.id != "" then c.id else id) &&
      m.parentId == (if c.HasParent() then c.parentId else parentId)
  {
    var o := CreateOutputCommand(id, parentId);
    MergeSpec(c, o);
    var shared := FirstShared(Keys(c.extras), Keys(o.extras));
    if shared.Some? {
      assert shared.value in [GetOutputPositionKey];
    }
  }

  /** The interpretation of a `createStyleCommand` closure applied to
      `(styleName, payload)`. The inner-blocks wrapper fails like `assert`
      when the wrapped command had no style closure; a merged command merges
      the two derived style commands. */
  function CreateStyleCommand(maker: StyleMaker, styleName: string, payload: StylePayload): Result<Command>
    decreases maker
  {
    match maker
    case BlockStyle(id) => Ok(BlockStyleCommand(id, styleName))
    case OutputStyle(id, parentId) => Ok(OutputStyleCommand(id, parentId, styleName, payload))
    case InnerStyle(base, blocks) =>
      if base.None? then Err(Utils.NotNullMessage)
      else
        var derived := CreateStyleCommand(base.value, styleName, payload);
        if derived.Err? then derived else Ok(RestyleInner(derived.value, blocks, styleName, payload))
    case MergedStyle(first, second) =>
      var d1 := DeriveStyle(first, styleName, payload);
      var d2 := DeriveStyle(second, styleName, payload);
      if d1.Err? then Err(d1.message)
      else if d2.Err? then Err(d2.message)
      else Merge(d1.value, d2.value)
  }

  /** `command.createStyleCommand ? command.createStyleCommand(...args) : undefined`. */
  function DeriveStyle(maker: Option<StyleMaker>, styleName: string, payload: StylePayload): Result<Option<Command>>
    decreases maker
  {
    match maker
    case None => Ok(None)
    case Some(m) =>
      var d := CreateStyleCommand(m, styleName, payload);
      if d.Err? then Err(d.message) else Ok(Some(d.value))
  }

  /** The style command of a tracked promise's command: the block's (possibly
      wrapped by its inner blocks) merged with the connector's. Deriving it
      never fails, keeps the item's id and parent, and yields a replaceable
      command named after both parts. */
  lemma TrackedStyleCommand(id: string, parentId: Option<string>, inner: Option<seq<InnerBlock>>,
                            styleName: string, payload: StylePayload)
    ensures
      var block := if inner.Some? then InnerStyle(Some(BlockStyle(id)), inner.value) else BlockStyle(id);
      var r := CreateStyleCommand(MergedStyle(Some(block), Some(OutputStyle(id, parentId))), styleName, payload);
      r.Ok? && r.value.name == "SetPromiseBlockStyle & UpdateOutputStyle" &&
      r.value.id == id && r.value.parentId == parentId && r.value.CanReplace() &&
      r.value.updateDom.Some? && r.value.updateSvg.Some? && r.value.extras == []
  {
    BlockPartDerives(id, inner, styleName, payload);
    var block := if inner.Some? then InnerStyle(Some(BlockStyle(id)), inner.value) else BlockStyle(id);
    MergedWithOutput(block, id, parentId, styleName, payload);
  }

  /** Any block part without extra keys merges with the connector's part. */
  lemma MergedWithOutput(block: StyleMaker, id: string, parentId: Option<string>, styleName: string, payload: StylePayload)
    requires var d := DeriveStyle(Some(block), styleName, payload);
      d.Ok? && d.value.Some? && d.value.value.extras == [] && d.value.value.name == "SetPromiseBlockStyle" &&
      d.value.value.id == id && d.value.value.parentId.None? && d.value.value.CanReplace() && d.value.value.updateSvg.Some?
    ensures var r := CreateStyleCommand(MergedStyle(Some(block), Some(OutputStyle(id, parentId))), styleName, payload);
      r.Ok? && r.value.name == "SetPromiseBlockStyle & UpdateOutputStyle" &&
      r.value.id == id && r.value.parentId == parentId && r.value.CanReplace() &&
      r.value.updateDom.Some? && r.value.updateSvg.Some? && r.value.extras == []
  {
    var d1 := DeriveStyle(Some(block), styleName, payload);
    var d2 := DeriveStyle(Some(OutputStyle(id, parentId)), styleName, payload);
    OutputPartDerives(id, parentId, styleName, payload);
    MergedStyleDerives(block, OutputStyle(id, parentId), styleName, payload);
    MergeWithoutExtras(d1.value.value, d2.value.value);
    TrackedStyleName();
  }

  /** The merged command's name, spelled out. */
  lemma TrackedStyleName()
    ensures "SetPromiseBlockStyle" + " & " + "UpdateOutputStyle" == "SetPromiseBlockStyle & UpdateOutputStyle"
  {
  }

  /** The block's part of a tracked promise's style command. */
  lemma BlockPartDerives(id: string, inner: Option<seq<InnerBlock>>, styleName: string, payload: StylePayload)
    ensures var block := if inner.Some? then InnerStyle(Some(BlockStyle(id)), inner.value) else BlockStyle(id);
      var d := DeriveStyle(Some(block), styleName, payload);
      d.Ok? && d.value.Some? && d.value.value.extras == [] && d.value.value.name == "SetPromiseBlockStyle" &&
      d.value.value.id == id && d.value.value.parentId.None? && d.value.value.CanReplace() && d.value.value.updateSvg.Some?
  {
    var b := BlockStyleCommand(id, styleName);
    var b' := if inner.Some? then RestyleInner(b, inner.value, styleName, payload) else b;
    assert b'.extras == [] && b'.name == b.name && b'.id == id && b'.parentId.None? && b'.CanReplace();
    var block := if inner.Some? then InnerStyle(Some(BlockStyle(id)), inner.value) else BlockStyle(id);
    assert CreateStyleCommand(block, styleName, payload) == Ok(b');
  }

  lemma MergedStyleDerives(m1: StyleMaker, m2: StyleMaker, styleName: string, payload: StylePayload)
    requires DeriveStyle(Some(m1), styleName, payload).Ok? && DeriveStyle(Some(m2), styleName, payload).Ok?
    ensures CreateStyleCommand(MergedStyle(Some(m1), Some(m2)), styleName, payload) ==
      Merge(DeriveStyle(Some(m1), styleName, payload).value, DeriveStyle(Some(m2), styleName, payload).value)
  {
  }

  /** The connector's part of a tracked promise's style command. */
  lemma OutputPartDerives(id: string, parentId: Option<string>, styleName: string, payload: StylePayload)
    ensures DeriveStyle(Some(OutputStyle(id, parentId)), styleName, payload) ==
      Ok(Some(OutputStyleCommand(id, parentId, styleName, payload)))
  {
    assert CreateStyleCommand(OutputStyle(id, parentId), styleName, payload) == Ok(OutputStyleCommand(id, parentId, styleName, payload));
  }

  /** Merging two commands without extra keys never fails. */
  lemma MergeWithoutExtras(a: Command, b: Command)
    requires a.extras == [] && b.extras == []
    ensures Merge(Some(a), Some(b)).Ok?
    ensures var m := Merge(Some(a), Some(b)).value;
      m.name == a.name + " & " + b.name && m.id == (if a.id != "" then a.id else b.id) &&
      m.parentId == (if a.HasParent() then a.parentId else b.parentId) &&
      (m.CanReplace() <==> a.CanReplace() && b.CanReplace()) &&
      (m.updateDom.Some? <==> a.updateDom.Some? || b.updateDom.Some?) &&
      (m.updateSvg.Some? <==> a.updateSvg.Some? || b.updateSvg.Some?) && m.extras == []
  {
    assert Keys(a.extras) == [] && Keys(b.extras) == [];
  }
}
