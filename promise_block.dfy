/** `createPromiseBlock`: the command that draws a promise as a titled box,
    and the style command it derives. */
module PromiseBlock {
  import opened Wrappers
  import opened Commands

  /** `setItemStyle`: the background fill for a style name. */
  function FillFor(styleName: string): (fill: string)
    ensures fill == "busy" <==> styleName == "busy"
    ensures fill != "busy" ==> fill == "normal"
  {
    if styleName == "busy" then "busy" else "normal"
  }

  /** The options argument `{ title = "", style = "normal" }`: a missing
      option takes its default. */
  datatype BlockOptions = BlockOptions(title: Option<string>, style: Option<string>)

  const InsertSvgItemInsideKey := "insertSvgItemInside"

  /** `updateDom`: the HTML title, then the SVG background, title and border
      box, in that order. */
  function BlockDom(title: string): seq<Effect>
  {
    [Effect(BlockTitle, SetText(title)), Effect(Background, Build), Effect(BlockTitle, Build), Effect(BorderBox, Build)]
  }

  /** `updateSvg`: title and border in the normal colour, background filled
      for the block's initial style. */
  function BlockSvg(style: string): seq<Effect>
  {
    [Effect(BlockTitle, SetColour("normal")), Effect(BorderBox, SetColour("normal")), Effect(Background, SetFill(FillFor(style)))]
  }

  /** `createPromiseBlock(itemInfo, options)`. */
  function CreatePromiseBlock(id: string, options: BlockOptions): (c: Command)
    ensures c.name == "CreatePromiseBlock" && c.id == id && c.parentId.None? && c.CanReplace()
    ensures c.updateDom == Some(BlockDom(options.title.GetOr("")))
    ensures c.updateSvg == Some(BlockSvg(options.style.GetOr("normal")))
    ensures c.createStyleCommand == Some(BlockStyle(id))
    ensures Keys(c.extras) == [InsertSvgItemInsideKey]
  {
    var title := options.title.GetOr("");
    var style := options.style.GetOr("normal");
    Command("CreatePromiseBlock", id, None, Some(true),
      Some(BlockDom(title)),
      ElementsLayout([Background, BlockTitle, BorderBox]),
      Some(BlockSvg(style)),
      Some(BlockStyle(id)),
      [(InsertSvgItemInsideKey, FnExtra(InsertSvgItemInsideKey))])
  }

  /** The block's `createStyleCommand(styleName)`: "SetPromiseBlockStyle",
      replaceable, without a DOM hook (so it only takes part in the SVG pass)
      and with a layout that returns `undefined`; its SVG hook refills the
      background for the new style. */
  function BlockStyleCommand(id: string, styleName: string): (c: Command)
    ensures c.name == "SetPromiseBlockStyle" && c.id == id && c.parentId.None? && c.CanReplace()
    ensures c.updateDom.None? && c.updateLayout == Layout([], None)
    ensures c.updateSvg == Some([Effect(Background, SetFill(FillFor(styleName)))])
    ensures c.createStyleCommand.None? && c.extras == []
  {
    Command("SetPromiseBlockStyle", id, None, Some(true), None, Layout([], None),
      Some([Effect(Background, SetFill(FillFor(styleName)))]), None, [])
  }

  /** The defaults: no options give an empty title and the "normal" style,
      whose background is not busy. */
  lemma BlockDefaults(id: string)
    ensures CreatePromiseBlock(id, BlockOptions(None, None)).updateDom.value[0] == Effect(BlockTitle, SetText(""))
    ensures CreatePromiseBlock(id, BlockOptions(None, None)).updateSvg.value[2] == Effect(Background, SetFill("normal"))
  {
  }
}
