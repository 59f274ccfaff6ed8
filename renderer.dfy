/** `createRenderer`: turns the command log into a tree of items. A render
    looks at the commands added since the last render, picks for each hook
    the commands that must run (a replaceable command only runs when it is
    the last of its kind), creates and updates the items, lays them out and
    applies the SVG styling. The DOM is modelled by the trace of hook calls. */
module Renderer {
  import opened Wrappers
  import opened Commands
  import opened EventEmitter
  import opened Broadcaster
  import opened CommandLog

  /** What a render did, in order. */
  datatype Event =
    | Logged(text: string)
    | ConsoleError(text: string)
    /** `addDomItem` and `addSvgItem`: a new item, placed in the children
        stack of `attachedTo` (`None`: the root stack). */
    | ItemAdded(id: string, attachedTo: Option<string>)
    /** `command.updateDom(..., parentCommand, siblingCommands)`. */
    | DomUpdated(id: string, effects: seq<Effect>, parentCommand: Option<Command>, siblings: seq<Command>)
    | Measured(effects: seq<Effect>)
    | Applied(effects: seq<Effect>)
    | SvgUpdated(id: string, effects: seq<Effect>)
    /** `clear()` empties the SVG root and the root stack. */
    | ViewCleared
    /** `dispose()` removes the SVG and the root element. */
    | ViewRemoved

  /** `command.description || command.name`. */
  function LogText(c: Command): string
  {
    match Lookup(c.extras, DescriptionKey)
    case Some(TextExtra(d)) => if d != "" then d else c.name
    case _ => c.name
  }

  function Logs(ws: seq<Command>): (r: seq<Event>)
    ensures |r| == |ws|
    ensures forall i :: 0 <= i < |ws| ==> r[i] == Logged(LogText(ws[i]))
  {
    if ws == [] then [] else Logs(ws[..|ws| - 1]) + [Logged(LogText(ws[|ws| - 1]))]
  }

  // ---------------------------------------------------------------------
  // Choosing the commands of a pass (`getCommandsForDom`, `getCommandsForSvg`)
  // ---------------------------------------------------------------------

  /** The hook a pass runs: `updateDom` for the DOM pass, `updateSvg` for
      the SVG pass. */
  predicate Hooked(c: Command, dom: bool)
  {
    if dom then c.updateDom.Some? else c.updateSvg.Some?
  }

  /** The pass's state while scanning: the non-replaceable commands in
      order, and the object `canReplaceCommands[id][name]`, whose key order
      (first-seen id, then first-seen name) is kept in `ids` and `names`. */
  datatype Groups = Groups(plain: seq<Command>, ids: seq<string>, names: map<string, seq<string>>,
                           latest: map<(string, string), Command>)

  predicate Distinct<T(==)>(s: seq<T>)
  {
    forall i, j :: 0 <= i < j < |s| ==> s[i] != s[j]
  }

  /** The shape `Groups` always has: `ids` are exactly the keys of `names`,
      and every (id, name) pair listed has a latest command. */
  ghost predicate WellFormed(g: Groups)
  {
    (forall id :: id in g.names <==> id in g.ids) &&
    (forall id, n :: id in g.names && n in g.names[id] ==> (id, n) in g.latest) &&
    (forall k :: k in g.latest ==> k.0 in g.names && k.1 in g.names[k.0])
  }

  /** One command of the scan: skipped without the hook, appended when not
      replaceable, otherwise stored as the latest of its (id, name). */
  function AddToGroups(g: Groups, c: Command, dom: bool): Groups
  {
    if !Hooked(c, dom) then g
    else if !c.CanReplace() then g.(plain := g.plain + [c])
    else if c.id in g.names then
      g.(names := if c.name in g.names[c.id] then g.names else g.names[c.id := g.names[c.id] + [c.name]],
         latest := g.latest[(c.id, c.name) := c])
    else
      g.(ids := g.ids + [c.id], names := g.names[c.id := [c.name]], latest := g.latest[(c.id, c.name) := c])
  }

  function Group(ws: seq<Command>, dom: bool): (g: Groups)
    ensures WellFormed(g)
  {
    if ws == [] then Groups([], [], map[], map[])
    else
      var g0 := Group(ws[..|ws| - 1], dom);
      AddKeepsWellFormed(g0, ws[|ws| - 1], dom);
      AddToGroups(g0, ws[|ws| - 1], dom)
  }

  lemma AddKeepsWellFormed(g: Groups, c: Command, dom: bool)
    requires WellFormed(g)
    ensures WellFormed(AddToGroups(g, c, dom))
  {
    if Hooked(c, dom) && c.CanReplace() {
      var g' := AddToGroups(g, c, dom);
      if c.id in g.names {
        assert g'.ids == g.ids && g'.names.Keys == g.names.Keys;
        assert forall id :: id in g'.names ==> id != c.id ==> g'.names[id] == g.names[id];
      } else {
        assert g'.ids == g.ids + [c.id] && g'.names == g.names[c.id := [c.name]];
      }
    }
  }

  /** The (id, name) keys of one id, in name order. */
  function PairKeys(id: string, ns: seq<string>): (ks: seq<(string, string)>)
    ensures |ks| == |ns|
    ensures forall i :: 0 <= i < |ns| ==> ks[i] == (id, ns[i])
  {
    if ns == [] then [] else PairKeys(id, ns[..|ns| - 1]) + [(id, ns[|ns| - 1])]
  }

  /** The (id, name) keys in the order `Object.keys` visits them. */
  function GroupKeys(g: Groups, ids: seq<string>): (ks: seq<(string, string)>)
    requires forall id :: id in ids ==> id in g.names
    ensures forall k :: k in ks ==> k.0 in ids && k.0 in g.names && k.1 in g.names[k.0]
  {
    if ids == [] then []
    else GroupKeys(g, ids[..|ids| - 1]) + PairKeys(ids[|ids| - 1], g.names[ids[|ids| - 1]])
  }

  function Entries(g: Groups, ks: seq<(string, string)>): (r: seq<Command>)
    requires forall k :: k in ks ==> k in g.latest
    ensures |r| == |ks|
    ensures forall i :: 0 <= i < |ks| ==> r[i] == g.latest[ks[i]]
  {
    seq(|ks|, i requires 0 <= i < |ks| => g.latest[ks[i]])
  }

  /** The commands a pass runs over the window `ws`, in running order. */
  function Pass(ws: seq<Command>, dom: bool): (r: seq<Command>)
    ensures forall d :: d in r ==> d in ws && Hooked(d, dom)
  {
    var g := Group(ws, dom);
    GroupPlain(ws, dom);
    RestAreLast(ws, dom);
    g.plain + Entries(g, GroupKeys(g, g.ids))
  }

  /** Reference: the non-replaceable commands with the hook, in log order. */
  function Plain(ws: seq<Command>, dom: bool): (r: seq<Command>)
    ensures forall c :: c in r <==> c in ws && Hooked(c, dom) && !c.CanReplace()
  {
    if ws == [] then []
    else Plain(ws[..|ws| - 1], dom) + (if Hooked(ws[|ws| - 1], dom) && !ws[|ws| - 1].CanReplace() then [ws[|ws| - 1]] else [])
  }

  predicate Replaces(c: Command, dom: bool, id: string, name: string)
  {
    Hooked(c, dom) && c.CanReplace() && c.id == id && c.name == name
  }

  /** Reference: the last replaceable command with the hook and the given
      id and name. */
  function LastWith(ws: seq<Command>, dom: bool, id: string, name: string): (r: Option<Command>)
    ensures r.None? <==> forall i :: 0 <= i < |ws| ==> !Replaces(ws[i], dom, id, name)
    ensures r.Some? ==> r.value in ws && Replaces(r.value, dom, id, name)
  {
    if ws == [] then None
    else if Replaces(ws[|ws| - 1], dom, id, name) then Some(ws[|ws| - 1])
    else
      var r := LastWith(ws[..|ws| - 1], dom, id, name);
      assert forall i :: 0 <= i < |ws| - 1 ==> ws[..|ws| - 1][i] == ws[i];
      r
  }

  /** The command `LastWith` finds is in the window, of the kind asked for,
      and no later command is of that kind. */
  lemma {:induction false} LastWithIsLast(ws: seq<Command>, dom: bool, id: string, name: string)
    requires LastWith(ws, dom, id, name).Some?
    ensures exists i ::
      0 <= i < |ws| && ws[i] == LastWith(ws, dom, id, name).value && Replaces(ws[i], dom, id, name) &&
      forall j :: i < j < |ws| ==> !Replaces(ws[j], dom, id, name)
  {
    var pre := ws[..|ws| - 1];
    if !Replaces(ws[|ws| - 1], dom, id, name) {
      LastWithIsLast(pre, dom, id, name);
      var i :| 0 <= i < |pre| && pre[i] == LastWith(pre, dom, id, name).value && Replaces(pre[i], dom, id, name) &&
        forall j :: i < j < |pre| ==> !Replaces(pre[j], dom, id, name);
      assert ws[i] == pre[i];
      forall j | i < j < |ws|
        ensures !Replaces(ws[j], dom, id, name)
      {
        if j < |pre| {
          assert ws[j] == pre[j];
        }
      }
    }
  }

  /** The scan collects the non-replaceable commands with the hook, in log
      order. */
  lemma {:induction false} GroupPlain(ws: seq<Command>, dom: bool)
    ensures Group(ws, dom).plain == Plain(ws, dom)
  {
    if ws != [] {
      GroupPlain(ws[..|ws| - 1], dom);
    }
  }

  /** The scan lists each id once, and each name of an id once. */
  lemma {:induction false} GroupDistinct(ws: seq<Command>, dom: bool)
    ensures Distinct(Group(ws, dom).ids)
    ensures forall id :: id in Group(ws, dom).names ==> Distinct(Group(ws, dom).names[id])
  {
    if ws != [] {
      var pre := ws[..|ws| - 1];
      var c := ws[|ws| - 1];
      GroupDistinct(pre, dom);
      var g0 := Group(pre, dom);
      var g := Group(ws, dom);
      assert g == AddToGroups(g0, c, dom);
      if Hooked(c, dom) && c.CanReplace() && c.id in g0.names && c.name !in g0.names[c.id] {
        var ns := g0.names[c.id];
        assert g.names[c.id] == ns + [c.name];
        forall i, j | 0 <= i < j < |ns + [c.name]|
          ensures (ns + [c.name])[i] != (ns + [c.name])[j]
        {
          if j == |ns| {
            assert (ns + [c.name])[i] == ns[i];
          }
        }
      }
      if Hooked(c, dom) && c.CanReplace() && c.id !in g0.names {
        assert c.id !in g0.ids;
        forall i, j | 0 <= i < j < |g0.ids + [c.id]|
          ensures (g0.ids + [c.id])[i] != (g0.ids + [c.id])[j]
        {
          if j == |g0.ids| {
            assert (g0.ids + [c.id])[i] == g0.ids[i];
          }
        }
      }
    }
  }

  /** The scan stores, for every (id, name) pair present, the last
      replaceable command of that kind, and nothing for the others. */
  lemma {:induction false} GroupLatest(ws: seq<Command>, dom: bool)
    ensures forall k :: k in Group(ws, dom).latest <==> LastWith(ws, dom, k.0, k.1).Some?
    ensures forall k :: k in Group(ws, dom).latest ==> Group(ws, dom).latest[k] == LastWith(ws, dom, k.0, k.1).value
  {
    if ws != [] {
      var pre := ws[..|ws| - 1];
      var c := ws[|ws| - 1];
      GroupLatest(pre, dom);
      var before := Group(pre, dom).latest;
      var after := Group(ws, dom).latest;
      assert after == if Hooked(c, dom) && c.CanReplace() then before[(c.id, c.name) := c] else before;
      forall k
        ensures k in after <==> LastWith(ws, dom, k.0, k.1).Some?
        ensures k in after ==> after[k] == LastWith(ws, dom, k.0, k.1).value
      {
        if Replaces(c, dom, k.0, k.1) {
          assert k == (c.id, c.name);
        } else {
          assert LastWith(ws, dom, k.0, k.1) == LastWith(pre, dom, k.0, k.1);
        }
      }
    }
  }


  /** What the scan gathers: the non-replaceable commands in order, each id
      and each name once, and for every (id, name) pair the last replaceable
      command of that kind. */
  lemma GroupSpec(ws: seq<Command>, dom: bool)
    ensures Group(ws, dom).plain == Plain(ws, dom)
    ensures Distinct(Group(ws, dom).ids)
    ensures forall id :: id in Group(ws, dom).names ==> Distinct(Group(ws, dom).names[id])
    ensures forall k :: k in Group(ws, dom).latest <==> LastWith(ws, dom, k.0, k.1).Some?
    ensures forall k :: k in Group(ws, dom).latest ==> Group(ws, dom).latest[k] == LastWith(ws, dom, k.0, k.1).value
  {
    GroupPlain(ws, dom);
    GroupDistinct(ws, dom);
    GroupLatest(ws, dom);
  }

  /** The keys visited by the flattening are pairwise different. */
  lemma {:induction false} GroupKeysDistinct(g: Groups, ids: seq<string>)
    requires forall id :: id in ids ==> id in g.names
    requires Distinct(ids)
    requires forall id :: id in g.names ==> Distinct(g.names[id])
    ensures Distinct(GroupKeys(g, ids))
  {
    if ids != [] {
      var pre := ids[..|ids| - 1];
      var id := ids[|ids| - 1];
      assert forall x :: x in pre ==> x in ids;
      GroupKeysDistinct(g, pre);
      assert id !in pre by {
        forall i | 0 <= i < |pre|
          ensures pre[i] != id
        {
          assert pre[i] == ids[i];
        }
      }
      var a := GroupKeys(g, pre);
      var b := PairKeys(id, g.names[id]);
      assert GroupKeys(g, ids) == a + b;
      forall i, j | 0 <= i < j < |a + b|
        ensures (a + b)[i] != (a + b)[j]
      {
        if j >= |a| && i < |a| {
          assert (a + b)[i] == a[i] && a[i] in a && a[i].0 in pre;
          assert (a + b)[j] == b[j - |a|] && b[j - |a|].0 == id;
        } else if i >= |a| {
          assert (a + b)[i] == b[i - |a|] && (a + b)[j] == b[j - |a|];
        } else {
          assert (a + b)[i] == a[i] && (a + b)[j] == a[j];
        }
      }
    }
  }

  /** Every pair key of a listed id is visited. */
  lemma {:induction false} GroupKeysComplete(g: Groups, ids: seq<string>, id: string, n: string)
    requires forall x :: x in ids ==> x in g.names
    requires id in ids && n in g.names[id]
    ensures (id, n) in GroupKeys(g, ids)
  {
    var pre := ids[..|ids| - 1];
    assert forall x :: x in pre ==> x in ids;
    if id == ids[|ids| - 1] {
      var ns := g.names[id];
      var i :| 0 <= i < |ns| && ns[i] == n;
      assert PairKeys(id, ns)[i] == (id, n);
    } else {
      assert id in pre by {
        var i :| 0 <= i < |ids| && ids[i] == id;
        assert pre[i] == id;
      }
      GroupKeysComplete(g, pre, id, n);
    }
  }

  /** The replaceable part of a pass. */
  function Rest(ws: seq<Command>, dom: bool): seq<Command>
  {
    var g := Group(ws, dom);
    Entries(g, GroupKeys(g, g.ids))
  }

  lemma PassSplits(ws: seq<Command>, dom: bool)
    ensures Pass(ws, dom) == Plain(ws, dom) + Rest(ws, dom)
  {
    GroupSpec(ws, dom);
  }

  /** Each command of the replaceable part is the last of its kind. */
  lemma RestAreLast(ws: seq<Command>, dom: bool)
    ensures forall c :: c in Rest(ws, dom) ==> LastWith(ws, dom, c.id, c.name) == Some(c)
  {
    GroupSpec(ws, dom);
    var g := Group(ws, dom);
    var ks := GroupKeys(g, g.ids);
    var rest := Rest(ws, dom);
    forall c | c in rest
      ensures LastWith(ws, dom, c.id, c.name) == Some(c)
    {
      var i :| 0 <= i < |rest| && rest[i] == c;
      assert ks[i] in ks;
      var k := ks[i];
      assert g.latest[k] == LastWith(ws, dom, k.0, k.1).value;
    }
  }

  lemma RestHas(ws: seq<Command>, dom: bool, k: (string, string))
    requires k in Group(ws, dom).latest
    ensures Group(ws, dom).latest[k] in Rest(ws, dom)
  {
    var g := Group(ws, dom);
    var ks := GroupKeys(g, g.ids);
    GroupKeysComplete(g, g.ids, k.0, k.1);
    var j :| 0 <= j < |ks| && ks[j] == k;
    assert Rest(ws, dom)[j] == g.latest[k];
  }

  /** The last command of every kind present in the window is in the
      replaceable part. */
  lemma RestComplete(ws: seq<Command>, dom: bool)
    ensures forall i :: 0 <= i < |ws| && Replaces(ws[i], dom, ws[i].id, ws[i].name) ==>
      LastWith(ws, dom, ws[i].id, ws[i].name).value in Rest(ws, dom)
  {
    GroupSpec(ws, dom);
    forall i | 0 <= i < |ws| && Replaces(ws[i], dom, ws[i].id, ws[i].name)
      ensures LastWith(ws, dom, ws[i].id, ws[i].name).value in Rest(ws, dom)
    {
      RestHas(ws, dom, (ws[i].id, ws[i].name));
    }
  }

  /** No two commands of the replaceable part share both id and name. */
  lemma RestUnique(ws: seq<Command>, dom: bool)
    ensures var rest := Rest(ws, dom);
      forall i, j :: 0 <= i < j < |rest| ==> rest[i].id != rest[j].id || rest[i].name != rest[j].name
  {
    GroupSpec(ws, dom);
    var g := Group(ws, dom);
    var ks := GroupKeys(g, g.ids);
    var rest := Rest(ws, dom);
    GroupKeysDistinct(g, g.ids);
    forall i, j | 0 <= i < j < |rest|
      ensures rest[i].id != rest[j].id || rest[i].name != rest[j].name
    {
      assert ks[i] in ks && ks[j] in ks;
      assert rest[i] == LastWith(ws, dom, ks[i].0, ks[i].1).value;
      assert rest[j] == LastWith(ws, dom, ks[j].0, ks[j].1).value;
    }
  }

  /** What a pass runs: first every non-replaceable command with the hook,
      in log order; then, exactly once for each (id, name) pair, the last
      replaceable command of that kind. */
  lemma PassSpec(ws: seq<Command>, dom: bool)
    ensures Pass(ws, dom) == Plain(ws, dom) + Rest(ws, dom)
    ensures forall c :: c in Rest(ws, dom) ==> LastWith(ws, dom, c.id, c.name) == Some(c)
    ensures forall i :: 0 <= i < |ws| && Replaces(ws[i], dom, ws[i].id, ws[i].name) ==>
      LastWith(ws, dom, ws[i].id, ws[i].name).value in Rest(ws, dom)
    ensures var rest := Rest(ws, dom);
      forall i, j :: 0 <= i < j < |rest| ==> rest[i].id != rest[j].id || rest[i].name != rest[j].name
  {
    PassSplits(ws, dom);
    RestAreLast(ws, dom);
    RestComplete(ws, dom);
    RestUnique(ws, dom);
  }

  /** Every item with a command that has the hook gets a command of the
      pass. */
  lemma PassCoversIds(ws: seq<Command>, dom: bool)
    ensures forall c :: c in ws && Hooked(c, dom) ==> exists d :: d in Pass(ws, dom) && d.id == c.id
  {
    PassSplits(ws, dom);
    RestComplete(ws, dom);
    forall c | c in ws && Hooked(c, dom)
      ensures exists d :: d in Pass(ws, dom) && d.id == c.id
    {
      var i :| 0 <= i < |ws| && ws[i] == c;
      if c.CanReplace() {
        assert Replaces(ws[i], dom, ws[i].id, ws[i].name);
        var d := LastWith(ws, dom, c.id, c.name).value;
        assert d in Rest(ws, dom);
      } else {
        assert c in Plain(ws, dom);
      }
    }
  }


  // ---------------------------------------------------------------------
  // The DOM pass
  // ---------------------------------------------------------------------

  /** An entry of `itemMap`: the command that created the item and the ids
      of its children, in the order they were first drawn. */
  datatype Item = Item(command: Command, children: seq<string>)

  /** The invariant of `itemMap`: children are rendered items and are listed
      once. */
  ghost predicate ItemsValid(items: map<string, Item>)
  {
    forall id :: id in items ==>
      Distinct(items[id].children) && forall ch :: ch in items[id].children ==> ch in items
  }

  function UnrenderedParent(parentId: string): string
  {
    "Unrendered item used as parent: " + parentId
  }

  /** `parentItem.children.map(id => itemMap.get(id).command)`. */
  function Siblings(items: map<string, Item>, children: seq<string>): (r: seq<Command>)
    requires forall ch :: ch in children ==> ch in items
    ensures |r| == |children|
  {
    seq(|children|, i requires 0 <= i < |children| => items[children[i]].command)
  }

  /** One command of the DOM pass. A command whose item is not drawn yet
      creates it (under its parent when that is drawn, with an error and at
      the root otherwise). A command with a parent id adds its item to the
      parent's children once, and gets the parent's command and the
      children's commands; the missing parent is reported again. Then the
      command's `updateDom` runs. */
  function DomStep(items: map<string, Item>, c: Command): (r: (map<string, Item>, seq<Event>))
    requires ItemsValid(items)
    ensures c.id in r.0
    ensures |r.1| > 0 && r.1[|r.1| - 1].DomUpdated? && r.1[|r.1| - 1].id == c.id
    ensures r.1[|r.1| - 1].parentCommand.Some? <==> c.HasParent() && (c.parentId.value in items || c.parentId.value == c.id)
  {
    var created := c.id !in items;
    var pre :=
      if !created then []
      else if c.HasParent() && c.parentId.value !in items then
        [ConsoleError(UnrenderedParent(c.parentId.value)), ItemAdded(c.id, None)]
      else [ItemAdded(c.id, if c.HasParent() then c.parentId else None)];
    var items1 := if created then items[c.id := Item(c, [])] else items;
    var effects := c.updateDom.GetOr([]);
    if !c.HasParent() then (items1, pre + [DomUpdated(c.id, effects, None, [])])
    else if c.parentId.value !in items1 then
      (items1, pre + [ConsoleError(UnrenderedParent(c.parentId.value)), DomUpdated(c.id, effects, None, [])])
    else
      var p := items1[c.parentId.value];
      var children := if c.id in p.children then p.children else p.children + [c.id];
      var items2 := items1[c.parentId.value := p.(children := children)];
      (items2, pre + [DomUpdated(c.id, effects, Some(p.command), Siblings(items2, children))])
  }

  /** What one DOM step does to `itemMap`: the command's item exists, no
      other item appears, an existing item keeps its command and its
      children only grow, and the invariant holds. */
  lemma DomStepSpec(items: map<string, Item>, c: Command)
    requires ItemsValid(items)
    ensures ItemsValid(DomStep(items, c).0)
    ensures c.id in DomStep(items, c).0
    ensures c.id !in items ==> DomStep(items, c).0[c.id].command == c
    ensures forall id :: id in DomStep(items, c).0 <==> id in items || id == c.id
    ensures forall id :: id in items ==>
      DomStep(items, c).0[id].command == items[id].command &&
      items[id].children <= DomStep(items, c).0[id].children
  {
    var items1 := if c.id !in items then items[c.id := Item(c, [])] else items;
    assert ItemsValid(items1);
    if c.HasParent() && c.parentId.value in items1 {
      var p := items1[c.parentId.value];
      if c.id !in p.children {
        var ch := p.children + [c.id];
        forall i, j | 0 <= i < j < |ch|
          ensures ch[i] != ch[j]
        {
          if j == |p.children| {
            assert ch[i] == p.children[i];
          }
        }
      }
    }
  }

  function DomFold(items: map<string, Item>, ws: seq<Command>): (r: (map<string, Item>, seq<Event>))
    requires ItemsValid(items)
    ensures ItemsValid(r.0)
  {
    if ws == [] then (items, [])
    else
      var f := DomFold(items, ws[..|ws| - 1]);
      DomStepSpec(f.0, ws[|ws| - 1]);
      var s := DomStep(f.0, ws[|ws| - 1]);
      (s.0, f.1 + s.1)
  }

  /** After the DOM pass every command's item is drawn. */
  lemma {:induction false} DomFoldDrawsAll(items: map<string, Item>, ws: seq<Command>)
    requires ItemsValid(items)
    ensures forall c :: c in ws ==> c.id in DomFold(items, ws).0
  {
    if ws != [] {
      var pre := ws[..|ws| - 1];
      var c := ws[|ws| - 1];
      DomFoldDrawsAll(items, pre);
      var f := DomFold(items, pre);
      DomStepSpec(f.0, c);
      assert forall x :: x in ws ==> x in pre || x == c;
    }
  }

  /** The DOM pass draws no item other than those of its commands. */
  lemma {:induction false} DomFoldDrawsOnly(items: map<string, Item>, ws: seq<Command>)
    requires ItemsValid(items)
    ensures forall id :: id in DomFold(items, ws).0 ==> id in items || exists c :: c in ws && c.id == id
  {
    if ws != [] {
      var pre := ws[..|ws| - 1];
      var c := ws[|ws| - 1];
      DomFoldDrawsOnly(items, pre);
      var f := DomFold(items, pre);
      DomStepSpec(f.0, c);
      assert forall x :: x in pre ==> x in ws;
    }
  }

  /** An item drawn before the pass keeps the command that created it, and
      its children only grow. */
  lemma {:induction false} DomFoldKeeps(items: map<string, Item>, ws: seq<Command>)
    requires ItemsValid(items)
    ensures forall id :: id in items ==>
      id in DomFold(items, ws).0 && DomFold(items, ws).0[id].command == items[id].command &&
      items[id].children <= DomFold(items, ws).0[id].children
  {
    if ws != [] {
      var pre := ws[..|ws| - 1];
      DomFoldKeeps(items, pre);
      DomStepSpec(DomFold(items, pre).0, ws[|ws| - 1]);
    }
  }

  /** A new item belongs to the first command of the pass with its id, never
      to a later one. */
  lemma {:induction false} DomFoldFirstCreates(items: map<string, Item>, ws: seq<Command>)
    requires ItemsValid(items)
    ensures forall id :: id in DomFold(items, ws).0 && id !in items ==>
      exists i ::
        0 <= i < |ws| && ws[i].id == id && DomFold(items, ws).0[id].command == ws[i] &&
        forall j :: 0 <= j < i ==> ws[j].id != id
  {
    if ws != [] {
      var pre := ws[..|ws| - 1];
      var c := ws[|ws| - 1];
      DomFoldFirstCreates(items, pre);
      DomFoldDrawsAll(items, pre);
      var f := DomFold(items, pre);
      DomStepSpec(f.0, c);
      var r := DomFold(items, ws).0;
      assert r == DomStep(f.0, c).0;
      forall id | id in r && id !in items
        ensures exists i ::
          0 <= i < |ws| && ws[i].id == id && r[id].command == ws[i] && forall j :: 0 <= j < i ==> ws[j].id != id
      {
        if id in f.0 {
          var i :| 0 <= i < |pre| && pre[i].id == id && f.0[id].command == pre[i] &&
            forall j :: 0 <= j < i ==> pre[j].id != id;
          assert ws[i] == pre[i];
          assert forall j :: 0 <= j < i ==> ws[j] == pre[j];
        } else {
          assert id == c.id;
          forall j | 0 <= j < |pre|
            ensures ws[j].id != id
          {
            assert ws[j] == pre[j] && pre[j] in pre;
          }
          assert ws[|ws| - 1] == c;
        }
      }
    }
  }

  // ---------------------------------------------------------------------
  // Layout and the SVG pass
  // ---------------------------------------------------------------------

  /** `domCommands.map(command => command.updateLayout(offsetBox))`: every
      command measures, in order. */
  function Measures(ws: seq<Command>): (r: seq<Event>)
    ensures |r| == |ws|
    ensures forall i :: 0 <= i < |ws| ==> r[i] == Measured(ws[i].updateLayout.measure)
  {
    if ws == [] then [] else Measures(ws[..|ws| - 1]) + [Measured(ws[|ws| - 1].updateLayout.measure)]
  }

  /** Then the returned SVG updates run, skipping the `undefined` ones. */
  function Applies(ws: seq<Command>): (r: seq<Event>)
    ensures |r| <= |ws|
  {
    if ws == [] then []
    else
      var last := ws[|ws| - 1];
      Applies(ws[..|ws| - 1]) + (if last.updateLayout.apply.Some? then [Applied(last.updateLayout.apply.value)] else [])
  }

  function ItemNotFound(c: Command): string
  {
    "Error executing command '" + c.name + "': RenderItem not found: " + c.id
  }

  /** The SVG pass: each command's `updateSvg` runs on its item; the first
      command whose item is not drawn throws, and nothing after it runs. */
  function SvgFold(items: map<string, Item>, ws: seq<Command>): (r: (seq<Event>, Option<string>))
    ensures |r.0| <= |ws|
    ensures forall e :: e in r.0 ==> e.SvgUpdated? && e.id in items
  {
    if ws == [] then ([], None)
    else
      var f := SvgFold(items, ws[..|ws| - 1]);
      var c := ws[|ws| - 1];
      if f.1.Some? then f
      else if c.id !in items then (f.0, Some(ItemNotFound(c)))
      else (f.0 + [SvgUpdated(c.id, c.updateSvg.GetOr([]))], None)
  }

  /** The SVG pass throws exactly when some command's item is not drawn;
      otherwise every command runs once. */
  lemma {:induction false} SvgFoldOk(items: map<string, Item>, ws: seq<Command>)
    ensures SvgFold(items, ws).1.None? <==> forall c :: c in ws ==> c.id in items
    ensures SvgFold(items, ws).1.None? ==> |SvgFold(items, ws).0| == |ws|
  {
    if ws != [] {
      var pre := ws[..|ws| - 1];
      SvgFoldOk(items, pre);
      assert forall c :: c in ws ==> c in pre || c == ws[|ws| - 1];
      assert forall c :: c in pre ==> c in ws;
    }
  }

  /** When the SVG pass throws, it throws on the first command whose item
      is not drawn. */
  lemma {:induction false} SvgFoldFirstError(items: map<string, Item>, ws: seq<Command>)
    requires SvgFold(items, ws).1.Some?
    ensures exists i ::
      0 <= i < |ws| && ws[i].id !in items && SvgFold(items, ws).1.value == ItemNotFound(ws[i]) &&
      forall j :: 0 <= j < i ==> ws[j].id in items
  {
    var pre := ws[..|ws| - 1];
    var c := ws[|ws| - 1];
    if SvgFold(items, pre).1.Some? {
      SvgFoldFirstError(items, pre);
      var i :| 0 <= i < |pre| && pre[i].id !in items && SvgFold(items, pre).1.value == ItemNotFound(pre[i]) &&
        forall j :: 0 <= j < i ==> pre[j].id in items;
      assert ws[i] == pre[i];
      assert forall j :: 0 <= j < i ==> ws[j] == pre[j];
    } else {
      SvgFoldOk(items, pre);
      forall j | 0 <= j < |ws| - 1
        ensures ws[j].id in items
      {
        assert ws[j] == pre[j] && pre[j] in pre;
      }
    }
  }

  /** A window in which every command with an SVG hook also has a DOM hook
      never makes the SVG pass throw: the DOM pass has drawn every item the
      SVG pass needs. */
  lemma SvgPassSucceeds(items: map<string, Item>, ws: seq<Command>)
    requires ItemsValid(items)
    requires forall c :: c in ws && c.updateSvg.Some? ==> c.updateDom.Some?
    ensures SvgFold(DomFold(items, Pass(ws, true)).0, Pass(ws, false)).1.None?
  {
    var dom := Pass(ws, true);
    var drawn := DomFold(items, dom).0;
    var svg := Pass(ws, false);
    PassCoversIds(ws, true);
    DomFoldDrawsAll(items, dom);
    forall c | c in svg
      ensures c.id in drawn
    {
      assert c in ws && Hooked(c, true);
      var d :| d in dom && d.id == c.id;
    }
    SvgFoldOk(drawn, svg);
  }


  // ---------------------------------------------------------------------
  // Choosing how far to render
  // ---------------------------------------------------------------------

  /** The `shouldRender` loop over the pending commands: how many leading
      commands it accepts, and the predicate's state after the last call
      (the predicate is a closure; its captured state is threaded here). */
  function Scan<E>(ws: seq<Command>, shouldRender: (E, Command) -> (bool, E), env: E): (r: (nat, E))
    ensures r.0 <= |ws|
  {
    if ws == [] then (0, env)
    else
      var (ok, env1) := shouldRender(env, ws[0]);
      if !ok then (0, env1)
      else
        var (n, env2) := Scan(ws[1..], shouldRender, env1);
        (n + 1, env2)
  }

  /** The predicate's state before command `i` of the scan. */
  function EnvBefore<E>(ws: seq<Command>, shouldRender: (E, Command) -> (bool, E), env: E, i: nat): E
    requires i <= |ws|
  {
    if i == 0 then env else EnvBefore(ws[1..], shouldRender, shouldRender(env, ws[0]).1, i - 1)
  }

  /** The scan accepts exactly the longest prefix the predicate accepts, in
      order. */
  lemma {:induction false} ScanSpec<E>(ws: seq<Command>, shouldRender: (E, Command) -> (bool, E), env: E)
    ensures var n := Scan(ws, shouldRender, env).0;
      (forall i :: 0 <= i < n ==> shouldRender(EnvBefore(ws, shouldRender, env, i), ws[i]).0) &&
      (n < |ws| ==> !shouldRender(EnvBefore(ws, shouldRender, env, n), ws[n]).0)
  {
    if ws != [] && shouldRender(env, ws[0]).0 {
      var env1 := shouldRender(env, ws[0]).1;
      ScanSpec(ws[1..], shouldRender, env1);
      var n := Scan(ws, shouldRender, env).0;
      forall i | 0 <= i < n
        ensures shouldRender(EnvBefore(ws, shouldRender, env, i), ws[i]).0
      {
        if i > 0 {
          assert ws[1..][i - 1] == ws[i];
        }
      }
      if n < |ws| {
        assert ws[1..][n - 1] == ws[n];
      }
    }
  }

  /** `renderToIndex`: the last accepted index, or the last command when
      the predicate accepts nothing. */
  function RenderTo(lastIndex: int, from: int, accepted: nat): int
  {
    if accepted == 0 then lastIndex else from + accepted - 1
  }

  /** A predicate that rejects the first pending command does not stop the
      render: `renderToIndex` keeps its initial value, the last index, and
      every pending command is rendered. */
  lemma RejectingFirstRendersAll<E>(cmds: seq<Command>, from: nat, shouldRender: (E, Command) -> (bool, E), env: E)
    requires from < |cmds| && !shouldRender(env, cmds[from]).0
    ensures RenderTo(|cmds| - 1, from, Scan(cmds[from..], shouldRender, env).0) == |cmds| - 1
  {
    assert cmds[from..][0] == cmds[from];
  }

  // ---------------------------------------------------------------------
  // A whole render
  // ---------------------------------------------------------------------

  /** What one call of `render(shouldRender)` leaves behind. */
  datatype RenderResult<E> = RenderResult(items: map<string, Item>, events: seq<Event>, lastRenderedIndex: int,
                                          rendered: bool, env: E, error: Option<string>)

  /** The commands after the render pointer. */
  function Pending(cmds: seq<Command>, lastRenderedIndex: int): seq<Command>
    requires lastRenderedIndex >= -1
  {
    if lastRenderedIndex + 1 <= |cmds| then cmds[lastRenderedIndex + 1..] else []
  }

  /** How many pending commands the render covers, and the predicate's
      state afterwards; without a predicate, all of them. */
  function Accepted<E>(pending: seq<Command>, shouldRender: Option<(E, Command) -> (bool, E)>, env: E): (r: (nat, E))
    ensures r.0 <= |pending|
  {
    if shouldRender.Some? then Scan(pending, shouldRender.value, env) else (|pending|, env)
  }

  /** One render of a renderer that is not disposed. With nothing new to
      render, only the predicate runs. Otherwise the window up to
      `renderToIndex` goes through the DOM pass, the layout (all measures,
      then all updates) and the SVG pass; the pointer moves and "Rendered"
      is emitted only when the SVG pass does not throw. */
  function RenderStep<E>(items: map<string, Item>, lastRenderedIndex: int, cmds: seq<Command>,
                         shouldRender: Option<(E, Command) -> (bool, E)>, env: E): (r: RenderResult<E>)
    requires ItemsValid(items) && lastRenderedIndex >= -1
    ensures ItemsValid(r.items)
    ensures r.rendered <==> lastRenderedIndex < |cmds| - 1 && r.error.None?
    ensures !r.rendered ==> r.lastRenderedIndex == lastRenderedIndex
    ensures r.rendered ==> lastRenderedIndex < r.lastRenderedIndex < |cmds|
  {
    var pending := Pending(cmds, lastRenderedIndex);
    var a := Accepted(pending, shouldRender, env);
    RenderFrom(items, lastRenderedIndex, cmds, a.0, a.1, Logs(pending[..a.0]))
  }

  /** A render once the predicate has accepted `accepted` pending commands
      (leaving `env`) and produced `logs`. */
  function RenderFrom<E>(items: map<string, Item>, lastRenderedIndex: int, cmds: seq<Command>,
                         accepted: nat, env: E, logs: seq<Event>): RenderResult<E>
    requires ItemsValid(items) && lastRenderedIndex >= -1
    requires lastRenderedIndex < |cmds| - 1 ==> accepted <= |cmds| - lastRenderedIndex - 1
  {
    if lastRenderedIndex >= |cmds| - 1 then RenderResult(items, logs, lastRenderedIndex, false, env, None)
    else
      var to := RenderTo(|cmds| - 1, lastRenderedIndex + 1, accepted);
      var w := WindowRender(items, cmds[lastRenderedIndex + 1..to + 1]);
      RenderResult(w.0, logs + w.1, if w.2.None? then to else lastRenderedIndex, w.2.None?, env, w.2)
  }

  /** The passes over the window of a render: the DOM pass, the layout (all
      measures, then all updates) and the SVG pass, with the items they
      leave, their events and the error the SVG pass throws. */
  function WindowRender(items: map<string, Item>, window: seq<Command>): (r: (map<string, Item>, seq<Event>, Option<string>))
    requires ItemsValid(items)
    ensures ItemsValid(r.0)
  {
    var dom := Pass(window, true);
    var d := DomFold(items, dom);
    var svg := SvgFold(d.0, Pass(window, false));
    (d.0, d.1 + (Measures(dom) + Applies(dom)) + svg.0, svg.1)
  }

  /** Without a predicate a render that does not throw catches up with the
      log; with one, it stops after the accepted commands (or, when the
      first pending command is rejected, still catches up). */
  lemma RenderStepReach<E>(items: map<string, Item>, lastRenderedIndex: int, cmds: seq<Command>,
                           shouldRender: Option<(E, Command) -> (bool, E)>, env: E)
    requires ItemsValid(items) && -1 <= lastRenderedIndex < |cmds| - 1
    ensures var r := RenderStep(items, lastRenderedIndex, cmds, shouldRender, env);
      var accepted := Accepted(Pending(cmds, lastRenderedIndex), shouldRender, env).0;
      r.error.None? ==>
        r.rendered &&
        (shouldRender.None? || accepted == 0 ==> r.lastRenderedIndex == |cmds| - 1) &&
        (accepted > 0 ==> r.lastRenderedIndex == lastRenderedIndex + accepted)
  {
  }

  /** The work of a render with log entries after the pointer, up to (not
      including) updating the renderer: the range loop and the passes over
      the window, with the pointer to move to when they did not throw. */
  method RenderWindow<E>(items: map<string, Item>, lastRenderedIndex: int, cmds: seq<Command>,
                         shouldRender: Option<(E, Command) -> (bool, E)>, env: E)
    returns (drawn: map<string, Item>, events: seq<Event>, moveTo: Option<int>, envOut: E, error: Option<string>)
    requires ItemsValid(items) && -1 <= lastRenderedIndex < |cmds| - 1
    ensures ItemsValid(drawn) && (moveTo.Some? ==> moveTo.value >= -1)
    ensures var r := RenderStep(items, lastRenderedIndex, cmds, shouldRender, env);
      drawn == r.items && events == r.events && envOut == r.env && error == r.error &&
      moveTo.Some? == r.rendered && (moveTo.Some? ==> moveTo.value == r.lastRenderedIndex) &&
      (moveTo.None? ==> r.lastRenderedIndex == lastRenderedIndex)
  {
    var renderToIndex, accepted, logs;
    renderToIndex, envOut, accepted, logs := ChooseRange(cmds, lastRenderedIndex, shouldRender, env);
    RenderRangeInLog(cmds, lastRenderedIndex, shouldRender, env, renderToIndex, accepted);
    var passEvents;
    drawn, passEvents, error := RenderPasses(items, cmds, lastRenderedIndex + 1, renderToIndex);
    RenderStepNew(items, lastRenderedIndex, cmds, shouldRender, env, renderToIndex, accepted, envOut, logs, drawn, passEvents, error);
    events := logs + passEvents;
    moveTo := if error.None? then Some(renderToIndex) else None;
  }

  /** When every command with an SVG hook also has a DOM hook (as all the
      commands of the promise tracker do), a render never throws: it always
      moves the pointer and emits "Rendered". */
  lemma RenderStepSucceeds<E>(items: map<string, Item>, lastRenderedIndex: int, cmds: seq<Command>,
                              shouldRender: Option<(E, Command) -> (bool, E)>, env: E)
    requires ItemsValid(items) && -1 <= lastRenderedIndex < |cmds| - 1
    requires forall c :: c in cmds && c.updateSvg.Some? ==> c.updateDom.Some?
    ensures RenderStep(items, lastRenderedIndex, cmds, shouldRender, env).error.None?
    ensures RenderStep(items, lastRenderedIndex, cmds, shouldRender, env).rendered
  {
    var from := lastRenderedIndex + 1;
    var to := RenderTo(|cmds| - 1, from, Accepted(Pending(cmds, lastRenderedIndex), shouldRender, env).0);
    RenderStepOutcome(items, lastRenderedIndex, cmds, shouldRender, env, to);
    WindowRenderSucceeds(items, cmds, from, to);
  }

  /** Whether a render with something new to render throws is decided by
      the passes over its window. */
  lemma RenderStepOutcome<E>(items: map<string, Item>, lastRenderedIndex: int, cmds: seq<Command>,
                             shouldRender: Option<(E, Command) -> (bool, E)>, env: E, to: int)
    requires ItemsValid(items) && -1 <= lastRenderedIndex < |cmds| - 1
    requires to == RenderTo(|cmds| - 1, lastRenderedIndex + 1, Accepted(Pending(cmds, lastRenderedIndex), shouldRender, env).0)
    ensures lastRenderedIndex + 1 <= to + 1 <= |cmds|
    ensures RenderStep(items, lastRenderedIndex, cmds, shouldRender, env).error == WindowRender(items, cmds[lastRenderedIndex + 1..to + 1]).2
    ensures RenderStep(items, lastRenderedIndex, cmds, shouldRender, env).rendered == WindowRender(items, cmds[lastRenderedIndex + 1..to + 1]).2.None?
  {
    var a := Accepted(Pending(cmds, lastRenderedIndex), shouldRender, env);
    RenderRangeInLog(cmds, lastRenderedIndex, shouldRender, env, to, a.0);
    var w := WindowRender(items, cmds[lastRenderedIndex + 1..to + 1]);
    RenderStepNew(items, lastRenderedIndex, cmds, shouldRender, env, to, a.0, a.1, Logs(Pending(cmds, lastRenderedIndex)[..a.0]), w.0, w.1, w.2);
  }

  lemma WindowRenderSucceeds(items: map<string, Item>, cmds: seq<Command>, from: nat, to: int)
    requires ItemsValid(items) && from <= to + 1 <= |cmds|
    requires forall c :: c in cmds && c.updateSvg.Some? ==> c.updateDom.Some?
    ensures WindowRender(items, cmds[from..to + 1]).2.None?
  {
    var window := cmds[from..to + 1];
    assert forall c :: c in window ==> c in cmds;
    SvgPassSucceeds(items, window);
  }


  /** The scan of `getCommandsForDom`/`getCommandsForSvg` over
      `cmds[from..to]`: commands without the hook are skipped, replaceable
      ones are stored under their id and name, the others collected. */
  method GroupWindow(cmds: seq<Command>, from: nat, to: int, dom: bool) returns (g: Groups)
    requires from <= to + 1 <= |cmds|
    ensures g == Group(cmds[from..to + 1], dom)
  {
    ghost var ws := cmds[from..to + 1];
    var commands: seq<Command> := [];
    var ids: seq<string> := [];
    var names: map<string, seq<string>> := map[];
    var latest: map<(string, string), Command> := map[];
    var k := from;
    while k <= to
      invariant from <= k <= to + 1
      invariant Groups(commands, ids, names, latest) == Group(ws[..k - from], dom)
    {
      var c := cmds[k];
      assert ws[k - from] == c;
      assert ws[..k + 1 - from] == ws[..k - from] + [c];
      assert Group(ws[..k + 1 - from], dom) == AddToGroups(Group(ws[..k - from], dom), c, dom);
      k := k + 1;
      if !Hooked(c, dom) {
        continue;
      }
      if c.CanReplace() {
        if c.id !in names {
          ids := ids + [c.id];
          names := names[c.id := [c.name]];
        } else if c.name !in names[c.id] {
          names := names[c.id := names[c.id] + [c.name]];
        }
        latest := latest[(c.id, c.name) := c];
        continue;
      }
      commands := commands + [c];
    }
    assert ws[..k - from] == ws;
    g := Groups(commands, ids, names, latest);
  }

  /** The stored commands of one id, name by name. */
  method NameEntries(g: Groups, id: string) returns (commands: seq<Command>)
    requires WellFormed(g) && id in g.names
    ensures commands == Entries(g, PairKeys(id, g.names[id]))
  {
    var ns := g.names[id];
    commands := [];
    var j := 0;
    while j < |ns|
      invariant 0 <= j <= |ns|
      invariant |commands| == j
      invariant forall t :: 0 <= t < j ==> commands[t] == g.latest[(id, ns[t])]
    {
      commands := commands + [g.latest[(id, ns[j])]];
      j := j + 1;
    }
  }

  lemma EntriesAppend(g: Groups, a: seq<(string, string)>, b: seq<(string, string)>)
    requires forall k :: k in a + b ==> k in g.latest
    ensures Entries(g, a + b) == Entries(g, a) + Entries(g, b)
  {
    assert forall k :: k in a ==> k in a + b;
    assert forall k :: k in b ==> k in a + b;
  }

  lemma GroupKeysSnoc(g: Groups, ids: seq<string>, i: nat)
    requires i < |ids| && forall id :: id in ids ==> id in g.names
    ensures forall id :: id in ids[..i] ==> id in g.names
    ensures GroupKeys(g, ids[..i + 1]) == GroupKeys(g, ids[..i]) + PairKeys(ids[i], g.names[ids[i]])
  {
    assert ids[..i + 1][..i] == ids[..i];
    assert forall id :: id in ids[..i] ==> id in ids;
  }

  /** The flattening after its first `i` ids. */
  function FlatPrefix(g: Groups, i: nat): seq<Command>
    requires WellFormed(g) && i <= |g.ids|
  {
    assert forall id :: id in g.ids[..i] ==> id in g.ids;
    g.plain + Entries(g, GroupKeys(g, g.ids[..i]))
  }

  lemma FlatPrefixSnoc(g: Groups, i: nat)
    requires WellFormed(g) && i < |g.ids|
    ensures FlatPrefix(g, i + 1) == FlatPrefix(g, i) + Entries(g, PairKeys(g.ids[i], g.names[g.ids[i]]))
  {
    GroupKeysSnoc(g, g.ids, i);
    assert forall id :: id in g.ids[..i + 1] ==> id in g.ids;
    var a := GroupKeys(g, g.ids[..i]);
    var b := PairKeys(g.ids[i], g.names[g.ids[i]]);
    assert GroupKeys(g, g.ids[..i + 1]) == a + b;
    EntriesAppend(g, a, b);
    var x, y := Entries(g, a), Entries(g, b);
    assert FlatPrefix(g, i) == g.plain + x;
    assert FlatPrefix(g, i + 1) == g.plain + (x + y);
    AppendAssoc(g.plain, x, y);
  }

  lemma AppendAssoc(a: seq<Command>, b: seq<Command>, c: seq<Command>)
    ensures a + (b + c) == (a + b) + c
  {
  }

  /** "Add canReplacePrevious Commands": after the collected commands, the
      stored ones, id by id and name by name in insertion order. */
  method FlattenGroups(g: Groups) returns (commands: seq<Command>)
    requires WellFormed(g)
    ensures commands == g.plain + Entries(g, GroupKeys(g, g.ids))
  {
    commands := g.plain;
    var i := 0;
    while i < |g.ids|
      invariant 0 <= i <= |g.ids|
      invariant commands == FlatPrefix(g, i)
    {
      var more := NameEntries(g, g.ids[i]);
      FlatPrefixSnoc(g, i);
      commands := commands + more;
      i := i + 1;
    }
    assert g.ids[..i] == g.ids;
  }

  /** `addDomItem` for one command of the DOM pass, on `itemMap` `items`:
      returns the new map and the hook calls, in order. */
  method DrawCommand(items: map<string, Item>, c: Command) returns (drawn: map<string, Item>, events: seq<Event>)
    requires ItemsValid(items)
    ensures (drawn, events) == DomStep(items, c)
  {
    drawn := items;
    var pre: seq<Event> := [];
    if c.id !in items {
      if c.HasParent() && c.parentId.value !in items {
        pre := [ConsoleError(UnrenderedParent(c.parentId.value)), ItemAdded(c.id, None)];
      } else {
        pre := [ItemAdded(c.id, if c.HasParent() then c.parentId else None)];
      }
      drawn := items[c.id := Item(c, [])];
    }
    var effects := c.updateDom.GetOr([]);
    if !c.HasParent() {
      events := pre + [DomUpdated(c.id, effects, None, [])];
    } else if c.parentId.value !in drawn {
      events := pre + [ConsoleError(UnrenderedParent(c.parentId.value)), DomUpdated(c.id, effects, None, [])];
    } else {
      var parent := drawn[c.parentId.value];
      var children := if c.id in parent.children then parent.children else parent.children + [c.id];
      drawn := drawn[c.parentId.value := parent.(children := children)];
      events := pre + [DomUpdated(c.id, effects, Some(parent.command), Siblings(drawn, children))];
    }
  }

  /** The DOM pass: `addDomItem` for each command in order. */
  method DrawCommands(items: map<string, Item>, ws: seq<Command>) returns (drawn: map<string, Item>, events: seq<Event>)
    requires ItemsValid(items)
    ensures (drawn, events) == DomFold(items, ws)
  {
    drawn := items;
    events := [];
    var i := 0;
    while i < |ws|
      invariant 0 <= i <= |ws|
      invariant (drawn, events) == DomFold(items, ws[..i])
    {
      DomFoldSnoc(items, ws, i);
      var more;
      drawn, more := DrawCommand(drawn, ws[i]);
      events := events + more;
      i := i + 1;
    }
    assert ws[..i] == ws;
  }

  /** The `shouldRender` loop: consults the predicate on `cmds[from..]` until
      it refuses one, logging each accepted command. */
  method ScanWithPredicate<E>(cmds: seq<Command>, from: nat, shouldRender: (E, Command) -> (bool, E), env: E)
    returns (accepted: nat, envOut: E, logs: seq<Event>)
    requires from <= |cmds|
    ensures (accepted, envOut) == Scan(cmds[from..], shouldRender, env)
    ensures logs == Logs(cmds[from..][..accepted])
  {
    ghost var target := Scan(cmds[from..], shouldRender, env);
    ScanFromIsScan(cmds, from, shouldRender, env);
    envOut := env;
    logs := [];
    var k := from;
    while k < |cmds|
      invariant from <= k <= |cmds|
      invariant target.0 == k - from + ScanFrom(cmds, k, shouldRender, envOut).0
      invariant target.1 == ScanFrom(cmds, k, shouldRender, envOut).1
      invariant |logs| == k - from
      invariant forall i :: 0 <= i < k - from ==> logs[i] == Logged(LogText(cmds[from + i]))
    {
      var command := cmds[k];
      var verdict := shouldRender(envOut, command);
      envOut := verdict.1;
      if !verdict.0 {
        break;
      }
      logs := logs + [Logged(LogText(command))];
      k := k + 1;
    }
    accepted := k - from;
    LogsOfWindow(cmds, from, k, logs);
  }

  /** `Scan` over `cmds[k..]`, by position. */
  function ScanFrom<E>(cmds: seq<Command>, k: nat, shouldRender: (E, Command) -> (bool, E), env: E): (nat, E)
    requires k <= |cmds|
    decreases |cmds| - k
  {
    if k == |cmds| then (0, env)
    else
      var verdict := shouldRender(env, cmds[k]);
      if !verdict.0 then (0, verdict.1)
      else
        var rest := ScanFrom(cmds, k + 1, shouldRender, verdict.1);
        (rest.0 + 1, rest.1)
  }

  lemma {:induction false} ScanFromIsScan<E>(cmds: seq<Command>, k: nat, shouldRender: (E, Command) -> (bool, E), env: E)
    requires k <= |cmds|
    ensures ScanFrom(cmds, k, shouldRender, env) == Scan(cmds[k..], shouldRender, env)
    decreases |cmds| - k
  {
    if k < |cmds| {
      assert cmds[k..][0] == cmds[k];
      assert cmds[k..][1..] == cmds[k + 1..];
      ScanFromIsScan(cmds, k + 1, shouldRender, shouldRender(env, cmds[k]).1);
    }
  }

  /** `logs` lists the log lines of `cmds[from..k]`. */
  lemma LogsOfWindow(cmds: seq<Command>, from: nat, k: nat, logs: seq<Event>)
    requires from <= k <= |cmds|
    requires |logs| == k - from
    requires forall i :: 0 <= i < k - from ==> logs[i] == Logged(LogText(cmds[from + i]))
    ensures logs == Logs(cmds[from..][..k - from])
  {
    var window := cmds[from..][..k - from];
    assert forall i :: 0 <= i < |window| ==> window[i] == cmds[from + i];
  }

  lemma LogsSnoc(cmds: seq<Command>, from: nat, k: nat)
    requires from <= k < |cmds|
    ensures Logs(cmds[from..k + 1]) == Logs(cmds[from..k]) + [Logged(LogText(cmds[k]))]
  {
    assert cmds[from..k + 1][..k - from] == cmds[from..k];
  }

  /** Without a predicate every pending command is logged. */
  method LogAll(cmds: seq<Command>, from: nat) returns (logs: seq<Event>)
    requires from <= |cmds|
    ensures logs == Logs(cmds[from..])
  {
    logs := [];
    var k := from;
    while k < |cmds|
      invariant from <= k <= |cmds|
      invariant logs == Logs(cmds[from..k])
    {
      LogsSnoc(cmds, from, k);
      logs := logs + [Logged(LogText(cmds[k]))];
      k := k + 1;
    }
  }

  /** `domCommands.map(command => command.updateLayout(offsetBox))`. */
  method MeasureAll(domCommands: seq<Command>) returns (measured: seq<Event>, layoutSvgs: seq<Option<seq<Effect>>>)
    ensures measured == Measures(domCommands)
    ensures |layoutSvgs| == |domCommands|
    ensures forall j :: 0 <= j < |domCommands| ==> layoutSvgs[j] == domCommands[j].updateLayout.apply
  {
    measured := [];
    layoutSvgs := [];
    var i := 0;
    while i < |domCommands|
      invariant 0 <= i <= |domCommands|
      invariant measured == Measures(domCommands[..i])
      invariant |layoutSvgs| == i
      invariant forall j :: 0 <= j < i ==> layoutSvgs[j] == domCommands[j].updateLayout.apply
    {
      assert domCommands[..i + 1][..i] == domCommands[..i];
      measured := measured + [Measured(domCommands[i].updateLayout.measure)];
      layoutSvgs := layoutSvgs + [domCommands[i].updateLayout.apply];
      i := i + 1;
    }
    assert domCommands[..i] == domCommands;
  }

  /** `getCommandsForDom` (`dom`) and `getCommandsForSvg` over the log
      entries `from..to`. */
  method CommandsForPass(cmds: seq<Command>, from: nat, to: int, dom: bool) returns (commands: seq<Command>)
    requires from <= to + 1 <= |cmds|
    ensures commands == Pass(cmds[from..to + 1], dom)
  {
    var g := GroupWindow(cmds, from, to, dom);
    commands := FlattenGroups(g);
  }

  /** The loop that decides what to render: the log entries it covers,
      which it logs, and `renderToIndex`. */
  method ChooseRange<E>(cmds: seq<Command>, lastRenderedIndex: int, shouldRender: Option<(E, Command) -> (bool, E)>, env: E)
    returns (renderToIndex: int, envOut: E, accepted: nat, logs: seq<Event>)
    requires lastRenderedIndex >= -1
    ensures (accepted, envOut) == Accepted(Pending(cmds, lastRenderedIndex), shouldRender, env)
    ensures logs == Logs(Pending(cmds, lastRenderedIndex)[..accepted])
    ensures renderToIndex == RenderTo(|cmds| - 1, lastRenderedIndex + 1, accepted)
  {
    var from := lastRenderedIndex + 1;
    logs := [];
    envOut := env;
    accepted := 0;
    if from <= |cmds| {
      if shouldRender.Some? {
        accepted, envOut, logs := ScanWithPredicate(cmds, from, shouldRender.value, env);
      } else {
        logs := LogAll(cmds, from);
        accepted := |cmds| - from;
        assert cmds[from..][..accepted] == cmds[from..];
      }
    }
    renderToIndex := if accepted == 0 then |cmds| - 1 else from + accepted - 1;
  }

  /** "Relayout all items": every command measures, then the returned SVG
      updates run. */
  method Relayout(domCommands: seq<Command>) returns (events: seq<Event>)
    ensures events == Measures(domCommands) + Applies(domCommands)
  {
    var measured, layoutSvgs := MeasureAll(domCommands);
    var applied := ApplyLayouts(domCommands, layoutSvgs);
    events := measured + applied;
  }

  /** "Apply the last styling": the SVG pass over `itemMap` `items`, which
      throws on a command whose item is not drawn. */
  method ApplyStyles(items: map<string, Item>, svgCommands: seq<Command>) returns (events: seq<Event>, error: Option<string>)
    ensures (events, error) == SvgFold(items, svgCommands)
  {
    events := [];
    var i := 0;
    while i < |svgCommands|
      invariant 0 <= i <= |svgCommands|
      invariant SvgFold(items, svgCommands[..i]) == (events, None)
    {
      var command := svgCommands[i];
      assert svgCommands[..i + 1][..i] == svgCommands[..i];
      if command.id !in items {
        error := Some(ItemNotFound(command));
        assert SvgFold(items, svgCommands[..i + 1]) == (events, error);
        SvgFoldStops(items, svgCommands, i + 1);
        return;
      }
      events := events + [SvgUpdated(command.id, command.updateSvg.GetOr([]))];
      i := i + 1;
    }
    assert svgCommands[..i] == svgCommands;
    error := None;
  }

  /** The passes of a render over the log entries `from..to`: the DOM
      pass, the layout and the SVG pass. */
  method RenderPasses(items: map<string, Item>, cmds: seq<Command>, from: nat, to: int)
    returns (drawn: map<string, Item>, events: seq<Event>, error: Option<string>)
    requires ItemsValid(items) && from <= to + 1 <= |cmds|
    ensures (drawn, events, error) == WindowRender(items, cmds[from..to + 1])
    ensures ItemsValid(drawn)
  {
    var domCommands := CommandsForPass(cmds, from, to, true);
    var domEvents;
    drawn, domEvents := DrawCommands(items, domCommands);
    var layoutEvents := Relayout(domCommands);
    var svgCommands := CommandsForPass(cmds, from, to, false);
    var svgEvents;
    svgEvents, error := ApplyStyles(drawn, svgCommands);
    events := domEvents + layoutEvents + svgEvents;
  }

  /** `layoutSvgs.forEach(layoutSvg => { if (layoutSvg) layoutSvg(); })`. */
  method ApplyLayouts(domCommands: seq<Command>, layoutSvgs: seq<Option<seq<Effect>>>) returns (applied: seq<Event>)
    requires |layoutSvgs| == |domCommands|
    requires forall j :: 0 <= j < |domCommands| ==> layoutSvgs[j] == domCommands[j].updateLayout.apply
    ensures applied == Applies(domCommands)
  {
    applied := [];
    var i := 0;
    while i < |layoutSvgs|
      invariant 0 <= i <= |layoutSvgs|
      invariant applied == Applies(domCommands[..i])
    {
      assert domCommands[..i + 1][..i] == domCommands[..i];
      if layoutSvgs[i].Some? {
        applied := applied + [Applied(layoutSvgs[i].value)];
      }
      i := i + 1;
    }
    assert domCommands[..i] == domCommands;
  }

  class Renderer {
    const manager: CommandManager
    var isDisposed: bool
    var lastRenderedIndex: int
    /** `itemMap`. */
    var items: map<string, Item>
    /** Everything the renderer did to the page and the console, oldest first. */
    var trace: seq<Event>

    ghost predicate Valid()
      reads this, manager, manager.log, manager.broadcaster
    {
      manager.Valid() && lastRenderedIndex >= -1 && ItemsValid(items) && isDisposed == manager.isDisposed
    }

    /** `createRenderer`: a command manager over the shared log, nothing
        rendered. */
    constructor (log: Log, broadcaster: Emitter<Message>)
      requires broadcaster.Valid() && |log.commands| <= MaxItems
      ensures Valid()
      ensures fresh(manager) && manager.log == log && manager.broadcaster == broadcaster
      ensures !isDisposed && lastRenderedIndex == -1 && items == map[] && trace == []
    {
      manager := new CommandManager(log, broadcaster);
      isDisposed := false;
      lastRenderedIndex := -1;
      items := map[];
      trace := [];
    }

    /** `addCommand(command)`: hands the command to the manager. */
    method AddCommand(command: Command)
      requires Valid()
      modifies manager, manager.log, manager.broadcaster
      ensures Valid()
      ensures !old(isDisposed) && |old(manager.log.commands)| < MaxItems ==>
        manager.log.commands == old(manager.log.commands) + [command] && manager.alerts == old(manager.alerts) &&
        manager.broadcaster.history == old(manager.broadcaster.history) + [Message(RenderCommandAdded, CommandPayload(command))] &&
        manager.broadcaster.handlers == Survivors(old(manager.broadcaster.handlers), Message(RenderCommandAdded, CommandPayload(command)))
      ensures old(isDisposed) || |old(manager.log.commands)| >= MaxItems ==>
        manager.log.commands == old(manager.log.commands) && manager.broadcaster.history == old(manager.broadcaster.history) &&
        manager.broadcaster.handlers == old(manager.broadcaster.handlers)
      ensures old(isDisposed) ==> manager.alerts == old(manager.alerts)
      ensures !old(isDisposed) && |old(manager.log.commands)| >= MaxItems ==>
        manager.alerts == old(manager.alerts) + (if old(manager.isMaxReachedWarningShown) then [] else [MaxReachedAlert])
    {
      manager.Add(command);
    }

    /** `render(shouldRender?)`. The predicate is the closure `shouldRender`
        with its captured state `env` made explicit; the render returns the
        state after the last call and the error the SVG pass throws, if any. */
    method Render<E>(shouldRender: Option<(E, Command) -> (bool, E)>, env: E) returns (envOut: E, error: Option<string>)
      requires Valid()
      modifies this, manager.broadcaster
      ensures Valid()
      ensures isDisposed == old(isDisposed)
      ensures old(isDisposed) ==>
        envOut == env && error.None? && items == old(items) && trace == old(trace) &&
        lastRenderedIndex == old(lastRenderedIndex) && manager.broadcaster.history == old(manager.broadcaster.history) &&
        manager.broadcaster.handlers == old(manager.broadcaster.handlers)
      ensures !old(isDisposed) ==>
        var r := RenderStep(old(items), old(lastRenderedIndex), old(manager.log.commands), shouldRender, env);
        items == r.items && trace == old(trace) + r.events && lastRenderedIndex == r.lastRenderedIndex &&
        envOut == r.env && error == r.error &&
        (r.rendered ==> manager.broadcaster.history == old(manager.broadcaster.history) + [Message(Rendered, NoPayload)] &&
                        manager.broadcaster.handlers == Survivors(old(manager.broadcaster.handlers), Message(Rendered, NoPayload))) &&
        (!r.rendered ==> manager.broadcaster.history == old(manager.broadcaster.history) &&
                         manager.broadcaster.handlers == old(manager.broadcaster.handlers))
    {
      envOut := env;
      error := None;
      if !isDisposed {
        envOut, error := RenderLive(shouldRender, env);
      }
    }

    /** A render of a renderer that is not disposed. */
    method RenderLive<E>(shouldRender: Option<(E, Command) -> (bool, E)>, env: E) returns (envOut: E, error: Option<string>)
      requires Valid() && !isDisposed
      modifies this, manager.broadcaster
      ensures Valid() && isDisposed == old(isDisposed)
      ensures var r := RenderStep(old(items), old(lastRenderedIndex), old(manager.log.commands), shouldRender, env);
        items == r.items && trace == old(trace) + r.events && lastRenderedIndex == r.lastRenderedIndex &&
        envOut == r.env && error == r.error &&
        (r.rendered ==> manager.broadcaster.history == old(manager.broadcaster.history) + [Message(Rendered, NoPayload)] &&
                        manager.broadcaster.handlers == Survivors(old(manager.broadcaster.handlers), Message(Rendered, NoPayload))) &&
        (!r.rendered ==> manager.broadcaster.history == old(manager.broadcaster.history) &&
                         manager.broadcaster.handlers == old(manager.broadcaster.handlers))
    {
      var cmds := manager.log.commands;
      if lastRenderedIndex < |cmds| - 1 {
        envOut, error := RenderNew(shouldRender, env);
      } else {
        var renderToIndex, accepted, logs;
        renderToIndex, envOut, accepted, logs := ChooseRange(cmds, lastRenderedIndex, shouldRender, env);
        RenderStepIdle(items, lastRenderedIndex, cmds, shouldRender, env, accepted, envOut, logs);
        trace := trace + logs;
        error := None;
      }
    }

    /** A render with log entries after the pointer. */
    method RenderNew<E>(shouldRender: Option<(E, Command) -> (bool, E)>, env: E) returns (envOut: E, error: Option<string>)
      requires Valid() && !isDisposed && lastRenderedIndex < |manager.log.commands| - 1
      modifies this, manager.broadcaster
      ensures Valid() && isDisposed == old(isDisposed)
      ensures var r := RenderStep(old(items), old(lastRenderedIndex), old(manager.log.commands), shouldRender, env);
        items == r.items && trace == old(trace) + r.events && lastRenderedIndex == r.lastRenderedIndex &&
        envOut == r.env && error == r.error &&
        (r.rendered ==> manager.broadcaster.history == old(manager.broadcaster.history) + [Message(Rendered, NoPayload)] &&
                        manager.broadcaster.handlers == Survivors(old(manager.broadcaster.handlers), Message(Rendered, NoPayload))) &&
        (!r.rendered ==> manager.broadcaster.history == old(manager.broadcaster.history) &&
                         manager.broadcaster.handlers == old(manager.broadcaster.handlers))
    {
      var drawn, events, moveTo;
      drawn, events, moveTo, envOut, error := RenderWindow(items, lastRenderedIndex, manager.log.commands, shouldRender, env);
      Commit(drawn, events, moveTo);
    }

    /** The end of a render with something new to render: `itemMap` and
        the page take the passes' results; when the SVG pass did not throw,
        the pointer moves to `moveTo` and "Rendered" is emitted. */
    method Commit(drawn: map<string, Item>, events: seq<Event>, moveTo: Option<int>)
      requires Valid() && ItemsValid(drawn) && (moveTo.Some? ==> moveTo.value >= -1)
      modifies this, manager.broadcaster
      ensures Valid()
      ensures items == drawn && trace == old(trace) + events && isDisposed == old(isDisposed)
      ensures manager.log.commands == old(manager.log.commands)
      ensures lastRenderedIndex == if moveTo.Some? then moveTo.value else old(lastRenderedIndex)
      ensures moveTo.Some? ==>
        manager.broadcaster.history == old(manager.broadcaster.history) + [Message(Rendered, NoPayload)] &&
        manager.broadcaster.handlers == Survivors(old(manager.broadcaster.handlers), Message(Rendered, NoPayload))
      ensures moveTo.None? ==>
        manager.broadcaster.history == old(manager.broadcaster.history) &&
        manager.broadcaster.handlers == old(manager.broadcaster.handlers)
    {
      items := drawn;
      trace := trace + events;
      if moveTo.Some? {
        lastRenderedIndex := moveTo.value;
        var _ := manager.broadcaster.Emit(Message(Rendered, NoPayload));
      }
    }

    /** `clear()`: clears the log (when the manager is not disposed), resets
        the pointer and empties the page. `itemMap` is kept. */
    method Clear()
      requires Valid()
      modifies this, manager, manager.log, manager.broadcaster
      ensures Valid()
      ensures lastRenderedIndex == -1 && items == old(items) && trace == old(trace) + [ViewCleared]
      ensures isDisposed == old(isDisposed)
      ensures !old(isDisposed) ==>
        manager.log.commands == [] &&
        manager.broadcaster.history == old(manager.broadcaster.history) + [Message(RenderCommandsCleared, NoPayload)] &&
        manager.broadcaster.handlers == Survivors(old(manager.broadcaster.handlers), Message(RenderCommandsCleared, NoPayload))
      ensures old(isDisposed) ==>
        manager.log.commands == old(manager.log.commands) && manager.broadcaster.history == old(manager.broadcaster.history) &&
        manager.broadcaster.handlers == old(manager.broadcaster.handlers)
    {
      manager.Clear();
      lastRenderedIndex := -1;
      trace := trace + [ViewCleared];
    }

    /** `dispose()`: every later render does nothing; the log is emptied and
        the page removed. */
    method Dispose()
      requires Valid()
      modifies this, manager, manager.log
      ensures Valid()
      ensures isDisposed && lastRenderedIndex == -1 && manager.log.commands == []
      ensures items == old(items) && trace == old(trace) + [ViewRemoved]
    {
      isDisposed := true;
      manager.Dispose();
      lastRenderedIndex := -1;
      trace := trace + [ViewRemoved];
    }
  }

  /** Once the SVG pass has thrown on a prefix, the whole pass throws the
      same error and adds no more events. */
  lemma {:induction false} SvgFoldStops(items: map<string, Item>, ws: seq<Command>, n: nat)
    requires n <= |ws| && SvgFold(items, ws[..n]).1.Some?
    ensures SvgFold(items, ws) == SvgFold(items, ws[..n])
    decreases |ws| - n
  {
    if n < |ws| {
      assert ws[..n + 1][..n] == ws[..n];
      SvgFoldStops(items, ws, n + 1);
    } else {
      assert ws[..n] == ws;
    }
  }

  lemma DomFoldSnoc(items: map<string, Item>, ws: seq<Command>, i: nat)
    requires ItemsValid(items) && i < |ws|
    ensures ItemsValid(DomFold(items, ws[..i]).0)
    ensures DomFold(items, ws[..i + 1]) ==
      (DomStep(DomFold(items, ws[..i]).0, ws[i]).0, DomFold(items, ws[..i]).1 + DomStep(DomFold(items, ws[..i]).0, ws[i]).1)
  {
    assert ws[..i + 1][..i] == ws[..i];
  }

  /** `RenderStep` when there is something new to render, in terms of the
      outcome of the range loop. */
  lemma RenderStepNew<E>(items: map<string, Item>, lastRenderedIndex: int, cmds: seq<Command>,
                         shouldRender: Option<(E, Command) -> (bool, E)>, env: E,
                         to: int, accepted: nat, envOut: E, logs: seq<Event>,
                         drawn: map<string, Item>, events: seq<Event>, error: Option<string>)
    requires ItemsValid(items) && -1 <= lastRenderedIndex < |cmds| - 1
    requires (accepted, envOut) == Accepted(Pending(cmds, lastRenderedIndex), shouldRender, env)
    requires logs == Logs(Pending(cmds, lastRenderedIndex)[..accepted])
    requires to == RenderTo(|cmds| - 1, lastRenderedIndex + 1, accepted)
    requires lastRenderedIndex + 1 <= to + 1 <= |cmds|
    requires (drawn, events, error) == WindowRender(items, cmds[lastRenderedIndex + 1..to + 1])
    ensures var r := RenderStep(items, lastRenderedIndex, cmds, shouldRender, env);
      r.items == drawn && r.events == logs + events && r.env == envOut && r.error == error &&
      r.rendered == error.None? && r.lastRenderedIndex == if error.None? then to else lastRenderedIndex
  {
    RenderStepIsRenderFrom(items, lastRenderedIndex, cmds, shouldRender, env, accepted, envOut, logs);
    RenderFromNew(items, lastRenderedIndex, cmds, accepted, envOut, logs, to, drawn, events, error);
  }

  lemma RenderFromNew<E>(items: map<string, Item>, lastRenderedIndex: int, cmds: seq<Command>,
                         accepted: nat, envOut: E, logs: seq<Event>,
                         to: int, drawn: map<string, Item>, events: seq<Event>, error: Option<string>)
    requires ItemsValid(items) && -1 <= lastRenderedIndex < |cmds| - 1
    requires accepted <= |cmds| - lastRenderedIndex - 1
    requires to == RenderTo(|cmds| - 1, lastRenderedIndex + 1, accepted)
    requires lastRenderedIndex + 1 <= to + 1 <= |cmds|
    requires (drawn, events, error) == WindowRender(items, cmds[lastRenderedIndex + 1..to + 1])
    ensures RenderFrom(items, lastRenderedIndex, cmds, accepted, envOut, logs) ==
      RenderResult(drawn, logs + events, if error.None? then to else lastRenderedIndex, error.None?, envOut, error)
  {
  }

  lemma RenderStepIsRenderFrom<E>(items: map<string, Item>, lastRenderedIndex: int, cmds: seq<Command>,
                                  shouldRender: Option<(E, Command) -> (bool, E)>, env: E,
                                  accepted: nat, envOut: E, logs: seq<Event>)
    requires ItemsValid(items) && lastRenderedIndex >= -1
    requires (accepted, envOut) == Accepted(Pending(cmds, lastRenderedIndex), shouldRender, env)
    requires logs == Logs(Pending(cmds, lastRenderedIndex)[..accepted])
    ensures lastRenderedIndex < |cmds| - 1 ==> accepted <= |cmds| - lastRenderedIndex - 1
    ensures RenderStep(items, lastRenderedIndex, cmds, shouldRender, env) ==
      RenderFrom(items, lastRenderedIndex, cmds, accepted, envOut, logs)
  {
  }

  /** The window of a render with something new to render lies in the log. */
  lemma RenderRangeInLog<E>(cmds: seq<Command>, lastRenderedIndex: int, shouldRender: Option<(E, Command) -> (bool, E)>, env: E,
                            to: int, accepted: nat)
    requires -1 <= lastRenderedIndex < |cmds| - 1
    requires accepted == Accepted(Pending(cmds, lastRenderedIndex), shouldRender, env).0
    requires to == RenderTo(|cmds| - 1, lastRenderedIndex + 1, accepted)
    ensures lastRenderedIndex + 1 <= to + 1 <= |cmds|
  {
    assert |Pending(cmds, lastRenderedIndex)| == |cmds| - lastRenderedIndex - 1;
  }

  /** `RenderStep` when everything is rendered already. */
  lemma RenderStepIdle<E>(items: map<string, Item>, lastRenderedIndex: int, cmds: seq<Command>,
                          shouldRender: Option<(E, Command) -> (bool, E)>, env: E,
                          accepted: nat, envOut: E, logs: seq<Event>)
    requires ItemsValid(items) && lastRenderedIndex >= |cmds| - 1 && lastRenderedIndex >= -1
    requires (accepted, envOut) == Accepted(Pending(cmds, lastRenderedIndex), shouldRender, env)
    requires logs == Logs(Pending(cmds, lastRenderedIndex)[..accepted])
    ensures RenderStep(items, lastRenderedIndex, cmds, shouldRender, env) ==
      RenderResult(items, logs, lastRenderedIndex, false, envOut, None)
  {
    RenderStepIsRenderFrom(items, lastRenderedIndex, cmds, shouldRender, env, accepted, envOut, logs);
  }

}
