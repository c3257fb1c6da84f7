/** The browser's file explorer: the backend's tree turned into the items of
    the tree view, the selection test, and the items expanded at first. */
module ClientExplorer {
  import opened Wrappers
  import opened Text
  import opened FileTree

  /** An item of the tree view: `id`, `label` (here `caption`, as `label`
      is a Dafny keyword), `children` (only for directories), `data` and
      `type`. */
  datatype ViewItem = ViewItem(id: string, caption: string, children: ViewChildren, data: string, kind: Kind)

  datatype ViewChildren = NoChildren | Nested(items: seq<ViewItem>)

  /** The object `transformToTreeItems` builds for one backend item. */
  function ViewOf(it: TreeItem): (v: ViewItem)
    ensures v.id == it.path && v.data == it.path && v.caption == it.name && v.kind == it.kind
    ensures v.children.Nested? <==> it.kind == Directory
    decreases it, 0
  {
    var children :=
      if it.kind != Directory then NoChildren
      else match it.children
        case Absent => Nested([])
        case Present(kids) => Nested(Transform(kids));
    ViewItem(it.path, it.name, children, it.path, it.kind)
  }

  /** `item.children || []`: a missing key counts as no children. */
  function Kids(it: TreeItem): (kids: seq<TreeItem>)
    ensures it.children.Present? ==> kids == it.children.items
    ensures it.children.Absent? ==> kids == []
  {
    match it.children
    case Absent => []
    case Present(items) => items
  }

  /** A directory's children are the transform of its children, a missing
      key counting as none; a file has no children. */
  lemma ChildrenTransformed(it: TreeItem)
    ensures ViewOf(it).children == if it.kind == Directory then Nested(Transform(Kids(it))) else NoChildren
  {
  }

  /** `transformToTreeItems(items)`: one view item per item, in order. */
  function Transform(items: seq<TreeItem>): (r: seq<ViewItem>)
    ensures |r| == |items|
    ensures forall k :: 0 <= k < |items| ==> r[k] == ViewOf(items[k])
    decreases items, 1
  {
    if items == [] then []
    else
      [ViewOf(items[0])] + Transform(items[1..])
  }

  /** `defaultExpandedItems`: the ids of the top-level items. */
  function DefaultExpanded(view: seq<ViewItem>): (ids: seq<string>)
    ensures |ids| == |view|
    ensures forall k :: 0 <= k < |view| ==> ids[k] == view[k].id
  {
    if view == [] then [] else [view[0].id] + DefaultExpanded(view[1..])
  }

  /** `item.id === selectedFilePath`: `null` selects nothing. */
  predicate IsSelected(v: ViewItem, selected: Option<string>)
  {
    selected == Some(v.id)
  }

  /** In a tree as the backend builds it, a top-level item's path is its
      name. */
  lemma TopLevelPath(items: seq<TreeItem>, k: nat)
    requires TreeOk([], items) && k < |items|
    ensures items[k].path == items[k].name
  {
    assert items[k] in items;
    assert items[k].path == Join([items[k].name], "/");
  }

  /** ... and the path of an item one level down holds a '/'. */
  lemma ChildPathHasSlash(items: seq<TreeItem>, k: nat, c: TreeItem)
    requires TreeOk([], items) && k < |items| && c in Kids(items[k])
    ensures '/' in c.path
  {
    var it := items[k];
    assert it in items;
    assert it.children.Present?;
    assert [] + [it.name] == [it.name];
    assert ItemOk([it.name], c);
    assert c.path == Join([it.name, c.name], "/") == it.name + "/" + c.name;
    assert c.path[|it.name|] == '/';
  }

  /** Both click handlers pass the item's path (the content's `onClick`
      its `data`, the tree view's `onItemClick` its id), and the clicked
      item is then the one shown as selected: for a tree as the backend
      builds it, whose names hold no '/', clicking a top-level item selects
      it and no item one level down. */
  lemma ClickSelectsTopLevel(items: seq<TreeItem>, k: nat, j: nat, c: TreeItem)
    requires TreeOk([], items)
    requires forall i :: 0 <= i < |items| ==> '/' !in items[i].name
    requires k < |items| && j < |items| && c in Kids(items[j])
    ensures var clicked := Some(ViewOf(items[k]).data);
      IsSelected(Transform(items)[k], clicked) && !IsSelected(ViewOf(c), clicked)
  {
    TopLevelPath(items, k);
    ChildPathHasSlash(items, j, c);
  }

  /** For a tree as the backend builds it, whose names hold no '/', only
      the top level is expanded at first: the id of every item one level
      down contains a '/', and no top-level id does. */
  lemma {:induction false} OnlyTopLevelExpanded(items: seq<TreeItem>, k: nat, c: TreeItem)
    requires TreeOk([], items)
    requires forall j :: 0 <= j < |items| ==> '/' !in items[j].name
    requires k < |items| && c in Kids(items[k])
    ensures c.path !in DefaultExpanded(Transform(items))
  {
    ChildPathHasSlash(items, k, c);
    var ids := DefaultExpanded(Transform(items));
    forall j | 0 <= j < |ids|
      ensures ids[j] != c.path
    {
      TopLevelPath(items, j);
    }
  }
}
