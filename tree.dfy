/** The workspace tree the backend's `get_file_tree` sends to the browser.

    A directory is given as the entries `iterdir` yields, in the order it
    yields them. Entries named "backend" or "venv", or starting with ".",
    are skipped at every depth; every other entry becomes an item carrying
    its name, its `/`-separated path relative to the session directory, its
    kind, and, for a directory only, the items of its own entries. Each level
    is then sorted on the key `(type == "file", name)`: directories before
    files, names in code-point order. */
module FileTree {
  import opened Text

  /** A directory entry as the file system lists it. */
  datatype Node = FileNode(name: string) | DirNode(name: string, entries: seq<Node>)

  /** The `"type"` field: "directory" or "file". */
  datatype Kind = Directory | RegularFile

  /** One dictionary of the tree: `children` is a key only directories have. */
  datatype TreeItem = TreeItem(name: string, path: string, kind: Kind, children: Children)

  /** The `"children"` key: absent, or present with the items below. */
  datatype Children = Absent | Present(items: seq<TreeItem>)

  /** The names `get_file_tree` skips. */
  predicate Hidden(name: string)
  {
    name == "backend" || name == "venv" || (|name| > 0 && name[0] == '.')
  }

  /** `item.relative_to(session_dir).as_posix()` for an entry `name` of the
      directory reached through `prefix`. */
  function RelPath(prefix: seq<string>, name: string): string
  {
    Join(prefix + [name], "/")
  }

  // ---------------------------------------------------------------------
  // Ordering
  // ---------------------------------------------------------------------

  /** `a` may come before `b` under the key `(type == "file", name)`:
      `False < True` puts directories first, then names compare as strings. */
  predicate KeyLe(a: TreeItem, b: TreeItem)
  {
    if a.kind != b.kind then a.kind == Directory else LexLe(a.name, b.name)
  }

  lemma KeyLeTotal(a: TreeItem, b: TreeItem)
    ensures KeyLe(a, b) || KeyLe(b, a)
  {
    if a.kind == b.kind {
      LexLeTotal(a.name, b.name);
    }
  }

  lemma KeyLeTransitive(a: TreeItem, b: TreeItem, c: TreeItem)
    requires KeyLe(a, b) && KeyLe(b, c)
    ensures KeyLe(a, c)
  {
    if a.kind == b.kind && b.kind == c.kind {
      LexLeTransitive(a.name, b.name, c.name);
    }
  }

  predicate Sorted(items: seq<TreeItem>)
  {
    forall i, j :: 0 <= i < j < |items| ==> KeyLe(items[i], items[j])
  }

  /** `x` placed before the first element it may precede. */
  function Insert(x: TreeItem, ys: seq<TreeItem>): (r: seq<TreeItem>)
    ensures multiset(r) == multiset(ys) + multiset{x}
  {
    if ys == [] || KeyLe(x, ys[0]) then [x] + ys
    else
      assert ys == [ys[0]] + ys[1..];
      [ys[0]] + Insert(x, ys[1..])
  }

  /** `sorted(tree, key=...)`, as an insertion sort. */
  function SortItems(xs: seq<TreeItem>): (r: seq<TreeItem>)
    ensures multiset(r) == multiset(xs)
  {
    if xs == [] then []
    else
      assert xs == [xs[0]] + xs[1..];
      Insert(xs[0], SortItems(xs[1..]))
  }

  lemma {:induction false} InsertSorted(x: TreeItem, ys: seq<TreeItem>)
    requires Sorted(ys)
    ensures Sorted(Insert(x, ys))
  {
    if ys == [] || KeyLe(x, ys[0]) {
      forall j | 0 <= j < |ys|
        ensures KeyLe(x, ys[j])
      {
        if j > 0 {
          KeyLeTransitive(x, ys[0], ys[j]);
        }
      }
    } else {
      KeyLeTotal(x, ys[0]);
      InsertSorted(x, ys[1..]);
      var rest := Insert(x, ys[1..]);
      forall e | e in rest
        ensures KeyLe(ys[0], e)
      {
        assert e in multiset(rest);
        if e != x {
          assert e in ys[1..];
        }
      }
      assert Insert(x, ys) == [ys[0]] + rest;
    }
  }

  /** Each level comes out sorted and holds exactly the items it was given. */
  lemma {:induction false} SortItemsSorted(xs: seq<TreeItem>)
    ensures Sorted(SortItems(xs)) && multiset(SortItems(xs)) == multiset(xs)
  {
    if xs != [] {
      SortItemsSorted(xs[1..]);
      InsertSorted(xs[0], SortItems(xs[1..]));
    }
  }

  // ---------------------------------------------------------------------
  // get_file_tree
  // ---------------------------------------------------------------------

  /** The item of a visible entry. */
  function ItemOf(prefix: seq<string>, n: Node): TreeItem
    decreases n, 0
  {
    match n
    case FileNode(name) => TreeItem(name, RelPath(prefix, name), RegularFile, Absent)
    case DirNode(name, entries) =>
      TreeItem(name, RelPath(prefix, name), Directory, Present(Tree(prefix + [name], entries)))
  }

  /** The `for` loop over `iterdir()`: the items of the visible entries, in
      listing order. */
  function Collect(prefix: seq<string>, nodes: seq<Node>): seq<TreeItem>
    decreases nodes, 1
  {
    if nodes == [] then []
    else
      var n := nodes[|nodes| - 1];
      Collect(prefix, nodes[..|nodes| - 1]) + (if Hidden(n.name) then [] else [ItemOf(prefix, n)])
  }

  /** `get_file_tree(session_dir, current_path)`. */
  function Tree(prefix: seq<string>, nodes: seq<Node>): seq<TreeItem>
    decreases nodes, 2
  {
    SortItems(Collect(prefix, nodes))
  }

  /** `get_file_tree` as the source runs it: a loop over the listing that
      builds the item of each visible entry, recursing into directories, and
      then the sort. */
  method GetFileTree(prefix: seq<string>, nodes: seq<Node>) returns (tree: seq<TreeItem>)
    ensures tree == Tree(prefix, nodes)
    decreases nodes
  {
    var items := [];
    for i := 0 to |nodes|
      invariant items == Collect(prefix, nodes[..i])
    {
      var n := nodes[i];
      assert nodes[..i + 1][..i] == nodes[..i];
      if !Hidden(n.name) {
        var path := RelPath(prefix, n.name);
        if n.DirNode? {
          var children := GetFileTree(prefix + [n.name], n.entries);
          items := items + [TreeItem(n.name, path, Directory, Present(children))];
        } else {
          items := items + [TreeItem(n.name, path, RegularFile, Absent)];
        }
      }
    }
    assert nodes[..|nodes|] == nodes;
    tree := SortItems(items);
  }

  // ---------------------------------------------------------------------
  // What the tree promises
  // ---------------------------------------------------------------------

  /** An item as the browser may rely on it: not a skipped name, its path
      is its parent's path and its name joined by "/", it has children
      exactly when it is a directory, and those children are sorted and
      themselves well formed. */
  predicate ItemOk(prefix: seq<string>, it: TreeItem)
    decreases it
  {
    !Hidden(it.name) && it.path == RelPath(prefix, it.name) &&
    (it.kind == Directory <==> it.children.Present?) &&
    match it.children
    case Absent => true
    case Present(kids) =>
      Sorted(kids) && forall c :: c in kids ==> ItemOk(prefix + [it.name], c)
  }

  predicate TreeOk(prefix: seq<string>, items: seq<TreeItem>)
  {
    Sorted(items) && forall it :: it in items ==> ItemOk(prefix, it)
  }

  /** The loop keeps the visible entries and only those, in listing order. */
  lemma {:induction false} CollectMembers(prefix: seq<string>, nodes: seq<Node>, it: TreeItem)
    ensures it in Collect(prefix, nodes) <==>
      exists k :: 0 <= k < |nodes| && !Hidden(nodes[k].name) && it == ItemOf(prefix, nodes[k])
  {
    if nodes != [] {
      var init := nodes[..|nodes| - 1];
      CollectMembers(prefix, init, it);
      if it in Collect(prefix, init) {
        var k :| 0 <= k < |init| && !Hidden(init[k].name) && it == ItemOf(prefix, init[k]);
        assert nodes[k] == init[k];
      }
      if exists k :: 0 <= k < |nodes| && !Hidden(nodes[k].name) && it == ItemOf(prefix, nodes[k]) {
        var k :| 0 <= k < |nodes| && !Hidden(nodes[k].name) && it == ItemOf(prefix, nodes[k]);
        if k < |nodes| - 1 {
          assert init[k] == nodes[k];
        }
      }
    }
  }

  /** A tree item is the item of one visible entry of the listing, and
      every visible entry has its item in the tree. */
  lemma TreeMembers(prefix: seq<string>, nodes: seq<Node>, it: TreeItem)
    ensures it in Tree(prefix, nodes) <==>
      exists k :: 0 <= k < |nodes| && !Hidden(nodes[k].name) && it == ItemOf(prefix, nodes[k])
  {
    CollectMembers(prefix, nodes, it);
    assert it in Tree(prefix, nodes) <==> it in multiset(Tree(prefix, nodes));
  }

  /** Every level of the tree is sorted, no skipped name appears at any
      depth, paths are built from the names above them, and only
      directories carry children. */
  lemma {:induction false} TreeShape(prefix: seq<string>, nodes: seq<Node>)
    ensures TreeOk(prefix, Tree(prefix, nodes))
    decreases nodes
  {
    SortItemsSorted(Collect(prefix, nodes));
    forall it | it in Tree(prefix, nodes)
      ensures ItemOk(prefix, it)
    {
      TreeMembers(prefix, nodes, it);
      var k :| 0 <= k < |nodes| && !Hidden(nodes[k].name) && it == ItemOf(prefix, nodes[k]);
      if nodes[k].DirNode? {
        TreeShape(prefix + [nodes[k].name], nodes[k].entries);
      }
    }
  }

  /** Each level has one item per visible entry: the sort loses and adds
      nothing. */
  lemma {:induction false} TreeLength(prefix: seq<string>, nodes: seq<Node>)
    ensures |Tree(prefix, nodes)| == |Collect(prefix, nodes)| <= |nodes|
  {
    SortItemsSorted(Collect(prefix, nodes));
    assert |Tree(prefix, nodes)| == |multiset(Tree(prefix, nodes))|;
    if nodes != [] {
      TreeLength(prefix, nodes[..|nodes| - 1]);
    }
  }
}
