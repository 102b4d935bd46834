/** The visible rows of a workspace tree and the keyboard's way through them. */
module WorkspaceNavigation {
  import opened CompactionTypes
  import opened WorkspacePaths
  import opened WorkspaceTree

  datatype Row = Row(node: Node, depth: nat, parent: Option<Path>, index: nat, siblings: nat)

  /** The rows of a run of siblings, each expanded folder followed by the rows inside it. */
  function Rows(nodes: seq<Node>, index: nat, siblings: nat, depth: nat, parent: Option<Path>, expanded: set<Path>): seq<Row> {
    if nodes == [] then []
    else RowsOf(nodes[0], index, siblings, depth, parent, expanded)
         + Rows(nodes[1..], index + 1, siblings, depth, parent, expanded)
  }

  function RowsOf(n: Node, index: nat, siblings: nat, depth: nat, parent: Option<Path>, expanded: set<Path>): seq<Row> {
    [Row(n, depth, parent, index, siblings)]
    + if n.Folder? && n.path in expanded
      then Rows(n.children, 0, |n.children|, depth + 1, Some(n.path), expanded) else []
  }

  function Flattened(roots: seq<Node>, expanded: set<Path>): seq<Row> {
    Rows(roots, 0, |roots|, 0, None, expanded)
  }

  /** `flattenVisibleTree`. */
  method FlattenVisibleTree(roots: seq<Node>, expanded: set<Path>) returns (flattened: seq<Row>)
    ensures flattened == Flattened(roots, expanded)
  {
    flattened := Visit(roots, 0, None, expanded, []);
  }

  /** The recursive walk that pushes rows onto one list. */
  method Visit(nodes: seq<Node>, depth: nat, parent: Option<Path>, expanded: set<Path>, before: seq<Row>)
    returns (flattened: seq<Row>)
    ensures flattened == before + Rows(nodes, 0, |nodes|, depth, parent, expanded)
    decreases nodes
  {
    hide Rows;
    flattened := before;
    var index := 0;
    assert nodes[0..] == nodes;
    while index < |nodes|
      invariant index <= |nodes|
      invariant flattened + Rows(nodes[index..], index, |nodes|, depth, parent, expanded)
             == before + Rows(nodes, 0, |nodes|, depth, parent, expanded)
    {
      var node := nodes[index];
      ghost var done := flattened;
      RowsStep(nodes, index, depth, parent, expanded);
      flattened := flattened + [Row(node, depth, parent, index, |nodes|)];
      if node.Folder? && node.path in expanded {
        flattened := Visit(node.children, depth + 1, Some(node.path), expanded, flattened);
      }
      assert flattened == done + RowsOf(node, index, |nodes|, depth, parent, expanded);
      index := index + 1;
    }
    NoRows(index, |nodes|, depth, parent, expanded);
    assert nodes[index..] == [];
  }

  lemma RowsStep(nodes: seq<Node>, index: nat, depth: nat, parent: Option<Path>, expanded: set<Path>)
    requires index < |nodes|
    ensures Rows(nodes[index..], index, |nodes|, depth, parent, expanded)
         == RowsOf(nodes[index], index, |nodes|, depth, parent, expanded)
            + Rows(nodes[index + 1..], index + 1, |nodes|, depth, parent, expanded)
  {
    assert nodes[index..][0] == nodes[index] && nodes[index..][1..] == nodes[index + 1..];
  }

  lemma NoRows(index: nat, siblings: nat, depth: nat, parent: Option<Path>, expanded: set<Path>)
    ensures Rows([], index, siblings, depth, parent, expanded) == []
  {
  }

  // ------------------------------------------------------------------- lookup

  /** `find` by path among siblings: the first, or -1. */
  function IndexOf(nodes: seq<Node>, p: Path): (i: int)
    ensures -1 <= i < |nodes|
    ensures i >= 0 ==> nodes[i].path == p
    ensures i < 0 ==> forall k :: 0 <= k < |nodes| ==> nodes[k].path != p
  {
    if nodes == [] then -1
    else if nodes[0].path == p then 0
    else
      var i := IndexOf(nodes[1..], p);
      if i < 0 then -1 else i + 1
  }

  /** The node at a path, from the level of its segment `k` down. */
  function Find(nodes: seq<Node>, p: Path, k: nat): Option<Node>
    requires k < |p|
    decreases |p| - k
  {
    var i := IndexOf(nodes, p[..k + 1]);
    if i < 0 then None
    else if k + 1 == |p| then Some(nodes[i])
    else if nodes[i].Folder? then Find(nodes[i].children, p, k + 1)
    else None
  }

  datatype Lookup = Rejected | NotFound | Found(node: Node)

  /** `findTreeNode`. */
  method FindTreeNode(roots: seq<Node>, raw: string) returns (r: Lookup)
    ensures var p := Normalize(raw);
      r == if p.None? then Rejected
           else if p.value != [] && Find(roots, p.value, 0).Some? then Found(Find(roots, p.value, 0).value)
           else NotFound
  {
    hide Normalize;
    var path := Normalize(raw);
    if path.None? {
      return Rejected;
    }
    var segments := path.value;
    NormalizeIsCanonical(raw);
    var siblings := roots;
    var index := 0;
    while index < |segments|
      invariant index < |segments|
      invariant Find(siblings, segments, index) == Find(roots, segments, 0)
    {
      var i := IndexOf(siblings, segments[..index + 1]);
      if i < 0 {
        return NotFound;
      }
      if index == |segments| - 1 {
        return Found(siblings[i]);
      }
      if !siblings[i].Folder? {
        return NotFound;
      }
      siblings := siblings[i].children;
      index := index + 1;
    }
  }

  // ------------------------------------------------------------ what is visible

  predicate Shown(rows: seq<Row>, n: Node) {
    exists r <- rows :: r.node == n
  }

  lemma ShownIn(xs: seq<Row>, ys: seq<Row>, n: Node)
    ensures Shown(xs + ys, n) <==> Shown(xs, n) || Shown(ys, n)
  {
    if Shown(xs, n) {
      var r :| r in xs && r.node == n;
      assert r in xs + ys;
    }
    if Shown(ys, n) {
      var r :| r in ys && r.node == n;
      assert r in xs + ys;
    }
  }

  lemma {:induction false} ShownAmong(nodes: seq<Node>, index: nat, siblings: nat, depth: nat, parent: Option<Path>,
                                      expanded: set<Path>, n: Node)
    ensures Shown(Rows(nodes, index, siblings, depth, parent, expanded), n) <==>
      exists m <- nodes :: n == m || (m.Folder? && m.path in expanded
        && Shown(Rows(m.children, 0, |m.children|, depth + 1, Some(m.path), expanded), n))
    decreases nodes
  {
    if nodes != [] {
      var m, rest := nodes[0], nodes[1..];
      ShownAmong(rest, index + 1, siblings, depth, parent, expanded, n);
      var own := [Row(m, depth, parent, index, siblings)];
      var inner := if m.Folder? && m.path in expanded
                   then Rows(m.children, 0, |m.children|, depth + 1, Some(m.path), expanded) else [];
      ShownIn(own, inner, n);
      ShownIn(own + inner, Rows(rest, index + 1, siblings, depth, parent, expanded), n);
      assert own[0] in own;
      assert nodes == [m] + rest;
      hide Rows;
    }
  }

  /** Every folder strictly between two paths is expanded. */
  predicate Open(at: Path, p: Path, expanded: set<Path>) {
    forall k :: |at| < k < |p| ==> p[..k] in expanded
  }

  lemma OpenStep(at: Path, name: string, p: Path, expanded: set<Path>)
    requires at + [name] < p
    ensures Open(at, p, expanded) <==> at + [name] in expanded && Open(at + [name], p, expanded)
  {
    assert at + [name] == p[..|at| + 1];
  }

  lemma Unique(nodes: seq<Node>, at: Path, m: Node)
    requires WellFormed(nodes, at) && m in nodes
    ensures IndexOf(nodes, m.path) >= 0 && nodes[IndexOf(nodes, m.path)] == m
  {
    var i :| 0 <= i < |nodes| && nodes[i] == m;
    var k := IndexOf(nodes, m.path);
    assert WellFormedNode(nodes[i], at);
    if k >= 0 {
      assert WellFormedNode(nodes[k], at);
      assert nodes[k].name == (at + [nodes[k].name])[|at|] == nodes[i].name;
    }
  }

  lemma {:induction false} ShownBelow(nodes: seq<Node>, at: Path, index: nat, siblings: nat, depth: nat,
                                      parent: Option<Path>, expanded: set<Path>, n: Node)
    requires WellFormed(nodes, at) && Shown(Rows(nodes, index, siblings, depth, parent, expanded), n)
    ensures at < n.path
    decreases nodes
  {
    ShownAmong(nodes, index, siblings, depth, parent, expanded, n);
    hide Rows, Shown;
    var m :| m in nodes && (n == m || (m.Folder? && m.path in expanded
               && Shown(Rows(m.children, 0, |m.children|, depth + 1, Some(m.path), expanded), n)));
    Unique(nodes, at, m);
    InPlace(nodes, at, m);
    if n != m {
      ShownBelow(m.children, m.path, 0, |m.children|, depth + 1, Some(m.path), expanded, n);
    }
  }

  lemma InPlace(nodes: seq<Node>, at: Path, m: Node)
    requires WellFormed(nodes, at) && m in nodes
    ensures WellFormedNode(m, at) && at < m.path && |m.path| == |at| + 1
  {
    var i :| 0 <= i < |nodes| && nodes[i] == m;
    assert WellFormedNode(nodes[i], at);
  }

  /** A node is listed exactly when it is in the tree and all its ancestors are expanded. */
  lemma {:induction false} VisibleIff(nodes: seq<Node>, at: Path, index: nat, siblings: nat, depth: nat,
                                      parent: Option<Path>, expanded: set<Path>, n: Node)
    requires WellFormed(nodes, at) && at < n.path
    ensures Shown(Rows(nodes, index, siblings, depth, parent, expanded), n) <==>
      Find(nodes, n.path, |at|) == Some(n) && Open(at, n.path, expanded)
    decreases nodes
  {
    var p := n.path;
    ShownAmong(nodes, index, siblings, depth, parent, expanded, n);
    hide Rows, Shown, WellFormed, WellFormedNode;
    if Shown(Rows(nodes, index, siblings, depth, parent, expanded), n) {
      var m :| m in nodes && (n == m || (m.Folder? && m.path in expanded
                 && Shown(Rows(m.children, 0, |m.children|, depth + 1, Some(m.path), expanded), n)));
      Unique(nodes, at, m);
      InPlace(nodes, at, m);
      if n == m {
        assert p[..|at| + 1] == p;
      } else {
        BelowFolder(nodes, at, m);
        ShownBelow(m.children, m.path, 0, |m.children|, depth + 1, Some(m.path), expanded, n);
        VisibleIff(m.children, m.path, 0, |m.children|, depth + 1, Some(m.path), expanded, n);
        OpenStep(at, m.name, p, expanded);
        assert p[..|at| + 1] == m.path;
      }
    }
    if Find(nodes, p, |at|) == Some(n) && Open(at, p, expanded) {
      var m := nodes[IndexOf(nodes, p[..|at| + 1])];
      assert m in nodes;
      InPlace(nodes, at, m);
      if |p| > |at| + 1 {
        BelowFolder(nodes, at, m);
        VisibleIff(m.children, m.path, 0, |m.children|, depth + 1, Some(m.path), expanded, n);
        OpenStep(at, m.name, p, expanded);
      }
    }
  }

  lemma BelowFolder(nodes: seq<Node>, at: Path, m: Node)
    requires WellFormed(nodes, at) && m in nodes && m.Folder?
    ensures m.path == at + [m.name] && m.children != [] && WellFormed(m.children, m.path)
  {
    InPlace(nodes, at, m);
  }

  predicate DistinctRows(rows: seq<Row>) {
    forall i, k :: 0 <= i < k < |rows| ==> rows[i].node.path != rows[k].node.path
  }

  /** No two rows show the same path. */
  lemma {:induction false} RowsAreDistinct(nodes: seq<Node>, at: Path, index: nat, siblings: nat, depth: nat,
                                           parent: Option<Path>, expanded: set<Path>)
    requires WellFormed(nodes, at)
    ensures DistinctRows(Rows(nodes, index, siblings, depth, parent, expanded))
    decreases nodes
  {
    if nodes != [] {
      var n, rest := nodes[0], nodes[1..];
      assert n in nodes;
      InPlace(nodes, at, n);
      RowsAreDistinct(rest, at, index + 1, siblings, depth, parent, expanded);
      var own, later := RowsOf(n, index, siblings, depth, parent, expanded),
                        Rows(rest, index + 1, siblings, depth, parent, expanded);
      if n.Folder? && n.path in expanded {
        RowsAreDistinct(n.children, n.path, 0, |n.children|, depth + 1, Some(n.path), expanded);
        var inner := Rows(n.children, 0, |n.children|, depth + 1, Some(n.path), expanded);
        forall r <- inner ensures n.path < r.node.path {
          assert Shown(inner, r.node);
          ShownBelow(n.children, n.path, 0, |n.children|, depth + 1, Some(n.path), expanded, r.node);
        }
        RowsConcat([own[0]], inner);
      }
      forall x, y | x in own && y in later ensures x.node.path != y.node.path {
        OwnRow(n, at, index, siblings, depth, parent, expanded, x);
        LaterRow(nodes, at, index, siblings, depth, parent, expanded, y);
      }
      hide Rows, WellFormed;
      RowsConcat(own, later);
    }
  }

  lemma RowsConcat(xs: seq<Row>, ys: seq<Row>)
    requires DistinctRows(xs) && DistinctRows(ys)
    requires forall x, y :: x in xs && y in ys ==> x.node.path != y.node.path
    ensures DistinctRows(xs + ys)
  {
    var all := xs + ys;
    forall i, k | 0 <= i < k < |all| ensures all[i].node.path != all[k].node.path {
      if i < |xs| && k >= |xs| {
        assert all[i] in xs && all[k] in ys;
      }
    }
  }

  lemma OwnRow(n: Node, at: Path, index: nat, siblings: nat, depth: nat, parent: Option<Path>, expanded: set<Path>, x: Row)
    requires WellFormedNode(n, at) && x in RowsOf(n, index, siblings, depth, parent, expanded)
    ensures at + [n.name] <= x.node.path
  {
    if x.node != n {
      var inner := Rows(n.children, 0, |n.children|, depth + 1, Some(n.path), expanded);
      assert Shown(inner, x.node);
      ShownBelow(n.children, n.path, 0, |n.children|, depth + 1, Some(n.path), expanded, x.node);
    }
  }

  lemma LaterRow(nodes: seq<Node>, at: Path, index: nat, siblings: nat, depth: nat, parent: Option<Path>,
                 expanded: set<Path>, y: Row)
    requires WellFormed(nodes, at) && nodes != []
    requires y in Rows(nodes[1..], index + 1, siblings, depth, parent, expanded)
    ensures !(at + [nodes[0].name] <= y.node.path)
  {
    var rest := nodes[1..];
    var rows := Rows(rest, index + 1, siblings, depth, parent, expanded);
    assert Shown(rows, y.node);
    ShownAmong(rest, index + 1, siblings, depth, parent, expanded, y.node);
    hide Rows, Shown;
    var m :| m in rest && (y.node == m || (m.Folder? && m.path in expanded
               && Shown(Rows(m.children, 0, |m.children|, depth + 1, Some(m.path), expanded), y.node)));
    InPlace(rest, at, m);
    if y.node != m {
      ShownBelow(m.children, m.path, 0, |m.children|, depth + 1, Some(m.path), expanded, y.node);
    }
    var i :| 0 <= i < |rest| && rest[i] == m;
    assert nodes[i + 1] == m && m.path[|at|] == m.name && y.node.path[|at|] == m.name;
  }

  lemma FirstRow(nodes: seq<Node>, index: nat, siblings: nat, depth: nat, parent: Option<Path>, expanded: set<Path>)
    requires nodes != []
    ensures var rows := Rows(nodes, index, siblings, depth, parent, expanded); rows != [] && rows[0].node == nodes[0]
  {
  }

  /** The row after an expanded folder's row is its first child's. */
  lemma {:induction false} FirstChildFollows(nodes: seq<Node>, at: Path, index: nat, siblings: nat, depth: nat,
                                             parent: Option<Path>, expanded: set<Path>, i: nat)
    requires WellFormed(nodes, at)
    requires var rows := Rows(nodes, index, siblings, depth, parent, expanded);
      i < |rows| && rows[i].node.Folder? && rows[i].node.path in expanded
    ensures var rows := Rows(nodes, index, siblings, depth, parent, expanded);
      i + 1 < |rows| && rows[i].node.children != [] && rows[i + 1].node == rows[i].node.children[0]
    decreases nodes
  {
    var n, rest := nodes[0], nodes[1..];
    assert n in nodes;
    InPlace(nodes, at, n);
    var own := RowsOf(n, index, siblings, depth, parent, expanded);
    if i >= |own| {
      FirstChildFollows(rest, at, index + 1, siblings, depth, parent, expanded, i - |own|);
    } else if i == 0 {
      FirstRow(n.children, 0, |n.children|, depth + 1, Some(n.path), expanded);
    } else {
      FirstChildFollows(n.children, n.path, 0, |n.children|, depth + 1, Some(n.path), expanded, i - 1);
    }
  }

  // --------------------------------------------------------------- navigation

  datatype Direction = Previous | Next | ToParent | FirstChild

  datatype Focus = Throws | Nowhere | At(path: Path)

  /** `findIndex` over the rows. */
  function RowOf(rows: seq<Row>, p: Path): (i: int)
    ensures -1 <= i < |rows|
    ensures i >= 0 ==> rows[i].node.path == p
    ensures i < 0 ==> forall k :: 0 <= k < |rows| ==> rows[k].node.path != p
  {
    if rows == [] then -1
    else if rows[0].node.path == p then 0
    else
      var i := RowOf(rows[1..], p);
      if i < 0 then -1 else i + 1
  }

  /** `getTreeParentPath`, from a path's string. */
  function ParentOf(raw: string): Focus {
    var p := Normalize(raw);
    if p.None? then Throws
    else
      var ancestors := Ancestors(p.value);
      if ancestors == [] then Nowhere else At(ancestors[|ancestors| - 1])
  }

  /** `getFirstChildPath`, from a path's string. */
  function FirstChildOf(roots: seq<Node>, raw: string): Focus {
    var p := Normalize(raw);
    if p.None? then Throws
    else if p.value == [] then Nowhere
    else
      var n := Find(roots, p.value, 0);
      if n.Some? && n.value.Folder? && n.value.children != [] then At(n.value.children[0].path) else Nowhere
  }

  /** `getVisibleNavigationTarget`, from a canonical path. */
  function Navigate(roots: seq<Node>, expanded: set<Path>, current: Path, direction: Direction): Focus {
    match direction
    case ToParent => ParentOf(Join(current))
    case FirstChild => if current in expanded then FirstChildOf(roots, Join(current)) else Nowhere
    case _ =>
      var rows := Flattened(roots, expanded);
      var i := RowOf(rows, current);
      if i < 0 then Nowhere
      else
        var target := if direction.Previous? then i - 1 else i + 1;
        if 0 <= target < |rows| then At(rows[target].node.path) else Nowhere
  }

  lemma RowIsUnique(rows: seq<Row>, i: nat)
    requires DistinctRows(rows) && i < |rows|
    ensures RowOf(rows, rows[i].node.path) == i
  {
    var k := RowOf(rows, rows[i].node.path);
  }

  /** `next` and `previous` undo each other. */
  lemma NextUndoesPrevious(roots: seq<Node>, expanded: set<Path>, p: Path, q: Path)
    requires WellFormed(roots, [])
    ensures Navigate(roots, expanded, p, Next) == At(q) <==> Navigate(roots, expanded, q, Previous) == At(p)
  {
    var rows := Flattened(roots, expanded);
    RowsAreDistinct(roots, [], 0, |roots|, 0, None, expanded);
    hide Rows, WellFormed, Join, DistinctRows;
    var i, k := RowOf(rows, p), RowOf(rows, q);
    if Navigate(roots, expanded, p, Next) == At(q) {
      RowIsUnique(rows, i + 1);
    }
    if Navigate(roots, expanded, q, Previous) == At(p) {
      RowIsUnique(rows, k - 1);
    }
  }

  /** A node is found by its own path exactly when that path is stable. */
  lemma FindsItself(roots: seq<Node>, n: Node)
    requires WellFormed(roots, []) && n.path != [] && Canonical(n.path) && Find(roots, n.path, 0) == Some(n)
    ensures var q := Normalize(Join(n.path));
      (q.Some? && q.value != [] && Find(roots, q.value, 0) == Some(n)) <==> Stable(n.path)
  {
    NormalizeAgain(n.path);
    hide Normalize, Join, Stable;
    var q := Normalize(Join(n.path));
    if q.Some? && q.value != [] && Find(roots, q.value, 0) == Some(n) {
      FoundPath(roots, [], q.value, n);
    }
  }

  lemma {:induction false} FoundPath(nodes: seq<Node>, at: Path, p: Path, n: Node)
    requires WellFormed(nodes, at) && at < p && Find(nodes, p, |at|) == Some(n)
    ensures n.path == p
    decreases |p| - |at|
  {
    var m := nodes[IndexOf(nodes, p[..|at| + 1])];
    assert m in nodes;
    InPlace(nodes, at, m);
    if |p| > |at| + 1 {
      FoundPath(m.children, m.path, p, n);
    }
  }

  /**
   * On an expanded visible folder `first-child` is `next` exactly when the
   * folder's path is stable: `first-child` alone looks the path up again.
   */
  lemma FirstChildIsNext(roots: seq<Node>, expanded: set<Path>, n: Node)
    requires WellFormed(roots, []) && n.Folder? && n.path != [] && Canonical(n.path)
    requires Shown(Flattened(roots, expanded), n) && n.path in expanded
    ensures n.children != [] && Navigate(roots, expanded, n.path, Next) == At(n.children[0].path)
    ensures Navigate(roots, expanded, n.path, FirstChild) == Navigate(roots, expanded, n.path, Next) <==> Stable(n.path)
  {
    hide Rows, Shown, WellFormed, Canonical, Join, Normalize, Stable, Find;
    NextIsFirstChild(roots, expanded, n);
    VisibleIff(roots, [], 0, |roots|, 0, None, expanded, n);
    FindsItself(roots, n);
    FirstChildPaths(roots, n);
  }

  lemma NextIsFirstChild(roots: seq<Node>, expanded: set<Path>, n: Node)
    requires WellFormed(roots, []) && n.Folder? && n.path in expanded && Shown(Flattened(roots, expanded), n)
    ensures n.children != [] && Navigate(roots, expanded, n.path, Next) == At(n.children[0].path)
  {
    var rows := Flattened(roots, expanded);
    var k :| 0 <= k < |rows| && rows[k].node == n;
    hide Rows, Shown, WellFormed, DistinctRows;
    RowsAreDistinct(roots, [], 0, |roots|, 0, None, expanded);
    RowIsUnique(rows, k);
    FirstChildFollows(roots, [], 0, |roots|, 0, None, expanded, k);
  }

  /** Looking up another path never leads to this folder's first child. */
  lemma FirstChildPaths(roots: seq<Node>, n: Node)
    requires WellFormed(roots, []) && n.Folder? && n.path != [] && Find(roots, n.path, 0) == Some(n) && n.children != []
    ensures var q := Normalize(Join(n.path));
      FirstChildOf(roots, Join(n.path)) == At(n.children[0].path) <==>
        q.Some? && q.value != [] && Find(roots, q.value, 0) == Some(n)
  {
    hide Normalize, Join;
    FoundFolder(roots, [], n.path, n);
    var q := Normalize(Join(n.path));
    if q.Some? && q.value != [] {
      var m := Find(roots, q.value, 0);
      if m.Some? && m.value.Folder? {
        FoundPath(roots, [], q.value, m.value);
        FoundFolder(roots, [], q.value, m.value);
        if m.value.children[0].path == n.children[0].path {
          assert q.value == m.value.children[0].path[..|q.value|] == n.path;
        }
      }
    }
  }

  lemma {:induction false} FoundFolder(nodes: seq<Node>, at: Path, p: Path, n: Node)
    requires WellFormed(nodes, at) && at < p && Find(nodes, p, |at|) == Some(n) && n.Folder?
    ensures n.children != [] && n.children[0].path == p + [n.children[0].name]
    decreases |p| - |at|
  {
    var m := nodes[IndexOf(nodes, p[..|at| + 1])];
    assert m in nodes;
    InPlace(nodes, at, m);
    if |p| > |at| + 1 {
      FoundFolder(m.children, m.path, p, n);
    } else {
      assert m.children[0] in m.children;
      InPlace(m.children, m.path, m.children[0]);
    }
  }

  /** On a stable path `parent` is the path without its last segment. */
  lemma ParentIsPrefix(roots: seq<Node>, expanded: set<Path>, p: Path)
    requires Canonical(p) && Stable(p)
    ensures Navigate(roots, expanded, p, ToParent) == if |p| > 1 then At(p[..|p| - 1]) else Nowhere
  {
    NormalizeAgain(p);
    hide Normalize, Join, Stable;
  }
}
