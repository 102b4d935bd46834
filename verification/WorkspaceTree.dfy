/**
 * The workspace file tree.  Names are compared by a total order (the natural
 * collator, with code units breaking its ties); this module has the tree that a
 * flat map of paths stands for, and `WorkspaceBuilder` how it is built.
 */
module WorkspaceTree {
  import opened CompactionTypes
  import opened WorkspacePaths

  datatype Artifact = Artifact(path: string, content: string)

  datatype Node =
    | File(path: Path, name: string, artifact: Artifact)
    | Folder(path: Path, name: string, children: seq<Node>, count: nat)

  type NameOrder = (string, string) -> bool

  ghost predicate TotalOrder(le: NameOrder) {
    && (forall a: string, b: string :: le(a, b) || le(b, a))
    && (forall a: string, b: string :: le(a, b) && le(b, a) ==> a == b)
    && (forall a: string, b: string, c: string :: le(a, b) && le(b, c) ==> le(a, c))
  }

  /** `ROOT_FOLDER_ORDER`; every other folder ranks after these. */
  function Rank(name: string): nat {
    if name == "output" then 0
    else if name == "analysis" then 1
    else if name == "references" then 2
    else if name == "notes" then 3
    else 4
  }

  function FolderOrder(le: NameOrder, root: bool): NameOrder {
    if root then (a, b) => Rank(a) < Rank(b) || (Rank(a) == Rank(b) && le(a, b)) else le
  }

  lemma FolderOrderIsTotal(le: NameOrder, root: bool)
    requires TotalOrder(le)
    ensures TotalOrder(FolderOrder(le, root))
  {
    hide Rank;
  }

  // ------------------------------------------------------------------ sorting

  predicate IsLeast(m: string, names: set<string>, le: NameOrder) {
    m in names && forall n <- names :: le(m, n)
  }

  lemma {:induction false} LeastExists(names: set<string>, le: NameOrder)
    requires names != {} && TotalOrder(le)
    ensures exists m :: IsLeast(m, names, le)
    decreases |names|
  {
    var one :| one in names;
    var rest := names - {one};
    if rest == {} {
      assert names == {one};
      assert IsLeast(one, names, le);
    } else {
      LeastExists(rest, le);
      var m :| IsLeast(m, rest, le);
      assert IsLeast(if le(one, m) then one else m, names, le);
    }
  }

  function Least(names: set<string>, le: NameOrder): (m: string)
    requires names != {} && TotalOrder(le)
    ensures IsLeast(m, names, le)
  {
    LeastExists(names, le);
    var m :| m in names && IsLeast(m, names, le);
    m
  }

  function SortedNames(names: set<string>, le: NameOrder): (r: seq<string>)
    requires TotalOrder(le)
    ensures |r| == |names| && (forall n :: n in r <==> n in names)
    ensures forall i, k :: 0 <= i < k < |r| ==> r[i] != r[k] && le(r[i], r[k])
    decreases |names|
  {
    if names == {} then [] else var m := Least(names, le); [m] + SortedNames(names - {m}, le)
  }

  // ----------------------------------------------------------- the tree of a map

  function FolderNames(files: map<Path, Artifact>): set<string> {
    set p <- files.Keys | |p| >= 2 :: p[0]
  }

  function FileNames(files: map<Path, Artifact>): set<string> {
    set p <- files.Keys | |p| == 1 :: p[0]
  }

  /** What lies in a folder, by the rest of its path. */
  function Inside(files: map<Path, Artifact>, name: string): map<Path, Artifact> {
    var inner := set p <- files.Keys | |p| >= 2 && p[0] == name :: p[1..];
    InnerPaths(files, name);
    map q <- inner :: files[[name] + q]
  }

  lemma InnerPaths(files: map<Path, Artifact>, name: string)
    ensures forall q: Path :: q in (set p <- files.Keys | |p| >= 2 && p[0] == name :: p[1..])
                         <==> q != [] && [name] + q in files
  {
    var inner := set p <- files.Keys | |p| >= 2 && p[0] == name :: p[1..];
    forall q: Path ensures q in inner <==> q != [] && [name] + q in files {
      if q in inner {
        var p :| p in files && |p| >= 2 && p[0] == name && p[1..] == q;
        assert p == [name] + q;
      }
      if q != [] && [name] + q in files {
        assert ([name] + q)[1..] == q;
      }
    }
  }

  lemma InsideMeans(files: map<Path, Artifact>, name: string)
    ensures forall q: Path :: q in Inside(files, name) <==> q != [] && [name] + q in files
    ensures forall q <- Inside(files, name) :: Inside(files, name)[q] == files[[name] + q]
  {
    InnerPaths(files, name);
  }

  lemma NamesMean(files: map<Path, Artifact>, name: string)
    ensures name in FileNames(files) <==> [name] in files
    ensures name in FolderNames(files) <==> Inside(files, name) != map[]
  {
    InnerPaths(files, name);
    if name in FileNames(files) {
      var p :| p in files && |p| == 1 && p[0] == name;
      assert p == [name];
    }
    if [name] in files {
      assert [name][0] == name;
    }
    if name in FolderNames(files) {
      var p :| p in files && |p| >= 2 && p[0] == name;
      assert p == [name] + p[1..];
      assert p[1..] in Inside(files, name);
    }
    if q :| q in Inside(files, name) {
      assert ([name] + q)[0] == name;
    }
  }

  predicate Within(files: map<Path, Artifact>, bound: nat) {
    forall p <- files :: 1 <= |p| <= bound
  }

  /** No file's path is a folder of another's. */
  predicate NoConflict(files: map<Path, Artifact>) {
    forall p <- files, q <- files :: p <= q ==> p == q
  }

  function Count(nodes: seq<Node>): nat {
    if nodes == [] then 0 else (if nodes[0].File? then 1 else nodes[0].count) + Count(nodes[1..])
  }

  /** What a finished folder lists, from the files below it. */
  function Finalized(files: map<Path, Artifact>, at: Path, bound: nat, le: NameOrder, root: bool): seq<Node>
    requires TotalOrder(le) && Within(files, bound)
    decreases bound, 2
  {
    FolderOrderIsTotal(le, root);
    FolderNodes(files, at, SortedNames(FolderNames(files), FolderOrder(le, root)), bound, le)
    + FileNodes(files, at, SortedNames(FileNames(files), le))
  }

  function FolderNodes(files: map<Path, Artifact>, at: Path, names: seq<string>, bound: nat, le: NameOrder): (r: seq<Node>)
    requires TotalOrder(le) && Within(files, bound) && forall n <- names :: n in FolderNames(files)
    ensures |r| == |names| && forall i :: 0 <= i < |r| ==> r[i] == FolderNode(files, at, names[i], bound, le)
    decreases bound, 1
  {
    seq(|names|, i requires 0 <= i < |names| => FolderNode(files, at, names[i], bound, le))
  }

  function FileNodes(files: map<Path, Artifact>, at: Path, names: seq<string>): (r: seq<Node>)
    requires forall n <- names :: n in FileNames(files)
    ensures |r| == |names| && forall i :: 0 <= i < |r| ==> r[i] == FileNode(files, at, names[i])
  {
    seq(|names|, i requires 0 <= i < |names| => FileNode(files, at, names[i]))
  }

  function FileNode(files: map<Path, Artifact>, at: Path, name: string): Node
    requires name in FileNames(files)
  {
    NamesMean(files, name);
    File(at + [name], name, files[[name]])
  }

  function FolderNode(files: map<Path, Artifact>, at: Path, name: string, bound: nat, le: NameOrder): Node
    requires TotalOrder(le) && Within(files, bound) && name in FolderNames(files)
    decreases bound, 0
  {
    var children := Finalized(Inside(files, name), at + [name], bound - 1, le, false);
    Folder(at + [name], name, children, Count(children))
  }

  // -------------------------------------------------------------- well-formedness

  function Leaves(nodes: seq<Node>): seq<(Path, Artifact)> {
    if nodes == [] then [] else LeavesOf(nodes[0]) + Leaves(nodes[1..])
  }

  function LeavesOf(n: Node): seq<(Path, Artifact)> {
    match n
    case File(p, _, a) => [(p, a)]
    case Folder(_, _, children, _) => Leaves(children)
  }

  /** Folders first, then by name. */
  predicate Before(a: Node, b: Node, le: NameOrder, root: bool) {
    if a.Folder? != b.Folder? then a.Folder?
    else a.name != b.name && if a.Folder? then FolderOrder(le, root)(a.name, b.name) else le(a.name, b.name)
  }

  /** A tree of distinct names, with every path in its place, no empty folder and exact counts. */
  predicate WellFormed(nodes: seq<Node>, at: Path) {
    && (forall i, k :: 0 <= i < k < |nodes| ==> nodes[i].name != nodes[k].name)
    && forall i :: 0 <= i < |nodes| ==> WellFormedNode(nodes[i], at)
  }

  predicate WellFormedNode(n: Node, at: Path) {
    && n.path == at + [n.name]
    && (n.Folder? ==>
          n.children != [] && WellFormed(n.children, n.path) && n.count == |Leaves(n.children)|)
  }

  predicate SortedTree(nodes: seq<Node>, le: NameOrder, root: bool) {
    && (forall i, k :: 0 <= i < k < |nodes| ==> Before(nodes[i], nodes[k], le, root))
    && forall i :: 0 <= i < |nodes| && nodes[i].Folder? ==> SortedTree(nodes[i].children, le, false)
  }

  // --------------------------------------------------- the tree of a map is right

  predicate IsFolderOf(n: Node, files: map<Path, Artifact>, at: Path, bound: nat, le: NameOrder)
    requires TotalOrder(le) && Within(files, bound)
  {
    n.name in FolderNames(files) && n == FolderNode(files, at, n.name, bound, le)
  }

  predicate IsFileOf(n: Node, files: map<Path, Artifact>, at: Path) {
    n.name in FileNames(files) && n == FileNode(files, at, n.name)
  }

  lemma FinalizedParts(files: map<Path, Artifact>, at: Path, bound: nat, le: NameOrder, root: bool)
    returns (folders: seq<string>, names: seq<string>, left: seq<Node>, right: seq<Node>)
    requires TotalOrder(le) && Within(files, bound)
    ensures Finalized(files, at, bound, le, root) == left + right && |left| == |folders| && |right| == |names|
    ensures TotalOrder(FolderOrder(le, root)) && folders == SortedNames(FolderNames(files), FolderOrder(le, root))
    ensures names == SortedNames(FileNames(files), le)
    ensures forall n :: n in folders <==> n in FolderNames(files)
    ensures forall n :: n in names <==> n in FileNames(files)
    ensures forall i :: 0 <= i < |left| ==>
              folders[i] in FolderNames(files) && left[i] == FolderNode(files, at, folders[i], bound, le)
    ensures forall i :: 0 <= i < |right| ==> names[i] in FileNames(files) && right[i] == FileNode(files, at, names[i])
    ensures forall i, k :: 0 <= i < k < |folders| ==>
              folders[i] != folders[k] && FolderOrder(le, root)(folders[i], folders[k])
    ensures forall i, k :: 0 <= i < k < |names| ==> names[i] != names[k] && le(names[i], names[k])
  {
    FolderOrderIsTotal(le, root);
    folders := SortedNames(FolderNames(files), FolderOrder(le, root));
    names := SortedNames(FileNames(files), le);
    left, right := FolderNodes(files, at, folders, bound, le), FileNodes(files, at, names);
    hide FolderNames, FileNames, FolderOrder, FolderNode, FileNode, SortedNames, TotalOrder;
    forall i | 0 <= i < |folders| ensures folders[i] in FolderNames(files) {
      assert folders[i] in folders;
    }
    forall i | 0 <= i < |names| ensures names[i] in FileNames(files) {
      assert names[i] in names;
    }
  }

  /** Every node of a finalized folder is one of its folders or one of its files. */
  lemma FinalizedNode(files: map<Path, Artifact>, at: Path, bound: nat, le: NameOrder, root: bool, n: Node)
    requires TotalOrder(le) && Within(files, bound)
    ensures n in Finalized(files, at, bound, le, root) <==>
              IsFolderOf(n, files, at, bound, le) || IsFileOf(n, files, at)
  {
    hide Finalized, FolderNames, FileNames, FolderOrder, FolderNode, FileNode, TotalOrder, SortedNames, Within;
    var folders, names, left, right := FinalizedParts(files, at, bound, le, root);
    NodeNames(files, at, bound, le);
    if n in left {
      var i :| 0 <= i < |left| && left[i] == n;
    }
    if n in right {
      var i :| 0 <= i < |right| && right[i] == n;
    }
    if IsFolderOf(n, files, at, bound, le) {
      var i :| 0 <= i < |folders| && folders[i] == n.name;
      assert left[i] == n;
    }
    if IsFileOf(n, files, at) {
      var i :| 0 <= i < |names| && names[i] == n.name;
      assert right[i] == n;
    }
  }

  lemma NodeNames(files: map<Path, Artifact>, at: Path, bound: nat, le: NameOrder)
    requires TotalOrder(le) && Within(files, bound)
    ensures forall name <- FolderNames(files) :: FolderNode(files, at, name, bound, le).name == name
    ensures forall name <- FileNames(files) :: FileNode(files, at, name).name == name
  {
    hide FolderNames, FileNames, Finalized;
  }

  lemma {:induction false} LeavesMean(nodes: seq<Node>, leaf: (Path, Artifact))
    ensures leaf in Leaves(nodes) <==> exists n <- nodes :: leaf in LeavesOf(n)
  {
    hide LeavesOf;
    if nodes != [] {
      var first, rest := nodes[0], nodes[1..];
      LeavesMean(rest, leaf);
      assert nodes == [first] + rest;
      if leaf in LeavesOf(first) {
        assert first in nodes;
      }
      if n :| n in nodes && leaf in LeavesOf(n) {
        assert n == first || n in rest;
      }
    }
  }

  /** A path below `at`, and the file it names. */
  predicate Names(files: map<Path, Artifact>, at: Path, leaf: (Path, Artifact)) {
    at < leaf.0 && leaf.0[|at|..] in files && files[leaf.0[|at|..]] == leaf.1
  }

  lemma NamesInside(files: map<Path, Artifact>, at: Path, name: string, leaf: (Path, Artifact))
    ensures Names(Inside(files, name), at + [name], leaf) <==>
      Names(files, at, leaf) && |leaf.0| > |at| + 1 && leaf.0[|at|] == name
  {
    InsideMeans(files, name);
    hide Inside;
    var p := leaf.0;
    if at + [name] < p {
      assert p[|at|] == name && p[|at|..] == [name] + p[|at| + 1..];
    }
    if at < p && |p| > |at| + 1 && p[|at|] == name {
      assert p == at + p[|at|..] && p[|at|..] == [name] + p[|at| + 1..];
      assert p == (at + [name]) + p[|at| + 1..];
    }
  }

  /** The leaves of the tree are exactly the files of the map, each under its own path. */
  lemma {:induction false} FinalizedLeaves(files: map<Path, Artifact>, at: Path, bound: nat, le: NameOrder, root: bool,
                                           leaf: (Path, Artifact))
    requires TotalOrder(le) && Within(files, bound)
    ensures leaf in Leaves(Finalized(files, at, bound, le, root)) <==> Names(files, at, leaf)
    decreases bound
  {
    var nodes := Finalized(files, at, bound, le, root);
    LeavesMean(nodes, leaf);
    hide Finalized, Leaves, FolderNames, FileNames, Inside, FolderNode, FileNode, LeavesOf, TotalOrder;
    NodeNames(files, at, bound, le);
    if n :| n in nodes && leaf in LeavesOf(n) {
      FinalizedNode(files, at, bound, le, root, n);
      NodeLeaves(files, at, bound, le, n, leaf);
    }
    if Names(files, at, leaf) {
      var name := leaf.0[|at|];
      NamesMean(files, name);
      NamesInside(files, at, name, leaf);
      var n;
      if |leaf.0| == |at| + 1 {
        assert leaf.0[|at|..] == [name];
        n := FileNode(files, at, name);
      } else {
        InsideMeans(files, name);
        assert leaf.0[|at + [name]|..] in Inside(files, name);
        n := FolderNode(files, at, name, bound, le);
      }
      FinalizedNode(files, at, bound, le, root, n);
      NodeLeaves(files, at, bound, le, n, leaf);
    }
  }

  lemma {:induction false} NodeLeaves(files: map<Path, Artifact>, at: Path, bound: nat, le: NameOrder, n: Node,
                                      leaf: (Path, Artifact))
    requires TotalOrder(le) && Within(files, bound)
    requires IsFolderOf(n, files, at, bound, le) || IsFileOf(n, files, at)
    ensures leaf in LeavesOf(n) <==>
      Names(files, at, leaf) && leaf.0[|at|] == n.name && (|leaf.0| == |at| + 1 <==> n.File?)
    decreases bound, 0
  {
    hide Leaves, FolderNames, FileNames, Inside, Finalized;
    if n.Folder? {
      hide Names;
      InsideWithin(files, n.name, bound);
      FinalizedLeaves(Inside(files, n.name), at + [n.name], bound - 1, le, false, leaf);
      NamesInside(files, at, n.name, leaf);
      if Names(files, at, leaf) {
        NamesBelow(files, at, leaf);
      }
    } else {
      FileLeaf(files, at, n, leaf);
    }
  }

  lemma InsideWithin(files: map<Path, Artifact>, name: string, bound: nat)
    requires Within(files, bound) && name in FolderNames(files)
    ensures bound >= 2 && Within(Inside(files, name), bound - 1)
  {
    InsideMeans(files, name);
    forall q <- Inside(files, name) ensures 1 <= |q| <= bound - 1 {
      assert [name] + q in files;
    }
  }

  lemma NamesBelow(files: map<Path, Artifact>, at: Path, leaf: (Path, Artifact))
    requires Names(files, at, leaf)
    ensures |leaf.0| > |at|
  {
  }

  lemma FileLeaf(files: map<Path, Artifact>, at: Path, n: Node, leaf: (Path, Artifact))
    requires n.File? && IsFileOf(n, files, at)
    ensures leaf in LeavesOf(n) <==> Names(files, at, leaf) && leaf.0[|at|] == n.name && |leaf.0| == |at| + 1
  {
    NamesMean(files, n.name);
    hide FileNames, Inside, FolderNames;
    var p := leaf.0;
    assert (at + [n.name])[|at|..] == [n.name];
    if Names(files, at, leaf) && p[|at|] == n.name && |p| == |at| + 1 {
      assert p == at + p[|at|..] && p[|at|..] == [n.name];
    }
  }

  // ----------------------------------------------- distinct names, exact counts

  lemma InsideNoConflict(files: map<Path, Artifact>, name: string)
    requires NoConflict(files)
    ensures NoConflict(Inside(files, name))
  {
    InsideMeans(files, name);
    forall p <- Inside(files, name), q <- Inside(files, name) | p <= q ensures p == q {
      assert [name] + p in files && [name] + q in files && [name] + p <= [name] + q;
      assert ([name] + p)[1..] == p && ([name] + q)[1..] == q;
    }
  }

  /** A name is not both a folder and a file. */
  lemma NamesDiffer(files: map<Path, Artifact>, name: string)
    requires NoConflict(files)
    ensures name in FolderNames(files) ==> name !in FileNames(files)
  {
    NamesMean(files, name);
    InsideMeans(files, name);
    hide FolderNames, FileNames;
    if name in FolderNames(files) {
      var q :| q in Inside(files, name);
      assert [name] <= [name] + q && [name] != [name] + q;
    }
  }

  lemma {:induction false} CountIsLeaves(nodes: seq<Node>)
    requires forall i :: 0 <= i < |nodes| && nodes[i].Folder? ==> nodes[i].count == |Leaves(nodes[i].children)|
    ensures Count(nodes) == |Leaves(nodes)|
  {
    if nodes != [] {
      CountIsLeaves(nodes[1..]);
    }
  }

  lemma SiblingOrder(left: seq<Node>, right: seq<Node>, folders: seq<string>, names: seq<string>,
                     le: NameOrder, root: bool, i: nat, k: nat)
    requires |left| == |folders| && |right| == |names| && i < k < |left + right|
    requires forall m :: 0 <= m < |left| ==> left[m].Folder? && left[m].name == folders[m]
    requires forall m :: 0 <= m < |right| ==> right[m].File? && right[m].name == names[m]
    requires forall a, b :: 0 <= a < b < |folders| ==> folders[a] != folders[b] && FolderOrder(le, root)(folders[a], folders[b])
    requires forall a, b :: 0 <= a < b < |names| ==> names[a] != names[b] && le(names[a], names[b])
    ensures Before((left + right)[i], (left + right)[k], le, root)
    ensures (forall n <- folders :: n !in names) ==> (left + right)[i].name != (left + right)[k].name
  {
    hide FolderOrder;
    if i < |left| && k >= |left| {
      assert folders[i] in folders && names[k - |left|] in names;
    }
  }

  /** The siblings of a finalized folder, in the order of the collator and of `ROOT_FOLDER_ORDER`. */
  lemma FinalizedOrder(files: map<Path, Artifact>, at: Path, bound: nat, le: NameOrder, root: bool, i: nat, k: nat)
    requires TotalOrder(le) && Within(files, bound) && NoConflict(files)
    requires i < k < |Finalized(files, at, bound, le, root)|
    ensures var nodes := Finalized(files, at, bound, le, root);
      nodes[i].name != nodes[k].name && Before(nodes[i], nodes[k], le, root)
  {
    hide Finalized, FolderNames, FileNames, FolderOrder, FolderNode, FileNode, Before, TotalOrder;
    var folders, names, left, right := FinalizedParts(files, at, bound, le, root);
    KindsAndNames(files, at, bound, le);
    forall n <- folders ensures n !in names {
      NamesDiffer(files, n);
    }
    SiblingOrder(left, right, folders, names, le, root, i, k);
  }

  lemma KindsAndNames(files: map<Path, Artifact>, at: Path, bound: nat, le: NameOrder)
    requires TotalOrder(le) && Within(files, bound)
    ensures forall name <- FolderNames(files) ::
      FolderNode(files, at, name, bound, le).Folder? && FolderNode(files, at, name, bound, le).name == name
    ensures forall name <- FileNames(files) :: FileNode(files, at, name).File? && FileNode(files, at, name).name == name
  {
    hide FolderNames, FileNames, Finalized;
  }

  /** A finalized folder is sorted, well-formed, and has the exact number of files below each folder. */
  lemma {:induction false} FinalizedIsWellFormed(files: map<Path, Artifact>, at: Path, bound: nat, le: NameOrder,
                                                 root: bool)
    requires TotalOrder(le) && Within(files, bound) && NoConflict(files)
    ensures WellFormed(Finalized(files, at, bound, le, root), at)
    ensures SortedTree(Finalized(files, at, bound, le, root), le, root)
    ensures files != map[] ==> Finalized(files, at, bound, le, root) != []
    decreases bound
  {
    var nodes := Finalized(files, at, bound, le, root);
    hide Finalized, FolderNames, FileNames, Inside, Before, FolderOrder, FolderNode, FileNode, IsFolderOf, IsFileOf;
    hide Leaves;
    hide NoConflict, Names, TotalOrder;
    forall i, k | 0 <= i < k < |nodes|
      ensures nodes[i].name != nodes[k].name && Before(nodes[i], nodes[k], le, root)
    {
      FinalizedOrder(files, at, bound, le, root, i, k);
    }
    forall i | 0 <= i < |nodes|
      ensures WellFormedNode(nodes[i], at) && (nodes[i].Folder? ==> SortedTree(nodes[i].children, le, false))
    {
      FinalizedNode(files, at, bound, le, root, nodes[i]);
      NodeIsWellFormed(files, at, bound, le, nodes[i]);
    }
    if files != map[] {
      FinalizedIsNotEmpty(files, at, bound, le, root);
    }
  }

  lemma FinalizedIsNotEmpty(files: map<Path, Artifact>, at: Path, bound: nat, le: NameOrder, root: bool)
    requires TotalOrder(le) && Within(files, bound) && files != map[]
    ensures Finalized(files, at, bound, le, root) != []
  {
    hide Finalized, TotalOrder;
    var p :| p in files;
    assert (at + p)[|at|..] == p && Names(files, at, (at + p, files[p]));
    FinalizedLeaves(files, at, bound, le, root, (at + p, files[p]));
  }

  lemma {:induction false} NodeIsWellFormed(files: map<Path, Artifact>, at: Path, bound: nat, le: NameOrder, n: Node)
    requires TotalOrder(le) && Within(files, bound) && NoConflict(files)
    requires IsFolderOf(n, files, at, bound, le) || IsFileOf(n, files, at)
    ensures WellFormedNode(n, at) && (n.Folder? ==> SortedTree(n.children, le, false))
    decreases bound, 0
  {
    hide FolderNames, FileNames, Inside, Finalized, SortedTree;
    if n.Folder? {
      InsideWithin(files, n.name, bound);
      InsideNoConflict(files, n.name);
      NamesMean(files, n.name);
      FinalizedIsWellFormed(Inside(files, n.name), at + [n.name], bound - 1, le, false);
      CountIsLeaves(n.children);
    }
  }

  // ------------------------------------------------------------- distinct leaves

  predicate DistinctPaths(leaves: seq<(Path, Artifact)>) {
    forall i, k :: 0 <= i < k < |leaves| ==> leaves[i].0 != leaves[k].0
  }

  lemma {:induction false} LeavesBelow(nodes: seq<Node>, at: Path, leaf: (Path, Artifact))
    requires WellFormed(nodes, at) && leaf in Leaves(nodes)
    ensures at < leaf.0 && exists n <- nodes :: n.name == leaf.0[|at|]
  {
    LeavesMean(nodes, leaf);
    hide Leaves;
    var n :| n in nodes && leaf in LeavesOf(n);
    if n.Folder? {
      LeavesBelow(n.children, n.path, leaf);
    }
  }

  /** No path is listed twice. */
  lemma {:induction false} LeavesAreDistinct(nodes: seq<Node>, at: Path)
    requires WellFormed(nodes, at)
    ensures DistinctPaths(Leaves(nodes))
  {
    if nodes != [] {
      var n, rest := nodes[0], nodes[1..];
      LeavesAreDistinct(rest, at);
      if n.Folder? {
        LeavesAreDistinct(n.children, n.path);
      }
      forall x, y | x in LeavesOf(n) && y in Leaves(rest) ensures x.0 != y.0 {
        LeavesBelow(rest, at, y);
        if n.Folder? {
          LeavesBelow(n.children, n.path, x);
        }
      }
      ConcatIsDistinct(LeavesOf(n), Leaves(rest));
    }
  }

  lemma ConcatIsDistinct(xs: seq<(Path, Artifact)>, ys: seq<(Path, Artifact)>)
    requires DistinctPaths(xs) && DistinctPaths(ys) && forall x, y :: x in xs && y in ys ==> x.0 != y.0
    ensures DistinctPaths(xs + ys)
  {
    var all := xs + ys;
    forall i, k | 0 <= i < k < |all| ensures all[i].0 != all[k].0 {
      if i < |xs| && k >= |xs| {
        assert all[i] in xs && all[k] in ys;
      }
    }
  }

  // ------------------------------------------------------------------ building

  ghost function Longest(paths: set<Path>): (bound: nat)
    ensures forall p <- paths :: |p| <= bound
    decreases |paths|
  {
    if paths == {} then 0
    else
      var p :| p in paths;
      var rest := Longest(paths - {p});
      if |p| > rest then |p| else rest
  }

  /** The tree that a map of canonical paths stands for. */
  ghost function TreeOf(files: map<Path, Artifact>, le: NameOrder): seq<Node>
    requires TotalOrder(le) && forall p <- files :: p != []
  {
    Finalized(files, [], Longest(files.Keys), le, true)
  }

  /**
   * The tree lists exactly the files of the map, once each and under their own
   * paths; folders are non-empty, count the files below them and precede files,
   * and siblings follow the collator.
   */
  lemma TreeIsExact(files: map<Path, Artifact>, le: NameOrder)
    requires TotalOrder(le) && NoConflict(files) && forall p <- files :: p != []
    ensures WellFormed(TreeOf(files, le), []) && SortedTree(TreeOf(files, le), le, true)
    ensures DistinctPaths(Leaves(TreeOf(files, le)))
    ensures forall p: Path, a: Artifact :: (p, a) in Leaves(TreeOf(files, le)) <==> p in files && files[p] == a
  {
    var bound := Longest(files.Keys);
    FinalizedIsWellFormed(files, [], bound, le, true);
    LeavesAreDistinct(TreeOf(files, le), []);
    hide Finalized, WellFormed, SortedTree, Leaves, DistinctPaths, TotalOrder;
    forall p: Path, a: Artifact ensures (p, a) in Leaves(TreeOf(files, le)) <==> p in files && files[p] == a {
      FinalizedLeaves(files, [], bound, le, true, (p, a));
      assert p[0..] == p;
    }
  }

  predicate AllValid(artifacts: seq<Artifact>) {
    forall a <- artifacts :: Normalize(a.path).Some?
  }

  function Canonicalized(a: Artifact): Artifact
    requires Normalize(a.path).Some?
  {
    a.(path := Join(Normalize(a.path).value))
  }

  /** The last artifact of each canonical path. */
  function CanonicalMap(artifacts: seq<Artifact>): map<Path, Artifact>
    requires AllValid(artifacts)
  {
    if artifacts == [] then map[]
    else
      var last := artifacts[|artifacts| - 1];
      CanonicalMap(artifacts[..|artifacts| - 1])[Normalize(last.path).value := Canonicalized(last)]
  }

  lemma {:induction false} CanonicalKeys(artifacts: seq<Artifact>)
    requires AllValid(artifacts)
    ensures forall p <- CanonicalMap(artifacts) :: Canonical(p)
  {
    if artifacts != [] {
      CanonicalKeys(artifacts[..|artifacts| - 1]);
      NormalizeIsCanonical(artifacts[|artifacts| - 1].path);
      hide Normalize;
    }
  }

  /** Artifacts at one canonical path do not differ. */
  predicate Agree(artifacts: seq<Artifact>)
    requires AllValid(artifacts)
  {
    forall a, b :: a in artifacts && b in artifacts && Normalize(a.path) == Normalize(b.path) ==>
      Canonicalized(a) == Canonicalized(b)
  }

  lemma {:induction false} CanonicalMapMeans(artifacts: seq<Artifact>, p: Path)
    requires AllValid(artifacts) && Agree(artifacts)
    ensures p in CanonicalMap(artifacts) <==> exists a <- artifacts :: Normalize(a.path) == Some(p)
    ensures forall a <- artifacts :: Normalize(a.path) == Some(p) ==>
              p in CanonicalMap(artifacts) && CanonicalMap(artifacts)[p] == Canonicalized(a)
  {
    hide Normalize, Canonicalized;
    if artifacts != [] {
      var front, last := artifacts[..|artifacts| - 1], artifacts[|artifacts| - 1];
      assert artifacts == front + [last];
      assert last in artifacts && forall a <- front :: a in artifacts;
      CanonicalMapMeans(front, p);
      if p in CanonicalMap(front) {
        var a :| a in front && Normalize(a.path) == Some(p);
        assert a in artifacts;
      }
    }
  }

  /** The order of the artifacts does not matter when no two at one path differ; otherwise the last one counts. */
  lemma OrderIrrelevant(artifacts: seq<Artifact>, shuffled: seq<Artifact>)
    requires AllValid(artifacts) && Agree(artifacts) && forall a :: a in artifacts <==> a in shuffled
    ensures AllValid(shuffled) && CanonicalMap(artifacts) == CanonicalMap(shuffled)
  {
    hide Normalize, Canonicalized, CanonicalMap;
    forall p: Path
      ensures p in CanonicalMap(artifacts) <==> p in CanonicalMap(shuffled)
      ensures p in CanonicalMap(artifacts) ==> CanonicalMap(artifacts)[p] == CanonicalMap(shuffled)[p]
    {
      CanonicalMapMeans(artifacts, p);
      CanonicalMapMeans(shuffled, p);
    }
  }

  // --------------------------------------------------------------- order of input

  /** A node without what its files contain. */
  function ShapeOf(n: Node): Node {
    match n
    case File(p, name, _) => File(p, name, Artifact("", ""))
    case Folder(p, name, children, count) => Folder(p, name, Shape(children), count)
  }

  function Shape(nodes: seq<Node>): (r: seq<Node>)
    ensures |r| == |nodes| && forall i :: 0 <= i < |r| ==> r[i] == ShapeOf(nodes[i])
  {
    if nodes == [] then [] else [ShapeOf(nodes[0])] + Shape(nodes[1..])
  }

  lemma {:induction false} SameShapeSameCount(xs: seq<Node>, ys: seq<Node>)
    requires Shape(xs) == Shape(ys)
    ensures Count(xs) == Count(ys)
  {
    if xs != [] {
      assert ShapeOf(xs[0]) == Shape(xs)[0] == ShapeOf(ys[0]);
      assert Shape(xs[1..]) == Shape(xs)[1..] == Shape(ys[1..]);
      SameShapeSameCount(xs[1..], ys[1..]);
    }
  }

  lemma ShapesMatch(xs: seq<Node>, ys: seq<Node>)
    requires |xs| == |ys| && forall i :: 0 <= i < |xs| ==> ShapeOf(xs[i]) == ShapeOf(ys[i])
    ensures Shape(xs) == Shape(ys)
  {
    hide ShapeOf;
  }

  /** Which paths there are decides the whole tree but its files' contents. */
  lemma {:induction false} KeysDecideShape(files: map<Path, Artifact>, other: map<Path, Artifact>, at: Path, bound: nat,
                                           le: NameOrder, root: bool)
    requires TotalOrder(le) && Within(files, bound) && Within(other, bound) && files.Keys == other.Keys
    ensures Shape(Finalized(files, at, bound, le, root)) == Shape(Finalized(other, at, bound, le, root))
    decreases bound
  {
    hide Finalized, FolderNames, FileNames, FolderNode, FileNode, SortedNames, FolderOrder, TotalOrder, ShapeOf, Shape;
    hide Within;
    SameNames(files, other);
    var folders, names, left, right := FinalizedParts(files, at, bound, le, root);
    var folders', names', left', right' := FinalizedParts(other, at, bound, le, root);
    var xs, ys := left + right, left' + right';
    forall i | 0 <= i < |xs| ensures ShapeOf(xs[i]) == ShapeOf(ys[i]) {
      if i < |folders| {
        KeysDecideFolder(files, other, at, folders[i], bound, le);
      } else {
        FileShape(files, other, at, names[i - |folders|]);
      }
    }
    ShapesMatch(xs, ys);
  }

  lemma SameNames(files: map<Path, Artifact>, other: map<Path, Artifact>)
    requires files.Keys == other.Keys
    ensures FolderNames(files) == FolderNames(other) && FileNames(files) == FileNames(other)
  {
  }

  lemma FileShape(files: map<Path, Artifact>, other: map<Path, Artifact>, at: Path, name: string)
    requires name in FileNames(files) && name in FileNames(other)
    ensures ShapeOf(FileNode(files, at, name)) == ShapeOf(FileNode(other, at, name))
  {
    hide FileNames;
  }

  lemma {:induction false} KeysDecideFolder(files: map<Path, Artifact>, other: map<Path, Artifact>, at: Path, name: string,
                                            bound: nat, le: NameOrder)
    requires TotalOrder(le) && Within(files, bound) && Within(other, bound) && files.Keys == other.Keys
    requires name in FolderNames(files) && name in FolderNames(other)
    ensures ShapeOf(FolderNode(files, at, name, bound, le)) == ShapeOf(FolderNode(other, at, name, bound, le))
    decreases bound, 0
  {
    hide FolderNames, Finalized, Inside, TotalOrder, Shape, ShapeOf, FolderNode, Count, Within;
    InsideWithin(files, name, bound);
    InsideWithin(other, name, bound);
    SameInside(files, other, name);
    FolderShape(files, at, name, bound, le);
    FolderShape(other, at, name, bound, le);
    KeysDecideShape(Inside(files, name), Inside(other, name), at + [name], bound - 1, le, false);
    SameShapeSameCount(Finalized(Inside(files, name), at + [name], bound - 1, le, false),
                       Finalized(Inside(other, name), at + [name], bound - 1, le, false));
  }

  lemma FolderShape(files: map<Path, Artifact>, at: Path, name: string, bound: nat, le: NameOrder)
    requires TotalOrder(le) && Within(files, bound) && name in FolderNames(files)
    ensures bound >= 1 && Within(Inside(files, name), bound - 1)
    ensures var children := Finalized(Inside(files, name), at + [name], bound - 1, le, false);
      ShapeOf(FolderNode(files, at, name, bound, le)) == Folder(at + [name], name, Shape(children), Count(children))
  {
    InsideWithin(files, name, bound);
    hide FolderNames, Finalized, Inside, TotalOrder, Shape;
  }

  lemma SameInside(files: map<Path, Artifact>, other: map<Path, Artifact>, name: string)
    requires files.Keys == other.Keys
    ensures Inside(files, name).Keys == Inside(other, name).Keys
  {
    InsideMeans(files, name);
    InsideMeans(other, name);
    hide Inside;
    assert forall q: Path :: [name] + q in files <==> [name] + q in other;
  }

  lemma {:induction false} CanonicalPathsMean(artifacts: seq<Artifact>, p: Path)
    requires AllValid(artifacts)
    ensures p in CanonicalMap(artifacts) <==> exists a <- artifacts :: Normalize(a.path) == Some(p)
  {
    hide Normalize, Canonicalized;
    if artifacts != [] {
      var front, last := artifacts[..|artifacts| - 1], artifacts[|artifacts| - 1];
      assert artifacts == front + [last];
      assert last in artifacts && forall a <- front :: a in artifacts;
      CanonicalPathsMean(front, p);
    }
  }
}
