/**
 * How the workspace tree is built: the artifacts are inserted, in their order,
 * into nested folders whose maps remember insertion order, and each folder's
 * children are then sorted.  The result is the tree of the map of paths.
 */
module WorkspaceBuilder {
  import opened CompactionTypes
  import opened WorkspacePaths
  import opened WorkspaceTree

  // ------------------------------------------------- maps in insertion order

  /** A `Map`, by its entries in the order of their insertion. */
  type Entries<K, V> = seq<(K, V)>

  /** `Map.set`: a key that is present keeps its place. */
  function Put<K(==), V>(m: Entries<K, V>, k: K, v: V): Entries<K, V> {
    if m == [] then [(k, v)]
    else if m[0].0 == k then [(k, v)] + m[1..]
    else [m[0]] + Put(m[1..], k, v)
  }

  function Get<K(==), V>(m: Entries<K, V>, k: K): Option<V> {
    if m == [] then None else if m[0].0 == k then Some(m[0].1) else Get(m[1..], k)
  }

  predicate DistinctKeys<K(==), V>(m: Entries<K, V>) {
    forall i, j :: 0 <= i < j < |m| ==> m[i].0 != m[j].0
  }

  lemma {:induction false} GetMeans<K, V>(m: Entries<K, V>, k: K, v: V)
    requires DistinctKeys(m)
    ensures Get(m, k) == Some(v) <==> (k, v) in m
  {
    if m != [] {
      GetMeans(m[1..], k, v);
      assert m == [m[0]] + m[1..];
      if (k, v) in m[1..] {
        var i :| 0 <= i < |m[1..]| && m[1..][i] == (k, v);
        assert m[i + 1].0 == k;
      }
    }
  }

  lemma {:induction false} PutMeans<K, V>(m: Entries<K, V>, k: K, v: V, j: K, w: V)
    requires DistinctKeys(m)
    ensures (j, w) in Put(m, k, v) <==> if j == k then w == v else (j, w) in m
  {
    if m != [] {
      var rest := m[1..];
      PutMeans(rest, k, v, j, w);
      assert m == [m[0]] + rest;
      if m[0].0 == k && (j, w) in rest {
        var i :| 0 <= i < |rest| && rest[i] == (j, w);
        assert m[i + 1].0 == j;
      }
    }
  }

  lemma {:induction false} PutIsDistinct<K, V>(m: Entries<K, V>, k: K, v: V)
    requires DistinctKeys(m)
    ensures DistinctKeys(Put(m, k, v))
  {
    if m != [] && m[0].0 != k {
      var rest := m[1..];
      PutIsDistinct(rest, k, v);
      var more := Put(rest, k, v);
      forall i | 0 <= i < |more| ensures more[i].0 != m[0].0 {
        assert (more[i].0, more[i].1) in more;
        PutMeans(rest, k, v, more[i].0, more[i].1);
        if more[i] in rest {
          var n :| 0 <= n < |rest| && rest[n] == more[i];
          assert m[n + 1].0 == more[i].0;
        }
      }
    }
  }

  // --------------------------------------------------------- nested insertion

  /** `MutableFolderNode`. */
  datatype Draft = Draft(path: Path, name: string, folders: Entries<string, Draft>, files: Entries<string, Node>)

  const EMPTY_ROOT := Draft([], "", [], [])

  /** The child folder of that name, made if it is missing. */
  function Child(d: Draft, name: string): Draft {
    var found := Get(d.folders, name);
    if found.Some? then found.value else Draft(d.path + [name], name, [], [])
  }

  /** One artifact walks down its segments and is set as a file of the last folder. */
  function Insert(d: Draft, segments: Path, f: Node): Draft
    requires segments != []
    decreases |segments|
  {
    var name := segments[0];
    if |segments| == 1 then d.(files := Put(d.files, name, f))
    else d.(folders := Put(d.folders, name, Insert(Child(d, name), segments[1..], f)))
  }

  function FileAt(at: Path, name: string, a: Artifact): Node {
    File(at + [name], name, a)
  }

  function Leaf(p: Path, a: Artifact): Node
    requires p != []
  {
    FileAt(p[..|p| - 1], p[|p| - 1], a)
  }

  /** The draft of all entries, inserted one after the other. */
  function Inserted(entries: Entries<Path, Artifact>): Draft
    requires forall e <- entries :: e.0 != []
    decreases |entries|
  {
    if entries == [] then EMPTY_ROOT
    else
      var (p, a) := entries[|entries| - 1];
      Insert(Inserted(entries[..|entries| - 1]), p, Leaf(p, a))
  }

  // ------------------------------------------------------------ finalization

  /** Insertion by the comparator, as `sort` leaves it. */
  function Placed(sorted: seq<Node>, n: Node, le: NameOrder, root: bool): seq<Node> {
    if sorted == [] then [n]
    else if Before(n, sorted[0], le, root) then [n] + sorted
    else [sorted[0]] + Placed(sorted[1..], n, le, root)
  }

  function Sorted(nodes: seq<Node>, le: NameOrder, root: bool): seq<Node> {
    if nodes == [] then []
    else Placed(Sorted(nodes[..|nodes| - 1], le, root), nodes[|nodes| - 1], le, root)
  }

  /** `finalizeFolder`. */
  function Finish(d: Draft, le: NameOrder): Node
    decreases d, 1
  {
    var children := Children(d, le, false);
    Folder(d.path, d.name, children, Count(children))
  }

  /** The finished folders, then the files, and then sorted. */
  function Children(d: Draft, le: NameOrder, root: bool): seq<Node>
    decreases d, 0
  {
    Sorted(FinishAll(d.folders, le) + Values(d.files), le, root)
  }

  function FinishAll(folders: Entries<string, Draft>, le: NameOrder): seq<Node>
    decreases folders
  {
    if folders == [] then []
    else
      var first := folders[0];
      assert first.1 < first;
      [Finish(first.1, le)] + FinishAll(folders[1..], le)
  }

  function Values<K, V>(m: Entries<K, V>): (r: seq<V>)
    ensures |r| == |m| && forall i :: 0 <= i < |r| ==> r[i] == m[i].1
  {
    if m == [] then [] else [m[0].1] + Values(m[1..])
  }

  lemma {:induction false} FinishAllMeans(folders: Entries<string, Draft>, le: NameOrder)
    ensures |FinishAll(folders, le)| == |folders|
    ensures forall i :: 0 <= i < |folders| ==> FinishAll(folders, le)[i] == Finish(folders[i].1, le)
  {
    hide Finish;
    if folders != [] {
      FinishAllMeans(folders[1..], le);
    }
  }

  // ----------------------------------------------------- a draft is its files

  /** The draft holds exactly these files, every one in the folder its path names. */
  ghost predicate Represents(d: Draft, files: map<Path, Artifact>, at: Path)
    decreases d
  {
    && d.path == at && DistinctKeys(d.folders) && DistinctKeys(d.files)
    && HoldsFiles(d, files, at) && HasFolders(d, files)
    && forall i :: 0 <= i < |d.folders| ==> HoldsFolder(d.folders[i], files, at)
  }

  ghost predicate HoldsFiles(d: Draft, files: map<Path, Artifact>, at: Path) {
    forall name: string, f: Node :: (name, f) in d.files <==> [name] in files && f == FileAt(at, name, files[[name]])
  }

  predicate HasFolders(d: Draft, files: map<Path, Artifact>) {
    forall name <- FolderNames(files) :: Get(d.folders, name).Some?
  }

  ghost predicate HoldsFolder(e: (string, Draft), files: map<Path, Artifact>, at: Path)
    decreases e
  {
    && e.0 in FolderNames(files) && e.1.name == e.0
    && Represents(e.1, Inside(files, e.0), at + [e.0])
  }

  lemma FileAdded(files: map<Path, Artifact>, name: string, a: Artifact)
    ensures var more := files[[name] := a];
      FolderNames(more) == FolderNames(files) && forall n: string :: Inside(more, n) == Inside(files, n)
  {
    var more := files[[name] := a];
    forall n: string ensures Inside(more, n) == Inside(files, n) {
      InsideMeans(files, n);
      InsideMeans(more, n);
      hide Inside;
      assert forall q: Path :: q != [] ==> [n] + q != [name];
    }
  }

  lemma PathAdded(files: map<Path, Artifact>, p: Path, a: Artifact, n: string)
    requires |p| >= 2
    ensures var more := files[p := a];
      && FolderNames(more) == FolderNames(files) + {p[0]}
      && Inside(more, n) == (if n == p[0] then Inside(files, n)[p[1..] := a] else Inside(files, n))
  {
    var more := files[p := a];
    InsideMeans(files, n);
    InsideMeans(more, n);
    assert p == [p[0]] + p[1..];
    assert FolderNames(more) == FolderNames(files) + {p[0]} by {
      assert forall q <- more.Keys :: q in files.Keys || q == p;
    }
    hide Inside, FolderNames;
    assert forall q: Path :: [n] + q == p <==> n == p[0] && q == p[1..] by {
      forall q: Path ensures [n] + q == p <==> n == p[0] && q == p[1..] {
        assert ([n] + q)[0] == n && ([n] + q)[1..] == q;
      }
    }
  }

  lemma ChildHolds(d: Draft, files: map<Path, Artifact>, at: Path, name: string)
    requires Represents(d, files, at)
    ensures Represents(Child(d, name), Inside(files, name), at + [name]) && Child(d, name).name == name
  {
    var found := Get(d.folders, name);
    if found.Some? {
      GetMeans(d.folders, name, found.value);
      var i :| 0 <= i < |d.folders| && d.folders[i] == (name, found.value);
      assert HoldsFolder(d.folders[i], files, at);
    } else {
      NamesMean(files, name);
      assert Inside(files, name) == map[];
      assert FolderNames(map[]) == {};
    }
  }

  lemma FilePut(d: Draft, files: map<Path, Artifact>, at: Path, name: string, a: Artifact)
    requires Represents(d, files, at)
    ensures Represents(d.(files := Put(d.files, name, FileAt(at, name, a))), files[[name] := a], at)
  {
    var f, more := FileAt(at, name, a), files[[name] := a];
    var e := d.(files := Put(d.files, name, f));
    FileAdded(files, name, a);
    PutIsDistinct(d.files, name, f);
    hide FolderNames, Inside, Put, Get, DistinctKeys;
    forall n: string, g: Node ensures (n, g) in e.files <==> [n] in more && g == FileAt(at, n, more[[n]]) {
      assert DistinctKeys(d.files);
      PutMeans(d.files, name, f, n, g);
      assert [n] == [name] <==> n == name by { assert [n][0] == n && [name][0] == name; }
    }
    forall i | 0 <= i < |e.folders| ensures HoldsFolder(e.folders[i], more, at) {
      assert HoldsFolder(d.folders[i], files, at);
    }
  }

  lemma FolderPut(d: Draft, files: map<Path, Artifact>, at: Path, p: Path, a: Artifact, child: Draft)
    requires Represents(d, files, at) && |p| >= 2 && child.name == p[0]
    requires Represents(child, Inside(files, p[0])[p[1..] := a], at + [p[0]])
    ensures Represents(d.(folders := Put(d.folders, p[0], child)), files[p := a], at)
  {
    var name, more := p[0], files[p := a];
    var e := d.(folders := Put(d.folders, name, child));
    hide Inside, Put, Get, DistinctKeys, HoldsFolder, HasFolders, HoldsFiles, FolderNames;
    assert DistinctKeys(d.folders);
    PutIsDistinct(d.folders, name, child);
    FoldersStayFound(d, files, p, a, child);
    FilesStayHeld(d, files, at, p, a, child);
    forall i | 0 <= i < |e.folders| ensures HoldsFolder(e.folders[i], more, at) {
      hide Represents;
      assert e.folders[i] in e.folders;
      FolderStaysHeld(d, files, at, p, a, child, e.folders[i].0, e.folders[i].1);
    }
  }

  lemma FoldersStayFound(d: Draft, files: map<Path, Artifact>, p: Path, a: Artifact, child: Draft)
    requires DistinctKeys(d.folders) && HasFolders(d, files) && |p| >= 2
    ensures HasFolders(d.(folders := Put(d.folders, p[0], child)), files[p := a])
  {
    PathAdded(files, p, a, p[0]);
    hide FolderNames, Inside, Put, Get, DistinctKeys;
    forall n <- FolderNames(files[p := a]) ensures Get(Put(d.folders, p[0], child), n).Some? {
      StillThere(d.folders, p[0], child, n);
    }
  }

  lemma FilesStayHeld(d: Draft, files: map<Path, Artifact>, at: Path, p: Path, a: Artifact, child: Draft)
    requires HoldsFiles(d, files, at) && |p| >= 2
    ensures HoldsFiles(d.(folders := Put(d.folders, p[0], child)), files[p := a], at)
  {
    hide Put;
  }

  lemma FolderStaysHeld(d: Draft, files: map<Path, Artifact>, at: Path, p: Path, a: Artifact, child: Draft,
                        n: string, c: Draft)
    requires Represents(d, files, at) && |p| >= 2 && child.name == p[0]
    requires Represents(child, Inside(files, p[0])[p[1..] := a], at + [p[0]])
    requires (n, c) in Put(d.folders, p[0], child)
    ensures HoldsFolder((n, c), files[p := a], at)
  {
    assert DistinctKeys(d.folders);
    PutMeans(d.folders, p[0], child, n, c);
    PathAdded(files, p, a, n);
    hide FolderNames, Inside, Put, Get, DistinctKeys;
    if n != p[0] {
      var k :| 0 <= k < |d.folders| && d.folders[k] == (n, c);
      assert HoldsFolder(d.folders[k], files, at);
    }
  }

  lemma StillThere<V>(m: Entries<string, V>, k: string, v: V, n: string)
    requires DistinctKeys(m) && (n == k || Get(m, n).Some?)
    ensures Get(Put(m, k, v), n).Some?
  {
    PutIsDistinct(m, k, v);
    hide Get, Put, DistinctKeys;
    if n == k {
      PutMeans(m, k, v, k, v);
      GetMeans(Put(m, k, v), k, v);
    } else {
      var w := Get(m, n).value;
      GetMeans(m, n, w);
      PutMeans(m, k, v, n, w);
      GetMeans(Put(m, k, v), n, w);
    }
  }

  /** Inserting one file adds it to what the draft holds, and takes the place of one at the same path. */
  lemma {:induction false} InsertHolds(d: Draft, files: map<Path, Artifact>, at: Path, segments: Path, a: Artifact)
    requires Represents(d, files, at) && segments != []
    ensures var e := Insert(d, segments, Leaf(at + segments, a));
      Represents(e, files[segments := a], at) && e.name == d.name
    decreases |segments|
  {
    var name, rest := segments[0], segments[1..];
    assert segments == [name] + rest;
    hide Represents, Inside, Put;
    if |segments| == 1 {
      assert at + segments == at + [name] && (at + [name])[..|at|] == at;
      FilePut(d, files, at, name, a);
    } else {
      assert at + segments == (at + [name]) + rest;
      ChildHolds(d, files, at, name);
      InsertHolds(Child(d, name), Inside(files, name), at + [name], rest, a);
      FolderPut(d, files, at, segments, a, Insert(Child(d, name), rest, Leaf(at + segments, a)));
    }
  }

  // ------------------------------------------------------------ sorted siblings

  predicate Ascending(nodes: seq<Node>, le: NameOrder, root: bool) {
    forall i, k :: 0 <= i < k < |nodes| ==> Before(nodes[i], nodes[k], le, root)
  }

  /** Different kinds, or different names: the comparator never calls them equal. */
  predicate Apart(a: Node, b: Node) {
    a.Folder? != b.Folder? || a.name != b.name
  }

  lemma BeforeIsStrict(a: Node, b: Node, c: Node, le: NameOrder, root: bool)
    requires TotalOrder(le)
    ensures Before(a, b, le, root) ==> !Before(b, a, le, root) && Apart(a, b)
    ensures Apart(a, b) ==> Before(a, b, le, root) || Before(b, a, le, root)
    ensures Before(a, b, le, root) && Before(b, c, le, root) ==> Before(a, c, le, root)
  {
    FolderOrderIsTotal(le, root);
    var order := FolderOrder(le, root);
    hide FolderOrder;
  }

  lemma {:induction false} PlacedMeans(sorted: seq<Node>, n: Node, le: NameOrder, root: bool)
    requires TotalOrder(le) && Ascending(sorted, le, root) && forall m <- sorted :: Apart(n, m)
    ensures forall x :: x in Placed(sorted, n, le, root) <==> x == n || x in sorted
    ensures Ascending(Placed(sorted, n, le, root), le, root)
  {
    hide TotalOrder, Before;
    if sorted != [] {
      var first, rest := sorted[0], sorted[1..];
      assert sorted == [first] + rest;
      BeforeIsStrict(n, first, first, le, root);
      if Before(n, first, le, root) {
        forall m <- rest ensures Before(n, m, le, root) {
          BeforeIsStrict(n, first, m, le, root);
        }
      } else {
        PlacedMeans(rest, n, le, root);
        var more := Placed(rest, n, le, root);
        forall k | 0 <= k < |more| ensures Before(first, more[k], le, root) {
          assert more[k] in more;
        }
      }
    }
  }

  lemma {:induction false} SortedMeans(nodes: seq<Node>, le: NameOrder, root: bool)
    requires TotalOrder(le) && forall i, k :: 0 <= i < k < |nodes| ==> Apart(nodes[k], nodes[i])
    ensures forall x :: x in Sorted(nodes, le, root) <==> x in nodes
    ensures Ascending(Sorted(nodes, le, root), le, root)
    decreases |nodes|
  {
    hide TotalOrder, Apart, Before;
    if nodes != [] {
      var front, n := nodes[..|nodes| - 1], nodes[|nodes| - 1];
      assert nodes == front + [n];
      SortedMeans(front, le, root);
      PlacedMeans(Sorted(front, le, root), n, le, root);
    }
  }

  /** The comparator leaves only one order for a set of siblings. */
  lemma {:induction false} OneOrder(xs: seq<Node>, ys: seq<Node>, le: NameOrder, root: bool)
    requires TotalOrder(le) && Ascending(xs, le, root) && Ascending(ys, le, root)
    requires forall x :: x in xs <==> x in ys
    ensures xs == ys
  {
    hide TotalOrder, Before;
    SomeMember(xs);
    SomeMember(ys);
    if xs != [] {
      assert xs[0] in ys;
      var i :| 0 <= i < |ys| && ys[i] == xs[0];
      assert ys[0] in xs;
      var k :| 0 <= k < |xs| && xs[k] == ys[0];
      BeforeIsStrict(xs[0], ys[0], ys[0], le, root);
      forall x ensures x in xs[1..] <==> x in ys[1..] {
        TailOf(xs, x, le, root);
        TailOf(ys, x, le, root);
      }
      OneOrder(xs[1..], ys[1..], le, root);
      assert xs == [xs[0]] + xs[1..] && ys == [ys[0]] + ys[1..];
    }
  }

  lemma SomeMember(xs: seq<Node>)
    ensures xs != [] <==> exists x :: x in xs
  {
    if xs != [] {
      assert xs[0] in xs;
    }
  }

  lemma TailOf(xs: seq<Node>, x: Node, le: NameOrder, root: bool)
    requires TotalOrder(le) && Ascending(xs, le, root) && xs != []
    ensures x in xs[1..] <==> x in xs && x != xs[0]
  {
    hide TotalOrder, Before;
    assert xs == [xs[0]] + xs[1..];
    BeforeIsStrict(xs[0], xs[0], xs[0], le, root);
    if x in xs[1..] {
      var i :| 0 <= i < |xs[1..]| && xs[1..][i] == x;
      assert Before(xs[0], xs[i + 1], le, root);
    }
  }

  // -------------------------------------------- the finished draft is the map's tree

  /** Siblings as `finalizeFolder` lists them before it sorts. */
  function Siblings(d: Draft, le: NameOrder): seq<Node> {
    FinishAll(d.folders, le) + Values(d.files)
  }

  lemma {:induction false} FoldersFinish(d: Draft, files: map<Path, Artifact>, at: Path, bound: nat, le: NameOrder, i: nat)
    requires TotalOrder(le) && NoConflict(files) && Within(files, bound) && Represents(d, files, at) && i < |d.folders|
    ensures var (name, c) := d.folders[i];
      name in FolderNames(files) && Finish(c, le) == FolderNode(files, at, name, bound, le)
    decreases d, 0
  {
    hide FolderNames, Inside, Represents, NoConflict, Within, TotalOrder, Finalized, Children;
    var e := d.folders[i];
    assert e.1 < e;
    FolderHeld(d, files, at, i);
    InsideWithin(files, e.0, bound);
    InsideNoConflict(files, e.0);
    FinishIsFinalized(e.1, Inside(files, e.0), at + [e.0], bound - 1, le, false);
    RepresentsAt(e.1, Inside(files, e.0), at + [e.0]);
  }

  lemma FolderHeld(d: Draft, files: map<Path, Artifact>, at: Path, i: nat)
    requires Represents(d, files, at) && i < |d.folders|
    ensures var e := d.folders[i];
      e.0 in FolderNames(files) && e.1.name == e.0 && Represents(e.1, Inside(files, e.0), at + [e.0])
  {
    assert HoldsFolder(d.folders[i], files, at);
  }

  lemma RepresentsAt(d: Draft, files: map<Path, Artifact>, at: Path)
    requires Represents(d, files, at)
    ensures d.path == at && DistinctKeys(d.folders) && DistinctKeys(d.files)
    ensures HoldsFiles(d, files, at) && HasFolders(d, files)
  {
  }

  /** Finalizing and sorting a draft gives the tree of the files it holds. */
  lemma {:induction false} FinishIsFinalized(d: Draft, files: map<Path, Artifact>, at: Path, bound: nat, le: NameOrder,
                                             root: bool)
    requires TotalOrder(le) && NoConflict(files) && Within(files, bound) && Represents(d, files, at)
    ensures Children(d, le, root) == Finalized(files, at, bound, le, root)
    decreases d, 1
  {
    var nodes := Siblings(d, le);
    hide FolderNames, FileNames, Inside, Represents, NoConflict, Within, TotalOrder, Finalized, Finish, Before, FolderNode;
    hide FileNode, Apart;
    RepresentsAt(d, files, at);
    forall i | 0 <= i < |d.folders|
      ensures var (name, c) := d.folders[i];
        name in FolderNames(files) && Finish(c, le) == FolderNode(files, at, name, bound, le)
    {
      FoldersFinish(d, files, at, bound, le, i);
    }
    SiblingsApart(d, files, at, bound, le);
    SortedMeans(nodes, le, root);
    var result := Finalized(files, at, bound, le, root);
    forall n ensures n in nodes <==> n in result {
      SiblingsMean(d, files, at, bound, le, n);
      FinalizedNode(files, at, bound, le, root, n);
    }
    assert Ascending(result, le, root) by {
      forall i, k | 0 <= i < k < |result| ensures Before(result[i], result[k], le, root) {
        FinalizedOrder(files, at, bound, le, root, i, k);
      }
    }
    OneOrder(Children(d, le, root), result, le, root);
  }

  /** The finished folders of a draft are those of the map. */
  ghost predicate FoldersFinished(d: Draft, files: map<Path, Artifact>, at: Path, bound: nat, le: NameOrder)
    requires TotalOrder(le) && Within(files, bound)
  {
    forall i :: 0 <= i < |d.folders| ==>
      d.folders[i].0 in FolderNames(files)
      && Finish(d.folders[i].1, le) == FolderNode(files, at, d.folders[i].0, bound, le)
  }

  lemma SiblingsMean(d: Draft, files: map<Path, Artifact>, at: Path, bound: nat, le: NameOrder, n: Node)
    requires TotalOrder(le) && Within(files, bound) && FoldersFinished(d, files, at, bound, le)
    requires DistinctKeys(d.folders) && HoldsFiles(d, files, at) && HasFolders(d, files)
    ensures n in Siblings(d, le) <==> IsFolderOf(n, files, at, bound, le) || IsFileOf(n, files, at)
  {
    KindsAndNames(files, at, bound, le);
    FinishAllMeans(d.folders, le);
    hide FolderNames, FolderNode, Within, TotalOrder, Finish, FinishAll, DistinctKeys;
    NamesMean(files, n.name);
    var left, right := FinishAll(d.folders, le), Values(d.files);
    if n in left {
      var i :| 0 <= i < |left| && left[i] == n;
    }
    if n in right {
      var i :| 0 <= i < |right| && right[i] == n;
      assert (d.files[i].0, d.files[i].1) in d.files;
      NamesMean(files, d.files[i].0);
    }
    if IsFolderOf(n, files, at, bound, le) {
      var c := Get(d.folders, n.name).value;
      GetMeans(d.folders, n.name, c);
      var i :| 0 <= i < |d.folders| && d.folders[i] == (n.name, c);
      assert left[i] == n;
    }
    if IsFileOf(n, files, at) {
      assert (n.name, n) in d.files;
      var i :| 0 <= i < |d.files| && d.files[i] == (n.name, n);
      assert right[i] == n;
    }
  }

  lemma SiblingsApart(d: Draft, files: map<Path, Artifact>, at: Path, bound: nat, le: NameOrder)
    requires TotalOrder(le) && Within(files, bound) && FoldersFinished(d, files, at, bound, le)
    requires DistinctKeys(d.folders) && DistinctKeys(d.files) && HoldsFiles(d, files, at)
    ensures forall i, k :: 0 <= i < k < |Siblings(d, le)| ==> Apart(Siblings(d, le)[k], Siblings(d, le)[i])
  {
    KindsAndNames(files, at, bound, le);
    FinishAllMeans(d.folders, le);
    hide FolderNames, FolderNode, Within, TotalOrder, Finish, FinishAll;
    forall i | 0 <= i < |d.files| ensures d.files[i].1.File? && d.files[i].1.name == d.files[i].0 {
      assert (d.files[i].0, d.files[i].1) in d.files;
    }
  }

  // ------------------------------------------------------------------ building

  /** `canonicalArtifacts`, in the order of the first artifact at each path. */
  function Canonicals(artifacts: seq<Artifact>): Entries<Path, Artifact>
    requires AllValid(artifacts)
  {
    if artifacts == [] then []
    else
      var last := artifacts[|artifacts| - 1];
      Put(Canonicals(artifacts[..|artifacts| - 1]), Normalize(last.path).value, Canonicalized(last))
  }

  function MapOf(entries: Entries<Path, Artifact>): map<Path, Artifact> {
    if entries == [] then map[]
    else MapOf(entries[..|entries| - 1])[entries[|entries| - 1].0 := entries[|entries| - 1].1]
  }

  predicate Maps(m: map<Path, Artifact>, p: Path, a: Artifact) {
    p in m && m[p] == a
  }

  lemma {:induction false} MapOfMeans(entries: Entries<Path, Artifact>, p: Path, a: Artifact)
    requires DistinctKeys(entries)
    ensures Maps(MapOf(entries), p, a) <==> (p, a) in entries
    decreases |entries|
  {
    if entries != [] {
      var front, last := entries[..|entries| - 1], entries[|entries| - 1];
      assert entries == front + [last];
      MapOfMeans(front, p, a);
      if (p, a) in front {
        var i :| 0 <= i < |front| && front[i] == (p, a);
        assert entries[i].0 == p;
      }
    }
  }

  lemma {:induction false} CanonicalsMean(artifacts: seq<Artifact>)
    requires AllValid(artifacts)
    ensures DistinctKeys(Canonicals(artifacts)) && MapOf(Canonicals(artifacts)) == CanonicalMap(artifacts)
  {
    hide Normalize, Canonicalized, MapOf, Put, DistinctKeys;
    if artifacts == [] {
      NoEntries();
    } else {
      var front, last := artifacts[..|artifacts| - 1], artifacts[|artifacts| - 1];
      var k, v := Normalize(last.path).value, Canonicalized(last);
      CanonicalsMean(front);
      PutIsDistinct(Canonicals(front), k, v);
      forall p: Path, a: Artifact
        ensures Maps(MapOf(Put(Canonicals(front), k, v)), p, a) <==> Maps(CanonicalMap(artifacts), p, a)
      {
        MapOfMeans(Put(Canonicals(front), k, v), p, a);
        PutMeans(Canonicals(front), k, v, p, a);
        MapOfMeans(Canonicals(front), p, a);
      }
      SameEntries(MapOf(Put(Canonicals(front), k, v)), CanonicalMap(artifacts));
    }
  }

  lemma NoEntries()
    ensures MapOf([]) == map[] && DistinctKeys<Path, Artifact>([])
  {
  }

  lemma SameEntries(m: map<Path, Artifact>, n: map<Path, Artifact>)
    requires forall p: Path, a: Artifact :: Maps(m, p, a) <==> Maps(n, p, a)
    ensures m == n
  {
    forall p <- m ensures p in n && n[p] == m[p] {
      assert Maps(m, p, m[p]);
    }
    forall p <- n ensures p in m {
      assert Maps(n, p, n[p]);
    }
  }

  lemma {:induction false} InsertedHolds(entries: Entries<Path, Artifact>)
    requires forall e <- entries :: e.0 != []
    ensures Represents(Inserted(entries), MapOf(entries), [])
    decreases |entries|
  {
    hide Represents;
    if entries == [] {
      EmptyHolds();
    } else {
      var front := entries[..|entries| - 1];
      var (p, a) := entries[|entries| - 1];
      InsertedHolds(front);
      assert [] + p == p;
      InsertHolds(Inserted(front), MapOf(front), [], p, a);
    }
  }

  lemma EmptyHolds()
    ensures Represents(EMPTY_ROOT, map[], [])
  {
  }

  /** What `buildWorkspaceTree` returns when it does not throw. */
  function BuiltTree(artifacts: seq<Artifact>, le: NameOrder): seq<Node>
    requires AllValid(artifacts)
  {
    CanonicalsMean(artifacts);
    EntriesAreCanonical(artifacts);
    Children(Inserted(Canonicals(artifacts)), le, true)
  }

  lemma EntriesAreCanonical(artifacts: seq<Artifact>)
    requires AllValid(artifacts)
    ensures (forall e <- Canonicals(artifacts) :: e.0 != []) && forall p <- CanonicalMap(artifacts) :: p != []
  {
    CanonicalKeys(artifacts);
    CanonicalsMean(artifacts);
    hide Normalize, Canonicalized, CanonicalMap, Canonicals;
    forall e <- Canonicals(artifacts) ensures e.0 != [] {
      assert (e.0, e.1) in Canonicals(artifacts);
      MapOfMeans(Canonicals(artifacts), e.0, e.1);
    }
  }

  /** Insertion into nested folders and sorting every folder give the tree of the map of canonical paths. */
  lemma BuiltIsTree(artifacts: seq<Artifact>, le: NameOrder)
    requires TotalOrder(le) && AllValid(artifacts) && NoConflict(CanonicalMap(artifacts))
    ensures forall p <- CanonicalMap(artifacts) :: p != []
    ensures BuiltTree(artifacts, le) == TreeOf(CanonicalMap(artifacts), le)
  {
    CanonicalsMean(artifacts);
    EntriesAreCanonical(artifacts);
    hide Normalize, Canonicalized, CanonicalMap, Canonicals, TotalOrder, Finalized, Children, Represents, Inserted, NoConflict;
    var files := CanonicalMap(artifacts);
    InsertedHolds(Canonicals(artifacts));
    FinishIsFinalized(Inserted(Canonicals(artifacts)), files, [], Longest(files.Keys), le, true);
  }

  /** Whatever order the artifacts come in, the tree built has the same nodes in the same order. */
  lemma ShapeIgnoresOrder(artifacts: seq<Artifact>, shuffled: seq<Artifact>, le: NameOrder)
    requires TotalOrder(le) && AllValid(artifacts) && NoConflict(CanonicalMap(artifacts))
    requires forall a :: a in artifacts <==> a in shuffled
    ensures AllValid(shuffled) && NoConflict(CanonicalMap(shuffled))
    ensures Shape(BuiltTree(artifacts, le)) == Shape(BuiltTree(shuffled, le))
  {
    hide Normalize, Canonicalized, CanonicalMap, TotalOrder, Finalized, Shape, BuiltTree;
    var files, other := CanonicalMap(artifacts), CanonicalMap(shuffled);
    forall p: Path ensures p in files <==> p in other {
      CanonicalPathsMean(artifacts, p);
      CanonicalPathsMean(shuffled, p);
    }
    assert files.Keys == other.Keys;
    BuiltIsTree(artifacts, le);
    BuiltIsTree(shuffled, le);
    KeysDecideShape(files, other, [], Longest(files.Keys), le, true);
  }

  /** And the same files, when no two artifacts at one path differ. */
  lemma TreeIgnoresOrder(artifacts: seq<Artifact>, shuffled: seq<Artifact>, le: NameOrder)
    requires TotalOrder(le) && AllValid(artifacts) && NoConflict(CanonicalMap(artifacts)) && Agree(artifacts)
    requires forall a :: a in artifacts <==> a in shuffled
    ensures AllValid(shuffled) && BuiltTree(artifacts, le) == BuiltTree(shuffled, le)
  {
    hide Normalize, Canonicalized, CanonicalMap, TotalOrder, Finalized, BuiltTree;
    OrderIrrelevant(artifacts, shuffled);
    BuiltIsTree(artifacts, le);
    BuiltIsTree(shuffled, le);
  }

  datatype Built = Tree(roots: seq<Node>) | InvalidPath | Conflict

  /** `buildWorkspaceTree`: it throws for an invalid path, or for a path that is both a file and a folder. */
  method BuildWorkspaceTree(artifacts: seq<Artifact>, le: NameOrder) returns (r: Built)
    requires TotalOrder(le)
    ensures r.InvalidPath? <==> !AllValid(artifacts)
    ensures r.Conflict? <==> AllValid(artifacts) && !NoConflict(CanonicalMap(artifacts))
    ensures r.Tree? ==>
      && AllValid(artifacts) && NoConflict(CanonicalMap(artifacts))
      && (forall p <- CanonicalMap(artifacts) :: p != [])
      && r.roots == BuiltTree(artifacts, le) == TreeOf(CanonicalMap(artifacts), le)
  {
    hide Normalize, Canonicalized, TotalOrder, Finalized, Put, CanonicalMap, Children, NoConflict;
    var canonical: Entries<Path, Artifact> := [];
    var i := 0;
    assert artifacts[..0] == [];
    while i < |artifacts|
      invariant i <= |artifacts| && AllValid(artifacts[..i]) && canonical == Canonicals(artifacts[..i])
    {
      var path := Normalize(artifacts[i].path);
      if path.None? {
        assert artifacts[i] in artifacts;
        return InvalidPath;
      }
      assert artifacts[..i + 1][..i] == artifacts[..i] && artifacts[..i + 1][i] == artifacts[i];
      assert artifacts[..i + 1] == artifacts[..i] + [artifacts[i]];
      canonical := Put(canonical, path.value, Canonicalized(artifacts[i]));
      i := i + 1;
    }
    assert artifacts[..|artifacts|] == artifacts;
    hide Canonicals;
    CanonicalsMean(artifacts);
    EntriesAreCanonical(artifacts);
    var clean, root := InsertAll(canonical);
    if !clean {
      return Conflict;
    }
    BuiltIsTree(artifacts, le);
    r := Tree(Children(root, le, true));
  }

  /** The insertion loop: every strict prefix becomes a folder, every path a file, and no path may be both. */
  method InsertAll(entries: Entries<Path, Artifact>) returns (clean: bool, root: Draft)
    requires DistinctKeys(entries) && forall e <- entries :: e.0 != []
    ensures clean <==> NoConflict(MapOf(entries))
    ensures clean ==> root == Inserted(entries)
  {
    hide Insert, MapOf, Normalize;
    root := EMPTY_ROOT;
    var filePaths: set<Path>, folderPaths: set<Path> := {}, {};
    var i := 0;
    assert entries[..0] == [];
    while i < |entries|
      invariant i <= |entries| && root == Inserted(entries[..i])
      invariant filePaths == PathsOf(entries[..i])
      invariant forall q: Path :: q in folderPaths <==> q != [] && exists p <- filePaths :: q < p
      invariant forall p <- filePaths, q <- filePaths :: p <= q ==> p == q
      invariant [] !in filePaths
    {
      var (path, artifact) := entries[i];
      assert entries[i] in entries;
      PathsSoFar(entries, i);
      var open;
      open, folderPaths := AddFolders(filePaths, folderPaths, path);
      if !open {
        var q :| q in filePaths && q < path;
        ConflictIn(entries, q, path);
        return false, root;
      }
      if path in folderPaths {
        var p :| p in filePaths && path < p;
        ConflictIn(entries, path, p);
        return false, root;
      }
      assert entries[..i + 1][..i] == entries[..i];
      root := Insert(root, path, Leaf(path, artifact));
      filePaths := filePaths + {path};
      i := i + 1;
    }
    assert entries[..|entries|] == entries;
    CleanPaths(entries);
    clean := true;
  }

  function PathsOf(entries: Entries<Path, Artifact>): set<Path> {
    set e <- entries :: e.0
  }

  lemma PathsSoFar(entries: Entries<Path, Artifact>, i: nat)
    requires i < |entries|
    ensures PathsOf(entries[..i + 1]) == PathsOf(entries[..i]) + {entries[i].0}
    ensures PathsOf(entries[..i + 1]) <= PathsOf(entries)
  {
    assert entries[..i + 1] == entries[..i] + [entries[i]];
  }

  lemma PathsAreKeys(entries: Entries<Path, Artifact>, p: Path)
    requires DistinctKeys(entries)
    ensures p in MapOf(entries) <==> p in PathsOf(entries)
  {
    hide MapOf, DistinctKeys;
    if p in MapOf(entries) {
      MapOfMeans(entries, p, MapOf(entries)[p]);
    }
    if p in PathsOf(entries) {
      var e :| e in entries && e.0 == p;
      assert (e.0, e.1) in entries;
      MapOfMeans(entries, p, e.1);
    }
  }

  lemma ConflictIn(entries: Entries<Path, Artifact>, p: Path, q: Path)
    requires DistinctKeys(entries) && p in PathsOf(entries) && q in PathsOf(entries) && p < q
    ensures !NoConflict(MapOf(entries))
  {
    PathsAreKeys(entries, p);
    PathsAreKeys(entries, q);
    hide MapOf, PathsOf;
  }

  lemma CleanPaths(entries: Entries<Path, Artifact>)
    requires DistinctKeys(entries) && forall p <- PathsOf(entries), q <- PathsOf(entries) :: p <= q ==> p == q
    ensures NoConflict(MapOf(entries))
  {
    hide MapOf, PathsOf, DistinctKeys;
    forall p: Path ensures p in MapOf(entries) <==> p in PathsOf(entries) {
      PathsAreKeys(entries, p);
    }
  }

  /** The folders on the way to a path; one of them being a file is a conflict. */
  method AddFolders(filePaths: set<Path>, before: set<Path>, path: Path) returns (open: bool, folderPaths: set<Path>)
    requires path != [] && [] !in filePaths
    ensures open <==> forall q <- filePaths :: !(q < path)
    ensures open ==> forall q: Path :: q in folderPaths <==> q in before || (q != [] && q < path)
  {
    folderPaths := before;
    var index := 0;
    while index < |path| - 1
      invariant 0 <= index <= |path| - 1
      invariant forall q: Path :: q in folderPaths <==> q in before || (q != [] && q < path && |q| <= index)
      invariant forall q <- filePaths :: q < path ==> |q| > index
    {
      var folderPath := path[..index + 1];
      forall q: Path | q < path && |q| == index + 1 ensures q == folderPath {
      }
      if folderPath in filePaths {
        return false, folderPaths;
      }
      folderPaths := folderPaths + {folderPath};
      index := index + 1;
    }
    open := true;
  }
}
