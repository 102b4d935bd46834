/** A tree in which `first-child` loses its way: a top-level folder that is itself called `workspace`. */
module NestedWorkspace {
  import opened CompactionTypes
  import opened WorkspacePaths
  import opened WorkspaceTree
  import opened WorkspaceBuilder
  import opened WorkspaceNavigation

  const OUTER: Path := ["workspace"]
  const INNER: Path := ["workspace", "a"]
  const BOTTOM: Path := ["workspace", "a", "b"]

  const GIVEN := Artifact("workspace/" + Join(BOTTOM), "")
  const STORED := Artifact(Join(BOTTOM), "")

  const LOWEST := File(BOTTOM, "b", STORED)
  const MIDDLE := Folder(INNER, "a", [LOWEST], 1)
  const TOP := Folder(OUTER, "workspace", [MIDDLE], 1)

  lemma GivenIsBottom()
    ensures Canonical(BOTTOM) && Normalize(GIVEN.path) == Some(BOTTOM)
  {
    assert BOTTOM[0] != "" && BOTTOM[1] != "" && BOTTOM[2] == "b";
    assert Canonical(BOTTOM);
    hide Join, Normalize;
    PrefixIsDropped(BOTTOM);
  }

  lemma OneEntry()
    ensures AllValid([GIVEN]) && Canonicals([GIVEN]) == [(BOTTOM, STORED)]
    ensures CanonicalMap([GIVEN]) == map[BOTTOM := STORED] && NoConflict(CanonicalMap([GIVEN]))
  {
    GivenIsBottom();
    hide Normalize, Join;
    assert [GIVEN][..0] == [];
  }

  const DRAFT_INNER := Draft(INNER, "a", [], [("b", LOWEST)])
  const DRAFT_OUTER := Draft(OUTER, "workspace", [("a", DRAFT_INNER)], [])
  const DRAFT_ROOT := Draft([], "", [("workspace", DRAFT_OUTER)], [])

  lemma OneDraft()
    ensures Inserted([(BOTTOM, STORED)]) == DRAFT_ROOT
  {
    hide Join;
    assert BOTTOM[..2] == INNER && [] + OUTER == OUTER && OUTER + ["a"] == INNER && INNER + ["b"] == BOTTOM;
    assert BOTTOM[1..] == ["a", "b"] && ["a", "b"][1..] == ["b"];
    var entries := [(BOTTOM, STORED)];
    assert entries[..0] == [];
    assert Leaf(BOTTOM, STORED) == LOWEST;
    assert Insert(Draft(INNER, "a", [], []), ["b"], LOWEST) == DRAFT_INNER;
    assert Insert(Draft(OUTER, "workspace", [], []), ["a", "b"], LOWEST) == DRAFT_OUTER;
    assert Insert(EMPTY_ROOT, BOTTOM, LOWEST) == DRAFT_ROOT;
  }

  lemma OneTree(le: NameOrder)
    ensures Children(DRAFT_ROOT, le, true) == [TOP]
  {
    hide Join;
    Alone(LOWEST, le, false);
    Alone(MIDDLE, le, false);
    Alone(TOP, le, true);
    assert FinishAll([], le) == [] && Values<string, Node>([]) == [];
    assert Values([("b", LOWEST)]) == [LOWEST];
    assert [] + [LOWEST] == [LOWEST];
    assert Children(DRAFT_INNER, le, false) == [LOWEST];
    assert Count([LOWEST]) == 1 && Count([MIDDLE]) == 1 by { assert Count([]) == 0; }
    assert Finish(DRAFT_INNER, le) == MIDDLE;
    FinishOne(("a", DRAFT_INNER), le);
    assert [MIDDLE] + [] == [MIDDLE];
    assert Finish(DRAFT_OUTER, le) == TOP;
    FinishOne(("workspace", DRAFT_OUTER), le);
    assert [TOP] + [] == [TOP];
  }

  lemma FinishOne(e: (string, Draft), le: NameOrder)
    ensures FinishAll([e], le) == [Finish(e.1, le)]
  {
    assert [e][1..] == [];
  }

  lemma Alone(n: Node, le: NameOrder, root: bool)
    ensures Sorted([n], le, root) == [n]
  {
    assert [n][..0] == [];
  }

  /**
   * On an expanded visible folder of the tree built from one artifact, `first-child` does not go to the row below:
   * it looks up `workspace/a` as `a`.
   */
  lemma FirstChildIsLost(le: NameOrder) returns (artifacts: seq<Artifact>, expanded: set<Path>, n: Node)
    requires TotalOrder(le)
    ensures AllValid(artifacts) && NoConflict(CanonicalMap(artifacts))
    ensures n.Folder? && n.path in expanded && Shown(Flattened(BuiltTree(artifacts, le), expanded), n)
    ensures var roots := BuiltTree(artifacts, le);
      Navigate(roots, expanded, n.path, FirstChild) != Navigate(roots, expanded, n.path, Next)
  {
    artifacts, expanded, n := [GIVEN], {OUTER, INNER}, MIDDLE;
    OneEntry();
    OneDraft();
    OneTree(le);
    assert BuiltTree(artifacts, le) == [TOP];
    InnerIsUnstable();
    BuiltIsTree(artifacts, le);
    TreeIsExact(CanonicalMap(artifacts), le);
    InnerIsShown(expanded);
    hide Join, Rows, Shown, Canonical, Stable, Normalize, Canonicals, CanonicalMap, Inserted, Children, WellFormed, TotalOrder;
    FirstChildIsNext([TOP], expanded, MIDDLE);
  }

  lemma InnerIsUnstable()
    ensures Canonical(INNER) && !Stable(INNER)
  {
    assert INNER[0] != "" && INNER[1] != "";
  }

  lemma InnerIsShown(expanded: set<Path>)
    requires WellFormed([TOP], []) && OUTER in expanded
    ensures Shown(Flattened([TOP], expanded), MIDDLE)
  {
    hide Rows, WellFormed;
    FirstRow([TOP], 0, 1, 0, None, expanded);
    FirstChildFollows([TOP], [], 0, 1, 0, None, expanded, 0);
  }
}
