/**
 * Grouping of generated images into scientific figure clusters, over the
 * children of a document's root.
 */
module FigureClusters {
  import opened CompactionTypes

  const MAX_CLUSTER_SIZE := 7
  const SCIENTIFIC_FIGURE_IMAGE_CLASS := "scientific-figure-image"

  /** An `img` element; `index` is its `dataScientificFigureIndex`. */
  datatype Image = Image(src: Option<string>, alt: Option<string>, title: Option<string>,
                         classes: seq<string>, index: Option<nat>)

  datatype Node =
    | Img(image: Image)
    | Paragraph(children: seq<Node>)
    | Figure(count: nat, images: seq<Image>)
    | Text(value: string)
    | Other(name: string)

  // ------------------------------------------------------------- predicates

  predicate Space(s: string) {
    forall c <- s :: c in " \n\t\r"
  }

  predicate IsWhitespace(n: Node) {
    n.Text? && Space(n.value)
  }

  function Meaningful(nodes: seq<Node>): (r: seq<Node>)
    ensures forall n <- r :: n in nodes
  {
    if nodes == [] then []
    else (if IsWhitespace(nodes[0]) then [] else [nodes[0]]) + Meaningful(nodes[1..])
  }

  /** A paragraph of images and whitespace only, with at least one image. */
  predicate ImageOnly(n: Node) {
    && n.Paragraph?
    && var meaningful := Meaningful(n.children);
    meaningful != [] && forall m <- meaningful :: m.Img?
  }

  function ImagesIn(n: Node): seq<Image>
    requires ImageOnly(n)
  {
    var meaningful := Meaningful(n.children);
    seq(|meaningful|, i requires 0 <= i < |meaningful| => meaningful[i].image)
  }

  predicate Digits(s: string) {
    forall c <- s :: '0' <= c <= '9'
  }

  predicate Hex(s: string) {
    forall c <- s :: '0' <= c <= '9' || 'a' <= c <= 'f'
  }

  /** The tail of a dated image path: `ge/dt=YYYY-MM-DD/ht=H//` and a SHA-256 file name, closed by `)`. */
  predicate MalformedTail(s: string) {
    MalformedTailWith(s, 1) || MalformedTailWith(s, 2)
  }

  predicate MalformedTailWith(s: string, hour: nat) {
    && |s| >= 86 + hour
    && s[..6] == "ge/dt=" && Digits(s[6..10]) && s[10] == '-' && Digits(s[11..13]) && s[13] == '-' && Digits(s[14..16])
    && s[16..20] == "/ht=" && Digits(s[20..20 + hour]) && s[20 + hour..22 + hour] == "//"
    && Hex(s[22 + hour..86 + hour]) && s[86 + hour..] in {".jpg)", ".jpeg)", ".png)", ".webp)"}
  }

  /** Exactly an empty image with `src="image"` and such a tail; similar prose and real references stay. */
  predicate IsPlaceholder(n: Node) {
    && n.Paragraph?
    && var meaningful := Meaningful(n.children);
    && |meaningful| == 2 && meaningful[0].Img? && meaningful[1].Text?
    && meaningful[0].image.src == Some("image") && meaningful[0].image.title.None?
    && (meaningful[0].image.alt.None? || meaningful[0].image.alt == Some(""))
    && MalformedTail(meaningful[1].value)
  }

  // ---------------------------------------------------------- specification

  function Clean(nodes: seq<Node>): seq<Node> {
    if nodes == [] then []
    else (if IsPlaceholder(nodes[0]) then [] else [nodes[0]]) + Clean(nodes[1..])
  }

  function MarkImage(image: Image, index: nat): Image {
    image.(classes := image.classes + [SCIENTIFIC_FIGURE_IMAGE_CLASS], index := Some(index + 1))
  }

  function Cluster(images: seq<Image>): Node {
    Figure(|images|, seq(|images|, i requires 0 <= i < |images| => MarkImage(images[i], i)))
  }

  function Clusters(images: seq<Image>): seq<Node> {
    if |images| == 0 then []
    else if |images| <= MAX_CLUSTER_SIZE then [Cluster(images)]
    else [Cluster(images[..MAX_CLUSTER_SIZE])] + Clusters(images[MAX_CLUSTER_SIZE..])
  }

  function SkipSpace(nodes: seq<Node>): (r: seq<Node>)
    ensures |r| <= |nodes|
  {
    if nodes != [] && IsWhitespace(nodes[0]) then SkipSpace(nodes[1..]) else nodes
  }

  /** The images of the paragraphs that follow with nothing but whitespace between, and what comes after them. */
  function TakeRun(nodes: seq<Node>): (r: (seq<Image>, seq<Node>))
    ensures |r.1| <= |nodes|
    decreases |nodes|
  {
    var next := SkipSpace(nodes);
    if next != [] && ImageOnly(next[0]) then
      var (images, rest) := TakeRun(next[1..]);
      (ImagesIn(next[0]) + images, rest)
    else ([], next)
  }

  function Grouped(nodes: seq<Node>): seq<Node>
    decreases |nodes|
  {
    if nodes == [] then []
    else if !ImageOnly(nodes[0]) then [nodes[0]] + Grouped(nodes[1..])
    else
      var (images, rest) := TakeRun(nodes[1..]);
      Clusters(ImagesIn(nodes[0]) + images) + Grouped(rest)
  }

  function Transformed(children: seq<Node>): seq<Node> {
    Grouped(Clean(children))
  }

  // ------------------------------------------------------------- the transform

  class HastParent {
    var children: seq<Node>

    constructor (nodes: seq<Node>)
      ensures children == nodes
    {
      children := nodes;
    }

    /** `transformParent`. */
    method TransformParent()
      modifies this
      ensures children == Transformed(old(children))
    {
      hide ImageOnly, IsWhitespace, Clusters, ImagesIn, Grouped;
      var clean := CleanChildren(children);
      GroupedNil();
      var grouped: seq<Node> := [];
      var index := 0;
      while index < |clean|
        invariant index <= |clean| && children == old(children)
        invariant grouped + Grouped(clean[index..]) == Grouped(clean)
      {
        if !ImageOnly(clean[index]) {
          NextIsPlain(clean, index);
          grouped := grouped + [clean[index]];
          index := index + 1;
        } else {
          var images, cursor := CollectRun(clean, index);
          NextIsRun(clean, index, images, cursor);
          grouped := AppendClusters(grouped, images);
          index := cursor;
        }
      }
      assert clean[index..] == [];
      children := grouped;
    }
  }

  lemma GroupedNil()
    ensures Grouped([]) == []
  {
  }

  lemma NextIsPlain(clean: seq<Node>, index: nat)
    requires index < |clean| && !ImageOnly(clean[index])
    ensures Grouped(clean[index..]) == [clean[index]] + Grouped(clean[index + 1..])
  {
    assert clean[index..][1..] == clean[index + 1..];
    hide ImageOnly, IsWhitespace, Clusters, ImagesIn;
  }

  lemma NextIsRun(clean: seq<Node>, index: nat, images: seq<Image>, cursor: nat)
    requires index < cursor <= |clean| && ImageOnly(clean[index])
    requires images == ImagesIn(clean[index]) + TakeRun(clean[index + 1..]).0
    requires clean[cursor..] == TakeRun(clean[index + 1..]).1
    ensures Grouped(clean[index..]) == Clusters(images) + Grouped(clean[cursor..])
  {
    assert clean[index..][1..] == clean[index + 1..];
    hide ImageOnly, IsWhitespace, Clusters, ImagesIn;
  }

  method CleanChildren(children: seq<Node>) returns (clean: seq<Node>)
    ensures clean == Clean(children)
  {
    hide IsPlaceholder;
    clean := [];
    var i := 0;
    while i < |children|
      invariant i <= |children| && clean + Clean(children[i..]) == Clean(children)
    {
      assert children[i..][1..] == children[i + 1..];
      if !IsPlaceholder(children[i]) {
        clean := clean + [children[i]];
      }
      i := i + 1;
    }
  }

  /** The inner loops: the images of the run that starts at `index`, and where the run ends. */
  method CollectRun(clean: seq<Node>, index: nat) returns (images: seq<Image>, cursor: nat)
    requires index < |clean| && ImageOnly(clean[index])
    ensures index < cursor <= |clean|
    ensures images == ImagesIn(clean[index]) + TakeRun(clean[index + 1..]).0
    ensures clean[cursor..] == TakeRun(clean[index + 1..]).1
  {
    hide ImageOnly, IsWhitespace, ImagesIn;
    images := ImagesIn(clean[index]);
    cursor := index + 1;
    ghost var first := images;
    ghost var run := TakeRun(clean[index + 1..]);
    while cursor < |clean|
      invariant index < cursor <= |clean|
      invariant images + TakeRun(clean[cursor..]).0 == first + run.0
      invariant TakeRun(clean[cursor..]).1 == run.1
    {
      ghost var from := clean[cursor..];
      while cursor < |clean| && IsWhitespace(clean[cursor])
        invariant index < cursor <= |clean| && SkipSpace(clean[cursor..]) == SkipSpace(from)
      {
        assert clean[cursor..][1..] == clean[cursor + 1..];
        cursor := cursor + 1;
      }
      assert SkipSpace(from) == clean[cursor..];
      if cursor == |clean| || !ImageOnly(clean[cursor]) {
        break;
      }
      assert clean[cursor..][1..] == clean[cursor + 1..];
      images := images + ImagesIn(clean[cursor]);
      cursor := cursor + 1;
    }
  }

  method AppendClusters(grouped: seq<Node>, images: seq<Image>) returns (r: seq<Node>)
    ensures r == grouped + Clusters(images)
  {
    hide Cluster, Clusters;
    r := grouped;
    var offset := 0;
    AllClusters(images);
    while offset < |images|
      invariant 0 <= offset && r + ClustersFrom(images, offset) == grouped + Clusters(images)
    {
      var end := if offset + MAX_CLUSTER_SIZE < |images| then offset + MAX_CLUSTER_SIZE else |images|;
      NextCluster(images, offset, end);
      r := r + [Cluster(images[offset..end])];
      offset := offset + MAX_CLUSTER_SIZE;
    }
  }

  ghost function ClustersFrom(images: seq<Image>, offset: nat): seq<Node> {
    if offset < |images| then Clusters(images[offset..]) else []
  }

  lemma AllClusters(images: seq<Image>)
    ensures ClustersFrom(images, 0) == Clusters(images)
  {
    assert images[0..] == images;
  }

  lemma NextCluster(images: seq<Image>, offset: nat, end: nat)
    requires offset < |images|
    requires end == if offset + MAX_CLUSTER_SIZE < |images| then offset + MAX_CLUSTER_SIZE else |images|
    ensures ClustersFrom(images, offset)
         == [Cluster(images[offset..end])] + ClustersFrom(images, offset + MAX_CLUSTER_SIZE)
  {
    hide Cluster;
    var left := images[offset..];
    assert left[..end - offset] == images[offset..end] && left[end - offset..] == images[end..];
    assert |left| <= MAX_CLUSTER_SIZE ==> images[offset..end] == left;
  }

  // ---------------------------------------------------------- what it preserves

  /** What a reader sees, in order: pictures, and every other node that is not whitespace or malformed. */
  datatype Item = Picture(src: Option<string>, alt: Option<string>, title: Option<string>) | Kept(node: Node)

  function Pictures(images: seq<Image>): seq<Item> {
    seq(|images|, i requires 0 <= i < |images| => Picture(images[i].src, images[i].alt, images[i].title))
  }

  function ItemsOf(n: Node): seq<Item> {
    if IsWhitespace(n) || IsPlaceholder(n) then []
    else if ImageOnly(n) then Pictures(ImagesIn(n))
    else if n.Figure? then Pictures(n.images)
    else [Kept(n)]
  }

  function Flow(nodes: seq<Node>): seq<Item> {
    if nodes == [] then [] else ItemsOf(nodes[0]) + Flow(nodes[1..])
  }

  lemma {:induction false} FlowConcat(xs: seq<Node>, ys: seq<Node>)
    ensures Flow(xs + ys) == Flow(xs) + Flow(ys)
  {
    hide ItemsOf;
    if xs == [] {
      assert xs + ys == ys;
    } else {
      assert (xs + ys)[1..] == xs[1..] + ys;
      FlowConcat(xs[1..], ys);
    }
  }

  lemma {:induction false} FlowClean(nodes: seq<Node>)
    ensures Flow(Clean(nodes)) == Flow(nodes)
  {
    hide IsPlaceholder, ImageOnly, IsWhitespace;
    if nodes != [] {
      FlowClean(nodes[1..]);
      var kept := Clean(nodes[1..]);
      assert ([nodes[0]] + kept)[1..] == kept && [] + kept == kept;
    }
  }

  lemma {:induction false} FlowClusters(images: seq<Image>)
    ensures Flow(Clusters(images)) == Pictures(images)
  {
    if |images| > MAX_CLUSTER_SIZE {
      var first, rest := images[..MAX_CLUSTER_SIZE], images[MAX_CLUSTER_SIZE..];
      FlowClusters(rest);
      FlowConcat([Cluster(first)], Clusters(rest));
      FlowOne(first);
      assert Pictures(first) + Pictures(rest) == Pictures(images);
    } else if |images| > 0 {
      FlowOne(images);
    }
  }

  lemma FlowOne(images: seq<Image>)
    ensures Flow([Cluster(images)]) == Pictures(images)
  {
    assert [Cluster(images)][1..] == [];
    assert Pictures(Cluster(images).images) == Pictures(images);
  }

  lemma {:induction false} FlowSkipSpace(nodes: seq<Node>)
    ensures Flow(SkipSpace(nodes)) == Flow(nodes)
  {
    if nodes != [] && IsWhitespace(nodes[0]) {
      FlowSkipSpace(nodes[1..]);
    }
  }

  lemma {:induction false} FlowRun(nodes: seq<Node>)
    ensures Flow(nodes) == Pictures(TakeRun(nodes).0) + Flow(TakeRun(nodes).1)
    decreases |nodes|
  {
    hide IsPlaceholder, IsWhitespace, ImagesIn, ImageOnly;
    FlowSkipSpace(nodes);
    var next := SkipSpace(nodes);
    if next != [] && ImageOnly(next[0]) {
      FlowRun(next[1..]);
      var (images, rest) := TakeRun(next[1..]);
      ImageOnlyItems(next[0]);
      assert Pictures(ImagesIn(next[0]) + images) == Pictures(ImagesIn(next[0])) + Pictures(images);
      hide ItemsOf;
    }
  }

  lemma ImageOnlyItems(n: Node)
    requires ImageOnly(n)
    ensures ItemsOf(n) == Pictures(ImagesIn(n))
  {
    assert IsPlaceholder(n) ==> Meaningful(n.children)[1] in Meaningful(n.children);
  }

  lemma {:induction false} FlowGrouped(nodes: seq<Node>)
    ensures Flow(Grouped(nodes)) == Flow(nodes)
    decreases |nodes|
  {
    hide IsPlaceholder, IsWhitespace, ImagesIn, ImageOnly, TakeRun, ItemsOf;
    if nodes != [] {
      if !ImageOnly(nodes[0]) {
        FlowGrouped(nodes[1..]);
        assert ([nodes[0]] + Grouped(nodes[1..]))[1..] == Grouped(nodes[1..]);
      } else {
        var (images, rest) := TakeRun(nodes[1..]);
        FlowGrouped(rest);
        FlowRun(nodes[1..]);
        ImageOnlyItems(nodes[0]);
        FlowClusters(ImagesIn(nodes[0]) + images);
        FlowConcat(Clusters(ImagesIn(nodes[0]) + images), Grouped(rest));
        assert Pictures(ImagesIn(nodes[0]) + images) == Pictures(ImagesIn(nodes[0])) + Pictures(images);
      }
    }
  }

  /** Every picture of an image-only paragraph and every other node survives, in order. */
  lemma TransformKeepsOrder(children: seq<Node>)
    ensures Flow(Transformed(children)) == Flow(children)
  {
    FlowGrouped(Clean(children));
    FlowClean(children);
  }

  // ------------------------------------------------------------ cluster shapes

  /** A run of `n` images becomes ceil(n / 7) clusters: full ones, then at most one partial, numbered from 1. */
  lemma {:induction false} ClusterShapes(images: seq<Image>)
    ensures var cs := Clusters(images);
      && |cs| == (|images| + MAX_CLUSTER_SIZE - 1) / MAX_CLUSTER_SIZE
      && (forall i :: 0 <= i < |cs| ==>
            cs[i].Figure? && 1 <= cs[i].count == |cs[i].images| <= MAX_CLUSTER_SIZE
            && MAX_CLUSTER_SIZE * i + cs[i].count <= |images|)
      && (forall i :: 0 <= i < |cs| - 1 ==> cs[i].count == MAX_CLUSTER_SIZE)
      && (forall i, k :: 0 <= i < |cs| && 0 <= k < cs[i].count ==>
            cs[i].images[k] == MarkImage(images[MAX_CLUSTER_SIZE * i + k], k))
  {
    if |images| > MAX_CLUSTER_SIZE {
      var rest := images[MAX_CLUSTER_SIZE..];
      ClusterShapes(rest);
      var cs, ds := Clusters(images), Clusters(rest);
      assert cs == [Cluster(images[..MAX_CLUSTER_SIZE])] + ds;
      forall i | 0 <= i < |cs|
        ensures cs[i].Figure? && 1 <= cs[i].count == |cs[i].images| <= MAX_CLUSTER_SIZE
        ensures MAX_CLUSTER_SIZE * i + cs[i].count <= |images|
      {
        if i > 0 {
          assert cs[i] == ds[i - 1];
        }
      }
      forall i, k | 0 <= i < |cs| && 0 <= k < cs[i].count
        ensures cs[i].images[k] == MarkImage(images[MAX_CLUSTER_SIZE * i + k], k)
      {
        if i > 0 {
          assert cs[i] == ds[i - 1];
          assert rest[MAX_CLUSTER_SIZE * (i - 1) + k] == images[MAX_CLUSTER_SIZE * i + k];
        }
      }
    }
  }

  // ------------------------------------------------- runs are maximal, and stable

  predicate NoFigure(nodes: seq<Node>) {
    forall n <- nodes :: !n.Figure?
  }

  lemma {:induction false} SkipSpaceStops(nodes: seq<Node>)
    ensures SkipSpace(nodes) == [] || !IsWhitespace(SkipSpace(nodes)[0])
    ensures forall n <- SkipSpace(nodes) :: n in nodes
  {
    if nodes != [] && IsWhitespace(nodes[0]) {
      SkipSpaceStops(nodes[1..]);
    }
  }

  /** A run ends only at the end, or at a node that is neither whitespace nor more images. */
  lemma {:induction false} RunIsMaximal(nodes: seq<Node>)
    ensures var rest := TakeRun(nodes).1;
      && (rest == [] || (!IsWhitespace(rest[0]) && !ImageOnly(rest[0])))
      && (forall n <- rest :: n in nodes)
    decreases |nodes|
  {
    hide IsWhitespace, ImageOnly, ImagesIn;
    SkipSpaceStops(nodes);
    var next := SkipSpace(nodes);
    if next != [] && ImageOnly(next[0]) {
      RunIsMaximal(next[1..]);
    }
  }

  lemma {:induction false} GroupedHead(nodes: seq<Node>)
    requires NoFigure(nodes) && (nodes == [] || !ImageOnly(nodes[0]))
    ensures Grouped(nodes) == [] || !Grouped(nodes)[0].Figure?
  {
    hide ImageOnly, TakeRun;
  }

  /** A cluster that is followed by another one is full. */
  predicate PartialsEndRuns(out: seq<Node>) {
    forall i, k :: 0 <= i < k == i + 1 < |out| && out[i].Figure? && out[k].Figure? ==> out[i].count == MAX_CLUSTER_SIZE
  }

  lemma PartialsPrepend(n: Node, out: seq<Node>)
    requires !n.Figure? && PartialsEndRuns(out)
    ensures PartialsEndRuns([n] + out)
  {
    var all := [n] + out;
    forall i, k | 0 <= i < k == i + 1 < |all| && all[i].Figure? && all[k].Figure?
      ensures all[i].count == MAX_CLUSTER_SIZE
    {
      assert all[i] == out[i - 1] && all[k] == out[k - 1];
    }
  }

  lemma PartialsAppend(images: seq<Image>, out: seq<Node>)
    requires PartialsEndRuns(out) && (out == [] || !out[0].Figure?)
    ensures PartialsEndRuns(Clusters(images) + out)
  {
    ClusterShapes(images);
    var cs := Clusters(images);
    var all := cs + out;
    forall i, k | 0 <= i < k == i + 1 < |all| && all[i].Figure? && all[k].Figure?
      ensures all[i].count == MAX_CLUSTER_SIZE
    {
      if i >= |cs| {
        assert all[i] == out[i - |cs|] && all[k] == out[k - |cs|];
      }
    }
  }

  /** Two neighbouring clusters always belong to one run: the first of them is full. */
  lemma {:induction false} RunsStayApart(nodes: seq<Node>)
    requires NoFigure(nodes)
    ensures PartialsEndRuns(Grouped(nodes))
    decreases |nodes|
  {
    hide IsWhitespace, ImageOnly, ImagesIn, TakeRun, Clusters, PartialsEndRuns;
    if nodes == [] {
      NothingGrouped();
    } else if !ImageOnly(nodes[0]) {
      RunsStayApart(nodes[1..]);
      PartialsPrepend(nodes[0], Grouped(nodes[1..]));
    } else {
      var (images, rest) := TakeRun(nodes[1..]);
      RunIsMaximal(nodes[1..]);
      RunsStayApart(rest);
      GroupedHead(rest);
      PartialsAppend(ImagesIn(nodes[0]) + images, Grouped(rest));
    }
  }

  lemma NothingGrouped()
    ensures PartialsEndRuns([])
  {
  }

  lemma {:induction false} CleanIsPart(nodes: seq<Node>)
    ensures forall n <- Clean(nodes) :: n in nodes
  {
    hide IsPlaceholder;
    if nodes != [] {
      CleanIsPart(nodes[1..]);
    }
  }

  /** So every maximal run of `n` images is exactly the ceil(n / 7) clusters between two other nodes. */
  lemma TransformKeepsRunsApart(children: seq<Node>)
    requires NoFigure(children)
    ensures PartialsEndRuns(Transformed(children))
  {
    CleanIsPart(children);
    RunsStayApart(Clean(children));
  }

  /** Nothing left to group. */
  predicate Settled(nodes: seq<Node>) {
    forall n <- nodes :: !ImageOnly(n) && !IsPlaceholder(n)
  }

  lemma {:induction false} CleanSettles(nodes: seq<Node>)
    ensures forall n <- Clean(nodes) :: !IsPlaceholder(n)
  {
    if nodes != [] {
      CleanSettles(nodes[1..]);
    }
  }

  lemma {:induction false} GroupedSettles(nodes: seq<Node>)
    requires forall n <- nodes :: !IsPlaceholder(n)
    ensures Settled(Grouped(nodes))
    decreases |nodes|
  {
    hide IsWhitespace, ImagesIn, TakeRun, Clusters;
    if nodes != [] {
      if !ImageOnly(nodes[0]) {
        GroupedSettles(nodes[1..]);
      } else {
        var (images, rest) := TakeRun(nodes[1..]);
        RunIsMaximal(nodes[1..]);
        GroupedSettles(rest);
        ClusterShapes(ImagesIn(nodes[0]) + images);
      }
    }
  }

  lemma {:induction false} SettledStays(nodes: seq<Node>)
    requires Settled(nodes)
    ensures Clean(nodes) == nodes && Grouped(nodes) == nodes
  {
    hide ImageOnly, IsPlaceholder, TakeRun;
    if nodes != [] {
      SettledStays(nodes[1..]);
    }
  }

  /** Running the transform again changes nothing. */
  lemma TransformIsIdempotent(children: seq<Node>)
    ensures Transformed(Transformed(children)) == Transformed(children)
  {
    CleanSettles(children);
    GroupedSettles(Clean(children));
    SettledStays(Transformed(children));
  }
}
