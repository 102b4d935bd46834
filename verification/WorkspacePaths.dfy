/**
 * Canonical workspace paths: the segments an artifact's path is normalized to,
 * and when normalizing a canonical path again leaves it alone.
 */
module WorkspacePaths {
  import opened CompactionTypes

  /** A canonical path by its segments; its string form joins them with `/`. */
  type Path = seq<string>

  predicate IsSpace(c: char) { c in " \n\t\r" }

  function TrimStart(s: string): (r: string)
    ensures |r| <= |s| && (r == [] || !IsSpace(r[0]))
    ensures |r| == |s| <==> s == [] || !IsSpace(s[0])
    ensures |r| == |s| ==> r == s
  {
    if s != [] && IsSpace(s[0]) then TrimStart(s[1..]) else s
  }

  function TrimEnd(s: string): (r: string)
    ensures |r| <= |s| && (r == [] || !IsSpace(r[|r| - 1]))
    ensures |r| == |s| <==> s == [] || !IsSpace(s[|s| - 1])
    ensures |r| == |s| ==> r == s
  {
    if s != [] && IsSpace(s[|s| - 1]) then TrimEnd(s[..|s| - 1]) else s
  }

  function Slashes(s: string): string {
    seq(|s|, i requires 0 <= i < |s| => if s[i] == '\\' then '/' else s[i])
  }

  function StripWorkspace(s: string): string {
    if "/workspace/" <= s then s[11..] else if "workspace/" <= s then s[10..] else s
  }

  function StripStart(s: string): (r: string)
    ensures |r| <= |s| && (s == [] || s[0] != '/' ==> r == s)
  {
    if s != [] && s[0] == '/' then StripStart(s[1..]) else s
  }

  function StripEnd(s: string): (r: string)
    ensures |r| <= |s| && (s == [] || s[|s| - 1] != '/' ==> r == s)
  {
    if s != [] && s[|s| - 1] == '/' then StripEnd(s[..|s| - 1]) else s
  }

  function Split(s: string): (r: seq<string>)
    ensures |r| >= 1
  {
    if s == [] then [""]
    else
      var rest := Split(s[1..]);
      if s[0] == '/' then [""] + rest else [[s[0]] + rest[0]] + rest[1..]
  }

  function Kept(segments: seq<string>): seq<string> {
    if segments == [] then []
    else (if segments[0] == "" || segments[0] == "." then [] else [segments[0]]) + Kept(segments[1..])
  }

  /** `normalizeWorkspacePath`; `None` is the exception. */
  function Normalize(raw: string): Option<Path> {
    var segments := Kept(Split(StripEnd(StripStart(StripWorkspace(Slashes(TrimEnd(TrimStart(raw))))))));
    if segments == [] || ".." in segments then None else Some(segments)
  }

  function Join(p: Path): string {
    if p == [] then "" else if |p| == 1 then p[0] else p[0] + "/" + Join(p[1..])
  }

  predicate Segment(s: string) {
    s != "" && s != "." && s != ".." && '/' !in s && '\\' !in s
  }

  predicate Canonical(p: Path) {
    p != [] && forall i :: 0 <= i < |p| ==> Segment(p[i])
  }

  // ------------------------------------------------------------- canonicality

  lemma {:induction false} SplitParts(s: string)
    ensures forall part <- Split(s) :: '/' !in part && forall c <- part :: c in s
  {
    if s != [] {
      SplitParts(s[1..]);
      var rest := Split(s[1..]);
      forall part <- Split(s) ensures '/' !in part && forall c <- part :: c in s {
        if part !in rest {
          assert rest[0] in rest;
        }
      }
    }
  }

  lemma {:induction false} KeptParts(segments: seq<string>)
    ensures forall s <- Kept(segments) :: s in segments && s != "" && s != "."
  {
    if segments != [] {
      KeptParts(segments[1..]);
    }
  }

  lemma {:induction false} StrippedPart(s: string)
    ensures (forall c <- StripStart(s) :: c in s) && (forall c <- StripEnd(s) :: c in s)
  {
    if s != [] {
      StrippedPart(s[1..]);
      StrippedPart(s[..|s| - 1]);
    }
  }

  lemma SlashesClean(s: string)
    ensures '\\' !in Slashes(s) && '\\' !in StripWorkspace(Slashes(s))
  {
  }

  /** Whatever a path is normalized to is canonical. */
  lemma NormalizeIsCanonical(raw: string)
    ensures Normalize(raw).Some? ==> Canonical(Normalize(raw).value)
  {
    var s := StripWorkspace(Slashes(TrimEnd(TrimStart(raw))));
    SlashesClean(TrimEnd(TrimStart(raw)));
    StrippedPart(s);
    StrippedPart(StripStart(s));
    var inner := StripEnd(StripStart(s));
    SplitParts(inner);
    KeptParts(Split(inner));
    hide Split, Kept, StripStart, StripEnd, StripWorkspace, Slashes;
    var p := Kept(Split(inner));
    if p != [] && ".." !in p {
      forall i | 0 <= i < |p| ensures Segment(p[i]) {
        assert p[i] in p && p[i] in Split(inner);
      }
    }
  }

  // --------------------------------------------------------------- round trip

  lemma {:induction false} SplitSegment(s: string, more: string)
    requires '/' !in s
    ensures Split(s) == [s]
    ensures Split(s + "/" + more) == [s] + Split(more)
  {
    if s == [] {
      assert s + "/" + more == "/" + more && ("/" + more)[1..] == more;
    } else {
      assert (s + "/" + more)[1..] == s[1..] + "/" + more && s == [s[0]] + s[1..];
      SplitSegment(s[1..], more);
    }
  }

  lemma {:induction false} SplitJoin(p: Path)
    requires Canonical(p)
    ensures Split(Join(p)) == p
  {
    assert '/' !in p[0];
    hide Segment, Split;
    if |p| == 1 {
      SplitSegment(p[0], "");
      assert p == [p[0]];
    } else {
      SplitSegment(p[0], Join(p[1..]));
      SplitJoin(p[1..]);
      assert p == [p[0]] + p[1..];
    }
  }

  lemma {:induction false} KeptCanonical(p: Path)
    requires Canonical(p)
    ensures Kept(p) == p
  {
    assert p == [p[0]] + p[1..];
    if |p| > 1 {
      KeptCanonical(p[1..]);
    }
  }

  /** Different canonical paths have different strings. */
  lemma JoinIsInjective(p: Path, q: Path)
    requires Canonical(p) && Canonical(q) && Join(p) == Join(q)
    ensures p == q
  {
    SplitJoin(p);
    SplitJoin(q);
  }

  lemma {:induction false} JoinEnds(p: Path)
    requires Canonical(p)
    ensures Join(p) != "" && Join(p)[0] == p[0][0]
    ensures var last := p[|p| - 1]; Join(p)[|Join(p)| - 1] == last[|last| - 1]
    ensures '\\' !in Join(p)
  {
    if |p| > 1 {
      JoinEnds(p[1..]);
    }
  }

  lemma {:induction false} JoinKeptShorter(segments: seq<string>)
    ensures |Join(Kept(segments))| <= |Join(segments)|
  {
    if segments != [] {
      var rest := Kept(segments[1..]);
      JoinKeptShorter(segments[1..]);
      assert ([segments[0]] + rest)[1..] == rest && [] + rest == rest;
    }
  }

  lemma {:induction false} JoinSplit(s: string)
    ensures Join(Split(s)) == s
  {
    if s != [] {
      JoinSplit(s[1..]);
      var rest := Split(s[1..]);
      if s[0] == '/' {
        assert ([""] + rest)[1..] == rest;
      } else {
        assert ([[s[0]] + rest[0]] + rest[1..])[1..] == rest[1..];
      }
    }
  }

  /** Normalizing never lengthens a path's string. */
  lemma NormalizeShortens(raw: string)
    ensures Normalize(raw).Some? ==>
      |Join(Normalize(raw).value)| <= |StripWorkspace(Slashes(TrimEnd(TrimStart(raw))))|
  {
    var inner := StripEnd(StripStart(StripWorkspace(Slashes(TrimEnd(TrimStart(raw))))));
    JoinSplit(inner);
    JoinKeptShorter(Split(inner));
  }

  /**
   * A canonical path that `normalizeWorkspacePath` leaves alone: no white space
   * at either end, and not inside a top-level folder called `workspace`.
   */
  predicate Stable(p: Path)
    requires Canonical(p)
  {
    var last := p[|p| - 1];
    && !IsSpace(p[0][0]) && !IsSpace(last[|last| - 1])
    && !(|p| >= 2 && p[0] == "workspace")
  }

  lemma InWorkspace(p: Path)
    requires Canonical(p) && |p| >= 2 && p[0] == "workspace"
    ensures "workspace/" <= Join(p)
  {
    assert Join(p) == p[0] + "/" + Join(p[1..]);
    hide Join;
    assert "workspace/" == "workspace" + "/";
  }

  lemma SplitAtSlash(name: string, s: string)
    requires '/' !in name && name + "/" <= s
    ensures |Split(s)| >= 2 && Split(s)[0] == name
  {
    var more := s[|name| + 1..];
    assert s == name + "/" + more;
    SplitSegment(name, more);
    hide Split;
  }

  lemma OnlyInWorkspace(p: Path)
    requires Canonical(p) && "workspace/" <= Join(p)
    ensures |p| >= 2 && p[0] == "workspace"
  {
    SplitJoin(p);
    hide Join, Split, Segment;
    assert "workspace" + "/" == "workspace/";
    SplitAtSlash("workspace", Join(p));
  }

  lemma WorkspacePrefix(p: Path)
    requires Canonical(p)
    ensures "workspace/" <= Join(p) <==> |p| >= 2 && p[0] == "workspace"
    ensures !("/workspace/" <= Join(p))
  {
    JoinEnds(p);
    assert '/' !in p[0];
    hide Join;
    if |p| >= 2 && p[0] == "workspace" {
      InWorkspace(p);
    }
    if "workspace/" <= Join(p) {
      OnlyInWorkspace(p);
    }
  }

  lemma StableStays(p: Path)
    requires Canonical(p) && Stable(p)
    ensures Normalize(Join(p)) == Some(p)
  {
    var s := Join(p);
    JoinEnds(p);
    SplitJoin(p);
    KeptCanonical(p);
    WorkspacePrefix(p);
    assert Slashes(s) == s && ".." !in p && '/' !in p[0] && '/' !in p[|p| - 1];
    hide Join, Split, Kept, TrimStart, TrimEnd, StripStart, StripEnd, Segment, Slashes, IsSpace;
    assert StripWorkspace(s) == s;
    hide StripWorkspace;
    assert StripStart(s) == s && StripEnd(s) == s && TrimStart(s) == s && TrimEnd(s) == s;
  }

  lemma UnstableShrinks(p: Path)
    requires Canonical(p) && !Stable(p)
    ensures var s := Join(p); |StripWorkspace(Slashes(TrimEnd(TrimStart(s))))| < |s|
  {
    var s := Join(p);
    JoinEnds(p);
    WorkspacePrefix(p);
    var t := TrimEnd(TrimStart(s));
    hide Join, TrimStart, TrimEnd;
    if |t| == |s| {
      assert t == s && Slashes(s) == s;
    }
  }

  /** Looking a canonical path up by its own string finds that path exactly when it is stable. */
  lemma NormalizeAgain(p: Path)
    requires Canonical(p)
    ensures Normalize(Join(p)) == Some(p) <==> Stable(p)
  {
    if Stable(p) {
      StableStays(p);
    } else {
      NormalizeShortens(Join(p));
      UnstableShrinks(p);
      hide Normalize, StripWorkspace, Slashes;
    }
  }

  /** One leading `workspace/` is dropped: so every path without white space at its end has an artifact that leads to it. */
  lemma PrefixIsDropped(p: Path)
    requires Canonical(p)
    requires var last := p[|p| - 1]; !IsSpace(last[|last| - 1])
    ensures Normalize("workspace/" + Join(p)) == Some(p)
  {
    var prefix := "workspace/";
    var s := prefix + Join(p);
    JoinEnds(p);
    SplitJoin(p);
    KeptCanonical(p);
    assert ".." !in p && '/' !in p[0] && '/' !in p[|p| - 1] && '\\' !in prefix && prefix[0] == 'w' && s[0] == 'w';
    assert Slashes(s) == s && s[10..] == Join(p) && prefix <= s;
    hide Join, Split, Kept, TrimStart, TrimEnd, StripStart, StripEnd, Segment, Slashes, IsSpace;
    assert TrimStart(s) == s && TrimEnd(s) == s;
    assert StripWorkspace(s) == Join(p);
    assert StripStart(Join(p)) == Join(p) && StripEnd(Join(p)) == Join(p);
  }

  // --------------------------------------------------------------- ancestors

  /** `getAncestorPaths`: strict ancestors, outermost first. */
  function Ancestors(p: Path): seq<Path> {
    if |p| <= 1 then [] else Ancestors(p[..|p| - 1]) + [p[..|p| - 1]]
  }

  lemma {:induction false} AncestorsArePrefixes(p: Path, a: Path)
    ensures a in Ancestors(p) <==> a != [] && a < p
  {
    if |p| > 1 {
      var front := p[..|p| - 1];
      AncestorsArePrefixes(front, a);
      assert a <= front ==> a == front[..|a|] == p[..|a|];
      assert a < p ==> a == p[..|a|] == front[..|a|];
    }
  }
}
