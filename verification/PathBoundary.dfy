/**
 Path containment by segments: how `path.resolve` and `path.relative` act on POSIX paths, and what the
 two containment tests of the scripts, written on the relative path's text, mean for segments.

 A normalized absolute path is its sequence of segments; `[]` is the root directory.
 */
module PathBoundary {
  import opened Text

  type Path = seq<string>

  predicate IsSegment(s: string) {
    s != "" && s != "." && s != ".." && '/' !in s
  }

  predicate Normal(p: Path) {
    forall i :: 0 <= i < |p| ==> IsSegment(p[i])
  }

  predicate IsAbsolute(s: string) {
    s != "" && s[0] == '/'
  }

  // ---------------------------------------------------------------- relative paths

  function Join(parts: seq<string>): string {
    if parts == [] then ""
    else if |parts| == 1 then parts[0]
    else parts[0] + "/" + Join(parts[1..])
  }

  function CommonLength(a: Path, b: Path): (n: nat)
    ensures n <= |a| && n <= |b|
    ensures a[..n] == b[..n]
    ensures n < |a| && n < |b| ==> a[n] != b[n]
  {
    if a != [] && b != [] && a[0] == b[0] then
      var n := CommonLength(a[1..], b[1..]);
      assert a[..n + 1] == [a[0]] + a[1..][..n] == [b[0]] + b[1..][..n] == b[..n + 1];
      n + 1
    else 0
  }

  /** `path.relative`: one `..` for each segment to leave, then the segments to enter. */
  function Relative(from: Path, to: Path): string {
    var n := CommonLength(from, to);
    Join(seq(|from| - n, _ => "..") + to[n..])
  }

  predicate IsInsideOrEqual(path: Path, root: Path) {
    var delta := Relative(root, path);
    delta == "" || (delta != ".." && !StartsWith(delta, "..\\") && !StartsWith(delta, "../") && !IsAbsolute(delta))
  }

  predicate IsInsidePath(parent: Path, candidate: Path) {
    var delta := Relative(parent, candidate);
    delta == "" || (!StartsWith(delta, "..") && !IsAbsolute(delta))
  }

  // ---------------------------------------------------------------- what the tests mean

  lemma PrefixShared(root: Path, path: Path)
    ensures CommonLength(root, path) == |root| <==> root <= path
  {
    var n := CommonLength(root, path);
    assert n == |root| ==> root == path[..n];
  }

  /** The first segment below `root`, if any. */
  function NextSegment(root: Path, path: Path): string
    requires root <= path
  {
    if |path| > |root| then path[|root|] else ""
  }

  lemma RelativeOutside(root: Path, path: Path)
    requires !(root <= path)
    ensures StartsWith(Relative(root, path), "..")
    ensures Relative(root, path) == ".." || StartsWith(Relative(root, path), "../")
  {
    PrefixShared(root, path);
    var n := CommonLength(root, path);
    var parts := seq(|root| - n, _ => "..") + path[n..];
    assert parts[0] == "..";
    if |parts| > 1 {
      var delta := parts[0] + "/" + Join(parts[1..]);
      assert delta[..3] == "../";
    }
  }

  lemma RelativeInside(root: Path, path: Path)
    requires root <= path
    ensures Relative(root, path) == Join(path[|root|..])
  {
    PrefixShared(root, path);
    assert seq(0, _ => "..") + path[|root|..] == path[|root|..];
  }

  /** Joining segments hides nothing about the first one, except where a segment itself could fake it. */
  lemma JoinHead(parts: seq<string>, mark: string)
    requires parts != [] && IsSegment(parts[0])
    requires mark == ".." || mark == "..\\"
    ensures StartsWith(Join(parts), mark) <==> StartsWith(parts[0], mark)
  {
    var s, delta := parts[0], Join(parts);
    assert s <= delta;
    assert delta[..|s|] == s;
    if |parts| > 1 {
      assert delta[|s|] == '/';
    }
    assert |mark| <= |s| ==> delta[..|mark|] == s[..|mark|];
    SegmentIsNotDots(s);
  }

  lemma SegmentIsNotDots(s: string)
    requires IsSegment(s)
    ensures |s| <= 2 ==> !(forall i :: 0 <= i < |s| ==> s[i] == '.')
  {
    assert |s| == 1 ==> s == [s[0]];
    assert |s| == 2 ==> s == [s[0], s[1]];
  }

  lemma JoinNeverEscapes(parts: seq<string>)
    requires parts != [] && IsSegment(parts[0])
    ensures Join(parts) != "" && Join(parts) != ".." && !IsAbsolute(Join(parts)) && !StartsWith(Join(parts), "../")
  {
    var s, delta := parts[0], Join(parts);
    assert delta[..|s|] == s;
    assert delta[0] == s[0];
    if |parts| > 1 {
      assert delta[|s|] == '/';
      if |s| == 1 && |delta| >= 2 {
        assert delta[1] == '/';
      }
    }
    assert |delta| >= 3 ==> delta[..3] == [delta[0], delta[1], delta[2]];
    SegmentIsNotDots(s);
  }

  /**
   `isInsideOrEqual` holds exactly when the root is a segment prefix of the path, except that a first
   remaining segment opening with `..\` (a legal POSIX name) is taken for a Windows parent.
   */
  lemma InsideOrEqualMeans(path: Path, root: Path)
    requires Normal(path) && Normal(root)
    ensures IsInsideOrEqual(path, root) <==> root <= path && !StartsWith(NextSegment(root, path), "..\\")
  {
    hide Relative, Join;
    if root <= path {
      RelativeInside(root, path);
      if |path| > |root| {
        JoinHead(path[|root|..], "..\\");
        JoinNeverEscapes(path[|root|..]);
      } else {
        JoinOfNone(path[|root|..]);
      }
    } else {
      RelativeOutside(root, path);
    }
  }

  lemma JoinOfNone(parts: seq<string>)
    requires parts == []
    ensures Join(parts) == ""
  {
  }

  /** `isInsidePath` asks more: no first remaining segment may open with two dots at all. */
  lemma InsidePathMeans(parent: Path, candidate: Path)
    requires Normal(parent) && Normal(candidate)
    ensures IsInsidePath(parent, candidate) <==>
      parent <= candidate && !StartsWith(NextSegment(parent, candidate), "..")
  {
    hide Relative, Join;
    if parent <= candidate {
      RelativeInside(parent, candidate);
      if |candidate| > |parent| {
        JoinHead(candidate[|parent|..], "..");
        JoinNeverEscapes(candidate[|parent|..]);
      } else {
        JoinOfNone(candidate[|parent|..]);
      }
    } else {
      RelativeOutside(parent, candidate);
    }
  }

  /** The packager's test is the stricter of the two. */
  lemma InsidePathImpliesInsideOrEqual(parent: Path, candidate: Path)
    requires Normal(parent) && Normal(candidate)
    requires IsInsidePath(parent, candidate)
    ensures IsInsideOrEqual(candidate, parent)
  {
    hide IsInsidePath, IsInsideOrEqual;
    InsidePathMeans(parent, candidate);
    InsideOrEqualMeans(candidate, parent);
    var next := NextSegment(parent, candidate);
    assert |next| >= 3 ==> next[..2] == next[..3][..2];
  }

  // ---------------------------------------------------------------- resolving text

  /** The pieces between separators, empty ones included. */
  function Split(s: string, separators: set<char>): (r: seq<string>)
    ensures r != []
  {
    if s == "" then [""]
    else
      var rest := Split(s[1..], separators);
      if s[0] in separators then [""] + rest else [[s[0]] + rest[0]] + rest[1..]
  }

  const SLASH: set<char> := {'/'}
  const EITHER_SLASH: set<char> := {'/', '\\'}

  function Enter(base: Path, parts: seq<string>): Path
    decreases |parts|
  {
    if parts == [] then base
    else if parts[0] == "" || parts[0] == "." then Enter(base, parts[1..])
    else if parts[0] == ".." then Enter(if base == [] then [] else base[..|base| - 1], parts[1..])
    else Enter(base + [parts[0]], parts[1..])
  }

  /** `path.resolve(base, text)`. */
  function Resolve(base: Path, text: string): Path {
    Enter(if IsAbsolute(text) then [] else base, Split(text, SLASH))
  }

  predicate ContainsParentTraversal(text: string) {
    ".." in Split(text, EITHER_SLASH)
  }

  lemma {:induction false} SplitPieces(s: string, separators: set<char>)
    ensures forall i, c :: 0 <= i < |Split(s, separators)| && c in Split(s, separators)[i] ==> c !in separators
  {
    if s != "" {
      SplitPieces(s[1..], separators);
    }
  }

  lemma {:induction false} EnterNormal(base: Path, parts: seq<string>)
    requires Normal(base)
    requires forall i :: 0 <= i < |parts| ==> '/' !in parts[i]
    ensures Normal(Enter(base, parts))
    decreases |parts|
  {
    if parts != [] {
      var next :=
        if parts[0] == "" || parts[0] == "." then base
        else if parts[0] == ".." then (if base == [] then [] else base[..|base| - 1])
        else base + [parts[0]];
      assert Normal(next);
      EnterNormal(next, parts[1..]);
    }
  }

  lemma ResolveNormal(base: Path, text: string)
    requires Normal(base)
    ensures Normal(Resolve(base, text))
  {
    hide Split;
    SplitPieces(text, SLASH);
    var parts := Split(text, SLASH);
    forall i | 0 <= i < |parts|
      ensures '/' !in parts[i]
    {
    }
    EnterNormal(if IsAbsolute(text) then [] else base, parts);
  }

  lemma {:induction false} EnterBelow(base: Path, parts: seq<string>)
    requires ".." !in parts
    ensures base <= Enter(base, parts)
    decreases |parts|
  {
    if parts != [] {
      var next := if parts[0] == "" || parts[0] == "." then base else base + [parts[0]];
      EnterBelow(next, parts[1..]);
    }
  }

  /** A piece between forward slashes that holds no backslash is also a piece between slashes of either kind. */
  lemma {:induction false} FinerSplit(s: string)
    ensures
      var coarse, fine := Split(s, SLASH), Split(s, EITHER_SLASH);
      && ('\\' !in coarse[0] ==> fine[0] == coarse[0])
      && (forall i :: 1 <= i < |coarse| && '\\' !in coarse[i] ==> coarse[i] in fine[1..])
  {
    if s != "" {
      FinerSplit(s[1..]);
      var restCoarse, restFine := Split(s[1..], SLASH), Split(s[1..], EITHER_SLASH);
      var coarse, fine := Split(s, SLASH), Split(s, EITHER_SLASH);
      assert restFine == [restFine[0]] + restFine[1..];
      if s[0] == '/' {
        assert fine[1..] == restFine && coarse[1..] == restCoarse;
      } else {
        assert coarse[0] == [s[0]] + restCoarse[0];
        assert coarse[1..] == restCoarse[1..];
        assert s[0] == '\\' ==> fine[1..] == restFine;
        assert s[0] != '\\' ==> fine[1..] == restFine[1..];
      }
    }
  }

  /** Without a `..` between slashes of either kind, a relative text stays below the directory it is resolved in. */
  lemma TamePathStaysBelow(base: Path, text: string)
    requires !IsAbsolute(text) && !ContainsParentTraversal(text)
    ensures base <= Resolve(base, text)
  {
    hide Split, Enter;
    FinerSplit(text);
    var coarse, fine := Split(text, SLASH), Split(text, EITHER_SLASH);
    assert forall i :: 0 <= i < |coarse| && coarse[i] == ".." ==> '\\' !in coarse[i];
    assert forall x :: x in fine[1..] ==> x in fine;
    EnterBelow(base, coarse);
  }

  // ---------------------------------------------------------------- there and back

  lemma {:induction false} SplitSlashless(s: string, rest: string)
    requires '/' !in s
    ensures Split(s, SLASH) == [s]
    ensures Split(s + "/" + rest, SLASH) == [s] + Split(rest, SLASH)
  {
    if s == "" {
      assert (s + "/" + rest)[1..] == rest;
    } else {
      assert s[0] in s && forall c :: c in s[1..] ==> c in s;
      SplitSlashless(s[1..], rest);
      assert (s + "/" + rest)[1..] == s[1..] + "/" + rest;
      assert s == [s[0]] + s[1..];
    }
  }

  lemma {:induction false} SplitJoin(parts: seq<string>)
    requires parts != [] && forall i :: 0 <= i < |parts| ==> '/' !in parts[i]
    ensures Split(Join(parts), SLASH) == parts
  {
    hide Split;
    if |parts| == 1 {
      SplitSlashless(parts[0], "");
      assert parts == [parts[0]];
    } else {
      SplitSlashless(parts[0], Join(parts[1..]));
      SplitJoin(parts[1..]);
      assert parts == [parts[0]] + parts[1..];
    }
  }

  lemma {:induction false} EnterSegments(base: Path, parts: Path)
    requires Normal(parts)
    ensures Enter(base, parts) == base + parts
    decreases |parts|
  {
    if parts == [] {
      assert base + parts == base;
    } else {
      EnterSegments(base + [parts[0]], parts[1..]);
      assert base + [parts[0]] + parts[1..] == base + parts;
    }
  }

  lemma {:induction false} EnterLeaves(base: Path, k: nat, parts: Path)
    requires k <= |base|
    ensures Enter(base, seq(k, _ => "..") + parts) == Enter(base[..|base| - k], parts)
  {
    var text := seq(k, _ => "..") + parts;
    if k == 0 {
      assert text == parts && base[..|base|] == base;
    } else {
      var up := base[..|base| - 1];
      EnterLeaves(up, k - 1, parts);
      assert text[0] == ".." && text[1..] == seq(k - 1, _ => "..") + parts;
      assert up[..|up| - (k - 1)] == base[..|base| - k];
    }
  }

  lemma JoinRelative(parts: seq<string>)
    requires parts != [] ==> parts[0] != "" && '/' !in parts[0]
    ensures !IsAbsolute(Join(parts))
  {
    if parts != [] {
      assert Join(parts)[0] == parts[0][0];
    }
  }

  lemma EnterNothing(base: Path)
    ensures Enter(base, [""]) == base
  {
    assert [""][1..] == [];
  }

  /** The relative path leads from the one to the other: `resolve(from, relative(from, to))` is `to`. */
  lemma ResolveRelative(from: Path, to: Path)
    requires Normal(from) && Normal(to)
    ensures Resolve(from, Relative(from, to)) == to
  {
    hide Split, Enter, Join, CommonLength;
    var n := CommonLength(from, to);
    var ups := seq(|from| - n, _ => "..");
    var parts := ups + to[n..];
    assert forall i :: 0 <= i < |parts| ==> parts[i] == (if i < |ups| then ".." else to[n..][i - |ups|]);
    assert to == to[..n] + to[n..] && from[..|from| - |ups|] == to[..n];
    JoinRelative(parts);
    if parts == [] {
      JoinOfNone(parts);
      SplitSlashless("", "");
      EnterNothing(from);
    } else {
      SplitJoin(parts);
      EnterLeaves(from, |from| - n, to[n..]);
      EnterSegments(to[..n], to[n..]);
    }
  }
}
