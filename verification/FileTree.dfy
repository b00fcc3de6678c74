/**
 The file system the packager reads, as a finite tree: regular files, directories and symbolic links.
 `RealPath` follows links as `realpathSync` does, `Lstat` follows every link but the last.
 */
module FileTree {
  import opened Wrappers
  import opened PathBoundary

  datatype Entry = Entry(name: string, node: Node)

  /** A link's target is given as the absolute path it denotes. */
  datatype Node =
    | File(bytes: seq<Byte>)
    | Directory(entries: seq<Entry>)
    | SymbolicLink(target: Path)
    | Special

  /** Names are segments, no directory names a child twice, and links point at normalized paths. */
  predicate WellFormed(n: Node)
    decreases n
  {
    match n
    case Directory(entries) =>
      && (forall i :: 0 <= i < |entries| ==> IsSegment(entries[i].name) && WellFormed(entries[i].node))
      && (forall i, j :: 0 <= i < j < |entries| ==> entries[i].name != entries[j].name)
    case SymbolicLink(target) => Normal(target)
    case _ => true
  }

  function Child(entries: seq<Entry>, name: string): Option<Node> {
    if entries == [] then None
    else if entries[0].name == name then Some(entries[0].node)
    else Child(entries[1..], name)
  }

  /** The node at a path through directories only. */
  function NodeAt(n: Node, path: Path): Option<Node>
    decreases |path|
  {
    if path == [] then Some(n)
    else if !n.Directory? then None
    else match Child(n.entries, path[0])
      case None => None
      case Some(child) => NodeAt(child, path[1..])
  }

  /** The number of links Linux follows before it gives up. */
  const MAX_LINKS: nat := 40

  function Walk(fs: Node, done: Path, todo: Path, links: nat): Option<Path>
    decreases links, |todo|
  {
    if todo == [] then Some(done)
    else match NodeAt(fs, done + [todo[0]])
      case None => None
      case Some(n) =>
        if !n.SymbolicLink? then Walk(fs, done + [todo[0]], todo[1..], links)
        else if links == 0 then None
        else Walk(fs, [], n.target + todo[1..], links - 1)
  }

  function RealPath(fs: Node, path: Path): Option<Path> {
    Walk(fs, [], path, MAX_LINKS)
  }

  predicate Exists(fs: Node, path: Path) {
    RealPath(fs, path).Some?
  }

  function Lstat(fs: Node, path: Path): Option<Node> {
    if path == [] then Some(fs)
    else match RealPath(fs, path[..|path| - 1])
      case None => None
      case Some(parent) => NodeAt(fs, parent + [path[|path| - 1]])
  }

  // ---------------------------------------------------------------- walking

  lemma {:induction false} NodeAtAppend(n: Node, a: Path, b: Path)
    ensures NodeAt(n, a + b) == if NodeAt(n, a).None? then None else NodeAt(NodeAt(n, a).value, b)
    decreases |a|
  {
    if a == [] {
      assert a + b == b;
    } else if n.Directory? && Child(n.entries, a[0]).Some? {
      NodeAtAppend(Child(n.entries, a[0]).value, a[1..], b);
      assert (a + b)[1..] == a[1..] + b;
    }
  }

  lemma {:induction false} ChildWellFormed(entries: seq<Entry>, name: string)
    requires forall i :: 0 <= i < |entries| ==> WellFormed(entries[i].node)
    ensures Child(entries, name).Some? ==> WellFormed(Child(entries, name).value)
  {
    if entries != [] {
      ChildWellFormed(entries[1..], name);
    }
  }

  lemma {:induction false} NodeAtWellFormed(n: Node, path: Path)
    requires WellFormed(n)
    ensures NodeAt(n, path).Some? ==> WellFormed(NodeAt(n, path).value)
    decreases |path|
  {
    if path != [] && n.Directory? {
      ChildWellFormed(n.entries, path[0]);
      if Child(n.entries, path[0]).Some? {
        NodeAtWellFormed(Child(n.entries, path[0]).value, path[1..]);
      }
    }
  }

  predicate IsPlain(n: Option<Node>) {
    n.Some? && !n.value.SymbolicLink?
  }

  /** A real path leads to a node that is there and is not a link. */
  lemma {:induction false} WalkEndsPlain(fs: Node, done: Path, todo: Path, links: nat)
    requires IsPlain(NodeAt(fs, done)) && IsPlain(Some(fs))
    ensures Walk(fs, done, todo, links).Some? ==> IsPlain(NodeAt(fs, Walk(fs, done, todo, links).value))
    decreases links, |todo|
  {
    if todo != [] && NodeAt(fs, done + [todo[0]]).Some? {
      var n := NodeAt(fs, done + [todo[0]]).value;
      if !n.SymbolicLink? {
        WalkEndsPlain(fs, done + [todo[0]], todo[1..], links);
      } else if links > 0 {
        WalkEndsPlain(fs, [], n.target + todo[1..], links - 1);
      }
    }
  }

  lemma {:induction false} WalkNormal(fs: Node, done: Path, todo: Path, links: nat)
    requires WellFormed(fs) && Normal(done) && Normal(todo)
    ensures Walk(fs, done, todo, links).Some? ==> Normal(Walk(fs, done, todo, links).value)
    decreases links, |todo|
  {
    hide WellFormed;
    if todo != [] && NodeAt(fs, done + [todo[0]]).Some? {
      var n := NodeAt(fs, done + [todo[0]]).value;
      if !n.SymbolicLink? {
        WalkNormal(fs, done + [todo[0]], todo[1..], links);
      } else if links > 0 {
        NodeAtWellFormed(fs, done + [todo[0]]);
        LinkIsNormal(n);
        WalkNormal(fs, [], n.target + todo[1..], links - 1);
      }
    }
  }

  lemma LinkIsNormal(n: Node)
    requires WellFormed(n) && n.SymbolicLink?
    ensures Normal(n.target)
  {
  }

  /** Where no link is met, walking goes straight there. */
  lemma {:induction false} WalkPlain(fs: Node, done: Path, todo: Path, links: nat)
    requires IsPlain(NodeAt(fs, done + todo))
    ensures Walk(fs, done, todo, links) == Some(done + todo)
    decreases |todo|
  {
    if todo == [] {
      assert done + todo == done;
    } else {
      var next := done + [todo[0]];
      assert next + todo[1..] == done + todo;
      NodeAtAppend(fs, next, todo[1..]);
      WalkPlain(fs, next, todo[1..], links);
    }
  }

  /** A real path is its own real path. */
  lemma RealPathIdempotent(fs: Node, path: Path)
    requires IsPlain(Some(fs)) && Exists(fs, path)
    ensures RealPath(fs, RealPath(fs, path).value) == RealPath(fs, path)
  {
    WalkEndsPlain(fs, [], path, MAX_LINKS);
    var actual := RealPath(fs, path).value;
    assert [] + actual == actual;
    WalkPlain(fs, [], actual, MAX_LINKS);
  }

  /** Below a path that resolves, plain nodes resolve to the same place below its real path. */
  lemma {:induction false} WalkExtends(fs: Node, done: Path, todo: Path, links: nat, more: Path)
    requires Walk(fs, done, todo, links).Some?
    requires IsPlain(NodeAt(fs, Walk(fs, done, todo, links).value + more))
    ensures Walk(fs, done, todo + more, links) == Some(Walk(fs, done, todo, links).value + more)
    decreases links, |todo|
  {
    if todo == [] {
      assert todo + more == more;
      WalkPlain(fs, done, more, links);
    } else {
      var n := NodeAt(fs, done + [todo[0]]).value;
      assert (todo + more)[1..] == todo[1..] + more;
      if !n.SymbolicLink? {
        WalkExtends(fs, done + [todo[0]], todo[1..], links, more);
      } else {
        WalkExtends(fs, [], n.target + todo[1..], links - 1, more);
        assert n.target + (todo[1..] + more) == (n.target + todo[1..]) + more;
      }
    }
  }

  /** What `lstat` finds, when it is not a link, is the node at the real path. */
  lemma LstatOfPlain(fs: Node, path: Path)
    requires IsPlain(Lstat(fs, path))
    ensures RealPath(fs, path).Some?
    ensures NodeAt(fs, RealPath(fs, path).value) == Lstat(fs, path)
  {
    if path != [] {
      var parent, last := path[..|path| - 1], path[|path| - 1];
      assert parent + [last] == path;
      WalkExtends(fs, [], parent, MAX_LINKS, [last]);
    }
  }

  // ---------------------------------------------------------------- listing

  /** `listFiles`, up to the order in which it sorts: every regular file and every link below a node. */
  function ListNode(n: Node, path: Path): seq<Path>
    decreases n, if n.Directory? then |n.entries| + 1 else 0
  {
    match n
    case File(_) => [path]
    case SymbolicLink(_) => [path]
    case Special => []
    case Directory(entries) => ListEntries(n, |entries|, path)
  }

  function ListEntries(n: Node, count: nat, path: Path): seq<Path>
    requires n.Directory? && count <= |n.entries|
    decreases n, count
  {
    if count == 0 then []
    else
      var entry := n.entries[count - 1];
      ListEntries(n, count - 1, path) + ListNode(entry.node, path + [entry.name])
  }

  function ListFiles(fs: Node, path: Path): seq<Path> {
    match Lstat(fs, path)
    case None => []
    case Some(n) => ListNode(n, path)
  }

  /** `f` lies below `path`, at the place `below` where the tree holds a file or a link. */
  ghost predicate Leaf(n: Node, path: Path, f: Path, below: Path) {
    && f == path + below && Normal(below)
    && NodeAt(n, below).Some?
    && (NodeAt(n, below).value.File? || NodeAt(n, below).value.SymbolicLink?)
  }

  lemma {:induction false} ChildByIndex(entries: seq<Entry>, i: nat)
    requires i < |entries|
    requires forall j, k :: 0 <= j < k < |entries| ==> entries[j].name != entries[k].name
    ensures Child(entries, entries[i].name) == Some(entries[i].node)
  {
    if i > 0 {
      assert entries[0].name != entries[i].name;
      ChildByIndex(entries[1..], i - 1);
    }
  }

  lemma {:induction false} ListedIsLeaf(n: Node, path: Path, f: Path) returns (below: Path)
    requires WellFormed(n) && f in ListNode(n, path)
    ensures Leaf(n, path, f, below)
    decreases n, if n.Directory? then |n.entries| + 1 else 0
  {
    if n.Directory? {
      below := ListedEntryIsLeaf(n, |n.entries|, path, f);
    } else {
      below := [];
      assert path + [] == path;
    }
  }

  lemma {:induction false} ListedEntryIsLeaf(n: Node, count: nat, path: Path, f: Path) returns (below: Path)
    requires WellFormed(n) && n.Directory? && count <= |n.entries|
    requires f in ListEntries(n, count, path)
    ensures Leaf(n, path, f, below)
    decreases n, count
  {
    var entry := n.entries[count - 1];
    if f in ListEntries(n, count - 1, path) {
      below := ListedEntryIsLeaf(n, count - 1, path, f);
    } else {
      var deeper := ListedIsLeaf(entry.node, path + [entry.name], f);
      below := [entry.name] + deeper;
      ChildByIndex(n.entries, count - 1);
      assert below[1..] == deeper;
      assert path + [entry.name] + deeper == path + below;
    }
  }

  lemma {:induction false} ChildFound(entries: seq<Entry>, name: string) returns (i: nat)
    requires Child(entries, name).Some?
    ensures i < |entries| && entries[i].name == name && Child(entries, name) == Some(entries[i].node)
  {
    i := 0;
    if entries[0].name != name {
      i := ChildFound(entries[1..], name);
      i := i + 1;
    }
  }

  lemma {:induction false} EntryListed(n: Node, count: nat, i: nat, path: Path, f: Path)
    requires n.Directory? && i < count <= |n.entries|
    requires f in ListNode(n.entries[i].node, path + [n.entries[i].name])
    ensures f in ListEntries(n, count, path)
    decreases count
  {
    hide ListNode;
    if i < count - 1 {
      EntryListed(n, count - 1, i, path, f);
    }
  }

  /** Nothing is left out: every regular file and every link of the tree below a node is listed. */
  lemma {:induction false} LeafListed(n: Node, path: Path, f: Path, below: Path)
    requires Leaf(n, path, f, below)
    ensures f in ListNode(n, path)
    decreases |below|
  {
    if below == [] {
      assert path + below == path;
    } else {
      var i := ChildFound(n.entries, below[0]);
      var child := n.entries[i];
      assert path + below == (path + [child.name]) + below[1..];
      assert Normal(below[1..]) by { assert forall j :: 0 <= j < |below[1..]| ==> below[1..][j] == below[j + 1]; }
      LeafListed(child.node, path + [child.name], f, below[1..]);
      EntryListed(n, |n.entries|, i, path, f);
    }
  }

  predicate Distinct(paths: seq<Path>) {
    forall i, j :: 0 <= i < j < |paths| ==> paths[i] != paths[j]
  }

  lemma DistinctConcat(a: seq<Path>, b: seq<Path>)
    requires Distinct(a) && Distinct(b) && forall x :: x in a ==> x !in b
    ensures Distinct(a + b)
  {
    var c := a + b;
    forall i, j | 0 <= i < j < |c|
      ensures c[i] != c[j]
    {
      if i < |a| <= j {
        assert c[i] in a && c[j] in b;
      }
    }
  }

  lemma {:induction false} EntryOf(n: Node, count: nat, path: Path, f: Path) returns (i: nat)
    requires WellFormed(n) && n.Directory? && count <= |n.entries|
    requires f in ListEntries(n, count, path)
    ensures i < count && |f| > |path| && f[|path|] == n.entries[i].name
    decreases count
  {
    if f in ListEntries(n, count - 1, path) {
      i := EntryOf(n, count - 1, path, f);
    } else {
      i := count - 1;
      var entry := n.entries[i];
      var below := ListedIsLeaf(entry.node, path + [entry.name], f);
      assert f == path + [entry.name] + below;
    }
  }

  /** ... and nothing is listed twice. */
  lemma {:induction false} ListedOnce(n: Node, path: Path)
    requires WellFormed(n)
    ensures Distinct(ListNode(n, path))
    decreases n, if n.Directory? then |n.entries| + 1 else 0
  {
    if n.Directory? {
      EntriesListedOnce(n, |n.entries|, path);
    }
  }

  lemma {:induction false} EntriesListedOnce(n: Node, count: nat, path: Path)
    requires WellFormed(n) && n.Directory? && count <= |n.entries|
    ensures Distinct(ListEntries(n, count, path))
    decreases n, count
  {
    hide ListNode, Distinct;
    if count == 0 {
      NothingDistinct();
    } else {
      var entry := n.entries[count - 1];
      var earlier, last := ListEntries(n, count - 1, path), ListNode(entry.node, path + [entry.name]);
      EntriesListedOnce(n, count - 1, path);
      ListedOnce(entry.node, path + [entry.name]);
      forall f | f in earlier
        ensures f !in last
      {
        var i := EntryOf(n, count - 1, path, f);
        if f in last {
          var below := ListedIsLeaf(entry.node, path + [entry.name], f);
          assert false;
        }
      }
      DistinctConcat(earlier, last);
    }
  }

  lemma NothingDistinct()
    ensures Distinct([])
  {
  }

  /** Every listed path is there for `lstat`; where it is not a link it has a real path, at a regular file. */
  lemma ListedResolves(fs: Node, path: Path, f: Path)
    requires WellFormed(fs) && IsPlain(Lstat(fs, path))
    requires f in ListFiles(fs, path)
    ensures Normal(path) ==> Normal(f)
    ensures Lstat(fs, f).Some? && (Lstat(fs, f).value.File? || Lstat(fs, f).value.SymbolicLink?)
    ensures Lstat(fs, f).value.File? ==>
      RealPath(fs, f).Some? && NodeAt(fs, RealPath(fs, f).value) == Lstat(fs, f)
  {
    hide WellFormed, ListNode;
    LstatOfPlain(fs, path);
    var actual := RealPath(fs, path).value;
    NodeAtWellFormed(fs, actual);
    var below := ListedIsLeaf(Lstat(fs, path).value, path, f);
    NodeAtAppend(fs, actual, below);
    LstatBelow(fs, path, below);
    if Lstat(fs, f).value.File? {
      LstatOfPlain(fs, f);
    }
  }

  lemma LstatBelow(fs: Node, path: Path, below: Path)
    requires IsPlain(Lstat(fs, path))
    requires RealPath(fs, path).Some? && NodeAt(fs, RealPath(fs, path).value + below).Some?
    requires NodeAt(fs, RealPath(fs, path).value) == Lstat(fs, path)
    ensures Lstat(fs, path + below) == NodeAt(fs, RealPath(fs, path).value + below)
  {
    var actual := RealPath(fs, path).value;
    if below == [] {
      assert path + below == path && actual + below == actual;
    } else {
      var init, last := below[..|below| - 1], below[|below| - 1];
      assert (path + below)[..|path + below| - 1] == path + init;
      assert actual + below == (actual + init) + [last];
      NodeAtAppend(fs, actual + init, [last]);
      WalkExtends(fs, [], path, MAX_LINKS, init);
    }
  }

  /** A directory with one file is a file system, and the file is what it lists. */
  lemma OneFileListed(name: string, bytes: seq<Byte>)
    requires IsSegment(name)
    ensures
      var fs := Directory([Entry(name, File(bytes))]);
      WellFormed(fs) && NodeAt(fs, [name]) == Some(File(bytes)) && ListFiles(fs, []) == [[name]]
  {
    var file := File(bytes);
    var fs := Directory([Entry(name, file)]);
    assert WellFormed(file);
    assert [name][1..] == [] && NodeAt(file, []) == Some(file);
    assert ListEntries(fs, 0, []) == [] && ListNode(file, [name]) == [[name]];
    assert [] + [name] == [name];
    assert ListEntries(fs, 1, []) == ListEntries(fs, 0, []) + ListNode(file, [] + [name]);
    assert ListNode(fs, []) == ListEntries(fs, 1, []);
  }
}
