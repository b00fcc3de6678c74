/**
 Gathering the artifacts a rehearsal manifest refers to: which references there are, which are denied,
 missing or copied, and what the bundle then holds.
 */
module ArtifactBundle {
  import opened Wrappers
  import opened Text
  import opened PathBoundary
  import opened FileTree

  // ---------------------------------------------------------------- the boundary

  datatype Reason = AbsolutePath | ParentTraversal | OutsideAllowedRoots | SymlinkArtifact

  /** The file system, the repository's root in it, and SHA-256. */
  datatype Workspace = Workspace(fs: Node, rootDir: Path, sha256: seq<Byte> -> string)

  predicate Sound(ws: Workspace) {
    WellFormed(ws.fs) && ws.fs.Directory? && Normal(ws.rootDir)
  }

  const ALLOWED_ROOTS := [".attestor/rehearsal", ".attestor/production-readiness", ".attestor/release-provenance"]

  function AllowedRoot(ws: Workspace, i: nat): Path
    requires i < |ALLOWED_ROOTS|
  {
    var root := Resolve(ws.rootDir, ALLOWED_ROOTS[i]);
    match RealPath(ws.fs, root)
    case None => root
    case Some(actual) => actual
  }

  predicate InsideAllowed(ws: Workspace, p: Path) {
    exists i: nat :: i < |ALLOWED_ROOTS| && IsInsidePath(AllowedRoot(ws, i), p)
  }

  function Located(ws: Workspace, text: string): Path {
    Resolve(ws.rootDir, text)
  }

  predicate IsLink(ws: Workspace, p: Path) {
    Lstat(ws.fs, p).Some? && Lstat(ws.fs, p).value.SymbolicLink?
  }

  /** `artifactPathBoundaryDenial`. */
  function Denial(ws: Workspace, text: string): Option<Reason> {
    if IsAbsolute(text) then Some(AbsolutePath)
    else if ContainsParentTraversal(text) then Some(ParentTraversal)
    else
      var p := Located(ws, text);
      if !InsideAllowed(ws, p) then Some(OutsideAllowedRoots)
      else if !Exists(ws.fs, p) then None
      else if IsLink(ws, p) then Some(SymlinkArtifact)
      else if !InsideAllowed(ws, RealPath(ws.fs, p).value) then Some(OutsideAllowedRoots)
      else None
  }

  /** Some allowed root, links resolved, is a segment prefix of `p`. */
  ghost predicate Under(ws: Workspace, p: Path) {
    exists i: nat :: i < |ALLOWED_ROOTS| && AllowedRoot(ws, i) <= p
  }

  /** ... and what follows the root does not open with two dots. */
  ghost predicate StrictlyUnder(ws: Workspace, p: Path) {
    exists i: nat :: i < |ALLOWED_ROOTS| && AllowedRoot(ws, i) <= p
      && !StartsWith(NextSegment(AllowedRoot(ws, i), p), "..")
  }

  lemma AllowedRootNormal(ws: Workspace, i: nat)
    requires Sound(ws) && i < |ALLOWED_ROOTS|
    ensures Normal(AllowedRoot(ws, i))
  {
    hide WellFormed, Resolve, Walk;
    ResolveNormal(ws.rootDir, ALLOWED_ROOTS[i]);
    WalkNormal(ws.fs, [], Resolve(ws.rootDir, ALLOWED_ROOTS[i]), MAX_LINKS);
  }

  lemma InsideAllowedMeans(ws: Workspace, p: Path)
    requires Sound(ws) && Normal(p)
    ensures InsideAllowed(ws, p) <==> StrictlyUnder(ws, p)
    ensures InsideAllowed(ws, p) ==> Under(ws, p)
  {
    hide AllowedRoot, IsInsidePath, WellFormed;
    forall i: nat | i < |ALLOWED_ROOTS|
      ensures IsInsidePath(AllowedRoot(ws, i), p) <==>
        AllowedRoot(ws, i) <= p && !StartsWith(NextSegment(AllowedRoot(ws, i), p), "..")
    {
      AllowedRootNormal(ws, i);
      InsidePathMeans(AllowedRoot(ws, i), p);
    }
  }

  /** Exactly which references pass the boundary, said by segments and real locations. */
  lemma AcceptedMeans(ws: Workspace, text: string)
    requires Sound(ws)
    ensures
      var p := Located(ws, text);
      Denial(ws, text) == None <==>
        && !IsAbsolute(text) && !ContainsParentTraversal(text)
        && StrictlyUnder(ws, p)
        && (Exists(ws.fs, p) ==> !IsLink(ws, p) && StrictlyUnder(ws, RealPath(ws.fs, p).value))
  {
    hide WellFormed, StrictlyUnder, InsideAllowed, Under, ContainsParentTraversal, Walk, Lstat, Resolve;
    var p := Located(ws, text);
    ResolveNormal(ws.rootDir, text);
    InsideAllowedMeans(ws, p);
    WalkNormal(ws.fs, [], p, MAX_LINKS);
    if Exists(ws.fs, p) {
      InsideAllowedMeans(ws, RealPath(ws.fs, p).value);
    }
  }

  /** A reference that is not denied stays below the workspace, and what it denotes really lies under an allowed root. */
  lemma AcceptedIsContained(ws: Workspace, text: string)
    requires Sound(ws) && Denial(ws, text) == None
    ensures ws.rootDir <= Located(ws, text)
    ensures Under(ws, Located(ws, text))
    ensures Exists(ws.fs, Located(ws, text)) ==> Under(ws, RealPath(ws.fs, Located(ws, text)).value)
  {
    AcceptedMeans(ws, text);
    TamePathStaysBelow(ws.rootDir, text);
  }

  /**
   The lexical test compares an unresolved path with resolved roots. Where the allowed roots exist but
   really lie elsewhere (a workspace entered through a link), every relative reference is denied.
   */
  lemma LinkedWorkspaceDeniesAll(ws: Workspace, text: string)
    requires Sound(ws)
    requires forall i: nat :: i < |ALLOWED_ROOTS| ==>
      !(AllowedRoot(ws, i) <= ws.rootDir) && !(ws.rootDir <= AllowedRoot(ws, i))
    ensures Denial(ws, text).Some?
  {
    hide WellFormed, AllowedRoot, Denial;
    if Denial(ws, text) == None {
      AcceptedIsContained(ws, text);
      var i: nat :| i < |ALLOWED_ROOTS| && AllowedRoot(ws, i) <= Located(ws, text);
      PrefixesCompare(AllowedRoot(ws, i), ws.rootDir, Located(ws, text));
      assert false;
    }
  }

  const ROOT_NAMES := ["rehearsal", "production-readiness", "release-provenance"]

  const ATTESTOR := Directory([
    Entry(ROOT_NAMES[0], Directory([])), Entry(ROOT_NAMES[1], Directory([])), Entry(ROOT_NAMES[2], Directory([]))])

  const HOME := Directory([Entry(".attestor", ATTESTOR)])

  /** A workspace with all its roots, entered through a link to it. */
  function EnteredThroughLink(sha256: seq<Byte> -> string): Workspace {
    Workspace(Directory([Entry("home", HOME), Entry("w", SymbolicLink(["home"]))]), ["w"], sha256)
  }

  lemma {:induction false} SplitPlain(s: string)
    requires '/' !in s
    ensures Split(s, SLASH) == [s]
  {
    if s != "" {
      SplitPlain(s[1..]);
      assert [s[0]] + s[1..] == s;
    }
  }

  lemma {:induction false} SplitTwo(a: string, b: string)
    requires '/' !in a && '/' !in b
    ensures Split(a + "/" + b, SLASH) == [a, b]
  {
    var s := a + "/" + b;
    if a == "" {
      assert s[1..] == b;
      SplitPlain(b);
    } else {
      assert s[0] == a[0] && s[1..] == a[1..] + "/" + b && [a[0]] + a[1..] == a;
      SplitTwo(a[1..], b);
      assert [a[1..], b][1..] == [b];
    }
  }

  lemma RootsSplit(i: nat)
    requires i < 3
    ensures ALLOWED_ROOTS[i] == ".attestor" + "/" + ROOT_NAMES[i]
    ensures IsSegment(ROOT_NAMES[i]) && IsSegment(".attestor")
  {
    hide IsSegment;
    RootIsSegment(i);
    FirstRoot();
    SecondRoot();
    ThirdRoot();
  }

  lemma FirstRoot()
    ensures ALLOWED_ROOTS[0] == ".attestor" + "/" + ROOT_NAMES[0]
  {
    assert ".attestor/rehearsal" == ".attestor" + "/" + "rehearsal";
  }

  lemma SecondRoot()
    ensures ALLOWED_ROOTS[1] == ".attestor" + "/" + ROOT_NAMES[1]
  {
    assert ".attestor/production-readiness" == ".attestor" + "/" + "production-readiness";
  }

  lemma ThirdRoot()
    ensures ALLOWED_ROOTS[2] == ".attestor" + "/" + ROOT_NAMES[2]
  {
    assert ".attestor/release-provenance" == ".attestor" + "/" + "release-provenance";
  }

  lemma RootIsSegment(i: nat)
    requires i < 3
    ensures IsSegment(ROOT_NAMES[i]) && IsSegment(".attestor")
  {
    if i == 0 {
      assert IsSegment("rehearsal");
    } else if i == 1 {
      assert IsSegment("production-readiness");
    } else {
      assert IsSegment("release-provenance");
    }
  }

  lemma RootLocated(ws: Workspace, i: nat)
    requires i < 3
    ensures Resolve(ws.rootDir, ALLOWED_ROOTS[i]) == ws.rootDir + [".attestor", ROOT_NAMES[i]]
  {
    RootsSplit(i);
    hide IsSegment;
    SplitTwo(".attestor", ROOT_NAMES[i]);
    EnterTwo(ws.rootDir, ".attestor", ROOT_NAMES[i]);
    assert ALLOWED_ROOTS[i][0] == '.';
  }

  lemma EnterTwo(base: Path, a: string, b: string)
    requires IsSegment(a) && IsSegment(b)
    ensures Enter(base, [a, b]) == base + [a, b]
  {
    assert [a, b][1..] == [b] && [b][1..] == [];
    assert Enter(base + [a] + [b], []) == base + [a] + [b];
    assert Enter(base + [a], [b]) == base + [a] + [b];
    assert base + [a] + [b] == base + [a, b];
  }

  lemma ChildOfTwo(a: Entry, b: Entry)
    requires a.name != b.name
    ensures Child([a, b], a.name) == Some(a.node) && Child([a, b], b.name) == Some(b.node)
  {
    assert [a, b][1..] == [b];
  }

  lemma ChildOfThree(a: Entry, b: Entry, c: Entry)
    requires a.name != b.name && a.name != c.name && b.name != c.name
    ensures Child([a, b, c], a.name) == Some(a.node) && Child([a, b, c], b.name) == Some(b.node)
    ensures Child([a, b, c], c.name) == Some(c.node)
  {
    assert [a, b, c][1..] == [b, c];
    ChildOfTwo(b, c);
  }

  lemma RootChild(i: nat)
    requires i < 3
    ensures NodeAt(ATTESTOR, [ROOT_NAMES[i]]) == Some(Directory([]))
  {
    assert |ROOT_NAMES[0]| == 9 && |ROOT_NAMES[1]| == 20 && |ROOT_NAMES[2]| == 18;
    var es := ATTESTOR.entries;
    ChildOfThree(es[0], es[1], es[2]);
    assert es == [es[0], es[1], es[2]];
    assert [ROOT_NAMES[i]][1..] == [];
  }

  lemma LinkedNodes(ws: Workspace, i: nat)
    requires ws == EnteredThroughLink(ws.sha256) && i < 3
    ensures NodeAt(ws.fs, ["w"]) == Some(SymbolicLink(["home"]))
    ensures NodeAt(ws.fs, ["home", ".attestor", ROOT_NAMES[i]]) == Some(Directory([]))
  {
    var path := ["home", ".attestor", ROOT_NAMES[i]];
    assert path[1..] == [".attestor", ROOT_NAMES[i]] && path[1..][1..] == [ROOT_NAMES[i]];
    assert "home"[0] != "w"[0];
    ChildOfTwo(Entry("home", HOME), Entry("w", SymbolicLink(["home"])));
    assert ["w"][1..] == [];
    assert NodeAt(SymbolicLink(["home"]), []) == Some(SymbolicLink(["home"]));
    RootChild(i);
    assert NodeAt(HOME, path[1..]) == Some(Directory([]));
  }

  lemma LinkedRoot(ws: Workspace, i: nat)
    requires ws == EnteredThroughLink(ws.sha256) && i < 3
    ensures AllowedRoot(ws, i) == ["home", ".attestor", ROOT_NAMES[i]]
  {
    hide NodeAt, Resolve;
    RootLocated(ws, i);
    LinkedNodes(ws, i);
    var path, actual := ["w", ".attestor", ROOT_NAMES[i]], ["home", ".attestor", ROOT_NAMES[i]];
    assert ws.rootDir + [".attestor", ROOT_NAMES[i]] == path;
    assert [] + [path[0]] == ["w"] && ["home"] + path[1..] == actual && [] + actual == actual;
    WalkPlain(ws.fs, [], actual, MAX_LINKS - 1);
    assert Walk(ws.fs, [], path, MAX_LINKS) == Walk(ws.fs, [], actual, MAX_LINKS - 1);
  }

  /** Such a workspace: sound and complete, and everything in it is denied. */
  lemma LinkedWorkspaceExample(sha256: seq<Byte> -> string, text: string)
    ensures Sound(EnteredThroughLink(sha256)) && Denial(EnteredThroughLink(sha256), text).Some?
  {
    var ws := EnteredThroughLink(sha256);
    assert Sound(ws) by { LinkedSound(sha256); }
    hide Denial, AllowedRoot, Sound;
    forall i: nat | i < |ALLOWED_ROOTS|
      ensures !(AllowedRoot(ws, i) <= ws.rootDir) && !(ws.rootDir <= AllowedRoot(ws, i))
    {
      LinkedRoot(ws, i);
      assert ws.rootDir[0] == "w" && AllowedRoot(ws, i)[0] == "home";
      assert "home"[0] != "w"[0];
    }
    LinkedWorkspaceDeniesAll(ws, text);
  }

  lemma LinkedSound(sha256: seq<Byte> -> string)
    ensures Sound(EnteredThroughLink(sha256))
  {
    RootIsSegment(0);
    RootIsSegment(1);
    RootIsSegment(2);
    assert |ROOT_NAMES[0]| == 9 && |ROOT_NAMES[1]| == 20 && |ROOT_NAMES[2]| == 18;
    assert WellFormed(ATTESTOR);
    assert WellFormed(HOME);
    assert Normal(["home"]);
    assert "home"[0] != "w"[0];
  }

  lemma PrefixesCompare(a: Path, b: Path, c: Path)
    requires a <= c && b <= c
    ensures a <= b || b <= a
  {
    assert a == c[..|a|] && b == c[..|b|];
    if |a| <= |b| {
      assert b[..|a|] == a;
    } else {
      assert a[..|b|] == b;
    }
  }

  // ---------------------------------------------------------------- references

  datatype EvidenceItem = EvidenceItem(
    id: string, artifactPath: string, required: bool, producer: string, verification: Option<string>, kind: string,
    status: string, expectedDigest: Option<string>)

  datatype Command = Command(
    id: string, command: string, required: bool, expectedArtifacts: seq<string>, evidenceIds: seq<string>)

  datatype Ref = Ref(
    id: string, path: string, required: bool, producer: string, verification: Option<string>, kind: string,
    expectedDigest: Option<string>)

  const FINAL_COMMAND_ID := "package-production-promotion-candidate"
  const FINAL_COMMAND_TEXT := "package:production-promotion-candidate"

  predicate IsFinalCommand(c: Command) {
    c.id == FINAL_COMMAND_ID || Contains(c.command, FINAL_COMMAND_TEXT)
  }

  function FinalIds(commands: seq<Command>): set<string> {
    set i, j | 0 <= i < |commands| && IsFinalCommand(commands[i]) && 0 <= j < |commands[i].evidenceIds|
      :: commands[i].evidenceIds[j]
  }

  function Key(id: string, path: string): string {
    id + ":" + path
  }

  function KeyOf(r: Ref): string {
    Key(r.id, r.path)
  }

  function EvidenceRef(item: EvidenceItem): Ref {
    Ref(item.id, item.artifactPath, item.required, item.producer, item.verification, item.kind, item.expectedDigest)
  }

  function CommandRef(c: Command, path: string): Ref {
    Ref(c.id, path, c.required, c.command, Some("Expected artifact from " + c.id), "artifact", None)
  }

  /** `Map.set`: a known key keeps its place and gets the new value, a new one goes to the end. */
  function Put(refs: seq<Ref>, r: Ref): (s: seq<Ref>)
    ensures |s| >= |refs|
  {
    if refs == [] then [r]
    else if KeyOf(refs[0]) == KeyOf(r) then [r] + refs[1..]
    else [refs[0]] + Put(refs[1..], r)
  }

  /** The writes to the map, in order: evidence items first, then the commands' artifacts. */
  function EvidenceWrites(items: seq<EvidenceItem>, finalIds: set<string>): seq<Ref> {
    if items == [] then []
    else
      var item := items[|items| - 1];
      EvidenceWrites(items[..|items| - 1], finalIds)
      + if item.id in finalIds || item.artifactPath == "" then [] else [EvidenceRef(item)]
  }

  function ArtifactWrites(c: Command, paths: seq<string>): seq<Ref> {
    if paths == [] then []
    else ArtifactWrites(c, paths[..|paths| - 1]) + [CommandRef(c, paths[|paths| - 1])]
  }

  function CommandWrites(commands: seq<Command>): seq<Ref> {
    if commands == [] then []
    else
      var c := commands[|commands| - 1];
      CommandWrites(commands[..|commands| - 1])
      + if IsFinalCommand(c) then [] else ArtifactWrites(c, c.expectedArtifacts)
  }

  function PutAll(refs: seq<Ref>, writes: seq<Ref>): seq<Ref> {
    if writes == [] then refs else Put(PutAll(refs, writes[..|writes| - 1]), writes[|writes| - 1])
  }

  lemma {:induction false} PutAllAppend(refs: seq<Ref>, a: seq<Ref>, b: seq<Ref>)
    ensures PutAll(refs, a + b) == PutAll(PutAll(refs, a), b)
    decreases |b|
  {
    if b == [] {
      assert a + b == a;
    } else {
      assert (a + b)[..|a + b| - 1] == a + b[..|b| - 1];
      PutAllAppend(refs, a, b[..|b| - 1]);
    }
  }

  lemma PutAllOne(refs: seq<Ref>, r: Ref)
    ensures PutAll(refs, [r]) == Put(refs, r)
  {
    assert [r][..0] == [];
    assert PutAll(refs, []) == refs;
  }

  lemma NoWrites(finalIds: set<string>)
    ensures EvidenceWrites([], finalIds) == [] && CommandWrites([]) == []
  {
  }

  lemma NoArtifacts(c: Command)
    ensures ArtifactWrites(c, []) == []
  {
  }

  lemma EvidenceStep(items: seq<EvidenceItem>, i: nat, finalIds: set<string>)
    requires i < |items|
    ensures EvidenceWrites(items[..i + 1], finalIds) == EvidenceWrites(items[..i], finalIds)
      + if items[i].id in finalIds || items[i].artifactPath == "" then [] else [EvidenceRef(items[i])]
    ensures items[i].id in finalIds || items[i].artifactPath == "" ==>
      EvidenceWrites(items[..i + 1], finalIds) == EvidenceWrites(items[..i], finalIds)
  {
    assert items[..i + 1][..i] == items[..i];
  }

  lemma CommandStep(commands: seq<Command>, i: nat)
    requires i < |commands|
    ensures
      var c := commands[i];
      && (!IsFinalCommand(c) ==>
          CommandWrites(commands[..i + 1]) == CommandWrites(commands[..i]) + ArtifactWrites(c, c.expectedArtifacts))
      && (IsFinalCommand(c) ==> CommandWrites(commands[..i + 1]) == CommandWrites(commands[..i]))
  {
    hide IsFinalCommand;
    assert commands[..i + 1][..i] == commands[..i];
  }

  lemma ArtifactStep(c: Command, j: nat)
    requires j < |c.expectedArtifacts|
    ensures ArtifactWrites(c, c.expectedArtifacts[..j + 1])
      == ArtifactWrites(c, c.expectedArtifacts[..j]) + [CommandRef(c, c.expectedArtifacts[j])]
  {
    assert c.expectedArtifacts[..j + 1][..j] == c.expectedArtifacts[..j];
  }

  /** `collectArtifactReferences`. */
  method CollectReferences(items: seq<EvidenceItem>, commands: seq<Command>) returns (refs: seq<Ref>)
    ensures refs == PutAll([], EvidenceWrites(items, FinalIds(commands)) + CommandWrites(commands))
  {
    hide PutAll, Put, FinalIds, IsFinalCommand, EvidenceWrites, CommandWrites, ArtifactWrites;
    var finalIds := FinalIds(commands);
    ghost var evidence := EvidenceWrites(items, finalIds);
    refs := [];
    NoWrites(finalIds);
    NothingPut([]);
    for i := 0 to |items|
      invariant refs == PutAll([], EvidenceWrites(items[..i], finalIds))
    {
      var item := items[i];
      EvidenceStep(items, i, finalIds);
      if item.id !in finalIds && item.artifactPath != "" {
        PutAllAppend([], EvidenceWrites(items[..i], finalIds), [EvidenceRef(item)]);
        PutAllOne(refs, EvidenceRef(item));
        refs := Put(refs, EvidenceRef(item));
      }
    }
    assert items[..|items|] == items;
    ghost var before := refs;
    NothingPut(before);
    for i := 0 to |commands|
      invariant refs == PutAll(before, CommandWrites(commands[..i]))
    {
      var c := commands[i];
      CommandStep(commands, i);
      if !IsFinalCommand(c) {
        ghost var start := refs;
        NothingPut(start);
        assert ArtifactWrites(c, []) == [] by { NoArtifacts(c); }
        for j := 0 to |c.expectedArtifacts|
          invariant refs == PutAll(start, ArtifactWrites(c, c.expectedArtifacts[..j]))
        {
          ArtifactStep(c, j);
          var r := CommandRef(c, c.expectedArtifacts[j]);
          PutAllAppend(start, ArtifactWrites(c, c.expectedArtifacts[..j]), [r]);
          PutAllOne(refs, r);
          refs := Put(refs, r);
        }
        assert c.expectedArtifacts[..|c.expectedArtifacts|] == c.expectedArtifacts;
        PutAllAppend(before, CommandWrites(commands[..i]), ArtifactWrites(c, c.expectedArtifacts));
      }
    }
    assert commands[..|commands|] == commands;
    PutAllAppend([], evidence, CommandWrites(commands));
  }

  lemma NothingPut(refs: seq<Ref>)
    ensures PutAll(refs, []) == refs
  {
  }

  predicate DistinctKeys(refs: seq<Ref>) {
    forall i, j :: 0 <= i < j < |refs| ==> KeyOf(refs[i]) != KeyOf(refs[j])
  }

  lemma {:induction false} PutEffect(refs: seq<Ref>, r: Ref)
    requires DistinctKeys(refs)
    ensures DistinctKeys(Put(refs, r))
    ensures forall x :: x in Put(refs, r) <==> x == r || (x in refs && KeyOf(x) != KeyOf(r))
  {
    hide KeyOf;
    if refs != [] {
      var rest := refs[1..];
      assert refs == [refs[0]] + rest;
      if KeyOf(refs[0]) == KeyOf(r) {
        assert forall x :: x in rest ==> KeyOf(x) != KeyOf(r);
      } else {
        assert DistinctKeys(rest);
        PutEffect(rest, r);
        assert Put(refs, r) == [refs[0]] + Put(rest, r);
        assert forall x :: x in rest ==> KeyOf(x) != KeyOf(refs[0]);
      }
    }
  }

  /** `x` is among the writes and no later write has its key. */
  ghost predicate LastWritten(writes: seq<Ref>, x: Ref) {
    exists k :: 0 <= k < |writes| && writes[k] == x && Unwritten(writes, k + 1, x)
  }

  /** The references are one for each key, and for each key the last one written. */
  lemma {:induction false} LastWriteWins(writes: seq<Ref>)
    ensures DistinctKeys(PutAll([], writes))
    ensures forall x :: x in PutAll([], writes) <==> LastWritten(writes, x)
  {
    hide KeyOf;
    if writes != [] {
      var init, r := writes[..|writes| - 1], writes[|writes| - 1];
      LastWriteWins(init);
      PutEffect(PutAll([], init), r);
      forall x
        ensures LastWritten(writes, x) <==> x == r || (LastWritten(init, x) && KeyOf(x) != KeyOf(r))
      {
        LastWrittenStep(writes, x);
      }
    }
  }

  /** No write from `from` on has the key of `x`. */
  ghost predicate Unwritten(writes: seq<Ref>, from: nat, x: Ref) {
    forall m :: from <= m < |writes| ==> KeyOf(writes[m]) != KeyOf(x)
  }

  lemma LastWrittenStep(writes: seq<Ref>, x: Ref)
    requires writes != []
    ensures
      var init, r := writes[..|writes| - 1], writes[|writes| - 1];
      LastWritten(writes, x) <==> x == r || (LastWritten(init, x) && KeyOf(x) != KeyOf(r))
  {
    hide KeyOf;
    var n := |writes| - 1;
    var init, r := writes[..n], writes[n];
    if LastWritten(writes, x) && x != r {
      var k :| 0 <= k < |writes| && writes[k] == x && Unwritten(writes, k + 1, x);
      assert init[k] == x && Unwritten(init, k + 1, x);
    }
    if LastWritten(init, x) && KeyOf(x) != KeyOf(r) {
      var k :| 0 <= k < |init| && init[k] == x && Unwritten(init, k + 1, x);
      assert forall m :: k + 1 <= m < n ==> writes[m] == init[m];
      assert writes[k] == x && Unwritten(writes, k + 1, x);
    }
    if x == r {
      assert writes[n] == x && Unwritten(writes, n + 1, x);
    }
  }

  lemma {:induction false} CommandWritesCarryNoDigest(commands: seq<Command>)
    ensures forall x :: x in CommandWrites(commands) ==> x.expectedDigest == None
  {
    hide IsFinalCommand;
    if commands != [] {
      var c := commands[|commands| - 1];
      CommandWritesCarryNoDigest(commands[..|commands| - 1]);
      ArtifactWritesCarryNoDigest(c, c.expectedArtifacts);
    }
  }

  lemma {:induction false} ArtifactWritesCarryNoDigest(c: Command, paths: seq<string>)
    ensures forall x :: x in ArtifactWrites(c, paths) ==> x.expectedDigest == None
  {
    if paths != [] {
      ArtifactWritesCarryNoDigest(c, paths[..|paths| - 1]);
    }
  }

  /**
   Exactly when an evidence item's expected digest is still there to be checked: its reference is the last
   written under its key among the evidence, and no command names the same key.
   */
  lemma DigestKept(items: seq<EvidenceItem>, commands: seq<Command>, x: Ref)
    requires x.expectedDigest.Some?
    ensures
      var evidence := EvidenceWrites(items, FinalIds(commands));
      x in PutAll([], evidence + CommandWrites(commands)) <==>
        LastWritten(evidence, x) && forall w :: w in CommandWrites(commands) ==> KeyOf(w) != KeyOf(x)
  {
    hide KeyOf, PutAll, EvidenceWrites, CommandWrites, FinalIds;
    var evidence, fromCommands := EvidenceWrites(items, FinalIds(commands)), CommandWrites(commands);
    var writes := evidence + fromCommands;
    LastWriteWins(writes);
    CommandWritesCarryNoDigest(commands);
    LastWrittenInFirst(evidence, fromCommands, x);
  }

  lemma LastWrittenInFirst(a: seq<Ref>, b: seq<Ref>, x: Ref)
    requires x !in b
    ensures LastWritten(a + b, x) <==> LastWritten(a, x) && forall w :: w in b ==> KeyOf(w) != KeyOf(x)
  {
    hide KeyOf;
    var writes := a + b;
    assert forall m :: |a| <= m < |writes| ==> writes[m] == b[m - |a|] && b[m - |a|] in b;
    if LastWritten(writes, x) {
      var k :| 0 <= k < |writes| && writes[k] == x && Unwritten(writes, k + 1, x);
      assert k < |a|;
      assert a[k] == x;
      assert forall m :: k < m < |a| ==> a[m] == writes[m];
      assert Unwritten(a, k + 1, x);
      forall i | 0 <= i < |b|
        ensures KeyOf(b[i]) != KeyOf(x)
      {
        assert writes[|a| + i] == b[i];
      }
    }
    if LastWritten(a, x) && forall w :: w in b ==> KeyOf(w) != KeyOf(x) {
      var k :| 0 <= k < |a| && a[k] == x && Unwritten(a, k + 1, x);
      forall m | k + 1 <= m < |writes|
        ensures KeyOf(writes[m]) != KeyOf(x)
      {
        assert writes[m] == if m < |a| then a[m] else b[m - |a|];
      }
      assert writes[k] == x && Unwritten(writes, k + 1, x);
    }
  }

  /** The second id goes on from the first with a colon, and takes a piece of the first path with it. */
  ghost predicate Splits(id: string, path: string, id': string, path': string) {
    exists s :: id' == id + ":" + s && path == s + ":" + path'
  }

  lemma LongerId(id: string, path: string, id': string, path': string)
    requires Key(id, path) == Key(id', path') && |id| < |id'|
    ensures Splits(id, path, id', path')
  {
    var k := Key(id, path);
    var s := id'[|id| + 1..];
    assert k[..|id|] == id && k[..|id'|] == id';
    assert k[|id|] == ':' && k[|id'|] == ':';
    assert id' == id + ":" + s by {
      assert id'[..|id|] == k[..|id|];
      assert id'[|id|] == k[|id|];
      assert id' == id'[..|id|] + [id'[|id|]] + id'[|id| + 1..];
    }
    assert path == k[|id| + 1..] && path' == k[|id'| + 1..];
    assert path == s + ":" + path' by {
      assert k[|id| + 1..] == k[|id| + 1..|id'|] + [k[|id'|]] + k[|id'| + 1..];
      assert k[|id| + 1..|id'|] == s;
    }
  }

  lemma SplitKey(id: string, path: string, id': string, path': string)
    requires Splits(id, path, id', path')
    ensures Key(id, path) == Key(id', path')
  {
    var s :| id' == id + ":" + s && path == s + ":" + path';
    assert id + ":" + (s + ":" + path') == (id + ":" + s) + ":" + path';
  }

  /** Exactly which references share a key: the same one, or two that split one text at different colons. */
  lemma SameKey(id: string, path: string, id': string, path': string)
    ensures Key(id, path) == Key(id', path') <==>
      (id == id' && path == path') || Splits(id, path, id', path') || Splits(id', path', id, path)
  {
    if Key(id, path) == Key(id', path') {
      if |id| < |id'| {
        LongerId(id, path, id', path');
      } else if |id'| < |id| {
        LongerId(id', path', id, path);
      } else {
        var k := Key(id, path);
        assert k[..|id|] == id && k[..|id'|] == id';
        assert k[|id| + 1..] == path && k[|id'| + 1..] == path';
      }
    }
    if Splits(id, path, id', path') {
      SplitKey(id, path, id', path');
    }
    if Splits(id', path', id, path) {
      SplitKey(id', path', id, path);
    }
  }

  /** Two different artifacts, one reference. */
  lemma KeyCollision()
    ensures Key("gate:dr", "summary.json") == Key("gate", "dr:summary.json")
    ensures ("gate:dr", "summary.json") != ("gate", "dr:summary.json")
  {
    assert "gate:dr" == "gate" + ":" + "dr" && "dr:summary.json" == "dr" + ":" + "summary.json";
    SameKey("gate", "dr:summary.json", "gate:dr", "summary.json");
    assert |"gate:dr"| != |"gate"|;
  }

  // ---------------------------------------------------------------- references and denials, field by field

  /** The packaging command itself, by its id or its text. */
  predicate Packages(c: Command) {
    c.id == "package-production-promotion-candidate" || Contains(c.command, "package:production-promotion-candidate")
  }

  predicate NamedByPackaging(commands: seq<Command>, id: string) {
    exists i :: 0 <= i < |commands| && Packages(commands[i]) && id in commands[i].evidenceIds
  }

  lemma FinalIdsMean(commands: seq<Command>, id: string)
    ensures id in FinalIds(commands) <==> NamedByPackaging(commands, id)
  {
    hide Contains;
    if i :| 0 <= i < |commands| && Packages(commands[i]) && id in commands[i].evidenceIds {
      var j :| 0 <= j < |commands[i].evidenceIds| && commands[i].evidenceIds[j] == id;
      assert IsFinalCommand(commands[i]);
    }
  }

  /** The reference made of an evidence item. */
  ghost predicate OfItem(x: Ref, items: seq<EvidenceItem>, commands: seq<Command>) {
    exists item :: item in items && item.artifactPath != "" && !NamedByPackaging(commands, item.id)
      && x == Ref(item.id, item.artifactPath, item.required, item.producer, item.verification, item.kind, item.expectedDigest)
  }

  /** The reference made of an artifact that a command is expected to leave. */
  ghost predicate OfCommand(x: Ref, commands: seq<Command>) {
    exists c, path :: c in commands && !Packages(c) && path in c.expectedArtifacts
      && x == Ref(c.id, path, c.required, c.command, Some("Expected artifact from " + c.id), "artifact", None)
  }

  lemma {:induction false} EvidenceWritesMean(items: seq<EvidenceItem>, commands: seq<Command>, x: Ref)
    ensures x in EvidenceWrites(items, FinalIds(commands)) <==> OfItem(x, items, commands)
  {
    hide FinalIds, NamedByPackaging;
    if items != [] {
      var init, last := items[..|items| - 1], items[|items| - 1];
      assert items == init + [last];
      EvidenceWritesMean(init, commands, x);
      FinalIdsMean(commands, last.id);
      if OfItem(x, items, commands) && !OfItem(x, init, commands) {
        assert x == EvidenceRef(last);
      }
    }
  }

  lemma {:induction false} ArtifactWritesMean(c: Command, paths: seq<string>, x: Ref)
    ensures x in ArtifactWrites(c, paths) <==>
      exists path :: path in paths && x == Ref(c.id, path, c.required, c.command, Some("Expected artifact from " + c.id), "artifact", None)
  {
    if paths != [] {
      var init, last := paths[..|paths| - 1], paths[|paths| - 1];
      assert paths == init + [last];
      ArtifactWritesMean(c, init, x);
    }
  }

  lemma {:induction false} CommandWritesMean(commands: seq<Command>, x: Ref)
    ensures x in CommandWrites(commands) <==> OfCommand(x, commands)
  {
    hide Contains, ArtifactWrites;
    if commands != [] {
      var init, last := commands[..|commands| - 1], commands[|commands| - 1];
      assert commands == init + [last];
      CommandWritesMean(init, x);
      ArtifactWritesMean(last, last.expectedArtifacts, x);
      if OfCommand(x, commands) && !OfCommand(x, init) {
        var c, path :| c in commands && !Packages(c) && path in c.expectedArtifacts
          && x == Ref(c.id, path, c.required, c.command, Some("Expected artifact from " + c.id), "artifact", None);
        assert c == last;
      }
      if x in ArtifactWrites(last, last.expectedArtifacts) && !Packages(last) {
        var path :| path in last.expectedArtifacts && x == Ref(last.id, path, last.required, last.command, Some("Expected artifact from " + last.id), "artifact", None);
        assert last in commands;
      }
    }
  }

  /**
   The references collected: each comes from an evidence item or from a command, field by field; for every such item and
   artifact there is one with its id, a colon and its path; and where commands and items meet in that text, the command's.
   */
  lemma CollectedMeans(items: seq<EvidenceItem>, commands: seq<Command>, x: Ref)
    ensures
      var refs := PutAll([], EvidenceWrites(items, FinalIds(commands)) + CommandWrites(commands));
      && (x in refs ==> OfItem(x, items, commands) || OfCommand(x, commands))
      && (OfItem(x, items, commands) || OfCommand(x, commands) ==>
          exists y :: y in refs && y.id + ":" + y.path == x.id + ":" + x.path && (OfCommand(x, commands) ==> OfCommand(y, commands)))
  {
    hide EvidenceWrites, CommandWrites, FinalIds, PutAll, OfItem, OfCommand;
    var evidence, fromCommands := EvidenceWrites(items, FinalIds(commands)), CommandWrites(commands);
    var writes := evidence + fromCommands;
    LastWriteWins(writes);
    EvidenceWritesMean(items, commands, x);
    CommandWritesMean(commands, x);
    if x in writes {
      if x in fromCommands {
        var k :| 0 <= k < |fromCommands| && fromCommands[k] == x;
        var y := LastFrom(writes, |evidence| + k);
        CommandWritesMean(commands, y);
      } else {
        var k :| 0 <= k < |writes| && writes[k] == x;
        var y := LastFrom(writes, k);
      }
    }
  }

  lemma {:induction false} LastFrom(writes: seq<Ref>, k: nat) returns (y: Ref)
    requires k < |writes|
    ensures LastWritten(writes, y) && KeyOf(y) == KeyOf(writes[k]) && y in writes[k..]
    ensures y.id + ":" + y.path == writes[k].id + ":" + writes[k].path
    decreases |writes| - k
  {
    if Unwritten(writes, k + 1, writes[k]) {
      y := writes[k];
    } else {
      var m :| k + 1 <= m < |writes| && KeyOf(writes[m]) == KeyOf(writes[k]);
      y := LastFrom(writes, m);
      assert forall z :: z in writes[m..] ==> z in writes[k..];
    }
  }

  predicate IsSlash(c: char) {
    c == '/' || c == '\\'
  }

  predicate DotsAt(text: string, i: nat) {
    && i + 2 <= |text| && text[i] == '.' && text[i + 1] == '.'
    && (i == 0 || IsSlash(text[i - 1])) && (i + 2 == |text| || IsSlash(text[i + 2]))
  }

  /** Two dots stand between slashes of either kind, or between one and an end of the text. */
  ghost predicate DotsBetweenSlashes(text: string) {
    exists i: nat :: DotsAt(text, i)
  }

  /** The first piece of a text and what follows the slash after it. */
  lemma {:induction false} FirstPiece(text: string) returns (n: nat)
    ensures n <= |text| && (forall i :: 0 <= i < n ==> !IsSlash(text[i])) && (n < |text| ==> IsSlash(text[n]))
    ensures Split(text, EITHER_SLASH)[0] == text[..n]
    ensures Split(text, EITHER_SLASH)[1..] == if n < |text| then Split(text[n + 1..], EITHER_SLASH) else []
  {
    n := 0;
    if text != "" && !IsSlash(text[0]) {
      var m := FirstPiece(text[1..]);
      n := m + 1;
      assert text[..n] == [text[0]] + text[1..][..m];
      assert text[1..][m..] == text[n..];
    }
  }

  lemma {:induction false} ParentTraversalMeans(text: string)
    ensures ContainsParentTraversal(text) <==> DotsBetweenSlashes(text)
    decreases |text|
  {
    hide Split, DotsAt;
    var pieces := Split(text, EITHER_SLASH);
    var n := FirstPiece(text);
    assert pieces == [pieces[0]] + pieces[1..];
    DotsFirst(text, n);
    if n < |text| {
      var rest := text[n + 1..];
      ParentTraversalMeans(rest);
      forall i: nat ensures DotsAt(rest, i) <==> DotsAt(text, n + 1 + i) { DotsLater(text, n, i); }
      if i: nat :| DotsAt(text, i) {
        DotsPlace(text, n, i);
        assert i == 0 || DotsAt(rest, i - n - 1);
      }
    } else if i: nat :| DotsAt(text, i) {
      DotsPlace(text, n, i);
    }
  }

  /** The first piece is two dots exactly when they stand at the start. */
  lemma DotsFirst(text: string, n: nat)
    requires n <= |text| && (forall i :: 0 <= i < n ==> !IsSlash(text[i])) && (n < |text| ==> IsSlash(text[n]))
    ensures text[..n] == ".." <==> DotsAt(text, 0)
  {
    if text[..n] == ".." {
      assert text[..n][0] == '.' && text[..n][1] == '.';
    }
    if DotsAt(text, 0) {
      assert n == 2;
      assert text[..2] == "..";
    }
  }

  lemma DotsLater(text: string, n: nat, i: nat)
    requires n < |text| && IsSlash(text[n])
    ensures DotsAt(text[n + 1..], i) <==> DotsAt(text, n + 1 + i)
  {
    var rest := text[n + 1..];
    assert forall j :: 0 <= j < |rest| ==> rest[j] == text[n + 1 + j];
  }

  lemma DotsPlace(text: string, n: nat, i: nat)
    requires n <= |text| && (forall j :: 0 <= j < n ==> !IsSlash(text[j])) && (n < |text| ==> IsSlash(text[n]))
    requires DotsAt(text, i)
    ensures (i == 0 || n + 1 <= i) && i + 2 <= |text|
  {
    assert !IsSlash('.');
  }

  /** Why a reference is denied, reason by reason. */
  lemma DenialMeans(ws: Workspace, text: string)
    requires Sound(ws)
    ensures
      var p, absolute, dots := Located(ws, text), text != "" && text[0] == '/', DotsBetweenSlashes(text);
      && (Denial(ws, text) == Some(AbsolutePath) <==> absolute)
      && (Denial(ws, text) == Some(ParentTraversal) <==> !absolute && dots)
      && (Denial(ws, text) == Some(SymlinkArtifact) <==>
          !absolute && !dots && StrictlyUnder(ws, p) && Exists(ws.fs, p) && Lstat(ws.fs, p).Some? && Lstat(ws.fs, p).value.SymbolicLink?)
      && (Denial(ws, text) == Some(OutsideAllowedRoots) <==>
          && !absolute && !dots
          && (!StrictlyUnder(ws, p)
              || (Exists(ws.fs, p) && !(Lstat(ws.fs, p).Some? && Lstat(ws.fs, p).value.SymbolicLink?) && !StrictlyUnder(ws, RealPath(ws.fs, p).value))))
  {
    hide WellFormed, StrictlyUnder, InsideAllowed, Under, ContainsParentTraversal, Walk, Lstat, Resolve, DotsBetweenSlashes;
    var p := Located(ws, text);
    ParentTraversalMeans(text);
    ResolveNormal(ws.rootDir, text);
    InsideAllowedMeans(ws, p);
    WalkNormal(ws.fs, [], p, MAX_LINKS);
    if Exists(ws.fs, p) {
      InsideAllowedMeans(ws, RealPath(ws.fs, p).value);
    }
  }
}
