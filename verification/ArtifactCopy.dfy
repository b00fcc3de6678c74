/**
 Copying the referenced artifacts into the bundle directory, file by file: nothing from outside the allowed
 roots gets in, every file is accounted for, and exactly when the bundle still holds what its list says.
 */
module ArtifactCopy {
  import opened Wrappers
  import Text
  import opened PathBoundary
  import opened FileTree
  import opened ArtifactBundle

  /** `source` is where the file was listed, `sourcePath` the text printed for it; the reference gives producer, verification and kind. */
  datatype Included = Included(
    ref: Ref, source: Path, sourcePath: string, bundlePath: string, digest: string, size: nat)

  datatype DeniedArtifact = DeniedArtifact(ref: Ref, file: Option<Path>, reason: Reason)

  datatype Mismatch = Mismatch(ref: Ref, file: Path, found: string)

  /** The four lists and the `artifacts` directory of the bundle. */
  datatype Copy = Copy(
    included: seq<Included>, missing: seq<Ref>, denied: seq<DeniedArtifact>, mismatches: seq<Mismatch>,
    bundle: map<string, seq<Byte>>)

  const EMPTY := Copy([], [], [], [], map[])

  // ---------------------------------------------------------------- bundle names

  predicate IsSafeChar(c: char) {
    'A' <= c <= 'Z' || 'a' <= c <= 'z' || '0' <= c <= '9' || c == '.' || c == '_' || c == '-'
  }

  function Sanitize(s: string): (r: string)
    ensures |r| == |s|
    ensures forall i :: 0 <= i < |r| ==> IsSafeChar(r[i]) && (IsSafeChar(s[i]) ==> r[i] == s[i])
  {
    if s == "" then "" else [if IsSafeChar(s[0]) then s[0] else '_'] + Sanitize(s[1..])
  }

  function Slice(s: string, n: nat): string {
    if |s| <= n then s else s[..n]
  }

  function Basename(p: Path): string {
    if p == [] then "" else p[|p| - 1]
  }

  function SafeArtifactName(id: string, source: Path): string {
    Slice(Slice(Sanitize(id), 56) + "-" + Sanitize(Basename(source)), 96)
  }

  function BundlePath(id: string, source: Path): string {
    "artifacts/" + SafeArtifactName(id, source)
  }

  /** Whatever the id and the file, the name is one plain segment, so the copy stays in the bundle directory. */
  lemma SafeNameConfined(id: string, source: Path)
    ensures IsSegment(SafeArtifactName(id, source))
    ensures |BundlePath(id, source)| <= 106
    ensures |BundlePath(id, source)| <= 100 <==> |Slice(id, 56)| + |Basename(source)| <= 89
    ensures forall i :: 0 <= i < |SafeArtifactName(id, source)| ==> IsSafeChar(SafeArtifactName(id, source)[i])
  {
    var prefix, suffix := Slice(Sanitize(id), 56), Sanitize(Basename(source));
    var name := SafeArtifactName(id, source);
    assert name[|prefix|] == '-';
    assert name != "." && name != ".." by {
      assert "."[0] == '.' && ".."[0] == '.' && ".."[1] == '.';
    }
  }

  predicate InName(c: char) {
    c in Text.UPPER || c in Text.LOWER || c in "0123456789._-"
  }

  lemma OtherMeans(c: char)
    ensures '0' <= c <= '9' || c == '.' || c == '_' || c == '-' <==> c in "0123456789._-"
  {
    var s := "0123456789._-";
    assert |s| == 13 && forall k :: 0 <= k < 10 ==> s[k] as int == 48 + k;
    assert s[10] == '.' && s[11] == '_' && s[12] == '-';
    if '0' <= c <= '9' { assert s[c as int - 48] == c; }
  }

  lemma {:induction false} SanitizedAt(s: string, i: nat)
    requires i < |s|
    ensures Sanitize(s)[i] == if InName(s[i]) then s[i] else '_'
  {
    if i > 0 {
      SanitizedAt(s[1..], i - 1);
    } else {
      hide InName;
      SafeMeans(s[0]);
    }
  }

  lemma SafeMeans(c: char)
    ensures IsSafeChar(c) <==> InName(c)
  {
    Text.UpperRange(c);
    Text.LowerRange(c);
    OtherMeans(c);
  }

  /** A bundle name, place by place: at most 56 units of the id, a dash, the last segment, and 96 units in all. */
  lemma SafeNameMeans(id: string, source: Path, i: nat)
    ensures
      var name, k, last := SafeArtifactName(id, source), Minimum(|id|, 56), if source == [] then "" else source[|source| - 1];
      && |name| == Minimum(k + 1 + |last|, 96)
      && (i < |name| ==>
            name[i] ==
            if i < k then (if InName(id[i]) then id[i] else '_')
            else if i == k then '-'
            else if InName(last[i - k - 1]) then last[i - k - 1] else '_')
    ensures BundlePath(id, source) == "artifacts" + "/" + SafeArtifactName(id, source)
  {
    hide InName, Sanitize;
    var k := Minimum(|id|, 56);
    if i < k { SanitizedAt(id, i); }
    if k < i <= k + |Basename(source)| { SanitizedAt(Basename(source), i - k - 1); }
    assert "artifacts/" == "artifacts" + "/";
  }

  function Minimum(a: nat, b: nat): nat {
    if a <= b then a else b
  }

  // ---------------------------------------------------------------- copying

  /** What `listFiles` hands over: a link, or a regular file with a real path. */
  predicate Readable(ws: Workspace, f: Path) {
    && Lstat(ws.fs, f).Some?
    && (Lstat(ws.fs, f).value.SymbolicLink? ||
        (RealPath(ws.fs, f).Some? && NodeAt(ws.fs, RealPath(ws.fs, f).value).Some?
         && NodeAt(ws.fs, RealPath(ws.fs, f).value).value.File?))
  }

  /** `sourceFileBoundaryDenial`. */
  function FileDenial(ws: Workspace, f: Path): (r: Option<Reason>)
    requires Readable(ws, f)
    ensures r == None ==> !IsLink(ws, f)
  {
    if IsLink(ws, f) then Some(SymlinkArtifact)
    else if !InsideAllowed(ws, RealPath(ws.fs, f).value) then Some(OutsideAllowedRoots)
    else None
  }

  function BytesOf(ws: Workspace, f: Path): seq<Byte>
    requires Readable(ws, f) && !IsLink(ws, f)
  {
    NodeAt(ws.fs, RealPath(ws.fs, f).value).value.bytes
  }

  function ForwardSlashes(s: string): string {
    if s == "" then "" else [if s[0] == '\\' then '/' else s[0]] + ForwardSlashes(s[1..])
  }

  /** `relative(rootDir, sourceFile).replaceAll('\\', '/')` */
  function PrintedPath(ws: Workspace, f: Path): string {
    ForwardSlashes(Relative(ws.rootDir, f))
  }

  /** The text printed for a file: its relative path with every backslash turned. */
  lemma {:induction false} ForwardSlashesAt(s: string, i: nat)
    ensures |ForwardSlashes(s)| == |s| && (i < |s| ==> ForwardSlashes(s)[i] == if s[i] == '\\' then '/' else s[i])
  {
    if s != "" { ForwardSlashesAt(s[1..], if i > 0 then i - 1 else i); }
  }

  /** Where no segment holds a backslash, what is printed for a file leads back to it from the workspace. */
  lemma PrintedLeadsBack(ws: Workspace, f: Path)
    requires Normal(ws.rootDir) && Normal(f)
    ensures '\\' !in Relative(ws.rootDir, f) ==> Resolve(ws.rootDir, PrintedPath(ws, f)) == f
  {
    hide Relative, Resolve, ForwardSlashes;
    var s := Relative(ws.rootDir, f);
    ForwardSlashesAt(s, 0);
    if '\\' !in s {
      forall i: nat | i < |s| ensures ForwardSlashes(s)[i] == s[i] { ForwardSlashesAt(s, i); }
      assert ForwardSlashes(s) == s;
      ResolveRelative(ws.rootDir, f);
    }
  }

  function Entered(ws: Workspace, ref: Ref, f: Path): Included
    requires Readable(ws, f) && !IsLink(ws, f)
  {
    var bytes := BytesOf(ws, f);
    Included(ref, f, PrintedPath(ws, f), BundlePath(ref.id, f), ws.sha256(bytes), |bytes|)
  }

  predicate DigestChecked(ref: Ref) {
    ref.expectedDigest.Some? && ref.expectedDigest.value != ""
  }

  function AddFile(ws: Workspace, ref: Ref, f: Path, c: Copy): Copy
    requires Readable(ws, f)
  {
    match FileDenial(ws, f)
    case Some(reason) => c.(denied := c.denied + [DeniedArtifact(ref, Some(f), reason)])
    case None =>
      var x := Entered(ws, ref, f);
      c.(included := c.included + [x],
         mismatches := if DigestChecked(ref) && ref.expectedDigest.value != x.digest
                       then c.mismatches + [Mismatch(ref, f, x.digest)] else c.mismatches,
         bundle := c.bundle[x.bundlePath := BytesOf(ws, f)])
  }

  function AddFiles(ws: Workspace, ref: Ref, files: seq<Path>, c: Copy): Copy
    requires forall f :: f in files ==> Readable(ws, f)
  {
    if files == [] then c
    else AddFile(ws, ref, files[|files| - 1], AddFiles(ws, ref, files[..|files| - 1], c))
  }

  function FilesOf(ws: Workspace, ref: Ref): seq<Path> {
    ListFiles(ws.fs, Located(ws, ref.path))
  }

  predicate Present(ws: Workspace, ref: Ref) {
    Denial(ws, ref.path) == None && Exists(ws.fs, Located(ws, ref.path))
  }

  lemma PresentFilesReadable(ws: Workspace, ref: Ref)
    requires Sound(ws) && Present(ws, ref)
    ensures forall f :: f in FilesOf(ws, ref) ==> Readable(ws, f) && Normal(f)
  {
    var p := Located(ws, ref.path);
    ResolveNormal(ws.rootDir, ref.path);
    ExistingHasLstat(ws.fs, p);
    forall f | f in FilesOf(ws, ref)
      ensures Readable(ws, f) && Normal(f)
    {
      hide WellFormed, ListFiles, Walk;
      ListedResolves(ws.fs, p, f);
    }
  }

  lemma {:induction false} WalkPrefix(fs: Node, done: Path, todo: Path, links: nat, last: string)
    requires Walk(fs, done, todo + [last], links).Some?
    ensures Walk(fs, done, todo, links).Some?
    ensures NodeAt(fs, Walk(fs, done, todo, links).value + [last]).Some?
    decreases links, |todo|
  {
    if todo == [] {
      assert todo + [last] == [last];
    } else {
      assert (todo + [last])[1..] == todo[1..] + [last];
      var n := NodeAt(fs, done + [todo[0]]).value;
      if n.SymbolicLink? {
        assert n.target + (todo[1..] + [last]) == (n.target + todo[1..]) + [last];
        WalkPrefix(fs, [], n.target + todo[1..], links - 1, last);
      } else {
        WalkPrefix(fs, done + [todo[0]], todo[1..], links, last);
      }
    }
  }

  lemma ExistingHasLstat(fs: Node, p: Path)
    requires Exists(fs, p)
    ensures Lstat(fs, p).Some?
  {
    if p != [] {
      assert p == p[..|p| - 1] + [p[|p| - 1]];
      WalkPrefix(fs, [], p[..|p| - 1], MAX_LINKS, p[|p| - 1]);
    }
  }

  function AddRef(ws: Workspace, ref: Ref, c: Copy): Copy
    requires Sound(ws)
  {
    match Denial(ws, ref.path)
    case Some(reason) => c.(denied := c.denied + [DeniedArtifact(ref, None, reason)])
    case None =>
      if !Exists(ws.fs, Located(ws, ref.path)) then c.(missing := c.missing + [ref])
      else
        PresentFilesReadable(ws, ref);
        AddFiles(ws, ref, FilesOf(ws, ref), c)
  }

  function AddRefs(ws: Workspace, refs: seq<Ref>): Copy
    requires Sound(ws)
  {
    if refs == [] then EMPTY
    else AddRef(ws, refs[|refs| - 1], AddRefs(ws, refs[..|refs| - 1]))
  }

  /** `copyReferencedArtifacts`, on the collected references. */
  method CopyArtifacts(ws: Workspace, refs: seq<Ref>) returns (c: Copy)
    requires Sound(ws)
    ensures c == AddRefs(ws, refs)
  {
    hide Denial, Exists, ListFiles, AddFile, WellFormed;
    c := EMPTY;
    for i := 0 to |refs|
      invariant c == AddRefs(ws, refs[..i])
    {
      var ref := refs[i];
      assert refs[..i + 1][..i] == refs[..i];
      var denial := Denial(ws, ref.path);
      if denial.Some? {
        c := c.(denied := c.denied + [DeniedArtifact(ref, None, denial.value)]);
      } else if !Exists(ws.fs, Located(ws, ref.path)) {
        c := c.(missing := c.missing + [ref]);
      } else {
        PresentFilesReadable(ws, ref);
        var files := FilesOf(ws, ref);
        ghost var before := c;
        for j := 0 to |files|
          invariant c == AddFiles(ws, ref, files[..j], before)
        {
          assert files[..j + 1][..j] == files[..j];
          c := AddFile(ws, ref, files[j], c);
        }
        assert files[..|files|] == files;
      }
    }
    assert refs[..|refs|] == refs;
  }

  // ---------------------------------------------------------------- nothing escapes

  /** A listed file really is a regular file under an allowed root, and its digest and size are its own. */
  ghost predicate Genuine(ws: Workspace, x: Included) {
    && RealPath(ws.fs, x.source).Some?
    && Under(ws, RealPath(ws.fs, x.source).value)
    && NodeAt(ws.fs, RealPath(ws.fs, x.source).value).Some?
    && match NodeAt(ws.fs, RealPath(ws.fs, x.source).value).value {
         case File(bytes) => x.digest == ws.sha256(bytes) && x.size == |bytes|
         case _ => false
       }
    && x.bundlePath == BundlePath(x.ref.id, x.source) && x.sourcePath == PrintedPath(ws, x.source)
  }

  lemma EnteredGenuine(ws: Workspace, ref: Ref, f: Path)
    requires Sound(ws) && Normal(f) && Readable(ws, f) && FileDenial(ws, f) == None
    ensures Genuine(ws, Entered(ws, ref, f))
  {
    hide WellFormed, InsideAllowed, Under, BundlePath, NodeAt;
    WalkNormal(ws.fs, [], f, MAX_LINKS);
    InsideAllowedMeans(ws, RealPath(ws.fs, f).value);
  }

  lemma {:induction false} FilesGenuine(ws: Workspace, ref: Ref, files: seq<Path>, c: Copy)
    requires Sound(ws)
    requires forall f :: f in files ==> Readable(ws, f) && Normal(f)
    requires forall x :: x in c.included ==> Genuine(ws, x)
    ensures forall x :: x in AddFiles(ws, ref, files, c).included ==> Genuine(ws, x)
    decreases |files|
  {
    hide Genuine, Sound, Readable, FileDenial, Entered, Normal;
    if files != [] {
      var f := files[|files| - 1];
      FilesGenuine(ws, ref, files[..|files| - 1], c);
      if FileDenial(ws, f) == None {
        EnteredGenuine(ws, ref, f);
      }
    }
  }

  /** No file from outside the allowed roots is ever copied, through whatever links it is reached. */
  lemma {:induction false} NothingEscapes(ws: Workspace, refs: seq<Ref>)
    requires Sound(ws)
    ensures forall x :: x in AddRefs(ws, refs).included ==> Genuine(ws, x)
    decreases |refs|
  {
    hide Genuine, Sound, Denial, AddFiles, FilesOf, Exists, Normal, Readable;
    if refs != [] {
      var ref, before := refs[|refs| - 1], AddRefs(ws, refs[..|refs| - 1]);
      NothingEscapes(ws, refs[..|refs| - 1]);
      if Present(ws, ref) {
        PresentFilesReadable(ws, ref);
        FilesGenuine(ws, ref, FilesOf(ws, ref), before);
      }
    }
  }

  // ---------------------------------------------------------------- every file is accounted for

  /** What happened to a reference, or to one file of it. */
  datatype Record = ReferenceDenied(ref: Ref) | ReferenceMissing(ref: Ref) | FileSeen(ref: Ref, file: Path)

  function IncludedRecords(xs: seq<Included>): multiset<Record> {
    if xs == [] then multiset{}
    else IncludedRecords(xs[..|xs| - 1]) + multiset{FileSeen(xs[|xs| - 1].ref, xs[|xs| - 1].source)}
  }

  function DeniedRecord(d: DeniedArtifact): Record {
    match d.file case None => ReferenceDenied(d.ref) case Some(f) => FileSeen(d.ref, f)
  }

  function DeniedRecords(ds: seq<DeniedArtifact>): multiset<Record> {
    if ds == [] then multiset{} else DeniedRecords(ds[..|ds| - 1]) + multiset{DeniedRecord(ds[|ds| - 1])}
  }

  function MissingRecords(refs: seq<Ref>): multiset<Record> {
    if refs == [] then multiset{} else MissingRecords(refs[..|refs| - 1]) + multiset{ReferenceMissing(refs[|refs| - 1])}
  }

  /** Every entry of the three lists, with repetitions. */
  function Recorded(c: Copy): multiset<Record> {
    IncludedRecords(c.included) + DeniedRecords(c.denied) + MissingRecords(c.missing)
  }

  function FileRecords(ref: Ref, files: seq<Path>): multiset<Record> {
    if files == [] then multiset{} else FileRecords(ref, files[..|files| - 1]) + multiset{FileSeen(ref, files[|files| - 1])}
  }

  /** What one reference must show up as: one entry if denied or missing, else one for each file. */
  function RefRecords(ws: Workspace, ref: Ref): multiset<Record> {
    if Denial(ws, ref.path).Some? then multiset{ReferenceDenied(ref)}
    else if !Exists(ws.fs, Located(ws, ref.path)) then multiset{ReferenceMissing(ref)}
    else FileRecords(ref, FilesOf(ws, ref))
  }

  function AllRecords(ws: Workspace, refs: seq<Ref>): multiset<Record> {
    if refs == [] then multiset{} else AllRecords(ws, refs[..|refs| - 1]) + RefRecords(ws, refs[|refs| - 1])
  }

  lemma OneMoreIncluded(xs: seq<Included>, x: Included)
    ensures IncludedRecords(xs + [x]) == IncludedRecords(xs) + multiset{FileSeen(x.ref, x.source)}
  {
    assert (xs + [x])[..|xs|] == xs;
  }

  lemma OneMoreDenied(ds: seq<DeniedArtifact>, d: DeniedArtifact)
    ensures DeniedRecords(ds + [d]) == DeniedRecords(ds) + multiset{DeniedRecord(d)}
  {
    assert (ds + [d])[..|ds|] == ds;
  }

  lemma OneMoreMissing(refs: seq<Ref>, r: Ref)
    ensures MissingRecords(refs + [r]) == MissingRecords(refs) + multiset{ReferenceMissing(r)}
  {
    assert (refs + [r])[..|refs|] == refs;
  }

  lemma FileRecorded(ws: Workspace, ref: Ref, f: Path, c: Copy)
    requires Readable(ws, f)
    ensures Recorded(AddFile(ws, ref, f, c)) == Recorded(c) + multiset{FileSeen(ref, f)}
  {
    hide Readable, FileDenial, IncludedRecords, DeniedRecords, MissingRecords, BytesOf, BundlePath, PrintedPath, DigestChecked;
    if FileDenial(ws, f) == None {
      OneMoreIncluded(c.included, Entered(ws, ref, f));
    } else {
      OneMoreDenied(c.denied, DeniedArtifact(ref, Some(f), FileDenial(ws, f).value));
    }
  }

  lemma {:induction false} FilesRecorded(ws: Workspace, ref: Ref, files: seq<Path>, c: Copy)
    requires forall f :: f in files ==> Readable(ws, f)
    ensures Recorded(AddFiles(ws, ref, files, c)) == Recorded(c) + FileRecords(ref, files)
    decreases |files|
  {
    hide Readable, AddFile, Recorded;
    if files != [] {
      var init, f := files[..|files| - 1], files[|files| - 1];
      FilesRecorded(ws, ref, init, c);
      FileRecorded(ws, ref, f, AddFiles(ws, ref, init, c));
    }
  }

  lemma RefRecorded(ws: Workspace, ref: Ref, c: Copy)
    requires Sound(ws)
    ensures Recorded(AddRef(ws, ref, c)) == Recorded(c) + RefRecords(ws, ref)
  {
    hide Sound, Denial, AddFiles, FilesOf, Exists, Readable, IncludedRecords, DeniedRecords, MissingRecords, FileRecords;
    if Denial(ws, ref.path).Some? {
      OneMoreDenied(c.denied, DeniedArtifact(ref, None, Denial(ws, ref.path).value));
    } else if !Exists(ws.fs, Located(ws, ref.path)) {
      OneMoreMissing(c.missing, ref);
    } else {
      PresentFilesReadable(ws, ref);
      FilesRecorded(ws, ref, FilesOf(ws, ref), c);
    }
  }

  /**
   Conservation: the three lists together hold one entry for each denied or missing reference and one for each
   file of a present one, no other and none twice.
   */
  lemma {:induction false} Accounting(ws: Workspace, refs: seq<Ref>)
    requires Sound(ws)
    ensures Recorded(AddRefs(ws, refs)) == AllRecords(ws, refs)
    decreases |refs|
  {
    hide Sound, AddRef, Recorded, RefRecords;
    if refs == [] {
      NothingRecorded();
    } else {
      Accounting(ws, refs[..|refs| - 1]);
      RefRecorded(ws, refs[|refs| - 1], AddRefs(ws, refs[..|refs| - 1]));
    }
  }

  lemma NothingRecorded()
    ensures Recorded(EMPTY) == multiset{}
  {
  }

  // ---------------------------------------------------------------- what empty lists mean

  predicate FileClean(ws: Workspace, f: Path)
    ensures FileClean(ws, f) ==> Readable(ws, f) && !IsLink(ws, f)
  {
    Readable(ws, f) && FileDenial(ws, f) == None
  }

  predicate FileMatches(ws: Workspace, ref: Ref, f: Path) {
    FileClean(ws, f) && DigestChecked(ref) ==> ws.sha256(BytesOf(ws, f)) == ref.expectedDigest.value
  }

  predicate AllClean(ws: Workspace, files: seq<Path>) {
    forall i :: 0 <= i < |files| ==> FileClean(ws, files[i])
  }

  predicate AllMatch(ws: Workspace, ref: Ref, files: seq<Path>) {
    forall i :: 0 <= i < |files| ==> FileMatches(ws, ref, files[i])
  }

  /** The reference passes the boundary, and so does every file below it. */
  predicate Clean(ws: Workspace, ref: Ref) {
    Denial(ws, ref.path) == None && (Present(ws, ref) ==> AllClean(ws, FilesOf(ws, ref)))
  }

  predicate DigestsMatch(ws: Workspace, ref: Ref) {
    Present(ws, ref) ==> AllMatch(ws, ref, FilesOf(ws, ref))
  }

  predicate Missing(ws: Workspace, ref: Ref) {
    Denial(ws, ref.path) == None && !Exists(ws.fs, Located(ws, ref.path))
  }

  lemma LastFile(ws: Workspace, ref: Ref, files: seq<Path>)
    requires files != []
    ensures
      var init, f := files[..|files| - 1], files[|files| - 1];
      && (AllClean(ws, files) <==> AllClean(ws, init) && FileClean(ws, f))
      && (AllMatch(ws, ref, files) <==> AllMatch(ws, ref, init) && FileMatches(ws, ref, f))
  {
    hide FileClean, FileMatches;
    var n := |files| - 1;
    var init := files[..n];
    assert forall i :: 0 <= i < n ==> files[i] == init[i];
    assert forall i :: 0 <= i < |files| ==> i == n || files[i] == init[i];
  }

  lemma FileLists(ws: Workspace, ref: Ref, f: Path, c: Copy)
    requires Readable(ws, f)
    ensures
      var d := AddFile(ws, ref, f, c);
      && d.missing == c.missing
      && (d.denied == [] <==> c.denied == [] && FileClean(ws, f))
      && (d.mismatches == [] <==> c.mismatches == [] && FileMatches(ws, ref, f))
  {
    hide Readable, FileDenial, BundlePath, DigestChecked, BytesOf;
  }

  lemma {:induction false} FilesLists(ws: Workspace, ref: Ref, files: seq<Path>, c: Copy)
    requires forall f :: f in files ==> Readable(ws, f)
    ensures
      var d := AddFiles(ws, ref, files, c);
      && d.missing == c.missing
      && (d.denied == [] <==> c.denied == [] && AllClean(ws, files))
      && (d.mismatches == [] <==> c.mismatches == [] && AllMatch(ws, ref, files))
    decreases |files|
  {
    hide Readable, AddFile, FileClean, FileMatches;
    if files != [] {
      var init, f := files[..|files| - 1], files[|files| - 1];
      FilesLists(ws, ref, init, c);
      FileLists(ws, ref, f, AddFiles(ws, ref, init, c));
      LastFile(ws, ref, files);
    }
  }

  lemma RefLists(ws: Workspace, ref: Ref, c: Copy)
    requires Sound(ws)
    ensures
      var d := AddRef(ws, ref, c);
      && d.missing == c.missing + (if Missing(ws, ref) then [ref] else [])
      && (d.denied == [] <==> c.denied == [] && Clean(ws, ref))
      && (d.mismatches == [] <==> c.mismatches == [] && DigestsMatch(ws, ref))
  {
    hide Sound, Denial, AddFiles, FilesOf, Exists, Readable, AllClean, AllMatch;
    if Present(ws, ref) {
      PresentFilesReadable(ws, ref);
      FilesLists(ws, ref, FilesOf(ws, ref), c);
    }
  }

  /** The packager's three tests on the copy, as statements about the file system. */
  lemma {:induction false} ListsMean(ws: Workspace, refs: seq<Ref>)
    requires Sound(ws)
    ensures
      var c := AddRefs(ws, refs);
      && (c.denied == [] <==> forall i :: 0 <= i < |refs| ==> Clean(ws, refs[i]))
      && (forall r :: r in c.missing <==> r in refs && Missing(ws, r))
      && (c.mismatches == [] <==> forall i :: 0 <= i < |refs| ==> DigestsMatch(ws, refs[i]))
    decreases |refs|
  {
    hide Sound, AddRef, Clean, DigestsMatch, Missing;
    if refs != [] {
      var n := |refs| - 1;
      var init, ref := refs[..n], refs[n];
      ListsMean(ws, init);
      RefLists(ws, ref, AddRefs(ws, init));
      assert forall i :: 0 <= i < n ==> refs[i] == init[i];
      assert forall i :: 0 <= i < |refs| ==> i == n || refs[i] == init[i];
      assert forall r :: r in refs <==> r in init || r == ref;
    }
  }

  // ---------------------------------------------------------------- the lists, entry by entry

  predicate Linked(ws: Workspace, f: Path) {
    Lstat(ws.fs, f).Some? && Lstat(ws.fs, f).value.SymbolicLink?
  }

  /** A file is denied for being a link, or for really lying elsewhere. */
  ghost predicate FileDenied(ws: Workspace, ref: Ref, f: Path, x: DeniedArtifact) {
    || (Linked(ws, f) && x == DeniedArtifact(ref, Some(f), SymlinkArtifact))
    || (&& !Linked(ws, f) && RealPath(ws.fs, f).Some? && !StrictlyUnder(ws, RealPath(ws.fs, f).value)
        && x == DeniedArtifact(ref, Some(f), OutsideAllowedRoots))
  }

  /** A file that is copied and whose digest is not the one the reference expects, if it expects any. */
  ghost predicate FileDiffers(ws: Workspace, ref: Ref, f: Path, y: Mismatch) {
    && Readable(ws, f) && !Linked(ws, f) && StrictlyUnder(ws, RealPath(ws.fs, f).value)
    && ref.expectedDigest.Some? && ref.expectedDigest.value != ""
    && ws.sha256(BytesOf(ws, f)) != ref.expectedDigest.value
    && y == Mismatch(ref, f, ws.sha256(BytesOf(ws, f)))
  }

  lemma FileDenialMeans(ws: Workspace, f: Path)
    requires Sound(ws) && Readable(ws, f) && Normal(f)
    ensures FileDenial(ws, f) ==
      if Linked(ws, f) then Some(SymlinkArtifact)
      else if !StrictlyUnder(ws, RealPath(ws.fs, f).value) then Some(OutsideAllowedRoots)
      else None
  {
    hide WellFormed, StrictlyUnder, InsideAllowed, Walk, Lstat;
    if !Linked(ws, f) {
      RealNormal(ws, f);
      InsideAllowedMeans(ws, RealPath(ws.fs, f).value);
    }
  }

  lemma RealNormal(ws: Workspace, f: Path)
    requires Sound(ws) && RealPath(ws.fs, f).Some? && Normal(f)
    ensures Normal(RealPath(ws.fs, f).value)
  {
    hide WellFormed;
    WalkNormal(ws.fs, [], f, MAX_LINKS);
  }

  lemma FileEntries(ws: Workspace, ref: Ref, f: Path, c: Copy, x: DeniedArtifact, y: Mismatch)
    requires Sound(ws) && Readable(ws, f) && Normal(f)
    ensures x in AddFile(ws, ref, f, c).denied <==> x in c.denied || FileDenied(ws, ref, f, x)
    ensures y in AddFile(ws, ref, f, c).mismatches <==> y in c.mismatches || FileDiffers(ws, ref, f, y)
  {
    hide Sound, FileDenial, StrictlyUnder, BundlePath, PrintedPath, BytesOf, Lstat, Walk, NodeAt;
    FileDenialMeans(ws, f);
  }

  lemma {:induction false} FilesEntries(ws: Workspace, ref: Ref, files: seq<Path>, c: Copy, x: DeniedArtifact, y: Mismatch)
    requires Sound(ws) && forall f :: f in files ==> Readable(ws, f) && Normal(f)
    ensures x in AddFiles(ws, ref, files, c).denied <==> x in c.denied || exists f :: f in files && FileDenied(ws, ref, f, x)
    ensures y in AddFiles(ws, ref, files, c).mismatches <==> y in c.mismatches || exists f :: f in files && FileDiffers(ws, ref, f, y)
    decreases |files|
  {
    hide Sound, Readable, AddFile, FileDenied, FileDiffers;
    if files != [] {
      var init, f := files[..|files| - 1], files[|files| - 1];
      FilesEntries(ws, ref, init, c, x, y);
      FileEntries(ws, ref, f, AddFiles(ws, ref, init, c), x, y);
      assert forall g :: g in files <==> g in init || g == f;
    }
  }

  ghost predicate DeniedBy(ws: Workspace, ref: Ref, x: DeniedArtifact) {
    || (Denial(ws, ref.path).Some? && x == DeniedArtifact(ref, None, Denial(ws, ref.path).value))
    || (Present(ws, ref) && exists f :: f in FilesOf(ws, ref) && FileDenied(ws, ref, f, x))
  }

  ghost predicate DiffersBy(ws: Workspace, ref: Ref, y: Mismatch) {
    Present(ws, ref) && exists f :: f in FilesOf(ws, ref) && FileDiffers(ws, ref, f, y)
  }

  lemma RefEntries(ws: Workspace, ref: Ref, c: Copy, x: DeniedArtifact, y: Mismatch)
    requires Sound(ws)
    ensures x in AddRef(ws, ref, c).denied <==> x in c.denied || DeniedBy(ws, ref, x)
    ensures y in AddRef(ws, ref, c).mismatches <==> y in c.mismatches || DiffersBy(ws, ref, y)
  {
    hide Sound, Denial, AddFiles, FilesOf, Exists, Readable, FileDenied, FileDiffers;
    if Present(ws, ref) {
      PresentFilesReadable(ws, ref);
      FilesEntries(ws, ref, FilesOf(ws, ref), c, x, y);
    }
  }

  /** Exactly what is recorded as denied, with its reason, and as mismatched, with the digest found. */
  lemma {:induction false} EntriesMean(ws: Workspace, refs: seq<Ref>, x: DeniedArtifact, y: Mismatch)
    requires Sound(ws)
    ensures x in AddRefs(ws, refs).denied <==> exists ref :: ref in refs && DeniedBy(ws, ref, x)
    ensures y in AddRefs(ws, refs).mismatches <==> exists ref :: ref in refs && DiffersBy(ws, ref, y)
    decreases |refs|
  {
    hide Sound, AddRef, DeniedBy, DiffersBy;
    if refs != [] {
      var init, ref := refs[..|refs| - 1], refs[|refs| - 1];
      EntriesMean(ws, init, x, y);
      RefEntries(ws, ref, AddRefs(ws, init), x, y);
      assert forall r :: r in refs <==> r in init || r == ref;
    }
  }

  // ---------------------------------------------------------------- the bundle and its list

  predicate LastOfName(xs: seq<Included>, i: nat)
    requires i < |xs|
  {
    forall j :: i < j < |xs| ==> xs[j].bundlePath != xs[i].bundlePath
  }

  /** The bundle holds, under each name, the bytes of the last file copied there. */
  ghost predicate LastCopyHeld(ws: Workspace, c: Copy) {
    forall i: nat :: i < |c.included| ==>
      && c.included[i].bundlePath in c.bundle
      && (LastOfName(c.included, i) ==> ws.sha256(c.bundle[c.included[i].bundlePath]) == c.included[i].digest)
  }

  lemma FileHeld(ws: Workspace, ref: Ref, f: Path, c: Copy)
    requires Readable(ws, f) && LastCopyHeld(ws, c)
    ensures LastCopyHeld(ws, AddFile(ws, ref, f, c))
  {
    hide Readable, FileDenial, BundlePath, DigestChecked, BytesOf;
    var d := AddFile(ws, ref, f, c);
    if FileDenial(ws, f) == None {
      var n := |c.included|;
      forall i: nat | i < |d.included|
        ensures d.included[i].bundlePath in d.bundle
        ensures LastOfName(d.included, i) ==> ws.sha256(d.bundle[d.included[i].bundlePath]) == d.included[i].digest
      {
        if i < n {
          assert d.included[i] == c.included[i];
          if LastOfName(d.included, i) {
            assert d.included[n].bundlePath != d.included[i].bundlePath;
            assert forall j :: i < j < n ==> d.included[j] == c.included[j];
            assert LastOfName(c.included, i);
          }
        }
      }
    }
  }

  lemma {:induction false} FilesHeld(ws: Workspace, ref: Ref, files: seq<Path>, c: Copy)
    requires forall f :: f in files ==> Readable(ws, f)
    requires LastCopyHeld(ws, c)
    ensures LastCopyHeld(ws, AddFiles(ws, ref, files, c))
    decreases |files|
  {
    hide Readable, LastCopyHeld, AddFile;
    if files != [] {
      FilesHeld(ws, ref, files[..|files| - 1], c);
      FileHeld(ws, ref, files[|files| - 1], AddFiles(ws, ref, files[..|files| - 1], c));
    }
  }

  lemma {:induction false} CopiesHeld(ws: Workspace, refs: seq<Ref>)
    requires Sound(ws)
    ensures LastCopyHeld(ws, AddRefs(ws, refs))
    decreases |refs|
  {
    hide Sound, Denial, AddFiles, FilesOf, Exists, Readable;
    if refs != [] {
      var ref, before := refs[|refs| - 1], AddRefs(ws, refs[..|refs| - 1]);
      CopiesHeld(ws, refs[..|refs| - 1]);
      if Present(ws, ref) {
        PresentFilesReadable(ws, ref);
        FilesHeld(ws, ref, FilesOf(ws, ref), before);
      }
    }
  }

  /** The bundle holds nothing but what the list names. */
  ghost predicate OnlyListed(c: Copy) {
    forall name :: name in c.bundle ==> exists i :: 0 <= i < |c.included| && c.included[i].bundlePath == name
  }

  lemma FileListed(ws: Workspace, ref: Ref, f: Path, c: Copy)
    requires Readable(ws, f) && OnlyListed(c)
    ensures OnlyListed(AddFile(ws, ref, f, c))
  {
    hide Readable, FileDenial, BundlePath, DigestChecked, BytesOf, PrintedPath;
    var d := AddFile(ws, ref, f, c);
    if FileDenial(ws, f) == None {
      var n := |c.included|;
      forall name | name in d.bundle
        ensures exists i :: 0 <= i < |d.included| && d.included[i].bundlePath == name
      {
        if name == d.included[n].bundlePath {
        } else {
          var i :| 0 <= i < n && c.included[i].bundlePath == name;
          assert d.included[i] == c.included[i];
        }
      }
    }
  }

  lemma {:induction false} FilesListed(ws: Workspace, ref: Ref, files: seq<Path>, c: Copy)
    requires forall f :: f in files ==> Readable(ws, f)
    requires OnlyListed(c)
    ensures OnlyListed(AddFiles(ws, ref, files, c))
    decreases |files|
  {
    hide Readable, OnlyListed, AddFile;
    if files != [] {
      FilesListed(ws, ref, files[..|files| - 1], c);
      FileListed(ws, ref, files[|files| - 1], AddFiles(ws, ref, files[..|files| - 1], c));
    }
  }

  lemma {:induction false} BundleListed(ws: Workspace, refs: seq<Ref>)
    requires Sound(ws)
    ensures OnlyListed(AddRefs(ws, refs))
    decreases |refs|
  {
    hide Sound, Denial, AddFiles, FilesOf, Exists, Readable;
    if refs != [] {
      var ref, before := refs[|refs| - 1], AddRefs(ws, refs[..|refs| - 1]);
      BundleListed(ws, refs[..|refs| - 1]);
      if Present(ws, ref) {
        PresentFilesReadable(ws, ref);
        FilesListed(ws, ref, FilesOf(ws, ref), before);
      }
    }
  }

  lemma {:induction false} LastIndex(xs: seq<Included>, i: nat) returns (k: nat)
    requires i < |xs|
    ensures i <= k < |xs| && xs[k].bundlePath == xs[i].bundlePath && LastOfName(xs, k)
    decreases |xs| - i
  {
    k := i;
    if !LastOfName(xs, i) {
      var j :| i < j < |xs| && xs[j].bundlePath == xs[i].bundlePath;
      k := LastIndex(xs, j);
    }
  }

  /** Each listed file is in the bundle, under its name, with its digest. */
  ghost predicate BundleMatchesList(ws: Workspace, c: Copy) {
    forall i: nat :: i < |c.included| ==>
      && c.included[i].bundlePath in c.bundle
      && ws.sha256(c.bundle[c.included[i].bundlePath]) == c.included[i].digest
  }

  predicate NamesAgree(xs: seq<Included>) {
    forall i, j :: 0 <= i < j < |xs| && xs[i].bundlePath == xs[j].bundlePath ==> xs[i].digest == xs[j].digest
  }

  lemma ListFaithful(ws: Workspace, refs: seq<Ref>)
    requires Sound(ws)
    ensures BundleMatchesList(ws, AddRefs(ws, refs)) <==> NamesAgree(AddRefs(ws, refs).included)
  {
    hide Sound, AddRefs;
    CopiesHeld(ws, refs);
    var c := AddRefs(ws, refs);
    if NamesAgree(c.included) {
      forall i: nat | i < |c.included|
        ensures ws.sha256(c.bundle[c.included[i].bundlePath]) == c.included[i].digest
      {
        var k := LastIndex(c.included, i);
        assert k == i || c.included[i].digest == c.included[k].digest;
      }
    }
  }

  /** The file is one that gets copied: listed under a present reference, and inside the boundary. */
  ghost predicate Copied(ws: Workspace, ref: Ref, f: Path)
    ensures Copied(ws, ref, f) ==> Readable(ws, f) && !IsLink(ws, f)
  {
    Present(ws, ref) && f in FilesOf(ws, ref) && FileClean(ws, f)
  }

  ghost predicate EnteredFrom(ws: Workspace, ref: Ref, files: seq<Path>, x: Included) {
    exists f :: f in files && FileClean(ws, f) && x == Entered(ws, ref, f)
  }

  lemma {:induction false} FilesIncluded(ws: Workspace, ref: Ref, files: seq<Path>, c: Copy, x: Included)
    requires forall f :: f in files ==> Readable(ws, f)
    ensures x in AddFiles(ws, ref, files, c).included <==> x in c.included || EnteredFrom(ws, ref, files, x)
    decreases |files|
  {
    hide Readable, FileDenial, Entered, DigestChecked, BytesOf;
    if files != [] {
      var init, f := files[..|files| - 1], files[|files| - 1];
      FilesIncluded(ws, ref, init, c, x);
      assert forall g :: g in files <==> g in init || g == f;
      if FileClean(ws, f) {
        assert f in files;
        assert x == Entered(ws, ref, f) ==> EnteredFrom(ws, ref, files, x);
      }
      assert EnteredFrom(ws, ref, files, x) <==>
        EnteredFrom(ws, ref, init, x) || (FileClean(ws, f) && x == Entered(ws, ref, f));
    }
  }

  ghost predicate EnteredByRefs(ws: Workspace, refs: seq<Ref>, x: Included) {
    exists i :: 0 <= i < |refs| && Present(ws, refs[i]) && EnteredFrom(ws, refs[i], FilesOf(ws, refs[i]), x)
  }

  /** The list holds exactly the copied files. */
  lemma {:induction false} IncludedMeans(ws: Workspace, refs: seq<Ref>, x: Included)
    requires Sound(ws)
    ensures x in AddRefs(ws, refs).included <==> EnteredByRefs(ws, refs, x)
    decreases |refs|
  {
    hide Sound, Denial, AddFiles, FilesOf, Exists, Readable, EnteredFrom;
    if refs != [] {
      var n := |refs| - 1;
      var init, ref := refs[..n], refs[n];
      IncludedMeans(ws, init, x);
      assert forall i :: 0 <= i < n ==> refs[i] == init[i];
      if Present(ws, ref) {
        PresentFilesReadable(ws, ref);
        FilesIncluded(ws, ref, FilesOf(ws, ref), AddRefs(ws, init), x);
      }
      assert EnteredByRefs(ws, refs, x) <==>
        EnteredByRefs(ws, init, x) || (Present(ws, ref) && EnteredFrom(ws, ref, FilesOf(ws, ref), x));
    }
  }

  /** Copied files that get the same name have the same digest. */
  ghost predicate NoClash(ws: Workspace, refs: seq<Ref>) {
    forall r, s, f, g ::
      (r in refs && s in refs && Copied(ws, r, f) && Copied(ws, s, g) && BundlePath(r.id, f) == BundlePath(s.id, g))
      ==> ws.sha256(BytesOf(ws, f)) == ws.sha256(BytesOf(ws, g))
  }

  lemma CopiedIsIncluded(ws: Workspace, refs: seq<Ref>, r: Ref, f: Path)
    requires Sound(ws) && r in refs && Copied(ws, r, f)
    ensures Entered(ws, r, f) in AddRefs(ws, refs).included
  {
    hide Sound, AddRefs, Present, FilesOf, FileClean, Entered;
    IncludedMeans(ws, refs, Entered(ws, r, f));
    var i :| 0 <= i < |refs| && refs[i] == r;
    assert EnteredFrom(ws, r, FilesOf(ws, r), Entered(ws, r, f));
  }

  lemma IncludedIsCopied(ws: Workspace, refs: seq<Ref>, x: Included)
    requires Sound(ws) && x in AddRefs(ws, refs).included
    ensures x.ref in refs && Copied(ws, x.ref, x.source) && x == Entered(ws, x.ref, x.source)
  {
    hide Sound, AddRefs, Present, FilesOf;
    IncludedMeans(ws, refs, x);
    var i :| 0 <= i < |refs| && Present(ws, refs[i]) && EnteredFrom(ws, refs[i], FilesOf(ws, refs[i]), x);
    var f :| f in FilesOf(ws, refs[i]) && FileClean(ws, f) && x == Entered(ws, refs[i], f);
    assert refs[i] in refs;
  }

  /** The bundle holds every listed artifact with its digest exactly when no two copied files with different digests get the same name. */
  lemma BundleFaithful(ws: Workspace, refs: seq<Ref>)
    requires Sound(ws)
    ensures BundleMatchesList(ws, AddRefs(ws, refs)) <==> NoClash(ws, refs)
  {
    hide Sound, AddRefs, Present, FilesOf, FileClean, BundlePath, BundleMatchesList, Copied, BytesOf;
    ListFaithful(ws, refs);
    var xs := AddRefs(ws, refs).included;
    if NoClash(ws, refs) {
      forall i, j | 0 <= i < j < |xs| && xs[i].bundlePath == xs[j].bundlePath
        ensures xs[i].digest == xs[j].digest
      {
        IncludedIsCopied(ws, refs, xs[i]);
        IncludedIsCopied(ws, refs, xs[j]);
      }
    }
    if NamesAgree(xs) {
      forall r, s, f, g | r in refs && s in refs && Copied(ws, r, f) && Copied(ws, s, g) && BundlePath(r.id, f) == BundlePath(s.id, g)
        ensures ws.sha256(BytesOf(ws, f)) == ws.sha256(BytesOf(ws, g))
      {
        CopiedIsIncluded(ws, refs, r, f);
        CopiedIsIncluded(ws, refs, s, g);
        SameNameSameDigest(xs, Entered(ws, r, f), Entered(ws, s, g));
      }
    }
  }

  lemma SameNameSameDigest(xs: seq<Included>, x: Included, y: Included)
    requires NamesAgree(xs) && x in xs && y in xs && x.bundlePath == y.bundlePath
    ensures x.digest == y.digest
  {
    var i :| 0 <= i < |xs| && xs[i] == x;
    var j :| 0 <= j < |xs| && xs[j] == y;
    if i < j {
      assert xs[i].digest == xs[j].digest;
    } else if j < i {
      assert xs[j].digest == xs[i].digest;
    }
  }

  /** Names are made from the id and the last segment alone, so files of one name in two subdirectories clash. */
  lemma SameBasenameClashes(ws: Workspace, refs: seq<Ref>, ref: Ref, f: Path, g: Path)
    requires Sound(ws) && ref in refs && Copied(ws, ref, f) && Copied(ws, ref, g)
    requires Basename(f) == Basename(g) && ws.sha256(BytesOf(ws, f)) != ws.sha256(BytesOf(ws, g))
    ensures !BundleMatchesList(ws, AddRefs(ws, refs))
  {
    hide Sound, AddRefs, Copied, BytesOf;
    BundleFaithful(ws, refs);
    assert BundlePath(ref.id, f) == BundlePath(ref.id, g);
  }
}
