/**
 From the copied artifacts to the archive: the packager writes three files of its own beside them and turns the
 bundle directory into a tar archive, file by file in whatever order the directory lists them.
 */
module BundleArchive {
  import opened Wrappers
  import opened ArtifactBundle
  import opened ArtifactCopy
  import opened PromotionCandidate
  import Tar

  /** The texts the packager writes itself: the manifest it read, its summary, and a description. */
  datatype Notes = Notes(manifest: seq<Byte>, summary: seq<Byte>, readme: seq<Byte>)

  type Directory = map<string, seq<Byte>>

  function BundleDirectory(c: Copy, notes: Notes): Directory {
    c.bundle["input-manifest.json" := notes.manifest]["production-promotion-candidate.json" := notes.summary]
      ["README.md" := notes.readme]
  }

  predicate IsAscii(s: string) {
    forall i :: 0 <= i < |s| ==> 0 < s[i] as int < 128
  }

  /** The bytes of a name. In the bundle every name is plain ASCII, so the fallback is never taken there. */
  function NameBytes(s: string): (bytes: seq<Byte>)
    ensures |bytes| == |s|
    ensures IsAscii(s) ==> 0 !in bytes && forall i :: 0 <= i < |s| ==> bytes[i] == s[i] as int
  {
    seq(|s|, i requires 0 <= i < |s| => if s[i] as int < 128 then s[i] as int else 63)
  }

  /** The names are those of the directory, each once. */
  ghost predicate Lists(names: seq<string>, dir: Directory) {
    && (forall i, j :: 0 <= i < j < |names| ==> names[i] != names[j])
    && (forall name :: name in names <==> name in dir)
  }

  function FilesFor(dir: Directory, names: seq<string>): (files: seq<Tar.File>)
    requires forall name :: name in names ==> name in dir
    ensures |files| == |names|
    ensures forall i :: 0 <= i < |names| ==> files[i] == Tar.File(NameBytes(names[i]), dir[names[i]])
  {
    seq(|names|, i requires 0 <= i < |names| => Tar.File(NameBytes(names[i]), dir[names[i]]))
  }

  // ---------------------------------------------------------------- the names

  lemma SafeIsAscii(id: string, source: seq<string>)
    ensures IsAscii(BundlePath(id, source))
  {
    hide SafeArtifactName;
    SafeNameConfined(id, source);
  }

  lemma OwnNames()
    ensures IsAscii("input-manifest.json") && |"input-manifest.json"| <= 100
    ensures IsAscii("production-promotion-candidate.json") && |"production-promotion-candidate.json"| <= 100
    ensures IsAscii("README.md") && |"README.md"| <= 100
  {
  }

  /** Every name in the bundle directory is plain ASCII, and all fit the header exactly when the copied ones do. */
  lemma BundleNames(ws: Workspace, refs: seq<Ref>, notes: Notes)
    requires Sound(ws)
    ensures
      var c := AddRefs(ws, refs);
      var dir := BundleDirectory(c, notes);
      && (forall name :: name in dir ==> IsAscii(name))
      && (PathsFit(c.included) <==> forall name :: name in dir ==> |name| <= 100)
  {
    hide Sound, AddRefs, IsAscii, BundlePath;
    var c := AddRefs(ws, refs);
    var dir := BundleDirectory(c, notes);
    OwnNames();
    BundleListed(ws, refs);
    CopiesHeld(ws, refs);
    forall i | 0 <= i < |c.included|
      ensures IsAscii(c.included[i].bundlePath) && c.included[i].bundlePath in dir
    {
      IncludedMeans(ws, refs, c.included[i]);
      SafeIsAscii(c.included[i].ref.id, c.included[i].source);
      var k := LastIndex(c.included, i);
    }
    forall name | name in c.bundle
      ensures exists i :: 0 <= i < |c.included| && c.included[i].bundlePath == name
    {
    }
  }

  // ---------------------------------------------------------------- the archive

  lemma ListedFiles(dir: Directory, names: seq<string>)
    requires Lists(names, dir) && forall name :: name in dir ==> IsAscii(name)
    ensures
      var files := FilesFor(dir, names);
      && (forall f :: f in files <==> exists name :: name in dir && f == Tar.File(NameBytes(name), dir[name]))
      && ((forall f :: f in files ==> |f.name| <= 100) <==> forall name :: name in dir ==> |name| <= 100)
      && ((forall f :: f in files ==> Tar.Portable(f)) <==> Small(dir))
  {
    hide IsAscii, NameBytes;
    var files := FilesFor(dir, names);
    forall name | name in dir
      ensures Tar.File(NameBytes(name), dir[name]) in files
    {
      var i :| 0 <= i < |names| && names[i] == name;
      assert files[i] == Tar.File(NameBytes(name), dir[name]);
    }
    forall f | f in files
      ensures exists name :: name in dir && f == Tar.File(NameBytes(name), dir[name])
    {
      var i :| 0 <= i < |files| && files[i] == f;
      assert names[i] in names;
    }
    forall name | name in dir
      ensures Tar.Portable(Tar.File(NameBytes(name), dir[name])) <==> |dir[name]| < Tar.SIZE_LIMIT
    {
      AsciiPortable(name);
    }
  }

  lemma AsciiPortable(name: string)
    ensures IsAscii(name) ==> 0 !in NameBytes(name)
  {
  }

  /** No file of 8^11 bytes or more. */
  predicate Small(dir: Directory) {
    forall name :: name in dir ==> |dir[name]| < Tar.SIZE_LIMIT
  }

  /** `createTarGz` on the bundle directory, before compression: it succeeds exactly on the names the packager accepts. */
  method ArchiveBundle(ws: Workspace, refs: seq<Ref>, notes: Notes, names: seq<string>)
    returns (r: Result<seq<Byte>, Tar.TarError>)
    requires Sound(ws) && Lists(names, BundleDirectory(AddRefs(ws, refs), notes))
    ensures r.Ok? <==> PathsFit(AddRefs(ws, refs).included)
    ensures r.Ok? ==> r.value == Tar.Archive(FilesFor(BundleDirectory(AddRefs(ws, refs), notes), names))
  {
    hide Sound, AddRefs, PathsFit, BundleDirectory, Lists, IsAscii, Tar.Archive;
    var dir := BundleDirectory(AddRefs(ws, refs), notes);
    assert forall name :: name in names ==> name in dir by { ListsIn(names, dir); }
    var files := FilesFor(dir, names);
    BundleNames(ws, refs, notes);
    ListedFiles(dir, names);
    r := Tar.CreateTar(files);
  }

  lemma ListsIn(names: seq<string>, dir: Directory)
    requires Lists(names, dir)
    ensures forall name :: name in names ==> name in dir
  {
  }

  /**
   Whatever was copied and however the directory is listed: the archive of names that fit reads back as exactly the
   files of the bundle directory, nothing lost and nothing left over, if and only if no file reaches 8^11 bytes.
   */
  lemma ArchiveRoundTrip(ws: Workspace, refs: seq<Ref>, notes: Notes, names: seq<string>)
    requires Sound(ws) && PathsFit(AddRefs(ws, refs).included)
    requires Lists(names, BundleDirectory(AddRefs(ws, refs), notes))
    ensures
      var dir := BundleDirectory(AddRefs(ws, refs), notes);
      Tar.ReadArchive(Tar.Archive(FilesFor(dir, names))) == Some(Tar.Contents(FilesFor(dir, names), [])) <==> Small(dir)
  {
    hide Sound, AddRefs, PathsFit, BundleDirectory, Lists, IsAscii, Tar.Archive, Tar.ReadArchive, Tar.Portable, Small;
    var dir := BundleDirectory(AddRefs(ws, refs), notes);
    ListsIn(names, dir);
    BundleNames(ws, refs, notes);
    ListedFiles(dir, names);
    Tar.TarRoundTrip(FilesFor(dir, names));
  }

  // ---------------------------------------------------------------- what the archive says of the list

  /** The artifact is in the archive: there is an entry of its name, and every such entry has its digest. */
  ghost predicate InArchive(ws: Workspace, x: Included, files: seq<Tar.File>) {
    && (exists f :: f in files && f.name == NameBytes(x.bundlePath))
    && (forall f :: f in files && f.name == NameBytes(x.bundlePath) ==> ws.sha256(f.body) == x.digest)
  }

  ghost predicate ArchiveMatchesList(ws: Workspace, xs: seq<Included>, files: seq<Tar.File>) {
    forall i :: 0 <= i < |xs| ==> InArchive(ws, xs[i], files)
  }

  lemma SingleEntry(ws: Workspace, x: Included, files: seq<Tar.File>, entry: Tar.File)
    requires forall f :: f in files && f.name == NameBytes(x.bundlePath) <==> f == entry
    ensures InArchive(ws, x, files) <==> ws.sha256(entry.body) == x.digest
  {
    hide NameBytes;
    assert entry in files && entry.name == NameBytes(x.bundlePath);
  }

  lemma NameBytesInjective(a: string, b: string)
    requires IsAscii(a) && IsAscii(b) && NameBytes(a) == NameBytes(b)
    ensures a == b
  {
    forall i | 0 <= i < |a|
      ensures a[i] == b[i]
    {
      assert NameBytes(a)[i] == a[i] as int && NameBytes(b)[i] == b[i] as int;
    }
  }

  lemma ArtifactNamesApart(id: string, source: seq<string>)
    ensures BundlePath(id, source) !in ["input-manifest.json", "production-promotion-candidate.json", "README.md"]
  {
    hide SafeArtifactName;
    assert BundlePath(id, source)[0] == 'a';
    assert "input-manifest.json"[0] == 'i' && "production-promotion-candidate.json"[0] == 'p' && "README.md"[0] == 'R';
  }

  /** An entry of an artifact's name is its copy in the bundle. */
  lemma EntryOfName(ws: Workspace, refs: seq<Ref>, notes: Notes, names: seq<string>, i: nat)
    requires Sound(ws) && i < |AddRefs(ws, refs).included|
    requires Lists(names, BundleDirectory(AddRefs(ws, refs), notes))
    ensures
      var c := AddRefs(ws, refs);
      var name := c.included[i].bundlePath;
      && name in c.bundle
      && forall f :: f in FilesFor(BundleDirectory(c, notes), names) && f.name == NameBytes(name) <==>
           f == Tar.File(NameBytes(name), c.bundle[name])
  {
    hide Sound, AddRefs, Lists, IsAscii, BundlePath, NameBytes;
    var c := AddRefs(ws, refs);
    var dir, x := BundleDirectory(c, notes), c.included[i];
    ListsIn(names, dir);
    IncludedMeans(ws, refs, x);
    ArtifactNamesApart(x.ref.id, x.source);
    CopiesHeld(ws, refs);
    var k := LastIndex(c.included, i);
    BundleNames(ws, refs, notes);
    ListedFiles(dir, names);
    assert dir[x.bundlePath] == c.bundle[x.bundlePath];
    forall name | name in dir && NameBytes(name) == NameBytes(x.bundlePath)
      ensures name == x.bundlePath
    {
      NameBytesInjective(name, x.bundlePath);
    }
  }

  /**
   The archive holds every listed artifact with the digest the summary gives for it if and only if no two copied files
   with different digests got one name.
   */
  lemma ArchiveFaithful(ws: Workspace, refs: seq<Ref>, notes: Notes, names: seq<string>)
    requires Sound(ws) && PathsFit(AddRefs(ws, refs).included)
    requires Lists(names, BundleDirectory(AddRefs(ws, refs), notes)) && Small(BundleDirectory(AddRefs(ws, refs), notes))
    ensures
      var c := AddRefs(ws, refs);
      var contents := Tar.ReadArchive(Tar.Archive(FilesFor(BundleDirectory(c, notes), names)));
      contents.Some? && (ArchiveMatchesList(ws, c.included, contents.value.files) <==> NoClash(ws, refs))
  {
    hide Sound, AddRefs, PathsFit, BundleDirectory, Lists, Tar.Archive, Tar.ReadArchive, Small, NoClash, NameBytes,
      InArchive;
    var c := AddRefs(ws, refs);
    ListsIn(names, BundleDirectory(c, notes));
    var files := FilesFor(BundleDirectory(c, notes), names);
    ArchiveRoundTrip(ws, refs, notes, names);
    BundleFaithful(ws, refs);
    forall i: nat | i < |c.included|
      ensures
        var name := c.included[i].bundlePath;
        name in c.bundle && (InArchive(ws, c.included[i], files) <==> ws.sha256(c.bundle[name]) == c.included[i].digest)
    {
      EntryOfName(ws, refs, notes, names, i);
      var name := c.included[i].bundlePath;
      SingleEntry(ws, c.included[i], files, Tar.File(NameBytes(name), c.bundle[name]));
    }
  }
}
