/** The demo scripts' path boundary: an existing path is accepted only under an approved root. */
module DemoPaths {
  import opened Wrappers
  import opened Text
  import opened PathBoundary
  import opened FileTree

  datatype PathError = DoesNotExist | OutsideApprovedRoots

  function CanonicalPath(fs: Node, p: Path): Path {
    if Exists(fs, p) then RealPath(fs, p).value else p
  }

  /** `resolveExistingPathInsideAllowedRoots`, with relative texts taken from `cwd`. */
  function ResolveInside(fs: Node, cwd: Path, input: string, roots: seq<string>, allowOutside: bool)
    : Result<Path, PathError>
  {
    var requested := Resolve(cwd, input);
    if !Exists(fs, requested) then Err(DoesNotExist)
    else
      var actual := CanonicalPath(fs, requested);
      if exists i :: 0 <= i < |roots| && IsInsideOrEqual(actual, CanonicalPath(fs, Resolve(cwd, roots[i]))) then
        Ok(actual)
      else if allowOutside then Ok(actual)
      else Err(OutsideApprovedRoots)
  }

  ghost predicate Approved(fs: Node, cwd: Path, roots: seq<string>, p: Path) {
    exists i :: 0 <= i < |roots|
      && var root := CanonicalPath(fs, Resolve(cwd, roots[i]));
         root <= p && !StartsWith(NextSegment(root, p), "..\\")
  }

  lemma CanonicalNormal(fs: Node, p: Path)
    requires WellFormed(fs) && Normal(p)
    ensures Normal(CanonicalPath(fs, p))
  {
    WalkNormal(fs, [], p, MAX_LINKS);
  }

  /**
   Without the override, a path is handed out exactly when it exists and its real location has an approved
   root, links resolved, as a segment prefix; and what is handed out is a real path.
   */
  lemma ResolveInsideMeans(fs: Node, cwd: Path, input: string, roots: seq<string>)
    requires WellFormed(fs) && fs.Directory? && Normal(cwd)
    ensures
      var requested := Resolve(cwd, input);
      var r := ResolveInside(fs, cwd, input, roots, false);
      && (r.Ok? <==> Exists(fs, requested) && Approved(fs, cwd, roots, RealPath(fs, requested).value))
      && (r.Ok? ==> Exists(fs, requested) && r.value == RealPath(fs, requested).value && RealPath(fs, r.value) == Some(r.value))
      && (r.Err? && r.error == DoesNotExist <==> !Exists(fs, requested))
  {
    hide WellFormed, Resolve, Walk, IsInsideOrEqual;
    var requested := Resolve(cwd, input);
    ResolveNormal(cwd, input);
    if Exists(fs, requested) {
      RealPathIdempotent(fs, requested);
      var actual := CanonicalPath(fs, requested);
      CanonicalNormal(fs, requested);
      forall i | 0 <= i < |roots|
        ensures
          var root := CanonicalPath(fs, Resolve(cwd, roots[i]));
          IsInsideOrEqual(actual, root) <==> root <= actual && !StartsWith(NextSegment(root, actual), "..\\")
      {
        ResolveNormal(cwd, roots[i]);
        CanonicalNormal(fs, Resolve(cwd, roots[i]));
        InsideOrEqualMeans(actual, CanonicalPath(fs, Resolve(cwd, roots[i])));
      }
    }
  }
}
