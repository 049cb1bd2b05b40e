/** Client paths and the server paths they stand for. */
module Mount {

  const PREFIX := "/tmp/wowfs_local/"

  predicate OccursAt(s: string, t: string, i: int) {
    0 <= i <= |s| - |t| && s[i..i + |t|] == t
  }

  predicate Contains(s: string, t: string) {
    exists i :: 0 <= i <= |s| && OccursAt(s, t, i)
  }

  /** The source looks for the prefix anywhere in the path but always cuts it off the front. */
  function RemoveMountPrefix(path: string): string {
    if !Contains(path, PREFIX) then path
    else assert |path| >= |PREFIX|; path[|PREFIX|..]
  }

  ghost predicate Mounted(path: string) {
    PREFIX <= path
  }

  /** Below the mount point the mapping is a bijection onto all server paths. */
  lemma MountedPaths(path: string, serverPath: string)
    ensures Mounted(PREFIX + serverPath) && RemoveMountPrefix(PREFIX + serverPath) == serverPath
    ensures Mounted(path) ==> path == PREFIX + RemoveMountPrefix(path)
  {
    var full := PREFIX + serverPath;
    assert OccursAt(full, PREFIX, 0) && full[|PREFIX|..] == serverPath;
    if Mounted(path) {
      assert OccursAt(path, PREFIX, 0);
      assert path == path[..|PREFIX|] + path[|PREFIX|..];
    }
  }

  lemma MountedPathsDiffer(p: string, q: string)
    requires Mounted(p) && Mounted(q)
    ensures RemoveMountPrefix(p) == RemoveMountPrefix(q) <==> p == q
  {
    MountedPaths(p, "");
    MountedPaths(q, "");
  }

  /** A path that contains the prefix anywhere loses its own first characters, whatever they are: below
      the mount point that is the prefix, elsewhere it is not. */
  lemma CutsBlindly(path: string, i: nat)
    requires OccursAt(path, PREFIX, i)
    ensures |path| >= |PREFIX| && path == path[..|PREFIX|] + RemoveMountPrefix(path)
    ensures Mounted(path) <==> path[..|PREFIX|] == PREFIX
  {
    assert Contains(path, PREFIX);
  }

  /** Outside the mount point two client paths can stand for one server path. */
  lemma UnmountedPathsCollide(serverPath: string)
    requires !Contains(serverPath, PREFIX)
    ensures RemoveMountPrefix(serverPath) == RemoveMountPrefix(PREFIX + serverPath)
  {
    MountedPaths("", serverPath);
  }

  /** A path without the prefix is passed on as it is. */
  lemma UnmountedPathsStay(path: string)
    requires forall i :: 0 <= i <= |path| ==> !OccursAt(path, PREFIX, i)
    ensures RemoveMountPrefix(path) == path
  {
  }
}
