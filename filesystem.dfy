/** GetAbsolutePath of pkg/utils/filesystem.go: `~` expansion in front of
    absolute-path resolution. The current user's home directory
    (os/user.Current), filepath.Abs and filepath.Join are parameters. */
module FileSystem {
  import opened Common

  /** Outcome of a lookup that returns a path or a Go error. */
  datatype PathResult = PathResult(path: string, err: Option<string>)

  predicate HasPrefix(s: string, prefix: string) {
    |prefix| <= |s| && s[..|prefix|] == prefix
  }

  /** GetAbsolutePath (filesystem.go:243-259). */
  function GetAbsolutePath(path: string, home: PathResult, abs: string -> PathResult,
                           join: (string, string) -> string): (r: PathResult)
    ensures !HasPrefix(path, "~") ==> r == abs(path)
    ensures HasPrefix(path, "~") && home.err.Some? ==> r == PathResult("", home.err)
    ensures HasPrefix(path, "~") && home.err.None? ==> r.err.None?
    ensures path == "~" && home.err.None? ==> r.path == home.path
    ensures HasPrefix(path, "~/") && home.err.None? ==> r.path == join(home.path, path[2..])
    ensures HasPrefix(path, "~") && !HasPrefix(path, "~/") && home.err.None? ==> r.path == home.path
  {
    var absPath := "";
    if HasPrefix(path, "~") then
      if home.err.Some? then PathResult(absPath, home.err)
      else
        var absPath := absPath + home.path;
        assert absPath == home.path;
        if HasPrefix(path, "~/") then PathResult(join(absPath, path[2..]), None)
        else PathResult(absPath, None)
    else abs(path)
  }

  /** Whatever follows "~name" is discarded: two such paths expand alike. */
  lemma TildeNameDiscardsRest(name1: string, name2: string, home: PathResult,
                              abs: string -> PathResult, join: (string, string) -> string)
    requires home.err.None?
    requires !HasPrefix(name1, "/") && !HasPrefix(name2, "/")
    ensures GetAbsolutePath("~" + name1, home, abs, join) == GetAbsolutePath("~" + name2, home, abs, join)
  {
    assert !HasPrefix("~" + name1, "~/") by {
      if |name1| > 0 { assert ("~" + name1)[1] == name1[0]; assert name1[..1] != "/"; }
    }
    assert !HasPrefix("~" + name2, "~/") by {
      if |name2| > 0 { assert ("~" + name2)[1] == name2[0]; assert name2[..1] != "/"; }
    }
    assert HasPrefix("~" + name1, "~") && HasPrefix("~" + name2, "~");
  }
}
