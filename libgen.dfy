/**
 * dirname(3) from <libgen.h>, as POSIX.1-2017 (XSH, dirname) defines it,
 * written as a pure function of the path. Where POSIX leaves the result of
 * "//" to the implementation, this model takes it to be "/", as FreeBSD does.
 */
module LibGen {
  import opened Sys

  /** `s` with every trailing `c` removed. */
  function TrimTrailing(s: string, c: char): (r: string)
    ensures |r| <= |s| && r == s[..|r|]
    ensures r == [] || r[|r| - 1] != c
    ensures forall i :: |r| <= i < |s| ==> s[i] == c
  {
    if s != [] && s[|s| - 1] == c then TrimTrailing(s[..|s| - 1], c) else s
  }

  /** `s` with every trailing character other than `c` removed. */
  function TrimTrailingOthers(s: string, c: char): (r: string)
    ensures |r| <= |s| && r == s[..|r|]
    ensures r == [] || r[|r| - 1] == c
    ensures forall i :: |r| <= i < |s| ==> s[i] != c
  {
    if s != [] && s[|s| - 1] != c then TrimTrailingOthers(s[..|s| - 1], c) else s
  }

  /**
   * The directory part of `path`: "." for an empty path or one without a
   * slash (trailing slashes aside), "/" when only the root is left, and
   * otherwise `path` cut before its last component and the slashes before it.
   */
  function Dirname(path: CStr): (d: CStr)
    ensures d != []
    ensures d == "." || (|d| <= |path| && d == path[..|d|])
    ensures d == "/" || d[|d| - 1] != '/'
  {
    var t := TrimTrailing(path, '/');
    if path == [] then "."
    else if t == [] then
      assert path[0] == '/';
      "/"
    else if '/' !in t then "."
    else
      var u := TrimTrailingOthers(t, '/');
      var v := TrimTrailing(u, '/');
      assert u != [] by {
        var i :| 0 <= i < |t| && t[i] == '/';
      }
      assert u == path[..|u|];
      if v == [] then
        assert u[0] == '/';
        "/"
      else
        assert v == path[..|v|];
        v
  }

  /** A path with no slash at all names something in the current directory. */
  lemma DirnameOfLeaf(path: CStr)
    requires '/' !in path
    ensures Dirname(path) == "."
  {
  }

  /** Trailing slashes do not change the directory part. */
  lemma DirnameIgnoresTrailingSlash(path: CStr)
    requires path != []
    ensures Dirname(path + "/") == Dirname(path)
  {
    assert (path + "/")[..|path|] == path;
  }

  /** Cutting `s + w` back to its last `c` gives `s` when `s` ends in `c` and `w` has none. */
  lemma {:induction false} TrimOthersOfAppend(s: string, w: string, c: char)
    requires s != [] && s[|s| - 1] == c
    requires c !in w
    ensures TrimTrailingOthers(s + w, c) == s
  {
    if w == [] {
      assert s + w == s;
    } else {
      var w' := w[..|w| - 1];
      assert (s + w)[..|s + w| - 1] == s + w';
      TrimOthersOfAppend(s, w', c);
    }
  }

  /** dirname undoes joining a directory and a leaf name with one slash. */
  lemma DirnameOfJoin(parent: CStr, leaf: CStr)
    requires parent == "/" || (parent != [] && parent[|parent| - 1] != '/')
    requires leaf != [] && '/' !in leaf
    ensures Dirname(parent + "/" + leaf) == parent
  {
    var path := parent + "/" + leaf;
    assert path[|path| - 1] == leaf[|leaf| - 1];
    assert TrimTrailing(path, '/') == path;
    assert path[|parent|] == '/';
    assert parent + "/" + leaf == (parent + "/") + leaf;
    TrimOthersOfAppend(parent + "/", leaf, '/');
    assert (parent + "/")[..|parent|] == parent;
    if parent == "/" {
      assert TrimTrailing("//", '/') == TrimTrailing("/", '/');
      assert "/"[..0] == [];
    }
  }
}
