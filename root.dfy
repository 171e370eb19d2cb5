/**
  Finding the project root of a buffer (`find_project_root`): for each
  configured sign in turn, walk from the buffer's directory towards `/`
  and stop at the first directory that holds the sign. The file system is
  the set of paths that exist.
 */
module RootSearch {
  import opened Wrappers

  /** Python's `s.rfind(c)`: the last index of `c` in `s`, or -1. */
  function LastIndex(s: string, c: char): (i: int)
    ensures -1 <= i < |s|
    ensures i >= 0 ==> s[i] == c
    ensures forall j :: i < j < |s| ==> s[j] != c
  {
    if s == [] then -1
    else if s[|s| - 1] == c then |s| - 1
    else LastIndex(s[..|s| - 1], c)
  }

  predicate AllSlashes(s: string)
  {
    forall i :: 0 <= i < |s| ==> s[i] == '/'
  }

  /** Python's `s.rstrip('/')`: only slashes are removed, all of the trailing ones. */
  function RStripSlashes(s: string): (r: string)
    ensures |r| <= |s| && r == s[..|r|]
    ensures r == [] || r[|r| - 1] != '/'
    ensures forall i :: |r| <= i < |s| ==> s[i] == '/'
  {
    if s != [] && s[|s| - 1] == '/' then RStripSlashes(s[..|s| - 1]) else s
  }

  /**
    `os.path.dirname` of POSIX Python: everything up to the last slash, with
    the trailing slashes stripped unless nothing but slashes is left. It is
    a prefix of the path, empty exactly when the path has no slash.
   */
  function Dirname(p: string): (d: string)
    ensures |d| <= |p| && p[..|d|] == d
    ensures d == "" <==> '/' !in p
  {
    var head := p[..LastIndex(p, '/') + 1];
    if head != "" && !AllSlashes(head) then RStripSlashes(head) else head
  }

  /**
    A path from which the walk towards `/` ends: it starts with exactly one
    slash. Empty and relative names never reach `/`, and `Dirname("//")` is
    `//`, so those are excluded; runs of slashes further on are allowed.
   */
  predicate IsAbsolutePath(p: string)
  {
    |p| >= 1 && p[0] == '/' && (|p| >= 2 ==> p[1] != '/')
  }

  /**
    `d` is the directory `Dirname` gives for `p`, other than `/`: a prefix of
    `p` not ending in a slash, followed in `p` by one run of slashes and then
    the last component, which holds no slash.
   */
  predicate IsParent(d: string, p: string)
  {
    2 <= |d| < |p| && p[..|d|] == d && d[|d| - 1] != '/' && p[|d|] == '/' &&
    forall i :: |d| < i < |p| && p[i] == '/' ==> p[i - 1] == '/'
  }

  /**
    `a` is a directory the walk from `d` visits: `d` itself, or a directory
    above it (a prefix of `d` that does not end in a slash and is followed by
    one in `d`); `/` is never one of them.
   */
  predicate IsAncestorOrSelf(a: string, d: string)
  {
    (a == d && d != "/") ||
    (2 <= |a| < |d| && d[..|a|] == a && a[|a| - 1] != '/' && d[|a|] == '/')
  }

  /**
    On a path starting with one slash, `Dirname` gives such a path again:
    `/` for `/` and for a file right under `/`, and otherwise the immediate
    parent; each step other than from `/` makes the path shorter.
   */
  lemma DirnameStep(p: string)
    requires IsAbsolutePath(p)
    ensures IsAbsolutePath(Dirname(p))
    ensures p == "/" ==> Dirname(p) == "/"
    ensures p != "/" ==> |Dirname(p)| < |p|
    ensures p != "/" && Dirname(p) == "/" ==> forall i :: 0 < i < |p| ==> p[i] != '/'
    ensures Dirname(p) != "/" ==> IsParent(Dirname(p), p)
  {
    var last := LastIndex(p, '/');
    assert p[0] == '/';
    var head := p[..last + 1];
    if last == 0 {
      assert head == "/";
      assert AllSlashes(head);
    } else {
      assert head[1] == p[1] && p[1] != '/';
      assert !AllSlashes(head);
      var d := RStripSlashes(head);
      assert |d| >= 2 && d[0] == '/' && d[1] == p[1];
      assert p[..|d|] == d;
      forall i | |d| < i < |p| && p[i] == '/'
        ensures p[i - 1] == '/'
      {
        assert i <= last;
        assert head[i - 1] == p[i - 1];
      }
    }
  }

  /** The directories visited from `dir` are `dir` itself and those visited from its parent. */
  lemma AncestorStep(a: string, dir: string)
    requires IsAbsolutePath(dir) && dir != "/"
    ensures IsAbsolutePath(Dirname(dir))
    ensures IsAncestorOrSelf(a, dir) <==> (a == dir || IsAncestorOrSelf(a, Dirname(dir)))
  {
    DirnameStep(dir);
    var up := Dirname(dir);
    if up == "/" {
      if IsAncestorOrSelf(a, dir) && a != dir {
        assert false;
      }
    } else {
      if IsAncestorOrSelf(a, dir) && a != dir {
        if |a| > |up| {
          assert false;
        } else if |a| == |up| {
          assert a == dir[..|up|] == up;
        } else {
          assert up[..|a|] == dir[..|a|];
          assert up[|a|] == dir[|a|];
        }
      }
      if IsAncestorOrSelf(a, up) && a != up {
        assert dir[..|a|] == up[..|a|];
        assert dir[|a|] == up[|a|];
      }
    }
  }

  /**
    The walk of one sign: `dir` and the directories above it, nearest first,
    `/` never checked, until one holds the sign.
   */
  function RootFor(sign: string, dir: string, existing: set<string>): Option<string>
    requires IsAbsolutePath(dir)
    decreases |dir|
  {
    if dir == "/" then None
    else if dir + "/" + sign in existing then Some(dir)
    else
      DirnameStep(dir);
      RootFor(sign, Dirname(dir), existing)
  }

  /**
    The walk of one sign finds the nearest directory at or above `dir`
    holding the sign (no longer one holds it), and finds nothing exactly
    when none holds it.
   */
  lemma {:induction false} RootForIsNearest(sign: string, dir: string, existing: set<string>)
    requires IsAbsolutePath(dir)
    ensures RootFor(sign, dir, existing).None? <==>
      forall a :: IsAncestorOrSelf(a, dir) ==> a + "/" + sign !in existing
    ensures RootFor(sign, dir, existing).Some? ==>
      var root := RootFor(sign, dir, existing).value;
      IsAncestorOrSelf(root, dir) && root + "/" + sign in existing &&
      forall a :: IsAncestorOrSelf(a, dir) && |a| > |root| ==> a + "/" + sign !in existing
    decreases |dir|
  {
    if dir != "/" {
      DirnameStep(dir);
      var up := Dirname(dir);
      forall a ensures IsAncestorOrSelf(a, dir) <==> (a == dir || IsAncestorOrSelf(a, up)) {
        AncestorStep(a, dir);
      }
      if dir + "/" + sign !in existing {
        RootForIsNearest(sign, up, existing);
        if RootFor(sign, up, existing).Some? {
          var root := RootFor(sign, up, existing).value;
          assert |root| <= |up| < |dir|;
        }
      }
    }
  }

  /** The signs tried in configured order: the root of the first sign found anywhere. */
  function FirstRoot(signs: seq<string>, dir: string, existing: set<string>): Option<string>
    requires IsAbsolutePath(dir)
  {
    if signs == [] then None
    else
      var earlier := FirstRoot(signs[..|signs| - 1], dir, existing);
      if earlier.Some? then earlier else RootFor(signs[|signs| - 1], dir, existing)
  }

  /**
    Sign order wins over nearness: the result is the walk of the first sign
    whose walk finds anything, and nothing is found exactly when no sign's
    walk finds anything.
   */
  lemma {:induction false} FirstRootBySignOrder(signs: seq<string>, dir: string, existing: set<string>)
    requires IsAbsolutePath(dir)
    ensures FirstRoot(signs, dir, existing).None? ==>
      forall i :: 0 <= i < |signs| ==> RootFor(signs[i], dir, existing).None?
    ensures FirstRoot(signs, dir, existing).Some? ==>
      exists k :: 0 <= k < |signs| && RootFor(signs[k], dir, existing) == FirstRoot(signs, dir, existing) &&
        forall j :: 0 <= j < k ==> RootFor(signs[j], dir, existing).None?
  {
    if signs != [] {
      var n := |signs|;
      var front := signs[..n - 1];
      FirstRootBySignOrder(front, dir, existing);
      assert forall i :: 0 <= i < n - 1 ==> front[i] == signs[i];
      if FirstRoot(front, dir, existing).Some? {
        var k :| 0 <= k < n - 1 && RootFor(front[k], dir, existing) == FirstRoot(front, dir, existing) &&
          forall j :: 0 <= j < k ==> RootFor(front[j], dir, existing).None?;
        assert RootFor(signs[k], dir, existing) == FirstRoot(signs, dir, existing);
      } else if RootFor(signs[n - 1], dir, existing).Some? {
        assert RootFor(signs[n - 1], dir, existing) == FirstRoot(signs, dir, existing);
      }
    }
  }

  /** Once a prefix of the signs finds a root, the later signs are never tried. */
  lemma {:induction false} FirstRootOfPrefix(signs: seq<string>, k: nat, dir: string, existing: set<string>)
    requires IsAbsolutePath(dir)
    requires k <= |signs|
    requires FirstRoot(signs[..k], dir, existing).Some?
    ensures FirstRoot(signs, dir, existing) == FirstRoot(signs[..k], dir, existing)
    decreases |signs| - k
  {
    if k < |signs| {
      var n := |signs|;
      assert signs[..n - 1][..k] == signs[..k];
      FirstRootOfPrefix(signs[..n - 1], k, dir, existing);
    } else {
      assert signs[..k] == signs;
    }
  }

  /** What `find_project_root` returns: a found root, or the file name itself. */
  function ProjectRoot(fname: string, signs: seq<string>, existing: set<string>): string
    requires signs != [] ==> IsAbsolutePath(fname)
  {
    if |signs| == 0 then fname
    else
      DirnameStep(fname);
      var found := FirstRoot(signs, Dirname(fname), existing);
      if found.Some? then found.value else fname
  }

  /**
    The project root is the file name itself when no sign is configured or
    none is found; otherwise it is a directory at or above the file's
    directory, never `/`, that holds one of the signs. When no directory at
    or above the file's directory holds any sign, it is the file name.
   */
  lemma ProjectRootIsMarked(fname: string, signs: seq<string>, existing: set<string>)
    requires signs != [] ==> IsAbsolutePath(fname)
    ensures signs == [] ==> ProjectRoot(fname, signs, existing) == fname
    ensures ProjectRoot(fname, signs, existing) == fname ||
      (signs != [] && ProjectRoot(fname, signs, existing) != "/" &&
       IsAncestorOrSelf(ProjectRoot(fname, signs, existing), Dirname(fname)) &&
       exists i :: 0 <= i < |signs| && ProjectRoot(fname, signs, existing) + "/" + signs[i] in existing)
    ensures (signs != [] &&
             forall i, a :: 0 <= i < |signs| && IsAncestorOrSelf(a, Dirname(fname)) ==> a + "/" + signs[i] !in existing)
      ==> ProjectRoot(fname, signs, existing) == fname
  {
    if signs != [] {
      DirnameStep(fname);
      var dir := Dirname(fname);
      FirstRootBySignOrder(signs, dir, existing);
      var found := FirstRoot(signs, dir, existing);
      if found.Some? {
        var k :| 0 <= k < |signs| && RootFor(signs[k], dir, existing) == found &&
          forall j :: 0 <= j < k ==> RootFor(signs[j], dir, existing).None?;
        RootForIsNearest(signs[k], dir, existing);
      }
    }
  }

  /**
    `find_project_root`: with signs configured, tries each sign in order,
    walking up from the file's directory until `/`, and returns the first
    directory found; otherwise, or when nothing is found, the file name.
   */
  method FindProjectRoot(fname: string, signs: seq<string>, existing: set<string>) returns (root: string)
    requires signs != [] ==> IsAbsolutePath(fname)
    ensures root == ProjectRoot(fname, signs, existing)
  {
    if |signs| != 0 {
      DirnameStep(fname);
      var proot := Dirname(fname);
      for i := 0 to |signs|
        invariant FirstRoot(signs[..i], proot, existing) == None
      {
        var sign := signs[i];
        assert signs[..i + 1][..i] == signs[..i];
        var candidate := proot;
        while candidate != "/"
          invariant IsAbsolutePath(candidate)
          invariant RootFor(sign, candidate, existing) == RootFor(sign, proot, existing)
          decreases |candidate|
        {
          if candidate + "/" + sign in existing {
            FirstRootOfPrefix(signs, i + 1, proot, existing);
            return candidate;
          }
          DirnameStep(candidate);
          candidate := Dirname(candidate);
        }
      }
      assert signs[..|signs|] == signs;
    }
    return fname;
  }

  /**
    A sign found further up wins over a later sign found nearer: with
    `.git` configured before `Makefile`, `/p/q/r.c` gets the root `/p`.
   */
  lemma SignOrderBeatsNearness()
    ensures ProjectRoot("/p/q/r.c", [".git", "Makefile"], {"/p/.git", "/p/q/Makefile"}) == "/p"
  {
    var dir, up := "/p/q", "/p";
    var existing := {"/p/.git", "/p/q/Makefile"};
    DirnameOfExample();
    DirnameStep(dir);
    assert up + "/" + ".git" == "/p/.git";
    assert RootFor(".git", up, existing) == Some(up);
    assert (dir + "/" + ".git")[3] == 'q' && "/p/.git"[3] == '.' && |"/p/q/Makefile"| == 13;
    assert |dir + "/" + ".git"| == 9;
    assert dir + "/" + ".git" !in existing;
    assert RootFor(".git", dir, existing) == Some(up);
    assert FirstRoot([".git"], dir, existing) == Some(up);
    assert [".git", "Makefile"][..1] == [".git"];
  }

  lemma DirnameOfExample()
    ensures IsAbsolutePath("/p/q") && IsAbsolutePath("/p")
    ensures Dirname("/p/q/r.c") == "/p/q" && Dirname("/p/q") == "/p"
  {
    DirnameOfExampleFile();
    DirnameOfExampleDir();
  }

  lemma DirnameOfExampleFile()
    ensures Dirname("/p/q/r.c") == "/p/q"
  {
    var file, dir := "/p/q/r.c", "/p/q";
    assert LastIndex(file, '/') == 4 by {
      assert file[4] == '/' && file[5] != '/' && file[6] != '/' && file[7] != '/';
    }
    assert file[..5] == dir + "/" && (dir + "/")[1] != '/';
    assert RStripSlashes(dir + "/") == RStripSlashes(dir) == dir;
  }

  lemma DirnameOfExampleDir()
    ensures Dirname("/p/q") == "/p"
  {
    var dir, up := "/p/q", "/p";
    assert LastIndex(dir, '/') == 2 by {
      assert dir[2] == '/' && dir[3] != '/';
    }
    assert dir[..3] == up + "/" && (up + "/")[1] != '/';
    assert RStripSlashes(up + "/") == RStripSlashes(up) == up;
  }

  /** A doubled slash does not stop the walk: `/a//b.c` has the directory `/a`, whose parent is `/`. */
  lemma DoubledSlashIsWalked()
    ensures IsAbsolutePath("/a//b.c")
    ensures Dirname("/a//b.c") == "/a" && Dirname("/a") == "/"
  {
    var file := "/a//b.c";
    assert LastIndex(file, '/') == 3 by {
      assert file[3] == '/' && file[4] != '/' && file[5] != '/' && file[6] != '/';
    }
    assert file[..4] == "/a//" && "/a//"[1] != '/';
    assert RStripSlashes("/a//") == RStripSlashes("/a/") == RStripSlashes("/a") == "/a";
    assert LastIndex("/a", '/') == 0;
    assert "/a"[..1] == "/" && AllSlashes("/");
  }
}
