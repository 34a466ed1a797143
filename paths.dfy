/**
  The string operations on paths that the watcher uses: the last component as
  `pathlib.PurePosixPath.name` computes it, and `os.path.basename` and
  `os.path.dirname` as the POSIX implementation of `os.path` computes them.
 */
module Paths {
  import opened Seqs

  predicate NoSlash(s: string) {
    forall i :: 0 <= i < |s| ==> s[i] != '/'
  }

  /** Index just after the last `/` of p (0 when p has none). */
  function AfterLastSlash(p: string): (i: nat)
    ensures i <= |p|
    ensures NoSlash(p[i..])
    ensures i > 0 ==> p[i - 1] == '/'
    decreases |p|
  {
    if p == [] then 0
    else if p[|p| - 1] == '/' then |p|
    else
      var i := AfterLastSlash(p[..|p| - 1]);
      assert p[i..] == p[..|p| - 1][i..] + [p[|p| - 1]];
      i
  }

  /** `os.path.basename(p)`: everything after the last `/`. */
  function Basename(p: string): (b: string)
    ensures NoSlash(b)
    ensures EndsWith(p, b)
    ensures |b| < |p| ==> p[|p| - |b| - 1] == '/'
  {
    p[AfterLastSlash(p)..]
  }

  predicate AllSlashes(s: string) {
    forall i :: 0 <= i < |s| ==> s[i] == '/'
  }

  function StripTrailingSlashes(s: string): (r: string)
    ensures |r| <= |s| && r == s[..|r|]
    ensures r == [] || r[|r| - 1] != '/'
    ensures r == [] ==> AllSlashes(s)
    decreases |s|
  {
    if s != [] && s[|s| - 1] == '/' then
      var r := StripTrailingSlashes(s[..|s| - 1]);
      assert s[..|s| - 1][..|r|] == s[..|r|];
      r
    else s
  }

  /** `os.path.dirname(p)`: everything up to the last `/`, with trailing slashes removed
      unless the head consists of slashes only (as for `/a`, whose dirname is `/`). */
  function Dirname(p: string): (d: string)
    ensures |d| <= |p| && d == p[..|d|]
    ensures d == "" <==> NoSlash(p)
    ensures d != "" && d[|d| - 1] == '/' ==> AllSlashes(d)
  {
    var head := p[..AfterLastSlash(p)];
    if head != [] && !AllSlashes(head) then StripTrailingSlashes(head) else head
  }

  /** `PurePosixPath(p).name`: the last component once empty components, trailing
      slashes and `.` components are dropped; the empty string for `/`, `.` and ``. */
  function PathName(p: string): (name: string)
    ensures NoSlash(name)
    ensures name != "."
    decreases |p|
  {
    if p == [] then ""
    else if p[|p| - 1] == '/' then PathName(p[..|p| - 1])
    else if Basename(p) == "." then PathName(p[..|p| - 1])
    else Basename(p)
  }

  /** The index after the last slash of `d + "/" + n`, for a slash-free `n`. */
  lemma {:induction false} AfterLastSlashOfChild(d: string, n: string)
    requires NoSlash(n)
    ensures AfterLastSlash(d + "/" + n) == |d| + 1
    decreases |n|
  {
    var p := d + "/" + n;
    if n != [] {
      assert p[..|p| - 1] == d + "/" + n[..|n| - 1];
      AfterLastSlashOfChild(d, n[..|n| - 1]);
    }
  }

  /** Joining a directory and a file name with `/` and splitting the result again gives
      both parts back, as `os.path.basename` and `os.path.dirname` do. */
  lemma BasenameDirnameOfChild(d: string, n: string)
    requires NoSlash(n) && d != [] && d[|d| - 1] != '/'
    ensures Basename(d + "/" + n) == n
    ensures Dirname(d + "/" + n) == d
  {
    var p := d + "/" + n;
    AfterLastSlashOfChild(d, n);
    assert p[|d| + 1..] == n;
    var head := p[..|d| + 1];
    assert head == d + "/";
    assert !AllSlashes(head) by {
      assert head[|d| - 1] == d[|d| - 1];
    }
    assert head[..|head| - 1] == d;
    assert StripTrailingSlashes(head) == StripTrailingSlashes(d) == d;
  }

  /** A file directly under the root: its directory is `/` and its basename the name. */
  lemma RootChild(n: string)
    requires NoSlash(n)
    ensures Basename("/" + n) == n
    ensures Dirname("/" + n) == "/"
  {
    AfterLastSlashOfChild("", n);
    assert "" + "/" + n == "/" + n;
    assert ("/" + n)[1..] == n;
    assert ("/" + n)[..1] == "/";
  }

  /** A non-empty file name other than `.` under a directory is the path's name. */
  lemma PathNameOfChild(d: string, n: string)
    requires NoSlash(n) && n != [] && n != "."
    ensures PathName(d + "/" + n) == n
  {
    var p := d + "/" + n;
    AfterLastSlashOfChild(d, n);
    assert p[|d| + 1..] == n;
    assert p[|p| - 1] == n[|n| - 1];
  }
}
