/** The few path manipulations the resolvers perform on the text of a
    local file path: Python's `p[:-k]`, pathlib's `Path(p).parent` and
    `os.path.join`. Paths are POSIX texts with '/' as separator. */
module Paths {
  import opened Base

  predicate EndsWith(p: string, suffix: string) {
    |suffix| <= |p| && p[|p| - |suffix|..] == suffix
  }

  /** Python's `p[:-k]` for `k >= 1`: the text without its last `k`
      characters, or the empty text when `p` is shorter than that. */
  function DropLast(p: string, k: nat): (r: string)
    requires k >= 1
    ensures |p| >= k ==> r + p[|p| - k..] == p
    ensures |p| < k ==> r == []
  {
    if |p| >= k then p[..|p| - k] else []
  }

  /** The position of the last '/' in `p`, if any. */
  function LastSlash(p: string): (r: Option<nat>)
    ensures r.Some? ==> r.value < |p| && p[r.value] == '/' && '/' !in p[r.value + 1..]
    ensures r.None? ==> '/' !in p
    decreases |p|
  {
    if p == [] then None
    else if p[|p| - 1] == '/' then Some(|p| - 1)
    else
      var r := LastSlash(p[..|p| - 1]);
      assert p == p[..|p| - 1] + [p[|p| - 1]];
      r
  }

  /** pathlib's `Path(p).parent` for a normalised path (no repeated and no
      trailing '/'): the text before the last '/', "/" for an entry of the
      root, "." for a bare file name. */
  function Parent(p: string): (r: string)
    ensures '/' !in p ==> r == "."
    ensures '/' in p ==>
      || (r == "/" && p[0] == '/' && '/' !in p[1..])
      || (0 < |r| < |p| && r == p[..|r|] && p[|r|] == '/' && '/' !in p[|r| + 1..])
  {
    match LastSlash(p)
    case None => "."
    case Some(k) => if k == 0 then "/" else p[..k]
  }

  /** A path starting at the root. */
  predicate Absolute(n: string) {
    |n| > 0 && n[0] == '/'
  }

  /** `os.path.join(d, n)`: an absolute `n` replaces `d`; otherwise a '/' is
      put between them unless `d` is empty or already ends with one. */
  function Join(d: string, n: string): (r: string)
    ensures Absolute(n) ==> r == n
    ensures !Absolute(n) ==> |d| + |n| <= |r| <= |d| + |n| + 1 && r[..|d|] == d && EndsWith(r, n)
    ensures !Absolute(n) ==> (|r| == |d| + |n| + 1 <==> d != [] && d[|d| - 1] != '/')
    ensures !Absolute(n) && |r| == |d| + |n| + 1 ==> r[|d|] == '/'
  {
    if Absolute(n) then n
    else if d == [] || d[|d| - 1] == '/' then d + n
    else d + "/" + n
  }

  /** A directory text as `Parent` produces it: the root, or a non-empty
      text that does not end in '/'. */
  predicate IsDir(d: string) {
    d == "/" || (d != [] && d[|d| - 1] != '/')
  }

  /** No two consecutive '/', no trailing '/', and no `.` component (no
      leading `./`, no `/./`, no trailing `/.`): the text pathlib keeps as
      it is, so that `Parent` agrees with pathlib's `parent`. */
  predicate Normalised(p: string) {
    && (forall i :: 0 <= i < |p| - 1 ==> !(p[i] == '/' && p[i + 1] == '/'))
    && (p != [] ==> p[|p| - 1] != '/')
    && (forall i :: 0 <= i < |p| && p[i] == '.' ==> !DotComponent(p, i))
  }

  /** The '.' at `i` is a whole path component. */
  predicate DotComponent(p: string, i: nat)
    requires i < |p|
  {
    (i == 0 || p[i - 1] == '/') && (i + 1 == |p| || p[i + 1] == '/')
  }

  /** The parent of a normalised path is a directory text. */
  lemma ParentIsDir(p: string)
    requires Normalised(p)
    ensures IsDir(Parent(p))
  {
    match LastSlash(p)
    case None =>
    case Some(k) =>
      if k > 0 {
        assert p[k - 1] != '/';
      }
  }

  /** A file name joined onto a directory has that directory as its parent:
      the file `os.path.join` names lies in the directory it was given. */
  lemma ParentOfJoin(d: string, n: string)
    requires IsDir(d)
    requires n != [] && '/' !in n
    ensures Parent(Join(d, n)) == d
  {
    var j := Join(d, n);
    var k := if d == "/" then 0 else |d|;
    assert j[k] == '/';
    assert j[k + 1..] == n;
    assert j[..k] == d || (d == "/" && k == 0);
    LastSlashIs(j, k);
  }

  /** A file and the file named like it plus a suffix sit in one directory. */
  lemma SiblingParents(dir: string, name: string, x: string)
    requires IsDir(dir)
    requires name != [] && '/' !in name && '/' !in x
    ensures Parent(Join(dir, name)) == Parent(Join(dir, name + x)) == dir
  {
    ParentOfJoin(dir, name);
    assert '/' !in name + x;
    ParentOfJoin(dir, name + x);
  }

  /** The path `os.path.join` builds from a directory text ends with '/'
      followed by the file name. */
  lemma JoinEndsWith(d: string, n: string)
    requires IsDir(d)
    requires n != [] && n[0] != '/'
    ensures EndsWith(Join(d, n), "/" + n)
  {
    var j := Join(d, n);
    if d == "/" {
      assert j == "/" + n;
    } else {
      var x := "/" + n;
      assert j == d + x;
      assert j[|j| - |x|..] == x;
    }
  }

  /** Text appended to a relative file name ends up at the end of the
      joined path. */
  lemma JoinAppend(d: string, n: string, x: string)
    requires n != [] && n[0] != '/'
    ensures Join(d, n + x) == Join(d, n) + x
  {
    assert (n + x)[0] == n[0];
  }

  /** Dropping as many characters as were appended gives the text back. */
  lemma DropAppended(p: string, x: string)
    requires |x| >= 1
    ensures DropLast(p + x, |x|) == p
  {
    assert (p + x)[..|p|] == p;
  }

  lemma LastSlashIs(p: string, k: nat)
    requires k < |p| && p[k] == '/' && '/' !in p[k + 1..]
    ensures LastSlash(p) == Some(k)
    decreases |p|
  {
    if p[|p| - 1] != '/' {
      assert k < |p| - 1;
      var q := p[..|p| - 1];
      assert q[k + 1..] == p[k + 1..|p| - 1];
      LastSlashIs(q, k);
    } else {
      assert p[|p| - 1] in p[k + 1..] || k == |p| - 1;
    }
  }

  /** Joining one directory with two different file names gives two
      different paths. */
  lemma JoinInjective(d: string, n1: string, n2: string)
    requires n1 != [] && n2 != [] && n1[0] != '/' && n2[0] != '/'
    ensures Join(d, n1) == Join(d, n2) ==> n1 == n2
  {
    var j1 := Join(d, n1);
    var j2 := Join(d, n2);
    if j1 == j2 {
      var k := if d == [] || d[|d| - 1] == '/' then |d| else |d| + 1;
      assert j1[k..] == n1;
      assert j2[k..] == n2;
    }
  }
}
