/**
  The string logic of user/find.c: fmtname, the match test, the filter on
  directory entries and the construction of a child's path in `buf`.
  Paths are C strings given by their characters before the NUL.
*/
module Find {

  /** Bytes in a directory entry's name (DIRSIZ in kernel/fs.h). */
  const DIRSIZ: nat := 14

  // ---------------------------------------------------------------------
  // fmtname
  // ---------------------------------------------------------------------

  /** The last component of path: its suffix after the last '/', or the
      whole path when it has none. */
  function FmtName(path: string): (r: string)
    ensures |r| <= |path| && r == path[|path| - |r|..]
    ensures '/' !in r
    ensures |r| < |path| ==> path[|path| - |r| - 1] == '/'
  {
    if path == [] || path[|path| - 1] == '/' then []
    else
      var init := path[..|path| - 1];
      assert path == init + [path[|path| - 1]];
      FmtName(init) + [path[|path| - 1]]
  }

  /** The three properties above single out the suffix: any start index
      with no '/' after it and a '/' just before it (or none, at 0) is
      where fmtname's result starts. */
  lemma {:induction false} FmtNameUnique(path: string, i: nat)
    requires i <= |path|
    requires forall k :: i <= k < |path| ==> path[k] != '/'
    requires i > 0 ==> path[i - 1] == '/'
    ensures FmtName(path) == path[i..]
  {
    if i < |path| {
      var init := path[..|path| - 1];
      FmtNameUnique(init, i);
      assert path[i..] == init[i..] + [path[|path| - 1]];
    }
  }

  /** fmtname's loop: p starts on the NUL and moves left until it passes
      the start of the string or rests on a '/'; the result starts one
      after p. */
  method FmtNameScan(path: string) returns (start: nat)
    ensures start <= |path| && path[start..] == FmtName(path)
  {
    var p: int := |path|;
    while p >= 0 && (p == |path| || path[p] != '/')
      invariant -1 <= p <= |path|
      invariant forall k :: p < k < |path| ==> path[k] != '/'
      decreases p
    {
      p := p - 1;
    }
    start := p + 1;
    FmtNameUnique(path, start);
  }

  /** A path without '/' is its own last component. */
  lemma {:induction false} FmtNameNoSlash(path: string)
    requires '/' !in path
    ensures FmtName(path) == path
  {
    FmtNameUnique(path, 0);
  }

  /** A path ending in '/' has an empty last component. */
  lemma FmtNameTrailingSlash(path: string)
    requires |path| > 0 && path[|path| - 1] == '/'
    ensures FmtName(path) == ""
  {
  }

  /** The last component of dir/name is name. */
  lemma FmtNameOfChild(dir: string, name: string)
    requires '/' !in name
    ensures FmtName(dir + "/" + name) == name
  {
    var path := dir + "/" + name;
    assert path[|dir| + 1..] == name;
    FmtNameUnique(path, |dir| + 1);
  }

  /** The match test: find prints `path` exactly when its last component
      equals the name sought.  A name holding a '/' never matches, and no
      path shorter than the name does. */
  predicate Printed(path: string, name: string): (r: bool)
    ensures r ==> '/' !in name && |name| <= |path|
  {
    FmtName(path) == name
  }

  // ---------------------------------------------------------------------
  // Directory entries
  // ---------------------------------------------------------------------

  /** The characters of a C string stored in s: those before its first
      NUL, or all of s when it holds none. */
  function CString(s: seq<char>): (r: seq<char>)
    ensures |r| <= |s| && r == s[..|r|]
    ensures '\0' !in r
    ensures |r| < |s| ==> s[|r|] == '\0'
  {
    if s == [] || s[0] == '\0' then []
    else [s[0]] + CString(s[1..])
  }

  /** struct dirent: an inode number (0 for a free slot) and a name of
      DIRSIZ bytes, NUL-padded when shorter. */
  datatype Dirent = Dirent(inum: nat, name: seq<char>)

  /** The entries find's loop passes over: free slots, "." and "..".  A used
      entry whose name is longer than two characters is never passed over. */
  predicate Skipped(de: Dirent): (r: bool)
    ensures r ==> de.inum == 0 || 1 <= |CString(de.name)| <= 2
  {
    de.inum == 0 || CString(de.name) == "." || CString(de.name) == ".."
  }

  /** The path find recurses on for an entry of directory `dir`: it extends
      dir by a '/' and so is strictly longer. */
  function ChildPath(dir: string, de: Dirent): (r: string)
    ensures |dir| < |r| && r[..|dir| + 1] == dir + "/"
  {
    dir + "/" + CString(de.name)
  }

  /** The child's last component is the entry's name, so the child is
      printed exactly when that name is the one sought. */
  lemma ChildPathSpec(dir: string, de: Dirent, name: string)
    requires '/' !in CString(de.name)
    ensures FmtName(ChildPath(dir, de)) == CString(de.name)
    ensures Printed(ChildPath(dir, de), name) <==> CString(de.name) == name
  {
    FmtNameOfChild(dir, CString(de.name));
  }

  /** The loop recurses on exactly the used entries whose child path does
      not end in "." or "..": find neither revisits the directory nor
      climbs to its parent. */
  lemma SkipFilter(dir: string, de: Dirent)
    requires '/' !in CString(de.name)
    ensures !Skipped(de) <==>
              de.inum != 0 && FmtName(ChildPath(dir, de)) != "." && FmtName(ChildPath(dir, de)) != ".."
  {
    FmtNameOfChild(dir, CString(de.name));
  }

  // ---------------------------------------------------------------------
  // Building the child path in buf
  // ---------------------------------------------------------------------

  /** A C string whose first NUL is at or after i reads the same from any
      longer buffer. */
  lemma {:induction false} CStringPrefix(s: seq<char>, i: nat)
    requires i < |s| && s[i] == '\0'
    ensures CString(s) == CString(s[..i])
  {
    if i > 0 && s[0] != '\0' {
      CStringPrefix(s[1..], i - 1);
      assert s[..i][1..] == s[1..][..i - 1];
    }
  }

  lemma {:induction false} CStringConcat(a: seq<char>, b: seq<char>)
    requires '\0' !in a
    ensures CString(a + b) == a + CString(b)
  {
    if a != [] {
      CStringConcat(a[1..], b);
      assert a[0] in a && (a + b)[0] == a[0];
      assert (a + b)[1..] == a[1..] + b;
      assert CString(a + b) == [a[0]] + CString(a[1..] + b);
      assert a == [a[0]] + a[1..];
    } else {
      assert a + b == b;
    }
  }

  /** A buffer holding a NUL-free prefix, a name and then a NUL reads, as a
      C string, as the prefix followed by the name up to its own NUL. */
  lemma CStringAfterName(s: seq<char>, prefix: seq<char>, name: seq<char>)
    requires '\0' !in prefix && |prefix| + |name| < |s|
    requires s[..|prefix| + |name|] == prefix + name && s[|prefix| + |name|] == '\0'
    ensures CString(s) == prefix + CString(name)
  {
    CStringPrefix(s, |prefix| + |name|);
    CStringConcat(prefix, name);
  }

  /** Copy the directory's path to the front of buf and append a '/'; p is
      left just after it, where each entry's name goes. */
  method StartChildPath(buf: array<char>, path: string) returns (p: nat)
    requires |path| < buf.Length
    modifies buf
    ensures p == |path| + 1 && buf[..p] == path + "/"
    ensures buf[p..] == old(buf[p..])
  {
    forall k | 0 <= k < |path| {
      buf[k] := path[k];
    }
    buf[|path|] := '\0';
    p := |path|;
    buf[p] := '/';
    p := p + 1;
    assert buf[..p] == path + "/" by {
      assert forall k :: 0 <= k < |path| ==> buf[..p][k] == path[k];
    }
  }

  /** Move all DIRSIZ bytes of the entry's name to p and end them with a
      NUL.  Read as a C string, buf is then the prefix before p followed by
      the entry's name. */
  method PutName(buf: array<char>, p: nat, name: seq<char>)
    requires |name| == DIRSIZ && p + DIRSIZ < buf.Length
    modifies buf
    ensures buf[..p] == old(buf[..p])
    ensures buf[p..p + DIRSIZ] == name && buf[p + DIRSIZ] == '\0'
    ensures buf[p + DIRSIZ + 1..] == old(buf[p + DIRSIZ + 1..])
    ensures '\0' !in old(buf[..p]) ==> CString(buf[..]) == old(buf[..p]) + CString(name)
  {
    forall k | 0 <= k < DIRSIZ {
      buf[p + k] := name[k];
    }
    buf[p + DIRSIZ] := '\0';
    assert buf[p..p + DIRSIZ] == name by {
      assert forall k :: 0 <= k < DIRSIZ ==> buf[p..p + DIRSIZ][k] == name[k];
    }
    if '\0' !in old(buf[..p]) {
      assert buf[..p + DIRSIZ] == old(buf[..p]) + name;
      CStringAfterName(buf[..], old(buf[..p]), name);
    }
  }

  /** The two steps together leave in buf, as a C string, the child path
      find recurses on. */
  method BuildChildPath(buf: array<char>, dir: string, de: Dirent) returns (p: nat)
    requires '\0' !in dir && |de.name| == DIRSIZ && |dir| + DIRSIZ + 1 < buf.Length
    modifies buf
    ensures CString(buf[..]) == ChildPath(dir, de)
  {
    p := StartChildPath(buf, dir);
    PutName(buf, p, de.name);
  }
}
