/**
 * POSIX path handling as Python's `posixpath` does it, for the parts the
 * importer uses: `basename`, `splitext`, `join` and `abspath` (without the
 * `normpath` clean-up), and from them the datastore identifier of a package
 * file: its basename with the final extension removed.
 */
module Paths {

  /** `s.rfind(c)`: the last index holding `c`, or -1 when there is none. */
  function LastIndexOf(s: string, c: char): (i: int)
    ensures -1 <= i < |s|
  {
    if |s| == 0 then -1
    else if s[|s| - 1] == c then |s| - 1
    else LastIndexOf(s[..|s| - 1], c)
  }

  /** `rfind` finds `c` where it says, and no `c` after that. */
  lemma {:induction false} LastIndexOfIsLast(s: string, c: char)
    ensures LastIndexOf(s, c) >= 0 ==> s[LastIndexOf(s, c)] == c
    ensures forall j :: LastIndexOf(s, c) < j < |s| ==> s[j] != c
  {
    if |s| > 0 && s[|s| - 1] != c {
      var t := s[..|s| - 1];
      LastIndexOfIsLast(t, c);
      forall j | LastIndexOf(s, c) < j < |s| ensures s[j] != c {
        if j < |s| - 1 {
          assert s[j] == t[j];
        }
      }
    }
  }

  /** Conversely, the last `c` is what `rfind` finds. */
  lemma {:induction false} LastIndexOfUnique(s: string, c: char, k: int)
    requires -1 <= k < |s|
    requires k >= 0 ==> s[k] == c
    requires forall j :: k < j < |s| ==> s[j] != c
    ensures LastIndexOf(s, c) == k
  {
    if |s| > 0 && s[|s| - 1] != c {
      var t := s[..|s| - 1];
      assert k < |s| - 1;
      forall j | k < j < |t| ensures t[j] != c {
        assert t[j] == s[j];
      }
      LastIndexOfUnique(t, c, k);
    }
  }

  /** `os.path.basename(p)`: everything after the last '/'. */
  function Basename(p: string): string
  {
    p[LastIndexOf(p, '/') + 1..]
  }

  /**
   * The basename is the last path component: a suffix of the path with no
   * '/', which is either the whole path or preceded by a '/'.
   */
  lemma BasenameIsLastComponent(p: string)
    ensures '/' !in Basename(p)
    ensures |Basename(p)| <= |p| && p[|p| - |Basename(p)|..] == Basename(p)
    ensures |Basename(p)| < |p| ==> p[|p| - |Basename(p)| - 1] == '/'
  {
    var i := LastIndexOf(p, '/');
    var r := p[i + 1..];
    assert Basename(p) == r;
    assert '/' !in r by {
      LastIndexOfIsLast(p, '/');
      forall k | 0 <= k < |r| ensures r[k] != '/' {
        assert r[k] == p[i + 1 + k];
      }
    }
    assert |p| - |r| == i + 1;
    if |r| < |p| {
      assert p[i] == '/' by {
        LastIndexOfIsLast(p, '/');
      }
    }
  }

  /** True when `p[lo..hi]` holds a character other than '.'. */
  predicate HasNonDot(p: string, lo: int, hi: int)
    requires 0 <= lo && hi <= |p|
  {
    exists i :: lo <= i < hi && p[i] != '.'
  }

  /**
   * `os.path.splitext(p)`: the extension starts at the last '.' of the last
   * path component, provided that dot is preceded within the component by a
   * character other than '.'; leading dots (as in ".gpkg") never start one.
   */
  function SplitExt(p: string): (string, string)
  {
    var sep := LastIndexOf(p, '/');
    var dot := LastIndexOf(p, '.');
    if dot > sep && HasNonDot(p, sep + 1, dot) then (p[..dot], p[dot..]) else (p, [])
  }

  /**
   * The two parts of `splitext` make up the path, and the extension is empty
   * or a single '.'-led suffix with no further dot and no '/'.
   */
  lemma SplitExtShape(p: string)
    ensures SplitExt(p).0 + SplitExt(p).1 == p
    ensures var e := SplitExt(p).1; e == [] || (e[0] == '.' && '.' !in e[1..] && '/' !in e)
  {
    var e := SplitExt(p).1;
    if e != [] {
      var dot := LastIndexOf(p, '.');
      LastIndexOfIsLast(p, '.');
      assert e == p[dot..];
      forall k | 0 < k < |e| ensures e[k] != '.' {
        assert e[k] == p[dot + k];
      }
      assert '/' !in e by {
        LastIndexOfIsLast(p, '/');
        forall k | 0 <= k < |e| ensures e[k] != '/' {
          assert e[k] == p[dot + k];
        }
      }
    }
  }

  /**
   * There is an extension exactly when the last component has a '.' after
   * some character other than '.'.
   */
  lemma SplitExtFindsExtension(p: string)
    ensures SplitExt(p).1 != [] <==>
              exists i, j :: LastIndexOf(p, '/') < i < j < |p| && p[i] != '.' && p[j] == '.'
  {
    var sep := LastIndexOf(p, '/');
    var dot := LastIndexOf(p, '.');
    if SplitExt(p).1 != [] {
      LastIndexOfIsLast(p, '.');
      var i :| sep + 1 <= i < dot && p[i] != '.';
      assert sep < i < dot < |p| && p[i] != '.' && p[dot] == '.';
    }
    forall i, j | sep < i < j < |p| && p[i] != '.' && p[j] == '.' ensures SplitExt(p).1 != [] {
      LastIndexOfIsLast(p, '.');
      assert dot >= j;
      assert HasNonDot(p, sep + 1, dot);
    }
  }

  /** `os.path.join(a, b)` for two components. */
  function Join(a: string, b: string): string
  {
    if |b| > 0 && b[0] == '/' then b
    else if a == [] || a[|a| - 1] == '/' then a + b
    else a + "/" + b
  }

  /** `os.path.abspath(p)` relative to the working directory `cwd`, without normalisation. */
  function AbsPath(cwd: string, p: string): string
  {
    if |p| > 0 && p[0] == '/' then p else Join(cwd, p)
  }

  /**
   * Joining puts `b` at the end of the result, so the joined path has the
   * basename of `b`: the pattern's matches are named by what the pattern
   * names, whatever directory they are found in.
   */
  lemma JoinKeepsBasename(a: string, b: string)
    ensures |b| <= |Join(a, b)| && Join(a, b)[|Join(a, b)| - |b|..] == b
    ensures Basename(Join(a, b)) == Basename(b)
  {
    if |b| > 0 && b[0] == '/' {
    } else if a == [] {
      assert Join(a, b) == b;
    } else if a[|a| - 1] == '/' {
      var c := a[..|a| - 1];
      assert a == c + "/";
      assert Join(a, b) == c + "/" + b;
      BasenameIgnoresDirectory(c, b);
    } else {
      assert Join(a, b) == a + "/" + b;
      BasenameIgnoresDirectory(a, b);
    }
  }

  /**
   * Making a path absolute keeps it when it already is, and otherwise puts
   * it under the working directory without changing its basename, so the
   * datastore name and the database URL of a package name the same file.
   */
  lemma AbsPathKeepsBasename(cwd: string, p: string)
    ensures |p| > 0 && p[0] == '/' ==> AbsPath(cwd, p) == p
    ensures |cwd| > 0 && cwd[0] == '/' ==> |AbsPath(cwd, p)| > 0 && AbsPath(cwd, p)[0] == '/'
    ensures Basename(AbsPath(cwd, p)) == Basename(p)
  {
    JoinKeepsBasename(cwd, p);
  }

  /** The datastore identifier of a package path: `splitext(basename(p))[0]`. */
  function Identifier(p: string): string
  {
    SplitExt(Basename(p)).0
  }

  /** The extension `Identifier` drops. */
  function Extension(p: string): string
  {
    SplitExt(Basename(p)).1
  }

  /**
   * The identifier and the extension make up the basename; the identifier has
   * no directory part, and the extension is empty or a single '.'-led suffix
   * with no further dot.
   */
  lemma IdentifierIsStem(p: string)
    ensures Identifier(p) + Extension(p) == Basename(p)
    ensures '/' !in Identifier(p)
    ensures Extension(p) == [] || (Extension(p)[0] == '.' && '.' !in Extension(p)[1..])
  {
    var b := Basename(p);
    BasenameIsLastComponent(p);
    SplitExtShape(b);
    assert Identifier(p) + Extension(p) == b;
    forall k | 0 <= k < |Identifier(p)| ensures Identifier(p)[k] != '/' {
      assert Identifier(p)[k] == b[k];
    }
  }

  /** `rfind` over a concatenation looks in the right part first. */
  lemma LastIndexOfAppend(a: string, b: string, c: char)
    ensures LastIndexOf(a + b, c) ==
              if LastIndexOf(b, c) >= 0 then |a| + LastIndexOf(b, c) else LastIndexOf(a, c)
  {
    var ab := a + b;
    var i := LastIndexOf(ab, c);
    var ib := LastIndexOf(b, c);
    var ia := LastIndexOf(a, c);
    var want := if ib >= 0 then |a| + ib else ia;
    LastIndexOfIsLast(a, c);
    LastIndexOfIsLast(b, c);
    assert want >= 0 ==> ab[want] == c;
    forall j | want < j < |ab| ensures ab[j] != c {
      if j >= |a| { assert ab[j] == b[j - |a|]; } else { assert ab[j] == a[j]; }
    }
    LastIndexOfUnique(ab, c, want);
  }

  /** A directory prefix never changes the basename. */
  lemma BasenameIgnoresDirectory(dir: string, name: string)
    ensures Basename(dir + "/" + name) == Basename(name)
  {
    var d := dir + "/";
    var p := dir + "/" + name;
    assert p == d + name;
    assert d[|dir|] == '/';
    LastIndexOfUnique(d, '/', |dir|);
    LastIndexOfAppend(d, name, '/');
    var k := LastIndexOf(name, '/');
    if k < 0 {
      assert LastIndexOf(p, '/') == |dir|;
      assert p[|dir| + 1..] == name;
    } else {
      assert LastIndexOf(p, '/') == |d| + k;
      assert p[|d| + k + 1..] == name[k + 1..];
    }
  }

  /**
   * The identifier depends on the file name alone: the same file reached
   * through any directory (absolute or relative to any working directory)
   * names the same datastore.
   */
  lemma IdentifierIgnoresDirectory(dir: string, name: string)
    ensures Identifier(dir + "/" + name) == Identifier(name)
  {
    BasenameIgnoresDirectory(dir, name);
  }

  /** The identifier of "/a/b/parks.gpkg" is "parks". */
  lemma IdentifierOfAbsolutePath()
    ensures Identifier("/a/b/parks.gpkg") == "parks"
  {
    var p := "/a/b/parks.gpkg";
    LastIndexOfUnique(p, '/', 4);
    var b := "parks.gpkg";
    assert Basename(p) == b;
    LastIndexOfUnique(b, '/', -1);
    LastIndexOfUnique(b, '.', 5);
    assert HasNonDot(b, 0, 5) by { assert b[0] != '.'; }
  }

  /** Only the final extension is removed: "a.b.gpkg" names "a.b". */
  lemma IdentifierKeepsInnerDots()
    ensures Identifier("a.b.gpkg") == "a.b"
  {
    var c := "a.b.gpkg";
    LastIndexOfUnique(c, '/', -1);
    assert Basename(c) == c;
    LastIndexOfUnique(c, '.', 3);
    assert HasNonDot(c, 0, 3) by { assert c[0] != '.'; }
  }

  /** A leading dot starts no extension: ".gpkg" names ".gpkg". */
  lemma IdentifierOfDotFile()
    ensures Identifier(".gpkg") == ".gpkg"
  {
    var d := ".gpkg";
    LastIndexOfUnique(d, '/', -1);
    assert Basename(d) == d;
    LastIndexOfUnique(d, '.', 0);
  }
}
