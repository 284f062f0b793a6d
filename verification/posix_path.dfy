/**
 * The parts of node's posix `path` module that getOutputPath uses: `dirname`,
 * `basename`, `extname` and `join`. '/' is the only separator; a backslash is an
 * ordinary character. The functions agree with node on normalised paths (see
 * `Normalised`): no trailing '/', no "//", no "." or ".." segments; `join` does
 * not normalise.
 */
module PosixPath {
  import opened Text

  /** Index of the last occurrence of `c` in `s`, or -1. */
  function LastIndexOf(s: string, c: char): (k: int)
    ensures -1 <= k < |s|
    ensures k >= 0 ==> s[k] == c
    ensures forall j :: k < j < |s| ==> s[j] != c
  {
    LastIndexBefore(s, c, |s|)
  }

  /** Index of the last occurrence of `c` among the first `n` characters of `s`, or -1. */
  function LastIndexBefore(s: string, c: char, n: nat): (k: int)
    requires n <= |s|
    ensures -1 <= k < n
    ensures k >= 0 ==> s[k] == c
    ensures forall j :: k < j < n ==> s[j] != c
  {
    if n == 0 then -1
    else if s[n - 1] == c then n - 1
    else LastIndexBefore(s, c, n - 1)
  }

  /** The last occurrence is the one with none after it. */
  lemma LastIndexAt(s: string, c: char, k: int)
    requires -1 <= k < |s| && (k >= 0 ==> s[k] == c)
    requires forall j :: k < j < |s| ==> s[j] != c
    ensures LastIndexOf(s, c) == k
  {
  }

  /** `path.dirname(p)`: everything before the last '/', "/" for a root entry, "." for a bare name. */
  function Dirname(p: string): string
  {
    var k := LastIndexOf(p, '/');
    if k < 0 then "." else if k == 0 then "/" else p[..k]
  }

  /** `path.basename(p)`: everything after the last '/'. */
  function Basename(p: string): string
  {
    p[LastIndexOf(p, '/') + 1..]
  }

  /**
   * `path.extname(p)`: from the last '.' of the base name to its end, unless that
   * dot opens the name (".bashrc" has no extension) or the name is "..".
   */
  function Extname(p: string): string
  {
    var name := Basename(p);
    var k := LastIndexOf(name, '.');
    if k <= 0 || name == ".." then "" else name[k..]
  }

  /** `path.basename(p, path.extname(p))`: the base name less its last extension. */
  function Stem(p: string): string
  {
    var name := Basename(p);
    name[..|name| - |Extname(p)|]
  }

  /** `path.join(dir, name)` for a normalised `dir` and a `name` without '/'. */
  function Join(dir: string, name: string): string
  {
    if dir == "." then name
    else if dir != [] && dir[|dir| - 1] == '/' then dir + name
    else dir + "/" + name
  }

  /**
   * `dirname` is "." for a bare name, "/" for an entry of the root, and otherwise the
   * part before the last '/', which is neither empty nor the whole path.
   */
  lemma DirnameParts(p: string)
    ensures NoSeparator(p) ==> Dirname(p) == "."
    ensures !NoSeparator(p) ==>
              var r := Dirname(p);
              (r == "/" && p[0] == '/' && NoSeparator(p[1..]))
              || (0 < |r| < |p| && p[..|r| + 1] == r + "/" && NoSeparator(p[|r| + 1..]))
  {
  }

  /** `basename` is the '/'-free tail of the path, preceded by a '/' unless it is the whole path. */
  lemma BasenameParts(p: string)
    ensures var r := Basename(p);
            NoSeparator(r) && EndsWith(p, r) && (|r| < |p| ==> p[|p| - |r| - 1] == '/')
  {
  }

  /**
   * `extname` is empty or a '.' with no further '.' that ends the base name without
   * being all of it; a name with a '.' after its first character, other than "..",
   * has one.
   */
  lemma ExtnameParts(p: string)
    ensures var r := Extname(p);
            && (r == "" || (r[0] == '.' && |r| < |Basename(p)| && EndsWith(Basename(p), r)))
            && (forall i :: 0 < i < |r| ==> r[i] != '.')
    ensures (exists i :: 0 < i < |Basename(p)| && Basename(p)[i] == '.') && Basename(p) != ".."
            ==> Extname(p) != ""
  {
  }

  /** The stem followed by the extension is the base name. */
  lemma StemParts(p: string)
    ensures Stem(p) + Extname(p) == Basename(p)
  {
  }

  /**
   * `basename` takes a '/'-free name back out of a join, and `dirname` takes back a
   * directory that `join` extended with a single '/'.
   */
  lemma JoinParts(dir: string, name: string)
    requires NoSeparator(name)
    ensures Basename(Join(dir, name)) == name
    ensures dir != "" && dir != "." && dir[|dir| - 1] != '/' ==> Dirname(Join(dir, name)) == dir
  {
    if dir == "." {
      BareName(name);
    } else if dir != [] && dir[|dir| - 1] == '/' {
      var d := dir[..|dir| - 1];
      assert d + "/" + name == dir + name;
      SplitAtSlash(d, name);
    } else {
      SplitAtSlash(dir, name);
    }
  }

  /**
   * A normalised path: no empty segment ("//"), no trailing '/' and no "." or ".."
   * segment. These are the paths node's `join` leaves as they are.
   */
  predicate Normalised(p: string)
  {
    (forall i :: 0 <= i < |p| - 1 ==> !(p[i] == '/' && p[i + 1] == '/'))
    && (|p| > 1 ==> p[|p| - 1] != '/')
    && (forall i :: 0 <= i < |p| ==> !DotSegmentAt(p, i))
  }

  /** A "." or ".." segment starts at index `i` of `p`. */
  predicate DotSegmentAt(p: string, i: nat)
    requires i < |p|
  {
    p[i] == '.' && (i == 0 || p[i - 1] == '/')
    && ((i + 1 == |p| || p[i + 1] == '/')
        || (i + 1 < |p| && p[i + 1] == '.' && (i + 2 == |p| || p[i + 2] == '/')))
  }

  /** The base name is its stem followed by its extension; only the last extension is split off. */
  lemma StemAndExtension(p: string)
    ensures Stem(p) + Extname(p) == Basename(p)
    ensures Extname(p) == "" || (Extname(p)[0] == '.' && Stem(p) != "")
    ensures forall i :: 0 < i < |Extname(p)| ==> Extname(p)[i] != '.'
  {
    var name := Basename(p);
    var k := LastIndexOf(name, '.');
    if !(k <= 0 || name == "..") {
      assert name[k..][0] == name[k];
      assert name[..k] + name[k..] == name;
    }
  }

  /** Everything up to and including the last '/': the part `dirname` keeps, with its separator. */
  function DirPrefix(p: string): string
  {
    p[..LastIndexOf(p, '/') + 1]
  }

  /** A path is its DirPrefix followed by its base name. */
  lemma DirPrefixBasename(p: string)
    ensures DirPrefix(p) + Basename(p) == p
  {
  }

  /** On a normalised path, joining onto its dirname puts a name right after its last '/'. */
  lemma JoinDirname(p: string, name: string)
    requires Normalised(p)
    ensures Join(Dirname(p), name) == DirPrefix(p) + name
  {
    var k := LastIndexOf(p, '/');
    if k > 0 {
      var d := p[..k];
      assert d[|d| - 1] == p[k - 1] != '/';
      assert !DotSegmentAt(p, 0);
      assert d != ".";
      assert p[..k + 1] == d + "/";
    }
  }

  /** Splitting a normalised path at its last '/' and joining it again gives it back. */
  lemma DirnameBasenameJoin(p: string)
    requires Normalised(p)
    ensures Join(Dirname(p), Basename(p)) == p
  {
    JoinDirname(p, Basename(p));
    DirPrefixBasename(p);
  }

  /** `s` contains no '/'. */
  predicate NoSeparator(s: string)
  {
    forall i :: 0 <= i < |s| ==> s[i] != '/'
  }

  /** A '.' followed by at least one character and no further '.'. */
  predicate IsExtension(ext: string)
  {
    |ext| >= 2 && ext[0] == '.' && forall i :: 1 <= i < |ext| ==> ext[i] != '.'
  }

  /** A path made of a directory, '/' and a name without '/' splits back into the two. */
  lemma SplitAtSlash(dir: string, name: string)
    requires NoSeparator(name)
    ensures Basename(dir + "/" + name) == name
    ensures dir != "" ==> Dirname(dir + "/" + name) == dir
  {
    var p := dir + "/" + name;
    forall j | |dir| < j < |p|
      ensures p[j] != '/'
    {
      assert p[j] == name[j - |dir| - 1];
    }
    LastIndexAt(p, '/', |dir|);
    assert p[|dir| + 1..] == name;
    assert p[..|dir|] == dir;
  }

  /** A name without '/' is its own base name, in the directory ".". */
  lemma BareName(name: string)
    requires NoSeparator(name)
    ensures Basename(name) == name && Dirname(name) == "."
  {
    LastIndexAt(name, '/', -1);
  }

  /** A base name that is a stem followed by a '.' and a dot-free tail has that tail as its extension. */
  lemma SplitAtDot(p: string, stem: string, ext: string)
    requires Basename(p) == stem + ext
    requires stem != "" && IsExtension(ext)
    ensures Extname(p) == ext && Stem(p) == stem
  {
    var name := stem + ext;
    forall j | |stem| < j < |name|
      ensures name[j] != '.'
    {
      assert name[j] == ext[j - |stem|];
    }
    LastIndexAt(name, '.', |stem|);
    assert name[|stem|..] == ext;
  }

  /** A base name without '.' has no extension. */
  lemma NoDot(p: string)
    requires forall i :: 0 <= i < |Basename(p)| ==> Basename(p)[i] != '.'
    ensures Extname(p) == "" && Stem(p) == Basename(p)
  {
    LastIndexAt(Basename(p), '.', -1);
  }
}
