/**
 * Where a converted file is written (src/domain/services/path-calculator.ts):
 * the output directory, or else the input's own directory, joined with the input's
 * base name less its last extension, followed by the configured extension.
 */
module PathCalculator {
  import opened Wrappers
  import opened PosixPath
  import DomainOptions

  /**
   * The calculation shared by every copy of getOutputPath. Without an output
   * directory a normalised input keeps its place and only its last extension is
   * replaced; with a plain, normalised output directory the input's directory is
   * dropped.
   */
  function OutputPath(inputPath: string, outDir: Option<string>, extension: string): (r: string)
    ensures !Truthy(outDir) && Normalised(inputPath) ==> r == inputPath[..|inputPath| - |Extname(inputPath)|] + extension
    ensures Truthy(outDir) && PlainDirectory(outDir.value) ==> r == outDir.value + "/" + Stem(inputPath) + extension
  {
    var dir := Dirname(inputPath);
    var baseName := Stem(inputPath);
    var outputDir := if Truthy(outDir) then outDir.value else dir;
    assert !Truthy(outDir) && Normalised(inputPath)
           ==> Join(dir, baseName + extension) == inputPath[..|inputPath| - |Extname(inputPath)|] + extension by {
      if Normalised(inputPath) { BesideInput(inputPath, extension); }
    }
    assert outDir.Some? ==> outDir.value + "/" + (baseName + extension) == outDir.value + "/" + baseName + extension;
    Join(outputDir, baseName + extension)
  }

  /** With no output directory the output sits next to the input, with its last extension replaced. */
  lemma BesideInput(p: string, extension: string)
    requires Normalised(p)
    ensures Join(Dirname(p), Stem(p) + extension) == p[..|p| - |Extname(p)|] + extension
  {
    JoinDirname(p, Stem(p) + extension);
    ExtensionReplaced(p, extension);
  }

  /** Putting a new extension after the stem is cutting the old one off the whole path. */
  lemma ExtensionReplaced(p: string, extension: string)
    ensures DirPrefix(p) + (Stem(p) + extension) == p[..|p| - |Extname(p)|] + extension
  {
    StemAndExtension(p);
    DirPrefixBasename(p);
    ReplaceTail(DirPrefix(p), Stem(p), Extname(p), extension, p);
  }

  /** Replacing the last part of a string made of three parts. */
  lemma ReplaceTail(a: string, b: string, c: string, e: string, x: string)
    requires a + (b + c) == x
    ensures x[..|x| - |c|] + e == a + (b + e)
  {
    DropTail(a, b, c, x);
  }

  /** Cutting the last part off a string made of three parts leaves the first two. */
  lemma DropTail(a: string, b: string, c: string, x: string)
    requires a + (b + c) == x
    ensures x[..|x| - |c|] == a + b
    ensures x[..|x| - |c|] + c == x
  {
    assert x == (a + b) + c;
  }

  /** getOutputPath(inputPath, options) */
  function GetOutputPath(inputPath: string, options: DomainOptions.Options): (r: string)
    ensures !Truthy(options.outDir) && Normalised(inputPath)
            ==> r == inputPath[..|inputPath| - |Extname(inputPath)|] + options.extension
    ensures Truthy(options.outDir) && PlainDirectory(options.outDir.value)
            ==> r == options.outDir.value + "/" + Stem(inputPath) + options.extension
  {
    OutputPath(inputPath, options.outDir, options.extension)
  }

  /** Without an output directory only the input's last extension is replaced. */
  lemma ReplacesLastExtension(p: string, options: DomainOptions.Options)
    requires Normalised(p) && !Truthy(options.outDir)
    ensures GetOutputPath(p, options) == p[..|p| - |Extname(p)|] + options.extension
  {
    BesideInput(p, options.extension);
  }

  /** With an output directory the input's directory is discarded: only its base name matters. */
  lemma OutDirDiscardsInputDirectory(p: string, q: string, options: DomainOptions.Options)
    requires Truthy(options.outDir) && Basename(p) == Basename(q)
    ensures GetOutputPath(p, options) == GetOutputPath(q, options)
  {
  }

  /**
   * A file that already carries the output extension and has no output directory is
   * mapped onto itself.
   */
  lemma SameExtensionMapsToItself(p: string, options: DomainOptions.Options)
    requires Normalised(p) && !Truthy(options.outDir) && Extname(p) == options.extension
    ensures GetOutputPath(p, options) == p
  {
    ReplacesLastExtension(p, options);
    StemAndExtension(p);
    DirPrefixBasename(p);
    DropTail(DirPrefix(p), Stem(p), Extname(p), p);
  }

  /**
   * A directory that `join` extends with a single '/' and otherwise leaves as it is:
   * not empty, not ".", no trailing '/', and already in normal form (no "//" and no
   * "." or ".." segment), so that node's normalisation has nothing to rewrite in it.
   */
  predicate PlainDirectory(dir: string)
  {
    dir != "" && dir != "." && dir[|dir| - 1] != '/' && Normalised(dir)
  }

  /** `stem + ext` is a file name whose last extension is `ext`. */
  predicate NameWithExtension(stem: string, ext: string)
  {
    NoSeparator(stem + ext) && stem != "" && IsExtension(ext)
  }

  /**
   * Without an output directory, `dir/stem.ext` becomes `dir/stem` followed by the
   * configured extension; dots inside the stem stay ("my.diagram.test.mmd",
   * "diagram..mmd").
   */
  lemma ExtensionReplacedInPlace(dir: string, stem: string, ext: string, options: DomainOptions.Options)
    requires !Truthy(options.outDir) && PlainDirectory(dir) && NameWithExtension(stem, ext)
    ensures GetOutputPath(dir + "/" + stem + ext, options) == dir + "/" + stem + options.extension
  {
    FileInDirectory(dir, stem, ext);
    ExtensionReplacedBeside(dir + "/" + stem + ext, dir, stem, options.extension);
  }

  /** The step of ExtensionReplacedInPlace that needs only the shape of `dir`. */
  lemma ExtensionReplacedBeside(p: string, dir: string, stem: string, extension: string)
    requires Dirname(p) == dir && Stem(p) == stem
    requires dir != "" && dir != "." && dir[|dir| - 1] != '/'
    ensures OutputPath(p, None, extension) == dir + "/" + stem + extension
  {
    assert dir + "/" + (stem + extension) == dir + "/" + stem + extension;
  }

  /** `dir/stem.ext` splits back into `dir` and `stem`. */
  lemma FileInDirectory(dir: string, stem: string, ext: string)
    requires dir != "" && NameWithExtension(stem, ext)
    ensures Dirname(dir + "/" + stem + ext) == dir && Stem(dir + "/" + stem + ext) == stem
  {
    var p := dir + "/" + (stem + ext);
    assert dir + "/" + stem + ext == p;
    SplitAtSlash(dir, stem + ext);
    SplitAtDot(p, stem, ext);
  }

  /** Without an output directory, a name with no '.' simply gains the configured extension. */
  lemma ExtensionAppended(dir: string, name: string, options: DomainOptions.Options)
    requires !Truthy(options.outDir) && PlainDirectory(dir) && name != "" && NoSeparator(name)
    requires forall i :: 0 <= i < |name| ==> name[i] != '.'
    ensures GetOutputPath(dir + "/" + name, options) == dir + "/" + name + options.extension
  {
    var p := dir + "/" + name;
    SplitAtSlash(dir, name);
    NoDot(p);
    assert dir + "/" + (name + options.extension) == dir + "/" + name + options.extension;
  }

  /**
   * With an output directory, `dir/stem.ext` becomes `outDir/stem` followed by the
   * configured extension, however deep `dir` is.
   */
  lemma StemMovedToOutDir(dir: string, stem: string, ext: string, options: DomainOptions.Options)
    requires Truthy(options.outDir) && PlainDirectory(options.outDir.value) && NameWithExtension(stem, ext)
    ensures GetOutputPath(dir + "/" + stem + ext, options)
         == options.outDir.value + "/" + stem + options.extension
  {
    StemOfFileInDirectory(dir, stem, ext);
    var out := options.outDir.value;
    assert out + "/" + (stem + options.extension) == out + "/" + stem + options.extension;
  }

  lemma StemOfFileInDirectory(dir: string, stem: string, ext: string)
    requires NameWithExtension(stem, ext)
    ensures Stem(dir + "/" + stem + ext) == stem
  {
    var p := dir + "/" + (stem + ext);
    assert dir + "/" + stem + ext == p;
    SplitAtSlash(dir, stem + ext);
    SplitAtDot(p, stem, ext);
  }

  /**
   * A bare file name stays bare. A backslash is no separator under POSIX rules, so a
   * Windows-style path is one such name.
   */
  lemma BareNameStaysBare(stem: string, ext: string, options: DomainOptions.Options)
    requires !Truthy(options.outDir) && NameWithExtension(stem, ext)
    ensures GetOutputPath(stem + ext, options) == stem + options.extension
  {
    BareName(stem + ext);
    SplitAtDot(stem + ext, stem, ext);
  }
}
