/**
 * The current batch engine, `processFiles` of
 * src/infrastructure/services/file-batch-processor.ts: refuse an empty match, create
 * the output directory, render the command line once, then convert every matched
 * file (read, format, compare with the existing output, write, optionally delete the
 * source) and report one entry per file. The files the glob matched are given; the
 * per-file steps run one after another (see SequentialBatch).
 */
module FileBatchProcessor {
  import opened Wrappers
  import opened FileSystemAdapter
  import opened SequentialBatch
  import DomainOptions
  import MermaidFormatter
  import PathCalculator
  import CommandInfoGenerator
  import Text

  /**
   * The options this engine reads: `outDir`, `hideCommand` and `removeSource`
   * itself, `extension` through getOutputPath and `header`, `footer` and
   * `showCommand` through formatMermaidAsMarkdown.
   */
  datatype ProcessingOptions = ProcessingOptions(
    outDir: Option<string>,
    extension: string,
    header: string,
    footer: string,
    showCommand: bool,
    hideCommand: bool,
    removeSource: bool)

  /** The same options as the formatter and the path calculator see them (neither reads `keepSource` or `config`). */
  function AsOptions(o: ProcessingOptions): DomainOptions.Options
  {
    DomainOptions.Options(o.extension, o.header, o.footer, false, o.showCommand, o.outDir, None)
  }

  /** One file's entry in the report. */
  datatype MermaidConversion = MermaidConversion(
    mermaidFile: string,
    converted: bool,
    markdownFile: string,
    changed: bool,
    failureReason: Option<string>)

  /** The command line shown in every document: rendered when not hidden and the raw options were given. */
  function CommandInfoFor(pattern: string, options: ProcessingOptions, raw: Option<DomainOptions.CLIOptions>): Option<string>
  {
    if !options.hideCommand && raw.Some? then Some(CommandInfoGenerator.CommandLine(pattern, raw.value)) else None
  }

  /** The document written for a source holding `content`. */
  function Document(options: ProcessingOptions, commandInfo: Option<string>, content: string): string
  {
    MermaidFormatter.Markdown(options.header, options.footer, MermaidFormatter.CommandBlock(AsOptions(options), commandInfo), content)
  }

  /**
   * `!existing || existing !== formatted`: for a non-empty document, "changed" means
   * the output path did not already hold exactly that document; an empty document
   * always counts as changed.
   */
  function Changed(existing: Option<string>, formatted: string): (r: bool)
    ensures formatted != "" ==> (r <==> existing != Some(formatted))
    ensures formatted == "" ==> r
  {
    !Truthy(existing) || existing.value != formatted
  }

  /** A document is never empty, so "changed" means exactly that the output did not already hold it. */
  lemma ChangedMeansNew(options: ProcessingOptions, commandInfo: Option<string>, content: string, existing: Option<string>)
    ensures Changed(existing, Document(options, commandInfo, content)) <==> existing != Some(Document(options, commandInfo, content))
  {
    var text := Document(options, commandInfo, content);
  }

  /**
   * Right after the header, every document of a run opens a bash block exactly when
   * `showCommand` is set, `hideCommand` is not and the raw CLI options were given;
   * the block then holds the command line rendered from the pattern and those options.
   */
  lemma DocumentShowsCommand(pattern: string, options: ProcessingOptions, raw: Option<DomainOptions.CLIOptions>,
                             content: string)
    ensures var doc := Document(options, CommandInfoFor(pattern, options, raw), content);
            Text.StartsWith(doc, MermaidFormatter.HeaderSection(options.header) + "```bash\n")
            <==> options.showCommand && !options.hideCommand && raw.Some?
    ensures options.showCommand && !options.hideCommand && raw.Some? ==>
              Text.StartsWith(Document(options, CommandInfoFor(pattern, options, raw), content),
                              MermaidFormatter.HeaderSection(options.header) + "```bash\n"
                              + CommandInfoGenerator.CommandLine(pattern, raw.value) + "\n```")
  {
    var info := CommandInfoFor(pattern, options, raw);
    if info.Some? {
      CommandInfoGenerator.StartsWithPackageName(pattern, raw.value);
      assert info.value != "";
    }
    MermaidFormatter.CommandShownIff(AsOptions(options), info, content);
  }

  /** The entry of a file whose conversion threw `e`. */
  function Failure(file: string, e: IoError): MermaidConversion
  {
    MermaidConversion(file, false, "", false, Some(Message(e)))
  }

  /** One file's conversion: the file system it leaves, the calls it makes and its entry. */
  function Convert(options: ProcessingOptions, commandInfo: Option<string>, d: Disk, file: string): (s: StepOut<MermaidConversion>)
    ensures s.result.mermaidFile == file
    ensures s.result.converted ==> s.result.markdownFile == PathCalculator.GetOutputPath(file, AsOptions(options)) && s.result.failureReason == None
    ensures !s.result.converted ==> s.result.markdownFile == "" && !s.result.changed && s.result.failureReason.Some?
  {
    var out := PathCalculator.GetOutputPath(file, AsOptions(options));
    var read := ReadFile(d, file);
    if read.Err? then StepOut(d, [ReadCall(file)], Failure(file, read.error))
    else
      var s := Store(options.removeSource, d, file, out, Document(options, commandInfo, read.value));
      StepOut(s.disk, [ReadCall(file)] + s.ops, s.result)
  }

  /** The conversion once the document is rendered: compare with the existing output, write it, delete the source if asked. */
  function Store(removeSource: bool, d: Disk, file: string, out: string, text: string): (s: StepOut<MermaidConversion>)
    ensures s.result.mermaidFile == file
    ensures s.result.converted ==> s.result.markdownFile == out && s.result.failureReason == None
    ensures !s.result.converted ==> s.result.markdownFile == "" && !s.result.changed && s.result.failureReason.Some?
  {
    var existing := ReadFileIfExists(d, out);
    if existing.Err? then StepOut(d, [ReadCall(out)], Failure(file, existing.error))
    else
      var entry := MermaidConversion(file, true, out, Changed(existing.value, text), None);
      var w := WriteFile(d, out, text);
      if w.outcome.Fail? then StepOut(d, [ReadCall(out), WriteCall(out, text)], Failure(file, w.outcome.error))
      else if !removeSource then StepOut(w.disk, [ReadCall(out), WriteCall(out, text)], entry)
      else
        var u := Unlink(w.disk, file);
        if u.outcome.Fail? then StepOut(w.disk, [ReadCall(out), WriteCall(out, text), UnlinkCall(file)], Failure(file, u.outcome.error))
        else StepOut(u.disk, [ReadCall(out), WriteCall(out, text), UnlinkCall(file)], entry)
  }

  /** The per-file step with the batch's options and command line fixed. */
  function Step(options: ProcessingOptions, commandInfo: Option<string>): (Disk, string) -> StepOut<MermaidConversion>
  {
    (d: Disk, file: string) => Convert(options, commandInfo, d, file)
  }

  /** The whole run of processFiles over the matched `files`. */
  function Process(d: Disk, pattern: string, files: seq<string>, options: ProcessingOptions,
                   raw: Option<DomainOptions.CLIOptions>): (b: BatchOut<MermaidConversion>)
    ensures files == [] ==> b.result == Err(NoFilesFound(pattern)) && b.ops == [] && b.disk == d
    ensures b.result.Ok? ==> |b.result.value| == |files|
                             && forall i :: 0 <= i < |files| ==> b.result.value[i].mermaidFile == files[i]
  {
    var step := Step(options, CommandInfoFor(pattern, options, raw));
    var b := Batch(d, pattern, files, options.outDir, step);
    assert b.result.Ok? ==> forall i :: 0 <= i < |files| ==> b.result.value[i].mermaidFile == files[i] by {
      if b.result.Ok? {
        forall i | 0 <= i < |files|
          ensures b.result.value[i].mermaidFile == files[i]
        {
          BatchEntry(d, pattern, files, options.outDir, step, i);
        }
      }
    }
    b
  }

  /** The file system file `i` of a run starts from. */
  function StartOf(d: Disk, pattern: string, files: seq<string>, options: ProcessingOptions,
                   raw: Option<DomainOptions.CLIOptions>, i: nat): Disk
    requires i <= |files|
  {
    Before(d, files, options.outDir, Step(options, CommandInfoFor(pattern, options, raw)), i)
  }

  /** One file's conversion against the file system, as the source's `try` block runs it. */
  method ConvertOne(fs: FileSystem, options: ProcessingOptions, commandInfo: Option<string>, file: string)
    returns (entry: MermaidConversion)
    modifies fs
    ensures var s := Step(options, commandInfo)(old(fs.State()), file);
            entry == s.result && fs.State() == s.disk && fs.log == old(fs.log) + s.ops
  {
    var outputPath := PathCalculator.GetOutputPath(file, AsOptions(options));
    var content := fs.ReadTextFile(file);
    if content.Err? {
      entry := Failure(file, content.error);
      return;
    }
    var formatted := MermaidFormatter.FormatMermaidAsMarkdown(content.value, AsOptions(options), commandInfo);
    ghost var log1 := fs.log;
    entry := StoreOne(fs, options.removeSource, file, outputPath, formatted);
    AppendAssoc(old(fs.log), [ReadCall(file)], fs.log[|log1|..]);
  }

  /** The part of the `try` block after formatting. */
  method StoreOne(fs: FileSystem, removeSource: bool, file: string, outputPath: string, formatted: string)
    returns (entry: MermaidConversion)
    modifies fs
    ensures var s := Store(removeSource, old(fs.State()), file, outputPath, formatted);
            entry == s.result && fs.State() == s.disk && fs.log == old(fs.log) + s.ops
  {
    var existing := fs.ReadTextFileIfExists(outputPath);
    if existing.Err? {
      entry := Failure(file, existing.error);
      return;
    }
    var isChanged := !Truthy(existing.value) || existing.value.value != formatted;
    var written := fs.WriteTextFile(outputPath, formatted);
    if written.Fail? {
      entry := Failure(file, written.error);
      return;
    }
    if removeSource {
      var deleted := fs.DeleteFile(file);
      if deleted.Fail? {
        entry := Failure(file, deleted.error);
        return;
      }
    }
    entry := MermaidConversion(file, true, outputPath, isChanged, None);
  }

  /** processFiles */
  method ProcessFiles(fs: FileSystem, pattern: string, files: seq<string>, options: ProcessingOptions,
                      rawCliOptions: Option<DomainOptions.CLIOptions>)
    returns (r: Result<seq<MermaidConversion>, BatchError>)
    modifies fs
    ensures var b := Process(old(fs.State()), pattern, files, options, rawCliOptions);
            r == b.result && fs.State() == b.disk && fs.log == old(fs.log) + b.ops
  {
    if |files| == 0 {
      return Err(NoFilesFound(pattern));
    }
    if Truthy(options.outDir) {
      var made := fs.CreateDirectory(options.outDir.value);
      if made.Fail? {
        return Err(DirectoryFailed(made.error));
      }
    }
    var commandInfo: Option<string> := None;
    if !options.hideCommand && rawCliOptions.Some? {
      var line := CommandInfoGenerator.GenerateCommandInfo(pattern, rawCliOptions.value);
      commandInfo := Some(line);
    }
    assert commandInfo == CommandInfoFor(pattern, options, rawCliOptions);
    ghost var prepared := fs.log;
    assert prepared == old(fs.log) + PrepareOps(options.outDir);
    var results := ConvertEach(fs, options, commandInfo, files);
    AppendAssoc(old(fs.log), PrepareOps(options.outDir), Run(Prepare(old(fs.State()), options.outDir).disk, files, Step(options, commandInfo)).ops);
    r := Ok(results);
  }

  /** The per-file conversions of processFiles, one after another in list order. */
  method ConvertEach(fs: FileSystem, options: ProcessingOptions, commandInfo: Option<string>, files: seq<string>)
    returns (results: seq<MermaidConversion>)
    modifies fs
    ensures var t := Run(old(fs.State()), files, Step(options, commandInfo));
            results == t.results && fs.State() == t.disk && fs.log == old(fs.log) + t.ops
  {
    ghost var start := fs.State();
    ghost var step := Step(options, commandInfo);
    results := [];
    var i := 0;
    while i < |files|
      invariant 0 <= i <= |files|
      invariant fs.State() == Run(start, files[..i], step).disk
      invariant fs.log == old(fs.log) + Run(start, files[..i], step).ops
      invariant results == Run(start, files[..i], step).results
    {
      ghost var t := Run(start, files[..i], step);
      RunExtend(start, files, i, step);
      var entry := ConvertOne(fs, options, commandInfo, files[i]);
      AppendAssoc(old(fs.log), t.ops, step(t.disk, files[i]).ops);
      results := results + [entry];
      i := i + 1;
    }
    assert files[..i] == files;
  }

  /** A source that cannot be read fails its entry before anything is written or deleted. */
  lemma ReadFailureTouchesNothing(options: ProcessingOptions, commandInfo: Option<string>, d: Disk, file: string)
    requires ReadFile(d, file).Err?
    ensures var s := Convert(options, commandInfo, d, file);
            s.disk == d && s.ops == [ReadCall(file)]
            && s.result.failureReason == Some(Message(ReadFile(d, file).error))
  {
  }

  /**
   * A file is converted exactly when every call of its conversion succeeds: the source
   * can be read, the output path can be read and written, and, with `removeSource`,
   * the source can be deleted.
   */
  lemma SuccessIffEveryCallSucceeds(options: ProcessingOptions, commandInfo: Option<string>, d: Disk, file: string)
    ensures var out := PathCalculator.GetOutputPath(file, AsOptions(options));
            Convert(options, commandInfo, d, file).result.converted
            <==> file in d.files && file !in d.denied && !Locked(d, out) && (options.removeSource ==> !Locked(d, file))
  {
    ConvertStages(options, commandInfo, d, file);
  }

  /**
   * The reason a failed file reports is the message of the error thrown by the first
   * call that failed: the read of the source, the read of the existing output, the
   * write, or the delete of the source.
   */
  lemma FailureReasonOfFailingCall(options: ProcessingOptions, commandInfo: Option<string>, d: Disk, file: string)
    ensures var out := PathCalculator.GetOutputPath(file, AsOptions(options));
            var reason := Convert(options, commandInfo, d, file).result.failureReason;
            if ReadFile(d, file).Err? then reason == Some(Message(ReadFile(d, file).error))
            else if out in d.denied then reason == Some(Message(IoError(EACCES, "open", out)))
            else if Locked(d, out) then reason == Some(Message(IoError(EACCES, "open", out)))
            else if options.removeSource && Locked(d, file) then reason == Some(Message(IoError(EACCES, "unlink", file)))
            else reason == None
  {
    ConvertStages(options, commandInfo, d, file);
  }

  /**
   * A converted file: its source was there, the output path now holds the document
   * rendered from it (and the source is gone when `removeSource` is set), the calls
   * were read, read output, write, then delete, and `changed` says whether the output
   * held anything else before.
   */
  lemma ConvertSuccess(options: ProcessingOptions, commandInfo: Option<string>, d: Disk, file: string)
    requires Convert(options, commandInfo, d, file).result.converted
    ensures file in d.files
    ensures var s := Convert(options, commandInfo, d, file);
            var out := PathCalculator.GetOutputPath(file, AsOptions(options));
            var text := Document(options, commandInfo, d.files[file]);
            && s.disk.files == (if options.removeSource then d.files[out := text] - {file} else d.files[out := text])
            && s.disk.dirs == d.dirs
            && s.ops == [ReadCall(file), ReadCall(out), WriteCall(out, text)] + (if options.removeSource then [UnlinkCall(file)] else [])
            && (s.result.changed <==> !(out in d.files && d.files[out] == text))
  {
    ConvertedFileSystem(options, commandInfo, d, file);
    ConvertedCalls(options, commandInfo, d, file);
    ConvertedChanged(options, commandInfo, d, file);
  }

  lemma ConvertedFileSystem(options: ProcessingOptions, commandInfo: Option<string>, d: Disk, file: string)
    requires Convert(options, commandInfo, d, file).result.converted
    ensures file in d.files
    ensures var s := Convert(options, commandInfo, d, file);
            var out := PathCalculator.GetOutputPath(file, AsOptions(options));
            var text := Document(options, commandInfo, d.files[file]);
            && s.disk.files == (if options.removeSource then d.files[out := text] - {file} else d.files[out := text])
            && s.disk.dirs == d.dirs
  {
    ConvertStages(options, commandInfo, d, file);
    assert ReadFile(d, file).Ok?;
    StoreSuccess(options.removeSource, d, file, PathCalculator.GetOutputPath(file, AsOptions(options)),
                 Document(options, commandInfo, d.files[file]));
  }

  lemma ConvertedCalls(options: ProcessingOptions, commandInfo: Option<string>, d: Disk, file: string)
    requires Convert(options, commandInfo, d, file).result.converted
    ensures file in d.files
    ensures var s := Convert(options, commandInfo, d, file);
            var out := PathCalculator.GetOutputPath(file, AsOptions(options));
            var text := Document(options, commandInfo, d.files[file]);
            s.ops == [ReadCall(file), ReadCall(out), WriteCall(out, text)] + (if options.removeSource then [UnlinkCall(file)] else [])
  {
    ConvertStages(options, commandInfo, d, file);
    assert ReadFile(d, file).Ok?;
    var out := PathCalculator.GetOutputPath(file, AsOptions(options));
    var text := Document(options, commandInfo, d.files[file]);
    StoreSuccess(options.removeSource, d, file, out, text);
    var tail := if options.removeSource then [UnlinkCall(file)] else [];
    assert [ReadCall(file)] + ([ReadCall(out), WriteCall(out, text)] + tail)
        == [ReadCall(file), ReadCall(out), WriteCall(out, text)] + tail;
  }

  lemma ConvertedChanged(options: ProcessingOptions, commandInfo: Option<string>, d: Disk, file: string)
    requires Convert(options, commandInfo, d, file).result.converted
    ensures file in d.files
    ensures var out := PathCalculator.GetOutputPath(file, AsOptions(options));
            var text := Document(options, commandInfo, d.files[file]);
            Convert(options, commandInfo, d, file).result.changed <==> !(out in d.files && d.files[out] == text)
  {
    ConvertStages(options, commandInfo, d, file);
    assert ReadFile(d, file).Ok?;
    var out := PathCalculator.GetOutputPath(file, AsOptions(options));
    var text := Document(options, commandInfo, d.files[file]);
    StoreSuccess(options.removeSource, d, file, out, text);
    ChangedMeansNew(options, commandInfo, d.files[file], ReadFileIfExists(d, out).value);
  }

  /** The store stage of a converted file: its file system, its calls and its `changed` flag. */
  lemma StoreSuccess(removeSource: bool, d: Disk, file: string, out: string, text: string)
    requires Store(removeSource, d, file, out, text).result.converted
    ensures var s := Store(removeSource, d, file, out, text);
            && ReadFileIfExists(d, out) == Ok(if out in d.files then Some(d.files[out]) else None)
            && s.disk.files == (if removeSource then d.files[out := text] - {file} else d.files[out := text])
            && s.disk.dirs == d.dirs
            && s.ops == [ReadCall(out), WriteCall(out, text)] + (if removeSource then [UnlinkCall(file)] else [])
            && s.result.changed == Changed(ReadFileIfExists(d, out).value, text)
  {
    var w := WriteFile(d, out, text);
    if removeSource {
      var u := Unlink(w.disk, file);
      assert u.outcome.Pass?;
    }
  }

  /**
   * A failed file leaves the file system as it found it, except when only the
   * deletion of its source failed: then the output has been written. Either way its
   * source is still there.
   */
  lemma ConvertFailure(options: ProcessingOptions, commandInfo: Option<string>, d: Disk, file: string)
    requires !Convert(options, commandInfo, d, file).result.converted
    ensures var s := Convert(options, commandInfo, d, file);
            && (s.disk == d || (options.removeSource && file in d.files && |s.ops| == 4 && s.ops[3] == UnlinkCall(file)
                                && s.disk.files == d.files[PathCalculator.GetOutputPath(file, AsOptions(options)) := Document(options, commandInfo, d.files[file])]
                                && s.disk.dirs == d.dirs))
            && (file in d.files ==> file in s.disk.files)
  {
  }

  /**
   * The calls of one file's conversion: a read of the source first, never a
   * directory creation, and a delete only as the fourth call, when `removeSource` is
   * set, right after a write to a path that accepts writes.
   */
  lemma DeleteOnlyAfterWrite(options: ProcessingOptions, commandInfo: Option<string>, d: Disk, file: string)
    ensures var s := Convert(options, commandInfo, d, file);
            && 1 <= |s.ops| <= 4 && s.ops[0] == ReadCall(file)
            && NoDirectoryCalls(s.ops)
            && (forall k :: 0 <= k < |s.ops| && s.ops[k].UnlinkCall? ==>
                  k == 3 && options.removeSource && s.ops[2].WriteCall? && !Locked(d, s.ops[2].path))
  {
    var out := PathCalculator.GetOutputPath(file, AsOptions(options));
    ConvertStages(options, commandInfo, d, file);
    if ReadFile(d, file).Ok? {
      var text := Document(options, commandInfo, d.files[file]);
      var st := Store(options.removeSource, d, file, out, text);
      StoreCalls(options.removeSource, d, file, out, text);
      CallsAfterRead(ReadCall(file), st.ops, options.removeSource, d);
    }
  }

  /** A conversion reads its source, then runs the store stage if the read succeeded. */
  lemma ConvertStages(options: ProcessingOptions, commandInfo: Option<string>, d: Disk, file: string)
    ensures var s := Convert(options, commandInfo, d, file);
            var out := PathCalculator.GetOutputPath(file, AsOptions(options));
            if ReadFile(d, file).Err? then s == StepOut(d, [ReadCall(file)], Failure(file, ReadFile(d, file).error))
            else
              var st := Store(options.removeSource, d, file, out, Document(options, commandInfo, d.files[file]));
              s == StepOut(st.disk, [ReadCall(file)] + st.ops, st.result)
  {
  }

  /** The store stage's calls: a read of the output first, and a delete only third, right after an allowed write. */
  lemma StoreCalls(removeSource: bool, d: Disk, file: string, out: string, text: string)
    ensures var ops := Store(removeSource, d, file, out, text).ops;
            && 1 <= |ops| <= 3 && ops[0] == ReadCall(out) && NoDirectoryCalls(ops)
            && (forall k :: 0 <= k < |ops| && ops[k].UnlinkCall? ==>
                  k == 2 && removeSource && ops[1].WriteCall? && !Locked(d, ops[1].path))
  {
    var ops := Store(removeSource, d, file, out, text).ops;
    if ReadFileIfExists(d, out).Err? {
      assert ops == [ReadCall(out)];
    } else if WriteFile(d, out, text).outcome.Fail? || !removeSource {
      assert ops == [ReadCall(out), WriteCall(out, text)];
    } else {
      assert ops == [ReadCall(out), WriteCall(out, text), UnlinkCall(file)];
    }
  }

  /** The store stage's guarantees, moved one place along behind the read of the source. */
  lemma CallsAfterRead(first: Op, ops: seq<Op>, removeSource: bool, d: Disk)
    requires !first.MkdirCall? && !first.UnlinkCall?
    requires 1 <= |ops| <= 3 && NoDirectoryCalls(ops)
    requires forall k :: 0 <= k < |ops| && ops[k].UnlinkCall? ==>
               k == 2 && removeSource && ops[1].WriteCall? && !Locked(d, ops[1].path)
    ensures var all := [first] + ops;
            && 1 <= |all| <= 4 && all[0] == first && NoDirectoryCalls(all)
            && (forall k :: 0 <= k < |all| && all[k].UnlinkCall? ==>
                  k == 3 && removeSource && all[2].WriteCall? && !Locked(d, all[2].path))
  {
    var all := [first] + ops;
    forall k | 1 <= k < |all|
      ensures all[k] == ops[k - 1]
    {
    }
  }

  /** No step of processFiles creates a directory. */
  lemma StepsCreateNoDirectory(options: ProcessingOptions, commandInfo: Option<string>)
    ensures forall d: Disk, f: string :: NoDirectoryCalls(Step(options, commandInfo)(d, f).ops)
  {
    forall d: Disk, f: string
      ensures NoDirectoryCalls(Step(options, commandInfo)(d, f).ops)
    {
      DeleteOnlyAfterWrite(options, commandInfo, d, f);
    }
  }

  /**
   * With files to convert, a non-empty outDir is created by the very first call and
   * by no other; an absent or empty one is never created.
   */
  lemma DirectoryCreatedOnceFirst(d: Disk, pattern: string, files: seq<string>, options: ProcessingOptions,
                                  raw: Option<DomainOptions.CLIOptions>)
    requires files != []
    ensures var ops := Process(d, pattern, files, options, raw).ops;
            && (Truthy(options.outDir) ==> |ops| >= 1 && ops[0] == MkdirCall(options.outDir.value)
                                           && forall k :: 1 <= k < |ops| ==> !ops[k].MkdirCall?)
            && (!Truthy(options.outDir) ==> NoDirectoryCalls(ops))
  {
    var info := CommandInfoFor(pattern, options, raw);
    StepsCreateNoDirectory(options, info);
    SequentialBatch.DirectoryCreatedOnceFirst(d, pattern, files, options.outDir, Step(options, info));
  }

  /** Entry i of a report is file i's own conversion, from the file system the files before it left. */
  lemma EntryOfFile(d: Disk, pattern: string, files: seq<string>, options: ProcessingOptions,
                    raw: Option<DomainOptions.CLIOptions>, i: nat)
    requires Process(d, pattern, files, options, raw).result.Ok? && i < |files|
    ensures var rs := Process(d, pattern, files, options, raw).result.value;
            && rs[i] == Convert(options, CommandInfoFor(pattern, options, raw), StartOf(d, pattern, files, options, raw, i), files[i]).result
            && rs[i].mermaidFile == files[i]
  {
    BatchEntry(d, pattern, files, options.outDir, Step(options, CommandInfoFor(pattern, options, raw)), i);
  }

  /**
   * A converted entry names the output path, and right after its step that path
   * holds the document rendered from the source with the batch's one command line
   * (unless the source was that same path and was then deleted).
   */
  lemma SuccessWritesDocument(d: Disk, pattern: string, files: seq<string>, options: ProcessingOptions,
                              raw: Option<DomainOptions.CLIOptions>, i: nat)
    requires Process(d, pattern, files, options, raw).result.Ok? && i < |files|
    requires Process(d, pattern, files, options, raw).result.value[i].converted
    ensures var before := StartOf(d, pattern, files, options, raw, i);
            var after := StartOf(d, pattern, files, options, raw, i + 1);
            var out := Process(d, pattern, files, options, raw).result.value[i].markdownFile;
            && files[i] in before.files
            && out == PathCalculator.GetOutputPath(files[i], AsOptions(options))
            && (!(options.removeSource && out == files[i]) ==>
                  out in after.files
                  && after.files[out] == Document(options, CommandInfoFor(pattern, options, raw), before.files[files[i]]))
  {
    var info := CommandInfoFor(pattern, options, raw);
    BatchEntry(d, pattern, files, options.outDir, Step(options, info), i);
    ConvertSuccess(options, info, StartOf(d, pattern, files, options, raw, i), files[i]);
  }

  /**
   * Without `removeSource`, a file that fails changes nothing, so it affects no
   * other entry: the batch without it reports the same entries for the others.
   */
  lemma FailureIsolated(d: Disk, pattern: string, files: seq<string>, options: ProcessingOptions,
                        raw: Option<DomainOptions.CLIOptions>, j: nat)
    requires Process(d, pattern, files, options, raw).result.Ok? && j < |files| && |files| > 1
    requires !Process(d, pattern, files, options, raw).result.value[j].converted
    requires !options.removeSource
    ensures var rs := Process(d, pattern, files, options, raw).result.value;
            Process(d, pattern, files[..j] + files[j + 1..], options, raw).result == Ok(rs[..j] + rs[j + 1..])
  {
    var info := CommandInfoFor(pattern, options, raw);
    BatchEntry(d, pattern, files, options.outDir, Step(options, info), j);
    ConvertFailure(options, info, StartOf(d, pattern, files, options, raw, j), files[j]);
    BatchIsolation(d, pattern, files, options.outDir, Step(options, info), j);
  }
}
