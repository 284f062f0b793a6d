/**
 * The `keepSource` batch engine, BatchProcessorService of
 * src/infrastructure/services/batch-processor.service.ts, together with the one
 * method of src/infrastructure/services/file-storage.service.ts it relies on for
 * the output directory. A file is read, formatted without a command line, written
 * next to or under outDir, and its source deleted unless `keepSource` is set.
 */
module BatchService {
  import opened Wrappers
  import opened FileSystemAdapter
  import opened SequentialBatch
  import opened DomainOptions
  import MermaidFormatter
  import PathCalculator

  /** One file's entry in the report. */
  datatype FileConversionResult = FileConversionResult(filePath: string, success: bool, error: Option<IoError>)

  /** The document written for a source holding `content`: no command line is passed, so no bash block. */
  function Document(options: Options, content: string): (text: string)
    ensures text == MermaidFormatter.Markdown(options.header, options.footer, None, content)
  {
    MermaidFormatter.Markdown(options.header, options.footer, MermaidFormatter.CommandBlock(options, None), content)
  }

  /**
   * convertSingleFile: the file system it leaves, the calls it makes, and whether it
   * threw. The source is read first, and it is still there afterwards exactly when
   * it was there before and either the conversion threw or `keepSource` is set.
   */
  function ConvertSingle(options: Options, d: Disk, file: string): (s: StepOut<Outcome<IoError>>)
    ensures |s.ops| >= 1 && s.ops[0] == ReadCall(file)
    ensures file in s.disk.files <==> file in d.files && (s.result.Fail? || options.keepSource)
  {
    var read := ReadFile(d, file);
    if read.Err? then StepOut(d, [ReadCall(file)], Fail(read.error))
    else
      var text := Document(options, read.value);
      var out := PathCalculator.GetOutputPath(file, options);
      var w := WriteFile(d, out, text);
      if w.outcome.Fail? then StepOut(d, [ReadCall(file), WriteCall(out, text)], w.outcome)
      else if options.keepSource then StepOut(w.disk, [ReadCall(file), WriteCall(out, text)], Pass)
      else
        var u := Unlink(w.disk, file);
        StepOut(u.disk, [ReadCall(file), WriteCall(out, text), UnlinkCall(file)], u.outcome)
  }

  /** The entry of `file` once its conversion returned or threw. */
  function Entry(file: string, o: Outcome<IoError>): FileConversionResult
  {
    if o.Pass? then FileConversionResult(file, true, None) else FileConversionResult(file, false, Some(o.error))
  }

  /** The per-file step of convertFiles: the conversion, with what it threw caught into the entry. */
  function Step(options: Options): (Disk, string) -> StepOut<FileConversionResult>
  {
    (d: Disk, file: string) =>
      var s := ConvertSingle(options, d, file);
      StepOut(s.disk, s.ops, Entry(file, s.result))
  }

  /** The whole run of convertFiles over the matched `files`. */
  function ConvertAll(d: Disk, pattern: string, files: seq<string>, options: Options): BatchOut<FileConversionResult>
  {
    Batch(d, pattern, files, options.outDir, Step(options))
  }

  /** ensureOutputDirectory: creates the directory only when it is given and not empty. */
  method EnsureOutputDirectory(storage: FileSystem, dirPath: Option<string>) returns (o: Outcome<IoError>)
    modifies storage
    ensures Effect(storage.State(), o) == Prepare(old(storage.State()), dirPath)
    ensures storage.log == old(storage.log) + PrepareOps(dirPath)
  {
    o := Pass;
    if Truthy(dirPath) {
      o := storage.CreateDirectory(dirPath.value);
    }
  }

  class BatchProcessorService {
    const storage: FileSystem

    constructor (storage: FileSystem)
      ensures this.storage == storage
    {
      this.storage := storage;
    }

    /** convertSingleFile */
    method ConvertSingleFile(filePath: string, options: Options) returns (o: Outcome<IoError>)
      modifies storage
      ensures var s := ConvertSingle(options, old(storage.State()), filePath);
              o == s.result && storage.State() == s.disk && storage.log == old(storage.log) + s.ops
    {
      ghost var d := storage.State();
      var content := storage.ReadTextFile(filePath);
      if content.Err? {
        return Fail(content.error);
      }
      var formattedContent := MermaidFormatter.FormatMermaidAsMarkdown(content.value, options, None);
      var outputPath := PathCalculator.GetOutputPath(filePath, options);
      assert formattedContent == Document(options, d.files[filePath]);
      o := storage.WriteTextFile(outputPath, formattedContent);
      ghost var w := WriteFile(d, outputPath, formattedContent);
      assert storage.State() == w.disk && o == w.outcome;
      ghost var calls := [ReadCall(filePath), WriteCall(outputPath, formattedContent)];
      assert storage.log == old(storage.log) + calls;
      if o.Fail? {
        return;
      }
      if !options.keepSource {
        o := storage.DeleteFile(filePath);
        assert storage.log == old(storage.log) + (calls + [UnlinkCall(filePath)]);
      }
    }

    /** convertFiles */
    method ConvertFiles(pattern: string, files: seq<string>, options: Options)
      returns (r: Result<seq<FileConversionResult>, BatchError>)
      modifies storage
      ensures var b := ConvertAll(old(storage.State()), pattern, files, options);
              r == b.result && storage.State() == b.disk && storage.log == old(storage.log) + b.ops
    {
      if |files| == 0 {
        return Err(NoFilesFound(pattern));
      }
      var made := EnsureOutputDirectory(storage, options.outDir);
      if made.Fail? {
        return Err(DirectoryFailed(made.error));
      }
      ghost var start := storage.State();
      ghost var startLog := storage.log;
      ghost var step := Step(options);
      var results: seq<FileConversionResult> := [];
      var i := 0;
      while i < |files|
        invariant 0 <= i <= |files|
        invariant storage.State() == Run(start, files[..i], step).disk
        invariant storage.log == startLog + Run(start, files[..i], step).ops
        invariant results == Run(start, files[..i], step).results
      {
        ghost var t := Run(start, files[..i], step);
        RunExtend(start, files, i, step);
        var outcome := ConvertSingleFile(files[i], options);
        AppendAssoc(startLog, t.ops, step(t.disk, files[i]).ops);
        results := results + [Entry(files[i], outcome)];
        i := i + 1;
      }
      assert files[..i] == files;
      AppendAssoc(old(storage.log), PrepareOps(options.outDir), Run(start, files, step).ops);
      r := Ok(results);
    }
  }

  /**
   * A file converts exactly when its source can be read, its output path can be
   * written and, unless `keepSource` is set, its source can be deleted.
   */
  lemma SuccessIffEveryCallSucceeds(options: Options, d: Disk, file: string)
    ensures var out := PathCalculator.GetOutputPath(file, options);
            ConvertSingle(options, d, file).result.Pass?
            <==> file in d.files && file !in d.denied && !Locked(d, out) && (!options.keepSource ==> !Locked(d, file))
  {
  }

  /**
   * A converted file: the output path holds the document, with no bash block, the
   * source is gone unless `keepSource` is set, and the calls were read, write, then
   * the delete.
   */
  lemma ConvertSuccess(options: Options, d: Disk, file: string)
    requires ConvertSingle(options, d, file).result.Pass?
    ensures file in d.files
    ensures var s := ConvertSingle(options, d, file);
            var out := PathCalculator.GetOutputPath(file, options);
            var text := MermaidFormatter.Markdown(options.header, options.footer, None, d.files[file]);
            && s.disk.files == (if options.keepSource then d.files[out := text] else d.files[out := text] - {file})
            && s.disk.dirs == d.dirs
            && s.ops == [ReadCall(file), WriteCall(out, text)] + (if options.keepSource then [] else [UnlinkCall(file)])
  {
    var w := WriteFile(d, PathCalculator.GetOutputPath(file, options), Document(options, d.files[file]));
    assert w.outcome.Pass?;
    if !options.keepSource {
      assert Unlink(w.disk, file).outcome.Pass?;
    }
  }

  /**
   * A failed file leaves the file system as it found it, except when only the
   * deletion of its source failed; the source is never deleted by a failed file.
   */
  lemma ConvertFailure(options: Options, d: Disk, file: string)
    requires ConvertSingle(options, d, file).result.Fail?
    ensures var s := ConvertSingle(options, d, file);
            && (s.disk == d || (!options.keepSource && |s.ops| == 3 && s.ops[2] == UnlinkCall(file)))
            && (file in d.files ==> file in s.disk.files)
  {
  }

  /** The calls of one conversion: a delete only as the third call, without `keepSource`, after a write that succeeded. */
  lemma DeleteOnlyAfterWrite(options: Options, d: Disk, file: string)
    ensures var s := ConvertSingle(options, d, file);
            && 1 <= |s.ops| <= 3 && s.ops[0] == ReadCall(file)
            && NoDirectoryCalls(s.ops)
            && (forall k :: 0 <= k < |s.ops| && s.ops[k].UnlinkCall? ==>
                  k == 2 && !options.keepSource && s.ops[1].WriteCall? && !Locked(d, s.ops[1].path))
  {
    var s := ConvertSingle(options, d, file);
    var read := ReadFile(d, file);
    if read.Ok? {
      var out := PathCalculator.GetOutputPath(file, options);
      var text := Document(options, read.value);
      if WriteFile(d, out, text).outcome.Fail? || options.keepSource {
        assert s.ops == [ReadCall(file), WriteCall(out, text)];
      } else {
        assert s.ops == [ReadCall(file), WriteCall(out, text), UnlinkCall(file)];
      }
    }
    ReadWriteDeleteCalls(s.ops, file, options.keepSource, d);
  }

  /** The directory is ensured once, before any file, and only when outDir is non-empty. */
  lemma DirectoryCreatedOnceFirst(d: Disk, pattern: string, files: seq<string>, options: Options)
    requires files != []
    ensures var ops := ConvertAll(d, pattern, files, options).ops;
            && (Truthy(options.outDir) ==> |ops| >= 1 && ops[0] == MkdirCall(options.outDir.value)
                                           && forall k :: 1 <= k < |ops| ==> !ops[k].MkdirCall?)
            && (!Truthy(options.outDir) ==> NoDirectoryCalls(ops))
  {
    forall dd: Disk, f: string
      ensures NoDirectoryCalls(Step(options)(dd, f).ops)
    {
      DeleteOnlyAfterWrite(options, dd, f);
    }
    SequentialBatch.DirectoryCreatedOnceFirst(d, pattern, files, options.outDir, Step(options));
  }

  /** Entry i names file i, and says whether file i's own conversion succeeded, carrying the error when it did not. */
  lemma EntryOfFile(d: Disk, pattern: string, files: seq<string>, options: Options, i: nat)
    requires ConvertAll(d, pattern, files, options).result.Ok? && i < |files|
    ensures var e := ConvertAll(d, pattern, files, options).result.value[i];
            var o := ConvertSingle(options, Before(d, files, options.outDir, Step(options), i), files[i]).result;
            && e.filePath == files[i]
            && (e.success <==> o.Pass?)
            && (!e.success ==> e.error == Some(o.error))
  {
    BatchEntry(d, pattern, files, options.outDir, Step(options), i);
  }

  /**
   * With `keepSource`, a file that fails changes nothing, so it affects no other
   * entry: the batch without it reports the same entries for the others.
   */
  lemma FailureIsolated(d: Disk, pattern: string, files: seq<string>, options: Options, j: nat)
    requires ConvertAll(d, pattern, files, options).result.Ok? && j < |files| && |files| > 1
    requires !ConvertAll(d, pattern, files, options).result.value[j].success
    requires options.keepSource
    ensures var rs := ConvertAll(d, pattern, files, options).result.value;
            ConvertAll(d, pattern, files[..j] + files[j + 1..], options).result == Ok(rs[..j] + rs[j + 1..])
  {
    BatchEntry(d, pattern, files, options.outDir, Step(options), j);
    ConvertFailure(options, Before(d, files, options.outDir, Step(options), j), files[j]);
    BatchIsolation(d, pattern, files, options.outDir, Step(options), j);
  }
}
