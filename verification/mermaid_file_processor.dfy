/**
 * The older single-file step, src/application/mermaid-file-processor.ts: read the
 * source, build the document without a command block, write it to the output path,
 * and delete the source unless `keepSource` is set. It reads the options of
 * src/domain/cli-options.ts.
 */
module MermaidFileProcessor {
  import opened Wrappers
  import opened FileSystemAdapter
  import opened SequentialBatch
  import opened PosixPath
  import CliOptions
  import MermaidFormatter
  import PathCalculator
  import Converter

  /**
   * getOutputPath: `outDir || dirname(input)` joined with the input's stem plus the
   * extension, the same calculation as PathCalculator.OutputPath.
   */
  function GetOutputPath(inputPath: string, options: CliOptions.Options): (r: string)
    ensures !Truthy(options.outDir) && Normalised(inputPath)
            ==> r == inputPath[..|inputPath| - |Extname(inputPath)|] + options.extension
    ensures Truthy(options.outDir) && PathCalculator.PlainDirectory(options.outDir.value)
            ==> r == options.outDir.value + "/" + Stem(inputPath) + options.extension
  {
    PathCalculator.OutputPath(inputPath, options.outDir, options.extension)
  }

  /** The document written for a source holding `content`. */
  function Document(options: CliOptions.Options, content: string): string
  {
    MermaidFormatter.Markdown(options.header, options.footer, None, content)
  }

  /**
   * convertFile: the file system it leaves, the calls it makes, and whether it
   * threw. The source is read first, and it is still there afterwards exactly when
   * it was there before and either the conversion threw or `keepSource` is set.
   */
  function Convert(options: CliOptions.Options, d: Disk, file: string): (s: StepOut<Outcome<IoError>>)
    ensures |s.ops| >= 1 && s.ops[0] == ReadCall(file)
    ensures file in s.disk.files <==> file in d.files && (s.result.Fail? || options.keepSource)
  {
    var read := ReadFile(d, file);
    if read.Err? then StepOut(d, [ReadCall(file)], Fail(read.error))
    else
      var text := Document(options, read.value);
      var out := GetOutputPath(file, options);
      var w := WriteFile(d, out, text);
      if w.outcome.Fail? then StepOut(d, [ReadCall(file), WriteCall(out, text)], w.outcome)
      else if options.keepSource then StepOut(w.disk, [ReadCall(file), WriteCall(out, text)], Pass)
      else
        var u := Unlink(w.disk, file);
        StepOut(u.disk, [ReadCall(file), WriteCall(out, text), UnlinkCall(file)], u.outcome)
  }

  /** convertFile */
  method ConvertFile(fs: FileSystem, filePath: string, options: CliOptions.Options) returns (o: Outcome<IoError>)
    modifies fs
    ensures var s := Convert(options, old(fs.State()), filePath);
            o == s.result && fs.State() == s.disk && fs.log == old(fs.log) + s.ops
  {
    ghost var d := fs.State();
    var content := fs.ReadTextFile(filePath);
    if content.Err? {
      return Fail(content.error);
    }
    var outputContent := Converter.BuildMarkdownContent(content.value, options);
    var outputPath := GetOutputPath(filePath, options);
    assert outputContent == Document(options, d.files[filePath]);
    o := fs.WriteTextFile(outputPath, outputContent);
    ghost var w := WriteFile(d, outputPath, outputContent);
    assert fs.State() == w.disk && o == w.outcome;
    ghost var calls := [ReadCall(filePath), WriteCall(outputPath, outputContent)];
    assert fs.log == old(fs.log) + calls;
    if o.Fail? {
      return;
    }
    if !options.keepSource {
      o := fs.DeleteFile(filePath);
      assert fs.log == old(fs.log) + (calls + [UnlinkCall(filePath)]);
    }
  }

  /** A source that cannot be read throws before anything is written or deleted. */
  lemma ReadFailureTouchesNothing(options: CliOptions.Options, d: Disk, file: string)
    requires ReadFile(d, file).Err?
    ensures var s := Convert(options, d, file);
            s.disk == d && s.ops == [ReadCall(file)] && s.result == Fail(ReadFile(d, file).error)
  {
  }

  /**
   * A file converts exactly when its source can be read, its output path can be
   * written and, unless `keepSource` is set, its source can be deleted.
   */
  lemma SuccessIffEveryCallSucceeds(options: CliOptions.Options, d: Disk, file: string)
    ensures var out := GetOutputPath(file, options);
            Convert(options, d, file).result.Pass?
            <==> file in d.files && file !in d.denied && !Locked(d, out) && (!options.keepSource ==> !Locked(d, file))
  {
  }

  /**
   * A converted file: the output path holds the document built from the source, the
   * source is gone unless `keepSource` is set, and the calls were read, write, then
   * the delete.
   */
  lemma ConvertSuccess(options: CliOptions.Options, d: Disk, file: string)
    requires Convert(options, d, file).result.Pass?
    ensures file in d.files
    ensures var s := Convert(options, d, file);
            var out := GetOutputPath(file, options);
            var text := Document(options, d.files[file]);
            && s.disk.files == (if options.keepSource then d.files[out := text] else d.files[out := text] - {file})
            && s.disk.dirs == d.dirs
            && s.ops == [ReadCall(file), WriteCall(out, text)] + (if options.keepSource then [] else [UnlinkCall(file)])
  {
    var w := WriteFile(d, GetOutputPath(file, options), Document(options, d.files[file]));
    assert w.outcome.Pass?;
    if !options.keepSource {
      assert Unlink(w.disk, file).outcome.Pass?;
    }
  }

  /** A failed conversion changes nothing unless only the delete failed, and never removes the source. */
  lemma ConvertFailure(options: CliOptions.Options, d: Disk, file: string)
    requires Convert(options, d, file).result.Fail?
    ensures var s := Convert(options, d, file);
            && (s.disk == d || (!options.keepSource && |s.ops| == 3 && s.ops[2] == UnlinkCall(file)))
            && (file in d.files ==> file in s.disk.files)
  {
  }

  /** The calls of one conversion: a delete only as the third call, without `keepSource`, after a write that succeeded. */
  lemma DeleteOnlyAfterWrite(options: CliOptions.Options, d: Disk, file: string)
    ensures var s := Convert(options, d, file);
            && 1 <= |s.ops| <= 3 && s.ops[0] == ReadCall(file)
            && NoDirectoryCalls(s.ops)
            && (forall k :: 0 <= k < |s.ops| && s.ops[k].UnlinkCall? ==>
                  k == 2 && !options.keepSource && s.ops[1].WriteCall? && !Locked(d, s.ops[1].path))
  {
    var s := Convert(options, d, file);
    var read := ReadFile(d, file);
    if read.Ok? {
      var out := GetOutputPath(file, options);
      var text := Document(options, read.value);
      if WriteFile(d, out, text).outcome.Fail? || options.keepSource {
        assert s.ops == [ReadCall(file), WriteCall(out, text)];
      } else {
        assert s.ops == [ReadCall(file), WriteCall(out, text), UnlinkCall(file)];
      }
    }
    ReadWriteDeleteCalls(s.ops, file, options.keepSource, d);
  }
}
