/**
 * The older command runner, src/presentation/command-executor.ts: pick the glob
 * pattern, merge the command line over the loaded config, refuse an empty match,
 * create the output directory and convert every matched file with convertFile,
 * reporting one entry per file.
 */
module CommandExecutor {
  import opened Wrappers
  import opened FileSystemAdapter
  import opened SequentialBatch
  import CliOptions
  import Config
  import MermaidFileProcessor

  /** One file's entry in the report. */
  datatype ProcessResult = ProcessResult(file: string, success: bool, error: Option<IoError>)

  /** The per-file step: convertFile, with what it threw caught into the entry. */
  function Step(options: CliOptions.Options): (Disk, string) -> StepOut<ProcessResult>
  {
    (d: Disk, file: string) =>
      var s := MermaidFileProcessor.Convert(options, d, file);
      StepOut(s.disk, s.ops, ProcessResult(file, s.result.Pass?, if s.result.Fail? then Some(s.result.error) else None))
  }

  /** The whole run of processFiles over the matched `files`. */
  function ProcessAll(d: Disk, pattern: string, files: seq<string>, options: CliOptions.Options): BatchOut<ProcessResult>
  {
    Batch(d, pattern, files, options.outDir, Step(options))
  }

  /** processFiles, with `files` what the glob matched. */
  method ProcessFiles(fs: FileSystem, globPattern: string, files: seq<string>, options: CliOptions.Options)
    returns (r: Result<seq<ProcessResult>, BatchError>)
    modifies fs
    ensures var b := ProcessAll(old(fs.State()), globPattern, files, options);
            r == b.result && fs.State() == b.disk && fs.log == old(fs.log) + b.ops
  {
    if |files| == 0 {
      return Err(NoFilesFound(globPattern));
    }
    if Truthy(options.outDir) {
      var made := fs.CreateDirectory(options.outDir.value);
      if made.Fail? {
        return Err(DirectoryFailed(made.error));
      }
    }
    ghost var start := fs.State();
    ghost var startLog := fs.log;
    ghost var step := Step(options);
    var results: seq<ProcessResult> := [];
    var i := 0;
    while i < |files|
      invariant 0 <= i <= |files|
      invariant fs.State() == Run(start, files[..i], step).disk
      invariant fs.log == startLog + Run(start, files[..i], step).ops
      invariant results == Run(start, files[..i], step).results
    {
      ghost var t := Run(start, files[..i], step);
      RunExtend(start, files, i, step);
      var outcome := MermaidFileProcessor.ConvertFile(fs, files[i], options);
      AppendAssoc(startLog, t.ops, step(t.disk, files[i]).ops);
      var entry := ProcessResult(files[i], outcome.Pass?, if outcome.Fail? then Some(outcome.error) else None);
      results := results + [entry];
      i := i + 1;
    }
    assert files[..i] == files;
    AppendAssoc(old(fs.log), PrepareOps(options.outDir), Run(start, files, step).ops);
    r := Ok(results);
  }

  /**
   * runCommand up to the report: `config` is what loadConfig returned and `glob` the
   * file search; the pattern is the command line's glob when it is non-empty
   * (`cliOptions.glob || globPattern`), else the positional pattern, and the options
   * are the command line merged over the config.
   */
  method RunCommand(fs: FileSystem, globPattern: string, cliOptions: CliOptions.CLIOptions,
                    config: CliOptions.ConfigOptions, glob: string -> seq<string>)
    returns (r: Result<seq<ProcessResult>, BatchError>)
    modifies fs
    ensures var pattern := if Truthy(cliOptions.glob) then cliOptions.glob.value else globPattern;
            var b := ProcessAll(old(fs.State()), pattern, glob(pattern), Config.MergeOptions(cliOptions, config));
            r == b.result && fs.State() == b.disk && fs.log == old(fs.log) + b.ops
  {
    var options := Config.MergeOptions(cliOptions, config);
    var pattern := if Truthy(cliOptions.glob) then cliOptions.glob.value else globPattern;
    r := ProcessFiles(fs, pattern, glob(pattern), options);
  }

  /** The directory is created once, before any file, and only when outDir is non-empty. */
  lemma DirectoryCreatedOnceFirst(d: Disk, pattern: string, files: seq<string>, options: CliOptions.Options)
    requires files != []
    ensures var ops := ProcessAll(d, pattern, files, options).ops;
            && (Truthy(options.outDir) ==> |ops| >= 1 && ops[0] == MkdirCall(options.outDir.value)
                                           && forall k :: 1 <= k < |ops| ==> !ops[k].MkdirCall?)
            && (!Truthy(options.outDir) ==> NoDirectoryCalls(ops))
  {
    forall dd: Disk, f: string
      ensures NoDirectoryCalls(Step(options)(dd, f).ops)
    {
      MermaidFileProcessor.DeleteOnlyAfterWrite(options, dd, f);
    }
    SequentialBatch.DirectoryCreatedOnceFirst(d, pattern, files, options.outDir, Step(options));
  }

  /** Entry i names file i and says whether file i's own convertFile succeeded, carrying the error when it did not. */
  lemma EntryOfFile(d: Disk, pattern: string, files: seq<string>, options: CliOptions.Options, i: nat)
    requires ProcessAll(d, pattern, files, options).result.Ok? && i < |files|
    ensures var e := ProcessAll(d, pattern, files, options).result.value[i];
            var o := MermaidFileProcessor.Convert(options, Before(d, files, options.outDir, Step(options), i), files[i]).result;
            && e.file == files[i]
            && (e.success <==> o.Pass?)
            && (!e.success ==> e.error == Some(o.error))
  {
    BatchEntry(d, pattern, files, options.outDir, Step(options), i);
  }

  /**
   * With `keepSource`, a file whose convertFile throws changes nothing, so the
   * others' entries are what they would be without it.
   */
  lemma FailureIsolated(d: Disk, pattern: string, files: seq<string>, options: CliOptions.Options, j: nat)
    requires ProcessAll(d, pattern, files, options).result.Ok? && j < |files| && |files| > 1
    requires !ProcessAll(d, pattern, files, options).result.value[j].success
    requires options.keepSource
    ensures var rs := ProcessAll(d, pattern, files, options).result.value;
            ProcessAll(d, pattern, files[..j] + files[j + 1..], options).result == Ok(rs[..j] + rs[j + 1..])
  {
    BatchEntry(d, pattern, files, options.outDir, Step(options), j);
    MermaidFileProcessor.ConvertFailure(options, Before(d, files, options.outDir, Step(options), j), files[j]);
    BatchIsolation(d, pattern, files, options.outDir, Step(options), j);
  }
}
