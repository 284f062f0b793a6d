/**
 * The skeleton the three batch engines share: refuse an empty list of matched
 * files (NoFilesFoundError, src/domain/models/errors.ts), create a non-empty output
 * directory, then run one step per file. The engines fan the steps out with
 * `Promise.allSettled`; here they run one after another, in list order, each
 * starting from the file system the previous one left. Every step catches its own
 * errors, so each file still gets exactly one result, at its own index.
 */
module SequentialBatch {
  import opened Wrappers
  import opened FileSystemAdapter

  /** What one file's step leaves behind: the file system, the calls it made, and its result entry. */
  datatype StepOut<R> = StepOut(disk: Disk, ops: seq<Op>, result: R)

  /** What a run over a list of files leaves behind. */
  datatype Trace<R> = Trace(disk: Disk, ops: seq<Op>, results: seq<R>)

  /** A trace followed by one more step. */
  function Then<R>(t: Trace<R>, s: StepOut<R>): Trace<R>
  {
    Trace(s.disk, t.ops + s.ops, t.results + [s.result])
  }

  /** The steps over `files`, one after another, starting from `d`. */
  function Run<R>(d: Disk, files: seq<string>, step: (Disk, string) -> StepOut<R>): (t: Trace<R>)
    ensures |t.results| == |files|
    decreases |files|
  {
    if files == [] then Trace(d, [], [])
    else
      var t := Run(d, files[..|files| - 1], step);
      Then(t, step(t.disk, files[|files| - 1]))
  }

  lemma AppendAssoc<T>(a: seq<T>, b: seq<T>, c: seq<T>)
    ensures a + b + c == a + (b + c)
  {
  }

  /** One more file extends the run by that file's step. */
  lemma RunExtend<R>(d: Disk, files: seq<string>, i: nat, step: (Disk, string) -> StepOut<R>)
    requires i < |files|
    ensures Run(d, files[..i + 1], step) == Then(Run(d, files[..i], step), step(Run(d, files[..i], step).disk, files[i]))
  {
    assert files[..i + 1][..i] == files[..i];
  }

  /** Running `a + b` is running `a`, then running `b` from where `a` left off. */
  lemma {:induction false} RunAppend<R>(d: Disk, a: seq<string>, b: seq<string>, step: (Disk, string) -> StepOut<R>)
    ensures Run(d, a + b, step).disk == Run(Run(d, a, step).disk, b, step).disk
    ensures Run(d, a + b, step).ops == Run(d, a, step).ops + Run(Run(d, a, step).disk, b, step).ops
    ensures Run(d, a + b, step).results == Run(d, a, step).results + Run(Run(d, a, step).disk, b, step).results
    decreases |b|
  {
    if b == [] {
      assert a + b == a;
    } else {
      var b' := b[..|b| - 1];
      assert (a + b)[..|a + b| - 1] == a + b';
      RunAppend(d, a, b', step);
    }
  }

  /** Entry i is file i's step, taken from the file system the files before it left. */
  lemma {:induction false} RunEntry<R>(d: Disk, files: seq<string>, i: nat, step: (Disk, string) -> StepOut<R>)
    requires i < |files|
    ensures Run(d, files, step).results[i] == step(Run(d, files[..i], step).disk, files[i]).result
    decreases |files|
  {
    if i < |files| - 1 {
      assert files[..|files| - 1][..i] == files[..i];
      RunEntry(d, files[..|files| - 1], i, step);
    } else {
      assert files[..|files| - 1] == files[..i];
    }
  }

  /**
   * A file whose step leaves the file system as it found it (a failure before any
   * change, say) does not affect any other file's entry: removing it from the list
   * removes its entry and nothing else.
   */
  lemma Isolation<R>(d: Disk, files: seq<string>, j: nat, step: (Disk, string) -> StepOut<R>)
    requires j < |files|
    requires step(Run(d, files[..j], step).disk, files[j]).disk == Run(d, files[..j], step).disk
    ensures var rs := Run(d, files, step).results;
            rs[..j] + rs[j + 1..] == Run(d, files[..j] + files[j + 1..], step).results
  {
    var before, rest := files[..j], files[j + 1..];
    RunExtend(d, files, j, step);
    RunAppend(d, files[..j + 1], rest, step);
    RunAppend(d, before, rest, step);
    assert files[..j + 1] + rest == files;
    var rs := Run(d, files, step).results;
    var head := Run(d, files[..j + 1], step).results;
    assert rs == head + Run(Run(d, before, step).disk, rest, step).results;
    assert head == Run(d, before, step).results + [step(Run(d, before, step).disk, files[j]).result];
    assert rs[..j] == Run(d, before, step).results;
    assert rs[j + 1..] == Run(Run(d, before, step).disk, rest, step).results;
  }

  /** The calls hold no directory creation. */
  predicate NoDirectoryCalls(ops: seq<Op>)
  {
    forall k :: 0 <= k < |ops| ==> !ops[k].MkdirCall?
  }

  /** Steps that never create a directory make a run that never does. */
  lemma {:induction false} RunCreatesNoDirectory<R>(d: Disk, files: seq<string>, step: (Disk, string) -> StepOut<R>)
    requires forall dd: Disk, f: string :: NoDirectoryCalls(step(dd, f).ops)
    ensures NoDirectoryCalls(Run(d, files, step).ops)
    decreases |files|
  {
    if files != [] {
      var t := Run(d, files[..|files| - 1], step);
      RunCreatesNoDirectory(d, files[..|files| - 1], step);
      var s := step(t.disk, files[|files| - 1]);
      assert NoDirectoryCalls(s.ops);
      var ops := t.ops + s.ops;
      forall k | 0 <= k < |ops|
        ensures !ops[k].MkdirCall?
      {
        if k >= |t.ops| {
          assert ops[k] == s.ops[k - |t.ops|];
        } else {
          assert ops[k] == t.ops[k];
        }
      }
    }
  }

  /**
   * The calls of a read-write-delete conversion: the read alone, the read and a
   * write, or those two followed by the delete of the source after a write to an
   * unlocked path. In each of them a delete can only come third.
   */
  lemma ReadWriteDeleteCalls(ops: seq<Op>, file: string, keepSource: bool, d: Disk)
    requires || ops == [ReadCall(file)]
             || (|ops| == 2 && ops[0] == ReadCall(file) && ops[1].WriteCall?)
             || (|ops| == 3 && ops[0] == ReadCall(file) && ops[1].WriteCall? && !Locked(d, ops[1].path)
                 && ops[2] == UnlinkCall(file) && !keepSource)
    ensures 1 <= |ops| <= 3 && ops[0] == ReadCall(file) && NoDirectoryCalls(ops)
    ensures forall k :: 0 <= k < |ops| && ops[k].UnlinkCall? ==>
              k == 2 && !keepSource && ops[1].WriteCall? && !Locked(d, ops[1].path)
  {
  }

  /** What ends a whole batch instead of producing a report. */
  datatype BatchError = NoFilesFound(pattern: string) | DirectoryFailed(error: IoError)

  const NO_FILES_PREFIX: string := "No files found matching pattern: "

  /**
   * The message the batch is rejected with: NoFilesFoundError's fixed opening
   * followed by the pattern, which can be read back from it, or the file system's
   * own message.
   */
  function BatchMessage(e: BatchError): (m: string)
    ensures e.NoFilesFound? ==> |m| >= |NO_FILES_PREFIX| && m[..|NO_FILES_PREFIX|] == NO_FILES_PREFIX
                                && m[|NO_FILES_PREFIX|..] == e.pattern
    ensures e.DirectoryFailed? ==> m == Message(e.error)
  {
    match e
    case NoFilesFound(pattern) => NO_FILES_PREFIX + pattern
    case DirectoryFailed(error) => Message(error)
  }

  /** Different patterns are refused with different messages. */
  lemma NoFilesMessageInjective(p: string, q: string)
    requires BatchMessage(NoFilesFound(p)) == BatchMessage(NoFilesFound(q))
    ensures p == q
  {
    assert BatchMessage(NoFilesFound(p))[|NO_FILES_PREFIX|..] == p;
  }

  /**
   * The directory step: `mkdir` of a non-empty outDir, nothing otherwise. It never
   * touches a file, and when it succeeds with an outDir that directory exists.
   */
  function Prepare(d: Disk, outDir: Option<string>): (r: Effect)
    ensures r.disk.files == d.files
    ensures !Truthy(outDir) ==> r == Effect(d, Pass)
    ensures Truthy(outDir) ==> (r.outcome.Pass? <==> !Locked(d, outDir.value))
    ensures Truthy(outDir) && r.outcome.Pass? ==> r.disk.dirs == d.dirs + {outDir.value}
    ensures r.outcome.Fail? ==> r.disk == d
  {
    if Truthy(outDir) then Mkdir(d, outDir.value) else Effect(d, Pass)
  }

  function PrepareOps(outDir: Option<string>): seq<Op>
  {
    if Truthy(outDir) then [MkdirCall(outDir.value)] else []
  }

  /** What a whole batch leaves behind: the file system, the calls made, and the report or the error. */
  datatype BatchOut<R> = BatchOut(disk: Disk, ops: seq<Op>, result: Result<seq<R>, BatchError>)

  /** A whole batch over the matched `files`. */
  function Batch<R>(d: Disk, pattern: string, files: seq<string>, outDir: Option<string>,
                    step: (Disk, string) -> StepOut<R>): (b: BatchOut<R>)
    ensures files == [] ==> b.result == Err(NoFilesFound(pattern)) && b.ops == [] && b.disk == d
    ensures b.result.Err? ==> forall k :: 0 <= k < |b.ops| ==> b.ops[k].MkdirCall?
    ensures b.result.Ok? ==> |b.result.value| == |files|
  {
    if files == [] then BatchOut(d, [], Err(NoFilesFound(pattern)))
    else
      var p := Prepare(d, outDir);
      if p.outcome.Fail? then BatchOut(p.disk, PrepareOps(outDir), Err(DirectoryFailed(p.outcome.error)))
      else
        var t := Run(p.disk, files, step);
        BatchOut(t.disk, PrepareOps(outDir) + t.ops, Ok(t.results))
  }

  /** The file system the step of file `i` starts from. */
  function Before<R>(d: Disk, files: seq<string>, outDir: Option<string>, step: (Disk, string) -> StepOut<R>, i: nat): Disk
    requires i <= |files|
  {
    Run(Prepare(d, outDir).disk, files[..i], step).disk
  }

  /**
   * With files to convert and steps that create no directory, a non-empty outDir is
   * created by the very first call and by no other; an absent or empty one never is.
   */
  lemma DirectoryCreatedOnceFirst<R>(d: Disk, pattern: string, files: seq<string>, outDir: Option<string>,
                                     step: (Disk, string) -> StepOut<R>)
    requires files != []
    requires forall dd: Disk, f: string :: NoDirectoryCalls(step(dd, f).ops)
    ensures var ops := Batch(d, pattern, files, outDir, step).ops;
            && (Truthy(outDir) ==> |ops| >= 1 && ops[0] == MkdirCall(outDir.value)
                                   && forall k :: 1 <= k < |ops| ==> !ops[k].MkdirCall?)
            && (!Truthy(outDir) ==> NoDirectoryCalls(ops))
  {
    var p := Prepare(d, outDir);
    if p.outcome.Pass? {
      var ops := Run(p.disk, files, step).ops;
      RunCreatesNoDirectory(p.disk, files, step);
      var all := Batch(d, pattern, files, outDir, step).ops;
      assert all == PrepareOps(outDir) + ops;
      forall k | |PrepareOps(outDir)| <= k < |all|
        ensures !all[k].MkdirCall?
      {
        assert all[k] == ops[k - |PrepareOps(outDir)|];
      }
    }
  }

  /**
   * Entry i of a report is file i's own step, taken from the file system the files
   * before it left; that step's file system is where file i + 1 starts.
   */
  lemma BatchEntry<R>(d: Disk, pattern: string, files: seq<string>, outDir: Option<string>,
                      step: (Disk, string) -> StepOut<R>, i: nat)
    requires Batch(d, pattern, files, outDir, step).result.Ok? && i < |files|
    ensures Batch(d, pattern, files, outDir, step).result.value[i] == step(Before(d, files, outDir, step, i), files[i]).result
    ensures Before(d, files, outDir, step, i + 1) == step(Before(d, files, outDir, step, i), files[i]).disk
  {
    RunEntry(Prepare(d, outDir).disk, files, i, step);
    RunExtend(Prepare(d, outDir).disk, files, i, step);
  }

  /**
   * A file whose step leaves the file system as it found it affects no other entry:
   * the batch without it reports the same entries for the others.
   */
  lemma BatchIsolation<R>(d: Disk, pattern: string, files: seq<string>, outDir: Option<string>,
                          step: (Disk, string) -> StepOut<R>, j: nat)
    requires Batch(d, pattern, files, outDir, step).result.Ok? && j < |files| && |files| > 1
    requires step(Before(d, files, outDir, step, j), files[j]).disk == Before(d, files, outDir, step, j)
    ensures var rs := Batch(d, pattern, files, outDir, step).result.value;
            Batch(d, pattern, files[..j] + files[j + 1..], outDir, step).result == Ok(rs[..j] + rs[j + 1..])
  {
    Isolation(Prepare(d, outDir).disk, files, j, step);
    assert |files[..j] + files[j + 1..]| == |files| - 1;
  }
}
