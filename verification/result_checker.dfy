/**
 * The failure rule of src/domain/services/result-checker.ts: a batch fails when any
 * one of its files failed.
 */
module ResultChecker {
  import opened FileSystemAdapter
  import opened SequentialBatch
  import DomainOptions
  import BatchService

  type FileConversionResult = BatchService.FileConversionResult

  /** hasFailures: `results.some(r => !r.success)` */
  function HasFailures(results: seq<FileConversionResult>): (r: bool)
    ensures r <==> exists i :: 0 <= i < |results| && !results[i].success
  {
    if results == [] then false
    else !results[0].success || HasFailures(results[1..])
  }

  /** The order of the results does not matter: any rearrangement fails exactly when the original does. */
  lemma PermutationInvariant(a: seq<FileConversionResult>, b: seq<FileConversionResult>)
    requires multiset(a) == multiset(b)
    ensures HasFailures(a) == HasFailures(b)
  {
    if HasFailures(a) {
      var i :| 0 <= i < |a| && !a[i].success;
      assert a[i] in multiset(b);
    }
    if HasFailures(b) {
      var i :| 0 <= i < |b| && !b[i].success;
      assert b[i] in multiset(a);
    }
  }

  /** One more failed entry makes the batch fail. */
  lemma AppendFailure(results: seq<FileConversionResult>, e: FileConversionResult)
    requires !e.success
    ensures HasFailures(results + [e])
  {
    assert (results + [e])[|results|] == e;
  }

  /** One more successful entry changes nothing. */
  lemma AppendSuccess(results: seq<FileConversionResult>, e: FileConversionResult)
    requires e.success
    ensures HasFailures(results + [e]) == HasFailures(results)
  {
    if HasFailures(results) {
      var i :| 0 <= i < |results| && !results[i].success;
      assert (results + [e])[i] == results[i];
    }
  }

  /** A report of convertFiles has failures exactly when some file's own conversion threw. */
  lemma BatchFailsIffSomeFileFails(d: Disk, pattern: string, files: seq<string>, options: DomainOptions.Options)
    requires BatchService.ConvertAll(d, pattern, files, options).result.Ok?
    ensures HasFailures(BatchService.ConvertAll(d, pattern, files, options).result.value)
            <==> exists i :: 0 <= i < |files|
                   && BatchService.ConvertSingle(options, Before(d, files, options.outDir, BatchService.Step(options), i), files[i]).result.Fail?
  {
    var rs := BatchService.ConvertAll(d, pattern, files, options).result.value;
    forall i | 0 <= i < |files|
      ensures !rs[i].success <==> BatchService.ConvertSingle(options, Before(d, files, options.outDir, BatchService.Step(options), i), files[i]).result.Fail?
    {
      BatchService.EntryOfFile(d, pattern, files, options, i);
    }
  }
}
