/**
 * CompileService: one compile attempt of a job's output project, the
 * record it saves and whether it hands the errors to the CLI for a fix.
 * Running gradle is an input: its exit code and captured streams, or the
 * exception thrown on the way.
 */
module Compile {
  import opened Wrappers
  import opened Strings
  import opened Seqs
  import opened Jobs

  /** conversion.compile.max-retries when the property is not set. */
  const DefaultMaxRetries := 3

  /** Where the fix is asked for, below the output path. */
  const SourceDir := "/src/main/java"

  /** A CompileResult row. */
  datatype CompileRecord = CompileRecord(
    jobId: string,
    attemptNumber: int,
    success: bool,
    errorOutput: Option<string>,
    warningCount: nat,
    errorCount: nat)

  /**
   * What running `gradle build -x test` gave: the process's exit code and
   * its stdout and stderr, or the message of the exception thrown before or
   * while running it (the project set-up's IOException, a missing binary).
   */
  datatype GradleRun = Exited(exitCode: int, output: string, errors: string) | Threw(message: string)

  /** The call to cliService.fixCompileErrors: the source directory and the compiler's errors. */
  datatype FixRequest = FixRequest(sourceDir: string, errors: string)

  // ---------------------------------------------------------------------------
  // countWarnings / countErrors
  // ---------------------------------------------------------------------------

  /** The line mentions the word, ignoring case. */
  predicate Mentions(line: string, word: string)
  {
    Contains(ToLower(line), word)
  }

  /** How many of the text's `split("\n")` lines mention the word. */
  function MentionCount(text: string, word: string): nat
  {
    |Filter(JavaSplit(text, '\n'), (line: string) => Mentions(line, word))|
  }

  /**
   * countWarnings (word "warning") and countErrors (word "error"): a loop
   * over the lines incrementing a counter.
   */
  method CountMentions(text: string, word: string) returns (count: nat)
    ensures count == MentionCount(text, word)
  {
    var lines := JavaSplit(text, '\n');
    var p := (line: string) => Mentions(line, word);
    count := 0;
    for i := 0 to |lines|
      invariant count == |Filter(lines[..i], p)|
    {
      assert lines[..i + 1] == lines[..i] + [lines[i]];
      FilterSnoc(lines[..i], lines[i], p);
      if Mentions(lines[i], word) {
        count := count + 1;
      }
    }
    assert lines[..|lines|] == lines;
  }

  /** The count is zero exactly when no line mentions the word, and never exceeds the line count. */
  lemma MentionCountRange(text: string, word: string)
    ensures MentionCount(text, word) <= |JavaSplit(text, '\n')|
    ensures var lines := JavaSplit(text, '\n');
      MentionCount(text, word) == 0 <==> forall i :: 0 <= i < |lines| ==> !Mentions(lines[i], word)
    ensures var lines := JavaSplit(text, '\n');
      MentionCount(text, word) == |lines| <==> forall i :: 0 <= i < |lines| ==> Mentions(lines[i], word)
  {
    FilterExtremes(JavaSplit(text, '\n'), (line: string) => Mentions(line, word));
  }

  // ---------------------------------------------------------------------------
  // compileAndTest
  // ---------------------------------------------------------------------------

  /**
   * One attempt with the process's exit code as given: the return value,
   * the saved record and the fix request. `attempts` is the job's
   * compileAttempts.
   */
  function AttemptOutcome(jobId: string, attempts: int, outputPath: string, run: GradleRun, maxRetries: int)
    : (bool, CompileRecord, Option<FixRequest>)
  {
    var attempt := attempts + 1;
    match run
    case Threw(m) => (false, CompileRecord(jobId, attempt, false, Some(m), 0, 1), None)
    case Exited(code, out, err) =>
      var success := code == 0;
      var rec := CompileRecord(jobId, attempt, success, if success then None else Some(err),
                               MentionCount(out, "warning"), MentionCount(err, "error"));
      (success, rec, if !success && attempts < maxRetries then Some(FixRequest(outputPath + SourceDir, err)) else None)
  }

  /**
   * The saved record is the job's next attempt; success holds exactly for an
   * exit code 0, and then there is no error output; a fix is requested
   * exactly for a failed build while attempts remain; an exception is
   * recorded as one error.
   */
  lemma AttemptOutcomeRules(jobId: string, attempts: int, outputPath: string, run: GradleRun, maxRetries: int)
    ensures var (success, rec, fix) := AttemptOutcome(jobId, attempts, outputPath, run, maxRetries);
      && rec.jobId == jobId && rec.attemptNumber == attempts + 1 && rec.success == success
      && (success <==> run.Exited? && run.exitCode == 0)
      && (rec.errorOutput.None? <==> success)
      && (fix.Some? <==> run.Exited? && !success && attempts < maxRetries)
      && (fix.Some? ==> fix.value.errors == run.errors && fix.value.sourceDir == outputPath + SourceDir)
      && (run.Threw? ==> rec.errorCount == 1 && rec.warningCount == 0 && rec.errorOutput == Some(run.message))
  {
  }

  /** With the default limit, only the first three attempts (compileAttempts 0, 1, 2) ask for a fix. */
  lemma DefaultRetryLimit(jobId: string, attempts: int, outputPath: string, run: GradleRun)
    ensures AttemptOutcome(jobId, attempts, outputPath, run, DefaultMaxRetries).2.Some? ==> attempts < 3
    ensures run.Exited? && run.exitCode != 0 && 0 <= attempts < 3 ==>
      AttemptOutcome(jobId, attempts, outputPath, run, DefaultMaxRetries).2.Some?
  {
  }

  /**
   * commons-exec's DefaultExecutor.execute with its default exit value 0: a
   * non-zero exit code is thrown as an ExecuteException.
   */
  function Execute(run: GradleRun): (r: GradleRun)
    ensures r.Exited? ==> r == run && r.exitCode == 0
  {
    match run
    case Exited(code, _, _) => if code == 0 then run else Threw(ExecuteFailure(code))
    case Threw(_) => run
  }

  /** ExecuteException's message for a failing exit code. */
  function ExecuteFailure(code: int): string
  {
    "Process exited with an error: " + IntToString(code) + " (Exit value: " + IntToString(code) + ")"
  }

  /** compileAndTest as written: the exit code reaches the code only through `execute`. */
  function AttemptAsWritten(jobId: string, attempts: int, outputPath: string, run: GradleRun, maxRetries: int)
    : (bool, CompileRecord, Option<FixRequest>)
  {
    AttemptOutcome(jobId, attempts, outputPath, Execute(run), maxRetries)
  }

  /**
   * As written, a failing build lands in the catch block: the fix is never
   * requested and the compiler's error text is never saved.
   */
  lemma AsWrittenNeverFixes(jobId: string, attempts: int, outputPath: string, run: GradleRun, maxRetries: int)
    ensures AttemptAsWritten(jobId, attempts, outputPath, run, maxRetries).2.None?
    ensures run.Exited? && run.exitCode != 0 ==>
      AttemptAsWritten(jobId, attempts, outputPath, run, maxRetries).1
        == CompileRecord(jobId, attempts + 1, false, Some(ExecuteFailure(run.exitCode)), 0, 1)
  {
    AttemptOutcomeRules(jobId, attempts, outputPath, Execute(run), maxRetries);
  }

  /** A first attempt whose build fails with one compiler error: the fix is lost as written. */
  lemma FailedBuildCounterexample()
    ensures var run := Exited(1, "", "A.java:3: error: ';' expected");
      && AttemptAsWritten("j", 0, "/out", run, DefaultMaxRetries).2 == None
      && AttemptOutcome("j", 0, "/out", run, DefaultMaxRetries).2
           == Some(FixRequest("/out" + SourceDir, "A.java:3: error: ';' expected"))
  {
    var run := Exited(1, "", "A.java:3: error: ';' expected");
    AsWrittenNeverFixes("j", 0, "/out", run, DefaultMaxRetries);
    AttemptOutcomeRules("j", 0, "/out", run, DefaultMaxRetries);
  }

  /** The CompileResult table. */
  class CompileResultRepository {
    var results: seq<CompileRecord>

    constructor ()
      ensures results == []
    {
      results := [];
    }

    method Save(r: CompileRecord)
      modifies this
      ensures results == old(results) + [r]
    {
      results := results + [r];
    }
  }

  /**
   * compileAndTest: saves exactly one record and returns whether the build
   * passed, with the fix request handed to the CLI, if any. The exit code
   * is taken as the process returned it (see AttemptAsWritten).
   */
  method CompileAndTest(job: ConversionJob, repo: CompileResultRepository, outputPath: string,
                        run: GradleRun, maxRetries: int)
    returns (success: bool, fix: Option<FixRequest>)
    modifies repo
    ensures var (s, rec, f) := AttemptOutcome(job.jobId, job.compileAttempts, outputPath, run, maxRetries);
      success == s && fix == f && repo.results == old(repo.results) + [rec]
  {
    var attemptNumber := job.compileAttempts + 1;
    match run {
      case Threw(m) =>
        repo.Save(CompileRecord(job.jobId, attemptNumber, false, Some(m), 0, 1));
        success, fix := false, None;
      case Exited(exitCode, output, errors) =>
        success := exitCode == 0;
        var warnings := CountMentions(output, "warning");
        var errorCount := CountMentions(errors, "error");
        repo.Save(CompileRecord(job.jobId, attemptNumber, success, if success then None else Some(errors),
                                warnings, errorCount));
        fix := None;
        if !success && job.compileAttempts < maxRetries {
          fix := Some(FixRequest(outputPath + SourceDir, errors));
        }
    }
  }
}
