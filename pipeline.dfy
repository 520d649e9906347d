/**
 * The conversion pipeline: the four job-level steps the workflow engine
 * calls (analyze, convert, compile, test), the per-file variants of the same
 * stages, and finalizeJob.
 *
 * Each job-level step is a method on the job repository, proved against a
 * transition function on job records (`AnalyzeSpec`, `ConvertSpec`, ...);
 * the lemmas at the end state the pipeline's promises about those
 * functions. What the analyzer, converter, builder and test runner return
 * (or the exception they throw) is an input.
 */
module Pipeline {
  import opened Wrappers
  import opened Strings
  import opened Jobs
  import CAnalyzer

  /** What a step throws instead of returning its summary. */
  datatype StepError =
    | JobNotFound(jobId: string)     // IllegalArgumentException from findByJobId(...).orElseThrow
    | JobCancelled                   // RuntimeException: the job was cancelled
    | StepFailed(message: string)    // RuntimeException wrapping the stage's exception
    | IllegalState(message: string)  // a per-file stage run before its prerequisite

  datatype AnalyzeCounts = AnalyzeCounts(functionCount: nat, structCount: nat, sqlCount: nat)
  datatype ConvertOutput = ConvertOutput(generatedFiles: nat, outputPath: string)

  /** The two entries of the build result map the pipeline reads. */
  datatype BuildOutcome = BuildOutcome(success: bool, errors: seq<string>)

  /** The success entry of the test result map and the map's printed form. */
  datatype TestOutcome = TestOutcome(success: bool, text: string)

  /** The message of the exception `Paths.get(null)` raises for a job without an output path. */
  const NullPathMessage := "NullPointerException"

  const OutputRoot := "/tmp/c2java/output/"

  // ---------------------------------------------------------------------------
  // Log lines (paraphrased; their exact wording is not part of the model's claims)
  // ---------------------------------------------------------------------------

  const AnalyzeStarted := "Starting file analysis..."
  const ConvertStarted := "Starting code conversion..."
  const CompileStarted := "Starting compilation..."
  const TestStarted := "Starting tests..."
  const CompileSucceeded := "Compilation succeeded."
  const AllTestsPassed := "All tests passed."
  const SomeTestsFailed := "Some tests failed."

  function ConvertingFiles(n: nat): string { "Converting " + NatToString(n) + " files to Java..." }
  function GeneratedFiles(n: nat): string { NatToString(n) + " Java files generated." }
  function CompileErrorCount(n: nat): string { "Compilation errors: " + NatToString(n) }
  function PartialFailure(completed: nat, failed: nat): string
  {
    "Some files failed: " + NatToString(completed) + " succeeded, " + NatToString(failed) + " failed"
  }
  function AllConverted(completed: nat): string { "Conversion complete: " + NatToString(completed) + " files succeeded" }

  // ---------------------------------------------------------------------------
  // Analysis totals
  // ---------------------------------------------------------------------------

  function SumFunctions(files: seq<CAnalyzer.CFileStructure>): nat
  {
    if files == [] then 0 else SumFunctions(files[..|files| - 1]) + |files[|files| - 1].functions|
  }

  function SumStructs(files: seq<CAnalyzer.CFileStructure>): nat
  {
    if files == [] then 0 else SumStructs(files[..|files| - 1]) + |files[|files| - 1].structs|
  }

  function SumSql(files: seq<CAnalyzer.CFileStructure>): nat
  {
    if files == [] then 0 else SumSql(files[..|files| - 1]) + |files[|files| - 1].sqlQueries|
  }

  /** The three totals of analyzeStep. */
  function Totals(files: seq<CAnalyzer.CFileStructure>): AnalyzeCounts
  {
    AnalyzeCounts(SumFunctions(files), SumStructs(files), SumSql(files))
  }

  /** The totals over two batches of files are the sums of their totals. */
  lemma {:induction false} TotalsAppend(a: seq<CAnalyzer.CFileStructure>, b: seq<CAnalyzer.CFileStructure>)
    ensures SumFunctions(a + b) == SumFunctions(a) + SumFunctions(b)
    ensures SumStructs(a + b) == SumStructs(a) + SumStructs(b)
    ensures SumSql(a + b) == SumSql(a) + SumSql(b)
    decreases |b|
  {
    if b == [] {
      assert a + b == a;
    } else {
      var b' := b[..|b| - 1];
      assert (a + b)[..|a + b| - 1] == a + b';
      assert (a + b)[|a + b| - 1] == b[|b| - 1];
      TotalsAppend(a, b');
    }
  }

  /** The per-file loop of analyzeStep: three running totals. */
  method TallyAnalysis(files: seq<CAnalyzer.CFileStructure>) returns (counts: AnalyzeCounts)
    ensures counts.functionCount == SumFunctions(files)
    ensures counts.structCount == SumStructs(files)
    ensures counts.sqlCount == SumSql(files)
  {
    var functionCount, structCount, sqlCount := 0, 0, 0;
    for i := 0 to |files|
      invariant functionCount == SumFunctions(files[..i])
      invariant structCount == SumStructs(files[..i])
      invariant sqlCount == SumSql(files[..i])
    {
      assert files[..i + 1][..i] == files[..i];
      functionCount := functionCount + |files[i].functions|;
      structCount := structCount + |files[i].structs|;
      sqlCount := sqlCount + |files[i].sqlQueries|;
    }
    assert files[..|files|] == files;
    counts := AnalyzeCounts(functionCount, structCount, sqlCount);
  }

  // ---------------------------------------------------------------------------
  // Job-level steps as transitions on job records
  // ---------------------------------------------------------------------------

  /** The catch block of analyzeStep and convertStep: log and mark FAILED unless the job in hand is CANCELLED. */
  function FailUnlessCancelled(j: JobRecord, prefix: string, msg: string): (r: JobRecord)
    ensures j.status != CANCELLED ==> r.status == FAILED && r.errorMessage == Some(prefix + msg)
    ensures j.status == CANCELLED ==> r == j
  {
    if j.status != CANCELLED then j.Logged(prefix + msg).MarkedFailed(prefix + msg) else j
  }

  function AnalyzeSpec(j: JobRecord, analysis: Result<seq<CAnalyzer.CFileStructure>, string>)
    : (Result<AnalyzeCounts, StepError>, JobRecord)
  {
    if j.status == CANCELLED then (Err(JobCancelled), j)
    else
      var started := j.(status := ANALYZING).AtProgress("ANALYZE", 10).Logged(AnalyzeStarted);
      match analysis
      case Err(m) => (Err(StepFailed(m)), FailUnlessCancelled(started, "Analysis failed: ", m))
      case Ok(files) =>
        var c := Totals(files);
        (Ok(c), started.(functionCount := c.functionCount, structCount := c.structCount, sqlCount := c.sqlCount)
                       .AtProgress("ANALYZE", 25))
  }

  /**
   * convertStep. `load` is the number of source files found (or the I/O
   * exception), `cancelledMeanwhile` what the re-read of the job reports,
   * `converted` the number of generated files (or the converter's
   * exception), `written` the exception writing them raised, if any.
   */
  function ConvertSpec(j: JobRecord, load: Result<nat, string>, cancelledMeanwhile: bool,
                       converted: Result<nat, string>, written: Option<string>)
    : (Result<ConvertOutput, StepError>, JobRecord)
  {
    if j.status == CANCELLED then (Err(JobCancelled), j)
    else
      var started := j.(status := CONVERTING).AtProgress("CONVERT", 30).Logged(ConvertStarted);
      match load
      case Err(m) => (Err(StepFailed(m)), FailUnlessCancelled(started, "Conversion failed: ", m))
      case Ok(n) =>
        var listed := started.Logged(ConvertingFiles(n));
        if cancelledMeanwhile then
          (Err(JobCancelled), FailUnlessCancelled(listed.(status := CANCELLED), "Conversion failed: ", "cancelled"))
        else
          match converted
          case Err(m) => (Err(StepFailed(m)), FailUnlessCancelled(listed, "Conversion failed: ", m))
          case Ok(g) =>
            var generated := listed.Logged(GeneratedFiles(g));
            if written.Some? then
              (Err(StepFailed(written.value)), FailUnlessCancelled(generated, "Conversion failed: ", written.value))
            else
              var out := OutputRoot + j.jobId;
              (Ok(ConvertOutput(g, out)),
               generated.(generatedFileCount := g, outputPath := Some(out)).AtProgress("CONVERT", 60))
  }

  function CompileSpec(j: JobRecord, build: Result<BuildOutcome, string>)
    : (Result<BuildOutcome, StepError>, JobRecord)
  {
    if j.status == CANCELLED then (Err(JobCancelled), j)
    else
      var started := j.(status := COMPILING).AtProgress("COMPILE", 65).Logged(CompileStarted);
      var outcome := if started.outputPath.None? then Err(NullPathMessage) else build;
      match outcome
      case Err(m) =>
        (Err(StepFailed(m)),
         started.Logged("Compilation failed: " + m).(compileSuccess := Some(false), compileErrors := Some(m)))
      case Ok(b) =>
        var recorded := started.(compileSuccess := Some(b.success));
        var reported :=
          if b.success then recorded.Logged(CompileSucceeded)
          else recorded.(compileErrors := Some(Join(b.errors, "\n"))).Logged(CompileErrorCount(|b.errors|));
        (Ok(b), reported.AtProgress("COMPILE", 80))
  }

  function TestSpec(j: JobRecord, test: Result<TestOutcome, string>)
    : (Result<TestOutcome, StepError>, JobRecord)
  {
    if j.status == CANCELLED then (Err(JobCancelled), j)
    else
      var started := j.(status := TESTING).AtProgress("TEST", 85).Logged(TestStarted);
      var outcome := if started.outputPath.None? then Err(NullPathMessage) else test;
      match outcome
      case Err(m) =>
        (Err(StepFailed(m)),
         started.Logged("Testing failed: " + m).(testSuccess := Some(false), testResults := Some("Testing failed: " + m)))
      case Ok(t) =>
        var recorded := started.(testSuccess := Some(t.success), testResults := Some(t.text));
        var reported := recorded.Logged(if t.success then AllTestsPassed else SomeTestsFailed);
        (Ok(t), reported.AtProgress("TEST", 95))
  }

  // ---------------------------------------------------------------------------
  // Job-level steps on the repository
  // ---------------------------------------------------------------------------

  /** The opening lines of every step: setStatus, updateProgress and the log line that announces it. */
  method Begin(job: ConversionJob, s: JobStatus, stage: string, p: int, msg: string)
    modifies job
    ensures job.Record() == old(job.Record()).(status := s).AtProgress(stage, p).Logged(msg)
  {
    job.SetStatus(s);
    job.UpdateProgress(stage, p);
    job.AppendLog(msg);
  }

  /** The catch block of analyzeStep and convertStep, on the job in hand. */
  method FailUnlessCancelledJob(job: ConversionJob, prefix: string, msg: string)
    modifies job
    ensures job.Record() == FailUnlessCancelled(old(job.Record()), prefix, msg)
  {
    if job.status != CANCELLED {
      job.AppendLog(prefix + msg);
      job.MarkFailed(prefix + msg);
    }
  }

  method AnalyzeStep(repo: JobRepository, jobId: string, analysis: Result<seq<CAnalyzer.CFileStructure>, string>)
    returns (r: Result<AnalyzeCounts, StepError>)
    modifies JobFrame(repo, jobId)
    ensures jobId !in repo.jobs ==> r == Err(JobNotFound(jobId))
    ensures jobId in repo.jobs ==>
      (r, repo.jobs[jobId].Record()) == AnalyzeSpec(old(repo.jobs[jobId].Record()), analysis)
  {
    if jobId !in repo.jobs {
      return Err(JobNotFound(jobId));
    }
    r := AnalyzeJob(repo.jobs[jobId], analysis);
  }

  /** analyzeStep once the job has been found. */
  method AnalyzeJob(job: ConversionJob, analysis: Result<seq<CAnalyzer.CFileStructure>, string>)
    returns (r: Result<AnalyzeCounts, StepError>)
    modifies job
    ensures (r, job.Record()) == AnalyzeSpec(old(job.Record()), analysis)
  {
    if job.status == CANCELLED {
      return Err(JobCancelled);
    }
    Begin(job, ANALYZING, "ANALYZE", 10, AnalyzeStarted);
    match analysis {
      case Err(m) =>
        FailUnlessCancelledJob(job, "Analysis failed: ", m);
        r := Err(StepFailed(m));
      case Ok(files) =>
        var counts := TallyAnalysis(files);
        RecordCounts(job, counts);
        r := Ok(counts);
    }
  }

  /** The three count setters of analyzeStep, then progress 25. */
  method RecordCounts(job: ConversionJob, c: AnalyzeCounts)
    modifies job
    ensures job.Record() == old(job.Record()).(functionCount := c.functionCount, structCount := c.structCount,
                                               sqlCount := c.sqlCount).AtProgress("ANALYZE", 25)
  {
    job.functionCount := c.functionCount;
    job.structCount := c.structCount;
    job.sqlCount := c.sqlCount;
    job.UpdateProgress("ANALYZE", 25);
  }

  method ConvertStep(repo: JobRepository, jobId: string, load: Result<nat, string>, cancelledMeanwhile: bool,
                     converted: Result<nat, string>, written: Option<string>)
    returns (r: Result<ConvertOutput, StepError>)
    modifies JobFrame(repo, jobId)
    ensures jobId !in repo.jobs ==> r == Err(JobNotFound(jobId))
    ensures jobId in repo.jobs ==>
      (r, repo.jobs[jobId].Record()) == ConvertSpec(old(repo.jobs[jobId].Record()), load, cancelledMeanwhile, converted, written)
  {
    if jobId !in repo.jobs {
      return Err(JobNotFound(jobId));
    }
    r := ConvertJob(repo.jobs[jobId], load, cancelledMeanwhile, converted, written);
  }

  /** convertStep once the job has been found. */
  method ConvertJob(job: ConversionJob, load: Result<nat, string>, cancelledMeanwhile: bool,
                    converted: Result<nat, string>, written: Option<string>)
    returns (r: Result<ConvertOutput, StepError>)
    modifies job
    ensures (r, job.Record()) == ConvertSpec(old(job.Record()), load, cancelledMeanwhile, converted, written)
  {
    if job.status == CANCELLED {
      return Err(JobCancelled);
    }
    Begin(job, CONVERTING, "CONVERT", 30, ConvertStarted);
    match load {
      case Err(m) =>
        FailUnlessCancelledJob(job, "Conversion failed: ", m);
        r := Err(StepFailed(m));
      case Ok(n) =>
        job.AppendLog(ConvertingFiles(n));
        if cancelledMeanwhile {
          // the re-read finds the job CANCELLED; the catch block then leaves it alone
          job.SetStatus(CANCELLED);
          FailUnlessCancelledJob(job, "Conversion failed: ", "cancelled");
          r := Err(JobCancelled);
        } else {
          r := ConvertAndWrite(job, converted, written);
        }
    }
  }

  /** The rest of convertStep's try block: conversion, writing the files, the output fields. */
  method ConvertAndWrite(job: ConversionJob, converted: Result<nat, string>, written: Option<string>)
    returns (r: Result<ConvertOutput, StepError>)
    modifies job
    ensures match converted
      case Err(m) =>
        r == Err(StepFailed(m)) && job.Record() == FailUnlessCancelled(old(job.Record()), "Conversion failed: ", m)
      case Ok(g) =>
        var generated := old(job.Record()).Logged(GeneratedFiles(g));
        if written.Some? then
          r == Err(StepFailed(written.value))
          && job.Record() == FailUnlessCancelled(generated, "Conversion failed: ", written.value)
        else
          var out := OutputRoot + job.jobId;
          r == Ok(ConvertOutput(g, out))
          && job.Record() == generated.(generatedFileCount := g, outputPath := Some(out)).AtProgress("CONVERT", 60)
  {
    match converted {
      case Err(m) =>
        FailUnlessCancelledJob(job, "Conversion failed: ", m);
        r := Err(StepFailed(m));
      case Ok(g) =>
        job.AppendLog(GeneratedFiles(g));
        if written.Some? {
          FailUnlessCancelledJob(job, "Conversion failed: ", written.value);
          r := Err(StepFailed(written.value));
        } else {
          var out := OutputRoot + job.jobId;
          RecordOutput(job, g, out);
          r := Ok(ConvertOutput(g, out));
        }
    }
  }

  /** setGeneratedFileCount, setOutputPath, then progress 60. */
  method RecordOutput(job: ConversionJob, g: nat, out: string)
    modifies job
    ensures job.Record() == old(job.Record()).(generatedFileCount := g, outputPath := Some(out)).AtProgress("CONVERT", 60)
  {
    job.generatedFileCount := g;
    job.outputPath := Some(out);
    job.UpdateProgress("CONVERT", 60);
  }

  method CompileStep(repo: JobRepository, jobId: string, build: Result<BuildOutcome, string>)
    returns (r: Result<BuildOutcome, StepError>)
    modifies JobFrame(repo, jobId)
    ensures jobId !in repo.jobs ==> r == Err(JobNotFound(jobId))
    ensures jobId in repo.jobs ==>
      (r, repo.jobs[jobId].Record()) == CompileSpec(old(repo.jobs[jobId].Record()), build)
  {
    if jobId !in repo.jobs {
      return Err(JobNotFound(jobId));
    }
    r := CompileJob(repo.jobs[jobId], build);
  }

  /** compileStep once the job has been found. */
  method CompileJob(job: ConversionJob, build: Result<BuildOutcome, string>)
    returns (r: Result<BuildOutcome, StepError>)
    modifies job
    ensures (r, job.Record()) == CompileSpec(old(job.Record()), build)
  {
    if job.status == CANCELLED {
      return Err(JobCancelled);
    }
    Begin(job, COMPILING, "COMPILE", 65, CompileStarted);
    var outcome := if job.outputPath.None? then Err(NullPathMessage) else build;
    match outcome {
      case Err(m) =>
        // the job in hand is COMPILING, so the catch block's CANCELLED test always passes
        RecordCompileFailure(job, m);
        r := Err(StepFailed(m));
      case Ok(b) =>
        RecordBuild(job, b);
        r := Ok(b);
    }
  }

  /** The catch block of compileStep. */
  method RecordCompileFailure(job: ConversionJob, m: string)
    modifies job
    ensures job.Record() == old(job.Record()).Logged("Compilation failed: " + m)
                              .(compileSuccess := Some(false), compileErrors := Some(m))
  {
    job.AppendLog("Compilation failed: " + m);
    job.compileSuccess := Some(false);
    job.compileErrors := Some(m);
  }

  /** What compileStep records about a build that ran. */
  method RecordBuild(job: ConversionJob, b: BuildOutcome)
    modifies job
    ensures var recorded := old(job.Record()).(compileSuccess := Some(b.success));
      job.Record() == (if b.success then recorded.Logged(CompileSucceeded)
                       else recorded.(compileErrors := Some(Join(b.errors, "\n"))).Logged(CompileErrorCount(|b.errors|)))
                      .AtProgress("COMPILE", 80)
  {
    ghost var recorded := old(job.Record()).(compileSuccess := Some(b.success));
    job.compileSuccess := Some(b.success);
    assert job.Record() == recorded;
    if b.success {
      job.AppendLog(CompileSucceeded);
    } else {
      var errors := Join(b.errors, "\n");
      job.compileErrors := Some(errors);
      assert job.Record() == recorded.(compileErrors := Some(errors));
      job.AppendLog(CompileErrorCount(|b.errors|));
    }
    job.UpdateProgress("COMPILE", 80);
  }

  method TestStep(repo: JobRepository, jobId: string, test: Result<TestOutcome, string>)
    returns (r: Result<TestOutcome, StepError>)
    modifies JobFrame(repo, jobId)
    ensures jobId !in repo.jobs ==> r == Err(JobNotFound(jobId))
    ensures jobId in repo.jobs ==>
      (r, repo.jobs[jobId].Record()) == TestSpec(old(repo.jobs[jobId].Record()), test)
  {
    if jobId !in repo.jobs {
      return Err(JobNotFound(jobId));
    }
    r := TestJob(repo.jobs[jobId], test);
  }

  /** testStep once the job has been found. */
  method TestJob(job: ConversionJob, test: Result<TestOutcome, string>)
    returns (r: Result<TestOutcome, StepError>)
    modifies job
    ensures (r, job.Record()) == TestSpec(old(job.Record()), test)
  {
    if job.status == CANCELLED {
      return Err(JobCancelled);
    }
    Begin(job, TESTING, "TEST", 85, TestStarted);
    var outcome := if job.outputPath.None? then Err(NullPathMessage) else test;
    match outcome {
      case Err(m) =>
        // the job in hand is TESTING, so the catch block's CANCELLED test always passes
        RecordTestFailure(job, m);
        r := Err(StepFailed(m));
      case Ok(t) =>
        RecordTests(job, t);
        r := Ok(t);
    }
  }

  /** The catch block of testStep. */
  method RecordTestFailure(job: ConversionJob, m: string)
    modifies job
    ensures job.Record() == old(job.Record()).Logged("Testing failed: " + m)
                              .(testSuccess := Some(false), testResults := Some("Testing failed: " + m))
  {
    job.AppendLog("Testing failed: " + m);
    job.testSuccess := Some(false);
    job.testResults := Some("Testing failed: " + m);
  }

  /** What testStep records about a test run. */
  method RecordTests(job: ConversionJob, t: TestOutcome)
    modifies job
    ensures job.Record() == old(job.Record()).(testSuccess := Some(t.success), testResults := Some(t.text))
                              .Logged(if t.success then AllTestsPassed else SomeTestsFailed).AtProgress("TEST", 95)
  {
    job.testSuccess := Some(t.success);
    job.testResults := Some(t.text);
    assert job.Record() == old(job.Record()).(testSuccess := Some(t.success), testResults := Some(t.text));
    job.AppendLog(if t.success then AllTestsPassed else SomeTestsFailed);
    job.UpdateProgress("TEST", 95);
  }

  // ---------------------------------------------------------------------------
  // What the job-level steps promise
  // ---------------------------------------------------------------------------

  /** A CANCELLED job is refused by every step before anything is written. */
  lemma CancelledJobUntouched(j: JobRecord, analysis: Result<seq<CAnalyzer.CFileStructure>, string>,
                              load: Result<nat, string>, cancelledMeanwhile: bool, converted: Result<nat, string>,
                              written: Option<string>, build: Result<BuildOutcome, string>, test: Result<TestOutcome, string>)
    requires j.status == CANCELLED
    ensures AnalyzeSpec(j, analysis) == (Err(JobCancelled), j)
    ensures ConvertSpec(j, load, cancelledMeanwhile, converted, written) == (Err(JobCancelled), j)
    ensures CompileSpec(j, build) == (Err(JobCancelled), j)
    ensures TestSpec(j, test) == (Err(JobCancelled), j)
  {
  }

  /** Any other status is accepted: the step always moves the job to its own stage status first. */
  lemma StepsEnterFromAnyStatus(j: JobRecord, analysis: Result<seq<CAnalyzer.CFileStructure>, string>,
                                build: Result<BuildOutcome, string>, test: Result<TestOutcome, string>)
    requires j.status != CANCELLED
    ensures AnalyzeSpec(j, analysis).0 != Err(JobCancelled)
    ensures AnalyzeSpec(j, analysis).1.status in {ANALYZING, FAILED}
    ensures CompileSpec(j, build).1.status == COMPILING
    ensures TestSpec(j, test).1.status == TESTING
  {
  }

  /** analyzeStep: success records the totals and reaches 25; failure marks the job FAILED. */
  lemma AnalyzeOutcome(j: JobRecord, analysis: Result<seq<CAnalyzer.CFileStructure>, string>)
    requires j.status != CANCELLED
    ensures var (r, after) := AnalyzeSpec(j, analysis);
      && (analysis.Ok? ==>
            r == Ok(Totals(analysis.value)) && after.status == ANALYZING && after.progress == 25
            && after.functionCount == SumFunctions(analysis.value)
            && after.structCount == SumStructs(analysis.value)
            && after.sqlCount == SumSql(analysis.value))
      && (analysis.Err? ==>
            r == Err(StepFailed(analysis.error)) && after.status == FAILED && after.progress == 10
            && after.errorMessage == Some("Analysis failed: " + analysis.error))
  {
  }

  /**
   * convertStep: a cancellation seen on the re-read survives (no FAILED),
   * every other exception marks the job FAILED, and success sets the output
   * directory and reaches 60.
   */
  lemma ConvertOutcome(j: JobRecord, load: Result<nat, string>, cancelledMeanwhile: bool,
                       converted: Result<nat, string>, written: Option<string>)
    requires j.status != CANCELLED
    ensures var (r, after) := ConvertSpec(j, load, cancelledMeanwhile, converted, written);
      && (load.Ok? && cancelledMeanwhile ==> r == Err(JobCancelled) && after.status == CANCELLED)
      && (r.Err? && r != Err(JobCancelled) ==> after.status == FAILED)
      && (r.Ok? <==> load.Ok? && !cancelledMeanwhile && converted.Ok? && written.None?)
      && (r.Ok? ==> after.status == CONVERTING && after.progress == 60
                    && after.outputPath == Some(OutputRoot + j.jobId)
                    && after.generatedFileCount == converted.value)
  {
  }

  /** compileStep and testStep never mark the job FAILED; a normal return reaches 80 or 95 even when the build or tests failed. */
  lemma CompileAndTestNeverFail(j: JobRecord, build: Result<BuildOutcome, string>, test: Result<TestOutcome, string>)
    requires j.status != CANCELLED
    ensures var (r, after) := CompileSpec(j, build);
      && after.status == COMPILING && after.errorMessage == j.errorMessage
      && (r.Ok? ==> after.progress == 80 && after.compileSuccess == Some(r.value.success))
      && (r.Err? ==> after.progress == 65 && after.compileSuccess == Some(false))
    ensures var (r, after) := TestSpec(j, test);
      && after.status == TESTING && after.errorMessage == j.errorMessage
      && (r.Ok? ==> after.progress == 95 && after.testSuccess == Some(r.value.success))
      && (r.Err? ==> after.progress == 85 && after.testSuccess == Some(false))
  {
  }

  /**
   * Progress checkpoints follow pipeline order: a full successful run
   * passes through 10, 25, 30, 60, 65, 80, 85 and 95, each step's first
   * checkpoint above the previous step's last, and ends TESTING at 95.
   */
  lemma ProgressCheckpoints(j: JobRecord, files: seq<CAnalyzer.CFileStructure>, n: nat, g: nat,
                            b: BuildOutcome, t: TestOutcome)
    requires j.status != CANCELLED
    ensures var a := AnalyzeSpec(j, Ok(files));
      var c := ConvertSpec(a.1, Ok(n), false, Ok(g), None);
      var k := CompileSpec(c.1, Ok(b));
      var e := TestSpec(k.1, Ok(t));
      && a.0.Ok? && c.0.Ok? && k.0.Ok? && e.0.Ok?
      && a.1.progress == 25 && c.1.progress == 60 && k.1.progress == 80 && e.1.progress == 95
      && 10 < 25 < 30 < 60 < 65 < 80 < 85 < 95
      && e.1.status == TESTING && e.1.outputPath == Some(OutputRoot + j.jobId)
      && e.1.functionCount == SumFunctions(files) && e.1.compileSuccess == Some(b.success)
      && e.1.testSuccess == Some(t.success)
  {
    var a := AnalyzeSpec(j, Ok(files));
    AnalyzeOk(j, files);
    var c := ConvertSpec(a.1, Ok(n), false, Ok(g), None);
    ConvertOk(a.1, n, g);
    var k := CompileSpec(c.1, Ok(b));
    CompileOk(c.1, b);
    TestOk(k.1, t);
  }

  lemma AnalyzeOk(j: JobRecord, files: seq<CAnalyzer.CFileStructure>)
    requires j.status != CANCELLED
    ensures var a := AnalyzeSpec(j, Ok(files));
      && a.0.Ok? && a.1.status == ANALYZING && a.1.progress == 25
      && a.1.jobId == j.jobId && a.1.functionCount == SumFunctions(files)
  {
  }

  lemma ConvertOk(j: JobRecord, n: nat, g: nat)
    requires j.status != CANCELLED
    ensures var c := ConvertSpec(j, Ok(n), false, Ok(g), None);
      && c.0.Ok? && c.1.status == CONVERTING && c.1.progress == 60
      && c.1.outputPath == Some(OutputRoot + j.jobId) && c.1.functionCount == j.functionCount
  {
  }

  lemma CompileOk(j: JobRecord, b: BuildOutcome)
    requires j.status != CANCELLED && j.outputPath.Some?
    ensures var k := CompileSpec(j, Ok(b));
      && k.0.Ok? && k.1.status == COMPILING && k.1.progress == 80 && k.1.outputPath == j.outputPath
      && k.1.functionCount == j.functionCount && k.1.compileSuccess == Some(b.success)
  {
  }

  lemma TestOk(j: JobRecord, t: TestOutcome)
    requires j.status != CANCELLED && j.outputPath.Some?
    ensures var e := TestSpec(j, Ok(t));
      && e.0.Ok? && e.1.status == TESTING && e.1.progress == 95 && e.1.outputPath == j.outputPath
      && e.1.functionCount == j.functionCount && e.1.compileSuccess == j.compileSuccess
      && e.1.testSuccess == Some(t.success)
  {
  }

  // ---------------------------------------------------------------------------
  // finalizeJob
  // ---------------------------------------------------------------------------

  function CountStatus(sts: seq<FileStatus>, s: FileStatus): (n: nat)
    ensures n <= |sts|
  {
    if sts == [] then 0 else CountStatus(sts[..|sts| - 1], s) + (if sts[|sts| - 1] == s then 1 else 0)
  }

  /** Two different statuses never count the same record twice. */
  lemma {:induction false} CountStatusDisjoint(sts: seq<FileStatus>, s: FileStatus, t: FileStatus)
    requires s != t
    ensures CountStatus(sts, s) + CountStatus(sts, t) <= |sts|
  {
    if sts != [] {
      CountStatusDisjoint(sts[..|sts| - 1], s, t);
    }
  }

  /** A status occurs exactly when its count is positive. */
  lemma {:induction false} CountStatusPositive(sts: seq<FileStatus>, s: FileStatus)
    ensures CountStatus(sts, s) > 0 <==> s in sts
  {
    if sts != [] {
      CountStatusPositive(sts[..|sts| - 1], s);
      assert sts == sts[..|sts| - 1] + [sts[|sts| - 1]];
    }
  }

  datatype FinalizeSummary = FinalizeSummary(completedFiles: nat, failedFiles: nat, totalFiles: nat)

  function FinalizeSpec(j: JobRecord, sts: seq<FileStatus>): (FinalizeSummary, JobRecord)
  {
    var completed := CountStatus(sts, FileCompleted);
    var failed := CountStatus(sts, FileFailed);
    var after :=
      if failed > 0 then j.(status := FAILED).Logged(PartialFailure(completed, failed))
      else j.(status := COMPLETED).AtProgress("COMPLETE", 100).Logged(AllConverted(completed));
    (FinalizeSummary(completed, failed, |sts|), after)
  }

  /**
   * finalizeJob: FAILED exactly when some file result is FAILED, otherwise
   * COMPLETED at 100 (also with no file results at all, and whatever the
   * job's status was, CANCELLED included); the counts never exceed the total.
   */
  lemma FinalizeOutcome(j: JobRecord, sts: seq<FileStatus>)
    ensures var (sum, after) := FinalizeSpec(j, sts);
      && (after.status == FAILED <==> FileFailed in sts)
      && (FileFailed !in sts ==> after.status == COMPLETED && after.progress == 100)
      && sum.completedFiles + sum.failedFiles <= sum.totalFiles == |sts|
  {
    CountStatusPositive(sts, FileFailed);
    CountStatusDisjoint(sts, FileCompleted, FileFailed);
  }

  /** The statuses of one job's file results, in creation order. */
  function JobFileStatuses(rs: seq<FileConversionResult>, jobId: string): seq<FileStatus>
    reads rs
  {
    if rs == [] then []
    else JobFileStatuses(rs[..|rs| - 1], jobId)
         + (if rs[|rs| - 1].jobId == jobId then [rs[|rs| - 1].status] else [])
  }

  method FinalizeJob(repo: JobRepository, files: FileResultRepository, jobId: string)
    returns (r: Result<FinalizeSummary, StepError>)
    modifies JobFrame(repo, jobId)
    ensures jobId !in repo.jobs ==> r == Err(JobNotFound(jobId))
    ensures jobId in repo.jobs ==>
      var (sum, after) := FinalizeSpec(old(repo.jobs[jobId].Record()), old(JobFileStatuses(files.results, jobId)));
      r == Ok(sum) && repo.jobs[jobId].Record() == after
  {
    if jobId !in repo.jobs {
      return Err(JobNotFound(jobId));
    }
    var job := repo.jobs[jobId];
    var sts := JobFileStatuses(files.results, jobId);
    var completed := CountStatus(sts, FileCompleted);
    var failed := CountStatus(sts, FileFailed);
    if failed > 0 {
      job.SetStatus(FAILED);
      job.AppendLog(PartialFailure(completed, failed));
    } else {
      job.SetStatus(COMPLETED);
      job.UpdateProgress("COMPLETE", 100);
      job.AppendLog(AllConverted(completed));
    }
    r := Ok(FinalizeSummary(completed, failed, |sts|));
  }
}
