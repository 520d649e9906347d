/**
 * The per-file half of ConversionPipelineService: analyzeFile, convertFile,
 * compileFile and testFile. Each finds the job, finds (or, for analysis,
 * creates) the file's result record, opens the stage on it and then runs the
 * stage. An exception inside a stage marks only that file's record FAILED
 * and is answered with a "failed" reply instead of being thrown; the job
 * record is never written (it is outside every frame below).
 *
 * As for the job-level steps, each stage is specified by a function on file
 * records (`AnalyzeFileSpec`, ...) and the methods are proved against it.
 */
module PipelineFiles {
  import opened Wrappers
  import opened Strings
  import opened Jobs
  import opened Pipeline
  import CAnalyzer

  /** The reply map: "status" is "success" exactly when `success`; `error` is the caught exception's message. */
  datatype FileReply = FileReply(success: bool, error: Option<string>)

  /** One generated file, in the order the converter's LinkedHashMap holds them. */
  datatype GeneratedFile = GeneratedFile(name: string, content: string)

  /** What the converter returns for one file: the generated files and the lines it wrote to the conversion log. */
  datatype ConverterOutput = ConverterOutput(files: seq<GeneratedFile>, logText: string)

  /**
   * What convertCFiles can return: its result always holds build.gradle,
   * settings.gradle and conversion-mapping.json, so it is never empty.
   */
  predicate FromConverter(converted: Result<ConverterOutput, string>)
  {
    converted.Ok? ==> converted.value.files != []
  }

  /** The header convertFile writes to its conversion log before the converter runs. */
  const ConversionLogHeader := "\nConversion log\n=======================================\n"

  const CompileDone := "Compilation finished"
  const TestsDone := "Tests finished - all stages succeeded!"
  const SomeFileTestsFailed := "Some tests failed"

  function AnalyzeFileStarted(fileName: string): string { "Analyzing file: " + fileName }
  function FileNotFound(fileName: string): string { "File not found: " + fileName }
  function Analyzed(functions: nat, structs: nat): string
  {
    "Analysis finished: " + NatToString(functions) + " functions, " + NatToString(structs) + " structs"
  }
  function ConvertFileStarted(fileName: string): string { "Converting to Java: " + fileName }
  function Converted(javaFile: string): string { "Conversion finished: " + javaFile }
  function CompileFileStarted(fileName: string): string { "Compiling: " + fileName }
  function CompileErrors(n: nat): string { "Compilation errors: " + NatToString(n) }
  function TestFileStarted(fileName: string): string { "Testing: " + fileName }

  function AnalyzeFirst(fileName: string): string { "File analysis must run first: " + fileName }
  function ConvertFirst(fileName: string): string { "File conversion must run first: " + fileName }
  function CompileFirst(fileName: string): string { "Compilation must succeed first: " + fileName }

  // ---------------------------------------------------------------------------
  // The stages as transitions on file records
  // ---------------------------------------------------------------------------

  /** Every catch block of the per-file stages: markFailed and a "failed" reply carrying the message. */
  function FailFile(rec: FileRecord, prefix: string, msg: string): (FileReply, FileRecord)
  {
    (FileReply(false, Some(msg)), rec.MarkedFailed(prefix + msg))
  }

  /** The record analyzeFile opens: the stored one reset to ANALYZE at 10, or a new one; then the start line. */
  function OpenForAnalysis(prior: Option<FileRecord>, jobId: string, fileName: string): FileRecord
  {
    (match prior
     case None => NewFileRecord(jobId, fileName)
     case Some(rec) => rec.Staged(AnalyzeStage, FileAnalyzing, 10))
    .Logged(AnalyzeFileStarted(fileName))
  }

  /**
   * The try block of analyzeFile and its catch, on the record as the stage opened it.
   * `found` is the result of walking the source tree (the first path whose
   * file name matches, or the walk's exception); `analysis` is the
   * analyzer's result or exception.
   */
  function AnalyzeOpened(begun: FileRecord, fileName: string, found: Result<Option<string>, string>,
                         analysis: Result<CAnalyzer.CFileStructure, string>): (FileReply, FileRecord)
  {
    match found
    case Err(m) => FailFile(begun, "Analysis failed: ", m)
    case Ok(None) => FailFile(begun, "Analysis failed: ", FileNotFound(fileName))
    case Ok(Some(path)) =>
      var located := begun.(sourceFilePath := Some(path));
      match analysis
      case Err(m) => FailFile(located, "Analysis failed: ", m)
      case Ok(s) =>
        var summary := AnalyzeSummary(|s.functions|, |s.structs|, s.lineCount);
        (FileReply(true, None),
         located.(analyzeResult := Some(summary)).Staged(AnalyzeStage, FileAnalyzing, 25)
                .Logged(Analyzed(|s.functions|, |s.structs|)))
  }

  /** analyzeFile; `prior` is the record already stored for the file, if any. */
  function AnalyzeFileSpec(prior: Option<FileRecord>, jobId: string, fileName: string,
                           found: Result<Option<string>, string>,
                           analysis: Result<CAnalyzer.CFileStructure, string>): (FileReply, FileRecord)
  {
    AnalyzeOpened(OpenForAnalysis(prior, jobId, fileName), fileName, found, analysis)
  }

  /** The names of the generated files, in order. */
  function Names(files: seq<GeneratedFile>): (r: seq<string>)
    ensures |r| == |files| && forall k :: 0 <= k < |files| ==> r[k] == files[k].name
  {
    if files == [] then [] else Names(files[..|files| - 1]) + [files[|files| - 1].name]
  }

  /**
   * convertFile after its precondition. A record whose analysis never
   * located the file has no sourceFilePath, and `Paths.get(null)` throws.
   */
  function ConvertFileSpec(rec: FileRecord, fileName: string, converted: Result<ConverterOutput, string>)
    : (FileReply, FileRecord)
    requires FromConverter(converted)
  {
    var begun := rec.Staged(ConvertStage, FileConverting, 40).Logged(ConvertFileStarted(fileName));
    if begun.sourceFilePath.None? then FailFile(begun, "Conversion failed: ", NullPathMessage)
    else
      match converted
      case Err(m) => FailFile(begun, "Conversion failed: ", m)
      case Ok(out) =>
        var logged := begun.Logged(ConversionLogHeader + out.logText);
        var javaFile := out.files[0].name;
        var summary := ConvertSummary(Names(out.files), |JavaSplit(out.files[0].content, '\n')|);
        (FileReply(true, None),
         logged.(outputFilePath := Some(javaFile), convertResult := Some(summary))
               .Staged(ConvertStage, FileConverting, 55).Logged(Converted(javaFile)))
  }

  /** compileFile after its precondition; the build runs on the job's output path, which may be null. */
  function CompileFileSpec(rec: FileRecord, fileName: string, jobOutput: Option<string>,
                           build: Result<BuildOutcome, string>): (FileReply, FileRecord)
  {
    var begun := rec.Staged(CompileStage, FileCompiling, 70).Logged(CompileFileStarted(fileName));
    var outcome := if jobOutput.None? then Err(NullPathMessage) else build;
    match outcome
    case Err(m) => FailFile(begun, "Compilation failed: ", m)
    case Ok(b) =>
      var recorded := begun.(compileSuccess := Some(b.success));
      var reported :=
        if !b.success then recorded.(compileErrors := Some(Join(b.errors, "\n"))).Logged(CompileErrors(|b.errors|))
        else recorded.Logged(CompileDone);
      (FileReply(b.success, None), reported.Staged(CompileStage, FileCompiling, 80))
  }

  /** testFile after its precondition. */
  function TestFileSpec(rec: FileRecord, fileName: string, jobOutput: Option<string>,
                        test: Result<TestOutcome, string>): (FileReply, FileRecord)
  {
    var begun := rec.Staged(TestStage, FileTesting, 90).Logged(TestFileStarted(fileName));
    var outcome := if jobOutput.None? then Err(NullPathMessage) else test;
    match outcome
    case Err(m) => FailFile(begun, "Testing failed: ", m)
    case Ok(t) =>
      var recorded := begun.(testSuccess := Some(t.success), testResults := Some(t.text));
      (FileReply(t.success, None),
       if t.success then recorded.Completed().Logged(TestsDone)
       else recorded.Logged(SomeFileTestsFailed).(progress := 95))
  }

  // ---------------------------------------------------------------------------
  // What the per-file stages promise
  // ---------------------------------------------------------------------------

  /**
   * A caught exception is reported, not thrown, and marks the file FAILED
   * with the message; a stage that ends without one leaves the file in the
   * stage's own status at the stage's closing progress (testFile: COMPLETED
   * when the tests passed, 95 otherwise). Either way the log only grows.
   */
  lemma AnalyzeFileOutcome(prior: Option<FileRecord>, jobId: string, fileName: string,
                           found: Result<Option<string>, string>, analysis: Result<CAnalyzer.CFileStructure, string>)
    ensures var (reply, after) := AnalyzeFileSpec(prior, jobId, fileName, found, analysis);
      && (reply.error.Some? <==> after.status == FileFailed)
      && (reply.error.Some? ==> !reply.success && after.errorMessage == Some("Analysis failed: " + reply.error.value))
      && (reply.error.None? ==> reply.success && after.status == FileAnalyzing && after.progress == 25)
      && (prior.None? ==> after.jobId == jobId && after.sourceFileName == fileName)
  {
  }

  lemma ConvertFileOutcome(rec: FileRecord, fileName: string, converted: Result<ConverterOutput, string>)
    requires FromConverter(converted)
    ensures var (reply, after) := ConvertFileSpec(rec, fileName, converted);
      && (reply.error.Some? <==> after.status == FileFailed)
      && (reply.error.Some? ==> !reply.success && after.errorMessage == Some("Conversion failed: " + reply.error.value))
      && (reply.error.None? ==> reply.success && after.status == FileConverting && after.progress == 55)
      && rec.log <= after.log
  {
  }

  lemma CompileFileOutcome(rec: FileRecord, fileName: string, jobOutput: Option<string>,
                           build: Result<BuildOutcome, string>)
    ensures var (reply, after) := CompileFileSpec(rec, fileName, jobOutput, build);
      && (reply.error.Some? <==> after.status == FileFailed)
      && (reply.error.Some? ==> !reply.success && after.errorMessage == Some("Compilation failed: " + reply.error.value))
      && (reply.error.None? ==> after.status == FileCompiling && after.progress == 80
                                && after.compileSuccess == Some(reply.success))
      && rec.log <= after.log
  {
  }

  lemma TestFileOutcome(rec: FileRecord, fileName: string, jobOutput: Option<string>,
                        test: Result<TestOutcome, string>)
    ensures var (reply, after) := TestFileSpec(rec, fileName, jobOutput, test);
      && (reply.error.Some? <==> after.status == FileFailed)
      && (reply.error.Some? ==> !reply.success && after.errorMessage == Some("Testing failed: " + reply.error.value))
      && (reply.success <==> after.status == FileCompleted)
      && (reply.error.None? && !reply.success ==> after.status == FileTesting && after.progress == 95)
      && rec.log <= after.log
  {
  }

  /**
   * The per-file preconditions chain: a conversion that succeeds leaves the
   * outputFilePath compileFile needs, and a compilation that reports success
   * leaves the compileSuccess testFile needs; an unsuccessful build leaves
   * testFile refusing the file.
   */
  lemma FileStagesChain(rec: FileRecord, fileName: string, converted: Result<ConverterOutput, string>,
                        jobOutput: Option<string>, build: Result<BuildOutcome, string>)
    requires FromConverter(converted)
    ensures var (reply, after) := ConvertFileSpec(rec, fileName, converted);
      reply.success ==> after.outputFilePath.Some?
    ensures var (reply, after) := CompileFileSpec(rec, fileName, jobOutput, build);
      (after.compileSuccess == Some(true) <==> reply.success || (reply.error.Some? && rec.compileSuccess == Some(true)))
  {
  }

  // ---------------------------------------------------------------------------
  // The stages on the repositories
  // ---------------------------------------------------------------------------

  /** The id the file results are filed under: the found job's own id. */
  function JobKey(repo: JobRepository, jobId: string): string
    requires jobId in repo.jobs
    reads repo
  {
    repo.jobs[jobId].jobId
  }

  /** The record findByJobIdAndSourceFileName returns, as the only object a stage may write. */
  function FileFrame(files: FileResultRepository, key: string, fileName: string): set<object>
    reads files, files.results
  {
    match files.Find(key, fileName)
    case None => {}
    case Some(k) => {files.results[k]}
  }

  /** The opening of analyzeFile: the found record reset to ANALYZE at 10, or a new one added. */
  method OpenAnalyzeRecord(files: FileResultRepository, key: string, fileName: string)
    returns (rec: FileConversionResult)
    modifies files, FileFrame(files, key, fileName)
    ensures var k := old(files.Find(key, fileName));
      && files.results == old(files.results) + (if k.Some? then [] else [rec])
      && (k.Some? ==> rec == files.results[k.value])
      && (k.None? ==> fresh(rec))
      && rec.Record() == OpenForAnalysis(if k.Some? then Some(old(rec.Record())) else None, key, fileName)
  {
    var k := files.Find(key, fileName);
    if k.Some? {
      rec := files.results[k.value];
      rec.UpdateStage(AnalyzeStage, FileAnalyzing, 10);
      rec.AppendLog(AnalyzeFileStarted(fileName));
    } else {
      rec := new FileConversionResult(key, fileName);
      rec.AppendLog(AnalyzeFileStarted(fileName));
      files.Add(rec);
    }
  }

  method AnalyzeFile(repo: JobRepository, files: FileResultRepository, jobId: string, fileName: string,
                     found: Result<Option<string>, string>, analysis: Result<CAnalyzer.CFileStructure, string>)
    returns (r: Result<FileReply, StepError>)
    modifies files, if jobId in repo.jobs then FileFrame(files, JobKey(repo, jobId), fileName) else {}
    ensures jobId !in repo.jobs ==> r == Err(JobNotFound(jobId)) && files.results == old(files.results)
    ensures jobId in repo.jobs ==>
      var k := old(files.Find(JobKey(repo, jobId), fileName));
      var prior := if k.Some? then Some(old(files.results[k.value].Record())) else None;
      var i := if k.Some? then k.value else |old(files.results)|;
      && |files.results| == |old(files.results)| + (if k.Some? then 0 else 1)
      && files.results[..|old(files.results)|] == old(files.results)
      && r.Ok?
      && (r.value, files.results[i].Record()) == AnalyzeFileSpec(prior, JobKey(repo, jobId), fileName, found, analysis)
  {
    if jobId !in repo.jobs {
      return Err(JobNotFound(jobId));
    }
    var key := repo.jobs[jobId].jobId;
    var rec := OpenAnalyzeRecord(files, key, fileName);
    var reply := AnalyzeOn(rec, fileName, found, analysis);
    r := Ok(reply);
  }

  /** The try block of analyzeFile and its catch. */
  method AnalyzeOn(rec: FileConversionResult, fileName: string, found: Result<Option<string>, string>,
                   analysis: Result<CAnalyzer.CFileStructure, string>)
    returns (reply: FileReply)
    modifies rec
    ensures (reply, rec.Record()) == AnalyzeOpened(old(rec.Record()), fileName, found, analysis)
  {
    match found {
      case Err(m) =>
        reply := MarkFileFailed(rec, "Analysis failed: ", m);
      case Ok(None) =>
        reply := MarkFileFailed(rec, "Analysis failed: ", FileNotFound(fileName));
      case Ok(Some(path)) =>
        rec.sourceFilePath := Some(path);
        match analysis {
          case Err(m) =>
            reply := MarkFileFailed(rec, "Analysis failed: ", m);
          case Ok(s) =>
            RecordAnalysis(rec, |s.functions|, |s.structs|, s.lineCount);
            reply := FileReply(true, None);
        }
    }
  }

  /** A per-file catch block. */
  method MarkFileFailed(rec: FileConversionResult, prefix: string, msg: string) returns (reply: FileReply)
    modifies rec
    ensures (reply, rec.Record()) == FailFile(old(rec.Record()), prefix, msg)
  {
    rec.MarkFailed(prefix + msg);
    reply := FileReply(false, Some(msg));
  }

  /** setAnalyzeResult, updateStage to 25 and the summary log line. */
  method RecordAnalysis(rec: FileConversionResult, functions: nat, structs: nat, lines: nat)
    modifies rec
    ensures rec.Record() == old(rec.Record()).(analyzeResult := Some(AnalyzeSummary(functions, structs, lines)))
                              .Staged(AnalyzeStage, FileAnalyzing, 25).Logged(Analyzed(functions, structs))
  {
    rec.analyzeResult := Some(AnalyzeSummary(functions, structs, lines));
    rec.UpdateStage(AnalyzeStage, FileAnalyzing, 25);
    rec.AppendLog(Analyzed(functions, structs));
  }

  method ConvertFile(repo: JobRepository, files: FileResultRepository, jobId: string, fileName: string,
                     converted: Result<ConverterOutput, string>)
    returns (r: Result<FileReply, StepError>)
    requires FromConverter(converted)
    modifies if jobId in repo.jobs then FileFrame(files, JobKey(repo, jobId), fileName) else {}
    ensures jobId !in repo.jobs ==> r == Err(JobNotFound(jobId))
    ensures jobId in repo.jobs ==>
      var k := old(files.Find(JobKey(repo, jobId), fileName));
      && (k.None? ==> r == Err(IllegalState(AnalyzeFirst(fileName))))
      && (k.Some? ==> r.Ok? && (r.value, files.results[k.value].Record())
                                == ConvertFileSpec(old(files.results[k.value].Record()), fileName, converted))
  {
    if jobId !in repo.jobs {
      return Err(JobNotFound(jobId));
    }
    var k := files.Find(repo.jobs[jobId].jobId, fileName);
    if k.None? {
      return Err(IllegalState(AnalyzeFirst(fileName)));
    }
    var reply := ConvertOn(files.results[k.value], fileName, converted);
    r := Ok(reply);
  }

  /** convertFile from its opening setters to the end. */
  method ConvertOn(rec: FileConversionResult, fileName: string, converted: Result<ConverterOutput, string>)
    returns (reply: FileReply)
    requires FromConverter(converted)
    modifies rec
    ensures (reply, rec.Record()) == ConvertFileSpec(old(rec.Record()), fileName, converted)
  {
    rec.UpdateStage(ConvertStage, FileConverting, 40);
    rec.AppendLog(ConvertFileStarted(fileName));
    if rec.sourceFilePath.None? {
      reply := MarkFileFailed(rec, "Conversion failed: ", NullPathMessage);
      return;
    }
    match converted {
      case Err(m) =>
        reply := MarkFileFailed(rec, "Conversion failed: ", m);
      case Ok(out) =>
        rec.AppendLog(ConversionLogHeader + out.logText);
        RecordConversion(rec, out.files);
        reply := FileReply(true, None);
    }
  }

  /** setOutputFilePath (the first generated file), setConvertResult, updateStage to 55 and the log line. */
  method RecordConversion(rec: FileConversionResult, generated: seq<GeneratedFile>)
    requires generated != []
    modifies rec
    ensures var javaFile := generated[0].name;
      rec.Record() == old(rec.Record())
        .(outputFilePath := Some(javaFile),
          convertResult := Some(ConvertSummary(Names(generated), |JavaSplit(generated[0].content, '\n')|)))
        .Staged(ConvertStage, FileConverting, 55).Logged(Converted(javaFile))
  {
    var javaFile := generated[0].name;
    rec.outputFilePath := Some(javaFile);
    rec.convertResult := Some(ConvertSummary(Names(generated), |JavaSplit(generated[0].content, '\n')|));
    rec.UpdateStage(ConvertStage, FileConverting, 55);
    rec.AppendLog(Converted(javaFile));
  }

  method CompileFile(repo: JobRepository, files: FileResultRepository, jobId: string, fileName: string,
                     build: Result<BuildOutcome, string>)
    returns (r: Result<FileReply, StepError>)
    modifies if jobId in repo.jobs then FileFrame(files, JobKey(repo, jobId), fileName) else {}
    ensures jobId !in repo.jobs ==> r == Err(JobNotFound(jobId))
    ensures jobId in repo.jobs ==>
      var k := old(files.Find(JobKey(repo, jobId), fileName));
      && (k.None? ==> r == Err(IllegalState(ConvertFirst(fileName))))
      && (k.Some? && old(files.results[k.value].outputFilePath).None? ==>
            r == Err(IllegalState(ConvertFirst(fileName)))
            && files.results[k.value].Record() == old(files.results[k.value].Record()))
      && (k.Some? && old(files.results[k.value].outputFilePath).Some? ==>
            r.Ok? && (r.value, files.results[k.value].Record())
                     == CompileFileSpec(old(files.results[k.value].Record()), fileName,
                                        repo.jobs[jobId].outputPath, build))
  {
    if jobId !in repo.jobs {
      return Err(JobNotFound(jobId));
    }
    var job := repo.jobs[jobId];
    var k := files.Find(job.jobId, fileName);
    if k.None? || files.results[k.value].outputFilePath.None? {
      return Err(IllegalState(ConvertFirst(fileName)));
    }
    var reply := CompileOn(files.results[k.value], fileName, job.outputPath, build);
    r := Ok(reply);
  }

  /** compileFile from its opening setters to the end. */
  method CompileOn(rec: FileConversionResult, fileName: string, jobOutput: Option<string>,
                   build: Result<BuildOutcome, string>)
    returns (reply: FileReply)
    modifies rec
    ensures (reply, rec.Record()) == CompileFileSpec(old(rec.Record()), fileName, jobOutput, build)
  {
    rec.UpdateStage(CompileStage, FileCompiling, 70);
    rec.AppendLog(CompileFileStarted(fileName));
    var outcome := if jobOutput.None? then Err(NullPathMessage) else build;
    match outcome {
      case Err(m) =>
        reply := MarkFileFailed(rec, "Compilation failed: ", m);
      case Ok(b) =>
        RecordFileBuild(rec, b);
        reply := FileReply(b.success, None);
    }
  }

  /** setCompileSuccess, the errors or the success line, updateStage to 80. */
  method RecordFileBuild(rec: FileConversionResult, b: BuildOutcome)
    modifies rec
    ensures var recorded := old(rec.Record()).(compileSuccess := Some(b.success));
      rec.Record() == (if !b.success
                       then recorded.(compileErrors := Some(Join(b.errors, "\n"))).Logged(CompileErrors(|b.errors|))
                       else recorded.Logged(CompileDone)).Staged(CompileStage, FileCompiling, 80)
  {
    rec.compileSuccess := Some(b.success);
    if !b.success {
      RecordBuildErrors(rec, b.errors);
    } else {
      rec.AppendLog(CompileDone);
    }
    rec.UpdateStage(CompileStage, FileCompiling, 80);
  }

  /** setCompileErrors and the error-count log line. */
  method RecordBuildErrors(rec: FileConversionResult, errors: seq<string>)
    modifies rec
    ensures rec.Record() == old(rec.Record()).(compileErrors := Some(Join(errors, "\n"))).Logged(CompileErrors(|errors|))
  {
    rec.compileErrors := Some(Join(errors, "\n"));
    rec.AppendLog(CompileErrors(|errors|));
  }

  method TestFile(repo: JobRepository, files: FileResultRepository, jobId: string, fileName: string,
                  test: Result<TestOutcome, string>)
    returns (r: Result<FileReply, StepError>)
    modifies if jobId in repo.jobs then FileFrame(files, JobKey(repo, jobId), fileName) else {}
    ensures jobId !in repo.jobs ==> r == Err(JobNotFound(jobId))
    ensures jobId in repo.jobs ==>
      var k := old(files.Find(JobKey(repo, jobId), fileName));
      && (k.None? ==> r == Err(IllegalState(CompileFirst(fileName))))
      && (k.Some? && old(files.results[k.value].compileSuccess) != Some(true) ==>
            r == Err(IllegalState(CompileFirst(fileName)))
            && files.results[k.value].Record() == old(files.results[k.value].Record()))
      && (k.Some? && old(files.results[k.value].compileSuccess) == Some(true) ==>
            r.Ok? && (r.value, files.results[k.value].Record())
                     == TestFileSpec(old(files.results[k.value].Record()), fileName,
                                     repo.jobs[jobId].outputPath, test))
  {
    if jobId !in repo.jobs {
      return Err(JobNotFound(jobId));
    }
    var job := repo.jobs[jobId];
    var k := files.Find(job.jobId, fileName);
    if k.None? || files.results[k.value].compileSuccess != Some(true) {
      return Err(IllegalState(CompileFirst(fileName)));
    }
    var reply := TestOn(files.results[k.value], fileName, job.outputPath, test);
    r := Ok(reply);
  }

  /** testFile from its opening setters to the end. */
  method TestOn(rec: FileConversionResult, fileName: string, jobOutput: Option<string>,
                test: Result<TestOutcome, string>)
    returns (reply: FileReply)
    modifies rec
    ensures (reply, rec.Record()) == TestFileSpec(old(rec.Record()), fileName, jobOutput, test)
  {
    rec.UpdateStage(TestStage, FileTesting, 90);
    rec.AppendLog(TestFileStarted(fileName));
    var outcome := if jobOutput.None? then Err(NullPathMessage) else test;
    match outcome {
      case Err(m) =>
        reply := MarkFileFailed(rec, "Testing failed: ", m);
      case Ok(t) =>
        RecordFileTests(rec, t);
        reply := FileReply(t.success, None);
    }
  }

  /** setTestSuccess, setTestResults, then markCompleted and the success line, or the failure line and progress 95. */
  method RecordFileTests(rec: FileConversionResult, t: TestOutcome)
    modifies rec
    ensures var recorded := old(rec.Record()).(testSuccess := Some(t.success), testResults := Some(t.text));
      rec.Record() == if t.success then recorded.Completed().Logged(TestsDone)
                      else recorded.Logged(SomeFileTestsFailed).(progress := 95)
  {
    rec.testSuccess := Some(t.success);
    rec.testResults := Some(t.text);
    if t.success {
      rec.MarkCompleted();
      rec.AppendLog(TestsDone);
    } else {
      rec.AppendLog(SomeFileTestsFailed);
      rec.progress := 95;
    }
  }
}
