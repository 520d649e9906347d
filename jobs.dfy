/**
 * The conversion job entity, the per-file result record the pipeline keeps
 * beside it, and the two repositories that hold them (in-memory maps in
 * place of the JPA repositories).
 */
module Jobs {
  import opened Wrappers

  /** The job's lifecycle; CANCELLED is used by the services although the enum as shipped lacks it. */
  datatype JobStatus =
    | PENDING | ANALYZING | CONVERTING | COMPILING | TESTING | REVIEWING
    | COMPLETED | FAILED | CANCELLED

  /** Every field of a job, as a value. */
  datatype JobRecord = JobRecord(
    jobId: string,
    userId: Option<string>,
    jobName: string,
    status: JobStatus,
    priority: int,
    sourcePath: string,
    outputPath: Option<string>,
    targetLanguage: Option<string>,
    llmProvider: Option<string>,
    completedAt: Option<int>,
    errorMessage: Option<string>,
    compileAttempts: int,
    currentStage: Option<string>,
    progress: int,
    log: seq<string>,
    functionCount: int,
    structCount: int,
    sqlCount: int,
    generatedFileCount: int,
    compileSuccess: Option<bool>,
    compileErrors: Option<string>,
    testSuccess: Option<bool>,
    testResults: Option<string>,
    airflowDagId: Option<string>,
    airflowRunId: Option<string>)
  {
    /** appendLog: the message becomes the last log line. */
    function Logged(msg: string): (r: JobRecord)
      ensures r.log == log + [msg] && r.log[|log|] == msg
    {
      this.(log := log + [msg])
    }

    /** updateProgress: the stage name and percentage. */
    function AtProgress(stage: string, p: int): (r: JobRecord)
      ensures r.currentStage == Some(stage) && r.progress == p
    {
      this.(currentStage := Some(stage), progress := p)
    }

    /** markFailed: FAILED with the message. */
    function MarkedFailed(msg: string): (r: JobRecord)
      ensures r.status == FAILED && r.errorMessage == Some(msg)
    {
      this.(status := FAILED, errorMessage := Some(msg))
    }
  }

  /** A job as the builder leaves it: PENDING, priority 0, no compile attempts. */
  function NewJobRecord(jobId: string, userId: Option<string>, jobName: string, sourcePath: string,
                        targetLanguage: Option<string>, llmProvider: Option<string>): (r: JobRecord)
    ensures r.status == PENDING && r.priority == 0 && r.compileAttempts == 0
    ensures r.jobId == jobId && r.userId == userId && r.jobName == jobName && r.sourcePath == sourcePath
    ensures r.log == [] && r.outputPath.None? && r.completedAt.None? && r.errorMessage.None?
  {
    JobRecord(jobId, userId, jobName, PENDING, 0, sourcePath, None, targetLanguage, llmProvider,
              None, None, 0, None, 0, [], 0, 0, 0, 0, None, None, None, None, None, None)
  }

  /** The JPA entity: fields that the services update in place. */
  class ConversionJob {
    const jobId: string
    var userId: Option<string>
    var jobName: string
    var status: JobStatus
    var priority: int
    var sourcePath: string
    var outputPath: Option<string>
    var targetLanguage: Option<string>
    var llmProvider: Option<string>
    var completedAt: Option<int>
    var errorMessage: Option<string>
    var compileAttempts: int
    var currentStage: Option<string>
    var progress: int
    var log: seq<string>
    var functionCount: int
    var structCount: int
    var sqlCount: int
    var generatedFileCount: int
    var compileSuccess: Option<bool>
    var compileErrors: Option<string>
    var testSuccess: Option<bool>
    var testResults: Option<string>
    var airflowDagId: Option<string>
    var airflowRunId: Option<string>

    function Record(): JobRecord
      reads this
    {
      JobRecord(jobId, userId, jobName, status, priority, sourcePath, outputPath, targetLanguage,
                llmProvider, completedAt, errorMessage, compileAttempts, currentStage, progress, log,
                functionCount, structCount, sqlCount, generatedFileCount, compileSuccess,
                compileErrors, testSuccess, testResults, airflowDagId, airflowRunId)
    }

    /** ConversionJob.builder()...build() with the builder defaults. */
    constructor (jobId: string, userId: Option<string>, jobName: string, sourcePath: string,
                 targetLanguage: Option<string>, llmProvider: Option<string>)
      ensures Record() == NewJobRecord(jobId, userId, jobName, sourcePath, targetLanguage, llmProvider)
    {
      this.jobId := jobId;
      this.userId := userId;
      this.jobName := jobName;
      this.status := PENDING;
      this.priority := 0;
      this.sourcePath := sourcePath;
      this.outputPath := None;
      this.targetLanguage := targetLanguage;
      this.llmProvider := llmProvider;
      this.completedAt := None;
      this.errorMessage := None;
      this.compileAttempts := 0;
      this.currentStage := None;
      this.progress := 0;
      this.log := [];
      this.functionCount := 0;
      this.structCount := 0;
      this.sqlCount := 0;
      this.generatedFileCount := 0;
      this.compileSuccess := None;
      this.compileErrors := None;
      this.testSuccess := None;
      this.testResults := None;
      this.airflowDagId := None;
      this.airflowRunId := None;
    }

    /** start(): ANALYZING, nothing else. */
    method Start()
      modifies this
      ensures Record() == old(Record()).(status := ANALYZING)
    {
      status := ANALYZING;
    }

    /** complete(output): COMPLETED with the output path and the completion time. */
    method Complete(output: string, now: int)
      modifies this
      ensures Record() == old(Record()).(status := COMPLETED, outputPath := Some(output), completedAt := Some(now))
    {
      completedAt := Some(now);
      outputPath := Some(output);
      status := COMPLETED;
    }

    /** fail(message): FAILED with the message and the completion time. */
    method Fail(message: string, now: int)
      modifies this
      ensures Record() == old(Record()).(status := FAILED, errorMessage := Some(message), completedAt := Some(now))
    {
      completedAt := Some(now);
      errorMessage := Some(message);
      status := FAILED;
    }

    /** incrementCompileAttempts(): one more attempt, nothing else. */
    method IncrementCompileAttempts()
      modifies this
      ensures Record() == old(Record()).(compileAttempts := old(compileAttempts) + 1)
    {
      compileAttempts := compileAttempts + 1;
    }

    // The mutators the services call. appendLog, updateProgress and
    // markFailed are not in the entity as shown; their effect is the one
    // their names and uses describe (see JobRecord.Logged, AtProgress, MarkedFailed).

    /** setStatus (Lombok setter). */
    method SetStatus(s: JobStatus)
      modifies this
      ensures Record() == old(Record()).(status := s)
    {
      status := s;
    }

    /** appendLog: the message becomes the last log line. */
    method AppendLog(msg: string)
      modifies this
      ensures Record() == old(Record()).Logged(msg)
    {
      log := log + [msg];
    }

    /** updateProgress: the stage name and percentage. */
    method UpdateProgress(stage: string, p: int)
      modifies this
      ensures Record() == old(Record()).AtProgress(stage, p)
    {
      currentStage := Some(stage);
      progress := p;
    }

    /** markFailed: FAILED with the message. */
    method MarkFailed(msg: string)
      modifies this
      ensures Record() == old(Record()).MarkedFailed(msg)
    {
      status := FAILED;
      errorMessage := Some(msg);
    }
  }

  /** The job table, keyed by job id. */
  class JobRepository {
    var jobs: map<string, ConversionJob>

    constructor ()
      ensures jobs == map[]
    {
      jobs := map[];
    }

    /** save() of a new job: the id now names it; no other entry changes. */
    method Save(job: ConversionJob)
      modifies this`jobs
      ensures jobs == old(jobs)[job.jobId := job]
    {
      jobs := jobs[job.jobId := job];
    }
  }

  /** The job a service call looks up by id, as the only object it may write. */
  function JobFrame(repo: JobRepository, jobId: string): set<object>
    reads repo
  {
    if jobId in repo.jobs then {repo.jobs[jobId]} else {}
  }

  // ---------------------------------------------------------------------------
  // Per-file results
  // ---------------------------------------------------------------------------

  datatype FileStatus = FilePending | FileAnalyzing | FileConverting | FileCompiling | FileTesting
                      | FileCompleted | FileFailed

  datatype FileStage = AnalyzeStage | ConvertStage | CompileStage | TestStage

  /** What the per-file analysis records (serialised to JSON by the service). */
  datatype AnalyzeSummary = AnalyzeSummary(functions: nat, structs: nat, lines: nat)

  /** What the per-file conversion records: the generated names and the first file's line count. */
  datatype ConvertSummary = ConvertSummary(generatedFiles: seq<string>, linesConverted: nat)

  datatype FileRecord = FileRecord(
    jobId: string,
    sourceFileName: string,
    status: FileStatus,
    currentStage: FileStage,
    progress: int,
    log: seq<string>,
    sourceFilePath: Option<string>,
    analyzeResult: Option<AnalyzeSummary>,
    outputFilePath: Option<string>,
    convertResult: Option<ConvertSummary>,
    compileSuccess: Option<bool>,
    compileErrors: Option<string>,
    testSuccess: Option<bool>,
    testResults: Option<string>,
    errorMessage: Option<string>)
  {
    // FileConversionResult.java is not part of this model; the mutators
    // below have the effect their names and uses in the pipeline describe.

    /** updateStage(stage, status, progress). */
    function Staged(stage: FileStage, st: FileStatus, p: int): (r: FileRecord)
      ensures r.currentStage == stage && r.status == st && r.progress == p
      ensures r.log == log && r.errorMessage == errorMessage
    {
      this.(currentStage := stage, status := st, progress := p)
    }

    /** appendLog: the message becomes the last log line. */
    function Logged(msg: string): (r: FileRecord)
      ensures r.log == log + [msg] && r.status == status && r.progress == progress
    {
      this.(log := log + [msg])
    }

    /** markFailed: FAILED with the message. */
    function MarkedFailed(msg: string): (r: FileRecord)
      ensures r.status == FileFailed && r.errorMessage == Some(msg) && r.log == log
    {
      this.(status := FileFailed, errorMessage := Some(msg))
    }

    /** markCompleted: COMPLETED. */
    function Completed(): (r: FileRecord)
      ensures r.status == FileCompleted && r.log == log
    {
      this.(status := FileCompleted)
    }
  }

  /** The record analyzeFile builds for a file seen for the first time. */
  function NewFileRecord(jobId: string, sourceFileName: string): (r: FileRecord)
    ensures r.jobId == jobId && r.sourceFileName == sourceFileName
    ensures r.status == FileAnalyzing && r.currentStage == AnalyzeStage && r.progress == 10 && r.log == []
  {
    FileRecord(jobId, sourceFileName, FileAnalyzing, AnalyzeStage, 10, [],
               None, None, None, None, None, None, None, None, None)
  }

  class FileConversionResult {
    const jobId: string
    const sourceFileName: string
    var status: FileStatus
    var currentStage: FileStage
    var progress: int
    var log: seq<string>
    var sourceFilePath: Option<string>
    var analyzeResult: Option<AnalyzeSummary>
    var outputFilePath: Option<string>
    var convertResult: Option<ConvertSummary>
    var compileSuccess: Option<bool>
    var compileErrors: Option<string>
    var testSuccess: Option<bool>
    var testResults: Option<string>
    var errorMessage: Option<string>

    function Record(): FileRecord
      reads this
    {
      FileRecord(jobId, sourceFileName, status, currentStage, progress, log, sourceFilePath,
                 analyzeResult, outputFilePath, convertResult, compileSuccess, compileErrors,
                 testSuccess, testResults, errorMessage)
    }

    /** The builder call of analyzeFile for a file seen for the first time. */
    constructor (jobId: string, sourceFileName: string)
      ensures Record() == NewFileRecord(jobId, sourceFileName)
    {
      this.jobId := jobId;
      this.sourceFileName := sourceFileName;
      this.status := FileAnalyzing;
      this.currentStage := AnalyzeStage;
      this.progress := 10;
      this.log := [];
      this.sourceFilePath := None;
      this.analyzeResult := None;
      this.outputFilePath := None;
      this.convertResult := None;
      this.compileSuccess := None;
      this.compileErrors := None;
      this.testSuccess := None;
      this.testResults := None;
      this.errorMessage := None;
    }

    /** updateStage(stage, status, progress); also the effect of the three setters each stage opens with. */
    method UpdateStage(stage: FileStage, st: FileStatus, p: int)
      modifies this
      ensures Record() == old(Record()).Staged(stage, st, p)
    {
      currentStage := stage;
      status := st;
      progress := p;
    }

    method AppendLog(msg: string)
      modifies this
      ensures Record() == old(Record()).Logged(msg)
    {
      log := log + [msg];
    }

    method MarkFailed(msg: string)
      modifies this
      ensures Record() == old(Record()).MarkedFailed(msg)
    {
      status := FileFailed;
      errorMessage := Some(msg);
    }

    method MarkCompleted()
      modifies this
      ensures Record() == old(Record()).Completed()
    {
      status := FileCompleted;
    }
  }

  /** Per-file results in creation order. */
  class FileResultRepository {
    var results: seq<FileConversionResult>

    constructor ()
      ensures results == []
    {
      results := [];
    }

    /** findByJobIdAndSourceFileName: the first record for that job and file. */
    function Find(jobId: string, fileName: string): (k: Option<nat>)
      reads this, results
      ensures k.Some? ==> k.value < |results| && results[k.value].jobId == jobId
                          && results[k.value].sourceFileName == fileName
      ensures k.None? <==> forall i :: 0 <= i < |results| ==>
                             !(results[i].jobId == jobId && results[i].sourceFileName == fileName)
      ensures k.Some? ==> forall i :: 0 <= i < k.value ==>
                            !(results[i].jobId == jobId && results[i].sourceFileName == fileName)
    {
      FindFrom(results, jobId, fileName, 0)
    }

    method Add(r: FileConversionResult)
      modifies this`results
      ensures results == old(results) + [r]
    {
      results := results + [r];
    }
  }

  function FindFrom(rs: seq<FileConversionResult>, jobId: string, fileName: string, i: nat): (k: Option<nat>)
    requires i <= |rs|
    reads rs
    ensures k.Some? ==> i <= k.value < |rs| && rs[k.value].jobId == jobId && rs[k.value].sourceFileName == fileName
    ensures k.None? <==> forall j :: i <= j < |rs| ==> !(rs[j].jobId == jobId && rs[j].sourceFileName == fileName)
    ensures k.Some? ==> forall j :: i <= j < k.value ==> !(rs[j].jobId == jobId && rs[j].sourceFileName == fileName)
    decreases |rs| - i
  {
    if i == |rs| then None
    else if rs[i].jobId == jobId && rs[i].sourceFileName == fileName then Some(i)
    else FindFrom(rs, jobId, fileName, i + 1)
  }
}
