# C2JAVA core, modelled in Dafny

C2JAVA converts legacy C and Pro*C sources into a Spring Boot / Gradle
project. A conversion job is created from uploaded files and then driven
through four stages: analyze, convert, compile and test. The stages run
job-wide or file by file, and finally the job is finalized. Around that
pipeline sit several helpers, each modelled here:

- a structural C analyzer;
- a converter that plans which Java files each input produces;
- text helpers for the LLM and the coding CLIs (Cursor, Claude, OpenAI, aider, fabric);
- classifiers for the Gradle build and test output;
- the `.env` synchroniser, the admin and configuration services and the rules directory;
- the local-server log buffer;
- the MCP helper's validator.

Each Java service is one module. The `.java` and `.py` file names are
given by path below.

- `CAnalyzer`: `CFileAnalyzerService`. The regex matches are inputs: each
  is a start offset plus its captured groups. What the service does with
  each match is modelled. The `:word` bind-variable scan is a real scanner.
- `Jobs`: the `ConversionJob` entity, a per-file result record, and the
  repositories as in-memory maps.
- `Pipeline` and `PipelineFiles`: `ConversionPipelineService`.
- `Conversion`: `ConversionService`.
- `Compile`, `GradleBuild`, `TestRunner`: `CompileService`,
  `GradleBuildService`, `TestRunnerService`. They fold over the lines of
  process output and an exit code.
- `CodeConverter`: `CodeConverterService`'s naming plans, its suffix
  classifier, the Gradle files, the mapping summary and the back-end
  fallback.
- `Llm`, `Cli`: `LlmService` and `CliService`. The world a CLI call sees is
  an input: env settings, file text, process and HTTP outcomes.
- `EnvSync`: `EnvSyncService`. The `.env` file is a list of lines, missing, or unreadable (its read throws an IOException).
- `Admin`, `Config`, `Rules`: `AdminService`, `ConfigService`,
  `RulesService`. The rules directory is a map from language name to
  its files.
- `LocalServer`: `LocalServerService`.
- `Mcp`: `mcp/mcp_server.py`.
- Shared helpers: `Wrappers` (Option, Result), `Strings` (Java and Python
  string operations), `Seqs`, `Sorting` (`String.compareTo` and a stable
  sort), and `OrderedMaps` (`LinkedHashMap` as a sequence of entries).

The code works in place, so the model does too. Entities and repositories
are classes whose methods are proved against transition functions on
values. Loops are methods with invariants. Lemmas state what the service
promises of those functions.

No caller increments `compileAttempts`, so nothing sends a job from
Compile back to Convert. Nothing limits how many jobs run at once.
`cancelJob` resets progress to 0, so progress can go down. `finalizeJob`
completes a CANCELLED job, so a cancel does not always stand. The
`JobStatus` enum as shipped (`domain/ConversionJob.java:96-105`) lacks
`CANCELLED`, although `ConversionService` and `ConversionPipelineService`
set it and test for it. The model adds it.

`appendLog`, `updateProgress` and `markFailed` are called on the job but
their bodies are not shown. `FileConversionResult` is not part of this
model either. Their effects are assumed: append a log line; set the stage
and the percentage; set FAILED and the message. For the file record:
`updateStage` sets stage, status and progress, and `markCompleted` sets
COMPLETED.

A doc comment in `EnvSyncService` says `QWEN3_API_URL` becomes
`llm.qwen3.api_url`. The code (`EnvSyncService.java:209-234`) produces
`llm.qwen3.api-url`. The model follows the code, and its round trip
`EnvSync.EnvKeyRoundTrip` holds for the code's spelling.

## Model

| member | source | states |
|---|---|---|
| CAnalyzer.DetermineFileType | backend/c2java-api/src/main/java/com/c2java/service/CFileAnalyzerService.java:82-89 | the type is always one of pro_c, c_header, c_source, cpp_source or unknown |
| CAnalyzer.FileTypeByExtension | backend/c2java-api/src/main/java/com/c2java/service/CFileAnalyzerService.java:82-89 | each type holds exactly when the lower-cased name ends with one of its own extensions, so the test order never matters |
| CAnalyzer.FindLineNumber | backend/c2java-api/src/main/java/com/c2java/service/CFileAnalyzerService.java:344-346 | the line is at least 1 and at most one more than the offset |
| CAnalyzer.FindLineNumberMonotone | backend/c2java-api/src/main/java/com/c2java/service/CFileAnalyzerService.java:344-346 | a later offset never lies on an earlier line |
| CAnalyzer.FindLineNumberStep | backend/c2java-api/src/main/java/com/c2java/service/CFileAnalyzerService.java:344-346 | crossing exactly one line break moves to the next line |
| CAnalyzer.CountLinesNoCR | backend/c2java-api/src/main/java/com/c2java/service/CFileAnalyzerService.java:94-96 | without carriage returns, `lines().count()` is the number of line breaks plus one for an unterminated last line |
| CAnalyzer.AfterLineNoCR | backend/c2java-api/src/main/java/com/c2java/service/CFileAnalyzerService.java:94-96 | without carriage returns the first line ends at the first `\n` |
| CAnalyzer.ParameterOf | backend/c2java-api/src/main/java/com/c2java/service/CFileAnalyzerService.java:285-299 | a piece of two or more words gives a parameter: the name is the last word with every '*', '[' and ']' removed; the type is the other words joined by spaces; isPointer iff the piece holds '*' |
| CAnalyzer.ParseParameters | backend/c2java-api/src/main/java/com/c2java/service/CFileAnalyzerService.java:278-303 | nothing for a missing, blank or "void" list; otherwise at most one parameter per comma piece, and no name holds '*', '[' or ']' |
| CAnalyzer.ParametersOfPieces | backend/c2java-api/src/main/java/com/c2java/service/CFileAnalyzerService.java:283-302 | the parameters of the trimmed non-empty pieces are each raw piece's parameter, in piece order, blank and one-word pieces giving none |
| CAnalyzer.ParseParametersInOrder | backend/c2java-api/src/main/java/com/c2java/service/CFileAnalyzerService.java:278-303 | a real list yields exactly the comma pieces' parameters, in order |
| CAnalyzer.ParseParametersMembers | backend/c2java-api/src/main/java/com/c2java/service/CFileAnalyzerService.java:278-303 | a parameter is reported iff some comma piece, trimmed, declares it |
| CAnalyzer.FieldOf | backend/c2java-api/src/main/java/com/c2java/service/CFileAnalyzerService.java:314-336 | a piece of two or more words is a field; a name with '[' but no later ']' is the exception `substring` throws |
| CAnalyzer.FieldOfWords | backend/c2java-api/src/main/java/com/c2java/service/CFileAnalyzerService.java:320-333 | isPointer iff the type or the name held '*'; neither keeps a '*'; the array size is the text between the brackets and the name is cut before '[' |
| CAnalyzer.ArraySize | backend/c2java-api/src/main/java/com/c2java/service/CFileAnalyzerService.java:325-327 | the size is the text strictly between the first '[' and the first ']' |
| CAnalyzer.NameBeforeBracket | backend/c2java-api/src/main/java/com/c2java/service/CFileAnalyzerService.java:326-327 | the name is the longest prefix without '[' |
| CAnalyzer.ParseStructFields | backend/c2java-api/src/main/java/com/c2java/service/CFileAnalyzerService.java:308-339 | a parsed body gives at most one field per ';' piece |
| CAnalyzer.FieldsOfPieces | backend/c2java-api/src/main/java/com/c2java/service/CFileAnalyzerService.java:309-339 | over the raw pieces, the stream throws iff some trimmed piece's field throws, and otherwise yields each piece's field in piece order |
| CAnalyzer.ParseStructFieldsInOrder | backend/c2java-api/src/main/java/com/c2java/service/CFileAnalyzerService.java:308-339 | parseStructFields throws iff some ';' piece's field does; otherwise the fields are each ';' piece's field, in order, empty and one-word pieces giving none |
| CAnalyzer.ParseStructFieldsMembers | backend/c2java-api/src/main/java/com/c2java/service/CFileAnalyzerService.java:308-339 | a field is reported iff some ';' piece, trimmed, declares it |
| CAnalyzer.EnumValues | backend/c2java-api/src/main/java/com/c2java/service/CFileAnalyzerService.java:175-183 | every value is non-empty, trimmed and free of commas |
| CAnalyzer.EnumValuesInOrder | backend/c2java-api/src/main/java/com/c2java/service/CFileAnalyzerService.java:175-178 | the values are the trims of the comma pieces, in order, with the empty ones dropped |
| CAnalyzer.EnumValuesMembers | backend/c2java-api/src/main/java/com/c2java/service/CFileAnalyzerService.java:175-178 | a value is reported iff it is the non-empty trim of some comma piece |
| CAnalyzer.BindVariablesSpec | backend/c2java-api/src/main/java/com/c2java/service/CFileAnalyzerService.java:206-210 | every bind variable is a non-empty run of word characters that occurs after a ':' in the text |
| CAnalyzer.BindSitesSpec | backend/c2java-api/src/main/java/com/c2java/service/CFileAnalyzerService.java:206-208 | the bind sites are exactly the colons that a word character follows, each once, in increasing order |
| CAnalyzer.BindVariablesAtSites | backend/c2java-api/src/main/java/com/c2java/service/CFileAnalyzerService.java:206-210 | the scan reports the whole word after each bind site, one per site, in order and with duplicates kept |
| CAnalyzer.VariablesAtIndex | backend/c2java-api/src/main/java/com/c2java/service/CFileAnalyzerService.java:206-210 | the j-th reported variable is the word after the j-th bind site |
| CAnalyzer.BindVariablesBound | backend/c2java-api/src/main/java/com/c2java/service/CFileAnalyzerService.java:206-210 | there are never more bind variables than colons |
| CAnalyzer.ScanBindVariables | backend/c2java-api/src/main/java/com/c2java/service/CFileAnalyzerService.java:206-210 | the `matcher.find()` loop yields exactly the bind variables of the body |
| CAnalyzer.LookBehind | backend/c2java-api/src/main/java/com/c2java/service/CFileAnalyzerService.java:114-116 | the window is the at most n characters that end at the match start |
| CAnalyzer.LookBehindContains | backend/c2java-api/src/main/java/com/c2java/service/CFileAnalyzerService.java:114-116 | a word occurs in the window iff it occurs in the text ending by the match start and starting no earlier than n before it |
| CAnalyzer.CommentBlockLines | backend/c2java-api/src/main/java/com/c2java/service/CFileAnalyzerService.java:351-365 | the comment block holds only trimmed lines starting with "//", "/*" or "*" |
| CAnalyzer.CommentLineStartsWith | backend/c2java-api/src/main/java/com/c2java/service/CFileAnalyzerService.java:357 | the character-level comment-line test holds exactly when the line starts with "//", "/*" or "*" |
| CAnalyzer.PrecedingComment | backend/c2java-api/src/main/java/com/c2java/service/CFileAnalyzerService.java:351-365 | null on line 1 or when no comment line lies directly above, blank lines skipped |
| CAnalyzer.PrecedingCommentStarts | backend/c2java-api/src/main/java/com/c2java/service/CFileAnalyzerService.java:351-365 | a found comment starts with the topmost comment line of the block |
| CAnalyzer.ExtractPrecedingComment | backend/c2java-api/src/main/java/com/c2java/service/CFileAnalyzerService.java:351-365 | null on line 1, otherwise the trimmed text of the scanned block when it is not empty |
| CAnalyzer.ScanCommentBlock | backend/c2java-api/src/main/java/com/c2java/service/CFileAnalyzerService.java:354-364 | the backward loop that inserts each comment line at the front yields exactly the comment block, and its text is that block rendered line by line |
| CAnalyzer.LinesCover | backend/c2java-api/src/main/java/com/c2java/service/CFileAnalyzerService.java:60-64 | the line array reaches the line of every match start, so the comment lookup is always in range |
| CAnalyzer.FunctionOf | backend/c2java-api/src/main/java/com/c2java/service/CFileAnalyzerService.java:105-129 | a recorded function carries the match's name and matched text, and isStatic iff "static" occurs within the 20 characters before the match |
| CAnalyzer.FunctionsKeepNonMain | backend/c2java-api/src/main/java/com/c2java/service/CFileAnalyzerService.java:101-133 | the functions recorded are as many as the matches not named "main" |
| CAnalyzer.ExtractFunctions | backend/c2java-api/src/main/java/com/c2java/service/CFileAnalyzerService.java:101-133 | the match loop yields exactly the records of the non-`main` matches |
| CAnalyzer.StructsOk | backend/c2java-api/src/main/java/com/c2java/service/CFileAnalyzerService.java:138-161 | struct extraction fails exactly when some struct body holds a badly bracketed field |
| CAnalyzer.StructsErrSticky | backend/c2java-api/src/main/java/com/c2java/service/CFileAnalyzerService.java:138-161 | once a prefix of the matches fails, the whole extraction fails with the same error |
| CAnalyzer.ExtractStructs | backend/c2java-api/src/main/java/com/c2java/service/CFileAnalyzerService.java:138-161 | the match loop yields every struct with its fields, or the first field exception |
| CAnalyzer.EnumOf | backend/c2java-api/src/main/java/com/c2java/service/CFileAnalyzerService.java:170-186 | an unnamed enum is "AnonymousEnum", and its values are the body's enum values |
| CAnalyzer.ExtractEnums | backend/c2java-api/src/main/java/com/c2java/service/CFileAnalyzerService.java:166-189 | one enum per match, in order |
| CAnalyzer.SqlOf | backend/c2java-api/src/main/java/com/c2java/service/CFileAnalyzerService.java:199-222 | the type is upper-cased, the body trimmed, the bind variables scanned, and isDynamic iff "sprintf" is in the 100 characters before or the body holds "%s" or "%d" |
| CAnalyzer.ExtractSqlQueries | backend/c2java-api/src/main/java/com/c2java/service/CFileAnalyzerService.java:194-226 | one query per EXEC SQL match, in order |
| CAnalyzer.ExtractIncludes | backend/c2java-api/src/main/java/com/c2java/service/CFileAnalyzerService.java:231-240 | the includes are the captured header names, in order |
| CAnalyzer.DefineOf | backend/c2java-api/src/main/java/com/c2java/service/CFileAnalyzerService.java:250-261 | a define keeps its name and trimmed value, and is function-like iff it has a parameter list |
| CAnalyzer.ExtractDefines | backend/c2java-api/src/main/java/com/c2java/service/CFileAnalyzerService.java:245-265 | one define per match, in order |
| CAnalyzer.AnalyzeFile | backend/c2java-api/src/main/java/com/c2java/service/CFileAnalyzerService.java:59-77 | the structure gathers the file type, line count and every extraction, or carries the struct-field exception |
| Jobs.NewJobRecord | backend/c2java-api/src/main/java/com/c2java/domain/ConversionJob.java:43-85 | a built job is PENDING with priority 0, no compile attempts, no log, no output, no error and no completion time |
| Jobs.ConversionJob.constructor | backend/c2java-api/src/main/java/com/c2java/domain/ConversionJob.java:43-85 | the new entity holds exactly the builder defaults |
| Jobs.ConversionJob.Start | backend/c2java-api/src/main/java/com/c2java/domain/ConversionJob.java:110-112 | status becomes ANALYZING and no other field changes |
| Jobs.ConversionJob.Complete | backend/c2java-api/src/main/java/com/c2java/domain/ConversionJob.java:117-121 | COMPLETED with the output path and the completion time; nothing else changes |
| Jobs.ConversionJob.Fail | backend/c2java-api/src/main/java/com/c2java/domain/ConversionJob.java:126-130 | FAILED with the message and the completion time; nothing else changes |
| Jobs.ConversionJob.IncrementCompileAttempts | backend/c2java-api/src/main/java/com/c2java/domain/ConversionJob.java:135-137 | compileAttempts rises by exactly one and nothing else changes |
| Jobs.ConversionJob.SetStatus | backend/c2java-api/src/main/java/com/c2java/service/ConversionPipelineService.java:164 | the Lombok setter changes only the status |
| Jobs.ConversionJob.AppendLog | backend/c2java-api/src/main/java/com/c2java/service/ConversionService.java:290-296 | the message becomes the last log line; earlier lines and every other field are kept |
| Jobs.ConversionJob.UpdateProgress | backend/c2java-api/src/main/java/com/c2java/service/ConversionService.java:243 | only the stage name and the percentage change |
| Jobs.ConversionJob.MarkFailed | backend/c2java-api/src/main/java/com/c2java/service/ConversionPipelineService.java:224 | only the status (FAILED) and the message change |
| Jobs.JobRepository.Save | backend/c2java-api/src/main/java/com/c2java/service/ConversionService.java:76 | saving files the job under its id and changes no other entry |
| Jobs.JobRepository.constructor | backend/c2java-api/src/main/java/com/c2java/service/ConversionService.java:76 | the repository starts empty |
| Jobs.NewFileRecord | backend/c2java-api/src/main/java/com/c2java/service/ConversionPipelineService.java:534-540 | a new file record is ANALYZING in the analyze stage, for that job and file, with no results yet |
| Jobs.FileConversionResult.constructor | backend/c2java-api/src/main/java/com/c2java/service/ConversionPipelineService.java:534-540 | a new record is the fresh analyze-stage record for that job and file |
| Jobs.FileConversionResult.UpdateStage | backend/c2java-api/src/main/java/com/c2java/service/ConversionPipelineService.java:569-572 | only stage, status and progress change |
| Jobs.FileConversionResult.AppendLog | backend/c2java-api/src/main/java/com/c2java/service/ConversionPipelineService.java:633-640 | the message becomes the record's last log line |
| Jobs.FileConversionResult.MarkFailed | backend/c2java-api/src/main/java/com/c2java/service/ConversionPipelineService.java:586 | only the status (FAILED) and the message change |
| Jobs.FileConversionResult.MarkCompleted | backend/c2java-api/src/main/java/com/c2java/service/ConversionPipelineService.java:765 | only the status changes, to COMPLETED |
| Jobs.FileResultRepository.Find | backend/c2java-api/src/main/java/com/c2java/service/ConversionPipelineService.java:530-532 | a found index holds a record for that job and file and no earlier record matches, and nothing is found only when no record matches both |
| Jobs.FileResultRepository.constructor | backend/c2java-api/src/main/java/com/c2java/service/ConversionPipelineService.java:530-541 | the repository starts empty |
| Jobs.FileResultRepository.Add | backend/c2java-api/src/main/java/com/c2java/service/ConversionPipelineService.java:541 | a new record is appended after the existing ones |
| Pipeline.TotalsAppend | backend/c2java-api/src/main/java/com/c2java/service/ConversionPipelineService.java:174-207 | the totals over two batches of files are the sums of their totals |
| Pipeline.TallyAnalysis | backend/c2java-api/src/main/java/com/c2java/service/ConversionPipelineService.java:174-207 | the loop's three counters are the sums of the per-file function, struct and SQL list sizes |
| Pipeline.FailUnlessCancelled | backend/c2java-api/src/main/java/com/c2java/service/ConversionPipelineService.java:219-227 | the catch block marks the job FAILED with the message unless the job in hand is CANCELLED |
| Pipeline.AnalyzeStep | backend/c2java-api/src/main/java/com/c2java/service/ConversionPipelineService.java:154-229 | an unknown id or a cancelled job is refused unchanged; otherwise the job becomes what the analyze transition gives, and no other job changes |
| Pipeline.AnalyzeJob | backend/c2java-api/src/main/java/com/c2java/service/ConversionPipelineService.java:159-228 | the found job ends as the analyze transition describes |
| Pipeline.ConvertStep | backend/c2java-api/src/main/java/com/c2java/service/ConversionPipelineService.java:235-300 | the same for conversion, including the re-read of the job before the catch block marks it FAILED |
| Pipeline.ConvertJob | backend/c2java-api/src/main/java/com/c2java/service/ConversionPipelineService.java:240-299 | the found job ends as the convert transition describes |
| Pipeline.CompileStep | backend/c2java-api/src/main/java/com/c2java/service/ConversionPipelineService.java:306-352 | the same for the build, whose exception is recorded as a failed compile |
| Pipeline.CompileJob | backend/c2java-api/src/main/java/com/c2java/service/ConversionPipelineService.java:311-351 | the found job ends as the compile transition describes |
| Pipeline.TestStep | backend/c2java-api/src/main/java/com/c2java/service/ConversionPipelineService.java:358-403 | the same for the tests |
| Pipeline.TestJob | backend/c2java-api/src/main/java/com/c2java/service/ConversionPipelineService.java:363-402 | the found job ends as the test transition describes |
| Pipeline.CancelledJobUntouched | backend/c2java-api/src/main/java/com/c2java/service/ConversionPipelineService.java:159-162 | every job-level step refuses a CANCELLED job before writing anything |
| Pipeline.StepsEnterFromAnyStatus | backend/c2java-api/src/main/java/com/c2java/service/ConversionPipelineService.java:159-166 | CANCELLED is the only guard: from any other status each step first moves the job to its own stage status |
| Pipeline.AnalyzeOutcome | backend/c2java-api/src/main/java/com/c2java/service/ConversionPipelineService.java:154-229 | success records the summed counts and reaches 25; an exception marks the job FAILED |
| Pipeline.ConvertOutcome | backend/c2java-api/src/main/java/com/c2java/service/ConversionPipelineService.java:235-300 | a cancellation seen on the re-read survives (never FAILED); any other exception marks FAILED; success sets the output path and reaches 60 |
| Pipeline.CompileAndTestNeverFail | backend/c2java-api/src/main/java/com/c2java/service/ConversionPipelineService.java:316-400 | compile and test never set FAILED; they record success false on an exception and otherwise reach 80 or 95 |
| Pipeline.ProgressCheckpoints | backend/c2java-api/src/main/java/com/c2java/service/ConversionPipelineService.java:165-387 | a full successful run passes 10, 25, 30, 60, 65, 80, 85, 95 in strictly increasing order |
| Pipeline.CountStatus | backend/c2java-api/src/main/java/com/c2java/service/ConversionPipelineService.java:849-855 | a status never counts more records than there are |
| Pipeline.CountStatusDisjoint | backend/c2java-api/src/main/java/com/c2java/service/ConversionPipelineService.java:849-855 | two different statuses never count the same record, so completed + failed ≤ total |
| Pipeline.CountStatusPositive | backend/c2java-api/src/main/java/com/c2java/service/ConversionPipelineService.java:849-855 | a status occurs among the file results exactly when its count is positive |
| Pipeline.FinalizeOutcome | backend/c2java-api/src/main/java/com/c2java/service/ConversionPipelineService.java:849-874 | FAILED iff some file result failed; otherwise COMPLETED at 100, even with no file results and from any status; completed + failed ≤ total |
| Pipeline.FinalizeJob | backend/c2java-api/src/main/java/com/c2java/service/ConversionPipelineService.java:841-875 | the job ends as the finalize transition describes and the counts are those of its file results |
| PipelineFiles.Names | backend/c2java-api/src/main/java/com/c2java/service/ConversionPipelineService.java:627-632 | the generated names, in order, one per generated file |
| PipelineFiles.AnalyzeFileOutcome | backend/c2java-api/src/main/java/com/c2java/service/ConversionPipelineService.java:525-595 | a caught exception is reported as a "failed" reply and marks the file FAILED; otherwise the file is left ANALYZING at 25; a new record belongs to that job and file |
| PipelineFiles.ConvertFileOutcome | backend/c2java-api/src/main/java/com/c2java/service/ConversionPipelineService.java:601-670 | the file is FAILED exactly when the reply carries an error, with the message recorded; success leaves it CONVERTING at 55; the log only grows |
| PipelineFiles.CompileFileOutcome | backend/c2java-api/src/main/java/com/c2java/service/ConversionPipelineService.java:676-733 | the file is FAILED exactly when the reply carries an error; a build that ran leaves it COMPILING at 80 with its success recorded; the log only grows |
| PipelineFiles.TestFileOutcome | backend/c2java-api/src/main/java/com/c2java/service/ConversionPipelineService.java:739-792 | the file is COMPLETED exactly when the tests passed and FAILED exactly on an exception; failing tests leave it TESTING at 95; the log only grows |
| PipelineFiles.FileStagesChain | backend/c2java-api/src/main/java/com/c2java/service/ConversionPipelineService.java:608-748 | a successful conversion leaves the output path compile needs; after compile, the success flag test needs is set iff the build passed or an exception left an earlier success in place |
| PipelineFiles.OpenAnalyzeRecord | backend/c2java-api/src/main/java/com/c2java/service/ConversionPipelineService.java:530-578 | the stored record is reset to ANALYZE at 10, or a new one is added |
| PipelineFiles.AnalyzeFile | backend/c2java-api/src/main/java/com/c2java/service/ConversionPipelineService.java:525-595 | an unknown job is refused; otherwise the file's record ends as the analyze transition describes |
| PipelineFiles.ConvertFile | backend/c2java-api/src/main/java/com/c2java/service/ConversionPipelineService.java:601-670 | a missing record is an IllegalStateException and nothing changes; otherwise the record ends as the convert transition describes, for any output the converter can return (never empty) |
| PipelineFiles.CompileFile | backend/c2java-api/src/main/java/com/c2java/service/ConversionPipelineService.java:676-733 | a record without an output path is refused unchanged; otherwise it ends as the compile transition describes |
| PipelineFiles.TestFile | backend/c2java-api/src/main/java/com/c2java/service/ConversionPipelineService.java:739-792 | a record whose compile did not succeed is refused unchanged; otherwise it ends as the test transition describes |
| PipelineFiles.MarkFileFailed | backend/c2java-api/src/main/java/com/c2java/service/ConversionPipelineService.java:584-594 | only the file record is marked FAILED, and the reply carries the message |
| Conversion.CreateConversionJob | backend/c2java-api/src/main/java/com/c2java/service/ConversionService.java:45-99 | no files or no user is rejected before anything is saved; otherwise exactly one new job is saved |
| Conversion.CreatedJob | backend/c2java-api/src/main/java/com/c2java/service/ConversionService.java:66-74 | a created job is PENDING, owned by the caller, named after the request or else the first upload |
| Conversion.StartConversionProcess | backend/c2java-api/src/main/java/com/c2java/service/ConversionService.java:114-143 | the job is left CONVERTING; an unknown id is refused |
| Conversion.AccessCheckGrants | backend/c2java-api/src/main/java/com/c2java/service/ConversionService.java:157-159 | access is granted exactly to admins and to the job's owner |
| Conversion.GetJobStatus | backend/c2java-api/src/main/java/com/c2java/service/ConversionService.java:149-162 | the job is returned exactly when it exists and the caller may see it |
| Conversion.ListingRules | backend/c2java-api/src/main/java/com/c2java/service/ConversionService.java:168-211 | an admin sees all jobs and others only their own; the status listing holds exactly the jobs in that status that the caller owns, or all of them for an admin or a caller without an id |
| Conversion.AnonymousListings | backend/c2java-api/src/main/java/com/c2java/service/ConversionService.java:172-206 | a non-admin without an id gets no job from getAllJobs but every job in the status from getJobsByStatus |
| Conversion.AirflowCancelLogOnlyLogs | backend/c2java-api/src/main/java/com/c2java/service/ConversionService.java:248-276 | the Airflow part of a cancel only appends log lines, so it never undoes CANCELLED |
| Conversion.CancelOutcome | backend/c2java-api/src/main/java/com/c2java/service/ConversionService.java:217-284 | a cancel succeeds exactly for a permitted caller on an unfinished job and leaves it CANCELLED at progress 0 with the message; a finished job is an IllegalStateException |
| Conversion.CancelJob | backend/c2java-api/src/main/java/com/c2java/service/ConversionService.java:217-284 | the found job ends as the cancel transition describes; an unknown id is refused |
| Conversion.MarkCancelled | backend/c2java-api/src/main/java/com/c2java/service/ConversionService.java:241-244 | status CANCELLED, the error message, stage "CANCELLED" and progress 0 |
| Compile.CountMentions | backend/c2java-api/src/main/java/com/c2java/service/CompileService.java:166-187 | the loop counts the `\n`-separated lines whose lower case holds the word |
| Compile.MentionCountRange | backend/c2java-api/src/main/java/com/c2java/service/CompileService.java:166-187 | the count never exceeds the number of lines; it is zero iff no line mentions the word and equals the line count iff every line does |
| Compile.AttemptOutcomeRules | backend/c2java-api/src/main/java/com/c2java/service/CompileService.java:41-110 | the attempt number is compileAttempts + 1; success iff exit code 0, with no error output exactly then; a fix is asked for iff the build failed and attempts < maxRetries; an exception records one failed attempt with one error |
| Compile.DefaultRetryLimit | backend/c2java-api/src/main/java/com/c2java/service/CompileService.java:85-92 | with the default limit 3, only attempts 0, 1 and 2 ask for a fix |
| Compile.Execute | backend/c2java-api/src/main/java/com/c2java/service/CompileService.java:63-68 | the executor returns only an exit code of 0, unchanged; every other outcome is its exception |
| Compile.AsWrittenNeverFixes | backend/c2java-api/src/main/java/com/c2java/service/CompileService.java:63-108 | as written, a failed build never asks for a fix and never saves the compiler's error text |
| Compile.FailedBuildCounterexample | backend/c2java-api/src/main/java/com/c2java/service/CompileService.java:63-108 | a first attempt failing with one compiler error loses its fix request |
| Compile.CompileResultRepository.Save | backend/c2java-api/src/main/java/com/c2java/service/CompileService.java:79 | a saved record is appended after the earlier ones |
| Compile.CompileResultRepository.constructor | backend/c2java-api/src/main/java/com/c2java/service/CompileService.java:79 | the repository starts empty |
| Compile.CompileAndTest | backend/c2java-api/src/main/java/com/c2java/service/CompileService.java:41-110 | exactly one record is saved; the result and the fix request are those of the attempt |
| GradleBuild.BuildProject | backend/c2java-api/src/main/java/com/c2java/service/GradleBuildService.java:26-85 | the read loop sorts each line into errors, warnings or neither, and the result is the build rule over them |
| GradleBuild.CompileOnly | backend/c2java-api/src/main/java/com/c2java/service/GradleBuildService.java:90-132 | the read loop keeps the lines holding "error:" and the result is the compile-only rule |
| GradleBuild.BuildRules | backend/c2java-api/src/main/java/com/c2java/service/GradleBuildService.java:52-82 | no line is both error and warning; the counts are the list sizes; success iff exit 0 and no error line; a process failure is one error |
| GradleBuild.DisjointFilterSizes | backend/c2java-api/src/main/java/com/c2java/service/GradleBuildService.java:52-56 | errors and warnings together are at most all lines |
| GradleBuild.CompileOnlyIgnoresErrors | backend/c2java-api/src/main/java/com/c2java/service/GradleBuildService.java:112-123 | compileOnly passes iff exit 0 even with "error:" lines, where buildProject would fail the same run |
| TestRunner.GroupsFromShape | backend/c2java-api/src/main/java/com/c2java/service/TestRunnerService.java:25-27 | a summary-line match has one group per number, each a run of digits |
| TestRunner.FindShape | backend/c2java-api/src/main/java/com/c2java/service/TestRunnerService.java:60-66 | `matcher.find()` gives four digit groups when it matches |
| TestRunner.ParseAllLength | backend/c2java-api/src/main/java/com/c2java/service/TestRunnerService.java:62-65 | a successful parse gives one number per group |
| TestRunner.TallyErrSticks | backend/c2java-api/src/main/java/com/c2java/service/TestRunnerService.java:60-66 | once a line has thrown, the whole run throws the same exception |
| TestRunner.RunTests | backend/c2java-api/src/main/java/com/c2java/service/TestRunnerService.java:32-104 | the report is the fold of the output lines, or the process failure |
| TestRunner.ReadOutput | backend/c2java-api/src/main/java/com/c2java/service/TestRunnerService.java:52-78 | the read loop's counters and failed-test list are those of the fold over the lines |
| TestRunner.ScanLine | backend/c2java-api/src/main/java/com/c2java/service/TestRunnerService.java:60-66 | one line adds its four parsed numbers, nothing, or the parse exception |
| TestRunner.ReportRules | backend/c2java-api/src/main/java/com/c2java/service/TestRunnerService.java:76-100 | success iff exit 0 with no failures or errors; passed + failed + errors + skipped = total; a process failure is one error and never success |
| TestRunner.TallyAppend | backend/c2java-api/src/main/java/com/c2java/service/TestRunnerService.java:60-66 | the four totals are sums over the lines: splitting the output anywhere adds up |
| TestRunner.FailedTestsMembers | backend/c2java-api/src/main/java/com/c2java/service/TestRunnerService.java:69-71 | the failed tests are exactly the trimmed lines holding "FAILED" |
| TestRunner.SummaryRoundTrip | backend/c2java-api/src/main/java/com/c2java/service/TestRunnerService.java:25-27 | Gradle's summary line for four int-sized numbers is read back as those numbers |
| CodeConverter.ActiveBackendRules | backend/c2java-api/src/main/java/com/c2java/service/CodeConverterService.java:96-122 | the CLI is asked only for "cursor" or "claude"; a null or empty answer, an exception or unreadable settings fall back to the LLM |
| CodeConverter.DefaultToolIsLlm | backend/c2java-api/src/main/java/com/c2java/service/CodeConverterService.java:99-100 | settings without ACTIVE_CLI_TOOL mean aider, and the LLM does the conversion |
| CodeConverter.GeneratedRules | backend/c2java-api/src/main/java/com/c2java/service/CodeConverterService.java:127-321 | the generated files are exactly the planned names, each once, each holding the code for the last prompt under that name |
| CodeConverter.PlanNames | backend/c2java-api/src/main/java/com/c2java/service/CodeConverterService.java:127-321 | Pro*C plans `<base>Repository.java`, plus `<base>.java` iff there are structs; C source plans the service pair; a header plans a file per struct and enum and the constants iff there are defines; other types plan nothing |
| CodeConverter.ConvertProCFile | backend/c2java-api/src/main/java/com/c2java/service/CodeConverterService.java:146-202 | the map filled is the Pro*C plan's files |
| CodeConverter.ConvertCSourceFile | backend/c2java-api/src/main/java/com/c2java/service/CodeConverterService.java:207-255 | the map filled is the service and implementation files |
| CodeConverter.ConvertCHeaderFile | backend/c2java-api/src/main/java/com/c2java/service/CodeConverterService.java:260-321 | the map filled is the header plan's files, a later equal name overwriting an earlier one |
| CodeConverter.FileNamed | backend/c2java-api/src/main/java/com/c2java/service/CodeConverterService.java:127-133 | a found file is one of the sources and has that name; none is found only when no source has it |
| CodeConverter.ConvertByFileType | backend/c2java-api/src/main/java/com/c2java/service/CodeConverterService.java:127-141 | the files produced are those the conversion rule gives for the analysis's type |
| CodeConverter.FirstSuffix | backend/c2java-api/src/main/java/com/c2java/service/CodeConverterService.java:376-387 | the kind is decided by the first suffix in the fixed order that the name ends with |
| CodeConverter.PlannedFileTypes | backend/c2java-api/src/main/java/com/c2java/service/CodeConverterService.java:376-387 | the files planned as repository, service or constants are classified as that kind |
| CodeConverter.ServiceType | backend/c2java-api/src/main/java/com/c2java/service/CodeConverterService.java:376-387 | `<base>Service.java` is a service |
| CodeConverter.ServiceImplType | backend/c2java-api/src/main/java/com/c2java/service/CodeConverterService.java:376-387 | `<base>ServiceImpl.java` is a service implementation |
| CodeConverter.ConstantsType | backend/c2java-api/src/main/java/com/c2java/service/CodeConverterService.java:376-387 | `<base>Constants.java` is a constants class |
| CodeConverter.GradleFilesRules | backend/c2java-api/src/main/java/com/c2java/service/CodeConverterService.java:392-445 | build.gradle and settings.gradle are always produced; the wrapper files come only when no template read threw; application.yml comes iff its template exists |
| CodeConverter.WrappedRules | backend/c2java-api/src/main/java/com/c2java/service/CodeConverterService.java:420-440 | without a failed read the wrapper files follow the Gradle files and application.yml |
| CodeConverter.CaughtRules | backend/c2java-api/src/main/java/com/c2java/service/CodeConverterService.java:441-444 | the catch block always leaves the default build.gradle and settings.gradle |
| CodeConverter.ConvertCFiles | backend/c2java-api/src/main/java/com/c2java/service/CodeConverterService.java:38-91 | the result is the converted files, then the Gradle files, then the mapping file |
| CodeConverter.ConvertedFilesRules | backend/c2java-api/src/main/java/com/c2java/service/CodeConverterService.java:127-141 | one file's map has distinct names, among them every planned name |
| CodeConverter.ConversionRules | backend/c2java-api/src/main/java/com/c2java/service/CodeConverterService.java:38-91 | every planned name, build.gradle, settings.gradle and conversion-mapping.json are in the result, each once; the mapping counts every analyzed file and every target, and unless a target is named like the mapping, the result is the targets plus the mapping file |
| CodeConverter.ConversionKeys | backend/c2java-api/src/main/java/com/c2java/service/CodeConverterService.java:82-87 | the Gradle and mapping files are keys of the result, each once |
| CodeConverter.MappingRules | backend/c2java-api/src/main/java/com/c2java/service/CodeConverterService.java:326-371 | the totals are sums over the analyzed files; the target count is the files generated before the mapping |
| Llm.LlmConfig.constructor | backend/c2java-api/src/main/java/com/c2java/config/LlmProperties.java:37-43 | a provider starts with no url, key or model and 8192 tokens |
| Llm.LlmProperties.constructor | backend/c2java-api/src/main/java/com/c2java/config/LlmProperties.java:20-30 | qwen3 is active, and both providers are new, without a key and with 8192 tokens |
| Llm.ProviderNamed | backend/c2java-api/src/main/java/com/c2java/service/LlmService.java:136-146 | a rejected name is reported as "Unknown LLM provider: " followed by the name chosen |
| Llm.ProviderNamedRules | backend/c2java-api/src/main/java/com/c2java/service/LlmService.java:136-146 | a non-blank name selects a provider iff it is a case variant of "qwen3", "gpt_oss" or "gpt-oss", whatever the active provider |
| Llm.ProviderDefaultRules | backend/c2java-api/src/main/java/com/c2java/service/LlmService.java:137-138 | a null or blank name defers to the active provider |
| Llm.ConfigFor | backend/c2java-api/src/main/java/com/c2java/service/LlmService.java:136-146 | the settings object of the selected provider, or the error |
| Llm.OpeningFence | backend/c2java-api/src/main/java/com/c2java/service/LlmService.java:175-178 | the first "```java" when the reply holds one, otherwise the first "```", and -1 exactly when the reply holds no "```" |
| Llm.CodeBlock | backend/c2java-api/src/main/java/com/c2java/service/LlmService.java:175-186 | a block starts just after the first newline at or after the opening fence and stops at the first fence after it |
| Llm.ExtractJavaCode | backend/c2java-api/src/main/java/com/c2java/service/LlmService.java:173-190 | a reply without a code block is returned unchanged |
| Llm.ExtractIsSubstring | backend/c2java-api/src/main/java/com/c2java/service/LlmService.java:173-190 | the result is always a substring of the reply |
| Llm.ExtractWithoutFence | backend/c2java-api/src/main/java/com/c2java/service/LlmService.java:180-189 | a reply without a fence is returned unchanged |
| Llm.ExtractAgreesWithNewline | backend/c2java-api/src/main/java/com/c2java/service/LlmService.java:179-182 | the as-written and corrected readings differ only when no newline follows the fence |
| Llm.ExtractJavaReply | backend/c2java-api/src/main/java/com/c2java/service/LlmService.java:173-190 | round trip: a reply with one "```java" block gives back the trimmed code |
| Llm.ExtractPlainReply | backend/c2java-api/src/main/java/com/c2java/service/LlmService.java:173-190 | round trip for an untagged "```" block |
| Llm.ExtractNoNewlineReply | backend/c2java-api/src/main/java/com/c2java/service/LlmService.java:179-182 | as written, "A```java B```" yields "A", the text before the fence |
| Llm.ExtractAfterFence | backend/c2java-api/src/main/java/com/c2java/service/LlmService.java:173-190 | in the corrected reading, extracted code is the trimmed text from the first newline after the opening fence to the first fence after that newline |
| Cli.ExcerptRules | backend/c2java-api/src/main/java/com/c2java/service/CliService.java:155-159 | a text over 1000 characters is logged as its first and last 500 around the marker; a shorter one is logged whole |
| Cli.CursorDisabled | backend/c2java-api/src/main/java/com/c2java/service/CliService.java:111-117 | Cursor switched off returns null and reads, runs and logs nothing |
| Cli.CursorAnswer | backend/c2java-api/src/main/java/com/c2java/service/CliService.java:110-205 | a Cursor answer is non-empty and is the agent's trimmed output on exit 0 for the prompt built from the file |
| Cli.CursorPassesAnswer | backend/c2java-api/src/main/java/com/c2java/service/CliService.java:176-190 | a non-empty answer of the agent is always passed on |
| Cli.ClaudeRules | backend/c2java-api/src/main/java/com/c2java/service/CliService.java:214-329 | Claude answers nothing unless it is enabled and an API key is set; then, once the file is read and the API call returns, its answer is passed on as it came |
| Cli.ClaudeMayAnswerEmpty | backend/c2java-api/src/main/java/com/c2java/service/CliService.java:300-318 | an empty Claude answer is passed on as it is, where Cursor's would become null |
| Cli.OpenAiRules | backend/c2java-api/src/main/java/com/c2java/service/CliService.java:334-401 | OpenAI is off unless enabled with a key; then it returns the API's answer, or null on an exception |
| Cli.AiderRules | backend/c2java-api/src/main/java/com/c2java/service/CliService.java:67-86 | aider switched off answers null; switched on, it fails exactly when its command throws; the command carries "--no-auto-commits" iff auto commits are off, unless a caller value is that flag |
| Cli.ActiveCliRules | backend/c2java-api/src/main/java/com/c2java/service/CliService.java:411-433 | the lower-cased ACTIVE_CLI_TOOL picks cursor, claude, openai, fabric or aider; unset or unknown means aider |
| Cli.ActiveCliIgnoresCase | backend/c2java-api/src/main/java/com/c2java/service/CliService.java:414-415 | the tool name matches in any case |
| Cli.ConvertWithActiveCli | backend/c2java-api/src/main/java/com/c2java/service/CliService.java:406-433 | the answer is the active tool's, and exactly its log blocks are appended when a log is given |
| Cli.LogBuilder.constructor | backend/c2java-api/src/main/java/com/c2java/service/CliService.java:110 | a fresh log is empty |
| Cli.AnswerBounded | backend/c2java-api/src/main/java/com/c2java/service/CliService.java:176-180 | a logged answer is at most 1000 characters and the marker |
| Cli.CursorLogBounded | backend/c2java-api/src/main/java/com/c2java/service/CliService.java:155-180 | every block Cursor logs is bounded the same way |
| Cli.ClaudeLogBounded | backend/c2java-api/src/main/java/com/c2java/service/CliService.java:269-307 | every block Claude logs is bounded the same way |
| Cli.LoggedTextIsBounded | backend/c2java-api/src/main/java/com/c2java/service/CliService.java:406-433 | every prompt and answer the dispatch logs is cut to at most 1000 characters and the marker |
| Cli.LoadCliEnvVariablesAsWritten | backend/c2java-api/src/main/java/com/c2java/service/EnvSyncService.java:33-36 | as written, only the keys in the CLI key list can ever be loaded |
| Cli.CliNeverUsedAsWritten | backend/c2java-api/src/main/java/com/c2java/service/EnvSyncService.java:33-36 | with those keys Cursor, Claude and OpenAI never answer and the active tool is always aider |
| Cli.ConverterNeverUsesCliAsWritten | backend/c2java-api/src/main/java/com/c2java/service/CodeConverterService.java:99-100 | the same settings make every conversion fall back to the LLM |
| Cli.CursorSelectableWithCliKeys | backend/c2java-api/src/main/java/com/c2java/service/EnvSyncService.java:33-36 | with the switch keys admitted, saving "cursor" and enabling it is read back by both the CLI service and the converter |
| EnvSync.ParseLine | backend/c2java-api/src/main/java/com/c2java/service/EnvSyncService.java:94-101 | a parsed key is a non-empty run of key characters followed by '=' and the value is the rest |
| EnvSync.ParseLineOf | backend/c2java-api/src/main/java/com/c2java/service/EnvSyncService.java:94-101 | `key=value` without line breaks reads back as that key and value |
| EnvSync.EntryOf | backend/c2java-api/src/main/java/com/c2java/service/EnvSyncService.java:90-101 | a written line reads back as its key and its value with the trailing blanks trimmed |
| EnvSync.LoadEnvVariables | backend/c2java-api/src/main/java/com/c2java/service/EnvSyncService.java:83-116 | the loop's map is the requested keys' values from the file, and empty for a missing or unreadable file |
| EnvSync.LoadKeysValid | backend/c2java-api/src/main/java/com/c2java/service/EnvSyncService.java:94-109 | every loaded key is admitted by the key pattern |
| EnvSync.LoadIsLastValue | backend/c2java-api/src/main/java/com/c2java/service/EnvSyncService.java:94-109 | a requested key loads iff some line holds it, and a later line wins |
| EnvSync.SaveEnv | backend/c2java-api/src/main/java/com/c2java/service/EnvSyncService.java:128-184 | a missing file is left alone without an exception; a failed read or write is the RuntimeException "Failed to update environment file"; otherwise the file becomes the saved lines |
| EnvSync.SaveEnvVariables | backend/c2java-api/src/main/java/com/c2java/service/EnvSyncService.java:128-184 | the loops write every line rewritten in place, then the unmatched updates; a missing file is left alone and a failed read or write throws |
| EnvSync.AppendUnmatched | backend/c2java-api/src/main/java/com/c2java/service/EnvSyncService.java:169-175 | each update no line matched is appended, in update order |
| EnvSync.SaveKeepsOtherLines | backend/c2java-api/src/main/java/com/c2java/service/EnvSyncService.java:144-165 | blank, comment and non-matching lines and lines of keys not updated stay verbatim and in place |
| EnvSync.SaveRewritesUpdatedLines | backend/c2java-api/src/main/java/com/c2java/service/EnvSyncService.java:154-157 | a line holding an updated key becomes `key=newValue`, in place |
| EnvSync.SaveAppendsUnmatched | backend/c2java-api/src/main/java/com/c2java/service/EnvSyncService.java:169-175 | an update whose key no line holds is appended after the original lines |
| EnvSync.SaveAppendedLine | backend/c2java-api/src/main/java/com/c2java/service/EnvSyncService.java:169-175 | every line after the originals is an update no original line held |
| EnvSync.SaveIdempotent | backend/c2java-api/src/main/java/com/c2java/service/EnvSyncService.java:128-184 | with digits admitted in keys, saving the same updates twice equals saving them once |
| EnvSync.LoadAfterSave | backend/c2java-api/src/main/java/com/c2java/service/EnvSyncService.java:83-184 | after a save, a requested updated key loads as its new value, trailing blanks trimmed |
| EnvSync.DigitKeyNeverLoaded | backend/c2java-api/src/main/java/com/c2java/service/EnvSyncService.java:94 | as written, a key holding a digit is never read from the file |
| EnvSync.DigitKeyAppended | backend/c2java-api/src/main/java/com/c2java/service/EnvSyncService.java:140-175 | as written, saving such a key never finds its line and appends it once more |
| EnvSync.DigitKeySavedTwice | backend/c2java-api/src/main/java/com/c2java/service/EnvSyncService.java:140-175 | as written, each save of such a key lengthens the file by one line |
| EnvSync.DigitKeySavedOnce | backend/c2java-api/src/main/java/com/c2java/service/EnvSyncService.java:94-175 | with digits admitted, a saved QWEN3 key reads back and a second save changes nothing |
| EnvSync.ConfigKeyOf | backend/c2java-api/src/main/java/com/c2java/service/EnvSyncService.java:189-204 | a family's configuration key becomes the family's env prefix and the upper-cased ending, with '-' turned into '_' |
| EnvSync.EnvKeyOf | backend/c2java-api/src/main/java/com/c2java/service/EnvSyncService.java:209-234 | a family's env key becomes its namespace and the lower-cased ending with '-' |
| EnvSync.EnvKeyRoundTrip | backend/c2java-api/src/main/java/com/c2java/service/EnvSyncService.java:189-234 | for QWEN3_, GPT_OSS_, AIDER_ and FABRIC_ keys, env → config → env gives the key back |
| EnvSync.ActiveProviderRoundTrip | backend/c2java-api/src/main/java/com/c2java/service/EnvSyncService.java:192-193 | ACTIVE_LLM_PROVIDER and llm.active_provider convert into each other |
| Admin.MaskSensitive | backend/c2java-api/src/main/java/com/c2java/service/AdminService.java:537-542 | "****" for a missing or short value, else the first and last four characters around "****"; always holds '*' |
| Admin.MaskHidesMiddle | backend/c2java-api/src/main/java/com/c2java/service/AdminService.java:537-542 | two secrets agreeing on their first and last four characters look the same |
| Admin.View | backend/c2java-api/src/main/java/com/c2java/service/AdminService.java:412-421 | a provider is shown with its key masked and its other settings as stored |
| Admin.MergeRules | backend/c2java-api/src/main/java/com/c2java/service/AdminService.java:426-442 | a merge never stores a key holding '*', keeps the old key unless a new one is given, keeps tokens positive, and is idempotent |
| Admin.ResubmitIsNoOp | backend/c2java-api/src/main/java/com/c2java/service/AdminService.java:63-103 | submitting back what getLlmConfig showed changes nothing |
| Admin.MaskedKeyNeverStored | backend/c2java-api/src/main/java/com/c2java/service/AdminService.java:430 | a key with '*' in it never reaches the live settings |
| Admin.UpdateProviderConfig | backend/c2java-api/src/main/java/com/c2java/service/AdminService.java:426-442 | the live settings become the merge of the old ones and the submission |
| Admin.UpdateLlmConfig | backend/c2java-api/src/main/java/com/c2java/service/AdminService.java:88-103 | only the present sections are applied, and the returned view is that of the new settings |
| Admin.ChangeLlmProvider | backend/c2java-api/src/main/java/com/c2java/service/AdminService.java:74-83 | only "qwen3" and "gpt_oss" are accepted; anything else is an error and leaves the provider unchanged |
| Admin.AcceptedProviderResolves | backend/c2java-api/src/main/java/com/c2java/service/AdminService.java:74-79 | every accepted provider is one the LLM service can resolve |
| Admin.WorkerEnabledInfix | backend/c2java-api/src/main/java/com/c2java/service/AdminService.java:483-485 | no part of an enabled URL holds "localhost" |
| Admin.WorkerEnabledExamples | backend/c2java-api/src/main/java/com/c2java/service/AdminService.java:483-485 | only the "http://" spelling of a 192.168 address is excluded |
| Config.MaskValue | backend/c2java-api/src/main/java/com/c2java/service/ConfigService.java:92-97 | the configuration mask is the admin mask |
| Config.ConfigToMapMasksSecrets | backend/c2java-api/src/main/java/com/c2java/service/ConfigService.java:77-87 | a secret is shown masked (always holding '*'); any other value is shown as stored |
| Config.UpdatedRules | backend/c2java-api/src/main/java/com/c2java/service/ConfigService.java:57-72 | an unknown key is an IllegalArgumentException and a read-only one an IllegalStateException; otherwise only that value changes, and repeating the update changes nothing more |
| Config.ReadOnlyNeverChanges | backend/c2java-api/src/main/java/com/c2java/service/ConfigService.java:61-63 | a read-only record can never change |
| Config.ConfigRepository.constructor | backend/c2java-api/src/main/java/com/c2java/service/ConfigService.java:48-51 | the table starts as given, keyed by each record's own key |
| Config.ValueOf | backend/c2java-api/src/main/java/com/c2java/service/ConfigService.java:48-51 | a value is found exactly for a stored key whose value is not null, and it is the stored value |
| Config.ValueAfterUpdate | backend/c2java-api/src/main/java/com/c2java/service/ConfigService.java:48-72 | after a successful update the key reads back as the submitted value (nothing for a null), and other keys read as before |
| Config.ConfigRepository.GetConfigValue | backend/c2java-api/src/main/java/com/c2java/service/ConfigService.java:48-51 | a value is found exactly for a stored key whose value is not null, and it is the stored value |
| Config.ConfigRepository.UpdateConfig | backend/c2java-api/src/main/java/com/c2java/service/ConfigService.java:57-72 | the table becomes the update's result, or stays as it was with the exception returned |
| LocalServer.Timestamped | backend/c2java-api/src/main/java/com/c2java/service/LocalServerService.java:279-280 | a stored line opens with '[' and ends with the logged text |
| LocalServer.NewestRules | backend/c2java-api/src/main/java/com/c2java/service/LocalServerService.java:277-291 | after one more line the buffer holds at most 1000 lines, the new one last; only the oldest are dropped, and none while there is room |
| LocalServer.NewestIdempotent | backend/c2java-api/src/main/java/com/c2java/service/LocalServerService.java:288-290 | eviction bounds the buffer, and evicting twice is evicting once |
| LocalServer.ContainerNameRules | backend/c2java-api/src/main/java/com/c2java/service/LocalServerService.java:260-272 | "airflow" is the webserver container; "cli-service" and "cli" are c2java-cli, in any case; other names have none |
| LocalServer.ContainerNameIgnoresCase | backend/c2java-api/src/main/java/com/c2java/service/LocalServerService.java:261 | upper-casing a name never changes its container |
| LocalServer.ContainerNameExamples | backend/c2java-api/src/main/java/com/c2java/service/LocalServerService.java:260-272 | "AirFlow" and "CLI" have containers; "worker" has none |
| LocalServer.Tail | backend/c2java-api/src/main/java/com/c2java/service/LocalServerService.java:245-248 | the last min(n, size) lines of the buffer |
| LocalServer.LocalServerService.constructor | backend/c2java-api/src/main/java/com/c2java/service/LocalServerService.java:30-33 | no service has a buffer yet |
| LocalServer.LocalServerService.LogsOf | backend/c2java-api/src/main/java/com/c2java/service/LocalServerService.java:242 | a service's buffer, or none, never over the bound |
| LocalServer.LocalServerService.AppendLog | backend/c2java-api/src/main/java/com/c2java/service/LocalServerService.java:277-291 | the buffer becomes its newest 1000 lines after the timestamped line; every other buffer is kept and all stay bounded |
| LocalServer.LocalServerService.ClearLogs | backend/c2java-api/src/main/java/com/c2java/service/LocalServerService.java:296-299 | only that service's buffer is removed |
| LocalServer.LocalServerService.GetServiceLogs | backend/c2java-api/src/main/java/com/c2java/service/LocalServerService.java:231-255 | a container's logs come from Docker (100 lines by default, empty on an exception); otherwise the whole buffer for a missing or non-positive count, else its last lines |
| LocalServer.AppendedLineIsNewest | backend/c2java-api/src/main/java/com/c2java/service/LocalServerService.java:241-291 | a line just appended is the last one any positive count of logs shows |
| LocalServer.AirflowStatusRules | backend/c2java-api/src/main/java/com/c2java/service/LocalServerService.java:66-100 | Airflow runs iff both containers run; the three messages mark all, some or none running; an exception becomes the error |
| LocalServer.AirflowStatusSymmetric | backend/c2java-api/src/main/java/com/c2java/service/LocalServerService.java:72-90 | when both probes answer, swapping the containers changes nothing |
| Sorting.LessEqTotal | backend/c2java-api/src/main/java/com/c2java/service/RulesService.java:57 | any two names are ordered by `compareTo` one way or the other |
| Sorting.SortBy | backend/c2java-api/src/main/java/com/c2java/service/RulesService.java:57 | the sort's result is ordered by the key and is a permutation of its input |
| Sorting.SortByMembers | backend/c2java-api/src/main/java/com/c2java/service/RulesService.java:57 | sorting keeps exactly the elements of its input |
| Sorting.Insert | backend/c2java-api/src/main/java/com/c2java/service/RulesService.java:57 | inserting into a sorted list keeps it sorted and adds exactly that element |
| Rules.ValidNameIsPlainEntry | backend/c2java-api/src/main/java/com/c2java/service/RulesService.java:237-239 | a valid name is one directory entry: no separator, never "." or ".." |
| Rules.ValidNameExamples | backend/c2java-api/src/main/java/com/c2java/service/RulesService.java:237-239 | "springboot-3.2.5" and "nodejs_18" are valid; "", "-java" and "a/b" are not |
| Rules.SpringBootLabel | backend/c2java-api/src/main/java/com/c2java/service/RulesService.java:247-253 | the label starts with "Spring Boot " |
| Rules.SpringBootVersion | backend/c2java-api/src/main/java/com/c2java/service/RulesService.java:247-253 | after "Spring Boot " comes the version with each '-' as a space, cut to a slice that has only blanks and '-' around it; it is trimmed and holds no '-' |
| Rules.FormatRules | backend/c2java-api/src/main/java/com/c2java/service/RulesService.java:244-256 | a name starting with "springboot" in any case is "Spring Boot " and the trimmed rest after 10 characters with '-' as a space, and one starting with "spring-boot" the same after 11; the two prefixes never both apply; other names keep their length and every character except '-' and '_', which become spaces |
| Rules.FormatSpringBootExample | backend/c2java-api/src/main/java/com/c2java/service/RulesService.java:244-256 | "springboot-3.2.5" is shown as "Spring Boot 3.2.5" |
| Rules.FormatHyphenatedExample | backend/c2java-api/src/main/java/com/c2java/service/RulesService.java:250-253 | "Spring-Boot-3.2.5" is shown as "Spring Boot 3.2.5" |
| Rules.FormatPlainExample | backend/c2java-api/src/main/java/com/c2java/service/RulesService.java:255 | "nodejs_18-lts" is shown as "nodejs 18 lts" |
| Rules.InfoOf | backend/c2java-api/src/main/java/com/c2java/service/RulesService.java:261-275 | a language is described under its directory name and display name, and is complete iff it holds both rule files |
| Rules.FileContent | backend/c2java-api/src/main/java/com/c2java/service/RulesService.java:76-84 | a file's content is read exactly when the file exists |
| Rules.GetLanguageDetail | backend/c2java-api/src/main/java/com/c2java/service/RulesService.java:65-87 | an unknown language is an error; otherwise its info and the two files' contents |
| Rules.CreatedRules | backend/c2java-api/src/main/java/com/c2java/service/RulesService.java:92-112 | an invalid or taken name changes nothing; a created language holds both rule files and no other language changes |
| Rules.DeletedRules | backend/c2java-api/src/main/java/com/c2java/service/RulesService.java:117-128 | an unknown language is an error; after a delete the name is free and the files live on under a backup name that is itself a valid language name |
| Rules.SavedRules | backend/c2java-api/src/main/java/com/c2java/service/RulesService.java:133-176 | a save stores the new content, keeps the old content under the backup name and touches nothing else |
| Rules.ListLanguagesMembers | backend/c2java-api/src/main/java/com/c2java/service/RulesService.java:45-60 | the listing shows exactly the listed directories, each described by its own files |
| Rules.DirectoriesMembers | backend/c2java-api/src/main/java/com/c2java/service/RulesService.java:53-55 | the listing keeps exactly the listed entries that are language directories |
| Rules.ListLanguages | backend/c2java-api/src/main/java/com/c2java/service/RulesService.java:45-60 | the languages are listed sorted by directory name |
| Rules.CompleteDirectoriesMembers | backend/c2java-api/src/main/java/com/c2java/service/RulesService.java:204-216 | the available listing keeps exactly the listed directories holding both rule files |
| Rules.ListAvailableLanguages | backend/c2java-api/src/main/java/com/c2java/service/RulesService.java:197-221 | the available languages are listed sorted by display name |
| Rules.ListAvailableMembers | backend/c2java-api/src/main/java/com/c2java/service/RulesService.java:197-221 | users are offered exactly the listed directories holding both files, under their display names |
| Rules.CreatedIsAvailable | backend/c2java-api/src/main/java/com/c2java/service/RulesService.java:92-221 | a language just created is offered as soon as the directory lists it |
| Rules.RulesDirectory.constructor | backend/c2java-api/src/main/java/com/c2java/service/RulesService.java:45-60 | the directory starts with the given languages |
| Rules.RulesDirectory.CreateLanguage | backend/c2java-api/src/main/java/com/c2java/service/RulesService.java:92-112 | the directory becomes the create result and the reply is the new language's detail |
| Rules.RulesDirectory.DeleteLanguage | backend/c2java-api/src/main/java/com/c2java/service/RulesService.java:117-128 | the directory becomes the delete result, or stays with the error returned |
| Rules.RulesDirectory.SaveConversionRules | backend/c2java-api/src/main/java/com/c2java/service/RulesService.java:133-152 | the directory becomes the save result for conversion-rules.yaml |
| Rules.RulesDirectory.SaveProjectStructure | backend/c2java-api/src/main/java/com/c2java/service/RulesService.java:157-176 | the directory becomes the save result for project-structure.yaml |
| Mcp.ValidateConversion | mcp/mcp_server.py:110-146 | the endpoint's reply is the validation of the converted code |
| Mcp.ValidationRules | mcp/mcp_server.py:117-146 | missing code gives the single issue "No converted code provided"; otherwise valid iff it holds "package " and "public class ", each missing one reported once |
| Mcp.ValidStaysValid | mcp/mcp_server.py:129-146 | appending text to valid code keeps it valid |
| Mcp.AnnotationWarningExamples | mcp/mcp_server.py:138-140 | "Application" alone draws the annotation warning; naming the annotation silences it |
| Mcp.LineCount | mcp/mcp_server.py:97 | one more than the number of newlines |
| Mcp.LineCountJoin | mcp/mcp_server.py:97 | joining two texts with a newline adds their line counts |
| Mcp.EstimateMonotone | mcp/mcp_server.py:240-248 | the estimate depends only on the line count and never falls as it grows |
| Mcp.EstimateGrowsWithText | mcp/mcp_server.py:240-248 | adding text never lowers the estimate |
| Mcp.EstimateBands | mcp/mcp_server.py:240-248 | below 50 lines low, below 200 medium, else high, at the boundaries |
| Mcp.IncludesOf | mcp/mcp_server.py:200-206 | every include is a stripped line starting with "#include" |
| Mcp.ExtractIncludes | mcp/mcp_server.py:200-206 | the loop keeps the stripped include lines of the code, in order |
| Mcp.IncludesOfMembers | mcp/mcp_server.py:200-206 | a stripped line is kept iff it starts with "#include" |
| Mcp.NoHashNoIncludes | mcp/mcp_server.py:200-206 | code without '#' has no includes |
| Mcp.AnalyzeCode | mcp/mcp_server.py:86-106 | the reply counts one more line than newlines and every character of the code, and never more includes than lines |
| Mcp.StripIdempotent | mcp/mcp_server.py:204 | stripping a stripped line changes nothing |
| Mcp.AnalysisConsistent | mcp/mcp_server.py:86-106 | the complexity reported is the one the reported line count gives |

## Left out

- I/O is an input: file reads and writes, directory walks, Gradle and CLI processes, Docker, and the HTTP calls to the LLMs, Airflow and OpenAI/Claude. The model takes their results (text, lines, exit code, exception message).
- The Java regex engine is not modelled. Analyzer matches are given lists of start offsets and groups. Line-level patterns are written as scanners: the env key pattern, the test summary line and `:word`.
- Concurrency, `@Async`, `ConcurrentHashMap` and transaction isolation are not modelled. Everything runs sequentially.
- Rollback of `@Transactional` methods on a rethrown exception is not modelled. The catch blocks' writes are kept.
- The Airflow DAG registration and its polling in `startConversionWithJob` are workflow glue and are left out.
- Authentication is an input: the current user id and the admin flag.
- Floating point is left out: LLM temperature, statistics ratios and complexity scores.
- Log message wording is paraphrased in English in the pipeline, conversion and CLI modules. The local-server Airflow messages keep their Korean text. No claim depends on the wording.
- Prompt text and JSON rendering are left out: the LLM prompts, `toJson`, and the result maps' other entries.
- Time stamps are inputs: `completedAt`, `updatedAt`, the log-line time stamp and the backup suffixes' milliseconds.
- Iteration order of `HashMap` and of directory listings is an input. Env updates are a sequence with distinct keys. A directory listing is a given sequence of entry names.
- `Files.write` line separators are not modelled. A file is its list of lines.
- Case mapping is ASCII only. Python's `strip` is modelled on ASCII whitespace.
- The template text of the default rules files is a parameter of `Rules.Created`.
- `languageToMap`'s file sizes and modification times are not modelled.
- `resolveRulesPath` and a missing rules directory are not modelled. `listLanguages` would create the directory and return nothing.
- Only directories are modelled in the rules directory. A language name is a single entry (`Rules.ValidNameIsPlainEntry`), so path traversal through other names is not modelled.
- `getLanguageDetail` on an entry that exists but is not a directory is not modelled.
- `ConfigService.getAllConfigs` and `getConfigsByCategory` are repository queries and their ordering is not modelled. The update's log line and null `isSecret`/`isEditable` flags are not modelled either.
- `LocalServerService.appendLog` is private and no shown method calls it. It is modelled as the class's method with the time stamp as a parameter.
- `getServiceStatus`, start/stop and `getCliServiceStatus` only delegate to Docker and are left out.
- The Airflow status map's entries other than running, message and error are left out.
- In the MCP helper, `extract_functions` and `extract_structs` are regex-based and are left out. `extract_globals` always returns an empty list. The prompt builders and `health` are also left out.
- `TestRunnerService.runTestClass` and `analyzeCoverage` repeat `runTests` over another command and are left out.
- `GradleBuildService.generateBuildGradle`, `CodeConverterService.generateGradlew*` and `ensureGradleStructure` are template text and are left out.
- `CliService.executeCommand`, `executeCommandWithStdin` and `testCliConnection` are process and HTTP plumbing. Their outcomes are inputs.
- `CliService`'s unused `cursorCliEnabled`/`cursorCliPath` fields are left out.
- The API `max_tokens` and temperature of the CLI HTTP calls are left out.
- `Jobs.ConversionJob.IncrementCompileAttempts`: the compile attempt counter is an unbounded integer; Java's `Integer` wrap-around at 2^31 is not modelled.
- `Pipeline.ConvertStep`: a concurrent cancel is modelled by an input flag, namely what the re-read of the job reports.
- `Conversion.CreateConversionJob`: the uploads' storage is an input, namely the directory or the storage service's IOException.
- `TestRunner.ReadOutput`: the four totals are unbounded sums. Java's `int` accumulators (TestRunnerService.java:48-51, 62-65) wrap at 2^31, so two summary lines of 2147483647 failures would wrap and could make `failures == 0` hold. `TestRunner.Tally`, `TestRunner.RunTests` and `TestRunner.ReportRules` share this.
- `PipelineFiles.ConvertFile`, `PipelineFiles.ConvertOn` and `PipelineFiles.ConvertFileSpec` take the converter's output to be non-empty (`PipelineFiles.FromConverter`), because `convertCFiles` always adds `build.gradle`, `settings.gradle` and `conversion-mapping.json` (`CodeConverter.ConversionKeys`). An empty map would make `iterator().next()` throw with a null message, and the catch block's `Map.of` would then throw too; that path is not modelled.
- Exception messages are taken to be non-null strings. A null message would make the per-file catch blocks' `Map.of(..., "error", e.getMessage())` throw, and likewise `List.of(e.getMessage())` in `GradleBuildService.compileOnly` (`GradleBuild.CompileOnly`).
- The message of the null-path NullPointerException is the fixed text "NullPointerException" (`NullPathMessage` in `Pipeline`). It stands for the JDK's message for `Paths.get(null)`, whose exact wording is not modelled.
- `Rules.Deleted` and `Rules.Saved` report a taken backup name by that name. `FileAlreadyExistsException.getMessage()` gives the full resolved path, and the rules root is not modelled.
- `Cli.Excerpt` counts characters as Unicode scalar values. Java's `length()` and `substring` count UTF-16 code units (CliService.java:155-156, 176-177), so text with characters outside the Basic Multilingual Plane is cut at other places.
- `Admin.MaskSensitive` and `Config.MaskValue` count and cut characters as Unicode scalar values. Java's `length()` and `substring` (AdminService.java:538-541, ConfigService.java:93-96) count UTF-16 code units, so a value with characters outside the Basic Multilingual Plane is masked at other places.
- `Sorting.LessEq` compares Unicode scalar values. Java's `compareTo` (RulesService.java:57, 218) compares UTF-16 code units, which orders characters above U+FFFF differently from some characters in U+E000-U+FFFF.
- `EnvSync.SaveEnvVariables`: a failed write is modelled as the exception alone. What a partly written file holds afterwards is not modelled.
- `FileConversionResult.java` is not part of this model. Its mutators are assumed as described above.

## Findings

| source | as written | input that shows it | evidently intended | confidence | as-written member | corrected member |
|---|---|---|---|---|---|---|
| backend/c2java-api/src/main/java/com/c2java/service/CompileService.java:63-92 | `executor.execute` uses commons-exec's default exit value 0, so a failing Gradle build throws and lands in the catch block; the `exitCode != 0` branch and the fix request are unreachable | a first attempt whose build exits 1 with one compiler error | a failed build is recorded with its error text and the CLI is asked for a fix while attempts remain | not executed | Compile.AsWrittenNeverFixes, Compile.FailedBuildCounterexample | Compile.AttemptOutcomeRules, Compile.CompileAndTest |
| backend/c2java-api/src/main/java/com/c2java/service/EnvSyncService.java:33-36 | the CLI key set lacks ACTIVE_CLI_TOOL, CURSOR_CLI_ENABLED and CLAUDE_CLI_ENABLED, so they are never loaded | an env file holding `ACTIVE_CLI_TOOL=cursor` and `CURSOR_CLI_ENABLED=true` | the switches saved in the env file select and enable the CLI | not executed | Cli.CliNeverUsedAsWritten, Cli.ConverterNeverUsesCliAsWritten | Cli.CursorSelectableWithCliKeys |
| backend/c2java-api/src/main/java/com/c2java/service/EnvSyncService.java:94 | the key pattern `[A-Z_]+` admits no digits, so QWEN3_* lines are never loaded and each save appends them again | a file with `QWEN3_API_KEY=k`, saved with the same update twice | keys with digits load, and saving is idempotent | not executed | EnvSync.DigitKeyNeverLoaded, EnvSync.DigitKeySavedTwice | EnvSync.DigitKeySavedOnce, EnvSync.SaveIdempotent |
| backend/c2java-api/src/main/java/com/c2java/service/LlmService.java:179-182 | when no newline follows the opening fence, `indexOf` gives -1 and the code is taken from offset 0, before the fence | the reply "A```java B```" gives "A" | the reply is returned unchanged, as when there is no block | not executed | Llm.ExtractNoNewlineReply | Llm.ExtractJavaCode, Llm.ExtractAfterFence |
