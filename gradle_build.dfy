/**
 * GradleBuildService: classifying the lines of a gradle run and deciding
 * success. The process is an input: the lines `readLine` returns and the
 * exit code, or the IOException/InterruptedException message.
 */
module GradleBuild {
  import opened Wrappers
  import opened Strings
  import opened Seqs

  datatype ProcessRun = Finished(lines: seq<string>, exitCode: int) | Failed(message: string)

  /**
   * The result map. `exitCode`, `output`, `warnings` and `warningCount` are
   * absent (None) when the process failed.
   */
  datatype BuildResult = BuildResult(
    success: bool,
    exitCode: Option<int>,
    output: Option<string>,
    errors: seq<string>,
    warnings: Option<seq<string>>,
    errorCount: nat,
    warningCount: Option<nat>)

  /** The compileOnly result map; `exitCode`, `output` and `errorCount` are absent when the process failed. */
  datatype CompileOnlyResult = CompileOnlyResult(
    success: bool,
    exitCode: Option<int>,
    output: Option<string>,
    errors: seq<string>,
    errorCount: Option<nat>)

  const ProcessFailedPrefix := "Build process failed: "

  predicate IsErrorLine(line: string)
  {
    Contains(line, "error:") || Contains(line, "ERROR")
  }

  /** A warning line is checked only once the line is known not to be an error line. */
  predicate IsWarningLine(line: string)
  {
    !IsErrorLine(line) && (Contains(line, "warning:") || Contains(line, "WARN"))
  }

  predicate IsCompileError(line: string)
  {
    Contains(line, "error:")
  }

  /** The captured output: every line followed by a newline. */
  function Transcript(lines: seq<string>): string
  {
    if lines == [] then "" else Transcript(lines[..|lines| - 1]) + lines[|lines| - 1] + "\n"
  }

  /** buildProject's result for a run. */
  function BuildSpec(run: ProcessRun): BuildResult
  {
    match run
    case Failed(m) => BuildResult(false, None, None, [ProcessFailedPrefix + m], None, 1, None)
    case Finished(lines, code) =>
      var errors := Filter(lines, IsErrorLine);
      var warnings := Filter(lines, IsWarningLine);
      BuildResult(code == 0 && errors == [], Some(code), Some(Transcript(lines)), errors, Some(warnings),
                  |errors|, Some(|warnings|))
  }

  /** compileOnly's result for a run. */
  function CompileOnlySpec(run: ProcessRun): CompileOnlyResult
  {
    match run
    case Failed(m) => CompileOnlyResult(false, None, None, [m], None)
    case Finished(lines, code) =>
      var errors := Filter(lines, IsCompileError);
      CompileOnlyResult(code == 0, Some(code), Some(Transcript(lines)), errors, Some(|errors|))
  }

  /** buildProject: the read loop sorts each line into errors, warnings or neither. */
  method BuildProject(run: ProcessRun) returns (r: BuildResult)
    ensures r == BuildSpec(run)
  {
    match run {
      case Failed(m) =>
        r := BuildResult(false, None, None, [ProcessFailedPrefix + m], None, 1, None);
      case Finished(lines, exitCode) =>
        var output := "";
        var errors: seq<string> := [];
        var warnings: seq<string> := [];
        var i := 0;
        while i < |lines|
          invariant 0 <= i <= |lines|
          invariant output == Transcript(lines[..i])
          invariant errors == Filter(lines[..i], IsErrorLine)
          invariant warnings == Filter(lines[..i], IsWarningLine)
        {
          var line := lines[i];
          assert lines[..i + 1] == lines[..i] + [line];
          FilterSnoc(lines[..i], line, IsErrorLine);
          FilterSnoc(lines[..i], line, IsWarningLine);
          assert lines[..i + 1][..i] == lines[..i];
          output := output + line + "\n";
          if IsErrorLine(line) {
            errors := errors + [line];
          } else if Contains(line, "warning:") || Contains(line, "WARN") {
            warnings := warnings + [line];
          }
          i := i + 1;
        }
        assert lines[..|lines|] == lines;
        var success := exitCode == 0 && errors == [];
        r := BuildResult(success, Some(exitCode), Some(output), errors, Some(warnings), |errors|, Some(|warnings|));
    }
  }

  /** compileOnly: the read loop keeps the lines containing "error:". */
  method CompileOnly(run: ProcessRun) returns (r: CompileOnlyResult)
    ensures r == CompileOnlySpec(run)
  {
    match run {
      case Failed(m) =>
        r := CompileOnlyResult(false, None, None, [m], None);
      case Finished(lines, exitCode) =>
        var output := "";
        var errors: seq<string> := [];
        for i := 0 to |lines|
          invariant output == Transcript(lines[..i])
          invariant errors == Filter(lines[..i], IsCompileError)
        {
          assert lines[..i + 1] == lines[..i] + [lines[i]];
          FilterSnoc(lines[..i], lines[i], IsCompileError);
          assert lines[..i + 1][..i] == lines[..i];
          output := output + lines[i] + "\n";
          if IsCompileError(lines[i]) {
            errors := errors + [lines[i]];
          }
        }
        assert lines[..|lines|] == lines;
        r := CompileOnlyResult(exitCode == 0, Some(exitCode), Some(output), errors, Some(|errors|));
    }
  }

  /**
   * No line is both an error and a warning; every output line lands in at
   * most one list; the counts are the list sizes; the build passed exactly
   * when the exit code is 0 and no line was an error line.
   */
  lemma BuildRules(run: ProcessRun, line: string)
    ensures var r := BuildSpec(run);
      && !(line in r.errors && r.warnings.Some? && line in r.warnings.value)
      && r.errorCount == |r.errors|
      && (r.warnings.Some? ==> r.warningCount == Some(|r.warnings.value|))
      && (run.Finished? ==>
            && |r.errors| + |r.warnings.value| <= |run.lines|
            && (line in r.errors <==> line in run.lines && IsErrorLine(line))
            && (line in r.warnings.value <==> line in run.lines && IsWarningLine(line))
            && (r.success <==> run.exitCode == 0 && forall i :: 0 <= i < |run.lines| ==> !IsErrorLine(run.lines[i])))
      && (run.Failed? ==> !r.success && |r.errors| == 1 && r.errorCount == 1)
  {
    if run.Finished? {
      FilterMembers(run.lines, IsErrorLine, line);
      FilterMembers(run.lines, IsWarningLine, line);
      FilterExtremes(run.lines, IsErrorLine);
      DisjointFilterSizes(run.lines);
    }
  }

  /** Error and warning lines are disjoint, so together they are at most all lines. */
  lemma {:induction false} DisjointFilterSizes(lines: seq<string>)
    ensures |Filter(lines, IsErrorLine)| + |Filter(lines, IsWarningLine)| <= |lines|
  {
    if lines != [] {
      DisjointFilterSizes(lines[..|lines| - 1]);
    }
  }

  /**
   * compileOnly passes exactly on exit code 0, even with "error:" lines;
   * buildProject would fail the same run when any such line is present.
   */
  lemma CompileOnlyIgnoresErrors(lines: seq<string>, code: int)
    ensures CompileOnlySpec(Finished(lines, code)).success <==> code == 0
    ensures CompileOnlySpec(Finished(lines, code)).errors != [] ==> !BuildSpec(Finished(lines, code)).success
  {
    var errs := Filter(lines, IsCompileError);
    if errs != [] {
      var x := errs[0];
      FilterMembers(lines, IsCompileError, x);
      FilterMembers(lines, IsErrorLine, x);
    }
  }
}
