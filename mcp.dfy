/**
 * The MCP server's checks on text: the conversion-result validator, the
 * include extractor, the line-count complexity estimate, and the line and
 * character counts of the analysis endpoint.
 */
module Mcp {
  import opened Wrappers
  import opened Strings

  // ---------------------------------------------------------------------------
  // validate_conversion
  // ---------------------------------------------------------------------------

  const NoCode := "No converted code provided"
  const MissingPackage := "Missing package declaration"
  const MissingClass := "Missing public class declaration"
  const NoImports := "No import statements found"
  const AddAnnotation := "Consider adding @SpringBootApplication annotation"

  /** The validator's answer; the reply for missing code has no warnings entry at all. */
  datatype Validation = Validation(valid: bool, issues: seq<string>, warnings: Option<seq<string>>)

  /** What the validator demands of the code: a package and a public class declaration. */
  predicate Declares(code: string)
  {
    Contains(code, "package ") && Contains(code, "public class ")
  }

  /** The issues of non-empty code, in the order they are checked. */
  function IssuesOf(code: string): seq<string>
  {
    (if Contains(code, "package ") then [] else [MissingPackage])
    + (if Contains(code, "public class ") then [] else [MissingClass])
  }

  /** The warnings of non-empty code, in the order they are checked. */
  function WarningsOf(code: string): seq<string>
  {
    (if Contains(code, "import ") then [] else [NoImports])
    + (if !Contains(code, "@SpringBootApplication") && Contains(code, "Application") then [AddAnnotation] else [])
  }

  /** `validate_conversion` on the `converted_code` field (null and "" both count as missing). */
  function ValidationOf(convertedCode: Option<string>): Validation
  {
    if convertedCode.None? || convertedCode.value == "" then Validation(false, [NoCode], None)
    else
      var issues := IssuesOf(convertedCode.value);
      Validation(issues == [], issues, Some(WarningsOf(convertedCode.value)))
  }

  /** The endpoint itself, appending to its two lists as it checks. */
  method ValidateConversion(convertedCode: Option<string>) returns (r: Validation)
    ensures r == ValidationOf(convertedCode)
  {
    if convertedCode.None? || convertedCode.value == "" {
      return Validation(false, [NoCode], None);
    }
    var issues: seq<string> := [];
    var warnings: seq<string> := [];
    var code := convertedCode.value;
    if !Contains(code, "package ") {
      issues := issues + [MissingPackage];
    }
    if !Contains(code, "import ") {
      warnings := warnings + [NoImports];
    }
    if !Contains(code, "public class ") {
      issues := issues + [MissingClass];
    }
    if !Contains(code, "@SpringBootApplication") && Contains(code, "Application") {
      warnings := warnings + [AddAnnotation];
    }
    assert issues == IssuesOf(code);
    assert warnings == WarningsOf(code);
    r := Validation(|issues| == 0, issues, Some(warnings));
  }

  /**
   * Code is valid exactly when it is present, non-empty and declares a
   * package and a public class; each missing declaration is reported once,
   * and only those two ever count as issues.
   */
  lemma ValidationRules(convertedCode: Option<string>)
    ensures var r := ValidationOf(convertedCode);
      && (r.valid <==> r.issues == [])
      && (r.valid <==> convertedCode.Some? && convertedCode.value != "" && Declares(convertedCode.value))
      && (convertedCode.None? || convertedCode.value == "" ==> r.issues == [NoCode] && r.warnings.None?)
      && (convertedCode.Some? && convertedCode.value != "" ==>
            && |r.issues| <= 2
            && (MissingPackage in r.issues <==> !Contains(convertedCode.value, "package "))
            && (MissingClass in r.issues <==> !Contains(convertedCode.value, "public class "))
            && (forall i :: i in r.issues ==> i in {MissingPackage, MissingClass})
            && r.warnings.Some?
            && (NoImports in r.warnings.value <==> !Contains(convertedCode.value, "import "))
            && (AddAnnotation in r.warnings.value <==>
                  Contains(convertedCode.value, "Application") && !Contains(convertedCode.value, "@SpringBootApplication"))
            && (forall w :: w in r.warnings.value ==> w in {NoImports, AddAnnotation}))
  {
    assert MissingPackage != MissingClass;
    assert NoImports != AddAnnotation;
  }

  /** Text that occurs in `a` still occurs once more text follows. */
  lemma ContainsExtend(a: string, b: string, p: string)
    requires Contains(a, p)
    ensures Contains(a + b, p)
  {
    var i :| 0 <= i <= |a| && MatchAt(a, p, i);
    assert (a + b)[i..i + |p|] == a[i..i + |p|];
    assert MatchAt(a + b, p, i);
  }

  /** Appending to valid code keeps it valid: the validator only ever asks for text to be present. */
  lemma ValidStaysValid(code: string, more: string)
    requires ValidationOf(Some(code)).valid
    ensures ValidationOf(Some(code + more)).valid
  {
    ContainsExtend(code, more, "package ");
    ContainsExtend(code, more, "public class ");
  }

  /** "Application" alone draws the annotation warning; naming the annotation silences it. */
  lemma AnnotationWarningExamples()
    ensures AddAnnotation in ValidationOf(Some("class Application")).warnings.value
    ensures AddAnnotation !in ValidationOf(Some("@SpringBootApplication")).warnings.value
  {
    var s := "class Application";
    assert s == "class " + "Application" + "";
    MatchInside("class ", "Application", "");
    assert |s| < |"@SpringBootApplication"|;
    assert forall i :: 0 <= i <= |s| ==> !MatchAt(s, "@SpringBootApplication", i);
    var t := "@SpringBootApplication";
    assert MatchAt(t, "@SpringBootApplication", 0);
  }

  // ---------------------------------------------------------------------------
  // Lines
  // ---------------------------------------------------------------------------

  /** `len(code.split('\n'))`: one more than the number of newlines. */
  function LineCount(code: string): (n: nat)
    ensures n == CountChar(code, '\n') + 1
  {
    |SplitOn(code, '\n')|
  }

  /** Lines add up when texts are joined with a newline. */
  lemma LineCountJoin(a: string, b: string)
    ensures LineCount(a + "\n" + b) == LineCount(a) + LineCount(b)
  {
    CountCharAppend(a, "\n", '\n');
    CountCharAppend(a + "\n", b, '\n');
  }

  datatype Complexity = Low | Medium | High
  {
    /** The label the endpoint returns. */
    function Label(): string
    {
      match this
      case Low => "low"
      case Medium => "medium"
      case High => "high"
    }

    function Rank(): nat
    {
      match this
      case Low => 0
      case Medium => 1
      case High => 2
    }
  }

  /** `estimate_complexity`: under 50 lines is low, under 200 medium, anything longer high. */
  function EstimateComplexity(code: string): (c: Complexity)
  {
    var lines := LineCount(code);
    if lines < 50 then Low else if lines < 200 then Medium else High
  }

  /** The estimate is decided by the line count and grows with it. */
  lemma EstimateMonotone(a: string, b: string)
    requires LineCount(a) <= LineCount(b)
    ensures EstimateComplexity(a).Rank() <= EstimateComplexity(b).Rank()
    ensures LineCount(a) == LineCount(b) ==> EstimateComplexity(a) == EstimateComplexity(b)
  {
  }

  /** Adding text never lowers the estimate. */
  lemma EstimateGrowsWithText(a: string, b: string)
    ensures EstimateComplexity(a).Rank() <= EstimateComplexity(a + b).Rank()
  {
    CountCharAppend(a, b, '\n');
    EstimateMonotone(a, a + b);
  }

  /** The three bands, at their boundaries. */
  lemma EstimateBands(code: string)
    ensures EstimateComplexity(code) == Low <==> CountChar(code, '\n') < 49
    ensures EstimateComplexity(code) == High <==> CountChar(code, '\n') >= 199
    ensures EstimateComplexity(code).Label() in {"low", "medium", "high"}
  {
  }

  // ---------------------------------------------------------------------------
  // extract_includes
  // ---------------------------------------------------------------------------

  /** The stripped lines that start with "#include", in order. */
  function IncludesOf(lines: seq<string>): (r: seq<string>)
    ensures |r| <= |lines|
    ensures forall k :: 0 <= k < |r| ==> StartsWith(r[k], "#include") && Strip(r[k]) == r[k]
  {
    if lines == [] then []
    else
      var rest := IncludesOf(lines[..|lines| - 1]);
      var line := Strip(lines[|lines| - 1]);
      if StartsWith(line, "#include") then
        StripIdempotent(lines[|lines| - 1]);
        rest + [line]
      else rest
  }

  lemma {:induction false} StripIdempotent(s: string)
    ensures Strip(Strip(s)) == Strip(s)
    decreases |s|
  {
    if s != [] && IsWhitespace(s[0]) {
      StripIdempotent(s[1..]);
    } else if s != [] && IsWhitespace(s[|s| - 1]) {
      StripIdempotent(s[..|s| - 1]);
    }
  }

  lemma IncludesOfSnoc(lines: seq<string>, line: string)
    ensures IncludesOf(lines + [line]) ==
      IncludesOf(lines) + (if StartsWith(Strip(line), "#include") then [Strip(line)] else [])
  {
    assert (lines + [line])[..|lines|] == lines;
  }

  /** `extract_includes`: walks the lines of the code and keeps the include directives. */
  method ExtractIncludes(code: string) returns (includes: seq<string>)
    ensures includes == IncludesOf(SplitOn(code, '\n'))
  {
    var lines := SplitOn(code, '\n');
    includes := [];
    for i := 0 to |lines|
      invariant includes == IncludesOf(lines[..i])
    {
      IncludesOfSnoc(lines[..i], lines[i]);
      assert lines[..i + 1] == lines[..i] + [lines[i]];
      var stripped := Strip(lines[i]);
      if StartsWith(stripped, "#include") {
        includes := includes + [stripped];
      }
    }
    assert lines[..|lines|] == lines;
  }

  /** Every line that is an include directive once stripped is kept, and nothing else. */
  lemma {:induction false} IncludesOfMembers(lines: seq<string>, s: string)
    ensures s in IncludesOf(lines) <==> StartsWith(s, "#include") && exists line :: line in lines && Strip(line) == s
  {
    if lines != [] {
      var init := lines[..|lines| - 1];
      var last := lines[|lines| - 1];
      IncludesOfMembers(init, s);
      assert lines == init + [last];
      IncludesOfSnoc(init, last);
      if s in IncludesOf(lines) && s !in IncludesOf(init) {
        assert s == Strip(last) && last in lines;
      }
      if StartsWith(s, "#include") && exists line :: line in lines && Strip(line) == s {
        var line :| line in lines && Strip(line) == s;
        if line !in init {
          assert line == last;
        }
      }
    }
  }

  /** Code without a '#' has no includes. */
  lemma NoHashNoIncludes(code: string)
    requires '#' !in code
    ensures IncludesOf(SplitOn(code, '\n')) == []
  {
    var lines := SplitOn(code, '\n');
    if IncludesOf(lines) != [] {
      var s := IncludesOf(lines)[0];
      IncludesOfMembers(lines, s);
      var line :| line in lines && Strip(line) == s;
      assert s[0] == '#';
      StripKeepsChars(line, '#');
      LineInSplit(code, line, '#');
    }
  }

  /** Stripping only removes characters. */
  lemma {:induction false} StripKeepsChars(s: string, c: char)
    requires c in Strip(s)
    ensures c in s
    decreases |s|
  {
    if s != [] && IsWhitespace(s[0]) {
      StripKeepsChars(s[1..], c);
    } else if s != [] && IsWhitespace(s[|s| - 1]) {
      StripKeepsChars(s[..|s| - 1], c);
    }
  }

  /** A character of a piece of the split text is a character of the text. */
  lemma {:induction false} LineInSplit(code: string, line: string, c: char)
    requires line in SplitOn(code, '\n') && c in line
    ensures c in code
    decreases |code|
  {
    if code != [] {
      var rest := SplitOn(code[1..], '\n');
      if code[0] == '\n' {
        assert line in rest;
        LineInSplit(code[1..], line, c);
      } else if line == [code[0]] + rest[0] {
        if c != code[0] {
          assert c in rest[0];
          LineInSplit(code[1..], rest[0], c);
        }
      } else {
        assert line in rest[1..];
        LineInSplit(code[1..], line, c);
      }
    }
  }

  // ---------------------------------------------------------------------------
  // analyze_code
  // ---------------------------------------------------------------------------

  /** The parts of `analyze_code`'s answer that do not need the regex engine. */
  datatype Analysis = Analysis(lineCount: nat, charCount: nat, includes: seq<string>, complexity: Complexity)

  function AnalyzeCode(sourceCode: string): (a: Analysis)
    ensures a.lineCount == CountChar(sourceCode, '\n') + 1 && a.charCount == |sourceCode|
    ensures |a.includes| <= a.lineCount
  {
    Analysis(LineCount(sourceCode), |sourceCode|, IncludesOf(SplitOn(sourceCode, '\n')), EstimateComplexity(sourceCode))
  }

  /** The estimate reported is the one the reported line count gives. */
  lemma AnalysisConsistent(sourceCode: string)
    ensures var a := AnalyzeCode(sourceCode);
      a.complexity == (if a.lineCount < 50 then Low else if a.lineCount < 200 then Medium else High)
  {
  }
}
