/**
 * TestRunnerService.runTests: reading gradle's test summary lines and the
 * FAILED lines out of the output of `gradlew test`. The process is an
 * input, as in GradleBuild.
 */
module TestRunner {
  import opened Wrappers
  import opened Strings
  import opened Seqs
  import opened GradleBuild

  const RunLabel := "Tests run: "
  const FailuresLabel := ", Failures: "
  const ErrorsLabel := ", Errors: "
  const SkippedLabel := ", Skipped: "
  const FailedMarker := "FAILED"
  const ExecutionFailedPrefix := "Test execution failed: "

  /** Integer.MAX_VALUE: a larger group makes Integer.parseInt throw. */
  const Int32Max := 0x7fff_ffff

  // ---------------------------------------------------------------------------
  // The pattern `Tests run: (\d+), Failures: (\d+), Errors: (\d+), Skipped: (\d+)`
  // ---------------------------------------------------------------------------

  /** The literal before each of the pattern's four digit groups. */
  const Labels := [RunLabel, FailuresLabel, ErrorsLabel, SkippedLabel]

  datatype Counts = Counts(run: nat, failures: nat, errors: nat, skipped: nat)
  {
    function Plus(d: Counts): Counts
    {
      Counts(run + d.run, failures + d.failures, errors + d.errors, skipped + d.skipped)
    }
  }

  /** The length of the run of ASCII digits (`\d`) starting at `i`. */
  function DigitRun(s: string, i: nat): (n: nat)
    requires i <= |s|
    ensures i + n <= |s|
    decreases |s| - i
  {
    if i < |s| && IsDigit(s[i]) then 1 + DigitRun(s, i + 1) else 0
  }

  /** The run is all digits and is not followed by one. */
  lemma {:induction false} DigitRunSpec(s: string, i: nat)
    requires i <= |s|
    ensures var n := DigitRun(s, i);
      AllDigits(s[i..i + n]) && (i + n == |s| || !IsDigit(s[i + n]))
    decreases |s| - i
  {
    if i < |s| && IsDigit(s[i]) {
      var n := DigitRun(s, i);
      DigitRunSpec(s, i + 1);
      assert s[i..i + n] == [s[i]] + s[i + 1..i + n];
    }
  }

  /**
   * `tag(\d+)` at `i`: the digits and where they end. Each `\d+` of the
   * pattern is followed by a non-digit or ends it, so the group is the whole
   * digit run and no other split of the text can match.
   */
  function LabelledNumber(s: string, i: nat, tag: string): Option<(string, nat)>
  {
    if !MatchAt(s, tag, i) then None
    else
      var n := DigitRun(s, i + |tag|);
      if n == 0 then None else Some((s[i + |tag|..i + |tag| + n], i + |tag| + n))
  }

  /** The digit groups after the tags, matched one after another from `i`. */
  function GroupsFrom(s: string, i: nat, tags: seq<string>): Option<seq<string>>
    decreases |tags|
  {
    if tags == [] then Some([])
    else
      match LabelledNumber(s, i, tags[0])
      case None => None
      case Some((g, j)) =>
        match GroupsFrom(s, j, tags[1..])
        case None => None
        case Some(gs) => Some([g] + gs)
  }

  /** A match has one group per tag, each a run of digits. */
  lemma {:induction false} GroupsFromShape(s: string, i: nat, tags: seq<string>)
    requires GroupsFrom(s, i, tags).Some?
    ensures var gs := GroupsFrom(s, i, tags).value;
      |gs| == |tags| && forall k :: 0 <= k < |gs| ==> AllDigits(gs[k])
    decreases |tags|
  {
    if tags != [] {
      var (_, j) := LabelledNumber(s, i, tags[0]).value;
      DigitRunSpec(s, i + |tags[0]|);
      GroupsFromShape(s, j, tags[1..]);
    }
  }

  /** Matcher.find(): the groups of the leftmost match at or after `i`. */
  function Find(s: string, i: nat): Option<seq<string>>
    requires i <= |s|
    decreases |s| - i
  {
    if GroupsFrom(s, i, Labels).Some? then GroupsFrom(s, i, Labels)
    else if i == |s| then None
    else Find(s, i + 1)
  }

  lemma {:induction false} FindShape(s: string, i: nat)
    requires i <= |s| && Find(s, i).Some?
    ensures var gs := Find(s, i).value;
      |gs| == 4 && forall k :: 0 <= k < |gs| ==> AllDigits(gs[k])
    decreases |s| - i
  {
    if GroupsFrom(s, i, Labels).Some? {
      GroupsFromShape(s, i, Labels);
    } else {
      FindShape(s, i + 1);
    }
  }

  /** NumberFormatException's message. */
  function NumberFormat(g: string): string
  {
    "For input string: \"" + g + "\""
  }

  /** Integer.parseInt of each group in turn; the first that exceeds an int throws. */
  function ParseAll(gs: seq<string>): Result<seq<nat>, string>
    requires forall k :: 0 <= k < |gs| ==> AllDigits(gs[k])
  {
    if gs == [] then Ok([])
    else if DigitsValue(gs[0]) > Int32Max then Err(NumberFormat(gs[0]))
    else
      match ParseAll(gs[1..])
      case Err(e) => Err(e)
      case Ok(ns) => Ok([DigitsValue(gs[0])] + ns)
  }

  lemma {:induction false} ParseAllLength(gs: seq<string>)
    requires forall k :: 0 <= k < |gs| ==> AllDigits(gs[k])
    ensures ParseAll(gs).Ok? ==> |ParseAll(gs).value| == |gs|
  {
    if gs != [] {
      ParseAllLength(gs[1..]);
    }
  }

  /** What one output line adds to the four counters: nothing, the parsed groups, or the parse exception. */
  function LineCounts(line: string): Result<Option<Counts>, string>
  {
    match Find(line, 0)
    case None => Ok(None)
    case Some(gs) =>
      FindShape(line, 0);
      ParseAllLength(gs);
      match ParseAll(gs)
      case Err(e) => Err(e)
      case Ok(ns) => Ok(Some(Counts(ns[0], ns[1], ns[2], ns[3])))
  }

  // ---------------------------------------------------------------------------
  // The fold over the lines
  // ---------------------------------------------------------------------------

  const Zero := Counts(0, 0, 0, 0)

  /** One line's effect on the counters, unless an earlier line has thrown. */
  function Step(acc: Result<Counts, string>, line: Result<Option<Counts>, string>): Result<Counts, string>
  {
    match acc
    case Err(e) => Err(e)
    case Ok(c) =>
      match line
      case Err(e) => Err(e)
      case Ok(None) => Ok(c)
      case Ok(Some(d)) => Ok(c.Plus(d))
  }

  /** The counters after the lines: sums over the summary lines, or the first parse exception. */
  function Tally(lines: seq<string>): Result<Counts, string>
  {
    if lines == [] then Ok(Zero) else Step(Tally(lines[..|lines| - 1]), LineCounts(lines[|lines| - 1]))
  }

  /** The trimmed lines containing "FAILED", in output order. */
  function FailedTests(lines: seq<string>): seq<string>
  {
    FlatMap(lines, FailedLine)
  }

  /** A line's contribution to the failed-test list: itself trimmed when it contains "FAILED". */
  function FailedLine(line: string): seq<string>
  {
    if Contains(line, FailedMarker) then [Trim(line)] else []
  }

  /** The result map of runTests. */
  datatype TestReport =
    | Completed(success: bool, total: int, passed: int, failed: int, errors: int, skipped: int,
                failedTests: seq<string>, output: string, exitCode: int)
      /** IOException or InterruptedException: success false, errors 1. */
    | ExecutionFailed(failedTests: seq<string>)
  {
    predicate Succeeded() { Completed? && success }
    function ErrorCount(): int { if Completed? then errors else 1 }
  }

  /** runTests; Err is a NumberFormatException, which is not caught and leaves the method. */
  function RunSpec(run: ProcessRun): Result<TestReport, string>
  {
    match run
    case Failed(m) => Ok(ExecutionFailed([ExecutionFailedPrefix + m]))
    case Finished(lines, code) =>
      match Tally(lines)
      case Err(e) => Err(e)
      case Ok(c) =>
        Ok(Completed(code == 0 && c.failures == 0 && c.errors == 0, c.run,
                     c.run - c.failures - c.errors - c.skipped, c.failures, c.errors, c.skipped,
                     FailedTests(lines), Transcript(lines), code))
  }

  lemma TallySnoc(lines: seq<string>, i: nat)
    requires i < |lines|
    ensures Tally(lines[..i + 1]) == Step(Tally(lines[..i]), LineCounts(lines[i]))
  {
    assert lines[..i + 1][..i] == lines[..i];
  }

  /** Reading one more line extends the tally, the failed-test list and the transcript by that line. */
  lemma ReadStep(seen: seq<string>, line: string, c: Counts, parsed: Result<Option<Counts>, string>)
    requires Tally(seen) == Ok(c) && parsed == LineCounts(line)
    ensures parsed.Err? ==> Tally(seen + [line]) == Err(parsed.error)
    ensures parsed.Ok? ==> Tally(seen + [line]) == Ok(if parsed.value.Some? then c.Plus(parsed.value.value) else c)
    ensures FailedTests(seen + [line]) == FailedTests(seen) + FailedLine(line)
    ensures Transcript(seen + [line]) == Transcript(seen) + line + "\n"
  {
    assert (seen + [line])[..|seen|] == seen;
    FlatMapSnoc(seen, line, FailedLine);
  }

  /** A run whose output prefix has thrown ends in that exception. */
  lemma ThrownRun(lines: seq<string>, i: nat, code: int, e: string)
    requires i <= |lines| && Tally(lines[..i]) == Err(e)
    ensures RunSpec(Finished(lines, code)) == Err(e)
  {
    TallyErrSticks(lines, i);
  }

  /** A run whose whole output tallies is reported from the four counters. */
  lemma CompletedRun(lines: seq<string>, code: int, run: nat, failures: nat, errors: nat, skipped: nat,
                     failedTests: seq<string>, output: string)
    requires Tally(lines) == Ok(Counts(run, failures, errors, skipped))
    requires failedTests == FailedTests(lines) && output == Transcript(lines)
    ensures RunSpec(Finished(lines, code))
         == Ok(Completed(code == 0 && failures == 0 && errors == 0, run, run - failures - errors - skipped,
                         failures, errors, skipped, failedTests, output, code))
  {
    var r := RunSpec(Finished(lines, code));
    assert r.Ok?;
    assert r.value.Completed?;
    assert r.value.total == run;
    assert r.value.success == (code == 0 && failures == 0 && errors == 0);
    assert r.value.failedTests == failedTests;
    assert r.value.output == output;
    assert r.value.passed == run - failures - errors - skipped;
    assert r.value.failed == failures && r.value.errors == errors && r.value.skipped == skipped && r.value.exitCode == code;
    var t := Completed(code == 0 && failures == 0 && errors == 0, run, run - failures - errors - skipped,
               failures, errors, skipped, failedTests, output, code);
    assert r.value == t;
  }

  /** Once a prefix of the output has thrown, the whole run has thrown the same exception. */
  lemma {:induction false} TallyErrSticks(lines: seq<string>, i: nat)
    requires i <= |lines| && Tally(lines[..i]).Err?
    ensures Tally(lines) == Tally(lines[..i])
    decreases |lines| - i
  {
    if i < |lines| {
      assert lines[..i + 1][..i] == lines[..i];
      TallyErrSticks(lines, i + 1);
    } else {
      assert lines[..i] == lines;
    }
  }

  /** runTests: the read loop updates the four counters and the failed-test list line by line. */
  method RunTests(run: ProcessRun) returns (r: Result<TestReport, string>)
    ensures r == RunSpec(run)
  {
    match run {
      case Failed(m) =>
        r := Ok(ExecutionFailed([ExecutionFailedPrefix + m]));
      case Finished(lines, exitCode) =>
        r := ReadOutput(lines, exitCode);
    }
  }

  /** The read loop of runTests over the lines the process printed, then the success rule. */
  method ReadOutput(lines: seq<string>, exitCode: int) returns (r: Result<TestReport, string>)
    ensures r == RunSpec(Finished(lines, exitCode))
  {
    var output := "";
    var failedTests: seq<string> := [];
    var testsRun: nat, failures: nat, errors: nat, skipped: nat := 0, 0, 0, 0;
    var i := 0;
    ghost var seen: seq<string> := [];
    while i < |lines|
      invariant 0 <= i <= |lines| && seen == lines[..i]
      invariant Tally(seen) == Ok(Counts(testsRun, failures, errors, skipped))
      invariant failedTests == FailedTests(seen)
      invariant output == Transcript(seen)
    {
      var line := lines[i];
      TakeSnoc(lines, i);
      output := output + line + "\n";
      var parsed := ScanLine(line);
      ReadStep(seen, line, Counts(testsRun, failures, errors, skipped), parsed);
      if parsed.Err? {
        assert Tally(lines[..i + 1]) == Err(parsed.error);
        ThrownRun(lines, i + 1, exitCode, parsed.error);
        return Err(parsed.error);
      }
      ghost var before := Counts(testsRun, failures, errors, skipped);
      if parsed.value.Some? {
        var c := parsed.value.value;
        testsRun := testsRun + c.run;
        failures := failures + c.failures;
        errors := errors + c.errors;
        skipped := skipped + c.skipped;
        assert Counts(testsRun, failures, errors, skipped) == before.Plus(c);
      }
      assert Tally(seen + [line]) == Ok(Counts(testsRun, failures, errors, skipped));
      if Contains(line, FailedMarker) {
        failedTests := failedTests + [Trim(line)];
      }
      seen := seen + [line];
      i := i + 1;
    }
    assert seen == lines;
    CompletedRun(lines, exitCode, testsRun, failures, errors, skipped, failedTests, output);
    var success := exitCode == 0 && failures == 0 && errors == 0;
    var passed := testsRun - failures - errors - skipped;
    r := Ok(Completed(success, testsRun, passed, failures, errors, skipped, failedTests, output, exitCode));
  }

  /** `matcher.find()` on one line and, on a match, Integer.parseInt of its four groups. */
  method ScanLine(line: string) returns (r: Result<Option<Counts>, string>)
    ensures r == LineCounts(line)
  {
    var found := Find(line, 0);
    if found.None? {
      return Ok(None);
    }
    FindShape(line, 0);
    ParseAllLength(found.value);
    var parsed := ParseAll(found.value);
    if parsed.Err? {
      return Err(parsed.error);
    }
    var ns := parsed.value;
    r := Ok(Some(Counts(ns[0], ns[1], ns[2], ns[3])));
  }

  // ---------------------------------------------------------------------------
  // Properties
  // ---------------------------------------------------------------------------

  /**
   * A completed run passed exactly when the exit code is 0 and no failure or
   * error was counted, and passed + failed + errors + skipped == total; a
   * process failure reports one error and never success.
   */
  lemma ReportRules(run: ProcessRun)
    requires RunSpec(run).Ok?
    ensures var t := RunSpec(run).value;
      && (t.Completed? ==>
            && (t.success <==> t.exitCode == 0 && t.failed == 0 && t.errors == 0)
            && t.passed + t.failed + t.errors + t.skipped == t.total
            && t.failedTests == FailedTests(run.lines))
      && (run.Failed? ==> !t.Succeeded() && t.ErrorCount() == 1 && |t.failedTests| == 1)
  {
  }

  /** A line adds the same amount whatever the counters held before. */
  lemma StepShift(c: Counts, y: Counts, line: Result<Option<Counts>, string>)
    requires Step(Ok(y), line).Ok?
    ensures Step(Ok(c.Plus(y)), line) == Ok(c.Plus(Step(Ok(y), line).value))
  {
  }

  /** The counters are sums over the lines: splitting the output anywhere adds up. */
  lemma {:induction false} TallyAppend(a: seq<string>, b: seq<string>)
    requires Tally(a).Ok? && Tally(b).Ok?
    ensures Tally(a + b) == Ok(Tally(a).value.Plus(Tally(b).value))
    decreases |b|
  {
    if b == [] {
      assert a + b == a;
    } else {
      var init := b[..|b| - 1];
      var last := b[|b| - 1];
      assert (a + b)[..|a + b| - 1] == a + init;
      assert (a + b)[|a + b| - 1] == last;
      assert Tally(b) == Step(Tally(init), LineCounts(last));
      TallyAppend(a, init);
      StepShift(Tally(a).value, Tally(init).value, LineCounts(last));
    }
  }

  /** The failed-test list holds exactly the trimmed FAILED lines. */
  lemma {:induction false} FailedTestsMembers(lines: seq<string>, x: string)
    ensures x in FailedTests(lines) <==> exists i :: 0 <= i < |lines| && Contains(lines[i], FailedMarker) && x == Trim(lines[i])
  {
    FlatMapMembers(lines, FailedLine, x);
    if exists i :: 0 <= i < |lines| && x in FailedLine(lines[i]) {
      var i :| 0 <= i < |lines| && x in FailedLine(lines[i]);
      InFailedLine(lines[i], x);
    }
    if exists i :: 0 <= i < |lines| && Contains(lines[i], FailedMarker) && x == Trim(lines[i]) {
      var i :| 0 <= i < |lines| && Contains(lines[i], FailedMarker) && x == Trim(lines[i]);
      InFailedLine(lines[i], x);
    }
  }

  /** A line contributes `x` exactly when it contains "FAILED" and trims to `x`. */
  lemma InFailedLine(line: string, x: string)
    ensures x in FailedLine(line) <==> Contains(line, FailedMarker) && x == Trim(line)
  {
  }

  // ---------------------------------------------------------------------------
  // A summary line is read back as the numbers it prints
  // ---------------------------------------------------------------------------

  /** The tags with the groups after them. */
  function Render(tags: seq<string>, gs: seq<string>): string
    requires |tags| == |gs|
  {
    if tags == [] then "" else tags[0] + gs[0] + Render(tags[1..], gs[1..])
  }

  /** Gradle's (JUnit's) summary line for the four numbers. */
  function SummaryLine(c: Counts): string
  {
    Render(Labels, [NatToString(c.run), NatToString(c.failures), NatToString(c.errors), NatToString(c.skipped)])
  }

  lemma {:induction false} DigitsOfNat(n: nat)
    ensures DigitsValue(NatToString(n)) == n
  {
    if n >= 10 {
      DigitsOfNat(n / 10);
      var s := NatToString(n);
      assert s[..|s| - 1] == NatToString(n / 10);
    }
  }

  lemma {:induction false} DigitRunOf(s: string, i: nat, g: string)
    requires i + |g| <= |s| && s[i..i + |g|] == g && AllDigits(g)
    requires i + |g| == |s| || !IsDigit(s[i + |g|])
    ensures DigitRun(s, i) == |g|
    decreases |g|
  {
    if g != [] {
      assert s[i] == g[0];
      assert s[i + 1..i + |g|] == g[1..];
      DigitRunOf(s, i + 1, g[1..]);
    }
  }

  /** `tag` then the digit run `g` at `i`, followed by a non-digit or the end, are read as `g`. */
  lemma LabelledNumberAt(s: string, i: nat, tag: string, g: string)
    requires i + |tag| + |g| <= |s| && AllDigits(g) && g != []
    requires s[i..i + |tag|] == tag && s[i + |tag|..i + |tag| + |g|] == g
    requires i + |tag| + |g| == |s| || !IsDigit(s[i + |tag| + |g|])
    ensures LabelledNumber(s, i, tag) == Some((g, i + |tag| + |g|))
  {
    DigitRunOf(s, i + |tag|, g);
  }

  /** Tags that start with a non-digit. */
  predicate Separating(tags: seq<string>)
  {
    forall k :: 0 <= k < |tags| ==> tags[k] != [] && !IsDigit(tags[k][0])
  }

  /** The tags and groups occur one after another from `i`. */
  ghost predicate RenderedAt(s: string, i: nat, tags: seq<string>, gs: seq<string>)
    requires |tags| == |gs|
    decreases |tags|
  {
    tags == []
    || (&& MatchAt(s, tags[0], i) && MatchAt(s, gs[0], i + |tags[0]|)
        && RenderedAt(s, i + |tags[0]| + |gs[0]|, tags[1..], gs[1..]))
  }

  /** Where the rendering occurs, its parts occur one after another. */
  lemma {:induction false} RenderedAtOf(s: string, i: nat, tags: seq<string>, gs: seq<string>)
    requires |tags| == |gs|
    requires var r := Render(tags, gs); i + |r| <= |s| && s[i..i + |r|] == r
    ensures RenderedAt(s, i, tags, gs)
    decreases |tags|
  {
    if tags != [] {
      var t, g, rest := tags[0], gs[0], Render(tags[1..], gs[1..]);
      assert Render(tags, gs) == t + g + rest;
      ThreeParts(s, i, t, g, rest);
      RenderedAtOf(s, i + |t| + |g|, tags[1..], gs[1..]);
    }
  }

  /** Rendered tags and digit groups at `i`, followed by a non-digit or the end, are matched back as those groups. */
  lemma {:induction false} GroupsFromRender(s: string, i: nat, tags: seq<string>, gs: seq<string>)
    requires |tags| == |gs| && Separating(tags)
    requires forall k :: 0 <= k < |gs| ==> AllDigits(gs[k]) && gs[k] != []
    requires RenderedAt(s, i, tags, gs)
    requires var e := i + |Render(tags, gs)|; e <= |s| && (e == |s| || !IsDigit(s[e]))
    ensures GroupsFrom(s, i, tags) == Some(gs)
    decreases |tags|
  {
    if tags != [] {
      var j := i + |tags[0]| + |gs[0]|;
      HeadGroup(s, i, tags, gs);
      TailRendered(s, i, tags, gs);
      GroupsFromRender(s, j, tags[1..], gs[1..]);
      GroupsFromStep(s, i, tags, gs[0], j, gs[1..]);
      assert [gs[0]] + gs[1..] == gs;
    }
  }

  /** The first group is read in full: the next tag or the end of the rendering follows it. */
  lemma HeadGroup(s: string, i: nat, tags: seq<string>, gs: seq<string>)
    requires |tags| == |gs| && tags != [] && Separating(tags)
    requires forall k :: 0 <= k < |gs| ==> AllDigits(gs[k]) && gs[k] != []
    requires RenderedAt(s, i, tags, gs)
    requires var e := i + |Render(tags, gs)|; e <= |s| && (e == |s| || !IsDigit(s[e]))
    ensures var j: nat := i + |tags[0]| + |gs[0]|; LabelledNumber(s, i, tags[0]) == Some((gs[0], j))
  {
    GroupFollowed(s, i, tags, gs);
    LabelledNumberAt(s, i, tags[0], gs[0]);
  }

  /** The first group ends the text or is followed by a non-digit. */
  lemma GroupFollowed(s: string, i: nat, tags: seq<string>, gs: seq<string>)
    requires |tags| == |gs| && tags != [] && Separating(tags)
    requires RenderedAt(s, i, tags, gs)
    requires var e := i + |Render(tags, gs)|; e <= |s| && (e == |s| || !IsDigit(s[e]))
    ensures var j := i + |tags[0]| + |gs[0]|; j <= |s| && (j == |s| || !IsDigit(s[j]))
  {
    var j := i + |tags[0]| + |gs[0]|;
    if |tags| > 1 {
      var u := tags[1];
      assert tags[1..][0] == u && MatchAt(s, u, j);
      assert s[j] == s[j..j + |u|][0] == u[0];
    } else {
      assert Render(tags, gs) == tags[0] + gs[0] + Render([], []);
    }
  }

  /** The remaining tags and groups satisfy the same conditions where the first group ends. */
  lemma TailRendered(s: string, i: nat, tags: seq<string>, gs: seq<string>)
    requires |tags| == |gs| && tags != [] && Separating(tags)
    requires forall k :: 0 <= k < |gs| ==> AllDigits(gs[k]) && gs[k] != []
    requires RenderedAt(s, i, tags, gs)
    requires var e := i + |Render(tags, gs)|; e <= |s| && (e == |s| || !IsDigit(s[e]))
    ensures var j := i + |tags[0]| + |gs[0]|;
      && Separating(tags[1..])
      && (forall k :: 0 <= k < |gs[1..]| ==> AllDigits(gs[1..][k]) && gs[1..][k] != [])
      && RenderedAt(s, j, tags[1..], gs[1..])
      && (var e := j + |Render(tags[1..], gs[1..])|; e <= |s| && (e == |s| || !IsDigit(s[e])))
  {
    assert |Render(tags, gs)| == |tags[0]| + |gs[0]| + |Render(tags[1..], gs[1..])|;
  }

  /** One tag's group followed by the groups of the remaining tags. */
  lemma GroupsFromStep(s: string, i: nat, tags: seq<string>, g: string, j: nat, rest: seq<string>)
    requires tags != [] && LabelledNumber(s, i, tags[0]) == Some((g, j))
    requires GroupsFrom(s, j, tags[1..]) == Some(rest)
    ensures GroupsFrom(s, i, tags) == Some([g] + rest)
  {
  }

  /** Where `t + g + rest` occurs, so do its three parts, one after another. */
  lemma ThreeParts(s: string, i: nat, t: string, g: string, rest: string)
    requires i + |t + g + rest| <= |s| && s[i..i + |t + g + rest|] == t + g + rest
    ensures var j := i + |t| + |g|;
      && s[i..i + |t|] == t && s[i + |t|..j] == g && s[j..j + |rest|] == rest
  {
    var r := t + g + rest;
    var n := |r|;
    SliceOfSlice(s, i, n, 0, |t|);
    SliceOfSlice(s, i, n, |t|, |t| + |g|);
    SliceOfSlice(s, i, n, |t| + |g|, n);
    assert r[..|t|] == t;
    assert r[|t|..|t| + |g|] == g;
    assert r[|t| + |g|..n] == rest;
  }

  /** A non-empty rendering starts with its first tag's first character. */
  lemma RenderStart(tags: seq<string>, gs: seq<string>)
    requires |tags| == |gs| && Separating(tags) && Render(tags, gs) != []
    ensures Render(tags, gs)[0] == tags[0][0]
  {
  }

  lemma ParseAllOf(ns: seq<nat>)
    requires forall k :: 0 <= k < |ns| ==> ns[k] <= Int32Max
    ensures var gs := seq(|ns|, k requires 0 <= k < |ns| => NatToString(ns[k]));
      (forall k :: 0 <= k < |gs| ==> AllDigits(gs[k])) && ParseAll(gs) == Ok(ns)
    decreases |ns|
  {
    var gs := seq(|ns|, k requires 0 <= k < |ns| => NatToString(ns[k]));
    if ns != [] {
      DigitsOfNat(ns[0]);
      ParseAllOf(ns[1..]);
      assert gs[1..] == seq(|ns[1..]|, k requires 0 <= k < |ns[1..]| => NatToString(ns[1..][k]));
      assert [ns[0]] + ns[1..] == ns;
    }
  }

  /** The summary line for numbers that fit an int is read back as those numbers. */
  lemma SummaryRoundTrip(c: Counts)
    requires c.run <= Int32Max && c.failures <= Int32Max && c.errors <= Int32Max && c.skipped <= Int32Max
    ensures LineCounts(SummaryLine(c)) == Ok(Some(c))
  {
    var gs := SummaryGroups(c);
    var s := SummaryLine(c);
    SummaryRendered(c);
    LabelsSeparating();
    GroupsFromRender(s, 0, Labels, gs);
    assert Find(s, 0) == Some(gs);
    SummaryParsed(c);
  }

  /** The four numbers as printed. */
  function SummaryGroups(c: Counts): seq<string>
  {
    [NatToString(c.run), NatToString(c.failures), NatToString(c.errors), NatToString(c.skipped)]
  }

  /** The summary line is the rendering of its groups, from its start to its end. */
  lemma SummaryRendered(c: Counts)
    ensures var gs := SummaryGroups(c);
      && (forall k :: 0 <= k < |gs| ==> AllDigits(gs[k]) && gs[k] != [])
      && RenderedAt(SummaryLine(c), 0, Labels, gs) && |Render(Labels, gs)| == |SummaryLine(c)|
  {
    var s := SummaryLine(c);
    assert s[0..|s|] == s;
    RenderedAtOf(s, 0, Labels, SummaryGroups(c));
  }

  lemma LabelsSeparating()
    ensures Separating(Labels)
  {
  }

  /** Each printed group parses back to its number. */
  lemma SummaryParsed(c: Counts)
    requires c.run <= Int32Max && c.failures <= Int32Max && c.errors <= Int32Max && c.skipped <= Int32Max
    ensures ParseAll(SummaryGroups(c)) == Ok([c.run, c.failures, c.errors, c.skipped])
  {
    var ns: seq<nat> := [c.run, c.failures, c.errors, c.skipped];
    var gs := seq(|ns|, k requires 0 <= k < |ns| => NatToString(ns[k]));
    assert gs == SummaryGroups(c);
    ParseAllOf(ns);
  }
}
