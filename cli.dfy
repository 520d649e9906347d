/**
 * CliService: the external conversion tools (aider, fabric, the Cursor
 * agent, the Claude and OpenAI APIs), their enable flags, the dispatch on
 * ACTIVE_CLI_TOOL, and the excerpts written to the conversion log.
 * Files, processes and HTTP calls are values of a `World`.
 */
module Cli {
  import opened Wrappers
  import opened Strings
  import EnvSync
  import CodeConverter

  // ---------------------------------------------------------------------------
  // Log excerpts
  // ---------------------------------------------------------------------------

  const ExcerptLimit := 1000
  const ExcerptHalf := 500
  const Ellipsis := "\n...(중략)...\n"

  /** A text longer than 1000 characters is logged as its first and last 500 around a marker. */
  function Excerpt(t: string): string
  {
    if |t| > ExcerptLimit then t[..ExcerptHalf] + Ellipsis + t[|t| - ExcerptHalf..] else t
  }

  /**
   * An excerpt is never longer than 1000 characters and the marker; a short
   * text is kept whole, and a long one keeps its first and last 500
   * characters with the marker between them.
   */
  lemma ExcerptRules(t: string)
    ensures |Excerpt(t)| <= ExcerptLimit + |Ellipsis|
    ensures |t| <= ExcerptLimit ==> Excerpt(t) == t
    ensures |t| > ExcerptLimit + |Ellipsis| ==> Excerpt(t) != t
    ensures |t| > ExcerptLimit ==>
      && StartsWith(Excerpt(t), t[..ExcerptHalf])
      && EndsWith(Excerpt(t), t[|t| - ExcerptHalf..])
      && MatchAt(Excerpt(t), Ellipsis, ExcerptHalf)
  {
    if |t| > ExcerptLimit {
      var r := Excerpt(t);
      assert r[..ExcerptHalf] == t[..ExcerptHalf];
      assert r[ExcerptHalf..ExcerptHalf + |Ellipsis|] == Ellipsis;
      assert r[|r| - ExcerptHalf..] == t[|t| - ExcerptHalf..];
    }
  }

  // ---------------------------------------------------------------------------
  // The outside world
  // ---------------------------------------------------------------------------

  /** What reading a file, running a command or calling an API gave: a value, or the exception's message. */
  datatype Outcome<T> = Returned(value: T) | Threw(message: string)

  /**
   * How the Cursor agent process ended: its exit code and output lines, or an
   * IOException (it could not start, ran past 30 seconds, or was interrupted).
   */
  datatype AgentRun = Exited(exitCode: int, output: seq<string>) | Failed(message: string)

  /** Every output line followed by a newline. */
  function LinesText(lines: seq<string>): string
  {
    if lines == [] then "" else LinesText(lines[..|lines| - 1]) + lines[|lines| - 1] + "\n"
  }

  /** `executeCommandWithStdin`: the trimmed output on exit code 0, null on any other exit code. */
  function AgentOutput(run: AgentRun): Outcome<Option<string>>
  {
    match run
    case Exited(code, lines) => if code == 0 then Returned(Some(Trim(LinesText(lines)))) else Returned(None)
    case Failed(m) => Threw(m)
  }

  datatype AiderConfig = AiderConfig(enabled: bool, executablePath: string, autoCommits: bool)
  datatype FabricConfig = FabricConfig(enabled: bool, executablePath: string, defaultPattern: string)

  const DefaultAider := AiderConfig(true, "/usr/local/bin/aider", false)
  const DefaultFabric := FabricConfig(true, "/usr/local/bin/fabric", "analyze_code")

  /** One request to a model API: the key, the model and the prompt. */
  datatype ApiCall = ApiCall(apiKey: string, model: string, prompt: string)

  /**
   * What the CLI service reads and runs: the CLI keys loaded from the env
   * file, the aider/fabric settings, the `cli.openai.enabled` flag, the
   * files, the commons-exec runs (output or IOException), the Cursor agent
   * (command and stdin), and the two APIs (the first answer text, or null).
   */
  datatype World = World(
    cliConfig: map<string, string>,
    aider: AiderConfig,
    fabric: FabricConfig,
    openaiEnabled: bool,
    readFile: string -> Outcome<string>,
    execute: seq<string> -> Outcome<string>,
    agent: (seq<string>, string) -> AgentRun,
    anthropic: ApiCall -> Outcome<Option<string>>,
    openai: ApiCall -> Outcome<Option<string>>)

  /** `loadCliEnvVariables`, with the key set the service needs. */
  function LoadCliEnvVariables(file: EnvSync.EnvFile): map<string, string>
  {
    EnvSync.LoadEnv(EnvSync.Pattern, file, EnvSync.CliEnvKeys)
  }

  function GetOrDefault(m: map<string, string>, k: string, d: string): string
  {
    if k in m then m[k] else d
  }

  /** `"true".equalsIgnoreCase(config.get(flag))`: a missing flag is off. */
  predicate Enabled(config: map<string, string>, flag: string)
  {
    flag in config && EqualsIgnoreCase(config[flag], "true")
  }

  /** A key that is present and not empty. */
  predicate HasKey(config: map<string, string>, key: string)
  {
    key in config && config[key] != ""
  }

  const CursorEnabledKey := "CURSOR_CLI_ENABLED"
  const ClaudeEnabledKey := "CLAUDE_CLI_ENABLED"
  const AnthropicKey := "ANTHROPIC_API_KEY"
  const OpenAiKey := "OPENAI_API_KEY"
  const ActiveCliKey := "ACTIVE_CLI_TOOL"

  // ---------------------------------------------------------------------------
  // The conversion log
  // ---------------------------------------------------------------------------

  datatype Service = CursorCli | ClaudeApi

  /**
   * One block the service appends to the conversion log; the decoration
   * lines around each block are not modelled.
   */
  datatype LogEntry =
    | ToolChosen(tool: string)
    | QueryStarted(service: Service, model: string, file: string, prompt: string)
    | Answered(text: string)
    | NoAnswer
    | CallFailed(service: Service, message: string)

  /** The log block for an answer: its excerpt when it has text, "no answer" otherwise. */
  function Answer(out: Option<string>): LogEntry
  {
    if out.Some? && out.value != "" then Answered(Excerpt(out.value)) else NoAnswer
  }

  /** A tool's answer (null as None) and what it appended to the log. */
  datatype Call = Call(result: Option<string>, log: seq<LogEntry>)

  /** The conversion log, a StringBuilder the caller may pass. */
  class LogBuilder {
    var entries: seq<LogEntry>

    constructor()
      ensures entries == []
    {
      entries := [];
    }
  }

  // ---------------------------------------------------------------------------
  // The tools
  // ---------------------------------------------------------------------------

  /** The opening of the conversion prompt, up to the rules. */
  const PromptIntro := "Convert the following C code to Java Spring Boot 3.2.5 following these conversion rules:\n\n[CONVERSION RULES]\n"

  /** The prompt sent to the Cursor agent and to the Claude API. */
  function ConversionPrompt(rules: string, source: string, instructions: string): string
  {
    PromptIntro + rules + "\n\n[C CODE]\n```c\n" + source + "\n```\n\n[REQUIREMENTS]\n" + instructions + "\n"
  }

  /** The prompt sent to the OpenAI API. */
  function OpenAiPrompt(rules: string, source: string, instructions: string): string
  {
    "[변환 규칙]\n" + rules + "\n\n[원본 C 코드]\n```c\n" + source + "\n```\n\n[요청사항]\n" + instructions + "\n"
  }

  function CursorModel(config: map<string, string>): string
  {
    GetOrDefault(config, "CURSOR_CLI_MODEL", "opus-4.5-thinking")
  }

  function CursorCommand(config: map<string, string>): seq<string>
  {
    [GetOrDefault(config, "CURSOR_AGENT_PATH", "/Users/dongsoo/.local/bin/agent"), "-p", "--model", CursorModel(config)]
  }

  /**
   * `convertWithCursorCli`: null when disabled; otherwise the agent's
   * non-empty answer, with any exception or empty answer turned into null.
   */
  function Cursor(w: World, sourcePath: string, rules: string, instructions: string): Call
  {
    var config := w.cliConfig;
    if !Enabled(config, CursorEnabledKey) then Call(None, [])
    else match w.readFile(sourcePath)
      case Threw(m) => Call(None, [CallFailed(CursorCli, m)])
      case Returned(source) =>
        var prompt := ConversionPrompt(rules, source, instructions);
        var started := QueryStarted(CursorCli, CursorModel(config), sourcePath, Excerpt(prompt));
        CursorReply(started, AgentOutput(w.agent(CursorCommand(config), prompt)))
  }

  /** What Cursor makes of the agent's reply: an empty answer counts as none. */
  function CursorReply(started: LogEntry, reply: Outcome<Option<string>>): Call
  {
    match reply
    case Threw(m) => Call(None, [started, CallFailed(CursorCli, m)])
    case Returned(out) => Call(if out.Some? && out.value != "" then out else None, [started, Answer(out)])
  }

  function ClaudeModel(config: map<string, string>): string
  {
    GetOrDefault(config, "CLAUDE_CLI_MODEL", "claude-opus-4-5-20251101")
  }

  /**
   * `convertWithClaudeCli`: null when disabled or without an API key;
   * otherwise the API's answer as it came, an empty one included, with any
   * exception turned into null.
   */
  function Claude(w: World, sourcePath: string, rules: string, instructions: string): Call
  {
    var config := w.cliConfig;
    if !Enabled(config, ClaudeEnabledKey) || !HasKey(config, AnthropicKey) then Call(None, [])
    else match w.readFile(sourcePath)
      case Threw(m) => Call(None, [CallFailed(ClaudeApi, m)])
      case Returned(source) =>
        var prompt := ConversionPrompt(rules, source, instructions);
        var started := QueryStarted(ClaudeApi, ClaudeModel(config), sourcePath, Excerpt(prompt));
        ClaudeReply(started, w.anthropic(ApiCall(config[AnthropicKey], ClaudeModel(config), prompt)))
  }

  /** What Claude makes of the API's reply: the answer as it came, null on an exception. */
  function ClaudeReply(started: LogEntry, reply: Outcome<Option<string>>): Call
  {
    match reply
    case Threw(m) => Call(None, [started, CallFailed(ClaudeApi, m)])
    case Returned(out) => Call(out, [started, Answer(out)])
  }

  /**
   * `convertWithOpenAi`: null unless `cli.openai.enabled` is set and an API
   * key is configured; otherwise the API's answer, with any exception turned
   * into null.  It writes nothing to the conversion log.
   */
  function OpenAi(w: World, sourceCode: string, rules: string, instructions: string): Option<string>
  {
    var config := w.cliConfig;
    if !w.openaiEnabled || !HasKey(config, OpenAiKey) then None
    else
      var call := ApiCall(config[OpenAiKey], GetOrDefault(config, "OPENAI_MODEL", "gpt-4"), OpenAiPrompt(rules, sourceCode, instructions));
      match w.openai(call)
      case Threw(_) => None
      case Returned(out) => out
  }

  function AiderCommand(a: AiderConfig, filePath: string, instructions: string): seq<string>
  {
    [a.executablePath, "--file", filePath, "--message", instructions] + (if a.autoCommits then [] else ["--no-auto-commits"])
  }

  /** `convertWithAider`: null when disabled; otherwise the command's output, or its IOException. */
  function Aider(w: World, filePath: string, instructions: string): Result<Option<string>, string>
  {
    if !w.aider.enabled then Ok(None)
    else match w.execute(AiderCommand(w.aider, filePath, instructions))
      case Threw(m) => Err(m)
      case Returned(out) => Ok(Some(out))
  }

  function FabricCommand(f: FabricConfig, filePath: string): seq<string>
  {
    [f.executablePath, "--pattern", f.defaultPattern, "--file", filePath]
  }

  /** `analyzeWithFabric`: null when disabled; otherwise the command's output, or its IOException. */
  function Fabric(w: World, filePath: string): Result<Option<string>, string>
  {
    if !w.fabric.enabled then Ok(None)
    else match w.execute(FabricCommand(w.fabric, filePath))
      case Threw(m) => Err(m)
      case Returned(out) => Ok(Some(out))
  }

  /** `fixCompileErrors`: aider asked to fix the given compile errors. */
  function FixCompileErrors(w: World, filePath: string, errorLog: string): Result<Option<string>, string>
  {
    if !w.aider.enabled then Ok(None)
    else Aider(w, filePath, "Fix the following compile errors:\n" + errorLog)
  }

  /** The tool `convertWithActiveCli` dispatches on: ACTIVE_CLI_TOOL lower-cased, "aider" when unset. */
  function ActiveCliTool(config: map<string, string>): string
  {
    ToLower(GetOrDefault(config, ActiveCliKey, "aider"))
  }

  /** `convertWithActiveCli`: the answer of the active tool, aider for a tool it does not know, and the log it writes. */
  function ActiveCli(w: World, sourcePath: string, sourceCode: string, rules: string, instructions: string)
    : (Result<Option<string>, string>, seq<LogEntry>)
  {
    var chosen := [ToolChosen(GetOrDefault(w.cliConfig, ActiveCliKey, "aider"))];
    var tool := ActiveCliTool(w.cliConfig);
    if tool == "cursor" then
      var c := Cursor(w, sourcePath, rules, instructions); (Ok(c.result), chosen + c.log)
    else if tool == "claude" then
      var c := Claude(w, sourcePath, rules, instructions); (Ok(c.result), chosen + c.log)
    else if tool == "openai" then (Ok(OpenAi(w, sourceCode, rules, instructions)), chosen)
    else if tool == "fabric" then (Fabric(w, sourcePath), chosen)
    else (Aider(w, sourcePath, instructions), chosen)
  }

  /** `convertWithActiveCli` with a log: the answer, and the log blocks appended when a log is passed. */
  method ConvertWithActiveCli(w: World, sourcePath: string, sourceCode: string, rules: string, instructions: string, log: LogBuilder?)
    returns (r: Result<Option<string>, string>)
    modifies log
    ensures r == ActiveCli(w, sourcePath, sourceCode, rules, instructions).0
    ensures log != null ==> log.entries == old(log.entries) + ActiveCli(w, sourcePath, sourceCode, rules, instructions).1
  {
    var call := ActiveCli(w, sourcePath, sourceCode, rules, instructions);
    r := call.0;
    if log != null {
      log.entries := log.entries + call.1;
    }
  }

  // ---------------------------------------------------------------------------
  // Properties
  // ---------------------------------------------------------------------------

  /** Cursor off: null, and nothing read, run or logged. */
  lemma CursorDisabled(w: World, sourcePath: string, rules: string, instructions: string)
    requires !Enabled(w.cliConfig, CursorEnabledKey)
    ensures Cursor(w, sourcePath, rules, instructions) == Call(None, [])
  {
  }

  /** A Cursor answer is never empty, and it is the agent's trimmed output on exit code 0 for the prompt built from the file. */
  lemma CursorAnswer(w: World, sourcePath: string, rules: string, instructions: string)
    requires Cursor(w, sourcePath, rules, instructions).result.Some?
    ensures var r := Cursor(w, sourcePath, rules, instructions).result.value;
      && Enabled(w.cliConfig, CursorEnabledKey)
      && r != ""
      && w.readFile(sourcePath).Returned?
      && AgentOutput(w.agent(CursorCommand(w.cliConfig), ConversionPrompt(rules, w.readFile(sourcePath).value, instructions)))
         == Returned(Some(r))
  {
    var source := w.readFile(sourcePath).value;
    var prompt := ConversionPrompt(rules, source, instructions);
    var started := QueryStarted(CursorCli, CursorModel(w.cliConfig), sourcePath, Excerpt(prompt));
    var reply := AgentOutput(w.agent(CursorCommand(w.cliConfig), prompt));
    assert Cursor(w, sourcePath, rules, instructions) == CursorReply(started, reply);
  }

  /** A non-empty answer of the agent is always passed on. */
  lemma CursorPassesAnswer(w: World, sourcePath: string, rules: string, instructions: string, source: string, text: string)
    requires Enabled(w.cliConfig, CursorEnabledKey) && w.readFile(sourcePath) == Returned(source)
    requires AgentOutput(w.agent(CursorCommand(w.cliConfig), ConversionPrompt(rules, source, instructions))) == Returned(Some(text))
    requires text != ""
    ensures Cursor(w, sourcePath, rules, instructions).result == Some(text)
  {
  }

  /**
   * Claude: off unless its flag is "true" and an API key is set, and then
   * silent; otherwise the API's answer exactly, an empty one included.
   */
  lemma ClaudeRules(w: World, sourcePath: string, rules: string, instructions: string)
    ensures var c := Claude(w, sourcePath, rules, instructions);
      && (!Enabled(w.cliConfig, ClaudeEnabledKey) || !HasKey(w.cliConfig, AnthropicKey) ==> c == Call(None, []))
      && (c.result.Some? ==> Enabled(w.cliConfig, ClaudeEnabledKey) && HasKey(w.cliConfig, AnthropicKey))
      && (Enabled(w.cliConfig, ClaudeEnabledKey) && HasKey(w.cliConfig, AnthropicKey) && w.readFile(sourcePath).Returned? ==>
            var prompt := ConversionPrompt(rules, w.readFile(sourcePath).value, instructions);
            var out := w.anthropic(ApiCall(w.cliConfig[AnthropicKey], ClaudeModel(w.cliConfig), prompt));
            out.Returned? ==> c.result == out.value)
  {
  }

  /** An empty Claude answer is passed on as it is, where the Cursor agent's would become null. */
  lemma ClaudeMayAnswerEmpty(w: World, sourcePath: string, rules: string, instructions: string)
    requires Enabled(w.cliConfig, ClaudeEnabledKey) && HasKey(w.cliConfig, AnthropicKey)
    requires w.readFile(sourcePath) == Returned("")
    requires w.anthropic(ApiCall(w.cliConfig[AnthropicKey], ClaudeModel(w.cliConfig), ConversionPrompt(rules, "", instructions)))
          == Returned(Some(""))
    ensures Claude(w, sourcePath, rules, instructions).result == Some("")
  {
  }

  /** OpenAI: off unless enabled with a key; then the API's answer, null on an exception. */
  lemma OpenAiRules(w: World, sourceCode: string, rules: string, instructions: string)
    ensures OpenAi(w, sourceCode, rules, instructions).Some? ==> w.openaiEnabled && HasKey(w.cliConfig, OpenAiKey)
    ensures w.openaiEnabled && HasKey(w.cliConfig, OpenAiKey) ==>
      var call := ApiCall(w.cliConfig[OpenAiKey], GetOrDefault(w.cliConfig, "OPENAI_MODEL", "gpt-4"), OpenAiPrompt(rules, sourceCode, instructions));
      OpenAi(w, sourceCode, rules, instructions) == (if w.openai(call).Returned? then w.openai(call).value else None)
  {
  }

  /**
   * aider: off means null and no command; on, its output, or the IOException
   * passed up; "--no-auto-commits" is added exactly when auto commits are off.
   */
  lemma AiderRules(w: World, filePath: string, instructions: string)
    ensures !w.aider.enabled ==> Aider(w, filePath, instructions) == Ok(None)
    ensures w.aider.enabled ==>
      (Aider(w, filePath, instructions).Err? <==> w.execute(AiderCommand(w.aider, filePath, instructions)).Threw?)
    ensures "--no-auto-commits" in AiderCommand(w.aider, filePath, instructions)
      <==> !w.aider.autoCommits || "--no-auto-commits" in [w.aider.executablePath, filePath, instructions]
  {
    var cmd := AiderCommand(w.aider, filePath, instructions);
    if !w.aider.autoCommits {
      assert cmd[5] == "--no-auto-commits";
    }
  }

  /**
   * The dispatch: the lower-cased ACTIVE_CLI_TOOL picks cursor, claude,
   * openai, fabric or aider; an unset or unknown tool gets aider.
   */
  lemma ActiveCliRules(w: World, sourcePath: string, sourceCode: string, rules: string, instructions: string)
    ensures var r := ActiveCli(w, sourcePath, sourceCode, rules, instructions).0;
      var tool := ActiveCliTool(w.cliConfig);
      && (tool == "cursor" ==> r == Ok(Cursor(w, sourcePath, rules, instructions).result))
      && (tool == "claude" ==> r == Ok(Claude(w, sourcePath, rules, instructions).result))
      && (tool == "openai" ==> r == Ok(OpenAi(w, sourceCode, rules, instructions)))
      && (tool == "fabric" ==> r == Fabric(w, sourcePath))
      && (tool !in {"cursor", "claude", "openai", "fabric"} ==> r == Aider(w, sourcePath, instructions))
      && (ActiveCliKey !in w.cliConfig ==> r == Aider(w, sourcePath, instructions))
  {
    if ActiveCliKey !in w.cliConfig {
      assert ActiveCliTool(w.cliConfig) == "aider";
    }
  }

  /** The tool name is matched in any case: "Cursor" selects the Cursor agent. */
  lemma ActiveCliIgnoresCase(w: World, sourcePath: string, sourceCode: string, rules: string, instructions: string)
    requires w.cliConfig == map[ActiveCliKey := "Cursor"]
    ensures ActiveCli(w, sourcePath, sourceCode, rules, instructions).0 == Ok(None)
  {
    CursorLowered();
    assert ActiveCliTool(w.cliConfig) == "cursor";
    assert !Enabled(w.cliConfig, CursorEnabledKey);
    CursorDisabled(w, sourcePath, rules, instructions);
  }

  lemma CursorLowered()
    ensures ToLower("Cursor") == "cursor"
  {
    assert LowerChar('C') == 'c';
    assert ToLower("Cursor")[0] == 'c';
  }

  /** A log block whose text is cut to at most 1000 characters and the marker. */
  predicate Bounded(e: LogEntry)
  {
    && (e.QueryStarted? ==> |e.prompt| <= ExcerptLimit + |Ellipsis|)
    && (e.Answered? ==> |e.text| <= ExcerptLimit + |Ellipsis|)
  }

  lemma ExcerptBounded(t: string)
    ensures |Excerpt(t)| <= ExcerptLimit + |Ellipsis|
  {
  }

  lemma AnswerBounded(out: Option<string>)
    ensures Bounded(Answer(out))
  {
    if out.Some? {
      ExcerptBounded(out.value);
    }
  }

  lemma CursorLogBounded(w: World, sourcePath: string, rules: string, instructions: string)
    ensures forall e :: e in Cursor(w, sourcePath, rules, instructions).log ==> Bounded(e)
  {
    if Enabled(w.cliConfig, CursorEnabledKey) && w.readFile(sourcePath).Returned? {
      var prompt := ConversionPrompt(rules, w.readFile(sourcePath).value, instructions);
      ExcerptBounded(prompt);
      var out := AgentOutput(w.agent(CursorCommand(w.cliConfig), prompt));
      if out.Returned? {
        AnswerBounded(out.value);
      }
    }
  }

  lemma ClaudeLogBounded(w: World, sourcePath: string, rules: string, instructions: string)
    ensures forall e :: e in Claude(w, sourcePath, rules, instructions).log ==> Bounded(e)
  {
    var config := w.cliConfig;
    if Enabled(config, ClaudeEnabledKey) && HasKey(config, AnthropicKey) && w.readFile(sourcePath).Returned? {
      var prompt := ConversionPrompt(rules, w.readFile(sourcePath).value, instructions);
      ExcerptBounded(prompt);
      var out := w.anthropic(ApiCall(config[AnthropicKey], ClaudeModel(config), prompt));
      if out.Returned? {
        AnswerBounded(out.value);
      }
    }
  }

  /** Every prompt and answer `convertWithActiveCli` writes to the log is cut to at most 1000 characters and the marker. */
  lemma LoggedTextIsBounded(w: World, sourcePath: string, sourceCode: string, rules: string, instructions: string)
    ensures forall e :: e in ActiveCli(w, sourcePath, sourceCode, rules, instructions).1 ==> Bounded(e)
  {
    CursorLogBounded(w, sourcePath, rules, instructions);
    ClaudeLogBounded(w, sourcePath, rules, instructions);
  }

  // ---------------------------------------------------------------------------
  // The CLI settings as the env file delivers them
  // ---------------------------------------------------------------------------

  /** `loadCliEnvVariables` as written: the letters-and-underscores key pattern and the four-key set. */
  function LoadCliEnvVariablesAsWritten(file: EnvSync.EnvFile): (config: map<string, string>)
    ensures config.Keys <= EnvSync.CliEnvKeysAsWritten
  {
    EnvSync.LoadEnv(EnvSync.UpperUnderscore, file, EnvSync.CliEnvKeysAsWritten)
  }

  /**
   * With the settings loaded as written no switch the CLI tools read can ever
   * be set: Cursor, Claude and OpenAI never answer and the active tool is
   * always aider, whatever the env file holds.
   */
  lemma CliNeverUsedAsWritten(w: World, file: EnvSync.EnvFile, sourcePath: string, sourceCode: string, rules: string, instructions: string)
    requires w.cliConfig == LoadCliEnvVariablesAsWritten(file)
    ensures Cursor(w, sourcePath, rules, instructions).result.None?
    ensures Claude(w, sourcePath, rules, instructions).result.None?
    ensures OpenAi(w, sourceCode, rules, instructions).None?
    ensures ActiveCli(w, sourcePath, sourceCode, rules, instructions).0 == Aider(w, sourcePath, instructions)
  {
    var config := w.cliConfig;
    assert CursorEnabledKey !in config && ClaudeEnabledKey !in config;
    assert OpenAiKey !in config && ActiveCliKey !in config;
    ActiveCliRules(w, sourcePath, sourceCode, rules, instructions);
  }

  /** The same settings make the converter fall back to the LLM for every request. */
  lemma ConverterNeverUsesCliAsWritten(b: CodeConverter.Backends, file: EnvSync.EnvFile, req: CodeConverter.Request)
    requires b.cliConfig == Some(LoadCliEnvVariablesAsWritten(file))
    ensures CodeConverter.ActiveBackend(b, req) == b.llm(req)
  {
    assert CodeConverter.ActiveToolKey !in b.cliConfig.value;
    CodeConverter.DefaultToolIsLlm(b, req);
  }

  /**
   * With the full key set, saving "cursor" as the active tool and switching
   * Cursor on is what both the CLI service and the converter then read back.
   */
  lemma CursorSelectableWithCliKeys(lines: seq<string>)
    ensures var updates := [(ActiveCliKey, "cursor"), (CursorEnabledKey, "true")];
      var config := LoadCliEnvVariables(EnvSync.Lines(EnvSync.Save(EnvSync.Pattern, lines, updates)));
      && ActiveCliTool(config) == "cursor"
      && Enabled(config, CursorEnabledKey)
      && CodeConverter.ActiveTool(config) == "cursor"
  {
    var updates := [(ActiveCliKey, "cursor"), (CursorEnabledKey, "true")];
    var config := LoadCliEnvVariables(EnvSync.Lines(EnvSync.Save(EnvSync.Pattern, lines, updates)));
    SavedCursorSwitches(lines);
    assert CodeConverter.ActiveToolKey == ActiveCliKey;
    assert GetOrDefault(config, ActiveCliKey, "aider") == "cursor";
    CursorLowerCase();
  }

  lemma CursorLowerCase()
    ensures ToLower("cursor") == "cursor"
  {
  }

  /** The two saved switches read back as written. */
  lemma SavedCursorSwitches(lines: seq<string>)
    ensures var updates := [(ActiveCliKey, "cursor"), (CursorEnabledKey, "true")];
      var config := LoadCliEnvVariables(EnvSync.Lines(EnvSync.Save(EnvSync.Pattern, lines, updates)));
      && ActiveCliKey in config && config[ActiveCliKey] == "cursor"
      && CursorEnabledKey in config && config[CursorEnabledKey] == "true"
  {
    var updates := [(ActiveCliKey, "cursor"), (CursorEnabledKey, "true")];
    assert EnvSync.ValidKey(EnvSync.Pattern, ActiveCliKey);
    assert EnvSync.ValidKey(EnvSync.Pattern, CursorEnabledKey);
    assert EnvSync.WellFormed(EnvSync.Pattern, updates);
    EnvSync.LoadAfterSave(EnvSync.Pattern, lines, updates, EnvSync.CliEnvKeys, 0);
    EnvSync.LoadAfterSave(EnvSync.Pattern, lines, updates, EnvSync.CliEnvKeys, 1);
    assert TrimEnd("cursor") == "cursor";
    assert TrimEnd("true") == "true";
  }
}
