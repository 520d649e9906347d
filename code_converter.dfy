/**
 * CodeConverterService: which Java files each analyzed C file produces,
 * how the generated names are classified, the Gradle project files and the
 * conversion-mapping summary. The code text itself comes from the CLI or
 * the LLM, which are opaque functions of the request here.
 */
module CodeConverter {
  import opened Wrappers
  import opened Strings
  import opened OrderedMaps
  import opened CAnalyzer

  // ---------------------------------------------------------------------------
  // The conversion back end
  // ---------------------------------------------------------------------------

  /** What each prompt tells the model; the prompt wording itself is not modelled. */
  datatype Prompt =
    | RepositoryPrompt(functions: nat, sqlQueries: nat, structs: nat, baseName: string)
    | EntityPrompt(structList: string, baseName: string)
    | ServicePrompt(functionList: string, baseName: string)
    | ServiceImplPrompt(baseName: string)
    | StructEntityPrompt(structName: string, fields: nat)
    | EnumPrompt(enumName: string, values: nat)
    | ConstantsPrompt(defines: nat, baseName: string)

  /** One convertWithActiveBackend call: the C source text, its path and the prompt. */
  datatype Request = Request(sourceCode: string, sourcePath: string, prompt: Prompt)

  /**
   * The outside world of convertWithActiveBackend: the CLI settings read
   * from the env file (None when reading them threw), what the CLI returns
   * for a request (None for null or an exception), and what the LLM returns.
   */
  datatype Backends = Backends(
    cliConfig: Option<map<string, string>>,
    cli: Request -> Option<string>,
    llm: Request -> string)

  const ActiveToolKey := "ACTIVE_CLI_TOOL"
  const DefaultTool := "aider"

  /** ACTIVE_CLI_TOOL, "aider" when unset. */
  function ActiveTool(config: map<string, string>): string
  {
    if ActiveToolKey in config then config[ActiveToolKey] else DefaultTool
  }

  /** convertWithActiveBackend: the CLI for "cursor" or "claude" when it gives text, the LLM otherwise. */
  function ActiveBackend(b: Backends, req: Request): string
  {
    match b.cliConfig
    case None => b.llm(req)
    case Some(config) =>
      var tool := ActiveTool(config);
      if tool == "cursor" || tool == "claude" then
        match b.cli(req)
        case Some(text) => if text != "" then text else b.llm(req)
        case None => b.llm(req)
      else b.llm(req)
  }

  /**
   * The CLI is asked only for the tools "cursor" and "claude"; for any other
   * tool, or when the settings cannot be read, or when the CLI gives nothing
   * or fails, the code is the LLM's. A CLI answer is never empty.
   */
  lemma ActiveBackendRules(b: Backends, req: Request)
    ensures var code := ActiveBackend(b, req);
      && (code != b.llm(req) ==>
            b.cliConfig.Some? && ActiveTool(b.cliConfig.value) in {"cursor", "claude"}
            && b.cli(req) == Some(code) && code != "")
      && (b.cliConfig.None? || ActiveTool(b.cliConfig.value) !in {"cursor", "claude"} ==> code == b.llm(req))
      && ((b.cliConfig.Some? && ActiveTool(b.cliConfig.value) in {"cursor", "claude"}
           && b.cli(req).Some? && b.cli(req).value != "") ==> code == b.cli(req).value)
  {
  }

  /** Settings without ACTIVE_CLI_TOOL select aider, and the CLI is never asked. */
  lemma DefaultToolIsLlm(b: Backends, req: Request)
    requires b.cliConfig.Some? && ActiveToolKey !in b.cliConfig.value
    ensures ActiveBackend(b, req) == b.llm(req)
  {
  }

  // ---------------------------------------------------------------------------
  // Output plans
  // ---------------------------------------------------------------------------

  /** A file of the output project: generated text, or the conversion mapping. */
  datatype Content = Text(text: string) | MappingJson(mapping: Mapping)

  /** "A: 3 fields, B: 1 fields" for the Pro*C entity prompt. */
  function StructList(structs: seq<StructInfo>): string
  {
    Join(seq(|structs|, i requires 0 <= i < |structs| => structs[i].name + ": " + NatToString(|structs[i].fields|) + " fields"), ", ")
  }

  /** "f(2 params), g(0 params)" for the service prompt. */
  function FunctionList(functions: seq<FunctionInfo>): string
  {
    Join(seq(|functions|, i requires 0 <= i < |functions| =>
      functions[i].name + "(" + NatToString(|functions[i].parameters|) + " params)"), ", ")
  }

  /** convertProCFile: the repository, and the entity when there are structs. */
  function ProCPlan(s: CFileStructure): seq<(string, Prompt)>
  {
    var base := ReplaceAll(s.fileName, ".pc", "");
    [(base + "Repository.java", RepositoryPrompt(|s.functions|, |s.sqlQueries|, |s.structs|, base))]
      + (if s.structs != [] then [(base + ".java", EntityPrompt(StructList(s.structs), base))] else [])
  }

  /** convertCSourceFile: the service interface and its implementation. */
  function CSourcePlan(s: CFileStructure): seq<(string, Prompt)>
  {
    var base := ReplaceAll(s.fileName, ".c", "");
    [(base + "Service.java", ServicePrompt(FunctionList(s.functions), base)),
     (base + "ServiceImpl.java", ServiceImplPrompt(base))]
  }

  function StructPlan(structs: seq<StructInfo>): seq<(string, Prompt)>
  {
    if structs == [] then []
    else
      var st := structs[|structs| - 1];
      StructPlan(structs[..|structs| - 1]) + [(st.name + ".java", StructEntityPrompt(st.name, |st.fields|))]
  }

  function EnumPlan(enums: seq<EnumInfo>): seq<(string, Prompt)>
  {
    if enums == [] then []
    else
      var e := enums[|enums| - 1];
      EnumPlan(enums[..|enums| - 1]) + [(e.name + ".java", EnumPrompt(e.name, |e.values|))]
  }

  /** convertCHeaderFile: an entity per struct, an enum per enum, the constants when there are defines. */
  function CHeaderPlan(s: CFileStructure): seq<(string, Prompt)>
  {
    var base := ReplaceAll(s.fileName, ".h", "");
    StructPlan(s.structs) + EnumPlan(s.enums)
      + (if s.defines != [] then [(base + "Constants.java", ConstantsPrompt(|s.defines|, base))] else [])
  }

  /** convertByFileType: only Pro*C, C source and C header files produce output. */
  function Plan(s: CFileStructure): seq<(string, Prompt)>
  {
    match s.fileType
    case "pro_c" => ProCPlan(s)
    case "c_source" => CSourcePlan(s)
    case "c_header" => CHeaderPlan(s)
    case _ => []
  }

  /** Each planned name with the back end's code for its prompt. */
  function Realize(plan: seq<(string, Prompt)>, b: Backends, code: string, path: string): (es: seq<(string, Content)>)
    ensures |es| == |plan| && forall i :: 0 <= i < |plan| ==> es[i].0 == plan[i].0
  {
    seq(|plan|, i requires 0 <= i < |plan| => (plan[i].0, Text(ActiveBackend(b, Request(code, path, plan[i].1)))))
  }

  /** The LinkedHashMap a convert*File method fills: the plan's puts, in order. */
  function Generated(plan: seq<(string, Prompt)>, b: Backends, code: string, path: string): seq<(string, Content)>
  {
    PutAll([], Realize(plan, b, code, path))
  }

  lemma GeneratedSnoc(plan: seq<(string, Prompt)>, e: (string, Prompt), b: Backends, code: string, path: string)
    ensures Generated(plan + [e], b, code, path)
         == Put(Generated(plan, b, code, path), e.0, Text(ActiveBackend(b, Request(code, path, e.1))))
  {
    var es := Realize(plan + [e], b, code, path);
    assert es[..|es| - 1] == Realize(plan, b, code, path);
  }

  /**
   * The generated files are exactly the planned names, each once, holding
   * the code for the last prompt planned under that name.
   */
  lemma GeneratedRules(plan: seq<(string, Prompt)>, b: Backends, code: string, path: string, name: string)
    ensures var g := Generated(plan, b, code, path);
      && DistinctKeys(g)
      && (name in Keys(g) <==> exists i :: 0 <= i < |plan| && plan[i].0 == name)
      && |g| <= |plan|
      && Get(g, name) == LastFor(Realize(plan, b, code, path), name)
  {
    var es := Realize(plan, b, code, path);
    PutAllRules([], es, name);
    assert name in Keys(es) <==> exists i :: 0 <= i < |plan| && plan[i].0 == name by {
      if name in Keys(es) {
        var i :| 0 <= i < |es| && Keys(es)[i] == name;
        assert plan[i].0 == name;
      }
      if exists i :: 0 <= i < |plan| && plan[i].0 == name {
        var i :| 0 <= i < |plan| && plan[i].0 == name;
        assert Keys(es)[i] == name;
      }
    }
    if LastFor(es, name).None? {
      var none: seq<(string, Content)> := [];
      assert Get(none, name) == None;
    }
  }

  /** The planned names per file type. */
  lemma PlanNames(s: CFileStructure, name: string)
    ensures s.fileType !in {"pro_c", "c_source", "c_header"} ==> Plan(s) == []
    ensures s.fileType == "pro_c" ==>
      var base := ReplaceAll(s.fileName, ".pc", "");
      (name in Keys(Plan(s)) <==> name == base + "Repository.java" || (s.structs != [] && name == base + ".java"))
    ensures s.fileType == "c_source" ==>
      var base := ReplaceAll(s.fileName, ".c", "");
      Keys(Plan(s)) == [base + "Service.java", base + "ServiceImpl.java"]
    ensures s.fileType == "c_header" ==>
      var base := ReplaceAll(s.fileName, ".h", "");
      (name in Keys(Plan(s)) <==>
        (exists i :: 0 <= i < |s.structs| && name == s.structs[i].name + ".java")
        || (exists i :: 0 <= i < |s.enums| && name == s.enums[i].name + ".java")
        || (s.defines != [] && name == base + "Constants.java"))
  {
    if s.fileType == "pro_c" {
      var base := ReplaceAll(s.fileName, ".pc", "");
      assert Keys(Plan(s)) == [base + "Repository.java"] + (if s.structs != [] then [base + ".java"] else []);
    } else if s.fileType == "c_header" {
      var base := ReplaceAll(s.fileName, ".h", "");
      var sp, ep := StructPlan(s.structs), EnumPlan(s.enums);
      var cp := if s.defines != [] then [(base + "Constants.java", ConstantsPrompt(|s.defines|, base))] else [];
      assert Plan(s) == sp + ep + cp;
      assert Keys(Plan(s)) == Keys(sp) + Keys(ep) + Keys(cp);
      assert name in Keys(cp) <==> s.defines != [] && name == base + "Constants.java" by {
        if s.defines != [] { assert Keys(cp) == [base + "Constants.java"]; }
      }
      StructPlanNames(s.structs, name);
      EnumPlanNames(s.enums, name);
    }
  }

  lemma {:induction false} StructPlanNames(structs: seq<StructInfo>, name: string)
    ensures name in Keys(StructPlan(structs)) <==> exists i :: 0 <= i < |structs| && name == structs[i].name + ".java"
  {
    if structs != [] {
      var init, st := structs[..|structs| - 1], structs[|structs| - 1];
      StructPlanNames(init, name);
      assert Keys(StructPlan(structs)) == Keys(StructPlan(init)) + [st.name + ".java"];
      if exists i :: 0 <= i < |init| && name == init[i].name + ".java" {
        var i :| 0 <= i < |init| && name == init[i].name + ".java";
        assert structs[i] == init[i];
      }
      if exists i :: 0 <= i < |structs| && name == structs[i].name + ".java" {
        var i :| 0 <= i < |structs| && name == structs[i].name + ".java";
        if i < |init| { assert structs[i] == init[i]; }
      }
    }
  }

  lemma {:induction false} EnumPlanNames(enums: seq<EnumInfo>, name: string)
    ensures name in Keys(EnumPlan(enums)) <==> exists i :: 0 <= i < |enums| && name == enums[i].name + ".java"
  {
    if enums != [] {
      var init, e := enums[..|enums| - 1], enums[|enums| - 1];
      EnumPlanNames(init, name);
      assert Keys(EnumPlan(enums)) == Keys(EnumPlan(init)) + [e.name + ".java"];
      if exists i :: 0 <= i < |init| && name == init[i].name + ".java" {
        var i :| 0 <= i < |init| && name == init[i].name + ".java";
        assert enums[i] == init[i];
      }
      if exists i :: 0 <= i < |enums| && name == enums[i].name + ".java" {
        var i :| 0 <= i < |enums| && name == enums[i].name + ".java";
        if i < |init| { assert enums[i] == init[i]; }
      }
    }
  }

  // ---------------------------------------------------------------------------
  // The convert*File methods
  // ---------------------------------------------------------------------------

  method ConvertProCFile(s: CFileStructure, b: Backends, code: string, path: string)
    returns (generated: seq<(string, Content)>)
    ensures generated == Generated(ProCPlan(s), b, code, path)
  {
    var base := ReplaceAll(s.fileName, ".pc", "");
    var repository := RepositoryPrompt(|s.functions|, |s.sqlQueries|, |s.structs|, base);
    generated := Put([], base + "Repository.java", Text(ActiveBackend(b, Request(code, path, repository))));
    GeneratedSnoc([], (base + "Repository.java", repository), b, code, path);
    if s.structs != [] {
      var entity := EntityPrompt(StructList(s.structs), base);
      GeneratedSnoc([(base + "Repository.java", repository)], (base + ".java", entity), b, code, path);
      generated := Put(generated, base + ".java", Text(ActiveBackend(b, Request(code, path, entity))));
    }
  }

  method ConvertCSourceFile(s: CFileStructure, b: Backends, code: string, path: string)
    returns (generated: seq<(string, Content)>)
    ensures generated == Generated(CSourcePlan(s), b, code, path)
  {
    var base := ReplaceAll(s.fileName, ".c", "");
    var service := ServicePrompt(FunctionList(s.functions), base);
    var impl := ServiceImplPrompt(base);
    var e1, e2 := (base + "Service.java", service), (base + "ServiceImpl.java", impl);
    generated := Put([], e1.0, Text(ActiveBackend(b, Request(code, path, e1.1))));
    generated := Put(generated, e2.0, Text(ActiveBackend(b, Request(code, path, e2.1))));
    GeneratedSnoc([], e1, b, code, path);
    GeneratedSnoc([e1], e2, b, code, path);
    assert [] + [e1] == [e1] && [e1] + [e2] == CSourcePlan(s);
  }

  method ConvertCHeaderFile(s: CFileStructure, b: Backends, code: string, path: string)
    returns (generated: seq<(string, Content)>)
    ensures generated == Generated(CHeaderPlan(s), b, code, path)
  {
    var base := ReplaceAll(s.fileName, ".h", "");
    generated := [];
    for i := 0 to |s.structs|
      invariant generated == Generated(StructPlan(s.structs[..i]), b, code, path)
    {
      var st := s.structs[i];
      var entry := (st.name + ".java", StructEntityPrompt(st.name, |st.fields|));
      assert s.structs[..i + 1][..i] == s.structs[..i];
      GeneratedSnoc(StructPlan(s.structs[..i]), entry, b, code, path);
      generated := Put(generated, entry.0, Text(ActiveBackend(b, Request(code, path, entry.1))));
    }
    assert s.structs[..|s.structs|] == s.structs;
    var sp := StructPlan(s.structs);
    assert sp + EnumPlan(s.enums[..0]) == sp;
    for i := 0 to |s.enums|
      invariant generated == Generated(sp + EnumPlan(s.enums[..i]), b, code, path)
    {
      var e := s.enums[i];
      var entry := (e.name + ".java", EnumPrompt(e.name, |e.values|));
      assert s.enums[..i + 1][..i] == s.enums[..i];
      assert sp + EnumPlan(s.enums[..i + 1]) == (sp + EnumPlan(s.enums[..i])) + [entry];
      GeneratedSnoc(sp + EnumPlan(s.enums[..i]), entry, b, code, path);
      generated := Put(generated, entry.0, Text(ActiveBackend(b, Request(code, path, entry.1))));
    }
    assert s.enums[..|s.enums|] == s.enums;
    if s.defines != [] {
      var entry := (base + "Constants.java", ConstantsPrompt(|s.defines|, base));
      GeneratedSnoc(sp + EnumPlan(s.enums), entry, b, code, path);
      generated := Put(generated, entry.0, Text(ActiveBackend(b, Request(code, path, entry.1))));
    } else {
      assert sp + EnumPlan(s.enums) + [] == sp + EnumPlan(s.enums);
    }
  }

  /** A source file handed to convertCFiles: its path, file name and text. */
  datatype SourceFile = SourceFile(path: string, name: string, text: string)

  /** The first source file with the given name. */
  function FileNamed(files: seq<SourceFile>, name: string): (r: Option<SourceFile>)
    ensures r.Some? ==> r.value in files && r.value.name == name
    ensures r.None? ==> forall i :: 0 <= i < |files| ==> files[i].name != name
  {
    if files == [] then None else if files[0].name == name then Some(files[0]) else FileNamed(files[1..], name)
  }

  /** convertByFileType's output for a structure, its source text and path empty when no file has its name. */
  function ConvertedFiles(s: CFileStructure, files: seq<SourceFile>, b: Backends): seq<(string, Content)>
  {
    var f := FileNamed(files, s.fileName);
    var code := if f.Some? then f.value.text else "";
    var path := if f.Some? then f.value.path else "";
    Generated(Plan(s), b, code, path)
  }

  method ConvertByFileType(s: CFileStructure, files: seq<SourceFile>, b: Backends)
    returns (generated: seq<(string, Content)>)
    ensures generated == ConvertedFiles(s, files, b)
  {
    var f := FileNamed(files, s.fileName);
    var code := if f.Some? then f.value.text else "";
    var path := if f.Some? then f.value.path else "";
    match s.fileType {
      case "pro_c" => generated := ConvertProCFile(s, b, code, path);
      case "c_source" => generated := ConvertCSourceFile(s, b, code, path);
      case "c_header" => generated := ConvertCHeaderFile(s, b, code, path);
      case _ =>
        generated := [];
        assert Realize([], b, code, path) == [];
    }
  }

  // ---------------------------------------------------------------------------
  // determineJavaFileType
  // ---------------------------------------------------------------------------

  /** The suffixes determineJavaFileType tests, in its order, with the kind each gives. */
  const SuffixKinds: seq<(string, string)> := [
    ("Repository.java", "repository"), ("Service.java", "service"), ("ServiceImpl.java", "service_impl"),
    ("Controller.java", "controller"), ("Request.java", "dto_request"), ("Response.java", "dto_response"),
    ("Dto.java", "dto"), ("Constants.java", "constants")]

  /** The kind of the first suffix in the table that the name ends with. */
  function KindBySuffix(fileName: string, table: seq<(string, string)>): Option<string>
  {
    if table == [] then None
    else if EndsWith(fileName, table[0].0) then Some(table[0].1)
    else KindBySuffix(fileName, table[1..])
  }

  /** The kind of a generated file: by the first suffix that matches, then "domain/" for an entity. */
  function DetermineJavaFileType(fileName: string): string
  {
    match KindBySuffix(fileName, SuffixKinds)
    case Some(kind) => kind
    case None => if Contains(fileName, "domain/") then "entity" else "class"
  }

  /** The table entry that decides is the first one whose suffix matches. */
  lemma {:induction false} FirstSuffix(fileName: string, table: seq<(string, string)>, k: nat)
    requires k < |table| && EndsWith(fileName, table[k].0)
    requires forall j :: 0 <= j < k ==> !EndsWith(fileName, table[j].0)
    ensures KindBySuffix(fileName, table) == Some(table[k].1)
  {
    if k > 0 {
      assert !EndsWith(fileName, table[0].0);
      FirstSuffix(fileName, table[1..], k - 1);
    }
  }

  lemma EndsWithSuffix(base: string, suffix: string)
    ensures EndsWith(base + suffix, suffix)
  {
    assert (base + suffix)[|base|..] == suffix;
  }

  /** The files planned for a kind are classified as that kind. */
  lemma PlannedFileTypes(base: string)
    ensures DetermineJavaFileType(base + "Repository.java") == "repository"
    ensures DetermineJavaFileType(base + "Service.java") == "service"
    ensures DetermineJavaFileType(base + "ServiceImpl.java") == "service_impl"
    ensures DetermineJavaFileType(base + "Constants.java") == "constants"
  {
    EndsWithSuffix(base, "Repository.java");
    FirstSuffix(base + "Repository.java", SuffixKinds, 0);
    ServiceType(base);
    ServiceImplType(base);
    ConstantsType(base);
  }

  lemma ServiceType(base: string)
    ensures DetermineJavaFileType(base + "Service.java") == "service"
  {
    EndsWithSuffix(base, "Service.java");
    NotSuffixBefore(base, "Service.java", 1);
    FirstSuffix(base + "Service.java", SuffixKinds, 1);
  }

  lemma ServiceImplType(base: string)
    ensures DetermineJavaFileType(base + "ServiceImpl.java") == "service_impl"
  {
    EndsWithSuffix(base, "ServiceImpl.java");
    NotSuffixBefore(base, "ServiceImpl.java", 2);
    FirstSuffix(base + "ServiceImpl.java", SuffixKinds, 2);
  }

  lemma ConstantsType(base: string)
    ensures DetermineJavaFileType(base + "Constants.java") == "constants"
  {
    EndsWithSuffix(base, "Constants.java");
    NotSuffixBefore(base, "Constants.java", 7);
    FirstSuffix(base + "Constants.java", SuffixKinds, 7);
  }

  /**
   * A name ending in `suffix` ends with none of the first `k` suffixes of
   * the table when each differs from `suffix` in the sixth character from
   * the end (the one before ".java").
   */
  lemma NotSuffixBefore(base: string, suffix: string, k: nat)
    requires 6 <= |suffix| && k <= |SuffixKinds|
    requires forall j :: 0 <= j < k ==> SuffixKinds[j].0[|SuffixKinds[j].0| - 6] != suffix[|suffix| - 6]
    ensures forall j :: 0 <= j < k ==> !EndsWith(base + suffix, SuffixKinds[j].0)
  {
    forall j | 0 <= j < k
      ensures !EndsWith(base + suffix, SuffixKinds[j].0)
    {
      DiffersFromEnd(base, suffix, SuffixKinds[j].0, 6);
    }
  }

  /** A name ending in `suffix` does not end with `p` when they differ `i` characters from the end. */
  lemma DiffersFromEnd(base: string, suffix: string, p: string, i: nat)
    requires 0 < i <= |p| && i <= |suffix| && suffix[|suffix| - i] != p[|p| - i]
    ensures !EndsWith(base + suffix, p)
  {
    var s := base + suffix;
    assert s[|s| - i] == suffix[|suffix| - i];
    if |p| <= |s| {
      assert s[|s| - |p|..][|p| - i] == s[|s| - i];
    }
  }

  // ---------------------------------------------------------------------------
  // generateGradleProjectFiles
  // ---------------------------------------------------------------------------

  const BuildTemplate := "build.gradle.template"
  const SettingsTemplate := "settings.gradle.template"
  const YmlTemplate := "application.yml.template"
  const ApplicationYml := "src/main/resources/application.yml"
  const WrapperProperties := "gradle/wrapper/gradle-wrapper.properties"
  const ProjectPlaceholder := "{{PROJECT_NAME}}"

  /**
   * A template of the target language's rules directory: absent when the
   * file does not exist, Err when reading it threw an IOException.
   */
  function Template(templates: map<string, Result<string, string>>, name: string): Option<Result<string, string>>
  {
    if name in templates then Some(templates[name]) else None
  }

  predicate Fails(t: Option<Result<string, string>>)
  {
    t.Some? && t.value.Err?
  }

  /** The template with every placeholder replaced by the project name. */
  function Fill(template: string, projectName: string): string
  {
    ReplaceAll(template, ProjectPlaceholder, projectName)
  }

  function SettingsLine(projectName: string): string
  {
    "rootProject.name = '" + projectName + "'"
  }

  /** The built-in texts used where a template is missing. */
  datatype DefaultTexts = DefaultTexts(buildGradle: string, gradlew: string, gradlewBat: string, wrapperProperties: string)

  const Defaults := DefaultTexts(DefaultBuildGradle, Gradlew, GradlewBat, WrapperPropertiesText)

  /** The catch block: the default build.gradle and settings.gradle over what was already put. */
  function Caught(files: seq<(string, Content)>, projectName: string, d: DefaultTexts): seq<(string, Content)>
  {
    Put(Put(files, "build.gradle", Text(d.buildGradle)), "settings.gradle", Text(SettingsLine(projectName)))
  }

  /** `generateGradleProjectFiles` with the built-in texts. */
  function GradleProjectFiles(templates: map<string, Result<string, string>>, projectName: string)
    : seq<(string, Content)>
  {
    GradleFiles(templates, projectName, Defaults)
  }

  /** The Gradle files: each template filled in, or its default, until a read throws. */
  function GradleFiles(templates: map<string, Result<string, string>>, projectName: string, d: DefaultTexts)
    : seq<(string, Content)>
  {
    var build, settings, yml := Template(templates, BuildTemplate), Template(templates, SettingsTemplate),
                                Template(templates, YmlTemplate);
    if Fails(build) then Caught([], projectName, d)
    else
      var m1 := [("build.gradle", Text(if build.Some? then Fill(build.value.value, projectName) else d.buildGradle))];
      if Fails(settings) then Caught(m1, projectName, d)
      else
        var m2 := m1 + [("settings.gradle",
                         Text(if settings.Some? then Fill(settings.value.value, projectName) else SettingsLine(projectName)))];
        if Fails(yml) then Caught(m2, projectName, d)
        else
          var m3 := if yml.Some? then m2 + [(ApplicationYml, Text(Fill(yml.value.value, projectName)))] else m2;
          m3 + [("gradlew", Text(d.gradlew)), ("gradlew.bat", Text(d.gradlewBat)), (WrapperProperties, Text(d.wrapperProperties))]
  }

  /**
   * build.gradle and settings.gradle are always produced; when no template
   * read throws, so are the wrapper files, and application.yml exactly when
   * its template exists. Without a settings template, or after a failed
   * read, settings.gradle names the project; after a failed read,
   * build.gradle is the default.
   */
  lemma GradleFilesRules(templates: map<string, Result<string, string>>, projectName: string, d: DefaultTexts)
    ensures var g := GradleFiles(templates, projectName, d);
      && DistinctKeys(g)
      && "build.gradle" in Keys(g) && "settings.gradle" in Keys(g)
      && (var fails := Fails(Template(templates, BuildTemplate)) || Fails(Template(templates, SettingsTemplate))
                       || Fails(Template(templates, YmlTemplate));
          && (!fails ==> "gradlew" in Keys(g) && "gradlew.bat" in Keys(g) && WrapperProperties in Keys(g)
                         && (ApplicationYml in Keys(g) <==> YmlTemplate in templates))
          && (fails ==> Get(g, "build.gradle") == Some(Text(d.buildGradle))
                        && Get(g, "settings.gradle") == Some(Text(SettingsLine(projectName))))
          && (SettingsTemplate !in templates ==> Get(g, "settings.gradle") == Some(Text(SettingsLine(projectName)))))
  {
    var build, settings, yml := Template(templates, BuildTemplate), Template(templates, SettingsTemplate),
                                Template(templates, YmlTemplate);
    if Fails(build) {
      CaughtRules([], projectName, d);
    } else {
      var m1 := [("build.gradle", Text(if build.Some? then Fill(build.value.value, projectName) else d.buildGradle))];
      if Fails(settings) {
        CaughtRules(m1, projectName, d);
      } else {
        var m2 := m1 + [("settings.gradle",
                         Text(if settings.Some? then Fill(settings.value.value, projectName) else SettingsLine(projectName)))];
        if Fails(yml) {
          CaughtRules(m2, projectName, d);
        } else {
          WrappedRules(m2, yml, projectName, d);
        }
      }
    }
  }

  /** The path without a failed read: the wrapper files follow build.gradle, settings.gradle and application.yml. */
  lemma WrappedRules(m2: seq<(string, Content)>, yml: Option<Result<string, string>>, projectName: string, d: DefaultTexts)
    requires Keys(m2) == ["build.gradle", "settings.gradle"] && !Fails(yml)
    ensures var m3 := if yml.Some? then m2 + [(ApplicationYml, Text(Fill(yml.value.value, projectName)))] else m2;
      var g := m3 + [("gradlew", Text(d.gradlew)), ("gradlew.bat", Text(d.gradlewBat)), (WrapperProperties, Text(d.wrapperProperties))];
      && DistinctKeys(g)
      && Keys(g) == ["build.gradle", "settings.gradle"] + (if yml.Some? then [ApplicationYml] else [])
                    + ["gradlew", "gradlew.bat", WrapperProperties]
      && Get(g, "settings.gradle") == Some(m2[1].1)
      && "build.gradle" in Keys(g) && "settings.gradle" in Keys(g)
      && "gradlew" in Keys(g) && "gradlew.bat" in Keys(g) && WrapperProperties in Keys(g)
      && (ApplicationYml in Keys(g) <==> yml.Some?)
  {
    var m3 := if yml.Some? then m2 + [(ApplicationYml, Text(Fill(yml.value.value, projectName)))] else m2;
    var g := m3 + [("gradlew", Text(d.gradlew)), ("gradlew.bat", Text(d.gradlewBat)), (WrapperProperties, Text(d.wrapperProperties))];
    WrappedKeys(m2, m3, g, yml.Some?);
    WrappedNamesRules(yml.Some?);
    DistinctFromKeys(g);
    assert g[1] == m2[1];
    GetPresent(g, 1);
  }

  /** The keys of the files on the path without a failed read. */
  function WrappedNames(withYml: bool): seq<string>
  {
    ["build.gradle", "settings.gradle"] + (if withYml then [ApplicationYml] else [])
    + ["gradlew", "gradlew.bat", WrapperProperties]
  }

  /** Those names are distinct (their lengths are), and application.yml is among them exactly with its template. */
  lemma WrappedNamesRules(withYml: bool)
    ensures var ks := WrappedNames(withYml);
      && (forall i, j :: 0 <= i < j < |ks| ==> ks[i] != ks[j])
      && "build.gradle" in ks && "settings.gradle" in ks
      && "gradlew" in ks && "gradlew.bat" in ks && WrapperProperties in ks
      && (ApplicationYml in ks <==> withYml)
  {
    var ks := WrappedNames(withYml);
    assert |ApplicationYml| == 34 && |WrapperProperties| == 40;
    forall i, j | 0 <= i < j < |ks|
      ensures ks[i] != ks[j]
    {
      assert |ks[i]| != |ks[j]|;
    }
    if !withYml {
      assert forall k :: 0 <= k < |ks| ==> |ks[k]| != 34;
    }
  }

  lemma WrappedKeys(m2: seq<(string, Content)>, m3: seq<(string, Content)>, g: seq<(string, Content)>, withYml: bool)
    requires Keys(m2) == ["build.gradle", "settings.gradle"]
    requires |m3| == |m2| + (if withYml then 1 else 0) && m3[..|m2|] == m2
    requires withYml ==> m3[|m2|].0 == ApplicationYml
    requires |g| == |m3| + 3 && g[..|m3|] == m3
    requires g[|m3|].0 == "gradlew" && g[|m3| + 1].0 == "gradlew.bat" && g[|m3| + 2].0 == WrapperProperties
    ensures Keys(g) == WrappedNames(withYml)
  {
    var ks := WrappedNames(withYml);
    forall k | 0 <= k < |g|
      ensures Keys(g)[k] == ks[k]
    {
      if k < |m2| {
        assert g[k] == m2[k];
        assert Keys(m2)[k] == m2[k].0;
      } else if k < |m3| {
        assert g[k] == m3[k];
      }
    }
  }

  lemma CaughtRules(files: seq<(string, Content)>, projectName: string, d: DefaultTexts)
    requires DistinctKeys(files)
    ensures var g := Caught(files, projectName, d);
      && DistinctKeys(g) && "build.gradle" in Keys(g) && "settings.gradle" in Keys(g)
      && Get(g, "build.gradle") == Some(Text(d.buildGradle))
      && Get(g, "settings.gradle") == Some(Text(SettingsLine(projectName)))
  {
    var m := Put(files, "build.gradle", Text(d.buildGradle));
    PutRules(files, "build.gradle", Text(d.buildGradle), "settings.gradle");
    PutRules(m, "settings.gradle", Text(SettingsLine(projectName)), "build.gradle");
  }

  // ---------------------------------------------------------------------------
  // generateMappingFile and convertCFiles
  // ---------------------------------------------------------------------------

  const MappingFileName := "conversion-mapping.json"

  datatype SourceEntry = SourceEntry(path: string, fileType: string, functions: nat, structs: nat)
  datatype TargetEntry = TargetEntry(file: string, fileType: string)
  datatype Summary = Summary(
    totalSourceFiles: nat, totalTargetFiles: nat, totalFunctions: nat, totalStructs: nat, totalSqlQueries: nat)

  /** The mapping document; its JSON rendering is not modelled. */
  datatype Mapping = Mapping(
    version: string, conversionDate: string, ruleVersion: string, summary: Summary,
    sourceFiles: seq<SourceEntry>, targetFiles: seq<TargetEntry>)

  /** The sum of a per-file count over the analyzed files. */
  function Total(analyzed: seq<CFileStructure>, count: CFileStructure -> nat): nat
  {
    if analyzed == [] then 0 else Total(analyzed[..|analyzed| - 1], count) + count(analyzed[|analyzed| - 1])
  }

  /** The mapping for the analyzed files and the files generated so far (the mapping file not yet among them). */
  function MappingOf(analyzed: seq<CFileStructure>, generated: seq<(string, Content)>, date: string): (m: Mapping)
  {
    var ks := Keys(generated);
    Mapping("1.0", date, "springboot-3.2.5",
      Summary(|analyzed|, |generated|,
              Total(analyzed, (a: CFileStructure) => |a.functions|), Total(analyzed, (a: CFileStructure) => |a.structs|),
              Total(analyzed, (a: CFileStructure) => |a.sqlQueries|)),
      seq(|analyzed|, i requires 0 <= i < |analyzed| =>
        SourceEntry(analyzed[i].fileName, analyzed[i].fileType, |analyzed[i].functions|, |analyzed[i].structs|)),
      seq(|ks|, i requires 0 <= i < |ks| => TargetEntry(ks[i], DetermineJavaFileType(ks[i]))))
  }

  /** The converted files of the analyzed files, put one file's map after another. */
  function ConvertAll(analyzed: seq<CFileStructure>, files: seq<SourceFile>, b: Backends): seq<(string, Content)>
  {
    if analyzed == [] then []
    else PutAll(ConvertAll(analyzed[..|analyzed| - 1], files, b), ConvertedFiles(analyzed[|analyzed| - 1], files, b))
  }

  /** "converted-project-" and the first 8 characters of the job id. */
  function ProjectName(jobId: string): string
    requires |jobId| >= 8
  {
    "converted-project-" + jobId[..8]
  }

  /** convertCFiles' result: the converted files, the Gradle files, then the mapping. */
  function Conversion(jobId: string, analyzed: seq<CFileStructure>, files: seq<SourceFile>, b: Backends,
                      templates: map<string, Result<string, string>>, date: string): seq<(string, Content)>
    requires |jobId| >= 8
  {
    var withGradle := PutAll(ConvertAll(analyzed, files, b), GradleProjectFiles(templates, ProjectName(jobId)));
    Put(withGradle, MappingFileName, MappingJson(MappingOf(analyzed, withGradle, date)))
  }

  /**
   * convertCFiles. `analyzed` holds analyzeFile's result for each source
   * file and `date` the conversion time; a job id is a UUID, whose text
   * has 36 characters.
   */
  method ConvertCFiles(jobId: string, analyzed: seq<CFileStructure>, files: seq<SourceFile>, b: Backends,
                       templates: map<string, Result<string, string>>, date: string)
    returns (generated: seq<(string, Content)>)
    requires |jobId| >= 8
    ensures generated == Conversion(jobId, analyzed, files, b, templates, date)
  {
    generated := [];
    for i := 0 to |analyzed|
      invariant generated == ConvertAll(analyzed[..i], files, b)
    {
      assert analyzed[..i + 1][..i] == analyzed[..i];
      var converted := ConvertByFileType(analyzed[i], files, b);
      generated := PutAll(generated, converted);
    }
    assert analyzed[..|analyzed|] == analyzed;
    var projectName := "converted-project-" + jobId[..8];
    generated := PutAll(generated, GradleProjectFiles(templates, projectName));
    var mapping := MappingOf(analyzed, generated, date);
    generated := Put(generated, MappingFileName, MappingJson(mapping));
  }

  /** One file's converted map has distinct names, among them every planned name. */
  lemma ConvertedFilesRules(s: CFileStructure, files: seq<SourceFile>, b: Backends, name: string)
    ensures DistinctKeys(ConvertedFiles(s, files, b))
    ensures name in Keys(Plan(s)) ==> name in Keys(ConvertedFiles(s, files, b))
  {
    var f := FileNamed(files, s.fileName);
    var code := if f.Some? then f.value.text else "";
    var path := if f.Some? then f.value.path else "";
    var plan := Plan(s);
    GeneratedRules(plan, b, code, path, name);
    if name in Keys(plan) {
      var j :| 0 <= j < |plan| && Keys(plan)[j] == name;
    }
  }

  lemma {:induction false} ConvertAllDistinct(analyzed: seq<CFileStructure>, files: seq<SourceFile>, b: Backends)
    ensures DistinctKeys(ConvertAll(analyzed, files, b))
  {
    if analyzed != [] {
      var init := analyzed[..|analyzed| - 1];
      ConvertAllDistinct(init, files, b);
      PutAllShape(ConvertAll(init, files, b), ConvertedFiles(analyzed[|analyzed| - 1], files, b));
    }
  }

  lemma {:induction false} ConvertAllNames(analyzed: seq<CFileStructure>, files: seq<SourceFile>, b: Backends,
                                           i: nat, name: string)
    requires i < |analyzed| && name in Keys(Plan(analyzed[i]))
    ensures name in Keys(ConvertAll(analyzed, files, b))
    decreases |analyzed|
  {
    var n := |analyzed| - 1;
    if i < n {
      assert analyzed[..n][i] == analyzed[i];
      ConvertAllNames(analyzed[..n], files, b, i, name);
      ConvertAllKeys(analyzed, files, b, name);
    } else {
      LastFileNames(analyzed, files, b, name);
    }
  }

  /** A name is a key of the result when it is a key before the last file or one of the last file's. */
  lemma ConvertAllKeys(analyzed: seq<CFileStructure>, files: seq<SourceFile>, b: Backends, name: string)
    requires analyzed != []
    ensures var n := |analyzed| - 1;
      name in Keys(ConvertAll(analyzed, files, b))
      <==> name in Keys(ConvertAll(analyzed[..n], files, b)) || name in Keys(ConvertedFiles(analyzed[n], files, b))
  {
    var n := |analyzed| - 1;
    PutAllMember(ConvertAll(analyzed[..n], files, b), ConvertedFiles(analyzed[n], files, b), name);
  }

  /** The last file's planned names are keys of the result. */
  lemma LastFileNames(analyzed: seq<CFileStructure>, files: seq<SourceFile>, b: Backends, name: string)
    requires analyzed != [] && name in Keys(Plan(analyzed[|analyzed| - 1]))
    ensures name in Keys(ConvertAll(analyzed, files, b))
  {
    ConvertedFilesRules(analyzed[|analyzed| - 1], files, b, name);
    ConvertAllKeys(analyzed, files, b, name);
  }

  /**
   * Every planned name of every analyzed file, build.gradle,
   * settings.gradle and the mapping file are in the result, each once. The
   * mapping counts the files generated before it was added, which are
   * exactly the target files it lists, and one source entry per analyzed
   * file; unless a converted file already had its name, the mapping file
   * is one more.
   */
  lemma ConversionRules(jobId: string, analyzed: seq<CFileStructure>, files: seq<SourceFile>, b: Backends,
                        templates: map<string, Result<string, string>>, date: string, i: nat, name: string)
    requires |jobId| >= 8
    ensures var r := Conversion(jobId, analyzed, files, b, templates, date);
      && DistinctKeys(r)
      && MappingFileName in Keys(r) && "build.gradle" in Keys(r) && "settings.gradle" in Keys(r)
      && (i < |analyzed| && name in Keys(Plan(analyzed[i])) ==> name in Keys(r))
      && Get(r, MappingFileName).Some? && Get(r, MappingFileName).value.MappingJson?
      && (var m := Get(r, MappingFileName).value.mapping;
          && m.summary.totalTargetFiles == |m.targetFiles|
          && m.summary.totalSourceFiles == |m.sourceFiles| == |analyzed|
          && ((forall j :: 0 <= j < |m.targetFiles| ==> m.targetFiles[j].file != MappingFileName)
                ==> |r| == m.summary.totalTargetFiles + 1))
  {
    var withGradle := PutAll(ConvertAll(analyzed, files, b), GradleProjectFiles(templates, ProjectName(jobId)));
    ConversionKeys(jobId, analyzed, files, b, templates, i, name);
    MappingRules(analyzed, withGradle, date);
  }

  /** Every planned name, the Gradle files and the mapping file are keys, each once. */
  lemma ConversionKeys(jobId: string, analyzed: seq<CFileStructure>, files: seq<SourceFile>, b: Backends,
                       templates: map<string, Result<string, string>>, i: nat, name: string)
    requires |jobId| >= 8
    ensures var withGradle := PutAll(ConvertAll(analyzed, files, b), GradleProjectFiles(templates, ProjectName(jobId)));
      && DistinctKeys(withGradle)
      && "build.gradle" in Keys(withGradle) && "settings.gradle" in Keys(withGradle)
      && (i < |analyzed| && name in Keys(Plan(analyzed[i])) ==> name in Keys(withGradle))
  {
    var converted := ConvertAll(analyzed, files, b);
    var gradle := GradleProjectFiles(templates, ProjectName(jobId));
    ConvertAllDistinct(analyzed, files, b);
    GradleFilesRules(templates, ProjectName(jobId), Defaults);
    PutAllShape(converted, gradle);
    PutAllMember(converted, gradle, "build.gradle");
    PutAllMember(converted, gradle, "settings.gradle");
    if i < |analyzed| && name in Keys(Plan(analyzed[i])) {
      ConvertAllNames(analyzed, files, b, i, name);
      PutAllMember(converted, gradle, name);
    }
  }

  /**
   * Putting the mapping keeps the keys distinct and the earlier keys; the
   * mapping's counts agree with its lists, and it is one more file unless
   * its name was already taken.
   */
  lemma MappingRules(analyzed: seq<CFileStructure>, generated: seq<(string, Content)>, date: string)
    requires DistinctKeys(generated)
    ensures var m := MappingOf(analyzed, generated, date);
      var r := Put(generated, MappingFileName, MappingJson(m));
      && DistinctKeys(r)
      && (forall k :: k in Keys(generated) ==> k in Keys(r))
      && MappingFileName in Keys(r) && Get(r, MappingFileName) == Some(MappingJson(m))
      && m.summary.totalTargetFiles == |m.targetFiles|
      && m.summary.totalSourceFiles == |m.sourceFiles| == |analyzed|
      && ((forall j :: 0 <= j < |m.targetFiles| ==> m.targetFiles[j].file != MappingFileName)
            ==> |r| == m.summary.totalTargetFiles + 1)
  {
    var m := MappingOf(analyzed, generated, date);
    PutRules(generated, MappingFileName, MappingJson(m), MappingFileName);
    var ks := Keys(generated);
    if forall j :: 0 <= j < |m.targetFiles| ==> m.targetFiles[j].file != MappingFileName {
      assert forall j :: 0 <= j < |ks| ==> ks[j] == m.targetFiles[j].file;
      assert MappingFileName !in ks;
    }
  }

  // ---------------------------------------------------------------------------
  // Default project files
  // ---------------------------------------------------------------------------

  const DefaultBuildGradle :=
    "plugins {\n"
    + "    id 'java'\n"
    + "    id 'org.springframework.boot' version '3.2.5'\n"
    + "    id 'io.spring.dependency-management' version '1.1.4'\n"
    + "}\n"
    + "\n"
    + "group = 'com.converted'\n"
    + "version = '1.0.0'\n"
    + "\n"
    + "java {\n"
    + "    sourceCompatibility = '21'\n"
    + "}\n"
    + "\n"
    + "repositories {\n"
    + "    mavenCentral()\n"
    + "}\n"
    + "\n"
    + "dependencies {\n"
    + "    implementation 'org.springframework.boot:spring-boot-starter-web'\n"
    + "    implementation 'org.springframework.boot:spring-boot-starter-data-jpa'\n"
    + "    runtimeOnly 'org.postgresql:postgresql'\n"
    + "    compileOnly 'org.projectlombok:lombok'\n"
    + "    annotationProcessor 'org.projectlombok:lombok'\n"
    + "}\n"

  const Gradlew := "#!/bin/sh\n# Gradle Wrapper Script\nexec gradle \"$@\"\n"

  const GradlewBat := "@echo off\ngradle %*\n"

  const WrapperPropertiesText :=
    "distributionBase=GRADLE_USER_HOME\n"
    + "distributionPath=wrapper/dists\n"
    + "distributionUrl=https\\://services.gradle.org/distributions/gradle-8.5-bin.zip\n"
    + "zipStoreBase=GRADLE_USER_HOME\n"
    + "zipStorePath=wrapper/dists\n"
}
