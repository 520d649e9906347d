/**
 * The conversion-rules directory: one sub-directory per target language,
 * each holding conversion-rules.yaml and project-structure.yaml. The
 * directory is a map from language name to that language's files (file
 * name to content); the clock that stamps backups is a parameter.
 */
module Rules {
  import opened Wrappers
  import opened Strings
  import opened Seqs
  import opened Sorting

  const ConversionRulesFile := "conversion-rules.yaml"
  const ProjectStructureFile := "project-structure.yaml"

  // ---------------------------------------------------------------------------
  // Names
  // ---------------------------------------------------------------------------

  predicate IsAsciiAlnum(c: char)
  {
    'a' <= c <= 'z' || 'A' <= c <= 'Z' || '0' <= c <= '9'
  }

  /** `isValidLanguageName`: a letter or digit, then letters, digits, '-', '_' and '.'. */
  predicate IsValidLanguageName(name: string)
  {
    && |name| > 0
    && IsAsciiAlnum(name[0])
    && forall i :: 1 <= i < |name| ==> IsAsciiAlnum(name[i]) || name[i] in {'-', '_', '.'}
  }

  /** A valid name is one plain directory entry: no separator, and never "." or "..". */
  lemma ValidNameIsPlainEntry(name: string)
    requires IsValidLanguageName(name)
    ensures '/' !in name && '\\' !in name
    ensures name != "." && name != ".."
  {
    forall i | 0 <= i < |name|
      ensures name[i] != '/' && name[i] != '\\'
    {
      assert i == 0 || IsAsciiAlnum(name[i]) || name[i] in {'-', '_', '.'};
    }
  }

  lemma ValidNameExamples()
    ensures IsValidLanguageName("springboot-3.2.5") && IsValidLanguageName("nodejs_18")
    ensures !IsValidLanguageName("") && !IsValidLanguageName("-java") && !IsValidLanguageName("a/b")
  {
    assert "a/b"[1] == '/';
    assert "springboot-3.2.5"[0] == 's';
  }

  /** The Spring Boot label and the version part of the name, '-' read as a space and trimmed. */
  function SpringBootLabel(version: string): (r: string)
    ensures StartsWith(r, "Spring Boot ")
  {
    var r := "Spring Boot " + Trim(MapChar(version, '-', ' '));
    assert r[..12] == "Spring Boot ";
    r
  }

  /**
   * The version part of the label is the version with each '-' read as a
   * space, cut down to the slice at `i` with only blanks and '-' around it.
   */
  lemma SpringBootVersion(version: string) returns (i: nat)
    ensures |SpringBootLabel(version)| >= 12
    ensures var v := SpringBootLabel(version)[12..];
      && i + |v| <= |version|
      && (forall j :: 0 <= j < |v| ==> v[j] == if version[i + j] == '-' then ' ' else version[i + j])
      && (forall j :: 0 <= j < i ==> version[j] == '-' || IsTrimmable(version[j]))
      && (forall j :: i + |v| <= j < |version| ==> version[j] == '-' || IsTrimmable(version[j]))
      && IsTrimmed(v) && '-' !in v
  {
    var m := MapChar(version, '-', ' ');
    var r := SpringBootLabel(version);
    i := TrimBounds(m);
    var v := Trim(m);
    assert r[12..] == v;
    forall j | 0 <= j < |v|
      ensures v[j] == (if version[i + j] == '-' then ' ' else version[i + j])
    {
      assert v[j] == m[i + j];
    }
  }

  /**
   * `formatLanguageName`: a name starting with "springboot" or "spring-boot"
   * in any case becomes "Spring Boot " and the rest of the name; any other
   * name has every '-' and '_' turned into a space.
   */
  function FormatLanguageName(name: string): (r: string)
  {
    var lower := ToLower(name);
    if StartsWith(lower, "springboot") then SpringBootLabel(name[10..])
    else if StartsWith(lower, "spring-boot") then SpringBootLabel(name[11..])
    else MapChar(MapChar(name, '-', ' '), '_', ' ')
  }

  /**
   * Names without the Spring Boot prefix keep their length and every
   * character but '-' and '_', which become spaces; names with it are
   * "Spring Boot " and the rest after the 10- or 11-character prefix, '-'
   * read as a space and trimmed.  The two prefixes never both apply.
   */
  lemma FormatRules(name: string)
    ensures var r := FormatLanguageName(name);
      var lower := ToLower(name);
      && (StartsWith(lower, "springboot") ==> r == "Spring Boot " + Trim(MapChar(name[10..], '-', ' ')))
      && (StartsWith(lower, "spring-boot") ==> r == "Spring Boot " + Trim(MapChar(name[11..], '-', ' ')))
      && (!StartsWith(lower, "springboot") && !StartsWith(lower, "spring-boot") ==>
            && |r| == |name|
            && (forall i :: 0 <= i < |r| ==> r[i] == if name[i] in {'-', '_'} then ' ' else name[i])
            && '-' !in r && '_' !in r)
  {
    PrefixesExclusive(ToLower(name));
  }

  /** A name cannot start with both prefixes: they differ at index 6. */
  lemma PrefixesExclusive(lower: string)
    ensures !(StartsWith(lower, "springboot") && StartsWith(lower, "spring-boot"))
  {
    if StartsWith(lower, "springboot") {
      assert lower[6] == lower[..10][6] == 'b';
    }
  }

  lemma TrimVersionExample()
    ensures Trim(" 3.2.5") == "3.2.5"
  {
    assert " 3.2.5"[1..] == "3.2.5";
    assert TrimStart("3.2.5") == "3.2.5";
    assert TrimStart(" 3.2.5") == "3.2.5";
    assert TrimEnd("3.2.5") == "3.2.5";
  }

  lemma HyphenVersionExample()
    ensures MapChar("-3.2.5", '-', ' ') == " 3.2.5"
  {
    var m := MapChar("-3.2.5", '-', ' ');
    assert m[0] == ' ' && m[1] == '3' && m[2] == '.' && m[3] == '2' && m[4] == '.' && m[5] == '5';
  }

  lemma VersionLabelExample()
    ensures SpringBootLabel("-3.2.5") == "Spring Boot 3.2.5"
  {
    HyphenVersionExample();
    TrimVersionExample();
  }

  lemma FormatSpringBootExample()
    ensures FormatLanguageName("springboot-3.2.5") == "Spring Boot 3.2.5"
  {
    var name := "springboot-3.2.5";
    assert ToLower(name)[..10] == "springboot";
    assert name[10..] == "-3.2.5";
    VersionLabelExample();
  }

  lemma FormatHyphenatedExample()
    ensures FormatLanguageName("Spring-Boot-3.2.5") == "Spring Boot 3.2.5"
  {
    var name := "Spring-Boot-3.2.5";
    var lower := ToLower(name);
    assert lower[6] == '-';
    assert !StartsWith(lower, "springboot");
    assert lower[..11] == "spring-boot";
    assert name[11..] == "-3.2.5";
    VersionLabelExample();
  }

  lemma FormatPlainExample()
    ensures FormatLanguageName("nodejs_18-lts") == "nodejs 18 lts"
  {
    var name := "nodejs_18-lts";
    var lower := ToLower(name);
    assert lower[0] == 'n';
    assert !StartsWith(lower, "springboot") && !StartsWith(lower, "spring-boot");
    assert MapChar(MapChar(name, '-', ' '), '_', ' ') == "nodejs 18 lts";
  }

  // ---------------------------------------------------------------------------
  // The directory
  // ---------------------------------------------------------------------------

  /** One language directory: file name to content. */
  type Files = map<string, string>

  /** `languageToMap`, without the time stamp and the file sizes. */
  datatype LanguageInfo = LanguageInfo(
    id: string,
    name: string,
    displayName: string,
    hasConversionRules: bool,
    hasProjectStructure: bool,
    isComplete: bool)

  /** `getLanguageDetail`: the summary and the content of the two rule files when present. */
  datatype LanguageDetail = LanguageDetail(
    info: LanguageInfo,
    conversionRules: Option<string>,
    projectStructure: Option<string>)

  function InfoOf(name: string, files: Files): (r: LanguageInfo)
    ensures r.id == r.name == name && r.displayName == FormatLanguageName(name)
    ensures r.isComplete <==> ConversionRulesFile in files && ProjectStructureFile in files
  {
    var hasRules := ConversionRulesFile in files;
    var hasStructure := ProjectStructureFile in files;
    LanguageInfo(name, name, FormatLanguageName(name), hasRules, hasStructure, hasRules && hasStructure)
  }

  function FileContent(files: Files, file: string): (r: Option<string>)
    ensures r.Some? <==> file in files
    ensures r.Some? ==> r.value == files[file]
  {
    if file in files then Some(files[file]) else None
  }

  function DetailOf(name: string, files: Files): LanguageDetail
  {
    LanguageDetail(InfoOf(name, files), FileContent(files, ConversionRulesFile), FileContent(files, ProjectStructureFile))
  }

  function NotFound(name: string): string
  {
    "Language not found: " + name
  }

  /** `getLanguageDetail`: an unknown language is an IllegalArgumentException. */
  function GetLanguageDetail(languages: map<string, Files>, name: string): (r: Result<LanguageDetail, string>)
    ensures r.Ok? <==> name in languages
    ensures r.Ok? ==>
      && r.value.info.id == name
      && r.value.conversionRules == FileContent(languages[name], ConversionRulesFile)
      && r.value.projectStructure == FileContent(languages[name], ProjectStructureFile)
    ensures r.Err? ==> r.error == NotFound(name)
  {
    if name in languages then Ok(DetailOf(name, languages[name])) else Err(NotFound(name))
  }

  const InvalidName := "Invalid language name. Use only letters, numbers, and hyphens."

  /**
   * `createLanguage` on the directory: an invalid or existing name is an
   * IllegalArgumentException; otherwise the language is added with its two
   * template files (the template texts, filled with the display name and
   * the name, are parameters).
   */
  function Created(languages: map<string, Files>, name: string, conversionTemplate: string, structureTemplate: string)
    : Result<map<string, Files>, string>
  {
    if !IsValidLanguageName(name) then Err(InvalidName)
    else if name in languages then Err("Language already exists: " + name)
    else Ok(languages[name := map[ConversionRulesFile := conversionTemplate, ProjectStructureFile := structureTemplate]])
  }

  /** The name `deleteLanguage` moves a language to. */
  function DeletedName(name: string, now: nat): string
  {
    name + ".deleted." + NatToString(now)
  }

  /**
   * `deleteLanguage`: an unknown language is an IllegalArgumentException;
   * the move fails when the backup name is taken; otherwise the files move
   * to the backup name.
   */
  function Deleted(languages: map<string, Files>, name: string, now: nat): Result<map<string, Files>, string>
  {
    var backup := DeletedName(name, now);
    if name !in languages then Err(NotFound(name))
    else if backup in languages then Err(backup)
    else Ok((languages - {name})[backup := languages[name]])
  }

  /** The name a save copies the previous content of `file` to. */
  function BackupName(file: string, now: nat): string
  {
    file + ".backup." + NatToString(now)
  }

  /**
   * `saveConversionRules` / `saveProjectStructure`: an unknown language is an
   * IllegalArgumentException; an existing file is first copied to its backup
   * name (which fails when that name is taken), then overwritten.
   */
  function Saved(languages: map<string, Files>, name: string, file: string, content: string, now: nat)
    : Result<map<string, Files>, string>
  {
    if name !in languages then Err(NotFound(name))
    else
      var files := languages[name];
      var backup := BackupName(file, now);
      if file in files && backup in files then Err(backup)
      else
        var kept := if file in files then files[backup := files[file]] else files;
        Ok(languages[name := kept[file := content]])
  }

  /**
   * A created language is complete, holds the two templates, and no other
   * language changes; an invalid or taken name changes nothing.
   */
  lemma CreatedRules(languages: map<string, Files>, name: string, conversionTemplate: string, structureTemplate: string)
    ensures var r := Created(languages, name, conversionTemplate, structureTemplate);
      && (r.Ok? <==> IsValidLanguageName(name) && name !in languages)
      && (r.Ok? ==>
            && r.value.Keys == languages.Keys + {name}
            && (forall other :: other in languages ==> r.value[other] == languages[other])
            && var d := GetLanguageDetail(r.value, name);
               d.Ok? && d.value.info.isComplete
               && d.value.conversionRules == Some(conversionTemplate)
               && d.value.projectStructure == Some(structureTemplate))
  {
  }

  /**
   * After a delete the name is free (it can be created again) and the files
   * live on under the backup name, which is itself a valid language name:
   * the listing shows it as a language of its own.
   */
  lemma DeletedRules(languages: map<string, Files>, name: string, now: nat)
    ensures var r := Deleted(languages, name, now);
      && (name !in languages ==> r == Err(NotFound(name)))
      && (r.Ok? ==>
            && name !in r.value
            && DeletedName(name, now) in r.value
            && r.value[DeletedName(name, now)] == languages[name]
            && (forall other :: other in languages && other != name ==> other in r.value && r.value[other] == languages[other]))
      && (r.Ok? && IsValidLanguageName(name) ==> IsValidLanguageName(DeletedName(name, now)))
  {
    var backup := DeletedName(name, now);
    assert |backup| > |name|;
    if IsValidLanguageName(name) {
      var digits := NatToString(now);
      forall i | 1 <= i < |backup|
        ensures IsAsciiAlnum(backup[i]) || backup[i] in {'-', '_', '.'}
      {
        if i < |name| {
          assert backup[i] == name[i];
        } else if i < |name| + 9 {
          assert backup[i] == ".deleted."[i - |name|];
        } else {
          assert backup[i] == digits[i - |name| - 9];
        }
      }
    }
  }

  /**
   * A save stores the new content, keeps what the file held before under the
   * backup name, and touches no other file and no other language.
   */
  lemma SavedRules(languages: map<string, Files>, name: string, file: string, content: string, now: nat)
    ensures var r := Saved(languages, name, file, content, now);
      && (name !in languages ==> r == Err(NotFound(name)))
      && (r.Ok? ==>
            && r.value.Keys == languages.Keys
            && r.value[name][file] == content
            && (file in languages[name] ==> r.value[name][BackupName(file, now)] == languages[name][file])
            && (forall f :: f in languages[name] && f != file && f != BackupName(file, now) ==>
                  f in r.value[name] && r.value[name][f] == languages[name][f])
            && (forall other :: other in languages && other != name ==> r.value[other] == languages[other]))
  {
    if name in languages && file in languages[name] {
      assert |BackupName(file, now)| > |file|;
    }
  }

  // ---------------------------------------------------------------------------
  // Listings
  // ---------------------------------------------------------------------------

  /** The directories among the listed entries, in listing order. */
  function Directories(languages: map<string, Files>, listing: seq<string>): (dirs: seq<string>)
    ensures forall d :: d in dirs ==> d in languages
  {
    var keys := languages.Keys;
    var dirs := Filter(listing, (entry: string) => entry in keys);
    forall d | d in dirs
      ensures d in languages
    {
      FilterMembers(listing, (entry: string) => entry in keys, d);
    }
    dirs
  }

  lemma DirectoriesMembers(languages: map<string, Files>, listing: seq<string>, d: string)
    ensures d in Directories(languages, listing) <==> d in listing && d in languages
  {
    var keys := languages.Keys;
    FilterMembers(listing, (entry: string) => entry in keys, d);
  }

  /**
   * `listLanguages`: every directory of the listing (the order the file
   * system lists entries in is a parameter; plain files are skipped),
   * described and sorted by name.
   */
  function ListLanguages(languages: map<string, Files>, listing: seq<string>): (r: seq<LanguageInfo>)
    ensures SortedBy(r, (info: LanguageInfo) => info.name)
  {
    SortBy(Infos(languages, Directories(languages, listing)), (info: LanguageInfo) => info.name)
  }

  /** The description of each directory, in listing order. */
  function Infos(languages: map<string, Files>, dirs: seq<string>): (r: seq<LanguageInfo>)
    requires forall d :: d in dirs ==> d in languages
  {
    seq(|dirs|, i requires 0 <= i < |dirs| => InfoOf(dirs[i], languages[dirs[i]]))
  }

  lemma InfosMembers(languages: map<string, Files>, dirs: seq<string>, info: LanguageInfo)
    requires forall d :: d in dirs ==> d in languages
    ensures info in Infos(languages, dirs) <==>
      info.name in dirs && info == InfoOf(info.name, languages[info.name])
  {
    var infos := Infos(languages, dirs);
    if info.name in dirs && info == InfoOf(info.name, languages[info.name]) {
      var i :| 0 <= i < |dirs| && dirs[i] == info.name;
      assert infos[i] == info;
    }
  }

  /** The listing shows exactly the listed directories, each described by its own files. */
  lemma ListLanguagesMembers(languages: map<string, Files>, listing: seq<string>, info: LanguageInfo)
    ensures info in ListLanguages(languages, listing) <==>
      info.name in listing && info.name in languages && info == InfoOf(info.name, languages[info.name])
  {
    var dirs := Directories(languages, listing);
    SortByMembers(Infos(languages, dirs), (info: LanguageInfo) => info.name, info);
    InfosMembers(languages, dirs, info);
    DirectoriesMembers(languages, listing, info.name);
  }

  /** One entry of `listAvailableLanguages`: the directory name and its display name. */
  datatype Available = Available(id: string, name: string)

  /** Both rule files are present. */
  predicate Complete(files: Files)
  {
    ConversionRulesFile in files && ProjectStructureFile in files
  }

  /** The listed directories holding both rule files, in listing order. */
  function CompleteDirectories(languages: map<string, Files>, listing: seq<string>): seq<string>
  {
    var complete := set d | d in languages && Complete(languages[d]);
    Filter(Directories(languages, listing), (entry: string) => entry in complete)
  }

  lemma CompleteDirectoriesMembers(languages: map<string, Files>, listing: seq<string>, d: string)
    ensures d in CompleteDirectories(languages, listing) <==> d in listing && d in languages && Complete(languages[d])
  {
    var complete := set d | d in languages && Complete(languages[d]);
    FilterMembers(Directories(languages, listing), (entry: string) => entry in complete, d);
    DirectoriesMembers(languages, listing, d);
  }

  /**
   * `listAvailableLanguages`: only directories holding both rule files,
   * shown by display name and sorted by it.
   */
  function ListAvailableLanguages(languages: map<string, Files>, listing: seq<string>): (r: seq<Available>)
    ensures SortedBy(r, (a: Available) => a.name)
  {
    var dirs := CompleteDirectories(languages, listing);
    var shown := seq(|dirs|, i requires 0 <= i < |dirs| => Available(dirs[i], FormatLanguageName(dirs[i])));
    SortBy(shown, (a: Available) => a.name)
  }

  /** Users are offered exactly the complete listed directories, each under its display name. */
  lemma ListAvailableMembers(languages: map<string, Files>, listing: seq<string>, a: Available)
    ensures a in ListAvailableLanguages(languages, listing) <==>
      a.id in listing && a.id in languages && Complete(languages[a.id]) && a.name == FormatLanguageName(a.id)
  {
    var dirs := CompleteDirectories(languages, listing);
    var shown := seq(|dirs|, i requires 0 <= i < |dirs| => Available(dirs[i], FormatLanguageName(dirs[i])));
    SortByMembers(shown, (a: Available) => a.name, a);
    CompleteDirectoriesMembers(languages, listing, a.id);
    if a.id in dirs && a.name == FormatLanguageName(a.id) {
      var i :| 0 <= i < |dirs| && dirs[i] == a.id;
      assert shown[i] == a;
    }
  }

  /** A language just created is offered to users as soon as the file system lists it. */
  lemma CreatedIsAvailable(languages: map<string, Files>, name: string, conversionTemplate: string, structureTemplate: string, listing: seq<string>)
    requires Created(languages, name, conversionTemplate, structureTemplate).Ok?
    requires name in listing
    ensures Available(name, FormatLanguageName(name))
      in ListAvailableLanguages(Created(languages, name, conversionTemplate, structureTemplate).value, listing)
  {
    var after := Created(languages, name, conversionTemplate, structureTemplate).value;
    ListAvailableMembers(after, listing, Available(name, FormatLanguageName(name)));
  }

  /** The directory as the service object holds it. */
  class RulesDirectory {
    var languages: map<string, Files>

    constructor(initial: map<string, Files>)
      ensures languages == initial
    {
      languages := initial;
    }

    /** `createLanguage`: on success the new language's detail. */
    method CreateLanguage(name: string, conversionTemplate: string, structureTemplate: string)
      returns (r: Result<LanguageDetail, string>)
      modifies this
      ensures var c := Created(old(languages), name, conversionTemplate, structureTemplate);
        && (c.Ok? ==> languages == c.value && r == GetLanguageDetail(languages, name))
        && (c.Err? ==> languages == old(languages) && r == Err(c.error))
    {
      if !IsValidLanguageName(name) {
        return Err(InvalidName);
      }
      if name in languages {
        return Err("Language already exists: " + name);
      }
      var files: Files := map[];
      files := files[ConversionRulesFile := conversionTemplate];
      files := files[ProjectStructureFile := structureTemplate];
      languages := languages[name := files];
      r := GetLanguageDetail(languages, name);
    }

    /** `deleteLanguage`: `None` on success, otherwise the exception's message. */
    method DeleteLanguage(name: string, now: nat) returns (error: Option<string>)
      modifies this
      ensures var d := Deleted(old(languages), name, now);
        && (d.Ok? ==> languages == d.value && error.None?)
        && (d.Err? ==> languages == old(languages) && error == Some(d.error))
    {
      if name !in languages {
        return Some(NotFound(name));
      }
      var backup := DeletedName(name, now);
      if backup in languages {
        return Some(backup);
      }
      var files := languages[name];
      languages := languages - {name};
      languages := languages[backup := files];
      error := None;
    }

    /** The save shared by `saveConversionRules` and `saveProjectStructure`. */
    method SaveFile(name: string, file: string, content: string, now: nat) returns (r: Result<LanguageDetail, string>)
      modifies this
      ensures var s := Saved(old(languages), name, file, content, now);
        && (s.Ok? ==> languages == s.value && r == GetLanguageDetail(languages, name))
        && (s.Err? ==> languages == old(languages) && r == Err(s.error))
    {
      if name !in languages {
        return Err(NotFound(name));
      }
      var files := languages[name];
      if file in files {
        var backup := BackupName(file, now);
        if backup in files {
          return Err(backup);
        }
        files := files[backup := files[file]];
      }
      files := files[file := content];
      languages := languages[name := files];
      r := GetLanguageDetail(languages, name);
    }

    method SaveConversionRules(name: string, content: string, now: nat) returns (r: Result<LanguageDetail, string>)
      modifies this
      ensures var s := Saved(old(languages), name, ConversionRulesFile, content, now);
        && (s.Ok? ==> languages == s.value && r == GetLanguageDetail(languages, name))
        && (s.Err? ==> languages == old(languages) && r == Err(s.error))
    {
      r := SaveFile(name, ConversionRulesFile, content, now);
    }

    method SaveProjectStructure(name: string, content: string, now: nat) returns (r: Result<LanguageDetail, string>)
      modifies this
      ensures var s := Saved(old(languages), name, ProjectStructureFile, content, now);
        && (s.Ok? ==> languages == s.value && r == GetLanguageDetail(languages, name))
        && (s.Err? ==> languages == old(languages) && r == Err(s.error))
    {
      r := SaveFile(name, ProjectStructureFile, content, now);
    }
  }
}
