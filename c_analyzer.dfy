/**
 * The structural analysis of a C / Pro*C file: file-type classification,
 * line numbers from offsets, and what is done with each regex match
 * (parameter and struct-field splitting, enum values, bind variables, the
 * static and dynamic-SQL look-behind windows, the comment above a declaration).
 *
 * The regex engine is not modelled: each `while (matcher.find())` loop is
 * given the sequence of matches it would see, as start offsets and groups.
 */
module CAnalyzer {
  import opened Wrappers
  import opened Strings
  import opened Seqs

  // ---------------------------------------------------------------------------
  // The analysis result (CFileStructure and its nested records)
  // ---------------------------------------------------------------------------

  datatype Parameter = Parameter(typeName: string, name: string, isPointer: bool)

  datatype FunctionInfo = FunctionInfo(
    name: string, lineNumber: nat, returnType: string, parameters: seq<Parameter>,
    signature: string, comment: Option<string>, isStatic: bool)

  datatype Field = Field(typeName: string, name: string, isPointer: bool, arraySize: Option<string>)

  datatype StructInfo = StructInfo(name: string, lineNumber: nat, fields: seq<Field>, comment: Option<string>)

  datatype EnumInfo = EnumInfo(name: string, lineNumber: nat, values: seq<string>)

  datatype SqlQuery = SqlQuery(
    lineNumber: nat, sqlType: string, query: string, bindVariables: seq<string>, isDynamic: bool)

  datatype DefineInfo = DefineInfo(name: string, value: string, lineNumber: nat, isFunctionLike: bool)

  datatype VariableInfo = VariableInfo(typeName: string, name: string, isStatic: bool, isConst: bool)

  datatype CFileStructure = CFileStructure(
    fileName: string, fileType: string, lineCount: nat,
    functions: seq<FunctionInfo>, structs: seq<StructInfo>, enums: seq<EnumInfo>,
    sqlQueries: seq<SqlQuery>, includes: seq<string>, defines: seq<DefineInfo>,
    globalVariables: seq<VariableInfo>)

  /** `substring` called with a begin index past its end index. */
  datatype AnalyzerError = StringIndexOutOfBounds(word: string)

  // ---------------------------------------------------------------------------
  // Matches the regex engine would report
  // ---------------------------------------------------------------------------

  /** FUNCTION_PATTERN: whole match, return type, name, parameter list. */
  datatype FunctionMatch = FunctionMatch(start: nat, text: string, returnType: string, name: string, params: string)

  /** STRUCT_PATTERN: name and body. */
  datatype StructMatch = StructMatch(start: nat, name: string, body: string)

  /** ENUM_PATTERN: optional name and body. */
  datatype EnumMatch = EnumMatch(start: nat, name: Option<string>, body: string)

  /** SQL_PATTERN: statement verb and the text up to the semicolon. */
  datatype SqlMatch = SqlMatch(start: nat, verb: string, body: string)

  /** DEFINE_PATTERN: name, optional macro parameter list, replacement text. */
  datatype DefineMatch = DefineMatch(start: nat, name: string, params: Option<string>, value: string)

  /**
   * Every pattern except INCLUDE begins with a character that is not a line
   * break (a word character, `s`, `e`, `E` or `#`), so a match start is a
   * position holding such a character.
   */
  predicate ValidStart(content: string, start: nat)
  {
    start < |content| && content[start] != '\n'
  }

  predicate ValidFunctionMatch(content: string, m: FunctionMatch)
  {
    m.text != [] && MatchAt(content, m.text, m.start) && ValidStart(content, m.start)
  }

  // ---------------------------------------------------------------------------
  // File type and line numbers
  // ---------------------------------------------------------------------------

  /** determineFileType: the lower-cased extension picks the type; the tests are made in source order. */
  function DetermineFileType(fileName: string): (r: string)
    ensures r in {"pro_c", "c_header", "c_source", "cpp_source", "unknown"}
  {
    var lower := ToLower(fileName);
    if EndsWith(lower, ".pc") then "pro_c"
    else if EndsWith(lower, ".h") || EndsWith(lower, ".hpp") then "c_header"
    else if EndsWith(lower, ".c") then "c_source"
    else if EndsWith(lower, ".cpp") || EndsWith(lower, ".cc") || EndsWith(lower, ".cxx") then "cpp_source"
    else "unknown"
  }

  /**
   * The extensions are pairwise exclusive, so each type holds exactly when
   * the name ends with one of its own extensions, whatever the test order.
   */
  lemma FileTypeByExtension(fileName: string)
    ensures var lower := ToLower(fileName);
      && (DetermineFileType(fileName) == "pro_c" <==> EndsWith(lower, ".pc"))
      && (DetermineFileType(fileName) == "c_header" <==> EndsWith(lower, ".h") || EndsWith(lower, ".hpp"))
      && (DetermineFileType(fileName) == "c_source" <==> EndsWith(lower, ".c"))
      && (DetermineFileType(fileName) == "cpp_source"
          <==> EndsWith(lower, ".cpp") || EndsWith(lower, ".cc") || EndsWith(lower, ".cxx"))
  {
    var s := ToLower(fileName);
    var n := |s|;
    if EndsWith(s, ".pc") { assert s[n - 2] == 'p'; }
    if EndsWith(s, ".hpp") { assert s[n - 2] == 'p'; }
    if EndsWith(s, ".cc") { assert s[n - 2] == 'c'; }
    if EndsWith(s, ".cpp") || EndsWith(s, ".cxx") {
      assert s[n - 2] != '.' && s[n - 1] != 'c' && s[n - 1] != 'h';
    }
    if EndsWith(s, ".c") || EndsWith(s, ".h") { assert s[n - 2] == '.'; }
  }

  /** findLineNumber: one more than the line breaks strictly before `position`. */
  function FindLineNumber(content: string, position: nat): (line: nat)
    requires position <= |content|
    ensures 1 <= line <= position + 1
  {
    CountChar(content[..position], '\n') + 1
  }

  /** A later offset never lies on an earlier line. */
  lemma FindLineNumberMonotone(content: string, p: nat, q: nat)
    requires p <= q <= |content|
    ensures FindLineNumber(content, p) <= FindLineNumber(content, q)
  {
    assert content[..q] == content[..p] + content[p..q];
    CountCharAppend(content[..p], content[p..q], '\n');
  }

  /** Crossing exactly one line break moves to the next line. */
  lemma FindLineNumberStep(content: string, p: nat)
    requires p < |content|
    ensures FindLineNumber(content, p + 1)
      == FindLineNumber(content, p) + (if content[p] == '\n' then 1 else 0)
  {
    assert content[..p + 1] == content[..p] + [content[p]];
    CountCharAppend(content[..p], [content[p]], '\n');
  }

  /** The number of lines Java's `String.lines()` reports: `\n`, `\r` and `\r\n` end a line. */
  function CountLines(s: string): nat
    decreases |s|
  {
    if s == [] then 0
    else 1 + CountLines(AfterLine(s))
  }

  /** The text after the first line and its terminator. */
  function AfterLine(s: string): (r: string)
    requires s != []
    ensures |r| < |s|
    decreases |s|
  {
    if s[0] == '\n' then s[1..]
    else if s[0] == '\r' then (if |s| > 1 && s[1] == '\n' then s[2..] else s[1..])
    else if |s| == 1 then []
    else AfterLine(s[1..])
  }

  /** Without carriage returns, the count is the line breaks plus an unterminated last line. */
  lemma {:induction false} CountLinesNoCR(s: string)
    requires '\r' !in s
    ensures CountLines(s) == CountChar(s, '\n') + (if s != [] && s[|s| - 1] != '\n' then 1 else 0)
    decreases |s|
  {
    if s != [] {
      AfterLineNoCR(s);
      var k := |s| - |AfterLine(s)|;
      assert s == s[..k] + AfterLine(s);
      CountCharAppend(s[..k], AfterLine(s), '\n');
      CountLinesNoCR(AfterLine(s));
    }
  }

  /** Without carriage returns the first line ends at its first `\n` (or at the end). */
  lemma {:induction false} AfterLineNoCR(s: string)
    requires s != [] && '\r' !in s
    ensures var r := AfterLine(s); var k := |s| - |r|;
      && s[k..] == r
      && CountChar(s[..k], '\n') == (if '\n' in s then 1 else 0)
      && (r != [] ==> s[k - 1] == '\n')
      && (r == [] ==> ('\n' in s <==> s[|s| - 1] == '\n'))
    decreases |s|
  {
    var r := AfterLine(s);
    if s[0] == '\n' {
      assert s[..1] == "\n";
    } else if |s| == 1 {
      assert s[..1] == [s[0]];
    } else {
      AfterLineNoCR(s[1..]);
      var k := |s| - |r|;
      assert s[..k] == [s[0]] + s[1..][..k - 1];
      assert '\n' in s <==> '\n' in s[1..];
    }
  }

  // ---------------------------------------------------------------------------
  // Parameters
  // ---------------------------------------------------------------------------

  /** The characters `[*\[\]]` removes from a parameter name. */
  const NameMarks: set<char> := {'*', '[', ']'}

  function Last(ws: seq<string>): string
    requires ws != []
  {
    ws[|ws| - 1]
  }

  /** One comma piece of a parameter list, already trimmed; `None` when it has fewer than two words. */
  function ParameterOf(piece: string): (r: Option<Parameter>)
    ensures r.Some? <==> |Words(piece)| >= 2
    ensures r.Some? ==> r.value.name == RemoveChars(Last(Words(piece)), NameMarks)
    ensures r.Some? ==> forall c :: c in r.value.name ==> c !in NameMarks
    ensures r.Some? ==> (r.value.isPointer <==> '*' in piece)
    ensures r.Some? ==> r.value.typeName + " " + Last(Words(piece)) == Join(Words(piece), " ")
  {
    var parts := Words(piece);
    if |parts| >= 2 then
      JoinSnoc(parts[..|parts| - 1], Last(parts), " ");
      assert parts[..|parts| - 1] + [Last(parts)] == parts;
      Some(Parameter(Join(parts[..|parts| - 1], " "), RemoveChars(Last(parts), NameMarks), '*' in piece))
    else None
  }

  lemma {:induction false} JoinSnoc(ws: seq<string>, w: string, sep: string)
    requires ws != []
    ensures Join(ws + [w], sep) == Join(ws, sep) + sep + w
    decreases |ws|
  {
    if |ws| == 1 {
      assert ws + [w] == [ws[0], w];
    } else {
      assert (ws + [w])[1..] == ws[1..] + [w];
      JoinSnoc(ws[1..], w, sep);
    }
  }

  function ParametersOf(pieces: seq<string>): (r: seq<Parameter>)
    ensures |r| <= |pieces|
    ensures forall k :: 0 <= k < |r| ==> forall c :: c in r[k].name ==> c !in NameMarks
  {
    if pieces == [] then []
    else
      var p := ParameterOf(pieces[0]);
      (if p.Some? then [p.value] else []) + ParametersOf(pieces[1..])
  }

  /**
   * parseParameters: nothing for a missing, blank or `void` list; otherwise
   * at most one parameter per comma piece, pieces of fewer than two words
   * dropped, no name holding `*`, `[` or `]`.
   */
  function ParseParameters(params: Option<string>): (r: seq<Parameter>)
    ensures params.None? || Trim(params.value) == "" || Trim(params.value) == "void" ==> r == []
    ensures params.Some? ==> |r| <= |JavaSplit(params.value, ',')|
    ensures forall k :: 0 <= k < |r| ==> forall c :: c in r[k].name ==> c !in NameMarks
  {
    if params.None? || Trim(params.value) == "" || Trim(params.value) == "void" then []
    else ParametersOf(TrimNonEmpty(JavaSplit(params.value, ',')))
  }

  /** What one raw comma piece contributes: the parameter its trim declares, if any. */
  function PieceParameter(piece: string): seq<Parameter>
  {
    var p := ParameterOf(Trim(piece));
    if p.Some? then [p.value] else []
  }

  /**
   * Over the raw pieces: the parameters are each piece's parameter, in piece
   * order, blank pieces and pieces of one word contributing nothing.
   */
  lemma {:induction false} ParametersOfPieces(pieces: seq<string>)
    ensures ParametersOf(TrimNonEmpty(pieces)) == FlatMap(pieces, PieceParameter)
    decreases |pieces|
  {
    if pieces != [] {
      var p, ps := pieces[0], pieces[1..];
      assert pieces == [p] + ps;
      ParametersOfPieces(ps);
      FlatMapCons(p, ps, PieceParameter);
      ParametersOfStep(p, ps);
    }
  }

  /** One raw piece in front adds its own parameter in front. */
  lemma ParametersOfStep(p: string, ps: seq<string>)
    ensures ParametersOf(TrimNonEmpty([p] + ps)) == PieceParameter(p) + ParametersOf(TrimNonEmpty(ps))
  {
    var t := Trim(p);
    assert ([p] + ps)[0] == p && ([p] + ps)[1..] == ps;
    if t == "" {
      EmptyPieceNoParameter();
      assert TrimNonEmpty([p] + ps) == TrimNonEmpty(ps);
    } else {
      var kept := [t] + TrimNonEmpty(ps);
      assert TrimNonEmpty([p] + ps) == kept;
      assert kept[0] == t && kept[1..] == TrimNonEmpty(ps);
    }
  }

  /** An empty piece declares no parameter. */
  lemma EmptyPieceNoParameter()
    ensures ParameterOf("") == None
  {
    assert DropSpaces("") == "";
    assert Words("") == [];
  }

  /** parseParameters on a real list yields each comma piece's parameter, in order. */
  lemma ParseParametersInOrder(params: Option<string>)
    requires params.Some? && Trim(params.value) != "" && Trim(params.value) != "void"
    ensures ParseParameters(params) == FlatMap(JavaSplit(params.value, ','), PieceParameter)
  {
    ParametersOfPieces(JavaSplit(params.value, ','));
  }

  /** A parameter is reported exactly when some comma piece, trimmed, declares it. */
  lemma ParseParametersMembers(params: Option<string>, q: Parameter)
    requires params.Some? && Trim(params.value) != "" && Trim(params.value) != "void"
    ensures q in ParseParameters(params) <==>
      exists p :: p in JavaSplit(params.value, ',') && ParameterOf(Trim(p)) == Some(q)
  {
    var pieces := JavaSplit(params.value, ',');
    ParseParametersInOrder(params);
    FlatMapMembers(pieces, PieceParameter, q);
    PieceParametersMembers(pieces, q);
  }

  /** Some piece contributes `q` exactly when some piece declares it. */
  lemma PieceParametersMembers(pieces: seq<string>, q: Parameter)
    ensures (exists i :: 0 <= i < |pieces| && q in PieceParameter(pieces[i]))
      <==> exists p :: p in pieces && ParameterOf(Trim(p)) == Some(q)
  {
    if exists i :: 0 <= i < |pieces| && q in PieceParameter(pieces[i]) {
      var i :| 0 <= i < |pieces| && q in PieceParameter(pieces[i]);
      InPieceParameter(pieces[i], q);
      assert pieces[i] in pieces;
    }
    if exists p :: p in pieces && ParameterOf(Trim(p)) == Some(q) {
      var p :| p in pieces && ParameterOf(Trim(p)) == Some(q);
      var i :| 0 <= i < |pieces| && pieces[i] == p;
      InPieceParameter(p, q);
    }
  }

  lemma InPieceParameter(piece: string, q: Parameter)
    ensures q in PieceParameter(piece) <==> ParameterOf(Trim(piece)) == Some(q)
  {
  }

  // ---------------------------------------------------------------------------
  // Struct fields
  // ---------------------------------------------------------------------------

  /** The `substring` bounds for the array size are valid: a `]` that comes after the first `[`. */
  predicate BracketsWellPlaced(word: string)
  {
    var open := IndexOf(word, "[", 0);
    var close := IndexOf(word, "]", 0);
    open + 1 <= close
  }

  /** One `;` piece of a struct body, already trimmed; `None` when it has fewer than two words. */
  function FieldOf(piece: string): (r: Result<Option<Field>, AnalyzerError>)
    ensures r == Ok(None) <==> |Words(piece)| < 2
    ensures r.Err? <==> |Words(piece)| >= 2 && '[' in Last(Words(piece)) && !BracketsWellPlaced(Last(Words(piece)))
    ensures r.Ok? && r.value.Some? ==>
      r.value.value == FieldOfWords(Join(Words(piece)[..|Words(piece)| - 1], " "), Last(Words(piece)))
  {
    var parts := Words(piece);
    if |parts| < 2 then Ok(None)
    else
      var word := Last(parts);
      if '[' in word && !BracketsWellPlaced(word) then Err(StringIndexOutOfBounds(word))
      else Ok(Some(FieldOfWords(Join(parts[..|parts| - 1], " "), word)))
  }

  /**
   * The field built from the type words and the last word: the array size is
   * the text between the first `[` and the first `]`, the name is cut before
   * `[`, and `*` is dropped from both after deciding whether it is a pointer.
   */
  function FieldOfWords(typeText: string, word: string): (f: Field)
    requires '[' in word ==> BracketsWellPlaced(word)
    ensures '*' !in f.name && '[' !in f.name && '*' !in f.typeName
    ensures f.isPointer <==> '*' in typeText || '*' in NameBeforeBracket(word)
    ensures f.arraySize.Some? <==> '[' in word
    ensures f.arraySize.Some? ==>
      ']' !in f.arraySize.value && StartsWith(word, NameBeforeBracket(word) + "[" + f.arraySize.value + "]")
  {
    var name := NameBeforeBracket(word);
    var size := if '[' in word then Some(ArraySize(word)) else None;
    var typeName := Trim(RemoveChars(typeText, {'*'}));
    TrimKeepsOut(RemoveChars(typeText, {'*'}), '*');
    Field(typeName, RemoveChars(name, {'*'}), '*' in typeText || '*' in name, size)
  }

  /** `name.substring(name.indexOf("[") + 1, name.indexOf("]"))`, with the bounds the call needs. */
  function ArraySize(word: string): (size: string)
    requires '[' in word && BracketsWellPlaced(word)
    ensures ']' !in size && StartsWith(word, NameBeforeBracket(word) + "[" + size + "]")
  {
    var open := IndexOf(word, "[", 0);
    var close := IndexOf(word, "]", 0);
    ContainsChar(word, '[');
    ContainsIndexOf(word, "[");
    var size := word[open + 1..close];
    assert word[open] == word[open..open + 1][0] == '[';
    assert word[close] == word[close..close + 1][0] == ']';
    assert ']' !in size by {
      forall j | open + 1 <= j < close ensures word[j] != ']' {
        assert !MatchAt(word, "]", j);
      }
    }
    assert word[..close + 1] == word[..open] + "[" + size + "]";
    size
  }

  /** The name cut before its first `[`, or the whole word when there is none. */
  function NameBeforeBracket(word: string): (r: string)
    ensures '[' !in r
    ensures |r| <= |word| && r == word[..|r|]
  {
    var open := IndexOf(word, "[", 0);
    if open < 0 then
      ContainsChar(word, '[');
      ContainsIndexOf(word, "[");
      word
    else
      assert '[' !in word[..open] by {
        forall i | 0 <= i < open ensures word[i] != '[' {
          assert !MatchAt(word, "[", i);
        }
      }
      word[..open]
  }

  function FieldsOf(pieces: seq<string>): (r: Result<seq<Field>, AnalyzerError>)
    ensures r.Ok? ==> |r.value| <= |pieces|
  {
    if pieces == [] then Ok([])
    else
      match FieldOf(pieces[0])
      case Err(e) => Err(e)
      case Ok(f) =>
        match FieldsOf(pieces[1..])
        case Err(e) => Err(e)
        case Ok(rest) => Ok((if f.Some? then [f.value] else []) + rest)
  }

  /** parseStructFields: one field per non-empty `;` piece of two or more words. */
  function ParseStructFields(body: string): (r: Result<seq<Field>, AnalyzerError>)
    ensures r.Ok? ==> |r.value| <= |JavaSplit(body, ';')|
  {
    FieldsOf(TrimNonEmpty(JavaSplit(body, ';')))
  }

  /** What one raw `;` piece contributes: the field its trim declares, if any. */
  function PieceField(piece: string): seq<Field>
  {
    var r := FieldOf(Trim(piece));
    if r.Ok? && r.value.Some? then [r.value.value] else []
  }

  /** An empty piece declares nothing. */
  lemma EmptyPieceNoField()
    ensures FieldOf("") == Ok(None)
  {
    assert DropSpaces("") == "";
    assert Words("") == [];
  }

  /**
   * Over the raw pieces: the fields fail exactly when some piece's field
   * throws, and otherwise are each piece's field, in piece order.
   */
  lemma {:induction false} FieldsOfPieces(pieces: seq<string>)
    ensures FieldsOf(TrimNonEmpty(pieces)).Err? <==> exists k :: 0 <= k < |pieces| && FieldOf(Trim(pieces[k])).Err?
    ensures FieldsOf(TrimNonEmpty(pieces)).Ok? ==> FieldsOf(TrimNonEmpty(pieces)).value == FlatMap(pieces, PieceField)
    decreases |pieces|
  {
    if pieces != [] {
      var p, ps := pieces[0], pieces[1..];
      assert pieces == [p] + ps;
      var t := Trim(p);
      FieldsOfPieces(ps);
      FlatMapCons(p, ps, PieceField);
      if t == "" {
        EmptyPieceNoField();
        assert TrimNonEmpty(pieces) == TrimNonEmpty(ps);
      } else {
        var kept := [t] + TrimNonEmpty(ps);
        assert TrimNonEmpty(pieces) == kept;
        assert kept[0] == t && kept[1..] == TrimNonEmpty(ps);
      }
      if exists k :: 0 <= k < |ps| && FieldOf(Trim(ps[k])).Err? {
        var k :| 0 <= k < |ps| && FieldOf(Trim(ps[k])).Err?;
        assert pieces[k + 1] == ps[k];
      }
      if exists k :: 0 <= k < |pieces| && FieldOf(Trim(pieces[k])).Err? {
        var k :| 0 <= k < |pieces| && FieldOf(Trim(pieces[k])).Err?;
        if k > 0 {
          assert ps[k - 1] == pieces[k];
        }
      }
    }
  }

  /** parseStructFields throws iff some `;` piece's field does, and otherwise yields each piece's field, in order. */
  lemma ParseStructFieldsInOrder(body: string)
    ensures ParseStructFields(body).Err? <==>
      exists k :: 0 <= k < |JavaSplit(body, ';')| && FieldOf(Trim(JavaSplit(body, ';')[k])).Err?
    ensures ParseStructFields(body).Ok? ==> ParseStructFields(body).value == FlatMap(JavaSplit(body, ';'), PieceField)
  {
    FieldsOfPieces(JavaSplit(body, ';'));
  }

  /** A field is reported exactly when some `;` piece, trimmed, declares it. */
  lemma ParseStructFieldsMembers(body: string, f: Field)
    requires ParseStructFields(body).Ok?
    ensures f in ParseStructFields(body).value <==> exists p :: p in JavaSplit(body, ';') && FieldOf(Trim(p)) == Ok(Some(f))
  {
    var pieces := JavaSplit(body, ';');
    ParseStructFieldsInOrder(body);
    FlatMapMembers(pieces, PieceField, f);
    PieceFieldsMembers(pieces, f);
  }

  /** Some piece contributes `f` exactly when some piece declares it. */
  lemma PieceFieldsMembers(pieces: seq<string>, f: Field)
    ensures (exists i :: 0 <= i < |pieces| && f in PieceField(pieces[i]))
      <==> exists p :: p in pieces && FieldOf(Trim(p)) == Ok(Some(f))
  {
    if exists i :: 0 <= i < |pieces| && f in PieceField(pieces[i]) {
      var i :| 0 <= i < |pieces| && f in PieceField(pieces[i]);
      InPieceField(pieces[i], f);
      assert pieces[i] in pieces;
    }
    if exists p :: p in pieces && FieldOf(Trim(p)) == Ok(Some(f)) {
      var p :| p in pieces && FieldOf(Trim(p)) == Ok(Some(f));
      var i :| 0 <= i < |pieces| && pieces[i] == p;
      InPieceField(p, f);
    }
  }

  lemma InPieceField(piece: string, f: Field)
    ensures f in PieceField(piece) <==> FieldOf(Trim(piece)) == Ok(Some(f))
  {
  }

  // ---------------------------------------------------------------------------
  // Enum values
  // ---------------------------------------------------------------------------

  /** The enum's values: the comma pieces of the body, trimmed, empties dropped, in order. */
  function EnumValues(body: string): (values: seq<string>)
    ensures forall k :: 0 <= k < |values| ==> IsEnumValue(values[k])
  {
    var pieces := JavaSplit(body, ',');
    TrimNonEmptyKeepsOut(pieces, ',');
    var values := TrimNonEmpty(pieces);
    assert forall k :: 0 <= k < |values| ==> IsKeptPiece(values[k]) && ',' !in values[k];
    values
  }

  /** The values are the comma pieces' trims, in order, with the empty ones dropped. */
  lemma EnumValuesInOrder(body: string)
    ensures EnumValues(body) == FlatMap(JavaSplit(body, ','), KeptTrim)
  {
    TrimNonEmptyPieces(JavaSplit(body, ','));
  }

  /** A value is reported exactly when it is the non-empty trim of some comma piece. */
  lemma EnumValuesMembers(body: string, v: string)
    ensures v in EnumValues(body) <==> v != "" && exists p :: p in JavaSplit(body, ',') && Trim(p) == v
  {
    TrimNonEmptyMembers(JavaSplit(body, ','), v);
  }

  /** A non-empty, trimmed piece without a comma. */
  predicate IsEnumValue(v: string)
  {
    v != "" && IsTrimmed(v) && ',' !in v
  }

  lemma {:induction false} TrimNonEmptyKeepsOut(pieces: seq<string>, c: char)
    requires forall k :: 0 <= k < |pieces| ==> c !in pieces[k]
    ensures forall k :: 0 <= k < |TrimNonEmpty(pieces)| ==> c !in TrimNonEmpty(pieces)[k]
    decreases |pieces|
  {
    if pieces != [] {
      TrimKeepsOut(pieces[0], c);
      TrimNonEmptyKeepsOut(pieces[1..], c);
      var t := Trim(pieces[0]);
      var rest := TrimNonEmpty(pieces[1..]);
      var r := TrimNonEmpty(pieces);
      assert r == if t == "" then rest else [t] + rest;
      forall k | 0 <= k < |r|
        ensures c !in r[k]
      {
        if t != "" && k > 0 {
          assert r[k] == rest[k - 1];
        }
      }
    }
  }

  // ---------------------------------------------------------------------------
  // Bind variables: the `:(\w+)` scan
  // ---------------------------------------------------------------------------

  /** `\w`: an ASCII letter, digit or underscore. */
  predicate IsWordChar(c: char)
  {
    ('a' <= c <= 'z') || ('A' <= c <= 'Z') || ('0' <= c <= '9') || c == '_'
  }

  /** The length of the run of word characters starting at `i`. */
  function WordRun(s: string, i: nat): (n: nat)
    requires i <= |s|
    ensures i + n <= |s|
    ensures forall j :: i <= j < i + n ==> IsWordChar(s[j])
    ensures i + n < |s| ==> !IsWordChar(s[i + n])
    decreases |s| - i
  {
    if i < |s| && IsWordChar(s[i]) then 1 + WordRun(s, i + 1) else 0
  }

  /** The bind variables `matcher.find()` reports from offset `i` onwards. */
  function BindVariablesFrom(s: string, i: nat): (vars: seq<string>)
    requires i <= |s|
    decreases |s| - i
  {
    if i + 1 >= |s| then []
    else if s[i] == ':' && IsWordChar(s[i + 1]) then
      var n := WordRun(s, i + 1);
      [s[i + 1..i + 1 + n]] + BindVariablesFrom(s, i + 1 + n)
    else BindVariablesFrom(s, i + 1)
  }

  /** Every reported bind variable is a word that occurs after a colon. */
  lemma {:induction false} BindVariablesSpec(s: string, i: nat)
    requires i <= |s|
    ensures forall k :: 0 <= k < |BindVariablesFrom(s, i)| ==> IsBindVariable(s, BindVariablesFrom(s, i)[k])
    decreases |s| - i
  {
    if i + 1 < |s| {
      if s[i] == ':' && IsWordChar(s[i + 1]) {
        var n := WordRun(s, i + 1);
        var v := s[i + 1..i + 1 + n];
        assert MatchAt(s, [':'] + v, i) by {
          assert s[i..i + 1 + n] == [s[i]] + v;
        }
        assert IsBindVariable(s, v);
        BindVariablesSpec(s, i + 1 + n);
        BindVariablesCons(s, v, BindVariablesFrom(s, i + 1 + n));
      } else {
        BindVariablesSpec(s, i + 1);
      }
    }
  }

  /** A non-empty run of word characters that occurs in `s` right after a colon. */
  predicate IsBindVariable(s: string, v: string)
  {
    v != [] && (forall j :: 0 <= j < |v| ==> IsWordChar(v[j])) && Contains(s, [':'] + v)
  }

  lemma BindVariablesCons(s: string, v: string, rest: seq<string>)
    requires IsBindVariable(s, v)
    requires forall k :: 0 <= k < |rest| ==> IsBindVariable(s, rest[k])
    ensures forall k :: 0 <= k < |[v] + rest| ==> IsBindVariable(s, ([v] + rest)[k])
  {
    forall k | 0 <= k < |[v] + rest|
      ensures IsBindVariable(s, ([v] + rest)[k])
    {
      if k > 0 {
        assert ([v] + rest)[k] == rest[k - 1];
      }
    }
  }

  /** Every reported variable owns a colon of its own, so there are no more of them than colons. */
  lemma {:induction false} BindVariablesBound(s: string, i: nat)
    requires i <= |s|
    ensures |BindVariablesFrom(s, i)| <= CountChar(s[i..], ':')
    decreases |s| - i
  {
    if i + 1 < |s| {
      CountFrom(s, i, ':');
      if s[i] == ':' && IsWordChar(s[i + 1]) {
        var n := WordRun(s, i + 1);
        BindVariablesBound(s, i + 1 + n);
        CountFromLater(s, i + 1, i + 1 + n, ':');
      } else {
        BindVariablesBound(s, i + 1);
      }
    }
  }

  /** A colon followed by a word character: a place where `:(\w+)` matches. */
  predicate IsBindSite(s: string, k: nat)
  {
    k + 1 < |s| && s[k] == ':' && IsWordChar(s[k + 1])
  }

  /** The positions from `i` on where a bind variable starts, in increasing order. */
  function BindSites(s: string, i: nat): seq<nat>
    requires i <= |s|
    decreases |s| - i
  {
    if i + 1 >= |s| then [] else (if IsBindSite(s, i) then [i] else []) + BindSites(s, i + 1)
  }

  /** The variable matched at bind site `k`: the whole run of word characters after the colon. */
  function VariableAt(s: string, k: nat): string
    requires k + 1 < |s|
  {
    s[k + 1..k + 1 + WordRun(s, k + 1)]
  }

  /** The bind sites are exactly the colons from `i` on that a word character follows, each once, in order. */
  lemma {:induction false} BindSitesSpec(s: string, i: nat)
    requires i <= |s|
    ensures forall k :: k in BindSites(s, i) <==> i <= k && IsBindSite(s, k)
    ensures forall a, b :: 0 <= a < b < |BindSites(s, i)| ==> BindSites(s, i)[a] < BindSites(s, i)[b]
    decreases |s| - i
  {
    if i + 1 < |s| {
      BindSitesSpec(s, i + 1);
      var rest := BindSites(s, i + 1);
      var head: seq<nat> := if IsBindSite(s, i) then [i] else [];
      assert BindSites(s, i) == head + rest;
      forall a, b | 0 <= a < b < |head + rest|
        ensures (head + rest)[a] < (head + rest)[b]
      {
        if |head| == 1 && a == 0 {
          assert (head + rest)[b] == rest[b - 1] && rest[b - 1] in rest;
        }
      }
    }
  }

  /** No colon between `a` and `b`: no bind site starts there. */
  lemma {:induction false} BindSitesSkip(s: string, a: nat, b: nat)
    requires a <= b <= |s|
    requires forall j :: a <= j < b ==> s[j] != ':'
    ensures BindSites(s, a) == BindSites(s, b)
    decreases b - a
  {
    if a < b && a + 1 < |s| {
      BindSitesSkip(s, a + 1, b);
    }
  }

  /** Every position in `ks` has a character after it. */
  predicate InsideBeforeLast(s: string, ks: seq<nat>)
  {
    forall j :: 0 <= j < |ks| ==> ks[j] + 1 < |s|
  }

  /** The variable at each of the positions `ks`, in order. */
  function VariablesAt(s: string, ks: seq<nat>): seq<string>
    requires InsideBeforeLast(s, ks)
  {
    if ks == [] then [] else [VariableAt(s, ks[0])] + VariablesAt(s, ks[1..])
  }

  /** The bind sites all lie before the last character. */
  lemma {:induction false} BindSitesInside(s: string, i: nat)
    requires i <= |s|
    ensures InsideBeforeLast(s, BindSites(s, i))
    decreases |s| - i
  {
    if i + 1 < |s| {
      BindSitesInside(s, i + 1);
      var rest := BindSites(s, i + 1);
      var head: seq<nat> := if IsBindSite(s, i) then [i] else [];
      forall j | 0 <= j < |head + rest|
        ensures (head + rest)[j] + 1 < |s|
      {
        if j >= |head| {
          assert (head + rest)[j] == rest[j - |head|];
        }
      }
    }
  }

  /** The `find()` loop reports the variable at each bind site, in order and with duplicates kept. */
  lemma {:induction false} BindVariablesAtSites(s: string, i: nat)
    requires i <= |s|
    ensures InsideBeforeLast(s, BindSites(s, i))
    ensures BindVariablesFrom(s, i) == VariablesAt(s, BindSites(s, i))
    decreases |s| - i
  {
    BindSitesInside(s, i);
    if i + 1 < |s| {
      if IsBindSite(s, i) {
        var next := i + 1 + WordRun(s, i + 1);
        BindVariablesAtSites(s, next);
        SiteStep(s, i);
        VariablesAtCons(s, i, BindSites(s, next));
      } else {
        BindVariablesAtSites(s, i + 1);
        NoSiteStep(s, i);
      }
    }
  }

  /** Elsewhere, both scans move on by one character. */
  lemma NoSiteStep(s: string, i: nat)
    requires i + 1 < |s| && !IsBindSite(s, i)
    ensures BindSites(s, i) == BindSites(s, i + 1)
    ensures BindVariablesFrom(s, i) == BindVariablesFrom(s, i + 1)
  {
  }

  /** At a bind site, both scans take the site's variable and resume after its word. */
  lemma SiteStep(s: string, i: nat)
    requires IsBindSite(s, i)
    ensures i + 1 + WordRun(s, i + 1) <= |s|
    ensures BindSites(s, i) == [i] + BindSites(s, i + 1 + WordRun(s, i + 1))
    ensures BindVariablesFrom(s, i) == [VariableAt(s, i)] + BindVariablesFrom(s, i + 1 + WordRun(s, i + 1))
  {
    SiteStepSites(s, i, WordRun(s, i + 1));
  }

  lemma SiteStepSites(s: string, i: nat, n: nat)
    requires IsBindSite(s, i) && n == WordRun(s, i + 1)
    ensures i + 1 + n <= |s|
    ensures BindSites(s, i) == [i] + BindSites(s, i + 1 + n)
  {
    assert BindSites(s, i) == [i] + BindSites(s, i + 1);
    WordHasNoColon(s, i + 1, n);
    BindSitesSkip(s, i + 1, i + 1 + n);
  }

  /** A run of word characters holds no colon. */
  lemma WordHasNoColon(s: string, a: nat, n: nat)
    requires a <= |s| && n == WordRun(s, a)
    ensures a + n <= |s| && forall j :: a <= j < a + n ==> s[j] != ':'
  {
  }

  lemma VariablesAtCons(s: string, k: nat, ks: seq<nat>)
    requires k + 1 < |s| && InsideBeforeLast(s, ks) && InsideBeforeLast(s, [k] + ks)
    ensures VariablesAt(s, [k] + ks) == [VariableAt(s, k)] + VariablesAt(s, ks)
  {
    assert ([k] + ks)[1..] == ks;
  }

  /** Hence the j-th variable is the word after the j-th colon that a word character follows. */
  lemma {:induction false} VariablesAtIndex(s: string, ks: seq<nat>, j: nat)
    requires InsideBeforeLast(s, ks) && j < |ks|
    ensures |VariablesAt(s, ks)| == |ks|
    ensures VariablesAt(s, ks)[j] == VariableAt(s, ks[j])
    decreases j
  {
    VariablesAtLength(s, ks);
    if j > 0 {
      VariablesAtIndex(s, ks[1..], j - 1);
    }
  }

  lemma {:induction false} VariablesAtLength(s: string, ks: seq<nat>)
    requires InsideBeforeLast(s, ks)
    ensures |VariablesAt(s, ks)| == |ks|
    decreases |ks|
  {
    if ks != [] {
      VariablesAtLength(s, ks[1..]);
    }
  }

  /** Counting from `i` counts `s[i]` and then counts from `i + 1`. */
  lemma CountFrom(s: string, i: nat, c: char)
    requires i < |s|
    ensures CountChar(s[i..], c) == (if s[i] == c then 1 else 0) + CountChar(s[i + 1..], c)
  {
    assert s[i..][1..] == s[i + 1..];
  }

  /** A later suffix holds no more occurrences. */
  lemma CountFromLater(s: string, i: nat, j: nat, c: char)
    requires i <= j <= |s|
    ensures CountChar(s[j..], c) <= CountChar(s[i..], c)
  {
    assert s[i..] == s[i..j] + s[j..];
    CountCharAppend(s[i..j], s[j..], c);
  }

  /** The bind-variable loop of extractSqlQueries. */
  /** One variable reported at `i`: appending it to `vars` keeps the loop's account. */
  lemma BindScanStep(s: string, i: nat, n: nat, vars: seq<string>)
    requires i + 1 < |s| && s[i] == ':' && IsWordChar(s[i + 1]) && n == WordRun(s, i + 1)
    ensures i + 1 + n <= |s|
    ensures vars + BindVariablesFrom(s, i) == (vars + [s[i + 1..i + 1 + n]]) + BindVariablesFrom(s, i + 1 + n)
  {
    var rest := BindVariablesFrom(s, i + 1 + n);
    assert BindVariablesFrom(s, i) == [s[i + 1..i + 1 + n]] + rest;
    assert vars + ([s[i + 1..i + 1 + n]] + rest) == (vars + [s[i + 1..i + 1 + n]]) + rest;
  }

  /** No variable starts at `i`: the scan moves on by one character. */
  lemma BindScanSkip(s: string, i: nat)
    requires i + 1 < |s| && !(s[i] == ':' && IsWordChar(s[i + 1]))
    ensures BindVariablesFrom(s, i) == BindVariablesFrom(s, i + 1)
  {
  }

  method ScanBindVariables(sql: string) returns (vars: seq<string>)
    ensures vars == BindVariablesFrom(sql, 0)
  {
    vars := [];
    var i := 0;
    while i + 1 < |sql|
      invariant 0 <= i <= |sql|
      invariant vars + BindVariablesFrom(sql, i) == BindVariablesFrom(sql, 0)
      decreases |sql| - i
    {
      if sql[i] == ':' && IsWordChar(sql[i + 1]) {
        var n := WordRun(sql, i + 1);
        BindScanStep(sql, i, n, vars);
        vars := vars + [sql[i + 1..i + 1 + n]];
        i := i + 1 + n;
      } else {
        BindScanSkip(sql, i);
        i := i + 1;
      }
    }
    assert vars + BindVariablesFrom(sql, i) == vars + [];
    assert vars + [] == vars;
  }

  // ---------------------------------------------------------------------------
  // Look-behind windows
  // ---------------------------------------------------------------------------

  /** `content.substring(max(0, start - n), start)`. */
  function LookBehind(content: string, start: nat, n: nat): (w: string)
    requires start <= |content|
    ensures |w| == (if start < n then start else n)
    ensures w == content[start - |w|..start]
  {
    content[if start < n then 0 else start - n..start]
  }

  /** `p` occurs in the window iff it occurs in `content` ending no later than `start` and starting no earlier than `start - n`. */
  lemma LookBehindContains(content: string, start: nat, n: nat, p: string)
    requires start <= |content|
    ensures Contains(LookBehind(content, start, n), p)
      <==> exists i :: start - n <= i && i + |p| <= start && MatchAt(content, p, i)
  {
    var w := LookBehind(content, start, n);
    var lo := start - |w|;
    if Contains(w, p) {
      var i :| 0 <= i <= |w| && MatchAt(w, p, i);
      SliceMatch(content, lo, start, p, i);
    }
    if exists i :: start - n <= i && i + |p| <= start && MatchAt(content, p, i) {
      var i :| start - n <= i && i + |p| <= start && MatchAt(content, p, i);
      SliceMatch(content, lo, start, p, i - lo);
      assert MatchAt(w, p, i - lo);
    }
  }

  // ---------------------------------------------------------------------------
  // The comment above a declaration
  // ---------------------------------------------------------------------------

  // A line Java's scan counts as comment: it starts with `//`, `/*` or `*`.
  predicate IsCommentLine(line: string)
  {
    line != [] && (line[0] == '*' || (line[0] == '/' && |line| > 1 && (line[1] == '/' || line[1] == '*')))
  }

  // The character test is exactly `startsWith("//") || startsWith("/*") || startsWith("*")`.
  lemma CommentLineStartsWith(line: string)
    ensures IsCommentLine(line) <==> StartsWith(line, "//") || StartsWith(line, "/*") || StartsWith(line, "*")
  {
    if |line| >= 2 {
      assert line[..2] == [line[0], line[1]];
    }
    if |line| >= 1 {
      assert line[..1] == [line[0]];
    }
  }

  /**
   * The trimmed comment lines directly above line index `hi` (inclusive),
   * top to bottom: scanning upwards, blank lines are skipped and the first
   * other non-comment line ends the block.
   */
  function CommentBlock(lines: seq<string>, hi: int): (block: seq<string>)
    requires hi < |lines|
    decreases hi + 1
  {
    if hi < 0 then []
    else
      var line := Trim(lines[hi]);
      if IsCommentLine(line) then CommentBlock(lines, hi - 1) + [line]
      else if line != "" then []
      else CommentBlock(lines, hi - 1)
  }

  /** Only comment lines are collected, and each is trimmed. */
  lemma {:induction false} CommentBlockLines(lines: seq<string>, hi: int)
    requires hi < |lines|
    ensures forall k :: 0 <= k < |CommentBlock(lines, hi)| ==>
      IsCommentLine(CommentBlock(lines, hi)[k]) && IsTrimmed(CommentBlock(lines, hi)[k])
    decreases hi + 1
  {
    if hi >= 0 {
      CommentBlockLines(lines, hi - 1);
    }
  }

  /** A comment line joins the block, above the part `done` already collected below it. */
  lemma CommentLineStep(lines: seq<string>, i: int, done: seq<string>)
    requires 0 <= i < |lines| && IsCommentLine(Trim(lines[i]))
    ensures CommentBlock(lines, i) + done == CommentBlock(lines, i - 1) + ([Trim(lines[i])] + done)
  {
    var below := CommentBlock(lines, i - 1);
    assert CommentBlock(lines, i) == below + [Trim(lines[i])];
    assert (below + [Trim(lines[i])]) + done == below + ([Trim(lines[i])] + done);
  }

  /** Any other non-blank line ends the block. */
  lemma CodeLineStep(lines: seq<string>, i: int, done: seq<string>)
    requires 0 <= i < |lines| && !IsCommentLine(Trim(lines[i])) && Trim(lines[i]) != ""
    ensures CommentBlock(lines, i) + done == done
  {
    CodeLineEnds(lines, i);
  }

  lemma CodeLineEnds(lines: seq<string>, i: int)
    requires 0 <= i < |lines| && !IsCommentLine(Trim(lines[i])) && Trim(lines[i]) != ""
    ensures CommentBlock(lines, i) == []
  {
  }

  /** A blank line is skipped. */
  lemma BlankLineStep(lines: seq<string>, i: int, done: seq<string>)
    requires 0 <= i < |lines| && Trim(lines[i]) == ""
    ensures CommentBlock(lines, i) + done == CommentBlock(lines, i - 1) + done
  {
    assert !IsCommentLine("");
  }

  lemma RenderCons(line: string, done: seq<string>)
    ensures Render([line] + done) == line + "\n" + Render(done)
  {
    assert ([line] + done)[1..] == done;
  }

  /** The StringBuilder text: each line followed by a line break. */
  function Render(block: seq<string>): (text: string)
    ensures |text| >= |block|
  {
    if block == [] then "" else block[0] + "\n" + Render(block[1..])
  }

  /** extractPrecedingComment as a value: null on line 1 or with no comment block. */
  function PrecedingComment(lines: seq<string>, lineNumber: int): (r: Option<string>)
    requires lineNumber - 2 < |lines|
    ensures lineNumber <= 1 ==> r.None?
    ensures r.Some? <==> lineNumber > 1 && CommentBlock(lines, lineNumber - 2) != []
  {
    if lineNumber <= 1 then None
    else
      var block := CommentBlock(lines, lineNumber - 2);
      if |Render(block)| > 0 then Some(Trim(Render(block))) else None
  }

  /** The comment text starts with the topmost line of the block. */
  lemma PrecedingCommentStarts(lines: seq<string>, lineNumber: int)
    requires lineNumber - 2 < |lines|
    requires PrecedingComment(lines, lineNumber).Some?
    ensures var block := CommentBlock(lines, lineNumber - 2);
      StartsWith(PrecedingComment(lines, lineNumber).value, block[0])
  {
    CommentBlockFirst(lines, lineNumber - 2);
    TrimRenderStarts(CommentBlock(lines, lineNumber - 2));
  }

  /** Trimming the rendered block keeps its first line in front. */
  lemma TrimRenderStarts(block: seq<string>)
    requires block != [] && block[0] != [] && IsTrimmed(block[0])
    ensures StartsWith(Trim(Render(block)), block[0])
  {
    RenderStarts(block);
    TrimKeepsPrefix(Render(block), block[0]);
  }

  /** The top line of a non-empty block is a trimmed, non-empty comment line. */
  lemma CommentBlockFirst(lines: seq<string>, hi: int)
    requires hi < |lines| && CommentBlock(lines, hi) != []
    ensures var first := CommentBlock(lines, hi)[0];
      first != [] && IsTrimmed(first)
  {
    CommentBlockLines(lines, hi);
    var first := CommentBlock(lines, hi)[0];
    assert IsCommentLine(first);
  }

  /** The rendered block starts with its first line. */
  lemma RenderStarts(block: seq<string>)
    requires block != []
    ensures StartsWith(Render(block), block[0])
  {
    var text := Render(block);
    assert text == block[0] + ("\n" + Render(block[1..]));
    assert text[..|block[0]|] == block[0];
  }

  /** extractPrecedingComment: null on line 1, else the trimmed text the backward scan built, when not empty. */
  method ExtractPrecedingComment(lines: seq<string>, lineNumber: int) returns (comment: Option<string>)
    requires lineNumber - 2 < |lines|
    ensures comment == PrecedingComment(lines, lineNumber)
  {
    if lineNumber <= 1 {
      return None;
    }
    var text;
    ghost var block;
    text, block := ScanCommentBlock(lines, lineNumber - 2);
    comment := if |text| > 0 then Some(Trim(text)) else None;
    PrecedingCommentOfBlock(lines, lineNumber, block);
  }

  /** The backward loop of extractPrecedingComment, which prepends each comment line to the text. */
  method ScanCommentBlock(lines: seq<string>, hi: int) returns (text: string, ghost done: seq<string>)
    requires 0 <= hi < |lines|
    ensures text == Render(CommentBlock(lines, hi))
    ensures done == CommentBlock(lines, hi)
  {
    ghost var whole := CommentBlock(lines, hi);
    text := "";
    done := [];
    var i := hi;
    assert whole + [] == whole;
    while i >= 0
      invariant -1 <= i <= hi
      invariant whole == CommentBlock(lines, i) + done
      invariant text == Render(done)
    {
      var line := Trim(lines[i]);
      if IsCommentLine(line) {
        CommentLineStep(lines, i, done);
        RenderCons(line, done);
        text := line + "\n" + text;
        done := [line] + done;
      } else if line != "" {
        CodeLineStep(lines, i, done);
        return;
      } else {
        BlankLineStep(lines, i, done);
      }
      i := i - 1;
    }
    assert CommentBlock(lines, i) == [] && [] + done == done;
  }

  /** The comment is the trimmed rendering of the block, when that is not empty. */
  lemma PrecedingCommentOfBlock(lines: seq<string>, lineNumber: int, block: seq<string>)
    requires 1 < lineNumber && lineNumber - 2 < |lines| && CommentBlock(lines, lineNumber - 2) == block
    ensures PrecedingComment(lines, lineNumber) == if |Render(block)| > 0 then Some(Trim(Render(block))) else None
  {
  }

  // ---------------------------------------------------------------------------
  // Lines: the `content.split("\n")` array the comment scan indexes
  // ---------------------------------------------------------------------------

  /** The line piece holding a non-break character is not empty. */
  lemma {:induction false} SplitPieceNonEmpty(a: string, x: char, b: string, sep: char)
    requires x != sep
    ensures CountChar(a, sep) < |SplitOn(a + [x] + b, sep)|
    ensures SplitOn(a + [x] + b, sep)[CountChar(a, sep)] != ""
    decreases |a|
  {
    var s := a + [x] + b;
    CountCharAppend(a, [x] + b, sep);
    assert s == a + ([x] + b);
    if a != [] {
      assert s[1..] == a[1..] + [x] + b;
      SplitPieceNonEmpty(a[1..], x, b, sep);
    }
  }

  /** The line array reaches the line holding any non-break character. */
  lemma LinesCover(content: string, start: nat)
    requires ValidStart(content, start)
    ensures FindLineNumber(content, start) - 2 < |JavaSplit(content, '\n')|
  {
    var a := content[..start];
    var b := content[start + 1..];
    assert content == a + [content[start]] + b;
    var c := CountChar(a, '\n');
    CountCharPositive(a, '\n');
    if '\n' in content {
      var pieces := SplitOn(content, '\n');
      SplitPieceNonEmpty(a, content[start], b, '\n');
    }
  }

  // ---------------------------------------------------------------------------
  // The extract* loops
  // ---------------------------------------------------------------------------

  /** What extractFunctions records for one match (not called for `main`). */
  function FunctionOf(content: string, lines: seq<string>, m: FunctionMatch): (f: FunctionInfo)
    requires ValidFunctionMatch(content, m) && lines == JavaSplit(content, '\n')
    ensures f.name == m.name && |f.signature| == |m.text| && MatchAt(content, f.signature, m.start)
    ensures f.isStatic <==> exists i :: m.start - 20 <= i && i + 6 <= m.start && MatchAt(content, "static", i)
  {
    FunctionInfo(m.name, FindLineNumber(content, m.start), m.returnType, ParseParameters(Some(m.params)), m.text,
                 CommentAbove(content, lines, m.start), StaticBefore(content, m.start))
  }

  /** The comment block above the line holding offset `start`. */
  function CommentAbove(content: string, lines: seq<string>, start: nat): Option<string>
    requires ValidStart(content, start) && lines == JavaSplit(content, '\n')
  {
    LinesCover(content, start);
    PrecedingComment(lines, FindLineNumber(content, start))
  }

  /** `static` within the 20 characters before `start`. */
  function StaticBefore(content: string, start: nat): (b: bool)
    requires start <= |content|
    ensures b <==> exists i :: start - 20 <= i && i + 6 <= start && MatchAt(content, "static", i)
  {
    LookBehindContains(content, start, 20, "static");
    Contains(LookBehind(content, start, 20), "static")
  }

  function Functions(content: string, ms: seq<FunctionMatch>): (fs: seq<FunctionInfo>)
    requires forall k :: 0 <= k < |ms| ==> ValidFunctionMatch(content, ms[k])
    ensures |fs| <= |ms|
    ensures forall k :: 0 <= k < |fs| ==> fs[k].name != "main"
  {
    if ms == [] then []
    else
      var m := ms[|ms| - 1];
      Functions(content, ms[..|ms| - 1])
      + (if m.name == "main" then [] else [FunctionOf(content, JavaSplit(content, '\n'), m)])
  }

  lemma FunctionsSnoc(content: string, ms: seq<FunctionMatch>, i: nat)
    requires forall k :: 0 <= k < |ms| ==> ValidFunctionMatch(content, ms[k])
    requires i < |ms|
    ensures Functions(content, ms[..i + 1]) == Functions(content, ms[..i])
      + (if ms[i].name == "main" then [] else [FunctionOf(content, JavaSplit(content, '\n'), ms[i])])
  {
    var p := ms[..i + 1];
    assert p[..|p| - 1] == ms[..i];
  }

  /** Every match except one named `main` is recorded, in match order. */
  lemma {:induction false} FunctionsKeepNonMain(content: string, ms: seq<FunctionMatch>)
    requires forall k :: 0 <= k < |ms| ==> ValidFunctionMatch(content, ms[k])
    ensures |Functions(content, ms)| == |ms| - CountMain(ms)
  {
    if ms != [] {
      FunctionsKeepNonMain(content, ms[..|ms| - 1]);
    }
  }

  function CountMain(ms: seq<FunctionMatch>): nat
  {
    if ms == [] then 0 else CountMain(ms[..|ms| - 1]) + (if ms[|ms| - 1].name == "main" then 1 else 0)
  }

  method ExtractFunctions(content: string, ms: seq<FunctionMatch>) returns (functions: seq<FunctionInfo>)
    requires forall k :: 0 <= k < |ms| ==> ValidFunctionMatch(content, ms[k])
    ensures functions == Functions(content, ms)
  {
    var lines := JavaSplit(content, '\n');
    functions := [];
    var i := 0;
    while i < |ms|
      invariant 0 <= i <= |ms|
      invariant functions == Functions(content, ms[..i])
    {
      var m := ms[i];
      FunctionsSnoc(content, ms, i);
      if m.name != "main" {
        var lineNumber := FindLineNumber(content, m.start);
        LinesCover(content, m.start);
        var comment := ExtractPrecedingComment(lines, lineNumber);
        var isStatic := Contains(LookBehind(content, m.start, 20), "static");
        var f := FunctionInfo(m.name, lineNumber, m.returnType, ParseParameters(Some(m.params)), m.text, comment, isStatic);
        assert f == FunctionOf(content, lines, m);
        functions := functions + [f];
      }
      i := i + 1;
    }
    assert ms[..|ms|] == ms;
  }

  function StructOf(content: string, lines: seq<string>, m: StructMatch): (r: Result<StructInfo, AnalyzerError>)
    requires ValidStart(content, m.start) && lines == JavaSplit(content, '\n')
    ensures r.Ok? ==> r.value.name == m.name && r.value.lineNumber == FindLineNumber(content, m.start)
    ensures r.Ok? <==> ParseStructFields(m.body).Ok?
  {
    match ParseStructFields(m.body)
    case Err(e) => Err(e)
    case Ok(fields) => Ok(StructInfo(m.name, FindLineNumber(content, m.start), fields, CommentAbove(content, lines, m.start)))
  }

  /** extractStructs as a value: the first struct whose fields fail to parse aborts the analysis. */
  function Structs(content: string, ms: seq<StructMatch>): (r: Result<seq<StructInfo>, AnalyzerError>)
    requires forall k :: 0 <= k < |ms| ==> ValidStart(content, ms[k].start)
    ensures r.Ok? ==> |r.value| == |ms|
  {
    if ms == [] then Ok([])
    else
      var init := ms[..|ms| - 1];
      match Structs(content, init)
      case Err(e) => Err(e)
      case Ok(done) =>
        match StructOf(content, JavaSplit(content, '\n'), ms[|ms| - 1])
        case Err(e) => Err(e)
        case Ok(s) => Ok(done + [s])
  }

  /** The fields of the struct body parse without an exception. */
  predicate FieldsParse(m: StructMatch)
  {
    ParseStructFields(m.body).Ok?
  }

  /** The analysis fails exactly when some struct body holds a badly bracketed field. */
  lemma {:induction false} StructsOk(content: string, ms: seq<StructMatch>)
    requires forall k :: 0 <= k < |ms| ==> ValidStart(content, ms[k].start)
    ensures Structs(content, ms).Ok? <==> forall k :: 0 <= k < |ms| ==> FieldsParse(ms[k])
  {
    if ms != [] {
      var init := ms[..|ms| - 1];
      var last := ms[|ms| - 1];
      StructsOk(content, init);
      assert Structs(content, ms).Ok? <==> Structs(content, init).Ok? && FieldsParse(last) by {
        var s := StructOf(content, JavaSplit(content, '\n'), last);
        assert s.Ok? <==> ParseStructFields(last.body).Ok?;
      }
      AllSnoc(ms, init, FieldsParse);
    }
  }

  /** A property holds of every element exactly when it holds of the prefix and of the last element. */
  lemma AllSnoc<T>(xs: seq<T>, init: seq<T>, p: T -> bool)
    requires xs != [] && init == xs[..|xs| - 1]
    ensures (forall k :: 0 <= k < |xs| ==> p(xs[k])) <==>
      (forall k :: 0 <= k < |init| ==> p(init[k])) && p(xs[|xs| - 1])
  {
    assert forall k :: 0 <= k < |init| ==> xs[k] == init[k];
  }

  method ExtractStructs(content: string, ms: seq<StructMatch>) returns (r: Result<seq<StructInfo>, AnalyzerError>)
    requires forall k :: 0 <= k < |ms| ==> ValidStart(content, ms[k].start)
    ensures r == Structs(content, ms)
  {
    var lines := JavaSplit(content, '\n');
    var structs := [];
    var i := 0;
    while i < |ms|
      invariant 0 <= i <= |ms|
      invariant Structs(content, ms[..i]) == Ok(structs)
    {
      var m := ms[i];
      var lineNumber := FindLineNumber(content, m.start);
      LinesCover(content, m.start);
      var comment := ExtractPrecedingComment(lines, lineNumber);
      var fields := ParseStructFields(m.body);
      StructsStep(content, ms, i, structs);
      if fields.Err? {
        StructsErrSticky(content, ms, i + 1);
        return Err(fields.error);
      }
      structs := structs + [StructInfo(m.name, lineNumber, fields.value, comment)];
      i := i + 1;
    }
    assert ms[..|ms|] == ms;
    r := Ok(structs);
  }

  /** One more match either fails the analysis with its parse error or appends its record. */
  lemma StructsStep(content: string, ms: seq<StructMatch>, i: nat, structs: seq<StructInfo>)
    requires forall k :: 0 <= k < |ms| ==> ValidStart(content, ms[k].start)
    requires i < |ms| && Structs(content, ms[..i]) == Ok(structs)
    ensures Structs(content, ms[..i + 1]) ==
      match StructOf(content, JavaSplit(content, '\n'), ms[i])
      case Err(e) => Err(e)
      case Ok(s) => Ok(structs + [s])
  {
    var p := ms[..i + 1];
    assert p[..|p| - 1] == ms[..i] && p[|p| - 1] == ms[i];
  }

  /** Once a prefix of the matches fails, the whole list fails with the same error. */
  lemma {:induction false} StructsErrSticky(content: string, ms: seq<StructMatch>, n: nat)
    requires forall k :: 0 <= k < |ms| ==> ValidStart(content, ms[k].start)
    requires n <= |ms| && Structs(content, ms[..n]).Err?
    ensures Structs(content, ms) == Structs(content, ms[..n])
    decreases |ms| - n
  {
    if n < |ms| {
      assert ms[..n + 1][..n] == ms[..n];
      StructsErrSticky(content, ms, n + 1);
    } else {
      assert ms[..n] == ms;
    }
  }

  function EnumOf(content: string, m: EnumMatch): (e: EnumInfo)
    requires m.start <= |content|
    ensures e.name == (if m.name.Some? then m.name.value else "AnonymousEnum")
    ensures e.values == EnumValues(m.body)
  {
    EnumInfo(m.name.GetOr("AnonymousEnum"), FindLineNumber(content, m.start), EnumValues(m.body))
  }

  /** The record of one enum match, as the function the loop applies. */
  function EnumRecord(content: string): EnumMatch --> EnumInfo
  {
    (m: EnumMatch) requires m.start <= |content| => EnumOf(content, m)
  }

  /** The record of every enum match, in match order. */
  function Enums(content: string, ms: seq<EnumMatch>): (es: seq<EnumInfo>)
    requires forall k :: 0 <= k < |ms| ==> ms[k].start <= |content|
    ensures |es| == |ms|
  {
    Map(ms, EnumRecord(content))
  }

  /** Each match yields its own record, at its own index. */
  lemma EnumsAt(content: string, ms: seq<EnumMatch>)
    requires forall k :: 0 <= k < |ms| ==> ms[k].start <= |content|
    ensures forall k :: 0 <= k < |ms| ==> Enums(content, ms)[k] == EnumOf(content, ms[k])
  {
    MapAt(ms, EnumRecord(content));
  }


  method ExtractEnums(content: string, ms: seq<EnumMatch>) returns (enums: seq<EnumInfo>)
    requires forall k :: 0 <= k < |ms| ==> ms[k].start <= |content|
    ensures enums == Enums(content, ms)
  {
    enums := [];
    var i := 0;
    while i < |ms|
      invariant 0 <= i <= |ms|
      invariant enums == Enums(content, ms[..i])
    {
      var e := EnumOf(content, ms[i]);
      MapSnoc(ms, EnumRecord(content), i);
      enums := enums + [e];
      i := i + 1;
    }
    assert ms[..|ms|] == ms;
  }

  /** What extractSqlQueries records for one EXEC SQL match. */
  function SqlOf(content: string, m: SqlMatch): (q: SqlQuery)
    requires m.start <= |content|
    ensures q.sqlType == ToUpper(m.verb) && q.query == Trim(m.body)
    ensures q.bindVariables == BindVariablesFrom(Trim(m.body), 0)
  {
    var body := Trim(m.body);
    SqlQuery(FindLineNumber(content, m.start), ToUpper(m.verb), body, BindVariablesFrom(body, 0),
             IsDynamicSql(content, m.start, body))
  }

  /** `sprintf` in the 100 characters before the match, or a printf placeholder in the query. */
  function IsDynamicSql(content: string, start: nat, body: string): (b: bool)
    requires start <= |content|
    ensures b <==> ((exists i :: start - 100 <= i && i + 7 <= start && MatchAt(content, "sprintf", i))
      || Contains(body, "%s") || Contains(body, "%d"))
  {
    LookBehindContains(content, start, 100, "sprintf");
    Contains(LookBehind(content, start, 100), "sprintf") || Contains(body, "%s") || Contains(body, "%d")
  }

  lemma SqlOfParts(content: string, m: SqlMatch)
    requires m.start <= |content|
    ensures SqlOf(content, m) == SqlQuery(FindLineNumber(content, m.start), ToUpper(m.verb), Trim(m.body),
      BindVariablesFrom(Trim(m.body), 0), IsDynamicSql(content, m.start, Trim(m.body)))
  {
  }

  /** The record of one EXEC SQL match, as the function the loop applies. */
  function SqlRecord(content: string): SqlMatch --> SqlQuery
  {
    (m: SqlMatch) requires m.start <= |content| => SqlOf(content, m)
  }

  /** The record of every EXEC SQL match, in match order. */
  function Sqls(content: string, ms: seq<SqlMatch>): (qs: seq<SqlQuery>)
    requires forall k :: 0 <= k < |ms| ==> ms[k].start <= |content|
    ensures |qs| == |ms|
  {
    Map(ms, SqlRecord(content))
  }

  /** Each match yields its own record, at its own index. */
  lemma SqlsAt(content: string, ms: seq<SqlMatch>)
    requires forall k :: 0 <= k < |ms| ==> ms[k].start <= |content|
    ensures forall k :: 0 <= k < |ms| ==> Sqls(content, ms)[k] == SqlOf(content, ms[k])
  {
    MapAt(ms, SqlRecord(content));
  }


  method ExtractSqlQueries(content: string, ms: seq<SqlMatch>) returns (queries: seq<SqlQuery>)
    requires forall k :: 0 <= k < |ms| ==> ms[k].start <= |content|
    ensures queries == Sqls(content, ms)
  {
    queries := [];
    var i := 0;
    while i < |ms|
      invariant 0 <= i <= |ms|
      invariant queries == Sqls(content, ms[..i])
    {
      var q := RecordSql(content, ms[i]);
      MapSnoc(ms, SqlRecord(content), i);
      queries := queries + [q];
      i := i + 1;
    }
    assert ms[..|ms|] == ms;
  }

  /** The body of the extractSqlQueries loop for one match, bind-variable scan included. */
  method RecordSql(content: string, m: SqlMatch) returns (q: SqlQuery)
    requires m.start <= |content|
    ensures q == SqlOf(content, m)
  {
    var sqlType := ToUpper(m.verb);
    var sqlBody := Trim(m.body);
    var lineNumber := FindLineNumber(content, m.start);
    var bindVars := ScanBindVariables(sqlBody);
    var isDynamic := IsDynamicSql(content, m.start, sqlBody);
    q := SqlQuery(lineNumber, sqlType, sqlBody, bindVars, isDynamic);
    SqlOfParts(content, m);
  }

  /** extractIncludes: the captured header names, in order. */
  method ExtractIncludes(ms: seq<string>) returns (includes: seq<string>)
    ensures includes == ms
  {
    includes := [];
    var i := 0;
    while i < |ms|
      invariant 0 <= i <= |ms|
      invariant includes == ms[..i]
    {
      includes := includes + [ms[i]];
      i := i + 1;
    }
  }

  function DefineOf(content: string, m: DefineMatch): (d: DefineInfo)
    requires m.start <= |content|
    ensures d.name == m.name && d.value == Trim(m.value)
    ensures d.isFunctionLike <==> m.params.Some?
  {
    DefineInfo(m.name, Trim(m.value), FindLineNumber(content, m.start), m.params.Some?)
  }

  /** The record of one #define match, as the function the loop applies. */
  function DefineRecord(content: string): DefineMatch --> DefineInfo
  {
    (m: DefineMatch) requires m.start <= |content| => DefineOf(content, m)
  }

  /** The record of every #define match, in match order. */
  function Defines(content: string, ms: seq<DefineMatch>): (ds: seq<DefineInfo>)
    requires forall k :: 0 <= k < |ms| ==> ms[k].start <= |content|
    ensures |ds| == |ms|
  {
    Map(ms, DefineRecord(content))
  }

  /** Each match yields its own record, at its own index. */
  lemma DefinesAt(content: string, ms: seq<DefineMatch>)
    requires forall k :: 0 <= k < |ms| ==> ms[k].start <= |content|
    ensures forall k :: 0 <= k < |ms| ==> Defines(content, ms)[k] == DefineOf(content, ms[k])
  {
    MapAt(ms, DefineRecord(content));
  }


  method ExtractDefines(content: string, ms: seq<DefineMatch>) returns (defines: seq<DefineInfo>)
    requires forall k :: 0 <= k < |ms| ==> ms[k].start <= |content|
    ensures defines == Defines(content, ms)
  {
    defines := [];
    var i := 0;
    while i < |ms|
      invariant 0 <= i <= |ms|
      invariant defines == Defines(content, ms[..i])
    {
      var d := DefineOf(content, ms[i]);
      MapSnoc(ms, DefineRecord(content), i);
      defines := defines + [d];
      i := i + 1;
    }
    assert ms[..|ms|] == ms;
  }

  /** Everything the regex engine finds in one file. */
  datatype Matches = Matches(
    functions: seq<FunctionMatch>, structs: seq<StructMatch>, enums: seq<EnumMatch>,
    sql: seq<SqlMatch>, includes: seq<string>, defines: seq<DefineMatch>)

  predicate ValidMatches(content: string, ms: Matches)
  {
    && (forall k :: 0 <= k < |ms.functions| ==> ValidFunctionMatch(content, ms.functions[k]))
    && (forall k :: 0 <= k < |ms.structs| ==> ValidStart(content, ms.structs[k].start))
    && (forall k :: 0 <= k < |ms.enums| ==> ms.enums[k].start <= |content|)
    && (forall k :: 0 <= k < |ms.sql| ==> ms.sql[k].start <= |content|)
    && (forall k :: 0 <= k < |ms.defines| ==> ms.defines[k].start <= |content|)
  }

  /** analyzeFile on already-read text: one record, or the exception a struct field raised. */
  method AnalyzeFile(fileName: string, content: string, ms: Matches) returns (r: Result<CFileStructure, AnalyzerError>)
    requires ValidMatches(content, ms)
    ensures r.Ok? <==> Structs(content, ms.structs).Ok?
    ensures r.Ok? ==>
      && r.value.fileType == DetermineFileType(fileName)
      && r.value.lineCount == CountLines(content)
      && r.value.functions == Functions(content, ms.functions)
      && r.value.structs == Structs(content, ms.structs).value
      && r.value.enums == Enums(content, ms.enums)
      && r.value.sqlQueries == Sqls(content, ms.sql)
      && r.value.includes == ms.includes
      && r.value.defines == Defines(content, ms.defines)
      && r.value.globalVariables == []
  {
    var functions := ExtractFunctions(content, ms.functions);
    var structs := ExtractStructs(content, ms.structs);
    if structs.Err? {
      return Err(structs.error);
    }
    var enums := ExtractEnums(content, ms.enums);
    var queries := ExtractSqlQueries(content, ms.sql);
    var includes := ExtractIncludes(ms.includes);
    var defines := ExtractDefines(content, ms.defines);
    r := Ok(CFileStructure(fileName, DetermineFileType(fileName), CountLines(content),
                           functions, structs.value, enums, queries, includes, defines, []));
  }
}
