/**
 * The `.env` file synchronisation: reading selected `KEY=value` lines,
 * rewriting them in place, and converting between configuration keys and
 * environment keys.  The file is its list of lines, missing, or one
 * whose reading throws an IOException.
 */
module EnvSync {
  import opened Wrappers
  import opened Strings
  import opened OrderedMaps

  // ---------------------------------------------------------------------------
  // Line syntax
  // ---------------------------------------------------------------------------

  /**
   * The key part of the line pattern: as written `[A-Z_]`, and the
   * pattern with digits admitted.
   */
  datatype KeyPattern = UpperUnderscore | UpperDigitUnderscore

  /** The pattern the rest of the model reads and writes with. */
  const Pattern := UpperDigitUnderscore

  predicate KeyChar(p: KeyPattern, c: char)
  {
    'A' <= c <= 'Z' || c == '_' || (p == UpperDigitUnderscore && '0' <= c <= '9')
  }

  predicate ValidKey(p: KeyPattern, k: string)
  {
    |k| > 0 && forall i :: 0 <= i < |k| ==> KeyChar(p, k[i])
  }

  /** The characters a Java regex `.` does not match. */
  predicate IsLineTerminator(c: char)
  {
    c == '\n' || c == '\r' || c == '\U{0085}' || c == '\U{2028}' || c == '\U{2029}'
  }

  predicate NoTerminator(s: string)
  {
    forall i :: 0 <= i < |s| ==> !IsLineTerminator(s[i])
  }

  /** The length of the longest run of key characters at the start of `s`. */
  function KeyRun(p: KeyPattern, s: string): (n: nat)
    ensures n <= |s| && forall i :: 0 <= i < n ==> KeyChar(p, s[i])
    ensures n < |s| ==> !KeyChar(p, s[n])
  {
    if s == [] || !KeyChar(p, s[0]) then 0 else 1 + KeyRun(p, s[1..])
  }

  /**
   * A trimmed line against `^(KEY)=(.*)$`: the key is the whole run of key
   * characters, an '=' must follow it, and the value is the rest.
   */
  function ParseLine(p: KeyPattern, t: string): (r: Option<(string, string)>)
    ensures r.Some? ==> ValidKey(p, r.value.0) && NoTerminator(r.value.1)
    ensures r.Some? ==> t == r.value.0 + "=" + r.value.1
  {
    var n := KeyRun(p, t);
    if 0 < n < |t| && t[n] == '=' && NoTerminator(t[n + 1..]) then
      assert t == t[..n] + "=" + t[n + 1..];
      Some((t[..n], t[n + 1..]))
    else None
  }

  /** A key, '=' and a value without line terminators read back as that key and value. */
  lemma ParseLineOf(p: KeyPattern, k: string, v: string)
    requires ValidKey(p, k) && NoTerminator(v)
    ensures ParseLine(p, k + "=" + v) == Some((k, v))
  {
    var t := k + "=" + v;
    assert t[|k|] == '=';
    var n := KeyRun(p, t);
    assert t[..|k|] == k && t[|k| + 1..] == v;
  }

  /** Lines that are skipped before matching: blank after trimming, or a comment. */
  predicate Skipped(t: string)
  {
    t == [] || StartsWith(t, "#")
  }

  /** The entry a file line holds, if any. */
  function Entry(p: KeyPattern, line: string): Option<(string, string)>
  {
    var t := Trim(line);
    if Skipped(t) then None else ParseLine(p, t)
  }

  lemma {:induction false} TrimEndAppend(a: string, v: string)
    requires a != [] && !IsTrimmable(a[|a| - 1])
    ensures TrimEnd(a + v) == a + TrimEnd(v)
    decreases |v|
  {
    if v == [] {
      assert a + v == a;
    } else if IsTrimmable(v[|v| - 1]) {
      assert (a + v)[..|a + v| - 1] == a + v[..|v| - 1];
      TrimEndAppend(a, v[..|v| - 1]);
    }
  }

  /** Trimming a line that starts with a key only trims the value's end. */
  lemma TrimWritten(k: string, v: string)
    requires k != [] && !IsTrimmable(k[0])
    ensures Trim(k + "=" + v) == k + "=" + TrimEnd(v)
  {
    var x := k + "=" + v;
    assert x[0] == k[0];
    assert TrimStart(x) == x;
    assert x == (k + "=") + v;
    TrimEndAppend(k + "=", v);
  }

  lemma TrimEndNoTerminator(v: string)
    requires NoTerminator(v)
    ensures NoTerminator(TrimEnd(v))
  {
    var w := TrimEnd(v);
    TrimEndSpec(v);
    forall i | 0 <= i < |w| ensures !IsLineTerminator(w[i]) {
      assert w[i] == v[i];
    }
  }

  /** A written line `key=value` yields that key and the value with trailing blanks trimmed. */
  lemma EntryOf(p: KeyPattern, k: string, v: string)
    requires ValidKey(p, k) && NoTerminator(v)
    ensures Entry(p, k + "=" + v) == Some((k, TrimEnd(v)))
  {
    assert KeyChar(p, k[0]);
    TrimWritten(k, v);
    TrimEndNoTerminator(v);
    var t := k + "=" + TrimEnd(v);
    assert t[0] == k[0];
    NotSkipped(t);
    ParseLineOf(p, k, TrimEnd(v));
  }

  lemma NotSkipped(t: string)
    requires t != [] && t[0] != '#'
    ensures !Skipped(t)
  {
    assert t[..1][0] == t[0];
  }

  // ---------------------------------------------------------------------------
  // Loading
  // ---------------------------------------------------------------------------

  /** The entry of each line, in file order. */
  function Entries(p: KeyPattern, lines: seq<string>): (es: seq<Option<(string, string)>>)
    ensures |es| == |lines|
  {
    if lines == [] then [] else Entries(p, lines[..|lines| - 1]) + [Entry(p, lines[|lines| - 1])]
  }

  lemma {:induction false} EntriesAt(p: KeyPattern, lines: seq<string>, i: nat)
    requires i < |lines|
    ensures Entries(p, lines)[i] == Entry(p, lines[i])
  {
    if i < |lines| - 1 {
      EntriesAt(p, lines[..|lines| - 1], i);
    }
  }

  lemma EntriesSnoc(p: KeyPattern, lines: seq<string>, i: nat)
    requires i < |lines|
    ensures Entries(p, lines[..i + 1]) == Entries(p, lines[..i]) + [Entry(p, lines[i])]
  {
    assert lines[..i + 1][..i] == lines[..i];
  }

  /** One entry's effect on the loaded values: a requested key takes the entry's value. */
  function LoadStep(env: map<string, string>, e: Option<(string, string)>, keys: set<string>): map<string, string>
  {
    if e.Some? && e.value.0 in keys then env[e.value.0 := e.value.1] else env
  }

  /** The requested keys' values over a list of entries: a later entry for the same key wins. */
  function LoadEntries(es: seq<Option<(string, string)>>, keys: set<string>): (env: map<string, string>)
    ensures forall k :: k in env ==> k in keys
  {
    if es == [] then map[] else LoadStep(LoadEntries(es[..|es| - 1], keys), es[|es| - 1], keys)
  }

  lemma LoadSnoc(p: KeyPattern, lines: seq<string>, i: nat, keys: set<string>)
    requires i < |lines|
    ensures LoadEntries(Entries(p, lines[..i + 1]), keys)
         == LoadStep(LoadEntries(Entries(p, lines[..i]), keys), Entry(p, lines[i]), keys)
  {
    EntriesSnoc(p, lines, i);
    var es := Entries(p, lines[..i + 1]);
    assert es[..|es| - 1] == Entries(p, lines[..i]);
  }

  /** The `.env` file as the services find it on disk. */
  datatype EnvFile = Missing | Unreadable | Lines(lines: seq<string>)

  /** The values the file's lines give to the requested keys. */
  function Load(p: KeyPattern, lines: seq<string>, keys: set<string>): (env: map<string, string>)
    ensures forall k :: k in env ==> k in keys && ValidKey(p, k)
  {
    var env := LoadEntries(Entries(p, lines), keys);
    LoadKeysValid(p, lines, keys);
    env
  }

  /** `loadEnvVariables`: a missing or unreadable file gives no values. */
  function LoadEnv(p: KeyPattern, file: EnvFile, keys: set<string>): map<string, string>
  {
    if file.Lines? then Load(p, file.lines, keys) else map[]
  }

  method LoadEnvVariables(p: KeyPattern, file: EnvFile, keys: set<string>)
    returns (env: map<string, string>)
    ensures env == LoadEnv(p, file, keys)
  {
    env := map[];
    if !file.Lines? {
      return;
    }
    var lines := file.lines;
    for i := 0 to |lines|
      invariant env == LoadEntries(Entries(p, lines[..i]), keys)
    {
      var e := Entry(p, lines[i]);
      LoadSnoc(p, lines, i, keys);
      if e.Some? && e.value.0 in keys {
        env := env[e.value.0 := e.value.1];
      }
    }
    assert lines[..|lines|] == lines;
  }

  /** Every loaded key is a requested key the pattern admits. */
  lemma LoadKeysValid(p: KeyPattern, lines: seq<string>, keys: set<string>)
    ensures forall k :: k in LoadEntries(Entries(p, lines), keys) ==> ValidKey(p, k)
  {
    forall k | k in LoadEntries(Entries(p, lines), keys)
      ensures ValidKey(p, k)
    {
      LoadIsLastValue(Entries(p, lines), keys, k);
      var i := LastIndex(Entries(p, lines), k);
      EntriesAt(p, lines, i);
    }
  }

  /** The value of the last entry for `k`. */
  function LastValue(es: seq<Option<(string, string)>>, k: string): Option<string>
  {
    if es == [] then None
    else match es[|es| - 1]
      case Some((k', v)) => if k' == k then Some(v) else LastValue(es[..|es| - 1], k)
      case None => LastValue(es[..|es| - 1], k)
  }

  /** Where the last entry for `k` is. */
  function LastIndex(es: seq<Option<(string, string)>>, k: string): (i: int)
    ensures LastValue(es, k).None? <==> i == -1
    ensures i != -1 ==> 0 <= i < |es| && es[i] == Some((k, LastValue(es, k).value))
  {
    if es == [] then -1
    else match es[|es| - 1]
      case Some((k', v)) => if k' == k then |es| - 1 else LastIndex(es[..|es| - 1], k)
      case None => LastIndex(es[..|es| - 1], k)
  }

  /** A requested key is loaded exactly when some entry holds it, with the last such entry's value. */
  lemma {:induction false} LoadIsLastValue(es: seq<Option<(string, string)>>, keys: set<string>, k: string)
    ensures k in LoadEntries(es, keys) <==> k in keys && LastValue(es, k).Some?
    ensures k in LoadEntries(es, keys) ==> LoadEntries(es, keys)[k] == LastValue(es, k).value
  {
    if es != [] {
      LoadIsLastValue(es[..|es| - 1], keys, k);
    }
  }

  /** When every entry for `k` has the value `w`, and one exists, `w` is what loads. */
  lemma {:induction false} LoadUniform(es: seq<Option<(string, string)>>, keys: set<string>, k: string, w: string, n: nat)
    requires k in keys && n < |es| && es[n].Some? && es[n].value.0 == k
    requires forall i :: 0 <= i < |es| && es[i].Some? && es[i].value.0 == k ==> es[i].value.1 == w
    ensures k in LoadEntries(es, keys) && LoadEntries(es, keys)[k] == w
  {
    var init := es[..|es| - 1];
    var e := es[|es| - 1];
    if !(e.Some? && e.value.0 == k) {
      assert init[n] == es[n];
      LoadUniform(init, keys, k, w, n);
    }
  }

  // ---------------------------------------------------------------------------
  // Saving
  // ---------------------------------------------------------------------------

  /** The update key a line with entry `e` is rewritten for. */
  function MatchedKey(e: Option<(string, string)>, updates: seq<(string, string)>): Option<string>
  {
    if e.Some? && Get(updates, e.value.0).Some? then Some(e.value.0) else None
  }

  /** A line as written back: a line whose key is updated becomes `key=newValue`. */
  function RewriteLine(line: string, e: Option<(string, string)>, updates: seq<(string, string)>): string
  {
    match MatchedKey(e, updates)
    case Some(k) => k + "=" + Get(updates, k).value
    case None => line
  }

  function Rewritten(lines: seq<string>, es: seq<Option<(string, string)>>, updates: seq<(string, string)>): (r: seq<string>)
    requires |es| == |lines|
    ensures |r| == |lines|
  {
    seq(|lines|, i requires 0 <= i < |lines| => RewriteLine(lines[i], es[i], updates))
  }

  lemma RewrittenAt(lines: seq<string>, es: seq<Option<(string, string)>>, updates: seq<(string, string)>, i: nat)
    requires |es| == |lines| && i < |lines|
    ensures Rewritten(lines, es, updates)[i] == RewriteLine(lines[i], es[i], updates)
  {
  }

  /** The update keys some line was rewritten for. */
  function MatchedKeys(es: seq<Option<(string, string)>>, updates: seq<(string, string)>): set<string>
  {
    if es == [] then {}
    else
      var m := MatchedKey(es[|es| - 1], updates);
      MatchedKeys(es[..|es| - 1], updates) + (if m.Some? then {m.value} else {})
  }

  lemma RewrittenSnoc(lines: seq<string>, es: seq<Option<(string, string)>>, updates: seq<(string, string)>)
    requires |es| == |lines| > 0
    ensures Rewritten(lines, es, updates)
         == Rewritten(lines[..|lines| - 1], es[..|es| - 1], updates) + [RewriteLine(lines[|lines| - 1], es[|es| - 1], updates)]
  {
    var r := Rewritten(lines, es, updates);
    var s := Rewritten(lines[..|lines| - 1], es[..|es| - 1], updates) + [RewriteLine(lines[|lines| - 1], es[|es| - 1], updates)];
    forall i | 0 <= i < |r|
      ensures r[i] == s[i]
    {
      RewrittenAt(lines, es, updates, i);
      if i < |lines| - 1 {
        RewrittenAt(lines[..|lines| - 1], es[..|es| - 1], updates, i);
      }
    }
  }

  /** One more line of the first pass: its rewrite is appended, and its key joins the matched ones. */
  lemma RewriteSnoc(lines: seq<string>, es: seq<Option<(string, string)>>, i: nat, updates: seq<(string, string)>)
    requires |es| == |lines| && i < |lines|
    ensures Rewritten(lines[..i + 1], es[..i + 1], updates)
         == Rewritten(lines[..i], es[..i], updates) + [RewriteLine(lines[i], es[i], updates)]
    ensures MatchedKeys(es[..i + 1], updates)
         == MatchedKeys(es[..i], updates) + (var m := MatchedKey(es[i], updates); if m.Some? then {m.value} else {})
  {
    assert lines[..i + 1][..i] == lines[..i];
    assert es[..i + 1][..i] == es[..i];
    RewrittenSnoc(lines[..i + 1], es[..i + 1], updates);
  }

  lemma SaveSnoc(p: KeyPattern, lines: seq<string>, i: nat, updates: seq<(string, string)>)
    requires i < |lines|
    ensures Rewritten(lines[..i + 1], Entries(p, lines[..i + 1]), updates)
         == Rewritten(lines[..i], Entries(p, lines[..i]), updates) + [RewriteLine(lines[i], Entry(p, lines[i]), updates)]
    ensures MatchedKeys(Entries(p, lines[..i + 1]), updates)
         == MatchedKeys(Entries(p, lines[..i]), updates)
            + (var m := MatchedKey(Entry(p, lines[i]), updates); if m.Some? then {m.value} else {})
  {
    EntriesSnoc(p, lines, i);
    var l := lines[..i + 1];
    var es := Entries(p, l);
    assert l[..i] == lines[..i];
    assert es[..i] == Entries(p, lines[..i]);
    assert l[..i + 1] == l && es[..i + 1] == es;
    RewriteSnoc(l, es, i, updates);
  }

  /** The lines appended for the updates no line matched, in update order. */
  function Appended(updates: seq<(string, string)>, matched: set<string>): seq<string>
  {
    if updates == [] then []
    else
      var e := updates[|updates| - 1];
      Appended(updates[..|updates| - 1], matched) + (if e.0 in matched then [] else [e.0 + "=" + e.1])
  }

  /** The new file: every line rewritten in place, then the unmatched updates. */
  function Save(p: KeyPattern, lines: seq<string>, updates: seq<(string, string)>): seq<string>
  {
    var es := Entries(p, lines);
    Rewritten(lines, es, updates) + Appended(updates, MatchedKeys(es, updates))
  }

  /** The message of the RuntimeException a failed read or write of the file turns into. */
  const UpdateFailedMessage := "Failed to update environment file"

  /** What `saveEnvVariables` does to the file: nothing, a new content, or the exception. */
  datatype SaveOutcome = NotSaved | Written(lines: seq<string>) | Failed(message: string)

  /**
   * `saveEnvVariables`: a missing file is left alone without an exception;
   * an IOException while reading the file, or while writing it back
   * (`writeOk` false), becomes the RuntimeException; otherwise the file
   * becomes the saved lines.
   */
  function SaveEnv(p: KeyPattern, file: EnvFile, updates: seq<(string, string)>, writeOk: bool): (r: SaveOutcome)
    ensures r.NotSaved? <==> file.Missing?
    ensures r.Failed? <==> file.Unreadable? || (file.Lines? && !writeOk)
    ensures r.Failed? ==> r.message == UpdateFailedMessage
    ensures r.Written? ==> file.Lines? && r.lines == Save(p, file.lines, updates)
  {
    match file
    case Missing => NotSaved
    case Unreadable => Failed(UpdateFailedMessage)
    case Lines(lines) => if writeOk then Written(Save(p, lines, updates)) else Failed(UpdateFailedMessage)
  }

  /** The second pass of `saveEnvVariables`: each update no line matched becomes a new line. */
  method AppendUnmatched(lines: seq<string>, updates: seq<(string, string)>, matched: set<string>)
    returns (r: seq<string>)
    ensures r == lines + Appended(updates, matched)
  {
    r := lines;
    for j := 0 to |updates|
      invariant r == lines + Appended(updates[..j], matched)
    {
      assert updates[..j + 1][..j] == updates[..j];
      if updates[j].0 !in matched {
        r := r + [updates[j].0 + "=" + updates[j].1];
      }
    }
    assert updates[..|updates|] == updates;
  }

  method SaveEnvVariables(p: KeyPattern, file: EnvFile, updates: seq<(string, string)>, writeOk: bool)
    returns (r: SaveOutcome)
    ensures r == SaveEnv(p, file, updates, writeOk)
  {
    match file
    case Missing =>
      return NotSaved;
    case Unreadable =>
      return Failed(UpdateFailedMessage);
    case Lines(lines) =>
      var newLines, updatedKeys := RewriteLines(p, lines, updates);
      newLines := AppendUnmatched(newLines, updates, updatedKeys);
      if !writeOk {
        return Failed(UpdateFailedMessage);
      }
      return Written(newLines);
  }

  /** The first pass of `saveEnvVariables`: each line rewritten in place, and the keys that were. */
  method RewriteLines(p: KeyPattern, lines: seq<string>, updates: seq<(string, string)>)
    returns (newLines: seq<string>, updatedKeys: set<string>)
    ensures newLines == Rewritten(lines, Entries(p, lines), updates)
    ensures updatedKeys == MatchedKeys(Entries(p, lines), updates)
  {
    newLines, updatedKeys := [], {};
    for i := 0 to |lines|
      invariant newLines == Rewritten(lines[..i], Entries(p, lines[..i]), updates)
      invariant updatedKeys == MatchedKeys(Entries(p, lines[..i]), updates)
    {
      SaveSnoc(p, lines, i, updates);
      var line, m := RewriteOne(lines[i], Entry(p, lines[i]), updates);
      newLines := newLines + [line];
      if m.Some? {
        updatedKeys := updatedKeys + {m.value};
      }
    }
    assert lines[..|lines|] == lines;
  }

  /** One line of the first pass: `key=newValue` for a line whose key is updated, the line itself otherwise. */
  method RewriteOne(line: string, e: Option<(string, string)>, updates: seq<(string, string)>)
    returns (newLine: string, m: Option<string>)
    ensures newLine == RewriteLine(line, e, updates) && m == MatchedKey(e, updates)
  {
    m := MatchedKey(e, updates);
    if m.Some? {
      newLine := m.value + "=" + Get(updates, m.value).value;
    } else {
      newLine := line;
    }
  }

  // ---------------------------------------------------------------------------
  // What a save keeps, rewrites and appends
  // ---------------------------------------------------------------------------

  lemma {:induction false} MatchedKeysWitness(es: seq<Option<(string, string)>>, updates: seq<(string, string)>, k: string)
    returns (i: nat)
    requires k in MatchedKeys(es, updates)
    ensures i < |es| && MatchedKey(es[i], updates) == Some(k)
  {
    var init := es[..|es| - 1];
    if MatchedKey(es[|es| - 1], updates) == Some(k) {
      i := |es| - 1;
    } else {
      i := MatchedKeysWitness(init, updates, k);
      assert init[i] == es[i];
    }
  }

  lemma {:induction false} MatchedKeysHas(es: seq<Option<(string, string)>>, updates: seq<(string, string)>, i: nat)
    requires i < |es| && MatchedKey(es[i], updates).Some?
    ensures MatchedKey(es[i], updates).value in MatchedKeys(es, updates)
  {
    var init := es[..|es| - 1];
    if i < |es| - 1 {
      assert init[i] == es[i];
      MatchedKeysHas(init, updates, i);
    }
  }

  lemma {:induction false} AppendedHas(updates: seq<(string, string)>, matched: set<string>, t: nat) returns (j: nat)
    requires t < |updates| && updates[t].0 !in matched
    ensures j < |Appended(updates, matched)| && Appended(updates, matched)[j] == updates[t].0 + "=" + updates[t].1
  {
    var init := updates[..|updates| - 1];
    if t == |updates| - 1 {
      j := |Appended(init, matched)|;
    } else {
      assert init[t] == updates[t];
      j := AppendedHas(init, matched, t);
    }
  }

  lemma {:induction false} AppendedFrom(updates: seq<(string, string)>, matched: set<string>, j: nat) returns (t: nat)
    requires j < |Appended(updates, matched)|
    ensures t < |updates| && updates[t].0 !in matched && Appended(updates, matched)[j] == updates[t].0 + "=" + updates[t].1
  {
    var init := updates[..|updates| - 1];
    if j < |Appended(init, matched)| {
      t := AppendedFrom(init, matched, j);
      assert init[t] == updates[t];
    } else {
      t := |updates| - 1;
    }
  }

  lemma {:induction false} AppendedNone(updates: seq<(string, string)>, matched: set<string>)
    requires forall t :: 0 <= t < |updates| ==> updates[t].0 in matched
    ensures Appended(updates, matched) == []
  {
    if updates != [] {
      var init := updates[..|updates| - 1];
      assert forall t :: 0 <= t < |init| ==> init[t] == updates[t];
      AppendedNone(init, matched);
    }
  }

  lemma SaveAt(p: KeyPattern, lines: seq<string>, updates: seq<(string, string)>, i: nat)
    requires i < |Save(p, lines, updates)|
    ensures i < |lines| ==> Save(p, lines, updates)[i] == RewriteLine(lines[i], Entry(p, lines[i]), updates)
    ensures i >= |lines| ==>
      Save(p, lines, updates)[i] == Appended(updates, MatchedKeys(Entries(p, lines), updates))[i - |lines|]
  {
    var es := Entries(p, lines);
    var r := Rewritten(lines, es, updates);
    var a := Appended(updates, MatchedKeys(es, updates));
    assert Save(p, lines, updates) == r + a;
    if i < |lines| {
      assert (r + a)[i] == r[i];
      EntriesAt(p, lines, i);
    } else {
      assert (r + a)[i] == a[i - |lines|];
    }
  }

  /** Blank, comment and non-matching lines, and lines of keys not updated, stay verbatim and in place. */
  lemma SaveKeepsOtherLines(p: KeyPattern, lines: seq<string>, updates: seq<(string, string)>, i: nat)
    requires i < |lines|
    requires Entry(p, lines[i]).None? || Get(updates, Entry(p, lines[i]).value.0).None?
    ensures i < |Save(p, lines, updates)| && Save(p, lines, updates)[i] == lines[i]
  {
    SaveAt(p, lines, updates, i);
  }

  /** A line holding an updated key becomes `key=newValue`, in place. */
  lemma SaveRewritesUpdatedLines(p: KeyPattern, lines: seq<string>, updates: seq<(string, string)>, i: nat, k: string, v: string)
    requires i < |lines| && Entry(p, lines[i]).Some? && Entry(p, lines[i]).value.0 == k
    requires Get(updates, k) == Some(v)
    ensures i < |Save(p, lines, updates)| && Save(p, lines, updates)[i] == k + "=" + v
  {
    SaveAt(p, lines, updates, i);
  }

  /** An update whose key no line holds is appended after the original lines. */
  lemma SaveAppendsUnmatched(p: KeyPattern, lines: seq<string>, updates: seq<(string, string)>, t: nat)
    requires t < |updates|
    requires forall i :: 0 <= i < |lines| && Entry(p, lines[i]).Some? ==> Entry(p, lines[i]).value.0 != updates[t].0
    ensures updates[t].0 + "=" + updates[t].1 in Save(p, lines, updates)[|lines|..]
  {
    var es := Entries(p, lines);
    var matched := MatchedKeys(es, updates);
    if updates[t].0 in matched {
      var i := MatchedKeysWitness(es, updates, updates[t].0);
      EntriesAt(p, lines, i);
    }
    var j := AppendedHas(updates, matched, t);
    assert Save(p, lines, updates)[|lines|..] == Appended(updates, matched);
  }

  /** Every line after the original ones is an update that no original line held. */
  lemma SaveAppendedLine(p: KeyPattern, lines: seq<string>, updates: seq<(string, string)>, j: nat) returns (t: nat)
    requires |lines| <= j < |Save(p, lines, updates)|
    ensures t < |updates| && Save(p, lines, updates)[j] == updates[t].0 + "=" + updates[t].1
    ensures forall i :: 0 <= i < |lines| && Entry(p, lines[i]).Some? ==> Entry(p, lines[i]).value.0 != updates[t].0
  {
    var matched := MatchedKeys(Entries(p, lines), updates);
    SaveAt(p, lines, updates, j);
    t := AppendedFrom(updates, matched, j - |lines|);
    assert IndexOfKey(updates, updates[t].0) != -1;
    UnmatchedKeyNowhere(p, lines, updates, updates[t].0);
  }

  /** An updated key outside the matched set is held by no line. */
  lemma UnmatchedKeyNowhere(p: KeyPattern, lines: seq<string>, updates: seq<(string, string)>, k: string)
    requires Get(updates, k).Some? && k !in MatchedKeys(Entries(p, lines), updates)
    ensures forall i :: 0 <= i < |lines| && Entry(p, lines[i]).Some? ==> Entry(p, lines[i]).value.0 != k
  {
    var es := Entries(p, lines);
    forall i | 0 <= i < |lines| && Entry(p, lines[i]).Some?
      ensures Entry(p, lines[i]).value.0 != k
    {
      EntriesAt(p, lines, i);
      if Entry(p, lines[i]).value.0 == k {
        MatchedKeysHas(es, updates, i);
      }
    }
  }

  // ---------------------------------------------------------------------------
  // Saving then reading back
  // ---------------------------------------------------------------------------

  /** Updates the pattern can read back: distinct keys it admits, values on one line. */
  ghost predicate WellFormed(p: KeyPattern, updates: seq<(string, string)>)
  {
    && DistinctKeys(updates)
    && forall t :: 0 <= t < |updates| ==> ValidKey(p, updates[t].0) && NoTerminator(updates[t].1)
  }

  lemma GetWellFormed(p: KeyPattern, updates: seq<(string, string)>, k: string)
    requires WellFormed(p, updates) && Get(updates, k).Some?
    ensures ValidKey(p, k) && NoTerminator(Get(updates, k).value)
  {
    var t := IndexOfKey(updates, k);
  }

  /** An update written as a line reads back as its key and its value. */
  lemma UpdateLineEntry(p: KeyPattern, updates: seq<(string, string)>, t: nat)
    requires WellFormed(p, updates) && t < |updates|
    ensures Entry(p, updates[t].0 + "=" + updates[t].1) == Some((updates[t].0, TrimEnd(updates[t].1)))
    ensures Get(updates, updates[t].0) == Some(updates[t].1)
  {
    EntryOf(p, updates[t].0, updates[t].1);
    GetPresent(updates, t);
  }

  /**
   * Every line of a saved file that holds an updated key reads `key=newValue`
   * exactly, so saving the same updates again leaves it as it is.
   */
  lemma SavedLineSettled(p: KeyPattern, lines: seq<string>, updates: seq<(string, string)>, i: nat)
    requires WellFormed(p, updates) && i < |Save(p, lines, updates)|
    ensures var line := Save(p, lines, updates)[i]; RewriteLine(line, Entry(p, line), updates) == line
  {
    var line := Save(p, lines, updates)[i];
    SaveAt(p, lines, updates, i);
    if i < |lines| {
      var m := MatchedKey(Entry(p, lines[i]), updates);
      if m.Some? {
        GetWellFormed(p, updates, m.value);
        EntryOf(p, m.value, Get(updates, m.value).value);
      }
    } else {
      var t := SaveAppendedLine(p, lines, updates, i);
      UpdateLineEntry(p, updates, t);
    }
  }

  /** Every update's key is held by some line of the saved file, with its value. */
  lemma SavedHasKey(p: KeyPattern, lines: seq<string>, updates: seq<(string, string)>, t: nat) returns (n: nat)
    requires WellFormed(p, updates) && t < |updates|
    ensures n < |Save(p, lines, updates)|
    ensures Entry(p, Save(p, lines, updates)[n]) == Some((updates[t].0, TrimEnd(updates[t].1)))
  {
    n := SavedHasLine(p, lines, updates, t);
    UpdateLineEntry(p, updates, t);
  }

  /** Every update is written as a line `key=newValue`, in place or appended. */
  lemma SavedHasLine(p: KeyPattern, lines: seq<string>, updates: seq<(string, string)>, t: nat) returns (n: nat)
    requires DistinctKeys(updates) && t < |updates|
    ensures n < |Save(p, lines, updates)| && Save(p, lines, updates)[n] == updates[t].0 + "=" + updates[t].1
  {
    var matched := MatchedKeys(Entries(p, lines), updates);
    if updates[t].0 in matched {
      n := RewrittenLineOf(p, lines, updates, t);
    } else {
      n := AppendedLineOf(p, lines, updates, t);
    }
  }

  /** An update whose key no line holds is written after the original lines. */
  lemma AppendedLineOf(p: KeyPattern, lines: seq<string>, updates: seq<(string, string)>, t: nat) returns (n: nat)
    requires t < |updates| && updates[t].0 !in MatchedKeys(Entries(p, lines), updates)
    ensures |lines| <= n < |Save(p, lines, updates)| && Save(p, lines, updates)[n] == updates[t].0 + "=" + updates[t].1
  {
    var es := Entries(p, lines);
    var matched := MatchedKeys(es, updates);
    var j := AppendedHas(updates, matched, t);
    n := |lines| + j;
    AppendedPart(lines, es, updates, matched, j);
  }

  lemma AppendedPart(lines: seq<string>, es: seq<Option<(string, string)>>, updates: seq<(string, string)>, matched: set<string>, j: nat)
    requires |es| == |lines| && j < |Appended(updates, matched)|
    ensures var s := Rewritten(lines, es, updates) + Appended(updates, matched);
      |lines| + j < |s| && s[|lines| + j] == Appended(updates, matched)[j]
  {
  }

  /** An update whose key some line holds is written over the first such line. */
  lemma RewrittenLineOf(p: KeyPattern, lines: seq<string>, updates: seq<(string, string)>, t: nat) returns (n: nat)
    requires DistinctKeys(updates) && t < |updates|
    requires updates[t].0 in MatchedKeys(Entries(p, lines), updates)
    ensures n < |lines| && Save(p, lines, updates)[n] == updates[t].0 + "=" + updates[t].1
  {
    var es := Entries(p, lines);
    n := MatchedKeysWitness(es, updates, updates[t].0);
    GetPresent(updates, t);
    SaveAt(p, lines, updates, n);
    EntriesAt(p, lines, n);
  }

  /** Saving the same updates twice is the same as saving them once. */
  lemma SaveIdempotent(p: KeyPattern, lines: seq<string>, updates: seq<(string, string)>)
    requires WellFormed(p, updates)
    ensures Save(p, Save(p, lines, updates), updates) == Save(p, lines, updates)
  {
    var saved := Save(p, lines, updates);
    var es := Entries(p, saved);
    forall i | 0 <= i < |saved|
      ensures Rewritten(saved, es, updates)[i] == saved[i]
    {
      SavedLineSettled(p, lines, updates, i);
      EntriesAt(p, saved, i);
    }
    assert Rewritten(saved, es, updates) == saved;
    var matched := MatchedKeys(es, updates);
    forall t | 0 <= t < |updates|
      ensures updates[t].0 in matched
    {
      var n := SavedHasKey(p, lines, updates, t);
      EntriesAt(p, saved, n);
      UpdateLineEntry(p, updates, t);
      MatchedKeysHas(es, updates, n);
    }
    AppendedNone(updates, matched);
  }

  /** After a save, a requested updated key loads as its new value, with trailing blanks trimmed. */
  lemma LoadAfterSave(p: KeyPattern, lines: seq<string>, updates: seq<(string, string)>, keys: set<string>, t: nat)
    requires WellFormed(p, updates) && t < |updates| && updates[t].0 in keys
    ensures var env := Load(p, Save(p, lines, updates), keys);
      updates[t].0 in env && env[updates[t].0] == TrimEnd(updates[t].1)
  {
    var saved := Save(p, lines, updates);
    var es := Entries(p, saved);
    var k, w := updates[t].0, TrimEnd(updates[t].1);
    var n := SavedHasKey(p, lines, updates, t);
    EntriesAt(p, saved, n);
    UpdateLineEntry(p, updates, t);
    forall i | 0 <= i < |es| && es[i].Some? && es[i].value.0 == k
      ensures es[i].value.1 == w
    {
      EntriesAt(p, saved, i);
      SavedLineSettled(p, lines, updates, i);
    }
    LoadUniform(es, keys, k, w, n);
  }

  // ---------------------------------------------------------------------------
  // Keys with digits under the pattern as written
  // ---------------------------------------------------------------------------

  /** With `[A-Z_]`, a key holding a digit (QWEN3_API_KEY, say) is never read from the file. */
  lemma DigitKeyNeverLoaded(lines: seq<string>, keys: set<string>, k: string, d: nat)
    requires d < |k| && '0' <= k[d] <= '9'
    ensures k !in Load(UpperUnderscore, lines, keys)
  {
    assert !KeyChar(UpperUnderscore, k[d]);
  }

  lemma DigitKeyNoEntry(line: string, k: string, d: nat)
    requires d < |k| && '0' <= k[d] <= '9'
    ensures Entry(UpperUnderscore, line).Some? ==> Entry(UpperUnderscore, line).value.0 != k
  {
    assert !KeyChar(UpperUnderscore, k[d]);
  }

  /** With `[A-Z_]`, saving a key holding a digit never finds its line and appends it once more. */
  lemma DigitKeyAppended(lines: seq<string>, k: string, v: string, d: nat)
    requires d < |k| && '0' <= k[d] <= '9'
    ensures Save(UpperUnderscore, lines, [(k, v)]) == lines + [k + "=" + v]
  {
    var updates := [(k, v)];
    var es := Entries(UpperUnderscore, lines);
    forall i | 0 <= i < |lines|
      ensures MatchedKey(es[i], updates).None?
    {
      EntriesAt(UpperUnderscore, lines, i);
      DigitKeyNoEntry(lines[i], k, d);
    }
    assert Rewritten(lines, es, updates) == lines;
    var matched := MatchedKeys(es, updates);
    if k in matched {
      var i := MatchedKeysWitness(es, updates, k);
    }
    assert updates[..0] == [];
    assert Appended(updates, matched) == [k + "=" + v];
  }

  /** Each save of such a key makes the file one line longer: the save is not idempotent. */
  lemma DigitKeySavedTwice(lines: seq<string>, k: string, v: string, d: nat)
    requires d < |k| && '0' <= k[d] <= '9'
    ensures var once := Save(UpperUnderscore, lines, [(k, v)]);
      Save(UpperUnderscore, once, [(k, v)]) == lines + [k + "=" + v, k + "=" + v]
      && Save(UpperUnderscore, once, [(k, v)]) != once
  {
    DigitKeyAppended(lines, k, v, d);
    DigitKeyAppended(lines + [k + "=" + v], k, v, d);
  }

  /** With digits admitted, a saved QWEN3 key reads back and a second save changes nothing. */
  lemma DigitKeySavedOnce(lines: seq<string>, v: string)
    requires NoTerminator(v)
    ensures var updates := [("QWEN3_API_KEY", v)];
      var saved := Save(Pattern, lines, updates);
      && Save(Pattern, saved, updates) == saved
      && "QWEN3_API_KEY" in Load(Pattern, saved, LlmEnvKeys)
      && Load(Pattern, saved, LlmEnvKeys)["QWEN3_API_KEY"] == TrimEnd(v)
  {
    var updates := [("QWEN3_API_KEY", v)];
    assert ValidKey(Pattern, "QWEN3_API_KEY");
    assert WellFormed(Pattern, updates);
    SaveIdempotent(Pattern, lines, updates);
    LoadAfterSave(Pattern, lines, updates, LlmEnvKeys, 0);
  }

  // ---------------------------------------------------------------------------
  // Key sets
  // ---------------------------------------------------------------------------

  const LlmEnvKeys: set<string> := {
    "ACTIVE_LLM_PROVIDER",
    "QWEN3_API_URL", "QWEN3_API_KEY", "QWEN3_MODEL_NAME", "QWEN3_MAX_TOKENS", "QWEN3_TEMPERATURE",
    "GPT_OSS_API_URL", "GPT_OSS_API_KEY", "GPT_OSS_MODEL_NAME", "GPT_OSS_MAX_TOKENS", "GPT_OSS_TEMPERATURE"}

  /** The CLI keys as written: nothing the CLI service reads besides the aider and fabric flags. */
  const CliEnvKeysAsWritten: set<string> := {
    "AIDER_ENABLED", "AIDER_AUTO_COMMITS", "FABRIC_ENABLED", "FABRIC_DEFAULT_PATTERN"}

  /** The CLI keys with every key the CLI service and the converter read. */
  const CliEnvKeys: set<string> := CliEnvKeysAsWritten + {
    "ACTIVE_CLI_TOOL",
    "CURSOR_CLI_ENABLED", "CURSOR_AGENT_PATH", "CURSOR_CLI_MODEL",
    "CLAUDE_CLI_ENABLED", "ANTHROPIC_API_KEY", "CLAUDE_CLI_MODEL",
    "OPENAI_API_KEY", "OPENAI_MODEL"}

  const FileServerEnvKeys: set<string> := {
    "FILE_SERVER_ENABLED", "FILE_SERVER_URL", "FILE_SERVER_UPLOAD_ENDPOINT", "FILE_SERVER_AUTH_TOKEN"}

  const WorkerServerEnvKeys: set<string> := {
    "WORKER_SERVER_URL", "CLI_SERVICE_ENABLED", "CLI_SERVICE_PORT", "MCP_ENABLED", "MCP_SERVICE_PORT",
    "AIRFLOW_ENABLED", "AIRFLOW_PORT", "GRAFANA_ENABLED", "GRAFANA_PORT", "FILE_SERVER_ENABLED", "FILE_SERVER_PORT"}

  // ---------------------------------------------------------------------------
  // Key conversions
  // ---------------------------------------------------------------------------

  const ActiveLlmProviderEnvKey := "ACTIVE_LLM_PROVIDER"
  const ActiveLlmProviderConfigKey := "llm.active_provider"

  /** `configKeyToEnvKey`: drop every "llm." and "cli.", '.' and '-' become '_', then upper case. */
  function ConfigKeyToEnvKey(configKey: string): string
  {
    if configKey == ActiveLlmProviderConfigKey then ActiveLlmProviderEnvKey
    else ToUpper(MapChar(MapChar(ReplaceAll(ReplaceAll(configKey, "llm.", ""), "cli.", ""), '.', '_'), '-', '_'))
  }

  /** `envKeyToConfigKey`: four known prefixes become dotted namespaces; the rest only changes '_' to '.'. */
  function EnvKeyToConfigKey(envKey: string): string
  {
    if envKey == ActiveLlmProviderEnvKey then ActiveLlmProviderConfigKey
    else
      var lower := ToLower(envKey);
      if StartsWith(lower, "qwen3_") then "llm.qwen3." + MapChar(lower[6..], '_', '-')
      else if StartsWith(lower, "gpt_oss_") then "llm.gpt-oss." + MapChar(lower[8..], '_', '-')
      else if StartsWith(lower, "aider_") then "cli.aider." + MapChar(lower[6..], '_', '-')
      else if StartsWith(lower, "fabric_") then "cli.fabric." + MapChar(lower[7..], '_', '-')
      else MapChar(lower, '_', '.')
  }

  /** The env-key families `envKeyToConfigKey` maps to a namespace. */
  datatype Family = Qwen3Keys | GptOssKeys | AiderKeys | FabricKeys

  function EnvPrefix(f: Family): string
  {
    match f
    case Qwen3Keys => "QWEN3_"
    case GptOssKeys => "GPT_OSS_"
    case AiderKeys => "AIDER_"
    case FabricKeys => "FABRIC_"
  }

  function Namespace(f: Family): string
  {
    match f
    case Qwen3Keys => "llm."
    case GptOssKeys => "llm."
    case AiderKeys => "cli."
    case FabricKeys => "cli."
  }

  function Stem(f: Family): string
  {
    match f
    case Qwen3Keys => "qwen3."
    case GptOssKeys => "gpt-oss."
    case AiderKeys => "aider."
    case FabricKeys => "fabric."
  }

  /** An env key ending: upper-case letters, digits and '_'. */
  predicate EnvKeyRest(rest: string)
  {
    forall i :: 0 <= i < |rest| ==> KeyChar(UpperDigitUnderscore, rest[i])
  }

  lemma ToLowerAppend(a: string, b: string)
    ensures ToLower(a + b) == ToLower(a) + ToLower(b)
  {
    assert forall i :: 0 <= i < |a| ==> (a + b)[i] == a[i];
    assert forall i :: |a| <= i < |a + b| ==> (a + b)[i] == b[i - |a|];
  }

  lemma ToUpperAppend(a: string, b: string)
    ensures ToUpper(a + b) == ToUpper(a) + ToUpper(b)
  {
    assert forall i :: 0 <= i < |a| ==> (a + b)[i] == a[i];
    assert forall i :: |a| <= i < |a + b| ==> (a + b)[i] == b[i - |a|];
  }

  lemma MapCharAppend(a: string, b: string, x: char, y: char)
    ensures MapChar(a + b, x, y) == MapChar(a, x, y) + MapChar(b, x, y)
  {
    assert forall i :: 0 <= i < |a| ==> (a + b)[i] == a[i];
    assert forall i :: |a| <= i < |a + b| ==> (a + b)[i] == b[i - |a|];
  }

  /** A pattern ending in '.' that is not in `h` is not in `h + d` either when `d` has no '.'. */
  lemma NoMatchAcross(h: string, d: string, p: string)
    requires |p| > 0 && p[|p| - 1] == '.' && '.' !in d && !Contains(h, p)
    ensures !Contains(h + d, p)
  {
    var s := h + d;
    forall i | 0 <= i <= |s|
      ensures !MatchAt(s, p, i)
    {
      if i + |p| <= |s| {
        var j := i + |p| - 1;
        assert s[i..i + |p|][|p| - 1] == s[j];
        if j >= |h| {
          assert s[j] == d[j - |h|];
        } else {
          assert s[i..i + |p|] == h[i..i + |p|];
          assert !MatchAt(h, p, i);
        }
      }
    }
  }

  /** A pattern whose first two characters never occur together in `s` is not in `s`. */
  lemma NoMatchByHead(s: string, p: string)
    requires |p| >= 2
    requires forall i :: 0 <= i < |s| - 1 ==> s[i] != p[0] || s[i + 1] != p[1]
    ensures !Contains(s, p)
  {
    forall i | 0 <= i <= |s|
      ensures !MatchAt(s, p, i)
    {
      if i + |p| <= |s| {
        assert s[i..i + |p|][0] == s[i] && s[i..i + |p|][1] == s[i + 1];
      }
    }
  }

  /** Removing "llm." and then "cli." from a family's configuration key leaves its stem and ending. */
  lemma StripNamespaces(f: Family, d: string)
    requires '.' !in d
    ensures ReplaceAll(ReplaceAll(Namespace(f) + Stem(f) + d, "llm.", ""), "cli.", "") == Stem(f) + d
  {
    var ns, stem := Namespace(f), Stem(f);
    var s := ns + stem + d;
    StemHasNoNamespace(f, d);
    ReplaceAllAbsent(stem + d, "cli.", "");
    assert s == ns + (stem + d);
    if ns == "llm." {
      ReplaceAllAbsent(stem + d, "llm.", "");
      ReplaceAllPrefix("llm.", stem + d, "");
      assert ReplaceAll(s, "llm.", "") == stem + d;
    } else {
      assert ns == "cli.";
      CliNoLlm(stem, d);
      ReplaceAllAbsent(s, "llm.", "");
      ReplaceAllPrefix("cli.", stem + d, "");
      assert ReplaceAll(s, "cli.", "") == stem + d;
    }
  }

  /** A stem and an ending without '.' hold neither namespace. */
  lemma StemHasNoNamespace(f: Family, d: string)
    requires '.' !in d
    ensures !Contains(Stem(f) + d, "llm.") && !Contains(Stem(f) + d, "cli.")
  {
    NoMatchByHead(Stem(f), "llm.");
    NoMatchAcross(Stem(f), d, "llm.");
    NoMatchByHead(Stem(f), "cli.");
    NoMatchAcross(Stem(f), d, "cli.");
  }

  lemma CliNoLlm(stem: string, d: string)
    requires !Contains(stem + d, "llm.")
    ensures !Contains("cli." + (stem + d), "llm.")
  {
    var t := stem + d;
    var s := "cli." + t;
    assert s[0] == 'c' && s[3] == '.';
    forall i | 0 <= i <= |s|
      ensures !MatchAt(s, "llm.", i)
    {
      if 4 <= i && i + 4 <= |s| {
        assert s[i..i + 4] == t[i - 4..i];
        assert !MatchAt(t, "llm.", i - 4);
      } else if i < 4 && i + 4 <= |s| {
        var w := s[i..i + 4];
        if i == 0 {
          assert w[0] == s[0];
        } else {
          assert w[3 - i] == s[3];
        }
      }
    }
  }

  /** The character maps and the upper-casing act on a stem and an ending separately. */
  lemma ConvertAppend(stem: string, d: string)
    requires '.' !in d
    ensures ToUpper(MapChar(MapChar(stem + d, '.', '_'), '-', '_'))
         == ToUpper(MapChar(MapChar(stem, '.', '_'), '-', '_')) + ToUpper(MapChar(d, '-', '_'))
  {
    MapCharAppend(stem, d, '.', '_');
    assert MapChar(d, '.', '_') == d;
    var stem' := MapChar(stem, '.', '_');
    MapCharAppend(stem', d, '-', '_');
    ToUpperAppend(MapChar(stem', '-', '_'), MapChar(d, '-', '_'));
  }

  lemma StemToPrefix(f: Family)
    ensures ToUpper(MapChar(MapChar(Stem(f), '.', '_'), '-', '_')) == EnvPrefix(f)
  {
    var r := ToUpper(MapChar(MapChar(Stem(f), '.', '_'), '-', '_'));
    assert |r| == |EnvPrefix(f)|;
    forall i | 0 <= i < |r| ensures r[i] == EnvPrefix(f)[i] {
    }
  }

  /** `configKeyToEnvKey` on a family's configuration key: the family's env prefix, then the upper-cased ending. */
  lemma ConfigKeyOf(f: Family, d: string)
    requires '.' !in d
    ensures ConfigKeyToEnvKey(Namespace(f) + Stem(f) + d) == EnvPrefix(f) + ToUpper(MapChar(d, '-', '_'))
  {
    ConfigKeyNotActive(f, d);
    StripNamespaces(f, d);
    ConvertAppend(Stem(f), d);
    StemToPrefix(f);
  }

  /** No family's configuration key is the active-provider key. */
  lemma ConfigKeyNotActive(f: Family, d: string)
    ensures Namespace(f) + Stem(f) + d != ActiveLlmProviderConfigKey
  {
    var c := Namespace(f) + Stem(f) + d;
    assert c[0] == Namespace(f)[0] && c[4] == Stem(f)[0];
    assert ActiveLlmProviderConfigKey[0] == 'l' && ActiveLlmProviderConfigKey[4] == 'a';
  }

  /** The lower-case spelling of a family's env prefix, as `envKeyToConfigKey` tests it. */
  function LowerEnvPrefix(f: Family): string
  {
    match f
    case Qwen3Keys => "qwen3_"
    case GptOssKeys => "gpt_oss_"
    case AiderKeys => "aider_"
    case FabricKeys => "fabric_"
  }

  lemma LowerPrefix(f: Family, rest: string)
    ensures ToLower(EnvPrefix(f) + rest) == LowerEnvPrefix(f) + ToLower(rest)
  {
    ToLowerAppend(EnvPrefix(f), rest);
    var l, m := ToLower(EnvPrefix(f)), LowerEnvPrefix(f);
    assert |l| == |m|;
    forall i | 0 <= i < |l| ensures l[i] == m[i] {
    }
  }

  /** `envKeyToConfigKey` on a family's env key: the family's namespace, then the lower-cased ending with '-'. */
  lemma EnvKeyOf(f: Family, rest: string)
    ensures EnvKeyToConfigKey(EnvPrefix(f) + rest) == Namespace(f) + Stem(f) + MapChar(ToLower(rest), '_', '-')
  {
    var e := EnvPrefix(f) + rest;
    assert e[1] == EnvPrefix(f)[1];
    LowerPrefix(f, rest);
    var n := |LowerEnvPrefix(f)|;
    var lower := ToLower(e);
    assert lower[..n] == LowerEnvPrefix(f) && lower[n..] == ToLower(rest);
    EnvKeyBranch(e, f);
  }

  /** Which branch of `envKeyToConfigKey` a key takes is decided by its lower-cased prefix. */
  lemma EnvKeyBranch(e: string, f: Family)
    requires e != ActiveLlmProviderEnvKey
    requires StartsWith(ToLower(e), LowerEnvPrefix(f))
    ensures EnvKeyToConfigKey(e) == Namespace(f) + Stem(f) + MapChar(ToLower(e)[|LowerEnvPrefix(f)|..], '_', '-')
  {
    var lower := ToLower(e);
    assert lower[0] == LowerEnvPrefix(f)[0];
    match f
    case Qwen3Keys =>
      assert "llm." + "qwen3." == "llm.qwen3.";
    case GptOssKeys =>
      assert !StartsWith(lower, "qwen3_");
      assert "llm." + "gpt-oss." == "llm.gpt-oss.";
    case AiderKeys =>
      assert !StartsWith(lower, "qwen3_") && !StartsWith(lower, "gpt_oss_");
      assert "cli." + "aider." == "cli.aider.";
    case FabricKeys =>
      assert !StartsWith(lower, "qwen3_") && !StartsWith(lower, "gpt_oss_") && !StartsWith(lower, "aider_");
      assert "cli." + "fabric." == "cli.fabric.";
  }

  /**
   * For the four families, converting an env key to a configuration key and
   * back gives the env key again.
   */
  lemma EnvKeyRoundTrip(f: Family, rest: string)
    requires EnvKeyRest(rest)
    ensures ConfigKeyToEnvKey(EnvKeyToConfigKey(EnvPrefix(f) + rest)) == EnvPrefix(f) + rest
  {
    EnvKeyOf(f, rest);
    var d := MapChar(ToLower(rest), '_', '-');
    EndingRoundTrip(rest);
    ConfigKeyOf(f, d);
  }

  /** An env key ending becomes a configuration ending without '.', and converts back to itself. */
  lemma EndingRoundTrip(rest: string)
    requires EnvKeyRest(rest)
    ensures var d := MapChar(ToLower(rest), '_', '-');
      '.' !in d && ToUpper(MapChar(d, '-', '_')) == rest
  {
    var d := MapChar(ToLower(rest), '_', '-');
    forall i | 0 <= i < |d| ensures d[i] != '.' {
      assert KeyChar(UpperDigitUnderscore, rest[i]);
    }
    var back := ToUpper(MapChar(d, '-', '_'));
    forall i | 0 <= i < |rest| ensures back[i] == rest[i] {
      assert KeyChar(UpperDigitUnderscore, rest[i]);
    }
  }

  /** The active-provider key is converted both ways by name. */
  lemma ActiveProviderRoundTrip()
    ensures EnvKeyToConfigKey(ActiveLlmProviderEnvKey) == ActiveLlmProviderConfigKey
    ensures ConfigKeyToEnvKey(ActiveLlmProviderConfigKey) == ActiveLlmProviderEnvKey
  {
  }
}
