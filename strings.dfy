/**
 * The java.lang.String and str operations the services rely on, written out
 * over `seq<char>`.  Case mapping and whitespace classes are the ASCII ones.
 */
module Strings {
  import opened Seqs

  // ---------------------------------------------------------------------------
  // Occurrences
  // ---------------------------------------------------------------------------

  /** `p` occurs in `s` at offset `i`. */
  predicate MatchAt(s: string, p: string, i: int)
  {
    0 <= i && i + |p| <= |s| && s[i..i + |p|] == p
  }

  /** `p` occurs in `a + p + b` right after `a`. */
  lemma MatchInside(a: string, p: string, b: string)
    ensures MatchAt(a + p + b, p, |a|)
  {
    assert (a + p + b)[|a|..|a| + |p|] == p;
  }

  /** A match inside the slice `s[lo..hi]` is a match in `s`, shifted by `lo`. */
  lemma SliceMatch(s: string, lo: nat, hi: nat, p: string, i: nat)
    requires lo <= hi <= |s| && i + |p| <= hi - lo
    ensures MatchAt(s[lo..hi], p, i) <==> MatchAt(s, p, lo + i)
  {
    var a := s[lo..hi][i..i + |p|];
    var b := s[lo + i..lo + i + |p|];
    forall k | 0 <= k < |p|
      ensures a[k] == b[k]
    {
    }
    assert a == b;
  }

  /** Java `s.contains(p)` and Python `p in s`. */
  predicate Contains(s: string, p: string)
  {
    exists i :: 0 <= i <= |s| && MatchAt(s, p, i)
  }

  predicate StartsWith(s: string, p: string)
  {
    |p| <= |s| && s[..|p|] == p
  }

  predicate EndsWith(s: string, p: string)
  {
    |p| <= |s| && s[|s| - |p|..] == p
  }

  /** Java `s.indexOf(p, from)`: the first occurrence at or after `from`, or -1. */
  function IndexOf(s: string, p: string, from: nat): (r: int)
    ensures r == -1 || (from <= r && MatchAt(s, p, r))
    ensures forall j :: from <= j && (r == -1 || j < r) ==> !MatchAt(s, p, j)
    decreases |s| - from
  {
    if from + |p| > |s| then -1
    else if s[from..from + |p|] == p then from
    else IndexOf(s, p, from + 1)
  }

  lemma ContainsIndexOf(s: string, p: string)
    ensures Contains(s, p) <==> IndexOf(s, p, 0) >= 0
  {
    if Contains(s, p) {
      var i :| 0 <= i <= |s| && MatchAt(s, p, i);
    }
  }

  lemma StartsWithContains(s: string, p: string)
    requires StartsWith(s, p)
    ensures Contains(s, p)
  {
    assert MatchAt(s, p, 0);
  }

  /** A one-character pattern occurs exactly where that character is. */
  lemma ContainsChar(s: string, c: char)
    ensures Contains(s, [c]) <==> c in s
  {
    if c in s {
      var i :| 0 <= i < |s| && s[i] == c;
      assert MatchAt(s, [c], i);
    }
    if Contains(s, [c]) {
      var i :| 0 <= i <= |s| && MatchAt(s, [c], i);
      assert s[i] == s[i..i + 1][0];
    }
  }

  /** `t` occurs in `s` somewhere: `t` is a substring of `s`. */
  predicate IsInfix(t: string, s: string)
  {
    exists i :: 0 <= i <= |s| && MatchAt(s, t, i)
  }

  lemma InfixTrans(u: string, t: string, s: string)
    requires IsInfix(u, t) && IsInfix(t, s)
    ensures IsInfix(u, s)
  {
    var i :| 0 <= i <= |t| && MatchAt(t, u, i);
    var j :| 0 <= j <= |s| && MatchAt(s, t, j);
    assert t == s[j..j + |t|];
    assert forall k :: 0 <= k < |u| ==> s[j + i + k] == t[i + k] == u[k];
    assert s[j + i..j + i + |u|] == u;
    assert MatchAt(s, u, j + i);
  }

  // ---------------------------------------------------------------------------
  // Trimming and blanks
  // ---------------------------------------------------------------------------

  /** What Java `String.trim()` removes: every char up to U+0020. */
  predicate IsTrimmable(c: char)
  {
    c <= ' '
  }

  /** Python's `str.strip()` and Java's `Character.isWhitespace`, on ASCII. */
  predicate IsWhitespace(c: char)
  {
    c == ' ' || c == '\t' || c == '\n' || c == '\r' || c == 11 as char || c == 12 as char
    || (28 as char <= c <= 31 as char)
  }

  function TrimStart(s: string): (r: string)
    ensures |r| <= |s|
  {
    if s != [] && IsTrimmable(s[0]) then TrimStart(s[1..]) else s
  }

  /** `TrimStart` keeps a suffix, which starts with a non-blank unless it is empty. */
  lemma {:induction false} TrimStartSpec(s: string)
    ensures var r := TrimStart(s);
      r == s[|s| - |r|..] && (r == [] || !IsTrimmable(r[0]))
  {
    if s != [] && IsTrimmable(s[0]) {
      TrimStartSpec(s[1..]);
      assert s[1..][|s| - 1 - |TrimStart(s)|..] == s[|s| - |TrimStart(s)|..];
    }
  }

  /** Everything `TrimStart` drops is trimmable. */
  lemma {:induction false} TrimStartDrops(s: string)
    ensures forall i :: 0 <= i < |s| - |TrimStart(s)| ==> IsTrimmable(s[i])
  {
    if s != [] && IsTrimmable(s[0]) {
      TrimStartDrops(s[1..]);
      forall i | 0 <= i < |s| - |TrimStart(s)|
        ensures IsTrimmable(s[i])
      {
        if i > 0 {
          assert s[i] == s[1..][i - 1];
        }
      }
    }
  }

  function TrimEnd(s: string): (r: string)
    ensures |r| <= |s|
  {
    if s != [] && IsTrimmable(s[|s| - 1]) then TrimEnd(s[..|s| - 1]) else s
  }

  /** `TrimEnd` keeps a prefix, which ends with a non-blank unless it is empty. */
  lemma {:induction false} TrimEndSpec(s: string)
    ensures var r := TrimEnd(s);
      r == s[..|r|] && (r == [] || !IsTrimmable(r[|r| - 1]))
  {
    if s != [] && IsTrimmable(s[|s| - 1]) {
      TrimEndSpec(s[..|s| - 1]);
      assert s[..|s| - 1][..|TrimEnd(s)|] == s[..|TrimEnd(s)|];
    }
  }

  /** Everything `TrimEnd` drops is trimmable. */
  lemma {:induction false} TrimEndDrops(s: string)
    ensures forall i :: |TrimEnd(s)| <= i < |s| ==> IsTrimmable(s[i])
  {
    if s != [] && IsTrimmable(s[|s| - 1]) {
      TrimEndDrops(s[..|s| - 1]);
      forall i | |TrimEnd(s)| <= i < |s|
        ensures IsTrimmable(s[i])
      {
        if i < |s| - 1 {
          assert s[i] == s[..|s| - 1][i];
        }
      }
    }
  }

  /** Java `String.trim()`. */
  function Trim(s: string): (r: string)
    ensures |r| <= |s|
    ensures IsTrimmed(r)
  {
    TrimStartSpec(s);
    TrimEndSpec(TrimStart(s));
    TrimEnd(TrimStart(s))
  }

  /** The trimmed text is the slice of the original that starts at index `i`, after the leading blanks. */
  lemma TrimIsSlice(s: string) returns (i: nat)
    ensures i + |Trim(s)| <= |s|
    ensures Trim(s) == s[i..i + |Trim(s)|]
  {
    var t := TrimStart(s);
    var r := TrimEnd(t);
    TrimStartSpec(s);
    TrimEndSpec(t);
    i := |s| - |t|;
    assert Trim(s) == r;
    SliceOfSuffix(s, t, i, r);
  }

  /** The trimmed text is the slice at `i`, and everything before and after it is trimmable. */
  lemma TrimBounds(s: string) returns (i: nat)
    ensures i + |Trim(s)| <= |s|
    ensures Trim(s) == s[i..i + |Trim(s)|]
    ensures forall j :: 0 <= j < i ==> IsTrimmable(s[j])
    ensures forall j :: i + |Trim(s)| <= j < |s| ==> IsTrimmable(s[j])
  {
    var t := TrimStart(s);
    TrimStartSpec(s);
    TrimEndSpec(t);
    TrimStartDrops(s);
    TrimEndDrops(t);
    i := |s| - |t|;
    SliceOfSuffix(s, t, i, Trim(s));
    forall j | i + |Trim(s)| <= j < |s|
      ensures IsTrimmable(s[j])
    {
      assert s[j] == t[j - i];
    }
  }

  /** A slice of a slice is a slice of the original. */
  lemma SliceOfSlice(s: string, i: nat, n: nat, a: nat, b: nat)
    requires i + n <= |s| && a <= b <= n
    ensures s[i..i + n][a..b] == s[i + a..i + b]
  {
    var x, y := s[i..i + n][a..b], s[i + a..i + b];
    forall k | 0 <= k < b - a
      ensures x[k] == y[k]
    {
    }
  }

  /** A prefix of a suffix is a slice. */
  lemma SliceOfSuffix(s: string, t: string, i: nat, r: string)
    requires i <= |s| && t == s[i..] && |r| <= |t| && r == t[..|r|]
    ensures r == s[i..i + |r|]
  {
  }

  /** The trimmed text is a substring of the original. */
  lemma TrimInfix(s: string)
    ensures IsInfix(Trim(s), s)
  {
    var i := TrimIsSlice(s);
    assert MatchAt(s, Trim(s), i);
  }

  /** Trimming only removes characters. */
  lemma TrimKeepsOut(s: string, c: char)
    requires c !in s
    ensures c !in Trim(s)
  {
    var i := TrimIsSlice(s);
    forall j | 0 <= j < |Trim(s)|
      ensures Trim(s)[j] != c
    {
      assert Trim(s)[j] == s[i + j];
    }
  }

  /** Python `str.strip()`. */
  function Strip(s: string): (r: string)
    ensures |r| <= |s|
    ensures r == [] || (!IsWhitespace(r[0]) && !IsWhitespace(r[|r| - 1]))
    decreases |s|
  {
    if s != [] && IsWhitespace(s[0]) then Strip(s[1..])
    else if s != [] && IsWhitespace(s[|s| - 1]) then Strip(s[..|s| - 1])
    else s
  }

  /** Java `String.isBlank()`. */
  predicate IsBlank(s: string)
  {
    forall i :: 0 <= i < |s| ==> IsWhitespace(s[i])
  }

  // ---------------------------------------------------------------------------
  // Case mapping (ASCII)
  // ---------------------------------------------------------------------------

  function LowerChar(c: char): char
  {
    if 'A' <= c <= 'Z' then (c as int + 32) as char else c
  }

  function UpperChar(c: char): char
  {
    if 'a' <= c <= 'z' then (c as int - 32) as char else c
  }

  function ToLower(s: string): (r: string)
    ensures |r| == |s| && forall i :: 0 <= i < |s| ==> r[i] == LowerChar(s[i])
  {
    seq(|s|, i requires 0 <= i < |s| => LowerChar(s[i]))
  }

  function ToUpper(s: string): (r: string)
    ensures |r| == |s| && forall i :: 0 <= i < |s| ==> r[i] == UpperChar(s[i])
  {
    seq(|s|, i requires 0 <= i < |s| => UpperChar(s[i]))
  }

  /** Java `a.equalsIgnoreCase(b)`, ASCII. */
  predicate EqualsIgnoreCase(a: string, b: string)
  {
    ToLower(a) == ToLower(b)
  }

  // ---------------------------------------------------------------------------
  // Replacement
  // ---------------------------------------------------------------------------

  /** Java `s.replace(pat, rep)`: every non-overlapping occurrence, scanning left to right. */
  function ReplaceAll(s: string, pat: string, rep: string): string
    requires |pat| > 0
    decreases |s|
  {
    if |s| < |pat| then s
    else if s[..|pat|] == pat then rep + ReplaceAll(s[|pat|..], pat, rep)
    else [s[0]] + ReplaceAll(s[1..], pat, rep)
  }

  lemma {:induction false} ReplaceAllAbsent(s: string, pat: string, rep: string)
    requires |pat| > 0 && !Contains(s, pat)
    ensures ReplaceAll(s, pat, rep) == s
    decreases |s|
  {
    if |s| >= |pat| {
      assert !MatchAt(s, pat, 0);
      if !Contains(s[1..], pat) {
        ReplaceAllAbsent(s[1..], pat, rep);
      } else {
        var i :| 0 <= i <= |s[1..]| && MatchAt(s[1..], pat, i);
        assert s[i + 1..i + 1 + |pat|] == s[1..][i..i + |pat|];
        assert MatchAt(s, pat, i + 1);
      }
    }
  }

  /** Dropping the first character shifts every occurrence one place left. */
  lemma MatchShift(s: string, p: string, i: int)
    requires |s| > 0 && 0 <= i
    ensures MatchAt(s[1..], p, i) <==> MatchAt(s, p, i + 1)
  {
    if i + |p| <= |s| - 1 {
      assert s[1..][i..i + |p|] == s[i + 1..i + 1 + |p|];
    }
  }

  /** A leading occurrence of the pattern is replaced, and the scan goes on after it. */
  lemma ReplaceAllPrefix(pat: string, t: string, rep: string)
    requires |pat| > 0
    ensures ReplaceAll(pat + t, pat, rep) == rep + ReplaceAll(t, pat, rep)
  {
    assert (pat + t)[..|pat|] == pat;
    assert (pat + t)[|pat|..] == t;
  }

  /** A string with no occurrence starting at its head is copied one character at a time. */
  lemma ReplaceAllStep(s: string, pat: string, rep: string)
    requires |pat| > 0 && |s| > 0 && !MatchAt(s, pat, 0)
    ensures ReplaceAll(s, pat, rep) == [s[0]] + ReplaceAll(s[1..], pat, rep)
  {
    if |s| < |pat| {
      assert [s[0]] + s[1..] == s;
    }
  }

  lemma {:induction false} ReplaceAllAppend(a: string, b: string, pat: string, rep: string)
    requires |pat| > 0
    requires forall i :: 0 <= i < |a| ==> !MatchAt(a + b, pat, i)
    ensures ReplaceAll(a + b, pat, rep) == a + ReplaceAll(b, pat, rep)
    decreases |a|
  {
    if a == [] {
      assert a + b == b;
    } else {
      var s := a + b;
      ReplaceAllStep(s, pat, rep);
      assert s[1..] == a[1..] + b;
      forall i | 0 <= i < |a[1..]| ensures !MatchAt(a[1..] + b, pat, i) {
        MatchShift(s, pat, i);
      }
      ReplaceAllAppend(a[1..], b, pat, rep);
      assert [a[0]] + a[1..] == a;
    }
  }

  /** Replacing one character by another, position by position. */
  function MapChar(s: string, a: char, b: char): (r: string)
    ensures |r| == |s| && forall i :: 0 <= i < |s| ==> r[i] == (if s[i] == a then b else s[i])
  {
    seq(|s|, i requires 0 <= i < |s| => if s[i] == a then b else s[i])
  }

  /** A one-character `replace` is a character map. */
  lemma {:induction false} ReplaceCharIsMap(s: string, a: char, b: char)
    ensures ReplaceAll(s, [a], [b]) == MapChar(s, a, b)
    decreases |s|
  {
    if |s| >= 1 {
      ReplaceCharIsMap(s[1..], a, b);
      assert MapChar(s, a, b) == [if s[0] == a then b else s[0]] + MapChar(s[1..], a, b);
    }
  }

  /** Java `s.replaceAll("[...]", "")` for a character class: drops every char in `cs`. */
  function RemoveChars(s: string, cs: set<char>): (r: string)
    ensures forall c :: c in r ==> c in s && c !in cs
    ensures forall c :: c in s && c !in cs ==> c in r
  {
    if s == [] then []
    else (if s[0] in cs then [] else [s[0]]) + RemoveChars(s[1..], cs)
  }

  // ---------------------------------------------------------------------------
  // Splitting and joining
  // ---------------------------------------------------------------------------

  function CountChar(s: string, c: char): (n: nat)
    ensures n <= |s|
  {
    if s == [] then 0 else (if s[0] == c then 1 else 0) + CountChar(s[1..], c)
  }

  lemma {:induction false} CountCharAppend(a: string, b: string, c: char)
    ensures CountChar(a + b, c) == CountChar(a, c) + CountChar(b, c)
    decreases |a|
  {
    if a != [] {
      assert (a + b)[1..] == a[1..] + b;
      CountCharAppend(a[1..], b, c);
    } else {
      assert a + b == b;
    }
  }

  lemma {:induction false} CountCharPositive(s: string, c: char)
    ensures CountChar(s, c) > 0 <==> c in s
    decreases |s|
  {
    if s != [] {
      CountCharPositive(s[1..], c);
    }
  }

  /** Python `s.split(sep)`: every piece, including empty ones. */
  function SplitOn(s: string, sep: char): (r: seq<string>)
    ensures |r| == CountChar(s, sep) + 1
    ensures forall k :: 0 <= k < |r| ==> sep !in r[k]
    decreases |s|
  {
    if s == [] then [""]
    else
      var rest := SplitOn(s[1..], sep);
      if s[0] == sep then [""] + rest else [[s[0]] + rest[0]] + rest[1..]
  }

  /** Joins the pieces with `sep` between them (Java `String.join`). */
  function Join(pieces: seq<string>, sep: string): string
  {
    if pieces == [] then ""
    else if |pieces| == 1 then pieces[0]
    else pieces[0] + sep + Join(pieces[1..], sep)
  }

  /** Splitting and joining on the same separator gives the text back. */
  lemma {:induction false} SplitJoin(s: string, sep: char)
    ensures Join(SplitOn(s, sep), [sep]) == s
    decreases |s|
  {
    if s != [] {
      var rest := SplitOn(s[1..], sep);
      SplitJoin(s[1..], sep);
      if s[0] != sep {
        if |rest| == 1 {
        } else {
          assert ([[s[0]] + rest[0]] + rest[1..])[1..] == rest[1..];
          assert Join(rest, [sep]) == rest[0] + [sep] + Join(rest[1..], [sep]);
        }
      } else {
        assert ([""] + rest)[1..] == rest;
      }
    }
  }

  function DropTrailingEmpty(pieces: seq<string>): (r: seq<string>)
    ensures |r| <= |pieces| && r == pieces[..|r|]
    ensures r == [] || r[|r| - 1] != ""
    ensures forall k :: |r| <= k < |pieces| ==> pieces[k] == ""
  {
    if pieces != [] && pieces[|pieces| - 1] == "" then DropTrailingEmpty(pieces[..|pieces| - 1])
    else pieces
  }

  /**
   * Java `s.split(String.valueOf(sep))` for a separator that is not a regex
   * metacharacter: the input itself when the separator is absent, otherwise
   * the pieces with trailing empty strings removed.
   */
  function JavaSplit(s: string, sep: char): (r: seq<string>)
    ensures |r| <= CountChar(s, sep) + 1
    ensures forall k :: 0 <= k < |r| ==> sep !in r[k]
  {
    if sep !in s then [s] else DropTrailingEmpty(SplitOn(s, sep))
  }

  /** The characters `\s` matches in a Java regex. */
  predicate IsRegexSpace(c: char)
  {
    c == ' ' || c == '\t' || c == '\n' || c == '\r' || c == 11 as char || c == 12 as char
  }

  /** The leading run of non-`\s` characters. */
  function TakeWord(s: string): (w: string)
    ensures |w| <= |s| && w == s[..|w|]
    ensures forall i :: 0 <= i < |w| ==> !IsRegexSpace(w[i])
    ensures |w| < |s| ==> IsRegexSpace(s[|w|])
  {
    if s == [] || IsRegexSpace(s[0]) then [] else [s[0]] + TakeWord(s[1..])
  }

  function DropSpaces(s: string): (r: string)
    ensures |r| <= |s| && r == s[|s| - |r|..]
    ensures r == [] || !IsRegexSpace(r[0])
  {
    if s != [] && IsRegexSpace(s[0]) then DropSpaces(s[1..]) else s
  }

  /**
   * The maximal runs of non-`\s` characters, in order: Java `t.split("\\s+")`
   * for a non-empty trimmed `t`, which has no leading or trailing `\s`.
   */
  function Words(s: string): (ws: seq<string>)
    ensures forall k :: 0 <= k < |ws| ==> IsWord(ws[k])
    decreases |s|
  {
    var t := DropSpaces(s);
    if t == [] then []
    else
      var w := TakeWord(t);
      assert IsWord(w);
      [w] + Words(t[|w|..])
  }

  /** A non-empty run of non-`\s` characters. */
  predicate IsWord(w: string)
  {
    w != [] && forall i :: 0 <= i < |w| ==> !IsRegexSpace(w[i])
  }

  /** No leading or trailing char that `trim` would remove. */
  predicate IsTrimmed(s: string)
  {
    s == [] || (!IsTrimmable(s[0]) && !IsTrimmable(s[|s| - 1]))
  }

  lemma TrimmedFixed(s: string)
    requires IsTrimmed(s)
    ensures Trim(s) == s
  {
    assert TrimStart(s) == s;
    assert TrimEnd(s) == s;
  }

  /** Trimming the end keeps any prefix that ends in a kept character. */
  lemma TrimEndKeepsPrefix(t: string, u: string)
    requires StartsWith(t, u) && u != [] && !IsTrimmable(u[|u| - 1])
    ensures StartsWith(TrimEnd(t), u)
  {
    var r := TrimEnd(t);
    TrimEndDrops(t);
    TrimEndSpec(t);
    assert t[|u| - 1] == u[|u| - 1];
    assert |u| <= |r|;
    assert r[..|u|] == t[..|u|];
  }

  /** Trimming keeps any prefix that starts and ends in a kept character. */
  lemma TrimKeepsPrefix(t: string, u: string)
    requires StartsWith(t, u) && u != [] && IsTrimmed(u)
    ensures StartsWith(Trim(t), u)
  {
    assert t[0] == u[0];
    assert TrimStart(t) == t;
    TrimEndKeepsPrefix(t, u);
  }

  /** The pieces that remain after trimming each one and dropping empties. */
  function TrimNonEmpty(pieces: seq<string>): (r: seq<string>)
    ensures |r| <= |pieces|
    ensures forall k :: 0 <= k < |r| ==> IsKeptPiece(r[k])
  {
    if pieces == [] then []
    else
      var t := Trim(pieces[0]);
      var rest := TrimNonEmpty(pieces[1..]);
      if t == "" then rest
      else
        KeptCons(t, rest);
        [t] + rest
  }

  /** What one piece contributes to `TrimNonEmpty`: its trimmed text, unless that is empty. */
  function KeptTrim(piece: string): seq<string>
  {
    if Trim(piece) == "" then [] else [Trim(piece)]
  }

  /** `TrimNonEmpty` is the stream `map(String::trim).filter(s -> !s.isEmpty())`: each piece's contribution, in order. */
  lemma {:induction false} TrimNonEmptyPieces(pieces: seq<string>)
    ensures TrimNonEmpty(pieces) == FlatMap(pieces, KeptTrim)
    decreases |pieces|
  {
    if pieces != [] {
      assert pieces == [pieces[0]] + pieces[1..];
      TrimNonEmptyPieces(pieces[1..]);
      FlatMapCons(pieces[0], pieces[1..], KeptTrim);
    }
  }

  /** A value is kept exactly when it is the non-empty trim of some piece. */
  lemma TrimNonEmptyMembers(pieces: seq<string>, v: string)
    ensures v in TrimNonEmpty(pieces) <==> v != "" && exists p :: p in pieces && Trim(p) == v
  {
    TrimNonEmptyPieces(pieces);
    FlatMapMembers(pieces, KeptTrim, v);
    if v != "" && exists p :: p in pieces && Trim(p) == v {
      var p :| p in pieces && Trim(p) == v;
      var i :| 0 <= i < |pieces| && pieces[i] == p;
      assert v in KeptTrim(pieces[i]);
    }
  }

  lemma KeptCons(t: string, rest: seq<string>)
    requires IsKeptPiece(t) && forall k :: 0 <= k < |rest| ==> IsKeptPiece(rest[k])
    ensures forall k :: 0 <= k < |[t] + rest| ==> IsKeptPiece(([t] + rest)[k])
  {
    forall k | 0 <= k < |[t] + rest|
      ensures IsKeptPiece(([t] + rest)[k])
    {
      if k > 0 {
        assert ([t] + rest)[k] == rest[k - 1];
      }
    }
  }

  /** A piece `TrimNonEmpty` keeps: non-empty and trimmed. */
  predicate IsKeptPiece(t: string)
  {
    t != "" && IsTrimmed(t)
  }

  // ---------------------------------------------------------------------------
  // Decimal rendering (String.valueOf / %d)
  // ---------------------------------------------------------------------------

  predicate IsDigit(c: char)
  {
    '0' <= c <= '9'
  }

  function DigitChar(d: nat): (c: char)
    requires d < 10
    ensures IsDigit(c)
  {
    "0123456789"[d]
  }

  /** The decimal text of a non-negative number, without leading zeros. */
  function NatToString(n: nat): (r: string)
    ensures r != [] && forall k :: 0 <= k < |r| ==> IsDigit(r[k])
    ensures (r[0] == '0') <==> n == 0
  {
    if n < 10 then [DigitChar(n)] else NatToString(n / 10) + [DigitChar(n % 10)]
  }

  /** Java's `"" + n` for an int: a leading '-' when negative. */
  function IntToString(n: int): (r: string)
    ensures r != [] && (r[0] == '-' <==> n < 0)
  {
    if n < 0 then "-" + NatToString(-n) else NatToString(n)
  }

  predicate AllDigits(s: string)
  {
    forall k :: 0 <= k < |s| ==> IsDigit(s[k])
  }

  /** The number a run of decimal digits denotes (leading zeros allowed). */
  function DigitsValue(s: string): nat
    requires AllDigits(s)
  {
    if s == [] then 0 else DigitsValue(s[..|s| - 1]) * 10 + (s[|s| - 1] as int - '0' as int)
  }
}
