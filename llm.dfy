/**
 * The LLM service's text helpers: pulling the Java code out of a markdown
 * reply, and choosing the provider configuration.  The HTTP calls
 * themselves are not part of this model.
 */
module Llm {
  import opened Wrappers
  import opened Strings

  const Fence := "```"
  const JavaFence := "```java"

  // ---------------------------------------------------------------------------
  // Provider configuration
  // ---------------------------------------------------------------------------

  /** One provider's settings; the sampling temperature is not modelled. */
  class LlmConfig {
    var apiUrl: Option<string>
    var apiKey: Option<string>
    var modelName: Option<string>
    var maxTokens: int

    constructor ()
      ensures apiUrl == None && apiKey == None && modelName == None && maxTokens == 8192
    {
      apiUrl, apiKey, modelName, maxTokens := None, None, None, 8192;
    }
  }

  /** The `llm.*` properties: the active provider and one settings object per provider. */
  class LlmProperties {
    var activeProvider: string
    const qwen3: LlmConfig
    const gptOss: LlmConfig

    ghost predicate Valid()
      reads this
    {
      qwen3 != gptOss
    }

    constructor ()
      ensures Valid() && activeProvider == "qwen3"
      ensures fresh(qwen3) && fresh(gptOss)
      ensures qwen3.apiKey == None && qwen3.maxTokens == 8192
      ensures gptOss.apiKey == None && gptOss.maxTokens == 8192
    {
      activeProvider := "qwen3";
      qwen3 := new LlmConfig();
      gptOss := new LlmConfig();
    }
  }

  datatype Provider = Qwen3 | GptOss

  /** The name `getConfigForProvider` switches on: a null or blank argument means the active provider. */
  function ChosenName(provider: Option<string>, activeProvider: string): string
  {
    if provider.None? || IsBlank(provider.value) then activeProvider else provider.value
  }

  /** `getConfigForProvider`'s switch on the lower-cased name; an unknown name is an error. */
  function ProviderNamed(provider: Option<string>, activeProvider: string): (r: Result<Provider, string>)
    ensures r.Err? ==> r.error == "Unknown LLM provider: " + ChosenName(provider, activeProvider)
  {
    var name := ChosenName(provider, activeProvider);
    var lower := ToLower(name);
    if lower == "qwen3" then Ok(Qwen3)
    else if lower == "gpt_oss" || lower == "gpt-oss" then Ok(GptOss)
    else Err("Unknown LLM provider: " + name)
  }

  /**
   * A non-blank name selects a provider exactly when it is a case variant of
   * "qwen3", "gpt_oss" or "gpt-oss", and it decides alone, whatever the
   * active provider is.
   */
  lemma ProviderNamedRules(name: string, activeProvider: string, other: string)
    requires !IsBlank(name)
    ensures ProviderNamed(Some(name), activeProvider) == Ok(Qwen3) <==> EqualsIgnoreCase(name, "qwen3")
    ensures ProviderNamed(Some(name), activeProvider) == Ok(GptOss)
      <==> EqualsIgnoreCase(name, "gpt_oss") || EqualsIgnoreCase(name, "gpt-oss")
    ensures ProviderNamed(Some(name), activeProvider) == ProviderNamed(Some(name), other)
  {
    ProviderNamesLower();
    assert ChosenName(Some(name), activeProvider) == name == ChosenName(Some(name), other);
  }

  /** The provider names are already lower case. */
  lemma ProviderNamesLower()
    ensures ToLower("qwen3") == "qwen3"
    ensures ToLower("gpt_oss") == "gpt_oss" && ToLower("gpt-oss") == "gpt-oss"
  {
  }

  /** An absent or blank name defers to the active provider's own name. */
  lemma ProviderDefaultRules(name: string, activeProvider: string, other: string)
    requires IsBlank(name) && !IsBlank(activeProvider)
    ensures ProviderNamed(Some(name), activeProvider) == ProviderNamed(None, activeProvider)
    ensures ProviderNamed(None, activeProvider) == ProviderNamed(Some(activeProvider), other)
  {
  }

  /** `getConfigForProvider`: the settings object of the selected provider. */
  function ConfigFor(props: LlmProperties, provider: Option<string>): (r: Result<LlmConfig, string>)
    reads props
    ensures r.Ok? <==> ProviderNamed(provider, props.activeProvider).Ok?
    ensures r.Ok? ==> r.value == props.qwen3 || r.value == props.gptOss
    ensures r.Err? ==> r.error == "Unknown LLM provider: " + ChosenName(provider, props.activeProvider)
  {
    match ProviderNamed(provider, props.activeProvider)
    case Ok(Qwen3) => Ok(props.qwen3)
    case Ok(GptOss) => Ok(props.gptOss)
    case Err(e) => Err(e)
  }

  // ---------------------------------------------------------------------------
  // Code-fence extraction
  // ---------------------------------------------------------------------------

  /** The opening fence: the first "```java", otherwise the first "```", or -1. */
  function OpeningFence(response: string): (r: int)
    ensures r == -1 <==> !Contains(response, Fence)
    ensures r != -1 ==> MatchAt(response, Fence, r)
    ensures Contains(response, JavaFence) ==>
      MatchAt(response, JavaFence, r) && forall j :: 0 <= j < r ==> !MatchAt(response, JavaFence, j)
    ensures !Contains(response, JavaFence) ==> forall j :: 0 <= j && (r == -1 || j < r) ==> !MatchAt(response, Fence, j)
  {
    var j := IndexOf(response, JavaFence, 0);
    ContainsIndexOf(response, Fence);
    ContainsIndexOf(response, JavaFence);
    if j != -1 then
      assert response[j..j + 3] == response[j..j + 7][..3];
      assert MatchAt(response, Fence, j);
      j
    else IndexOf(response, Fence, 0)
  }

  /**
   * `extractJavaCode` exactly as written: when no newline follows the
   * opening fence, `indexOf` yields -1 and the code is taken to start at
   * offset 0, before the fence.
   */
  function ExtractJavaCodeAsWritten(response: string): string
  {
    var startIdx := OpeningFence(response);
    if startIdx == -1 then response
    else
      var codeStart := IndexOf(response, "\n", startIdx) + 1;
      var codeEnd := IndexOf(response, Fence, codeStart);
      if codeEnd == -1 then response else Trim(response[codeStart..codeEnd])
  }

  /**
   * Where the code block lies: from just after the newline that ends the
   * opening fence's line, up to the next fence.  No block without that
   * newline or without a closing fence.
   */
  function CodeBlock(response: string): (r: Option<(nat, nat)>)
    ensures r.Some? ==> OpeningFence(response) != -1
    ensures r.Some? ==> 0 < r.value.0 <= r.value.1 && MatchAt(response, Fence, r.value.1)
    ensures r.Some? ==> response[r.value.0 - 1] == '\n' && OpeningFence(response) < r.value.0
    ensures r.Some? ==> forall j :: OpeningFence(response) <= j < r.value.0 - 1 ==> response[j] != '\n'
    ensures r.Some? ==> forall j :: r.value.0 <= j < r.value.1 ==> !MatchAt(response, Fence, j)
  {
    var startIdx := OpeningFence(response);
    if startIdx == -1 then None
    else
      var nl := IndexOf(response, "\n", startIdx);
      if nl == -1 then None
      else
        assert response[nl] == response[nl..nl + 1][0];
        assert forall j :: startIdx <= j < nl ==> response[j] != '\n' by {
          forall j | startIdx <= j < nl
            ensures response[j] != '\n'
          {
            assert !MatchAt(response, "\n", j);
            assert response[j..j + 1] == [response[j]];
          }
        }
        var codeEnd := IndexOf(response, Fence, nl + 1);
        if codeEnd == -1 then None else Some((nl + 1, codeEnd))
  }

  /** `extractJavaCode` with the missing-newline case sent to the no-block path. */
  function ExtractJavaCode(response: string): (r: string)
    ensures CodeBlock(response).None? ==> r == response
  {
    match CodeBlock(response)
    case None => response
    case Some((b, e)) => Trim(response[b..e])
  }

  /** The result is always a substring of the reply. */
  lemma ExtractIsSubstring(response: string)
    ensures IsInfix(ExtractJavaCode(response), response)
    ensures IsInfix(ExtractJavaCodeAsWritten(response), response)
  {
    ExtractedInfix(response);
    ExtractedAsWrittenInfix(response);
  }

  lemma ExtractedInfix(response: string)
    ensures IsInfix(ExtractJavaCode(response), response)
  {
    var block := CodeBlock(response);
    if block.Some? {
      TrimmedSliceInfix(response, block.value.0, block.value.1);
    } else {
      assert MatchAt(response, response, 0);
    }
  }

  lemma ExtractedAsWrittenInfix(response: string)
    ensures IsInfix(ExtractJavaCodeAsWritten(response), response)
  {
    var startIdx := OpeningFence(response);
    if startIdx != -1 {
      var codeStart := IndexOf(response, "\n", startIdx) + 1;
      var codeEnd := IndexOf(response, Fence, codeStart);
      if codeEnd != -1 {
        TrimmedSliceInfix(response, codeStart, codeEnd);
        return;
      }
    }
    assert MatchAt(response, response, 0);
  }

  /** The trimmed text of a slice occurs in the whole. */
  lemma TrimmedSliceInfix(s: string, lo: nat, hi: nat)
    requires lo <= hi <= |s|
    ensures IsInfix(Trim(s[lo..hi]), s)
  {
    var t := s[lo..hi];
    assert MatchAt(s, t, lo);
    TrimInfix(t);
    InfixTrans(Trim(t), t, s);
  }

  /** A reply without any fence is returned unchanged. */
  lemma ExtractWithoutFence(response: string)
    requires !Contains(response, Fence)
    ensures ExtractJavaCode(response) == response
    ensures ExtractJavaCodeAsWritten(response) == response
  {
  }

  /** The two readings differ only where no newline follows the opening fence. */
  lemma ExtractAgreesWithNewline(response: string)
    requires OpeningFence(response) != -1
    requires IndexOf(response, "\n", OpeningFence(response)) != -1
    ensures ExtractJavaCode(response) == ExtractJavaCodeAsWritten(response)
  {
  }

  /** The first occurrence is `k` when `p` occurs at `k` and nowhere between `from` and `k`. */
  lemma IndexOfIs(s: string, p: string, from: nat, k: nat)
    requires from <= k && MatchAt(s, p, k)
    requires forall j :: from <= j < k ==> !MatchAt(s, p, j)
    ensures IndexOf(s, p, from) == k
  {
  }

  /** A stretch without '`' holds no fence. */
  lemma NoFenceIn(s: string, lo: nat, hi: nat)
    requires lo <= hi <= |s|
    requires forall k :: lo <= k < hi ==> s[k] != '`'
    ensures forall j :: lo <= j < hi ==> !MatchAt(s, Fence, j) && !MatchAt(s, JavaFence, j)
  {
    forall j | lo <= j < hi
      ensures !MatchAt(s, Fence, j) && !MatchAt(s, JavaFence, j)
    {
      if j + 3 <= |s| {
        assert s[j..j + 3][0] == s[j];
      }
      if j + 7 <= |s| {
        assert s[j..j + 7][0] == s[j];
      }
    }
  }

  /**
   * Extraction from an opening fence at `start` whose line ends at `nl`,
   * closed by the first fence after it at `end`.
   */
  lemma ExtractAt(s: string, start: nat, nl: nat, end: nat)
    requires OpeningFence(s) == start && start <= nl < end && MatchAt(s, Fence, end)
    requires s[nl] == '\n' && forall k :: start <= k < nl ==> s[k] != '\n'
    requires forall k :: nl < k < end ==> s[k] != '`'
    ensures ExtractJavaCode(s) == Trim(s[nl + 1..end])
  {
    NewlineAt(s, start, nl);
    ClosingFenceAt(s, nl + 1, end);
    assert CodeBlock(s) == Some((nl + 1, end));
  }

  /** The first newline from `start` on is at `nl`. */
  lemma NewlineAt(s: string, start: nat, nl: nat)
    requires start <= nl < |s| && s[nl] == '\n' && forall k :: start <= k < nl ==> s[k] != '\n'
    ensures IndexOf(s, "\n", start) == nl
  {
    forall j | start <= j < nl
      ensures !MatchAt(s, "\n", j)
    {
      assert s[j..j + 1][0] == s[j];
    }
    assert MatchAt(s, "\n", nl);
    IndexOfIs(s, "\n", start, nl);
  }

  /** The first fence from `from` on is at `end` when no backtick comes before it. */
  lemma ClosingFenceAt(s: string, from: nat, end: nat)
    requires from <= end && MatchAt(s, Fence, end)
    requires forall k :: from <= k < end ==> s[k] != '`'
    ensures IndexOf(s, Fence, from) == end
  {
    NoFenceIn(s, from, end);
    IndexOfIs(s, Fence, from, end);
  }

  /** The reply `pre` "```java" newline `code` "```" `post`. */
  function JavaReply(pre: string, code: string, post: string): string
  {
    pre + JavaFence + "\n" + code + Fence + post
  }

  /**
   * Round trip: a reply holding one "```java" block, with no backtick
   * before it or inside the code, yields the trimmed code, whatever
   * follows the block.
   */
  lemma ExtractJavaReply(pre: string, code: string, post: string)
    requires '`' !in pre && '`' !in code
    ensures ExtractJavaCode(JavaReply(pre, code, post)) == Trim(code)
  {
    var nl := |pre| + |JavaFence|;
    JavaReplyLayout(pre, code, post);
    ExtractTagged(JavaReply(pre, code, post), |pre|, nl, nl + 1 + |code|, code);
  }

  /**
   * A "```java" at `a`, with no backtick before it, whose line ends at
   * `nl`, closed by the first fence after it at `end`.
   */
  ghost predicate TaggedBlock(s: string, a: nat, nl: nat, end: nat)
  {
    && MatchAt(s, JavaFence, a) && (forall k :: 0 <= k < a ==> s[k] != '`')
    && a <= nl < end && MatchAt(s, Fence, end)
    && s[nl] == '\n' && (forall k :: a <= k < nl ==> s[k] != '\n')
    && (forall k :: nl < k < end ==> s[k] != '`')
  }

  /** Extraction from such a block yields its trimmed body. */
  lemma ExtractTagged(s: string, a: nat, nl: nat, end: nat, code: string)
    requires TaggedBlock(s, a, nl, end) && s[nl + 1..end] == code
    ensures ExtractJavaCode(s) == Trim(code)
  {
    FirstJavaFence(s, a);
    ExtractAt(s, a, nl, end);
  }

  /** A "```java" with no backtick before it is the opening fence. */
  lemma FirstJavaFence(s: string, a: nat)
    requires MatchAt(s, JavaFence, a) && forall k :: 0 <= k < a ==> s[k] != '`'
    ensures OpeningFence(s) == a
  {
    NoFenceIn(s, 0, a);
    IndexOfIs(s, JavaFence, 0, a);
  }

  /** Where the parts of a tagged reply lie. */
  lemma JavaReplyLayout(pre: string, code: string, post: string)
    requires '`' !in pre && '`' !in code
    ensures var nl := |pre| + |JavaFence|;
      var end := nl + 1 + |code|;
      TaggedBlock(JavaReply(pre, code, post), |pre|, nl, end)
      && JavaReply(pre, code, post)[nl + 1..end] == code
  {
    var s := JavaReply(pre, code, post);
    var a, nl := |pre|, |pre| + |JavaFence|;
    var end := nl + 1 + |code|;
    assert s[..a] == pre;
    assert s[a..nl] == JavaFence;
    assert s[nl + 1..end] == code;
    assert s[end..end + 3] == Fence;
    assert forall k :: 0 <= k < a ==> s[k] == pre[k];
    assert forall k :: a <= k < nl ==> s[k] == JavaFence[k - a];
    assert forall k :: nl < k < end ==> s[k] == code[k - nl - 1];
  }

  /** The reply `pre` "```" newline `code` "```" `post`. */
  function PlainReply(pre: string, code: string, post: string): string
  {
    pre + Fence + "\n" + code + Fence + post
  }

  /**
   * Round trip for an untagged block: with no backtick anywhere else, and
   * no "java" right after the closing fence (which would make it a tagged
   * opening fence), the trimmed code comes back.
   */
  lemma ExtractPlainReply(pre: string, code: string, post: string)
    requires '`' !in pre && '`' !in code && '`' !in post && !StartsWith(post, "java")
    ensures ExtractJavaCode(PlainReply(pre, code, post)) == Trim(code)
  {
    var nl := |pre| + 3;
    PlainReplyLayout(pre, code, post);
    ExtractBlock(PlainReply(pre, code, post), |pre|, nl, nl + 1 + |code|, code);
  }

  /** The opening fence at `a`, its line ending at `nl`, and the first fence after it at `end`. */
  ghost predicate FenceBlock(s: string, a: nat, nl: nat, end: nat)
  {
    && OpeningFence(s) == a && a <= nl < end && MatchAt(s, Fence, end)
    && s[nl] == '\n' && (forall k :: a <= k < nl ==> s[k] != '\n')
    && (forall k :: nl < k < end ==> s[k] != '`')
  }

  lemma ExtractBlock(s: string, a: nat, nl: nat, end: nat, code: string)
    requires FenceBlock(s, a, nl, end) && s[nl + 1..end] == code
    ensures ExtractJavaCode(s) == Trim(code)
  {
    ExtractAt(s, a, nl, end);
  }

  /** Where the parts of the untagged reply lie. */
  lemma PlainReplyLayout(pre: string, code: string, post: string)
    requires '`' !in pre && '`' !in code && '`' !in post && !StartsWith(post, "java")
    ensures var nl := |pre| + 3;
      var end := nl + 1 + |code|;
      FenceBlock(PlainReply(pre, code, post), |pre|, nl, end) && PlainReply(pre, code, post)[nl + 1..end] == code
  {
    PlainOpening(pre, code, post);
    PlainParts(pre, code, post);
  }

  /** The untagged reply's opening fence is the one right after `pre`. */
  lemma PlainOpening(pre: string, code: string, post: string)
    requires '`' !in pre && '`' !in code && '`' !in post && !StartsWith(post, "java")
    ensures OpeningFence(PlainReply(pre, code, post)) == |pre|
  {
    var s := PlainReply(pre, code, post);
    var a := |pre|;
    assert s[..a] == pre;
    assert s[a..a + 3] == Fence;
    PlainReplyUntagged(pre, code, post);
    NoFenceIn(s, 0, a);
    IndexOfIs(s, Fence, 0, a);
  }

  /** The fence line, the code and the closing fence of the untagged reply. */
  lemma PlainParts(pre: string, code: string, post: string)
    requires '`' !in code
    ensures var s, nl := PlainReply(pre, code, post), |pre| + 3;
      var end := nl + 1 + |code|;
      && MatchAt(s, Fence, end) && s[nl] == '\n' && (forall k :: |pre| <= k < nl ==> s[k] != '\n')
      && (forall k :: nl < k < end ==> s[k] != '`') && s[nl + 1..end] == code
  {
    var s := PlainReply(pre, code, post);
    var a, nl := |pre|, |pre| + 3;
    var end := nl + 1 + |code|;
    assert s[a..nl] == Fence;
    assert s[nl] == '\n';
    assert s[nl + 1..end] == code;
    assert s[end..end + 3] == Fence;
    assert forall k :: a <= k < nl ==> s[k] == Fence[k - a];
    assert forall k :: nl < k < end ==> s[k] == code[k - nl - 1];
  }

  /** Under the same conditions, the untagged reply holds no "```java" anywhere. */
  lemma PlainReplyUntagged(pre: string, code: string, post: string)
    requires '`' !in pre && '`' !in code && '`' !in post && !StartsWith(post, "java")
    ensures IndexOf(PlainReply(pre, code, post), JavaFence, 0) == -1
  {
    var s := PlainReply(pre, code, post);
    var a, nl := |pre|, |pre| + 3;
    var end := nl + 1 + |code|;
    assert s[..a] == pre;
    assert s[nl] == '\n';
    assert s[nl + 1..end] == code;
    assert s[end + 3..] == post;
    NoFenceIn(s, 0, a);
    NoFenceIn(s, nl, end);
    NoFenceIn(s, end + 3, |s|);
    forall j | 0 <= j <= |s|
      ensures !MatchAt(s, JavaFence, j)
    {
      if j + 7 <= |s| {
        var w := s[j..j + 7];
        if j == a || j == a + 1 || j == a + 2 {
          assert w[nl - j] == s[nl] == '\n';
        } else if j == end {
          assert w[3..] == post[..4];
        } else if j == end + 1 || j == end + 2 {
          assert w[end + 3 - j] == post[0];
        }
      }
    }
  }

  /** The reply "A```java B```": a tagged fence with no newline after it. */
  const NoNewlineReply := "A```java B```"

  /**
   * As written, that reply yields "A", the text before the fence; the
   * corrected reading returns the reply unchanged.
   */
  lemma ExtractNoNewlineReply()
    ensures ExtractJavaCodeAsWritten(NoNewlineReply) == "A"
    ensures ExtractJavaCode(NoNewlineReply) == NoNewlineReply
  {
    NoNewlineOpening();
    NoNewlineLine();
    NoNewlineFirstFence();
    TrimA();
  }

  /** The reply's opening fence is the "```java" at offset 1. */
  lemma NoNewlineOpening()
    ensures OpeningFence(NoNewlineReply) == 1
  {
    var s := NoNewlineReply;
    assert MatchAt(s, JavaFence, 1);
    assert s[0..7][0] == 'A';
    IndexOfIs(s, JavaFence, 0, 1);
  }

  /** No newline follows it. */
  lemma NoNewlineLine()
    ensures IndexOf(NoNewlineReply, "\n", 1) == -1
  {
    var s := NoNewlineReply;
    forall j | 1 <= j <= |s|
      ensures !MatchAt(s, "\n", j)
    {
      if j < |s| {
        assert s[j..j + 1][0] == s[j];
      }
    }
  }

  /** Searching from offset 0, the first fence is at 1, leaving "A" before it. */
  lemma NoNewlineFirstFence()
    ensures IndexOf(NoNewlineReply, Fence, 0) == 1
    ensures NoNewlineReply[0..1] == "A"
  {
    var s := NoNewlineReply;
    assert MatchAt(s, Fence, 1);
    assert s[0..3][0] == 'A';
    IndexOfIs(s, Fence, 0, 1);
  }

  lemma TrimA()
    ensures Trim("A") == "A"
  {
    assert TrimStart("A") == "A";
    assert TrimEnd("A") == "A";
  }

  /**
   * In the corrected reading, extracted code lies after the opening fence:
   * it is the trimmed text between the first newline after the fence and
   * the next fence after that newline.
   */
  lemma ExtractAfterFence(response: string)
    requires ExtractJavaCode(response) != response
    ensures var b := CodeBlock(response);
      && b.Some?
      && OpeningFence(response) < b.value.0
      && response[b.value.0 - 1] == '\n'
      && (forall j :: OpeningFence(response) <= j < b.value.0 - 1 ==> response[j] != '\n')
      && MatchAt(response, Fence, b.value.1)
      && (forall j :: b.value.0 <= j < b.value.1 ==> !MatchAt(response, Fence, j))
      && ExtractJavaCode(response) == Trim(response[b.value.0..b.value.1])
  {
  }
}
