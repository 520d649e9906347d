/**
 * The administration service's configuration rules: secret masking, the
 * provider switch, merging a submitted LLM configuration into the live
 * properties, and the worker-server predicate.
 */
module Admin {
  import opened Wrappers
  import opened Strings
  import opened Llm

  /** One provider's settings as the admin API shows and accepts them. */
  datatype ProviderConfig = ProviderConfig(
    name: Option<string>,
    apiUrl: Option<string>,
    apiKey: Option<string>,
    modelName: Option<string>,
    maxTokens: int)

  /** The LLM configuration as the admin API shows and accepts it; absent parts are null. */
  datatype LlmConfigDto = LlmConfigDto(
    activeProvider: Option<string>,
    qwen3: Option<ProviderConfig>,
    gptOss: Option<ProviderConfig>)

  /** A snapshot of one provider's live settings. */
  datatype ConfigValue = ConfigValue(
    apiUrl: Option<string>,
    apiKey: Option<string>,
    modelName: Option<string>,
    maxTokens: int)

  /** A snapshot of the live LLM properties. */
  datatype PropsValue = PropsValue(activeProvider: string, qwen3: ConfigValue, gptOss: ConfigValue)

  function ValueOf(c: LlmConfig): ConfigValue
    reads c
  {
    ConfigValue(c.apiUrl, c.apiKey, c.modelName, c.maxTokens)
  }

  function Snapshot(props: LlmProperties): PropsValue
    reads props, props.qwen3, props.gptOss
  {
    PropsValue(props.activeProvider, ValueOf(props.qwen3), ValueOf(props.gptOss))
  }

  const Mask := "****"

  /**
   * `maskSensitive`: short or missing secrets become "****"; longer ones keep
   * their first and last four characters around "****".
   */
  function MaskSensitive(value: Option<string>): (r: string)
    ensures '*' in r
    ensures value.None? || |value.value| < 8 ==> r == Mask
    ensures value.Some? && |value.value| >= 8 ==>
      |r| == 12 && r[..4] == value.value[..4] && r[4..8] == Mask && r[8..] == value.value[|value.value| - 4..]
  {
    if value.None? || |value.value| < 8 then Mask
    else
      var v := value.value;
      assert (v[..4] + Mask + v[|v| - 4..])[4] == '*';
      v[..4] + Mask + v[|v| - 4..]
  }

  /** The mask shows nothing but the first and last four characters. */
  lemma MaskHidesMiddle(a: string, b: string)
    requires |a| >= 8 && |b| >= 8
    requires a[..4] == b[..4] && a[|a| - 4..] == b[|b| - 4..]
    ensures MaskSensitive(Some(a)) == MaskSensitive(Some(b))
  {
    var ma, mb := MaskSensitive(Some(a)), MaskSensitive(Some(b));
    assert ma == ma[..4] + ma[4..8] + ma[8..];
    assert mb == mb[..4] + mb[4..8] + mb[8..];
  }

  /** `mapLlmConfig`: a provider's settings as shown, with the key masked. */
  function View(v: ConfigValue, name: string): (r: ProviderConfig)
    ensures r.apiKey.Some? && '*' in r.apiKey.value
    ensures r.apiUrl == v.apiUrl && r.modelName == v.modelName && r.maxTokens == v.maxTokens
  {
    ProviderConfig(Some(name), v.apiUrl, Some(MaskSensitive(v.apiKey)), v.modelName, v.maxTokens)
  }

  /** `getLlmConfig`. */
  function ViewAll(p: PropsValue): LlmConfigDto
  {
    LlmConfigDto(Some(p.activeProvider), Some(View(p.qwen3, "qwen3")), Some(View(p.gptOss, "gpt_oss")))
  }

  /**
   * `updateProviderConfig`'s merge: url and model when given, the key when
   * given and free of '*', the token limit when positive.
   */
  function Merge(v: ConfigValue, source: ProviderConfig): ConfigValue
  {
    ConfigValue(
      if source.apiUrl.Some? then source.apiUrl else v.apiUrl,
      if source.apiKey.Some? && '*' !in source.apiKey.value then source.apiKey else v.apiKey,
      if source.modelName.Some? then source.modelName else v.modelName,
      if source.maxTokens > 0 then source.maxTokens else v.maxTokens)
  }

  /** `updateLlmConfig`'s merge: only the parts that are present. */
  function Apply(p: PropsValue, dto: LlmConfigDto): PropsValue
  {
    PropsValue(
      if dto.activeProvider.Some? then dto.activeProvider.value else p.activeProvider,
      if dto.qwen3.Some? then Merge(p.qwen3, dto.qwen3.value) else p.qwen3,
      if dto.gptOss.Some? then Merge(p.gptOss, dto.gptOss.value) else p.gptOss)
  }

  /**
   * A merge never stores a key holding '*', keeps the old key unless a new
   * one is given, and keeps a positive token limit positive; merging the
   * same submission twice is the same as once.
   */
  lemma MergeRules(v: ConfigValue, source: ProviderConfig)
    ensures var r := Merge(v, source);
      && (r.apiKey != v.apiKey ==> r.apiKey == source.apiKey && '*' !in r.apiKey.value)
      && (v.maxTokens > 0 ==> r.maxTokens > 0)
      && (source.apiKey.Some? && '*' in source.apiKey.value ==> r.apiKey == v.apiKey)
      && Merge(r, source) == r
  {
  }

  /**
   * Submitting back what `getLlmConfig` showed changes nothing: the masked
   * keys are ignored and every other value is the live one.
   */
  lemma ResubmitIsNoOp(p: PropsValue)
    ensures Apply(p, ViewAll(p)) == p
  {
    assert Merge(p.qwen3, View(p.qwen3, "qwen3")) == p.qwen3;
    assert Merge(p.gptOss, View(p.gptOss, "gpt_oss")) == p.gptOss;
  }

  /** A key submitted with a '*' in it never reaches the live settings. */
  lemma MaskedKeyNeverStored(p: PropsValue, dto: LlmConfigDto)
    requires dto.qwen3.Some? && dto.qwen3.value.apiKey.Some? && '*' in dto.qwen3.value.apiKey.value
    requires dto.gptOss.Some? && dto.gptOss.value.apiKey.Some? && '*' in dto.gptOss.value.apiKey.value
    ensures Apply(p, dto).qwen3.apiKey == p.qwen3.apiKey
    ensures Apply(p, dto).gptOss.apiKey == p.gptOss.apiKey
  {
    MergeRules(p.qwen3, dto.qwen3.value);
    MergeRules(p.gptOss, dto.gptOss.value);
  }

  /** `updateProviderConfig`: merges the submission into one provider's live settings. */
  method UpdateProviderConfig(target: LlmConfig, source: ProviderConfig)
    modifies target
    ensures ValueOf(target) == Merge(old(ValueOf(target)), source)
  {
    if source.apiUrl.Some? {
      target.apiUrl := source.apiUrl;
    }
    if source.apiKey.Some? && '*' !in source.apiKey.value {
      target.apiKey := source.apiKey;
    }
    if source.modelName.Some? {
      target.modelName := source.modelName;
    }
    if source.maxTokens > 0 {
      target.maxTokens := source.maxTokens;
    }
  }

  /** `updateLlmConfig`: applies the present parts and returns the new view. */
  method UpdateLlmConfig(props: LlmProperties, config: LlmConfigDto) returns (view: LlmConfigDto)
    requires props.Valid()
    modifies props, props.qwen3, props.gptOss
    ensures Snapshot(props) == Apply(old(Snapshot(props)), config)
    ensures view == ViewAll(Snapshot(props))
  {
    if config.activeProvider.Some? {
      props.activeProvider := config.activeProvider.value;
    }
    if config.qwen3.Some? {
      UpdateProviderConfig(props.qwen3, config.qwen3.value);
    }
    if config.gptOss.Some? {
      UpdateProviderConfig(props.gptOss, config.gptOss.value);
    }
    view := ViewAll(Snapshot(props));
  }

  /** The names `changeLlmProvider` accepts, compared exactly. */
  predicate ValidProviderName(provider: string)
  {
    provider == "qwen3" || provider == "gpt_oss"
  }

  /**
   * `changeLlmProvider`: only "qwen3" and "gpt_oss" are accepted; anything
   * else is an IllegalArgumentException and the properties stay as they were.
   */
  method ChangeLlmProvider(props: LlmProperties, provider: string) returns (r: Result<LlmConfigDto, string>)
    modifies props
    ensures ValidProviderName(provider) ==>
      Snapshot(props) == old(Snapshot(props)).(activeProvider := provider) && r == Ok(ViewAll(Snapshot(props)))
    ensures !ValidProviderName(provider) ==>
      Snapshot(props) == old(Snapshot(props)) && r == Err("Invalid LLM provider: " + provider)
  {
    if !ValidProviderName(provider) {
      return Err("Invalid LLM provider: " + provider);
    }
    props.activeProvider := provider;
    r := Ok(ViewAll(Snapshot(props)));
  }

  /** Every name `changeLlmProvider` accepts is one the LLM service can resolve. */
  lemma AcceptedProviderResolves(provider: string, other: Option<string>)
    requires ValidProviderName(provider)
    ensures ProviderNamed(None, provider).Ok?
    ensures ProviderNamed(Some(provider), provider) == ProviderNamed(None, provider)
  {
    if provider == "qwen3" {
      assert ToLower(provider) == "qwen3";
    } else {
      assert ToLower(provider) == "gpt_oss";
    }
  }

  /**
   * The worker server counts as configured when its URL is present, non-empty,
   * free of "localhost", and not a plain-http 192.168 address.
   */
  predicate WorkerEnabled(url: Option<string>)
  {
    url.Some? && url.value != "" && !Contains(url.value, "localhost") && !StartsWith(url.value, "http://192.168.")
  }

  /** Any part of an enabled URL is free of "localhost". */
  lemma WorkerEnabledInfix(url: string, part: string)
    requires WorkerEnabled(Some(url)) && IsInfix(part, url)
    ensures !Contains(part, "localhost")
  {
    if Contains(part, "localhost") {
      InfixTrans("localhost", part, url);
    }
  }

  /** Only the "http://" spelling of a 192.168 address is excluded. */
  lemma WorkerEnabledExamples()
    ensures !WorkerEnabled(None) && !WorkerEnabled(Some(""))
    ensures !WorkerEnabled(Some("http://192.168.0.5:8000/api"))
    ensures WorkerEnabled(Some("https://192.168.0.5:8000/api"))
  {
    var s := "https://192.168.0.5:8000/api";
    forall i | 0 <= i <= |s|
      ensures !MatchAt(s, "localhost", i)
    {
      if i + 9 <= |s| {
        assert s[i..i + 9][0] == s[i];
      }
    }
    assert s[..15][4] != "http://192.168."[4];
  }
}
