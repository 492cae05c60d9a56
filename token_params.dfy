/**
 * TokenParameterBuilder: `get_openai_token_params(model_id, max_tokens,
 * reasoning_effort=None)`.
 *
 * The result is the dictionary merged into an outbound completion request:
 * exactly one token-limit entry ("max_completion_tokens" for o-series
 * models, "max_tokens" for every other model, gpt-5 included) and, only for
 * reasoning-capable models given a non-empty effort, a nested
 * "reasoning": {"effort": <effort>} entry. The effort text is not checked
 * against any list of levels.
 */
module TokenParams {
  import opened Wrappers
  import opened ModelCapability

  /** The JSON-like values the dictionary holds. */
  datatype Value = Int(n: int) | Str(s: string) | Dict(entries: map<string, Value>)

  const MaxTokensKey := "max_tokens"
  const MaxCompletionTokensKey := "max_completion_tokens"
  const ReasoningKey := "reasoning"
  const EffortKey := "effort"

  /** Python truthiness of the optional effort: present and not the empty string. */
  predicate HasEffort(reasoningEffort: Option<string>) {
    reasoningEffort.Some? && reasoningEffort.value != ""
  }

  /** The token-limit key the model's request schema expects. */
  function LimitKey(modelId: string): (k: string)
    ensures k == MaxCompletionTokensKey <==> IsOSeries(modelId)
    ensures k == MaxTokensKey <==> !IsOSeries(modelId)
  {
    if IsOSeries(modelId) then MaxCompletionTokensKey else MaxTokensKey
  }

  /** The nested reasoning entry, carrying the effort text verbatim. */
  function ReasoningEntry(effort: string): Value {
    Dict(map[EffortKey := Str(effort)])
  }

  function GetOpenAITokenParams(modelId: string, maxTokens: int, reasoningEffort: Option<string>)
    : (r: map<string, Value>)
    // exactly one token-limit key, chosen by the o-series test, holding the limit
    ensures (MaxTokensKey in r) != (MaxCompletionTokensKey in r)
    ensures MaxCompletionTokensKey in r <==> IsOSeries(modelId)
    ensures MaxTokensKey in r ==> r[MaxTokensKey] == Int(maxTokens)
    ensures MaxCompletionTokensKey in r ==> r[MaxCompletionTokensKey] == Int(maxTokens)
    // a reasoning entry exactly when the model supports it and an effort is given
    ensures ReasoningKey in r <==> SupportsReasoning(modelId) && HasEffort(reasoningEffort)
    ensures ReasoningKey in r ==> r[ReasoningKey] == ReasoningEntry(reasoningEffort.value)
    // and nothing else
    ensures r.Keys <= {MaxTokensKey, MaxCompletionTokensKey, ReasoningKey}
    ensures |r| == if ReasoningKey in r then 2 else 1
  {
    var limit := map[LimitKey(modelId) := Int(maxTokens)];
    if SupportsReasoning(modelId) && HasEffort(reasoningEffort) then
      limit[ReasoningKey := ReasoningEntry(reasoningEffort.value)]
    else
      limit
  }

  /**
   * When no reasoning entry is attached (unsupported model, or an absent
   * or empty effort) the result is just the token-limit dictionary, so the
   * effort argument makes no difference.
   */
  lemma NoReasoningIsLimitOnly(modelId: string, maxTokens: int, reasoningEffort: Option<string>)
    requires !SupportsReasoning(modelId) || !HasEffort(reasoningEffort)
    ensures GetOpenAITokenParams(modelId, maxTokens, reasoningEffort)
         == map[LimitKey(modelId) := Int(maxTokens)]
    ensures GetOpenAITokenParams(modelId, maxTokens, reasoningEffort)
         == GetOpenAITokenParams(modelId, maxTokens, None)
  {
  }

  /** gpt-5 models take a reasoning effort but keep the legacy "max_tokens" key. */
  lemma Gpt5KeepsMaxTokens(suffix: string, maxTokens: int, effort: string)
    requires effort != ""
    ensures GetOpenAITokenParams("gpt-5" + suffix, maxTokens, Some(effort))
         == map[MaxTokensKey := Int(maxTokens), ReasoningKey := ReasoningEntry(effort)]
  {
    ReasoningFamiliesAnySuffix(suffix);
  }

  /** o1 and o3 models use "max_completion_tokens" and pass any non-empty effort through. */
  lemma OSeriesUsesCompletionBudget(suffix: string, maxTokens: int, effort: string)
    requires effort != ""
    ensures GetOpenAITokenParams("o1" + suffix, maxTokens, Some(effort))
         == map[MaxCompletionTokensKey := Int(maxTokens), ReasoningKey := ReasoningEntry(effort)]
    ensures GetOpenAITokenParams("o3" + suffix, maxTokens, Some(effort))
         == map[MaxCompletionTokensKey := Int(maxTokens), ReasoningKey := ReasoningEntry(effort)]
  {
  }

  /** The o-series dictionaries the application's tests expect. */
  lemma OSeriesExamples()
    ensures GetOpenAITokenParams("o1", 100, None) == map["max_completion_tokens" := Int(100)]
    ensures GetOpenAITokenParams("o1", 100, Some("medium"))
         == map["max_completion_tokens" := Int(100), "reasoning" := Dict(map["effort" := Str("medium")])]
  {
  }

  /** The gpt-4 dictionaries the application's tests expect: any effort is dropped. */
  lemma Gpt4TokenExamples()
    ensures GetOpenAITokenParams("gpt-4o-mini", 100, None) == map["max_tokens" := Int(100)]
    ensures GetOpenAITokenParams("gpt-4o-mini", 100, Some("medium")) == map["max_tokens" := Int(100)]
  {
    Gpt4Examples();
    NoReasoningIsLimitOnly("gpt-4o-mini", 100, None);
    NoReasoningIsLimitOnly("gpt-4o-mini", 100, Some("medium"));
  }

  /** The gpt-5 dictionaries the application's tests expect. */
  lemma Gpt5TokenExamples()
    ensures GetOpenAITokenParams("gpt-5.2", 100, None) == map["max_tokens" := Int(100)]
    ensures GetOpenAITokenParams("gpt-5.2", 100, Some("")) == map["max_tokens" := Int(100)]
    ensures GetOpenAITokenParams("gpt-5.2", 100, Some("high"))
         == map["max_tokens" := Int(100), "reasoning" := Dict(map["effort" := Str("high")])]
  {
    ReasoningExamples();
    NoReasoningIsLimitOnly("gpt-5.2", 100, None);
    NoReasoningIsLimitOnly("gpt-5.2", 100, Some(""));
    assert "gpt-5" + ".2" == "gpt-5.2";
    Gpt5KeepsMaxTokens(".2", 100, "high");
  }

  /** Every effort level the application's tests try reaches an o3 request verbatim. */
  lemma EffortLevelsPassThrough()
    ensures forall level :: level in ["low", "medium", "high", "xhigh"] ==>
      var params := GetOpenAITokenParams("o3", 50, Some(level));
      ReasoningKey in params && params[ReasoningKey] == ReasoningEntry(level)
  {
  }
}
