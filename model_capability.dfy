/**
 * ModelCapabilityClassifier: `supports_reasoning(model_id)`.
 *
 * A model identifier is classified by an ordered table of prefix rules,
 * tried first-match-wins against the lower-cased identifier. Each rule
 * names the model family it recognises and whether that family accepts a
 * reasoning-effort parameter; an identifier that no rule matches is
 * treated as not reasoning-capable.
 */
module ModelCapability {
  import opened Wrappers
  import opened Ascii

  /** The families the rule table distinguishes. */
  datatype Family = OSeries | Gpt5

  datatype Rule = Rule(prefix: string, family: Family, reasoning: bool)

  /** The classification table, in the order it is consulted. */
  const Rules: seq<Rule> := [
    Rule("o1", OSeries, true),
    Rule("o3", OSeries, true),
    Rule("gpt-5", Gpt5, true)
  ]

  predicate Matches(rule: Rule, id: string) {
    StartsWith(id, rule.prefix)
  }

  /** The table's three rules, position by position. */
  lemma RulesAt(id: string)
    ensures |Rules| == 3
    ensures Matches(Rules[0], id) <==> StartsWith(id, "o1")
    ensures Matches(Rules[1], id) <==> StartsWith(id, "o3")
    ensures Matches(Rules[2], id) <==> StartsWith(id, "gpt-5")
    ensures Rules[0].family == OSeries && Rules[1].family == OSeries && Rules[2].family == Gpt5
    ensures Rules[0].reasoning && Rules[1].reasoning && Rules[2].reasoning
  {
  }

  /** The position of the first rule of `rules` that matches `id`, if any. */
  function FirstMatch(rules: seq<Rule>, id: string): (r: Option<nat>)
    ensures r.None? <==> forall i :: 0 <= i < |rules| ==> !Matches(rules[i], id)
    ensures r.Some? ==> r.value < |rules| && Matches(rules[r.value], id)
    ensures r.Some? ==> forall j :: 0 <= j < r.value ==> !Matches(rules[j], id)
  {
    if rules == [] then None
    else if Matches(rules[0], id) then Some(0)
    else match FirstMatch(rules[1..], id)
      case None => None
      case Some(k) => Some(k + 1)
  }

  /** The rule that decides `modelId`: the first one matching its lower-cased form. */
  function Classify(modelId: string): (r: Option<Rule>)
    ensures r.None? <==>
      !StartsWith(Lower(modelId), "o1") && !StartsWith(Lower(modelId), "o3")
      && !StartsWith(Lower(modelId), "gpt-5")
    ensures r.Some? ==> r.value in Rules && Matches(r.value, Lower(modelId))
    ensures r.Some? ==>
      exists k :: 0 <= k < |Rules| && Rules[k] == r.value
        && (forall j :: 0 <= j < k ==> !Matches(Rules[j], Lower(modelId)))
  {
    RulesAt(Lower(modelId));
    match FirstMatch(Rules, Lower(modelId))
    case None => None
    case Some(k) => Some(Rules[k])
  }

  /**
   * `supports_reasoning`: true exactly for identifiers whose lower-cased
   * form starts with "o1", "o3" or "gpt-5", whatever follows.
   */
  function SupportsReasoning(modelId: string): (r: bool)
    ensures r <==>
      StartsWith(Lower(modelId), "o1") || StartsWith(Lower(modelId), "o3")
      || StartsWith(Lower(modelId), "gpt-5")
  {
    match Classify(modelId)
    case None => false
    case Some(rule) => rule.reasoning
  }

  /**
   * The o-series test the token-parameter builder uses: the deciding
   * rule belongs to the o-series family. Exactly the identifiers whose
   * lower-cased form starts with "o1" or "o3".
   */
  function IsOSeries(modelId: string): (r: bool)
    ensures r <==> StartsWith(Lower(modelId), "o1") || StartsWith(Lower(modelId), "o3")
  {
    RulesAt(Lower(modelId));
    match FirstMatch(Rules, Lower(modelId))
    case None => false
    case Some(k) => Rules[k].family == OSeries
  }

  /** Every o-series identifier is reasoning-capable. */
  lemma OSeriesSupportsReasoning(modelId: string)
    ensures IsOSeries(modelId) ==> SupportsReasoning(modelId)
  {
  }

  /**
   * The o1, o3 and gpt-5 families are reasoning-capable whatever suffix
   * follows the family prefix ("-mini", ".2", "-codex", ...); the first
   * two are o-series, gpt-5 is not.
   */
  lemma {:induction false} ReasoningFamiliesAnySuffix(suffix: string)
    ensures SupportsReasoning("o1" + suffix) && IsOSeries("o1" + suffix)
    ensures SupportsReasoning("o3" + suffix) && IsOSeries("o3" + suffix)
    ensures SupportsReasoning("gpt-5" + suffix) && !IsOSeries("gpt-5" + suffix)
  {
    LowerLowerPrefix("o1", suffix);
    LowerLowerPrefix("o3", suffix);
    LowerLowerPrefix("gpt-5", suffix);
    assert Lower("gpt-5" + suffix)[0] == 'g';
  }

  /** No gpt-4 identifier is reasoning-capable or o-series, whatever its suffix. */
  lemma {:induction false} Gpt4NeverReasons(suffix: string)
    ensures !SupportsReasoning("gpt-4" + suffix) && !IsOSeries("gpt-4" + suffix)
  {
    LowerLowerPrefix("gpt-4", suffix);
    var id := Lower("gpt-4" + suffix);
    assert id[0] == 'g' && id[4] == '4';
  }

  /** The reasoning-capable identifiers the application's tests name. */
  lemma ReasoningExamples()
    ensures SupportsReasoning("o1") && SupportsReasoning("o1-mini") && SupportsReasoning("o1-preview")
    ensures SupportsReasoning("o3") && SupportsReasoning("o3-mini")
    ensures SupportsReasoning("gpt-5") && SupportsReasoning("gpt-5.2") && SupportsReasoning("gpt-5.3-codex")
  {
    LowerKeepsLowerPrefix("o1", "o1");
    LowerKeepsLowerPrefix("o1-mini", "o1");
    LowerKeepsLowerPrefix("o1-preview", "o1");
    LowerKeepsLowerPrefix("o3", "o3");
    LowerKeepsLowerPrefix("o3-mini", "o3");
    LowerKeepsLowerPrefix("gpt-5", "gpt-5");
    LowerKeepsLowerPrefix("gpt-5.2", "gpt-5");
    LowerKeepsLowerPrefix("gpt-5.3-codex", "gpt-5");
  }

  /** The gpt-4 identifiers the application's tests name are not reasoning-capable. */
  lemma Gpt4Examples()
    ensures !SupportsReasoning("gpt-4") && !SupportsReasoning("gpt-4o")
    ensures !SupportsReasoning("gpt-4o-mini") && !SupportsReasoning("gpt-4-turbo")
  {
    Gpt4NeverReasons("");
    Gpt4NeverReasons("o");
    Gpt4NeverReasons("o-mini");
    Gpt4NeverReasons("-turbo");
    assert "gpt-4" + "" == "gpt-4" && "gpt-4" + "o" == "gpt-4o";
    assert "gpt-4" + "o-mini" == "gpt-4o-mini" && "gpt-4" + "-turbo" == "gpt-4-turbo";
  }

  /** The other vendors' identifiers the application's tests name are not reasoning-capable. */
  lemma OtherVendorExamples()
    ensures !SupportsReasoning("text-embedding-3-large") && !SupportsReasoning("claude-3-opus")
    ensures !SupportsReasoning("unknown-model")
  {
    assert Lower("text-embedding-3-large")[0] == 't';
    assert Lower("claude-3-opus")[0] == 'c';
    assert Lower("unknown-model")[0] == 'u';
  }
}
