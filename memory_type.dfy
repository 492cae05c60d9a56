/**
 * MemoryTypeNormalizer: `normalize_memory_type(raw) -> (label, was_modified)`.
 *
 * A strict precedence chain maps an optional free-form label to one of the
 * canonical categories, or to the empty-string sentinel for a label it
 * does not recognise:
 *   1. exactly a canonical label           -> (raw, false)
 *   2. a canonical label in another case   -> (that canonical label, true)
 *   3. a legacy alias                      -> (the alias's target, true)
 *   4. absent                              -> ("Context", true)
 *   5. anything else                       -> ("", true)
 * The function is total: every input has a result and none is an error.
 */
module MemoryType {
  import opened Wrappers
  import opened Ascii

  /** The canonical categories of a memory record. */
  const Canonical: seq<string> :=
    ["Decision", "Pattern", "Preference", "Style", "Habit", "Insight", "Context"]

  /** The label given to a record whose type is absent. */
  const DefaultLabel := "Context"

  /** The sentinel for a label that could not be normalized. */
  const Unrecognized := ""

  /** The legacy aliases, each mapped to the canonical label it stands for. */
  const LegacyAliases: map<string, string> := map["memory" := "Context", "analysis" := "Insight"]

  datatype Normalized = Normalized(category: string, wasModified: bool)

  predicate IsCanonical(s: string) {
    s in Canonical
  }

  /** A label the normalizer can return: a canonical label or the sentinel. */
  predicate IsMemoryTypeLabel(s: string) {
    IsCanonical(s) || s == Unrecognized
  }

  predicate SameIgnoringCase(a: string, b: string) {
    Lower(a) == Lower(b)
  }

  /** The first of `labels` equal to `s` up to ASCII case, if any. */
  function FindIgnoringCase(labels: seq<string>, s: string): (r: Option<string>)
    ensures r.None? <==> forall i :: 0 <= i < |labels| ==> !SameIgnoringCase(labels[i], s)
    ensures r.Some? ==> r.value in labels && SameIgnoringCase(r.value, s)
    ensures r.Some? ==>
      exists i :: 0 <= i < |labels| && labels[i] == r.value
        && (forall j :: 0 <= j < i ==> !SameIgnoringCase(labels[j], s))
  {
    if labels == [] then None
    else if SameIgnoringCase(labels[0], s) then Some(labels[0])
    else FindIgnoringCase(labels[1..], s)
  }

  /** Every legacy alias stands for a canonical label. */
  lemma AliasesAreCanonical()
    ensures forall a :: a in LegacyAliases ==> IsCanonical(LegacyAliases[a])
  {
  }

  /** No two canonical labels differ only in case, so case-insensitive lookup is unambiguous. */
  lemma CanonicalDistinctIgnoringCase(a: string, b: string)
    requires IsCanonical(a) && IsCanonical(b) && SameIgnoringCase(a, b)
    ensures a == b
  {
  }

  function NormalizeMemoryType(raw: Option<string>): (r: Normalized)
    // total, and always a canonical label or the sentinel
    ensures IsMemoryTypeLabel(r.category)
    // rule 1: only an exact canonical label is left unmodified, and it is returned as is
    ensures !r.wasModified <==> raw.Some? && IsCanonical(raw.value)
    ensures !r.wasModified ==> r.category == raw.value
    // rule 2: a canonical label in another case becomes that canonical label
    ensures raw.Some? && !IsCanonical(raw.value)
         ==> forall c :: IsCanonical(c) && SameIgnoringCase(c, raw.value) ==> r == Normalized(c, true)
    // rule 3: a legacy alias that matches no canonical label becomes the alias's target
    ensures raw.Some? && raw.value in LegacyAliases
         && (forall c :: IsCanonical(c) ==> !SameIgnoringCase(c, raw.value))
         ==> r == Normalized(LegacyAliases[raw.value], true)
    // rule 4: an absent label becomes the default category
    ensures raw.None? ==> r == Normalized(DefaultLabel, true)
    // rule 5: the sentinel exactly for a present label that no earlier rule recognises
    ensures r.category == Unrecognized <==>
      raw.Some? && raw.value !in LegacyAliases
      && (forall c :: IsCanonical(c) ==> !SameIgnoringCase(c, raw.value))
    ensures r.category == Unrecognized ==> r.wasModified
  {
    AliasesAreCanonical();
    match raw
    case None => Normalized(DefaultLabel, true)
    case Some(s) =>
      if IsCanonical(s) then Normalized(s, false)
      else match FindIgnoringCase(Canonical, s)
        case Some(c) =>
          assert forall c' :: IsCanonical(c') && SameIgnoringCase(c', s) ==> c' == c by {
            forall c' | IsCanonical(c') && SameIgnoringCase(c', s) ensures c' == c {
              CanonicalDistinctIgnoringCase(c', c);
            }
          }
          Normalized(c, true)
        case None =>
          if s in LegacyAliases then Normalized(LegacyAliases[s], true)
          else Normalized(Unrecognized, true)
  }

  /**
   * Normalization is idempotent: normalizing its own output again keeps the
   * label, and a canonical output comes back unmodified.
   */
  lemma NormalizeIdempotent(raw: Option<string>)
    ensures var r := NormalizeMemoryType(raw);
      NormalizeMemoryType(Some(r.category)).category == r.category
      && (IsCanonical(r.category) ==> NormalizeMemoryType(Some(r.category)) == Normalized(r.category, false))
  {
  }

  /** Each canonical label is a fixed point. */
  lemma CanonicalUnchanged()
    ensures forall c :: c in Canonical ==> NormalizeMemoryType(Some(c)) == Normalized(c, false)
  {
  }

  /** A label whose lower-cased initial begins no canonical label matches none of them. */
  lemma NoCanonicalInitial(s: string)
    requires |s| > 0 && LowerChar(s[0]) !in "dpshic"
    ensures forall c :: IsCanonical(c) ==> !SameIgnoringCase(c, s)
  {
  }

  /** A canonical label in lower case comes back capitalised and marked as modified. */
  lemma LowerCaseExample()
    ensures NormalizeMemoryType(Some("decision")) == Normalized("Decision", true)
  {
  }

  /** The legacy aliases the application's tests name map to their categories. */
  lemma LegacyExamples()
    ensures NormalizeMemoryType(Some("memory")) == Normalized("Context", true)
    ensures NormalizeMemoryType(Some("analysis")) == Normalized("Insight", true)
  {
    NoCanonicalInitial("memory");
    NoCanonicalInitial("analysis");
  }

  /** An absent label defaults to "Context"; an unknown one yields the sentinel. */
  lemma DefaultAndUnknownExamples()
    ensures NormalizeMemoryType(None) == Normalized("Context", true)
    ensures NormalizeMemoryType(Some("unknown_type")) == Normalized("", true)
  {
  }
}
