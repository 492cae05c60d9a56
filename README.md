# automem configuration helpers, modelled in Dafny

This project models three small, pure helpers of automem's configuration
module (`automem.config`), which sits between an LLM-backed memory service,
the completion API it calls and the store it writes memories to:

- `supports_reasoning(model_id)`: is a model identifier part of a family that
  takes a reasoning-effort parameter (o1, o3, gpt-5)?
- `get_openai_token_params(model_id, max_tokens, reasoning_effort=None)`: the
  token-limit (and optional reasoning) entries of an outbound completion
  request. o-series models take `max_completion_tokens`; all others, gpt-5
  included, take `max_tokens`. A nested `reasoning: {effort: ...}` entry is
  added only for reasoning-capable models given a non-empty effort.
- `normalize_memory_type(raw)`: maps an optional memory-type label to one of
  the canonical categories Decision, Pattern, Preference, Style, Habit,
  Insight and Context. It returns the label together with a flag saying
  whether the label was changed. An unrecognised label becomes the empty
  string.

The implementation file `automem/config.py` is not part of this model. The
behaviour is taken from the assertions of `tests/test_config.py` and from the
design of these helpers. Where the two leave a choice open, the decision is
stated below.

Layout, one module per component:

- `wrappers.dfy` (`Wrappers`): `Option`, standing for Python's `None`.
- `ascii.dfy` (`Ascii`): ASCII lower-casing and prefix tests. This is the
  model's choice of string operations; how `automem.config` lower-cases and
  tests prefixes is not shown.
- `model_capability.dfy` (`ModelCapability`): the classifier. It is an ordered
  table of `(prefix, family, reasoning)` rules. The rules are tried
  first-match-wins against the lower-cased identifier.
- `token_params.dfy` (`TokenParams`): the builder. Its result is a
  `map<string, Value>`, the dictionary the application merges into a request.
- `memory_type.dfy` (`MemoryType`): the normalizer. It is a five-step
  precedence chain.

Decisions where the behaviour is not pinned down:

- The builder's o-series test uses the same lower-cased rule table as
  `supports_reasoning`. It holds exactly for identifiers whose lower-cased form
  starts with "o1" or "o3".
- Legacy aliases are looked up on the raw label as given. Only the two aliases
  the tests show are in the table: "memory" maps to Context and "analysis" to
  Insight.
- The empty string as a memory type is a present label that no rule
  recognises, so it yields `("", true)`. Only an absent label yields the
  default `("Context", true)`.
- `max_tokens` is an `int` and is passed through unchecked. The effort text is
  passed through verbatim, with no check against a list of levels.

## Model

| member | source | states |
|---|---|---|
| `ModelCapability.FirstMatch` | tests/test_config.py:17-40 | the first-match-wins rule search: no index when no rule matches; otherwise an index whose rule matches and before which no rule matches |
| `ModelCapability.Classify` | tests/test_config.py:17-40 | some rule decides an identifier exactly when its lower-cased form starts with "o1", "o3" or "gpt-5"; the deciding rule is the first rule of the table that matches |
| `ModelCapability.SupportsReasoning` | tests/test_config.py:17-40 | `supports_reasoning` is true if and only if the lower-cased identifier starts with "o1", "o3" or "gpt-5" |
| `ModelCapability.IsOSeries` | tests/test_config.py:46-64 | the o-series test holds if and only if the lower-cased identifier starts with "o1" or "o3" |
| `ModelCapability.OSeriesSupportsReasoning` | tests/test_config.py:17-24 | every o-series identifier is reasoning-capable |
| `ModelCapability.ReasoningFamiliesAnySuffix` | tests/test_config.py:17-29 | "o1", "o3" and "gpt-5" followed by any suffix are reasoning-capable; the first two are o-series, gpt-5 is not |
| `ModelCapability.Gpt4NeverReasons` | tests/test_config.py:31-35 | "gpt-4" followed by any suffix is neither reasoning-capable nor o-series |
| `ModelCapability.ReasoningExamples` | tests/test_config.py:17-29 | o1, o1-mini, o1-preview, o3, o3-mini, gpt-5, gpt-5.2 and gpt-5.3-codex support reasoning |
| `ModelCapability.Gpt4Examples` | tests/test_config.py:31-35 | gpt-4, gpt-4o, gpt-4o-mini and gpt-4-turbo do not support reasoning |
| `ModelCapability.OtherVendorExamples` | tests/test_config.py:37-40 | text-embedding-3-large, claude-3-opus and unknown-model do not support reasoning |
| `TokenParams.LimitKey` | tests/test_config.py:46-60 | the limit key is "max_completion_tokens" exactly for o-series models and "max_tokens" exactly for all others |
| `TokenParams.GetOpenAITokenParams` | tests/test_config.py:46-85 | exactly one of the two limit keys is present, chosen by the o-series test, and it holds `max_tokens`; a "reasoning" entry `{effort: e}` is present if and only if the model supports reasoning and the effort is present and non-empty, with `e` verbatim; no other key is present |
| `TokenParams.NoReasoningIsLimitOnly` | tests/test_config.py:66-80 | when the model is unsupported or the effort is absent or empty, the result is just the limit-key dictionary, the same as with no effort at all |
| `TokenParams.Gpt5KeepsMaxTokens` | tests/test_config.py:58-64 | a gpt-5 model with a non-empty effort gets `max_tokens` plus the reasoning entry |
| `TokenParams.OSeriesUsesCompletionBudget` | tests/test_config.py:46-52 | an o1 or o3 model with a non-empty effort gets `max_completion_tokens` plus the reasoning entry |
| `TokenParams.OSeriesExamples` | tests/test_config.py:46-52 | the dictionaries for ("o1", 100) and ("o1", 100, "medium") |
| `TokenParams.Gpt4TokenExamples` | tests/test_config.py:54-56 | the dictionary for ("gpt-4o-mini", 100), with or without an effort |
| `TokenParams.Gpt5TokenExamples` | tests/test_config.py:58-80 | the dictionaries for ("gpt-5.2", 100) with no effort, an empty effort and "high" |
| `TokenParams.EffortLevelsPassThrough` | tests/test_config.py:82-85 | for o3, each of low, medium, high and xhigh appears verbatim as the effort |
| `MemoryType.FindIgnoringCase` | tests/test_config.py:97-100 | the case-insensitive lookup returns the first listed label equal to the input up to case, or nothing exactly when no listed label is |
| `MemoryType.AliasesAreCanonical` | tests/test_config.py:102-109 | every legacy alias maps to a canonical label |
| `MemoryType.CanonicalDistinctIgnoringCase` | tests/test_config.py:91-100 | no two canonical labels differ only in case, so the case-insensitive match is unique |
| `MemoryType.NormalizeMemoryType` | tests/test_config.py:91-119 | total; the label is canonical or ""; unmodified exactly for an exact canonical label, then returned as is; a differently-cased canonical label gives that label; an alias gives its target; absent gives ("Context", true); "" exactly when the label is present, matches no canonical label up to case and is no alias |
| `MemoryType.NormalizeIdempotent` | tests/test_config.py:91-95 | normalizing an output again keeps its label; a canonical output comes back with `was_modified` false |
| `MemoryType.CanonicalUnchanged` | tests/test_config.py:91-95 | each canonical label is returned unchanged with `was_modified` false |
| `MemoryType.LowerCaseExample` | tests/test_config.py:97-100 | "decision" gives ("Decision", true) |
| `MemoryType.LegacyExamples` | tests/test_config.py:102-109 | "memory" gives ("Context", true) and "analysis" gives ("Insight", true) |
| `MemoryType.DefaultAndUnknownExamples` | tests/test_config.py:111-119 | an absent label gives ("Context", true) and "unknown_type" gives ("", true) |

## Left out

- Lower-casing is ASCII only. How `automem.config` folds case is not shown, so
  any folding of non-ASCII capitals it may do is not modelled.
- Legacy aliases beyond "memory" and "analysis" are not modelled: the full
  alias table is not visible.
- The rest of `automem.config`, such as environment and settings loading, is
  not shown and is not part of this model. It is presumably I/O.
- The completion client that sends these parameters is not modelled. Memory
  persistence, retrieval, the command line and service wiring are not modelled
  either. They are I/O and external collaborators.
