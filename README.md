# Prompt templates of the listwise reranker

The listwise reranker asks an LLM to order candidate passages for a query.
The text around those passages comes from the `Prompt` enum in
`src/rank_llm/rerank/prompt.py`. Each member of the enum is a prompt mode with
a string value (`str(mode)` returns it). Each mode can build two pieces of text:

- `prefix(query, top_k, **kwargs)`, which goes before the passages. It is a
  plain string for open-source LLMs, or a list of chat messages with roles.
- `suffix(query, top_k, **kwargs)`, which goes after the passages.

Only `RANK_GPT` and `RANK_GPT_APEER` have templates. Every other mode raises
`ValueError` and names itself in the message. A call with fewer than two
positional arguments raises `ValueError("Missing query or top_k positional
arguments")` instead, whatever the mode. The `RANK_GPT` templates read the flag `is_os_llm`,
and its open-source suffix also reads `variable_passages`. Both flags default
to `False`.

This project models the module in Dafny, in five files.

- `Wrappers.dfy` holds `Option`, and `Result`, whose `Err` carries a
  `ValueError` message.
- `Decimal.dfy` models Python's `str(int)`, which renders `{top_k}` in an
  f-string. It renders integers of every size; CPython's limit on the
  number of digits it will convert is not modelled (see "## Left out"). It also has readers that take a rendered integer back out of a
  longer text.
- `Prompt.dfy` holds the modes and their values, and the positional and
  keyword arguments. `PrefixWith` and `SuffixWith` are `prefix` and `suffix`.
  They take the long fixed sentences of the templates from a `Wording` record.
  `Prefix` and `Suffix` are those two functions applied to `SourceWording`,
  which holds the sentences of `prompt.py` exactly.
- `Templates.dfy` says what it means for a text to contain a piece. It also
  has the readers that recover the query and top_k from a rendered template.

The properties live in `PromptProperties.dfy`. They are proved for every
wording, so they hold for the source's wording too. They cover:

- which calls fail, with which message;
- the roles and their order in the chat prefixes;
- that the query and top_k appear verbatim and can be read back;
- which example ordering each flag selects;
- which inputs each template ignores.

## Model

| member | source | states |
|---|---|---|
| Prompt.FromName | src/rank_llm/rerank/prompt.py:10-18 | Looking a mode up by its value finds exactly the mode whose `str` is that value, as `Prompt.Name` (`__str__`) gives it. Any other string finds nothing. |
| Prompt.PrefixWith | src/rank_llm/rerank/prompt.py:20-72 | Fewer than two positional arguments fail with "Missing query or top_k positional arguments". A mode other than RANK_GPT or RANK_GPT_APEER fails with "Prefix for prompt mode <value> is unsupported.". The call succeeds exactly when neither applies (integers of any size render; see `Decimal.IntToString` under "## Left out"). |
| Prompt.SuffixWith | src/rank_llm/rerank/prompt.py:74-105 | The same two failures, with the message "Suffix for prompt mode <value> is unsupported.". The call succeeds exactly when neither applies (integers of any size render; see `Decimal.IntToString` under "## Left out"). |
| Decimal.NatToString | src/rank_llm/rerank/prompt.py:42 | `{top_k}` for a natural number renders as a non-empty string of decimal digits. It has no leading zero unless the number is 0. |
| Decimal.IntToString | src/rank_llm/rerank/prompt.py:42 | `{top_k}` for an int starts with '-' exactly when the int is negative. Everything after the sign is digits. |
| Decimal.DigitsValueOfNatToString | src/rank_llm/rerank/prompt.py:42 | The digits of a rendered natural number have exactly that number as their value. |
| Decimal.ReadIntPrefixOfIntToString | src/rank_llm/rerank/prompt.py:42 | Reading an integer from the front of a rendered top_k gives back the same top_k. The text that follows is returned unchanged, provided it does not start with a digit. |
| Decimal.ReadIntSuffixOfIntToString | src/rank_llm/rerank/prompt.py:97 | Reading an integer from the end of a text that ends in a rendered top_k gives back the same top_k. The text before it is returned unchanged, provided it does not end in a digit or '-'. |
| Decimal.IntToStringInjective | src/rank_llm/rerank/prompt.py:51 | Two different top_k values never render to the same text. |
| Templates.StripAroundRoundTrip | src/rank_llm/rerank/prompt.py:66 | Removing a known head and tail from `head + q + tail` gives back `q`, whatever `q` holds. |
| Templates.CountThenQueryRoundTrip | src/rank_llm/rerank/prompt.py:42 | Any query and any integer top_k are read back from `head + str(top_k) + mid + query + tail` when `mid` starts with a non-digit. This holds even when the query contains digits or the markers. |
| Templates.QueryThenCountRoundTrip | src/rank_llm/rerank/prompt.py:97 | Any query and any integer top_k are read back from `head + query + mid + str(top_k) + tail` when `mid` ends in neither a digit nor '-'. |
| PromptProperties.RankGptOsPrefix | src/rank_llm/rerank/prompt.py:38-42 | With `is_os_llm` true, the RANK_GPT prefix is one string. It contains the query, top_k, and "<top_k> passages". An integer top_k and the query are read back from it exactly. |
| PromptProperties.RankGptChatPrefix | src/rank_llm/rerank/prompt.py:43-57 | Without `is_os_llm`, the prefix is three messages: system, user, assistant, in that order. The system and assistant contents are the fixed sentences. The user turn contains the query, top_k and "<top_k> passages", and both are read back from it. |
| PromptProperties.RankGptApeerPrefix | src/rank_llm/rerank/prompt.py:58-68 | RANK_GPT_APEER's prefix is two messages: the fixed system message, then a user turn. The user turn holds the query between "[querystart] " and " [queryend]", and the query is recovered exactly. |
| PromptProperties.RankGptOsSuffix | src/rank_llm/rerank/prompt.py:92-97 | The open-source RANK_GPT suffix contains the query, top_k and the closing words that forbid explanations. Its example, `Prompt.ExampleOrdering`, is "[2] > [1]" when `variable_passages` is true and "[4] > [2]" otherwise. |
| PromptProperties.RankGptOsSuffixReadBack | src/rank_llm/rerank/prompt.py:97 | The query and an integer top_k are read back exactly from the open-source RANK_GPT suffix, for either setting of `variable_passages`. |
| PromptProperties.RankGptChatSuffix | src/rank_llm/rerank/prompt.py:98-99 | The chat RANK_GPT suffix contains the query, top_k, the example "[1] > [2]" and the closing words, and the query and an integer top_k are read back from it. `variable_passages` does not change it. |
| PromptProperties.RankGptApeerSuffix | src/rank_llm/rerank/prompt.py:100-101 | The RANK_GPT_APEER suffix holds the query between the query markers, and the query is recovered exactly. It contains the "[rankstart] … [rankend]" output format. |
| PromptProperties.RankGptApeerIgnoresTopKAndFlags | src/rank_llm/rerank/prompt.py:58-68 | Both RANK_GPT_APEER templates depend only on the query. Changing top_k, extra arguments or flags gives the same result. |
| PromptProperties.OnlyFlagsMatter | src/rank_llm/rerank/prompt.py:40 | Two keyword maps that agree on `is_os_llm` and `variable_passages` give the same prefix and suffix for every mode. |
| PromptProperties.OmittedFlagsAreFalse | src/rank_llm/rerank/prompt.py:93-95 | Leaving both flags out gives the same result as passing them as `False`, the default of `kwargs.get` that `Prompt.Flag` models. |
| PromptProperties.VariablePassagesOnlyChangesOsExample | src/rank_llm/rerank/prompt.py:93-97 | `variable_passages` never changes the prefix of any mode. On the open-source RANK_GPT suffix, the two settings give texts that differ only in the example, "[2] > [1]" against "[4] > [2]", with the same text before and after it. |
| PromptProperties.ExtraArgumentsIgnored | src/rank_llm/rerank/prompt.py:31-35 | Positional arguments past the second change neither the prefix nor the suffix. |
| PromptProperties.UnsupportedModesFail | src/rank_llm/rerank/prompt.py:69-72 | The modes without templates are exactly UNSPECIFIED, LRL, MONOT5 and LiT5. For each of them both calls fail. The mode's value can be cut back out of each error message and maps back to that mode. |
| PromptProperties.SupportedOutputsNonEmpty | src/rank_llm/rerank/prompt.py:37-68 | For RANK_GPT and RANK_GPT_APEER with both arguments given, the prefix (text or message list) and the suffix are non-empty. |
| PromptProperties.CapitalQueryChatScenario | src/rank_llm/rerank/prompt.py:43-57 | For the query "What is the capital of the United States?" with top_k 4, the chat prefix has three messages. Its user turn contains "4 passages" and the query. The suffix contains "[1] > [2]" and the closing words. |
| PromptProperties.OsSuffixScenario | src/rank_llm/rerank/prompt.py:95-97 | For query "Q" and top_k 5, the open-source suffix shows "[2] > [1]" with `variable_passages` and "[4] > [2]" without it. |

## Left out

- Decimal.IntToString — renders every int. CPython raises `ValueError` when converting an int with more digits than `sys.get_int_max_str_digits()` (4300 by default), so `{top_k}` with such a top_k makes both RANK_GPT prefixes and suffixes raise, while the model returns `Ok`. The RANK_GPT_APEER templates do not interpolate top_k and succeed in both.
- Prompt.FromName: an unknown value yields `None`, where `Prompt(s)` raises `ValueError` ("'s' is not a valid Prompt").
- Positional arguments are modelled as strings or integers. The source accepts any object and interpolates its `str`, so other types, their `str`, and `bool` top_k values (rendered `True`/`False`) are not modelled.
- Keyword arguments are modelled as a map from names to booleans. The source tests the truthiness of whatever value is passed, so non-boolean flag values are not modelled.
- A top_k that is not an integer is embedded verbatim, so the read-back lemmas apply only to integer top_k. The source never checks that top_k matches the number of passages, and neither does the model.
- `PromptProperties.RankGptOsSuffixReadBack` and `PromptProperties.RankGptChatSuffix` read top_k back only when it is an int. The containment facts hold for every value.
- The long fixed sentences of each template are fields of the `Wording` record, and `SourceWording` holds them exactly. Every property is proved for an arbitrary wording. The statements about fixed text name only the short fragments that give a template its structure, such as the query markers, the examples and the closing words.
- `Prompt.Prefix` and `Prompt.Suffix` have no contract of their own. They are `PrefixWith` and `SuffixWith` at `SourceWording`, so every lemma above applies to them.
- Python's dict message format (`{"role": ..., "content": ...}`) is modelled as a `Message` datatype. `RoleName` gives the role strings.
- The retrieval pipeline, the LLM calls that consume these prompts, the tests and the demo scripts are not part of this model.
