# vLLM Judge core, modelled in Dafny

vLLM Judge is an LLM-as-a-judge service: it turns a text (or two texts) and
evaluation criteria into chat messages for a judge model served by vLLM and
turns the judge's free-text reply into a structured judgment. This project
models its four core pieces:

- **the output parser** (`vllm_judge/services/output_parser.py`), in
  `output_parser.dfy` with the fixed regular expressions in `regex.dfy`. It
  separates the reasoning section from the judgment and detects JSON replies.
  It dispatches on the template's parser rules (binary, numeric, preference,
  json, regex and text). Without rules it falls back to the heuristics: the
  binary term lists, the first integer, and the A/B/EQUAL mention counts.
- **the prompt manager** (`vllm_judge/services/prompt_manager.py`), in
  `prompt_manager.dfy`. The class `PromptService.PromptManager` holds the
  template registry, which starts from the three default templates. Its
  methods are get, create, update, delete and list. Its two prompt
  generators resolve a template, write the custom segments into the stored
  template, and fill the prefix and suffix with `str.format`.
- **the template helpers** (`vllm_judge/templates/prompt_utils.py`), in
  `prompt_utils.dfy`: `format_prompt`, model-family detection,
  model-specific template adaptation, and the per-task output-format and
  chain-of-thought tables.
- **the client** (`vllm_judge/client.py`), in `client.dfy`:
  - the configuration checks of its constructor and the base-URL
    normalisation;
  - the clean-up of the judge's output and the reasoning extraction;
  - the generic prompts used when no template is named;
  - how direct mode composes the prompt manager and the parser;
  - the mode guards of `get_status` and `_wait_for_result`, and their
    polling verdict.

The supporting modules:

- `pystr.dfy` models the Python string operations the code relies on:
  `lower`, `strip`, `split`, `join`, `in`, `startswith`, `removeprefix`
  and `int()`.
- `formatting.dfy` models `str.format` with named fields.
- `json.dfy` holds the JSON value type: judgments, templates and parser
  rules are all JSON values. Python truthiness is `Json.Truthy`.
- `errors.dfy` lists the exceptions the code can raise, as values of
  `Errors.Error`.
- `wrappers.dfy` holds `Option` and `Result`.
- `tie_example.dfy` works the pairwise heuristic through one documented
  reply, stretch by stretch.

Every operation that can raise returns an `Outcome`, so each error path is
part of the contract.

`json.loads` and caller-supplied regular expressions are parameters.
`OutputParser.Engines` carries a `loads` function and a `search` function.
The built-in patterns are defined in `regex.dfy`: `\b([1-5])\b`, the A/B
preference pattern, `\b(\d+)\b` and the word-alternation patterns.

Where the code and its documentation disagree, the model follows the code:

- Custom segments passed to the prompt generators are written into the
  stored template, so they persist into later calls.
  `PromptService.SingleOverridesPersist` states this.
- A template whose prefix names an unknown field raises `KeyError` from
  `str.format`, not `PromptTemplateError`.
- The two default pairwise instructions differ by one character: the prompt
  manager's reads "Respond with ONLY: 'A' …" and the helper table's reads
  "Respond with ONLY 'A' …".
- `generate_single_evaluation_prompt` reads the custom segments as an
  object with attributes, but the client passes it a dictionary. A
  non-empty dictionary together with a named template therefore raises
  `AttributeError`. `PromptService.SegmentsArg` tells the two shapes apart.
- The reply "Text A is good but Text B is also good, I think it's a tie" is
  documented as a tie, but the mention counts are two for A ("text a" and
  the "a" of "a tie"), one for B and one for the equality words, so the
  verdict is A (output_parser.py:163-166). `TieExample.TieReplyPrefersA`
  proves it.
- The `Reasoning:` marker is documented as starting a line, but
  `re.search` finds it anywhere in the reply (output_parser.py:33).
  `OutputParser.FirstMarker` takes the first occurrence wherever it is.
- The binary term lists are matched as substrings, so "unsafe" contains
  the positive term "safe" and reads as True.
  `OutputParser.UnsafeReadsAsPositive` proves it.

## Model

| member | source | states |
|---|---|---|
| OutputParser.FirstMarker | vllm_judge/services/output_parser.py:33-34 | the match of `Reasoning:(.+?)$` is the first occurrence of the marker with at least one character after it; no earlier occurrence exists, and with no result no position matches |
| OutputParser.ReasoningGroup | vllm_judge/services/output_parser.py:35 | the captured group, stripped, is everything after the marker, stripped |
| OutputParser.IsolateReasoning | vllm_judge/services/output_parser.py:27-43 | without reasoning the raw output is the judgment text; with a marker the judgment is the stripped text before it and the reasoning the stripped text after it; otherwise the newline split applies |
| OutputParser.SplitFallback | vllm_judge/services/output_parser.py:39-43 | with a newline, the stripped first line is the judgment text and the stripped rest is the reasoning; without one the output is kept and there is no reasoning |
| OutputParser.ReasoningAfterJudgment | vllm_judge/services/output_parser.py:31-37 | a judgment without `R` followed by the marker and a non-empty explanation splits back into the stripped judgment and the stripped explanation |
| OutputParser.MarkerLeavesJudgmentText | vllm_judge/services/output_parser.py:33-37 | once the marker is found, the judgment text no longer contains it |
| OutputParser.DetectJson | vllm_judge/services/output_parser.py:48-58 | a JSON judgment is only taken from stripped text that starts with `{` and ends with `}`, and it is what `json.loads` returns for that text |
| OutputParser.KindOf | vllm_judge/services/output_parser.py:184 | a missing `type` means the text rule; any other rule kind comes from a string `type` |
| OutputParser.ScanItems | vllm_judge/services/output_parser.py:193-199 | true exactly when some pattern's lower-case form occurs in the lower-cased text; false exactly when every item is a string and none occurs; a list of strings never raises |
| OutputParser.ScanPatterns | vllm_judge/services/output_parser.py:188-199 | iteration follows Python: a string pattern value is scanned character by character and a dictionary by its keys; a value that cannot be iterated raises |
| OutputParser.BinaryRule | vllm_judge/services/output_parser.py:186-202 | True exactly when a positive pattern (defaults `yes`, `true`, `positive`) occurs in the lowered text; False exactly when no positive pattern occurs and a negative one does; None exactly when neither occurs; it raises exactly when a pattern list raises before a decision |
| OutputParser.BinaryRuleOnStringLists | vllm_judge/services/output_parser.py:186-202 | with pattern lists of strings the rule never raises: True when a positive pattern occurs, else False when a negative one does, else None |
| OutputParser.NumericRule | vllm_judge/services/output_parser.py:204-215 | a pattern that is not a string raises; no match gives None; a pattern that does not compile raises; a first group that `int()` reads gives that number, one it refuses gives None; the result is always None or a whole number |
| OutputParser.PreferenceRule | vllm_judge/services/output_parser.py:217-230 | a pattern that is not a string raises; a match's first group is returned upper-cased; without a match the result is EQUAL exactly when an equality word occurs, else None; a string result has no lower-case letter |
| OutputParser.RegexRule | vllm_judge/services/output_parser.py:239-251 | a pattern that is not a string raises; no match gives None; a match gives its first group (None when the group did not take part), or the whole match when the pattern has no group |
| OutputParser.ApplyRules | vllm_judge/services/output_parser.py:182-255 | rules that are not a dictionary raise; the text rule returns the stripped text; the json rule returns `json.loads` or None; only the binary, numeric, preference and regex rules can raise |
| OutputParser.FirstContained | vllm_judge/services/output_parser.py:266-272 | the index of the first listed term contained in the text, or none if no term is contained |
| OutputParser.GenericBinary | vllm_judge/services/output_parser.py:257-274 | True exactly when a positive term occurs in the lower-cased stripped text; False exactly when no positive term occurs and a negative one does |
| OutputParser.GenericJudgment | vllm_judge/services/output_parser.py:64-79 | the fallback cascade: a binary judgment whenever the term lists decide; otherwise the first integer when there is one; otherwise the stripped text, which then holds no integer |
| OutputParser.ParseSingle | vllm_judge/services/output_parser.py:8-84 | the reasoning returned is the isolated one; falsy rules never fail and, without JSON, give the fallback cascade; a failure comes only from a rule kind that can raise |
| OutputParser.SingleJsonReply | vllm_judge/services/output_parser.py:48-58 | a judgment text that is JSON gives the loaded value as the judgment, whatever the rules |
| OutputParser.SingleRuleCascade | vllm_judge/services/output_parser.py:60-84 | otherwise a rule result other than None is the judgment and a rule error passes through; a None result falls back to the cascade, so off JSON the judgment is never None |
| OutputParser.FirstPresent | vllm_judge/services/output_parser.py:130-138 | the first of the listed keys present in the object |
| OutputParser.JsonPreference | vllm_judge/services/output_parser.py:126-146 | from a JSON object the first of `preference`, `preferred_text`, `better` that it has is the judgment, and with none of them the whole object; only a JSON value that is not an object can fail |
| OutputParser.Verdict | vllm_judge/services/output_parser.py:163-175 | EQUAL exactly when equality words are at least as many as the A and B mentions (and some occur), or the counts tie and neither letter occurs; A exactly when not EQUAL and A has more mentions, or the counts tie and the letter a occurs; B exactly when not EQUAL and B has more mentions, or the counts tie and only b occurs |
| OutputParser.PairwiseHeuristic | vllm_judge/services/output_parser.py:152-175 | the heuristic always returns A, B or EQUAL |
| OutputParser.HeuristicCountsLetterWords | vllm_judge/services/output_parser.py:155-161 | the counts of the A, B and equality alternations are the whole-word counts of `a`, `b` and the equality words, so the verdict depends only on those |
| OutputParser.HeuristicWithoutLetters | vllm_judge/services/output_parser.py:163-175 | a judgment text without the letters a or b is judged EQUAL |
| OutputParser.ParsePairwise | vllm_judge/services/output_parser.py:86-180 | the reasoning returned is the isolated one; with falsy rules and no JSON the judgment is A, B or EQUAL; a failure is a JSON value that is not an object, or comes from a failing rule |
| OutputParser.PairwiseJsonReply | vllm_judge/services/output_parser.py:124-146 | a pairwise reply whose judgment text is JSON yields the preference read from it, or the error reading it raises, whatever the rules |
| OutputParser.PairwiseRuleCascade | vllm_judge/services/output_parser.py:148-180 | otherwise a rule result other than None is the judgment and a rule error passes through; a None result or falsy rules give the mention-count verdict |
| OutputParser.PairwiseJsonPreference | vllm_judge/services/output_parser.py:126-131 | a JSON object with a `preference` entry yields that entry, whatever the rules |
| OutputParser.MoreAMentionsPreferA | vllm_judge/services/output_parser.py:152-175 | a reply that is not JSON, with more standalone A mentions than B mentions and fewer equality words than A mentions, is read as A without rules |
| OutputParser.JsonIgnoresRules | vllm_judge/services/output_parser.py:48-62 | once the judgment text is valid JSON, the parser rules make no difference; single parsing then always succeeds |
| OutputParser.FalsyRulesIgnored | vllm_judge/services/output_parser.py:60-62 | falsy parser rules (an empty dictionary, for example) act as no rules at all |
| OutputParser.TextRuleSkipsHeuristics | vllm_judge/services/output_parser.py:253-255 | non-empty rules of the text kind return the stripped judgment text in both parsers, bypassing the heuristics |
| OutputParser.DefaultBinaryRule | vllm_judge/services/output_parser.py:186-202 | with the default pattern lists the binary rule is True on yes/true/positive, else False on no/false/negative, else None |
| OutputParser.DefaultNumericRule | vllm_judge/services/output_parser.py:204-215 | with the default pattern the numeric rule returns the first standalone digit 1 to 5, or None |
| OutputParser.DefaultPreferenceRule | vllm_judge/services/output_parser.py:217-230 | with the default pattern the preference rule returns the first A/B letter of the text, upper-cased; without one, EQUAL if an equality word occurs, else None |
| OutputParser.YesAnswerIsTrue | vllm_judge/services/output_parser.py:64-70 | without rules or reasoning, every reply that starts with "yes" in any case and ends in a letter parses to True |
| OutputParser.ExampleYes | vllm_judge/services/output_parser.py:64-70 | "Yes, this is correct" parses to True with no reasoning |
| OutputParser.YesAnswerUnderYesNoRule | vllm_judge/services/output_parser.py:186-202 | under the binary rule with patterns `yes` and `no`, every reply that opens with "yes" in any case and ends in a letter parses to True |
| OutputParser.ExampleYesRule | vllm_judge/services/output_parser.py:186-202 | "Yes, this is correct" parses to True under the `yes`/`no` binary rule |
| OutputParser.UnsafeReadsAsPositive | vllm_judge/services/output_parser.py:257-274 | "unsafe" is read as True, because the positive term "safe" is a substring of it |
| TieExample.ReplyCounts | vllm_judge/services/output_parser.py:155-161 | the lowered reply "Text A is good but Text B is also good, I think it's a tie" has two standalone a mentions, one b mention and one equality word |
| TieExample.TieReplyPrefersA | vllm_judge/services/output_parser.py:152-175 | that reply, parsed as a pairwise comparison without rules or reasoning, gives A |
| Regex.FindFirst | vllm_judge/services/output_parser.py:207 | the first position in a range that satisfies a predicate, or none if no position does |
| Regex.FirstInteger | vllm_judge/services/output_parser.py:276-288 | none exactly when `\b(\d+)\b` does not match; otherwise the value of the first matching digit run |
| Regex.FirstRating | vllm_judge/services/output_parser.py:206-207 | the first position where `\b([1-5])\b` matches, or none when it matches nowhere |
| Regex.PreferenceLetterAt | vllm_judge/services/output_parser.py:219-220 | a match of the preference pattern starting at a position captures the first a/A/b/B from there on |
| Regex.PreferenceSearchFindsFirstLetter | vllm_judge/services/output_parser.py:219-223 | the default preference pattern, ignoring case, fails exactly when the text has no a/b, and otherwise captures its first a/b letter |
| Regex.AltMatchAt | vllm_judge/services/output_parser.py:155-157 | a word-bounded alternation at a position matches the first alternative that is a whole word there |
| Regex.LetterCountIsWordCount | vllm_judge/services/output_parser.py:155-160 | the `findall` count of the A (B) alternation equals the count of the word `a` (`b`) |
| Regex.CountWordRuns | vllm_judge/services/output_parser.py:155-161 | in lower-case text cut into alternating runs of word and other characters, the number of places where a word stands alone is the number of runs equal to it |
| Regex.CountMatchesRuns | vllm_judge/services/output_parser.py:155-161 | on the same cut, the `findall` count of an alternation of words is the number of runs equal to one of them |
| PyStr.ParseInt | vllm_judge/services/output_parser.py:210-213 | `int()` succeeds exactly on stripped text of digit groups with an optional sign; its value is the digits' value, negated after a minus sign |
| PyStr.ParseIntOfNatToString | vllm_judge/services/output_parser.py:211 | `int(str(n)) == n` |
| PyStr.ParseIntOfNegated | vllm_judge/services/output_parser.py:211 | `int("-" + str(n)) == -n` |
| PyStr.JoinSplit | vllm_judge/client.py:121-123 | `"\n".join(s.split("\n")) == s` |
| Formatting.FillLiteral | vllm_judge/services/prompt_manager.py:247-250 | a template without braces formats to itself |
| Formatting.FillField | vllm_judge/templates/prompt_utils.py:65 | a named field is replaced by its value, and a missing variable raises KeyError |
| Formatting.FillFieldThen | vllm_judge/services/prompt_manager.py:329-334 | literal text, a field and the rest format to the text, the value, then the formatted rest |
| Formatting.FillSuccessIgnoresValues | vllm_judge/templates/prompt_utils.py:65-76 | whether formatting fails depends only on which variables exist, never on their values, and a failure is the same error |
| PromptService.DefaultTemplates | vllm_judge/services/prompt_manager.py:40-94 | the defaults are exactly binary_classification, likert_scale and pairwise_comparison |
| PromptService.DefaultEntriesCarryIds | vllm_judge/services/prompt_manager.py:40-94 | each default entry carries its own id as `template_id` and a dictionary prompt structure |
| PromptService.BinaryStructure | vllm_judge/services/prompt_manager.py:45-60 | the default binary template's prompt structure is its system message, the single prefix and the format suffix |
| PromptService.PairwiseStructure | vllm_judge/services/prompt_manager.py:78-92 | the default pairwise template's prompt structure is its system message, the pairwise prefix and the format suffix |
| PromptService.Instruction | vllm_judge/services/prompt_manager.py:214-224 | the output-format instruction begins with the caller's non-empty instruction, else the default. It ends with the reasoning request when asked, and has no other text |
| PromptService.ResolveTemplate | vllm_judge/services/prompt_manager.py:226-235 | a named template is used if registered, else PromptTemplateError "Template not found: id"; without a name the default is used |
| PromptService.SingleOverrides | vllm_judge/services/prompt_manager.py:237-244 | only non-empty segment values are written; a non-empty dictionary raises AttributeError |
| PromptService.PairwiseOverrides | vllm_judge/services/prompt_manager.py:319-326 | a dictionary contributes its non-empty segment entries; a segments object raises AttributeError |
| PromptService.MakePlan | vllm_judge/services/prompt_manager.py:226-244 | the planned structure is the resolved template's structure with every override written over it and the other fields kept |
| PromptService.StoreAfter | vllm_judge/services/prompt_manager.py:237-244 | writing the overrides changes only the resolved template and never adds or removes an id |
| PromptService.RenderSingle | vllm_judge/services/prompt_manager.py:246-269 | two messages, system then user; the system content is the structure's system message and the user content is the filled prefix, the text, then the filled suffix |
| PromptService.RenderPairwise | vllm_judge/services/prompt_manager.py:328-353 | two messages, system then user; the user content is the filled prefix and the filled suffix |
| PromptService.FormatSingle | vllm_judge/services/prompt_manager.py:246-269 | the step-by-step construction of the user content equals RenderSingle |
| PromptService.FormatPairwise | vllm_judge/services/prompt_manager.py:328-353 | the step-by-step construction equals RenderPairwise |
| PromptService.PlanFields | vllm_judge/services/prompt_manager.py:237-244 | the structure formatted is the planned one, and plan errors pass through |
| PromptService.NewEntry | vllm_judge/services/prompt_manager.py:128-131 | the new entry is the data with a `template_id`; an id inside the data overrides the generated one |
| PromptService.Without | vllm_judge/services/prompt_manager.py:177 | deleting drops exactly that id from the listing order and keeps it free of duplicates |
| PromptService.OverlayAll | vllm_judge/services/prompt_manager.py:238-244 | the three separate segment writes amount to one overlay of all overrides |
| PromptService.CommitTwice | vllm_judge/services/prompt_manager.py:237-244 | writing a template's structure twice leaves the second write |
| PromptService.PromptManager.constructor | vllm_judge/services/prompt_manager.py:14-26 | a new manager holds the default templates, in their listing order |
| PromptService.PromptManager.GetTemplate | vllm_judge/services/prompt_manager.py:96-112 | returns the stored template exactly when the id is registered, else TemplateNotFoundError for that id |
| PromptService.PromptManager.CreateTemplate | vllm_judge/services/prompt_manager.py:114-136 | adds the new entry under the fresh id, appends it to the listing order and changes nothing else |
| PromptService.PromptManager.UpdateTemplate | vllm_judge/services/prompt_manager.py:138-161 | an unknown id raises TemplateNotFoundError and changes nothing; otherwise the stored template is shallow-updated with the data and returned |
| PromptService.PromptManager.DeleteTemplate | vllm_judge/services/prompt_manager.py:163-180 | an unknown id raises TemplateNotFoundError and changes nothing; otherwise exactly that id is removed |
| PromptService.PromptManager.ListTemplates | vllm_judge/services/prompt_manager.py:182-189 | lists every stored template once, in insertion order |
| PromptService.PromptManager.GenerateSingle | vllm_judge/services/prompt_manager.py:191-269 | returns the composed single-evaluation messages and leaves the registry with the overrides written into the resolved template |
| PromptService.PromptManager.GeneratePairwise | vllm_judge/services/prompt_manager.py:271-353 | the same for the pairwise comparison prompt |
| PromptService.PromptManager.Resolve | vllm_judge/services/prompt_manager.py:226-235 | the try/except resolution equals ResolveTemplate |
| PromptService.PromptManager.WriteSegment | vllm_judge/services/prompt_manager.py:239-240 | one segment assignment writes through to the stored template |
| PromptService.PromptManager.WriteOverrides | vllm_judge/services/prompt_manager.py:238-244 | the three assignments leave the stored structure overlaid with all overrides |
| PromptService.PromptManager.ApplyOverrides | vllm_judge/services/prompt_manager.py:226-244 | resolution plus overrides leave the registry as StoreAfter says and yield the planned structure |
| PromptService.DefaultSuffixFill | vllm_judge/services/prompt_manager.py:252-255 | the default suffix formats to a blank line then the instruction |
| PromptService.DefaultSinglePrefixFill | vllm_judge/services/prompt_manager.py:247-250 | the default single prefix formats to its heading, the criteria, then "Content to evaluate:" |
| PromptService.DefaultPairwisePrefixFill | vllm_judge/services/prompt_manager.py:329-334 | the default pairwise prefix formats to its heading, the criteria, Text A then Text B |
| PromptService.StoredPlan | vllm_judge/services/prompt_manager.py:226-244 | without a template id or overrides, the fallback template's stored structure is planned unchanged |
| PromptService.DefaultSinglePlan | vllm_judge/services/prompt_manager.py:233-235 | without a template id or segments the binary classification template is used unchanged |
| PromptService.DefaultPairwisePlan | vllm_judge/services/prompt_manager.py:315-317 | without a template id or segments the pairwise comparison template is used unchanged |
| PromptService.DefaultSinglePrompt | vllm_judge/services/prompt_manager.py:191-269 | the exact messages of a default single-evaluation prompt: the binary system message and heading, the criteria, the text, a blank line and the instruction |
| PromptService.DefaultPairwisePrompt | vllm_judge/services/prompt_manager.py:271-353 | the exact messages of a default pairwise prompt |
| PromptService.TextSplicedRaw | vllm_judge/services/prompt_manager.py:247-250 | the text to evaluate is spliced in verbatim: two texts give the same system message and user messages that differ only in the text |
| PromptService.SingleCriteriaCannotFail | vllm_judge/services/prompt_manager.py:247-255 | the criteria's content never decides whether composing succeeds |
| PromptService.PairwiseValuesCannotFail | vllm_judge/services/prompt_manager.py:329-339 | the texts and criteria's content never decide whether composing succeeds |
| PromptService.PlanPersists | vllm_judge/services/prompt_manager.py:238-244 | after the overrides are stored, resolving again without overrides gives the same plan |
| PromptService.SingleOverridesPersist | vllm_judge/services/prompt_manager.py:238-244 | a later call without segments produces the same single prompt as the call that supplied them |
| PromptService.PairwiseOverridesPersist | vllm_judge/services/prompt_manager.py:320-326 | the same for pairwise prompts |
| PromptUtils.OverrideSegments | vllm_judge/templates/prompt_utils.py:53-59 | the override loop replaces exactly the keys the structure has and drops the others |
| PromptUtils.Lookup | vllm_judge/templates/prompt_utils.py:62 | the dictionary entry, or KeyError for the missing key |
| PromptUtils.CopiedStructure | vllm_judge/templates/prompt_utils.py:53 | only a dictionary prompt structure survives; a missing one raises KeyError |
| PromptUtils.FilledSuffix | vllm_judge/templates/prompt_utils.py:75-76 | a structure without a suffix contributes nothing |
| PromptUtils.FormatPrompt | vllm_judge/templates/prompt_utils.py:37-90 | the imperative construction equals FormatPromptResult |
| PromptUtils.ExtraSegmentsIgnored | vllm_judge/templates/prompt_utils.py:56-59 | custom segments for keys the structure lacks change nothing |
| PromptUtils.CustomSystemMessageSent | vllm_judge/templates/prompt_utils.py:56-62 | a custom system message for a structure that has one is the one sent |
| PromptUtils.VariableValuesCannotFail | vllm_judge/templates/prompt_utils.py:65-76 | whether formatting fails depends only on which variables are present |
| PromptUtils.UserContentLayout | vllm_judge/templates/prompt_utils.py:64-76 | the user content is the filled prefix, `text_to_evaluate` verbatim if present, then the filled suffix |
| PromptUtils.ModelFamily | vllm_judge/templates/prompt_utils.py:137-171 | an id containing "llama" in any case is llama; an id naming no family gives the lower-cased organisation before the first `/`, else "unknown" |
| PromptUtils.FirstListed | vllm_judge/templates/prompt_utils.py:150-163 | the family of the first keyword entry contained in the id; none exactly when no keyword is contained |
| PromptUtils.ModelFamilyFollowsTable | vllm_judge/templates/prompt_utils.py:148-171 | the if-chain is the keyword table read in order, and the first hit wins; the fallback applies exactly when no keyword is contained |
| PromptUtils.ModelFamilyIgnoresCase | vllm_judge/templates/prompt_utils.py:148 | ids equal up to case get the same family |
| PromptUtils.ModelFamilyIsLowerCase | vllm_judge/templates/prompt_utils.py:148-171 | the family returned is always lower-case |
| PromptUtils.AdaptedStep | vllm_judge/templates/prompt_utils.py:123-129 | one pass of the merge loop applies one more adaptation entry |
| PromptUtils.MergeAdaptation | vllm_judge/templates/prompt_utils.py:120-129 | the merge loop yields the template adapted by every entry |
| PromptUtils.ModelSpecificTemplate | vllm_judge/templates/prompt_utils.py:93-134 | a template without adaptations, or whose adaptations do not name the model's family, is returned as is; an adaptation object for the family gives the template adapted by it; adaptation never loses a key |
| PromptUtils.GetModelSpecificTemplate | vllm_judge/templates/prompt_utils.py:93-134 | the imperative procedure equals ModelSpecificTemplate, with Python's errors on adaptations of the wrong type |
| PromptUtils.AdaptedKeepsUnmentioned | vllm_judge/templates/prompt_utils.py:120-129 | the adapted keys are the template's plus the adaptation's, and unmentioned keys keep their values |
| PromptUtils.AdaptedMergesDictionaries | vllm_judge/templates/prompt_utils.py:123-129 | dictionaries on both sides are merged with the adaptation winning; any other value is replaced |
| PromptUtils.AdaptedIdempotent | vllm_judge/templates/prompt_utils.py:120-131 | applying an adaptation twice equals applying it once |
| PromptUtils.DefaultOutputFormatInstruction | vllm_judge/templates/prompt_utils.py:174-201 | the generic instruction is returned exactly for a task type outside the eight known ones |
| PromptUtils.Cot | vllm_judge/templates/prompt_utils.py:214-231 | each prompt is the fixed opening, the task guidance, and the fixed closing |
| PromptUtils.ChainOfThoughtPrompt | vllm_judge/templates/prompt_utils.py:204-231 | every prompt opens with "Think step by step" and ends with "After your analysis, "; unknown task types get the generic prompt |
| JudgeClient.CleanOutput | vllm_judge/client.py:117-118 | the cleaned output is a piece of the original, unchanged when neither end has a fence |
| JudgeClient.CleanOutputJsonFence | vllm_judge/client.py:117-118 | a reply wrapped in a JSON code fence comes back bare |
| JudgeClient.CleanOutputBareFence | vllm_judge/client.py:117-118 | a reply in a bare fence comes back bare unless it starts with "json" |
| JudgeClient.FirstLine | vllm_judge/client.py:220 | the text before the first newline, with no newline in it |
| JudgeClient.ExtractReasoning | vllm_judge/client.py:120-124 | a one-line reply has no reasoning; otherwise the stripped text after the first newline, without a leading "Reasoning:", stripped again |
| JudgeClient.LabelledLine | vllm_judge/client.py:123 | stripping "tag why" and removing the tag yields the stripped explanation |
| JudgeClient.ReasoningReplyRoundTrip | vllm_judge/client.py:120-124 | a judgment line followed by "Reasoning: why" splits back into the judgment and the explanation |
| JudgeClient.NormalizedBaseUrl | vllm_judge/client.py:57-59 | the url without trailing slashes, followed by /v1 unless it already ends with /v1 |
| JudgeClient.NormalizedBaseUrlIdempotent | vllm_judge/client.py:57-59 | normalising twice equals normalising once |
| JudgeClient.NewClient | vllm_judge/client.py:17-59 | ValueError exactly when direct mode lacks a vLLM API base or server mode lacks a base URL; direct mode gets a fresh manager with the default templates, and server mode keeps the normalised URL |
| JudgeClient.Client.constructor | vllm_judge/client.py:37-38 | the client records its mode and timeout |
| JudgeClient.Client.GetStatus | vllm_judge/client.py:517-531 | refused with ValueError exactly in direct mode; otherwise the adapter's reply |
| JudgeClient.Client.WaitForResult | vllm_judge/client.py:660-690 | refused in direct mode; otherwise the polling loop gives the verdict of Settled |
| JudgeClient.Settled | vllm_judge/client.py:678-690 | the first poll that settles decides: a missing status raises KeyError, COMPLETED returns that poll, FAILED raises the client error; a timeout happens exactly when every poll has another status |
| JudgeClient.GenericSinglePrompt | vllm_judge/client.py:158-186 | the user message grown step by step equals GenericSingleMessages; fails exactly for a segments object |
| JudgeClient.GenericPairwisePrompt | vllm_judge/client.py:383-411 | the same for the generic comparison prompt |
| JudgeClient.GenericSystemChoice | vllm_judge/client.py:161-165 | the custom system message is used exactly when a dictionary supplies a non-empty one |
| JudgeClient.GenericSingleLayout | vllm_judge/client.py:168-177 | the criteria and text sit at fixed places; the message ends with the format instruction if given, else with the reasoning request if asked, else with the text |
| JudgeClient.GenericPairwiseLayout | vllm_judge/client.py:393-402 | criteria, Text A and Text B sit at fixed places, in that order, with the same endings |
| JudgeClient.RequestsEnd | vllm_judge/client.py:170-177 | appending the requests keeps the body and gives the stated endings |
| JudgeClient.ParserRules | vllm_judge/client.py:151-157 | a registered named template gives its `output_parser_rules` entry, if any; anything else gives no rules |
| JudgeClient.FetchRules | vllm_judge/client.py:151-157 | the try/except lookup equals ParserRules |
| JudgeClient.Evaluated | vllm_judge/client.py:201-232 | truthy rules give the judgment and reasoning of the single or pairwise parse, and a parse error passes through; without rules and with reasoning asked the judgment is the stripped first line and the reasoning the rest; without either the judgment is the reply; every response is a completed "direct-mode" evaluation carrying the cleaned reply |
| JudgeClient.Interpret | vllm_judge/client.py:201-222 | the branching on rules and reasoning equals Evaluated |
| JudgeClient.GenericReasoningReply | vllm_judge/client.py:213-221 | without rules, a reply "judgment\nReasoning: why" gives that judgment and that reasoning |
| JudgeClient.Client.EvaluateTextDirect | vllm_judge/client.py:127-232 | a named template goes through the prompt manager, with its registry effect; otherwise the generic prompt is built and the registry is untouched; the result interprets the cleaned completion with the template's rules |
| JudgeClient.Client.CompareTextsDirect | vllm_judge/client.py:350-457 | the same for pairwise comparison |

## Left out

- Template files: loading and saving them (`_load_templates`, `_save_templates`, `load_templates`, `save_templates`) is file I/O. The registry starts from the defaults, as when no file exists.
- The network: `SyncVLLMClient.generate_completion` and every HTTP call of the client. The completion text and the adapter's replies are parameters.
- The server-mode methods of the client: `_evaluate_text_server`, `_compare_texts_server`, `get_result`, `list_templates`, `create_template` and `delete_template` over HTTP. They only forward to the adapter; their mode guards are modelled where the core names them.
- The public `evaluate_text` and `compare_texts` of the client: they only dispatch on the mode to the direct and server methods.
- `uuid.uuid4()` in `create_template`: the fresh id is a parameter.
- The sampling parameters and `judge_model_id`: they are only forwarded to vLLM.
- The `template_id` argument of the parser: it is unused by the code.
- `json.loads` and caller-supplied regular expressions are oracle functions. Only the fixed built-in patterns are defined.
- Case mapping, whitespace and `\b`/`\d`: `lower`/`upper`, `\b` and `\d` are ASCII only; `strip` uses Python's whitespace set.
- Floating point: JSON numbers are reals.
- `str.format` handles named fields and `{{`/`}}` escapes. Positional fields, attribute access, indexing and format specifications are errors.
- Error detail strings of Python's built-in exceptions are representative, not verbatim.
- JudgeClient.Settled: the `VLLMJudgeError` message omits the adapter's `error_message`.
- JudgeClient.Client.WaitForResult: the wall clock, `time.sleep` and the elapsed-time loop are replaced by the list of poll replies that fit in the timeout. The timeout reported is the client's.
- PromptUtils.ChainOfThoughtPrompt: states the common opening and closing and the unknown-task case, not which guidance each known task gets.
- Aliasing of template dictionaries: `create_template` (prompt_manager.py:124-136) and `update_template` (prompt_manager.py:152-161) store the caller's nested dictionaries, such as `prompt_structure`, by reference, and `get_template` and `list_templates` hand out the stored dictionaries themselves. A caller's later change to those dictionaries reaches the registry, and custom segments written into a stored template (prompt_manager.py:238-244) show through the caller's copy. The model's templates are values, so neither effect is captured.
- PyStr.IsDigit: Python's `\d` and `int()` accept every Unicode decimal digit; the model accepts only ASCII `0`-`9`.
