/** The template helpers of vllm_judge/templates/prompt_utils.py: filling a
    template with a dictionary of variables, adapting a template to a model
    family, and the fixed per-task instruction tables. */
module PromptUtils {
  import opened Wrappers
  import opened Errors
  import opened Json
  import opened Formatting
  import opened PyStr
  import PromptService

  type Template = map<string, Json>

  // ---------------------------------------------------------------------
  // format_prompt

  /** The copied `prompt_structure` after the custom segments: a segment
      replaces the entry of the same key, and segments whose key the
      structure lacks are dropped. */
  function Overridden(ps: map<string, Json>, custom: map<string, string>): map<string, Json> {
    map k | k in ps :: if k in custom then JString(custom[k]) else ps[k]
  }

  /** The `for key, value in custom_segments.items()` loop over a copy of the
      structure. */
  method OverrideSegments(ps: map<string, Json>, custom: map<string, string>) returns (r: map<string, Json>)
    ensures r == Overridden(ps, custom)
  {
    r := ps;
    var pending := custom.Keys;
    assert Overridden(ps, custom - pending) == ps;
    while pending != {}
      invariant pending <= custom.Keys
      invariant r == Overridden(ps, custom - pending)
      decreases |pending|
    {
      var key :| key in pending;
      ghost var before := custom - pending;
      ghost var after := custom - (pending - {key});
      assert after == before[key := custom[key]];
      if key in r {
        r := r[key := JString(custom[key])];
      } else {
        assert Overridden(ps, after) == Overridden(ps, before);
      }
      pending := pending - {key};
    }
    assert custom - pending == custom;
  }

  /** `prompt_structure["system_message"]`. */
  function Lookup(fields: map<string, Json>, key: string): (r: Outcome<Json>)
    ensures r.Success? <==> key in fields
    ensures r.Success? ==> r.value == fields[key]
    ensures r.Failure? ==> r.error == KeyError(key)
  {
    if key in fields then Success(fields[key]) else Failure(KeyError(key))
  }

  /** The structure `format_prompt` works on: `template["prompt_structure"]`
      copied, which only a dictionary survives (a list's `copy` succeeds but
      the later string-keyed access raises `TypeError`; the other JSON values
      have no `copy`). */
  function CopiedStructure(template: Template): (r: Outcome<map<string, Json>>)
    ensures "prompt_structure" !in template ==> r == Failure(KeyError("prompt_structure"))
    ensures r.Success? <==> "prompt_structure" in template && template["prompt_structure"].JObject?
    ensures r.Success? ==> r.value == template["prompt_structure"].fields
  {
    if "prompt_structure" !in template then Failure(KeyError("prompt_structure"))
    else match template["prompt_structure"]
      case JObject(fields) => Success(fields)
      case JArray(_) => Failure(TypeError("list indices must be integers or slices, not str"))
      case _ => Failure(AttributeError("object has no attribute 'copy'"))
  }

  /** The filled suffix, formatted with all the variables, or nothing when
      the structure has none. */
  function FilledSuffix(fields: map<string, Json>, variables: map<string, string>): (r: Outcome<string>)
    ensures "user_instruction_suffix" !in fields ==> r == Success("")
  {
    if "user_instruction_suffix" in fields then
      var sfx :- PromptService.StringField(fields, "user_instruction_suffix");
      Fill(sfx, variables)
    else Success("")
  }

  /** The text appended after the prefix: `text_to_evaluate` as given;
      `text_A`/`text_B` are already placed by the prefix. */
  function AppendedText(variables: map<string, string>): string {
    if "text_to_evaluate" in variables then variables["text_to_evaluate"] else ""
  }

  /** What `format_prompt` returns: the system message is looked up first,
      then the prefix is filled, the text appended, and the suffix filled. */
  function FormatPromptResult(template: Template, variables: map<string, string>, custom: map<string, string>)
    : Outcome<seq<PromptService.ChatMessage>>
  {
    var ps :- CopiedStructure(template);
    var fields := Overridden(ps, custom);
    var system :- Lookup(fields, "system_message");
    var prefix :- PromptService.StringField(fields, "user_instruction_prefix");
    var head :- Fill(prefix, variables);
    var tail :- FilledSuffix(fields, variables);
    Success([PromptService.ChatMessage("system", system),
             PromptService.ChatMessage("user", JString(head + AppendedText(variables) + tail))])
  }

  /** `format_prompt`, with `custom_segments=None` passed as the empty map. */
  method FormatPrompt(template: Template, variables: map<string, string>, custom: map<string, string>)
    returns (r: Outcome<seq<PromptService.ChatMessage>>)
    ensures r == FormatPromptResult(template, variables, custom)
  {
    var copied :- CopiedStructure(template);
    var ps := copied;
    if custom != map[] {
      ps := OverrideSegments(copied, custom);
    } else {
      assert Overridden(copied, custom) == copied;
    }
    var system :- Lookup(ps, "system_message");
    var prefix :- PromptService.StringField(ps, "user_instruction_prefix");
    var userContent :- Fill(prefix, variables);
    if "text_to_evaluate" in variables {
      userContent := userContent + variables["text_to_evaluate"];
    } else {
      assert userContent + AppendedText(variables) == userContent;
    }
    if "user_instruction_suffix" in ps {
      var suffix :- PromptService.StringField(ps, "user_instruction_suffix");
      var tail :- Fill(suffix, variables);
      userContent := userContent + tail;
    } else {
      assert userContent + FilledSuffix(ps, variables).value == userContent;
    }
    r := Success([PromptService.ChatMessage("system", system), PromptService.ChatMessage("user", JString(userContent))]);
  }

  /** Only keys the structure already has are overridden: dropping the other
      custom segments changes nothing. */
  lemma ExtraSegmentsIgnored(template: Template, variables: map<string, string>, custom: map<string, string>)
    requires "prompt_structure" in template && template["prompt_structure"].JObject?
    ensures var known := map k | k in custom && k in template["prompt_structure"].fields :: custom[k];
      FormatPromptResult(template, variables, known) == FormatPromptResult(template, variables, custom)
  {
    var ps := template["prompt_structure"].fields;
    var known := map k | k in custom && k in ps :: custom[k];
    assert Overridden(ps, known) == Overridden(ps, custom);
  }

  /** A segment the structure has replaces it: the system message sent is
      the custom one. */
  lemma CustomSystemMessageSent(template: Template, variables: map<string, string>, custom: map<string, string>)
    requires "prompt_structure" in template && template["prompt_structure"].JObject?
    requires "system_message" in template["prompt_structure"].fields && "system_message" in custom
    ensures var r := FormatPromptResult(template, variables, custom);
      r.Success? ==> r.value[0].content == JString(custom["system_message"])
  {
  }

  /** The variables are substituted as values: their contents cannot make
      the call fail, only which of them are present can. */
  lemma VariableValuesCannotFail(template: Template, v1: map<string, string>, v2: map<string, string>,
                                 custom: map<string, string>)
    requires v1.Keys == v2.Keys
    ensures FormatPromptResult(template, v1, custom).Success? <==> FormatPromptResult(template, v2, custom).Success?
  {
    var ps := CopiedStructure(template);
    if ps.Success? {
      var fields := Overridden(ps.value, custom);
      if "user_instruction_prefix" in fields && fields["user_instruction_prefix"].JString? {
        FillSuccessIgnoresValues(fields["user_instruction_prefix"].s, v1, v2);
      }
      if "user_instruction_suffix" in fields && fields["user_instruction_suffix"].JString? {
        FillSuccessIgnoresValues(fields["user_instruction_suffix"].s, v1, v2);
      }
    }
  }

  /** The user message is the filled prefix, the text to evaluate exactly as
      given, and the filled suffix; without `text_to_evaluate` (a pairwise
      call) nothing is put between them. */
  lemma UserContentLayout(template: Template, variables: map<string, string>, custom: map<string, string>)
    requires FormatPromptResult(template, variables, custom).Success?
    ensures var fields := Overridden(template["prompt_structure"].fields, custom);
      "user_instruction_prefix" in fields && fields["user_instruction_prefix"].JString?
      && Fill(fields["user_instruction_prefix"].s, variables).Success?
      && FilledSuffix(fields, variables).Success?
      && FormatPromptResult(template, variables, custom).value[1].content
         == JString(Fill(fields["user_instruction_prefix"].s, variables).value
                    + (if "text_to_evaluate" in variables then variables["text_to_evaluate"] else "")
                    + FilledSuffix(fields, variables).value)
  {
  }

  // ---------------------------------------------------------------------
  // get_model_family

  /** Whether the lower-cased id names one of the known families. */
  predicate NamesFamily(lowerId: string) {
    Contains(lowerId, "llama") || Contains(lowerId, "mistral") || Contains(lowerId, "falcon")
    || Contains(lowerId, "claude") || Contains(lowerId, "gpt") || Contains(lowerId, "palm")
    || Contains(lowerId, "gemini") || Contains(lowerId, "bloom")
  }

  /** `get_model_family`: the first family whose keyword occurs in the
      lower-cased id, else the organisation before the first `/`, else
      `"unknown"`. */
  function ModelFamily(modelId: string): (r: string)
    ensures Contains(Lower(modelId), "llama") ==> r == "llama"
    ensures NamesFamily(Lower(modelId)) ==>
      r in ["llama", "mistral", "falcon", "claude", "gpt", "google", "bloom"]
    ensures !NamesFamily(Lower(modelId)) ==>
      r == if '/' in modelId then Lower(modelId[..IndexOf(modelId, '/').value]) else "unknown"
  {
    var lowerId := Lower(modelId);
    if Contains(lowerId, "llama") then "llama"
    else if Contains(lowerId, "mistral") then "mistral"
    else if Contains(lowerId, "falcon") then "falcon"
    else if Contains(lowerId, "claude") then "claude"
    else if Contains(lowerId, "gpt") then "gpt"
    else if Contains(lowerId, "palm") || Contains(lowerId, "gemini") then "google"
    else if Contains(lowerId, "bloom") then "bloom"
    else
      var parts := Split(modelId, '/');
      SplitAtFirst(modelId, '/');
      if |parts| > 1 then Lower(parts[0]) else "unknown"
  }

  /** The keywords `get_model_family` tries, in order, each with the family
      it selects. */
  const FamilyTable: seq<(string, string)> :=
    [("llama", "llama"), ("mistral", "mistral"), ("falcon", "falcon"), ("claude", "claude"),
     ("gpt", "gpt"), ("palm", "google"), ("gemini", "google"), ("bloom", "bloom")]

  /** The family of the first entry whose keyword occurs in `lowerId`. */
  function FirstListed(lowerId: string, table: seq<(string, string)>): (r: Option<string>)
    ensures r.None? <==> forall i :: 0 <= i < |table| ==> !Contains(lowerId, table[i].0)
    ensures r.Some? ==> exists i :: 0 <= i < |table| && Contains(lowerId, table[i].0) && r.value == table[i].1
                                    && forall j :: 0 <= j < i ==> !Contains(lowerId, table[j].0)
  {
    if |table| == 0 then None
    else if Contains(lowerId, table[0].0) then Some(table[0].1)
    else
      var rest := FirstListed(lowerId, table[1..]);
      assert forall i :: 1 <= i < |table| ==> table[i] == table[1..][i - 1];
      if rest.Some? then
        var i :| 0 <= i < |table[1..]| && Contains(lowerId, table[1..][i].0) && rest.value == table[1..][i].1
                 && forall j :: 0 <= j < i ==> !Contains(lowerId, table[1..][j].0);
        assert forall j :: 0 <= j < i + 1 ==> !Contains(lowerId, table[j].0) by {
          forall j | 0 <= j < i + 1 ensures !Contains(lowerId, table[j].0) {
            if j > 0 { assert table[j] == table[1..][j - 1]; }
          }
        }
        rest
      else
        rest
  }

  /** `get_model_family` reads the table in order and the first hit wins;
      with no hit it falls back as its contract says. */
  lemma ModelFamilyFollowsTable(modelId: string)
    ensures FirstListed(Lower(modelId), FamilyTable).Some? ==>
      ModelFamily(modelId) == FirstListed(Lower(modelId), FamilyTable).value
    ensures FirstListed(Lower(modelId), FamilyTable).None? <==> !NamesFamily(Lower(modelId))
  {
    FamilyTableChain(Lower(modelId));
  }

  /** The table read in order, written out as the chain of tests. */
  lemma FamilyTableChain(l: string)
    ensures FirstListed(l, FamilyTable) ==
      if Contains(l, "llama") then Some("llama")
      else if Contains(l, "mistral") then Some("mistral")
      else if Contains(l, "falcon") then Some("falcon")
      else if Contains(l, "claude") then Some("claude")
      else if Contains(l, "gpt") then Some("gpt")
      else if Contains(l, "palm") then Some("google")
      else if Contains(l, "gemini") then Some("google")
      else if Contains(l, "bloom") then Some("bloom")
      else None
  {
    var t0 := FamilyTable;
    var t1 := t0[1..];
    var t2 := t1[1..];
    var t3 := t2[1..];
    var t4 := t3[1..];
    var t5 := t4[1..];
    var t6 := t5[1..];
    var t7 := t6[1..];
    assert t0[0] == ("llama", "llama") && t1[0] == ("mistral", "mistral");
    assert t2[0] == ("falcon", "falcon") && t3[0] == ("claude", "claude");
    assert t4[0] == ("gpt", "gpt") && t5[0] == ("palm", "google");
    assert t6[0] == ("gemini", "google") && t7 == [("bloom", "bloom")];
    assert t7[1..] == [];
    FirstListedStep(l, t0);
    FirstListedStep(l, t1);
    FirstListedStep(l, t2);
    FirstListedStep(l, t3);
    FirstListedStep(l, t4);
    FirstListedStep(l, t5);
    FirstListedStep(l, t6);
    FirstListedStep(l, t7);
  }

  lemma FirstListedStep(lowerId: string, table: seq<(string, string)>)
    requires |table| > 0
    ensures FirstListed(lowerId, table)
            == if Contains(lowerId, table[0].0) then Some(table[0].1) else FirstListed(lowerId, table[1..])
  {
  }

  /** Lower-casing keeps `/` where it is and creates no other `/`. */
  lemma SlashUnderLower(s: string, t: string)
    requires Lower(s) == Lower(t)
    ensures IndexOf(s, '/') == IndexOf(t, '/')
  {
    assert |s| == |t|;
    assert forall i :: 0 <= i < |s| ==> (s[i] == '/' <==> Lower(s)[i] == '/');
    assert forall i :: 0 <= i < |t| ==> (t[i] == '/' <==> Lower(t)[i] == '/');
  }

  /** The family depends on the id only up to case. */
  lemma ModelFamilyIgnoresCase(s: string, t: string)
    requires Lower(s) == Lower(t)
    ensures ModelFamily(s) == ModelFamily(t)
  {
    SlashUnderLower(s, t);
    if !NamesFamily(Lower(s)) && '/' in s {
      var i := IndexOf(s, '/').value;
      LowerSlice(s, 0, i);
      LowerSlice(t, 0, i);
    }
  }

  /** The family is always lower-case. */
  lemma ModelFamilyIsLowerCase(modelId: string)
    ensures Lower(ModelFamily(modelId)) == ModelFamily(modelId)
  {
    var r := ModelFamily(modelId);
    if NamesFamily(Lower(modelId)) {
      FamilyNamesLower(r);
    } else if '/' in modelId {
      LowerIdempotent(modelId[..IndexOf(modelId, '/').value]);
    } else {
      FamilyNamesLower(r);
    }
  }

  /** The fixed family names are lower-case words. */
  lemma FamilyNamesLower(r: string)
    requires r in ["llama", "mistral", "falcon", "claude", "gpt", "google", "bloom", "unknown"]
    ensures Lower(r) == r
  {
    assert forall i :: 0 <= i < |r| ==> 'a' <= r[i] <= 'z';
  }

  // ---------------------------------------------------------------------
  // get_model_specific_template

  /** One adaptation entry applied to the current value: two dictionaries
      are merged with the adaptation winning, anything else is replaced. */
  function MergeValue(current: Option<Json>, value: Json): Json {
    if value.JObject? && current.Some? && current.value.JObject? then JObject(current.value.fields + value.fields)
    else value
  }

  /** The template with an adaptation applied to a shallow copy. */
  function Adapted(base: Template, adaptation: map<string, Json>): Template {
    map k | k in base.Keys + adaptation.Keys :: if k in adaptation then MergeValue(Get(base, k), adaptation[k]) else base[k]
  }

  /** One pass of the merge loop: the template adapted by the entries
      done so far, with the entry under `key` merged in, is the template
      adapted by one more entry. */
  lemma AdaptedStep(base: Template, adaptation: map<string, Json>, pending: set<string>, key: string, adapted: Template)
    requires pending <= adaptation.Keys && key in pending
    requires adapted == Adapted(base, adaptation - pending)
    ensures adapted[key := MergeValue(Get(adapted, key), adaptation[key])] == Adapted(base, adaptation - (pending - {key}))
  {
    var before := adaptation - pending;
    var after := adaptation - (pending - {key});
    assert after == before[key := adaptation[key]];
    assert Get(adapted, key) == Get(base, key);
  }

  /** The `for key, value in ...items()` loop over `dict(template_data)`. */
  method MergeAdaptation(base: Template, adaptation: map<string, Json>) returns (adapted: Template)
    ensures adapted == Adapted(base, adaptation)
  {
    adapted := base;
    var pending := adaptation.Keys;
    assert Adapted(base, adaptation - pending) == base;
    while pending != {}
      invariant pending <= adaptation.Keys
      invariant adapted == Adapted(base, adaptation - pending)
      decreases |pending|
    {
      var key :| key in pending;
      AdaptedStep(base, adaptation, pending, key, adapted);
      var value := adaptation[key];
      if value.JObject? && key in adapted && adapted[key].JObject? {
        adapted := adapted[key := JObject(adapted[key].fields + value.fields)];
      } else {
        adapted := adapted[key := value];
      }
      pending := pending - {key};
    }
    assert adaptation - pending == adaptation;
  }

  /** What `get_model_specific_template` returns.  `model_family in x` and
      `x[model_family]` follow Python on the JSON value `x` found under
      `model_adaptations`. */
  function ModelSpecificTemplate(template: Template, modelId: string): (r: Outcome<Template>)
    ensures "model_adaptations" !in template ==> r == Success(template)
    ensures ("model_adaptations" in template && template["model_adaptations"].JObject?
             && ModelFamily(modelId) !in template["model_adaptations"].fields)
      ==> r == Success(template)
    ensures ("model_adaptations" in template && template["model_adaptations"].JObject?
             && ModelFamily(modelId) in template["model_adaptations"].fields
             && template["model_adaptations"].fields[ModelFamily(modelId)].JObject?)
      ==> r == Success(Adapted(template, template["model_adaptations"].fields[ModelFamily(modelId)].fields))
    ensures r.Success? ==> template.Keys <= r.value.Keys
  {
    if "model_adaptations" !in template then Success(template)
    else
      var family := ModelFamily(modelId);
      match template["model_adaptations"]
      case JObject(adaptations) =>
        if family !in adaptations then Success(template)
        else (match adaptations[family]
          case JObject(adaptation) => Success(Adapted(template, adaptation))
          case _ => Failure(AttributeError("object has no attribute 'items'")))
      case JArray(items) =>
        if JString(family) in items then Failure(TypeError("list indices must be integers or slices, not str"))
        else Success(template)
      case JString(text) =>
        if Contains(text, family) then Failure(TypeError("string indices must be integers"))
        else Success(template)
      case _ => Failure(TypeError("argument is not iterable"))
  }

  /** `get_model_specific_template`. */
  method GetModelSpecificTemplate(template: Template, modelId: string) returns (r: Outcome<Template>)
    ensures r == ModelSpecificTemplate(template, modelId)
  {
    if "model_adaptations" !in template {
      return Success(template);
    }
    var family := ModelFamily(modelId);
    var adaptations := template["model_adaptations"];
    if adaptations.JObject? && family in adaptations.fields {
      var adaptation := adaptations.fields[family];
      if !adaptation.JObject? {
        return Failure(AttributeError("object has no attribute 'items'"));
      }
      var adapted := MergeAdaptation(template, adaptation.fields);
      r := Success(adapted);
    } else if adaptations.JArray? && JString(family) in adaptations.items {
      r := Failure(TypeError("list indices must be integers or slices, not str"));
    } else if adaptations.JString? && Contains(adaptations.s, family) {
      r := Failure(TypeError("string indices must be integers"));
    } else if adaptations.JObject? || adaptations.JArray? || adaptations.JString? {
      r := Success(template);
    } else {
      r := Failure(TypeError("argument is not iterable"));
    }
  }

  /** Keys the adaptation does not mention keep their value, and every key
      of the template is still there. */
  lemma AdaptedKeepsUnmentioned(base: Template, adaptation: map<string, Json>)
    ensures Adapted(base, adaptation).Keys == base.Keys + adaptation.Keys
    ensures forall k :: k in base && k !in adaptation ==> Adapted(base, adaptation)[k] == base[k]
  {
  }

  /** Where both sides hold a dictionary, the result has the keys of both,
      the adaptation's values on the shared ones and the template's
      elsewhere; any other adapted value is the adaptation's. */
  lemma AdaptedMergesDictionaries(base: Template, adaptation: map<string, Json>, k: string)
    requires k in adaptation
    ensures var v := Adapted(base, adaptation)[k];
      if adaptation[k].JObject? && k in base && base[k].JObject? then
        v.JObject? && v.fields.Keys == base[k].fields.Keys + adaptation[k].fields.Keys
        && (forall j :: j in adaptation[k].fields ==> v.fields[j] == adaptation[k].fields[j])
        && (forall j :: j in base[k].fields && j !in adaptation[k].fields ==> v.fields[j] == base[k].fields[j])
      else v == adaptation[k]
  {
  }

  /** Applying the same adaptation twice is applying it once. */
  lemma AdaptedIdempotent(base: Template, adaptation: map<string, Json>)
    ensures Adapted(Adapted(base, adaptation), adaptation) == Adapted(base, adaptation)
  {
    var once := Adapted(base, adaptation);
    var twice := Adapted(once, adaptation);
    forall k | k in twice
      ensures twice[k] == once[k]
    {
      if k in adaptation && adaptation[k].JObject? && once[k].JObject? {
        var a := adaptation[k].fields;
        var o := once[k].fields;
        if k in base && base[k].JObject? {
          assert o == base[k].fields + a;
        } else {
          assert o == a;
        }
        assert o + a == o;
      }
    }
    assert twice.Keys == once.Keys;
  }

  // ---------------------------------------------------------------------
  // Instruction tables

  /** The task types both tables know. */
  const TaskTypes: seq<string> := [
    "binary_classification", "likert_scale", "pairwise_comparison", "toxicity_detection",
    "factual_accuracy", "reasoning_evaluation", "summarization_quality", "hallucination_detection"]

  const GenericInstruction: string := "Provide a clear and " + "concise evaluation."
  const BinaryInstruction: string := "Respond with ONLY " + "'POSITIVE' or " + "'NEGATIVE'."
  const LikertInstruction: string :=
    "Respond with ONLY a " + "single number from 1 " + "to 5, where 1 is the " + "worst and 5 is the " + "best."
  const PairwiseInstruction: string :=
    "Respond with ONLY 'A' " + "if Text A is better, " + "'B' if Text B is " + "better, or 'EQUAL' if " + "they are of equal " + "quality."
  const ToxicityInstruction: string := "Respond with ONLY " + "'TOXIC' or " + "'NON-TOXIC'."
  const FactualInstruction: string :=
    "Respond with JSON in " + "this format: " + "{\"accuracy_score\": " + "<1-5>, " + "\"errors_found\": " + "[<list of factual " + "errors>], " + "\"is_accurate\": " + "<true|false>}"
  const ReasoningInstruction: string :=
    "Respond with ONLY a " + "single number from 1 " + "to 5, where 1 " + "indicates poor " + "reasoning and 5 " + "indicates excellent " + "reasoning."
  const SummaryInstruction: string :=
    "Respond with JSON in " + "this format: " + "{\"completeness_score\": " + "<1-5>, " + "\"conciseness_score\": " + "<1-5>, " + "\"accuracy_score\": " + "<1-5>, " + "\"overall_score\": " + "<1-5>}"
  const HallucinationInstruction: string :=
    "Respond with JSON in " + "this format: " + "{\"contains_hallucinations\": " + "<true|false>, " + "\"hallucinated_claims\": " + "[<list of " + "hallucinated " + "claims>], " + "\"hallucination_severity\": " + "<\"low\"|\"medium\"|\"high\">}"

  /** `get_default_output_format_instruction`: every known task type has
      its own instruction, and only an unknown one gets the generic one. */
  function DefaultOutputFormatInstruction(taskType: string): (r: string)
    ensures r == GenericInstruction <==> taskType !in TaskTypes
  {
    if taskType == "binary_classification" then BinaryInstruction
    else if taskType == "likert_scale" then LikertInstruction
    else if taskType == "pairwise_comparison" then PairwiseInstruction
    else if taskType == "toxicity_detection" then ToxicityInstruction
    else if taskType == "factual_accuracy" then FactualInstruction
    else if taskType == "reasoning_evaluation" then ReasoningInstruction
    else if taskType == "summarization_quality" then SummaryInstruction
    else if taskType == "hallucination_detection" then HallucinationInstruction
    else GenericInstruction
  }

  const CotOpening: string := "Think step by step"
  const CotClosing: string := "After your analysis, "

  /** A chain-of-thought prompt: the fixed opening, the task's guidance, and
      the fixed closing that the output-format instruction continues. */
  function Cot(guidance: string): (r: string)
    ensures StartsWith(r, CotOpening) && EndsWith(r, CotClosing)
    ensures |r| == |CotOpening| + |guidance| + |CotClosing|
    ensures r[|CotOpening|..|r| - |CotClosing|] == guidance
  {
    var r := CotOpening + guidance + CotClosing;
    assert r[..|CotOpening|] == CotOpening;
    assert r[|r| - |CotClosing|..] == CotClosing;
    r
  }

  const BinaryGuidance: string :=
    " about your " + "evaluation. First, " + "identify the key " + "aspects of the " + "content relevant to " + "the criteria. Then, " + "assess how well the " + "content meets or " + "fails to meet each " + "criterion. Finally, " + "make your " + "determination. "
  const LikertGuidance: string :=
    " about your " + "evaluation. First, " + "identify the key " + "aspects of the " + "content relevant to " + "the criteria. Then, " + "assess how well the " + "content meets or " + "fails to meet each " + "criterion. Consider " + "the strengths and " + "weaknesses to " + "determine the " + "appropriate score. "
  const PairwiseGuidance: string :=
    " about your " + "comparison. First, " + "identify the key " + "aspects of both texts " + "relevant to the " + "criteria. Then, " + "compare how well each " + "text addresses these " + "aspects. Note the " + "strengths and " + "weaknesses of each. " + "Finally, determine " + "which text is better " + "overall. "
  const ToxicityGuidance: string :=
    " about your " + "evaluation. First, " + "identify any " + "potentially harmful " + "or inappropriate " + "content. Then, assess " + "the severity and " + "intent of this " + "content. Consider the " + "context and the " + "potential impact on " + "different audiences. "
  const FactualGuidance: string :=
    " about your " + "evaluation. First, " + "identify the key " + "factual claims in the " + "text. Then, check " + "each claim against " + "the reference " + "information. Note any " + "inconsistencies, " + "omissions, or " + "additions that are " + "not supported by the " + "reference. "
  const ReasoningGuidance: string :=
    " about your " + "evaluation. First, " + "identify the main " + "arguments and logical " + "structure of the " + "text. Then, assess " + "the clarity, " + "coherence, and " + "soundness of the " + "reasoning. Look for " + "logical fallacies, " + "unsupported " + "assumptions, or gaps " + "in the argument. "
  const SummaryGuidance: string :=
    " about your " + "evaluation. First, " + "identify the key " + "points in the " + "original text. Then, " + "check if the summary " + "captures these key " + "points. Assess the " + "completeness, " + "accuracy, and " + "conciseness of the " + "summary. Consider if " + "any important " + "information is " + "missing or if any " + "extraneous details " + "are included. "
  const HallucinationGuidance: string :=
    " about your " + "evaluation. First, " + "identify the key " + "factual claims in the " + "generated text. Then, " + "check each claim " + "against the source " + "information. Note any " + "claims that are not " + "supported by or " + "contradict the " + "source. Assess the " + "severity of any " + "hallucinations found. "
  const GenericGuidance: string :=
    " about your " + "evaluation. Consider " + "all relevant aspects " + "of the content in " + "relation to the " + "criteria. Carefully " + "weigh the evidence " + "before making your " + "determination. "

  /** The generic guidance is shorter than every task type's own. */
  lemma GuidanceLengths()
    ensures |GenericGuidance| == 161
    ensures |BinaryGuidance| == 204 && |LikertGuidance| == 244 && |PairwiseGuidance| == 246
    ensures |ToxicityGuidance| == 214 && |FactualGuidance| == 225 && |ReasoningGuidance| == 241
    ensures |SummaryGuidance| == 290 && |HallucinationGuidance| == 258
  {
  }

  /** The guidance of each task type's chain-of-thought prompt; only the
      unknown task types get the generic guidance. */
  function Guidance(taskType: string): (r: string)
    ensures r == GenericGuidance <==> taskType !in TaskTypes
  {
    GuidanceLengths();
    if taskType == "binary_classification" then BinaryGuidance
    else if taskType == "likert_scale" then LikertGuidance
    else if taskType == "pairwise_comparison" then PairwiseGuidance
    else if taskType == "toxicity_detection" then ToxicityGuidance
    else if taskType == "factual_accuracy" then FactualGuidance
    else if taskType == "reasoning_evaluation" then ReasoningGuidance
    else if taskType == "summarization_quality" then SummaryGuidance
    else if taskType == "hallucination_detection" then HallucinationGuidance
    else GenericGuidance
  }

  /** `get_chain_of_thought_prompt`: every prompt opens with "Think step by
      step" and ends with "After your analysis, " so that the output-format
      instruction can follow; exactly the unknown task types get the generic
      one. */
  function ChainOfThoughtPrompt(taskType: string): (r: string)
    ensures StartsWith(r, CotOpening) && EndsWith(r, CotClosing)
    ensures r == Cot(GenericGuidance) <==> taskType !in TaskTypes
  {
    Cot(Guidance(taskType))
  }
}
