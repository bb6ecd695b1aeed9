/** The template registry and prompt composer
    (vllm_judge/services/prompt_manager.py): an in-memory map from template
    id to template, seeded with three default templates, and the two
    methods that turn a template into the `[system, user]` chat messages
    sent to the judge model. */
module PromptService {
  import opened Wrappers
  import opened Errors
  import opened Json
  import opened Formatting
  import PyStr

  /** A stored template: a JSON object. */
  type Template = map<string, Json>

  // ---------------------------------------------------------------------
  // The default templates

  const BinarySystemMessage: string :=
    "You are an expert " + "evaluator. Your task " + "is to analyze the " + "given content and " + "make a binary " + "classification " + "decision based on the " + "provided criteria."
  const LikertSystemMessage: string :=
    "You are an expert " + "evaluator. Your task " + "is to rate the given " + "content on a scale " + "based on the provided " + "criteria."
  const PairwiseSystemMessage: string :=
    "You are an expert " + "evaluator. Your task " + "is to compare two " + "texts and select the " + "better one based on " + "the provided criteria."

  const CriteriaLead: string := "based on these " + "criteria:\n\n"
  const SingleLead: string := "Please evaluate " + "the following " + "content "
  const SinglePrefixHead: string := SingleLead + CriteriaLead
  const SinglePrefixTail: string := "\n\nContent to " + "evaluate:\n\n"
  const SingleUserPrefix: string := SinglePrefixHead + Placeholder("evaluation_criteria") + SinglePrefixTail

  const PairwiseLead: string := "Please compare " + "the following " + "two texts "
  const PairwisePrefixHead: string := PairwiseLead + CriteriaLead
  const PairwiseTail: string := "\n\nText B:\n\n" + Placeholder("text_B") + "\n\n"
  const PairwiseMiddle: string := "\n\nText A:\n\n" + Placeholder("text_A") + PairwiseTail
  const PairwiseUserPrefix: string := PairwisePrefixHead + Placeholder("comparison_criteria") + PairwiseMiddle

  const FormatSuffix: string := "\n\n" + Placeholder("output_format_instruction")

  function PromptStructure(system: string, prefix: string): Json {
    JObject(map[
      "system_message" := JString(system),
      "user_instruction_prefix" := JString(prefix),
      "user_instruction_suffix" := JString(FormatSuffix)])
  }

  /** A stored default template: its id, name, family (none), description,
      prompt structure and parser rules. */
  function TemplateEntry(id: string, name: string, description: string, structure: Json, rules: Json): (r: Template)
    ensures "template_id" in r && r["template_id"] == JString(id)
    ensures "prompt_structure" in r && r["prompt_structure"] == structure
    ensures "output_parser_rules" in r && r["output_parser_rules"] == rules
  {
    map["template_name" := JString(name),
        "target_judge_model_family" := JNull,
        "description" := JString(description),
        "output_parser_rules" := rules,
        "prompt_structure" := structure,
        "template_id" := JString(id)]
  }

  function BinaryTemplate(): Template {
    TemplateEntry(
      "binary_classification", "Binary Classification",
      "Template for binary " + "classification tasks " + "(yes/no, safe/unsafe, " + "etc.)",
      PromptStructure(BinarySystemMessage, SingleUserPrefix),
      JObject(map[
        "type" := JString("binary"),
        "positive_patterns" := JArray([JString("yes"), JString("true"), JString("safe"),
                                       JString("positive"), JString("acceptable")]),
        "negative_patterns" := JArray([JString("no"), JString("false"), JString("unsafe"),
                                       JString("negative"), JString("unacceptable")])]))
  }

  function LikertTemplate(): Template {
    TemplateEntry(
      "likert_scale", "Likert Scale Evaluation",
      "Template for Likert " + "scale evaluations " + "(rating on a scale, " + "e.g., 1-5)",
      PromptStructure(LikertSystemMessage, SingleUserPrefix),
      JObject(map[
        "type" := JString("numeric"),
        "pattern" := JString("\\b([1-5])\\b")]))
  }

  function PairwiseTemplate(): Template {
    TemplateEntry(
      "pairwise_comparison", "Pairwise Comparison",
      "Template for " + "comparing two texts " + "and selecting the " + "better one",
      PromptStructure(PairwiseSystemMessage, PairwiseUserPrefix),
      JObject(map[
        "type" := JString("preference"),
        "pattern" := JString("(?:(?:Text|Option|Response)\\s*)?([AB])")]))
  }

  /** The ids of the default templates, in their insertion order. */
  const DefaultOrder: seq<string> := ["binary_classification", "likert_scale", "pairwise_comparison"]

  /** The three default ids differ (they differ in length). */
  lemma DefaultIdsDistinct()
    ensures "binary_classification" != "likert_scale" && "binary_classification" != "pairwise_comparison"
    ensures "likert_scale" != "pairwise_comparison"
  {
    assert |"binary_classification"| == 21 && |"likert_scale"| == 12 && |"pairwise_comparison"| == 19;
  }

  /** The default order lists each default id once. */
  lemma DefaultOrderListsIds(ids: set<string>)
    requires ids == {"binary_classification", "likert_scale", "pairwise_comparison"}
    ensures NoDuplicates(DefaultOrder)
    ensures forall id :: id in ids <==> id in DefaultOrder
  {
    DefaultIdsDistinct();
  }

  /** `_get_default_templates()["templates"]`. */
  function DefaultTemplates(): (r: map<string, Template>)
    ensures r.Keys == {"binary_classification", "likert_scale", "pairwise_comparison"}
  {
    DefaultIdsDistinct();
    map["binary_classification" := BinaryTemplate(),
        "likert_scale" := LikertTemplate(),
        "pairwise_comparison" := PairwiseTemplate()]
  }

  /** A stored template that records `id` as its id and carries a prompt
      structure object. */
  predicate CarriesId(id: string, t: Template) {
    "template_id" in t && t["template_id"] == JString(id)
      && "prompt_structure" in t && t["prompt_structure"].JObject?
  }

  /** Each default template records its own id and carries a prompt
      structure object. */
  lemma DefaultEntriesCarryIds()
    ensures forall id :: id in DefaultTemplates() ==> CarriesId(id, DefaultTemplates()[id])
  {
    var d := DefaultTemplates();
    DefaultIdsDistinct();
    assert CarriesId("binary_classification", BinaryTemplate());
    assert CarriesId("likert_scale", LikertTemplate());
    assert CarriesId("pairwise_comparison", PairwiseTemplate());
    assert d["binary_classification"] == BinaryTemplate();
    assert d["likert_scale"] == LikertTemplate();
    assert d["pairwise_comparison"] == PairwiseTemplate();
  }

  // ---------------------------------------------------------------------
  // Arguments and results of the composer

  /** `CustomPromptSegments` (vllm_judge/core/models.py). */
  datatype Segments = Segments(
    systemMessage: Option<string>,
    userInstructionPrefix: Option<string>,
    userInstructionSuffix: Option<string>)

  /** What a caller passes as `custom_prompt_segments`: nothing, a
      `CustomPromptSegments` object, or a plain dictionary. */
  datatype SegmentsArg = NoSegments | Typed(segments: Segments) | Dict(entries: map<string, string>)

  datatype ChatMessage = ChatMessage(role: string, content: Json)

  const SegmentKeys: set<string> := {"system_message", "user_instruction_prefix", "user_instruction_suffix"}

  /** The three segment keys differ. */
  lemma SegmentKeysDistinct()
    ensures "system_message" != "user_instruction_prefix" && "system_message" != "user_instruction_suffix"
    ensures "user_instruction_prefix" != "user_instruction_suffix"
  {
    assert |"system_message"| == 14 && |"user_instruction_prefix"| == 23;
    assert "user_instruction_prefix"[17] == 'p' && "user_instruction_suffix"[17] == 's';
  }

  const ReasoningRequest: string := " Then, on a new line, " + "explain your " + "reasoning starting " + "with 'Reasoning:'"
  const SingleDefaultInstruction: string := "Respond with ONLY a " + "single word: " + "'POSITIVE' or " + "'NEGATIVE'."
  const PairwiseDefaultInstruction: string :=
    "Respond with ONLY: " + "'A' if Text A is " + "better, 'B' if Text B " + "is better, or 'EQUAL' " + "if they are of equal " + "quality."

  predicate Given(s: Option<string>) { s.Some? && s.value != "" }

  /** The output-format instruction: the caller's when non-empty, else the
      default, followed by the reasoning request when reasoning is wanted. */
  function Instruction(given: Option<string>, default: string, provideReasoning: bool): (r: string)
    ensures PyStr.StartsWith(r, if Given(given) then given.value else default)
    ensures provideReasoning ==> PyStr.EndsWith(r, ReasoningRequest)
    ensures |r| == |if Given(given) then given.value else default| + (if provideReasoning then |ReasoningRequest| else 0)
  {
    var base := if Given(given) then given.value else default;
    var r := if provideReasoning then base + ReasoningRequest else base;
    assert r[..|base|] == base;
    r
  }

  /** The template a call uses: the named one (an unknown name is a
      `PromptTemplateError`) or, without a name, the kind's default (whose
      absence is not caught and stays `TemplateNotFoundError`). */
  function ResolveTemplate(templates: map<string, Template>, templateId: Option<string>, fallback: string): (r: Outcome<string>)
    ensures r.Success? ==> r.value in templates
    ensures Given(templateId) ==>
      r == if templateId.value in templates then Success(templateId.value)
           else Failure(PromptTemplateError("Template not found: " + templateId.value))
    ensures !Given(templateId) ==>
      r == if fallback in templates then Success(fallback) else Failure(TemplateNotFound(fallback))
  {
    if Given(templateId) then
      if templateId.value in templates then Success(templateId.value)
      else Failure(PromptTemplateError("Template not found: " + templateId.value))
    else if fallback in templates then Success(fallback)
    else Failure(TemplateNotFound(fallback))
  }

  /** The segments `generate_single_evaluation_prompt` writes: the non-empty
      fields of a `CustomPromptSegments`; a non-empty dictionary has no such
      attributes. */
  function SingleOverrides(seg: SegmentsArg): (r: Outcome<map<string, string>>)
    ensures r.Success? ==> r.value.Keys <= SegmentKeys && forall k :: k in r.value ==> r.value[k] != ""
    ensures r.Failure? <==> seg.Dict? && seg.entries != map[]
  {
    match seg
    case NoSegments => Success(map[])
    case Typed(s) =>
      var m1: map<string, string> := if Given(s.systemMessage) then map["system_message" := s.systemMessage.value] else map[];
      var m2 := if Given(s.userInstructionPrefix) then m1["user_instruction_prefix" := s.userInstructionPrefix.value] else m1;
      var m3 := if Given(s.userInstructionSuffix) then m2["user_instruction_suffix" := s.userInstructionSuffix.value] else m2;
      Success(m3)
    case Dict(m) =>
      if m == map[] then Success(map[])
      else Failure(AttributeError("'dict' object has no attribute 'system_message'"))
  }

  /** The segments `generate_pairwise_comparison_prompt` writes: the
      non-empty values of the three keys of a dictionary; a
      `CustomPromptSegments` object has no `get`. */
  function PairwiseOverrides(seg: SegmentsArg): (r: Outcome<map<string, string>>)
    ensures r.Success? ==> r.value.Keys <= SegmentKeys && forall k :: k in r.value ==> r.value[k] != ""
    ensures seg.Dict? ==> r == Success(map k | k in seg.entries && k in SegmentKeys && seg.entries[k] != "" :: seg.entries[k])
    ensures r.Failure? <==> seg.Typed?
  {
    match seg
    case NoSegments => Success(map[])
    case Typed(_) => Failure(AttributeError("'CustomPromptSegments' object has no attribute 'get'"))
    case Dict(m) => Success(map k | k in m && k in SegmentKeys && m[k] != "" :: m[k])
  }

  function Lift(m: map<string, string>): (r: map<string, Json>)
    ensures r.Keys == m.Keys && forall k :: k in m ==> r[k] == JString(m[k])
  {
    map k | k in m :: JString(m[k])
  }

  /** A resolved call: the template id and the prompt structure after the
      overrides. */
  datatype Plan = Plan(id: string, fields: map<string, Json>)

  /** Everything before formatting: resolve the template, read its
      `prompt_structure` and apply the overrides to it. */
  function MakePlan(templates: map<string, Template>, templateId: Option<string>, fallback: string,
                    overrides: Outcome<map<string, string>>): (r: Outcome<Plan>)
    ensures r.Success? ==> r.value.id in templates && "prompt_structure" in templates[r.value.id]
    ensures r.Success? ==> var ps := templates[r.value.id]["prompt_structure"];
      overrides.Success? && ps.JObject? && r.value.fields.Keys == ps.fields.Keys + overrides.value.Keys
      && (forall k :: k in overrides.value ==> r.value.fields[k] == JString(overrides.value[k]))
      && (forall k :: k in ps.fields && k !in overrides.value ==> r.value.fields[k] == ps.fields[k])
  {
    var id :- ResolveTemplate(templates, templateId, fallback);
    if "prompt_structure" !in templates[id] then Failure(KeyError("prompt_structure"))
    else
      var ov :- overrides;
      var ps := templates[id]["prompt_structure"];
      if !ps.JObject? then Failure(TypeError("prompt_structure is not a dictionary"))
      else Success(Plan(id, ps.fields + Lift(ov)))
  }

  /** The registry once a plan has been carried out: the overrides are
      written into the stored template. */
  function Commit(templates: map<string, Template>, plan: Plan): map<string, Template>
    requires plan.id in templates
  {
    templates[plan.id := templates[plan.id]["prompt_structure" := JObject(plan.fields)]]
  }

  /** The registry after a call: changed exactly when the plan succeeded,
      whatever happens during formatting. */
  function StoreAfter(templates: map<string, Template>, plan: Outcome<Plan>): (r: map<string, Template>)
    requires plan.Success? ==> plan.value.id in templates
    ensures r.Keys == templates.Keys
    ensures plan.Failure? ==> r == templates
    ensures plan.Success? ==> forall id :: id in templates && id != plan.value.id ==> r[id] == templates[id]
  {
    match plan
    case Failure(_) => templates
    case Success(p) => Commit(templates, p)
  }

  /** `template[key].format(...)` needs the key and a string. */
  function StringField(fields: map<string, Json>, key: string): (r: Outcome<string>)
    ensures r.Success? <==> key in fields && fields[key].JString?
    ensures r.Success? ==> r.value == fields[key].s
  {
    if key !in fields then Failure(KeyError(key))
    else match fields[key]
      case JString(s) => Success(s)
      case _ => Failure(AttributeError("object has no attribute 'format'"))
  }

  /** The filled suffix, or nothing when the structure has none. */
  function SuffixPart(fields: map<string, Json>, instr: string): (r: Outcome<string>)
    ensures "user_instruction_suffix" !in fields ==> r == Success("")
  {
    if "user_instruction_suffix" in fields then
      var sfx :- StringField(fields, "user_instruction_suffix");
      Fill(sfx, map["output_format_instruction" := instr])
    else Success("")
  }

  /** The system message, looked up after the user content is built. */
  function SystemPart(fields: map<string, Json>): (r: Outcome<Json>)
    ensures r.Success? <==> "system_message" in fields
  {
    if "system_message" in fields then Success(fields["system_message"]) else Failure(KeyError("system_message"))
  }

  function SingleVars(criteria: string, instr: string): map<string, string> {
    map["evaluation_criteria" := criteria, "output_format_instruction" := instr]
  }

  function PairwiseVars(textA: string, textB: string, criteria: string, instr: string): map<string, string> {
    map["comparison_criteria" := criteria, "text_A" := textA, "text_B" := textB, "output_format_instruction" := instr]
  }

  /** The messages of a single evaluation: the filled prefix, the text
      itself, then the filled suffix. */
  function RenderSingle(fields: map<string, Json>, text: string, criteria: string, instr: string): (r: Outcome<seq<ChatMessage>>)
    ensures r.Success? ==> |r.value| == 2 && r.value[0].role == "system" && r.value[1].role == "user"
    ensures r.Success? ==> "system_message" in fields && r.value[0].content == fields["system_message"]
    ensures r.Success? ==> ("user_instruction_prefix" in fields && fields["user_instruction_prefix"].JString?
      && Fill(fields["user_instruction_prefix"].s, SingleVars(criteria, instr)).Success?
      && SuffixPart(fields, instr).Success?
      && r.value[1].content == JString(Fill(fields["user_instruction_prefix"].s, SingleVars(criteria, instr)).value
                                       + text + SuffixPart(fields, instr).value))
  {
    var prefix :- StringField(fields, "user_instruction_prefix");
    var head :- Fill(prefix, SingleVars(criteria, instr));
    var tail :- SuffixPart(fields, instr);
    var system :- SystemPart(fields);
    Success([ChatMessage("system", system), ChatMessage("user", JString(head + text + tail))])
  }

  /** The messages of a pairwise comparison: the filled prefix, then the
      filled suffix; the two texts enter only through placeholders. */
  function RenderPairwise(fields: map<string, Json>, textA: string, textB: string, criteria: string, instr: string): (r: Outcome<seq<ChatMessage>>)
    ensures r.Success? ==> |r.value| == 2 && r.value[0].role == "system" && r.value[1].role == "user"
    ensures r.Success? ==> "system_message" in fields && r.value[0].content == fields["system_message"]
    ensures r.Success? ==> ("user_instruction_prefix" in fields && fields["user_instruction_prefix"].JString?
      && Fill(fields["user_instruction_prefix"].s, PairwiseVars(textA, textB, criteria, instr)).Success?
      && SuffixPart(fields, instr).Success?
      && r.value[1].content == JString(Fill(fields["user_instruction_prefix"].s, PairwiseVars(textA, textB, criteria, instr)).value
                                       + SuffixPart(fields, instr).value))
  {
    var prefix :- StringField(fields, "user_instruction_prefix");
    var head :- Fill(prefix, PairwiseVars(textA, textB, criteria, instr));
    var tail :- SuffixPart(fields, instr);
    var system :- SystemPart(fields);
    Success([ChatMessage("system", system), ChatMessage("user", JString(head + tail))])
  }

  function SinglePlan(templates: map<string, Template>, templateId: Option<string>, seg: SegmentsArg): Outcome<Plan> {
    MakePlan(templates, templateId, "binary_classification", SingleOverrides(seg))
  }

  function PairwisePlan(templates: map<string, Template>, templateId: Option<string>, seg: SegmentsArg): Outcome<Plan> {
    MakePlan(templates, templateId, "pairwise_comparison", PairwiseOverrides(seg))
  }

  /** The formatting half of `generate_single_evaluation_prompt`: the user content is built
      up piece by piece and the system message is read last. */
  method FormatSingle(fields: map<string, Json>, text: string, criteria: string, instr: string) returns (r: Outcome<seq<ChatMessage>>)
    ensures r == RenderSingle(fields, text, criteria, instr)
  {
    var prefix :- StringField(fields, "user_instruction_prefix");
    var head :- Fill(prefix, SingleVars(criteria, instr));
    var userContent := head + text;
    if "user_instruction_suffix" in fields {
      var suffix :- StringField(fields, "user_instruction_suffix");
      var tail :- Fill(suffix, map["output_format_instruction" := instr]);
      userContent := userContent + tail;
    } else {
      assert userContent + SuffixPart(fields, instr).value == userContent;
    }
    var system :- SystemPart(fields);
    r := Success([ChatMessage("system", system), ChatMessage("user", JString(userContent))]);
  }

  /** The formatting half of `generate_pairwise_comparison_prompt`: the user content is built
      up piece by piece and the system message is read last. */
  method FormatPairwise(fields: map<string, Json>, textA: string, textB: string, criteria: string, instr: string) returns (r: Outcome<seq<ChatMessage>>)
    ensures r == RenderPairwise(fields, textA, textB, criteria, instr)
  {
    var prefix :- StringField(fields, "user_instruction_prefix");
    var head :- Fill(prefix, PairwiseVars(textA, textB, criteria, instr));
    var userContent := head;
    if "user_instruction_suffix" in fields {
      var suffix :- StringField(fields, "user_instruction_suffix");
      var tail :- Fill(suffix, map["output_format_instruction" := instr]);
      userContent := userContent + tail;
    } else {
      assert userContent + SuffixPart(fields, instr).value == userContent;
    }
    var system :- SystemPart(fields);
    r := Success([ChatMessage("system", system), ChatMessage("user", JString(userContent))]);
  }

  /** The prompt structure a plan formats with. */
  function PlanFields(plan: Outcome<Plan>): (r: Outcome<map<string, Json>>)
    ensures r.Success? <==> plan.Success?
    ensures r.Success? ==> r.value == plan.value.fields
    ensures r.Failure? ==> r.error == plan.error
  {
    match plan
    case Failure(e) => Failure(e)
    case Success(p) => Success(p.fields)
  }

  /** What `generate_single_evaluation_prompt` returns. */
  function ComposeSingle(templates: map<string, Template>, text: string, criteria: string, templateId: Option<string>,
                         seg: SegmentsArg, format: Option<string>, provideReasoning: bool): Outcome<seq<ChatMessage>>
  {
    var plan :- SinglePlan(templates, templateId, seg);
    RenderSingle(plan.fields, text, criteria, Instruction(format, SingleDefaultInstruction, provideReasoning))
  }

  /** What `generate_pairwise_comparison_prompt` returns. */
  function ComposePairwise(templates: map<string, Template>, textA: string, textB: string, criteria: string,
                           templateId: Option<string>, seg: SegmentsArg, format: Option<string>,
                           provideReasoning: bool): Outcome<seq<ChatMessage>>
  {
    var plan :- PairwisePlan(templates, templateId, seg);
    RenderPairwise(plan.fields, textA, textB, criteria, Instruction(format, PairwiseDefaultInstruction, provideReasoning))
  }

  // ---------------------------------------------------------------------
  // The registry

  /** The entry `create_template` stores: the generated id under
      `template_id`, then every field of the data, which wins on a clash. */
  function NewEntry(id: string, data: Template): (r: Template)
    ensures r.Keys == data.Keys + {"template_id"}
    ensures forall k :: k in data ==> r[k] == data[k]
    ensures "template_id" !in data ==> r["template_id"] == JString(id)
  {
    map["template_id" := JString(id)] + data
  }

  predicate NoDuplicates(xs: seq<string>) {
    forall i, j :: 0 <= i < j < |xs| ==> xs[i] != xs[j]
  }

  /** `order` without `id`. */
  function Without(order: seq<string>, id: string): (r: seq<string>)
    ensures forall x :: x in r <==> x in order && x != id
    ensures NoDuplicates(order) ==> NoDuplicates(r)
  {
    if |order| == 0 then []
    else if order[0] == id then Without(order[1..], id)
    else
      assert NoDuplicates(order) ==> order[0] !in order[1..];
      [order[0]] + Without(order[1..], id)
  }

  /** The structure after `template["prompt_structure"][key] = segment`
      when the segment is set. */
  function Overlay(fields: map<string, Json>, ov: map<string, string>, key: string): map<string, Json> {
    if key in ov then fields[key := JString(ov[key])] else fields
  }

  /** Writing the three segments one after another is overlaying all of
      them at once. */
  lemma OverlayAll(ps: map<string, Json>, ov: map<string, string>)
    requires ov.Keys <= SegmentKeys
    ensures Overlay(Overlay(Overlay(ps, ov, "system_message"), ov, "user_instruction_prefix"), ov, "user_instruction_suffix")
            == ps + Lift(ov)
  {
    var f1 := Overlay(ps, ov, "system_message");
    var f2 := Overlay(f1, ov, "user_instruction_prefix");
    var f := Overlay(f2, ov, "user_instruction_suffix");
    var g := ps + Lift(ov);
    forall k
      ensures k in f <==> k in g
      ensures k in f ==> f[k] == g[k]
    {
      if k in ov {
        assert k == "system_message" || k == "user_instruction_prefix" || k == "user_instruction_suffix";
      }
    }
    assert f.Keys == g.Keys;
  }

  /** A second write into the same stored structure replaces the first. */
  lemma CommitTwice(templates: map<string, Template>, id: string, f: map<string, Json>, g: map<string, Json>)
    requires id in templates
    ensures var once := Commit(templates, Plan(id, f));
      Commit(once, Plan(id, g)) == Commit(templates, Plan(id, g))
  {
    var once := Commit(templates, Plan(id, f));
    assert once[id]["prompt_structure" := JObject(g)] == templates[id]["prompt_structure" := JObject(g)];
  }

  /** `PromptManager`: `self.templates["templates"]` as a map, with the order
      in which its keys were inserted, which `list_templates` follows. */
  class PromptManager {
    var templates: map<string, Template>
    var order: seq<string>

    /** `order` lists every key of `templates` exactly once. */
    ghost predicate Valid()
      reads this
    {
      NoDuplicates(order) && forall id :: id in templates <==> id in order
    }

    /** A registry seeded with the default templates, as `_load_templates`
        produces when no template file exists yet. */
    constructor()
      ensures Valid()
      ensures templates == DefaultTemplates() && order == DefaultOrder
    {
      var defaults := DefaultTemplates();
      DefaultOrderListsIds(defaults.Keys);
      templates := defaults;
      order := DefaultOrder;
    }

    /** `get_template`: the stored entry, or `TemplateNotFoundError`. */
    function GetTemplate(id: string): (r: Outcome<Template>)
      reads this
      ensures r.Success? <==> id in templates
      ensures r.Success? ==> r.value == templates[id]
      ensures r.Failure? ==> r.error == TemplateNotFound(id)
    {
      if id !in templates then Failure(TemplateNotFound(id)) else Success(templates[id])
    }

    /** `create_template`, with the generated UUID passed in as `freshId`. */
    method CreateTemplate(freshId: string, data: Template) returns (entry: Template)
      requires Valid() && freshId !in templates
      modifies this
      ensures Valid()
      ensures entry == NewEntry(freshId, data)
      ensures templates == old(templates)[freshId := entry]
      ensures order == old(order) + [freshId]
    {
      entry := NewEntry(freshId, data);
      templates := templates[freshId := entry];
      order := order + [freshId];
    }

    /** `update_template`: the supplied fields overwrite the stored ones and
        the others stay. */
    method UpdateTemplate(id: string, data: Template) returns (r: Outcome<Template>)
      requires Valid()
      modifies this
      ensures Valid()
      ensures order == old(order)
      ensures id !in old(templates) ==> r == Failure(TemplateNotFound(id)) && templates == old(templates)
      ensures id in old(templates) ==>
        templates == old(templates)[id := old(templates)[id] + data] && r == Success(templates[id])
    {
      if id !in templates {
        return Failure(TemplateNotFound(id));
      }
      templates := templates[id := templates[id] + data];
      r := Success(templates[id]);
    }

    /** `delete_template`. */
    method DeleteTemplate(id: string) returns (r: Outcome<()>)
      requires Valid()
      modifies this
      ensures Valid()
      ensures id !in old(templates) ==>
        r == Failure(TemplateNotFound(id)) && templates == old(templates) && order == old(order)
      ensures id in old(templates) ==>
        r == Success(()) && templates == old(templates) - {id} && order == Without(old(order), id)
    {
      if id !in templates {
        return Failure(TemplateNotFound(id));
      }
      templates := templates - {id};
      order := Without(order, id);
      r := Success(());
    }

    /** `list_templates`: every stored template, in insertion order. */
    function ListTemplates(): (r: seq<Template>)
      reads this
      requires Valid()
      ensures |r| == |order|
      ensures forall i :: 0 <= i < |r| ==> r[i] == templates[order[i]]
      ensures forall id :: id in templates ==> templates[id] in r
    {
      var r := seq(|order|, i requires 0 <= i < |order| reads this requires Valid() => templates[order[i]]);
      assert forall id :: id in templates ==> exists i :: 0 <= i < |order| && order[i] == id;
      r
    }

    /** `generate_single_evaluation_prompt`.  The overrides are written into
        the stored template and stay there, even when formatting then
        fails. */
    method GenerateSingle(text: string, criteria: string, templateId: Option<string>, seg: SegmentsArg,
                          format: Option<string>, provideReasoning: bool) returns (r: Outcome<seq<ChatMessage>>)
      requires Valid()
      modifies this
      ensures Valid() && order == old(order)
      ensures r == ComposeSingle(old(templates), text, criteria, templateId, seg, format, provideReasoning)
      ensures templates == StoreAfter(old(templates), SinglePlan(old(templates), templateId, seg))
    {
      var instr := Instruction(format, SingleDefaultInstruction, provideReasoning);
      ghost var plan := SinglePlan(templates, templateId, seg);
      ghost var composed := ComposeSingle(templates, text, criteria, templateId, seg, format, provideReasoning);
      var resolved := Resolve(templateId, "binary_classification");
      if resolved.Failure? {
        assert plan == Failure(resolved.error);
        return Failure(resolved.error);
      }
      var id := resolved.value;
      var applied := ApplyOverrides(templateId, "binary_classification", id, SingleOverrides(seg));
      if applied.Failure? {
        assert composed == Failure(applied.error);
        return Failure(applied.error);
      }
      var fields := applied.value;
      assert composed == RenderSingle(fields, text, criteria, instr);
      r := FormatSingle(fields, text, criteria, instr);
    }

    /** `generate_pairwise_comparison_prompt`, with the same write-through of
        the overrides. */
    method GeneratePairwise(textA: string, textB: string, criteria: string, templateId: Option<string>,
                            seg: SegmentsArg, format: Option<string>, provideReasoning: bool)
      returns (r: Outcome<seq<ChatMessage>>)
      requires Valid()
      modifies this
      ensures Valid() && order == old(order)
      ensures r == ComposePairwise(old(templates), textA, textB, criteria, templateId, seg, format, provideReasoning)
      ensures templates == StoreAfter(old(templates), PairwisePlan(old(templates), templateId, seg))
    {
      var instr := Instruction(format, PairwiseDefaultInstruction, provideReasoning);
      ghost var plan := PairwisePlan(templates, templateId, seg);
      ghost var composed := ComposePairwise(templates, textA, textB, criteria, templateId, seg, format, provideReasoning);
      var resolved := Resolve(templateId, "pairwise_comparison");
      if resolved.Failure? {
        assert plan == Failure(resolved.error);
        return Failure(resolved.error);
      }
      var id := resolved.value;
      var applied := ApplyOverrides(templateId, "pairwise_comparison", id, PairwiseOverrides(seg));
      if applied.Failure? {
        assert composed == Failure(applied.error);
        return Failure(applied.error);
      }
      var fields := applied.value;
      assert composed == RenderPairwise(fields, textA, textB, criteria, instr);
      r := FormatPairwise(fields, textA, textB, criteria, instr);
    }

    /** The `if prompt_template_id: ... else: ...` resolution, catching the
        lookup error only for a named template. */
    method Resolve(templateId: Option<string>, fallback: string) returns (r: Outcome<string>)
      ensures r == ResolveTemplate(templates, templateId, fallback)
    {
      if Given(templateId) {
        var found := GetTemplate(templateId.value);
        if found.Failure? {
          return Failure(PromptTemplateError("Template not found: " + templateId.value));
        }
        r := Success(templateId.value);
      } else {
        var found := GetTemplate(fallback);
        if found.Failure? {
          return Failure(found.error);
        }
        r := Success(fallback);
      }
    }

    /** `if segment: template["prompt_structure"][key] = segment`: the
        structure is the stored one, so the write lands in the registry. */
    method WriteSegment(id: string, fields: map<string, Json>, key: string, ov: map<string, string>)
      returns (updated: map<string, Json>)
      requires id in templates && "prompt_structure" in templates[id]
      requires templates[id]["prompt_structure"] == JObject(fields)
      modifies this
      ensures order == old(order)
      ensures updated == Overlay(fields, ov, key)
      ensures templates == Commit(old(templates), Plan(id, updated))
    {
      updated := fields;
      assert templates[id]["prompt_structure" := JObject(updated)] == templates[id];
      if key in ov {
        updated := fields[key := JString(ov[key])];
        templates := templates[id := templates[id]["prompt_structure" := JObject(updated)]];
      }
    }

    /** Each non-empty segment assigned in turn into the stored structure. */
    method WriteOverrides(id: string, ov: map<string, string>) returns (fields: map<string, Json>)
      requires id in templates && "prompt_structure" in templates[id] && templates[id]["prompt_structure"].JObject?
      requires ov.Keys <= SegmentKeys
      modifies this
      ensures order == old(order)
      ensures fields == old(templates)[id]["prompt_structure"].fields + Lift(ov)
      ensures templates == Commit(old(templates), Plan(id, fields))
    {
      var ps := templates[id]["prompt_structure"].fields;
      ghost var base := templates;
      var f1 := WriteSegment(id, ps, "system_message", ov);
      var f2 := WriteSegment(id, f1, "user_instruction_prefix", ov);
      CommitTwice(base, id, f1, f2);
      fields := WriteSegment(id, f2, "user_instruction_suffix", ov);
      CommitTwice(base, id, f2, fields);
      OverlayAll(ps, ov);
    }

    /** Reads `prompt_structure` of template `id` and assigns each override
        into it, in the stored template itself. */
    method ApplyOverrides(templateId: Option<string>, fallback: string, id: string,
                          overrides: Outcome<map<string, string>>) returns (r: Outcome<map<string, Json>>)
      requires ResolveTemplate(templates, templateId, fallback) == Success(id)
      requires overrides.Success? ==> overrides.value.Keys <= SegmentKeys
      modifies this
      ensures order == old(order)
      ensures templates == StoreAfter(old(templates), MakePlan(old(templates), templateId, fallback, overrides))
      ensures r == PlanFields(MakePlan(old(templates), templateId, fallback, overrides))
    {
      ghost var plan := MakePlan(templates, templateId, fallback, overrides);
      if "prompt_structure" !in templates[id] {
        assert plan == Failure(KeyError("prompt_structure"));
        return Failure(KeyError("prompt_structure"));
      }
      if overrides.Failure? {
        assert plan == Failure(overrides.error);
        return Failure(overrides.error);
      }
      var ov := overrides.value;
      var structure := templates[id]["prompt_structure"];
      if !structure.JObject? {
        assert plan == Failure(TypeError("prompt_structure is not a dictionary"));
        return Failure(TypeError("prompt_structure is not a dictionary"));
      }
      assert plan == Success(Plan(id, structure.fields + Lift(ov)));
      var fields := WriteOverrides(id, ov);
      r := Success(fields);
    }
  }

  // ---------------------------------------------------------------------
  // Properties of the composer

  /** The placeholders of the default templates are named fields. */
  lemma PlaceholderNames()
    ensures !IsPositional("output_format_instruction") && !IsPositional("evaluation_criteria")
    ensures !IsPositional("comparison_criteria") && !IsPositional("text_A") && !IsPositional("text_B")
  {
    assert !IsDigit("output_format_instruction"[0]) && !IsDigit("evaluation_criteria"[0]);
    assert !IsDigit("comparison_criteria"[0]) && !IsDigit("text_A"[0]) && !IsDigit("text_B"[0]);
  }

  lemma Concat3(x: string, y: string, z: string)
    ensures x + (y + z) == x + y + z
  {
  }

  // The literal pieces of the default templates hold no braces.

  lemma SuffixFieldLiteral() ensures NoBraces("output_format_instruction") {}
  lemma SingleFieldLiteral() ensures NoBraces("evaluation_criteria") {}
  lemma PairwiseFieldLiteral() ensures NoBraces("comparison_criteria") {}
  lemma TextFieldLiterals() ensures NoBraces("text_A") && NoBraces("text_B") && NoBraces("\n\n") {}
  lemma CriteriaLeadLiteral() ensures NoBraces(CriteriaLead) {
    assert NoBraces("based on these ");
  }
  lemma SingleLeadLiteral() ensures NoBraces(SingleLead) {
    assert NoBraces("Please evaluate ") && NoBraces("the following ");
  }
  lemma PairwiseLeadLiteral() ensures NoBraces(PairwiseLead) {
    assert NoBraces("Please compare ") && NoBraces("the following ");
  }
  lemma SingleHeadLiteral() ensures NoBraces(SinglePrefixHead) { CriteriaLeadLiteral(); SingleLeadLiteral(); }
  lemma SingleTailLiteral() ensures NoBraces(SinglePrefixTail) {}
  lemma PairwiseHeadLiteral() ensures NoBraces(PairwisePrefixHead) { CriteriaLeadLiteral(); PairwiseLeadLiteral(); }
  lemma HeadingLiterals() ensures NoBraces("\n\nText A:\n\n") && NoBraces("\n\nText B:\n\n") {}

  /** The default suffix places the output-format instruction after a
      blank line. */
  lemma DefaultSuffixFill(instr: string)
    ensures Fill(FormatSuffix, map["output_format_instruction" := instr]) == Success("\n\n" + instr)
  {
    var vars := map["output_format_instruction" := instr];
    PlaceholderNames();
    SuffixFieldLiteral();
    TextFieldLiterals();
    assert FormatSuffix + "" == FormatSuffix;
    FillFieldThen("\n\n", "output_format_instruction", "", vars);
    assert Fill("", vars) == Success("");
    assert "\n\n" + instr + "" == "\n\n" + instr;
  }

  /** The default single-evaluation prefix with the criteria filled in. */
  lemma DefaultSinglePrefixFill(criteria: string, instr: string)
    ensures Fill(SingleUserPrefix, SingleVars(criteria, instr)) == Success(SinglePrefixHead + criteria + SinglePrefixTail)
  {
    var vars := SingleVars(criteria, instr);
    PlaceholderNames();
    SingleFieldLiteral();
    SingleHeadLiteral();
    SingleTailLiteral();
    FillFieldThen(SinglePrefixHead, "evaluation_criteria", SinglePrefixTail, vars);
    FillLiteral(SinglePrefixTail, vars);
  }

  lemma PairwiseTailFill(vars: map<string, string>)
    requires "text_B" in vars
    ensures Fill(PairwiseTail, vars) == Success("\n\nText B:\n\n" + vars["text_B"] + "\n\n")
  {
    PlaceholderNames();
    TextFieldLiterals();
    HeadingLiterals();
    FillLiteral("\n\n", vars);
    FillFieldThen("\n\nText B:\n\n", "text_B", "\n\n", vars);
  }

  lemma PairwiseMiddleFill(vars: map<string, string>)
    requires "text_A" in vars && "text_B" in vars
    ensures Fill(PairwiseMiddle, vars)
      == Success("\n\nText A:\n\n" + vars["text_A"] + ("\n\nText B:\n\n" + vars["text_B"] + "\n\n"))
  {
    PlaceholderNames();
    TextFieldLiterals();
    HeadingLiterals();
    PairwiseTailFill(vars);
    FillFieldThen("\n\nText A:\n\n", "text_A", PairwiseTail, vars);
  }

  lemma PairwiseVarsLookup(textA: string, textB: string, criteria: string, instr: string)
    ensures var vars := PairwiseVars(textA, textB, criteria, instr);
      "text_A" in vars && "text_B" in vars && "comparison_criteria" in vars
      && vars["text_A"] == textA && vars["text_B"] == textB && vars["comparison_criteria"] == criteria
  {
  }

  lemma PairwisePrefixSplit(textA: string, textB: string, criteria: string, instr: string)
    ensures Fill(PairwiseUserPrefix, PairwiseVars(textA, textB, criteria, instr))
      == Prepend(PairwisePrefixHead + criteria, Fill(PairwiseMiddle, PairwiseVars(textA, textB, criteria, instr)))
  {
    var vars := PairwiseVars(textA, textB, criteria, instr);
    PlaceholderNames();
    PairwiseFieldLiteral();
    PairwiseHeadLiteral();
    PairwiseVarsLookup(textA, textB, criteria, instr);
    FillFieldThen(PairwisePrefixHead, "comparison_criteria", PairwiseMiddle, vars);
  }

  lemma PrependNested(h: string, x: string, y: string, z: string, m: Outcome<string>)
    requires m == Success(x + (y + z))
    ensures Prepend(h, m) == Success(h + x + y + z)
  {
    Concat3(h, x, y + z);
    Concat3(h + x, y, z);
  }

  /** The default pairwise prefix with the criteria and both texts filled
      in. */
  lemma DefaultPairwisePrefixFill(textA: string, textB: string, criteria: string, instr: string)
    ensures Fill(PairwiseUserPrefix, PairwiseVars(textA, textB, criteria, instr))
      == Success(PairwisePrefixHead + criteria + ("\n\nText A:\n\n" + textA) + ("\n\nText B:\n\n" + textB) + "\n\n")
  {
    var vars := PairwiseVars(textA, textB, criteria, instr);
    PairwiseVarsLookup(textA, textB, criteria, instr);
    PairwisePrefixSplit(textA, textB, criteria, instr);
    PairwiseMiddleFill(vars);
    PrependNested(PairwisePrefixHead + criteria, "\n\nText A:\n\n" + textA, "\n\nText B:\n\n" + textB, "\n\n",
                  Fill(PairwiseMiddle, vars));
  }

  /** The stored structure of the default binary-classification template. */
  lemma BinaryStructure()
    ensures "binary_classification" in DefaultTemplates()
    ensures "prompt_structure" in DefaultTemplates()["binary_classification"]
    ensures DefaultTemplates()["binary_classification"]["prompt_structure"]
      == PromptStructure(BinarySystemMessage, SingleUserPrefix)
  {
    var b := BinaryTemplate();
    assert "prompt_structure" in b && b["prompt_structure"] == PromptStructure(BinarySystemMessage, SingleUserPrefix);
    DefaultIdsDistinct();
    assert DefaultTemplates()["binary_classification"] == b;
  }

  /** The stored structure of the default pairwise template. */
  lemma PairwiseStructure()
    ensures "pairwise_comparison" in DefaultTemplates()
    ensures "prompt_structure" in DefaultTemplates()["pairwise_comparison"]
    ensures DefaultTemplates()["pairwise_comparison"]["prompt_structure"]
      == PromptStructure(PairwiseSystemMessage, PairwiseUserPrefix)
  {
    var p := PairwiseTemplate();
    assert "prompt_structure" in p && p["prompt_structure"] == PromptStructure(PairwiseSystemMessage, PairwiseUserPrefix);
    assert DefaultTemplates()["pairwise_comparison"] == p;
  }

  /** The three segments of a default structure. */
  lemma StructureFields(system: string, prefix: string)
    ensures var f := PromptStructure(system, prefix).fields;
      f.Keys == SegmentKeys && f["system_message"] == JString(system)
      && f["user_instruction_prefix"] == JString(prefix) && f["user_instruction_suffix"] == JString(FormatSuffix)
  {
    SegmentKeysDistinct();
  }

  lemma DefaultSinglePlan()
    ensures SinglePlan(DefaultTemplates(), None, NoSegments)
      == Success(Plan("binary_classification", PromptStructure(BinarySystemMessage, SingleUserPrefix).fields))
  {
    BinaryStructure();
    assert SingleOverrides(NoSegments) == Success(map[]);
    StoredPlan(DefaultTemplates(), "binary_classification", PromptStructure(BinarySystemMessage, SingleUserPrefix));
  }

  lemma DefaultPairwisePlan()
    ensures PairwisePlan(DefaultTemplates(), None, NoSegments)
      == Success(Plan("pairwise_comparison", PromptStructure(PairwiseSystemMessage, PairwiseUserPrefix).fields))
  {
    PairwiseStructure();
    assert PairwiseOverrides(NoSegments) == Success(map[]);
    StoredPlan(DefaultTemplates(), "pairwise_comparison", PromptStructure(PairwiseSystemMessage, PairwiseUserPrefix));
  }

  /** Without a template id or overrides, the plan is the fallback
      template's stored structure. */
  lemma StoredPlan(templates: map<string, Template>, fallback: string, ps: Json)
    requires fallback in templates && "prompt_structure" in templates[fallback]
    requires templates[fallback]["prompt_structure"] == ps && ps.JObject?
    ensures MakePlan(templates, None, fallback, Success(map[])) == Success(Plan(fallback, ps.fields))
  {
    assert ps.fields + Lift(map[]) == ps.fields;
  }

  /** Rendering with a structure in the default shape. */
  lemma RenderDefaultShape(system: string, prefix: string, text: string, criteria: string, instr: string, head: string)
    requires Fill(prefix, SingleVars(criteria, instr)) == Success(head)
    ensures RenderSingle(PromptStructure(system, prefix).fields, text, criteria, instr)
      == Success([ChatMessage("system", JString(system)), ChatMessage("user", JString(head + text + "\n\n" + instr))])
  {
    StructureFields(system, prefix);
    DefaultSuffixFill(instr);
    assert SuffixPart(PromptStructure(system, prefix).fields, instr) == Success("\n\n" + instr);
    Concat3(head + text, "\n\n", instr);
  }

  lemma RenderPairwiseDefaultShape(system: string, prefix: string, textA: string, textB: string, criteria: string,
                                   instr: string, head: string)
    requires Fill(prefix, PairwiseVars(textA, textB, criteria, instr)) == Success(head)
    ensures RenderPairwise(PromptStructure(system, prefix).fields, textA, textB, criteria, instr)
      == Success([ChatMessage("system", JString(system)), ChatMessage("user", JString(head + "\n\n" + instr))])
  {
    StructureFields(system, prefix);
    DefaultSuffixFill(instr);
    assert SuffixPart(PromptStructure(system, prefix).fields, instr) == Success("\n\n" + instr);
    Concat3(head, "\n\n", instr);
  }

  /** With the default templates and no overrides, a single evaluation sends
      the binary-classification system message, then the criteria, the text
      and the output-format instruction in the default layout. */
  lemma DefaultSinglePrompt(text: string, criteria: string, format: Option<string>, provideReasoning: bool)
    ensures ComposeSingle(DefaultTemplates(), text, criteria, None, NoSegments, format, provideReasoning)
      == Success([ChatMessage("system", JString(BinarySystemMessage)),
                  ChatMessage("user", JString(SinglePrefixHead + criteria + SinglePrefixTail + text + "\n\n"
                                              + Instruction(format, SingleDefaultInstruction, provideReasoning)))])
  {
    var instr := Instruction(format, SingleDefaultInstruction, provideReasoning);
    DefaultSinglePlan();
    DefaultSinglePrefixFill(criteria, instr);
    RenderDefaultShape(BinarySystemMessage, SingleUserPrefix, text, criteria, instr,
                       SinglePrefixHead + criteria + SinglePrefixTail);
  }

  /** With the default templates and no overrides, a pairwise comparison
      sends the pairwise system message, then the criteria, both texts under
      their headings and the output-format instruction. */
  lemma DefaultPairwisePrompt(textA: string, textB: string, criteria: string, format: Option<string>,
                              provideReasoning: bool)
    ensures ComposePairwise(DefaultTemplates(), textA, textB, criteria, None, NoSegments, format, provideReasoning)
      == Success([ChatMessage("system", JString(PairwiseSystemMessage)),
                  ChatMessage("user", JString(PairwisePrefixHead + criteria + ("\n\nText A:\n\n" + textA)
                                              + ("\n\nText B:\n\n" + textB) + "\n\n" + "\n\n"
                                              + Instruction(format, PairwiseDefaultInstruction, provideReasoning)))])
  {
    var instr := Instruction(format, PairwiseDefaultInstruction, provideReasoning);
    DefaultPairwisePlan();
    DefaultPairwisePrefixFill(textA, textB, criteria, instr);
    RenderPairwiseDefaultShape(PairwiseSystemMessage, PairwiseUserPrefix, textA, textB, criteria, instr,
                               PairwisePrefixHead + criteria + ("\n\nText A:\n\n" + textA)
                               + ("\n\nText B:\n\n" + textB) + "\n\n");
  }

  /** The text to evaluate is appended after formatting, never formatted
      itself: whether the call succeeds does not depend on it, and the user
      content is the same text around it whatever it is. */
  lemma TextSplicedRaw(templates: map<string, Template>, t1: string, t2: string, criteria: string,
                       templateId: Option<string>, seg: SegmentsArg, format: Option<string>, provideReasoning: bool)
    returns (before: string, after: string)
    ensures var r1 := ComposeSingle(templates, t1, criteria, templateId, seg, format, provideReasoning);
      var r2 := ComposeSingle(templates, t2, criteria, templateId, seg, format, provideReasoning);
      (r1.Success? <==> r2.Success?)
      && (r1.Failure? ==> r1 == r2)
      && (r1.Success? ==>
            (r1.value[0] == r2.value[0]
             && r1.value[1].content == JString(before + t1 + after)
             && r2.value[1].content == JString(before + t2 + after)))
  {
    before, after := "", "";
    var plan := SinglePlan(templates, templateId, seg);
    if plan.Success? {
      var fields := plan.value.fields;
      var instr := Instruction(format, SingleDefaultInstruction, provideReasoning);
      if RenderSingle(fields, t1, criteria, instr).Success? {
        before := Fill(fields["user_instruction_prefix"].s, SingleVars(criteria, instr)).value;
        after := SuffixPart(fields, instr).value;
      }
    }
  }

  /** The criteria are substituted as values, never re-read as a format
      string: whatever they contain, they cannot make the call fail. */
  lemma SingleCriteriaCannotFail(templates: map<string, Template>, text: string, c1: string, c2: string,
                                 templateId: Option<string>, seg: SegmentsArg, format: Option<string>,
                                 provideReasoning: bool)
    ensures ComposeSingle(templates, text, c1, templateId, seg, format, provideReasoning).Success?
        <==> ComposeSingle(templates, text, c2, templateId, seg, format, provideReasoning).Success?
  {
    var plan := SinglePlan(templates, templateId, seg);
    if plan.Success? {
      RenderSingleSucceedsAlike(plan.value.fields, text, c1, c2, Instruction(format, SingleDefaultInstruction, provideReasoning));
    }
  }

  lemma RenderSingleSucceedsAlike(fields: map<string, Json>, text: string, c1: string, c2: string, instr: string)
    ensures RenderSingle(fields, text, c1, instr).Success? <==> RenderSingle(fields, text, c2, instr).Success?
  {
    if "user_instruction_prefix" in fields && fields["user_instruction_prefix"].JString? {
      FillSuccessIgnoresValues(fields["user_instruction_prefix"].s, SingleVars(c1, instr), SingleVars(c2, instr));
    }
  }

  /** Neither the two texts nor the criteria can make a pairwise call fail:
      they enter the prompt only as values of its placeholders. */
  lemma PairwiseValuesCannotFail(templates: map<string, Template>, a1: string, b1: string, c1: string,
                                 a2: string, b2: string, c2: string, templateId: Option<string>, seg: SegmentsArg,
                                 format: Option<string>, provideReasoning: bool)
    ensures ComposePairwise(templates, a1, b1, c1, templateId, seg, format, provideReasoning).Success?
        <==> ComposePairwise(templates, a2, b2, c2, templateId, seg, format, provideReasoning).Success?
  {
    var plan := PairwisePlan(templates, templateId, seg);
    if plan.Success? {
      RenderPairwiseSucceedsAlike(plan.value.fields, a1, b1, c1, a2, b2, c2,
                                  Instruction(format, PairwiseDefaultInstruction, provideReasoning));
    }
  }

  lemma RenderPairwiseSucceedsAlike(fields: map<string, Json>, a1: string, b1: string, c1: string,
                                    a2: string, b2: string, c2: string, instr: string)
    ensures RenderPairwise(fields, a1, b1, c1, instr).Success? <==> RenderPairwise(fields, a2, b2, c2, instr).Success?
  {
    if "user_instruction_prefix" in fields && fields["user_instruction_prefix"].JString? {
      FillSuccessIgnoresValues(fields["user_instruction_prefix"].s, PairwiseVars(a1, b1, c1, instr), PairwiseVars(a2, b2, c2, instr));
    }
  }

  /** A committed plan is found again, unchanged, by a call with no
      overrides. */
  lemma PlanPersists(templates: map<string, Template>, templateId: Option<string>, fallback: string,
                     overrides: Outcome<map<string, string>>)
    requires MakePlan(templates, templateId, fallback, overrides).Success?
    ensures var plan := MakePlan(templates, templateId, fallback, overrides);
      MakePlan(StoreAfter(templates, plan), templateId, fallback, Success(map[])) == plan
  {
    var plan := MakePlan(templates, templateId, fallback, overrides).value;
    var after := Commit(templates, plan);
    assert ResolveTemplate(after, templateId, fallback) == Success(plan.id);
    assert after[plan.id]["prompt_structure"] == JObject(plan.fields);
    assert plan.fields + Lift(map[]) == plan.fields;
  }

  /** Overrides outlive the call that made them: once a single evaluation
      has written its segments, a later call on the same template without
      segments composes the same messages. */
  lemma SingleOverridesPersist(templates: map<string, Template>, templateId: Option<string>, seg: SegmentsArg,
                               text: string, criteria: string, format: Option<string>, provideReasoning: bool)
    requires SinglePlan(templates, templateId, seg).Success?
    ensures var after := StoreAfter(templates, SinglePlan(templates, templateId, seg));
      ComposeSingle(after, text, criteria, templateId, NoSegments, format, provideReasoning)
      == ComposeSingle(templates, text, criteria, templateId, seg, format, provideReasoning)
  {
    assert SingleOverrides(NoSegments) == Success(map[]);
    PlanPersists(templates, templateId, "binary_classification", SingleOverrides(seg));
  }

  /** The same persistence for pairwise comparisons. */
  lemma PairwiseOverridesPersist(templates: map<string, Template>, templateId: Option<string>, seg: SegmentsArg,
                                 textA: string, textB: string, criteria: string, format: Option<string>,
                                 provideReasoning: bool)
    requires PairwisePlan(templates, templateId, seg).Success?
    ensures var after := StoreAfter(templates, PairwisePlan(templates, templateId, seg));
      ComposePairwise(after, textA, textB, criteria, templateId, NoSegments, format, provideReasoning)
      == ComposePairwise(templates, textA, textB, criteria, templateId, seg, format, provideReasoning)
  {
    assert PairwiseOverrides(NoSegments) == Success(map[]);
    PlanPersists(templates, templateId, "pairwise_comparison", PairwiseOverrides(seg));
  }
}
