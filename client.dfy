/** The Python client `VLLMJudgeClient` (vllm_judge/client.py) as far as it
    does its own work: the configuration checks of its constructor, the
    clean-up of the judge's raw output, the generic prompts it builds when no
    template is named, and direct mode, where it drives the prompt manager
    and the output parser itself.  The completion the vLLM server returns,
    and the replies of the adapter server, are parameters. */
module JudgeClient {
  import opened Wrappers
  import opened Errors
  import opened Json
  import opened PyStr
  import OutputParser
  import PromptService

  type ChatMessage = PromptService.ChatMessage

  // ---------------------------------------------------------------------
  // _clean_output and _extract_reasoning

  const Fence: string := "```"
  const JsonFence: string := Fence + "json"

  /** `_clean_output`: drop one leading "```json", then one leading "```",
      then one trailing "```".  What is left is a piece of the output, and
      output without a fence at either end is returned unchanged. */
  function CleanOutput(output: string): (r: string)
    ensures Contains(output, r)
    ensures !StartsWith(output, Fence) && !EndsWith(output, Fence) ==> r == output
  {
    var a := RemovePrefix(output, JsonFence);
    var b := RemovePrefix(a, Fence);
    var r := RemoveSuffix(b, Fence);
    var i := |output| - |a|;
    var j := i + (|a| - |b|);
    assert a == output[i..];
    assert b == output[j..];
    assert r == output[j..j + |r|];
    assert ContainsAt(output, r, j);
    assert JsonFence[..|Fence|] == Fence;
    r
  }

  /** A reply wrapped in a JSON code fence comes back as the bare reply. */
  lemma CleanOutputJsonFence(body: string)
    requires body == [] || body[0] != '`'
    ensures CleanOutput(JsonFence + body + Fence) == body
  {
    var s := JsonFence + body + Fence;
    assert s[..|JsonFence|] == JsonFence;
    assert s[|JsonFence|..] == body + Fence;
    if body != [] {
      assert (body + Fence)[0] == body[0];
    } else {
      assert body + Fence == Fence;
    }
  }

  /** A reply in a bare code fence comes back as the bare reply, unless the
      reply itself starts with "json". */
  lemma CleanOutputBareFence(body: string)
    requires body == [] || body[0] != '`'
    requires !StartsWith(body, "json")
    ensures CleanOutput(Fence + body + Fence) == body
  {
    var s := Fence + body + Fence;
    assert s[..|Fence|] == Fence;
    assert s[|Fence|..] == body + Fence;
    BareFenceNotJson(body);
    if body != [] {
      assert (body + Fence)[0] == body[0];
    } else {
      assert body + Fence == Fence;
    }
  }

  /** A bare fence around a reply that does not start with "json" is not
      a JSON fence. */
  lemma BareFenceNotJson(body: string)
    requires !StartsWith(body, "json")
    ensures !StartsWith(Fence + body + Fence, JsonFence)
  {
    var s := Fence + body + Fence;
    if |s| >= |JsonFence| {
      var w := s[|Fence|..|JsonFence|];
      assert JsonFence[|Fence|..] == "json";
      if |body| >= 4 {
        assert w == body[..4];
      } else {
        assert w[|body|] == '`';
      }
      assert s[..|JsonFence|][|Fence|..] == w;
    }
  }

  /** `raw_output.split("\n")[0]`: everything before the first newline. */
  function FirstLine(output: string): (r: string)
    ensures '\n' !in r
    ensures '\n' in output ==> r == output[..IndexOf(output, '\n').value]
    ensures '\n' !in output ==> r == output
  {
    SplitAtFirst(output, '\n');
    Split(output, '\n')[0]
  }

  const ReasoningLabel: string := "Reasoning:"

  /** `_extract_reasoning`: nothing for a one-line reply; otherwise what
      follows the first newline, stripped, with one leading "Reasoning:"
      removed, stripped again. */
  function ExtractReasoning(output: string): (r: string)
    ensures '\n' !in output ==> r == ""
    ensures '\n' in output ==>
      r == Strip(RemovePrefix(Strip(output[IndexOf(output, '\n').value + 1..]), ReasoningLabel))
  {
    var paragraphs := Split(output, '\n');
    SplitAtFirst(output, '\n');
    if |paragraphs| > 1 then
      var rest := Join(paragraphs[1..], '\n');
      assert rest == output[IndexOf(output, '\n').value + 1..];
      Strip(RemovePrefix(Strip(rest), ReasoningLabel))
    else ""
  }

  /** Stripping a space in front of a stripped string. */
  lemma StripLeadingSpace(why: string)
    requires why == [] || (!IsSpace(why[0]) && !IsSpace(why[|why| - 1]))
    ensures Strip(" " + why) == why
  {
    if why == [] {
      assert StripRight(" ") == StripRight([]);
    } else {
      assert StripRight(" " + why) == " " + why;
      assert (" " + why)[1..] == why;
      StripUnchanged(why);
    }
  }

  /** "Reasoning:" neither starts nor ends with whitespace. */
  lemma LabelIsStripped()
    ensures ReasoningLabel != [] && !IsSpace(ReasoningLabel[0]) && !IsSpace(ReasoningLabel[|ReasoningLabel| - 1])
  {
    assert ReasoningLabel[0] == 'R';
    assert ReasoningLabel[|ReasoningLabel| - 1] == ':';
  }

  /** A tag, a space and a stripped explanation strip down to the
      explanation once the tag is removed. */
  lemma LabelledLine(tag: string, why: string)
    requires tag != [] && !IsSpace(tag[0]) && !IsSpace(tag[|tag| - 1])
    requires why == [] || (!IsSpace(why[0]) && !IsSpace(why[|why| - 1]))
    ensures Strip(RemovePrefix(Strip(tag + " " + why), tag)) == why
  {
    var tail := tag + " " + why;
    assert tail[0] == tag[0];
    if why == [] {
      assert tail[..|tail| - 1] == tag;
      assert StripRight(tail) == StripRight(tag);
      StripUnchanged(tag);
      assert Strip(tail) == tag;
      assert tag[..|tag|] == tag;
      assert RemovePrefix(tag, tag) == [];
    } else {
      assert tail[|tail| - 1] == why[|why| - 1];
      StripUnchanged(tail);
      assert tail[..|tag|] == tag;
      assert RemovePrefix(tail, tag) == " " + why;
      StripLeadingSpace(why);
    }
  }

  /** The reply shape the reasoning request asks for, a judgment line and a
      line starting with "Reasoning:", is taken apart into the two. */
  lemma ReasoningReplyRoundTrip(judgment: string, why: string)
    requires '\n' !in judgment
    requires why == [] || (!IsSpace(why[0]) && !IsSpace(why[|why| - 1]))
    ensures FirstLine(judgment + "\n" + (ReasoningLabel + " " + why)) == judgment
    ensures ExtractReasoning(judgment + "\n" + (ReasoningLabel + " " + why)) == why
  {
    var tail := ReasoningLabel + " " + why;
    var s := judgment + "\n" + tail;
    assert s[|judgment|] == '\n' && s[..|judgment|] == judgment;
    assert IndexOf(s, '\n') == Some(|judgment|);
    assert s[|judgment| + 1..] == tail;
    LabelIsStripped();
    LabelledLine(ReasoningLabel, why);
  }

  // ---------------------------------------------------------------------
  // __init__

  const ApiSuffix: string := "/v1"

  /** `base_url.rstrip("/")`, with "/v1" appended unless already there. */
  function NormalizedBaseUrl(url: string): (r: string)
    ensures EndsWith(r, ApiSuffix)
    ensures StartsWith(r, RStripChar(url, '/'))
    ensures EndsWith(RStripChar(url, '/'), ApiSuffix) ==> r == RStripChar(url, '/')
    ensures !EndsWith(RStripChar(url, '/'), ApiSuffix) ==> r == RStripChar(url, '/') + ApiSuffix
  {
    var stripped := RStripChar(url, '/');
    if EndsWith(stripped, ApiSuffix) then stripped
    else
      assert (stripped + ApiSuffix)[..|stripped|] == stripped;
      assert (stripped + ApiSuffix)[|stripped|..] == ApiSuffix;
      stripped + ApiSuffix
  }

  /** Normalising a normalised URL changes nothing. */
  lemma NormalizedBaseUrlIdempotent(url: string)
    ensures NormalizedBaseUrl(NormalizedBaseUrl(url)) == NormalizedBaseUrl(url)
  {
    var r := NormalizedBaseUrl(url);
    assert r[|r| - 1] == ApiSuffix[2] == '1';
    assert RStripChar(r, '/') == r;
  }

  /** A client: its mode, its timeout, the normalised adapter URL in server
      mode, and its own prompt manager in direct mode.  The vLLM client and
      the output parser of direct mode are not state: the completion is a
      parameter and the parser is a set of functions. */
  class Client {
    var directMode: bool
    var timeout: int
    var baseUrl: Option<string>
    var promptManager: PromptService.PromptManager?

    ghost predicate Valid()
      reads this, promptManager
    {
      (directMode ==> promptManager != null && promptManager.Valid())
      && (!directMode ==> baseUrl.Some? && EndsWith(baseUrl.value, ApiSuffix))
    }

    constructor(directMode: bool, timeout: int, baseUrl: Option<string>, promptManager: PromptService.PromptManager?)
      ensures this.directMode == directMode && this.timeout == timeout
      ensures this.baseUrl == baseUrl && this.promptManager == promptManager
    {
      this.directMode := directMode;
      this.timeout := timeout;
      this.baseUrl := baseUrl;
      this.promptManager := promptManager;
    }

    /** `get_status`, with the adapter's reply as a parameter: refused in
        direct mode, the reply otherwise. */
    method GetStatus(evaluationId: string, reply: map<string, Json>) returns (r: Outcome<map<string, Json>>)
      ensures r.Failure? <==> directMode
      ensures r.Failure? ==> r.error == ValueError("get_status is not available in direct mode")
      ensures r.Success? ==> r.value == reply
    {
      if directMode {
        return Failure(ValueError("get_status is not available in direct mode"));
      }
      r := Success(reply);
    }

    /** `_wait_for_result`, with the replies of the status polls that fit in
        the timeout as a parameter: refused in direct mode, otherwise the
        first settled poll decides. */
    method WaitForResult(evaluationId: string, polls: seq<map<string, Json>>) returns (r: Outcome<map<string, Json>>)
      ensures directMode ==> r == Failure(ValueError("_wait_for_result is not available in direct mode"))
      ensures !directMode ==> r == Settled(polls, timeout)
    {
      if directMode {
        return Failure(ValueError("_wait_for_result is not available in direct mode"));
      }
      var i := 0;
      while i < |polls|
        invariant 0 <= i <= |polls|
        invariant Settled(polls, timeout) == Settled(polls[i..], timeout)
      {
        assert polls[i..][1..] == polls[i + 1..];
        var status := Get(polls[i], "status");
        if status.None? {
          return Failure(KeyError("status"));
        }
        if status.value == JString("COMPLETED") {
          return Success(polls[i]);
        }
        if status.value == JString("FAILED") {
          return Failure(ClientError("Evaluation failed"));
        }
        i := i + 1;
      }
      r := Failure(Timeout(timeout));
    }

    /** `_evaluate_text_direct`, with the content of the completion vLLM
        returns as `completion`.  Returns the chat messages sent and the
        result built from the reply. */
    method EvaluateTextDirect(text: string, criteria: string, templateId: Option<string>,
                              seg: PromptService.SegmentsArg, format: Option<string>, provideReasoning: bool,
                              completion: string, eng: OutputParser.Engines)
      returns (messages: Outcome<seq<ChatMessage>>, r: Outcome<Evaluation>)
      requires Valid() && directMode
      modifies promptManager
      ensures Valid() && promptManager.order == old(promptManager.order)
      ensures Named(templateId) ==>
        messages == PromptService.ComposeSingle(old(promptManager.templates), text, criteria, templateId, seg, format, provideReasoning)
        && promptManager.templates == PromptService.StoreAfter(old(promptManager.templates),
                                                               PromptService.SinglePlan(old(promptManager.templates), templateId, seg))
      ensures !Named(templateId) ==>
        messages == GenericSingleMessages(text, criteria, seg, format, provideReasoning)
        && promptManager.templates == old(promptManager.templates)
      ensures messages.Failure? ==> r == Failure(messages.error)
      ensures messages.Success? ==>
        r == Evaluated(CleanOutput(completion), ParserRules(promptManager.templates, templateId), provideReasoning, false, eng)
    {
      if Named(templateId) {
        messages := promptManager.GenerateSingle(text, criteria, templateId, seg, format, provideReasoning);
      } else {
        messages := GenericSinglePrompt(text, criteria, seg, format, provideReasoning);
      }
      if messages.Failure? {
        return messages, Failure(messages.error);
      }
      var rules := FetchRules(promptManager, templateId);
      r := Interpret(CleanOutput(completion), rules, provideReasoning, false, eng);
    }

    /** `_compare_texts_direct`, in the same terms. */
    method CompareTextsDirect(textA: string, textB: string, criteria: string, templateId: Option<string>,
                              seg: PromptService.SegmentsArg, format: Option<string>, provideReasoning: bool,
                              completion: string, eng: OutputParser.Engines)
      returns (messages: Outcome<seq<ChatMessage>>, r: Outcome<Evaluation>)
      requires Valid() && directMode
      modifies promptManager
      ensures Valid() && promptManager.order == old(promptManager.order)
      ensures Named(templateId) ==>
        messages == PromptService.ComposePairwise(old(promptManager.templates), textA, textB, criteria, templateId,
                                                  seg, format, provideReasoning)
        && promptManager.templates == PromptService.StoreAfter(old(promptManager.templates),
                                                               PromptService.PairwisePlan(old(promptManager.templates), templateId, seg))
      ensures !Named(templateId) ==>
        messages == GenericPairwiseMessages(textA, textB, criteria, seg, format, provideReasoning)
        && promptManager.templates == old(promptManager.templates)
      ensures messages.Failure? ==> r == Failure(messages.error)
      ensures messages.Success? ==>
        r == Evaluated(CleanOutput(completion), ParserRules(promptManager.templates, templateId), provideReasoning, true, eng)
    {
      if Named(templateId) {
        messages := promptManager.GeneratePairwise(textA, textB, criteria, templateId, seg, format, provideReasoning);
      } else {
        messages := GenericPairwisePrompt(textA, textB, criteria, seg, format, provideReasoning);
      }
      if messages.Failure? {
        return messages, Failure(messages.error);
      }
      var rules := FetchRules(promptManager, templateId);
      r := Interpret(CleanOutput(completion), rules, provideReasoning, true, eng);
    }
  }

  /** `VLLMJudgeClient(...)`: direct mode needs a non-empty vLLM API base and
      gets a prompt manager seeded with the default templates; server mode
      needs a base URL and keeps it normalised. */
  method NewClient(baseUrl: Option<string>, timeout: int, directMode: bool, vllmApiBase: Option<string>)
    returns (r: Outcome<Client>)
    ensures r.Failure? <==> (directMode && (vllmApiBase.None? || vllmApiBase.value == "")) || (!directMode && baseUrl.None?)
    ensures r.Failure? ==> r.error.ValueError?
    ensures r.Success? ==> fresh(r.value) && r.value.Valid()
                           && r.value.directMode == directMode && r.value.timeout == timeout
    ensures r.Success? && directMode ==> fresh(r.value.promptManager)
                                         && r.value.promptManager.templates == PromptService.DefaultTemplates()
    ensures r.Success? && !directMode ==> r.value.baseUrl == Some(NormalizedBaseUrl(baseUrl.value))
  {
    if directMode {
      if vllmApiBase.None? || vllmApiBase.value == "" {
        return Failure(ValueError("vllm_api_base is required when using direct mode"));
      }
      var manager := new PromptService.PromptManager();
      var client := new Client(true, timeout, None, manager);
      r := Success(client);
    } else {
      if baseUrl.None? {
        return Failure(ValueError("base_url is required when not using direct mode"));
      }
      var client := new Client(false, timeout, Some(NormalizedBaseUrl(baseUrl.value)), null);
      r := Success(client);
    }
  }

  // ---------------------------------------------------------------------
  // Polling

  /** What one status poll decides, if anything: a missing status raises
      `KeyError`, COMPLETED returns the poll and FAILED raises; any other
      status means polling on. */
  function PollDecision(poll: map<string, Json>): Option<Outcome<map<string, Json>>> {
    match Get(poll, "status")
    case None => Some(Failure(KeyError("status")))
    case Some(s) =>
      if s == JString("COMPLETED") then Some(Success(poll))
      else if s == JString("FAILED") then Some(Failure(ClientError("Evaluation failed")))
      else None
  }

  /** What the status polls decide: the first poll whose status is
      COMPLETED is the result, the first FAILED one an error, and no
      settled poll at all a timeout. */
  function Settled(polls: seq<map<string, Json>>, timeout: int): (r: Outcome<map<string, Json>>)
    ensures r.Success? ==> r.value in polls && Get(r.value, "status") == Some(JString("COMPLETED"))
    ensures r == Failure(Timeout(timeout)) <==>
      forall i :: 0 <= i < |polls| ==> Get(polls[i], "status").Some?
                                       && Get(polls[i], "status").value !in {JString("COMPLETED"), JString("FAILED")}
    ensures forall i :: 0 <= i < |polls| && PollDecision(polls[i]).Some?
                        && (forall j :: 0 <= j < i ==> PollDecision(polls[j]).None?) ==>
      r == PollDecision(polls[i]).value
    ensures r.Failure? && r.error.ClientError? ==>
      exists i :: 0 <= i < |polls| && Get(polls[i], "status") == Some(JString("FAILED"))
  {
    if |polls| == 0 then Failure(Timeout(timeout))
    else if PollDecision(polls[0]).Some? then PollDecision(polls[0]).value
    else
      var rest := Settled(polls[1..], timeout);
      assert forall i :: 1 <= i < |polls| ==> polls[i] == polls[1..][i - 1];
      rest
  }

  // ---------------------------------------------------------------------
  // Generic prompts, used when no template is named

  const EvaluatorSystem: string :=
    "You are an expert " + "evaluator. " + "Your task is to " + "evaluate the provided " + "content " + "based on the given " + "criteria."
  const ComparatorSystem: string :=
    "You are an expert " + "evaluator. " + "Your task is to " + "compare two texts " + "based on the given " + "criteria."
  const SingleHeading: string := "Please evaluate the " + "following content " + "based on these " + "criteria:\n\n"
  const ContentHeading: string := "\n\nContent to " + "evaluate:\n\n"
  const PairwiseHeading: string := "Please compare the " + "following two texts " + "based on these " + "criteria:\n\n"
  const TextAHeading: string := "\n\nText A:\n\n"
  const TextBHeading: string := "\n\nText B:\n\n"
  const ReasoningRequest: string :=
    "\n\nThen, on a new line, " + "explain your " + "reasoning starting " + "with 'Reasoning:'"

  /** `if prompt_template_id:`. */
  predicate Named(templateId: Option<string>) {
    templateId.Some? && templateId.value != ""
  }

  /** `if output_format_instruction:`. */
  predicate HasInstruction(format: Option<string>) {
    format.Some? && format.value != ""
  }

  /** The system message of a generic prompt: a non-empty custom one from a
      non-empty dictionary, else the default.  A `CustomPromptSegments`
      object is truthy but has no `get`. */
  function GenericSystem(seg: PromptService.SegmentsArg, default: string): Outcome<string> {
    match seg
    case NoSegments => Success(default)
    case Typed(_) => Failure(AttributeError("'CustomPromptSegments' object has no attribute 'get'"))
    case Dict(m) =>
      if m != map[] && "system_message" in m && m["system_message"] != "" then Success(m["system_message"])
      else Success(default)
  }

  /** The requests a generic prompt ends with: the reasoning request when
      reasoning is asked for, then the output-format instruction when one
      is given, each after a blank line. */
  function Requests(format: Option<string>, provideReasoning: bool): string {
    (if provideReasoning then ReasoningRequest else "") + (if HasInstruction(format) then "\n\n" + format.value else "")
  }

  function GenericSingleMessages(text: string, criteria: string, seg: PromptService.SegmentsArg,
                                 format: Option<string>, provideReasoning: bool): Outcome<seq<ChatMessage>>
  {
    var system :- GenericSystem(seg, EvaluatorSystem);
    Success([PromptService.ChatMessage("system", JString(system)),
             PromptService.ChatMessage("user", JString(SingleHeading + criteria + ContentHeading + text
                                                       + Requests(format, provideReasoning)))])
  }

  function GenericPairwiseMessages(textA: string, textB: string, criteria: string, seg: PromptService.SegmentsArg,
                                   format: Option<string>, provideReasoning: bool): Outcome<seq<ChatMessage>>
  {
    var system :- GenericSystem(seg, ComparatorSystem);
    Success([PromptService.ChatMessage("system", JString(system)),
             PromptService.ChatMessage("user", JString(PairwiseHeading + criteria + TextAHeading + textA
                                                       + TextBHeading + textB + Requests(format, provideReasoning)))])
  }

  /** The generic single-evaluation prompt of `_evaluate_text_direct`,
      built the way the client grows `user_message`. */
  method GenericSinglePrompt(text: string, criteria: string, seg: PromptService.SegmentsArg,
                             format: Option<string>, provideReasoning: bool) returns (r: Outcome<seq<ChatMessage>>)
    ensures r == GenericSingleMessages(text, criteria, seg, format, provideReasoning)
    ensures r.Failure? <==> seg.Typed?
  {
    var system := EvaluatorSystem;
    if seg.Typed? {
      return Failure(AttributeError("'CustomPromptSegments' object has no attribute 'get'"));
    }
    if seg.Dict? && seg.entries != map[] && "system_message" in seg.entries && seg.entries["system_message"] != "" {
      system := seg.entries["system_message"];
    }
    var user := SingleHeading + criteria + ContentHeading + text;
    var body := user;
    if provideReasoning {
      user := user + ReasoningRequest;
    }
    if HasInstruction(format) {
      user := user + "\n\n" + format.value;
    }
    assert user == body + Requests(format, provideReasoning);
    r := Success([PromptService.ChatMessage("system", JString(system)), PromptService.ChatMessage("user", JString(user))]);
  }

  /** The generic comparison prompt of `_compare_texts_direct`. */
  method GenericPairwisePrompt(textA: string, textB: string, criteria: string, seg: PromptService.SegmentsArg,
                               format: Option<string>, provideReasoning: bool) returns (r: Outcome<seq<ChatMessage>>)
    ensures r == GenericPairwiseMessages(textA, textB, criteria, seg, format, provideReasoning)
    ensures r.Failure? <==> seg.Typed?
  {
    var system := ComparatorSystem;
    if seg.Typed? {
      return Failure(AttributeError("'CustomPromptSegments' object has no attribute 'get'"));
    }
    if seg.Dict? && seg.entries != map[] && "system_message" in seg.entries && seg.entries["system_message"] != "" {
      system := seg.entries["system_message"];
    }
    var user := PairwiseHeading + criteria + TextAHeading + textA + TextBHeading + textB;
    var body := user;
    if provideReasoning {
      user := user + ReasoningRequest;
    }
    if HasInstruction(format) {
      user := user + "\n\n" + format.value;
    }
    assert user == body + Requests(format, provideReasoning);
    r := Success([PromptService.ChatMessage("system", JString(system)), PromptService.ChatMessage("user", JString(user))]);
  }

  /** The system message of a generic prompt is the custom one exactly when
      a non-empty one is supplied in a dictionary. */
  lemma GenericSystemChoice(seg: PromptService.SegmentsArg, default: string)
    requires !seg.Typed?
    ensures GenericSystem(seg, default).Success?
    ensures seg.Dict? && "system_message" in seg.entries && seg.entries["system_message"] != "" ==>
      GenericSystem(seg, default) == Success(seg.entries["system_message"])
    ensures !(seg.Dict? && "system_message" in seg.entries && seg.entries["system_message"] != "") ==>
      GenericSystem(seg, default) == Success(default)
  {
  }

  /** In the generic single prompt the criteria and the text can be read
      back at fixed places, and the user message ends with the format
      instruction when one is given, else with the reasoning request when
      that is asked for. */
  lemma GenericSingleLayout(text: string, criteria: string, seg: PromptService.SegmentsArg,
                            format: Option<string>, provideReasoning: bool)
    requires !seg.Typed?
    ensures GenericSingleMessages(text, criteria, seg, format, provideReasoning).Success?
    ensures var user := GenericSingleMessages(text, criteria, seg, format, provideReasoning).value[1].content.s;
      var k := |SingleHeading| + |criteria| + |ContentHeading|;
      && k + |text| <= |user|
      && user[..|SingleHeading|] == SingleHeading
      && user[|SingleHeading|..|SingleHeading| + |criteria|] == criteria
      && user[k..k + |text|] == text
      && (HasInstruction(format) ==> EndsWith(user, "\n\n" + format.value))
      && (!HasInstruction(format) && provideReasoning ==> EndsWith(user, ReasoningRequest))
      && (!HasInstruction(format) && !provideReasoning ==> user[k..] == text)
  {
    var user := SingleHeading + criteria + ContentHeading + text + Requests(format, provideReasoning);
    var k := |SingleHeading| + |criteria| + |ContentHeading|;
    assert user[..|SingleHeading|] == SingleHeading;
    assert user[|SingleHeading|..|SingleHeading| + |criteria|] == criteria;
    assert user[k..k + |text|] == text;
    RequestsEnd(SingleHeading + criteria + ContentHeading + text, format, provideReasoning);
  }

  /** The same for the generic comparison prompt, with criteria, Text A and
      Text B in that order. */
  lemma GenericPairwiseLayout(textA: string, textB: string, criteria: string, seg: PromptService.SegmentsArg,
                              format: Option<string>, provideReasoning: bool)
    requires !seg.Typed?
    ensures GenericPairwiseMessages(textA, textB, criteria, seg, format, provideReasoning).Success?
    ensures var user := GenericPairwiseMessages(textA, textB, criteria, seg, format, provideReasoning).value[1].content.s;
      var a := |PairwiseHeading| + |criteria| + |TextAHeading|;
      var b := a + |textA| + |TextBHeading|;
      && b + |textB| <= |user|
      && user[..|PairwiseHeading|] == PairwiseHeading
      && user[|PairwiseHeading|..|PairwiseHeading| + |criteria|] == criteria
      && user[a..a + |textA|] == textA
      && user[b..b + |textB|] == textB
      && (HasInstruction(format) ==> EndsWith(user, "\n\n" + format.value))
      && (!HasInstruction(format) && provideReasoning ==> EndsWith(user, ReasoningRequest))
      && (!HasInstruction(format) && !provideReasoning ==> user[b..] == textB)
  {
    var body := PairwiseHeading + criteria + TextAHeading + textA + TextBHeading + textB;
    PiecesAt(PairwiseHeading, criteria, TextAHeading, textA, TextBHeading, textB, Requests(format, provideReasoning));
    RequestsEnd(body, format, provideReasoning);
  }

  /** Where each of six concatenated pieces sits, whatever follows them. */
  lemma PiecesAt(p0: string, p1: string, p2: string, p3: string, p4: string, p5: string, tail: string)
    ensures var u := p0 + p1 + p2 + p3 + p4 + p5 + tail;
      var a := |p0| + |p1| + |p2|;
      var b := a + |p3| + |p4|;
      && b + |p5| <= |u|
      && u[..|p0|] == p0 && u[|p0|..|p0| + |p1|] == p1
      && u[a..a + |p3|] == p3 && u[b..b + |p5|] == p5 && u[b..] == p5 + tail
  {
    var u := p0 + p1 + p2 + p3 + p4 + p5 + tail;
    var a := |p0| + |p1| + |p2|;
    var b := a + |p3| + |p4|;
    assert u[..|p0|] == p0;
    assert u[|p0|..|p0| + |p1|] == p1;
    assert u[a..a + |p3|] == p3;
    assert u[b..] == p5 + tail;
    assert u[b..b + |p5|] == p5;
  }

  /** How a message ends once the requests are appended. */
  lemma RequestsEnd(body: string, format: Option<string>, provideReasoning: bool)
    ensures var user := body + Requests(format, provideReasoning);
      && user[..|body|] == body
      && (HasInstruction(format) ==> EndsWith(user, "\n\n" + format.value))
      && (!HasInstruction(format) && provideReasoning ==> EndsWith(user, ReasoningRequest))
      && (!HasInstruction(format) && !provideReasoning ==> user == body)
  {
    var user := body + Requests(format, provideReasoning);
    assert user[..|body|] == body;
    if HasInstruction(format) {
      var tail := "\n\n" + format.value;
      assert user == (body + (if provideReasoning then ReasoningRequest else "")) + tail;
      assert user[|user| - |tail|..] == tail;
    } else if provideReasoning {
      assert user == body + ReasoningRequest;
      assert user[|user| - |ReasoningRequest|..] == ReasoningRequest;
    }
  }

  // ---------------------------------------------------------------------
  // Reading the reply

  /** The response the direct-mode methods build, in the shape of the
      adapter server's. */
  datatype Evaluation = Evaluation(
    evaluationId: string,
    status: string,
    judgment: Json,
    rawJudgeOutput: string,
    reasoning: Option<string>)

  /** `template.get("output_parser_rules")` for a named template that the
      registry holds, and nothing otherwise. */
  function ParserRules(templates: map<string, PromptService.Template>, templateId: Option<string>): (r: Option<Json>)
    ensures r.Some? ==> Named(templateId) && templateId.value in templates
                        && "output_parser_rules" in templates[templateId.value]
    ensures Named(templateId) && templateId.value in templates ==>
      r == Get(templates[templateId.value], "output_parser_rules")
    ensures !(Named(templateId) && templateId.value in templates) ==> r.None?
  {
    if Named(templateId) && templateId.value in templates then Get(templates[templateId.value], "output_parser_rules")
    else None
  }

  /** The `try: ... get_template(...) ... except Exception: pass` block. */
  method FetchRules(manager: PromptService.PromptManager, templateId: Option<string>) returns (rules: Option<Json>)
    ensures rules == ParserRules(manager.templates, templateId)
  {
    rules := None;
    if Named(templateId) {
      var found := manager.GetTemplate(templateId.value);
      if found.Success? {
        rules := Get(found.value, "output_parser_rules");
      }
    }
  }

  /** What the direct-mode methods make of the cleaned reply: the parser's
      reading when a named template has truthy parser rules; otherwise the
      reply itself, or, when reasoning was asked for, its stripped first
      line with the rest as reasoning.  Every response is a completed
      "direct-mode" evaluation that carries the cleaned reply. */
  function Evaluated(raw: string, rules: Option<Json>, provideReasoning: bool, pairwise: bool,
                     eng: OutputParser.Engines): (r: Outcome<Evaluation>)
    ensures r.Success? ==> r.value.evaluationId == "direct-mode" && r.value.status == "COMPLETED"
                           && r.value.rawJudgeOutput == raw
    ensures r.Failure? ==> rules.Some? && Truthy(rules.value)
    ensures !(rules.Some? && Truthy(rules.value)) && !provideReasoning ==>
      r == Success(Evaluation("direct-mode", "COMPLETED", JString(raw), raw, None))
    ensures !(rules.Some? && Truthy(rules.value)) && provideReasoning ==>
      r == Success(Evaluation("direct-mode", "COMPLETED", JString(Strip(FirstLine(raw))), raw, Some(ExtractReasoning(raw))))
    ensures rules.Some? && Truthy(rules.value) ==>
      var parsed := if pairwise then OutputParser.ParsePairwise(raw, rules.value, provideReasoning, eng)
                    else OutputParser.ParseSingle(raw, rules.value, provideReasoning, eng);
      && (parsed.Failure? ==> r == Failure(parsed.error))
      && (parsed.Success? ==> r.Success? && r.value.judgment == parsed.value.judgment
                              && r.value.reasoning == parsed.value.reasoning)
  {
    if rules.Some? && Truthy(rules.value) then
      var parsed :- if pairwise then OutputParser.ParsePairwise(raw, rules.value, provideReasoning, eng)
                    else OutputParser.ParseSingle(raw, rules.value, provideReasoning, eng);
      Success(Evaluation("direct-mode", "COMPLETED", parsed.judgment, raw, parsed.reasoning))
    else if provideReasoning then
      Success(Evaluation("direct-mode", "COMPLETED", JString(Strip(FirstLine(raw))), raw, Some(ExtractReasoning(raw))))
    else
      Success(Evaluation("direct-mode", "COMPLETED", JString(raw), raw, None))
  }

  /** The judgment/reasoning block of the direct-mode methods. */
  method Interpret(raw: string, rules: Option<Json>, provideReasoning: bool, pairwise: bool,
                   eng: OutputParser.Engines) returns (r: Outcome<Evaluation>)
    ensures r == Evaluated(raw, rules, provideReasoning, pairwise, eng)
  {
    var judgment: Json;
    var reasoning: Option<string>;
    if rules.Some? && Truthy(rules.value) {
      var parsed := if pairwise then OutputParser.ParsePairwise(raw, rules.value, provideReasoning, eng)
                    else OutputParser.ParseSingle(raw, rules.value, provideReasoning, eng);
      if parsed.Failure? {
        return Failure(parsed.error);
      }
      judgment := parsed.value.judgment;
      reasoning := parsed.value.reasoning;
    } else {
      judgment := JString(raw);
      reasoning := None;
      if provideReasoning {
        judgment := JString(Strip(FirstLine(raw)));
        reasoning := Some(ExtractReasoning(raw));
      }
    }
    r := Success(Evaluation("direct-mode", "COMPLETED", judgment, raw, reasoning));
  }

  /** Without parser rules, a reply in the shape the reasoning request asks
      for yields its first line as the judgment and the explanation as the
      reasoning. */
  lemma GenericReasoningReply(judgment: string, why: string, pairwise: bool, eng: OutputParser.Engines)
    requires '\n' !in judgment
    requires judgment == [] || (!IsSpace(judgment[0]) && !IsSpace(judgment[|judgment| - 1]))
    requires why == [] || (!IsSpace(why[0]) && !IsSpace(why[|why| - 1]))
    ensures var raw := judgment + "\n" + (ReasoningLabel + " " + why);
      Evaluated(raw, None, true, pairwise, eng) == Success(Evaluation("direct-mode", "COMPLETED", JString(judgment), raw, Some(why)))
  {
    ReasoningReplyRoundTrip(judgment, why);
    StripUnchanged(judgment);
  }
}
