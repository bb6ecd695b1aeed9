/** The output parser (vllm_judge/services/output_parser.py): it turns the
    judge model's raw completion into a judgment and an optional reasoning,
    trying in turn a JSON document, the template's parser rules and a
    cascade of built-in heuristics. */
module OutputParser {
  import opened Wrappers
  import opened Errors
  import opened Json
  import opened PyStr
  import opened Regex

  /** The two library calls the parser makes on data it does not control:
      `json.loads` (`None` for a `JSONDecodeError`) and `re.search` for a
      caller-supplied pattern. */
  datatype Engines = Engines(loads: string -> Option<Json>, search: SearchEngine)

  /** The returned `{"judgment": ..., "reasoning": ...}`; a judgment of
      Python `None` is `JNull`. */
  datatype Parsed = Parsed(judgment: Json, reasoning: Option<string>)

  // ---------------------------------------------------------------------
  // Reasoning isolation: `re.search(r"Reasoning:(.+?)$", raw, re.DOTALL)`

  const ReasoningMarker: string := "Reasoning:"

  /** The pattern matches at `k`: the marker, then at least one character. */
  predicate MarkerMatchAt(s: string, k: nat) {
    ContainsAt(s, ReasoningMarker, k) && k + |ReasoningMarker| < |s|
  }

  /** Where the search matches: the first occurrence of the marker, provided
      something follows it (a later occurrence has even less after it). */
  function FirstMarker(s: string): (r: Option<nat>)
    ensures r.Some? ==> MarkerMatchAt(s, r.value)
    ensures r.Some? ==> forall i :: 0 <= i < r.value ==> !ContainsAt(s, ReasoningMarker, i)
    ensures r.None? ==> forall i :: 0 <= i < |s| ==> !MarkerMatchAt(s, i)
  {
    var p := (k: nat) => MarkerMatchAt(s, k);
    var r := FindFirst(|s|, 0, p);
    if r.Some? then
      assert forall i :: 0 <= i < r.value ==> !ContainsAt(s, ReasoningMarker, i) by {
        forall i | 0 <= i < r.value ensures !ContainsAt(s, ReasoningMarker, i) {
          assert !p(i);
        }
      }
      r
    else
      assert forall i :: 0 <= i < |s| ==> !MarkerMatchAt(s, i) by {
        forall i | 0 <= i < |s| ensures !MarkerMatchAt(s, i) {
          assert !p(i);
        }
      }
      r
  }

  /** Group 1 of the match at `k`: the lazy `.+?` followed by `$` stops
      before a final newline when it can.  After `strip` the newline makes no
      difference. */
  function ReasoningGroup(s: string, k: nat): (g: string)
    requires MarkerMatchAt(s, k)
    ensures Strip(g) == Strip(s[k + |ReasoningMarker|..])
  {
    var b := k + |ReasoningMarker|;
    if s[|s| - 1] == '\n' && |s| - 1 > b then
      assert s[b..] == s[b..|s| - 1] + ['\n'];
      StripTrailingSpace(s[b..|s| - 1], '\n');
      s[b..|s| - 1]
    else s[b..]
  }

  /** The text left for judging and the reasoning taken out of it. */
  datatype Isolated = Isolated(judgmentText: string, reasoning: Option<string>)

  /** When reasoning was requested, the text after the first `Reasoning:`
      (or, lacking one, after the first line break) becomes the reasoning and
      the text before it the judgment text, both stripped. */
  function IsolateReasoning(raw: string, provideReasoning: bool): (r: Isolated)
    ensures !provideReasoning ==> r == Isolated(raw, None)
    ensures provideReasoning && FirstMarker(raw).Some? ==>
      var k := FirstMarker(raw).value;
      r == Isolated(Strip(raw[..k]), Some(Strip(raw[k + |ReasoningMarker|..])))
    ensures provideReasoning && FirstMarker(raw).None? ==> r == SplitFallback(raw)
  {
    if !provideReasoning then Isolated(raw, None)
    else
      var m := FirstMarker(raw);
      if m.None? then SplitFallback(raw)
      else
        var k := m.value;
        var g := ReasoningGroup(raw, k);
        Isolated(Strip(raw[..k]), Some(Strip(g)))
  }

  /** `lines = raw.split("\n")`: with more than one line, the first is the
      judgment text and the rest, joined back, the reasoning. */
  function SplitFallback(raw: string): (r: Isolated)
    ensures IndexOf(raw, '\n').Some? ==>
      var i := IndexOf(raw, '\n').value;
      r == Isolated(Strip(raw[..i]), Some(Strip(raw[i + 1..])))
    ensures '\n' !in raw ==> r == Isolated(raw, None)
  {
    var lines := Split(raw, '\n');
    SplitAtFirst(raw, '\n');
    if |lines| > 1 then
      var i := IndexOf(raw, '\n').value;
      assert lines[0] == raw[..i] && Join(lines[1..], '\n') == raw[i + 1..];
      Isolated(Strip(lines[0]), Some(Strip(Join(lines[1..], '\n'))))
    else Isolated(raw, None)
  }

  /** A judgment followed by `Reasoning:` and an explanation, the shape the
      prompts ask for, comes apart into the two. */
  lemma ReasoningAfterJudgment(judgment: string, explanation: string)
    requires 'R' !in judgment && |explanation| > 0
    ensures IsolateReasoning(judgment + ReasoningMarker + explanation, true)
         == Isolated(Strip(judgment), Some(Strip(explanation)))
  {
    var s := judgment + ReasoningMarker + explanation;
    var k := |judgment|;
    assert s[k..k + |ReasoningMarker|] == ReasoningMarker;
    assert MarkerMatchAt(s, k);
    forall i | 0 <= i < k ensures !MarkerMatchAt(s, i) {
      assert s[i] == judgment[i];
    }
    assert FirstMarker(s) == Some(k);
    assert s[..k] == judgment;
    assert s[k + |ReasoningMarker|..] == explanation;
  }

  /** After the split on the marker, the judgment text holds no marker. */
  lemma MarkerLeavesJudgmentText(raw: string)
    requires FirstMarker(raw).Some?
    ensures !Contains(IsolateReasoning(raw, true).judgmentText, ReasoningMarker)
  {
    var k := FirstMarker(raw).value;
    var x := Strip(raw[..k]);
    var i := StripIsSlice(raw[..k]);
    forall j | 0 <= j <= |x| - |ReasoningMarker| ensures !ContainsAt(x, ReasoningMarker, j) {
      NoMarkerInPiece(raw, k, i, x, j);
    }
  }

  lemma NoMarkerInPiece(raw: string, k: nat, i: nat, x: string, j: nat)
    requires k <= |raw| && i + |x| <= k && x == raw[..k][i..i + |x|]
    requires j + |ReasoningMarker| <= |x|
    requires forall p :: 0 <= p < k ==> !ContainsAt(raw, ReasoningMarker, p)
    ensures !ContainsAt(x, ReasoningMarker, j)
  {
    SliceOfSlice(raw, k, i, |x|, j, |ReasoningMarker|);
    assert !ContainsAt(raw, ReasoningMarker, i + j);
  }

  lemma SliceOfSlice(s: string, k: nat, i: nat, m: nat, j: nat, n: nat)
    requires k <= |s| && i + m <= k && j + n <= m
    ensures s[..k][i..i + m][j..j + n] == s[i + j..i + j + n]
  {
    var a := s[..k][i..i + m][j..j + n];
    var b := s[i + j..i + j + n];
    forall t | 0 <= t < n ensures a[t] == b[t] {
      assert a[t] == s[..k][i..i + m][j + t] == s[..k][i + j + t];
    }
  }

  // ---------------------------------------------------------------------
  // JSON detection

  /** The judgment text, stripped, looks like an object and `json.loads`
      accepts it. */
  function DetectJson(text: string, loads: string -> Option<Json>): (r: Option<Json>)
    ensures r.Some? ==> StartsWith(Strip(text), "{") && EndsWith(Strip(text), "}")
    ensures r.Some? ==> loads(Strip(text)) == r
  {
    var t := Strip(text);
    if StartsWith(t, "{") && EndsWith(t, "}") then loads(t) else None
  }

  // ---------------------------------------------------------------------
  // Parser rules

  datatype RuleKind = BinaryKind | NumericKind | PreferenceKind | JsonKind | RegexKind | TextKind

  /** `rules.get("type", "text")` compared against the five known names;
      anything else, a non-string included, selects the text rule. */
  function KindOf(rules: map<string, Json>): (k: RuleKind)
    ensures "type" !in rules ==> k == TextKind
    ensures k != TextKind ==> "type" in rules && rules["type"].JString?
  {
    match Get(rules, "type")
    case Some(JString(t)) =>
      if t == "binary" then BinaryKind
      else if t == "numeric" then NumericKind
      else if t == "preference" then PreferenceKind
      else if t == "json" then JsonKind
      else if t == "regex" then RegexKind
      else TextKind
    case _ => TextKind
  }

  /** `d.get(k, default)`. */
  function GetOr(m: map<string, Json>, k: string, default: Json): (r: Json)
    ensures k in m ==> r == m[k]
    ensures k !in m ==> r == default
  {
    if k in m then m[k] else default
  }

  const DefaultPositivePatterns: Json := JArray([JString("yes"), JString("true"), JString("positive")])
  const DefaultNegativePatterns: Json := JArray([JString("no"), JString("false"), JString("negative")])

  /** `for pattern in items: if pattern.lower() in low: return True`: the
      scan stops at the first hit, and an item that is not a string raises
      when the scan reaches it. */
  function ScanItems(items: seq<Json>, low: string): (r: Outcome<bool>)
    ensures r == Success(true) ==>
      exists i :: 0 <= i < |items| && items[i].JString? && Contains(low, Lower(items[i].s))
    ensures r == Success(false) <==>
      forall i :: 0 <= i < |items| ==> items[i].JString? && !Contains(low, Lower(items[i].s))
    ensures (forall i :: 0 <= i < |items| ==> items[i].JString?) ==> r.Success?
  {
    if |items| == 0 then Success(false)
    else match items[0]
      case JString(p) =>
        if Contains(low, Lower(p)) then Success(true)
        else
          var rest := ScanItems(items[1..], low);
          assert forall i :: 1 <= i < |items| ==> items[i] == items[1..][i - 1];
          rest
      case _ => Failure(AttributeError("object has no attribute 'lower'"))
  }

  /** The `for` loop over a pattern list of any JSON type: a string is
      iterated character by character, an object by its keys (whose order
      does not matter, as they are all strings); anything else is not
      iterable. */
  function ScanPatterns(patterns: Json, low: string): (r: Outcome<bool>)
    ensures patterns.JString? || patterns.JObject? ==> r.Success?
    ensures !(patterns.JArray? || patterns.JString? || patterns.JObject?) ==> r.Failure?
    ensures patterns.JObject? ==> (r == Success(true) <==> exists k :: k in patterns.fields && Contains(low, Lower(k)))
    ensures patterns.JString? ==> (r == Success(true) <==> exists c :: c in patterns.s && LowerChar(c) in low)
  {
    match patterns
    case JArray(items) => ScanItems(items, low)
    case JString(cs) => Success(exists c :: c in cs && LowerChar(c) in low)
    case JObject(m) => Success(exists k :: k in m && Contains(low, Lower(k)))
    case _ => Failure(TypeError("object is not iterable"))
  }

  /** The binary rule: `True` when a positive pattern occurs in the lowered
      text, else `False` when a negative one does, else `None`. */
  function BinaryRule(text: string, rules: map<string, Json>): (r: Outcome<Json>)
    ensures r.Success? ==> r.value in {JBool(true), JBool(false), JNull}
    ensures r == Success(JBool(true)) <==>
      ScanPatterns(GetOr(rules, "positive_patterns", DefaultPositivePatterns), Lower(text)) == Success(true)
    ensures var p := ScanPatterns(GetOr(rules, "positive_patterns", DefaultPositivePatterns), Lower(text));
      var n := ScanPatterns(GetOr(rules, "negative_patterns", DefaultNegativePatterns), Lower(text));
      && (r == Success(JBool(false)) <==> p == Success(false) && n == Success(true))
      && (r == Success(JNull) <==> p == Success(false) && n == Success(false))
      && (r.Failure? <==> p.Failure? || (p == Success(false) && n.Failure?))
  {
    var low := Lower(text);
    var pos := GetOr(rules, "positive_patterns", DefaultPositivePatterns);
    var neg := GetOr(rules, "negative_patterns", DefaultNegativePatterns);
    var p :- ScanPatterns(pos, low);
    if p then Success(JBool(true))
    else
      var n :- ScanPatterns(neg, low);
      Success(if n then JBool(false) else JNull)
  }

  const PatternTypeError: Error := TypeError("first argument must be string or compiled pattern")

  /** The numeric rule: the first group of the first match of `pattern`
      (default `\b([1-5])\b`) read with `int()`, `None` when there is no
      match or `int()` refuses it. */
  function NumericRule(text: string, rules: map<string, Json>, eng: Engines): (r: Outcome<Json>)
    ensures r.Success? ==> r.value.JNull? || (r.value.JNumber? && r.value.n.Floor as real == r.value.n)
    ensures var pj := GetOr(rules, "pattern", JString(DefaultNumericPattern));
      && (!pj.JString? ==> r == Failure(PatternTypeError))
      && (pj.JString? && Search(eng.search, pj.s, text, false).NoMatch? ==> r == Success(JNull))
      && (pj.JString? && Search(eng.search, pj.s, text, false).BadPattern? ==> r == Failure(PatternError(pj.s)))
    ensures var pj := GetOr(rules, "pattern", JString(DefaultNumericPattern));
      pj.JString? && Search(eng.search, pj.s, text, false).Found?
      && |Search(eng.search, pj.s, text, false).groups| > 0
      && Search(eng.search, pj.s, text, false).groups[0].Some? ==>
        var g := Search(eng.search, pj.s, text, false).groups[0].value;
        r == Success(if ParseInt(g).Some? then JNumber(ParseInt(g).value as real) else JNull)
  {
    var pj := GetOr(rules, "pattern", JString(DefaultNumericPattern));
    if !pj.JString? then Failure(PatternTypeError)
    else match Search(eng.search, pj.s, text, false)
      case BadPattern => Failure(PatternError(pj.s))
      case NoMatch => Success(JNull)
      case Found(_, groups) =>
        if |groups| == 0 then Failure(IndexError("no such group"))
        else match groups[0]
          case None => Failure(TypeError("int() argument must be a string, not 'NoneType'"))
          case Some(g) =>
            match ParseInt(g)
            case None => Success(JNull)
            case Some(n) => Success(JNumber(n as real))
  }

  /** `\b(?:equal|same|tie|equivalent)\b` occurs, in any letter case. */
  predicate HasEqualWord(text: string) {
    exists k :: 0 <= k < |text| && AltMatchAt(text, k, EqualWords).Some?
  }

  /** The preference rule: the upper-cased first group of the first
      case-insensitive match of `pattern`; without a match, `"EQUAL"` when an
      equality word occurs, else `None`. */
  function PreferenceRule(text: string, rules: map<string, Json>, eng: Engines): (r: Outcome<Json>)
    ensures r.Success? && r.value.JString? ==> forall i :: 0 <= i < |r.value.s| ==> !('a' <= r.value.s[i] <= 'z')
    ensures var pj := GetOr(rules, "pattern", JString(DefaultPreferencePattern));
      && (!pj.JString? ==> r == Failure(PatternTypeError))
      && (pj.JString? && Search(eng.search, pj.s, text, true).NoMatch? ==>
            r == Success(if HasEqualWord(text) then JString("EQUAL") else JNull))
      && (pj.JString? && Search(eng.search, pj.s, text, true).BadPattern? ==> r == Failure(PatternError(pj.s)))
    ensures var pj := GetOr(rules, "pattern", JString(DefaultPreferencePattern));
      pj.JString? && Search(eng.search, pj.s, text, true).Found?
      && |Search(eng.search, pj.s, text, true).groups| > 0
      && Search(eng.search, pj.s, text, true).groups[0].Some? ==>
        r == Success(JString(Upper(Search(eng.search, pj.s, text, true).groups[0].value)))
  {
    var pj := GetOr(rules, "pattern", JString(DefaultPreferencePattern));
    if !pj.JString? then Failure(PatternTypeError)
    else match Search(eng.search, pj.s, text, true)
      case BadPattern => Failure(PatternError(pj.s))
      case NoMatch =>
        EqualHasNoLowerCase();
        Success(if HasEqualWord(text) then JString("EQUAL") else JNull)
      case Found(_, groups) =>
        if |groups| == 0 then Failure(IndexError("no such group"))
        else match groups[0]
          case None => Failure(AttributeError("'NoneType' object has no attribute 'upper'"))
          case Some(g) => UpperHasNoLowerCase(g); Success(JString(Upper(g)))
  }

  lemma EqualHasNoLowerCase()
    ensures forall i :: 0 <= i < |"EQUAL"| ==> !('a' <= "EQUAL"[i] <= 'z')
  {
  }

  lemma UpperHasNoLowerCase(g: string)
    ensures forall i :: 0 <= i < |Upper(g)| ==> !('a' <= Upper(g)[i] <= 'z')
  {
  }

  /** The regex rule: the first group of the first match of `pattern`
      (default empty), or the whole match when the pattern has no group. */
  function RegexRule(text: string, rules: map<string, Json>, eng: Engines): (r: Outcome<Json>)
    ensures r.Success? ==> r.value.JNull? || r.value.JString?
    ensures var pj := GetOr(rules, "pattern", JString(""));
      && (!pj.JString? ==> r == Failure(PatternTypeError))
      && (pj.JString? && Search(eng.search, pj.s, text, false).NoMatch? ==> r == Success(JNull))
      && (pj.JString? && Search(eng.search, pj.s, text, false).BadPattern? ==> r == Failure(PatternError(pj.s)))
    ensures var pj := GetOr(rules, "pattern", JString(""));
      pj.JString? && Search(eng.search, pj.s, text, false).Found? ==>
        var m := Search(eng.search, pj.s, text, false);
        r == Success(if |m.groups| == 0 then JString(m.whole)
                     else if m.groups[0].Some? then JString(m.groups[0].value) else JNull)
  {
    var pj := GetOr(rules, "pattern", JString(""));
    if !pj.JString? then Failure(PatternTypeError)
    else match Search(eng.search, pj.s, text, false)
      case BadPattern => Failure(PatternError(pj.s))
      case NoMatch => Success(JNull)
      case Found(whole, groups) =>
        if |groups| > 0 then
          Success(match groups[0] case None => JNull case Some(g) => JString(g))
        else Success(JString(whole))
  }

  /** `_apply_parser_rules`: `rules.get` needs a dictionary; then the rule
      named by `type` runs.  Only the JSON and text rules cannot fail. */
  function ApplyRules(text: string, rules: Json, eng: Engines): (r: Outcome<Json>)
    ensures !rules.JObject? ==> r.Failure?
    ensures rules.JObject? && KindOf(rules.fields) == TextKind ==> r == Success(JString(Strip(text)))
    ensures rules.JObject? && KindOf(rules.fields) == JsonKind ==>
      r == Success(match eng.loads(text) case None => JNull case Some(v) => v)
    ensures r.Failure? ==> !rules.JObject? || KindOf(rules.fields) in {BinaryKind, NumericKind, PreferenceKind, RegexKind}
  {
    if !rules.JObject? then Failure(AttributeError("object has no attribute 'get'"))
    else
      var m := rules.fields;
      match KindOf(m)
      case BinaryKind => BinaryRule(text, m)
      case NumericKind => NumericRule(text, m, eng)
      case PreferenceKind => PreferenceRule(text, m, eng)
      case JsonKind => Success(match eng.loads(text) case None => JNull case Some(v) => v)
      case RegexKind => RegexRule(text, m, eng)
      case TextKind => Success(JString(Strip(text)))
  }

  // ---------------------------------------------------------------------
  // Built-in heuristics for a single evaluation

  const PositiveTerms: seq<string> :=
    ["yes", "true", "positive", "correct", "acceptable", "safe", "allow", "allowed", "approve", "approved"]
  const NegativeTerms: seq<string> :=
    ["no", "false", "negative", "incorrect", "unacceptable", "unsafe", "deny", "denied", "reject", "rejected"]

  /** `for term in terms[i..]: if term in low or term == low: ...`: the index
      of the first term found.  The equality test adds nothing to `in`. */
  function FirstContained(terms: seq<string>, low: string, i: nat): (r: Option<nat>)
    requires i <= |terms|
    ensures r.Some? ==> i <= r.value < |terms| && Contains(low, terms[r.value])
    ensures r.Some? ==> forall j :: i <= j < r.value ==> !Contains(low, terms[j])
    ensures r.None? ==> forall j :: i <= j < |terms| ==> !Contains(low, terms[j])
    decreases |terms| - i
  {
    if i == |terms| then None
    else if Contains(low, terms[i]) || terms[i] == low then
      assert terms[i] == low ==> ContainsAt(low, terms[i], 0);
      Some(i)
    else FirstContained(terms, low, i + 1)
  }

  /** The scan from the first term finds one exactly when some term is contained. */
  lemma FirstContainedFinds(terms: seq<string>, low: string)
    ensures FirstContained(terms, low, 0).Some? <==> exists j :: 0 <= j < |terms| && Contains(low, terms[j])
  {
  }

  /** `_parse_binary_classification`: a positive term anywhere in the
      lowered, stripped text wins over any negative term. */
  function GenericBinary(text: string): (r: Option<bool>)
    ensures var low := Strip(Lower(text));
      r == Some(true) <==> exists j :: 0 <= j < |PositiveTerms| && Contains(low, PositiveTerms[j])
    ensures var low := Strip(Lower(text));
      r == Some(false) <==> ((forall j :: 0 <= j < |PositiveTerms| ==> !Contains(low, PositiveTerms[j]))
                             && exists j :: 0 <= j < |NegativeTerms| && Contains(low, NegativeTerms[j]))
  {
    var low := Strip(Lower(text));
    FirstContainedFinds(PositiveTerms, low);
    FirstContainedFinds(NegativeTerms, low);
    if FirstContained(PositiveTerms, low, 0).Some? then Some(true)
    else if FirstContained(NegativeTerms, low, 0).Some? then Some(false)
    else None
  }

  /** The fallback cascade: the binary terms, then the first standalone
      integer, then the stripped text itself. */
  function GenericJudgment(text: string): (r: Json)
    ensures r.JBool? <==> GenericBinary(text).Some?
    ensures r.JBool? ==> r.b == GenericBinary(text).value
    ensures r.JNumber? <==> GenericBinary(text).None? && FirstInteger(text).Some?
    ensures r.JNumber? ==> r.n == FirstInteger(text).value as real
    ensures r.JString? ==> r.s == Strip(text) && forall k :: 0 <= k < |text| ==> !IntegerAt(text, k)
    ensures r.JBool? || r.JNumber? || r.JString?
  {
    match GenericBinary(text)
    case Some(b) => JBool(b)
    case None =>
      match FirstInteger(text)
      case Some(n) => JNumber(n as real)
      case None => JString(Strip(text))
  }

  /** `parse_single_evaluation`.  The template id it receives is not used. */
  function ParseSingle(raw: string, rules: Json, provideReasoning: bool, eng: Engines): (r: Outcome<Parsed>)
    ensures r.Success? ==> r.value.reasoning == IsolateReasoning(raw, provideReasoning).reasoning
    ensures !Truthy(rules) ==> r.Success?
    ensures var iso := IsolateReasoning(raw, provideReasoning);
      !Truthy(rules) && DetectJson(iso.judgmentText, eng.loads).None? ==>
        r == Success(Parsed(GenericJudgment(iso.judgmentText), iso.reasoning))
    ensures r.Failure? ==> rules.JObject? ==> KindOf(rules.fields) in {BinaryKind, NumericKind, PreferenceKind, RegexKind}
  {
    var iso := IsolateReasoning(raw, provideReasoning);
    var text := iso.judgmentText;
    match DetectJson(text, eng.loads)
    case Some(v) => Success(Parsed(v, iso.reasoning))
    case None =>
      var fromRules :- if Truthy(rules) then ApplyRules(text, rules, eng) else Success(JNull);
      Success(Parsed(if fromRules.JNull? then GenericJudgment(text) else fromRules, iso.reasoning))
  }

  // ---------------------------------------------------------------------
  // Pairwise comparison

  const PreferenceKeys: seq<string> := ["preference", "preferred_text", "better"]

  /** The first of `keys[i..]` present in `m`. */
  function FirstPresent(m: map<string, Json>, keys: seq<string>, i: nat): (r: Option<nat>)
    requires i <= |keys|
    ensures r.Some? ==> i <= r.value < |keys| && keys[r.value] in m
    ensures r.Some? ==> forall j :: i <= j < r.value ==> keys[j] !in m
    ensures r.None? ==> forall j :: i <= j < |keys| ==> keys[j] !in m
    decreases |keys| - i
  {
    if i == |keys| then None
    else if keys[i] in m then Some(i)
    else FirstPresent(m, keys, i + 1)
  }

  /** The preference read from a JSON document: the value of the first of
      `preference`, `preferred_text`, `better` it has, else the document.
      The `in` test also runs on a list (membership) and on a string
      (substring), and the lookup that follows a hit raises; on any other
      value `in` itself raises. */
  function JsonPreference(v: Json): (r: Outcome<Json>)
    ensures v.JObject? ==> r.Success?
    ensures v.JObject? && "preference" in v.fields ==> r == Success(v.fields["preference"])
    ensures v.JObject? && "preference" !in v.fields && "preferred_text" in v.fields ==>
      r == Success(v.fields["preferred_text"])
    ensures v.JObject? && "preference" !in v.fields && "preferred_text" !in v.fields && "better" in v.fields ==>
      r == Success(v.fields["better"])
    ensures v.JObject? && (forall j :: 0 <= j < |PreferenceKeys| ==> PreferenceKeys[j] !in v.fields) ==> r.value == v
    ensures r.Failure? ==> !v.JObject?
  {
    match v
    case JObject(m) =>
      (match FirstPresent(m, PreferenceKeys, 0)
       case Some(j) => Success(m[PreferenceKeys[j]])
       case None => Success(v))
    case JArray(items) =>
      if exists j :: 0 <= j < |PreferenceKeys| && JString(PreferenceKeys[j]) in items
      then Failure(TypeError("list indices must be integers or slices, not str"))
      else Success(v)
    case JString(s) =>
      if exists j :: 0 <= j < |PreferenceKeys| && Contains(s, PreferenceKeys[j])
      then Failure(TypeError("string indices must be integers"))
      else Success(v)
    case _ => Failure(TypeError("argument is not iterable"))
  }

  /** The mention-count heuristic on the counts of A, B and equality
      mentions: equality words win ties with the letters, then the letter
      mentioned more often, then whichever letter occurs at all (A first). */
  function Verdict(a: nat, b: nat, e: nat, low: string): (r: string)
    ensures r == "A" || r == "B" || r == "EQUAL"
    ensures r == "EQUAL" <==> (e > 0 && e >= a && e >= b) || (a == b && 'a' !in low && 'b' !in low)
    ensures r == "A" <==> !(e > 0 && e >= a && e >= b) && (a > b || (a == b && 'a' in low))
    ensures r == "B" <==> !(e > 0 && e >= a && e >= b) && (b > a || (a == b && 'a' !in low && 'b' in low))
  {
    if e > 0 && e >= a && e >= b then "EQUAL"
    else if a > b then "A"
    else if b > a then "B"
    else if 'a' in low then "A"
    else if 'b' in low then "B"
    else "EQUAL"
  }

  /** The fallback for pairwise outputs: count the `findall` matches of the
      A, B and equality patterns in the lowered text and weigh them. */
  function PairwiseHeuristic(text: string): (r: string)
    ensures r == "A" || r == "B" || r == "EQUAL"
  {
    var low := Lower(text);
    assert forall i :: 0 <= i < 3 ==> |AAlternatives[i]| > 0 && |BAlternatives[i]| > 0;
    assert forall i :: 0 <= i < 4 ==> |EqualWords[i]| > 0;
    Verdict(CountMatches(low, 0, AAlternatives), CountMatches(low, 0, BAlternatives),
            CountMatches(low, 0, EqualWords), low)
  }

  /** The A and B counts of the heuristic are the numbers of standalone
      words `a` and `b` in the text. */
  lemma HeuristicCountsLetterWords(text: string)
    ensures var low := Lower(text);
      PairwiseHeuristic(text)
      == Verdict(CountWord(low, 0, "a"), CountWord(low, 0, "b"), CountMatches(low, 0, EqualWords), low)
  {
    var low := Lower(text);
    LetterAlternativesHold();
    LetterCountIsWordCount(low, 0, AAlternatives, 'a');
    LetterCountIsWordCount(low, 0, BAlternatives, 'b');
  }

  /** A word that never stands alone counts zero. */
  lemma {:induction false} CountWordZero(s: string, k: nat, w: string)
    requires forall i :: k <= i < |s| ==> !WordAt(s, i, w)
    ensures CountWord(s, k, w) == 0
    decreases |s| - k
  {
    if k < |s| {
      CountWordZero(s, k + 1, w);
    }
  }

  /** Text with neither letter a nor b yields `EQUAL`. */
  lemma HeuristicWithoutLetters(text: string)
    requires forall i :: 0 <= i < |text| ==> LowerChar(text[i]) != 'a' && LowerChar(text[i]) != 'b'
    ensures PairwiseHeuristic(text) == "EQUAL"
  {
    var low := Lower(text);
    HeuristicCountsLetterWords(text);
    forall i | 0 <= i < |low| ensures !WordAt(low, i, "a") && !WordAt(low, i, "b") {
      if i + 1 <= |low| {
        assert Lower(low[i..i + 1])[0] == LowerChar(low[i]);
      }
    }
    CountWordZero(low, 0, "a");
    CountWordZero(low, 0, "b");
  }

  /** `parse_pairwise_comparison`.  The template id it receives is not used. */
  function ParsePairwise(raw: string, rules: Json, provideReasoning: bool, eng: Engines): (r: Outcome<Parsed>)
    ensures r.Success? ==> r.value.reasoning == IsolateReasoning(raw, provideReasoning).reasoning
    ensures var text := IsolateReasoning(raw, provideReasoning).judgmentText;
      !Truthy(rules) && DetectJson(text, eng.loads).None? ==>
        r.Success? && r.value.judgment in {JString("A"), JString("B"), JString("EQUAL")}
    ensures var text := IsolateReasoning(raw, provideReasoning).judgmentText;
      r.Failure? ==> ((DetectJson(text, eng.loads).Some? && !DetectJson(text, eng.loads).value.JObject?)
        || (Truthy(rules) && (rules.JObject? ==> KindOf(rules.fields) in {BinaryKind, NumericKind, PreferenceKind, RegexKind})))
  {
    var iso := IsolateReasoning(raw, provideReasoning);
    var text := iso.judgmentText;
    match DetectJson(text, eng.loads)
    case Some(v) =>
      var p :- JsonPreference(v);
      Success(Parsed(p, iso.reasoning))
    case None =>
      var fromRules :- if Truthy(rules) then ApplyRules(text, rules, eng) else Success(JNull);
      Success(Parsed(if fromRules.JNull? then JString(PairwiseHeuristic(text)) else fromRules, iso.reasoning))
  }

  // ---------------------------------------------------------------------
  // Properties of the parse

  /** A reply that is not a JSON document and mentions A more often than B,
      with fewer equality words than A mentions, is read as `A`. */
  lemma MoreAMentionsPreferA(raw: string, eng: Engines)
    requires DetectJson(raw, eng.loads).None?
    requires CountWord(Lower(raw), 0, "b") < CountWord(Lower(raw), 0, "a")
    requires CountMatches(Lower(raw), 0, EqualWords) < CountWord(Lower(raw), 0, "a")
    ensures ParsePairwise(raw, JNull, false, eng) == Success(Parsed(JString("A"), None))
  {
    HeuristicCountsLetterWords(raw);
  }

  /** Once the output is a JSON document the rules play no part. */
  lemma JsonIgnoresRules(raw: string, rules1: Json, rules2: Json, provideReasoning: bool, eng: Engines)
    requires DetectJson(IsolateReasoning(raw, provideReasoning).judgmentText, eng.loads).Some?
    ensures ParseSingle(raw, rules1, provideReasoning, eng) == ParseSingle(raw, rules2, provideReasoning, eng)
    ensures ParseSingle(raw, rules1, provideReasoning, eng).Success?
    ensures ParsePairwise(raw, rules1, provideReasoning, eng) == ParsePairwise(raw, rules2, provideReasoning, eng)
  {
  }

  /** A single-evaluation reply that is a JSON document yields the loaded
      value as the judgment, whatever the rules. */
  lemma SingleJsonReply(raw: string, rules: Json, provideReasoning: bool, eng: Engines)
    ensures var iso := IsolateReasoning(raw, provideReasoning);
      var json := DetectJson(iso.judgmentText, eng.loads);
      json.Some? ==> ParseSingle(raw, rules, provideReasoning, eng) == Success(Parsed(json.value, iso.reasoning))
  {
  }

  /** Otherwise a rule result other than `None` is the judgment, a rule
      failure passes through, and a `None` result falls back to the generic
      cascade; so off JSON the judgment is never `None`. */
  lemma SingleRuleCascade(raw: string, rules: Json, provideReasoning: bool, eng: Engines)
    ensures var iso := IsolateReasoning(raw, provideReasoning);
      var fromRules := ApplyRules(iso.judgmentText, rules, eng);
      var r := ParseSingle(raw, rules, provideReasoning, eng);
      DetectJson(iso.judgmentText, eng.loads).None? && Truthy(rules) ==>
        && (fromRules.Failure? ==> r == Failure(fromRules.error))
        && (fromRules.Success? && !fromRules.value.JNull? ==> r == Success(Parsed(fromRules.value, iso.reasoning)))
        && (fromRules == Success(JNull) ==> r == Success(Parsed(GenericJudgment(iso.judgmentText), iso.reasoning)))
    ensures var r := ParseSingle(raw, rules, provideReasoning, eng);
      DetectJson(IsolateReasoning(raw, provideReasoning).judgmentText, eng.loads).None? && r.Success? ==>
        !r.value.judgment.JNull?
  {
    var iso := IsolateReasoning(raw, provideReasoning);
    var text := iso.judgmentText;
    if DetectJson(text, eng.loads).None? {
      var g := GenericJudgment(text);
      assert !g.JNull?;
      if Truthy(rules) {
        var fromRules := ApplyRules(text, rules, eng);
        if fromRules.Success? && fromRules.value.JNull? {
          assert ParseSingle(raw, rules, provideReasoning, eng) == Success(Parsed(g, iso.reasoning));
        }
      } else {
        assert ParseSingle(raw, rules, provideReasoning, eng) == Success(Parsed(g, iso.reasoning));
      }
    }
  }

  /** A pairwise reply that is a JSON document yields the preference read
      from it, or the error reading it raises, whatever the rules. */
  lemma PairwiseJsonReply(raw: string, rules: Json, provideReasoning: bool, eng: Engines)
    ensures var iso := IsolateReasoning(raw, provideReasoning);
      var json := DetectJson(iso.judgmentText, eng.loads);
      var r := ParsePairwise(raw, rules, provideReasoning, eng);
      json.Some? ==>
        && (JsonPreference(json.value).Success? ==> r == Success(Parsed(JsonPreference(json.value).value, iso.reasoning)))
        && (JsonPreference(json.value).Failure? ==> r == Failure(JsonPreference(json.value).error))
  {
  }

  /** Otherwise a rule result other than `None` is the judgment, a rule
      failure passes through, and a `None` result or falsy rules leave the
      verdict to the mention-count heuristic. */
  lemma PairwiseRuleCascade(raw: string, rules: Json, provideReasoning: bool, eng: Engines)
    ensures var iso := IsolateReasoning(raw, provideReasoning);
      var fromRules := ApplyRules(iso.judgmentText, rules, eng);
      var r := ParsePairwise(raw, rules, provideReasoning, eng);
      DetectJson(iso.judgmentText, eng.loads).None? && Truthy(rules) ==>
        && (fromRules.Failure? ==> r == Failure(fromRules.error))
        && (fromRules.Success? && !fromRules.value.JNull? ==> r == Success(Parsed(fromRules.value, iso.reasoning)))
        && (fromRules == Success(JNull) ==>
              r == Success(Parsed(JString(PairwiseHeuristic(iso.judgmentText)), iso.reasoning)))
    ensures var iso := IsolateReasoning(raw, provideReasoning);
      DetectJson(iso.judgmentText, eng.loads).None? && !Truthy(rules) ==>
        ParsePairwise(raw, rules, provideReasoning, eng)
        == Success(Parsed(JString(PairwiseHeuristic(iso.judgmentText)), iso.reasoning))
  {
  }

  /** A pairwise reply that is a JSON object naming a preference yields that
      preference, whatever the rules. */
  lemma PairwiseJsonPreference(raw: string, rules: Json, provideReasoning: bool, eng: Engines, m: map<string, Json>)
    requires DetectJson(IsolateReasoning(raw, provideReasoning).judgmentText, eng.loads) == Some(JObject(m))
    requires "preference" in m
    ensures ParsePairwise(raw, rules, provideReasoning, eng)
         == Success(Parsed(m["preference"], IsolateReasoning(raw, provideReasoning).reasoning))
  {
    assert JsonPreference(JObject(m)) == Success(m["preference"]);
  }

  /** An empty rules dictionary, like none at all, leaves the heuristics in
      charge. */
  lemma FalsyRulesIgnored(raw: string, rules: Json, provideReasoning: bool, eng: Engines)
    requires !Truthy(rules)
    ensures ParseSingle(raw, rules, provideReasoning, eng) == ParseSingle(raw, JNull, provideReasoning, eng)
    ensures ParsePairwise(raw, rules, provideReasoning, eng) == ParsePairwise(raw, JNull, provideReasoning, eng)
  {
  }

  /** Rules without a known `type` return the stripped judgment text, so the
      heuristics never run. */
  lemma TextRuleSkipsHeuristics(raw: string, rules: map<string, Json>, provideReasoning: bool, eng: Engines)
    requires rules != map[] && KindOf(rules) == TextKind
    requires DetectJson(IsolateReasoning(raw, provideReasoning).judgmentText, eng.loads).None?
    ensures var text := IsolateReasoning(raw, provideReasoning).judgmentText;
      ParseSingle(raw, JObject(rules), provideReasoning, eng) == Success(Parsed(JString(Strip(text)), IsolateReasoning(raw, provideReasoning).reasoning))
      && ParsePairwise(raw, JObject(rules), provideReasoning, eng) == Success(Parsed(JString(Strip(text)), IsolateReasoning(raw, provideReasoning).reasoning))
  {
    var iso := IsolateReasoning(raw, provideReasoning);
    TextRuleResult(iso.judgmentText, rules, eng);
    TextRuleSingle(raw, rules, provideReasoning, eng, iso);
    TextRulePairwise(raw, rules, provideReasoning, eng, iso);
  }

  lemma TextRuleResult(text: string, rules: map<string, Json>, eng: Engines)
    requires rules != map[] && KindOf(rules) == TextKind
    ensures Truthy(JObject(rules)) && ApplyRules(text, JObject(rules), eng) == Success(JString(Strip(text)))
  {
  }

  lemma TextRuleSingle(raw: string, rules: map<string, Json>, provideReasoning: bool, eng: Engines, iso: Isolated)
    requires iso == IsolateReasoning(raw, provideReasoning)
    requires DetectJson(iso.judgmentText, eng.loads).None?
    requires Truthy(JObject(rules)) && ApplyRules(iso.judgmentText, JObject(rules), eng) == Success(JString(Strip(iso.judgmentText)))
    ensures ParseSingle(raw, JObject(rules), provideReasoning, eng) == Success(Parsed(JString(Strip(iso.judgmentText)), iso.reasoning))
  {
  }

  lemma TextRulePairwise(raw: string, rules: map<string, Json>, provideReasoning: bool, eng: Engines, iso: Isolated)
    requires iso == IsolateReasoning(raw, provideReasoning)
    requires DetectJson(iso.judgmentText, eng.loads).None?
    requires Truthy(JObject(rules)) && ApplyRules(iso.judgmentText, JObject(rules), eng) == Success(JString(Strip(iso.judgmentText)))
    ensures ParsePairwise(raw, JObject(rules), provideReasoning, eng) == Success(Parsed(JString(Strip(iso.judgmentText)), iso.reasoning))
  {
  }

  /** With pattern lists of strings the binary rule cannot fail: `True` when
      a positive pattern occurs in the lowered text, else `False` when a
      negative one does, else `None`. */
  lemma BinaryRuleOnStringLists(text: string, rules: map<string, Json>, pos: seq<Json>, neg: seq<Json>)
    requires GetOr(rules, "positive_patterns", DefaultPositivePatterns) == JArray(pos)
    requires GetOr(rules, "negative_patterns", DefaultNegativePatterns) == JArray(neg)
    requires forall i :: 0 <= i < |pos| ==> pos[i].JString?
    requires forall i :: 0 <= i < |neg| ==> neg[i].JString?
    ensures var low := Lower(text);
      BinaryRule(text, rules) == Success(
        if exists i :: 0 <= i < |pos| && Contains(low, Lower(pos[i].s)) then JBool(true)
        else if exists i :: 0 <= i < |neg| && Contains(low, Lower(neg[i].s)) then JBool(false)
        else JNull)
  {
  }

  /** With the default binary rule the lowered text is searched for `yes`,
      `true`, `positive`, then for `no`, `false`, `negative`. */
  lemma DefaultBinaryRule(text: string, eng: Engines)
    ensures var low := Lower(text);
      var pos := Contains(low, "yes") || Contains(low, "true") || Contains(low, "positive");
      var neg := Contains(low, "no") || Contains(low, "false") || Contains(low, "negative");
      ApplyRules(text, JObject(map["type" := JString("binary")]), eng)
      == Success(if pos then JBool(true) else if neg then JBool(false) else JNull)
  {
    var low := Lower(text);
    var m := map["type" := JString("binary")];
    RuleKeysDistinct();
    DefaultPatternsLowerCase();
    assert KindOf(m) == BinaryKind;
    assert GetOr(m, "positive_patterns", DefaultPositivePatterns) == DefaultPositivePatterns;
    assert GetOr(m, "negative_patterns", DefaultNegativePatterns) == DefaultNegativePatterns;
    DefaultListScan(low, DefaultPositivePatterns, "yes", "true", "positive");
    DefaultListScan(low, DefaultNegativePatterns, "no", "false", "negative");
  }

  /** The default binary patterns are already in lower case. */
  lemma DefaultPatternsLowerCase()
    ensures Lower("yes") == "yes" && Lower("true") == "true" && Lower("positive") == "positive"
    ensures Lower("no") == "no" && Lower("false") == "false" && Lower("negative") == "negative"
  {
  }

  /** The keys a rule dictionary is read with differ from `type` (they
      differ in length). */
  lemma RuleKeysDistinct()
    ensures "positive_patterns" != "type" && "negative_patterns" != "type" && "pattern" != "type"
  {
    assert |"positive_patterns"| == 17 && |"negative_patterns"| == 17 && |"pattern"| == 7 && |"type"| == 4;
  }

  lemma DefaultListScan(low: string, patterns: Json, p0: string, p1: string, p2: string)
    requires patterns == JArray([JString(p0), JString(p1), JString(p2)])
    requires Lower(p0) == p0 && Lower(p1) == p1 && Lower(p2) == p2
    ensures ScanPatterns(patterns, low)
         == Success(Contains(low, p0) || Contains(low, p1) || Contains(low, p2))
  {
    var items := patterns.items;
    assert items[1..] == [JString(p1), JString(p2)];
    assert items[1..][1..] == [JString(p2)];
    assert items[1..][1..][1..] == [];
    assert ScanItems([], low) == Success(false);
    assert ScanItems([JString(p2)], low) == Success(Contains(low, p2));
    assert ScanItems([JString(p1), JString(p2)], low) == Success(Contains(low, p1) || Contains(low, p2));
  }

  /** With the default numeric rule the judgment is the first standalone
      digit 1 to 5, or `None`. */
  lemma DefaultNumericRule(text: string, eng: Engines)
    ensures var r := ApplyRules(text, JObject(map["type" := JString("numeric")]), eng);
      match FirstRating(text)
      case None => r == Success(JNull)
      case Some(k) => r == Success(JNumber(DigitValue(text[k]) as real)) && 1 <= DigitValue(text[k]) <= 5
  {
    NumericDispatch(text, eng);
    match FirstRating(text)
    case None =>
    case Some(k) =>
      OneDigitParses(text[k]);
  }

  /** The rule kind names differ (their lengths are 6, 7 and 10), and so do
      the two built-in patterns. */
  lemma KindNamesDistinct()
    ensures "numeric" != "binary" && "preference" != "binary" && "preference" != "numeric"
    ensures DefaultPreferencePattern != DefaultNumericPattern
  {
    assert |"binary"| == 6 && |"numeric"| == 7 && |"preference"| == 10;
    assert |DefaultNumericPattern| == 11;
  }

  /** The default numeric rule searches for the first rating and converts it. */
  lemma NumericDispatch(text: string, eng: Engines)
    ensures ApplyRules(text, JObject(map["type" := JString("numeric")]), eng)
      == match FirstRating(text)
         case None => Success(JNull)
         case Some(k) => match ParseInt([text[k]]) case None => Success(JNull) case Some(n) => Success(JNumber(n as real))
  {
    var m := map["type" := JString("numeric")];
    KindNamesDistinct();
    RuleKeysDistinct();
    assert KindOf(m) == NumericKind;
    assert GetOr(m, "pattern", JString(DefaultNumericPattern)) == JString(DefaultNumericPattern);
  }

  /** The default preference rule upper-cases the letter the built-in
      preference search captures. */
  lemma PreferenceDispatch(text: string, eng: Engines)
    ensures ApplyRules(text, JObject(map["type" := JString("preference")]), eng)
      == match PreferenceSearch(text)
         case Found(_, groups) => Success(JString(Upper(groups[0].value)))
         case _ => Success(if HasEqualWord(text) then JString("EQUAL") else JNull)
  {
    var m := map["type" := JString("preference")];
    KindNamesDistinct();
    RuleKeysDistinct();
    assert KindOf(m) == PreferenceKind;
    assert GetOr(m, "pattern", JString(DefaultPreferencePattern)) == JString(DefaultPreferencePattern);
  }

  /** `int(c)` of one digit character is its value. */
  lemma OneDigitParses(c: char)
    requires IsDigit(c)
    ensures ParseInt([c]) == Some(DigitValue(c) as int)
  {
    StripUnchanged([c]);
    RemoveUnderscoresNone([c]);
    assert DigitGroups([c]);
    assert DigitsValue([c]) == DigitValue(c);
  }

  /** With the default preference rule the judgment is the first letter a or
      b of the text, upper-cased; failing that `EQUAL` if an equality word
      occurs, else `None`. */
  lemma DefaultPreferenceRule(text: string, eng: Engines)
    ensures var r := ApplyRules(text, JObject(map["type" := JString("preference")]), eng);
      (forall i :: 0 <= i < |text| ==> !IsAB(text[i])) ==>
        r == Success(if HasEqualWord(text) then JString("EQUAL") else JNull)
    ensures var r := ApplyRules(text, JObject(map["type" := JString("preference")]), eng);
      forall q :: 0 <= q < |text| && IsAB(text[q]) && (forall i :: 0 <= i < q ==> !IsAB(text[i])) ==>
        r == Success(JString([UpperChar(text[q])]))
  {
    PreferenceDispatch(text, eng);
    PreferenceSearchFindsFirstLetter(text);
    forall q | 0 <= q < |text| && IsAB(text[q]) && (forall i :: 0 <= i < q ==> !IsAB(text[i]))
      ensures ApplyRules(text, JObject(map["type" := JString("preference")]), eng)
              == Success(JString([UpperChar(text[q])]))
    {
      var q' :| 0 <= q' < |text| && IsAB(text[q']) && (forall i :: 0 <= i < q' ==> !IsAB(text[i]))
        && PreferenceSearch(text).groups == [Some([text[q']])];
      assert q' == q;
      assert Upper([text[q]]) == [UpperChar(text[q])];
    }
  }

  /** An answer that opens with the word `yes`, in any letter case, and
      does not end in whitespace is read as the judgment `True`. */
  lemma YesAnswerIsTrue(t: string, eng: Engines)
    requires |t| >= 3 && LowerChar(t[0]) == 'y' && LowerChar(t[1]) == 'e' && LowerChar(t[2]) == 's'
    requires 'A' <= t[|t| - 1] <= 'Z' || 'a' <= t[|t| - 1] <= 'z'
    ensures ParseSingle(t, JNull, false, eng) == Success(Parsed(JBool(true), None))
  {
    YesOpening(t);
    NoBraceStart(t);
    assert GenericJudgment(t) == JBool(true);
  }

  lemma YesOpening(t: string)
    requires |t| >= 3 && LowerChar(t[0]) == 'y' && LowerChar(t[1]) == 'e' && LowerChar(t[2]) == 's'
    requires 'A' <= t[|t| - 1] <= 'Z' || 'a' <= t[|t| - 1] <= 'z'
    ensures Strip(t) == t && t[0] != '{' && Contains(Strip(Lower(t)), PositiveTerms[0])
  {
    LowerFromLetter(t[0]);
    LetterIsNoSpace(t[0]);
    LetterIsNoSpace(t[|t| - 1]);
    StripUnchanged(t);
    var low := Lower(t);
    LetterIsNoSpace(low[0]);
    LetterIsNoSpace(low[|low| - 1]);
    StripUnchanged(low);
    LowerOpensYes(t);
    FirstPositiveTerm();
  }

  /** A character that lowers to a lower-case letter is a letter. */
  lemma LowerFromLetter(c: char)
    requires 'a' <= LowerChar(c) <= 'z'
    ensures 'A' <= c <= 'Z' || 'a' <= c <= 'z'
  {
  }

  /** A letter is neither whitespace nor a brace, and lowers to a letter. */
  lemma LetterIsNoSpace(c: char)
    requires 'A' <= c <= 'Z' || 'a' <= c <= 'z'
    ensures !IsSpace(c) && c != '{' && 'a' <= LowerChar(c) <= 'z'
  {
  }

  lemma FirstPositiveTerm()
    ensures PositiveTerms[0] == "yes"
  {
  }

  /** A text whose first character is not `{` does not start with `{`. */
  lemma NoBraceStart(t: string)
    requires |t| > 0 && t[0] != '{'
    ensures !StartsWith(t, "{")
  {
    assert t[..1] == [t[0]];
  }

  /** An answer that begins `Yes` is read as the judgment `True`. */
  lemma ExampleYes(eng: Engines)
    ensures ParseSingle("Yes, this is correct", JNull, false, eng) == Success(Parsed(JBool(true), None))
  {
    var t := "Yes, this is correct";
    assert |t| == 20 && t[0] == 'Y' && t[1] == 'e' && t[2] == 's' && t[19] == 't';
    YesAnswerIsTrue(t, eng);
  }

  /** The binary rule with the pattern lists `["yes"]` and `["no"]`. */
  const YesNoRule: map<string, Json> :=
    map["type" := JString("binary"),
        "positive_patterns" := JArray([JString("yes")]),
        "negative_patterns" := JArray([JString("no")])]

  /** Under the `yes`/`no` binary rule an answer that opens with `yes`, in
      any letter case, and ends in a letter is read as `True`. */
  lemma YesAnswerUnderYesNoRule(t: string, eng: Engines)
    requires |t| >= 3 && LowerChar(t[0]) == 'y' && LowerChar(t[1]) == 'e' && LowerChar(t[2]) == 's'
    requires 'A' <= t[|t| - 1] <= 'Z' || 'a' <= t[|t| - 1] <= 'z'
    ensures ParseSingle(t, JObject(YesNoRule), false, eng) == Success(Parsed(JBool(true), None))
  {
    YesOpening(t);
    NoBraceStart(t);
    LowerOpensYes(t);
    YesNoRuleFindsYes(t, eng);
    SingleRuleCascade(t, JObject(YesNoRule), false, eng);
  }

  lemma LowerOpensYes(t: string)
    requires |t| >= 3 && LowerChar(t[0]) == 'y' && LowerChar(t[1]) == 'e' && LowerChar(t[2]) == 's'
    ensures Contains(Lower(t), "yes")
  {
    assert Lower(t)[..3] == "yes";
    assert ContainsAt(Lower(t), "yes", 0);
  }

  /** The `yes`/`no` rule finds `yes` in any text that contains it once
      lowered. */
  lemma YesNoRuleFindsYes(text: string, eng: Engines)
    requires Contains(Lower(text), "yes")
    ensures Truthy(JObject(YesNoRule))
    ensures ApplyRules(text, JObject(YesNoRule), eng) == Success(JBool(true))
  {
    assert "type" in YesNoRule;
    RuleKeysDistinct();
    assert KindOf(YesNoRule) == BinaryKind;
    BinaryRuleOnStringLists(text, YesNoRule, [JString("yes")], [JString("no")]);
    DefaultPatternsLowerCase();
  }

  /** The binary rule with the patterns `yes` and `no` reads an answer that
      begins `Yes` as `True`. */
  lemma ExampleYesRule(eng: Engines)
    ensures ParseSingle("Yes, this is correct", JObject(YesNoRule), false, eng) == Success(Parsed(JBool(true), None))
  {
    var t := "Yes, this is correct";
    assert |t| == 20 && t[0] == 'Y' && t[1] == 'e' && t[2] == 's' && t[19] == 't';
    YesAnswerUnderYesNoRule(t, eng);
  }

  /** `safe` is a positive term and a substring of `unsafe`, so the binary
      heuristic reads `unsafe` as `True`. */
  lemma UnsafeReadsAsPositive()
    ensures GenericBinary("unsafe") == Some(true)
  {
    UnsafeLowered();
    assert ContainsAt("unsafe", "safe", 2);
    assert PositiveTerms[5] == "safe";
  }

  lemma UnsafeLowered()
    ensures Strip(Lower("unsafe")) == "unsafe"
  {
    assert Lower("unsafe") == "unsafe";
    StripUnchanged("unsafe");
  }
}
