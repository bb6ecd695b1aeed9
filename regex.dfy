/** The regular expressions the output parser hard-codes, written out as
    scanners over ASCII text, and the dispatch that sends every other
    (caller-supplied) pattern to a regex engine given as a parameter.

    Hard-coded patterns:
      `\b(\d+)\b`                                    first standalone integer
      `\b([1-5])\b`                                  default numeric rule
      `(?:(?:Text|Option|Response)\s*)?([AB])`       default preference rule
      `\b(?:a|text a|option a)\b` (and the `b` one)  pairwise A/B mentions
      `\b(?:equal|same|tie|equivalent)\b`             pairwise EQUAL mentions */
module Regex {
  import opened Wrappers
  import opened PyStr

  // ---------------------------------------------------------------------
  // Character classes and `\b`

  /** `\w` restricted to ASCII. */
  predicate IsWordChar(c: char) {
    ('a' <= c <= 'z') || ('A' <= c <= 'Z') || IsDigit(c) || c == '_'
  }

  /** `\b` at position `k` of `s`. */
  predicate Boundary(s: string, k: nat)
    requires k <= |s|
  {
    (k > 0 && IsWordChar(s[k - 1])) != (k < |s| && IsWordChar(s[k]))
  }

  /** The leftmost position in `[k, n)` satisfying `p`: how `re.search` picks
      the match it returns. */
  function FindFirst(n: nat, k: nat, p: nat -> bool): (r: Option<nat>)
    requires k <= n
    ensures r.Some? ==> k <= r.value < n && p(r.value)
    ensures r.Some? ==> forall i :: k <= i < r.value ==> !p(i)
    ensures r.None? ==> forall i :: k <= i < n ==> !p(i)
    decreases n - k
  {
    if k == n then None
    else if p(k) then Some(k)
    else FindFirst(n, k + 1, p)
  }

  // ---------------------------------------------------------------------
  // `\b(\d+)\b`: the first standalone integer

  /** The end of the run of digits starting at `k`. */
  function DigitRunEnd(s: string, k: nat): (e: nat)
    requires k <= |s|
    ensures k <= e <= |s|
    ensures forall i :: k <= i < e ==> IsDigit(s[i])
    ensures e < |s| ==> !IsDigit(s[e])
    decreases |s| - k
  {
    if k < |s| && IsDigit(s[k]) then DigitRunEnd(s, k + 1) else k
  }

  /** `\b(\d+)\b` matches at `k`: the greedy `\d+` takes the whole run, and a
      shorter run would end between two digits, where `\b` fails. */
  predicate IntegerAt(s: string, k: nat) {
    k < |s| && IsDigit(s[k]) && Boundary(s, k) && Boundary(s, DigitRunEnd(s, k))
  }

  /** `re.findall(r"\b(\d+)\b", s)[0]` as an integer, if there is a match. */
  function FirstInteger(s: string): (r: Option<nat>)
    ensures r.None? <==> forall k :: 0 <= k < |s| ==> !IntegerAt(s, k)
    ensures r.Some? ==> exists k :: (0 <= k < |s| && IntegerAt(s, k)
      && (forall i :: 0 <= i < k ==> !IntegerAt(s, i))
      && r.value == DigitsValue(s[k..DigitRunEnd(s, k)]))
  {
    var p := (k: nat) => IntegerAt(s, k);
    match FindFirst(|s|, 0, p)
    case None =>
      assert forall k :: 0 <= k < |s| ==> !IntegerAt(s, k) by {
        forall k | 0 <= k < |s| ensures !IntegerAt(s, k) {
          assert !p(k);
        }
      }
      None
    case Some(k) =>
      assert !p(k) == !IntegerAt(s, k);
      assert forall i :: 0 <= i < k ==> !IntegerAt(s, i) by {
        forall i | 0 <= i < k ensures !IntegerAt(s, i) {
          assert !p(i);
        }
      }
      Some(DigitsValue(s[k..DigitRunEnd(s, k)]))
  }

  // ---------------------------------------------------------------------
  // `\b([1-5])\b`

  predicate RatingAt(s: string, k: nat) {
    k < |s| && '1' <= s[k] <= '5' && Boundary(s, k) && Boundary(s, k + 1)
  }

  // ---------------------------------------------------------------------
  // `(?:(?:Text|Option|Response)\s*)?([AB])` under re.IGNORECASE

  predicate IsAB(c: char) { c == 'a' || c == 'A' || c == 'b' || c == 'B' }

  /** The end of the run of whitespace (`\s`) starting at `k`. */
  function SpaceRunEnd(s: string, k: nat): (e: nat)
    requires k <= |s|
    ensures k <= e <= |s|
    ensures forall i :: k <= i < e ==> IsSpace(s[i])
    ensures e < |s| ==> !IsSpace(s[e])
    decreases |s| - k
  {
    if k < |s| && IsSpace(s[k]) then SpaceRunEnd(s, k + 1) else k
  }

  /** Case-insensitive occurrence of the lower-case word `w` at `k`. */
  predicate IWordAt(s: string, k: nat, w: string) {
    k + |w| <= |s| && Lower(s[k..k + |w|]) == w
  }

  /** No character of `w` is a/b, so a case-insensitive occurrence of `w`
      holds no a/A/b/B. */
  lemma NoLetterInWord(s: string, k: nat, w: string)
    requires IWordAt(s, k, w)
    requires forall c :: c in w ==> c != 'a' && c != 'b'
    ensures forall i :: k <= i < k + |w| ==> !IsAB(s[i])
  {
    forall i | k <= i < k + |w| ensures !IsAB(s[i]) {
      assert Lower(s[k..k + |w|])[i - k] == w[i - k];
      assert w[i - k] in w;
    }
  }

  /** The end of the word `Text`, `Option` or `Response` (tried in that
      order) when one occurs at `k`. */
  function PrefixEnd(s: string, k: nat): (r: Option<nat>)
    ensures r.Some? ==> k < r.value <= |s| && forall i :: k <= i < r.value ==> !IsAB(s[i])
  {
    if IWordAt(s, k, "text") then
      NoLetterInWord(s, k, "text");
      Some(k + 4)
    else if IWordAt(s, k, "option") then
      NoLetterInWord(s, k, "option");
      Some(k + 6)
    else if IWordAt(s, k, "response") then
      NoLetterInWord(s, k, "response");
      Some(k + 8)
    else None
  }

  /** The optional `(?:Text|Option|Response)\s*` group followed by the
      letter: the position of that letter. */
  function PrefixedLetterAt(s: string, k: nat): (r: Option<nat>)
    ensures r.Some? ==> k < r.value < |s| && IsAB(s[r.value])
    ensures r.Some? ==> forall i :: k <= i < r.value ==> !IsAB(s[i])
  {
    match PrefixEnd(s, k)
    case None => None
    case Some(p) =>
      var e := SpaceRunEnd(s, p);
      if e < |s| && IsAB(s[e]) then Some(e) else None
  }

  /** Where the captured letter of a match at `k` lies, if the pattern matches
      at `k`: the optional group is tried first, then the bare letter. */
  function PreferenceLetterAt(s: string, k: nat): (r: Option<nat>)
    ensures r.Some? ==> k <= r.value < |s| && IsAB(s[r.value])
    ensures r.Some? ==> forall i :: k <= i < r.value ==> !IsAB(s[i])
  {
    match PrefixedLetterAt(s, k)
    case Some(e) => Some(e)
    case None => if k < |s| && IsAB(s[k]) then Some(k) else None
  }

  // ---------------------------------------------------------------------
  // `re.search` over a pattern

  /** What `re.search` yields: a pattern that does not compile (`re.error`),
      no match, or a match with its text and its numbered groups
      (`None` for a group that did not take part). */
  datatype SearchOutcome =
    | BadPattern
    | NoMatch
    | Found(whole: string, groups: seq<Option<string>>)

  /** The regex engine for patterns the model does not interpret:
      `(pattern, text, ignore_case)`. */
  type SearchEngine = (string, string, bool) -> SearchOutcome

  const DefaultNumericPattern: string := "\\b([1-5])\\b"
  const DefaultPreferencePattern: string := "(?:(?:Text|Option|Response)\\s*)?([AB])"

  /** Where `\b([1-5])\b` first matches. */
  function FirstRating(s: string): (r: Option<nat>)
    ensures r.Some? ==> r.value < |s| && RatingAt(s, r.value)
    ensures r.Some? ==> forall i :: 0 <= i < r.value ==> !RatingAt(s, i)
    ensures r.None? ==> forall i :: 0 <= i < |s| ==> !RatingAt(s, i)
  {
    var p := (k: nat) => RatingAt(s, k);
    var r := FindFirst(|s|, 0, p);
    assert forall i :: 0 <= i < |s| && !p(i) ==> !RatingAt(s, i);
    r
  }

  function RatingSearch(s: string): (r: SearchOutcome)
    ensures r.Found? ==> |r.groups| == 1 && r.groups[0].Some?
  {
    match FirstRating(s)
    case None => NoMatch
    case Some(k) => Found([s[k]], [Some([s[k]])])
  }

  function PreferenceSearch(s: string): (r: SearchOutcome)
    ensures r.Found? ==> |r.groups| == 1 && r.groups[0].Some?
  {
    match FindFirst(|s|, 0, (k: nat) => PreferenceLetterAt(s, k).Some?)
    case None => NoMatch
    case Some(k) =>
      var e := PreferenceLetterAt(s, k).value;
      Found(s[k..e + 1], [Some([s[e]])])
  }

  /** `re.search(pattern, text, flags)`: the hard-coded patterns and the
      empty pattern are scanned here, anything else goes to `engine`. */
  function Search(engine: SearchEngine, pattern: string, text: string, ignoreCase: bool): SearchOutcome {
    if pattern == DefaultNumericPattern && !ignoreCase then RatingSearch(text)
    else if pattern == DefaultPreferencePattern && ignoreCase then PreferenceSearch(text)
    else if pattern == "" then Found("", [])
    else engine(pattern, text, ignoreCase)
  }

  /** With the default preference pattern the captured letter is the first
      a/A/b/B of the text: none of the prefixes contains either letter, so a
      prefixed match can only end at that same letter. */
  lemma PreferenceSearchFindsFirstLetter(s: string)
    ensures PreferenceSearch(s).NoMatch? <==> forall i :: 0 <= i < |s| ==> !IsAB(s[i])
    ensures PreferenceSearch(s).Found? ==>
      exists q :: 0 <= q < |s| && IsAB(s[q]) && (forall i :: 0 <= i < q ==> !IsAB(s[i]))
        && PreferenceSearch(s).groups == [Some([s[q]])]
  {
    var p := (k: nat) => PreferenceLetterAt(s, k).Some?;
    match FindFirst(|s|, 0, p)
    case None =>
      forall i | 0 <= i < |s| ensures !IsAB(s[i]) {
        assert !p(i);
      }
    case Some(k) =>
      var e := PreferenceLetterAt(s, k).value;
      forall i | 0 <= i < e ensures !IsAB(s[i]) {
        if i < k {
          assert !p(i);
        }
      }
  }

  // ---------------------------------------------------------------------
  // `re.findall` counts for the pairwise heuristic

  /** An alternative of a `(?:…)` group; the patterns here have no empty one. */
  type Alternative = w: string | |w| > 0 witness "a"

  const AAlternatives: seq<Alternative> := ["a", "text a", "option a"]
  const BAlternatives: seq<Alternative> := ["b", "text b", "option b"]
  const EqualWords: seq<Alternative> := ["equal", "same", "tie", "equivalent"]

  /** `\b(?:w)\b` matches the word `w` at `k`, case-insensitively. */
  predicate WordAt(s: string, k: nat, w: string) {
    IWordAt(s, k, w) && Boundary(s, k) && Boundary(s, k + |w|)
  }

  /** The length of the first alternative of `\b(?:alts)\b` matching at `k`
      (none of the alternatives is empty, so a match is never empty). */
  function AltMatchAt(s: string, k: nat, alts: seq<string>): (r: Option<nat>)
    ensures r.Some? ==> exists i :: (0 <= i < |alts| && WordAt(s, k, alts[i]) && r.value == |alts[i]|
      && forall j :: 0 <= j < i ==> !WordAt(s, k, alts[j]))
    ensures r.None? ==> forall i :: 0 <= i < |alts| ==> !WordAt(s, k, alts[i])
  {
    if |alts| == 0 then None
    else if WordAt(s, k, alts[0]) then Some(|alts[0]|)
    else match AltMatchAt(s, k, alts[1..])
      case None => None
      case Some(n) =>
        assert forall i :: 0 <= i < |alts[1..]| ==> alts[1..][i] == alts[i + 1];
        Some(n)
  }

  /** `len(re.findall(...))` from position `k` on: after a match the scan
      resumes where it ended. */
  function CountMatches(s: string, k: nat, alts: seq<string>): nat
    requires forall i :: 0 <= i < |alts| ==> |alts[i]| > 0
    decreases |s| - k
  {
    if k >= |s| then 0
    else match AltMatchAt(s, k, alts)
      case Some(n) => 1 + CountMatches(s, k + n, alts)
      case None => CountMatches(s, k + 1, alts)
  }

  /** Reference count: the positions from `k` on where the word `w` stands
      on its own. */
  function CountWord(s: string, k: nat, w: string): nat
    decreases |s| - k
  {
    if k >= |s| then 0
    else (if WordAt(s, k, w) then 1 else 0) + CountWord(s, k + 1, w)
  }

  lemma {:induction false} CountWordSkip(s: string, k: nat, j: nat, w: string)
    requires k <= j
    requires forall i :: k <= i < j ==> !WordAt(s, i, w)
    ensures CountWord(s, k, w) == CountWord(s, j, w)
    decreases j - k
  {
    if k < j && k < |s| {
      CountWordSkip(s, k + 1, j, w);
    } else if k < j {
      CountWordSkipEnd(s, k, j, w);
    }
  }

  lemma {:induction false} CountWordSkipEnd(s: string, k: nat, j: nat, w: string)
    requires |s| <= k <= j
    ensures CountWord(s, k, w) == 0 && CountWord(s, j, w) == 0
  {
  }

  /** The alternatives for one letter `c`: the letter alone, `text c`, `option c`. */
  predicate LetterAlternatives(alts: seq<string>, c: char) {
    c in "ab" && alts == [[c], "text " + [c], "option " + [c]]
  }

  lemma LetterAlternativesHold()
    ensures LetterAlternatives(AAlternatives, 'a') && LetterAlternatives(BAlternatives, 'b')
  {
    assert "text " + ['a'] == "text a" && "option " + ['a'] == "option a";
    assert "text " + ['b'] == "text b" && "option " + ['b'] == "option b";
  }

  /** Counting the mentions of the A pattern (or the B pattern) counts the
      standalone one-letter words `a` (resp. `b`): a `text a` or `option a`
      match takes the place of the `a` it ends with. */
  lemma {:induction false} LetterCountIsWordCount(s: string, k: nat, alts: seq<string>, c: char)
    requires LetterAlternatives(alts, c)
    ensures CountMatches(s, k, alts) == CountWord(s, k, [c])
    decreases |s| - k
  {
    if k < |s| {
      var m := AltMatchAt(s, k, alts);
      if WordAt(s, k, alts[0]) {
        assert m == Some(1);
        LetterCountIsWordCount(s, k + 1, alts, c);
      } else if m.None? {
        LetterCountIsWordCount(s, k + 1, alts, c);
      } else {
        var w := if WordAt(s, k, alts[1]) then alts[1] else alts[2];
        AltMatchOfLetter(s, k, alts, c);
        PrefixedMatchStep(s, k, w, c);
        LetterCountIsWordCount(s, k + |w|, alts, c);
      }
    }
  }

  /** When the bare letter does not match at `k`, a match of the letter's
      alternatives is a `text c` or `option c` match, and it guards what
      the counter adds. */
  lemma AltMatchOfLetter(s: string, k: nat, alts: seq<string>, c: char)
    requires LetterAlternatives(alts, c) && k < |s|
    requires !WordAt(s, k, alts[0]) && AltMatchAt(s, k, alts).Some?
    ensures WordAt(s, k, alts[1]) || WordAt(s, k, alts[2])
    ensures var w := if WordAt(s, k, alts[1]) then alts[1] else alts[2];
      CountMatches(s, k, alts) == 1 + CountMatches(s, k + |w|, alts)
  {
    assert alts[1..][0] == alts[1] && alts[1..][1..] == [alts[2]];
  }

  /** A `text c` or `option c` match at `k` stands for exactly one bare
      `c` before the position where the scan resumes. */
  lemma PrefixedMatchStep(s: string, k: nat, w: string, c: char)
    requires c in "ab" && (w == "text " + [c] || w == "option " + [c])
    requires WordAt(s, k, w)
    ensures k + |w| <= |s|
    ensures CountWord(s, k, [c]) == 1 + CountWord(s, k + |w|, [c])
  {
    PrefixedLetterWord(s, k, w, c);
    CountWordSkip(s, k, k + |w| - 1, [c]);
  }

  /** A `text c` or `option c` match at `k` holds no standalone `c` except
      its last character, which is one. */
  lemma PrefixedLetterWord(s: string, k: nat, w: string, c: char)
    requires c in "ab" && (w == "text " + [c] || w == "option " + [c])
    requires WordAt(s, k, w)
    ensures forall i :: k <= i < k + |w| - 1 ==> !WordAt(s, i, [c])
    ensures WordAt(s, k + |w| - 1, [c])
  {
    forall i | k <= i < k + |w| - 1 ensures !WordAt(s, i, [c]) {
      InnerCharNotLetter(s, k, w, c, i);
    }
    LastCharIsLetter(s, k, w, c);
  }

  lemma InnerCharNotLetter(s: string, k: nat, w: string, c: char, i: nat)
    requires c in "ab" && (w == "text " + [c] || w == "option " + [c])
    requires IWordAt(s, k, w) && k <= i < k + |w| - 1
    ensures !IWordAt(s, i, [c])
  {
    assert LowerChar(s[i]) == Lower(s[k..k + |w|])[i - k] == w[i - k] != c;
    assert s[i..i + 1] == [s[i]];
  }

  lemma LastCharIsLetter(s: string, k: nat, w: string, c: char)
    requires c in "ab" && (w == "text " + [c] || w == "option " + [c])
    requires WordAt(s, k, w)
    ensures WordAt(s, k + |w| - 1, [c])
  {
    PhraseEnd(w, c);
    LastCharOfWord(s, k, w, c);
  }

  lemma PhraseEnd(w: string, c: char)
    requires c in "ab" && (w == "text " + [c] || w == "option " + [c])
    ensures |w| >= 2 && w[|w| - 1] == c && w[|w| - 2] == ' ' && 'a' <= c <= 'z'
  {
  }

  /** A word ending in a space and a letter ends with that letter as a word
      of its own. */
  lemma LastCharOfWord(s: string, k: nat, w: string, c: char)
    requires |w| >= 2 && w[|w| - 1] == c && w[|w| - 2] == ' ' && 'a' <= c <= 'z'
    requires WordAt(s, k, w)
    ensures WordAt(s, k + |w| - 1, [c])
  {
    var L := |w|;
    assert LowerChar(s[k + L - 1]) == Lower(s[k..k + L])[L - 1] == c;
    assert LowerChar(s[k + L - 2]) == Lower(s[k..k + L])[L - 2] == ' ';
    assert s[k + L - 1..k + L] == [s[k + L - 1]];
  }

  // ---------------------------------------------------------------------
  // Counting over a text cut into runs of word and non-word characters

  /** The pieces put back together. */
  function Concat(ps: seq<string>): string {
    if |ps| == 0 then [] else ps[0] + Concat(ps[1..])
  }

  /** A non-empty run of word characters (`\w`), checked one character at
      a time so that it evaluates on a literal. */
  predicate WordRun(y: string) {
    |y| > 0 && IsWordChar(y[0]) && (|y| == 1 || WordRun(y[1..]))
  }

  /** A non-empty run of other characters. */
  predicate OtherRun(y: string) {
    |y| > 0 && !IsWordChar(y[0]) && (|y| == 1 || OtherRun(y[1..]))
  }

  /** The same two notions stated over every position. */
  predicate IsWord(y: string) {
    |y| > 0 && forall i :: 0 <= i < |y| ==> IsWordChar(y[i])
  }

  predicate IsGap(y: string) {
    |y| > 0 && forall i :: 0 <= i < |y| ==> !IsWordChar(y[i])
  }

  /** A run of one kind, as `word` says. */
  predicate IsRun(y: string, word: bool) {
    if word then IsWord(y) else IsGap(y)
  }

  /** The pieces alternate between word runs and other runs, starting with
      a word run when `word` holds: each word is a piece of its own. */
  predicate Runs(ps: seq<string>, word: bool) {
    |ps| == 0 || ((if word then WordRun(ps[0]) else OtherRun(ps[0])) && Runs(ps[1..], !word))
  }

  /** How many pieces are one of `alts`. */
  function Occurrences(ps: seq<string>, alts: seq<string>): nat {
    if |ps| == 0 then 0 else (if ps[0] in alts then 1 else 0) + Occurrences(ps[1..], alts)
  }

  lemma {:induction false} WordRunChars(y: string)
    requires WordRun(y)
    ensures IsWord(y)
  {
    if |y| > 1 {
      WordRunChars(y[1..]);
      assert forall i :: 1 <= i < |y| ==> y[i] == y[1..][i - 1];
    }
  }

  lemma {:induction false} OtherRunChars(y: string)
    requires OtherRun(y)
    ensures IsGap(y)
  {
    if |y| > 1 {
      OtherRunChars(y[1..]);
      assert forall i :: 1 <= i < |y| ==> y[i] == y[1..][i - 1];
    }
  }

  /** In lower-case text a case-insensitive word is the word itself. */
  lemma LowerTextSlice(s: string, i: nat, j: nat)
    requires i <= j <= |s| && Lower(s) == s
    ensures Lower(s[i..j]) == s[i..j]
  {
    LowerSlice(s, i, j);
  }

  /** `s` holds the run `y` at `k`, with other characters (or the ends of
      the text) on both sides when it is a word run. */
  predicate RunAt(s: string, k: nat, y: string, word: bool) {
    k + |y| <= |s| && s[k..k + |y|] == y && IsRun(y, word)
    && (word ==> (k == 0 || !IsWordChar(s[k - 1])) && (k + |y| == |s| || !IsWordChar(s[k + |y|])))
  }

  /** At the start of a word run of lower-case text, the word `w` stands on
      its own exactly when it is the whole run. */
  lemma WordAtRunStart(s: string, k: nat, y: string, w: string)
    requires RunAt(s, k, y, true) && Lower(s) == s && IsWord(w)
    ensures WordAt(s, k, w) <==> y == w
  {
    if y == w {
      WholeRunIsWord(s, k, y);
    } else if WordAt(s, k, w) {
      LowerTextSlice(s, k, k + |w|);
      assert s[k..k + |w|] == w;
      if |w| < |y| {
        RunPrefixNoBoundary(s, k, y, |w|);
      } else if |w| > |y| {
        assert s[k + |y| - 1] == y[|y| - 1];
        RunPrefixNoBoundary(s, k, w, |y|);
      }
    }
  }

  /** A whole word run between non-word characters stands on its own. */
  lemma WholeRunIsWord(s: string, k: nat, y: string)
    requires RunAt(s, k, y, true) && Lower(s) == s
    ensures WordAt(s, k, y)
  {
    LowerTextSlice(s, k, k + |y|);
    assert s[k] == y[0];
    assert s[k + |y| - 1] == y[|y| - 1];
  }

  /** Strictly inside a word run that `s` holds at `k`, there is no `\b`. */
  lemma RunPrefixNoBoundary(s: string, k: nat, y: string, n: nat)
    requires k + |y| <= |s| && s[k..k + |y|] == y && IsWord(y)
    requires 0 < n < |y|
    ensures !Boundary(s, k + n)
  {
    assert s[k + n - 1] == y[n - 1];
    assert s[k + n] == y[n];
  }

  /** Past the start of a word run, or anywhere in an other run, no word of
      word characters stands on its own. */
  lemma NoWordInRun(s: string, k: nat, y: string, word: bool, i: nat, w: string)
    requires k + |y| <= |s| && s[k..k + |y|] == y && IsRun(y, word) && IsWord(w)
    requires (if word then k + 1 else k) <= i < k + |y|
    ensures !WordAt(s, i, w)
  {
    if word {
      RunPrefixNoBoundary(s, k, y, i - k);
    } else {
      assert s[i] == y[i - k];
    }
  }

  /** The count of the word `w` from the start of a run to its end. */
  lemma CountWordRun(s: string, k: nat, y: string, word: bool, w: string)
    requires RunAt(s, k, y, word) && Lower(s) == s && IsWord(w)
    ensures CountWord(s, k, w) == (if word && y == w then 1 else 0) + CountWord(s, k + |y|, w)
  {
    var j := if word then k + 1 else k;
    forall i | j <= i < k + |y| ensures !WordAt(s, i, w) {
      NoWordInRun(s, k, y, word, i, w);
    }
    CountWordSkip(s, j, k + |y|, w);
    if word {
      WordAtRunStart(s, k, y, w);
    }
  }

  /** From `k` on, `s` holds the pieces one after the other, each a run at
      its place, word runs and other runs alternating. */
  predicate Layout(s: string, k: nat, ps: seq<string>, word: bool)
    decreases |ps|
  {
    if |ps| == 0 then k == |s|
    else RunAt(s, k, ps[0], word) && Layout(s, k + |ps[0]|, ps[1..], !word)
  }

  /** The first piece of `Concat(ps)` at `k`: a run, followed by the rest. */
  lemma {:induction false} ConcatHead(s: string, k: nat, ps: seq<string>, word: bool)
    requires k <= |s| && s[k..] == Concat(ps) && Runs(ps, word) && |ps| > 0
    requires word && k > 0 ==> !IsWordChar(s[k - 1])
    ensures RunAt(s, k, ps[0], word)
    ensures s[k + |ps[0]|..] == Concat(ps[1..])
    ensures !word ==> !IsWordChar(s[k + |ps[0]| - 1])
  {
    var y := ps[0];
    var e := k + |y|;
    assert s[k..] == y + Concat(ps[1..]);
    assert s[k..e] == s[k..][..|y|];
    assert s[e..] == s[k..][|y|..];
    if word {
      WordRunChars(y);
      if e < |s| {
        assert |ps| > 1;
        assert Concat(ps[1..]) == ps[1] + Concat(ps[2..]);
        OtherRunChars(ps[1]);
        assert s[e] == s[e..][0] == ps[1][0];
      }
    } else {
      OtherRunChars(y);
      assert s[e - 1] == y[|y| - 1];
    }
  }

  /** A text that is the pieces put back together, cut into alternating
      runs, is laid out as those runs. */
  lemma {:induction false} ConcatLayout(s: string, k: nat, ps: seq<string>, word: bool)
    requires k <= |s| && s[k..] == Concat(ps) && Runs(ps, word)
    requires word && k > 0 ==> !IsWordChar(s[k - 1])
    ensures Layout(s, k, ps, word)
    decreases |ps|
  {
    if |ps| == 0 {
      assert |s[k..]| == 0;
    } else {
      ConcatHead(s, k, ps, word);
      ConcatLayout(s, k + |ps[0]|, ps[1..], !word);
    }
  }

  /** `CountWord` over a text laid out in alternating runs counts the runs
      that are the word. */
  lemma {:induction false} CountWordRuns(s: string, k: nat, ps: seq<string>, word: bool, w: string)
    requires Layout(s, k, ps, word) && Lower(s) == s && IsWord(w)
    ensures CountWord(s, k, w) == Occurrences(ps, [w])
    decreases |ps|
  {
    if |ps| > 0 {
      var y := ps[0];
      CountWordRun(s, k, y, word, w);
      CountWordRuns(s, k + |y|, ps[1..], !word, w);
      if !word {
        GapIsNoWord(y, [w]);
      }
      OccurrencesStep(CountWord(s, k, w), CountWord(s, k + |y|, w), y, ps, [w]);
    }
  }

  /** No alternative of word characters matches where none stands alone. */
  lemma NoAltMatch(s: string, i: nat, alts: seq<string>)
    requires forall j :: 0 <= j < |alts| ==> !WordAt(s, i, alts[j])
    ensures AltMatchAt(s, i, alts).None?
  {
  }

  /** `findall` finds nothing between `k` and `j`. */
  /** The word-bounded alternation matches at no position from `j` up to `e`. */
  predicate NoMatchBetween(s: string, j: nat, e: nat, alts: seq<string>) {
    forall i :: j <= i < e ==> AltMatchAt(s, i, alts).None?
  }

  lemma {:induction false} CountMatchesSkip(s: string, k: nat, j: nat, alts: seq<string>)
    requires forall i :: 0 <= i < |alts| ==> |alts[i]| > 0
    requires k <= j
    requires NoMatchBetween(s, k, j, alts)
    ensures CountMatches(s, k, alts) == CountMatches(s, j, alts)
    decreases j - k
  {
    if k < j && k < |s| {
      CountMatchesSkip(s, k + 1, j, alts);
    } else if k < j {
      assert CountMatches(s, k, alts) == 0;
      CountMatchesEnd(s, j, alts);
    }
  }

  lemma CountMatchesEnd(s: string, j: nat, alts: seq<string>)
    requires forall i :: 0 <= i < |alts| ==> |alts[i]| > 0
    requires j >= |s|
    ensures CountMatches(s, j, alts) == 0
  {
  }

  /** At the start of a word run of lower-case text the alternation
      matches exactly when the run is one of the words, and takes the run. */
  lemma AltMatchAtRunStart(s: string, k: nat, y: string, alts: seq<string>)
    requires RunAt(s, k, y, true) && Lower(s) == s
    requires forall i :: 0 <= i < |alts| ==> IsWord(alts[i])
    ensures AltMatchAt(s, k, alts) == if y in alts then Some(|y|) else None
  {
    forall i | 0 <= i < |alts| ensures WordAt(s, k, alts[i]) <==> y == alts[i] {
      WordAtRunStart(s, k, y, alts[i]);
    }
  }

  /** Past the start of a word run, or anywhere in an other run, the
      alternation does not match. */
  lemma NoAltMatchInRun(s: string, k: nat, y: string, word: bool, alts: seq<string>, i: nat)
    requires k + |y| <= |s| && s[k..k + |y|] == y && IsRun(y, word)
    requires forall m :: 0 <= m < |alts| ==> IsWord(alts[m])
    requires (if word then k + 1 else k) <= i < k + |y|
    ensures AltMatchAt(s, i, alts).None?
  {
    forall m | 0 <= m < |alts| ensures !WordAt(s, i, alts[m]) {
      NoWordInRun(s, k, y, word, i, alts[m]);
    }
    NoAltMatch(s, i, alts);
  }

  /** `findall` finds nothing inside a run past its first character. */
  lemma CountMatchesInsideRun(s: string, k: nat, y: string, word: bool, alts: seq<string>)
    requires k + |y| <= |s| && s[k..k + |y|] == y && IsRun(y, word)
    requires forall m :: 0 <= m < |alts| ==> IsWord(alts[m]) && |alts[m]| > 0
    ensures word ==> CountMatches(s, k + 1, alts) == CountMatches(s, k + |y|, alts)
    ensures !word ==> CountMatches(s, k, alts) == CountMatches(s, k + |y|, alts)
  {
    if word {
      NoAltMatchesInRun(s, k, y, word, alts, k + 1);
      CountMatchesSkip(s, k + 1, k + |y|, alts);
    } else {
      NoAltMatchesInRun(s, k, y, word, alts, k);
      CountMatchesSkip(s, k, k + |y|, alts);
    }
  }

  /** No alternative matches inside a run past its first character. */
  lemma NoAltMatchesInRun(s: string, k: nat, y: string, word: bool, alts: seq<string>, j: nat)
    requires k + |y| <= |s| && s[k..k + |y|] == y && IsRun(y, word)
    requires forall m :: 0 <= m < |alts| ==> IsWord(alts[m])
    requires j == if word then k + 1 else k
    ensures j <= k + |y| && NoMatchBetween(s, j, k + |y|, alts)
  {
    forall i | j <= i < k + |y| ensures AltMatchAt(s, i, alts).None? {
      NoAltMatchInRun(s, k, y, word, alts, i);
    }
  }

  /** The `findall` count of a word alternation from the start of a run to
      its end. */
  lemma CountMatchesRun(s: string, k: nat, y: string, word: bool, alts: seq<string>)
    requires RunAt(s, k, y, word) && Lower(s) == s
    requires forall i :: 0 <= i < |alts| ==> IsWord(alts[i])
    ensures forall i :: 0 <= i < |alts| ==> |alts[i]| > 0
    ensures CountMatches(s, k, alts) == (if y in alts then 1 else 0) + CountMatches(s, k + |y|, alts)
  {
    CountMatchesInsideRun(s, k, y, word, alts);
    if !word {
      GapIsNoWord(y, alts);
    } else {
      AltMatchAtRunStart(s, k, y, alts);
      if y in alts {
        CountMatchesTaken(s, k, y, alts);
      } else {
        CountMatchesPassed(s, k, alts);
      }
    }
  }

  /** `findall` takes a match of the whole word `y` and resumes after it. */
  lemma CountMatchesTaken(s: string, k: nat, y: string, alts: seq<string>)
    requires forall i :: 0 <= i < |alts| ==> |alts[i]| > 0
    requires k < |s| && AltMatchAt(s, k, alts) == Some(|y|)
    ensures CountMatches(s, k, alts) == 1 + CountMatches(s, k + |y|, alts)
  {
    var n := |y|;
    assert CountMatches(s, k, alts) == 1 + CountMatches(s, k + n, alts);
  }

  /** `findall` moves one position on where nothing matches. */
  lemma CountMatchesPassed(s: string, k: nat, alts: seq<string>)
    requires forall i :: 0 <= i < |alts| ==> |alts[i]| > 0
    requires k < |s| && AltMatchAt(s, k, alts).None?
    ensures CountMatches(s, k, alts) == CountMatches(s, k + 1, alts)
  {
  }

  /** A run of other characters is none of the words. */
  lemma GapIsNoWord(y: string, alts: seq<string>)
    requires IsGap(y)
    requires forall i :: 0 <= i < |alts| ==> IsWord(alts[i])
    ensures y !in alts
  {
    forall i | 0 <= i < |alts| ensures alts[i] != y {
      assert IsWordChar(alts[i][0]) && !IsWordChar(y[0]);
    }
  }

  /** `findall` of an alternation of words over a text laid out in
      alternating runs counts the runs that are one of the words. */
  lemma {:induction false} CountMatchesRuns(s: string, k: nat, ps: seq<string>, word: bool, alts: seq<string>)
    requires Layout(s, k, ps, word) && Lower(s) == s
    requires forall i :: 0 <= i < |alts| ==> IsWord(alts[i])
    ensures forall i :: 0 <= i < |alts| ==> |alts[i]| > 0
    ensures CountMatches(s, k, alts) == Occurrences(ps, alts)
    decreases |ps|
  {
    assert forall i :: 0 <= i < |alts| ==> |alts[i]| > 0;
    if |ps| > 0 {
      var y := ps[0];
      CountMatchesRuns(s, k + |y|, ps[1..], !word, alts);
      CountMatchesRun(s, k, y, word, alts);
      OccurrencesStep(CountMatches(s, k, alts), CountMatches(s, k + |y|, alts), y, ps, alts);
    }
  }

  /** A count that takes the first piece and then the rest's occurrences
      counts the occurrences. */
  lemma OccurrencesStep(total: nat, rest: nat, y: string, ps: seq<string>, alts: seq<string>)
    requires |ps| > 0 && ps[0] == y
    requires total == (if y in alts then 1 else 0) + rest
    requires rest == Occurrences(ps[1..], alts)
    ensures total == Occurrences(ps, alts)
  {
  }

  // ---------------------------------------------------------------------
  // Piece lists put together

  lemma {:induction false} ConcatAppend(ps: seq<string>, qs: seq<string>)
    ensures Concat(ps + qs) == Concat(ps) + Concat(qs)
  {
    if |ps| > 0 {
      assert (ps + qs)[1..] == ps[1..] + qs;
      ConcatAppend(ps[1..], qs);
    } else {
      assert ps + qs == qs;
    }
  }

  /** Two alternating lists join into one when the first has an even
      length, so that the second starts with the kind the first started
      with. */
  lemma {:induction false} RunsAppend(ps: seq<string>, qs: seq<string>, word: bool)
    requires Runs(ps, word) && |ps| % 2 == 0 && Runs(qs, word)
    ensures Runs(ps + qs, word)
  {
    if |ps| > 0 {
      assert (ps + qs)[1..] == ps[1..] + qs;
      assert (ps + qs)[1..][1..] == ps[2..] + qs;
      assert Runs(ps[2..], word);
      RunsAppend(ps[2..], qs, word);
    } else {
      assert ps + qs == qs;
    }
  }

  lemma {:induction false} OccurrencesAppend(ps: seq<string>, qs: seq<string>, alts: seq<string>)
    ensures Occurrences(ps + qs, alts) == Occurrences(ps, alts) + Occurrences(qs, alts)
  {
    if |ps| > 0 {
      assert (ps + qs)[1..] == ps[1..] + qs;
      OccurrencesAppend(ps[1..], qs, alts);
    } else {
      assert ps + qs == qs;
    }
  }
}
