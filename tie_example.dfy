/** A worked example of the pairwise mention-count heuristic
    (vllm_judge/services/output_parser.py:153-175) on the reply
    "Text A is good but Text B is also good, I think it's a tie".  Lowered, the reply
    has two standalone mentions of A (`text a` and the `a` of `a tie`), one
    of B (`text b`) and one equality word (`tie`), so the equality count
    does not reach the A count and the verdict is `A`.

    The proof cuts the lowered reply into alternating runs of word and
    other characters, checks each short stretch of the reply on its own and
    joins the stretches. */
module TieExample {
  import opened Wrappers
  import opened Json
  import opened PyStr
  import opened Regex
  import opened OutputParser

  /** The stretch `c` of a reply lowers to the runs `t`, which hold `na`
      pieces `a`, `nb` pieces `b` and `ne` equality words. */
  predicate Piece(c: string, t: seq<string>, na: nat, nb: nat, ne: nat) {
    Lower(c) == Concat(t) && Runs(t, true)
    && Occurrences(t, ["a"]) == na && Occurrences(t, ["b"]) == nb
    && Occurrences(t, ["equal", "same", "tie", "equivalent"]) == ne
  }

  /** Two stretches join when the first ends with a run of other
      characters. */
  lemma PieceJoin(c1: string, t1: seq<string>, a1: nat, b1: nat, e1: nat,
                  c2: string, t2: seq<string>, a2: nat, b2: nat, e2: nat)
    requires Piece(c1, t1, a1, b1, e1) && |t1| % 2 == 0
    requires Piece(c2, t2, a2, b2, e2)
    ensures Piece(c1 + c2, t1 + t2, a1 + a2, b1 + b2, e1 + e2)
  {
    LowerAppend(c1, c2);
    ConcatAppend(t1, t2);
    RunsAppend(t1, t2, true);
    OccurrencesAppend(t1, t2, ["a"]);
    OccurrencesAppend(t1, t2, ["b"]);
    OccurrencesAppend(t1, t2, ["equal", "same", "tie", "equivalent"]);
  }

  lemma Stretch1()
    ensures Piece("Text ", ["text", " "], 0, 0, 0)
  {
  }

  lemma Stretch2()
    ensures Piece("A ", ["a", " "], 1, 0, 0)
  {
  }

  lemma Stretch3()
    ensures Piece("is good ", ["is", " ", "good", " "], 0, 0, 0)
  {
  }

  lemma Stretch4()
    ensures Piece("but Text ", ["but", " ", "text", " "], 0, 0, 0)
  {
  }

  lemma Stretch5()
    ensures Piece("B is ", ["b", " ", "is", " "], 0, 1, 0)
  {
  }

  lemma Stretch6()
    ensures Piece("also ", ["also", " "], 0, 0, 0)
  {
  }

  lemma Stretch7()
    ensures Piece("good, ", ["good", ", "], 0, 0, 0)
  {
  }

  lemma Stretch8()
    ensures Piece("I think ", ["i", " ", "think", " "], 0, 0, 0)
  {
  }

  lemma Stretch9()
    ensures Piece("it's ", ["it", "'", "s", " "], 0, 0, 0)
  {
  }

  lemma Stretch10()
    ensures Piece("a tie", ["a", " ", "tie"], 1, 0, 1)
  {
  }

  lemma FirstHalf1()
    ensures Piece("Text " + "A ",
                  ["text", " "] + ["a", " "], 1, 0, 0)
  {
    Stretch1();
    Stretch2();
    PieceJoin("Text ", ["text", " "], 0, 0, 0,
              "A ", ["a", " "], 1, 0, 0);
  }

  lemma FirstHalf2()
    ensures Piece("Text " + "A " + "is good ",
                  ["text", " "] + ["a", " "] + ["is", " ", "good", " "], 1, 0, 0)
  {
    FirstHalf1();
    Stretch3();
    PieceJoin("Text " + "A ", ["text", " "] + ["a", " "], 1, 0, 0,
              "is good ", ["is", " ", "good", " "], 0, 0, 0);
  }

  lemma FirstHalf3()
    ensures Piece("Text " + "A " + "is good " + "but Text ",
                  ["text", " "] + ["a", " "] + ["is", " ", "good", " "] + ["but", " ", "text", " "], 1, 0, 0)
  {
    FirstHalf2();
    Stretch4();
    PieceJoin("Text " + "A " + "is good ", ["text", " "] + ["a", " "] + ["is", " ", "good", " "], 1, 0, 0,
              "but Text ", ["but", " ", "text", " "], 0, 0, 0);
  }

  lemma FirstHalf4()
    ensures Piece("Text " + "A " + "is good " + "but Text " + "B is ",
                  ["text", " "] + ["a", " "] + ["is", " ", "good", " "] + ["but", " ", "text", " "] + ["b", " ", "is", " "], 1, 1, 0)
  {
    FirstHalf3();
    Stretch5();
    PieceJoin("Text " + "A " + "is good " + "but Text ", ["text", " "] + ["a", " "] + ["is", " ", "good", " "] + ["but", " ", "text", " "], 1, 0, 0,
              "B is ", ["b", " ", "is", " "], 0, 1, 0);
  }

  lemma SecondHalf1()
    ensures Piece("also " + "good, ",
                  ["also", " "] + ["good", ", "], 0, 0, 0)
  {
    Stretch6();
    Stretch7();
    PieceJoin("also ", ["also", " "], 0, 0, 0,
              "good, ", ["good", ", "], 0, 0, 0);
  }

  lemma SecondHalf2()
    ensures Piece("also " + "good, " + "I think ",
                  ["also", " "] + ["good", ", "] + ["i", " ", "think", " "], 0, 0, 0)
  {
    SecondHalf1();
    Stretch8();
    PieceJoin("also " + "good, ", ["also", " "] + ["good", ", "], 0, 0, 0,
              "I think ", ["i", " ", "think", " "], 0, 0, 0);
  }

  lemma SecondHalf3()
    ensures Piece("also " + "good, " + "I think " + "it's ",
                  ["also", " "] + ["good", ", "] + ["i", " ", "think", " "] + ["it", "'", "s", " "], 0, 0, 0)
  {
    SecondHalf2();
    Stretch9();
    PieceJoin("also " + "good, " + "I think ", ["also", " "] + ["good", ", "] + ["i", " ", "think", " "], 0, 0, 0,
              "it's ", ["it", "'", "s", " "], 0, 0, 0);
  }

  lemma SecondHalf4()
    ensures Piece("also " + "good, " + "I think " + "it's " + "a tie",
                  ["also", " "] + ["good", ", "] + ["i", " ", "think", " "] + ["it", "'", "s", " "] + ["a", " ", "tie"], 1, 0, 1)
  {
    SecondHalf3();
    Stretch10();
    PieceJoin("also " + "good, " + "I think " + "it's ", ["also", " "] + ["good", ", "] + ["i", " ", "think", " "] + ["it", "'", "s", " "], 0, 0, 0,
              "a tie", ["a", " ", "tie"], 1, 0, 1);
  }

  lemma FirstHalfText()
    ensures "Text A is good but Text B is " == "Text " + "A " + "is good " + "but Text " + "B is "
  {
  }

  lemma SecondHalfText()
    ensures "also good, I think it's a tie" == "also " + "good, " + "I think " + "it's " + "a tie"
  {
  }

  lemma ReplyHalves()
    ensures "Text A is good but Text B is also good, I think it's a tie" == "Text A is good but Text B is " + "also good, I think it's a tie"
  {
  }

  /** The whole reply as runs, with its counts. */
  lemma ReplyRuns() returns (t: seq<string>)
    ensures Piece("Text A is good but Text B is also good, I think it's a tie", t, 2, 1, 1)
  {
    FirstHalf4();
    FirstHalfText();
    SecondHalf4();
    SecondHalfText();
    var t1 := ["text", " "] + ["a", " "] + ["is", " ", "good", " "] + ["but", " ", "text", " "] + ["b", " ", "is", " "];
    var t2 := ["also", " "] + ["good", ", "] + ["i", " ", "think", " "] + ["it", "'", "s", " "] + ["a", " ", "tie"];
    PieceJoin("Text A is good but Text B is ", t1, 1, 1, 0, "also good, I think it's a tie", t2, 1, 0, 1);
    ReplyHalves();
    t := t1 + t2;
  }

  lemma ShortEqualWordsAreWords()
    ensures IsWord("equal") && IsWord("same") && IsWord("tie")
  {
    WordRunChars("equal");
    WordRunChars("same");
    WordRunChars("tie");
  }

  lemma EquivalentIsWord()
    ensures IsWord("equivalent")
  {
    WordRunChars("equivalent");
  }

  /** The equality words are words, as the counting lemmas demand. */
  lemma EqualWordsAreWords()
    ensures forall i :: 0 <= i < |EqualWords| ==> IsWord(EqualWords[i])
  {
    ShortEqualWordsAreWords();
    EquivalentIsWord();
  }

  /** The reply counts two A mentions, one B mention and one equality word. */
  lemma ReplyCounts(low: string)
    requires low == Lower("Text A is good but Text B is also good, I think it's a tie")
    ensures CountWord(low, 0, "a") == 2
    ensures CountWord(low, 0, "b") == 1
    ensures CountMatches(low, 0, EqualWords) == 1
  {
    var t := ReplyRuns();
    LowerIdempotent("Text A is good but Text B is also good, I think it's a tie");
    assert low[0..] == low;
    ConcatLayout(low, 0, t, true);
    WordRunChars("a");
    WordRunChars("b");
    CountWordRuns(low, 0, t, true, "a");
    CountWordRuns(low, 0, t, true, "b");
    EqualWordsAreWords();
    CountMatchesRuns(low, 0, t, true, EqualWords);
  }

  /** The reply neither starts nor ends with whitespace and does not start
      with a brace, so it is not taken for a JSON document. */
  lemma ReplyIsNotJson(eng: Engines)
    ensures DetectJson("Text A is good but Text B is also good, I think it's a tie", eng.loads).None?
  {
    ReplyLength();
    ReplyFirstChar();
    ReplyLastChar();
    StripUnchanged("Text A is good but Text B is also good, I think it's a tie");
    NoBraceStart("Text A is good but Text B is also good, I think it's a tie");
  }

  lemma ReplyLength()
    ensures |"Text A is good but Text B is also good, I think it's a tie"| == 58
  {
  }

  lemma ReplyFirstChar()
    ensures "Text A is good but Text B is also good, I think it's a tie"[0] == 'T'
  {
    ReplyHalves();
    FirstHalfFirstChar();
  }

  lemma FirstHalfFirstChar()
    ensures "Text A is good but Text B is "[0] == 'T'
  {
  }

  lemma ReplyLastChar()
    ensures "Text A is good but Text B is also good, I think it's a tie"[57] == 'e'
  {
  }

  /** Parsed as a pairwise comparison without rules, the reply gives `A`:
      the equality word is outnumbered by the A mentions. */
  lemma TieReplyPrefersA(eng: Engines)
    ensures ParsePairwise("Text A is good but Text B is also good, I think it's a tie", JNull, false, eng)
         == Success(Parsed(JString("A"), None))
  {
    ReplyIsNotJson(eng);
    ReplyCounts(Lower("Text A is good but Text B is also good, I think it's a tie"));
    MoreAMentionsPreferA("Text A is good but Text B is also good, I think it's a tie", eng);
  }
}
