/** The Python `str` operations the core relies on: `strip`, `lower`, `upper`,
    `in`, `startswith`/`endswith`, `removeprefix`/`removesuffix`, `rstrip(c)`,
    and `split`/`join` on a one-character separator.  `strip` uses Python's
    own whitespace set; `lower` and `upper` are restricted to ASCII letters. */
module PyStr {
  import opened Wrappers

  /** `c.isspace()` in Python 3. */
  predicate IsSpace(c: char) {
    c == ' ' || ('\t' <= c <= '\r') || ('\U{1C}' <= c <= '\U{1F}')
    || c == '\U{85}' || c == '\U{A0}' || c == '\U{1680}'
    || ('\U{2000}' <= c <= '\U{200A}') || c == '\U{2028}' || c == '\U{2029}'
    || c == '\U{202F}' || c == '\U{205F}' || c == '\U{3000}'
  }

  function LowerChar(c: char): char {
    if 'A' <= c <= 'Z' then (c as int + 32) as char else c
  }

  function UpperChar(c: char): char {
    if 'a' <= c <= 'z' then (c as int - 32) as char else c
  }

  function Lower(s: string): (r: string)
    ensures |r| == |s|
    ensures forall i :: 0 <= i < |s| ==> r[i] == LowerChar(s[i])
  {
    seq(|s|, i requires 0 <= i < |s| => LowerChar(s[i]))
  }

  function Upper(s: string): (r: string)
    ensures |r| == |s|
    ensures forall i :: 0 <= i < |s| ==> r[i] == UpperChar(s[i])
  {
    seq(|s|, i requires 0 <= i < |s| => UpperChar(s[i]))
  }

  lemma LowerIdempotent(s: string)
    ensures Lower(Lower(s)) == Lower(s)
  {
  }

  /** Lowering works character by character, so it distributes over `+`. */
  lemma LowerAppend(a: string, b: string)
    ensures Lower(a + b) == Lower(a) + Lower(b)
  {
  }

  lemma LowerSlice(s: string, i: nat, j: nat)
    requires i <= j <= |s|
    ensures Lower(s[i..j]) == Lower(s)[i..j]
  {
  }

  /** `s.rstrip()`: the longest prefix of `s` that does not end in whitespace. */
  function StripRight(s: string): (r: string)
    ensures |r| <= |s| && r == s[..|r|]
    ensures forall i :: |r| <= i < |s| ==> IsSpace(s[i])
    ensures r == [] || !IsSpace(r[|r| - 1])
  {
    if |s| > 0 && IsSpace(s[|s| - 1]) then StripRight(s[..|s| - 1]) else s
  }

  /** `s.lstrip()`: the longest suffix of `s` that does not start with whitespace. */
  function StripLeft(s: string): (r: string)
    ensures |r| <= |s| && r == s[|s| - |r|..]
    ensures forall i :: 0 <= i < |s| - |r| ==> IsSpace(s[i])
    ensures r == [] || !IsSpace(r[0])
  {
    if |s| > 0 && IsSpace(s[0]) then StripLeft(s[1..]) else s
  }

  /** `s.strip()`. */
  function Strip(s: string): (r: string)
    ensures r == [] || (!IsSpace(r[0]) && !IsSpace(r[|r| - 1]))
  {
    StripLeft(StripRight(s))
  }

  /** Appending whitespace does not change what `strip` returns. */
  lemma StripTrailingSpace(s: string, w: char)
    requires IsSpace(w)
    ensures Strip(s + [w]) == Strip(s)
  {
    assert (s + [w])[..|s + [w]| - 1] == s;
  }

  predicate StartsWith(s: string, p: string) {
    |p| <= |s| && s[..|p|] == p
  }

  predicate EndsWith(s: string, p: string) {
    |p| <= |s| && s[|s| - |p|..] == p
  }

  function RemovePrefix(s: string, p: string): (r: string)
    ensures StartsWith(s, p) ==> s == p + r
    ensures !StartsWith(s, p) ==> r == s
  {
    if StartsWith(s, p) then s[|p|..] else s
  }

  function RemoveSuffix(s: string, p: string): (r: string)
    ensures EndsWith(s, p) ==> s == r + p
    ensures !EndsWith(s, p) ==> r == s
  {
    if EndsWith(s, p) then s[..|s| - |p|] else s
  }

  /** `s.rstrip(c)` for a single character `c`. */
  function RStripChar(s: string, c: char): (r: string)
    ensures |r| <= |s| && r == s[..|r|]
    ensures forall i :: |r| <= i < |s| ==> s[i] == c
    ensures r == [] || r[|r| - 1] != c
  {
    if |s| > 0 && s[|s| - 1] == c then RStripChar(s[..|s| - 1], c) else s
  }

  predicate ContainsAt(s: string, t: string, k: nat) {
    k + |t| <= |s| && s[k..k + |t|] == t
  }

  /** Python's `t in s`. */
  predicate Contains(s: string, t: string) {
    exists k :: 0 <= k <= |s| - |t| && ContainsAt(s, t, k)
  }

  /** A string that lacks one of `t`'s characters cannot contain `t`. */
  lemma MissingCharNotContained(s: string, t: string, c: char)
    requires c in t && c !in s
    ensures !Contains(s, t)
  {
  }

  /** The first index of `c` in `s`. */
  function IndexOf(s: string, c: char): (r: Option<nat>)
    ensures r.None? <==> c !in s
    ensures r.Some? ==> r.value < |s| && s[r.value] == c && c !in s[..r.value]
  {
    if |s| == 0 then None
    else if s[0] == c then Some(0)
    else match IndexOf(s[1..], c)
      case None => None
      case Some(i) => assert s[1..][..i] == s[1..i + 1]; Some(i + 1)
  }

  /** `s.split(sep)` for a one-character separator. */
  function Split(s: string, sep: char): (r: seq<string>)
    ensures |r| >= 1
    decreases |s|
  {
    match IndexOf(s, sep)
    case None => [s]
    case Some(i) => [s[..i]] + Split(s[i + 1..], sep)
  }

  /** `sep.join(parts)` for a one-character separator. */
  function Join(parts: seq<string>, sep: char): string {
    if |parts| == 0 then ""
    else if |parts| == 1 then parts[0]
    else parts[0] + [sep] + Join(parts[1..], sep)
  }

  /** Joining what a split produced gives back the original string. */
  lemma {:induction false} JoinSplit(s: string, sep: char)
    ensures Join(Split(s, sep), sep) == s
    decreases |s|
  {
    match IndexOf(s, sep)
    case None =>
    case Some(i) =>
      var rest := Split(s[i + 1..], sep);
      JoinSplit(s[i + 1..], sep);
      assert Split(s, sep) == [s[..i]] + rest;
      assert ([s[..i]] + rest)[1..] == rest;
      assert s == s[..i] + [sep] + s[i + 1..];
  }

  /** Splitting a join of separator-free parts gives back the parts. */
  lemma {:induction false} SplitJoin(parts: seq<string>, sep: char)
    requires |parts| >= 1
    requires forall i :: 0 <= i < |parts| ==> sep !in parts[i]
    ensures Split(Join(parts, sep), sep) == parts
    decreases |parts|
  {
    if |parts| > 1 {
      var tail := Join(parts[1..], sep);
      SplitAfterFirst(parts[0], tail, sep);
      SplitJoin(parts[1..], sep);
    }
  }

  /** Splitting a separator-free piece, the separator and a tail gives the
      piece followed by the split of the tail. */
  lemma SplitAfterFirst(a: string, tail: string, sep: char)
    requires sep !in a
    ensures Split(a + [sep] + tail, sep) == [a] + Split(tail, sep)
  {
    var s := a + [sep] + tail;
    assert s[..|a|] == a;
    assert s[|a|] == sep;
    assert IndexOf(s, sep) == Some(|a|);
    assert s[|a| + 1..] == tail;
  }

  /** A split has more than one piece exactly when the separator occurs; the
      first piece is the text before its first occurrence and joining the
      other pieces gives the text after it. */
  lemma SplitAtFirst(s: string, sep: char)
    ensures |Split(s, sep)| > 1 <==> sep in s
    ensures IndexOf(s, sep).Some? ==>
      var i := IndexOf(s, sep).value;
      Split(s, sep)[0] == s[..i] && Join(Split(s, sep)[1..], sep) == s[i + 1..]
    ensures IndexOf(s, sep).None? ==> Split(s, sep) == [s]
  {
    match IndexOf(s, sep)
    case None =>
    case Some(i) =>
      JoinSplit(s[i + 1..], sep);
      assert Split(s, sep)[1..] == Split(s[i + 1..], sep);
  }

  /** `strip` leaves a string alone when neither end is whitespace. */
  lemma StripUnchanged(s: string)
    requires s == [] || (!IsSpace(s[0]) && !IsSpace(s[|s| - 1]))
    ensures Strip(s) == s
  {
  }

  /** `strip` returns a piece of its argument. */
  lemma StripIsSlice(s: string) returns (i: nat)
    ensures i + |Strip(s)| <= |s| && Strip(s) == s[i..i + |Strip(s)|]
  {
    var r := StripRight(s);
    i := |r| - |Strip(s)|;
    assert r == s[..|r|];
  }

  /** A piece of a string that contains `t` contains `t`. */
  lemma ContainsInSlice(s: string, t: string, i: nat, j: nat)
    requires i <= j <= |s| && Contains(s[i..j], t)
    ensures Contains(s, t)
  {
    var k :| 0 <= k <= |s[i..j]| - |t| && ContainsAt(s[i..j], t, k);
    var u := s[i..j];
    forall m | 0 <= m < |t| ensures s[i + k + m] == t[m] {
      assert t[m] == u[k..k + |t|][m];
    }
    assert ContainsAt(s, t, i + k);
  }

  // -----------------------------------------------------------------------
  // Decimal integers

  /** An ASCII decimal digit.  Python's `\d` and `int()` also accept the
      other Unicode decimal digits, which this model leaves out. */
  predicate IsDigit(c: char) { '0' <= c <= '9' }

  function DigitValue(c: char): nat { if IsDigit(c) then c as int - '0' as int else 0 }

  function DigitChar(d: nat): (c: char)
    requires d < 10
    ensures IsDigit(c) && DigitValue(c) == d
  {
    ('0' as int + d) as char
  }

  /** The value of a string of digits, most significant first. */
  function DigitsValue(d: string): nat {
    if |d| == 0 then 0 else DigitsValue(d[..|d| - 1]) * 10 + DigitValue(d[|d| - 1])
  }

  /** `str(n)` for a natural number. */
  function NatToString(n: nat): (r: string)
    ensures |r| > 0 && forall i :: 0 <= i < |r| ==> IsDigit(r[i])
  {
    if n < 10 then [DigitChar(n)] else NatToString(n / 10) + [DigitChar(n % 10)]
  }

  lemma {:induction false} DigitsValueOfNatToString(n: nat)
    ensures DigitsValue(NatToString(n)) == n
  {
    if n >= 10 {
      DigitsValueOfNatToString(n / 10);
      var r := NatToString(n);
      assert r[..|r| - 1] == NatToString(n / 10);
    }
  }

  /** The body `int()` accepts after the sign: digits, with single
      underscores allowed between two digits. */
  predicate DigitGroups(b: string) {
    |b| > 0 && IsDigit(b[0]) && IsDigit(b[|b| - 1])
    && (forall i :: 0 <= i < |b| ==> IsDigit(b[i]) || b[i] == '_')
    && (forall i :: 0 <= i < |b| - 1 ==> b[i] == '_' ==> b[i + 1] != '_')
  }

  function RemoveUnderscores(b: string): (r: string)
    ensures |r| <= |b|
    ensures '_' !in r
    ensures (forall i :: 0 <= i < |b| ==> IsDigit(b[i]) || b[i] == '_') ==>
              forall i :: 0 <= i < |r| ==> IsDigit(r[i])
  {
    if |b| == 0 then []
    else if b[0] == '_' then RemoveUnderscores(b[1..])
    else [b[0]] + RemoveUnderscores(b[1..])
  }

  lemma {:induction false} RemoveUnderscoresNone(b: string)
    requires '_' !in b
    ensures RemoveUnderscores(b) == b
  {
    if |b| > 0 {
      RemoveUnderscoresNone(b[1..]);
    }
  }

  /** `int(s)` on a string: surrounding whitespace, an optional sign, then
      digit groups; anything else raises `ValueError`, shown as `None`. */
  function ParseInt(s: string): (r: Option<int>)
    ensures var t := Strip(s);
      r.Some? ==> (DigitGroups(t) || (|t| > 0 && (t[0] == '+' || t[0] == '-') && DigitGroups(t[1..])))
    ensures var t := Strip(s); r.Some? && IsDigit(t[0]) ==> r.value >= 0
    ensures var t := Strip(s); DigitGroups(t) ==> r == Some(DigitsValue(RemoveUnderscores(t)) as int)
    ensures var t := Strip(s); |t| > 0 && t[0] == '+' && DigitGroups(t[1..]) ==>
      r == Some(DigitsValue(RemoveUnderscores(t[1..])) as int)
    ensures var t := Strip(s); |t| > 0 && t[0] == '-' && DigitGroups(t[1..]) ==>
      r.Some? && -r.value == DigitsValue(RemoveUnderscores(t[1..]))
  {
    var t := Strip(s);
    if DigitGroups(t) then Some(DigitsValue(RemoveUnderscores(t)))
    else if |t| > 0 && t[0] == '+' && DigitGroups(t[1..]) then
      Some(DigitsValue(RemoveUnderscores(t[1..])))
    else if |t| > 0 && t[0] == '-' && DigitGroups(t[1..]) then
      Some(-(DigitsValue(RemoveUnderscores(t[1..])) as int))
    else None
  }

  /** `str(n)` is a group of digits worth `n`. */
  lemma NatToStringDigits(n: nat)
    ensures DigitGroups(NatToString(n))
    ensures DigitsValue(RemoveUnderscores(NatToString(n))) == n
  {
    var d := NatToString(n);
    assert DigitGroups(d);
    RemoveUnderscoresNone(d);
    DigitsValueOfNatToString(n);
  }

  /** `int(str(n)) == n`. */
  lemma ParseIntOfNatToString(n: nat)
    ensures ParseInt(NatToString(n)) == Some(n as int)
  {
    NatToStringDigits(n);
    DigitsStripped(NatToString(n));
    UnsignedParses(NatToString(n));
  }

  lemma DigitsStripped(d: string)
    requires DigitGroups(d)
    ensures Strip(d) == d
  {
    StripUnchanged(d);
  }

  /** Stripped digit groups parse to their value. */
  lemma UnsignedParses(t: string)
    requires Strip(t) == t && DigitGroups(t)
    ensures ParseInt(t) == Some(DigitsValue(RemoveUnderscores(t)) as int)
  {
    assert t[0] != '+' && t[0] != '-';
  }

  /** `int("-" + str(n)) == -n`. */
  lemma ParseIntOfNegated(n: nat)
    ensures ParseInt("-" + NatToString(n)) == Some(-(n as int))
  {
    NatToStringDigits(n);
    NegatedParses(NatToString(n), n);
  }

  /** A minus sign before digit groups worth `v` parses to `-v`. */
  lemma NegatedParses(d: string, v: nat)
    requires DigitGroups(d) && DigitsValue(RemoveUnderscores(d)) == v
    ensures ParseInt("-" + d) == Some(-(v as int))
  {
    var t := "-" + d;
    SignedTextStripped(d, t);
    SignedParses(t);
  }

  lemma SignedTextStripped(d: string, t: string)
    requires t == "-" + d && DigitGroups(d)
    ensures |t| > 0 && t[0] == '-' && t[1..] == d && Strip(t) == t
  {
    assert t[|t| - 1] == d[|d| - 1];
    StripUnchanged(t);
  }

  /** A stripped text of a minus sign and digit groups parses to the
      negated value of the digits. */
  lemma SignedParses(t: string)
    requires |t| > 0 && t[0] == '-' && Strip(t) == t && DigitGroups(t[1..])
    ensures ParseInt(t) == Some(-(DigitsValue(RemoveUnderscores(t[1..])) as int))
  {
  }
}
