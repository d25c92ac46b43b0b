/** The pattern (?i)\bcopy[- ]?offload\b, what it means, and a scanner for it. */
module CopyOffloadRegex {

  // ---------- Regular expressions, as much of them as the pattern uses ----------

  datatype Re =
    | Empty
    | Letter(c: char)              // one letter, case ignored
    | OneOf(cs: set<char>)
    | Optional(re: Re)
    | Then(first: Re, rest: Re)
    | WordBoundary

  function Lower(c: char): char {
    if 'A' <= c <= 'Z' then c - 'A' + 'a' else c
  }

  /** The characters \b counts as part of a word. */
  predicate IsWordChar(c: char) {
    '0' <= c <= '9' || 'A' <= c <= 'Z' || 'a' <= c <= 'z' || c == '_'
  }

  predicate AtBoundary(s: string, i: nat)
    requires i <= |s|
  {
    (i > 0 && IsWordChar(s[i - 1])) != (i < |s| && IsWordChar(s[i]))
  }

  /** re matches s from i up to j. */
  ghost predicate Matches(re: Re, s: string, i: nat, j: nat)
    requires i <= j <= |s|
  {
    match re
    case Empty => i == j
    case Letter(c) => j == i + 1 && Lower(s[i]) == c
    case OneOf(cs) => j == i + 1 && s[i] in cs
    case Optional(r) => i == j || Matches(r, s, i, j)
    case Then(a, b) => exists k :: i <= k <= j && Matches(a, s, i, k) && Matches(b, s, k, j)
    case WordBoundary => i == j && AtBoundary(s, i)
  }

  function Literal(word: string, rest: Re): Re {
    if word == "" then rest else Then(Letter(word[0]), Literal(word[1..], rest))
  }

  const COPY: string := "copy"
  const OFFLOAD: string := "offload"
  const SEPARATORS: set<char> := {'-', ' '}

  function Tail(): Re {
    Literal(OFFLOAD, WordBoundary)
  }

  function Pattern(): Re {
    Then(WordBoundary, Literal(COPY, Then(Optional(OneOf(SEPARATORS)), Tail())))
  }

  /** What `MatchString` promises: some part of the string matches. */
  ghost predicate MatchesSomewhere(s: string) {
    exists i, j :: 0 <= i <= j <= |s| && Matches(Pattern(), s, i, j)
  }

  // ---------- The same in plain words ----------

  /** word stands at position i, case ignored. */
  predicate StandsAt(s: string, i: nat, word: string) {
    i + |word| <= |s| && forall k :: 0 <= k < |word| ==> Lower(s[i + k]) == word[k]
  }

  /** "copy offload" with this separator, delimited on both sides, in any case. */
  predicate MentionedAt(s: string, i: nat, separator: string) {
    var words := COPY + separator + OFFLOAD;
    StandsAt(s, i, words) && AtBoundary(s, i) && AtBoundary(s, i + |words|)
  }

  /** "copy offload", joined, hyphenated or spaced. */
  ghost predicate Mentions(s: string) {
    exists i: nat, separator: string :: separator in {"", "-", " "} && MentionedAt(s, i, separator)
  }

  // ---------- The scanner ----------

  /** Where "offload" has to start if "copy" starts at i. */
  function OffloadStart(s: string, i: nat): nat {
    if i + 4 < |s| && s[i + 4] in SEPARATORS then i + 5 else i + 4
  }

  predicate FoundAt(s: string, i: nat)
    requires i <= |s|
  {
    && AtBoundary(s, i)
    && StandsAt(s, i, COPY)
    && StandsAt(s, OffloadStart(s, i), OFFLOAD)
    && AtBoundary(s, OffloadStart(s, i) + |OFFLOAD|)
  }

  method WordStandsAt(s: string, i: nat, word: string) returns (b: bool)
    ensures b == StandsAt(s, i, word)
  {
    if i + |word| > |s| {
      return false;
    }
    for k := 0 to |word|
      invariant forall m :: 0 <= m < k ==> Lower(s[i + m]) == word[m]
    {
      if Lower(s[i + k]) != word[k] {
        return false;
      }
    }
    return true;
  }

  /** Decides the pattern in one pass, looking at no more than a dozen characters ahead. */
  method MatchString(s: string) returns (found: bool)
    ensures found == MatchesSomewhere(s)
    ensures found == Mentions(s)
  {
    for i := 0 to |s| + 1
      invariant forall k :: 0 <= k < i ==> !FoundAt(s, k)
    {
      if AtBoundary(s, i) {
        var copy := WordStandsAt(s, i, COPY);
        if copy {
          var offload := WordStandsAt(s, OffloadStart(s, i), OFFLOAD);
          if offload && AtBoundary(s, OffloadStart(s, i) + |OFFLOAD|) {
            FoundMeansMatched(s, i);
            FoundMeansMentioned(s, i);
            return true;
          }
        }
      }
    }
    if MatchesSomewhere(s) {
      var i := MatchedMeansFound(s);
      assert false;
    }
    if Mentions(s) {
      var i := MentionedMeansFound(s);
      assert false;
    }
    return false;
  }

  // ---------- Why they agree ----------

  lemma {:induction false} LiteralMatches(word: string, rest: Re, s: string, i: nat, j: nat)
    requires i <= j <= |s|
    ensures Matches(Literal(word, rest), s, i, j) <==>
      i + |word| <= j && StandsAt(s, i, word) && Matches(rest, s, i + |word|, j)
  {
    if word != "" {
      var w := word[1..];
      if i < j {
        LiteralMatches(w, rest, s, i + 1, j);
        assert word == [word[0]] + w;
        if StandsAt(s, i, word) && i + |word| <= j {
          forall k | 0 <= k < |w| ensures Lower(s[i + 1 + k]) == w[k] {
            assert Lower(s[i + (k + 1)]) == word[k + 1];
          }
          assert Matches(Letter(word[0]), s, i, i + 1);
        }
        if Matches(Literal(w, rest), s, i + 1, j) && Lower(s[i]) == word[0] {
          forall k | 0 <= k < |word| ensures Lower(s[i + k]) == word[k] {
            if k > 0 { assert Lower(s[i + 1 + (k - 1)]) == w[k - 1]; }
          }
        }
      }
    }
  }

  lemma OptionalThen(cs: set<char>, rest: Re, s: string, i: nat, j: nat)
    requires i <= j <= |s|
    ensures Matches(Then(Optional(OneOf(cs)), rest), s, i, j) <==>
      Matches(rest, s, i, j) || (i < j && s[i] in cs && Matches(rest, s, i + 1, j))
  {
    var opt := Optional(OneOf(cs));
    assert Matches(opt, s, i, i);
    if i < j {
      assert Matches(opt, s, i, i + 1) <==> Matches(OneOf(cs), s, i, i + 1);
    }
    forall k | i <= k <= j && Matches(opt, s, i, k) ensures k == i || (k == i + 1 && s[i] in cs) {
      assert k == i || Matches(OneOf(cs), s, i, k);
    }
  }

  lemma BoundaryThen(rest: Re, s: string, i: nat, j: nat)
    requires i <= j <= |s|
    ensures Matches(Then(WordBoundary, rest), s, i, j) <==> AtBoundary(s, i) && Matches(rest, s, i, j)
  {
    assert Matches(WordBoundary, s, i, i) <==> AtBoundary(s, i);
  }

  /** What is left to match after "copy". */
  lemma AfterCopy(s: string, k: nat, j: nat)
    requires k <= j <= |s|
    ensures Matches(Then(Optional(OneOf(SEPARATORS)), Tail()), s, k, j) <==>
      var m := if k < |s| && s[k] in SEPARATORS then k + 1 else k;
      j == m + |OFFLOAD| && StandsAt(s, m, OFFLOAD) && AtBoundary(s, j)
  {
    OptionalThen(SEPARATORS, Tail(), s, k, j);
    LiteralMatches(OFFLOAD, WordBoundary, s, k, j);
    if k < j {
      LiteralMatches(OFFLOAD, WordBoundary, s, k + 1, j);
    }
    if StandsAt(s, k, OFFLOAD) {
      assert Lower(s[k + 0]) == OFFLOAD[0] == 'o';
    }
  }

  lemma PatternAt(s: string, i: nat, j: nat)
    requires i <= j <= |s|
    ensures Matches(Pattern(), s, i, j) <==> FoundAt(s, i) && j == OffloadStart(s, i) + |OFFLOAD|
  {
    var afterCopy := Then(Optional(OneOf(SEPARATORS)), Tail());
    BoundaryThen(Literal(COPY, afterCopy), s, i, j);
    LiteralMatches(COPY, afterCopy, s, i, j);
    if i + 4 <= j {
      AfterCopy(s, i + 4, j);
    }
  }

  lemma FoundMeansMatched(s: string, i: nat)
    requires i <= |s| && FoundAt(s, i)
    ensures MatchesSomewhere(s)
  {
    PatternAt(s, i, OffloadStart(s, i) + |OFFLOAD|);
  }

  lemma MatchedMeansFound(s: string) returns (i: nat)
    requires MatchesSomewhere(s)
    ensures i <= |s| && FoundAt(s, i)
  {
    var k, j :| 0 <= k <= j <= |s| && Matches(Pattern(), s, k, j);
    PatternAt(s, k, j);
    i := k;
  }

  lemma StandsTogether(s: string, i: nat, a: string, b: string)
    ensures StandsAt(s, i, a + b) <==> StandsAt(s, i, a) && StandsAt(s, i + |a|, b)
  {
    if StandsAt(s, i, a + b) {
      forall k | 0 <= k < |b| ensures Lower(s[i + |a| + k]) == b[k] {
        assert Lower(s[i + (|a| + k)]) == (a + b)[|a| + k];
      }
      forall k | 0 <= k < |a| ensures Lower(s[i + k]) == a[k] {
        assert Lower(s[i + k]) == (a + b)[k];
      }
    }
    if StandsAt(s, i, a) && StandsAt(s, i + |a|, b) {
      forall k | 0 <= k < |a + b| ensures Lower(s[i + k]) == (a + b)[k] {
        if k >= |a| { assert Lower(s[i + |a| + (k - |a|)]) == b[k - |a|]; }
      }
    }
  }

  lemma SeparatorStands(s: string, i: nat, separator: string)
    requires separator in {"", "-", " "} && i <= |s|
    ensures separator == "" || (StandsAt(s, i, separator) <==> i < |s| && [s[i]] == separator)
  {
    if separator != "" && i < |s| {
      assert StandsAt(s, i, separator) <==> Lower(s[i + 0]) == separator[0];
    }
  }

  lemma FoundMeansMentioned(s: string, i: nat)
    requires i <= |s| && FoundAt(s, i)
    ensures Mentions(s)
  {
    var m := OffloadStart(s, i);
    var separator := s[i + 4..m];
    assert separator == if m == i + 4 then "" else [s[i + 4]];
    SeparatorStands(s, i + 4, separator);
    StandsTogether(s, i, COPY, separator);
    StandsTogether(s, i, COPY + separator, OFFLOAD);
    assert MentionedAt(s, i, separator);
  }

  lemma MentionedMeansFound(s: string) returns (i: nat)
    requires Mentions(s)
    ensures i <= |s| && FoundAt(s, i)
  {
    var k: nat, separator: string :| separator in {"", "-", " "} && MentionedAt(s, k, separator);
    i := k;
    ReadMention(s, k, separator);
  }

  lemma ReadMention(s: string, i: nat, separator: string)
    requires separator in {"", "-", " "} && StandsAt(s, i, COPY + separator + OFFLOAD)
    ensures StandsAt(s, i, COPY) && OffloadStart(s, i) == i + 4 + |separator|
    ensures StandsAt(s, OffloadStart(s, i), OFFLOAD)
  {
    StandsTogether(s, i, COPY + separator, OFFLOAD);
    StandsTogether(s, i, COPY, separator);
    SeparatorStands(s, i + 4, separator);
    if separator == "" {
      assert Lower(s[i + 4 + 0]) == OFFLOAD[0] == 'o';
    }
  }

  // ---------- Letter by letter ----------

  const SMALL: set<char> := {
    'a', 'b', 'c', 'd', 'e', 'f', 'g', 'h', 'i', 'j', 'k', 'l', 'm',
    'n', 'o', 'p', 'q', 'r', 's', 't', 'u', 'v', 'w', 'x', 'y', 'z'
  }
  const CAPITAL: set<char> := {
    'A', 'B', 'C', 'D', 'E', 'F', 'G', 'H', 'I', 'J', 'K', 'L', 'M',
    'N', 'O', 'P', 'Q', 'R', 'S', 'T', 'U', 'V', 'W', 'X', 'Y', 'Z'
  }
  const NUMERAL: set<char> := {'0', '1', '2', '3', '4', '5', '6', '7', '8', '9'}

  /** The characters that make words. */
  function WordChars(): set<char> {
    SMALL + CAPITAL + NUMERAL + {'_'}
  }

  lemma SmallAreListed(c: char)
    ensures c in SMALL <==> 'a' <= c <= 'z'
  {}

  lemma CapitalsAreListed(c: char)
    ensures c in CAPITAL <==> 'A' <= c <= 'Z'
  {}

  lemma NumeralsAreListed(c: char)
    ensures c in NUMERAL <==> '0' <= c <= '9'
  {}

  /** Letters, digits and the underscore. */
  lemma WordCharsAreListed(c: char)
    ensures IsWordChar(c) <==> c in WordChars()
  {
    SmallAreListed(c);
    CapitalsAreListed(c);
    NumeralsAreListed(c);
  }

  /** Each letter stands in its lower or its upper form. */
  predicate SpelledAt(s: string, i: nat, lower: string, upper: string)
    requires |upper| == |lower|
  {
    i + |lower| <= |s| && forall k :: 0 <= k < |lower| ==> s[i + k] == lower[k] || s[i + k] == upper[k]
  }

  predicate Cases(lower: string, upper: string) {
    && |upper| == |lower|
    && forall k :: 0 <= k < |lower| ==>
         if 'a' <= lower[k] <= 'z' then upper[k] == lower[k] - 'a' + 'A'
         else upper[k] == lower[k] && !('A' <= lower[k] <= 'Z')
  }

  lemma SpelledMeans(s: string, i: nat, lower: string, upper: string)
    requires Cases(lower, upper)
    ensures StandsAt(s, i, lower) <==> SpelledAt(s, i, lower, upper)
  {
    if i + |lower| <= |s| {
      forall k | 0 <= k < |lower|
        ensures Lower(s[i + k]) == lower[k] <==> s[i + k] == lower[k] || s[i + k] == upper[k]
      {}
    }
  }

  /** No letter, digit or underscore right before i and none right after j. */
  predicate Delimited(s: string, i: nat, j: nat)
    requires i <= j <= |s|
  {
    (i > 0 ==> !IsWordChar(s[i - 1])) && (j < |s| ==> !IsWordChar(s[j]))
  }

  predicate SpelledOut(s: string, i: nat, lower: string, upper: string)
    requires |upper| == |lower|
  {
    SpelledAt(s, i, lower, upper) && Delimited(s, i, i + |lower|)
  }

  /** A string mentions copy offload exactly if one of the three spellings stands in it, each letter in either case, and
      no letter, digit or underscore touches it. */
  lemma MentionsMeans(s: string)
    ensures Mentions(s) <==> exists i: nat ::
      || SpelledOut(s, i, "copyoffload", "COPYOFFLOAD")
      || SpelledOut(s, i, "copy-offload", "COPY-OFFLOAD")
      || SpelledOut(s, i, "copy offload", "COPY OFFLOAD")
  {
    forall i: nat
      ensures MentionedAt(s, i, "") <==> SpelledOut(s, i, "copyoffload", "COPYOFFLOAD")
      ensures MentionedAt(s, i, "-") <==> SpelledOut(s, i, "copy-offload", "COPY-OFFLOAD")
      ensures MentionedAt(s, i, " ") <==> SpelledOut(s, i, "copy offload", "COPY OFFLOAD")
    {
      JoinedMeans(s, i);
      HyphenatedMeans(s, i);
      SpacedMeans(s, i);
    }
    if Mentions(s) {
      var i: nat, separator: string :| separator in {"", "-", " "} && MentionedAt(s, i, separator);
    }
  }

  lemma JoinedMeans(s: string, i: nat)
    ensures MentionedAt(s, i, "") <==> SpelledOut(s, i, "copyoffload", "COPYOFFLOAD")
  {
    assert COPY + "" + OFFLOAD == "copyoffload";
    SpelledOutMeans(s, i, "copyoffload", "COPYOFFLOAD");
  }

  lemma HyphenatedMeans(s: string, i: nat)
    ensures MentionedAt(s, i, "-") <==> SpelledOut(s, i, "copy-offload", "COPY-OFFLOAD")
  {
    assert COPY + "-" + OFFLOAD == "copy-offload";
    SpelledOutMeans(s, i, "copy-offload", "COPY-OFFLOAD");
  }

  lemma SpacedMeans(s: string, i: nat)
    ensures MentionedAt(s, i, " ") <==> SpelledOut(s, i, "copy offload", "COPY OFFLOAD")
  {
    assert COPY + " " + OFFLOAD == "copy offload";
    SpelledOutMeans(s, i, "copy offload", "COPY OFFLOAD");
  }

  lemma SpelledOutMeans(s: string, i: nat, lower: string, upper: string)
    requires Cases(lower, upper) && lower != "" && 'a' <= lower[0] <= 'z' && 'a' <= lower[|lower| - 1] <= 'z'
    ensures SpelledOut(s, i, lower, upper) <==>
      StandsAt(s, i, lower) && AtBoundary(s, i) && AtBoundary(s, i + |lower|)
  {
    SpelledMeans(s, i, lower, upper);
    if StandsAt(s, i, lower) {
      EndsAreLetters(s, i, lower);
      BoundariesMean(s, i, i + |lower|);
    }
  }

  lemma EndsAreLetters(s: string, i: nat, word: string)
    requires StandsAt(s, i, word) && word != "" && 'a' <= word[0] <= 'z' && 'a' <= word[|word| - 1] <= 'z'
    ensures IsWordChar(s[i]) && IsWordChar(s[i + |word| - 1])
  {
    assert Lower(s[i + 0]) == word[0] && Lower(s[i + (|word| - 1)]) == word[|word| - 1];
  }

  lemma BoundariesMean(s: string, i: nat, j: nat)
    requires i < j <= |s| && IsWordChar(s[i]) && IsWordChar(s[j - 1])
    ensures Delimited(s, i, j) <==> AtBoundary(s, i) && AtBoundary(s, j)
  {}
}
