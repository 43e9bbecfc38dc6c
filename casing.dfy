/**
 * The casing smell: a string value whose words are all lower case or all
 * upper case (with enough words), or that holds a word with unusual mixed
 * casing such as "AbC" or "wOrd".
 */
module Casing {
  import opened Ascii
  import opened Core
  import opened GreatExpectations
  import opened DataSmell

  // ---------------------------------------------------------------------
  // Tokenising: re.split(r"\s+", element) and re.findall(r"^[a-zA-Z]+", word)
  // ---------------------------------------------------------------------

  predicate NoSpace(s: string) { forall i :: 0 <= i < |s| ==> !IsSpace(s[i]) }

  /** Position of the first whitespace character, or `|s|`. */
  function NextSpace(s: string): (j: nat)
    ensures j <= |s|
    ensures NoSpace(s[..j])
    ensures j < |s| ==> IsSpace(s[j])
  {
    if |s| == 0 || IsSpace(s[0]) then 0
    else
      var j := 1 + NextSpace(s[1..]);
      assert forall k :: 1 <= k < j ==> s[k] == s[1..][k - 1];
      j
  }

  /** Length of the whitespace run at the start of `s`. */
  function SkipSpaces(s: string): (j: nat)
    ensures j <= |s|
    ensures j < |s| ==> !IsSpace(s[j])
  {
    if |s| == 0 || !IsSpace(s[0]) then 0 else 1 + SkipSpaces(s[1..])
  }

  /**
   * `re.split(r"\s+", s)`: the pieces between maximal whitespace runs; a
   * leading or trailing run gives an empty first or last piece.
   */
  function Split(s: string): (r: seq<string>)
    ensures |r| >= 1
    ensures forall k :: 0 <= k < |r| ==> NoSpace(r[k])
    ensures NoSpace(s) ==> r == [s]
  {
    var j := NextSpace(s);
    if j == |s| then
      assert s[..j] == s;
      [s]
    else
      var rest := s[j..];
      var n := SkipSpaces(rest);
      assert n > 0;
      [s[..j]] + Split(rest[n..])
  }

  /** The tokens written out with one space between neighbours. */
  function Join(tokens: seq<string>): string {
    if |tokens| == 0 then ""
    else if |tokens| == 1 then tokens[0]
    else tokens[0] + " " + Join(tokens[1..])
  }

  lemma NextSpaceAfter(a: string, t: string)
    requires NoSpace(a)
    ensures NextSpace(a + t) == |a| + NextSpace(t)
  {
    if |a| > 0 {
      assert (a + t)[1..] == a[1..] + t;
      NextSpaceAfter(a[1..], t);
    } else {
      assert a + t == t;
    }
  }

  /** A token, one space, then text that starts with no space: the token is the first piece. */
  lemma SplitCons(a: string, b: string)
    requires NoSpace(a)
    requires |b| > 0 && !IsSpace(b[0])
    ensures Split(a + " " + b) == [a] + Split(b)
  {
    var s := a + " " + b;
    NextSpaceAfter(a, " " + b);
    assert s == a + (" " + b);
    assert NextSpace(" " + b) == 0;
    var j := NextSpace(s);
    assert j == |a|;
    assert s[j..] == " " + b;
    assert SkipSpaces(" " + b) == 1 + SkipSpaces(b);
    assert SkipSpaces(b) == 0;
    assert (" " + b)[1..] == b;
    assert s[..j] == a;
  }

  /** Splitting tokens joined by single spaces gives the tokens back. */
  lemma {:induction false} SplitJoin(tokens: seq<string>)
    requires |tokens| >= 1
    requires forall k :: 0 <= k < |tokens| ==> NoSpace(tokens[k])
    requires forall k :: 1 <= k < |tokens| ==> |tokens[k]| > 0
    ensures Split(Join(tokens)) == tokens
  {
    if |tokens| > 1 {
      var a, rest := tokens[0], tokens[1..];
      var b := Join(rest);
      assert Join(tokens) == a + " " + b;
      assert forall k :: 0 <= k < |rest| ==> rest[k] == tokens[k + 1];
      JoinStart(rest);
      SplitCons(a, b);
      SplitJoin(rest);
      assert tokens == [a] + rest;
    }
  }

  lemma JoinStart(tokens: seq<string>)
    requires |tokens| >= 1 && |tokens[0]| > 0 && NoSpace(tokens[0])
    ensures |Join(tokens)| > 0 && !IsSpace(Join(tokens)[0])
  {
    if |tokens| > 1 {
      assert Join(tokens) == tokens[0] + " " + Join(tokens[1..]);
    }
  }

  /** Length of the maximal run of ASCII letters at the start of `s`. */
  function LetterRun(s: string): (n: nat)
    ensures n <= |s|
    ensures AllLetters(s[..n])
    ensures n < |s| ==> !IsLetter(s[n])
  {
    if |s| == 0 || !IsLetter(s[0]) then 0
    else
      var n := 1 + LetterRun(s[1..]);
      assert forall k :: 1 <= k < n ==> s[k] == s[1..][k - 1];
      n
  }

  /** `re.findall(r"^[a-zA-Z]+", word)`: the leading letter run, if there is one. */
  function LeadingLetters(word: string): (r: seq<string>)
    ensures |r| <= 1
    ensures |r| == 1 <==> |word| > 0 && IsLetter(word[0])
    ensures |r| == 1 ==> 0 < |r[0]| <= |word| && AllLetters(r[0]) && r[0] == word[..|r[0]|]
    ensures |r| == 1 ==> |r[0]| == |word| || !IsLetter(word[|r[0]|])
  {
    var n := LetterRun(word);
    if n == 0 then [] else [word[..n]]
  }

  /** The words the loop collects from `candidates`, in order. */
  function WordsOf(candidates: seq<string>): (r: seq<string>)
    ensures |r| <= |candidates|
    ensures forall k :: 0 <= k < |r| ==> |r[k]| > 0 && AllLetters(r[k])
  {
    if |candidates| == 0 then []
    else WordsOf(candidates[..|candidates| - 1]) + LeadingLetters(candidates[|candidates| - 1])
  }

  /** The words of an element. */
  function Words(element: string): seq<string> {
    WordsOf(Split(element))
  }

  // ---------------------------------------------------------------------
  // Case tests
  // ---------------------------------------------------------------------

  /** `word.lower() == word` */
  predicate IsAllLowerCase(word: string) { Lower(word) == word }

  /** `word.upper() == word` */
  predicate IsAllUpperCase(word: string) { Upper(word) == word }

  predicate UpperRange(x: string, a: nat, b: nat)
    requires a <= b <= |x|
  {
    forall k :: a <= k < b ==> IsUpper(x[k])
  }

  predicate LowerRange(x: string, a: nat, b: nat)
    requires a <= b <= |x|
  {
    forall k :: a <= k < b ==> IsLower(x[k])
  }

  /** `re.match(r"^[A-Z]+[a-z]+[A-Z]+.*$", x)` */
  predicate MixedCaseUpperFirst(x: string) {
    exists i, j, k | 0 < i < j < k <= |x| ::
      UpperRange(x, 0, i) && LowerRange(x, i, j) && UpperRange(x, j, k) && DotStarThenEnd(x[k..])
  }

  /** `re.match(r"^[a-z]+[A-Z]+.*$", x)` */
  predicate MixedCaseLowerFirst(x: string) {
    exists i, j | 0 < i < j <= |x| ::
      LowerRange(x, 0, i) && UpperRange(x, i, j) && DotStarThenEnd(x[j..])
  }

  /** `is_mixed_case`: the alternation of the two patterns. */
  predicate IsMixedCase(x: string) {
    MixedCaseUpperFirst(x) || MixedCaseLowerFirst(x)
  }

  /** `all(map(is_all_lower_case, words))` */
  predicate AllLowerCaseWords(words: seq<string>) {
    forall k :: 0 <= k < |words| ==> IsAllLowerCase(words[k])
  }

  /** `all(map(is_all_upper_case, words))` */
  predicate AllUpperCaseWords(words: seq<string>) {
    forall k :: 0 <= k < |words| ==> IsAllUpperCase(words[k])
  }

  /** `any(map(is_mixed_case, words))` */
  predicate AnyMixedCase(words: seq<string>) {
    exists k :: 0 <= k < |words| && IsMixedCase(words[k])
  }

  /** The decision on the extracted words. */
  predicate CasingSmellIn(words: seq<string>, threshold: int) {
    (|words| >= threshold && (AllLowerCaseWords(words) || AllUpperCaseWords(words)))
    || AnyMixedCase(words)
  }

  /** `_contains_casing_smell(element, same_case_wordcount_threshold)` */
  predicate HasCasingSmell(element: string, threshold: int) {
    CasingSmellIn(Words(element), threshold)
  }

  /**
   * `_contains_casing_smell` as the source computes it: collect the words
   * with a loop, then test the same-case rule and the mixed-case rule.
   */
  method ContainsCasingSmell(element: string, threshold: int) returns (r: bool)
    ensures r == HasCasingSmell(element, threshold)
  {
    var candidates := Split(element);
    var words: seq<string> := [];
    var i := 0;
    while i < |candidates|
      invariant 0 <= i <= |candidates|
      invariant words == WordsOf(candidates[..i])
    {
      assert candidates[..i + 1][..i] == candidates[..i];
      assert WordsOf(candidates[..i + 1]) == WordsOf(candidates[..i]) + LeadingLetters(candidates[i]);
      words := words + LeadingLetters(candidates[i]);
      i := i + 1;
    }
    assert candidates[..i] == candidates;
    assert HasCasingSmell(element, threshold) == CasingSmellIn(words, threshold);
    if |words| >= threshold && (AllLowerCaseWords(words) || AllUpperCaseWords(words)) {
      return true;
    }
    r := AnyMixedCase(words);
  }

  // ---------------------------------------------------------------------
  // What the rules mean for words made of letters
  // ---------------------------------------------------------------------

  /** Some lower-case letter is immediately followed by an upper-case one. */
  predicate HasLowerUpper(w: string) {
    exists i :: 0 <= i < |w| - 1 && IsLower(w[i]) && IsUpper(w[i + 1])
  }

  lemma LettersLineEnd(w: string, k: nat)
    requires AllLetters(w)
    requires k <= |w|
    ensures DotStarThenEnd(w[k..])
  {
    assert NoNewline(w[k..]) by {
      forall i | 0 <= i < |w[k..]| ensures w[k..][i] != '\n' {
        assert w[k..][i] == w[k + i];
      }
    }
  }

  /** For a word of letters, the two mixed-case patterns together match exactly a lower-upper pair. */
  lemma {:induction false} MixedCaseOfLetters(w: string)
    requires AllLetters(w)
    ensures IsMixedCase(w) <==> HasLowerUpper(w)
  {
    if MixedCaseLowerFirst(w) {
      var i, j :| 0 < i < j <= |w| && LowerRange(w, 0, i) && UpperRange(w, i, j) && DotStarThenEnd(w[j..]);
      assert IsLower(w[i - 1]) && IsUpper(w[i]);
    }
    if MixedCaseUpperFirst(w) {
      var i, j, k :| 0 < i < j < k <= |w| && UpperRange(w, 0, i) && LowerRange(w, i, j)
                     && UpperRange(w, j, k) && DotStarThenEnd(w[k..]);
      assert IsLower(w[j - 1]) && IsUpper(w[j]);
    }
    if HasLowerUpper(w) {
      MixedCaseFromPair(w);
    }
  }

  /** A letter in front of a lower-first match still matches one of the patterns. */
  lemma PrependToLowerFirst(w: string)
    requires |w| >= 1 && AllLetters(w)
    requires MixedCaseLowerFirst(w[1..])
    ensures IsMixedCase(w)
  {
    var t := w[1..];
    var i, j :| 0 < i < j <= |t| && LowerRange(t, 0, i) && UpperRange(t, i, j) && DotStarThenEnd(t[j..]);
    assert w[j + 1..] == t[j..];
    assert forall q :: 1 <= q < |w| ==> w[q] == t[q - 1];
    if IsLower(w[0]) {
      assert LowerRange(w, 0, i + 1) && UpperRange(w, i + 1, j + 1);
      assert MixedCaseLowerFirst(w);
    } else {
      assert UpperRange(w, 0, 1) && LowerRange(w, 1, i + 1) && UpperRange(w, i + 1, j + 1);
      assert MixedCaseUpperFirst(w);
    }
  }

  /** An upper-case letter in front of an upper-first match extends its first run. */
  lemma PrependToUpperFirst(w: string)
    requires |w| >= 2 && AllLetters(w)
    requires !(IsLower(w[0]) && IsUpper(w[1]))
    requires MixedCaseUpperFirst(w[1..])
    ensures MixedCaseUpperFirst(w)
  {
    var t := w[1..];
    var i, j, k :| 0 < i < j < k <= |t| && UpperRange(t, 0, i) && LowerRange(t, i, j)
                   && UpperRange(t, j, k) && DotStarThenEnd(t[k..]);
    assert w[k + 1..] == t[k..];
    assert forall q :: 1 <= q < |w| ==> w[q] == t[q - 1];
    assert IsUpper(w[1]);
    assert UpperRange(w, 0, i + 1) && LowerRange(w, i + 1, j + 1) && UpperRange(w, j + 1, k + 1);
  }

  lemma {:induction false} MixedCaseFromPair(w: string)
    requires AllLetters(w)
    requires HasLowerUpper(w)
    ensures IsMixedCase(w)
    decreases |w|
  {
    if IsLower(w[0]) && IsUpper(w[1]) {
      LettersLineEnd(w, 2);
      assert LowerRange(w, 0, 1) && UpperRange(w, 1, 2);
      assert MixedCaseLowerFirst(w);
    } else {
      var p :| 0 <= p < |w| - 1 && IsLower(w[p]) && IsUpper(w[p + 1]);
      var t := w[1..];
      assert IsLower(t[p - 1]) && IsUpper(t[p]);
      MixedCaseFromPair(t);
      if MixedCaseLowerFirst(t) {
        PrependToLowerFirst(w);
      } else {
        PrependToUpperFirst(w);
      }
    }
  }

  /** For a word of letters, `word.lower() == word` means every letter is lower case. */
  lemma LowerCaseOfLetters(w: string)
    requires AllLetters(w)
    ensures IsAllLowerCase(w) <==> AllLower(w)
    ensures IsAllUpperCase(w) <==> AllUpper(w)
  {
    LowerFixedPoint(w);
    UpperFixedPoint(w);
  }

  /**
   * The smell rule in plain terms: enough words and all of them lower case
   * or all upper case, or some word with a lower-case letter right before
   * an upper-case one.
   */
  lemma CasingSmellMeaning(element: string, threshold: int)
    ensures var words := Words(element);
            HasCasingSmell(element, threshold) <==>
            (|words| >= threshold
             && ((forall k :: 0 <= k < |words| ==> AllLower(words[k]))
                 || (forall k :: 0 <= k < |words| ==> AllUpper(words[k]))))
            || (exists k :: 0 <= k < |words| && HasLowerUpper(words[k]))
  {
    var words := Words(element);
    forall k | 0 <= k < |words|
      ensures (IsAllLowerCase(words[k]) <==> AllLower(words[k]))
           && (IsAllUpperCase(words[k]) <==> AllUpper(words[k]))
           && (IsMixedCase(words[k]) <==> HasLowerUpper(words[k]))
    {
      LowerCaseOfLetters(words[k]);
      MixedCaseOfLetters(words[k]);
    }
  }

  /** The same-case rule on its own flags a value. */
  lemma SameCaseFlagged(element: string, threshold: int)
    requires |Words(element)| >= threshold
    requires forall k :: 0 <= k < |Words(element)| ==> AllLower(Words(element)[k])
    ensures HasCasingSmell(element, threshold)
  {
    CasingSmellMeaning(element, threshold);
  }

  /** The mixed-case rule on its own flags a value. */
  lemma MixedCaseFlagged(element: string, threshold: int, k: nat)
    requires k < |Words(element)| && HasLowerUpper(Words(element)[k])
    ensures HasCasingSmell(element, threshold)
  {
    CasingSmellMeaning(element, threshold);
  }

  /** Too few words and no mixed-case word: not flagged. */
  lemma NotFlagged(element: string, threshold: int)
    requires |Words(element)| < threshold
    requires forall k :: 0 <= k < |Words(element)| ==> !HasLowerUpper(Words(element)[k])
    ensures !HasCasingSmell(element, threshold)
  {
    CasingSmellMeaning(element, threshold);
  }

  /** Anything flagged with a threshold is flagged with every smaller threshold. */
  lemma ThresholdMonotone(element: string, threshold: int, smaller: int)
    requires smaller <= threshold
    ensures HasCasingSmell(element, threshold) ==> HasCasingSmell(element, smaller)
  {
  }

  /** A value with no leading letters in any piece has no words and is never flagged for a positive threshold. */
  lemma NoWordsNotFlagged(element: string, threshold: int)
    requires threshold >= 1
    requires |Words(element)| == 0
    ensures !HasCasingSmell(element, threshold)
  {
  }

  // ---------------------------------------------------------------------
  // The column map and the expectation's constants
  // ---------------------------------------------------------------------

  /** `_pandas`: a row passes exactly when it holds no casing smell. */
  function NotContainsCasingSmell(column: seq<string>, threshold: int): (r: seq<bool>)
    ensures |r| == |column|
    ensures forall i :: 0 <= i < |column| ==> (r[i] <==> !HasCasingSmell(column[i], threshold))
  {
    seq(|column|, i requires 0 <= i < |column| => !HasCasingSmell(column[i], threshold))
  }

  const DefaultSameCaseWordcountThreshold: int := 2

  const ExpectationType: string := "expect_column_values_to_not_contain_casing_smell"

  const Metadata: DataSmellMetadata := DataSmellMetadata(CASING_SMELL, [STRING])
}

/** Worked examples from the casing expectation's gallery data. */
module CasingExamples {
  import opened Ascii
  import opened Casing

  predicate LetterWords(tokens: seq<string>) {
    forall k :: 0 <= k < |tokens| ==> |tokens[k]| > 0 && AllLetters(tokens[k])
  }

  /** A piece made of letters, or of letters and then a non-letter tail, contributes those letters. */
  lemma LeadingLettersOf(w: string, tail: string)
    requires |w| > 0 && AllLetters(w)
    requires |tail| == 0 || !IsLetter(tail[0])
    ensures LeadingLetters(w + tail) == [w]
  {
    var s := w + tail;
    var n := LetterRun(s);
    assert s[..|w|] == w;
    assert n == |w|;
  }

  lemma {:induction false} WordsOfLetters(tokens: seq<string>)
    requires LetterWords(tokens)
    ensures WordsOf(tokens) == tokens
  {
    if |tokens| > 0 {
      var last := tokens[|tokens| - 1];
      LeadingLettersOf(last, "");
      assert last + "" == last;
      WordsOfLetters(tokens[..|tokens| - 1]);
      assert tokens == tokens[..|tokens| - 1] + [last];
    }
  }

  /** Words of letters joined by single spaces are exactly the words found. */
  lemma WordsOfJoin(tokens: seq<string>)
    requires |tokens| >= 1 && LetterWords(tokens)
    ensures Words(Join(tokens)) == tokens
  {
    forall k | 0 <= k < |tokens| ensures NoSpace(tokens[k]) {
      assert AllLetters(tokens[k]);
    }
    SplitJoin(tokens);
    WordsOfLetters(tokens);
  }

  /** A value with one piece and no leading letter has no words. */
  lemma WordsNoLetters(s: string)
    requires NoSpace(s)
    requires |s| == 0 || !IsLetter(s[0])
    ensures Words(s) == []
  {
    assert WordsOf([s]) == WordsOf([]) + LeadingLetters(s);
  }

  lemma WordsAbcDef()
    ensures Words("abc def") == ["abc", "def"]
  {
    assert Join(["abc", "def"]) == "abc def";
    WordsOfJoin(["abc", "def"]);
  }

  lemma WordsAbc()
    ensures Words("abc") == ["abc"]
  {
    assert Join(["abc"]) == "abc";
    WordsOfJoin(["abc"]);
  }

  lemma WordsMixed()
    ensures Words("AbC") == ["AbC"]
  {
    assert Join(["AbC"]) == "AbC";
    WordsOfJoin(["AbC"]);
  }

  lemma WordsThree()
    ensures Words("abc dEf ghi") == ["abc", "dEf", "ghi"]
  {
    assert Join(["abc", "dEf", "ghi"]) == "abc dEf ghi";
    WordsOfJoin(["abc", "dEf", "ghi"]);
  }

  /** Enough words, all lower case: the same-case rule applies. */
  lemma LowerWordsFlagged(words: seq<string>, threshold: int)
    requires LetterWords(words)
    requires forall k :: 0 <= k < |words| ==> AllLower(words[k])
    requires |words| >= threshold
    ensures CasingSmellIn(words, threshold)
  {
    forall k | 0 <= k < |words| ensures IsAllLowerCase(words[k]) {
      LowerCaseOfLetters(words[k]);
    }
  }

  lemma TwoLowerWords()
    ensures CasingSmellIn(["abc", "def"], 2)
  {
    LowerWordsFlagged(["abc", "def"], 2);
  }

  /** With the default threshold 2, "abc def" is flagged. */
  lemma TwoLowerWordsFlagged()
    ensures HasCasingSmell("abc def", DefaultSameCaseWordcountThreshold)
  {
    WordsAbcDef();
    TwoLowerWords();
  }

  lemma OneLowerWordOnly()
    ensures CasingSmellIn(["abc"], 1)
    ensures !CasingSmellIn(["abc"], 2)
  {
    LowerWordsFlagged(["abc"], 1);
    MixedCaseOfLetters("abc");
    assert !HasLowerUpper("abc");
  }

  /** "abc" is flagged with threshold 1 but not with the default threshold 2. */
  lemma OneLowerWord()
    ensures HasCasingSmell("abc", 1)
    ensures !HasCasingSmell("abc", DefaultSameCaseWordcountThreshold)
  {
    WordsAbc();
    OneLowerWordOnly();
  }

  lemma MixedWord(threshold: int)
    ensures CasingSmellIn(["AbC"], threshold)
  {
    MixedCaseOfLetters("AbC");
    assert IsLower("AbC"[1]) && IsUpper("AbC"[2]);
    assert IsMixedCase(["AbC"][0]);
  }

  /** "AbC" is flagged through the mixed-case rule, whatever the threshold. */
  lemma MixedWordFlagged(threshold: int)
    ensures HasCasingSmell("AbC", threshold)
  {
    WordsMixed();
    MixedWord(threshold);
  }

  lemma MixedMiddleWord(threshold: int)
    ensures CasingSmellIn(["abc", "dEf", "ghi"], threshold)
  {
    MixedCaseOfLetters("dEf");
    assert IsLower("dEf"[0]) && IsUpper("dEf"[1]);
    assert IsMixedCase(["abc", "dEf", "ghi"][1]);
  }

  /** "abc dEf ghi" is flagged through its middle word, whatever the threshold. */
  lemma MixedSentenceFlagged(threshold: int)
    ensures HasCasingSmell("abc dEf ghi", threshold)
  {
    WordsThree();
    MixedMiddleWord(threshold);
  }

  /** "-1" has no words and is never flagged for a positive threshold. */
  lemma IntegerNotFlagged(threshold: int)
    requires threshold >= 1
    ensures !HasCasingSmell("-1", threshold)
  {
    WordsNoLetters("-1");
    NoWordsNotFlagged("-1", threshold);
  }

  /** "2.5" has no words and is never flagged for a positive threshold. */
  lemma FloatNotFlagged(threshold: int)
    requires threshold >= 1
    ensures !HasCasingSmell("2.5", threshold)
  {
    WordsNoLetters("2.5");
    NoWordsNotFlagged("2.5", threshold);
  }

  /** The empty string is never flagged for a positive threshold. */
  lemma EmptyNotFlagged(threshold: int)
    requires threshold >= 1
    ensures !HasCasingSmell("", threshold)
  {
    WordsNoLetters("");
    NoWordsNotFlagged("", threshold);
  }

  /** A word of lower-case letters has no lower-upper pair. */
  lemma LowerNoPair(w: string)
    requires AllLower(w)
    ensures !HasLowerUpper(w)
  {
  }

  lemma {:induction false} JoinAppend(xs: seq<string>, ys: seq<string>)
    requires |xs| >= 1 && |ys| >= 1
    ensures Join(xs + ys) == Join(xs) + " " + Join(ys)
  {
    if |xs| > 1 {
      assert (xs + ys)[1..] == xs[1..] + ys;
      JoinAppend(xs[1..], ys);
    } else {
      assert (xs + ys)[1..] == ys;
    }
  }

  lemma JoinFour(xs: seq<string>)
    requires |xs| == 4
    ensures Join(xs) == xs[0] + " " + (xs[1] + " " + (xs[2] + " " + xs[3]))
  {
    assert xs[1..][1..] == xs[2..];
    assert xs[2..][1..] == xs[3..];
    assert Join(xs[3..]) == xs[3];
    assert Join(xs[2..]) == xs[2] + " " + xs[3];
    assert Join(xs[1..]) == xs[1] + " " + (xs[2] + " " + xs[3]);
  }

  lemma SentenceFrontWords(s: string)
    requires s == "A test sentence which"
    ensures s == "A" + " " + ("test" + " " + ("sentence" + " " + "which"))
  {
  }

  lemma SentenceBackWords(s: string)
    requires s == "should not be flagged."
    ensures s == "should" + " " + ("not" + " " + ("be" + " " + "flagged."))
  {
  }

  lemma JoinSentenceFront(xs: seq<string>, s: string)
    requires xs == ["A", "test", "sentence", "which"]
    requires s == "A test sentence which"
    ensures Join(xs) == s
  {
    JoinFour(xs);
    SentenceFrontWords(s);
  }

  lemma JoinSentenceBack(xs: seq<string>, s: string)
    requires xs == ["should", "not", "be", "flagged."]
    requires s == "should not be flagged."
    ensures Join(xs) == s
  {
    JoinFour(xs);
    SentenceBackWords(s);
  }

  lemma JoinHalves(xs: seq<string>, ys: seq<string>, tokens: seq<string>, a: string, b: string)
    requires |xs| >= 1 && |ys| >= 1 && tokens == xs + ys
    requires Join(xs) == a && Join(ys) == b
    ensures Join(tokens) == a + " " + b
  {
    JoinAppend(xs, ys);
  }

  lemma TestSentenceHalves(s: string)
    requires s == "A test sentence which should not be flagged."
    ensures s == "A test sentence which" + " " + "should not be flagged."
  {
  }

  lemma JoinTestSentence(tokens: seq<string>, s: string)
    requires tokens == ["A", "test", "sentence", "which", "should", "not", "be", "flagged."]
    requires s == "A test sentence which should not be flagged."
    ensures Join(tokens) == s
  {
    var xs := tokens[..4];
    var ys := tokens[4..];
    JoinSentenceFront(xs, "A test sentence which");
    JoinSentenceBack(ys, "should not be flagged.");
    JoinHalves(xs, ys, tokens, "A test sentence which", "should not be flagged.");
    TestSentenceHalves(s);
  }

  lemma SplitTestSentence(tokens: seq<string>, s: string)
    requires tokens == ["A", "test", "sentence", "which", "should", "not", "be", "flagged."]
    requires s == "A test sentence which should not be flagged."
    ensures Split(s) == tokens
  {
    JoinTestSentence(tokens, s);
    forall k | 0 <= k < |tokens| ensures NoSpace(tokens[k]) {
    }
    SplitJoin(tokens);
  }

  /** The full stop after the last word is not part of it. */
  lemma WordsOfTestSentence(tokens: seq<string>, words: seq<string>)
    requires tokens == ["A", "test", "sentence", "which", "should", "not", "be", "flagged."]
    requires words == ["A", "test", "sentence", "which", "should", "not", "be", "flagged"]
    ensures WordsOf(tokens) == words
  {
    var front := tokens[..7];
    assert front == words[..7];
    WordsOfLetters(front);
    LeadingLettersOf("flagged", ".");
    assert "flagged" + "." == tokens[7];
  }

  /** A capitalised first word among lower-case words: neither same-case rule nor the mixed-case rule applies. */
  lemma TestSentenceWordsNotFlagged(words: seq<string>, threshold: int)
    requires words == ["A", "test", "sentence", "which", "should", "not", "be", "flagged"]
    ensures !CasingSmellIn(words, threshold)
  {
    assert Lower(words[0])[0] == 'a';
    assert Upper(words[1])[0] == 'T';
    forall k | 0 <= k < |words| ensures !IsMixedCase(words[k]) {
      MixedCaseOfLetters(words[k]);
      if k > 0 {
        LowerNoPair(words[k]);
      }
    }
  }

  /** "A test sentence which should not be flagged." is never flagged, whatever the threshold. */
  lemma TestSentenceNotFlagged(threshold: int)
    ensures !HasCasingSmell("A test sentence which should not be flagged.", threshold)
  {
    var s := "A test sentence which should not be flagged.";
    var tokens := ["A", "test", "sentence", "which", "should", "not", "be", "flagged."];
    var words := ["A", "test", "sentence", "which", "should", "not", "be", "flagged"];
    SplitTestSentence(tokens, s);
    WordsOfTestSentence(tokens, words);
    TestSentenceWordsNotFlagged(words, threshold);
  }

  /** Only the leading letters of a piece form its word: "www.gOogle.de" has the single word "www". */
  lemma WordsDomain()
    ensures Words("www.gOogle.de") == ["www"]
  {
    assert NoSpace("www.gOogle.de");
    LeadingLettersOf("www", ".gOogle.de");
    assert "www" + ".gOogle.de" == "www.gOogle.de";
    assert WordsOf(["www.gOogle.de"]) == WordsOf([]) + LeadingLetters("www.gOogle.de");
  }

  /** "www.gOogle.de" is not flagged with the default threshold 2, although "gOogle" is mixed case. */
  lemma DomainNotFlagged()
    ensures !HasCasingSmell("www.gOogle.de", DefaultSameCaseWordcountThreshold)
  {
    WordsDomain();
    LowerNoPair("www");
    MixedCaseOfLetters("www");
  }

  /** The information separator 0x1C is whitespace to `\s`, so it splits a value like a space. */
  lemma SplitFileSeparator(s: string)
    requires s == "abc\U{1c}def"
    ensures Split(s) == ["abc", "def"]
  {
    assert s == "abc" + "\U{1c}def";
    NextSpaceAfter("abc", "\U{1c}def");
    assert s[..3] == "abc";
    var rest := s[3..];
    assert rest == "\U{1c}def";
    assert SkipSpaces(rest) == 1;
    assert rest[1..] == "def";
    assert NoSpace("def");
  }

  /** Two lower-case words separated by 0x1C are flagged with the default threshold 2. */
  lemma FileSeparatorFlagged(s: string)
    requires s == "abc\U{1c}def"
    ensures HasCasingSmell(s, DefaultSameCaseWordcountThreshold)
  {
    SplitFileSeparator(s);
    WordsOfLetters(["abc", "def"]);
    assert Words(s) == ["abc", "def"];
    TwoLowerWords();
  }
}
