/**
 * The long data value smell: a string value that holds a run of at least
 * `length_threshold` word characters. The expectation builds the pattern
 * `\w{n,}` from the threshold and installs it on the framework's
 * `column_values.not_match_regex` metrics.
 */
module LongValue {
  import opened Wrappers
  import opened Ascii
  import opened Core
  import opened GreatExpectations
  import opened DataSmell

  /** The `n` characters of `s` from position `i` on are all word characters. */
  predicate WordWindow(s: string, i: int, n: nat) {
    0 <= i <= |s| - n && AllWordChars(s[i..i + n])
  }

  /** `re.search(r"\w{n,}", s)`: some window of `n` consecutive characters holds only word characters. */
  predicate HasLongWord(s: string, n: nat) {
    exists i :: 0 <= i <= |s| - n && WordWindow(s, i, n)
  }

  /** The per-row condition of `not_match_regex`. */
  predicate Passes(n: nat, s: string) {
    !HasLongWord(s, n)
  }

  /** Length of the run of word characters that ends `s`. */
  function TrailingRun(s: string): (r: nat)
    ensures r <= |s|
  {
    if |s| == 0 || !IsWordChar(s[|s| - 1]) then 0 else 1 + TrailingRun(s[..|s| - 1])
  }

  /** Length of the longest run of word characters in `s`: the reference for `HasLongWord`. */
  function LongestRun(s: string): (r: nat)
    ensures r <= |s|
  {
    if |s| == 0 then 0
    else
      var p := LongestRun(s[..|s| - 1]);
      var t := TrailingRun(s);
      if p < t then t else p
  }

  lemma {:induction false} TrailingRunWords(s: string)
    ensures AllWordChars(s[|s| - TrailingRun(s)..])
  {
    if |s| > 0 && IsWordChar(s[|s| - 1]) {
      var u := s[..|s| - 1];
      TrailingRunWords(u);
      var t := TrailingRun(s);
      assert t == 1 + TrailingRun(u);
      var tail, front := s[|s| - t..], u[|u| - (t - 1)..];
      forall k | 0 <= k < |tail| ensures IsWordChar(tail[k]) {
        if k < t - 1 {
          assert tail[k] == s[|s| - t + k] == u[|u| - (t - 1) + k] == front[k];
        } else {
          assert tail[k] == s[|s| - 1];
        }
      }
    }
  }

  lemma {:induction false} TrailingRunAtLeast(s: string, n: nat)
    requires n <= |s| && AllWordChars(s[|s| - n..])
    ensures n <= TrailingRun(s)
  {
    if n > 0 {
      var u := s[..|s| - 1];
      assert s[|s| - n..][n - 1] == s[|s| - 1];
      assert u[|u| - (n - 1)..] == s[|s| - n..][..n - 1];
      TrailingRunAtLeast(u, n - 1);
    }
  }

  lemma {:induction false} WindowWithinRun(s: string, i: int, n: nat)
    requires WordWindow(s, i, n)
    ensures n <= LongestRun(s)
  {
    if i + n == |s| {
      assert s[i..i + n] == s[|s| - n..];
      TrailingRunAtLeast(s, n);
    } else {
      var u := s[..|s| - 1];
      assert u[i..i + n] == s[i..i + n];
      WindowWithinRun(u, i, n);
    }
  }

  /** The last `n` characters form a window when the trailing run reaches `n`. */
  lemma TrailingWindow(s: string, n: nat)
    requires n <= TrailingRun(s)
    ensures WordWindow(s, |s| - n, n)
  {
    TrailingRunWords(s);
    SuffixWindow(s, TrailingRun(s), n);
  }

  /** The last `n` characters of a word-character suffix of length `t >= n` form a window. */
  lemma SuffixWindow(s: string, t: nat, n: nat)
    requires n <= t <= |s| && AllWordChars(s[|s| - t..])
    ensures WordWindow(s, |s| - n, n)
  {
    var i := |s| - n;
    var window, run := s[i..i + n], s[|s| - t..];
    forall k | 0 <= k < n ensures IsWordChar(window[k]) {
      assert window[k] == s[i + k] == run[t - n + k];
    }
  }

  /** A window of a prefix is a window of the whole string. */
  lemma WindowExtends(s: string, i: int, n: nat)
    requires |s| > 0 && WordWindow(s[..|s| - 1], i, n)
    ensures WordWindow(s, i, n)
  {
    assert s[..|s| - 1][i..i + n] == s[i..i + n];
  }

  lemma {:induction false} RunHasWindow(s: string, n: nat)
    requires n <= LongestRun(s)
    ensures HasLongWord(s, n)
  {
    if |s| == 0 {
      assert WordWindow(s, 0, 0);
    } else {
      var u := s[..|s| - 1];
      if n <= LongestRun(u) {
        RunHasWindow(u, n);
        var i :| 0 <= i <= |u| - n && WordWindow(u, i, n);
        WindowExtends(s, i, n);
      } else {
        TrailingWindow(s, n);
      }
    }
  }

  /** A window of `n` word characters exists exactly when the longest run reaches `n`. */
  lemma HasLongWordIffRun(s: string, n: nat)
    ensures HasLongWord(s, n) <==> n <= LongestRun(s)
  {
    if HasLongWord(s, n) {
      var i :| 0 <= i <= |s| - n && WordWindow(s, i, n);
      WindowWithinRun(s, i, n);
    }
    if n <= LongestRun(s) {
      RunHasWindow(s, n);
    }
  }

  /** A raised threshold flags fewer values: what is flagged at `n + 1` is flagged at `n`. */
  lemma ThresholdMonotone(s: string, n: nat)
    requires HasLongWord(s, n + 1)
    ensures HasLongWord(s, n)
  {
    HasLongWordIffRun(s, n);
    HasLongWordIffRun(s, n + 1);
  }

  /** A string of word characters is one run as long as itself. */
  lemma {:induction false} LongestRunOfWord(w: string)
    requires AllWordChars(w)
    ensures LongestRun(w) == |w|
  {
    TrailingRunAtLeast(w, |w|);
  }

  /** Strings without word characters, such as "" or "   ", have no run at all. */
  lemma {:induction false} LongestRunOfBlank(s: string)
    requires forall i :: 0 <= i < |s| ==> !IsWordChar(s[i])
    ensures LongestRun(s) == 0
  {
    if |s| > 0 {
      LongestRunOfBlank(s[..|s| - 1]);
    }
  }

  /** A non-word character separates runs: the longest run of a join is the longer side's. */
  lemma {:induction false} LongestRunJoin(a: string, c: char, b: string)
    requires !IsWordChar(c)
    ensures LongestRun(a + [c] + b) == if LongestRun(a) < LongestRun(b) then LongestRun(b) else LongestRun(a)
  {
    var s := a + [c] + b;
    if |b| == 0 {
      assert s[..|s| - 1] == a;
    } else {
      var b' := b[..|b| - 1];
      assert s[..|s| - 1] == a + [c] + b';
      LongestRunJoin(a, c, b');
      TrailingRunJoin(a, c, b);
    }
  }

  lemma {:induction false} TrailingRunJoin(a: string, c: char, b: string)
    requires !IsWordChar(c)
    ensures TrailingRun(a + [c] + b) == TrailingRun(b)
  {
    var s := a + [c] + b;
    if |b| == 0 {
      assert s[|s| - 1] == c;
    } else {
      assert s[|s| - 1] == b[|b| - 1];
      assert s[..|s| - 1] == a + [c] + b[..|b| - 1];
      TrailingRunJoin(a, c, b[..|b| - 1]);
    }
  }

  // ---------------------------------------------------------------------
  // Building the pattern and installing it on the metrics
  // ---------------------------------------------------------------------

  /** Decimal digits of `n`, as `str(n)` writes them. */
  function DecimalString(n: nat): (r: string)
    ensures |r| > 0 && AllDigits(r)
    ensures |r| > 1 ==> r[0] != '0'
  {
    if n < 10 then [('0' as int + n) as char]
    else DecimalString(n / 10) + [('0' as int + n % 10) as char]
  }

  /** The value of a string of decimal digits. */
  function DecimalValue(s: string): nat
    requires AllDigits(s)
  {
    if |s| == 0 then 0
    else DecimalValue(s[..|s| - 1]) * 10 + (s[|s| - 1] as int - '0' as int)
  }

  lemma {:induction false} DecimalRoundTrip(n: nat)
    ensures DecimalValue(DecimalString(n)) == n
  {
    if n >= 10 {
      var r := DecimalString(n);
      assert r[..|r| - 1] == DecimalString(n / 10);
      DecimalRoundTrip(n / 10);
    }
  }

  /** `r"\w{" + str(length_threshold) + r",}"` */
  function LengthRegex(n: nat): string {
    "\\w{" + DecimalString(n) + ",}"
  }

  /** Reads the repetition bound back out of a pattern of the form `\w{digits,}`. */
  function RepetitionBound(regex: string): Option<nat> {
    if |regex| >= 6 && regex[..3] == "\\w{" && regex[|regex| - 2..] == ",}" && AllDigits(regex[3..|regex| - 2])
    then Some(DecimalValue(regex[3..|regex| - 2]))
    else None
  }

  /** The pattern spells out exactly the threshold it was built from. */
  lemma LengthRegexRoundTrip(n: nat)
    ensures RepetitionBound(LengthRegex(n)) == Some(n)
  {
    var d := DecimalString(n);
    var r := LengthRegex(n);
    assert r[..3] == "\\w{";
    assert r[|r| - 2..] == ",}";
    assert r[3..|r| - 2] == d;
    DecimalRoundTrip(n);
  }

  /** `pattern.search(metric_name)` for `^column_values\.not_match_regex\.` */
  predicate IsNotMatchRegexMetric(name: string) {
    |name| >= |NotMatchRegexPrefix| && name[..|NotMatchRegexPrefix|] == NotMatchRegexPrefix
  }

  const NotMatchRegexPrefix: string := "column_values.not_match_regex."

  /** Whether some entry of `metrics` under a matching name holds `m`. */
  ghost predicate Targeted(metrics: seq<(string, MetricConfiguration)>, m: MetricConfiguration) {
    exists i :: 0 <= i < |metrics| && metrics[i].1 == m && IsNotMatchRegexMetric(metrics[i].0)
  }

  /**
   * The override loop of `get_validation_dependencies`: every metric listed
   * under a name starting with `column_values.not_match_regex.` gets its
   * `regex` value kwarg set to `\w{n,}`; every other metric is left alone.
   * `metrics` lists the items of `dependencies["metrics"]` in order.
   */
  method OverrideRegex(metrics: seq<(string, MetricConfiguration)>, n: nat)
    modifies set i | 0 <= i < |metrics| :: metrics[i].1
    ensures forall i :: 0 <= i < |metrics| ==> metrics[i].1.metricName == old(metrics[i].1.metricName)
    ensures forall i :: 0 <= i < |metrics| && Targeted(metrics, metrics[i].1) ==>
      metrics[i].1.metricValueKwargs == old(metrics[i].1.metricValueKwargs)["regex" := Str(LengthRegex(n))]
    ensures forall i :: 0 <= i < |metrics| && !Targeted(metrics, metrics[i].1) ==>
      metrics[i].1.metricValueKwargs == old(metrics[i].1.metricValueKwargs)
  {
    var regex := LengthRegex(n);
    var k := 0;
    while k < |metrics|
      invariant 0 <= k <= |metrics|
      invariant forall i :: 0 <= i < |metrics| ==> metrics[i].1.metricName == old(metrics[i].1.metricName)
      invariant forall i :: 0 <= i < |metrics| && Targeted(metrics[..k], metrics[i].1) ==>
        metrics[i].1.metricValueKwargs == old(metrics[i].1.metricValueKwargs)["regex" := Str(regex)]
      invariant forall i :: 0 <= i < |metrics| && !Targeted(metrics[..k], metrics[i].1) ==>
        metrics[i].1.metricValueKwargs == old(metrics[i].1.metricValueKwargs)
    {
      var (name, m) := metrics[k];
      if IsNotMatchRegexMetric(name) {
        m.metricValueKwargs := m.metricValueKwargs["regex" := Str(regex)];
      }
      assert metrics[..k + 1] == metrics[..k] + [metrics[k]];
      k := k + 1;
    }
    assert metrics[..k] == metrics;
  }

  /**
   * `get_success_kwargs(configuration)["length_threshold"]` as a natural
   * number: the configured value, else the default 30. `None` when that value
   * is not a Python `int` of at least zero (a `float` such as `30.0` included),
   * for which `str()` does not give a repeat count.
   */
  function LengthThreshold(configuration: ExpectationConfiguration): (r: Option<nat>)
    ensures r.Some? ==> SuccessKwarg(configuration, DefaultKwargs, "length_threshold") == Int(r.value)
    ensures r.Some? <==> (SuccessKwarg(configuration, DefaultKwargs, "length_threshold").Int?
                          && SuccessKwarg(configuration, DefaultKwargs, "length_threshold").i >= 0)
  {
    match SuccessKwarg(configuration, DefaultKwargs, "length_threshold")
    case Int(i) => if i >= 0 then Some(i) else None
    case _ => None
  }

  /** Without a configured threshold, the default 30 is used. */
  lemma DefaultThresholdApplies(configuration: ExpectationConfiguration)
    requires "length_threshold" !in configuration.kwargs
    ensures LengthThreshold(configuration) == Some(DefaultLengthThreshold)
  {
    assert SuccessKwarg(configuration, DefaultKwargs, "length_threshold") == Int(DefaultLengthThreshold);
  }

  /** A configured non-negative `int` threshold is the one used. */
  lemma ConfiguredThresholdApplies(configuration: ExpectationConfiguration, n: nat)
    requires "length_threshold" in configuration.kwargs && configuration.kwargs["length_threshold"] == Int(n)
    ensures LengthThreshold(configuration) == Some(n)
  {
  }

  /** A configured `float` threshold, even a whole one, is outside the model. */
  lemma FloatThresholdNotModelled(configuration: ExpectationConfiguration, x: real)
    requires "length_threshold" in configuration.kwargs && configuration.kwargs["length_threshold"] == Num(x)
    ensures LengthThreshold(configuration).None?
  {
  }

  /** The default pattern is `\w{30,}`. */
  lemma DefaultLengthRegex()
    ensures LengthRegex(DefaultLengthThreshold) == "\\w{30,}"
  {
    assert DecimalString(30) == DecimalString(3) + ['0'];
  }

  /**
   * `get_validation_dependencies`. `metrics` lists the items of the
   * `dependencies["metrics"]` the framework computed; the `regex` of every
   * `column_values.not_match_regex.` metric among them is set to `\w{n,}`
   * for the resolved threshold `n`. `ok` is false, and nothing changes, when
   * the threshold is not a whole number of at least zero.
   */
  method GetValidationDependencies(configuration: ExpectationConfiguration, metrics: seq<(string, MetricConfiguration)>)
    returns (ok: bool)
    modifies set i | 0 <= i < |metrics| :: metrics[i].1
    ensures ok == LengthThreshold(configuration).Some?
    ensures forall i :: 0 <= i < |metrics| ==> metrics[i].1.metricName == old(metrics[i].1.metricName)
    ensures ok ==> forall i :: 0 <= i < |metrics| && Targeted(metrics, metrics[i].1) ==>
      metrics[i].1.metricValueKwargs
      == old(metrics[i].1.metricValueKwargs)["regex" := Str(LengthRegex(LengthThreshold(configuration).value))]
    ensures forall i :: 0 <= i < |metrics| && !(ok && Targeted(metrics, metrics[i].1)) ==>
      metrics[i].1.metricValueKwargs == old(metrics[i].1.metricValueKwargs)
    ensures "length_threshold" !in configuration.kwargs ==> ok && forall i :: 0 <= i < |metrics| && Targeted(metrics, metrics[i].1) ==>
      metrics[i].1.metricValueKwargs == old(metrics[i].1.metricValueKwargs)["regex" := Str(LengthRegex(DefaultLengthThreshold))]
  {
    var lengthThreshold := LengthThreshold(configuration);
    if lengthThreshold.None? {
      return false;
    }
    OverrideRegex(metrics, lengthThreshold.value);
    if "length_threshold" !in configuration.kwargs {
      DefaultThresholdApplies(configuration);
    }
    ok := true;
  }

  const DefaultLengthThreshold: nat := 30

  const DefaultKwargs: Kwargs := map["length_threshold" := Int(30), "mostly" := Num(0.95)]

  const ExpectationType: string := "expect_column_values_to_not_contain_long_data_value_smell"

  const Metadata: DataSmellMetadata := DataSmellMetadata(LONG_DATA_VALUE_SMELL, [STRING])
}

/**
 * Columns shipped with the long data value expectation. The three long
 * test words ("Incomprehensibilities", 21 letters;
 * "Pneumonoultramicroscopicsilicovolcanoconiosis", 45 letters;
 * "Pseudopseudohypoparathyroidism", 30 letters) enter as any words of
 * word characters with those lengths.
 */
module LongValueExamples {
  import opened Ascii
  import opened ColumnMap
  import opened LongValue

  /** The `no_spaces` column. */
  function NoSpaces(w21: string, w45: string, w30: string): seq<string> {
    ["word", w21, w45, "", w30]
  }

  predicate LongWords(w21: string, w45: string, w30: string) {
    AllWordChars(w21) && |w21| == 21 && AllWordChars(w45) && |w45| == 45 && AllWordChars(w30) && |w30| == 30
  }

  lemma NoSpacesRuns(w21: string, w45: string, w30: string)
    requires LongWords(w21, w45, w30)
    ensures LongestRun("word") == 4 && LongestRun(w21) == 21 && LongestRun(w45) == 45
    ensures LongestRun("") == 0 && LongestRun(w30) == 30
  {
    LongestRunOfWord("word");
    LongestRunOfWord(w21);
    LongestRunOfWord(w45);
    LongestRunOfWord(w30);
  }

  /** The longest word has 45 characters, so threshold 50 flags nothing. */
  lemma NoSpacesThreshold50(w21: string, w45: string, w30: string)
    requires LongWords(w21, w45, w30)
    ensures Unexpected(NoSpaces(w21, w45, w30), x => Passes(50, x)) == []
  {
    var column := NoSpaces(w21, w45, w30);
    NoSpacesRuns(w21, w45, w30);
    HasLongWordIffRun("word", 50);
    HasLongWordIffRun(w21, 50);
    HasLongWordIffRun(w45, 50);
    HasLongWordIffRun("", 50);
    HasLongWordIffRun(w30, 50);
    NothingUnexpected(column, x => Passes(50, x));
  }

  /** The bound is inclusive: the 30-letter word is flagged at threshold 30. */
  lemma NoSpacesThreshold30(w21: string, w45: string, w30: string)
    requires LongWords(w21, w45, w30)
    ensures Unexpected(NoSpaces(w21, w45, w30), x => Passes(30, x)) == [w45, w30]
  {
    var column := NoSpaces(w21, w45, w30);
    NoSpacesRuns(w21, w45, w30);
    HasLongWordIffRun("word", 30);
    HasLongWordIffRun(w21, 30);
    HasLongWordIffRun(w45, 30);
    HasLongWordIffRun("", 30);
    HasLongWordIffRun(w30, 30);
    var f := x => Passes(30, x);
    UnexpectedCons(w30, [], f);
    UnexpectedCons("", [w30], f);
    UnexpectedCons(w45, ["", w30], f);
    UnexpectedCons(w21, [w45, "", w30], f);
    UnexpectedCons("word", [w21, w45, "", w30], f);
  }

  /** Threshold 20 also flags the 21-letter word. */
  lemma NoSpacesThreshold20(w21: string, w45: string, w30: string)
    requires LongWords(w21, w45, w30)
    ensures Unexpected(NoSpaces(w21, w45, w30), x => Passes(20, x)) == [w21, w45, w30]
  {
    var column := NoSpaces(w21, w45, w30);
    NoSpacesRuns(w21, w45, w30);
    HasLongWordIffRun("word", 20);
    HasLongWordIffRun(w21, 20);
    HasLongWordIffRun(w45, 20);
    HasLongWordIffRun("", 20);
    HasLongWordIffRun(w30, 20);
    var f := x => Passes(20, x);
    UnexpectedCons(w30, [], f);
    UnexpectedCons("", [w30], f);
    UnexpectedCons(w45, ["", w30], f);
    UnexpectedCons(w21, [w45, "", w30], f);
    UnexpectedCons("word", [w21, w45, "", w30], f);
  }

  /** Padding a word with spaces or with short words on either side keeps its run. */
  lemma PaddingKeepsRun(left: string, w: string, right: string)
    requires AllWordChars(w) && |w| >= LongestRun(left) && |w| >= LongestRun(right)
    ensures LongestRun(left + " " + w + " " + right) == |w|
  {
    LongestRunOfWord(w);
    assert left + " " + w + " " + right == left + [' '] + (w + [' '] + right);
    LongestRunJoin(w, ' ', right);
    LongestRunJoin(left, ' ', w + [' '] + right);
  }

  /** Blank strings never hold a long value, not even at threshold 1. */
  lemma BlankNotFlagged(s: string, n: nat)
    requires forall i :: 0 <= i < |s| ==> s[i] == ' '
    requires n >= 1
    ensures Passes(n, s)
  {
    LongestRunOfBlank(s);
    HasLongWordIffRun(s, n);
  }
}
