/**
 * The floating-point-number-as-string smell: a string value that spells a
 * decimal number, detected with the fixed pattern `^(?:\+|-)?\d+\.\d*$`
 * through `column_values.not_match_regex`.
 */
module FloatAsString {
  import opened Wrappers
  import opened Ascii
  import opened Core
  import opened GreatExpectations
  import opened DataSmell
  import IntegerAsString

  /** Length of the run of digits at the start of `s`. */
  function DigitRun(s: string): (n: nat)
    ensures n <= |s|
    ensures AllDigits(s[..n])
    ensures n < |s| ==> !IsDigit(s[n])
  {
    if |s| == 0 || !IsDigit(s[0]) then 0
    else
      var n := 1 + DigitRun(s[1..]);
      assert forall k :: 1 <= k < n ==> s[k] == s[1..][k - 1];
      n
  }

  /** `(?:\+|-)?\d+\.\d*` spans all of `s`. */
  predicate FloatLiteral(s: string) {
    var t := IntegerAsString.Unsigned(s);
    var n := DigitRun(t);
    0 < n < |t| && t[n] == '.' && AllDigits(t[n + 1..])
  }

  /** `re.search(r'^(?:\+|-)?\d+\.\d*$', s)`, with `$` also matching before one final newline. */
  predicate MatchesFloatRegex(s: string) {
    FloatLiteral(s) || (|s| > 0 && s[|s| - 1] == '\n' && FloatLiteral(s[..|s| - 1]))
  }

  /** The per-row condition of `not_match_regex`. */
  predicate Passes(s: string) {
    !MatchesFloatRegex(s)
  }

  /** A run of `m` digits followed by a non-digit or the end is the digit run. */
  lemma {:induction false} DigitRunAt(t: string, m: nat)
    requires m <= |t| && AllDigits(t[..m]) && (m < |t| ==> !IsDigit(t[m]))
    ensures DigitRun(t) == m
  {
    if m > 0 {
      assert t[..m][0] == t[0];
      assert t[1..][..m - 1] == t[..m][1..];
      DigitRunAt(t[1..], m - 1);
    }
  }

  /** Every sign, non-empty digit string, point and digit string spell a float literal. */
  lemma FloatOf(sign: string, whole: string, fraction: string)
    requires sign == "" || sign == "+" || sign == "-"
    requires |whole| > 0 && AllDigits(whole) && AllDigits(fraction)
    ensures FloatLiteral(sign + whole + "." + fraction)
  {
    var s := sign + whole + "." + fraction;
    var u := whole + "." + fraction;
    if sign == "" {
      assert s == u;
      assert s[0] == whole[0];
    } else {
      assert s == [sign[0]] + u;
      assert s[1..] == u;
    }
    assert IntegerAsString.Unsigned(s) == u;
    assert u[..|whole|] == whole && u[|whole|] == '.';
    DigitRunAt(u, |whole|);
    assert u[|whole| + 1..] == fraction;
  }

  /** The same, read off positions: an optional sign, digits, a point at `point`, digits. */
  lemma FloatAt(s: string, start: nat, point: nat)
    requires start < point < |s| && s[point] == '.'
    requires start == (if IsSign(s[0]) then 1 else 0)
    requires AllDigits(s[start..point]) && AllDigits(s[point + 1..])
    ensures FloatLiteral(s)
  {
    var t := IntegerAsString.Unsigned(s);
    var m := point - start;
    assert t == s[start..];
    assert t[..m] == s[start..point];
    assert t[m + 1..] == s[point + 1..];
    DigitRunAt(t, m);
  }

  /**
   * A float literal is an optional sign, one or more digits, a point and
   * any number of digits, and nothing else; so "3." counts as well as "3.14".
   */
  lemma FloatLiteralShape(s: string)
    ensures FloatLiteral(s) <==>
      exists sign: string, whole: string, fraction: string :: (sign == "" || sign == "+" || sign == "-")
        && |whole| > 0 && AllDigits(whole) && AllDigits(fraction) && s == sign + whole + "." + fraction
  {
    if FloatLiteral(s) {
      var t := IntegerAsString.Unsigned(s);
      var n := DigitRun(t);
      var sign := s[..|s| - |t|];
      var whole, fraction := t[..n], t[n + 1..];
      assert t == whole + "." + fraction;
      assert s == sign + t;
      assert sign == "" || sign == "+" || sign == "-" by {
        if |s| > 0 && IsSign(s[0]) { assert sign == [s[0]]; }
      }
      assert s == sign + whole + "." + fraction;
    }
    if exists sign: string, whole: string, fraction: string :: (sign == "" || sign == "+" || sign == "-")
        && |whole| > 0 && AllDigits(whole) && AllDigits(fraction) && s == sign + whole + "." + fraction
    {
      var sign: string, whole: string, fraction: string :| (sign == "" || sign == "+" || sign == "-")
        && |whole| > 0 && AllDigits(whole) && AllDigits(fraction) && s == sign + whole + "." + fraction;
      FloatOf(sign, whole, fraction);
    }
  }

  /** A float literal holds digits, one point, and at most a leading sign. */
  lemma LiteralCharacters(u: string, i: int)
    requires FloatLiteral(u) && 0 <= i < |u|
    ensures IsDigit(u[i]) || (i == 0 && IsSign(u[i])) || u[i] == '.'
  {
    var t := IntegerAsString.Unsigned(u);
    var n := DigitRun(t);
    var offset := |u| - |t|;
    assert t == u[offset..];
    if i >= offset {
      var j := i - offset;
      assert u[i] == t[j];
      if j < n {
        assert t[..n][j] == t[j];
      } else if j > n {
        assert t[n + 1..][j - n - 1] == t[j];
      }
    } else {
      assert offset == 1 && i == 0;
    }
  }

  /** Where the point of a matching string is. */
  lemma PointPosition(s: string) returns (i: int)
    requires MatchesFloatRegex(s)
    ensures 0 <= i < |s| && s[i] == '.'
  {
    var u := if FloatLiteral(s) then s else s[..|s| - 1];
    var t := IntegerAsString.Unsigned(u);
    var n := DigitRun(t);
    i := n + (|u| - |t|);
    assert u == u[..|u| - |t|] + t;
    assert u[i] == '.';
  }

  /** A float string always holds a point, and an integer string never does: no string is both. */
  lemma DisjointFromIntegers(s: string)
    ensures !(MatchesFloatRegex(s) && IntegerAsString.MatchesIntegerRegex(s))
  {
    if MatchesFloatRegex(s) {
      var i := PointPosition(s);
      IntegerAsString.OtherCharactersPass(s, i);
    }
  }

  /** Strings with spaces, letters or a comma never match. */
  lemma OtherCharactersPass(s: string, i: int)
    requires 0 <= i < |s| && (s[i] == ' ' || IsLetter(s[i]) || s[i] == ',')
    ensures Passes(s)
  {
    if FloatLiteral(s) {
      LiteralCharacters(s, i);
    } else if |s| > 0 && s[|s| - 1] == '\n' && FloatLiteral(s[..|s| - 1]) {
      LiteralCharacters(s[..|s| - 1], i);
    }
  }

  datatype ValidationError = ConfigurationIsNone | RegexCannotBeAltered

  /** `validate_configuration`'s own assertions; the framework's inherited checks are not modelled. */
  function ValidateConfiguration(configuration: Option<ExpectationConfiguration>): (r: Result<(), ValidationError>)
    ensures configuration.None? ==> r == Failure(ConfigurationIsNone)
    ensures configuration.Some? ==> (r.Success? <==> "regex" !in configuration.value.kwargs)
    ensures r.Failure? && configuration.Some? ==> r.error == RegexCannotBeAltered
  {
    if configuration.None? then Failure(ConfigurationIsNone)
    else if "regex" in configuration.value.kwargs then Failure(RegexCannotBeAltered)
    else Success(())
  }

  const FloatRegex: string := "^(?:\\+|-)?\\d+\\.\\d*$"

  const DefaultKwargs: Kwargs := map["catch_exceptions" := Bool(true), "regex" := Str(FloatRegex), "mostly" := Num(0.1)]

  /** A configuration that passes validation always runs with the built-in pattern. */
  lemma ValidatedUsesFixedRegex(configuration: ExpectationConfiguration)
    requires ValidateConfiguration(Some(configuration)).Success?
    ensures SuccessKwarg(configuration, DefaultKwargs, "regex") == Str(FloatRegex)
  {
  }

  const ExpectationType: string := "expect_column_values_to_not_contain_floating_point_number_as_string_smell"

  const Metadata: DataSmellMetadata := DataSmellMetadata(FLOATING_POINT_NUMBER_AS_STRING_SMELL, [STRING])
}

/** The example columns shipped with the floating-point-number-as-string expectation. */
module FloatAsStringExamples {
  import opened ColumnMap
  import IntegerAsString
  import opened FloatAsString

  /** `integers`: integer strings are not flagged. */
  lemma IntegersPass()
    ensures Unexpected(["0", "+3", "-5", "4", "-8"], Passes) == []
  {
    assert IntegerAsString.MatchesIntegerRegex("0") && IntegerAsString.MatchesIntegerRegex("4");
    assert IntegerAsString.MatchesIntegerRegex("+3") by { assert IntegerAsString.Unsigned("+3") == "3"; }
    assert IntegerAsString.MatchesIntegerRegex("-5") by { assert IntegerAsString.Unsigned("-5") == "5"; }
    assert IntegerAsString.MatchesIntegerRegex("-8") by { assert IntegerAsString.Unsigned("-8") == "8"; }
    DisjointFromIntegers("0");
    DisjointFromIntegers("+3");
    DisjointFromIntegers("-5");
    DisjointFromIntegers("4");
    DisjointFromIntegers("-8");
  }

  const FloatsShortColumn: seq<string> := ["0.", "+3.", "-5.", "3.", "-8."]

  /** `floats_short`: a point with no digits after it is flagged. */
  lemma FloatsShort()
    ensures Unexpected(FloatsShortColumn, Passes) == FloatsShortColumn
  {
    forall i | 0 <= i < |FloatsShortColumn| ensures !Passes(FloatsShortColumn[i]) {
      if i == 0 { FloatAt("0.", 0, 1); }
      else if i == 1 { FloatAt("+3.", 1, 2); }
      else if i == 2 { FloatAt("-5.", 1, 2); }
      else if i == 3 { FloatAt("3.", 0, 1); }
      else { FloatAt("-8.", 1, 2); }
    }
    EverythingUnexpected(FloatsShortColumn, Passes);
  }

  const FloatsLongColumn: seq<string> := ["0.0", "+3.14", "-5.3", "3.14", "-5.7"]

  /** `floats_long`: points followed by digits are flagged. */
  lemma FloatsLong()
    ensures Unexpected(FloatsLongColumn, Passes) == FloatsLongColumn
  {
    forall i | 0 <= i < |FloatsLongColumn| ensures !Passes(FloatsLongColumn[i]) {
      if i == 0 { FloatAt("0.0", 0, 1); }
      else if i == 1 { FloatAt("+3.14", 1, 2); }
      else if i == 2 { FloatAt("-5.3", 1, 2); }
      else if i == 3 { FloatAt("3.14", 0, 1); }
      else { FloatAt("-5.7", 1, 2); }
    }
    EverythingUnexpected(FloatsLongColumn, Passes);
  }

  /** `wrong_point_character_long`: a comma is not a decimal point. */
  lemma WrongPointCharacterPass()
    ensures Unexpected(["0,0", "+3,14", "-5,3", "3,14", "-5,7"], Passes) == []
  {
    assert Passes("0,0") by { OtherCharactersPass("0,0", 1); }
    assert Passes("+3,14") by { OtherCharactersPass("+3,14", 2); }
    assert Passes("-5,3") by { OtherCharactersPass("-5,3", 2); }
    assert Passes("3,14") by { OtherCharactersPass("3,14", 1); }
    assert Passes("-5,7") by { OtherCharactersPass("-5,7", 2); }
  }

  /** `spaces_before_long`: leading spaces defeat the anchored pattern. */
  lemma SpacesBeforePass()
    ensures Unexpected([" 0.0", " +3.14", " -5.3", " 3.14", " -5.7"], Passes) == []
  {
    assert Passes(" 0.0") by { OtherCharactersPass(" 0.0", 0); }
    assert Passes(" +3.14") by { OtherCharactersPass(" +3.14", 0); }
    assert Passes(" -5.3") by { OtherCharactersPass(" -5.3", 0); }
    assert Passes(" 3.14") by { OtherCharactersPass(" 3.14", 0); }
    assert Passes(" -5.7") by { OtherCharactersPass(" -5.7", 0); }
  }

  /** `spaces_after_short`: so do trailing spaces. */
  lemma SpacesAfterPass()
    ensures Unexpected(["0. ", "+3. ", "-5. ", "3. ", "-8. "], Passes) == []
  {
    assert Passes("0. ") by { OtherCharactersPass("0. ", 2); }
    assert Passes("+3. ") by { OtherCharactersPass("+3. ", 3); }
    assert Passes("-5. ") by { OtherCharactersPass("-5. ", 3); }
    assert Passes("3. ") by { OtherCharactersPass("3. ", 2); }
    assert Passes("-8. ") by { OtherCharactersPass("-8. ", 3); }
  }

  /** `in_word_short`: numbers inside words are not flagged. */
  lemma InWordPass()
    ensures Unexpected(["a3.b", "abc d-2.ef", "a0.", "3.d", "test abc 3.d ef"], Passes) == []
  {
    assert Passes("a3.b") by { OtherCharactersPass("a3.b", 0); }
    assert Passes("abc d-2.ef") by { OtherCharactersPass("abc d-2.ef", 0); }
    assert Passes("a0.") by { OtherCharactersPass("a0.", 0); }
    assert Passes("3.d") by { OtherCharactersPass("3.d", 2); }
    assert Passes("test abc 3.d ef") by { OtherCharactersPass("test abc 3.d ef", 0); }
  }

  /** `floats_col1`: exactly "-2.", "5.8" and "0.0" are flagged; "abc" and "" are not. */
  lemma FloatsCol1()
    ensures Unexpected(["abc", "-2.", "5.8", "", "0.0"], Passes) == ["-2.", "5.8", "0.0"]
  {
    assert Passes("abc") by { OtherCharactersPass("abc", 0); }
    assert !Passes("-2.") by { FloatAt("-2.", 1, 2); }
    assert !Passes("5.8") by { FloatAt("5.8", 0, 1); }
    assert !Passes("0.0") by { FloatAt("0.0", 0, 1); }
    assert !MatchesFloatRegex("");
  }
}
