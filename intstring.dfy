/**
 * The integer-as-string smell: a string value that spells an integer,
 * detected with the fixed pattern `^(?:\+|-)?\d+$` through the framework's
 * `column_values.not_match_regex` metric (a row passes when the pattern
 * is not found).
 */
module IntegerAsString {
  import opened Wrappers
  import opened Ascii
  import opened Core
  import opened GreatExpectations
  import opened DataSmell

  /** `s` without its optional leading sign. */
  function Unsigned(s: string): (r: string)
    ensures |s| - 1 <= |r| <= |s|
  {
    if |s| > 0 && IsSign(s[0]) then s[1..] else s
  }

  /** `(?:\+|-)?\d+` spans all of `s`. */
  predicate IntegerLiteral(s: string) {
    |Unsigned(s)| > 0 && AllDigits(Unsigned(s))
  }

  /**
   * `re.search(r'^(?:\+|-)?\d+$', s)`: `^` anchors at the start and `$`
   * at the end or just before one final newline.
   */
  predicate MatchesIntegerRegex(s: string) {
    IntegerLiteral(s) || (|s| > 0 && s[|s| - 1] == '\n' && IntegerLiteral(s[..|s| - 1]))
  }

  /** The per-row condition of `not_match_regex`. */
  predicate Passes(s: string) {
    !MatchesIntegerRegex(s)
  }

  /** An integer literal is an optional sign followed by one or more digits, and nothing else. */
  lemma IntegerLiteralShape(s: string)
    ensures IntegerLiteral(s) <==>
      exists sign: string, digits: string :: (sign == "" || sign == "+" || sign == "-")
        && |digits| > 0 && AllDigits(digits) && s == sign + digits
  {
    if IntegerLiteral(s) {
      var sign := s[..|s| - |Unsigned(s)|];
      assert s == sign + Unsigned(s);
      assert sign == "" || sign == "+" || sign == "-" by {
        if |s| > 0 && IsSign(s[0]) { assert sign == [s[0]]; }
      }
    }
    if exists sign: string, digits: string :: (sign == "" || sign == "+" || sign == "-")
        && |digits| > 0 && AllDigits(digits) && s == sign + digits
    {
      var sign: string, digits: string :| (sign == "" || sign == "+" || sign == "-")
        && |digits| > 0 && AllDigits(digits) && s == sign + digits;
      if sign == "" {
        assert s == digits;
        assert !IsSign(s[0]);
      } else {
        assert s[0] == sign[0] && s[1..] == digits;
      }
    }
  }

  /** A matching string holds digits only, apart from a leading sign and a final newline. */
  lemma MatchedCharacters(s: string, i: int)
    requires MatchesIntegerRegex(s) && 0 <= i < |s|
    ensures IsDigit(s[i]) || (i == 0 && IsSign(s[i])) || (i == |s| - 1 && s[i] == '\n')
  {
    var t := if IntegerLiteral(s) then s else s[..|s| - 1];
    if i < |t| {
      assert s[i] == t[i];
      if i > 0 || !IsSign(t[0]) {
        assert Unsigned(t) == t[|t| - |Unsigned(t)|..];
        assert t[i] == Unsigned(t)[i - (|t| - |Unsigned(t)|)];
      }
    }
  }

  /** Strings with spaces, letters or a decimal point never match. */
  lemma OtherCharactersPass(s: string, i: int)
    requires 0 <= i < |s| && (s[i] == ' ' || IsLetter(s[i]) || s[i] == '.' || s[i] == ',')
    ensures Passes(s)
  {
    if MatchesIntegerRegex(s) {
      MatchedCharacters(s, i);
    }
  }

  datatype ValidationError = ConfigurationIsNone | RegexCannotBeAltered

  /** `validate_configuration`'s own assertions; the framework's inherited checks are not modelled. */
  function ValidateConfiguration(configuration: Option<ExpectationConfiguration>): (r: Result<(), ValidationError>)
    ensures configuration.None? ==> r == Failure(ConfigurationIsNone)
    ensures configuration.Some? ==> (r.Success? <==> "regex" !in configuration.value.kwargs)
    ensures r.Failure? && configuration.Some? ==> r.error == RegexCannotBeAltered
  {
    if configuration.None? then Failure(ConfigurationIsNone)
    else if "regex" in configuration.value.kwargs then Failure(RegexCannotBeAltered)
    else Success(())
  }

  const IntegerRegex: string := "^(?:\\+|-)?\\d+$"

  const DefaultKwargs: Kwargs := map["catch_exceptions" := Bool(true), "regex" := Str(IntegerRegex), "mostly" := Num(0.1)]

  /** A configuration that passes validation always runs with the built-in pattern. */
  lemma ValidatedUsesFixedRegex(configuration: ExpectationConfiguration)
    requires ValidateConfiguration(Some(configuration)).Success?
    ensures SuccessKwarg(configuration, DefaultKwargs, "regex") == Str(IntegerRegex)
  {
  }

  const ExpectationType: string := "expect_column_values_to_not_contain_integer_as_string_smell"

  const Metadata: DataSmellMetadata := DataSmellMetadata(INTEGER_AS_STRING_SMELL, [STRING])
}

/** The example columns shipped with the integer-as-string expectation. */
module IntegerAsStringExamples {
  import opened ColumnMap
  import opened IntegerAsString

  /** `floats`: floating point strings are not integers. */
  lemma FloatsPass()
    ensures Unexpected(["0.0", "+3.14", "-5.3", "3.", "-5."], Passes) == []
  {
    assert Passes("0.0") by { OtherCharactersPass("0.0", 1); }
    assert Passes("+3.14") by { OtherCharactersPass("+3.14", 2); }
    assert Passes("-5.3") by { OtherCharactersPass("-5.3", 2); }
    assert Passes("3.") by { OtherCharactersPass("3.", 1); }
    assert Passes("-5.") by { OtherCharactersPass("-5.", 2); }
  }

  /** `spaces_before`: a leading space defeats the anchored pattern. */
  lemma SpacesBeforePass()
    ensures Unexpected([" +1", " -3", " 5", " -4", " 0"], Passes) == []
  {
    assert Passes(" +1") by { OtherCharactersPass(" +1", 0); }
    assert Passes(" -3") by { OtherCharactersPass(" -3", 0); }
    assert Passes(" 5") by { OtherCharactersPass(" 5", 0); }
    assert Passes(" -4") by { OtherCharactersPass(" -4", 0); }
    assert Passes(" 0") by { OtherCharactersPass(" 0", 0); }
  }

  /** `spaces_after`: so does a trailing space. */
  lemma SpacesAfterPass()
    ensures Unexpected(["+1 ", "-3 ", "5 ", "-4 ", "0 "], Passes) == []
  {
    assert Passes("+1 ") by { OtherCharactersPass("+1 ", 2); }
    assert Passes("-3 ") by { OtherCharactersPass("-3 ", 2); }
    assert Passes("5 ") by { OtherCharactersPass("5 ", 1); }
    assert Passes("-4 ") by { OtherCharactersPass("-4 ", 2); }
    assert Passes("0 ") by { OtherCharactersPass("0 ", 1); }
  }

  /** `integer_in_word`: digits inside words are not integers. */
  lemma IntegerInWordPass()
    ensures Unexpected(["a3b", "abc d-2ef", "a0", "3d", "test abc 3d ef"], Passes) == []
  {
    assert Passes("a3b") by { OtherCharactersPass("a3b", 0); }
    assert Passes("abc d-2ef") by { OtherCharactersPass("abc d-2ef", 0); }
    assert Passes("a0") by { OtherCharactersPass("a0", 0); }
    assert Passes("3d") by { OtherCharactersPass("3d", 1); }
    assert Passes("test abc 3d ef") by { OtherCharactersPass("test abc 3d ef", 0); }
  }

  /** `integers_col1`: exactly "-2", "5" and "0" are flagged; "abc" and "" are not. */
  lemma IntegersCol1()
    ensures Unexpected(["abc", "-2", "5", "", "0"], Passes) == ["-2", "5", "0"]
  {
    assert Passes("abc") by { OtherCharactersPass("abc", 0); }
    assert MatchesIntegerRegex("-2") by { assert Unsigned("-2") == "2"; }
    assert MatchesIntegerRegex("5") && MatchesIntegerRegex("0");
    assert !MatchesIntegerRegex("");
  }
}
