/**
  Concrete runs of the masks of the package's test suites
  (Tests/MaskingCoreTests), with ASCII digits and letters standing for
  Swift's `isNumber` and `isLetter`. Each lemma follows the scan one step at
  a time; long scans are cut into pieces of a few steps over a mask given by
  its fields.
 */
module MaskExamples {
  import opened AllowLists
  import opened MaskingCore
  import opened MaskProperties

  /** ASCII digits, the only digits these inputs use. */
  function AsciiDigit(c: char): (r: bool)
    ensures r <==> '0' <= c <= '9'
  {
    '0' <= c <= '9'
  }

  /** ASCII letters, the only letters these inputs use. */
  function AsciiLetter(c: char): (r: bool)
    ensures r <==> 'a' <= c <= 'z' || 'A' <= c <= 'Z'
  {
    'a' <= c <= 'z' || 'A' <= c <= 'Z'
  }

  const Ascii: CharClasses := CharClasses(AsciiDigit, AsciiLetter)

  const LettersDigitsIgnoring: Mask := NewMask(Ignore, "LL-DD", [], None)
  const LettersDigitsConsuming: Mask := NewMask(Consume, "LL-DD", [], None)
  const ConditionIgnoring: Mask := NewMask(Ignore, "C-DD", ["7,8"], None)
  const ConditionConsuming: Mask := NewMask(Consume, "C-DD", ["7,8"], None)
  const PhoneIgnoring: Mask := NewMask(Ignore, "+C(DDD)-DDD-DD-DD", ["7, 8"], Some("+7(DDD)-DDD-DD-DD"))
  const PhoneConsuming: Mask := NewMask(Consume, "+C(DDD)-DDD-DD-DD", ["7, 8"], Some("+7(DDD)-DDD-DD-DD"))

  /** "7,8" splits into "7" and "8". */
  lemma SplitSevenEight()
    ensures SplitCommas("7,8") == ["7", "8"]
  {
    SplitPlain("8");
    SplitAfter("7", "8");
    assert "7" + [','] + "8" == "7,8";
  }

  /** The condition "7,8" allows exactly "7" and "8". */
  lemma ConditionParsed()
    ensures AllowList("7,8") == ["7", "8"]
  {
    SplitSevenEight();
  }

  /** The phone condition "7, 8" allows exactly "7" and "8": the space is dropped. */
  lemma PhoneConditionParsed()
    ensures AllowList("7, 8") == ["7", "8"]
  {
    assert RemoveSpaces(" 8") == "8" by {
      assert " 8"[1..] == "8";
    }
    assert RemoveSpaces(", 8") == ",8" by {
      assert ", 8"[1..] == " 8";
    }
    assert RemoveSpaces("7, 8") == "7,8" by {
      assert "7, 8"[1..] == ", 8";
    }
    ConditionParsed();
  }

  /** The phone template has the expression's length, so `init` keeps it. */
  lemma PhoneKeepsTemplate()
    ensures PhoneIgnoring.template == Some("+7(DDD)-DDD-DD-DD")
    ensures PhoneConsuming.template == Some("+7(DDD)-DDD-DD-DD")
  {
  }

  // ---------------------------------------------------------------------------
  // "LL-DD" (MaskingIgnoreCoreTests.swift:6, MaskingConsumeCoreTests.swift:6)
  // ---------------------------------------------------------------------------

  /** Under `.ignore`, digits never fill a letter slot: "1212" gives nothing. */
  lemma LettersDigitsIgnoreDigits()
    ensures Masked(LettersDigitsIgnoring, Ascii, "1212") == ""
  {
    var m, input := LettersDigitsIgnoring, "1212";
    assert IgnoreStep(m, Ascii, input, Scan(0, 0, 0, "", "")) == Scan(1, 0, 0, "", "");
    assert IgnoreStep(m, Ascii, input, Scan(1, 0, 0, "", "")) == Scan(2, 0, 0, "", "");
    assert IgnoreStep(m, Ascii, input, Scan(2, 0, 0, "", "")) == Scan(3, 0, 0, "", "");
    assert IgnoreStep(m, Ascii, input, Scan(3, 0, 0, "", "")) == Scan(4, 0, 0, "", "");
    assert IgnoreRun(m, Ascii, input, Scan(4, 0, 0, "", "")) == "";
  }

  /** Under `.ignore`, "12aa" skips the digits, fills the letter slots and stops before the pending "-": "aa". */
  lemma LettersDigitsIgnoreLetters()
    ensures Masked(LettersDigitsIgnoring, Ascii, "12aa") == "aa"
  {
    var m, input := LettersDigitsIgnoring, "12aa";
    assert IgnoreStep(m, Ascii, input, Scan(0, 0, 0, "", "")) == Scan(1, 0, 0, "", "");
    assert IgnoreStep(m, Ascii, input, Scan(1, 0, 0, "", "")) == Scan(2, 0, 0, "", "");
    assert IgnoreStep(m, Ascii, input, Scan(2, 0, 0, "", "")) == Scan(3, 1, 0, "a", "");
    assert IgnoreStep(m, Ascii, input, Scan(3, 1, 0, "a", "")) == Scan(4, 2, 0, "aa", "");
    assert IgnoreRun(m, Ascii, input, Scan(4, 2, 0, "aa", "")) == "aa";
  }

  /** Under `.ignore`, "ab" fills the letter slots; the "-" after them is not emitted: "ab". */
  lemma LettersDigitsIgnoreShort()
    ensures Masked(LettersDigitsIgnoring, Ascii, "ab") == "ab"
  {
    var m, input := LettersDigitsIgnoring, "ab";
    assert IgnoreStep(m, Ascii, input, Scan(0, 0, 0, "", "")) == Scan(1, 1, 0, "a", "");
    assert IgnoreStep(m, Ascii, input, Scan(1, 1, 0, "a", "")) == Scan(2, 2, 0, "ab", "");
    assert IgnoreRun(m, Ascii, input, Scan(2, 2, 0, "ab", "")) == "ab";
  }

  /**
    The recorded reads tie each output character to the input character read
    for it, in order: the only two-character output of "ab" reads position 0
    then position 1 and is "ab" (so not, say, "aa").
   */
  lemma LettersDigitsIgnoreReadsInOrder(r: string, qs: seq<nat>)
    requires IgnoreOutput(LettersDigitsIgnoring, Ascii, "ab", r, qs) && |r| == 2
    ensures qs == [0, 1] && r == "ab"
  {
    var m, input := LettersDigitsIgnoring, "ab";
    assert EmittedAt(m, Ascii, input, 0, CountConditions(m.expression[..0]), qs[0], r[0]);
    assert EmittedAt(m, Ascii, input, 1, CountConditions(m.expression[..1]), qs[1], r[1]);
    assert qs[0] < qs[1];
  }

  /** The scan of "!!ab__12??", steps 1 to 4. */
  lemma LettersDigitsIgnoreNoiseSteps0()
    ensures IgnoreRun(LettersDigitsIgnoring, Ascii, "!!ab__12??", Scan(0, 0, 0, "", "")) == IgnoreRun(LettersDigitsIgnoring, Ascii, "!!ab__12??", Scan(4, 2, 0, "ab", ""))
  {
    var m, input := LettersDigitsIgnoring, "!!ab__12??";
    assert IgnoreStep(m, Ascii, input, Scan(3, 1, 0, "a", "")) == Scan(4, 2, 0, "ab", "");
    assert IgnoreRun(m, Ascii, input, Scan(3, 1, 0, "a", "")) == IgnoreRun(m, Ascii, input, Scan(4, 2, 0, "ab", ""));
    assert IgnoreStep(m, Ascii, input, Scan(2, 0, 0, "", "")) == Scan(3, 1, 0, "a", "");
    assert IgnoreRun(m, Ascii, input, Scan(2, 0, 0, "", "")) == IgnoreRun(m, Ascii, input, Scan(4, 2, 0, "ab", ""));
    assert IgnoreStep(m, Ascii, input, Scan(1, 0, 0, "", "")) == Scan(2, 0, 0, "", "");
    assert IgnoreRun(m, Ascii, input, Scan(1, 0, 0, "", "")) == IgnoreRun(m, Ascii, input, Scan(4, 2, 0, "ab", ""));
    assert IgnoreStep(m, Ascii, input, Scan(0, 0, 0, "", "")) == Scan(1, 0, 0, "", "");
  }

  /** Under `.ignore`, noise around valid characters is skipped: "!!ab__12??" gives "ab-12". */
  lemma LettersDigitsIgnoreNoise()
    ensures Masked(LettersDigitsIgnoring, Ascii, "!!ab__12??") == "ab-12"
  {
    var m, input := LettersDigitsIgnoring, "!!ab__12??";
    LettersDigitsIgnoreNoiseSteps0();
    assert IgnoreStep(m, Ascii, input, Scan(4, 2, 0, "ab", "")) == Scan(4, 3, 0, "ab", "-");
    assert IgnoreStep(m, Ascii, input, Scan(4, 3, 0, "ab", "-")) == Scan(5, 3, 0, "ab", "-");
    assert IgnoreStep(m, Ascii, input, Scan(5, 3, 0, "ab", "-")) == Scan(6, 3, 0, "ab", "-");
    assert IgnoreStep(m, Ascii, input, Scan(6, 3, 0, "ab", "-")) == Scan(7, 4, 0, "ab-1", "");
    assert IgnoreStep(m, Ascii, input, Scan(7, 4, 0, "ab-1", "")) == Scan(8, 5, 0, "ab-12", "");
    assert IgnoreRun(m, Ascii, input, Scan(8, 5, 0, "ab-12", "")) == "ab-12";
  }

  /** Under `.consume`, the digits of "1212" use up the letter slots and then fill the digit slots: "-12". */
  lemma LettersDigitsConsumeDigits()
    ensures Masked(LettersDigitsConsuming, Ascii, "1212") == "-12"
  {
    var m, input := LettersDigitsConsuming, "1212";
    assert ConsumeStep(m, Ascii, input, Scan(0, 0, 0, "", "")) == Scan(1, 1, 0, "", "");
    assert ConsumeStep(m, Ascii, input, Scan(1, 1, 0, "", "")) == Scan(2, 2, 0, "", "");
    assert ConsumeStep(m, Ascii, input, Scan(2, 2, 0, "", "")) == Scan(2, 3, 0, "", "-");
    assert ConsumeStep(m, Ascii, input, Scan(2, 3, 0, "", "-")) == Scan(3, 4, 0, "-1", "");
    assert ConsumeStep(m, Ascii, input, Scan(3, 4, 0, "-1", "")) == Scan(4, 5, 0, "-12", "");
    assert ConsumeRun(m, Ascii, input, Scan(4, 5, 0, "-12", "")) == "-12";
  }

  /** Under `.consume`, "12aa" uses up the letter slots with digits and offers letters to the digit slots: nothing. */
  lemma LettersDigitsConsumeLetters()
    ensures Masked(LettersDigitsConsuming, Ascii, "12aa") == ""
  {
    var m, input := LettersDigitsConsuming, "12aa";
    assert ConsumeStep(m, Ascii, input, Scan(0, 0, 0, "", "")) == Scan(1, 1, 0, "", "");
    assert ConsumeStep(m, Ascii, input, Scan(1, 1, 0, "", "")) == Scan(2, 2, 0, "", "");
    assert ConsumeStep(m, Ascii, input, Scan(2, 2, 0, "", "")) == Scan(2, 3, 0, "", "-");
    assert ConsumeStep(m, Ascii, input, Scan(2, 3, 0, "", "-")) == Scan(3, 4, 0, "", "-");
    assert ConsumeStep(m, Ascii, input, Scan(3, 4, 0, "", "-")) == Scan(4, 5, 0, "", "-");
    assert ConsumeRun(m, Ascii, input, Scan(4, 5, 0, "", "-")) == "";
  }

  /** Under `.consume`, "abcd12" fills the letters and the digit slots reject "cd": "ab". */
  lemma LettersDigitsConsumeExtraLetters()
    ensures Masked(LettersDigitsConsuming, Ascii, "abcd12") == "ab"
  {
    var m, input := LettersDigitsConsuming, "abcd12";
    assert ConsumeStep(m, Ascii, input, Scan(0, 0, 0, "", "")) == Scan(1, 1, 0, "a", "");
    assert ConsumeStep(m, Ascii, input, Scan(1, 1, 0, "a", "")) == Scan(2, 2, 0, "ab", "");
    assert ConsumeStep(m, Ascii, input, Scan(2, 2, 0, "ab", "")) == Scan(2, 3, 0, "ab", "-");
    assert ConsumeStep(m, Ascii, input, Scan(2, 3, 0, "ab", "-")) == Scan(3, 4, 0, "ab", "-");
    assert ConsumeStep(m, Ascii, input, Scan(3, 4, 0, "ab", "-")) == Scan(4, 5, 0, "ab", "-");
    assert ConsumeRun(m, Ascii, input, Scan(4, 5, 0, "ab", "-")) == "ab";
  }

  // ---------------------------------------------------------------------------
  // "C-DD" with conditions ["7,8"] (MaskingIgnoreCoreTests.swift:15,
  // MaskingConsumeCoreTests.swift:15)
  // ---------------------------------------------------------------------------

  /** The `.ignore` scan of "C-DD" over "712", steps 1 to 2. */
  lemma ConditionIgnoreAllowedSteps0(m: Mask, input: string)
    requires m.expression == "C-DD" && m.template == None
    requires |m.conditions| == 1 && AllowList(m.conditions[0]) == ["7", "8"]
    requires input == "712"
    ensures IgnoreRun(m, Ascii, input, Scan(0, 0, 0, "", "")) == IgnoreRun(m, Ascii, input, Scan(1, 2, 1, "7", "-"))
  {
    assert IgnoreStep(m, Ascii, input, Scan(1, 1, 1, "7", "")) == Scan(1, 2, 1, "7", "-");
    assert IgnoreRun(m, Ascii, input, Scan(1, 1, 1, "7", "")) == IgnoreRun(m, Ascii, input, Scan(1, 2, 1, "7", "-"));
    assert IgnoreStep(m, Ascii, input, Scan(0, 0, 0, "", "")) == Scan(1, 1, 1, "7", "");
  }

  /** The `.ignore` scan of "C-DD" over "712", steps 3 to 4. */
  lemma ConditionIgnoreAllowedSteps1(m: Mask, input: string)
    requires m.expression == "C-DD" && m.template == None
    requires |m.conditions| == 1 && AllowList(m.conditions[0]) == ["7", "8"]
    requires input == "712"
    ensures IgnoreRun(m, Ascii, input, Scan(1, 2, 1, "7", "-")) == IgnoreRun(m, Ascii, input, Scan(3, 4, 1, "7-12", ""))
  {
    assert IgnoreStep(m, Ascii, input, Scan(2, 3, 1, "7-1", "")) == Scan(3, 4, 1, "7-12", "");
    assert IgnoreRun(m, Ascii, input, Scan(2, 3, 1, "7-1", "")) == IgnoreRun(m, Ascii, input, Scan(3, 4, 1, "7-12", ""));
    assert IgnoreStep(m, Ascii, input, Scan(1, 2, 1, "7", "-")) == Scan(2, 3, 1, "7-1", "");
  }

  /** Under `.ignore`, the condition slot takes "7" from its allow-list: "712" gives "7-12". */
  lemma ConditionIgnoreAllowed()
    ensures Masked(ConditionIgnoring, Ascii, "712") == "7-12"
  {
    ConditionParsed();
    var m, input := ConditionIgnoring, "712";
    ConditionIgnoreAllowedSteps0(m, input);
    ConditionIgnoreAllowedSteps1(m, input);
  }

  /** The `.ignore` scan of "C-DD" over "912", steps 1 to 2. */
  lemma ConditionIgnoreRejectedSteps0(m: Mask, input: string)
    requires m.expression == "C-DD" && m.template == None
    requires |m.conditions| == 1 && AllowList(m.conditions[0]) == ["7", "8"]
    requires input == "912"
    ensures IgnoreRun(m, Ascii, input, Scan(0, 0, 0, "", "")) == IgnoreRun(m, Ascii, input, Scan(2, 0, 0, "", ""))
  {
    assert IgnoreStep(m, Ascii, input, Scan(1, 0, 0, "", "")) == Scan(2, 0, 0, "", "");
    assert IgnoreRun(m, Ascii, input, Scan(1, 0, 0, "", "")) == IgnoreRun(m, Ascii, input, Scan(2, 0, 0, "", ""));
    assert IgnoreStep(m, Ascii, input, Scan(0, 0, 0, "", "")) == Scan(1, 0, 0, "", "");
  }

  /** The `.ignore` scan of "C-DD" over "912", steps 3 to 3. */
  lemma ConditionIgnoreRejectedSteps1(m: Mask, input: string)
    requires m.expression == "C-DD" && m.template == None
    requires |m.conditions| == 1 && AllowList(m.conditions[0]) == ["7", "8"]
    requires input == "912"
    ensures IgnoreRun(m, Ascii, input, Scan(2, 0, 0, "", "")) == IgnoreRun(m, Ascii, input, Scan(3, 0, 0, "", ""))
  {
    assert IgnoreStep(m, Ascii, input, Scan(2, 0, 0, "", "")) == Scan(3, 0, 0, "", "");
  }

  /** Under `.ignore`, no character of "912" is in the allow-list, so the condition slot is never filled: nothing. */
  lemma ConditionIgnoreRejected()
    ensures Masked(ConditionIgnoring, Ascii, "912") == ""
  {
    ConditionParsed();
    var m, input := ConditionIgnoring, "912";
    ConditionIgnoreRejectedSteps0(m, input);
    ConditionIgnoreRejectedSteps1(m, input);
  }

  /** The `.consume` scan of "C-DD" over "912", steps 1 to 2. */
  lemma ConditionConsumeRejectedSteps0(m: Mask, input: string)
    requires m.expression == "C-DD" && m.template == None
    requires |m.conditions| == 1 && AllowList(m.conditions[0]) == ["7", "8"]
    requires input == "912"
    ensures ConsumeRun(m, Ascii, input, Scan(0, 0, 0, "", "")) == ConsumeRun(m, Ascii, input, Scan(1, 2, 0, "", "-"))
  {
    assert ConsumeStep(m, Ascii, input, Scan(1, 1, 0, "", "")) == Scan(1, 2, 0, "", "-");
    assert ConsumeRun(m, Ascii, input, Scan(1, 1, 0, "", "")) == ConsumeRun(m, Ascii, input, Scan(1, 2, 0, "", "-"));
    assert ConsumeStep(m, Ascii, input, Scan(0, 0, 0, "", "")) == Scan(1, 1, 0, "", "");
  }

  /** The `.consume` scan of "C-DD" over "912", steps 3 to 4. */
  lemma ConditionConsumeRejectedSteps1(m: Mask, input: string)
    requires m.expression == "C-DD" && m.template == None
    requires |m.conditions| == 1 && AllowList(m.conditions[0]) == ["7", "8"]
    requires input == "912"
    ensures ConsumeRun(m, Ascii, input, Scan(1, 2, 0, "", "-")) == ConsumeRun(m, Ascii, input, Scan(3, 4, 0, "-12", ""))
  {
    assert ConsumeStep(m, Ascii, input, Scan(2, 3, 0, "-1", "")) == Scan(3, 4, 0, "-12", "");
    assert ConsumeRun(m, Ascii, input, Scan(2, 3, 0, "-1", "")) == ConsumeRun(m, Ascii, input, Scan(3, 4, 0, "-12", ""));
    assert ConsumeStep(m, Ascii, input, Scan(1, 2, 0, "", "-")) == Scan(2, 3, 0, "-1", "");
  }

  /** Under `.consume`, the rejected "9" uses up the condition slot: "912" gives "-12". */
  lemma ConditionConsumeRejected()
    ensures Masked(ConditionConsuming, Ascii, "912") == "-12"
  {
    ConditionParsed();
    var m, input := ConditionConsuming, "912";
    ConditionConsumeRejectedSteps0(m, input);
    ConditionConsumeRejectedSteps1(m, input);
  }

  /** The `.consume` scan of "C-DD" over "8 12", steps 1 to 2. */
  lemma ConditionConsumeSpaceSteps0(m: Mask, input: string)
    requires m.expression == "C-DD" && m.template == None
    requires |m.conditions| == 1 && AllowList(m.conditions[0]) == ["7", "8"]
    requires input == "8 12"
    ensures ConsumeRun(m, Ascii, input, Scan(0, 0, 0, "", "")) == ConsumeRun(m, Ascii, input, Scan(1, 2, 1, "8", "-"))
  {
    assert ConsumeStep(m, Ascii, input, Scan(1, 1, 1, "8", "")) == Scan(1, 2, 1, "8", "-");
    assert ConsumeRun(m, Ascii, input, Scan(1, 1, 1, "8", "")) == ConsumeRun(m, Ascii, input, Scan(1, 2, 1, "8", "-"));
    assert ConsumeStep(m, Ascii, input, Scan(0, 0, 0, "", "")) == Scan(1, 1, 1, "8", "");
  }

  /** The `.consume` scan of "C-DD" over "8 12", steps 3 to 4. */
  lemma ConditionConsumeSpaceSteps1(m: Mask, input: string)
    requires m.expression == "C-DD" && m.template == None
    requires |m.conditions| == 1 && AllowList(m.conditions[0]) == ["7", "8"]
    requires input == "8 12"
    ensures ConsumeRun(m, Ascii, input, Scan(1, 2, 1, "8", "-")) == ConsumeRun(m, Ascii, input, Scan(3, 4, 1, "8-1", ""))
  {
    assert ConsumeStep(m, Ascii, input, Scan(2, 3, 1, "8", "-")) == Scan(3, 4, 1, "8-1", "");
    assert ConsumeRun(m, Ascii, input, Scan(2, 3, 1, "8", "-")) == ConsumeRun(m, Ascii, input, Scan(3, 4, 1, "8-1", ""));
    assert ConsumeStep(m, Ascii, input, Scan(1, 2, 1, "8", "-")) == Scan(2, 3, 1, "8", "-");
  }

  /** Under `.consume`, the space of "8 12" uses up the first digit slot: the result is "8-1". */
  lemma ConditionConsumeSpace()
    ensures Masked(ConditionConsuming, Ascii, "8 12") == "8-1"
  {
    ConditionParsed();
    var m, input := ConditionConsuming, "8 12";
    ConditionConsumeSpaceSteps0(m, input);
    ConditionConsumeSpaceSteps1(m, input);
  }

  // ---------------------------------------------------------------------------
  // The phone mask (MaskingIgnoreCoreTests.swift:8-13, MaskingConsumeCoreTests.swift:8-13)
  // ---------------------------------------------------------------------------

  /** The `.ignore` scan of the phone mask over "8". */
  lemma PhoneIgnoreEightSteps(m: Mask, input: string)
    requires m.expression == "+C(DDD)-DDD-DD-DD" && m.template == Some("+7(DDD)-DDD-DD-DD")
    requires |m.conditions| == 1 && AllowList(m.conditions[0]) == ["7", "8"]
    requires input == "8"
    ensures IgnoreRun(m, Ascii, input, Scan(0, 0, 0, "", "")) == IgnoreRun(m, Ascii, input, Scan(1, 2, 1, "+7", ""))
  {
    assert IgnoreStep(m, Ascii, input, Scan(0, 1, 0, "", "+")) == Scan(1, 2, 1, "+7", "");
    assert IgnoreRun(m, Ascii, input, Scan(0, 1, 0, "", "+")) == IgnoreRun(m, Ascii, input, Scan(1, 2, 1, "+7", ""));
    assert IgnoreStep(m, Ascii, input, Scan(0, 0, 0, "", "")) == Scan(0, 1, 0, "", "+");
  }

  /** Under `.ignore`, the accepted "8" is shown as the template's "7": "8" gives "+7". */
  lemma PhoneIgnoreEight()
    ensures Masked(PhoneIgnoring, Ascii, "8") == "+7"
  {
    PhoneConditionParsed();
    var m, input := PhoneIgnoring, "8";
    PhoneIgnoreEightSteps(m, input);
  }

  /** The `.ignore` scan of the phone mask over "x". */
  lemma PhoneIgnoreLetterSteps(m: Mask, input: string)
    requires m.expression == "+C(DDD)-DDD-DD-DD" && m.template == Some("+7(DDD)-DDD-DD-DD")
    requires |m.conditions| == 1 && AllowList(m.conditions[0]) == ["7", "8"]
    requires input == "x"
    ensures IgnoreRun(m, Ascii, input, Scan(0, 0, 0, "", "")) == IgnoreRun(m, Ascii, input, Scan(1, 1, 0, "", "+"))
  {
    assert IgnoreStep(m, Ascii, input, Scan(0, 1, 0, "", "+")) == Scan(1, 1, 0, "", "+");
    assert IgnoreRun(m, Ascii, input, Scan(0, 1, 0, "", "+")) == IgnoreRun(m, Ascii, input, Scan(1, 1, 0, "", "+"));
    assert IgnoreStep(m, Ascii, input, Scan(0, 0, 0, "", "")) == Scan(0, 1, 0, "", "+");
  }

  /** Under `.ignore`, the phone mask rejects "x" and drops the pending "+": nothing. */
  lemma PhoneIgnoreLetter()
    ensures Masked(PhoneIgnoring, Ascii, "x") == ""
  {
    PhoneConditionParsed();
    var m, input := PhoneIgnoring, "x";
    PhoneIgnoreLetterSteps(m, input);
  }

  /** The `.ignore` scan of the phone mask over "7701", steps 1 to 2. */
  lemma PhoneIgnorePartialSteps0(m: Mask, input: string)
    requires m.expression == "+C(DDD)-DDD-DD-DD" && m.template == Some("+7(DDD)-DDD-DD-DD")
    requires |m.conditions| == 1 && AllowList(m.conditions[0]) == ["7", "8"]
    requires input == "7701"
    ensures IgnoreRun(m, Ascii, input, Scan(0, 0, 0, "", "")) == IgnoreRun(m, Ascii, input, Scan(1, 2, 1, "+7", ""))
  {
    assert IgnoreStep(m, Ascii, input, Scan(0, 1, 0, "", "+")) == Scan(1, 2, 1, "+7", "");
    assert IgnoreRun(m, Ascii, input, Scan(0, 1, 0, "", "+")) == IgnoreRun(m, Ascii, input, Scan(1, 2, 1, "+7", ""));
    assert IgnoreStep(m, Ascii, input, Scan(0, 0, 0, "", "")) == Scan(0, 1, 0, "", "+");
  }

  /** The `.ignore` scan of the phone mask over "7701", steps 3 to 4. */
  lemma PhoneIgnorePartialSteps1(m: Mask, input: string)
    requires m.expression == "+C(DDD)-DDD-DD-DD" && m.template == Some("+7(DDD)-DDD-DD-DD")
    requires |m.conditions| == 1 && AllowList(m.conditions[0]) == ["7", "8"]
    requires input == "7701"
    ensures IgnoreRun(m, Ascii, input, Scan(1, 2, 1, "+7", "")) == IgnoreRun(m, Ascii, input, Scan(2, 4, 1, "+7(7", ""))
  {
    assert IgnoreStep(m, Ascii, input, Scan(1, 3, 1, "+7", "(")) == Scan(2, 4, 1, "+7(7", "");
    assert IgnoreRun(m, Ascii, input, Scan(1, 3, 1, "+7", "(")) == IgnoreRun(m, Ascii, input, Scan(2, 4, 1, "+7(7", ""));
    assert IgnoreStep(m, Ascii, input, Scan(1, 2, 1, "+7", "")) == Scan(1, 3, 1, "+7", "(");
  }

  /** The `.ignore` scan of the phone mask over "7701", steps 5 to 6. */
  lemma PhoneIgnorePartialSteps2(m: Mask, input: string)
    requires m.expression == "+C(DDD)-DDD-DD-DD" && m.template == Some("+7(DDD)-DDD-DD-DD")
    requires |m.conditions| == 1 && AllowList(m.conditions[0]) == ["7", "8"]
    requires input == "7701"
    ensures IgnoreRun(m, Ascii, input, Scan(2, 4, 1, "+7(7", "")) == IgnoreRun(m, Ascii, input, Scan(4, 6, 1, "+7(701", ""))
  {
    assert IgnoreStep(m, Ascii, input, Scan(3, 5, 1, "+7(70", "")) == Scan(4, 6, 1, "+7(701", "");
    assert IgnoreRun(m, Ascii, input, Scan(3, 5, 1, "+7(70", "")) == IgnoreRun(m, Ascii, input, Scan(4, 6, 1, "+7(701", ""));
    assert IgnoreStep(m, Ascii, input, Scan(2, 4, 1, "+7(7", "")) == Scan(3, 5, 1, "+7(70", "");
  }

  /** Under `.ignore`, the partial number "7701" stops before the pending ")": "+7(701". */
  lemma PhoneIgnorePartial()
    ensures Masked(PhoneIgnoring, Ascii, "7701") == "+7(701"
  {
    PhoneConditionParsed();
    var m, input := PhoneIgnoring, "7701";
    PhoneIgnorePartialSteps0(m, input);
    PhoneIgnorePartialSteps1(m, input);
    PhoneIgnorePartialSteps2(m, input);
  }

  /** The `.ignore` scan of the phone mask over "7 701 1", steps 1 to 2. */
  lemma PhoneIgnoreSpacedSteps0(m: Mask, input: string)
    requires m.expression == "+C(DDD)-DDD-DD-DD" && m.template == Some("+7(DDD)-DDD-DD-DD")
    requires |m.conditions| == 1 && AllowList(m.conditions[0]) == ["7", "8"]
    requires input == "7 701 1"
    ensures IgnoreRun(m, Ascii, input, Scan(0, 0, 0, "", "")) == IgnoreRun(m, Ascii, input, Scan(1, 2, 1, "+7", ""))
  {
    assert IgnoreStep(m, Ascii, input, Scan(0, 1, 0, "", "+")) == Scan(1, 2, 1, "+7", "");
    assert IgnoreRun(m, Ascii, input, Scan(0, 1, 0, "", "+")) == IgnoreRun(m, Ascii, input, Scan(1, 2, 1, "+7", ""));
    assert IgnoreStep(m, Ascii, input, Scan(0, 0, 0, "", "")) == Scan(0, 1, 0, "", "+");
  }

  /** The `.ignore` scan of the phone mask over "7 701 1", steps 3 to 4. */
  lemma PhoneIgnoreSpacedSteps1(m: Mask, input: string)
    requires m.expression == "+C(DDD)-DDD-DD-DD" && m.template == Some("+7(DDD)-DDD-DD-DD")
    requires |m.conditions| == 1 && AllowList(m.conditions[0]) == ["7", "8"]
    requires input == "7 701 1"
    ensures IgnoreRun(m, Ascii, input, Scan(1, 2, 1, "+7", "")) == IgnoreRun(m, Ascii, input, Scan(2, 3, 1, "+7", "("))
  {
    assert IgnoreStep(m, Ascii, input, Scan(1, 3, 1, "+7", "(")) == Scan(2, 3, 1, "+7", "(");
    assert IgnoreRun(m, Ascii, input, Scan(1, 3, 1, "+7", "(")) == IgnoreRun(m, Ascii, input, Scan(2, 3, 1, "+7", "("));
    assert IgnoreStep(m, Ascii, input, Scan(1, 2, 1, "+7", "")) == Scan(1, 3, 1, "+7", "(");
  }

  /** The `.ignore` scan of the phone mask over "7 701 1", steps 5 to 6. */
  lemma PhoneIgnoreSpacedSteps2(m: Mask, input: string)
    requires m.expression == "+C(DDD)-DDD-DD-DD" && m.template == Some("+7(DDD)-DDD-DD-DD")
    requires |m.conditions| == 1 && AllowList(m.conditions[0]) == ["7", "8"]
    requires input == "7 701 1"
    ensures IgnoreRun(m, Ascii, input, Scan(2, 3, 1, "+7", "(")) == IgnoreRun(m, Ascii, input, Scan(4, 5, 1, "+7(70", ""))
  {
    assert IgnoreStep(m, Ascii, input, Scan(3, 4, 1, "+7(7", "")) == Scan(4, 5, 1, "+7(70", "");
    assert IgnoreRun(m, Ascii, input, Scan(3, 4, 1, "+7(7", "")) == IgnoreRun(m, Ascii, input, Scan(4, 5, 1, "+7(70", ""));
    assert IgnoreStep(m, Ascii, input, Scan(2, 3, 1, "+7", "(")) == Scan(3, 4, 1, "+7(7", "");
  }

  /** The `.ignore` scan of the phone mask over "7 701 1", steps 7 to 8. */
  lemma PhoneIgnoreSpacedSteps3(m: Mask, input: string)
    requires m.expression == "+C(DDD)-DDD-DD-DD" && m.template == Some("+7(DDD)-DDD-DD-DD")
    requires |m.conditions| == 1 && AllowList(m.conditions[0]) == ["7", "8"]
    requires input == "7 701 1"
    ensures IgnoreRun(m, Ascii, input, Scan(4, 5, 1, "+7(70", "")) == IgnoreRun(m, Ascii, input, Scan(5, 7, 1, "+7(701", ")"))
  {
    assert IgnoreStep(m, Ascii, input, Scan(5, 6, 1, "+7(701", "")) == Scan(5, 7, 1, "+7(701", ")");
    assert IgnoreRun(m, Ascii, input, Scan(5, 6, 1, "+7(701", "")) == IgnoreRun(m, Ascii, input, Scan(5, 7, 1, "+7(701", ")"));
    assert IgnoreStep(m, Ascii, input, Scan(4, 5, 1, "+7(70", "")) == Scan(5, 6, 1, "+7(701", "");
  }

  /** The `.ignore` scan of the phone mask over "7 701 1", steps 9 to 10. */
  lemma PhoneIgnoreSpacedSteps4(m: Mask, input: string)
    requires m.expression == "+C(DDD)-DDD-DD-DD" && m.template == Some("+7(DDD)-DDD-DD-DD")
    requires |m.conditions| == 1 && AllowList(m.conditions[0]) == ["7", "8"]
    requires input == "7 701 1"
    ensures IgnoreRun(m, Ascii, input, Scan(5, 7, 1, "+7(701", ")")) == IgnoreRun(m, Ascii, input, Scan(6, 8, 1, "+7(701", ")-"))
  {
    assert IgnoreStep(m, Ascii, input, Scan(5, 8, 1, "+7(701", ")-")) == Scan(6, 8, 1, "+7(701", ")-");
    assert IgnoreRun(m, Ascii, input, Scan(5, 8, 1, "+7(701", ")-")) == IgnoreRun(m, Ascii, input, Scan(6, 8, 1, "+7(701", ")-"));
    assert IgnoreStep(m, Ascii, input, Scan(5, 7, 1, "+7(701", ")")) == Scan(5, 8, 1, "+7(701", ")-");
  }

  /** The `.ignore` scan of the phone mask over "7 701 1", steps 11 to 11. */
  lemma PhoneIgnoreSpacedSteps5(m: Mask, input: string)
    requires m.expression == "+C(DDD)-DDD-DD-DD" && m.template == Some("+7(DDD)-DDD-DD-DD")
    requires |m.conditions| == 1 && AllowList(m.conditions[0]) == ["7", "8"]
    requires input == "7 701 1"
    ensures IgnoreRun(m, Ascii, input, Scan(6, 8, 1, "+7(701", ")-")) == IgnoreRun(m, Ascii, input, Scan(7, 9, 1, "+7(701)-1", ""))
  {
    assert IgnoreStep(m, Ascii, input, Scan(6, 8, 1, "+7(701", ")-")) == Scan(7, 9, 1, "+7(701)-1", "");
  }

  /** Under `.ignore`, the spaces of "7 701 1" are skipped: "+7(701)-1". */
  lemma PhoneIgnoreSpaced()
    ensures Masked(PhoneIgnoring, Ascii, "7 701 1") == "+7(701)-1"
  {
    PhoneConditionParsed();
    var m, input := PhoneIgnoring, "7 701 1";
    PhoneIgnoreSpacedSteps0(m, input);
    PhoneIgnoreSpacedSteps1(m, input);
    PhoneIgnoreSpacedSteps2(m, input);
    PhoneIgnoreSpacedSteps3(m, input);
    PhoneIgnoreSpacedSteps4(m, input);
    PhoneIgnoreSpacedSteps5(m, input);
  }

  /** The `.ignore` scan of the phone mask over "77011234567", steps 1 to 2. */
  lemma PhoneIgnoreRawSteps0(m: Mask, input: string)
    requires m.expression == "+C(DDD)-DDD-DD-DD" && m.template == Some("+7(DDD)-DDD-DD-DD")
    requires |m.conditions| == 1 && AllowList(m.conditions[0]) == ["7", "8"]
    requires input == "77011234567"
    ensures IgnoreRun(m, Ascii, input, Scan(0, 0, 0, "", "")) == IgnoreRun(m, Ascii, input, Scan(1, 2, 1, "+7", ""))
  {
    assert IgnoreStep(m, Ascii, input, Scan(0, 1, 0, "", "+")) == Scan(1, 2, 1, "+7", "");
    assert IgnoreRun(m, Ascii, input, Scan(0, 1, 0, "", "+")) == IgnoreRun(m, Ascii, input, Scan(1, 2, 1, "+7", ""));
    assert IgnoreStep(m, Ascii, input, Scan(0, 0, 0, "", "")) == Scan(0, 1, 0, "", "+");
  }

  /** The `.ignore` scan of the phone mask over "77011234567", steps 3 to 4. */
  lemma PhoneIgnoreRawSteps1(m: Mask, input: string)
    requires m.expression == "+C(DDD)-DDD-DD-DD" && m.template == Some("+7(DDD)-DDD-DD-DD")
    requires |m.conditions| == 1 && AllowList(m.conditions[0]) == ["7", "8"]
    requires input == "77011234567"
    ensures IgnoreRun(m, Ascii, input, Scan(1, 2, 1, "+7", "")) == IgnoreRun(m, Ascii, input, Scan(2, 4, 1, "+7(7", ""))
  {
    assert IgnoreStep(m, Ascii, input, Scan(1, 3, 1, "+7", "(")) == Scan(2, 4, 1, "+7(7", "");
    assert IgnoreRun(m, Ascii, input, Scan(1, 3, 1, "+7", "(")) == IgnoreRun(m, Ascii, input, Scan(2, 4, 1, "+7(7", ""));
    assert IgnoreStep(m, Ascii, input, Scan(1, 2, 1, "+7", "")) == Scan(1, 3, 1, "+7", "(");
  }

  /** The `.ignore` scan of the phone mask over "77011234567", steps 5 to 6. */
  lemma PhoneIgnoreRawSteps2(m: Mask, input: string)
    requires m.expression == "+C(DDD)-DDD-DD-DD" && m.template == Some("+7(DDD)-DDD-DD-DD")
    requires |m.conditions| == 1 && AllowList(m.conditions[0]) == ["7", "8"]
    requires input == "77011234567"
    ensures IgnoreRun(m, Ascii, input, Scan(2, 4, 1, "+7(7", "")) == IgnoreRun(m, Ascii, input, Scan(4, 6, 1, "+7(701", ""))
  {
    assert IgnoreStep(m, Ascii, input, Scan(3, 5, 1, "+7(70", "")) == Scan(4, 6, 1, "+7(701", "");
    assert IgnoreRun(m, Ascii, input, Scan(3, 5, 1, "+7(70", "")) == IgnoreRun(m, Ascii, input, Scan(4, 6, 1, "+7(701", ""));
    assert IgnoreStep(m, Ascii, input, Scan(2, 4, 1, "+7(7", "")) == Scan(3, 5, 1, "+7(70", "");
  }

  /** The `.ignore` scan of the phone mask over "77011234567", steps 7 to 8. */
  lemma PhoneIgnoreRawSteps3(m: Mask, input: string)
    requires m.expression == "+C(DDD)-DDD-DD-DD" && m.template == Some("+7(DDD)-DDD-DD-DD")
    requires |m.conditions| == 1 && AllowList(m.conditions[0]) == ["7", "8"]
    requires input == "77011234567"
    ensures IgnoreRun(m, Ascii, input, Scan(4, 6, 1, "+7(701", "")) == IgnoreRun(m, Ascii, input, Scan(4, 8, 1, "+7(701", ")-"))
  {
    assert IgnoreStep(m, Ascii, input, Scan(4, 7, 1, "+7(701", ")")) == Scan(4, 8, 1, "+7(701", ")-");
    assert IgnoreRun(m, Ascii, input, Scan(4, 7, 1, "+7(701", ")")) == IgnoreRun(m, Ascii, input, Scan(4, 8, 1, "+7(701", ")-"));
    assert IgnoreStep(m, Ascii, input, Scan(4, 6, 1, "+7(701", "")) == Scan(4, 7, 1, "+7(701", ")");
  }

  /** The `.ignore` scan of the phone mask over "77011234567", steps 9 to 10. */
  lemma PhoneIgnoreRawSteps4(m: Mask, input: string)
    requires m.expression == "+C(DDD)-DDD-DD-DD" && m.template == Some("+7(DDD)-DDD-DD-DD")
    requires |m.conditions| == 1 && AllowList(m.conditions[0]) == ["7", "8"]
    requires input == "77011234567"
    ensures IgnoreRun(m, Ascii, input, Scan(4, 8, 1, "+7(701", ")-")) == IgnoreRun(m, Ascii, input, Scan(6, 10, 1, "+7(701)-12", ""))
  {
    assert IgnoreStep(m, Ascii, input, Scan(5, 9, 1, "+7(701)-1", "")) == Scan(6, 10, 1, "+7(701)-12", "");
    assert IgnoreRun(m, Ascii, input, Scan(5, 9, 1, "+7(701)-1", "")) == IgnoreRun(m, Ascii, input, Scan(6, 10, 1, "+7(701)-12", ""));
    assert IgnoreStep(m, Ascii, input, Scan(4, 8, 1, "+7(701", ")-")) == Scan(5, 9, 1, "+7(701)-1", "");
  }

  /** The `.ignore` scan of the phone mask over "77011234567", steps 11 to 12. */
  lemma PhoneIgnoreRawSteps5(m: Mask, input: string)
    requires m.expression == "+C(DDD)-DDD-DD-DD" && m.template == Some("+7(DDD)-DDD-DD-DD")
    requires |m.conditions| == 1 && AllowList(m.conditions[0]) == ["7", "8"]
    requires input == "77011234567"
    ensures IgnoreRun(m, Ascii, input, Scan(6, 10, 1, "+7(701)-12", "")) == IgnoreRun(m, Ascii, input, Scan(7, 12, 1, "+7(701)-123", "-"))
  {
    assert IgnoreStep(m, Ascii, input, Scan(7, 11, 1, "+7(701)-123", "")) == Scan(7, 12, 1, "+7(701)-123", "-");
    assert IgnoreRun(m, Ascii, input, Scan(7, 11, 1, "+7(701)-123", "")) == IgnoreRun(m, Ascii, input, Scan(7, 12, 1, "+7(701)-123", "-"));
    assert IgnoreStep(m, Ascii, input, Scan(6, 10, 1, "+7(701)-12", "")) == Scan(7, 11, 1, "+7(701)-123", "");
  }

  /** The `.ignore` scan of the phone mask over "77011234567", steps 13 to 14. */
  lemma PhoneIgnoreRawSteps6(m: Mask, input: string)
    requires m.expression == "+C(DDD)-DDD-DD-DD" && m.template == Some("+7(DDD)-DDD-DD-DD")
    requires |m.conditions| == 1 && AllowList(m.conditions[0]) == ["7", "8"]
    requires input == "77011234567"
    ensures IgnoreRun(m, Ascii, input, Scan(7, 12, 1, "+7(701)-123", "-")) == IgnoreRun(m, Ascii, input, Scan(9, 14, 1, "+7(701)-123-45", ""))
  {
    assert IgnoreStep(m, Ascii, input, Scan(8, 13, 1, "+7(701)-123-4", "")) == Scan(9, 14, 1, "+7(701)-123-45", "");
    assert IgnoreRun(m, Ascii, input, Scan(8, 13, 1, "+7(701)-123-4", "")) == IgnoreRun(m, Ascii, input, Scan(9, 14, 1, "+7(701)-123-45", ""));
    assert IgnoreStep(m, Ascii, input, Scan(7, 12, 1, "+7(701)-123", "-")) == Scan(8, 13, 1, "+7(701)-123-4", "");
  }

  /** The `.ignore` scan of the phone mask over "77011234567", steps 15 to 16. */
  lemma PhoneIgnoreRawSteps7(m: Mask, input: string)
    requires m.expression == "+C(DDD)-DDD-DD-DD" && m.template == Some("+7(DDD)-DDD-DD-DD")
    requires |m.conditions| == 1 && AllowList(m.conditions[0]) == ["7", "8"]
    requires input == "77011234567"
    ensures IgnoreRun(m, Ascii, input, Scan(9, 14, 1, "+7(701)-123-45", "")) == IgnoreRun(m, Ascii, input, Scan(10, 16, 1, "+7(701)-123-45-6", ""))
  {
    assert IgnoreStep(m, Ascii, input, Scan(9, 15, 1, "+7(701)-123-45", "-")) == Scan(10, 16, 1, "+7(701)-123-45-6", "");
    assert IgnoreRun(m, Ascii, input, Scan(9, 15, 1, "+7(701)-123-45", "-")) == IgnoreRun(m, Ascii, input, Scan(10, 16, 1, "+7(701)-123-45-6", ""));
    assert IgnoreStep(m, Ascii, input, Scan(9, 14, 1, "+7(701)-123-45", "")) == Scan(9, 15, 1, "+7(701)-123-45", "-");
  }

  /** The `.ignore` scan of the phone mask over "77011234567", steps 17 to 17. */
  lemma PhoneIgnoreRawSteps8(m: Mask, input: string)
    requires m.expression == "+C(DDD)-DDD-DD-DD" && m.template == Some("+7(DDD)-DDD-DD-DD")
    requires |m.conditions| == 1 && AllowList(m.conditions[0]) == ["7", "8"]
    requires input == "77011234567"
    ensures IgnoreRun(m, Ascii, input, Scan(10, 16, 1, "+7(701)-123-45-6", "")) == IgnoreRun(m, Ascii, input, Scan(11, 17, 1, "+7(701)-123-45-67", ""))
  {
    assert IgnoreStep(m, Ascii, input, Scan(10, 16, 1, "+7(701)-123-45-6", "")) == Scan(11, 17, 1, "+7(701)-123-45-67", "");
  }

  /** Under `.ignore`, the raw number "77011234567" is formatted in full. */
  lemma PhoneIgnoreRaw()
    ensures Masked(PhoneIgnoring, Ascii, "77011234567") == "+7(701)-123-45-67"
  {
    PhoneConditionParsed();
    var m, input := PhoneIgnoring, "77011234567";
    PhoneIgnoreRawSteps0(m, input);
    PhoneIgnoreRawSteps1(m, input);
    PhoneIgnoreRawSteps2(m, input);
    PhoneIgnoreRawSteps3(m, input);
    PhoneIgnoreRawSteps4(m, input);
    PhoneIgnoreRawSteps5(m, input);
    PhoneIgnoreRawSteps6(m, input);
    PhoneIgnoreRawSteps7(m, input);
    PhoneIgnoreRawSteps8(m, input);
  }

  /** The `.ignore` scan of the phone mask over its own output, steps 1 to 2. */
  lemma PhoneIgnoreFormattedSteps0(m: Mask, input: string)
    requires m.expression == "+C(DDD)-DDD-DD-DD" && m.template == Some("+7(DDD)-DDD-DD-DD")
    requires |m.conditions| == 1 && AllowList(m.conditions[0]) == ["7", "8"]
    requires input == "+7(701)-123-45-67"
    ensures IgnoreRun(m, Ascii, input, Scan(0, 0, 0, "", "")) == IgnoreRun(m, Ascii, input, Scan(2, 2, 1, "+7", ""))
  {
    assert IgnoreStep(m, Ascii, input, Scan(1, 1, 0, "", "+")) == Scan(2, 2, 1, "+7", "");
    assert IgnoreRun(m, Ascii, input, Scan(1, 1, 0, "", "+")) == IgnoreRun(m, Ascii, input, Scan(2, 2, 1, "+7", ""));
    assert IgnoreStep(m, Ascii, input, Scan(0, 0, 0, "", "")) == Scan(1, 1, 0, "", "+");
  }

  /** The `.ignore` scan of the phone mask over its own output, steps 3 to 4. */
  lemma PhoneIgnoreFormattedSteps1(m: Mask, input: string)
    requires m.expression == "+C(DDD)-DDD-DD-DD" && m.template == Some("+7(DDD)-DDD-DD-DD")
    requires |m.conditions| == 1 && AllowList(m.conditions[0]) == ["7", "8"]
    requires input == "+7(701)-123-45-67"
    ensures IgnoreRun(m, Ascii, input, Scan(2, 2, 1, "+7", "")) == IgnoreRun(m, Ascii, input, Scan(4, 4, 1, "+7(7", ""))
  {
    assert IgnoreStep(m, Ascii, input, Scan(3, 3, 1, "+7", "(")) == Scan(4, 4, 1, "+7(7", "");
    assert IgnoreRun(m, Ascii, input, Scan(3, 3, 1, "+7", "(")) == IgnoreRun(m, Ascii, input, Scan(4, 4, 1, "+7(7", ""));
    assert IgnoreStep(m, Ascii, input, Scan(2, 2, 1, "+7", "")) == Scan(3, 3, 1, "+7", "(");
  }

  /** The `.ignore` scan of the phone mask over its own output, steps 5 to 6. */
  lemma PhoneIgnoreFormattedSteps2(m: Mask, input: string)
    requires m.expression == "+C(DDD)-DDD-DD-DD" && m.template == Some("+7(DDD)-DDD-DD-DD")
    requires |m.conditions| == 1 && AllowList(m.conditions[0]) == ["7", "8"]
    requires input == "+7(701)-123-45-67"
    ensures IgnoreRun(m, Ascii, input, Scan(4, 4, 1, "+7(7", "")) == IgnoreRun(m, Ascii, input, Scan(6, 6, 1, "+7(701", ""))
  {
    assert IgnoreStep(m, Ascii, input, Scan(5, 5, 1, "+7(70", "")) == Scan(6, 6, 1, "+7(701", "");
    assert IgnoreRun(m, Ascii, input, Scan(5, 5, 1, "+7(70", "")) == IgnoreRun(m, Ascii, input, Scan(6, 6, 1, "+7(701", ""));
    assert IgnoreStep(m, Ascii, input, Scan(4, 4, 1, "+7(7", "")) == Scan(5, 5, 1, "+7(70", "");
  }

  /** The `.ignore` scan of the phone mask over its own output, steps 7 to 8. */
  lemma PhoneIgnoreFormattedSteps3(m: Mask, input: string)
    requires m.expression == "+C(DDD)-DDD-DD-DD" && m.template == Some("+7(DDD)-DDD-DD-DD")
    requires |m.conditions| == 1 && AllowList(m.conditions[0]) == ["7", "8"]
    requires input == "+7(701)-123-45-67"
    ensures IgnoreRun(m, Ascii, input, Scan(6, 6, 1, "+7(701", "")) == IgnoreRun(m, Ascii, input, Scan(8, 8, 1, "+7(701", ")-"))
  {
    assert IgnoreStep(m, Ascii, input, Scan(7, 7, 1, "+7(701", ")")) == Scan(8, 8, 1, "+7(701", ")-");
    assert IgnoreRun(m, Ascii, input, Scan(7, 7, 1, "+7(701", ")")) == IgnoreRun(m, Ascii, input, Scan(8, 8, 1, "+7(701", ")-"));
    assert IgnoreStep(m, Ascii, input, Scan(6, 6, 1, "+7(701", "")) == Scan(7, 7, 1, "+7(701", ")");
  }

  /** The `.ignore` scan of the phone mask over its own output, steps 9 to 10. */
  lemma PhoneIgnoreFormattedSteps4(m: Mask, input: string)
    requires m.expression == "+C(DDD)-DDD-DD-DD" && m.template == Some("+7(DDD)-DDD-DD-DD")
    requires |m.conditions| == 1 && AllowList(m.conditions[0]) == ["7", "8"]
    requires input == "+7(701)-123-45-67"
    ensures IgnoreRun(m, Ascii, input, Scan(8, 8, 1, "+7(701", ")-")) == IgnoreRun(m, Ascii, input, Scan(10, 10, 1, "+7(701)-12", ""))
  {
    assert IgnoreStep(m, Ascii, input, Scan(9, 9, 1, "+7(701)-1", "")) == Scan(10, 10, 1, "+7(701)-12", "");
    assert IgnoreRun(m, Ascii, input, Scan(9, 9, 1, "+7(701)-1", "")) == IgnoreRun(m, Ascii, input, Scan(10, 10, 1, "+7(701)-12", ""));
    assert IgnoreStep(m, Ascii, input, Scan(8, 8, 1, "+7(701", ")-")) == Scan(9, 9, 1, "+7(701)-1", "");
  }

  /** The `.ignore` scan of the phone mask over its own output, steps 11 to 12. */
  lemma PhoneIgnoreFormattedSteps5(m: Mask, input: string)
    requires m.expression == "+C(DDD)-DDD-DD-DD" && m.template == Some("+7(DDD)-DDD-DD-DD")
    requires |m.conditions| == 1 && AllowList(m.conditions[0]) == ["7", "8"]
    requires input == "+7(701)-123-45-67"
    ensures IgnoreRun(m, Ascii, input, Scan(10, 10, 1, "+7(701)-12", "")) == IgnoreRun(m, Ascii, input, Scan(12, 12, 1, "+7(701)-123", "-"))
  {
    assert IgnoreStep(m, Ascii, input, Scan(11, 11, 1, "+7(701)-123", "")) == Scan(12, 12, 1, "+7(701)-123", "-");
    assert IgnoreRun(m, Ascii, input, Scan(11, 11, 1, "+7(701)-123", "")) == IgnoreRun(m, Ascii, input, Scan(12, 12, 1, "+7(701)-123", "-"));
    assert IgnoreStep(m, Ascii, input, Scan(10, 10, 1, "+7(701)-12", "")) == Scan(11, 11, 1, "+7(701)-123", "");
  }

  /** The `.ignore` scan of the phone mask over its own output, steps 13 to 14. */
  lemma PhoneIgnoreFormattedSteps6(m: Mask, input: string)
    requires m.expression == "+C(DDD)-DDD-DD-DD" && m.template == Some("+7(DDD)-DDD-DD-DD")
    requires |m.conditions| == 1 && AllowList(m.conditions[0]) == ["7", "8"]
    requires input == "+7(701)-123-45-67"
    ensures IgnoreRun(m, Ascii, input, Scan(12, 12, 1, "+7(701)-123", "-")) == IgnoreRun(m, Ascii, input, Scan(14, 14, 1, "+7(701)-123-45", ""))
  {
    assert IgnoreStep(m, Ascii, input, Scan(13, 13, 1, "+7(701)-123-4", "")) == Scan(14, 14, 1, "+7(701)-123-45", "");
    assert IgnoreRun(m, Ascii, input, Scan(13, 13, 1, "+7(701)-123-4", "")) == IgnoreRun(m, Ascii, input, Scan(14, 14, 1, "+7(701)-123-45", ""));
    assert IgnoreStep(m, Ascii, input, Scan(12, 12, 1, "+7(701)-123", "-")) == Scan(13, 13, 1, "+7(701)-123-4", "");
  }

  /** The `.ignore` scan of the phone mask over its own output, steps 15 to 16. */
  lemma PhoneIgnoreFormattedSteps7(m: Mask, input: string)
    requires m.expression == "+C(DDD)-DDD-DD-DD" && m.template == Some("+7(DDD)-DDD-DD-DD")
    requires |m.conditions| == 1 && AllowList(m.conditions[0]) == ["7", "8"]
    requires input == "+7(701)-123-45-67"
    ensures IgnoreRun(m, Ascii, input, Scan(14, 14, 1, "+7(701)-123-45", "")) == IgnoreRun(m, Ascii, input, Scan(16, 16, 1, "+7(701)-123-45-6", ""))
  {
    assert IgnoreStep(m, Ascii, input, Scan(15, 15, 1, "+7(701)-123-45", "-")) == Scan(16, 16, 1, "+7(701)-123-45-6", "");
    assert IgnoreRun(m, Ascii, input, Scan(15, 15, 1, "+7(701)-123-45", "-")) == IgnoreRun(m, Ascii, input, Scan(16, 16, 1, "+7(701)-123-45-6", ""));
    assert IgnoreStep(m, Ascii, input, Scan(14, 14, 1, "+7(701)-123-45", "")) == Scan(15, 15, 1, "+7(701)-123-45", "-");
  }

  /** The `.ignore` scan of the phone mask over its own output, steps 17 to 17. */
  lemma PhoneIgnoreFormattedSteps8(m: Mask, input: string)
    requires m.expression == "+C(DDD)-DDD-DD-DD" && m.template == Some("+7(DDD)-DDD-DD-DD")
    requires |m.conditions| == 1 && AllowList(m.conditions[0]) == ["7", "8"]
    requires input == "+7(701)-123-45-67"
    ensures IgnoreRun(m, Ascii, input, Scan(16, 16, 1, "+7(701)-123-45-6", "")) == IgnoreRun(m, Ascii, input, Scan(17, 17, 1, "+7(701)-123-45-67", ""))
  {
    assert IgnoreStep(m, Ascii, input, Scan(16, 16, 1, "+7(701)-123-45-6", "")) == Scan(17, 17, 1, "+7(701)-123-45-67", "");
  }

  /** Under `.ignore`, the formatted number is left as it is. */
  lemma PhoneIgnoreFormatted()
    ensures Masked(PhoneIgnoring, Ascii, "+7(701)-123-45-67") == "+7(701)-123-45-67"
  {
    PhoneConditionParsed();
    var m, input := PhoneIgnoring, "+7(701)-123-45-67";
    PhoneIgnoreFormattedSteps0(m, input);
    PhoneIgnoreFormattedSteps1(m, input);
    PhoneIgnoreFormattedSteps2(m, input);
    PhoneIgnoreFormattedSteps3(m, input);
    PhoneIgnoreFormattedSteps4(m, input);
    PhoneIgnoreFormattedSteps5(m, input);
    PhoneIgnoreFormattedSteps6(m, input);
    PhoneIgnoreFormattedSteps7(m, input);
    PhoneIgnoreFormattedSteps8(m, input);
  }

  /** Masking the raw phone number twice under `.ignore` gives what masking it once gives. */
  lemma PhoneIgnoreIdempotent()
    ensures Masked(PhoneIgnoring, Ascii, Masked(PhoneIgnoring, Ascii, "77011234567"))
         == Masked(PhoneIgnoring, Ascii, "77011234567")
  {
    PhoneIgnoreRaw();
    PhoneIgnoreFormatted();
  }

  /** The `.consume` scan of the phone mask over "7011234567", steps 1 to 2. */
  lemma PhoneConsumeRawSteps0(m: Mask, input: string)
    requires m.expression == "+C(DDD)-DDD-DD-DD" && m.template == Some("+7(DDD)-DDD-DD-DD")
    requires |m.conditions| == 1 && AllowList(m.conditions[0]) == ["7", "8"]
    requires input == "7011234567"
    ensures ConsumeRun(m, Ascii, input, Scan(0, 0, 0, "", "")) == ConsumeRun(m, Ascii, input, Scan(1, 2, 1, "+7", ""))
  {
    assert ConsumeStep(m, Ascii, input, Scan(0, 1, 0, "", "+")) == Scan(1, 2, 1, "+7", "");
    assert ConsumeRun(m, Ascii, input, Scan(0, 1, 0, "", "+")) == ConsumeRun(m, Ascii, input, Scan(1, 2, 1, "+7", ""));
    assert ConsumeStep(m, Ascii, input, Scan(0, 0, 0, "", "")) == Scan(0, 1, 0, "", "+");
  }

  /** The `.consume` scan of the phone mask over "7011234567", steps 3 to 4. */
  lemma PhoneConsumeRawSteps1(m: Mask, input: string)
    requires m.expression == "+C(DDD)-DDD-DD-DD" && m.template == Some("+7(DDD)-DDD-DD-DD")
    requires |m.conditions| == 1 && AllowList(m.conditions[0]) == ["7", "8"]
    requires input == "7011234567"
    ensures ConsumeRun(m, Ascii, input, Scan(1, 2, 1, "+7", "")) == ConsumeRun(m, Ascii, input, Scan(2, 4, 1, "+7(0", ""))
  {
    assert ConsumeStep(m, Ascii, input, Scan(1, 3, 1, "+7", "(")) == Scan(2, 4, 1, "+7(0", "");
    assert ConsumeRun(m, Ascii, input, Scan(1, 3, 1, "+7", "(")) == ConsumeRun(m, Ascii, input, Scan(2, 4, 1, "+7(0", ""));
    assert ConsumeStep(m, Ascii, input, Scan(1, 2, 1, "+7", "")) == Scan(1, 3, 1, "+7", "(");
  }

  /** The `.consume` scan of the phone mask over "7011234567", steps 5 to 6. */
  lemma PhoneConsumeRawSteps2(m: Mask, input: string)
    requires m.expression == "+C(DDD)-DDD-DD-DD" && m.template == Some("+7(DDD)-DDD-DD-DD")
    requires |m.conditions| == 1 && AllowList(m.conditions[0]) == ["7", "8"]
    requires input == "7011234567"
    ensures ConsumeRun(m, Ascii, input, Scan(2, 4, 1, "+7(0", "")) == ConsumeRun(m, Ascii, input, Scan(4, 6, 1, "+7(011", ""))
  {
    assert ConsumeStep(m, Ascii, input, Scan(3, 5, 1, "+7(01", "")) == Scan(4, 6, 1, "+7(011", "");
    assert ConsumeRun(m, Ascii, input, Scan(3, 5, 1, "+7(01", "")) == ConsumeRun(m, Ascii, input, Scan(4, 6, 1, "+7(011", ""));
    assert ConsumeStep(m, Ascii, input, Scan(2, 4, 1, "+7(0", "")) == Scan(3, 5, 1, "+7(01", "");
  }

  /** The `.consume` scan of the phone mask over "7011234567", steps 7 to 8. */
  lemma PhoneConsumeRawSteps3(m: Mask, input: string)
    requires m.expression == "+C(DDD)-DDD-DD-DD" && m.template == Some("+7(DDD)-DDD-DD-DD")
    requires |m.conditions| == 1 && AllowList(m.conditions[0]) == ["7", "8"]
    requires input == "7011234567"
    ensures ConsumeRun(m, Ascii, input, Scan(4, 6, 1, "+7(011", "")) == ConsumeRun(m, Ascii, input, Scan(4, 8, 1, "+7(011", ")-"))
  {
    assert ConsumeStep(m, Ascii, input, Scan(4, 7, 1, "+7(011", ")")) == Scan(4, 8, 1, "+7(011", ")-");
    assert ConsumeRun(m, Ascii, input, Scan(4, 7, 1, "+7(011", ")")) == ConsumeRun(m, Ascii, input, Scan(4, 8, 1, "+7(011", ")-"));
    assert ConsumeStep(m, Ascii, input, Scan(4, 6, 1, "+7(011", "")) == Scan(4, 7, 1, "+7(011", ")");
  }

  /** The `.consume` scan of the phone mask over "7011234567", steps 9 to 10. */
  lemma PhoneConsumeRawSteps4(m: Mask, input: string)
    requires m.expression == "+C(DDD)-DDD-DD-DD" && m.template == Some("+7(DDD)-DDD-DD-DD")
    requires |m.conditions| == 1 && AllowList(m.conditions[0]) == ["7", "8"]
    requires input == "7011234567"
    ensures ConsumeRun(m, Ascii, input, Scan(4, 8, 1, "+7(011", ")-")) == ConsumeRun(m, Ascii, input, Scan(6, 10, 1, "+7(011)-23", ""))
  {
    assert ConsumeStep(m, Ascii, input, Scan(5, 9, 1, "+7(011)-2", "")) == Scan(6, 10, 1, "+7(011)-23", "");
    assert ConsumeRun(m, Ascii, input, Scan(5, 9, 1, "+7(011)-2", "")) == ConsumeRun(m, Ascii, input, Scan(6, 10, 1, "+7(011)-23", ""));
    assert ConsumeStep(m, Ascii, input, Scan(4, 8, 1, "+7(011", ")-")) == Scan(5, 9, 1, "+7(011)-2", "");
  }

  /** The `.consume` scan of the phone mask over "7011234567", steps 11 to 12. */
  lemma PhoneConsumeRawSteps5(m: Mask, input: string)
    requires m.expression == "+C(DDD)-DDD-DD-DD" && m.template == Some("+7(DDD)-DDD-DD-DD")
    requires |m.conditions| == 1 && AllowList(m.conditions[0]) == ["7", "8"]
    requires input == "7011234567"
    ensures ConsumeRun(m, Ascii, input, Scan(6, 10, 1, "+7(011)-23", "")) == ConsumeRun(m, Ascii, input, Scan(7, 12, 1, "+7(011)-234", "-"))
  {
    assert ConsumeStep(m, Ascii, input, Scan(7, 11, 1, "+7(011)-234", "")) == Scan(7, 12, 1, "+7(011)-234", "-");
    assert ConsumeRun(m, Ascii, input, Scan(7, 11, 1, "+7(011)-234", "")) == ConsumeRun(m, Ascii, input, Scan(7, 12, 1, "+7(011)-234", "-"));
    assert ConsumeStep(m, Ascii, input, Scan(6, 10, 1, "+7(011)-23", "")) == Scan(7, 11, 1, "+7(011)-234", "");
  }

  /** The `.consume` scan of the phone mask over "7011234567", steps 13 to 14. */
  lemma PhoneConsumeRawSteps6(m: Mask, input: string)
    requires m.expression == "+C(DDD)-DDD-DD-DD" && m.template == Some("+7(DDD)-DDD-DD-DD")
    requires |m.conditions| == 1 && AllowList(m.conditions[0]) == ["7", "8"]
    requires input == "7011234567"
    ensures ConsumeRun(m, Ascii, input, Scan(7, 12, 1, "+7(011)-234", "-")) == ConsumeRun(m, Ascii, input, Scan(9, 14, 1, "+7(011)-234-56", ""))
  {
    assert ConsumeStep(m, Ascii, input, Scan(8, 13, 1, "+7(011)-234-5", "")) == Scan(9, 14, 1, "+7(011)-234-56", "");
    assert ConsumeRun(m, Ascii, input, Scan(8, 13, 1, "+7(011)-234-5", "")) == ConsumeRun(m, Ascii, input, Scan(9, 14, 1, "+7(011)-234-56", ""));
    assert ConsumeStep(m, Ascii, input, Scan(7, 12, 1, "+7(011)-234", "-")) == Scan(8, 13, 1, "+7(011)-234-5", "");
  }

  /** The `.consume` scan of the phone mask over "7011234567", steps 15 to 16. */
  lemma PhoneConsumeRawSteps7(m: Mask, input: string)
    requires m.expression == "+C(DDD)-DDD-DD-DD" && m.template == Some("+7(DDD)-DDD-DD-DD")
    requires |m.conditions| == 1 && AllowList(m.conditions[0]) == ["7", "8"]
    requires input == "7011234567"
    ensures ConsumeRun(m, Ascii, input, Scan(9, 14, 1, "+7(011)-234-56", "")) == ConsumeRun(m, Ascii, input, Scan(10, 16, 1, "+7(011)-234-56-7", ""))
  {
    assert ConsumeStep(m, Ascii, input, Scan(9, 15, 1, "+7(011)-234-56", "-")) == Scan(10, 16, 1, "+7(011)-234-56-7", "");
    assert ConsumeRun(m, Ascii, input, Scan(9, 15, 1, "+7(011)-234-56", "-")) == ConsumeRun(m, Ascii, input, Scan(10, 16, 1, "+7(011)-234-56-7", ""));
    assert ConsumeStep(m, Ascii, input, Scan(9, 14, 1, "+7(011)-234-56", "")) == Scan(9, 15, 1, "+7(011)-234-56", "-");
  }

  /** Under `.consume`, the raw number "7011234567" lacks the leading "7" the literal "(" does not match, so every digit moves one slot: "+7(011)-234-56-7". */
  lemma PhoneConsumeRaw()
    ensures Masked(PhoneConsuming, Ascii, "7011234567") == "+7(011)-234-56-7"
  {
    PhoneConditionParsed();
    var m, input := PhoneConsuming, "7011234567";
    PhoneConsumeRawSteps0(m, input);
    PhoneConsumeRawSteps1(m, input);
    PhoneConsumeRawSteps2(m, input);
    PhoneConsumeRawSteps3(m, input);
    PhoneConsumeRawSteps4(m, input);
    PhoneConsumeRawSteps5(m, input);
    PhoneConsumeRawSteps6(m, input);
    PhoneConsumeRawSteps7(m, input);
  }

  /** The `.consume` scan of the phone mask over its own output, steps 1 to 2. */
  lemma PhoneConsumeFormattedSteps0(m: Mask, input: string)
    requires m.expression == "+C(DDD)-DDD-DD-DD" && m.template == Some("+7(DDD)-DDD-DD-DD")
    requires |m.conditions| == 1 && AllowList(m.conditions[0]) == ["7", "8"]
    requires input == "+7(011)-234-56-7"
    ensures ConsumeRun(m, Ascii, input, Scan(0, 0, 0, "", "")) == ConsumeRun(m, Ascii, input, Scan(2, 2, 1, "+7", ""))
  {
    assert ConsumeStep(m, Ascii, input, Scan(1, 1, 0, "", "+")) == Scan(2, 2, 1, "+7", "");
    assert ConsumeRun(m, Ascii, input, Scan(1, 1, 0, "", "+")) == ConsumeRun(m, Ascii, input, Scan(2, 2, 1, "+7", ""));
    assert ConsumeStep(m, Ascii, input, Scan(0, 0, 0, "", "")) == Scan(1, 1, 0, "", "+");
  }

  /** The `.consume` scan of the phone mask over its own output, steps 3 to 4. */
  lemma PhoneConsumeFormattedSteps1(m: Mask, input: string)
    requires m.expression == "+C(DDD)-DDD-DD-DD" && m.template == Some("+7(DDD)-DDD-DD-DD")
    requires |m.conditions| == 1 && AllowList(m.conditions[0]) == ["7", "8"]
    requires input == "+7(011)-234-56-7"
    ensures ConsumeRun(m, Ascii, input, Scan(2, 2, 1, "+7", "")) == ConsumeRun(m, Ascii, input, Scan(4, 4, 1, "+7(0", ""))
  {
    assert ConsumeStep(m, Ascii, input, Scan(3, 3, 1, "+7", "(")) == Scan(4, 4, 1, "+7(0", "");
    assert ConsumeRun(m, Ascii, input, Scan(3, 3, 1, "+7", "(")) == ConsumeRun(m, Ascii, input, Scan(4, 4, 1, "+7(0", ""));
    assert ConsumeStep(m, Ascii, input, Scan(2, 2, 1, "+7", "")) == Scan(3, 3, 1, "+7", "(");
  }

  /** The `.consume` scan of the phone mask over its own output, steps 5 to 6. */
  lemma PhoneConsumeFormattedSteps2(m: Mask, input: string)
    requires m.expression == "+C(DDD)-DDD-DD-DD" && m.template == Some("+7(DDD)-DDD-DD-DD")
    requires |m.conditions| == 1 && AllowList(m.conditions[0]) == ["7", "8"]
    requires input == "+7(011)-234-56-7"
    ensures ConsumeRun(m, Ascii, input, Scan(4, 4, 1, "+7(0", "")) == ConsumeRun(m, Ascii, input, Scan(6, 6, 1, "+7(011", ""))
  {
    assert ConsumeStep(m, Ascii, input, Scan(5, 5, 1, "+7(01", "")) == Scan(6, 6, 1, "+7(011", "");
    assert ConsumeRun(m, Ascii, input, Scan(5, 5, 1, "+7(01", "")) == ConsumeRun(m, Ascii, input, Scan(6, 6, 1, "+7(011", ""));
    assert ConsumeStep(m, Ascii, input, Scan(4, 4, 1, "+7(0", "")) == Scan(5, 5, 1, "+7(01", "");
  }

  /** The `.consume` scan of the phone mask over its own output, steps 7 to 8. */
  lemma PhoneConsumeFormattedSteps3(m: Mask, input: string)
    requires m.expression == "+C(DDD)-DDD-DD-DD" && m.template == Some("+7(DDD)-DDD-DD-DD")
    requires |m.conditions| == 1 && AllowList(m.conditions[0]) == ["7", "8"]
    requires input == "+7(011)-234-56-7"
    ensures ConsumeRun(m, Ascii, input, Scan(6, 6, 1, "+7(011", "")) == ConsumeRun(m, Ascii, input, Scan(8, 8, 1, "+7(011", ")-"))
  {
    assert ConsumeStep(m, Ascii, input, Scan(7, 7, 1, "+7(011", ")")) == Scan(8, 8, 1, "+7(011", ")-");
    assert ConsumeRun(m, Ascii, input, Scan(7, 7, 1, "+7(011", ")")) == ConsumeRun(m, Ascii, input, Scan(8, 8, 1, "+7(011", ")-"));
    assert ConsumeStep(m, Ascii, input, Scan(6, 6, 1, "+7(011", "")) == Scan(7, 7, 1, "+7(011", ")");
  }

  /** The `.consume` scan of the phone mask over its own output, steps 9 to 10. */
  lemma PhoneConsumeFormattedSteps4(m: Mask, input: string)
    requires m.expression == "+C(DDD)-DDD-DD-DD" && m.template == Some("+7(DDD)-DDD-DD-DD")
    requires |m.conditions| == 1 && AllowList(m.conditions[0]) == ["7", "8"]
    requires input == "+7(011)-234-56-7"
    ensures ConsumeRun(m, Ascii, input, Scan(8, 8, 1, "+7(011", ")-")) == ConsumeRun(m, Ascii, input, Scan(10, 10, 1, "+7(011)-23", ""))
  {
    assert ConsumeStep(m, Ascii, input, Scan(9, 9, 1, "+7(011)-2", "")) == Scan(10, 10, 1, "+7(011)-23", "");
    assert ConsumeRun(m, Ascii, input, Scan(9, 9, 1, "+7(011)-2", "")) == ConsumeRun(m, Ascii, input, Scan(10, 10, 1, "+7(011)-23", ""));
    assert ConsumeStep(m, Ascii, input, Scan(8, 8, 1, "+7(011", ")-")) == Scan(9, 9, 1, "+7(011)-2", "");
  }

  /** The `.consume` scan of the phone mask over its own output, steps 11 to 12. */
  lemma PhoneConsumeFormattedSteps5(m: Mask, input: string)
    requires m.expression == "+C(DDD)-DDD-DD-DD" && m.template == Some("+7(DDD)-DDD-DD-DD")
    requires |m.conditions| == 1 && AllowList(m.conditions[0]) == ["7", "8"]
    requires input == "+7(011)-234-56-7"
    ensures ConsumeRun(m, Ascii, input, Scan(10, 10, 1, "+7(011)-23", "")) == ConsumeRun(m, Ascii, input, Scan(12, 12, 1, "+7(011)-234", "-"))
  {
    assert ConsumeStep(m, Ascii, input, Scan(11, 11, 1, "+7(011)-234", "")) == Scan(12, 12, 1, "+7(011)-234", "-");
    assert ConsumeRun(m, Ascii, input, Scan(11, 11, 1, "+7(011)-234", "")) == ConsumeRun(m, Ascii, input, Scan(12, 12, 1, "+7(011)-234", "-"));
    assert ConsumeStep(m, Ascii, input, Scan(10, 10, 1, "+7(011)-23", "")) == Scan(11, 11, 1, "+7(011)-234", "");
  }

  /** The `.consume` scan of the phone mask over its own output, steps 13 to 14. */
  lemma PhoneConsumeFormattedSteps6(m: Mask, input: string)
    requires m.expression == "+C(DDD)-DDD-DD-DD" && m.template == Some("+7(DDD)-DDD-DD-DD")
    requires |m.conditions| == 1 && AllowList(m.conditions[0]) == ["7", "8"]
    requires input == "+7(011)-234-56-7"
    ensures ConsumeRun(m, Ascii, input, Scan(12, 12, 1, "+7(011)-234", "-")) == ConsumeRun(m, Ascii, input, Scan(14, 14, 1, "+7(011)-234-56", ""))
  {
    assert ConsumeStep(m, Ascii, input, Scan(13, 13, 1, "+7(011)-234-5", "")) == Scan(14, 14, 1, "+7(011)-234-56", "");
    assert ConsumeRun(m, Ascii, input, Scan(13, 13, 1, "+7(011)-234-5", "")) == ConsumeRun(m, Ascii, input, Scan(14, 14, 1, "+7(011)-234-56", ""));
    assert ConsumeStep(m, Ascii, input, Scan(12, 12, 1, "+7(011)-234", "-")) == Scan(13, 13, 1, "+7(011)-234-5", "");
  }

  /** The `.consume` scan of the phone mask over its own output, steps 15 to 16. */
  lemma PhoneConsumeFormattedSteps7(m: Mask, input: string)
    requires m.expression == "+C(DDD)-DDD-DD-DD" && m.template == Some("+7(DDD)-DDD-DD-DD")
    requires |m.conditions| == 1 && AllowList(m.conditions[0]) == ["7", "8"]
    requires input == "+7(011)-234-56-7"
    ensures ConsumeRun(m, Ascii, input, Scan(14, 14, 1, "+7(011)-234-56", "")) == ConsumeRun(m, Ascii, input, Scan(16, 16, 1, "+7(011)-234-56-7", ""))
  {
    assert ConsumeStep(m, Ascii, input, Scan(15, 15, 1, "+7(011)-234-56", "-")) == Scan(16, 16, 1, "+7(011)-234-56-7", "");
    assert ConsumeRun(m, Ascii, input, Scan(15, 15, 1, "+7(011)-234-56", "-")) == ConsumeRun(m, Ascii, input, Scan(16, 16, 1, "+7(011)-234-56-7", ""));
    assert ConsumeStep(m, Ascii, input, Scan(14, 14, 1, "+7(011)-234-56", "")) == Scan(15, 15, 1, "+7(011)-234-56", "-");
  }

  /** Under `.consume`, the output for "7011234567" is left as it is. */
  lemma PhoneConsumeFormatted()
    ensures Masked(PhoneConsuming, Ascii, "+7(011)-234-56-7") == "+7(011)-234-56-7"
  {
    PhoneConditionParsed();
    var m, input := PhoneConsuming, "+7(011)-234-56-7";
    PhoneConsumeFormattedSteps0(m, input);
    PhoneConsumeFormattedSteps1(m, input);
    PhoneConsumeFormattedSteps2(m, input);
    PhoneConsumeFormattedSteps3(m, input);
    PhoneConsumeFormattedSteps4(m, input);
    PhoneConsumeFormattedSteps5(m, input);
    PhoneConsumeFormattedSteps6(m, input);
    PhoneConsumeFormattedSteps7(m, input);
  }

  /** The `.consume` scan of the phone mask over "7701", steps 1 to 2. */
  lemma PhoneConsumePartialSteps0(m: Mask, input: string)
    requires m.expression == "+C(DDD)-DDD-DD-DD" && m.template == Some("+7(DDD)-DDD-DD-DD")
    requires |m.conditions| == 1 && AllowList(m.conditions[0]) == ["7", "8"]
    requires input == "7701"
    ensures ConsumeRun(m, Ascii, input, Scan(0, 0, 0, "", "")) == ConsumeRun(m, Ascii, input, Scan(1, 2, 1, "+7", ""))
  {
    assert ConsumeStep(m, Ascii, input, Scan(0, 1, 0, "", "+")) == Scan(1, 2, 1, "+7", "");
    assert ConsumeRun(m, Ascii, input, Scan(0, 1, 0, "", "+")) == ConsumeRun(m, Ascii, input, Scan(1, 2, 1, "+7", ""));
    assert ConsumeStep(m, Ascii, input, Scan(0, 0, 0, "", "")) == Scan(0, 1, 0, "", "+");
  }

  /** The `.consume` scan of the phone mask over "7701", steps 3 to 4. */
  lemma PhoneConsumePartialSteps1(m: Mask, input: string)
    requires m.expression == "+C(DDD)-DDD-DD-DD" && m.template == Some("+7(DDD)-DDD-DD-DD")
    requires |m.conditions| == 1 && AllowList(m.conditions[0]) == ["7", "8"]
    requires input == "7701"
    ensures ConsumeRun(m, Ascii, input, Scan(1, 2, 1, "+7", "")) == ConsumeRun(m, Ascii, input, Scan(2, 4, 1, "+7(7", ""))
  {
    assert ConsumeStep(m, Ascii, input, Scan(1, 3, 1, "+7", "(")) == Scan(2, 4, 1, "+7(7", "");
    assert ConsumeRun(m, Ascii, input, Scan(1, 3, 1, "+7", "(")) == ConsumeRun(m, Ascii, input, Scan(2, 4, 1, "+7(7", ""));
    assert ConsumeStep(m, Ascii, input, Scan(1, 2, 1, "+7", "")) == Scan(1, 3, 1, "+7", "(");
  }

  /** The `.consume` scan of the phone mask over "7701", steps 5 to 6. */
  lemma PhoneConsumePartialSteps2(m: Mask, input: string)
    requires m.expression == "+C(DDD)-DDD-DD-DD" && m.template == Some("+7(DDD)-DDD-DD-DD")
    requires |m.conditions| == 1 && AllowList(m.conditions[0]) == ["7", "8"]
    requires input == "7701"
    ensures ConsumeRun(m, Ascii, input, Scan(2, 4, 1, "+7(7", "")) == ConsumeRun(m, Ascii, input, Scan(4, 6, 1, "+7(701", ""))
  {
    assert ConsumeStep(m, Ascii, input, Scan(3, 5, 1, "+7(70", "")) == Scan(4, 6, 1, "+7(701", "");
    assert ConsumeRun(m, Ascii, input, Scan(3, 5, 1, "+7(70", "")) == ConsumeRun(m, Ascii, input, Scan(4, 6, 1, "+7(701", ""));
    assert ConsumeStep(m, Ascii, input, Scan(2, 4, 1, "+7(7", "")) == Scan(3, 5, 1, "+7(70", "");
  }

  /** Under `.consume`, the partial number "7701" stops before the pending ")": "+7(701". */
  lemma PhoneConsumePartial()
    ensures Masked(PhoneConsuming, Ascii, "7701") == "+7(701"
  {
    PhoneConditionParsed();
    var m, input := PhoneConsuming, "7701";
    PhoneConsumePartialSteps0(m, input);
    PhoneConsumePartialSteps1(m, input);
    PhoneConsumePartialSteps2(m, input);
  }

  /** Masking the raw phone number twice under `.consume` gives what masking it once gives. */
  lemma PhoneConsumeIdempotent()
    ensures Masked(PhoneConsuming, Ascii, Masked(PhoneConsuming, Ascii, "7011234567"))
         == Masked(PhoneConsuming, Ascii, "7011234567")
  {
    PhoneConsumeRaw();
    PhoneConsumeFormatted();
  }
}
