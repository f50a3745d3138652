/**
  The masking engine `Mask` of Sources/MaskingCore/Mask.swift: its
  configuration, the classification of pattern characters, the template
  lookup, and the two scanning algorithms (`maskIgnoringInvalid` and
  `maskConsumingInvalid`), each as an imperative method proved equal to a
  step-by-step specification function.
 */
module MaskingCore {
  import opened AllowLists

  datatype Option<T> = None | Some(value: T)

  /** The placeholder kinds of a pattern character (`Mask.CharType`). */
  datatype CharType = Digit | Letter | Condition

  /** The raw value of each placeholder kind. */
  function RawValue(t: CharType): char
  {
    match t
    case Digit => 'D'
    case Letter => 'L'
    case Condition => 'C'
  }

  /**
    `CharType.init?`: a character is a placeholder exactly when it is the raw
    value of some kind, and then it is classified as that kind.
   */
  function Classify(c: char): (t: Option<CharType>)
    ensures t.Some? ==> RawValue(t.value) == c
    ensures t.None? ==> forall k: CharType :: RawValue(k) != c
  {
    if c == 'D' then Some(Digit)
    else if c == 'L' then Some(Letter)
    else if c == 'C' then Some(Condition)
    else None
  }

  /** A character that is no placeholder: emitted verbatim. */
  predicate IsLiteral(c: char)
  {
    Classify(c).None?
  }

  /** `InvalidInputPolicy`: `.ignore` or `.consume`. */
  datatype Policy = Ignore | Consume

  /**
    Swift's `Character.isNumber` and `Character.isLetter`. They are Unicode
    tables this model leaves open: every operation takes them as parameters.
   */
  datatype CharClasses = CharClasses(isNumber: char -> bool, isLetter: char -> bool)

  /** The stored configuration of a `Mask` value. */
  datatype Mask = Mask(policy: Policy, expression: string, template: Option<string>, conditions: seq<string>)
  {
    /** What `init` guarantees: a kept template is as long as the expression. */
    predicate Valid()
    {
      template.Some? ==> |template.value| == |expression|
    }
  }

  /**
    `Mask.init`: a template is kept exactly when its length equals the
    expression's; otherwise the mask has no template.
   */
  function NewMask(policy: Policy, expression: string, conditions: seq<string>, template: Option<string>): (m: Mask)
    ensures m.Valid()
    ensures m.policy == policy && m.expression == expression && m.conditions == conditions
    ensures m.template.Some? ==> m.template == template
    ensures template.Some? && |template.value| == |expression| ==> m.template == template
  {
    if template.Some? && |template.value| == |expression| then Mask(policy, expression, template, conditions)
    else Mask(policy, expression, None, conditions)
  }

  /**
    `limit`: the length of the expression, which is also the length of the
    template whenever one is kept.
   */
  function Limit(m: Mask): (n: nat)
    ensures n == |m.expression|
    ensures m.Valid() && m.template.Some? ==> n == |m.template.value|
  {
    |m.expression|
  }

  /** The template has a literal (a display character) at position `i`. */
  predicate Overrides(template: Option<string>, i: nat)
  {
    template.Some? && i < |template.value| && IsLiteral(template.value[i])
  }

  /**
    `templateCharacter(at:fallback:)`: the template's character at `i` when it
    is a literal there, otherwise the fallback (the input character).
   */
  function TemplateCharacter(template: Option<string>, i: nat, fallback: char): (c: char)
    ensures Overrides(template, i) ==> c == template.value[i] && IsLiteral(c)
    ensures !Overrides(template, i) ==> c == fallback
  {
    if template.None? || i >= |template.value| then fallback
    else if Classify(template.value[i]) == None then template.value[i]
    else fallback
  }

  /**
    Whether placeholder kind `t` accepts input character `c` when `k`
    conditions have been consumed: a digit, a letter, or a member of the
    allow-list of condition `k` (none when `k` is out of range).
   */
  function Accepts(m: Mask, cls: CharClasses, t: CharType, k: nat, c: char): (ok: bool)
    ensures t == Digit ==> (ok <==> cls.isNumber(c))
    ensures t == Letter ==> (ok <==> cls.isLetter(c))
    ensures t == Condition && k >= |m.conditions| ==> !ok
  {
    match t
    case Digit => cls.isNumber(c)
    case Letter => cls.isLetter(c)
    case Condition => k < |m.conditions| && [c] in AllowList(m.conditions[k])
  }

  /**
    The local state of one scan: the input cursor, the pattern cursor, the
    number of consumed conditions, the committed text and the literals
    waiting to be committed.
   */
  datatype Scan = Scan(inputIndex: nat, patternIndex: nat, conditionIndex: nat, result: string, segment: string)

  /** Every scan starts from nothing, with the condition counter at 0. */
  const Start: Scan := Scan(0, 0, 0, "", "")

  // ---------------------------------------------------------------------------
  // `.ignore`
  // ---------------------------------------------------------------------------

  /**
    One iteration of the `while` loop of `maskIgnoringInvalid`. The pattern
    cursor advances exactly on a literal or an accepted character; a rejected
    character advances the input cursor only; a literal advances the input
    cursor exactly when the input character equals it.
   */
  function IgnoreStep(m: Mask, cls: CharClasses, input: string, s: Scan): (r: Scan)
    requires s.inputIndex < |input| && s.patternIndex < |m.expression|
    ensures r.inputIndex <= |input| && r.patternIndex <= |m.expression|
    ensures r.inputIndex + r.patternIndex > s.inputIndex + s.patternIndex
    ensures IsLiteral(m.expression[s.patternIndex]) ==>
      r.patternIndex == s.patternIndex + 1 && r.result == s.result &&
      (r.inputIndex == s.inputIndex + 1 <==> input[s.inputIndex] == m.expression[s.patternIndex]) &&
      (r.inputIndex == s.inputIndex <==> input[s.inputIndex] != m.expression[s.patternIndex])
    ensures !IsLiteral(m.expression[s.patternIndex]) ==>
      r.inputIndex == s.inputIndex + 1 &&
      (r.patternIndex == s.patternIndex + 1 <==>
         Accepts(m, cls, Classify(m.expression[s.patternIndex]).value, s.conditionIndex, input[s.inputIndex])) &&
      (r.patternIndex == s.patternIndex <==>
         !Accepts(m, cls, Classify(m.expression[s.patternIndex]).value, s.conditionIndex, input[s.inputIndex]))
  {
    var p := m.expression[s.patternIndex];
    var c := input[s.inputIndex];
    match Classify(p)
    case None =>
      s.(inputIndex := if c == p then s.inputIndex + 1 else s.inputIndex,
         patternIndex := s.patternIndex + 1,
         segment := s.segment + [p])
    case Some(t) =>
      if !Accepts(m, cls, t, s.conditionIndex, c) then s.(inputIndex := s.inputIndex + 1)
      else Scan(s.inputIndex + 1, s.patternIndex + 1,
                if t == Condition then s.conditionIndex + 1 else s.conditionIndex,
                s.result + (s.segment + [TemplateCharacter(m.template, s.patternIndex, c)]), "")
  }

  /** The `while` loop of `maskIgnoringInvalid` run from state `s` to its end. */
  function IgnoreRun(m: Mask, cls: CharClasses, input: string, s: Scan): string
    decreases |input| - s.inputIndex + |m.expression| - s.patternIndex
  {
    if s.inputIndex < |input| && s.patternIndex < |m.expression| then
      IgnoreRun(m, cls, input, IgnoreStep(m, cls, input, s))
    else s.result
  }

  /** What `maskIgnoringInvalid` returns. */
  function Ignored(m: Mask, cls: CharClasses, input: string): string
  {
    IgnoreRun(m, cls, input, Start)
  }

  /**
    `maskIgnoringInvalid`. The Swift code keeps two pattern cursors, the
    `String.Index` `expIndex` and the offset `i`; they always advance together,
    so one integer cursor stands for both.
   */
  method MaskIgnoringInvalid(m: Mask, cls: CharClasses, input: string) returns (result: string)
    ensures result == Ignored(m, cls, input)
  {
    result := "";
    var segmentString := "";
    var inputIndex := 0;
    var conditionIndex := 0;
    var expIndex := 0;

    while expIndex < |m.expression| && inputIndex < |input|
      invariant inputIndex <= |input| && expIndex <= |m.expression|
      invariant IgnoreRun(m, cls, input, Scan(inputIndex, expIndex, conditionIndex, result, segmentString))
                == Ignored(m, cls, input)
      decreases |input| - inputIndex + |m.expression| - expIndex
    {
      var expChar := m.expression[expIndex];
      if Classify(expChar).None? {
        if input[inputIndex] == expChar {
          inputIndex := inputIndex + 1;
        }
        segmentString := segmentString + [expChar];
        expIndex := expIndex + 1;
        continue;
      }

      var charType := Classify(expChar).value;
      var inChar := input[inputIndex];
      match charType {
        case Digit =>
          if !cls.isNumber(inChar) {
            inputIndex := inputIndex + 1;
            continue;
          }
          var out := TemplateCharacter(m.template, expIndex, inChar);
          segmentString := segmentString + [out];
          result := result + segmentString;
          segmentString := "";
        case Letter =>
          if !cls.isLetter(inChar) {
            inputIndex := inputIndex + 1;
            continue;
          }
          var out := TemplateCharacter(m.template, expIndex, inChar);
          segmentString := segmentString + [out];
          result := result + segmentString;
          segmentString := "";
        case Condition =>
          if conditionIndex >= |m.conditions| {
            inputIndex := inputIndex + 1;
            continue;
          }
          var allowed := AllowList(m.conditions[conditionIndex]);
          if [inChar] !in allowed {
            inputIndex := inputIndex + 1;
            continue;
          }
          var out := TemplateCharacter(m.template, expIndex, inChar);
          segmentString := segmentString + [out];
          result := result + segmentString;
          segmentString := "";
          conditionIndex := conditionIndex + 1;
      }

      inputIndex := inputIndex + 1;
      expIndex := expIndex + 1;
    }
  }

  // ---------------------------------------------------------------------------
  // `.consume`
  // ---------------------------------------------------------------------------

  /**
    One iteration of the `for ... where` loop of `maskConsumingInvalid`. The
    pattern cursor always advances. The input cursor advances on every
    placeholder except a `C` with no condition left, and on a literal exactly
    when the input character equals it.
   */
  function ConsumeStep(m: Mask, cls: CharClasses, input: string, s: Scan): (r: Scan)
    requires s.inputIndex < |input| && s.patternIndex < |m.expression|
    ensures r.inputIndex <= |input| && r.patternIndex == s.patternIndex + 1
    ensures IsLiteral(m.expression[s.patternIndex]) ==>
      r.result == s.result &&
      (r.inputIndex == s.inputIndex + 1 <==> input[s.inputIndex] == m.expression[s.patternIndex]) &&
      (r.inputIndex == s.inputIndex <==> input[s.inputIndex] != m.expression[s.patternIndex])
    ensures !IsLiteral(m.expression[s.patternIndex]) ==>
      (r.inputIndex == s.inputIndex <==>
         m.expression[s.patternIndex] == 'C' && s.conditionIndex >= |m.conditions|) &&
      (r.inputIndex == s.inputIndex + 1 <==>
         !(m.expression[s.patternIndex] == 'C' && s.conditionIndex >= |m.conditions|))
  {
    var p := m.expression[s.patternIndex];
    var c := input[s.inputIndex];
    var next := s.patternIndex + 1;
    var committed := s.result + (s.segment + [TemplateCharacter(m.template, s.patternIndex, c)]);
    match Classify(p)
    case None =>
      s.(inputIndex := if p == c then s.inputIndex + 1 else s.inputIndex,
         patternIndex := next,
         segment := s.segment + [p])
    case Some(Digit) =>
      if cls.isNumber(c) then Scan(s.inputIndex + 1, next, s.conditionIndex, committed, "")
      else s.(inputIndex := s.inputIndex + 1, patternIndex := next)
    case Some(Letter) =>
      if cls.isLetter(c) then Scan(s.inputIndex + 1, next, s.conditionIndex, committed, "")
      else s.(inputIndex := s.inputIndex + 1, patternIndex := next)
    case Some(Condition) =>
      if s.conditionIndex >= |m.conditions| then s.(patternIndex := next)
      else if [c] in AllowList(m.conditions[s.conditionIndex]) then
        Scan(s.inputIndex + 1, next, s.conditionIndex + 1, committed, "")
      else s.(inputIndex := s.inputIndex + 1, patternIndex := next)
  }

  /**
    The loop of `maskConsumingInvalid` run from state `s` to its end. Because
    the input cursor never moves back, the `where inputIndex < input.endIndex`
    filter skips every iteration after the first one it skips, so the run
    stops there.
   */
  function ConsumeRun(m: Mask, cls: CharClasses, input: string, s: Scan): string
    decreases |m.expression| - s.patternIndex
  {
    if s.inputIndex < |input| && s.patternIndex < |m.expression| then
      ConsumeRun(m, cls, input, ConsumeStep(m, cls, input, s))
    else s.result
  }

  /** What `maskConsumingInvalid` returns. */
  function Consumed(m: Mask, cls: CharClasses, input: string): string
  {
    ConsumeRun(m, cls, input, Start)
  }

  /** `maskConsumingInvalid`, with the `where` filter kept as a guard on the loop body. */
  method MaskConsumingInvalid(m: Mask, cls: CharClasses, input: string) returns (result: string)
    ensures result == Consumed(m, cls, input)
  {
    result := "";
    var segmentString := "";
    var inputIndex := 0;
    var conditionIndex := 0;

    for i := 0 to |m.expression|
      invariant inputIndex <= |input|
      invariant ConsumeRun(m, cls, input, Scan(inputIndex, i, conditionIndex, result, segmentString))
                == Consumed(m, cls, input)
    {
      if inputIndex < |input| {
        var ch := m.expression[i];
        if Classify(ch).None? {
          if ch == input[inputIndex] {
            inputIndex := inputIndex + 1;
          }
          segmentString := segmentString + [ch];
          continue;
        }

        var charType := Classify(ch).value;
        var character := input[inputIndex];
        var templateCharacter := TemplateCharacter(m.template, i, character);

        match charType {
          case Digit =>
            if cls.isNumber(character) {
              segmentString := segmentString + [templateCharacter];
              result := result + segmentString;
              segmentString := "";
            }
          case Letter =>
            if cls.isLetter(character) {
              segmentString := segmentString + [templateCharacter];
              result := result + segmentString;
              segmentString := "";
            }
          case Condition =>
            if conditionIndex >= |m.conditions| {
              continue;
            }
            var allowedCases := AllowList(m.conditions[conditionIndex]);
            if [character] in allowedCases {
              segmentString := segmentString + [templateCharacter];
              result := result + segmentString;
              segmentString := "";
              conditionIndex := conditionIndex + 1;
            }
        }

        inputIndex := inputIndex + 1;
      }
    }
  }

  // ---------------------------------------------------------------------------
  // `maskedString`
  // ---------------------------------------------------------------------------

  /** What `maskedString(input:)` returns: the scan of the mask's policy. */
  function Masked(m: Mask, cls: CharClasses, input: string): string
  {
    match m.policy
    case Ignore => Ignored(m, cls, input)
    case Consume => Consumed(m, cls, input)
  }

  /** `maskedString(input:)`: dispatch on the invalid-input policy. */
  method MaskedString(m: Mask, cls: CharClasses, input: string) returns (r: string)
    ensures r == Masked(m, cls, input)
  {
    match m.policy {
      case Ignore => r := MaskIgnoringInvalid(m, cls, input);
      case Consume => r := MaskConsumingInvalid(m, cls, input);
    }
  }
}
