# Masking: a verified model of the `Mask` engine

`Mask` (Sources/MaskingCore/Mask.swift) formats user-typed text with a
pattern such as `+C(DDD)-DDD-DD-DD`:

- `D` takes a digit, `L` a letter, and `C` one of the alternatives of the
  next condition (`"7, 8"` allows `7` or `8`).
- Every other pattern character is a literal. It is stored as pending and
  written out only when the next placeholder accepts a character, so the
  output never ends with a literal.
- An optional template of the same length replaces an accepted character
  with the template's display character at that position (`+7(DDD)` always
  shows `7` after the `+`). A template of any other length is dropped when
  the mask is built.
- The invalid-input policy picks the algorithm:
  - `.ignore` skips an input character that the current placeholder rejects
    and tries the same placeholder again;
  - `.consume` lets the placeholder use up the rejected character and moves
    on to the next one.

The model has four modules:

- `AllowLists` (allow_lists.dfy) parses a condition into its allow-list:
  spaces removed, split on `,`, empty pieces dropped. The split has an
  inverse, `Join`, and the two round trips are proved. A condition written
  as alternatives joined by `,` allows exactly its non-empty alternatives,
  and spaces anywhere in it change nothing.
- `MaskingCore` (masking_core.dfy) holds the configuration and the pattern
  classification. It models both scanning loops as imperative methods. Each
  method is proved equal to a specification built from one function per
  loop iteration (`IgnoreStep`, `ConsumeStep`) and the run of that function
  to the end (`IgnoreRun`, `ConsumeRun`). `MaskedString` dispatches on the
  policy.
- `MaskProperties` (mask_properties.dfy) proves what holds for every mask,
  every pair of character classes and every input:
  - the output never exceeds `limit`;
  - empty input gives empty output;
  - typing more input only extends the output;
  - a template of the wrong length has no effect;
  - every output character comes from the right pattern position, with the
    right condition for each `C`, and shows the input character read for it;
    the placeholders read the input in order.
- `MaskExamples` (mask_examples.dfy) works through concrete scans from the
  package's test suites. It uses ASCII digits and letters, and includes both
  idempotence tests for the phone masks.

Swift's `Character.isNumber` and `Character.isLetter` are Unicode tables. The
model leaves them open: every operation takes a `CharClasses` value holding
the two predicates, and the general properties hold for any choice.

One row of the test tables disagrees with the code:
MaskingConsumeCoreTests.swift:87 expects `"8 12"` to become `"8-12"` under
`.consume`. In `maskConsumingInvalid` the space does not match `-`, so
`-` waits. The first `D` then uses up the space and rejects it, so only `1`
reaches the last slot. `MaskExamples.ConditionConsumeSpace` proves the result
is `"8-1"`. That agrees with the policy as the other rows describe it:
`"a b 1 2"` gives `"a"` (MaskingConsumeCoreTests.swift:31). The model follows
the code.

## Model

| member | source | states |
|---|---|---|
| MaskingCore.Classify | Sources/MaskingCore/Mask.swift:193-205 | a character classifies as a placeholder kind exactly when it is that kind's raw value `D`, `L` or `C`; every other character is a literal |
| MaskingCore.NewMask | Sources/MaskingCore/Mask.swift:13-28 | the mask keeps the policy, expression and conditions, keeps the template exactly when its length equals the expression's, and otherwise has none; the result satisfies `Valid` |
| MaskingCore.Limit | Sources/MaskingCore/Mask.swift:9-11 | `limit` is the expression's length, which is also the template's length whenever the mask keeps one |
| MaskingCore.Accepts | Sources/MaskingCore/Mask.swift:88-118 | a `D` accepts exactly the characters `isNumber` holds for and an `L` exactly those `isLetter` holds for; a `C` accepts nothing once the conditions are used up (the same test appears under `.consume` at Mask.swift:166-178) |
| MaskingCore.TemplateCharacter | Sources/MaskingCore/Mask.swift:49-62 | the template's character at `i` when it is present and is no placeholder there (that character is then a literal), otherwise the fallback input character |
| MaskingCore.IgnoreStep | Sources/MaskingCore/Mask.swift:70-128 | one `.ignore` iteration: a literal always advances the pattern and advances the input exactly when the input character equals it; a placeholder always advances the input and advances the pattern exactly when it accepts the character |
| MaskingCore.MaskIgnoringInvalid | Sources/MaskingCore/Mask.swift:39-131 | the `while` loop over the two cursors returns `Ignored`, the `.ignore` specification run from the start state |
| MaskingCore.ConsumeStep | Sources/MaskingCore/Mask.swift:139-185 | one `.consume` iteration always advances the pattern; a literal advances the input exactly when it matches; a placeholder advances the input unless it is a `C` with no condition left |
| MaskingCore.MaskConsumingInvalid | Sources/MaskingCore/Mask.swift:133-188 | the `for ... where` loop returns `Consumed`, the `.consume` specification run from the start state; iterations the `where` filter skips change nothing |
| MaskingCore.MaskedString | Sources/MaskingCore/Mask.swift:30-37 | returns the scan of the mask's policy |
| AllowLists.RemoveSpaces | Sources/MaskingCore/Mask.swift:110-111 | removes every space and keeps the count of every other character; text with no space is unchanged; a single character is dropped exactly when it is a space |
| AllowLists.RemoveSpacesConcat | Sources/MaskingCore/Mask.swift:110-111 | removing spaces works piece by piece: the kept characters of a text followed by those of the next, so the order is kept |
| AllowLists.SpaceIgnored | Sources/MaskingCore/Mask.swift:110-115 | a space inserted anywhere in a condition leaves its allow-list unchanged |
| AllowLists.SplitCommas | Sources/MaskingCore/Mask.swift:112 | at least one piece; no piece holds a comma; every character of a piece comes from the text |
| AllowLists.NonEmpty | Sources/MaskingCore/Mask.swift:112 | keeps exactly the non-empty pieces, as `split` omits empty subsequences |
| AllowLists.AllowList | Sources/MaskingCore/Mask.swift:110-115 | every allowed alternative is non-empty and holds no comma and no space |
| AllowLists.JoinSplit | Sources/MaskingCore/Mask.swift:112 | joining the pieces of a split with commas gives back the split text |
| AllowLists.SplitJoin | Sources/MaskingCore/Mask.swift:112 | splitting comma-free pieces after joining them gives back the pieces |
| AllowLists.AllowListOfJoin | Sources/MaskingCore/Mask.swift:110-115 | a condition written as alternatives with no comma or space, joined by `,`, has as allow-list exactly its non-empty alternatives in their order; an alternative is allowed if and only if it is one of them and not empty |
| MaskProperties.ConditionRejectsSeparators | Sources/MaskingCore/Mask.swift:104-118 | a `C` slot never accepts a space or a comma |
| MaskProperties.ConditionAcceptsAlternatives | Sources/MaskingCore/Mask.swift:104-118 | for a condition written as alternatives joined by `,`, a `C` slot accepts a character if and only if that character is one of the alternatives |
| MaskProperties.IgnoreStepKeeps | Sources/MaskingCore/Mask.swift:70-128 | one `.ignore` iteration keeps the loop invariant: committed plus pending text covers exactly the pattern prefix read so far, the condition counter counts the `C`s in that prefix, and the pending text is that prefix's trailing literals |
| MaskProperties.IgnoreRunKeeps | Sources/MaskingCore/Mask.swift:70-130 | from any state satisfying the invariant, with the input positions read so far, the `.ignore` result is aligned with the pattern, ends at a placeholder, and comes with input positions read in order, all inside the input |
| MaskProperties.IgnoreAlignment | Sources/MaskingCore/Mask.swift:73-122 | under `.ignore`, output position j comes from pattern position j and input position `qs[j]`: a literal as itself, a placeholder as the template character or `input[qs[j]]`, which it accepts, and a `C` against the condition numbered by the `C`s before it; each placeholder reads a later input position than every placeholder before it |
| MaskProperties.IgnoreNoTrailingLiterals | Sources/MaskingCore/Mask.swift:64-68 | `.ignore` output is empty or ends at a placeholder position, because pending literals are committed only with an accepted character |
| MaskProperties.IgnoreRunGrows | Sources/MaskingCore/Mask.swift:64-68 | committed `.ignore` text is never taken back |
| MaskProperties.IgnoreRunExtends | Sources/MaskingCore/Mask.swift:70-128 | from any state, more input only extends the `.ignore` result |
| MaskProperties.ConsumeRunKeeps | Sources/MaskingCore/Mask.swift:139-185 | from any state satisfying the `.consume` invariant, the result is at most as long as the pattern, aligned with an increasing selection of pattern positions, and comes with input positions read in order, all inside the input |
| MaskProperties.ConsumeAlignment | Sources/MaskingCore/Mask.swift:139-185 | `.consume` output position j comes from the j-th of an increasing selection of pattern positions and from input position `qs[j]`: literals as themselves, placeholders as the template character or `input[qs[j]]`, which they accept, the k-th emitted `C` against condition k; placeholders read the input in order; the last character is a placeholder's |
| MaskProperties.ConsumeRunGrows | Sources/MaskingCore/Mask.swift:158-162 | committed `.consume` text is never taken back |
| MaskProperties.ConsumeRunExtends | Sources/MaskingCore/Mask.swift:139-185 | from any state, more input only extends the `.consume` result |
| MaskProperties.MaskedWithinLimit | Sources/MaskingCore/Mask.swift:9-11 | under both policies the masked string is never longer than `limit`, the expression's length |
| MaskProperties.MaskedEmptyInput | Sources/MaskingCore/Mask.swift:70-139 | empty input gives the empty string, because neither the `while` loop (line 70) nor any iteration of the `for ... where` loop (line 139) runs |
| MaskProperties.MaskedExtends | Sources/MaskingCore/Mask.swift:30-37 | for every mask, appending input only extends the masked string (partial input yields a prefix of the full result) |
| MaskProperties.MismatchedTemplateDropped | Sources/MaskingCore/Mask.swift:23-27 | a template whose length differs from the expression's gives exactly the output of a mask with no template |
| MaskExamples.ConditionParsed | Tests/MaskingCoreTests/MaskingIgnoreCoreTests.swift:15 | the condition `"7,8"` allows exactly `7` and `8` |
| MaskExamples.PhoneConditionParsed | Tests/MaskingCoreTests/MaskingIgnoreCoreTests.swift:11 | the condition `"7, 8"` allows exactly `7` and `8` once the space is removed |
| MaskExamples.PhoneKeepsTemplate | Tests/MaskingCoreTests/MaskingIgnoreCoreTests.swift:8-13 | both phone masks keep their template, whose length matches |
| MaskExamples.LettersDigitsIgnoreDigits | Tests/MaskingCoreTests/MaskingIgnoreCoreTests.swift:19 | `.ignore` "LL-DD" gives "" for "1212" |
| MaskExamples.LettersDigitsIgnoreLetters | Tests/MaskingCoreTests/MaskingIgnoreCoreTests.swift:20 | `.ignore` "LL-DD" gives "aa" for "12aa" |
| MaskExamples.LettersDigitsIgnoreShort | Tests/MaskingCoreTests/MaskingIgnoreCoreTests.swift:23 | `.ignore` "LL-DD" gives "ab" for "ab": the pending `-` is not written |
| MaskExamples.LettersDigitsIgnoreReadsInOrder | Tests/MaskingCoreTests/MaskingIgnoreCoreTests.swift:23 | a two-character output of `.ignore` "LL-DD" for "ab" that meets the alignment must read input positions 0 then 1 and be "ab"; "aa" is ruled out |
| MaskExamples.LettersDigitsIgnoreNoise | Tests/MaskingCoreTests/MaskingIgnoreCoreTests.swift:29 | `.ignore` "LL-DD" gives "ab-12" for "!!ab__12??" |
| MaskExamples.LettersDigitsConsumeDigits | Tests/MaskingCoreTests/MaskingConsumeCoreTests.swift:19 | `.consume` "LL-DD" gives "-12" for "1212" |
| MaskExamples.LettersDigitsConsumeLetters | Tests/MaskingCoreTests/MaskingConsumeCoreTests.swift:20 | `.consume` "LL-DD" gives "" for "12aa" |
| MaskExamples.LettersDigitsConsumeExtraLetters | Tests/MaskingCoreTests/MaskingConsumeCoreTests.swift:29 | `.consume` "LL-DD" gives "ab" for "abcd12" |
| MaskExamples.ConditionIgnoreAllowed | Tests/MaskingCoreTests/MaskingIgnoreCoreTests.swift:93 | `.ignore` "C-DD" with `"7,8"` gives "7-12" for "712" |
| MaskExamples.ConditionIgnoreRejected | Tests/MaskingCoreTests/MaskingIgnoreCoreTests.swift:95 | `.ignore` "C-DD" with `"7,8"` gives "" for "912": the `C` rejects every digit and keeps waiting |
| MaskExamples.ConditionConsumeRejected | Tests/MaskingCoreTests/MaskingConsumeCoreTests.swift:88 | `.consume` "C-DD" with `"7,8"` gives "-12" for "912": the `C` uses up the `9` |
| MaskExamples.ConditionConsumeSpace | Tests/MaskingCoreTests/MaskingConsumeCoreTests.swift:87 | `.consume` "C-DD" with `"7,8"` gives "8-1" for "8 12", where the test table expects "8-12" |
| MaskExamples.PhoneIgnoreLetter | Tests/MaskingCoreTests/MaskingIgnoreCoreTests.swift:59 | `.ignore` phone mask gives "" for "x": the pending `+` is dropped |
| MaskExamples.PhoneIgnorePartial | Tests/MaskingCoreTests/MaskingIgnoreCoreTests.swift:63 | `.ignore` phone mask gives "+7(701" for "7701" |
| MaskExamples.PhoneIgnoreSpaced | Tests/MaskingCoreTests/MaskingIgnoreCoreTests.swift:68 | `.ignore` phone mask gives "+7(701)-1" for "7 701 1": the spaces are skipped |
| MaskExamples.PhoneIgnoreEight | Tests/MaskingCoreTests/MaskingIgnoreCoreTests.swift:61 | `.ignore` phone mask gives "+7" for "8": the template replaces the accepted `8` |
| MaskExamples.PhoneIgnoreRaw | Tests/MaskingCoreTests/MaskingIgnoreCoreTests.swift:41 | `.ignore` phone mask gives "+7(701)-123-45-67" for "77011234567" |
| MaskExamples.PhoneIgnoreFormatted | Tests/MaskingCoreTests/MaskingIgnoreCoreTests.swift:43 | `.ignore` phone mask maps "+7(701)-123-45-67" to itself |
| MaskExamples.PhoneIgnoreIdempotent | Tests/MaskingCoreTests/MaskingIgnoreCoreTests.swift:85-90 | masking the `.ignore` phone output of "77011234567" again gives the same string |
| MaskExamples.PhoneConsumeRaw | Tests/MaskingCoreTests/MaskingConsumeCoreTests.swift:43 | `.consume` phone mask gives "+7(011)-234-56-7" for "7011234567" |
| MaskExamples.PhoneConsumePartial | Tests/MaskingCoreTests/MaskingConsumeCoreTests.swift:59 | `.consume` phone mask gives "+7(701" for "7701" |
| MaskExamples.PhoneConsumeFormatted | Tests/MaskingCoreTests/MaskingConsumeCoreTests.swift:77-83 | `.consume` phone mask maps "+7(011)-234-56-7" to itself |
| MaskExamples.PhoneConsumeIdempotent | Tests/MaskingCoreTests/MaskingConsumeCoreTests.swift:77-83 | masking the `.consume` phone output of "7011234567" again gives the same string |

## Left out

- `Character.isNumber` and `Character.isLetter` are Unicode property tables. They are parameters of every operation (`CharClasses`); the examples use ASCII digits and letters.
- Swift `Character` is an extended grapheme cluster. The model uses one `char` per character and integer offsets in place of `String.Index`.
- `maskIgnoringInvalid` keeps two pattern cursors, `expIndex` and `i`. They always advance together, so the model keeps one.
- `maskConsumingInvalid` reads the template at offset `i` without a bounds check (Mask.swift:149-156). The model uses the guarded lookup of `templateCharacter`. The two agree on every mask `NewMask` builds, since a kept template is as long as the expression.
- The `conditions[safe:]` subscript is not defined in Mask.swift. It is modelled as returning nothing for an index out of range.
- The UIKit and SwiftUI text-field adapters (MaskedTextField.swift, MaskedTextFieldDelegate.swift, MaskedTextFieldDelegateObserver.swift) are the user-interface layer. They are not part of this model; neither is Package.swift.
- `Mask.init` has default arguments (Mask.swift:14-17): policy `.ignore`, no conditions, no template. `NewMask` takes all four explicitly; the masks of the examples spell out the defaults.
- The test tables are not all reproduced. The examples cover each kind of row: accepted, rejected and noisy input, the pending-literal rule, conditions, templates, some partial inputs and idempotence. For the other partial-input rows the general properties state only that a partial input gives a prefix of the full output (`MaskedExtends`) and that no output exceeds `limit` (`MaskedWithinLimit`); the exact outputs of those rows are not derived.
