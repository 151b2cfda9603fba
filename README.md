# GOLD 2025 COPD decision-support wizard — Dafny model

This project models the decision logic of a French-language COPD (BPCO)
decision-support wizard built on the GOLD 2025 report. A clinician fills in
a patient record over six steps: patient, diagnostic, assessment,
treatment, exacerbations and follow-up. From that record the wizard
derives:

- the CAT questionnaire total;
- the GOLD 1–4 spirometric grade from FEV1 % predicted;
- the post-bronchodilator FEV1/FVC < 0.7 obstruction criterion;
- the ABE risk group (A, B, E or "Inconnu");
- an initial pharmacological treatment and an eosinophil advisory.

It also validates the current step before letting the clinician move on.

Modules, one per concern of `App.tsx` and `types.ts`:

- `Wrappers`: `Option`, used for JavaScript's `null` and `NaN` results.
- `JsText`: the JavaScript built-ins the wizard applies to its text fields. These are truthiness, `String.prototype.trim`, `parseInt` with no radix (leading blanks, sign, `0x` prefix, longest digit prefix) and `parseFloat` (sign, `Infinity`, digits, fraction, exponent). Whitespace is the ECMAScript WhiteSpace and LineTerminator set.
- `Types`: the `PatientData` record (every clinical number is the text typed, `""` meaning unset), its keys, the CAT sub-record, the `ValidationErrors` map (field keys plus the synthetic `catScore` key) and `TreatmentRecommendation`.
- `CatScore`: `calculateCATScore` as a loop, proved equal to an all-or-nothing total.
- `Grading`: the GOLD grade badge and report text, and the obstruction line and its coherence warning.
- `Groups`: `calculateGOLDGroup` and the coherence warnings of the treatment step.
- `Treatment`: `getInitialTreatment`, the eosinophil tiers and the report's recommended-approach sentence.
- `Validation`: `validateCurrentStep`, both as the method that adds entries one rule at a time and as a declarative map of the failed checks of a step.
- `StepViews`: what the diagnostic, assessment and treatment step views display, both as intended (from the record the wizard holds) and as the code renders it (see "## Findings").
- `Wizard`: the wizard state as a class (record, errors, current step, report flag), together with field edits, validation, navigation, button state, the CAT dialog (a second class) and the merge of its answers.

Where the written design and the code differ, the model follows the code:

- `getInitialTreatment` takes only the group. Group E gets one fixed recommendation, with no branch on the eosinophil count. The eosinophil tiers are a separate advisory, and the report's E sentence makes its own ≥ 300 test.
- The diagnostic step's "required" test on the ratio is JavaScript truthiness (`!x`), not a trimmed test. A ratio of blanks therefore gets the out-of-range message.
- `handleNext` reads `canProceedToNext` as it stood when Next was clicked. That is, it reads the error messages stored before this click's validation. It moves on only when both that value and the validation pass.
- No B-group eosinophil sub-note and no interventional-treatment tier exist in this code, so none is modelled.

One exception: the step views. As written, they read the initial record whatever the wizard holds (see "## Findings"). `StepViews.DisplayAsWritten` models that. The rest of the model feeds the views the current record, as the code evidently intends.

## Model

| member | source | states |
|---|---|---|
| JsText.Trim | App.tsx:212-213 | `String.prototype.trim`; its meaning is stated by `JsText.TrimEmptyIff` |
| JsText.TrimEmptyIff | App.tsx:212-213 | `trim()` gives "" exactly for a string made only of blanks, so `!x.trim()` means "blank" |
| JsText.IntParsedIsTruthy | App.tsx:226-227 | a text that `parseInt` reads as a number is truthy and not blank, so the "required" branch never hides a number |
| JsText.FloatParsedIsTruthy | App.tsx:219-221 | a text that `parseFloat` reads as a number is truthy and not blank |
| JsText.ParseInt | App.tsx:214 | `parseInt` with no radix; its meaning is stated by `JsText.ParseIntDigits`, `JsText.ParseIntDecimalString` and `JsText.IntParsedIsTruthy` |
| JsText.ParseIntDigits | App.tsx:214 | every non-empty string of decimal digits, leading zeros included, parses to the number it denotes ("007" reads as 7) |
| JsText.ParseIntDecimalString | App.tsx:214 | round trip: `parseInt(String(n)) === n` for every natural number n |
| JsText.ParseIntStopsAtDot | App.tsx:214 | `parseInt` stops at the first non-digit: "18.7" reads as 18 |
| JsText.ParseIntNoDigits | App.tsx:214 | a text with no digit ("abc") is NaN |
| JsText.ParseIntHex | App.tsx:214 | a "0x" prefix switches to radix 16: "0x1A" reads as 26 |
| JsText.ParseFloat | App.tsx:221 | `parseFloat`; its meaning is stated by `JsText.ParseFloatDecimal` and `JsText.FloatParsedIsTruthy` |
| JsText.DecimalMagnitude | App.tsx:221 | the decimal literal `parseFloat` reads after the sign; its meaning is stated by `JsText.ParseFloatDecimal` |
| JsText.ParseFloatDecimal | App.tsx:221 | every text "w.f" of decimal digits, with w or f non-empty, parses to w plus f scaled down by 10 to the length of f ("0.65" reads as 0.65, ".5" as 0.5) |
| JsText.ParseFloatSevenTenths | App.tsx:445 | `parseFloat("0.7")` is exactly 0.7, the obstruction threshold |
| JsText.ParseFloatExponent | App.tsx:221 | an exponent part scales the mantissa: "7e-1" reads as 0.7 |
| JsText.ParseFloatNoDigits | App.tsx:221 | a text with no digit is NaN |
| Types.Get | types.ts:5-43 | reading key f of a record gives a value of the type that f declares (text, checkbox or list) |
| Types.WithFieldSets | App.tsx:185-187 | `{ ...prev, [field]: value }` gives `field` the new value |
| Types.WithFieldKeeps | App.tsx:185-187 | `{ ...prev, [field]: value }` leaves every other field as it was |
| Types.WithFieldFrame | App.tsx:185-187 | both together: exactly field f changes, to v |
| Types.WithScore | App.tsx:66-68 | a change of one CAT answer sets that item and keeps the seven others |
| Types.CatItemsDistinct | types.ts:45-54 | `CATScoreFields` has eight items, every item is listed, and they pick eight different record keys |
| CatScore.CatFieldsAreCatItems | App.tsx:165-166 | the keys `calculateCATScore` iterates are the `CATScoreFields` keys, in the same order |
| CatScore.CatTextAt | App.tsx:172 | reading the i-th iterated key of the record gives the i-th CAT text |
| CatScore.AnsweredIffNotBlank | App.tsx:173 | `valueStr && valueStr.trim() !== ''` holds exactly for a text that is not all blanks |
| CatScore.CalculateCATScore | App.tsx:164-183 | the loop over the eight items, with `total` and `completedFields`, returns the all-or-nothing total `CatTotal` |
| CatScore.AnsweredCountFull | App.tsx:178-182 | the answered count reaches the number of items exactly when every item is answered |
| CatScore.AnsweredSumFull | App.tsx:174-177 | when every item is answered, the running total is the sum of all contributions |
| CatScore.CatTotal | App.tsx:164-183 | the value of `calculateCATScore`; its meaning is stated by `CatScore.CatTotalComplete`, and `CatScore.CalculateCATScore` computes it |
| CatScore.CatTotalComplete | App.tsx:164-183 | the total is non-null exactly when none of the eight items is blank, and is then the full sum, never a partial one |
| CatScore.SumContributionsPointwise | App.tsx:174-177 | items with equal contributions give equal sums |
| CatScore.UnparsedItemAddsZero | App.tsx:173-178 | a non-blank item that does not parse counts as answered and adds 0: same total as answering "0" |
| CatScore.RadioAnswerValue | App.tsx:112-119 | a radio answer "0".."5" is answered and contributes its digit |
| CatScore.RadioSum | App.tsx:171-180 | a list of radio answers is all answered, its sum is the digit sum, and that sum is at most 5 per item |
| CatScore.CatTotalBounds | App.tsx:626 | when every item holds a radio answer, the total is the digit sum and lies in 0..40 |
| Grading.GradeOf | App.tsx:565-571 | GOLD 1 iff ≥ 80, GOLD 2 iff 50..79, GOLD 3 iff 30..49, GOLD 4 iff < 30 |
| Grading.GradeMonotone | App.tsx:565-567 | a lower FEV1 never gives a milder grade |
| Grading.GradeLabelsDistinct | App.tsx:569-571 | the four grade labels differ from each other and from "Non renseigné" |
| Grading.GradeBadge | App.tsx:560-571 | the live badge shows exactly when `parseInt` succeeds, with the grade of the parsed value |
| Grading.GoldGradeText | App.tsx:845-852 | `getGoldGradeText`; its meaning is stated by `Grading.ReportMatchesBadge` and `Grading.GradeTextOfNumber` |
| Grading.ReportMatchesBadge | App.tsx:845-852 | on every input the report text is the badge's label, or "Non renseigné" exactly when there is no badge |
| Grading.GradeTextOfNumber | App.tsx:845-852 | the report grades the typed number n by its band |
| Grading.GradeBoundaries | App.tsx:848-851 | 80, 50 and 30 belong to the milder grade; 79, 49 and 29 to the next one |
| Grading.ObstructionFlag | App.tsx:443-455 | the obstruction line shows exactly when `parseFloat` is not NaN, and says "compatible" exactly when the value is < 0.7 |
| Grading.NotConfirmedWarning | App.tsx:757 | the "diagnosis not confirmed" warning; its meaning is stated by `Grading.WarningMatchesObstruction` |
| Grading.WarningMatchesObstruction | App.tsx:757-759 | the "diagnosis not confirmed" warning fires exactly when the obstruction line says "not compatible" |
| Grading.ObstructionThreshold | App.tsx:878-881 | a ratio of exactly 0.7 is not an obstruction, and an empty ratio shows no line |
| Groups.AbeGroup | App.tsx:472-477 | with known inputs: E iff ≥ 2 exacerbations or ≥ 1 hospitalisation; else B iff mMRC ≥ 2 or CAT ≥ 10; else A |
| Groups.AbeGroupMonotone | App.tsx:472-477 | raising any input never lowers the group (A < B < E) |
| Groups.CalculateGOLDGroup | App.tsx:462-478 | `calculateGOLDGroup`; its meaning is stated by `Groups.GroupUnknownIff` and `Groups.HistoryDominates`, with `Groups.AbeGroup` for the known case |
| Groups.GroupUnknownIff | App.tsx:463-470 | "Inconnu" exactly when mMRC, exacerbations or hospitalisations is empty or NaN, or the CAT total is null; otherwise the ABE group of the parsed values |
| Groups.HistoryDominates | App.tsx:472-474 | with known inputs the group is E exactly when the history qualifies, whatever mMRC and CAT are |
| Groups.AbeExamples | App.tsx:472-477 | concrete inputs on both sides of each threshold land in the expected group |
| Groups.LowHistoryWarning | App.tsx:760 | the "group E but low history" condition; its meaning is stated by `Groups.LowHistoryWarningNeverFires` |
| Groups.MmrcHighCatLow | App.tsx:763 | the "mMRC ≥ 2 but CAT < 10" condition; its meaning is stated by `Groups.DiscordanceWarnings` |
| Groups.MmrcLowCatHigh | App.tsx:766 | the "mMRC < 2 but CAT ≥ 10" condition; its meaning is stated by `Groups.DiscordanceWarnings` |
| Groups.LowHistoryWarningNeverFires | App.tsx:760-762 | the "group E but low history" warning can never fire |
| Groups.DiscordanceWarnings | App.tsx:763-768 | at most one mMRC/CAT discordance warning fires, and either one rules out group A |
| Treatment.GetInitialTreatment | App.tsx:710-737 | total over the groups: options empty exactly for an unknown group; primary and note never empty |
| Treatment.TreatmentIdentifiesGroup | App.tsx:710-737 | different groups get different primary recommendations |
| Treatment.TierOf | App.tsx:801-805 | strong iff ≥ 300, conditional iff 100..299, low iff < 100 |
| Treatment.EosinophilAdvisory | App.tsx:796-808 | the advisory shows exactly when the field parses (`parseInt`), with the tier of the parsed count |
| Treatment.TierBoundaries | App.tsx:801-805 | 300 and 100 belong to the upper tier |
| Treatment.AdvisoryOfNumber | App.tsx:740 | a typed count n gets the advisory of its tier |
| Treatment.ReportIcsMatchesAdvisory | App.tsx:918 | the report adds ICS exactly when the live advisory shows strong support |
| Treatment.ReportApproach | App.tsx:914-919 | the report's recommended-approach sentence; its meaning is stated by `Treatment.ReportApproachEosinophils`, `Treatment.ReportEIcsIffStrong` and `Treatment.ReportIcsMatchesAdvisory` |
| Treatment.ReportApproachEosinophils | App.tsx:916-919 | the report sentence depends on the count only through the ≥ 300 test |
| Treatment.ReportEIcsIffStrong | App.tsx:918 | for group E the "add ICS" sentence is chosen exactly at strong support |
| Validation.RatioWithinIff | App.tsx:221 | the ratio passes its range test exactly when it is a finite number in [0, 1] |
| Validation.Message | App.tsx:212-231 | every error message is non-empty |
| Validation.StepErrors | App.tsx:207-233 | the error map `validateCurrentStep` builds; its meaning is stated by `Validation.ErrorsOfKeys` and `Validation.ErrorsOfMessage`, and `Validation.BuildStepErrors` computes it |
| Validation.PatientInfoMap | App.tsx:211-217 | the patient-info error map is what its two `if` rules add in turn |
| Validation.DiagnosticMap | App.tsx:218-224 | the diagnostic error map is what its one rule adds |
| Validation.AssessmentMap | App.tsx:225-232 | the assessment error map is what its three rules add in turn |
| Validation.OtherStepsMap | App.tsx:210-233 | the treatment, exacerbation and follow-up steps produce an empty map |
| Validation.ErrorsOfOnlyStepKeys | App.tsx:210-233 | a step's map depends only on the checks of the keys that step validates |
| Validation.PatientInfoErrors | App.tsx:211-217 | the patient-info rules, run in order, build the declarative map of its failed checks |
| Validation.DiagnosticErrors | App.tsx:218-224 | the diagnostic rule builds the declarative map of its failed check |
| Validation.AssessmentErrors | App.tsx:225-232 | the three assessment rules, run in order, build the declarative map of their failed checks |
| Validation.BuildStepErrors | App.tsx:207-233 | for every step id, the switch builds that step's declarative error map |
| Validation.MessagesNonEmpty | App.tsx:191 | every stored message is non-empty, so `if (prev[field])` tests whether the key is present |
| Validation.ErrorsOfKeys | App.tsx:207-233 | a step reports a key exactly when the key belongs to the step and its check fails |
| Validation.ErrorsOfMessage | App.tsx:212-231 | each reported key carries the message of its failure: "required" when missing, the range message otherwise |
| Validation.NameCheckRule | App.tsx:212 | the name check fails exactly for a blank name |
| Validation.AgeCheckRule | App.tsx:213-216 | the age is "missing" exactly when blank; it fails exactly when blank or its `parseInt` is outside 18..120 |
| Validation.RatioCheckRule | App.tsx:219-223 | the ratio check fails exactly when `parseFloat` does not give a finite number in [0, 1] |
| Validation.Fev1CheckRule | App.tsx:226-229 | the FEV1 check fails exactly when `parseInt` does not give a number in 0..100 |
| Validation.NameRule | App.tsx:212 | patient-info reports the name exactly when it is blank |
| Validation.AgeRule | App.tsx:213-216 | patient-info reports the age exactly when it is blank or out of 18..120; a blank age gets "Âge requis" |
| Validation.AgeBounds | App.tsx:214 | a typed age n is rejected exactly when n < 18 or n > 120 (both ends inclusive) |
| Validation.DiagnosticRule | App.tsx:219-223 | diagnostic reports the ratio exactly when it does not parse to a number in [0, 1] |
| Validation.BlankRatioCheck | App.tsx:219-222 | a ratio of blanks is truthy, so it is out of range rather than missing |
| Validation.BlankRatioIsOutOfRange | App.tsx:219-222 | a ratio of blanks is reported with the range message, not the "required" one |
| Validation.Fev1Rule | App.tsx:226-229 | assessment reports FEV1 exactly when its `parseInt` is NaN or outside 0..100 |
| Validation.MmrcRule | App.tsx:230 | assessment reports mMRC exactly when it is "" |
| Validation.MmrcGradeAccepted | types.ts:24 | an mMRC grade "0".."4" is accepted and parses to itself |
| Validation.CatRule | App.tsx:231 | assessment reports `catScore` exactly when the CAT total is null |
| Wizard.FindIndex | App.tsx:1020 | `findIndex`: the first position holding the id, or -1 exactly when the id is absent |
| Wizard.StepIndex | App.tsx:1020 | `currentStepIndex` lies in -1..5; it is -1 exactly for an id outside the step list, and otherwise names a position holding that id |
| Wizard.StepsDistinct | App.tsx:1011-1018 | six steps with pairwise different ids |
| Wizard.StepIndexRoundTrip | App.tsx:1020 | each step id is found at its own position |
| Wizard.InitialRecordBlank | App.tsx:9-46 | `initialPatientData` holds "" in every text, false in every box and [] in every list, so the CAT total is null, the group is "Inconnu" and the patient-info step reports both its fields |
| Wizard.PatientInfoReady | App.tsx:1024-1026 | `canProceedToNext` on 'patient-info'; its meaning is stated by `Wizard.PatientInfoValidIsReady`, `Wizard.StoredMessageBlocks` and `Wizard.BlankFieldBlocks` |
| Wizard.DiagnosticReady | App.tsx:1027-1029 | `canProceedToNext` on 'diagnostic'; its meaning is stated by `Wizard.DiagnosticValidIsReady`, `Wizard.StoredMessageBlocks` and `Wizard.BlankFieldBlocks` |
| Wizard.AssessmentReady | App.tsx:1030-1032 | `canProceedToNext` on 'assessment'; its meaning is stated by `Wizard.AssessmentValidIsReady`, `Wizard.StoredMessageBlocks` and `Wizard.BlankFieldBlocks` |
| Wizard.CanProceed | App.tsx:1023-1034 | `canProceedToNext`; its meaning is stated by `Wizard.ValidatedStepIsReady`, `Wizard.OtherStepsProceed`, `Wizard.StoredMessageBlocks` and `Wizard.BlankFieldBlocks` |
| Wizard.StoredMessageBlocks | App.tsx:1023-1032 | a stored message for any key a validated step checks blocks `canProceedToNext` |
| Wizard.BlankFieldBlocks | App.tsx:1023-1032 | on a validated step, a blank required text, an empty mMRC grade or a null CAT total blocks `canProceedToNext`, whatever the stored messages |
| Wizard.NoErrorsAllAccepted | App.tsx:236 | an empty error map means every check of the step passed |
| Wizard.AssessmentPasses | App.tsx:225-232 | an empty assessment map means FEV1, mMRC and CAT all passed |
| Wizard.PatientInfoValidIsReady | App.tsx:1024-1026 | a validated patient-info step passes `canProceedToNext` once its empty map is stored |
| Wizard.DiagnosticValidIsReady | App.tsx:1027-1029 | a validated diagnostic step passes `canProceedToNext` (an accepted ratio is not blank after trim) |
| Wizard.AssessmentValidIsReady | App.tsx:1030-1032 | a validated assessment step passes `canProceedToNext` |
| Wizard.OtherStepsProceed | App.tsx:1033 | on the unvalidated steps `canProceedToNext` holds exactly when the step is not the last |
| Wizard.ValidatedStepIsReady | App.tsx:1023-1034 | a validated step is ready to proceed once validation's empty map is stored |
| Wizard.UnusedFieldsIgnored | types.ts:8-42 | gender, current treatment and comorbidities change neither validation, the CAT total, the group nor `canProceedToNext` |
| Wizard.CatScoresOf | App.tsx:513-522 | `currentCATData` holds the record's eight CAT answers |
| Wizard.MergeCat | App.tsx:499-502 | after the merge the record's CAT answers are the submitted ones |
| Wizard.MergeCatFrame | App.tsx:499-502 | the merge changes no field outside the eight CAT answers |
| Wizard.MergeOwnScores | App.tsx:499-502 | submitting the record's own answers leaves it unchanged |
| Wizard.MergedCatTexts | App.tsx:499-502 | the texts the CAT total reads after a merge are the submitted answers |
| Wizard.AllFilled | App.tsx:504 | the `allFilled` test; its meaning is stated by `Wizard.AllFilledIff` |
| Wizard.AllFilledIff | App.tsx:504 | "every value non-empty", checked over the questionnaire's items, means that no item is empty |
| Wizard.RadioSubmissionTotal | App.tsx:112-119 | after submitting radio answers for all eight items, the total is known and lies in 0..40 |
| Wizard.RadioSubmissionClearsCatRule | App.tsx:231 | after such a submission the assessment step no longer reports `catScore` |
| StepViews.DisplayOf | App.tsx:443-808 | the intended views of a record: the badge shows exactly when FEV1 parses, the obstruction line exactly when the ratio is not NaN, the group is "Inconnu" exactly when an input is NaN or the CAT total is null, the advisory shows exactly when the count parses, the low-history warning never fires, and the dialog opens on the record's CAT answers |
| StepViews.DisplayAsWritten | App.tsx:1011-1021 | the views the code renders, whatever the record: no badge, no obstruction line, group "Inconnu", no advisory, no warning, and a dialog of eight empty answers |
| StepViews.StaleBadge | App.tsx:1011-1021 | with "45" typed into FEV1, the intended badge is GOLD 3 and the rendered one is absent |
| StepViews.BadgeFollowsTyping | App.tsx:560-571 | in the intended views, typing a number n into FEV1 makes the badge show the grade of n |
| Wizard.CatModal.constructor | App.tsx:57 | the dialog starts closed, holding the initial answers |
| Wizard.CatModal.Open | App.tsx:59-64 | opening resets the answers being edited to the record's |
| Wizard.CatModal.ScoreChange | App.tsx:66-68 | one answer changes to the chosen value; the others and the open state stay |
| Wizard.CatModal.HandleSubmit | App.tsx:70-82 | the answers are handed on exactly when all eight are non-empty, and unchanged |
| Wizard.CatModal.Close | App.tsx:495 | closing only lowers the open flag; the answers are not read again until `Open` resets them |
| Wizard.Wizard.constructor | App.tsx:153-160 | first step, the all-empty record, no errors, no report |
| Wizard.Wizard.Index | App.tsx:1020 | the current step index lies in 0..5 and names the current step |
| Wizard.Wizard.HandleInputChange | App.tsx:185-187 | the record becomes the record with field f set; errors, step and report flag unchanged |
| Wizard.Wizard.ClearValidationError | App.tsx:189-198 | exactly key k is removed from the errors (nothing changes if it was absent) |
| Wizard.Wizard.HandleFieldChange | App.tsx:200-205 | the field is set and only that field's message is removed |
| Wizard.Wizard.ValidateCurrentStep | App.tsx:207-237 | the step's error map replaces the stored one, and the result is true exactly when it is empty |
| Wizard.Wizard.HandleNext | App.tsx:1036-1046 | stores the step's errors; moves to step min(5, i+1) exactly when validation passed and `canProceedToNext` held at the click, else stays |
| Wizard.Wizard.HandlePrevious | App.tsx:1048-1053 | moves to step max(0, i-1) with no validation; nothing else changes |
| Wizard.Wizard.JumpTo | App.tsx:1089-1094 | moves to any step id unconditionally; nothing else changes |
| Wizard.Wizard.RequestReport | App.tsx:1132-1137 | from the third step on: validates, and opens the report exactly when validation passed |
| Wizard.Wizard.PreviousDisabled | App.tsx:1125 | Previous is disabled exactly on the first step |
| Wizard.Wizard.NextDisabled | App.tsx:1149 | Next is disabled exactly on the last step or when `canProceedToNext` fails; when enabled, a next step exists |
| Wizard.Wizard.NextLabel | App.tsx:1152 | the button reads "Terminer" exactly on the last step |
| Wizard.Wizard.OpenCatDialog | App.tsx:494 | the dialog opens on the record's current answers |
| Wizard.Wizard.HandleSubmitCATScores | App.tsx:497-510 | the answers are merged into the record; `catScore` is cleared exactly when every submitted answer is non-empty |
| Wizard.Wizard.SubmitCatDialog | App.tsx:76-78 | with every answer filled in, the answers are merged, `catScore` is cleared and the dialog closes; otherwise nothing changes |

## Findings

| source | as written | input that shows it | evidently intended | confidence | as-written member | corrected member |
|---|---|---|---|---|---|---|
| App.tsx:1011-1018 | The step list is memoised once with no dependencies. The step components rendered are therefore those of the first render, and their closures read `initialPatientData` and a null CAT total. | type "45" into FEV1 % predicted: no grade badge appears | the step views show the record being edited: badge GOLD 3 | not executed | StepViews.DisplayAsWritten, with StepViews.StaleBadge | StepViews.DisplayOf, with StepViews.BadgeFollowsTyping |

## Left out

- Rendering: the JSX, styling, icons, the French explanatory texts of the steps, the `ExpandableSection` toggling (App.tsx:239-273) and the summary aside (App.tsx:1157-1172).
- React scheduling: `useTransition`, `isPending`, `useDeferredValue` and memoisation, apart from the step list's (see "## Findings"). `deferredPatientData` is taken to be `patientData`, and every handler runs to completion before the next event. The buttons' `isPending` disabling (App.tsx:1102, 1125, 1139, 1149) is therefore not modelled.
- Browser side effects: `window.scrollTo`, `window.print`, the report's `Date` call, and the `alert` the dialog shows when an answer is missing.
- Wizard.CatModal.HandleSubmit: the missing-answer path returns no answers and leaves the dialog as it is; the `alert` message itself is not modelled.
- JsText.ParseFloat: IEEE-754 rounding is not modelled. A finite result is the exact decimal value as a real number; only its comparisons with 0, 0.7 and 1 are used.
- JsText.ParseInt: JavaScript's conversion of large values to doubles is not modelled. The result is an unbounded integer.
- Grading.GradeBadge, Grading.ObstructionFlag, Grading.NotConfirmedWarning, Groups.LowHistoryWarning, Groups.MmrcHighCatLow, Groups.MmrcLowCatHigh, Treatment.GetInitialTreatment, Treatment.EosinophilAdvisory, Wizard.CatScoresOf, Wizard.Wizard.OpenCatDialog: these are fed the current record here. The code as written feeds the step views the first render's state (App.tsx:1011-1018). `StepViews.DisplayAsWritten` covers that behaviour, and the Findings table records the discrepancy. The form inputs' stale displayed values are likewise not modelled.
- Wizard.CatModal.Close: the page unmounts the dialog when it closes (App.tsx:694-696), and the next opening mounts it afresh on the record's answers. The model keeps one dialog object whose stale answers stay until `Open` replaces them; nothing reads them in between.
- Wizard.Wizard.JumpTo: the progress-bar buttons pass only ids from the step list, so the method requires a listed id.
- The step titles and icons of the step list, and the static texts of the exacerbation and follow-up steps.
- `index.tsx` (DOM bootstrapping) is not part of this model.
