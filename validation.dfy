/**
 * The per-step validation rules of the wizard: which fields each step
 * requires, which ranges it enforces, and the error map it produces.
 */
module Validation {
  import opened Wrappers
  import opened JsText
  import opened Types

  const PatientInfoStep: string := "patient-info"
  const DiagnosticStep: string := "diagnostic"
  const AssessmentStep: string := "assessment"

  const NameRequired: string := "Nom requis"
  const AgeRequired: string := "Âge requis"
  const AgeRange: string := "Âge doit être entre 18 et 120"
  const RatioRequired: string := "VEMS/CVF post-bronchodilatateur requis pour le diagnostic"
  const RatioRange: string := "VEMS/CVF doit être entre 0 et 1"
  const Fev1Required: string := "VEMS % prédit requis"
  const Fev1Range: string := "VEMS % prédit doit être entre 0 et 100"
  const MmrcRequired: string := "Score mMRC requis"
  const CatIncomplete: string := "Score CAT incomplet. Veuillez répondre à toutes les questions dans la fenêtre dédiée."

  /** `!(isNaN(v) || v < lo || v > hi)` for a parseInt result. */
  predicate IntWithin(v: Option<int>, lo: int, hi: int) {
    v.Some? && lo <= v.value <= hi
  }

  /** `!(isNaN(v) || v < 0 || v > 1)` for a parseFloat result. */
  predicate RatioWithin(v: Number) {
    v != NaN && !Less(v, 0.0) && !Greater(v, 1.0)
  }

  /** The ratio passes its range check exactly when it is a finite number in [0, 1]. */
  lemma RatioWithinIff(v: Number)
    ensures RatioWithin(v) <==> v.Finite? && 0.0 <= v.value <= 1.0
  {
  }

  /** The keys any step can report. */
  const ValidatedKeys: set<ErrorKey> :=
    {FieldKey(PatientName), FieldKey(PatientAge), FieldKey(PostBronchodilatorFEV1FVC),
     FieldKey(Fev1Predicted), FieldKey(MmrcScore), CatScoreKey}

  /** The outcome of checking one field: accepted, missing or out of range. */
  datatype FieldCheck = Accepted | Missing | OutOfRange

  /** The outcome of every check a step can make, computed once from the record. */
  datatype Checks = Checks(
    name: FieldCheck, age: FieldCheck, ratio: FieldCheck,
    fev1: FieldCheck, mmrc: FieldCheck, cat: FieldCheck)

  /** `!name.trim()`. */
  function NameCheck(name: string): FieldCheck {
    if Trim(name) == "" then Missing else Accepted
  }

  /** `!age.trim()`, else a parseInt that is NaN or outside 18..120. */
  function AgeCheck(age: string): FieldCheck {
    if Trim(age) == "" then Missing
    else if !IntWithin(ParseInt(age), 18, 120) then OutOfRange
    else Accepted
  }

  /** `!ratio`, else a parseFloat that is NaN or outside [0, 1]. */
  function RatioCheck(ratio: string): FieldCheck {
    if !Truthy(ratio) then Missing
    else if !RatioWithin(ParseFloat(ratio)) then OutOfRange
    else Accepted
  }

  /** `!fev1`, else a parseInt that is NaN or outside 0..100. */
  function Fev1Check(fev1: string): FieldCheck {
    if !Truthy(fev1) then Missing
    else if !IntWithin(ParseInt(fev1), 0, 100) then OutOfRange
    else Accepted
  }

  /** `!mmrc`. */
  function MmrcCheck(mmrc: string): FieldCheck {
    if !Truthy(mmrc) then Missing else Accepted
  }

  /** `calculateCATScore === null`. */
  function CatCheck(cat: Option<int>): FieldCheck {
    if cat.None? then Missing else Accepted
  }

  /** Every check of a record, given its CAT total. */
  function ChecksOf(d: PatientData, cat: Option<int>): Checks {
    Checks(
      NameCheck(d.patientName), AgeCheck(d.patientAge),
      RatioCheck(d.postBronchodilatorFEV1FVC), Fev1Check(d.fev1Predicted),
      MmrcCheck(d.mmrcScore), CatCheck(cat))
  }

  /** The check behind key `k`; keys no step validates are always accepted. */
  function CheckFor(c: Checks, k: ErrorKey): FieldCheck {
    if k == FieldKey(PatientName) then c.name
    else if k == FieldKey(PatientAge) then c.age
    else if k == FieldKey(PostBronchodilatorFEV1FVC) then c.ratio
    else if k == FieldKey(Fev1Predicted) then c.fev1
    else if k == FieldKey(MmrcScore) then c.mmrc
    else if k == CatScoreKey then c.cat
    else Accepted
  }

  /** The keys each step validates. */
  function StepKeys(step: string): set<ErrorKey> {
    if step == PatientInfoStep then {FieldKey(PatientName), FieldKey(PatientAge)}
    else if step == DiagnosticStep then {FieldKey(PostBronchodilatorFEV1FVC)}
    else if step == AssessmentStep then {FieldKey(Fev1Predicted), FieldKey(MmrcScore), CatScoreKey}
    else {}
  }

  /** The message for a failing key: "required" when missing, "out of range" otherwise. */
  function Message(k: ErrorKey, f: FieldCheck): (m: string)
    ensures m != ""
  {
    if k == FieldKey(PatientName) then NameRequired
    else if k == FieldKey(PatientAge) then (if f == Missing then AgeRequired else AgeRange)
    else if k == FieldKey(PostBronchodilatorFEV1FVC) then (if f == Missing then RatioRequired else RatioRange)
    else if k == FieldKey(Fev1Predicted) then (if f == Missing then Fev1Required else Fev1Range)
    else if k == FieldKey(MmrcScore) then MmrcRequired
    else CatIncomplete
  }

  /** The error map of a step, stated declaratively: one entry per key the
      step validates whose check failed, carrying that failure's message. */
  function ErrorsOf(step: string, c: Checks): ValidationErrors {
    map k | k in StepKeys(step) && CheckFor(c, k) != Accepted :: Message(k, CheckFor(c, k))
  }

  /** The error map validateCurrentStep computes for a step, a record and its CAT total. */
  function StepErrors(step: string, d: PatientData, cat: Option<int>): ValidationErrors {
    ErrorsOf(step, ChecksOf(d, cat))
  }

  /** One `if (...) errors.k = message` of validateCurrentStep. */
  function Put(m: ValidationErrors, k: ErrorKey, f: FieldCheck): ValidationErrors {
    if f == Accepted then m else m[k := Message(k, f)]
  }

  /** The patient-info error map is what its two rules add in turn. */
  lemma PatientInfoMap(c: Checks)
    ensures ErrorsOf(PatientInfoStep, c) ==
      Put(Put(map[], FieldKey(PatientName), c.name), FieldKey(PatientAge), c.age)
  {
    var m := ErrorsOf(PatientInfoStep, c);
    var r := Put(Put(map[], FieldKey(PatientName), c.name), FieldKey(PatientAge), c.age);
    forall k ensures k in m <==> k in r {}
    forall k | k in m ensures m[k] == r[k] {}
  }

  /** The diagnostic error map is what its one rule adds. */
  lemma DiagnosticMap(c: Checks)
    ensures ErrorsOf(DiagnosticStep, c) == Put(map[], FieldKey(PostBronchodilatorFEV1FVC), c.ratio)
  {
    var m := ErrorsOf(DiagnosticStep, c);
    var r := Put(map[], FieldKey(PostBronchodilatorFEV1FVC), c.ratio);
    forall k ensures k in m <==> k in r {}
    forall k | k in m ensures m[k] == r[k] {}
  }

  /** The assessment error map is what its three rules add in turn. */
  lemma AssessmentMap(c: Checks)
    ensures ErrorsOf(AssessmentStep, c) ==
      Put(Put(Put(map[], FieldKey(Fev1Predicted), c.fev1), FieldKey(MmrcScore), c.mmrc), CatScoreKey, c.cat)
  {
    var m := ErrorsOf(AssessmentStep, c);
    var r1 := Put(map[], FieldKey(Fev1Predicted), c.fev1);
    var r2 := Put(r1, FieldKey(MmrcScore), c.mmrc);
    var r := Put(r2, CatScoreKey, c.cat);
    forall k ensures k in m <==> k in r && (k in m ==> m[k] == r[k]) {
      if k == CatScoreKey {
      } else if k == FieldKey(MmrcScore) {
        assert k in r <==> k in r2;
      } else {
        assert k in r <==> k in r1;
      }
    }
  }

  /** The remaining steps validate nothing. */
  lemma OtherStepsMap(step: string, c: Checks)
    requires step != PatientInfoStep && step != DiagnosticStep && step != AssessmentStep
    ensures ErrorsOf(step, c) == map[]
  {
  }

  /** A step's error map depends only on the checks of the keys it validates. */
  lemma ErrorsOfOnlyStepKeys(step: string, c: Checks, c': Checks)
    requires forall k :: k in StepKeys(step) ==> CheckFor(c, k) == CheckFor(c', k)
    ensures ErrorsOf(step, c) == ErrorsOf(step, c')
  {
  }

  /** The 'patient-info' case of validateCurrentStep. */
  method PatientInfoErrors(d: PatientData) returns (errors: ValidationErrors)
    ensures errors == ErrorsOf(PatientInfoStep,
      Checks(NameCheck(d.patientName), AgeCheck(d.patientAge), Accepted, Accepted, Accepted, Accepted))
  {
    errors := map[];
    if Trim(d.patientName) == "" {
      errors := errors[FieldKey(PatientName) := NameRequired];
    }
    assert errors == Put(map[], FieldKey(PatientName), NameCheck(d.patientName));
    var age := ParseInt(d.patientAge);
    if Trim(d.patientAge) == "" {
      errors := errors[FieldKey(PatientAge) := AgeRequired];
    } else if age.None? || age.value < 18 || age.value > 120 {
      errors := errors[FieldKey(PatientAge) := AgeRange];
    }
    PatientInfoMap(Checks(NameCheck(d.patientName), AgeCheck(d.patientAge), Accepted, Accepted, Accepted, Accepted));
  }

  /** The 'diagnostic' case of validateCurrentStep. */
  method DiagnosticErrors(d: PatientData) returns (errors: ValidationErrors)
    ensures errors == ErrorsOf(DiagnosticStep,
      Checks(Accepted, Accepted, RatioCheck(d.postBronchodilatorFEV1FVC), Accepted, Accepted, Accepted))
  {
    errors := map[];
    var ratio := ParseFloat(d.postBronchodilatorFEV1FVC);
    if !Truthy(d.postBronchodilatorFEV1FVC) {
      errors := errors[FieldKey(PostBronchodilatorFEV1FVC) := RatioRequired];
    } else if ratio == NaN || Less(ratio, 0.0) || Greater(ratio, 1.0) {
      errors := errors[FieldKey(PostBronchodilatorFEV1FVC) := RatioRange];
    }
    DiagnosticMap(Checks(Accepted, Accepted, RatioCheck(d.postBronchodilatorFEV1FVC), Accepted, Accepted, Accepted));
  }

  /** The 'assessment' case of validateCurrentStep. */
  method AssessmentErrors(d: PatientData, cat: Option<int>) returns (errors: ValidationErrors)
    ensures errors == ErrorsOf(AssessmentStep,
      Checks(Accepted, Accepted, Accepted, Fev1Check(d.fev1Predicted), MmrcCheck(d.mmrcScore), CatCheck(cat)))
  {
    errors := map[];
    var fev1 := ParseInt(d.fev1Predicted);
    if !Truthy(d.fev1Predicted) {
      errors := errors[FieldKey(Fev1Predicted) := Fev1Required];
    } else if fev1.None? || fev1.value < 0 || fev1.value > 100 {
      errors := errors[FieldKey(Fev1Predicted) := Fev1Range];
    }
    assert errors == Put(map[], FieldKey(Fev1Predicted), Fev1Check(d.fev1Predicted));
    if !Truthy(d.mmrcScore) {
      errors := errors[FieldKey(MmrcScore) := MmrcRequired];
    }
    assert errors == Put(Put(map[], FieldKey(Fev1Predicted), Fev1Check(d.fev1Predicted)), FieldKey(MmrcScore), MmrcCheck(d.mmrcScore));
    if cat.None? {
      errors := errors[CatScoreKey := CatIncomplete];
    }
    AssessmentMap(Checks(Accepted, Accepted, Accepted, Fev1Check(d.fev1Predicted), MmrcCheck(d.mmrcScore), CatCheck(cat)));
  }

  /**
   * validateCurrentStep's construction of its error map: switch on the
   * step and add the entry of each failing rule of that step, in order.
   */
  method BuildStepErrors(step: string, d: PatientData, cat: Option<int>) returns (errors: ValidationErrors)
    ensures errors == StepErrors(step, d, cat)
  {
    ghost var c := ChecksOf(d, cat);
    if step == PatientInfoStep {
      errors := PatientInfoErrors(d);
      ErrorsOfOnlyStepKeys(step, c, Checks(c.name, c.age, Accepted, Accepted, Accepted, Accepted));
    } else if step == DiagnosticStep {
      errors := DiagnosticErrors(d);
      ErrorsOfOnlyStepKeys(step, c, Checks(Accepted, Accepted, c.ratio, Accepted, Accepted, Accepted));
    } else if step == AssessmentStep {
      errors := AssessmentErrors(d, cat);
      ErrorsOfOnlyStepKeys(step, c, Checks(Accepted, Accepted, Accepted, c.fev1, c.mmrc, c.cat));
    } else {
      errors := map[];
      OtherStepsMap(step, c);
    }
  }

  /** Every message in an error map is non-empty, so `if (errors[k])` is `k in errors`. */
  lemma MessagesNonEmpty(step: string, c: Checks)
    ensures forall k :: k in ErrorsOf(step, c) ==> ErrorsOf(step, c)[k] != ""
  {
  }

  /** A step reports only keys it validates, and reports each of them exactly
      when its check fails. */
  lemma ErrorsOfKeys(step: string, c: Checks, k: ErrorKey)
    ensures k in ErrorsOf(step, c) <==> k in StepKeys(step) && CheckFor(c, k) != Accepted
  {
  }

  /** The name check fails exactly for a blank name. */
  lemma NameCheckRule(name: string)
    ensures NameCheck(name) != Accepted <==> AllWhitespace(name)
  {
    TrimEmptyIff(name);
  }

  /** The age check: missing when blank, else out of range unless its parseInt lies in 18..120. */
  lemma AgeCheckRule(age: string)
    ensures AgeCheck(age) == Missing <==> AllWhitespace(age)
    ensures AgeCheck(age) != Accepted <==> AllWhitespace(age) || !IntWithin(ParseInt(age), 18, 120)
  {
    TrimEmptyIff(age);
  }

  /** The ratio check fails unless parseFloat gives a finite number in [0, 1]. */
  lemma RatioCheckRule(ratio: string)
    ensures RatioCheck(ratio) != Accepted <==> !(ParseFloat(ratio).Finite? && 0.0 <= ParseFloat(ratio).value <= 1.0)
  {
    FloatParsedIsTruthy(ratio);
  }

  /** The FEV1 check fails unless parseInt gives a number in 0..100. */
  lemma Fev1CheckRule(fev1: string)
    ensures Fev1Check(fev1) != Accepted <==> !IntWithin(ParseInt(fev1), 0, 100)
  {
    IntParsedIsTruthy(fev1);
  }

  /** Patient info: the name is required and must not be blank. */
  lemma NameRule(d: PatientData, cat: Option<int>)
    ensures FieldKey(PatientName) in StepErrors(PatientInfoStep, d, cat) <==> AllWhitespace(d.patientName)
  {
    ErrorsOfKeys(PatientInfoStep, ChecksOf(d, cat), FieldKey(PatientName));
    NameCheckRule(d.patientName);
  }

  /** Patient info: the age is required, must not be blank, and its parseInt
      must lie in 18..120; a blank age gets the "required" message. */
  lemma AgeRule(d: PatientData, cat: Option<int>)
    ensures FieldKey(PatientAge) in StepErrors(PatientInfoStep, d, cat) <==>
      AllWhitespace(d.patientAge) || !IntWithin(ParseInt(d.patientAge), 18, 120)
    ensures AllWhitespace(d.patientAge) ==> StepErrors(PatientInfoStep, d, cat)[FieldKey(PatientAge)] == AgeRequired
  {
    ErrorsOfKeys(PatientInfoStep, ChecksOf(d, cat), FieldKey(PatientAge));
    AgeCheckRule(d.patientAge);
  }

  /** The age bounds are inclusive: a typed age n is accepted exactly when
      18 <= n <= 120, so 17 and 121 fail and 18 and 120 pass. */
  lemma AgeBounds(d: PatientData, cat: Option<int>, n: nat)
    requires d.patientAge == DecimalString(n)
    ensures FieldKey(PatientAge) in StepErrors(PatientInfoStep, d, cat) <==> n < 18 || n > 120
  {
    AgeRule(d, cat);
    ParseIntDecimalString(n);
    IntParsedIsTruthy(d.patientAge);
    TrimEmptyIff(d.patientAge);
  }

  /** Diagnostic: the ratio is required (as JavaScript truthiness, so only ""
      counts as missing) and must parse to a number in [0, 1]. */
  lemma DiagnosticRule(d: PatientData, cat: Option<int>)
    ensures FieldKey(PostBronchodilatorFEV1FVC) in StepErrors(DiagnosticStep, d, cat) <==>
      !(ParseFloat(d.postBronchodilatorFEV1FVC).Finite? && 0.0 <= ParseFloat(d.postBronchodilatorFEV1FVC).value <= 1.0)
  {
    ErrorsOfKeys(DiagnosticStep, ChecksOf(d, cat), FieldKey(PostBronchodilatorFEV1FVC));
    RatioCheckRule(d.postBronchodilatorFEV1FVC);
  }

  /** A step reports the message of the failed check for each key it reports. */
  lemma ErrorsOfMessage(step: string, c: Checks, k: ErrorKey)
    requires k in ErrorsOf(step, c)
    ensures ErrorsOf(step, c)[k] == Message(k, CheckFor(c, k))
  {
  }

  /** A ratio of blanks is truthy, so not "missing", but does not parse. */
  lemma BlankRatioCheck(r: string)
    requires r != "" && AllWhitespace(r)
    ensures RatioCheck(r) == OutOfRange
  {
    TrimEmptyIff(r);
    FloatParsedIsTruthy(r);
  }

  /** A ratio of blanks passes the "required" test (it is truthy) but not the
      range test: it gets the out-of-range message, not the required one. */
  lemma BlankRatioIsOutOfRange(d: PatientData, cat: Option<int>)
    requires d.postBronchodilatorFEV1FVC != "" && AllWhitespace(d.postBronchodilatorFEV1FVC)
    ensures FieldKey(PostBronchodilatorFEV1FVC) in StepErrors(DiagnosticStep, d, cat)
    ensures StepErrors(DiagnosticStep, d, cat)[FieldKey(PostBronchodilatorFEV1FVC)] == RatioRange
  {
    BlankRatioCheck(d.postBronchodilatorFEV1FVC);
    ErrorsOfKeys(DiagnosticStep, ChecksOf(d, cat), FieldKey(PostBronchodilatorFEV1FVC));
    ErrorsOfMessage(DiagnosticStep, ChecksOf(d, cat), FieldKey(PostBronchodilatorFEV1FVC));
  }

  /** Assessment: FEV1 % predicted is required and its parseInt must lie in 0..100. */
  lemma Fev1Rule(d: PatientData, cat: Option<int>)
    ensures FieldKey(Fev1Predicted) in StepErrors(AssessmentStep, d, cat) <==> !IntWithin(ParseInt(d.fev1Predicted), 0, 100)
  {
    ErrorsOfKeys(AssessmentStep, ChecksOf(d, cat), FieldKey(Fev1Predicted));
    Fev1CheckRule(d.fev1Predicted);
  }

  /** Assessment: an mMRC grade is required (only "" counts as missing). */
  lemma MmrcRule(d: PatientData, cat: Option<int>)
    ensures FieldKey(MmrcScore) in StepErrors(AssessmentStep, d, cat) <==> d.mmrcScore == ""
  {
    ErrorsOfKeys(AssessmentStep, ChecksOf(d, cat), FieldKey(MmrcScore));
  }

  /** An mMRC grade chosen on the scale, "0" to "4", is accepted and parses to itself. */
  lemma MmrcGradeAccepted(n: nat)
    requires n <= 4
    ensures MmrcCheck(DecimalString(n)) == Accepted
    ensures ParseInt(DecimalString(n)) == Some(n)
  {
    ParseIntDecimalString(n);
  }

  /** Assessment: the synthetic `catScore` key is set exactly when the CAT total is null. */
  lemma CatRule(d: PatientData, cat: Option<int>)
    ensures CatScoreKey in StepErrors(AssessmentStep, d, cat) <==> cat.None?
  {
    ErrorsOfKeys(AssessmentStep, ChecksOf(d, cat), CatScoreKey);
  }
}
