/**
 * The six-step wizard: its state (record, validation errors, current step,
 * report flag), field edits, step validation, navigation, the report
 * button, and the CAT questionnaire dialog whose answers are merged back
 * into the record.
 */
module Wizard {
  import opened Wrappers
  import opened JsText
  import opened Types
  import opened CatScore
  import opened Validation
  import opened Groups

  const TreatmentStep: string := "treatment"
  const ExacerbationStep: string := "exacerbation"
  const FollowUpStep: string := "followup"

  /** The step ids, in wizard order. */
  const Steps: seq<string> :=
    [PatientInfoStep, DiagnosticStep, AssessmentStep, TreatmentStep, ExacerbationStep, FollowUpStep]

  const LastIndex: nat := 5

  const NextLabelLast: string := "Terminer"
  const NextLabelOther: string := "Suivant"

  /** The record the wizard starts from: every text "", every box unchecked, every list empty. */
  const InitialPatientData: PatientData := PatientData(
    "", "", "",
    false, false, false, false,
    false, false, false, false,
    "", "", "",
    "",
    "", "", "", "", "", "", "", "",
    "", "",
    "",
    [], [])

  /** `ids.findIndex(id2 => id2 === id)`: the first position holding `id`, or -1. */
  function FindIndex(ids: seq<string>, id: string): (i: int)
    ensures -1 <= i < |ids|
    ensures i >= 0 ==> ids[i] == id && forall j :: 0 <= j < i ==> ids[j] != id
    ensures i == -1 <==> id !in ids
  {
    if ids == [] then -1
    else if ids[0] == id then 0
    else
      var r := FindIndex(ids[1..], id);
      if r == -1 then -1 else r + 1
  }

  /** `currentStepIndex`: the position of `id` in the step list, -1 for an unknown id. */
  function StepIndex(id: string): (i: int)
    ensures -1 <= i <= LastIndex
    ensures i >= 0 ==> Steps[i] == id
    ensures i == -1 <==> id !in Steps
  {
    FindIndex(Steps, id)
  }

  /** The six step ids are pairwise different. */
  lemma StepsDistinct()
    ensures |Steps| == LastIndex + 1
    ensures forall i, j :: 0 <= i < j < |Steps| ==> Steps[i] != Steps[j]
  {
    assert Steps[0][0] == 'p' && Steps[1][0] == 'd' && Steps[2][0] == 'a';
    assert Steps[3][0] == 't' && Steps[4][0] == 'e' && Steps[5][0] == 'f';
  }

  /** findIndex and indexing are inverse on the step list: each step id is found at its own position. */
  lemma StepIndexRoundTrip(i: nat)
    requires i < |Steps|
    ensures StepIndex(Steps[i]) == i
  {
    StepsDistinct();
    var k := StepIndex(Steps[i]);
    assert Steps[i] in Steps;
    assert Steps[k] == Steps[i];
  }

  /** `!errors[k]` is false: the map holds a truthy message for `k`. */
  predicate HasError(errors: ValidationErrors, k: ErrorKey) {
    k in errors && Truthy(errors[k])
  }

  /** canProceedToNext on 'patient-info': name and age not blank, and no message for either. */
  predicate PatientInfoReady(d: PatientData, errors: ValidationErrors) {
    Trim(d.patientName) != "" && Trim(d.patientAge) != ""
    && !HasError(errors, FieldKey(PatientName)) && !HasError(errors, FieldKey(PatientAge))
  }

  /** canProceedToNext on 'diagnostic': the ratio not blank, and no message for it. */
  predicate DiagnosticReady(d: PatientData, errors: ValidationErrors) {
    Trim(d.postBronchodilatorFEV1FVC) != "" && !HasError(errors, FieldKey(PostBronchodilatorFEV1FVC))
  }

  /** canProceedToNext on 'assessment': FEV1 not blank, an mMRC grade, a known
      CAT total, and no message for any of the three. */
  predicate AssessmentReady(d: PatientData, cat: Option<int>, errors: ValidationErrors) {
    Trim(d.fev1Predicted) != "" && d.mmrcScore != "" && cat.Some?
    && !HasError(errors, FieldKey(Fev1Predicted)) && !HasError(errors, FieldKey(MmrcScore))
    && !HasError(errors, CatScoreKey)
  }

  /** canProceedToNext: the readiness test of a validated step; on any other
      step, that the step is not the last one. */
  predicate CanProceed(step: string, d: PatientData, cat: Option<int>, errors: ValidationErrors) {
    if step == PatientInfoStep then PatientInfoReady(d, errors)
    else if step == DiagnosticStep then DiagnosticReady(d, errors)
    else if step == AssessmentStep then AssessmentReady(d, cat, errors)
    else StepIndex(step) < LastIndex
  }

  /** A stored message for one of a validated step's keys blocks canProceedToNext. */
  lemma StoredMessageBlocks(step: string, d: PatientData, cat: Option<int>, errors: ValidationErrors, k: ErrorKey)
    requires k in StepKeys(step) && HasError(errors, k)
    ensures !CanProceed(step, d, cat, errors)
  {
  }

  /** A validated step needs its required texts: a blank name, age, ratio or
      FEV1, an empty mMRC grade or a null CAT total blocks canProceedToNext,
      whatever the stored messages. */
  lemma BlankFieldBlocks(step: string, d: PatientData, cat: Option<int>, errors: ValidationErrors)
    requires step == PatientInfoStep ==> AllWhitespace(d.patientName) || AllWhitespace(d.patientAge)
    requires step == DiagnosticStep ==> AllWhitespace(d.postBronchodilatorFEV1FVC)
    requires step == AssessmentStep ==> AllWhitespace(d.fev1Predicted) || d.mmrcScore == "" || cat.None?
    requires step == PatientInfoStep || step == DiagnosticStep || step == AssessmentStep
    ensures !CanProceed(step, d, cat, errors)
  {
    TrimEmptyIff(d.patientName);
    TrimEmptyIff(d.patientAge);
    TrimEmptyIff(d.postBronchodilatorFEV1FVC);
    TrimEmptyIff(d.fev1Predicted);
  }

  /** The record the wizard starts from is empty, so the CAT total is null,
      the group is unknown, and the first step reports both its fields. */
  lemma InitialRecordBlank()
    ensures forall f :: Get(InitialPatientData, f) in {Text(""), Flag(false), Items([])}
    ensures CatTotal(InitialPatientData) == None
    ensures CalculateGOLDGroup(InitialPatientData, CatTotal(InitialPatientData)) == Inconnu
    ensures StepErrors(PatientInfoStep, InitialPatientData, None).Keys == StepKeys(PatientInfoStep)
  {
    forall f ensures Get(InitialPatientData, f) in {Text(""), Flag(false), Items([])} {
    }
    assert !Answered(CatTexts(InitialPatientData)[0]);
    var c := ChecksOf(InitialPatientData, None);
    NameCheckRule("");
    AgeCheckRule("");
    forall k ensures k in StepErrors(PatientInfoStep, InitialPatientData, None) <==> k in StepKeys(PatientInfoStep) {
      ErrorsOfKeys(PatientInfoStep, c, k);
    }
  }

  /** An empty error map means every check of the step passed. */
  lemma NoErrorsAllAccepted(step: string, c: Checks, k: ErrorKey)
    requires ErrorsOf(step, c) == map[] && k in StepKeys(step)
    ensures CheckFor(c, k) == Accepted
  {
    ErrorsOfKeys(step, c, k);
  }

  /** An empty assessment error map means its three checks passed. */
  lemma AssessmentPasses(c: Checks)
    requires ErrorsOf(AssessmentStep, c) == map[]
    ensures c.fev1 == Accepted && c.mmrc == Accepted && c.cat == Accepted
  {
    NoErrorsAllAccepted(AssessmentStep, c, FieldKey(Fev1Predicted));
    NoErrorsAllAccepted(AssessmentStep, c, FieldKey(MmrcScore));
    NoErrorsAllAccepted(AssessmentStep, c, CatScoreKey);
  }

  /** When 'patient-info' validates, its readiness test passes on a clean error map. */
  lemma PatientInfoValidIsReady(d: PatientData, cat: Option<int>)
    requires StepErrors(PatientInfoStep, d, cat) == map[]
    ensures PatientInfoReady(d, map[])
  {
    var c := ChecksOf(d, cat);
    NoErrorsAllAccepted(PatientInfoStep, c, FieldKey(PatientName));
    NoErrorsAllAccepted(PatientInfoStep, c, FieldKey(PatientAge));
  }

  /** When 'diagnostic' validates, its readiness test passes on a clean error
      map: an accepted ratio parsed, so its text is not blank. */
  lemma DiagnosticValidIsReady(d: PatientData, cat: Option<int>)
    requires StepErrors(DiagnosticStep, d, cat) == map[]
    ensures DiagnosticReady(d, map[])
  {
    NoErrorsAllAccepted(DiagnosticStep, ChecksOf(d, cat), FieldKey(PostBronchodilatorFEV1FVC));
    FloatParsedIsTruthy(d.postBronchodilatorFEV1FVC);
  }

  /** When 'assessment' validates, its readiness test passes on a clean error map. */
  lemma AssessmentValidIsReady(d: PatientData, cat: Option<int>)
    requires StepErrors(AssessmentStep, d, cat) == map[]
    ensures AssessmentReady(d, cat, map[])
  {
    AssessmentPasses(ChecksOf(d, cat));
    IntParsedIsTruthy(d.fev1Predicted);
  }

  /** On the unvalidated steps canProceedToNext only asks whether a next step exists. */
  lemma OtherStepsProceed(i: nat, d: PatientData, cat: Option<int>, errors: ValidationErrors)
    requires 3 <= i < |Steps|
    ensures CanProceed(Steps[i], d, cat, errors) <==> i < LastIndex
  {
    StepsDistinct();
    StepIndexRoundTrip(i);
  }

  /** On 'patient-info', 'diagnostic' and 'assessment', a step whose
      validation finds nothing is ready once that empty map is stored: a
      Next click blocked by stale messages is followed by one that moves on. */
  lemma ValidatedStepIsReady(step: string, d: PatientData)
    requires step == PatientInfoStep || step == DiagnosticStep || step == AssessmentStep
    requires StepErrors(step, d, CatTotal(d)) == map[]
    ensures CanProceed(step, d, CatTotal(d), map[])
  {
    if step == PatientInfoStep {
      PatientInfoValidIsReady(d, CatTotal(d));
    } else if step == DiagnosticStep {
      DiagnosticValidIsReady(d, CatTotal(d));
    } else {
      AssessmentValidIsReady(d, CatTotal(d));
    }
  }

  /** gender, currentTreatment and comorbidities are carried in the record
      but read by nothing: validation, the CAT total, the group and
      canProceedToNext are the same whatever they hold. */
  lemma UnusedFieldsIgnored(d: PatientData, gender: string, treatments: seq<string>, comorbidities: seq<string>,
                            step: string, errors: ValidationErrors)
    ensures var e := d.(gender := gender, currentTreatment := treatments, comorbidities := comorbidities);
      && CatTotal(e) == CatTotal(d)
      && StepErrors(step, e, CatTotal(e)) == StepErrors(step, d, CatTotal(d))
      && CalculateGOLDGroup(e, CatTotal(e)) == CalculateGOLDGroup(d, CatTotal(d))
      && (CanProceed(step, e, CatTotal(e), errors) <==> CanProceed(step, d, CatTotal(d), errors))
  {
    var e := d.(gender := gender, currentTreatment := treatments, comorbidities := comorbidities);
    assert CatTexts(e) == CatTexts(d);
    assert ChecksOf(e, CatTotal(e)) == ChecksOf(d, CatTotal(d));
  }

  /** `currentCATData`: the CAT sub-record of a record. */
  function CatScoresOf(d: PatientData): (c: CATScoreFields)
    ensures forall item :: Text(Score(c, item)) == Get(d, CatField(item))
  {
    CATScoreFields(d.catCough, d.catPhlegm, d.catChestTightness, d.catBreathlessness,
      d.catActivityLimitation, d.catConfidenceLeaving, d.catSleep, d.catEnergy)
  }

  /** `{ ...prev, ...submittedScores }`: the record with its eight CAT answers replaced. */
  function MergeCat(d: PatientData, c: CATScoreFields): (r: PatientData)
    ensures CatScoresOf(r) == c
  {
    d.(catCough := c.catCough, catPhlegm := c.catPhlegm, catChestTightness := c.catChestTightness,
       catBreathlessness := c.catBreathlessness, catActivityLimitation := c.catActivityLimitation,
       catConfidenceLeaving := c.catConfidenceLeaving, catSleep := c.catSleep, catEnergy := c.catEnergy)
  }

  /** Merging only touches the CAT answers: every other field keeps its value. */
  lemma MergeCatFrame(d: PatientData, c: CATScoreFields, f: Field)
    requires f !in CatFields
    ensures Get(MergeCat(d, c), f) == Get(d, f)
  {
  }

  /** Submitting the answers a record already holds leaves it unchanged. */
  lemma MergeOwnScores(d: PatientData)
    ensures MergeCat(d, CatScoresOf(d)) == d
  {
  }

  /** The CAT texts the total reads after a merge are the submitted answers. */
  lemma MergedCatTexts(d: PatientData, c: CATScoreFields)
    ensures CatTexts(MergeCat(d, c)) ==
      [c.catCough, c.catPhlegm, c.catChestTightness, c.catBreathlessness,
       c.catActivityLimitation, c.catConfidenceLeaving, c.catSleep, c.catEnergy]
  {
  }

  /** `every(v => v !== '')` over the eight answers, in questionnaire order. */
  predicate AllFilled(c: CATScoreFields) {
    forall i :: 0 <= i < |CatItems| ==> Score(c, CatItems[i]) != ""
  }

  /** Every answer is filled in exactly when no item is left empty. */
  lemma AllFilledIff(c: CATScoreFields)
    ensures AllFilled(c) <==> forall item :: Score(c, item) != ""
  {
    CatItemsDistinct();
    if AllFilled(c) {
      forall item ensures Score(c, item) != "" {
        assert item in CatItems;
        var i :| 0 <= i < |CatItems| && CatItems[i] == item;
      }
    }
  }

  /** Radio answers for all eight items make the total known and within 0..40,
      so the assessment step no longer reports `catScore`. */
  lemma RadioSubmissionTotal(d: PatientData, c: CATScoreFields)
    requires forall item :: IsRadioAnswer(Score(c, item))
    ensures CatTotal(MergeCat(d, c)).Some?
    ensures 0 <= CatTotal(MergeCat(d, c)).value <= 40
  {
    var r := MergeCat(d, c);
    MergedCatTexts(d, c);
    assert forall i :: 0 <= i < |CatFields| ==> IsRadioAnswer(CatTexts(r)[i]) by {
      assert IsRadioAnswer(Score(c, Cough)) && IsRadioAnswer(Score(c, Phlegm));
      assert IsRadioAnswer(Score(c, ChestTightness)) && IsRadioAnswer(Score(c, Breathlessness));
      assert IsRadioAnswer(Score(c, ActivityLimitation)) && IsRadioAnswer(Score(c, ConfidenceLeaving));
      assert IsRadioAnswer(Score(c, Sleep)) && IsRadioAnswer(Score(c, Energy));
    }
    CatTotalBounds(r);
  }

  /** After such a submission the assessment step no longer reports `catScore`. */
  lemma RadioSubmissionClearsCatRule(d: PatientData, c: CATScoreFields)
    requires forall item :: IsRadioAnswer(Score(c, item))
    ensures CatScoreKey !in StepErrors(AssessmentStep, MergeCat(d, c), CatTotal(MergeCat(d, c)))
  {
    RadioSubmissionTotal(d, c);
    CatRule(MergeCat(d, c), CatTotal(MergeCat(d, c)));
  }

  /** The CAT questionnaire dialog: open or closed, and the answers being edited. */
  class CatModal {
    var isOpen: bool
    var localCatScores: CATScoreFields

    constructor(initialData: CATScoreFields)
      ensures !isOpen && localCatScores == initialData
    {
      isOpen := false;
      localCatScores := initialData;
    }

    /** Opening the dialog resets the answers being edited to the record's. */
    method Open(initialData: CATScoreFields)
      modifies this
      ensures isOpen && localCatScores == initialData
    {
      isOpen := true;
      localCatScores := initialData;
    }

    /** handleScoreChange: one answer changes, the others stay. */
    method ScoreChange(item: CatItem, v: string)
      modifies this
      ensures isOpen == old(isOpen)
      ensures Score(localCatScores, item) == v
      ensures forall j :: j != item ==> Score(localCatScores, j) == Score(old(localCatScores), j)
    {
      localCatScores := WithScore(localCatScores, item, v);
    }

    /** handleSubmit: the answers are handed on only when all eight questions
        have a non-empty answer; otherwise the dialog stays as it is. */
    method HandleSubmit() returns (submitted: Option<CATScoreFields>)
      ensures submitted.Some? <==> AllFilled(localCatScores)
      ensures submitted.Some? ==> submitted.value == localCatScores
    {
      var allFilled := true;
      var i := 0;
      while i < |CatItems|
        invariant 0 <= i <= |CatItems|
        invariant allFilled <==> forall j :: 0 <= j < i ==> Score(localCatScores, CatItems[j]) != ""
      {
        if Score(localCatScores, CatItems[i]) == "" {
          allFilled := false;
        }
        i := i + 1;
      }
      if allFilled {
        submitted := Some(localCatScores);
      } else {
        submitted := None;
      }
    }

    method Close()
      modifies this
      ensures !isOpen && localCatScores == old(localCatScores)
    {
      isOpen := false;
    }
  }

  /** The wizard's state. */
  class Wizard {
    var record: PatientData
    var errors: ValidationErrors
    var currentStep: string
    var showPrintReport: bool

    /** The current step is one of the six, and every stored message is
        non-empty, so `if (errors[k])` tests whether `k` has a message. */
    predicate Valid()
      reads this
    {
      currentStep in Steps && forall k :: k in errors ==> errors[k] != ""
    }

    constructor()
      ensures Valid()
      ensures record == InitialPatientData && errors == map[]
      ensures currentStep == PatientInfoStep && !showPrintReport
    {
      record := InitialPatientData;
      errors := map[];
      currentStep := PatientInfoStep;
      showPrintReport := false;
    }

    /** `currentStepIndex`. */
    function Index(): (i: int)
      reads this
      requires Valid()
      ensures 0 <= i <= LastIndex && Steps[i] == currentStep
    {
      StepsDistinct();
      StepIndex(currentStep)
    }

    /** handleInputChange: field `f` takes the value `v`; nothing else changes. */
    method HandleInputChange(f: Field, v: Value)
      requires Valid() && HasType(f, v)
      modifies this
      ensures Valid()
      ensures record == WithField(old(record), f, v)
      ensures errors == old(errors) && currentStep == old(currentStep)
      ensures showPrintReport == old(showPrintReport)
    {
      record := WithField(record, f, v);
    }

    /** clearValidationError: the message for `k`, if any, is removed; the others stay. */
    method ClearValidationError(k: ErrorKey)
      requires Valid()
      modifies this
      ensures Valid()
      ensures errors == old(errors) - {k}
      ensures record == old(record) && currentStep == old(currentStep)
      ensures showPrintReport == old(showPrintReport)
    {
      if k in errors && Truthy(errors[k]) {
        errors := errors - {k};
      }
    }

    /** handleFieldChange: the edit, then the field's own message is cleared. */
    method HandleFieldChange(f: Field, v: Value)
      requires Valid() && HasType(f, v)
      modifies this
      ensures Valid()
      ensures record == WithField(old(record), f, v)
      ensures errors == old(errors) - {FieldKey(f)}
      ensures currentStep == old(currentStep) && showPrintReport == old(showPrintReport)
    {
      HandleInputChange(f, v);
      ClearValidationError(FieldKey(f));
    }

    /** validateCurrentStep: the step's error map replaces the stored one,
        and the step passes exactly when that map is empty. */
    method ValidateCurrentStep() returns (ok: bool)
      requires Valid()
      modifies this
      ensures Valid()
      ensures errors == StepErrors(currentStep, record, CatTotal(record))
      ensures ok <==> errors == map[]
      ensures record == old(record) && currentStep == old(currentStep)
      ensures showPrintReport == old(showPrintReport)
    {
      var cat := CalculateCATScore(record);
      var e := BuildStepErrors(currentStep, record, cat);
      MessagesNonEmpty(currentStep, ChecksOf(record, cat));
      errors := e;
      ok := |e.Keys| == 0;
    }

    /**
     * handleNext: validate the step; move to the next step (never past the
     * last) only when validation passed and canProceedToNext held for the
     * state in which Next was clicked, that is with the messages stored
     * before this validation.
     */
    method HandleNext()
      requires Valid()
      modifies this
      ensures Valid()
      ensures record == old(record) && showPrintReport == old(showPrintReport)
      ensures errors == StepErrors(old(currentStep), record, CatTotal(record))
      ensures currentStep ==
        if errors == map[] && CanProceed(old(currentStep), record, CatTotal(record), old(errors))
        then Steps[if old(Index()) < LastIndex then old(Index()) + 1 else LastIndex]
        else old(currentStep)
    {
      var cat := CalculateCATScore(record);
      var proceed := CanProceed(currentStep, record, cat, errors);
      var i := StepIndex(currentStep);
      var ok := ValidateCurrentStep();
      if ok && proceed {
        var next := if i < LastIndex then i + 1 else LastIndex;
        currentStep := Steps[next];
      }
    }

    /** handlePrevious: one step back, staying on the first. */
    method HandlePrevious()
      requires Valid()
      modifies this
      ensures Valid()
      ensures Index() == if old(Index()) > 0 then old(Index()) - 1 else 0
      ensures record == old(record) && errors == old(errors)
      ensures showPrintReport == old(showPrintReport)
    {
      var i := StepIndex(currentStep);
      currentStep := Steps[if i > 0 then i - 1 else 0];
      StepIndexRoundTrip(if i > 0 then i - 1 else 0);
    }

    /** A step button of the progress bar: go straight to that step, with no validation. */
    method JumpTo(id: string)
      requires Valid() && id in Steps
      modifies this
      ensures Valid()
      ensures currentStep == id
      ensures record == old(record) && errors == old(errors)
      ensures showPrintReport == old(showPrintReport)
    {
      currentStep := id;
    }

    /** The report button, shown from the third step on: validate the step
        and open the printable report when it passes. */
    method RequestReport()
      requires Valid() && Index() >= 2
      modifies this
      ensures Valid()
      ensures errors == StepErrors(currentStep, record, CatTotal(record))
      ensures showPrintReport == (old(showPrintReport) || errors == map[])
      ensures record == old(record) && currentStep == old(currentStep)
    {
      var ok := ValidateCurrentStep();
      if ok {
        showPrintReport := true;
      }
    }

    /** Previous is disabled exactly on the first step. */
    function PreviousDisabled(): (r: bool)
      reads this
      requires Valid()
      ensures r <==> currentStep == PatientInfoStep
    {
      StepsDistinct();
      Index() == 0
    }

    /** Next is disabled on the last step and whenever canProceedToNext fails;
        an enabled Next always has a step to go to. */
    function NextDisabled(): (r: bool)
      reads this
      requires Valid()
      ensures r <==> currentStep == FollowUpStep || !CanProceed(currentStep, record, CatTotal(record), errors)
      ensures !r ==> Index() < LastIndex
    {
      StepsDistinct();
      Index() == LastIndex || !CanProceed(currentStep, record, CatTotal(record), errors)
    }

    /** The Next button reads "Terminer" exactly on the last step. */
    function NextLabel(): (text: string)
      reads this
      requires Valid()
      ensures text == NextLabelLast <==> currentStep == FollowUpStep
    {
      StepsDistinct();
      if Index() == LastIndex then NextLabelLast else NextLabelOther
    }

    /** The dialog opens on the record's current answers. */
    method OpenCatDialog(m: CatModal)
      modifies m
      ensures m.isOpen && m.localCatScores == CatScoresOf(record)
    {
      m.Open(CatScoresOf(record));
    }

    /** handleSubmitCATScores: merge the answers into the record, clear the
        `catScore` message when every submitted answer is non-empty. */
    method HandleSubmitCATScores(c: CATScoreFields)
      requires Valid()
      modifies this
      ensures Valid()
      ensures record == MergeCat(old(record), c)
      ensures errors == if AllFilled(c) then old(errors) - {CatScoreKey} else old(errors)
      ensures currentStep == old(currentStep) && showPrintReport == old(showPrintReport)
    {
      record := MergeCat(record, c);
      if AllFilled(c) {
        ClearValidationError(CatScoreKey);
      }
    }

    /** The dialog's "Valider et Fermer": when every answer is filled in they
        are merged, the `catScore` message is cleared and the dialog closes;
        otherwise nothing changes. */
    method SubmitCatDialog(m: CatModal)
      requires Valid()
      modifies this, m
      ensures Valid()
      ensures AllFilled(old(m.localCatScores)) ==>
        record == MergeCat(old(record), old(m.localCatScores)) && errors == old(errors) - {CatScoreKey} && !m.isOpen
      ensures !AllFilled(old(m.localCatScores)) ==>
        record == old(record) && errors == old(errors) && m.isOpen == old(m.isOpen)
      ensures currentStep == old(currentStep) && showPrintReport == old(showPrintReport)
      ensures m.localCatScores == old(m.localCatScores)
    {
      var submitted := m.HandleSubmit();
      if submitted.Some? {
        HandleSubmitCATScores(submitted.value);
        m.Close();
      }
    }
  }
}
