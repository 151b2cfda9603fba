/**
 * What the diagnostic, assessment and treatment step views display: the
 * badge, the obstruction line, the group and its recommendation, the
 * eosinophil advisory, the coherence warnings and the answers the CAT
 * dialog opens on.
 *
 * The step views are components created inside the page's render, and the
 * step list that holds them is memoised once with no dependencies
 * (App.tsx:1011-1018). The view rendered is therefore always the first
 * render's component, whose closure reads the initial record. DisplayOf is
 * what the views are evidently meant to show, the display of the record the
 * wizard holds; DisplayAsWritten is what the code shows, the display of the
 * initial record whatever the wizard holds.
 */
module StepViews {
  import opened Wrappers
  import opened JsText
  import opened Types
  import opened CatScore
  import opened Grading
  import opened Groups
  import opened Treatment
  import opened Wizard

  datatype Display = Display(
    badge: Option<GoldGrade>,
    obstruction: Option<bool>,
    group: Group,
    advisory: Option<EosTier>,
    notConfirmed: bool,
    lowHistory: bool,
    discordance: bool,
    dialogAnswers: CATScoreFields)

  /** What the step views show for record `d`. The treatment step's
      recommendation is `GetInitialTreatment` of the group shown. */
  function DisplayOf(d: PatientData): (v: Display)
    ensures v.badge.Some? <==> ParseInt(d.fev1Predicted).Some?
    ensures v.obstruction.Some? <==> ParseFloat(d.postBronchodilatorFEV1FVC) != NaN
    ensures v.group == Inconnu <==>
      ParseInt(d.mmrcScore).None? || CatTotal(d).None? ||
      ParseInt(d.exacerbationsLastYear).None? || ParseInt(d.hospitalizationsLastYear).None?
    ensures v.advisory.Some? <==> ParseInt(d.bloodEosinophils).Some?
    ensures !v.lowHistory
    ensures forall item :: Text(Score(v.dialogAnswers, item)) == Get(d, CatField(item))
  {
    var cat := CatTotal(d);
    var g := CalculateGOLDGroup(d, cat);
    GroupUnknownIff(d, cat);
    LowHistoryWarningNeverFires(d, cat);
    Display(GradeBadge(d.fev1Predicted), ObstructionFlag(d.postBronchodilatorFEV1FVC), g,
      EosinophilAdvisory(d.bloodEosinophils),
      NotConfirmedWarning(d.postBronchodilatorFEV1FVC), LowHistoryWarning(d, g),
      MmrcHighCatLow(d, cat) || MmrcLowCatHigh(d, cat), CatScoresOf(d))
  }

  /** The display as the code renders it: that of the initial record, so
      nothing the clinician types shows up in the step views, and the
      treatment step always shows the "incomplete evaluation" placeholder. */
  function DisplayAsWritten(d: PatientData): (v: Display)
    ensures v.badge == None && v.obstruction == None && v.advisory == None
    ensures v.group == Inconnu
    ensures !v.notConfirmed && !v.discordance
    ensures forall item :: Score(v.dialogAnswers, item) == ""
  {
    InitialRecordBlank();
    assert ParseInt("") == None;
    assert ParseFloat("") == NaN;
    DisplayOf(InitialPatientData)
  }

  /** Typing "45" into FEV1 % predicted: the badge is meant to read GOLD 3,
      and as written it stays hidden. */
  lemma StaleBadge()
    ensures var d := InitialPatientData.(fev1Predicted := "45");
      DisplayOf(d).badge == Some(Gold3) && DisplayAsWritten(d).badge == None
  {
    var s := "45";
    assert forall i :: 0 <= i < |s| ==> IsDigit(s[i], 10);
    ParseIntDigits(s);
    assert DigitsValue(s, 10) == 45 by {
      assert s[..1] == "4";
    }
  }

  /** The intended display follows the record: once the clinician types the
      number n into FEV1 % predicted, the badge shows the grade of n. */
  lemma BadgeFollowsTyping(d: PatientData, n: nat)
    ensures DisplayOf(WithField(d, Fev1Predicted, Text(DecimalString(n)))).badge == Some(GradeOf(n))
  {
    var e := WithField(d, Fev1Predicted, Text(DecimalString(n)));
    WithFieldSets(d, Fev1Predicted, Text(DecimalString(n)));
    assert e.fev1Predicted == DecimalString(n);
    ParseIntDecimalString(n);
  }
}
