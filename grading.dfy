/**
 * The spirometric side of the assessment: the GOLD 1-4 grade of airflow
 * limitation from FEV1 % predicted, shown both as a live badge on the
 * assessment step and as a line of the printed report, and the
 * post-bronchodilator FEV1/FVC < 0.7 obstruction criterion with its
 * coherence warning.
 */
module Grading {
  import opened Wrappers
  import opened JsText

  /** The four GOLD grades of airflow limitation severity. */
  datatype GoldGrade = Gold1 | Gold2 | Gold3 | Gold4

  /** The grade as an ordinal, 1 (mild) to 4 (very severe). */
  function Rank(g: GoldGrade): (r: nat)
    ensures 1 <= r <= 4
  {
    match g
    case Gold1 => 1
    case Gold2 => 2
    case Gold3 => 3
    case Gold4 => 4
  }

  /** The band of an FEV1 % predicted value; each band includes its lower bound. */
  function GradeOf(fev1: int): (g: GoldGrade)
    ensures g == Gold1 <==> 80 <= fev1
    ensures g == Gold2 <==> 50 <= fev1 < 80
    ensures g == Gold3 <==> 30 <= fev1 < 50
    ensures g == Gold4 <==> fev1 < 30
  {
    if fev1 >= 80 then Gold1
    else if fev1 >= 50 then Gold2
    else if fev1 >= 30 then Gold3
    else Gold4
  }

  /** A lower FEV1 never gives a milder grade. */
  lemma GradeMonotone(a: int, b: int)
    requires a <= b
    ensures Rank(GradeOf(a)) >= Rank(GradeOf(b))
  {
  }

  /** The label a grade is shown with, in the badge and in the report alike. */
  function GradeLabel(g: GoldGrade): string {
    match g
    case Gold1 => "GOLD 1 (Léger)"
    case Gold2 => "GOLD 2 (Modéré)"
    case Gold3 => "GOLD 3 (Sévère)"
    case Gold4 => "GOLD 4 (Très sévère)"
  }

  const NotReported: string := "Non renseigné"

  /** The four labels and the "not reported" text are five different texts. */
  lemma GradeLabelsDistinct(g: GoldGrade, h: GoldGrade)
    ensures GradeLabel(g) == GradeLabel(h) <==> g == h
    ensures GradeLabel(g) != NotReported
  {
    assert GradeLabel(g)[5] != GradeLabel(h)[5] <== g != h;
    assert GradeLabel(g)[0] != NotReported[0];
  }

  /** The live badge on the assessment step: shown, with the grade, only when
      the field is truthy and its parseInt is not NaN. */
  function GradeBadge(fev1Predicted: string): (r: Option<GoldGrade>)
    ensures r.Some? <==> ParseInt(fev1Predicted).Some?
    ensures r.Some? ==> r.value == GradeOf(ParseInt(fev1Predicted).value)
  {
    IntParsedIsTruthy(fev1Predicted);
    if Truthy(fev1Predicted) && ParseInt(fev1Predicted).Some? then
      Some(GradeOf(ParseInt(fev1Predicted).value))
    else None
  }

  /** getGoldGradeText: the report's severity text. */
  function GoldGradeText(fev1Predicted: string): string {
    if !Truthy(fev1Predicted) || ParseInt(fev1Predicted).None? then NotReported
    else
      var fev1 := ParseInt(fev1Predicted).value;
      if fev1 >= 80 then GradeLabel(Gold1)
      else if fev1 >= 50 then GradeLabel(Gold2)
      else if fev1 >= 30 then GradeLabel(Gold3)
      else GradeLabel(Gold4)
  }

  /** The report and the live badge agree on every input: the report names
      the badge's grade when there is a badge and says "not reported" otherwise. */
  lemma ReportMatchesBadge(fev1Predicted: string)
    ensures GoldGradeText(fev1Predicted) ==
      match GradeBadge(fev1Predicted)
      case Some(g) => GradeLabel(g)
      case None => NotReported
  {
    IntParsedIsTruthy(fev1Predicted);
  }

  /** The report grades the decimal text of a whole number by its band. */
  lemma GradeTextOfNumber(n: nat)
    ensures GoldGradeText(DecimalString(n)) == GradeLabel(GradeOf(n))
  {
    ParseIntDecimalString(n);
  }

  /** The band boundaries: exactly 80, 50 and 30 belong to the milder band. */
  lemma GradeBoundaries()
    ensures GradeOf(80) == Gold1 && GradeOf(79) == Gold2
    ensures GradeOf(50) == Gold2 && GradeOf(49) == Gold3
    ensures GradeOf(30) == Gold3 && GradeOf(29) == Gold4
  {
  }

  /** The obstruction line of the diagnostic step and of the report: shown
      only when the ratio is truthy and parseFloat is not NaN; true means
      "compatible with COPD" (ratio < 0.7), false means not compatible. */
  function ObstructionFlag(postRatio: string): (r: Option<bool>)
    ensures r.Some? <==> ParseFloat(postRatio) != NaN
    ensures r == Some(true) <==> Less(ParseFloat(postRatio), 0.7)
  {
    FloatParsedIsTruthy(postRatio);
    if Truthy(postRatio) && ParseFloat(postRatio) != NaN then
      Some(Less(ParseFloat(postRatio), 0.7))
    else None
  }

  /** The coherence warning of the treatment step: `!isNaN(x) && x >= 0.7`,
      "diagnosis not confirmed by spirometry". */
  predicate NotConfirmedWarning(postRatio: string) {
    ParseFloat(postRatio) != NaN && AtLeast(ParseFloat(postRatio), 0.7)
  }

  /** The warning fires exactly when the obstruction line says "not compatible". */
  lemma WarningMatchesObstruction(postRatio: string)
    ensures NotConfirmedWarning(postRatio) <==> ObstructionFlag(postRatio) == Some(false)
  {
  }

  /** 0.7 itself is not an obstruction: the criterion is strictly below 0.7. */
  lemma ObstructionThreshold()
    ensures ObstructionFlag("0.7") == Some(false)
    ensures NotConfirmedWarning("0.7")
    ensures ObstructionFlag("") == None
  {
    ParseFloatSevenTenths();
  }
}
