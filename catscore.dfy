/**
 * The CAT (COPD Assessment Test) total: eight items scored 0..5, summed
 * only when every item is answered.
 */
module CatScore {
  import opened Wrappers
  import opened JsText
  import opened Types

  /** The eight keys the total iterates, in its order. */
  const CatFields: seq<Field> :=
    [CatCough, CatPhlegm, CatChestTightness, CatBreathlessness,
     CatActivityLimitation, CatConfidenceLeaving, CatSleep, CatEnergy]

  /** The keys the total iterates are the keys the CAT sub-record picks, in the same order. */
  lemma CatFieldsAreCatItems()
    ensures |CatFields| == |CatItems|
    ensures forall i :: 0 <= i < |CatFields| ==> CatFields[i] == CatField(CatItems[i])
  {
  }

  /** The texts of the eight CAT items of a record, in the order of `CatFields`. */
  function CatTexts(d: PatientData): (r: seq<string>)
    ensures |r| == |CatFields|
  {
    [d.catCough, d.catPhlegm, d.catChestTightness, d.catBreathlessness,
     d.catActivityLimitation, d.catConfidenceLeaving, d.catSleep, d.catEnergy]
  }

  /** Reading key `CatFields[i]` of the record gives the i-th CAT text. */
  lemma CatTextAt(d: PatientData, i: nat)
    requires i < |CatFields|
    ensures Get(d, CatFields[i]) == Text(CatTexts(d)[i])
  {
    if i == 0 {} else if i == 1 {} else if i == 2 {} else if i == 3 {}
    else if i == 4 {} else if i == 5 {} else if i == 6 {} else {}
  }

  /** `valueStr && valueStr.trim() !== ''`: the item counts as answered. */
  predicate Answered(s: string) {
    Truthy(s) && Trim(s) != ""
  }

  /** An item is answered exactly when it is not blank; the truthiness test adds nothing. */
  lemma AnsweredIffNotBlank(s: string)
    ensures Answered(s) <==> !AllWhitespace(s)
  {
    TrimEmptyIff(s);
  }

  /** What an answered item adds to the total: its parseInt, or 0 when that is NaN. */
  function Contribution(s: string): int {
    match ParseInt(s)
    case Some(n) => n
    case None => 0
  }

  /** The sum of the contributions of all the given items. */
  function SumContributions(ss: seq<string>): int {
    if ss == [] then 0 else SumContributions(ss[..|ss| - 1]) + Contribution(ss[|ss| - 1])
  }

  predicate AllAnswered(ss: seq<string>) {
    forall i :: 0 <= i < |ss| ==> Answered(ss[i])
  }

  /** The total of a list of items: the sum of their contributions when every
      item is answered; null (None) as soon as one item is blank. */
  function TotalOf(ss: seq<string>): Option<int> {
    if AllAnswered(ss) then Some(SumContributions(ss)) else None
  }

  /** The CAT total of a record (the value of calculateCATScore). */
  function CatTotal(d: PatientData): Option<int> {
    TotalOf(CatTexts(d))
  }

  /** The number of answered items: `completedFields` after the loop. */
  ghost function AnsweredCount(ss: seq<string>): (n: nat)
    ensures n <= |ss|
  {
    if ss == [] then 0 else AnsweredCount(ss[..|ss| - 1]) + (if Answered(ss[|ss| - 1]) then 1 else 0)
  }

  /** The contributions of the answered items only: `total` after the loop. */
  ghost function AnsweredSum(ss: seq<string>): int {
    if ss == [] then 0 else AnsweredSum(ss[..|ss| - 1]) + (if Answered(ss[|ss| - 1]) then Contribution(ss[|ss| - 1]) else 0)
  }

  /** A list is all answered exactly when its prefix is and its last item is. */
  lemma AllAnsweredSnoc(ss: seq<string>)
    requires ss != []
    ensures AllAnswered(ss) <==> AllAnswered(ss[..|ss| - 1]) && Answered(ss[|ss| - 1])
  {
    var init := ss[..|ss| - 1];
    assert forall i :: 0 <= i < |init| ==> init[i] == ss[i];
  }

  /** Every item was counted exactly when every item is answered. */
  lemma {:induction false} AnsweredCountFull(ss: seq<string>)
    ensures AnsweredCount(ss) == |ss| <==> AllAnswered(ss)
  {
    if ss != [] {
      AnsweredCountFull(ss[..|ss| - 1]);
      AllAnsweredSnoc(ss);
    }
  }

  /** When every item is answered, the running total is the full sum. */
  lemma {:induction false} AnsweredSumFull(ss: seq<string>)
    requires AllAnswered(ss)
    ensures AnsweredSum(ss) == SumContributions(ss)
  {
    if ss != [] {
      AllAnsweredSnoc(ss);
      AnsweredSumFull(ss[..|ss| - 1]);
    }
  }

  /**
   * calculateCATScore: walk the eight items, add the parseInt of every
   * answered item that parses, count the answered items, and give the total
   * only when all eight were answered.
   */
  method CalculateCATScore(d: PatientData) returns (r: Option<int>)
    ensures r == CatTotal(d)
  {
    ghost var texts := CatTexts(d);
    var total := 0;
    var completedFields := 0;
    for i := 0 to |CatFields|
      invariant total == AnsweredSum(texts[..i])
      invariant completedFields == AnsweredCount(texts[..i])
    {
      CatTextAt(d, i);
      var valueStr := Get(d, CatFields[i]).text;
      assert texts[..i + 1][..i] == texts[..i] && texts[..i + 1][i] == valueStr;
      if Truthy(valueStr) && Trim(valueStr) != "" {
        var value := ParseInt(valueStr);
        if value.Some? {
          total := total + value.value;
        }
        completedFields := completedFields + 1;
      }
    }
    assert texts[..|CatFields|] == texts;
    AnsweredCountFull(texts);
    if AllAnswered(texts) {
      AnsweredSumFull(texts);
    }
    r := if completedFields == |CatFields| then Some(total) else None;
  }

  /** All or nothing: the total is known exactly when none of the eight items
      is blank, and then it is the sum of their contributions, never a partial sum. */
  lemma CatTotalComplete(d: PatientData)
    ensures CatTotal(d).Some? <==> forall i :: 0 <= i < |CatFields| ==> !AllWhitespace(CatTexts(d)[i])
    ensures CatTotal(d).Some? ==> CatTotal(d).value == SumContributions(CatTexts(d))
  {
    var texts := CatTexts(d);
    forall i | 0 <= i < |texts| ensures Answered(texts[i]) <==> !AllWhitespace(texts[i]) {
      AnsweredIffNotBlank(texts[i]);
    }
  }

  /** Items with equal contributions give equal sums. */
  lemma {:induction false} SumContributionsPointwise(a: seq<string>, b: seq<string>)
    requires |a| == |b|
    requires forall i :: 0 <= i < |a| ==> Contribution(a[i]) == Contribution(b[i])
    ensures SumContributions(a) == SumContributions(b)
  {
    if a != [] {
      SumContributionsPointwise(a[..|a| - 1], b[..|b| - 1]);
    }
  }

  lemma ZeroIsAnswered()
    ensures Answered("0") && Contribution("0") == 0
  {
    ParseIntDecimalString(0);
    assert DecimalString(0) == "0";
    assert !IsWhitespace("0"[0]);
    TrimStartNonEmpty("0");
  }

  /** A non-blank item that does not parse counts as answered and adds 0:
      the total is the same as with that item answered "0". */
  lemma UnparsedItemAddsZero(ss: seq<string>, k: nat)
    requires k < |ss|
    requires !AllWhitespace(ss[k]) && ParseInt(ss[k]) == None
    ensures TotalOf(ss) == TotalOf(ss[k := "0"])
  {
    var b := ss[k := "0"];
    ZeroIsAnswered();
    AnsweredIffNotBlank(ss[k]);
    assert forall i :: 0 <= i < |ss| ==> (Answered(ss[i]) <==> Answered(b[i]));
    assert AllAnswered(ss) <==> AllAnswered(b);
    SumContributionsPointwise(ss, b);
  }

  /** A value the questionnaire's radio buttons produce: `score.toString()` for score in 0..5. */
  predicate IsRadioAnswer(s: string) {
    |s| == 1 && '0' <= s[0] <= '5'
  }

  /** The digits of radio answers, summed. */
  function DigitSum(ss: seq<string>): int
    requires forall i :: 0 <= i < |ss| ==> IsRadioAnswer(ss[i])
  {
    if ss == [] then 0
    else
      assert IsRadioAnswer(ss[|ss| - 1]);
      DigitSum(ss[..|ss| - 1]) + (ss[|ss| - 1][0] - '0') as int
  }

  /** A radio answer is answered and contributes its digit. */
  lemma RadioAnswerValue(s: string)
    requires IsRadioAnswer(s)
    ensures Answered(s) && Contribution(s) == (s[0] - '0') as int
  {
    var n := (s[0] - '0') as nat;
    assert DecimalString(n) == s;
    ParseIntDecimalString(n);
    TrimStartNonEmpty(s);
  }

  lemma {:induction false} RadioSum(ss: seq<string>)
    requires forall i :: 0 <= i < |ss| ==> IsRadioAnswer(ss[i])
    ensures AllAnswered(ss)
    ensures SumContributions(ss) == DigitSum(ss)
    ensures 0 <= DigitSum(ss) <= 5 * |ss|
  {
    if ss != [] {
      var init, last := ss[..|ss| - 1], ss[|ss| - 1];
      assert forall i :: 0 <= i < |init| ==> init[i] == ss[i];
      assert IsRadioAnswer(last);
      RadioSum(init);
      RadioAnswerValue(last);
      assert SumContributions(ss) == SumContributions(init) + Contribution(last);
      assert DigitSum(ss) == DigitSum(init) + (last[0] - '0') as int;
      AllAnsweredSnoc(ss);
    }
  }

  /** When every item holds a radio answer, the total is known, equals the sum
      of the eight digits and lies in 0..40. */
  lemma CatTotalBounds(d: PatientData)
    requires forall i :: 0 <= i < |CatFields| ==> IsRadioAnswer(CatTexts(d)[i])
    ensures CatTotal(d) == Some(DigitSum(CatTexts(d)))
    ensures 0 <= CatTotal(d).value <= 40
  {
    RadioSum(CatTexts(d));
  }
}
