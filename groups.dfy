/**
 * The GOLD ABE assessment: the risk group from the mMRC dyspnoea grade,
 * the CAT total and the exacerbation and hospitalisation history of the
 * last year, and the coherence warnings the treatment step derives from it.
 */
module Groups {
  import opened Wrappers
  import opened JsText
  import opened Types

  /** 'A' | 'B' | 'E' | 'Inconnu'. */
  datatype Group = A | B | E | Inconnu

  /** The severity order of the known groups: A below B below E. */
  function Severity(g: Group): nat
    requires g != Inconnu
  {
    match g
    case A => 0
    case B => 1
    case E => 2
  }

  /** The classification once all four inputs are known numbers: history
      first (E), then symptoms (B), else A. */
  function AbeGroup(mmrc: int, cat: int, exacerbations: int, hospitalizations: int): (g: Group)
    ensures g != Inconnu
    ensures g == E <==> exacerbations >= 2 || hospitalizations >= 1
    ensures g == B <==> exacerbations < 2 && hospitalizations < 1 && (mmrc >= 2 || cat >= 10)
    ensures g == A <==> exacerbations < 2 && hospitalizations < 1 && mmrc < 2 && cat < 10
  {
    if exacerbations >= 2 || hospitalizations >= 1 then E
    else if mmrc >= 2 || cat >= 10 then B
    else A
  }

  /** Raising any input never lowers the group. */
  lemma AbeGroupMonotone(m: int, c: int, x: int, h: int, m': int, c': int, x': int, h': int)
    requires m <= m' && c <= c' && x <= x' && h <= h'
    ensures Severity(AbeGroup(m, c, x, h)) <= Severity(AbeGroup(m', c', x', h'))
  {
  }

  /** calculateGOLDGroup: 'Inconnu' when mMRC, exacerbations or
      hospitalisations is falsy or NaN or the CAT total is null. */
  function CalculateGOLDGroup(d: PatientData, cat: Option<int>): Group {
    if !Truthy(d.mmrcScore) || cat.None? || !Truthy(d.exacerbationsLastYear) || !Truthy(d.hospitalizationsLastYear) then
      Inconnu
    else
      var mmrc := ParseInt(d.mmrcScore);
      var exacerbations := ParseInt(d.exacerbationsLastYear);
      var hospitalizations := ParseInt(d.hospitalizationsLastYear);
      if mmrc.None? || exacerbations.None? || hospitalizations.None? then Inconnu
      else AbeGroup(mmrc.value, cat.value, exacerbations.value, hospitalizations.value)
  }

  /** The group is unknown exactly when one input is missing: a field that is
      empty or does not parse, or a null CAT total; otherwise it is the
      classification of the parsed values. */
  lemma GroupUnknownIff(d: PatientData, cat: Option<int>)
    ensures CalculateGOLDGroup(d, cat) == Inconnu <==>
      ParseInt(d.mmrcScore).None? || cat.None? ||
      ParseInt(d.exacerbationsLastYear).None? || ParseInt(d.hospitalizationsLastYear).None?
    ensures CalculateGOLDGroup(d, cat) != Inconnu ==>
      CalculateGOLDGroup(d, cat) == AbeGroup(ParseInt(d.mmrcScore).value, cat.value,
        ParseInt(d.exacerbationsLastYear).value, ParseInt(d.hospitalizationsLastYear).value)
  {
    IntParsedIsTruthy(d.mmrcScore);
    IntParsedIsTruthy(d.exacerbationsLastYear);
    IntParsedIsTruthy(d.hospitalizationsLastYear);
  }

  /** History dominates: with known inputs, two exacerbations or one
      hospitalisation give E whatever the mMRC grade and the CAT total. */
  lemma HistoryDominates(d: PatientData, cat: Option<int>)
    requires CalculateGOLDGroup(d, cat) != Inconnu
    ensures CalculateGOLDGroup(d, cat) == E <==>
      ParseInt(d.exacerbationsLastYear).value >= 2 || ParseInt(d.hospitalizationsLastYear).value >= 1
  {
    GroupUnknownIff(d, cat);
  }

  /** The examples of the ABE scheme: 2 exacerbations and nothing else is E;
      mMRC 2 alone is B; mMRC 1 with CAT 9 is A and with CAT 10 is B. */
  lemma AbeExamples()
    ensures AbeGroup(0, 0, 2, 0) == E
    ensures AbeGroup(2, 0, 0, 0) == B
    ensures AbeGroup(1, 9, 0, 0) == A
    ensures AbeGroup(1, 10, 0, 0) == B
    ensures AbeGroup(4, 40, 0, 1) == E
  {
  }

  /** `parseInt(x || '0') < c`: an empty field reads as "0"; NaN compares false. */
  predicate ParsedOrZeroBelow(x: string, c: int) {
    var n := ParseInt(if Truthy(x) then x else "0");
    n.Some? && n.value < c
  }

  /** The warning "group E but the history looks low". */
  predicate LowHistoryWarning(d: PatientData, g: Group) {
    g == E && ParsedOrZeroBelow(d.exacerbationsLastYear, 2) && ParsedOrZeroBelow(d.hospitalizationsLastYear, 1)
  }

  /** That warning can never fire: group E is only ever given for a history
      of at least two exacerbations or one hospitalisation. */
  lemma LowHistoryWarningNeverFires(d: PatientData, cat: Option<int>)
    ensures !LowHistoryWarning(d, CalculateGOLDGroup(d, cat))
  {
    GroupUnknownIff(d, cat);
  }

  /** The two mMRC/CAT discordance warnings: mMRC >= 2 with CAT < 10, and
      mMRC < 2 with CAT >= 10 (each needs a CAT total and a truthy mMRC; a
      NaN mMRC compares false). */
  predicate MmrcHighCatLow(d: PatientData, cat: Option<int>) {
    cat.Some? && Truthy(d.mmrcScore) && ParseInt(d.mmrcScore).Some? && ParseInt(d.mmrcScore).value >= 2 && cat.value < 10
  }

  predicate MmrcLowCatHigh(d: PatientData, cat: Option<int>) {
    cat.Some? && Truthy(d.mmrcScore) && ParseInt(d.mmrcScore).Some? && ParseInt(d.mmrcScore).value < 2 && cat.value >= 10
  }

  /** At most one discordance warning fires, and either one rules out group
      A: one of the two symptom measures is high. */
  lemma DiscordanceWarnings(d: PatientData, cat: Option<int>)
    ensures !(MmrcHighCatLow(d, cat) && MmrcLowCatHigh(d, cat))
    ensures MmrcHighCatLow(d, cat) || MmrcLowCatHigh(d, cat) ==> CalculateGOLDGroup(d, cat) != A
  {
    GroupUnknownIff(d, cat);
  }
}
