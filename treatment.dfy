/**
 * Initial pharmacological treatment by ABE group (GOLD 2025, chapter 3),
 * the blood eosinophil advisory that accompanies it, and the treatment
 * sentence of the printed report.
 */
module Treatment {
  import opened Wrappers
  import opened JsText
  import opened Types
  import opened Groups

  const GroupAPrimary: string := "Un bronchodilatateur"
  const GroupBPrimary: string := "Association LABA + LAMA"
  const GroupEPrimary: string := "Association LABA + LAMA. Considérer LABA + LAMA + CSI si éosinophiles ≥ 300 cellules/µL."
  const IncompletePrimary: string := "Évaluation incomplète pour déterminer le groupe GOLD."

  const GroupAOptions: seq<string> := [
    "SABA (Salbutamol, Terbutaline) au besoin",
    "SAMA (Ipratropium) au besoin",
    "LABA (Formotérol, Salmétérol, Indacatérol, Olodatérol)",
    "LAMA (Tiotropium, Glycopyrronium, Uméclidinium, Aclidinium)"]
  const GroupBOptions: seq<string> := [
    "Formotérol/Glycopyrronium",
    "Indacatérol/Glycopyrronium",
    "Vilanterol/Umeclidinium",
    "Formotérol/Aclidinium",
    "Tiotropium/Olodatérol"]
  const GroupEOptions: seq<string> := [
    "Si éosinophiles ≥ 300 cellules/µL: LABA + LAMA + CSI (ex: Formotérol/Glycopyrronium/Budésonide, Vilanterol/Umeclidinium/Fluticasone furoate)",
    "Si éosinophiles < 300 cellules/µL: LABA + LAMA. Si exacerbations persistent, discuter CSI au cas par cas (surtout si éosinophiles 100-300 et historique d'exacerbations malgré LABA+LAMA).",
    "Autres options si exacerbations persistantes malgré LABA+LAMA+CSI ou contre-indication aux CSI : Roflumilast (si VEMS < 50% et bronchite chronique), Azithromycine (chez anciens fumeurs)."]

  const GroupANote: string := "Le choix dépend de la disponibilité et de la réponse individuelle. Un traitement de fond par LABA ou LAMA peut être envisagé si les symptômes sont plus persistants malgré l'utilisation de BDCA."
  const GroupBNote: string := "Une combinaison en un seul inhalateur est généralement préférée pour améliorer l'observance."
  const GroupENote: string := "Une surveillance étroite des exacerbations et des effets secondaires des CSI est nécessaire."
  const IncompleteNote: string := "Veuillez compléter les étapes précédentes."

  /** getInitialTreatment: a fixed recommendation per known group and the
      "incomplete evaluation" placeholder, with no options, for any other.
      It takes no eosinophil count: group E is not split by it here. */
  function GetInitialTreatment(g: Group): (r: TreatmentRecommendation)
    ensures r.options == [] <==> g == Inconnu
    ensures r.primary != "" && r.note != ""
  {
    match g
    case A => TreatmentRecommendation(GroupAPrimary, GroupAOptions, GroupANote)
    case B => TreatmentRecommendation(GroupBPrimary, GroupBOptions, GroupBNote)
    case E => TreatmentRecommendation(GroupEPrimary, GroupEOptions, GroupENote)
    case Inconnu => TreatmentRecommendation(IncompletePrimary, [], IncompleteNote)
  }

  /** Different groups get different primary recommendations, so the
      recommendation identifies the group. */
  lemma TreatmentIdentifiesGroup(g: Group, h: Group)
    ensures GetInitialTreatment(g).primary == GetInitialTreatment(h).primary <==> g == h
  {
    if g != h {
      var p, q := GetInitialTreatment(g).primary, GetInitialTreatment(h).primary;
      assert p[0] != q[0] || p[1] != q[1] || |p| != |q|;
    }
  }

  /** The strength of support for adding an inhaled corticosteroid. */
  datatype EosTier = StrongSupport | ConditionalSupport | LowSupport

  /** The tier of an eosinophil count (cells/µL); each tier includes its lower bound. */
  function TierOf(eos: int): (t: EosTier)
    ensures t == StrongSupport <==> 300 <= eos
    ensures t == ConditionalSupport <==> 100 <= eos < 300
    ensures t == LowSupport <==> eos < 100
  {
    if eos >= 300 then StrongSupport
    else if eos >= 100 then ConditionalSupport
    else LowSupport
  }

  /** `bloodEos = field ? parseInt(field) : null`, shown when not null and
      not NaN: the advisory tier, or None when no advisory is shown. */
  function EosinophilAdvisory(bloodEosinophils: string): (r: Option<EosTier>)
    ensures r.Some? <==> ParseInt(bloodEosinophils).Some?
    ensures r.Some? ==> r.value == TierOf(ParseInt(bloodEosinophils).value)
  {
    IntParsedIsTruthy(bloodEosinophils);
    var bloodEos := if Truthy(bloodEosinophils) then Some(ParseInt(bloodEosinophils)) else None;
    if bloodEos.Some? && bloodEos.value.Some? then Some(TierOf(bloodEos.value.value)) else None
  }

  /** The tier boundaries: 300 and 100 belong to the upper tier. */
  lemma TierBoundaries()
    ensures TierOf(300) == StrongSupport && TierOf(299) == ConditionalSupport
    ensures TierOf(100) == ConditionalSupport && TierOf(99) == LowSupport
  {
  }

  /** A typed eosinophil count gets the advisory of its tier. */
  lemma AdvisoryOfNumber(n: nat)
    ensures EosinophilAdvisory(DecimalString(n)) == Some(TierOf(n))
  {
    ParseIntDecimalString(n);
  }

  /** The E-group sentence of the report adds ICS when
      `bloodEosinophils && parseInt(bloodEosinophils) >= 300`. */
  predicate ReportAddsIcs(bloodEosinophils: string) {
    Truthy(bloodEosinophils) && ParseInt(bloodEosinophils).Some? && ParseInt(bloodEosinophils).value >= 300
  }

  /** The report adds ICS exactly when the live advisory shows strong support. */
  lemma ReportIcsMatchesAdvisory(bloodEosinophils: string)
    ensures ReportAddsIcs(bloodEosinophils) <==> EosinophilAdvisory(bloodEosinophils) == Some(StrongSupport)
  {
  }

  const ReportApproachA: string := "Un bronchodilatateur (BDCA au besoin, ou LABA ou LAMA en traitement de fond si symptômes plus persistants)."
  const ReportApproachB: string := "Association LABA + LAMA."
  const ReportApproachE: string := "Association LABA + LAMA. "
  const ReportAddIcs: string := "Ajouter CSI (LABA+LAMA+CSI)."
  const ReportConsiderIcs: string := "Considérer CSI si éosinophiles ≥ 100 et exacerbations fréquentes/sévères."
  const ReportApproachUnknown: string := "Veuillez compléter l'évaluation pour des recommandations spécifiques."

  /** The report's "recommended approach" sentence for a group. */
  function ReportApproach(g: Group, bloodEosinophils: string): string {
    match g
    case A => ReportApproachA
    case B => ReportApproachB
    case E => ReportApproachE + (if ReportAddsIcs(bloodEosinophils) then ReportAddIcs else ReportConsiderIcs)
    case Inconnu => ReportApproachUnknown
  }

  /** Only the E sentence reads the eosinophil count, and it changes only at
      300: two counts on the same side of 300 give the same sentence. */
  lemma ReportApproachEosinophils(g: Group, e1: string, e2: string)
    requires ReportAddsIcs(e1) == ReportAddsIcs(e2)
    ensures ReportApproach(g, e1) == ReportApproach(g, e2)
  {
  }

  /** For group E the ICS sentence is chosen exactly by the strong tier. */
  lemma ReportEIcsIffStrong(bloodEosinophils: string)
    ensures ReportApproach(E, bloodEosinophils) == ReportApproachE + ReportAddIcs <==>
      EosinophilAdvisory(bloodEosinophils) == Some(StrongSupport)
  {
  }
}
