/**
 * The patient record, its field names, the CAT sub-record, the
 * validation-error map and the treatment record.
 * Every clinical number is kept as the text the clinician typed; "" is unset.
 */
module Types {

  datatype PatientData = PatientData(
    patientName: string,
    patientAge: string,
    gender: string,
    dyspnea: bool,
    chronicCough: bool,
    sputumProduction: bool,
    recurrentInfections: bool,
    smokingHistory: bool,
    occupationalExposure: bool,
    biomassExposure: bool,
    airPollution: bool,
    preBronchodilatorFEV1FVC: string,
    postBronchodilatorFEV1FVC: string,
    fev1Predicted: string,
    mmrcScore: string,            // '0'..'4'
    catCough: string,             // each CAT item '0'..'5'
    catPhlegm: string,
    catChestTightness: string,
    catBreathlessness: string,
    catActivityLimitation: string,
    catConfidenceLeaving: string,
    catSleep: string,
    catEnergy: string,
    exacerbationsLastYear: string,
    hospitalizationsLastYear: string,
    bloodEosinophils: string,
    currentTreatment: seq<string>,
    comorbidities: seq<string>)

  /** `keyof PatientData`. */
  datatype Field =
    | PatientName | PatientAge | Gender
    | Dyspnea | ChronicCough | SputumProduction | RecurrentInfections
    | SmokingHistory | OccupationalExposure | BiomassExposure | AirPollution
    | PreBronchodilatorFEV1FVC | PostBronchodilatorFEV1FVC | Fev1Predicted
    | MmrcScore
    | CatCough | CatPhlegm | CatChestTightness | CatBreathlessness
    | CatActivityLimitation | CatConfidenceLeaving | CatSleep | CatEnergy
    | ExacerbationsLastYear | HospitalizationsLastYear
    | BloodEosinophils
    | CurrentTreatment | Comorbidities

  /** `PatientData[K]` for some key K: a text, a checkbox or a list. */
  datatype Value = Text(text: string) | Flag(flag: bool) | Items(items: seq<string>)

  /** The text, the box state or the list a value carries; a default for the other kinds. */
  function TextOf(v: Value): string { if v.Text? then v.text else "" }
  function FlagOf(v: Value): bool { v.Flag? && v.flag }
  function ItemsOf(v: Value): seq<string> { if v.Items? then v.items else [] }

  /** Whether `v` has the type that field `f` declares. */
  predicate HasType(f: Field, v: Value) {
    match f
    case Dyspnea | ChronicCough | SputumProduction | RecurrentInfections
      | SmokingHistory | OccupationalExposure | BiomassExposure | AirPollution => v.Flag?
    case CurrentTreatment | Comorbidities => v.Items?
    case _ => v.Text?
  }

  /** `d[f]`. */
  function Get(d: PatientData, f: Field): (v: Value)
    ensures HasType(f, v)
  {
    match f
    case PatientName => Text(d.patientName)
    case PatientAge => Text(d.patientAge)
    case Gender => Text(d.gender)
    case Dyspnea => Flag(d.dyspnea)
    case ChronicCough => Flag(d.chronicCough)
    case SputumProduction => Flag(d.sputumProduction)
    case RecurrentInfections => Flag(d.recurrentInfections)
    case SmokingHistory => Flag(d.smokingHistory)
    case OccupationalExposure => Flag(d.occupationalExposure)
    case BiomassExposure => Flag(d.biomassExposure)
    case AirPollution => Flag(d.airPollution)
    case PreBronchodilatorFEV1FVC => Text(d.preBronchodilatorFEV1FVC)
    case PostBronchodilatorFEV1FVC => Text(d.postBronchodilatorFEV1FVC)
    case Fev1Predicted => Text(d.fev1Predicted)
    case MmrcScore => Text(d.mmrcScore)
    case CatCough => Text(d.catCough)
    case CatPhlegm => Text(d.catPhlegm)
    case CatChestTightness => Text(d.catChestTightness)
    case CatBreathlessness => Text(d.catBreathlessness)
    case CatActivityLimitation => Text(d.catActivityLimitation)
    case CatConfidenceLeaving => Text(d.catConfidenceLeaving)
    case CatSleep => Text(d.catSleep)
    case CatEnergy => Text(d.catEnergy)
    case ExacerbationsLastYear => Text(d.exacerbationsLastYear)
    case HospitalizationsLastYear => Text(d.hospitalizationsLastYear)
    case BloodEosinophils => Text(d.bloodEosinophils)
    case CurrentTreatment => Items(d.currentTreatment)
    case Comorbidities => Items(d.comorbidities)
  }

  /** `{ ...d, [f]: v }`: the record with field `f` replaced by `v`. */
  function WithField(d: PatientData, f: Field, v: Value): PatientData {
    PatientData(
      if f == PatientName then TextOf(v) else d.patientName,
      if f == PatientAge then TextOf(v) else d.patientAge,
      if f == Gender then TextOf(v) else d.gender,
      if f == Dyspnea then FlagOf(v) else d.dyspnea,
      if f == ChronicCough then FlagOf(v) else d.chronicCough,
      if f == SputumProduction then FlagOf(v) else d.sputumProduction,
      if f == RecurrentInfections then FlagOf(v) else d.recurrentInfections,
      if f == SmokingHistory then FlagOf(v) else d.smokingHistory,
      if f == OccupationalExposure then FlagOf(v) else d.occupationalExposure,
      if f == BiomassExposure then FlagOf(v) else d.biomassExposure,
      if f == AirPollution then FlagOf(v) else d.airPollution,
      if f == PreBronchodilatorFEV1FVC then TextOf(v) else d.preBronchodilatorFEV1FVC,
      if f == PostBronchodilatorFEV1FVC then TextOf(v) else d.postBronchodilatorFEV1FVC,
      if f == Fev1Predicted then TextOf(v) else d.fev1Predicted,
      if f == MmrcScore then TextOf(v) else d.mmrcScore,
      if f == CatCough then TextOf(v) else d.catCough,
      if f == CatPhlegm then TextOf(v) else d.catPhlegm,
      if f == CatChestTightness then TextOf(v) else d.catChestTightness,
      if f == CatBreathlessness then TextOf(v) else d.catBreathlessness,
      if f == CatActivityLimitation then TextOf(v) else d.catActivityLimitation,
      if f == CatConfidenceLeaving then TextOf(v) else d.catConfidenceLeaving,
      if f == CatSleep then TextOf(v) else d.catSleep,
      if f == CatEnergy then TextOf(v) else d.catEnergy,
      if f == ExacerbationsLastYear then TextOf(v) else d.exacerbationsLastYear,
      if f == HospitalizationsLastYear then TextOf(v) else d.hospitalizationsLastYear,
      if f == BloodEosinophils then TextOf(v) else d.bloodEosinophils,
      if f == CurrentTreatment then ItemsOf(v) else d.currentTreatment,
      if f == Comorbidities then ItemsOf(v) else d.comorbidities)
  }

  /** Replacing field `f` gives it the value `v`. */
  lemma WithFieldSets(d: PatientData, f: Field, v: Value)
    requires HasType(f, v)
    ensures Get(WithField(d, f, v), f) == v
  {
    match f
    case PatientName =>
    case PatientAge =>
    case Gender =>
    case Dyspnea =>
    case ChronicCough =>
    case SputumProduction =>
    case RecurrentInfections =>
    case SmokingHistory =>
    case OccupationalExposure =>
    case BiomassExposure =>
    case AirPollution =>
    case PreBronchodilatorFEV1FVC =>
    case PostBronchodilatorFEV1FVC =>
    case Fev1Predicted =>
    case MmrcScore =>
    case CatCough =>
    case CatPhlegm =>
    case CatChestTightness =>
    case CatBreathlessness =>
    case CatActivityLimitation =>
    case CatConfidenceLeaving =>
    case CatSleep =>
    case CatEnergy =>
    case ExacerbationsLastYear =>
    case HospitalizationsLastYear =>
    case BloodEosinophils =>
    case CurrentTreatment =>
    case Comorbidities =>
  }

  /** WithFieldKeeps for each quarter of the fields `g` may be. */
  lemma WithFieldKeepsIdentity(d: PatientData, f: Field, v: Value, g: Field)
    requires g != f
    requires g == PatientName || g == PatientAge || g == Gender || g == Dyspnea || g == ChronicCough || g == SputumProduction || g == RecurrentInfections
    ensures Get(WithField(d, f, v), g) == Get(d, g)
  {
  }

  lemma WithFieldKeepsExposure(d: PatientData, f: Field, v: Value, g: Field)
    requires g != f
    requires g == SmokingHistory || g == OccupationalExposure || g == BiomassExposure || g == AirPollution || g == PreBronchodilatorFEV1FVC || g == PostBronchodilatorFEV1FVC || g == Fev1Predicted
    ensures Get(WithField(d, f, v), g) == Get(d, g)
  {
  }

  lemma WithFieldKeepsSymptoms(d: PatientData, f: Field, v: Value, g: Field)
    requires g != f
    requires g == MmrcScore || g == CatCough || g == CatPhlegm || g == CatChestTightness || g == CatBreathlessness || g == CatActivityLimitation || g == CatConfidenceLeaving
    ensures Get(WithField(d, f, v), g) == Get(d, g)
  {
  }

  lemma WithFieldKeepsHistory(d: PatientData, f: Field, v: Value, g: Field)
    requires g != f
    requires g == CatSleep || g == CatEnergy || g == ExacerbationsLastYear || g == HospitalizationsLastYear || g == BloodEosinophils || g == CurrentTreatment || g == Comorbidities
    ensures Get(WithField(d, f, v), g) == Get(d, g)
  {
  }

  /** Replacing field `f` leaves the field `g` as it was. */
  lemma WithFieldKeeps(d: PatientData, f: Field, v: Value, g: Field)
    requires g != f
    ensures Get(WithField(d, f, v), g) == Get(d, g)
  {
    if g == PatientName || g == PatientAge || g == Gender || g == Dyspnea || g == ChronicCough || g == SputumProduction || g == RecurrentInfections {
      WithFieldKeepsIdentity(d, f, v, g);
    } else if g == SmokingHistory || g == OccupationalExposure || g == BiomassExposure || g == AirPollution || g == PreBronchodilatorFEV1FVC || g == PostBronchodilatorFEV1FVC || g == Fev1Predicted {
      WithFieldKeepsExposure(d, f, v, g);
    } else if g == MmrcScore || g == CatCough || g == CatPhlegm || g == CatChestTightness || g == CatBreathlessness || g == CatActivityLimitation || g == CatConfidenceLeaving {
      WithFieldKeepsSymptoms(d, f, v, g);
    } else {
      WithFieldKeepsHistory(d, f, v, g);
    }
  }

  /** `{ ...d, [f]: v }` changes field `f` to `v` and no other field. */
  lemma WithFieldFrame(d: PatientData, f: Field, v: Value)
    requires HasType(f, v)
    ensures Get(WithField(d, f, v), f) == v
    ensures forall g :: g != f ==> Get(WithField(d, f, v), g) == Get(d, g)
  {
    WithFieldSets(d, f, v);
    forall g | g != f
      ensures Get(WithField(d, f, v), g) == Get(d, g)
    {
      WithFieldKeeps(d, f, v, g);
    }
  }

  /** The keys of `CATScoreFields`, in questionnaire order. */
  datatype CatItem =
    | Cough | Phlegm | ChestTightness | Breathlessness
    | ActivityLimitation | ConfidenceLeaving | Sleep | Energy

  const CatItems: seq<CatItem> :=
    [Cough, Phlegm, ChestTightness, Breathlessness, ActivityLimitation, ConfidenceLeaving, Sleep, Energy]

  /** `CATScoreFields`: `Pick<PatientData, 'catCough' | ... | 'catEnergy'>`. */
  datatype CATScoreFields = CATScoreFields(
    catCough: string,
    catPhlegm: string,
    catChestTightness: string,
    catBreathlessness: string,
    catActivityLimitation: string,
    catConfidenceLeaving: string,
    catSleep: string,
    catEnergy: string)

  /** The `PatientData` key that a CAT item picks. */
  function CatField(item: CatItem): (f: Field) {
    match item
    case Cough => CatCough
    case Phlegm => CatPhlegm
    case ChestTightness => CatChestTightness
    case Breathlessness => CatBreathlessness
    case ActivityLimitation => CatActivityLimitation
    case ConfidenceLeaving => CatConfidenceLeaving
    case Sleep => CatSleep
    case Energy => CatEnergy
  }

  /** `c[item]`. */
  function Score(c: CATScoreFields, item: CatItem): string {
    match item
    case Cough => c.catCough
    case Phlegm => c.catPhlegm
    case ChestTightness => c.catChestTightness
    case Breathlessness => c.catBreathlessness
    case ActivityLimitation => c.catActivityLimitation
    case ConfidenceLeaving => c.catConfidenceLeaving
    case Sleep => c.catSleep
    case Energy => c.catEnergy
  }

  /** `{ ...c, [item]: v }`. */
  function WithScore(c: CATScoreFields, item: CatItem, v: string): (r: CATScoreFields)
    ensures Score(r, item) == v
    ensures forall j :: j != item ==> Score(r, j) == Score(c, j)
  {
    match item
    case Cough => c.(catCough := v)
    case Phlegm => c.(catPhlegm := v)
    case ChestTightness => c.(catChestTightness := v)
    case Breathlessness => c.(catBreathlessness := v)
    case ActivityLimitation => c.(catActivityLimitation := v)
    case ConfidenceLeaving => c.(catConfidenceLeaving := v)
    case Sleep => c.(catSleep := v)
    case Energy => c.(catEnergy := v)
  }

  /** The questionnaire has eight items, each listed once, and they pick
      eight different keys of the patient record. */
  lemma CatItemsDistinct()
    ensures |CatItems| == 8
    ensures forall item :: item in CatItems
    ensures forall i, j :: 0 <= i < j < |CatItems| ==> CatField(CatItems[i]) != CatField(CatItems[j])
  {
    forall item
      ensures item in CatItems
    {
      match item
      case Cough => assert CatItems[0] == item;
      case Phlegm => assert CatItems[1] == item;
      case ChestTightness => assert CatItems[2] == item;
      case Breathlessness => assert CatItems[3] == item;
      case ActivityLimitation => assert CatItems[4] == item;
      case ConfidenceLeaving => assert CatItems[5] == item;
      case Sleep => assert CatItems[6] == item;
      case Energy => assert CatItems[7] == item;
    }
  }

  /** The keys of `ValidationErrors`: any record key, or the synthetic
      `catScore` key for the incomplete CAT questionnaire. */
  datatype ErrorKey = FieldKey(field: Field) | CatScoreKey

  /** `Partial<Record<ErrorKey, string>>`: a key absent from the map has no message. */
  type ValidationErrors = map<ErrorKey, string>

  /** A recommendation: the primary therapy, the ordered list of options and a note. */
  datatype TreatmentRecommendation = TreatmentRecommendation(
    primary: string,
    options: seq<string>,
    note: string)
}
